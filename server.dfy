/** The telephony bridge of one call: the media relay from the telephony
    socket to the transcription socket (re-framed into 400-byte chunks), the
    filter that turns final transcripts into agent turns, the turn loop that
    asks the agent, speaks its answers back to the caller and looks up the
    knowledge base on request, and the prompt that carries what was found.
    Sockets are sequences: what is received is an input, what is sent is a
    field that only grows. JSON is a tree value; Base64 is abstract. */
module Server {
  import opened Chunking
  import opened Tts
  import opened Agents
  import ConvertAudio
  import VectorDb

  /** 50 ms of μ-law at 8 kHz. */
  const FrameBytes: nat := 400

  /** A decoded JSON value. `JBase64(data)` is a JSON string holding the
      Base64 text of `data`; object members keep their order, duplicates
      included. */
  datatype Json =
    | JNull
    | JBool(b: bool)
    | JInt(i: int)
    | JStr(s: string)
    | JBase64(data: seq<byte>)
    | JObject(members: seq<(string, Json)>)

  /** Member lookup in a decoded object: the last member with that key wins. */
  function Lookup(members: seq<(string, Json)>, key: string): Option<Json>
  {
    if members == [] then None
    else if members[|members| - 1].0 == key then Some(members[|members| - 1].1)
    else Lookup(members[..|members| - 1], key)
  }

  /** Python truthiness of a JSON value. */
  predicate Truthy(v: Json)
  {
    match v
    case JNull => false
    case JBool(b) => b
    case JInt(i) => i != 0
    case JStr(s) => s != ""
    case JBase64(data) => data != []
    case JObject(members) => members != []
  }

  // ---------------------------------------------------------------------------
  // Inbound media relay (`twilio_to_aai`)

  /** One receive on a socket: a text that decodes as JSON, a text that does
      not (the decoder raises), or the peer disconnecting. */
  datatype Inbound = Text(msg: Json) | Garbled | Closed

  /** What the dispatch of `twilio_to_aai` makes of one decoded message. */
  datatype TwilioEvent = Media(chunk: seq<byte>) | Start(streamSid: Json) | Stop | Ignored | Raises

  /** The dispatch on the `event` member: a media payload, a stream id, a
      stop, an event it ignores, or a raise where a member it reads is
      missing or not of the kind it indexes (or the message is no object). */
  function Classify(msg: Json): (e: TwilioEvent)
    ensures !msg.JObject? ==> e == Raises
    ensures e.Stop? <==> msg.JObject? && Lookup(msg.members, "event") == Some(JStr("stop"))
    ensures e.Ignored? <==> msg.JObject? && Lookup(msg.members, "event") !in {Some(JStr("media")), Some(JStr("stop")), Some(JStr("start"))}
    ensures e.Media? ==>
      msg.JObject? && Lookup(msg.members, "event") == Some(JStr("media")) &&
      Lookup(msg.members, "media").Some? && Lookup(msg.members, "media").value.JObject? &&
      Lookup(Lookup(msg.members, "media").value.members, "payload") == Some(JBase64(e.chunk))
    ensures e.Start? ==>
      msg.JObject? && Lookup(msg.members, "event") == Some(JStr("start")) &&
      Lookup(msg.members, "start").Some? && Lookup(msg.members, "start").value.JObject? &&
      Lookup(Lookup(msg.members, "start").value.members, "streamSid") == Some(e.streamSid)
  {
    match msg
    case JObject(members) =>
      var ev := Lookup(members, "event");
      if ev == Some(JStr("media")) then
        match Lookup(members, "media")
        case Some(JObject(media)) =>
          (match Lookup(media, "payload")
           case Some(JBase64(data)) => Media(data)
           case _ => Raises)
        case _ => Raises
      else if ev == Some(JStr("stop")) then Stop
      else if ev == Some(JStr("start")) then
        match Lookup(members, "start")
        case Some(JObject(start)) =>
          (match Lookup(start, "streamSid")
           case Some(sid) => Start(sid)
           case None => Raises)
        case _ => Raises
      else Ignored
    case _ => Raises
  }

  /** What goes to the transcription socket: binary audio or the
      `{"type": "Terminate"}` text. */
  datatype AaiMessage = Binary(bytes: seq<byte>) | Terminate

  function AudioMessages(frames: seq<seq<byte>>): (r: seq<AaiMessage>)
    ensures |r| == |frames|
    ensures forall i :: 0 <= i < |frames| ==> r[i] == Binary(frames[i])
  {
    seq(|frames|, i requires 0 <= i < |frames| => Binary(frames[i]))
  }

  /** Why the relay stopped reading: still listening, a `stop` event, the
      peer disconnecting, or an exception (which leaves the coroutine). */
  datatype Ending = Listening | Stopped | Disconnected | Failed

  /** The relay's state: the re-framing buffer, the stored stream id
      (JSON null until a `start`), what was sent upstream, how many
      receives were made and why reading ended. */
  datatype Relay = Relay(buf: seq<byte>, sid: Json, sent: seq<AaiMessage>, read: nat, ending: Ending)

  function FreshRelay(): Relay
  {
    Relay([], JNull, [], 0, Listening)
  }

  /** What one received message does to the relay in `twilio_to_aai` (the
      loop counts the receive itself). */
  function Receive(r: Relay, m: Inbound): (r': Relay)
    // the loop counts the receive; upstream messages are only appended
    ensures r'.read == r.read && r.sent <= r'.sent
    // the stream id changes only on a `start`
    ensures r'.sid != r.sid ==> m.Text? && Classify(m.msg).Start?
    // a garbled text or a raising dispatch ends reading and sends nothing
    ensures m.Garbled? || (m.Text? && Classify(m.msg).Raises?) ==> r' == r.(ending := Failed)
    // a disconnect empties the buffer and sends Terminate last
    ensures m.Closed? ==> r'.buf == [] && r'.ending == Disconnected && r'.sent != [] && r'.sent[|r'.sent| - 1] == Terminate
    // only a `stop`, a disconnect or a raise stops the loop
    ensures r'.ending == Listening <==> r.ending == Listening && m.Text? && !Classify(m.msg).Stop? && !Classify(m.msg).Raises?
  {
    match m
    case Garbled => r.(ending := Failed)
    case Closed =>
      r.(buf := [], sent := r.sent + (if r.buf != [] then [Binary(r.buf)] else []) + [Terminate],
         ending := Disconnected)
    case Text(msg) =>
      match Classify(msg)
      case Raises => r.(ending := Failed)
      case Stop => r.(ending := Stopped)
      case Start(sid) => r.(sid := sid)
      case Ignored => r
      case Media(chunk) =>
        var split := SplitFrames(r.buf + chunk, FrameBytes);
        r.(buf := split.1, sent := r.sent + AudioMessages(split.0))
  }

  /** How one received message changes a relay. */
  type RelayStep = (Relay, Inbound) -> Relay

  /** The receive loop with its step as a parameter: each receive is
      counted, and nothing more is read once the relay stopped listening. */
  function RunWith(step: RelayStep, init: Relay, inbound: seq<Inbound>): (r: Relay)
    ensures init.ending != Listening ==> r == init
    ensures init.ending == Listening ==> init.read <= r.read <= init.read + |inbound|
    ensures r.ending == Listening ==> r.read == init.read + |inbound|
    decreases |inbound|
  {
    if inbound == [] then init
    else
      var p := RunWith(step, init, inbound[..|inbound| - 1]);
      if p.ending != Listening then p else step(p, inbound[|inbound| - 1]).(read := p.read + 1)
  }

  /** `twilio_to_aai` over a sequence of receives. */
  function Run(init: Relay, inbound: seq<Inbound>): (r: Relay)
    ensures init.ending != Listening ==> r == init
    ensures init.ending == Listening ==> init.read <= r.read <= init.read + |inbound|
    ensures r.ending == Listening ==> r.read == init.read + |inbound|
  {
    RunWith(Receive, init, inbound)
  }

  /** One more receive after receives that left the relay listening. */
  lemma RunWithLast(step: RelayStep, init: Relay, inbound: seq<Inbound>)
    requires inbound != [] && RunWith(step, init, inbound[..|inbound| - 1]).ending == Listening
    ensures var p := RunWith(step, init, inbound[..|inbound| - 1]);
      RunWith(step, init, inbound) == step(p, inbound[|inbound| - 1]).(read := p.read + 1)
  {
  }

  /** Once reading has ended, later receives are never made. */
  lemma {:induction false} RunStopsReading(step: RelayStep, init: Relay, inbound: seq<Inbound>, i: nat)
    requires i <= |inbound| && RunWith(step, init, inbound[..i]).ending != Listening
    ensures RunWith(step, init, inbound) == RunWith(step, init, inbound[..i])
    decreases |inbound| - i
  {
    if i < |inbound| {
      var prefix := inbound[..|inbound| - 1];
      assert prefix[..i] == inbound[..i];
      RunStopsReading(step, init, prefix, i);
    } else {
      assert inbound[..i] == inbound;
    }
  }

  /** The bytes one receive carries: the payload of a `media` event, none otherwise. */
  function MediaOf(m: Inbound): seq<byte>
  {
    if m.Text? && Classify(m.msg).Media? then Classify(m.msg).chunk else []
  }

  /** The bytes carried by the `media` events among some receives, in order. */
  function MediaBytes(inbound: seq<Inbound>): seq<byte>
  {
    if inbound == [] then []
    else MediaBytes(inbound[..|inbound| - 1]) + MediaOf(inbound[|inbound| - 1])
  }

  function AudioBytes(sent: seq<AaiMessage>): seq<byte>
  {
    if sent == [] then []
    else
      var last := sent[|sent| - 1];
      AudioBytes(sent[..|sent| - 1]) + (if last.Binary? then last.bytes else [])
  }

  lemma {:induction false} AudioBytesConcat(a: seq<AaiMessage>, b: seq<AaiMessage>)
    ensures AudioBytes(a + b) == AudioBytes(a) + AudioBytes(b)
    decreases |b|
  {
    if b == [] {
      assert a + b == a;
    } else {
      var b' := b[..|b| - 1];
      assert (a + b)[..|a + b| - 1] == a + b';
      AudioBytesConcat(a, b');
    }
  }

  lemma {:induction false} AudioBytesOfFrames(frames: seq<seq<byte>>)
    ensures AudioBytes(AudioMessages(frames)) == Flatten(frames)
    decreases |frames|
  {
    if frames != [] {
      var init := frames[..|frames| - 1];
      assert AudioMessages(frames)[..|frames| - 1] == AudioMessages(init);
      AudioBytesOfFrames(init);
    }
  }

  /** One receive keeps the bytes: what was sent upstream, then the buffer,
      is what was there before followed by this receive's media bytes. */
  lemma ReceiveConserves(r: Relay, m: Inbound)
    ensures AudioBytes(Receive(r, m).sent) + Receive(r, m).buf ==
            AudioBytes(r.sent) + r.buf + MediaOf(m)
  {
    match m
    case Garbled =>
      assert AudioBytes(r.sent) + r.buf + [] == AudioBytes(r.sent) + r.buf;
    case Closed =>
      DisconnectConserves(r.sent, r.buf);
    case Text(msg) =>
      var ev := Classify(msg);
      if ev.Media? {
        MediaConserves(r.sent, r.buf, ev.chunk);
      } else {
        ReceiveKeepsAudio(r, m);
        assert AudioBytes(r.sent) + r.buf + [] == AudioBytes(r.sent) + r.buf;
      }
  }

  /** A receive other than a `media` event or a disconnect sends nothing and
      keeps the buffer. */
  lemma ReceiveKeepsAudio(r: Relay, m: Inbound)
    requires m.Text? && !Classify(m.msg).Media?
    ensures Receive(r, m).sent == r.sent && Receive(r, m).buf == r.buf
  {
  }

  lemma DisconnectConserves(sent: seq<AaiMessage>, buf: seq<byte>)
    ensures AudioBytes(sent + (if buf != [] then [Binary(buf)] else []) + [Terminate]) == AudioBytes(sent) + buf
  {
    var extra := (if buf != [] then [Binary(buf)] else []) + [Terminate];
    assert sent + (if buf != [] then [Binary(buf)] else []) + [Terminate] == sent + extra;
    AudioBytesConcat(sent, extra);
    assert extra[..|extra| - 1] == (if buf != [] then [Binary(buf)] else []);
    if buf != [] {
      assert [Binary(buf)][..0] == [];
    }
  }

  lemma MediaConserves(sent: seq<AaiMessage>, buf: seq<byte>, chunk: seq<byte>)
    ensures var split := SplitFrames(buf + chunk, FrameBytes);
      AudioBytes(sent + AudioMessages(split.0)) + split.1 == AudioBytes(sent) + buf + chunk
  {
    var split := SplitFrames(buf + chunk, FrameBytes);
    FramesConserve(sent, split.0, split.1, buf + chunk);
    assert AudioBytes(sent) + (buf + chunk) == AudioBytes(sent) + buf + chunk;
  }

  lemma FramesConserve(sent: seq<AaiMessage>, frames: seq<seq<byte>>, rest: seq<byte>, data: seq<byte>)
    requires Flatten(frames) + rest == data
    ensures AudioBytes(sent + AudioMessages(frames)) + rest == AudioBytes(sent) + data
  {
    var a, f := AudioBytes(sent), Flatten(frames);
    assert AudioBytes(sent + AudioMessages(frames)) == a + f by {
      AudioBytesConcat(sent, AudioMessages(frames));
      AudioBytesOfFrames(frames);
    }
    assert (a + f) + rest == a + (f + rest);
  }

  /** Conservation and order: the audio sent upstream, then the buffer, are
      the bytes of every `media` payload received, in arrival order. On
      disconnect the buffer is empty, so everything received was sent. */
  lemma RunConserves(init: Relay, inbound: seq<Inbound>)
    requires init.ending == Listening
    ensures var r := Run(init, inbound);
      AudioBytes(r.sent) + r.buf == AudioBytes(init.sent) + init.buf + MediaBytes(inbound[..r.read - init.read])
  {
    forall r: Relay, m: Inbound
      ensures AudioBytes(Receive(r, m).sent) + Receive(r, m).buf == AudioBytes(r.sent) + r.buf + MediaOf(m)
    {
      ReceiveConserves(r, m);
    }
    RunWithConserves(Receive, init, inbound);
  }

  /** Conservation for any step that keeps the bytes of each message. */
  lemma {:induction false} RunWithConserves(step: RelayStep, init: Relay, inbound: seq<Inbound>)
    requires init.ending == Listening
    requires forall r: Relay, m: Inbound ::
      AudioBytes(step(r, m).sent) + step(r, m).buf == AudioBytes(r.sent) + r.buf + MediaOf(m)
    ensures ConservedBy(step, init, inbound)
    decreases |inbound|
  {
    if inbound == [] {
      assert inbound[..0] == [];
    } else {
      var prefix, m := inbound[..|inbound| - 1], inbound[|inbound| - 1];
      RunWithConserves(step, init, prefix);
      var p := RunWith(step, init, prefix);
      if p.ending != Listening {
        ConservedAfterStop(step, init, inbound);
      } else {
        ConservedAfterStep(step, init, inbound);
      }
    }
  }

  /** The audio sent and buffered after some receives is what was there
      before followed by the media of the receives actually made. */
  ghost predicate ConservedBy(step: RelayStep, init: Relay, inbound: seq<Inbound>)
    requires init.ending == Listening
  {
    var r := RunWith(step, init, inbound);
    AudioBytes(r.sent) + r.buf == AudioBytes(init.sent) + init.buf + MediaBytes(inbound[..r.read - init.read])
  }

  lemma ConservedAfterStop(step: RelayStep, init: Relay, inbound: seq<Inbound>)
    requires init.ending == Listening && inbound != []
    requires RunWith(step, init, inbound[..|inbound| - 1]).ending != Listening
    requires ConservedBy(step, init, inbound[..|inbound| - 1])
    ensures ConservedBy(step, init, inbound)
  {
    var prefix := inbound[..|inbound| - 1];
    var p := RunWith(step, init, prefix);
    assert RunWith(step, init, inbound) == p;
    assert inbound[..p.read - init.read] == prefix[..p.read - init.read];
  }

  lemma ConservedAfterStep(step: RelayStep, init: Relay, inbound: seq<Inbound>)
    requires init.ending == Listening && inbound != []
    requires RunWith(step, init, inbound[..|inbound| - 1]).ending == Listening
    requires ConservedBy(step, init, inbound[..|inbound| - 1])
    requires var p := RunWith(step, init, inbound[..|inbound| - 1]);
      var q := step(p, inbound[|inbound| - 1]);
      AudioBytes(q.sent) + q.buf == AudioBytes(p.sent) + p.buf + MediaOf(inbound[|inbound| - 1])
    ensures ConservedBy(step, init, inbound)
  {
    var prefix, m := inbound[..|inbound| - 1], inbound[|inbound| - 1];
    var p := RunWith(step, init, prefix);
    var q := step(p, m);
    RunWithLast(step, init, inbound);
    assert prefix[..p.read - init.read] == prefix;
    ConservesOneMore(AudioBytes(init.sent) + init.buf, AudioBytes(p.sent) + p.buf, AudioBytes(q.sent) + q.buf, prefix, m);
    assert inbound[..p.read + 1 - init.read] == prefix + [m];
  }

  lemma ConservesOneMore(before: seq<byte>, mid: seq<byte>, after: seq<byte>, prefix: seq<Inbound>, m: Inbound)
    requires mid == before + MediaBytes(prefix)
    requires after == mid + MediaOf(m)
    ensures after == before + MediaBytes(prefix + [m])
  {
    MediaBytesSnoc(prefix, m);
    AppendAssoc(before, MediaBytes(prefix), MediaOf(m));
  }

  lemma MediaBytesSnoc(prefix: seq<Inbound>, m: Inbound)
    ensures MediaBytes(prefix + [m]) == MediaBytes(prefix) + MediaOf(m)
  {
    assert (prefix + [m])[..|prefix|] == prefix;
  }

  /** Every message in `sent` is a full 400-byte audio frame. */
  predicate AllFullFrames(sent: seq<AaiMessage>)
  {
    forall i :: 0 <= i < |sent| ==> sent[i].Binary? && |sent[i].bytes| == FrameBytes
  }

  /** The shape of what the relay sends: full frames only while it has not
      seen a disconnect, and at most 399 bytes buffered; after a disconnect,
      full frames, then at most one short non-empty chunk, then a single
      Terminate, with the buffer empty. */
  predicate Framed(r: Relay)
  {
    (r.ending != Disconnected ==> AllFullFrames(r.sent) && |r.buf| < FrameBytes) &&
    (r.ending == Disconnected ==>
      r.buf == [] && |r.sent| > 0 && r.sent[|r.sent| - 1] == Terminate &&
      var body := r.sent[..|r.sent| - 1];
      AllFullFrames(body) ||
      (|body| > 0 && AllFullFrames(body[..|body| - 1]) &&
       body[|body| - 1].Binary? && 0 < |body[|body| - 1].bytes| < FrameBytes))
  }

  lemma ReceiveFramed(r: Relay, m: Inbound)
    requires Framed(r) && r.ending == Listening
    ensures Framed(Receive(r, m))
  {
    match m
    case Garbled =>
    case Closed =>
      DisconnectFramed(r.sent, r.buf);
    case Text(msg) =>
      var ev := Classify(msg);
      if ev.Media? {
        var split := SplitFrames(r.buf + ev.chunk, FrameBytes);
        FullFramesAppend(r.sent, split.0);
        assert Receive(r, m) == r.(buf := split.1, sent := r.sent + AudioMessages(split.0));
      } else {
        ReceiveKeepsAudio(r, m);
        assert Receive(r, m).ending != Disconnected;
      }
  }

  lemma DisconnectFramed(sent: seq<AaiMessage>, buf: seq<byte>)
    requires AllFullFrames(sent) && |buf| < FrameBytes
    ensures Framed(Relay([], JNull, sent + (if buf != [] then [Binary(buf)] else []) + [Terminate], 0, Disconnected))
  {
    var out := sent + (if buf != [] then [Binary(buf)] else []) + [Terminate];
    var body := out[..|out| - 1];
    assert body == sent + (if buf != [] then [Binary(buf)] else []);
    if buf != [] {
      assert body[..|body| - 1] == sent;
    }
  }

  lemma FullFramesAppend(sent: seq<AaiMessage>, frames: seq<seq<byte>>)
    requires AllFullFrames(sent) && AllSized(frames, FrameBytes)
    ensures AllFullFrames(sent + AudioMessages(frames))
  {
    var more := AudioMessages(frames);
    forall i | 0 <= i < |sent + more|
      ensures (sent + more)[i].Binary? && |(sent + more)[i].bytes| == FrameBytes
    {
      if i >= |sent| {
        assert (sent + more)[i] == more[i - |sent|];
      }
    }
  }

  /** The relay keeps its shape over any receives, from a fresh call on. */
  lemma RunFramed(init: Relay, inbound: seq<Inbound>)
    requires Framed(init)
    ensures Framed(Run(init, inbound))
  {
    forall r: Relay, m: Inbound | Framed(r) && r.ending == Listening
      ensures Framed(Receive(r, m))
    {
      ReceiveFramed(r, m);
    }
    RunWithFramed(Receive, init, inbound);
  }

  lemma {:induction false} RunWithFramed(step: RelayStep, init: Relay, inbound: seq<Inbound>)
    requires Framed(init)
    requires forall r: Relay, m: Inbound :: Framed(r) && r.ending == Listening ==> Framed(step(r, m))
    ensures Framed(RunWith(step, init, inbound))
    decreases |inbound|
  {
    if inbound != [] {
      RunWithFramed(step, init, inbound[..|inbound| - 1]);
    }
  }

  /** No Terminate is ever sent unless the peer disconnected, and then it
      is the last message. */
  lemma FramedTerminate(r: Relay)
    requires Framed(r)
    ensures Terminate in r.sent <==> r.ending == Disconnected
  {
    if r.ending != Disconnected {
      assert forall i :: 0 <= i < |r.sent| ==> r.sent[i] != Terminate;
    }
  }

  /** The stream id `talk` uses: that of the last `start` received, or
      `initial` if there was none. */
  function LastStreamSid(initial: Json, inbound: seq<Inbound>): Json
  {
    if inbound == [] then initial
    else
      var last := inbound[|inbound| - 1];
      if last.Text? && Classify(last.msg).Start? then Classify(last.msg).streamSid
      else LastStreamSid(initial, inbound[..|inbound| - 1])
  }

  lemma RunStreamSid(init: Relay, inbound: seq<Inbound>)
    requires init.ending == Listening
    ensures Run(init, inbound).sid == LastStreamSid(init.sid, inbound[..Run(init, inbound).read - init.read])
  {
    forall r: Relay, m: Inbound
      ensures Receive(r, m).sid == (if m.Text? && Classify(m.msg).Start? then Classify(m.msg).streamSid else r.sid)
    {
    }
    RunWithStreamSid(Receive, init, inbound);
  }

  lemma {:induction false} RunWithStreamSid(step: RelayStep, init: Relay, inbound: seq<Inbound>)
    requires init.ending == Listening
    requires forall r: Relay, m: Inbound ::
      step(r, m).sid == (if m.Text? && Classify(m.msg).Start? then Classify(m.msg).streamSid else r.sid)
    ensures RunWith(step, init, inbound).sid == LastStreamSid(init.sid, inbound[..RunWith(step, init, inbound).read - init.read])
    decreases |inbound|
  {
    var r := RunWith(step, init, inbound);
    if inbound == [] {
      assert inbound[..0] == [];
    } else {
      var prefix := inbound[..|inbound| - 1];
      RunWithStreamSid(step, init, prefix);
      var p := RunWith(step, init, prefix);
      if p.ending != Listening {
        assert inbound[..r.read - init.read] == prefix[..p.read - init.read];
      } else {
        assert prefix[..p.read - init.read] == prefix;
        assert inbound[..r.read - init.read] == inbound;
      }
    }
  }

  // ---------------------------------------------------------------------------
  // Transcript filter (`aai_to_log`)

  /** A transcription message launches a turn when its type is `"Turn"`,
      its transcript is truthy and its `end_of_turn` equals `True` (in
      Python, `1 == True` holds as well). */
  predicate LaunchesTurn(members: seq<(string, Json)>)
    // `end_of_turn` must be truthy, but not every truthy value will do
    ensures LaunchesTurn(members) ==> Lookup(members, "end_of_turn").Some? && Truthy(Lookup(members, "end_of_turn").value)
    ensures Lookup(members, "end_of_turn") == Some(JInt(2)) ==> !LaunchesTurn(members)
    ensures Lookup(members, "type").None? || Lookup(members, "transcript").None? ==> !LaunchesTurn(members)
  {
    Lookup(members, "type") == Some(JStr("Turn")) &&
    Lookup(members, "transcript").Some? && Truthy(Lookup(members, "transcript").value) &&
    (Lookup(members, "end_of_turn") == Some(JBool(true)) || Lookup(members, "end_of_turn") == Some(JInt(1)))
  }

  /** A receive that ends the reader: the socket closing, a text that does
      not decode, or a decoded value that is not an object (`data.get` raises). */
  predicate EndsReader(m: Inbound)
  {
    !m.Text? || !m.msg.JObject?
  }

  /** The questions of the turns launched by some receives the reader got. */
  function TurnQuestions(inbound: seq<Inbound>): (r: seq<Json>)
    ensures |r| <= |inbound|
  {
    if inbound == [] then []
    else
      var last := inbound[|inbound| - 1];
      TurnQuestions(inbound[..|inbound| - 1]) +
        (if last.Text? && last.msg.JObject? && LaunchesTurn(last.msg.members)
         then [Lookup(last.msg.members, "transcript").value] else [])
  }

  /** A question is launched exactly when some message in the stream passes
      the filter and carries it as transcript. */
  lemma {:induction false} TurnQuestionsMembership(inbound: seq<Inbound>, q: Json)
    ensures q in TurnQuestions(inbound) <==>
      exists i :: 0 <= i < |inbound| && inbound[i].Text? && inbound[i].msg.JObject? &&
        LaunchesTurn(inbound[i].msg.members) && Lookup(inbound[i].msg.members, "transcript") == Some(q)
    decreases |inbound|
  {
    if inbound != [] {
      var prefix := inbound[..|inbound| - 1];
      TurnQuestionsMembership(prefix, q);
      forall i | 0 <= i < |prefix| ensures prefix[i] == inbound[i] { }
    }
  }

  /** The reader loop of `aai_to_log`: each decoded message is checked, and
      every one that passes launches a turn with its transcript; reading
      ends at the first receive that ends the reader (the exception is
      logged). Returns the launched questions in order. */
  method AaiToLog(inbound: seq<Inbound>) returns (launched: seq<Json>, read: nat)
    ensures read <= |inbound|
    ensures forall i :: 0 <= i < read - 1 ==> !EndsReader(inbound[i])
    ensures read < |inbound| ==> read > 0 && EndsReader(inbound[read - 1])
    ensures launched == TurnQuestions(inbound[..read])
  {
    launched, read := [], 0;
    while read < |inbound|
      invariant read <= |inbound|
      invariant forall i :: 0 <= i < read ==> !EndsReader(inbound[i])
      invariant launched == TurnQuestions(inbound[..read])
    {
      var m := inbound[read];
      assert inbound[..read + 1][..read] == inbound[..read];
      read := read + 1;
      if EndsReader(m) {
        assert TurnQuestions(inbound[..read]) == TurnQuestions(inbound[..read - 1]);
        return;
      }
      var members := m.msg.members;
      var kind := Lookup(members, "type");
      var transcript := Lookup(members, "transcript");
      if kind == Some(JStr("Turn")) && transcript.Some? && Truthy(transcript.value) {
        var endOfTurn := Lookup(members, "end_of_turn");
        if endOfTurn == Some(JBool(true)) || endOfTurn == Some(JInt(1)) {
          launched := launched + [transcript.value];
        }
      }
    }
  }

  // ---------------------------------------------------------------------------
  // The knowledge-base prompt (`query_rag_no_inngest`)

  /** `sep.join(parts)`. */
  function Join(sep: string, parts: seq<string>): string
  {
    if parts == [] then ""
    else if |parts| == 1 then parts[0]
    else parts[0] + sep + Join(sep, parts[1..])
  }

  /** `"\n\n".join(f"- {c}" for c in contexts)`. */
  function ContextBlock(contexts: seq<string>): (b: string)
    ensures contexts == [] <==> b == ""
    // each context adds its `"- "`, and each separator two more bytes
    ensures contexts != [] ==> |b| + 2 == BulletOffset(contexts, |contexts|)
  {
    var bullets := Bullets(contexts);
    BulletsLength(contexts);
    Join("\n\n", bullets)
  }

  function Bullets(contexts: seq<string>): (r: seq<string>)
    ensures |r| == |contexts|
    ensures forall i :: 0 <= i < |contexts| ==> r[i] == "- " + contexts[i]
  {
    seq(|contexts|, i requires 0 <= i < |contexts| => "- " + contexts[i])
  }

  lemma {:induction false} BulletsLength(contexts: seq<string>)
    ensures contexts == [] <==> Join("\n\n", Bullets(contexts)) == ""
    ensures contexts != [] ==> |Join("\n\n", Bullets(contexts))| + 2 == BulletOffset(contexts, |contexts|)
    decreases |contexts|
  {
    if |contexts| > 1 {
      assert Bullets(contexts)[1..] == Bullets(contexts[1..]);
      BulletsLength(contexts[1..]);
    }
  }

  const Header: string := "Use the following context to answer the question. \n\n" + "Context: \n"
  const BeforeQuestion: string := "\n\n" + "Question: "
  const Closing: string := "\n" + "Answer concisely using the context above"

  /** The user message carrying the search results and the question. */
  function UserContent(contexts: seq<string>, question: string): (u: string)
    ensures |u| == |Header| + |ContextBlock(contexts)| + |BeforeQuestion| + |question| + |Closing|
    ensures u[..|Header|] == Header && u[|u| - |Closing|..] == Closing
  {
    Header + ContextBlock(contexts) + BeforeQuestion + question + Closing
  }

  /** Where the `i`-th context's bullet starts in the block: each earlier
      context takes its text, its `"- "` and the `"\n\n"` separator. */
  function BulletOffset(contexts: seq<string>, i: nat): nat
    requires i <= |contexts|
  {
    if i == 0 then 0 else |contexts[0]| + 4 + BulletOffset(contexts[1..], i - 1)
  }

  /** At offset `o` of `b` there is `"- "`, then `c` verbatim, then, unless
      `c` is the last context, the `"\n\n"` separator. */
  predicate BulletAt(b: string, o: nat, c: string, last: bool)
  {
    o + 2 + |c| <= |b| && b[o..o + 2] == "- " && b[o + 2..o + 2 + |c|] == c &&
    (!last ==> o + 4 + |c| <= |b| && b[o + 2 + |c|..o + 4 + |c|] == "\n\n")
  }

  /** Every context appears verbatim in the block, right after its `"- "`,
      and (but for the last) right before a `"\n\n"` separator. */
  lemma {:induction false} ContextInBlock(contexts: seq<string>, i: nat)
    requires i < |contexts|
    ensures BulletAt(ContextBlock(contexts), BulletOffset(contexts, i), contexts[i], i == |contexts| - 1)
    decreases i
  {
    if |contexts| == 1 {
      ContextBlockSingle(contexts);
      assert BulletAt("- " + contexts[0], 0, contexts[0], true);
    } else {
      var rest := contexts[1..];
      var head := "- " + contexts[0] + "\n\n";
      assert ContextBlock(contexts) == head + ContextBlock(rest) by {
        ContextBlockCons(contexts);
      }
      if i == 0 {
        FirstBullet(contexts[0], ContextBlock(rest));
      } else {
        ContextInBlock(rest, i - 1);
        assert BulletOffset(contexts, i) == |head| + BulletOffset(rest, i - 1);
        assert contexts[i] == rest[i - 1];
        BulletShift(head, ContextBlock(rest), BulletOffset(rest, i - 1), rest[i - 1], i - 1 == |rest| - 1);
      }
    }
  }

  lemma FirstBullet(c: string, tail: string)
    ensures BulletAt("- " + c + "\n\n" + tail, 0, c, false)
  {
    var b := "- " + c + "\n\n" + tail;
    assert b[..2] == "- ";
    assert b[2..2 + |c|] == c;
    assert b[2 + |c|..4 + |c|] == "\n\n";
  }

  /** A bullet stays in place, shifted, when text is put before the block. */
  lemma BulletShift(head: string, b: string, o: nat, c: string, last: bool)
    requires BulletAt(b, o, c, last)
    ensures BulletAt(head + b, |head| + o, c, last)
  {
    SliceShift(head, b, o, o + 2);
    SliceShift(head, b, o + 2, o + 2 + |c|);
    if !last {
      SliceShift(head, b, o + 2 + |c|, o + 4 + |c|);
    }
  }

  lemma ContextBlockSingle(contexts: seq<string>)
    requires |contexts| == 1
    ensures ContextBlock(contexts) == "- " + contexts[0]
  {
  }

  lemma ContextBlockCons(contexts: seq<string>)
    requires |contexts| > 1
    ensures ContextBlock(contexts) == "- " + contexts[0] + "\n\n" + ContextBlock(contexts[1..])
  {
    var bullets := seq(|contexts|, j requires 0 <= j < |contexts| => "- " + contexts[j]);
    var rest := contexts[1..];
    assert bullets[1..] == seq(|rest|, j requires 0 <= j < |rest| => "- " + rest[j]);
  }

  lemma SliceShift<T>(x: seq<T>, y: seq<T>, lo: nat, hi: nat)
    requires lo <= hi <= |y|
    ensures (x + y)[|x| + lo..|x| + hi] == y[lo..hi]
  {
  }

  /** The prompt's layout: the fixed header, then the block, then the fixed
      lead-in, the question verbatim, and the fixed closing line. The
      question can therefore be read back from the end whatever the
      contexts hold. */
  lemma UserContentLayout(contexts: seq<string>, question: string)
    ensures var u, b := UserContent(contexts, question), ContextBlock(contexts);
      |u| == |Header| + |b| + |BeforeQuestion| + |question| + |Closing| &&
      u[..|Header|] == Header &&
      u[|Header|..|Header| + |b|] == b &&
      u[|u| - |Closing| - |question|..|u| - |Closing|] == question &&
      u[|u| - |Closing|..] == Closing
  {
  }

  // ---------------------------------------------------------------------------
  // Outbound media (`talk`)

  /** The message `talk` sends to the caller for one μ-law frame. */
  function TalkMessage(streamSid: Json, frame: seq<byte>): (m: Json)
    // read back by the inbound dispatch, it is a media event with that frame
    ensures Classify(m) == Media(frame)
    // and it carries the stream id
    ensures m.JObject? && Lookup(m.members, "streamSid") == Some(streamSid)
  {
    var media := [("payload", JBase64(frame))];
    var members := [("event", JStr("media")), ("streamSid", streamSid), ("media", JObject(media))];
    assert Lookup(members, "media") == Some(JObject(media));
    assert Lookup(members, "event") == Some(JStr("media")) by {
      var first := [("event", JStr("media"))];
      assert members[..2] == first + [("streamSid", streamSid)];
      assert "media" != "event" && "streamSid" != "event";
      assert Lookup(members, "event") == Lookup(members[..2], "event");
      assert (first + [("streamSid", streamSid)])[..1] == first;
      assert Lookup(members[..2], "event") == Lookup(first, "event");
    }
    assert Lookup(media, "payload") == Some(JBase64(frame));
    assert Lookup(members, "streamSid") == Some(streamSid) by {
      assert "media" != "streamSid";
      assert members[..2] == [("event", JStr("media")), ("streamSid", streamSid)];
    }
    JObject(members)
  }

  function TalkMessages(streamSid: Json, frames: seq<seq<byte>>): (r: seq<Json>)
    ensures |r| == |frames|
    ensures forall i :: 0 <= i < |frames| ==> r[i] == TalkMessage(streamSid, frames[i])
  {
    seq(|frames|, i requires 0 <= i < |frames| => TalkMessage(streamSid, frames[i]))
  }

  // ---------------------------------------------------------------------------
  // The turn loop (`safe_send_event`)

  /** What the outside services return in one iteration of the loop: the
      model's reply (None where the call raises), the synthesis service's
      chunks for the spoken answer, and the points the knowledge-base search
      returns (None where embedding or search raises). */
  datatype Exchange = Exchange(reply: Option<AgentOutput>, speech: seq<seq<byte>>, found: Option<seq<VectorDb.ScoredPoint>>)

  /** A knowledge-base lookup as made: the question and `top_k`. */
  datatype RagQuery = RagQuery(question: string, topK: int)

  /** The state a turn changes: the agent's history and audio queue, whether
      a producer was cancelled, what was sent to the caller, and the lookups made. */
  datatype TurnState = TurnState(messages: seq<Message>, queue: seq<QueueItem>, cancelled: bool,
                                 sent: seq<Json>, queries: seq<RagQuery>)

  /** Whether the loop goes on, ended because a reply set `end_turn`, or
      ended because something raised (logged, not propagated). */
  datatype TurnOutcome = Continuing | Ended | Raised

  datatype TurnRun = TurnRun(state: TurnState, iterations: nat, outcome: TurnOutcome)

  /** A speech path: from the audio queue and the synthesis service's
      chunks, the frames spoken and what stays queued. */
  type SpeechPath = (seq<QueueItem>, seq<seq<byte>>) -> (seq<seq<byte>>, seq<QueueItem>)

  /** The agent's `speech` as a speech path. */
  function AgentSpeech<S>(ratecv: ConvertAudio.Resampler<S>): SpeechPath
  {
    (queue, tts) => SpeechStep(ratecv, queue, tts)
  }

  /** One iteration: invoke, speak the answer, look up when `query_rag` is
      set, and stop when `end_turn` is set (after the lookup, when both are). */
  function Iterate(speak: SpeechPath, sid: Json, question: string,
                   st: TurnState, ex: Exchange): (r: (TurnState, TurnOutcome))
    ensures st.messages <= r.0.messages
    ensures r.1 == Ended <==> ex.reply.Some? && ex.reply.value.endTurn && (ex.reply.value.queryRag ==> ex.found.Some?)
    ensures r.1 == Raised <==> ex.reply.None? || (ex.reply.value.queryRag && ex.found.None?)
    ensures r.1 == Continuing <==> Continues(ex)
    // a lookup of the question with `top_k` 5 exactly when the reply asks for one
    ensures r.0.queries == st.queries + (if AsksRag(ex) then [RagQuery(question, 5)] else [])
  {
    match ex.reply
    case None => (st, Raised)
    case Some(out) => AfterReply(question, Answered(speak, sid, st, out.response, ex.speech), out, ex.found)
  }

  /** The state once the reply is in the history and has been spoken to the
      caller (`talk`), each frame as one media message. */
  function Answered(speak: SpeechPath, sid: Json, st: TurnState, response: string,
                    speech: seq<seq<byte>>): (r: TurnState)
    ensures r.messages == st.messages + [Message(Ai, response)] && r.queries == st.queries
    ensures r.sent == st.sent + TalkMessages(sid, speak(st.queue, speech).0)
    ensures r.queue == speak(st.queue, speech).1 && r.cancelled
  {
    var spoken := speak(st.queue, speech);
    TurnState(st.messages + [Message(Ai, response)], spoken.1, true,
              st.sent + TalkMessages(sid, spoken.0), st.queries)
  }

  /** The rest of an iteration once the reply was spoken: the lookup when
      the reply asks for one (it raises when `found` is None), whose prompt
      goes into the history as a user message, then the `end_turn` check. */
  function AfterReply(question: string, st: TurnState, out: AgentOutput,
                      found: Option<seq<VectorDb.ScoredPoint>>): (r: (TurnState, TurnOutcome))
    ensures st.messages <= r.0.messages
    ensures r.1 == Raised <==> out.queryRag && found.None?
    ensures r.1 == Ended <==> out.endTurn && (out.queryRag ==> found.Some?)
    ensures r.0.queries == st.queries + (if out.queryRag then [RagQuery(question, 5)] else [])
    ensures out.queryRag && found.Some? ==>
      r.0.messages == st.messages + [Message(User, UserContent(VectorDb.Contexts(found.value), question))]
  {
    if !out.queryRag then (st, if out.endTurn then Ended else Continuing)
    else
      var st1 := st.(queries := st.queries + [RagQuery(question, 5)]);
      match found
      case None => (st1, Raised)
      case Some(points) =>
        var content := UserContent(VectorDb.Contexts(points), question);
        (st1.(messages := st1.messages + [Message(User, content)]), if out.endTurn then Ended else Continuing)
  }

  /** An exchange after which the loop goes on. */
  predicate Continues(ex: Exchange)
  {
    ex.reply.Some? && !ex.reply.value.endTurn && (ex.reply.value.queryRag ==> ex.found.Some?)
  }

  /** Whether an exchange's reply asked for a knowledge-base lookup. */
  predicate AsksRag(ex: Exchange)
  {
    ex.reply.Some? && ex.reply.value.queryRag
  }

  /** The loop of `safe_send_event` with its iteration as a parameter: one
      iteration per exchange of the script, until one reports an outcome
      other than Continuing. The script may run out first, since the loop
      has no bound of its own. */
  function Loop(step: (TurnState, Exchange) -> (TurnState, TurnOutcome), init: TurnState,
                script: seq<Exchange>): (r: TurnRun)
    ensures r.iterations <= |script|
    ensures r.outcome == Continuing ==> r.iterations == |script|
    ensures r.outcome != Continuing ==> r.iterations > 0
    decreases |script|
  {
    if script == [] then TurnRun(init, 0, Continuing)
    else
      var p := Loop(step, init, script[..|script| - 1]);
      if p.outcome != Continuing then p
      else
        var s := step(p.state, script[|script| - 1]);
        TurnRun(s.0, |script|, s.1)
  }

  /** The iteration of the turn loop for one call and one question. */
  function IterateStep(speak: SpeechPath, sid: Json, question: string):
    (TurnState, Exchange) -> (TurnState, TurnOutcome)
  {
    (st, ex) => Iterate(speak, sid, question, st, ex)
  }

  /** The turn loop of one question, over what the services return. */
  function Turns(speak: SpeechPath, sid: Json, question: string,
                    init: TurnState, script: seq<Exchange>): TurnRun
  {
    Loop(IterateStep(speak, sid, question), init, script)
  }

  /** One more iteration after iterations that left the loop going. */
  lemma LoopLast(step: (TurnState, Exchange) -> (TurnState, TurnOutcome), init: TurnState, script: seq<Exchange>)
    requires script != [] && Loop(step, init, script[..|script| - 1]).outcome == Continuing
    ensures var s := step(Loop(step, init, script[..|script| - 1]).state, script[|script| - 1]);
      Loop(step, init, script) == TurnRun(s.0, |script|, s.1)
  {
  }

  /** Once the loop has ended, later exchanges never happen. */
  lemma {:induction false} LoopStop(step: (TurnState, Exchange) -> (TurnState, TurnOutcome), init: TurnState,
                                    script: seq<Exchange>, i: nat)
    requires i <= |script| && Loop(step, init, script[..i]).outcome != Continuing
    ensures Loop(step, init, script) == Loop(step, init, script[..i])
    decreases |script| - i
  {
    if i < |script| {
      var prefix := script[..|script| - 1];
      assert prefix[..i] == script[..i];
      LoopStop(step, init, prefix, i);
    } else {
      assert script[..i] == script;
    }
  }

  /** With an iteration that goes on exactly after exchanges that let it,
      the loop goes on after every iteration but the last, and it stops
      exactly when an exchange does not let it go on. */
  lemma {:induction false} LoopExit(step: (TurnState, Exchange) -> (TurnState, TurnOutcome), init: TurnState,
                                    script: seq<Exchange>)
    requires forall st: TurnState, ex: Exchange :: step(st, ex).1 == Continuing <==> Continues(ex)
    ensures var r := Loop(step, init, script);
      (forall j :: 0 <= j < r.iterations - 1 ==> Continues(script[j])) &&
      (r.outcome == Continuing <==> forall j :: 0 <= j < r.iterations ==> Continues(script[j])) &&
      (r.outcome != Continuing ==> !Continues(script[r.iterations - 1]))
    decreases |script|
  {
    if script != [] {
      var prefix := script[..|script| - 1];
      LoopExit(step, init, prefix);
      var p := Loop(step, init, prefix);
      assert forall j :: 0 <= j < p.iterations ==> prefix[j] == script[j];
    }
  }

  /** How many exchanges of a run carry a reply that set `query_rag`. */
  function RagCount(script: seq<Exchange>): nat
  {
    if script == [] then 0
    else RagCount(script[..|script| - 1]) + (if AsksRag(script[|script| - 1]) then 1 else 0)
  }

  /** With an iteration that makes one lookup of `q` exactly when the reply
      asks for one, the loop makes one per such iteration and no other. */
  lemma {:induction false} LoopQueries(step: (TurnState, Exchange) -> (TurnState, TurnOutcome), init: TurnState,
                                       script: seq<Exchange>, q: RagQuery)
    requires forall st: TurnState, ex: Exchange :: step(st, ex).0.queries == st.queries + (if AsksRag(ex) then [q] else [])
    ensures var r := Loop(step, init, script);
      r.state.queries == init.queries + Repeat(q, RagCount(script[..r.iterations]))
    decreases |script|
  {
    var r := Loop(step, init, script);
    if script == [] {
      assert init.queries + [] == init.queries;
    } else {
      var prefix := script[..|script| - 1];
      LoopQueries(step, init, prefix, q);
      var p := Loop(step, init, prefix);
      if p.outcome == Continuing {
        assert script[..r.iterations] == script;
        assert prefix[..p.iterations] == prefix;
        QueriesGrow(init.queries, p.state.queries, r.state.queries, q, RagCount(prefix), AsksRag(script[|script| - 1]));
      } else {
        assert script[..r.iterations] == prefix[..p.iterations];
      }
    }
  }

  lemma QueriesGrow<T>(base: seq<T>, before: seq<T>, after: seq<T>, q: T, k: nat, more: bool)
    requires before == base + Repeat(q, k)
    requires after == before + (if more then [q] else [])
    ensures after == base + Repeat(q, k + (if more then 1 else 0))
  {
    if more {
      assert Repeat(q, k + 1) == Repeat(q, k) + [q];
      AppendAssoc(base, Repeat(q, k), [q]);
    } else {
      assert after == before;
    }
  }

  /** With an iteration that only appends to the history, so does the loop. */
  lemma {:induction false} LoopHistory(step: (TurnState, Exchange) -> (TurnState, TurnOutcome), init: TurnState,
                                       script: seq<Exchange>)
    requires forall st: TurnState, ex: Exchange :: st.messages <= step(st, ex).0.messages
    ensures init.messages <= Loop(step, init, script).state.messages
    decreases |script|
  {
    if script != [] {
      LoopHistory(step, init, script[..|script| - 1]);
    }
  }

  /** The turn loop goes on after every iteration but the last, and stops
      exactly at the first reply that sets `end_turn`, the first failing
      invocation, or the first failing lookup. */
  lemma TurnsExit(speak: SpeechPath, sid: Json, question: string,
                     init: TurnState, script: seq<Exchange>)
    ensures var r := Turns(speak, sid, question, init, script);
      (forall j :: 0 <= j < r.iterations - 1 ==> Continues(script[j])) &&
      (r.outcome == Continuing <==> forall j :: 0 <= j < r.iterations ==> Continues(script[j])) &&
      (r.outcome != Continuing ==> !Continues(script[r.iterations - 1]))
  {
    LoopExit(IterateStep(speak, sid, question), init, script);
  }

  /** Every lookup of the turn is of the question with `top_k` 5, one per
      iteration whose reply set `query_rag`. */
  lemma TurnsQueries(speak: SpeechPath, sid: Json, question: string,
                        init: TurnState, script: seq<Exchange>)
    ensures var r := Turns(speak, sid, question, init, script);
      r.state.queries == init.queries + Repeat(RagQuery(question, 5), RagCount(script[..r.iterations]))
  {
    LoopQueries(IterateStep(speak, sid, question), init, script, RagQuery(question, 5));
  }

  /** The history only grows over the turn. */
  lemma TurnsHistory(speak: SpeechPath, sid: Json, question: string,
                        init: TurnState, script: seq<Exchange>)
    ensures init.messages <= Turns(speak, sid, question, init, script).state.messages
  {
    LoopHistory(IterateStep(speak, sid, question), init, script);
  }

  lemma {:induction false} RagCountNone(script: seq<Exchange>)
    requires forall j :: 0 <= j < |script| ==> !AsksRag(script[j])
    ensures RagCount(script) == 0
    decreases |script|
  {
    if script != [] {
      RagCountNone(script[..|script| - 1]);
    }
  }

  /** The loop has no iteration bound: replies that never set `end_turn`
      nor `query_rag` keep it going for as long as they come, one
      invocation each, with no lookup. */
  lemma NoIterationBound(speak: SpeechPath, sid: Json, question: string,
                            init: TurnState, script: seq<Exchange>)
    requires forall j :: 0 <= j < |script| ==>
      script[j].reply.Some? && !script[j].reply.value.endTurn && !script[j].reply.value.queryRag
    ensures Turns(speak, sid, question, init, script).outcome == Continuing
    ensures Turns(speak, sid, question, init, script).iterations == |script|
    ensures Turns(speak, sid, question, init, script).state.queries == init.queries
  {
    var r := Turns(speak, sid, question, init, script);
    TurnsExit(speak, sid, question, init, script);
    TurnsQueries(speak, sid, question, init, script);
    assert script[..r.iterations] == script;
    RagCountNone(script);
    assert init.queries + [] == init.queries;
  }

  /** A reply that sets both flags still has its lookup appended before the
      loop ends: the history gains the answer, then the prompt built from
      the contexts found. */
  lemma BothFlagsLookUpThenEnd(speak: SpeechPath, sid: Json, question: string,
                                  init: TurnState, response: string, speech: seq<seq<byte>>,
                                  points: seq<VectorDb.ScoredPoint>)
    ensures var ex := Exchange(Some(AgentOutput(response, true, true)), speech, Some(points));
      var r := Turns(speak, sid, question, init, [ex]);
      r.outcome == Ended && r.iterations == 1 &&
      r.state.messages == init.messages + [Message(Ai, response),
                                           Message(User, UserContent(VectorDb.Contexts(points), question))] &&
      r.state.queries == init.queries + [RagQuery(question, 5)]
  {
    var ex := Exchange(Some(AgentOutput(response, true, true)), speech, Some(points));
    assert [ex][..0] == [];
    LoopLast(IterateStep(speak, sid, question), init, [ex]);
  }

  /** A reply asking for a lookup, then one ending the turn: exactly two
      invocations and one lookup, whatever the services would return after
      that. The history gains the first answer, the prompt built from what
      was found, and the second answer. */
  lemma LookupThenEnd(speak: SpeechPath, sid: Json, question: string, init: TurnState,
                      first: string, speech1: seq<seq<byte>>, points: seq<VectorDb.ScoredPoint>,
                      second: string, speech2: seq<seq<byte>>, found2: Option<seq<VectorDb.ScoredPoint>>,
                      later: seq<Exchange>)
    ensures var ex1 := Exchange(Some(AgentOutput(first, false, true)), speech1, Some(points));
      var ex2 := Exchange(Some(AgentOutput(second, true, false)), speech2, found2);
      var r := Turns(speak, sid, question, init, [ex1, ex2] + later);
      r.outcome == Ended && r.iterations == 2 &&
      r.state.queries == init.queries + [RagQuery(question, 5)] &&
      r.state.messages == init.messages + [Message(Ai, first),
                                           Message(User, UserContent(VectorDb.Contexts(points), question)),
                                           Message(Ai, second)]
  {
    var ex1 := Exchange(Some(AgentOutput(first, false, true)), speech1, Some(points));
    var ex2 := Exchange(Some(AgentOutput(second, true, false)), speech2, found2);
    var script := [ex1, ex2] + later;
    var step := IterateStep(speak, sid, question);
    assert script[..1][..0] == [];
    LoopLast(step, init, script[..1]);
    assert script[..2][..1] == script[..1];
    LoopLast(step, init, script[..2]);
    LoopStop(step, init, script, 2);
  }

  // ---------------------------------------------------------------------------
  // One call's session

  /** The state `media_ws` sets up for one call: the inbound buffer, the
      stream id holder, the agent, and what goes out on both sockets and to
      the knowledge base. */
  class MediaSession<S> {
    var buf: seq<byte>
    var streamSid: Json
    var toAai: seq<AaiMessage>
    var toCaller: seq<Json>
    var ragQueries: seq<RagQuery>
    const agent: Agent<S>

    constructor (prompt: string, ratecv: ConvertAudio.Resampler<S>)
      ensures buf == [] && streamSid == JNull && toAai == [] && toCaller == [] && ragQueries == []
      ensures fresh(agent) && agent.messages == [Message(System, prompt)] && agent.queue == []
      ensures !agent.producerCancelled && agent.ratecv == ratecv
    {
      buf, streamSid, toAai, toCaller, ragQueries := [], JNull, [], [], [];
      agent := new Agent(prompt, ratecv);
    }

    function RelayState(read: nat, ending: Ending): Relay
      reads this
    {
      Relay(buf, streamSid, toAai, read, ending)
    }

    function TurnStateNow(): TurnState
      reads this, agent
    {
      TurnState(agent.messages, agent.queue, agent.producerCancelled, toCaller, ragQueries)
    }

    /** The inner loop of the `media` branch: send 400-byte frames while the
        buffer holds at least one. */
    method SendFrames()
      modifies this`buf, this`toAai
      ensures (toAai, buf) == (old(toAai) + AudioMessages(SplitFrames(old(buf), FrameBytes).0),
                               SplitFrames(old(buf), FrameBytes).1)
    {
      ghost var frames: seq<seq<byte>> := [];
      while |buf| >= FrameBytes
        invariant Flatten(frames) + buf == old(buf)
        invariant AllSized(frames, FrameBytes)
        invariant toAai == old(toAai) + AudioMessages(frames)
        decreases |buf|
      {
        var frame := buf[..FrameBytes];
        FlattenSnoc(frames, frame);
        assert frame + buf[FrameBytes..] == buf;
        assert AudioMessages(frames + [frame]) == AudioMessages(frames) + [Binary(frame)];
        toAai := toAai + [Binary(frame)];
        frames := frames + [frame];
        buf := buf[FrameBytes..];
      }
      SplitFramesUnique(old(buf), FrameBytes, frames, buf);
    }

    /** `twilio_to_aai` over the receives of one call. */
    method TwilioToAai(inbound: seq<Inbound>) returns (read: nat, ending: Ending)
      modifies this`buf, this`streamSid, this`toAai
      ensures RelayState(read, ending) == Run(old(RelayState(0, Listening)), inbound)
    {
      ghost var init := RelayState(0, Listening);
      read, ending := 0, Listening;
      while read < |inbound| && ending == Listening
        invariant read <= |inbound|
        invariant RelayState(read, ending) == Run(init, inbound[..read])
        decreases |inbound| - read
      {
        assert inbound[..read + 1][..read] == inbound[..read];
        match inbound[read] {
        case Garbled =>
          ending := Failed;
        case Closed =>
          if buf != [] {
            toAai := toAai + [Binary(buf)];
            buf := [];
          }
          toAai := toAai + [Terminate];
          ending := Disconnected;
        case Text(msg) => {
          match Classify(msg) {
            case Media(chunk) =>
              buf := buf + chunk;
              SendFrames();
            case Stop =>
              ending := Stopped;
            case Start(sid) =>
              streamSid := sid;
            case Ignored =>
            case Raises =>
              ending := Failed;
          }
        }
        }
        read := read + 1;
      }
      if ending != Listening {
        RunStopsReading(Receive, init, inbound, read);
      } else {
        assert inbound[..read] == inbound;
      }
    }

    /** `talk`: one media message to the caller per frame of the answer,
        each carrying the stored stream id. */
    method Talk(response: string, tts: seq<seq<byte>>)
      modifies agent`queue, agent`producerCancelled, this`toCaller
      ensures var spoken := SpeechStep(agent.ratecv, old(agent.queue), tts);
        toCaller == old(toCaller) + TalkMessages(streamSid, spoken.0) &&
        agent.queue == spoken.1 && agent.producerCancelled
    {
      var frames := agent.Speech(tts);
      SendMedia(frames);
    }

    /** The sending loop of `talk`. */
    method SendMedia(frames: seq<seq<byte>>)
      modifies this`toCaller
      ensures toCaller == old(toCaller) + TalkMessages(streamSid, frames)
    {
      for i := 0 to |frames|
        invariant toCaller == old(toCaller) + TalkMessages(streamSid, frames[..i])
      {
        assert TalkMessages(streamSid, frames[..i + 1]) == TalkMessages(streamSid, frames[..i]) + [TalkMessage(streamSid, frames[i])];
        toCaller := toCaller + [TalkMessage(streamSid, frames[i])];
      }
      assert frames[..|frames|] == frames;
    }

    /** One pass of the loop of `safe_send_event`: invoke the agent, speak
        its answer, then look up and check `end_turn`. */
    method RunIteration(question: string, ex: Exchange) returns (outcome: TurnOutcome)
      modifies agent, this`toCaller, this`ragQueries
      ensures (TurnStateNow(), outcome) == Iterate(AgentSpeech(agent.ratecv), streamSid, question, old(TurnStateNow()), ex)
    {
      var answer := agent.Invoke(ex.reply);
      if answer.None? {
        return Raised;
      }
      ghost var invoked := TurnStateNow();
      var out := answer.value;
      ghost var spoken := SpeechStep(agent.ratecv, agent.queue, ex.speech);
      assert AgentSpeech(agent.ratecv)(agent.queue, ex.speech) == spoken;
      Talk(out.response, ex.speech);
      assert TurnStateNow() == Answered(AgentSpeech(agent.ratecv), streamSid, old(TurnStateNow()), out.response, ex.speech);
      outcome := LookUp(question, out, ex.found);
    }

    /** The part of the loop body of `safe_send_event` after `talk`. */
    method LookUp(question: string, out: AgentOutput, found: Option<seq<VectorDb.ScoredPoint>>)
      returns (outcome: TurnOutcome)
      modifies agent`messages, this`ragQueries
      ensures (TurnStateNow(), outcome) == AfterReply(question, old(TurnStateNow()), out, found)
    {
      outcome := Continuing;
      if out.queryRag {
        ragQueries := ragQueries + [RagQuery(question, 5)];
        if found.None? {
          return Raised;
        }
        var contexts, _ := VectorDb.Search(found.value);
        agent.messages := agent.messages + [Message(User, UserContent(contexts, question))];
      }
      if out.endTurn {
        outcome := Ended;
      }
    }

    /** `safe_send_event(question)`, with `script` what the services return
        in each iteration: the question is appended to the history, then
        the loop runs until a reply sets `end_turn` or something raises. */
    method SafeSendEvent(question: string, script: seq<Exchange>) returns (iterations: nat, outcome: TurnOutcome)
      modifies agent, this`toCaller, this`ragQueries
      ensures TurnRun(TurnStateNow(), iterations, outcome) ==
        Turns(AgentSpeech(agent.ratecv), streamSid, question,
              old(TurnStateNow()).(messages := old(agent.messages) + [Message(User, question)]), script)
    {
      agent.messages := agent.messages + [Message(User, question)];
      ghost var init := TurnStateNow();
      ghost var step := IterateStep(AgentSpeech(agent.ratecv), streamSid, question);
      iterations, outcome := 0, Continuing;
      while iterations < |script| && outcome == Continuing
        invariant iterations <= |script|
        invariant TurnRun(TurnStateNow(), iterations, outcome) == Loop(step, init, script[..iterations])
      {
        ghost var before := TurnStateNow();
        var ex := script[iterations];
        assert Loop(step, init, script[..iterations + 1]) ==
               TurnRun(step(before, ex).0, iterations + 1, step(before, ex).1) by {
          assert script[..iterations + 1][..iterations] == script[..iterations];
          LoopLast(step, init, script[..iterations + 1]);
        }
        outcome := RunIteration(question, ex);
        assert step(before, ex) == (TurnStateNow(), outcome);
        iterations := iterations + 1;
      }
      if outcome != Continuing {
        LoopStop(step, init, script, iterations);
      } else {
        assert script[..iterations] == script;
      }
    }
  }
}
