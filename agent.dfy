/** The conversational agent: the chat history it sends to the language
    model, and the speech path that turns a reply into 8 kHz μ-law frames.
    The model's structured reply, the synthesis service's audio and the
    rate converter are inputs; the producer task is run to completion
    before the consumer drains the queue. */
module Agents {
  import opened Chunking
  import opened ConvertAudio
  import opened Tts

  datatype Role = System | User | Ai

  /** One chat message, `{"role": ..., "content": ...}`. */
  datatype Message = Message(role: Role, content: string)

  /** The model's structured reply; both flags default to false. */
  datatype AgentOutput = AgentOutput(response: string, endTurn: bool, queryRag: bool)

  /** The converter `speech` builds: 16 kHz mono in, 8 kHz out, 50 ms frames. */
  function SpeechConfig<S>(ratecv: Resampler<S>): (cfg: Config<S>)
    ensures ValidConfig(cfg)
  {
    Config(16000, 8000, 1, 400, 0xFF, ratecv)
  }

  /** What the speech path produces from the PCM chunks `speak` yields:
      the frames, how many chunks were fed, and whether the converter raised
      (so that the exception was swallowed and nothing was flushed). */
  datatype SpeechOutcome = SpeechOutcome(frames: seq<seq<byte>>, consumed: nat, failed: bool)

  function SpeechFrames<S>(ratecv: Resampler<S>, pcm: seq<seq<byte>>): (r: SpeechOutcome)
    // every frame sent to the caller is a full 400-byte frame
    ensures AllSized(r.frames, 400)
    ensures r.consumed <= |pcm| && (!r.failed ==> r.consumed == |pcm|)
    // a raise stops the path where it happened, with no flush
    ensures r.failed ==> r.frames == FeedAll(SpeechConfig(ratecv), InitialState(), pcm).frames
  {
    var cfg := SpeechConfig(ratecv);
    var d := FeedAll(cfg, InitialState(), pcm);
    if d.failed then SpeechOutcome(d.frames, d.consumed, true)
    else
      var tail := FlushStep(cfg, d.state, true).0;
      AllSizedConcat(d.frames, tail, 400);
      SpeechOutcome(d.frames + tail, |pcm|, false)
  }

  /** When every chunk goes through, the speech path adds at most one frame
      to what `feed` returned: the μ-law bytes still buffered, padded with
      silence (0xFF) to 400 bytes. */
  lemma SpeechPadsLastFrame<S>(ratecv: Resampler<S>, pcm: seq<seq<byte>>)
    requires !FeedAll(SpeechConfig(ratecv), InitialState(), pcm).failed
    ensures var d := FeedAll(SpeechConfig(ratecv), InitialState(), pcm);
      SpeechFrames(ratecv, pcm).frames ==
        d.frames + (if d.state.buf == [] then [] else [d.state.buf + Repeat(0xFF, 400 - |d.state.buf|)])
  {
    var cfg := SpeechConfig(ratecv);
    var d := FeedAll(cfg, InitialState(), pcm);
    if d.state.buf != [] {
      FlushPadsOneFrame(cfg, d.state);
    } else {
      assert d.frames + [] == d.frames;
    }
  }

  /** What the producer puts on the queue for a response. */
  function Produced(tts: seq<seq<byte>>): (q: seq<QueueItem>)
    ensures EndOfStream in q
    // the rechunked synthesis output as audio items, then the sentinel last
    ensures q[|q| - 1] == EndOfStream && AllAudio(q[..|q| - 1]) && Payloads(q[..|q| - 1]) == Rechunk(tts)
  {
    var q := AudioItems(Rechunk(tts)) + [EndOfStream];
    assert q[|q| - 1] == EndOfStream;
    assert q[..|q| - 1] == AudioItems(Rechunk(tts));
    PayloadsOfAudioItems(Rechunk(tts));
    q
  }

  /** The consumer side of `speech` on a queue holding a sentinel: `speak`
      takes items up to the first sentinel and the frames are those of
      SpeechFrames over the taken chunks. Returns the frames and what stays
      queued: everything after the sentinel, or, when the converter raised,
      everything after the chunk it raised on. */
  function Consume<S>(ratecv: Resampler<S>, queue: seq<QueueItem>): (r: (seq<seq<byte>>, seq<QueueItem>))
    requires EndOfStream in queue
    ensures AllSized(r.0, 400)
    // what stays queued is what was left behind at the end of the queue
    ensures |r.1| < |queue| && r.1 == queue[|queue| - |r.1|..]
  {
    var k := FirstSentinel(queue);
    var outcome := SpeechFrames(ratecv, Payloads(queue[..k]));
    (outcome.frames, queue[(if outcome.failed then outcome.consumed else k + 1)..])
  }

  /** One `speech` call as a value: the producer's items and sentinel are
      put after whatever the queue holds, then the consumer runs. */
  function SpeechStep<S>(ratecv: Resampler<S>, queue: seq<QueueItem>, tts: seq<seq<byte>>): (r: (seq<seq<byte>>, seq<QueueItem>))
    ensures AllSized(r.0, 400)
    // at least the first sentinel is taken; what stays is a tail of the queue
    // followed by the producer's items
    ensures var all := queue + Produced(tts); |r.1| < |all| && r.1 == all[|all| - |r.1|..]
  {
    Consume(ratecv, queue + Produced(tts))
  }

  /** The consumer on exactly what the producer put: the chunks fed are the
      producer's items, sentinel excluded; when no call raised the queue ends
      empty, otherwise it keeps the items after the one the converter raised
      on, and the sentinel. */
  lemma ConsumeProduced<S>(ratecv: Resampler<S>, tts: seq<seq<byte>>)
    ensures var o := SpeechFrames(ratecv, Rechunk(tts));
      Consume(ratecv, Produced(tts)) == (o.frames, if o.failed then Produced(tts)[o.consumed..] else [])
  {
    var items := Produced(tts);
    var k := FirstSentinel(items);
    assert k + 1 == |items| && Payloads(items[..k]) == Rechunk(tts) by {
      SpeakAfterGenerate(tts);
    }
    assert items[k + 1..] == [];
  }

  /** Speaking from an empty queue is the consumer on what the producer put. */
  lemma SpeechDrainsFreshQueue<S>(ratecv: Resampler<S>, tts: seq<seq<byte>>)
    ensures var o := SpeechFrames(ratecv, Rechunk(tts));
      SpeechStep(ratecv, [], tts) == (o.frames, if o.failed then Produced(tts)[o.consumed..] else [])
  {
    assert [] + Produced(tts) == Produced(tts);
    ConsumeProduced(ratecv, tts);
  }

  /** The converter loop of `speech` over the chunks `speak` yields: a fresh
      50 ms converter, each chunk fed in order until one raises, then a
      padded flush if none did. */
  method ConvertSpeech<S>(ratecv: Resampler<S>, pcm: seq<seq<byte>>) returns (outcome: SpeechOutcome)
    ensures outcome == SpeechFrames(ratecv, pcm)
  {
    var conv := new Pcm16kToMulaw8k(16000, 8000, 1, 50, ratecv);
    ghost var cfg := SpeechConfig(ratecv);
    assert conv.Cfg() == cfg;
    var frames := [];
    var i := 0;
    var failed := false;
    while i < |pcm| && !failed
      invariant 0 <= i <= |pcm|
      invariant conv.Valid() && conv.Cfg() == cfg
      invariant FeedAll(cfg, InitialState(), pcm[..i]) == Drain(frames, i, failed, conv.State())
      modifies conv
    {
      assert pcm[..i + 1][..i] == pcm[..i];
      FeedAllLast(cfg, InitialState(), pcm[..i + 1]);
      var r := conv.Feed(pcm[i]);
      if r.Frames? {
        frames := frames + r.frames;
      } else {
        failed := true;
      }
      i := i + 1;
    }
    if failed {
      FeedAllStopsAtFailure(cfg, InitialState(), pcm, i);
    } else {
      assert pcm[..i] == pcm;
      var tail := conv.Flush(true);
      frames := frames + tail;
    }
    outcome := SpeechOutcome(frames, i, failed);
  }

  class Agent<S> {
    /** The chat history, system prompt first. */
    var messages: seq<Message>
    /** The audio queue shared by the producer and `speak`. */
    var queue: seq<QueueItem>
    /** Whether `speech` has cancelled its producer task. */
    var producerCancelled: bool
    /** `audioop.ratecv`, as the converters of `speech` call it. */
    const ratecv: Resampler<S>

    /** `__init__`: the history holds only the system prompt, the queue is empty. */
    constructor (prompt: string, ratecv: Resampler<S>)
      ensures messages == [Message(System, prompt)]
      ensures queue == [] && !producerCancelled && this.ratecv == ratecv
    {
      messages := [Message(System, prompt)];
      queue := [];
      producerCancelled := false;
      this.ratecv := ratecv;
    }

    /** `invoke`: ask the model with the whole history; its reply text is
        appended as an `ai` message. `reply` is the model's answer, None where
        the call raises, in which case the history is unchanged and the
        exception propagates (None is returned). */
    method Invoke(reply: Option<AgentOutput>) returns (response: Option<AgentOutput>)
      modifies this`messages
      ensures response == reply
      ensures reply.Some? ==> messages == old(messages) + [Message(Ai, reply.value.response)]
      ensures reply.None? ==> messages == old(messages)
    {
      response := reply;
      if reply.Some? {
        messages := messages + [Message(Ai, reply.value.response)];
      }
    }

    /** `speech(text)`, with `tts` the chunks the synthesis service returns
        for the text. The producer puts its items and the sentinel on the
        queue; `speak` takes items up to the first sentinel; each is fed to a
        fresh 50 ms converter, and at the end the converter is flushed with
        padding. If the converter raises, the exception is swallowed: the
        frames so far are all there is, and only the items taken so far have
        left the queue. The producer is cancelled in every case. */
    method Speech(tts: seq<seq<byte>>) returns (frames: seq<seq<byte>>)
      modifies this`queue, this`producerCancelled
      ensures producerCancelled
      ensures (frames, queue) == SpeechStep(ratecv, old(queue), tts)
    {
      var produced := GenerateAudio(tts);
      queue := queue + produced;
      assert produced == Produced(tts);
      var yielded, taskDone, rest := Speak(queue);
      var outcome := ConvertSpeech(ratecv, yielded);
      frames := outcome.frames;
      if outcome.failed {
        queue := queue[outcome.consumed..];
      } else {
        queue := rest;
      }
      producerCancelled := true;
    }
  }
}
