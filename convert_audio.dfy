/** The streaming converter from 16 kHz 16-bit PCM to 8 kHz μ-law frames
    (`Pcm16kToMulaw8k`). It keeps three pieces of state across calls: the
    byte left over when a chunk ends in the middle of a sample, the rate
    converter's continuation state, and the μ-law bytes not yet emitted as a
    full frame. `FeedStep` and `FlushStep` say what one call does to that
    state as values; the class runs the same steps in place. */
module ConvertAudio {
  import opened Chunking
  import Mulaw

  /** Linear PCM made of whole 16-bit samples. */
  type Pcm16 = s: seq<byte> | |s| % 2 == 0

  datatype Resampled<S> = Resampled(pcm: Pcm16, state: S)

  /** The sample-rate converter `audioop.ratecv(fragment, width, nchannels,
      inrate, outrate, state)`, left opaque: it returns the converted PCM
      (whole samples) and the new continuation state, or None where it
      raises `audioop.error`. */
  type Resampler<!S> = (seq<byte>, int, int, int, int, Option<S>) -> Option<Resampled<S>>

  /** Python's `int(x)` of the quotient `a / b`: truncation toward zero. */
  function TruncDiv(a: int, b: int): (q: int)
    requires b > 0
    ensures a >= 0 ==> q * b <= a < (q + 1) * b
    ensures a < 0 ==> (q - 1) * b < a <= q * b
  {
    if a >= 0 then a / b else -((-a) / b)
  }

  /** Bytes per output frame: `int(out_rate * frame_ms / 1000)`, one μ-law
      byte per output sample. */
  function FrameBytes(outRate: int, frameMs: int): int
  {
    TruncDiv(outRate * frameMs, 1000)
  }

  /** 20 ms at 8 kHz is 160 bytes; the 50 ms frames of the speech path are 400. */
  lemma FrameBytesAt8k()
    ensures FrameBytes(8000, 20) == 160
    ensures FrameBytes(8000, 50) == 400
  {
  }

  /** The construction parameters a converter never changes. */
  datatype Config<!S> = Config(inRate: int, outRate: int, channels: int, frameBytes: nat,
                              silence: byte, ratecv: Resampler<S>)

  ghost predicate ValidConfig<S>(cfg: Config<S>)
  {
    cfg.frameBytes > 0
  }

  datatype ConvState<S> = ConvState(carry: seq<byte>, rateState: Option<S>, buf: seq<byte>)

  function InitialState<S>(): ConvState<S>
  {
    ConvState([], None, [])
  }

  /** Frames returned by `feed`, or Failed where the rate converter raised. */
  datatype FeedResult = Frames(frames: seq<seq<byte>>) | Failed

  /** The largest prefix of whole samples of `data`. */
  function AlignedPart(data: seq<byte>): (a: seq<byte>)
    ensures |a| % 2 == 0 && |data| - 2 < |a| <= |data|
  {
    data[..|data| - |data| % 2]
  }

  /** What is left after the whole samples: the trailing odd byte, if any. */
  function CarryPart(data: seq<byte>): (c: seq<byte>)
    ensures |c| < 2
  {
    data[|data| - |data| % 2..]
  }

  /** No byte is lost or reordered: the whole samples, then the carry, are
      the data. */
  lemma AlignedThenCarry(data: seq<byte>)
    ensures AlignedPart(data) + CarryPart(data) == data
  {
  }

  /** One call of `feed(chunk)` on the state `st`. */
  function FeedStep<S>(cfg: Config<S>, st: ConvState<S>, chunk: seq<byte>): (r: (FeedResult, ConvState<S>))
    requires ValidConfig(cfg)
    // an empty chunk changes nothing
    ensures chunk == [] ==> r == (Frames([]), st)
    // the frames are full frames and the buffer keeps less than one frame
    ensures r.0.Frames? ==> AllSized(r.0.frames, cfg.frameBytes)
    ensures r.0.Frames? && chunk != [] && AlignedPart(st.carry + chunk) != [] ==> |r.1.buf| < cfg.frameBytes
  {
    if chunk == [] then (Frames([]), st)
    else
      var data := st.carry + chunk;
      var aligned := AlignedPart(data);
      var st1 := st.(carry := CarryPart(data));
      if aligned == [] then (Frames([]), st1)
      else
        match cfg.ratecv(aligned, 2, cfg.channels, cfg.inRate, cfg.outRate, st.rateState)
        case None => (Failed, st1)
        case Some(out) =>
          var split := SplitFrames(st.buf + Mulaw.Lin2Ulaw(out.pcm), cfg.frameBytes);
          (Frames(split.0), ConvState(st1.carry, Some(out.state), split.1))
  }

  /** What one `feed` does with the whole samples of carry and chunk. */
  lemma FeedStepConverts<S>(cfg: Config<S>, st: ConvState<S>, chunk: seq<byte>)
    requires ValidConfig(cfg) && chunk != []
    // without a whole sample, the rate converter is not called and nothing is emitted
    ensures var r := FeedStep(cfg, st, chunk);
      AlignedPart(st.carry + chunk) == [] ==>
      r.0 == Frames([]) && r.1.rateState == st.rateState && r.1.buf == st.buf
    // a raise leaves rate state and buffer alone; otherwise, order and
    // conservation: frames then buffer are the old buffer then this call's μ-law
    ensures var r := FeedStep(cfg, st, chunk);
      AlignedPart(st.carry + chunk) != [] ==>
      match cfg.ratecv(AlignedPart(st.carry + chunk), 2, cfg.channels, cfg.inRate, cfg.outRate, st.rateState)
      case None => r.0 == Failed && r.1.rateState == st.rateState && r.1.buf == st.buf
      case Some(out) =>
        r.0.Frames? && Flatten(r.0.frames) + r.1.buf == st.buf + Mulaw.Lin2Ulaw(out.pcm)
        && r.1.rateState == Some(out.state)
  {
  }

  /** Number of silence bytes that pad `len` bytes up to a multiple of `n`. */
  function PadLength(len: nat, n: nat): (k: nat)
    requires n > 0
    ensures k < n && (len + k) % n == 0
  {
    var q, m := len / n, len % n;
    if m == 0 then 0
    else
      assert len + (n - m) == (q + 1) * n + 0;
      DivModUnique(len + (n - m), n, q + 1, 0);
      n - m
  }

  /** The buffer as `flush` slices it: with padding requested, followed by
      the silence byte up to the next frame boundary. */
  function Padded(buf: seq<byte>, n: nat, silence: byte, pad: bool): (r: seq<byte>)
    requires n > 0
    ensures pad ==> r == buf + Repeat(silence, PadLength(|buf|, n)) && |r| % n == 0
    ensures !pad ==> r == buf
  {
    if pad && |buf| % n != 0 then buf + Repeat(silence, n - |buf| % n) else buf
  }

  /** One call of `flush(pad)` on the state `st`. */
  function FlushStep<S>(cfg: Config<S>, st: ConvState<S>, pad: bool): (r: (seq<seq<byte>>, ConvState<S>))
    requires ValidConfig(cfg)
    // an empty buffer: nothing emitted, and the carry is NOT reset
    ensures st.buf == [] ==> r == ([], st)
    // otherwise buffer and carry end empty; the rate state is kept
    ensures st.buf != [] ==> r.1 == ConvState([], st.rateState, [])
    // only full frames are ever emitted
    ensures AllSized(r.0, cfg.frameBytes)
  {
    if st.buf == [] then ([], st)
    else (SplitFrames(Padded(st.buf, cfg.frameBytes, cfg.silence, pad), cfg.frameBytes).0, ConvState([], st.rateState, []))
  }

  /** What a flush emits: with padding, the buffer followed by just enough
      silence; without, the buffer with a short remainder dropped. */
  lemma FlushStepFrames<S>(cfg: Config<S>, st: ConvState<S>, pad: bool)
    requires ValidConfig(cfg)
    ensures pad ==> Flatten(FlushStep(cfg, st, pad).0) == st.buf + Repeat(cfg.silence, PadLength(|st.buf|, cfg.frameBytes))
    ensures !pad ==> Flatten(FlushStep(cfg, st, pad).0) == st.buf[..|st.buf| - |st.buf| % cfg.frameBytes]
  {
    var n := cfg.frameBytes;
    if st.buf == [] {
      assert PadLength(0, n) == 0 by {
        assert 0 % n == 0;
      }
      assert Flatten<byte>([]) == [];
    } else {
      assert FlushStep(cfg, st, pad).0 == SplitFrames(Padded(st.buf, n, cfg.silence, pad), n).0;
      PaddedFrames(st.buf, n, cfg.silence, pad);
    }
  }

  lemma PaddedFrames(buf: seq<byte>, n: nat, silence: byte, pad: bool)
    requires n > 0
    ensures pad ==> Flatten(SplitFrames(Padded(buf, n, silence, pad), n).0) == buf + Repeat(silence, PadLength(|buf|, n))
    ensures !pad ==> Flatten(SplitFrames(Padded(buf, n, silence, pad), n).0) == buf[..|buf| - |buf| % n]
  {
    var padded := Padded(buf, n, silence, pad);
    SplitFramesPrefix(padded, n);
    if pad {
      assert padded[..|padded| - |padded| % n] == padded;
    }
  }

  /** With less than one frame buffered (as after every `feed`), a padded
      flush emits exactly one frame: the buffer, then silence to fill it. */
  lemma {:induction false} FlushPadsOneFrame<S>(cfg: Config<S>, st: ConvState<S>)
    requires ValidConfig(cfg)
    requires 0 < |st.buf| < cfg.frameBytes
    ensures FlushStep(cfg, st, true).0 == [st.buf + Repeat(cfg.silence, cfg.frameBytes - |st.buf|)]
  {
    var n := cfg.frameBytes;
    var frame := st.buf + Repeat(cfg.silence, n - |st.buf|);
    assert Padded(st.buf, n, cfg.silence, true) == frame by {
      assert |st.buf| % n == |st.buf|;
    }
    assert Flatten([frame]) == frame by {
      assert [frame][..0] == [];
    }
    SplitFramesUnique(frame, n, [frame], []);
  }

  /** An unpadded flush with less than one frame buffered emits nothing. */
  lemma UnpaddedFlushOfShortBufferIsEmpty<S>(cfg: Config<S>, st: ConvState<S>)
    requires ValidConfig(cfg)
    requires |st.buf| < cfg.frameBytes
    ensures FlushStep(cfg, st, false).0 == []
  {
    if st.buf != [] {
      SplitFramesCount(st.buf, cfg.frameBytes);
    }
  }

  /** A second flush right after a first one returns nothing. */
  lemma FlushTwice<S>(cfg: Config<S>, st: ConvState<S>, pad1: bool, pad2: bool)
    requires ValidConfig(cfg)
    ensures FlushStep(cfg, FlushStep(cfg, st, pad1).1, pad2).0 == []
  {
  }

  /** The result of feeding a sequence of chunks in order, stopping at the
      first call that raises: the frames emitted, how many chunks were taken
      (the failing one included), whether one failed, and the final state. */
  datatype Drain<S> = Drain(frames: seq<seq<byte>>, consumed: nat, failed: bool, state: ConvState<S>)

  function FeedAll<S>(cfg: Config<S>, st: ConvState<S>, chunks: seq<seq<byte>>): (d: Drain<S>)
    requires ValidConfig(cfg)
    ensures AllSized(d.frames, cfg.frameBytes)
    ensures d.consumed <= |chunks|
    ensures !d.failed ==> d.consumed == |chunks|
    ensures d.failed ==> d.consumed > 0
    ensures |st.buf| < cfg.frameBytes ==> |d.state.buf| < cfg.frameBytes
    decreases |chunks|
  {
    if chunks == [] then Drain([], 0, false, st)
    else
      var d := FeedAll(cfg, st, chunks[..|chunks| - 1]);
      if d.failed then d
      else
        var step := FeedStep(cfg, d.state, chunks[|chunks| - 1]);
        match step.0
        case Failed => Drain(d.frames, |chunks|, true, step.1)
        case Frames(fs) =>
          AllSizedConcat(d.frames, fs, cfg.frameBytes);
          Drain(d.frames + fs, |chunks|, false, step.1)
  }

  /** Once a call has raised, later chunks are never fed. */
  lemma {:induction false} FeedAllStopsAtFailure<S>(cfg: Config<S>, st: ConvState<S>, chunks: seq<seq<byte>>, i: nat)
    requires ValidConfig(cfg)
    requires i <= |chunks| && FeedAll(cfg, st, chunks[..i]).failed
    ensures FeedAll(cfg, st, chunks) == FeedAll(cfg, st, chunks[..i])
    decreases |chunks| - i
  {
    if i < |chunks| {
      var init := chunks[..|chunks| - 1];
      assert init[..i] == chunks[..i];
      FeedAllStopsAtFailure(cfg, st, init, i);
    } else {
      assert chunks[..i] == chunks;
    }
  }

  /** A rate converter that never raises makes every chunk be fed. */
  lemma {:induction false} FeedAllTotal<S>(cfg: Config<S>, st: ConvState<S>, chunks: seq<seq<byte>>)
    requires ValidConfig(cfg)
    requires forall data, s :: cfg.ratecv(data, 2, cfg.channels, cfg.inRate, cfg.outRate, s).Some?
    ensures !FeedAll(cfg, st, chunks).failed
    decreases |chunks|
  {
    if chunks != [] {
      FeedAllTotal(cfg, st, chunks[..|chunks| - 1]);
    }
  }

  /** Alignment across calls: after feeding any chunks (empty and one-byte
      ones included), the carry is the trailing odd byte of the old carry
      followed by every byte taken so far, or empty when that count is even. */
  lemma {:induction false} FeedAllCarry<S>(cfg: Config<S>, st: ConvState<S>, chunks: seq<seq<byte>>)
    requires ValidConfig(cfg)
    requires |st.carry| < 2
    ensures FeedAll(cfg, st, chunks).state.carry ==
            CarryPart(st.carry + Flatten(chunks[..FeedAll(cfg, st, chunks).consumed]))
    decreases |chunks|
  {
    if chunks == [] {
      assert chunks[..0] == [];
      assert st.carry + [] == st.carry;
    } else {
      var init := chunks[..|chunks| - 1];
      FeedAllCarry(cfg, st, init);
      if FeedAll(cfg, st, init).failed {
        CarryAfterFailure(cfg, st, chunks);
      } else {
        CarryAfterStep(cfg, st, chunks);
      }
    }
  }

  /** The carry of FeedAllCarry, as a predicate of the chunks fed. */
  ghost predicate CarryTracks<S>(cfg: Config<S>, st: ConvState<S>, chunks: seq<seq<byte>>)
    requires ValidConfig(cfg)
  {
    var d := FeedAll(cfg, st, chunks);
    d.state.carry == CarryPart(st.carry + Flatten(chunks[..d.consumed]))
  }

  lemma CarryAfterFailure<S>(cfg: Config<S>, st: ConvState<S>, chunks: seq<seq<byte>>)
    requires ValidConfig(cfg) && chunks != []
    requires FeedAll(cfg, st, chunks[..|chunks| - 1]).failed
    requires CarryTracks(cfg, st, chunks[..|chunks| - 1])
    ensures CarryTracks(cfg, st, chunks)
  {
    var init := chunks[..|chunks| - 1];
    var d := FeedAll(cfg, st, init);
    assert FeedAll(cfg, st, chunks) == d;
    assert chunks[..d.consumed] == init[..d.consumed];
  }

  lemma CarryAfterStep<S>(cfg: Config<S>, st: ConvState<S>, chunks: seq<seq<byte>>)
    requires ValidConfig(cfg) && chunks != [] && |st.carry| < 2
    requires !FeedAll(cfg, st, chunks[..|chunks| - 1]).failed
    requires CarryTracks(cfg, st, chunks[..|chunks| - 1])
    ensures CarryTracks(cfg, st, chunks)
  {
    var init := chunks[..|chunks| - 1];
    assert init[..FeedAll(cfg, st, init).consumed] == init;
    CarryNextChunk(cfg, st, chunks);
    assert chunks[..|chunks|] == chunks;
  }

  /** The carry after one more chunk, in terms of everything fed. */
  lemma CarryNextChunk<S>(cfg: Config<S>, st: ConvState<S>, chunks: seq<seq<byte>>)
    requires ValidConfig(cfg) && |st.carry| < 2 && chunks != []
    requires !FeedAll(cfg, st, chunks[..|chunks| - 1]).failed
    requires FeedAll(cfg, st, chunks[..|chunks| - 1]).state.carry == CarryPart(st.carry + Flatten(chunks[..|chunks| - 1]))
    ensures FeedAll(cfg, st, chunks).consumed == |chunks|
    ensures FeedAll(cfg, st, chunks).state.carry == CarryPart(st.carry + Flatten(chunks))
  {
    FeedAllLastCarry(cfg, st, chunks);
    CarryAppend(st.carry, chunks);
  }

  /** The carry after one more chunk, in terms of the carry before it. */
  lemma FeedAllLastCarry<S>(cfg: Config<S>, st: ConvState<S>, chunks: seq<seq<byte>>)
    requires ValidConfig(cfg) && |st.carry| < 2 && chunks != []
    requires !FeedAll(cfg, st, chunks[..|chunks| - 1]).failed
    ensures FeedAll(cfg, st, chunks).consumed == |chunks|
    ensures FeedAll(cfg, st, chunks).state.carry ==
            CarryPart(FeedAll(cfg, st, chunks[..|chunks| - 1]).state.carry + chunks[|chunks| - 1])
  {
    var init := chunks[..|chunks| - 1];
    FeedAllLastState(cfg, st, chunks);
    FeedAllCarryBound(cfg, st, init);
    StepCarry(cfg, FeedAll(cfg, st, init).state, chunks[|chunks| - 1]);
  }

  /** The state and count after one more chunk, following chunks that all went through. */
  lemma FeedAllLastState<S>(cfg: Config<S>, st: ConvState<S>, chunks: seq<seq<byte>>)
    requires ValidConfig(cfg) && chunks != []
    requires !FeedAll(cfg, st, chunks[..|chunks| - 1]).failed
    ensures FeedAll(cfg, st, chunks).state ==
            FeedStep(cfg, FeedAll(cfg, st, chunks[..|chunks| - 1]).state, chunks[|chunks| - 1]).1
    ensures FeedAll(cfg, st, chunks).consumed == |chunks|
  {
    FeedAllLast(cfg, st, chunks);
  }

  /** The carry stays shorter than a sample over any number of feeds. */
  lemma {:induction false} FeedAllCarryBound<S>(cfg: Config<S>, st: ConvState<S>, chunks: seq<seq<byte>>)
    requires ValidConfig(cfg) && |st.carry| < 2
    ensures |FeedAll(cfg, st, chunks).state.carry| < 2
    decreases |chunks|
  {
    if chunks != [] {
      FeedAllCarryBound(cfg, st, chunks[..|chunks| - 1]);
    }
  }

  /** Feeding one more chunk after chunks that all went through. */
  lemma FeedAllLast<S>(cfg: Config<S>, st: ConvState<S>, chunks: seq<seq<byte>>)
    requires ValidConfig(cfg) && chunks != []
    requires !FeedAll(cfg, st, chunks[..|chunks| - 1]).failed
    ensures var d := FeedAll(cfg, st, chunks[..|chunks| - 1]);
      var step := FeedStep(cfg, d.state, chunks[|chunks| - 1]);
      FeedAll(cfg, st, chunks) ==
        match step.0
        case Failed => Drain(d.frames, |chunks|, true, step.1)
        case Frames(fs) => Drain(d.frames + fs, |chunks|, false, step.1)
  {
  }

  /** The carry after all chunks follows from the carry before the last one. */
  lemma CarryAppend(carry: seq<byte>, chunks: seq<seq<byte>>)
    requires chunks != []
    ensures CarryPart(CarryPart(carry + Flatten(chunks[..|chunks| - 1])) + chunks[|chunks| - 1]) ==
            CarryPart(carry + Flatten(chunks))
  {
    var init, c := chunks[..|chunks| - 1], chunks[|chunks| - 1];
    CarryOfTail(carry + Flatten(init), c);
    AppendAssoc(carry, Flatten(init), c);
  }

  /** One `feed` leaves as carry the trailing odd byte of old carry and chunk. */
  lemma StepCarry<S>(cfg: Config<S>, st: ConvState<S>, chunk: seq<byte>)
    requires ValidConfig(cfg)
    requires |st.carry| < 2
    ensures FeedStep(cfg, st, chunk).1.carry == CarryPart(st.carry + chunk)
  {
    if chunk == [] {
      assert st.carry + chunk == st.carry;
    }
  }

  /** Only the carry of `a` matters for the carry of `a + b`. */
  lemma CarryOfTail(a: seq<byte>, b: seq<byte>)
    ensures CarryPart(CarryPart(a) + b) == CarryPart(a + b)
  {
    var ca := CarryPart(a);
    CarryPartCases(a);
    CarryPartCases(a + b);
    CarryPartCases(ca + b);
    if b == [] {
      assert ca + b == ca && a + b == a;
      CarryPartCases(ca);
    } else {
      assert (a + b)[|a + b| - 1] == b[|b| - 1];
      assert (ca + b)[|ca + b| - 1] == b[|b| - 1];
    }
  }

  /** The carry is empty after an even number of bytes, and the last byte
      after an odd one. */
  lemma CarryPartCases(data: seq<byte>)
    ensures |data| % 2 == 0 ==> CarryPart(data) == []
    ensures |data| % 2 == 1 ==> CarryPart(data) == [data[|data| - 1]]
  {
  }

  // ---------------------------------------------------------------------------
  // What reaches the rate converter over a run of feeds

  /** One call of the rate converter made by a `feed`: the whole samples it
      was handed, and the PCM it returned or None where it raised. */
  datatype RateCall = RateCall(input: seq<byte>, output: Option<Pcm16>)

  /** The converter call `feed(chunk)` makes on the state `st`: none for an
      empty chunk, or when carry and chunk hold no whole sample. */
  function CallOf<S>(cfg: Config<S>, st: ConvState<S>, chunk: seq<byte>): (c: Option<RateCall>)
    ensures c.Some? <==> chunk != [] && AlignedPart(st.carry + chunk) != []
    ensures c.Some? ==> c.value.input == AlignedPart(st.carry + chunk) && |c.value.input| % 2 == 0
  {
    var aligned := AlignedPart(st.carry + chunk);
    if chunk == [] || aligned == [] then None
    else
      match cfg.ratecv(aligned, 2, cfg.channels, cfg.inRate, cfg.outRate, st.rateState)
      case None => Some(RateCall(aligned, None))
      case Some(out) => Some(RateCall(aligned, Some(out.pcm)))
  }

  /** The converter calls made while feeding `chunks` in order, up to and
      including the one that raised. */
  ghost function RateCalls<S>(cfg: Config<S>, st: ConvState<S>, chunks: seq<seq<byte>>): seq<RateCall>
    requires ValidConfig(cfg)
    decreases |chunks|
  {
    if chunks == [] then []
    else
      var init := chunks[..|chunks| - 1];
      var d := FeedAll(cfg, st, init);
      var prev := RateCalls(cfg, st, init);
      if d.failed then prev
      else match CallOf(cfg, d.state, chunks[|chunks| - 1])
        case None => prev
        case Some(call) => prev + [call]
  }

  /** Everything handed to the converter, in call order. */
  function RateInputs(calls: seq<RateCall>): seq<byte>
  {
    if calls == [] then [] else RateInputs(calls[..|calls| - 1]) + calls[|calls| - 1].input
  }

  /** The μ-law of everything the converter returned, in call order. */
  function EncodedOutputs(calls: seq<RateCall>): seq<byte>
  {
    if calls == [] then []
    else
      var last := calls[|calls| - 1];
      EncodedOutputs(calls[..|calls| - 1]) + (if last.output.Some? then Mulaw.Lin2Ulaw(last.output.value) else [])
  }

  function CallInput(c: Option<RateCall>): seq<byte>
  {
    if c.Some? then c.value.input else []
  }

  function CallEncoded(c: Option<RateCall>): seq<byte>
  {
    if c.Some? && c.value.output.Some? then Mulaw.Lin2Ulaw(c.value.output.value) else []
  }

  /** Conservation over a run of feeds: the old carry followed by the chunks
      taken reaches the converter once each and in order, the final carry
      holding what was not handed over; and the frames emitted followed by
      the final buffer are the old buffer followed by the μ-law of every
      converter output, in order. Every call but the last returned, and the
      last raised exactly when the run failed. */
  lemma FeedAllConverts<S>(cfg: Config<S>, st: ConvState<S>, chunks: seq<seq<byte>>)
    requires ValidConfig(cfg) && |st.carry| < 2
    ensures var d := FeedAll(cfg, st, chunks);
      var calls := RateCalls(cfg, st, chunks);
      RateInputs(calls) + d.state.carry == st.carry + Flatten(chunks[..d.consumed]) &&
      Flatten(d.frames) + d.state.buf == st.buf + EncodedOutputs(calls) &&
      (forall i :: 0 <= i < |calls| - 1 ==> calls[i].output.Some?) &&
      (d.failed <==> calls != [] && calls[|calls| - 1].output.None?)
  {
    ConvertedByInduction(cfg, st, chunks);
  }

  lemma {:induction false} ConvertedByInduction<S>(cfg: Config<S>, st: ConvState<S>, chunks: seq<seq<byte>>)
    requires ValidConfig(cfg) && |st.carry| < 2
    ensures Converted(cfg, st, chunks)
    decreases |chunks|
  {
    if chunks == [] {
      assert chunks[..0] == [];
      assert Flatten<byte>([]) == [];
    } else {
      var init := chunks[..|chunks| - 1];
      ConvertedByInduction(cfg, st, init);
      if FeedAll(cfg, st, init).failed {
        ConvertedAfterFailure(cfg, st, chunks);
      } else {
        ConvertedAfterStep(cfg, st, chunks);
      }
    }
  }

  /** The facts of FeedAllConverts, as a predicate of the chunks fed. */
  ghost predicate Converted<S>(cfg: Config<S>, st: ConvState<S>, chunks: seq<seq<byte>>)
    requires ValidConfig(cfg)
  {
    InputsConserved(cfg, st, chunks) && OutputsConserved(cfg, st, chunks) &&
    CallsOutcome(RateCalls(cfg, st, chunks), FeedAll(cfg, st, chunks).failed)
  }

  ghost predicate InputsConserved<S>(cfg: Config<S>, st: ConvState<S>, chunks: seq<seq<byte>>)
    requires ValidConfig(cfg)
  {
    var d := FeedAll(cfg, st, chunks);
    RateInputs(RateCalls(cfg, st, chunks)) + d.state.carry == st.carry + Flatten(chunks[..d.consumed])
  }

  ghost predicate OutputsConserved<S>(cfg: Config<S>, st: ConvState<S>, chunks: seq<seq<byte>>)
    requires ValidConfig(cfg)
  {
    var d := FeedAll(cfg, st, chunks);
    Flatten(d.frames) + d.state.buf == st.buf + EncodedOutputs(RateCalls(cfg, st, chunks))
  }

  /** Every call but the last returned; the last raised exactly when `failed`. */
  ghost predicate CallsOutcome(calls: seq<RateCall>, failed: bool)
  {
    (forall i :: 0 <= i < |calls| - 1 ==> calls[i].output.Some?) &&
    (failed <==> calls != [] && calls[|calls| - 1].output.None?)
  }

  lemma ConvertedAfterFailure<S>(cfg: Config<S>, st: ConvState<S>, chunks: seq<seq<byte>>)
    requires ValidConfig(cfg) && chunks != []
    requires FeedAll(cfg, st, chunks[..|chunks| - 1]).failed
    requires Converted(cfg, st, chunks[..|chunks| - 1])
    ensures Converted(cfg, st, chunks)
  {
    var init := chunks[..|chunks| - 1];
    var d := FeedAll(cfg, st, init);
    assert FeedAll(cfg, st, chunks) == d;
    assert RateCalls(cfg, st, chunks) == RateCalls(cfg, st, init);
    assert chunks[..d.consumed] == init[..d.consumed];
  }

  lemma ConvertedAfterStep<S>(cfg: Config<S>, st: ConvState<S>, chunks: seq<seq<byte>>)
    requires ValidConfig(cfg) && chunks != [] && |st.carry| < 2
    requires !FeedAll(cfg, st, chunks[..|chunks| - 1]).failed
    requires Converted(cfg, st, chunks[..|chunks| - 1])
    ensures Converted(cfg, st, chunks)
  {
    var init := chunks[..|chunks| - 1];
    FeedAllCarryBound(cfg, st, init);
    StepConverts(cfg, FeedAll(cfg, st, init).state, chunks[|chunks| - 1]);
    RateCallsLast(cfg, st, chunks);
    FeedAllNext(cfg, st, chunks);
    InputsAfterStep(cfg, st, chunks);
    OutputsAfterStep(cfg, st, chunks);
    OutcomeAfterStep(cfg, st, chunks);
  }

  /** FeedAll after one more chunk, following chunks that all went through,
      field by field. */
  lemma FeedAllNext<S>(cfg: Config<S>, st: ConvState<S>, chunks: seq<seq<byte>>)
    requires ValidConfig(cfg) && chunks != []
    requires !FeedAll(cfg, st, chunks[..|chunks| - 1]).failed
    ensures var d := FeedAll(cfg, st, chunks[..|chunks| - 1]);
      var step := FeedStep(cfg, d.state, chunks[|chunks| - 1]);
      var e := FeedAll(cfg, st, chunks);
      e.state == step.1 && e.consumed == |chunks| && e.failed == step.0.Failed? &&
      (step.0.Failed? ==> e.frames == d.frames) &&
      (step.0.Frames? ==> e.frames == d.frames + step.0.frames)
  {
    FeedAllLast(cfg, st, chunks);
  }

  lemma InputsAfterStep<S>(cfg: Config<S>, st: ConvState<S>, chunks: seq<seq<byte>>)
    requires ValidConfig(cfg) && chunks != []
    requires var init := chunks[..|chunks| - 1];
      var d := FeedAll(cfg, st, init);
      var call := CallOf(cfg, d.state, chunks[|chunks| - 1]);
      !d.failed && InputsConserved(cfg, st, init) &&
      FeedAll(cfg, st, chunks).consumed == |chunks| &&
      RateInputs(RateCalls(cfg, st, chunks)) == RateInputs(RateCalls(cfg, st, init)) + CallInput(call) &&
      CallInput(call) + FeedAll(cfg, st, chunks).state.carry == d.state.carry + chunks[|chunks| - 1]
    ensures InputsConserved(cfg, st, chunks)
  {
    var init, c := chunks[..|chunks| - 1], chunks[|chunks| - 1];
    var d := FeedAll(cfg, st, init);
    assert init[..d.consumed] == init;
    assert chunks[..|chunks|] == chunks;
    FlattenOfLast(chunks);
    ChainInputs(RateInputs(RateCalls(cfg, st, init)), CallInput(CallOf(cfg, d.state, c)),
                FeedAll(cfg, st, chunks).state.carry, d.state.carry, c, st.carry, Flatten(init));
  }

  lemma OutputsAfterStep<S>(cfg: Config<S>, st: ConvState<S>, chunks: seq<seq<byte>>)
    requires ValidConfig(cfg) && chunks != []
    requires var init := chunks[..|chunks| - 1];
      var d := FeedAll(cfg, st, init);
      var step := FeedStep(cfg, d.state, chunks[|chunks| - 1]);
      var call := CallOf(cfg, d.state, chunks[|chunks| - 1]);
      var e := FeedAll(cfg, st, chunks);
      !d.failed && OutputsConserved(cfg, st, init) &&
      EncodedOutputs(RateCalls(cfg, st, chunks)) == EncodedOutputs(RateCalls(cfg, st, init)) + CallEncoded(call) &&
      e.state == step.1 &&
      (step.0.Failed? ==> e.frames == d.frames && step.1.buf == d.state.buf && CallEncoded(call) == []) &&
      (step.0.Frames? ==> e.frames == d.frames + step.0.frames &&
                          Flatten(step.0.frames) + step.1.buf == d.state.buf + CallEncoded(call))
    ensures OutputsConserved(cfg, st, chunks)
  {
    var init, c := chunks[..|chunks| - 1], chunks[|chunks| - 1];
    var d := FeedAll(cfg, st, init);
    var step := FeedStep(cfg, d.state, c);
    var prev := EncodedOutputs(RateCalls(cfg, st, init));
    if step.0.Frames? {
      FlattenConcat(d.frames, step.0.frames);
      ChainInputs(Flatten(d.frames), Flatten(step.0.frames), step.1.buf, d.state.buf, CallEncoded(CallOf(cfg, d.state, c)), st.buf, prev);
    } else {
      assert prev + [] == prev;
    }
  }

  lemma OutcomeAfterStep<S>(cfg: Config<S>, st: ConvState<S>, chunks: seq<seq<byte>>)
    requires ValidConfig(cfg) && chunks != []
    requires var init := chunks[..|chunks| - 1];
      var d := FeedAll(cfg, st, init);
      var call := CallOf(cfg, d.state, chunks[|chunks| - 1]);
      var prev := RateCalls(cfg, st, init);
      !d.failed && CallsOutcome(prev, false) &&
      RateCalls(cfg, st, chunks) == prev + (if call.Some? then [call.value] else []) &&
      (FeedAll(cfg, st, chunks).failed <==> call.Some? && call.value.output.None?)
    ensures CallsOutcome(RateCalls(cfg, st, chunks), FeedAll(cfg, st, chunks).failed)
  {
    var init := chunks[..|chunks| - 1];
    CallsOutcomeSnoc(RateCalls(cfg, st, init), CallOf(cfg, FeedAll(cfg, st, init).state, chunks[|chunks| - 1]),
                     FeedAll(cfg, st, chunks).failed);
  }

  lemma CallsOutcomeSnoc(prev: seq<RateCall>, call: Option<RateCall>, failed: bool)
    requires CallsOutcome(prev, false)
    requires failed <==> call.Some? && call.value.output.None?
    ensures CallsOutcome(prev + (if call.Some? then [call.value] else []), failed)
  {
    if call.None? {
      assert prev + [] == prev;
    }
  }

  /** `Flatten(chunks)` is the flattening of all but the last chunk, then the last. */
  lemma FlattenOfLast(chunks: seq<seq<byte>>)
    requires chunks != []
    ensures Flatten(chunks) == Flatten(chunks[..|chunks| - 1]) + chunks[|chunks| - 1]
  {
    var init, c := chunks[..|chunks| - 1], chunks[|chunks| - 1];
    assert chunks == init + [c];
    FlattenSnoc(init, c);
  }

  /** Two conservation steps chained: `a` then `b` then `k` is `s` then `f` then `c`. */
  lemma ChainInputs(a: seq<byte>, b: seq<byte>, k: seq<byte>, mid: seq<byte>, c: seq<byte>, s: seq<byte>, f: seq<byte>)
    requires a + mid == s + f
    requires b + k == mid + c
    ensures (a + b) + k == s + (f + c)
  {
    calc {
      (a + b) + k;
      { AppendAssoc(a, b, k); }
      a + (b + k);
      { AppendAssoc(a, mid, c); }
      (s + f) + c;
      { AppendAssoc(s, f, c); }
      s + (f + c);
    }
  }

  /** The calls, inputs and outputs after one more chunk, following chunks
      that all went through. */
  lemma RateCallsLast<S>(cfg: Config<S>, st: ConvState<S>, chunks: seq<seq<byte>>)
    requires ValidConfig(cfg) && chunks != []
    requires !FeedAll(cfg, st, chunks[..|chunks| - 1]).failed
    ensures var init := chunks[..|chunks| - 1];
      var prev := RateCalls(cfg, st, init);
      var call := CallOf(cfg, FeedAll(cfg, st, init).state, chunks[|chunks| - 1]);
      RateCalls(cfg, st, chunks) == prev + (if call.Some? then [call.value] else []) &&
      RateInputs(RateCalls(cfg, st, chunks)) == RateInputs(prev) + CallInput(call) &&
      EncodedOutputs(RateCalls(cfg, st, chunks)) == EncodedOutputs(prev) + CallEncoded(call)
  {
    var init := chunks[..|chunks| - 1];
    var prev := RateCalls(cfg, st, init);
    var call := CallOf(cfg, FeedAll(cfg, st, init).state, chunks[|chunks| - 1]);
    if call.Some? {
      assert (prev + [call.value])[..|prev|] == prev;
    } else {
      assert prev + [] == prev;
    }
  }

  /** One `feed` in terms of the converter call it makes: the call's input
      followed by the new carry is the old carry followed by the chunk; on
      success the frames followed by the new buffer are the old buffer
      followed by the call's μ-law; it fails exactly when the call raised. */
  lemma StepConverts<S>(cfg: Config<S>, st: ConvState<S>, chunk: seq<byte>)
    requires ValidConfig(cfg) && |st.carry| < 2
    ensures var r := FeedStep(cfg, st, chunk);
      var call := CallOf(cfg, st, chunk);
      CallInput(call) + r.1.carry == st.carry + chunk &&
      (r.0.Frames? ==> Flatten(r.0.frames) + r.1.buf == st.buf + CallEncoded(call)) &&
      (r.0.Failed? <==> call.Some? && call.value.output.None?)
  {
    var data := st.carry + chunk;
    AlignedThenCarry(data);
    if chunk == [] {
      assert st.carry + chunk == st.carry;
      assert Flatten<seq<byte>>([]) == [];
      assert st.buf + [] == st.buf;
    } else if AlignedPart(data) == [] {
      assert [] + CarryPart(data) == data;
      assert st.buf + [] == st.buf;
    } else {
      FeedStepConverts(cfg, st, chunk);
    }
  }

  /** A `Pcm16kToMulaw8k` converter with `width` 2. */
  class Pcm16kToMulaw8k<S> {
    const inRate: int
    const outRate: int
    const channels: int
    const frameMs: int
    const ratecv: Resampler<S>
    const outFrameBytes: nat
    const silence: byte

    var rateState: Option<S>
    var carry: seq<byte>
    var mulawBuf: seq<byte>

    function Cfg(): Config<S>
    {
      Config(inRate, outRate, channels, outFrameBytes, silence, ratecv)
    }

    function State(): ConvState<S>
      reads this
    {
      ConvState(carry, rateState, mulawBuf)
    }

    ghost predicate Valid()
      reads this
    {
      outFrameBytes > 0 &&
      silence == 0xFF &&
      |carry| < 2 && |mulawBuf| < outFrameBytes
    }

    /** `__post_init__`: frame size fixed from the rate and duration, silence
        derived by encoding one zero sample, all state empty. A frame size of
        zero or less makes `feed` loop forever, so it is excluded. */
    constructor (inRate: int, outRate: int, channels: int, frameMs: int, ratecv: Resampler<S>)
      requires FrameBytes(outRate, frameMs) > 0
      ensures Valid()
      ensures this.inRate == inRate && this.outRate == outRate && this.channels == channels
      ensures this.frameMs == frameMs && this.ratecv == ratecv
      ensures outFrameBytes == FrameBytes(outRate, frameMs) && silence == 0xFF
      ensures State() == InitialState()
    {
      this.inRate := inRate;
      this.outRate := outRate;
      this.channels := channels;
      this.frameMs := frameMs;
      this.ratecv := ratecv;
      outFrameBytes := FrameBytes(outRate, frameMs);
      Mulaw.SilenceIsFF();
      silence := Mulaw.Lin2Ulaw([0, 0])[0];
      rateState := None;
      carry := [];
      mulawBuf := [];
    }

    /** The loop that `feed` and `flush` share: slice full frames off the
        front of the μ-law buffer while at least one remains. */
    method SliceFrames() returns (out: seq<seq<byte>>)
      requires outFrameBytes > 0
      modifies this`mulawBuf
      ensures (out, mulawBuf) == SplitFrames(old(mulawBuf), outFrameBytes)
    {
      out := [];
      while |mulawBuf| >= outFrameBytes
        invariant Flatten(out) + mulawBuf == old(mulawBuf)
        invariant AllSized(out, outFrameBytes)
        decreases |mulawBuf|
      {
        var frame := mulawBuf[..outFrameBytes];
        FlattenSnoc(out, frame);
        assert frame + mulawBuf[outFrameBytes..] == mulawBuf;
        out := out + [frame];
        mulawBuf := mulawBuf[outFrameBytes..];
      }
      SplitFramesUnique(old(mulawBuf), outFrameBytes, out, mulawBuf);
    }

    /** `feed(pcm16_16k)`. */
    method Feed(chunk: seq<byte>) returns (res: FeedResult)
      requires Valid()
      modifies this
      ensures Valid()
      ensures (res, State()) == FeedStep(Cfg(), old(State()), chunk)
    {
      if chunk == [] {
        return Frames([]);
      }
      var data := carry + chunk;
      ghost var whole := data;
      var n := |data| - |data| % 2;
      carry := data[n..];
      data := data[..n];
      assert data == AlignedPart(whole) && carry == CarryPart(whole);
      if data == [] {
        return Frames([]);
      }
      var converted := ratecv(data, 2, channels, inRate, outRate, rateState);
      if converted.None? {
        return Failed;
      }
      rateState := Some(converted.value.state);
      var mulaw := Mulaw.Lin2Ulaw(converted.value.pcm);
      mulawBuf := mulawBuf + mulaw;
      var out := SliceFrames();
      return Frames(out);
    }

    /** `flush(pad_to_full_frame)`. */
    method Flush(padToFullFrame: bool) returns (out: seq<seq<byte>>)
      requires Valid()
      modifies this
      ensures Valid()
      ensures (out, State()) == FlushStep(Cfg(), old(State()), padToFullFrame)
    {
      out := [];
      if mulawBuf == [] {
        return;
      }
      if padToFullFrame && |mulawBuf| % outFrameBytes != 0 {
        var missing := outFrameBytes - |mulawBuf| % outFrameBytes;
        mulawBuf := mulawBuf + Repeat(silence, missing);
      }
      assert mulawBuf == Padded(old(mulawBuf), outFrameBytes, silence, padToFullFrame);
      out := SliceFrames();
      mulawBuf := [];
      carry := [];
    }
  }
}
