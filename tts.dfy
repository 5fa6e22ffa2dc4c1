/** The speech-synthesis side of the relay: `generate_audio` re-chunks the
    synthesis service's PCM stream into 2048-byte pieces on a queue and closes
    it with a sentinel; `speak` drains the queue up to that sentinel. The
    service's response is given as the sequence of chunks it delivered; the
    queue is a sequence of items. */
module Tts {
  import opened Chunking

  const SampleRate := 16000
  const Channels := 1
  const SampleWidth := 2
  const ChunkSize := 1024
  const BytesPerChunk: nat := ChunkSize * Channels * SampleWidth

  /** An item on the audio queue; `EndOfStream` is Python's `None`. */
  datatype QueueItem = Audio(pcm: seq<byte>) | EndOfStream

  predicate AllAudio(items: seq<QueueItem>)
  {
    forall i :: 0 <= i < |items| ==> items[i].Audio?
  }

  /** The byte chunks carried by a run of audio items, in order. */
  function Payloads(items: seq<QueueItem>): (r: seq<seq<byte>>)
    requires AllAudio(items)
    ensures |r| == |items|
    ensures forall i :: 0 <= i < |items| ==> r[i] == items[i].pcm
  {
    if items == [] then [] else Payloads(items[..|items| - 1]) + [items[|items| - 1].pcm]
  }

  lemma PayloadsSnoc(items: seq<QueueItem>, item: QueueItem)
    requires AllAudio(items) && item.Audio?
    ensures AllAudio(items + [item])
    ensures Payloads(items + [item]) == Payloads(items) + [item.pcm]
  {
    assert (items + [item])[..|items|] == items;
  }

  /** The longest prefix of `s` made of whole 16-bit samples. */
  function EvenPrefix(s: seq<byte>): (r: seq<byte>)
    ensures |r| % 2 == 0 && |s| - 1 <= |r| <= |s|
  {
    s[..|s| - |s| % 2]
  }

  /** The byte items `generate_audio` puts for a response: the full chunks
      sliced off the stream, then the even part of the leftover if non-empty. */
  function Rechunk(response: seq<seq<byte>>): (r: seq<seq<byte>>)
    // one item per full chunk of the stream, and one more when at least
    // a whole sample is left over
    ensures |r| == |Flatten(response)| / BytesPerChunk + (if |Flatten(response)| % BytesPerChunk >= 2 then 1 else 0)
  {
    var split := SplitFrames(Flatten(response), BytesPerChunk);
    SplitFramesCount(Flatten(response), BytesPerChunk);
    FinalPieces(split.0, split.1)
  }

  /** Every item is a non-empty whole number of samples of at most one
      chunk, all but the last exactly one chunk; in order, the items carry
      all the input bytes but a trailing odd one. */
  lemma RechunkPieces(response: seq<seq<byte>>)
    ensures PieceSizes(Rechunk(response))
    ensures Flatten(Rechunk(response)) == EvenPrefix(Flatten(response))
  {
    var split := SplitFrames(Flatten(response), BytesPerChunk);
    RemainderKeepsSamples(split.0, split.1, Flatten(response));
    RemainderSizes(split.0, split.1);
  }

  /** `generate_audio`, with the service's response given as its chunks:
      the items of Rechunk, then the sentinel exactly once. */
  method GenerateAudio(response: seq<seq<byte>>) returns (queue: seq<QueueItem>)
    ensures queue == AudioItems(Rechunk(response)) + [EndOfStream]
  {
    var put, buf := ChunkStream(response);
    var remainder := |buf| - |buf| % SampleWidth;
    if remainder > 0 {
      put := put + [buf[..remainder]];
    }
    queue := AudioItems(put) + [EndOfStream];
  }

  /** The read loop of `generate_audio`: every non-empty chunk is appended
      to the buffer, and full chunks are put while the buffer holds one. The
      chunks put and the buffer left are the framing of the whole stream. */
  method ChunkStream(response: seq<seq<byte>>) returns (put: seq<seq<byte>>, buf: seq<byte>)
    ensures (put, buf) == SplitFrames(Flatten(response), BytesPerChunk)
  {
    buf, put := [], [];
    for i := 0 to |response|
      invariant Flatten(put) + buf == Flatten(response[..i])
      invariant AllSized(put, BytesPerChunk)
      invariant |buf| < BytesPerChunk
    {
      var chunk := response[i];
      assert Flatten(response[..i + 1]) == Flatten(response[..i]) + chunk by {
        assert response[..i + 1] == response[..i] + [chunk];
        FlattenSnoc(response[..i], chunk);
      }
      if chunk == [] {
        continue;
      }
      ghost var before := put;
      AppendAssoc(Flatten(put), buf, chunk);
      buf := buf + chunk;
      ghost var whole := buf;
      put, buf := EmitChunks(put, buf);
      ghost var frames := SplitFrames(whole, BytesPerChunk).0;
      FlattenConcat(before, frames);
      AllSizedConcat(before, frames, BytesPerChunk);
      AppendAssoc(Flatten(before), Flatten(frames), buf);
    }
    assert response[..|response|] == response;
    SplitFramesUnique(Flatten(response), BytesPerChunk, put, buf);
  }

  /** The inner loop of `generate_audio`: put full chunks off the front of
      the buffer while it holds one. */
  method EmitChunks(put0: seq<seq<byte>>, buf0: seq<byte>) returns (put: seq<seq<byte>>, buf: seq<byte>)
    requires AllSized(put0, BytesPerChunk)
    ensures put == put0 + SplitFrames(buf0, BytesPerChunk).0
    ensures buf == SplitFrames(buf0, BytesPerChunk).1
  {
    put, buf := put0, buf0;
    ghost var frames: seq<seq<byte>> := [];
    while |buf| >= BytesPerChunk
      invariant put == put0 + frames
      invariant Flatten(frames) + buf == buf0
      invariant AllSized(frames, BytesPerChunk)
      decreases |buf|
    {
      var out := buf[..BytesPerChunk];
      FlattenSnoc(frames, out);
      assert out + buf[BytesPerChunk..] == buf;
      AppendAssoc(Flatten(frames), out, buf[BytesPerChunk..]);
      put, frames := put + [out], frames + [out];
      buf := buf[BytesPerChunk..];
    }
    SplitFramesUnique(buf0, BytesPerChunk, frames, buf);
  }

  /** What `speak` yields from a queue that `generate_audio` filled on its own:
      exactly its byte items, sentinel excluded. */
  lemma SpeakAfterGenerate(response: seq<seq<byte>>)
    ensures var queue := AudioItems(Rechunk(response)) + [EndOfStream];
      EndOfStream in queue &&
      FirstSentinel(queue) == |queue| - 1 &&
      Payloads(queue[..FirstSentinel(queue)]) == Rechunk(response)
  {
    var items := AudioItems(Rechunk(response));
    FirstSentinelAfterAudio(items, [EndOfStream]);
    assert (items + [EndOfStream])[..|items|] == items;
    PayloadsOfAudioItems(Rechunk(response));
  }

  /** All pieces are non-empty whole numbers of samples of at most one chunk,
      and all but the last are exactly one chunk. */
  predicate PieceSizes(pieces: seq<seq<byte>>)
  {
    (forall i :: 0 <= i < |pieces| ==> 0 < |pieces[i]| <= BytesPerChunk && |pieces[i]| % 2 == 0) &&
    (forall i :: 0 <= i < |pieces| - 1 ==> |pieces[i]| == BytesPerChunk)
  }

  /** The leftover buffer's even part, as the single item put after the loop
      when it is non-empty. */
  function FinalPieces(put: seq<seq<byte>>, buf: seq<byte>): (r: seq<seq<byte>>)
    ensures put <= r
    ensures |r| == |put| + (if |buf| >= 2 then 1 else 0)
    ensures |buf| >= 2 ==> r[|put|] == EvenPrefix(buf)
  {
    var e := |buf| - |buf| % 2;
    if e > 0 then put + [buf[..e]] else put
  }

  /** Putting the even part of the leftover buffer, when non-empty, after the
      full chunks yields all the input but a trailing odd byte. */
  lemma RemainderKeepsSamples(put: seq<seq<byte>>, buf: seq<byte>, total: seq<byte>)
    requires AllSized(put, BytesPerChunk) && |buf| < BytesPerChunk
    requires Flatten(put) + buf == total
    ensures Flatten(FinalPieces(put, buf)) == EvenPrefix(total)
  {
    var e := |buf| - |buf| % 2;
    var f := Flatten(put);
    assert |f| % 2 == 0 by {
      FlattenSizedLength(put, BytesPerChunk);
      EvenMultiple(|put|);
    }
    assert EvenPrefix(total) == total[..|f| + e] by {
      EvenShift(|f|, |buf|);
    }
    if e > 0 {
      FlattenSnoc(put, buf[..e]);
      assert f + buf[..e] == total[..|f| + e];
    } else {
      assert f == total[..|f|];
    }
  }

  lemma EvenShift(a: nat, b: nat)
    requires a % 2 == 0
    ensures (a + b) % 2 == b % 2
  {
  }

  lemma RemainderSizes(put: seq<seq<byte>>, buf: seq<byte>)
    requires AllSized(put, BytesPerChunk) && |buf| < BytesPerChunk
    ensures PieceSizes(FinalPieces(put, buf))
  {
    var pieces := FinalPieces(put, buf);
    assert BytesPerChunk == 2048;
    forall i | 0 <= i < |pieces|
      ensures 0 < |pieces[i]| <= BytesPerChunk && |pieces[i]| % 2 == 0
      ensures i < |pieces| - 1 ==> |pieces[i]| == BytesPerChunk
    {
      if i < |put| {
        assert pieces[i] == put[i];
      }
    }
  }

  lemma EvenMultiple(k: nat)
    ensures k * BytesPerChunk % 2 == 0
  {
    assert BytesPerChunk == 2048;
    assert k * BytesPerChunk == 2 * (k * 1024);
  }

  /** Each chunk as an audio item. */
  function AudioItems(chunks: seq<seq<byte>>): (r: seq<QueueItem>)
    ensures |r| == |chunks| && AllAudio(r)
    ensures forall i :: 0 <= i < |chunks| ==> r[i] == Audio(chunks[i])
  {
    seq(|chunks|, i requires 0 <= i < |chunks| => Audio(chunks[i]))
  }

  lemma PayloadsOfAudioItems(chunks: seq<seq<byte>>)
    ensures Payloads(AudioItems(chunks)) == chunks
  {
  }

  /** Position of the first sentinel on the queue. */
  function FirstSentinel(queue: seq<QueueItem>): (k: nat)
    requires EndOfStream in queue
    ensures k < |queue| && queue[k] == EndOfStream
    ensures AllAudio(queue[..k])
    ensures forall j :: 0 <= j < k ==> queue[j].Audio?
  {
    if queue[0] == EndOfStream then 0
    else
      var k := 1 + FirstSentinel(queue[1..]);
      assert queue[..k] == [queue[0]] + queue[1..][..k - 1];
      k
  }

  /** `speak`: take items off the queue and yield their bytes until the
      first sentinel. Each item taken, the sentinel included, is marked done
      (`task_done`). A queue that never receives a sentinel keeps `speak`
      waiting, so one is required. Returns what is yielded, the number of
      `task_done` calls and what stays queued. */
  method Speak(queue: seq<QueueItem>) returns (yielded: seq<seq<byte>>, taskDone: nat, remaining: seq<QueueItem>)
    requires EndOfStream in queue
    ensures yielded == Payloads(queue[..FirstSentinel(queue)])
    ensures taskDone == FirstSentinel(queue) + 1
    ensures remaining == queue[taskDone..]
  {
    yielded, taskDone := [], 0;
    ghost var k := FirstSentinel(queue);
    while true
      invariant taskDone <= k
      invariant AllAudio(queue[..taskDone])
      invariant yielded == Payloads(queue[..taskDone])
      decreases k - taskDone
    {
      var item := queue[taskDone];
      if item == EndOfStream {
        assert taskDone == k;
        taskDone := taskDone + 1;
        break;
      }
      assert queue[..taskDone + 1] == queue[..taskDone] + [item];
      PayloadsSnoc(queue[..taskDone], item);
      yielded := yielded + [item.pcm];
      taskDone := taskDone + 1;
    }
    remaining := queue[taskDone..];
  }

  /** After a queue holding no sentinel, the first sentinel is the first one
      of what comes next. */
  lemma {:induction false} FirstSentinelAfterAudio(before: seq<QueueItem>, after: seq<QueueItem>)
    requires AllAudio(before) && EndOfStream in after
    ensures EndOfStream in before + after
    ensures FirstSentinel(before + after) == |before| + FirstSentinel(after)
    decreases |before|
  {
    var k := FirstSentinel(after);
    assert (before + after)[|before| + k] == EndOfStream;
    if before != [] {
      assert (before + after)[1..] == before[1..] + after;
      FirstSentinelAfterAudio(before[1..], after);
    } else {
      assert before + after == after;
    }
  }
}
