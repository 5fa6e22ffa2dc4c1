/** Byte sequences, their concatenation, and the "slice fixed-size pieces off the
    front of a buffer" loop that the converter, the speech producer and the
    telephony bridge all run (`while len(buf) >= N: emit buf[:N]; del buf[:N]`). */
module Chunking {

  newtype byte = x: int | 0 <= x < 256

  datatype Option<T> = None | Some(value: T)

  /** Concatenation of a sequence of chunks, in order. */
  function Flatten<T>(chunks: seq<seq<T>>): seq<T>
  {
    if chunks == [] then [] else Flatten(chunks[..|chunks| - 1]) + chunks[|chunks| - 1]
  }

  lemma {:induction false} FlattenConcat<T>(a: seq<seq<T>>, b: seq<seq<T>>)
    ensures Flatten(a + b) == Flatten(a) + Flatten(b)
    decreases |b|
  {
    if b == [] {
      assert a + b == a;
    } else {
      var b' := b[..|b| - 1];
      assert (a + b)[..|a + b| - 1] == a + b';
      FlattenConcat(a, b');
    }
  }

  lemma FlattenSnoc<T>(xs: seq<seq<T>>, x: seq<T>)
    ensures Flatten(xs + [x]) == Flatten(xs) + x
  {
    assert (xs + [x])[..|xs|] == xs;
  }

  lemma FlattenCons<T>(x: seq<T>, xs: seq<seq<T>>)
    ensures Flatten([x] + xs) == x + Flatten(xs)
  {
    FlattenConcat([x], xs);
    assert Flatten([x]) == Flatten([]) + x;
  }

  lemma AppendAssoc<T>(a: seq<T>, b: seq<T>, c: seq<T>)
    ensures (a + b) + c == a + (b + c)
  {
  }

  /** Every chunk is exactly `n` long. */
  predicate AllSized<T>(chunks: seq<seq<T>>, n: nat)
  {
    forall i :: 0 <= i < |chunks| ==> |chunks[i]| == n
  }

  lemma AllSizedConcat<T>(a: seq<seq<T>>, b: seq<seq<T>>, n: nat)
    requires AllSized(a, n) && AllSized(b, n)
    ensures AllSized(a + b, n)
  {
    forall i | 0 <= i < |a + b| ensures |(a + b)[i]| == n {
      if i >= |a| { assert (a + b)[i] == b[i - |a|]; }
    }
  }

  lemma {:induction false} FlattenSizedLength<T>(chunks: seq<seq<T>>, n: nat)
    requires AllSized(chunks, n)
    ensures |Flatten(chunks)| == |chunks| * n
    decreases |chunks|
  {
    if chunks != [] {
      var init := chunks[..|chunks| - 1];
      FlattenSizedLength(init, n);
      assert |Flatten(chunks)| == |Flatten(init)| + n;
      MulSucc(|init|, n);
    }
  }

  lemma MulSucc(k: nat, n: nat)
    ensures k * n + n == (k + 1) * n
  {
  }

  /** Slices `n`-element frames off the front of `s` while at least `n`
      elements remain; returns the frames and what is left over. */
  function SplitFrames<T>(s: seq<T>, n: nat): (r: (seq<seq<T>>, seq<T>))
    requires n > 0
    ensures AllSized(r.0, n)
    ensures |r.1| < n
    ensures Flatten(r.0) + r.1 == s
    decreases |s|
  {
    if |s| < n then ([], s)
    else
      var head, tail := s[..n], SplitFrames(s[n..], n);
      FlattenCons(head, tail.0);
      AllSizedConcat([head], tail.0, n);
      assert head + s[n..] == s;
      AppendAssoc(head, Flatten(tail.0), tail.1);
      ([head] + tail.0, tail.1)
  }

  /** The three properties of SplitFrames determine its result: any framing
      into `n`-sized pieces with a leftover shorter than `n` is that one. */
  lemma {:induction false} SplitFramesUnique<T>(s: seq<T>, n: nat, frames: seq<seq<T>>, rest: seq<T>)
    requires n > 0
    requires AllSized(frames, n) && |rest| < n
    requires Flatten(frames) + rest == s
    ensures SplitFrames(s, n) == (frames, rest)
    decreases |frames|
  {
    if frames == [] {
      assert s == rest;
    } else {
      var f, fs := frames[0], frames[1..];
      assert frames == [f] + fs;
      FlattenCons(f, fs);
      assert s == f + (Flatten(fs) + rest);
      assert |f| == n;
      assert s[..n] == f;
      assert s[n..] == Flatten(fs) + rest;
      SplitFramesUnique(s[n..], n, fs, rest);
    }
  }

  /** SplitFrames emits exactly `|s| / n` frames and leaves `|s| % n` elements. */
  lemma SplitFramesCount<T>(s: seq<T>, n: nat)
    requires n > 0
    ensures |SplitFrames(s, n).0| == |s| / n
    ensures |SplitFrames(s, n).1| == |s| % n
  {
    var r := SplitFrames(s, n);
    FlattenSizedLength(r.0, n);
    DivModUnique(|s|, n, |r.0|, |r.1|);
  }

  lemma DivModUnique(a: nat, n: nat, q: nat, m: nat)
    requires n > 0 && m < n && a == q * n + m
    ensures q == a / n && m == a % n
  {
    var q', m' := a / n, a % n;
    assert (q - q') * n == m' - m;
    SmallMultipleIsZero(q - q', n);
  }

  lemma SmallMultipleIsZero(d: int, n: int)
    requires n > 0 && 0 - n < d * n < n
    ensures d == 0
  {
  }

  /** The frames of `s` are its longest prefix whose length is a multiple of `n`. */
  lemma SplitFramesPrefix<T>(s: seq<T>, n: nat)
    requires n > 0
    ensures Flatten(SplitFrames(s, n).0) == s[..|s| - |s| % n]
  {
    SplitFramesCount(s, n);
    var r := SplitFrames(s, n);
    assert s == Flatten(r.0) + r.1;
  }

  /** `k` copies of `x` (Python's `bytes * k`). */
  function Repeat<T>(x: T, k: nat): (r: seq<T>)
    ensures |r| == k
    ensures forall i :: 0 <= i < k ==> r[i] == x
  {
    if k == 0 then [] else Repeat(x, k - 1) + [x]
  }
}
