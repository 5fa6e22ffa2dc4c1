/** The shaping that the vector store wrapper applies around its client: the
    points `upsert` sends are the index-wise pairing of ids, vectors and
    payloads; `search` keeps the non-empty texts of the points the client
    returns, in order, and the set of their sources. The client's query is
    an input (the scored points it returned, best first). */
module VectorDb {
  import opened Chunking

  /** A point's payload as the client returns it: JSON null (None) or a
      JSON object whose values are JSON strings or null (None). */
  type Payload = map<string, Option<string>>

  datatype ScoredPoint = ScoredPoint(payload: Option<Payload>)

  /** `r.payload or {}`: a missing payload reads as the empty object. */
  function PayloadOf(p: ScoredPoint): Payload
  {
    if p.payload.Some? then p.payload.value else map[]
  }

  /** `payload.get(key, "")`. */
  function Get(payload: Payload, key: string): Option<string>
  {
    if key in payload then payload[key] else Some("")
  }

  /** `if text:` — a JSON string is kept when non-empty; null never is. */
  predicate Kept(p: ScoredPoint)
    // a point is kept exactly when its payload holds a non-empty `text` string
    ensures Kept(p) <==> p.payload.Some? && "text" in p.payload.value &&
                         p.payload.value["text"].Some? && p.payload.value["text"].value != ""
  {
    var t := Get(PayloadOf(p), "text");
    t.Some? && t.value != ""
  }

  function TextOf(p: ScoredPoint): string
    requires Kept(p)
  {
    Get(PayloadOf(p), "text").value
  }

  function SourceOf(p: ScoredPoint): Option<string>
  {
    Get(PayloadOf(p), "source")
  }

  /** The contexts of a search: the kept texts, in result order. */
  function Contexts(points: seq<ScoredPoint>): (r: seq<string>)
    ensures |r| <= |points|
    ensures forall i :: 0 <= i < |r| ==> r[i] != ""
  {
    if points == [] then []
    else
      var last := points[|points| - 1];
      Contexts(points[..|points| - 1]) + (if Kept(last) then [TextOf(last)] else [])
  }

  /** The sources of a search: the source of every kept point (`""` when absent). */
  function Sources(points: seq<ScoredPoint>): (r: set<Option<string>>)
    ensures forall i :: 0 <= i < |points| && Kept(points[i]) ==> SourceOf(points[i]) in r
    ensures (forall i :: 0 <= i < |points| ==> !Kept(points[i])) ==> r == {}
    // a kept point without `source` contributes the empty string
    ensures forall i :: 0 <= i < |points| && Kept(points[i]) && "source" !in PayloadOf(points[i]) ==> Some("") in r
  {
    set i | 0 <= i < |points| && Kept(points[i]) :: SourceOf(points[i])
  }

  /** A text is a context exactly when some kept point carries it. */
  lemma {:induction false} ContextsMembership(points: seq<ScoredPoint>, t: string)
    ensures t in Contexts(points) <==> exists i :: 0 <= i < |points| && Kept(points[i]) && TextOf(points[i]) == t
    decreases |points|
  {
    if points != [] {
      var init, last := points[..|points| - 1], points[|points| - 1];
      ContextsMembership(init, t);
      assert t in Contexts(points) <==> t in Contexts(init) || (Kept(last) && TextOf(last) == t);
      if i :| 0 <= i < |init| && Kept(init[i]) && TextOf(init[i]) == t {
        assert points[i] == init[i];
      }
      if i :| 0 <= i < |points| && Kept(points[i]) && TextOf(points[i]) == t {
        if i < |init| {
          assert init[i] == points[i];
        }
      }
    }
  }

  /** Order: the contexts of two runs of results, one after the other, are
      the contexts of the first run followed by those of the second. */
  lemma {:induction false} ContextsConcat(a: seq<ScoredPoint>, b: seq<ScoredPoint>)
    ensures Contexts(a + b) == Contexts(a) + Contexts(b)
    decreases |b|
  {
    if b == [] {
      assert a + b == a;
    } else {
      var b' := b[..|b| - 1];
      assert (a + b)[..|a + b| - 1] == a + b';
      ContextsConcat(a, b');
    }
  }

  /** A point without payload, or whose text is missing, null or empty,
      contributes to neither the contexts nor the sources. */
  lemma DroppedPointContributesNothing(a: seq<ScoredPoint>, p: ScoredPoint, b: seq<ScoredPoint>)
    requires !Kept(p)
    ensures Contexts(a + [p] + b) == Contexts(a + b)
    ensures Sources(a + [p] + b) == Sources(a + b)
  {
    assert Contexts(a + [p]) == Contexts(a) by {
      assert (a + [p])[..|a|] == a;
    }
    ContextsConcat(a + [p], b);
    ContextsConcat(a, b);
    assert Sources(a + [p]) == Sources(a) by {
      SourcesSnoc(a, p);
    }
    SourcesConcat(a + [p], b);
    SourcesConcat(a, b);
  }

  /** The sources of two runs of results are the union of their sources. */
  lemma {:induction false} SourcesConcat(a: seq<ScoredPoint>, b: seq<ScoredPoint>)
    ensures Sources(a + b) == Sources(a) + Sources(b)
    decreases |b|
  {
    if b == [] {
      assert a + b == a;
      assert Sources(b) == {};
    } else {
      var b', x := b[..|b| - 1], b[|b| - 1];
      assert a + b == (a + b') + [x];
      assert b == b' + [x];
      SourcesConcat(a, b');
      SourcesSnoc(a + b', x);
      SourcesSnoc(b', x);
    }
  }

  predicate NoDuplicates<T(==)>(s: seq<T>)
  {
    forall i, j :: 0 <= i < j < |s| ==> s[i] != s[j]
  }

  /** `list(sources)`: the elements of a set, each once, in an order the
      set does not fix. */
  method ListOf<T(==)>(s: set<T>) returns (r: seq<T>)
    ensures NoDuplicates(r)
    ensures forall x :: x in r <==> x in s
  {
    r := [];
    var rest := s;
    while rest != {}
      invariant rest !! set x | x in r
      invariant forall x :: x in s <==> x in r || x in rest
      invariant NoDuplicates(r)
      decreases rest
    {
      var x :| x in rest;
      r := r + [x];
      rest := rest - {x};
    }
  }

  /** The post-processing loop of `search` over the points the client
      returned: `contexts` in order, `sources` without duplicates. */
  method Search(points: seq<ScoredPoint>) returns (contexts: seq<string>, sources: seq<Option<string>>)
    ensures contexts == Contexts(points)
    ensures NoDuplicates(sources)
    ensures forall x :: x in sources <==> x in Sources(points)
  {
    contexts := [];
    var found: set<Option<string>> := {};
    for i := 0 to |points|
      invariant contexts == Contexts(points[..i])
      invariant found == Sources(points[..i])
    {
      var p := points[i];
      assert points[..i + 1][..i] == points[..i];
      var payload := if p.payload.Some? then p.payload.value else map[];
      var text := if "text" in payload then payload["text"] else Some("");
      var source := if "source" in payload then payload["source"] else Some("");
      if text.Some? && text.value != "" {
        contexts := contexts + [text.value];
        found := found + {source};
      }
      SourcesSnoc(points[..i], p);
      assert points[..i] + [p] == points[..i + 1];
    }
    assert points[..|points|] == points;
    sources := ListOf(found);
  }

  lemma SourcesSnoc(points: seq<ScoredPoint>, p: ScoredPoint)
    ensures Sources(points + [p]) == Sources(points) + (if Kept(p) then {SourceOf(p)} else {})
  {
    var s := points + [p];
    forall x | x in Sources(s) ensures x in Sources(points) + (if Kept(p) then {SourceOf(p)} else {}) {
      var i :| 0 <= i < |s| && Kept(s[i]) && SourceOf(s[i]) == x;
      if i < |points| { assert points[i] == s[i]; }
    }
    forall x | x in Sources(points) ensures x in Sources(s) {
      var i :| 0 <= i < |points| && Kept(points[i]) && SourceOf(points[i]) == x;
      assert s[i] == points[i];
    }
    if Kept(p) {
      assert s[|points|] == p;
    }
  }

  /** A point as `upsert` hands it to the client. */
  datatype Point<I, V, P> = Point(id: I, vector: V, payload: P)

  datatype Result<T> = Ok(value: T) | IndexError

  /** The comprehension of `upsert`: one point per index of `ids`; an
      `IndexError` when `vectors` or `payloads` is shorter than `ids`. */
  function BuildPoints<I, V, P>(ids: seq<I>, vectors: seq<V>, payloads: seq<P>): (r: Result<seq<Point<I, V, P>>>)
    ensures r.Ok? <==> |ids| <= |vectors| && |ids| <= |payloads|
    ensures r.Ok? ==> |r.value| == |ids|
    ensures r.Ok? ==> forall i :: 0 <= i < |ids| ==> r.value[i] == Point(ids[i], vectors[i], payloads[i])
  {
    if |vectors| < |ids| || |payloads| < |ids| then IndexError
    else Ok(seq(|ids|, i requires 0 <= i < |ids| => Point(ids[i], vectors[i], payloads[i])))
  }

  function Ids<I, V, P>(points: seq<Point<I, V, P>>): (r: seq<I>)
    ensures |r| == |points| && forall i :: 0 <= i < |points| ==> r[i] == points[i].id
  {
    seq(|points|, i requires 0 <= i < |points| => points[i].id)
  }

  function Vectors<I, V, P>(points: seq<Point<I, V, P>>): (r: seq<V>)
    ensures |r| == |points| && forall i :: 0 <= i < |points| ==> r[i] == points[i].vector
  {
    seq(|points|, i requires 0 <= i < |points| => points[i].vector)
  }

  function PayloadsOf<I, V, P>(points: seq<Point<I, V, P>>): (r: seq<P>)
    ensures |r| == |points| && forall i :: 0 <= i < |points| ==> r[i] == points[i].payload
  {
    seq(|points|, i requires 0 <= i < |points| => points[i].payload)
  }

  /** Unzipping the points gives back the ids and the prefixes of the vectors
      and payloads that were paired with them: extra vectors or payloads are
      ignored. */
  lemma BuildPointsUnzip<I, V, P>(ids: seq<I>, vectors: seq<V>, payloads: seq<P>)
    requires |ids| <= |vectors| && |ids| <= |payloads|
    ensures var pts := BuildPoints(ids, vectors, payloads).value;
      Ids(pts) == ids && Vectors(pts) == vectors[..|ids|] && PayloadsOf(pts) == payloads[..|ids|]
  {
  }
}
