/** Segment index lists: the id-only list that `buildThreeJsData` gives the
    line geometry (index.js:548-590) and the altitude-filtered list of
    `getVolsMatches` (index.js:152-166). Both are flat lists
    `[i, i + 1, j, j + 1, ...]`: each pair joins two adjacent records. */
module Segments {
  import opened Wrappers
  import opened Utilities
  import opened Flights

  /** The fixed altitude range the slider values are normalized against. */
  const MaxAltitude: real := 16500.0

  /** Number of iterations of `for (i = 0; i < vols.length - 1; i++)`. */
  function Steps(vols: seq<Vol>): nat
  {
    if |vols| == 0 then 0 else |vols| - 1
  }

  /** Record `i` and record `i + 1` form a drawable segment. */
  predicate Joined(vols: seq<Vol>, i: nat)
    requires i + 1 < |vols|
  {
    SameTrajectory(vols[i], vols[i + 1])
  }

  /** A normalized altitude inside the band built from the two slider values
      `normalize(altitude, 16500, 0) - 0.5`, both ends included. NaN is in no
      band. */
  predicate InBand(z: Option<real>, altitude1: real, altitude2: real)
  {
    z.Some? && Normalize(altitude1, MaxAltitude, 0.0) - 0.5 <= z.value <= Normalize(altitude2, MaxAltitude, 0.0) - 0.5
  }

  /** The condition `getVolsMatches` tests for the pair `(i, i + 1)`. */
  predicate Matches(vols: seq<Vol>, i: nat, altitude1: real, altitude2: real)
    requires i + 1 < |vols|
  {
    Joined(vols, i) && InBand(vols[i].normalizedZ, altitude1, altitude2) && InBand(vols[i + 1].normalizedZ, altitude1, altitude2)
  }

  /** The starts `i` of the pairs the line-geometry loop emits in its first
      `n` iterations. */
  function SegmentStarts(vols: seq<Vol>, n: nat): seq<nat>
    requires n <= Steps(vols)
  {
    if n == 0 then [] else SegmentStarts(vols, n - 1) + (if Joined(vols, n - 1) then [n - 1] else [])
  }

  /** The starts `i` of the pairs `getVolsMatches` emits in its first `n`
      iterations. */
  function MatchStarts(vols: seq<Vol>, altitude1: real, altitude2: real, n: nat): seq<nat>
    requires n <= Steps(vols)
  {
    if n == 0 then []
    else MatchStarts(vols, altitude1, altitude2, n - 1) + (if Matches(vols, n - 1, altitude1, altitude2) then [n - 1] else [])
  }

  /** Each start `i` written out as the pair `i, i + 1`. */
  function Flatten(starts: seq<nat>): seq<nat>
  {
    if starts == [] then [] else Flatten(starts[..|starts| - 1]) + [starts[|starts| - 1], starts[|starts| - 1] + 1]
  }

  /** The position buffer of a list of records: three normalized coordinates
      per record. */
  function Vertices(vs: seq<Vol>): seq<Option<real>>
  {
    if vs == [] then [] else Vertices(vs[..|vs| - 1]) + [vs[|vs| - 1].normalizedX, vs[|vs| - 1].normalizedY, vs[|vs| - 1].normalizedZ]
  }

  predicate Increasing(s: seq<nat>)
  {
    forall a, b :: 0 <= a < b < |s| ==> s[a] < s[b]
  }

  /** `a` can be obtained from `b` by deleting elements. */
  predicate IsSubsequence(a: seq<nat>, b: seq<nat>)
    decreases |b|
  {
    if a == [] then true
    else if b == [] then false
    else if a[|a| - 1] == b[|b| - 1] then IsSubsequence(a[..|a| - 1], b[..|b| - 1])
    else IsSubsequence(a, b[..|b| - 1])
  }

  /** A flattened list has even length and holds the pair `(s[k], s[k] + 1)`
      at positions `2k, 2k + 1`. */
  lemma {:induction false} FlattenPairs(s: seq<nat>)
    ensures |Flatten(s)| == 2 * |s|
    ensures forall k :: 0 <= k < |s| ==> Flatten(s)[2 * k] == s[k] && Flatten(s)[2 * k + 1] == s[k] + 1
  {
    if s != [] {
      var p := s[..|s| - 1];
      FlattenPairs(p);
      forall k | 0 <= k < |s|
        ensures Flatten(s)[2 * k] == s[k] && Flatten(s)[2 * k + 1] == s[k] + 1
      {
        if k < |p| {
          assert s[k] == p[k];
        }
      }
    }
  }

  /** The line-geometry starts are increasing, below `n`, and are exactly the
      `i < n` whose records share a trajectory. */
  lemma {:induction false} SegmentStartsExact(vols: seq<Vol>, n: nat)
    requires n <= Steps(vols)
    ensures Increasing(SegmentStarts(vols, n))
    ensures forall k :: 0 <= k < |SegmentStarts(vols, n)| ==> SegmentStarts(vols, n)[k] < n
    ensures forall i :: 0 <= i < n ==> (i in SegmentStarts(vols, n) <==> Joined(vols, i))
    ensures forall i :: i in SegmentStarts(vols, n) ==> i < n
  {
    if n > 0 {
      var p := SegmentStarts(vols, n - 1);
      SegmentStartsExact(vols, n - 1);
      if Joined(vols, n - 1) {
        assert SegmentStarts(vols, n) == p + [n - 1];
      } else {
        assert SegmentStarts(vols, n) == p;
      }
    }
  }

  /** The `getVolsMatches` starts are increasing, below `n`, and are exactly
      the `i < n` whose records share a trajectory and both lie in the
      altitude band. */
  lemma {:induction false} MatchStartsExact(vols: seq<Vol>, altitude1: real, altitude2: real, n: nat)
    requires n <= Steps(vols)
    ensures Increasing(MatchStarts(vols, altitude1, altitude2, n))
    ensures forall k :: 0 <= k < |MatchStarts(vols, altitude1, altitude2, n)| ==> MatchStarts(vols, altitude1, altitude2, n)[k] < n
    ensures forall i :: 0 <= i < n ==> (i in MatchStarts(vols, altitude1, altitude2, n) <==> Matches(vols, i, altitude1, altitude2))
    ensures forall i :: i in MatchStarts(vols, altitude1, altitude2, n) ==> i < n
  {
    if n > 0 {
      var p := MatchStarts(vols, altitude1, altitude2, n - 1);
      MatchStartsExact(vols, altitude1, altitude2, n - 1);
      if Matches(vols, n - 1, altitude1, altitude2) {
        assert MatchStarts(vols, altitude1, altitude2, n) == p + [n - 1];
      } else {
        assert MatchStarts(vols, altitude1, altitude2, n) == p;
      }
    }
  }

  /** What `getVolsMatches` returns, in terms of its inputs: an even-length
      list of pairs `(i, i + 1)`, strictly increasing in `i`, with
      `i < vols.length - 1`, holding a pair exactly when both records share a
      trajectory and both normalized altitudes lie in the band. */
  lemma MatchesCharacterized(vols: seq<Vol>, altitude1: real, altitude2: real)
    ensures var s := MatchStarts(vols, altitude1, altitude2, Steps(vols));
      var r := Flatten(s);
      && |r| == 2 * |s|
      && (forall k :: 0 <= k < |s| ==> r[2 * k] == s[k] && r[2 * k + 1] == s[k] + 1 && s[k] + 1 < |vols|)
      && (forall a, b :: 0 <= a < b < |s| ==> s[a] < s[b])
      && (forall i :: 0 <= i && i + 1 < |vols| ==> (i in s <==> Matches(vols, i, altitude1, altitude2)))
  {
    var s := MatchStarts(vols, altitude1, altitude2, Steps(vols));
    FlattenPairs(s);
    MatchStartsExact(vols, altitude1, altitude2, Steps(vols));
  }

  /** The altitude-filtered starts are a subsequence of the id-only starts. */
  lemma {:induction false} MatchesWithinSegments(vols: seq<Vol>, altitude1: real, altitude2: real, n: nat)
    requires n <= Steps(vols)
    ensures IsSubsequence(MatchStarts(vols, altitude1, altitude2, n), SegmentStarts(vols, n))
  {
    if n > 0 {
      var a := MatchStarts(vols, altitude1, altitude2, n - 1);
      var b := SegmentStarts(vols, n - 1);
      MatchesWithinSegments(vols, altitude1, altitude2, n - 1);
      if Matches(vols, n - 1, altitude1, altitude2) {
        assert MatchStarts(vols, altitude1, altitude2, n) == a + [n - 1];
        assert SegmentStarts(vols, n) == b + [n - 1];
        SubsequenceExtendBoth(a, b, n - 1);
      } else if Joined(vols, n - 1) {
        assert MatchStarts(vols, altitude1, altitude2, n) == a;
        assert SegmentStarts(vols, n) == b + [n - 1];
        MatchStartsBelow(vols, altitude1, altitude2, n - 1);
        SubsequenceExtendRight(a, b, n - 1);
      } else {
        assert MatchStarts(vols, altitude1, altitude2, n) == a;
        assert SegmentStarts(vols, n) == b;
      }
    }
  }

  lemma {:induction false} MatchStartsBelow(vols: seq<Vol>, altitude1: real, altitude2: real, n: nat)
    requires n <= Steps(vols)
    ensures forall k :: 0 <= k < |MatchStarts(vols, altitude1, altitude2, n)| ==> MatchStarts(vols, altitude1, altitude2, n)[k] < n
  {
    if n > 0 {
      MatchStartsBelow(vols, altitude1, altitude2, n - 1);
    }
  }

  lemma SubsequenceExtendBoth(a: seq<nat>, b: seq<nat>, x: nat)
    requires IsSubsequence(a, b)
    ensures IsSubsequence(a + [x], b + [x])
  {
    assert (a + [x])[..|a|] == a && (b + [x])[..|b|] == b;
  }

  lemma SubsequenceExtendRight(a: seq<nat>, b: seq<nat>, x: nat)
    requires IsSubsequence(a, b) && (a == [] || a[|a| - 1] != x)
    ensures IsSubsequence(a, b + [x])
  {
    assert (b + [x])[..|b|] == b;
  }

  lemma FlattenSnoc(s: seq<nat>, x: nat)
    ensures Flatten(s + [x]) == Flatten(s) + [x, x + 1]
  {
    assert (s + [x])[..|s|] == s;
  }

  /** `getVolsMatches(vols, altitude1, altitude2)`. */
  method GetVolsMatches(vols: seq<Vol>, altitude1: real, altitude2: real) returns (indices: seq<nat>)
    ensures indices == Flatten(MatchStarts(vols, altitude1, altitude2, Steps(vols)))
  {
    indices := [];
    var altitude1Normalized := Normalize(altitude1, MaxAltitude, 0.0);
    var altitude2Normalized := Normalize(altitude2, MaxAltitude, 0.0);
    var i := 0;
    while i < |vols| - 1
      invariant i <= Steps(vols)
      invariant indices == Flatten(MatchStarts(vols, altitude1, altitude2, i))
    {
      var current := vols[i];
      var next := vols[i + 1];
      var keep := current.id1.Some? && current.id1 == next.id1
        && (current.normalizedZ.Some? && current.normalizedZ.value >= altitude1Normalized - 0.5 && current.normalizedZ.value <= altitude2Normalized - 0.5)
        && (next.normalizedZ.Some? && next.normalizedZ.value >= altitude1Normalized - 0.5 && next.normalizedZ.value <= altitude2Normalized - 0.5);
      MatchStep(vols, altitude1, altitude2, i);
      if keep {
        indices := indices + [i, i + 1];
      }
      i := i + 1;
    }
  }

  /** One iteration of the `getVolsMatches` loop. */
  lemma MatchStep(vols: seq<Vol>, altitude1: real, altitude2: real, i: nat)
    requires i < Steps(vols)
    ensures Flatten(MatchStarts(vols, altitude1, altitude2, i + 1)) ==
      Flatten(MatchStarts(vols, altitude1, altitude2, i)) + (if Matches(vols, i, altitude1, altitude2) then [i, i + 1] else [])
  {
    var m := MatchStarts(vols, altitude1, altitude2, i);
    if Matches(vols, i, altitude1, altitude2) {
      FlattenSnoc(m, i);
    } else {
      assert MatchStarts(vols, altitude1, altitude2, i + 1) == m;
    }
  }

  /** The index and position loop of `buildThreeJsData`: a pair `(i, i + 1)`
      for each two adjacent records of one trajectory, and the normalized
      position of every record the loop visits, that is all but the last. */
  method BuildLineData(vols: seq<Vol>) returns (indices: seq<nat>, positions: seq<Option<real>>)
    ensures indices == Flatten(SegmentStarts(vols, Steps(vols)))
    ensures positions == Vertices(vols[..Steps(vols)])
  {
    indices, positions := [], [];
    var i := 0;
    while i < |vols| - 1
      invariant i <= Steps(vols)
      invariant indices == Flatten(SegmentStarts(vols, i))
      invariant positions == Vertices(vols[..i])
    {
      var current := vols[i];
      var next := vols[i + 1];
      SegmentStep(vols, i);
      if current.id1.Some? && current.id1 == next.id1 {
        indices := indices + [i, i + 1];
      }
      VerticesStep(vols, i);
      positions := positions + [current.normalizedX, current.normalizedY, current.normalizedZ];
      i := i + 1;
    }
  }

  /** One iteration of the `buildThreeJsData` index loop. */
  lemma SegmentStep(vols: seq<Vol>, i: nat)
    requires i < Steps(vols)
    ensures Flatten(SegmentStarts(vols, i + 1)) ==
      Flatten(SegmentStarts(vols, i)) + (if Joined(vols, i) then [i, i + 1] else [])
  {
    var s := SegmentStarts(vols, i);
    if Joined(vols, i) {
      FlattenSnoc(s, i);
    } else {
      assert SegmentStarts(vols, i + 1) == s;
    }
  }

  /** One iteration of the `buildThreeJsData` position loop. */
  lemma VerticesStep(vols: seq<Vol>, i: nat)
    requires i < |vols|
    ensures Vertices(vols[..i + 1]) == Vertices(vols[..i]) + [vols[i].normalizedX, vols[i].normalizedY, vols[i].normalizedZ]
  {
    assert vols[..i + 1][..i] == vols[..i];
  }

  lemma {:induction false} VerticesLength(vs: seq<Vol>)
    ensures |Vertices(vs)| == 3 * |vs|
  {
    if vs != [] {
      VerticesLength(vs[..|vs| - 1]);
    }
  }

  /** As written, the line loop stores positions for the first
      `vols.length - 1` records only, yet whenever the last two records share
      a trajectory it emits index `vols.length - 1`, which names a vertex that
      is not in the buffer. */
  lemma LastSegmentVertexMissing(vols: seq<Vol>)
    requires |vols| >= 2 && Joined(vols, |vols| - 2)
    ensures |vols| - 1 in Flatten(SegmentStarts(vols, Steps(vols)))
    ensures |Vertices(vols[..Steps(vols)])| == 3 * (|vols| - 1)
  {
    var s := SegmentStarts(vols, Steps(vols));
    SegmentStartsExact(vols, Steps(vols));
    FlattenPairs(s);
    var k :| 0 <= k < |s| && s[k] == |vols| - 2;
    assert Flatten(s)[2 * k + 1] == |vols| - 1;
    VerticesLength(vols[..Steps(vols)]);
  }

  /** With one vertex per record, as the point geometry of
      `buildThreeJsDataPoints` has, every index of the id-only list and of every
      altitude-filtered list names an existing vertex. */
  lemma SegmentsWithinVertices(vols: seq<Vol>, altitude1: real, altitude2: real)
    ensures forall j :: j in Flatten(SegmentStarts(vols, Steps(vols))) ==> 3 * j + 2 < |Vertices(vols)|
    ensures forall j :: j in Flatten(MatchStarts(vols, altitude1, altitude2, Steps(vols))) ==> 3 * j + 2 < |Vertices(vols)|
  {
    VerticesLength(vols);
    var s := SegmentStarts(vols, Steps(vols));
    var m := MatchStarts(vols, altitude1, altitude2, Steps(vols));
    SegmentStartsExact(vols, Steps(vols));
    MatchStartsExact(vols, altitude1, altitude2, Steps(vols));
    FlattenBelow(s, Steps(vols));
    FlattenBelow(m, Steps(vols));
  }

  /** Flattening starts below `n` gives indices no greater than `n`. */
  lemma FlattenBelow(s: seq<nat>, n: nat)
    requires forall k :: 0 <= k < |s| ==> s[k] < n
    ensures forall j :: j in Flatten(s) ==> j <= n
  {
    FlattenPairs(s);
    forall j | j in Flatten(s) ensures j <= n {
      var p :| 0 <= p < |Flatten(s)| && Flatten(s)[p] == j;
      var k := p / 2;
      assert p == 2 * k || p == 2 * k + 1;
    }
  }
}
