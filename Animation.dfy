/** The per-frame particle update of `animate` (index.js:286-340) and the
    point buffer it updates, which `buildThreeJsDataPoints` fills with one
    normalized position per record (index.js:600-637). */
module Animation {
  import opened Wrappers
  import opened Utilities
  import opened Flights
  import opened Segments

  /** `(time + id1) % 100 === 0`: the sum is a whole multiple of 100. A NaN
      id is never a keyframe. */
  predicate IsKeyframe(time: nat, id: Option<real>)
  {
    id.Some? && var s := time as real + id.value; s == s.Floor as real && s.Floor % 100 == 0
  }

  /** `(b - a) / 100 * (time % 100) + a`; NaN when either end is NaN. */
  function Lerp(a: Option<real>, b: Option<real>, time: nat): Option<real>
  {
    if a.Some? && b.Some? then Some((b.value - a.value) / 100.0 * ((time % 100) as real) + a.value) else None
  }

  /** A position, one possibly-NaN coordinate per axis. */
  datatype Point = Point(x: Option<real>, y: Option<real>, z: Option<real>)

  /** The raw position particle `i` takes at frame `time`: the record itself
      on a keyframe, a point on the segment towards the next record of the
      same trajectory otherwise, and `undefined` (NaN) at the end of a
      trajectory. */
  function RawPosition(vols: seq<Vol>, time: nat, i: nat): (p: Point)
    requires i + 1 < |vols|
    ensures IsKeyframe(time, vols[i].id1) ==> p == Point(vols[i].x, vols[i].y, vols[i].z)
    ensures !IsKeyframe(time, vols[i].id1) && SameTrajectory(vols[i + 1], vols[i]) ==>
      && OnSegment(vols[i].x, vols[i + 1].x, p.x)
      && OnSegment(vols[i].y, vols[i + 1].y, p.y)
      && OnSegment(vols[i].z, vols[i + 1].z, p.z)
    ensures !IsKeyframe(time, vols[i].id1) && !SameTrajectory(vols[i + 1], vols[i]) ==> p == Point(None, None, None)
  {
    var current, next := vols[i], vols[i + 1];
    if IsKeyframe(time, current.id1) then Point(current.x, current.y, current.z)
    else if SameTrajectory(next, current) then
      LerpStaysOnSegment(current.x, next.x, time);
      LerpStaysOnSegment(current.y, next.y, time);
      LerpStaysOnSegment(current.z, next.z, time);
      Point(Lerp(current.x, next.x, time), Lerp(current.y, next.y, time), Lerp(current.z, next.z, time))
    else Point(None, None, None)
  }

  /** When both ends are numbers, `p` is a number between them. */
  predicate OnSegment(a: Option<real>, b: Option<real>, p: Option<real>)
  {
    a.Some? && b.Some? ==> p.Some? && Between(a.value, b.value, p.value)
  }

  lemma LerpStaysOnSegment(a: Option<real>, b: Option<real>, time: nat)
    ensures OnSegment(a, b, Lerp(a, b, time))
  {
    if a.Some? && b.Some? {
      LerpOnSegment(a.value, b.value, time);
    }
  }

  /** The raw position re-normalized with the global bounds. */
  function FramePoint(vols: seq<Vol>, b: Bounds, time: nat, i: nat): (p: Point)
    requires i + 1 < |vols|
    ensures var raw := RawPosition(vols, time, i);
      && Renormalized(raw.x, p.x, b.minX, b.maxX)
      && Renormalized(raw.y, p.y, b.minY, b.maxY)
      && Renormalized(raw.z, p.z, b.minZ, b.maxZ)
  {
    var raw := RawPosition(vols, time, i);
    RenormalizedCoord(raw.x, b.minX, b.maxX);
    RenormalizedCoord(raw.y, b.minY, b.maxY);
    RenormalizedCoord(raw.z, b.minZ, b.maxZ);
    Point(NormalizeCoord(raw.x, b.minX, b.maxX), NormalizeCoord(raw.y, b.minY, b.maxY), NormalizeCoord(raw.z, b.minZ, b.maxZ))
  }

  /** `n` is `raw` re-normalized into [lo, hi] and shifted by -0.5: it is a
      number exactly when `raw` is and the bounds are finite and distinct, and
      then mapping it back gives `raw`. */
  predicate Renormalized(raw: Option<real>, n: Option<real>, lo: ExtReal, hi: ExtReal)
  {
    && (n.Some? <==> raw.Some? && lo.Finite? && hi.Finite? && lo.r != hi.r)
    && (n.Some? ==> lo.Finite? && hi.Finite? && Denormalize(n.value + 0.5, hi.r, lo.r) == raw.value)
  }

  lemma RenormalizedCoord(raw: Option<real>, lo: ExtReal, hi: ExtReal)
    ensures Renormalized(raw, NormalizeCoord(raw, lo, hi), lo, hi)
  {
    if raw.Some? && lo.Finite? && hi.Finite? && lo.r != hi.r {
      NormalizeRoundTrip(raw.value, hi.r, lo.r);
      assert NormalizeCoord(raw, lo, hi).value + 0.5 == Normalize(raw.value, hi.r, lo.r);
    }
  }

  function Coord(p: Point, c: nat): Option<real>
    requires c < 3
  {
    if c == 0 then p.x else if c == 1 then p.y else p.z
  }

  /** How many particles `for (i = 0; i < vols.length - 6; i++)` moves. */
  function Moved(vols: seq<Vol>): nat
  {
    if |vols| <= 6 then 0 else |vols| - 6
  }

  /** The position buffer after one frame: entries `3i .. 3i + 2` of every
      moved particle hold its new position; the others are untouched. */
  function NextFrame(buf: seq<Option<real>>, vols: seq<Vol>, b: Bounds, time: nat): seq<Option<real>>
    requires |buf| == 3 * |vols|
  {
    seq(|buf|, j requires 0 <= j < |buf| =>
      if j / 3 < Moved(vols) then Coord(FramePoint(vols, b, time, j / 3), j % 3) else buf[j])
  }

  /** The animation state: the record list and bounds it reads, the point
      position buffer, the frame counter `time` and the particle/line mode. */
  class Animator {
    const vols: seq<Vol>
    const bounds: Bounds
    const positions: array<Option<real>>
    var time: nat
    var particlesSelected: bool

    /** The buffer holds three entries per record, and the bounds are ones
        the bounds pass can leave: on each axis both finite and ordered, or
        both still infinite, so `NormalizeCoord` covers every case. */
    ghost predicate Valid()
      reads this
    {
      positions.Length == 3 * |vols| && Consistent(bounds)
    }

    /** The point buffer of `buildThreeJsDataPoints`: the normalized position
        of every record, in order. `time` starts at 0 with lines shown. */
    constructor (vols: seq<Vol>, bounds: Bounds)
      requires Consistent(bounds)
      ensures Valid() && fresh(positions)
      ensures this.vols == vols && this.bounds == bounds
      ensures positions[..] == Vertices(vols)
      ensures time == 0 && !particlesSelected
    {
      var buf: seq<Option<real>> := [];
      for i := 0 to |vols|
        invariant buf == Vertices(vols[..i])
      {
        var current := vols[i];
        assert vols[..i + 1][..i] == vols[..i];
        buf := buf + [current.normalizedX, current.normalizedY, current.normalizedZ];
      }
      assert vols[..|vols|] == vols;
      VerticesLength(vols);
      this.vols := vols;
      this.bounds := bounds;
      positions := new Option<real>[|buf|](j requires 0 <= j < |buf| => buf[j]);
      time := 0;
      particlesSelected := false;
    }

    /** One call of `animate`: while particles are shown, every particle
        below `vols.length - 6` gets its position for frame `time`, and
        `time` advances by one. */
    method Animate()
      requires Valid()
      modifies this, positions
      ensures Valid() && particlesSelected == old(particlesSelected)
      ensures time == if old(particlesSelected) then old(time) + 1 else old(time)
      ensures positions[..] == if old(particlesSelected) then NextFrame(old(positions[..]), vols, bounds, old(time)) else old(positions[..])
    {
      if particlesSelected {
        var i := 0;
        while i < |vols| - 6
          invariant 0 <= i <= Moved(vols)
          invariant time == old(time) && particlesSelected
          invariant forall j :: 0 <= j < positions.Length ==>
            positions[j] == if j / 3 < i then Coord(FramePoint(vols, bounds, time, j / 3), j % 3) else old(positions[j])
        {
          var current, next := vols[i], vols[i + 1];
          var newPositionX, newPositionY, newPositionZ: Option<real>;
          if IsKeyframe(time, current.id1) {
            newPositionX, newPositionY, newPositionZ := current.x, current.y, current.z;
          } else if next.id1.Some? && next.id1 == current.id1 {
            newPositionX := Lerp(current.x, next.x, time);
            newPositionY := Lerp(current.y, next.y, time);
            newPositionZ := Lerp(current.z, next.z, time);
          } else {
            newPositionX, newPositionY, newPositionZ := None, None, None;
          }
          positions[i * 3] := NormalizeCoord(newPositionX, bounds.minX, bounds.maxX);
          positions[i * 3 + 1] := NormalizeCoord(newPositionY, bounds.minY, bounds.maxY);
          positions[i * 3 + 2] := NormalizeCoord(newPositionZ, bounds.minZ, bounds.maxZ);
          i := i + 1;
        }
        assert positions[..] == NextFrame(old(positions[..]), vols, bounds, time);
        time := time + 1;
      }
    }
  }

  /** Between keyframes a particle moves along its segment: the position is
      the mix of the two records by `(time % 100) / 100`, it stays between
      them, and at `time % 100 == 0` it is the first record. */
  lemma LerpOnSegment(a: real, b: real, time: nat)
    ensures Lerp(Some(a), Some(b), time) == Some(Mix(a, b, (time % 100) as real / 100.0))
    ensures Between(a, b, Lerp(Some(a), Some(b), time).value)
    ensures time % 100 == 0 ==> Lerp(Some(a), Some(b), time) == Some(a)
  {
    var t := (time % 100) as real;
    assert t == (time % 100) as real;
    var f := t / 100.0;
    assert (b - a) / 100.0 * t == (b - a) * f;
    assert Mix(a, b, f) == a + (b - a) * f;
    assert Lerp(Some(a), Some(b), time).value == (b - a) / 100.0 * t + a;
    MixBetween(a, b, f);
  }

  /** The keyframe test comes back every 100 frames and at no frame in
      between. */
  lemma KeyframePeriod(time: nat, id: Option<real>)
    requires IsKeyframe(time, id)
    ensures IsKeyframe(time + 100, id)
    ensures forall t: nat :: time < t < time + 100 ==> !IsKeyframe(t, id)
  {
    var s := time as real + id.value;
    ShiftFloor(s, 100);
    assert (time + 100) as real + id.value == s + 100 as real;
    forall t: nat | time < t < time + 100 ensures !IsKeyframe(t, id) {
      var k := t - time;
      ShiftFloor(s, k);
      assert t as real + id.value == s + k as real;
    }
  }

  lemma ShiftFloor(s: real, k: int)
    requires s == s.Floor as real
    ensures (s + k as real).Floor == s.Floor + k
    ensures s + k as real == (s + k as real).Floor as real
  {
    assert s + k as real == (s.Floor + k) as real;
  }

  /** A particle at the end of a trajectory has no position on a
      non-keyframe: the code writes NaN (it does not keep the old position). */
  lemma TrajectoryEndUndefined(vols: seq<Vol>, b: Bounds, time: nat, i: nat)
    requires i + 1 < |vols| && !IsKeyframe(time, vols[i].id1) && !SameTrajectory(vols[i + 1], vols[i])
    ensures FramePoint(vols, b, time, i) == Point(None, None, None)
  {
  }

  /** On a keyframe, the particle of a loaded record sits exactly at that
      record's load-time normalized position. */
  lemma KeyframeAtLoadedPosition(lines: seq<seq<string>>, toNumber: string -> Option<real>, time: nat, i: nat)
    requires var vols := Records(lines, ScanBounds(lines, toNumber), toNumber);
      i + 1 < |vols| && IsKeyframe(time, vols[i].id1)
    ensures var b := ScanBounds(lines, toNumber);
      var vols := Records(lines, b, toNumber);
      FramePoint(vols, b, time, i) == Point(vols[i].normalizedX, vols[i].normalizedY, vols[i].normalizedZ)
  {
  }

  /** A value within finite bounds normalizes into [-0.5, 0.5]. */
  lemma NormalizeCoordWithinHalf(v: Option<real>, lo: ExtReal, hi: ExtReal)
    requires v.Some? ==> lo.Finite? && hi.Finite? && lo.r <= v.value <= hi.r
    ensures NormalizeCoord(v, lo, hi).Some? ==> -0.5 <= NormalizeCoord(v, lo, hi).value <= 0.5
  {
    if NormalizeCoord(v, lo, hi).Some? && lo.r < hi.r {
      NormalizeInUnit(v.value, hi.r, lo.r);
    }
  }

  /** Every raw coordinate of every record lies within the bounds of its
      axis. */
  predicate InBounds(vols: seq<Vol>, b: Bounds)
  {
    forall k :: 0 <= k < |vols| ==>
      && AxisInBounds(vols[k].x, b.minX, b.maxX)
      && AxisInBounds(vols[k].y, b.minY, b.maxY)
      && AxisInBounds(vols[k].z, b.minZ, b.maxZ)
  }

  predicate AxisInBounds(v: Option<real>, lo: ExtReal, hi: ExtReal)
  {
    v.Some? ==> lo.Finite? && hi.Finite? && lo.r <= v.value <= hi.r
  }

  lemma AxisFrameWithinHalf(a: Option<real>, c: Option<real>, lo: ExtReal, hi: ExtReal, time: nat)
    requires AxisInBounds(a, lo, hi) && AxisInBounds(c, lo, hi)
    ensures NormalizeCoord(a, lo, hi).Some? ==> -0.5 <= NormalizeCoord(a, lo, hi).value <= 0.5
    ensures NormalizeCoord(Lerp(a, c, time), lo, hi).Some? ==> -0.5 <= NormalizeCoord(Lerp(a, c, time), lo, hi).value <= 0.5
  {
    NormalizeCoordWithinHalf(a, lo, hi);
    if a.Some? && c.Some? {
      LerpOnSegment(a.value, c.value, time);
    }
    NormalizeCoordWithinHalf(Lerp(a, c, time), lo, hi);
  }

  /** When every record lies within the bounds, every coordinate a frame
      writes that is a number lies in [-0.5, 0.5]: interpolated particles
      never leave the normalized box. */
  lemma FrameWithinHalf(vols: seq<Vol>, b: Bounds, time: nat, i: nat)
    requires i + 1 < |vols| && InBounds(vols, b)
    ensures var p := FramePoint(vols, b, time, i);
      && (p.x.Some? ==> -0.5 <= p.x.value <= 0.5)
      && (p.y.Some? ==> -0.5 <= p.y.value <= 0.5)
      && (p.z.Some? ==> -0.5 <= p.z.value <= 0.5)
  {
    var current, next := vols[i], vols[i + 1];
    AxisFrameWithinHalf(current.x, next.x, b.minX, b.maxX, time);
    AxisFrameWithinHalf(current.y, next.y, b.minY, b.maxY, time);
    AxisFrameWithinHalf(current.z, next.z, b.minZ, b.maxZ, time);
  }

  /** The records `loadTxt` builds lie within the bounds it computes, so the
      frames animated from them stay in [-0.5, 0.5]. */
  lemma LoadedRecordsInBounds(lines: seq<seq<string>>, toNumber: string -> Option<real>)
    ensures InBounds(Records(lines, ScanBounds(lines, toNumber), toNumber), ScanBounds(lines, toNumber))
  {
    var b := ScanBounds(lines, toNumber);
    var vols := Records(lines, b, toNumber);
    forall k | 0 <= k < |vols|
      ensures AxisInBounds(vols[k].x, b.minX, b.maxX)
      ensures AxisInBounds(vols[k].y, b.minY, b.maxY)
      ensures AxisInBounds(vols[k].z, b.minZ, b.maxZ)
    {
      LoadedRecordsNormalized(lines, toNumber, k);
    }
  }
}
