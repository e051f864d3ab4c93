/** The trajectory store: the flight-point record `Vol`, the six running
    bounds `minX .. maxZ` and `loadTxt`, which fills both from the
    semicolon-delimited dataset (index.js:44-68, 346-395). */
module Flights {
  import opened Wrappers
  import opened Utilities

  /** A real number extended with the two infinities the bounds start from. */
  datatype ExtReal = NegInf | Finite(r: real) | PosInf

  /** JavaScript `<` on two numbers that are not NaN. */
  predicate Less(a: ExtReal, b: ExtReal)
  {
    match a
    case NegInf => !b.NegInf?
    case Finite(x) => b.PosInf? || (b.Finite? && x < b.r)
    case PosInf => false
  }

  /** Which running bound a pass keeps: the minimum or the maximum. */
  datatype Extreme = Lowest | Highest

  /** `minX = Infinity`, `maxX = -Infinity` before the bounds pass. */
  function Start(d: Extreme): ExtReal
  {
    if d == Lowest then PosInf else NegInf
  }

  /** The comparison of the bounds pass: `x < m` for a minimum, `x > m` for a
      maximum. A NaN (`None`) compares false with everything. */
  predicate Beats(d: Extreme, x: Option<real>, m: ExtReal)
  {
    x.Some? && if d == Lowest then Less(Finite(x.value), m) else Less(m, Finite(x.value))
  }

  /** The bound after one step `m = x < m ? x : m` (or `x > m`). */
  function Step(d: Extreme, m: ExtReal, x: Option<real>): ExtReal
  {
    if Beats(d, x, m) then Finite(x.value) else m
  }

  /** The bound left by running `Step` over `vals` in order. */
  function Extremum(d: Extreme, vals: seq<Option<real>>): ExtReal
  {
    if vals == [] then Start(d) else Step(d, Extremum(d, vals[..|vals| - 1]), vals[|vals| - 1])
  }

  /** `m` is on the correct side of `v` for a bound of kind `d`. */
  predicate Dominates(d: Extreme, m: real, v: real)
  {
    if d == Lowest then m <= v else v <= m
  }

  /** Every number in the column lies on the right side of the bound. */
  lemma {:induction false} ExtremumBounds(d: Extreme, vals: seq<Option<real>>)
    ensures forall j :: 0 <= j < |vals| && vals[j].Some? ==>
      Extremum(d, vals).Finite? && Dominates(d, Extremum(d, vals).r, vals[j].value)
  {
    if vals != [] {
      var p := vals[..|vals| - 1];
      ExtremumBounds(d, p);
      ExtremumAttained(d, p);
      forall j | 0 <= j < |vals| && vals[j].Some?
        ensures Extremum(d, vals).Finite? && Dominates(d, Extremum(d, vals).r, vals[j].value)
      {
        if j < |p| {
          assert vals[j] == p[j];
        }
      }
    }
  }

  /** The bound is still at its starting infinity exactly when the column holds
      no number; otherwise it equals one of the numbers of the column. So a
      NaN never becomes a bound. */
  lemma {:induction false} ExtremumAttained(d: Extreme, vals: seq<Option<real>>)
    ensures Extremum(d, vals) == Start(d) || Extremum(d, vals).Finite?
    ensures Extremum(d, vals) == Start(d) <==> forall j :: 0 <= j < |vals| ==> vals[j].None?
    ensures Extremum(d, vals).Finite? ==> exists j :: 0 <= j < |vals| && vals[j] == Some(Extremum(d, vals).r)
  {
    if vals != [] {
      var p := vals[..|vals| - 1];
      ExtremumAttained(d, p);
      var m := Extremum(d, p);
      var x := vals[|vals| - 1];
      if m.Finite? {
        var j :| 0 <= j < |p| && p[j] == Some(m.r);
        assert vals[j] == p[j];
      }
      if Extremum(d, vals) == Start(d) {
        assert !Beats(d, x, m);
        forall j | 0 <= j < |vals| ensures vals[j].None? {
          if j < |p| {
            assert vals[j] == p[j];
          }
        }
      }
    }
  }

  /** Field `k` of a split line; `undefined` when the line is too short. */
  function Field(line: seq<string>, k: nat): Option<string>
  {
    if k < |line| then Some(line[k]) else None
  }

  /** `Number(line[k])`, with `Number` given as `toNumber`; `Number(undefined)`
      is NaN. */
  function FieldNumber(line: seq<string>, k: nat, toNumber: string -> Option<real>): Option<real>
  {
    if k < |line| then toNumber(line[k]) else None
  }

  /** Field `k` of every line, read as a number. */
  function Column(lines: seq<seq<string>>, k: nat, toNumber: string -> Option<real>): seq<Option<real>>
  {
    seq(|lines|, j requires 0 <= j < |lines| => FieldNumber(lines[j], k, toNumber))
  }

  /** The six global bounds. */
  datatype Bounds = Bounds(minX: ExtReal, maxX: ExtReal, minY: ExtReal, maxY: ExtReal, minZ: ExtReal, maxZ: ExtReal)

  /** The bounds pass of `loadTxt`: fields 2, 3 and 4 of every line, the
      header line included. */
  function ScanBounds(lines: seq<seq<string>>, toNumber: string -> Option<real>): Bounds
  {
    Bounds(Extremum(Lowest, Column(lines, 2, toNumber)), Extremum(Highest, Column(lines, 2, toNumber)),
           Extremum(Lowest, Column(lines, 3, toNumber)), Extremum(Highest, Column(lines, 3, toNumber)),
           Extremum(Lowest, Column(lines, 4, toNumber)), Extremum(Highest, Column(lines, 4, toNumber)))
  }

  /** `(v - min) / (max - min) - 0.5`. The result is `None` whenever
      JavaScript would produce NaN or an infinity: `v` is NaN, a bound is
      still infinite, or `min == max`. For bounds left by the bounds pass
      (`Consistent`) both ends of an axis are finite or both are infinite,
      and then these are all the cases. */
  function NormalizeCoord(v: Option<real>, lo: ExtReal, hi: ExtReal): Option<real>
  {
    if v.Some? && lo.Finite? && hi.Finite? && lo.r != hi.r then Some(Normalize(v.value, hi.r, lo.r) - 0.5) else None
  }

  /** `Vol`: one sample of one trajectory. */
  datatype Vol = Vol(id1: Option<real>, time: Option<string>,
                     normalizedX: Option<real>, normalizedY: Option<real>, normalizedZ: Option<real>,
                     x: Option<real>, y: Option<real>, z: Option<real>,
                     name: Option<string>, id2: Option<real>)

  /** Two records belong to the same trajectory: `a.id1 === b.id1`, which is
      false when either id is NaN. */
  predicate SameTrajectory(a: Vol, b: Vol)
  {
    a.id1.Some? && a.id1 == b.id1
  }

  /** The record built from one data line. */
  function MakeVol(line: seq<string>, b: Bounds, toNumber: string -> Option<real>): Vol
  {
    var x := FieldNumber(line, 2, toNumber);
    var y := FieldNumber(line, 3, toNumber);
    var z := FieldNumber(line, 4, toNumber);
    Vol(FieldNumber(line, 0, toNumber), Field(line, 1),
        NormalizeCoord(x, b.minX, b.maxX), NormalizeCoord(y, b.minY, b.maxY), NormalizeCoord(z, b.minZ, b.maxZ),
        x, y, z, Field(line, 5), FieldNumber(line, 6, toNumber))
  }

  /** The record pass of `loadTxt`: one record per line after line 0, in
      input order. */
  function Records(lines: seq<seq<string>>, b: Bounds, toNumber: string -> Option<real>): seq<Vol>
  {
    if lines == [] then []
    else seq(|lines| - 1, k requires 0 <= k < |lines| - 1 => MakeVol(lines[k + 1], b, toNumber))
  }

  /** A raw value `v` inside the finite bounds `[lo, hi]`, whose normalized
      value `n` is defined exactly when `lo < hi`, lies in [-0.5, 0.5] and
      de-normalizes back to `v`. */
  predicate WithinAxis(v: real, n: Option<real>, lo: ExtReal, hi: ExtReal)
  {
    && lo.Finite? && hi.Finite? && lo.r <= v <= hi.r
    && (n.Some? <==> lo.r < hi.r)
    && (n.Some? ==> -0.5 <= n.value <= 0.5 && Denormalize(n.value + 0.5, hi.r, lo.r) == v)
  }

  /** For the bounds of a column, a number of that column normalizes exactly
      when the bounds differ, the result lies in [-0.5, 0.5], and
      de-normalizing it gives the number back. */
  lemma ColumnNormalized(c: seq<Option<real>>, j: nat)
    requires j < |c| && c[j].Some?
    ensures WithinAxis(c[j].value, NormalizeCoord(c[j], Extremum(Lowest, c), Extremum(Highest, c)), Extremum(Lowest, c), Extremum(Highest, c))
  {
    ExtremumBounds(Lowest, c);
    ExtremumBounds(Highest, c);
    var lo, hi := Extremum(Lowest, c), Extremum(Highest, c);
    if lo.r < hi.r {
      NormalizeInUnit(c[j].value, hi.r, lo.r);
      NormalizeRoundTrip(c[j].value, hi.r, lo.r);
    }
  }

  /** What `loadTxt` promises of the records it builds: raw coordinates are
      fields 2, 3 and 4 of line `k + 1`; each numeric coordinate lies within
      the bounds of its axis; its normalized value is defined exactly when
      the axis is not degenerate, lies in [-0.5, 0.5], and maps back to the
      raw value. */
  lemma LoadedRecordsNormalized(lines: seq<seq<string>>, toNumber: string -> Option<real>, k: nat)
    requires k + 1 < |lines|
    ensures var b := ScanBounds(lines, toNumber);
      var v := Records(lines, b, toNumber)[k];
      && |Records(lines, b, toNumber)| == |lines| - 1
      && v.x == FieldNumber(lines[k + 1], 2, toNumber)
      && v.y == FieldNumber(lines[k + 1], 3, toNumber)
      && v.z == FieldNumber(lines[k + 1], 4, toNumber)
      && (v.x.Some? ==> WithinAxis(v.x.value, v.normalizedX, b.minX, b.maxX))
      && (v.y.Some? ==> WithinAxis(v.y.value, v.normalizedY, b.minY, b.maxY))
      && (v.z.Some? ==> WithinAxis(v.z.value, v.normalizedZ, b.minZ, b.maxZ))
  {
    var b := ScanBounds(lines, toNumber);
    var v := Records(lines, b, toNumber)[k];
    assert v == MakeVol(lines[k + 1], b, toNumber);
    var cx, cy, cz := Column(lines, 2, toNumber), Column(lines, 3, toNumber), Column(lines, 4, toNumber);
    assert v.x == cx[k + 1] && v.y == cy[k + 1] && v.z == cz[k + 1];
    if v.x.Some? { ColumnNormalized(cx, k + 1); }
    if v.y.Some? { ColumnNormalized(cy, k + 1); }
    if v.z.Some? { ColumnNormalized(cz, k + 1); }
  }

  /** Both ends of each axis left by the bounds pass are finite, or both are
      still at their starting infinities. */
  predicate Consistent(b: Bounds)
  {
    && ConsistentAxis(b.minX, b.maxX) && ConsistentAxis(b.minY, b.maxY) && ConsistentAxis(b.minZ, b.maxZ)
  }

  predicate ConsistentAxis(lo: ExtReal, hi: ExtReal)
  {
    (lo == PosInf && hi == NegInf) || (lo.Finite? && hi.Finite? && lo.r <= hi.r)
  }

  lemma ColumnConsistent(c: seq<Option<real>>)
    ensures ConsistentAxis(Extremum(Lowest, c), Extremum(Highest, c))
  {
    ExtremumAttained(Lowest, c);
    ExtremumAttained(Highest, c);
    ExtremumBounds(Lowest, c);
    ExtremumBounds(Highest, c);
  }

  /** The bounds pass leaves consistent bounds on every axis. */
  lemma ScanBoundsConsistent(lines: seq<seq<string>>, toNumber: string -> Option<real>)
    ensures Consistent(ScanBounds(lines, toNumber))
  {
    ColumnConsistent(Column(lines, 2, toNumber));
    ColumnConsistent(Column(lines, 3, toNumber));
    ColumnConsistent(Column(lines, 4, toNumber));
  }

  lemma ExtremumSnoc(c: seq<Option<real>>, j: nat)
    requires j < |c|
    ensures Extremum(Lowest, c[..j + 1]) == Step(Lowest, Extremum(Lowest, c[..j]), c[j])
    ensures Extremum(Highest, c[..j + 1]) == Step(Highest, Extremum(Highest, c[..j]), c[j])
  {
    assert c[..j + 1][..j] == c[..j];
  }

  lemma RecordsSnoc(lines: seq<seq<string>>, index: nat, b: Bounds, toNumber: string -> Option<real>)
    requires 0 < index < |lines|
    ensures Records(lines[..index + 1], b, toNumber) == Records(lines[..index], b, toNumber) + [MakeVol(lines[index], b, toNumber)]
  {
  }

  /** The global state `loadTxt` fills: the six bounds and the `vols` array. */
  class TrajectoryStore {
    var minX: ExtReal
    var maxX: ExtReal
    var minY: ExtReal
    var maxY: ExtReal
    var minZ: ExtReal
    var maxZ: ExtReal
    var vols: seq<Vol>

    /** `let vols = []`; the bounds are unset until `loadTxt` runs. */
    constructor ()
      ensures vols == []
    {
      vols := [];
    }

    function CurrentBounds(): Bounds
      reads this
    {
      Bounds(minX, maxX, minY, maxY, minZ, maxZ)
    }

    /** `loadTxt` over the dataset already split into lines and fields: the
        bounds pass over every line, then one record appended per line after
        line 0. */
    method LoadTxt(lines: seq<seq<string>>, toNumber: string -> Option<real>)
      modifies this
      ensures CurrentBounds() == ScanBounds(lines, toNumber)
      ensures vols == old(vols) + Records(lines, CurrentBounds(), toNumber)
    {
      BoundsPass(lines, toNumber);
      RecordPass(lines, toNumber);
    }

    /** The first `forEach` of `loadTxt`: reset the six bounds to the
        infinities and fold every line's fields 2, 3 and 4 into them. */
    method BoundsPass(lines: seq<seq<string>>, toNumber: string -> Option<real>)
      modifies this
      ensures CurrentBounds() == ScanBounds(lines, toNumber)
      ensures vols == old(vols)
    {
      minX, maxX := PosInf, NegInf;
      minY, maxY := PosInf, NegInf;
      minZ, maxZ := PosInf, NegInf;
      ghost var cx, cy, cz := Column(lines, 2, toNumber), Column(lines, 3, toNumber), Column(lines, 4, toNumber);
      for j := 0 to |lines|
        invariant vols == old(vols)
        invariant minX == Extremum(Lowest, cx[..j]) && maxX == Extremum(Highest, cx[..j])
        invariant minY == Extremum(Lowest, cy[..j]) && maxY == Extremum(Highest, cy[..j])
        invariant minZ == Extremum(Lowest, cz[..j]) && maxZ == Extremum(Highest, cz[..j])
      {
        ExtremumSnoc(cx, j);
        ExtremumSnoc(cy, j);
        ExtremumSnoc(cz, j);
        var x := FieldNumber(lines[j], 2, toNumber);
        assert x == cx[j];
        minX := Step(Lowest, minX, x);
        maxX := Step(Highest, maxX, x);
        var y := FieldNumber(lines[j], 3, toNumber);
        assert y == cy[j];
        minY := Step(Lowest, minY, y);
        maxY := Step(Highest, maxY, y);
        var z := FieldNumber(lines[j], 4, toNumber);
        assert z == cz[j];
        minZ := Step(Lowest, minZ, z);
        maxZ := Step(Highest, maxZ, z);
      }
      assert cx[..|lines|] == cx && cy[..|lines|] == cy && cz[..|lines|] == cz;
    }

    /** The second `forEach` of `loadTxt`: skip line 0 and append one record
        per other line, normalized with the current bounds. */
    method RecordPass(lines: seq<seq<string>>, toNumber: string -> Option<real>)
      modifies this
      ensures CurrentBounds() == old(CurrentBounds())
      ensures vols == old(vols) + Records(lines, CurrentBounds(), toNumber)
    {
      ghost var b := CurrentBounds();
      assert lines[..0] == [];
      for index := 0 to |lines|
        invariant CurrentBounds() == b
        invariant vols == old(vols) + Records(lines[..index], b, toNumber)
      {
        if index != 0 {
          var line := lines[index];
          var x := FieldNumber(line, 2, toNumber);
          var y := FieldNumber(line, 3, toNumber);
          var z := FieldNumber(line, 4, toNumber);
          var v := Vol(FieldNumber(line, 0, toNumber), Field(line, 1),
                       NormalizeCoord(x, minX, maxX), NormalizeCoord(y, minY, maxY), NormalizeCoord(z, minZ, maxZ),
                       x, y, z, Field(line, 5), FieldNumber(line, 6, toNumber));
          RecordsSnoc(lines, index, b, toNumber);
          vols := vols + [v];
        } else {
          assert Records(lines[..1], b, toNumber) == [];
        }
      }
      assert lines[..|lines|] == lines;
    }
  }
}
