/** How many layers stay in memory: bilinear interpolation over a calibrated grid, rounding,
    memory clamps, and the planner that splits a model into resident and streamed layers.
    Floats are reals. */
module Residency {
  import opened Arithmetic
  import opened Common

  // ---------------------------------------------------------------- rounding

  /** Rounding half to even, as the language's `round`. */
  function RoundHalfEven(x: real): int {
    var low := x.Floor;
    var rest := x - low as real;
    if rest < 0.5 then low else if rest > 0.5 then low + 1 else if low % 2 == 0 then low else low + 1
  }

  /** Rounding towards zero, as the language's `int`. */
  function Trunc(x: real): int { if x >= 0.0 then x.Floor else -((-x).Floor) }

  /** To the nearest integer, and to the even one halfway between two. */
  lemma RoundIsNearest(x: real)
    ensures -0.5 <= RoundHalfEven(x) as real - x <= 0.5
    ensures RoundHalfEven(x) as real - x == 0.5 || x - RoundHalfEven(x) as real == 0.5 ==> RoundHalfEven(x) % 2 == 0
  {}

  lemma FloorMonotone(x: real, y: real)
    requires x <= y
    ensures x.Floor <= y.Floor
  {}

  lemma RoundMonotone(x: real, y: real)
    requires x <= y
    ensures RoundHalfEven(x) <= RoundHalfEven(y)
  {
    FloorMonotone(x, y);
  }

  lemma TruncMonotone(x: real, y: real)
    requires x <= y
    ensures Trunc(x) <= Trunc(y)
  {
    if y < 0.0 { FloorMonotone(-y, -x); } else if x >= 0.0 { FloorMonotone(x, y); }
    else { FloorMonotone(0.0, -x); FloorMonotone(0.0, y); }
  }


  // ---------------------------------------------------------------- interpolation

  ghost predicate Ascending(s: seq<real>) { forall i, j :: 0 <= i < j < |s| ==> s[i] < s[j] }

  ghost predicate Rising(s: seq<real>) { forall i, j :: 0 <= i < j < |s| ==> s[i] <= s[j] }

  ghost predicate AtMost(v: seq<real>, w: seq<real>) { |v| == |w| && forall i :: 0 <= i < |v| ==> v[i] <= w[i] }

  /** How far `x` lies between the ends, from 0 to 1. */
  function Fraction(x: real, x0: real, x1: real): (t: real)
    requires x0 < x1
    ensures 0.0 <= t <= 1.0
  {
    MaxReal(0.0, MinReal(1.0, (x - x0) / (x1 - x0)))
  }

  function Blend(t: real, y0: real, y1: real): real { y0 + t * (y1 - y0) }

  function Lerp(x: real, x0: real, x1: real, y0: real, y1: real): real {
    if x1 <= x0 then y0 else Blend(Fraction(x, x0, x1), y0, y1)
  }

  /** The first segment whose right end is not below `x`. */
  function Segment(x: real, anchors: seq<real>, i: nat): (s: nat)
    requires i + 1 < |anchors| && anchors[i] <= x <= anchors[|anchors| - 1]
    ensures i <= s && s + 1 < |anchors| && anchors[s] <= x <= anchors[s + 1]
    decreases |anchors| - i
  {
    if x <= anchors[i + 1] then i else Segment(x, anchors, i + 1)
  }

  function Interp(x: real, anchors: seq<real>, values: seq<real>): real
    requires |anchors| == |values| >= 1
  {
    if x <= anchors[0] then values[0]
    else if x >= anchors[|anchors| - 1] then values[|values| - 1]
    else
      var s := Segment(x, anchors, 0);
      Lerp(x, anchors[s], anchors[s + 1], values[s], values[s + 1])
  }

  /** The scan over segments, as the source writes it. */
  method Interp1d(x: real, anchors: seq<real>, values: seq<real>) returns (r: real)
    requires |anchors| == |values| >= 1
    ensures r == Interp(x, anchors, values)
  {
    if x <= anchors[0] { return values[0]; }
    if x >= anchors[|anchors| - 1] { return values[|values| - 1]; }
    for i := 0 to |anchors| - 1
      invariant anchors[i] < x
      invariant i + 1 < |anchors| ==> Segment(x, anchors, 0) == Segment(x, anchors, i)
    {
      if anchors[i] <= x <= anchors[i + 1] {
        return Lerp(x, anchors[i], anchors[i + 1], values[i], values[i + 1]);
      }
    }
    assert false;
  }

  lemma Product(s: real, t: real, d: real)
    requires s <= t && d >= 0.0
    ensures s * d <= t * d
  {}

  lemma Quotient(a: real, b: real, d: real)
    requires a <= b && d > 0.0
    ensures a / d <= b / d
  {
    var p, q := a / d, b / d;
    assert p * d == a && q * d == b;
    if p > q { Product(q, p, d); }
  }

  lemma FractionMonotone(x: real, y: real, x0: real, x1: real)
    requires x <= y && x0 < x1
    ensures Fraction(x, x0, x1) <= Fraction(y, x0, x1)
  {
    Quotient(x - x0, y - x0, x1 - x0);
  }

  lemma BlendMonotone(s: real, t: real, y0: real, y1: real)
    requires 0.0 <= s <= t <= 1.0 && y0 <= y1
    ensures y0 <= Blend(s, y0, y1) <= Blend(t, y0, y1) <= y1
  {
    Product(0.0, s, y1 - y0);
    Product(s, t, y1 - y0);
    Product(t, 1.0, y1 - y0);
  }

  lemma BlendValues(t: real, y0: real, y1: real, z0: real, z1: real)
    requires 0.0 <= t <= 1.0 && y0 <= z0 && y1 <= z1
    ensures Blend(t, y0, y1) <= Blend(t, z0, z1)
  {
    Distribute(t, y1, y0);
    Distribute(t, z1, z0);
    Distribute(t, z1, y1);
    Distribute(t, z0, y0);
    Product(0.0, t, z1 - y1);
    Product(t, 1.0, z0 - y0);
    assert t * (z0 - y0) <= z0 - y0;
  }

  lemma Distribute(t: real, p: real, q: real)
    ensures t * (p - q) == t * p - t * q
  {}

  lemma LerpBetween(x: real, x0: real, x1: real, y0: real, y1: real)
    requires y0 <= y1
    ensures y0 <= Lerp(x, x0, x1, y0, y1) <= y1
  {
    hide Blend, Fraction;
    if x1 > x0 { BlendMonotone(Fraction(x, x0, x1), Fraction(x, x0, x1), y0, y1); }
  }

  lemma LerpMonotone(x: real, y: real, x0: real, x1: real, y0: real, y1: real)
    requires x <= y && y0 <= y1
    ensures Lerp(x, x0, x1, y0, y1) <= Lerp(y, x0, x1, y0, y1)
  {
    hide Blend, Fraction;
    if x1 > x0 {
      FractionMonotone(x, y, x0, x1);
      BlendMonotone(Fraction(x, x0, x1), Fraction(y, x0, x1), y0, y1);
    }
  }

  lemma LerpValues(x: real, x0: real, x1: real, y0: real, y1: real, z0: real, z1: real)
    requires y0 <= z0 && y1 <= z1
    ensures Lerp(x, x0, x1, y0, y1) <= Lerp(x, x0, x1, z0, z1)
  {
    hide Blend, Fraction;
    if x1 > x0 { BlendValues(Fraction(x, x0, x1), y0, y1, z0, z1); }
  }

  /** Along the axis: rising values give a rising interpolation. */
  lemma InterpMonotone(x: real, y: real, anchors: seq<real>, values: seq<real>)
    requires |anchors| == |values| >= 1 && Ascending(anchors) && Rising(values) && x <= y
    ensures Interp(x, anchors, values) <= Interp(y, anchors, values)
  {
    var n := |anchors|;
    InterpBetween(x, anchors, values);
    InterpBetween(y, anchors, values);
    if anchors[0] < x && y < anchors[n - 1] {
      var i, j := Segment(x, anchors, 0), Segment(y, anchors, 0);
      if i < j {
        LerpBetween(x, anchors[i], anchors[i + 1], values[i], values[i + 1]);
        LerpBetween(y, anchors[j], anchors[j + 1], values[j], values[j + 1]);
      } else {
        SegmentsOrdered(x, y, anchors, 0);
        LerpMonotone(x, y, anchors[i], anchors[i + 1], values[i], values[i + 1]);
      }
    }
  }

  lemma {:induction false} SegmentsOrdered(x: real, y: real, anchors: seq<real>, i: nat)
    requires i + 1 < |anchors| && anchors[i] <= x <= y <= anchors[|anchors| - 1]
    ensures Segment(x, anchors, i) <= Segment(y, anchors, i)
    decreases |anchors| - i
  {
    if x > anchors[i + 1] { SegmentsOrdered(x, y, anchors, i + 1); }
  }

  lemma InterpBetween(x: real, anchors: seq<real>, values: seq<real>)
    requires |anchors| == |values| >= 1 && Rising(values)
    ensures values[0] <= Interp(x, anchors, values) <= values[|values| - 1]
  {
    if anchors[0] < x < anchors[|anchors| - 1] {
      var s := Segment(x, anchors, 0);
      LerpBetween(x, anchors[s], anchors[s + 1], values[s], values[s + 1]);
    }
  }

  /** Across rows: larger values give a larger interpolation. */
  lemma InterpValues(x: real, anchors: seq<real>, v: seq<real>, w: seq<real>)
    requires |anchors| == |v| >= 1 && AtMost(v, w)
    ensures Interp(x, anchors, v) <= Interp(x, anchors, w)
  {
    if anchors[0] < x < anchors[|anchors| - 1] {
      var s := Segment(x, anchors, 0);
      LerpValues(x, anchors[s], anchors[s + 1], v[s], v[s + 1], w[s], w[s + 1]);
    }
  }

  predicate OnLineThrough(x: real, y: real, x0: real, y0: real, x1: real, y1: real) {
    (y - y0) * (x1 - x0) == (x - x0) * (y1 - y0)
  }

  /** The interpolation goes through every anchor, runs straight between two neighbours, and is flat outside. */
  lemma InterpIsPiecewiseLinear(x: real, anchors: seq<real>, values: seq<real>, i: nat)
    requires |anchors| == |values| && i + 1 < |anchors| && Ascending(anchors)
    ensures Interp(anchors[i], anchors, values) == values[i]
    ensures Interp(anchors[i + 1], anchors, values) == values[i + 1]
    ensures anchors[i] <= x <= anchors[i + 1] ==>
      OnLineThrough(x, Interp(x, anchors, values), anchors[i], values[i], anchors[i + 1], values[i + 1])
    ensures x <= anchors[0] ==> Interp(x, anchors, values) == values[0]
    ensures x >= anchors[|anchors| - 1] ==> Interp(x, anchors, values) == values[|values| - 1]
  {
    OnLine(anchors[i], anchors, values, i);
    OnLine(anchors[i + 1], anchors, values, i);
    OnSegmentEnds(anchors[i], anchors[i + 1], values[i], values[i + 1]);
    hide Lerp, OnLineThrough;
    if anchors[i] <= x <= anchors[i + 1] {
      OnLine(x, anchors, values, i);
      LerpOnLine(x, anchors[i], anchors[i + 1], values[i], values[i + 1]);
    }
  }

  lemma OnSegmentEnds(x0: real, x1: real, y0: real, y1: real)
    requires x0 < x1
    ensures Lerp(x0, x0, x1, y0, y1) == y0 && Lerp(x1, x0, x1, y0, y1) == y1
  {
    var d := x1 - x0;
    assert 0.0 / d == 0.0 && d / d == 1.0;
    assert Fraction(x0, x0, x1) == 0.0 && Fraction(x1, x0, x1) == 1.0;
  }

  /** On a segment the interpolation is that segment's. */
  lemma OnLine(x: real, anchors: seq<real>, values: seq<real>, i: nat)
    requires |anchors| == |values| && i + 1 < |anchors| && Ascending(anchors) && anchors[i] <= x <= anchors[i + 1]
    ensures Interp(x, anchors, values) == Lerp(x, anchors[i], anchors[i + 1], values[i], values[i + 1])
  {
    hide Lerp;
    var n := |anchors|;
    OnSegmentEnds(anchors[i], anchors[i + 1], values[i], values[i + 1]);
    if anchors[0] < x < anchors[n - 1] {
      var s := Segment(x, anchors, 0);
      OnSegmentEnds(anchors[s], anchors[s + 1], values[s], values[s + 1]);
      NextToEachOther(x, anchors, i, s);
    } else {
      AtTheEnds(x, anchors, i);
    }
  }

  lemma NextToEachOther(x: real, anchors: seq<real>, i: nat, s: nat)
    requires i + 1 < |anchors| && s + 1 < |anchors| && Ascending(anchors)
    requires anchors[i] <= x <= anchors[i + 1] && anchors[s] <= x <= anchors[s + 1]
    ensures s == i || (s + 1 == i && x == anchors[i]) || (s == i + 1 && x == anchors[i + 1])
  {}

  lemma AtTheEnds(x: real, anchors: seq<real>, i: nat)
    requires i + 1 < |anchors| && Ascending(anchors) && anchors[i] <= x <= anchors[i + 1]
    ensures x <= anchors[0] ==> i == 0 && x == anchors[0]
    ensures x >= anchors[|anchors| - 1] ==> i + 2 == |anchors| && x == anchors[i + 1]
  {}

  lemma LerpOnLine(x: real, x0: real, x1: real, y0: real, y1: real)
    requires x0 <= x <= x1 && x0 < x1
    ensures OnLineThrough(x, Lerp(x, x0, x1, y0, y1), x0, y0, x1, y1)
  {
    var t := (x - x0) / (x1 - x0);
    Quotient(0.0, x - x0, x1 - x0);
    Quotient(x - x0, x1 - x0, x1 - x0);
    assert t * (x1 - x0) == x - x0;
    assert Lerp(x, x0, x1, y0, y1) - y0 == t * (y1 - y0);
    ProductSwap(t, y1 - y0, x1 - x0);
  }

  lemma ProductSwap(a: real, b: real, c: real)
    ensures a * b * c == a * c * b
  {}

  // ---------------------------------------------------------------- the policy

  const RATIO_ANCHORS: seq<real> := [1.0, 3.0, 5.0, 7.0, 10.0, 15.0]
  const RAM_ANCHORS_GB: seq<real> := [4.0, 8.0, 12.0, 16.0, 24.0]
  const RESIDENT_GRID: seq<seq<real>> := [
    [2.0, 2.0, 2.0, 2.0, 2.0],
    [2.0, 2.0, 2.0, 2.0, 2.0],
    [4.0, 12.0, 20.0, 22.0, 22.0],
    [8.0, 16.0, 22.0, 22.0, 22.0],
    [10.0, 16.0, 22.0, 22.0, 22.0],
    [12.0, 18.0, 22.0, 22.0, 22.0]
  ]
  const MAX_RESIDENT_LAYERS: int := 28
  const MIN_RESIDENT_LAYERS: int := 2

  function Clamp(x: real, anchors: seq<real>): real
    requires anchors != []
  {
    MaxReal(anchors[0], MinReal(anchors[|anchors| - 1], x))
  }

  /** One interpolation over memory per ratio anchor. */
  function PerRatio(ram: real): (v: seq<real>)
    ensures |v| == |RATIO_ANCHORS|
  {
    seq(|RATIO_ANCHORS|, i requires 0 <= i < |RATIO_ANCHORS| => Interp(ram, RAM_ANCHORS_GB, RESIDENT_GRID[i]))
  }

  function ResidentFloat(ratio: real, ram: real): real {
    Interp(Clamp(ratio, RATIO_ANCHORS), RATIO_ANCHORS, PerRatio(Clamp(ram, RAM_ANCHORS_GB)))
  }

  /** Layers in 80% of the memory. */
  function MemoryLimit(ram: real, layerMb: real): int {
    var layerGb := layerMb / 1024.0;
    if layerGb <= 0.0 then 0 else Max(0, Trunc(ram * 0.80 / layerGb))
  }

  function ClampedLimit(ram: real, layerMb: real): int {
    Max(MIN_RESIDENT_LAYERS, Min(MemoryLimit(ram, layerMb), MAX_RESIDENT_LAYERS))
  }

  datatype PolicyResult = PolicyResult(count: int, raw: real, memoryClamped: bool, limit: int)

  function PolicyCount(ratio: real, ram: real, layerMb: real): int {
    Max(MIN_RESIDENT_LAYERS,
        Min(MAX_RESIDENT_LAYERS, Min(RoundHalfEven(ResidentFloat(ratio, ram)), ClampedLimit(ram, layerMb))))
  }

  method EstimateResidentCount(ratio: real, ram: real, layerMb: real) returns (r: PolicyResult)
    ensures r.count == PolicyCount(ratio, ram, layerMb) && r.raw == ResidentFloat(ratio, ram)
    ensures r.memoryClamped <==> RoundHalfEven(r.raw) > r.limit
    ensures r.limit == ClampedLimit(ram, layerMb) && MIN_RESIDENT_LAYERS <= r.count <= r.limit
  {
    var perRatio: seq<real> := [];
    for i := 0 to |RATIO_ANCHORS|
      invariant |perRatio| == i
      invariant forall j :: 0 <= j < i ==> perRatio[j] == PerRatio(Clamp(ram, RAM_ANCHORS_GB))[j]
    {
      var value := Interp1d(Clamp(ram, RAM_ANCHORS_GB), RAM_ANCHORS_GB, RESIDENT_GRID[i]);
      perRatio := perRatio + [value];
    }
    assert perRatio == PerRatio(Clamp(ram, RAM_ANCHORS_GB));
    var raw := Interp1d(Clamp(ratio, RATIO_ANCHORS), RATIO_ANCHORS, perRatio);
    var limit := Max(MIN_RESIDENT_LAYERS, Min(MemoryLimit(ram, layerMb), MAX_RESIDENT_LAYERS));
    var resident := RoundHalfEven(raw);
    var clamped := resident > limit;
    if clamped { resident := limit; }
    r := PolicyResult(Max(MIN_RESIDENT_LAYERS, Min(MAX_RESIDENT_LAYERS, resident)), raw, clamped, limit);
  }

  lemma GridRises()
    ensures Ascending(RATIO_ANCHORS) && Ascending(RAM_ANCHORS_GB)
    ensures forall i :: 0 <= i < |RESIDENT_GRID| ==> Rising(RESIDENT_GRID[i])
    ensures forall i, j :: 0 <= i < j < |RESIDENT_GRID| ==> AtMost(RESIDENT_GRID[i], RESIDENT_GRID[j])
  {}

  /** At the measured points the policy is what was measured. */
  lemma GridIsMeasured(i: nat, j: nat)
    requires i < |RATIO_ANCHORS| && j < |RAM_ANCHORS_GB|
    ensures ResidentFloat(RATIO_ANCHORS[i], RAM_ANCHORS_GB[j]) == RESIDENT_GRID[i][j]
  {
    GridRises();
    hide Interp, Ascending;
    AnchorsUnclamped(RATIO_ANCHORS, i);
    AnchorsUnclamped(RAM_ANCHORS_GB, j);
    AnchorValue(RAM_ANCHORS_GB, RESIDENT_GRID[i], j);
    AnchorValue(RATIO_ANCHORS, PerRatio(RAM_ANCHORS_GB[j]), i);
  }

  lemma AnchorsUnclamped(anchors: seq<real>, i: nat)
    requires i < |anchors| && Ascending(anchors)
    ensures Clamp(anchors[i], anchors) == anchors[i]
  {}

  lemma AnchorValue(anchors: seq<real>, values: seq<real>, i: nat)
    requires |anchors| == |values| >= 2 && i < |anchors| && Ascending(anchors)
    ensures Interp(anchors[i], anchors, values) == values[i]
  {
    hide Interp, Ascending;
    InterpIsPiecewiseLinear(anchors[i], anchors, values, if i == 0 then 0 else i - 1);
  }

  lemma PerRatioRises(ram: real)
    ensures Rising(PerRatio(ram))
  {
    GridRises();
    forall i, j | 0 <= i < j < |RATIO_ANCHORS| ensures PerRatio(ram)[i] <= PerRatio(ram)[j] {
      InterpValues(ram, RAM_ANCHORS_GB, RESIDENT_GRID[i], RESIDENT_GRID[j]);
    }
  }

  /** Through both interpolation passes, rounding and clamps: more memory or a higher ratio
      never lowers the count. */
  lemma PolicyMonotone(ratio: real, ratio': real, ram: real, ram': real, layerMb: real)
    requires ratio <= ratio' && ram <= ram'
    ensures PolicyCount(ratio, ram, layerMb) <= PolicyCount(ratio', ram', layerMb)
  {
    hide Interp, PerRatio, RoundHalfEven, MemoryLimit;
    GridRises();
    var r, r' := Clamp(ratio, RATIO_ANCHORS), Clamp(ratio', RATIO_ANCHORS);
    var m, m' := Clamp(ram, RAM_ANCHORS_GB), Clamp(ram', RAM_ANCHORS_GB);
    PerRatioRises(m);
    InterpMonotone(r, r', RATIO_ANCHORS, PerRatio(m));
    PerRatioMonotone(m, m');
    InterpValues(r', RATIO_ANCHORS, PerRatio(m), PerRatio(m'));
    RoundMonotone(ResidentFloat(ratio, ram), ResidentFloat(ratio', ram'));
    MemoryLimitMonotone(ram, ram', layerMb);
  }

  lemma PerRatioMonotone(ram: real, ram': real)
    requires ram <= ram'
    ensures AtMost(PerRatio(ram), PerRatio(ram'))
  {
    GridRises();
    forall i | 0 <= i < |RATIO_ANCHORS| ensures PerRatio(ram)[i] <= PerRatio(ram')[i] {
      InterpMonotone(ram, ram', RAM_ANCHORS_GB, RESIDENT_GRID[i]);
    }
  }

  lemma MemoryLimitMonotone(ram: real, ram': real, layerMb: real)
    requires ram <= ram'
    ensures MemoryLimit(ram, layerMb) <= MemoryLimit(ram', layerMb)
  {
    var layerGb := layerMb / 1024.0;
    if layerGb > 0.0 {
      Quotient(ram * 0.80, ram' * 0.80, layerGb);
      TruncMonotone(ram * 0.80 / layerGb, ram' * 0.80 / layerGb);
    }
  }

  /** The count fits in 80% of the memory exactly when the two layers always kept do. */
  lemma PolicyFitsMemory(ratio: real, ram: real, layerMb: real)
    requires layerMb > 0.0
    ensures PolicyCount(ratio, ram, layerMb) as real * (layerMb / 1024.0) <= ram * 0.80
            <==> 2.0 * (layerMb / 1024.0) <= ram * 0.80
  {
    hide ResidentFloat, RoundHalfEven, Trunc;
    CountFits(PolicyCount(ratio, ram, layerMb), layerMb / 1024.0, ram * 0.80);
  }

  /** The count falls short of the rounded policy only where a layer more would not fit. */
  lemma PolicyUsesMemory(ratio: real, ram: real, layerMb: real)
    requires layerMb > 0.0
    ensures var count, asked := PolicyCount(ratio, ram, layerMb), RoundHalfEven(ResidentFloat(ratio, ram));
      && count <= Max(MIN_RESIDENT_LAYERS, asked) && count <= MAX_RESIDENT_LAYERS
      && (count < asked && count < MAX_RESIDENT_LAYERS ==> (count + 1) as real * (layerMb / 1024.0) > ram * 0.80)
  {
    hide ResidentFloat, RoundHalfEven, Trunc;
    OneMoreTooMany(PolicyCount(ratio, ram, layerMb), layerMb / 1024.0, ram * 0.80);
  }

  lemma OneMoreTooMany(count: int, layerGb: real, usable: real)
    requires layerGb > 0.0
    ensures count >= Max(0, Trunc(usable / layerGb)) ==> (count + 1) as real * layerGb > usable
  {
    var room := usable / layerGb;
    assert room * layerGb == usable;
    if count >= Max(0, Trunc(room)) {
      FloorBelow(room, count);
      StrictProduct(room, (count + 1) as real, layerGb);
    }
  }

  lemma FloorBelow(room: real, count: int)
    requires count >= Max(0, Trunc(room))
    ensures room < (count + 1) as real
  {}

  lemma StrictProduct(a: real, b: real, d: real)
    requires a < b && d > 0.0
    ensures a * d < b * d
  {}

  /** An input at which it does not: layers of 1 GB and 1 GB of memory. */
  lemma PolicyCanExceedMemory(ratio: real)
    ensures PolicyCount(ratio, 1.0, 1024.0) == 2 && 2.0 * (1024.0 / 1024.0) > 1.0 * 0.80
  {
    hide ResidentFloat, RoundHalfEven;
    assert ClampedLimit(1.0, 1024.0) == 2;
  }

  lemma CountFits(count: int, layerGb: real, usable: real)
    requires layerGb > 0.0 && 2 <= count <= Max(2, Max(0, Trunc(usable / layerGb)))
    ensures count as real * layerGb <= usable <==> 2.0 * layerGb <= usable
  {
    var room := usable / layerGb;
    assert room * layerGb == usable;
    RoomFor(count as real, layerGb, room);
  }

  lemma RoomFor(c: real, layerGb: real, room: real)
    requires layerGb > 0.0 && 2.0 <= c && (c <= room || c == 2.0)
    ensures c * layerGb <= room * layerGb <==> 2.0 * layerGb <= room * layerGb
  {
    Product(2.0, c, layerGb);
    if c <= room { Product(c, room, layerGb); }
  }

  // ---------------------------------------------------------------- the planner

  const OS_RESERVE_BYTES: int := 4 * 1024 * 1024 * 1024
  const WORKING_RESERVE_BYTES: int := 2 * 1024 * 1024 * 1024
  const BYTES_PER_GB: real := 1073741824.0

  datatype Plan = Plan(
    residentCount: int, streamingCount: int, residentBytes: int, streamingBytes: int, availableBytes: int)

  function MemoryBudget(total: int, free: Option<int>): int { if free.Some? then Min(total, free.value) else total }

  function Usable(budget: int): int {
    Max(0, Trunc((budget - OS_RESERVE_BYTES - WORKING_RESERVE_BYTES) as real * 0.75))
  }

  function RatioOf(ratio: Option<real>): real { if ratio.Some? then MaxReal(0.1, ratio.value) else 5.0 }

  /** The number of resident layers, for a model that has any. */
  function ResidentCount(budget: int, layerBytes: nat, layers: nat, ratio: Option<real>, layerMb: real): int
    requires layerBytes > 0
  {
    var usable := Usable(budget);
    var most := Min(layers, usable / layerBytes);
    if most <= 0 then 0
    else if layerBytes * layers <= usable then layers
    else Max(0, Min(most, PolicyCount(RatioOf(ratio), budget as real / BYTES_PER_GB, layerMb)))
  }

  /** Every layer is resident exactly when the model fits three quarters of what the reserves leave. */
  lemma AllResidentWhen(budget: int, layerBytes: nat, layers: nat, ratio: Option<real>, layerMb: real)
    requires layerBytes > 0 && layers > 0
    ensures ResidentCount(budget, layerBytes, layers, ratio, layerMb) == layers <==>
      4 * (layerBytes * layers) <= 3 * (budget - OS_RESERVE_BYTES - WORKING_RESERVE_BYTES)
  {
    hide PolicyCount;
    var usable, model, room := Usable(budget), layerBytes * layers, budget - OS_RESERVE_BYTES - WORKING_RESERVE_BYTES;
    UsableIs(budget);
    FitsWhen(layerBytes, layers, usable);
  }

  /** A model that does not fit gets what the policy asks for, or as many layers as fit if fewer do. */
  lemma PlanUsesMemory(budget: int, layerBytes: nat, layers: nat, ratio: Option<real>, layerMb: real)
    requires layerBytes > 0 && layers > 0 && layerBytes * layers > Usable(budget)
    ensures var count := ResidentCount(budget, layerBytes, layers, ratio, layerMb);
      var asked := PolicyCount(RatioOf(ratio), budget as real / BYTES_PER_GB, layerMb);
      && 0 <= count <= asked && layerBytes * count <= Usable(budget)
      && (count < asked ==> layerBytes * (count + 1) > Usable(budget))
  {
    hide PolicyCount, Usable;
    UsableIs(budget);
    var count := ResidentCount(budget, layerBytes, layers, ratio, layerMb);
    PolicyIsPositive(RatioOf(ratio), budget as real / BYTES_PER_GB, layerMb);
    FitsWhen(layerBytes, layers, Usable(budget));
    FitsWhen(layerBytes, count, Usable(budget));
    FitsWhen(layerBytes, count + 1, Usable(budget));
  }

  lemma PolicyIsPositive(ratio: real, ram: real, layerMb: real)
    ensures PolicyCount(ratio, ram, layerMb) >= MIN_RESIDENT_LAYERS
  {
    hide ResidentFloat, RoundHalfEven, MemoryLimit;
  }

  lemma UsableIs(budget: int)
    ensures var room := budget - OS_RESERVE_BYTES - WORKING_RESERVE_BYTES;
      Usable(budget) == if room < 0 then 0 else 3 * room / 4
  {}

  lemma FitsWhen(layerBytes: nat, layers: nat, usable: int)
    requires layerBytes > 0 && usable >= 0
    ensures layerBytes * layers >= layers
    ensures usable / layerBytes >= layers <==> layerBytes * layers <= usable
  {
    var q := usable / layerBytes;
    Scaled(1, layerBytes, layers);
    QuotientBound(usable, layerBytes);
    if q >= layers { Scaled(layers, q, layerBytes); } else { Scaled(q + 1, layers, layerBytes); }
  }

  lemma QuotientBound(a: int, d: int)
    requires d > 0
    ensures a / d * d <= a < (a / d + 1) * d
  {}

  method PlanResidency(total: int, layerBytes: int, layers: int, free: Option<int>, ratio: Option<real>, layerMb: real)
    returns (p: Plan)
    ensures p.residentCount + p.streamingCount == layers
    ensures p.residentCount == if layerBytes <= 0 || layers <= 0 then 0
                               else ResidentCount(MemoryBudget(total, free), layerBytes, layers, ratio, layerMb)
    ensures 0 <= p.residentBytes <= p.availableBytes == Usable(MemoryBudget(total, free))
    ensures layers > 0 ==> 0 <= p.residentCount <= layers
    ensures layers > 0 && layerBytes > 0 ==>
      p.residentBytes == p.residentCount * layerBytes && p.residentBytes + p.streamingBytes == layers * layerBytes
  {
    hide Trunc, ResidentFloat, PolicyCount;
    var budget := MemoryBudget(total, free);
    var usable := Usable(budget);
    if layerBytes <= 0 || layers <= 0 { return Plan(0, layers, 0, 0, usable); }
    var model := layerBytes * layers;
    var most := Min(layers, usable / layerBytes);
    if most <= 0 { return Plan(0, layers, 0, model, usable); }
    var count;
    if model <= usable {
      count := layers;
    } else {
      var policy := EstimateResidentCount(RatioOf(ratio), budget as real / BYTES_PER_GB, layerMb);
      count := Max(0, Min(most, policy.count));
    }
    FitsUsable(count, layers, layerBytes, usable);
    var streaming := layers - count;
    p := Plan(count, streaming, count * layerBytes, streaming * layerBytes, usable);
  }

  lemma FitsUsable(count: int, layers: int, layerBytes: int, usable: int)
    requires layerBytes > 0 && 0 <= count <= layers && usable >= 0
    requires (layerBytes * layers <= usable && count == layers) || count <= usable / layerBytes
    ensures 0 <= count * layerBytes <= usable
    ensures count * layerBytes + (layers - count) * layerBytes == layers * layerBytes
  {
    if count <= usable / layerBytes {
      Scaled(count, usable / layerBytes, layerBytes);
      assert usable / layerBytes * layerBytes <= usable;
    }
  }

  lemma QuotientInt(a: int, b: int, d: int)
    requires a <= b && d > 0
    ensures a / d <= b / d
  {
    var p, q := a / d, b / d;
    assert p * d <= a && b < q * d + d;
    if p > q { Scaled(q + 1, p, d); }
  }

  /** More memory, or a higher pipeline ratio, never makes fewer layers resident: through
      the policy, its clamps, the memory bound, and the jump when the whole model fits. */
  lemma PlanMonotone(budget: int, budget': int, layerBytes: nat, layers: nat, ratio: Option<real>,
                     ratio': Option<real>, layerMb: real)
    requires layerBytes > 0 && budget <= budget' && RatioOf(ratio) <= RatioOf(ratio')
    ensures ResidentCount(budget, layerBytes, layers, ratio, layerMb)
            <= ResidentCount(budget', layerBytes, layers, ratio', layerMb)
  {
    hide PolicyCount, Usable;
    UsableMonotone(budget, budget');
    QuotientInt(Usable(budget), Usable(budget'), layerBytes);
    Quotient(budget as real, budget' as real, BYTES_PER_GB);
    PolicyMonotone(RatioOf(ratio), RatioOf(ratio'), budget as real / BYTES_PER_GB, budget' as real / BYTES_PER_GB,
      layerMb);
  }

  lemma UsableMonotone(budget: int, budget': int)
    requires budget <= budget'
    ensures Usable(budget) <= Usable(budget')
  {
    var reserve := OS_RESERVE_BYTES + WORKING_RESERVE_BYTES;
    TruncMonotone((budget - reserve) as real * 0.75, (budget' - reserve) as real * 0.75);
  }

  /** In the planner's own terms: a larger machine with more memory free, and a machine whose
      free memory is not known, are planned at least as many resident layers. */
  lemma PlanGrowsWithMemory(
      total: int, total': int, free: int, free': int, layerBytes: nat, layers: nat, ratio: Option<real>, layerMb: real)
    requires layerBytes > 0 && total <= total' && free <= free'
    ensures ResidentCount(MemoryBudget(total, Some(free)), layerBytes, layers, ratio, layerMb)
            <= ResidentCount(MemoryBudget(total', Some(free')), layerBytes, layers, ratio, layerMb)
            <= ResidentCount(MemoryBudget(total', None), layerBytes, layers, ratio, layerMb)
  {
    hide ResidentCount;
    PlanMonotone(MemoryBudget(total, Some(free)), MemoryBudget(total', Some(free')), layerBytes, layers, ratio, ratio,
      layerMb);
    PlanMonotone(MemoryBudget(total', Some(free')), MemoryBudget(total', None), layerBytes, layers, ratio, ratio,
      layerMb);
  }
}
