/** The per-token time of a layer pipeline whose transfers overlap compute, and the
    bottleneck it is blamed on. Seconds are reals; bandwidths are given as the transfer time. */
module Overlap {
  import opened Arithmetic
  import opened Common

  datatype Timing = Timing(perToken: real, compute: real, transfer: real, stall: real)

  datatype Bottleneck = Memory | Transfer | Compute

  /** `n` steps of length `step` after `start`. */
  function Ramp(start: real, step: real, n: nat): real {
    if n == 0 then start else Ramp(start, step, n - 1) + step
  }

  lemma {:induction false} RampIsLinear(start: real, step: real, n: nat)
    ensures Ramp(start, step, n) == start + n as real * step
  {
    if n > 0 {
      RampIsLinear(start, step, n - 1);
      assert n as real * step == (n - 1) as real * step + step;
    }
  }

  lemma {:induction false} RampGrows(start: real, step: real, i: nat, j: nat)
    requires step >= 0.0 && i <= j
    ensures Ramp(start, step, i) <= Ramp(start, step, j)
    decreases j
  {
    if i < j { RampGrows(start, step, i, j - 1); }
  }

  /** When layer `i` starts computing, for overlapped transfers: independent of the window. */
  function StartTime(c: real, t: real, i: nat): real { Ramp(t, MaxReal(c, t), i) }

  /** The recurrence over layers; a window below one has no start to wait for and fails. */
  method TokenTime(c: real, t: real, layers: nat, window: int, overlap: bool) returns (r: Option<real>)
    requires c >= 0.0 && t >= 0.0
    ensures r.None? <==> overlap && window < 1 && layers > 0
    ensures r.Some? && layers > 0 ==>
      r.value == if overlap then StartTime(c, t, layers - 1) + c else Ramp(0.0, c + t, layers)
    ensures r.Some? && layers == 0 ==> r.value == 0.0
  {
    var computeEnd, transferAvailable := 0.0, 0.0;
    var starts: seq<real> := [];
    for i := 0 to layers
      invariant |starts| == i && (overlap && i > 0 ==> window >= 1)
      invariant overlap ==> forall j :: 0 <= j < i ==> starts[j] == StartTime(c, t, j)
      invariant overlap && i > 0 ==> computeEnd == starts[i - 1] + c
      invariant overlap && i > 0 ==>
        transferAvailable <= starts[i - 1] && (t >= c ==> transferAvailable == starts[i - 1])
      invariant !overlap ==> computeEnd == Ramp(0.0, c + t, i) && transferAvailable <= computeEnd
      invariant i == 0 ==> computeEnd == 0.0 && transferAvailable == 0.0
    {
      var transferStart: real;
      if overlap {
        if window < 1 { return None; }
        var prefetchStart := if i < window then 0.0 else starts[i - window];
        transferStart := MaxReal(transferAvailable, prefetchStart);
        if i >= window { RampGrows(t, MaxReal(c, t), i - window, i - 1); }
        if i > 0 { RampGrows(t, MaxReal(c, t), 0, i - 1); }
      } else {
        transferStart := MaxReal(transferAvailable, computeEnd);
      }
      var transferEnd := transferStart + t;
      transferAvailable := transferEnd;
      var computeStart := MaxReal(computeEnd, transferEnd);
      starts := starts + [computeStart];
      computeEnd := computeStart + c;
    }
    r := Some(computeEnd);
  }

  function StallOf(perToken: real, compute: real, transfer: real, overlap: bool): real {
    if overlap then MaxReal(perToken - MaxReal(compute, transfer), 0.0) else 0.0
  }

  method SimulateToken(c: real, t: real, layers: nat, window: int, overlap: bool) returns (r: Option<Timing>)
    requires c >= 0.0 && t >= 0.0
    ensures r.None? <==> overlap && window < 1 && layers > 0
    ensures r.Some? ==> r.value.compute == c * layers as real && r.value.transfer == t * layers as real
    ensures r.Some? && layers > 0 && overlap ==>
      r.value.perToken == t + (layers - 1) as real * MaxReal(c, t) + c && r.value.stall == MinReal(c, t)
    ensures r.Some? && layers > 0 && !overlap ==> r.value.perToken == layers as real * (c + t) && r.value.stall == 0.0
    ensures r.Some? && layers == 0 ==> r.value.perToken == 0.0 && r.value.stall == 0.0
  {
    var time := TokenTime(c, t, layers, window, overlap);
    if time.None? { return None; }
    hide Max, Min, Ramp, StallOf, StartTime;
    var compute, transfer := c * layers as real, t * layers as real;
    var stall := StallOf(time.value, compute, transfer, overlap);
    r := Some(Timing(time.value, compute, transfer, stall));
    NoStall(compute, transfer, time.value);
    if layers > 0 {
      ClosedForm(c, t, layers);
    } else {
      assert compute == 0.0 && transfer == 0.0;
    }
  }

  lemma NoStall(compute: real, transfer: real, perToken: real)
    ensures StallOf(perToken, compute, transfer, false) == 0.0
    ensures StallOf(0.0, 0.0, 0.0, true) == 0.0
  {}

  lemma ClosedForm(c: real, t: real, layers: nat)
    requires c >= 0.0 && t >= 0.0 && layers > 0
    ensures StartTime(c, t, layers - 1) + c == t + (layers - 1) as real * MaxReal(c, t) + c
    ensures Ramp(0.0, c + t, layers) == layers as real * (c + t)
    ensures StallOf(StartTime(c, t, layers - 1) + c, c * layers as real, t * layers as real, true) == MinReal(c, t)
  {
    hide Max, Min, Ramp, StallOf;
    RampIsLinear(t, MaxReal(c, t), layers - 1);
    RampIsLinear(0.0, c + t, layers);
    StallIsMin(c, t, layers);
  }

  lemma Scale(a: real, b: real, n: real)
    requires a <= b && n >= 0.0
    ensures a * n <= b * n
  {}

  lemma MaxScales(c: real, t: real, n: real)
    requires n >= 0.0
    ensures MaxReal(c * n, t * n) == MaxReal(c, t) * n
  {
    if t <= c { Scale(t, c, n); } else { Scale(c, t, n); }
  }

  lemma OneLess(m: real, n: real)
    ensures (n - 1.0) * m == m * n - m
  {}

  lemma StallSum(c: real, t: real, p: real)
    requires c >= 0.0 && t >= 0.0
    ensures MaxReal(t + (p - MaxReal(c, t)) + c - p, 0.0) == MinReal(c, t)
  {}

  /** The time not covered by the busier of the two resources is one run of the other. */
  lemma StallIsMin(c: real, t: real, layers: nat)
    requires c >= 0.0 && t >= 0.0 && layers > 0
    ensures StallOf(t + (layers - 1) as real * MaxReal(c, t) + c, c * layers as real, t * layers as real, true) ==
      MinReal(c, t)
  {
    hide Max, Min;
    var n, m := layers as real, MaxReal(c, t);
    assert (layers - 1) as real == n - 1.0;
    MaxScales(c, t, n);
    OneLess(m, n);
    StallSum(c, t, m * n);
  }

  /** What overlapping saves over loading and computing each layer in turn. */
  lemma OverlapSaves(c: real, t: real, layers: nat)
    requires layers > 0
    ensures layers as real * (c + t) - (t + (layers - 1) as real * MaxReal(c, t) + c) ==
      (layers - 1) as real * MinReal(c, t)
  {
    var n := layers as real;
    assert (layers - 1) as real == n - 1.0;
    assert c + t == MaxReal(c, t) + MinReal(c, t);
    assert n * (c + t) == (n - 1.0) * (c + t) + (c + t);
    assert (n - 1.0) * (MaxReal(c, t) + MinReal(c, t)) == (n - 1.0) * MaxReal(c, t) + (n - 1.0) * MinReal(c, t);
  }

  function Classify(t: Timing, fitsDevice: bool): Bottleneck {
    if !fitsDevice then Memory
    else if t.stall > t.compute * 0.2 && t.transfer >= t.compute then Transfer
    else Compute
  }

  /** A run is blamed on transfers exactly when it overlaps, fits, spends at least as long
      transferring a layer as computing it, and has fewer than five layers. */
  method ClassifyRun(c: real, t: real, layers: nat, window: int, overlap: bool, fitsDevice: bool)
    returns (b: Option<Bottleneck>)
    requires c >= 0.0 && t >= 0.0
    ensures b.None? <==> overlap && window < 1 && layers > 0
    ensures b.Some? ==> (b.value == Memory <==> !fitsDevice)
    ensures b.Some? ==> (b.value == Transfer <==> fitsDevice && overlap && 0 < layers < 5 && t >= c > 0.0)
  {
    var timing := SimulateToken(c, t, layers, window, overlap);
    if timing.None? { return None; }
    BlamedOnTransfer(c, t, layers, timing.value.stall);
    b := Some(Classify(timing.value, fitsDevice));
  }

  lemma BlamedOnTransfer(c: real, t: real, layers: nat, stall: real)
    requires c >= 0.0 && t >= 0.0 && (stall == 0.0 || (layers > 0 && stall == MinReal(c, t)))
    ensures stall > c * layers as real * 0.2 && t * layers as real >= c * layers as real
            <==> stall == MinReal(c, t) && 0 < layers < 5 && t >= c > 0.0
  {
    var n := layers as real;
    if layers > 0 {
      if t < c { assert t * n < c * n; } else { Scale(c, t, n); }
      if layers >= 5 { Scale(5.0, n, c); } else { Scale(n, 4.0, c); }
    }
  }
}
