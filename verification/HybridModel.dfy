/** A causal network of attention and gated-delta layers, its per-layer caches, and what a
    verification sweep leaves behind. Kernels are function values; a layer's cache is its
    attention rows, or its convolution window and recurrent state. */
module HybridModel {

  /** How one layer mixes tokens. `input` turns a convolution window and the hidden state
      into the delta-rule inputs of a position. */
  datatype Layer<!H, !X, !S> =
    | Attention(key: H -> X, attend: (seq<X>, H) -> H)
    | Linear(kernel: nat, project: H -> X, input: (seq<X>, H) -> X, delta: (S, X) -> S, read: (S, X, H) -> H)

  datatype State<X, S> = Kv(rows: seq<X>) | Recurrent(conv: seq<X>, state: S)

  ghost predicate Fits<H, X, S>(layer: Layer<H, X, S>, st: State<X, S>) {
    match layer
    case Attention(_, _) => st.Kv?
    case Linear(kernel, _, _, _, _) => st.Recurrent? && |st.conv| == kernel >= 1
  }

  ghost predicate AllFit<H, X, S>(net: seq<Layer<H, X, S>>, sts: seq<State<X, S>>) {
    |net| == |sts| && forall i :: 0 <= i < |net| ==> Fits(net[i], sts[i])
  }

  // ---------------------------------------------------------------- token by token

  /** One token through one layer: the single-token decode kernel. */
  function Step<H, X, S>(layer: Layer<H, X, S>, st: State<X, S>, h: H): (r: (State<X, S>, H))
    requires Fits(layer, st)
    ensures Fits(layer, r.0)
  {
    match layer
    case Attention(key, attend) =>
      var rows := st.rows + [key(h)];
      (Kv(rows), attend(rows, h))
    case Linear(_, project, input, delta, read) =>
      var conv := st.conv[1..] + [project(h)];
      var x := input(conv, h);
      var s := delta(st.state, x);
      (Recurrent(conv, s), read(s, x, h))
  }

  function Run<H, X, S>(layer: Layer<H, X, S>, st: State<X, S>, hs: seq<H>): (r: (State<X, S>, seq<H>))
    requires Fits(layer, st)
    ensures Fits(layer, r.0) && |r.1| == |hs|
  {
    if hs == [] then (st, [])
    else
      var before := Run(layer, st, hs[..|hs| - 1]);
      var last := Step(layer, before.0, hs[|hs| - 1]);
      (last.0, before.1 + [last.1])
  }

  /** A whole chunk through the network, one layer at a time. */
  function Sweep<H, X, S>(net: seq<Layer<H, X, S>>, sts: seq<State<X, S>>, hs: seq<H>): (r: (seq<State<X, S>>, seq<H>))
    requires AllFit(net, sts)
    ensures AllFit(net, r.0) && |r.1| == |hs|
  {
    if net == [] then ([], hs)
    else
      var first := Run(net[0], sts[0], hs);
      var rest := Sweep(net[1..], sts[1..], first.1);
      ([first.0] + rest.0, rest.1)
  }

  lemma {:induction false} RunSplit<H, X, S>(layer: Layer<H, X, S>, st: State<X, S>, a: seq<H>, b: seq<H>)
    requires Fits(layer, st)
    ensures var ra := Run(layer, st, a);
      Run(layer, st, a + b) == (Run(layer, ra.0, b).0, ra.1 + Run(layer, ra.0, b).1)
  {
    var ra := Run(layer, st, a);
    if b == [] {
      assert a + b == a;
      assert ra.1 + [] == ra.1;
    } else {
      RunSplit(layer, st, a, b[..|b| - 1]);
      assert (a + b)[..|a + b| - 1] == a + b[..|b| - 1];
      var rb := Run(layer, ra.0, b[..|b| - 1]);
      var last := Step(layer, rb.0, b[|b| - 1]).1;
      assert ra.1 + (rb.1 + [last]) == (ra.1 + rb.1) + [last];
    }
  }

  /** Layer-major order over a chunk is the same as feeding its parts one after the other. */
  lemma {:induction false} SweepSplit<H, X, S>(net: seq<Layer<H, X, S>>, sts: seq<State<X, S>>, a: seq<H>, b: seq<H>)
    requires AllFit(net, sts)
    ensures var ra := Sweep(net, sts, a);
      Sweep(net, sts, a + b) == (Sweep(net, ra.0, b).0, ra.1 + Sweep(net, ra.0, b).1)
  {
    if net != [] {
      RunSplit(net[0], sts[0], a, b);
      var first := Run(net[0], sts[0], a);
      SweepSplit(net[1..], sts[1..], first.1, Run(net[0], first.0, b).1);
      var ra := Sweep(net, sts, a);
      assert ra.0[1..] == Sweep(net[1..], sts[1..], first.1).0;
    }
  }

  lemma SweepPrefix<H, X, S>(net: seq<Layer<H, X, S>>, sts: seq<State<X, S>>, hs: seq<H>, keep: nat)
    requires AllFit(net, sts) && keep <= |hs|
    ensures Sweep(net, sts, hs[..keep]).1 == Sweep(net, sts, hs).1[..keep]
  {
    SweepSplit(net, sts, hs[..keep], hs[keep..]);
    assert hs[..keep] + hs[keep..] == hs;
  }

  // ---------------------------------------------------------------- chunked linear attention

  /** The causal-convolution input of a chunk: the old window, then the projected tokens. */
  function ConvInput<H, X, S>(layer: Layer<H, X, S>, conv: seq<X>, hs: seq<H>): seq<X>
    requires layer.Linear?
  {
    conv + seq(|hs|, i requires 0 <= i < |hs| => layer.project(hs[i]))
  }

  /** The delta-rule inputs of a chunk, read off its convolution input. */
  function DeltaInputs<H, X, S>(layer: Layer<H, X, S>, x: seq<X>, hs: seq<H>): seq<X>
    requires layer.Linear? && |x| == layer.kernel + |hs|
  {
    seq(|hs|, i requires 0 <= i < |hs| => layer.input(x[i + 1..i + 1 + layer.kernel], hs[i]))
  }

  function Fold<X, S>(delta: (S, X) -> S, s: S, xs: seq<X>): S {
    if xs == [] then s else delta(Fold(delta, s, xs[..|xs| - 1]), xs[|xs| - 1])
  }

  /** What a sweep records of a linear layer; `initial` is the state before the sweep. */
  datatype Call<X, S> = Call(x: seq<X>, inputs: seq<X>, initial: S)

  function CallOf<H, X, S>(layer: Layer<H, X, S>, st: State<X, S>, hs: seq<H>): Call<X, S>
    requires layer.Linear? && Fits(layer, st)
  {
    var x := ConvInput(layer, st.conv, hs);
    Call(x, DeltaInputs(layer, x, hs), st.state)
  }

  /** The linear state recomputed for the first `keep` tokens of a recorded chunk. */
  function Recomputed<X, S>(kernel: nat, delta: (S, X) -> S, call: Call<X, S>, keep: nat): State<X, S>
    requires keep + kernel <= |call.x| && keep <= |call.inputs|
  {
    Recurrent(call.x[keep..keep + kernel], Fold(delta, call.initial, call.inputs[..keep]))
  }

  /** Sliding the window over the recorded input is the same as shifting it token by token,
      and folding the recorded inputs is the same as running the single-token kernel. */
  lemma {:induction false} RecomputedIsRun<H, X, S>(layer: Layer<H, X, S>, st: State<X, S>, hs: seq<H>, keep: nat)
    requires layer.Linear? && Fits(layer, st) && keep <= |hs|
    ensures Run(layer, st, hs[..keep]).0 == Recomputed(layer.kernel, layer.delta, CallOf(layer, st, hs), keep)
    decreases keep
  {
    if keep == 0 {
      assert CallOf(layer, st, hs).x[0..layer.kernel] == st.conv;
    } else {
      hide CallOf, Recomputed;
      CallSizes(layer, st, hs);
      RecomputedIsRun(layer, st, hs, keep - 1);
      assert hs[..keep][..keep - 1] == hs[..keep - 1];
      RecomputedStep(layer, st, hs, keep - 1);
    }
  }

  lemma CallSizes<H, X, S>(layer: Layer<H, X, S>, st: State<X, S>, hs: seq<H>)
    requires layer.Linear? && Fits(layer, st)
    ensures var call := CallOf(layer, st, hs); |call.x| == layer.kernel + |hs| && |call.inputs| == |hs|
  {}

  /** Keeping one token more is one single-token step. */
  lemma RecomputedStep<H, X, S>(layer: Layer<H, X, S>, st: State<X, S>, hs: seq<H>, keep: nat)
    requires layer.Linear? && Fits(layer, st) && keep < |hs|
    ensures var call := CallOf(layer, st, hs);
      var before := Recomputed(layer.kernel, layer.delta, call, keep);
      Fits(layer, before) && Recomputed(layer.kernel, layer.delta, call, keep + 1) == Step(layer, before, hs[keep]).0
  {
    hide Fold;
    var call := CallOf(layer, st, hs);
    WindowStep(layer, st.conv, hs, keep);
    FoldStep(layer.delta, call.initial, call.inputs, keep);
  }

  /** The window moves on by one: it drops its first entry and takes in the next token's. */
  lemma WindowStep<H, X, S>(layer: Layer<H, X, S>, conv: seq<X>, hs: seq<H>, keep: nat)
    requires layer.Linear? && |conv| == layer.kernel >= 1 && keep < |hs|
    ensures var x := ConvInput(layer, conv, hs);
      x[keep..keep + layer.kernel][1..] + [layer.project(hs[keep])] == x[keep + 1..keep + 1 + layer.kernel]
  {}

  lemma FoldStep<X, S>(delta: (S, X) -> S, s: S, xs: seq<X>, keep: nat)
    requires keep < |xs|
    ensures Fold(delta, s, xs[..keep + 1]) == delta(Fold(delta, s, xs[..keep]), xs[keep])
  {
    assert xs[..keep + 1][..keep] == xs[..keep];
  }

  // ---------------------------------------------------------------- rollback

  lemma {:induction false} AttentionRows<H, X, S>(layer: Layer<H, X, S>, st: State<X, S>, hs: seq<H>)
    requires layer.Attention? && Fits(layer, st)
    ensures Run(layer, st, hs).0 == Kv(st.rows + seq(|hs|, i requires 0 <= i < |hs| => layer.key(hs[i])))
  {
    if hs != [] {
      AttentionRows(layer, st, hs[..|hs| - 1]);
      assert seq(|hs|, i requires 0 <= i < |hs| => layer.key(hs[i]))
        == seq(|hs| - 1, i requires 0 <= i < |hs| - 1 => layer.key(hs[..|hs| - 1][i])) + [layer.key(hs[|hs| - 1])];
    }
  }

  /** Cropping attention rows leaves exactly the state of feeding only the kept tokens. */
  lemma CroppedIsRun<H, X, S>(layer: Layer<H, X, S>, st: State<X, S>, hs: seq<H>, keep: nat)
    requires layer.Attention? && Fits(layer, st) && keep <= |hs|
    ensures var rows := Run(layer, st, hs).0.rows;
      |hs| <= |rows| && Run(layer, st, hs[..keep]).0 == Kv(rows[..|rows| - (|hs| - keep)])
  {
    AttentionRows(layer, st, hs);
    AttentionRows(layer, st, hs[..keep]);
  }

  // ---------------------------------------------------------------- the whole network

  /** The calls a sweep records: one per linear layer, in layer order. */
  function Calls<H, X, S>(net: seq<Layer<H, X, S>>, sts: seq<State<X, S>>, hs: seq<H>): seq<Call<X, S>>
    requires AllFit(net, sts)
  {
    if net == [] then []
    else
      var later := Calls(net[1..], sts[1..], Run(net[0], sts[0], hs).1);
      if net[0].Linear? then [CallOf(net[0], sts[0], hs)] + later else later
  }

  function LinearCount<H, X, S>(net: seq<Layer<H, X, S>>): nat {
    if net == [] then 0 else (if net[0].Linear? then 1 else 0) + LinearCount(net[1..])
  }

  lemma {:induction false} CallsCount<H, X, S>(net: seq<Layer<H, X, S>>, sts: seq<State<X, S>>, hs: seq<H>)
    requires AllFit(net, sts)
    ensures |Calls(net, sts, hs)| == LinearCount(net)
  {
    if net != [] { CallsCount(net[1..], sts[1..], Run(net[0], sts[0], hs).1); }
  }

  /** A record whose slices are in range for rewinding every layer. */
  ghost predicate Rewindable<H, X, S>(net: seq<Layer<H, X, S>>, after: seq<State<X, S>>, calls: seq<Call<X, S>>,
                                      keep: nat, fed: nat)
  {
    && AllFit(net, after) && keep <= fed && |calls| == LinearCount(net)
    && (net != [] ==>
          if net[0].Linear? then
            keep + net[0].kernel <= |calls[0].x| && keep <= |calls[0].inputs|
            && Rewindable(net[1..], after[1..], calls[1..], keep, fed)
          else fed <= |after[0].rows| && Rewindable(net[1..], after[1..], calls, keep, fed))
  }

  /** Every layer rewound, linear layers consuming the recorded calls in order. */
  function RewoundAll<H, X, S>(net: seq<Layer<H, X, S>>, after: seq<State<X, S>>, calls: seq<Call<X, S>>,
                               keep: nat, fed: nat): (r: seq<State<X, S>>)
    requires Rewindable(net, after, calls, keep, fed)
    ensures |r| == |net|
  {
    if net == [] then []
    else if net[0].Linear? then
      [Recomputed(net[0].kernel, net[0].delta, calls[0], keep)]
      + RewoundAll(net[1..], after[1..], calls[1..], keep, fed)
    else
      [Kv(after[0].rows[..|after[0].rows| - (fed - keep)])] + RewoundAll(net[1..], after[1..], calls, keep, fed)
  }

  /** Feeding `hs` and rolling back to `keep` is, in every layer, feeding only the first `keep`. */
  lemma {:induction false} RollbackIsPrefix<H, X, S>(net: seq<Layer<H, X, S>>, sts: seq<State<X, S>>, hs: seq<H>,
                                                     keep: nat)
    requires AllFit(net, sts) && keep <= |hs|
    ensures Rewindable(net, Sweep(net, sts, hs).0, Calls(net, sts, hs), keep, |hs|)
    ensures RewoundAll(net, Sweep(net, sts, hs).0, Calls(net, sts, hs), keep, |hs|) == Sweep(net, sts, hs[..keep]).0
  {
    hide Run;
    CallsCount(net, sts, hs);
    if net != [] {
      var first := Run(net[0], sts[0], hs);
      var after, calls := Sweep(net, sts, hs).0, Calls(net, sts, hs);
      assert after[1..] == Sweep(net[1..], sts[1..], first.1).0;
      RollbackIsPrefix(net[1..], sts[1..], first.1, keep);
      RunPrefix(net[0], sts[0], hs, keep);
      if net[0].Linear? {
        assert calls[1..] == Calls(net[1..], sts[1..], first.1);
        RecomputedIsRun(net[0], sts[0], hs, keep);
      } else {
        CroppedIsRun(net[0], sts[0], hs, keep);
      }
    }
  }

  lemma RunPrefix<H, X, S>(layer: Layer<H, X, S>, st: State<X, S>, hs: seq<H>, keep: nat)
    requires Fits(layer, st) && keep <= |hs|
    ensures Run(layer, st, hs[..keep]).1 == Run(layer, st, hs).1[..keep]
  {
    RunSplit(layer, st, hs[..keep], hs[keep..]);
    assert hs[..keep] + hs[keep..] == hs;
  }

  /** One more layer of a sweep in progress. */
  lemma SweepOneLayer<H, X, S>(net: seq<Layer<H, X, S>>, sts: seq<State<X, S>>, hs: seq<H>, i: nat)
    requires AllFit(net, sts) && i < |net|
    ensures var r, rest := Run(net[i], sts[i], hs), Sweep(net[i + 1..], sts[i + 1..], Run(net[i], sts[i], hs).1);
      && Sweep(net[i..], sts[i..], hs) == ([r.0] + rest.0, rest.1)
      && Calls(net[i..], sts[i..], hs)
         == (if net[i].Linear? then [CallOf(net[i], sts[i], hs)] else []) + Calls(net[i + 1..], sts[i + 1..], r.1)
  {
    assert net[i..][1..] == net[i + 1..] && sts[i..][1..] == sts[i + 1..];
  }
}
