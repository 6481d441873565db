/** Caches held in tensors that the forward pass and the rollback overwrite in place. */
module HybridRollback {
  import opened HybridModel

  datatype Error = KeepOutOfRange | SweepNotRecordedWhole

  datatype Outcome = Done | Raised(error: Error)

  class Tensor<T> {
    var data: T

    constructor (value: T)
      ensures data == value
    {
      data := value;
    }

    /** Overwrite the contents; every holder of this tensor sees the change. */
    method Copy(value: T)
      modifies this
      ensures data == value
    {
      data := value;
    }

    method Clone() returns (t: Tensor<T>)
      ensures fresh(t) && t.data == data
    {
      t := new Tensor(data);
    }
  }

  datatype LayerCache<X, S> =
    | AttentionCache(rows: Tensor<seq<X>>)
    | LinearCache(conv: Tensor<seq<X>>, recurrent: Tensor<S>)
  {
    function Objects(): set<object> {
      match this
      case AttentionCache(rows) => var a: object := rows; {a}
      case LinearCache(conv, recurrent) => var a: object, b: object := conv, recurrent; {a, b}
    }

    function Value(): State<X, S>
      reads Objects()
    {
      match this
      case AttentionCache(rows) => Kv(rows.data)
      case LinearCache(conv, recurrent) => Recurrent(conv.data, recurrent.data)
    }
  }

  ghost function Footprint<X, S>(cache: seq<LayerCache<X, S>>): set<object> {
    set i, o | 0 <= i < |cache| && o in cache[i].Objects() :: o
  }

  /** No two layers share a tensor, and a layer's own tensors differ. */
  ghost predicate Separate<X, S>(cache: seq<LayerCache<X, S>>) {
    && (forall i, j :: 0 <= i < j < |cache| ==> cache[i].Objects() !! cache[j].Objects())
    && (forall i :: 0 <= i < |cache| && cache[i].LinearCache? ==> |cache[i].Objects()| == 2)
  }

  ghost predicate Holds<X, S>(cache: seq<LayerCache<X, S>>, sts: seq<State<X, S>>)
    reads Footprint(cache)
  {
    |cache| == |sts| && forall i :: 0 <= i < |cache| ==> cache[i].Value() == sts[i]
  }

  /** One recorded delta-rule call; `initial` is a tensor of its own. */
  datatype DeltaCall<X, S> = DeltaCall(inputs: seq<X>, initial: Tensor<S>)

  datatype Record<X, S> = Record(convInputs: seq<seq<X>>, deltaCalls: seq<DeltaCall<X, S>>)

  ghost function Owned<X, S>(record: Record<X, S>): set<object> {
    set k | 0 <= k < |record.deltaCalls| :: record.deltaCalls[k].initial
  }

  /** The record holds exactly `calls`. */
  ghost predicate Recorded<X, S>(record: Record<X, S>, calls: seq<Call<X, S>>)
    reads Owned(record)
  {
    && |record.convInputs| == |record.deltaCalls| == |calls|
    && forall k :: 0 <= k < |calls| ==>
         && record.convInputs[k] == calls[k].x
         && record.deltaCalls[k].inputs == calls[k].inputs
         && record.deltaCalls[k].initial.data == calls[k].initial
  }

  /** Run one layer over a chunk, overwriting its tensors. */
  method RunLayer<H, X, S>(layer: Layer<H, X, S>, cache: LayerCache<X, S>, hs: seq<H>) returns (out: seq<H>)
    requires Fits(layer, cache.Value()) && (cache.LinearCache? ==> |cache.Objects()| == 2)
    modifies cache.Objects()
    ensures (cache.Value(), out) == Run(layer, old(cache.Value()), hs)
  {
    var r := Run(layer, cache.Value(), hs);
    out := r.1;
    match cache {
      case AttentionCache(rows) => rows.Copy(r.0.rows);
      case LinearCache(conv, recurrent) =>
        conv.Copy(r.0.conv);
        recurrent.Copy(r.0.state);
    }
  }

  /** A verification sweep through one layer; a linear layer's convolution input, delta
      inputs and a clone of its incoming state are appended to the record. */
  method SweepLayer<H, X, S>(layer: Layer<H, X, S>, cache: LayerCache<X, S>, hs: seq<H>, record: Record<X, S>,
                             ghost calls: seq<Call<X, S>>)
    returns (out: seq<H>, record': Record<X, S>)
    requires Fits(layer, cache.Value()) && (cache.LinearCache? ==> |cache.Objects()| == 2)
    requires Recorded(record, calls) && Owned(record) !! cache.Objects()
    modifies cache.Objects()
    ensures (cache.Value(), out) == Run(layer, old(cache.Value()), hs)
    ensures fresh(Owned(record') - Owned(record))
    ensures Recorded(record', calls + if layer.Linear? then [CallOf(layer, old(cache.Value()), hs)] else [])
  {
    record' := record;
    if layer.Linear? {
      var x := ConvInput(layer, cache.conv.data, hs);
      var initial := cache.recurrent.Clone();
      var call := DeltaCall(DeltaInputs(layer, x, hs), initial);
      record' := Record(record.convInputs + [x], record.deltaCalls + [call]);
      OwnedAppend(record, x, call);
    }
    out := RunLayer(layer, cache, hs);
  }

  lemma OwnedAppend<X, S>(record: Record<X, S>, x: seq<X>, call: DeltaCall<X, S>)
    ensures Owned(Record(record.convInputs + [x], record.deltaCalls + [call])) == Owned(record) + {call.initial}
  {
    var calls := record.deltaCalls + [call];
    assert calls[|record.deltaCalls|] == call;
    forall o | o in Owned(record) ensures exists k :: 0 <= k < |calls| && calls[k].initial == o {
      var k :| 0 <= k < |record.deltaCalls| && record.deltaCalls[k].initial == o;
      assert calls[k].initial == o;
    }
  }

  /** After `i` layers: `done` and `calls` are finished, `out` goes into the rest. */
  ghost predicate Remaining<H, X, S>(net: seq<Layer<H, X, S>>, sts: seq<State<X, S>>, hs: seq<H>, i: nat, out: seq<H>,
                                     done: seq<State<X, S>>, calls: seq<Call<X, S>>)
    requires AllFit(net, sts) && i <= |net|
  {
    var rest := Sweep(net[i..], sts[i..], out);
    && Sweep(net, sts, hs).0 == done + rest.0 && Sweep(net, sts, hs).1 == rest.1
    && Calls(net, sts, hs) == calls + Calls(net[i..], sts[i..], out)
  }

  lemma RemainingBounds<H, X, S>(net: seq<Layer<H, X, S>>, sts: seq<State<X, S>>, hs: seq<H>, out: seq<H>,
                                 done: seq<State<X, S>>, calls: seq<Call<X, S>>)
    requires AllFit(net, sts)
    ensures Remaining(net, sts, hs, 0, hs, [], [])
    ensures Remaining(net, sts, hs, |net|, out, done, calls) ==>
              Sweep(net, sts, hs) == (done, out) && Calls(net, sts, hs) == calls
  {
    assert net[0..] == net && sts[0..] == sts && net[|net|..] == [];
    assert forall x: seq<State<X, S>> :: x + [] == x && [] + x == x;
    assert forall x: seq<Call<X, S>> :: x + [] == x && [] + x == x;
  }

  lemma RemainingStep<H, X, S>(net: seq<Layer<H, X, S>>, sts: seq<State<X, S>>, hs: seq<H>, i: nat, out: seq<H>,
                               done: seq<State<X, S>>, calls: seq<Call<X, S>>)
    requires AllFit(net, sts) && i < |net| && Remaining(net, sts, hs, i, out, done, calls)
    ensures var r := Run(net[i], sts[i], out);
      Remaining(net, sts, hs, i + 1, r.1, done + [r.0],
                calls + if net[i].Linear? then [CallOf(net[i], sts[i], out)] else [])
  {
    hide Sweep;
    SweepOneLayer(net, sts, out, i);
    var r := Run(net[i], sts[i], out);
    var now := if net[i].Linear? then [CallOf(net[i], sts[i], out)] else [];
    assert done + ([r.0] + Sweep(net[i + 1..], sts[i + 1..], r.1).0) ==
      (done + [r.0]) + Sweep(net[i + 1..], sts[i + 1..], r.1).0;
    assert calls + (now + Calls(net[i + 1..], sts[i + 1..], r.1)) ==
      (calls + now) + Calls(net[i + 1..], sts[i + 1..], r.1);
  }

  /** A verification sweep: every layer runs over the fed tokens and is recorded. */
  method VerifySweep<H, X, S>(net: seq<Layer<H, X, S>>, cache: seq<LayerCache<X, S>>, hs: seq<H>,
                              ghost sts: seq<State<X, S>>)
    returns (out: seq<H>, record: Record<X, S>)
    requires AllFit(net, sts) && Separate(cache) && Holds(cache, sts)
    modifies Footprint(cache)
    ensures Holds(cache, Sweep(net, sts, hs).0) && out == Sweep(net, sts, hs).1
    ensures fresh(Owned(record)) && Recorded(record, Calls(net, sts, hs))
  {
    hide Owned;
    hide Footprint, Holds, Separate, Calls, Sweep, Fits, CallOf, Run, Remaining, Recorded;
    out, record := hs, Record([], []);
    ghost var done: seq<State<X, S>> := [];
    ghost var calls: seq<Call<X, S>> := [];
    RemainingBounds(net, sts, hs, out, done, calls);
    HeldSize(cache, sts);
    EmptyRecord<X, S>();
    assert sts[0..] == sts && [] + sts == sts;
    for i := 0 to |net|
      invariant |done| == i
      invariant Remaining(net, sts, hs, i, out, done, calls)
      invariant Holds(cache, done + sts[i..])
      invariant fresh(Owned(record)) && Owned(record) !! Footprint(cache) && Recorded(record, calls)
    {
      RemainingStep(net, sts, hs, i, out, done, calls);
      InFootprint(cache, i);
      ghost var held, now := done + sts[i..], if net[i].Linear? then [CallOf(net[i], sts[i], out)] else [];
      ghost var after := Run(net[i], sts[i], out).0;
      out, record := SweepCache(net[i], cache, i, held, out, record, calls);
      assert held[i := after] == done + [after] + sts[i + 1..];
      done, calls := done + [after], calls + now;
    }
    assert done + sts[|net|..] == done;
    RemainingBounds(net, sts, hs, out, done, calls);
  }

  function NoRecord<X, S>(): Record<X, S> { Record([], []) }

  lemma EmptyRecord<X, S>()
    ensures Owned(NoRecord<X, S>()) == {} && Recorded(NoRecord<X, S>(), [])
  {}

  lemma HeldSize<X, S>(cache: seq<LayerCache<X, S>>, sts: seq<State<X, S>>)
    requires Holds(cache, sts)
    ensures |cache| == |sts|
  {}

  /** Sweep one layer's tensors; those of all other layers keep what they hold. */
  method SweepCache<H, X, S>(layer: Layer<H, X, S>, cache: seq<LayerCache<X, S>>, i: nat, ghost held: seq<State<X, S>>,
                             hs: seq<H>, record: Record<X, S>, ghost calls: seq<Call<X, S>>)
    returns (out: seq<H>, record': Record<X, S>)
    requires Separate(cache) && Holds(cache, held) && i < |cache| && i < |held| && Fits(layer, held[i])
    requires Recorded(record, calls) && Owned(record) !! Footprint(cache)
    modifies cache[i].Objects()
    ensures Holds(cache, held[i := Run(layer, held[i], hs).0]) && out == Run(layer, held[i], hs).1
    ensures fresh(Owned(record') - Owned(record)) && Owned(record') !! Footprint(cache)
    ensures Recorded(record', calls + if layer.Linear? then [CallOf(layer, held[i], hs)] else [])
  {
    hide Fits, CallOf, Run, Recorded, Footprint, Owned;
    ApartFrom(cache, i);
    InFootprint(cache, i);
    FootprintAllocated(cache);
    out, record' := SweepLayer(layer, cache[i], hs, record, calls);
  }

  lemma ApartFrom<X, S>(cache: seq<LayerCache<X, S>>, i: nat)
    requires Separate(cache) && i < |cache|
    ensures forall j :: 0 <= j < |cache| && j != i ==> cache[j].Objects() !! cache[i].Objects()
  {}

  lemma FootprintAllocated<X, S>(cache: seq<LayerCache<X, S>>)
    ensures forall o :: o in Footprint(cache) ==> allocated(o)
  {}

  lemma InFootprint<X, S>(cache: seq<LayerCache<X, S>>, i: nat)
    requires i < |cache|
    ensures cache[i].Objects() <= Footprint(cache)
  {}

  // ---------------------------------------------------------------- rollback

  /** After rewinding `i` layers, `k` of them linear, the rest of `target` is still to come. */
  ghost predicate Rewinding<H, X, S>(net: seq<Layer<H, X, S>>, after: seq<State<X, S>>, calls: seq<Call<X, S>>,
                                     keep: nat, fed: nat, i: nat, k: nat, target: seq<State<X, S>>)
  {
    && |net| == |after| == |target| && i <= |net| && k <= |calls|
    && Rewindable(net[i..], after[i..], calls[k..], keep, fed)
    && target[i..] == RewoundAll(net[i..], after[i..], calls[k..], keep, fed)
  }

  lemma RewindingStarts<H, X, S>(net: seq<Layer<H, X, S>>, after: seq<State<X, S>>, calls: seq<Call<X, S>>,
                                 keep: nat, fed: nat)
    requires Rewindable(net, after, calls, keep, fed)
    ensures Rewinding(net, after, calls, keep, fed, 0, 0, RewoundAll(net, after, calls, keep, fed))
  {
    assert net[0..] == net && after[0..] == after && calls[0..] == calls;
  }

  lemma RewindingStep<H, X, S>(net: seq<Layer<H, X, S>>, after: seq<State<X, S>>, calls: seq<Call<X, S>>,
                               keep: nat, fed: nat, i: nat, k: nat, target: seq<State<X, S>>)
    requires Rewinding(net, after, calls, keep, fed, i, k, target) && i < |net|
    ensures Fits(net[i], after[i]) && keep <= fed
    ensures net[i].Linear? ==>
              && k < |calls| && keep + net[i].kernel <= |calls[k].x| && keep <= |calls[k].inputs|
              && target[i] == Recomputed(net[i].kernel, net[i].delta, calls[k], keep)
              && Rewinding(net, after, calls, keep, fed, i + 1, k + 1, target)
    ensures net[i].Attention? ==>
              && fed <= |after[i].rows| && target[i] == Kv(after[i].rows[..|after[i].rows| - (fed - keep)])
              && Rewinding(net, after, calls, keep, fed, i + 1, k, target)
  {
    assert net[i..][0] == net[i] && after[i..][0] == after[i] && target[i..][0] == target[i];
    assert net[i..][1..] == net[i + 1..] && after[i..][1..] == after[i + 1..] && target[i..][1..] == target[i + 1..];
    if net[i].Linear? { assert calls[k..][0] == calls[k] && calls[k..][1..] == calls[k + 1..]; }
  }

  /** Rewind the caches in place to the first `keep` of the `fed` tokens of the recorded sweep.
      A complete record must be the record of that sweep; an incomplete one is refused. */
  method Rollback<H, X, S>(net: seq<Layer<H, X, S>>, cache: seq<LayerCache<X, S>>, record: Record<X, S>, keep: int,
                           fed: nat,
                           ghost sts: seq<State<X, S>>, ghost hs: seq<H>)
    returns (outcome: Outcome)
    requires AllFit(net, sts) && |hs| == fed && Separate(cache) && Holds(cache, Sweep(net, sts, hs).0)
    requires Owned(record) !! Footprint(cache)
    requires |record.convInputs| == |record.deltaCalls| == LinearCount(net) ==> Recorded(record, Calls(net, sts, hs))
    modifies Footprint(cache)
    ensures keep >= fed ==> outcome == Done && Holds(cache, Sweep(net, sts, hs).0)
    ensures keep < 1 && keep < fed ==> outcome == Raised(KeepOutOfRange) && Holds(cache, Sweep(net, sts, hs).0)
    ensures 1 <= keep < fed && !(|record.convInputs| == |record.deltaCalls| == LinearCount(net)) ==>
              outcome == Raised(SweepNotRecordedWhole) && Holds(cache, Sweep(net, sts, hs).0)
    ensures 1 <= keep < fed && |record.convInputs| == |record.deltaCalls| == LinearCount(net) ==>
              outcome == Done && Holds(cache, Sweep(net, sts, hs[..keep]).0)
  {
    var remove := fed - keep;
    if remove <= 0 { return Done; }
    if !(1 <= keep <= fed) { return Raised(KeepOutOfRange); }
    if |record.convInputs| != LinearCount(net) || |record.deltaCalls| != LinearCount(net) {
      return Raised(SweepNotRecordedWhole);
    }
    RollbackIsPrefix(net, sts, hs, keep);
    RewindLayers(net, cache, record, keep, fed, Sweep(net, sts, hs).0, Calls(net, sts, hs));
    outcome := Done;
  }

  /** Rewind one layer in place; `k` counts the linear layers before it. */
  method RewindLayer<H, X, S>(layer: Layer<H, X, S>, cache: LayerCache<X, S>, record: Record<X, S>, k: nat,
                              keep: nat, fed: nat, ghost calls: seq<Call<X, S>>)
    requires Fits(layer, cache.Value()) && keep <= fed
    requires cache.LinearCache? ==> |cache.Objects()| == 2
    requires Owned(record) !! cache.Objects() && Recorded(record, calls)
    requires layer.Attention? ==> fed <= |cache.Value().rows|
    requires layer.Linear? ==> k < |calls| && keep + layer.kernel <= |calls[k].x| && keep <= |calls[k].inputs|
    modifies cache.Objects()
    ensures cache.Value() == match layer
                             case Attention(_, _) =>
                               Kv(old(cache.Value()).rows[..|old(cache.Value()).rows| - (fed - keep)])
                             case Linear(kernel, _, _, delta, _) => Recomputed(kernel, delta, calls[k], keep)
  {
    match cache {
      case AttentionCache(rows) =>
        rows.Copy(rows.data[..|rows.data| - (fed - keep)]);
      case LinearCache(conv, recurrent) =>
        var x, call := record.convInputs[k], record.deltaCalls[k];
        var kernel := |conv.data|;
        conv.Copy(x[keep..keep + kernel]);
        recurrent.Copy(Fold(layer.delta, call.initial.data, call.inputs[..keep]));
    }
  }

  method RewindLayers<H, X, S>(net: seq<Layer<H, X, S>>, cache: seq<LayerCache<X, S>>, record: Record<X, S>,
                               keep: nat, fed: nat, ghost after: seq<State<X, S>>, ghost calls: seq<Call<X, S>>)
    requires Rewindable(net, after, calls, keep, fed) && Separate(cache) && Holds(cache, after)
    requires Owned(record) !! Footprint(cache) && Recorded(record, calls)
    modifies Footprint(cache)
    ensures Holds(cache, RewoundAll(net, after, calls, keep, fed))
  {
    hide Footprint, Rewinding, Rewindable, Recomputed, RewoundAll, Recorded, Fits;
    ghost var target := RewoundAll(net, after, calls, keep, fed);
    RewindingStarts(net, after, calls, keep, fed);
    var k := 0;
    for i := 0 to |net|
      invariant Rewinding(net, after, calls, keep, fed, i, k, target)
      invariant forall j :: 0 <= j < |cache| ==> cache[j].Value() == if j < i then target[j] else after[j]
      invariant Recorded(record, calls)
    {
      RewindingStep(net, after, calls, keep, fed, i, k, target);
      InFootprint(cache, i);
      RewindLayer(net[i], cache[i], record, k, keep, fed, calls);
      if net[i].Linear? { k := k + 1; }
    }
  }
}
