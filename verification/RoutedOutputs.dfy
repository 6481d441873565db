/** The mixture-of-experts switch: at prefill each expert runs once over all rows routed to
    it and an inverse permutation puts the results back in (token, k) order.

    `apply` is one expert on one row; that a batch of rows is computed row by row is the
    hypothesis under which grouping can be compared with running each pair alone. */
module RoutedOutputs {
  import opened Arithmetic
  import opened Common
  import opened ExpertCache

  // ---------------------------------------------------------------- row-major positions

  /** Rows laid end to end. */
  function Flatten<T>(rows: seq<seq<T>>): seq<T> {
    if rows == [] then [] else Flatten(rows[..|rows| - 1]) + rows[|rows| - 1]
  }

  ghost predicate Width<T>(rows: seq<seq<T>>, k: nat) { forall t :: 0 <= t < |rows| ==> |rows[t]| == k }

  lemma {:induction false} FlattenAt<T>(rows: seq<seq<T>>, k: nat, t: nat, j: nat)
    requires Width(rows, k) && t < |rows| && j < k
    ensures |Flatten(rows)| == |rows| * k && t * k + j < |rows| * k
    ensures Flatten(rows)[t * k + j] == rows[t][j]
  {
    FlattenLength(rows, k);
    var front := rows[..|rows| - 1];
    FlattenLength(front, k);
    Within(t, |rows|, j, k);
    if t < |front| {
      Within(t, |front|, j, k);
      FlattenAt(front, k, t, j);
    }
  }

  lemma {:induction false} FlattenLength<T>(rows: seq<seq<T>>, k: nat)
    requires Width(rows, k)
    ensures |Flatten(rows)| == |rows| * k
  {
    if rows != [] {
      FlattenLength(rows[..|rows| - 1], k);
      assert |rows| * k == (|rows| - 1) * k + k;
    }
  }

  lemma Within(t: nat, n: nat, j: nat, k: nat)
    requires t < n && j < k
    ensures t * k + j < n * k
  {
    assert (t + 1) * k <= n * k;
  }

  lemma RowOf(t: nat, j: nat, k: nat)
    requires j < k
    ensures (t * k + j) / k == t
  {
    var q := (t * k + j) / k;
    assert q * k <= t * k + j < (q + 1) * k;
    if q < t {
      Scaled(q + 1, t, k);
    } else if q > t {
      Scaled(t + 1, q, k);
    }
  }

  /** The flat positions routed to expert `e`, ascending. */
  function Positions(ids: seq<int>, e: int): seq<nat> {
    if ids == [] then []
    else Positions(ids[..|ids| - 1], e) + if ids[|ids| - 1] == e then [|ids| - 1] else []
  }

  lemma {:induction false} PositionsOf(ids: seq<int>, e: int)
    ensures forall p: nat :: p in Positions(ids, e) <==> p < |ids| && ids[p] == e
    ensures Distinct(Positions(ids, e))
  {
    if ids != [] {
      PositionsOf(ids[..|ids| - 1], e);
      DistinctSnoc(Positions(ids[..|ids| - 1], e), |ids| - 1);
    }
  }

  lemma DistinctSnoc(s: seq<nat>, x: nat)
    requires Distinct(s) && x !in s
    ensures Distinct(s + [x])
  {}

  lemma DistinctAppend(s: seq<nat>, r: seq<nat>)
    requires Distinct(s) && Distinct(r) && forall x :: x in s ==> x !in r
    ensures Distinct(s + r)
  {
    forall i, j | 0 <= i < j < |s + r| ensures (s + r)[i] != (s + r)[j] {
      if i < |s| <= j { assert (s + r)[i] in s && (s + r)[j] == r[j - |s|]; }
    }
  }

  /** The positions of each expert in turn. */
  function Grouped(ids: seq<int>, experts: seq<int>): seq<nat> {
    if experts == [] then []
    else Grouped(ids, experts[..|experts| - 1]) + Positions(ids, experts[|experts| - 1])
  }

  /** Grouping by distinct experts that cover the routing permutes the positions. */
  lemma {:induction false} GroupedOf(ids: seq<int>, experts: seq<int>)
    requires Distinct(experts)
    ensures forall p: nat :: p in Grouped(ids, experts) <==> p < |ids| && ids[p] in experts
    ensures Distinct(Grouped(ids, experts))
  {
    if experts != [] {
      var front, e := experts[..|experts| - 1], experts[|experts| - 1];
      GroupedOf(ids, front);
      PositionsOf(ids, e);
      assert experts == front + [e];
      forall p | p in Grouped(ids, front) ensures p !in Positions(ids, e) { assert ids[p] in front; }
      DistinctAppend(Grouped(ids, front), Positions(ids, e));
    }
  }

  function Below(n: nat): (r: set<nat>)
    ensures forall p: nat :: p in r <==> p < n
    ensures |r| == n
  {
    if n == 0 then {} else Below(n - 1) + {n - 1}
  }

  /** Distinct numbers that are exactly those below `n` are `n` in all. */
  lemma PermutationSize(s: seq<nat>, n: nat)
    requires Distinct(s) && forall p: nat :: p in s <==> p < n
    ensures |s| == n
  {
    DistinctSize(s);
    assert Elements(s) == Below(n);
  }

  // ---------------------------------------------------------------- grouped evaluation

  /** `inverse[order[i]] == i`, filled in place. */
  method Inverted(order: seq<nat>) returns (inverse: array<nat>)
    requires Distinct(order) && forall p: nat :: p in order <==> p < |order|
    ensures fresh(inverse) && inverse.Length == |order|
    ensures forall p :: 0 <= p < |order| ==> inverse[p] < |order| && order[inverse[p]] == p
  {
    inverse := new nat[|order|];
    for i := 0 to |order|
      invariant forall j :: 0 <= j < i ==> order[j] < |order| && inverse[order[j]] == j
    {
      assert order[i] in order;
      inverse[order[i]] := i;
    }
    forall p | 0 <= p < |order| ensures inverse[p] < |order| && order[inverse[p]] == p {
      assert p in order;
      var j :| 0 <= j < |order| && order[j] == p;
    }
  }

  /** The token of a flat position. */
  function Row(p: nat, k: nat): nat
    requires k > 0
  {
    p / k
  }

  function RowsAt<X>(x: seq<X>, k: nat, at: seq<nat>): seq<X>
    requires k > 0 && forall i :: 0 <= i < |at| ==> Row(at[i], k) < |x|
  {
    seq(|at|, i requires 0 <= i < |at| => x[Row(at[i], k)])
  }

  /** One expert over a batch of rows. */
  function ApplyAll<X, W, Y>(apply: (X, W) -> Y, rows: seq<X>, w: W): seq<Y> {
    seq(|rows|, i requires 0 <= i < |rows| => apply(rows[i], w))
  }

  datatype Batch<!X, !W, !Y> = Batch(x: seq<X>, ids: seq<int>, k: nat, apply: (X, W) -> Y, weights: map<int, W>)

  ghost predicate Routable<X, W, Y>(b: Batch<X, W, Y>) {
    b.k > 0 && |b.ids| == |b.x| * b.k && forall p :: 0 <= p < |b.ids| ==> b.ids[p] in b.weights
  }

  lemma RowInRange<X, W, Y>(b: Batch<X, W, Y>, p: nat)
    requires Routable(b) && p < |b.ids|
    ensures Row(p, b.k) < |b.x|
  {
    if p / b.k >= |b.x| { Scaled(|b.x|, p / b.k, b.k); }
  }

  /** The pair at flat position `p`, evaluated alone. */
  function Pair<X, W, Y>(b: Batch<X, W, Y>, p: nat): Y
    requires Routable(b) && p < |b.ids|
  {
    RowInRange(b, p);
    b.apply(b.x[Row(p, b.k)], b.weights[b.ids[p]])
  }

  ghost predicate Computed<X, W, Y>(b: Batch<X, W, Y>, order: seq<nat>, stacked: seq<Y>) {
    && Routable(b) && |stacked| == |order|
    && forall j :: 0 <= j < |order| ==> order[j] < |b.ids| && stacked[j] == Pair(b, order[j])
  }

  lemma NothingComputed<X, W, Y>(b: Batch<X, W, Y>)
    requires Routable(b)
    ensures Computed(b, [], [])
  {}

  lemma ComputedMore<X, W, Y>(b: Batch<X, W, Y>, order: seq<nat>, stacked: seq<Y>, e: int)
    requires Computed(b, order, stacked) && e in b.weights
    ensures forall p :: p in Positions(b.ids, e) ==> Row(p, b.k) < |b.x|
    ensures Computed(b, order + Positions(b.ids, e),
                     stacked + ApplyAll(b.apply, RowsAt(b.x, b.k, Positions(b.ids, e)), b.weights[e]))
  {
    hide Row;
    var at := Positions(b.ids, e);
    PositionsOf(b.ids, e);
    forall p | p in at ensures Row(p, b.k) < |b.x| { RowInRange(b, p); }
    var more := ApplyAll(b.apply, RowsAt(b.x, b.k, at), b.weights[e]);
    forall i | 0 <= i < |at| ensures at[i] < |b.ids| && more[i] == Pair(b, at[i]) {
      assert at[i] in at;
    }
  }

  /** Run each expert once over its rows, then gather with the inverse permutation: every
      flat position gets what its pair yields alone. Nothing can be concatenated when there
      is no expert. */
  method GroupedOutputs<X, W, Y>(b: Batch<X, W, Y>, experts: seq<int>) returns (r: Option<seq<Y>>)
    requires Routable(b) && Distinct(experts) && Elements(experts) == b.weights.Keys
    ensures r.None? <==> experts == []
    ensures r.Some? ==> |r.value| == |b.ids| && forall p :: 0 <= p < |b.ids| ==> r.value[p] == Pair(b, p)
  {
    hide Pair, Computed, Positions;
    if experts == [] { return None; }
    var stacked: seq<Y>, order: seq<nat> := [], [];
    NothingComputed(b);
    for i := 0 to |experts|
      invariant order == Grouped(b.ids, experts[..i]) && Computed(b, order, stacked)
    {
      var e := experts[i];
      assert e in Elements(experts);
      ComputedMore(b, order, stacked, e);
      assert experts[..i + 1][..i] == experts[..i];
      var at := Positions(b.ids, e);
      stacked, order := stacked + ApplyAll(b.apply, RowsAt(b.x, b.k, at), b.weights[e]), order + at;
    }
    assert experts[..|experts|] == experts;
    AllCovered(b, experts);
    var inverse := Inverted(order);
    var gathered := Gather(b, order, stacked, inverse);
    r := Some(gathered);
  }

  lemma AllCovered<X, W, Y>(b: Batch<X, W, Y>, experts: seq<int>)
    requires Routable(b) && Distinct(experts) && Elements(experts) == b.weights.Keys
    ensures var order := Grouped(b.ids, experts);
      Distinct(order) && |order| == |b.ids| && forall p: nat :: p in order <==> p < |order|
  {
    GroupedOf(b.ids, experts);
    forall p: nat ensures p in Grouped(b.ids, experts) <==> p < |b.ids| {
      if p < |b.ids| { assert b.ids[p] in Elements(experts); }
    }
    PermutationSize(Grouped(b.ids, experts), |b.ids|);
  }

  method Gather<X, W, Y>(b: Batch<X, W, Y>, ghost order: seq<nat>, stacked: seq<Y>, inverse: array<nat>)
    returns (out: seq<Y>)
    requires Computed(b, order, stacked) && |order| == |b.ids| == inverse.Length
    requires forall p :: 0 <= p < |order| ==> inverse[p] < |order| && order[inverse[p]] == p
    ensures |out| == |b.ids| && forall p :: 0 <= p < |b.ids| ==> out[p] == Pair(b, p)
  {
    hide Pair;
    out := [];
    for p := 0 to inverse.Length
      invariant |out| == p && forall i :: 0 <= i < p ==> out[i] == Pair(b, i)
    {
      assert order[inverse[p]] == p;
      out := out + [stacked[inverse[p]]];
    }
  }

  // ---------------------------------------------------------------- the whole switch

  /** The set as a list, in some order. */
  method Listed(keys: set<int>) returns (s: seq<int>)
    ensures Distinct(s) && Elements(s) == keys
  {
    s := [];
    var todo := keys;
    while todo != {}
      invariant todo <= keys && Distinct(s) && Elements(s) == keys - todo
      decreases |todo|
    {
      var e := MemberOf(todo);
      ElementsSnoc(s, e);
      assert e !in Elements(s);
      s, todo := s + [e], todo - {e};
    }
  }

  /** Each (token, k) pair alone: the token's row through the expert the pair names, as read directly. */
  ghost predicate PairByPair<X, W, Y>(
    x: seq<X>, ids: seq<seq<int>>, k: nat, apply: (X, W) -> Y, load: int -> W, out: seq<seq<Y>>)
  {
    && |out| == |ids| <= |x| && Width(ids, k) && Width(out, k)
    && forall t, j :: 0 <= t < |ids| && 0 <= j < k ==> out[t][j] == apply(x[t], load(ids[t][j]))
  }

  /** Row `t` of a flat array of rows of length `k`. */
  function Slice<Y>(flat: seq<Y>, t: nat, k: nat): seq<Y> {
    if t * k + k <= |flat| then flat[t * k..t * k + k] else []
  }

  lemma SliceAt<Y>(flat: seq<Y>, n: nat, t: nat, j: nat, k: nat)
    requires |flat| == n * k && t < n && j < k
    ensures |Slice(flat, t, k)| == k && t * k + j < n * k && Slice(flat, t, k)[j] == flat[t * k + j]
  {
    SliceLength(flat, n, t, k);
  }

  lemma SliceLength<Y>(flat: seq<Y>, n: nat, t: nat, k: nat)
    requires |flat| == n * k && t < n
    ensures t * k + k <= n * k && |Slice(flat, t, k)| == k
  {
    Scaled(t + 1, n, k);
  }

  method Reshaped<Y>(flat: seq<Y>, n: nat, k: nat) returns (rows: seq<seq<Y>>)
    requires |flat| == n * k
    ensures |rows| == n && Width(rows, k) && forall t :: 0 <= t < n ==> rows[t] == Slice(flat, t, k)
  {
    hide Slice;
    rows := [];
    for t := 0 to n
      invariant |rows| == t && Width(rows, k) && forall i :: 0 <= i < t ==> rows[i] == Slice(flat, i, k)
    {
      SliceLength(flat, n, t, k);
      rows := rows + [Slice(flat, t, k)];
    }
  }

  /** Grouped prefill agrees with evaluating every pair alone. */
  method PrefillOutputs<X, W, Y>(
      x: seq<X>, ids: seq<seq<int>>, k: nat, apply: (X, W) -> Y, load: int -> W, weights: map<int, W>)
    returns (r: Option<seq<seq<Y>>>)
    requires |x| == |ids| && Width(ids, k) && k > 0 && (forall e :: e in weights ==> weights[e] == load(e))
    requires forall t, j :: 0 <= t < |ids| && 0 <= j < k ==> ids[t][j] in weights
    ensures r.None? <==> weights == map[]
    ensures r.Some? ==> PairByPair(x, ids, k, apply, load, r.value)
  {
    FlattenLength(ids, k);
    FlatCovered(ids, k, weights.Keys);
    var b := Batch(x, Flatten(ids), k, apply, weights);
    var experts := Listed(weights.Keys);
    assert experts == [] <==> weights == map[] by {
      NoElements(experts);
      assert weights.Keys == {} <==> weights == map[];
    }
    var flat := GroupedOutputs(b, experts);
    if flat.None? { return None; }
    var rows := Reshaped(flat.value, |x|, k);
    forall t, j | 0 <= t < |ids| && 0 <= j < k ensures rows[t][j] == apply(x[t], load(ids[t][j])) {
      FlattenAt(ids, k, t, j);
      RowOf(t, j, k);
      SliceAt(flat.value, |x|, t, j, k);
      assert flat.value[t * k + j] == Pair(b, t * k + j);
    }
    r := Some(rows);
  }

  lemma {:induction false} FlatCovered(ids: seq<seq<int>>, k: nat, keys: set<int>)
    requires Width(ids, k) && forall t, j :: 0 <= t < |ids| && 0 <= j < k ==> ids[t][j] in keys
    ensures forall p :: 0 <= p < |Flatten(ids)| ==> Flatten(ids)[p] in keys
  {
    if ids != [] {
      var front := ids[..|ids| - 1];
      forall t, j | 0 <= t < |front| && 0 <= j < k ensures front[t][j] in keys { assert ids[t][j] in keys; }
      FlatCovered(front, k, keys);
      var back := ids[|ids| - 1];
      assert forall j :: 0 <= j < k ==> back[j] in keys;
    }
  }

  /** A switch call on one token: the pairs in order. */
  method DecodeOutputs<X, W, Y>(row: X, ids: seq<int>, apply: (X, W) -> Y, weights: map<int, W>) returns (ys: seq<Y>)
    requires forall j :: 0 <= j < |ids| ==> ids[j] in weights
    ensures |ys| == |ids| && forall j :: 0 <= j < |ids| ==> ys[j] == apply(row, weights[ids[j]])
  {
    ys := [];
    for i := 0 to |ids|
      invariant |ys| == i && forall j :: 0 <= j < i ==> ys[j] == apply(row, weights[ids[j]])
    {
      ys := ys + [apply(row, weights[ids[i]])];
    }
  }

  /** The layer's output for every token and pair equals evaluating each pair alone on weights
      read directly, for any routing, any prediction of the next layer's experts and any state
      of the cache. Nothing comes back only if no pair is routed or a needed read fails. */
  method SwitchCall<X, W, Y>(
      cache: MlxExpertCache<W>, layer: int, x: seq<X>, ids: seq<seq<int>>, k: nat, apply: (X, W) -> Y,
      predicted: Option<(int, seq<int>)>, done: seq<Read>, failing: set<Key>)
    returns (r: Option<seq<seq<Y>>>)
    requires cache.Valid() && cache.Finished(done) && |x| == |ids| && Width(ids, k)
    modifies cache
    ensures cache.Valid()
    ensures r.Some? ==> PairByPair(x, ids, k, apply, e => cache.cfg.load(Key(layer, e)), r.value)
    ensures r.None? ==>
      ids == [] || k == 0 || exists t, j :: 0 <= t < |ids| && 0 <= j < k && Key(layer, ids[t][j]) in failing
  {
    hide AdmitAll, Stamps, Bytes, Flatten, MlxExpertCache.View, AbsorbAll, Distinct, Sound, TouchAll;
    hide PendingOf, AllLive;
    if predicted.Some? { cache.Prefetch(predicted.value.0, predicted.value.1); }
    var requested := Listed(set e | e in Flatten(ids));
    RoutedAmong(ids, k, requested);
    var experts := cache.GetMany(layer, requested, done, failing);
    if experts.None? {
      ghost var e :| e in requested && Key(layer, e) in failing;
      FlattenFrom(ids, k, e);
    }
    if experts.None? || ids == [] || k == 0 { return None; }
    var load := e => cache.cfg.load(Key(layer, e));
    if |ids| == 1 {
      var ys := DecodeOutputs(x[0], ids[0], apply, experts.value);
      r := Some([ys]);
    } else {
      assert ids[0][0] in experts.value;
      r := PrefillOutputs(x, ids, k, apply, load, experts.value);
    }
  }

  lemma {:induction false} FlattenHas(ids: seq<seq<int>>, k: nat, t: nat, j: nat)
    requires Width(ids, k) && t < |ids| && j < k
    ensures ids[t][j] in Flatten(ids)
  {
    var front := ids[..|ids| - 1];
    if t < |front| { FlattenHas(front, k, t, j); }
  }

  lemma RoutedAmong(ids: seq<seq<int>>, k: nat, requested: seq<int>)
    requires Width(ids, k) && Elements(requested) == set e | e in Flatten(ids)
    ensures forall t, j :: 0 <= t < |ids| && 0 <= j < k ==> ids[t][j] in requested
    ensures forall e :: e in requested ==> e in Flatten(ids)
  {
    hide Flatten;
    forall t, j | 0 <= t < |ids| && 0 <= j < k ensures ids[t][j] in requested {
      FlattenHas(ids, k, t, j);
      assert ids[t][j] in Elements(requested);
    }
    assert forall e :: e in requested <==> e in Elements(requested);
  }

  lemma {:induction false} FlattenFrom(ids: seq<seq<int>>, k: nat, e: int)
    requires Width(ids, k) && e in Flatten(ids)
    ensures exists t, j :: 0 <= t < |ids| && 0 <= j < k && ids[t][j] == e
  {
    var front, back := ids[..|ids| - 1], ids[|ids| - 1];
    if e in back {
      var j :| 0 <= j < k && back[j] == e;
      assert ids[|ids| - 1][j] == e;
    } else {
      FlattenFrom(front, k, e);
      var t, j :| 0 <= t < |front| && 0 <= j < k && front[t][j] == e;
      assert ids[t][j] == e;
    }
  }
}
