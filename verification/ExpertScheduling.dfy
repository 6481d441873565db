/** Scheduling over all layers' slot caches, as values: one global recency list, background reads
    staged by workers, eviction of a layer's least recently used expert, and budget changes. */
module ExpertScheduling {
  import opened Arithmetic
  import opened Common
  import opened ExpertSlots
  import opened Sums

  datatype Key = Key(layer: int, expert: int)

  datatype LayerIndex = LayerIndex(numExperts: nat, expertBytes: nat)

  /** What a worker reports for a key it was asked to read. */
  datatype WorkerStep = Staged(key: Key) | Failed(key: Key)

  // ---------------------------------------------------------------- slot capacities

  function Share(budget: nat, layers: nat): nat { budget / if layers < 1 then 1 else layers }

  /** Slots for one layer: all experts when unbounded, else what its share of the budget buys, at least one. */
  function SlotCap(index: map<int, LayerIndex>, budget: nat, layer: int): (cap: nat)
    ensures layer in index && index[layer].numExperts >= 1 ==> 1 <= cap <= index[layer].numExperts
    ensures layer !in index ==> cap == 0
  {
    if layer !in index then 0
    else
      var li := index[layer];
      if li.expertBytes == 0 || budget == 0 then li.numExperts
      else
        var fit := Share(budget, |index|) / li.expertBytes;
        var cap := if fit < li.numExperts then fit else li.numExperts;
        if cap < 1 then 1 else cap
  }

  /** The cap is the largest that fits: one more slot in every layer would exceed the budget unless
      all experts have one, and as many do not exceed it unless there is only one. Without a
      budget, or for experts of no size, every expert has a slot. */
  lemma SlotCapIsLargest(index: map<int, LayerIndex>, budget: nat, layer: int)
    requires layer in index
    ensures var cap, n, li := SlotCap(index, budget, layer), |index|, index[layer];
      && (budget > 0 && li.expertBytes > 0 && cap < li.numExperts ==> n * (cap + 1) * li.expertBytes > budget)
      && (budget > 0 && li.expertBytes > 0 && cap > 1 ==> n * cap * li.expertBytes <= budget)
      && (budget == 0 || li.expertBytes == 0 ==> cap == li.numExperts)
  {
    var li, cap := index[layer], SlotCap(index, budget, layer);
    assert |index| >= 1 by { WithoutOne(index, layer, 0); }
    if budget > 0 && li.expertBytes > 0 {
      if cap < li.numExperts { FitsNoMore(budget, |index|, li.expertBytes, cap); }
      if cap > 1 { FitsThat(budget, |index|, li.expertBytes, cap); }
    }
  }

  lemma FitsNoMore(budget: nat, n: nat, per: nat, cap: nat)
    requires n >= 1 && per >= 1 && cap >= budget / n / per
    ensures n * (cap + 1) * per > budget
  {
    var share := budget / n;
    assert share < (share / per + 1) * per;
    Scaled(share / per + 1, cap + 1, per);
    assert budget < n * (share + 1);
    Scaled(share + 1, (cap + 1) * per, n);
    Regrouped(n, cap + 1, per);
  }

  lemma FitsThat(budget: nat, n: nat, per: nat, cap: nat)
    requires n >= 1 && per >= 1 && cap <= budget / n / per
    ensures n * cap * per <= budget
  {
    var share := budget / n;
    Scaled(cap, share / per, per);
    assert share / per * per <= share;
    Scaled(cap * per, share, n);
    assert share * n <= budget;
    Regrouped(n, cap, per);
  }

  lemma Regrouped(n: nat, a: nat, per: nat)
    ensures n * a * per == a * per * n
  {}

  /** A layer stays within its share exactly when one of its experts does. */
  lemma SlotCapFits(index: map<int, LayerIndex>, budget: nat, layer: int)
    requires layer in index && budget > 0 && index[layer].expertBytes > 0
    ensures SlotCap(index, budget, layer) * index[layer].expertBytes <= Share(budget, |index|)
            <==> index[layer].expertBytes <= Share(budget, |index|)
  {
    var per, share := index[layer].expertBytes, Share(budget, |index|);
    var fit := share / per;
    assert fit * per <= share;
    var cap := SlotCap(index, budget, layer);
    if per <= share {
      Scaled(cap, fit, per);
    } else {
      Scaled(1, cap, per);
    }
  }

  function CapBytes(index: map<int, LayerIndex>, budget: nat): map<int, nat> {
    map l | l in index :: SlotCap(index, budget, l) * index[l].expertBytes
  }

  lemma WithoutOne<K, V>(m: map<K, V>, k: K, bound: nat)
    requires k in m
    ensures |m| >= 1 && |m - {k}| == |m| - 1 && |m| * bound == |m - {k}| * bound + bound
  {
    assert m.Keys == (m - {k}).Keys + {k};
  }

  lemma {:induction false} SumAtMost<K(!new)>(m: map<K, nat>, bound: nat)
    requires forall k :: k in m ==> m[k] <= bound
    ensures Sum(m) <= |m| * bound
    decreases m.Keys
  {
    if m != map[] {
      var k :| k in m && Sum(m) == m[k] + Sum(m - {k});
      SumAtMost(m - {k}, bound);
      WithoutOne(m, k, bound);
    }
  }

  lemma SharesFit(budget: nat, layers: nat)
    requires layers >= 1
    ensures layers * Share(budget, layers) <= budget
  {}

  /** With every expert within its layer's share, all layers together stay within the budget. */
  lemma AllCapsFit(index: map<int, LayerIndex>, budget: nat)
    requires budget > 0 && forall l :: l in index ==> 0 < index[l].expertBytes <= Share(budget, |index|)
    ensures Sum(CapBytes(index, budget)) <= budget
  {
    hide Share, Sum;
    if index == map[] {
      assert CapBytes(index, budget) == map[];
      SumEmpty(CapBytes(index, budget));
    } else {
      forall l | l in index
        ensures CapBytes(index, budget)[l] <= Share(budget, |index|)
      {
        SlotCapFits(index, budget, l);
      }
      SumAtMost(CapBytes(index, budget), Share(budget, |index|));
      assert |CapBytes(index, budget)| == |index| by { assert CapBytes(index, budget).Keys == index.Keys; }
      SharesFit(budget, |index|);
    }
  }

  // ---------------------------------------------------------------- recency

  /** Move the key to the recent end. */
  function Touched(lru: seq<Key>, k: Key): (r: seq<Key>)
    requires Distinct(lru)
    ensures Distinct(r) && Elements(r) == Elements(lru) + {k}
  {
    var rest := Removed(lru, k);
    assert k !in Elements(rest);
    ElementsSnoc(rest, k);
    rest + [k]
  }

  /** The layer's resident expert listed first, which is the one used longest ago. */
  function Victim(lru: seq<Key>, layer: int, resident: seq<int>): (e: Option<int>)
    ensures e.Some? ==> e.value in resident && Key(layer, e.value) in lru
  {
    if lru == [] then None
    else if lru[0].layer == layer && lru[0].expert in resident then Some(lru[0].expert)
    else Victim(lru[1..], layer, resident)
  }

  /** No resident expert of the layer is listed before its victim. */
  lemma {:induction false} VictimIsFirst(lru: seq<Key>, layer: int, resident: seq<int>, i: nat) returns (j: nat)
    requires i < |lru| && lru[i].layer == layer && lru[i].expert in resident
    ensures var e := Victim(lru, layer, resident); e.Some? && j <= i && lru[j] == Key(layer, e.value)
  {
    if lru[0].layer == layer && lru[0].expert in resident {
      j := 0;
    } else {
      j := VictimIsFirst(lru[1..], layer, resident, i - 1);
      j := j + 1;
    }
  }

  lemma {:induction false} VictimAt(lru: seq<Key>, layer: int, resident: seq<int>, i: nat)
    requires i <= |lru| && forall j :: 0 <= j < i ==> !(lru[j].layer == layer && lru[j].expert in resident)
    ensures Victim(lru, layer, resident) == Victim(lru[i..], layer, resident)
  {
    if i > 0 {
      VictimAt(lru[1..], layer, resident, i - 1);
      assert lru[1..][i - 1..] == lru[i..];
    } else {
      assert lru[0..] == lru;
    }
  }

  // ---------------------------------------------------------------- staged reads

  /** Finished reads waiting to be used, the order they were staged in, and the reads under way. */
  datatype Stages<W> = Stages(staged: map<Key, W>, order: seq<Key>, inflight: set<Key>)

  /** Forget the oldest staged keys until `cap` entries are left. */
  function Trimmed<W>(s: Stages<W>, cap: nat): (r: Stages<W>)
    ensures |r.order| <= cap || r.order == s.order
    ensures r.staged.Keys <= s.staged.Keys && forall k :: k in r.staged ==> r.staged[k] == s.staged[k]
    decreases |s.order|
  {
    if |s.order| <= cap then s else Trimmed(s.(staged := s.staged - {s.order[0]}, order := s.order[1..]), cap)
  }

  function Arrived<W>(s: Stages<W>, k: Key, w: W, cap: nat): Stages<W> {
    Trimmed(Stages(s.staged[k := w], s.order + [k], s.inflight - {k}), cap)
  }

  function Worked<W>(s: Stages<W>, step: WorkerStep, bank: Key -> W, cap: nat): Stages<W> {
    if step.key !in s.inflight then s
    else if step.Staged? then Arrived(s, step.key, bank(step.key), cap)
    else s.(inflight := s.inflight - {step.key})
  }

  function WorkedAll<W>(s: Stages<W>, steps: seq<WorkerStep>, bank: Key -> W, cap: nat): Stages<W>
    decreases |steps|
  {
    if steps == [] then s else WorkedAll(Worked(s, steps[0], bank, cap), steps[1..], bank, cap)
  }

  /** The workers' steps, in blocks between which the waiting thread looks, up to the look that
      finds `k` staged or no longer in flight. */
  function Awaited<W>(s: Stages<W>, k: Key, blocks: seq<seq<WorkerStep>>, bank: Key -> W, cap: nat): Stages<W>
    decreases |blocks|
  {
    if k !in s.inflight || blocks == [] then s
    else
      var s1 := WorkedAll(s, blocks[0], bank, cap);
      if k in s1.staged then s1 else Awaited(s1, k, blocks[1..], bank, cap)
  }

  /** The wait and what it hands over. Only a read in flight is waited for. */
  function Taken<W>(s: Stages<W>, k: Key, blocks: seq<seq<WorkerStep>>, bank: Key -> W,
                    cap: nat): (Stages<W>, Option<W>) {
    if k !in s.inflight then (s, None)
    else
      var r := Awaited(s, k, blocks, bank, cap);
      if k in r.staged then (r.(staged := r.staged - {k}), Some(r.staged[k])) else (r, None)
  }

  lemma WorkedTrue<W>(s: Stages<W>, step: WorkerStep, bank: Key -> W, cap: nat)
    requires forall j :: j in s.staged ==> s.staged[j] == bank(j)
    ensures var r := Worked(s, step, bank, cap); forall j :: j in r.staged ==> r.staged[j] == bank(j)
  {}

  lemma {:induction false} WorkedAllTrue<W>(s: Stages<W>, steps: seq<WorkerStep>, bank: Key -> W, cap: nat)
    requires forall j :: j in s.staged ==> s.staged[j] == bank(j)
    ensures var r := WorkedAll(s, steps, bank, cap); forall j :: j in r.staged ==> r.staged[j] == bank(j)
    decreases |steps|
  {
    hide Worked;
    if steps != [] {
      WorkedTrue(s, steps[0], bank, cap);
      WorkedAllTrue(Worked(s, steps[0], bank, cap), steps[1..], bank, cap);
    }
  }

  /** Whatever is staged while waiting is the bank's own. */
  lemma {:induction false} AwaitedTrue<W>(s: Stages<W>, k: Key, blocks: seq<seq<WorkerStep>>, bank: Key -> W, cap: nat)
    requires forall j :: j in s.staged ==> s.staged[j] == bank(j)
    ensures var r := Awaited(s, k, blocks, bank, cap); forall j :: j in r.staged ==> r.staged[j] == bank(j)
    decreases |blocks|
  {
    hide WorkedAll;
    if k in s.inflight && blocks != [] {
      WorkedAllTrue(s, blocks[0], bank, cap);
      AwaitedTrue(WorkedAll(s, blocks[0], bank, cap), k, blocks[1..], bank, cap);
    }
  }

  lemma TakenTrue<W>(s: Stages<W>, k: Key, blocks: seq<seq<WorkerStep>>, bank: Key -> W, cap: nat)
    requires forall j :: j in s.staged ==> s.staged[j] == bank(j)
    ensures var taken := Taken(s, k, blocks, bank, cap);
      && (forall j :: j in taken.0.staged ==> taken.0.staged[j] == bank(j))
      && (taken.1.Some? ==> taken.1.value == bank(k))
  {
    hide Awaited;
    AwaitedTrue(s, k, blocks, bank, cap);
  }

  lemma {:induction false} TrimmedKeys<W>(s: Stages<W>, cap: nat)
    ensures var dropped := if |s.order| <= cap then [] else s.order[..|s.order| - cap];
      Trimmed(s, cap).staged == s.staged - Elements(dropped)
    decreases |s.order|
  {
    if |s.order| <= cap {
      NoElements<Key>([]);
    } else {
      var rest := s.(staged := s.staged - {s.order[0]}, order := s.order[1..]);
      TrimmedKeys(rest, cap);
      var dropped := s.order[..|s.order| - cap];
      var later := if |rest.order| <= cap then [] else rest.order[..|rest.order| - cap];
      assert dropped == [s.order[0]] + later;
      ElementsCons(s.order[0], later);
    }
  }

  /** A read that arrives is there to be used exactly when no stale mention of its key is among
      the entries its arrival pushes out. */
  lemma ArrivedStays<W>(s: Stages<W>, k: Key, w: W, cap: nat)
    requires cap >= 1
    ensures k in Arrived(s, k, w, cap).staged <==> |s.order| + 1 <= cap || k !in s.order[..|s.order| + 1 - cap]
  {
    var order := s.order + [k];
    TrimmedKeys(Stages(s.staged[k := w], order, s.inflight - {k}), cap);
    if |order| > cap {
      var dropped := order[..|order| - cap];
      assert dropped == s.order[..|s.order| + 1 - cap];
      assert k in Elements(dropped) <==> k in dropped;
    } else {
      NoElements<Key>([]);
    }
  }

  // ---------------------------------------------------------------- the scheduler as a value

  datatype Setup<!W> = Setup(bank: Key -> W, index: map<int, LayerIndex>, workers: nat)

  datatype Sched<W> = Sched(
    layers: map<int, Slots>, lru: seq<Key>, stages: Stages<W>, hits: nat, misses: nat, prefetchHits: nat)

  /** Each layer's slots are in order, and what they hold is on the recency list. */
  ghost predicate SchedOk<W>(s: Sched<W>) {
    && Distinct(s.lru)
    && (forall l :: l in s.layers ==> Sound(s.layers[l]))
    && (forall l, e :: l in s.layers && e in s.layers[l].order ==> Key(l, e) in s.lru)
  }

  /** Make room in a full layer: the expert used longest ago goes, or, if none is listed, the
      first of the layer's own order. */
  function Freed(lru: seq<Key>, layer: int, o: Slots): (Slots, seq<Key>)
    requires Distinct(lru) && Distinct(o.order)
  {
    var e := Victim(lru, layer, o.order);
    if e.Some? then (Evicted(o, e.value), Removed(lru, Key(layer, e.value)))
    else if o.order == [] then (o, lru)
    else (Evicted(o, o.order[0]), lru)
  }

  /** Who goes when an expert that is not held comes in. */
  function Leaver(lru: seq<Key>, layer: int, o: Slots): Option<int> {
    if |o.order| >= |o.idOf| then Victim(lru, layer, o.order) else None
  }

  function OptionSet(e: Option<int>): set<int> { if e.Some? then {e.value} else {} }

  ghost predicate Exchanged<W>(before: map<int, W>, after: map<int, W>, eid: int, w: W, gone: Option<int>) {
    OptionSet(gone) <= before.Keys && after == (before - OptionSet(gone))[eid := w]
  }

  lemma FreedRoom(lru: seq<Key>, layer: int, o: Slots, eid: int)
    requires Distinct(lru) && Sound(o) && forall e :: e in o.order ==> Key(layer, e) in lru
    ensures Distinct(o.order)
    ensures |o.order| >= |o.idOf| ==>
      var e, r := Victim(lru, layer, o.order), Freed(lru, layer, o).0;
      e.Some? && e.value in o.order && |r.order| < |r.idOf| && (eid !in o.order ==> eid !in r.order)
  {
    hide Sound;
    SoundOrder(o);
    if |o.order| >= |o.idOf| {
      VictimOf(lru, layer, o.order);
      FreedKeeps(lru, layer, o);
      var e := Victim(lru, layer, o.order).value;
      RemovedShorter(o.order, e);
    }
  }

  lemma RemovedShorter(order: seq<int>, e: int)
    requires Distinct(order) && e in order
    ensures |Removed(order, e)| < |order|
  {
    DistinctSize(order);
    DistinctSize(Removed(order, e));
    assert e in Elements(order);
  }

  function Installed(lru: seq<Key>, layer: int, o: Slots, eid: int): (Slots, seq<Key>)
    requires Distinct(lru) && Distinct(o.order)
  {
    var (o1, lru1) := if |o.order| >= |o.idOf| then Freed(lru, layer, o) else (o, lru);
    (Filled(o1, eid), Touched(lru1, Key(layer, eid)))
  }

  ghost function Ensured<W>(setup: Setup<W>, s: Sched<W>, layer: int, eid: int, blocks: seq<seq<WorkerStep>>): Sched<W>
    requires SchedOk(s)
  {
    if layer !in s.layers then s
    else if eid in s.layers[layer].order then s.(lru := Touched(s.lru, Key(layer, eid)), hits := s.hits + 1)
    else
      var taken := Taken(s.stages, Key(layer, eid), blocks, setup.bank, 2 * setup.workers);
      var placed := Installed(s.lru, layer, s.layers[layer], eid);
      s.(layers := s.layers[layer := placed.0], lru := placed.1, stages := taken.0, misses := s.misses + 1,
         prefetchHits := s.prefetchHits + if taken.1.Some? then 1 else 0)
  }

  function Prefetched<W>(s: Sched<W>, layer: int, eid: int): Sched<W> {
    var k := Key(layer, eid);
    if layer !in s.layers || eid in s.layers[layer].order || k in s.stages.staged || k in s.stages.inflight then s
    else s.(stages := s.stages.(inflight := s.stages.inflight + {k}))
  }

  ghost function Rebudgeted<W>(setup: Setup<W>, s: Sched<W>, budget: int): Sched<W>
    requires SchedOk(s)
  {
    var bytes := if budget < 0 then 0 else budget;
    s.(layers := map l | l in s.layers :: ResizedTo(s.layers[l], SlotCap(setup.index, bytes, l)))
  }

  lemma RebudgetedIs<W>(setup: Setup<W>, s: Sched<W>, r: Sched<W>, requested: int)
    requires SchedOk(s) && r.layers.Keys == s.layers.Keys && r == s.(layers := r.layers)
    requires forall l :: l in s.layers ==> Distinct(s.layers[l].order)
    requires forall l :: l in s.layers ==>
      r.layers[l] == ResizedTo(s.layers[l], SlotCap(setup.index, if requested < 0 then 0 else requested, l))
    ensures r == Rebudgeted(setup, s, requested)
  {
    hide ResizedTo, SlotCap, Sound, Distinct;
  }

  /** A call that hit, or that missed and brought the expert in. */
  lemma EnsuredIs<W>(setup: Setup<W>, s: Sched<W>, r: Sched<W>, layer: int, eid: int, blocks: seq<seq<WorkerStep>>)
    requires SchedOk(s) && layer in s.layers && Distinct(s.layers[layer].order) && layer in r.layers
    requires r.layers == s.layers[layer := r.layers[layer]]
    requires eid in s.layers[layer].order ==> r == s.(lru := Touched(s.lru, Key(layer, eid)), hits := s.hits + 1)
    requires eid !in s.layers[layer].order ==>
      var taken := Taken(s.stages, Key(layer, eid), blocks, setup.bank, 2 * setup.workers);
      && (r.layers[layer], r.lru) == Installed(s.lru, layer, s.layers[layer], eid)
      && r.stages == taken.0 && r.hits == s.hits && r.misses == s.misses + 1
      && r.prefetchHits == s.prefetchHits + if taken.1.Some? then 1 else 0
    ensures r == Ensured(setup, s, layer, eid, blocks)
  {
    hide Installed, Taken, Touched, Sound, Distinct;
  }

  datatype Op =
    | EnsureOp(layer: int, eid: int, blocks: seq<seq<WorkerStep>>)
    | PrefetchOp(layer: int, eid: int)
    | SetBudgetOp(budget: int)
    | WorkerOp(step: WorkerStep)

  ghost function After<W>(setup: Setup<W>, s: Sched<W>, op: Op): Sched<W>
    requires SchedOk(s)
  {
    match op
    case EnsureOp(l, e, blocks) => Ensured(setup, s, l, e, blocks)
    case PrefetchOp(l, e) => Prefetched(s, l, e)
    case SetBudgetOp(b) => Rebudgeted(setup, s, b)
    case WorkerOp(step) => s.(stages := Worked(s.stages, step, setup.bank, 2 * setup.workers))
  }

  lemma TouchedOrder(lru: seq<Key>, k: Key)
    requires Distinct(lru)
    ensures forall j :: j in Touched(lru, k) <==> j in lru || j == k
  {
    forall j ensures j in Touched(lru, k) <==> j in lru || j == k {
      assert j in Elements(Touched(lru, k)) <==> j in Elements(lru) + {k};
    }
  }

  lemma FreedKeeps(lru: seq<Key>, layer: int, o: Slots)
    requires Distinct(lru) && Sound(o) && forall e :: e in o.order ==> Key(layer, e) in lru
    ensures var (r, rest) := Freed(lru, layer, o);
      && Distinct(rest) && Sound(r) && (forall e :: e in r.order ==> Key(layer, e) in rest && e in o.order)
      && (forall k :: k in lru && k.layer != layer ==> k in rest) && (forall k :: k in rest ==> k in lru)
  {
    hide Sound;
    SoundOrder(o);
    var v := Victim(lru, layer, o.order);
    if o.order != [] { VictimOf(lru, layer, o.order); }
    if v.Some? {
      EvictedSound(o, v.value);
      RemovedMembers(o.order, v.value);
      RemovedMembers(lru, Key(layer, v.value));
    }
  }

  /** Something goes whenever something is there. */
  lemma VictimOf(lru: seq<Key>, layer: int, resident: seq<int>)
    requires resident != [] && forall e :: e in resident ==> Key(layer, e) in lru
    ensures Victim(lru, layer, resident).Some?
  {
    assert resident[0] in resident;
    var i :| 0 <= i < |lru| && lru[i] == Key(layer, resident[0]);
    var _ := VictimIsFirst(lru, layer, resident, i);
  }

  lemma InstalledKeeps(lru: seq<Key>, layer: int, o: Slots, eid: int)
    requires Distinct(lru) && Sound(o) && eid !in o.order && forall e :: e in o.order ==> Key(layer, e) in lru
    ensures Distinct(o.order)
    ensures var (r, rest) := Installed(lru, layer, o, eid);
      && Distinct(rest) && Sound(r) && (forall e :: e in r.order ==> Key(layer, e) in rest)
      && (forall k :: k in lru && k.layer != layer ==> k in rest)
  {
    hide Sound, Distinct, Freed;
    SoundOrder(o);
    FreedKeeps(lru, layer, o);
    var (o1, lru1) := if |o.order| >= |o.idOf| then Freed(lru, layer, o) else (o, lru);
    FilledSound(o1, eid);
    TouchedOrder(lru1, Key(layer, eid));
  }

  lemma AfterKeeps<W>(setup: Setup<W>, s: Sched<W>, op: Op)
    requires SchedOk(s)
    ensures SchedOk(After(setup, s, op)) && After(setup, s, op).layers.Keys == s.layers.Keys
  {
    match op
    case EnsureOp(l, e, blocks) => EnsuredKeeps(setup, s, l, e, blocks);
    case PrefetchOp(l, e) =>
    case SetBudgetOp(b) => RebudgetedKeeps(setup, s, b);
    case WorkerOp(step) =>
  }

  lemma EnsuredKeeps<W>(setup: Setup<W>, s: Sched<W>, layer: int, eid: int, blocks: seq<seq<WorkerStep>>)
    requires SchedOk(s)
    ensures SchedOk(Ensured(setup, s, layer, eid, blocks))
    ensures Ensured(setup, s, layer, eid, blocks).layers.Keys == s.layers.Keys
  {
    hide Sound, Distinct, Installed, Taken, Touched;
    TouchedOrder(s.lru, Key(layer, eid));
    if layer in s.layers && eid !in s.layers[layer].order { InstalledKeeps(s.lru, layer, s.layers[layer], eid); }
  }

  lemma RebudgetedKeeps<W>(setup: Setup<W>, s: Sched<W>, budget: int)
    requires SchedOk(s)
    ensures SchedOk(Rebudgeted(setup, s, budget)) && Rebudgeted(setup, s, budget).layers.Keys == s.layers.Keys
  {
    hide Sound, Distinct, SlotCap, ResizedTo, Elements;
    var r := Rebudgeted(setup, s, budget);
    forall l | l in s.layers ensures Sound(r.layers[l]) && forall e :: e in r.layers[l].order ==> Key(l, e) in s.lru {
      var cap := SlotCap(setup.index, if budget < 0 then 0 else budget, l);
      SoundOrder(s.layers[l]);
      ResizedSound(s.layers[l], cap);
      SurvivorsHeld(s.layers[l], ResizedTo(s.layers[l], cap), AtLeastOne(cap));
    }
  }

  lemma SurvivorsHeld(o: Slots, r: Slots, capacity: nat)
    requires Elements(r.order) == Elements(Survivors(o.order, capacity))
    ensures forall e :: e in r.order ==> e in o.order
  {
    forall e | e in r.order ensures e in o.order { assert e in Elements(r.order); }
  }

  // ---------------------------------------------------------------- any sequence of calls

  function StartSched<W>(capacities: map<int, int>): Sched<W> {
    Sched(map l | l in capacities :: EmptySlots(capacities[l]), [], Stages(map[], [], {}), 0, 0, 0)
  }

  ghost function Run<W>(setup: Setup<W>, capacities: map<int, int>, ops: seq<Op>): (s: Sched<W>)
    ensures SchedOk(s) && s.layers.Keys == capacities.Keys
    decreases |ops|
  {
    hide SchedOk, After;
    if ops == [] then
      StartOk<W>(capacities);
      StartSched(capacities)
    else
      var before := Run(setup, capacities, ops[..|ops| - 1]);
      AfterKeeps(setup, before, ops[|ops| - 1]);
      After(setup, before, ops[|ops| - 1])
  }

  lemma StartOk<W>(capacities: map<int, int>)
    ensures SchedOk(StartSched<W>(capacities)) && StartSched<W>(capacities).layers.Keys == capacities.Keys
  {
    hide Sound;
    forall l | l in capacities ensures Sound(EmptySlots(capacities[l])) { EmptySound(capacities[l]); }
  }

  /** When the expert was last asked for: the number of that call, 0 for never. */
  function LastUse(ops: seq<Op>, k: Key): nat {
    if ops == [] then 0
    else
      var op := ops[|ops| - 1];
      if op.EnsureOp? && Key(op.layer, op.eid) == k then |ops| else LastUse(ops[..|ops| - 1], k)
  }

  ghost function UseTime(ops: seq<Op>): Key -> int { k => LastUse(ops, k) }

  lemma {:induction false} UsedBefore(ops: seq<Op>, k: Key)
    ensures LastUse(ops, k) <= |ops|
  {
    if ops != [] { UsedBefore(ops[..|ops| - 1], k); }
  }

  /** The recency list is sorted by last use. */
  lemma {:induction false} RunByUse<W>(setup: Setup<W>, capacities: map<int, int>, ops: seq<Op>)
    ensures var lru := Run(setup, capacities, ops).lru;
      Rising(lru, UseTime(ops)) && forall k :: k in lru ==> k.layer in capacities
    decreases |ops|
  {
    hide Rising, SchedOk, After;
    if ops == [] {
      NothingUsed<W>(capacities);
    } else {
      var front, op := ops[..|ops| - 1], ops[|ops| - 1];
      var s := Run(setup, capacities, front);
      RunByUse(setup, capacities, front);
      if op.EnsureOp? && op.layer in s.layers {
        UseRises(setup, s, front, op);
        assert front + [op] == ops;
      } else {
        LruKept(setup, s, op);
        SameUse(s.lru, ops);
      }
    }
  }

  lemma NothingUsed<W>(capacities: map<int, int>)
    ensures StartSched<W>(capacities).lru == [] && Rising<Key>([], UseTime([]))
  {}

  lemma LruKept<W>(setup: Setup<W>, s: Sched<W>, op: Op)
    requires SchedOk(s) && !(op.EnsureOp? && op.layer in s.layers)
    ensures After(setup, s, op).lru == s.lru
  {
    hide SchedOk;
  }

  lemma SameUse(lru: seq<Key>, ops: seq<Op>)
    requires ops != [] && Rising(lru, UseTime(ops[..|ops| - 1]))
    requires var op := ops[|ops| - 1]; op.EnsureOp? ==> Key(op.layer, op.eid) !in lru
    ensures Rising(lru, UseTime(ops))
  {
    hide Rising;
    RisingSame(lru, UseTime(ops[..|ops| - 1]), UseTime(ops));
  }

  lemma TouchRises(lru: seq<Key>, k: Key, front: seq<Op>, op: Op)
    requires Distinct(lru) && Rising(lru, UseTime(front)) && op.EnsureOp? && k == Key(op.layer, op.eid)
    ensures Rising(Touched(lru, k), UseTime(front + [op]))
    ensures forall j :: j in Touched(lru, k) <==> j in lru || j == k
  {
    hide Rising, Distinct;
    TouchedOrder(lru, k);
    RemovedRises(lru, k, UseTime(front));
    var ops := front + [op];
    assert ops[..|front|] == front;
    SameUse(Removed(lru, k), ops);
    forall j | j in Removed(lru, k) ensures UseTime(ops)(j) < UseTime(ops)(k) { UsedBefore(front, j); }
    RisingSnoc(Removed(lru, k), k, UseTime(ops));
  }

  lemma UseRises<W>(setup: Setup<W>, s: Sched<W>, front: seq<Op>, op: Op)
    requires SchedOk(s) && op.EnsureOp? && op.layer in s.layers && Rising(s.lru, UseTime(front))
    ensures var lru := After(setup, s, op).lru;
      Rising(lru, UseTime(front + [op])) && forall k :: k in lru ==> k in s.lru || k.layer == op.layer
  {
    hide Rising, Sound, Distinct, Touched, Taken, Victim;
    var o, k := s.layers[op.layer], Key(op.layer, op.eid);
    TouchRises(s.lru, k, front, op);
    if op.eid !in o.order {
      SoundOrder(o);
      FreedKeeps(s.lru, op.layer, o);
      var rest := if |o.order| >= |o.idOf| then Freed(s.lru, op.layer, o).1 else s.lru;
      var e := Victim(s.lru, op.layer, o.order);
      if e.Some? { RemovedRises(s.lru, Key(op.layer, e.value), UseTime(front)); }
      TouchRises(rest, k, front, op);
    }
  }

  /** After any sequence of calls, and whatever the workers did: a miss in a full layer evicts,
      of what that layer holds, exactly the expert whose last use is longest ago. */
  lemma EvictsLeastUsed<W>(setup: Setup<W>, capacities: map<int, int>, ops: seq<Op>, layer: int, eid: int,
                           blocks: seq<seq<WorkerStep>>)
    requires var s := Run(setup, capacities, ops);
      layer in s.layers && eid !in s.layers[layer].order && |s.layers[layer].order| >= |s.layers[layer].idOf|
    ensures var s, r := Run(setup, capacities, ops), Run(setup, capacities, ops + [EnsureOp(layer, eid, blocks)]);
      var o, e := s.layers[layer].order, Victim(s.lru, layer, s.layers[layer].order);
      && e.Some? && e.value in o && Distinct(o) && r.layers[layer].order == Removed(o, e.value) + [eid]
      && (forall k :: k in o && k != e.value ==> LastUse(ops, Key(layer, e.value)) < LastUse(ops, Key(layer, k)))
      && r.layers == s.layers[layer := r.layers[layer]]
  {
    hide Rising, Taken, Victim, LastUse;
    var s, op := Run(setup, capacities, ops), EnsureOp(layer, eid, blocks);
    var o := s.layers[layer];
    assert (ops + [op])[..|ops|] == ops;
    RunByUse(setup, capacities, ops);
    FullHasVictim(s, layer);
    var e := Victim(s.lru, layer, o.order).value;
    forall k | k in o.order && k != e ensures LastUse(ops, Key(layer, e)) < LastUse(ops, Key(layer, k)) {
      VictimBefore(s.lru, layer, o.order, k, UseTime(ops));
    }
    SlotFreed(o, e);
  }

  lemma FullHasVictim<W>(s: Sched<W>, layer: int)
    requires SchedOk(s) && layer in s.layers && |s.layers[layer].order| >= |s.layers[layer].idOf|
    ensures Victim(s.lru, layer, s.layers[layer].order).Some?
  {
    hide Distinct;
    VictimOf(s.lru, layer, s.layers[layer].order);
  }

  lemma VictimBefore(lru: seq<Key>, layer: int, resident: seq<int>, k: int, time: Key -> int)
    requires Rising(lru, time) && k in resident && Key(layer, k) in lru && Victim(lru, layer, resident) != Some(k)
    ensures var e := Victim(lru, layer, resident); e.Some? && time(Key(layer, e.value)) < time(Key(layer, k))
  {
    hide Victim;
    var i :| 0 <= i < |lru| && lru[i] == Key(layer, k);
    var j := VictimIsFirst(lru, layer, resident, i);
    assert time(lru[j]) < time(lru[i]);
  }

  /** An eviction leaves a free slot. */
  lemma SlotFreed(o: Slots, e: int)
    requires Sound(o) && e in o.order
    ensures FirstFree(Evicted(o, e).idOf).Some? && Evicted(o, e).order == Removed(o.order, e)
  {
    var s :| 0 <= s < |o.idOf| && o.idOf[s] == Some(e);
    assert Cleared(o.idOf, e)[s] == None;
  }

  // ---------------------------------------------------------------- three runs

  /** One layer, one worker; `capacity` slots, experts of one byte. */
  ghost function Small<W>(bank: Key -> W): Setup<W> { Setup(bank, map[0 := LayerIndex(2, 1)], 1) }

  ghost function RunSmall<W>(bank: Key -> W, capacity: int, ops: seq<Op>): (s: Sched<W>)
    ensures SchedOk(s)
  {
    Run(Small(bank), map[0 := capacity], ops)
  }

  lemma RunNext<W>(bank: Key -> W, capacity: int, ops: seq<Op>, op: Op, r: Sched<W>)
    requires After(Small(bank), RunSmall(bank, capacity, ops), op) == r
    ensures RunSmall(bank, capacity, ops + [op]) == r
  {
    hide SchedOk, After;
    assert (ops + [op])[..|ops|] == ops;
  }

  function One<W>(o: Slots, lru: seq<Key>, stages: Stages<W>, hits: nat, misses: nat, prefetchHits: nat): Sched<W> {
    Sched(map[0 := o], lru, stages, hits, misses, prefetchHits)
  }

  /** One slot, empty or with one expert. */
  function Nothing(): Slots { Slots([], [None], map[], 0) }

  function Holding(e: int, at: nat): Slots { Slots([e], [Some(e)], map[e := at], at + 1) }

  lemma StartSmall<W>(bank: Key -> W, capacity: int)
    ensures RunSmall(bank, capacity, []) == One(EmptySlots(capacity), [], Stages(map[], [], {}), 0, 0, 0)
  {
    assert StartSched<W>(map[0 := capacity]).layers == map[0 := EmptySlots(capacity)];
  }

  lemma EmptyOne()
    ensures EmptySlots(1) == Nothing()
  {}

  lemma PrefetchStep<W>(bank: Key -> W, s: Sched<W>, e: int)
    requires SchedOk(s) && 0 in s.layers && e !in s.layers[0].order
    requires Key(0, e) !in s.stages.staged && Key(0, e) !in s.stages.inflight
    ensures After(Small(bank), s, PrefetchOp(0, e)) ==
      s.(stages := s.stages.(inflight := s.stages.inflight + {Key(0, e)}))
  {
    hide SchedOk;
  }

  /** A miss, given what the wait gives and where the expert goes. */
  lemma MissStep<W>(bank: Key -> W, s: Sched<W>, e: int, blocks: seq<seq<WorkerStep>>,
                    stages: Stages<W>, w: Option<W>, o: Slots, lru: seq<Key>)
    requires SchedOk(s) && 0 in s.layers && e !in s.layers[0].order && Distinct(s.layers[0].order)
    requires Taken(s.stages, Key(0, e), blocks, bank, 2) == (stages, w)
    requires Installed(s.lru, 0, s.layers[0], e) == (o, lru)
    ensures After(Small(bank), s, EnsureOp(0, e, blocks)) ==
      Sched(s.layers[0 := o], lru, stages, s.hits, s.misses + 1, s.prefetchHits + if w.Some? then 1 else 0)
  {
    hide Taken, Installed, Sound, Distinct;
  }

  /** The expert comes into a cache of one slot, empty or not. */
  lemma InstalledAlone(e: int, f: int, at: nat)
    requires e != f
    ensures Installed([], 0, Nothing(), f) == (Holding(f, 0), [Key(0, f)])
    ensures Installed([Key(0, e)], 0, Holding(e, at), f) == (Holding(f, at + 1), [Key(0, f)])
  {
    hide Filled, Evicted, Touched;
    FilledAlone(f, at + 1);
    FilledAlone(f, 0);
    EvictedAlone(e, at);
    TouchedAlone(Key(0, e), Key(0, f));
  }

  lemma FilledAlone(f: int, at: nat)
    ensures Filled(Slots([], [None], map[], at), f) == Holding(f, at)
  {
    assert FirstFree([None]) == Some(0);
  }

  lemma EvictedAlone(e: int, at: nat)
    ensures Evicted(Holding(e, at), e) == Slots([], [None], map[], at + 1)
  {}

  lemma TouchedAlone(j: Key, k: Key)
    ensures Touched([], k) == [k] && Removed([j], j) == [] && Distinct(Holding(0, 0).order)
  {}

  /** A read staged before the call that needs it: it is not waited for, so it is not found
      either; the expert is read a second time, and the staged copy stays. */
  lemma StagedIsReadAgain<W>(bank: Key -> W)
    ensures var k := Key(0, 1);
      RunSmall(bank, 1, [PrefetchOp(0, 1), WorkerOp(Staged(k)), EnsureOp(0, 1, [])])
      == One(Holding(1, 0), [k], Stages(map[k := bank(k)], [k], {}), 0, 1, 0)
  {
    hide RunSmall, SchedOk, After, Taken, Installed, EmptySlots, Small;
    var k, ops := Key(0, 1), [PrefetchOp(0, 1), WorkerOp(Staged(Key(0, 1))), EnsureOp(0, 1, [])];
    var staged := Stages(map[k := bank(k)], [k], {});
    StartSmall(bank, 1);
    EmptyOne();
    PrefetchStep(bank, RunSmall(bank, 1, []), 1);
    RunNext(bank, 1, [], ops[0], One(Nothing(), [], Stages(map[], [], {k}), 0, 0, 0));
    assert [] + [ops[0]] == ops[..1] && ops[..1] + [ops[1]] == ops[..2] && ops[..2] + [ops[2]] == ops;
    StagedStep(bank, One(Nothing(), [], Stages(map[], [], {k}), 0, 0, 0), k);
    RunNext(bank, 1, ops[..1], ops[1], One(Nothing(), [], staged, 0, 0, 0));
    NotAwaited(staged, k, bank);
    InstalledAlone(2, 1, 0);
    MissStep(bank, One(Nothing(), [], staged, 0, 0, 0), 1, [], staged, None, Holding(1, 0), [k]);
    RunNext(bank, 1, ops[..2], ops[2], One(Holding(1, 0), [k], staged, 0, 1, 0));
  }

  lemma StagedStep<W>(bank: Key -> W, s: Sched<W>, k: Key)
    requires SchedOk(s) && s.stages == Stages(map[], [], {k})
    ensures After(Small(bank), s, WorkerOp(Staged(k))) == s.(stages := Stages(map[k := bank(k)], [k], {}))
  {
    hide SchedOk;
  }

  lemma NotAwaited<W>(s: Stages<W>, k: Key, bank: Key -> W)
    requires k !in s.inflight
    ensures Taken(s, k, [], bank, 2) == (s, None)
  {}

  /** The wait while one worker stages the read: it is handed over if its arrival leaves it there. */
  lemma TakenOne<W>(s: Stages<W>, k: Key, bank: Key -> W, r: Stages<W>)
    requires k in s.inflight && Arrived(s, k, bank(k), 2) == r && k !in r.inflight
    ensures Taken(s, k, [[Staged(k)]], bank, 2) ==
      if k in r.staged then (r.(staged := r.staged - {k}), Some(r.staged[k])) else (r, None)
  {
    hide Arrived;
    var block := [Staged(k)];
    var blocks := [block];
    assert block[1..] == [];
    assert WorkedAll(Worked(s, block[0], bank, 2), [], bank, 2) == Worked(s, block[0], bank, 2);
    assert WorkedAll(s, block, bank, 2) == Worked(s, block[0], bank, 2) == r;
    assert blocks[1..] == [] && Awaited(r, k, [], bank, 2) == r;
    assert Awaited(s, k, blocks, bank, 2) == r;
  }

  lemma TakenFirst<W>(k: Key, j: Key, bank: Key -> W)
    requires k != j
    ensures Taken(Stages(map[], [], {k, j}), k, [[Staged(k)]], bank, 2) == (Stages(map[], [k], {j}), Some(bank(k)))
    ensures Taken(Stages(map[], [k], {j}), j, [[Staged(j)]], bank, 2) == (Stages(map[], [k, j], {}), Some(bank(j)))
  {
    hide Taken;
    TakenOne(Stages(map[], [], {k, j}), k, bank, Stages(map[k := bank(k)], [k], {j}));
    TakenOne(Stages(map[], [k], {j}), j, bank, Stages(map[j := bank(j)], [k, j], {}));
  }

  lemma LostOnArrival<W>(k: Key, j: Key, bank: Key -> W)
    requires k != j
    ensures Taken(Stages(map[], [k, j], {k}), k, [[Staged(k)]], bank, 2) == (Stages(map[], [j, k], {}), None)
  {
    hide Taken;
    var s := Stages(map[], [k, j], {k});
    var all := Stages(map[k := bank(k)], [k, j, k], {});
    assert s.order + [k] == all.order && Stages(s.staged[k := bank(k)], s.order + [k], s.inflight - {k}) == all;
    assert Trimmed(all, 2) == Stages(map[], [j, k], {});
    TakenOne(s, k, bank, Stages(map[], [j, k], {}));
  }

  /** Experts 1 and 2 are prefetched and used, then 1 is prefetched again. Its read is pushed out
      on arrival by the mention that the first read left, so 1 is read once more, directly: three
      misses, all prefetched, but only two are served from the staging. */
  lemma StaleMentionLosesRead<W>(bank: Key -> W)
    ensures var k, j := Key(0, 1), Key(0, 2);
      RunSmall(bank, 1,
        [PrefetchOp(0, 1), PrefetchOp(0, 2), EnsureOp(0, 1, [[Staged(k)]]), EnsureOp(0, 2, [[Staged(j)]]),
                         PrefetchOp(0, 1), EnsureOp(0, 1, [[Staged(k)]])])
      == One(Holding(1, 2), [k], Stages(map[], [j, k], {}), 0, 3, 2)
  {
    hide RunSmall, SchedOk, After, Taken, Installed, Small;
    var k, j := Key(0, 1), Key(0, 2);
    var ops := [PrefetchOp(0, 1), PrefetchOp(0, 2), EnsureOp(0, 1, [[Staged(k)]]), EnsureOp(0, 2, [[Staged(j)]])];
    FirstTwoUsed(bank);
    var s := One(Holding(2, 1), [j], Stages(map[], [k, j], {}), 0, 2, 2);
    PrefetchStep(bank, s, 1);
    RunNext(bank, 1, ops, PrefetchOp(0, 1), s.(stages := Stages(map[], [k, j], {k})));
    LostOnArrival(k, j, bank);
    InstalledAlone(2, 1, 1);
    HoldsOne(2, 1);
    MissStep(bank, s.(stages := Stages(map[], [k, j], {k})), 1, [[Staged(k)]], Stages(map[], [j, k], {}), None,
      Holding(1, 2), [k]);
    RunNext(bank, 1, ops + [PrefetchOp(0, 1)], EnsureOp(0, 1, [[Staged(k)]]),
      One(Holding(1, 2), [k], Stages(map[], [j, k], {}), 0, 3, 2));
    assert ops + [PrefetchOp(0, 1)] + [EnsureOp(0, 1, [[Staged(k)]])] ==
      [ops[0], ops[1], ops[2], ops[3], PrefetchOp(0, 1), EnsureOp(0, 1, [[Staged(k)]])];
  }

  lemma HoldsOne(e: int, at: nat)
    ensures Holding(e, at).order == [e] && Distinct(Holding(e, at).order)
  {}

  lemma FirstTwoUsed<W>(bank: Key -> W)
    ensures var k, j := Key(0, 1), Key(0, 2);
      RunSmall(bank, 1,
        [PrefetchOp(0, 1), PrefetchOp(0, 2), EnsureOp(0, 1, [[Staged(k)]]), EnsureOp(0, 2, [[Staged(j)]])])
      == One(Holding(2, 1), [j], Stages(map[], [k, j], {}), 0, 2, 2)
  {
    hide RunSmall, SchedOk, After, Taken, Installed, Small;
    var k, j := Key(0, 1), Key(0, 2);
    var ops := [PrefetchOp(0, 1), PrefetchOp(0, 2), EnsureOp(0, 1, [[Staged(k)]]), EnsureOp(0, 2, [[Staged(j)]])];
    BothPrefetched(bank);
    TakenFirst(k, j, bank);
    InstalledAlone(2, 1, 0);
    InstalledAlone(1, 2, 0);
    HoldsOne(1, 0);
    assert ops[..2] == [ops[0], ops[1]] && ops[..2] + [ops[2]] == ops[..3] && ops[..3] + [ops[3]] == ops;
    MissStep(bank, One(Nothing(), [], Stages(map[], [], {k, j}), 0, 0, 0), 1, [[Staged(k)]],
             Stages(map[], [k], {j}), Some(bank(k)), Holding(1, 0), [k]);
    RunNext(bank, 1, ops[..2], ops[2], One(Holding(1, 0), [k], Stages(map[], [k], {j}), 0, 1, 1));
    MissStep(bank, One(Holding(1, 0), [k], Stages(map[], [k], {j}), 0, 1, 1), 2, [[Staged(j)]],
             Stages(map[], [k, j], {}), Some(bank(j)), Holding(2, 1), [j]);
    RunNext(bank, 1, ops[..3], ops[3], One(Holding(2, 1), [j], Stages(map[], [k, j], {}), 0, 2, 2));
  }

  lemma BothPrefetched<W>(bank: Key -> W)
    ensures RunSmall(bank, 1, [PrefetchOp(0, 1), PrefetchOp(0, 2)]) ==
      One(Nothing(), [], Stages(map[], [], {Key(0, 1), Key(0, 2)}), 0, 0, 0)
  {
    hide RunSmall, SchedOk, After, EmptySlots, Small;
    var k, j, ops := Key(0, 1), Key(0, 2), [PrefetchOp(0, 1), PrefetchOp(0, 2)];
    StartSmall(bank, 1);
    EmptyOne();
    assert [] + [ops[0]] == ops[..1] && ops[..1] + [ops[1]] == ops && {k} + {j} == {k, j};
    PrefetchStep(bank, RunSmall(bank, 1, []), 1);
    RunNext(bank, 1, [], ops[0], One(Nothing(), [], Stages(map[], [], {k}), 0, 0, 0));
    PrefetchStep(bank, RunSmall(bank, 1, ops[..1]), 2);
    RunNext(bank, 1, ops[..1], ops[1], One(Nothing(), [], Stages(map[], [], {k, j}), 0, 0, 0));
  }

  /** Two slots, filled with 1 and then 2. */
  function Two(): Slots { Slots([1, 2], [Some(1), Some(2)], map[1 := 0, 2 := 1], 2) }

  /** A smaller budget removes what was filled first, not what was used longest ago: of 1, 2 and
      then 1 again, it removes 1. */
  lemma BudgetEvictsRecent<W>(bank: Key -> W)
    ensures var ops := [EnsureOp(0, 1, []), EnsureOp(0, 2, []), EnsureOp(0, 1, [])];
      var s, r := RunSmall(bank, 2, ops), RunSmall(bank, 2, ops + [SetBudgetOp(1)]);
      && 0 in s.layers && s.layers[0].order == [1, 2] && 0 in r.layers && r.layers[0].order == [2]
      && LastUse(ops, Key(0, 2)) < LastUse(ops, Key(0, 1))
  {
    hide RunSmall, SchedOk, After, Small, Two;
    var k, j, ops := Key(0, 1), Key(0, 2), [EnsureOp(0, 1, []), EnsureOp(0, 2, []), EnsureOp(0, 1, [])];
    assert Two().order == [1, 2] by { TwoOrder(); }
    var none: Stages<W> := Stages(map[], [], {});
    BothUsed(bank);
    assert ops[..2] + [ops[2]] == ops && ops[..2] == [ops[0], ops[1]];
    assert LastUse(ops, k) == 3 && LastUse(ops, j) == LastUse(ops[..2], j) == 2;
    HitStep(bank, One(Two(), [k, j], none, 0, 2, 0), 1, []);
    TouchedTwo(k, j);
    RunNext(bank, 2, ops[..2], ops[2], One(Two(), [j, k], none, 1, 2, 0));
    ShrinkStep(bank, One(Two(), [j, k], none, 1, 2, 0));
    RunNext(bank, 2, ops, SetBudgetOp(1), After(Small(bank), One(Two(), [j, k], none, 1, 2, 0), SetBudgetOp(1)));
  }

  lemma HitStep<W>(bank: Key -> W, s: Sched<W>, e: int, blocks: seq<seq<WorkerStep>>)
    requires SchedOk(s) && 0 in s.layers && e in s.layers[0].order
    ensures Distinct(s.lru)
    ensures After(Small(bank), s, EnsureOp(0, e, blocks)) == s.(lru := Touched(s.lru, Key(0, e)), hits := s.hits + 1)
  {
    hide Sound, Touched;
  }

  lemma TwoOrder()
    ensures Two().order == [1, 2]
  {}

  lemma TouchedTwo(k: Key, j: Key)
    requires k != j
    ensures Distinct([k, j]) && Touched([k, j], k) == [j, k]
  {
    assert Removed([k, j], k) == [j];
  }

  lemma ShrinkStep<W>(bank: Key -> W, s: Sched<W>)
    requires SchedOk(s) && s.layers == map[0 := Two()]
    ensures var r := After(Small(bank), s, SetBudgetOp(1)); 0 in r.layers && r.layers[0].order == [2]
  {
    hide SchedOk, ResizedTo;
    OneOfTwo();
    assert SlotCap(Small(bank).index, 1, 0) == 1 by { assert |Small(bank).index| == 1; }
  }

  lemma OneOfTwo()
    ensures Distinct(Two().order) && ResizedTo(Two(), 1).order == [2]
  {
    assert TrimmedTo(Two(), 1) == Slots([2], [None, Some(2)], map[2 := 1], 2);
    assert [None, Some(2)][..1] == [None] && Ids([None]) == [];
  }

  lemma BothUsed<W>(bank: Key -> W)
    ensures RunSmall(bank, 2, [EnsureOp(0, 1, []), EnsureOp(0, 2, [])]) ==
      One(Two(), [Key(0, 1), Key(0, 2)], Stages(map[], [], {}), 0, 2, 0)
  {
    hide RunSmall, SchedOk, After, Taken, Installed, Small;
    var k, j, ops := Key(0, 1), Key(0, 2), [EnsureOp(0, 1, []), EnsureOp(0, 2, [])];
    var none: Stages<W> := Stages(map[], [], {});
    StartSmall(bank, 2);
    NotAwaited(none, k, bank);
    NotAwaited(none, j, bank);
    InstalledBoth();
    var first := Slots([1], [Some(1), None], map[1 := 0], 1);
    assert [] + [ops[0]] == ops[..1] && ops[..1] + [ops[1]] == ops;
    MissStep(bank, RunSmall(bank, 2, []), 1, [], none, None, first, [k]);
    RunNext(bank, 2, [], ops[0], One(first, [k], none, 0, 1, 0));
    MissStep(bank, One(first, [k], none, 0, 1, 0), 2, [], none, None, Two(), [k, j]);
    RunNext(bank, 2, ops[..1], ops[1], One(Two(), [k, j], none, 0, 2, 0));
  }

  lemma SecondFits()
    ensures Filled(Slots([1], [Some(1), None], map[1 := 0], 1), 2) == Two()
    ensures Filled(Slots([], [None, None], map[], 0), 1) == Slots([1], [Some(1), None], map[1 := 0], 1)
  {
    FirstFills();
    assert 2 !in [1];
  }

  lemma InstalledBoth()
    ensures Installed([], 0, EmptySlots(2), 1) == (Slots([1], [Some(1), None], map[1 := 0], 1), [Key(0, 1)])
    ensures Distinct([1]) && Installed([Key(0, 1)], 0, Slots([1], [Some(1), None], map[1 := 0], 1), 2)
      == (Two(), [Key(0, 1), Key(0, 2)])
  {
    assert EmptySlots(2) == Slots([], [None, None], map[], 0);
    FirstFills();
    assert Touched([], Key(0, 1)) == [Key(0, 1)];
    assert Removed([Key(0, 1)], Key(0, 2)) == [Key(0, 1)];
    assert Touched([Key(0, 1)], Key(0, 2)) == [Key(0, 1), Key(0, 2)];
    SecondFits();
  }

  /** What a layer holds is what the bank stores for those experts, and all of it is on the recency list. */
  ghost predicate Faithful<W>(bank: Key -> W, lru: seq<Key>, layer: int, held: map<int, W>) {
    forall e :: e in held ==> held[e] == bank(Key(layer, e)) && Key(layer, e) in lru
  }

  lemma TouchKeepsFaithful<W>(bank: Key -> W, lru: seq<Key>, layer: int, held: map<int, W>, k: Key)
    requires Distinct(lru) && Faithful(bank, lru, layer, held)
    ensures Faithful(bank, Touched(lru, k), layer, held)
  {
    forall e | e in held ensures Key(layer, e) in Touched(lru, k) { assert Key(layer, e) in Elements(lru); }
  }

  lemma NothingFaithful<W>(bank: Key -> W, lru: seq<Key>, layer: int, held: map<int, W>)
    requires held == map[]
    ensures Faithful(bank, lru, layer, held)
  {}

  lemma FewerFaithful<W>(bank: Key -> W, lru: seq<Key>, layer: int, held: map<int, W>, e: int)
    requires Faithful(bank, lru, layer, held)
    ensures Faithful(bank, lru, layer, held - {e})
  {}

  /** Dropping from the list a key this layer does not hold. */
  lemma DropKeepsFaithful<W>(bank: Key -> W, lru: seq<Key>, layer: int, held: map<int, W>, k: Key)
    requires Distinct(lru) && Faithful(bank, lru, layer, held) && !(k.layer == layer && k.expert in held)
    ensures Faithful(bank, Removed(lru, k), layer, held)
  {
    forall e | e in held ensures Key(layer, e) in Removed(lru, k) {
      assert Key(layer, e) in Elements(lru) && Key(layer, e) in Elements(lru) - {k};
    }
  }
}
