/** The expert scheduler as the object the runner and its workers share. Every call refines the
    operation of its name on the scheduler's value. */
module ExpertManager {
  import opened Arithmetic
  import opened Common
  import opened ExpertSlots
  import opened ExpertScheduling

  class ExpertScheduler<W(==)> {
    const bank: Key -> W
    const index: map<int, LayerIndex>
    const workers: nat
    var budget: nat
    var modules: map<int, SwlpCachedExperts<W>>
    var lru: seq<Key>
    var staging: map<Key, W>
    var stagingOrder: seq<Key>
    var inflight: set<Key>
    var hits: nat
    var misses: nat
    var prefetchHits: nat
    var evictions: nat

    function SetupOf(): Setup<W> { Setup(bank, index, workers) }

    ghost function View(): Sched<W>
      reads this, modules.Values
    {
      Sched(map l | l in modules :: modules[l].View(), lru, Staging(), hits, misses, prefetchHits)
    }

    ghost predicate Separate()
      reads this, modules.Values
    {
      && (forall l, k :: l in modules && k in modules && l != k ==> modules[l] != modules[k])
      && (forall l, k :: l in modules && k in modules && l != k ==> modules[l].slots != modules[k].slots)
    }

    ghost predicate LayerOk(l: int)
      requires l in modules
      reads this, modules[l], modules[l].slots
    {
      modules[l].Valid() && Faithful(bank, lru, l, modules[l].Contents())
    }

    ghost predicate Valid()
      reads this, modules.Values, set m | m in modules.Values :: m.slots
    {
      && Separate() && Distinct(lru) && workers >= 1
      && (forall l :: l in modules ==> LayerOk(l))
      && (forall k :: k in staging ==> staging[k] == bank(k))
    }

    constructor (bank: Key -> W, index: map<int, LayerIndex>, workers: nat, budget: nat)
      requires workers >= 1
      ensures Valid() && modules == map[] && View() == StartSched(map[])
      ensures this.bank == bank && this.index == index && this.workers == workers && this.budget == budget
    {
      this.bank, this.index, this.workers, this.budget := bank, index, workers, budget;
      modules, lru, staging, stagingOrder, inflight := map[], [], map[], [], {};
      hits, misses, prefetchHits, evictions := 0, 0, 0, 0;
    }

    /** Add a layer's empty slot cache. */
    method Register(layer: int, module_: SwlpCachedExperts<W>)
      requires Valid() && module_.Valid() && module_.Contents() == map[]
      requires forall l :: l in modules && l != layer ==> modules[l] != module_ && modules[l].slots != module_.slots
      modifies this`modules
      ensures Valid() && modules == old(modules)[layer := module_]
      ensures View() == old(View()).(layers := old(View()).layers[layer := module_.View()])
    {
      hide Inverse, Sound, Held, Faithful;
      NothingFaithful(bank, lru, layer, module_.Contents());
      modules := modules[layer := module_];
      forall l | l in modules ensures LayerOk(l) {
        if l != layer { assert old(LayerOk(l)); }
      }
    }

    method Touch(layer: int, eid: int)
      requires Valid()
      modifies this`lru
      ensures Valid() && lru == old(Touched(lru, Key(layer, eid)))
    {
      ghost var before := lru;
      lru := Touched(lru, Key(layer, eid));
      forall l | l in modules ensures LayerOk(l) {
        assert old(LayerOk(l));
        TouchKeepsFaithful(bank, before, l, modules[l].Contents(), Key(layer, eid));
      }
    }

    function Staging(): Stages<W>
      reads this
    {
      Stages(staging, stagingOrder, inflight)
    }

    /** Keep a finished read, and at most two per worker of them in all. */
    method Stage(k: Key, w: W)
      modifies this`staging, this`stagingOrder, this`inflight
      ensures Staging() == Arrived(old(Staging()), k, w, 2 * workers)
    {
      staging, stagingOrder, inflight := staging[k := w], stagingOrder + [k], inflight - {k};
      while |stagingOrder| > 2 * workers
        invariant Trimmed(Staging(), 2 * workers) == Arrived(old(Staging()), k, w, 2 * workers)
        decreases |stagingOrder|
      {
        staging, stagingOrder := staging - {stagingOrder[0]}, stagingOrder[1..];
      }
    }

    method Prefetch(layer: int, eid: int)
      requires Valid()
      modifies this`inflight
      ensures Valid() && View() == Prefetched(old(View()), layer, eid)
      ensures var k := Key(layer, eid);
        inflight == old(inflight) + if layer in modules && eid !in modules[layer].slotOf &&
          k !in staging then {k} else {}
    {
      var k := Key(layer, eid);
      if layer in modules { modules[layer].OrderIsHeld(eid); }
      if layer in modules && eid !in modules[layer].slotOf && k !in staging && k !in inflight {
        inflight := inflight + {k};
      }
    }

    /** What one worker does. */
    method Apply(step: WorkerStep)
      modifies this`staging, this`stagingOrder, this`inflight
      ensures Staging() == Worked(old(Staging()), step, bank, 2 * workers)
    {
      if step.key in inflight {
        if step.Staged? { Stage(step.key, bank(step.key)); } else { inflight := inflight - {step.key}; }
      }
    }

    method ApplyAll(steps: seq<WorkerStep>)
      modifies this`staging, this`stagingOrder, this`inflight
      ensures Staging() == WorkedAll(old(Staging()), steps, bank, 2 * workers)
    {
      hide Worked;
      for i := 0 to |steps|
        invariant WorkedAll(Staging(), steps[i..], bank, 2 * workers) ==
          WorkedAll(old(Staging()), steps, bank, 2 * workers)
      {
        assert steps[i..][0] == steps[i] && steps[i..][1..] == steps[i + 1..];
        Apply(steps[i]);
      }
    }

    /** Wait for a read already in flight. Between two looks the workers stage and fail reads as
        they like; the wait may also time out. A read that had already been staged is not looked for. */
    method AwaitStaged(k: Key, blocks: seq<seq<WorkerStep>>) returns (staged: Option<W>)
      modifies this`staging, this`stagingOrder, this`inflight
      ensures (Staging(), staged) == Taken(old(Staging()), k, blocks, bank, 2 * workers)
    {
      hide WorkedAll;
      if k !in inflight { return None; }
      ghost var start := Staging();
      var i := 0;
      while k in inflight && i < |blocks|
        invariant i <= |blocks|
        invariant Awaited(start, k, blocks, bank, 2 * workers) == Awaited(Staging(), k, blocks[i..], bank, 2 * workers)
        decreases |blocks| - i
      {
        assert blocks[i..][0] == blocks[i] && blocks[i..][1..] == blocks[i + 1..];
        ApplyAll(blocks[i]);
        i := i + 1;
        if k in staging { break; }
      }
      if k !in staging { return None; }
      staged := Some(staging[k]);
      staging := staging - {k};
    }

    /** The weights of a missing expert, staged if its read was in flight, else read now. */
    method Obtain(k: Key, blocks: seq<seq<WorkerStep>>) returns (w: W)
      requires Valid()
      modifies this`misses, this`prefetchHits, this`staging, this`stagingOrder, this`inflight
      ensures Valid() && w == bank(k) && misses == old(misses) + 1
      ensures var taken := Taken(old(Staging()), k, blocks, bank, 2 * workers);
        Staging() == taken.0 && prefetchHits == old(prefetchHits) + if taken.1.Some? then 1 else 0
    {
      hide Taken, Inverse, Sound, Held, Faithful;
      misses := misses + 1;
      TakenTrue(Staging(), k, blocks, bank, 2 * workers);
      var staged := AwaitStaged(k, blocks);
      if staged.Some? { prefetchHits := prefetchHits + 1; }
      w := if staged.Some? then staged.value else bank(k);
    }

    method EvictListed(layer: int, i: nat)
      requires Valid() && layer in modules && i < |lru| && lru[i].layer == layer
      requires lru[i].expert in modules[layer].slotOf
      modifies this`lru, this`evictions, modules[layer], modules[layer].slots
      ensures Valid() && modules[layer].slots == old(modules[layer].slots)
      ensures modules[layer].Contents() == old(modules[layer].Contents()) - {old(lru)[i].expert}
      ensures old(Distinct(modules[layer].order))
      ensures modules[layer].View() == Evicted(old(modules[layer].View()), old(lru)[i].expert)
      ensures lru == old(Removed(lru, lru[i]))
    {
      hide Inverse, Sound, Held, Evicted, Faithful, Elements, Distinct;
      ghost var before, k := lru, lru[i];
      modules[layer].Evict(lru[i].expert);
      evictions := evictions + 1;
      lru := Removed(lru, lru[i]);
      forall l | l in modules ensures LayerOk(l) {
        assert old(LayerOk(l));
        if l == layer { FewerFaithful(bank, before, l, old(modules[l].Contents()), k.expert); }
        assert Faithful(bank, before, l, modules[l].Contents());
        DropKeepsFaithful(bank, before, l, modules[l].Contents(), k);
      }
    }

    /** The layer's victim on the recency list. */
    method FindListed(layer: int) returns (i: Option<nat>)
      requires Valid() && layer in modules
      ensures i.Some? ==> i.value < |lru| && lru[i.value].layer == layer && lru[i.value].expert in modules[layer].slotOf
      ensures Victim(lru, layer, modules[layer].order) == if i.Some? then Some(lru[i.value].expert) else None
    {
      hide Inverse, Sound, Held, Elements;
      var m := modules[layer];
      assert LayerOk(layer);
      for k := 0 to |lru|
        invariant forall j :: 0 <= j < k ==> !(lru[j].layer == layer && lru[j].expert in m.order)
      {
        m.OrderIsHeld(lru[k].expert);
        if lru[k].layer == layer && lru[k].expert in m.slotOf {
          VictimAt(lru, layer, m.order, k);
          assert lru[k..][0] == lru[k];
          return Some(k);
        }
      }
      VictimAt(lru, layer, m.order, |lru|);
      i := None;
    }

    /** Free one slot of the layer: its least recently used expert goes, and nothing else. The
        fallback on the layer's own order is only reached when nothing is held. */
    method EvictLeastRecentInLayer(layer: int)
      requires Valid() && layer in modules
      modifies this`lru, this`evictions, modules[layer], modules[layer].slots
      ensures Valid() && modules[layer].slots == old(modules[layer].slots)
      ensures old(Distinct(modules[layer].order))
      ensures (modules[layer].View(), lru) == old(Freed(lru, layer, modules[layer].View()))
      ensures old(Victim(lru, layer, modules[layer].order)).Some? <==> old(modules[layer].order) != []
      ensures modules[layer].Contents() ==
        old(modules[layer].Contents()) - OptionSet(old(Victim(lru, layer, modules[layer].order)))
    {
      hide Inverse, Sound, Held, Evicted, Elements, Victim;
      assert LayerOk(layer);
      AllListed(layer);
      if modules[layer].order != [] { VictimOf(lru, layer, modules[layer].order); }
      modules[layer].NothingHeld();
      var i := FindListed(layer);
      if i.Some? {
        EvictListed(layer, i.value);
      } else {
        EvictUnlisted(layer);
      }
    }

    method EvictUnlisted(layer: int)
      requires Valid() && layer in modules && modules[layer].order == []
      modifies this`evictions, modules[layer], modules[layer].slots
      ensures Valid() && modules[layer].slots == old(modules[layer].slots)
      ensures modules[layer].View() == old(modules[layer].View())
      ensures modules[layer].Contents() == old(modules[layer].Contents())
    {
      hide Inverse, Sound, Held;
      assert LayerOk(layer);
      modules[layer].NothingHeld();
      modules[layer].EvictLruLocal();
      evictions := evictions + 1;
      modules[layer].NothingHeld();
      forall l | l in modules ensures LayerOk(l) { assert old(LayerOk(l)); }
    }

    lemma AllListed(layer: int)
      requires Valid() && layer in modules
      ensures forall e :: e in modules[layer].order ==> Key(layer, e) in lru
      ensures Distinct(modules[layer].order)
    {
      assert LayerOk(layer);
      forall e | e in modules[layer].order ensures Key(layer, e) in lru {
        modules[layer].OrderIsHeld(e);
      }
    }

    lemma ViewOk()
      requires Valid()
      ensures SchedOk(View())
      ensures forall l, e :: l in modules ==> (e in modules[l].slotOf <==> e in View().layers[l].order)
    {
      forall l | l in modules
        ensures Sound(modules[l].View()) && forall e :: e in modules[l].order ==> Key(l, e) in lru
      {
        assert LayerOk(l);
        AllListed(l);
      }
      forall l, e | l in modules ensures e in modules[l].slotOf <==> e in View().layers[l].order {
        assert LayerOk(l);
        modules[l].OrderIsHeld(e);
      }
    }

    method FillListed(layer: int, eid: int, w: W)
      requires Valid() && layer in modules && modules[layer].FreeSlots() > 0 && eid !in modules[layer].slotOf
      requires w == bank(Key(layer, eid))
      modifies this`lru, modules[layer], modules[layer].slots
      ensures Valid() && modules[layer].slots == old(modules[layer].slots)
      ensures modules[layer].Contents() == old(modules[layer].Contents())[eid := w]
      ensures modules[layer].View() == Filled(old(modules[layer].View()), eid)
      ensures lru == old(Touched(lru, Key(layer, eid)))
    {
      hide Inverse, Sound, Held, Filled;
      ghost var before := lru;
      var ok := modules[layer].Fill(eid, w);
      lru := Touched(lru, Key(layer, eid));
      forall l | l in modules ensures LayerOk(l) {
        assert old(LayerOk(l));
        if l != layer {
          TouchKeepsFaithful(bank, before, l, modules[l].Contents(), Key(layer, eid));
        } else {
          TouchKeepsFaithful(bank, before, l, old(modules[l].Contents()), Key(layer, eid));
          assert Key(layer, eid) in Elements(lru);
        }
      }
    }

    /** A missing expert takes a free slot, or that of the layer's least recently used one. */
    method Install(layer: int, eid: int, w: W)
      requires Valid() && layer in modules && eid !in modules[layer].slotOf && w == bank(Key(layer, eid))
      modifies this`lru, this`evictions, modules[layer], modules[layer].slots
      ensures Valid() && modules[layer].slots == old(modules[layer].slots)
      ensures old(Distinct(modules[layer].order))
      ensures (modules[layer].View(), lru) == old(Installed(lru, layer, modules[layer].View(), eid))
      ensures Exchanged(old(modules[layer].Contents()), modules[layer].Contents(), eid, w,
        old(Leaver(lru, layer, modules[layer].View())))
    {
      hide Inverse, Sound, Held, Filled, Evicted, Elements, Distinct, Touched, Victim, Freed;
      var m := modules[layer];
      assert LayerOk(layer);
      AllListed(layer);
      m.Room();
      m.OrderIsHeld(eid);
      FreedRoom(lru, layer, m.View(), eid);
      ghost var gone := Leaver(lru, layer, m.View());
      if gone.Some? { m.OrderIsHeld(gone.value); }
      if m.FreeSlots() == 0 { EvictLeastRecentInLayer(layer); }
      assert LayerOk(layer);
      m.Room();
      m.OrderIsHeld(eid);
      FillListed(layer, eid, w);
    }

    /** The slot holding the requested expert: at once on a hit; on a miss from the staged or
        a direct read, after evicting the layer's least recently used expert if it is full. */
    method Ensure(layer: int, eid: int, blocks: seq<seq<WorkerStep>>) returns (slot: nat)
      requires Valid() && layer in modules
      modifies this, modules[layer], modules[layer].slots
      ensures Valid() && modules == old(modules) && modules[layer].slots == old(modules[layer].slots)
      ensures old(SchedOk(View())) && View() == Ensured(SetupOf(), old(View()), layer, eid, blocks)
      ensures eid in modules[layer].slotOf && modules[layer].slotOf[eid] == slot
      ensures slot < modules[layer].slots.Length && modules[layer].slots[slot] == bank(Key(layer, eid))
      ensures eid in old(modules[layer].slotOf) ==> modules[layer].Contents() == old(modules[layer].Contents())
      ensures eid !in old(modules[layer].slotOf) ==>
        Exchanged(old(modules[layer].Contents()), modules[layer].Contents(), eid, bank(Key(layer, eid)),
          old(Leaver(lru, layer, modules[layer].View())))
    {
      hide Distinct, Inverse, Elements, Sound, Held, Installed, Taken, Touched, Victim, Faithful, SchedOk;
      hide Ensured, Exchanged, Leaver;
      ViewOk();
      assert LayerOk(layer);
      modules[layer].OrderIsHeld(eid);
      ghost var before := View();
      if eid in modules[layer].slotOf { Hit(layer, eid); } else { Miss(layer, eid, blocks); }
      OthersKept(before, layer);
      EnsuredIs(SetupOf(), before, View(), layer, eid, blocks);
      SlotIs(layer, eid);
      slot := modules[layer].slotOf[eid];
    }

    method Hit(layer: int, eid: int)
      requires Valid() && layer in modules && eid in modules[layer].slotOf
      modifies this`lru, this`hits
      ensures Valid() && lru == old(Touched(lru, Key(layer, eid))) && hits == old(hits) + 1
      ensures eid in modules[layer].Contents()
    {
      hide Inverse, Sound, Held, Faithful, Touched;
      assert LayerOk(layer);
      modules[layer].OrderIsHeld(eid);
      hits := hits + 1;
      Touch(layer, eid);
    }

    method Miss(layer: int, eid: int, blocks: seq<seq<WorkerStep>>)
      requires Valid() && layer in modules && eid !in modules[layer].slotOf
      modifies this`lru, this`evictions, this`misses, this`prefetchHits, this`staging, this`stagingOrder, this`inflight
      modifies modules[layer], modules[layer].slots
      ensures Valid() && modules[layer].slots == old(modules[layer].slots) && misses == old(misses) + 1
      ensures old(Distinct(modules[layer].order))
      ensures (modules[layer].View(), lru) == old(Installed(lru, layer, modules[layer].View(), eid))
      ensures var taken := Taken(old(Staging()), Key(layer, eid), blocks, bank, 2 * workers);
        Staging() == taken.0 && prefetchHits == old(prefetchHits) + if taken.1.Some? then 1 else 0
      ensures Exchanged(old(modules[layer].Contents()), modules[layer].Contents(), eid, bank(Key(layer, eid)),
                        old(Leaver(lru, layer, modules[layer].View())))
      ensures eid in modules[layer].Contents()
    {
      hide Inverse, Sound, Held, Faithful, Installed, Taken, Leaver;
      var w := Obtain(Key(layer, eid), blocks);
      Install(layer, eid, w);
    }

    lemma OthersKept(before: Sched<W>, layer: int)
      requires layer in modules && before.layers.Keys == modules.Keys
      requires forall l :: l in modules && l != layer ==> modules[l].View() == before.layers[l]
      ensures View().layers == before.layers[layer := modules[layer].View()]
    {}

    lemma SlotIs(layer: int, eid: int)
      requires Valid() && layer in modules && eid in modules[layer].Contents()
      ensures eid in modules[layer].slotOf && modules[layer].slotOf[eid] < modules[layer].slots.Length
      ensures modules[layer].slots[modules[layer].slotOf[eid]] == bank(Key(layer, eid))
    {
      hide Inverse, Sound, Held;
      assert LayerOk(layer);
      modules[layer].OrderIsHeld(eid);
      modules[layer].SlotHolds(eid);
    }

    /** The layer has this capacity, and of what it held the survivors, with their weights. */
    ghost predicate Resized(l: int, cap: nat, held: map<int, W>, was: Slots)
      requires l in modules
      reads this`modules, modules[l], modules[l].slots
    {
      && modules[l].slots.Length == AtLeastOne(cap) && modules[l].Valid()
      && modules[l].Contents() == Restricted(held, Survivors(was.order, AtLeastOne(cap)))
      && (|was.order| <= AtLeastOne(cap) ==> modules[l].Contents() == held)
      && Distinct(was.order) && modules[l].View() == ResizedTo(was, cap)
    }

    method ResizeLayer(l: int, cap: nat)
      requires Valid() && l in modules
      modifies modules[l], modules[l].slots
      ensures Valid() && Resized(l, cap, old(modules[l].Contents()), old(modules[l].View()))
      ensures modules[l].slots == old(modules[l].slots) || fresh(modules[l].slots)
    {
      hide Inverse, Sound, Held, ResizedTo, Survivors;
      modules[l].Resize(cap);
      forall k | k in modules ensures LayerOk(k) { assert old(LayerOk(k)); }
    }

    /** A new budget resizes every layer: what survives keeps its weights, and the recency
        list may keep keys no longer resident, which eviction skips. */
    method SetBudget(requested: int)
      requires Valid()
      modifies this`budget, modules.Values, set m | m in modules.Values :: m.slots
      ensures Valid() && budget == (if requested < 0 then 0 else requested)
      ensures old(SchedOk(View())) && View() == Rebudgeted(SetupOf(), old(View()), requested)
      ensures forall l :: l in modules ==>
        Resized(l, SlotCap(index, budget, l), old(modules[l].Contents()), old(modules[l].View()))
      ensures forall l :: l in modules && |old(modules[l].order)| <= SlotCap(index, budget, l) ==>
        modules[l].Contents() == old(modules[l].Contents())
    {
      hide SlotCap, ResizedTo, Sound, Inverse, Held, Faithful, Restricted, SchedOk, Rebudgeted;
      ViewOk();
      ghost var before := View();
      budget := if requested < 0 then 0 else requested;
      ResizeAll(modules.Keys);
      RebudgetedIs(SetupOf(), before, View(), requested);
    }

    method ResizeAll(todo: set<int>)
      requires Valid() && todo <= modules.Keys
      modifies (set l | l in todo :: modules[l]), (set l | l in todo :: modules[l].slots)
      ensures Valid()
      ensures forall l :: l in todo ==>
        Resized(l, SlotCap(index, budget, l), old(modules[l].Contents()), old(modules[l].View()))
      ensures forall l :: l in todo ==> modules[l].slots == old(modules[l].slots) || fresh(modules[l].slots)
      decreases |todo|
    {
      hide Inverse, Distinct, Elements, Faithful, SlotCap, Held, ExpertScheduler.Resized;
      hide SwlpCachedExperts.Valid;
      if todo == {} { return; }
      var l := MemberOf(todo);
      ResizeLayer(l, SlotCap(index, budget, l));
      ResizeAll(todo - {l});
    }
  }
}
