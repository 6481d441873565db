/** The bounded slot cache of one mixture-of-experts layer: two maps between experts and
    slots, and an array of weights rewritten in place.

    `Slots` is the cache without its weights, with a stamp for the time each expert was filled. */
module ExpertSlots {
  import opened Arithmetic
  import opened Common

  // ---------------------------------------------------------------- occupancy

  /** The experts held, in slot order. */
  function Ids(idOf: seq<Option<int>>): (ids: seq<int>) {
    if idOf == [] then []
    else
      var x := idOf[|idOf| - 1];
      Ids(idOf[..|idOf| - 1]) + if x.Some? then [x.value] else []
  }

  lemma {:induction false} IdsMembers(idOf: seq<Option<int>>)
    ensures |Ids(idOf)| <= |idOf| && (|Ids(idOf)| == |idOf| <==> None !in idOf)
    ensures forall e :: e in Ids(idOf) <==> Some(e) in idOf
  {
    if idOf != [] {
      IdsMembers(idOf[..|idOf| - 1]);
      assert idOf == idOf[..|idOf| - 1] + [idOf[|idOf| - 1]];
    }
  }

  /** No expert in two slots. */
  ghost predicate Injective(idOf: seq<Option<int>>) {
    forall i, j :: 0 <= i < j < |idOf| && idOf[i].Some? ==> idOf[i] != idOf[j]
  }

  lemma {:induction false} IdsDistinct(idOf: seq<Option<int>>)
    requires Injective(idOf)
    ensures Distinct(Ids(idOf))
  {
    if idOf != [] {
      var front := idOf[..|idOf| - 1];
      IdsDistinct(front);
      IdsMembers(front);
      assert idOf == front + [idOf[|idOf| - 1]];
    }
  }

  /** `slotOf` and `idOf` are inverse to each other. */
  ghost predicate Inverse(slotOf: map<int, nat>, idOf: seq<Option<int>>) {
    && (forall e :: e in slotOf ==> slotOf[e] < |idOf| && idOf[slotOf[e]] == Some(e))
    && (forall s :: 0 <= s < |idOf| && idOf[s].Some? ==> idOf[s].value in slotOf && slotOf[idOf[s].value] == s)
  }

  lemma InverseCounts(slotOf: map<int, nat>, idOf: seq<Option<int>>)
    requires Inverse(slotOf, idOf)
    ensures Injective(idOf) && Distinct(Ids(idOf)) && Elements(Ids(idOf)) == slotOf.Keys
    ensures |slotOf| == |Ids(idOf)| <= |idOf| && (|slotOf| < |idOf| <==> None in idOf)
  {
    assert Injective(idOf);
    IdsDistinct(idOf);
    IdsMembers(idOf);
    DistinctSize(Ids(idOf));
    forall e ensures e in Ids(idOf) <==> e in slotOf {
      if Some(e) in idOf {
        var s :| 0 <= s < |idOf| && idOf[s] == Some(e);
      }
    }
    assert Elements(Ids(idOf)) == slotOf.Keys;
  }

  /** The weights held for each resident expert. */
  function Held<W>(slotOf: map<int, nat>, weights: seq<W>): map<int, W>
    requires forall e :: e in slotOf ==> slotOf[e] < |weights|
  {
    map e | e in slotOf :: weights[slotOf[e]]
  }

  lemma HeldAt<W>(slotOf: map<int, nat>, idOf: seq<Option<int>>, weights: seq<W>, slot: nat)
    requires Inverse(slotOf, idOf) && |idOf| == |weights| && slot < |idOf| && idOf[slot].Some?
    ensures idOf[slot].value in slotOf && Held(slotOf, weights)[idOf[slot].value] == weights[slot]
  {}

  lemma FillHolds<W>(slotOf: map<int, nat>, idOf: seq<Option<int>>, weights: seq<W>, eid: int, slot: nat, w: W)
    requires Inverse(slotOf, idOf) && |idOf| == |weights| && eid !in slotOf && slot < |idOf| && idOf[slot] == None
    ensures Inverse(slotOf[eid := slot], idOf[slot := Some(eid)])
    ensures Held(slotOf[eid := slot], weights[slot := w]) == Held(slotOf, weights)[eid := w]
  {
    var before, after := Held(slotOf, weights), Held(slotOf[eid := slot], weights[slot := w]);
    assert after.Keys == before[eid := w].Keys;
    forall e | e in after ensures after[e] == before[eid := w][e] {
      if e != eid { assert idOf[slotOf[e]] == Some(e) && slotOf[e] != slot; }
    }
  }

  lemma EvictHolds<W>(slotOf: map<int, nat>, idOf: seq<Option<int>>, weights: seq<W>, eid: int, w: W)
    requires Inverse(slotOf, idOf) && |idOf| == |weights| && eid in slotOf
    ensures Inverse(slotOf - {eid}, idOf[slotOf[eid] := None])
    ensures Held(slotOf - {eid}, weights[slotOf[eid] := w]) == Held(slotOf, weights) - {eid}
  {
    var before, after := Held(slotOf, weights), Held(slotOf - {eid}, weights[slotOf[eid] := w]);
    assert after.Keys == (before - {eid}).Keys;
    forall e | e in after ensures after[e] == (before - {eid})[e] {
      assert idOf[slotOf[e]] == Some(e) && slotOf[e] != slotOf[eid];
    }
  }

  lemma {:induction false} IdsPrefix(idOf: seq<Option<int>>, n: nat)
    requires n <= |idOf|
    ensures Ids(idOf[..n]) <= Ids(idOf)
  {
    if n == |idOf| {
      assert idOf[..n] == idOf;
    } else {
      IdsPrefix(idOf[..|idOf| - 1], n);
      assert idOf[..|idOf| - 1][..n] == idOf[..n];
    }
  }

  lemma IdsStep(idOf: seq<Option<int>>, n: nat)
    requires n < |idOf|
    ensures Ids(idOf[..n + 1]) == Ids(idOf[..n]) + if idOf[n].Some? then [idOf[n].value] else []
    ensures |Ids(idOf[..n + 1])| <= |Ids(idOf)|
  {
    IdsPrefix(idOf, n + 1);
    assert idOf[..n + 1][..n] == idOf[..n];
  }

  /** The last `capacity` experts of the order. */
  function Survivors(order: seq<int>, capacity: nat): seq<int> {
    if |order| <= capacity then order else order[|order| - capacity..]
  }

  function Restricted<T>(held: map<int, T>, keys: seq<int>): map<int, T> { map e | e in held && e in keys :: held[e] }

  lemma RestrictedAll<T>(held: map<int, T>, keys: seq<int>)
    requires Elements(keys) == held.Keys
    ensures Restricted(held, keys) == held
  {
    assert forall e :: e in held ==> e in Elements(keys);
  }

  lemma RestrictedTail<T>(held: map<int, T>, keys: seq<int>)
    requires keys != []
    ensures Restricted(Restricted(held, keys), keys[1..]) == Restricted(held, keys[1..])
  {}

  // ---------------------------------------------------------------- the cache over time

  /** `order` is the order in which the slot map lists the experts, `filled` when each was filled. */
  datatype Slots = Slots(order: seq<int>, idOf: seq<Option<int>>, filled: map<int, nat>, fills: nat)

  function EmptySlots(capacity: int): Slots { Slots([], seq(AtLeastOne(capacity), i => None), map[], 0) }

  ghost predicate Stamped(o: Slots) {
    && (forall e :: e in o.filled ==> o.filled[e] < o.fills)
    && (forall e, k :: e in o.filled && k in o.filled && o.filled[e] == o.filled[k] ==> e == k)
  }

  ghost predicate Sound(o: Slots) {
    && |o.idOf| >= 1 && Injective(o.idOf) && Distinct(o.order)
    && (forall e :: e in o.order <==> Some(e) in o.idOf)
    && o.filled.Keys == Elements(o.order) && Stamped(o)
  }

  /** The lowest free slot. */
  function FirstFree(idOf: seq<Option<int>>): (slot: Option<nat>)
    ensures slot.None? <==> None !in idOf
    ensures slot.Some? ==> slot.value < |idOf| && idOf[slot.value] == None
    ensures slot.Some? ==> forall s :: 0 <= s < slot.value ==> idOf[s].Some?
  {
    if idOf == [] then None
    else
      var n := |idOf| - 1;
      assert idOf == idOf[..n] + [idOf[n]];
      var earlier := FirstFree(idOf[..n]);
      if earlier.Some? then earlier else if idOf[n].None? then Some(n) else None
  }

  function Filled(o: Slots, eid: int): Slots {
    var slot := FirstFree(o.idOf);
    if slot.None? then o
    else Slots(o.order + [eid], o.idOf[slot.value := Some(eid)], o.filled[eid := o.fills], o.fills + 1)
  }

  function Cleared(idOf: seq<Option<int>>, eid: int): seq<Option<int>> {
    seq(|idOf|, i requires 0 <= i < |idOf| => if idOf[i] == Some(eid) then None else idOf[i])
  }

  function Evicted(o: Slots, eid: int): (r: Slots)
    requires Distinct(o.order)
    ensures Distinct(r.order) && |r.idOf| == |o.idOf|
  {
    if eid !in o.order then o else Slots(Removed(o.order, eid), Cleared(o.idOf, eid), o.filled - {eid}, o.fills)
  }

  /** What the order lists first goes, until `capacity` experts are left. */
  function TrimmedTo(o: Slots, capacity: nat): (r: Slots)
    requires Distinct(o.order)
    ensures Distinct(r.order) && |r.idOf| == |o.idOf|
    decreases |o.order|
  {
    if |o.order| <= capacity then o
    else
      RemovedFirst(o.order);
      TrimmedTo(Evicted(o, o.order[0]), capacity)
  }

  /** The experts move to the lowest slots, and the order becomes that of their slots. */
  function Compacted(o: Slots, capacity: nat): Slots {
    var ids := Ids(o.idOf);
    Slots(ids, Packed(ids, capacity), o.filled, o.fills)
  }

  function ResizedTo(o: Slots, requested: int): Slots
    requires Distinct(o.order)
  {
    var capacity := AtLeastOne(requested);
    if capacity == |o.idOf| then o else Compacted(TrimmedTo(o, capacity), capacity)
  }

  lemma RemovedFirst(order: seq<int>)
    requires order != [] && Distinct(order)
    ensures Removed(order, order[0]) == order[1..]
  {}

  lemma FilledSound(o: Slots, eid: int)
    requires Sound(o) && eid !in o.order
    ensures Sound(Filled(o, eid))
  {
    var slot := FirstFree(o.idOf);
    if slot.Some? {
      ElementsSnoc(o.order, eid);
      FilledIds(o.idOf, slot.value, eid);
    }
  }

  lemma FilledIds(idOf: seq<Option<int>>, slot: nat, eid: int)
    requires Injective(idOf) && slot < |idOf| && idOf[slot] == None && Some(eid) !in idOf
    ensures Injective(idOf[slot := Some(eid)])
    ensures forall e :: Some(e) in idOf[slot := Some(eid)] <==> Some(e) in idOf || e == eid
  {
    var r := idOf[slot := Some(eid)];
    assert r[slot] == Some(eid);
    forall e | Some(e) in idOf ensures Some(e) in r {
      var i :| 0 <= i < |idOf| && idOf[i] == Some(e);
      assert r[i] == Some(e);
    }
  }

  lemma ClearedIds(idOf: seq<Option<int>>, eid: int)
    requires Injective(idOf)
    ensures Injective(Cleared(idOf, eid))
    ensures forall e :: Some(e) in Cleared(idOf, eid) <==> Some(e) in idOf && e != eid
  {
    forall e | Some(e) in idOf && e != eid ensures Some(e) in Cleared(idOf, eid) {
      var i :| 0 <= i < |idOf| && idOf[i] == Some(e);
      assert Cleared(idOf, eid)[i] == Some(e);
    }
  }

  lemma EvictedSound(o: Slots, eid: int)
    requires Sound(o)
    ensures Sound(Evicted(o, eid))
  {
    if eid in o.order {
      ClearedIds(o.idOf, eid);
      RemovedMembers(o.order, eid);
    }
  }

  lemma {:induction false} TrimmedSound(o: Slots, capacity: nat)
    requires Sound(o)
    ensures var r := TrimmedTo(o, capacity);
      && Sound(r) && r.order == Survivors(o.order, capacity) && r.fills == o.fills
      && r.filled == Restricted(o.filled, r.order)
    decreases |o.order|
  {
    hide Sound, Restricted, Evicted, Survivors, Elements;
    SoundOrder(o);
    SurvivorsStep(o.order, capacity);
    if |o.order| > capacity {
      EvictedSound(o, o.order[0]);
      FirstEvicted(o);
      TrimmedSound(Evicted(o, o.order[0]), capacity);
      RestrictedTwice(o.filled, o.order[0], Survivors(o.order, capacity));
    } else {
      RestrictedAll(o.filled, o.order);
    }
  }

  lemma SurvivorsStep(order: seq<int>, capacity: nat)
    requires Distinct(order)
    ensures |order| <= capacity ==> Survivors(order, capacity) == order
    ensures |order| > capacity ==>
      Survivors(order, capacity) == Survivors(order[1..], capacity) && order[0] !in Survivors(order, capacity)
  {}

  lemma FirstEvicted(o: Slots)
    requires Distinct(o.order) && o.order != []
    ensures var r := Evicted(o, o.order[0]);
      r.order == o.order[1..] && r.filled == o.filled - {o.order[0]} && r.fills == o.fills
  {
    RemovedFirst(o.order);
  }

  lemma SoundOrder(o: Slots)
    requires Sound(o)
    ensures Distinct(o.order) && o.filled.Keys == Elements(o.order) && |o.idOf| >= 1 && |o.order| <= |o.idOf|
    ensures Elements(Ids(o.idOf)) == Elements(o.order) && |Ids(o.idOf)| == |o.order|
  {
    IdsMembers(o.idOf);
    IdsDistinct(o.idOf);
    forall e ensures e in Elements(Ids(o.idOf)) <==> e in Elements(o.order) {
      assert e in Ids(o.idOf) <==> e in o.order;
    }
    assert Elements(Ids(o.idOf)) == Elements(o.order);
    DistinctSize(Ids(o.idOf));
    DistinctSize(o.order);
  }

  lemma RestrictedTwice<T>(held: map<int, T>, first: int, keys: seq<int>)
    requires first !in keys
    ensures Restricted(held - {first}, keys) == Restricted(held, keys)
  {}

  function Packed(ids: seq<int>, capacity: nat): (r: seq<Option<int>>)
    ensures |r| == capacity
  {
    seq(capacity, i requires 0 <= i < capacity => if i < |ids| then Some(ids[i]) else None)
  }

  lemma PackedIds(ids: seq<int>, capacity: nat)
    requires Distinct(ids) && |ids| <= capacity
    ensures Injective(Packed(ids, capacity)) && forall e :: e in ids <==> Some(e) in Packed(ids, capacity)
  {
    forall e | e in ids ensures Some(e) in Packed(ids, capacity) {
      var j :| 0 <= j < |ids| && ids[j] == e;
      assert Packed(ids, capacity)[j] == Some(e);
    }
  }

  lemma CompactedSound(o: Slots, capacity: nat)
    requires Sound(o) && 1 <= capacity && |o.order| <= capacity
    ensures Sound(Compacted(o, capacity))
  {
    hide Stamped, Injective, Ids, Packed;
    SoundOrder(o);
    IdsDistinct(o.idOf);
    PackedIds(Ids(o.idOf), capacity);
    SameStamps(o, Compacted(o, capacity));
  }

  lemma SameStamps(o: Slots, r: Slots)
    requires Stamped(o) && r.filled == o.filled && r.fills == o.fills
    ensures Stamped(r)
  {}

  /** A resize keeps the last of the order, up to the capacity, and their stamps. */
  lemma ResizedSound(o: Slots, requested: int)
    requires Sound(o)
    ensures var r, capacity := ResizedTo(o, requested), AtLeastOne(requested);
      && Sound(r) && |r.idOf| == capacity && Elements(r.order) == Elements(Survivors(o.order, capacity))
      && (forall e :: e in r.filled ==> e in o.filled && r.filled[e] == o.filled[e])
  {
    hide Sound, Ids, Stamped, Injective;
    var capacity := AtLeastOne(requested);
    SoundOrder(o);
    if capacity != |o.idOf| {
      TrimmedSound(o, capacity);
      CompactedSound(TrimmedTo(o, capacity), capacity);
      SoundOrder(TrimmedTo(o, capacity));
    }
  }

  // ---------------------------------------------------------------- who goes in a resize

  /** A resize removes what comes first by `time`: all that goes comes before all that stays. */
  ghost predicate EvictsEarliest(o: Slots, requested: int, time: int -> int)
    requires Distinct(o.order)
  {
    var r := ResizedTo(o, requested);
    forall e, k :: e in o.order && e !in r.order && k in r.order ==> time(e) < time(k)
  }

  /** Whatever the time is, of filling or of use: a resize removes exactly the earliest surplus
      exactly when the head of the order beyond the capacity is earlier than its tail. */
  lemma EvictsEarliestWhen(o: Slots, requested: int, time: int -> int)
    requires Sound(o)
    ensures EvictsEarliest(o, requested, time) <==>
      forall i, j :: 0 <= i < |o.order| - AtLeastOne(requested) <= j < |o.order| ==> time(o.order[i]) < time(o.order[j])
  {
    hide Sound, ResizedTo;
    SoundOrder(o);
    ResizedSound(o, requested);
    SurvivorsSplit(o.order, AtLeastOne(requested));
    var r, surplus := ResizedTo(o, requested), |o.order| - AtLeastOne(requested);
    forall e ensures e in r.order <==> e in Survivors(o.order, AtLeastOne(requested)) {
      assert e in Elements(r.order) <==> e in Elements(Survivors(o.order, AtLeastOne(requested)));
    }
    if forall i, j :: 0 <= i < surplus <= j < |o.order| ==> time(o.order[i]) < time(o.order[j]) {
      forall e, k | e in o.order && e !in r.order && k in r.order ensures time(e) < time(k) {
        var i :| 0 <= i < |o.order| && o.order[i] == e;
        var j :| 0 <= j < |o.order| && o.order[j] == k;
      }
    }
  }

  lemma SurvivorsSplit(order: seq<int>, capacity: nat)
    requires Distinct(order)
    ensures forall i :: 0 <= i < |order| ==> (order[i] in Survivors(order, capacity) <==> |order| - capacity <= i)
  {
    var kept := Survivors(order, capacity);
    forall i | 0 <= i < |order| ensures order[i] in kept <==> |order| - capacity <= i {
      if |order| > capacity && |order| - capacity <= i { assert kept[i - (|order| - capacity)] == order[i]; }
    }
  }

  function FillTime(filled: map<int, nat>): int -> int { e => if e in filled then filled[e] as int else -1 }

  /** The order is that of filling. */
  ghost predicate Ascending(o: Slots) { Rising(o.order, FillTime(o.filled)) }

  /** Every resize removes exactly the longest-resident surplus exactly when the order is that of filling. */
  lemma AllResizesEvictEarliest(o: Slots)
    requires Sound(o)
    ensures Ascending(o) <==> forall requested: int :: EvictsEarliest(o, requested, FillTime(o.filled))
  {
    hide Sound, EvictsEarliest, FillTime;
    SoundOrder(o);
    var time := FillTime(o.filled);
    if Ascending(o) {
      forall requested: int ensures EvictsEarliest(o, requested, time) { EvictsEarliestWhen(o, requested, time); }
    }
    if forall requested: int :: EvictsEarliest(o, requested, time) {
      forall i, j | 0 <= i < j < |o.order| ensures time(o.order[i]) < time(o.order[j]) {
        var requested := |o.order| - 1 - i;
        assert EvictsEarliest(o, requested, time);
        EvictsEarliestWhen(o, requested, time);
      }
    }
  }

  /** The longest-resident expert is listed first when the order is that of filling. */
  lemma FirstIsEarliest(o: Slots, e: int)
    requires Ascending(o) && e in o.order && e != o.order[0]
    ensures FillTime(o.filled)(o.order[0]) < FillTime(o.filled)(e)
  {
    var j :| 0 <= j < |o.order| && o.order[j] == e;
    assert FillTime(o.filled)(o.order[0]) < FillTime(o.filled)(o.order[j]);
  }

  lemma FilledAscends(o: Slots, eid: int)
    requires Sound(o) && Ascending(o) && eid !in o.order
    ensures Ascending(Filled(o, eid))
  {
    hide Injective, Rising;
    var r := Filled(o, eid);
    forall e | e in o.order
      ensures FillTime(o.filled)(e) == FillTime(r.filled)(e) < o.fills
    {
      assert e in Elements(o.order);
    }
    RisingSame(o.order, FillTime(o.filled), FillTime(r.filled));
    if FirstFree(o.idOf).Some? { RisingSnoc(o.order, eid, FillTime(r.filled)); }
  }

  lemma EvictedAscends(o: Slots, eid: int)
    requires Sound(o) && Ascending(o)
    ensures Ascending(Evicted(o, eid))
  {
    hide Injective, Stamped, Rising;
    var r := Evicted(o, eid);
    if eid in o.order {
      RemovedRises(o.order, eid, FillTime(o.filled));
      RisingSame(r.order, FillTime(o.filled), FillTime(r.filled));
    }
  }

  /** Higher slots were filled later. */
  ghost predicate SlotsRise(o: Slots) {
    forall i, j :: 0 <= i < j < |o.idOf| && o.idOf[i].Some? && o.idOf[j].Some? ==>
      FillTime(o.filled)(o.idOf[i].value) < FillTime(o.filled)(o.idOf[j].value)
  }

  /** Where the listed experts lie: in rising slots, and every occupied slot is among them. */
  ghost predicate At(idOf: seq<Option<int>>, ids: seq<int>, at: seq<nat>) {
    && |at| == |ids|
    && (forall i :: 0 <= i < |at| ==> at[i] < |idOf| && idOf[at[i]] == Some(ids[i]))
    && (forall i, j :: 0 <= i < j < |at| ==> at[i] < at[j])
    && (forall s: nat :: s < |idOf| && idOf[s].Some? ==> s in at)
  }

  lemma {:induction false} IdsAt(idOf: seq<Option<int>>) returns (at: seq<nat>)
    ensures At(idOf, Ids(idOf), at)
  {
    if idOf == [] {
      at := [];
    } else {
      hide At;
      var front, last := idOf[..|idOf| - 1], idOf[|idOf| - 1];
      at := IdsAt(front);
      assert idOf == front + [last];
      at := AtOneMore(front, Ids(front), at, last);
    }
  }

  lemma AtOneMore(idOf: seq<Option<int>>, ids: seq<int>, front: seq<nat>, last: Option<int>) returns (at: seq<nat>)
    requires At(idOf, ids, front)
    ensures At(idOf + [last], ids + if last.Some? then [last.value] else [], at)
  {
    at := if last.Some? then front + [|idOf|] else front;
    forall s: nat | s < |idOf| + 1 && (idOf + [last])[s].Some? ensures s in at {
      if s < |idOf| { assert s in front; } else { assert at[|at| - 1] == s; }
    }
  }

  /** A resize to another capacity leaves the order that of filling exactly when, of what it
      keeps, higher slots were filled later. */
  lemma ResizedAscends(o: Slots, requested: int)
    requires Sound(o) && AtLeastOne(requested) != |o.idOf|
    ensures Ascending(ResizedTo(o, requested)) <==> SlotsRise(TrimmedTo(o, AtLeastOne(requested)))
  {
    hide Sound, FillTime, TrimmedTo, Ids;
    SoundOrder(o);
    var kept, r := TrimmedTo(o, AtLeastOne(requested)), ResizedTo(o, requested);
    var at := IdsAt(kept.idOf);
    assert r.filled == kept.filled && r.order == Ids(kept.idOf);
    if Ascending(r) {
      forall s, t | 0 <= s < t < |kept.idOf| && kept.idOf[s].Some? && kept.idOf[t].Some?
        ensures FillTime(kept.filled)(kept.idOf[s].value) < FillTime(kept.filled)(kept.idOf[t].value)
      {
        var i :| 0 <= i < |at| && at[i] == s;
        var j :| 0 <= j < |at| && at[j] == t;
        assert i < j;
        assert FillTime(r.filled)(r.order[i]) < FillTime(r.filled)(r.order[j]);
      }
    }
    if SlotsRise(kept) {
      forall i, j | 0 <= i < j < |r.order| ensures FillTime(r.filled)(r.order[i]) < FillTime(r.filled)(r.order[j]) {
        assert at[i] < at[j];
      }
    }
  }

  // ---------------------------------------------------------------- runs of one cache

  datatype SlotOp = FillOp(eid: int) | EvictOp(eid: int) | ResizeOp(requested: int)

  /** An expert is only filled while it is not held. */
  ghost function SlotsAfter(capacity: int, ops: seq<SlotOp>): (o: Slots)
    ensures Sound(o)
    decreases |ops|
  {
    if ops == [] then
      EmptySound(capacity);
      EmptySlots(capacity)
    else
      var before := SlotsAfter(capacity, ops[..|ops| - 1]);
      SlotOpSound(before, ops[|ops| - 1]);
      AfterSlotOp(before, ops[|ops| - 1])
  }

  function AfterSlotOp(o: Slots, op: SlotOp): Slots
    requires Distinct(o.order)
  {
    match op
    case FillOp(e) => if e in o.order then o else Filled(o, e)
    case EvictOp(e) => Evicted(o, e)
    case ResizeOp(n) => ResizedTo(o, n)
  }

  lemma EmptySound(capacity: int)
    ensures Sound(EmptySlots(capacity)) && |EmptySlots(capacity).idOf| == AtLeastOne(capacity)
  {}

  lemma SlotOpSound(o: Slots, op: SlotOp)
    requires Sound(o)
    ensures Distinct(o.order) && Sound(AfterSlotOp(o, op))
  {
    hide Sound, Injective, Stamped;
    SoundOrder(o);
    match op
    case FillOp(e) => if e !in o.order { FilledSound(o, e); }
    case EvictOp(e) => EvictedSound(o, e);
    case ResizeOp(n) => ResizedSound(o, n);
  }

  /** As long as no resize changed the capacity, the order is that of filling. */
  lemma {:induction false} UnresizedAscends(capacity: int, ops: seq<SlotOp>)
    requires forall op :: op in ops && op.ResizeOp? ==> AtLeastOne(op.requested) == AtLeastOne(capacity)
    ensures Ascending(SlotsAfter(capacity, ops)) && |SlotsAfter(capacity, ops).idOf| == AtLeastOne(capacity)
    decreases |ops|
  {
    hide Sound, Ascending, Filled, FillTime;
    EmptySound(capacity);
    if ops == [] {
      NothingAscends(capacity);
    } else {
      var before, op := SlotsAfter(capacity, ops[..|ops| - 1]), ops[|ops| - 1];
      UnresizedAscends(capacity, ops[..|ops| - 1]);
      FilledSize(before);
      SoundOrder(before);
      if op.FillOp? && op.eid !in before.order { FilledAscends(before, op.eid); }
      if op.EvictOp? { EvictedAscends(before, op.eid); }
    }
  }

  lemma FilledSize(o: Slots)
    ensures forall e :: |Filled(o, e).idOf| == |o.idOf|
  {}

  lemma NothingAscends(capacity: int)
    ensures Ascending(EmptySlots(capacity))
  {}

  /** Two slots: 1 and 2 are filled, 1 is evicted, 3 takes its slot, and the cache grows. */
  function GrownSlots(): Slots { Slots([3, 2], [Some(3), Some(2), None], map[2 := 1, 3 := 2], 3) }

  lemma GrownAfter()
    ensures SlotsAfter(2, [FillOp(1), FillOp(2), EvictOp(1), FillOp(3), ResizeOp(3)]) == GrownSlots()
  {
    hide SlotsAfter, AfterSlotOp, Sound;
    var ops := [FillOp(1), FillOp(2), EvictOp(1), FillOp(3), ResizeOp(3)];
    FirstThree();
    LastTwo();
    var three, o := [FillOp(1), FillOp(2), EvictOp(1)], SlotsAfter(2, [FillOp(1), FillOp(2), EvictOp(1)]);
    OneMore(2, three, FillOp(3));
    OneMore(2, three + [FillOp(3)], ResizeOp(3));
    assert three + [FillOp(3)] + [ResizeOp(3)] == ops;
  }

  lemma OneMore(capacity: int, ops: seq<SlotOp>, op: SlotOp)
    ensures Distinct(SlotsAfter(capacity, ops).order)
    ensures SlotsAfter(capacity, ops + [op]) == AfterSlotOp(SlotsAfter(capacity, ops), op)
  {
    assert (ops + [op])[..|ops|] == ops;
  }

  lemma FirstThree()
    ensures SlotsAfter(2, [FillOp(1), FillOp(2), EvictOp(1)]) == Slots([2], [None, Some(2)], map[2 := 1], 2)
  {
    hide SlotsAfter, Sound;
    var empty: seq<SlotOp> := [];
    OneMore(2, empty, FillOp(1));
    OneMore(2, [FillOp(1)], FillOp(2));
    OneMore(2, [FillOp(1), FillOp(2)], EvictOp(1));
    assert empty + [FillOp(1)] == [FillOp(1)] && [FillOp(1)] + [FillOp(2)] == [FillOp(1), FillOp(2)];
    assert [FillOp(1), FillOp(2)] + [EvictOp(1)] == [FillOp(1), FillOp(2), EvictOp(1)];
    NoOps();
    FirstFills();
  }

  lemma NoOps()
    ensures SlotsAfter(2, []) == Slots([], [None, None], map[], 0)
  {}

  lemma FirstFills()
    ensures AfterSlotOp(Slots([], [None, None], map[], 0), FillOp(1)) == Slots([1], [Some(1), None], map[1 := 0], 1)
    ensures AfterSlotOp(Slots([1], [Some(1), None], map[1 := 0], 1), FillOp(2)) ==
      Slots([1, 2], [Some(1), Some(2)], map[1 := 0, 2 := 1], 2)
    ensures AfterSlotOp(Slots([1, 2], [Some(1), Some(2)], map[1 := 0, 2 := 1], 2), EvictOp(1)) ==
      Slots([2], [None, Some(2)], map[2 := 1], 2)
  {}

  lemma LastTwo()
    ensures AfterSlotOp(Slots([2], [None, Some(2)], map[2 := 1], 2), FillOp(3)) ==
      Slots([2, 3], [Some(3), Some(2)], map[2 := 1, 3 := 2], 3)
    ensures AfterSlotOp(Slots([2, 3], [Some(3), Some(2)], map[2 := 1, 3 := 2], 3), ResizeOp(3)) == GrownSlots()
  {
    assert Ids([Some(3), Some(2)]) == [3, 2] by { assert [Some(3), Some(2)][..1] == [Some(3)]; }
  }

  lemma ShrunkToOne()
    ensures Distinct(GrownSlots().order) && ResizedTo(GrownSlots(), 1).order == [2]
  {
    hide Ids;
    var kept := TrimmedTo(GrownSlots(), 1);
    assert kept == Slots([2], [None, Some(2), None], map[2 := 1], 3);
    OnlyTwo();
  }

  lemma OnlyTwo()
    ensures Ids([None, Some(2), None]) == [2]
  {
    assert [None, Some(2), None][..2] == [None, Some(2)] && [None, Some(2)][..1] == [None];
    assert Ids([None]) == [];
  }

  /** Shrinking that cache to one slot removes 3, the expert filled last, and keeps 2. */
  lemma SecondResizeKeepsOlder()
    ensures var o := SlotsAfter(2, [FillOp(1), FillOp(2), EvictOp(1), FillOp(3), ResizeOp(3)]);
      && o.order == [3, 2] && ResizedTo(o, 1).order == [2] && Evicted(o, o.order[0]).order == [2] &&
        o.filled[2] < o.filled[3]
      && !EvictsEarliest(o, 1, FillTime(o.filled))
  {
    hide SlotsAfter, ResizedTo, Evicted, EvictsEarliest, FillTime, Sound;
    GrownAfter();
    ShrunkToOne();
    FirstEvicted(GrownSlots());
    ShrinksWrong();
  }

  lemma ShrinksWrong()
    ensures Distinct(GrownSlots().order) && !EvictsEarliest(GrownSlots(), 1, FillTime(GrownSlots().filled))
  {
    hide ResizedTo;
    ShrunkToOne();
    var r := ResizedTo(GrownSlots(), 1);
    assert 3 in GrownSlots().order && 3 !in r.order && 2 in r.order;
  }

  /** Position of each expert in a duplicate-free list. */
  ghost predicate Indexes(slotOf: map<int, nat>, ids: seq<int>) {
    && slotOf.Keys == Elements(ids)
    && forall j :: 0 <= j < |ids| ==> slotOf[ids[j]] == j
  }

  /** `kept` and `moved` list each held expert with its weights. */
  ghost predicate Lists<W>(kept: seq<int>, moved: seq<W>, held: map<int, W>) {
    |kept| <= |moved| && forall j :: 0 <= j < |kept| ==> kept[j] in held && moved[j] == held[kept[j]]
  }

  /** Compaction moves weights between slots without changing what any expert holds. */
  lemma CompactHolds<W>(held: map<int, W>, kept: seq<int>, remap: map<int, nat>, moved: seq<W>)
    requires Elements(kept) == held.Keys && Indexes(remap, kept) && Lists(kept, moved, held)
    ensures forall e :: e in remap ==> remap[e] < |moved|
    ensures Held(remap, moved) == held
  {
    forall e | e in remap ensures remap[e] < |moved| && moved[remap[e]] == held[e] {
      var j :| 0 <= j < |kept| && kept[j] == e;
    }
  }

  lemma NothingListed<W>(idOf: seq<Option<int>>, moved: seq<W>, held: map<int, W>)
    ensures Ids(idOf[..0]) == [] && Lists([], moved, held)
  {}

  lemma IndexedKeys(slotOf: map<int, nat>, ids: seq<int>)
    requires Indexes(slotOf, ids)
    ensures slotOf.Keys == Elements(ids)
  {}

  lemma ListsOneMore<W>(kept: seq<int>, moved: seq<W>, held: map<int, W>, e: int)
    requires Lists(kept, moved, held) && |kept| < |moved| && e in held
    ensures Lists(kept + [e], moved[|kept| := held[e]], held)
  {}

  lemma WithoutFirst<W>(held: map<int, W>, order: seq<int>)
    requires held.Keys == Elements(order) && order != [] && Distinct(order)
    ensures held - {order[0]} == Restricted(held, order[1..])
  {
    forall e ensures e in held && e != order[0] <==> e in held && e in order[1..] {
      assert e in held <==> e in Elements(order);
      assert order == [order[0]] + order[1..];
    }
  }

  class SwlpCachedExperts<W(==)> {
    const zero: W
    var order: seq<int>
    var slotOf: map<int, nat>
    var idOf: seq<Option<int>>
    var slots: array<W>
    ghost var filled: map<int, nat>
    ghost var fills: nat

    ghost function View(): Slots
      reads this
    {
      Slots(order, idOf, filled, fills)
    }

    ghost predicate Valid()
      reads this, slots
    {
      slots.Length == |idOf| && Inverse(slotOf, idOf) && Sound(View()) && Elements(order) == slotOf.Keys
    }

    ghost function Contents(): map<int, W>
      requires Valid()
      reads this, slots
    {
      Held(slotOf, slots[..])
    }

    constructor (zero: W, capacity: nat)
      ensures Valid() && fresh(slots) && View() == EmptySlots(capacity) && slots.Length == AtLeastOne(capacity)
    {
      var n := AtLeastOne(capacity);
      this.zero, order, slotOf, filled, fills := zero, [], map[], map[], 0;
      idOf := seq(n, i => None);
      slots := new W[n](i => zero);
      new;
      EmptySound(capacity);
    }

    lemma ContentsKeys()
      requires Valid()
      ensures Contents().Keys == slotOf.Keys
    {}

    lemma SlotHolds(eid: int)
      requires Valid() && eid in slotOf
      ensures slotOf[eid] < slots.Length && Contents()[eid] == slots[slotOf[eid]]
    {}

    function FreeSlots(): (n: int)
      requires Valid()
      reads this, slots
      ensures n > 0 <==> None in idOf
      ensures n == |idOf| - |order| >= 0
    {
      InverseCounts(slotOf, idOf);
      DistinctSize(order);
      slots.Length - |slotOf|
    }

    /** A slot is free exactly when fewer experts are held than there are slots. */
    lemma Room()
      requires Valid()
      ensures FreeSlots() > 0 <==> |order| < |idOf|
      ensures FreeSlots() == 0 ==> order != []
    {}

    lemma NothingHeld()
      requires Valid()
      ensures order == [] ==> Contents() == map[]
    {
      if order == [] { NoElements(order); }
    }

    /** The lowest free slot. */
    method NextFreeSlot() returns (slot: Option<nat>)
      ensures slot == FirstFree(idOf)
    {
      for s := 0 to |idOf|
        invariant None !in idOf[..s]
      {
        if idOf[s].None? {
          assert None in idOf && forall i :: 0 <= i < s ==> idOf[i] == idOf[..s][i];
          return Some(s);
        }
        assert idOf[..s + 1] == idOf[..s] + [idOf[s]];
      }
      assert idOf[..|idOf|] == idOf;
      slot := None;
    }

    /** Put a new expert in the lowest free slot; fails exactly when there is none. */
    method Fill(eid: int, w: W) returns (ok: bool)
      requires Valid() && eid !in slotOf
      modifies this, slots
      ensures Valid() && slots == old(slots) && View() == Filled(old(View()), eid)
      ensures ok <==> old(FreeSlots()) > 0
      ensures Contents() == if ok then old(Contents())[eid := w] else old(Contents())
      ensures order == if ok then old(order) + [eid] else old(order)
    {
      hide SwlpCachedExperts.FreeSlots, Injective, Stamped, Inverse, Held, Sound, Elements, Distinct;
      OrderIsHeld(eid);
      FilledSound(View(), eid);
      var slot := NextFreeSlot();
      if slot.None? { return false; }
      FillHolds(slotOf, idOf, slots[..], eid, slot.value, w);
      ElementsSnoc(order, eid);
      slots[slot.value] := w;
      slotOf, order := slotOf[eid := slot.value], order + [eid];
      idOf := idOf[slot.value := Some(eid)];
      filled, fills := filled[eid := fills], fills + 1;
      ok := true;
    }

    lemma OrderIsHeld(eid: int)
      requires Valid()
      ensures eid in order <==> eid in slotOf
      ensures Distinct(order) && (eid in Contents() <==> eid in slotOf)
      ensures eid in slotOf ==> slotOf[eid] < |idOf| && Cleared(idOf, eid) == idOf[slotOf[eid] := None]
    {
      assert eid in Elements(order) <==> eid in order;
    }

    method Evict(eid: int)
      requires Valid()
      modifies this, slots
      ensures Valid() && slots == old(slots) && Contents() == old(Contents()) - {eid}
      ensures old(Distinct(order)) && View() == Evicted(old(View()), eid) && order == Removed(old(order), eid)
    {
      hide Injective, Stamped, Inverse, Held, Sound;
      OrderIsHeld(eid);
      if eid in slotOf {
        var slot := slotOf[eid];
        EvictHolds(slotOf, idOf, slots[..], eid, zero);
        EvictedSound(View(), eid);
        slotOf, order, filled := slotOf - {eid}, Removed(order, eid), filled - {eid};
        idOf := idOf[slot := None];
        slots[slot] := zero;
      }
    }

    /** Evict what the slot map lists first: the longest-resident expert as long as the map is
        in the order of filling, which a resize can undo. */
    method EvictLruLocal()
      requires Valid()
      modifies this, slots
      ensures Valid() && slots == old(slots) && old(Distinct(order))
      ensures View() == if old(order) == [] then old(View()) else Evicted(old(View()), old(order)[0])
      ensures order == if old(order) == [] then [] else old(order)[1..]
      ensures Contents() == Restricted(old(Contents()), order)
    {
      hide Inverse, Held, Sound, Restricted;
      SoundOrder(View());
      ContentsKeys();
      RestrictedAll(Contents(), order);
      if order != [] {
        RemovedFirst(order);
        RestrictedTail(Contents(), order);
        WithoutFirst(Contents(), order);
        Evict(order[0]);
      }
    }

    method TrimTo(capacity: nat)
      requires Valid()
      modifies this, slots
      ensures Valid() && slots == old(slots) && |slotOf| <= capacity && old(Distinct(order))
      ensures View() == TrimmedTo(old(View()), capacity)
      ensures order == Survivors(old(order), capacity)
      ensures Contents() == Restricted(old(Contents()), order)
    {
      hide Distinct, Inverse, Restricted, Held, Elements, Sound, Evicted;
      ghost var all, held := order, Contents();
      ContentsKeys();
      SoundOrder(View());
      RestrictedAll(held, order);
      DistinctSize(order);
      while |slotOf| > capacity
        invariant Valid() && slots == old(slots) && |order| == |slotOf|
        invariant |order| <= |all| && order == all[|all| - |order|..]
        invariant |order| < |all| ==> |order| >= capacity
        invariant Contents() == Restricted(held, order)
        invariant Distinct(order) && Distinct(old(order))
        invariant TrimmedTo(View(), capacity) == TrimmedTo(old(View()), capacity)
        decreases |order|
      {
        RestrictedTail(held, order);
        EvictLruLocal();
        SoundOrder(View());
        DistinctSize(order);
      }
    }

    /** Copy the live weights, in slot order, to the front of a new array. */
    static method CopyLive(idOf: seq<Option<int>>, source: array<W>, zero: W, capacity: nat, ghost held: map<int, W>)
      returns (weights: array<W>, kept: seq<int>)
      requires source.Length == |idOf| && |Ids(idOf)| <= capacity
      requires forall s :: 0 <= s < |idOf| && idOf[s].Some? ==>
        idOf[s].value in held && held[idOf[s].value] == source[s]
      ensures fresh(weights) && weights.Length == capacity
      ensures kept == Ids(idOf) && Lists(kept, weights[..], held)
    {
      hide Lists, Ids;
      weights := new W[capacity](i => zero);
      kept := [];
      NothingListed(idOf, weights[..], held);
      for s := 0 to |idOf|
        modifies weights
        invariant kept == Ids(idOf[..s]) && |kept| <= capacity
        invariant Lists(kept, weights[..], held)
      {
        IdsStep(idOf, s);
        if idOf[s].Some? && |kept| < capacity {
          ListsOneMore(kept, weights[..], held, idOf[s].value);
          weights[|kept|] := source[s];
          kept := kept + [idOf[s].value];
        }
      }
      assert idOf[..|idOf|] == idOf;
    }

    /** Move to arrays of another capacity that still fits: what each expert holds stays. */
    method Compact(capacity: nat)
      requires Valid() && |slotOf| <= capacity && capacity >= 1
      modifies this
      ensures Valid() && slots.Length == capacity && fresh(slots)
      ensures Contents() == old(Contents()) && View() == Compacted(old(View()), capacity)
    {
      hide Distinct, Elements, Lists, Indexes, Injective, Ids, Inverse, Sound, Held;
      CompactFits();
      CompactedSound(View(), capacity);
      SlotsHold();
      var weights, kept := CopyLive(idOf, slots, zero, capacity, Contents());
      var remap, ids := Reindexed(kept, capacity);
      CompactHolds(Contents(), kept, remap, weights[..]);
      IndexedKeys(remap, kept);
      slots, slotOf, idOf, order := weights, remap, ids, kept;
    }

    lemma CompactFits()
      requires Valid()
      ensures |order| == |slotOf| == |Ids(idOf)| && Distinct(Ids(idOf)) && Elements(Ids(idOf)) == slotOf.Keys
    {
      DistinctSize(order);
      InverseCounts(slotOf, idOf);
      DistinctSize(Ids(idOf));
    }

    lemma SlotsHold()
      requires Valid()
      ensures Contents().Keys == slotOf.Keys
      ensures forall s :: 0 <= s < |idOf| && idOf[s].Some? ==>
        idOf[s].value in slotOf && Contents()[idOf[s].value] == slots[s]
    {
      hide Held, Inverse, Sound;
      ContentsKeys();
      forall s | 0 <= s < |idOf| && idOf[s].Some?
        ensures idOf[s].value in slotOf && Contents()[idOf[s].value] == slots[s]
      {
        HeldAt(slotOf, idOf, slots[..], s);
      }
    }

    /** Every survivor keeps its weights; what the slot map lists first beyond the new capacity
        goes, and the live slots end up in front, in their old slot order. */
    method Resize(requested: int)
      requires Valid()
      modifies this, slots
      ensures Valid() && slots.Length == AtLeastOne(requested)
      ensures slots == old(slots) || fresh(slots)
      ensures old(Distinct(order)) && View() == ResizedTo(old(View()), requested)
      ensures Contents() == Restricted(old(Contents()), Survivors(old(order), slots.Length))
      ensures |old(order)| <= slots.Length ==> Contents() == old(Contents())
      ensures EvictsEarliest(old(View()), requested, FillTime(old(filled))) <==>
        old(forall i, j :: 0 <= i < |order| - AtLeastOne(requested) <= j < |order| ==>
              FillTime(filled)(order[i]) < FillTime(filled)(order[j]))
    {
      hide Distinct, Injective, Ids, Held, Sound, EvictsEarliest, FillTime, Inverse, Elements, Restricted;
      var capacity := AtLeastOne(requested);
      SoundOrder(View());
      CompactFits();
      EvictsEarliestWhen(View(), requested, FillTime(filled));
      if capacity == slots.Length {
        ContentsKeys();
        RestrictedAll(Contents(), order);
        return;
      }
      ContentsKeys();
      RestrictedAll(Contents(), order);
      TrimTo(capacity);
      Compact(capacity);
    }

    static method Reindexed(kept: seq<int>, capacity: nat) returns (slotOf: map<int, nat>, idOf: seq<Option<int>>)
      requires Distinct(kept) && |kept| <= capacity
      ensures Inverse(slotOf, idOf) && |idOf| == capacity
      ensures Indexes(slotOf, kept)
      ensures idOf == Packed(kept, capacity)
    {
      slotOf, idOf := map[], seq(capacity, i => None);
      for j := 0 to |kept|
        invariant |idOf| == capacity
        invariant forall s :: 0 <= s < capacity ==> idOf[s] == if s < j then Some(kept[s]) else None
        invariant Inverse(slotOf, idOf)
        invariant slotOf.Keys == Elements(kept[..j])
        invariant forall i :: 0 <= i < j ==> slotOf[kept[i]] == i
      {
        assert kept[..j + 1] == kept[..j] + [kept[j]];
        slotOf, idOf := slotOf[kept[j] := j], idOf[j := Some(kept[j])];
      }
      assert kept[..|kept|] == kept;
    }
  }
}
