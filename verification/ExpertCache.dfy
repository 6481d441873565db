/** The byte-budgeted expert cache with least-frequently-used eviction.

    `Lfu` is the ideal cache: it scans for the entry with the smallest (frequency, last use).
    The class keeps a heap whose entries go stale and are skipped when popped, and is proved
    to evict exactly what the ideal cache evicts. Bytes on disk and their conversion to
    arrays are the function `load`, of the expert alone. */
module ExpertCache {
  import opened Common
  import opened Sums

  datatype Key = Key(layer: int, expert: int)

  /** What one expert's read yields, its size in memory, and the byte budget. */
  datatype Config<!W> = Config(load: Key -> W, size: W -> nat, budget: nat)

  /** A background read that has ended. */
  datatype Read = Read(key: Key, ok: bool)

  // ---------------------------------------------------------------- the ideal cache

  datatype Lfu<W> = Lfu(cache: map<Key, W>, freq: map<Key, nat>, last: map<Key, nat>, tick: nat)

  function Freq<W>(c: Lfu<W>, k: Key): nat { if k in c.freq then c.freq[k] else 0 }

  /** Record the insertion or use of a key at a new tick. */
  function Stamped<W>(c: Lfu<W>, k: Key): Lfu<W> { c.(last := c.last[k := c.tick + 1], tick := c.tick + 1) }

  function Used<W>(c: Lfu<W>, k: Key): Lfu<W> { Stamped(c.(freq := c.freq[k := Freq(c, k) + 1]), k) }

  function Inserted<W>(c: Lfu<W>, k: Key, w: W, used: bool): Lfu<W> {
    var c1 := c.(cache := c.cache[k := w]);
    if used then Used(c1, k) else Stamped(c1, k)
  }

  /** Every cached key has been stamped, each at its own tick. */
  ghost predicate Stamps<W>(c: Lfu<W>) {
    && c.cache.Keys <= c.last.Keys
    && (forall k :: k in c.last ==> c.last[k] <= c.tick)
    && (forall k, j :: k in c.last && j in c.last && c.last[k] == c.last[j] ==> k == j)
  }

  /** `a` is evicted before `b`: less often used, or equally often and longer ago. */
  predicate Before<W>(c: Lfu<W>, a: Key, b: Key)
    requires a in c.last && b in c.last
  {
    Freq(c, a) < Freq(c, b) || (Freq(c, a) == Freq(c, b) && c.last[a] < c.last[b])
  }

  ghost predicate IsVictim<W>(c: Lfu<W>, v: Key)
    requires Stamps(c)
  {
    v in c.cache && forall k :: k in c.cache && k != v ==> Before(c, v, k)
  }

  function Sizes<W>(cache: map<Key, W>, size: W -> nat): map<Key, nat> { map k | k in cache :: size(cache[k]) }

  ghost function Bytes<W>(cache: map<Key, W>, size: W -> nat): nat { Sum(Sizes(cache, size)) }

  lemma BytesInsert<W>(cache: map<Key, W>, size: W -> nat, k: Key, w: W)
    requires k !in cache
    ensures Bytes(cache[k := w], size) == Bytes(cache, size) + size(w)
  {
    assert Sizes(cache[k := w], size) == Sizes(cache, size)[k := size(w)];
    SumUpdate(Sizes(cache, size), k, size(w));
  }

  lemma BytesRemove<W>(cache: map<Key, W>, size: W -> nat, k: Key)
    requires k in cache
    ensures Bytes(cache - {k}, size) == Bytes(cache, size) - size(cache[k])
  {
    assert Sizes(cache - {k}, size) == Sizes(cache, size) - {k};
    SumRemove(Sizes(cache, size), k);
  }

  lemma {:induction false} VictimOf<W>(c: Lfu<W>, keys: set<Key>) returns (v: Key)
    requires Stamps(c) && keys <= c.cache.Keys && keys != {}
    ensures v in keys && forall k :: k in keys && k != v ==> Before(c, v, k)
    decreases |keys|
  {
    var some := Member(keys);
    if keys == {some} {
      v := some;
    } else {
      var rest := VictimOf(c, keys - {some});
      v := if Before(c, rest, some) then rest else some;
      forall k | k in keys && k != v ensures Before(c, v, k) {
        assert k != some ==> k == rest || Before(c, rest, k);
        assert c.last[some] != c.last[rest];
      }
    }
  }

  lemma VictimExists<W>(c: Lfu<W>)
    requires Stamps(c) && c.cache != map[]
    ensures exists v :: IsVictim(c, v)
  {
    var k := Member(c.cache.Keys);
    var v := VictimOf(c, c.cache.Keys);
    assert IsVictim(c, v);
  }

  function Without<W>(c: Lfu<W>, v: Key): Lfu<W> { c.(cache := c.cache - {v}) }

  /** Evict least-frequently-used entries until the cache fits. */
  ghost function Evicted<W>(c: Lfu<W>, size: W -> nat, budget: nat): (r: Lfu<W>)
    requires Stamps(c)
    ensures Stamps(r) && r.last == c.last && r.freq == c.freq && r.tick == c.tick
    ensures r.cache.Keys <= c.cache.Keys && forall k :: k in r.cache ==> r.cache[k] == c.cache[k]
    decreases c.cache.Keys
  {
    if Bytes(c.cache, size) <= budget || c.cache == map[] then c
    else
      VictimExists(c);
      var v :| IsVictim(c, v);
      Evicted(Without(c, v), size, budget)
  }

  lemma VictimCached<W>(c: Lfu<W>, v: Key)
    requires Stamps(c) && IsVictim(c, v)
    ensures v in c.cache && Stamps(Without(c, v))
  {}

  lemma EvictedOverBudget<W>(c: Lfu<W>, size: W -> nat, budget: nat)
    requires Stamps(c) && Evicted(c, size, budget) != c
    ensures Bytes(c.cache, size) > budget && c.cache != map[]
  {}

  lemma EvictedStep<W>(c: Lfu<W>, size: W -> nat, budget: nat) returns (v: Key)
    requires Stamps(c) && Bytes(c.cache, size) > budget && c.cache != map[]
    ensures Stamps(Without(c, v)) && IsVictim(c, v) && v in c.cache && Without(c, v).cache.Keys < c.cache.Keys
    ensures Evicted(c, size, budget) == Evicted(Without(c, v), size, budget)
  {
    hide Bytes, IsVictim;
    VictimExists(c);
    v :| IsVictim(c, v) && Evicted(c, size, budget) == Evicted(Without(c, v), size, budget);
    VictimCached(c, v);
  }

  ghost predicate Outranked<W>(c: Lfu<W>, kept: set<Key>)
    requires Stamps(c)
  {
    forall e, k :: e in c.cache && e !in kept && k in kept && k in c.cache ==> Before(c, e, k)
  }

  lemma NoneOutranked<W>(c: Lfu<W>)
    requires Stamps(c)
    ensures Outranked(c, c.cache.Keys)
  {}

  lemma OutrankedMore<W>(c: Lfu<W>, v: Key, kept: set<Key>)
    requires Stamps(c) && IsVictim(c, v) && v !in kept && Outranked(Without(c, v), kept)
    ensures Outranked(c, kept)
  {
    hide Before, Stamps;
    SameRank(c, v);
    forall e, k | e in c.cache && e !in kept && k in kept && k in c.cache ensures Before(c, e, k) {
      if e != v { assert Before(Without(c, v), e, k); }
    }
  }

  lemma SameRank<W>(c: Lfu<W>, v: Key)
    requires Stamps(c)
    ensures Stamps(Without(c, v)) && c.cache.Keys <= c.last.Keys
    ensures forall a, b :: a in c.last && b in c.last ==> (Before(Without(c, v), a, b) <==> Before(c, a, b))
  {}

  /** The survivors fit, and outrank everything evicted. */
  lemma {:induction false} EvictedIsLfu<W>(c: Lfu<W>, size: W -> nat, budget: nat)
    requires Stamps(c)
    ensures Bytes(Evicted(c, size, budget).cache, size) <= budget
    ensures Outranked(c, Evicted(c, size, budget).cache.Keys)
    decreases c.cache.Keys
  {
    hide Bytes, IsVictim, Outranked, Stamps, Evicted;
    if Bytes(c.cache, size) <= budget || c.cache == map[] {
      EvictedStops(c, size, budget);
      NoneOutranked(c);
    } else {
      var v := EvictedStep(c, size, budget);
      EvictedIsLfu(Without(c, v), size, budget);
      OutrankedMore(c, v, Evicted(c, size, budget).cache.Keys);
    }
  }

  lemma NoBytes<W>(cache: map<Key, W>, size: W -> nat)
    requires cache == map[]
    ensures Bytes(cache, size) == 0
  {
    assert Sizes(cache, size) == map[];
  }

  /** No eviction is idle: with the last victim back the cache would not fit. */
  lemma {:induction false} EvictedStopsInTime<W>(c: Lfu<W>, size: W -> nat, budget: nat)
    requires Stamps(c) && Evicted(c, size, budget) != c
    ensures var r := Evicted(c, size, budget).cache;
      exists v :: v in c.cache && v !in r && Bytes(r[v := c.cache[v]], size) > budget
    decreases c.cache.Keys
  {
    hide Bytes, IsVictim, Stamps, Evicted;
    EvictedOverBudget(c, size, budget);
    var v := EvictedStep(c, size, budget);
    if Evicted(Without(c, v), size, budget) == Without(c, v) {
      assert Without(c, v).cache[v := c.cache[v]] == c.cache;
    } else {
      EvictedStopsInTime(Without(c, v), size, budget);
    }
  }

  lemma VictimUnique<W>(c: Lfu<W>, v: Key, u: Key)
    requires Stamps(c) && IsVictim(c, v) && IsVictim(c, u)
    ensures u == v
  {}

  lemma EvictedStops<W>(c: Lfu<W>, size: W -> nat, budget: nat)
    requires Stamps(c) && (Bytes(c.cache, size) <= budget || c.cache == map[])
    ensures Evicted(c, size, budget) == c && Bytes(c.cache, size) <= budget
  {
    if c.cache == map[] { NoBytes(c.cache, size); }
  }

  lemma EvictedVictim<W>(c: Lfu<W>, size: W -> nat, budget: nat, v: Key)
    requires Stamps(c) && Bytes(c.cache, size) > budget && IsVictim(c, v)
    ensures Stamps(Without(c, v)) && Evicted(c, size, budget) == Evicted(Without(c, v), size, budget)
  {
    hide Bytes, Evicted;
    var u := EvictedStep(c, size, budget);
    VictimUnique(c, v, u);
  }

  // ---------------------------------------------------------------- whole requests on the ideal cache

  lemma InsertedStamps<W>(c: Lfu<W>, k: Key, w: W, used: bool)
    requires Stamps(c)
    ensures Stamps(Inserted(c, k, w, used))
  {}

  /** Insert an expert, then evict down to the budget. */
  ghost function Admitted<W>(c: Lfu<W>, cfg: Config<W>, k: Key, used: bool): (r: Lfu<W>)
    requires Stamps(c)
    ensures Stamps(r)
  {
    InsertedStamps(c, k, cfg.load(k), used);
    Evicted(Inserted(c, k, cfg.load(k), used), cfg.size, cfg.budget)
  }

  /** Count a use of every cached expert among `eids`, in order. */
  ghost function TouchAll<W>(c: Lfu<W>, layer: int, eids: seq<int>): (r: Lfu<W>)
    requires Stamps(c)
    ensures Stamps(r) && r.cache == c.cache
  {
    if eids == [] then c
    else
      var r, k := TouchAll(c, layer, eids[..|eids| - 1]), Key(layer, eids[|eids| - 1]);
      if k in c.cache then
        InsertedStamps(r, k, r.cache[k], true);
        Used(r, k)
      else r
  }

  /** The experts to wait for: those not cached, each once, by first mention. */
  function PendingOf<W>(c: Lfu<W>, layer: int, eids: seq<int>): seq<int> {
    if eids == [] then []
    else
      var p, e := PendingOf(c, layer, eids[..|eids| - 1]), eids[|eids| - 1];
      if Key(layer, e) in c.cache || e in p then p else p + [e]
  }

  lemma NothingAsked<W>(c: Lfu<W>, layer: int)
    requires Stamps(c)
    ensures TouchAll(c, layer, []) == c && PendingOf(c, layer, []) == []
  {}

  lemma OneMoreTouched<W>(c: Lfu<W>, layer: int, eids: seq<int>, i: nat)
    requires Stamps(c) && i < |eids|
    ensures var r, k := TouchAll(c, layer, eids[..i]), Key(layer, eids[i]);
      TouchAll(c, layer, eids[..i + 1]) == if k in c.cache then Used(r, k) else r
    ensures var p := PendingOf(c, layer, eids[..i]);
      PendingOf(c, layer, eids[..i + 1]) == if Key(layer, eids[i]) in c.cache || eids[i] in p then p else p + [eids[i]]
  {
    assert eids[..i + 1][..i] == eids[..i];
  }

  ghost function AdmitAll<W>(c: Lfu<W>, cfg: Config<W>, layer: int, eids: seq<int>): (r: Lfu<W>)
    requires Stamps(c)
    ensures Stamps(r)
  {
    if eids == [] then c
    else Admitted(AdmitAll(c, cfg, layer, eids[..|eids| - 1]), cfg, Key(layer, eids[|eids| - 1]), true)
  }

  lemma AdmitNone<W>(c: Lfu<W>, cfg: Config<W>, layer: int)
    requires Stamps(c)
    ensures AdmitAll(c, cfg, layer, []) == c
  {}

  lemma AdmitOneMore<W>(c: Lfu<W>, cfg: Config<W>, layer: int, eids: seq<int>, i: nat)
    requires Stamps(c) && i < |eids|
    ensures AdmitAll(c, cfg, layer, eids[..i + 1]) ==
      Admitted(AdmitAll(c, cfg, layer, eids[..i]), cfg, Key(layer, eids[i]), true)
  {
    hide Stamps, Admitted;
    assert eids[..i + 1][..i] == eids[..i];
  }

  ghost function AbsorbAll<W>(c: Lfu<W>, cfg: Config<W>, done: seq<Read>): (r: Lfu<W>)
    requires Stamps(c)
    ensures Stamps(r)
  {
    if done == [] then c
    else
      var r, read := AbsorbAll(c, cfg, done[..|done| - 1]), done[|done| - 1];
      if read.ok then Admitted(r, cfg, read.key, false) else r
  }

  /** The reads waited for before the first that fails. */
  function Served(layer: int, pending: seq<int>, failing: set<Key>): (r: seq<int>)
    ensures r <= pending && forall e :: e in r ==> Key(layer, e) !in failing
    ensures r != pending ==> |r| < |pending| && Key(layer, pending[|r|]) in failing
  {
    if pending == [] then []
    else
      var front := Served(layer, pending[..|pending| - 1], failing);
      if front == pending[..|pending| - 1] && Key(layer, pending[|pending| - 1]) !in failing then pending else front
  }

  lemma ServedUpTo(layer: int, pending: seq<int>, failing: set<Key>, i: nat)
    requires i <= |pending| && forall j :: 0 <= j < i ==> Key(layer, pending[j]) !in failing
    requires i < |pending| ==> Key(layer, pending[i]) in failing
    ensures Served(layer, pending, failing) == pending[..i]
  {
    hide Served;
    var r := Served(layer, pending, failing);
    if i < |r| { InPrefix(r, pending, i); }
  }

  lemma InPrefix(r: seq<int>, pending: seq<int>, i: nat)
    requires r <= pending && i < |r|
    ensures pending[i] in r
  {
    assert r[i] == pending[i];
  }

  /** A whole call: absorb the finished reads, use what is cached, wait for the rest. */
  ghost function Called<W>(c: Lfu<W>, cfg: Config<W>, layer: int, eids: seq<int>, done: seq<Read>,
                           failing: set<Key>): (r: Lfu<W>)
    requires Stamps(c)
    ensures Stamps(r)
  {
    var c1 := AbsorbAll(c, cfg, done);
    AdmitAll(TouchAll(c1, layer, eids), cfg, layer, Served(layer, PendingOf(c1, layer, eids), failing))
  }

  // ---------------------------------------------------------------- the lazily invalidated heap

  datatype Item = Item(freq: nat, tick: nat, key: Key)

  predicate Less(a: Item, b: Item) { a.freq < b.freq || (a.freq == b.freq && a.tick < b.tick) }

  function Live<W>(c: Lfu<W>, k: Key): Item
    requires k in c.last
  {
    Item(Freq(c, k), c.last[k], k)
  }

  ghost predicate AllLive<W>(heap: seq<Item>, c: Lfu<W>) {
    forall k :: k in c.cache ==> k in c.last && Live(c, k) in heap
  }

  ghost predicate Sound<W>(heap: seq<Item>, c: Lfu<W>) {
    && (forall i :: 0 <= i < |heap| ==> heap[i].tick <= c.tick)
    && (forall i :: 0 <= i < |heap| && heap[i].key in c.last && heap[i].tick == c.last[heap[i].key] ==>
          heap[i] == Live(c, heap[i].key))
    && (forall i, j :: 0 <= i < j < |heap| ==> heap[i].tick != heap[j].tick)
  }

  /** Every cached key has its one live entry in the heap; any other entry is recognisably stale. */
  ghost predicate HeapOk<W>(heap: seq<Item>, c: Lfu<W>) { AllLive(heap, c) && Sound(heap, c) }

  lemma DropKeepsSound<W>(heap: seq<Item>, c: Lfu<W>, i: nat)
    requires Sound(heap, c) && i < |heap|
    ensures Sound(Dropped(heap, i), c)
  {
    forall j | 0 <= j < |heap| - 1 ensures Dropped(heap, i)[j] == heap[if j < i then j else j + 1] {}
  }

  lemma DropKeepsOther(heap: seq<Item>, i: nat, item: Item)
    requires i < |heap| && item in heap && item != heap[i]
    ensures item in Dropped(heap, i)
  {
    var j :| 0 <= j < |heap| && heap[j] == item;
    assert Dropped(heap, i)[if j < i then j else j - 1] == item;
  }

  lemma PushKeepsHeap<W>(heap: seq<Item>, c: Lfu<W>, r: Lfu<W>, k: Key)
    requires Stamps(c) && HeapOk(heap, c)
    requires r.tick == c.tick + 1 && r.last == c.last[k := r.tick] && r.cache.Keys <= c.cache.Keys + {k}
    requires forall j :: j != k ==> Freq(r, j) == Freq(c, j)
    ensures Stamps(r) && HeapOk(heap + [Live(r, k)], r)
  {
    var grown := heap + [Live(r, k)];
    forall j | j in r.cache ensures j in r.last && Live(r, j) in grown {
      if j == k { assert grown[|heap|] == Live(r, k); } else { assert Live(r, j) == Live(c, j); }
    }
  }

  /** Popping a stale entry loses nothing. */
  lemma StaleKeepsHeap<W>(heap: seq<Item>, c: Lfu<W>, i: nat)
    requires Stamps(c) && HeapOk(heap, c) && i < |heap|
    requires heap[i].key in c.cache ==> heap[i].tick != c.last[heap[i].key]
    ensures HeapOk(Dropped(heap, i), c)
  {
    hide Sound, Dropped;
    DropKeepsSound(heap, c, i);
    forall k | k in c.cache ensures Live(c, k) in Dropped(heap, i) { DropKeepsOther(heap, i, Live(c, k)); }
  }

  /** The least entry, when live, names the victim. */
  lemma LeastLiveIsVictim<W>(heap: seq<Item>, c: Lfu<W>, i: nat)
    requires Stamps(c) && HeapOk(heap, c) && i < |heap|
    requires heap[i].key in c.cache && heap[i].tick == c.last[heap[i].key]
    requires forall j :: 0 <= j < |heap| ==> !Less(heap[j], heap[i])
    ensures IsVictim(c, heap[i].key)
  {
    var v := heap[i].key;
    forall k | k in c.cache && k != v ensures Before(c, v, k) {
      var j :| 0 <= j < |heap| && heap[j] == Live(c, k);
      assert !Less(heap[j], heap[i]);
    }
  }

  lemma SoundWithout<W>(heap: seq<Item>, c: Lfu<W>, v: Key)
    requires Sound(heap, c)
    ensures Sound(heap, Without(c, v))
  {}

  lemma EvictKeepsHeap<W>(heap: seq<Item>, c: Lfu<W>, i: nat)
    requires Stamps(c) && HeapOk(heap, c) && i < |heap|
    requires heap[i].key in c.cache && heap[i].tick == c.last[heap[i].key]
    ensures HeapOk(Dropped(heap, i), Without(c, heap[i].key))
  {
    hide Sound, Dropped;
    var v := heap[i].key;
    DropKeepsSound(heap, c, i);
    SoundWithout(Dropped(heap, i), c, v);
    forall k | k in c.cache && k != v ensures Live(c, k) in Dropped(heap, i) { DropKeepsOther(heap, i, Live(c, k)); }
  }

  // ---------------------------------------------------------------- the cache object

  const HEAP_SLACK: nat := 4096

  method LeastIndex(heap: seq<Item>) returns (i: nat)
    requires heap != []
    ensures i < |heap| && forall j :: 0 <= j < |heap| ==> !Less(heap[j], heap[i])
  {
    i := 0;
    for j := 1 to |heap|
      invariant i < |heap| && forall n :: 0 <= n < j ==> !Less(heap[n], heap[i])
    {
      if Less(heap[j], heap[i]) { i := j; }
    }
  }

  /** One live entry for each cached key but those still to do. */
  ghost predicate HalfBuilt<W>(heap: seq<Item>, c: Lfu<W>, todo: set<Key>)
    requires Stamps(c)
  {
    && (forall k :: k in c.cache && k !in todo ==> Live(c, k) in heap)
    && (forall i :: 0 <= i < |heap| ==> heap[i].key in c.cache.Keys - todo && heap[i] == Live(c, heap[i].key))
    && (forall i, j :: 0 <= i < j < |heap| ==> heap[i].key != heap[j].key)
  }

  lemma BuildStarts<W>(c: Lfu<W>)
    requires Stamps(c)
    ensures HalfBuilt([], c, c.cache.Keys) && |c.cache| == |c.cache.Keys|
  {}

  lemma BuildOneMore<W>(heap: seq<Item>, c: Lfu<W>, todo: set<Key>, k: Key)
    requires Stamps(c) && HalfBuilt(heap, c, todo) && k in todo && k in c.cache
    ensures HalfBuilt(heap + [Live(c, k)], c, todo - {k})
  {}

  lemma BuildEnds<W>(heap: seq<Item>, c: Lfu<W>)
    requires Stamps(c) && HalfBuilt(heap, c, {})
    ensures HeapOk(heap, c)
  {}

  class MlxExpertCache<W> {
    const cfg: Config<W>
    var cache: map<Key, W>
    var nbytes: int
    var freq: map<Key, nat>
    var last: map<Key, nat>
    var tick: nat
    var heap: seq<Item>
    var inflight: set<Key>
    var hits: nat
    var prefetchHits: nat
    var misses: nat

    function View(): Lfu<W>
      reads this
    {
      Lfu(cache, freq, last, tick)
    }

    ghost predicate Valid()
      reads this
    {
      && Stamps(View()) && HeapOk(heap, View())
      && nbytes == Bytes(cache, cfg.size) && nbytes <= cfg.budget
      && inflight !! cache.Keys
      && forall k :: k in cache ==> cache[k] == cfg.load(k)
    }

    constructor (config: Config<W>)
      ensures Valid() && cache == map[] && cfg == config
    {
      cfg := config;
      cache, nbytes, freq, last, tick, heap, inflight := map[], 0, map[], map[], 0, [], {};
      hits, prefetchHits, misses := 0, 0, 0;
      new;
      NoBytes(cache, cfg.size);
    }

    method RebuildHeap()
      requires Stamps(View())
      modifies this`heap
      ensures HeapOk(heap, View()) && |heap| == |cache|
    {
      var rebuilt := FreshHeap(View());
      heap := rebuilt;
    }

    /** One live entry per cached key, as the key's own frequency and stamp. */
    static method FreshHeap(c: Lfu<W>) returns (rebuilt: seq<Item>)
      requires Stamps(c)
      ensures HeapOk(rebuilt, c) && |rebuilt| == |c.cache|
    {
      hide HeapOk, HalfBuilt;
      rebuilt := [];
      var todo := c.cache.Keys;
      BuildStarts(c);
      while todo != {}
        invariant todo <= c.cache.Keys && |rebuilt| + |todo| == |c.cache| && HalfBuilt(rebuilt, c, todo)
        decreases |todo|
      {
        var k := MemberOf(todo);
        BuildOneMore(rebuilt, c, todo, k);
        rebuilt, todo := rebuilt + [Live(c, k)], todo - {k};
      }
      BuildEnds(rebuilt, c);
    }

    /** Stamp `k` and push its live entry; `before` is the cache the heap still describes. */
    method Push(k: Key, ghost before: Lfu<W>)
      requires Stamps(before) && HeapOk(heap, before)
      requires k in cache && last == before.last && tick == before.tick && cache.Keys <= before.cache.Keys + {k}
      requires forall j :: j != k ==> Freq(View(), j) == Freq(before, j)
      modifies this`tick, this`last, this`heap
      ensures View() == Stamped(old(View()), k) && Stamps(View()) && HeapOk(heap, View())
      ensures |heap| <= 4 * |cache| + HEAP_SLACK
    {
      hide Stamps, HeapOk;
      tick := tick + 1;
      last := last[k := tick];
      PushKeepsHeap(heap, before, View(), k);
      heap := heap + [Item(if k in freq then freq[k] else 0, tick, k)];
      if |heap| > 4 * |cache| + HEAP_SLACK { RebuildHeap(); }
    }

    method Touch(k: Key, ghost before: Lfu<W>)
      requires Stamps(before) && HeapOk(heap, before)
      requires k in cache && last == before.last && tick == before.tick && cache.Keys <= before.cache.Keys + {k}
      requires freq == before.freq
      modifies this`freq, this`tick, this`last, this`heap
      ensures View() == Used(old(View()), k) && Stamps(View()) && HeapOk(heap, View())
    {
      hide Stamps, HeapOk;
      freq := freq[k := (if k in freq then freq[k] else 0) + 1];
      Push(k, before);
    }

    /** Pop until a live entry turns up, and evict it: the true minimum, on any non-empty cache. */
    method EvictOne() returns (ok: bool)
      requires Stamps(View()) && HeapOk(heap, View()) && nbytes == Bytes(cache, cfg.size)
      modifies this`cache, this`nbytes, this`heap
      ensures ok <==> old(cache) != map[]
      ensures ok ==> exists v :: IsVictim(old(View()), v) && View() == Without(old(View()), v)
      ensures !ok ==> cache == old(cache)
      ensures Stamps(View()) && HeapOk(heap, View()) && nbytes == Bytes(cache, cfg.size)
    {
      hide Sound, IsVictim, Bytes;
      while heap != []
        invariant cache == old(cache) && nbytes == old(nbytes) && HeapOk(heap, View())
        decreases |heap|
      {
        var i := LeastIndex(heap);
        var item := heap[i];
        if item.key in cache && item.tick == (if item.key in last then last[item.key] else 0) {
          LeastLiveIsVictim(heap, View(), i);
          EvictKeepsHeap(heap, View(), i);
          BytesRemove(cache, cfg.size, item.key);
          nbytes := nbytes - cfg.size(cache[item.key]);
          cache := cache - {item.key};
          heap := Dropped(heap, i);
          return true;
        }
        StaleKeepsHeap(heap, View(), i);
        heap := Dropped(heap, i);
      }
      ok := false;
    }

    method EvictUntilFits()
      requires Stamps(View()) && HeapOk(heap, View()) && nbytes == Bytes(cache, cfg.size)
      modifies this`cache, this`nbytes, this`heap
      ensures View() == Evicted(old(View()), cfg.size, cfg.budget)
      ensures Stamps(View()) && HeapOk(heap, View()) && nbytes == Bytes(cache, cfg.size) && nbytes <= cfg.budget
    {
      hide Stamps, HeapOk, Bytes, IsVictim, Evicted;
      ghost var start := View();
      while nbytes > cfg.budget && cache != map[]
        invariant Stamps(View()) && HeapOk(heap, View()) && nbytes == Bytes(cache, cfg.size)
        invariant freq == start.freq && last == start.last && tick == start.tick
        invariant Evicted(View(), cfg.size, cfg.budget) == Evicted(start, cfg.size, cfg.budget)
        decreases cache.Keys
      {
        ghost var c := View();
        var ok := EvictOne();
        if !ok { assert false; }
        ghost var v :| IsVictim(c, v) && View() == Without(c, v);
        VictimCached(c, v);
        EvictedVictim(c, cfg.size, cfg.budget, v);
      }
      EvictedStops(View(), cfg.size, cfg.budget);
    }

    method Insert(k: Key, w: W, used: bool)
      requires Stamps(View()) && HeapOk(heap, View()) && nbytes == Bytes(cache, cfg.size) && k !in cache
      modifies this`cache, this`nbytes, this`freq, this`last, this`tick, this`heap
      ensures Stamps(View()) && HeapOk(heap, View()) && nbytes == Bytes(cache, cfg.size)
      ensures View() == Inserted(old(View()), k, w, used)
    {
      hide Stamps, HeapOk, Bytes;
      ghost var before := View();
      BytesInsert(cache, cfg.size, k, w);
      cache := cache[k := w];
      nbytes := nbytes + cfg.size(w);
      if used { Touch(k, before); } else { Push(k, before); }
    }

    /** Cache a finished read; `used` counts it as a routing request. The value is returned
        even when it is itself the victim. */
    method Materialize(k: Key, used: bool) returns (w: W)
      requires Valid() && k in inflight
      modifies this
      ensures Valid() && w == cfg.load(k) && inflight == old(inflight) - {k}
      ensures View() == Admitted(old(View()), cfg, k, used)
      ensures hits == old(hits) && prefetchHits == old(prefetchHits) && misses == old(misses)
    {
      hide Stamps, HeapOk, Bytes, Evicted;
      inflight := inflight - {k};
      w := cfg.load(k);
      Insert(k, w, used);
      EvictUntilFits();
    }

    /** The outcome of background reads seen so far, in any order: each was in flight, none twice. */
    ghost predicate Finished(done: seq<Read>)
      reads this
    {
      && (forall i :: 0 <= i < |done| ==> done[i].key in inflight)
      && (forall i, j :: 0 <= i < j < |done| ==> done[i].key != done[j].key)
    }

    /** Cache prefetches that have completed and forget those that failed. */
    method AbsorbFinished(done: seq<Read>)
      requires Valid() && Finished(done)
      modifies this
      ensures Valid() && View() == AbsorbAll(old(View()), cfg, done)
      ensures inflight == old(inflight) - (set i | 0 <= i < |done| :: done[i].key)
      ensures hits == old(hits) && prefetchHits == old(prefetchHits) && misses == old(misses)
    {
      hide Stamps, HeapOk, Bytes, Admitted;
      var i := 0;
      ghost var start := View();
      while i < |done|
        invariant i <= |done| && Valid() && Finished(done[i..])
        invariant View() == AbsorbAll(start, cfg, done[..i])
        invariant inflight == old(inflight) - (set j | 0 <= j < i :: done[j].key)
        invariant hits == old(hits) && prefetchHits == old(prefetchHits) && misses == old(misses)
      {
        ghost var rest := done[i..];
        assert rest[0] == done[i] && done[i + 1..] == rest[1..];
        assert done[..i + 1][..i] == done[..i];
        if done[i].ok {
          var _ := Materialize(done[i].key, false);
        } else {
          inflight := inflight - {done[i].key};
        }
        i := i + 1;
      }
      assert done[..i] == done;
    }

    method Request(k: Key)
      requires Valid() && k !in cache
      modifies this`inflight, this`prefetchHits, this`misses
      ensures Valid() && inflight == old(inflight) + {k}
      ensures prefetchHits == old(prefetchHits) + (if k in old(inflight) then 1 else 0)
      ensures misses == old(misses) + (if k in old(inflight) then 0 else 1)
    {
      if k in inflight {
        prefetchHits := prefetchHits + 1;
      } else {
        misses := misses + 1;
        inflight := inflight + {k};
      }
    }

    /** A cached expert is used at once; any other is now being read. */
    method Look(k: Key) returns (w: Option<W>)
      requires Valid()
      modifies this
      ensures Valid() && old(inflight) <= inflight
      ensures View() == if k in old(cache) then Used(old(View()), k) else old(View())
      ensures w == if k in old(cache) then Some(cfg.load(k)) else None
      ensures k !in old(cache) ==> k in inflight
      ensures hits == old(hits) + (if k in old(cache) then 1 else 0)
      ensures prefetchHits == old(prefetchHits) + (if k !in old(cache) && k in old(inflight) then 1 else 0)
      ensures hits + prefetchHits + misses == old(hits + prefetchHits + misses) + 1
    {
      hide Stamps, HeapOk, Bytes;
      if k in cache {
        Touch(k, View());
        hits := hits + 1;
        w := Some(cache[k]);
      } else {
        Request(k);
        w := None;
      }
    }

    /** The first pass: take what is cached, and make sure everything else is being read. */
    method Gather(layer: int, eids: seq<int>) returns (out: map<int, W>, pending: seq<int>)
      requires Valid()
      modifies this
      ensures Valid() && old(inflight) <= inflight
      ensures View() == TouchAll(old(View()), layer, eids) && pending == PendingOf(old(View()), layer, eids)
      ensures forall e :: e in eids <==> e in out || e in pending
      ensures forall e :: e in out ==> out[e] == cfg.load(Key(layer, e))
      ensures forall e :: e in pending ==> Key(layer, e) in inflight
      ensures forall i, j :: 0 <= i < j < |pending| ==> pending[i] != pending[j]
      ensures hits + prefetchHits + misses == old(hits + prefetchHits + misses) + |eids|
    {
      hide Stamps, HeapOk, Bytes, TouchAll, PendingOf, Used;
      out, pending := map[], [];
      ghost var start := View();
      NothingAsked(start, layer);
      assert eids[..0] == [];
      var i := 0;
      while i < |eids|
        invariant i <= |eids| && Valid() && cache == start.cache && old(inflight) <= inflight
        invariant View() == TouchAll(start, layer, eids[..i]) && pending == PendingOf(start, layer, eids[..i])
        invariant forall e :: e in eids[..i] <==> e in out || e in pending
        invariant forall e :: e in out ==> out[e] == cfg.load(Key(layer, e))
        invariant forall e :: e in pending ==> Key(layer, e) in inflight
        invariant forall i, j :: 0 <= i < j < |pending| ==> pending[i] != pending[j]
        invariant hits + prefetchHits + misses == old(hits + prefetchHits + misses) + i
      {
        var e := eids[i];
        var k := Key(layer, e);
        assert eids[..i + 1] == eids[..i] + [e];
        OneMoreTouched(start, layer, eids, i);
        var w := Look(k);
        if w.Some? {
          out := out[e := w.value];
        } else if e !in pending {
          pending := pending + [e];
        }
        i := i + 1;
      }
      assert eids[..|eids|] == eids;
    }

    /** The second pass: wait for each pending read, in order, and cache it as used. */
    method Await(layer: int, pending: seq<int>, failing: set<Key>) returns (r: Option<map<int, W>>)
      requires Valid()
      requires forall e :: e in pending ==> Key(layer, e) in inflight
      requires forall i, j :: 0 <= i < j < |pending| ==> pending[i] != pending[j]
      modifies this
      ensures Valid()
      ensures r.Some? ==> r.value == map e | e in pending :: cfg.load(Key(layer, e))
      ensures View() == AdmitAll(old(View()), cfg, layer, Served(layer, pending, failing))
      ensures r.None? <==> Served(layer, pending, failing) != pending
      ensures r.None? ==> exists e :: e in pending && Key(layer, e) in failing
      ensures hits == old(hits) && prefetchHits == old(prefetchHits) && misses == old(misses)
    {
      hide Stamps, HeapOk, Bytes, Admitted, AdmitAll;
      var out: map<int, W> := map[];
      ghost var start := View();
      AdmitNone(start, cfg, layer);
      var i := 0;
      while i < |pending|
        invariant i <= |pending| && Valid() && View() == AdmitAll(start, cfg, layer, pending[..i])
        invariant out == map e | e in pending[..i] :: cfg.load(Key(layer, e))
        invariant forall j :: i <= j < |pending| ==> Key(layer, pending[j]) in inflight
        invariant forall j :: 0 <= j < i ==> Key(layer, pending[j]) !in failing
        invariant hits == old(hits) && prefetchHits == old(prefetchHits) && misses == old(misses)
      {
        var k := Key(layer, pending[i]);
        if k in failing {
          ServedUpTo(layer, pending, failing, i);
          return None;
        }
        var w := Materialize(k, true);
        out := out[pending[i] := w];
        assert pending[..i + 1] == pending[..i] + [pending[i]];
        AdmitOneMore(start, cfg, layer, pending, i);
        i := i + 1;
      }
      assert pending[..i] == pending;
      ServedUpTo(layer, pending, failing, i);
      r := Some(out);
    }

    /** Every requested expert comes back as a direct read of it would, whatever was cached,
        prefetched or evicted on the way; only a failed read of a requested expert raises. */
    method GetMany(layer: int, eids: seq<int>, done: seq<Read>, failing: set<Key>) returns (r: Option<map<int, W>>)
      requires Valid() && Finished(done)
      modifies this
      ensures Valid()
      ensures r.Some? ==> r.value == map e | e in eids :: cfg.load(Key(layer, e))
      ensures View() == Called(old(View()), cfg, layer, eids, done, failing)
      ensures r.None? <==>
        var pending := PendingOf(AbsorbAll(old(View()), cfg, done), layer, eids);
        Served(layer, pending, failing) != pending
      ensures r.None? ==> exists e :: e in eids && Key(layer, e) in failing
      ensures hits + prefetchHits + misses == old(hits + prefetchHits + misses) + |eids|
    {
      hide Stamps, HeapOk, Bytes, AbsorbAll, TouchAll, AdmitAll, PendingOf, Served;
      AbsorbFinished(done);
      var out, pending := Gather(layer, eids);
      var rest := Await(layer, pending, failing);
      if rest.None? { return None; }
      var all := out + rest.value;
      assert forall e :: e in all <==> e in eids;
      r := Some(all);
    }

    method Prefetch(layer: int, eids: seq<int>)
      requires Valid()
      modifies this`inflight
      ensures Valid()
      ensures inflight == old(inflight) + (set e | e in eids && Key(layer, e) !in cache :: Key(layer, e))
    {
      var i := 0;
      while i < |eids|
        invariant i <= |eids|
        invariant inflight == old(inflight) + (set e | e in eids[..i] && Key(layer, e) !in cache :: Key(layer, e))
      {
        var k := Key(layer, eids[i]);
        assert eids[..i + 1] == eids[..i] + [eids[i]];
        if k !in cache && k !in inflight { inflight := inflight + {k}; }
        i := i + 1;
      }
      assert eids[..|eids|] == eids;
    }
  }
}
