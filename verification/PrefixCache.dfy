/** The bounded cache of token-prefix snapshots: store, eviction and longest-prefix lookup.

    A layer's key/value tensors are its rows, one per token. `Recomputed` is what the model
    computes for a token sequence, causal in it. */
module PrefixCache {
  import opened Arithmetic
  import opened Common

  datatype Entry<R> = Entry(ids: seq<int>, kv: seq<seq<R>>, bytes: nat, created: nat)

  datatype Config<!R> = Config(maxEntries: nat, snapshotEvery: nat, maxBytes: nat, size: seq<seq<R>> -> nat)

  ghost predicate Sane<R>(cfg: Config<R>) { cfg.maxEntries >= 1 && cfg.snapshotEvery >= 1 && cfg.maxBytes >= 1 }

  // ---------------------------------------------------------------- the list of entries

  function Total<R>(entries: seq<Entry<R>>): nat {
    if entries == [] then 0 else entries[0].bytes + Total(entries[1..])
  }

  lemma {:induction false} TotalSplit<R>(a: seq<Entry<R>>, b: seq<Entry<R>>)
    ensures Total(a + b) == Total(a) + Total(b)
  {
    if a == [] {
      assert a + b == b;
    } else {
      assert (a + b)[1..] == a[1..] + b;
      TotalSplit(a[1..], b);
    }
  }

  lemma TotalDropped<R>(entries: seq<Entry<R>>, i: nat)
    requires i < |entries|
    ensures Total(Dropped(entries, i)) == Total(entries) - entries[i].bytes
  {
    hide Total;
    TotalSplit(entries[..i], entries[i + 1..]);
    TotalSplit([entries[i]], entries[i + 1..]);
    TotalSplit(entries[..i], [entries[i]] + entries[i + 1..]);
    assert entries == entries[..i] + ([entries[i]] + entries[i + 1..]);
    TotalOne(entries[i]);
  }

  lemma TotalOne<R>(e: Entry<R>)
    ensures Total([e]) == e.bytes
  {
    assert [e][1..] == [];
  }

  /** Every layer holds exactly one row per token. */
  predicate Aligned<R>(ids: seq<int>, kv: seq<seq<R>>) {
    ids != [] && kv != [] && forall l :: 0 <= l < |kv| ==> |kv[l]| == |ids|
  }

  /** Different prefixes at different times, the shorter first. */
  predicate FirstBefore<R>(f: Entry<R>, g: Entry<R>) { f.ids != g.ids && f.created != g.created && |f.ids| <= |g.ids| }

  predicate Good<R>(cfg: Config<R>, e: Entry<R>, clock: nat) {
    Aligned(e.ids, e.kv) && e.bytes == cfg.size(e.kv) && e.created < clock
  }

  /** Distinct prefixes in order of length, distinct times, true sizes. */
  ghost predicate Sound<R>(cfg: Config<R>, entries: seq<Entry<R>>, clock: nat) {
    && (forall i :: 0 <= i < |entries| ==> Good(cfg, entries[i], clock))
    && (forall i, j :: 0 <= i < j < |entries| ==> FirstBefore(entries[i], entries[j]))
  }

  ghost predicate Bounded<R>(cfg: Config<R>, entries: seq<Entry<R>>) {
    |entries| <= cfg.maxEntries && Total(entries) <= cfg.maxBytes
  }

  lemma DroppedSound<R>(cfg: Config<R>, entries: seq<Entry<R>>, clock: nat, i: nat)
    requires Sound(cfg, entries, clock) && i < |entries|
    ensures Sound(cfg, Dropped(entries, i), clock)
    ensures forall e :: e in Dropped(entries, i) ==> e in entries && e != entries[i]
    ensures forall e :: e in entries && e != entries[i] ==> e in Dropped(entries, i)
  {
    var r := Dropped(entries, i);
    forall j | 0 <= j < |r| ensures r[j] == entries[if j < i then j else j + 1] {}
    forall e | e in entries && e != entries[i] ensures e in r {
      var j :| 0 <= j < |entries| && entries[j] == e;
      assert r[if j < i then j else j - 1] == e;
    }
  }

  // ---------------------------------------------------------------- eviction

  predicate OldestAt<R>(entries: seq<Entry<R>>, i: nat) {
    i < |entries| && forall j :: 0 <= j < |entries| ==> entries[i].created <= entries[j].created
  }

  lemma {:induction false} OldestExists<R>(entries: seq<Entry<R>>)
    requires entries != []
    ensures exists i :: OldestAt(entries, i)
  {
    if |entries| == 1 {
      assert OldestAt(entries, 0);
    } else {
      OldestExists(entries[1..]);
      var i: nat :| OldestAt(entries[1..], i);
      assert forall j :: 1 <= j < |entries| ==> entries[j] == entries[1..][j - 1];
      assert OldestAt(entries, if entries[0].created <= entries[i + 1].created then 0 else i + 1);
    }
  }

  /** Remove least recently used entries until both bounds hold. */
  ghost function Kept<R>(cfg: Config<R>, entries: seq<Entry<R>>): (r: seq<Entry<R>>)
    decreases |entries|
  {
    if Bounded(cfg, entries) || entries == [] then entries
    else
      OldestExists(entries);
      var i :| OldestAt(entries, i);
      Kept(cfg, Dropped(entries, i))
  }

  lemma OldestBound<R>(entries: seq<Entry<R>>, i: nat)
    requires OldestAt(entries, i)
    ensures i < |entries|
  {}

  lemma EmptyBounded<R>(cfg: Config<R>)
    ensures Bounded<R>(cfg, [])
  {}

  lemma KeptAll<R>(cfg: Config<R>, entries: seq<Entry<R>>)
    requires Bounded(cfg, entries)
    ensures Kept(cfg, entries) == entries
  {}

  lemma OldestUnique<R>(cfg: Config<R>, entries: seq<Entry<R>>, clock: nat, i: nat, k: nat)
    requires Sound(cfg, entries, clock) && OldestAt(entries, i) && OldestAt(entries, k)
    ensures i == k
  {
    TimesDiffer(cfg, entries, clock);
    assert entries[i].created == entries[k].created;
  }

  lemma TimesDiffer<R>(cfg: Config<R>, entries: seq<Entry<R>>, clock: nat)
    requires Sound(cfg, entries, clock)
    ensures forall i, j :: 0 <= i < |entries| && 0 <= j < |entries| && i != j ==>
      entries[i].created != entries[j].created
  {
    forall i, j | 0 <= i < j < |entries| ensures entries[i].created != entries[j].created {
      assert FirstBefore(entries[i], entries[j]);
    }
  }

  lemma KeptStep<R>(cfg: Config<R>, entries: seq<Entry<R>>, clock: nat, i: nat)
    requires Sound(cfg, entries, clock) && !Bounded(cfg, entries) && OldestAt(entries, i)
    ensures Kept(cfg, entries) == Kept(cfg, Dropped(entries, i))
  {
    hide Sound, Bounded, Dropped;
    OldestExists(entries);
    var k: nat :| OldestAt(entries, k) && Kept(cfg, entries) == Kept(cfg, Dropped(entries, k));
    OldestUnique(cfg, entries, clock, i, k);
  }

  /** The most recent entry is not evicted if it fits alone. */
  lemma {:induction false} KeptKeepsLatest<R>(cfg: Config<R>, entries: seq<Entry<R>>, clock: nat, e: Entry<R>)
    requires Sane(cfg) && Sound(cfg, entries, clock) && e in entries && e.bytes <= cfg.maxBytes
    requires forall f :: f in entries ==> f.created <= e.created
    ensures e in Kept(cfg, entries)
    decreases |entries|
  {
    hide Sound, Bounded;
    if !Bounded(cfg, entries) {
      OldestExists(entries);
      var i: nat :| OldestAt(entries, i);
      KeptStep(cfg, entries, clock, i);
      DroppedSound(cfg, entries, clock, i);
      if entries[i] == e { OnlyOne(cfg, entries, clock, i); }
      KeptKeepsLatest(cfg, Dropped(entries, i), clock, e);
    }
  }

  lemma OnlyOne<R>(cfg: Config<R>, entries: seq<Entry<R>>, clock: nat, i: nat)
    requires Sane(cfg) && Sound(cfg, entries, clock) && OldestAt(entries, i) && entries[i].bytes <= cfg.maxBytes
    requires forall f :: f in entries ==> f.created <= entries[i].created
    ensures Bounded(cfg, entries)
  {
    TimesDiffer(cfg, entries, clock);
    assert forall j :: 0 <= j < |entries| ==> entries[j] in entries && entries[j].created == entries[i].created;
    assert entries[0].created == entries[|entries| - 1].created;
    assert entries == [entries[0]];
  }

  /** What is kept is within bounds, was there before, and is more recent than what is not. */
  lemma {:induction false} KeptIsLru<R>(cfg: Config<R>, entries: seq<Entry<R>>, clock: nat)
    requires Sane(cfg) && Sound(cfg, entries, clock)
    ensures var r := Kept(cfg, entries);
      && Sound(cfg, r, clock) && Bounded(cfg, r) && (forall e :: e in r ==> e in entries)
      && (forall e, f :: e in entries && e !in r && f in r ==> e.created < f.created)
    decreases |entries|
  {
    hide Sound, Bounded;
    if Bounded(cfg, entries) || entries == [] {
      EmptyBounded(cfg);
    } else {
      OldestExists(entries);
      var i :| OldestAt(entries, i);
      KeptStep(cfg, entries, clock, i);
      DroppedSound(cfg, entries, clock, i);
      KeptIsLru(cfg, Dropped(entries, i), clock);
      OldestIsBefore(cfg, entries, clock, i);
    }
  }

  lemma OldestIsBefore<R>(cfg: Config<R>, entries: seq<Entry<R>>, clock: nat, i: nat)
    requires Sound(cfg, entries, clock) && OldestAt(entries, i)
    ensures forall e :: e in entries && e != entries[i] ==> entries[i].created < e.created
  {
    forall e | e in entries && e != entries[i] ensures entries[i].created < e.created {
      var j :| 0 <= j < |entries| && entries[j] == e;
    }
  }

  /** Nothing is evicted in vain: with the last victim back a bound would be broken. */
  lemma {:induction false} KeptStopsInTime<R>(cfg: Config<R>, entries: seq<Entry<R>>, clock: nat)
    requires Sane(cfg) && Sound(cfg, entries, clock) && !Bounded(cfg, entries)
    ensures exists before, i :: !Bounded(cfg, before) && OldestAt(before, i) && Kept(cfg, entries) == Dropped(before, i)
    decreases |entries|
  {
    hide Sound;
    assert entries != [];
    OldestExists(entries);
    var i :| OldestAt(entries, i);
    KeptStep(cfg, entries, clock, i);
    DroppedSound(cfg, entries, clock, i);
    if Bounded(cfg, Dropped(entries, i)) {
      assert Kept(cfg, entries) == Dropped(entries, i);
    } else {
      KeptStopsInTime(cfg, Dropped(entries, i), clock);
    }
  }

  // ---------------------------------------------------------------- inserting one snapshot

  /** A sound list is a sound list and an entry that fits at its end, and the same at its front. */
  lemma SoundSnoc<R>(cfg: Config<R>, front: seq<Entry<R>>, last: Entry<R>, clock: nat)
    requires Sound(cfg, front, clock) && Good(cfg, last, clock) && forall f :: f in front ==> FirstBefore(f, last)
    ensures Sound(cfg, front + [last], clock)
  {
    hide Good, FirstBefore;
    var all := front + [last];
    assert all[|front|] == last && forall i :: 0 <= i < |front| ==> front[i] == all[i];
  }

  lemma SoundUnsnoc<R>(cfg: Config<R>, front: seq<Entry<R>>, last: Entry<R>, clock: nat)
    requires Sound(cfg, front + [last], clock)
    ensures Sound(cfg, front, clock) && Good(cfg, last, clock) && forall f :: f in front ==> FirstBefore(f, last)
  {
    hide Good, FirstBefore;
    var all := front + [last];
    assert all[|front|] == last && forall i :: 0 <= i < |front| ==> front[i] == all[i];
  }

  lemma SoundCons<R>(cfg: Config<R>, first: Entry<R>, rest: seq<Entry<R>>, clock: nat)
    requires Sound(cfg, rest, clock) && Good(cfg, first, clock) && forall f :: f in rest ==> FirstBefore(first, f)
    ensures Sound(cfg, [first] + rest, clock)
  {
    hide Good, FirstBefore;
    var all := [first] + rest;
    forall i, j | 0 <= i < j < |all| ensures FirstBefore(all[i], all[j]) {
      if i == 0 { assert all[j] == rest[j - 1] && rest[j - 1] in rest; }
      else { assert all[i] == rest[i - 1] && all[j] == rest[j - 1]; }
    }
  }

  lemma SoundUncons<R>(cfg: Config<R>, first: Entry<R>, rest: seq<Entry<R>>, clock: nat)
    requires Sound(cfg, [first] + rest, clock)
    ensures Sound(cfg, rest, clock) && Good(cfg, first, clock) && forall f :: f in rest ==> FirstBefore(first, f)
  {
    hide Good, FirstBefore;
    var all := [first] + rest;
    assert all[0] == first && forall i :: 0 <= i < |rest| ==> rest[i] == all[i + 1];
  }

  lemma SoundLater<R>(cfg: Config<R>, entries: seq<Entry<R>>, clock: nat)
    requires Sound(cfg, entries, clock)
    ensures Sound(cfg, entries, clock + 1) && forall e :: e in entries ==> Good(cfg, e, clock)
  {}

  function Without<R>(entries: seq<Entry<R>>, ids: seq<int>): seq<Entry<R>> {
    if entries == [] then []
    else
      var last := entries[|entries| - 1];
      Without(entries[..|entries| - 1], ids) + (if last.ids == ids then [] else [last])
  }

  lemma {:induction false} WithoutOf<R>(cfg: Config<R>, entries: seq<Entry<R>>, clock: nat, ids: seq<int>)
    requires Sound(cfg, entries, clock)
    ensures Sound(cfg, Without(entries, ids), clock)
    ensures forall e :: e in Without(entries, ids) ==> e in entries && e.ids != ids
    ensures forall e :: e in entries && e.ids != ids ==> e in Without(entries, ids)
  {
    if entries != [] {
      hide Sound, FirstBefore, Good;
      var front, last := entries[..|entries| - 1], entries[|entries| - 1];
      assert entries == front + [last];
      SoundUnsnoc(cfg, front, last, clock);
      WithoutOf(cfg, front, clock, ids);
      var r := Without(front, ids);
      if last.ids != ids { SoundSnoc(cfg, r, last, clock); }
    }
  }

  /** After every entry that is no longer. */
  function InsertByLength<R>(entries: seq<Entry<R>>, e: Entry<R>): seq<Entry<R>> {
    if entries == [] || |entries[0].ids| > |e.ids| then [e] + entries
    else [entries[0]] + InsertByLength(entries[1..], e)
  }

  /** The stable sort by length. */
  function SortByLength<R>(entries: seq<Entry<R>>): seq<Entry<R>> {
    if entries == [] then []
    else InsertByLength(SortByLength(entries[..|entries| - 1]), entries[|entries| - 1])
  }

  ghost predicate ByLength<R>(entries: seq<Entry<R>>) {
    forall i, j :: 0 <= i < j < |entries| ==> |entries[i].ids| <= |entries[j].ids|
  }

  function OfLength<R>(entries: seq<Entry<R>>, n: nat): seq<Entry<R>> {
    if entries == [] then []
    else (if |entries[0].ids| == n then [entries[0]] else []) + OfLength(entries[1..], n)
  }

  lemma OfLengthCons<R>(first: Entry<R>, rest: seq<Entry<R>>, n: nat)
    ensures OfLength([first] + rest, n) == (if |first.ids| == n then [first] else []) + OfLength(rest, n)
  {
    assert ([first] + rest)[1..] == rest;
  }

  lemma {:induction false} OfLengthSnoc<R>(entries: seq<Entry<R>>, e: Entry<R>, n: nat)
    ensures OfLength(entries + [e], n) == OfLength(entries, n) + if |e.ids| == n then [e] else []
  {
    if entries == [] {
      OfLengthCons(e, [], n);
      assert entries + [e] == [e] + [];
    } else {
      hide OfLength;
      var first, rest := entries[0], entries[1..];
      OfLengthSnoc(rest, e, n);
      OfLengthCons(first, rest, n);
      OfLengthCons(first, rest + [e], n);
      assert [first] + rest == entries && [first] + (rest + [e]) == entries + [e];
    }
  }

  lemma {:induction false} InsertStable<R>(entries: seq<Entry<R>>, e: Entry<R>, n: nat)
    requires ByLength(entries)
    ensures OfLength(InsertByLength(entries, e), n) == OfLength(entries, n) + if |e.ids| == n then [e] else []
  {
    if entries != [] { LaterIsLonger(entries); }
    hide ByLength;
    if entries == [] || |entries[0].ids| > |e.ids| {
      assert ([e] + entries)[1..] == entries;
      if |e.ids| == n { NoneOfLength(entries, n); }
    } else {
      var rest := InsertByLength(entries[1..], e);
      InsertStable(entries[1..], e, n);
      assert ([entries[0]] + rest)[1..] == rest;
    }
  }

  lemma {:induction false} InsertSorts<R>(entries: seq<Entry<R>>, e: Entry<R>)
    requires ByLength(entries)
    ensures ByLength(InsertByLength(entries, e))
  {
    if entries != [] {
      LaterIsLonger(entries);
      hide ByLength;
      if |entries[0].ids| > |e.ids| {
        FirstIsShort(e, entries);
      } else {
        InsertSorts(entries[1..], e);
        InsertMembers(entries[1..], e);
        FirstIsShort(entries[0], InsertByLength(entries[1..], e));
      }
    }
  }

  lemma LaterIsLonger<R>(entries: seq<Entry<R>>)
    requires entries != [] && ByLength(entries)
    ensures ByLength(entries[1..]) && forall f :: f in entries ==> |entries[0].ids| <= |f.ids|
  {
    forall f | f in entries ensures |entries[0].ids| <= |f.ids| {
      var i :| 0 <= i < |entries| && entries[i] == f;
    }
  }

  lemma FirstIsShort<R>(first: Entry<R>, rest: seq<Entry<R>>)
    requires ByLength(rest) && forall f :: f in rest ==> |first.ids| <= |f.ids|
    ensures ByLength([first] + rest)
  {
    forall i, j | 0 <= i < j <= |rest| ensures |([first] + rest)[i].ids| <= |([first] + rest)[j].ids| {
      assert rest[j - 1] in rest;
    }
  }

  lemma {:induction false} NoneOfLength<R>(entries: seq<Entry<R>>, n: nat)
    requires forall f :: f in entries ==> |f.ids| > n
    ensures OfLength(entries, n) == []
  {
    if entries != [] { NoneOfLength(entries[1..], n); }
  }

  /** It sorts, and entries of one length stay in the order they were in, none lost or added. */
  lemma {:induction false} SortIsStable<R>(entries: seq<Entry<R>>, n: nat)
    ensures ByLength(SortByLength(entries)) && OfLength(SortByLength(entries), n) == OfLength(entries, n)
  {
    if entries != [] {
      var front, last := entries[..|entries| - 1], entries[|entries| - 1];
      SortIsStable(front, n);
      InsertSorts(SortByLength(front), last);
      InsertStable(SortByLength(front), last, n);
      OfLengthSnoc(front, last, n);
      assert front + [last] == entries;
    }
  }

  /** Appending to a sorted list and sorting it is inserting. */
  lemma {:induction false} SortOfSorted<R>(entries: seq<Entry<R>>)
    requires ByLength(entries)
    ensures SortByLength(entries) == entries
  {
    if entries != [] {
      var front, last := entries[..|entries| - 1], entries[|entries| - 1];
      SortOfSorted(front);
      InsertLast(front, last);
      assert front + [last] == entries;
    }
  }

  lemma {:induction false} InsertLast<R>(entries: seq<Entry<R>>, e: Entry<R>)
    requires forall i :: 0 <= i < |entries| ==> |entries[i].ids| <= |e.ids|
    ensures InsertByLength(entries, e) == entries + [e]
  {
    if entries != [] {
      InsertLast(entries[1..], e);
      assert entries == [entries[0]] + entries[1..];
    }
  }

  lemma SortOfAppended<R>(entries: seq<Entry<R>>, e: Entry<R>)
    requires ByLength(entries)
    ensures SortByLength(entries + [e]) == InsertByLength(entries, e)
  {
    SortOfSorted(entries);
    assert (entries + [e])[..|entries|] == entries;
  }

  lemma SoundIsSorted<R>(cfg: Config<R>, entries: seq<Entry<R>>, clock: nat)
    requires Sound(cfg, entries, clock)
    ensures ByLength(entries)
  {
    forall i, j | 0 <= i < j < |entries| ensures |entries[i].ids| <= |entries[j].ids| {
      assert FirstBefore(entries[i], entries[j]);
    }
  }

  lemma {:induction false} InsertMembers<R>(entries: seq<Entry<R>>, e: Entry<R>)
    ensures var r := InsertByLength(entries, e);
      && Total(r) == Total(entries) + e.bytes && |r| == |entries| + 1 && e in r
      && (forall f :: f in r ==> f in entries || f == e) && (forall f :: f in entries ==> f in r)
  {
    if entries == [] || |entries[0].ids| > |e.ids| {
      TotalSplit([e], entries);
    } else {
      InsertMembers(entries[1..], e);
      TotalSplit([entries[0]], InsertByLength(entries[1..], e));
      assert entries == [entries[0]] + entries[1..];
    }
  }

  lemma {:induction false} InsertOf<R>(cfg: Config<R>, entries: seq<Entry<R>>, clock: nat, e: Entry<R>)
    requires Sound(cfg, entries, clock) && Aligned(e.ids, e.kv) && e.bytes == cfg.size(e.kv) && e.created == clock
    requires forall f :: f in entries ==> f.ids != e.ids
    ensures Sound(cfg, InsertByLength(entries, e), clock + 1)
  {
    if entries == [] {
      assert [e] + entries == [e];
    } else {
      hide Sound, FirstBefore, Good, InsertByLength;
      var first, rest := entries[0], entries[1..];
      assert entries == [first] + rest && first in entries;
      SoundUncons(cfg, first, rest, clock);
      SoundLater(cfg, entries, clock);
      if |first.ids| > |e.ids| {
        GoesFirst(cfg, first, rest, clock, e);
        SoundCons(cfg, e, entries, clock + 1);
      } else {
        InsertOf(cfg, rest, clock, e);
        InsertMembers(rest, e);
        GoesAfter(cfg, first, clock, e);
        SoundCons(cfg, first, InsertByLength(rest, e), clock + 1);
      }
      InsertUnfolds(entries, e);
    }
  }

  lemma InsertUnfolds<R>(entries: seq<Entry<R>>, e: Entry<R>)
    requires entries != []
    ensures InsertByLength(entries, e) ==
      if |entries[0].ids| > |e.ids| then [e] + entries else [entries[0]] + InsertByLength(entries[1..], e)
  {}

  lemma GoesFirst<R>(cfg: Config<R>, first: Entry<R>, rest: seq<Entry<R>>, clock: nat, e: Entry<R>)
    requires Aligned(e.ids, e.kv) && e.bytes == cfg.size(e.kv) && e.created == clock && |first.ids| > |e.ids|
    requires forall f :: f in [first] + rest ==> Good(cfg, f, clock) && f.ids != e.ids
    requires forall f :: f in rest ==> FirstBefore(first, f)
    ensures Good(cfg, e, clock + 1) && forall f :: f in [first] + rest ==> FirstBefore(e, f)
  {}

  lemma GoesAfter<R>(cfg: Config<R>, first: Entry<R>, clock: nat, e: Entry<R>)
    requires e.created == clock && Good(cfg, first, clock) && |first.ids| <= |e.ids| && first.ids != e.ids
    ensures FirstBefore(first, e) && Good(cfg, first, clock + 1)
  {}

  // ---------------------------------------------------------------- store as a value operation

  datatype State<R> = State(entries: seq<Entry<R>>, clock: nat)

  ghost predicate Ok<R>(cfg: Config<R>, s: State<R>) {
    Sane(cfg) && Sound(cfg, s.entries, s.clock) && Bounded(cfg, s.entries)
  }

  /** One snapshot: refused when too large alone, else it replaces its namesake and the oldest go. */
  ghost function Inserted<R>(cfg: Config<R>, s: State<R>, ids: seq<int>, kv: seq<seq<R>>): State<R> {
    if cfg.size(kv) > cfg.maxBytes then s
    else
      var grown := InsertByLength(Without(s.entries, ids), Entry(ids, kv, cfg.size(kv), s.clock));
      State(Kept(cfg, grown), s.clock + 1)
  }

  lemma InsertedKeeps<R>(cfg: Config<R>, s: State<R>, ids: seq<int>, kv: seq<seq<R>>)
    requires Ok(cfg, s) && Aligned(ids, kv)
    ensures var r := Inserted(cfg, s, ids, kv);
      && Ok(cfg, r)
      && (cfg.size(kv) <= cfg.maxBytes ==> Entry(ids, kv, cfg.size(kv), s.clock) in r.entries)
      && (forall e :: e in r.entries ==> e in s.entries || e == Entry(ids, kv, cfg.size(kv), s.clock))
      && (forall e, f :: e in s.entries && e.ids != ids && e !in r.entries && f in r.entries ==> e.created < f.created)
  {
    hide Sound, Bounded, Kept;
    if cfg.size(kv) <= cfg.maxBytes {
      var e := Entry(ids, kv, cfg.size(kv), s.clock);
      var rest := Without(s.entries, ids);
      var grown := InsertByLength(rest, e);
      WithoutOf(cfg, s.entries, s.clock, ids);
      InsertOf(cfg, rest, s.clock, e);
      InsertMembers(rest, e);
      SoundLater(cfg, rest, s.clock);
      KeptIsLru(cfg, grown, s.clock + 1);
      KeptKeepsLatest(cfg, grown, s.clock + 1, e);
    }
  }

  function Cut<R>(kv: seq<seq<R>>, n: nat): seq<seq<R>>
    requires forall l :: 0 <= l < |kv| ==> n <= |kv[l]|
  {
    seq(|kv|, l requires 0 <= l < |kv| => kv[l][..n])
  }

  /** Snapshots at `n`, `n + every`, … and at full length. */
  ghost function StoredFrom<R>(cfg: Config<R>, s: State<R>, ids: seq<int>, kv: seq<seq<R>>, n: nat): State<R>
    requires cfg.snapshotEvery >= 1 && Aligned(ids, kv)
    decreases |ids| - n
  {
    if n >= |ids| then Inserted(cfg, s, ids, kv)
    else StoredFrom(cfg, Inserted(cfg, s, ids[..n], Cut(kv, n)), ids, kv, n + cfg.snapshotEvery)
  }

  /** Only a store whose layers all have one length, at most that of the ids, is taken. */
  ghost predicate Storable<R>(ids: seq<int>, kv: seq<seq<R>>) {
    kv != [] && 0 < |kv[0]| <= |ids| && forall l :: 0 <= l < |kv| ==> |kv[l]| == |kv[0]|
  }

  ghost function Stored<R>(cfg: Config<R>, s: State<R>, ids: seq<int>, kv: seq<seq<R>>): State<R>
    requires cfg.snapshotEvery >= 1
  {
    if Storable(ids, kv) then StoredFrom(cfg, s, ids[..|kv[0]|], kv, cfg.snapshotEvery) else s
  }

  // ---------------------------------------------------------------- what the snapshots mean

  /** Each layer's rows for a token sequence, one per token, a prefix's rows being a prefix. */
  ghost predicate Causal<R>(model: (nat, seq<int>) -> seq<R>) {
    && (forall l, ids :: |model(l, ids)| == |ids|)
    && (forall l, ids, n :: 0 <= n <= |ids| ==> model(l, ids[..n]) == model(l, ids)[..n])
  }

  /** There are such models: each row the token itself. */
  lemma CausalExists()
    ensures Causal((layer: nat, ids: seq<int>) => ids)
  {}

  ghost predicate Computes<R>(model: (nat, seq<int>) -> seq<R>, ids: seq<int>, kv: seq<seq<R>>) {
    forall l :: 0 <= l < |kv| ==> kv[l] == model(l, ids)
  }

  /** Every snapshot is what recomputing its prefix would give. */
  ghost predicate Truthful<R>(model: (nat, seq<int>) -> seq<R>, s: State<R>) {
    forall e :: e in s.entries ==> Computes(model, e.ids, e.kv)
  }

  lemma CutComputes<R>(model: (nat, seq<int>) -> seq<R>, ids: seq<int>, kv: seq<seq<R>>, n: nat)
    requires Causal(model) && Computes(model, ids, kv) && 0 < n <= |ids| && Aligned(ids, kv)
    ensures Aligned(ids[..n], Cut(kv, n)) && Computes(model, ids[..n], Cut(kv, n))
  {
    forall l | 0 <= l < |kv| ensures Cut(kv, n)[l] == model(l, ids[..n]) && |Cut(kv, n)[l]| == n {
      assert model(l, ids[..n]) == model(l, ids)[..n];
    }
  }

  lemma CutAligned<R>(ids: seq<int>, kv: seq<seq<R>>, n: nat)
    requires Aligned(ids, kv) && 0 < n <= |ids|
    ensures Aligned(ids[..n], Cut(kv, n))
  {}

  lemma OkEvery<R>(cfg: Config<R>, s: State<R>)
    requires Ok(cfg, s)
    ensures cfg.snapshotEvery >= 1
  {}

  /** A store keeps the bounds and the invariants, and the truth of every snapshot; the full
      prefix itself is there afterwards whenever it fits alone. */
  lemma {:induction false} StoredFromKeeps<R>(
      model: (nat, seq<int>) -> seq<R>, cfg: Config<R>, s: State<R>, ids: seq<int>, kv: seq<seq<R>>, n: nat)
    requires Ok(cfg, s) && Aligned(ids, kv) && n >= 1
    ensures var r := StoredFrom(cfg, s, ids, kv, n);
      && Ok(cfg, r)
      && (cfg.size(kv) <= cfg.maxBytes ==> exists e :: e in r.entries && e.ids == ids && e.kv == kv)
      && (Causal(model) && Truthful(model, s) && Computes(model, ids, kv) ==> Truthful(model, r))
    decreases |ids| - n
  {
    hide Ok, Inserted, Causal, Computes, Cut;
    if n >= |ids| {
      InsertedKeeps(cfg, s, ids, kv);
    } else {
      var cut := Cut(kv, n);
      CutAligned(ids, kv, n);
      InsertedKeeps(cfg, s, ids[..n], cut);
      if Causal(model) && Computes(model, ids, kv) { CutComputes(model, ids, kv, n); }
      OkEvery(cfg, s);
      StoredFromKeeps(model, cfg, Inserted(cfg, s, ids[..n], cut), ids, kv, n + cfg.snapshotEvery);
    }
  }

  // ---------------------------------------------------------------- a store with room

  /** The snapshots a store makes from `n` on, and their bytes. */
  function Points(ids: seq<int>, every: nat, n: nat): (count: nat)
    requires every >= 1
    ensures count >= 1
    decreases |ids| - n
  {
    if n >= |ids| then 1 else 1 + Points(ids, every, n + every)
  }

  function PointBytes<R>(cfg: Config<R>, ids: seq<int>, kv: seq<seq<R>>, n: nat): nat
    requires cfg.snapshotEvery >= 1 && Aligned(ids, kv)
    decreases |ids| - n
  {
    if n >= |ids| then cfg.size(kv) else cfg.size(Cut(kv, n)) + PointBytes(cfg, ids, kv, n + cfg.snapshotEvery)
  }

  /** The snapshot of the first `n` ids is there, with their rows. */
  ghost predicate Has<R>(s: State<R>, ids: seq<int>, kv: seq<seq<R>>, n: nat)
    requires Aligned(ids, kv) && n <= |ids|
  {
    exists e :: e in s.entries && e.ids == ids[..n] && e.kv == Cut(kv, n)
  }

  /** A snapshot that fits beside the others is added, and nothing else goes than its namesake. */
  lemma InsertedWithRoom<R>(cfg: Config<R>, s: State<R>, ids: seq<int>, kv: seq<seq<R>>)
    requires Ok(cfg, s) && Aligned(ids, kv)
    requires |s.entries| < cfg.maxEntries && Total(s.entries) + cfg.size(kv) <= cfg.maxBytes
    ensures var r := Inserted(cfg, s, ids, kv);
      && Ok(cfg, r) && |r.entries| <= |s.entries| + 1 && Total(r.entries) <= Total(s.entries) + cfg.size(kv)
      && (exists e :: e in r.entries && e.ids == ids && e.kv == kv)
      && (forall e :: e in s.entries && e.ids != ids ==> e in r.entries)
  {
    hide Sound, Total;
    InsertedKeeps(cfg, s, ids, kv);
    var e, rest := Entry(ids, kv, cfg.size(kv), s.clock), Without(s.entries, ids);
    WithoutOf(cfg, s.entries, s.clock, ids);
    WithoutSmaller(s.entries, ids);
    InsertMembers(rest, e);
    KeptAll(cfg, InsertByLength(rest, e));
  }

  lemma {:induction false} WithoutSmaller<R>(entries: seq<Entry<R>>, ids: seq<int>)
    ensures |Without(entries, ids)| <= |entries| && Total(Without(entries, ids)) <= Total(entries)
  {
    if entries != [] {
      hide Total;
      var front, last := entries[..|entries| - 1], entries[|entries| - 1];
      WithoutSmaller(front, ids);
      TotalSplit(front, [last]);
      TotalSplit(Without(front, ids), [last]);
      assert front + [last] == entries && Without(front, ids) + [] == Without(front, ids);
    }
  }

  /** `m` is one of `n`, `n + every`, … */
  predicate Reaches(n: nat, every: nat, m: nat)
    requires every >= 1
    decreases m - n
  {
    m == n || (n < m && Reaches(n + every, every, m))
  }

  lemma {:induction false} MultiplesReached(every: nat, n: nat, i: nat)
    requires every >= 1
    ensures Reaches(n, every, n + i * every)
    decreases i
  {
    if i > 0 {
      MultiplesReached(every, n + every, i - 1);
      assert n + every + (i - 1) * every == n + i * every;
    }
  }

  /** Entries that are none of the snapshots from `n` on are still there. */
  ghost predicate OthersStay<R>(s: State<R>, r: State<R>, ids: seq<int>, n: nat) {
    forall e :: e in s.entries && (|e.ids| < n || !(e.ids <= ids)) && e.ids != ids ==> e in r.entries
  }

  lemma PointStored<R>(cfg: Config<R>, s: State<R>, ids: seq<int>, kv: seq<seq<R>>, n: nat)
    requires Ok(cfg, s) && Aligned(ids, kv) && 1 <= n < |ids|
    requires |s.entries| < cfg.maxEntries && Total(s.entries) + cfg.size(Cut(kv, n)) <= cfg.maxBytes
    ensures var mid := Inserted(cfg, s, ids[..n], Cut(kv, n));
      && Ok(cfg, mid) && |mid.entries| <= |s.entries| + 1
      && Total(mid.entries) <= Total(s.entries) + cfg.size(Cut(kv, n))
      && Has(mid, ids, kv, n) && OthersStay(s, mid, ids, n)
  {
    hide Ok, Total, Inserted, Cut;
    CutAligned(ids, kv, n);
    InsertedWithRoom(cfg, s, ids[..n], Cut(kv, n));
  }

  lemma HasStays<R>(s: State<R>, r: State<R>, ids: seq<int>, kv: seq<seq<R>>, n: nat, later: nat)
    requires Aligned(ids, kv) && n < |ids| && n < later && Has(s, ids, kv, n) && OthersStay(s, r, ids, later)
    ensures Has(r, ids, kv, n)
  {}

  lemma OthersStayTwice<R>(s: State<R>, mid: State<R>, r: State<R>, ids: seq<int>, n: nat, later: nat)
    requires OthersStay(s, mid, ids, n) && OthersStay(mid, r, ids, later) && n <= later
    ensures OthersStay(s, r, ids, n)
  {}

  /** With room for all its snapshots, a store leaves one at every point and one of the whole
      prefix, and takes nothing else away than what it replaces. */
  lemma {:induction false} StoredWithRoom<R>(
      cfg: Config<R>, s: State<R>, ids: seq<int>, kv: seq<seq<R>>, n: nat)
    requires Ok(cfg, s) && cfg.snapshotEvery >= 1 && Aligned(ids, kv) && n >= 1
    requires |s.entries| + Points(ids, cfg.snapshotEvery, n) <= cfg.maxEntries
    requires Total(s.entries) + PointBytes(cfg, ids, kv, n) <= cfg.maxBytes
    ensures var r := StoredFrom(cfg, s, ids, kv, n);
      && Has(r, ids, kv, |ids|) && OthersStay(s, r, ids, n)
      && (forall m :: n <= m < |ids| && Reaches(n, cfg.snapshotEvery, m) ==> Has(r, ids, kv, m))
    decreases |ids| - n
  {
    hide Ok, Total, Inserted, OthersStay, Has;
    if n >= |ids| {
      InsertedWithRoom(cfg, s, ids, kv);
      WholeStored(s, Inserted(cfg, s, ids, kv), ids, kv, n);
    } else {
      var later := n + cfg.snapshotEvery;
      PointStored(cfg, s, ids, kv, n);
      var mid := Inserted(cfg, s, ids[..n], Cut(kv, n));
      StoredWithRoom(cfg, mid, ids, kv, later);
      var r := StoredFrom(cfg, mid, ids, kv, later);
      HasStays(mid, r, ids, kv, n, later);
      OthersStayTwice(s, mid, r, ids, n, later);
      forall m | n < m < |ids| && Reaches(n, cfg.snapshotEvery, m)
        ensures later <= m && Reaches(later, cfg.snapshotEvery, m)
      {
        ReachesAhead(later, cfg.snapshotEvery, m);
      }
    }
  }

  lemma {:induction false} ReachesAhead(n: nat, every: nat, m: nat)
    requires every >= 1 && Reaches(n, every, m)
    ensures n <= m
  {}

  lemma WholeStored<R>(s: State<R>, r: State<R>, ids: seq<int>, kv: seq<seq<R>>, n: nat)
    requires Aligned(ids, kv) && (exists e :: e in r.entries && e.ids == ids && e.kv == kv)
    requires forall e :: e in s.entries && e.ids != ids ==> e in r.entries
    ensures Has(r, ids, kv, |ids|) && OthersStay(s, r, ids, n)
  {
    assert forall l :: 0 <= l < |kv| ==> Cut(kv, |ids|)[l] == kv[l];
    assert Cut(kv, |ids|) == kv && ids[..|ids|] == ids;
  }

  /** So a store with room has a snapshot at each multiple of the interval. */
  lemma SnapshotsAtIntervals<R>(cfg: Config<R>, s: State<R>, ids: seq<int>, kv: seq<seq<R>>)
    requires Ok(cfg, s) && cfg.snapshotEvery >= 1 && Storable(ids, kv)
    requires var kept := ids[..|kv[0]|];
      && |s.entries| + Points(kept, cfg.snapshotEvery, cfg.snapshotEvery) <= cfg.maxEntries
      && Total(s.entries) + PointBytes(cfg, kept, kv, cfg.snapshotEvery) <= cfg.maxBytes
    ensures var r, kept := Stored(cfg, s, ids, kv), ids[..|kv[0]|];
      && Has(r, kept, kv, |kept|)
      && (forall i: nat :: 1 <= i && i * cfg.snapshotEvery < |kept| ==> Has(r, kept, kv, i * cfg.snapshotEvery))
      && (forall e :: e in s.entries && !(e.ids <= kept) ==> e in r.entries)
  {
    hide Ok, Total, Has, StoredFrom;
    var every, kept := cfg.snapshotEvery, ids[..|kv[0]|];
    StoredWithRoom(cfg, s, kept, kv, every);
    forall i: nat | 1 <= i && i * every < |kept| ensures Has(Stored(cfg, s, ids, kv), kept, kv, i * every) {
      MultiplesReached(every, every, i - 1);
      assert every + (i - 1) * every == i * every;
    }
  }

  // ---------------------------------------------------------------- lookup

  /** The entry is a prefix of the ids within the caller's length limits. */
  predicate Usable<R>(e: Entry<R>, ids: seq<int>, minLength: int, maxLength: Option<int>) {
    e.ids <= ids && |e.ids| >= (if minLength < 1 then 1 else minLength) &&
      (maxLength.Some? ==> |e.ids| < maxLength.value)
  }

  function Longer<R>(entries: seq<Entry<R>>, best: Option<nat>, i: nat): bool
    requires i < |entries| && (best.Some? ==> best.value < |entries|)
  {
    best.None? || |entries[i].ids| > |entries[best.value].ids|
  }

  /** The scan: the longest of the first `n` entries that is a non-empty prefix shorter than the maximum. */
  function BestOf<R>(entries: seq<Entry<R>>, n: nat, ids: seq<int>, maxLength: Option<int>): (best: Option<nat>)
    requires n <= |entries|
    ensures best.Some? ==> best.value < n && Usable(entries[best.value], ids, 1, maxLength)
    ensures forall j :: 0 <= j < n && Usable(entries[j], ids, 1, maxLength) ==>
      best.Some? && |entries[j].ids| <= |entries[best.value].ids|
  {
    if n == 0 then None
    else
      var best := BestOf(entries, n - 1, ids, maxLength);
      if Usable(entries[n - 1], ids, 1, maxLength) && Longer(entries, best, n - 1) then Some(n - 1) else best
  }

  /** The entry a lookup finds: the best one, unless it is below the caller's minimum. */
  function Found<R>(entries: seq<Entry<R>>, ids: seq<int>, minLength: int, maxLength: Option<int>): (i: Option<nat>)
    ensures i.None? <==> forall e :: e in entries ==> !Usable(e, ids, minLength, maxLength)
    ensures i.Some? ==> i.value < |entries| && Usable(entries[i.value], ids, minLength, maxLength)
    ensures i.Some? ==>
      forall e :: e in entries && Usable(e, ids, minLength, maxLength) ==> |e.ids| <= |entries[i.value].ids|
  {
    var best := BestOf(entries, |entries|, ids, maxLength);
    assert best.Some? ==> entries[best.value] in entries;
    if best.Some? && |entries[best.value].ids| >= (if minLength < 1 then 1 else minLength) then best else None
  }

  function Refreshed<R>(s: State<R>, i: nat): State<R>
    requires i < |s.entries|
  {
    State(s.entries[i := s.entries[i].(created := s.clock)], s.clock + 1)
  }

  function LookedUp<R>(s: State<R>, ids: seq<int>, minLength: int, maxLength: Option<int>): State<R> {
    var i := Found(s.entries, ids, minLength, maxLength);
    if i.None? then s else Refreshed(s, i.value)
  }

  /** The same entries, but entry `i` is now more recent than every other. */
  ghost predicate UsedLast<R>(before: seq<Entry<R>>, after: seq<Entry<R>>, i: nat) {
    && |after| == |before| && i < |after|
    && (forall j :: 0 <= j < |after| && j != i ==> after[j] == before[j] && after[j].created < after[i].created)
    && after[i].ids == before[i].ids && after[i].kv == before[i].kv && after[i].bytes == before[i].bytes
  }

  /** Using an entry makes it the most recent and changes nothing else. */
  lemma RefreshKeeps<R>(model: (nat, seq<int>) -> seq<R>, cfg: Config<R>, s: State<R>, i: nat)
    requires Ok(cfg, s) && i < |s.entries|
    ensures var r := Refreshed(s, i);
      Ok(cfg, r) && (Truthful(model, s) ==> Truthful(model, r)) && UsedLast(s.entries, r.entries, i)
  {
    var e := s.entries[i].(created := s.clock);
    var r := s.entries[i := e];
    forall j | 0 <= j < |r| ensures Good(cfg, r[j], s.clock + 1) { assert Good(cfg, s.entries[j], s.clock); }
    forall j, k | 0 <= j < k < |r| ensures FirstBefore(r[j], r[k]) {
      assert FirstBefore(s.entries[j], s.entries[k]) && Good(cfg, s.entries[j], s.clock) &&
        Good(cfg, s.entries[k], s.clock);
    }
    TotalUpdate(s.entries, i, e);
    if Truthful(model, s) {
      forall f | f in r ensures Computes(model, f.ids, f.kv) {
        var j :| 0 <= j < |r| && r[j] == f;
        assert s.entries[j] in s.entries;
      }
    }
  }

  lemma TotalUpdate<R>(entries: seq<Entry<R>>, i: nat, e: Entry<R>)
    requires i < |entries| && e.bytes == entries[i].bytes
    ensures Total(entries[i := e]) == Total(entries)
  {
    TotalDropped(entries, i);
    TotalDropped(entries[i := e], i);
    assert Dropped(entries[i := e], i) == Dropped(entries, i);
  }

  // ---------------------------------------------------------------- any sequence of stores and lookups

  datatype Op<R> =
    | StoreOp(ids: seq<int>, kv: seq<seq<R>>)
    | LookupOp(ids: seq<int>, minLength: int, maxLength: Option<int>)

  ghost function Run<R>(cfg: Config<R>, ops: seq<Op<R>>): State<R>
    requires cfg.snapshotEvery >= 1
  {
    if ops == [] then State([], 0)
    else
      var before := Run(cfg, ops[..|ops| - 1]);
      match ops[|ops| - 1]
      case StoreOp(ids, kv) => Stored(cfg, before, ids, kv)
      case LookupOp(ids, minLength, maxLength) => LookedUp(before, ids, minLength, maxLength)
  }

  /** What is offered for storing is what the model computes for those ids. */
  ghost predicate Offered<R>(model: (nat, seq<int>) -> seq<R>, op: Op<R>) {
    op.StoreOp? && Storable(op.ids, op.kv) ==> Computes(model, op.ids[..|op.kv[0]|], op.kv)
  }

  lemma StoredKeeps<R>(model: (nat, seq<int>) -> seq<R>, cfg: Config<R>, s: State<R>, op: Op<R>)
    requires Ok(cfg, s) && Causal(model) && Truthful(model, s) && op.StoreOp? && Offered(model, op)
    ensures cfg.snapshotEvery >= 1 && Ok(cfg, Stored(cfg, s, op.ids, op.kv))
    ensures Truthful(model, Stored(cfg, s, op.ids, op.kv))
  {
    OkEvery(cfg, s);
    hide Ok, Causal, Truthful, StoredFrom;
    if Storable(op.ids, op.kv) { StoredFromKeeps(model, cfg, s, op.ids[..|op.kv[0]|], op.kv, cfg.snapshotEvery); }
  }

  /** After any stores and lookups the entries are distinct, ordered, aligned and within both
      bounds, and every one holds what recomputing its prefix would give. */
  lemma {:induction false} RunKeeps<R>(model: (nat, seq<int>) -> seq<R>, cfg: Config<R>, ops: seq<Op<R>>)
    requires Sane(cfg) && Causal(model) && forall op :: op in ops ==> Offered(model, op)
    ensures Ok(cfg, Run(cfg, ops)) && Truthful(model, Run(cfg, ops))
    decreases |ops|
  {
    if ops != [] {
      var front, op := ops[..|ops| - 1], ops[|ops| - 1];
      RunKeeps(model, cfg, front);
      hide Ok, Truthful, Causal, Stored, Offered;
      var s := Run(cfg, front);
      if op.StoreOp? {
        StoredKeeps(model, cfg, s, op);
      } else {
        var i := Found(s.entries, op.ids, op.minLength, op.maxLength);
        if i.Some? { RefreshKeeps(model, cfg, s, i.value); }
      }
    }
  }

  /** So whatever was stored and looked up before, a lookup finds the longest usable prefix, and
      its rows are those recomputing it would give. */
  lemma LookupIsTrue<R>(
      model: (nat, seq<int>) -> seq<R>, cfg: Config<R>, ops: seq<Op<R>>, ids: seq<int>, minLength: int,
      maxLength: Option<int>)
    requires Sane(cfg) && Causal(model) && forall op :: op in ops ==> Offered(model, op)
    ensures var entries := Run(cfg, ops).entries;
      var i := Found(entries, ids, minLength, maxLength);
      && (forall e :: e in entries && Usable(e, ids, minLength, maxLength) ==>
          i.Some? && |e.ids| <= |entries[i.value].ids|)
      && (i.Some? ==> Computes(model, ids[..|entries[i.value].ids|], entries[i.value].kv))
  {
    RunKeeps(model, cfg, ops);
    hide Ok, Run, Computes, Causal;
    var entries := Run(cfg, ops).entries;
    var i := Found(entries, ids, minLength, maxLength);
    if i.Some? { assert entries[i.value] in entries && ids[..|entries[i.value].ids|] == entries[i.value].ids; }
  }

  class PrefixKVCache<R> {
    const cfg: Config<R>
    var entries: seq<Entry<R>>
    var bytes: int
    var clock: nat
    var hits: nat
    var misses: nat

    function View(): State<R>
      reads this
    {
      State(entries, clock)
    }

    ghost predicate Valid()
      reads this
    {
      Ok(cfg, View()) && bytes == Total(entries)
    }

    constructor (maxEntries: int, snapshotEvery: int, maxBytes: int, size: seq<seq<R>> -> nat)
      ensures Valid() && entries == []
    {
      cfg := Config(AtLeastOne(maxEntries), AtLeastOne(snapshotEvery), AtLeastOne(maxBytes), size);
      entries, bytes, clock, hits, misses := [], 0, 0, 0, 0;
    }

    /** The longest stored prefix within the limits, if any; using it makes it most recent. */
    method Lookup(ids: seq<int>, minLength: int, maxLength: Option<int>, ghost model: (nat, seq<int>) -> seq<R>)
      returns (r: Option<Entry<R>>)
      requires Valid()
      modifies this
      ensures Valid() && (Truthful(model, old(View())) ==> Truthful(model, View()))
      ensures View() == LookedUp(old(View()), ids, minLength, maxLength)
      ensures r.None? <==> forall e :: e in old(entries) ==> !Usable(e, ids, minLength, maxLength)
      ensures r.None? ==> View() == old(View())
      ensures r.Some? ==>
        && Usable(r.value, ids, minLength, maxLength)
        && exists i: nat :: UsedLast(old(entries), entries, i) && entries[i] == r.value
      ensures r.Some? ==>
        forall e :: e in old(entries) && Usable(e, ids, minLength, maxLength) ==> |e.ids| <= |r.value.ids|
      ensures r.Some? && Truthful(model, old(View())) ==> Computes(model, ids[..|r.value.ids|], r.value.kv)
      ensures hits + misses == old(hits + misses) + 1 && (hits > old(hits) <==> r.Some?)
    {
      hide Truthful, Ok, BestOf;
      var best := BestMatch(entries, ids, maxLength);
      if best.Some? && |entries[best.value].ids| < (if minLength < 1 then 1 else minLength) { best := None; }
      if best.None? {
        misses := misses + 1;
        return None;
      }
      var i := best.value;
      assert entries[i] in entries && ids[..|entries[i].ids|] == entries[i].ids;
      RefreshKeeps(model, cfg, View(), i);
      TotalUpdate(entries, i, entries[i].(created := clock));
      entries := entries[i := entries[i].(created := clock)];
      clock, hits := clock + 1, hits + 1;
      assert UsedLast(old(entries), entries, i);
      r := Some(entries[i]);
    }

    static method BestMatch(entries: seq<Entry<R>>, ids: seq<int>, maxLength: Option<int>) returns (best: Option<nat>)
      ensures best == BestOf(entries, |entries|, ids, maxLength)
    {
      best := None;
      for i := 0 to |entries|
        invariant best == BestOf(entries, i, ids, maxLength)
      {
        var n := |entries[i].ids|;
        if n > |ids| || n == 0 { continue; }
        if maxLength.Some? && n >= maxLength.value { continue; }
        if entries[i].ids == ids[..n] && (best.None? || n > |entries[best.value].ids|) { best := Some(i); }
      }
    }

    /** The entry list's oldest entry. */
    static method OldestIndex(entries: seq<Entry<R>>) returns (i: nat)
      requires entries != []
      ensures OldestAt(entries, i)
    {
      i := 0;
      for j := 1 to |entries|
        invariant i < |entries| && forall k :: 0 <= k < j ==> entries[i].created <= entries[k].created
      {
        if entries[j].created < entries[i].created { i := j; }
      }
    }

    method Insert(ids: seq<int>, kv: seq<seq<R>>) returns (ok: bool)
      requires Valid() && Aligned(ids, kv)
      modifies this
      ensures Valid() && View() == Inserted(cfg, old(View()), ids, kv)
      ensures ok <==> cfg.size(kv) <= cfg.maxBytes
      ensures hits == old(hits) && misses == old(misses)
    {
      hide Sound, Kept, SortByLength, InsertByLength, Without, ByLength, Bounded, Total;
      InsertedKeeps(cfg, View(), ids, kv);
      var size := cfg.size(kv);
      if size > cfg.maxBytes { return false; }
      var rest := Without(entries, ids);
      WithoutOf(cfg, entries, clock, ids);
      var e := Entry(ids, kv, size, clock);
      InsertOf(cfg, rest, clock, e);
      InsertMembers(rest, e);
      bytes := bytes - (Total(entries) - Total(rest)) + size;
      SoundIsSorted(cfg, rest, clock);
      SortOfAppended(rest, e);
      entries := SortByLength(rest + [e]);
      clock := clock + 1;
      EvictToBounds();
      ok := true;
    }

    method EvictToBounds()
      requires Sane(cfg) && Sound(cfg, entries, clock) && bytes == Total(entries)
      modifies this`entries, this`bytes
      ensures entries == Kept(cfg, old(entries)) && bytes == Total(entries)
    {
      hide Sound, Kept, OldestAt, Dropped;
      while |entries| > cfg.maxEntries || bytes > cfg.maxBytes
        invariant Sound(cfg, entries, clock) && bytes == Total(entries) && Kept(cfg, entries) == Kept(cfg, old(entries))
        decreases |entries|
      {
        var i := OldestIndex(entries);
        OldestBound(entries, i);
        KeptStep(cfg, entries, clock, i);
        DroppedSound(cfg, entries, clock, i);
        TotalDropped(entries, i);
        DroppedShorter(entries, i);
        bytes := bytes - entries[i].bytes;
        entries := Dropped(entries, i);
      }
      KeptAll(cfg, entries);
    }

    /** Snapshot the ids with their rows, and their prefixes at fixed intervals. Layers of
        different lengths, or rows the ids do not cover, are refused. */
    method Store(ids: seq<int>, kv: seq<seq<R>>, ghost model: (nat, seq<int>) -> seq<R>)
      requires Valid()
      modifies this
      ensures Valid() && View() == Stored(cfg, old(View()), ids, kv)
      ensures Storable(ids, kv) && cfg.size(kv) <= cfg.maxBytes ==>
        exists e :: e in entries && e.ids == ids[..|kv[0]|] && e.kv == kv
      ensures Causal(model) && Truthful(model, old(View())) && Offered(model, StoreOp(ids, kv)) ==>
        Truthful(model, View())
    {
      if ids == [] || kv == [] { return; }
      var alike := SameLengths(kv);
      if !alike || |kv[0]| > |ids| || |kv[0]| == 0 { return; }
      var kept := ids[..|kv[0]|];
      StoredFromKeeps(model, cfg, View(), kept, kv, cfg.snapshotEvery);
      ghost var start := View();
      var n := cfg.snapshotEvery;
      while n < |kept|
        invariant Valid() && n >= 1
        invariant StoredFrom(cfg, View(), kept, kv, n) == StoredFrom(cfg, start, kept, kv, cfg.snapshotEvery)
        decreases |kept| - n
      {
        var _ := Insert(kept[..n], Cut(kv, n));
        n := n + cfg.snapshotEvery;
      }
      var _ := Insert(kept, kv);
    }

    static method SameLengths(kv: seq<seq<R>>) returns (same: bool)
      requires kv != []
      ensures same <==> forall l :: 0 <= l < |kv| ==> |kv[l]| == |kv[0]|
    {
      for l := 0 to |kv|
        invariant forall k :: 0 <= k < l ==> |kv[k]| == |kv[0]|
      {
        if |kv[l]| != |kv[0]| { return false; }
      }
      same := true;
    }
  }
}
