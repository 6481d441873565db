/** What the frequencies and stamps of the least-frequently-used cache count, read off the history of
    its events: requests, and arrivals of reads that were requested or only prefetched. */
module ExpertHistory {
  import opened Common
  import opened ExpertCache

  /** A cached expert is requested, or a finished read of one arrives: `used` if it was requested. */
  datatype Event = Use(key: Key) | Arrive(key: Key, used: bool)

  ghost function After<W>(c: Lfu<W>, cfg: Config<W>, e: Event): (r: Lfu<W>)
    requires Stamps(c)
    ensures Stamps(r)
  {
    match e
    case Use(k) =>
      UsedStamps(c, k);
      Used(c, k)
    case Arrive(k, used) => Admitted(c, cfg, k, used)
  }

  lemma UsedStamps<W>(c: Lfu<W>, k: Key)
    requires Stamps(c)
    ensures Stamps(Used(c, k))
  {}

  ghost function Fold<W>(c: Lfu<W>, cfg: Config<W>, events: seq<Event>): (r: Lfu<W>)
    requires Stamps(c)
    ensures Stamps(r)
    decreases |events|
  {
    if events == [] then c else After(Fold(c, cfg, events[..|events| - 1]), cfg, events[|events| - 1])
  }

  lemma {:induction false} FoldAppend<W>(c: Lfu<W>, cfg: Config<W>, a: seq<Event>, b: seq<Event>)
    requires Stamps(c)
    ensures Fold(c, cfg, a + b) == Fold(Fold(c, cfg, a), cfg, b)
    decreases |b|
  {
    hide Stamps, After;
    if b == [] {
      assert a + b == a;
    } else {
      FoldAppend(c, cfg, a, b[..|b| - 1]);
      assert (a + b)[..|a + b| - 1] == a + b[..|b| - 1];
    }
  }

  // ---------------------------------------------------------------- read off the history

  predicate Requests(e: Event, k: Key) { e.key == k && (e.Use? || e.used) }

  /** How often `k` was requested. */
  function Uses(events: seq<Event>, k: Key): nat {
    if events == [] then 0
    else Uses(events[..|events| - 1], k) + if Requests(events[|events| - 1], k) then 1 else 0
  }

  /** The number of the last event that names `k`, 0 if none does. */
  function LastAt(events: seq<Event>, k: Key): nat {
    if events == [] then 0
    else if events[|events| - 1].key == k then |events| else LastAt(events[..|events| - 1], k)
  }

  lemma {:induction false} UsesAppend(a: seq<Event>, b: seq<Event>, k: Key)
    ensures Uses(a + b, k) == Uses(a, k) + Uses(b, k)
    decreases |b|
  {
    if b == [] {
      assert a + b == a;
    } else {
      UsesAppend(a, b[..|b| - 1], k);
      assert (a + b)[..|a + b| - 1] == a + b[..|b| - 1];
    }
  }

  function NoCache<W>(): Lfu<W> { Lfu(map[], map[], map[], 0) }

  lemma NoCacheStamps<W>()
    ensures Stamps(NoCache<W>())
  {}

  /** A key's frequency is the number of its requests, whatever was prefetched and evicted on the
      way; its stamp is the number of the last event that names it. */
  lemma {:induction false} CountsAreRequests<W>(cfg: Config<W>, events: seq<Event>, k: Key)
    ensures Stamps(NoCache<W>())
    ensures var c := Fold(NoCache(), cfg, events);
      && Freq(c, k) == Uses(events, k) && c.tick == |events|
      && (k in c.last <==> LastAt(events, k) > 0) && (k in c.last ==> c.last[k] == LastAt(events, k))
    decreases |events|
  {
    NoCacheStamps<W>();
    if events != [] {
      var front, e := events[..|events| - 1], events[|events| - 1];
      CountsAreRequests(cfg, front, k);
      hide Stamps, Evicted;
      AfterCounts(Fold(NoCache(), cfg, front), cfg, e, k);
    }
  }

  lemma AfterCounts<W>(c: Lfu<W>, cfg: Config<W>, e: Event, k: Key)
    requires Stamps(c)
    ensures var r := After(c, cfg, e);
      && Freq(r, k) == Freq(c, k) + (if Requests(e, k) then 1 else 0) && r.tick == c.tick + 1
      && (k in r.last <==> k in c.last || k == e.key)
      && (k in r.last ==> r.last[k] == if k == e.key then c.tick + 1 else c.last[k])
  {
    hide Stamps, Evicted;
  }

  // ---------------------------------------------------------------- who is evicted

  /** `a` was requested less often than `b`, or as often and named longer ago. */
  predicate LessWanted(events: seq<Event>, a: Key, b: Key) {
    Uses(events, a) < Uses(events, b) || (Uses(events, a) == Uses(events, b) && LastAt(events, a) < LastAt(events, b))
  }

  /** After any history: when a read arrives, whatever it evicts was requested no more often than
      anything it keeps, ties going to what was named longest ago. */
  lemma EvictsLeastRequested<W>(cfg: Config<W>, events: seq<Event>, k: Key, used: bool, gone: Key, kept: Key)
    requires Stamps(NoCache<W>())
    requires var all, c := events + [Arrive(k, used)], Fold(NoCache(), cfg, events);
      && (gone in c.cache || gone == k) && gone !in Fold(NoCache(), cfg, all).cache
      && kept in Fold(NoCache(), cfg, all).cache
    ensures LessWanted(events + [Arrive(k, used)], gone, kept)
  {
    hide Stamps, Evicted, Before;
    var all, c := events + [Arrive(k, used)], Fold(NoCache(), cfg, events);
    assert all[..|events|] == events;
    var mid := Inserted(c, k, cfg.load(k), used);
    InsertedStamps(c, k, cfg.load(k), used);
    EvictedIsLfu(mid, cfg.size, cfg.budget);
    assert Before(mid, gone, kept);
    CountsAreRequests(cfg, all, gone);
    CountsAreRequests(cfg, all, kept);
    BeforeIs(mid, Fold(NoCache(), cfg, all), gone, kept);
  }

  lemma BeforeIs<W>(c: Lfu<W>, r: Lfu<W>, a: Key, b: Key)
    requires Stamps(c) && a in c.last && b in c.last && r.last == c.last && r.freq == c.freq && Before(c, a, b)
    ensures Freq(r, a) < Freq(r, b) || (Freq(r, a) == Freq(r, b) && r.last[a] < r.last[b])
  {}

  // ---------------------------------------------------------------- whole calls

  function AbsorbEvents(done: seq<Read>): seq<Event> {
    if done == [] then []
    else AbsorbEvents(done[..|done| - 1]) + if done[|done| - 1].ok then [Arrive(done[|done| - 1].key, false)] else []
  }

  function UseEvents<W>(c: Lfu<W>, layer: int, eids: seq<int>): seq<Event> {
    if eids == [] then []
    else
      var k := Key(layer, eids[|eids| - 1]);
      UseEvents(c, layer, eids[..|eids| - 1]) + if k in c.cache then [Use(k)] else []
  }

  function ArriveEvents(layer: int, eids: seq<int>): seq<Event> {
    seq(|eids|, i requires 0 <= i < |eids| => Arrive(Key(layer, eids[i]), true))
  }

  /** The events of a call: finished reads absorbed, what is cached used, the awaited reads arriving. */
  ghost function CallEvents<W>(c: Lfu<W>, cfg: Config<W>, call: Call): seq<Event>
    requires Stamps(c)
  {
    var c1 := AbsorbAll(c, cfg, call.done);
    AbsorbEvents(call.done) + UseEvents(c1, call.layer, call.eids)
    + ArriveEvents(call.layer, Served(call.layer, PendingOf(c1, call.layer, call.eids), call.failing))
  }

  datatype Call = Call(layer: int, eids: seq<int>, done: seq<Read>, failing: set<Key>)

  lemma {:induction false} AbsorbIsEvents<W>(c: Lfu<W>, cfg: Config<W>, done: seq<Read>)
    requires Stamps(c)
    ensures AbsorbAll(c, cfg, done) == Fold(c, cfg, AbsorbEvents(done))
    decreases |done|
  {
    hide Stamps, Admitted;
    if done != [] {
      var front, read := done[..|done| - 1], done[|done| - 1];
      AbsorbIsEvents(c, cfg, front);
      if read.ok {
        FoldAppend(c, cfg, AbsorbEvents(front), [Arrive(read.key, false)]);
        FoldOne(Fold(c, cfg, AbsorbEvents(front)), cfg, Arrive(read.key, false));
      } else {
        assert AbsorbEvents(front) + [] == AbsorbEvents(front);
      }
    }
  }

  lemma FoldOne<W>(c: Lfu<W>, cfg: Config<W>, e: Event)
    requires Stamps(c)
    ensures Fold(c, cfg, [e]) == After(c, cfg, e)
  {
    hide After;
    assert [e][..0] == [];
  }

  lemma {:induction false} TouchIsEvents<W>(c: Lfu<W>, cfg: Config<W>, layer: int, eids: seq<int>)
    requires Stamps(c)
    ensures TouchAll(c, layer, eids) == Fold(c, cfg, UseEvents(c, layer, eids))
    decreases |eids|
  {
    hide Stamps, Used;
    if eids != [] {
      var front, k := eids[..|eids| - 1], Key(layer, eids[|eids| - 1]);
      TouchIsEvents(c, cfg, layer, front);
      if k in c.cache {
        FoldAppend(c, cfg, UseEvents(c, layer, front), [Use(k)]);
        FoldOne(Fold(c, cfg, UseEvents(c, layer, front)), cfg, Use(k));
      } else {
        assert UseEvents(c, layer, front) + [] == UseEvents(c, layer, front);
      }
    }
  }

  lemma {:induction false} AdmitIsEvents<W>(c: Lfu<W>, cfg: Config<W>, layer: int, eids: seq<int>)
    requires Stamps(c)
    ensures AdmitAll(c, cfg, layer, eids) == Fold(c, cfg, ArriveEvents(layer, eids))
    decreases |eids|
  {
    hide Stamps, Admitted;
    if eids != [] {
      var front, e := eids[..|eids| - 1], Arrive(Key(layer, eids[|eids| - 1]), true);
      AdmitIsEvents(c, cfg, layer, front);
      FoldAppend(c, cfg, ArriveEvents(layer, front), [e]);
      FoldOne(Fold(c, cfg, ArriveEvents(layer, front)), cfg, e);
      assert ArriveEvents(layer, eids) == ArriveEvents(layer, front) + [e];
    }
  }

  /** What a call does to the cache is what its events do, one after another. */
  lemma CalledIsEvents<W>(c: Lfu<W>, cfg: Config<W>, call: Call)
    requires Stamps(c)
    ensures Called(c, cfg, call.layer, call.eids, call.done, call.failing) == Fold(c, cfg, CallEvents(c, cfg, call))
  {
    hide Stamps, AbsorbAll, TouchAll, AdmitAll, PendingOf, Served, Fold, AbsorbEvents, UseEvents, ArriveEvents;
    var c1 := AbsorbAll(c, cfg, call.done);
    var served := Served(call.layer, PendingOf(c1, call.layer, call.eids), call.failing);
    AbsorbIsEvents(c, cfg, call.done);
    TouchIsEvents(c1, cfg, call.layer, call.eids);
    AdmitIsEvents(TouchAll(c1, call.layer, call.eids), cfg, call.layer, served);
    var a, u := AbsorbEvents(call.done), UseEvents(c1, call.layer, call.eids);
    FoldAppend(c, cfg, a, u);
    FoldAppend(c, cfg, a + u, ArriveEvents(call.layer, served));
  }

  lemma {:induction false} AbsorbAddsNone(done: seq<Read>, k: Key)
    ensures Uses(AbsorbEvents(done), k) == 0
    decreases |done|
  {
    if done != [] {
      var front := done[..|done| - 1];
      AbsorbAddsNone(front, k);
      UsesAppend(AbsorbEvents(front), if done[|done| - 1].ok then [Arrive(done[|done| - 1].key, false)] else [], k);
    }
  }

  function Mentions(eids: seq<int>, e: int): nat {
    if eids == [] then 0 else Mentions(eids[..|eids| - 1], e) + if eids[|eids| - 1] == e then 1 else 0
  }

  lemma {:induction false} MentionedOnce(eids: seq<int>, e: int)
    requires Distinct(eids)
    ensures Mentions(eids, e) == if e in eids then 1 else 0
    decreases |eids|
  {
    if eids != [] {
      MentionedOnce(eids[..|eids| - 1], e);
      assert eids == eids[..|eids| - 1] + [eids[|eids| - 1]];
    }
  }

  lemma {:induction false} UseCounts<W>(c: Lfu<W>, layer: int, eids: seq<int>, k: Key)
    ensures Uses(UseEvents(c, layer, eids), k) == if k.layer == layer &&
      k in c.cache then Mentions(eids, k.expert) else 0
    decreases |eids|
  {
    if eids != [] {
      var front, last := eids[..|eids| - 1], Key(layer, eids[|eids| - 1]);
      UseCounts(c, layer, front, k);
      UsesAppend(UseEvents(c, layer, front), if last in c.cache then [Use(last)] else [], k);
    }
  }

  lemma {:induction false} ArriveCounts(layer: int, eids: seq<int>, k: Key)
    ensures Uses(ArriveEvents(layer, eids), k) == if k.layer == layer then Mentions(eids, k.expert) else 0
    decreases |eids|
  {
    if eids != [] {
      ArriveCounts(layer, eids[..|eids| - 1], k);
      assert ArriveEvents(layer, eids)[..|eids| - 1] == ArriveEvents(layer, eids[..|eids| - 1]);
    }
  }

  lemma {:induction false} PendingIs<W>(c: Lfu<W>, layer: int, eids: seq<int>)
    ensures var p := PendingOf(c, layer, eids);
      Distinct(p) && forall e :: e in p <==> e in eids && Key(layer, e) !in c.cache
    decreases |eids|
  {
    if eids != [] {
      PendingIs(c, layer, eids[..|eids| - 1]);
      assert eids == eids[..|eids| - 1] + [eids[|eids| - 1]];
    }
  }

  /** What one call counts for a key, exactly: each mention while it is cached; otherwise one, and
      only if its read was waited for before a failing one; for other layers and for absorbed
      prefetches nothing. */
  lemma CallCounts<W>(c: Lfu<W>, cfg: Config<W>, call: Call, k: Key)
    requires Stamps(c)
    ensures var c1 := AbsorbAll(c, cfg, call.done);
      var served := Served(call.layer, PendingOf(c1, call.layer, call.eids), call.failing);
      Uses(CallEvents(c, cfg, call), k) ==
        if k.layer != call.layer then 0
        else if k in c1.cache then Mentions(call.eids, k.expert)
        else if k.expert in served then 1 else 0
  {
    hide Stamps, AbsorbAll, TouchAll, AdmitAll, PendingOf, Served, AbsorbEvents, UseEvents, ArriveEvents, Uses;
    var c1 := AbsorbAll(c, cfg, call.done);
    var pending := PendingOf(c1, call.layer, call.eids);
    var served := Served(call.layer, pending, call.failing);
    var a, u, r := AbsorbEvents(call.done), UseEvents(c1, call.layer, call.eids), ArriveEvents(call.layer, served);
    UsesAppend(a, u, k);
    UsesAppend(a + u, r, k);
    AbsorbAddsNone(call.done, k);
    UseCounts(c1, call.layer, call.eids, k);
    ArriveCounts(call.layer, served, k);
    PendingIs(c1, call.layer, call.eids);
    assert served <= pending;
    MentionedOnce(served, k.expert);
  }

  // ---------------------------------------------------------------- any sequence of calls

  ghost function AfterCalls<W>(cfg: Config<W>, calls: seq<Call>): (c: Lfu<W>)
    ensures Stamps(c)
    decreases |calls|
  {
    NoCacheStamps<W>();
    if calls == [] then NoCache()
    else
      var call := calls[|calls| - 1];
      Called(AfterCalls(cfg, calls[..|calls| - 1]), cfg, call.layer, call.eids, call.done, call.failing)
  }

  ghost function History<W>(cfg: Config<W>, calls: seq<Call>): seq<Event>
    decreases |calls|
  {
    if calls == [] then []
    else
      var front := calls[..|calls| - 1];
      History(cfg, front) + CallEvents(AfterCalls(cfg, front), cfg, calls[|calls| - 1])
  }

  lemma {:induction false} CallsAreHistory<W>(cfg: Config<W>, calls: seq<Call>)
    ensures Stamps(NoCache<W>()) && AfterCalls(cfg, calls) == Fold(NoCache(), cfg, History(cfg, calls))
    decreases |calls|
  {
    NoCacheStamps<W>();
    hide Stamps, Called, CallEvents;
    if calls != [] {
      var front, call := calls[..|calls| - 1], calls[|calls| - 1];
      CallsAreHistory(cfg, front);
      CalledIsEvents(AfterCalls(cfg, front), cfg, call);
      FoldAppend(NoCache(), cfg, History(cfg, front), CallEvents(AfterCalls(cfg, front), cfg, call));
    }
  }

  /** The calls that asked for `k`. */
  function Asked(calls: seq<Call>, k: Key): nat {
    if calls == [] then 0
    else
      var call := calls[|calls| - 1];
      Asked(calls[..|calls| - 1], k) + if call.layer == k.layer && k.expert in call.eids then 1 else 0
  }

  /** Over any calls that each name an expert once and none of whose reads fails, with whatever
      prefetched reads in between: a key's frequency is the number of calls that asked for it,
      though it may have been evicted and read again any number of times. */
  lemma {:induction false} FrequencyIsAsked<W>(cfg: Config<W>, calls: seq<Call>, k: Key)
    requires forall call :: call in calls ==> Distinct(call.eids) && call.failing == {}
    ensures Freq(AfterCalls(cfg, calls), k) == Uses(History(cfg, calls), k) == Asked(calls, k)
    decreases |calls|
  {
    CallsAreHistory(cfg, calls);
    CountsAreRequests(cfg, History(cfg, calls), k);
    if calls != [] {
      hide Stamps, Called, CallEvents, Freq;
      var front, call := calls[..|calls| - 1], calls[|calls| - 1];
      var c := AfterCalls(cfg, front);
      FrequencyIsAsked(cfg, front, k);
      UsesAppend(History(cfg, front), CallEvents(c, cfg, call), k);
      OneCallCounts(c, cfg, call, k);
    }
  }

  lemma OneCallCounts<W>(c: Lfu<W>, cfg: Config<W>, call: Call, k: Key)
    requires Stamps(c) && Distinct(call.eids) && call.failing == {}
    ensures Uses(CallEvents(c, cfg, call), k) == if call.layer == k.layer && k.expert in call.eids then 1 else 0
  {
    hide Stamps, AbsorbAll, PendingOf, CallEvents, Uses;
    var c1 := AbsorbAll(c, cfg, call.done);
    CallCounts(c, cfg, call, k);
    PendingIs(c1, call.layer, call.eids);
    MentionedOnce(call.eids, k.expert);
    NoneFail(call.layer, PendingOf(c1, call.layer, call.eids));
  }

  lemma NoneFail(layer: int, pending: seq<int>)
    ensures Served(layer, pending, {}) == pending
  {}
}
