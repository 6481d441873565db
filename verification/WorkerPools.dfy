/** Bounded worker pools: when a task gets its worker, and what that means for every moment
    at which tasks overlap. */
module WorkerPools {
  import opened Arithmetic

  /** A pool is the ascending list of its workers' free times. */
  predicate Sorted(busy: seq<real>) {
    forall i, j :: 0 <= i < j < |busy| ==> busy[i] <= busy[j]
  }

  type Pool = busy: seq<real> | Sorted(busy) witness []

  function Insert(busy: Pool, t: real): (r: Pool)
    ensures multiset(r) == multiset(busy) + multiset{t}
    ensures |r| == |busy| + 1
    ensures r[0] == t || (busy != [] && r[0] == busy[0])
  {
    InsertedIs(busy, t);
    Inserted(busy, t)
  }

  function Inserted(busy: seq<real>, t: real): seq<real> {
    if busy == [] || t <= busy[0] then [t] + busy else [busy[0]] + Inserted(busy[1..], t)
  }

  lemma {:induction false} InsertedIs(busy: seq<real>, t: real)
    requires Sorted(busy)
    ensures var r := Inserted(busy, t);
      && Sorted(r) && multiset(r) == multiset(busy) + multiset{t} && |r| == |busy| + 1
      && (r[0] == t || (busy != [] && r[0] == busy[0]))
  {
    hide Sorted;
    if busy == [] || t <= busy[0] {
      SortedCons(t, busy);
    } else {
      SortedUncons(busy);
      InsertedIs(busy[1..], t);
      SortedCons(busy[0], Inserted(busy[1..], t));
      assert busy == [busy[0]] + busy[1..];
    }
  }

  lemma SortedCons(t: real, busy: seq<real>)
    requires Sorted(busy) && (busy != [] ==> t <= busy[0])
    ensures Sorted([t] + busy)
  {}

  lemma SortedUncons(busy: seq<real>)
    requires Sorted(busy) && busy != []
    ensures Sorted(busy[1..]) && (|busy| > 1 ==> busy[0] <= busy[1..][0])
  {}

  /** When the next task of a pool starts: now, or when the first worker frees. */
  function StartTime(busy: Pool, workers: nat, now: real): (start: real)
    requires workers >= 1
    ensures start >= now
    ensures |busy| < workers ==> start == now
  {
    if |busy| < workers then now else MaxReal(now, busy[0])
  }

  /** The pool after that task: a free worker is taken, or the first to free is reused. */
  function Acquired(busy: Pool, workers: nat, now: real, duration: real): (busy': Pool)
    requires workers >= 1
    ensures |busy'| == if |busy| < workers then |busy| + 1 else |busy|
  {
    Insert(if |busy| < workers then busy else busy[1..], StartTime(busy, workers, now) + duration)
  }

  /** How many workers are still busy after time `t`. */
  function BusyAfter(busy: seq<real>, t: real): (n: nat)
    ensures n <= |busy|
  {
    if busy == [] then 0 else (if busy[0] > t then 1 else 0) + BusyAfter(busy[1..], t)
  }

  /** A task starts as soon as a worker is free, and not before: at its start fewer than all
      workers are busy, and at any earlier moment since it was submitted they all were. */
  lemma StartIsEarliest(busy: Pool, workers: nat, now: real, t: real)
    requires workers >= 1 && |busy| <= workers
    ensures BusyAfter(busy, StartTime(busy, workers, now)) < workers
    ensures now <= t < StartTime(busy, workers, now) ==> BusyAfter(busy, t) == workers
  {
    if now <= t < StartTime(busy, workers, now) { AllBusy(busy, t); }
  }

  lemma {:induction false} AllBusy(busy: Pool, t: real)
    requires busy != [] ==> busy[0] > t
    ensures BusyAfter(busy, t) == |busy|
  {
    if busy != [] {
      assert forall i :: 0 <= i < |busy| - 1 ==> busy[1..][i] == busy[i + 1] >= busy[0];
      AllBusy(busy[1..], t);
    }
  }

  // ---------------------------------------------------------------- the tasks a pool has served

  /** A task holds its worker from `start` up to, not including, `end`. */
  datatype Span = Span(start: real, end: real)

  const NO_TASK := Span(0.0, 0.0)

  predicate Covers(s: Span, t: real) { s.start <= t < s.end }

  /** How many of the tasks hold a worker at time `t`. */
  function Overlap(tasks: seq<Span>, t: real): nat {
    if tasks == [] then 0 else (if Covers(tasks[0], t) then 1 else 0) + Overlap(tasks[1..], t)
  }

  /** The worker time of all the tasks. */
  function Length(tasks: seq<Span>): real {
    if tasks == [] then 0.0 else tasks[0].end - tasks[0].start + Length(tasks[1..])
  }

  function Total(busy: seq<real>): real {
    if busy == [] then 0.0 else busy[0] + Total(busy[1..])
  }

  lemma {:induction false} OverlapUpdate(tasks: seq<Span>, k: nat, s: Span, t: real)
    requires k < |tasks|
    ensures Overlap(tasks[k := s], t) ==
      Overlap(tasks, t) - (if Covers(tasks[k], t) then 1 else 0) + (if Covers(s, t) then 1 else 0)
    ensures Length(tasks[k := s]) == Length(tasks) - (tasks[k].end - tasks[k].start) + (s.end - s.start)
  {
    if k == 0 {
      assert tasks[k := s][1..] == tasks[1..];
    } else {
      OverlapUpdate(tasks[1..], k - 1, s, t);
      assert tasks[k := s][1..] == tasks[1..][k - 1 := s];
    }
  }

  lemma {:induction false} OverlapSnoc(tasks: seq<Span>, s: Span, t: real)
    ensures Overlap(tasks + [s], t) == Overlap(tasks, t) + if Covers(s, t) then 1 else 0
    ensures Length(tasks + [s]) == Length(tasks) + (s.end - s.start)
  {
    if tasks == [] {
      assert (tasks + [s])[1..] == [];
    } else {
      OverlapSnoc(tasks[1..], s, t);
      assert (tasks + [s])[1..] == tasks[1..] + [s];
    }
  }

  lemma {:induction false} OverlapNone(tasks: seq<Span>, t: real)
    requires forall i :: 0 <= i < |tasks| ==> tasks[i].end <= t
    ensures Overlap(tasks, t) == 0
  {
    if tasks != [] {
      assert forall i :: 0 <= i < |tasks| - 1 ==> tasks[1..][i] == tasks[i + 1];
      OverlapNone(tasks[1..], t);
    }
  }

  lemma {:induction false} LengthUniform(tasks: seq<Span>, d: real)
    requires forall i :: 0 <= i < |tasks| ==> tasks[i].end == tasks[i].start + d
    ensures Length(tasks) == |tasks| as real * d
  {
    if tasks != [] {
      assert forall i :: 0 <= i < |tasks| - 1 ==> tasks[1..][i] == tasks[i + 1];
      LengthUniform(tasks[1..], d);
      assert |tasks| as real == 1.0 + (|tasks| - 1) as real;
    }
  }

  lemma {:induction false} InsertedCounts(busy: seq<real>, x: real, t: real)
    ensures BusyAfter(Inserted(busy, x), t) == BusyAfter(busy, t) + if x > t then 1 else 0
    ensures Total(Inserted(busy, x)) == Total(busy) + x
  {
    if busy == [] {
      assert Inserted(busy, x) == [x] && [x][1..] == [];
    } else if x <= busy[0] {
      assert ([x] + busy)[1..] == busy;
    } else {
      InsertedCounts(busy[1..], x, t);
      assert ([busy[0]] + Inserted(busy[1..], x))[1..] == Inserted(busy[1..], x);
    }
  }

  lemma {:induction false} TotalBelow(busy: seq<real>, t: real)
    requires BusyAfter(busy, t) == 0
    ensures Total(busy) <= |busy| as real * t
  {
    if busy != [] {
      TotalBelow(busy[1..], t);
      assert |busy| as real == 1.0 + (|busy| - 1) as real;
    }
  }

  /** The pool is exactly the record of its tasks, those still `live` and those `past`: never more
      of them at once than workers, and from now on as many as there are busy workers. */
  ghost predicate Serves(busy: Pool, workers: nat, live: seq<Span>, past: seq<Span>, now: real) {
    && |busy| <= workers
    && (forall t: real :: Overlap(live, t) + Overlap(past, t) <= workers)
    && (forall t: real :: t >= now ==> Overlap(live, t) + Overlap(past, t) == BusyAfter(busy, t))
    && Length(live) + Length(past) <= Total(busy)
  }

  /** A task queued until `start` waits only because every worker is taken until then. */
  ghost predicate Awaits(busy: Pool, workers: nat, start: real, now: real) {
    forall t: real :: now <= t < start ==> BusyAfter(busy, t) == workers
  }

  /** Taking a worker adds one busy worker for exactly the time of the task. */
  lemma AcquiredBusy(busy: Pool, workers: nat, now: real, duration: real, t: real)
    requires workers >= 1 && duration > 0.0 && t >= now
    ensures var start := StartTime(busy, workers, now);
      BusyAfter(Acquired(busy, workers, now, duration), t) ==
        BusyAfter(busy, t) + if Covers(Span(start, start + duration), t) then 1 else 0
  {
    var start := StartTime(busy, workers, now);
    InsertedCounts(if |busy| < workers then busy else busy[1..], start + duration, t);
  }

  lemma AcquiredTotal(busy: Pool, workers: nat, now: real, duration: real)
    requires workers >= 1 && now >= 0.0
    ensures Total(Acquired(busy, workers, now, duration)) >= Total(busy) + duration
  {
    var end := StartTime(busy, workers, now) + duration;
    hide Inserted, BusyAfter;
    if |busy| < workers {
      InsertedCounts(busy, end, now);
      assert Acquired(busy, workers, now, duration) == Inserted(busy, end);
    } else {
      InsertedCounts(busy[1..], end, now);
      assert Acquired(busy, workers, now, duration) == Inserted(busy[1..], end);
    }
  }

  /** A task that takes its worker joins the record. */
  lemma AcquiredServes(busy: Pool, workers: nat, live: seq<Span>, past: seq<Span>, now: real, duration: real, k: nat)
    requires Serves(busy, workers, live, past, now) && workers >= 1 && duration > 0.0 && now >= 0.0
    requires k < |live| && live[k] == NO_TASK
    ensures var start := StartTime(busy, workers, now);
      Serves(Acquired(busy, workers, now, duration), workers, live[k := Span(start, start + duration)], past, now)
  {
    hide Acquired, StartTime, Overlap, Length, BusyAfter, Total;
    var start := StartTime(busy, workers, now);
    var task, busy' := Span(start, start + duration), Acquired(busy, workers, now, duration);
    AcquiredTotal(busy, workers, now, duration);
    OverlapUpdate(live, k, task, now);
    forall t: real
      ensures Overlap(live[k := task], t) + Overlap(past, t) <= workers
      ensures t >= now ==> Overlap(live[k := task], t) + Overlap(past, t) == BusyAfter(busy', t)
    {
      OverlapUpdate(live, k, task, t);
      if t >= now { AcquiredBusy(busy, workers, now, duration, t); }
    }
  }

  /** A task that has ended stays on record as past. */
  lemma EndedServes(busy: Pool, workers: nat, live: seq<Span>, past: seq<Span>, now: real, k: nat)
    requires Serves(busy, workers, live, past, now) && k < |live|
    ensures Serves(busy, workers, live[k := NO_TASK], past + [live[k]], now)
  {
    hide Overlap, Length, BusyAfter, Total;
    forall t: real
      ensures Overlap(live[k := NO_TASK], t) + Overlap(past + [live[k]], t) == Overlap(live, t) + Overlap(past, t)
    {
      OverlapUpdate(live, k, NO_TASK, t);
      OverlapSnoc(past, live[k], t);
    }
    OverlapUpdate(live, k, NO_TASK, now);
    OverlapSnoc(past, live[k], now);
  }

  lemma LaterServes(busy: Pool, workers: nat, live: seq<Span>, past: seq<Span>, now: real, later: real)
    requires Serves(busy, workers, live, past, now) && now <= later
    ensures Serves(busy, workers, live, past, later)
  {}

  /** Later, one task has begun, or ended, or all is as it was. */
  lemma StillServes(busy: Pool, workers: nat, live: seq<Span>, past: seq<Span>, now: real, later: real, k: nat,
                    begins: bool, ends: bool, duration: real, busy': Pool, task: Span, past': seq<Span>)
    requires Serves(busy, workers, live, past, now) && 0.0 <= now <= later && workers >= 1 && k < |live|
    requires begins ==> live[k] == NO_TASK && duration > 0.0 && !ends
    requires task == if begins then var start := StartTime(busy, workers, later); Span(start, start + duration)
                     else if ends then NO_TASK else live[k]
    requires busy' == if begins then Acquired(busy, workers, later, duration) else busy
    requires past' == if ends then past + [live[k]] else past
    ensures Serves(busy', workers, live[k := task], past', later)
  {
    hide Serves, Acquired, StartTime;
    LaterServes(busy, workers, live, past, now, later);
    if begins {
      AcquiredServes(busy, workers, live, past, later, duration, k);
    } else if ends {
      EndedServes(busy, workers, live, past, later, k);
    } else {
      assert live[k := live[k]] == live;
    }
  }

  lemma StartAwaits(busy: Pool, workers: nat, now: real, duration: real)
    requires workers >= 1 && duration > 0.0 && |busy| <= workers
    ensures var busy' := Acquired(busy, workers, now, duration);
      Awaits(busy', workers, StartTime(busy, workers, now), now)
  {
    var start := StartTime(busy, workers, now);
    forall t: real | now <= t < start ensures BusyAfter(Acquired(busy, workers, now, duration), t) == workers {
      StartIsEarliest(busy, workers, now, t);
      AcquiredBusy(busy, workers, now, duration, t);
    }
  }

  lemma AcquiredAwaits(busy: Pool, workers: nat, now: real, duration: real, other: real)
    requires workers >= 1 && duration > 0.0 && |busy| <= workers && Awaits(busy, workers, other, now)
    ensures Awaits(Acquired(busy, workers, now, duration), workers, other, now)
  {
    var busy' := Acquired(busy, workers, now, duration);
    forall t: real | now <= t < other ensures BusyAfter(busy', t) == workers {
      AcquiredBusy(busy, workers, now, duration, t);
    }
  }

  /** The tasks that hold a worker at time `t`. */
  ghost function Holders(live: seq<Span>, t: real): set<int> { set l | 0 <= l < |live| && Covers(live[l], t) }

  lemma {:induction false} HoldersCounted(live: seq<Span>, t: real)
    ensures |Holders(live, t)| == Overlap(live, t)
    decreases |live|
  {
    if live != [] {
      var n := |live| - 1;
      assert live == live[..n] + [live[n]];
      OverlapSnoc(live[..n], live[n], t);
      HoldersCounted(live[..n], t);
      HoldersSnoc(live, t);
    } else {
      forall l: int ensures l !in Holders(live, t) {}
      assert |Holders(live, t)| == 0;
    }
  }

  lemma HoldersSnoc(live: seq<Span>, t: real)
    requires live != []
    ensures var n := |live| - 1;
      Holders(live, t) == Holders(live[..n], t) + (if Covers(live[n], t) then {n} else {}) &&
        n !in Holders(live[..n], t)
  {
    hide Covers;
  }

  lemma {:induction false} NoLength(tasks: seq<Span>)
    requires forall i :: 0 <= i < |tasks| ==> tasks[i] == NO_TASK
    ensures Length(tasks) == 0.0
  {
    if tasks != [] {
      assert forall i :: 0 <= i < |tasks| - 1 ==> tasks[1..][i] == tasks[i + 1];
      NoLength(tasks[1..]);
    }
  }

  /** Once every task has ended no worker is busy any more. */
  lemma AllEnded(busy: Pool, workers: nat, live: seq<Span>, past: seq<Span>, now: real)
    requires Serves(busy, workers, live, past, now)
    requires forall i :: 0 <= i < |live| ==> live[i] == NO_TASK
    requires forall i :: 0 <= i < |past| ==> past[i].end <= now
    requires now >= 0.0
    ensures BusyAfter(busy, now) == 0 && Length(past) <= Total(busy) && |busy| <= workers
  {
    hide Overlap, Length, Total, BusyAfter;
    OverlapNone(past, now);
    OverlapNone(live, now);
    NoLength(live);
  }

  /** The workers' time covers all the tasks they have served. */
  lemma WorkFits(busy: Pool, workers: nat, live: seq<Span>, past: seq<Span>, now: real)
    requires Serves(busy, workers, live, past, now) && now >= 0.0
    requires forall i :: 0 <= i < |live| ==> live[i] == NO_TASK
    requires forall i :: 0 <= i < |past| ==> past[i].end <= now
    ensures Length(past) <= workers as real * now
  {
    hide Overlap, Length, Total, BusyAfter, Serves;
    AllEnded(busy, workers, live, past, now);
    TotalBelow(busy, now);
    ProductGrows(|busy|, workers, now);
  }

  /** The workers' time up to `wall` is enough for `n` tasks of length `d`. */
  predicate Affords(workers: nat, wall: real, n: nat, d: real) { workers as real * wall >= n as real * d }

  lemma UniformFits(busy: Pool, workers: nat, live: seq<Span>, past: seq<Span>, now: real, d: real)
    requires Serves(busy, workers, live, past, now) && now >= 0.0
    requires forall i :: 0 <= i < |live| ==> live[i] == NO_TASK
    requires forall i :: 0 <= i < |past| ==> past[i].end == past[i].start + d && past[i].end <= now
    ensures Affords(workers, now, |past|, d)
  {
    hide Length, Serves;
    LengthUniform(past, d);
    WorkFits(busy, workers, live, past, now);
  }

  lemma ProductGrows(a: nat, b: nat, t: real)
    requires a <= b && t >= 0.0
    ensures a as real * t <= b as real * t
  {}
}
