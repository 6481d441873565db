/** A run in which two uploads are under way at once although there is one upload worker: the pool
    reserves the latency of the moment an upload is submitted, and the upload takes the latency of
    the moment it starts. */
module PipelineOverrun {
  import opened Arithmetic
  import opened WorkerPools
  import opened PipelineModel
  import opened PipelineTiming

  const SAMPLE := Config(3, 2, 2, 1, 100.0, 1.0, [3.0, 4.5, 9.0, 9.0], 0.0, 1, false, 0)

  // ---------------------------------------------------------------- the turns of the sample

  /** A state of the sample with these events pending; `end` is 0 before its first compute. */
  function Moment(now: real, pending: seq<Event>, ssdBusy: Pool, uploadBusy: Pool, end: real,
               a: Stage, b: Stage, c: Stage): Sim
  {
    Sim(now, multiset(pending), ssdBusy, uploadBusy, end, 0.0, if end > 0.0 then 100.0 else 0.0, 0, 0, [], [a, b, c],
        if end > 0.0 then end - 100.0 else 0.0, {})
  }

  /** Event `k` of the list is the earliest; taking it off and adding `added` leaves `pending'`. */
  ghost predicate Takes(pending: seq<Event>, k: nat, added: seq<Event>, pending': seq<Event>) {
    && k < |pending| && pending[k].kind != SimulationEnd && 0 <= pending[k].layer < 3
    && (forall j :: 0 <= j < |pending| ==> pending[k].time <= pending[j].time)
    && pending' == pending[..k] + pending[k + 1..] + added
  }

  lemma Taken(s: Sim, pending: seq<Event>, k: nat, added: seq<Event>, pending': seq<Event>)
    requires s.events == multiset(pending) && Takes(pending, k, added, pending') && s.now <= pending[k].time
    ensures Runnable(SAMPLE) && Earliest(pending[k], s.events)
    ensures Popped(s, pending[k]) == s.(now := pending[k].time, events := Popped(s, pending[k]).events)
    ensures Popped(s, pending[k]).events + multiset(added) == multiset(pending')
    ensures |added| <= 2 ==> multiset(added) == Few(added)
  {
    assert pending == pending[..k] + [pending[k]] + pending[k + 1..];
    assert multiset(pending') == multiset(pending[..k]) + multiset(pending[k + 1..]) + multiset(added);
    FewAre(added);
  }

  lemma FewAre(added: seq<Event>)
    ensures |added| <= 2 ==> multiset(added) == Few(added)
  {
    if |added| == 1 { assert added == [added[0]]; }
    if |added| == 2 { assert added == [added[0], added[1]]; }
  }

  function Few(added: seq<Event>): multiset<Event>
    requires |added| <= 2
  {
    if |added| == 0 then multiset{} else if |added| == 1 then multiset{added[0]} else multiset{added[0], added[1]}
  }

  /** Each kind of event is dispatched to its handler. */
  lemma Dispatched(s: Sim, e: Event, ms: real)
    requires Sampled(s) && 0 <= e.layer < 3
    ensures Runnable(SAMPLE) && CanHandle(SAMPLE, s, e)
    ensures var r, p, l := Handle(SAMPLE, s, e, ms), Popped(s, e), e.layer;
      && p.stages == s.stages && p.current == s.current
      && (e.kind == PrefetchSubmit ==> r == OnPrefetchSubmit(SAMPLE, p, l))
      && (e.kind == ReadStart ==> r == OnReadStart(SAMPLE, p, l))
      && (e.kind == ReadEnd ==> r == OnReadEnd(SAMPLE, p, l))
      && (e.kind == UploadSubmit ==> r == OnUploadSubmit(SAMPLE, p, l, ms))
      && (e.kind == UploadStart ==> r == OnUploadStart(SAMPLE, p, l, ms))
      && (e.kind == UploadEnd ==> r == OnUploadEnd(SAMPLE, p, l))
  {
    hide OnPrefetchSubmit, OnReadStart, OnReadEnd, OnUploadSubmit, OnUploadStart, OnUploadEnd, OnComputeEnd;
    hide OnResidentApply, OnResidentApplyEnd;
  }

  lemma OneWorker(b: real, now: real, d: real)
    ensures StartTime([], 1, now) == now && Acquired([], 1, now, d) == [now + d]
    ensures StartTime([b], 1, now) == MaxReal(now, b) && Acquired([b], 1, now, d) == [MaxReal(now, b) + d]
  {
    assert [b][1..] == [];
  }

  lemma {:induction false} NothingIdle(cfg: Config, s: Sim, lo: nat, hi: nat)
    requires |s.stages| == cfg.layers && forall l :: 0 <= l < cfg.layers ==> s.stages[l].tag != Idle
    ensures SubmitRange(cfg, s, lo, hi) == s
    decreases hi
  {
    if hi > lo { NothingIdle(cfg, s, lo, hi - 1); }
  }

  lemma NothingLoaded(s: Sim)
    requires |s.stages| == 3 && forall l :: 0 <= l < 3 ==> !OnDevice(s.stages[l].tag)
    ensures Runnable(SAMPLE) && LatencyNow(SAMPLE, s) == 3.0
  {
    assert Loaded(SAMPLE, s) == {};
  }

  lemma FirstLoaded(s: Sim)
    requires |s.stages| == 3 && OnDevice(s.stages[0].tag) && !OnDevice(s.stages[1].tag) && !OnDevice(s.stages[2].tag)
    ensures Runnable(SAMPLE) && LatencyNow(SAMPLE, s) == 4.5
  {
    assert Loaded(SAMPLE, s) == {0};
  }

  predicate Sampled(s: Sim) { |s.stages| == 3 && s.current == 0 && s.token == 0 }

  lemma OnRead(p: Sim, l: nat, b: real)
    requires Sampled(p) && l < 3 && p.stages[l].tag == Submitted
    ensures p.ssdBusy == [] ==>
      OnPrefetchSubmit(SAMPLE, p, l) ==
      p.(events := p.events + multiset{Event(p.now + 1.0, ReadEnd, l), Event(p.now, ReadStart, l)},
         ssdBusy := [p.now + 1.0], stages := p.stages[l := At(Reading, p.now + 1.0)])
    ensures p.ssdBusy == [b] && b >= p.now ==>
      OnPrefetchSubmit(SAMPLE, p, l) ==
      p.(events := p.events + multiset{Event(b, ReadStart, l)},
         ssdBusy := [b + 1.0], stages := p.stages[l := At(QueuedRead, b)])
  {
    OneWorker(b, p.now, 1.0);
    hide StartTime, Acquired;
  }

  lemma OnUpload(p: Sim, l: nat, b: real, ms: real)
    requires Sampled(p) && l < 3 && p.stages[l].tag == ReadDone
    ensures p.uploadBusy == [] ==>
      OnUploadSubmit(SAMPLE, p, l, ms) ==
      p.(events := p.events + multiset{Event(p.now + ms, UploadEnd, l), Event(p.now, UploadStart, l)},
         uploadBusy := [p.now + ms], stages := p.stages[l := At(Uploading, p.now + ms)])
    ensures p.uploadBusy == [b] && b >= p.now ==>
      OnUploadSubmit(SAMPLE, p, l, ms) ==
      p.(events := p.events + multiset{Event(b, UploadStart, l)},
         uploadBusy := [b + ms], stages := p.stages[l := At(QueuedUpload, b)])
  {
    OneWorker(b, p.now, ms);
    hide StartTime, Acquired;
  }

  lemma OnUploaded(p: Sim)
    requires Sampled(p) && p.stages[0].tag == Uploading && p.log == [] && p.gpuBusyUntil == p.gpuIdle == 0.0 <= p.now
    ensures OnUploadEnd(SAMPLE, p, 0) ==
      p.(events := p.events + multiset{Event(p.now + 100.0, ComputeEnd, 0)}, gpuBusyUntil := p.now + 100.0,
         gpuBusy := p.gpuBusy + 100.0, firstStart := p.now, stages := p.stages[0 := At(Computing, p.now + 100.0)])
  {
    var q := p.(stages := p.stages[0 := At(Ready, p.now)]);
    assert q.stages[0 := At(Computing, p.now + 100.0)] == p.stages[0 := At(Computing, p.now + 100.0)];
  }

  lemma ReadBegins(s: Sim, pending: seq<Event>, k: nat, l: nat, pending': seq<Event>, r: Sim)
    requires Sampled(s) && s.events == multiset(pending) && l < 3 && k < |pending|
    requires pending[k] == Event(pending[k].time, PrefetchSubmit, l) && pending[k].time >= s.now
    requires s.stages[l].tag == Submitted && s.ssdBusy == []
    requires Takes(pending, k, [Event(pending[k].time + 1.0, ReadEnd, l), Event(pending[k].time, ReadStart, l)],
      pending')
    requires r == s.(now := pending[k].time, events := multiset(pending'),
              ssdBusy := [pending[k].time + 1.0], stages := s.stages[l := At(Reading, pending[k].time + 1.0)])
    ensures Turn(SAMPLE, s, pending[k], r)
  {
    hide Handle, CanHandle, Earliest, Takes, LatencyNow, Popped, Runnable, SubmitRange, OnPrefetchSubmit;
    Taken(s, pending, k, [Event(pending[k].time + 1.0, ReadEnd, l), Event(pending[k].time, ReadStart, l)], pending');
    Dispatched(s, pending[k], LatencyNow(SAMPLE, s));
    OnRead(Popped(s, pending[k]), l, 0.0);
  }

  lemma ReadQueues(s: Sim, pending: seq<Event>, k: nat, l: nat, start: real, pending': seq<Event>, r: Sim)
    requires Sampled(s) && s.events == multiset(pending) && l < 3 && k < |pending|
    requires pending[k] == Event(pending[k].time, PrefetchSubmit, l) && pending[k].time >= s.now
    requires s.stages[l].tag == Submitted && s.ssdBusy == [start] && start >= pending[k].time
    requires Takes(pending, k, [Event(start, ReadStart, l)], pending')
    requires r == s.(now := pending[k].time, events := multiset(pending'),
              ssdBusy := [start + 1.0], stages := s.stages[l := At(QueuedRead, start)])
    ensures Turn(SAMPLE, s, pending[k], r)
  {
    hide Handle, CanHandle, Earliest, Takes, LatencyNow, Popped, Runnable, SubmitRange, OnPrefetchSubmit;
    Taken(s, pending, k, [Event(start, ReadStart, l)], pending');
    Dispatched(s, pending[k], LatencyNow(SAMPLE, s));
    OnRead(Popped(s, pending[k]), l, start);
  }

  lemma ReadStarts(s: Sim, pending: seq<Event>, k: nat, l: nat, pending': seq<Event>, r: Sim)
    requires Sampled(s) && s.events == multiset(pending) && l < 3 && k < |pending|
    requires pending[k] == Event(pending[k].time, ReadStart, l) && pending[k].time >= s.now
    requires s.stages[l].tag == QueuedRead
    requires Takes(pending, k, [Event(pending[k].time + 1.0, ReadEnd, l)], pending')
    requires r == s.(now := pending[k].time, events := multiset(pending'),
              stages := s.stages[l := At(Reading, pending[k].time + 1.0)])
    ensures Turn(SAMPLE, s, pending[k], r)
  {
    hide Handle, CanHandle, Earliest, Takes, LatencyNow, Popped, Runnable, SubmitRange;
    Taken(s, pending, k, [Event(pending[k].time + 1.0, ReadEnd, l)], pending');
    Dispatched(s, pending[k], LatencyNow(SAMPLE, s));
  }

  lemma ReadStale(s: Sim, pending: seq<Event>, k: nat, l: nat, pending': seq<Event>, r: Sim)
    requires Sampled(s) && s.events == multiset(pending) && l < 3 && k < |pending|
    requires pending[k] == Event(pending[k].time, ReadStart, l) && pending[k].time >= s.now
    requires s.stages[l].tag != QueuedRead
    requires Takes(pending, k, [], pending')
    requires r == s.(now := pending[k].time, events := multiset(pending'))
    ensures Turn(SAMPLE, s, pending[k], r)
  {
    hide Handle, CanHandle, Earliest, Takes, LatencyNow, Popped, Runnable, SubmitRange;
    Taken(s, pending, k, [], pending');
    Dispatched(s, pending[k], LatencyNow(SAMPLE, s));
  }

  lemma UploadStale(s: Sim, pending: seq<Event>, k: nat, l: nat, pending': seq<Event>, r: Sim)
    requires Sampled(s) && s.events == multiset(pending) && l < 3 && k < |pending|
    requires pending[k] == Event(pending[k].time, UploadStart, l) && pending[k].time >= s.now
    requires s.stages[l].tag != QueuedUpload
    requires Takes(pending, k, [], pending')
    requires r == s.(now := pending[k].time, events := multiset(pending'))
    ensures Turn(SAMPLE, s, pending[k], r)
  {
    hide Handle, CanHandle, Earliest, Takes, LatencyNow, Popped, Runnable, SubmitRange;
    Taken(s, pending, k, [], pending');
    Dispatched(s, pending[k], LatencyNow(SAMPLE, s));
  }

  lemma ReadEnds(s: Sim, pending: seq<Event>, k: nat, l: nat, pending': seq<Event>, r: Sim)
    requires Sampled(s) && s.events == multiset(pending) && l < 3 && k < |pending|
    requires pending[k] == Event(pending[k].time, ReadEnd, l) && pending[k].time >= s.now
    requires s.stages[l].tag == Reading && forall j :: 0 <= j < 3 ==> s.stages[j].tag != Idle
    requires Takes(pending, k, [Event(pending[k].time, UploadSubmit, l)], pending')
    requires r == s.(now := pending[k].time, events := multiset(pending'),
              stages := s.stages[l := At(ReadDone, pending[k].time)])
    ensures Turn(SAMPLE, s, pending[k], r)
  {
    hide Handle, CanHandle, Earliest, Takes, LatencyNow, Popped, Runnable, SubmitRange;
    var now := pending[k].time;
    Taken(s, pending, k, [Event(pending[k].time, UploadSubmit, l)], pending');
    Dispatched(s, pending[k], LatencyNow(SAMPLE, s));
    var p := Popped(s, pending[k]);
    NothingIdle(SAMPLE, p.(events := p.events + multiset{Event(now, UploadSubmit, l)},
                           stages := s.stages[l := At(ReadDone, now)]), l + 1, AheadEnd(SAMPLE, l));
  }

  lemma UploadBegins(s: Sim, pending: seq<Event>, k: nat, l: nat, ms: real, pending': seq<Event>, r: Sim)
    requires Sampled(s) && s.events == multiset(pending) && l < 3 && k < |pending|
    requires pending[k] == Event(pending[k].time, UploadSubmit, l) && pending[k].time >= s.now
    requires s.stages[l].tag == ReadDone && s.uploadBusy == [] && Runnable(SAMPLE) && LatencyNow(SAMPLE, s) == ms
    requires Takes(pending, k, [Event(pending[k].time + ms, UploadEnd, l), Event(pending[k].time, UploadStart, l)],
      pending')
    requires r == s.(now := pending[k].time, events := multiset(pending'),
              uploadBusy := [pending[k].time + ms], stages := s.stages[l := At(Uploading, pending[k].time + ms)])
    ensures Turn(SAMPLE, s, pending[k], r)
  {
    hide Handle, CanHandle, Earliest, Takes, LatencyNow, Popped, Runnable, SubmitRange, OnUploadSubmit;
    Taken(s, pending, k, [Event(pending[k].time + ms, UploadEnd, l), Event(pending[k].time, UploadStart, l)], pending');
    Dispatched(s, pending[k], LatencyNow(SAMPLE, s));
    OnUpload(Popped(s, pending[k]), l, 0.0, ms);
  }

  lemma UploadQueues(s: Sim, pending: seq<Event>, k: nat, l: nat, start: real, ms: real, pending': seq<Event>, r: Sim)
    requires Sampled(s) && s.events == multiset(pending) && l < 3 && k < |pending|
    requires pending[k] == Event(pending[k].time, UploadSubmit, l) && pending[k].time >= s.now
    requires s.stages[l].tag == ReadDone && s.uploadBusy == [start] && start >= pending[k].time
    requires Runnable(SAMPLE) && LatencyNow(SAMPLE, s) == ms
    requires Takes(pending, k, [Event(start, UploadStart, l)], pending')
    requires r == s.(now := pending[k].time, events := multiset(pending'),
              uploadBusy := [start + ms], stages := s.stages[l := At(QueuedUpload, start)])
    ensures Turn(SAMPLE, s, pending[k], r)
  {
    hide Handle, CanHandle, Earliest, Takes, LatencyNow, Popped, Runnable, SubmitRange, OnUploadSubmit;
    Taken(s, pending, k, [Event(start, UploadStart, l)], pending');
    Dispatched(s, pending[k], LatencyNow(SAMPLE, s));
    OnUpload(Popped(s, pending[k]), l, start, ms);
  }

  lemma UploadStarts(s: Sim, pending: seq<Event>, k: nat, l: nat, ms: real, pending': seq<Event>, r: Sim)
    requires Sampled(s) && s.events == multiset(pending) && l < 3 && k < |pending|
    requires pending[k] == Event(pending[k].time, UploadStart, l) && pending[k].time >= s.now
    requires s.stages[l].tag == QueuedUpload && Runnable(SAMPLE) && LatencyNow(SAMPLE, s) == ms
    requires Takes(pending, k, [Event(pending[k].time + ms, UploadEnd, l)], pending')
    requires r == s.(now := pending[k].time, events := multiset(pending'),
              stages := s.stages[l := At(Uploading, pending[k].time + ms)])
    ensures Turn(SAMPLE, s, pending[k], r)
  {
    hide Handle, CanHandle, Earliest, Takes, LatencyNow, Popped, Runnable, SubmitRange;
    Taken(s, pending, k, [Event(pending[k].time + ms, UploadEnd, l)], pending');
    Dispatched(s, pending[k], LatencyNow(SAMPLE, s));
  }

  lemma UploadEnds(s: Sim, pending: seq<Event>, k: nat, l: nat, pending': seq<Event>, r: Sim)
    requires Sampled(s) && s.events == multiset(pending) && l < 3 && k < |pending|
    requires pending[k] == Event(pending[k].time, UploadEnd, l) && pending[k].time >= s.now
    requires l == 0 && s.stages[l].tag == Uploading && s.gpuBusyUntil == s.gpuIdle == 0.0 <= s.now && s.log == []
    requires Takes(pending, k, [Event(pending[k].time + 100.0, ComputeEnd, l)], pending')
    requires r == s.(now := pending[k].time, events := multiset(pending'),
              gpuBusyUntil := pending[k].time + 100.0, gpuBusy := s.gpuBusy + 100.0, firstStart := pending[k].time,
              stages := s.stages[l := At(Computing, pending[k].time + 100.0)])
    ensures Turn(SAMPLE, s, pending[k], r)
  {
    hide Handle, CanHandle, Earliest, Takes, LatencyNow, Popped, Runnable, SubmitRange, OnUploadEnd;
    Taken(s, pending, k, [Event(pending[k].time + 100.0, ComputeEnd, l)], pending');
    Dispatched(s, pending[k], LatencyNow(SAMPLE, s));
    OnUploaded(Popped(s, pending[k]));
  }

  // The pending events and the states of the run, in turn.

  function P0(): seq<Event> {
    [Event(0.0, PrefetchSubmit, 0), Event(0.0, PrefetchSubmit, 1), Event(0.0, PrefetchSubmit, 2)]
  }
  function S0(): Sim { Moment(0.0, P0(), [], [], 0.0, At(Submitted, 0.0), At(Submitted, 0.0), At(Submitted, 0.0)) }

  function P1(): seq<Event> {
    [Event(0.0, PrefetchSubmit, 1), Event(0.0, PrefetchSubmit, 2), Event(1.0, ReadEnd, 0), Event(0.0, ReadStart, 0)]
  }
  function S1(): Sim { Moment(0.0, P1(), [1.0], [], 0.0, At(Reading, 1.0), At(Submitted, 0.0), At(Submitted, 0.0)) }

  function P2(): seq<Event> {
    [Event(0.0, PrefetchSubmit, 2), Event(1.0, ReadEnd, 0), Event(0.0, ReadStart, 0), Event(1.0, ReadStart, 1)]
  }
  function S2(): Sim { Moment(0.0, P2(), [2.0], [], 0.0, At(Reading, 1.0), At(QueuedRead, 1.0), At(Submitted, 0.0)) }

  function P3(): seq<Event> {
    [Event(1.0, ReadEnd, 0), Event(0.0, ReadStart, 0), Event(1.0, ReadStart, 1), Event(2.0, ReadStart, 2)]
  }
  function S3(): Sim { Moment(0.0, P3(), [3.0], [], 0.0, At(Reading, 1.0), At(QueuedRead, 1.0), At(QueuedRead, 2.0)) }

  function P4(): seq<Event> { [Event(1.0, ReadEnd, 0), Event(1.0, ReadStart, 1), Event(2.0, ReadStart, 2)] }
  function S4(): Sim { Moment(0.0, P4(), [3.0], [], 0.0, At(Reading, 1.0), At(QueuedRead, 1.0), At(QueuedRead, 2.0)) }

  function P5(): seq<Event> { [Event(1.0, ReadStart, 1), Event(2.0, ReadStart, 2), Event(1.0, UploadSubmit, 0)] }
  function S5(): Sim { Moment(1.0, P5(), [3.0], [], 0.0, At(ReadDone, 1.0), At(QueuedRead, 1.0), At(QueuedRead, 2.0)) }

  function P6(): seq<Event> { [Event(2.0, ReadStart, 2), Event(1.0, UploadSubmit, 0), Event(2.0, ReadEnd, 1)] }
  function S6(): Sim { Moment(1.0, P6(), [3.0], [], 0.0, At(ReadDone, 1.0), At(Reading, 2.0), At(QueuedRead, 2.0)) }

  function P7(): seq<Event> {
    [Event(2.0, ReadStart, 2), Event(2.0, ReadEnd, 1), Event(4.0, UploadEnd, 0), Event(1.0, UploadStart, 0)]
  }
  function S7(): Sim { Moment(1.0, P7(), [3.0], [4.0], 0.0, At(Uploading, 4.0), At(Reading, 2.0), At(QueuedRead, 2.0)) }

  function P8(): seq<Event> { [Event(2.0, ReadStart, 2), Event(2.0, ReadEnd, 1), Event(4.0, UploadEnd, 0)] }
  function S8(): Sim { Moment(1.0, P8(), [3.0], [4.0], 0.0, At(Uploading, 4.0), At(Reading, 2.0), At(QueuedRead, 2.0)) }

  function P9(): seq<Event> { [Event(2.0, ReadStart, 2), Event(4.0, UploadEnd, 0), Event(2.0, UploadSubmit, 1)] }
  function S9(): Sim {
    Moment(2.0, P9(), [3.0], [4.0], 0.0, At(Uploading, 4.0), At(ReadDone, 2.0), At(QueuedRead, 2.0))
  }

  function P10(): seq<Event> { [Event(4.0, UploadEnd, 0), Event(2.0, UploadSubmit, 1), Event(3.0, ReadEnd, 2)] }
  function S10(): Sim { Moment(2.0, P10(), [3.0], [4.0], 0.0, At(Uploading, 4.0), At(ReadDone, 2.0), At(Reading, 3.0)) }

  function P11(): seq<Event> { [Event(4.0, UploadEnd, 0), Event(3.0, ReadEnd, 2), Event(4.0, UploadStart, 1)] }
  function S11(): Sim {
    Moment(2.0, P11(), [3.0], [7.0], 0.0, At(Uploading, 4.0), At(QueuedUpload, 4.0), At(Reading, 3.0))
  }

  function P12(): seq<Event> { [Event(4.0, UploadEnd, 0), Event(4.0, UploadStart, 1), Event(3.0, UploadSubmit, 2)] }
  function S12(): Sim {
    Moment(3.0, P12(), [3.0], [7.0], 0.0, At(Uploading, 4.0), At(QueuedUpload, 4.0), At(ReadDone, 3.0))
  }

  function P13(): seq<Event> { [Event(4.0, UploadEnd, 0), Event(4.0, UploadStart, 1), Event(7.0, UploadStart, 2)] }
  function S13(): Sim {
    Moment(3.0, P13(), [3.0], [10.0], 0.0, At(Uploading, 4.0), At(QueuedUpload, 4.0), At(QueuedUpload, 7.0))
  }

  function P14(): seq<Event> { [Event(4.0, UploadStart, 1), Event(7.0, UploadStart, 2), Event(104.0, ComputeEnd, 0)] }
  function S14(): Sim {
    Moment(4.0, P14(), [3.0], [10.0], 104.0, At(Computing, 104.0), At(QueuedUpload, 4.0), At(QueuedUpload, 7.0))
  }

  function P15(): seq<Event> { [Event(7.0, UploadStart, 2), Event(104.0, ComputeEnd, 0), Event(8.5, UploadEnd, 1)] }
  function S15(): Sim {
    Moment(4.0, P15(), [3.0], [10.0], 104.0, At(Computing, 104.0), At(Uploading, 8.5), At(QueuedUpload, 7.0))
  }

  function P16(): seq<Event> { [Event(104.0, ComputeEnd, 0), Event(8.5, UploadEnd, 1), Event(11.5, UploadEnd, 2)] }
  function S16(): Sim {
    Moment(7.0, P16(), [3.0], [10.0], 104.0, At(Computing, 104.0), At(Uploading, 8.5), At(Uploading, 11.5))
  }

  // ---------------------------------------------------------------- the run

  lemma Turn0()
    ensures Turn(SAMPLE, S0(), Event(0.0, PrefetchSubmit, 0), S1())
  {
    hide Turn, Run, Handle;
    NothingLoaded(S0());
    ReadBegins(S0(), P0(), 0, 0, P1(), S1());
  }

  lemma Turn1()
    ensures Turn(SAMPLE, S1(), Event(0.0, PrefetchSubmit, 1), S2())
  {
    hide Turn, Run, Handle;
    NothingLoaded(S1());
    ReadQueues(S1(), P1(), 0, 1, 1.0, P2(), S2());
  }

  lemma Turn2()
    ensures Turn(SAMPLE, S2(), Event(0.0, PrefetchSubmit, 2), S3())
  {
    hide Turn, Run, Handle;
    NothingLoaded(S2());
    ReadQueues(S2(), P2(), 0, 2, 2.0, P3(), S3());
  }

  lemma Turn3()
    ensures Turn(SAMPLE, S3(), Event(0.0, ReadStart, 0), S4())
  {
    hide Turn, Run, Handle;
    NothingLoaded(S3());
    ReadStale(S3(), P3(), 1, 0, P4(), S4());
  }

  lemma Turn4()
    ensures Turn(SAMPLE, S4(), Event(1.0, ReadEnd, 0), S5())
  {
    hide Turn, Run, Handle;
    NothingLoaded(S4());
    ReadEnds(S4(), P4(), 0, 0, P5(), S5());
  }

  lemma Turn5()
    ensures Turn(SAMPLE, S5(), Event(1.0, ReadStart, 1), S6())
  {
    hide Turn, Run, Handle;
    NothingLoaded(S5());
    ReadStarts(S5(), P5(), 0, 1, P6(), S6());
  }

  lemma Turn6()
    ensures Turn(SAMPLE, S6(), Event(1.0, UploadSubmit, 0), S7())
  {
    hide Turn, Run, Handle;
    NothingLoaded(S6());
    UploadBegins(S6(), P6(), 1, 0, 3.0, P7(), S7());
  }

  lemma Turn7()
    ensures Turn(SAMPLE, S7(), Event(1.0, UploadStart, 0), S8())
  {
    hide Turn, Run, Handle;
    NothingLoaded(S7());
    UploadStale(S7(), P7(), 3, 0, P8(), S8());
  }

  lemma Turn8()
    ensures Turn(SAMPLE, S8(), Event(2.0, ReadEnd, 1), S9())
  {
    hide Turn, Run, Handle;
    NothingLoaded(S8());
    ReadEnds(S8(), P8(), 1, 1, P9(), S9());
  }

  lemma Turn9()
    ensures Turn(SAMPLE, S9(), Event(2.0, ReadStart, 2), S10())
  {
    hide Turn, Run, Handle;
    NothingLoaded(S9());
    ReadStarts(S9(), P9(), 0, 2, P10(), S10());
  }

  lemma Turn10()
    ensures Turn(SAMPLE, S10(), Event(2.0, UploadSubmit, 1), S11())
  {
    hide Turn, Run, Handle;
    NothingLoaded(S10());
    UploadQueues(S10(), P10(), 1, 1, 4.0, 3.0, P11(), S11());
  }

  lemma Turn11()
    ensures Turn(SAMPLE, S11(), Event(3.0, ReadEnd, 2), S12())
  {
    hide Turn, Run, Handle;
    NothingLoaded(S11());
    ReadEnds(S11(), P11(), 1, 2, P12(), S12());
  }

  lemma Turn12()
    ensures Turn(SAMPLE, S12(), Event(3.0, UploadSubmit, 2), S13())
  {
    hide Turn, Run, Handle;
    NothingLoaded(S12());
    UploadQueues(S12(), P12(), 2, 2, 7.0, 3.0, P13(), S13());
  }

  lemma Turn13()
    ensures Turn(SAMPLE, S13(), Event(4.0, UploadEnd, 0), S14())
  {
    hide Turn, Run, Handle;
    NothingLoaded(S13());
    UploadEnds(S13(), P13(), 0, 0, P14(), S14());
  }

  lemma Turn14()
    ensures Turn(SAMPLE, S14(), Event(4.0, UploadStart, 1), S15())
  {
    hide Turn, Run, Handle;
    FirstLoaded(S14());
    UploadStarts(S14(), P14(), 0, 1, 4.5, P15(), S15());
  }

  lemma Turn15()
    ensures Turn(SAMPLE, S15(), Event(7.0, UploadStart, 2), S16())
  {
    hide Turn, Run, Handle;
    FirstLoaded(S15());
    UploadStarts(S15(), P15(), 0, 2, 4.5, P16(), S16());
  }

  lemma Start()
    ensures StartToken(SAMPLE, Initial(SAMPLE)) == S0()
  {
    var s := Initial(SAMPLE);
    var s1 := Submit(SAMPLE, s, 0);
    var s2 := Submit(SAMPLE, s1, 1);
    assert SubmitRange(SAMPLE, s, 0, 0) == s;
    assert SubmitRange(SAMPLE, s, 0, 1) == s1;
    assert SubmitRange(SAMPLE, s, 0, 2) == s2;
    assert SubmitRange(SAMPLE, s, 0, 3) == Submit(SAMPLE, s2, 2);
    assert s.stages == [AT_REST, AT_REST, AT_REST];
    assert s1.stages == [At(Submitted, 0.0), AT_REST, AT_REST];
    assert s2.stages == [At(Submitted, 0.0), At(Submitted, 0.0), AT_REST];
  }

  lemma StartReached(cfg: Config, s: Sim)
    requires Runnable(cfg) && s == StartToken(cfg, Initial(cfg))
    ensures Reached(cfg, s)
  {
    var states: seq<Sim>, events: seq<Event> := [s], [];
    assert Run(cfg, states, events) && states[|events|] == s;
  }

  lemma Reach4()
    ensures Reached(SAMPLE, S4())
  {
    hide Turn, Reached, Moment;
    Start();
    StartReached(SAMPLE, S0());
    Turn0();
    ReachedTurn(SAMPLE, S0(), Event(0.0, PrefetchSubmit, 0), S1());
    Turn1();
    ReachedTurn(SAMPLE, S1(), Event(0.0, PrefetchSubmit, 1), S2());
    Turn2();
    ReachedTurn(SAMPLE, S2(), Event(0.0, PrefetchSubmit, 2), S3());
    Turn3();
    ReachedTurn(SAMPLE, S3(), Event(0.0, ReadStart, 0), S4());
  }

  lemma Reach8()
    ensures Reached(SAMPLE, S8())
  {
    hide Turn, Reached, Moment;
    Reach4();
    Turn4();
    ReachedTurn(SAMPLE, S4(), Event(1.0, ReadEnd, 0), S5());
    Turn5();
    ReachedTurn(SAMPLE, S5(), Event(1.0, ReadStart, 1), S6());
    Turn6();
    ReachedTurn(SAMPLE, S6(), Event(1.0, UploadSubmit, 0), S7());
    Turn7();
    ReachedTurn(SAMPLE, S7(), Event(1.0, UploadStart, 0), S8());
  }

  lemma Reach12()
    ensures Reached(SAMPLE, S12())
  {
    hide Turn, Reached, Moment;
    Reach8();
    Turn8();
    ReachedTurn(SAMPLE, S8(), Event(2.0, ReadEnd, 1), S9());
    Turn9();
    ReachedTurn(SAMPLE, S9(), Event(2.0, ReadStart, 2), S10());
    Turn10();
    ReachedTurn(SAMPLE, S10(), Event(2.0, UploadSubmit, 1), S11());
    Turn11();
    ReachedTurn(SAMPLE, S11(), Event(3.0, ReadEnd, 2), S12());
  }

  lemma Reach16()
    ensures Reached(SAMPLE, S16())
  {
    hide Turn, Reached, Moment;
    Reach12();
    Turn12();
    ReachedTurn(SAMPLE, S12(), Event(3.0, UploadSubmit, 2), S13());
    Turn13();
    ReachedTurn(SAMPLE, S13(), Event(4.0, UploadEnd, 0), S14());
    Turn14();
    ReachedTurn(SAMPLE, S14(), Event(4.0, UploadStart, 1), S15());
    Turn15();
    ReachedTurn(SAMPLE, S15(), Event(7.0, UploadStart, 2), S16());
  }

  /** One worker, two uploads under way. */
  lemma UploadsOverlap()
    ensures Reached(SAMPLE, S16()) && SAMPLE.workers == 1 && UploadingNow(S16()) == {1, 2}
  {
    Reach16();
    hide Reached;
  }

  /** The sample's latencies are those of layers that take 70% of the memory. */
  lemma SampleLatencies(pow5: real -> real)
    requires forall x: real :: pow5(x) > 0.0
    ensures EffectiveUpload(3.0, 716.8, 1.0, pow5, 0) == SAMPLE.uploadMs[0]
    ensures EffectiveUpload(3.0, 716.8, 1.0, pow5, 1) == SAMPLE.uploadMs[1]
  {}

  /** While the whole model takes less than 65% of memory every upload takes the same time. */
  lemma NoPressureIsLevel(cfg: Config, upload: real, layerSizeMb: real, ramCapacityGb: real, pow5: real -> real)
    requires cfg.layers >= 1 && cfg.workers >= 1 && cfg.compute > 0.0 && cfg.ssdRead > 0.0
    requires upload > 0.0 && (forall x: real :: pow5(x) > 0.0) && layerSizeMb >= 0.0
    requires Usage(layerSizeMb, ramCapacityGb, cfg.layers) < 0.65
    ensures Level(Pressured(cfg, upload, layerSizeMb, ramCapacityGb, pow5), upload)
  {
    hide Usage;
    forall k | 0 <= k <= cfg.layers ensures EffectiveUpload(upload, layerSizeMb, ramCapacityGb, pow5, k) == upload {
      UsageGrows(layerSizeMb, ramCapacityGb, k, cfg.layers);
    }
  }
}
