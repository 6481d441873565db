/** What a watcher of the simulated pipeline sees over time: how long each stage of a layer
    lasts, how many reads and uploads overlap, and what that makes of the time of a run. */
module PipelineTiming {
  import opened Arithmetic
  import opened WorkerPools
  import opened PipelineModel

  // ---------------------------------------------------------------- the watcher

  /** Read off the stages as they change: when each layer entered its present stage, until when
      its upload has a worker reserved, and the reads and uploads that have ended. `pastBookings`
      holds the reservations of the ended uploads. */
  datatype Watch = Watch(since: seq<real>, booked: seq<real>, pastReads: seq<Span>,
                         pastUploads: seq<Span>, pastBookings: seq<Span>)

  ghost predicate Sized(s: Sim, w: Watch) { |w.since| == |w.booked| == |s.stages| }

  /** The watch after an event of layer `l` took `s` to `r`, at upload latency `ms`. */
  ghost function Watched(w: Watch, s: Sim, r: Sim, l: int, ms: real): (w': Watch)
    requires Sized(s, w) && |r.stages| == |s.stages|
    ensures Sized(r, w')
  {
    var since := seq(|r.stages|, k requires 0 <= k < |r.stages| =>
                       if r.stages[k].tag == s.stages[k].tag then w.since[k] else r.now);
    if !(0 <= l < |s.stages|) then w.(since := since)
    else
      var a, b := s.stages[l].tag, r.stages[l];
      Watch(since,
            if a != ReadDone || b.tag == ReadDone then w.booked
            else w.booked[l := (if b.tag == QueuedUpload then b.due else r.now) + ms],
            if a == Reading && b.tag != Reading then w.pastReads + [Span(w.since[l], r.now)] else w.pastReads,
            if a == Uploading && b.tag != Uploading then w.pastUploads + [Span(w.since[l], r.now)] else w.pastUploads,
            if a == Uploading && b.tag != Uploading then w.pastBookings + [Span(w.since[l], w.booked[l])]
            else w.pastBookings)
  }

  function Unwatched(cfg: Config): Watch {
    Watch(seq(cfg.layers, _ => 0.0), seq(cfg.layers, _ => 0.0), [], [], [])
  }

  /** The time a layer's read holds an SSD worker, from the moment it is submitted. */
  function ReadTask(cfg: Config, s: Stage, since: real): Span {
    if s.tag == QueuedRead then Span(s.due, s.due + cfg.ssdRead)
    else if s.tag == Reading then Span(since, s.due)
    else NO_TASK
  }

  /** The time a layer's upload has a worker reserved. */
  function UploadTask(s: Stage, since: real, booked: real): Span {
    if s.tag == QueuedUpload then Span(s.due, booked)
    else if s.tag == Uploading then Span(since, booked)
    else NO_TASK
  }

  ghost function LiveReads(cfg: Config, s: Sim, w: Watch): (tasks: seq<Span>)
    requires Sized(s, w)
    ensures |tasks| == |s.stages|
  {
    seq(|s.stages|, k requires 0 <= k < |s.stages| => ReadTask(cfg, s.stages[k], w.since[k]))
  }

  ghost function LiveUploads(s: Sim, w: Watch): (tasks: seq<Span>)
    requires Sized(s, w)
    ensures |tasks| == |s.stages|
  {
    seq(|s.stages|, k requires 0 <= k < |s.stages| => UploadTask(s.stages[k], w.since[k], w.booked[k]))
  }

  // ---------------------------------------------------------------- the invariant

  ghost predicate Latency(cfg: Config, ms: real) { ms in cfg.uploadMs }

  ghost predicate Applied(cfg: Config, ms: real) {
    exists k :: 0 <= k < |cfg.uploadMs| && ms == cfg.uploadMs[k] * 0.3
  }

  /** How long a stage lasts that was entered at `since`. */
  ghost predicate Lasts(cfg: Config, s: Stage, since: real, booked: real) {
    match s.tag
    case Submitted | ReadDone | Applying => s.due == since
    case Reading => s.due == since + cfg.ssdRead
    case Uploading => Latency(cfg, s.due - since) && Latency(cfg, booked - since)
    case QueuedUpload => Latency(cfg, booked - s.due)
    case ApplyingEnd => Applied(cfg, s.due - since)
    case Computing => s.due == since + cfg.compute
    case QueuedRead | Idle | Ready => true
  }

  ghost predicate LayerTimed(cfg: Config, s: Sim, w: Watch, k: nat)
    requires Sized(s, w) && k < |s.stages|
  {
    && w.since[k] <= s.now
    && Lasts(cfg, s.stages[k], w.since[k], w.booked[k])
    && (s.stages[k].tag == QueuedRead ==> Awaits(s.ssdBusy, cfg.workers, s.stages[k].due, s.now))
    && (s.stages[k].tag == QueuedUpload ==> Awaits(s.uploadBusy, cfg.workers, s.stages[k].due, s.now))
  }

  /** Every ended read took the read latency. */
  ghost predicate ReadsEnded(cfg: Config, w: Watch, now: real) {
    forall i :: 0 <= i < |w.pastReads| ==>
      w.pastReads[i].end == w.pastReads[i].start + cfg.ssdRead && w.pastReads[i].end <= now
  }

  /** Every ended upload took an upload latency, as did the reservation it started with. */
  ghost predicate UploadsEnded(cfg: Config, w: Watch, now: real) {
    && |w.pastUploads| == |w.pastBookings|
    && forall i :: 0 <= i < |w.pastUploads| ==>
         && w.pastUploads[i].start == w.pastBookings[i].start && w.pastUploads[i].end <= now
         && Latency(cfg, w.pastUploads[i].end - w.pastUploads[i].start)
         && Latency(cfg, w.pastBookings[i].end - w.pastBookings[i].start)
  }

  const AFTER_READ: set<Tag> := {ReadDone, QueuedUpload, Uploading, Ready, Computing}
  const AFTER_UPLOAD: set<Tag> := {Ready, Computing}

  /** The streamed layers in one of these stages. */
  ghost function Within(cfg: Config, s: Sim, tags: set<Tag>): set<int> {
    set k | ResidentTop(cfg) <= k < |s.stages| && s.stages[k].tag in tags
  }

  /** How many computes of a log are of streamed layers. */
  function Streamed(log: seq<(nat, nat)>, top: nat): nat {
    if log == [] then 0 else Streamed(log[..|log| - 1], top) + if log[|log| - 1].1 >= top then 1 else 0
  }

  /** A streamed layer is read once and uploaded once for every time it is computed. */
  ghost predicate Counted(cfg: Config, s: Sim, w: Watch) {
    && |w.pastReads| == Streamed(s.log, ResidentTop(cfg)) + |Within(cfg, s, AFTER_READ)|
    && |w.pastUploads| == Streamed(s.log, ResidentTop(cfg)) + |Within(cfg, s, AFTER_UPLOAD)|
  }

  ghost predicate Timed(cfg: Config, s: Sim, w: Watch) {
    && Sized(s, w)
    && Serves(s.ssdBusy, cfg.workers, LiveReads(cfg, s, w), w.pastReads, s.now)
    && Serves(s.uploadBusy, cfg.workers, LiveUploads(s, w), w.pastBookings, s.now)
    && (forall k :: 0 <= k < |s.stages| ==> LayerTimed(cfg, s, w, k))
    && ReadsEnded(cfg, w, s.now) && UploadsEnded(cfg, w, s.now) && Counted(cfg, s, w)
  }

  // ---------------------------------------------------------------- one event, seen from the stages

  /** What an event does to a layer it is not about. */
  predicate Aside(cfg: Config, a: Stage, b: Stage, now: real) {
    || b == a
    || (a.tag == Idle && (b == At(Submitted, now) || b == At(Applying, now)))
    || (a.tag == Ready && b == At(Computing, now + cfg.compute))
  }

  /** Layer `l` moves to `t`; layers at rest may be submitted, and a ready layer may start. */
  ghost predicate Steps(cfg: Config, stages: seq<Stage>, stages': seq<Stage>, l: nat, t: Stage, now: real)
    requires l < |stages|
  {
    |stages'| == |stages| && forall k :: 0 <= k < |stages| ==> Aside(cfg, stages[l := t][k], stages'[k], now)
  }

  ghost predicate AllAside(cfg: Config, x: Sim, y: Sim) {
    && |y.stages| == |x.stages| && y.now == x.now && y.ssdBusy == x.ssdBusy && y.uploadBusy == x.uploadBusy
    && y.log == x.log
    && forall k :: 0 <= k < |x.stages| ==> Aside(cfg, x.stages[k], y.stages[k], x.now)
  }

  lemma AsideTwice(cfg: Config, x: Sim, y: Sim, z: Sim)
    requires AllAside(cfg, x, y) && AllAside(cfg, y, z)
    ensures AllAside(cfg, x, z)
  {
    forall k | 0 <= k < |x.stages| ensures Aside(cfg, x.stages[k], z.stages[k], x.now) {
      assert Aside(cfg, x.stages[k], y.stages[k], x.now) && Aside(cfg, y.stages[k], z.stages[k], y.now);
    }
  }

  lemma {:induction false} SubmitRangeAside(cfg: Config, s: Sim, lo: nat, hi: nat)
    requires |s.stages| == cfg.layers
    ensures AllAside(cfg, s, SubmitRange(cfg, s, lo, hi))
    decreases hi
  {
    if hi > lo {
      var mid := SubmitRange(cfg, s, lo, hi - 1);
      SubmitRangeAside(cfg, s, lo, hi - 1);
      assert AllAside(cfg, mid, Submit(cfg, mid, hi - 1));
      AsideTwice(cfg, s, mid, Submit(cfg, mid, hi - 1));
    }
  }

  lemma TryStartAside(cfg: Config, s: Sim)
    requires |s.stages| == cfg.layers && s.current < cfg.layers
    ensures AllAside(cfg, s, TryStartCompute(cfg, s))
  {}

  lemma ResidentAside(cfg: Config, s: Sim)
    requires |s.stages| == cfg.layers
    requires s.current < cfg.layers && s.current < ResidentTop(cfg) ==> s.stages[s.current].tag == Idle
    ensures AllAside(cfg, s, CheckResidentReady(cfg, s))
  {}

  lemma StartTokenAside(cfg: Config, s: Sim)
    requires |s.stages| == cfg.layers
    requires s.current < cfg.layers && s.current < ResidentTop(cfg) ==> s.stages[s.current].tag == Idle
    ensures AllAside(cfg, s, StartToken(cfg, s))
  {
    hide ResidentTop, SubmitRange, AllAside;
    ResidentAside(cfg, s);
    SubmitRangeAside(cfg, CheckResidentReady(cfg, s), 0, FirstWindow(cfg));
    AsideTwice(cfg, s, CheckResidentReady(cfg, s), StartToken(cfg, s));
  }

  lemma NextLayerAside(cfg: Config, c: Sim)
    requires |c.stages| == cfg.layers && c.current + 1 < cfg.layers
    requires c.current + 1 < ResidentTop(cfg) ==> c.stages[c.current + 1].tag == Idle
    ensures AllAside(cfg, c.(current := c.current + 1), AdvanceLayer(cfg, c))
  {
    hide ResidentTop, AllAside;
    var s1 := c.(current := c.current + 1);
    ResidentAside(cfg, s1);
    TryStartAside(cfg, CheckResidentReady(cfg, s1));
    AsideTwice(cfg, s1, CheckResidentReady(cfg, s1), AdvanceLayer(cfg, c));
  }

  lemma NextTokenAside(cfg: Config, c: Sim)
    requires |c.stages| == cfg.layers && c.current + 1 == cfg.layers
    requires forall l :: 0 <= l < cfg.layers ==> c.stages[l].tag == Idle
    ensures var d := c.(token := c.token + 1, inFlight := c.inFlight + Streaming(cfg, c.stages));
      && (c.token + 1 < Tokens(cfg) ==> AllAside(cfg, d.(current := 0), AdvanceLayer(cfg, c)))
      && (c.token + 1 >= Tokens(cfg) ==>
            AllAside(cfg, d.(current := cfg.layers), AdvanceLayer(cfg, c)))
  {
    hide ResidentTop, SubmitRange, StartToken;
    var d := c.(token := c.token + 1, inFlight := c.inFlight + Streaming(cfg, c.stages));
    StartTokenAside(cfg, d.(current := 0));
  }

  // ---------------------------------------------------------------- the stage an event moves its layer to

  function Moving(cfg: Config, p: Sim, kind: Kind, ms: real): Stage
    requires cfg.workers >= 1
  {
    match kind
    case PrefetchSubmit =>
      BegunStage(READ, |p.ssdBusy| >= cfg.workers, StartTime(p.ssdBusy, cfg.workers, p.now), cfg.ssdRead)
    case ReadStart => At(Reading, p.now + cfg.ssdRead)
    case ReadEnd => At(ReadDone, p.now)
    case UploadSubmit => BegunStage(UPLOAD, |p.uploadBusy| >= cfg.workers, StartTime(p.uploadBusy, cfg.workers, p.now),
      ms)
    case UploadStart => At(Uploading, p.now + ms)
    case UploadEnd | ResidentApplyEnd => At(Ready, p.now)
    case ResidentApply => At(ApplyingEnd, p.now + ms * 0.3)
    case ComputeEnd | EvictEnd | SimulationEnd => AT_REST
  }

  /** What handling an event of layer `l` does to stages, pools, log and clock. */
  ghost predicate EffectOf(cfg: Config, p: Sim, kind: Kind, l: nat, ms: real, r: Sim)
    requires l < |p.stages| && cfg.workers >= 1
  {
    && r.now == p.now
    && Steps(cfg, p.stages, r.stages, l, Moving(cfg, p, kind, ms), p.now)
    && r.ssdBusy == (if kind == PrefetchSubmit then Acquired(p.ssdBusy, cfg.workers, p.now, cfg.ssdRead) else p.ssdBusy)
    && r.uploadBusy == (if kind == UploadSubmit then Acquired(p.uploadBusy, cfg.workers, p.now, ms) else p.uploadBusy)
    && r.log == (if kind == ComputeEnd then p.log + [(p.token, l)] else p.log)
  }

  ghost predicate Effect(cfg: Config, s: Sim, e: Event, ms: real, r: Sim)
    requires 0 <= e.layer < |s.stages| && cfg.workers >= 1
  {
    Popped(s, e).now == e.time && EffectOf(cfg, Popped(s, e), e.kind, e.layer, ms, r)
  }

  lemma FiresAt(cfg: Config, s: Sim, e: Event)
    requires Fires(cfg, s, e)
    ensures Popped(s, e).now == e.time == s.stages[e.layer].due && Popped(s, e).stages == s.stages
    ensures Popped(s, e).current == s.current < cfg.layers == |s.stages|
    ensures e.kind == LiveKind(s.stages[e.layer].tag)
    ensures InPipeline(s.stages[e.layer].tag) ==> e.layer >= ResidentTop(cfg)
    ensures s.stages[e.layer].tag == ApplyingEnd ==> e.layer < ResidentTop(cfg)
  {
    TickKeeps(cfg, s, e);
  }

  lemma MovesAlone(cfg: Config, stages: seq<Stage>, l: nat, t: Stage, now: real)
    requires l < |stages|
    ensures Steps(cfg, stages, stages[l := t], l, t, now)
  {}

  lemma ReadSubmitted(cfg: Config, p: Sim, l: nat, ms: real)
    requires |p.stages| == cfg.layers && cfg.workers >= 1 && l < cfg.layers
    requires p.stages[l].tag == Submitted && l >= ResidentTop(cfg)
    ensures EffectOf(cfg, p, PrefetchSubmit, l, ms, OnPrefetchSubmit(cfg, p, l))
  {
    hide ResidentTop, StartTime, Acquired, BegunEvents, BegunStage, Steps;
    MovesAlone(cfg, p.stages, l, Moving(cfg, p, PrefetchSubmit, ms), p.now);
  }

  lemma UploadSubmitted(cfg: Config, p: Sim, l: nat, ms: real)
    requires |p.stages| == cfg.layers && cfg.workers >= 1 && l < cfg.layers && p.stages[l].tag == ReadDone
    ensures EffectOf(cfg, p, UploadSubmit, l, ms, OnUploadSubmit(cfg, p, l, ms))
  {
    hide StartTime, Acquired, BegunEvents, BegunStage, Steps;
    MovesAlone(cfg, p.stages, l, Moving(cfg, p, UploadSubmit, ms), p.now);
  }

  lemma TaskStarted(cfg: Config, p: Sim, l: nat, ms: real)
    requires |p.stages| == cfg.layers && cfg.workers >= 1 && l < cfg.layers
    ensures p.stages[l].tag == QueuedRead ==> EffectOf(cfg, p, ReadStart, l, ms, OnReadStart(cfg, p, l))
    ensures p.stages[l].tag == QueuedUpload ==> EffectOf(cfg, p, UploadStart, l, ms, OnUploadStart(cfg, p, l, ms))
    ensures EffectOf(cfg, p, ResidentApply, l, ms, OnResidentApply(cfg, p, l, ms))
  {
    hide Steps;
    MovesAlone(cfg, p.stages, l, Moving(cfg, p, ReadStart, ms), p.now);
    MovesAlone(cfg, p.stages, l, Moving(cfg, p, UploadStart, ms), p.now);
    MovesAlone(cfg, p.stages, l, Moving(cfg, p, ResidentApply, ms), p.now);
  }

  lemma BecameReady(cfg: Config, p: Sim, l: nat, ms: real)
    requires |p.stages| == cfg.layers && cfg.workers >= 1 && l < cfg.layers && p.current < cfg.layers
    ensures EffectOf(cfg, p, UploadEnd, l, ms, OnUploadEnd(cfg, p, l))
    ensures EffectOf(cfg, p, ResidentApplyEnd, l, ms, OnResidentApplyEnd(cfg, p, l))
  {
    hide TryStartCompute;
    TryStartAside(cfg, p.(stages := p.stages[l := At(Ready, p.now)]));
  }

  lemma ReadEnded(cfg: Config, p: Sim, l: nat, ms: real)
    requires |p.stages| == cfg.layers && cfg.workers >= 1 && l < cfg.layers
    ensures EffectOf(cfg, p, ReadEnd, l, ms, OnReadEnd(cfg, p, l))
  {
    hide SubmitRange;
    SubmitRangeAside(cfg, p.(events := p.events + multiset{Event(p.now, UploadSubmit, l)},
                             stages := p.stages[l := At(ReadDone, p.now)]), l + 1, AheadEnd(cfg, l));
  }

  lemma ComputedAside(cfg: Config, s: Sim, e: Event)
    requires Fires(cfg, s, e) && e.kind == ComputeEnd
    ensures var c, p := Computed(cfg, Popped(s, e), e.layer), Released(cfg, Popped(s, e), e.layer);
      AllAside(cfg, p, c.(log := p.log)) && c.log == s.log + [(s.token, e.layer)]
  {
    hide Expected, LiveKind, Computes, AheadEnd, Progressing, MaxReal, Earliest, StuckAt, Tokens, Stranded;
    hide Ordered;
    FiresAt(cfg, s, e);
    hide ResidentTop, SubmitRange, AllAside;
    SubmitRangeAside(cfg, Released(cfg, Popped(s, e), e.layer), e.layer + 1, AheadEnd(cfg, e.layer));
  }

  lemma AdvanceAside(cfg: Config, c: Sim)
    requires Structured(cfg, c) && c.current < cfg.layers && c.stages[c.current].tag == Idle
    requires c.current + 1 < cfg.layers && c.current + 1 < ResidentTop(cfg) ==> c.stages[c.current + 1].tag == Idle
    ensures AllAside(cfg, c, AdvanceLayer(cfg, c))
  {
    hide ResidentTop, StartToken, AdvanceLayer;
    if c.current + 1 < cfg.layers {
      NextLayerAside(cfg, c);
    } else {
      BoundaryIdle(cfg, c);
      NextTokenAside(cfg, c);
    }
  }

  lemma ReleasedIs(cfg: Config, p: Sim, l: nat)
    requires |p.stages| == cfg.layers && l < cfg.layers
    ensures var r := Released(cfg, p, l);
      && r.stages == p.stages[l := AT_REST] && r.now == p.now && r.ssdBusy == p.ssdBusy && r.uploadBusy == p.uploadBusy
  {}

  lemma ComputeEndEffect(cfg: Config, s: Sim, e: Event, ms: real)
    requires Fires(cfg, s, e) && e.kind == ComputeEnd
    ensures EffectOf(cfg, Popped(s, e), ComputeEnd, e.layer, ms, OnComputeEnd(cfg, Popped(s, e), e.layer))
  {
    hide ResidentTop, AdvanceLayer, Structured, Accounted, Progressing, Earliest, Settled;
    FiresAt(cfg, s, e);
    var c, p := Computed(cfg, Popped(s, e), e.layer), Released(cfg, Popped(s, e), e.layer);
    ComputedNext(cfg, s, e);
    ComputedAside(cfg, s, e);
    AdvanceAside(cfg, c);
    hide Computed, Released;
    assert AllAside(cfg, p.(log := c.log), c);
    AsideTwice(cfg, p.(log := c.log), c, AdvanceLayer(cfg, c));
    ReleasedIs(cfg, Popped(s, e), e.layer);
  }

  lemma FiredEffect(cfg: Config, s: Sim, e: Event, ms: real)
    requires Fires(cfg, s, e)
    ensures CanHandle(cfg, s, e) && Effect(cfg, s, e, ms, Handle(cfg, s, e, ms))
  {
    hide EffectOf, OnPrefetchSubmit, OnReadStart, OnReadEnd, OnUploadSubmit, OnUploadStart, OnUploadEnd;
    hide OnComputeEnd, OnResidentApply, OnResidentApplyEnd, ResidentTop, Popped;
    FiresAt(cfg, s, e);
    hide Inv, Earliest;
    var p, l := Popped(s, e), e.layer;
    match e.kind {
      case PrefetchSubmit => ReadSubmitted(cfg, p, l, ms);
      case UploadSubmit => UploadSubmitted(cfg, p, l, ms);
      case ReadStart | UploadStart | ResidentApply => TaskStarted(cfg, p, l, ms);
      case UploadEnd | ResidentApplyEnd => BecameReady(cfg, p, l, ms);
      case ReadEnd => ReadEnded(cfg, p, l, ms);
      case ComputeEnd => ComputeEndEffect(cfg, s, e, ms);
      case EvictEnd =>
      case SimulationEnd =>
    }
  }

  // ---------------------------------------------------------------- every event keeps the record

  /** A layer's own event, due now, and what it does. */
  ghost predicate Firing(cfg: Config, s: Sim, e: Event, ms: real, r: Sim) {
    && cfg.workers >= 1 && cfg.ssdRead > 0.0 && ms in cfg.uploadMs && ms > 0.0
    && 0.0 <= s.now <= r.now && 0 <= e.layer < |s.stages|
    && s.stages[e.layer].due == r.now && HasLive(s.stages[e.layer].tag)
    && e.kind == LiveKind(s.stages[e.layer].tag)
    && (InPipeline(s.stages[e.layer].tag) ==> e.layer >= ResidentTop(cfg))
    && (s.stages[e.layer].tag == ApplyingEnd ==> e.layer < ResidentTop(cfg))
    && Effect(cfg, s, e, ms, r)
  }

  lemma FiresFiring(cfg: Config, s: Sim, e: Event, ms: real)
    requires Fires(cfg, s, e) && ms in cfg.uploadMs
    ensures ms > 0.0 && CanHandle(cfg, s, e) && Firing(cfg, s, e, ms, Handle(cfg, s, e, ms))
  {
    hide Steps, Moving, Acquired, Handle, Accounted, Progressing, Ordered, Queued, ResidentTop;
    FiresAt(cfg, s, e);
    FiredEffect(cfg, s, e, ms);
  }

  lemma OtherTasks(cfg: Config, s: Sim, e: Event, ms: real, r: Sim, w: Watch, k: nat)
    requires Firing(cfg, s, e, ms, r) && Sized(s, w) && k < |s.stages| && k != e.layer
    ensures Sized(r, Watched(w, s, r, e.layer, ms))
    ensures var w' := Watched(w, s, r, e.layer, ms);
      && ReadTask(cfg, r.stages[k], w'.since[k]) == ReadTask(cfg, s.stages[k], w.since[k])
      && UploadTask(r.stages[k], w'.since[k], w'.booked[k]) == UploadTask(s.stages[k], w.since[k], w.booked[k])
  {
    hide Acquired, StartTime, Moving, ResidentTop;
    assert Aside(cfg, s.stages[e.layer := Moving(cfg, Popped(s, e), e.kind, ms)][k], r.stages[k], r.now);
  }

  lemma OwnStage(cfg: Config, s: Sim, e: Event, ms: real, r: Sim)
    requires Firing(cfg, s, e, ms, r)
    ensures |r.stages| == |s.stages| && Aside(cfg, Moving(cfg, Popped(s, e), e.kind, ms), r.stages[e.layer], r.now)
    ensures Popped(s, e).now == r.now
  {
    hide Acquired, StartTime, Moving, ResidentTop, Aside;
    assert Aside(cfg, s.stages[e.layer := Moving(cfg, Popped(s, e), e.kind, ms)][e.layer], r.stages[e.layer], r.now);
  }

  lemma LiveAfter(cfg: Config, s: Sim, e: Event, ms: real, r: Sim, w: Watch)
    requires Firing(cfg, s, e, ms, r) && Sized(s, w)
    ensures Sized(r, Watched(w, s, r, e.layer, ms))
    ensures var w', l := Watched(w, s, r, e.layer, ms), e.layer;
      && LiveReads(cfg, r, w') == LiveReads(cfg, s, w)[l := ReadTask(cfg, r.stages[l], w'.since[l])]
      && LiveUploads(r, w') == LiveUploads(s, w)[l := UploadTask(r.stages[l], w'.since[l], w'.booked[l])]
  {
    OwnStage(cfg, s, e, ms, r);
    hide Effect, Watched, ReadTask, UploadTask;
    var w', l := Watched(w, s, r, e.layer, ms), e.layer;
    var a, b := LiveReads(cfg, s, w), LiveReads(cfg, r, w');
    var c, d := LiveUploads(s, w), LiveUploads(r, w');
    forall k | 0 <= k < |s.stages| && k != l ensures b[k] == a[k] && d[k] == c[k] {
      OtherTasks(cfg, s, e, ms, r, w, k);
    }
    assert b == a[l := b[l]] && d == c[l := d[l]];
  }

  lemma PoolsAfter(cfg: Config, s: Sim, e: Event, ms: real, r: Sim)
    requires Firing(cfg, s, e, ms, r)
    ensures |r.stages| == |s.stages|
    ensures r.ssdBusy == if e.kind ==
      PrefetchSubmit then Acquired(s.ssdBusy, cfg.workers, r.now, cfg.ssdRead) else s.ssdBusy
    ensures r.uploadBusy == if e.kind ==
      UploadSubmit then Acquired(s.uploadBusy, cfg.workers, r.now, ms) else s.uploadBusy
  {
    hide Acquired, Moving, ResidentTop;
  }

  /** The read a layer's own event begins, goes on with, or ends. */
  lemma OwnRead(cfg: Config, s: Sim, e: Event, ms: real, r: Sim, w: Watch)
    requires Firing(cfg, s, e, ms, r) && Sized(s, w) && |r.stages| == |s.stages|
    ensures var w', l := Watched(w, s, r, e.layer, ms), e.layer;
      var before, after := ReadTask(cfg, s.stages[l], w.since[l]), ReadTask(cfg, r.stages[l], w'.since[l]);
      var start := StartTime(s.ssdBusy, cfg.workers, r.now);
      && (e.kind == PrefetchSubmit ==> before == NO_TASK && after == Span(start, start + cfg.ssdRead))
      && (e.kind == ReadEnd ==> after == NO_TASK && w'.pastReads == w.pastReads + [before])
      && (e.kind != PrefetchSubmit && e.kind != ReadEnd ==> after == before)
      && (e.kind != ReadEnd ==> w'.pastReads == w.pastReads)
  {
    OwnStage(cfg, s, e, ms, r);
    hide Effect, Acquired, StartTime, ResidentTop;
  }

  lemma ReadsServe(cfg: Config, s: Sim, e: Event, ms: real, r: Sim, w: Watch)
    requires Firing(cfg, s, e, ms, r) && Sized(s, w)
    requires Serves(s.ssdBusy, cfg.workers, LiveReads(cfg, s, w), w.pastReads, s.now)
    ensures Sized(r, Watched(w, s, r, e.layer, ms))
    ensures var w' := Watched(w, s, r, e.layer, ms);
      Serves(r.ssdBusy, cfg.workers, LiveReads(cfg, r, w'), w'.pastReads, r.now)
  {
    LiveAfter(cfg, s, e, ms, r, w);
    PoolsAfter(cfg, s, e, ms, r);
    OwnRead(cfg, s, e, ms, r, w);
    var w', l := Watched(w, s, r, e.layer, ms), e.layer;
    hide Serves, Watched, Effect, Acquired, StartTime, ReadTask, ResidentTop;
    StillServes(s.ssdBusy, cfg.workers, LiveReads(cfg, s, w), w.pastReads, s.now, r.now, l, e.kind == PrefetchSubmit,
      e.kind == ReadEnd, cfg.ssdRead, r.ssdBusy, ReadTask(cfg, r.stages[l], w'.since[l]), w'.pastReads);
  }

  lemma OwnUpload(cfg: Config, s: Sim, e: Event, ms: real, r: Sim, w: Watch)
    requires Firing(cfg, s, e, ms, r) && Sized(s, w) && |r.stages| == |s.stages|
    ensures var w', l := Watched(w, s, r, e.layer, ms), e.layer;
      var before := UploadTask(s.stages[l], w.since[l], w.booked[l]);
      var after := UploadTask(r.stages[l], w'.since[l], w'.booked[l]);
      var start := StartTime(s.uploadBusy, cfg.workers, r.now);
      && (e.kind == UploadSubmit ==> before == NO_TASK && after == Span(start, start + ms))
      && (e.kind == UploadEnd ==> after == NO_TASK && w'.pastBookings == w.pastBookings + [before])
      && (e.kind != UploadSubmit && e.kind != UploadEnd ==> after == before)
      && (e.kind != UploadEnd ==> w'.pastBookings == w.pastBookings)
  {
    OwnStage(cfg, s, e, ms, r);
    hide Effect, Acquired, StartTime, ResidentTop;
  }

  lemma UploadsServe(cfg: Config, s: Sim, e: Event, ms: real, r: Sim, w: Watch)
    requires Firing(cfg, s, e, ms, r) && Sized(s, w)
    requires Serves(s.uploadBusy, cfg.workers, LiveUploads(s, w), w.pastBookings, s.now)
    ensures Sized(r, Watched(w, s, r, e.layer, ms))
    ensures var w' := Watched(w, s, r, e.layer, ms);
      Serves(r.uploadBusy, cfg.workers, LiveUploads(r, w'), w'.pastBookings, r.now)
  {
    LiveAfter(cfg, s, e, ms, r, w);
    PoolsAfter(cfg, s, e, ms, r);
    OwnUpload(cfg, s, e, ms, r, w);
    var w', l := Watched(w, s, r, e.layer, ms), e.layer;
    hide Serves, Watched, Effect, Acquired, StartTime, UploadTask, ResidentTop;
    StillServes(s.uploadBusy, cfg.workers, LiveUploads(s, w), w.pastBookings, s.now, r.now, l, e.kind == UploadSubmit,
      e.kind == UploadEnd, ms, r.uploadBusy, UploadTask(r.stages[l], w'.since[l], w'.booked[l]), w'.pastBookings);
  }

  lemma AwaitsKept(cfg: Config, s: Sim, e: Event, ms: real, r: Sim, due: real)
    requires Firing(cfg, s, e, ms, r) && |s.ssdBusy| <= cfg.workers && |s.uploadBusy| <= cfg.workers
    ensures Awaits(s.ssdBusy, cfg.workers, due, s.now) ==> Awaits(r.ssdBusy, cfg.workers, due, r.now)
    ensures Awaits(s.uploadBusy, cfg.workers, due, s.now) ==> Awaits(r.uploadBusy, cfg.workers, due, r.now)
  {
    hide Steps, Moving, Acquired, ResidentTop, BusyAfter;
    if e.kind == PrefetchSubmit && Awaits(s.ssdBusy, cfg.workers, due, s.now) {
      AcquiredAwaits(s.ssdBusy, cfg.workers, r.now, cfg.ssdRead, due);
    }
    if e.kind == UploadSubmit && Awaits(s.uploadBusy, cfg.workers, due, s.now) {
      AcquiredAwaits(s.uploadBusy, cfg.workers, r.now, ms, due);
    }
  }

  lemma OtherTimed(cfg: Config, s: Sim, e: Event, ms: real, r: Sim, w: Watch, k: nat)
    requires Firing(cfg, s, e, ms, r) && Sized(s, w) && k < |s.stages| == |r.stages| && k != e.layer
    requires |s.ssdBusy| <= cfg.workers && |s.uploadBusy| <= cfg.workers && LayerTimed(cfg, s, w, k)
    ensures LayerTimed(cfg, r, Watched(w, s, r, e.layer, ms), k)
  {
    AwaitsKept(cfg, s, e, ms, r, s.stages[k].due);
    hide Acquired, StartTime, Moving, ResidentTop, Awaits, Latency, Applied;
    assert Aside(cfg, s.stages[e.layer := Moving(cfg, Popped(s, e), e.kind, ms)][k], r.stages[k], r.now);
  }

  lemma OwnLasts(cfg: Config, s: Sim, e: Event, ms: real, r: Sim, w: Watch)
    requires Firing(cfg, s, e, ms, r) && Sized(s, w) && |s.stages| == |r.stages|
    requires LayerTimed(cfg, s, w, e.layer)
    ensures var w', l := Watched(w, s, r, e.layer, ms), e.layer;
      w'.since[l] <= r.now && Lasts(cfg, r.stages[l], w'.since[l], w'.booked[l])
  {
    hide Popped, Inserted, Steps, HasLive;
    OwnStage(cfg, s, e, ms, r);
    hide Acquired, StartTime, ResidentTop, Awaits, Effect;
    assert ms in cfg.uploadMs && r.now + ms - r.now == ms;
    assert r.now + ms * 0.3 - r.now == ms * 0.3;
  }

  lemma OwnAwaits(cfg: Config, s: Sim, e: Event, ms: real, r: Sim)
    requires Firing(cfg, s, e, ms, r) && |s.stages| == |r.stages|
    requires |s.ssdBusy| <= cfg.workers && |s.uploadBusy| <= cfg.workers
    ensures r.stages[e.layer].tag == QueuedRead ==> Awaits(r.ssdBusy, cfg.workers, r.stages[e.layer].due, r.now)
    ensures r.stages[e.layer].tag == QueuedUpload ==> Awaits(r.uploadBusy, cfg.workers, r.stages[e.layer].due, r.now)
  {
    OwnStage(cfg, s, e, ms, r);
    hide Acquired, StartTime, ResidentTop, Awaits, Steps;
    if e.kind == PrefetchSubmit { StartAwaits(s.ssdBusy, cfg.workers, r.now, cfg.ssdRead); }
    if e.kind == UploadSubmit { StartAwaits(s.uploadBusy, cfg.workers, r.now, ms); }
  }

  lemma ReadsEndedKept(cfg: Config, s: Sim, e: Event, ms: real, r: Sim, w: Watch)
    requires Firing(cfg, s, e, ms, r) && Sized(s, w) && |s.stages| == |r.stages|
    requires LayerTimed(cfg, s, w, e.layer) && ReadsEnded(cfg, w, s.now)
    ensures ReadsEnded(cfg, Watched(w, s, r, e.layer, ms), r.now)
  {
    OwnRead(cfg, s, e, ms, r, w);
    hide Watched, Effect, Awaits, ResidentTop, StartTime;
  }

  lemma UploadsEndedKept(cfg: Config, s: Sim, e: Event, ms: real, r: Sim, w: Watch)
    requires Firing(cfg, s, e, ms, r) && Sized(s, w) && |s.stages| == |r.stages|
    requires LayerTimed(cfg, s, w, e.layer) && UploadsEnded(cfg, w, s.now)
    ensures UploadsEnded(cfg, Watched(w, s, r, e.layer, ms), r.now)
  {
    OwnUpload(cfg, s, e, ms, r, w);
    OwnUploadEnds(cfg, s, e, ms, r, w);
    hide Watched, Effect, Awaits, ResidentTop, StartTime, Latency, UploadsEnded;
    var w', l := Watched(w, s, r, e.layer, ms), e.layer;
    if e.kind == UploadEnd {
      OneMoreUpload(cfg, w, w', Span(w.since[l], r.now), Span(w.since[l], w.booked[l]), s.now, r.now);
    } else {
      SameUploads(cfg, w, w', s.now, r.now);
    }
  }

  lemma OneMoreUpload(cfg: Config, w: Watch, w': Watch, upload: Span, booking: Span, now: real, later: real)
    requires UploadsEnded(cfg, w, now) && now <= later
    requires w'.pastUploads == w.pastUploads + [upload] && w'.pastBookings == w.pastBookings + [booking]
    requires upload.start == booking.start && upload.end <= later
    requires Latency(cfg, upload.end - upload.start) && Latency(cfg, booking.end - booking.start)
    ensures UploadsEnded(cfg, w', later)
  {
    hide Latency;
  }

  lemma SameUploads(cfg: Config, w: Watch, w': Watch, now: real, later: real)
    requires UploadsEnded(cfg, w, now) && now <= later
    requires w'.pastUploads == w.pastUploads && w'.pastBookings == w.pastBookings
    ensures UploadsEnded(cfg, w', later)
  {}

  /** What an upload that ends leaves on record. */
  lemma OwnUploadEnds(cfg: Config, s: Sim, e: Event, ms: real, r: Sim, w: Watch)
    requires Firing(cfg, s, e, ms, r) && Sized(s, w) && |s.stages| == |r.stages|
    ensures Watched(w, s, r, e.layer, ms).pastUploads ==
      if e.kind == UploadEnd then w.pastUploads + [Span(w.since[e.layer], r.now)] else w.pastUploads
  {
    OwnStage(cfg, s, e, ms, r);
    hide Acquired, StartTime, ResidentTop, Effect;
  }

  lemma {:induction false} WithinChange(cfg: Config, s: Sim, e: Event, ms: real, r: Sim, tags: set<Tag>)
    requires Firing(cfg, s, e, ms, r) && |s.stages| == |r.stages|
    requires tags == AFTER_READ || tags == AFTER_UPLOAD
    ensures var l, inside := e.layer, Within(cfg, s, tags) - {e.layer};
      Within(cfg, r, tags) ==
        if ResidentTop(cfg) <= l && r.stages[l].tag in tags then inside + {l} else inside
  {
    hide Acquired, StartTime, ResidentTop, Moving;
    forall k | 0 <= k < |s.stages| && k != e.layer ensures s.stages[k].tag in tags <==> r.stages[k].tag in tags {
      assert Aside(cfg, s.stages[e.layer := Moving(cfg, Popped(s, e), e.kind, ms)][k], r.stages[k], r.now);
    }
  }

  lemma SetSize(a: set<int>, l: int)
    ensures |a - {l}| == if l in a then |a| - 1 else |a|
    ensures |(a - {l}) + {l}| == |a - {l}| + 1
  {
    if l !in a { assert a - {l} == a; }
  }

  lemma OwnTags(cfg: Config, s: Sim, e: Event, ms: real, r: Sim)
    requires Firing(cfg, s, e, ms, r) && |s.stages| == |r.stages|
    ensures var a, b, k := s.stages[e.layer].tag, r.stages[e.layer].tag, e.kind;
      && (k == ReadEnd ==> a !in AFTER_READ && b in AFTER_READ && a !in AFTER_UPLOAD && b !in AFTER_UPLOAD)
      && (k == UploadEnd ==> a in AFTER_READ && b in AFTER_READ && a !in AFTER_UPLOAD && b in AFTER_UPLOAD)
      && (k == ComputeEnd ==> a in AFTER_READ && b !in AFTER_READ && a in AFTER_UPLOAD && b !in AFTER_UPLOAD)
      && (k != ReadEnd && k != ComputeEnd && k != ResidentApplyEnd ==> (a in AFTER_READ <==> b in AFTER_READ))
      && (k != UploadEnd && k != ComputeEnd && k != ResidentApplyEnd ==> (a in AFTER_UPLOAD <==> b in AFTER_UPLOAD))
      && (k == ReadEnd || k == UploadEnd ==> e.layer >= ResidentTop(cfg))
      && (k == ResidentApplyEnd ==> e.layer < ResidentTop(cfg))
  {
    OwnStage(cfg, s, e, ms, r);
    hide Acquired, StartTime, ResidentTop, Effect;
  }

  /** How the event's layer comes and goes among the layers read, or uploaded. */
  lemma OwnWithin(cfg: Config, s: Sim, e: Event, ms: real, r: Sim, tags: set<Tag>)
    requires Firing(cfg, s, e, ms, r) && |s.stages| == |r.stages|
    requires tags == AFTER_READ || tags == AFTER_UPLOAD
    ensures var n, n', top := |Within(cfg, s, tags)|, |Within(cfg, r, tags)|, ResidentTop(cfg);
      && (e.kind == (if tags == AFTER_READ then ReadEnd else UploadEnd) ==> n' == n + 1)
      && (e.kind == ComputeEnd && e.layer >= top ==> n' == n - 1)
      && (e.kind == ComputeEnd && e.layer < top ==> n' == n)
      && (e.kind != (if tags == AFTER_READ then ReadEnd else UploadEnd) && e.kind != ComputeEnd ==> n' == n)
  {
    OwnTags(cfg, s, e, ms, r);
    WithinChange(cfg, s, e, ms, r, tags);
    SetSize(Within(cfg, s, tags), e.layer);
    WithinMember(cfg, s, e.layer, tags);
    hide Effect, ResidentTop, Within, AFTER_READ, AFTER_UPLOAD;
  }

  lemma WithinMember(cfg: Config, s: Sim, l: int, tags: set<Tag>)
    requires 0 <= l < |s.stages|
    ensures l in Within(cfg, s, tags) <==> l >= ResidentTop(cfg) && s.stages[l].tag in tags
  {}

  lemma CountedKept(cfg: Config, s: Sim, e: Event, ms: real, r: Sim, w: Watch)
    requires Firing(cfg, s, e, ms, r) && Sized(s, w) && |s.stages| == |r.stages| && Counted(cfg, s, w)
    ensures Counted(cfg, r, Watched(w, s, r, e.layer, ms))
  {
    OwnWithin(cfg, s, e, ms, r, AFTER_READ);
    OwnWithin(cfg, s, e, ms, r, AFTER_UPLOAD);
    OwnRead(cfg, s, e, ms, r, w);
    OwnUploadEnds(cfg, s, e, ms, r, w);
    hide ResidentTop, Steps, Moving, Acquired, Within, Watched, ReadTask;
    assert (s.log + [(s.token, e.layer as nat)])[..|s.log|] == s.log;
  }


  lemma FiringTimed(cfg: Config, s: Sim, e: Event, ms: real, r: Sim, w: Watch)
    requires Firing(cfg, s, e, ms, r) && Timed(cfg, s, w)
    ensures |s.stages| == |r.stages| && Timed(cfg, r, Watched(w, s, r, e.layer, ms))
  {
    OwnStage(cfg, s, e, ms, r);
    ReadsServe(cfg, s, e, ms, r, w);
    UploadsServe(cfg, s, e, ms, r, w);
    assert |s.ssdBusy| <= cfg.workers && |s.uploadBusy| <= cfg.workers;
    hide Serves, Lasts, Awaits, Effect, Counted, ReadsEnded, UploadsEnded, Firing, Watched;
    forall k | 0 <= k < |s.stages| ensures LayerTimed(cfg, r, Watched(w, s, r, e.layer, ms), k) {
      if k == e.layer {
        OwnLasts(cfg, s, e, ms, r, w);
        OwnAwaits(cfg, s, e, ms, r);
      } else {
        OtherTimed(cfg, s, e, ms, r, w, k);
      }
    }
    ReadsEndedKept(cfg, s, e, ms, r, w);
    UploadsEndedKept(cfg, s, e, ms, r, w);
    CountedKept(cfg, s, e, ms, r, w);
  }

  /** An eviction record or a stale marker moves the clock at most. */
  lemma IgnoredTimed(cfg: Config, s: Sim, e: Event, ms: real, r: Sim, w: Watch)
    requires Timed(cfg, s, w) && r == Popped(s, e)
    ensures Timed(cfg, r, Watched(w, s, r, e.layer, ms))
  {
    hide Awaits, Overlap, Length, Total, BusyAfter, Lasts, ResidentTop, Streamed;
    var w' := Watched(w, s, r, e.layer, ms);
    assert w'.since == w.since;
    assert w' == w;
    assert LiveReads(cfg, r, w) == LiveReads(cfg, s, w) && LiveUploads(r, w) == LiveUploads(s, w);
    LaterAwaits(cfg, s, w, r.now);
    forall k | 0 <= k < |s.stages| ensures LayerTimed(cfg, r, w, k) { assert LayerTimed(cfg, s, w, k); }
  }

  lemma LaterAwaits(cfg: Config, s: Sim, w: Watch, later: real)
    requires later >= s.now
    ensures forall due: real :: Awaits(s.ssdBusy, cfg.workers, due, s.now) ==>
      Awaits(s.ssdBusy, cfg.workers, due, later)
    ensures forall due: real ::
      Awaits(s.uploadBusy, cfg.workers, due, s.now) ==> Awaits(s.uploadBusy, cfg.workers, due, later)
  {}

  /** Whatever event fires, the record stays true. */
  lemma HandleTimed(cfg: Config, s: Sim, e: Event, ms: real, w: Watch)
    requires Runnable(cfg) && Inv(cfg, s) && Earliest(e, s.events) && e.kind != SimulationEnd
    requires ms in cfg.uploadMs && Timed(cfg, s, w)
    ensures CanHandle(cfg, s, e)
    ensures var r := Handle(cfg, s, e, ms);
      |r.stages| == |s.stages| && Timed(cfg, r, Watched(w, s, r, e.layer, ms))
  {
    hide Timed, Accounted, Progressing, Watched, LiveEvent, Firing;
    assert Expected(e, s.stages, s.now, s.current == cfg.layers);
    if e.kind == EvictEnd {
      IgnoredTimed(cfg, s, e, ms, Popped(s, e), w);
    } else {
      assert OrderedAt(s.stages[e.layer], e.layer, ResidentTop(cfg), s.current, s.gpuBusyUntil);
      if Stale(e, s.stages[e.layer]) {
        IgnoredTimed(cfg, s, e, ms, Popped(s, e), w);
      } else {
        FiresFiring(cfg, s, e, ms);
        FiringTimed(cfg, s, e, ms, Handle(cfg, s, e, ms), w);
      }
    }
  }

  lemma NothingServed(workers: nat, idle: seq<Span>, past: seq<Span>)
    requires past == [] && forall k :: 0 <= k < |idle| ==> idle[k] == NO_TASK
    ensures Serves([], workers, idle, past, 0.0)
  {
    NoLength(idle);
    forall t: real ensures Overlap(idle, t) == 0 {
      HoldersCounted(idle, t);
      assert Holders(idle, t) == {};
    }
  }

  lemma InitialStages(cfg: Config)
    requires Runnable(cfg)
    ensures var r := StartToken(cfg, Initial(cfg));
      && |r.stages| == cfg.layers && r.now == 0.0 && r.ssdBusy == [] && r.uploadBusy == [] && r.log == []
      && (forall k :: 0 <= k < cfg.layers ==> Aside(cfg, AT_REST, r.stages[k], 0.0))
  {
    var s := Initial(cfg);
    StartTokenAside(cfg, s);
    hide StartToken, ResidentTop, Aside;
    forall k | 0 <= k < cfg.layers ensures Aside(cfg, AT_REST, StartToken(cfg, s).stages[k], 0.0) {
      assert Aside(cfg, s.stages[k], StartToken(cfg, s).stages[k], s.now);
    }
  }

  lemma InitialTimed(cfg: Config)
    requires Runnable(cfg)
    ensures |StartToken(cfg, Initial(cfg)).stages| == cfg.layers
    ensures Timed(cfg, StartToken(cfg, Initial(cfg)), Unwatched(cfg))
  {
    hide CheckResidentReady;
    InitialStages(cfg);
    hide StartToken, ResidentTop, Serves, Initial, Awaits;
    var r, w := StartToken(cfg, Initial(cfg)), Unwatched(cfg);
    NothingServed(cfg.workers, LiveReads(cfg, r, w), w.pastReads);
    NothingServed(cfg.workers, LiveUploads(r, w), w.pastBookings);
    assert Within(cfg, r, AFTER_READ) == {} && Within(cfg, r, AFTER_UPLOAD) == {};
  }

  // ---------------------------------------------------------------- what the record says at any moment

  ghost function ReadingNow(s: Sim): set<int> {
    set l | 0 <= l < |s.stages| && s.stages[l].tag == Reading && s.stages[l].due > s.now
  }

  ghost function UploadingNow(s: Sim): set<int> {
    set l | 0 <= l < |s.stages| && s.stages[l].tag == Uploading && s.stages[l].due > s.now
  }

  /** The reads that hold a worker: those under way, and those whose turn has just come. */
  ghost function HoldingReads(cfg: Config, s: Sim): set<int> {
    ReadingNow(s) + set l | 0 <= l < |s.stages| && s.stages[l].tag == QueuedRead &&
      s.stages[l].due <= s.now < s.stages[l].due + cfg.ssdRead
  }

  /** Uploads still under way past the end of their reservation. */
  ghost function Overrunning(s: Sim, w: Watch): set<int>
    requires Sized(s, w)
  {
    set l | 0 <= l < |s.stages| && s.stages[l].tag == Uploading && w.booked[l] <= s.now < s.stages[l].due
  }

  lemma HoldersOfReads(cfg: Config, s: Sim, w: Watch)
    requires Timed(cfg, s, w)
    ensures Holders(LiveReads(cfg, s, w), s.now) == HoldingReads(cfg, s)
  {
    hide Serves, Counted, ReadsEnded, UploadsEnded, Awaits;
    forall l: int ensures l in Holders(LiveReads(cfg, s, w), s.now) <==> l in HoldingReads(cfg, s) {
      if 0 <= l < |s.stages| { assert LayerTimed(cfg, s, w, l); }
    }
  }

  /** Never more reads under way than workers. */
  lemma ReadsWithinWorkers(cfg: Config, s: Sim, w: Watch)
    requires Timed(cfg, s, w)
    ensures |ReadingNow(s)| <= |HoldingReads(cfg, s)| <= cfg.workers
  {
    HoldersOfReads(cfg, s, w);
    HoldersCounted(LiveReads(cfg, s, w), s.now);
    SetSubset(ReadingNow(s), HoldingReads(cfg, s));
  }

  lemma {:induction false} SetSubset(a: set<int>, b: set<int>)
    requires a <= b
    ensures |a| <= |b|
  {
    assert a + (b - a) == b;
  }

  /** A read waits only while every worker reads. */
  lemma WaitingMeansBusy(cfg: Config, s: Sim, w: Watch, l: nat)
    requires Timed(cfg, s, w) && l < |s.stages| && s.stages[l].tag == QueuedRead && s.stages[l].due > s.now
    ensures |HoldingReads(cfg, s)| == cfg.workers
  {
    assert LayerTimed(cfg, s, w, l);
    assert BusyAfter(s.ssdBusy, s.now) == cfg.workers;
    HoldersOfReads(cfg, s, w);
    HoldersCounted(LiveReads(cfg, s, w), s.now);
    OverlapNone(w.pastReads, s.now);
  }

  /** Never more uploads under way than workers, but for those that outlast their reservation. */
  lemma UploadsWithinWorkers(cfg: Config, s: Sim, w: Watch)
    requires Timed(cfg, s, w)
    ensures |UploadingNow(s) - Overrunning(s, w)| <= cfg.workers
    ensures |UploadingNow(s)| == |UploadingNow(s) - Overrunning(s, w)| + |Overrunning(s, w)|
  {
    hide Counted, ReadsEnded, UploadsEnded, Awaits;
    var on := UploadingNow(s) - Overrunning(s, w);
    forall l | l in on ensures l in Holders(LiveUploads(s, w), s.now) {
      assert LayerTimed(cfg, s, w, l);
    }
    HoldersCounted(LiveUploads(s, w), s.now);
    SetSubset(on, Holders(LiveUploads(s, w), s.now));
    assert on + Overrunning(s, w) == UploadingNow(s);
  }

  /** An upload that had to wait outlasts its reservation exactly when the latency has risen since it
      was submitted. */
  lemma OverrunsWhen(cfg: Config, s: Sim, e: Event, ms: real, w: Watch)
    requires Fires(cfg, s, e) && e.kind == UploadStart && ms in cfg.uploadMs && Timed(cfg, s, w)
    ensures CanHandle(cfg, s, e) && |Handle(cfg, s, e, ms).stages| == |s.stages|
    ensures var r := Handle(cfg, s, e, ms);
      var w' := Watched(w, s, r, e.layer, ms);
      && r.stages[e.layer].tag == Uploading && Latency(cfg, w.booked[e.layer] - s.stages[e.layer].due)
      && (r.stages[e.layer].due > w'.booked[e.layer] <==> ms > w.booked[e.layer] - s.stages[e.layer].due)
  {
    FiresFiring(cfg, s, e, ms);
    OwnStage(cfg, s, e, ms, Handle(cfg, s, e, ms));
    hide Handle, Effect, ResidentTop, Inv, Serves, Counted, ReadsEnded, UploadsEnded, Earliest;
    assert LayerTimed(cfg, s, w, e.layer);
  }

  /** Every load of memory has the same upload latency. */
  ghost predicate Level(cfg: Config, ms: real) { forall k :: 0 <= k < |cfg.uploadMs| ==> cfg.uploadMs[k] == ms }

  /** Then no upload outlasts its reservation. */
  lemma LevelOnTime(cfg: Config, s: Sim, w: Watch, ms: real)
    requires Timed(cfg, s, w) && Level(cfg, ms)
    ensures Overrunning(s, w) == {} && |UploadingNow(s)| <= cfg.workers
    ensures w.pastBookings == w.pastUploads
    ensures forall i :: 0 <= i < |w.pastUploads| ==>
              w.pastUploads[i].end == w.pastUploads[i].start + ms && w.pastUploads[i].end <= s.now
  {
    UploadsWithinWorkers(cfg, s, w);
    forall l | 0 <= l < |s.stages| && s.stages[l].tag == Uploading ensures s.stages[l].due == w.booked[l] {
      assert LayerTimed(cfg, s, w, l);
    }
    assert Overrunning(s, w) == {};
    forall i | 0 <= i < |w.pastUploads| ensures w.pastBookings[i] == w.pastUploads[i] {}
  }

  // ---------------------------------------------------------------- what it says of a whole run

  lemma {:induction false} StreamedSchedule(token: nat, layer: nat, layers: nat, top: nat)
    requires top <= layers && layer <= layers
    ensures Streamed(Schedule(token, layer, layers), top) == token * (layers - top) + Max(layer - top, 0)
    decreases token, layer
  {
    var log := Schedule(token, layer, layers);
    if layer > 0 {
      StreamedSchedule(token, layer - 1, layers, top);
      assert log[..|log| - 1] == Schedule(token, layer - 1, layers);
    } else if token > 0 {
      StreamedSchedule(token - 1, layers, layers, top);
    }
  }

  /** In a finished run every streamed layer of every token has been read and uploaded. */
  lemma FinishedCounts(cfg: Config, s: Sim, w: Watch)
    requires Inv(cfg, s) && Timed(cfg, s, w) && s.current == cfg.layers
    ensures |w.pastReads| == |w.pastUploads| == Tokens(cfg) * (cfg.layers - ResidentTop(cfg))
  {
    hide Structured, Queued;
    AllIdle(cfg, s, w);
    StreamedSchedule(Tokens(cfg), 0, cfg.layers, ResidentTop(cfg));
    hide Serves, Inv, Within, ResidentTop, ReadsEnded, UploadsEnded, LayerTimed, Tokens, Schedule, Streamed;
  }

  /** Each read took its latency, and the workers had time for all of them. */
  lemma FinishedReads(cfg: Config, s: Sim, w: Watch)
    requires Inv(cfg, s) && Timed(cfg, s, w) && s.current == cfg.layers
    ensures Affords(cfg.workers, s.now, |w.pastReads|, cfg.ssdRead)
  {
    hide Serves, Inv, Counted, ResidentTop, LayerTimed, UploadsEnded, LiveReads, LiveUploads, Within, Schedule;
    hide Tokens, Affords;
    AllIdle(cfg, s, w);
    UniformFits(s.ssdBusy, cfg.workers, LiveReads(cfg, s, w), w.pastReads, s.now, cfg.ssdRead);
  }

  /** Likewise the uploads when each takes the same time. */
  lemma FinishedUploads(cfg: Config, s: Sim, w: Watch, ms: real)
    requires Inv(cfg, s) && Timed(cfg, s, w) && s.current == cfg.layers && Level(cfg, ms)
    ensures Affords(cfg.workers, s.now, |w.pastUploads|, ms)
  {
    hide Serves, Inv, Counted, ResidentTop, LayerTimed, ReadsEnded, UploadsEnded, Level, LiveReads;
    hide LiveUploads, Within, Schedule, Tokens, Overrunning, UploadingNow, Affords;
    AllIdle(cfg, s, w);
    LevelOnTime(cfg, s, w, ms);
    UniformFits(s.uploadBusy, cfg.workers, LiveUploads(s, w), w.pastUploads, s.now, ms);
  }

  lemma AllIdle(cfg: Config, s: Sim, w: Watch)
    requires Inv(cfg, s) && Sized(s, w) && s.current == cfg.layers
    ensures Within(cfg, s, AFTER_READ) == {} && Within(cfg, s, AFTER_UPLOAD) == {}
    ensures forall i :: 0 <= i < |s.stages| ==> LiveReads(cfg, s, w)[i] == LiveUploads(s, w)[i] == NO_TASK
    ensures s.log == Schedule(Tokens(cfg), 0, cfg.layers) && s.now >= 0.0
  {
    forall l | 0 <= l < |s.stages| ensures s.stages[l].tag == Idle {
      assert OrderedAt(s.stages[l], l, ResidentTop(cfg), s.current, s.gpuBusyUntil);
    }
  }

  // ---------------------------------------------------------------- every reachable state

  ghost function Loaded(cfg: Config, s: Sim): set<int> {
    set l | 0 <= l < cfg.layers && (l < ResidentTop(cfg) || OnDevice(TagOf(s.stages, l)))
  }

  lemma {:induction false} BoundedSize(a: set<int>, n: nat)
    requires forall l :: l in a ==> 0 <= l < n
    ensures |a| <= n
  {
    if n > 0 {
      BoundedSize(a - {n - 1}, n - 1);
    } else {
      forall l: int ensures l !in a {}
      assert a == {};
    }
  }

  /** The upload latency the handlers use: that of the number of loaded layers. */
  ghost function LatencyNow(cfg: Config, s: Sim): (ms: real)
    requires Runnable(cfg)
    ensures ms in cfg.uploadMs
  {
    BoundedSize(Loaded(cfg, s), cfg.layers);
    cfg.uploadMs[|Loaded(cfg, s)|]
  }

  /** `e` is the earliest event of `s`, and handling it gives `r`. */
  ghost predicate Turn(cfg: Config, s: Sim, e: Event, r: Sim) {
    && Runnable(cfg) && CanHandle(cfg, s, e) && e.kind != SimulationEnd && Earliest(e, s.events)
    && r == Handle(cfg, s, e, LatencyNow(cfg, s))
  }

  /** `states` are passed through in turn from the start of a run. */
  ghost predicate Run(cfg: Config, states: seq<Sim>, events: seq<Event>) {
    && Runnable(cfg) && |states| == |events| + 1 && states[0] == StartToken(cfg, Initial(cfg))
    && forall i :: 0 <= i < |events| ==> Turn(cfg, states[i], events[i], states[i + 1])
  }

  /** The states a run can pass through. */
  ghost predicate Reached(cfg: Config, s: Sim) {
    exists states: seq<Sim>, events: seq<Event> :: Run(cfg, states, events) && states[|events|] == s
  }

  lemma ReachedTurn(cfg: Config, s: Sim, e: Event, r: Sim)
    requires Reached(cfg, s) && Turn(cfg, s, e, r)
    ensures Reached(cfg, r)
  {
    hide Turn;
    var states: seq<Sim>, events: seq<Event> :| Run(cfg, states, events) && states[|events|] == s;
    assert Run(cfg, states + [r], events + [e]);
    assert (states + [r])[|events + [e]|] == r;
  }

  lemma {:induction false} RunTimed(cfg: Config, states: seq<Sim>, events: seq<Event>, n: nat) returns (w: Watch)
    requires Run(cfg, states, events) && n <= |events|
    ensures Inv(cfg, states[n]) && Timed(cfg, states[n], w)
  {
    hide Inv, Timed, Watched, Initial, StartToken, Handle, Earliest;
    if n == 0 {
      InitialKeeps(cfg);
      InitialTimed(cfg);
      w := Unwatched(cfg);
    } else {
      var v := RunTimed(cfg, states, events, n - 1);
      var s, e, ms := states[n - 1], events[n - 1], LatencyNow(cfg, states[n - 1]);
      assert Turn(cfg, s, e, states[n]);
      LatencyPositive(cfg, s);
      HandleKeeps(cfg, s, e, ms);
      HandleTimed(cfg, s, e, ms, v);
      TimedSized(cfg, s, v);
      w := Watched(v, s, states[n], e.layer, ms);
    }
  }

  lemma LatencyPositive(cfg: Config, s: Sim)
    requires Runnable(cfg)
    ensures LatencyNow(cfg, s) > 0.0
  {}

  lemma TimedSized(cfg: Config, s: Sim, w: Watch)
    requires Timed(cfg, s, w)
    ensures Sized(s, w)
  {}

  /** In every reachable state no more reads are under way than there are workers, and no more
      uploads when they all take the same time; a read waits only while every worker reads. */
  lemma AlwaysWithinWorkers(cfg: Config, s: Sim)
    requires Reached(cfg, s)
    ensures |ReadingNow(s)| <= cfg.workers
    ensures (exists ms :: Level(cfg, ms)) ==> |UploadingNow(s)| <= cfg.workers
    ensures (exists l :: 0 <= l < |s.stages| && s.stages[l].tag == QueuedRead && s.stages[l].due > s.now)
            ==> |HoldingReads(cfg, s)| == cfg.workers
  {
    hide Turn, Timed, ReadingNow, UploadingNow, HoldingReads, Level;
    var states: seq<Sim>, events: seq<Event> :| Run(cfg, states, events) && states[|events|] == s;
    var w := RunTimed(cfg, states, events, |events|);
    ReadsWithinWorkers(cfg, s, w);
    forall ms | Level(cfg, ms) ensures |UploadingNow(s)| <= cfg.workers { LevelOnTime(cfg, s, w, ms); }
    forall l | 0 <= l < |s.stages| && s.stages[l].tag == QueuedRead && s.stages[l].due > s.now
      ensures |HoldingReads(cfg, s)| == cfg.workers
    {
      WaitingMeansBusy(cfg, s, w, l);
    }
  }
}
