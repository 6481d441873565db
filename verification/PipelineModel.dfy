/** The discrete-event pipeline simulator as a transition system: an event queue drives
    every layer through read, upload, ready, compute and evict. A layer's membership of
    the simulator's sets is one stage here; `Simulator.dfy` has the sets themselves.
    Events of equal time are taken in any order. */
module PipelineModel {
  import opened Arithmetic
  import opened WorkerPools

  // ---------------------------------------------------------------- configuration

  /** `uploadMs[k]` is the upload latency while `k` layers are loaded; see `Pressured`. */
  datatype Config = Config(
    layers: nat, window: int, prefetch: int, workers: nat,
    compute: real, ssdRead: real, uploadMs: seq<real>, eviction: real,
    tokens: int, useResident: bool, residentCount: int)

  ghost predicate Runnable(cfg: Config) {
    && cfg.layers >= 1 && cfg.workers >= 1
    && cfg.compute > 0.0 && cfg.ssdRead > 0.0
    && |cfg.uploadMs| == cfg.layers + 1 && (forall k :: 0 <= k <= cfg.layers ==> cfg.uploadMs[k] > 0.0)
  }

  /** Layers 0..ResidentTop-1 are resident. */
  function ResidentTop(cfg: Config): nat {
    if !cfg.useResident || cfg.residentCount <= 0 then 0
    else if cfg.residentCount < cfg.layers then cfg.residentCount else cfg.layers
  }

  function FirstLayers(n: nat): (layers: set<int>)
    ensures |layers| == n && forall l :: l in layers <==> 0 <= l < n
  {
    if n == 0 then {} else FirstLayers(n - 1) + {n - 1}
  }

  function Lookahead(cfg: Config): int {
    if cfg.window > cfg.prefetch then cfg.window else cfg.prefetch
  }

  /** The first token is always run, even when none is asked for. */
  function Tokens(cfg: Config): nat {
    if cfg.tokens < 1 then 1 else cfg.tokens
  }

  /** Exactly the configurations whose runs reach the end of the simulation. */
  predicate CanFinish(cfg: Config) {
    || ResidentTop(cfg) >= cfg.layers
    || cfg.window >= 1 || cfg.prefetch >= 1
    || ((cfg.window == 0 || cfg.prefetch == 0) && cfg.layers == 1)
  }

  /** In every other configuration, the layer that is never prefetched. */
  function StuckAt(cfg: Config): nat {
    if (cfg.window < 0 && cfg.prefetch < 0) || ResidentTop(cfg) >= 1 then ResidentTop(cfg) else 1
  }

  /** Such a configuration: two streamed layers, no window and no prefetching. */
  lemma UnfinishableExists()
    ensures var cfg := Config(2, 0, 0, 1, 1.0, 1.0, [1.0, 1.0, 1.0], 0.0, 1, false, 0);
      Runnable(cfg) && !CanFinish(cfg) && StuckAt(cfg) == 1
  {}

  /** The share of memory that `loaded` layers take. */
  function Usage(layerSizeMb: real, ramCapacityGb: real, loaded: nat): real {
    var capacity := ramCapacityGb * 1024.0;
    if capacity > 0.0 then loaded as real * layerSizeMb / capacity else 0.0
  }

  /** How much slower uploads are in three regions of memory usage. `pow5` stands for the real
      power 5^x of the third region. */
  function Penalty(usage: real, pow5: real -> real): (penalty: real)
    requires forall x: real :: pow5(x) > 0.0
    ensures penalty > 0.0
  {
    if usage < 0.65 then 1.0
    else if usage < 0.85 then 1.0 + (usage - 0.65) / 0.20 * 2.0
    else 3.0 * pow5((usage - 0.85) / 0.15)
  }

  /** The pressure is continuous where the regions meet, and never falls as usage rises. */
  lemma PenaltyGrows(u: real, v: real, pow5: real -> real)
    requires forall x: real :: pow5(x) > 0.0
    requires pow5(0.0) == 1.0 && forall x: real, y: real :: x <= y ==> pow5(x) <= pow5(y)
    requires u <= v
    ensures 1.0 <= Penalty(u, pow5) <= Penalty(v, pow5)
    ensures Penalty(0.65, pow5) == 1.0 && Penalty(0.75, pow5) == 2.0 && Penalty(0.85, pow5) == 3.0
    ensures Penalty(1.0, pow5) == 3.0 * pow5(1.0)
    ensures 0.65 <= u <= v < 0.85 ==> Penalty(v, pow5) - Penalty(u, pow5) == 10.0 * (v - u)
  {
    if v >= 0.85 {
      assert pow5(0.0) <= pow5((v - 0.85) / 0.15);
      if u >= 0.85 { assert pow5(0.0) <= pow5((u - 0.85) / 0.15) <= pow5((v - 0.85) / 0.15); }
    }
  }

  /** Upload latency under memory pressure. */
  function EffectiveUpload(upload: real, layerSizeMb: real, ramCapacityGb: real, pow5: real -> real,
                           loaded: nat): (ms: real)
    requires upload > 0.0 && forall x: real :: pow5(x) > 0.0
    ensures ms > 0.0
  {
    var usage := Usage(layerSizeMb, ramCapacityGb, loaded);
    PositiveProduct(upload, Penalty(usage, pow5));
    if usage < 0.65 then upload else upload * Penalty(usage, pow5)
  }

  /** A layer more on the device never makes uploads faster. */
  lemma UploadGrows(upload: real, layerSizeMb: real, ramCapacityGb: real, pow5: real -> real, less: nat, more: nat)
    requires upload > 0.0 && layerSizeMb >= 0.0 && less <= more && forall x: real :: pow5(x) > 0.0
    requires pow5(0.0) == 1.0 && forall x: real, y: real :: x <= y ==> pow5(x) <= pow5(y)
    ensures upload <= EffectiveUpload(upload, layerSizeMb, ramCapacityGb, pow5, less)
                   <= EffectiveUpload(upload, layerSizeMb, ramCapacityGb, pow5, more)
  {
    hide Usage, Penalty, EffectiveUpload;
    var u, v := Usage(layerSizeMb, ramCapacityGb, less), Usage(layerSizeMb, ramCapacityGb, more);
    UsageGrows(layerSizeMb, ramCapacityGb, less, more);
    PenaltyGrows(u, v, pow5);
    UploadIsProduct(upload, layerSizeMb, ramCapacityGb, pow5, less);
    UploadIsProduct(upload, layerSizeMb, ramCapacityGb, pow5, more);
    LargerProduct(upload, 1.0, Penalty(u, pow5));
    LargerProduct(upload, Penalty(u, pow5), Penalty(v, pow5));
  }

  lemma UploadIsProduct(upload: real, layerSizeMb: real, ramCapacityGb: real, pow5: real -> real, loaded: nat)
    requires upload > 0.0 && forall x: real :: pow5(x) > 0.0
    ensures EffectiveUpload(upload, layerSizeMb, ramCapacityGb, pow5, loaded) ==
      upload * Penalty(Usage(layerSizeMb, ramCapacityGb, loaded), pow5)
  {}

  lemma UsageGrows(layerSizeMb: real, ramCapacityGb: real, less: nat, more: nat)
    requires layerSizeMb >= 0.0 && less <= more
    ensures Usage(layerSizeMb, ramCapacityGb, less) <= Usage(layerSizeMb, ramCapacityGb, more)
  {
    LargerProduct(layerSizeMb, less as real, more as real);
    var capacity := ramCapacityGb * 1024.0;
    if capacity > 0.0 { LargerQuotient(less as real * layerSizeMb, more as real * layerSizeMb, capacity); }
  }

  lemma LargerProduct(a: real, b: real, c: real)
    requires a >= 0.0 && b <= c
    ensures a * b <= a * c
  {}

  lemma LargerQuotient(a: real, b: real, c: real)
    requires a <= b && c > 0.0
    ensures a / c <= b / c
  {}

  lemma PositiveProduct(a: real, b: real)
    requires a > 0.0 && b > 0.0
    ensures a * b > 0.0
  {}

  /** The configuration whose upload latency follows the memory-pressure formula. */
  function Pressured(cfg: Config, upload: real, layerSizeMb: real, ramCapacityGb: real, pow5: real -> real): (r: Config)
    requires cfg.layers >= 1 && cfg.workers >= 1 && cfg.compute > 0.0 && cfg.ssdRead > 0.0
    requires upload > 0.0 && (forall x: real :: pow5(x) > 0.0)
    ensures Runnable(r) && r == cfg.(uploadMs := r.uploadMs)
  {
    cfg.(uploadMs := seq(cfg.layers + 1, k requires 0 <= k =>
      EffectiveUpload(upload, layerSizeMb, ramCapacityGb, pow5, k)))
  }

  // ---------------------------------------------------------------- events

  datatype Kind =
    | PrefetchSubmit | ReadStart | ReadEnd | UploadSubmit | UploadStart | UploadEnd
    | ComputeEnd | EvictEnd | ResidentApply | ResidentApplyEnd | SimulationEnd

  datatype Event = Event(time: real, kind: Kind, layer: int)

  predicate Earliest(e: Event, events: multiset<Event>) {
    e in events && forall f :: f in events ==> e.time <= f.time
  }

  lemma {:induction false} EarliestExists(events: multiset<Event>)
    requires |events| > 0
    ensures exists e :: Earliest(e, events)
    decreases |events|
  {
    var x :| x in events;
    var rest := events - multiset{x};
    if |rest| == 0 {
      assert events == multiset{x};
      assert Earliest(x, events);
    } else {
      EarliestExists(rest);
      var y :| Earliest(y, rest);
      var m := if x.time <= y.time then x else y;
      forall f | f in events ensures m.time <= f.time { if f != x { assert f in rest; } }
      assert Earliest(m, events);
    }
  }

  // ---------------------------------------------------------------- per-layer stages

  datatype Tag =
    | Idle | Submitted | QueuedRead | Reading | ReadDone | QueuedUpload | Uploading
    | Applying | ApplyingEnd | Ready | Computing

  /** Where a layer is in the pipeline, and when the event that moves it on is due. */
  datatype Stage = At(tag: Tag, due: real)

  const AT_REST := At(Idle, 0.0)

  predicate InPipeline(t: Tag) {
    t.Submitted? || t.QueuedRead? || t.Reading? || t.ReadDone? || t.QueuedUpload? || t.Uploading?
  }

  predicate OnDevice(t: Tag) { t == Ready || t == Computing }

  predicate HasLive(t: Tag) { !t.Idle? && !t.Ready? }

  /** The kind of the one event that will move a layer out of this stage. */
  function LiveKind(t: Tag): Kind {
    match t
    case Submitted => PrefetchSubmit
    case QueuedRead => ReadStart
    case Reading => ReadEnd
    case ReadDone => UploadSubmit
    case QueuedUpload => UploadStart
    case Uploading => UploadEnd
    case Applying => ResidentApply
    case ApplyingEnd => ResidentApplyEnd
    case Computing => ComputeEnd
    case Idle => EvictEnd
    case Ready => EvictEnd
  }

  function LiveEvent(s: Stage, layer: int): Event { Event(s.due, LiveKind(s.tag), layer) }

  function LiveSet(s: Stage, layer: int): multiset<Event> {
    if HasLive(s.tag) then multiset{LiveEvent(s, layer)} else multiset{}
  }

  function Rank(t: Tag): nat {
    match t
    case Idle => 8
    case Submitted => 7
    case QueuedRead => 6
    case Reading => 5
    case ReadDone => 4
    case QueuedUpload => 3
    case Uploading => 2
    case Applying => 3
    case ApplyingEnd => 2
    case Ready => 1
    case Computing => 0
  }

  /** Pipeline steps left before every layer is computing: the inner termination measure. */
  function Work(stages: seq<Stage>): nat {
    if stages == [] then 0 else Rank(stages[0].tag) + Work(stages[1..])
  }

  lemma {:induction false} WorkAfter(stages: seq<Stage>, k: nat, s: Stage)
    requires k < |stages|
    ensures Work(stages[k := s]) == Work(stages) - Rank(stages[k].tag) + Rank(s.tag)
  {
    if k == 0 {
      assert stages[k := s][1..] == stages[1..];
    } else {
      WorkAfter(stages[1..], k - 1, s);
      assert stages[k := s][1..] == stages[1..][k - 1 := s];
    }
  }

  // ---------------------------------------------------------------- the queue against the stages

  /** A start marker of a task that did not have to queue; it fires before that task ends. */
  predicate Stale(e: Event, s: Stage) {
    && e.time < s.due
    && ((e.kind == ReadStart && s.tag == Reading) || (e.kind == UploadStart && s.tag == Uploading))
  }

  predicate Expected(e: Event, stages: seq<Stage>, now: real, ended: bool) {
    || e.kind == EvictEnd
    || (e.kind == SimulationEnd && ended && e.time == now)
    || (e.time >= now && 0 <= e.layer < |stages|
        && ((HasLive(stages[e.layer].tag) && e == LiveEvent(stages[e.layer], e.layer))
            || Stale(e, stages[e.layer])))
  }

  /** Every pending event is expected, and each layer has its one live event pending. */
  ghost predicate Queued(events: multiset<Event>, stages: seq<Stage>, now: real, ended: bool) {
    && (forall e :: e in events ==> Expected(e, stages, now, ended))
    && (forall l :: 0 <= l < |stages| && HasLive(stages[l].tag) ==> events[LiveEvent(stages[l], l)] == 1)
  }

  /** Time may advance to the earliest event that is not an eviction record. */
  lemma QueuedLater(events: multiset<Event>, stages: seq<Stage>, now: real, later: real)
    requires Queued(events, stages, now, false)
    requires forall e :: e in events && e.kind != EvictEnd ==> later <= e.time
    ensures Queued(events, stages, later, false)
  {
    forall e | e in events ensures Expected(e, stages, later, false) {
      assert Expected(e, stages, now, false);
    }
  }

  /** What a move of layer `l` to stage `s` may add: its next live event, stale markers, eviction records. */
  ghost predicate Added(added: multiset<Event>, l: nat, s: Stage, now: real) {
    && (HasLive(s.tag) ==> s.due >= now && added[LiveEvent(s, l)] == 1)
    && (forall e :: e in added ==>
          || e.kind == EvictEnd
          || (HasLive(s.tag) && e == LiveEvent(s, l))
          || (e.layer == l && e.time >= now && Stale(e, s)))
  }

  lemma AddsLive(l: nat, s: Stage, now: real)
    requires HasLive(s.tag) && s.due >= now
    ensures Added(multiset{LiveEvent(s, l)}, l, s, now)
  {}

  lemma AddsLiveAndMarker(l: nat, s: Stage, now: real, marker: Event)
    requires HasLive(s.tag) && s.due > now && marker.layer == l && marker.time == now && Stale(marker, s)
    ensures Added(multiset{LiveEvent(s, l), marker}, l, s, now)
  {
    assert marker != LiveEvent(s, l);
  }

  /** One layer changes stage: its live event is used up, the next one is added. */
  lemma QueuedStep(events: multiset<Event>, stages: seq<Stage>, now: real, l: nat, s: Stage, added: multiset<Event>)
    requires Queued(events, stages, now, false) && l < |stages|
    requires forall e :: e in events && Stale(e, stages[l]) ==> e.layer != l
    requires Added(added, l, s, now)
    ensures Queued(events - LiveSet(stages[l], l) + added, stages[l := s], now, false)
  {
    var rest, stages' := events - LiveSet(stages[l], l), stages[l := s];
    var events' := rest + added;
    forall e | e in rest ensures e.kind == EvictEnd || (e.layer != l && Expected(e, stages', now, false)) {
      assert Expected(e, stages, now, false);
    }
    forall e | e in events' ensures Expected(e, stages', now, false) {
      assert e in rest || e in added;
    }
    forall k | 0 <= k < |stages'| && HasLive(stages'[k].tag)
      ensures events'[LiveEvent(stages'[k], k)] == 1
    {
      var e := LiveEvent(stages'[k], k);
      assert k == l ==> rest[e] == 0;
      assert k != l ==> e !in added && rest[e] == events[e] == 1;
    }
  }

  function TagOf(stages: seq<Stage>, l: int): Tag {
    if 0 <= l < |stages| then stages[l].tag else Idle
  }

  // ---------------------------------------------------------------- the order of the stages

  /** Computed layers are at rest; only the current layer computes or is applied. */
  ghost predicate Ordered(stages: seq<Stage>, top: nat, current: nat, gpuBusyUntil: real, now: real) {
    && (forall l :: 0 <= l < |stages| ==> OrderedAt(stages[l], l, top, current, gpuBusyUntil))
    && (gpuBusyUntil <= now || (current < |stages| && stages[current].tag == Computing))
  }

  predicate OrderedAt(s: Stage, l: nat, top: nat, current: nat, gpuBusyUntil: real) {
    && (l < top ==> !InPipeline(s.tag) && (s.tag != Idle ==> l == current))
    && (l >= top ==> s.tag != Applying && s.tag != ApplyingEnd)
    && (l < current ==> s.tag == Idle)
    && (s.tag == Computing ==> l == current && s.due == gpuBusyUntil)
  }

  // ---------------------------------------------------------------- the order of computation

  /** The (token, layer) pairs computed before layer `layer` of token `token`. */
  function Schedule(token: nat, layer: nat, layers: nat): seq<(nat, nat)>
    decreases token, layer
  {
    if layer > 0 then Schedule(token, layer - 1, layers) + [(token, layer - 1)]
    else if token > 0 then Schedule(token - 1, layers, layers)
    else []
  }

  lemma {:induction false} ScheduleLength(token: nat, layer: nat, layers: nat)
    ensures |Schedule(token, layer, layers)| == token * layers + layer
    decreases token, layer
  {
    if layer > 0 { ScheduleLength(token, layer - 1, layers); }
    else if token > 0 { ScheduleLength(token - 1, layers, layers); }
  }

  /** Each pair occurs at exactly one position, and that position is in token-major order. */
  lemma {:induction false} ScheduleAt(token: nat, layer: nat, layers: nat, t: nat, l: nat)
    requires l < layers && layer <= layers
    requires t < token || (t == token && l < layer)
    ensures t * layers + l < |Schedule(token, layer, layers)|
    ensures Schedule(token, layer, layers)[t * layers + l] == (t, l)
    decreases token, layer
  {
    ScheduleLength(token, layer, layers);
    if layer > 0 {
      ScheduleLength(token, layer - 1, layers);
      if !(t == token && l == layer - 1) { ScheduleAt(token, layer - 1, layers, t, l); }
    } else {
      ScheduleAt(token - 1, layers, layers, t, l);
    }
  }

  /** The GPU time of `n` computes. */
  function BusyTime(n: nat, compute: real): real {
    if n == 0 then 0.0 else BusyTime(n - 1, compute) + compute
  }

  lemma {:induction false} BusyTimeIsProduct(n: nat, compute: real)
    ensures BusyTime(n, compute) == n as real * compute
  {
    if n > 0 {
      BusyTimeIsProduct(n - 1, compute);
      assert (n - 1) as real == n as real - 1.0;
    }
  }

  // ---------------------------------------------------------------- simulator states

  /** A simulator state. `stages`, `firstStart` and `inFlight` (the non-resident layers seen in
      flight at a token boundary) only record history; no step depends on them. */
  datatype Sim = Sim(
    now: real, events: multiset<Event>, ssdBusy: Pool, uploadBusy: Pool,
    gpuBusyUntil: real, gpuIdle: real, gpuBusy: real,
    token: nat, current: nat, log: seq<(nat, nat)>,
    stages: seq<Stage>, firstStart: real, inFlight: set<int>)

  function Initial(cfg: Config): Sim {
    Sim(0.0, multiset{}, [], [], 0.0, 0.0, 0.0, 0, 0, [], seq(cfg.layers, _ => AT_REST), 0.0, {})
  }

  function Submit(cfg: Config, s: Sim, l: nat): (r: Sim)
    requires |s.stages| == cfg.layers
    ensures r == s.(events := r.events, stages := r.stages)
    ensures |r.stages| == cfg.layers
  {
    if l >= cfg.layers || l < ResidentTop(cfg) || s.stages[l].tag != Idle then s
    else s.(events := s.events + multiset{Event(s.now, PrefetchSubmit, l)},
            stages := s.stages[l := At(Submitted, s.now)])
  }

  function SubmitRange(cfg: Config, s: Sim, lo: nat, hi: nat): (r: Sim)
    requires |s.stages| == cfg.layers
    ensures r == s.(events := r.events, stages := r.stages)
    ensures |r.stages| == cfg.layers
    decreases hi
  {
    if hi <= lo then s else Submit(cfg, SubmitRange(cfg, s, lo, hi - 1), hi - 1)
  }

  function AheadEnd(cfg: Config, last: nat): nat { last + 1 + if Lookahead(cfg) > 0 then Lookahead(cfg) else 0 }

  function PrefetchAhead(cfg: Config, s: Sim, last: nat): Sim
    requires |s.stages| == cfg.layers
  {
    SubmitRange(cfg, s, last + 1, AheadEnd(cfg, last))
  }

  function CheckResidentReady(cfg: Config, s: Sim): Sim
    requires |s.stages| == cfg.layers
  {
    var l := s.current;
    if l < ResidentTop(cfg) && s.stages[l].tag != Ready && s.stages[l].tag != Computing
    then s.(events := s.events + multiset{Event(s.now, ResidentApply, l)}, stages := s.stages[l := At(Applying, s.now)])
    else s
  }

  /** How many layers `StartToken` walks before its look-ahead window ends. */
  function FirstWindow(cfg: Config): nat {
    if Lookahead(cfg) < 0 then 0
    else if Lookahead(cfg) + 1 < cfg.layers then Lookahead(cfg) + 1 else cfg.layers
  }

  function StartToken(cfg: Config, s: Sim): Sim
    requires |s.stages| == cfg.layers
  {
    SubmitRange(cfg, CheckResidentReady(cfg, s), 0, FirstWindow(cfg))
  }

  function TryStartCompute(cfg: Config, s: Sim): Sim
    requires |s.stages| == cfg.layers && s.current < cfg.layers
  {
    if s.stages[s.current].tag != Ready || s.gpuBusyUntil > s.now then s else Started(cfg, s)
  }

  /** How long the GPU has been idle since its last compute; nothing before the first. */
  function IdleGap(busyUntil: real, now: real): real {
    if busyUntil > 0.0 && now > busyUntil then now - busyUntil else 0.0
  }

  function Started(cfg: Config, s: Sim): Sim
    requires |s.stages| == cfg.layers && s.current < cfg.layers
  {
    var end := s.now + cfg.compute;
    s.(gpuIdle := s.gpuIdle + IdleGap(s.gpuBusyUntil, s.now),
       gpuBusyUntil := end, gpuBusy := s.gpuBusy + cfg.compute,
       events := s.events + multiset{Event(end, ComputeEnd, s.current)},
       stages := s.stages[s.current := At(Computing, end)],
       firstStart := if s.log == [] then s.now else s.firstStart)
  }

  /** The non-resident layers that are anywhere in the pipeline. */
  function Streaming(cfg: Config, stages: seq<Stage>): set<int> {
    set l | ResidentTop(cfg) <= l < |stages| && stages[l].tag != Idle
  }

  function FinishToken(cfg: Config, s: Sim): Sim
    requires |s.stages| == cfg.layers
  {
    var s1 := TokenDone(cfg, s);
    if s1.token < Tokens(cfg) then StartToken(cfg, s1.(current := 0))
    else s1.(events := s1.events + multiset{Event(s1.now, SimulationEnd, -1)})
  }

  function TokenDone(cfg: Config, s: Sim): Sim {
    s.(token := s.token + 1, inFlight := s.inFlight + Streaming(cfg, s.stages))
  }

  function AdvanceLayer(cfg: Config, s: Sim): Sim
    requires |s.stages| == cfg.layers
  {
    var s1 := s.(current := s.current + 1);
    if s1.current >= cfg.layers then FinishToken(cfg, s1)
    else TryStartCompute(cfg, CheckResidentReady(cfg, s1))
  }

  // ---------------------------------------------------------------- event handlers

  /** The tags of a pooled task while it waits for a worker and while it runs. */
  datatype Task = Task(queued: Tag, running: Tag)

  const READ := Task(QueuedRead, Reading)
  const UPLOAD := Task(QueuedUpload, Uploading)

  function BegunStage(task: Task, delayed: bool, start: real, duration: real): Stage {
    if delayed then At(task.queued, start) else At(task.running, start + duration)
  }

  /** A running task adds its end event and a start marker; a queued one only its start. */
  function BegunEvents(l: nat, task: Task, delayed: bool, start: real, duration: real): multiset<Event> {
    var live := LiveEvent(BegunStage(task, delayed, start, duration), l);
    if delayed then multiset{live} else multiset{live, Event(start, LiveKind(task.queued), l)}
  }

  /** A task of layer `l` gets its worker: it runs from now, or queues until `start`. */
  function Begin(s: Sim, l: nat, task: Task, delayed: bool, start: real, duration: real): Sim
    requires l < |s.stages|
  {
    s.(events := s.events + BegunEvents(l, task, delayed, start, duration),
       stages := s.stages[l := BegunStage(task, delayed, start, duration)])
  }

  function OnPrefetchSubmit(cfg: Config, s: Sim, l: nat): Sim
    requires |s.stages| == cfg.layers && l < cfg.layers && cfg.workers >= 1
  {
    var t := s.stages[l].tag;
    if l < ResidentTop(cfg) || OnDevice(t) || t == Reading || t == QueuedRead then s
    else
      var start := StartTime(s.ssdBusy, cfg.workers, s.now);
      Begin(s.(ssdBusy := Acquired(s.ssdBusy, cfg.workers, s.now, cfg.ssdRead)),
            l, READ, |s.ssdBusy| >= cfg.workers, start, cfg.ssdRead)
  }

  function OnReadStart(cfg: Config, s: Sim, l: nat): Sim
    requires |s.stages| == cfg.layers && l < cfg.layers
  {
    if s.stages[l].tag != QueuedRead then s
    else
      var end := s.now + cfg.ssdRead;
      s.(events := s.events + multiset{Event(end, ReadEnd, l)}, stages := s.stages[l := At(Reading, end)])
  }

  function OnReadEnd(cfg: Config, s: Sim, l: nat): Sim
    requires |s.stages| == cfg.layers && l < cfg.layers
  {
    PrefetchAhead(cfg,
      s.(events := s.events + multiset{Event(s.now, UploadSubmit, l)}, stages := s.stages[l := At(ReadDone, s.now)]), l)
  }

  /** `ms` is the effective upload latency at the time of the event. */
  function OnUploadSubmit(cfg: Config, s: Sim, l: nat, ms: real): Sim
    requires |s.stages| == cfg.layers && l < cfg.layers && cfg.workers >= 1
  {
    var t := s.stages[l].tag;
    if t == Uploading || t == QueuedUpload then s
    else
      var start := StartTime(s.uploadBusy, cfg.workers, s.now);
      Begin(s.(uploadBusy := Acquired(s.uploadBusy, cfg.workers, s.now, ms)),
            l, UPLOAD, |s.uploadBusy| >= cfg.workers, start, ms)
  }

  function OnUploadStart(cfg: Config, s: Sim, l: nat, ms: real): Sim
    requires |s.stages| == cfg.layers && l < cfg.layers
  {
    if s.stages[l].tag != QueuedUpload then s
    else
      var end := s.now + ms;
      s.(events := s.events + multiset{Event(end, UploadEnd, l)}, stages := s.stages[l := At(Uploading, end)])
  }

  function OnUploadEnd(cfg: Config, s: Sim, l: nat): Sim
    requires |s.stages| == cfg.layers && l < cfg.layers && s.current < cfg.layers
  {
    TryStartCompute(cfg, s.(stages := s.stages[l := At(Ready, s.now)]))
  }

  /** Applying a resident layer takes 30% of an upload. */
  function OnResidentApply(cfg: Config, s: Sim, l: nat, ms: real): Sim
    requires |s.stages| == cfg.layers && l < cfg.layers
  {
    var end := s.now + ms * 0.3;
    s.(events := s.events + multiset{Event(end, ResidentApplyEnd, l)}, stages := s.stages[l := At(ApplyingEnd, end)])
  }

  function OnResidentApplyEnd(cfg: Config, s: Sim, l: nat): Sim
    requires |s.stages| == cfg.layers && l < cfg.layers && s.current < cfg.layers
  {
    TryStartCompute(cfg, s.(stages := s.stages[l := At(Ready, s.now)]))
  }

  /** The layer is released: evicted when it is not resident. */
  function Released(cfg: Config, s: Sim, l: nat): Sim
    requires |s.stages| == cfg.layers && l < cfg.layers
  {
    s.(stages := s.stages[l := AT_REST],
       events := if l < ResidentTop(cfg) then s.events
                 else s.events + multiset{Event(s.now + cfg.eviction, EvictEnd, l)})
  }

  /** After a compute: release the layer, look ahead, and record it in the log. */
  function Computed(cfg: Config, s: Sim, l: nat): Sim
    requires |s.stages| == cfg.layers && l < cfg.layers
  {
    var s2 := PrefetchAhead(cfg, Released(cfg, s, l), l);
    s2.(log := s2.log + [(s2.token, l)])
  }

  function OnComputeEnd(cfg: Config, s: Sim, l: nat): Sim
    requires |s.stages| == cfg.layers && l < cfg.layers
  {
    AdvanceLayer(cfg, Computed(cfg, s, l))
  }

  predicate AboutLayer(k: Kind) { k != EvictEnd && k != SimulationEnd }

  ghost predicate CanHandle(cfg: Config, s: Sim, e: Event) {
    && cfg.workers >= 1 && |s.stages| == cfg.layers
    && (AboutLayer(e.kind) ==> 0 <= e.layer < cfg.layers && s.current < cfg.layers)
  }

  function Ticked(s: Sim, e: Event): Sim { s.(now := MaxReal(s.now, e.time)) }

  function Popped(s: Sim, e: Event): Sim { Ticked(s, e).(events := s.events - multiset{e}) }

  /** Take event `e` off the queue, advance the clock and dispatch. */
  function Handle(cfg: Config, s: Sim, e: Event, ms: real): Sim
    requires CanHandle(cfg, s, e)
  {
    var s := Popped(s, e);
    match e.kind
    case PrefetchSubmit => OnPrefetchSubmit(cfg, s, e.layer)
    case ReadStart => OnReadStart(cfg, s, e.layer)
    case ReadEnd => OnReadEnd(cfg, s, e.layer)
    case UploadSubmit => OnUploadSubmit(cfg, s, e.layer, ms)
    case UploadStart => OnUploadStart(cfg, s, e.layer, ms)
    case UploadEnd => OnUploadEnd(cfg, s, e.layer)
    case ComputeEnd => OnComputeEnd(cfg, s, e.layer)
    case ResidentApply => OnResidentApply(cfg, s, e.layer, ms)
    case ResidentApplyEnd => OnResidentApplyEnd(cfg, s, e.layer)
    case EvictEnd => s
    case SimulationEnd => s
  }

  // ---------------------------------------------------------------- the invariant

  ghost predicate Structured(cfg: Config, s: Sim) {
    && |s.stages| == cfg.layers && s.current <= cfg.layers && s.now >= 0.0
    && Ordered(s.stages, ResidentTop(cfg), s.current, s.gpuBusyUntil, s.now)
    && Queued(s.events, s.stages, s.now, s.current == cfg.layers)
  }

  function Computes(s: Sim): nat { |s.log| + if TagOf(s.stages, s.current) == Computing then 1 else 0 }

  ghost predicate Accounted(cfg: Config, s: Sim) {
    && s.log == Schedule(s.token, if s.token == Tokens(cfg) then 0 else s.current, cfg.layers)
    && s.gpuBusy == BusyTime(Computes(s), cfg.compute)
    && (Computes(s) == 0 ==> s.gpuBusyUntil == 0.0 && s.gpuIdle == 0.0)
    && (Computes(s) > 0 ==> s.gpuBusyUntil == s.firstStart + s.gpuBusy + s.gpuIdle && s.gpuBusyUntil > 0.0)
    && s.inFlight == {}
  }

  /** A layer that can never be prefetched stops the run where it is. */
  ghost predicate Stranded(cfg: Config, s: Sim) {
    s.token == 0 && s.current <= StuckAt(cfg) < |s.stages| && s.stages[StuckAt(cfg)].tag == Idle
  }

  /** Between events the current layer is on its way, except where the configuration strands it. */
  ghost predicate Progressing(cfg: Config, s: Sim)
    requires |s.stages| == cfg.layers
  {
    && (s.current < cfg.layers ==> s.token < Tokens(cfg) && s.stages[s.current].tag != Ready)
    && (s.current < cfg.layers && (CanFinish(cfg) || s.current < StuckAt(cfg)) ==> s.stages[s.current].tag != Idle)
    && (s.current >= cfg.layers ==>
          s.token == Tokens(cfg) && s.now == s.gpuBusyUntil && Event(s.now, SimulationEnd, -1) in s.events)
    && (!CanFinish(cfg) ==> Stranded(cfg, s))
  }

  ghost predicate Inv(cfg: Config, s: Sim) {
    Structured(cfg, s) && Accounted(cfg, s) && Progressing(cfg, s)
  }

  // ---------------------------------------------------------------- moves

  /** `y` is `x` with layer `l` moved to stage `s`. */
  ghost predicate Moved(cfg: Config, x: Sim, y: Sim, l: nat, s: Stage, added: multiset<Event>)
    requires l < |x.stages|
  {
    && y.stages == x.stages[l := s]
    && y.events == x.events - LiveSet(x.stages[l], l) + added
    && Added(added, l, s, x.now)
    && y.now == x.now && y.current == x.current < cfg.layers
    && OrderedAt(s, l, ResidentTop(cfg), y.current, y.gpuBusyUntil)
    && (y.gpuBusyUntil == x.gpuBusyUntil || l == x.current)
    && (l == x.current ==> y.gpuBusyUntil <= y.now || s.tag == Computing)
  }

  lemma MoveKeepsStructure(cfg: Config, x: Sim, y: Sim, l: nat, s: Stage, added: multiset<Event>)
    requires Structured(cfg, x) && l < |x.stages| && Moved(cfg, x, y, l, s, added)
    requires forall e :: e in x.events && Stale(e, x.stages[l]) ==> e.layer != l
    ensures Structured(cfg, y)
  {
    QueuedStep(x.events, x.stages, x.now, l, s, added);
  }

  lemma SubmitKeeps(cfg: Config, s: Sim, l: nat)
    requires Structured(cfg, s) && s.current <= l && s.current < cfg.layers
    ensures Structured(cfg, Submit(cfg, s, l))
    ensures l < cfg.layers && l >= ResidentTop(cfg) && s.stages[l].tag == Idle
            ==> Submit(cfg, s, l).stages == s.stages[l := At(Submitted, s.now)]
    ensures !(l < cfg.layers && l >= ResidentTop(cfg) && s.stages[l].tag == Idle) ==> Submit(cfg, s, l) == s
  {
    if l < cfg.layers && l >= ResidentTop(cfg) && s.stages[l].tag == Idle {
      MoveKeepsStructure(cfg, s, Submit(cfg, s, l), l, At(Submitted, s.now), multiset{Event(s.now, PrefetchSubmit, l)});
    }
  }

  /** A layer after look-ahead: untouched, or newly submitted because it was at rest. */
  predicate SubmittedAt(a: Stage, b: Stage, k: nat, top: nat, lo: nat, hi: nat) {
    if k >= top && lo <= k < hi && a.tag == Idle then b.tag == Submitted else b == a
  }

  lemma {:induction false} SubmitRangeStages(cfg: Config, s: Sim, lo: nat, hi: nat)
    requires |s.stages| == cfg.layers
    ensures forall k :: 0 <= k < cfg.layers ==>
              SubmittedAt(s.stages[k], SubmitRange(cfg, s, lo, hi).stages[k], k, ResidentTop(cfg), lo, hi)
    decreases hi
  {
    if hi > lo { SubmitRangeStages(cfg, s, lo, hi - 1); }
  }

  lemma {:induction false} SubmitRangeWork(cfg: Config, s: Sim, lo: nat, hi: nat)
    requires |s.stages| == cfg.layers
    ensures Work(SubmitRange(cfg, s, lo, hi).stages) <= Work(s.stages)
    decreases hi
  {
    if hi > lo {
      SubmitRangeWork(cfg, s, lo, hi - 1);
      var mid := SubmitRange(cfg, s, lo, hi - 1);
      if hi - 1 < cfg.layers { WorkAfter(mid.stages, hi - 1, At(Submitted, mid.now)); }
    }
  }

  lemma {:induction false} SubmitRangeKeeps(cfg: Config, s: Sim, lo: nat, hi: nat)
    requires Structured(cfg, s) && s.current <= lo && s.current < cfg.layers
    ensures Structured(cfg, SubmitRange(cfg, s, lo, hi))
    decreases hi
  {
    if hi > lo {
      SubmitRangeKeeps(cfg, s, lo, hi - 1);
      SubmitKeeps(cfg, SubmitRange(cfg, s, lo, hi - 1), hi - 1);
    }
  }

  lemma ResidentReadyKeeps(cfg: Config, s: Sim)
    requires Structured(cfg, s) && s.current < cfg.layers
    requires s.current < ResidentTop(cfg) ==> s.stages[s.current].tag == Idle
    ensures var r := CheckResidentReady(cfg, s);
      && Structured(cfg, r)
      && r == s.(events := r.events, stages := r.stages)
      && r.stages == if s.current < ResidentTop(cfg) then s.stages[s.current := At(Applying, s.now)] else s.stages
  {
    if s.current < ResidentTop(cfg) {
      MoveKeepsStructure(cfg, s, CheckResidentReady(cfg, s), s.current, At(Applying, s.now),
                         multiset{Event(s.now, ResidentApply, s.current)});
    }
  }

  lemma TryStartStructure(cfg: Config, s: Sim)
    requires Structured(cfg, s) && cfg.compute > 0.0
    requires s.current < cfg.layers
    ensures Structured(cfg, TryStartCompute(cfg, s))
    ensures s.stages[s.current].tag == Ready ==> s.gpuBusyUntil <= s.now
    ensures s.stages[s.current].tag != Ready ==> TryStartCompute(cfg, s) == s
  {
    hide Queued;
    var l := s.current;
    if s.stages[l].tag == Ready {
      MoveKeepsStructure(cfg, s, TryStartCompute(cfg, s), l, At(Computing, s.now + cfg.compute),
                         multiset{Event(s.now + cfg.compute, ComputeEnd, l)});
    }
  }

  /** Starting the GPU keeps the invariants and the identity wall = first start + busy + idle. */
  lemma TryStartKeeps(cfg: Config, s: Sim)
    requires Structured(cfg, s) && Accounted(cfg, s) && cfg.compute > 0.0
    requires s.current < cfg.layers
    ensures var r := TryStartCompute(cfg, s);
      && Structured(cfg, r) && Accounted(cfg, r)
      && r.current == s.current && r.token == s.token && r.now == s.now
      && r.stages == if s.stages[s.current].tag == Ready
                     then s.stages[s.current := At(Computing, s.now + cfg.compute)] else s.stages
  {
    TryStartStructure(cfg, s);
  }

  // ---------------------------------------------------------------- every event keeps the invariant

  /** Lexicographic progress: tokens, then layers, then pipeline work, then pending events. */
  predicate Progressed(s: Sim, r: Sim) {
    || r.token > s.token
    || (r.token == s.token && r.current > s.current)
    || (r.token == s.token && r.current == s.current
        && (Work(r.stages) < Work(s.stages) || (r.stages == s.stages && |r.events| < |s.events|)))
  }

  /** What a handler needs to know about its own layer. */
  predicate LocalAt(cfg: Config, x: Sim, l: nat, t: Tag) {
    && l < |x.stages| == cfg.layers && x.current < cfg.layers && x.stages[l].tag == t
    && OrderedAt(x.stages[l], l, ResidentTop(cfg), x.current, x.gpuBusyUntil)
    && (l == x.current && t != Computing ==> x.gpuBusyUntil <= x.now)
  }

  lemma TickKeeps(cfg: Config, s: Sim, e: Event)
    requires Structured(cfg, s) && s.current < cfg.layers && Earliest(e, s.events)
    ensures Structured(cfg, Ticked(s, e))
    ensures e.kind != EvictEnd ==> Ticked(s, e).now == e.time
    ensures 0 <= e.layer < cfg.layers ==> LocalAt(cfg, Ticked(s, e), e.layer, s.stages[e.layer].tag)
  {
    assert Expected(e, s.stages, s.now, false);
    forall f | f in s.events && f.kind != EvictEnd ensures MaxReal(s.now, e.time) <= f.time {
      assert Expected(f, s.stages, s.now, false);
    }
    QueuedLater(s.events, s.stages, s.now, MaxReal(s.now, e.time));
  }

  ghost predicate Fires(cfg: Config, s: Sim, e: Event) {
    && Runnable(cfg) && Inv(cfg, s) && Earliest(e, s.events) && s.current < cfg.layers
    && 0 <= e.layer < cfg.layers && HasLive(s.stages[e.layer].tag) && e == LiveEvent(s.stages[e.layer], e.layer)
  }

  /** A live event fires: its layer moves from its stage to `t`, nothing else changes. */
  lemma FireKeeps(cfg: Config, s: Sim, e: Event, r: Sim, t: Stage, added: multiset<Event>)
    requires Fires(cfg, s, e)
    requires Moved(cfg, Ticked(s, e), r, e.layer, t, added)
    ensures Structured(cfg, r)
    ensures Work(r.stages) == Work(s.stages) - Rank(s.stages[e.layer].tag) + Rank(t.tag)
  {
    TickKeeps(cfg, s, e);
    MoveKeepsStructure(cfg, Ticked(s, e), r, e.layer, t, added);
    WorkAfter(s.stages, e.layer, t);
  }

  lemma StillAccounted(cfg: Config, s: Sim, r: Sim)
    requires Accounted(cfg, s)
    requires r == s.(now := r.now, events := r.events, stages := r.stages,
                     ssdBusy := r.ssdBusy, uploadBusy := r.uploadBusy)
    requires TagOf(r.stages, s.current) == Computing <==> TagOf(s.stages, s.current) == Computing
    ensures Accounted(cfg, r)
  {}

  lemma StillProgressing(cfg: Config, s: Sim, r: Sim)
    requires |s.stages| == |r.stages| == cfg.layers && Progressing(cfg, s)
    requires r.token == s.token && r.current == s.current < cfg.layers
    requires r.stages[s.current].tag != Ready
    requires r.stages[s.current].tag == Idle ==> s.stages[s.current].tag == Idle
    requires !CanFinish(cfg) ==> r.stages[StuckAt(cfg)].tag == Idle
    ensures Progressing(cfg, r)
  {}

  /** A live event that neither readies nor idles its layer. */
  lemma FireOnwards(cfg: Config, s: Sim, e: Event, r: Sim, t: Stage, added: multiset<Event>)
    requires Fires(cfg, s, e) && s.stages[e.layer].tag != Computing
    requires Moved(cfg, Ticked(s, e), r, e.layer, t, added)
    requires r == Ticked(s, e).(events := r.events, stages := r.stages,
                                ssdBusy := r.ssdBusy, uploadBusy := r.uploadBusy)
    requires HasLive(t.tag) && t.tag != Computing
    requires Rank(t.tag) < Rank(s.stages[e.layer].tag)
    ensures Inv(cfg, r) && Progressed(s, r) && Work(r.stages) < Work(s.stages)
  {
    FireKeeps(cfg, s, e, r, t, added);
    StillAccounted(cfg, s, r);
    StillProgressing(cfg, s, r);
  }

  /** What handling `e` in `s` must deliver. */
  ghost predicate Kept(cfg: Config, s: Sim, r: Sim) { Inv(cfg, r) && Progressed(s, r) }

  lemma BeginMoves(cfg: Config, x: Sim, p: Sim, l: nat, task: Task, delayed: bool, start: real, duration: real)
    requires task == READ || task == UPLOAD
    requires l < |x.stages| && x.current < cfg.layers && l >= ResidentTop(cfg) && x.current <= l
    requires p == x.(events := x.events - LiveSet(x.stages[l], l), ssdBusy := p.ssdBusy, uploadBusy := p.uploadBusy)
    requires l == x.current ==> x.gpuBusyUntil <= x.now
    requires duration > 0.0 && start >= x.now && (!delayed ==> start == x.now)
    ensures Moved(cfg, x, Begin(p, l, task, delayed, start, duration), l, BegunStage(task, delayed, start, duration),
                  BegunEvents(l, task, delayed, start, duration))
  {
    if delayed {
      AddsLive(l, At(task.queued, start), x.now);
    } else {
      AddsLiveAndMarker(l, At(task.running, start + duration), x.now, Event(start, LiveKind(task.queued), l));
    }
  }

  lemma LiveStage(s: Sim, e: Event)
    requires 0 <= e.layer < |s.stages| && HasLive(s.stages[e.layer].tag)
    requires e == LiveEvent(s.stages[e.layer], e.layer)
    ensures e.kind == PrefetchSubmit <==> s.stages[e.layer].tag == Submitted
    ensures e.kind == UploadSubmit <==> s.stages[e.layer].tag == ReadDone
  {}

  lemma ComputingStage(s: Sim, e: Event)
    requires 0 <= e.layer < |s.stages| && HasLive(s.stages[e.layer].tag)
    requires e == LiveEvent(s.stages[e.layer], e.layer)
    ensures e.kind == ComputeEnd <==> s.stages[e.layer].tag == Computing
  {}

  lemma PrefetchSubmitMoves(cfg: Config, s: Sim, e: Event, delayed: bool, start: real)
    requires cfg.ssdRead > 0.0 && cfg.workers >= 1 && 0 <= e.layer && LocalAt(cfg, Ticked(s, e), e.layer, Submitted)
    requires e == LiveEvent(s.stages[e.layer], e.layer)
    requires delayed == (|s.ssdBusy| >= cfg.workers) && start == StartTime(s.ssdBusy, cfg.workers, Popped(s, e).now)
    ensures var r := OnPrefetchSubmit(cfg, Popped(s, e), e.layer);
      && Moved(cfg, Ticked(s, e), r, e.layer, BegunStage(READ, delayed, start, cfg.ssdRead),
               BegunEvents(e.layer, READ, delayed, start, cfg.ssdRead))
      && r == Ticked(s, e).(events := r.events, stages := r.stages, ssdBusy := r.ssdBusy, uploadBusy := r.uploadBusy)
  {
    var p := Popped(s, e);
    var q := p.(ssdBusy := Acquired(p.ssdBusy, cfg.workers, p.now, cfg.ssdRead));
    assert OnPrefetchSubmit(cfg, p, e.layer) == Begin(q, e.layer, READ, delayed, start, cfg.ssdRead);
    BeginMoves(cfg, Ticked(s, e), q, e.layer, READ, delayed, start, cfg.ssdRead);
  }

  lemma PrefetchSubmitKeeps(cfg: Config, s: Sim, e: Event)
    requires Fires(cfg, s, e) && e.kind == PrefetchSubmit
    ensures Kept(cfg, s, OnPrefetchSubmit(cfg, Popped(s, e), e.layer))
  {
    hide Added, Queued, Computes, InPipeline, ResidentTop, Ordered, Work, Tokens, OrderedAt, Earliest, Begin;
    hide BusyTime;
    var delayed, start := |s.ssdBusy| >= cfg.workers, StartTime(s.ssdBusy, cfg.workers, Popped(s, e).now);
    LiveStage(s, e);
    TickKeeps(cfg, s, e);
    PrefetchSubmitMoves(cfg, s, e, delayed, start);
    FireOnwards(cfg, s, e, OnPrefetchSubmit(cfg, Popped(s, e), e.layer),
                BegunStage(READ, delayed, start, cfg.ssdRead), BegunEvents(e.layer, READ, delayed, start, cfg.ssdRead));
  }

  lemma ReadStartMoves(cfg: Config, s: Sim, e: Event)
    requires cfg.ssdRead > 0.0 && 0 <= e.layer && LocalAt(cfg, Ticked(s, e), e.layer, QueuedRead)
    requires e == LiveEvent(s.stages[e.layer], e.layer)
    ensures var t := At(Reading, MaxReal(s.now, e.time) + cfg.ssdRead);
      Moved(cfg, Ticked(s, e), OnReadStart(cfg, Popped(s, e), e.layer), e.layer, t, multiset{LiveEvent(t, e.layer)})
  {
    AddsLive(e.layer, At(Reading, MaxReal(s.now, e.time) + cfg.ssdRead), MaxReal(s.now, e.time));
  }

  lemma ReadStartKeeps(cfg: Config, s: Sim, e: Event)
    requires Fires(cfg, s, e) && e.kind == ReadStart
    ensures Kept(cfg, s, OnReadStart(cfg, Popped(s, e), e.layer))
  {
    hide ResidentTop, Progressing, OrderedAt, Tokens, Stale, Added, Progressed, StuckAt, Accounted, Queued;
    hide Ordered;
    TickKeeps(cfg, s, e);
    ReadStartMoves(cfg, s, e);
    var t := At(Reading, e.time + cfg.ssdRead);
    FireOnwards(cfg, s, e, OnReadStart(cfg, Popped(s, e), e.layer), t, multiset{LiveEvent(t, e.layer)});
  }

  lemma UploadSubmitMoves(cfg: Config, s: Sim, e: Event, ms: real, delayed: bool, start: real)
    requires ms > 0.0 && cfg.workers >= 1 && 0 <= e.layer && LocalAt(cfg, Ticked(s, e), e.layer, ReadDone)
    requires e == LiveEvent(s.stages[e.layer], e.layer)
    requires delayed == (|s.uploadBusy| >= cfg.workers)
    requires start == StartTime(s.uploadBusy, cfg.workers, Popped(s, e).now)
    ensures var r := OnUploadSubmit(cfg, Popped(s, e), e.layer, ms);
      && Moved(cfg, Ticked(s, e), r, e.layer, BegunStage(UPLOAD, delayed, start, ms),
               BegunEvents(e.layer, UPLOAD, delayed, start, ms))
      && r == Ticked(s, e).(events := r.events, stages := r.stages, ssdBusy := r.ssdBusy, uploadBusy := r.uploadBusy)
  {
    var p := Popped(s, e);
    var q := p.(uploadBusy := Acquired(p.uploadBusy, cfg.workers, p.now, ms));
    assert OnUploadSubmit(cfg, p, e.layer, ms) == Begin(q, e.layer, UPLOAD, delayed, start, ms);
    BeginMoves(cfg, Ticked(s, e), q, e.layer, UPLOAD, delayed, start, ms);
  }

  lemma UploadSubmitKeeps(cfg: Config, s: Sim, e: Event, ms: real)
    requires Fires(cfg, s, e) && e.kind == UploadSubmit && ms > 0.0
    ensures Kept(cfg, s, OnUploadSubmit(cfg, Popped(s, e), e.layer, ms))
  {
    hide Moved, OnUploadSubmit, Queued, Ordered;
    var delayed, start := |s.uploadBusy| >= cfg.workers, StartTime(s.uploadBusy, cfg.workers, Popped(s, e).now);
    LiveStage(s, e);
    TickKeeps(cfg, s, e);
    UploadSubmitMoves(cfg, s, e, ms, delayed, start);
    FireOnwards(cfg, s, e, OnUploadSubmit(cfg, Popped(s, e), e.layer, ms),
                BegunStage(UPLOAD, delayed, start, ms), BegunEvents(e.layer, UPLOAD, delayed, start, ms));
  }

  lemma UploadStartMoves(cfg: Config, s: Sim, e: Event, ms: real)
    requires ms > 0.0 && 0 <= e.layer && LocalAt(cfg, Ticked(s, e), e.layer, QueuedUpload)
    requires e == LiveEvent(s.stages[e.layer], e.layer)
    ensures var t := At(Uploading, MaxReal(s.now, e.time) + ms);
      Moved(cfg, Ticked(s, e), OnUploadStart(cfg, Popped(s, e), e.layer, ms), e.layer, t,
        multiset{LiveEvent(t, e.layer)})
  {
    AddsLive(e.layer, At(Uploading, MaxReal(s.now, e.time) + ms), MaxReal(s.now, e.time));
  }

  lemma UploadStartKeeps(cfg: Config, s: Sim, e: Event, ms: real)
    requires Fires(cfg, s, e) && e.kind == UploadStart && ms > 0.0
    ensures Kept(cfg, s, OnUploadStart(cfg, Popped(s, e), e.layer, ms))
  {
    hide StuckAt, LiveSet, Earliest, InPipeline, CanFinish, OrderedAt, Queued, Ordered;
    TickKeeps(cfg, s, e);
    UploadStartMoves(cfg, s, e, ms);
    var t := At(Uploading, e.time + ms);
    FireOnwards(cfg, s, e, OnUploadStart(cfg, Popped(s, e), e.layer, ms), t, multiset{LiveEvent(t, e.layer)});
  }

  lemma ResidentApplyKeeps(cfg: Config, s: Sim, e: Event, ms: real)
    requires Fires(cfg, s, e) && e.kind == ResidentApply && ms > 0.0
    ensures Kept(cfg, s, OnResidentApply(cfg, Popped(s, e), e.layer, ms))
  {
    hide Runnable, Stranded, Stale, Progressing, Schedule, Accounted, BusyTime, Computes, Tokens, MaxReal;
    hide Work, CanFinish, Progressed, StuckAt, Earliest, ResidentTop, Queued, Ordered;
    TickKeeps(cfg, s, e);
    FireOnwards(cfg, s, e, OnResidentApply(cfg, Popped(s, e), e.layer, ms), At(ApplyingEnd, e.time + ms * 0.3),
                multiset{Event(e.time + ms * 0.3, ResidentApplyEnd, e.layer)});
  }

  /** The layer becomes ready; the GPU starts at once when it is the current layer. */
  function Readied(s: Sim, e: Event): Sim
    requires 0 <= e.layer < |s.stages|
  {
    var p := Popped(s, e);
    p.(stages := p.stages[e.layer := At(Ready, p.now)])
  }

  lemma ReadiedKeeps(cfg: Config, s: Sim, e: Event)
    requires Fires(cfg, s, e) && (e.kind == UploadEnd || e.kind == ResidentApplyEnd)
    ensures Structured(cfg, Readied(s, e)) && Accounted(cfg, Readied(s, e))
    ensures Work(Readied(s, e).stages) < Work(s.stages)
  {
    hide Work, Runnable, Computes, Structured, BusyTime, Queued, Ordered;
    TickKeeps(cfg, s, e);
    FireKeeps(cfg, s, e, Readied(s, e), At(Ready, Popped(s, e).now), multiset{});
    StillAccounted(cfg, s, Readied(s, e));
  }

  lemma BecomesReadyKeeps(cfg: Config, s: Sim, e: Event)
    requires Fires(cfg, s, e) && (e.kind == UploadEnd || e.kind == ResidentApplyEnd)
    ensures Kept(cfg, s, TryStartCompute(cfg, Readied(s, e)))
  {
    hide Queued, Ordered;
    ReadiedKeeps(cfg, s, e);
    TryStartKeeps(cfg, Readied(s, e));
    TryStartWork(cfg, Readied(s, e));
    StillProgressing(cfg, s, TryStartCompute(cfg, Readied(s, e)));
  }

  lemma TryStartWork(cfg: Config, s: Sim)
    requires |s.stages| == cfg.layers && s.current < cfg.layers
    ensures Work(TryStartCompute(cfg, s).stages) <= Work(s.stages)
  {
    WorkAfter(s.stages, s.current, At(Computing, s.now + cfg.compute));
  }

  lemma UploadEndKeeps(cfg: Config, s: Sim, e: Event)
    requires Fires(cfg, s, e) && e.kind == UploadEnd
    ensures Kept(cfg, s, OnUploadEnd(cfg, Popped(s, e), e.layer))
  {
    BecomesReadyKeeps(cfg, s, e);
  }

  lemma ResidentApplyEndKeeps(cfg: Config, s: Sim, e: Event)
    requires Fires(cfg, s, e) && e.kind == ResidentApplyEnd
    ensures Kept(cfg, s, OnResidentApplyEnd(cfg, Popped(s, e), e.layer))
  {
    BecomesReadyKeeps(cfg, s, e);
  }

  /** Looking ahead keeps the whole invariant. */
  lemma PrefetchAheadKeeps(cfg: Config, s: Sim, last: nat)
    requires Inv(cfg, s) && s.current <= last < cfg.layers
    ensures Inv(cfg, PrefetchAhead(cfg, s, last))
    ensures Work(PrefetchAhead(cfg, s, last).stages) <= Work(s.stages)
  {
    hide SubmitRange, Queued;
    var r := PrefetchAhead(cfg, s, last);
    SubmitRangeKeeps(cfg, s, last + 1, AheadEnd(cfg, last));
    SubmitRangeWork(cfg, s, last + 1, AheadEnd(cfg, last));
    SubmitRangeStages(cfg, s, last + 1, AheadEnd(cfg, last));
    assert SubmittedAt(s.stages[s.current], r.stages[s.current], s.current, ResidentTop(cfg), last + 1,
      AheadEnd(cfg, last));
    StillAccounted(cfg, s, r);
    StillProgressing(cfg, s, r);
  }

  lemma ReadEndMoves(cfg: Config, s: Sim, e: Event)
    requires Fires(cfg, s, e) && e.kind == ReadEnd
    ensures var p := Popped(s, e);
      var mid := p.(events := p.events + multiset{Event(p.now, UploadSubmit, e.layer)},
                    stages := p.stages[e.layer := At(ReadDone, p.now)]);
      Kept(cfg, s, mid) && Work(mid.stages) < Work(s.stages)
  {
    hide Work, Stale, Runnable, Schedule, StuckAt, Accounted, BusyTime, Stranded, Computes, Progressing;
    hide CanFinish, ResidentTop, Earliest, Queued, Ordered;
    var p, t := Popped(s, e), At(ReadDone, Popped(s, e).now);
    TickKeeps(cfg, s, e);
    AddsLive(e.layer, t, p.now);
    FireOnwards(cfg, s, e,
      p.(events := p.events + multiset{Event(p.now, UploadSubmit, e.layer)}, stages := p.stages[e.layer := t]),
      t, multiset{LiveEvent(t, e.layer)});
  }

  lemma ReadEndKeeps(cfg: Config, s: Sim, e: Event)
    requires Fires(cfg, s, e) && e.kind == ReadEnd
    ensures Kept(cfg, s, OnReadEnd(cfg, Popped(s, e), e.layer))
  {
    ReadEndMoves(cfg, s, e);
    var p := Popped(s, e);
    PrefetchAheadKeeps(cfg, p.(events := p.events + multiset{Event(p.now, UploadSubmit, e.layer)},
                               stages := p.stages[e.layer := At(ReadDone, p.now)]), e.layer);
  }

  // ---------------------------------------------------------------- the end of a compute

  lemma ReleasedKeeps(cfg: Config, s: Sim, e: Event)
    requires Fires(cfg, s, e) && e.kind == ComputeEnd
    ensures Structured(cfg, Released(cfg, Popped(s, e), e.layer))
    ensures e.layer == s.current && Popped(s, e).now == s.gpuBusyUntil
  {
    hide Queued, Ordered, Accounted, Moved, Released;
    TickKeeps(cfg, s, e);
    ComputingStage(s, e);
    ReleasedMoves(cfg, s, e);
    FireKeeps(cfg, s, e, Released(cfg, Popped(s, e), e.layer), AT_REST, Evicting(cfg, Popped(s, e), e.layer));
  }

  /** The event a release puts on the queue, none for a resident layer. */
  function Evicting(cfg: Config, s: Sim, l: nat): multiset<Event> {
    if l < ResidentTop(cfg) then multiset{} else multiset{Event(s.now + cfg.eviction, EvictEnd, l)}
  }

  lemma ReleasedMoves(cfg: Config, s: Sim, e: Event)
    requires 0 <= e.layer && LocalAt(cfg, Ticked(s, e), e.layer, Computing)
    requires e == LiveEvent(s.stages[e.layer], e.layer) && s.now <= e.time
    ensures Moved(cfg, Ticked(s, e), Released(cfg, Popped(s, e), e.layer), e.layer, AT_REST,
                  Evicting(cfg, Popped(s, e), e.layer))
    ensures e.layer == s.current && Popped(s, e).now == s.gpuBusyUntil
  {
    hide ResidentTop, Added, Evicting, LiveSet, LiveEvent;
    ComputingEvent(s.stages[e.layer], e.layer);
    EvictingAdded(cfg, Popped(s, e), e.layer);
    EvictingEvents(cfg, Popped(s, e), e.layer);
  }

  lemma ComputingEvent(t: Stage, l: nat)
    requires t.tag == Computing
    ensures LiveEvent(t, l) == Event(t.due, ComputeEnd, l) && LiveSet(t, l) == multiset{LiveEvent(t, l)}
  {}

  lemma EvictingAdded(cfg: Config, p: Sim, l: nat)
    ensures Added(Evicting(cfg, p, l), l, AT_REST, p.now)
  {
    hide ResidentTop;
  }

  lemma EvictingEvents(cfg: Config, p: Sim, l: nat)
    requires |p.stages| == cfg.layers && l < cfg.layers
    ensures Released(cfg, p, l) == p.(stages := p.stages[l := AT_REST], events := p.events + Evicting(cfg, p, l))
  {
    hide ResidentTop;
    assert p.events + multiset{} == p.events;
  }

  lemma ComputedKeeps(cfg: Config, s: Sim, e: Event)
    requires Fires(cfg, s, e) && e.kind == ComputeEnd
    ensures var r := Computed(cfg, Popped(s, e), e.layer);
      && Structured(cfg, r) && r.stages[s.current].tag == Idle
      && r.current == s.current == e.layer && r.token == s.token && r.now == r.gpuBusyUntil
      && (forall k :: 0 <= k < cfg.layers ==>
            SubmittedAt(s.stages[e.layer := AT_REST][k], r.stages[k], k, ResidentTop(cfg), e.layer + 1,
              AheadEnd(cfg, e.layer)))
  {
    hide StuckAt;
    hide Queued;
    ReleasedKeeps(cfg, s, e);
    SubmitRangeKeeps(cfg, Released(cfg, Popped(s, e), e.layer), e.layer + 1, AheadEnd(cfg, e.layer));
    SubmitRangeStages(cfg, Released(cfg, Popped(s, e), e.layer), e.layer + 1, AheadEnd(cfg, e.layer));
    var r := Computed(cfg, Popped(s, e), e.layer);
    assert SubmittedAt(AT_REST, r.stages[e.layer], e.layer, ResidentTop(cfg), e.layer + 1, AheadEnd(cfg, e.layer));
  }

  /** The accounting identity once the compute of the current layer is in the log. */
  ghost predicate Settled(cfg: Config, s: Sim) {
    && s.log == Schedule(s.token, s.current + 1, cfg.layers)
    && s.gpuBusy == BusyTime(|s.log|, cfg.compute)
    && s.gpuBusyUntil == s.firstStart + s.gpuBusy + s.gpuIdle && s.gpuBusyUntil > 0.0
    && s.inFlight == {}
  }

  lemma ComputedSettles(cfg: Config, s: Sim, e: Event)
    requires |s.stages| == cfg.layers && Accounted(cfg, s) && s.token < Tokens(cfg)
    requires e.layer == s.current < cfg.layers && s.stages[s.current].tag == Computing
    ensures Settled(cfg, Computed(cfg, Popped(s, e), e.layer))
  {
    assert Computes(s) == |s.log| + 1;
    assert Computed(cfg, Popped(s, e), e.layer).log == s.log + [(s.token, s.current)];
  }

  lemma AdvanceStructure(cfg: Config, s: Sim, next: nat)
    requires Structured(cfg, s) && s.current < cfg.layers && s.stages[s.current].tag == Idle
    requires next == s.current + 1 < cfg.layers || (next == 0 && s.current + 1 == cfg.layers)
    ensures Structured(cfg, s.(current := next))
  {}

  lemma NextLayerStructure(cfg: Config, c: Sim)
    requires Runnable(cfg) && Structured(cfg, c) && Settled(cfg, c) && c.current + 1 < cfg.layers
    requires c.stages[c.current].tag == Idle && c.token < Tokens(cfg)
    requires c.current + 1 < ResidentTop(cfg) ==> c.stages[c.current + 1].tag == Idle
    ensures var r, l := AdvanceLayer(cfg, c), c.current + 1;
      && Structured(cfg, r) && Accounted(cfg, r)
      && r.token == c.token && r.current == l
      && (forall k :: 0 <= k < cfg.layers && k != l ==> r.stages[k] == c.stages[k])
      && r.stages[l].tag == if l < ResidentTop(cfg) then Applying
                            else if c.stages[l].tag == Ready then Computing else c.stages[l].tag
  {
    hide Started, Queued, Tokens, FinishToken;
    var s1 := c.(current := c.current + 1);
    AdvanceStructure(cfg, c, c.current + 1);
    ResidentReadyKeeps(cfg, s1);
    TryStartKeeps(cfg, CheckResidentReady(cfg, s1));
  }

  lemma NextLayerKeeps(cfg: Config, c: Sim)
    requires Runnable(cfg) && Structured(cfg, c) && Settled(cfg, c) && c.current + 1 < cfg.layers
    requires c.stages[c.current].tag == Idle && c.token < Tokens(cfg)
    requires c.current + 1 < ResidentTop(cfg) ==> c.stages[c.current + 1].tag == Idle
    requires CanFinish(cfg) && c.current + 1 >= ResidentTop(cfg) ==> c.stages[c.current + 1].tag != Idle
    requires !CanFinish(cfg) ==>
      c.token == 0 && c.current < StuckAt(cfg) < cfg.layers && c.stages[StuckAt(cfg)].tag == Idle
    ensures var r := AdvanceLayer(cfg, c);
      Inv(cfg, r) && r.token == c.token && r.current == c.current + 1
  {
    hide AdvanceLayer;
    NextLayerStructure(cfg, c);
    assert Progressing(cfg, AdvanceLayer(cfg, c));
  }

  lemma StartTokenStructure(cfg: Config, s: Sim)
    requires Structured(cfg, s) && s.current == 0 < cfg.layers
    requires forall l :: 0 <= l < cfg.layers ==> s.stages[l].tag == Idle
    ensures var r := StartToken(cfg, s);
      && Structured(cfg, r)
      && r.stages[0].tag ==
        (if ResidentTop(cfg) > 0 then Applying else if FirstWindow(cfg) > 0 then Submitted else Idle)
      && (forall k :: 0 < k < cfg.layers ==> r.stages[k].tag != Computing)
      && (forall k :: 0 < k < cfg.layers && (k < ResidentTop(cfg) || k >= FirstWindow(cfg)) ==> r.stages[k].tag == Idle)
  {
    ResidentReadyKeeps(cfg, s);
    SubmitRangeKeeps(cfg, CheckResidentReady(cfg, s), 0, FirstWindow(cfg));
    SubmitRangeStages(cfg, CheckResidentReady(cfg, s), 0, FirstWindow(cfg));
    var s1, r := CheckResidentReady(cfg, s), StartToken(cfg, s);
    forall k | 0 <= k < cfg.layers
      ensures SubmittedAt(s1.stages[k], r.stages[k], k, ResidentTop(cfg), 0, FirstWindow(cfg))
    {}
  }

  lemma StartTokenKeeps(cfg: Config, s: Sim)
    requires Runnable(cfg) && Structured(cfg, s) && Accounted(cfg, s)
    requires s.current == 0 && s.token < Tokens(cfg) && (!CanFinish(cfg) ==> s.token == 0)
    requires forall l :: 0 <= l < cfg.layers ==> s.stages[l].tag == Idle
    ensures var r := StartToken(cfg, s);
      Inv(cfg, r) && r.token == s.token && r.current == 0
  {
    StartTokenStructure(cfg, s);
    var r := StartToken(cfg, s);
    StillAccounted(cfg, s, r);
    assert Progressing(cfg, r);
  }

  lemma BoundaryIdle(cfg: Config, c: Sim)
    requires Structured(cfg, c) && c.current + 1 == cfg.layers && c.stages[c.current].tag == Idle
    ensures forall l :: 0 <= l < cfg.layers ==> c.stages[l].tag == Idle
    ensures Streaming(cfg, c.stages) == {}
  {
    forall l | 0 <= l < cfg.layers ensures c.stages[l].tag == Idle {
      assert OrderedAt(c.stages[l], l, ResidentTop(cfg), c.current, c.gpuBusyUntil);
    }
  }

  function RolledOver(c: Sim): Sim { c.(token := c.token + 1, current := 0) }

  lemma RolledOverKeeps(cfg: Config, c: Sim)
    requires Structured(cfg, c) && Settled(cfg, c) && c.current + 1 == cfg.layers
    requires c.stages[c.current].tag == Idle && c.token + 1 < Tokens(cfg)
    ensures Structured(cfg, RolledOver(c)) && Accounted(cfg, RolledOver(c))
  {
    AdvanceStructure(cfg, c, 0);
    BoundaryIdle(cfg, c);
    ScheduleLength(c.token, cfg.layers, cfg.layers);
  }

  lemma NextTokenKeeps(cfg: Config, c: Sim)
    requires Runnable(cfg) && Structured(cfg, c) && Settled(cfg, c) && c.current + 1 == cfg.layers
    requires c.stages[c.current].tag == Idle && c.token + 1 < Tokens(cfg) && CanFinish(cfg)
    ensures Inv(cfg, AdvanceLayer(cfg, c)) && AdvanceLayer(cfg, c).token == c.token + 1
  {
    hide Queued, Ordered;
    BoundaryIdle(cfg, c);
    assert c.inFlight + Streaming(cfg, c.stages) == c.inFlight;
    assert AdvanceLayer(cfg, c) == StartToken(cfg, RolledOver(c));
    RolledOverKeeps(cfg, c);
    StartTokenKeeps(cfg, RolledOver(c));
  }

  lemma LastTokenKeeps(cfg: Config, c: Sim)
    requires Runnable(cfg) && Structured(cfg, c) && Settled(cfg, c) && c.current + 1 == cfg.layers
    requires c.stages[c.current].tag == Idle && c.token + 1 == Tokens(cfg) && CanFinish(cfg) && c.now == c.gpuBusyUntil
    ensures Inv(cfg, AdvanceLayer(cfg, c)) && AdvanceLayer(cfg, c).token == c.token + 1
  {
    BoundaryIdle(cfg, c);
    var r := AdvanceLayer(cfg, c);
    assert r.events == c.events + multiset{Event(c.now, SimulationEnd, -1)} && r.inFlight == {};
    forall e | e in r.events ensures Expected(e, r.stages, r.now, true) {
      assert e in c.events ==> Expected(e, c.stages, c.now, false);
    }
    assert Structured(cfg, r);
  }

  /** Once a layer is computed, the next one is on its way unless nothing ever submits it. */
  lemma ComputedNext(cfg: Config, s: Sim, e: Event)
    requires Fires(cfg, s, e) && e.kind == ComputeEnd
    ensures var c := Computed(cfg, Popped(s, e), e.layer);
      && Structured(cfg, c) && c.stages[c.current].tag == Idle
      && c.current == s.current == e.layer && c.token == s.token < Tokens(cfg) && c.now == c.gpuBusyUntil
      && (CanFinish(cfg) && ResidentTop(cfg) <= c.current + 1 < cfg.layers ==> c.stages[c.current + 1].tag != Idle)
      && (c.current + 1 < cfg.layers && c.current + 1 < ResidentTop(cfg) ==> c.stages[c.current + 1].tag == Idle)
      && (!CanFinish(cfg) ==>
          c.token == 0 && c.current < StuckAt(cfg) < cfg.layers && c.stages[StuckAt(cfg)].tag == Idle)
  {
    hide Computed;
    ComputedKeeps(cfg, s, e);
    var c, l := Computed(cfg, Popped(s, e), e.layer), e.layer;
    if l + 1 < cfg.layers {
      assert SubmittedAt(s.stages[l + 1], c.stages[l + 1], l + 1, ResidentTop(cfg), l + 1, AheadEnd(cfg, l));
      assert OrderedAt(c.stages[l + 1], l + 1, ResidentTop(cfg), c.current, c.gpuBusyUntil);
    }
    if !CanFinish(cfg) {
      var k := StuckAt(cfg);
      assert SubmittedAt(s.stages[l := AT_REST][k], c.stages[k], k, ResidentTop(cfg), l + 1, AheadEnd(cfg, l));
    }
  }

  lemma AdvanceKeeps(cfg: Config, c: Sim)
    requires Runnable(cfg) && Structured(cfg, c) && Settled(cfg, c)
    requires c.current < cfg.layers && c.stages[c.current].tag == Idle && c.token < Tokens(cfg)
    requires c.now == c.gpuBusyUntil
    requires CanFinish(cfg) && ResidentTop(cfg) <= c.current + 1 < cfg.layers ==> c.stages[c.current + 1].tag != Idle
    requires c.current + 1 < cfg.layers && c.current + 1 < ResidentTop(cfg) ==> c.stages[c.current + 1].tag == Idle
    requires !CanFinish(cfg) ==>
      c.token == 0 && c.current < StuckAt(cfg) < cfg.layers && c.stages[StuckAt(cfg)].tag == Idle
    ensures var r := AdvanceLayer(cfg, c);
      Inv(cfg, r) && (r.token > c.token || (r.token == c.token && r.current > c.current))
  {
    if c.current + 1 < cfg.layers {
      NextLayerKeeps(cfg, c);
    } else if c.token + 1 < Tokens(cfg) {
      NextTokenKeeps(cfg, c);
    } else {
      LastTokenKeeps(cfg, c);
    }
  }

  lemma ComputeEndKeeps(cfg: Config, s: Sim, e: Event)
    requires Fires(cfg, s, e) && e.kind == ComputeEnd
    ensures Kept(cfg, s, OnComputeEnd(cfg, Popped(s, e), e.layer))
  {
    hide AdvanceLayer, Computed;
    var c := Computed(cfg, Popped(s, e), e.layer);
    ComputedNext(cfg, s, e);
    ComputedSettles(cfg, s, e);
    AdvanceKeeps(cfg, c);
  }

  // ---------------------------------------------------------------- the main theorem of one step

  /** An eviction record or a stale marker fires: the clock may advance, nothing else changes. */
  lemma IgnoredKeeps(cfg: Config, s: Sim, e: Event)
    requires Runnable(cfg) && Inv(cfg, s) && Earliest(e, s.events)
    requires e.kind == EvictEnd || (0 <= e.layer < cfg.layers && Stale(e, s.stages[e.layer]))
    ensures Kept(cfg, s, Popped(s, e))
  {
    var r := Popped(s, e);
    assert |r.events| == |s.events| - 1;
    if s.current < cfg.layers {
      TickKeeps(cfg, s, e);
    } else {
      assert Event(s.now, SimulationEnd, -1) in s.events;
      assert Expected(e, s.stages, s.now, true);
    }
    RemoveKeepsStructure(cfg, Ticked(s, e), r, e);
    StillAccounted(cfg, s, r);
  }

  lemma RemoveKeepsStructure(cfg: Config, x: Sim, r: Sim, e: Event)
    requires Structured(cfg, x) && r == x.(events := x.events - multiset{e})
    requires e.kind == EvictEnd || (0 <= e.layer < cfg.layers && Stale(e, x.stages[e.layer]))
    ensures Structured(cfg, r)
  {}

  /** Any earliest event, whichever of several at the same time, keeps the invariant and makes progress. */
  lemma HandleKeeps(cfg: Config, s: Sim, e: Event, ms: real)
    requires Runnable(cfg) && Inv(cfg, s) && Earliest(e, s.events) && e.kind != SimulationEnd && ms > 0.0
    ensures CanHandle(cfg, s, e)
    ensures Kept(cfg, s, Handle(cfg, s, e, ms))
  {
    hide Work, LiveEvent, Kept, Accounted, Progressing;
    assert Expected(e, s.stages, s.now, s.current == cfg.layers);
    if e.kind == EvictEnd {
      IgnoredKeeps(cfg, s, e);
    } else {
      assert OrderedAt(s.stages[e.layer], e.layer, ResidentTop(cfg), s.current, s.gpuBusyUntil);
      if Stale(e, s.stages[e.layer]) {
        IgnoredKeeps(cfg, s, e);
      } else {
        LiveKeeps(cfg, s, e, ms);
      }
    }
  }

  lemma LiveKeeps(cfg: Config, s: Sim, e: Event, ms: real)
    requires Fires(cfg, s, e) && ms > 0.0
    ensures Kept(cfg, s, Handle(cfg, s, e, ms))
  {
    match e.kind {
      case PrefetchSubmit => PrefetchSubmitKeeps(cfg, s, e);
      case ReadStart => ReadStartKeeps(cfg, s, e);
      case ReadEnd => ReadEndKeeps(cfg, s, e);
      case UploadSubmit => UploadSubmitKeeps(cfg, s, e, ms);
      case UploadStart => UploadStartKeeps(cfg, s, e, ms);
      case UploadEnd => UploadEndKeeps(cfg, s, e);
      case ComputeEnd => ComputeEndKeeps(cfg, s, e);
      case ResidentApply => ResidentApplyKeeps(cfg, s, e, ms);
      case ResidentApplyEnd => ResidentApplyEndKeeps(cfg, s, e);
      case EvictEnd =>
      case SimulationEnd =>
    }
  }

  lemma InitialKeeps(cfg: Config)
    requires Runnable(cfg)
    ensures Inv(cfg, StartToken(cfg, Initial(cfg)))
  {
    StartTokenKeeps(cfg, Initial(cfg));
  }

  // ---------------------------------------------------------------- where a run can stop

  /** A run that reaches the end event has computed every layer of every token. */
  lemma EndedRun(cfg: Config, s: Sim, e: Event)
    requires Inv(cfg, s) && e in s.events && e.kind == SimulationEnd
    ensures CanFinish(cfg) && s.log == Schedule(Tokens(cfg), 0, cfg.layers)
    ensures s.gpuBusy == BusyTime(|s.log|, cfg.compute) && s.inFlight == {}
    ensures cfg.layers > 0 ==> e.time == s.now == s.firstStart + s.gpuBusy + s.gpuIdle
  {
    assert Expected(e, s.stages, s.now, s.current == cfg.layers);
    ScheduleLength(Tokens(cfg), 0, cfg.layers);
    if cfg.layers > 0 { ProductAtLeast(Tokens(cfg), cfg.layers); }
  }

  lemma ProductAtLeast(a: nat, b: nat)
    requires a >= 1 && b >= 1
    ensures a * b >= 1
  {}

  /** A run whose queue drains has stopped just before the layer nothing ever submits. */
  lemma DrainedRun(cfg: Config, s: Sim)
    requires Inv(cfg, s) && s.events == multiset{}
    ensures !CanFinish(cfg) && s.log == Schedule(0, StuckAt(cfg), cfg.layers)
    ensures s.gpuBusy == BusyTime(|s.log|, cfg.compute) && s.inFlight == {}
  {
    assert s.current < cfg.layers && HasLive(s.stages[s.current].tag) ==>
      s.events[LiveEvent(s.stages[s.current], s.current)] == 1;
  }
}
