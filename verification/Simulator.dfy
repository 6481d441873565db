/** The simulator itself: mutable sets, pools, counters and an event queue, and the main
    loop. Every handler is proved to carry out the step of `PipelineModel` of the same
    name. Traces, printing and peak-RAM reporting are dropped. */
module Simulator {
  import opened Arithmetic
  import opened WorkerPools
  import opened PipelineModel
  import opened PipelineTiming

  // ---------------------------------------------------------------- the sets against the stages

  datatype LayerSets = LayerSets(
    resident: set<int>, loaded: set<int>, prefetched: set<int>,
    queuedForRead: set<int>, reading: set<int>, queuedForUpload: set<int>, uploading: set<int>,
    ready: set<int>, computing: set<int>)

  predicate AgreeAt(x: LayerSets, top: nat, l: int, t: Tag) {
    && (InPipeline(t) ==> l >= top) && (t == Applying || t == ApplyingEnd ==> l < top)
    && (l in x.resident <==> 0 <= l < top)
    && (l in x.loaded <==> 0 <= l < top || OnDevice(t))
    && (l in x.prefetched <==> InPipeline(t))
    && (l in x.queuedForRead <==> t == QueuedRead)
    && (l in x.reading <==> t == Reading)
    && (l in x.queuedForUpload <==> t == QueuedUpload)
    && (l in x.uploading <==> t == Uploading)
    && (l in x.ready <==> t == Ready)
    && (l in x.computing <==> t == Computing)
  }

  ghost predicate Agree(x: LayerSets, top: nat, stages: seq<Stage>) {
    forall l :: AgreeAt(x, top, l, TagOf(stages, l))
  }

  function Put(layers: set<int>, l: int, member: bool): (r: set<int>)
    ensures (l in layers <==> member) ==> r == layers
    ensures forall k :: k in r <==> if k == l then member else k in layers
  {
    if member then layers + {l} else layers - {l}
  }

  /** The sets once layer `l` is in stage `t`. */
  function Placed(x: LayerSets, top: nat, l: int, t: Tag): LayerSets {
    LayerSets(x.resident, Put(x.loaded, l, 0 <= l < top || OnDevice(t)), Put(x.prefetched, l, InPipeline(t)),
              Put(x.queuedForRead, l, t == QueuedRead), Put(x.reading, l, t == Reading),
              Put(x.queuedForUpload, l, t == QueuedUpload), Put(x.uploading, l, t == Uploading),
              Put(x.ready, l, t == Ready), Put(x.computing, l, t == Computing))
  }

  lemma PlacedAgrees(x: LayerSets, top: nat, stages: seq<Stage>, l: nat, s: Stage)
    requires Agree(x, top, stages) && l < |stages|
    requires (InPipeline(s.tag) ==> l >= top) && (s.tag == Applying || s.tag == ApplyingEnd ==> l < top)
    ensures Agree(Placed(x, top, l, s.tag), top, stages[l := s])
  {
    forall k: int {:trigger TagOf(stages[l := s], k)}
      ensures AgreeAt(Placed(x, top, l, s.tag), top, k, TagOf(stages[l := s], k))
    {
      assert AgreeAt(x, top, k, TagOf(stages, k));
    }
  }

  // ---------------------------------------------------------------- the moves between the sets

  lemma Submits(x: LayerSets, top: nat, l: nat)
    requires AgreeAt(x, top, l, Idle) && l >= top
    ensures Placed(x, top, l, Submitted) == x.(prefetched := x.prefetched + {l})
  {}

  lemma QueuesRead(x: LayerSets, top: nat, l: nat)
    requires AgreeAt(x, top, l, Submitted)
    ensures Placed(x, top, l, QueuedRead) == x.(queuedForRead := x.queuedForRead + {l})
    ensures Placed(x, top, l, Reading) == x.(reading := x.reading + {l})
  {}

  lemma StartsRead(x: LayerSets, top: nat, l: nat)
    requires AgreeAt(x, top, l, QueuedRead)
    ensures Placed(x, top, l, Reading) == x.(queuedForRead := x.queuedForRead - {l}, reading := x.reading + {l})
  {}

  lemma EndsRead(x: LayerSets, top: nat, l: nat)
    requires AgreeAt(x, top, l, Reading)
    ensures Placed(x, top, l, ReadDone) == x.(reading := x.reading - {l})
  {}

  lemma QueuesUpload(x: LayerSets, top: nat, l: nat)
    requires AgreeAt(x, top, l, ReadDone)
    ensures Placed(x, top, l, QueuedUpload) == x.(queuedForUpload := x.queuedForUpload + {l})
    ensures Placed(x, top, l, Uploading) == x.(uploading := x.uploading + {l})
  {}

  lemma StartsUpload(x: LayerSets, top: nat, l: nat)
    requires AgreeAt(x, top, l, QueuedUpload)
    ensures Placed(x, top, l, Uploading) ==
      x.(queuedForUpload := x.queuedForUpload - {l}, uploading := x.uploading + {l})
  {}

  lemma EndsUpload(x: LayerSets, top: nat, l: nat)
    requires AgreeAt(x, top, l, Uploading)
    ensures Placed(x, top, l, Ready) == x.(uploading := x.uploading - {l}, prefetched := x.prefetched - {l},
                                           loaded := x.loaded + {l}, ready := x.ready + {l})
  {}

  lemma Applies(x: LayerSets, top: nat, l: nat)
    requires AgreeAt(x, top, l, Applying) || AgreeAt(x, top, l, ApplyingEnd)
    ensures Placed(x, top, l, Applying) == x && Placed(x, top, l, ApplyingEnd) == x
    ensures Placed(x, top, l, Ready) == x.(ready := x.ready + {l})
  {}

  lemma StartsApplying(x: LayerSets, top: nat, l: nat)
    requires AgreeAt(x, top, l, Idle) && l < top
    ensures Placed(x, top, l, Applying) == x
  {}

  lemma StartsComputing(x: LayerSets, top: nat, l: nat)
    requires AgreeAt(x, top, l, Ready)
    ensures Placed(x, top, l, Computing) == x.(ready := x.ready - {l}, computing := x.computing + {l})
  {}

  lemma EndsComputing(x: LayerSets, top: nat, l: nat)
    requires AgreeAt(x, top, l, Computing)
    ensures Placed(x, top, l, Idle) ==
      x.(computing := x.computing - {l}, loaded := if l in x.resident then x.loaded else x.loaded - {l})
  {}

  // ---------------------------------------------------------------- the simulator

  class SimState {
    const cfg: Config
    var now: real
    var events: multiset<Event>
    var ssdBusy: Pool
    var uploadBusy: Pool
    var sets: LayerSets
    var gpuBusyUntil: real
    var gpuIdle: real
    var gpuBusy: real
    var currentToken: nat
    var currentLayer: nat
    var log: seq<(nat, nat)>
    ghost var model: Sim

    /** The fields hold what the model says. */
    ghost predicate Coupled()
      reads this
    {
      && |model.stages| == cfg.layers
      && model == Sim(now, events, ssdBusy, uploadBusy, gpuBusyUntil, gpuIdle, gpuBusy, currentToken, currentLayer,
                      log, model.stages, model.firstStart, model.inFlight)
      && Agree(sets, ResidentTop(cfg), model.stages)
    }

    constructor (config: Config)
      ensures cfg == config && Coupled() && model == Initial(config)
    {
      cfg := config;
      now, events, ssdBusy, uploadBusy := 0.0, multiset{}, [], [];
      var residents := FirstLayers(ResidentTop(config));
      sets := LayerSets(residents, residents, {}, {}, {}, {}, {}, {}, {});
      gpuBusyUntil, gpuIdle, gpuBusy := 0.0, 0.0, 0.0;
      currentToken, currentLayer, log := 0, 0, [];
      model := Initial(config);
    }

    lemma AgreesAt(l: int)
      requires Coupled()
      ensures AgreeAt(sets, ResidentTop(cfg), l, TagOf(model.stages, l))
    {}

    lemma QueuedAt(l: int)
      requires Coupled()
      ensures l in sets.queuedForRead <==> TagOf(model.stages, l) == QueuedRead
      ensures l in sets.queuedForUpload <==> TagOf(model.stages, l) == QueuedUpload
    {
      AgreesAt(l);
    }

    method SubmitPrefetch(layer: nat)
      requires Coupled()
      modifies this
      ensures Coupled() && model == Submit(cfg, old(model), layer)
    {
      hide Agree, Placed;
      AgreesAt(layer);
      if layer in sets.loaded || layer in sets.prefetched || layer in sets.resident { return; }
      if layer >= cfg.layers { return; }
      Submits(sets, ResidentTop(cfg), layer);
      ghost var before, t := sets, At(Submitted, now);
      sets := sets.(prefetched := sets.prefetched + {layer});
      events := events + multiset{Event(now, PrefetchSubmit, layer)};
      PlacedAgrees(before, ResidentTop(cfg), model.stages, layer, t);
      model := Submit(cfg, model, layer);
    }

    method PrefetchAhead(last: nat)
      requires Coupled()
      modifies this
      ensures Coupled() && model == PipelineModel.PrefetchAhead(cfg, old(model), last)
    {
      hide AgreeAt;
      var lookahead := Lookahead(cfg);
      var ahead := 1;
      while ahead <= lookahead
        invariant 1 <= ahead && (ahead == 1 || ahead <= lookahead + 1)
        invariant Coupled() && model == SubmitRange(cfg, old(model), last + 1, last + ahead)
        decreases lookahead - ahead
      {
        if last + ahead < cfg.layers { SubmitPrefetch(last + ahead); }
        ahead := ahead + 1;
      }
    }

    method CheckResidentReady()
      requires Coupled()
      modifies this
      ensures Coupled() && model == PipelineModel.CheckResidentReady(cfg, old(model))
    {
      hide Agree, Placed;
      var layer := currentLayer;
      AgreesAt(layer);
      if layer in sets.resident && layer in sets.loaded && layer !in sets.ready && layer !in sets.computing {
        ghost var t := At(Applying, now);
        events := events + multiset{Event(now, ResidentApply, layer)};
        StartsApplying(sets, ResidentTop(cfg), layer);
        PlacedAgrees(sets, ResidentTop(cfg), model.stages, layer, t);
        model := PipelineModel.CheckResidentReady(cfg, model);
      }
    }

    method StartToken()
      requires Coupled() && currentLayer == 0
      modifies this
      ensures Coupled() && model == PipelineModel.StartToken(cfg, old(model))
    {
      CheckResidentReady();
      ghost var start := model;
      var window := Lookahead(cfg);
      var i := 0;
      while i < cfg.layers
        invariant 0 <= i <= FirstWindow(cfg)
        invariant currentLayer == 0 && Coupled() && model == SubmitRange(cfg, start, 0, i)
      {
        if i - currentLayer > window { break; }
        SubmitPrefetch(i);
        i := i + 1;
      }
    }

    method TryStartCompute()
      requires Coupled() && currentLayer < cfg.layers
      modifies this
      ensures Coupled() && model == PipelineModel.TryStartCompute(cfg, old(model))
    {
      AgreesAt(currentLayer);
      if currentLayer !in sets.ready { return; }
      if gpuBusyUntil > now { return; }
      StartCompute();
    }

    /** Put an event on the queue. */
    method Push(event: Event)
      requires Coupled()
      modifies `events, `model
      ensures Coupled() && model == old(model).(events := old(model).events + multiset{event})
    {
      hide Agree;
      events := events + multiset{event};
      model := model.(events := model.events + multiset{event});
    }

    /** Move a layer on to its next stage: out of one set and into the next. */
    method MarkComputing(layer: nat, end: real)
      requires Coupled() && layer < cfg.layers && model.stages[layer].tag == Ready
      modifies `sets, `model
      ensures Coupled() && model == old(model).(stages := old(model).stages[layer := At(Computing, end)])
    {
      hide Agree, Placed, ResidentTop;
      AgreesAt(layer);
      StartsComputing(sets, ResidentTop(cfg), layer);
      PlacedAgrees(sets, ResidentTop(cfg), model.stages, layer, At(Computing, end));
      sets := sets.(ready := sets.ready - {layer}, computing := sets.computing + {layer});
      model := model.(stages := model.stages[layer := At(Computing, end)]);
    }

    method MarkReading(layer: nat, end: real)
      requires Coupled() && layer < cfg.layers && model.stages[layer].tag == QueuedRead
      modifies `sets, `model
      ensures Coupled() && model == old(model).(stages := old(model).stages[layer := At(Reading, end)])
    {
      hide Agree, Placed, ResidentTop;
      AgreesAt(layer);
      StartsRead(sets, ResidentTop(cfg), layer);
      PlacedAgrees(sets, ResidentTop(cfg), model.stages, layer, At(Reading, end));
      sets := sets.(queuedForRead := sets.queuedForRead - {layer}, reading := sets.reading + {layer});
      model := model.(stages := model.stages[layer := At(Reading, end)]);
    }

    method MarkUploading(layer: nat, end: real)
      requires Coupled() && layer < cfg.layers && model.stages[layer].tag == QueuedUpload
      modifies `sets, `model
      ensures Coupled() && model == old(model).(stages := old(model).stages[layer := At(Uploading, end)])
    {
      hide Agree, Placed, ResidentTop;
      AgreesAt(layer);
      StartsUpload(sets, ResidentTop(cfg), layer);
      PlacedAgrees(sets, ResidentTop(cfg), model.stages, layer, At(Uploading, end));
      sets := sets.(queuedForUpload := sets.queuedForUpload - {layer}, uploading := sets.uploading + {layer});
      model := model.(stages := model.stages[layer := At(Uploading, end)]);
    }

    /** Bill the idle gap and the compute. */
    method BillCompute()
      requires Coupled()
      modifies `gpuIdle, `gpuBusyUntil, `gpuBusy, `model
      ensures Coupled() && var m := old(model);
        model == m.(gpuIdle := m.gpuIdle + IdleGap(m.gpuBusyUntil, m.now), gpuBusyUntil := m.now + cfg.compute,
                    gpuBusy := m.gpuBusy + cfg.compute, firstStart := if m.log == [] then m.now else m.firstStart)
    {
      hide Agree, IdleGap;
      gpuIdle := gpuIdle + IdleGap(gpuBusyUntil, now);
      gpuBusyUntil := now + cfg.compute;
      gpuBusy := gpuBusy + cfg.compute;
      model := model.(gpuIdle := gpuIdle, gpuBusyUntil := gpuBusyUntil, gpuBusy := gpuBusy,
                      firstStart := if model.log == [] then model.now else model.firstStart);
    }

    method StartCompute()
      requires Coupled() && currentLayer < cfg.layers && model.stages[currentLayer].tag == Ready
      modifies this
      ensures Coupled() && model == Started(cfg, old(model))
    {
      hide Agree, IdleGap, ResidentTop;
      MarkComputing(currentLayer, now + cfg.compute);
      BillCompute();
      Push(Event(gpuBusyUntil, ComputeEnd, currentLayer));
    }

    method FinishToken()
      requires Coupled()
      modifies this
      ensures Coupled() && model == PipelineModel.FinishToken(cfg, old(model))
    {
      currentToken := currentToken + 1;
      model := TokenDone(cfg, model);
      if currentToken < Tokens(cfg) {
        currentLayer := 0;
        model := model.(current := 0);
        StartToken();
      } else {
        events := events + multiset{Event(now, SimulationEnd, -1)};
        model := model.(events := model.events + multiset{Event(model.now, SimulationEnd, -1)});
      }
    }

    method AdvanceLayer()
      requires Coupled()
      modifies this
      ensures Coupled() && model == PipelineModel.AdvanceLayer(cfg, old(model))
    {
      currentLayer := currentLayer + 1;
      model := model.(current := model.current + 1);
      if currentLayer >= cfg.layers {
        FinishToken();
      } else {
        CheckResidentReady();
        TryStartCompute();
      }
    }

    method HandlePrefetchSubmit(layer: nat)
      requires Coupled() && cfg.workers >= 1 && layer < cfg.layers && model.stages[layer].tag == Submitted
      modifies this
      ensures Coupled() && model == OnPrefetchSubmit(cfg, old(model), layer)
    {
      AgreesAt(layer);
      if layer in sets.loaded || layer in sets.resident { return; }
      if layer in sets.reading || layer in sets.queuedForRead { return; }
      var start, delayed := StartTime(ssdBusy, cfg.workers, now), |ssdBusy| >= cfg.workers;
      ssdBusy := Acquired(ssdBusy, cfg.workers, now, cfg.ssdRead);
      model := model.(ssdBusy := ssdBusy);
      BeginRead(layer, delayed, start);
    }

    method BeginRead(layer: nat, delayed: bool, start: real)
      requires Coupled() && layer < cfg.layers && model.stages[layer].tag == Submitted
      modifies this
      ensures Coupled() && model == Begin(old(model), layer, READ, delayed, start, cfg.ssdRead)
    {
      hide Agree, Placed, ResidentTop;
      AgreesAt(layer);
      QueuesRead(sets, ResidentTop(cfg), layer);
      PlacedAgrees(sets, ResidentTop(cfg), model.stages, layer, BegunStage(READ, delayed, start, cfg.ssdRead));
      if delayed {
        sets := sets.(queuedForRead := sets.queuedForRead + {layer});
      } else {
        sets := sets.(reading := sets.reading + {layer});
      }
      events := events + BegunEvents(layer, READ, delayed, start, cfg.ssdRead);
      model := Begin(model, layer, READ, delayed, start, cfg.ssdRead);
    }

    method BeginUpload(layer: nat, delayed: bool, start: real, uploadMs: real)
      requires Coupled() && layer < cfg.layers && model.stages[layer].tag == ReadDone
      modifies this
      ensures Coupled() && model == Begin(old(model), layer, UPLOAD, delayed, start, uploadMs)
    {
      hide BegunEvents, OnDevice, Agree, Placed, ResidentTop;
      AgreesAt(layer);
      QueuesUpload(sets, ResidentTop(cfg), layer);
      PlacedAgrees(sets, ResidentTop(cfg), model.stages, layer, BegunStage(UPLOAD, delayed, start, uploadMs));
      if delayed {
        sets := sets.(queuedForUpload := sets.queuedForUpload + {layer});
      } else {
        sets := sets.(uploading := sets.uploading + {layer});
      }
      events := events + BegunEvents(layer, UPLOAD, delayed, start, uploadMs);
      model := Begin(model, layer, UPLOAD, delayed, start, uploadMs);
    }

    method HandleReadStart(layer: nat)
      requires Coupled() && layer < cfg.layers
      modifies this
      ensures Coupled() && model == OnReadStart(cfg, old(model), layer)
    {
      hide AgreeAt;
      QueuedAt(layer);
      hide Agree, ResidentTop;
      if layer in sets.queuedForRead {
        MarkReading(layer, now + cfg.ssdRead);
        Push(Event(now + cfg.ssdRead, ReadEnd, layer));
      }
    }

    method HandleReadEnd(layer: nat)
      requires Coupled() && layer < cfg.layers && model.stages[layer].tag == Reading
      modifies this
      ensures Coupled() && model == OnReadEnd(cfg, old(model), layer)
    {
      hide Agree, Placed, ResidentTop, PipelineModel.PrefetchAhead;
      AgreesAt(layer);
      ghost var before := sets;
      EndsRead(sets, ResidentTop(cfg), layer);
      sets := sets.(reading := sets.reading - {layer});
      events := events + multiset{Event(now, UploadSubmit, layer)};
      PlacedAgrees(before, ResidentTop(cfg), model.stages, layer, At(ReadDone, now));
      model := model.(events := model.events + multiset{Event(now, UploadSubmit, layer)},
                      stages := model.stages[layer := At(ReadDone, now)]);
      PrefetchAhead(layer);
    }

    method HandleUploadSubmit(layer: nat, uploadMs: real)
      requires Coupled() && cfg.workers >= 1 && layer < cfg.layers && model.stages[layer].tag == ReadDone
      modifies this
      ensures Coupled() && model == OnUploadSubmit(cfg, old(model), layer, uploadMs)
    {
      AgreesAt(layer);
      if layer in sets.uploading || layer in sets.queuedForUpload { return; }
      var start, delayed := StartTime(uploadBusy, cfg.workers, now), |uploadBusy| >= cfg.workers;
      uploadBusy := Acquired(uploadBusy, cfg.workers, now, uploadMs);
      model := model.(uploadBusy := uploadBusy);
      BeginUpload(layer, delayed, start, uploadMs);
    }

    method HandleUploadStart(layer: nat, uploadMs: real)
      requires Coupled() && layer < cfg.layers
      modifies this
      ensures Coupled() && model == OnUploadStart(cfg, old(model), layer, uploadMs)
    {
      hide AgreeAt;
      QueuedAt(layer);
      hide Agree, ResidentTop;
      if layer in sets.queuedForUpload {
        MarkUploading(layer, now + uploadMs);
        Push(Event(now + uploadMs, UploadEnd, layer));
      }
    }

    method HandleUploadEnd(layer: nat)
      requires Coupled() && layer < cfg.layers && model.stages[layer].tag == Uploading && currentLayer < cfg.layers
      modifies this
      ensures Coupled() && model == OnUploadEnd(cfg, old(model), layer)
    {
      hide Agree, Placed, ResidentTop, PipelineModel.TryStartCompute;
      AgreesAt(layer);
      ghost var before := sets;
      EndsUpload(sets, ResidentTop(cfg), layer);
      sets := sets.(uploading := sets.uploading - {layer});
      sets := sets.(prefetched := sets.prefetched - {layer});
      sets := sets.(loaded := sets.loaded + {layer});
      if layer !in sets.ready { sets := sets.(ready := sets.ready + {layer}); }
      PlacedAgrees(before, ResidentTop(cfg), model.stages, layer, At(Ready, now));
      model := model.(stages := model.stages[layer := At(Ready, now)]);
      TryStartCompute();
    }

    method HandleResidentApply(layer: nat, uploadMs: real)
      requires Coupled() && layer < cfg.layers && model.stages[layer].tag == Applying
      modifies this
      ensures Coupled() && model == OnResidentApply(cfg, old(model), layer, uploadMs)
    {
      hide Agree, Placed, ResidentTop;
      AgreesAt(layer);
      var end := now + uploadMs * 0.3;
      PlacedAgrees(sets, ResidentTop(cfg), model.stages, layer, At(ApplyingEnd, end));
      Applies(sets, ResidentTop(cfg), layer);
      events := events + multiset{Event(end, ResidentApplyEnd, layer)};
      model := OnResidentApply(cfg, model, layer, uploadMs);
    }

    method HandleResidentApplyEnd(layer: nat)
      requires Coupled() && layer < cfg.layers && model.stages[layer].tag == ApplyingEnd && currentLayer < cfg.layers
      modifies this
      ensures Coupled() && model == OnResidentApplyEnd(cfg, old(model), layer)
    {
      hide Agree, Placed, ResidentTop, PipelineModel.TryStartCompute;
      AgreesAt(layer);
      ghost var before := sets;
      Applies(sets, ResidentTop(cfg), layer);
      if layer !in sets.ready { sets := sets.(ready := sets.ready + {layer}); }
      PlacedAgrees(before, ResidentTop(cfg), model.stages, layer, At(Ready, now));
      model := model.(stages := model.stages[layer := At(Ready, now)]);
      TryStartCompute();
    }

    /** Free the layer's stage; a resident layer stays loaded. */
    method Release(layer: nat)
      requires Coupled() && layer < cfg.layers && model.stages[layer].tag == Computing
      modifies this
      ensures Coupled() && model == Released(cfg, old(model), layer)
    {
      hide Agree, Placed, ResidentTop;
      AgreesAt(layer);
      EndsComputing(sets, ResidentTop(cfg), layer);
      PlacedAgrees(sets, ResidentTop(cfg), model.stages, layer, AT_REST);
      model := Released(cfg, model, layer);
      sets := sets.(computing := sets.computing - {layer});
      if layer !in sets.resident {
        events := events + multiset{Event(now + cfg.eviction, EvictEnd, layer)};
        sets := sets.(loaded := sets.loaded - {layer});
      }
    }

    method HandleComputeEnd(layer: nat)
      requires Coupled() && layer < cfg.layers && model.stages[layer].tag == Computing
      modifies this
      ensures Coupled() && model == OnComputeEnd(cfg, old(model), layer)
    {
      Release(layer);
      PrefetchAhead(layer);
      log := log + [(currentToken, layer)];
      model := model.(log := log);
      AdvanceLayer();
    }

    /** Take one event off the queue and move the clock. */
    method Pop(event: Event)
      requires Coupled()
      modifies this
      ensures Coupled() && model == Popped(old(model), event) && currentLayer == old(currentLayer)
    {
      hide ResidentTop, MaxReal, Agree;
      events := events - multiset{event};
      now := MaxReal(now, event.time);
      model := Popped(model, event);
    }

    /** Take one event off the queue and run its handler; `uploadMs` is the current upload latency. */
    method Dispatch(event: Event, uploadMs: real)
      requires Coupled() && event in events && CanHandle(cfg, model, event) && event.kind != SimulationEnd
      requires AboutLayer(event.kind) && event.kind != ReadStart && event.kind != UploadStart ==>
                 event.kind == LiveKind(model.stages[event.layer].tag)
      modifies this
      ensures Coupled() && model == Handle(cfg, old(model), event, uploadMs)
    {
      hide OnPrefetchSubmit, OnReadStart, OnReadEnd, OnUploadSubmit, OnUploadStart, OnUploadEnd,
        OnComputeEnd, OnResidentApply, OnResidentApplyEnd;
      hide Agree, Popped, ResidentTop;
      PoppedKeepsStages(model, event);
      Pop(event);
      match event.kind {
        case PrefetchSubmit => HandlePrefetchSubmit(event.layer);
        case ReadStart => HandleReadStart(event.layer);
        case ReadEnd => HandleReadEnd(event.layer);
        case UploadSubmit => HandleUploadSubmit(event.layer, uploadMs);
        case UploadStart => HandleUploadStart(event.layer, uploadMs);
        case UploadEnd => HandleUploadEnd(event.layer);
        case ComputeEnd => HandleComputeEnd(event.layer);
        case ResidentApply => HandleResidentApply(event.layer, uploadMs);
        case ResidentApplyEnd => HandleResidentApplyEnd(event.layer);
        case EvictEnd =>
        case SimulationEnd =>
      }
    }

    /** One turn of the main loop: the handler, then the source's own check. */
    method RunEvent(event: Event) returns (ok: bool)
      requires Runnable(cfg) && Coupled() && Inv(cfg, model) && Earliest(event, events) && event.kind != SimulationEnd
      modifies this
      ensures ok && Coupled() && Inv(cfg, model) && Progressed(old(model), model)
      ensures Turn(cfg, old(model), event, model)
    {
      hide Inv, Progressed, Handle;
      LoadedBounded();
      LoadedNow();
      var uploadMs := cfg.uploadMs[|sets.loaded|];
      HandleKeeps(cfg, model, event, uploadMs);
      if AboutLayer(event.kind) { HandledTag(cfg, model, event); }
      Dispatch(event, uploadMs);
      CoupledIsConsistent();
      ok := CheckInvariants();
    }

    lemma LoadedNow()
      requires Coupled()
      ensures sets.loaded == Loaded(cfg, model)
    {
      forall l: int ensures l in sets.loaded <==> l in Loaded(cfg, model) { AgreesAt(l); }
    }

    lemma LoadedBounded()
      requires Coupled()
      ensures |sets.loaded| <= cfg.layers
    {
      var all := FirstLayers(cfg.layers);
      forall l | l in sets.loaded ensures l in all { AgreesAt(l); }
      SubsetSize(sets.loaded, all);
    }

    /** The source's run-time assertions, layer by layer. */
    method CheckInvariants() returns (ok: bool)
      ensures ok <==> forall l :: 0 <= l < cfg.layers ==> Consistent(l)
    {
      ok := true;
      for layer := 0 to cfg.layers
        invariant ok <==> forall l :: 0 <= l < layer ==> Consistent(l)
      {
        if layer in sets.resident && layer !in sets.loaded { ok := false; }
        if layer in sets.reading && (layer in sets.loaded || layer in sets.resident) { ok := false; }
        if layer in sets.uploading && layer in sets.resident { ok := false; }
        if layer in sets.computing && layer in sets.ready { ok := false; }
        assert !ok ==> !(forall l :: 0 <= l < layer ==> Consistent(l)) || !Consistent(layer);
      }
    }

    predicate Consistent(l: int)
      reads this
    {
      && (l in sets.resident ==> l in sets.loaded)
      && (l in sets.reading ==> l !in sets.loaded && l !in sets.resident)
      && (l in sets.uploading ==> l !in sets.resident)
      && (l in sets.computing ==> l !in sets.ready)
    }

    lemma CoupledIsConsistent()
      requires Coupled()
      ensures forall l :: 0 <= l < cfg.layers ==> Consistent(l)
    {
      forall l | 0 <= l < cfg.layers ensures Consistent(l) { AgreesAt(l); }
    }
  }

  lemma PoppedKeepsStages(s: Sim, e: Event)
    ensures Popped(s, e).stages == s.stages && Popped(s, e).current == s.current
  {}

  /** A handler that expects a stage finds its layer in that stage. */
  lemma HandledTag(cfg: Config, s: Sim, e: Event)
    requires Inv(cfg, s) && Earliest(e, s.events) && AboutLayer(e.kind)
    ensures 0 <= e.layer < cfg.layers
    ensures e.kind != ReadStart && e.kind != UploadStart ==> e.kind == LiveKind(s.stages[e.layer].tag)
  {
    assert Expected(e, s.stages, s.now, s.current == cfg.layers);
  }

  lemma {:induction false} SubsetSize<T>(a: set<T>, b: set<T>)
    requires a <= b
    ensures |a| <= |b|
  {
    if |a| > 0 {
      var x :| x in a;
      SubsetSize(a - {x}, b - {x});
    }
  }

  // ---------------------------------------------------------------- the main loop

  datatype SimResult = SimResult(
    wall: real, gpuIdle: real, gpuBusy: real, log: seq<(nat, nat)>, finished: bool, tripped: bool)

  ghost predicate Complete(cfg: Config, s: Sim) {
    && CanFinish(cfg) && s.log == Schedule(Tokens(cfg), 0, cfg.layers) && s.inFlight == {}
    && s.gpuBusy == BusyTime(|s.log|, cfg.compute) && s.now == s.firstStart + s.gpuBusy + s.gpuIdle
  }

  /** In a finished run every streamed layer of every token was read and uploaded once, and the
      workers had the time for it. */
  ghost predicate WorkDone(cfg: Config, w: Watch, wall: real) {
    && |w.pastReads| == |w.pastUploads| == Tokens(cfg) * (cfg.layers - ResidentTop(cfg))
    && Affords(cfg.workers, wall, |w.pastReads|, cfg.ssdRead)
    && forall ms :: Level(cfg, ms) ==> Affords(cfg.workers, wall, |w.pastUploads|, ms)
  }

  lemma EndsAfterLayers(cfg: Config, s: Sim, e: Event)
    requires Inv(cfg, s) && e in s.events && e.kind == SimulationEnd
    ensures s.current == cfg.layers
  {
    assert Expected(e, s.stages, s.now, s.current == cfg.layers);
  }

  lemma EndedTimed(cfg: Config, s: Sim, e: Event, w: Watch)
    requires Inv(cfg, s) && e in s.events && e.kind == SimulationEnd && Timed(cfg, s, w)
    ensures WorkDone(cfg, w, s.now)
  {
    hide Inv, Timed, Tokens, ResidentTop, Level, Expected, Affords;
    EndsAfterLayers(cfg, s, e);
    FinishedCounts(cfg, s, w);
    FinishedReads(cfg, s, w);
    forall ms | Level(cfg, ms) ensures Affords(cfg.workers, s.now, |w.pastUploads|, ms) {
      FinishedUploads(cfg, s, w, ms);
    }
  }

  lemma TurnTimed(cfg: Config, s: Sim, e: Event, r: Sim, w: Watch)
    requires Inv(cfg, s) && Turn(cfg, s, e, r) && Timed(cfg, s, w)
    ensures Sized(s, w) && |r.stages| == |s.stages| && Timed(cfg, r, Watched(w, s, r, e.layer, LatencyNow(cfg, s)))
  {
    hide Inv, Handle, Watched, LatencyNow;
    HandleTimed(cfg, s, e, LatencyNow(cfg, s), w);
  }

  lemma RecordedTimes(cfg: Config, s: Sim, w: Watch)
    requires Timed(cfg, s, w)
    ensures ReadsEnded(cfg, w, s.now) && UploadsEnded(cfg, w, s.now)
    ensures forall t: real :: Overlap(w.pastReads, t) <= cfg.workers && Overlap(w.pastBookings, t) <= cfg.workers
    ensures forall ms :: Level(cfg, ms) ==> w.pastBookings == w.pastUploads
  {
    forall ms | Level(cfg, ms) ensures w.pastBookings == w.pastUploads { LevelOnTime(cfg, s, w, ms); }
    hide Overlap, BusyAfter, Counted, LayerTimed, ReadsEnded, UploadsEnded;
    forall t: real ensures Overlap(w.pastReads, t) <= cfg.workers && Overlap(w.pastBookings, t) <= cfg.workers {
      assert Overlap(LiveReads(cfg, s, w), t) + Overlap(w.pastReads, t) <= cfg.workers;
      assert Overlap(LiveUploads(s, w), t) + Overlap(w.pastBookings, t) <= cfg.workers;
    }
  }

  /** Every run, under every order of equal-time events. A run finishes exactly for the
      configurations in `CanFinish`; the others compute the layers before the stranded one and stop. */
  method Simulate(cfg: Config) returns (r: SimResult, ghost firstStart: real, ghost inFlight: set<int>, ghost w: Watch)
    requires Runnable(cfg)
    ensures !r.tripped
    ensures inFlight == {}
    ensures r.finished <==> CanFinish(cfg)
    ensures r.finished ==> r.log == Schedule(Tokens(cfg), 0, cfg.layers) && |r.log| == Tokens(cfg) * cfg.layers
    ensures !r.finished ==> r.log == Schedule(0, StuckAt(cfg), cfg.layers)
    ensures r.gpuBusy == BusyTime(|r.log|, cfg.compute)
    ensures r.finished ==> r.wall == firstStart + r.gpuBusy + r.gpuIdle
    ensures ReadsEnded(cfg, w, r.wall) && UploadsEnded(cfg, w, r.wall)
    ensures forall t: real :: Overlap(w.pastReads, t) <= cfg.workers && Overlap(w.pastBookings, t) <= cfg.workers
    ensures forall ms :: Level(cfg, ms) ==> w.pastBookings == w.pastUploads
    ensures r.finished ==> WorkDone(cfg, w, r.wall)
  {
    hide Agree, Stranded, Computes, StartToken, Accounted, TagOf, Expected, Schedule, Timed, Watched, Turn;
    hide LatencyNow, WorkDone, Level, Affords;
    var state := new SimState(cfg);
    state.StartToken();
    InitialKeeps(cfg);
    InitialTimed(cfg);
    w := Unwatched(cfg);
    var finished, tripped := false, false;
    while !finished && state.events != multiset{}
      invariant fresh(state) && state.cfg == cfg && state.Coupled() && !tripped
      invariant !finished ==> Inv(cfg, state.model)
      invariant finished ==> Complete(cfg, state.model)
      invariant Timed(cfg, state.model, w) && (finished ==> WorkDone(cfg, w, state.model.now))
      decreases !finished, Tokens(cfg) - state.model.token, cfg.layers - state.model.current,
                Work(state.model.stages), |state.model.events|
    {
      EarliestExists(state.events);
      var event :| Earliest(event, state.events);
      if event.kind == SimulationEnd {
        EndedRun(cfg, state.model, event);
        EndedTimed(cfg, state.model, event, w);
        state.now := event.time;
        finished := true;
      } else {
        ghost var before := state.model;
        var ok := state.RunEvent(event);
        TurnTimed(cfg, before, event, state.model, w);
        w := Watched(w, before, state.model, event.layer, LatencyNow(cfg, before));
        tripped := tripped || !ok;
      }
    }
    if !finished { DrainedRun(cfg, state.model); }
    RecordedTimes(cfg, state.model, w);
    ScheduleLength(Tokens(cfg), 0, cfg.layers);
    r := SimResult(state.now, state.gpuIdle, state.gpuBusy, state.log, finished, tripped);
    firstStart, inFlight := state.model.firstStart, state.model.inFlight;
  }
}
