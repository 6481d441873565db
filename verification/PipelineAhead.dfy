/** How far ahead of the computation the pipeline is filled: at any moment exactly the layers the
    window and the prefetch depth ask for have been submitted. */
module PipelineAhead {
  import opened Arithmetic
  import opened WorkerPools
  import opened PipelineModel
  import opened PipelineTiming

  predicate WithinReach(cfg: Config, distance: int) { distance <= cfg.window || distance <= cfg.prefetch }

  /** Layer `j` asks for layer `k`: it was computed in this token, or its read has ended. */
  predicate Asks(cfg: Config, s: Sim, j: nat, k: nat) {
    && j < k && WithinReach(cfg, k - j)
    && (j < s.current || (ResidentTop(cfg) <= j < |s.stages| && s.stages[j].tag in AFTER_READ))
  }

  /** Every token starts with the first layers in reach; the others need a layer that asks for them. */
  ghost predicate Wanted(cfg: Config, s: Sim, k: nat) { WithinReach(cfg, k) || exists j: nat :: Asks(cfg, s, j, k) }

  /** Of the streamed layers not yet computed, exactly those wanted are in the pipeline. */
  ghost predicate Filled(cfg: Config, s: Sim) {
    s.current < cfg.layers ==>
      forall k: nat :: s.current <= k < |s.stages| && ResidentTop(cfg) <= k ==>
        (s.stages[k].tag != Idle <==> Wanted(cfg, s, k))
  }

  lemma {:induction false} SameFilled(cfg: Config, s: Sim, r: Sim)
    requires Filled(cfg, s) && r.current == s.current && |r.stages| == |s.stages|
    requires forall k :: ResidentTop(cfg) <= k < |s.stages| ==>
      && (r.stages[k].tag == Idle <==> s.stages[k].tag == Idle)
      && (r.stages[k].tag in AFTER_READ <==> s.stages[k].tag in AFTER_READ)
    ensures Filled(cfg, r)
  {
    hide ResidentTop, WithinReach, AFTER_READ;
    forall j: nat, k: nat ensures Asks(cfg, r, j, k) <==> Asks(cfg, s, j, k) {}
    forall k: nat ensures Wanted(cfg, r, k) <==> Wanted(cfg, s, k) {}
  }

  lemma StartTokenFills(cfg: Config, s: Sim)
    requires |s.stages| == cfg.layers && s.current == 0 && forall l :: 0 <= l < cfg.layers ==> s.stages[l].tag == Idle
    ensures Filled(cfg, StartToken(cfg, s))
  {
    var s1, r := CheckResidentReady(cfg, s), StartToken(cfg, s);
    SubmitRangeStages(cfg, s1, 0, FirstWindow(cfg));
    forall k | 0 <= k < cfg.layers
      ensures SubmittedAt(s1.stages[k], r.stages[k], k, ResidentTop(cfg), 0, FirstWindow(cfg))
    {}
    hide ResidentTop, SubmitRange;
    forall j: nat, k: nat ensures !Asks(cfg, r, j, k) {
      if j < cfg.layers { assert SubmittedAt(s1.stages[j], r.stages[j], j, ResidentTop(cfg), 0, FirstWindow(cfg)); }
    }
  }

  /** The layers a finished read, or a compute, submits are those it asks for. */
  lemma AskedFor(cfg: Config, l: nat, k: nat)
    ensures l + 1 <= k < AheadEnd(cfg, l) <==> l < k && WithinReach(cfg, k - l)
  {}

  lemma ReadEndFills(cfg: Config, s: Sim, l: nat)
    requires |s.stages| == cfg.layers && s.current <= l < cfg.layers && l >= ResidentTop(cfg)
    requires s.stages[l].tag == Reading && Filled(cfg, s)
    ensures Filled(cfg, OnReadEnd(cfg, s, l))
  {
    var mid := s.(events := s.events + multiset{Event(s.now, UploadSubmit, l)},
                  stages := s.stages[l := At(ReadDone, s.now)]);
    var r := OnReadEnd(cfg, s, l);
    SubmitRangeStages(cfg, mid, l + 1, AheadEnd(cfg, l));
    hide ResidentTop, SubmitRange, WithinReach, AheadEnd;
    forall j: nat, k: nat
      ensures Asks(cfg, r, j, k) <==> Asks(cfg, s, j, k) || (j == l && l < k && WithinReach(cfg, k - l))
    {
      if j < cfg.layers {
        assert SubmittedAt(mid.stages[j], r.stages[j], j, ResidentTop(cfg), l + 1, AheadEnd(cfg, l));
      }
    }
    forall k: nat | s.current <= k < cfg.layers && ResidentTop(cfg) <= k
      ensures r.stages[k].tag != Idle <==> Wanted(cfg, r, k)
    {
      AskedFor(cfg, l, k);
      assert SubmittedAt(mid.stages[k], r.stages[k], k, ResidentTop(cfg), l + 1, AheadEnd(cfg, l));
      assert Asks(cfg, r, l, k) <==> l < k && WithinReach(cfg, k - l);
      assert Wanted(cfg, s, k) <==> s.stages[k].tag != Idle;
    }
  }

  lemma ComputedFills(cfg: Config, s: Sim, c: Sim, l: nat)
    requires |s.stages| == |c.stages| == cfg.layers && l == s.current == c.current < cfg.layers && Filled(cfg, s)
    requires forall k :: 0 <= k < cfg.layers ==>
      SubmittedAt(s.stages[l := AT_REST][k], c.stages[k], k, ResidentTop(cfg), l + 1, AheadEnd(cfg, l))
    requires s.stages[l].tag == Computing
    ensures Filled(cfg, c.(current := l + 1))
  {
    hide ResidentTop, WithinReach, AheadEnd;
    var r := c.(current := l + 1);
    forall j: nat, k: nat
      ensures Asks(cfg, r, j, k) <==> Asks(cfg, s, j, k) || (j == l && l < k && WithinReach(cfg, k - l))
    {
      if j < cfg.layers {
        assert SubmittedAt(s.stages[l := AT_REST][j], c.stages[j], j, ResidentTop(cfg), l + 1, AheadEnd(cfg, l));
      }
    }
    forall k: nat | l + 1 <= k < cfg.layers && ResidentTop(cfg) <= k
      ensures r.stages[k].tag != Idle <==> Wanted(cfg, r, k)
    {
      AskedFor(cfg, l, k);
      assert SubmittedAt(s.stages[l := AT_REST][k], c.stages[k], k, ResidentTop(cfg), l + 1, AheadEnd(cfg, l));
      assert Asks(cfg, r, l, k) <==> l < k && WithinReach(cfg, k - l);
      assert Wanted(cfg, s, k) <==> s.stages[k].tag != Idle;
    }
  }

  predicate Submits(k: Kind) { k == ReadEnd || k == ComputeEnd }

  /** The other handlers touch their own layer, and may start a ready one. */
  lemma QuietElsewhere(cfg: Config, s: Sim, e: Event, ms: real, k: nat)
    requires CanHandle(cfg, s, e) && !Submits(e.kind) && k < cfg.layers && k != e.layer
    ensures var r := Handle(cfg, s, e, ms);
      && |r.stages| == |s.stages| && r.current == s.current
      && (r.stages[k] == s.stages[k] || (s.stages[k].tag == Ready && r.stages[k].tag == Computing))
  {
    hide SubmitRange, ResidentTop, Acquired, StartTime;
  }

  lemma HandleCurrent(cfg: Config, s: Sim, e: Event, ms: real)
    requires CanHandle(cfg, s, e) && e.kind != ComputeEnd
    ensures Handle(cfg, s, e, ms).current == s.current
  {
    hide SubmitRange, ResidentTop, Acquired, StartTime;
  }

  lemma QuietFills(cfg: Config, s: Sim, e: Event, ms: real)
    requires Fires(cfg, s, e) && ms in cfg.uploadMs && !Submits(e.kind) && Filled(cfg, s)
    ensures CanHandle(cfg, s, e) && Filled(cfg, Handle(cfg, s, e, ms))
  {
    FiresFiring(cfg, s, e, ms);
    var r := Handle(cfg, s, e, ms);
    OwnStage(cfg, s, e, ms, r);
    OwnTags(cfg, s, e, ms, r);
    OwnNotIdle(cfg, s, e, ms, r);
    hide Handle, Effect, Inv, Fires, Filled, Firing, ResidentTop;
    forall k | ResidentTop(cfg) <= k < |s.stages|
      ensures r.stages[k].tag == Idle <==> s.stages[k].tag == Idle
      ensures r.stages[k].tag in AFTER_READ <==> s.stages[k].tag in AFTER_READ
    {
      if k != e.layer { QuietElsewhere(cfg, s, e, ms, k); }
    }
    HandleCurrent(cfg, s, e, ms);
    SameFilled(cfg, s, r);
  }

  lemma OwnNotIdle(cfg: Config, s: Sim, e: Event, ms: real, r: Sim)
    requires Firing(cfg, s, e, ms, r) && |r.stages| == |s.stages| && e.kind != ComputeEnd
    ensures s.stages[e.layer].tag != Idle && r.stages[e.layer].tag != Idle
  {
    OwnStage(cfg, s, e, ms, r);
    hide Acquired, StartTime, ResidentTop, Effect;
  }

  lemma IgnoredFills(cfg: Config, s: Sim, r: Sim)
    requires Filled(cfg, s) && r.stages == s.stages && r.current == s.current
    ensures Filled(cfg, r)
  {
    SameFilled(cfg, s, r);
  }

  lemma AdvanceFills(cfg: Config, c: Sim)
    requires Runnable(cfg) && Structured(cfg, c) && Settled(cfg, c) && c.current < cfg.layers && c.token < Tokens(cfg)
    requires c.stages[c.current].tag == Idle && Filled(cfg, c.(current := c.current + 1))
    requires c.current + 1 < cfg.layers && c.current + 1 < ResidentTop(cfg) ==> c.stages[c.current + 1].tag == Idle
    ensures Filled(cfg, AdvanceLayer(cfg, c))
  {
    if c.current + 1 < cfg.layers {
      NextLayerStructure(cfg, c);
      hide AdvanceLayer, Structured, Settled, ResidentTop, Runnable, Filled;
      SameFilled(cfg, c.(current := c.current + 1), AdvanceLayer(cfg, c));
    } else if c.token + 1 < Tokens(cfg) {
      BoundaryIdle(cfg, c);
      StartTokenFills(cfg, TokenDone(cfg, c.(current := c.current + 1)).(current := 0));
    }
  }

  lemma StructuredSize(cfg: Config, s: Sim)
    requires Structured(cfg, s)
    ensures |s.stages| == cfg.layers
  {}

  lemma ComputeEndFills(cfg: Config, s: Sim, e: Event)
    requires Fires(cfg, s, e) && e.kind == ComputeEnd && Filled(cfg, s)
    ensures Filled(cfg, OnComputeEnd(cfg, Popped(s, e), e.layer))
  {
    hide Computed, AdvanceLayer, ResidentTop, Filled, Structured, Settled, Accounted, Progressing, Schedule;
    StructuredSize(cfg, s);
    var c := Computed(cfg, Popped(s, e), e.layer);
    ComputingStage(s, e);
    ComputedNext(cfg, s, e);
    ComputedKeeps(cfg, s, e);
    StructuredSize(cfg, c);
    ComputedSettles(cfg, s, e);
    ComputedFills(cfg, s, c, e.layer);
    AdvanceFills(cfg, c);
  }

  /** Whatever event fires, exactly the layers wanted are in the pipeline. */
  lemma HandleFills(cfg: Config, s: Sim, e: Event, ms: real)
    requires Runnable(cfg) && Inv(cfg, s) && Earliest(e, s.events) && e.kind != SimulationEnd
    requires ms in cfg.uploadMs && Filled(cfg, s)
    ensures CanHandle(cfg, s, e) && Filled(cfg, Handle(cfg, s, e, ms))
  {
    hide Accounted, Progressing, LiveEvent, Filled, OnReadEnd, OnComputeEnd, OnPrefetchSubmit, OnUploadSubmit;
    hide OnUploadEnd, OnResidentApply, OnResidentApplyEnd;
    assert Expected(e, s.stages, s.now, s.current == cfg.layers);
    if e.kind == EvictEnd {
      IgnoredFills(cfg, s, Popped(s, e));
    } else {
      assert OrderedAt(s.stages[e.layer], e.layer, ResidentTop(cfg), s.current, s.gpuBusyUntil);
      if Stale(e, s.stages[e.layer]) {
        IgnoredFills(cfg, s, Popped(s, e));
      } else if e.kind == ComputeEnd {
        ComputeEndFills(cfg, s, e);
      } else if e.kind == ReadEnd {
        FiresAt(cfg, s, e);
        IgnoredFills(cfg, s, Popped(s, e));
        ReadEndFills(cfg, Popped(s, e), e.layer);
      } else {
        QuietFills(cfg, s, e, ms);
      }
    }
  }

  lemma InitialFills(cfg: Config)
    ensures Filled(cfg, StartToken(cfg, Initial(cfg)))
  {
    StartTokenFills(cfg, Initial(cfg));
  }

  lemma {:induction false} RunFills(cfg: Config, states: seq<Sim>, events: seq<Event>, n: nat)
    requires Run(cfg, states, events) && n <= |events|
    ensures Filled(cfg, states[n])
  {
    hide Filled, Initial, StartToken, Turn, Timed, Inv;
    if n == 0 {
      InitialFills(cfg);
    } else {
      RunFills(cfg, states, events, n - 1);
      var w := RunTimed(cfg, states, events, n - 1);
      TurnFills(cfg, states[n - 1], events[n - 1], states[n]);
    }
  }

  lemma TurnFills(cfg: Config, s: Sim, e: Event, r: Sim)
    requires Turn(cfg, s, e, r) && Inv(cfg, s) && Filled(cfg, s)
    ensures Filled(cfg, r)
  {
    hide Filled, Handle, Inv, LatencyNow;
    HandleFills(cfg, s, e, LatencyNow(cfg, s));
  }

  /** In every reachable state exactly the layers wanted are in the pipeline. */
  lemma AlwaysFilled(cfg: Config, s: Sim)
    requires Reached(cfg, s)
    ensures Filled(cfg, s)
  {
    hide Turn, Filled;
    var states: seq<Sim>, events: seq<Event> :| Run(cfg, states, events) && states[|events|] == s;
    RunFills(cfg, states, events, |events|);
  }
}
