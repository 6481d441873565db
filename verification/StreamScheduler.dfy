/** The streaming scheduler as the object its threads share. Each method is one step that is
    atomic under the interpreter's queues and locks, and refines the step of its name. */
module StreamScheduler {
  import opened Common
  import opened Streaming

  /** A block is what its layer holds on the device: None if the apply that loaded it raised. */
  datatype EnsureResult = Returned(block: Option<seq<Byte>>) | PrefetchError | StillWaiting

  class StreamingScheduler {
    const env: Env
    var prefetching: bool
    var contents: map<nat, seq<Byte>>
    var next: nat
    var pool: seq<nat>
    var jobs: map<Owner, Job>
    var futures: set<int>
    var compute: Compute
    var loaded: set<int>
    var blocks: map<int, Option<seq<Byte>>>
    var residents: map<int, seq<Byte>>
    var hits: nat
    var waits: nat
    var misses: nat

    function View(): State
      reads this
    {
      State(prefetching, contents, next, pool, jobs, futures, compute, loaded, blocks, residents, hits, waits, misses)
    }

    ghost predicate Valid()
      reads this
    {
      Inv(env, View())
    }

    constructor (env: Env)
      ensures Valid() && View() == Initial() && this.env == env
    {
      this.env := env;
      prefetching, contents, next, pool, jobs, futures, compute := true, map[], 0, [], map[], {}, Idle;
      loaded, blocks, residents, hits, waits, misses := {}, map[], map[], 0, 0, 0;
    }

    // -------------------------------------------------------------- readers and uploaders

    method StartRead(o: Owner, direct: bool)
      modifies this`jobs, this`pool
      ensures View() == Streaming.StartRead(env, old(View()), o, direct)
      ensures o in old(jobs) && old(jobs)[o].Queued? && env.shard(old(jobs)[o].layer).Some? ==>
        var reuses := direct && old(pool) != [];
        && o in jobs && jobs[o] == Reading(old(jobs)[o].layer, if reuses then Some(old(pool)[0]) else None, direct)
        && pool == if reuses then old(pool)[1..] else old(pool)
    {
      if o !in jobs || !jobs[o].Queued? { return; }
      var l := jobs[o].layer;
      if env.shard(l).None? {
        jobs := jobs[o := Finished(l, None)];
      } else if direct && pool != [] {
        jobs := jobs[o := Reading(l, Some(pool[0]), true)];
        pool := pool[1..];
      } else {
        jobs := jobs[o := Reading(l, None, direct)];
      }
    }

    method Scribble(o: Owner, bytes: seq<Byte>)
      modifies this`contents
      ensures View() == Streaming.Scribble(old(View()), o, bytes)
    {
      if o in jobs && jobs[o].Reading? && jobs[o].buffer.Some? {
        contents := contents[jobs[o].buffer.value := bytes];
      }
    }

    method FinishRead(o: Owner, how: How)
      modifies this`jobs, this`contents, this`next
      ensures View() == Streaming.FinishRead(env, old(View()), o, how)
      ensures o in old(jobs) && old(jobs)[o].Reading? && old(jobs)[o].direct && env.shard(old(jobs)[o].layer).Some? ==>
        var file := if how.PlainFile? then env.shard(old(jobs)[o].layer).value else how.packed;
        var given := old(jobs)[o].buffer;
        && o in jobs && jobs[o].Fetched? && jobs[o].buffer.Some? && jobs[o].buffer.value in contents
        && file <= contents[jobs[o].buffer.value]
        && jobs[o].payload.View? == how.PlainFile?
        && (given.Some? && given.value in old(contents) && |old(contents)[given.value]| >= |file| ==>
              jobs[o].buffer == given && next == old(next))
    {
      if o !in jobs || !jobs[o].Reading? || env.shard(jobs[o].layer).None? { return; }
      var l, bytes, buffer := jobs[o].layer, env.shard(jobs[o].layer).value, jobs[o].buffer;
      if !jobs[o].direct {
        jobs := jobs[o := Fetched(l, Own(bytes), buffer)];
        return;
      }
      var data := if how.PlainFile? then bytes else how.packed;
      var b: nat;
      if buffer.None? || buffer.value !in contents || |contents[buffer.value]| < |data| {
        b, next := next, next + 1;
        contents := contents[b := data];
      } else {
        b := buffer.value;
        contents := contents[b := data + contents[b][|data|..]];
      }
      jobs := jobs[o := Fetched(l, if how.PlainFile? then Payload.View(b, |data|) else Own(bytes), Some(b))];
    }

    method Release(o: Owner, result: Option<seq<Byte>>)
      requires o in jobs
      modifies this`jobs, this`pool
      ensures View() == Streaming.Release(old(View()), o, result)
    {
      var b := BufferOf(jobs[o]);
      if b.Some? { pool := pool + [b.value]; }
      jobs := jobs[o := Finished(jobs[o].layer, result)];
    }

    method FailRead(o: Owner)
      modifies this`jobs, this`pool
      ensures View() == Streaming.FailRead(old(View()), o)
    {
      if o in jobs && jobs[o].Reading? { Release(o, None); }
    }

    method FailParse(o: Owner)
      modifies this`jobs, this`pool
      ensures View() == Streaming.FailParse(old(View()), o)
    {
      if o in jobs && jobs[o].Fetched? { Release(o, None); }
    }

    method StartUpload(o: Owner)
      modifies this`jobs
      ensures View() == Streaming.StartUpload(old(View()), o)
    {
      if o in jobs && jobs[o].Fetched? { jobs := jobs[o := Uploading(jobs[o].layer, jobs[o].payload, jobs[o].buffer)]; }
    }

    method RefuseUpload(o: Owner)
      modifies this`jobs
      ensures View() == Streaming.RefuseUpload(old(View()), o)
    {
      if o in jobs && jobs[o].Fetched? { jobs := jobs[o := Finished(jobs[o].layer, None)]; }
    }

    method FinishUpload(o: Owner)
      modifies this`jobs, this`pool
      ensures View() == Streaming.FinishUpload(old(View()), o)
    {
      if o in jobs && jobs[o].Uploading? { Release(o, Some(Bytes(View(), jobs[o].payload))); }
    }

    method FailUpload(o: Owner)
      modifies this`jobs, this`pool
      ensures View() == Streaming.FailUpload(old(View()), o)
    {
      if o in jobs && jobs[o].Uploading? { Release(o, None); }
    }

    // -------------------------------------------------------------- the compute thread

    method LoadResident(l: int)
      modifies this`residents
      ensures View() == Streaming.LoadResident(env, old(View()), l)
      ensures 0 <= l < env.residentCount && l !in old(residents) && env.shard(l).Some? ==>
        residents == old(residents)[l := env.shard(l).value]
    {
      if 0 <= l < env.residentCount && l !in residents && env.shard(l).Some? {
        residents := residents[l := env.shard(l).value];
      }
    }

    method Prefetch(l: int)
      modifies this`futures, this`jobs
      ensures View() == Streaming.Prefetch(env, old(View()), l)
      ensures var submits := old(compute) == Idle && prefetching && 0 <= l < env.layers && l >= env.residentCount
          && l !in loaded && l !in old(futures);
        && futures == old(futures) + (if submits then {l} else {})
        && jobs == if submits then old(jobs)[Worker(l) := Queued(l)] else old(jobs)
    {
      if compute != Idle || !prefetching || l < 0 || l >= env.layers || l < env.residentCount { return; }
      if l in loaded || l in futures { return; }
      futures, jobs := futures + {l}, jobs[Worker(l) := Queued(l)];
    }

    method Apply(l: int, bytes: seq<Byte>, ok: bool)
      modifies this`loaded, this`blocks
      ensures View() == Streaming.Apply(old(View()), l, bytes, ok)
    {
      blocks := blocks[l := if ok then Some(bytes) else None];
      loaded := loaded + {l};
    }

    method EnsureBegin(l: int, applies: bool)
      modifies this`loaded, this`blocks, this`futures, this`compute, this`hits, this`waits, this`misses, this`jobs
      ensures View() == Streaming.EnsureBegin(env, old(View()), l, applies)
      ensures var starts := old(compute) == Idle && 0 <= l < env.layers && l !in old(loaded);
        var resident, submitted := l < env.residentCount && l in residents, l in old(futures);
        var done := Worker(l) in old(jobs) && old(jobs)[Worker(l)].Finished?;
        && (starts && resident ==>
            compute == Idle && l in loaded && blocks[l] == if applies then Some(residents[l]) else None)
        && (starts && !resident && submitted ==> compute == Waiting(l) && futures == old(futures) - {l})
        && (starts && !resident && !submitted ==> compute == Syncing(l) && jobs == old(jobs)[Caller := Queued(l)])
        && hits == old(hits) + (if starts && !resident && submitted && done then 1 else 0)
        && waits == old(waits) + (if starts && !resident && submitted && !done then 1 else 0)
        && misses == old(misses) + (if starts && !resident && !submitted then 1 else 0)
    {
      if compute != Idle || l < 0 || l >= env.layers || l in loaded { return; }
      if l < env.residentCount && l in residents {
        Apply(l, residents[l], applies);
      } else if l in futures {
        futures, compute := futures - {l}, Waiting(l);
        if Worker(l) in jobs && jobs[Worker(l)].Finished? { hits := hits + 1; } else { waits := waits + 1; }
      } else {
        compute, misses, jobs := Syncing(l), misses + 1, jobs[Caller := Queued(l)];
      }
    }

    method EnsureWake(applies: bool)
      modifies this`loaded, this`blocks, this`compute, this`jobs
      ensures View() == Streaming.EnsureWake(old(View()), applies)
    {
      if compute == Idle { return; }
      var l, o := compute.layer, if compute.Waiting? then Worker(compute.layer) else Caller;
      if o !in jobs || !jobs[o].Finished? { return; }
      var result := jobs[o].result;
      jobs := jobs - {o};
      if result.Some? {
        compute := Idle;
        Apply(l, result.value, applies);
      } else if compute.Waiting? {
        compute, jobs := Syncing(l), jobs[Caller := Queued(l)];
      } else {
        compute := Idle;
      }
    }

    /** An eviction takes the layer off the device: between calls, and unless the whole model is resident. */
    twostate predicate Leaves(l: int)
      reads this
    {
      && old(compute == Idle && 0 <= l < env.layers && l in loaded)
      && (l >= env.residentCount || env.residentCount < env.layers)
    }

    method Evict(l: int)
      modifies this`loaded, this`blocks, this`futures
      ensures View() == Streaming.Evict(env, old(View()), l)
      ensures Leaves(l) ==> l !in loaded && l !in blocks
      ensures !Leaves(l) ==> View() == old(View())
      ensures forall k :: k != l ==> (k in loaded <==> k in old(loaded)) && (k in blocks <==> k in old(blocks))
      ensures forall k :: k in old(blocks) && k != l ==> blocks[k] == old(blocks)[k]
      ensures residents == old(residents) && jobs == old(jobs) && pool == old(pool) && contents == old(contents)
    {
      if compute != Idle || l < 0 || l >= env.layers || l !in loaded { return; }
      if l < env.residentCount && env.residentCount >= env.layers { return; }
      loaded, blocks := loaded - {l}, blocks - {l};
      if l >= env.residentCount { futures := futures - {l}; }
    }

    /** One step of any thread. */
    method Perform(step: Step)
      requires Valid()
      modifies this
      ensures Valid() && View() == Do(env, old(View()), step)
    {
      hide Inv, Streaming.LoadResident, Streaming.Prefetch, Streaming.EnsureBegin, Streaming.EnsureWake;
      hide Streaming.Evict, Streaming.StartRead, Streaming.Scribble, Streaming.FinishRead, Streaming.FailRead;
      hide Streaming.StartUpload, Streaming.FailParse, Streaming.RefuseUpload, Streaming.FinishUpload;
      hide Streaming.FailUpload;
      StepKeeps(env, View(), step);
      match step {
        case LoadResidentStep(l) => LoadResident(l);
        case PrefetchStep(l) => Prefetch(l);
        case DisablePrefetchStep => prefetching := false;
        case EnsureStep(l, applies) => EnsureBegin(l, applies);
        case WakeStep(applies) => EnsureWake(applies);
        case EvictStep(l) => Evict(l);
        case StartReadStep(o, direct) => StartRead(o, direct);
        case ScribbleStep(o, bytes) => Scribble(o, bytes);
        case FinishReadStep(o, how) => FinishRead(o, how);
        case FailReadStep(o) => FailRead(o);
        case FailParseStep(o) => FailParse(o);
        case StartUploadStep(o) => StartUpload(o);
        case RefuseUploadStep(o) => RefuseUpload(o);
        case FinishUploadStep(o) => FinishUpload(o);
        case FailUploadStep(o) => FailUpload(o);
      }
    }

    /** A whole call, whatever the other threads do meanwhile. A layer already marked loaded is
        handed back as it is, broken or not. Any other layer is handed back exactly when it was
        read and applied; an error means that its read failed, or that applying it did. What is
        handed back is the layer's own shard exactly if no earlier apply had left it broken. */
    method Ensure(l: int, applies: bool, during: seq<Step>) returns (r: EnsureResult)
      requires Valid() && compute == Idle && 0 <= l < env.layers
      modifies this
      ensures Valid() && View() == Waited(env, Streaming.EnsureBegin(env, old(View()), l, applies), applies, during)
      ensures r.StillWaiting? <==> compute != Idle
      ensures l in old(loaded) ==> l in old(blocks) && r == Returned(old(blocks)[l]) && View() == old(View())
      ensures l !in old(loaded) ==> (r.Returned? <==> compute == Idle && l in loaded && l in blocks && blocks[l].Some?)
      ensures r.PrefetchError? && l in loaded ==> WakeStep(!applies) in during || !applies
      ensures r.Returned? ==> l in blocks && r.block == blocks[l]
      ensures r.Returned? ==> (r.block == env.shard(l) <==> (l in old(loaded) ==> old(blocks)[l].Some?))
    {
      hide Owned, SetJob, JobOk, JobsOk, Distinct, Wired, BlocksOk, BufferOf, Inv, Do, Settled;
      LoadedBlocks(env, View());
      if l in loaded { return Returned(blocks[l]); }
      BeginSettles(env, View(), l, applies);
      EnsureBegin(l, applies);
      EnsureBeginKeeps(env, old(View()), l, applies);
      ghost var begun := View();
      var i := 0;
      while i < |during| && compute != Idle
        invariant i <= |during| && Valid()
        invariant Waited(env, View(), applies, during[i..]) == Waited(env, begun, applies, during)
      {
        assert during[i..][0] == during[i] && during[i..][1..] == during[i + 1..];
        Perform(during[i]);
        ghost var before := View();
        EnsureWake(applies);
        EnsureWakeKeeps(env, before, applies);
        i := i + 1;
      }
      if compute != Idle { return StillWaiting; }
      if WakeStep(!applies) !in during { CallSettled(env, begun, l, applies, during); }
      if l !in loaded { return PrefetchError; }
      LoadedBlocks(env, View());
      r := if blocks[l].Some? then Returned(blocks[l]) else PrefetchError;
    }
  }

  lemma CallSettled(env: Env, begun: State, l: int, applies: bool, during: seq<Step>)
    requires Settled(begun, l, applies) && WakeStep(!applies) !in during
    ensures var s := Waited(env, begun, applies, during);
      s.compute == Idle && l in s.loaded ==> l in s.blocks && (s.blocks[l].Some? <==> applies)
  {
    hide Waited;
    WaitedSettles(env, begun, l, applies, during);
  }
}
