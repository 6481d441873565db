/** The streaming scheduler as interleaved steps of a compute thread, readers and uploaders
    over shared read buffers.

    A read may leave any bytes in its buffer until it completes, and an upload copies the
    payload out only when it completes: a buffer reused in between would corrupt a layer. */
module Streaming {
  import opened Common

  type Byte = bv8

  datatype Env = Env(shard: int -> Option<seq<Byte>>, layers: nat, residentCount: nat)

  /** Parsed tensors are views: into a read buffer, or into memory of their own (a memory map,
      a decompressed payload, a legacy archive). */
  datatype Payload = View(buffer: nat, size: nat) | Own(bytes: seq<Byte>)

  datatype Job =
    | Queued(layer: int)
    | Reading(layer: int, buffer: Option<nat>, direct: bool)
    | Fetched(layer: int, payload: Payload, buffer: Option<nat>)
    | Uploading(layer: int, payload: Payload, buffer: Option<nat>)
    | Finished(layer: int, result: Option<seq<Byte>>)

  /** A prefetch of a layer by the pools, or the compute thread's own synchronous read. */
  datatype Owner = Worker(layer: int) | Caller

  datatype Compute = Idle | Waiting(layer: int) | Syncing(layer: int)

  datatype State = State(
    prefetching: bool, contents: map<nat, seq<Byte>>, next: nat, pool: seq<nat>,
    jobs: map<Owner, Job>, futures: set<int>, compute: Compute,
    loaded: set<int>, blocks: map<int, Option<seq<Byte>>>, residents: map<int, seq<Byte>>,
    hits: nat, waits: nat, misses: nat)

  function Initial(): State { State(true, map[], 0, [], map[], {}, Idle, {}, map[], map[], 0, 0, 0) }

  function BufferOf(j: Job): Option<nat> {
    if j.Reading? || j.Fetched? || j.Uploading? then j.buffer else None
  }

  function Bytes(s: State, p: Payload): seq<Byte> {
    match p
    case Own(bytes) => bytes
    case View(b, n) => if b in s.contents && n <= |s.contents[b]| then s.contents[b][..n] else []
  }

  // ---------------------------------------------------------------- steps of readers and uploaders

  /** What a file turned out to be: plain bytes, or packed ones decoded into memory of their own. */
  datatype How = PlainFile | PackedFile(packed: seq<Byte>)

  /** Only the compute thread changes what is on the device. */
  predicate SameBlocks(s: State,
                       r: State) { r.blocks == s.blocks && r.loaded == s.loaded && r.residents == s.residents }

  function SetJob(s: State, o: Owner, j: Job): State { s.(jobs := s.jobs[o := j]) }

  /** Take the first free buffer, if the read is direct and there is one. */
  function StartRead(env: Env, s: State, o: Owner, direct: bool): (r: State)
    ensures SameBlocks(s, r)
  {
    if o !in s.jobs || !s.jobs[o].Queued? then s
    else
      var l := s.jobs[o].layer;
      if env.shard(l).None? then SetJob(s, o, Finished(l, None))
      else if direct && s.pool != [] then SetJob(s.(pool := s.pool[1..]), o, Reading(l, Some(s.pool[0]), true))
      else SetJob(s, o, Reading(l, None, direct))
  }

  /** A read in progress leaves anything in its buffer. */
  function Scribble(s: State, o: Owner, bytes: seq<Byte>): (r: State)
    ensures SameBlocks(s, r)
  {
    if o !in s.jobs || !s.jobs[o].Reading? || s.jobs[o].buffer.None? then s
    else s.(contents := s.contents[s.jobs[o].buffer.value := bytes])
  }

  /** Complete a read; a buffer too small for the file is replaced by a new one. */
  function FinishRead(env: Env, s: State, o: Owner, how: How): (r: State)
    ensures SameBlocks(s, r)
  {
    if o !in s.jobs || !s.jobs[o].Reading? || env.shard(s.jobs[o].layer).None? then s
    else
      var l, bytes, buffer := s.jobs[o].layer, env.shard(s.jobs[o].layer).value, s.jobs[o].buffer;
      if !s.jobs[o].direct then SetJob(s, o, Fetched(l, Own(bytes), buffer))
      else
        var data := if how.PlainFile? then bytes else how.packed;
        var fits := buffer.Some? && buffer.value in s.contents && |s.contents[buffer.value]| >= |data|;
        var b := if fits then buffer.value else s.next;
        var s1 := s.(contents := s.contents[b := if fits then data + s.contents[b][|data|..] else data],
                     next := if fits then s.next else s.next + 1);
        SetJob(s1, o, Fetched(l, if how.PlainFile? then View(b, |data|) else Own(bytes), Some(b)))
  }

  /** End a job with a result, its buffer back in the free list. */
  function Release(s: State, o: Owner, result: Option<seq<Byte>>): (r: State)
    requires o in s.jobs
    ensures SameBlocks(s, r)
  {
    var b := BufferOf(s.jobs[o]);
    SetJob(s.(pool := s.pool + if b.Some? then [b.value] else []), o, Finished(s.jobs[o].layer, result))
  }

  /** The read raises: the buffer it was given goes back, not one that replaced it. */
  function FailRead(s: State, o: Owner): (r: State)
    ensures SameBlocks(s, r)
  {
    if o in s.jobs && s.jobs[o].Reading? then Release(s, o, None) else s
  }

  /** Parsing what was read raises: the buffer goes back, grown as it may be. */
  function FailParse(s: State, o: Owner): (r: State)
    ensures SameBlocks(s, r)
  {
    if o in s.jobs && s.jobs[o].Fetched? then Release(s, o, None) else s
  }

  function StartUpload(s: State, o: Owner): (r: State)
    ensures SameBlocks(s, r)
  {
    if o in s.jobs &&
      s.jobs[o].Fetched? then SetJob(s, o, Uploading(s.jobs[o].layer, s.jobs[o].payload, s.jobs[o].buffer)) else s
  }

  /** The uploader refuses the job: its buffer is not reused. */
  function RefuseUpload(s: State, o: Owner): (r: State)
    ensures SameBlocks(s, r)
  {
    if o in s.jobs && s.jobs[o].Fetched? then SetJob(s, o, Finished(s.jobs[o].layer, None)) else s
  }

  function FinishUpload(s: State, o: Owner): (r: State)
    ensures SameBlocks(s, r)
  {
    if o in s.jobs && s.jobs[o].Uploading? then Release(s, o, Some(Bytes(s, s.jobs[o].payload))) else s
  }

  function FailUpload(s: State, o: Owner): (r: State)
    ensures SameBlocks(s, r)
  {
    if o in s.jobs && s.jobs[o].Uploading? then Release(s, o, None) else s
  }

  // ---------------------------------------------------------------- steps of the compute thread

  /** Put bytes into a block; even an apply that fails marks the layer loaded. */
  function Apply(s: State, l: int, bytes: seq<Byte>, ok: bool): State {
    s.(loaded := s.loaded + {l}, blocks := s.blocks[l := if ok then Some(bytes) else None])
  }

  function LoadResident(env: Env, s: State, l: int): State {
    if 0 <= l < env.residentCount && l !in s.residents && env.shard(l).Some?
    then s.(residents := s.residents[l := env.shard(l).value]) else s
  }

  function Prefetch(env: Env, s: State, l: int): State {
    if s.compute != Idle || !s.prefetching || l < 0 || l >= env.layers || l < env.residentCount
       || l in s.loaded || l in s.futures then s
    else SetJob(s.(futures := s.futures + {l}), Worker(l), Queued(l))
  }

  function EnsureBegin(env: Env, s: State, l: int, applies: bool): State {
    if s.compute != Idle || l < 0 || l >= env.layers || l in s.loaded then s
    else if l < env.residentCount && l in s.residents then Apply(s, l, s.residents[l], applies)
    else if l in s.futures then
      var done := Worker(l) in s.jobs && s.jobs[Worker(l)].Finished?;
      s.(futures := s.futures - {l}, compute := Waiting(l),
         hits := s.hits + (if done then 1 else 0), waits := s.waits + (if done then 0 else 1))
    else SetJob(s.(compute := Syncing(l), misses := s.misses + 1), Caller, Queued(l))
  }

  /** Go on once the awaited job has finished: apply its result, fall back to a synchronous
      read, or give up. */
  function EnsureWake(s: State, applies: bool): State {
    match s.compute
    case Idle => s
    case Waiting(l) =>
      if Worker(l) !in s.jobs || !s.jobs[Worker(l)].Finished? then s
      else
        var result, s1 := s.jobs[Worker(l)].result, s.(jobs := s.jobs - {Worker(l)});
        if result.Some? then Apply(s1.(compute := Idle), l, result.value, applies)
        else SetJob(s1.(compute := Syncing(l)), Caller, Queued(l))
    case Syncing(l) =>
      if Caller !in s.jobs || !s.jobs[Caller].Finished? then s
      else
        var result, s1 := s.jobs[Caller].result, s.(jobs := s.jobs - {Caller}, compute := Idle);
        if result.Some? then Apply(s1, l, result.value, applies) else s1
  }

  function Evict(env: Env, s: State, l: int): State {
    if s.compute != Idle || l < 0 || l >= env.layers || l !in s.loaded
       || (l < env.residentCount && env.residentCount >= env.layers) then s
    else s.(loaded := s.loaded - {l}, blocks := s.blocks - {l},
            futures := if l >= env.residentCount then s.futures - {l} else s.futures)
  }

  // ---------------------------------------------------------------- the invariant

  /** Every buffer has at most one owner: the free list, once, or one job. */
  ghost predicate Owned(s: State) {
    && Distinct(s.pool)
    && (forall b: nat :: b in s.contents <==> b < s.next)
    && (forall b :: b in s.pool ==> b < s.next)
    && (forall o :: o in s.jobs && BufferOf(s.jobs[o]).Some? ==>
          BufferOf(s.jobs[o]).value < s.next && BufferOf(s.jobs[o]).value !in s.pool)
    && (forall o, p :: o in s.jobs && p in s.jobs && o != p && BufferOf(s.jobs[o]).Some? ==>
          BufferOf(s.jobs[o]) != BufferOf(s.jobs[p]))
  }

  /** Which jobs there are: one per future or awaited layer, none of a loaded layer. */
  ghost predicate Wired(env: Env, s: State) {
    && s.futures !! s.loaded
    && (forall l :: l in s.futures ==> l >= env.residentCount)
    && (forall l :: Worker(l) in s.jobs <==> l in s.futures || s.compute == Waiting(l))
    && (forall l :: Worker(l) in s.jobs ==> s.jobs[Worker(l)].layer == l)
    && (Caller in s.jobs <==> s.compute.Syncing?)
    && (s.compute.Syncing? ==> s.jobs[Caller].layer == s.compute.layer)
    && (!s.compute.Idle? ==> s.compute.layer !in s.loaded && s.compute.layer !in s.futures)
  }

  /** A payload not yet uploaded is intact, and a result is the layer's own bytes. */
  ghost predicate JobOk(env: Env, s: State, j: Job) {
    match j
    case Queued(_) => true
    case Reading(_, b, direct) => b.Some? ==> direct
    case Fetched(l, p, b) => PayloadOk(env, s, l, p, b)
    case Uploading(l, p, b) => PayloadOk(env, s, l, p, b)
    case Finished(l, result) => result.Some? ==> env.shard(l) == result
  }

  ghost predicate PayloadOk(env: Env, s: State, l: int, p: Payload, b: Option<nat>) {
    && env.shard(l) == Some(Bytes(s, p))
    && (p.View? ==> b == Some(p.buffer) && p.buffer in s.contents && p.size <= |s.contents[p.buffer]|)
  }

  /** A loaded block holds exactly its own shard's bytes, unless applying them failed. */
  ghost predicate BlocksOk(env: Env, s: State) {
    && s.blocks.Keys == s.loaded
    && (forall l :: l in s.blocks && s.blocks[l].Some? ==> s.blocks[l] == env.shard(l))
    && (forall l :: l in s.loaded ==> env.shard(l).Some?)
    && (forall l :: l in s.residents ==> env.shard(l) == Some(s.residents[l]))
  }

  ghost predicate Inv(env: Env, s: State) {
    Owned(s) && Wired(env, s) && BlocksOk(env, s) && JobsOk(env, s)
  }

  ghost predicate JobsOk(env: Env, s: State) { forall o :: o in s.jobs ==> JobOk(env, s, s.jobs[o]) }

  // ---------------------------------------------------------------- what the steps keep

  /** A job is untouched by writes to buffers it does not own. */
  lemma JobFrame(env: Env, s: State, r: State, j: Job)
    requires JobOk(env, s, j)
    requires BufferOf(j).Some? && BufferOf(j).value in s.contents ==>
      BufferOf(j).value in r.contents && r.contents[BufferOf(j).value] == s.contents[BufferOf(j).value]
    ensures JobOk(env, r, j)
  {}

  lemma JobIsOk(env: Env, s: State, o: Owner)
    requires Inv(env, s) && o in s.jobs
    ensures JobOk(env, s, s.jobs[o])
  {}

  lemma FinishedOk(env: Env, s: State, l: int, result: Option<seq<Byte>>)
    requires result.Some? ==> env.shard(l) == result
    ensures JobOk(env, s, Finished(l, result))
  {}

  lemma NoPayloadOk(env: Env, s: State, j: Job)
    requires j.Queued? || (j.Reading? && (j.buffer.Some? ==> j.direct))
    ensures JobOk(env, s, j)
  {}

  lemma ReadingDirect(env: Env, s: State, j: Job)
    requires JobOk(env, s, j) && j.Reading?
    ensures j.buffer.Some? ==> j.direct
  {}

  /** One job of the same layer in another stage. */
  lemma SameWiring(env: Env, s: State, r: State, o: Owner)
    requires Wired(env, s) && BlocksOk(env, s) && o in s.jobs && o in r.jobs && r.jobs[o].layer == s.jobs[o].layer
    requires r.jobs == s.jobs[o := r.jobs[o]] && r.futures == s.futures && r.compute == s.compute
    requires r.loaded == s.loaded && r.blocks == s.blocks && r.residents == s.residents
    ensures Wired(env, r) && BlocksOk(env, r)
  {}

  /** A job moving on, with its buffer or without any. */
  lemma SetJobKeeps(env: Env, s: State, o: Owner, j: Job)
    requires Inv(env, s) && o in s.jobs && j.layer == s.jobs[o].layer && JobOk(env, s, j)
    requires BufferOf(j) == None || BufferOf(j) == BufferOf(s.jobs[o])
    ensures Inv(env, SetJob(s, o, j))
  {
    hide BufferOf, Bytes, JobOk;
    forall p | p in s.jobs ensures JobOk(env, SetJob(s, o, j), SetJob(s, o, j).jobs[p]) {
      if p == o { JobFrame(env, s, SetJob(s, o, j), j); } else { JobFrame(env, s, SetJob(s, o, j), s.jobs[p]); }
    }
  }

  /** Ending a job hands its buffer to the free list. */
  lemma ReleaseKeeps(env: Env, s: State, o: Owner, result: Option<seq<Byte>>)
    requires Inv(env, s) && o in s.jobs && (result.Some? ==> env.shard(s.jobs[o].layer) == result)
    ensures Inv(env, Release(s, o, result))
  {
    hide JobOk, Wired, BlocksOk;
    var r := Release(s, o, result);
    ReleaseOwned(s, o, result);
    SameWiring(env, s, r, o);
    forall p | p in r.jobs ensures JobOk(env, r, r.jobs[p]) {
      if p == o { FinishedOk(env, r, s.jobs[o].layer, result); } else { JobFrame(env, s, r, s.jobs[p]); }
    }
  }

  lemma ReleaseOwned(s: State, o: Owner, result: Option<seq<Byte>>)
    requires Owned(s) && o in s.jobs
    ensures Owned(Release(s, o, result))
  {
    var r, b := Release(s, o, result), BufferOf(s.jobs[o]);
    if b.Some? {
      assert forall x :: x in r.pool <==> x in s.pool || x == b.value;
    } else {
      assert r.pool == s.pool;
    }
  }

  lemma StartReadKeeps(env: Env, s: State, o: Owner, direct: bool)
    requires Inv(env, s)
    ensures Inv(env, StartRead(env, s, o, direct))
  {
    if o in s.jobs && s.jobs[o].Queued? {
      var l := s.jobs[o].layer;
      if env.shard(l).None? {
        SetJobKeeps(env, s, o, Finished(l, None));
      } else if direct && s.pool != [] {
        TakeKeeps(env, s, o);
      } else {
        SetJobKeeps(env, s, o, Reading(l, None, direct));
      }
    }
  }

  /** The first free buffer changes hands. */
  lemma TakeOwned(s: State, o: Owner)
    requires Owned(s) && o in s.jobs && s.jobs[o].Queued? && s.pool != []
    ensures Owned(SetJob(s.(pool := s.pool[1..]), o, Reading(s.jobs[o].layer, Some(s.pool[0]), true)))
  {
    var r := SetJob(s.(pool := s.pool[1..]), o, Reading(s.jobs[o].layer, Some(s.pool[0]), true));
    assert s.pool[0] in s.pool && s.pool[0] !in r.pool && forall b :: b in r.pool ==> b in s.pool;
  }

  lemma TakeKeeps(env: Env, s: State, o: Owner)
    requires Inv(env, s) && o in s.jobs && s.jobs[o].Queued? && s.pool != []
    ensures Inv(env, SetJob(s.(pool := s.pool[1..]), o, Reading(s.jobs[o].layer, Some(s.pool[0]), true)))
  {
    hide JobOk, Wired, BlocksOk, Owned;
    var r := SetJob(s.(pool := s.pool[1..]), o, Reading(s.jobs[o].layer, Some(s.pool[0]), true));
    TakeOwned(s, o);
    SameWiring(env, s, r, o);
    forall p | p in r.jobs ensures JobOk(env, r, r.jobs[p]) {
      if p == o { NoPayloadOk(env, r, r.jobs[o]); } else { JobFrame(env, s, r, s.jobs[p]); }
    }
  }

  lemma ScribbleKeeps(env: Env, s: State, o: Owner, bytes: seq<Byte>)
    requires Inv(env, s)
    ensures Inv(env, Scribble(s, o, bytes))
  {
    hide JobOk;
    var r := Scribble(s, o, bytes);
    forall p | p in r.jobs ensures JobOk(env, r, r.jobs[p]) {
      if p == o && s.jobs[o].Reading? {
        ReadingDirect(env, s, s.jobs[o]);
        NoPayloadOk(env, r, s.jobs[o]);
      } else {
        JobFrame(env, s, r, s.jobs[p]);
      }
    }
  }

  lemma FinishReadKeeps(env: Env, s: State, o: Owner, how: How)
    requires Inv(env, s)
    ensures Inv(env, FinishRead(env, s, o, how))
  {
    if o in s.jobs && s.jobs[o].Reading? && env.shard(s.jobs[o].layer).Some? {
      if s.jobs[o].direct {
        FilledKeeps(env, s, o, how);
      } else {
        SetJobKeeps(env, s, o, Fetched(s.jobs[o].layer, Own(env.shard(s.jobs[o].layer).value), s.jobs[o].buffer));
      }
    }
  }

  lemma FilledKeeps(env: Env, s: State, o: Owner, how: How)
    requires Inv(env, s) && o in s.jobs && s.jobs[o].Reading? && s.jobs[o].direct && env.shard(s.jobs[o].layer).Some?
    ensures Inv(env, FinishRead(env, s, o, how))
  {
    hide JobOk, Wired, BlocksOk, Owned;
    var r := FinishRead(env, s, o, how);
    FilledOwned(env, s, o, how);
    SameWiring(env, s, r, o);
    assert r.jobs.Keys == s.jobs.Keys;
    hide FinishRead;
    forall p | p in r.jobs ensures JobOk(env, r, r.jobs[p]) {
      if p == o { FilledPayload(env, s, o, how); } else { FilledOthers(env, s, o, how, p); }
    }
  }

  lemma FilledOthers(env: Env, s: State, o: Owner, how: How, p: Owner)
    requires Inv(env, s) && o in s.jobs && s.jobs[o].Reading? && s.jobs[o].direct && env.shard(s.jobs[o].layer).Some?
    requires p in s.jobs && p != o
    ensures var r := FinishRead(env, s, o, how); p in r.jobs && JobOk(env, r, r.jobs[p])
  {
    hide JobOk, Wired, BlocksOk;
    JobFrame(env, s, FinishRead(env, s, o, how), s.jobs[p]);
  }

  lemma FilledOwned(env: Env, s: State, o: Owner, how: How)
    requires Owned(s) && o in s.jobs && s.jobs[o].Reading? && s.jobs[o].direct && env.shard(s.jobs[o].layer).Some?
    ensures Owned(FinishRead(env, s, o, how))
  {
    hide Distinct;
  }

  /** After the read the payload is the whole file, whatever was left in the buffer's tail. */
  lemma FilledPayload(env: Env, s: State, o: Owner, how: How)
    requires o in s.jobs && s.jobs[o].Reading? && s.jobs[o].direct && env.shard(s.jobs[o].layer).Some?
    ensures var r := FinishRead(env, s, o, how); JobOk(env, r, r.jobs[o])
  {
    var r := FinishRead(env, s, o, how);
    if how.PlainFile? {
      var b := r.jobs[o].payload.buffer;
      assert r.contents[b][..|env.shard(s.jobs[o].layer).value|] == env.shard(s.jobs[o].layer).value;
    }
  }

  lemma UploadKeeps(env: Env, s: State, o: Owner)
    requires Inv(env, s)
    ensures Inv(env, StartUpload(s, o)) && Inv(env, RefuseUpload(s, o))
  {
    hide Inv;
    if o in s.jobs && s.jobs[o].Fetched? {
      var j := s.jobs[o];
      JobIsOk(env, s, o);
      SetJobKeeps(env, s, o, Uploading(j.layer, j.payload, j.buffer));
      SetJobKeeps(env, s, o, Finished(j.layer, None));
    }
  }

  lemma EndKeeps(env: Env, s: State, o: Owner)
    requires Inv(env, s)
    ensures Inv(env, FailRead(s, o)) && Inv(env, FailParse(s, o))
    ensures Inv(env, FinishUpload(s, o)) && Inv(env, FailUpload(s, o))
  {
    hide Inv, Release;
    if o in s.jobs {
      JobIsOk(env, s, o);
      ReleaseKeeps(env, s, o, None);
      if s.jobs[o].Uploading? { ReleaseKeeps(env, s, o, Some(Bytes(s, s.jobs[o].payload))); }
    }
  }

  /** Only the compute thread's own fields differ, and a queued job may be new or one job gone. */
  lemma JobsKept(env: Env, s: State, r: State)
    requires Owned(s) && JobsOk(env, s) && r.contents == s.contents && r.next == s.next && r.pool == s.pool
    requires forall o :: o in r.jobs ==> r.jobs[o].Queued? || (o in s.jobs && r.jobs[o] == s.jobs[o])
    ensures Owned(r) && JobsOk(env, r)
  {
    hide JobOk;
    forall o | o in r.jobs ensures JobOk(env, r, r.jobs[o]) {
      if r.jobs[o].Queued? { NoPayloadOk(env, r, r.jobs[o]); } else { JobFrame(env, s, r, s.jobs[o]); }
    }
  }

  lemma PrefetchKeeps(env: Env, s: State, l: int)
    requires Inv(env, s)
    ensures Inv(env, Prefetch(env, s, l))
  {
    hide Owned, JobsOk;
    JobsKept(env, s, Prefetch(env, s, l));
  }

  lemma ResidentKeeps(env: Env, s: State, l: int)
    requires Inv(env, s)
    ensures Inv(env, LoadResident(env, s, l))
  {
    hide Owned, JobsOk;
    JobsKept(env, s, LoadResident(env, s, l));
  }

  /** Applying a layer's own bytes, or failing to, while no job of it is around. */
  lemma ApplyKeeps(env: Env, s: State, l: int, bytes: seq<Byte>, ok: bool)
    requires Inv(env, s) && s.compute == Idle && l !in s.futures && env.shard(l) == Some(bytes)
    ensures Inv(env, Apply(s, l, bytes, ok))
  {
    hide Owned, JobsOk;
    JobsKept(env, s, Apply(s, l, bytes, ok));
  }

  lemma WaitKeeps(env: Env, s: State, l: int, hits: nat, waits: nat)
    requires Inv(env, s) && s.compute == Idle && l in s.futures
    ensures Inv(env, s.(futures := s.futures - {l}, compute := Waiting(l), hits := hits, waits := waits))
  {
    hide Owned, JobsOk;
    JobsKept(env, s, s.(futures := s.futures - {l}, compute := Waiting(l), hits := hits, waits := waits));
  }

  lemma SyncKeeps(env: Env, s: State, l: int, misses: nat)
    requires Inv(env, s) && s.compute == Idle && l !in s.futures && l !in s.loaded
    ensures Inv(env, SetJob(s.(compute := Syncing(l), misses := misses), Caller, Queued(l)))
  {
    hide Owned, JobsOk;
    JobsKept(env, s, SetJob(s.(compute := Syncing(l), misses := misses), Caller, Queued(l)));
  }

  lemma EnsureBeginKeeps(env: Env, s: State, l: int, applies: bool)
    requires Inv(env, s)
    ensures Inv(env, EnsureBegin(env, s, l, applies))
  {
    hide Owned, JobsOk, Apply, SetJob;
    if s.compute != Idle || l < 0 || l >= env.layers || l in s.loaded {
    } else if l < env.residentCount && l in s.residents {
      ApplyKeeps(env, s, l, s.residents[l], applies);
    } else if l in s.futures {
      hide Wired, BlocksOk;
      var r := EnsureBegin(env, s, l, applies);
      WaitKeeps(env, s, l, r.hits, r.waits);
    } else {
      SyncKeeps(env, s, l, s.misses + 1);
    }
  }

  /** Taking a finished job away ends the wait for it. */
  lemma DoneKeeps(env: Env, s: State, o: Owner)
    requires Inv(env, s) && s.compute != Idle && o == if s.compute.Waiting? then Worker(s.compute.layer) else Caller
    ensures var r := s.(jobs := s.jobs - {o}, compute := Idle);
      Inv(env, r) && s.compute.layer !in r.futures && s.compute.layer !in r.loaded
  {
    hide Owned, JobsOk;
    JobsKept(env, s, s.(jobs := s.jobs - {o}, compute := Idle));
  }

  lemma EnsureWakeKeeps(env: Env, s: State, applies: bool)
    requires Inv(env, s)
    ensures Inv(env, EnsureWake(s, applies))
  {
    if s.compute != Idle {
      var o := if s.compute.Waiting? then Worker(s.compute.layer) else Caller;
      ResultIsShard(env, s, o);
      hide Inv, Apply, SetJob;
      if o in s.jobs && s.jobs[o].Finished? {
        DoneKeeps(env, s, o);
        var r, l := s.(jobs := s.jobs - {o}, compute := Idle), s.compute.layer;
        if s.jobs[o].result.Some? {
          ApplyKeeps(env, r, l, s.jobs[o].result.value, applies);
        } else {
          SyncKeeps(env, r, l, s.misses);
        }
      }
    }
  }

  lemma ResultIsShard(env: Env, s: State, o: Owner)
    requires Inv(env, s) && s.compute != Idle && o == if s.compute.Waiting? then Worker(s.compute.layer) else Caller
    ensures o in s.jobs && s.jobs[o].layer == s.compute.layer
    ensures s.jobs[o].Finished? && s.jobs[o].result.Some? ==> env.shard(s.compute.layer) == s.jobs[o].result
  {
    hide Owned;
    assert JobOk(env, s, s.jobs[o]);
  }

  lemma EvictKeeps(env: Env, s: State, l: int)
    requires Inv(env, s)
    ensures Inv(env, Evict(env, s, l))
    ensures Evict(env, s, l).futures == s.futures
  {
    hide Owned, JobsOk;
    JobsKept(env, s, Evict(env, s, l));
  }

  // ---------------------------------------------------------------- every interleaving

  datatype Step =
    | LoadResidentStep(layer: int)
    | PrefetchStep(layer: int)
    | DisablePrefetchStep
    | EnsureStep(layer: int, applies: bool)
    | WakeStep(applies: bool)
    | EvictStep(layer: int)
    | StartReadStep(owner: Owner, direct: bool)
    | ScribbleStep(owner: Owner, bytes: seq<Byte>)
    | FinishReadStep(owner: Owner, how: How)
    | FailReadStep(owner: Owner)
    | FailParseStep(owner: Owner)
    | StartUploadStep(owner: Owner)
    | RefuseUploadStep(owner: Owner)
    | FinishUploadStep(owner: Owner)
    | FailUploadStep(owner: Owner)

  function Do(env: Env, s: State, step: Step): State {
    match step
    case LoadResidentStep(l) => LoadResident(env, s, l)
    case PrefetchStep(l) => Prefetch(env, s, l)
    case DisablePrefetchStep => s.(prefetching := false)
    case EnsureStep(l, applies) => EnsureBegin(env, s, l, applies)
    case WakeStep(applies) => EnsureWake(s, applies)
    case EvictStep(l) => Evict(env, s, l)
    case StartReadStep(o, direct) => StartRead(env, s, o, direct)
    case ScribbleStep(o, bytes) => Scribble(s, o, bytes)
    case FinishReadStep(o, how) => FinishRead(env, s, o, how)
    case FailReadStep(o) => FailRead(s, o)
    case FailParseStep(o) => FailParse(s, o)
    case StartUploadStep(o) => StartUpload(s, o)
    case RefuseUploadStep(o) => RefuseUpload(s, o)
    case FinishUploadStep(o) => FinishUpload(s, o)
    case FailUploadStep(o) => FailUpload(s, o)
  }

  lemma StepKeeps(env: Env, s: State, step: Step)
    requires Inv(env, s)
    ensures Inv(env, Do(env, s, step))
  {
    hide Inv, LoadResident, Prefetch, EnsureBegin, EnsureWake, Evict, StartRead, Scribble, FinishRead;
    hide FailRead, StartUpload, FailParse, RefuseUpload, FinishUpload, FailUpload;
    match step
    case LoadResidentStep(l) => ResidentKeeps(env, s, l);
    case PrefetchStep(l) => PrefetchKeeps(env, s, l);
    case DisablePrefetchStep => DisableKeeps(env, s);
    case EnsureStep(l, applies) => EnsureBeginKeeps(env, s, l, applies);
    case WakeStep(applies) => EnsureWakeKeeps(env, s, applies);
    case EvictStep(l) => EvictKeeps(env, s, l);
    case StartReadStep(o, direct) => StartReadKeeps(env, s, o, direct);
    case ScribbleStep(o, bytes) => ScribbleKeeps(env, s, o, bytes);
    case FinishReadStep(o, how) => FinishReadKeeps(env, s, o, how);
    case FailReadStep(o) => EndKeeps(env, s, o);
    case FailParseStep(o) => EndKeeps(env, s, o);
    case StartUploadStep(o) => UploadKeeps(env, s, o);
    case RefuseUploadStep(o) => UploadKeeps(env, s, o);
    case FinishUploadStep(o) => EndKeeps(env, s, o);
    case FailUploadStep(o) => EndKeeps(env, s, o);
  }

  lemma DisableKeeps(env: Env, s: State)
    requires Inv(env, s)
    ensures Inv(env, s.(prefetching := false))
  {
    hide Owned, JobsOk;
    JobsKept(env, s, s.(prefetching := false));
  }

  function Run(env: Env, schedule: seq<Step>): State {
    if schedule == [] then Initial() else Do(env, Run(env, schedule[..|schedule| - 1]), schedule[|schedule| - 1])
  }

  lemma InitialOk(env: Env)
    ensures Inv(env, Initial())
  {}

  /** Under every interleaving buffers have one owner, no future's layer is loaded, and every
      loaded block holds its own shard unless applying it failed. */
  lemma {:induction false} RunKeeps(env: Env, schedule: seq<Step>)
    ensures Inv(env, Run(env, schedule))
    decreases |schedule|
  {
    hide Inv, Do;
    if schedule == [] {
      InitialOk(env);
    } else {
      RunKeeps(env, schedule[..|schedule| - 1]);
      StepKeeps(env, Run(env, schedule[..|schedule| - 1]), schedule[|schedule| - 1]);
    }
  }

  predicate AlwaysApplies(schedule: seq<Step>) {
    forall i :: 0 <= i < |schedule| ==>
      (schedule[i].EnsureStep? ==> schedule[i].applies) && (schedule[i].WakeStep? ==> schedule[i].applies)
  }

  /** On runs where no apply fails, the loaded blocks are exactly their shards. */
  lemma LoadedBlocksAreShards(env: Env, schedule: seq<Step>, l: int)
    requires AlwaysApplies(schedule) && l in Run(env, schedule).loaded
    ensures l in Run(env, schedule).blocks && Run(env, schedule).blocks[l].Some?
    ensures Run(env, schedule).blocks[l] == env.shard(l)
  {
    hide Run;
    RunKeeps(env, schedule);
    RunWhole(env, schedule);
  }

  lemma {:induction false} RunWhole(env: Env, schedule: seq<Step>)
    requires AlwaysApplies(schedule)
    ensures Whole(Run(env, schedule))
    decreases |schedule|
  {
    hide Do;
    if schedule != [] {
      RunWhole(env, schedule[..|schedule| - 1]);
      BlocksAfter(env, Run(env, schedule[..|schedule| - 1]), schedule[|schedule| - 1]);
    }
  }

  /** No loaded block is broken. */
  ghost predicate Whole(s: State) { forall l :: l in s.loaded ==> l in s.blocks && s.blocks[l].Some? }

  lemma BlocksAfter(env: Env, s: State, step: Step)
    requires Whole(s) && (step.EnsureStep? ==> step.applies) && (step.WakeStep? ==> step.applies)
    ensures Whole(Do(env, s, step))
  {
    hide EnsureBegin, EnsureWake, Evict;
    if step.EnsureStep? {
      EnsureWhole(env, s, step.layer);
    } else if step.WakeStep? {
      WakeWhole(s);
    } else if step.EvictStep? {
      EvictWhole(env, s, step.layer);
    } else {
      WorkersLeaveBlocks(env, s, step);
    }
  }

  lemma EnsureWhole(env: Env, s: State, l: int)
    requires Whole(s)
    ensures Whole(EnsureBegin(env, s, l, true))
  {}

  lemma EvictWhole(env: Env, s: State, l: int)
    requires Whole(s)
    ensures Whole(Evict(env, s, l))
  {}

  lemma WakeWhole(s: State)
    requires Whole(s)
    ensures Whole(EnsureWake(s, true))
  {}

  lemma WorkersLeaveBlocks(env: Env, s: State, step: Step)
    requires !step.EnsureStep? && !step.WakeStep? && !step.EvictStep?
    ensures Do(env, s, step).blocks == s.blocks && Do(env, s, step).loaded == s.loaded
  {
    hide StartRead, Scribble, FinishRead, FailRead, FailParse, StartUpload, RefuseUpload, FinishUpload;
    hide FailUpload;
  }

  // ---------------------------------------------------------------- a broken block

  /** The resident copy of the only layer, and an ensure whose apply raises. */
  function BrokenSchedule(): seq<Step> { [LoadResidentStep(0), EnsureStep(0, false)] }

  /** The next ensure of that layer returns at once, its apply never tried, and leaves the
      block broken, although the layer's bytes are in memory. */
  lemma BrokenBlockIsReturned()
    ensures var env := Env(_ => Some([1]), 1, 1);
      var s := Run(env, BrokenSchedule());
      && 0 in s.loaded && 0 in s.blocks && s.blocks[0] == None && s.residents == map[0 := [1]]
      && s.compute == Idle && EnsureBegin(env, s, 0, true) == s
  {
    var env := Env(_ => Some([1]), 1, 1);
    var schedule := BrokenSchedule();
    assert schedule[..1] == [LoadResidentStep(0)] && schedule[..1][..0] == [];
    assert Run(env, schedule[..1]) == Initial().(residents := map[0 := [1]]);
  }

  /** When the whole model is resident no step repairs, replaces or evicts a loaded block, so a
      broken one is returned for good. */
  lemma {:induction false} ResidentBlocksStay(env: Env, s: State, more: seq<Step>, l: int)
    requires Inv(env, s) && l in s.loaded && 0 <= l < env.layers <= env.residentCount
    ensures var r := DoAll(env, s, more); l in r.loaded && l in r.blocks && r.blocks[l] == s.blocks[l]
    decreases |more|
  {
    hide Inv, Do;
    LoadedBlocks(env, s);
    if more != [] {
      StepKeeps(env, s, more[0]);
      ResidentBlockStays(env, s, more[0], l);
      ResidentBlocksStay(env, Do(env, s, more[0]), more[1..], l);
    }
  }

  lemma LoadedBlocks(env: Env, s: State)
    requires Inv(env, s)
    ensures s.blocks.Keys == s.loaded
    ensures forall l :: l in s.loaded ==> env.shard(l).Some? && (s.blocks[l].Some? ==> s.blocks[l] == env.shard(l))
    ensures s.compute != Idle ==> s.compute.layer !in s.loaded
  {}

  /** Layer `l`'s block is there, as it was. */
  predicate BlockKept(s: State, r: State, l: int) {
    l in s.loaded && l in s.blocks && l in r.loaded && l in r.blocks && r.blocks[l] == s.blocks[l]
  }

  lemma ResidentBlockStays(env: Env, s: State, step: Step, l: int)
    requires Inv(env, s) && l in s.loaded && 0 <= l < env.layers <= env.residentCount
    ensures BlockKept(s, Do(env, s, step), l)
  {
    LoadedBlocks(env, s);
    hide Inv, EnsureBegin, EnsureWake, Evict;
    if step.EnsureStep? {
      EnsureLeaves(env, s, step.layer, step.applies, l);
    } else if step.WakeStep? {
      WakeLeaves(s, step.applies, l);
    } else if step.EvictStep? {
      EvictLeaves(env, s, step.layer, l);
    } else {
      WorkersLeaveBlocks(env, s, step);
      hide Do;
    }
  }

  lemma EnsureLeaves(env: Env, s: State, k: int, applies: bool, l: int)
    requires l in s.loaded && l in s.blocks
    ensures BlockKept(s, EnsureBegin(env, s, k, applies), l)
  {}

  lemma WakeLeaves(s: State, applies: bool, l: int)
    requires l in s.loaded && l in s.blocks && (s.compute != Idle ==> s.compute.layer != l)
    ensures BlockKept(s, EnsureWake(s, applies), l)
  {}

  lemma EvictLeaves(env: Env, s: State, k: int, l: int)
    requires l in s.loaded && l in s.blocks && env.layers <= env.residentCount
    ensures BlockKept(s, Evict(env, s, k), l)
  {}

  function DoAll(env: Env, s: State, steps: seq<Step>): State
    decreases |steps|
  {
    if steps == [] then s else DoAll(env, Do(env, s, steps[0]), steps[1..])
  }

  // ---------------------------------------------------------------- progress

  /** Steps a job still has to take. */
  function Remaining(j: Job): nat {
    match j
    case Queued(_) => 4
    case Reading(_, _, _) => 3
    case Fetched(_, _, _) => 2
    case Uploading(_, _, _) => 1
    case Finished(_, _) => 0
  }

  /** The compute thread, in ensure, waits for this job. */
  predicate Awaits(s: State, o: Owner) {
    s.compute != Idle && o == if s.compute.Waiting? then Worker(s.compute.layer) else Caller
  }

  /** The step that brings a job nearer its end, without a failure if its file exists. */
  function NextStep(env: Env, j: Job, o: Owner): Step {
    match j
    case Queued(_) => StartReadStep(o, true)
    case Reading(l, _, _) => if env.shard(l).Some? then FinishReadStep(o, PlainFile) else FailReadStep(o)
    case Fetched(_, _, _) => StartUploadStep(o)
    case Uploading(_, _, _) => FinishUploadStep(o)
    case Finished(_, _) => WakeStep(true)
  }

  predicate Nearer(env: Env, s: State, r: State, o: Owner)
    requires o in s.jobs
  {
    && o in r.jobs && r.compute == s.compute && r.jobs[o].layer == s.jobs[o].layer
    && Remaining(r.jobs[o]) < Remaining(s.jobs[o])
    && (env.shard(s.jobs[o].layer).Some? && r.jobs[o].Finished? ==> r.jobs[o].result.Some?)
  }

  /** A compute thread in ensure never waits in vain: it can go on at once, or the job it waits
      for has a step to take that brings it nearer its end, and if the layer's file exists one
      that does not fail. */
  lemma NeverStuck(env: Env, s: State, o: Owner)
    requires Inv(env, s) && Awaits(s, o)
    ensures o in s.jobs && s.jobs[o].layer == s.compute.layer
    ensures if s.jobs[o].Finished? then EnsureWake(s, true).compute != s.compute
            else Nearer(env, s, Do(env, s, NextStep(env, s.jobs[o], o)), o)
  {
    ResultIsShard(env, s, o);
    hide Inv;
    if !s.jobs[o].Finished? { JobAdvances(env, s, o); }
  }

  lemma JobAdvances(env: Env, s: State, o: Owner)
    requires o in s.jobs && !s.jobs[o].Finished?
    ensures Nearer(env, s, Do(env, s, NextStep(env, s.jobs[o], o)), o)
  {
    hide StartRead, FinishRead, FailRead, StartUpload, FinishUpload, Nearer;
    match s.jobs[o]
    case Queued(_) => QueuedAdvances(env, s, o);
    case Reading(_, _, _) => ReadingAdvances(env, s, o);
    case Fetched(_, _, _) => FetchedAdvances(env, s, o);
    case Uploading(_, _, _) => UploadingAdvances(env, s, o);
  }

  lemma QueuedAdvances(env: Env, s: State, o: Owner)
    requires o in s.jobs && s.jobs[o].Queued?
    ensures Nearer(env, s, StartRead(env, s, o, true), o)
  {}

  lemma ReadingAdvances(env: Env, s: State, o: Owner)
    requires o in s.jobs && s.jobs[o].Reading?
    ensures Nearer(env, s,
      if env.shard(s.jobs[o].layer).Some? then FinishRead(env, s, o, PlainFile) else FailRead(s, o), o)
  {}

  lemma FetchedAdvances(env: Env, s: State, o: Owner)
    requires o in s.jobs && s.jobs[o].Fetched?
    ensures Nearer(env, s, StartUpload(s, o), o)
  {}

  lemma UploadingAdvances(env: Env, s: State, o: Owner)
    requires o in s.jobs && s.jobs[o].Uploading?
    ensures Nearer(env, s, FinishUpload(s, o), o)
  {}

  /** The awaited job can still end with its result, and the layer be loaded from it. */
  ghost predicate Succeeds(env: Env, s: State, l: int, steps: seq<Step>) {
    var r := EnsureWake(DoAll(env, s, steps), true);
    r.compute == Idle && l in r.loaded && l in r.blocks && r.blocks[l] == env.shard(l)
  }

  /** From every state in which the compute thread waits for a layer whose file exists, a few
      steps load that layer with exactly its shard, unless its own synchronous read has failed. */
  lemma WaitCanSucceed(env: Env, s: State, o: Owner)
    requires Inv(env, s) && Awaits(s, o) && env.shard(s.compute.layer).Some?
    requires !(s.compute.Syncing? && o in s.jobs && s.jobs[o].Finished? && s.jobs[o].result.None?)
    ensures exists steps :: |steps| <= 5 && Succeeds(env, s, s.compute.layer, steps)
  {
    hide Inv, Do, Succeeds;
    ResultIsShard(env, s, o);
    if s.jobs[o].Finished? && s.jobs[o].result.None? {
      var r := Do(env, s, WakeStep(true));
      StepKeeps(env, s, WakeStep(true));
      FallsBack(env, s, o);
      JobCanSucceed(env, r, Caller);
      var rest :| |rest| <= 4 && Succeeds(env, r, s.compute.layer, rest);
      SucceedsAfter(env, s, WakeStep(true), rest, s.compute.layer);
      assert |[WakeStep(true)] + rest| <= 5;
    } else {
      JobCanSucceed(env, s, o);
    }
  }

  lemma FallsBack(env: Env, s: State, o: Owner)
    requires s.compute.Waiting? && Awaits(s, o) && o in s.jobs && s.jobs[o].Finished? && s.jobs[o].result.None?
    ensures var r := Do(env, s, WakeStep(true));
      r.compute == Syncing(s.compute.layer) && Caller in r.jobs && r.jobs[Caller].Queued?
  {}

  lemma SucceedsAfter(env: Env, s: State, step: Step, rest: seq<Step>, l: int)
    requires Succeeds(env, Do(env, s, step), l, rest)
    ensures Succeeds(env, s, l, [step] + rest)
  {
    hide Do, EnsureWake;
    assert ([step] + rest)[1..] == rest;
  }

  lemma {:induction false} JobCanSucceed(env: Env, s: State, o: Owner)
    requires Inv(env, s) && Awaits(s, o) && o in s.jobs && env.shard(s.compute.layer).Some?
    requires s.jobs[o].Finished? ==> s.jobs[o].result.Some?
    ensures exists steps :: |steps| <= Remaining(s.jobs[o]) && Succeeds(env, s, s.compute.layer, steps)
    decreases Remaining(s.jobs[o])
  {
    hide Inv, Do, Succeeds;
    if s.jobs[o].Finished? {
      WakeLoads(env, s, o);
      var none: seq<Step> := [];
      assert |none| <= Remaining(s.jobs[o]) && Succeeds(env, s, s.compute.layer, none);
    } else {
      NeverStuck(env, s, o);
      var step := NextStep(env, s.jobs[o], o);
      var r := Do(env, s, step);
      StepKeeps(env, s, step);
      JobCanSucceed(env, r, o);
      var rest :| |rest| <= Remaining(r.jobs[o]) && Succeeds(env, r, s.compute.layer, rest);
      SucceedsAfter(env, s, step, rest, s.compute.layer);
      assert |[step] + rest| <= Remaining(s.jobs[o]);
    }
  }

  lemma WakeLoads(env: Env, s: State, o: Owner)
    requires Inv(env, s) && Awaits(s, o) && o in s.jobs && s.jobs[o].Finished? && s.jobs[o].result.Some?
    ensures Succeeds(env, s, s.compute.layer, [])
  {
    ResultIsShard(env, s, o);
    hide Inv;
  }

  // ---------------------------------------------------------------- every schedule

  function AwaitedOwner(s: State): Owner
    requires s.compute != Idle
  {
    if s.compute.Waiting? then Worker(s.compute.layer) else Caller
  }

  /** Steps the call still takes at most: the awaited job's, the look at its result, and, while
      it waits for a prefetch, those of the synchronous read it may fall back to. */
  function CallRemaining(s: State): nat {
    if s.compute == Idle then 0
    else
      var o := AwaitedOwner(s);
      (if o in s.jobs then Remaining(s.jobs[o]) else 0) + if s.compute.Waiting? then 6 else 1
  }

  /** The step is one the awaited job can take now, well or badly, or the look at its result. */
  predicate Advances(env: Env, s: State, step: Step)
    requires s.compute != Idle
  {
    var o := AwaitedOwner(s);
    o in s.jobs &&
    match s.jobs[o]
    case Queued(_) => step.StartReadStep? && step.owner == o
    case Reading(l, _, _) => (step.FailReadStep? || (step.FinishReadStep? && env.shard(l).Some?)) && step.owner == o
    case Fetched(_, _, _) => (step.StartUploadStep? || step.FailParseStep? || step.RefuseUploadStep?) && step.owner == o
    case Uploading(_, _, _) => (step.FinishUploadStep? || step.FailUploadStep?) && step.owner == o
    case Finished(_, _) => step.WakeStep?
  }

  /** How often the schedule advances the call before it is over. */
  function Advanced(env: Env, s: State, steps: seq<Step>): nat
    decreases |steps|
  {
    if s.compute == Idle || steps == [] then 0
    else (if Advances(env, s, steps[0]) then 1 else 0) + Advanced(env, Do(env, s, steps[0]), steps[1..])
  }

  function DuringCall(env: Env, s: State, steps: seq<Step>): State
    decreases |steps|
  {
    if s.compute == Idle || steps == [] then s else DuringCall(env, Do(env, s, steps[0]), steps[1..])
  }

  /** Whatever the threads do and whatever fails: no step sets the call back, and once the
      schedule has advanced it often enough, the call is over. */
  lemma {:induction false} EveryScheduleEnds(env: Env, s: State, steps: seq<Step>)
    requires Inv(env, s)
    ensures CallRemaining(DuringCall(env, s, steps)) + Advanced(env, s, steps) <= CallRemaining(s) <= 10
    ensures Advanced(env, s, steps) == CallRemaining(s) ==> DuringCall(env, s, steps).compute == Idle
    decreases |steps|
  {
    hide Inv, Do, Advances;
    if s.compute != Idle && steps != [] {
      StepKeeps(env, s, steps[0]);
      StepCounts(env, s, steps[0]);
      EveryScheduleEnds(env, Do(env, s, steps[0]), steps[1..]);
    }
  }

  lemma StepCounts(env: Env, s: State, step: Step)
    requires Inv(env, s) && s.compute != Idle
    ensures CallRemaining(Do(env, s, step)) + (if Advances(env, s, step) then 1 else 0) <= CallRemaining(s)
  {
    hide Do;
    var o := AwaitedOwner(s);
    ResultIsShard(env, s, o);
    hide Inv;
    if !Advances(env, s, step) {
      OtherSteps(env, s, step);
    } else if step.WakeStep? {
      WakeCounts(env, s, step.applies);
    } else {
      OwnSteps(env, s, step);
    }
  }

  lemma WakeCounts(env: Env, s: State, applies: bool)
    requires s.compute != Idle && AwaitedOwner(s) in s.jobs && s.jobs[AwaitedOwner(s)].Finished?
    ensures CallRemaining(Do(env, s, WakeStep(applies))) < CallRemaining(s)
  {}

  lemma OwnSteps(env: Env, s: State, step: Step)
    requires s.compute != Idle && AwaitedOwner(s) in s.jobs && Advances(env, s, step) && !step.WakeStep?
    ensures var o, r := AwaitedOwner(s), Do(env, s, step);
      r.compute == s.compute && o in r.jobs && Remaining(r.jobs[o]) < Remaining(s.jobs[o])
  {
    hide Bytes, Apply, Scribble, FinishRead, Evict, AwaitedOwner;
    if step.FinishReadStep? { ReadAdvances(env, s, step.owner, step.how); }
  }

  lemma ReadAdvances(env: Env, s: State, o: Owner, how: How)
    requires o in s.jobs && s.jobs[o].Reading? && env.shard(s.jobs[o].layer).Some?
    ensures var r := FinishRead(env, s, o, how); r.compute == s.compute && o in r.jobs && r.jobs[o].Fetched?
  {}

  lemma OtherSteps(env: Env, s: State, step: Step)
    requires s.compute != Idle && AwaitedOwner(s) in s.jobs && !Advances(env, s, step)
    ensures JobKept(s, Do(env, s, step), AwaitedOwner(s))
  {
    hide Apply, StartRead, FinishRead, FailRead, FailParse, StartUpload, RefuseUpload, FinishUpload;
    hide FailUpload;
    match step
    case StartReadStep(p, direct) => OtherStart(env, s, p, direct, AwaitedOwner(s));
    case FinishReadStep(p, how) => OtherFinish(env, s, p, how, AwaitedOwner(s));
    case FailReadStep(p) => OtherEnds(s, p, AwaitedOwner(s));
    case FailParseStep(p) => OtherEnds(s, p, AwaitedOwner(s));
    case StartUploadStep(p) => OtherUploads(s, p, AwaitedOwner(s));
    case RefuseUploadStep(p) => OtherUploads(s, p, AwaitedOwner(s));
    case FinishUploadStep(p) => OtherEnds(s, p, AwaitedOwner(s));
    case FailUploadStep(p) => OtherEnds(s, p, AwaitedOwner(s));
    case _ =>
  }

  lemma OtherStart(env: Env, s: State, p: Owner, direct: bool, o: Owner)
    requires o in s.jobs && (p != o || !s.jobs[o].Queued?)
    ensures JobKept(s, StartRead(env, s, p, direct), o)
  {}

  lemma OtherFinish(env: Env, s: State, p: Owner, how: How, o: Owner)
    requires o in s.jobs && (p != o || !s.jobs[o].Reading? || env.shard(s.jobs[o].layer).None?)
    ensures JobKept(s, FinishRead(env, s, p, how), o)
  {}

  /** Another job's step, or one of a stage this job is not in. */
  predicate JobKept(s: State, r: State, o: Owner) {
    o in s.jobs && r.compute == s.compute && o in r.jobs && r.jobs[o] == s.jobs[o]
  }

  lemma OtherRelease(s: State, p: Owner, result: Option<seq<Byte>>, o: Owner)
    requires o in s.jobs && p in s.jobs && p != o
    ensures JobKept(s, Release(s, p, result), o)
  {}

  lemma OtherEnds(s: State, p: Owner, o: Owner)
    requires o in s.jobs
    ensures p != o || !s.jobs[o].Reading? ==> JobKept(s, FailRead(s, p), o)
    ensures p != o || !s.jobs[o].Fetched? ==> JobKept(s, FailParse(s, p), o)
    ensures p != o || !s.jobs[o].Uploading? ==> JobKept(s, FinishUpload(s, p), o) && JobKept(s, FailUpload(s, p), o)
  {
    hide Bytes, Release;
    if p in s.jobs && p != o {
      OtherRelease(s, p, None, o);
      if s.jobs[p].Uploading? { OtherRelease(s, p, Some(Bytes(s, s.jobs[p].payload)), o); }
    }
  }

  lemma OtherUploads(s: State, p: Owner, o: Owner)
    requires o in s.jobs && (p != o || !s.jobs[o].Fetched?)
    ensures JobKept(s, StartUpload(s, p), o) && JobKept(s, RefuseUpload(s, p), o)
  {}

  // ---------------------------------------------------------------- one call of ensure

  /** Other threads' steps in turn, the waiting thread looking again after each. */
  function Waited(env: Env, s: State, applies: bool, during: seq<Step>): State
    decreases |during|
  {
    if s.compute == Idle || during == [] then s
    else Waited(env, EnsureWake(Do(env, s, during[0]), applies), applies, during[1..])
  }

  /** While the call is on it waits for `l`; when it is over, `l` is loaded only if it was read,
      and then broken only if applying it failed. */
  predicate Settled(s: State, l: int, applies: bool) {
    if s.compute == Idle then l in s.loaded ==> l in s.blocks && (s.blocks[l].Some? <==> applies)
    else s.compute.layer == l && l !in s.loaded
  }

  lemma BeginSettles(env: Env, s: State, l: int, applies: bool)
    requires s.compute == Idle && 0 <= l < env.layers && l !in s.loaded
    ensures Settled(EnsureBegin(env, s, l, applies), l, applies)
  {}

  lemma WakeSettles(s: State, l: int, applies: bool)
    requires Settled(s, l, applies)
    ensures Settled(EnsureWake(s, applies), l, applies)
  {}

  lemma DoSettles(env: Env, s: State, l: int, applies: bool, step: Step)
    requires s.compute != Idle && Settled(s, l, applies) && step != WakeStep(!applies)
    ensures Settled(Do(env, s, step), l, applies)
  {
    hide EnsureWake;
    if step.WakeStep? { WakeSettles(s, l, applies); }
  }

  lemma {:induction false} WaitedSettles(env: Env, s: State, l: int, applies: bool, during: seq<Step>)
    requires Settled(s, l, applies) && WakeStep(!applies) !in during
    ensures Settled(Waited(env, s, applies, during), l, applies)
    decreases |during|
  {
    hide EnsureWake, Do, Settled;
    if s.compute != Idle && during != [] {
      DoSettles(env, s, l, applies, during[0]);
      WakeSettles(Do(env, s, during[0]), l, applies);
      WaitedSettles(env, EnsureWake(Do(env, s, during[0]), applies), l, applies, during[1..]);
    }
  }

  // ---------------------------------------------------------------- ensuring and evicting in turn

  /** A visit of one layer: the call of ensure, what the threads do while the layer is used, its eviction. */
  datatype Visit = Visit(layer: int, applies: bool, during: seq<Step>, between: seq<Step>)

  /** Up to the eviction; if the call is still on the visit stops there. */
  function Visiting(env: Env, s: State, v: Visit): State {
    DoAll(env, Waited(env, EnsureBegin(env, s, v.layer, v.applies), v.applies, v.during), v.between)
  }

  function Visited(env: Env, s: State, visits: seq<Visit>): State
    decreases |visits|
  {
    if visits == [] then s
    else
      var s1 := Visiting(env, s, visits[0]);
      if s1.compute != Idle then s1 else Visited(env, Evict(env, s1, visits[0].layer), visits[1..])
  }

  /** Nothing but `l` is loaded or being loaded. */
  predicate Only(s: State, l: int) { s.loaded <= {l} && (s.compute == Idle || s.compute.layer == l) }

  lemma BeginOnly(env: Env, s: State, l: int, applies: bool)
    requires s.compute == Idle && s.loaded == {}
    ensures Only(EnsureBegin(env, s, l, applies), l)
  {}

  lemma WakeOnly(s: State, l: int, applies: bool)
    requires Only(s, l)
    ensures Only(EnsureWake(s, applies), l)
  {}

  lemma WorkersLeaveCompute(env: Env, s: State, step: Step)
    requires !step.EnsureStep? && !step.WakeStep?
    ensures Do(env, s, step).compute == s.compute && Do(env, s, step).loaded <= s.loaded
  {
    if step.EvictStep? {
    } else {
      WorkersLeaveBlocks(env, s, step);
    }
  }

  lemma DoOnly(env: Env, s: State, l: int, step: Step)
    requires Only(s, l) && (step.EnsureStep? ==> s.compute != Idle)
    ensures Only(Do(env, s, step), l)
  {
    hide EnsureWake;
    if step.WakeStep? {
      WakeOnly(s, l, step.applies);
    } else if !step.EnsureStep? {
      WorkersLeaveCompute(env, s, step);
      hide Do;
    }
  }

  lemma {:induction false} WaitedOnly(env: Env, s: State, l: int, applies: bool, during: seq<Step>)
    requires Only(s, l)
    ensures Only(Waited(env, s, applies, during), l)
    decreases |during|
  {
    hide EnsureWake, Do, Only;
    if s.compute != Idle && during != [] {
      DoOnly(env, s, l, during[0]);
      WakeOnly(Do(env, s, during[0]), l, applies);
      WaitedOnly(env, EnsureWake(Do(env, s, during[0]), applies), l, applies, during[1..]);
    }
  }

  lemma {:induction false} DoAllOnly(env: Env, s: State, l: int, steps: seq<Step>)
    requires Only(s, l) && forall step :: step in steps ==> !step.EnsureStep?
    ensures Only(DoAll(env, s, steps), l)
    decreases |steps|
  {
    hide Do, Only;
    if steps != [] {
      DoOnly(env, s, l, steps[0]);
      DoAllOnly(env, Do(env, s, steps[0]), l, steps[1..]);
    }
  }

  /** While a layer is visited nothing else is on the device. */
  lemma VisitLoadsOne(env: Env, s: State, v: Visit)
    requires s.compute == Idle && s.loaded == {} && forall step :: step in v.between ==> !step.EnsureStep?
    ensures Only(Visiting(env, s, v), v.layer)
  {
    hide EnsureBegin, Waited, DoAll, Only;
    BeginOnly(env, s, v.layer, v.applies);
    WaitedOnly(env, EnsureBegin(env, s, v.layer, v.applies), v.layer, v.applies, v.during);
    DoAllOnly(env, Waited(env, EnsureBegin(env, s, v.layer, v.applies), v.applies, v.during), v.layer, v.between);
  }

  /** Unless the whole model is resident, visiting layers in turn, with whatever the other threads
      do, leaves nothing loaded behind: when all calls were over nothing, else at most the
      layer whose call is still on. */
  lemma {:induction false} VisitsLeaveNothing(env: Env, s: State, visits: seq<Visit>)
    requires env.residentCount < env.layers && s.compute == Idle && s.loaded == {}
    requires forall v :: v in visits ==>
      0 <= v.layer < env.layers && forall step :: step in v.between ==> !step.EnsureStep?
    ensures var r := Visited(env, s, visits);
      if r.compute == Idle then r.loaded == {} else Only(r, r.compute.layer)
    decreases |visits|
  {
    hide Visiting, Evict, Only;
    if visits != [] {
      var v, s1 := visits[0], Visiting(env, s, visits[0]);
      VisitLoadsOne(env, s, v);
      OnlyLayer(s1, v.layer);
      if s1.compute == Idle {
        EvictEmpties(env, s1, v.layer);
        VisitsLeaveNothing(env, Evict(env, s1, v.layer), visits[1..]);
      }
    }
  }

  lemma OnlyLayer(s: State, l: int)
    requires Only(s, l)
    ensures s.compute != Idle ==> s.compute.layer == l
  {}

  lemma EvictEmpties(env: Env, s: State, l: int)
    requires Only(s, l) && s.compute == Idle && 0 <= l < env.layers && env.residentCount < env.layers
    ensures Evict(env, s, l).loaded == {} && Evict(env, s, l).compute == Idle
  {}
}
