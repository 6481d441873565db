/** The key/value manager as the object the runner mutates, and the cache layer that parks
    its rows in it between sweeps. Every method refines the store operation of its name. */
module KvManager {
  import opened Common
  import opened KvStore

  class KVCacheManager<R(!new, ==), C(==)> {
    const cfg: Config<R, C>
    var entries: map<int, Entry<R, C>>
    var disk: map<int, C>
    var deviceBytes: int
    var hostBytes: int
    var compressedBytes: int
    var diskBytes: int
    var violations: nat
    var clock: nat

    function View(): Store<R, C>
      reads this
    {
      Store(entries, disk, deviceBytes, hostBytes, compressedBytes, diskBytes, violations, clock)
    }

    constructor (settings: Config<R, C>, budget: nat, deviceBudget: nat)
      ensures View() == Empty() && Inv(cfg, View())
      ensures var total := OrElse(budget, DEFAULT_BUDGET);
        cfg == settings.(budget := total, deviceBudget := OrElse(deviceBudget, total))
    {
      var total := OrElse(budget, DEFAULT_BUDGET);
      cfg := settings.(budget := total, deviceBudget := OrElse(deviceBudget, total));
      entries, disk := map[], map[];
      deviceBytes, hostBytes, compressedBytes, diskBytes, violations, clock := 0, 0, 0, 0, 0, 0;
      new;
      EmptyKeeps(cfg);
    }

    method UpdateUsage(e: Entry<R, C>, remove: bool)
      modifies this`deviceBytes, this`hostBytes, this`compressedBytes, this`diskBytes
      ensures View() == Charge(old(View()), e, if remove then -1 else 1)
    {
      var factor := if remove then -1 else 1;
      match e.tier {
        case Device => deviceBytes := deviceBytes + factor * e.uncompressedBytes;
        case Host => hostBytes := hostBytes + factor * e.uncompressedBytes;
        case Compressed => compressedBytes := compressedBytes + factor * e.compressedBytes;
        case Disk => diskBytes := diskBytes + factor * e.diskBytes;
      }
    }

    /** Store the entry, moving its footprint from the old tier's counter to the new one's. */
    method ReplaceEntry(l: int, e: Entry<R, C>)
      modifies this
      ensures View() == Replace(old(View()), l, e)
    {
      if l in entries { UpdateUsage(entries[l], true); }
      entries := entries[l := e];
      UpdateUsage(e, false);
    }

    method OffloadToHost(l: int)
      requires l in entries
      modifies this
      ensures View() == Offload(old(View()), l)
    {
      var e := entries[l];
      if e.tensors == None || e.tier != Device { return; }
      ReplaceEntry(l, e.(tier := Host));
    }

    method CompressEntry(l: int)
      requires l in entries
      modifies this
      ensures View() == Compress(cfg, old(View()), l)
    {
      var e := entries[l];
      if e.tensors == None { return; }
      var packed := cfg.pack(e.tensors.value);
      ReplaceEntry(l,
        e.(tensors := None, compressed := Some(packed), compressedBytes := cfg.packedSize(packed), tier := Compressed));
    }

    method SpillToDisk(l: int)
      requires l in entries && entries[l].tier == Compressed && entries[l].compressed.Some?
      modifies this
      ensures View() == Spill(cfg, old(View()), l)
    {
      if !cfg.spill { return; }
      var e := entries[l];
      disk := disk[l := e.compressed.value];
      ReplaceEntry(l, e.(compressed := None, compressedBytes := 0, diskBytes := cfg.packedSize(disk[l]), tier := Disk));
    }

    method LoadFromDisk(l: int)
      requires l in entries
      modifies this
      ensures View() == Load(cfg, old(View()), l)
    {
      var e := entries[l];
      if e.tier != Disk || l !in disk { return; }
      var raw := disk[l];
      disk := disk - {l};
      var parsed := cfg.loadPlain(raw);
      if parsed.Some? {
        e := e.(diskBytes := 0, tensors := parsed, compressed := None, compressedBytes := 0,
                uncompressedBytes := Size(cfg, parsed.value), tier := Host);
      } else {
        e := e.(diskBytes := 0, compressed := Some(raw), compressedBytes := cfg.packedSize(raw), tier := Compressed);
      }
      ReplaceEntry(l, e);
    }

    /** The layers in order of last access. */
    method SortedByAccess() returns (order: seq<int>)
      requires DistinctTimes(View())
      ensures order == Lru(entries, entries.Keys)
    {
      order := [];
      var keys := entries.Keys;
      assert order + Lru(entries, keys) == Lru(entries, entries.Keys);
      while keys != {}
        invariant keys <= entries.Keys
        invariant order + Lru(entries, keys) == Lru(entries, entries.Keys)
        decreases |keys|
      {
        OldestExists(entries, keys);
        var l :| l in keys && OldestIn(entries, keys, l);
        FirstIsOldest(View(), keys, l);
        order, keys := order + [l], keys - {l};
      }
    }

    /** One pass of the enforcement loop's body. */
    method ChillLayer(l: int)
      requires l in entries && Inv(cfg, View()) && Lossless(cfg)
      modifies this
      ensures View() == Chill(cfg, old(View()), l) && Inv(cfg, View())
    {
      hide Inv, Lossless, Offload, Compress, Spill;
      ChillMoves(cfg, View(), l);
      if entries[l].tier == Disk { return; }
      OffloadMoves(cfg, View(), l);
      if cfg.tiering && entries[l].tier == Device { OffloadToHost(l); }
      if cfg.compression {
        CompressMoves(cfg, View(), l);
        if entries[l].tier != Compressed && entries[l].tier != Disk { CompressEntry(l); }
      }
      if cfg.spill && entries[l].tier == Compressed {
        PackedIsThere(cfg, View(), l);
        SpillToDisk(l);
      }
    }

    method EnforceBudget()
      requires Inv(cfg, View()) && Lossless(cfg)
      modifies this
      ensures View() == KvStore.EnforceBudget(cfg, old(View())) && Inv(cfg, View())
    {
      hide Inv, Lossless, Chill, Lru, Value, DistinctTimes, Enforce, Coldest, SameContents;
      ghost var start := View();
      EnforceBudgetKeeps(cfg, start);
      var usage := deviceBytes + hostBytes + compressedBytes + diskBytes;
      if usage <= cfg.budget { return; }
      Ages(cfg, start);
      var order := SortedByAccess();
      var i := 0;
      while i < |order| && usage > cfg.budget
        invariant i <= |order| && usage == Usage(View()) && Inv(cfg, View())
        invariant entries.Keys == start.entries.Keys
        invariant Enforce(cfg, start, order) == Enforce(cfg, View(), order[i..])
      {
        EnforceOne(cfg, View(), order, i);
        ChillLayer(order[i]);
        usage := deviceBytes + hostBytes + compressedBytes + diskBytes;
        i := i + 1;
      }
      EnforceDone(cfg, View(), order[i..]);
      if usage > cfg.budget { violations := violations + 1; }
    }

    method EnforceDeviceBudget()
      requires Inv(cfg, View())
      modifies this
      ensures View() == EnforceDevice(cfg, old(View())) && Inv(cfg, View())
    {
      hide Inv, Offload, Lru, OffloadUntil, Value, SameContents, DistinctTimes;
      ghost var start := View();
      EnforceDeviceKeeps(cfg, start);
      if deviceBytes <= cfg.deviceBudget || !cfg.tiering { return; }
      Ages(cfg, start);
      var order := SortedByAccess();
      var i := 0;
      while i < |order| && deviceBytes > cfg.deviceBudget
        invariant i <= |order| && Inv(cfg, View())
        invariant entries.Keys == start.entries.Keys
        invariant OffloadUntil(cfg, start, order) == OffloadUntil(cfg, View(), order[i..])
      {
        OffloadMoves(cfg, View(), order[i]);
        OffloadOne(cfg, View(), order, i);
        if entries[order[i]].tier == Device { OffloadToHost(order[i]); }
        i := i + 1;
      }
      OffloadDone(cfg, View(), order[i..]);
    }

    /** Replace the layer's entry, dropping the previous one's spill file. */
    method PutTensors(l: int, tensors: Option<seq<R>>, onDevice: bool)
      modifies this
      ensures View() == Put(cfg, old(View()), l, tensors, onDevice)
    {
      hide Trim, Replace;
      var kept := Trim(tensors, cfg.window);
      var now := clock;
      clock := clock + 1;
      if l in entries && entries[l].tier == Disk { disk := disk - {l}; }
      ReplaceEntry(l, Entry(kept, None, if kept.Some? then Size(cfg, kept.value) else 0, 0, now,
                            if kept.Some? && onDevice then Device else Host, 0));
    }

    method SetTensors(l: int, tensors: Option<seq<R>>, onDevice: bool)
      requires Inv(cfg, View()) && Lossless(cfg)
      modifies this
      ensures View() == Set(cfg, old(View()), l, tensors, onDevice) && Inv(cfg, View())
    {
      hide Inv, Lossless, KvStore.EnforceBudget, EnforceDevice, Put;
      PutKeeps(cfg, View(), l, tensors, onDevice);
      PutTensors(l, tensors, onDevice);
      EnforceDeviceBudget();
      EnforceBudget();
    }

    method DecompressEntry(l: int)
      requires l in entries
      modifies this
      ensures View() == Decompress(cfg, old(View()), l)
    {
      var e := entries[l];
      if e.tier != Compressed || e.compressed == None { return; }
      ReplaceEntry(l,
        e.(tensors := cfg.unpack(e.compressed.value), compressed := None, compressedBytes := 0, tier := Host));
    }

    method GetTensors(l: int, toDevice: bool) returns (tensors: Option<seq<R>>)
      requires Inv(cfg, View()) && Lossless(cfg)
      modifies this
      ensures (View(), tensors) == Get(cfg, old(View()), l, toDevice) && Inv(cfg, View())
    {
      hide Inv, Lossless, Load, Decompress, ToDevice, KvStore.EnforceBudget, EnforceDevice, Charge;
      if l !in entries { return None; }
      FetchedKeeps(cfg, View(), l);
      entries, clock := entries[l := entries[l].(lastAccess := clock)], clock + 1;
      LoadFromDisk(l);
      DecompressEntry(l);
      assert View() == Fetched(cfg, old(View()), l);
      if entries[l].tensors.Some? && toDevice && entries[l].tier != Device {
        ToDeviceMoves(cfg, View(), l);
        MoveToDevice(l);
        EnforceDeviceBudget();
        EnforceBudget();
      }
      tensors := entries[l].tensors;
    }

    method MoveToDevice(l: int)
      requires l in entries && entries[l].tensors.Some? && entries[l].tier != Device
      modifies this
      ensures View() == ToDevice(old(View()), l)
    {
      ReplaceEntry(l, entries[l].(tier := Device));
    }

    method MaybeEvict(l: int)
      requires Inv(cfg, View()) && Lossless(cfg)
      modifies this
      ensures View() == KvStore.MaybeEvict(cfg, old(View()), l) && Inv(cfg, View())
      ensures Parks(cfg, old(View()), View(), l)
    {
      hide Inv, Lossless, Offload, Compress;
      EvictKeeps(cfg, View(), l);
      if l !in entries || (entries[l].tensors == None && entries[l].tier != Compressed) { return; }
      if cfg.tiering && entries[l].tier == Device { OffloadToHost(l); }
      if cfg.compression && entries[l].tier != Compressed { CompressEntry(l); }
    }
  }

  /** A layer of the cache whose cold rows live in the shared manager. */
  class CompressedDynamicLayer<R(!new, ==), C(==)> {
    const index: int
    const onDevice: bool
    const manager: KVCacheManager<R, C>
    var rows: seq<R>
    var cold: bool
    var coldLength: nat

    ghost predicate Valid()
      reads this, manager
    {
      && Inv(manager.cfg, manager.View()) && Lossless(manager.cfg)
      && (cold ==>
            && rows == []
            && index in manager.entries
            && Value(manager.cfg, manager.View(), index).Some?
            && |Value(manager.cfg, manager.View(), index).value| == coldLength)
    }

    /** The rows this layer stands for, wherever they are. */
    ghost function Contents(): seq<R>
      requires Valid()
      reads this, manager
    {
      if cold then Value(manager.cfg, manager.View(), index).value else rows
    }

    /** What the other layers parked in the manager stays readable as it was. */
    twostate predicate OthersKept()
      reads manager
    {
      && manager.entries.Keys == old(manager.entries.Keys) + (manager.entries.Keys * {index})
      && forall k :: k in old(manager.entries) && k != index ==>
           Value(manager.cfg, manager.View(), k) == old(Value(manager.cfg, manager.View(), k))
    }

    constructor (index: int, onDevice: bool, manager: KVCacheManager<R, C>)
      requires Inv(manager.cfg, manager.View()) && Lossless(manager.cfg)
      ensures Valid() && this.manager == manager && this.index == index && Contents() == []
    {
      this.index, this.onDevice, this.manager := index, onDevice, manager;
      rows, cold, coldLength := [], false, 0;
    }

    function SeqLength(): (n: nat)
      requires Valid()
      reads this, manager
      ensures n == |Contents()|
    {
      if cold then coldLength else |rows|
    }

    method Compress()
      requires Valid()
      modifies this, manager
      ensures Valid() && OthersKept()
      ensures cold <==> old(cold) || old(rows) != []
      ensures old(cold) ==> Contents() == old(Contents())
      ensures !old(cold) ==> Newest(old(rows), Contents(), manager.cfg.window)
    {
      hide Inv, Lossless, Set, KvStore.MaybeEvict;
      if cold || rows == [] { return; }
      var w := manager.cfg.window;
      coldLength := if w > 0 && w < |rows| then w else |rows|;
      SetKeeps(manager.cfg, manager.View(), index, Some(rows), onDevice);
      manager.SetTensors(index, Some(rows), onDevice);
      EvictKeeps(manager.cfg, manager.View(), index);
      manager.MaybeEvict(index);
      rows, cold := [], true;
    }

    /** The rows come back exactly when the manager can keep them readable; otherwise the
        layer restarts empty. */
    method Decompress()
      requires Valid()
      modifies this, manager
      ensures Valid() && OthersKept() && !cold
      ensures rows ==
        if !old(cold) || old(StaysReadable(manager.cfg, manager.View(), index, true)) then old(Contents()) else []
    {
      hide Inv, Lossless, Get, StaysReadable;
      if !cold { return; }
      GetKeeps(manager.cfg, manager.View(), index, true);
      var restored := manager.GetTensors(index, true);
      if restored.Some? { rows := restored.value; }
      cold := false;
    }

    method Update(added: seq<R>)
      requires Valid()
      modifies this, manager
      ensures Valid() && OthersKept() && !cold
      ensures rows ==
        (if !old(cold) || old(StaysReadable(manager.cfg, manager.View(), index, true))
         then old(Contents()) else []) + added
    {
      hide Inv, Lossless, StaysReadable;
      if cold { Decompress(); }
      rows := rows + added;
    }
  }
}
