/** The tiered key/value store as values: per-layer entries on the device, on the host,
    compressed, or in a spill file, with one byte counter per tier.

    A tensor pair is the list of its rows, one per token position. Serialising plus zlib
    is `pack`; `unpack` is its inverse (hypothesis `Lossless`). INT4 mode is left out. */
module KvStore {
  import opened Common
  import opened Sums

  datatype Tier = Device | Host | Compressed | Disk

  type Budget = b: nat | b > 0 witness 1

  const DEFAULT_BUDGET: Budget := 512 * 1024 * 1024

  /** A budget that is not given, or given as zero, is replaced. */
  function OrElse(asked: nat, otherwise: Budget): Budget { if asked == 0 then otherwise else asked }

  datatype Config<!R, !C> = Config(
    budget: Budget, deviceBudget: Budget, compression: bool, tiering: bool, spill: bool, window: int, rowBytes: nat,
    pack: seq<R> -> C, unpack: C -> Option<seq<R>>, loadPlain: C -> Option<seq<R>>, packedSize: C -> nat)

  /** zlib and torch save/load invert each other, and a zlib stream is not a torch file. */
  ghost predicate Lossless<R(!new), C>(cfg: Config<R, C>) {
    forall rows: seq<R> :: cfg.unpack(cfg.pack(rows)) == Some(rows) && cfg.loadPlain(cfg.pack(rows)) == None
  }

  datatype Entry<R, C> = Entry(
    tensors: Option<seq<R>>, compressed: Option<C>, uncompressedBytes: nat, compressedBytes: nat,
    lastAccess: nat, tier: Tier, diskBytes: nat)

  datatype Store<R, C> = Store(
    entries: map<int, Entry<R, C>>, disk: map<int, C>,
    deviceBytes: int, hostBytes: int, compressedBytes: int, diskBytes: int, violations: nat, clock: nat)

  function Empty<R, C>(): Store<R, C> { Store(map[], map[], 0, 0, 0, 0, 0, 0) }

  function Size<R, C>(cfg: Config<R, C>, rows: seq<R>): nat { |rows| * cfg.rowBytes }

  function Usage<R, C>(s: Store<R, C>): int {
    s.deviceBytes + s.hostBytes + s.compressedBytes + s.diskBytes
  }

  // ---------------------------------------------------------------- counters

  function Bytes<R, C>(e: Entry<R, C>): nat {
    match e.tier
    case Device => e.uncompressedBytes
    case Host => e.uncompressedBytes
    case Compressed => e.compressedBytes
    case Disk => e.diskBytes
  }

  /** Add `sign` times the entry's footprint to the counter of its tier. */
  function Charge<R, C>(s: Store<R, C>, e: Entry<R, C>, sign: int): (r: Store<R, C>)
    ensures r.entries == s.entries && r.disk == s.disk && r.clock == s.clock && r.violations == s.violations
  {
    match e.tier
    case Device => s.(deviceBytes := s.deviceBytes + sign * Bytes(e))
    case Host => s.(hostBytes := s.hostBytes + sign * Bytes(e))
    case Compressed => s.(compressedBytes := s.compressedBytes + sign * Bytes(e))
    case Disk => s.(diskBytes := s.diskBytes + sign * Bytes(e))
  }

  /** Replace layer `l`'s entry, discharging the old footprint and charging the new. */
  function Replace<R, C>(s: Store<R, C>, l: int, e: Entry<R, C>): (r: Store<R, C>)
    ensures r.entries == s.entries[l := e] && r.disk == s.disk && r.clock == s.clock && r.violations == s.violations
  {
    var s1 := if l in s.entries then Charge(s, s.entries[l], -1) else s;
    Charge(s1.(entries := s.entries[l := e]), e, 1)
  }

  function Counter<R, C>(s: Store<R, C>, t: Tier): int {
    match t
    case Device => s.deviceBytes
    case Host => s.hostBytes
    case Compressed => s.compressedBytes
    case Disk => s.diskBytes
  }

  function TierBytes<R, C>(entries: map<int, Entry<R, C>>, t: Tier): map<int, nat> {
    map l | l in entries :: if entries[l].tier == t then Bytes(entries[l]) else 0
  }

  ghost predicate Counted<R, C>(s: Store<R, C>) {
    forall t: Tier :: Counter(s, t) == Sum(TierBytes(s.entries, t))
  }

  function TierPart<R, C>(e: Entry<R, C>, t: Tier): nat { if e.tier == t then Bytes(e) else 0 }

  lemma CounterReplaced<R, C>(s: Store<R, C>, l: int, e: Entry<R, C>, t: Tier)
    ensures Counter(Replace(s, l, e), t) ==
      Counter(s, t) - (if l in s.entries then TierPart(s.entries[l], t) else 0) + TierPart(e, t)
  {
    hide Bytes;
    var s1 := if l in s.entries then Charge(s, s.entries[l], -1) else s;
    if l in s.entries { CounterCharged(s, s.entries[l], -1, t); }
    CounterCharged(s1.(entries := s.entries[l := e]), e, 1, t);
    assert Counter(s1.(entries := s.entries[l := e]), t) == Counter(s1, t);
    hide Charge;
  }

  lemma CounterCharged<R, C>(s: Store<R, C>, e: Entry<R, C>, sign: int, t: Tier)
    ensures Counter(Charge(s, e, sign), t) == Counter(s, t) + sign * TierPart(e, t)
  {
    hide Bytes;
  }

  lemma ReplaceCountsTier<R, C>(s: Store<R, C>, l: int, e: Entry<R, C>, t: Tier)
    requires Counter(s, t) == Sum(TierBytes(s.entries, t))
    ensures Counter(Replace(s, l, e), t) == Sum(TierBytes(s.entries[l := e], t))
  {
    hide Sum, Bytes, Replace, Counter;
    CounterReplaced(s, l, e, t);
    var before := TierBytes(s.entries, t);
    assert TierBytes(s.entries[l := e], t) == before[l := TierPart(e, t)];
    SumUpdate(before, l, TierPart(e, t));
  }

  lemma ReplaceCounts<R, C>(s: Store<R, C>, l: int, e: Entry<R, C>)
    requires Counted(s)
    ensures Counted(Replace(s, l, e))
  {
    hide Counter;
    assert Replace(s, l, e).entries == s.entries[l := e];
    forall t: Tier ensures Counter(Replace(s, l, e), t) == Sum(TierBytes(s.entries[l := e], t)) {
      ReplaceCountsTier(s, l, e, t);
    }
  }

  // ---------------------------------------------------------------- contents

  ghost predicate WellFormed<R(!new), C>(cfg: Config<R, C>, s: Store<R, C>, l: int)
    requires l in s.entries
  {
    var e := s.entries[l];
    match e.tier
    case Device => e.compressed == None && e.tensors.Some? && e.uncompressedBytes == Size(cfg, e.tensors.value)
    case Host => e.compressed == None &&
      e.uncompressedBytes == (if e.tensors.Some? then Size(cfg, e.tensors.value) else 0)
    case Compressed =>
      e.tensors == None && e.compressed.Some? && e.compressedBytes == cfg.packedSize(e.compressed.value)
      && (exists rows :: e.compressed.value == cfg.pack(rows) && e.uncompressedBytes == Size(cfg, rows))
    case Disk =>
      e.tensors == None && e.compressed == None && l in s.disk && e.diskBytes == cfg.packedSize(s.disk[l])
      && (exists rows :: s.disk[l] == cfg.pack(rows) && e.uncompressedBytes == Size(cfg, rows))
  }

  /** What layer `l` would read back, whatever tier it is in. */
  function Value<R, C>(cfg: Config<R, C>, s: Store<R, C>, l: int): Option<seq<R>> {
    if l !in s.entries then None
    else
      var e := s.entries[l];
      match e.tier
      case Device => e.tensors
      case Host => e.tensors
      case Compressed => if e.compressed.Some? then cfg.unpack(e.compressed.value) else None
      case Disk => if l in s.disk then cfg.unpack(s.disk[l]) else None
  }

  ghost predicate Inv<R(!new), C>(cfg: Config<R, C>, s: Store<R, C>) {
    && Counted(s)
    && (forall l :: l in s.entries ==> WellFormed(cfg, s, l) && s.entries[l].lastAccess < s.clock)
    && (forall l, k :: l in s.entries && k in s.entries && s.entries[l].lastAccess == s.entries[k].lastAccess ==>
        l == k)
    && (!cfg.compression ==> forall l :: l in s.entries ==> s.entries[l].tier == Device || s.entries[l].tier == Host)
  }

  ghost predicate SameContents<R, C>(cfg: Config<R, C>, s: Store<R, C>, r: Store<R, C>) {
    && s.entries.Keys == r.entries.Keys
    && (forall l :: l in s.entries ==> Value(cfg, r, l) == Value(cfg, s, l))
    && (forall l :: l in s.entries ==> r.entries[l].lastAccess == s.entries[l].lastAccess)
    && r.clock == s.clock
  }

  // ---------------------------------------------------------------- moves between tiers

  function Offload<R, C>(s: Store<R, C>, l: int): (r: Store<R, C>)
    requires l in s.entries
    ensures r.entries.Keys == s.entries.Keys
  {
    var e := s.entries[l];
    if e.tensors == None || e.tier != Device then s else Replace(s, l, e.(tier := Host))
  }

  function Compress<R, C>(cfg: Config<R, C>, s: Store<R, C>, l: int): Store<R, C>
    requires l in s.entries
  {
    var e := s.entries[l];
    if e.tensors == None then s
    else
      var c := cfg.pack(e.tensors.value);
      Replace(s, l,
        e.(tensors := None, compressed := Some(c), compressedBytes := cfg.packedSize(c), tier := Compressed))
  }

  /** Write the compressed bytes of layer `l` to its spill file. */
  function Spill<R, C>(cfg: Config<R, C>, s: Store<R, C>, l: int): Store<R, C>
    requires l in s.entries
  {
    var e := s.entries[l];
    if !cfg.spill || e.compressed == None then s
    else
      Replace(s.(disk := s.disk[l := e.compressed.value]), l,
              e.(compressed := None, compressedBytes := 0, tier := Disk,
                diskBytes := cfg.packedSize(e.compressed.value)))
  }

  /** Read the spill file back: as plain tensors if it parses, else as compressed bytes. */
  function Load<R, C>(cfg: Config<R, C>, s: Store<R, C>, l: int): (r: Store<R, C>)
    requires l in s.entries
    ensures r.entries.Keys == s.entries.Keys
  {
    var e := s.entries[l];
    if e.tier != Disk || l !in s.disk then s
    else
      var raw := s.disk[l];
      var s1 := s.(disk := s.disk - {l});
      var e1 := e.(diskBytes := 0);
      match cfg.loadPlain(raw)
      case Some(rows) =>
        Replace(s1, l, e1.(tensors := Some(rows), compressed := None, compressedBytes := 0,
                           uncompressedBytes := Size(cfg, rows), tier := Host))
      case None => Replace(s1, l,
        e1.(compressed := Some(raw), compressedBytes := cfg.packedSize(raw), tier := Compressed))
  }

  function Decompress<R, C>(cfg: Config<R, C>, s: Store<R, C>, l: int): Store<R, C>
    requires l in s.entries
  {
    var e := s.entries[l];
    if e.tier != Compressed || e.compressed == None then s
    else Replace(s, l,
      e.(tensors := cfg.unpack(e.compressed.value), compressed := None, compressedBytes := 0, tier := Host))
  }

  function ToDevice<R, C>(s: Store<R, C>, l: int): (r: Store<R, C>)
    requires l in s.entries
    ensures r.entries.Keys == s.entries.Keys
  {
    var e := s.entries[l];
    if e.tensors == None || e.tier == Device then s else Replace(s, l, e.(tier := Device))
  }

  /** A tier move of one layer: invariant, contents and access order stay. */
  ghost predicate Moves<R(!new), C>(cfg: Config<R, C>, s: Store<R, C>, r: Store<R, C>, l: int) {
    && Inv(cfg, r) && SameContents(cfg, s, r) && r.violations == s.violations
    && (forall k :: k in s.entries && k != l ==> r.entries[k] == s.entries[k])
  }

  /** Replacing one entry by a well-formed one of the same value keeps the invariant. */
  lemma ReplaceMoves<R(!new), C>(cfg: Config<R, C>, s: Store<R, C>, disk: map<int, C>, l: int, e: Entry<R, C>)
    requires Inv(cfg, s) && l in s.entries && disk - {l} == s.disk - {l}
    requires WellFormed(cfg, s.(entries := s.entries[l := e], disk := disk), l)
    requires Value(cfg, s.(entries := s.entries[l := e], disk := disk), l) == Value(cfg, s, l)
    requires e.lastAccess == s.entries[l].lastAccess
    requires !cfg.compression ==> e.tier == Device || e.tier == Host
    ensures Moves(cfg, s, Replace(s.(disk := disk), l, e), l)
  {
    hide Counted, Charge;
    var r := Replace(s.(disk := disk), l, e);
    assert Counted(s.(disk := disk)) by { StillCounted(s, disk); }
    ReplaceCounts(s.(disk := disk), l, e);
    forall k | k in s.entries && k != l ensures k in disk <==> k in s.disk ensures k in disk ==> disk[k] == s.disk[k] {
      assert k in disk - {l} <==> k in s.disk - {l};
    }
    forall k | k in r.entries ensures WellFormed(cfg, r, k) && Value(cfg, r, k) == Value(cfg, s, k) {
      if k != l { assert WellFormed(cfg, s, k); }
    }
  }

  lemma StillCounted<R, C>(s: Store<R, C>, disk: map<int, C>)
    requires Counted(s)
    ensures Counted(s.(disk := disk))
  {
    forall t: Tier ensures Counter(s.(disk := disk), t) == Sum(TierBytes(s.entries, t)) {
      assert Counter(s.(disk := disk), t) == Counter(s, t);
    }
  }

  lemma OffloadMoves<R(!new), C>(cfg: Config<R, C>, s: Store<R, C>, l: int)
    requires Inv(cfg, s) && l in s.entries
    ensures Moves(cfg, s, Offload(s, l), l)
  {
    hide Counted, Replace;
    var e := s.entries[l];
    if !(e.tensors == None || e.tier != Device) { ReplaceMoves(cfg, s, s.disk, l, e.(tier := Host)); }
  }

  lemma ToDeviceMoves<R(!new), C>(cfg: Config<R, C>, s: Store<R, C>, l: int)
    requires Inv(cfg, s) && l in s.entries
    ensures Moves(cfg, s, ToDevice(s, l), l)
  {
    hide Counted, Replace;
    var e := s.entries[l];
    if !(e.tensors == None || e.tier == Device) { ReplaceMoves(cfg, s, s.disk, l, e.(tier := Device)); }
  }

  lemma CompressMoves<R(!new), C>(cfg: Config<R, C>, s: Store<R, C>, l: int)
    requires Inv(cfg, s) && Lossless(cfg) && cfg.compression && l in s.entries
    ensures Moves(cfg, s, Compress(cfg, s, l), l)
  {
    hide Counted, Replace;
    var e := s.entries[l];
    if e.tensors.Some? {
      var c := cfg.pack(e.tensors.value);
      assert WellFormed(cfg, s, l);
      ReplaceMoves(cfg, s, s.disk, l,
        e.(tensors := None, compressed := Some(c), compressedBytes := cfg.packedSize(c), tier := Compressed));
    }
  }

  lemma PackedIsThere<R(!new), C>(cfg: Config<R, C>, s: Store<R, C>, l: int)
    requires Inv(cfg, s) && l in s.entries && s.entries[l].tier == Compressed
    ensures s.entries[l].compressed.Some?
  {
    assert WellFormed(cfg, s, l);
  }

  lemma SpillMoves<R(!new), C>(cfg: Config<R, C>, s: Store<R, C>, l: int)
    requires Inv(cfg, s) && l in s.entries
    ensures Moves(cfg, s, Spill(cfg, s, l), l)
  {
    hide Counted, Replace;
    var e := s.entries[l];
    assert WellFormed(cfg, s, l);
    if cfg.spill && e.compressed.Some? {
      ReplaceMoves(cfg, s, s.disk[l := e.compressed.value], l,
        e.(compressed := None, compressedBytes := 0, tier := Disk, diskBytes := cfg.packedSize(e.compressed.value)));
    }
  }

  lemma LoadMoves<R(!new), C>(cfg: Config<R, C>, s: Store<R, C>, l: int)
    requires Inv(cfg, s) && Lossless(cfg) && l in s.entries
    ensures Moves(cfg, s, Load(cfg, s, l), l)
    ensures Load(cfg, s, l).entries[l].tier != Disk
  {
    hide Counted, Replace;
    var e := s.entries[l];
    assert WellFormed(cfg, s, l);
    if e.tier == Disk {
      var raw := s.disk[l];
      var rows :| raw == cfg.pack(rows) && e.uncompressedBytes == Size(cfg, rows);
      ReplaceMoves(cfg, s, s.disk - {l}, l,
        e.(diskBytes := 0, compressed := Some(raw), compressedBytes := cfg.packedSize(raw), tier := Compressed));
    }
  }

  lemma DecompressMoves<R(!new), C>(cfg: Config<R, C>, s: Store<R, C>, l: int)
    requires Inv(cfg, s) && Lossless(cfg) && l in s.entries && s.entries[l].tier != Disk
    ensures Moves(cfg, s, Decompress(cfg, s, l), l)
    ensures Decompress(cfg, s, l).entries[l].tensors == Value(cfg, s, l)
    ensures var t := Decompress(cfg, s, l).entries[l].tier; t == Device || t == Host
  {
    hide Counted, Replace;
    var e := s.entries[l];
    assert WellFormed(cfg, s, l);
    if e.tier == Compressed {
      var rows :| e.compressed.value == cfg.pack(rows) && e.uncompressedBytes == Size(cfg, rows);
      ReplaceMoves(cfg, s, s.disk, l,
        e.(tensors := Some(rows), compressed := None, compressedBytes := 0, tier := Host));
    }
  }

  // ---------------------------------------------------------------- budget enforcement

  /** One eviction step for one layer: to the host, then compressed, then to disk. */
  function Chill<R, C>(cfg: Config<R, C>, s: Store<R, C>, l: int): (r: Store<R, C>)
    requires l in s.entries
    ensures r.entries.Keys == s.entries.Keys
  {
    if s.entries[l].tier == Disk then s
    else
      var s1 := if cfg.tiering && s.entries[l].tier == Device then Offload(s, l) else s;
      var t := s1.entries[l].tier;
      var s2 := if cfg.compression && t != Compressed && t != Disk then Compress(cfg, s1, l) else s1;
      if cfg.spill && s2.entries[l].tier == Compressed then Spill(cfg, s2, l) else s2
  }

  /** The coldest tier this entry may be in under the settings. */
  predicate Coldest<R, C>(cfg: Config<R, C>, e: Entry<R, C>) {
    || e.tier == Disk
    || (e.tier == Compressed && !cfg.spill)
    || (e.tier == Host && (!cfg.compression || e.tensors == None))
    || (e.tier == Device && !cfg.compression && !cfg.tiering)
  }

  lemma MovesTwice<R(!new), C>(cfg: Config<R, C>, s: Store<R, C>, m: Store<R, C>, r: Store<R, C>, l: int)
    requires Moves(cfg, s, m, l) && Moves(cfg, m, r, l)
    ensures Moves(cfg, s, r, l)
  {}

  lemma ChillMoves<R(!new), C>(cfg: Config<R, C>, s: Store<R, C>, l: int)
    requires Inv(cfg, s) && Lossless(cfg) && l in s.entries
    ensures Moves(cfg, s, Chill(cfg, s, l), l)
    ensures Coldest(cfg, Chill(cfg, s, l).entries[l])
    ensures cfg.compression ==> Chill(cfg, s, l).entries[l].tensors == None
  {
    ChillCools(cfg, s, l);
    if s.entries[l].tier == Disk {
      hide Counted, Chill, Coldest;
      NothingMoves(cfg, s, l);
    } else {
      ChillMovesWarm(cfg, s, l);
    }
  }

  lemma NothingMoves<R(!new), C>(cfg: Config<R, C>, s: Store<R, C>, l: int)
    requires Inv(cfg, s) && l in s.entries && s.entries[l].tier == Disk
    ensures Moves(cfg, s, s, l) && Chill(cfg, s, l) == s
  {}

  lemma ChillMovesWarm<R(!new), C>(cfg: Config<R, C>, s: Store<R, C>, l: int)
    requires Inv(cfg, s) && Lossless(cfg) && l in s.entries && s.entries[l].tier != Disk
    ensures Moves(cfg, s, Chill(cfg, s, l), l)
  {
    NothingLost(cfg, s, l);
    hide Counted, Offload, Compress, Spill, Lossless, Inv, SameContents;
    var s1 := if cfg.tiering && s.entries[l].tier == Device then Offload(s, l) else s;
    OffloadMoves(cfg, s, l);
    assert Moves(cfg, s, s1, l);
    var t := s1.entries[l].tier;
    var s2 := if cfg.compression && t != Compressed && t != Disk then Compress(cfg, s1, l) else s1;
    NothingLost(cfg, s1, l);
    if cfg.compression { CompressMoves(cfg, s1, l); }
    MovesTwice(cfg, s, s1, s2, l);
    NothingLost(cfg, s2, l);
    SpillMoves(cfg, s2, l);
    MovesTwice(cfg, s, s2, Chill(cfg, s, l), l);
  }

  lemma NothingLost<R(!new), C>(cfg: Config<R, C>, s: Store<R, C>, l: int)
    requires Inv(cfg, s)
    ensures Moves(cfg, s, s, l)
  {}

  /** The tiers an entry passes through when it is chilled. */
  lemma ChillCools<R(!new), C>(cfg: Config<R, C>, s: Store<R, C>, l: int)
    requires Inv(cfg, s) && l in s.entries
    ensures Coldest(cfg, Chill(cfg, s, l).entries[l])
    ensures cfg.compression ==> Chill(cfg, s, l).entries[l].tensors == None
  {
    assert WellFormed(cfg, s, l);
    hide Charge, Counted;
  }

  // ---------------------------------------------------------------- access order

  predicate OldestIn<R, C>(entries: map<int, Entry<R, C>>, keys: set<int>, l: int)
    requires keys <= entries.Keys
  {
    l in keys && forall k :: k in keys ==> entries[l].lastAccess <= entries[k].lastAccess
  }

  lemma {:induction false} OldestExists<R, C>(entries: map<int, Entry<R, C>>, keys: set<int>)
    requires keys <= entries.Keys && keys != {}
    ensures exists l :: OldestIn(entries, keys, l)
    decreases |keys|
  {
    var x := Member(keys);
    if keys == {x} {
      assert OldestIn(entries, keys, x);
    } else {
      OldestExists(entries, keys - {x});
      var y :| OldestIn(entries, keys - {x}, y);
      assert OldestIn(entries, keys, if entries[x].lastAccess <= entries[y].lastAccess then x else y);
    }
  }

  /** The layers from least to most recently accessed. */
  ghost function Lru<R, C>(entries: map<int, Entry<R, C>>, keys: set<int>): (order: seq<int>)
    requires keys <= entries.Keys
    ensures forall l :: l in order <==> l in keys
    ensures |order| == |keys|
  {
    if keys == {} then []
    else
      OldestExists(entries, keys);
      var l :| OldestIn(entries, keys, l);
      [l] + Lru(entries, keys - {l})
  }

  ghost predicate ByAccess<R, C>(entries: map<int, Entry<R, C>>, order: seq<int>) {
    && (forall l :: l in order ==> l in entries)
    && forall i, j :: 0 <= i < j < |order| ==> entries[order[i]].lastAccess <= entries[order[j]].lastAccess
  }

  lemma ByAccessCons<R, C>(entries: map<int, Entry<R, C>>, keys: set<int>, l: int, rest: seq<int>)
    requires keys <= entries.Keys && OldestIn(entries, keys, l) && ByAccess(entries, rest) && Distinct(rest)
    requires forall x :: x in rest ==> x in keys && x != l
    ensures ByAccess(entries, [l] + rest) && Distinct([l] + rest)
  {
    forall x | x in [l] + rest ensures x in entries {}
    forall i, j | 0 <= i < j < |rest| + 1
      ensures entries[([l] + rest)[i]].lastAccess <= entries[([l] + rest)[j]].lastAccess
      ensures ([l] + rest)[i] != ([l] + rest)[j]
    {
      assert ([l] + rest)[j] == rest[j - 1] && rest[j - 1] in rest;
    }
  }

  lemma {:induction false} LruOrdered<R, C>(entries: map<int, Entry<R, C>>, keys: set<int>)
    requires keys <= entries.Keys
    ensures Distinct(Lru(entries, keys)) && ByAccess(entries, Lru(entries, keys))
  {
    if keys != {} {
      hide ByAccess, Distinct;
      OldestExists(entries, keys);
      var l :| OldestIn(entries, keys, l) && Lru(entries, keys) == [l] + Lru(entries, keys - {l});
      assert l in keys;
      LruOrdered(entries, keys - {l});
      ByAccessCons(entries, keys, l, Lru(entries, keys - {l}));
    }
  }

  // ---------------------------------------------------------------- the two enforcement loops

  /** Chill layers in `order` until usage fits the budget. */
  function Enforce<R, C>(cfg: Config<R, C>, s: Store<R, C>, order: seq<int>): (r: Store<R, C>)
    requires forall l :: l in order ==> l in s.entries
    ensures r.entries.Keys == s.entries.Keys
    decreases |order|
  {
    if order == [] || Usage(s) <= cfg.budget then s
    else Enforce(cfg, Chill(cfg, s, order[0]), order[1..])
  }

  ghost function EnforceBudget<R, C>(cfg: Config<R, C>, s: Store<R, C>): (r: Store<R, C>)
    ensures r.entries.Keys == s.entries.Keys
  {
    if Usage(s) <= cfg.budget then s
    else
      var r := Enforce(cfg, s, Lru(s.entries, s.entries.Keys));
      if Usage(r) > cfg.budget then r.(violations := r.violations + 1) else r
  }

  function OffloadUntil<R, C>(cfg: Config<R, C>, s: Store<R, C>, order: seq<int>): (r: Store<R, C>)
    requires forall l :: l in order ==> l in s.entries
    ensures r.entries.Keys == s.entries.Keys
    decreases |order|
  {
    if order == [] || s.deviceBytes <= cfg.deviceBudget then s
    else
      var l := order[0];
      OffloadUntil(cfg, if s.entries[l].tier == Device then Offload(s, l) else s, order[1..])
  }

  ghost function EnforceDevice<R, C>(cfg: Config<R, C>, s: Store<R, C>): (r: Store<R, C>)
    ensures r.entries.Keys == s.entries.Keys
  {
    if s.deviceBytes <= cfg.deviceBudget || !cfg.tiering then s
    else OffloadUntil(cfg, s, Lru(s.entries, s.entries.Keys))
  }

  lemma OffloadOne<R, C>(cfg: Config<R, C>, s: Store<R, C>, order: seq<int>, i: nat)
    requires i < |order| && s.deviceBytes > cfg.deviceBudget && forall l :: l in order ==> l in s.entries
    ensures OffloadUntil(cfg, s, order[i..])
            == OffloadUntil(cfg, if s.entries[order[i]].tier == Device then Offload(s, order[i]) else s, order[i + 1..])
  {
    hide Offload;
    assert order[i..][0] == order[i] && order[i..][1..] == order[i + 1..];
  }

  lemma OffloadDone<R, C>(cfg: Config<R, C>, s: Store<R, C>, order: seq<int>)
    requires (order == [] || s.deviceBytes <= cfg.deviceBudget) && forall l :: l in order ==> l in s.entries
    ensures OffloadUntil(cfg, s, order) == s
  {}

  lemma EnforceDone<R, C>(cfg: Config<R, C>, s: Store<R, C>, order: seq<int>)
    requires (order == [] || Usage(s) <= cfg.budget) && forall l :: l in order ==> l in s.entries
    ensures Enforce(cfg, s, order) == s
  {}

  lemma EnforceOne<R, C>(cfg: Config<R, C>, s: Store<R, C>, order: seq<int>, i: nat)
    requires i < |order| && Usage(s) > cfg.budget && forall l :: l in order ==> l in s.entries
    ensures Enforce(cfg, s, order[i..]) == Enforce(cfg, Chill(cfg, s, order[i]), order[i + 1..])
  {
    hide Chill;
    assert order[i..][0] == order[i] && order[i..][1..] == order[i + 1..];
  }

  /** Enforcement touches only the layers it visits, and what it visits it leaves coldest. */
  lemma {:induction false} EnforceKeeps<R(!new), C>(cfg: Config<R, C>, s: Store<R, C>, order: seq<int>)
    requires Inv(cfg, s) && Lossless(cfg) && Distinct(order) && (forall l :: l in order ==> l in s.entries)
    ensures var r := Enforce(cfg, s, order);
      && Inv(cfg, r) && SameContents(cfg, s, r) && r.violations == s.violations
      && (forall k :: k in s.entries && k !in order ==> r.entries[k] == s.entries[k])
      && (Usage(r) <= cfg.budget || forall l :: l in order ==> Coldest(cfg, r.entries[l]))
    decreases |order|
  {
    hide Inv, Lossless, Chill, Coldest, WellFormed, Value;
    if order != [] && Usage(s) > cfg.budget {
      ChillMoves(cfg, s, order[0]);
      EnforceKeeps(cfg, Chill(cfg, s, order[0]), order[1..]);
    }
  }

  /** Ends within budget, or with every entry in its coldest tier and one violation counted. */
  lemma EnforceBudgetKeeps<R(!new), C>(cfg: Config<R, C>, s: Store<R, C>)
    requires Inv(cfg, s) && Lossless(cfg)
    ensures var r := EnforceBudget(cfg, s);
      && Inv(cfg, r) && SameContents(cfg, s, r)
      && (Usage(r) <= cfg.budget || forall l :: l in r.entries ==> Coldest(cfg, r.entries[l]))
      && r.violations == s.violations + (if Usage(r) > cfg.budget then 1 else 0)
  {
    hide Lossless, Coldest, Inv, Enforce, Value, ByAccess, Distinct, Lru;
    if Usage(s) > cfg.budget {
      var order := Lru(s.entries, s.entries.Keys);
      LruOrdered(s.entries, s.entries.Keys);
      EnforceKeeps(cfg, s, order);
      var r := Enforce(cfg, s, order);
      ViolationKeeps(cfg, s, r, r.violations + 1);
    }
  }

  lemma ViolationKeeps<R(!new), C>(cfg: Config<R, C>, before: Store<R, C>, s: Store<R, C>, n: nat)
    requires Inv(cfg, s) && SameContents(cfg, before, s)
    ensures Inv(cfg, s.(violations := n)) && SameContents(cfg, before, s.(violations := n))
  {
    forall t: Tier ensures Counter(s.(violations := n), t) == Sum(TierBytes(s.entries, t)) {
      assert Counter(s.(violations := n), t) == Counter(s, t);
    }
    forall l | l in s.entries ensures WellFormed(cfg, s.(violations := n), l) { assert WellFormed(cfg, s, l); }
  }

  lemma {:induction false} OffloadUntilKeeps<R(!new), C>(cfg: Config<R, C>, s: Store<R, C>, order: seq<int>)
    requires Inv(cfg, s) && Distinct(order) && (forall l :: l in order ==> l in s.entries)
    ensures var r := OffloadUntil(cfg, s, order);
      && Inv(cfg, r) && SameContents(cfg, s, r) && r.violations == s.violations
      && (forall k :: k in s.entries ==> r.entries[k].tensors == s.entries[k].tensors)
      && (forall k :: k in s.entries && k !in order ==> r.entries[k] == s.entries[k])
      && (r.deviceBytes <= cfg.deviceBudget || forall l :: l in order ==> r.entries[l].tier != Device)
    decreases |order|
  {
    hide Inv, WellFormed, Value;
    if order != [] && s.deviceBytes > cfg.deviceBudget {
      OffloadMoves(cfg, s, order[0]);
      OffloadedTier(cfg, s, order[0]);
      OffloadUntilKeeps(cfg, if s.entries[order[0]].tier == Device then Offload(s, order[0]) else s, order[1..]);
    }
  }

  lemma OffloadedTier<R(!new), C>(cfg: Config<R, C>, s: Store<R, C>, l: int)
    requires Inv(cfg, s) && l in s.entries
    ensures Offload(s, l).entries[l].tier != Device && Offload(s, l).entries[l].tensors == s.entries[l].tensors
  {
    assert WellFormed(cfg, s, l);
  }

  lemma EnforceDeviceKeeps<R(!new), C>(cfg: Config<R, C>, s: Store<R, C>)
    requires Inv(cfg, s)
    ensures var r := EnforceDevice(cfg, s);
      && Inv(cfg, r) && SameContents(cfg, s, r) && r.violations == s.violations
      && (forall k :: k in s.entries ==> r.entries[k].tensors == s.entries[k].tensors)
      && (r.deviceBytes <= cfg.deviceBudget || !cfg.tiering || forall l :: l in r.entries ==>
          r.entries[l].tier != Device)
  {
    hide Inv, WellFormed, Value;
    LruOrdered(s.entries, s.entries.Keys);
    OffloadUntilKeeps(cfg, s, Lru(s.entries, s.entries.Keys));
  }

  // ---------------------------------------------------------------- set, get, maybe_evict

  /** `v` is what a window leaves of `rows`: all of them when it is not positive, else at most
      `window` of them, and in any case the most recent ones, in order. */
  ghost predicate Newest<R>(rows: seq<R>, v: seq<R>, window: int) {
    && |v| == (if window <= 0 || |rows| <= window then |rows| else window)
    && forall j :: 0 <= j < |v| ==> v[j] == rows[|rows| - |v| + j]
  }

  /** A value is kept exactly when one was given, and then its newest rows. */
  ghost predicate KeptOf<R>(given: Option<seq<R>>, kept: Option<seq<R>>, window: int) {
    kept.Some? == given.Some? && (given.Some? ==> Newest(given.value, kept.value, window))
  }

  lemma TrimKeepsNewest<R>(tensors: Option<seq<R>>, window: int)
    ensures KeptOf(tensors, Trim(tensors, window), window)
  {}

  /** Keep the most recent `window` positions; 0 keeps everything. */
  function Trim<R>(tensors: Option<seq<R>>, window: int): Option<seq<R>> {
    if window > 0 && tensors.Some? && |tensors.value| > window
    then Some(tensors.value[|tensors.value| - window..]) else tensors
  }

  function Put<R, C>(cfg: Config<R, C>, s: Store<R, C>, l: int, tensors: Option<seq<R>>,
                     onDevice: bool): (r: Store<R, C>)
    ensures l in r.entries
  {
    var kept := Trim(tensors, cfg.window);
    var size := if kept.Some? then Size(cfg, kept.value) else 0;
    var disk := if l in s.entries && s.entries[l].tier == Disk then s.disk - {l} else s.disk;
    Replace(s.(disk := disk, clock := s.clock + 1), l,
            Entry(kept, None, size, 0, s.clock, if kept.Some? && onDevice then Device else Host, 0))
  }

  ghost function Set<R, C>(cfg: Config<R, C>, s: Store<R, C>, l: int, tensors: Option<seq<R>>,
                           onDevice: bool): Store<R, C> {
    EnforceBudget(cfg, EnforceDevice(cfg, Put(cfg, s, l, tensors, onDevice)))
  }

  function Touch<R, C>(s: Store<R, C>, l: int): (r: Store<R, C>)
    requires l in s.entries
    ensures r.entries.Keys == s.entries.Keys
  {
    s.(entries := s.entries[l := s.entries[l].(lastAccess := s.clock)], clock := s.clock + 1)
  }

  /** Layer `l` as most recent access, back in plain form. */
  function Fetched<R, C>(cfg: Config<R, C>, s: Store<R, C>, l: int): (r: Store<R, C>)
    requires l in s.entries
    ensures l in r.entries
  {
    Decompress(cfg, Load(cfg, Touch(s, l), l), l)
  }

  ghost function Get<R, C>(cfg: Config<R, C>, s: Store<R, C>, l: int, toDevice: bool): (Store<R, C>, Option<seq<R>>) {
    if l !in s.entries then (s, None)
    else
      var s1 := Fetched(cfg, s, l);
      if s1.entries[l].tensors == None || !toDevice || s1.entries[l].tier == Device then (s1, s1.entries[l].tensors)
      else
        var s2 := EnforceBudget(cfg, EnforceDevice(cfg, ToDevice(s1, l)));
        (s2, s2.entries[l].tensors)
  }

  function MaybeEvict<R, C>(cfg: Config<R, C>, s: Store<R, C>, l: int): Store<R, C> {
    if l !in s.entries || (s.entries[l].tensors == None && s.entries[l].tier != Compressed) then s
    else
      var s1 := if cfg.tiering && s.entries[l].tier == Device then Offload(s, l) else s;
      if cfg.compression && s1.entries[l].tier != Compressed then Compress(cfg, s1, l) else s1
  }

  // ---------------------------------------------------------------- what each operation keeps

  /** Same layers, same values. */
  ghost predicate SameValues<R, C>(cfg: Config<R, C>, s: Store<R, C>, r: Store<R, C>) {
    s.entries.Keys == r.entries.Keys && forall l :: l in s.entries ==> Value(cfg, r, l) == Value(cfg, s, l)
  }

  lemma PutKeeps<R(!new), C>(cfg: Config<R, C>, s: Store<R, C>, l: int, tensors: Option<seq<R>>, onDevice: bool)
    requires Inv(cfg, s)
    ensures var r := Put(cfg, s, l, tensors, onDevice);
      && Inv(cfg, r) && Value(cfg, r, l) == Trim(tensors, cfg.window) && r.entries.Keys == s.entries.Keys + {l}
      && (forall k :: k in s.entries && k != l ==> Value(cfg, r, k) == Value(cfg, s, k))
  {
    hide Counted, Replace, Charge;
    var r := Put(cfg, s, l, tensors, onDevice);
    var disk := if l in s.entries && s.entries[l].tier == Disk then s.disk - {l} else s.disk;
    PutCounts(s, disk);
    ReplaceCounts(s.(disk := disk, clock := s.clock + 1), l, r.entries[l]);
    forall k | k in r.entries ensures WellFormed(cfg, r, k) {
      if k != l { assert WellFormed(cfg, s, k); }
    }
  }

  lemma PutCounts<R, C>(s: Store<R, C>, disk: map<int, C>)
    requires Counted(s)
    ensures Counted(s.(disk := disk, clock := s.clock + 1))
  {
    var r := s.(disk := disk, clock := s.clock + 1);
    forall t: Tier ensures Counter(r, t) == Sum(TierBytes(s.entries, t)) {
      assert Counter(r, t) == Counter(s, t);
    }
  }

  lemma SetKeeps<R(!new), C>(cfg: Config<R, C>, s: Store<R, C>, l: int, tensors: Option<seq<R>>, onDevice: bool)
    requires Inv(cfg, s) && Lossless(cfg)
    ensures var r := Set(cfg, s, l, tensors, onDevice);
      && Inv(cfg, r) && KeptOf(tensors, Value(cfg, r, l), cfg.window) && r.entries.Keys == s.entries.Keys + {l}
      && (forall k :: k in s.entries && k != l ==> Value(cfg, r, k) == Value(cfg, s, k))
      && Latest(r, l)
  {
    PutLatest(cfg, s, l, tensors, onDevice);
    hide Inv, Lossless, Put, EnforceDevice, EnforceBudget, Value, Coldest, Trim, KeptOf;
    TrimKeepsNewest(tensors, cfg.window);
    var s1 := Put(cfg, s, l, tensors, onDevice);
    PutKeeps(cfg, s, l, tensors, onDevice);
    EnforceDeviceKeeps(cfg, s1);
    EnforceBudgetKeeps(cfg, EnforceDevice(cfg, s1));
  }

  lemma PutLatest<R(!new), C>(cfg: Config<R, C>, s: Store<R, C>, l: int, tensors: Option<seq<R>>, onDevice: bool)
    requires Inv(cfg, s)
    ensures Latest(Put(cfg, s, l, tensors, onDevice), l)
  {
    hide Charge, Counted, WellFormed;
  }

  /** With room in both budgets a set leaves the rows as they are, on the device exactly if asked,
      and moves nothing else. */
  lemma SetPlaces<R(!new), C>(cfg: Config<R, C>, s: Store<R, C>, l: int, tensors: Option<seq<R>>, onDevice: bool)
    requires Inv(cfg, s)
    requires var size := if tensors.Some? then Size(cfg, tensors.value) else 0;
      s.deviceBytes + size <= cfg.deviceBudget && Usage(s) + size <= cfg.budget
    ensures var r := Set(cfg, s, l, tensors, onDevice);
      && l in r.entries && KeptOf(tensors, r.entries[l].tensors, cfg.window)
      && r.entries[l].tier == (if tensors.Some? && onDevice then Device else Host)
      && (forall k :: k in s.entries && k != l ==> k in r.entries && r.entries[k] == s.entries[k])
  {
    TrimKeepsNewest(tensors, cfg.window);
    PutFits(cfg, s, l, tensors, onDevice);
    hide Inv, KeptOf, Charge, Usage, Trim, Lru, Enforce, OffloadUntil;
  }

  lemma PutFits<R(!new), C>(cfg: Config<R, C>, s: Store<R, C>, l: int, tensors: Option<seq<R>>, onDevice: bool)
    requires Inv(cfg, s)
    ensures var size, r := if tensors.Some? then Size(cfg, tensors.value) else 0, Put(cfg, s, l, tensors, onDevice);
      r.deviceBytes <= s.deviceBytes + size && Usage(r) <= Usage(s) + size
  {
    hide Counted, WellFormed;
    if tensors.Some? { ShorterIsSmaller(cfg, Trim(tensors, cfg.window).value, tensors.value); }
  }

  lemma ShorterIsSmaller<R, C>(cfg: Config<R, C>, a: seq<R>, b: seq<R>)
    requires |a| <= |b|
    ensures Size(cfg, a) <= Size(cfg, b)
  {}

  lemma TouchKeeps<R(!new), C>(cfg: Config<R, C>, s: Store<R, C>, l: int)
    requires Inv(cfg, s) && l in s.entries
    ensures Inv(cfg, Touch(s, l)) && SameValues(cfg, s, Touch(s, l)) && Latest(Touch(s, l), l)
  {
    hide Counter;
    var r := Touch(s, l);
    forall t: Tier ensures Counter(r, t) == Sum(TierBytes(r.entries, t)) {
      TouchCounts(s, l, t);
    }
    forall k | k in r.entries ensures WellFormed(cfg, r, k) { assert WellFormed(cfg, s, k); }
  }

  lemma TouchCounts<R, C>(s: Store<R, C>, l: int, t: Tier)
    requires l in s.entries
    ensures Counter(Touch(s, l), t) == Counter(s, t)
    ensures TierBytes(Touch(s, l).entries, t) == TierBytes(s.entries, t)
  {}

  /** `l` is the most recently accessed layer. */
  ghost predicate Latest<R, C>(s: Store<R, C>, l: int) {
    l in s.entries && forall k :: k in s.entries && k != l ==> s.entries[k].lastAccess < s.entries[l].lastAccess
  }

  lemma FetchedKeeps<R(!new), C>(cfg: Config<R, C>, s: Store<R, C>, l: int)
    requires Inv(cfg, s) && Lossless(cfg) && l in s.entries
    ensures var r := Fetched(cfg, s, l);
      Inv(cfg, r) && SameValues(cfg, s, r) && Latest(r, l) && r.entries[l].tensors == Value(cfg, s, l)
  {
    hide Inv, Lossless, Touch, Load, Decompress, Value;
    var s1 := Touch(s, l);
    TouchKeeps(cfg, s, l);
    LoadMoves(cfg, s1, l);
    DecompressMoves(cfg, Load(cfg, s1, l), l);
  }

  /** Plain rows of `l` end up packed if there is compression, else on the host if there is tiering;
      everything else stays where it is. */
  ghost predicate Parks<R, C>(cfg: Config<R, C>, s: Store<R, C>, r: Store<R, C>, l: int) {
    && (forall k :: k in s.entries && k != l ==> k in r.entries && r.entries[k] == s.entries[k])
    && (l in s.entries ==> l in r.entries)
    && (l in s.entries && s.entries[l].tensors == None ==> r.entries[l] == s.entries[l])
    && (l in s.entries && s.entries[l].tensors.Some? ==>
        r.entries[l].tier == if cfg.compression then Compressed else if cfg.tiering then Host else s.entries[l].tier)
  }

  lemma EvictParks<R(!new), C>(cfg: Config<R, C>, s: Store<R, C>, l: int)
    requires Inv(cfg, s)
    ensures Parks(cfg, s, MaybeEvict(cfg, s, l), l)
  {
    if l in s.entries { assert WellFormed(cfg, s, l); }
    hide Charge, Counted, Size;
  }

  lemma EvictKeeps<R(!new), C>(cfg: Config<R, C>, s: Store<R, C>, l: int)
    requires Inv(cfg, s) && Lossless(cfg)
    ensures Inv(cfg, MaybeEvict(cfg, s, l)) && SameValues(cfg, s, MaybeEvict(cfg, s, l))
    ensures Parks(cfg, s, MaybeEvict(cfg, s, l), l)
  {
    EvictParks(cfg, s, l);
    hide Inv, Lossless, Compress, Value;
    if l in s.entries {
      OffloadMoves(cfg, s, l);
      if cfg.compression {
        CompressMoves(cfg, s, l);
        CompressMoves(cfg, Offload(s, l), l);
      }
    }
  }

  // ---------------------------------------------------------------- when get returns the value

  ghost predicate DistinctTimes<R, C>(s: Store<R, C>) {
    forall l, k :: l in s.entries && k in s.entries && s.entries[l].lastAccess == s.entries[k].lastAccess ==> l == k
  }

  lemma FirstIsOldest<R, C>(s: Store<R, C>, keys: set<int>, l: int)
    requires keys != {} && keys <= s.entries.Keys && OldestIn(s.entries, keys, l) && DistinctTimes(s)
    ensures Lru(s.entries, keys) == [l] + Lru(s.entries, keys - {l})
  {
    var first := Lru(s.entries, keys)[0];
    assert OldestIn(s.entries, keys, first);
  }

  /** With `l` accessed last, enforcement visits it last. */
  lemma {:induction false} LruEndsWithLatest<R, C>(s: Store<R, C>, keys: set<int>, l: int)
    requires l in keys && keys <= s.entries.Keys && Latest(s, l) && DistinctTimes(s)
    ensures Lru(s.entries, keys) == Lru(s.entries, keys - {l}) + [l]
    decreases |keys|
  {
    hide DistinctTimes, Lru;
    if keys == {l} {
      assert keys - {l} == {};
      FirstIsOldest(s, keys, l);
      assert Lru(s.entries, {}) == [];
    } else {
      var other := Member(keys - {l});
      OldestExists(s.entries, keys);
      var first :| OldestIn(s.entries, keys, first);
      assert first != l;
      FirstIsOldest(s, keys, first);
      FirstIsOldest(s, keys - {l}, first);
      LruEndsWithLatest(s, keys - {first}, l);
      assert keys - {first} - {l} == keys - {l} - {first};
    }
  }

  lemma {:induction false} EnforceOneMore<R, C>(cfg: Config<R, C>, s: Store<R, C>, order: seq<int>, l: int)
    requires l in s.entries && forall k :: k in order ==> k in s.entries
    ensures var r := Enforce(cfg, s, order);
      Enforce(cfg, s, order + [l]) == if Usage(r) <= cfg.budget then r else Chill(cfg, r, l)
    decreases |order|
  {
    hide Chill, Usage;
    if order == [] {
      assert order + [l] == [l] && [l][1..] == [];
    } else if Usage(s) > cfg.budget {
      assert (order + [l])[0] == order[0] && (order + [l])[1..] == order[1..] + [l];
      EnforceOneMore(cfg, Chill(cfg, s, order[0]), order[1..], l);
    }
  }

  /** Whether the layer a get has just moved to the device can stay there: everything else is
      chilled first, and the moved layer only if that was not enough. */
  ghost predicate FitsBeside<R, C>(cfg: Config<R, C>, s: Store<R, C>, l: int) {
    Usage(Enforce(cfg, s, Lru(s.entries, s.entries.Keys - {l}))) <= cfg.budget
  }

  lemma LatestListed<R, C>(s: Store<R, C>, l: int)
    requires Latest(s, l)
    ensures l in s.entries
  {}

  lemma EnforceLast<R, C>(cfg: Config<R, C>, s: Store<R, C>, l: int)
    requires Latest(s, l) && DistinctTimes(s)
    ensures var r := Enforce(cfg, s, Lru(s.entries, s.entries.Keys - {l}));
      Enforce(cfg, s, Lru(s.entries, s.entries.Keys)) == if FitsBeside(cfg, s, l) then r else Chill(cfg, r, l)
  {
    hide Chill, Usage, Latest, DistinctTimes, Enforce;
    LatestListed(s, l);
    LruEndsWithLatest(s, s.entries.Keys, l);
    EnforceOneMore(cfg, s, Lru(s.entries, s.entries.Keys - {l}), l);
  }

  lemma EnforceSpares<R(!new), C>(cfg: Config<R, C>, s: Store<R, C>, l: int)
    requires Inv(cfg, s) && Lossless(cfg) && Latest(s, l)
    ensures var r := EnforceBudget(cfg, s).entries[l];
      r.tensors == if FitsBeside(cfg, s, l) || !cfg.compression then s.entries[l].tensors else None
  {
    hide Inv, Lossless, Chill, Usage, Enforce, SameContents, Value, Coldest;
    var others := Lru(s.entries, s.entries.Keys - {l});
    var r := Enforce(cfg, s, others);
    LruOrdered(s.entries, s.entries.Keys - {l});
    Ages(cfg, s);
    EnforceLast(cfg, s, l);
    EnforceKeeps(cfg, s, others);
    ChillMoves(cfg, r, l);
    ChillPlain(cfg, r, l);
    FitsAtOnce(cfg, s, l);
  }

  lemma Ages<R(!new), C>(cfg: Config<R, C>, s: Store<R, C>)
    requires Inv(cfg, s)
    ensures DistinctTimes(s)
  {}

  lemma FitsAtOnce<R, C>(cfg: Config<R, C>, s: Store<R, C>, l: int)
    ensures Usage(s) <= cfg.budget ==> FitsBeside(cfg, s, l)
  {}

  /** Without compression chilling leaves the tensors as they are. */
  lemma ChillPlain<R(!new), C>(cfg: Config<R, C>, s: Store<R, C>, l: int)
    requires Inv(cfg, s) && l in s.entries
    ensures !cfg.compression ==> Chill(cfg, s, l).entries[l].tensors == s.entries[l].tensors
  {}

  /** The state a get enforces the budgets in. */
  function Moved<R, C>(cfg: Config<R, C>, s: Store<R, C>, l: int): (r: Store<R, C>)
    requires l in s.entries
    ensures l in r.entries
  {
    ToDevice(Fetched(cfg, s, l), l)
  }

  ghost predicate StaysReadable<R, C>(cfg: Config<R, C>, s: Store<R, C>, l: int, toDevice: bool)
    requires l in s.entries
  {
    || !toDevice || !cfg.compression || s.entries[l].tier == Device
    || FitsBeside(cfg, EnforceDevice(cfg, Moved(cfg, s, l)), l)
  }

  /** A get keeps every value, and returns the layer's own value exactly when the layer
      can stay readable; otherwise it returns nothing. */
  lemma GetKeeps<R(!new), C>(cfg: Config<R, C>, s: Store<R, C>, l: int, toDevice: bool)
    requires Inv(cfg, s) && Lossless(cfg)
    ensures var (r, result) := Get(cfg, s, l, toDevice);
      && Inv(cfg, r) && SameValues(cfg, s, r)
      && result == (if l in s.entries && StaysReadable(cfg, s, l, toDevice) then Value(cfg, s, l) else None)
      && (l in s.entries ==> Latest(r, l))
  {
    hide Inv, Lossless, Fetched, ToDevice, EnforceDevice, EnforceBudget, FitsBeside, Value, Coldest;
    if l in s.entries {
      var s1 := Fetched(cfg, s, l);
      FetchedKeeps(cfg, s, l);
      FetchedTier(cfg, s, l);
      if s1.entries[l].tensors.Some? && toDevice && s1.entries[l].tier != Device {
        var s2 := ToDevice(s1, l);
        ToDeviceMoves(cfg, s1, l);
        EnforceDeviceKeeps(cfg, s2);
        var s3 := EnforceDevice(cfg, s2);
        EnforceBudgetKeeps(cfg, s3);
        EnforceSpares(cfg, s3, l);
        assert s3.entries[l].tensors == Value(cfg, s, l) by { ToDevicePlain(s1, l); }
      }
    }
  }

  lemma ToDevicePlain<R, C>(s: Store<R, C>, l: int)
    requires l in s.entries
    ensures ToDevice(s, l).entries[l].tensors == s.entries[l].tensors
  {}

  lemma FetchedTier<R(!new), C>(cfg: Config<R, C>, s: Store<R, C>, l: int)
    requires l in s.entries
    ensures Fetched(cfg, s, l).entries[l].tier == Device <==> s.entries[l].tier == Device
  {}

  /** A get for the device leaves the rows there when the device has room. */
  lemma GetPlaces<R(!new), C>(cfg: Config<R, C>, s: Store<R, C>, l: int, toDevice: bool)
    requires Inv(cfg, s) && Lossless(cfg) && l in s.entries && Value(cfg, s, l).Some?
    requires Moved(cfg, s, l).deviceBytes <= cfg.deviceBudget && Usage(Moved(cfg, s, l)) <= cfg.budget
    ensures var r := Get(cfg, s, l, toDevice).0;
      && r.entries[l].tensors == Value(cfg, s, l)
      && r.entries[l].tier == if toDevice || s.entries[l].tier == Device then Device else Host
  {
    FetchedKeeps(cfg, s, l);
    FetchedTier(cfg, s, l);
    FetchedPlain(cfg, s, l);
    hide Inv, Lossless, Fetched, Value, Usage, Charge, Lru, Enforce, OffloadUntil;
  }

  lemma FetchedPlain<R(!new), C>(cfg: Config<R, C>, s: Store<R, C>, l: int)
    requires Inv(cfg, s) && Lossless(cfg) && l in s.entries && Value(cfg, s, l).Some?
    ensures Fetched(cfg, s, l).entries[l].tier == Device || Fetched(cfg, s, l).entries[l].tier == Host
  {
    FetchedKeeps(cfg, s, l);
    hide Lossless, Fetched, Value, Counted;
    assert WellFormed(cfg, Fetched(cfg, s, l), l);
  }

  /** In particular a get returns the value whenever the usage after its move fits. */
  lemma GetReturnsWithinBudget<R(!new), C>(cfg: Config<R, C>, s: Store<R, C>, l: int, toDevice: bool)
    requires Inv(cfg, s) && Lossless(cfg) && l in s.entries
    requires Usage(EnforceDevice(cfg, Moved(cfg, s, l))) <= cfg.budget
    ensures Get(cfg, s, l, toDevice).1 == Value(cfg, s, l)
  {
    hide Inv, Lossless, Fetched, ToDevice, EnforceDevice, EnforceBudget, Value, Get, Usage;
    GetKeeps(cfg, s, l, toDevice);
  }

  // ---------------------------------------------------------------- all runs

  datatype Op<R> =
    | SetOp(layer: int, tensors: Option<seq<R>>, onDevice: bool)
    | GetOp(layer: int, toDevice: bool)
    | EvictOp(layer: int)

  ghost function Do<R, C>(cfg: Config<R, C>, s: Store<R, C>, op: Op<R>): Store<R, C> {
    match op
    case SetOp(l, tensors, onDevice) => Set(cfg, s, l, tensors, onDevice)
    case GetOp(l, toDevice) => Get(cfg, s, l, toDevice).0
    case EvictOp(l) => MaybeEvict(cfg, s, l)
  }

  ghost function Run<R, C>(cfg: Config<R, C>, ops: seq<Op<R>>): Store<R, C> {
    if ops == [] then Empty() else Do(cfg, Run(cfg, ops[..|ops| - 1]), ops[|ops| - 1])
  }

  /** The value last given for layer `l`, whole. */
  function LastSet<R>(ops: seq<Op<R>>, l: int): Option<seq<R>> {
    if ops == [] then None
    else
      var op := ops[|ops| - 1];
      if op.SetOp? && op.layer == l then op.tensors else LastSet(ops[..|ops| - 1], l)
  }

  /** After any operations the counters are exact and every layer still holds the value last
      set, cut to its newest rows. */
  lemma {:induction false} RunKeeps<R(!new), C>(cfg: Config<R, C>, ops: seq<Op<R>>)
    requires Lossless(cfg)
    ensures var s := Run(cfg, ops); Inv(cfg, s) && forall l :: KeptOf(LastSet(ops, l), Value(cfg, s, l), cfg.window)
    decreases |ops|
  {
    hide Inv, Lossless, Set, Get, MaybeEvict, WellFormed, Counted, StaysReadable, Newest;
    if ops == [] {
      EmptyKeeps(cfg);
    } else {
      var before, op := Run(cfg, ops[..|ops| - 1]), ops[|ops| - 1];
      RunKeeps(cfg, ops[..|ops| - 1]);
      match op
      case SetOp(l, tensors, onDevice) => SetKeeps(cfg, before, l, tensors, onDevice);
      case GetOp(l, toDevice) => GetKeeps(cfg, before, l, toDevice);
      case EvictOp(l) => EvictKeeps(cfg, before, l);
    }
  }

  lemma EmptyKeeps<R(!new), C>(cfg: Config<R, C>)
    ensures Inv(cfg, Empty())
  {
    forall t: Tier ensures Counter(Empty<R, C>(), t) == Sum(TierBytes(Empty<R, C>().entries, t)) {
      assert TierBytes(Empty<R, C>().entries, t) == map[];
    }
  }

  /** Budgets of one byte, rows of two, compression only, to one byte; packing is the identity. */
  function Tight(): Config<int, seq<int>> {
    Config(1, 1, true, false, false, 0, 2, rows => rows, packed => Some(packed), packed => None, packed => 1)
  }

  function Packed(): Store<int, seq<int>> {
    Store(map[0 := Entry(None, Some([7]), 2, 1, 0, Compressed, 0)], map[], 0, 0, 1, 0, 0, 1)
  }

  /** A get can come back empty-handed: when only the packed form fits the budget, the
      enforcement it triggers compresses the very layer it was asked for, which still holds
      its value. */
  lemma GetCanReturnNothing()
    ensures Lossless(Tight()) && Run(Tight(), [SetOp(0, Some([7]), false)]) == Packed()
    ensures Value(Tight(), Packed(), 0) == Some([7]) && Get(Tight(), Packed(), 0, true).1 == None
  {
    PackedByRun();
    PackedHolds();
    hide Run, Do, Get, StaysReadable, Inv, Lossless, Value, Latest, SameValues;
    GetKeeps(Tight(), Packed(), 0, true);
    MovedDoesNotFit();
  }

  lemma PackedByRun()
    ensures Lossless(Tight()) && Run(Tight(), [SetOp(0, Some([7]), false)]) == Packed() && Inv(Tight(), Packed())
  {
    hide Run, Inv;
    var op := SetOp(0, Some([7]), false);
    RunKeeps(Tight(), [op]);
    RunOne(Tight(), op);
    SetPacks();
  }

  lemma PackedHolds()
    ensures Value(Tight(), Packed(), 0) == Some([7])
  {}

  lemma RunOne<R, C>(cfg: Config<R, C>, op: Op<R>)
    requires op.SetOp?
    ensures Run(cfg, [op]) == Set(cfg, Empty(), op.layer, op.tensors, op.onDevice)
  {
    hide Set;
    assert [op][..0] == [];
  }

  function Fresh(): Store<int, seq<int>> {
    Store(map[0 := Entry(Some([7]), None, 2, 0, 0, Host, 0)], map[], 0, 2, 0, 0, 0, 1)
  }

  lemma PutIsFresh()
    ensures Put(Tight(), Empty(), 0, Some([7]), false) == Fresh()
  {
  }

  lemma FreshChills()
    ensures Chill(Tight(), Fresh(), 0) == Packed()
  {
    hide Spill, Offload;
    var e := Fresh().entries[0];
    assert Compress(Tight(), Fresh(), 0) == Replace(Fresh(), 0, Entry(None, Some([7]), 2, 1, 0, Compressed, 0));
  }

  lemma SetPacks()
    ensures Set(Tight(), Empty(), 0, Some([7]), false) == Packed()
  {
    hide Put, EnforceBudget;
    PutIsFresh();
    FreshEnforced();
  }

  lemma FreshEnforced()
    ensures EnforceBudget(Tight(), Fresh()) == Packed()
  {
    hide EnforceBudget, Enforce;
    FreshChilled();
    assert Fresh().entries.Keys == {0};
    assert Usage(Fresh()) == 2 && Usage(Packed()) == 1;
    EnforcedAlone(Tight(), Fresh(), 0, Packed());
  }

  lemma EnforcedAlone<R, C>(cfg: Config<R, C>, s: Store<R, C>, l: int, r: Store<R, C>)
    requires s.entries.Keys == {l} && Usage(s) > cfg.budget
    requires Enforce(cfg, s, [l]) == r && Usage(r) <= cfg.budget
    ensures EnforceBudget(cfg, s) == r
  {
    hide Lru, Enforce, Usage;
    LruOne(s.entries, l);
  }

  lemma FreshChilled()
    ensures Enforce(Tight(), Fresh(), [0]) == Packed()
  {
    hide Chill;
    FreshChills();
    assert [0][1..] == [];
  }

  function Unpacked(): Store<int, seq<int>> {
    Store(map[0 := Entry(Some([7]), None, 2, 0, 1, Device, 0)], map[], 2, 0, 0, 0, 0, 2)
  }

  function Touched(): Store<int, seq<int>> {
    Store(map[0 := Entry(None, Some([7]), 2, 1, 1, Compressed, 0)], map[], 0, 0, 1, 0, 0, 2)
  }

  function Plain(): Store<int, seq<int>> {
    Store(map[0 := Entry(Some([7]), None, 2, 0, 1, Host, 0)], map[], 0, 2, 0, 0, 0, 2)
  }

  lemma TouchedUnpacks()
    ensures Load(Tight(), Touched(), 0) == Touched() && Decompress(Tight(), Touched(), 0) == Plain()
  {
    hide Decompress;
    PackedUnpacks();
  }

  lemma PackedUnpacks()
    ensures Decompress(Tight(), Touched(), 0) == Plain()
  {
    hide Replace, Charge, Bytes;
    assert Tight().unpack([7]) == Some([7]);
    PlainReplaces();
  }

  lemma PlainReplaces()
    ensures Replace(Touched(), 0, Entry(Some([7]), None, 2, 0, 1, Host, 0)) == Plain()
  {}

  lemma PackedMoves()
    ensures Moved(Tight(), Packed(), 0) == Unpacked()
  {
    hide Load, Decompress;
    assert Touch(Packed(), 0) == Touched();
    TouchedUnpacks();
    assert ToDevice(Plain(), 0) == Unpacked();
  }

  lemma MovedDoesNotFit()
    ensures !StaysReadable(Tight(), Packed(), 0, true)
  {
    hide Moved, Lru;
    PackedMoves();
    assert Unpacked().entries.Keys - {0} == {};
    LruNone(Unpacked().entries);
    assert EnforceDevice(Tight(), Unpacked()) == Unpacked();
  }

  lemma LruNone<R, C>(entries: map<int, Entry<R, C>>)
    ensures Lru(entries, {}) == []
  {}

  lemma LruOne<R, C>(entries: map<int, Entry<R, C>>, l: int)
    requires entries.Keys == {l}
    ensures Lru(entries, entries.Keys) == [l]
  {
    assert Lru(entries, {}) == [];
    assert entries.Keys - {l} == {};
  }
}
