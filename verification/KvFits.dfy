/** When a layer brought back to the device can stay there, as a sum over the stored values. */
module KvFits {
  import opened Common
  import opened Sums
  import opened KvStore

  /** What the layer's value takes once it is packed, wherever it is now. */
  function PackedBytes<R, C>(cfg: Config<R, C>, s: Store<R, C>, l: int): nat {
    var value := Value(cfg, s, l);
    if value.Some? then cfg.packedSize(cfg.pack(value.value)) else 0
  }

  /** Packing never takes more room. */
  ghost predicate Shrinks<R(!new), C>(cfg: Config<R, C>) {
    forall rows: seq<R> :: cfg.packedSize(cfg.pack(rows)) <= Size(cfg, rows)
  }

  function AllBytes<R, C>(s: Store<R, C>): map<int, nat> { map l | l in s.entries :: Bytes(s.entries[l]) }

  function TwoTiers<R, C>(s: Store<R, C>, t: Tier, u: Tier): map<int, nat> {
    map l | l in s.entries :: if s.entries[l].tier == t || s.entries[l].tier == u then Bytes(s.entries[l]) else 0
  }

  lemma UsageIsSum<R, C>(s: Store<R, C>)
    requires Counted(s)
    ensures Usage(s) == Sum(AllBytes(s))
  {
    hide Bytes, Counted;
    CountersAreSums(s);
    SumPointwise(TierBytes(s.entries, Device), TierBytes(s.entries, Host), TwoTiers(s, Device, Host));
    SumPointwise(TierBytes(s.entries, Compressed), TierBytes(s.entries, Disk), TwoTiers(s, Compressed, Disk));
    forall l | l in s.entries
      ensures AllBytes(s)[l] == TwoTiers(s, Device, Host)[l] + TwoTiers(s, Compressed, Disk)[l]
    {
      match s.entries[l].tier
      case Device =>
      case Host =>
      case Compressed =>
      case Disk =>
    }
    SumPointwise(TwoTiers(s, Device, Host), TwoTiers(s, Compressed, Disk), AllBytes(s));
  }

  lemma CountersAreSums<R, C>(s: Store<R, C>)
    requires Counted(s)
    ensures s.deviceBytes == Sum(TierBytes(s.entries, Device)) && s.hostBytes == Sum(TierBytes(s.entries, Host))
    ensures s.compressedBytes == Sum(TierBytes(s.entries, Compressed)) && s.diskBytes == Sum(TierBytes(s.entries, Disk))
  {
    assert Counter(s, Device) == s.deviceBytes && Counter(s, Host) == s.hostBytes;
    assert Counter(s, Compressed) == s.compressedBytes && Counter(s, Disk) == s.diskBytes;
  }

  // ---------------------------------------------------------------- footprints

  /** A layer without plain tensors takes what its value takes packed. */
  lemma ColdIsPacked<R(!new), C>(cfg: Config<R, C>, s: Store<R, C>, l: int)
    requires Inv(cfg, s) && Lossless(cfg) && l in s.entries && s.entries[l].tensors == None
    ensures Bytes(s.entries[l]) == PackedBytes(cfg, s, l)
  {
    hide Counted;
    assert WellFormed(cfg, s, l);
  }

  lemma WarmIsPlain<R(!new), C>(cfg: Config<R, C>, s: Store<R, C>, l: int)
    requires Inv(cfg, s) && l in s.entries && s.entries[l].tensors.Some?
    ensures Bytes(s.entries[l]) == Size(cfg, s.entries[l].tensors.value) && Value(cfg, s, l) == s.entries[l].tensors
  {
    hide Counted;
    assert WellFormed(cfg, s, l);
  }

  lemma PackedIsLess<R(!new), C>(cfg: Config<R, C>, s: Store<R, C>, l: int)
    requires Inv(cfg, s) && Lossless(cfg) && Shrinks(cfg) && l in s.entries
    ensures PackedBytes(cfg, s, l) <= Bytes(s.entries[l])
  {
    hide Inv, Bytes, Value, Lossless, Size;
    if s.entries[l].tensors.Some? { WarmIsPlain(cfg, s, l); } else { ColdIsPacked(cfg, s, l); }
  }

  function ChilledAt<R, C>(cfg: Config<R, C>, s: Store<R, C>, order: seq<int>, l: int): nat
    requires l in s.entries
  {
    if l in order then PackedBytes(cfg, s, l) else Bytes(s.entries[l])
  }

  /** Every layer's footprint once the layers of `order` are packed. */
  function Chilled<R, C>(cfg: Config<R, C>, s: Store<R, C>, order: seq<int>): map<int, nat> {
    map l | l in s.entries :: ChilledAt(cfg, s, order, l)
  }

  lemma ChillOne<R(!new), C>(cfg: Config<R, C>, s: Store<R, C>, order: seq<int>)
    requires Inv(cfg, s) && Lossless(cfg) && cfg.compression && Distinct(order) && order != []
    requires forall l :: l in order ==> l in s.entries
    ensures Chilled(cfg, Chill(cfg, s, order[0]), order[1..]) == Chilled(cfg, s, order)
    ensures Inv(cfg, Chill(cfg, s, order[0]))
  {
    hide Inv, Bytes, Lossless, Chill, Value, WellFormed, Coldest;
    var l := order[0];
    var r := Chill(cfg, s, l);
    ChillMoves(cfg, s, l);
    ColdIsPacked(cfg, r, l);
    forall k | k in s.entries ensures Chilled(cfg, r, order[1..])[k] == Chilled(cfg, s, order)[k] {
      assert k in order <==> k == l || k in order[1..];
      assert Value(cfg, r, k) == Value(cfg, s, k);
    }
  }

  /** Enforcement over `order` gets within the budget exactly when packing all of it would. */
  lemma {:induction false} EnforceFits<R(!new), C>(cfg: Config<R, C>, s: Store<R, C>, order: seq<int>)
    requires Inv(cfg, s) && Lossless(cfg) && Shrinks(cfg) && cfg.compression && Distinct(order)
    requires forall l :: l in order ==> l in s.entries
    ensures Usage(Enforce(cfg, s, order)) <= cfg.budget <==> Sum(Chilled(cfg, s, order)) <= cfg.budget
    decreases |order|
  {
    hide Inv, Bytes, Lossless, Shrinks, Chill, Value, PackedBytes, Chilled, Usage;
    NothingChilled(cfg, s);
    if order != [] {
      if Usage(s) <= cfg.budget {
        ChilledIsLess(cfg, s, order);
      } else {
        ChillOne(cfg, s, order);
        EnforceFits(cfg, Chill(cfg, s, order[0]), order[1..]);
      }
    }
  }

  lemma NothingChilled<R(!new), C>(cfg: Config<R, C>, s: Store<R, C>)
    requires Inv(cfg, s)
    ensures Sum(Chilled(cfg, s, [])) == Usage(s)
  {
    UsageIsSum(s);
    hide Inv, Bytes, PackedBytes;
    assert Chilled(cfg, s, []) == AllBytes(s);
  }

  lemma ChilledIsLess<R(!new), C>(cfg: Config<R, C>, s: Store<R, C>, order: seq<int>)
    requires Inv(cfg, s) && Lossless(cfg) && Shrinks(cfg)
    ensures Sum(Chilled(cfg, s, order)) <= Usage(s)
  {
    NothingChilled(cfg, s);
    hide Inv, Bytes, Lossless, Shrinks, PackedBytes, Usage;
    forall l | l in s.entries ensures PackedBytes(cfg, s, l) <= Bytes(s.entries[l]) { PackedIsLess(cfg, s, l); }
    SumMonotone(Chilled(cfg, s, order), Chilled(cfg, s, []));
  }

  // ---------------------------------------------------------------- the sum

  /** What all layers but `l` take once packed. */
  function OthersPacked<R, C>(cfg: Config<R, C>, s: Store<R, C>, l: int): map<int, nat> {
    map k | k in s.entries && k != l :: PackedBytes(cfg, s, k)
  }

  lemma FitsIsSum<R(!new), C>(cfg: Config<R, C>, s: Store<R, C>, l: int)
    requires Inv(cfg, s) && Lossless(cfg) && Shrinks(cfg) && cfg.compression && l in s.entries
    ensures FitsBeside(cfg, s, l) <==> Bytes(s.entries[l]) + Sum(OthersPacked(cfg, s, l)) <= cfg.budget
  {
    hide Inv, Bytes, Lossless, Shrinks, PackedBytes, Usage, Enforce;
    var others := Lru(s.entries, s.entries.Keys - {l});
    LruOrdered(s.entries, s.entries.Keys - {l});
    EnforceFits(cfg, s, others);
    var all := Chilled(cfg, s, others);
    SumRemove(all, l);
    assert all - {l} == OthersPacked(cfg, s, l);
  }

  /** With packing that never grows a value, a get that moves a layer to the device returns its
      value exactly when its plain size and the packed sizes of all other values fit the budget. */
  lemma GetReturnsWhenSumFits<R(!new), C>(cfg: Config<R, C>, s: Store<R, C>, l: int)
    requires Inv(cfg, s) && Lossless(cfg) && Shrinks(cfg) && cfg.compression
    requires l in s.entries && s.entries[l].tier != Device && Value(cfg, s, l).Some?
    ensures var fits := Size(cfg, Value(cfg, s, l).value) + Sum(OthersPacked(cfg, s, l)) <= cfg.budget;
      Get(cfg, s, l, true).1 == if fits then Value(cfg, s, l) else None
  {
    hide Inv, Bytes, Lossless, Shrinks, Value, Get, Size, FitsBeside, Fetched, ToDevice, EnforceDevice;
    GetKeeps(cfg, s, l, true);
    var moved := Moved(cfg, s, l);
    FetchedKeeps(cfg, s, l);
    ToDeviceMoves(cfg, Fetched(cfg, s, l), l);
    ToDevicePlain(Fetched(cfg, s, l), l);
    EnforceDeviceKeeps(cfg, moved);
    var r := EnforceDevice(cfg, moved);
    FitsIsSum(cfg, r, l);
    WarmIsPlain(cfg, r, l);
    assert OthersPacked(cfg, r, l) == OthersPacked(cfg, s, l);
  }

  /** Such packings exist. */
  lemma ShrinkingExists()
    ensures var cfg := Tight().(packedSize := rows => |rows|); Lossless(cfg) && Shrinks(cfg) && cfg.compression
  {}
}
