/** The PD catalog: writing the whole metadata as fields and reading it back. */
module Catalog {
  import opened Basics
  import opened Codec
  import opened KvEngine
  import opened IdOrder
  import opened Regions
  import opened FieldCodec
  import opened Serialization
  import opened Pd
  import PdRuns

  // ---- Writing ----

  function StorePrefix(i: nat): Text {
    "store" + Dec(i)
  }

  function RegionPrefix(i: nat): Text {
    "region" + Dec(i)
  }

  function PutStores(f: Store, stores: seq<StoreInfo>, n: nat): Store
    requires n <= |stores|
  {
    if n == 0 then f else PutStoreFields(PutStores(f, stores, n - 1), stores[n - 1], StorePrefix(n - 1))
  }

  function PutRegions(f: Store, regions: seq<RegionInfo>, n: nat): Store
    requires n <= |regions|
  {
    if n == 0 then f else PutRegionFields(PutRegions(f, regions, n - 1), regions[n - 1], RegionPrefix(n - 1))
  }

  function Counters(m: Metadata): seq<(Text, Text)> {
    [("next_store_id", Dec(m.nextStore)), ("next_region_id", Dec(m.nextRegion)), ("next_peer_id", Dec(m.nextPeer)), ("store_count", Dec(|m.stores|))]
  }

  function Fields(m: Metadata): Store {
    hide IdsOf, ValuesOf, PutStores, PutRegions, Write, Counters, Dec;
    var f := PutStores(Write(map[], "", Counters(m)), ValuesOf(m.stores), |m.stores|);
    PutRegions(f["region_count" := Dec(|m.regions|)], ValuesOf(m.regions), |m.regions|)
  }

  /** The text of `pd.catalog`. */
  function Persist(m: Metadata): Text {
    EncodeFields(Fields(m))
  }

  // ---- Reading ----

  function LoadStores(m: Metadata, f: Store, n: nat): (Metadata, Status) {
    if n == 0 then (m, Ok)
    else
      var (before, st) := LoadStores(m, f, n - 1);
      if st != Ok then (before, st) else PutStore(before, GetStoreFields(f, StorePrefix(n - 1)))
  }

  function LoadRegions(m: Metadata, f: Store, n: nat): (Metadata, Status) {
    if n == 0 then (m, Ok)
    else
      var (before, st) := LoadRegions(m, f, n - 1);
      if st != Ok then (before, st) else PutRegion(before, GetRegionFields(f, RegionPrefix(n - 1)))
  }

  function LoadCounters(m: Metadata, f: Store): (Metadata, Status) {
    hide ParseU64, GetOr;
    match (ParseU64(GetOr(f, "next_store_id", "")), ParseU64(GetOr(f, "next_region_id", "")), ParseU64(GetOr(f, "next_peer_id", "")))
    case (Success(a), Success(b), Success(c)) => (m.(nextStore := a, nextRegion := b, nextPeer := c), Ok)
    case _ => (m, Error(InvalidArgument))
  }

  /** The regions and, after them, the counters. A number that cannot be read is an exception in the source: an error
      here, with the tables as far as they were filled. */
  function LoadRest(m: Metadata, f: Store): (Metadata, Status) {
    hide ParseU64, GetOr, LoadCounters, LoadRegions;
    match ParseU64(GetOr(f, "region_count", ""))
    case Failure(_) => (m, Error(InvalidArgument))
    case Success(n) =>
      var (filled, st) := LoadRegions(m, f, n);
      if st != Ok then (filled, st) else LoadCounters(filled, f)
  }

  function LoadFields(f: Store): (Metadata, Status) {
    match ParseU64(GetOr(f, "store_count", ""))
    case Failure(_) => (EMPTY, Error(InvalidArgument))
    case Success(n) =>
      var (filled, st) := LoadStores(EMPTY, f, n);
      if st != Ok then (filled, st) else LoadRest(filled, f)
  }

  /** The tables after loading; text that does not decode leaves them as they were. */
  function Load(m: Metadata, text: Text): (Metadata, Status) {
    match DecodeFields(text)
    case Failure(e) => (m, Error(e))
    case Success(f) => LoadFields(f)
  }

  // ---- Groups of fields do not disturb each other ----

  lemma StoreFieldsFrame(f: Store, s: StoreInfo, prefix: Text, k: Text)
    requires prefix != "" && !HasPrefix(k, prefix + ".")
    ensures SameAt(PutStoreFields(f, s, prefix), f, k)
  {
    hide StoreEntries, HasPrefix, Write, Key;
    forall i | 0 <= i < |StoreEntries(s)| ensures k != Key(prefix, StoreEntries(s)[i].0) {
      KeyHasBase(prefix, StoreEntries(s)[i].0);
    }
    WriteFrame(f, prefix, StoreEntries(s), k);
  }

  lemma PeerKeyHasBase(prefix: Text, i: nat, name: Text)
    ensures HasPrefix(Key(PeerPrefix(prefix, i), name), Base(prefix))
  {
    PeerKeyShape(prefix, i, name);
    hide Dec, Key, PeerPrefix;
    assert (Base(prefix) + ("peer" + Dec(i) + "." + name))[..|Base(prefix)|] == Base(prefix);
  }

  lemma {:induction false} PutPeersFrame(f: Store, peers: seq<PeerInfo>, prefix: Text, n: nat, k: Text)
    requires n <= |peers| && !HasPrefix(k, Base(prefix))
    ensures SameAt(PutPeers(f, peers, prefix, n), f, k)
  {
    hide PeerEntries, HasPrefix, Write, Key, PeerPrefix, Base;
    if n > 0 {
      PutPeersFrame(f, peers, prefix, n - 1, k);
      var entries, inner := PeerEntries(peers[n - 1]), PeerPrefix(prefix, n - 1);
      forall i | 0 <= i < |entries| ensures k != Key(inner, entries[i].0) {
        PeerKeyHasBase(prefix, n - 1, entries[i].0);
      }
      WriteFrame(PutPeers(f, peers, prefix, n - 1), inner, entries, k);
    }
  }

  lemma RegionFieldsFrame(f: Store, r: RegionInfo, prefix: Text, k: Text)
    requires prefix != "" && !HasPrefix(k, prefix + ".")
    ensures SameAt(PutRegionFields(f, r, prefix), f, k)
  {
    hide RegionEntries, HasPrefix, Write, Key, PutPeers;
    forall i | 0 <= i < |RegionEntries(r)| ensures k != Key(prefix, RegionEntries(r)[i].0) {
      KeyHasBase(prefix, RegionEntries(r)[i].0);
    }
    WriteFrame(f, prefix, RegionEntries(r), k);
    PutPeersFrame(Write(f, prefix, RegionEntries(r)), r.peers, prefix, |r.peers|, k);
  }

  /** Agreement on the fields under a prefix. */
  ghost predicate SameUnder(f: Store, g: Store, prefix: Text) {
    forall k :: HasPrefix(k, Base(prefix)) ==> SameAt(f, g, k)
  }

  lemma SameField(f: Store, g: Store, prefix: Text, name: Text)
    requires SameUnder(f, g, prefix)
    ensures SameAt(f, g, Key(prefix, name))
  {
    hide HasPrefix, Key;
    KeyHasBase(prefix, name);
  }

  lemma GetStoreSame(f: Store, g: Store, prefix: Text)
    requires SameUnder(f, g, prefix)
    ensures GetStoreFields(f, prefix) == GetStoreFields(g, prefix)
  {
    hide HasPrefix, Key, SameUnder, ParseU64, ParseInt, ToInt64;
    SameField(f, g, prefix, "store_id");
    SameField(f, g, prefix, "raft_host");
    SameField(f, g, prefix, "raft_port");
    SameField(f, g, prefix, "client_host");
    SameField(f, g, prefix, "client_port");
    SameField(f, g, prefix, "state");
    SameField(f, g, prefix, "last_heartbeat_ms");
  }

  lemma GetPeerSame(f: Store, g: Store, prefix: Text, i: nat)
    requires SameUnder(f, g, prefix)
    ensures GetPeer(f, PeerPrefix(prefix, i)) == GetPeer(g, PeerPrefix(prefix, i))
  {
    hide HasPrefix, Key, PeerPrefix, ParseU64;
    PeerKeyHasBase(prefix, i, "peer_id");
    PeerKeyHasBase(prefix, i, "store_id");
    PeerKeyHasBase(prefix, i, "role");
  }

  lemma GetRegionSame(f: Store, g: Store, prefix: Text)
    requires SameUnder(f, g, prefix)
    ensures GetRegionFields(f, prefix) == GetRegionFields(g, prefix)
  {
    hide HasPrefix, Key, SameUnder, ParseU64, PeerPrefix, GetPeer;
    SameField(f, g, prefix, "region_id");
    SameField(f, g, prefix, "start_key");
    SameField(f, g, prefix, "end_key");
    SameField(f, g, prefix, "conf_ver");
    SameField(f, g, prefix, "version");
    SameField(f, g, prefix, "leader_peer_id");
    SameField(f, g, prefix, "peer_count");
    var n := GetUint64Or(f, Key(prefix, "peer_count"), 0);
    forall i | 0 <= i < n ensures GetPeer(f, PeerPrefix(prefix, i)) == GetPeer(g, PeerPrefix(prefix, i)) {
      GetPeerSame(f, g, prefix, i);
    }
    assert GetPeers(f, prefix, n) == GetPeers(g, prefix, n);
  }

  // ---- Composite prefixes are told apart ----

  lemma PrefixNoDot(i: nat)
    ensures NoDot(StorePrefix(i)) && NoDot(RegionPrefix(i)) && StorePrefix(i) != "" && RegionPrefix(i) != ""
  {
    NumberNoDot("store", i);
    NumberNoDot("region", i);
  }

  lemma PrefixesDiffer(i: nat, j: nat)
    ensures i != j ==> StorePrefix(i) != StorePrefix(j) && RegionPrefix(i) != RegionPrefix(j)
    ensures StorePrefix(i) != RegionPrefix(j)
  {
    if StorePrefix(i) == StorePrefix(j) {
      NumbersDiffer("store", i, j);
    }
    if RegionPrefix(i) == RegionPrefix(j) {
      NumbersDiffer("region", i, j);
    }
    hide Dec;
    assert StorePrefix(i)[0] == 's' && RegionPrefix(j)[0] == 'r';
  }

  /** A key under one prefix is not under a different one. */
  lemma ElseWhere(k: Text, a: Text, b: Text)
    requires NoDot(a) && NoDot(b) && a != "" && b != "" && a != b && HasPrefix(k, Base(a))
    ensures !HasPrefix(k, b + ".")
  {
    hide HasPrefix, NoDot;
    if HasPrefix(k, b + ".") {
      OnePrefix(k, a, b);
    }
  }

  // ---- What was written is read ----

  lemma {:induction false} StoresFrame(f: Store, stores: seq<StoreInfo>, n: nat, k: Text)
    requires n <= |stores| && forall i :: 0 <= i < n ==> !HasPrefix(k, StorePrefix(i) + ".")
    ensures SameAt(PutStores(f, stores, n), f, k)
  {
    hide HasPrefix, PutStoreFields, StorePrefix;
    if n > 0 {
      StoresFrame(f, stores, n - 1, k);
      PrefixNoDot(n - 1);
      StoreFieldsFrame(PutStores(f, stores, n - 1), stores[n - 1], StorePrefix(n - 1), k);
    }
  }

  lemma {:induction false} RegionsFrame(f: Store, regions: seq<RegionInfo>, n: nat, k: Text)
    requires n <= |regions| && forall i :: 0 <= i < n ==> !HasPrefix(k, RegionPrefix(i) + ".")
    ensures SameAt(PutRegions(f, regions, n), f, k)
  {
    hide HasPrefix, PutRegionFields, RegionPrefix;
    if n > 0 {
      RegionsFrame(f, regions, n - 1, k);
      PrefixNoDot(n - 1);
      RegionFieldsFrame(PutRegions(f, regions, n - 1), regions[n - 1], RegionPrefix(n - 1), k);
    }
  }

  lemma {:induction false} StoresRead(f: Store, stores: seq<StoreInfo>, n: nat, i: nat)
    requires i < n <= |stores| && forall x :: 0 <= x < |stores| ==> StoreFits(stores[x])
    ensures GetStoreFields(PutStores(f, stores, n), StorePrefix(i)) == stores[i]
  {
    hide HasPrefix, PutStoreFields, StorePrefix, GetStoreFields, NoDot, StoreFits;
    var before := PutStores(f, stores, n - 1);
    if i == n - 1 {
      StoreRoundTrip(before, stores[i], StorePrefix(i));
    } else {
      StoresRead(f, stores, n - 1, i);
      PrefixNoDot(i);
      PrefixNoDot(n - 1);
      PrefixesDiffer(i, n - 1);
      forall k | HasPrefix(k, Base(StorePrefix(i))) ensures SameAt(PutStores(f, stores, n), before, k) {
        ElseWhere(k, StorePrefix(i), StorePrefix(n - 1));
        StoreFieldsFrame(before, stores[n - 1], StorePrefix(n - 1), k);
      }
      GetStoreSame(PutStores(f, stores, n), before, StorePrefix(i));
    }
  }

  lemma {:induction false} RegionsRead(f: Store, regions: seq<RegionInfo>, n: nat, i: nat)
    requires i < n <= |regions| && forall x :: 0 <= x < |regions| ==> RegionFits(regions[x])
    ensures GetRegionFields(PutRegions(f, regions, n), RegionPrefix(i)) == regions[i]
  {
    hide HasPrefix, PutRegionFields, RegionPrefix, GetRegionFields, NoDot, RegionFits;
    var before := PutRegions(f, regions, n - 1);
    if i == n - 1 {
      RegionRoundTrip(before, regions[i], RegionPrefix(i));
    } else {
      RegionsRead(f, regions, n - 1, i);
      PrefixNoDot(i);
      PrefixNoDot(n - 1);
      PrefixesDiffer(i, n - 1);
      forall k | HasPrefix(k, Base(RegionPrefix(i))) ensures SameAt(PutRegions(f, regions, n), before, k) {
        ElseWhere(k, RegionPrefix(i), RegionPrefix(n - 1));
        RegionFieldsFrame(before, regions[n - 1], RegionPrefix(n - 1), k);
      }
      GetRegionSame(PutRegions(f, regions, n), before, RegionPrefix(i));
    }
  }

  // ---- The whole catalog ----

  /** The ranges of the C++ types. */
  ghost predicate Fits(m: Metadata) {
    && m.nextStore <= MAX_U64 && m.nextRegion <= MAX_U64 && m.nextPeer <= MAX_U64
    && |m.stores| <= MAX_U64 && |m.regions| <= MAX_U64
    && (forall id :: id in m.stores ==> StoreFits(m.stores[id]))
    && (forall id :: id in m.regions ==> RegionFits(m.regions[id]))
  }

  ghost predicate Keyed(m: Metadata) {
    && (forall id :: id in m.stores ==> m.stores[id].storeId == id != 0)
    && (forall id :: id in m.regions ==> m.regions[id].regionId == id != 0)
    && PdRuns.Indexed(m)
  }

  ghost function WithCounts(m: Metadata): Store {
    PutStores(Write(map[], "", Counters(m)), ValuesOf(m.stores), |m.stores|)["region_count" := Dec(|m.regions|)]
  }

  /** A plain name is under no composite prefix. */
  lemma PlainName(name: Text)
    requires NoDot(name)
    ensures forall i :: !HasPrefix(name, StorePrefix(i) + ".") && !HasPrefix(name, RegionPrefix(i) + ".")
  {
    hide HasPrefix, StorePrefix, RegionPrefix, NoDot;
    forall i ensures !HasPrefix(name, StorePrefix(i) + ".") && !HasPrefix(name, RegionPrefix(i) + ".") {
      NoDotNoPrefix(name, StorePrefix(i));
      NoDotNoPrefix(name, RegionPrefix(i));
    }
  }

  lemma CounterReads(m: Metadata, i: nat)
    requires i < |Counters(m)|
    ensures var k := Counters(m)[i].0; k in Fields(m) && Fields(m)[k] == Counters(m)[i].1
  {
    var k := Counters(m)[i].0;
    assert NoDot(k) && k != "region_count" && DistinctNames(Counters(m)) by {
      hide Dec;
    }
    assert Key("", k) == k;
    hide Counters, Write, PutStores, PutRegions, HasPrefix, StorePrefix, RegionPrefix, NoDot, Dec, Key;
    WriteReads(map[], "", Counters(m), i);
    PlainName(k);
    StoresFrame(Write(map[], "", Counters(m)), ValuesOf(m.stores), |m.stores|, k);
    RegionsFrame(WithCounts(m), ValuesOf(m.regions), |m.regions|, k);
  }

  lemma RegionCountReads(m: Metadata)
    ensures "region_count" in Fields(m) && Fields(m)["region_count"] == Dec(|m.regions|)
  {
    PlainName("region_count");
    hide Counters, Write, PutStores, PutRegions, HasPrefix, StorePrefix, RegionPrefix, NoDot, Dec, Key;
    RegionsFrame(WithCounts(m), ValuesOf(m.regions), |m.regions|, "region_count");
  }

  lemma StoreReads(m: Metadata, i: nat)
    requires Fits(m) && i < |m.stores|
    ensures GetStoreFields(Fields(m), StorePrefix(i)) == ValuesOf(m.stores)[i]
  {
    hide Write, PutStores, PutRegions, HasPrefix, StorePrefix, RegionPrefix, NoDot, Dec, GetStoreFields, Counters, StoreFits, RegionFits, IdsOf, Base;
    var f := Write(map[], "", Counters(m));
    StoresRead(f, ValuesOf(m.stores), |m.stores|, i);
    PrefixNoDot(i);
    var p := StorePrefix(i);
    forall k | HasPrefix(k, Base(p)) ensures SameAt(Fields(m), PutStores(f, ValuesOf(m.stores), |m.stores|), k) {
      CountElsewhere(k, p);
      forall j | 0 <= j < |m.regions| ensures !HasPrefix(k, RegionPrefix(j) + ".") {
        PrefixNoDot(j);
        PrefixesDiffer(i, j);
        ElseWhere(k, p, RegionPrefix(j));
      }
      RegionsFrame(WithCounts(m), ValuesOf(m.regions), |m.regions|, k);
    }
    GetStoreSame(Fields(m), PutStores(f, ValuesOf(m.stores), |m.stores|), p);
  }

  lemma CountElsewhere(k: Text, p: Text)
    requires p != "" && HasPrefix(k, Base(p))
    ensures k != "region_count"
  {
    if k == "region_count" {
      assert NoDot(k);
      NoDotNoPrefix(k, p);
    }
  }

  lemma RegionReads(m: Metadata, i: nat)
    requires Fits(m) && i < |m.regions|
    ensures GetRegionFields(Fields(m), RegionPrefix(i)) == ValuesOf(m.regions)[i]
  {
    hide Write, PutStores, PutRegions, HasPrefix, StorePrefix, RegionPrefix, NoDot, Dec, GetRegionFields, Counters, StoreFits, RegionFits;
    RegionsRead(WithCounts(m), ValuesOf(m.regions), |m.regions|, i);
  }

  // ---- Rebuilding the tables ----

  ghost function FirstStores(m: Metadata, n: nat): map<nat, StoreInfo>
    requires n <= |IdsOf(m.stores)|
  {
    map id | id in IdsOf(m.stores)[..n] && id in m.stores :: m.stores[id]
  }

  lemma {:induction false} StoresRebuilt(m: Metadata, n: nat)
    requires Fits(m) && Keyed(m) && n <= |m.stores|
    ensures LoadStores(EMPTY, Fields(m), n) == (EMPTY.(stores := FirstStores(m, n)), Ok)
  {
    hide Fields, StorePrefix, GetStoreFields, Fits, PdRuns.Indexed, IdsOf, ValuesOf, FirstStores;
    if n == 0 {
      NoStores(m);
    } else {
      StoresRebuilt(m, n - 1);
      StoreReads(m, n - 1);
      NextStore(m, n);
    }
  }

  lemma NoStores(m: Metadata)
    ensures FirstStores(m, 0) == map[]
  {
    hide IdsOf;
  }

  lemma NextStore(m: Metadata, n: nat)
    requires 0 < n <= |m.stores|
    ensures var id := IdsOf(m.stores)[n - 1]; FirstStores(m, n) == FirstStores(m, n - 1)[id := m.stores[id]]
  {
    hide IdsOf;
    var ids := IdsOf(m.stores);
    assert ids[..n] == ids[..n - 1] + [ids[n - 1]];
  }

  ghost function FirstRegions(m: Metadata, n: nat): map<nat, RegionInfo>
    requires n <= |IdsOf(m.regions)|
  {
    map id | id in IdsOf(m.regions)[..n] && id in m.regions :: m.regions[id]
  }

  ghost function FirstStarts(m: Metadata, n: nat): map<Text, nat>
    requires n <= |IdsOf(m.regions)|
  {
    map s | s in m.byStart && m.byStart[s] in IdsOf(m.regions)[..n] :: m.byStart[s]
  }

  lemma NextStart(m: Metadata, n: nat)
    requires PdRuns.Indexed(m) && 0 < n <= |IdsOf(m.regions)|
    ensures var id := IdsOf(m.regions)[n - 1];
            && id in m.regions
            && FirstRegions(m, n) == FirstRegions(m, n - 1)[id := m.regions[id]]
            && FirstStarts(m, n) == FirstStarts(m, n - 1)[m.regions[id].startKey := id]
  {
    hide IdsOf, ValuesOf;
    var ids := IdsOf(m.regions);
    assert ids[..n] == ids[..n - 1] + [ids[n - 1]];
  }

  lemma {:induction false} RegionsRebuilt(m: Metadata, stores: map<nat, StoreInfo>, n: nat)
    requires Fits(m) && Keyed(m) && n <= |m.regions|
    ensures LoadRegions(EMPTY.(stores := stores), Fields(m), n)
         == (EMPTY.(stores := stores, regions := FirstRegions(m, n), byStart := FirstStarts(m, n)), Ok)
  {
    hide IdsOf, ValuesOf, Fields, RegionPrefix, GetRegionFields, Fits, FirstRegions, FirstStarts, PdRuns.Indexed;
    if n == 0 {
      NoRegions(m);
    } else {
      RegionsRebuilt(m, stores, n - 1);
      RegionReads(m, n - 1);
      KeyedIndexed(m);
      NextStart(m, n);
    }
  }

  lemma NoRegions(m: Metadata)
    ensures FirstRegions(m, 0) == map[] && FirstStarts(m, 0) == map[]
  {
    hide IdsOf, ValuesOf;
  }

  lemma AllListed(m: Metadata)
    requires PdRuns.Indexed(m)
    ensures FirstStores(m, |m.stores|) == m.stores && FirstRegions(m, |m.regions|) == m.regions && FirstStarts(m, |m.regions|) == m.byStart
  {
    hide IdsOf, ValuesOf;
    var a, b := IdsOf(m.stores), IdsOf(m.regions);
    assert a[..|m.stores|] == a && b[..|m.regions|] == b;
  }

  ghost predicate HasCounts(f: Store, m: Metadata) {
    && ParseU64(GetOr(f, "store_count", "")) == Success(|m.stores|)
    && ParseU64(GetOr(f, "region_count", "")) == Success(|m.regions|)
  }

  ghost predicate HasNumbers(f: Store, m: Metadata) {
    hide ParseU64, GetOr;
    && ParseU64(GetOr(f, "next_store_id", "")) == Success(m.nextStore)
    && ParseU64(GetOr(f, "next_region_id", "")) == Success(m.nextRegion)
    && ParseU64(GetOr(f, "next_peer_id", "")) == Success(m.nextPeer)
    && HasCounts(f, m)
  }

  /** The five numbers of the catalog. */
  lemma NumbersRead(m: Metadata)
    requires Fits(m)
    ensures HasNumbers(Fields(m), m)
  {
    hide Fields, Dec, ParseU64, StoreFits, RegionFits;
    CounterReads(m, 0);
    CounterReads(m, 1);
    CounterReads(m, 2);
    CounterReads(m, 3);
    RegionCountReads(m);
    U64RoundTrip(m.nextStore);
    U64RoundTrip(m.nextRegion);
    U64RoundTrip(m.nextPeer);
    U64RoundTrip(|m.stores|);
    U64RoundTrip(|m.regions|);
  }

  /** Loading what was persisted, over whatever was in memory, rebuilds the same stores, regions, start-key index and
      next ids. */
  lemma CatalogRoundTrip(m: Metadata, before: Metadata)
    requires Fits(m) && Keyed(m)
    ensures Load(before, Persist(m)) == (m, Ok)
  {
    hide Fields, ParseU64, EncodeFields, DecodeFields, LoadStores, LoadRegions, Fits, Keyed, IdsOf, FirstStores, FirstRegions, FirstStarts, GetOr;
    FieldsRoundTrip(Fields(m));
    NumbersRead(m);
    KeyedIndexed(m);
    AllListed(m);
    StoresRebuilt(m, |m.stores|);
    RegionsRebuilt(m, m.stores, |m.regions|);
  }

  lemma OrderedKeyed(m: Metadata)
    requires PdRuns.PdOk(m)
    ensures Keyed(m)
  {
    hide PdRuns.MembersOk, PdRuns.Disjoint, PdRuns.Covering, PdRuns.Indexed, Proper;
  }

  lemma KeyedIndexed(m: Metadata)
    requires Keyed(m)
    ensures PdRuns.Indexed(m)
  {}
}
