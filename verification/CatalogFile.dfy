/** The loops that fill fields from regions and refill PD's tables from a catalog. */
module CatalogFile {
  import opened Basics
  import opened Codec
  import opened KvEngine
  import opened IdOrder
  import opened Regions
  import opened FieldCodec
  import opened Serialization
  import Pd
  import opened PdObjects
  import opened Catalog

  method FillRegion(fields: Store, region: RegionInfo, prefix: Text) returns (f: Store)
    ensures f == PutRegionFields(fields, region, prefix)
  {
    hide Write, RegionEntries, PeerEntries, PeerPrefix;
    f := Write(fields, prefix, RegionEntries(region));
    ghost var plain := f;
    var i := 0;
    while i < |region.peers|
      invariant 0 <= i <= |region.peers| && f == PutPeers(plain, region.peers, prefix, i)
    {
      f := Write(f, PeerPrefix(prefix, i), PeerEntries(region.peers[i]));
      i := i + 1;
    }
  }

  method ReadRegion(fields: Store, prefix: Text) returns (region: RegionInfo)
    ensures region == GetRegionFields(fields, prefix)
  {
    hide ParseU64, Key, PeerPrefix, GetPeer;
    var count := GetUint64Or(fields, Key(prefix, "peer_count"), 0);
    var peers: seq<PeerInfo> := [];
    var i := 0;
    while i < count
      invariant 0 <= i <= count && peers == GetPeers(fields, prefix, i)
    {
      peers := peers + [GetPeer(fields, PeerPrefix(prefix, i))];
      i := i + 1;
    }
    region := RegionInfo(
      GetUint64Or(fields, Key(prefix, "region_id"), 0),
      GetOr(fields, Key(prefix, "start_key"), ""),
      GetOr(fields, Key(prefix, "end_key"), ""),
      Epoch(GetUint64Or(fields, Key(prefix, "conf_ver"), 1), GetUint64Or(fields, Key(prefix, "version"), 1)),
      peers,
      GetUint64Or(fields, Key(prefix, "leader_peer_id"), 0));
  }

  method WriteCatalog(metadata: PdMetadataStore) returns (text: Text)
    ensures text == Persist(metadata.Value())
  {
    hide Write, PutStoreFields, PutRegionFields, StorePrefix, RegionPrefix, EncodeFields, IdsOf;
    var m := metadata.Value();
    var stores, regions := ValuesOf(m.stores), ValuesOf(m.regions);
    var f := Write(map[], "", Counters(m));
    ghost var start := f;
    var i := 0;
    while i < |stores|
      invariant 0 <= i <= |stores| && f == PutStores(start, stores, i)
    {
      f := PutStoreFields(f, stores[i], StorePrefix(i));
      i := i + 1;
    }
    f := f["region_count" := Dec(|m.regions|)];
    ghost var middle := f;
    i := 0;
    while i < |regions|
      invariant 0 <= i <= |regions| && f == PutRegions(middle, regions, i)
    {
      f := FillRegion(f, regions[i], RegionPrefix(i));
      i := i + 1;
    }
    text := PrintFields(f);
  }

  /** Reset the tables and refill them; a bad catalog leaves them as far as they were filled. */
  method LoadCatalog(metadata: PdMetadataStore, text: Text) returns (status: Status)
    modifies metadata
    ensures (metadata.Value(), status) == Load(old(metadata.Value()), text)
  {
    hide GetStoreFields, StorePrefix, DecodeFields, ParseU64, LoadRest;
    var decoded := ParseFields(text);
    if decoded.Failure? {
      return Error(decoded.code);
    }
    var f := decoded.value;
    metadata.stores, metadata.regions, metadata.byStart := map[], map[], map[];
    metadata.nextStore, metadata.nextRegion, metadata.nextPeer := 1, 1, 1;
    var stores := ParseU64(GetOr(f, "store_count", ""));
    if stores.Failure? {
      return Error(InvalidArgument);
    }
    var i := 0;
    while i < stores.value
      invariant 0 <= i <= stores.value && LoadStores(Pd.EMPTY, f, i) == (metadata.Value(), Ok)
    {
      status := metadata.PutStore(GetStoreFields(f, StorePrefix(i)));
      i := i + 1;
      if status != Ok {
        StoresStop(f, i, stores.value);
        return;
      }
    }
    status := LoadRegionTable(metadata, f);
  }

  method LoadRegionTable(metadata: PdMetadataStore, f: Store) returns (status: Status)
    modifies metadata
    ensures (metadata.Value(), status) == LoadRest(old(metadata.Value()), f)
  {
    hide GetRegionFields, RegionPrefix, ParseU64;
    ghost var start := metadata.Value();
    var regions := ParseU64(GetOr(f, "region_count", ""));
    if regions.Failure? {
      return Error(InvalidArgument);
    }
    var i := 0;
    while i < regions.value
      invariant 0 <= i <= regions.value && LoadRegions(start, f, i) == (metadata.Value(), Ok)
    {
      var region := ReadRegion(f, RegionPrefix(i));
      status := metadata.PutRegion(region);
      i := i + 1;
      if status != Ok {
        RegionsStop(start, f, i, regions.value);
        return;
      }
    }
    var a, b, c := ParseU64(GetOr(f, "next_store_id", "")), ParseU64(GetOr(f, "next_region_id", "")), ParseU64(GetOr(f, "next_peer_id", ""));
    if a.Failure? || b.Failure? || c.Failure? {
      return Error(InvalidArgument);
    }
    metadata.nextStore, metadata.nextRegion, metadata.nextPeer := a.value, b.value, c.value;
    return Ok;
  }

  /** The first failure is what the whole reading reports. */
  lemma {:induction false} StoresStop(f: Store, i: nat, n: nat)
    requires i <= n && LoadStores(Pd.EMPTY, f, i).1 != Ok
    ensures LoadStores(Pd.EMPTY, f, n) == LoadStores(Pd.EMPTY, f, i)
    decreases n
  {
    hide GetStoreFields, StorePrefix;
    if i < n {
      StoresStop(f, i, n - 1);
    }
  }

  lemma {:induction false} RegionsStop(m: Pd.Metadata, f: Store, i: nat, n: nat)
    requires i <= n && LoadRegions(m, f, i).1 != Ok
    ensures LoadRegions(m, f, n) == LoadRegions(m, f, i)
    decreases n
  {
    hide GetRegionFields, RegionPrefix;
    if i < n {
      RegionsStop(m, f, i, n - 1);
    }
  }
}
