/** `PdServer` as an object: the tables, the catalog file, and every operation with its write or without. */
module PdService {
  import opened Basics
  import opened Regions
  import opened Pd
  import opened PdObjects
  import opened PdRuns
  import Catalog
  import opened CatalogFile
  import opened PdDisk

  class PdServer {
    const metadata: PdMetadataStore
    var disk: Text

    /** The first start, without a catalog. */
    constructor ()
      ensures AsServer() == FirstStart() && fresh(metadata)
    {
      metadata := new PdMetadataStore();
      new;
      disk := WriteCatalog(metadata);
    }

    function AsServer(): Server
      reads this, metadata
    {
      Server(metadata.Value(), disk)
    }

    /** A new process that finds the catalog. */
    method Reopen() returns (status: Status)
      modifies metadata
      ensures AsServer() == Take(old(AsServer()), Restart) && status == Catalog.Load(EMPTY, disk).1
    {
      hide Catalog.Load;
      metadata.stores, metadata.regions, metadata.byStart := map[], map[], map[];
      metadata.nextStore, metadata.nextRegion, metadata.nextPeer := 1, 1, 1;
      status := LoadCatalog(metadata, disk);
    }

    method Persist()
      modifies this`disk
      ensures disk == Catalog.Persist(metadata.Value())
    {
      disk := WriteCatalog(metadata);
    }

    method StoreHeartbeat(storeId: nat, now: int) returns (status: Status)
      modifies metadata, this`disk
      ensures (AsServer(), status) == (Take(old(AsServer()), Do(HeartbeatOp(storeId, now))), Pd.StoreHeartbeat(old(metadata.Value()), storeId, now).1)
    {
      hide Catalog.Persist;
      if storeId !in metadata.stores {
        return Error(StoreNotFound);
      }
      status := metadata.PutStore(metadata.stores[storeId].(lastHeartbeatMs := now, state := "Up"));
      if status == Ok {
        Persist();
      }
    }

    method RegisterStore(store: StoreInfo) returns (status: Status)
      modifies metadata, this`disk
      ensures (AsServer(), status) == (Take(old(AsServer()), Do(RegisterOp(store))), Pd.RegisterStore(old(metadata.Value()), store).1)
    {
      hide Catalog.Persist;
      var named := store;
      if named.storeId == 0 {
        var id := metadata.AllocStoreId();
        named := named.(storeId := id);
      } else if named.storeId >= metadata.nextStore {
        metadata.nextStore := named.storeId + 1;
      }
      status := metadata.PutStore(named);
      if status == Ok {
        Persist();
      }
    }

    method BootstrapDefaultRegion(ids: seq<nat>) returns (status: Status)
      modifies metadata, this`disk
      ensures (AsServer(), status) == (Take(old(AsServer()), Do(BootstrapOp(ids))), Pd.BootstrapDefaultRegion(old(metadata.Value()), ids).1)
    {
      hide Catalog.Persist;
      if metadata.regions != map[] {
        return Ok;
      }
      if ids == [] {
        return Error(InvalidArgument);
      }
      ghost var before := metadata.Value();
      var regionId := metadata.AllocRegionId();
      var peers: seq<PeerInfo> := [];
      var i := 0;
      while i < |ids|
        invariant 0 <= i <= |ids| && disk == old(disk)
        invariant metadata.Value() == before.(nextRegion := before.nextRegion + 1, nextPeer := before.nextPeer + i)
        invariant forall j :: 0 <= j < i ==> ids[j] in before.stores
        invariant |peers| == i && forall j :: 0 <= j < i ==> peers[j] == PeerInfo(before.nextPeer + j, ids[j], Voter)
      {
        if ids[i] !in metadata.stores {
          assert FirstMissing(before, ids) == i;
          return Error(StoreNotFound);
        }
        var peerId := metadata.AllocPeerId();
        peers := peers + [PeerInfo(peerId, ids[i], Voter)];
        i := i + 1;
      }
      assert peers == NewVoters(ids, before.nextPeer);
      status := metadata.PutRegion(RegionInfo(regionId, "", "", Epoch(1, 1), peers, peers[0].peerId));
      if status == Ok {
        Persist();
      }
    }

    method SplitRegion(regionId: nat, key: Text) returns (status: Status)
      modifies metadata, this`disk
      ensures (AsServer(), status) == (Take(old(AsServer()), Do(SplitOp(regionId, key))), Pd.SplitRegion(old(metadata.Value()), regionId, key).1)
    {
      hide CanSplit, Catalog.Persist;
      if regionId !in metadata.regions {
        return Error(RegionNotFound);
      }
      var region := metadata.regions[regionId];
      if !CanSplit(region, key) {
        return Error(InvalidArgument);
      }
      ghost var before := metadata.Value();
      var left := region.(endKey := key, epoch := region.epoch.(version := region.epoch.version + 1));
      var rightId := metadata.AllocRegionId();
      var peers: seq<PeerInfo> := [];
      var i := 0;
      while i < |region.peers|
        invariant 0 <= i <= |region.peers| && disk == old(disk)
        invariant metadata.Value() == before.(nextRegion := before.nextRegion + 1, nextPeer := before.nextPeer + i)
        invariant |peers| == i && forall j :: 0 <= j < i ==> peers[j] == region.peers[j].(peerId := before.nextPeer + j)
      {
        var peerId := metadata.AllocPeerId();
        peers := peers + [PeerInfo(peerId, region.peers[i].storeId, region.peers[i].role)];
        i := i + 1;
      }
      assert peers == NewPeers(region.peers, before.nextPeer);
      var right := RegionInfo(rightId, key, region.endKey, region.epoch.(version := left.epoch.version), peers,
                              if peers == [] then 0 else peers[0].peerId);
      status := metadata.PutRegion(left);
      if status == Ok {
        status := metadata.PutRegion(right);
      }
      if status == Ok {
        Persist();
      }
    }

    method AddPeer(regionId: nat, storeId: nat) returns (status: Status)
      modifies metadata, this`disk
      ensures (AsServer(), status) == (Take(old(AsServer()), Do(AddOp(regionId, storeId))), Pd.AddPeer(old(metadata.Value()), regionId, storeId).1)
    {
      hide Catalog.Persist;
      if regionId !in metadata.regions {
        return Error(RegionNotFound);
      }
      if storeId !in metadata.stores {
        return Error(StoreNotFound);
      }
      var region := metadata.regions[regionId];
      if FindPeerByStore(region.peers, storeId).Some? {
        return Error(InvalidArgument);
      }
      var peerId := metadata.AllocPeerId();
      status := metadata.PutRegion(region.(peers := region.peers + [PeerInfo(peerId, storeId, Voter)],
                                           epoch := region.epoch.(confVer := region.epoch.confVer + 1)));
      if status == Ok {
        Persist();
      }
    }

    method RemovePeer(regionId: nat, peerId: nat) returns (status: Status)
      modifies metadata, this`disk
      ensures (AsServer(), status) == (Take(old(AsServer()), Do(RemoveOp(regionId, peerId))), Pd.RemovePeer(old(metadata.Value()), regionId, peerId).1)
    {
      hide Catalog.Persist;
      if regionId !in metadata.regions {
        return Error(RegionNotFound);
      }
      var region := metadata.regions[regionId];
      var rest: seq<PeerInfo> := [];
      var i := 0;
      assert region.peers[0..] == region.peers;
      while i < |region.peers|
        invariant 0 <= i <= |region.peers| && metadata.Value() == old(metadata.Value())
        invariant rest + Dropped(region.peers[i..], peerId) == Dropped(region.peers, peerId)
      {
        assert region.peers[i..][0] == region.peers[i] && region.peers[i..][1..] == region.peers[i + 1..];
        if region.peers[i].peerId != peerId {
          rest := rest + [region.peers[i]];
        }
        i := i + 1;
      }
      assert region.peers[i..] == [] && rest == Dropped(region.peers, peerId);
      if |rest| == |region.peers| || rest == [] {
        return Error(InvalidArgument);
      }
      status := metadata.PutRegion(
        region.(peers := rest, leaderPeerId := if region.leaderPeerId == peerId then rest[0].peerId else region.leaderPeerId,
                epoch := region.epoch.(confVer := region.epoch.confVer + 1)));
      if status == Ok {
        Persist();
      }
    }

    method TransferLeader(regionId: nat, peerId: nat) returns (status: Status)
      modifies metadata, this`disk
      ensures (AsServer(), status) == (Take(old(AsServer()), Do(TransferOp(regionId, peerId))), Pd.TransferLeader(old(metadata.Value()), regionId, peerId).1)
    {
      hide Catalog.Persist;
      if regionId !in metadata.regions {
        return Error(RegionNotFound);
      }
      var region := metadata.regions[regionId];
      if FindPeer(region.peers, peerId).None? {
        return Error(InvalidArgument);
      }
      status := metadata.PutRegion(region.(leaderPeerId := peerId));
      if status == Ok {
        Persist();
      }
    }
  }
}
