/** What the operations of `MultiRegionCluster` do to any cluster: where a key goes, what a read returns, and the row that a
    membership change writes. */
module ShardLaws {
  import opened Basics
  import opened KvEngine
  import opened SingleRegion
  import RegionNode
  import opened RaftStorage
  import Lockstep
  import GroupRuns
  import opened Regions
  import opened Sharding
  import opened ShardingRuns

  /** Region `i` is the first that contains the key. */
  ghost predicate Owner(regions: seq<RegionInfo>, key: Text, i: nat) {
    i < |regions| && ContainsKey(regions[i], key) && forall j :: 0 <= j < i ==> !ContainsKey(regions[j], key)
  }

  ghost predicate Unowned(regions: seq<RegionInfo>, key: Text) {
    forall j :: 0 <= j < |regions| ==> !ContainsKey(regions[j], key)
  }

  lemma OwnerFound(regions: seq<RegionInfo>, key: Text, i: nat)
    requires Owner(regions, key, i)
    ensures FindByKey(regions, key) == i
  {}

  /** A write goes to the group of the first region that contains its key and to no other. */
  lemma WriteGoesToOwner(s: Shards, key: Text, value: Text, i: nat)
    requires Wired(s) && Owner(s.regions, key, i)
    ensures var id := s.regions[i].regionId;
            && Sharding.Put(s, key, value) == Onto(s, id, SingleRegion.Put(s.clusters[id], key, value))
            && Sharding.Delete(s, key) == Onto(s, id, SingleRegion.Delete(s.clusters[id], key))
  {
    OwnerFound(s.regions, key, i);
    hide ContainsKey, SingleRegion.Put, SingleRegion.Delete, AllValid, FindByKey;
  }

  /** A key that no region contains is refused by writes and reads alike. */
  lemma NoOwnerRefused(s: Shards, key: Text, value: Text)
    requires Wired(s) && Unowned(s.regions, key)
    ensures Sharding.Put(s, key, value) == Sharding.Delete(s, key) == (s, Error(RegionNotFound))
    ensures Sharding.Get(s, key, true) == Sharding.Get(s, key, false) == Failure(RegionNotFound)
  {
    hide ContainsKey, SingleRegion.Put, SingleRegion.Delete, AllValid;
  }

  /** One group replaced, everything else as it was. */
  ghost function Onto(s: Shards, id: nat, r: (Group, Status)): (Shards, Status) {
    (Shards(s.storeCount, s.regions, s.clusters[id := r.0]), r.1)
  }

  /** The replica at `l` is the first with the leader's id. */
  ghost predicate Leads(g: Group, l: nat) {
    l < |g.stores| && Id(g.stores[l]) == g.leaderId && forall j :: 0 <= j < l ==> Id(g.stores[j]) != g.leaderId
  }

  /** A linearizable read is answered by the replica that the region's group records as its leader, an eventual one by its first
      store, whatever the replicas hold. */
  lemma ReadGoesToReplica(s: Shards, key: Text, i: nat)
    requires Wired(s) && Owner(s.regions, key, i)
    ensures var g := s.clusters[s.regions[i].regionId];
            && (forall l: nat :: Leads(g, l) ==> Sharding.Get(s, key, true) == Held(g.stores[l].peer.engine, key))
            && (!Member(g, g.leaderId) ==> Sharding.Get(s, key, true) == Failure(NotLeader))
            && Sharding.Get(s, key, false) == if g.stores == [] then Failure(Internal) else Held(g.stores[0].peer.engine, key)
  {
    OwnerFound(s.regions, key, i);
    hide ContainsKey, AllValid, FindByKey, Owner;
    var g := s.clusters[s.regions[i].regionId];
    forall l: nat | Leads(g, l) ensures Position(g.stores, g.leaderId) == l {}
  }

  ghost function Held(m: Store, key: Text): Result<Text> {
    if key in m then Success(m[key]) else Failure(KeyNotFound)
  }

  // ---- Splits ----

  /** A split of any cluster that does not succeed leaves the table as it was, and at most the region's own group changed: by a
      delete batch that failed there, after the new group had taken the data. */
  lemma RefusedSplit(s: Shards, regionId: nat, key: Text)
    requires Wired(s)
    ensures var (t, status) := Sharding.SplitRegion(s, regionId, key);
            && (regionId in t.clusters <==> regionId in s.clusters)
            && (status != Ok ==> t == s || LeftAlone(s, t, regionId, status))
  {
    hide SingleRegion.Batch, SingleRegion.Puts, SingleRegion.Deletes, Export, FreshGroup, LeftOf, RightOf, CanSplit, AllValid, NextId, FindById;
  }

  ghost predicate LeftAlone(s: Shards, t: Shards, regionId: nat, status: Status) {
    && regionId in s.clusters && AllValid(s.clusters[regionId].stores)
    && exists deletes: seq<Mutation> ::
         var (g, st) := SingleRegion.Batch(s.clusters[regionId], deletes);
         st == status && t == s.(clusters := s.clusters[regionId := g])
  }

  // ---- Membership ----

  /** Only row `i` is rewritten, and in it only the peers, the leader hint and the conf version. */
  ghost predicate RowIs(s: Shards, t: Shards, i: nat, peers: seq<PeerInfo>, leader: nat, confVer: nat)
    requires i < |s.regions|
  {
    var r := s.regions[i];
    t.regions == s.regions[i := RegionInfo(r.regionId, r.startKey, r.endKey, Epoch(confVer, r.epoch.version), peers, leader)]
  }

  ghost predicate Member(g: Group, peerId: nat) {
    exists j :: 0 <= j < |g.stores| && Id(g.stores[j]) == peerId
  }

  ghost predicate Taken(g: Group, storeId: nat, peerId: nat) {
    exists j :: 0 <= j < |g.stores| && (g.stores[j].storeId == storeId || Id(g.stores[j]) == peerId)
  }

  lemma EditedRow(s: Shards, id: nat, peers: seq<PeerInfo>, leader: nat, confVer: nat)
    requires FindById(s.regions, id) < |s.regions|
    ensures var i := FindById(s.regions, id);
            var r := s.regions[i];
            && r.regionId == id
            && (forall t: Shards :: t.regions == EditRegion(s.regions, id, peers, leader, confVer) ==> RowIs(s, t, i, peers, leader, confVer))
            && Peers(s.regions, id) == r.peers && LeaderHint(s.regions, id) == r.leaderPeerId && ConfVer(s.regions, id) == r.epoch.confVer
  {
    hide FindById;
  }

  /** The row after each kind of change. */
  ghost predicate Moved(s: Shards, t: Shards, i: nat, peerId: nat) {
    i < |s.regions| && RowIs(s, t, i, s.regions[i].peers, peerId, s.regions[i].epoch.confVer)
  }

  ghost predicate Added(s: Shards, t: Shards, i: nat, storeId: nat, peerId: nat) {
    && i < |s.regions|
    && var r := s.regions[i];
       RowIs(s, t, i, r.peers + [PeerInfo(peerId, storeId, Voter)], r.leaderPeerId, r.epoch.confVer + 1)
  }

  ghost predicate Removed(s: Shards, t: Shards, i: nat, peers: seq<PeerInfo>, peerId: nat) {
    && i < |s.regions|
    && var r := s.regions[i];
    && PeersWithout(r.peers, peers, peerId)
    && RowIs(s, t, i, peers, if r.leaderPeerId == peerId && peers != [] then peers[0].peerId else r.leaderPeerId, r.epoch.confVer + 1)
  }

  /** A transfer moves the leader hint of the region's row, exactly when the target is a member of its group. */
  lemma TransferRow(s: Shards, id: nat, peerId: nat) returns (i: nat)
    requires Sound(s)
    ensures var (t, status) := Sharding.TransferLeader(s, id, peerId);
            && status == (if id !in s.clusters then Error(RegionNotFound) else if Member(s.clusters[id], peerId) then Ok else Error(InvalidArgument))
            && (status != Ok ==> t == s)
            && (status == Ok ==>
                  && t.clusters == s.clusters[id := t.clusters[id]] && t.clusters[id].leaderId == peerId
                  && i < |s.regions| && s.regions[i].regionId == id && Moved(s, t, i, peerId))
  {
    hide Lockstep.InStep, GroupOk, Tiled, SingleRegion.TransferLeader, FindById, EditRegion, Peers, LeaderHint, ConfVer, RowIs;
    i := 0;
    if id in s.clusters {
      Known(s, id);
      GroupRuns.TransferKeeps(s.clusters[id], peerId);
      i := FindById(s.regions, id);
      EditedRow(s, id, s.regions[i].peers, peerId, s.regions[i].epoch.confVer);
    }
  }

  /** A new peer becomes a voter at the end of the row, under a new conf version, exactly when neither its store nor its id is
      taken in the group. */
  lemma AddRow(s: Shards, id: nat, storeId: nat, peerId: nat) returns (i: nat)
    requires Sound(s) && peerId != 0
    ensures var (t, status) := Sharding.AddPeer(s, id, storeId, peerId);
            && status == (if id !in s.clusters then Error(RegionNotFound)
                          else if Taken(s.clusters[id], storeId, peerId) then Error(InvalidArgument) else Ok)
            && (status != Ok ==> t == s)
            && (status == Ok ==>
                  && t.clusters == s.clusters[id := t.clusters[id]] && Member(t.clusters[id], peerId)
                  && i < |s.regions| && s.regions[i].regionId == id && Added(s, t, i, storeId, peerId))
  {
    hide Lockstep.InStep, GroupOk, Tiled, SingleRegion.AddPeer, FindById, EditRegion, Peers, LeaderHint, ConfVer, RowIs;
    i := 0;
    if id in s.clusters {
      Known(s, id);
      Joined(s.clusters[id], storeId, peerId);
      i := FindById(s.regions, id);
      var r := s.regions[i];
      EditedRow(s, id, r.peers + [PeerInfo(peerId, storeId, Voter)], r.leaderPeerId, r.epoch.confVer + 1);
    }
  }

  lemma Joined(g: Group, storeId: nat, peerId: nat)
    requires Lockstep.InStep(g) && peerId != 0
    ensures var (h, status) := SingleRegion.AddPeer(g, storeId, peerId);
            && status == (if Taken(g, storeId, peerId) then Error(InvalidArgument) else Ok)
            && (if status == Ok then Member(h, peerId) else h == g)
  {
    hide Lockstep.InStep, SingleRegion.AddPeer, UserMap, RegionNode.Recovered, Lockstep.Voted;
    GroupRuns.AddPeerKeeps(g, storeId, peerId);
    var (h, status) := SingleRegion.AddPeer(g, storeId, peerId);
    if status == Ok {
      assert Id(h.stores[|g.stores|]) == peerId;
    }
  }

  /** The row's peers without those of this id, in their order. */
  ghost predicate PeersWithout(before: seq<PeerInfo>, after: seq<PeerInfo>, peerId: nat) {
    && (forall p :: p in after <==> p in before && p.peerId != peerId)
    && (DistinctPeers(before) ==> after == before || exists k :: 0 <= k < |before| && before[k].peerId == peerId && after == before[..k] + before[k + 1..])
  }

  lemma DroppedIs(before: seq<PeerInfo>, peerId: nat)
    ensures PeersWithout(before, Dropped(before, peerId), peerId)
  {
    hide Dropped;
    DroppedPeers(before, peerId);
    if DistinctPeers(before) {
      if k :| 0 <= k < |before| && before[k].peerId == peerId {
        DroppedAt(before, k);
      } else {
        NothingDropped(before, peerId);
      }
    }
  }

  /** A departing peer goes from the row, and a hint at it moves to the first that stays, under a new conf version, exactly when
      it is a member of the group and not the last one. */
  lemma RemoveRow(s: Shards, id: nat, peerId: nat) returns (i: nat, peers: seq<PeerInfo>)
    requires Sound(s)
    ensures var (t, status) := Sharding.RemovePeer(s, id, peerId);
            && status == (if id !in s.clusters then Error(RegionNotFound)
                          else if Member(s.clusters[id], peerId) && |s.clusters[id].stores| > 1 then Ok else Error(InvalidArgument))
            && (status != Ok ==> t == s)
            && (status == Ok ==>
                  && t.clusters == s.clusters[id := t.clusters[id]] && !Member(t.clusters[id], peerId)
                  && i < |s.regions| && s.regions[i].regionId == id && Removed(s, t, i, peers, peerId))
  {
    hide Lockstep.InStep, GroupOk, Tiled, SingleRegion.RemovePeer, FindById, EditRegion, Peers, LeaderHint, ConfVer, RowIs, PeersWithout, Dropped;
    i, peers := 0, [];
    if id in s.clusters {
      Known(s, id);
      Gone(s.clusters[id], peerId);
      i := FindById(s.regions, id);
      var r := s.regions[i];
      peers := Dropped(r.peers, peerId);
      DroppedIs(r.peers, peerId);
      EditedRow(s, id, r.peers, r.leaderPeerId, r.epoch.confVer);
      EditedRow(s, id, peers, if r.leaderPeerId == peerId && peers != [] then peers[0].peerId else r.leaderPeerId, r.epoch.confVer + 1);
    }
  }

  lemma Gone(g: Group, peerId: nat)
    requires Lockstep.InStep(g)
    ensures var (h, status) := SingleRegion.RemovePeer(g, peerId);
            && status == (if Member(g, peerId) && |g.stores| > 1 then Ok else Error(InvalidArgument))
            && (if status == Ok then !Member(h, peerId) else h == g)
  {
    hide Lockstep.InStep, SingleRegion.RemovePeer;
    GroupRuns.StepNonEmpty(g);
    GroupRuns.RemovePeerKeeps(g, peerId);
    GroupRuns.StepNonEmpty(SingleRegion.RemovePeer(g, peerId).0);
  }

  lemma Known(s: Shards, id: nat)
    requires Sound(s) && id in s.clusters
    ensures FindById(s.regions, id) < |s.regions| && Lockstep.InStep(s.clusters[id])
  {
    hide Lockstep.InStep, Tiled, Inside;
    assert s.regions[FindById(s.regions, id)].regionId == id;
  }
}
