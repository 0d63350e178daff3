/** `MultiRegionCluster` as an object: routing, membership and the data-moving split. */
module ShardCluster {
  import opened Basics
  import opened KvEngine
  import opened RaftStorage
  import SingleRegion
  import opened Regions
  import opened Sharding

  class MultiRegionCluster {
    const storeCount: nat
    var regions: seq<RegionInfo>
    var clusters: map<nat, SingleRegion.Group>

    constructor (s: Shards)
      ensures Value() == s
    {
      storeCount, regions, clusters := s.storeCount, s.regions, s.clusters;
    }

    function Value(): Shards
      reads this
    {
      Shards(storeCount, regions, clusters)
    }

    method FindRegionByKey(key: Text) returns (i: nat)
      ensures i == FindByKey(regions, key)
    {
      hide ContainsKey;
      i := 0;
      while i < |regions| && !ContainsKey(regions[i], key)
        invariant i <= |regions| && forall j :: 0 <= j < i ==> !ContainsKey(regions[j], key)
      {
        i := i + 1;
      }
    }

    method Put(key: Text, value: Text) returns (status: Status)
      requires Wired(Value())
      modifies this`clusters
      ensures (Value(), status) == Sharding.Put(old(Value()), key, value)
    {
      hide SingleRegion.Put, SingleRegion.AllValid;
      var i := FindRegionByKey(key);
      if i == |regions| {
        return Error(RegionNotFound);
      }
      var id := regions[i].regionId;
      var (g, st) := SingleRegion.Put(clusters[id], key, value);
      clusters := clusters[id := g];
      return st;
    }

    method Delete(key: Text) returns (status: Status)
      requires Wired(Value())
      modifies this`clusters
      ensures (Value(), status) == Sharding.Delete(old(Value()), key)
    {
      hide SingleRegion.Delete, SingleRegion.AllValid;
      var i := FindRegionByKey(key);
      if i == |regions| {
        return Error(RegionNotFound);
      }
      var id := regions[i].regionId;
      var (g, st) := SingleRegion.Delete(clusters[id], key);
      clusters := clusters[id := g];
      return st;
    }

    method Batch(mus: seq<Mutation>) returns (status: Status)
      requires Wired(Value())
      modifies this`clusters
      ensures (Value(), status) == Sharding.Batch(old(Value()), mus)
    {
      hide SingleRegion.Batch, SingleRegion.AllValid, FindByKey;
      if mus == [] {
        return Ok;
      }
      var i := FindRegionByKey(mus[0].key);
      if i == |regions| {
        return Error(RegionNotFound);
      }
      var id := regions[i].regionId;
      var j := 0;
      while j < |mus|
        invariant 0 <= j <= |mus| && Value() == old(Value())
        invariant forall x :: 0 <= x < j ==> FindByKey(regions, mus[x].key) < |regions| && regions[FindByKey(regions, mus[x].key)].regionId == id
      {
        var target := FindRegionByKey(mus[j].key);
        if target == |regions| || regions[target].regionId != id {
          return Error(InvalidArgument);
        }
        j := j + 1;
      }
      var (g, st) := SingleRegion.Batch(clusters[id], mus);
      clusters := clusters[id := g];
      return st;
    }

    method Get(key: Text, linearizable: bool) returns (r: Result<Text>)
      ensures r == Sharding.Get(Value(), key, linearizable)
    {
      var i := FindRegionByKey(key);
      if i == |regions| || regions[i].regionId !in clusters {
        return Failure(RegionNotFound);
      }
      var g := clusters[regions[i].regionId];
      if linearizable {
        var l := SingleRegion.Position(g.stores, g.leaderId);
        if l == |g.stores| {
          return Failure(NotLeader);
        }
        return Lookup(g.stores[l].peer.engine, key);
      }
      if g.stores == [] {
        return Failure(Internal);
      }
      return Lookup(g.stores[0].peer.engine, key);
    }

    /** One above the largest region id in use, and at least 1. */
    method NextRegionId() returns (id: nat)
      ensures id == NextId(regions)
    {
      id := 1;
      var i := 0;
      while i < |regions|
        invariant 0 <= i <= |regions| && id == NextId(regions[..i])
      {
        assert regions[..i + 1][..i] == regions[..i] && regions[..i + 1][i] == regions[i];
        id := MaxNat(id, regions[i].regionId + 1);
        i := i + 1;
      }
      assert regions[..i] == regions;
    }

    method FindRegion(regionId: nat) returns (i: nat)
      ensures i == FindById(regions, regionId)
    {
      i := 0;
      while i < |regions| && regions[i].regionId != regionId
        invariant i <= |regions| && forall j :: 0 <= j < i ==> regions[j].regionId != regionId
      {
        i := i + 1;
      }
    }

    method TransferLeader(id: nat, peerId: nat) returns (status: Status)
      modifies this
      ensures (Value(), status) == Sharding.TransferLeader(old(Value()), id, peerId)
    {
      hide SingleRegion.TransferLeader, FindById;
      if id !in clusters {
        return Error(RegionNotFound);
      }
      var (g, st) := SingleRegion.TransferLeader(clusters[id], peerId);
      clusters := clusters[id := g];
      if st != Ok {
        return st;
      }
      var i := FindRegion(id);
      if i < |regions| {
        regions := regions[i := regions[i].(leaderPeerId := peerId)];
      }
      return Ok;
    }

    method AddPeer(id: nat, storeId: nat, peerId: nat) returns (status: Status)
      modifies this
      ensures (Value(), status) == Sharding.AddPeer(old(Value()), id, storeId, peerId)
    {
      hide SingleRegion.AddPeer, FindById;
      if id !in clusters {
        return Error(RegionNotFound);
      }
      var (g, st) := SingleRegion.AddPeer(clusters[id], storeId, peerId);
      clusters := clusters[id := g];
      if st != Ok {
        return st;
      }
      var i := FindRegion(id);
      if i < |regions| {
        var r := regions[i];
        regions := regions[i := r.(peers := r.peers + [PeerInfo(peerId, storeId, Voter)], epoch := r.epoch.(confVer := r.epoch.confVer + 1))];
      }
      return Ok;
    }

    method RemovePeer(id: nat, peerId: nat) returns (status: Status)
      modifies this
      ensures (Value(), status) == Sharding.RemovePeer(old(Value()), id, peerId)
    {
      hide SingleRegion.RemovePeer, FindById, Dropped;
      if id !in clusters {
        return Error(RegionNotFound);
      }
      var (g, st) := SingleRegion.RemovePeer(clusters[id], peerId);
      clusters := clusters[id := g];
      if st != Ok {
        return st;
      }
      var i := FindRegion(id);
      if i < |regions| {
        var r := regions[i];
        var rest := Dropped(r.peers, peerId);
        regions := regions[i := r.(peers := rest, epoch := r.epoch.(confVer := r.epoch.confVer + 1),
                                   leaderPeerId := if r.leaderPeerId == peerId && rest != [] then rest[0].peerId else r.leaderPeerId)];
      }
      return Ok;
    }

    method SplitRegion(regionId: nat, key: Text) returns (status: Status)
      requires Wired(Value())
      modifies this
      ensures (Value(), status) == Sharding.SplitRegion(old(Value()), regionId, key)
    {
      hide SingleRegion.Batch, SingleRegion.AllValid, FreshGroup, CanSplit, ScanRange, SingleRegion.Movable, SingleRegion.Puts, SingleRegion.Deletes,
           LeftOf, RightOf;
      var i := FindRegion(regionId);
      if i == |regions| {
        return Error(RegionNotFound);
      }
      var region := regions[i];
      if !CanSplit(region, key) {
        return Error(InvalidArgument);
      }
      if regionId !in clusters {
        return Error(RegionNotFound);
      }
      var id := NextRegionId();
      var (blank, st0) := FreshGroup(id, storeCount);
      if st0 != Ok {
        return st0;
      }
      var source := clusters[regionId];
      var l := SingleRegion.Position(source.stores, source.leaderId);
      var scanned := if l == |source.stores| then [] else ScanRange(source.stores[l].peer.engine, key, region.endKey);
      NothingMoves();
      var puts, deletes := CollectMoves(scanned);
      var (right, st1) := SingleRegion.Batch(blank, puts);
      if st1 != Ok {
        return st1;
      }
      var (left, st2) := SingleRegion.Batch(source, deletes);
      clusters := clusters[regionId := left];
      if st2 != Ok {
        return st2;
      }
      regions := regions[i := LeftOf(region, key)] + [RightOf(region, key, id)];
      clusters := clusters[id := right];
      return Ok;
    }
  }

  /** Start-up with fresh data: one group per region. */
  method Boot(regions: seq<RegionInfo>, count: nat) returns (s: Shards, status: Status)
    ensures (s, status) == BootShards(regions, count)
  {
    hide FreshGroup;
    if regions == [] {
      return Shards(count, [], map[]), Error(InvalidArgument);
    }
    var clusters: map<nat, SingleRegion.Group> := map[];
    var i := 0;
    while i < |regions|
      invariant 0 <= i <= |regions| && BootGroups(regions, count, i) == (clusters, Ok)
    {
      var (g, st) := FreshGroup(regions[i].regionId, count);
      i := i + 1;
      if st != Ok {
        BootStops(regions, count, i, |regions|);
        return Shards(count, regions, clusters), st;
      }
      clusters := clusters[regions[i - 1].regionId := g];
    }
    return Shards(count, regions, clusters), Ok;
  }

  lemma {:induction false} BootStops(regions: seq<RegionInfo>, count: nat, i: nat, n: nat)
    requires i <= n <= |regions| && BootGroups(regions, count, i).1 != Ok
    ensures BootGroups(regions, count, n) == BootGroups(regions, count, i)
    decreases n
  {
    hide FreshGroup;
    if i < n {
      BootStops(regions, count, i, n - 1);
    }
  }

  lemma NothingMoves()
    ensures SingleRegion.Movable([]) == []
  {}

  /** The loop that turns a scan into the two batches of a split. */
  method CollectMoves(pairs: seq<(Text, Text)>) returns (puts: seq<Mutation>, deletes: seq<Mutation>)
    ensures puts == SingleRegion.Puts(SingleRegion.Movable(pairs))
    ensures deletes == SingleRegion.Deletes(SingleRegion.Movable(pairs))
  {
    hide IsSystemKey;
    puts, deletes := [], [];
    var i := 0;
    assert pairs[0..] == pairs;
    while i < |pairs|
      invariant 0 <= i <= |pairs|
      invariant puts + SingleRegion.Puts(SingleRegion.Movable(pairs[i..])) == SingleRegion.Puts(SingleRegion.Movable(pairs))
      invariant deletes + SingleRegion.Deletes(SingleRegion.Movable(pairs[i..])) == SingleRegion.Deletes(SingleRegion.Movable(pairs))
    {
      assert pairs[i..][0] == pairs[i] && pairs[i..][1..] == pairs[i + 1..];
      ghost var rest := SingleRegion.Movable(pairs[i + 1..]);
      assert ([pairs[i]] + rest)[1..] == rest;
      assert SingleRegion.Movable(pairs[i..]) == if IsSystemKey(pairs[i].0) then rest else [pairs[i]] + rest;
      if !IsSystemKey(pairs[i].0) {
        puts := puts + [Mutation(KvEngine.Put, pairs[i].0, pairs[i].1)];
        deletes := deletes + [Mutation(KvEngine.Delete, pairs[i].0, "")];
      }
      i := i + 1;
    }
    assert pairs[i..] == [];
  }
}
