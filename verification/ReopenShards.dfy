/** Reopening the sharded cluster from its directories: exactly when it serves the same map again. */
module ReopenShards {
  import opened Basics
  import opened KvEngine
  import RaftStorage
  import opened RegionNode
  import opened SingleRegion
  import opened Lockstep
  import opened Reopen
  import opened Regions
  import opened Sharding
  import opened ShardingRuns

  /** The directories of every region, numbered from 1. */
  type Directories = map<nat, seq<Peer>>

  ghost predicate Listed(regions: seq<RegionInfo>, dirs: Directories) {
    forall i :: 0 <= i < |regions| ==> regions[i].regionId in dirs
  }

  /** One group per region from its directories; the first failure ends it. */
  ghost function ReopenGroups(regions: seq<RegionInfo>, dirs: Directories, n: nat): (map<nat, Group>, Status)
    requires Listed(regions, dirs) && n <= |regions|
  {
    if n == 0 then (map[], Ok)
    else
      var (clusters, st) := ReopenGroups(regions, dirs, n - 1);
      if st != Ok then (clusters, st)
      else
        var id := regions[n - 1].regionId;
        var (g, status) := Bootstrap(id, Engines(dirs[id]));
        if status != Ok then (clusters, status) else (clusters[id := g], Ok)
  }

  /** Start-up on existing data, with the region table of the catalog. */
  ghost function ReopenAll(regions: seq<RegionInfo>, count: nat, dirs: Directories): (Shards, Status)
    requires Listed(regions, dirs)
  {
    if regions == [] then (Shards(count, [], map[]), Error(InvalidArgument))
    else var (clusters, status) := ReopenGroups(regions, dirs, |regions|); (Shards(count, regions, clusters), status)
  }

  /** Directories left by a group: those of its members hold their present state, others whatever a former member left
      there; at least one member is among the directories that are opened. */
  ghost predicate LeftBy(g: Group, peers: seq<Peer>) {
    && (forall j :: 0 <= j < |g.stores| && 1 <= Id(g.stores[j]) <= |peers| ==> peers[Id(g.stores[j]) - 1] == g.stores[j].peer)
    && (exists j :: 0 <= j < |g.stores| && 1 <= Id(g.stores[j]) <= |peers|)
  }

  ghost predicate LeftByAll(s: Shards, dirs: Directories) {
    forall i :: 0 <= i < |s.regions| ==>
      var id := s.regions[i].regionId;
      id in dirs && id in s.clusters && |dirs[id]| == s.storeCount && Kept(id, dirs[id]) && LeftBy(s.clusters[id], dirs[id])
  }

  ghost predicate AllReopen(regions: seq<RegionInfo>, dirs: Directories)
    requires Listed(regions, dirs)
  {
    forall i :: 0 <= i < |regions| ==> dirs[regions[i].regionId] != [] && Reopens(dirs[regions[i].regionId])
  }

  lemma {:induction false} GroupsReopened(regions: seq<RegionInfo>, dirs: Directories, n: nat)
    requires Listed(regions, dirs) && n <= |regions|
    ensures var (clusters, status) := ReopenGroups(regions, dirs, n);
            && (status == Ok <==> forall i :: 0 <= i < n ==> Bootstrap(regions[i].regionId, Engines(dirs[regions[i].regionId])).1 == Ok)
            && (status == Ok ==>
                  && (forall id :: id in clusters <==> HasId(regions, n, id))
                  && (forall id :: id in clusters ==> id in dirs && clusters[id] == Bootstrap(id, Engines(dirs[id])).0))
  {
    hide Bootstrap, HasId;
    if n == 0 {
      forall id ensures !HasId(regions, 0, id) {
        IdNext(regions, 0, id);
      }
    } else {
      GroupsReopened(regions, dirs, n - 1);
      forall id ensures HasId(regions, n, id) <==> id == regions[n - 1].regionId || HasId(regions, n - 1, id) {
        IdNext(regions, n, id);
      }
    }
  }

  /** A group that comes back in step comes back with the log and data it had: some member's directory is among those whose
      logs agree. */
  lemma SameGroup(r: RegionInfo, g: Group, peers: seq<Peer>)
    requires GroupOk(r, g) && peers != [] && Kept(r.regionId, peers) && LeftBy(g, peers) && Reopens(peers)
    ensures var (h, status) := Bootstrap(r.regionId, Engines(peers)); status == Ok && GroupOk(r, h) && Data(h) == Data(g)
  {
    hide Bootstrap, Inside, ApplyEntries, Twin, Backers, Kept, RaftStorage.UserMap;
    ReopenExactly(r.regionId, peers);
    var h := Bootstrap(r.regionId, Engines(peers)).0;
    var j :| 0 <= j < |g.stores| && 1 <= Id(g.stores[j]) <= |peers|;
    TwinKept(g.stores[j], g.regionId, TermOf(g), LogOf(g));
    SameData(g, TermOf(g), LogOf(g), 0);
    Elected(r.regionId, peers, 0);
  }

  /** The cluster reopens to the same map exactly when the directories of every region satisfy `Reopens`. */
  lemma ReopensSameMap(s: Shards, m: Store, dirs: Directories)
    requires Sound(s) && Represents(s, m) && LeftByAll(s, dirs)
    ensures Listed(s.regions, dirs)
    ensures var (t, status) := ReopenAll(s.regions, s.storeCount, dirs);
            (status == Ok && Sound(t) && Represents(t, m)) <==> AllReopen(s.regions, dirs)
  {
    hide Bootstrap, GroupOk, Represents, Kept, LeftBy, Reopens, Tiled, HasId, FindById;
    var (t, status) := ReopenAll(s.regions, s.storeCount, dirs);
    NonEmpty(s);
    GroupsReopened(s.regions, dirs, |s.regions|);
    if AllReopen(s.regions, dirs) {
      forall i | 0 <= i < |s.regions|
        ensures var id := s.regions[i].regionId;
                && Bootstrap(id, Engines(dirs[id])).1 == Ok && GroupOk(s.regions[i], Bootstrap(id, Engines(dirs[id])).0)
      {
        SameGroup(s.regions[i], s.clusters[s.regions[i].regionId], dirs[s.regions[i].regionId]);
      }
      BootHomed(t);
      IdsListed(t);
      assert Sound(t);
      SameShards(s, t, m, dirs);
    }
    if status == Ok && Sound(t) {
      IdsListed(t);
      forall i | 0 <= i < |s.regions| ensures dirs[s.regions[i].regionId] != [] && Reopens(dirs[s.regions[i].regionId]) {
        var id := s.regions[i].regionId;
        GroupInStep(t.regions[i], t.clusters[id]);
        ReopenExactly(id, dirs[id]);
      }
    }
  }

  lemma NonEmpty(s: Shards)
    requires Sound(s)
    ensures s.regions != []
  {
    hide GroupOk, ContainsKey;
    assert FindByKey(s.regions, "") < |s.regions|;
  }

  lemma GroupInStep(r: RegionInfo, g: Group)
    requires GroupOk(r, g)
    ensures InStep(g)
  {}

  lemma IdsListed(s: Shards)
    ensures forall i :: 0 <= i < |s.regions| ==> HasId(s.regions, |s.regions|, s.regions[i].regionId)
  {}

  lemma SameShards(s: Shards, t: Shards, m: Store, dirs: Directories)
    requires Sound(s) && Sound(t) && Represents(s, m) && t.regions == s.regions && LeftByAll(s, dirs)
    requires forall id :: id in t.clusters ==> id in dirs && t.clusters[id] == Bootstrap(id, Engines(dirs[id])).0
    requires Listed(s.regions, dirs) && AllReopen(s.regions, dirs)
    ensures Represents(t, m)
  {
    hide Bootstrap, GroupOk, Kept, LeftBy, Reopens, Tiled, FindById, IsUserKey, ContainsKey, Data;
    forall k | IsUserKey(k) ensures SameAt(Shard(t, k), m, k) {
      OwnerExists(s.regions, k);
      var r := s.regions[FindByKey(s.regions, k)];
      SameGroup(r, s.clusters[r.regionId], dirs[r.regionId]);
      assert SameAt(Shard(s, k), m, k);
    }
  }
}
