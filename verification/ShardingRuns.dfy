/** The sharded cluster refines one map: routing, writes and data-moving splits together look like a plain store. */
module ShardingRuns {
  import opened Basics
  import opened KvEngine
  import opened RaftStorage
  import opened RegionNode
  import SingleRegion
  import Lockstep
  import GroupRuns
  import opened Migration
  import opened Regions
  import opened Sharding

  // ---- The invariant ----

  /** Every key has exactly one region. */
  ghost predicate Tiled(regions: seq<RegionInfo>) {
    && (forall i, j, key :: 0 <= i < j < |regions| && ContainsKey(regions[i], key) ==> !ContainsKey(regions[j], key))
    && (forall key :: FindByKey(regions, key) < |regions|)
  }

  ghost predicate DistinctIds(regions: seq<RegionInfo>) {
    forall i, j :: 0 <= i < j < |regions| ==> regions[i].regionId != regions[j].regionId
  }

  ghost predicate Homed(s: Shards) {
    forall id :: id in s.clusters <==> FindById(s.regions, id) < |s.regions|
  }

  /** The data of a group lies inside its region. */
  ghost predicate Inside(r: RegionInfo, d: Store) {
    forall k :: k in d ==> IsUserKey(k) && ContainsKey(r, k)
  }

  ghost predicate GroupOk(r: RegionInfo, g: SingleRegion.Group) {
    Lockstep.InStep(g) && g.regionId == r.regionId && Inside(r, Lockstep.Data(g))
  }

  ghost predicate Sound(s: Shards) {
    && s.storeCount != 0
    && Tiled(s.regions) && DistinctIds(s.regions) && Homed(s)
    && forall i :: 0 <= i < |s.regions| ==> s.regions[i].regionId in s.clusters && GroupOk(s.regions[i], s.clusters[s.regions[i].regionId])
  }

  lemma IdIs(regions: seq<RegionInfo>, i: nat)
    requires DistinctIds(regions) && i < |regions|
    ensures FindById(regions, regions[i].regionId) == i
  {}

  lemma OwnerIs(regions: seq<RegionInfo>, i: nat, key: Text)
    requires Tiled(regions) && i < |regions| && ContainsKey(regions[i], key)
    ensures FindByKey(regions, key) == i
  {
    hide ContainsKey;
    var j := FindByKey(regions, key);
  }

  /** The group that serves a key. */
  ghost function Server(s: Shards, key: Text): SingleRegion.Group
    requires Sound(s)
  {
    s.clusters[s.regions[FindByKey(s.regions, key)].regionId]
  }

  ghost function Shard(s: Shards, key: Text): Store
    requires Sound(s)
  {
    ServerInStep(s, key);
    Lockstep.Data(Server(s, key))
  }

  lemma ServerInStep(s: Shards, key: Text)
    requires Sound(s)
    ensures Lockstep.InStep(Server(s, key)) && Server(s, key).stores != []
  {
    hide Lockstep.Aligned, Lockstep.Led, Inside, ContainsKey;
  }

  /** For user keys, the cluster answers like the map. */
  ghost predicate Represents(s: Shards, m: Store)
    requires Sound(s)
  {
    forall key :: IsUserKey(key) ==> SameAt(Shard(s, key), m, key)
  }

  lemma SoundWired(s: Shards)
    requires Sound(s)
    ensures Wired(s)
  {
    hide Lockstep.Aligned, Lockstep.Led, Inside, SingleRegion.AllValid, ContainsKey;
    forall i | 0 <= i < |s.regions| ensures SingleRegion.AllValid(s.clusters[s.regions[i].regionId].stores) {
      var g := s.clusters[s.regions[i].regionId];
      Lockstep.AlignedValid(g, Lockstep.TermOf(g), Lockstep.LogOf(g));
    }
  }

  // ---- Reads ----

  lemma ReadAny(g: SingleRegion.Group, j: nat, key: Text)
    requires Lockstep.InStep(g) && j < |g.stores| && IsUserKey(key)
    ensures Lookup(g.stores[j].peer.engine, key) == Lookup(Lockstep.Data(g), key)
  {
    hide Lockstep.Twin, IsSystemKey, ApplyEntries;
    Lockstep.SameData(g, Lockstep.TermOf(g), Lockstep.LogOf(g), j);
    var m := g.stores[j].peer.engine;
    assert key in UserMap(m) <==> key in m;
  }

  /** A read of a user key, at either consistency level, returns what the map holds. */
  lemma GetReadsMap(s: Shards, m: Store, key: Text, linearizable: bool)
    requires Sound(s) && Represents(s, m) && IsUserKey(key)
    ensures Get(s, key, linearizable) == Lookup(m, key)
  {
    hide Lockstep.Aligned, Tiled, Homed, DistinctIds, Inside, ContainsKey, IsUserKey, UserMap, Lockstep.Data;
    OwnerExists(s.regions, key);
    ServerInStep(s, key);
    var g := Server(s, key);
    assert SameAt(Shard(s, key), m, key);
    ReadAny(g, 0, key);
    ReadAny(g, SingleRegion.Position(g.stores, g.leaderId), key);
  }

  lemma OwnerExists(regions: seq<RegionInfo>, key: Text)
    requires Tiled(regions)
    ensures FindByKey(regions, key) < |regions| && ContainsKey(regions[FindByKey(regions, key)], key)
  {
    hide ContainsKey;
  }

  // ---- Writes ----

  /** One group moves on and the rest of the cluster stays: enough for the invariant and for the map. */
  lemma ReplaceGroup(s: Shards, i: nat, h: SingleRegion.Group, m: Store, n: Store)
    requires Sound(s) && Represents(s, m) && i < |s.regions| && GroupOk(s.regions[i], h)
    requires forall k :: IsUserKey(k) && ContainsKey(s.regions[i], k) ==> SameAt(Lockstep.Data(h), n, k)
    requires forall k :: IsUserKey(k) && !ContainsKey(s.regions[i], k) ==> SameAt(m, n, k)
    ensures var t := s.(clusters := s.clusters[s.regions[i].regionId := h]); Sound(t) && Represents(t, n)
  {
    hide ContainsKey, IsUserKey, Lockstep.InStep, Lockstep.Data, Inside, FindById, FindByKey;
    var t := s.(clusters := s.clusters[s.regions[i].regionId := h]);
    IdIs(s.regions, i);
    assert Sound(t);
    forall k | IsUserKey(k) ensures SameAt(Shard(t, k), n, k) {
      OwnerExists(s.regions, k);
      var j := FindByKey(s.regions, k);
      if ContainsKey(s.regions[i], k) {
        OwnerIs(s.regions, i, k);
      } else {
        assert Shard(t, k) == Shard(s, k);
        assert SameAt(Shard(s, k), m, k) && SameAt(m, n, k);
      }
    }
  }

  lemma {:induction false} MutateSame(a: Store, b: Store, mus: seq<Mutation>, k: Text)
    requires SameAt(a, b, k)
    ensures SameAt(MutateAll(a, mus), MutateAll(b, mus), k)
    decreases |mus|
  {
    if mus != [] {
      MutateSame(Mutate(a, mus[0]), Mutate(b, mus[0]), mus[1..], k);
    }
  }

  ghost predicate Targets(r: RegionInfo, mus: seq<Mutation>) {
    forall j :: 0 <= j < |mus| ==> IsUserKey(mus[j].key) && ContainsKey(r, mus[j].key)
  }

  lemma {:induction false} MutateInside(r: RegionInfo, d: Store, mus: seq<Mutation>)
    requires Inside(r, d) && Targets(r, mus)
    ensures Inside(r, MutateAll(d, mus))
    decreases |mus|
  {
    hide ContainsKey, IsUserKey;
    if mus != [] {
      assert Inside(r, Mutate(d, mus[0]));
      MutateInside(r, Mutate(d, mus[0]), mus[1..]);
    }
  }

  /** A group that performed mutations of its own region: the cluster performed them on the map. */
  lemma WriteShard(s: Shards, i: nat, h: SingleRegion.Group, m: Store, mus: seq<Mutation>)
    requires Sound(s) && Represents(s, m) && i < |s.regions| && Targets(s.regions[i], mus)
    requires Lockstep.InStep(h) && h.regionId == s.regions[i].regionId
    requires Lockstep.InStep(s.clusters[s.regions[i].regionId])
    requires Lockstep.Data(h) == MutateAll(Lockstep.Data(s.clusters[s.regions[i].regionId]), mus)
    ensures var t := s.(clusters := s.clusters[s.regions[i].regionId := h]); Sound(t) && Represents(t, MutateAll(m, mus))
  {
    hide ContainsKey, IsUserKey, Lockstep.InStep, Lockstep.Data, MutateAll, Tiled, Homed, DistinctIds, FindByKey;
    var r := s.regions[i];
    GroupRuns.StepNonEmpty(h);
    GroupRuns.StepNonEmpty(s.clusters[r.regionId]);
    var d := Lockstep.Data(s.clusters[r.regionId]);
    MutateInside(r, d, mus);
    forall k | IsUserKey(k) && ContainsKey(r, k) ensures SameAt(Lockstep.Data(h), MutateAll(m, mus), k) {
      OwnerIs(s.regions, i, k);
      assert SameAt(Shard(s, k), m, k);
      MutateSame(d, m, mus, k);
    }
    forall k | IsUserKey(k) && !ContainsKey(r, k) ensures SameAt(m, MutateAll(m, mus), k) {
      UntouchedStays(m, mus, k);
    }
    ReplaceGroup(s, i, h, m, MutateAll(m, mus));
  }

  // ---- Splits ----

  lemma LeaderData(g: SingleRegion.Group)
    requires Lockstep.InStep(g)
    ensures var l := SingleRegion.Position(g.stores, g.leaderId);
            l < |g.stores| && UserMap(g.stores[l].peer.engine) == Lockstep.Data(g)
  {
    hide Lockstep.Twin, UserMap, ApplyEntries;
    Lockstep.SameData(g, Lockstep.TermOf(g), Lockstep.LogOf(g), SingleRegion.Position(g.stores, g.leaderId));
  }

  /** What the source and the new group hold after the migration of [key, end), key by key. */
  ghost predicate Migrated(d: Store, left: Store, right: Store, key: Text, end: Text) {
    forall k :: if k in d && InRange(k, key, end) then k !in left && SameAt(right, d, k) else SameAt(left, d, k) && k !in right
  }

  lemma ExportMembers(g: SingleRegion.Group, r: RegionInfo, key: Text)
    requires GroupOk(r, g)
    ensures var moved := Export(g, key, r.endKey);
            && GroupRuns.UserMus(SingleRegion.Puts(moved)) && GroupRuns.UserMus(SingleRegion.Deletes(moved))
            && Migrated(Lockstep.Data(g), MutateAll(Lockstep.Data(g), SingleRegion.Deletes(moved)),
                        MutateAll(map[], SingleRegion.Puts(moved)), key, r.endKey)
  {
    hide Lockstep.InStep, IsUserKey, InRange, Moved, MutateAll, SingleRegion.Puts, SingleRegion.Deletes, IsSystemKey, SingleRegion.Position;
    LeaderData(g);
    var m := g.stores[SingleRegion.Position(g.stores, g.leaderId)].peer.engine;
    var moved := Moved(m, key, r.endKey);
    var d := Lockstep.Data(g);
    forall k ensures Moves(m, key, r.endKey, k) <==> k in d && InRange(k, key, r.endKey) {}
    MovedValues(m, key, r.endKey);
    PutsKeys(moved);
    DeletesKeys(moved);
    forall k
      ensures var left, right := MutateAll(d, SingleRegion.Deletes(moved)), MutateAll(map[], SingleRegion.Puts(moved));
              if k in d && InRange(k, key, r.endKey) then k !in left && SameAt(right, d, k) else SameAt(left, d, k) && k !in right
    {
      ImportAt(map[], m, key, r.endKey, k);
      ExportAt(d, m, key, r.endKey, k);
      assert k in d ==> k in m && m[k] == d[k];
    }
  }

  /** Both groups after the data moved. */
  lemma SplitGroups(s: Shards, i: nat, key: Text)
    requires Sound(s) && i < |s.regions|
    requires Lockstep.InStep(s.clusters[s.regions[i].regionId]) && s.clusters[s.regions[i].regionId].stores != []
    requires |Lockstep.LogOf(s.clusters[s.regions[i].regionId])| < MAX_U64
    ensures var id := NextId(s.regions);
            var region := s.regions[i];
            var source := s.clusters[region.regionId];
            var blank := FreshGroup(id, s.storeCount).0;
            var moved := Export(source, key, region.endKey);
            && SingleRegion.AllValid(source.stores)
            && FreshGroup(id, s.storeCount).1 == Ok
            && var (right, st1) := SingleRegion.Batch(blank, SingleRegion.Puts(moved));
            var (left, st2) := SingleRegion.Batch(source, SingleRegion.Deletes(moved));
            && st1 == Ok && st2 == Ok && Lockstep.InStep(left) && Lockstep.InStep(right)
            && left.regionId == region.regionId && right.regionId == id
            && Migrated(Lockstep.Data(source), Lockstep.Data(left), Lockstep.Data(right), key, region.endKey)
  {
    hide Lockstep.Aligned, Lockstep.Led, Lockstep.Data, UserMap, SingleRegion.Batch, SingleRegion.Bootstrap, Inside, MutateAll, Migrated, Tiled, Homed,
         DistinctIds, Export, SingleRegion.AllValid, SingleRegion.Puts, SingleRegion.Deletes, GroupRuns.UserMus;
    var id, region := NextId(s.regions), s.regions[i];
    var source := s.clusters[region.regionId];
    var moved := Export(source, key, region.endKey);
    GroupRuns.BootstrapFresh(id, s.storeCount);
    var blank := FreshGroup(id, s.storeCount).0;
    ExportMembers(source, region, key);
    GroupRuns.PerformKeeps(blank, GroupRuns.BatchOp(SingleRegion.Puts(moved)));
    GroupRuns.PerformKeeps(source, GroupRuns.BatchOp(SingleRegion.Deletes(moved)));
  }

  /** The new region table tiles the key space again. */
  lemma SplitTiles(regions: seq<RegionInfo>, i: nat, key: Text, id: nat)
    requires Tiled(regions) && i < |regions| && CanSplit(regions[i], key)
    ensures Tiled(regions[i := LeftOf(regions[i], key)] + [RightOf(regions[i], key, id)])
  {
    hide ContainsKey, CanSplit, FindByKey;
    var r := regions[i];
    var after := regions[i := LeftOf(r, key)] + [RightOf(r, key, id)];
    forall a, b, k | 0 <= a < b < |after| && ContainsKey(after[a], k) ensures !ContainsKey(after[b], k) {
      Sides(r, key, id, k);
      assert a != i ==> after[a] == regions[a];
      assert b != i && b < |regions| ==> after[b] == regions[b];
    }
    forall k ensures FindByKey(after, k) < |after| {
      Sides(r, key, id, k);
      OwnerExists(regions, k);
      var j := FindByKey(regions, k);
      var h := if j != i then j else if ContainsKey(LeftOf(r, key), k) then i else |regions|;
      assert ContainsKey(after[h], k);
      FoundBefore(after, h, k);
    }
  }

  lemma FoundBefore(regions: seq<RegionInfo>, h: nat, k: Text)
    requires h < |regions| && ContainsKey(regions[h], k)
    ensures FindByKey(regions, k) <= h
  {}

  lemma Sides(r: RegionInfo, key: Text, id: nat, k: Text)
    requires CanSplit(r, key)
    ensures ContainsKey(r, k) <==> ContainsKey(LeftOf(r, key), k) || ContainsKey(RightOf(r, key, id), k)
    ensures !(ContainsKey(LeftOf(r, key), k) && ContainsKey(RightOf(r, key, id), k))
    ensures ContainsKey(RightOf(r, key, id), k) <==> InRange(k, key, r.endKey)
  {
    SplitCuts(r, key, k);
  }

  lemma SplitHomes(s: Shards, t: Shards, i: nat, id: nat)
    requires DistinctIds(s.regions) && Homed(s) && i < |s.regions| && id == NextId(s.regions)
    requires |t.regions| == |s.regions| + 1
    requires forall j :: 0 <= j < |t.regions| ==> t.regions[j].regionId == if j < |s.regions| then s.regions[j].regionId else id
    requires t.clusters.Keys == s.clusters.Keys + {id}
    ensures DistinctIds(t.regions) && Homed(t)
  {
    forall x ensures x in t.clusters <==> FindById(t.regions, x) < |t.regions| {
      var j := FindById(s.regions, x);
      if j < |s.regions| {
        assert t.regions[j].regionId == x;
      }
      if x == id {
        assert t.regions[|s.regions|].regionId == x;
      }
    }
  }

  /** The table after a split: the left half in place, the right one at the end under an id above all others, its peer ids
      moved up by a thousand times that id; every other row as it was. */
  ghost predicate TableSplit(before: seq<RegionInfo>, after: seq<RegionInfo>, i: nat, key: Text)
    requires i < |before|
  {
    var r, id, n := before[i], NextId(before), |before|;
    && |after| == n + 1 && Halves(r, after[i], after[n], key, id)
    && (forall j :: 0 <= j < |r.peers| ==> after[n].peers[j].peerId == r.peers[j].peerId + 1000 * id)
    && (r.peers == [] ==> after[n].leaderPeerId == r.leaderPeerId)
    && (forall j :: 0 <= j < n && j != i ==> after[j] == before[j])
  }

  lemma TableSplitIs(before: seq<RegionInfo>, after: seq<RegionInfo>, i: nat, key: Text)
    requires i < |before|
    ensures TableSplit(before, after, i, key) <==> after == before[i := LeftOf(before[i], key)] + [RightOf(before[i], key, NextId(before))]
  {
    hide Halves, LeftOf, RightOf, NextId;
    var id, n := NextId(before), |before|;
    ReplacedIs(before, after, i, LeftOf(before[i], key), RightOf(before[i], key, id));
    if |after| == n + 1 {
      RowsSplit(before[i], after[i], after[n], key, id);
    }
  }

  lemma ReplacedIs(a: seq<RegionInfo>, b: seq<RegionInfo>, i: nat, x: RegionInfo, y: RegionInfo)
    requires i < |a|
    ensures b == a[i := x] + [y] <==>
              |b| == |a| + 1 && b[i] == x && b[|a|] == y && forall j :: 0 <= j < |a| && j != i ==> b[j] == a[j]
  {
    if |b| == |a| + 1 && b[i] == x && b[|a|] == y && forall j :: 0 <= j < |a| && j != i ==> b[j] == a[j] {
      assert b == a[i := x] + [y];
    }
  }

  lemma RowsSplit(r: RegionInfo, left: RegionInfo, right: RegionInfo, key: Text, id: nat)
    ensures left == LeftOf(r, key) && right == RightOf(r, key, id) <==>
              && Halves(r, left, right, key, id)
              && (forall j :: 0 <= j < |r.peers| ==> right.peers[j].peerId == r.peers[j].peerId + 1000 * id)
              && (r.peers == [] ==> right.leaderPeerId == r.leaderPeerId)
  {
    if && Halves(r, left, right, key, id)
       && (forall j :: 0 <= j < |r.peers| ==> right.peers[j].peerId == r.peers[j].peerId + 1000 * id)
    {
      assert right.peers == Renumbered(r.peers, id);
    }
  }

  /** The new id is the least above every id in use. */
  lemma {:induction false} NextIdLeast(regions: seq<RegionInfo>)
    ensures NextId(regions) == 1 || exists i :: 0 <= i < |regions| && regions[i].regionId + 1 == NextId(regions)
    decreases |regions|
  {
    if regions != [] {
      var n := |regions| - 1;
      NextIdLeast(regions[..n]);
      if i :| 0 <= i < n && regions[..n][i].regionId + 1 == NextId(regions[..n]) {
        assert regions[i].regionId + 1 == NextId(regions[..n]);
      }
    }
  }

  /** What a successful split makes of the cluster. */
  ghost predicate SplitResult(s: Shards, t: Shards, i: nat, key: Text)
    requires Sound(s) && i < |s.regions|
  {
    var region, id := s.regions[i], NextId(s.regions);
    && t.storeCount == s.storeCount
    && TableSplit(s.regions, t.regions, i, key)
    && t.clusters.Keys == s.clusters.Keys + {id}
    && id !in s.clusters
    && (forall x :: x in s.clusters && x != region.regionId ==> t.clusters[x] == s.clusters[x])
    && var source, left, right := s.clusters[region.regionId], t.clusters[region.regionId], t.clusters[id];
    && Lockstep.InStep(source) && Lockstep.InStep(left) && Lockstep.InStep(right)
    && left.regionId == region.regionId && right.regionId == id
    && Migrated(Lockstep.Data(source), Lockstep.Data(left), Lockstep.Data(right), key, region.endKey)
  }

  lemma FreshId(s: Shards)
    requires Homed(s)
    ensures NextId(s.regions) !in s.clusters
  {}

  /** A split moves exactly the keys in [key, end): each of them is in the new group with its value and no longer in the
      old one, and every other key stays where it was. It is refused only for an unknown region or a key that does not
      cut the range in two. */
  lemma SplitMoves(s: Shards, regionId: nat, key: Text)
    requires Sound(s)
    requires regionId in s.clusters ==> s.clusters[regionId].stores != [] && |Lockstep.LogOf(s.clusters[regionId])| < MAX_U64
    ensures Wired(s)
    ensures var (t, status) := SplitRegion(s, regionId, key);
            var i := FindById(s.regions, regionId);
            && (status == Ok <==> i < |s.regions| && CanSplit(s.regions[i], key))
            && (status == Ok ==> SplitResult(s, t, i, key))
            && (status != Ok ==> t == s && status == Error(if i < |s.regions| then InvalidArgument else RegionNotFound))
  {
    hide TableSplit, Lockstep.Aligned, Lockstep.Led, Lockstep.Data, UserMap, SingleRegion.Batch, Inside, Migrated, Tiled,
         DistinctIds, Export, SingleRegion.AllValid, FreshGroup, CanSplit, SingleRegion.Puts, SingleRegion.Deletes;
    SoundWired(s);
    var i := FindById(s.regions, regionId);
    FreshId(s);
    if i < |s.regions| && CanSplit(s.regions[i], key) {
      SplitGroups(s, i, key);
      TableSplitIs(s.regions, SplitRegion(s, regionId, key).0.regions, i, key);
    }
  }

  lemma SplitInside(r: RegionInfo, d: Store, left: Store, right: Store, key: Text, id: nat)
    requires CanSplit(r, key) && Inside(r, d) && Migrated(d, left, right, key, r.endKey)
    ensures Inside(LeftOf(r, key), left) && Inside(RightOf(r, key, id), right)
  {
    hide ContainsKey, CanSplit, IsUserKey, InRange;
    forall k | k in left ensures IsUserKey(k) && ContainsKey(LeftOf(r, key), k) {
      Sides(r, key, id, k);
    }
    forall k | k in right ensures IsUserKey(k) && ContainsKey(RightOf(r, key, id), k) {
      Sides(r, key, id, k);
    }
  }

  /** A split is invisible to readers. */
  lemma SplitKeeps(s: Shards, t: Shards, i: nat, key: Text, m: Store)
    requires Sound(s) && Represents(s, m) && i < |s.regions| && CanSplit(s.regions[i], key) && SplitResult(s, t, i, key)
    ensures Sound(t) && Represents(t, m)
  {
    hide TableSplit, ContainsKey, CanSplit, IsUserKey, Lockstep.InStep, Lockstep.Data, Tiled, Homed, DistinctIds, FindByKey, Inside, Migrated;
    TableSplitIs(s.regions, t.regions, i, key);
    var region, id := s.regions[i], NextId(s.regions);
    var source, left, right := s.clusters[region.regionId], t.clusters[region.regionId], t.clusters[id];
    GroupRuns.StepNonEmpty(source);
    GroupRuns.StepNonEmpty(left);
    GroupRuns.StepNonEmpty(right);
    SplitTiles(s.regions, i, key, id);
    SplitHomes(s, t, i, id);
    SplitInside(region, Lockstep.Data(source), Lockstep.Data(left), Lockstep.Data(right), key, id);
    SplitIds(s, t, i, id);
    assert Sound(t);
    forall k | IsUserKey(k) ensures SameAt(Shard(t, k), m, k) {
      SplitShard(s, t, i, key, k);
      assert SameAt(Shard(s, k), m, k);
    }
  }

  lemma SplitIds(s: Shards, t: Shards, i: nat, id: nat)
    requires DistinctIds(s.regions) && i < |s.regions| && id == NextId(s.regions)
    requires |t.regions| == |s.regions| + 1
    ensures forall j :: 0 <= j < |s.regions| && j != i ==> s.regions[j].regionId != s.regions[i].regionId && s.regions[j].regionId != id
  {}

  lemma SplitShard(s: Shards, t: Shards, i: nat, key: Text, k: Text)
    requires Sound(s) && Sound(t) && i < |s.regions| && CanSplit(s.regions[i], key) && SplitResult(s, t, i, key)
    ensures SameAt(Shard(t, k), Shard(s, k), k)
  {
    hide TableSplit, ContainsKey, CanSplit, Lockstep.InStep, Lockstep.Data, FindByKey, Homed, IsUserKey;
    TableSplitIs(s.regions, t.regions, i, key);
    var region, id := s.regions[i], NextId(s.regions);
    Sides(region, key, id, k);
    OwnerExists(s.regions, k);
    var j := FindByKey(s.regions, k);
    if j != i {
      assert t.regions[j] == s.regions[j];
      OwnerIs(t.regions, j, k);
    } else if ContainsKey(LeftOf(region, key), k) {
      assert t.regions[i] == LeftOf(region, key);
      OwnerIs(t.regions, i, k);
    } else {
      assert t.regions[|s.regions|] == RightOf(region, key, id);
      OwnerIs(t.regions, |s.regions|, k);
    }
  }

  // ---- Membership ----

  ghost predicate SameRanges(a: seq<RegionInfo>, b: seq<RegionInfo>) {
    |a| == |b|
    && forall i :: 0 <= i < |a| ==> a[i].regionId == b[i].regionId && a[i].startKey == b[i].startKey && a[i].endKey == b[i].endKey
  }

  lemma SameLookups(a: seq<RegionInfo>, b: seq<RegionInfo>)
    requires SameRanges(a, b)
    ensures forall key :: FindByKey(a, key) == FindByKey(b, key)
    ensures forall id :: FindById(a, id) == FindById(b, id)
  {
    forall key ensures FindByKey(a, key) == FindByKey(b, key) {
      var i, j := FindByKey(a, key), FindByKey(b, key);
    }
    forall id ensures FindById(a, id) == FindById(b, id) {
      var i, j := FindById(a, id), FindById(b, id);
    }
  }

  lemma SameTiled(a: seq<RegionInfo>, b: seq<RegionInfo>)
    requires SameRanges(a, b) && Tiled(a) && DistinctIds(a)
    ensures Tiled(b) && DistinctIds(b)
  {
    hide InRange, FindByKey;
    SameLookups(a, b);
    forall i, j, key | 0 <= i < j < |b| && ContainsKey(b[i], key) ensures !ContainsKey(b[j], key) {
      assert ContainsKey(a[i], key);
    }
    forall key ensures FindByKey(b, key) < |b| {
      assert FindByKey(a, key) < |a|;
    }
  }

  /** Peers, leader hints and epochs in the region table have no part in routing. */
  lemma EditKeeps(s: Shards, regions: seq<RegionInfo>, m: Store)
    requires Sound(s) && Represents(s, m) && SameRanges(s.regions, regions)
    ensures Sound(s.(regions := regions)) && Represents(s.(regions := regions), m)
  {
    hide Lockstep.InStep, Lockstep.Data, InRange, FindByKey, FindById;
    var t := s.(regions := regions);
    SameLookups(s.regions, regions);
    SameTiled(s.regions, regions);
    forall i | 0 <= i < |regions| ensures regions[i].regionId in t.clusters && GroupOk(regions[i], t.clusters[regions[i].regionId]) {
      assert s.regions[i].regionId in s.clusters && GroupOk(s.regions[i], s.clusters[s.regions[i].regionId]);
    }
    forall k | IsUserKey(k) ensures SameAt(Shard(t, k), m, k) {
      assert Shard(t, k) == Shard(s, k);
    }
  }

  /** A membership operation that keeps the group in step with its data. */
  lemma MemberKeeps(s: Shards, id: nat, op: GroupRuns.Op, m: Store)
    requires Sound(s) && Represents(s, m) && id in s.clusters && s.clusters[id].stores != []
    requires op.TransferOp? || op.RemoveOp? || (op.AddOp? && op.id != 0)
    ensures SingleRegion.AllValid(s.clusters[id].stores)
    ensures var (t, status) := Update(s, id, GroupRuns.Perform(s.clusters[id], op)); Sound(t) && Represents(t, m)
  {
    hide Lockstep.Aligned, Lockstep.Led, Lockstep.Data, ContainsKey, IsUserKey, Tiled, DistinctIds, GroupRuns.Perform, FindByKey, SingleRegion.AllValid;
    var i := FindById(s.regions, id);
    var g := s.clusters[id];
    assert s.regions[i].regionId == id;
    GroupRuns.PerformKeeps(g, op);
    var h := GroupRuns.Perform(g, op).0;
    forall k | IsUserKey(k) && ContainsKey(s.regions[i], k) ensures SameAt(Lockstep.Data(h), m, k) {
      OwnerIs(s.regions, i, k);
      assert SameAt(Shard(s, k), m, k);
    }
    ReplaceGroup(s, i, h, m, m);
  }

  // ---- Runs ----

  datatype Op =
    | PutOp(key: Text, value: Text)
    | DeleteOp(key: Text)
    | BatchOp(mus: seq<Mutation>)
    | SplitOp(regionId: nat, key: Text)
    | TransferOp(regionId: nat, peerId: nat)
    | AddOp(regionId: nat, storeId: nat, peerId: nat)
    | RemoveOp(regionId: nat, peerId: nat)

  /** No log has used up its 64-bit indices. */
  ghost predicate Roomy(s: Shards) {
    forall id :: id in s.clusters ==> s.clusters[id].stores != [] && |Lockstep.LogOf(s.clusters[id])| < MAX_U64
  }

  ghost predicate Allowed(s: Shards, op: Op) {
    && Roomy(s)
    && match op
       case PutOp(key, _) => IsUserKey(key)
       case DeleteOp(key) => IsUserKey(key)
       case BatchOp(mus) => GroupRuns.UserMus(mus)
       case AddOp(_, _, peerId) => peerId != 0
       case _ => true
  }

  function Perform(s: Shards, op: Op): (Shards, Status)
    requires Wired(s)
  {
    match op
    case PutOp(key, value) => Sharding.Put(s, key, value)
    case DeleteOp(key) => Sharding.Delete(s, key)
    case BatchOp(mus) => Batch(s, mus)
    case SplitOp(regionId, key) => SplitRegion(s, regionId, key)
    case TransferOp(regionId, peerId) => TransferLeader(s, regionId, peerId)
    case AddOp(regionId, storeId, peerId) => AddPeer(s, regionId, storeId, peerId)
    case RemoveOp(regionId, peerId) => RemovePeer(s, regionId, peerId)
  }

  /** The operation on a plain map; one that was refused does nothing. */
  function Meaning(m: Store, op: Op, status: Status): Store {
    if status != Ok then m
    else
      match op
      case PutOp(key, value) => m[key := value]
      case DeleteOp(key) => m - {key}
      case BatchOp(mus) => MutateAll(m, mus)
      case _ => m
  }

  /** A write to the group of region `i`. */
  lemma GroupWrite(s: Shards, i: nat, op: GroupRuns.Op, mus: seq<Mutation>, m: Store)
    requires Sound(s) && Represents(s, m) && Roomy(s) && i < |s.regions| && Targets(s.regions[i], mus)
    requires op == GroupRuns.BatchOp(mus) || (|mus| == 1 && mus[0].kind == KvEngine.Put && op == GroupRuns.PutOp(mus[0].key, mus[0].value))
             || (|mus| == 1 && mus[0].kind == KvEngine.Delete && op == GroupRuns.DeleteOp(mus[0].key))
    ensures var id := s.regions[i].regionId;
            && id in s.clusters && SingleRegion.AllValid(s.clusters[id].stores)
            && var (t, status) := Update(s, id, GroupRuns.Perform(s.clusters[id], op));
            Sound(t) && Represents(t, MutateAll(m, mus)) && status == Ok
  {
    hide Lockstep.Aligned, Lockstep.Led, Lockstep.Data, ContainsKey, IsUserKey, Tiled, DistinctIds, Homed, GroupRuns.Perform, FindByKey,
         SingleRegion.AllValid, Inside, Lockstep.LogOf;
    var g := s.clusters[s.regions[i].regionId];
    GroupRuns.PerformKeeps(g, op);
    if |mus| == 1 {
      assert mus == [mus[0]];
      GroupRuns.OneMutation(Lockstep.Data(g), mus[0]);
    }
    hide MutateAll;
    WriteShard(s, i, GroupRuns.Perform(g, op).0, m, mus);
  }

  lemma BatchTargets(s: Shards, i: nat, mus: seq<Mutation>)
    requires Sound(s) && i < |s.regions| && GroupRuns.UserMus(mus) && SameTarget(s.regions, s.regions[i].regionId, mus)
    ensures Targets(s.regions[i], mus)
  {
    hide Lockstep.InStep, Lockstep.Data, Inside, Homed, ContainsKey, IsUserKey;
    forall j | 0 <= j < |mus| ensures ContainsKey(s.regions[i], mus[j].key) {
      OwnerExists(s.regions, mus[j].key);
    }
  }

  lemma BatchKeeps(s: Shards, mus: seq<Mutation>, m: Store)
    requires Sound(s) && Represents(s, m) && Roomy(s) && GroupRuns.UserMus(mus)
    ensures Wired(s)
    ensures var (t, status) := Batch(s, mus);
            && Sound(t) && Represents(t, if status == Ok then MutateAll(m, mus) else m)
            && (status == Ok <==> mus == [] || exists i :: 0 <= i < |s.regions| && Targets(s.regions[i], mus))
  {
    hide Sound, Represents, Roomy, SingleRegion.Batch, ContainsKey, IsUserKey;
    SoundWired(s);
    TiledOf(s);
    GroupRuns.EmptyBatch(m);
    if mus != [] {
      OwnerExists(s.regions, mus[0].key);
      var i := FindByKey(s.regions, mus[0].key);
      var id := s.regions[i].regionId;
      if SameTarget(s.regions, id, mus) {
        BatchTargets(s, i, mus);
        GroupWrite(s, i, GroupRuns.BatchOp(mus), mus, m);
      } else {
        forall k | 0 <= k < |s.regions| ensures !Targets(s.regions[k], mus) {
          if Targets(s.regions[k], mus) {
            TargetsSame(s, k, mus);
          }
        }
      }
    }
  }

  lemma TiledOf(s: Shards)
    requires Sound(s)
    ensures Tiled(s.regions)
  {}

  lemma TargetsSame(s: Shards, k: nat, mus: seq<Mutation>)
    requires Tiled(s.regions) && k < |s.regions| && Targets(s.regions[k], mus)
    ensures SameTarget(s.regions, s.regions[k].regionId, mus)
  {
    hide ContainsKey, Tiled, FindByKey;
    forall j | 0 <= j < |mus| ensures FindByKey(s.regions, mus[j].key) == k {
      OwnerIs(s.regions, k, mus[j].key);
    }
  }

  lemma PutKeeps(s: Shards, key: Text, value: Text, m: Store)
    requires Sound(s) && Represents(s, m) && Roomy(s) && IsUserKey(key)
    ensures Wired(s)
    ensures var (t, status) := Sharding.Put(s, key, value); status == Ok && Sound(t) && Represents(t, m[key := value])
  {
    hide Sound, Represents, Roomy, SingleRegion.Put, ContainsKey, IsUserKey;
    SoundWired(s);
    TiledOf(s);
    OwnerExists(s.regions, key);
    var mu := Mutation(KvEngine.Put, key, value);
    GroupRuns.OneMutation(m, mu);
    GroupWrite(s, FindByKey(s.regions, key), GroupRuns.PutOp(key, value), [mu], m);
  }

  lemma DeleteKeeps(s: Shards, key: Text, m: Store)
    requires Sound(s) && Represents(s, m) && Roomy(s) && IsUserKey(key)
    ensures Wired(s)
    ensures var (t, status) := Sharding.Delete(s, key); status == Ok && Sound(t) && Represents(t, m - {key})
  {
    hide Sound, Represents, Roomy, SingleRegion.Delete, ContainsKey, IsUserKey;
    SoundWired(s);
    TiledOf(s);
    OwnerExists(s.regions, key);
    var mu := Mutation(KvEngine.Delete, key, "");
    GroupRuns.OneMutation(m, mu);
    GroupWrite(s, FindByKey(s.regions, key), GroupRuns.DeleteOp(key), [mu], m);
  }

  lemma SplitOpKeeps(s: Shards, regionId: nat, key: Text, m: Store)
    requires Sound(s) && Represents(s, m) && Roomy(s)
    ensures Wired(s)
    ensures var (t, status) := SplitRegion(s, regionId, key);
            Sound(t) && Represents(t, m) && (status == Ok ==> FindById(s.regions, regionId) < |s.regions|)
  {
    hide Sound, Represents, SplitRegion, SplitResult, CanSplit;
    SplitMoves(s, regionId, key);
    var (t, status) := SplitRegion(s, regionId, key);
    if status == Ok {
      SplitKeeps(s, t, FindById(s.regions, regionId), key, m);
    }
  }

  lemma MembershipKeeps(s: Shards, op: Op, m: Store)
    requires Sound(s) && Represents(s, m) && Allowed(s, op) && (op.TransferOp? || op.AddOp? || op.RemoveOp?)
    ensures Wired(s)
    ensures var t := Perform(s, op).0; Sound(t) && Represents(t, m)
  {
    hide Sound, Represents, SingleRegion.TransferLeader, SingleRegion.AddPeer, SingleRegion.RemovePeer, EditRegion;
    SoundWired(s);
    if op.regionId in s.clusters {
      var inner := if op.TransferOp? then GroupRuns.TransferOp(op.peerId)
                   else if op.AddOp? then GroupRuns.AddOp(op.storeId, op.peerId) else GroupRuns.RemoveOp(op.peerId);
      MemberKeeps(s, op.regionId, inner, m);
      var t := Update(s, op.regionId, GroupRuns.Perform(s.clusters[op.regionId], inner)).0;
      assert t.regions == s.regions;
      EditKeeps(t, Perform(s, op).0.regions, m);
    }
  }

  lemma PerformKeeps(s: Shards, op: Op, m: Store)
    requires Sound(s) && Represents(s, m) && Allowed(s, op)
    ensures Wired(s)
    ensures var (t, status) := Perform(s, op);
            && Sound(t) && Represents(t, Meaning(m, op, status))
            && (op.PutOp? || op.DeleteOp? ==> status == Ok)
  {
    hide Sound, Represents, Roomy, Sharding.Put, Sharding.Delete, Batch, SplitRegion, TransferLeader, AddPeer, RemovePeer;
    SoundWired(s);
    match op
    case PutOp(key, value) => PutKeeps(s, key, value, m);
    case DeleteOp(key) => DeleteKeeps(s, key, m);
    case BatchOp(mus) => BatchKeeps(s, mus, m);
    case SplitOp(regionId, key) => SplitOpKeeps(s, regionId, key, m);
    case _ => MembershipKeeps(s, op, m);
  }

  ghost predicate IsShardRun(states: seq<Shards>, ops: seq<Op>, statuses: seq<Status>) {
    && |states| == |ops| + 1 && |statuses| == |ops|
    && Sound(states[0]) && Represents(states[0], map[])
    && forall k :: 0 <= k < |ops| ==>
         Wired(states[k]) && Allowed(states[k], ops[k]) && (states[k + 1], statuses[k]) == Perform(states[k], ops[k])
  }

  function Meanings(ops: seq<Op>, statuses: seq<Status>): Store
    requires |ops| == |statuses|
  {
    if ops == [] then map[]
    else
      var n := |ops| - 1;
      Meaning(Meanings(ops[..n], statuses[..n]), ops[n], statuses[n])
  }

  lemma {:induction false} RunSound(states: seq<Shards>, ops: seq<Op>, statuses: seq<Status>, k: nat)
    requires IsShardRun(states, ops, statuses) && k < |states|
    ensures Sound(states[k]) && Represents(states[k], Meanings(ops[..k], statuses[..k]))
    decreases k
  {
    hide Sound, Represents, Perform, Wired, Allowed, Meaning;
    if k > 0 {
      RunSound(states, ops, statuses, k - 1);
      assert ops[..k][..k - 1] == ops[..k - 1] && statuses[..k][..k - 1] == statuses[..k - 1];
      PerformKeeps(states[k - 1], ops[k - 1], Meanings(ops[..k - 1], statuses[..k - 1]));
    }
  }

  /** After any run of puts, deletes, batches, splits and membership changes, reading a user key at either consistency
      level gives what one plain map gives. */
  lemma ShardsRefineMap(states: seq<Shards>, ops: seq<Op>, statuses: seq<Status>, k: nat, key: Text, linearizable: bool)
    requires IsShardRun(states, ops, statuses) && k < |states| && IsUserKey(key)
    ensures Get(states[k], key, linearizable) == Lookup(Meanings(ops[..k], statuses[..k]), key)
  {
    hide Sound, Represents, Perform, Wired, Allowed;
    RunSound(states, ops, statuses, k);
    GetReadsMap(states[k], Meanings(ops[..k], statuses[..k]), key, linearizable);
  }

  ghost predicate HasId(regions: seq<RegionInfo>, n: nat, id: nat)
    requires n <= |regions|
  {
    exists i :: 0 <= i < n && regions[i].regionId == id
  }

  lemma IdNext(regions: seq<RegionInfo>, n: nat, id: nat)
    requires n <= |regions|
    ensures HasId(regions, n, id) <==> n > 0 && (id == regions[n - 1].regionId || HasId(regions, n - 1, id))
  {
    if n > 0 && HasId(regions, n - 1, id) {
      var i :| 0 <= i < n - 1 && regions[i].regionId == id;
      assert 0 <= i < n && regions[i].regionId == id;
    }
  }

  lemma {:induction false} GroupsBooted(regions: seq<RegionInfo>, count: nat, n: nat)
    requires count != 0 && n <= |regions|
    ensures var (clusters, status) := BootGroups(regions, count, n);
            && status == Ok
            && (forall id :: id in clusters <==> HasId(regions, n, id))
            && (forall id :: id in clusters ==> clusters[id] == FreshGroup(id, count).0)
  {
    hide FreshGroup, Lockstep.InStep, Lockstep.Data, HasId;
    if n == 0 {
      forall id ensures !HasId(regions, 0, id) {
        IdNext(regions, 0, id);
      }
    } else {
      GroupsBooted(regions, count, n - 1);
      FreshOk(regions[n - 1].regionId, count);
      forall id ensures HasId(regions, n, id) <==> id == regions[n - 1].regionId || HasId(regions, n - 1, id) {
        IdNext(regions, n, id);
      }
    }
  }

  lemma FreshOk(id: nat, count: nat)
    requires count != 0
    ensures var (g, status) := FreshGroup(id, count);
            status == Ok && Lockstep.InStep(g) && g.regionId == id && g.stores != [] && Lockstep.Data(g) == map[]
  {
    hide SingleRegion.Bootstrap, Lockstep.Aligned, Lockstep.Led, UserMap;
    GroupRuns.BootstrapFresh(id, count);
  }

  /** Start-up on empty directories gives a cluster that runs can start from, holding no data, exactly when there are
      stores and the given regions tile the key space under distinct ids. */
  lemma BootstrapSound(regions: seq<RegionInfo>, count: nat)
    ensures var (s, status) := BootShards(regions, count);
            && (status == Ok && Sound(s) <==> count != 0 && Tiled(regions) && DistinctIds(regions))
            && (status == Ok && Sound(s) ==> s.regions == regions && Represents(s, map[]))
  {
    hide Lockstep.InStep, Lockstep.Data, FreshGroup, ContainsKey, FindByKey, FindById, IsUserKey;
    if count != 0 && Tiled(regions) && DistinctIds(regions) {
      assert FindByKey(regions, "") < |regions|;
      GroupsBooted(regions, count, |regions|);
      var s := BootShards(regions, count).0;
      forall i | 0 <= i < |regions|
        ensures regions[i].regionId in s.clusters && GroupOk(regions[i], s.clusters[regions[i].regionId])
                && s.clusters[regions[i].regionId].stores != [] && Lockstep.Data(s.clusters[regions[i].regionId]) == map[]
      {
        FreshOk(regions[i].regionId, count);
      }
      BootHomed(s);
      forall key | IsUserKey(key) ensures SameAt(Shard(s, key), map[], key) {
        OwnerExists(regions, key);
      }
    }
  }

  lemma BootHomed(s: Shards)
    requires forall id :: id in s.clusters <==> HasId(s.regions, |s.regions|, id)
    ensures Homed(s)
  {
    forall id ensures id in s.clusters <==> FindById(s.regions, id) < |s.regions| {
      var i := FindById(s.regions, id);
      assert i < |s.regions| ==> s.regions[i].regionId == id;
    }
  }

  /** The usual case: one region over the whole key space. */
  lemma WholeSpaceTiles(region: RegionInfo)
    requires region.startKey == "" && region.endKey == ""
    ensures Tiled([region]) && DistinctIds([region])
  {
    forall key ensures FindByKey([region], key) < 1 {
      assert ContainsKey([region][0], key);
    }
  }
}
