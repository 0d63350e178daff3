/** PD's and the store's region tables stay in step, so one retry is enough and the gateway serves one map. */
module GatewayRuns {
  import opened Basics
  import opened KvEngine
  import opened RegionNode
  import opened Regions
  import IdOrder
  import SingleRegion
  import Lockstep
  import Pd
  import PdRuns
  import opened Sharding
  import ShardingRuns
  import GroupRuns
  import opened Gateway

  // ---- The two tables ----

  ghost predicate SameRange(a: RegionInfo, b: RegionInfo) {
    a.regionId == b.regionId && a.startKey == b.startKey && a.endKey == b.endKey
  }

  /** Same ids, same ranges, same next id, although each side keeps its own table. */
  ghost predicate SameRows(pd: Pd.Metadata, s: Shards) {
    && (forall i :: 0 <= i < |s.regions| ==> s.regions[i].regionId in pd.regions && SameRange(pd.regions[s.regions[i].regionId], s.regions[i]))
    && (forall id :: id in pd.regions ==> FindById(s.regions, id) < |s.regions|)
    && pd.nextRegion == NextId(s.regions)
  }

  /** Same tables, and each range under the same version. */
  ghost predicate InSync(pd: Pd.Metadata, s: Shards) {
    && SameRows(pd, s)
    && forall i :: 0 <= i < |s.regions| ==> pd.regions[s.regions[i].regionId].epoch.version == s.regions[i].epoch.version
  }

  /** Both tables map every key to the same region id. */
  lemma TablesAgree(pd: Pd.Metadata, s: Shards, key: Text)
    requires PdRuns.RangesOk(pd) && ShardingRuns.Tiled(s.regions) && InSync(pd, s)
    ensures var r := Pd.GetRegionByKey(pd, key);
            var i := FindByKey(s.regions, key);
            r.Some? && i < |s.regions| && r.value.regionId == s.regions[i].regionId
  {
    hide InRange, Pd.GetRegionByKey, PdRuns.Covering, Proper;
    ShardingRuns.OwnerExists(s.regions, key);
    var i := FindByKey(s.regions, key);
    var id := s.regions[i].regionId;
    assert ContainsKey(pd.regions[id], key);
    PdRuns.LookupIsScan(pd, key, pd.regions[id]);
  }

  /** A route that PD hands out passes the store's validation. */
  lemma FreshRouteIsValid(pd: Pd.Metadata, s: Shards, key: Text)
    requires PdRuns.RangesOk(pd) && ShardingRuns.Tiled(s.regions) && InSync(pd, s)
    ensures Pd.GetRegionByKey(pd, key).Some? && ValidateRoute(s, Pd.GetRegionByKey(pd, key).value.regionId, key) == Ok
  {
    hide InSync, PdRuns.RangesOk, ShardingRuns.Tiled, Pd.GetRegionByKey;
    TablesAgree(pd, s, key);
  }

  // ---- One retry ----

  lemma ExecuteIfValid(s: Shards, regionId: nat, call: Call)
    requires Wired(s) && Routed(call)
    ensures ValidateRoute(s, regionId, KeyOf(call)) == Ok ==> Serve(s, regionId, call) == Execute(s, call)
    ensures ValidateRoute(s, regionId, KeyOf(call)) != Ok ==>
              Serve(s, regionId, call).0 == s && IsRouteStaleError(Serve(s, regionId, call).1)
  {
    hide Execute;
  }

  lemma EmptyCache(key: Text)
    ensures CacheGet(map[], key) == None
  {}

  /** With the tables in step one retry suffices: whatever route the call carries, however stale, it does exactly what
      the operation does, and never comes back with a route error. */
  lemma OneRetrySuffices(w: World, regionId: nat, call: Call)
    requires Ready(w.shards, call) && PdRuns.RangesOk(w.pd) && InSync(w.pd, w.shards)
    ensures Wired(w.shards)
    ensures var (v, reply) := CallStoreWithRouteRetry(w, regionId, call);
            (v.shards, reply) == Execute(w.shards, call) && v.pd == w.pd && !IsRouteStaleError(reply)
  {
    hide Execute, Serve, InSync, PdRuns.RangesOk, Pd.GetRegionByKey, CacheGet, Ready, IsRouteStaleError, ValidateRoute, Wired;
    ExecuteNotStale(w.shards, call);
    RoutedOf(w.shards, call);
    ReadyTiled(w.shards, call);
    ExecuteIfValid(w.shards, regionId, call);
    EmptyCache(KeyOf(call));
    FreshRouteIsValid(w.pd, w.shards, KeyOf(call));
    ExecuteIfValid(w.shards, Pd.GetRegionByKey(w.pd, KeyOf(call)).value.regionId, call);
  }

  lemma ReadyTiled(s: Shards, call: Call)
    requires Ready(s, call)
    ensures ShardingRuns.Tiled(s.regions)
  {
    hide ShardingRuns.Tiled, ShardingRuns.Represents;
  }

  lemma Resolves(w: World, key: Text)
    requires PdRuns.RangesOk(w.pd) && ShardingRuns.Tiled(w.shards.regions) && InSync(w.pd, w.shards)
    ensures var (v, route) := ResolveRoute(w, key); route.Success? && v == w.(cache := v.cache)
  {
    hide PdRuns.RangesOk, ShardingRuns.Tiled, InSync, Pd.GetRegionByKey, CacheGet;
    TablesAgree(w.pd, w.shards, key);
  }

  /** For any cache content at all, a put, delete or get through the gateway is the operation on the store. */
  lemma RequestIsExecute(w: World, call: Call)
    requires Ready(w.shards, call) && !call.BatchCall? && PdRuns.RangesOk(w.pd) && InSync(w.pd, w.shards)
    ensures Wired(w.shards)
    ensures var (v, reply) := Request(w, call); (v.shards, reply) == Execute(w.shards, call) && v.pd == w.pd
  {
    hide Execute, Ready, PdRuns.RangesOk, InSync, CallStoreWithRouteRetry, ResolveRoute, Wired;
    RoutedOf(w.shards, call);
    ReadyTiled(w.shards, call);
    Resolves(w, KeyOf(call));
    var (v, route) := ResolveRoute(w, KeyOf(call));
    OneRetrySuffices(v, route.value.regionId, call);
  }

  // ---- Caches are coarse ----

  /** A range that contains all or none of each current region. */
  ghost predicate Coarse(r: RegionInfo, regions: seq<RegionInfo>) {
    forall i, k, l :: 0 <= i < |regions| && ContainsKey(regions[i], k) && ContainsKey(regions[i], l) && ContainsKey(r, k) ==> ContainsKey(r, l)
  }

  /** Every cached range is one that regions were only ever split out of. */
  ghost predicate CoarseCache(cache: map<nat, RegionInfo>, regions: seq<RegionInfo>) {
    forall id :: id in cache ==> Coarse(cache[id], regions)
  }

  lemma {:induction false} SameHit(cache: map<nat, RegionInfo>, ids: seq<nat>, regions: seq<RegionInfo>, i: nat, k: Text, l: Text)
    requires (forall id :: id in ids ==> id in cache) && CoarseCache(cache, regions)
    requires i < |regions| && ContainsKey(regions[i], k) && ContainsKey(regions[i], l)
    ensures FirstHit(cache, ids, k) == FirstHit(cache, ids, l)
    decreases |ids|
  {
    hide ContainsKey;
    if ids != [] {
      assert ids[0] in ids && Coarse(cache[ids[0]], regions);
      SameHit(cache, ids[1..], regions, i, k, l);
    }
  }

  /** A cache in which one entry alone contains the key finds that entry. */
  lemma OnlyHit(cache: map<nat, RegionInfo>, id: nat, key: Text)
    requires id in cache && ContainsKey(cache[id], key) && forall x :: x in cache && x != id ==> !ContainsKey(cache[x], key)
    ensures CacheGet(cache, key) == Some(cache[id])
  {
    hide ContainsKey, FirstHit, IdOrder.SortedIds;
  }

  lemma NoHit(cache: map<nat, RegionInfo>, key: Text)
    requires CacheGet(cache, key) == None
    ensures forall x :: x in cache ==> !ContainsKey(cache[x], key)
  {
    hide ContainsKey, FirstHit, IdOrder.SortedIds;
  }

  /** PD's answer for a key is the range of the store's region for it, which is coarse. */
  lemma AnswerIsCoarse(pd: Pd.Metadata, s: Shards, key: Text)
    requires PdRuns.RangesOk(pd) && ShardingRuns.Tiled(s.regions) && InSync(pd, s) && Pd.GetRegionByKey(pd, key).Some?
    ensures var r := Pd.GetRegionByKey(pd, key).value;
            var i := FindByKey(s.regions, key);
            i < |s.regions| && SameRange(r, s.regions[i]) && Coarse(r, s.regions)
  {
    hide InRange, Pd.GetRegionByKey, PdRuns.Covering, Proper, FindByKey;
    TablesAgree(pd, s, key);
    ShardingRuns.OwnerExists(s.regions, key);
    var i := FindByKey(s.regions, key);
    var id := s.regions[i].regionId;
    assert ContainsKey(pd.regions[id], key);
    PdRuns.LookupIsScan(pd, key, pd.regions[id]);
    var r := pd.regions[id];
    forall j, k, l | 0 <= j < |s.regions| && ContainsKey(s.regions[j], k) && ContainsKey(s.regions[j], l) && ContainsKey(r, k) ensures ContainsKey(r, l) {
      ShardingRuns.OwnerIs(s.regions, j, k);
      ShardingRuns.OwnerIs(s.regions, i, k);
    }
  }

  ghost predicate TablesOk(w: World) {
    PdRuns.RangesOk(w.pd) && ShardingRuns.Tiled(w.shards.regions) && InSync(w.pd, w.shards)
  }

  lemma ResolveCoarse(w: World, key: Text)
    requires TablesOk(w) && CoarseCache(w.cache, w.shards.regions)
    ensures CoarseCache(ResolveRoute(w, key).0.cache, w.shards.regions)
  {
    hide Coarse, PdRuns.RangesOk, ShardingRuns.Tiled, InSync, Pd.GetRegionByKey, CacheGet, FindByKey, SameRange;
    if CacheGet(w.cache, key) == None && Pd.GetRegionByKey(w.pd, key).Some? {
      AnswerIsCoarse(w.pd, w.shards, key);
    }
  }

  /** Once one key of a region is resolved, every other key of it has the same route, from the cache. */
  lemma ResolveSame(w: World, i: nat, k: Text, l: Text)
    requires TablesOk(w) && CoarseCache(w.cache, w.shards.regions)
    requires i < |w.shards.regions| && ContainsKey(w.shards.regions[i], k) && ContainsKey(w.shards.regions[i], l)
    ensures var (v, route) := ResolveRoute(w, k); ResolveRoute(v, l) == (v, route)
  {
    hide ContainsKey, PdRuns.RangesOk, ShardingRuns.Tiled, InSync, Pd.GetRegionByKey, FirstHit, FindByKey, Coarse, IdOrder.SortedIds;
    SameHit(w.cache, IdOrder.SortedIds(w.cache.Keys), w.shards.regions, i, k, l);
    if CacheGet(w.cache, k) == None {
      TablesAgree(w.pd, w.shards, k);
      AnswerIsCoarse(w.pd, w.shards, k);
      ShardingRuns.OwnerIs(w.shards.regions, i, k);
      var r := Pd.GetRegionByKey(w.pd, k).value;
      SameRangeKeys(r, w.shards.regions[i], l);
      NoHit(w.cache, l);
      OnlyHit(w.cache[r.regionId := r], r.regionId, l);
    }
  }

  lemma SameRangeKeys(a: RegionInfo, b: RegionInfo, key: Text)
    requires SameRange(a, b)
    ensures ContainsKey(a, key) <==> ContainsKey(b, key)
  {}

  lemma {:induction false} ResolveAllSame(w: World, i: nat, r: RegionInfo, mus: seq<Mutation>)
    requires i < |w.shards.regions| && ShardingRuns.Targets(w.shards.regions[i], mus)
    requires forall l :: ContainsKey(w.shards.regions[i], l) ==> ResolveRoute(w, l) == (w, Success(r))
    ensures ResolveAll(w, r.regionId, mus) == (w, Ok)
    decreases |mus|
  {
    hide ContainsKey, ResolveRoute, IsUserKey;
    if mus != [] {
      assert ShardingRuns.Targets(w.shards.regions[i], mus[1..]) by {
        assert forall j :: 0 <= j < |mus[1..]| ==> mus[1..][j] == mus[j + 1];
      }
      ResolveAllSame(w, i, r, mus[1..]);
    }
  }

  lemma {:induction false} ResolveAllCoarse(w: World, regionId: nat, mus: seq<Mutation>)
    requires TablesOk(w) && CoarseCache(w.cache, w.shards.regions)
    ensures CoarseCache(ResolveAll(w, regionId, mus).0.cache, w.shards.regions)
    decreases |mus|
  {
    hide ResolveRoute, CoarseCache, PdRuns.RangesOk, ShardingRuns.Tiled, InSync;
    if mus != [] {
      Resolves(w, mus[0].key);
      ResolveCoarse(w, mus[0].key);
      ResolveAllCoarse(ResolveRoute(w, mus[0].key).0, regionId, mus[1..]);
    }
  }

  /** The world as it looks with the region table `t` in the store. */
  ghost function At(w: World, t: Shards): World {
    w.(shards := t)
  }

  /** Routes come from PD and the cache alone. */
  lemma ResolveIgnoresStore(w: World, t: Shards, key: Text)
    ensures ResolveRoute(At(w, t), key) == (At(ResolveRoute(w, key).0, t), ResolveRoute(w, key).1)
  {
    hide CacheGet, Pd.GetRegionByKey;
  }

  lemma {:induction false} ResolveAllIgnoresStore(w: World, t: Shards, regionId: nat, mus: seq<Mutation>)
    ensures ResolveAll(At(w, t), regionId, mus) == (At(ResolveAll(w, regionId, mus).0, t), ResolveAll(w, regionId, mus).1)
    decreases |mus|
  {
    hide ResolveRoute;
    if mus != [] {
      ResolveIgnoresStore(w, t, mus[0].key);
      ResolveAllIgnoresStore(ResolveRoute(w, mus[0].key).0, t, regionId, mus[1..]);
    }
  }

  lemma CallCoarse(w: World, t: Shards, regionId: nat, call: Call)
    requires Ready(w.shards, call) && TablesOk(At(w, t)) && CoarseCache(w.cache, t.regions)
    ensures CoarseCache(CallStoreWithRouteRetry(w, regionId, call).0.cache, t.regions)
  {
    hide Execute, Serve, TablesOk, ResolveRoute, Ready, IsRouteStaleError, Wired, ValidateRoute;
    ExecuteNotStale(w.shards, call);
    RoutedOf(w.shards, call);
    ExecuteIfValid(w.shards, regionId, call);
    var cleared := World(w.pd, w.shards, map[]);
    SameTables(At(w, t), At(cleared, t));
    ResolveIgnoresStore(cleared, t, KeyOf(call));
    ResolveCoarse(At(cleared, t), KeyOf(call));
  }

  lemma SameTables(w: World, v: World)
    requires TablesOk(w) && v.pd == w.pd && v.shards == w.shards
    ensures TablesOk(v)
  {}

  lemma RequestCoarse(w: World, t: Shards, call: Call)
    requires Ready(w.shards, call) && !call.BatchCall? && TablesOk(At(w, t)) && CoarseCache(w.cache, t.regions)
    ensures CoarseCache(Request(w, call).0.cache, t.regions)
  {
    hide Ready, CallStoreWithRouteRetry, ResolveRoute, PdRuns.RangesOk, ShardingRuns.Tiled, InSync, CoarseCache;
    RoutedOf(w.shards, call);
    ResolveIgnoresStore(w, t, KeyOf(call));
    Resolves(At(w, t), KeyOf(call));
    ResolveCoarse(At(w, t), KeyOf(call));
    ResolveKeeps(w, KeyOf(call));
    var (v, route) := ResolveRoute(w, KeyOf(call));
    CallCoarse(v, t, route.value.regionId, call);
  }

  lemma ResolveKeeps(w: World, key: Text)
    ensures ResolveRoute(w, key).0 == w.(cache := ResolveRoute(w, key).0.cache)
  {
    hide CacheGet, Pd.GetRegionByKey;
  }

  lemma BatchCoarse(w: World, t: Shards, mus: seq<Mutation>)
    requires mus != [] && Ready(w.shards, BatchCall(mus)) && TablesOk(At(w, t)) && CoarseCache(w.cache, t.regions)
    ensures CoarseCache(SubmitBatch(w, mus).0.cache, t.regions)
  {
    hide Ready, CallStoreWithRouteRetry, ResolveRoute, PdRuns.RangesOk, ShardingRuns.Tiled, InSync, CoarseCache;
    ResolveIgnoresStore(w, t, mus[0].key);
    Resolves(At(w, t), mus[0].key);
    ResolveCoarse(At(w, t), mus[0].key);
    ResolveKeeps(w, mus[0].key);
    var (w1, route) := ResolveRoute(w, mus[0].key);
    ResolveAllIgnoresStore(w1, t, route.value.regionId, mus);
    ResolveAllCoarse(At(w1, t), route.value.regionId, mus);
    ResolveAllKeeps(w1, route.value.regionId, mus);
    var w2 := ResolveAll(w1, route.value.regionId, mus).0;
    CallCoarse(w2, t, route.value.regionId, BatchCall(mus));
  }

  // ---- Batches ----

  /** For any cache content, a batch is the operation on the store or it is refused and nothing has changed. */
  lemma BatchHarmless(w: World, mus: seq<Mutation>)
    requires mus != [] && Ready(w.shards, BatchCall(mus)) && PdRuns.RangesOk(w.pd) && InSync(w.pd, w.shards)
    ensures Wired(w.shards)
    ensures var (v, reply) := SubmitBatch(w, mus);
            v.pd == w.pd && ((v.shards, reply) == Execute(w.shards, BatchCall(mus)) || (v.shards == w.shards && reply == Refused(InvalidArgument)))
  {
    hide Execute, Ready, PdRuns.RangesOk, InSync, CallStoreWithRouteRetry, ResolveRoute, Wired;
    var call := BatchCall(mus);
    ExecuteNotStale(w.shards, call);
    ReadyTiled(w.shards, call);
    Resolves(w, mus[0].key);
    var (w1, route) := ResolveRoute(w, mus[0].key);
    ResolvesAll(w1, route.value.regionId, mus);
    ResolveAllKeeps(w1, route.value.regionId, mus);
    var w2 := ResolveAll(w1, route.value.regionId, mus).0;
    OneRetrySuffices(w2, route.value.regionId, call);
  }

  /** A batch whose keys are all in region `i` of the table that PD agrees with is never refused by the gateway itself: it
      goes out with the route of its first key. */
  lemma OneRegionPasses(w: World, t: Shards, mus: seq<Mutation>, i: nat) returns (w1: World, regionId: nat)
    requires mus != [] && Ready(w.shards, BatchCall(mus)) && TablesOk(At(w, t)) && CoarseCache(w.cache, t.regions)
    requires i < |t.regions| && ShardingRuns.Targets(t.regions[i], mus)
    ensures w1 == w.(cache := w1.cache) && Ready(w1.shards, BatchCall(mus))
    ensures SubmitBatch(w, mus) == CallStoreWithRouteRetry(w1, regionId, BatchCall(mus))
  {
    hide Ready, PdRuns.RangesOk, InSync, CallStoreWithRouteRetry, ResolveRoute, ShardingRuns.Tiled, CoarseCache, ContainsKey, IsUserKey;
    var k := mus[0].key;
    ResolveIgnoresStore(w, t, k);
    Resolves(At(w, t), k);
    ResolveKeeps(w, k);
    var route: Result<RegionInfo>;
    w1, route := ResolveRoute(w, k).0, ResolveRoute(w, k).1;
    regionId := route.value.regionId;
    forall l | ContainsKey(t.regions[i], l) ensures ResolveRoute(At(w1, t), l) == (At(w1, t), Success(route.value)) {
      ResolveSame(At(w, t), i, k, l);
    }
    ResolveAllSame(At(w1, t), i, route.value, mus);
    ResolveAllIgnoresStore(w1, t, regionId, mus);
    ResolveAllKeeps(w1, regionId, mus);
  }

  /** With a coarse cache a batch through the gateway is exactly the operation on the store: done if and only if one region
      holds all its keys, and otherwise refused with nothing changed. */
  lemma BatchIsExecute(w: World, mus: seq<Mutation>)
    requires mus != [] && Ready(w.shards, BatchCall(mus)) && TablesOk(w) && CoarseCache(w.cache, w.shards.regions)
    ensures Wired(w.shards)
    ensures var (v, reply) := SubmitBatch(w, mus);
            && v.pd == w.pd && (v.shards, reply) == Execute(w.shards, BatchCall(mus))
            && (reply == Done <==> exists i :: 0 <= i < |w.shards.regions| && ShardingRuns.Targets(w.shards.regions[i], mus))
            && (reply != Done ==> v.shards == w.shards && reply == Refused(InvalidArgument))
  {
    hide Ready, TablesOk, CoarseCache, SubmitBatch, Wired, ShardingRuns.Targets, Batch;
    TablesParts(w);
    BatchHarmless(w, mus);
    BatchDecided(w.shards, mus);
    if i :| 0 <= i < |w.shards.regions| && ShardingRuns.Targets(w.shards.regions[i], mus) {
      assert At(w, w.shards) == w;
      var w1, regionId := OneRegionPasses(w, w.shards, mus, i);
      hide Execute, Ready, CallStoreWithRouteRetry, InSync, PdRuns.RangesOk;
      OneRetrySuffices(w1, regionId, BatchCall(mus));
    }
  }

  lemma TablesParts(w: World)
    requires TablesOk(w)
    ensures PdRuns.RangesOk(w.pd) && InSync(w.pd, w.shards)
  {}

  lemma BatchDecided(s: Shards, mus: seq<Mutation>)
    requires Ready(s, BatchCall(mus))
    ensures Wired(s)
    ensures var (t, status) := Batch(s, mus);
            && (status == Ok <==> exists i :: 0 <= i < |s.regions| && ShardingRuns.Targets(s.regions[i], mus))
            && (status != Ok ==> t == s && status == Error(InvalidArgument))
  {
    hide ShardingRuns.Sound, ShardingRuns.Represents, ShardingRuns.Roomy, ShardingRuns.Targets, SingleRegion.Batch, GroupRuns.UserMus, FindByKey;
    var m :| ShardingRuns.Represents(s, m);
    ShardingRuns.BatchKeeps(s, mus, m);
    BatchCodes(s, mus);
    BatchRefusal(s, mus, m);
  }

  /** A refused batch leaves the store as it was: only the group's own write could change it, and that one succeeds. */
  lemma BatchRefusal(s: Shards, mus: seq<Mutation>, m: Store)
    requires ShardingRuns.Sound(s) && ShardingRuns.Represents(s, m) && ShardingRuns.Roomy(s) && GroupRuns.UserMus(mus)
    ensures Wired(s) && (Batch(s, mus).1 != Ok ==> Batch(s, mus).0 == s)
  {
    hide ShardingRuns.Sound, ShardingRuns.Represents, ShardingRuns.Roomy, SingleRegion.Batch, ContainsKey, IsUserKey;
    ShardingRuns.SoundWired(s);
    ShardingRuns.TiledOf(s);
    if mus != [] {
      ShardingRuns.OwnerExists(s.regions, mus[0].key);
      var i := FindByKey(s.regions, mus[0].key);
      if SameTarget(s.regions, s.regions[i].regionId, mus) {
        ShardingRuns.BatchTargets(s, i, mus);
        ShardingRuns.GroupWrite(s, i, GroupRuns.BatchOp(mus), mus, m);
      }
    }
  }

  lemma {:induction false} ResolvesAll(w: World, regionId: nat, mus: seq<Mutation>)
    requires PdRuns.RangesOk(w.pd) && ShardingRuns.Tiled(w.shards.regions) && InSync(w.pd, w.shards)
    ensures ResolveAll(w, regionId, mus).1 in {Ok, Error(InvalidArgument)}
    decreases |mus|
  {
    hide PdRuns.RangesOk, ShardingRuns.Tiled, InSync, ResolveRoute;
    if mus != [] {
      Resolves(w, mus[0].key);
      ResolvesAll(ResolveRoute(w, mus[0].key).0, regionId, mus[1..]);
    }
  }

  // ---- Splits keep the tables in step ----

  lemma NextIdSplit(regions: seq<RegionInfo>, i: nat, left: RegionInfo, right: RegionInfo)
    requires i < |regions| && left.regionId == regions[i].regionId && right.regionId == NextId(regions)
    ensures NextId(regions[i := left] + [right]) == NextId(regions) + 1
  {
    var mid := regions[i := left];
    NextIdSame(regions, mid);
    var after := mid + [right];
    assert after[..|after| - 1] == mid && after[|after| - 1] == right;
  }

  lemma {:induction false} NextIdSame(a: seq<RegionInfo>, b: seq<RegionInfo>)
    requires |a| == |b| && forall i :: 0 <= i < |a| ==> a[i].regionId == b[i].regionId
    ensures NextId(a) == NextId(b)
    decreases |a|
  {
    if a != [] {
      NextIdSame(a[..|a| - 1], b[..|b| - 1]);
    }
  }

  /** PD and the store decide alike: both tables are split or neither is. */
  lemma SplitInSync(pd: Pd.Metadata, s: Shards, id: nat, key: Text)
    requires PdRuns.RangesOk(pd) && ShardingRuns.Sound(s) && ShardingRuns.Roomy(s) && InSync(pd, s)
    ensures Wired(s)
    ensures var (pd', st) := Pd.SplitRegion(pd, id, key);
            var (s', st') := Sharding.SplitRegion(s, id, key);
            st == st' && InSync(pd', s')
  {
    hide ShardingRuns.Sound, PdRuns.RangesOk, CanSplit, Pd.SplitRegion, Sharding.SplitRegion, FindById, ShardingRuns.SplitResult;
    ShardingRuns.SplitMoves(s, id, key);
    PdRuns.SplitShape(pd, id, key);
    var (pd', st) := Pd.SplitRegion(pd, id, key);
    var (s', st') := Sharding.SplitRegion(s, id, key);
    var i := FindById(s.regions, id);
    if i < |s.regions| {
      SameSplit(pd.regions[id], s.regions[i], key);
      if st == Ok {
        SplitTable(s, s', i, key);
        SplitTables(pd, pd', s, s', i, key);
      }
    }
  }

  lemma SameSplit(a: RegionInfo, b: RegionInfo, key: Text)
    requires SameRange(a, b)
    ensures CanSplit(a, key) <==> CanSplit(b, key)
  {}

  lemma SplitTable(s: Shards, t: Shards, i: nat, key: Text)
    requires ShardingRuns.Sound(s) && i < |s.regions| && ShardingRuns.SplitResult(s, t, i, key)
    ensures t.regions == s.regions[i := LeftOf(s.regions[i], key)] + [RightOf(s.regions[i], key, NextId(s.regions))]
    ensures ShardingRuns.DistinctIds(s.regions)
  {
    hide ShardingRuns.TableSplit, Lockstep.InStep, ShardingRuns.GroupOk, ShardingRuns.Migrated;
    ShardingRuns.TableSplitIs(s.regions, t.regions, i, key);
  }

  lemma SplitTables(pd: Pd.Metadata, pd': Pd.Metadata, s: Shards, t: Shards, i: nat, key: Text)
    requires InSync(pd, s) && ShardingRuns.DistinctIds(s.regions) && i < |s.regions| && PdRuns.IsSplit(pd, pd', s.regions[i].regionId, key)
    requires t.regions == s.regions[i := LeftOf(s.regions[i], key)] + [RightOf(s.regions[i], key, NextId(s.regions))]
    ensures InSync(pd', t)
  {
    hide NextId, FindById, PdRuns.IsSplit;
    PdRuns.SplitRows(pd, pd', s.regions[i].regionId, key);
    var right := NextId(s.regions);
    NextIdSplit(s.regions, i, LeftOf(s.regions[i], key), RightOf(s.regions[i], key, right));
    forall j | 0 <= j < |t.regions|
      ensures t.regions[j].regionId in pd'.regions && SameRange(pd'.regions[t.regions[j].regionId], t.regions[j])
      ensures pd'.regions[t.regions[j].regionId].epoch.version == t.regions[j].epoch.version
    {
      if j < |s.regions| {
        assert s.regions[j].regionId in pd.regions && SameRange(pd.regions[s.regions[j].regionId], s.regions[j]);
        assert pd.regions[s.regions[j].regionId].epoch.version == s.regions[j].epoch.version;
      }
    }
    forall x | x in pd'.regions ensures FindById(t.regions, x) < |t.regions| {
      if x == right {
        assert t.regions[|s.regions|].regionId == x;
      } else {
        var j := FindById(s.regions, x);
        assert t.regions[j].regionId == x;
      }
    }
  }

  /** Splitting only makes regions finer, so a coarse range stays coarse. */
  lemma SplitCoarse(r: RegionInfo, regions: seq<RegionInfo>, i: nat, key: Text, id: nat)
    requires Coarse(r, regions) && i < |regions| && CanSplit(regions[i], key)
    ensures Coarse(r, regions[i := LeftOf(regions[i], key)] + [RightOf(regions[i], key, id)])
  {
    hide ContainsKey, CanSplit;
    var after := regions[i := LeftOf(regions[i], key)] + [RightOf(regions[i], key, id)];
    forall j, k, l | 0 <= j < |after| && ContainsKey(after[j], k) && ContainsKey(after[j], l) && ContainsKey(r, k) ensures ContainsKey(r, l) {
      ShardingRuns.Sides(regions[i], key, id, k);
      ShardingRuns.Sides(regions[i], key, id, l);
      var from := if j < |regions| then j else i;
      assert ContainsKey(regions[from], k) && ContainsKey(regions[from], l);
    }
  }
}
