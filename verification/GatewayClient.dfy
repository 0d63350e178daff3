/** `RouteCache` and `RpcGatewayClient` as objects over PD and the store. */
module GatewayClient {
  import opened Basics
  import opened KvEngine
  import opened Regions
  import opened IdOrder
  import Pd
  import opened PdService
  import opened ShardCluster
  import Sharding
  import opened Gateway

  class RouteCache {
    var entries: map<nat, RegionInfo>

    constructor ()
      ensures entries == map[]
    {
      entries := map[];
    }

    method Put(region: RegionInfo)
      modifies this
      ensures entries == old(entries)[region.regionId := region]
    {
      entries := entries[region.regionId := region];
    }

    method Clear()
      modifies this
      ensures entries == map[]
    {
      entries := map[];
    }

    method GetByKey(key: Text) returns (r: Option<RegionInfo>)
      ensures r == CacheGet(entries, key)
    {
      hide ContainsKey, FirstHit;
      var ids := SortedIds(entries.Keys);
      var i := 0;
      while i < |ids|
        invariant 0 <= i <= |ids|
        invariant forall j :: 0 <= j < i ==> !ContainsKey(entries[ids[j]], key)
      {
        if ContainsKey(entries[ids[i]], key) {
          FirstHitAt(entries, ids, key, i);
          return Some(entries[ids[i]]);
        }
        i := i + 1;
      }
      FirstHitAt(entries, ids, key, i);
      return None;
    }
  }

  /** A search loop that stopped at `i` found what the search finds. */
  lemma {:induction false} FirstHitAt(cache: map<nat, RegionInfo>, ids: seq<nat>, key: Text, i: nat)
    requires (forall id :: id in ids ==> id in cache) && i <= |ids|
    requires forall j :: 0 <= j < i ==> !ContainsKey(cache[ids[j]], key)
    requires i < |ids| ==> ContainsKey(cache[ids[i]], key)
    ensures FirstHit(cache, ids, key) == if i < |ids| then Some(cache[ids[i]]) else None
    decreases |ids|
  {
    hide ContainsKey;
    if i > 0 {
      assert forall j :: 0 <= j < |ids[1..]| ==> ids[1..][j] == ids[j + 1];
      FirstHitAt(cache, ids[1..], key, i - 1);
    }
  }

  class RpcGatewayClient {
    const cache: RouteCache
    const pd: PdServer
    const store: MultiRegionCluster

    constructor (pd: PdServer, store: MultiRegionCluster)
      ensures this.pd == pd && this.store == store && fresh(cache) && AsWorld() == World(pd.metadata.Value(), store.Value(), map[])
    {
      this.pd := pd;
      this.store := store;
      cache := new RouteCache();
    }

    function AsWorld(): World
      reads cache, pd.metadata, store
    {
      World(pd.metadata.Value(), store.Value(), cache.entries)
    }

    method ResolveRoute(key: Text) returns (r: Result<RegionInfo>)
      modifies cache
      ensures (AsWorld(), r) == Gateway.ResolveRoute(old(AsWorld()), key)
    {
      hide CacheGet, Pd.GetRegionByKey;
      var cached := cache.GetByKey(key);
      if cached.Some? {
        return Success(cached.value);
      }
      var found := pd.metadata.GetRegionByKey(key);
      if found.None? {
        return Failure(RegionNotFound);
      }
      cache.Put(found.value);
      return Success(found.value);
    }

    /** The store's handlers: validate the route, then act. */
    method CallStore(regionId: nat, call: Call) returns (reply: Reply)
      requires Sharding.Wired(store.Value()) && Routed(call)
      modifies store
      ensures (store.Value(), reply) == Serve(old(store.Value()), regionId, call)
    {
      hide Sharding.Wired, Sharding.Put, Sharding.Delete, Sharding.Batch, Sharding.Get;
      var i := store.FindRegionByKey(KeyOf(call));
      if i == |store.regions| {
        return Refused(RegionNotFound);
      }
      if store.regions[i].regionId != regionId {
        return Refused(StaleEpoch);
      }
      match call
      case PutCall(key, value) =>
        var status := store.Put(key, value);
        return AsReply(status);
      case DeleteCall(key) =>
        var status := store.Delete(key);
        return AsReply(status);
      case BatchCall(mus) =>
        var status := store.Batch(mus);
        return AsReply(status);
      case GetCall(key, linearizable) =>
        var value := store.Get(key, linearizable);
        return match value case Success(v) => Found(v) case Failure(code) => Refused(code);
    }

    method CallStoreWithRouteRetry(regionId: nat, call: Call) returns (reply: Reply)
      requires Sharding.Wired(store.Value()) && Routed(call)
      modifies cache, store
      ensures (AsWorld(), reply) == Gateway.CallStoreWithRouteRetry(old(AsWorld()), regionId, call)
    {
      hide Serve, Sharding.Wired, CacheGet, Pd.GetRegionByKey;
      ServeWired(store.Value(), regionId, call);
      reply := CallStore(regionId, call);
      if !IsRouteStaleError(reply) {
        return;
      }
      cache.Clear();
      var route := ResolveRoute(KeyOf(call));
      if route.Failure? {
        return Refused(route.code);
      }
      reply := CallStore(route.value.regionId, call);
    }

    method Request(call: Call) returns (reply: Reply)
      requires Sharding.Wired(store.Value()) && !call.BatchCall?
      modifies cache, store
      ensures (AsWorld(), reply) == Gateway.Request(old(AsWorld()), call)
    {
      hide Sharding.Wired, Gateway.CallStoreWithRouteRetry, CacheGet, Pd.GetRegionByKey;
      var route := ResolveRoute(KeyOf(call));
      if route.Failure? {
        return Refused(route.code);
      }
      reply := CallStoreWithRouteRetry(route.value.regionId, call);
    }

    method Batch(mus: seq<Mutation>) returns (reply: Reply)
      requires Sharding.Wired(store.Value())
      modifies cache, store
      ensures (AsWorld(), reply) == SubmitBatch(old(AsWorld()), mus)
    {
      hide Sharding.Wired, Gateway.CallStoreWithRouteRetry, CacheGet, Pd.GetRegionByKey, Gateway.ResolveRoute;
      if mus == [] {
        return Done;
      }
      ResolveOnlyCaches(AsWorld(), mus[0].key);
      var route := ResolveRoute(mus[0].key);
      if route.Failure? {
        return Refused(route.code);
      }
      ghost var start := AsWorld();
      var i := 0;
      assert mus[0..] == mus;
      while i < |mus|
        invariant 0 <= i <= |mus| && store.Value() == old(store.Value()) && pd.metadata.Value() == old(pd.metadata.Value())
        invariant ResolveAll(AsWorld(), route.value.regionId, mus[i..]) == ResolveAll(start, route.value.regionId, mus)
      {
        assert mus[i..][0] == mus[i] && mus[i..][1..] == mus[i + 1..];
        ResolveOnlyCaches(AsWorld(), mus[i].key);
        var next := ResolveRoute(mus[i].key);
        if next.Failure? {
          return Refused(next.code);
        }
        if next.value.regionId != route.value.regionId {
          return Refused(InvalidArgument);
        }
        i := i + 1;
      }
      assert mus[i..] == [];
      reply := CallStoreWithRouteRetry(route.value.regionId, BatchCall(mus));
    }

    method SplitRegion(regionId: nat, key: Text) returns (status: Status)
      requires Sharding.Wired(store.Value())
      modifies cache, pd.metadata, pd`disk, store
      ensures (AsWorld(), status) == Gateway.SplitRegion(old(AsWorld()), regionId, key)
    {
      hide Sharding.Wired, Pd.SplitRegion, Sharding.SplitRegion;
      status := pd.SplitRegion(regionId, key);
      if status != Ok {
        return;
      }
      status := store.SplitRegion(regionId, key);
      cache.Clear();
    }
  }

  lemma ResolveOnlyCaches(w: World, key: Text)
    ensures var v := Gateway.ResolveRoute(w, key).0; v == w.(cache := v.cache)
  {
    hide CacheGet, Pd.GetRegionByKey;
  }
}
