/** What one gateway does with any cache, any PD and any store: where a route comes from, when the store refuses it, and exactly
    when a call is tried a second time. */
module GatewayLaws {
  import opened Basics
  import opened Regions
  import Pd
  import IdOrder
  import opened Sharding
  import opened ShardLaws
  import opened Gateway

  /** The cached region with the least id among those that contain the key. */
  ghost predicate IsHit(cache: map<nat, RegionInfo>, key: Text, id: nat) {
    && id in cache && ContainsKey(cache[id], key)
    && forall x :: x in cache && x < id ==> !ContainsKey(cache[x], key)
  }

  lemma {:induction false} HitIsLeast(cache: map<nat, RegionInfo>, ids: seq<nat>, key: Text, id: nat)
    requires IdOrder.Rising(ids) && (forall x :: x in ids ==> x in cache)
    requires id in ids && ContainsKey(cache[id], key) && forall x :: x in ids && x < id ==> !ContainsKey(cache[x], key)
    ensures FirstHit(cache, ids, key) == Some(cache[id])
    decreases |ids|
  {
    hide ContainsKey;
    if ids[0] != id {
      var k :| 0 <= k < |ids| && ids[k] == id;
      assert ids[0] < ids[k] && ids[1..][k - 1] == id;
      HitIsLeast(cache, ids[1..], key, id);
    }
  }

  /** A cached route is used as it is; without one PD is asked, and its answer is kept under the region's id. */
  lemma ResolveExactly(w: World, key: Text)
    ensures forall id :: IsHit(w.cache, key, id) ==> ResolveRoute(w, key) == (w, Success(w.cache[id]))
    ensures Unknown(w.cache, key) ==>
              ResolveRoute(w, key) == match Pd.GetRegionByKey(w.pd, key)
                                      case None => (w, Failure(RegionNotFound))
                                      case Some(r) => (World(w.pd, w.shards, w.cache[r.regionId := r]), Success(r))
  {
    hide ContainsKey, Pd.GetRegionByKey, FirstHit, IdOrder.SortedIds;
    forall id | IsHit(w.cache, key, id) ensures ResolveRoute(w, key) == (w, Success(w.cache[id])) {
      HitIsLeast(w.cache, IdOrder.SortedIds(w.cache.Keys), key, id);
    }
  }

  ghost predicate Unknown(cache: map<nat, RegionInfo>, key: Text) {
    forall x :: x in cache ==> !ContainsKey(cache[x], key)
  }

  /** The store acts only on a route that names the first region containing the key. */
  lemma ServeExactly(s: Shards, regionId: nat, call: Call)
    requires Wired(s) && Routed(call)
    ensures Unowned(s.regions, KeyOf(call)) ==> Serve(s, regionId, call) == (s, Refused(RegionNotFound))
    ensures forall i: nat :: Owner(s.regions, KeyOf(call), i) ==>
              Serve(s, regionId, call) == if s.regions[i].regionId == regionId then Execute(s, call) else (s, Refused(StaleEpoch))
  {
    hide ContainsKey, Execute, Wired;
    forall i: nat | Owner(s.regions, KeyOf(call), i)
      ensures Serve(s, regionId, call) == if s.regions[i].regionId == regionId then Execute(s, call) else (s, Refused(StaleEpoch))
    {
      OwnerFound(s.regions, KeyOf(call), i);
    }
  }

  /** A reply is passed on unless it says stale epoch, region not found or not leader. Then, and only then, the cache is emptied,
      PD is asked, and the call goes out once more with its route; the second reply is final. */
  lemma RetryExactly(w: World, regionId: nat, call: Call)
    requires Wired(w.shards) && Routed(call)
    ensures var (s1, first) := Serve(w.shards, regionId, call);
            && Wired(s1)
            && var result := CallStoreWithRouteRetry(w, regionId, call);
            if first != Refused(StaleEpoch) && first != Refused(RegionNotFound) && first != Refused(NotLeader)
            then result == (World(w.pd, s1, w.cache), first)
            else
              match Pd.GetRegionByKey(w.pd, KeyOf(call))
              case None => result == (World(w.pd, s1, map[]), Refused(RegionNotFound))
              case Some(r) =>
                var (s2, second) := Serve(s1, r.regionId, call); result == (World(w.pd, s2, map[r.regionId := r]), second)
  {
    hide Serve, Wired, Pd.GetRegionByKey, CacheGet;
    ServeWired(w.shards, regionId, call);
    Empty(KeyOf(call));
  }

  lemma Empty(key: Text)
    ensures CacheGet(map[], key) == None
  {}
}
