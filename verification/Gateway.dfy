/** The gateway: cached routes, one retry after a stale route, and splits that go to PD first and then to the store. */
module Gateway {
  import opened Basics
  import opened KvEngine
  import opened RegionNode
  import opened Regions
  import opened IdOrder
  import Pd
  import opened Sharding
  import ShardingRuns
  import GroupRuns
  import GroupLaws
  import SingleRegion

  /** PD, the store service and this gateway's route cache. */
  datatype World = World(pd: Pd.Metadata, shards: Shards, cache: map<nat, RegionInfo>)

  datatype Call =
    | PutCall(key: Text, value: Text)
    | DeleteCall(key: Text)
    | BatchCall(mus: seq<Mutation>)
    | GetCall(key: Text, linearizable: bool)

  datatype Reply = Done | Found(value: Text) | Refused(code: ErrorCode)

  // ---- Routes ----

  function FirstHit(cache: map<nat, RegionInfo>, ids: seq<nat>, key: Text): (r: Option<RegionInfo>)
    requires forall id :: id in ids ==> id in cache
    ensures r.Some? ==> ContainsKey(r.value, key) && exists id :: id in cache && cache[id] == r.value
    ensures r.None? ==> forall id :: id in ids ==> !ContainsKey(cache[id], key)
  {
    if ids == [] then None
    else if ContainsKey(cache[ids[0]], key) then Some(cache[ids[0]])
    else FirstHit(cache, ids[1..], key)
  }

  /** The first cached region, in id order, that contains the key. */
  function CacheGet(cache: map<nat, RegionInfo>, key: Text): Option<RegionInfo> {
    FirstHit(cache, SortedIds(cache.Keys), key)
  }

  function ResolveRoute(w: World, key: Text): (World, Result<RegionInfo>) {
    match CacheGet(w.cache, key)
    case Some(r) => (w, Success(r))
    case None =>
      match Pd.GetRegionByKey(w.pd, key)
      case None => (w, Failure(RegionNotFound))
      case Some(r) => (w.(cache := w.cache[r.regionId := r]), Success(r))
  }

  // ---- The store service ----

  function ValidateRoute(s: Shards, regionId: nat, key: Text): Status {
    var i := FindByKey(s.regions, key);
    if i == |s.regions| then Error(RegionNotFound)
    else if s.regions[i].regionId != regionId then Error(StaleEpoch)
    else Ok
  }

  function AsReply(status: Status): Reply {
    match status
    case Ok => Done
    case Error(code) => Refused(code)
  }

  /** The operation itself. */
  function Execute(s: Shards, call: Call): (Shards, Reply)
    requires Wired(s)
  {
    match call
    case PutCall(key, value) => var (t, st) := Sharding.Put(s, key, value); (t, AsReply(st))
    case DeleteCall(key) => var (t, st) := Sharding.Delete(s, key); (t, AsReply(st))
    case BatchCall(mus) => var (t, st) := Batch(s, mus); (t, AsReply(st))
    case GetCall(key, linearizable) =>
      (s, match Get(s, key, linearizable) case Success(v) => Found(v) case Failure(code) => Refused(code))
  }

  predicate Routed(call: Call) {
    call.BatchCall? ==> call.mus != []
  }

  function KeyOf(call: Call): Text
    requires Routed(call)
  {
    if call.BatchCall? then call.mus[0].key else call.key
  }

  /** A handler: the route is validated against the store's own table before anything is done. */
  function Serve(s: Shards, regionId: nat, call: Call): (Shards, Reply)
    requires Wired(s) && Routed(call)
  {
    match ValidateRoute(s, regionId, KeyOf(call))
    case Error(code) => (s, Refused(code))
    case Ok => Execute(s, call)
  }

  // ---- The gateway ----

  predicate IsRouteStaleError(reply: Reply) {
    reply in {Refused(StaleEpoch), Refused(RegionNotFound), Refused(NotLeader)}
  }

  ghost predicate UserCall(call: Call) {
    match call
    case PutCall(key, _) => IsUserKey(key)
    case DeleteCall(key) => IsUserKey(key)
    case BatchCall(mus) => GroupRuns.UserMus(mus)
    case GetCall(key, _) => IsUserKey(key)
  }

  ghost function OpOf(call: Call): ShardingRuns.Op
    requires !call.GetCall?
  {
    match call
    case PutCall(key, value) => ShardingRuns.PutOp(key, value)
    case DeleteCall(key) => ShardingRuns.DeleteOp(key)
    case BatchCall(mus) => ShardingRuns.BatchOp(mus)
  }

  /** A cluster in a state that its own operations produce, and a call that keeps to user keys. */
  ghost predicate Ready(s: Shards, call: Call) {
    && ShardingRuns.Sound(s) && ShardingRuns.Roomy(s) && UserCall(call) && Routed(call)
    && exists m :: ShardingRuns.Represents(s, m)
  }

  /** From such a state the operation itself never reports a stale route, and the store stays sound. */
  lemma ExecuteNotStale(s: Shards, call: Call)
    requires Ready(s, call)
    ensures Wired(s) && !IsRouteStaleError(Execute(s, call).1) && Wired(Execute(s, call).0)
  {
    hide ShardingRuns.Sound, ShardingRuns.Represents, ShardingRuns.Roomy, IsUserKey, Wired;
    var m :| ShardingRuns.Represents(s, m);
    ShardingRuns.SoundWired(s);
    if call.GetCall? {
      ShardingRuns.GetReadsMap(s, m, call.key, call.linearizable);
    } else {
      ShardingRuns.PerformKeeps(s, OpOf(call), m);
      ShardingRuns.SoundWired(Execute(s, call).0);
      if call.BatchCall? {
        BatchCodes(s, call.mus);
      }
    }
  }

  /** A batch is done or refused as not belonging to one region. */
  lemma BatchCodes(s: Shards, mus: seq<Mutation>)
    requires ShardingRuns.Sound(s) && ShardingRuns.Roomy(s) && GroupRuns.UserMus(mus) && (exists m :: ShardingRuns.Represents(s, m))
    ensures Wired(s) && Batch(s, mus).1 in {Ok, Error(InvalidArgument)}
  {
    hide ShardingRuns.Sound, ShardingRuns.Represents, ShardingRuns.Roomy, IsUserKey, ContainsKey;
    ShardingRuns.SoundWired(s);
    ShardingRuns.TiledOf(s);
    if mus != [] {
      ShardingRuns.OwnerExists(s.regions, mus[0].key);
      var i := FindByKey(s.regions, mus[0].key);
      if SameTarget(s.regions, s.regions[i].regionId, mus) {
        var m :| ShardingRuns.Represents(s, m);
        ShardingRuns.BatchTargets(s, i, mus);
        ShardingRuns.GroupWrite(s, i, GroupRuns.BatchOp(mus), mus, m);
      }
    }
  }

  /** Whatever the operation does, every region keeps a group of well-formed replicas. */
  lemma ExecuteWired(s: Shards, call: Call)
    requires Wired(s)
    ensures Wired(Execute(s, call).0)
  {
    hide SingleRegion.ProposeAndReplicate, SingleRegion.AllValid, FindByKey, Sharding.Get, SameTarget;
    if !call.GetCall? && Routed(call) {
      var i := FindByKey(s.regions, KeyOf(call));
      if i < |s.regions| {
        var g := s.clusters[s.regions[i].regionId];
        forall command ensures SingleRegion.AllValid(SingleRegion.ProposeAndReplicate(g, command).0.stores) {
          GroupLaws.ProposeValid(g, command);
        }
      }
    }
  }

  lemma ServeWired(s: Shards, regionId: nat, call: Call)
    requires Wired(s) && Routed(call)
    ensures Wired(Serve(s, regionId, call).0)
  {
    hide Wired, Execute;
    ExecuteWired(s, call);
  }

  /** A store call with the route `regionId`: on a stale route forget the cache, ask PD, and try once more. */
  function CallStoreWithRouteRetry(w: World, regionId: nat, call: Call): (World, Reply)
    requires Wired(w.shards) && Routed(call)
  {
    hide Wired;
    ServeWired(w.shards, regionId, call);
    var (s1, reply) := Serve(w.shards, regionId, call);
    if !IsRouteStaleError(reply) then (w.(shards := s1), reply)
    else
      var (w2, route) := ResolveRoute(World(w.pd, s1, map[]), KeyOf(call));
      match route
      case Failure(code) => (w2, Refused(code))
      case Success(r) => var (s2, again) := Serve(s1, r.regionId, call); (w2.(shards := s2), again)
  }

  lemma RoutedOf(s: Shards, call: Call)
    requires Ready(s, call)
    ensures Routed(call) && Wired(s)
  {
    hide Wired, UserCall, ShardingRuns.Sound;
    ShardingRuns.SoundWired(s);
  }

  /** Put, Delete and Get: resolve the key's route, then call. */
  function Request(w: World, call: Call): (World, Reply)
    requires Wired(w.shards) && !call.BatchCall?
  {
    var (w1, route) := ResolveRoute(w, KeyOf(call));
    match route
    case Failure(code) => (w1, Refused(code))
    case Success(r) => CallStoreWithRouteRetry(w1, r.regionId, call)
  }

  /** The routes of all keys of a batch, resolved one after the other, must name one region. */
  function ResolveAll(w: World, regionId: nat, mus: seq<Mutation>): (World, Status)
    decreases |mus|
  {
    if mus == [] then (w, Ok)
    else
      match ResolveRoute(w, mus[0].key)
      case (w1, Failure(code)) => (w1, Error(code))
      case (w1, Success(r)) => if r.regionId != regionId then (w1, Error(InvalidArgument)) else ResolveAll(w1, regionId, mus[1..])
  }

  function SubmitBatch(w: World, mus: seq<Mutation>): (World, Reply)
    requires Wired(w.shards)
  {
    if mus == [] then (w, Done)
    else
      match ResolveRoute(w, mus[0].key)
      case (w1, Failure(code)) => (w1, Refused(code))
      case (w1, Success(r)) =>
        var (w2, st) := ResolveAll(w1, r.regionId, mus);
        ResolveAllKeeps(w1, r.regionId, mus);
        match st
        case Error(code) => (w2, Refused(code))
        case Ok => CallStoreWithRouteRetry(w2, r.regionId, BatchCall(mus))
  }

  lemma {:induction false} ResolveAllKeeps(w: World, regionId: nat, mus: seq<Mutation>)
    ensures ResolveAll(w, regionId, mus).0 == w.(cache := ResolveAll(w, regionId, mus).0.cache)
    decreases |mus|
  {
    hide CacheGet, Pd.GetRegionByKey;
    if mus != [] {
      var (w1, route) := ResolveRoute(w, mus[0].key);
      ResolveAllKeeps(w1, regionId, mus[1..]);
    }
  }

  /** A split goes to PD and, when PD agrees, to the store; the cache is dropped. */
  function SplitRegion(w: World, regionId: nat, key: Text): (World, Status)
    requires Wired(w.shards)
  {
    var (pd, st) := Pd.SplitRegion(w.pd, regionId, key);
    if st != Ok then (w.(pd := pd), st)
    else
      var (shards, st2) := Sharding.SplitRegion(w.shards, regionId, key);
      (World(pd, shards, map[]), st2)
  }
}
