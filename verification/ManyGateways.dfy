/** Any number of gateways over one PD and one store, with every split as the two calls it is: PD first, the store later. */
module ManyGateways {
  import opened Basics
  import opened KvEngine
  import opened RegionNode
  import opened Regions
  import Pd
  import PdRuns
  import opened Sharding
  import ShardingRuns
  import GroupRuns
  import opened Gateway
  import opened GatewayRuns

  /** A split that PD has done and the store has not. */
  datatype Window = Window(gateway: nat, regionId: nat, key: Text)

  /** Each gateway has a cache of its own. */
  datatype Scene = Scene(pd: Pd.Metadata, shards: Shards, caches: map<nat, map<nat, RegionInfo>>, window: Option<Window>)

  datatype Step =
    | Submit(gateway: nat, call: Call)
    | SplitPd(gateway: nat, regionId: nat, key: Text)
    | SplitStore

  // ---- The window ----

  /** The region table as the store will have it. */
  function TargetTable(regions: seq<RegionInfo>, i: nat, key: Text): seq<RegionInfo>
    requires i < |regions|
  {
    regions[i := LeftOf(regions[i], key)] + [RightOf(regions[i], key, NextId(regions))]
  }

  ghost predicate CanOpen(s: Shards, win: Window) {
    FindById(s.regions, win.regionId) < |s.regions| && CanSplit(s.regions[FindById(s.regions, win.regionId)], win.key)
  }

  /** The table that PD agrees with. */
  ghost function Seen(s: Shards, window: Option<Window>): Shards {
    match window
    case None => s
    case Some(win) =>
      var i := FindById(s.regions, win.regionId);
      if i < |s.regions| then s.(regions := TargetTable(s.regions, i, win.key)) else s
  }

  /** The key is in the right half of the split under way. */
  ghost predicate Moving(s: Shards, window: Option<Window>, k: Text) {
    window.Some? && CanOpen(s, window.value)
    && var i := FindById(s.regions, window.value.regionId); ContainsKey(RightOf(s.regions[i], window.value.key, NextId(s.regions)), k)
  }

  ghost predicate WindowOk(w: World, window: Option<Window>) {
    && TablesOk(At(w, Seen(w.shards, window)))
    && ShardingRuns.Tiled(w.shards.regions) && ShardingRuns.DistinctIds(w.shards.regions)
    && (window.Some? ==> CanOpen(w.shards, window.value))
  }

  /** PD's route: the store's own region, but for a key that is moving, whose new region the store does not know yet. */
  lemma WindowRoute(w: World, window: Option<Window>, k: Text)
    requires WindowOk(w, window)
    ensures var r := Pd.GetRegionByKey(w.pd, k);
            var i := FindByKey(w.shards.regions, k);
            && r.Some? && i < |w.shards.regions|
            && r.value.regionId == (if Moving(w.shards, window, k) then NextId(w.shards.regions) else w.shards.regions[i].regionId)
            && (Moving(w.shards, window, k) ==> window.Some? && w.shards.regions[i].regionId == window.value.regionId != NextId(w.shards.regions))
  {
    hide Pd.GetRegionByKey, PdRuns.RangesOk, InSync, ShardingRuns.Tiled, ContainsKey, CanSplit, FindByKey, FindById;
    var s, t := w.shards, Seen(w.shards, window);
    ShardingRuns.OwnerExists(s.regions, k);
    TablesAgree(w.pd, t, k);
    var j := FindByKey(s.regions, k);
    if window.Some? {
      var i := FindById(s.regions, window.value.regionId);
      var key, id := window.value.key, NextId(s.regions);
      ShardingRuns.Sides(s.regions[i], key, id, k);
      if Moving(s, window, k) {
        ShardingRuns.OwnerIs(s.regions, i, k);
        assert t.regions[|s.regions|] == RightOf(s.regions[i], key, id);
        ShardingRuns.OwnerIs(t.regions, |s.regions|, k);
      } else {
        assert t.regions[j] == if j == i then LeftOf(s.regions[i], key) else s.regions[j];
        ShardingRuns.OwnerIs(t.regions, j, k);
      }
    }
  }

  // ---- One call ----

  /** The call fails in the window: its key is moving, and its route is not the old region. */
  ghost predicate Blocked(w: World, window: Option<Window>, regionId: nat, k: Text) {
    Moving(w.shards, window, k) && regionId != window.value.regionId
  }

  /** Whatever route a call carries, it does exactly what the operation does, unless its key is moving and its route does
      not name the old region: then it comes back as stale after its retry, and nothing has changed. */
  lemma CallOutcome(w: World, window: Option<Window>, regionId: nat, call: Call)
    requires Ready(w.shards, call) && WindowOk(w, window)
    ensures Wired(w.shards)
    ensures var (v, reply) := CallStoreWithRouteRetry(w, regionId, call);
            && v.pd == w.pd
            && if Blocked(w, window, regionId, KeyOf(call))
               then v.shards == w.shards && reply == Refused(StaleEpoch)
               else (v.shards, reply) == Execute(w.shards, call) && !IsRouteStaleError(reply)
  {
    hide Execute, Pd.GetRegionByKey, CacheGet, Ready, WindowOk, Moving, Wired;
    ExecuteNotStale(w.shards, call);
    RoutedOf(w.shards, call);
    EmptyCache(KeyOf(call));
    WindowRoute(w, window, KeyOf(call));
    ServeBy(w.shards, regionId, call);
    ServeBy(w.shards, Pd.GetRegionByKey(w.pd, KeyOf(call)).value.regionId, call);
    hide Serve;
  }

  /** A handler with its route validated or not. */
  lemma ServeBy(s: Shards, regionId: nat, call: Call)
    requires Wired(s) && Routed(call) && FindByKey(s.regions, KeyOf(call)) < |s.regions|
    ensures Serve(s, regionId, call)
         == if s.regions[FindByKey(s.regions, KeyOf(call))].regionId == regionId then Execute(s, call) else (s, Refused(StaleEpoch))
  {
    hide Execute, Wired;
  }

  /** The route that a key resolves to names the region of the split under way, from a cache that is still good. */
  ghost predicate CachedOld(w: World, window: Option<Window>, k: Text) {
    window.Some? && CacheGet(w.cache, k).Some? && CacheGet(w.cache, k).value.regionId == window.value.regionId
  }

  /** A put, delete or get is the operation on the store exactly when its key is not moving or the cache still has the old
      region for it. */
  lemma RequestOutcome(w: World, window: Option<Window>, call: Call)
    requires Ready(w.shards, call) && !call.BatchCall? && WindowOk(w, window)
    ensures Wired(w.shards)
    ensures var (v, reply) := Request(w, call);
            && v.pd == w.pd
            && if Moving(w.shards, window, KeyOf(call)) && !CachedOld(w, window, KeyOf(call))
               then v.shards == w.shards && reply == Refused(StaleEpoch)
               else (v.shards, reply) == Execute(w.shards, call) && !IsRouteStaleError(reply)
  {
    hide Execute, Pd.GetRegionByKey, CacheGet, Ready, WindowOk, Moving, Wired, CallStoreWithRouteRetry;
    RoutedOf(w.shards, call);
    WindowRoute(w, window, KeyOf(call));
    ResolveKeeps(w, KeyOf(call));
    var (v, route) := ResolveRoute(w, KeyOf(call));
    CacheFree(w, v, window);
    CallOutcome(v, window, route.value.regionId, call);
  }

  lemma CacheFree(w: World, v: World, window: Option<Window>)
    requires WindowOk(w, window) && v == w.(cache := v.cache)
    ensures WindowOk(v, window)
  {
    hide PdRuns.RangesOk, InSync, ShardingRuns.Tiled, ShardingRuns.DistinctIds, CanOpen;
  }

  // ---- Batches ----

  ghost predicate NoneMoving(s: Shards, window: Option<Window>, mus: seq<Mutation>) {
    forall j :: 0 <= j < |mus| ==> !Moving(s, window, mus[j].key)
  }

  lemma WindowTables(w: World, window: Option<Window>)
    requires WindowOk(w, window)
    ensures TablesOk(At(w, Seen(w.shards, window)))
  {}

  /** A batch is the operation on the store or is refused with nothing changed. */
  lemma BatchSafe(w: World, window: Option<Window>, mus: seq<Mutation>)
    requires mus != [] && Ready(w.shards, BatchCall(mus)) && WindowOk(w, window)
    ensures Wired(w.shards)
    ensures var (v, reply) := SubmitBatch(w, mus);
            && v.pd == w.pd
            && ((v.shards, reply) == Execute(w.shards, BatchCall(mus))
                || (v.shards == w.shards && (reply == Refused(InvalidArgument)
                                             || (reply == Refused(StaleEpoch) && Moving(w.shards, window, mus[0].key)))))
  {
    hide Execute, Ready, WindowOk, Moving, CallStoreWithRouteRetry, ResolveRoute, Wired, TablesOk, IsRouteStaleError;
    var t := Seen(w.shards, window);
    ExecuteNotStale(w.shards, BatchCall(mus));
    WindowTables(w, window);
    ResolvesSeen(w, t, mus[0].key);
    var (w1, route) := ResolveRoute(w, mus[0].key);
    ResolvesAllSeen(w1, t, route.value.regionId, mus);
    ResolveAllKeeps(w1, route.value.regionId, mus);
    var w2 := ResolveAll(w1, route.value.regionId, mus).0;
    CacheFree(w, w2, window);
    CallOutcome(w2, window, route.value.regionId, BatchCall(mus));
  }

  lemma ResolvesSeen(w: World, t: Shards, key: Text)
    requires TablesOk(At(w, t))
    ensures var (v, route) := ResolveRoute(w, key); route.Success? && v == w.(cache := v.cache) && TablesOk(At(v, t))
  {
    hide PdRuns.RangesOk, InSync, ShardingRuns.Tiled, ResolveRoute;
    ResolveIgnoresStore(w, t, key);
    Resolves(At(w, t), key);
    ResolveKeeps(w, key);
  }

  lemma ResolvesAllSeen(w: World, t: Shards, regionId: nat, mus: seq<Mutation>)
    requires TablesOk(At(w, t))
    ensures ResolveAll(w, regionId, mus).1 in {Ok, Error(InvalidArgument)}
  {
    hide PdRuns.RangesOk, InSync, ShardingRuns.Tiled, ResolveRoute;
    ResolveAllIgnoresStore(w, t, regionId, mus);
    ResolvesAll(At(w, t), regionId, mus);
  }

  /** Keys of one region that are not moving are in one region of PD's table too. */
  lemma TargetsSeen(s: Shards, window: Option<Window>, i: nat, mus: seq<Mutation>)
    requires window.Some? ==> CanOpen(s, window.value)
    requires i < |s.regions| && ShardingRuns.Targets(s.regions[i], mus) && NoneMoving(s, window, mus)
    ensures i < |Seen(s, window).regions| && ShardingRuns.Targets(Seen(s, window).regions[i], mus)
  {
    hide ContainsKey, CanSplit, IsUserKey, FindById;
    if window.Some? && i == FindById(s.regions, window.value.regionId) {
      forall j | 0 <= j < |mus| ensures ContainsKey(Seen(s, window).regions[i], mus[j].key) {
        ShardingRuns.Sides(s.regions[i], window.value.key, NextId(s.regions), mus[j].key);
      }
    }
  }

  /** With a coarse cache and no key moving, a batch is exactly the operation on the store. */
  lemma BatchOutcome(w: World, window: Option<Window>, mus: seq<Mutation>)
    requires mus != [] && Ready(w.shards, BatchCall(mus)) && WindowOk(w, window) && NoneMoving(w.shards, window, mus)
    requires CoarseCache(w.cache, Seen(w.shards, window).regions)
    ensures Wired(w.shards)
    ensures var (v, reply) := SubmitBatch(w, mus); v.pd == w.pd && (v.shards, reply) == Execute(w.shards, BatchCall(mus))
  {
    hide Ready, WindowOk, Moving, CoarseCache, SubmitBatch, Wired, ShardingRuns.Targets, Batch, CallStoreWithRouteRetry, Seen;
    BatchSafe(w, window, mus);
    BatchDecided(w.shards, mus);
    if i :| 0 <= i < |w.shards.regions| && ShardingRuns.Targets(w.shards.regions[i], mus) {
      WindowTables(w, window);
      WindowOpens(w, window);
      TargetsSeen(w.shards, window, i, mus);
      var w1, regionId := OneRegionPasses(w, Seen(w.shards, window), mus, i);
      CacheFree(w, w1, window);
      CallOutcome(w1, window, regionId, BatchCall(mus));
    }
  }

  lemma WindowOpens(w: World, window: Option<Window>)
    requires WindowOk(w, window)
    ensures window.Some? ==> CanOpen(w.shards, window.value)
  {}

  // ---- Scenes ----

  ghost function View(sc: Scene, g: nat): World
    requires g in sc.caches
  {
    World(sc.pd, sc.shards, sc.caches[g])
  }

  ghost predicate SceneOk(sc: Scene, m: Store) {
    && PdRuns.PdOk(sc.pd) && ShardingRuns.Sound(sc.shards) && ShardingRuns.Represents(sc.shards, m)
    && (sc.window.Some? ==> CanOpen(sc.shards, sc.window.value) && sc.window.value.gateway in sc.caches)
    && InSync(sc.pd, Seen(sc.shards, sc.window))
    && forall g :: g in sc.caches ==> CoarseCache(sc.caches[g], Seen(sc.shards, sc.window).regions)
  }

  /** User keys, room in the logs, and one split at a time. */
  ghost predicate Allowed(sc: Scene, step: Step) {
    && ShardingRuns.Roomy(sc.shards)
    && match step
       case Submit(g, call) => g in sc.caches && UserCall(call)
       case SplitPd(g, _, _) => g in sc.caches && sc.window.None?
       case SplitStore => sc.window.Some?
  }

  ghost predicate Healthy(sc: Scene) {
    exists m :: SceneOk(sc, m)
  }

  lemma SceneReady(sc: Scene, m: Store, call: Call)
    requires SceneOk(sc, m) && ShardingRuns.Roomy(sc.shards) && UserCall(call)
    ensures Wired(sc.shards) && (Routed(call) ==> Ready(sc.shards, call))
  {
    hide ShardingRuns.Sound, ShardingRuns.Represents, UserCall, Routed, ShardingRuns.Roomy, PdRuns.PdOk, InSync, CoarseCache, Wired;
    ShardingRuns.SoundWired(sc.shards);
  }

  lemma HealthyWired(sc: Scene)
    requires Healthy(sc)
    ensures Wired(sc.shards)
  {
    hide ShardingRuns.Sound, ShardingRuns.Represents, PdRuns.PdOk, InSync, CoarseCache, Wired;
    var m :| SceneOk(sc, m);
    ShardingRuns.SoundWired(sc.shards);
  }

  lemma SceneTables(sc: Scene, m: Store, g: nat)
    requires SceneOk(sc, m) && g in sc.caches
    ensures WindowOk(View(sc, g), sc.window) && CoarseCache(sc.caches[g], Seen(sc.shards, sc.window).regions)
  {
    hide ShardingRuns.Represents, InSync, CoarseCache, PdRuns.RangesOk, PdRuns.MembersOk, ShardingRuns.Tiled, ShardingRuns.GroupOk, CanSplit, FindById;
    if sc.window.Some? {
      var i := FindById(sc.shards.regions, sc.window.value.regionId);
      ShardingRuns.SplitTiles(sc.shards.regions, i, sc.window.value.key, NextId(sc.shards.regions));
    }
  }

  ghost function Perform(sc: Scene, step: Step): (Scene, Reply)
    requires Healthy(sc) && Allowed(sc, step)
  {
    hide Healthy, UserCall;
    HealthyWired(sc);
    match step
    case Submit(g, call) =>
      var (v, reply) := if call.BatchCall? then SubmitBatch(View(sc, g), call.mus) else Request(View(sc, g), call);
      (Scene(v.pd, v.shards, sc.caches[g := v.cache], sc.window), reply)
    case SplitPd(g, regionId, key) =>
      var (pd, st) := Pd.SplitRegion(sc.pd, regionId, key);
      (sc.(pd := pd, window := if st == Ok then Some(Window(g, regionId, key)) else None), AsReply(st))
    case SplitStore =>
      var win := sc.window.value;
      var (shards, st) := Sharding.SplitRegion(sc.shards, win.regionId, win.key);
      (Scene(sc.pd, shards, sc.caches[win.gateway := map[]], None), AsReply(st))
  }

  /** The two steps together are the gateway's own operation. */
  lemma SplitIsTwoCalls(w: World, regionId: nat, key: Text)
    requires Wired(w.shards)
    ensures var (pd, st) := Pd.SplitRegion(w.pd, regionId, key);
            var (shards, st2) := Sharding.SplitRegion(w.shards, regionId, key);
            Gateway.SplitRegion(w, regionId, key) == if st == Ok then (World(pd, shards, map[]), st2) else (w.(pd := pd), st)
  {
    hide Pd.SplitRegion, Sharding.SplitRegion;
  }

  // ---- What each step does ----

  /** What the step does to a plain map. */
  function Meaning(m: Store, step: Step, reply: Reply): Store {
    if !step.Submit? || reply != Done then m else CallMeaning(m, step.call)
  }

  function CallMeaning(m: Store, call: Call): Store {
    match call
    case PutCall(key, value) => m[key := value]
    case DeleteCall(key) => m - {key}
    case BatchCall(mus) => MutateAll(m, mus)
    case GetCall(_, _) => m
  }

  lemma ExecuteMeans(s: Shards, call: Call, m: Store)
    requires ShardingRuns.Sound(s) && ShardingRuns.Represents(s, m) && ShardingRuns.Roomy(s) && UserCall(call)
    ensures Wired(s)
    ensures var (t, reply) := Execute(s, call);
            && ShardingRuns.Sound(t) && ShardingRuns.Represents(t, (if reply == Done then CallMeaning(m, call) else m))
            && (call.PutCall? || call.DeleteCall? ==> reply == Done)
            && (call.GetCall? ==> reply == if call.key in m then Found(m[call.key]) else Refused(KeyNotFound))
  {
    hide ShardingRuns.Sound, ShardingRuns.Represents, ShardingRuns.Roomy, IsUserKey, Wired, Sharding.Put, Sharding.Delete, Batch, MutateAll;
    ShardingRuns.SoundWired(s);
    if call.GetCall? {
      ShardingRuns.GetReadsMap(s, m, call.key, call.linearizable);
    } else {
      ShardingRuns.PerformKeeps(s, OpOf(call), m);
    }
  }

  lemma {:induction false} ExecuteTables(s: Shards, call: Call)
    requires Wired(s)
    ensures Execute(s, call).0.regions == s.regions
  {
    hide SameTarget, FindByKey;
  }

  /** A batch is done exactly when one region holds all its keys; otherwise it is refused as spanning several. */
  ghost predicate BatchDone(regions: seq<RegionInfo>, mus: seq<Mutation>, reply: Reply) {
    && (reply == Done <==> mus == [] || exists i :: 0 <= i < |regions| && ShardingRuns.Targets(regions[i], mus))
    && (reply != Done ==> reply == Refused(InvalidArgument))
  }

  lemma SyncIgnoresData(pd: Pd.Metadata, s: Shards, t: Shards)
    requires InSync(pd, s) && t.regions == s.regions
    ensures InSync(pd, t)
  {}

  lemma EmptySubmit(w: World)
    requires Wired(w.shards)
    ensures SubmitBatch(w, []) == (w, Done)
  {}

  /** The reply to a request for a key. */
  ghost predicate KeyReply(m: Store, call: Call, blocked: bool, reply: Reply) {
    if blocked then reply == Refused(StaleEpoch)
    else if call.GetCall? then reply == (if call.key in m then Found(m[call.key]) else Refused(KeyNotFound))
    else reply == Done
  }

  /** The request fails: its key is moving and the gateway's cache does not have the old region for it. */
  ghost predicate Stalled(sc: Scene, g: nat, k: Text)
    requires g in sc.caches
  {
    Moving(sc.shards, sc.window, k) && !CachedOld(View(sc, g), sc.window, k)
  }

  /** What a request gets back. */
  ghost predicate SubmitReply(sc: Scene, m: Store, g: nat, call: Call, reply: Reply)
    requires g in sc.caches
  {
    if !call.BatchCall? then KeyReply(m, call, Stalled(sc, g, KeyOf(call)), reply)
    else if NoneMoving(sc.shards, sc.window, call.mus) then BatchDone(sc.shards.regions, call.mus, reply)
    else
      reply in {Done, Refused(InvalidArgument), Refused(StaleEpoch)}
      && (reply == Done ==> exists i :: 0 <= i < |sc.shards.regions| && ShardingRuns.Targets(sc.shards.regions[i], call.mus))
  }

  lemma KeySubmit(sc: Scene, g: nat, call: Call, m: Store)
    requires SceneOk(sc, m) && Allowed(sc, Submit(g, call)) && !call.BatchCall?
    ensures Healthy(sc)
    ensures var (v, reply) := Perform(sc, Submit(g, call)); AfterSubmit(sc, m, g, call, v, reply)
  {
    hide ShardingRuns.Sound, ShardingRuns.Represents, ShardingRuns.Roomy, IsUserKey, Wired, PdRuns.PdOk, Execute, Request, SubmitBatch, MutateAll,
         TablesOk, Ready, CoarseCache, WindowOk, Moving, CachedOld, InSync, Seen, CanOpen;
    assert Healthy(sc);
    SceneReady(sc, m, call);
    SceneTables(sc, m, g);
    WindowTables(View(sc, g), sc.window);
    ExecuteMeans(sc.shards, call, m);
    ExecuteTables(sc.shards, call);
    RequestOutcome(View(sc, g), sc.window, call);
    RequestCoarse(View(sc, g), Seen(sc.shards, sc.window), call);
  }

  /** What a request leaves behind. */
  ghost predicate AfterSubmit(sc: Scene, m: Store, g: nat, call: Call, v: Scene, reply: Reply)
    requires g in sc.caches
  {
    && SubmitReply(sc, m, g, call, reply)
    && v.pd == sc.pd && v.window == sc.window && v.shards.regions == sc.shards.regions
    && ShardingRuns.Sound(v.shards) && ShardingRuns.Represents(v.shards, if reply == Done then CallMeaning(m, call) else m)
    && v.caches.Keys == sc.caches.Keys && (forall x :: x in sc.caches && x != g ==> v.caches[x] == sc.caches[x])
    && CoarseCache(v.caches[g], Seen(sc.shards, sc.window).regions)
  }

  lemma BatchSubmit(sc: Scene, g: nat, mus: seq<Mutation>, m: Store)
    requires SceneOk(sc, m) && Allowed(sc, Submit(g, BatchCall(mus)))
    ensures Healthy(sc)
    ensures var (v, reply) := Perform(sc, Submit(g, BatchCall(mus))); AfterSubmit(sc, m, g, BatchCall(mus), v, reply)
  {
    hide ShardingRuns.Sound, ShardingRuns.Represents, ShardingRuns.Roomy, IsUserKey, Wired, PdRuns.PdOk, Execute, Request, SubmitBatch, MutateAll,
         TablesOk, Ready, CoarseCache, WindowOk, Moving, InSync, Seen, CanOpen, ShardingRuns.Targets;
    assert Healthy(sc);
    if mus == [] {
      SceneReady(sc, m, BatchCall(mus));
      EmptySubmit(View(sc, g));
      GroupRuns.EmptyBatch(m);
      SceneTables(sc, m, g);
    } else {
      SceneReady(sc, m, BatchCall(mus));
      SceneTables(sc, m, g);
      WindowTables(View(sc, g), sc.window);
      ExecuteMeans(sc.shards, BatchCall(mus), m);
      ExecuteTables(sc.shards, BatchCall(mus));
      ExecuteDecided(sc.shards, mus);
      BatchSafe(View(sc, g), sc.window, mus);
      if NoneMoving(sc.shards, sc.window, mus) {
        BatchOutcome(View(sc, g), sc.window, mus);
      }
      BatchCoarse(View(sc, g), Seen(sc.shards, sc.window), mus);
    }
  }

  lemma ExecuteDecided(s: Shards, mus: seq<Mutation>)
    requires mus != [] && Ready(s, BatchCall(mus))
    ensures Wired(s) && BatchDone(s.regions, mus, Execute(s, BatchCall(mus)).1)
  {
    hide Ready, Batch, Wired, ShardingRuns.Targets;
    BatchDecided(s, mus);
  }

  lemma SubmitKeeps(sc: Scene, g: nat, call: Call, m: Store)
    requires SceneOk(sc, m) && Allowed(sc, Submit(g, call))
    ensures Healthy(sc)
    ensures var (v, reply) := Perform(sc, Submit(g, call)); SubmitReply(sc, m, g, call, reply) && SceneOk(v, Meaning(m, Submit(g, call), reply))
  {
    hide ShardingRuns.Sound, ShardingRuns.Represents, ShardingRuns.Roomy, Perform, PdRuns.PdOk, SubmitReply, CoarseCache, UserCall, CallMeaning;
    if call.BatchCall? {
      BatchSubmit(sc, g, call.mus, m);
    } else {
      KeySubmit(sc, g, call, m);
    }
    var (v, reply) := Perform(sc, Submit(g, call));
    SeenSame(sc.pd, sc.shards, v.shards, sc.window);
  }

  /** The tables do not depend on the data. */
  lemma SeenSame(pd: Pd.Metadata, s: Shards, t: Shards, window: Option<Window>)
    requires s.regions == t.regions
    ensures Seen(s, window).regions == Seen(t, window).regions
    ensures InSync(pd, Seen(s, window)) <==> InSync(pd, Seen(t, window))
    ensures window.Some? ==> (CanOpen(s, window.value) <==> CanOpen(t, window.value))
  {
    hide CanSplit, FindById, TargetTable;
  }

  /** PD's half opens the window: PD is ahead of the store by exactly this split. */
  lemma OpenKeeps(sc: Scene, g: nat, regionId: nat, key: Text, m: Store)
    requires SceneOk(sc, m) && Allowed(sc, SplitPd(g, regionId, key))
    ensures Healthy(sc)
    ensures SceneOk(Perform(sc, SplitPd(g, regionId, key)).0, m)
  {
    hide SceneOk, Pd.SplitRegion;
    assert Healthy(sc);
    var (pd, st) := Pd.SplitRegion(sc.pd, regionId, key);
    NotOpened(sc, regionId, key, m);
    if st == Ok {
      Opened(sc, g, regionId, key, m);
    } else {
      assert sc.(pd := sc.pd, window := None) == sc;
    }
  }

  /** A split that PD refuses changes nothing there. */
  lemma NotOpened(sc: Scene, regionId: nat, key: Text, m: Store)
    requires SceneOk(sc, m)
    ensures var (pd, st) := Pd.SplitRegion(sc.pd, regionId, key); st != Ok ==> pd == sc.pd
  {
    hide PdRuns.PdOk, PdRuns.IsSplit, Pd.SplitRegion, InSync, CoarseCache, ShardingRuns.Sound, ShardingRuns.Represents, CanSplit;
    PdRuns.SplitKeeps(sc.pd, regionId, key);
  }

  lemma Opened(sc: Scene, g: nat, regionId: nat, key: Text, m: Store)
    requires SceneOk(sc, m) && g in sc.caches && sc.window.None? && Pd.SplitRegion(sc.pd, regionId, key).1 == Ok
    ensures SceneOk(sc.(pd := Pd.SplitRegion(sc.pd, regionId, key).0, window := Some(Window(g, regionId, key))), m)
  {
    hide ShardingRuns.Represents, PdRuns.RangesOk, PdRuns.MembersOk, PdRuns.StoresOk, Pd.SplitRegion, CanSplit, FindById,
         ShardingRuns.GroupOk, ShardingRuns.Tiled, CoarseCache, PdRuns.IsSplit;
    PdRuns.SplitKeeps(sc.pd, regionId, key);
    var pd := Pd.SplitRegion(sc.pd, regionId, key).0;
    var i := FindById(sc.shards.regions, regionId);
    SameSplit(sc.pd.regions[regionId], sc.shards.regions[i], key);
    var t := sc.shards.(regions := TargetTable(sc.shards.regions, i, key));
    SplitTables(sc.pd, pd, sc.shards, t, i, key);
    forall x | x in sc.caches ensures CoarseCache(sc.caches[x], t.regions) {
      CacheStaysCoarse(sc.caches[x], sc.shards.regions, i, key);
    }
  }

  lemma CacheStaysCoarse(cache: map<nat, RegionInfo>, regions: seq<RegionInfo>, i: nat, key: Text)
    requires CoarseCache(cache, regions) && i < |regions| && CanSplit(regions[i], key)
    ensures CoarseCache(cache, TargetTable(regions, i, key))
  {
    hide Coarse, CanSplit;
    forall x | x in cache ensures Coarse(cache[x], TargetTable(regions, i, key)) {
      SplitCoarse(cache[x], regions, i, key, NextId(regions));
    }
  }

  /** The store's half always succeeds and closes it. */
  lemma CloseKeeps(sc: Scene, m: Store)
    requires SceneOk(sc, m) && Allowed(sc, SplitStore)
    ensures Healthy(sc)
    ensures var (v, reply) := Perform(sc, SplitStore); reply == Done && SceneOk(v, m)
  {
    hide ShardingRuns.Represents, ShardingRuns.Roomy, ShardingRuns.Sound, Wired, PdRuns.PdOk, Sharding.SplitRegion, CanSplit, FindById, CoarseCache,
         ShardingRuns.SplitResult, InSync;
    assert Healthy(sc);
    var win := sc.window.value;
    var i := FindById(sc.shards.regions, win.regionId);
    StoreHalf(sc.shards, win.regionId, win.key);
    ShardingRuns.SplitOpKeeps(sc.shards, win.regionId, win.key, m);
    var t := Sharding.SplitRegion(sc.shards, win.regionId, win.key).0;
    SyncIgnoresData(sc.pd, Seen(sc.shards, sc.window), t);
    NothingCached(t.regions);
  }

  lemma NothingCached(regions: seq<RegionInfo>)
    ensures CoarseCache(map[], regions)
  {}

  // ---- Runs ----

  ghost predicate IsRun(scenes: seq<Scene>, steps: seq<Step>, replies: seq<Reply>) {
    && |scenes| == |steps| + 1 && |replies| == |steps|
    && SceneOk(scenes[0], map[])
    && forall k :: 0 <= k < |steps| ==>
         Healthy(scenes[k]) && Allowed(scenes[k], steps[k]) && (scenes[k + 1], replies[k]) == Perform(scenes[k], steps[k])
  }

  function Meanings(steps: seq<Step>, replies: seq<Reply>): Store
    requires |steps| == |replies|
  {
    if steps == [] then map[]
    else
      var n := |steps| - 1;
      Meaning(Meanings(steps[..n], replies[..n]), steps[n], replies[n])
  }

  lemma StepKeeps(sc: Scene, step: Step, m: Store)
    requires SceneOk(sc, m) && Allowed(sc, step)
    ensures Healthy(sc)
    ensures var (v, reply) := Perform(sc, step); SceneOk(v, Meaning(m, step, reply)) && StepReply(sc, m, step, reply)
  {
    hide SceneOk, Perform, UserCall, ShardingRuns.Roomy, SubmitReply;
    match step
    case Submit(g, call) => SubmitKeeps(sc, g, call, m);
    case SplitPd(g, regionId, key) => OpenKeeps(sc, g, regionId, key, m);
    case SplitStore => CloseKeeps(sc, m);
  }

  ghost predicate StepReply(sc: Scene, m: Store, step: Step, reply: Reply) {
    match step
    case Submit(g, call) => g in sc.caches && SubmitReply(sc, m, g, call, reply)
    case SplitPd(_, _, _) => true
    case SplitStore => reply == Done
  }

  lemma {:induction false} RunOk(scenes: seq<Scene>, steps: seq<Step>, replies: seq<Reply>, k: nat)
    requires IsRun(scenes, steps, replies) && k < |scenes|
    ensures SceneOk(scenes[k], Meanings(steps[..k], replies[..k]))
    decreases k
  {
    hide SceneOk, Healthy, Allowed, Perform, Meaning, StepReply;
    if k > 0 {
      RunOk(scenes, steps, replies, k - 1);
      assert steps[..k][..k - 1] == steps[..k - 1] && replies[..k][..k - 1] == replies[..k - 1];
      StepKeeps(scenes[k - 1], steps[k - 1], Meanings(steps[..k - 1], replies[..k - 1]));
    }
  }

  /** In every run of requests through any number of gateways, with splits whose store half comes when it comes: a put,
      delete or get does what it does to one plain map, unless its key is in the right half of a split under way and the
      gateway's cache no longer has the old region for it; then it is refused as stale and changes nothing. A batch with no
      such key is done exactly when one region holds all its keys. The store's half of a split never fails. */
  lemma GatewaysServeMap(scenes: seq<Scene>, steps: seq<Step>, replies: seq<Reply>, k: nat)
    requires IsRun(scenes, steps, replies) && k < |steps|
    ensures StepReply(scenes[k], Meanings(steps[..k], replies[..k]), steps[k], replies[k])
    ensures SceneOk(scenes[k + 1], Meanings(steps[..k + 1], replies[..k + 1]))
  {
    hide SceneOk, Healthy, Perform, Allowed, Meaning, StepReply;
    RunOk(scenes, steps, replies, k);
    RunOk(scenes, steps, replies, k + 1);
    assert (scenes[k + 1], replies[k]) == Perform(scenes[k], steps[k]);
    StepKeeps(scenes[k], steps[k], Meanings(steps[..k], replies[..k]));
  }

  /** In every scene PD and the store name the same region for a key, but for the keys that are moving, and under the same
      version, but for the region of a split under way, where PD is one ahead. */
  lemma TablesInScene(sc: Scene, m: Store, g: nat, k: Text)
    requires SceneOk(sc, m) && g in sc.caches
    ensures var r := Pd.GetRegionByKey(sc.pd, k);
            var i := FindByKey(sc.shards.regions, k);
            && r.Some? && i < |sc.shards.regions|
            && (r.value.regionId == sc.shards.regions[i].regionId <==> !Moving(sc.shards, sc.window, k))
            && r.value.epoch.version == sc.shards.regions[i].epoch.version
                 + if sc.window.Some? && sc.window.value.regionId == sc.shards.regions[i].regionId then 1 else 0
  {
    hide SceneOk, WindowOk, Pd.GetRegionByKey, Moving, FindByKey;
    SceneTables(sc, m, g);
    WindowRoute(View(sc, g), sc.window, k);
    WindowVersion(View(sc, g), sc.window, k);
  }

  lemma WindowVersion(w: World, window: Option<Window>, k: Text)
    requires WindowOk(w, window)
    ensures var r := Pd.GetRegionByKey(w.pd, k);
            var i := FindByKey(w.shards.regions, k);
            && r.Some? && i < |w.shards.regions|
            && r.value.epoch.version == w.shards.regions[i].epoch.version
                 + if window.Some? && window.value.regionId == w.shards.regions[i].regionId then 1 else 0
  {
    hide Pd.GetRegionByKey, PdRuns.RangesOk, ShardingRuns.Tiled, ContainsKey, CanSplit, FindByKey, FindById, Seen, Moving, CanOpen, ShardingRuns.DistinctIds;
    WindowRoute(w, window, k);
    LookupHere(w.pd, k);
    var i := FindByKey(w.shards.regions, k);
    SeenRow(w.shards, window, i);
    if Moving(w.shards, window, k) {
      SeenRight(w.shards, window);
    }
  }

  lemma LookupHere(pd: Pd.Metadata, k: Text)
    requires PdRuns.RangesOk(pd)
    ensures var r := Pd.GetRegionByKey(pd, k); r.Some? ==> r.value.regionId in pd.regions && pd.regions[r.value.regionId] == r.value
  {
    PdRuns.LookupId(pd, k);
  }

  /** A row as PD has it: one version ahead when it is the one being split. */
  lemma SeenRow(s: Shards, window: Option<Window>, i: nat)
    requires i < |s.regions| && ShardingRuns.DistinctIds(s.regions) && (window.Some? ==> CanOpen(s, window.value))
    ensures var t := Seen(s, window);
            && i < |t.regions| && t.regions[i].regionId == s.regions[i].regionId
            && t.regions[i].epoch.version
               == s.regions[i].epoch.version + if window.Some? && window.value.regionId == s.regions[i].regionId then 1 else 0
  {
    hide CanSplit, FindById, RightOf, NextId;
    if window.Some? {
      var j := FindById(s.regions, window.value.regionId);
      assert Seen(s, window).regions[i] == if i == j then LeftOf(s.regions[j], window.value.key) else s.regions[i];
    }
  }

  lemma SeenRight(s: Shards, window: Option<Window>)
    requires window.Some? && CanOpen(s, window.value) && ShardingRuns.DistinctIds(s.regions)
    ensures var t := Seen(s, window);
            && |t.regions| == |s.regions| + 1 && t.regions[|s.regions|].regionId == NextId(s.regions)
            && forall i :: 0 <= i < |s.regions| && s.regions[i].regionId == window.value.regionId ==>
                 t.regions[|s.regions|].epoch.version == s.regions[i].epoch.version + 1
  {
    hide CanSplit, FindById, NextId;
    var j := FindById(s.regions, window.value.regionId);
    assert Seen(s, window).regions[|s.regions|] == RightOf(s.regions[j], window.value.key, NextId(s.regions));
  }

  lemma DefaultTables(pd: Pd.Metadata, ids: seq<nat>, s: Shards)
    requires pd.regions == map[] && pd.nextRegion == 1 && Pd.BootstrapDefaultRegion(pd, ids).1 == Ok
    requires |s.regions| == 1 && s.regions[0].regionId == 1 && s.regions[0].startKey == "" && s.regions[0].endKey == ""
    requires s.regions[0].epoch.version == 1
    ensures InSync(Pd.BootstrapDefaultRegion(pd, ids).0, s)
  {
    var n := Pd.BootstrapDefaultRegion(pd, ids).0;
    assert n.regions.Keys == {1} && n.nextRegion == 2;
    assert s.regions[..|s.regions| - 1] == [];
    assert NextId(s.regions) == 2;
  }

  /** The usual start: a default region with id 1 on both sides, and gateways that have cached nothing. */
  lemma DefaultStart(pd: Pd.Metadata, ids: seq<nat>, region: RegionInfo, count: nat, caches: map<nat, map<nat, RegionInfo>>)
    requires PdRuns.PdOk(pd) && pd.regions == map[] && pd.nextRegion == 1
    requires Distinct(ids) && Pd.BootstrapDefaultRegion(pd, ids).1 == Ok
    requires count != 0 && region.regionId == 1 && region.startKey == "" && region.endKey == "" && region.epoch == Epoch(1, 1)
    requires forall g :: g in caches ==> caches[g] == map[]
    ensures SceneOk(Scene(Pd.BootstrapDefaultRegion(pd, ids).0, BootShards([region], count).0, caches, None), map[])
  {
    hide PdRuns.PdOk, ShardingRuns.Sound, ShardingRuns.Represents, ShardingRuns.Tiled, ShardingRuns.DistinctIds, BootShards, CoarseCache;
    PdRuns.BootstrapKeeps(pd, ids);
    ShardingRuns.WholeSpaceTiles(region);
    ShardingRuns.BootstrapSound([region], count);
    DefaultTables(pd, ids, BootShards([region], count).0);
    hide Pd.BootstrapDefaultRegion, InSync;
    NothingCached(BootShards([region], count).0.regions);
  }

  // ---- Splits that cross ----

  lemma StoreHalf(s: Shards, id: nat, key: Text)
    requires ShardingRuns.Sound(s) && ShardingRuns.Roomy(s)
    ensures Wired(s)
    ensures var (t, st) := Sharding.SplitRegion(s, id, key);
            && (st == Ok <==> FindById(s.regions, id) < |s.regions| && CanSplit(s.regions[FindById(s.regions, id)], key))
            && (st != Ok ==> t == s)
            && (st == Ok ==> FindById(s.regions, id) < |s.regions| && t.regions == TargetTable(s.regions, FindById(s.regions, id), key)
                             && NextId(t.regions) == NextId(s.regions) + 1)
  {
    hide ShardingRuns.Sound, CanSplit, Sharding.SplitRegion, FindById, ShardingRuns.SplitResult, NextId;
    ShardingRuns.SplitMoves(s, id, key);
    var (t, st) := Sharding.SplitRegion(s, id, key);
    if st == Ok {
      var i := FindById(s.regions, id);
      SplitTable(s, t, i, key);
      NextIdSplit(s.regions, i, LeftOf(s.regions[i], key), RightOf(s.regions[i], key, NextId(s.regions)));
    }
  }

  /** Why splits come one at a time: two that PD has done, with the store's halves in the other order, leave PD and the
      store disagreeing for good, whatever regions and keys they are about. */
  lemma CrossedSplitsDisagree(pd: Pd.Metadata, s: Shards, m: Store, id1: nat, key1: Text, id2: nat, key2: Text)
    requires PdRuns.PdOk(pd) && ShardingRuns.Sound(s) && ShardingRuns.Represents(s, m) && ShardingRuns.Roomy(s) && InSync(pd, s)
    requires Pd.SplitRegion(pd, id1, key1).1 == Ok && Pd.SplitRegion(Pd.SplitRegion(pd, id1, key1).0, id2, key2).1 == Ok
    requires Wired(s) && ShardingRuns.Roomy(Sharding.SplitRegion(s, id2, key2).0)
    ensures var s1 := Sharding.SplitRegion(s, id2, key2).0;
            Wired(s1) && !SameRows(Pd.SplitRegion(Pd.SplitRegion(pd, id1, key1).0, id2, key2).0, Sharding.SplitRegion(s1, id1, key1).0)
  {
    hide ShardingRuns.Sound, ShardingRuns.Represents, ShardingRuns.Roomy, Wired, PdRuns.MembersOk, PdRuns.StoresOk, Pd.SplitRegion, Sharding.SplitRegion, NextId,
         PdRuns.RangesOk, CanSplit, FindById;
    var pd1 := Pd.SplitRegion(pd, id1, key1).0;
    var pd2 := Pd.SplitRegion(pd1, id2, key2).0;
    PdRuns.SplitKeeps(pd, id1, key1);
    PdRuns.SplitKeeps(pd1, id2, key2);
    var n := pd.nextRegion;
    StoreHalf(s, id2, key2);
    ShardingRuns.SplitOpKeeps(s, id2, key2, m);
    var s1 := Sharding.SplitRegion(s, id2, key2).0;
    ShardingRuns.SoundWired(s1);
    StoreHalf(s1, id1, key1);
    var s2 := Sharding.SplitRegion(s1, id1, key1).0;
    SplitElsewhere(pd1, id2, key2, n, key1);
    if NextId(s2.regions) == n + 2 {
      var row := s2.regions[|s.regions|];
      assert s1.regions[|s.regions|].regionId == n && s1.regions[|s.regions|].startKey == key2;
      assert row.regionId == n && row.startKey == key2;
      assert pd2.regions[n].startKey == key1;
      assert !SameRange(pd2.regions[n], row);
    }
  }

  /** A second split is never at the key of the first: that key is the start of the region it made. */
  lemma SplitElsewhere(pd: Pd.Metadata, id: nat, key: Text, n: nat, at: Text)
    requires PdRuns.RangesOk(pd) && id in pd.regions && CanSplit(pd.regions[id], key) && n in pd.regions && pd.regions[n].startKey == at
    ensures key != at
  {
    hide InRange, Proper, PdRuns.Covering;
    StartInside(pd.regions[n]);
  }
}
