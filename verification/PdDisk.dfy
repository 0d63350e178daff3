/** The placement driver with its catalog file: which operations write it, and what a restart brings back. */
module PdDisk {
  import opened Basics
  import opened Regions
  import opened Pd
  import opened PdRuns
  import Serialization
  import opened Catalog

  /** The tables in memory and the text of `pd.catalog`. */
  datatype Server = Server(memory: Metadata, disk: Text)

  datatype Step = Do(op: Op) | Restart

  /** A server that finds no catalog writes one at once. */
  function FirstStart(): Server {
    Server(EMPTY, Persist(EMPTY))
  }

  /** The operations that end with `Persist`: those that succeed, except a bootstrap that finds a region there already. */
  predicate Saves(m: Metadata, op: Op) {
    Perform(m, op).1 == Ok && !(op.BootstrapOp? && m.regions != map[])
  }

  /** A bootstrap that names an unknown store, on an empty region table: ids are drawn, and it ends without `Persist`. */
  predicate DrawsOnly(m: Metadata, op: Op) {
    op.BootstrapOp? && m.regions == map[] && op.ids != [] && exists i :: 0 <= i < |op.ids| && op.ids[i] !in m.stores
  }

  function Take(s: Server, step: Step): Server {
    match step
    case Do(op) => var n := Perform(s.memory, op).0; Server(n, if Saves(s.memory, op) then Persist(n) else s.disk)
    case Restart => s.(memory := Load(EMPTY, s.disk).0)
  }

  /** A restart would bring back exactly what is in memory. */
  ghost predicate Synced(s: Server) {
    Load(EMPTY, s.disk) == (s.memory, Ok)
  }

  // ---- One step ----

  lemma SavedIsSynced(m: Metadata)
    requires PdOk(m) && Fits(m)
    ensures Synced(Server(m, Persist(m)))
  {
    hide PdOk, Fits, Load, Persist, Keyed;
    OrderedKeyed(m);
    CatalogRoundTrip(m, EMPTY);
  }

  lemma DrawnCounters(m: Metadata, op: Op)
    requires DrawsOnly(m, op)
    ensures var n := Perform(m, op).0;
            n == m.(nextRegion := n.nextRegion, nextPeer := n.nextPeer) && m.nextRegion < n.nextRegion && m.nextPeer <= n.nextPeer
    ensures !Saves(m, op)
  {
    var i :| 0 <= i < |op.ids| && op.ids[i] !in m.stores;
  }

  /** An operation that neither saves nor just draws ids changes nothing. */
  lemma IdleStep(m: Metadata, op: Op)
    requires PdOk(m) && !Saves(m, op) && !DrawsOnly(m, op)
    ensures Perform(m, op).0 == m
  {
    hide MembersOk, ContainsKey, CanSplit, Disjoint, Covering, Indexed, Proper, Dropped, FindPeer, FindPeerByStore;
    if op.BootstrapOp? {
      assert FirstMissing(m, op.ids) == |op.ids| || op.ids[FirstMissing(m, op.ids)] !in m.stores;
    }
  }

  /** From a state that a restart would bring back, an operation leads to such a state exactly when it is not a bootstrap
      that only draws ids. */
  lemma StepLaw(s: Server, op: Op)
    requires PdOk(s.memory) && Synced(s) && Fits(Perform(s.memory, op).0) && (op.BootstrapOp? ==> Distinct(op.ids))
    ensures Synced(Take(s, Do(op))) <==> !DrawsOnly(s.memory, op)
  {
    hide PdOk, Fits, Load, Persist, Perform, Saves, DrawsOnly;
    PerformKeeps(s.memory, op);
    var n := Perform(s.memory, op).0;
    if DrawsOnly(s.memory, op) {
      DrawnCounters(s.memory, op);
    } else if Saves(s.memory, op) {
      SavedIsSynced(n);
    } else {
      IdleStep(s.memory, op);
    }
  }

  // ---- Runs ----

  /** A run from the first start, with restarts anywhere. The numbers fit their C++ types throughout. */
  ghost predicate IsServerRun(states: seq<Server>, steps: seq<Step>) {
    && |states| == |steps| + 1
    && states[0] == FirstStart()
    && (forall k :: 0 <= k < |steps| ==> states[k + 1] == Take(states[k], steps[k]))
    && (forall k :: 0 <= k < |steps| && steps[k].Do? && steps[k].op.BootstrapOp? ==> Distinct(steps[k].op.ids))
    && (forall k :: 0 <= k < |states| ==> Fits(states[k].memory))
  }

  predicate Draws(s: Server, step: Step) {
    step.Do? && DrawsOnly(s.memory, step.op)
  }

  /** The step brings memory and file together. */
  predicate Settles(s: Server, step: Step) {
    step.Restart? || Saves(s.memory, step.op)
  }

  /** Ids were drawn by a refused bootstrap, and nothing was written or restarted since. */
  ghost predicate DrawnSince(states: seq<Server>, steps: seq<Step>, k: nat)
    requires |states| == |steps| + 1 && k <= |steps|
  {
    exists i :: 0 <= i < k && Draws(states[i], steps[i]) && forall j :: i < j < k ==> !Settles(states[j], steps[j])
  }

  lemma DrawnNext(states: seq<Server>, steps: seq<Step>, k: nat)
    requires |states| == |steps| + 1 && 0 < k <= |steps|
    ensures DrawnSince(states, steps, k)
       <==> Draws(states[k - 1], steps[k - 1]) || (DrawnSince(states, steps, k - 1) && !Settles(states[k - 1], steps[k - 1]))
  {
    hide Draws, Settles;
    if DrawnSince(states, steps, k) {
      var i :| 0 <= i < k && Draws(states[i], steps[i]) && forall j :: i < j < k ==> !Settles(states[j], steps[j]);
      assert i < k - 1 ==> !Settles(states[k - 1], steps[k - 1]);
    }
    if DrawnSince(states, steps, k - 1) && !Settles(states[k - 1], steps[k - 1]) {
      var i :| 0 <= i < k - 1 && Draws(states[i], steps[i]) && forall j :: i < j < k - 1 ==> !Settles(states[j], steps[j]);
      assert forall j :: i < j < k ==> !Settles(states[j], steps[j]);
    }
  }

  /** The file holds the tables in memory but for the two counters, which may be lower there. */
  ghost predicate Trails(s: Server) {
    var (l, status) := Load(EMPTY, s.disk);
    && status == Ok && PdOk(l)
    && l == s.memory.(nextRegion := l.nextRegion, nextPeer := l.nextPeer)
    && l.nextRegion <= s.memory.nextRegion && l.nextPeer <= s.memory.nextPeer
  }

  /** The file is behind. */
  ghost predicate Lags(s: Server) {
    Trails(s) && Load(EMPTY, s.disk).0.nextRegion < s.memory.nextRegion
  }

  ghost predicate ServerOk(s: Server, drawn: bool) {
    PdOk(s.memory) && if drawn then Lags(s) else Synced(s)
  }

  lemma OpKeeps(s: Server, op: Op, drawn: bool)
    requires ServerOk(s, drawn) && Fits(Perform(s.memory, op).0) && (op.BootstrapOp? ==> Distinct(op.ids))
    ensures ServerOk(Take(s, Do(op)), DrawsOnly(s.memory, op) || (drawn && !Saves(s.memory, op)))
  {
    hide PdOk, Fits, Load, Persist, Perform, Saves, DrawsOnly, Distinct;
    PerformKeeps(s.memory, op);
    if DrawsOnly(s.memory, op) {
      DrawnCounters(s.memory, op);
    } else if Saves(s.memory, op) {
      SavedIsSynced(Perform(s.memory, op).0);
    } else {
      IdleStep(s.memory, op);
    }
  }

  lemma RestartKeeps(s: Server, drawn: bool)
    requires ServerOk(s, drawn)
    ensures ServerOk(Take(s, Restart), false)
  {
    hide PdOk, Load;
  }

  lemma FirstStartOk()
    ensures ServerOk(FirstStart(), false)
  {
    EmptyOk();
    assert Fits(EMPTY);
    hide PdOk, Fits, Persist;
    SavedIsSynced(EMPTY);
  }

  lemma {:induction false} ServerRuns(states: seq<Server>, steps: seq<Step>, k: nat)
    requires IsServerRun(states, steps) && k < |states|
    ensures ServerOk(states[k], DrawnSince(states, steps, k))
    decreases k
  {
    hide ServerOk, Take, Fits, DrawsOnly, Saves, DrawnSince, FirstStart, Perform, Distinct;
    if k == 0 {
      FirstStartOk();
      NoneDrawn(states, steps);
    } else {
      ServerRuns(states, steps, k - 1);
      DrawnNext(states, steps, k);
      var s, step := states[k - 1], steps[k - 1];
      assert states[k] == Take(s, step);
      if step.Restart? {
        RestartKeeps(s, DrawnSince(states, steps, k - 1));
      } else {
        TakenMemory(s, step.op);
        SaveIsNoDraw(s.memory, step.op);
        OpKeeps(s, step.op, DrawnSince(states, steps, k - 1));
      }
    }
  }

  lemma NoneDrawn(states: seq<Server>, steps: seq<Step>)
    requires |states| == |steps| + 1
    ensures !DrawnSince(states, steps, 0)
  {}

  lemma TakenMemory(s: Server, op: Op)
    ensures Take(s, Do(op)).memory == Perform(s.memory, op).0
  {}

  lemma SaveIsNoDraw(m: Metadata, op: Op)
    ensures DrawsOnly(m, op) ==> !Saves(m, op)
  {
    hide Saves, DrawsOnly;
    if DrawsOnly(m, op) {
      DrawnCounters(m, op);
    }
  }

  /** In every run, restarts included: the metadata stays in order, and a restart would bring back exactly what is in memory
      unless ids were drawn by a refused bootstrap since the last write or restart. In that case everything but the next
      region and peer ids comes back, and those are lower. */
  lemma RestartExactly(states: seq<Server>, steps: seq<Step>, k: nat)
    requires IsServerRun(states, steps) && k < |states|
    ensures PdOk(states[k].memory)
    ensures Synced(states[k]) <==> !DrawnSince(states, steps, k)
    ensures Trails(states[k])
  {
    hide IsServerRun, PdOk, Load, DrawnSince;
    ServerRuns(states, steps, k);
  }

  /** The failing case: register store 1, then bootstrap over stores 1 and 99. The bootstrap is refused after it drew
      region id 1 and peer id 1, and a restart draws them again. */
  lemma RefusedBootstrapIsForgotten(store: StoreInfo) returns (states: seq<Server>, steps: seq<Step>)
    requires store.storeId == 1 && Serialization.StoreFits(store)
    ensures IsServerRun(states, steps) && |steps| == 2
    ensures steps == [Do(RegisterOp(store)), Do(BootstrapOp([1, 99]))] && Perform(states[1].memory, steps[1].op).1 == Error(StoreNotFound)
    ensures states[2].memory.nextRegion == states[2].memory.nextPeer == 2
    ensures var (l, status) := Load(EMPTY, states[2].disk); status == Ok && l.nextRegion == l.nextPeer == 1 && l.stores == states[2].memory.stores
  {
    hide Persist, Load, PdOk, Serialization.StoreFits;
    steps := [Do(RegisterOp(store)), Do(BootstrapOp([1, 99]))];
    var s0 := FirstStart();
    var s1 := Take(s0, steps[0]);
    var m := Metadata(map[1 := store], map[], map[], 2, 1, 1);
    assert s1 == Server(m, Persist(m));
    var s2 := Take(s1, steps[1]);
    MissingSecond(m, store);
    states := [s0, s1, s2];
    assert IsServerRun(states, steps);
    RegisteredOk(store);
    SavedIsSynced(m);
  }

  lemma RegisteredOk(store: StoreInfo)
    requires store.storeId == 1
    ensures PdOk(Metadata(map[1 := store], map[], map[], 2, 1, 1))
  {}

  lemma MissingSecond(m: Metadata, store: StoreInfo)
    requires m == Metadata(map[1 := store], map[], map[], 2, 1, 1)
    ensures Perform(m, BootstrapOp([1, 99])) == (m.(nextRegion := 2, nextPeer := 2), Error(StoreNotFound))
  {
    assert [1, 99][0] in m.stores && [1, 99][1] !in m.stores;
    assert FirstMissing(m, [1, 99]) == 1;
  }
}
