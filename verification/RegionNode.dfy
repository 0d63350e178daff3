/** One peer of the distributed path: its Raft state together with the engine that persists it and holds user data. */
module RegionNode {
  import opened Basics
  import opened Codec
  import opened KvEngine
  import opened KvCommand
  import opened RaftCore
  import opened RaftLog
  import opened RaftStorage

  datatype Peer = Peer(raft: RaftState, engine: Store)

  // ---- Applying entries ----

  /** The apply loop: no-ops are skipped and the first command that does not parse ends it. */
  function ApplyEntries(m: Store, entries: seq<LogEntry>): Store
    decreases |entries|
  {
    if entries == [] then m
    else if entries[0].kind == Noop then ApplyEntries(m, entries[1..])
    else
      match ParseCommand(entries[0].command)
      case Failure(_) => m
      case Success(mus) => ApplyEntries(MutateAll(m, mus), entries[1..])
  }

  predicate IsUserKey(k: Text) {
    k != "" && !IsSystemKey(k)
  }

  /** A command as clients of the store produce it: it parses, and writes user keys only. */
  predicate GoodCommand(command: Text) {
    command != ""
    && match ParseCommand(command)
       case Failure(_) => false
       case Success(mus) => forall i :: 0 <= i < |mus| ==> IsUserKey(mus[i].key)
  }

  ghost predicate GoodEntries(entries: seq<LogEntry>) {
    forall i :: 0 <= i < |entries| ==> GoodCommand(entries[i].command)
  }

  /** The mutations a list of good entries performs. */
  ghost function Flatten(entries: seq<LogEntry>): seq<Mutation>
    requires GoodEntries(entries)
  {
    if entries == [] then []
    else (if entries[0].kind == Noop then [] else ParseCommand(entries[0].command).value) + Flatten(entries[1..])
  }

  lemma {:induction false} ApplyIsMutate(m: Store, entries: seq<LogEntry>)
    requires GoodEntries(entries)
    ensures ApplyEntries(m, entries) == MutateAll(m, Flatten(entries))
    decreases |entries|
  {
    hide ParseCommand, IsUserKey;
    if entries != [] {
      var e := entries[0];
      if e.kind == Noop {
        assert Flatten(entries) == Flatten(entries[1..]);
        ApplyIsMutate(m, entries[1..]);
      } else {
        var mus := ParseCommand(e.command).value;
        ApplyIsMutate(MutateAll(m, mus), entries[1..]);
        MutateAllAppend(m, mus, Flatten(entries[1..]));
      }
    }
  }

  lemma GoodHead(a: seq<LogEntry>)
    requires GoodEntries(a) && a != []
    ensures ParseCommand(a[0].command).Success?
  {
    hide ParseCommand, IsUserKey;
  }

  lemma {:induction false} FlattenAppend(a: seq<LogEntry>, b: seq<LogEntry>)
    requires GoodEntries(a) && GoodEntries(b)
    ensures GoodEntries(a + b) && Flatten(a + b) == Flatten(a) + Flatten(b)
    decreases |a|
  {
    hide GoodCommand, ParseCommand;
    if a == [] {
      assert a + b == b;
    } else {
      FlattenAppend(a[1..], b);
      assert (a + b)[0] == a[0] && (a + b)[1..] == a[1..] + b;
      GoodHead(a);
      var head := if a[0].kind == Noop then [] else ParseCommand(a[0].command).value;
      assert head + (Flatten(a[1..]) + Flatten(b)) == head + Flatten(a[1..]) + Flatten(b);
    }
  }

  /** Batches of good entries compose, wherever the apply loop is cut. */
  lemma ApplyAppend(m: Store, a: seq<LogEntry>, b: seq<LogEntry>)
    requires GoodEntries(a)
    ensures ApplyEntries(m, a + b) == ApplyEntries(ApplyEntries(m, a), b)
  {
    assert AllApply(a) by {
      hide ParseCommand, IsUserKey;
    }
    hide ApplyEntries, AllApply;
    CutLaw(m, a, b);
  }

  // ---- Where the apply loop is cut ----

  predicate Applies(e: LogEntry) {
    e.kind == Noop || ParseCommand(e.command).Success?
  }

  predicate AllApply(entries: seq<LogEntry>) {
    forall i :: 0 <= i < |entries| ==> Applies(entries[i])
  }

  /** One round over a + b against a round over a followed by one over b, for all entries: they do the same when every
      command of a applies; otherwise the one round ends inside a and b is lost. */
  lemma {:induction false} CutLaw(m: Store, a: seq<LogEntry>, b: seq<LogEntry>)
    ensures ApplyEntries(m, a + b) == if AllApply(a) then ApplyEntries(ApplyEntries(m, a), b) else ApplyEntries(m, a)
    decreases |a|
  {
    hide ParseCommand;
    if a == [] {
      assert a + b == b;
    } else {
      assert (a + b)[0] == a[0] && (a + b)[1..] == a[1..] + b;
      assert AllApply(a) <==> Applies(a[0]) && AllApply(a[1..]) by {
        assert forall i :: 0 < i < |a| ==> a[i] == a[1..][i - 1];
        assert forall i :: 0 <= i < |a[1..]| ==> a[1..][i] == a[i + 1];
      }
      if a[0].kind == Noop {
        CutLaw(m, a[1..], b);
      } else if Applies(a[0]) {
        CutLaw(MutateAll(m, ParseCommand(a[0].command).value), a[1..], b);
      }
    }
  }

  /** On a given map the cut makes no difference exactly when every command before it applies or the entries after it
      change nothing there. */
  lemma CutCondition(m: Store, a: seq<LogEntry>, b: seq<LogEntry>)
    ensures ApplyEntries(m, a + b) == ApplyEntries(ApplyEntries(m, a), b)
       <==> AllApply(a) || ApplyEntries(ApplyEntries(m, a), b) == ApplyEntries(m, a)
  {
    hide ApplyEntries, AllApply;
    CutLaw(m, a, b);
  }

  /** The mutations that a round performs: those before the first command that does not parse. */
  function Performed(entries: seq<LogEntry>): seq<Mutation>
    decreases |entries|
  {
    if entries == [] then []
    else if entries[0].kind == Noop then Performed(entries[1..])
    else
      match ParseCommand(entries[0].command)
      case Failure(_) => []
      case Success(mus) => mus + Performed(entries[1..])
  }

  lemma {:induction false} ApplyIsPerformed(m: Store, entries: seq<LogEntry>)
    ensures ApplyEntries(m, entries) == MutateAll(m, Performed(entries))
    decreases |entries|
  {
    hide ParseCommand;
    if entries != [] {
      if entries[0].kind == Noop {
        ApplyIsPerformed(m, entries[1..]);
      } else if ParseCommand(entries[0].command).Success? {
        var mus := ParseCommand(entries[0].command).value;
        ApplyIsPerformed(MutateAll(m, mus), entries[1..]);
        MutateAllAppend(m, mus, Performed(entries[1..]));
      }
    }
  }

  /** Every key that `q` writes was last written the same way by `p`. */
  ghost predicate Repeats(p: seq<Mutation>, q: seq<Mutation>) {
    forall k :: LastWrite(q, k).Some? ==> LastWrite(p, k) == LastWrite(q, k)
  }

  lemma RepeatsChangesNothing(m: Store, p: seq<Mutation>, q: seq<Mutation>)
    requires Repeats(p, q)
    ensures MutateAll(MutateAll(m, p), q) == MutateAll(m, p)
  {
    hide MutateAll, LastWrite;
    var x := MutateAll(m, p);
    forall k ensures SameAt(MutateAll(x, q), x, k) {
      LastWriteDecides(x, q, k);
      LastWriteDecides(m, p, k);
    }
    SameEverywhere(MutateAll(x, q), x);
  }

  /** A key that `q` writes differently shows on the empty map or on the map that holds just this key. */
  lemma NoRepeatShows(p: seq<Mutation>, q: seq<Mutation>, k: Text) returns (m: Store)
    requires LastWrite(q, k).Some? && LastWrite(p, k) != LastWrite(q, k)
    ensures MutateAll(MutateAll(m, p), q) != MutateAll(m, p)
  {
    hide MutateAll, LastWrite;
    m := if LastWrite(q, k) == Some(None) then map[k := ""] else map[];
    LastWriteDecides(m, p, k);
    LastWriteDecides(MutateAll(m, p), q, k);
  }

  /** Over all maps the cut never makes a difference exactly when every command before it applies, or the entries after
      it only repeat what the round had last written. */
  lemma CutNeverMatters(a: seq<LogEntry>, b: seq<LogEntry>)
    ensures (forall m :: ApplyEntries(m, a + b) == ApplyEntries(ApplyEntries(m, a), b))
       <==> AllApply(a) || Repeats(Performed(a), Performed(b))
  {
    hide ApplyEntries, AllApply, Performed, MutateAll, LastWrite;
    var p, q := Performed(a), Performed(b);
    if AllApply(a) || Repeats(p, q) {
      forall m ensures ApplyEntries(m, a + b) == ApplyEntries(ApplyEntries(m, a), b) {
        CutCondition(m, a, b);
        ApplyIsPerformed(m, a);
        ApplyIsPerformed(ApplyEntries(m, a), b);
        if Repeats(p, q) {
          RepeatsChangesNothing(m, p, q);
        }
      }
    } else {
      var k :| LastWrite(q, k).Some? && LastWrite(p, k) != LastWrite(q, k);
      var m := NoRepeatShows(p, q, k);
      CutCondition(m, a, b);
      ApplyIsPerformed(m, a);
      ApplyIsPerformed(ApplyEntries(m, a), b);
      assert ApplyEntries(m, a + b) != ApplyEntries(ApplyEntries(m, a), b);
    }
  }

  /** A case that clients can produce: a batch with an empty key, then a put. A replica that applies both in one round
      loses the put; one that applies them in two rounds has it. */
  lemma EmptyKeyDiverges(m: Store, bad: LogEntry, good: LogEntry)
    requires bad.kind == Normal && bad.command == EncodeBatch([Mutation(Put, "", "")])
    requires good.kind == Normal && good.command == EncodePut("k", "v")
    requires "k" !in m
    ensures ApplyEntries(m, [bad, good]) != ApplyEntries(ApplyEntries(m, [bad]), [good])
  {
    EmptyKeyBatchFails();
    PutRoundTrip("k", "v");
    hide ParseCommand, EncodePut, EncodeBatch;
    assert [bad, good][0] == bad && [good][1..] == [];
    var put := Mutation(Put, "k", "v");
    assert [put][1..] == [];
    assert MutateAll(m, [put]) == Mutate(m, put);
    assert ApplyEntries(MutateAll(m, [put]), []) == MutateAll(m, [put]);
  }

  // ---- Recovery after a crash between apply and persist ----

  /** After a crash that kept the applied data but not the new positions, the node applies entries a..d again on top
      of the state at c. That gives the state at d exactly when every key on which the states at c and d differ is
      written again. */
  lemma RecoveryCondition(m: Store, log: seq<LogEntry>, a: nat, c: nat, d: nat)
    requires GoodEntries(log) && a <= c <= |log| && a <= d <= |log|
    ensures GoodEntries(log[a..d])
    ensures ApplyEntries(ApplyEntries(m, log[..c]), log[a..d]) == ApplyEntries(m, log[..d])
       <==> forall k :: Touches(Flatten(log[a..d]), k) || SameAt(ApplyEntries(m, log[..c]), ApplyEntries(m, log[..d]), k)
  {
    hide GoodCommand, ApplyEntries, Flatten, MutateAll, SameAt, Touches;
    var x, y, again := ApplyEntries(m, log[..c]), ApplyEntries(m, log[..d]), Flatten(log[a..d]);
    ApplyIsMutate(x, log[a..d]);
    assert log[..d] == log[..a] + log[a..d];
    ApplyAppend(m, log[..a], log[a..d]);
    ApplyIsMutate(ApplyEntries(m, log[..a]), log[a..d]);
    ReapplyIsIdempotentWhole(ApplyEntries(m, log[..a]), again);
    RewriteCondition(x, y, again);
  }

  lemma ReapplyIsIdempotentWhole(m: Store, mus: seq<Mutation>)
    ensures MutateAll(MutateAll(m, mus), mus) == MutateAll(m, mus)
  {
    assert mus[..|mus|] == mus;
    ReapplyIsIdempotent(m, mus, |mus|);
  }

  lemma RewriteCondition(x: Store, y: Store, mus: seq<Mutation>)
    requires MutateAll(y, mus) == y
    ensures MutateAll(x, mus) == y <==> forall k :: Touches(mus, k) || SameAt(x, y, k)
  {
    if forall k :: Touches(mus, k) || SameAt(x, y, k) {
      BatchDecides(x, y, mus);
    }
    if MutateAll(x, mus) == y {
      forall k ensures Touches(mus, k) || SameAt(x, y, k) {
        if !Touches(mus, k) {
          UntouchedStays(x, mus, k);
        }
      }
    }
  }

  /** In particular recovery is right once the node has caught up with what it had applied. */
  lemma RecoveryAfterCatchUp(m: Store, log: seq<LogEntry>, a: nat, c: nat, d: nat)
    requires GoodEntries(log) && a <= c <= d <= |log|
    ensures ApplyEntries(ApplyEntries(m, log[..c]), log[a..d]) == ApplyEntries(m, log[..d])
  {
    hide GoodCommand, ApplyEntries, Flatten, MutateAll, SameAt, Touches;
    RecoveryCondition(m, log, a, c, d);
    var x := ApplyEntries(m, log[..c]);
    var late := Flatten(log[c..d]);
    assert log[..d] == log[..c] + log[c..d] && log[a..d] == log[a..c] + log[c..d];
    ApplyAppend(m, log[..c], log[c..d]);
    ApplyIsMutate(x, log[c..d]);
    FlattenAppend(log[a..c], log[c..d]);
    forall k ensures Touches(Flatten(log[a..d]), k) || SameAt(x, ApplyEntries(m, log[..d]), k) {
      if Touches(late, k) {
        TouchesLate(Flatten(log[a..c]), late, k);
      } else {
        UntouchedStays(x, late, k);
      }
    }
  }

  lemma TouchesLate(a: seq<Mutation>, b: seq<Mutation>, k: Text)
    requires Touches(b, k)
    ensures Touches(a + b, k)
  {
    var i :| 0 <= i < |b| && b[i].key == k;
    assert (a + b)[|a| + i].key == k;
  }

  /** Before that point it can be wrong: here a later write stays visible while only the first entry counts as applied. */
  lemma RecoveryTooEarly(e1: LogEntry, e2: LogEntry)
    requires e1.kind == Normal && ParseCommand(e1.command) == Success([Mutation(Put, "x", "1")])
    requires e2.kind == Normal && ParseCommand(e2.command) == Success([Mutation(Put, "y", "2")])
    ensures ApplyEntries(ApplyEntries(map[], [e1, e2]), [e1]) != ApplyEntries(map[], [e1])
  {
    hide ParseCommand;
    assert [e1, e2][1..] == [e2] && [e1][1..] == [] && [e2][1..] == [];
    var p: Mutation, q: Mutation := Mutation(Put, "x", "1"), Mutation(Put, "y", "2");
    assert [p][1..] == [] && [q][1..] == [];
    var one := MutateAll(map[], [p]);
    assert one == Mutate(map[], p) == map["x" := "1"];
    assert ApplyEntries(map[], [e1]) == one;
    var two := MutateAll(one, [q]);
    assert two == Mutate(one, q);
    assert ApplyEntries(map[], [e1, e2]) == ApplyEntries(one, [e2]) == two;
    assert ApplyEntries(two, [e1]) == MutateAll(two, [p]) == Mutate(two, p);
    assert "x"[0] != "y"[0];
    assert "y" in Mutate(two, p) && "y" !in one;
  }

  // ---- User data and system keys ----

  lemma {:induction false} UserMutations(m: Store, mus: seq<Mutation>)
    requires forall i :: 0 <= i < |mus| ==> IsUserKey(mus[i].key)
    ensures UserMap(MutateAll(m, mus)) == MutateAll(UserMap(m), mus)
    ensures forall k :: IsSystemKey(k) ==> SameAt(MutateAll(m, mus), m, k)
    decreases |mus|
  {
    hide IsSystemKey;
    if mus != [] {
      assert UserMap(Mutate(m, mus[0])) == Mutate(UserMap(m), mus[0]);
      UserMutations(Mutate(m, mus[0]), mus[1..]);
    }
  }

  lemma {:induction false} FlattenUser(entries: seq<LogEntry>)
    requires GoodEntries(entries)
    ensures forall i :: 0 <= i < |Flatten(entries)| ==> IsUserKey(Flatten(entries)[i].key)
    decreases |entries|
  {
    hide ParseCommand, IsUserKey;
    if entries != [] {
      FlattenUser(entries[1..]);
    }
  }

  /** Applying good entries acts on the user map alone. */
  lemma ApplyUser(m: Store, entries: seq<LogEntry>)
    requires GoodEntries(entries)
    ensures UserMap(ApplyEntries(m, entries)) == ApplyEntries(UserMap(m), entries)
    ensures forall k :: IsSystemKey(k) ==> SameAt(ApplyEntries(m, entries), m, k)
  {
    hide GoodCommand, ApplyEntries, Flatten, IsUserKey, UserMap, MutateAll, SameAt;
    FlattenUser(entries);
    ApplyIsMutate(m, entries);
    ApplyIsMutate(UserMap(m), entries);
    UserMutations(m, Flatten(entries));
  }

  lemma SameUserMap(m: Store, n: Store)
    requires forall k :: !IsSystemKey(k) ==> SameAt(m, n, k)
    ensures UserMap(m) == UserMap(n)
  {
    hide IsSystemKey;
    forall k | k in UserMap(m) ensures k in UserMap(n) && UserMap(n)[k] == UserMap(m)[k] {
      assert SameAt(m, n, k);
    }
    forall k | k in UserMap(n) ensures k in UserMap(m) {
      assert SameAt(m, n, k);
    }
  }

  // ---- The peer's operations ----

  function HardStateOf(s: RaftState): HardState {
    HardState(s.currentTerm, match s.votedFor case Some(v) => v case None => 0, s.commitIndex, s.lastApplied)
  }

  function Persist(p: Peer): (q: Peer)
    ensures q.raft == p.raft
  {
    p.(engine := SaveHardState(p.engine, p.raft.regionId, HardStateOf(p.raft)))
  }

  function AppendLogs(m: Store, entries: seq<LogEntry>): Store
    decreases |entries|
  {
    if entries == [] then m else AppendLogs(AppendLog(m, entries[0]), entries[1..])
  }

  /** Rewrite the stored log from index `first` on. */
  function PersistLogFrom(p: Peer, first: nat): (q: Peer)
    requires 1 <= first <= |p.raft.log| + 1
    ensures q.raft == p.raft
  {
    p.(engine := AppendLogs(DeleteLogsFrom(p.engine, p.raft.regionId, first), p.raft.log[first - 1..]))
  }

  function ApplyCommitted(p: Peer): Peer
    requires p.raft.commitIndex <= |p.raft.log|
  {
    Peer(MarkApplied(p.raft), ApplyEntries(p.engine, Pending(p.raft)))
  }

  /** The first failure among the commands that the apply loop meets. */
  function ApplyStatus(entries: seq<LogEntry>): Status
    decreases |entries|
  {
    if entries == [] then Ok
    else if entries[0].kind == Noop then ApplyStatus(entries[1..])
    else
      match ParseCommand(entries[0].command)
      case Failure(e) => Error(e)
      case Success(_) => ApplyStatus(entries[1..])
  }

  /** Apply what is committed; the hard state is stored only when every command applied. */
  function ApplyAndPersist(p: Peer): (Peer, Status)
    requires p.raft.commitIndex <= |p.raft.log|
  {
    var status := ApplyStatus(Pending(p.raft));
    (if status == Ok then Persist(ApplyCommitted(p)) else ApplyCommitted(p), status)
  }

  function OnVote(p: Peer, req: VoteRequest): (Peer, VoteResponse) {
    var (s, res) := HandleVote(p.raft, req);
    (Persist(p.(raft := s)), res)
  }

  function OnAppend(p: Peer, req: AppendRequest): (Peer, AppendResponse)
    requires Valid(p.raft) && WellFormed(req)
  {
    var (s, res) := HandleAppend(p.raft, req);
    var q := p.(raft := s);
    if !res.success then (Persist(q), res)
    else
      var logged := if req.entries == [] then q else PersistLogFrom(q, req.entries[0].index);
      (Persist(ApplyCommitted(logged)), res)
  }

  function Campaign(p: Peer): Peer {
    Persist(p.(raft := BecomeCandidate(p.raft)))
  }

  function Promote(p: Peer): Peer {
    Persist(p.(raft := BecomeLeader(p.raft)))
  }

  function Offer(p: Peer, command: Text): Peer {
    if p.raft.role != Leader then p
    else Peer(Propose(p.raft, Normal, command), AppendLog(p.engine, NewEntry(p.raft, Normal, command)))
  }

  /** After a majority: commit the proposed entry, apply, persist. */
  function CommitLast(p: Peer): Peer
    requires Valid(p.raft)
  {
    Persist(ApplyCommitted(p.(raft := SetCommitIndex(p.raft, LastLogIndex(p.raft.log)))))
  }

  /** Start-up: the state read back from the engine, or a fresh peer when there is none; an error means no start. */
  function Recovered(regionId: nat, selfId: nat, m: Store): Result<RaftState> {
    match LoadHardState(m, regionId)
    case Failure(e) => if e == KeyNotFound then Success(FreshState(regionId, selfId)) else Failure(e)
    case Success(hs) =>
      match LoadLog(m, regionId)
      case Failure(e) => Failure(e)
      case Success(log) =>
        if Restorable(regionId, hs.commitIndex, hs.lastApplied, log)
        then Success(Restored(FreshState(regionId, selfId), hs.currentTerm,
                              if hs.votedFor != 0 then Some(hs.votedFor) else None, hs.commitIndex, hs.lastApplied, log))
        else Failure(InvalidArgument)
  }

  /** A restart keeps the engine and rebuilds the Raft state from it. */
  function Reboot(p: Peer): Peer {
    match Recovered(p.raft.regionId, p.raft.selfId, p.engine)
    case Success(s) => p.(raft := s)
    case Failure(_) => p.(raft := FreshState(p.raft.regionId, p.raft.selfId))
  }

  function BallotRequest(s: RaftState): VoteRequest {
    VoteRequest(s.currentTerm, s.selfId, LastLogIndex(s.log), LastLogTerm(s.log))
  }

  /** The request `ReplicateToStore` builds: everything from `next` on. */
  function BuildAppend(s: RaftState, next: nat): AppendRequest
    requires 1 <= next <= |s.log| + 1
  {
    AppendRequest(s.currentTerm, s.selfId, next - 1, if next == 1 then 0 else s.log[next - 2].term,
                  s.log[next - 1..], s.commitIndex)
  }

  // ---- What every operation keeps ----

  /** A log that can be stored and applied. */
  ghost predicate GoodLog(region: nat, log: seq<LogEntry>) {
    Storable(region, log) && GoodEntries(log)
  }

  /** The stored hard state is the one in memory; a peer that never stored one is fresh. */
  ghost predicate HardStateKept(p: Peer) {
    || LoadHardState(p.engine, p.raft.regionId) == Success(HardStateOf(p.raft))
    || (MetaKey(p.raft.regionId, "current_term") !in p.engine && p.raft == FreshState(p.raft.regionId, p.raft.selfId))
  }

  /** At every handler boundary: storage mirrors memory, and the user map is the applied prefix of the log. */
  ghost predicate PeerOk(p: Peer) {
    && Valid(p.raft)
    && GoodLog(p.raft.regionId, p.raft.log)
    && p.raft.votedFor != Some(0)
    && HardStateKept(p)
    && Stored(p.engine, p.raft.regionId, p.raft.log)
    && UserMap(p.engine) == ApplyEntries(map[], p.raft.log[..p.raft.lastApplied])
  }

  /** Good commands all apply. */
  lemma {:induction false} GoodStatus(entries: seq<LogEntry>)
    requires GoodEntries(entries)
    ensures ApplyStatus(entries) == Ok
    decreases |entries|
  {
    hide ParseCommand, IsUserKey;
    if entries != [] {
      GoodStatus(entries[1..]);
    }
  }

  lemma PendingGood(p: Peer)
    requires Valid(p.raft) && GoodLog(p.raft.regionId, p.raft.log)
    ensures ApplyStatus(Pending(p.raft)) == Ok
  {
    hide GoodCommand, ApplyStatus;
    GoodStatus(Pending(p.raft));
  }

  /** Restart is invisible: what is stored restores the same peer, as a follower. */
  lemma RestartIsInvisible(p: Peer)
    requires PeerOk(p)
    ensures Recovered(p.raft.regionId, p.raft.selfId, p.engine) == Success(p.raft.(role := Follower))
    ensures Reboot(p) == p.(raft := p.raft.(role := Follower))
  {
    hide GoodEntries, Stored, LoadLog, MetaKey;
    LoadStored(p.engine, p.raft.regionId, p.raft.log);
  }

  /** `PeerOk` but for the hard state, which is written last. */
  ghost predicate Staged(p: Peer) {
    && Valid(p.raft)
    && GoodLog(p.raft.regionId, p.raft.log)
    && p.raft.votedFor != Some(0)
    && Stored(p.engine, p.raft.regionId, p.raft.log)
    && UserMap(p.engine) == ApplyEntries(map[], p.raft.log[..p.raft.lastApplied])
  }

  lemma PersistKeeps(p: Peer)
    requires Staged(p)
    ensures PeerOk(Persist(p))
  {
    hide GoodEntries, Stored, LoadHardState, SaveHardState, ApplyEntries, UserMap, LogPrefix, HasPrefix, IsSystemKey, SameAt;
    var region, hs := p.raft.regionId, HardStateOf(p.raft);
    var m := SaveHardState(p.engine, region, hs);
    HardStateRoundTrip(p.engine, region, hs);
    forall k | HasPrefix(k, LogPrefix(region)) ensures SameAt(m, p.engine, k) {
      SaveTouchesMeta(p.engine, region, hs, k);
    }
    forall k | !IsSystemKey(k) ensures SameAt(m, p.engine, k) {
      SaveTouchesMeta(p.engine, region, hs, k);
    }
    StoredSame(p.engine, m, region, p.raft.log);
    SameUserMap(m, p.engine);
  }

  lemma ApplyKeeps(p: Peer)
    requires Staged(p)
    ensures Staged(ApplyCommitted(p))
  {
    hide GoodCommand, Stored, ApplyEntries, UserMap, LogPrefix, HasPrefix, IsSystemKey, SameAt, Storable;
    var s := p.raft;
    var pending := Pending(s);
    ApplyUser(p.engine, pending);
    ApplyAppend(map[], s.log[..s.lastApplied], pending);
    assert s.log[..s.lastApplied] + pending == s.log[..MarkApplied(s).lastApplied];
    forall k | HasPrefix(k, LogPrefix(s.regionId)) ensures SameAt(ApplyEntries(p.engine, pending), p.engine, k) {
      LogPrefixIsSystem(s.regionId, k);
    }
    StoredSame(p.engine, ApplyEntries(p.engine, pending), s.regionId, s.log);
  }

  lemma {:induction false} AppendLogsStored(m: Store, region: nat, log: seq<LogEntry>, k: nat)
    requires Storable(region, log) && k <= |log| && Stored(m, region, log[..k])
    ensures Stored(AppendLogs(m, log[k..]), region, log)
    decreases |log| - k
  {
    hide Stored, AppendLog;
    if k == |log| {
      assert log[..k] == log && log[k..] == [];
    } else {
      assert log[..k + 1] == log[..k] + [log[k]];
      AppendStored(m, region, log[..k], log[k]);
      assert log[k..][0] == log[k] && log[k..][1..] == log[k + 1..];
      AppendLogsStored(AppendLog(m, log[k]), region, log, k + 1);
    }
  }

  lemma {:induction false} AppendLogsUser(m: Store, entries: seq<LogEntry>)
    ensures UserMap(AppendLogs(m, entries)) == UserMap(m)
    decreases |entries|
  {
    hide LogKey, PrintEntry, IsSystemKey;
    if entries != [] {
      var e := entries[0];
      LogKeyIsSystem(e.regionId, e.index);
      assert UserMap(AppendLog(m, e)) == UserMap(m);
      AppendLogsUser(AppendLog(m, e), entries[1..]);
    }
  }

  lemma DeleteLogsUser(m: Store, region: nat, first: nat)
    ensures UserMap(DeleteLogsFrom(m, region, first)) == UserMap(m)
  {
    hide IsSystemKey, IndexOf, LogPrefix, HasPrefix;
    forall k | k in m && HasPrefix(k, LogPrefix(region)) ensures IsSystemKey(k) {
      LogPrefixIsSystem(region, k);
    }
  }

  /** Rewriting from `first` on is enough when the logs agree below it. */
  lemma PersistLogKeeps(p: Peer, before: seq<LogEntry>, first: nat)
    requires 1 <= first <= |p.raft.log| + 1 && first <= |before| + 1
    requires Storable(p.raft.regionId, before) && Stored(p.engine, p.raft.regionId, before)
    requires Storable(p.raft.regionId, p.raft.log) && p.raft.log[..first - 1] == before[..first - 1]
    ensures var q := PersistLogFrom(p, first);
            Stored(q.engine, p.raft.regionId, p.raft.log) && UserMap(q.engine) == UserMap(p.engine)
  {
    hide Stored, UserMap, DeleteLogsFrom, AppendLogs, Storable;
    var region := p.raft.regionId;
    DeleteStored(p.engine, region, before, first);
    AppendLogsStored(DeleteLogsFrom(p.engine, region, first), region, p.raft.log, first - 1);
    DeleteLogsUser(p.engine, region, first);
    AppendLogsUser(DeleteLogsFrom(p.engine, region, first), p.raft.log[first - 1..]);
  }

  // ---- Each operation keeps `PeerOk` ----

  lemma VoteKeepsPeer(p: Peer, req: VoteRequest)
    requires PeerOk(p) && req.candidateId != 0
    ensures PeerOk(OnVote(p, req).0)
  {
    hide Stored, UserMap, ApplyEntries, GoodLog, Persist, HardStateKept, Contiguous;
    PersistKeeps(p.(raft := HandleVote(p.raft, req).0));
  }

  lemma CampaignKeepsPeer(p: Peer)
    requires PeerOk(p) && p.raft.selfId != 0
    ensures PeerOk(Campaign(p))
  {
    hide Stored, UserMap, ApplyEntries, GoodLog, Persist, HardStateKept, Contiguous;
    PersistKeeps(p.(raft := BecomeCandidate(p.raft)));
  }

  lemma PromoteKeepsPeer(p: Peer)
    requires PeerOk(p)
    ensures PeerOk(Promote(p))
  {
    hide Stored, UserMap, ApplyEntries, GoodLog, Persist, HardStateKept, Contiguous;
    PersistKeeps(p.(raft := BecomeLeader(p.raft)));
  }

  lemma CommitKeepsPeer(p: Peer)
    requires PeerOk(p)
    ensures PeerOk(CommitLast(p))
  {
    hide Stored, UserMap, ApplyEntries, GoodLog, Persist, HardStateKept, ApplyCommitted;
    var q := p.(raft := SetCommitIndex(p.raft, LastLogIndex(p.raft.log)));
    assert LastLogIndex(p.raft.log) == |p.raft.log|;
    ApplyKeeps(q);
    PersistKeeps(ApplyCommitted(q));
  }

  /** The hard state a peer stores does not depend on the log. */
  lemma OfferHardState(p: Peer, command: Text)
    requires HardStateKept(p) && p.raft.role == Leader
    ensures HardStateKept(Offer(p, command))
  {
    hide MetaKey, LogKey, LogPrefix, HasPrefix, IsSystemKey, PrintEntry, ParseDec;
    var e := NewEntry(p.raft, Normal, command);
    LogKeyIsSystem(e.regionId, e.index);
    MetaKeyIsSystem(p.raft.regionId, "current_term", e.regionId);
    MetaKeyIsSystem(p.raft.regionId, "voted_for", e.regionId);
    MetaKeyIsSystem(p.raft.regionId, "commit_index", e.regionId);
    MetaKeyIsSystem(p.raft.regionId, "last_applied", e.regionId);
  }

  lemma OfferLog(p: Peer, command: Text)
    requires Valid(p.raft) && GoodLog(p.raft.regionId, p.raft.log) && GoodCommand(command) && |p.raft.log| < MAX_U64
    requires p.raft.role == Leader
    ensures var q := Propose(p.raft, Normal, command); GoodLog(p.raft.regionId, q.log) && Valid(q)
  {
    hide ParseCommand, IsUserKey;
    assert LastLogIndex(p.raft.log) == |p.raft.log|;
  }

  lemma OfferKeepsPeer(p: Peer, command: Text)
    requires PeerOk(p) && GoodCommand(command) && |p.raft.log| < MAX_U64
    ensures PeerOk(Offer(p, command))
  {
    hide Stored, UserMap, ApplyEntries, HardStateKept, GoodCommand, AppendLog, AppendLogs, Storable, GoodEntries, Contiguous;
    if p.raft.role == Leader {
      OfferHardState(p, command);
      OfferLog(p, command);
      var e := NewEntry(p.raft, Normal, command);
      AppendStored(p.engine, p.raft.regionId, p.raft.log, e);
      OneAppend(p.engine, e);
      AppendLogsUser(p.engine, [e]);
      assert Offer(p, command).raft.log[..p.raft.lastApplied] == p.raft.log[..p.raft.lastApplied];
    }
  }

  lemma OneAppend(m: Store, e: LogEntry)
    ensures AppendLogs(m, [e]) == AppendLog(m, e)
  {
    hide AppendLog;
    assert [e][1..] == [];
  }

  lemma RebootKeepsPeer(p: Peer)
    requires PeerOk(p)
    ensures PeerOk(Reboot(p))
  {
    hide Stored, UserMap, ApplyEntries, Reboot, GoodLog, LoadHardState;
    RestartIsInvisible(p);
  }

  /** A request that is not accepted leaves the log alone; an accepted one leaves what is below its first entry. */
  lemma AppendLogEffect(s: RaftState, req: AppendRequest)
    requires Valid(s) && WellFormed(req)
    ensures var (r, res) := HandleAppend(s, req);
            && r.regionId == s.regionId && r.selfId == s.selfId
            && (!res.success || req.entries == [] ==> r.log == s.log)
            && (res.success && req.entries != [] ==>
                  && req.entries[0].index <= |s.log| + 1
                  && r.log[..req.entries[0].index - 1] == s.log[..req.entries[0].index - 1])
  {
    HandlerShape(s, req);
    if req.term >= s.currentTerm && HasLogAt(s.log, req.prevLogIndex, req.prevLogTerm) && req.entries != [] {
      if req.entries[0].index != 0 {
        AppendKeepsBelow(Stepped(s, req), req.entries);
      }
    }
  }

  lemma AppendKeepsPeer(p: Peer, req: AppendRequest)
    requires PeerOk(p) && WellFormed(req)
    requires var r := HandleAppend(p.raft, req).0;
             && GoodLog(p.raft.regionId, r.log) && r.votedFor != Some(0)
             && r.lastApplied == p.raft.lastApplied
             && r.log[..p.raft.lastApplied] == p.raft.log[..p.raft.lastApplied]
    ensures PeerOk(OnAppend(p, req).0)
  {
    hide Stored, UserMap, ApplyEntries, GoodEntries, Persist, HardStateKept, ApplyCommitted, PersistLogFrom, HandleAppend, WellFormed;
    AppendLogEffect(p.raft, req);
    var (s, res) := HandleAppend(p.raft, req);
    var q := p.(raft := s);
    if !res.success {
      PersistKeeps(q);
    } else if req.entries == [] {
      ApplyKeeps(q);
      PersistKeeps(ApplyCommitted(q));
    } else {
      var first := req.entries[0].index;
      PersistLogKeeps(q, p.raft.log, first);
      var logged := PersistLogFrom(q, first);
      ApplyKeeps(logged);
      PersistKeeps(ApplyCommitted(logged));
    }
  }

  // ---- Client commands ----

  /** What `Put`, `Delete` and `Batch` propose for user keys is always a good command. */
  lemma ClientCommandsAreGood(key: Text, value: Text, mus: seq<Mutation>)
    requires IsUserKey(key) && forall i :: 0 <= i < |mus| ==> IsUserKey(mus[i].key)
    ensures GoodCommand(EncodePut(key, value)) && GoodCommand(EncodeDelete(key)) && GoodCommand(EncodeBatch(mus))
  {
    PutRoundTrip(key, value);
    DeleteRoundTrip(key);
    BatchRoundTrip(mus);
    hide ParseCommand, IsSystemKey, EncodeMutations;
    assert EncodePut(key, value)[0] == 'P' && EncodeDelete(key)[0] == 'D' && EncodeBatch(mus)[0] == 'B';
  }
}
