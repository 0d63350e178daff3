/** Membership changes, restarts and whole runs of the in-process region. */
module GroupRuns {
  import opened Basics
  import opened Codec
  import opened KvEngine
  import opened KvCommand
  import opened RaftCore
  import opened RaftStorage
  import opened RegionNode
  import opened SingleRegion
  import opened Lockstep
  import opened Migration

  // ---- A new peer ----

  lemma HardStateSame(m: Store, n: Store, region: nat)
    requires forall k :: IsSystemKey(k) ==> SameAt(m, n, k)
    ensures LoadHardState(m, region) == LoadHardState(n, region)
  {
    hide IsSystemKey, MetaKey, ParseDec, LogPrefix, HasPrefix;
    MetaKeyIsSystem(region, "current_term", 0);
    MetaKeyIsSystem(region, "voted_for", 0);
    MetaKeyIsSystem(region, "commit_index", 0);
    MetaKeyIsSystem(region, "last_applied", 0);
  }

  /** The Raft part of the new peer's engine. */
  lemma NewcomerStored(p: Peer)
    requires Storable(p.raft.regionId, p.raft.log)
    ensures var m := Persist(p.(engine := AppendLogs(map[], p.raft.log))).engine;
            && Stored(m, p.raft.regionId, p.raft.log)
            && LoadHardState(m, p.raft.regionId) == Success(HardStateOf(p.raft))
            && UserMap(m) == map[]
  {
    hide Storable, Stored, LoadHardState, SaveHardState, UserMap, LogPrefix, HasPrefix, IsSystemKey, SameAt, AppendLogs;
    var region, log, hs := p.raft.regionId, p.raft.log, HardStateOf(p.raft);
    var m := AppendLogs(map[], log);
    EmptyStored(region);
    assert log[..0] == [] && log[0..] == log;
    AppendLogsStored(map[], region, log, 0);
    AppendLogsUser(map[], log);
    EmptyUser();
    HardStateRoundTrip(m, region, hs);
    var n := SaveHardState(m, region, hs);
    forall k | HasPrefix(k, LogPrefix(region)) ensures SameAt(n, m, k) {
      SaveTouchesMeta(m, region, hs, k);
    }
    forall k | !IsSystemKey(k) ensures SameAt(n, m, k) {
      SaveTouchesMeta(m, region, hs, k);
    }
    StoredSame(m, n, region, log);
    SameUserMap(n, m);
  }

  lemma EmptyStored(region: nat)
    ensures Stored(map[], region, [])
  {}

  lemma EmptyUser()
    ensures UserMap(map[]) == map[]
  {}

  /** Importing the leader's user data leaves the system keys alone and copies the user map. */
  lemma ImportAll(n: Store, m: Store)
    requires UserMap(n) == map[]
    ensures var r := MutateAll(n, Puts(Moved(m, "", "")));
            UserMap(r) == UserMap(m) && forall k :: IsSystemKey(k) ==> SameAt(r, n, k)
  {
    hide IsSystemKey, Moved, MutateAll, HasPrefix;
    var r := MutateAll(n, Puts(Moved(m, "", "")));
    forall k ensures IsSystemKey(k) ==> SameAt(r, n, k) {
      ImportAt(n, m, "", "", k);
    }
    forall k ensures !IsSystemKey(k) ==> SameAt(r, m, k) {
      ImportAt(n, m, "", "", k);
      assert !IsSystemKey(k) && k in n ==> k in UserMap(n);
    }
    SameUserMap(r, m);
  }

  lemma NewcomerTwin(leader: Replica, region: nat, term: nat, log: seq<LogEntry>, storeId: nat, id: nat)
    requires Twin(leader, region, term, log) && id != 0
    ensures Restorable(region, leader.peer.raft.commitIndex, leader.peer.raft.lastApplied, log)
    ensures var r := Replica(storeId, Newcomer(leader.peer, id));
            && Twin(r, region, term, log)
            && r.peer.raft == RaftState(region, id, Follower, term, leader.peer.raft.votedFor, |log|, |log|, log)
  {
    hide GoodEntries, Stored, LoadHardState, UserMap, ApplyEntries, IsSystemKey, Persist, MutateAll, AppendLogs, SameAt, MetaKey;
    var s := leader.peer.raft;
    var raft := Restored(FreshState(region, id), s.currentTerm, s.votedFor, s.commitIndex, s.lastApplied, s.log);
    var p := Persist(Peer(raft, AppendLogs(map[], log)));
    NewcomerStored(Peer(raft, leader.peer.engine));
    ImportAll(p.engine, leader.peer.engine);
    var q := Newcomer(leader.peer, id);
    assert q == p.(engine := MutateAll(p.engine, Puts(Moved(leader.peer.engine, "", ""))));
    HardStateSame(q.engine, p.engine, region);
    forall k | HasPrefix(k, LogPrefix(region)) ensures SameAt(q.engine, p.engine, k) {
      LogPrefixIsSystem(region, k);
    }
    StoredSame(p.engine, q.engine, region, log);
  }

  // ---- Membership ----

  /** A fresh peer joins as a follower with the leader's term, vote and log, all of it applied, and all user data, and would
      come back with them from its directory; it is refused exactly when its store or its id is taken. */
  lemma AddPeerKeeps(g: Group, storeId: nat, id: nat)
    requires InStep(g) && id != 0
    ensures var (h, status) := AddPeer(g, storeId, id);
            var taken := exists j :: 0 <= j < |g.stores| && (g.stores[j].storeId == storeId || Id(g.stores[j]) == id);
            && status == (if taken then Error(InvalidArgument) else Ok)
            && InStep(h) && h.leaderId == g.leaderId && h.regionId == g.regionId
            && LogOf(h) == LogOf(g) && Data(h) == Data(g)
            && (status == Ok ==>
                  && |h.stores| == |g.stores| + 1 && h.stores[..|g.stores|] == g.stores
                  && var r := h.stores[|g.stores|];
                  && r.storeId == storeId && UserMap(r.peer.engine) == Data(g)
                  && r.peer.raft == RaftState(g.regionId, id, Follower, TermOf(g), LeaderVote(g), |LogOf(g)|, |LogOf(g)|, LogOf(g))
                  && Recovered(g.regionId, id, r.peer.engine) == Success(r.peer.raft))
            && (status != Ok ==> h == g)
            && (Voted(g) ==> Voted(h))
  {
    hide Twin, Newcomer, UserMap, Restorable, Recovered, ApplyEntries;
    var i := Position(g.stores, g.leaderId);
    TwinShape(g.stores[i], g.regionId, TermOf(g), LogOf(g));
    NewcomerTwin(g.stores[i], g.regionId, TermOf(g), LogOf(g), storeId, id);
    var p := Position(g.stores, id);
    var h := AddPeer(g, storeId, id).0;
    if h != g {
      assert forall j :: 0 <= j < |g.stores| ==> h.stores[j] == g.stores[j];
      assert h.stores[i] == g.stores[i];
      PositionIs(h.stores, i);
      var n := |g.stores|;
      SameData(h, TermOf(g), LogOf(g), n);
      TwinRestarts(h.stores[n], g.regionId, TermOf(g), LogOf(g));
    }
  }

  lemma TwinRestarts(r: Replica, region: nat, term: nat, log: seq<LogEntry>)
    requires Twin(r, region, term, log)
    ensures Recovered(region, Id(r), r.peer.engine) == Success(r.peer.raft.(role := Follower))
  {
    hide Recovered, PeerOk;
    RestartIsInvisible(r.peer);
  }

  /** The vote that the recorded leader remembers. */
  ghost function LeaderVote(g: Group): Option<nat>
    requires Position(g.stores, g.leaderId) < |g.stores|
  {
    g.stores[Position(g.stores, g.leaderId)].peer.raft.votedFor
  }

  lemma TwinShape(r: Replica, region: nat, term: nat, log: seq<LogEntry>)
    requires Twin(r, region, term, log)
    ensures r.peer.raft.log == log && r.peer.raft.currentTerm == term && r.peer.raft.regionId == region
  {}

  /** The group without the replica at `i`. */
  lemma Without(g: Group, term: nat, log: seq<LogEntry>, i: nat)
    requires Aligned(g, term, log) && i < |g.stores| && |g.stores| > 1
    ensures Aligned(Group(g.regionId, g.stores[..i] + g.stores[i + 1..], 0), term, log)
  {
    hide Twin;
    var rest := g.stores[..i] + g.stores[i + 1..];
    assert forall j :: 0 <= j < |rest| ==> rest[j] == g.stores[if j < i then j else j + 1];
  }

  /** What a departure leaves: the others in their order. If the leader left, the first of them leads the next term; otherwise
      nothing about them changes. */
  ghost predicate Departed(g: Group, h: Group, id: nat)
    requires g.stores != [] && h.stores != []
  {
    var i := Position(g.stores, id);
    && i < |g.stores| == |h.stores| + 1 && Position(h.stores, id) == |h.stores|
    && (forall j :: 0 <= j < |h.stores| ==>
          var was := g.stores[if j < i then j else j + 1];
          Id(h.stores[j]) == Id(was) && h.stores[j].storeId == was.storeId && (g.leaderId != id ==> h.stores[j] == was))
    && h.leaderId == (if g.leaderId == id then Id(g.stores[if i == 0 then 1 else 0]) else g.leaderId)
    && TermOf(h) == TermOf(g) + (if g.leaderId == id then 1 else 0)
    && (g.leaderId == id || Voted(g) ==> Voted(h))
  }

  /** A peer leaves: refused exactly when it is unknown or the last one. Nothing is lost. */
  lemma RemovePeerKeeps(g: Group, id: nat)
    requires InStep(g)
    ensures var (h, status) := RemovePeer(g, id);
            && status == (if |g.stores| <= 1 || Position(g.stores, id) == |g.stores| then Error(InvalidArgument) else Ok)
            && InStep(h) && h.regionId == g.regionId
            && LogOf(h) == LogOf(g) && Data(h) == Data(g)
            && (if status == Ok then Departed(g, h, id) else h == g)
  {
    hide InStep, Data, Departed, Aligned, Voted, SameIds, ElectLeader, LogOf, TermOf;
    StepNonEmpty(g);
    var i := Position(g.stores, id);
    if |g.stores| > 1 && i < |g.stores| {
      var bare := Group(g.regionId, g.stores[..i] + g.stores[i + 1..], if g.leaderId == id then 0 else g.leaderId);
      Bare(g, bare, id, i);
      if g.leaderId == id {
        RemoveLeader(bare, TermOf(g), LogOf(g), id);
        StepNonEmpty(RemovePeer(g, id).0);
        LeaderLeft(g, RemovePeer(g, id).0, id, i, bare);
      } else {
        OtherLeft(g, bare, id, i);
      }
    }
  }

  lemma Bare(g: Group, bare: Group, id: nat, i: nat)
    requires InStep(g) && i == Position(g.stores, id) < |g.stores| && |g.stores| > 1
    requires bare == Group(g.regionId, g.stores[..i] + g.stores[i + 1..], bare.leaderId)
    ensures && Aligned(bare, TermOf(g), LogOf(g)) && Data(bare) == Data(g) && LogOf(bare) == LogOf(g) && TermOf(bare) == TermOf(g)
            && forall j :: 0 <= j < |bare.stores| ==> bare.stores[j] == g.stores[if j < i then j else j + 1] && Id(bare.stores[j]) != id
  {
    hide Twin, UserMap, ApplyEntries;
    assert forall j :: 0 <= j < |bare.stores| ==> bare.stores[j] == g.stores[if j < i then j else j + 1];
    Without(g, TermOf(g), LogOf(g), i);
    AlignedValid(bare, TermOf(g), LogOf(g));
    SameData(g, TermOf(g), LogOf(g), 0);
    SameData(bare, TermOf(g), LogOf(g), 0);
  }

  lemma LeaderLeft(g: Group, h: Group, id: nat, i: nat, bare: Group)
    requires g.stores != [] && g.leaderId == id && i == Position(g.stores, id) < |g.stores| && |g.stores| > 1
    requires |bare.stores| == |g.stores| - 1 && forall j :: 0 <= j < |bare.stores| ==> bare.stores[j] == g.stores[if j < i then j else j + 1]
    requires SameIds(bare, h) && Position(h.stores, id) == |h.stores| && h.leaderId == Id(bare.stores[0])
    requires TermOf(h) == TermOf(g) + 1 && Voted(h)
    ensures Departed(g, h, id)
  {}

  lemma OtherLeft(g: Group, h: Group, id: nat, i: nat)
    requires InStep(g) && i == Position(g.stores, id) < |g.stores| && |g.stores| > 1 && g.leaderId != id
    requires h.leaderId == g.leaderId && h.regionId == g.regionId && h.stores == g.stores[..i] + g.stores[i + 1..]
    requires Aligned(h, TermOf(g), LogOf(g)) && LogOf(h) == LogOf(g) && TermOf(h) == TermOf(g)
    requires forall j :: 0 <= j < |h.stores| ==> h.stores[j] == g.stores[if j < i then j else j + 1] && Id(h.stores[j]) != id
    ensures InStep(h) && Departed(g, h, id)
  {
    hide Twin;
    LeaderStays(g, h.stores, i);
    NotThere(h.stores, id);
    assert h.stores[0] == g.stores[if 0 < i then 0 else 1];
  }

  lemma ElectionKeeps(g: Group, term: nat, log: seq<LogEntry>, id: nat)
    requires Aligned(g, term, log) && Position(g.stores, id) < |g.stores|
    ensures var (h, status) := ElectLeader(g, id);
            && status == Ok && InStep(h) && h.leaderId == id && h.regionId == g.regionId && SameIds(g, h)
            && LogOf(h) == log && Data(h) == Data(g) && TermOf(h) == term + 1 && Voted(h)
  {
    hide Twin, UserMap, ElectLeader, ApplyEntries, Position, DistinctStores;
    ElectionSucceeds(g, term, log, id);
    var h := ElectLeader(g, id).0;
    AlignedValid(h, term + 1, log);
    SameData(g, term, log, 0);
    SameData(h, term + 1, log, 0);
  }

  lemma RemoveLeader(bare: Group, term: nat, log: seq<LogEntry>, id: nat)
    requires Aligned(bare, term, log) && forall j :: 0 <= j < |bare.stores| ==> Id(bare.stores[j]) != id
    ensures var (h, status) := ElectLeader(bare, Id(bare.stores[0]));
            && status == Ok && InStep(h) && h.regionId == bare.regionId && LogOf(h) == log && Data(h) == Data(bare)
            && SameIds(bare, h) && Position(h.stores, id) == |h.stores| && h.leaderId == Id(bare.stores[0])
            && TermOf(h) == term + 1 && Voted(h)
  {
    hide Twin, UserMap, ElectLeader, ApplyEntries;
    PositionIs(bare.stores, 0);
    ElectionKeeps(bare, term, log, Id(bare.stores[0]));
    NotThere(ElectLeader(bare, Id(bare.stores[0])).0.stores, id);
  }

  lemma NotThere(stores: seq<Replica>, id: nat)
    requires forall j :: 0 <= j < |stores| ==> Id(stores[j]) != id
    ensures Position(stores, id) == |stores|
  {}

  lemma LeaderStays(g: Group, rest: seq<Replica>, i: nat)
    requires Led(g) && i < |g.stores| && Id(g.stores[i]) != g.leaderId && DistinctStores(rest)
    requires |rest| == |g.stores| - 1 && forall j :: 0 <= j < |rest| ==> rest[j] == g.stores[if j < i then j else j + 1]
    ensures Led(g.(stores := rest))
  {
    var l := Position(g.stores, g.leaderId);
    var k := if l < i then l else l - 1;
    assert rest[k] == g.stores[l];
    PositionIs(rest, k);
  }

  lemma ElectMissing(g: Group, id: nat)
    requires Position(g.stores, id) == |g.stores|
    ensures ElectLeader(g, id) == (g, Error(InvalidArgument))
  {}

  /** Leadership moves to any member, without a change to the log or the data. */
  lemma TransferKeeps(g: Group, id: nat)
    requires InStep(g)
    ensures var (h, status) := TransferLeader(g, id);
            && status == (if Position(g.stores, id) < |g.stores| then Ok else Error(InvalidArgument))
            && InStep(h) && h.regionId == g.regionId && SameIds(g, h)
            && LogOf(h) == LogOf(g) && Data(h) == Data(g)
            && h.leaderId == (if status == Ok then id else g.leaderId)
            && (if status == Ok && g.leaderId != id then TermOf(h) == TermOf(g) + 1 && Voted(h) else h == g)
  {
    hide Aligned, UserMap, ElectLeader, Position;
    if Position(g.stores, id) == |g.stores| {
      ElectMissing(g, id);
    } else if g.leaderId != id {
      ElectionKeeps(g, TermOf(g), LogOf(g), id);
    }
  }

  // ---- Start-up ----

  lemma {:induction false} OpenAllIs(region: nat, engines: seq<Store>, peers: seq<RaftState>)
    requires |peers| == |engines|
    requires forall j :: 0 <= j < |engines| ==> Recovered(region, j + 1, engines[j]) == Success(peers[j])
    ensures var r := OpenAll(region, engines);
            r.Success? && |r.value| == |engines| && forall j :: 0 <= j < |engines| ==> r.value[j] == Replica(j + 1, Peer(peers[j], engines[j]))
    decreases |engines|
  {
    hide Recovered;
    if engines != [] {
      var n := |engines| - 1;
      OpenAllIs(region, engines[..n], peers[..n]);
    }
  }

  lemma FreshPeer(region: nat, id: nat)
    requires id != 0
    ensures Recovered(region, id, map[]) == Success(FreshState(region, id))
    ensures Twin(Replica(id, Peer(FreshState(region, id), map[])), region, 0, [])
  {
    hide MetaKey, LogPrefix, IsSystemKey;
    EmptyStored(region);
    EmptyUser();
  }

  /** On empty directories every region starts in step, with peer 1 as leader and no data. */
  lemma BootstrapFresh(region: nat, count: nat)
    requires count != 0
    ensures var (g, status) := Bootstrap(region, seq(count, _ => map[]));
            && status == Ok && InStep(g) && g.regionId == region && |g.stores| == count && g.leaderId == 1
            && LogOf(g) == [] && Data(g) == map[] && TermOf(g) == 1 && Voted(g)
            && forall j :: 0 <= j < count ==> Id(g.stores[j]) == j + 1
  {
    hide Twin, ElectLeader, Recovered, UserMap, ApplyEntries;
    var engines: seq<Store> := seq(count, _ => map[]);
    var peers := seq(count, j requires 0 <= j < count => FreshState(region, j + 1));
    forall j | 0 <= j < count
      ensures Recovered(region, j + 1, engines[j]) == Success(peers[j]) && Twin(Replica(j + 1, Peer(peers[j], engines[j])), region, 0, [])
    {
      FreshPeer(region, j + 1);
    }
    StartsInStep(region, engines, peers, 0, []);
    SameData(Bootstrap(region, engines).0, 1, [], 0);
    NothingApplied();
  }

  lemma NothingApplied()
    ensures ApplyEntries(map[], []) == map[]
  {}

  /** Stores that recover to aligned peers hold the election and come up in step. */
  lemma StartsInStep(region: nat, engines: seq<Store>, peers: seq<RaftState>, term: nat, log: seq<LogEntry>)
    requires |peers| == |engines| && engines != []
    requires forall j :: 0 <= j < |engines| ==>
               && Recovered(region, j + 1, engines[j]) == Success(peers[j])
               && peers[j].selfId == j + 1 && Twin(Replica(j + 1, Peer(peers[j], engines[j])), region, term, log)
    ensures var (g, status) := Bootstrap(region, engines);
            && status == Ok && InStep(g) && Aligned(g, term + 1, log) && LogOf(g) == log && TermOf(g) == term + 1 && Voted(g)
            && g.regionId == region && |g.stores| == |engines| && g.leaderId == 1
            && forall j :: 0 <= j < |engines| ==> Id(g.stores[j]) == j + 1
  {
    hide Twin, ElectLeader, Recovered;
    OpenAllIs(region, engines, peers);
    var g := Group(region, OpenAll(region, engines).value, 0);
    PositionIs(g.stores, 0);
    ElectionSucceeds(g, term, log, 1);
    AlignedValid(ElectLeader(g, 1).0, term + 1, log);
  }

  // ---- Operations and runs ----

  datatype Op =
    | PutOp(key: Text, value: Text)
    | DeleteOp(key: Text)
    | BatchOp(mus: seq<Mutation>)
    | TransferOp(id: nat)
    | AddOp(storeId: nat, id: nat)
    | RemoveOp(id: nat)

  /** What callers keep to: user keys, room in the log, and non-zero peer ids. */
  ghost predicate Allowed(g: Group, op: Op)
    requires g.stores != []
  {
    match op
    case PutOp(key, _) => IsUserKey(key) && |LogOf(g)| < MAX_U64
    case DeleteOp(key) => IsUserKey(key) && |LogOf(g)| < MAX_U64
    case BatchOp(mus) => UserMus(mus) && |LogOf(g)| < MAX_U64
    case TransferOp(_) => true
    case AddOp(_, id) => id != 0
    case RemoveOp(_) => true
  }

  ghost predicate UserMus(mus: seq<Mutation>) {
    forall i :: 0 <= i < |mus| ==> IsUserKey(mus[i].key)
  }

  function Perform(g: Group, op: Op): (Group, Status)
    requires AllValid(g.stores)
  {
    match op
    case PutOp(key, value) => SingleRegion.Put(g, key, value)
    case DeleteOp(key) => SingleRegion.Delete(g, key)
    case BatchOp(mus) => Batch(g, mus)
    case TransferOp(id) => TransferLeader(g, id)
    case AddOp(storeId, id) => AddPeer(g, storeId, id)
    case RemoveOp(id) => RemovePeer(g, id)
  }

  /** The operation on a plain map. */
  function Meaning(d: Store, op: Op): Store {
    match op
    case PutOp(key, value) => d[key := value]
    case DeleteOp(key) => d - {key}
    case BatchOp(mus) => MutateAll(d, mus)
    case _ => d
  }

  /** A client's write on a group in step: it succeeds, and the data changes as a map would. */
  lemma CommandKeeps(g: Group, command: Text, mus: seq<Mutation>)
    requires InStep(g) && GoodCommand(command) && ParseCommand(command) == Success(mus) && |LogOf(g)| < MAX_U64
    ensures AllValid(g.stores)
    ensures var (h, status) := ProposeAndReplicate(g, command);
            status == Ok && InStep(h) && Written(g, h, command) && Data(h) == MutateAll(Data(g), mus)
  {
    hide GoodCommand, ParseCommand, Aligned, Led, ProposeAndReplicate, UserMap, MutateAll;
    WriteSucceeds(g, command);
    WriteData(g, ProposeAndReplicate(g, command).0, command);
  }

  lemma GoodPut(key: Text, value: Text)
    requires IsUserKey(key)
    ensures GoodCommand(EncodePut(key, value)) && ParseCommand(EncodePut(key, value)) == Success([Mutation(KvEngine.Put, key, value)])
  {
    hide ParseCommand, EncodePut, IsSystemKey;
    ClientCommandsAreGood(key, value, []);
    PutRoundTrip(key, value);
  }

  lemma GoodDelete(key: Text)
    requires IsUserKey(key)
    ensures GoodCommand(EncodeDelete(key)) && ParseCommand(EncodeDelete(key)) == Success([Mutation(KvEngine.Delete, key, "")])
  {
    hide ParseCommand, EncodeDelete, IsSystemKey;
    ClientCommandsAreGood(key, "", []);
    DeleteRoundTrip(key);
  }

  lemma GoodBatch(mus: seq<Mutation>)
    requires UserMus(mus)
    ensures GoodCommand(EncodeBatch(mus)) && ParseCommand(EncodeBatch(mus)) == Success(mus)
  {
    AKey();
    ClientCommandsAreGood("a", "", mus);
    hide ParseCommand, EncodeBatch, IsSystemKey, GoodCommand;
    BatchRoundTrip(mus);
  }

  lemma AKey()
    ensures IsUserKey("a")
  {}

  lemma OneMutation(m: Store, mu: Mutation)
    ensures MutateAll(m, [mu]) == Mutate(m, mu)
  {
    assert [mu][1..] == [];
  }

  /** Each allowed operation keeps the group in step, never loses an election or a majority, and does to the data what it
      does to a map. */
  lemma PerformKeeps(g: Group, op: Op)
    requires InStep(g) && Allowed(g, op)
    ensures AllValid(g.stores)
    ensures var (h, status) := Perform(g, op);
            && InStep(h) && h.regionId == g.regionId && Data(h) == Meaning(Data(g), op)
            && status in {Ok, Error(InvalidArgument)}
            && (op.PutOp? || op.DeleteOp? || op.BatchOp? ==> status == Ok && h.leaderId == g.leaderId && |h.stores| == |g.stores|)
            && |LogOf(h)| <= |LogOf(g)| + 1 && TermOf(h) >= TermOf(g)
            && (Voted(g) ==> Voted(h))
  {
    hide Aligned, Led, ProposeAndReplicate, UserMap, EncodePut, EncodeDelete, EncodeBatch, GoodCommand, ParseCommand,
         IsUserKey, TransferLeader, AddPeer, RemovePeer, MutateAll, Valid;
    AlignedValid(g, TermOf(g), LogOf(g));
    match op
    case PutOp(key, value) =>
      GoodPut(key, value);
      CommandKeeps(g, EncodePut(key, value), [Mutation(KvEngine.Put, key, value)]);
      OneMutation(Data(g), Mutation(KvEngine.Put, key, value));
    case DeleteOp(key) =>
      GoodDelete(key);
      CommandKeeps(g, EncodeDelete(key), [Mutation(KvEngine.Delete, key, "")]);
      OneMutation(Data(g), Mutation(KvEngine.Delete, key, ""));
    case BatchOp(mus) =>
      GoodBatch(mus);
      CommandKeeps(g, EncodeBatch(mus), mus);
      EmptyBatch(Data(g));
    case TransferOp(id) => TransferKeeps(g, id);
    case AddOp(storeId, id) => AddPeerKeeps(g, storeId, id);
    case RemoveOp(id) => RemovePeerKeeps(g, id);
  }

  lemma EmptyBatch(m: Store)
    ensures MutateAll(m, []) == m
  {}

  /** A run of the in-process region. */
  ghost predicate IsGroupRun(groups: seq<Group>, ops: seq<Op>, statuses: seq<Status>) {
    && |groups| == |ops| + 1 && |statuses| == |ops|
    && InStep(groups[0])
    && forall k :: 0 <= k < |ops| ==>
         && groups[k].stores != [] && AllValid(groups[k].stores) && Allowed(groups[k], ops[k])
         && (groups[k + 1], statuses[k]) == Perform(groups[k], ops[k])
  }

  function Meanings(d: Store, ops: seq<Op>): Store {
    if ops == [] then d else Meaning(Meanings(d, ops[..|ops| - 1]), ops[|ops| - 1])
  }

  /** After any run of writes, leader transfers and membership changes the replicas are in step and hold what the same
      operations make of a plain map; no operation reported a lost election or majority; and no replica's vote of the
      term comes free, those that joined later included. */
  lemma {:induction false} LockstepRuns(groups: seq<Group>, ops: seq<Op>, statuses: seq<Status>, k: nat)
    requires IsGroupRun(groups, ops, statuses) && k < |groups|
    ensures InStep(groups[k]) && Data(groups[k]) == Meanings(Data(groups[0]), ops[..k])
    ensures forall i :: 0 <= i < k ==> statuses[i] in {Ok, Error(InvalidArgument)}
    ensures Voted(groups[0]) ==> Voted(groups[k])
    decreases k
  {
    hide InStep, Perform, Allowed, Meaning, AllValid, Voted;
    if k > 0 {
      LockstepRuns(groups, ops, statuses, k - 1);
      assert ops[..k][..k - 1] == ops[..k - 1] && ops[..k][k - 1] == ops[k - 1];
      PerformKeeps(groups[k - 1], ops[k - 1]);
      StepNonEmpty(groups[0]);
      StepNonEmpty(groups[k]);
    }
  }

  lemma StepNonEmpty(g: Group)
    requires InStep(g)
    ensures g.stores != []
  {}

  /** What being in step means for any two replicas, in the words of the system. */
  lemma ReplicasAgree(g: Group, i: nat, j: nat)
    requires InStep(g) && i < |g.stores| && j < |g.stores|
    ensures var a, b := g.stores[i].peer, g.stores[j].peer;
            && a.raft.currentTerm == b.raft.currentTerm && a.raft.log == b.raft.log
            && a.raft.lastApplied == a.raft.commitIndex == |a.raft.log|
            && UserMap(a.engine) == UserMap(b.engine)
            && (a.raft.role == Leader <==> a.raft.selfId == g.leaderId)
            && (a.raft.role == Leader && b.raft.role == Leader ==> i == j)
            && exists l :: 0 <= l < |g.stores| && g.stores[l].peer.raft.role == Leader
  {
    hide PeerOk, UserMap, ApplyEntries;
    SameData(g, TermOf(g), LogOf(g), i);
    SameData(g, TermOf(g), LogOf(g), j);
    assert Twin(g.stores[i], g.regionId, TermOf(g), LogOf(g)) && Twin(g.stores[j], g.regionId, TermOf(g), LogOf(g));
    assert g.stores[Position(g.stores, g.leaderId)].peer.raft.role == Leader;
  }
}
