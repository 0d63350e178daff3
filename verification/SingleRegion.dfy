/** The in-process replicated region: `SingleRegionStore` and the operations of `SingleRegionCluster` on values. */
module SingleRegion {
  import opened Basics
  import opened KvEngine
  import opened KvCommand
  import opened RaftCore
  import opened RaftStorage
  import opened RegionNode

  datatype Replica = Replica(storeId: nat, peer: Peer)
  datatype Group = Group(regionId: nat, stores: seq<Replica>, leaderId: nat)

  function Id(r: Replica): nat {
    r.peer.raft.selfId
  }

  /** The first replica with this peer id; the length when there is none. */
  function Position(stores: seq<Replica>, id: nat): (i: nat)
    ensures i <= |stores| && (i < |stores| ==> Id(stores[i]) == id)
    ensures forall j :: 0 <= j < i ==> Id(stores[j]) != id
  {
    if stores == [] || Id(stores[0]) == id then 0 else 1 + Position(stores[1..], id)
  }

  ghost predicate AllValid(stores: seq<Replica>) {
    forall j :: 0 <= j < |stores| ==> Valid(stores[j].peer.raft)
  }

  // ---- Elections ----

  function Vote(r: Replica, id: nat, req: VoteRequest): Replica {
    if Id(r) == id then r else r.(peer := OnVote(r.peer, req).0)
  }

  function VoteAll(stores: seq<Replica>, id: nat, req: VoteRequest): (r: seq<Replica>)
    ensures |r| == |stores| && forall j :: 0 <= j < |r| ==> r[j] == Vote(stores[j], id, req)
  {
    seq(|stores|, j requires 0 <= j < |stores| => Vote(stores[j], id, req))
  }

  /** How many other replicas grant the vote. */
  function Votes(stores: seq<Replica>, id: nat, req: VoteRequest): nat {
    if stores == [] then 0
    else
      var r := stores[|stores| - 1];
      Votes(stores[..|stores| - 1], id, req) + if Id(r) != id && OnVote(r.peer, req).1.granted then 1 else 0
  }

  function ElectLeader(g: Group, id: nat): (Group, Status) {
    var i := Position(g.stores, id);
    if i == |g.stores| then (g, Error(InvalidArgument))
    else
      var candidate := Campaign(g.stores[i].peer);
      var req := BallotRequest(candidate.raft);
      var voted := VoteAll(g.stores[i := g.stores[i].(peer := candidate)], id, req);
      if 1 + Votes(g.stores, id, req) <= |g.stores| / 2 then (g.(stores := voted), Error(Internal))
      else (g.(stores := voted[i := voted[i].(peer := Promote(candidate))], leaderId := id), Ok)
  }

  function TransferLeader(g: Group, id: nat): (Group, Status) {
    if g.leaderId == id then (g, Ok) else ElectLeader(g, id)
  }

  // ---- Writes ----

  function EntryRequest(s: RaftState, leaderId: nat, e: LogEntry): AppendRequest
    requires 1 <= e.index <= |s.log| + 1
  {
    AppendRequest(s.currentTerm, leaderId, e.index - 1, if e.index == 1 then 0 else s.log[e.index - 2].term, [e], s.commitIndex)
  }

  /** A follower on the new entry: on success it stores the entry and its hard state. */
  function Receive(p: Peer, req: AppendRequest, e: LogEntry): (Peer, bool)
    requires Contiguous(p.raft.log) && WellFormed(req)
  {
    var (s, res) := HandleAppend(p.raft, req);
    if res.success then (Persist(Peer(s, AppendLog(p.engine, e))), true) else (p.(raft := s), false)
  }

  function SendAll(stores: seq<Replica>, leaderId: nat, req: AppendRequest, e: LogEntry): (r: seq<Replica>)
    requires AllValid(stores) && WellFormed(req)
    ensures |r| == |stores|
    ensures forall j :: 0 <= j < |r| ==>
              r[j] == if Id(stores[j]) == leaderId then stores[j] else stores[j].(peer := Receive(stores[j].peer, req, e).0)
    ensures AllValid(r)
  {
    ReceiveValid(stores, req, e);
    seq(|stores|, j requires 0 <= j < |stores| =>
      if Id(stores[j]) == leaderId then stores[j] else stores[j].(peer := Receive(stores[j].peer, req, e).0))
  }

  lemma ReceiveValid(stores: seq<Replica>, req: AppendRequest, e: LogEntry)
    requires AllValid(stores) && WellFormed(req)
    ensures forall j :: 0 <= j < |stores| ==> Valid(Receive(stores[j].peer, req, e).0.raft)
  {
    hide HandleAppend, WellFormed, Persist, AppendLog;
  }

  function Acks(stores: seq<Replica>, leaderId: nat, req: AppendRequest, e: LogEntry): nat
    requires AllValid(stores) && WellFormed(req)
  {
    if stores == [] then 0
    else
      var r := stores[|stores| - 1];
      Acks(stores[..|stores| - 1], leaderId, req, e) + if Id(r) != leaderId && Receive(r.peer, req, e).1 then 1 else 0
  }

  function CommitRequest(p: Peer, term: nat, leaderId: nat, commit: nat): AppendRequest {
    AppendRequest(term, leaderId, LastLogIndex(p.raft.log), LastLogTerm(p.raft.log), [], commit)
  }

  /** A follower on the commit broadcast. */
  function Follow(p: Peer, term: nat, leaderId: nat, commit: nat): (r: (Peer, Status))
    requires Valid(p.raft)
    ensures Valid(r.0.raft)
  {
    hide Persist, ApplyEntries, ApplyStatus;
    var (s, res) := HandleAppend(p.raft, CommitRequest(p, term, leaderId, commit));
    if !res.success then (p.(raft := s), Error(Internal)) else ApplyAndPersist(p.(raft := s))
  }

  /** The broadcast from position `k` on; the first failure ends it. */
  function Broadcast(stores: seq<Replica>, k: nat, term: nat, leaderId: nat, commit: nat): (seq<Replica>, Status)
    requires AllValid(stores) && k <= |stores|
    decreases |stores| - k
  {
    hide Follow, Valid;
    if k == |stores| then (stores, Ok)
    else if Id(stores[k]) == leaderId then Broadcast(stores, k + 1, term, leaderId, commit)
    else
      var (p, status) := Follow(stores[k].peer, term, leaderId, commit);
      var next := stores[k := stores[k].(peer := p)];
      if status != Ok then (next, status) else Broadcast(next, k + 1, term, leaderId, commit)
  }

  lemma OneEntryWellFormed(s: RaftState, leaderId: nat, e: LogEntry)
    requires 1 <= e.index <= |s.log| + 1
    ensures WellFormed(EntryRequest(s, leaderId, e))
  {}

  lemma OfferValid(p: Peer, command: Text)
    requires Valid(p.raft) && p.raft.role == Leader
    ensures var q := Offer(p, command);
            Valid(q.raft) && Valid(SetCommitIndex(q.raft, |p.raft.log| + 1)) && NewEntry(p.raft, Normal, command).index == |p.raft.log| + 1
  {}

  lemma ApplyValid(p: Peer)
    requires Valid(p.raft)
    ensures Valid(ApplyAndPersist(p).0.raft)
  {
    hide Persist, ApplyEntries, ApplyStatus;
  }

  function ProposeAndReplicate(g: Group, command: Text): (Group, Status)
    requires AllValid(g.stores)
  {
    hide Valid, WellFormed, Persist, ApplyAndPersist, Receive, Follow;
    var i := Position(g.stores, g.leaderId);
    if i == |g.stores| || g.stores[i].peer.raft.role != Leader then (g, Error(NotLeader))
    else
      var leader := g.stores[i].peer;
      OfferValid(leader, command);
      var e := NewEntry(leader.raft, Normal, command);
      var offered := Offer(leader, command);
      var req := EntryRequest(offered.raft, g.leaderId, e);
      OneEntryWellFormed(offered.raft, g.leaderId, e);
      var sent := SendAll(g.stores[i := g.stores[i].(peer := offered)], g.leaderId, req, e);
      if 1 + Acks(g.stores, g.leaderId, req, e) <= |g.stores| / 2 then (g.(stores := sent), Error(Internal))
      else
        var committed := offered.(raft := SetCommitIndex(offered.raft, e.index));
        ApplyValid(committed);
        var (done, status) := ApplyAndPersist(committed);
        var applied := sent[i := sent[i].(peer := done)];
        if status != Ok then (g.(stores := applied), status)
        else
          var (all, last) := Broadcast(applied, 0, done.raft.currentTerm, g.leaderId, e.index);
          (g.(stores := all), last)
  }

  function Put(g: Group, key: Text, value: Text): (Group, Status)
    requires AllValid(g.stores)
  {
    ProposeAndReplicate(g, EncodePut(key, value))
  }

  function Delete(g: Group, key: Text): (Group, Status)
    requires AllValid(g.stores)
  {
    ProposeAndReplicate(g, EncodeDelete(key))
  }

  function Batch(g: Group, mus: seq<Mutation>): (Group, Status)
    requires AllValid(g.stores)
  {
    if mus == [] then (g, Ok) else ProposeAndReplicate(g, EncodeBatch(mus))
  }

  // ---- Membership ----

  /** The user entries of a scan, in order. */
  function Movable(pairs: seq<(Text, Text)>): seq<(Text, Text)> {
    if pairs == [] then []
    else (if IsSystemKey(pairs[0].0) then [] else [pairs[0]]) + Movable(pairs[1..])
  }

  function Puts(pairs: seq<(Text, Text)>): seq<Mutation> {
    if pairs == [] then [] else [Mutation(KvEngine.Put, pairs[0].0, pairs[0].1)] + Puts(pairs[1..])
  }

  function Deletes(pairs: seq<(Text, Text)>): seq<Mutation> {
    if pairs == [] then [] else [Mutation(KvEngine.Delete, pairs[0].0, "")] + Deletes(pairs[1..])
  }

  /** What `AddPeer` builds on a fresh store: the leader's Raft state, its stored log, and its user data. */
  function Newcomer(leader: Peer, id: nat): Peer {
    var s := leader.raft;
    var raft := Restored(FreshState(s.regionId, id), s.currentTerm, s.votedFor, s.commitIndex, s.lastApplied, s.log);
    var p := Persist(Peer(raft, AppendLogs(map[], s.log)));
    p.(engine := MutateAll(p.engine, Puts(Movable(ScanRange(leader.engine, "", "")))))
  }

  function AddPeer(g: Group, storeId: nat, id: nat): (Group, Status) {
    if (exists j :: 0 <= j < |g.stores| && g.stores[j].storeId == storeId) || Position(g.stores, id) < |g.stores|
    then (g, Error(InvalidArgument))
    else
      var i := Position(g.stores, g.leaderId);
      if i == |g.stores| then (g.(stores := g.stores + [Replica(storeId, Peer(FreshState(g.regionId, id), map[]))]), Ok)
      else
        var leader := g.stores[i].peer;
        if !Restorable(g.regionId, leader.raft.commitIndex, leader.raft.lastApplied, leader.raft.log)
        then (g, Error(InvalidArgument))
        else (g.(stores := g.stores + [Replica(storeId, Newcomer(leader, id))]), Ok)
  }

  function RemovePeer(g: Group, id: nat): (Group, Status) {
    var i := Position(g.stores, id);
    if |g.stores| <= 1 || i == |g.stores| then (g, Error(InvalidArgument))
    else
      var rest := g.stores[..i] + g.stores[i + 1..];
      if g.leaderId == id then ElectLeader(Group(g.regionId, rest, 0), Id(rest[0])) else (g.(stores := rest), Ok)
  }

  // ---- Start-up ----

  /** Open every store on what its directory holds; the first failure ends it. */
  function OpenAll(regionId: nat, engines: seq<Store>): Result<seq<Replica>> {
    if engines == [] then Success([])
    else
      var n := |engines|;
      match OpenAll(regionId, engines[..n - 1])
      case Failure(e) => Failure(e)
      case Success(before) =>
        match Recovered(regionId, n, engines[n - 1])
        case Failure(e) => Failure(e)
        case Success(s) => Success(before + [Replica(n, Peer(s, engines[n - 1]))])
  }

  /** Stores and peers are numbered from 1; the first peer stands for election. */
  function Bootstrap(regionId: nat, engines: seq<Store>): (Group, Status) {
    if engines == [] then (Group(regionId, [], 0), Error(InvalidArgument))
    else
      match OpenAll(regionId, engines)
      case Failure(e) => (Group(regionId, [], 0), Error(e))
      case Success(stores) => ElectLeader(Group(regionId, stores, 0), 1)
  }
}
