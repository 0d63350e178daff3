/** Replicas of an in-process region move in lockstep, through writes, elections and membership changes. */
module Lockstep {
  import opened Basics
  import opened KvEngine
  import opened KvCommand
  import opened RaftCore
  import opened RaftStorage
  import opened RegionNode
  import opened SingleRegion

  /** A replica that is sound on its own and stands at this term and this log, all of it applied. */
  ghost predicate Twin(r: Replica, region: nat, term: nat, log: seq<LogEntry>) {
    && PeerOk(r.peer)
    && Id(r) != 0
    && r.peer.raft.regionId == region
    && r.peer.raft.currentTerm == term
    && r.peer.raft.log == log
    && r.peer.raft.lastApplied == r.peer.raft.commitIndex == |log|
  }

  ghost predicate DistinctStores(stores: seq<Replica>) {
    forall i, j :: 0 <= i < j < |stores| ==> Id(stores[i]) != Id(stores[j]) && stores[i].storeId != stores[j].storeId
  }

  ghost predicate Aligned(g: Group, term: nat, log: seq<LogEntry>) {
    && g.stores != []
    && DistinctStores(g.stores)
    && forall j :: 0 <= j < |g.stores| ==> Twin(g.stores[j], g.regionId, term, log)
  }

  /** Exactly the recorded leader is in role Leader, everyone else follows. */
  ghost predicate Led(g: Group) {
    && Position(g.stores, g.leaderId) < |g.stores|
    && forall j :: 0 <= j < |g.stores| ==>
         g.stores[j].peer.raft.role == if Id(g.stores[j]) == g.leaderId then Leader else Follower
  }

  function TermOf(g: Group): nat
    requires g.stores != []
  {
    g.stores[0].peer.raft.currentTerm
  }

  function LogOf(g: Group): seq<LogEntry>
    requires g.stores != []
  {
    g.stores[0].peer.raft.log
  }

  /** The invariant: equal terms and logs, everything committed and applied, one leader. */
  ghost predicate InStep(g: Group) {
    g.stores != [] && Aligned(g, TermOf(g), LogOf(g)) && Led(g)
  }

  /** Every replica's vote of this term is for the recorded leader. */
  ghost predicate Voted(g: Group) {
    forall j :: 0 <= j < |g.stores| ==> g.stores[j].peer.raft.votedFor == Some(g.leaderId)
  }

  ghost predicate SameVotes(g: Group, h: Group) {
    |g.stores| == |h.stores| && forall j :: 0 <= j < |g.stores| ==> h.stores[j].peer.raft.votedFor == g.stores[j].peer.raft.votedFor
  }

  /** The user data of the region. */
  function Data(g: Group): Store
    requires g.stores != []
  {
    UserMap(g.stores[0].peer.engine)
  }

  lemma AlignedValid(g: Group, term: nat, log: seq<LogEntry>)
    requires Aligned(g, term, log)
    ensures AllValid(g.stores) && LogOf(g) == log && TermOf(g) == term && GoodLog(g.regionId, log)
  {
    hide GoodLog, Stored, HardStateKept, UserMap, Contiguous;
    assert Twin(g.stores[0], g.regionId, term, log);
  }

  /** All replicas hold the same user data: what the log does to the empty map. */
  lemma SameData(g: Group, term: nat, log: seq<LogEntry>, j: nat)
    requires Aligned(g, term, log) && j < |g.stores|
    ensures UserMap(g.stores[j].peer.engine) == Data(g) == ApplyEntries(map[], log)
  {
    hide GoodLog, Stored, HardStateKept, UserMap, Contiguous, ApplyEntries;
    assert Twin(g.stores[0], g.regionId, term, log) && Twin(g.stores[j], g.regionId, term, log);
    assert log[..|log|] == log;
  }

  lemma PositionIs(stores: seq<Replica>, j: nat)
    requires DistinctStores(stores) && j < |stores|
    ensures Position(stores, Id(stores[j])) == j
  {}

  // ---- Elections ----

  lemma VoteGranted(r: Replica, region: nat, term: nat, log: seq<LogEntry>, req: VoteRequest)
    requires Twin(r, region, term, log)
    requires req == VoteRequest(term + 1, req.candidateId, LastLogIndex(log), LastLogTerm(log)) && req.candidateId != 0
    ensures var (p, res) := OnVote(r.peer, req);
            && res.granted && Twin(r.(peer := p), region, term + 1, log)
            && p.raft.role == Follower && p.raft.selfId == Id(r) && p.raft.votedFor == Some(req.candidateId)
  {
    hide Persist, Contiguous, PeerOk;
    VoteKeepsPeer(r.peer, req);
  }

  lemma {:induction false} AllGrant(stores: seq<Replica>, region: nat, term: nat, log: seq<LogEntry>, id: nat, req: VoteRequest)
    requires forall j :: 0 <= j < |stores| ==> Twin(stores[j], region, term, log)
    requires req == VoteRequest(term + 1, req.candidateId, LastLogIndex(log), LastLogTerm(log)) && req.candidateId != 0
    ensures Votes(stores, id, req) == Others(stores, id)
  {
    hide Twin, OnVote;
    if stores != [] {
      AllGrant(stores[..|stores| - 1], region, term, log, id, req);
      VoteGranted(stores[|stores| - 1], region, term, log, req);
    }
  }

  ghost function Others(stores: seq<Replica>, id: nat): nat {
    if stores == [] then 0
    else Others(stores[..|stores| - 1], id) + if Id(stores[|stores| - 1]) != id then 1 else 0
  }

  /** With distinct ids only one replica is left out, so everyone else is a majority together with it. */
  lemma {:induction false} OthersCount(stores: seq<Replica>, id: nat)
    requires DistinctStores(stores)
    ensures Others(stores, id) == if Position(stores, id) < |stores| then |stores| - 1 else |stores|
  {
    if stores != [] {
      var n := |stores| - 1;
      OthersCount(stores[..n], id);
      if Position(stores, id) < |stores| {
        if Position(stores[..n], id) < n {
          assert Id(stores[..n][Position(stores[..n], id)]) == id;
        } else {
          assert Position(stores, id) == n;
        }
      }
    }
  }

  lemma CandidateTwin(r: Replica, region: nat, term: nat, log: seq<LogEntry>)
    requires Twin(r, region, term, log)
    ensures var c := Campaign(r.peer);
            && c.raft.currentTerm == term + 1 && c.raft.selfId == Id(r)
            && BallotRequest(c.raft) == VoteRequest(term + 1, Id(r), LastLogIndex(log), LastLogTerm(log))
            && Twin(r.(peer := Promote(c)), region, term + 1, log)
            && Promote(c).raft.role == Leader && Promote(c).raft.selfId == Id(r) && Promote(c).raft.votedFor == Some(Id(r))
  {
    hide Persist, Contiguous, PeerOk;
    CampaignKeepsPeer(r.peer);
    PromoteKeepsPeer(Campaign(r.peer));
  }

  /** Every vote is granted, so the candidate is promoted and everyone else has voted. */
  lemma ElectionShape(g: Group, term: nat, log: seq<LogEntry>, id: nat)
    requires Aligned(g, term, log) && Position(g.stores, id) < |g.stores|
    ensures var i := Position(g.stores, id);
            var candidate := Campaign(g.stores[i].peer);
            var (h, status) := ElectLeader(g, id);
            && status == Ok && h.leaderId == id && h.regionId == g.regionId && |h.stores| == |g.stores|
            && h.stores[i] == g.stores[i].(peer := Promote(candidate))
            && forall j :: 0 <= j < |g.stores| && j != i ==> h.stores[j] == g.stores[j].(peer := OnVote(g.stores[j].peer, BallotRequest(candidate.raft)).0)
  {
    hide Twin, OnVote, Campaign, Promote, BallotRequest;
    var i := Position(g.stores, id);
    CandidateTwin(g.stores[i], g.regionId, term, log);
    TwinId(g.stores[i], g.regionId, term, log);
    AllGrant(g.stores, g.regionId, term, log, id, BallotRequest(Campaign(g.stores[i].peer).raft));
    OthersCount(g.stores, id);
  }

  /** An election among aligned replicas is always won, by whichever peer stands, and keeps the log. */
  lemma ElectionSucceeds(g: Group, term: nat, log: seq<LogEntry>, id: nat)
    requires Aligned(g, term, log) && Position(g.stores, id) < |g.stores|
    ensures var (h, status) := ElectLeader(g, id);
            && status == Ok && h.leaderId == id && h.regionId == g.regionId && SameIds(g, h)
            && Aligned(h, term + 1, log) && Led(h) && Voted(h)
  {
    hide Twin, OnVote, Campaign, Promote, BallotRequest, ElectLeader;
    ElectionShape(g, term, log, id);
    var i := Position(g.stores, id);
    CandidateTwin(g.stores[i], g.regionId, term, log);
    TwinId(g.stores[i], g.regionId, term, log);
    var h := ElectLeader(g, id).0;
    forall j | 0 <= j < |g.stores|
      ensures Id(h.stores[j]) == Id(g.stores[j]) && h.stores[j].storeId == g.stores[j].storeId
      ensures Twin(h.stores[j], g.regionId, term + 1, log)
      ensures h.stores[j].peer.raft.role == if j == i then Leader else Follower
      ensures h.stores[j].peer.raft.votedFor == Some(id)
    {
      if j != i {
        VoteGranted(g.stores[j], g.regionId, term, log, BallotRequest(Campaign(g.stores[i].peer).raft));
      }
    }
    PositionIs(h.stores, i);
  }

  lemma TwinId(r: Replica, region: nat, term: nat, log: seq<LogEntry>)
    requires Twin(r, region, term, log)
    ensures Id(r) != 0
  {}

  ghost predicate SameIds(g: Group, h: Group) {
    |g.stores| == |h.stores|
    && forall j :: 0 <= j < |g.stores| ==> Id(g.stores[j]) == Id(h.stores[j]) && g.stores[j].storeId == h.stores[j].storeId
  }

  // ---- Writes ----

  /** A replica that has stored the next entry but not applied it. */
  ghost predicate Half(r: Replica, region: nat, term: nat, log: seq<LogEntry>) {
    && PeerOk(r.peer)
    && Id(r) != 0
    && r.peer.raft.regionId == region
    && r.peer.raft.currentTerm == term
    && r.peer.raft.log == log
    && r.peer.raft.role == Follower
    && r.peer.raft.lastApplied == r.peer.raft.commitIndex == |log| - 1
  }

  ghost predicate NextEntry(region: nat, term: nat, log: seq<LogEntry>, e: LogEntry) {
    e == LogEntry(region, |log| + 1, term, Normal, e.command) && GoodCommand(e.command) && |log| < MAX_U64
  }

  /** The request that a leader at this log sends for its next entry. */
  ghost predicate Sends(req: AppendRequest, term: nat, log: seq<LogEntry>, e: LogEntry) {
    req == AppendRequest(term, req.leaderId, |log|, LastLogTerm(log), [e], |log|)
  }

  lemma HandlerTakes(s: RaftState, req: AppendRequest, e: LogEntry)
    requires Valid(s) && s.role == Follower && s.commitIndex == |s.log| && e.index == |s.log| + 1
    requires Sends(req, s.currentTerm, s.log, e)
    ensures WellFormed(req)
    ensures HandleAppend(s, req).0 == s.(log := s.log + [e]) && HandleAppend(s, req).1.success
  {
    assert LastLogIndex(s.log) == |s.log|;
    assert AppendAll(AppendOne(s, e), [e][1..]) == (AppendOne(s, e), true);
    assert [e][0] == e;
    assert AppendAll(s, [e]) == (s.(log := s.log + [e]), true);
  }

  lemma GoodNext(region: nat, term: nat, log: seq<LogEntry>, e: LogEntry)
    requires GoodLog(region, log) && NextEntry(region, term, log, e)
    ensures GoodLog(region, log + [e])
  {
    hide ParseCommand, IsUserKey;
  }

  /** Storing the next entry beside memory keeps everything but the hard state, which follows. */
  lemma StoreEntry(p: Peer, e: LogEntry)
    requires PeerOk(p) && GoodLog(p.raft.regionId, p.raft.log + [e]) && e.index == |p.raft.log| + 1
    ensures Staged(Peer(p.raft.(log := p.raft.log + [e]), AppendLog(p.engine, e)))
  {
    hide Stored, UserMap, ApplyEntries, HardStateKept, AppendLog, AppendLogs, GoodEntries;
    AppendStored(p.engine, p.raft.regionId, p.raft.log, e);
    OneAppend(p.engine, e);
    AppendLogsUser(p.engine, [e]);
    assert (p.raft.log + [e])[..p.raft.lastApplied] == p.raft.log[..p.raft.lastApplied];
  }

  lemma ReceiveStores(r: Replica, region: nat, term: nat, log: seq<LogEntry>, req: AppendRequest, e: LogEntry)
    requires Twin(r, region, term, log) && r.peer.raft.role == Follower && NextEntry(region, term, log, e) && Sends(req, term, log, e)
    ensures WellFormed(req) && Valid(r.peer.raft)
    ensures var (p, ok) := Receive(r.peer, req, e);
            ok && Half(r.(peer := p), region, term, log + [e]) && p.raft.selfId == Id(r) && p.raft.votedFor == r.peer.raft.votedFor
  {
    hide Stored, UserMap, ApplyEntries, HardStateKept, AppendLog, GoodLog, Persist, HandleAppend, Contiguous, GoodCommand;
    HandlerTakes(r.peer.raft, req, e);
    GoodNext(region, term, log, e);
    StoreEntry(r.peer, e);
    PersistKeeps(Peer(r.peer.raft.(log := log + [e]), AppendLog(r.peer.engine, e)));
  }

  lemma HandlerCommits(s: RaftState, req: AppendRequest)
    requires Valid(s) && s.role == Follower && s.commitIndex <= |s.log|
    requires req == AppendRequest(s.currentTerm, req.leaderId, |s.log|, LastLogTerm(s.log), [], |s.log|)
    ensures WellFormed(req)
    ensures HandleAppend(s, req).0 == s.(commitIndex := |s.log|) && HandleAppend(s, req).1.success
  {
    assert LastLogIndex(s.log) == |s.log|;
  }

  /** The commit broadcast completes a replica that has the entry. */
  lemma FollowCompletes(r: Replica, region: nat, term: nat, log: seq<LogEntry>, leaderId: nat)
    requires Half(r, region, term, log)
    ensures Valid(r.peer.raft)
    ensures var (p, status) := Follow(r.peer, term, leaderId, |log|);
            && status == Ok && Twin(r.(peer := p), region, term, log) && p.raft.role == Follower && p.raft.selfId == Id(r)
            && p.raft.votedFor == r.peer.raft.votedFor
  {
    hide Stored, UserMap, ApplyEntries, HardStateKept, GoodLog, Persist, HandleAppend, ApplyStatus, Contiguous;
    LastIs(log);
    HandlerCommits(r.peer.raft, CommitRequest(r.peer, term, leaderId, |log|));
    var q := r.peer.(raft := r.peer.raft.(commitIndex := |log|));
    PendingGood(q);
    ApplyKeeps(q);
    PersistKeeps(ApplyCommitted(q));
  }

  lemma LastIs(log: seq<LogEntry>)
    requires Contiguous(log)
    ensures LastLogIndex(log) == |log|
  {}

  /** The leader's own part: append, and after the majority commit, apply, persist. */
  lemma LeaderCompletes(r: Replica, region: nat, term: nat, log: seq<LogEntry>, command: Text)
    requires Twin(r, region, term, log) && r.peer.raft.role == Leader && GoodCommand(command) && |log| < MAX_U64
    ensures var e := NewEntry(r.peer.raft, Normal, command);
            var offered := Offer(r.peer, command);
            && NextEntry(region, term, log, e)
            && offered.raft == r.peer.raft.(log := log + [e]) && Valid(offered.raft)
            && Sends(EntryRequest(offered.raft, Id(r), e), term, log, e)
            && Valid(SetCommitIndex(offered.raft, e.index))
            && var (p, status) := ApplyAndPersist(offered.(raft := SetCommitIndex(offered.raft, e.index)));
            && status == Ok && Twin(r.(peer := p), region, term, log + [e]) && p.raft.role == Leader && p.raft.selfId == Id(r)
            && p.raft.votedFor == r.peer.raft.votedFor
  {
    hide Stored, UserMap, ApplyEntries, HardStateKept, GoodLog, Persist, ApplyStatus, GoodCommand, AppendLog;
    OfferValid(r.peer, command);
    OfferKeepsPeer(r.peer, command);
    var offered := Offer(r.peer, command);
    var e := NewEntry(r.peer.raft, Normal, command);
    LastIs(log);
    LastIs(offered.raft.log);
    LeaderSends(r.peer.raft, log, e);
    CommitKeepsPeer(offered);
    PendingGood(offered.(raft := SetCommitIndex(offered.raft, e.index)));
  }

  lemma LeaderSends(s: RaftState, log: seq<LogEntry>, e: LogEntry)
    requires s.log == log && s.commitIndex == |log| && e.index == |log| + 1
    ensures Sends(EntryRequest(s.(log := log + [e]), s.selfId, e), s.currentTerm, log, e)
  {}

  // ---- The loops over the replicas ----

  lemma {:induction false} AllAck(stores: seq<Replica>, region: nat, term: nat, log: seq<LogEntry>, id: nat, req: AppendRequest, e: LogEntry)
    requires forall j :: 0 <= j < |stores| ==>
               Twin(stores[j], region, term, log) && (Id(stores[j]) != id ==> stores[j].peer.raft.role == Follower)
    requires NextEntry(region, term, log, e) && Sends(req, term, log, e)
    ensures WellFormed(req) && AllValid(stores) && Acks(stores, id, req, e) == Others(stores, id)
  {
    hide Receive, NextEntry, Sends, PeerOk;
    SentWellFormed(req, region, term, log, e);
    TwinsValid(stores, region, term, log);
    if stores != [] {
      var n := |stores| - 1;
      AllAck(stores[..n], region, term, log, id, req, e);
      if Id(stores[n]) != id {
        ReceiveStores(stores[n], region, term, log, req, e);
      }
    }
  }

  lemma SentWellFormed(req: AppendRequest, region: nat, term: nat, log: seq<LogEntry>, e: LogEntry)
    requires NextEntry(region, term, log, e) && Sends(req, term, log, e)
    ensures WellFormed(req)
  {}

  lemma TwinsValid(stores: seq<Replica>, region: nat, term: nat, log: seq<LogEntry>)
    requires forall j :: 0 <= j < |stores| ==> Twin(stores[j], region, term, log)
    ensures AllValid(stores)
  {
    hide GoodLog, Stored, HardStateKept, UserMap, Contiguous;
  }

  /** When every replica follows, the broadcast reaches all of them. */
  lemma {:induction false} BroadcastReaches(stores: seq<Replica>, k: nat, term: nat, leaderId: nat, commit: nat)
    requires AllValid(stores) && k <= |stores|
    requires forall j :: k <= j < |stores| && Id(stores[j]) != leaderId ==>
               Follow(stores[j].peer, term, leaderId, commit).1 == Ok && Follow(stores[j].peer, term, leaderId, commit).0.raft.selfId == Id(stores[j])
    ensures var (all, status) := Broadcast(stores, k, term, leaderId, commit);
            && status == Ok && |all| == |stores|
            && forall j :: 0 <= j < |stores| ==>
                 all[j] == if j < k || Id(stores[j]) == leaderId then stores[j]
                           else stores[j].(peer := Follow(stores[j].peer, term, leaderId, commit).0)
    decreases |stores| - k
  {
    hide Follow, Valid;
    if k < |stores| {
      if Id(stores[k]) == leaderId {
        BroadcastReaches(stores, k + 1, term, leaderId, commit);
      } else {
        var next := stores[k := stores[k].(peer := Follow(stores[k].peer, term, leaderId, commit).0)];
        BroadcastReaches(next, k + 1, term, leaderId, commit);
      }
    }
  }

  // ---- Every write succeeds ----

  /** The replicas after the entry went out: the leader as it was, everyone else half-way. */
  lemma SentHalf(g: Group, term: nat, log: seq<LogEntry>, i: nat, offered: Peer, req: AppendRequest, e: LogEntry)
    requires Aligned(g, term, log) && Led(g) && i == Position(g.stores, g.leaderId)
    requires NextEntry(g.regionId, term, log, e) && Sends(req, term, log, e)
    requires Valid(offered.raft) && offered.raft.selfId == g.leaderId
    ensures WellFormed(req) && AllValid(g.stores) && AllValid(g.stores[i := g.stores[i].(peer := offered)])
    ensures Acks(g.stores, g.leaderId, req, e) == |g.stores| - 1
    ensures var sent := SendAll(g.stores[i := g.stores[i].(peer := offered)], g.leaderId, req, e);
            && sent[i] == g.stores[i].(peer := offered)
            && forall j :: 0 <= j < |sent| && j != i ==>
                 && Half(sent[j], g.regionId, term, log + [e]) && Id(sent[j]) == Id(g.stores[j]) && sent[j].storeId == g.stores[j].storeId
                 && sent[j].peer.raft.votedFor == g.stores[j].peer.raft.votedFor
  {
    hide Receive, NextEntry, Sends, PeerOk, Valid;
    AllAck(g.stores, g.regionId, term, log, g.leaderId, req, e);
    OthersCount(g.stores, g.leaderId);
    var sent := SendAll(g.stores[i := g.stores[i].(peer := offered)], g.leaderId, req, e);
    forall j | 0 <= j < |sent| && j != i
      ensures Half(sent[j], g.regionId, term, log + [e]) && Id(sent[j]) == Id(g.stores[j]) && sent[j].storeId == g.stores[j].storeId
      ensures sent[j].peer.raft.votedFor == g.stores[j].peer.raft.votedFor
    {
      assert Id(g.stores[j]) != g.leaderId;
      ReceiveStores(g.stores[j], g.regionId, term, log, req, e);
    }
  }

  lemma BroadcastCompletes(stores: seq<Replica>, i: nat, region: nat, term: nat, log: seq<LogEntry>, leaderId: nat)
    requires DistinctStores(stores) && i < |stores| && Id(stores[i]) == leaderId
    requires Twin(stores[i], region, term, log)
    requires forall j :: 0 <= j < |stores| && j != i ==> Half(stores[j], region, term, log)
    ensures AllValid(stores)
    ensures var (all, status) := Broadcast(stores, 0, term, leaderId, |log|);
            && status == Ok && |all| == |stores| && all[i] == stores[i]
            && forall j :: 0 <= j < |all| && j != i ==>
                 && Twin(all[j], region, term, log) && all[j].peer.raft.role == Follower
                 && Id(all[j]) == Id(stores[j]) && all[j].storeId == stores[j].storeId
                 && all[j].peer.raft.votedFor == stores[j].peer.raft.votedFor
  {
    hide Follow, Broadcast;
    forall j | 0 <= j < |stores| ensures Valid(stores[j].peer.raft) {
      if j != i {
        FollowCompletes(stores[j], region, term, log, leaderId);
      } else {
        TwinsValid([stores[i]], region, term, log);
        assert Valid([stores[i]][0].peer.raft);
      }
    }
    hide Half, Twin, Valid;
    forall j | 0 <= j < |stores| && j != i
      ensures var (p, status) := Follow(stores[j].peer, term, leaderId, |log|);
              && status == Ok && Twin(stores[j].(peer := p), region, term, log) && p.raft.role == Follower && p.raft.selfId == Id(stores[j])
              && p.raft.votedFor == stores[j].peer.raft.votedFor
    {
      FollowCompletes(stores[j], region, term, log, leaderId);
    }
    BroadcastReaches(stores, 0, term, leaderId, |log|);
  }

  /** What a write does to a group in step. */
  ghost predicate Written(g: Group, h: Group, command: Text)
    requires g.stores != [] && h.stores != []
  {
    && h.regionId == g.regionId && h.leaderId == g.leaderId && SameIds(g, h) && SameVotes(g, h)
    && TermOf(h) == TermOf(g)
    && LogOf(h) == LogOf(g) + [LogEntry(g.regionId, |LogOf(g)| + 1, TermOf(g), Normal, command)]
  }

  /** The replicas just before the commit broadcast: the leader done, everyone else half-way. */
  ghost predicate MidWrite(g: Group, applied: seq<Replica>, e: LogEntry)
    requires g.stores != []
  {
    var i := Position(g.stores, g.leaderId);
    && |applied| == |g.stores| && i < |applied|
    && (forall j :: 0 <= j < |applied| ==> Id(applied[j]) == Id(g.stores[j]) && applied[j].storeId == g.stores[j].storeId)
    && (forall j :: 0 <= j < |applied| ==> applied[j].peer.raft.votedFor == g.stores[j].peer.raft.votedFor)
    && Twin(applied[i], g.regionId, TermOf(g), LogOf(g) + [e]) && applied[i].peer.raft.role == Leader
    && (forall j :: 0 <= j < |applied| && j != i ==> Half(applied[j], g.regionId, TermOf(g), LogOf(g) + [e]))
    && AllValid(applied)
  }

  lemma WriteStages(g: Group, command: Text) returns (applied: seq<Replica>, e: LogEntry)
    requires InStep(g) && GoodCommand(command) && |LogOf(g)| < MAX_U64
    ensures AllValid(g.stores) && e == LogEntry(g.regionId, |LogOf(g)| + 1, TermOf(g), Normal, command)
    ensures MidWrite(g, applied, e)
    ensures ProposeAndReplicate(g, command)
         == (g.(stores := Broadcast(applied, 0, TermOf(g), g.leaderId, |LogOf(g)| + 1).0), Broadcast(applied, 0, TermOf(g), g.leaderId, |LogOf(g)| + 1).1)
  {
    hide GoodCommand, Half, Twin, Receive, Follow, Broadcast, ApplyAndPersist, Offer, EntryRequest, NextEntry, Sends, WellFormed, Contiguous, SetCommitIndex;
    var term, log := TermOf(g), LogOf(g);
    AlignedValid(g, term, log);
    var i := Position(g.stores, g.leaderId);
    var leader := g.stores[i].peer;
    LeaderCompletes(g.stores[i], g.regionId, term, log, command);
    hide Aligned;
    e := NewEntry(leader.raft, Normal, command);
    EntryIs(g.regionId, term, log, e);
    var offered := Offer(leader, command);
    var req := EntryRequest(offered.raft, g.leaderId, e);
    SentHalf(g, term, log, i, offered, req, e);
    var sent := SendAll(g.stores[i := g.stores[i].(peer := offered)], g.leaderId, req, e);
    var done := ApplyAndPersist(offered.(raft := SetCommitIndex(offered.raft, e.index))).0;
    applied := sent[i := sent[i].(peer := done)];
    assert applied[i] == g.stores[i].(peer := done);
    TwinTerm(applied[i], g.regionId, term, log + [e]);
    ApplyValid(offered.(raft := SetCommitIndex(offered.raft, e.index)));
  }

  /** A write of a good command to a group in step always reaches everyone: it reports success, no replica lags behind. */
  lemma WriteSucceeds(g: Group, command: Text)
    requires InStep(g) && GoodCommand(command) && |LogOf(g)| < MAX_U64
    ensures AllValid(g.stores)
    ensures var (h, status) := ProposeAndReplicate(g, command);
            status == Ok && InStep(h) && Written(g, h, command)
  {
    hide GoodCommand, Half, Twin, Broadcast, ProposeAndReplicate, Valid;
    var applied, e := WriteStages(g, command);
    var term, log := TermOf(g), LogOf(g);
    var i := Position(g.stores, g.leaderId);
    BroadcastCompletes(applied, i, g.regionId, term, log + [e], g.leaderId);
    var h := ProposeAndReplicate(g, command).0;
    assert h.stores == Broadcast(applied, 0, term, g.leaderId, |log| + 1).0;
    PositionIs(h.stores, i);
    AlignedValid(h, term, log + [e]);
  }

  lemma EntryIs(region: nat, term: nat, log: seq<LogEntry>, e: LogEntry)
    requires NextEntry(region, term, log, e)
    ensures 1 <= e.index == |log| + 1 && e == LogEntry(region, |log| + 1, term, Normal, e.command)
  {}

  lemma TwinTerm(r: Replica, region: nat, term: nat, log: seq<LogEntry>)
    requires Twin(r, region, term, log)
    ensures r.peer.raft.currentTerm == term
  {}

  /** The data changes by exactly what the command says. */
  lemma WriteData(g: Group, h: Group, command: Text)
    requires InStep(g) && InStep(h) && Written(g, h, command) && GoodCommand(command)
    ensures ParseCommand(command).Success? && Data(h) == MutateAll(Data(g), ParseCommand(command).value)
  {
    var e := LogEntry(g.regionId, |LogOf(g)| + 1, TermOf(g), Normal, command);
    SameData(g, TermOf(g), LogOf(g), 0);
    SameData(h, TermOf(h), LogOf(h), 0);
    AlignedValid(g, TermOf(g), LogOf(g));
    AppliedOne(LogOf(g), e);
  }

  lemma AppliedOne(log: seq<LogEntry>, e: LogEntry)
    requires GoodEntries(log) && GoodCommand(e.command) && e.kind == Normal
    ensures ParseCommand(e.command).Success?
    ensures ApplyEntries(map[], log + [e]) == MutateAll(ApplyEntries(map[], log), ParseCommand(e.command).value)
  {
    hide ParseCommand, IsUserKey;
    ApplyAppend(map[], log, [e]);
    assert [e][0] == e && [e][1..] == [];
    assert ApplyEntries(MutateAll(ApplyEntries(map[], log), ParseCommand(e.command).value), []) == MutateAll(ApplyEntries(map[], log), ParseCommand(e.command).value);
  }
}
