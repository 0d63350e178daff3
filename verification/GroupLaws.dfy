/** What the operations of the in-process region decide on any group, whatever its replicas hold: who wins, what is committed
    and where a broadcast ends. */
module GroupLaws {
  import opened Basics
  import opened KvEngine
  import opened RaftCore
  import opened RaftLaws
  import opened RaftStorage
  import opened RegionNode
  import opened SingleRegion

  // ---- Elections ----

  /** The positions of the other replicas that grant their vote. */
  ghost function Granting(stores: seq<Replica>, id: nat, req: VoteRequest): set<nat> {
    set j: nat | j < |stores| && Id(stores[j]) != id && OnVote(stores[j].peer, req).1.granted
  }

  lemma {:induction false} VotesAreGranting(stores: seq<Replica>, id: nat, req: VoteRequest)
    ensures Votes(stores, id, req) == |Granting(stores, id, req)|
    decreases |stores|
  {
    hide OnVote;
    if stores != [] {
      var n := |stores| - 1;
      VotesAreGranting(stores[..n], id, req);
      var yes := Id(stores[n]) != id && OnVote(stores[n].peer, req).1.granted;
      assert Granting(stores, id, req) == Granting(stores[..n], id, req) + if yes then {n} else {};
    }
  }

  /** The replica at `i` is the first with this peer id. */
  ghost predicate FirstWith(stores: seq<Replica>, id: nat, i: nat) {
    i < |stores| && Id(stores[i]) == id && forall j :: 0 <= j < i ==> Id(stores[j]) != id
  }

  lemma FirstIsPosition(stores: seq<Replica>, id: nat, i: nat)
    requires FirstWith(stores, id, i)
    ensures Position(stores, id) == i
  {}

  lemma CandidateIs(p: Peer)
    ensures var s, c := p.raft, Campaign(p);
            && c.raft == RaftState(s.regionId, s.selfId, Candidate, s.currentTerm + 1, Some(s.selfId), s.commitIndex, s.lastApplied, s.log)
            && Promote(c).raft == c.raft.(role := Leader)
            && BallotRequest(c.raft) == VoteRequest(s.currentTerm + 1, s.selfId, LastLogIndex(s.log), LastLogTerm(s.log))
  {
    hide SaveHardState;
  }

  lemma ElectUnfolds(g: Group, id: nat, i: nat)
    requires FirstWith(g.stores, id, i)
    ensures var candidate := Campaign(g.stores[i].peer);
            var req := BallotRequest(candidate.raft);
            var won := 1 + Votes(g.stores, id, req) > |g.stores| / 2;
            var (h, status) := ElectLeader(g, id);
            && status == (if won then Ok else Error(Internal)) && |h.stores| == |g.stores|
            && h.regionId == g.regionId && h.leaderId == (if won then id else g.leaderId)
            && h.stores[i] == g.stores[i].(peer := if won then Promote(candidate) else candidate)
            && forall j :: 0 <= j < |g.stores| && Id(g.stores[j]) != id ==> h.stores[j] == g.stores[j].(peer := OnVote(g.stores[j].peer, req).0)
  {
    FirstIsPosition(g.stores, id, i);
    hide OnVote, BallotRequest, Promote, Persist, Votes, Position;
  }

  /** An election: the peer stands in the next term with a vote for itself, every other replica runs its vote handler, and the
      peer leads exactly when it and those that grant are more than half. */
  lemma ElectExactly(g: Group, id: nat, i: nat)
    requires FirstWith(g.stores, id, i)
    ensures var (h, status) := ElectLeader(g, id);
            var s := g.stores[i].peer.raft;
            var req := VoteRequest(s.currentTerm + 1, id, LastLogIndex(s.log), LastLogTerm(s.log));
            var won := 2 * (1 + |Granting(g.stores, id, req)|) > |g.stores|;
            && status == (if won then Ok else Error(Internal))
            && h.regionId == g.regionId && h.leaderId == (if won then id else g.leaderId) && |h.stores| == |g.stores|
            && h.stores[i].storeId == g.stores[i].storeId
            && h.stores[i].peer.raft == RaftState(s.regionId, id, if won then Leader else Candidate, s.currentTerm + 1, Some(id),
                                                  s.commitIndex, s.lastApplied, s.log)
            && forall j :: 0 <= j < |g.stores| && Id(g.stores[j]) != id ==> h.stores[j] == g.stores[j].(peer := OnVote(g.stores[j].peer, req).0)
  {
    CandidateIs(g.stores[i].peer);
    ElectUnfolds(g, id, i);
    hide OnVote, FirstWith, Campaign, Promote, BallotRequest, Granting, LastLogIndex, LastLogTerm, ElectLeader, Votes;
    VotesAreGranting(g.stores, id, BallotRequest(Campaign(g.stores[i].peer).raft));
  }

  lemma ElectUnknown(g: Group, id: nat)
    requires forall j :: 0 <= j < |g.stores| ==> Id(g.stores[j]) != id
    ensures ElectLeader(g, id) == (g, Error(InvalidArgument))
  {}

  // ---- Writes ----

  /** A follower that accepts an entry stores it and then its hard state; one that refuses stores nothing. */
  lemma ReceiveExactly(p: Peer, req: AppendRequest, e: LogEntry)
    requires Valid(p.raft) && WellFormed(req)
    ensures var (q, ok) := Receive(p, req, e);
            && ok == HandleAppend(p.raft, req).1.success && q.raft == HandleAppend(p.raft, req).0
            && q.engine == if ok then SaveHardState(AppendLog(p.engine, e), q.raft.regionId,
                                                    HardState(q.raft.currentTerm, if q.raft.votedFor.Some? then q.raft.votedFor.value else 0,
                                                              q.raft.commitIndex, q.raft.lastApplied))
                           else p.engine
  {
    hide HandleAppend, WellFormed;
  }

  lemma AppliedIs(p: Peer)
    requires Valid(p.raft)
    ensures var (q, status) := ApplyAndPersist(p);
            var news := p.raft.log[p.raft.lastApplied..p.raft.commitIndex];
            && Valid(q.raft) && q.raft == p.raft.(lastApplied := p.raft.commitIndex) && status == ApplyStatus(news)
            && q.engine == if status == Ok then Persist(Peer(q.raft, ApplyEntries(p.engine, news))).engine else ApplyEntries(p.engine, news)
  {
    hide Persist, ApplyEntries, ApplyStatus, Contiguous;
    if p.raft.lastApplied == p.raft.commitIndex {
      assert p.raft.log[p.raft.lastApplied..p.raft.commitIndex] == [];
    }
  }

  lemma CommitHandled(p: Peer, term: nat, leaderId: nat, commit: nat)
    requires Valid(p.raft)
    ensures var (s, res) := HandleAppend(p.raft, CommitRequest(p, term, leaderId, commit));
            && res.success == (term >= p.raft.currentTerm)
            && (if term < p.raft.currentTerm then s == p.raft
                else s == Following(p.raft, term).(commitIndex := Raised(p.raft.commitIndex, commit, |p.raft.log|)) && Valid(s))
  {
    hide Contiguous;
    RaftLaws.LastIs(p.raft.log);
  }

  /** A follower on the commit broadcast: an older term is refused. Otherwise it commits up to the leader's index or the end of
      its own log, applies what is new, and stores the positions only when every command applied. */
  lemma FollowExactly(p: Peer, term: nat, leaderId: nat, commit: nat)
    requires Valid(p.raft)
    ensures var (q, status) := Follow(p, term, leaderId, commit);
            var upTo := Raised(p.raft.commitIndex, commit, |p.raft.log|);
            && (term < p.raft.currentTerm ==> q == p && status == Error(Internal))
            && (term >= p.raft.currentTerm ==>
                  && p.raft.lastApplied <= upTo <= |p.raft.log|
                  && q.raft == Following(p.raft, term).(commitIndex := upTo, lastApplied := upTo)
                  && var news := p.raft.log[p.raft.lastApplied..upTo];
                  && status == ApplyStatus(news)
                  && q.engine == if status == Ok then Persist(Peer(q.raft, ApplyEntries(p.engine, news))).engine else ApplyEntries(p.engine, news))
  {
    hide Persist, ApplyEntries, ApplyStatus, Contiguous, HandleAppend, ApplyAndPersist;
    CommitHandled(p, term, leaderId, commit);
    var (s, res) := HandleAppend(p.raft, CommitRequest(p, term, leaderId, commit));
    if res.success {
      AppliedIs(p.(raft := s));
      Bounds(s);
    }
  }

  lemma Bounds(s: RaftState)
    requires Valid(s)
    ensures s.lastApplied <= s.commitIndex <= |s.log|
  {}

  ghost function Received(r: Replica, req: AppendRequest, e: LogEntry): Replica
    requires Valid(r.peer.raft) && WellFormed(req)
  {
    r.(peer := Receive(r.peer, req, e).0)
  }

  /** The replica is another than the leader and takes the entry. */
  ghost predicate Takes(r: Replica, leaderId: nat, req: AppendRequest, e: LogEntry) {
    Valid(r.peer.raft) && WellFormed(req) && Id(r) != leaderId && Receive(r.peer, req, e).1
  }

  ghost function Taking(stores: seq<Replica>, leaderId: nat, req: AppendRequest, e: LogEntry): set<nat> {
    set j: nat | j < |stores| && Takes(stores[j], leaderId, req, e)
  }

  lemma {:induction false} AcksAreTaking(stores: seq<Replica>, leaderId: nat, req: AppendRequest, e: LogEntry)
    requires AllValid(stores) && WellFormed(req)
    ensures Acks(stores, leaderId, req, e) == |Taking(stores, leaderId, req, e)|
    decreases |stores|
  {
    hide Receive, WellFormed, Taking, Valid;
    if stores == [] {
      TakingNone(leaderId, req, e);
    } else {
      var n := |stores| - 1;
      AcksAreTaking(stores[..n], leaderId, req, e);
      TakingGrows(stores, leaderId, req, e);
    }
  }

  lemma TakingNone(leaderId: nat, req: AppendRequest, e: LogEntry)
    ensures Taking([], leaderId, req, e) == {}
  {}

  lemma TakingGrows(stores: seq<Replica>, leaderId: nat, req: AppendRequest, e: LogEntry)
    requires stores != []
    ensures var n := |stores| - 1;
            |Taking(stores, leaderId, req, e)| == |Taking(stores[..n], leaderId, req, e)| + if Takes(stores[n], leaderId, req, e) then 1 else 0
  {
    hide Takes;
    var n := |stores| - 1;
    assert Taking(stores, leaderId, req, e) == Taking(stores[..n], leaderId, req, e) + if Takes(stores[n], leaderId, req, e) then {n} else {};
  }

  /** The broadcast ends at the first follower that fails: those before it have followed, those behind it are untouched. */
  lemma {:induction false} BroadcastStops(stores: seq<Replica>, k: nat, f: nat, term: nat, leaderId: nat, commit: nat)
    requires AllValid(stores) && k <= f < |stores|
    requires Id(stores[f]) != leaderId && Follow(stores[f].peer, term, leaderId, commit).1 != Ok
    requires forall j :: k <= j < f && Id(stores[j]) != leaderId ==> Follow(stores[j].peer, term, leaderId, commit).1 == Ok
    ensures var (all, status) := Broadcast(stores, k, term, leaderId, commit);
            && status == Follow(stores[f].peer, term, leaderId, commit).1 && |all| == |stores|
            && forall j :: 0 <= j < |stores| ==>
                 all[j] == if k <= j <= f && Id(stores[j]) != leaderId then stores[j].(peer := Follow(stores[j].peer, term, leaderId, commit).0)
                           else stores[j]
    decreases f - k
  {
    hide Follow, Valid;
    if k < f {
      var next := if Id(stores[k]) == leaderId then stores else stores[k := stores[k].(peer := Follow(stores[k].peer, term, leaderId, commit).0)];
      BroadcastStops(next, k + 1, f, term, leaderId, commit);
    }
  }

  /** The request for the next entry of a leader in state `s`, with every field. */
  ghost function NextRequest(s: RaftState, leaderId: nat, e: LogEntry): AppendRequest {
    AppendRequest(s.currentTerm, leaderId, |s.log|, if s.log == [] then 0 else s.log[|s.log| - 1].term, [e], s.commitIndex)
  }

  /** Without a replica that leads, a proposal is refused and changes nothing. */
  lemma ProposeWithoutLeader(g: Group, command: Text)
    requires AllValid(g.stores)
    requires forall j: nat :: FirstWith(g.stores, g.leaderId, j) ==> g.stores[j].peer.raft.role != Leader
    ensures ProposeAndReplicate(g, command) == (g, Error(NotLeader))
  {
    hide Valid, WellFormed, Persist, ApplyAndPersist, Receive, Follow, Broadcast;
    var i := Position(g.stores, g.leaderId);
    assert i < |g.stores| ==> FirstWith(g.stores, g.leaderId, i);
  }

  lemma OfferIs(p: Peer, leaderId: nat, command: Text)
    requires Valid(p.raft) && p.raft.role == Leader
    ensures var s := p.raft;
            var e := LogEntry(s.regionId, |s.log| + 1, s.currentTerm, Normal, command);
            var offered := Peer(s.(log := s.log + [e]), AppendLog(p.engine, e));
            && NewEntry(s, Normal, command) == e && Offer(p, command) == offered && Valid(offered.raft)
            && EntryRequest(offered.raft, leaderId, e) == NextRequest(s, leaderId, e) && WellFormed(NextRequest(s, leaderId, e))
            && SetCommitIndex(offered.raft, e.index) == offered.raft.(commitIndex := |s.log| + 1)
            && Valid(offered.raft.(commitIndex := |s.log| + 1))
  {}

  lemma ProposeUnfolds(g: Group, command: Text, i: nat, e: LogEntry, req: AppendRequest, offered: Peer, committed: Peer)
    requires AllValid(g.stores) && FirstWith(g.stores, g.leaderId, i) && g.stores[i].peer.raft.role == Leader
    requires e == NewEntry(g.stores[i].peer.raft, Normal, command) && e.index == |g.stores[i].peer.raft.log| + 1 && offered == Offer(g.stores[i].peer, command)
    requires Valid(offered.raft) && |offered.raft.log| == e.index && req == EntryRequest(offered.raft, g.leaderId, e) && WellFormed(req)
    requires committed == offered.(raft := SetCommitIndex(offered.raft, e.index)) && Valid(committed.raft) && Valid(ApplyAndPersist(committed).0.raft)
    ensures AllValid(g.stores[i := g.stores[i].(peer := offered)])
    ensures var sent := SendAll(g.stores[i := g.stores[i].(peer := offered)], g.leaderId, req, e);
            var (done, applied) := ApplyAndPersist(committed);
            var mid := sent[i := sent[i].(peer := done)];
            && AllValid(mid)
            && ProposeAndReplicate(g, command)
               == (if 1 + Acks(g.stores, g.leaderId, req, e) <= |g.stores| / 2 then (g.(stores := sent), Error(Internal))
                   else if applied != Ok then (g.(stores := mid), applied)
                   else (g.(stores := Broadcast(mid, 0, done.raft.currentTerm, g.leaderId, e.index).0),
                         Broadcast(mid, 0, done.raft.currentTerm, g.leaderId, e.index).1))
  {
    FirstIsPosition(g.stores, g.leaderId, i);
    hide Valid, WellFormed, ApplyAndPersist, Receive, Broadcast, Position, FirstWith, Offer, NewEntry, EntryRequest, SetCommitIndex, Acks;
  }

  /** The entry that a leader in state `s` proposes. */
  ghost function Proposal(s: RaftState, command: Text): LogEntry {
    LogEntry(s.regionId, |s.log| + 1, s.currentTerm, Normal, command)
  }

  /** A leader's proposal. The entry stays in its log and in the logs of those that take it. When these are not more than half,
      that is all; otherwise it is committed, and the others are told exactly when all that was pending applied. */
  ghost predicate Proposed(g: Group, e: LogEntry, req: AppendRequest, i: nat, mid: seq<Replica>, h: Group, status: Status)
    requires AllValid(g.stores) && AllValid(mid) && i < |mid| == |g.stores| && WellFormed(req)
  {
    var p := g.stores[i].peer;
    var grown := Peer(p.raft.(log := p.raft.log + [e]), AppendLog(p.engine, e));
    var committed := grown.(raft := grown.raft.(commitIndex := |grown.raft.log|));
    var won := 2 * (1 + |Taking(g.stores, g.leaderId, req, e)|) > |g.stores|;
    var (done, applied) := ApplyAndPersist(committed);
    && mid[i] == g.stores[i].(peer := if won then done else grown)
    && (forall j :: 0 <= j < |g.stores| && Id(g.stores[j]) != g.leaderId ==> mid[j] == Received(g.stores[j], req, e))
    && var (told, last) := Broadcast(mid, 0, p.raft.currentTerm, g.leaderId, |grown.raft.log|);
    && h == g.(stores := if won && applied == Ok then told else mid)
    && status == if !won then Error(Internal) else if applied != Ok then applied else last
  }

  lemma ProposeExactly(g: Group, command: Text, i: nat) returns (mid: seq<Replica>)
    requires AllValid(g.stores) && FirstWith(g.stores, g.leaderId, i) && g.stores[i].peer.raft.role == Leader
    ensures AllValid(mid) && |mid| == |g.stores|
    ensures var s := g.stores[i].peer.raft;
            var e := Proposal(s, command);
            && WellFormed(NextRequest(s, g.leaderId, e))
            && var (h, status) := ProposeAndReplicate(g, command); Proposed(g, e, NextRequest(s, g.leaderId, e), i, mid, h, status)
  {
    var p := g.stores[i].peer;
    OfferIs(p, g.leaderId, command);
    var e := NewEntry(p.raft, Normal, command);
    var req := NextRequest(p.raft, g.leaderId, e);
    var offered := Offer(p, command);
    var committed := offered.(raft := SetCommitIndex(offered.raft, e.index));
    AppliedIs(committed);
    AcksAreTaking(g.stores, g.leaderId, req, e);
    LeaderThere(g, i);
    hide Valid, WellFormed, ApplyAndPersist, Receive, Broadcast, FirstWith, Offer, NewEntry, EntryRequest, NextRequest, SetCommitIndex,
         Taking, Acks, AppendLog, ApplyEntries, ApplyStatus, Persist, ProposeAndReplicate, Proposed;
    ProposeUnfolds(g, command, i, e, req, offered, committed);
    var sent := SendAll(g.stores[i := g.stores[i].(peer := offered)], g.leaderId, req, e);
    var won := 2 * (1 + |Taking(g.stores, g.leaderId, req, e)|) > |g.stores|;
    mid := if won then sent[i := sent[i].(peer := ApplyAndPersist(committed).0)] else sent;
    var (h, status) := ProposeAndReplicate(g, command);
    ProposedFrom(g, e, req, i, offered, committed, mid, h, status);
  }

  lemma ProposedFrom(g: Group, e: LogEntry, req: AppendRequest, i: nat, offered: Peer, committed: Peer, mid: seq<Replica>, h: Group, status: Status)
    requires AllValid(g.stores) && AllValid(mid) && i < |mid| == |g.stores| && WellFormed(req) && Id(g.stores[i]) == g.leaderId
    requires offered == Peer(g.stores[i].peer.raft.(log := g.stores[i].peer.raft.log + [e]), AppendLog(g.stores[i].peer.engine, e))
    requires committed == offered.(raft := offered.raft.(commitIndex := |offered.raft.log|)) && offered.raft.selfId == g.leaderId
    requires AllValid(g.stores[i := g.stores[i].(peer := offered)])
    requires var sent := SendAll(g.stores[i := g.stores[i].(peer := offered)], g.leaderId, req, e);
             var won := 2 * (1 + |Taking(g.stores, g.leaderId, req, e)|) > |g.stores|;
             var (done, applied) := ApplyAndPersist(committed);
             var (told, last) := Broadcast(mid, 0, committed.raft.currentTerm, g.leaderId, |committed.raft.log|);
             && mid == (if won then sent[i := sent[i].(peer := done)] else sent)
             && (h, status) == if !won then (g.(stores := mid), Error(Internal)) else if applied != Ok then (g.(stores := mid), applied)
                               else (g.(stores := told), last)
    ensures Proposed(g, e, req, i, mid, h, status)
  {
    hide WellFormed, ApplyAndPersist, Receive, Broadcast, Taking, AppendLog, Contiguous;
  }

  lemma {:induction false} BroadcastValid(stores: seq<Replica>, k: nat, term: nat, leaderId: nat, commit: nat)
    requires AllValid(stores) && k <= |stores|
    ensures AllValid(Broadcast(stores, k, term, leaderId, commit).0)
    decreases |stores| - k
  {
    hide Follow, Valid;
    if k < |stores| {
      var next := if Id(stores[k]) == leaderId then stores else stores[k := stores[k].(peer := Follow(stores[k].peer, term, leaderId, commit).0)];
      BroadcastValid(next, k + 1, term, leaderId, commit);
    }
  }

  /** Whatever becomes of a proposal, every replica stays well formed. */
  lemma ProposeValid(g: Group, command: Text)
    requires AllValid(g.stores)
    ensures AllValid(ProposeAndReplicate(g, command).0.stores)
  {
    hide AllValid, ProposeAndReplicate;
    var i := Position(g.stores, g.leaderId);
    if i < |g.stores| && g.stores[i].peer.raft.role == Leader {
      LeaderFirst(g, i);
      hide Proposed, Broadcast, WellFormed, NextRequest, Proposal, Position, FirstWith;
      var mid := ProposeExactly(g, command, i);
      var (h, status) := ProposeAndReplicate(g, command);
      var e := Proposal(g.stores[i].peer.raft, command);
      ProposedStores(g, e, NextRequest(g.stores[i].peer.raft, g.leaderId, e), i, mid, h, status);
      BroadcastValid(mid, 0, g.stores[i].peer.raft.currentTerm, g.leaderId, |g.stores[i].peer.raft.log| + 1);
    } else {
      LeaderLast(g, i);
      ProposeWithoutLeader(g, command);
    }
  }

  lemma ProposedStores(g: Group, e: LogEntry, req: AppendRequest, i: nat, mid: seq<Replica>, h: Group, status: Status)
    requires AllValid(g.stores) && AllValid(mid) && i < |mid| == |g.stores| && WellFormed(req) && Proposed(g, e, req, i, mid, h, status)
    ensures h.stores == mid || h.stores == Broadcast(mid, 0, g.stores[i].peer.raft.currentTerm, g.leaderId, |g.stores[i].peer.raft.log| + 1).0
  {
    hide ApplyAndPersist, Broadcast, WellFormed, Taking, AllValid, AppendLog, Receive;
  }

  lemma LeaderFirst(g: Group, i: nat)
    requires i == Position(g.stores, g.leaderId) < |g.stores|
    ensures FirstWith(g.stores, g.leaderId, i)
  {}

  lemma LeaderLast(g: Group, i: nat)
    requires i == Position(g.stores, g.leaderId)
    ensures forall j: nat :: FirstWith(g.stores, g.leaderId, j) ==> j == i
  {}

  lemma LeaderThere(g: Group, i: nat)
    requires FirstWith(g.stores, g.leaderId, i)
    ensures i < |g.stores| && Id(g.stores[i]) == g.leaderId
  {}
}
