/** Reopening an in-process region from its directories: exactly when it comes back in step. */
module Reopen {
  import opened Basics
  import opened KvEngine
  import opened RaftCore
  import opened RaftLaws
  import opened RaftStorage
  import opened RegionNode
  import opened SingleRegion
  import opened Lockstep
  import opened GroupRuns

  /** Directory j + 1 holds peer j + 1 of the region, with everything applied. Nothing is said of how the peers relate. */
  ghost predicate Kept(region: nat, peers: seq<Peer>) {
    forall j :: 0 <= j < |peers| ==> KeptPeer(region, peers[j], j + 1)
  }

  ghost predicate KeptPeer(region: nat, p: Peer, id: nat) {
    PeerOk(p) && p.raft.regionId == region && p.raft.selfId == id && p.raft.lastApplied == p.raft.commitIndex == |p.raft.log|
  }

  function Engines(peers: seq<Peer>): (r: seq<Store>)
    ensures |r| == |peers| && forall j :: 0 <= j < |r| ==> r[j] == peers[j].engine
  {
    seq(|peers|, j requires 0 <= j < |peers| => peers[j].engine)
  }

  /** Peer `s` votes for peer 1 in the term after peer 1's. */
  ghost predicate Backs(first: RaftState, s: RaftState) {
    && LogAtLeast(s.log, LastLogIndex(first.log), LastLogTerm(first.log))
    && (s.currentTerm <= first.currentTerm || (s.currentTerm == first.currentTerm + 1 && s.votedFor in {None, Some(1)}))
  }

  ghost function Backers(peers: seq<Peer>): set<nat> {
    set j | 0 <= j < |peers| && (j == 0 || Backs(peers[0].raft, peers[j].raft))
  }

  /** What has to be true of the directories. */
  ghost predicate Reopens(peers: seq<Peer>)
    requires peers != []
  {
    && (forall j :: 0 <= j < |peers| ==>
          peers[j].raft.log == peers[0].raft.log && peers[j].raft.currentTerm <= peers[0].raft.currentTerm + 1)
    && |Backers(peers)| > |peers| / 2
  }

  // ---- The election that follows ----

  ghost function AsFollower(p: Peer): Peer {
    p.(raft := p.raft.(role := Follower))
  }

  ghost function Opened(peers: seq<Peer>): (r: seq<Replica>)
    ensures |r| == |peers| && forall j :: 0 <= j < |r| ==> r[j] == Replica(j + 1, AsFollower(peers[j]))
  {
    seq(|peers|, j requires 0 <= j < |peers| => Replica(j + 1, AsFollower(peers[j])))
  }

  lemma KeptRestarts(region: nat, p: Peer, id: nat)
    requires KeptPeer(region, p, id)
    ensures Recovered(region, id, p.engine) == Success(p.raft.(role := Follower)) && PeerOk(AsFollower(p))
  {
    hide Recovered, PeerOk, Reboot;
    RestartIsInvisible(p);
    RebootKeepsPeer(p);
  }

  lemma OpensAll(region: nat, peers: seq<Peer>)
    requires Kept(region, peers)
    ensures OpenAll(region, Engines(peers)) == Success(Opened(peers))
  {
    hide Recovered, KeptPeer, OpenAll;
    var rafts := seq(|peers|, j requires 0 <= j < |peers| => peers[j].raft.(role := Follower));
    forall j | 0 <= j < |peers| ensures Recovered(region, j + 1, Engines(peers)[j]) == Success(rafts[j]) {
      KeptRestarts(region, peers[j], j + 1);
    }
    OpenAllIs(region, Engines(peers), rafts);
    assert OpenAll(region, Engines(peers)).value == Opened(peers);
  }

  lemma OpenedIds(region: nat, peers: seq<Peer>)
    requires Kept(region, peers)
    ensures DistinctStores(Opened(peers)) && forall j :: 0 <= j < |peers| ==> Id(Opened(peers)[j]) == j + 1
  {
    hide PeerOk;
    forall j | 0 <= j < |peers| ensures Id(Opened(peers)[j]) == j + 1 {
      assert KeptPeer(region, peers[j], j + 1);
    }
  }

  /** An election among replicas with distinct ids, whatever their state. */
  lemma ElectUnfolds(g: Group, i: nat)
    requires DistinctStores(g.stores) && i < |g.stores|
    ensures var id := Id(g.stores[i]);
            var candidate := Campaign(g.stores[i].peer);
            var req := BallotRequest(candidate.raft);
            var won := 1 + Votes(g.stores, id, req) > |g.stores| / 2;
            var (h, status) := ElectLeader(g, id);
            && status == (if won then Ok else Error(Internal))
            && h.regionId == g.regionId && h.leaderId == (if won then id else g.leaderId) && |h.stores| == |g.stores|
            && h.stores[i] == g.stores[i].(peer := if won then Promote(candidate) else candidate)
            && forall j :: 0 <= j < |g.stores| && j != i ==> h.stores[j] == g.stores[j].(peer := OnVote(g.stores[j].peer, req).0)
  {
    hide OnVote, Promote, BallotRequest, Persist;
    PositionIs(g.stores, i);
  }

  /** How a follower answers peer 1, and what it is afterwards. */
  lemma Answers(p: Peer, first: RaftState, req: VoteRequest)
    requires p.raft.role == Follower && first.selfId == 1 && req == BallotRequest(BecomeCandidate(first))
    ensures var (q, res) := OnVote(p, req);
            && (res.granted <==> Backs(first, p.raft))
            && q.raft == p.raft.(currentTerm := q.raft.currentTerm, votedFor := q.raft.votedFor)
            && q.raft.currentTerm == (if p.raft.currentTerm <= first.currentTerm + 1 then first.currentTerm + 1 else p.raft.currentTerm)
            && q.raft.votedFor == (if res.granted then Some(1) else if p.raft.currentTerm <= first.currentTerm then None else p.raft.votedFor)
  {
    hide Persist;
  }

  lemma {:induction false} CountVotes(stores: seq<Replica>, first: RaftState, req: VoteRequest)
    requires first.selfId == 1 && req == BallotRequest(BecomeCandidate(first))
    requires forall j :: 0 <= j < |stores| ==> stores[j].peer.raft.role == Follower
    ensures Votes(stores, 1, req) == |set j | 0 <= j < |stores| && Id(stores[j]) != 1 && Backs(first, stores[j].peer.raft)|
  {
    hide OnVote, Backs, BallotRequest;
    var all := set j | 0 <= j < |stores| && Id(stores[j]) != 1 && Backs(first, stores[j].peer.raft);
    if stores == [] {
      assert all == {};
    } else {
      var n := |stores| - 1;
      var rest := stores[..n];
      CountVotes(rest, first, req);
      Answers(stores[n].peer, first, req);
      var before := set j | 0 <= j < |rest| && Id(rest[j]) != 1 && Backs(first, rest[j].peer.raft);
      assert all == if Id(stores[n]) != 1 && Backs(first, stores[n].peer.raft) then before + {n} else before;
    }
  }

  /** The candidate and its voters are the backers. */
  lemma VotesAreBackers(region: nat, peers: seq<Peer>)
    requires peers != [] && Kept(region, peers)
    ensures 1 + Votes(Opened(peers), 1, BallotRequest(BecomeCandidate(AsFollower(peers[0]).raft))) == |Backers(peers)|
  {
    hide Backs, PeerOk, Votes, BallotRequest;
    OpenedIds(region, peers);
    var first := AsFollower(peers[0]).raft;
    var stores := Opened(peers);
    assert KeptPeer(region, peers[0], 1);
    CountVotes(stores, first, BallotRequest(BecomeCandidate(first)));
    var others := set j | 0 <= j < |stores| && Id(stores[j]) != 1 && Backs(first, stores[j].peer.raft);
    forall j | 0 <= j < |peers| ensures Backs(first, stores[j].peer.raft) == Backs(peers[0].raft, peers[j].raft) {
      RoleIsIrrelevant(peers[0], peers[j]);
    }
    assert Backers(peers) == others + {0};
  }

  lemma RoleIsIrrelevant(a: Peer, b: Peer)
    ensures Backs(AsFollower(a).raft, AsFollower(b).raft) == Backs(a.raft, b.raft)
  {}

  // ---- The exact condition ----

  /** Bootstrap over such directories elects peer 1 exactly when its backers are a majority, and reports a lost
      election otherwise. */
  lemma BootstrapStatus(region: nat, peers: seq<Peer>)
    requires peers != [] && Kept(region, peers)
    ensures Bootstrap(region, Engines(peers)).1 == if |Backers(peers)| > |peers| / 2 then Ok else Error(Internal)
  {
    hide Backers, Votes, OpenAll, ElectLeader, Kept;
    OpensAll(region, peers);
    OpenedIds(region, peers);
    VotesAreBackers(region, peers);
    ElectUnfolds(Group(region, Opened(peers), 0), 0);
    CampaignRaft(AsFollower(peers[0]));
  }

  lemma CampaignRaft(p: Peer)
    ensures Campaign(p).raft == BecomeCandidate(p.raft)
  {}

  /** The replica at `j` after the election: its own log, the new term unless it was ahead, and its role. */
  ghost predicate Outcome(region: nat, peers: seq<Peer>, g: Group, status: Status, j: nat)
    requires j < |peers|
  {
    && g.regionId == region && |g.stores| == |peers| && g.leaderId == (if status == Ok then 1 else 0)
    && Id(g.stores[j]) == j + 1 && g.stores[j].storeId == j + 1
    && PeerOk(g.stores[j].peer) && g.stores[j].peer.raft.regionId == region
    && g.stores[j].peer.raft.log == peers[j].raft.log
    && g.stores[j].peer.raft.lastApplied == g.stores[j].peer.raft.commitIndex == |peers[j].raft.log|
    && g.stores[j].peer.raft.currentTerm
       == (if peers[j].raft.currentTerm <= peers[0].raft.currentTerm + 1 then peers[0].raft.currentTerm + 1 else peers[j].raft.currentTerm)
    && (status == Ok ==> g.stores[j].peer.raft.role == if j == 0 then Leader else Follower)
    && g.stores[j].peer.raft.votedFor
       == (if j == 0 || Backs(peers[0].raft, peers[j].raft) then Some(1)
           else if peers[j].raft.currentTerm <= peers[0].raft.currentTerm then None else peers[j].raft.votedFor)
  }

  lemma Elected(region: nat, peers: seq<Peer>, j: nat)
    requires peers != [] && Kept(region, peers) && j < |peers|
    ensures var (g, status) := Bootstrap(region, Engines(peers)); Outcome(region, peers, g, status, j)
  {
    hide Votes, OpenAll, ElectLeader, PeerOk, Persist, Backs, HandleVote;
    OpensAll(region, peers);
    OpenedIds(region, peers);
    var bare := Group(region, Opened(peers), 0);
    ElectUnfolds(bare, 0);
    assert KeptPeer(region, peers[0], 1) && KeptPeer(region, peers[j], j + 1);
    KeptRestarts(region, peers[0], 1);
    KeptRestarts(region, peers[j], j + 1);
    if j == 0 {
      CampaignKeepsPeer(AsFollower(peers[0]));
      PromoteKeepsPeer(Campaign(AsFollower(peers[0])));
    } else {
      var req := BallotRequest(Campaign(AsFollower(peers[0])).raft);
      VoteKeepsPeer(AsFollower(peers[j]), req);
      Answers(AsFollower(peers[j]), AsFollower(peers[0]).raft, req);
      RoleIsIrrelevant(peers[0], peers[j]);
    }
  }

  /** Reopening gives a group in step exactly when all logs are peer 1's, no peer is more than one term ahead of it, and
      those that can still vote for it are a majority; the group then has that log and its data. Each replica's vote is then
      for the leader exactly when all of them could still vote for it. */
  lemma ReopenExactly(region: nat, peers: seq<Peer>)
    requires peers != [] && Kept(region, peers)
    ensures var (g, status) := Bootstrap(region, Engines(peers));
            && (InStep(g) <==> Reopens(peers))
            && (InStep(g) ==> status == Ok && g.leaderId == 1 && |g.stores| == |peers|
                              && LogOf(g) == peers[0].raft.log && Data(g) == ApplyEntries(map[], peers[0].raft.log)
                              && (Voted(g) <==> forall j :: 0 < j < |peers| ==> Backs(peers[0].raft, peers[j].raft)))
  {
    hide Bootstrap, PeerOk, Backers, ApplyEntries, Kept;
    BootstrapStatus(region, peers);
    var (g, status) := Bootstrap(region, Engines(peers));
    forall j | 0 <= j < |peers| ensures Outcome(region, peers, g, status, j) {
      Elected(region, peers, j);
    }
    assert Outcome(region, peers, g, status, 0);
    if InStep(g) {
      StepReopens(region, peers, g, status);
      StepVotes(region, peers, g, status);
      SameData(g, TermOf(g), LogOf(g), 0);
    }
    if Reopens(peers) {
      ReopensStep(region, peers, g, status);
    }
  }

  lemma StepReopens(region: nat, peers: seq<Peer>, g: Group, status: Status)
    requires peers != [] && InStep(g) && forall j :: 0 <= j < |peers| ==> Outcome(region, peers, g, status, j)
    requires status == if |Backers(peers)| > |peers| / 2 then Ok else Error(Internal)
    ensures status == Ok && Reopens(peers) && LogOf(g) == peers[0].raft.log
  {
    hide PeerOk, Backers;
    assert Outcome(region, peers, g, status, 0);
    var l := Position(g.stores, g.leaderId);
    assert Outcome(region, peers, g, status, l);
    forall j | 0 <= j < |peers|
      ensures peers[j].raft.log == peers[0].raft.log && peers[j].raft.currentTerm <= peers[0].raft.currentTerm + 1
    {
      assert Outcome(region, peers, g, status, j) && Twin(g.stores[j], g.regionId, TermOf(g), LogOf(g));
    }
  }

  lemma StepVotes(region: nat, peers: seq<Peer>, g: Group, status: Status)
    requires peers != [] && Reopens(peers) && status == Ok && forall j :: 0 <= j < |peers| ==> Outcome(region, peers, g, status, j)
    ensures Voted(g) <==> forall j :: 0 < j < |peers| ==> Backs(peers[0].raft, peers[j].raft)
  {
    hide PeerOk, Backers, LogAtLeast;
    assert Outcome(region, peers, g, status, 0);
    SelfAtLeast(peers[0].raft.log);
    forall j | 0 < j < |peers| ensures g.stores[j].peer.raft.votedFor == Some(1) <==> Backs(peers[0].raft, peers[j].raft) {
      assert Outcome(region, peers, g, status, j) && peers[j].raft.log == peers[0].raft.log;
    }
  }

  lemma ReopensStep(region: nat, peers: seq<Peer>, g: Group, status: Status)
    requires peers != [] && Reopens(peers) && forall j :: 0 <= j < |peers| ==> Outcome(region, peers, g, status, j)
    requires status == if |Backers(peers)| > |peers| / 2 then Ok else Error(Internal)
    ensures InStep(g)
  {
    hide PeerOk, Backers;
    assert Outcome(region, peers, g, status, 0);
    forall i, j | 0 <= i < j < |g.stores| ensures Id(g.stores[i]) != Id(g.stores[j]) && g.stores[i].storeId != g.stores[j].storeId {
      assert Outcome(region, peers, g, status, i) && Outcome(region, peers, g, status, j);
    }
    forall j | 0 <= j < |g.stores|
      ensures Twin(g.stores[j], g.regionId, TermOf(g), LogOf(g))
      ensures g.stores[j].peer.raft.role == if Id(g.stores[j]) == g.leaderId then Leader else Follower
    {
      assert Outcome(region, peers, g, status, j);
    }
    PositionIs(g.stores, 0);
  }

  // ---- Two cases ----

  function PeersOf(g: Group): (r: seq<Peer>)
    ensures |r| == |g.stores| && forall j :: 0 <= j < |r| ==> r[j] == g.stores[j].peer
  {
    seq(|g.stores|, j requires 0 <= j < |g.stores| => g.stores[j].peer)
  }

  lemma TwinKept(r: Replica, region: nat, term: nat, log: seq<LogEntry>)
    requires Twin(r, region, term, log)
    ensures KeptPeer(region, r.peer, Id(r)) && r.peer.raft.currentTerm == term && r.peer.raft.log == log
  {}

  lemma SelfAtLeast(log: seq<LogEntry>)
    ensures LogAtLeast(log, LastLogIndex(log), LastLogTerm(log))
  {}

  /** A group whose peers are numbered from 1 reopens with the same log and data. */
  lemma ReopenKeeps(g: Group)
    requires InStep(g) && forall j :: 0 <= j < |g.stores| ==> Id(g.stores[j]) == j + 1
    ensures var (h, status) := Bootstrap(g.regionId, Engines(PeersOf(g)));
            status == Ok && InStep(h) && |h.stores| == |g.stores| && LogOf(h) == LogOf(g) && Data(h) == Data(g) && Voted(h)
  {
    hide Twin, KeptPeer, UserMap, ApplyEntries, Bootstrap, LogAtLeast;
    var peers := PeersOf(g);
    forall j | 0 <= j < |peers|
      ensures KeptPeer(g.regionId, peers[j], j + 1) && peers[j].raft.currentTerm == TermOf(g) && peers[j].raft.log == LogOf(g)
    {
      TwinKept(g.stores[j], g.regionId, TermOf(g), LogOf(g));
    }
    SelfAtLeast(LogOf(g));
    assert Backers(peers) == Below(|peers|);
    ReopenExactly(g.regionId, peers);
    SameData(g, TermOf(g), LogOf(g), 0);
  }

  ghost function Below(n: nat): (r: set<nat>)
    ensures |r| == n && forall j :: j in r <==> 0 <= j < n
  {
    if n == 0 then {} else Below(n - 1) + {n - 1}
  }

  /** The failing case: peer 1 leads, leaves, and the region is reopened over all its directories. The others have voted
      for their new leader in the very term that peer 1 now stands for, so the election is lost and the region stays down. */
  lemma RemovedLeaderBlocksReopen(g: Group)
    requires InStep(g) && g.leaderId == 1 && |g.stores| >= 2 && forall j :: 0 <= j < |g.stores| ==> Id(g.stores[j]) == j + 1
    ensures var (h, status) := RemovePeer(g, 1);
            status == Ok && Bootstrap(g.regionId, Engines([g.stores[0].peer] + PeersOf(h))).1 == Error(Internal)
  {
    hide Twin, KeptPeer, UserMap, ApplyEntries, Bootstrap, LogAtLeast, ElectLeader;
    var term, log := TermOf(g), LogOf(g);
    PositionIs(g.stores, 0);
    var rest := g.stores[..0] + g.stores[1..];
    var bare := Group(g.regionId, rest, 0);
    Without(g, term, log, 0);
    PositionIs(rest, 0);
    ElectionSucceeds(bare, term, log, 2);
    var h := RemovePeer(g, 1).0;
    assert h == ElectLeader(bare, 2).0;
    var peers := [g.stores[0].peer] + PeersOf(h);
    TwinKept(g.stores[0], g.regionId, term, log);
    forall j | 0 <= j < |peers|
      ensures KeptPeer(g.regionId, peers[j], j + 1)
      ensures j > 0 ==> peers[j].raft.currentTerm == term + 1 && peers[j].raft.votedFor == Some(2)
    {
      if j > 0 {
        assert peers[j] == h.stores[j - 1].peer && Id(h.stores[j - 1]) == Id(rest[j - 1]) == j + 1;
        TwinKept(h.stores[j - 1], g.regionId, term + 1, log);
      }
    }
    assert Backers(peers) == {0};
    BootstrapStatus(g.regionId, peers);
  }
}
