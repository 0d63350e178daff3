/** Election steps keep the invariant. */
module RaftElection {
  import opened RaftCore
  import RaftStorage
  import opened RegionNode
  import opened RaftCluster
  import opened RaftHistory
  import opened RaftFrames

  // ---- The vote rule ----

  /** The last term of a log bounds all its terms. */
  lemma TermsUpToLast(h: History, log: seq<LogEntry>, i: nat)
    requires LogOk(h, log) && i < |log|
    requires forall t :: t in h.tenures ==> TenureOk(h, t)
    ensures log[i].term <= LastLogTerm(log)
  {
    var t := LastLogTerm(log);
    var last := |log| - 1;
    assert log[last].term == t && log[..last + 1] <= h.tenures[t].log;
    assert log[..last + 1][i] == log[i] == h.tenures[t].log[i];
    assert TenureOk(h, t);
    if i < |h.tenures[t].start| {
      assert h.tenures[t].start[i] == h.tenures[t].log[i];
    }
  }

  /** A log that ends in term `t` is a prefix of that term's log, and longer than the log the term began with. */
  lemma EndsInTerm(h: History, log: seq<LogEntry>)
    requires LogOk(h, log) && log != []
    requires forall t :: t in h.tenures ==> TenureOk(h, t)
    ensures LastLogTerm(log) in h.tenures
    ensures log <= h.tenures[LastLogTerm(log)].log
    ensures |log| > |h.tenures[LastLogTerm(log)].start|
  {
    var t := LastLogTerm(log);
    var last := |log| - 1;
    assert log[..last + 1] == log;
    assert TenureOk(h, t);
    var ten := h.tenures[t];
    assert ten.log[last] == log[last];
  }

  /** The voter's comparison of last terms and indices: entries of an earlier term that the voter holds are in the
      candidate's log too, or some leader in between lacked them. */
  lemma UpToDateKeeps(h: History, voter: seq<LogEntry>, cand: seq<LogEntry>, a: Ack, term: nat)
    requires forall t :: t in h.tenures ==> TenureOk(h, t)
    requires LogOk(h, voter) && LogOk(h, cand) && TermsBelow(cand, term)
    requires Contiguous(voter) && Contiguous(cand)
    requires AckKnown(h, a) && a.len > |h.tenures[a.term].start| && Held(h, a) <= voter
    requires UpToDate(voter, LastLogIndex(cand), LastLogTerm(cand))
    ensures Held(h, a) <= cand || Lost(h, a, term)
  {
    var p := Held(h, a);
    var i := a.len - 1;
    assert TenureOk(h, a.term);
    assert voter[i] == p[i] && p[i].term == a.term;
    TermsUpToLast(h, voter, i);
    EndsInTerm(h, voter);
    assert LastLogTerm(cand) >= LastLogTerm(voter) >= a.term;
    assert cand != [];
    EndsInTerm(h, cand);
    var u := LastLogTerm(cand);
    var l := h.tenures[u].log;
    if u == LastLogTerm(voter) {
      assert LastLogIndex(cand) == |cand| && LastLogIndex(voter) == |voter|;
      assert p <= voter <= l && cand <= l && |p| <= |cand|;
    } else {
      assert u < term by { assert cand[|cand| - 1].term < term; }
      if p <= h.tenures[u].start {
        assert TenureOk(h, u);
        assert p <= l && cand <= l && |p| <= |cand|;
      }
    }
  }

  /** What a granted vote owes to the voter's acknowledgements. */
  lemma VoteKeeps(c: Cluster, h: History, n: nat, vote: VoteRequest, a: Ack)
    requires PeerInv(c) && LogInv(c, h) && n in c.nodes
    requires a in h.acks && a.peer == n && AckOk(c, h, a) && a.len > |h.tenures[a.term].start|
    requires MessageOk(h, VoteAsk(n, vote)) && Contiguous(h.runs[(vote.candidateId, vote.term)])
    requires Raft(c, n).currentTerm <= vote.term && vote.term !in h.tenures
    requires UpToDate(Raft(c, n).log, vote.lastLogIndex, vote.lastLogTerm)
    ensures Held(h, a) <= h.runs[(vote.candidateId, vote.term)] || Lost(h, a, vote.term)
  {
    var raft := Raft(c, n);
    if Held(h, a) <= raft.log {
      UpToDateKeeps(h, raft.log, h.runs[(vote.candidateId, vote.term)], a, vote.term);
    } else {
      var u :| u in h.tenures && a.term < u < raft.currentTerm + 1 && !(Held(h, a) <= h.tenures[u].start);
      assert u < vote.term;
    }
  }

  lemma LogOkContiguous(h: History, log: seq<LogEntry>)
    requires LogOk(h, log)
    requires forall t :: t in h.tenures ==> TenureOk(h, t)
    ensures Contiguous(log)
  {
    if log != [] {
      EndsInTerm(h, log);
      assert TenureOk(h, LastLogTerm(log));
    }
  }

  // ---- StartElection ----

  ghost function AfterStart(c: Cluster, h: History, n: nat): History
    requires n in c.nodes
  {
    var k := (n, Raft(c, n).currentTerm + 1);
    h.(ballots := h.ballots[k := n], runs := h.runs[k := Raft(c, n).log])
  }

  lemma StartBallots(c: Cluster, h: History, n: nat)
    requires n in c.nodes && AckInv(c, h) && BallotInv(h) && Grows(h, AfterStart(c, h, n))
    ensures BallotInv(AfterStart(c, h, n))
  {
    var g := AfterStart(c, h, n);
    var t' := Raft(c, n).currentTerm + 1;
    forall a, t | a in g.acks && (a.peer, t) in g.ballots && a.term < t && (a !in h.acks || (a.peer, t) !in h.ballots)
      ensures AckKnown(g, a) && (g.ballots[(a.peer, t)], t) in g.runs && BallotKeeps(g, a, t)
    {
      assert a.peer == n && t == t' && AckOk(c, h, a);
      HeldGrows(h, g, a);
      if !(Held(h, a) <= Raft(c, n).log) {
        LostGrows(h, g, a, t', t');
      }
    }
    BallotFrame(h, g);
  }

  lemma StartGrows(c: Cluster, h: History, n: nat)
    requires VoteInv(c, h) && n in c.nodes
    ensures Grows(h, AfterStart(c, h, n))
  {
    var k := (n, Raft(c, n).currentTerm + 1);
    assert k !in h.runs;
    assert k !in h.ballots;
  }

  lemma StartLogs(c: Cluster, h: History, n: nat)
    requires LogInv(c, h) && Enabled(c, StartElection(n)) && Grows(h, AfterStart(c, h, n))
    ensures LogInv(Take(c, StartElection(n)), AfterStart(c, h, n))
  {
    var g := AfterStart(c, h, n);
    SameTenures(c, h, g);
    LogOkGrows(h, g, Raft(c, n).log);
    LogFrame(c, Take(c, StartElection(n)), h, g, n);
  }

  lemma StartAcks(c: Cluster, h: History, n: nat)
    requires AckInv(c, h) && Enabled(c, StartElection(n)) && Grows(h, AfterStart(c, h, n))
    ensures AckInv(Take(c, StartElection(n)), AfterStart(c, h, n))
  {
    AckKept(c, Take(c, StartElection(n)), h, AfterStart(c, h, n), n);
    AckFrame(c, Take(c, StartElection(n)), h, AfterStart(c, h, n), n);
  }

  lemma StartCommits(c: Cluster, h: History, n: nat)
    requires CommitInv(c, h) && Enabled(c, StartElection(n)) && Grows(h, AfterStart(c, h, n))
    ensures CommitInv(Take(c, StartElection(n)), AfterStart(c, h, n))
  {
    var t := Raft(c, n).currentTerm;
    CommittedGrows(h, AfterStart(c, h, n), Raft(c, n).log[..Raft(c, n).commitIndex], t, t + 1);
    CommitFrame(c, Take(c, StartElection(n)), h, AfterStart(c, h, n), n);
  }

  lemma StartPhase(c: Cluster, h: History, n: nat)
    requires Elected(c, h) && PeerInv(c) && Enabled(c, StartElection(n))
    ensures var d, g := Take(c, StartElection(n)), AfterStart(c, h, n);
            PhaseOk(d, g, n) && VoterOk(g, n, Raft(d, n)) && LeaderOk(g, n, Raft(d, n))
  {
    hide Persist;
    var t := Raft(c, n).currentTerm + 1;
    assert !(t in h.tenures && h.tenures[t].leader == n);
  }

  lemma StartVotes(c: Cluster, h: History, n: nat)
    requires VoteInv(c, h) && Enabled(c, StartElection(n)) && Grows(h, AfterStart(c, h, n)) && PeerInv(c)
    ensures VoteInv(Take(c, StartElection(n)), AfterStart(c, h, n))
  {
    hide Persist, PeerInv, Elected, BallotsOk, Voters, Phases, Leaders, TenureElected, PhaseOk, VoterOk, LeaderOk;
    StartPhase(c, h, n);
    VoteFrame(c, Take(c, StartElection(n)), h, AfterStart(c, h, n), n);
  }

  lemma StartNet(c: Cluster, h: History, n: nat)
    requires NetInv(c, h) && Enabled(c, StartElection(n)) && Grows(h, AfterStart(c, h, n)) && PeerInv(c)
    ensures NetInv(Take(c, StartElection(n)), AfterStart(c, h, n))
  {
    NetFrame(c, Take(c, StartElection(n)), h, AfterStart(c, h, n));
  }

  lemma StartPeers(c: Cluster, n: nat)
    requires PeerInv(c) && Enabled(c, StartElection(n))
    ensures PeerInv(Take(c, StartElection(n)))
  {}

  lemma StartData(c: Cluster, h: History, n: nat)
    requires DataInv(c, h) && PeerInv(c) && Enabled(c, StartElection(n))
    ensures DataInv(Take(c, StartElection(n)), AfterStart(c, h, n))
  {
    hide PeerOk, GoodLog, Persist;
    CampaignKeepsPeer(c.nodes[n].peer);
    DataFrame(c, Take(c, StartElection(n)), h, AfterStart(c, h, n), n);
  }

  lemma StartKeeps(c: Cluster, h: History, n: nat)
    requires Inv(c, h) && Enabled(c, StartElection(n))
    ensures Grows(h, AfterStart(c, h, n)) && Inv(Take(c, StartElection(n)), AfterStart(c, h, n))
  {
    hide PeerInv, DataInv, LogInv, VoteInv, AckInv, BallotInv, CommitInv, NetInv, Grows, Take;
    StartGrows(c, h, n);
    StartLogs(c, h, n);
    StartAcks(c, h, n);
    StartCommits(c, h, n);
    StartVotes(c, h, n);
    StartBallots(c, h, n);
    StartNet(c, h, n);
    StartPeers(c, n);
    StartData(c, h, n);
  }

  // ---- DeliverVote ----

  ghost function AfterVote(c: Cluster, h: History, n: nat, vote: VoteRequest): History
    requires n in c.nodes
  {
    if HandleVote(Raft(c, n), vote).1.granted
    then h.(ballots := h.ballots[(n, vote.term) := vote.candidateId]) else h
  }

  /** A voter grants each term once: a vote it already cast is the same vote. */
  lemma VoteOnce(c: Cluster, h: History, n: nat, vote: VoteRequest)
    requires VoteInv(c, h) && n in c.nodes && HandleVote(Raft(c, n), vote).1.granted
    ensures (n, vote.term) in h.ballots ==> h.ballots[(n, vote.term)] == vote.candidateId
    ensures (n, vote.term) !in h.ballots && vote.term in h.tenures ==> n !in h.tenures[vote.term].quorum
  {
    var k := (n, vote.term);
    if k in h.ballots {
      assert BallotOk(c, h, k) && VoterOk(h, n, Raft(c, n));
    } else if vote.term in h.tenures {
      assert TenureElected(c, h, vote.term);
    }
  }

  lemma VoteGrows(c: Cluster, h: History, n: nat, vote: VoteRequest)
    requires VoteInv(c, h) && n in c.nodes
    ensures Grows(h, AfterVote(c, h, n, vote))
  {
    if HandleVote(Raft(c, n), vote).1.granted {
      VoteOnce(c, h, n, vote);
    }
  }

  lemma NewBallot(c: Cluster, h: History, n: nat, vote: VoteRequest, a: Ack)
    requires PeerInv(c) && LogInv(c, h) && n in c.nodes && a in h.acks && AckOk(c, h, a) && a.peer == n
    requires MessageOk(h, VoteAsk(n, vote)) && HandleVote(Raft(c, n), vote).1.granted
    requires Grows(h, AfterVote(c, h, n, vote))
    requires vote.term in h.tenures ==> n !in h.tenures[vote.term].quorum
    ensures var g := AfterVote(c, h, n, vote);
            AckKnown(g, a) && (a.len > |g.tenures[a.term].start| ==> BallotKeeps(g, a, vote.term))
  {
    var g := AfterVote(c, h, n, vote);
    HeldGrows(h, g, a);
    if a.len > |h.tenures[a.term].start| && vote.term !in h.tenures {
      LogOkContiguous(h, h.runs[(vote.candidateId, vote.term)]);
      VoteKeeps(c, h, n, vote, a);
      if Lost(h, a, vote.term) {
        LostGrows(h, g, a, vote.term, vote.term);
      }
    }
  }

  lemma VoteBallots(c: Cluster, h: History, n: nat, vote: VoteRequest)
    requires PeerInv(c) && LogInv(c, h) && VoteInv(c, h) && AckInv(c, h) && BallotInv(h) && n in c.nodes
    requires MessageOk(h, VoteAsk(n, vote)) && Grows(h, AfterVote(c, h, n, vote))
    ensures BallotInv(AfterVote(c, h, n, vote))
  {
    hide VoteInv, LogInv, PeerInv, Lost;
    var g := AfterVote(c, h, n, vote);
    if g != h {
      VoteOnce(c, h, n, vote);
      forall a, t | a in g.acks && (a.peer, t) in g.ballots && a.term < t && (a !in h.acks || (a.peer, t) !in h.ballots)
        ensures AckKnown(g, a) && (g.ballots[(a.peer, t)], t) in g.runs
                && (a.len > |g.tenures[a.term].start| ==> BallotKeeps(g, a, t))
      {
        assert a.peer == n && t == vote.term && AckOk(c, h, a);
        NewBallot(c, h, n, vote, a);
      }
      BallotFrame(h, g);
    }
  }

  lemma TermsRise(log: seq<LogEntry>, a: nat, b: nat)
    requires TermsBelow(log, a) && a <= b
    ensures TermsBelow(log, b)
  {}

  lemma VoteLogs(c: Cluster, h: History, n: nat, vote: VoteRequest)
    requires LogInv(c, h) && Enabled(c, DeliverVote(n, vote)) && Grows(h, AfterVote(c, h, n, vote))
    ensures LogInv(Take(c, DeliverVote(n, vote)), AfterVote(c, h, n, vote))
  {
    hide Take, LogOk, TermsBelow, TenureOk, Grows, UpToDate;
    VoteEffect(c, n, vote);
    var g := AfterVote(c, h, n, vote);
    SameTenures(c, h, g);
    LogOkGrows(h, g, Raft(c, n).log);
    TermsRise(Raft(c, n).log, Raft(c, n).currentTerm + 1, Raft(Take(c, DeliverVote(n, vote)), n).currentTerm + 1);
    LogFrame(c, Take(c, DeliverVote(n, vote)), h, g, n);
  }

  lemma VoteAcks(c: Cluster, h: History, n: nat, vote: VoteRequest)
    requires AckInv(c, h) && Enabled(c, DeliverVote(n, vote)) && Grows(h, AfterVote(c, h, n, vote))
    ensures AckInv(Take(c, DeliverVote(n, vote)), AfterVote(c, h, n, vote))
  {
    AckKept(c, Take(c, DeliverVote(n, vote)), h, AfterVote(c, h, n, vote), n);
    AckFrame(c, Take(c, DeliverVote(n, vote)), h, AfterVote(c, h, n, vote), n);
  }

  lemma VoteCommits(c: Cluster, h: History, n: nat, vote: VoteRequest)
    requires CommitInv(c, h) && Enabled(c, DeliverVote(n, vote)) && Grows(h, AfterVote(c, h, n, vote))
    ensures CommitInv(Take(c, DeliverVote(n, vote)), AfterVote(c, h, n, vote))
  {
    VoteEffect(c, n, vote);
    hide Take;
    var d := Take(c, DeliverVote(n, vote));
    CommittedGrows(h, AfterVote(c, h, n, vote), Raft(c, n).log[..Raft(c, n).commitIndex],
                   Raft(c, n).currentTerm, Raft(d, n).currentTerm);
    CommitFrame(c, d, h, AfterVote(c, h, n, vote), n);
  }

  lemma VoteNet(c: Cluster, h: History, n: nat, vote: VoteRequest)
    requires NetInv(c, h) && Enabled(c, DeliverVote(n, vote)) && Grows(h, AfterVote(c, h, n, vote))
    ensures NetInv(Take(c, DeliverVote(n, vote)), AfterVote(c, h, n, vote))
  {
    NetFrame(c, Take(c, DeliverVote(n, vote)), h, AfterVote(c, h, n, vote));
  }

  lemma VoteVoter(c: Cluster, h: History, n: nat, vote: VoteRequest)
    requires VoteInv(c, h) && Enabled(c, DeliverVote(n, vote)) && Grows(h, AfterVote(c, h, n, vote))
    ensures VoterOk(AfterVote(c, h, n, vote), n, Raft(Take(c, DeliverVote(n, vote)), n))
  {
    hide Persist, Elected, Phases, Leaders;
    var k := (n, vote.term);
    assert VoterOk(h, n, Raft(c, n));
    assert k in h.ballots ==> vote.term <= Raft(c, n).currentTerm;
  }

  lemma VoteLeader(c: Cluster, h: History, n: nat, vote: VoteRequest)
    requires Leaders(c, h) && Enabled(c, DeliverVote(n, vote))
    ensures var d := Take(c, DeliverVote(n, vote));
            LeaderOk(AfterVote(c, h, n, vote), n, Raft(d, n)) && PhaseOk(d, AfterVote(c, h, n, vote), n)
  {
    hide Take;
    VoteEffect(c, n, vote);
    assert LeaderOk(h, n, Raft(c, n));
  }

  lemma VoteVotes(c: Cluster, h: History, n: nat, vote: VoteRequest)
    requires VoteInv(c, h) && Enabled(c, DeliverVote(n, vote)) && Grows(h, AfterVote(c, h, n, vote))
    requires MessageOk(h, VoteAsk(n, vote))
    ensures VoteInv(Take(c, DeliverVote(n, vote)), AfterVote(c, h, n, vote))
  {
    hide Elected, BallotsOk, Voters, Phases, Take;
    VoteVoter(c, h, n, vote);
    VoteEffect(c, n, vote);
    VoteLeader(c, h, n, vote);
    hide LeaderOk, Leaders;
    VoteFrame(c, Take(c, DeliverVote(n, vote)), h, AfterVote(c, h, n, vote), n);
  }

  lemma VotePeers(c: Cluster, n: nat, vote: VoteRequest)
    requires PeerInv(c) && Enabled(c, DeliverVote(n, vote))
    ensures PeerInv(Take(c, DeliverVote(n, vote)))
  {}

  lemma VoteAskOk(c: Cluster, h: History, n: nat, vote: VoteRequest)
    requires NetInv(c, h) && Enabled(c, DeliverVote(n, vote))
    ensures MessageOk(h, VoteAsk(n, vote))
  {}

  lemma VoteData(c: Cluster, h: History, n: nat, vote: VoteRequest)
    requires DataInv(c, h) && BallotsOk(c, h) && MessageOk(h, VoteAsk(n, vote)) && Enabled(c, DeliverVote(n, vote))
    ensures DataInv(Take(c, DeliverVote(n, vote)), AfterVote(c, h, n, vote))
  {
    hide PeerOk, GoodLog, Persist;
    assert vote.candidateId in c.nodes;
    VoteKeepsPeer(c.nodes[n].peer, vote);
    DataFrame(c, Take(c, DeliverVote(n, vote)), h, AfterVote(c, h, n, vote), n);
  }

  lemma VoteKeepsInv(c: Cluster, h: History, n: nat, vote: VoteRequest)
    requires Inv(c, h) && Enabled(c, DeliverVote(n, vote))
    ensures Grows(h, AfterVote(c, h, n, vote)) && Inv(Take(c, DeliverVote(n, vote)), AfterVote(c, h, n, vote))
  {
    hide PeerInv, DataInv, LogInv, Elected, BallotsOk, Voters, Phases, Leaders, AckInv, BallotInv, CommitInv, NetInv, MessageOk,
         Grows, Take, AfterVote;
    VoteAskOk(c, h, n, vote);
    VoteGrows(c, h, n, vote);
    VoteLogs(c, h, n, vote);
    VoteAcks(c, h, n, vote);
    VoteCommits(c, h, n, vote);
    VoteVotes(c, h, n, vote);
    VoteBallots(c, h, n, vote);
    VoteNet(c, h, n, vote);
    VotePeers(c, n, vote);
    VoteData(c, h, n, vote);
  }

  // ---- Win ----

  ghost function AfterWin(c: Cluster, h: History, n: nat): History
    requires n in c.nodes && c.nodes[n].phase.Campaigning?
  {
    var raft := Raft(c, n);
    h.(tenures := h.tenures[raft.currentTerm := Tenure(n, c.nodes[n].phase.votes, raft.log, raft.log)])
  }

  /** Election safety: nobody has won this term before. */
  lemma FreshTerm(c: Cluster, h: History, n: nat)
    requires VoteInv(c, h) && Enabled(c, Win(n))
    ensures Raft(c, n).currentTerm !in h.tenures
  {
    var t := Raft(c, n).currentTerm;
    assert PhaseOk(c, h, n);
    if t in h.tenures {
      assert TenureElected(c, h, t);
      assert |c.nodes| == |c.nodes.Keys|;
      var x := QuorumsMeet(c.nodes.Keys, h.tenures[t].quorum, c.nodes[n].phase.votes);
      assert false;
    }
  }

  lemma WinGrows(c: Cluster, h: History, n: nat)
    requires VoteInv(c, h) && Enabled(c, Win(n))
    ensures Grows(h, AfterWin(c, h, n))
  {
    FreshTerm(c, h, n);
  }

  lemma WinTenure(c: Cluster, h: History, n: nat, t: nat)
    requires LogInv(c, h) && Phases(c, h) && Enabled(c, Win(n)) && PeerInv(c) && Grows(h, AfterWin(c, h, n))
    requires t in AfterWin(c, h, n).tenures
    ensures TenureOk(AfterWin(c, h, n), t)
  {
    hide IsMajority;
    var g := AfterWin(c, h, n);
    var w := Raft(c, n).currentTerm;
    if t != w {
      assert TenureOk(h, t);
      LogOkGrows(h, g, h.tenures[t].log);
    } else {
      assert PhaseOk(c, h, n);
      LogOkGrows(h, g, Raft(c, n).log);
      assert TermsBelow(h.runs[(n, w)], w);
    }
  }

  lemma WinLogs(c: Cluster, h: History, n: nat)
    requires LogInv(c, h) && VoteInv(c, h) && Enabled(c, Win(n)) && PeerInv(c) && Grows(h, AfterWin(c, h, n))
    ensures LogInv(Take(c, Win(n)), AfterWin(c, h, n))
  {
    hide Take, Elected, BallotsOk, Voters, Leaders, IsMajority, Contiguous, PhaseOk, PeerInv, TermsBelow, LogOk, TenureOk, Grows;
    WinEffect(c, n);
    var g := AfterWin(c, h, n);
    LogOkGrows(h, g, Raft(c, n).log);
    forall t | t in g.tenures ensures TenureOk(g, t) {
      WinTenure(c, h, n, t);
    }
    LogFrame(c, Take(c, Win(n)), h, g, n);
  }

  lemma WinAcks(c: Cluster, h: History, n: nat)
    requires AckInv(c, h) && Enabled(c, Win(n)) && Grows(h, AfterWin(c, h, n))
    ensures AckInv(Take(c, Win(n)), AfterWin(c, h, n))
  {
    AckKept(c, Take(c, Win(n)), h, AfterWin(c, h, n), n);
    AckFrame(c, Take(c, Win(n)), h, AfterWin(c, h, n), n);
  }

  lemma WinCommits(c: Cluster, h: History, n: nat)
    requires CommitInv(c, h) && Enabled(c, Win(n)) && Grows(h, AfterWin(c, h, n))
    ensures CommitInv(Take(c, Win(n)), AfterWin(c, h, n))
  {
    var t := Raft(c, n).currentTerm;
    CommittedGrows(h, AfterWin(c, h, n), Raft(c, n).log[..Raft(c, n).commitIndex], t, t);
    CommitFrame(c, Take(c, Win(n)), h, AfterWin(c, h, n), n);
  }

  lemma WinnerFacts(c: Cluster, h: History, n: nat)
    requires Phases(c, h) && Voters(c, h) && n in c.nodes
    ensures PhaseOk(c, h, n) && VoterOk(h, n, Raft(c, n))
  {}

  lemma SameMajority(c: Cluster, d: Cluster, q: set<nat>)
    requires d.nodes.Keys == c.nodes.Keys && IsMajority(c, q)
    ensures IsMajority(d, q)
  {
    assert |c.nodes| == |c.nodes.Keys| && |d.nodes| == |d.nodes.Keys|;
  }

  lemma WinElected(c: Cluster, h: History, n: nat)
    requires Phases(c, h) && BallotsOk(c, h) && Voters(c, h) && Enabled(c, Win(n))
    ensures var g := AfterWin(c, h, n); var d := Take(c, Win(n)); var t := Raft(c, n).currentTerm;
            TenureElected(d, g, t) && VoterOk(g, n, Raft(d, n)) && LeaderOk(g, n, Raft(d, n))
  {
    hide Take, Phases, Voters, BallotsOk, IsMajority;
    WinEffect(c, n);
    WinnerFacts(c, h, n);
    SameMajority(c, Take(c, Win(n)), c.nodes[n].phase.votes);
  }

  lemma WinVotes(c: Cluster, h: History, n: nat)
    requires VoteInv(c, h) && Enabled(c, Win(n)) && Grows(h, AfterWin(c, h, n))
    ensures VoteInv(Take(c, Win(n)), AfterWin(c, h, n))
  {
    hide Elected, BallotsOk, Voters, Phases, Leaders, TenureElected, VoterOk, LeaderOk, Grows, Take, IsMajority;
    WinElected(c, h, n);
    FreshTerm(c, h, n);
    WinEffect(c, n);
    VoteFrame(c, Take(c, Win(n)), h, AfterWin(c, h, n), n);
  }

  lemma WinBallots(c: Cluster, h: History, n: nat)
    requires BallotInv(h) && Enabled(c, Win(n)) && Grows(h, AfterWin(c, h, n))
    ensures BallotInv(AfterWin(c, h, n))
  {
    BallotFrame(h, AfterWin(c, h, n));
  }

  lemma WinPeers(c: Cluster, n: nat)
    requires PeerInv(c) && Enabled(c, Win(n))
    ensures PeerInv(Take(c, Win(n)))
  {}

  lemma WinData(c: Cluster, h: History, n: nat)
    requires DataInv(c, h) && Enabled(c, Win(n))
    ensures DataInv(Take(c, Win(n)), AfterWin(c, h, n))
  {
    hide GoodLog, Persist, RaftStorage.Stored, HardStateKept, Contiguous, RaftStorage.UserMap, ApplyEntries;
    PromoteKeepsPeer(c.nodes[n].peer);
    DataFrame(c, Take(c, Win(n)), h, AfterWin(c, h, n), n);
  }

  lemma WinKeeps(c: Cluster, h: History, n: nat)
    requires Inv(c, h) && Enabled(c, Win(n))
    ensures Grows(h, AfterWin(c, h, n)) && Inv(Take(c, Win(n)), AfterWin(c, h, n))
  {
    WinGrows(c, h, n);
    WinParts(c, h, n);
  }

  lemma WinParts(c: Cluster, h: History, n: nat)
    requires Inv(c, h) && Enabled(c, Win(n)) && Grows(h, AfterWin(c, h, n))
    ensures Inv(Take(c, Win(n)), AfterWin(c, h, n))
  {
    hide PeerInv, DataInv, LogInv, VoteInv, AckInv, BallotInv, CommitInv, NetInv, MessageOk, Grows, AfterWin, Raft;
    WinLogs(c, h, n);
    WinAcks(c, h, n);
    WinCommits(c, h, n);
    WinVotes(c, h, n);
    WinBallots(c, h, n);
    NetFrame(c, Take(c, Win(n)), h, AfterWin(c, h, n));
    WinPeers(c, n);
    WinData(c, h, n);
  }
}
