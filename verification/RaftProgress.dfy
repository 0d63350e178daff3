/** The remaining steps: proposing, sending, counting, committing, finishing and restarting. */
module RaftProgress {
  import opened Basics
  import opened RaftCore
  import RaftStorage
  import opened RegionNode
  import opened RaftCluster
  import opened RaftHistory
  import opened RaftFrames

  /** What the invariant says about the votes of one node. */
  lemma NodeFacts(c: Cluster, h: History, n: nat)
    requires VoteInv(c, h) && n in c.nodes
    ensures LeaderOk(h, n, Raft(c, n)) && VoterOk(h, n, Raft(c, n)) && PhaseOk(c, h, n)
  {}

  lemma PeerFacts(c: Cluster, h: History, n: nat)
    requires DataInv(c, h) && n in c.nodes
    ensures Raft(c, n).regionId == c.regionId && PeerOk(c.nodes[n].peer)
  {}

  lemma SelfIdOk(c: Cluster, n: nat)
    requires PeerInv(c) && n in c.nodes
    ensures Raft(c, n).selfId == n && Valid(Raft(c, n))
  {}

  // ---- ProposeEntry ----

  ghost function AfterPropose(c: Cluster, h: History, n: nat, command: Text): History
    requires n in c.nodes && Raft(c, n).currentTerm in h.tenures
  {
    var s := Raft(c, n);
    var t := s.currentTerm;
    h.(tenures := h.tenures[t := h.tenures[t].(log := Propose(s, Normal, command).log)],
       acks := h.acks + {Ack(n, t, |s.log| + 1)})
  }

  lemma ProposeGrows(c: Cluster, h: History, n: nat, command: Text)
    requires Leaders(c, h) && Enabled(c, ProposeEntry(n, command))
    ensures Raft(c, n).currentTerm in h.tenures
    ensures Grows(h, AfterPropose(c, h, n, command))
  {
    assert LeaderOk(h, n, Raft(c, n));
  }

  lemma ProposeTenure(c: Cluster, h: History, n: nat, command: Text, t: nat)
    requires LogInv(c, h) && Leaders(c, h) && Enabled(c, ProposeEntry(n, command))
    requires t in h.tenures && Raft(c, n).currentTerm in h.tenures && Grows(h, AfterPropose(c, h, n, command))
    ensures TenureOk(AfterPropose(c, h, n, command), t)
  {
    hide GoodCommand;
    var g := AfterPropose(c, h, n, command);
    assert TenureOk(h, t) && LeaderOk(h, n, Raft(c, n));
    hide Leaders, LogInv;
    var log, log' := h.tenures[t].log, g.tenures[t].log;
    LogOkGrows(h, g, log);
    if t == Raft(c, n).currentTerm {
      hide Grows;
      LogOkPush(g, log, log', t);
    }
  }

  /** A term's log stays in order when its leader adds an entry of that term. */
  lemma LogOkPush(g: History, log: seq<LogEntry>, log': seq<LogEntry>, t: nat)
    requires LogOk(g, log) && |log'| == |log| + 1 && log <= log' && log'[|log|].term == t
    requires t in g.tenures && g.tenures[t].log == log'
    ensures LogOk(g, log')
  {
    forall i | 0 <= i < |log'| ensures log'[i].term in g.tenures && log'[..i + 1] <= g.tenures[log'[i].term].log {
      if i < |log| {
        assert log'[i] == log[i] && log'[..i + 1] == log[..i + 1];
      }
    }
  }

  lemma ProposedLog(c: Cluster, h: History, n: nat, command: Text)
    requires Leaders(c, h) && Enabled(c, ProposeEntry(n, command)) && Raft(c, n).currentTerm in h.tenures
    requires TenureOk(AfterPropose(c, h, n, command), Raft(c, n).currentTerm)
    ensures var g := AfterPropose(c, h, n, command);
            var log := Propose(Raft(c, n), Normal, command).log;
            g.runs == h.runs && LogOk(g, log) && TermsBelow(log, Raft(c, n).currentTerm + 1)
  {
    hide GoodCommand;
    assert LeaderOk(h, n, Raft(c, n));
    hide Leaders;
    var ten := AfterPropose(c, h, n, command).tenures[Raft(c, n).currentTerm];
    assert forall i :: 0 <= i < |ten.start| ==> ten.start[i] == ten.log[i];
  }

  lemma ProposeLogs(c: Cluster, h: History, n: nat, command: Text)
    requires LogInv(c, h) && Leaders(c, h) && Enabled(c, ProposeEntry(n, command))
    requires Raft(c, n).currentTerm in h.tenures && Grows(h, AfterPropose(c, h, n, command))
    ensures LogInv(Take(c, ProposeEntry(n, command)), AfterPropose(c, h, n, command))
  {
    ProposeEffect(c, n, command);
    hide GoodCommand, Take;
    var g := AfterPropose(c, h, n, command);
    forall t | t in g.tenures ensures TenureOk(g, t) {
      ProposeTenure(c, h, n, command, t);
    }
    var t := Raft(c, n).currentTerm;
    ProposedLog(c, h, n, command);
    hide TenureOk, LogOk, TermsBelow, Grows, Leaders, AfterPropose;
    LogFrame(c, Take(c, ProposeEntry(n, command)), h, g, n);
  }

  lemma ProposeAcks(c: Cluster, h: History, n: nat, command: Text)
    requires AckInv(c, h) && Leaders(c, h) && Enabled(c, ProposeEntry(n, command))
    requires Raft(c, n).currentTerm in h.tenures && Grows(h, AfterPropose(c, h, n, command))
    ensures AckInv(Take(c, ProposeEntry(n, command)), AfterPropose(c, h, n, command))
  {
    var d := Take(c, ProposeEntry(n, command));
    assert LeaderOk(h, n, Raft(c, n));
    AckKept(c, d, h, AfterPropose(c, h, n, command), n);
    AckFrame(c, d, h, AfterPropose(c, h, n, command), n);
  }

  lemma ProposeBallots(c: Cluster, h: History, n: nat, command: Text)
    requires BallotsOk(c, h) && BallotInv(h) && Enabled(c, ProposeEntry(n, command))
    requires Raft(c, n).currentTerm in h.tenures && Grows(h, AfterPropose(c, h, n, command))
    ensures BallotInv(AfterPropose(c, h, n, command))
  {
    BallotFrame(h, AfterPropose(c, h, n, command));
  }

  lemma ProposeCommits(c: Cluster, h: History, n: nat, command: Text)
    requires CommitInv(c, h) && Enabled(c, ProposeEntry(n, command))
    requires Raft(c, n).currentTerm in h.tenures && Grows(h, AfterPropose(c, h, n, command))
    ensures CommitInv(Take(c, ProposeEntry(n, command)), AfterPropose(c, h, n, command))
  {
    var s := Raft(c, n);
    var d := Take(c, ProposeEntry(n, command));
    assert Raft(d, n).log[..s.commitIndex] == s.log[..s.commitIndex];
    CommittedGrows(h, AfterPropose(c, h, n, command), s.log[..s.commitIndex], s.currentTerm, s.currentTerm);
    CommitFrame(c, d, h, AfterPropose(c, h, n, command), n);
  }

  lemma ProposeVotes(c: Cluster, h: History, n: nat, command: Text)
    requires VoteInv(c, h) && LogInv(c, h) && Enabled(c, ProposeEntry(n, command))
    requires Raft(c, n).currentTerm in h.tenures && Grows(h, AfterPropose(c, h, n, command))
    ensures VoteInv(Take(c, ProposeEntry(n, command)), AfterPropose(c, h, n, command))
  {
    hide Elected, BallotsOk, Voters, Phases, Leaders, LogInv, TenureElected;
    NodeFacts(c, h, n);
    ProposePhase(c, h, n, command);
    VoteFrame(c, Take(c, ProposeEntry(n, command)), h, AfterPropose(c, h, n, command), n);
  }

  lemma ProposePhase(c: Cluster, h: History, n: nat, command: Text)
    requires LogInv(c, h) && Enabled(c, ProposeEntry(n, command)) && LeaderOk(h, n, Raft(c, n)) && VoterOk(h, n, Raft(c, n))
    requires Raft(c, n).currentTerm in h.tenures
    ensures var d := Take(c, ProposeEntry(n, command)); var g := AfterPropose(c, h, n, command);
            PhaseOk(d, g, n) && LeaderOk(g, n, Raft(d, n)) && VoterOk(g, n, Raft(d, n))
  {
    hide Take, GoodCommand, LogInv;
    ProposeEffect(c, n, command);
    StartInLog(c, h, Raft(c, n).currentTerm);
  }

  lemma StartInLog(c: Cluster, h: History, t: nat)
    requires LogInv(c, h) && t in h.tenures
    ensures |h.tenures[t].start| <= |h.tenures[t].log|
  {
    assert TenureOk(h, t);
  }

  lemma ProposePeers(c: Cluster, n: nat, command: Text)
    requires PeerInv(c) && Enabled(c, ProposeEntry(n, command))
    ensures PeerInv(Take(c, ProposeEntry(n, command)))
  {}

  lemma ProposeNet(c: Cluster, h: History, n: nat, command: Text)
    requires NetInv(c, h) && Enabled(c, ProposeEntry(n, command))
    requires Raft(c, n).currentTerm in h.tenures && Grows(h, AfterPropose(c, h, n, command))
    ensures NetInv(Take(c, ProposeEntry(n, command)), AfterPropose(c, h, n, command))
  {
    NetFrame(c, Take(c, ProposeEntry(n, command)), h, AfterPropose(c, h, n, command));
  }

  lemma ProposeData(c: Cluster, h: History, n: nat, command: Text)
    requires DataInv(c, h) && Enabled(c, ProposeEntry(n, command)) && Raft(c, n).currentTerm in h.tenures
    ensures DataInv(Take(c, ProposeEntry(n, command)), AfterPropose(c, h, n, command))
  {
    hide GoodCommand, RaftStorage.Stored, HardStateKept, RaftStorage.UserMap, ApplyEntries, GoodLog, Contiguous;
    var p := c.nodes[n].peer;
    OfferKeepsPeer(p, command);
    OfferLog(p, command);
    hide PeerOk;
    DataFrame(c, Take(c, ProposeEntry(n, command)), h, AfterPropose(c, h, n, command), n);
  }

  lemma ProposeKeeps(c: Cluster, h: History, n: nat, command: Text)
    requires Inv(c, h) && Enabled(c, ProposeEntry(n, command))
    ensures Raft(c, n).currentTerm in h.tenures
    ensures var g := AfterPropose(c, h, n, command); Grows(h, g) && Inv(Take(c, ProposeEntry(n, command)), g)
  {
    hide PeerInv, DataInv, LogInv, AckInv, BallotInv, CommitInv, NetInv, Elected, BallotsOk, Voters, Phases, Leaders,
         Grows, Take, AfterPropose;
    ProposeGrows(c, h, n, command);
    ProposeLogs(c, h, n, command);
    ProposeAcks(c, h, n, command);
    ProposeBallots(c, h, n, command);
    ProposeCommits(c, h, n, command);
    ProposeVotes(c, h, n, command);
    ProposeNet(c, h, n, command);
    ProposePeers(c, n, command);
    ProposeData(c, h, n, command);
  }

  // ---- Commit ----

  ghost function AfterCommit(c: Cluster, h: History, n: nat): History {
    if n in c.nodes && c.nodes[n].phase.Replicating? then
      var s := Raft(c, n);
      h.(decisions := h.decisions + {Decision(s.currentTerm, |s.log|, c.nodes[n].phase.acks)})
    else h
  }

  lemma CommitDecides(c: Cluster, h: History, n: nat)
    requires Leaders(c, h) && Phases(c, h) && CommitInv(c, h) && PeerInv(c) && Enabled(c, Commit(n))
    ensures CommitInv(Take(c, Commit(n)), AfterCommit(c, h, n))
  {
    hide Take, CommitInv, PeerInv, Committed, DecisionOk;
    CommitEffect(c, n);
    CommitGrows(c, h, n);
    CommitDecision(c, h, n);
    hide Leaders, Phases, Grows, IsMajority;
    CommitFrame(c, Take(c, Commit(n)), h, AfterCommit(c, h, n), n);
  }

  /** The new decision stands, and covers the leader's whole log. */
  lemma CommitDecision(c: Cluster, h: History, n: nat)
    requires Leaders(c, h) && Phases(c, h) && Enabled(c, Commit(n))
    ensures var d, g := Take(c, Commit(n)), AfterCommit(c, h, n);
            && (forall x :: x in g.decisions && x !in h.decisions ==> DecisionOk(d, g, x))
            && n in d.nodes && Raft(d, n).commitIndex <= |Raft(d, n).log|
            && Committed(g, Raft(d, n).log[..Raft(d, n).commitIndex], Raft(d, n).currentTerm)
  {
    hide Take;
    CommitEffect(c, n);
    var s := Raft(c, n);
    var d, g := Take(c, Commit(n)), AfterCommit(c, h, n);
    assert LeaderOk(h, n, s) && PhaseOk(c, h, n);
    hide Leaders, Phases;
    var x := Decision(s.currentTerm, |s.log|, c.nodes[n].phase.acks);
    assert |c.nodes| == |c.nodes.Keys| && |d.nodes| == |d.nodes.Keys|;
    assert x in g.decisions && s.log[..|s.log|] <= g.tenures[x.term].log[..x.len];
  }

  lemma CommitVotes(c: Cluster, h: History, n: nat)
    requires VoteInv(c, h) && Enabled(c, Commit(n))
    ensures VoteInv(Take(c, Commit(n)), AfterCommit(c, h, n))
  {
    hide Elected, BallotsOk, Voters, Phases, Leaders, TenureElected, Take, IsMajority;
    NodeFacts(c, h, n);
    CommitEffect(c, n);
    CommitGrows(c, h, n);
    hide Grows;
    VoteFrame(c, Take(c, Commit(n)), h, AfterCommit(c, h, n), n);
  }

  lemma CommitKeeps(c: Cluster, h: History, n: nat)
    requires Inv(c, h) && Enabled(c, Commit(n))
    ensures Grows(h, AfterCommit(c, h, n)) && Inv(Take(c, Commit(n)), AfterCommit(c, h, n))
  {
    hide PeerInv, DataInv, LogInv, AckInv, BallotInv, CommitInv, NetInv, Elected, BallotsOk, Voters, Phases, Leaders,
         Grows, Take, AfterCommit, SameHistory, SameNode, IsMajority, Valid;
    CommitGrows(c, h, n);
    CommitQuiet(c, h, n);
    RestKeeps(c, Take(c, Commit(n)), h, AfterCommit(c, h, n), n);
    CommitVotes(c, h, n);
    CommitDecides(c, h, n);
    CommitData(c, h, n);
  }

  lemma CommitData(c: Cluster, h: History, n: nat)
    requires DataInv(c, h) && Enabled(c, Commit(n))
    ensures DataInv(Take(c, Commit(n)), AfterCommit(c, h, n))
  {
    hide PeerOk, GoodLog, Persist, ApplyEntries, Take, CommitLast, IsMajority;
    CommitEffect(c, n);
    CommitKeepsPeer(c.nodes[n].peer);
    DataFrame(c, Take(c, Commit(n)), h, AfterCommit(c, h, n), n);
  }

  lemma CommitGrows(c: Cluster, h: History, n: nat)
    ensures Grows(h, AfterCommit(c, h, n)) && SameHistory(h, AfterCommit(c, h, n))
  {}

  lemma CommitQuiet(c: Cluster, h: History, n: nat)
    requires Enabled(c, Commit(n))
    ensures SameNode(c, Take(c, Commit(n)), n) && Take(c, Commit(n)).net == c.net && Valid(Raft(Take(c, Commit(n)), n))
  {
    hide Take, IsMajority;
    CommitEffect(c, n);
  }

  // ---- Steps that leave the history as it is ----

  /** A step after which the node has the same log, term and vote. */
  ghost predicate SameNode(c: Cluster, d: Cluster, n: nat) {
    && Updates(c, d, n)
    && var s, r := Raft(c, n), Raft(d, n);
    r.selfId == s.selfId && r.log == s.log && r.currentTerm == s.currentTerm && r.votedFor == s.votedFor
  }

  ghost predicate SameHistory(h: History, g: History) {
    g == h.(decisions := g.decisions)
  }

  lemma RestKeeps(c: Cluster, d: Cluster, h: History, g: History, n: nat)
    requires PeerInv(c) && LogInv(c, h) && AckInv(c, h) && BallotInv(h) && NetInv(c, h)
    requires SameNode(c, d, n) && Grows(h, g) && SameHistory(h, g) && Valid(Raft(d, n))
    requires forall m :: m in d.net && m !in c.net ==> MessageOk(g, m)
    ensures PeerInv(d) && LogInv(d, g) && AckInv(d, g) && BallotInv(g) && NetInv(d, g)
  {
    RestLogs(c, d, h, g, n);
    assert PeerInv(d);
    hide PeerInv, DataInv, LogInv, BallotInv, NetInv, MessageOk, AckOk;
    AckKept(c, d, h, g, n);
    AckFrame(c, d, h, g, n);
    NetFrame(c, d, h, g);
  }

  lemma RestLogs(c: Cluster, d: Cluster, h: History, g: History, n: nat)
    requires LogInv(c, h) && BallotInv(h) && SameNode(c, d, n) && Grows(h, g) && SameHistory(h, g)
    ensures LogInv(d, g) && BallotInv(g)
  {
    SameTenures(c, h, g);
    LogOkGrows(h, g, Raft(c, n).log);
    LogFrame(c, d, h, g, n);
    hide LogInv, AckKnown, BallotKeeps;
    BallotFrame(h, g);
  }

  lemma QuietCommits(c: Cluster, d: Cluster, h: History, n: nat)
    requires CommitInv(c, h) && SameNode(c, d, n) && Grows(h, h) && Raft(d, n).commitIndex == Raft(c, n).commitIndex
    ensures CommitInv(d, h)
  {
    CommitFrame(c, d, h, h, n);
  }

  lemma QuietVotes(c: Cluster, d: Cluster, h: History, n: nat)
    requires VoteInv(c, h) && SameNode(c, d, n) && Grows(h, h)
    requires PhaseOk(d, h, n) && LeaderOk(h, n, Raft(d, n))
    ensures VoteInv(d, h)
  {
    NodeFacts(c, h, n);
    hide Elected, BallotsOk, Voters, Phases, Leaders, PhaseOk, LeaderOk, TenureElected;
    VoteFrame(c, d, h, h, n);
  }

  lemma GrowsItself(h: History)
    ensures Grows(h, h)
  {}

  lemma QuietKeeps(c: Cluster, d: Cluster, h: History, n: nat)
    requires Inv(c, h) && SameNode(c, d, n)
    requires Raft(d, n).commitIndex == Raft(c, n).commitIndex && Raft(d, n).lastApplied == Raft(c, n).lastApplied
    requires Raft(d, n).regionId == c.regionId && PeerOk(d.nodes[n].peer)
    requires PhaseOk(d, h, n) && LeaderOk(h, n, Raft(d, n))
    requires forall m :: m in d.net && m !in c.net ==> MessageOk(h, m)
    ensures Inv(d, h)
  {
    assert Valid(Raft(d, n));
    GrowsItself(h);
    hide PeerInv, DataInv, LogInv, AckInv, BallotInv, CommitInv, NetInv, VoteInv, Grows, SameNode, PhaseOk, LeaderOk, MessageOk, Valid;
    RestKeeps(c, d, h, h, n);
    QuietCommits(c, d, h, n);
    QuietVotes(c, d, h, n);
    QuietData(c, d, h, n);
  }

  lemma QuietData(c: Cluster, d: Cluster, h: History, n: nat)
    requires DataInv(c, h) && SameNode(c, d, n) && Raft(d, n).regionId == c.regionId && PeerOk(d.nodes[n].peer)
    ensures DataInv(d, h)
  {
    DataFrame(c, d, h, h, n);
  }

  lemma CountVoteKeeps(c: Cluster, h: History, n: nat, from: nat)
    requires Inv(c, h) && Enabled(c, CountVote(n, from))
    ensures Inv(Take(c, CountVote(n, from)), h)
  {
    hide PeerInv, DataInv, LogInv, AckInv, BallotInv, CommitInv, NetInv, VoteInv, PeerOk, PhaseOk, LeaderOk;
    PeerFacts(c, h, n);
    NodeFacts(c, h, n);
    CountVotePhase(c, h, n, from);
    QuietKeeps(c, Take(c, CountVote(n, from)), h, n);
  }

  lemma CountVotePhase(c: Cluster, h: History, n: nat, from: nat)
    requires Enabled(c, CountVote(n, from)) && PeerInv(c) && NetInv(c, h) && PhaseOk(c, h, n) && LeaderOk(h, n, Raft(c, n))
    ensures var d := Take(c, CountVote(n, from)); PhaseOk(d, h, n) && LeaderOk(h, n, Raft(d, n))
  {
    assert MessageOk(h, VoteReply(from, BallotRequest(Raft(c, n)), true));
  }

  lemma CountAckKeeps(c: Cluster, h: History, n: nat, from: nat, next: nat)
    requires Inv(c, h) && Enabled(c, CountAck(n, from, next))
    ensures Inv(Take(c, CountAck(n, from, next)), h)
  {
    hide PeerInv, DataInv, LogInv, AckInv, BallotInv, CommitInv, NetInv, VoteInv, PeerOk, PhaseOk, LeaderOk;
    PeerFacts(c, h, n);
    NodeFacts(c, h, n);
    CountAckPhase(c, h, n, from, next);
    QuietKeeps(c, Take(c, CountAck(n, from, next)), h, n);
  }

  lemma CountAckPhase(c: Cluster, h: History, n: nat, from: nat, next: nat)
    requires Enabled(c, CountAck(n, from, next)) && NetInv(c, h) && PhaseOk(c, h, n) && LeaderOk(h, n, Raft(c, n))
    ensures var d := Take(c, CountAck(n, from, next)); PhaseOk(d, h, n) && LeaderOk(h, n, Raft(d, n))
  {
    assert MessageOk(h, AppendReply(from, BuildAppend(Raft(c, n), next), true));
  }

  /** Every request a leader builds is a slice of its term's log that reaches to its end. */
  lemma BuiltFromLog(c: Cluster, h: History, n: nat, next: nat)
    requires PeerInv(c) && CommitInv(c, h) && n in c.nodes && LeaderOk(h, n, Raft(c, n)) && Raft(c, n).role == Leader
    requires 1 <= next <= |Raft(c, n).log| + 1
    ensures AppendOk(h, BuildAppend(Raft(c, n), next))
  {
    var s := Raft(c, n);
    assert s.log[next - 1..] == s.log[next - 1..|s.log|];
  }

  lemma AppendAskMessage(h: History, to: nat, req: AppendRequest)
    requires AppendOk(h, req) && to != req.leaderId
    ensures MessageOk(h, AppendAsk(to, req))
  {}

  lemma SendKeeps(c: Cluster, h: History, n: nat, to: nat, next: nat)
    requires Inv(c, h) && Enabled(c, SendAppend(n, to, next))
    ensures Inv(Take(c, SendAppend(n, to, next)), h)
  {
    hide PeerInv, DataInv, LogInv, AckInv, BallotInv, CommitInv, NetInv, VoteInv, PeerOk, MessageOk, AppendOk;
    PeerFacts(c, h, n);
    NodeFacts(c, h, n);
    SelfIdOk(c, n);
    BuiltFromLog(c, h, n, next);
    AppendAskMessage(h, to, BuildAppend(Raft(c, n), next));
    QuietKeeps(c, Take(c, SendAppend(n, to, next)), h, n);
  }

  lemma FinishKeeps(c: Cluster, h: History, n: nat)
    requires Inv(c, h) && Enabled(c, Finish(n))
    ensures Inv(Take(c, Finish(n)), h)
  {
    hide PeerInv, DataInv, LogInv, AckInv, BallotInv, CommitInv, NetInv, VoteInv, PeerOk;
    PeerFacts(c, h, n);
    NodeFacts(c, h, n);
    QuietKeeps(c, Take(c, Finish(n)), h, n);
  }

  /** Restarting from storage changes the role and nothing else. */
  lemma CrashNode(c: Cluster, h: History, n: nat)
    requires DataInv(c, h) && Enabled(c, Crash(n))
    ensures var d := Take(c, Crash(n));
            && SameNode(c, d, n) && d.net == c.net && d.nodes[n].phase == Idle
            && Raft(d, n) == Raft(c, n).(role := Follower) && Raft(d, n).regionId == c.regionId && PeerOk(d.nodes[n].peer)
  {
    hide PeerOk, Reboot, Recovered, GoodLog;
    PeerFacts(c, h, n);
    hide DataInv;
    RestartIsInvisible(c.nodes[n].peer);
    RebootKeepsPeer(c.nodes[n].peer);
  }

  lemma CrashKeeps(c: Cluster, h: History, n: nat)
    requires Inv(c, h) && Enabled(c, Crash(n))
    ensures Inv(Take(c, Crash(n)), h)
  {
    hide PeerInv, DataInv, LogInv, AckInv, BallotInv, CommitInv, NetInv, VoteInv, PeerOk, Reboot, Take;
    CrashNode(c, h, n);
    QuietKeeps(c, Take(c, Crash(n)), h, n);
  }
}
