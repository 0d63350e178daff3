/** Replication steps keep the invariant. */
module RaftReplication {
  import opened Basics
  import opened RaftCore
  import opened RaftLog
  import RaftStorage
  import opened RegionNode
  import opened RaftCluster
  import opened RaftHistory
  import opened RaftFrames

  // ---- Leader completeness ----

  /** Every later leader started with the entries that were decided before. */
  lemma {:induction false} LaterLeadersHold(c: Cluster, h: History, d: Decision, t: nat)
    requires Elected(c, h) && BallotInv(h)
    requires d in h.decisions && DecisionOk(c, h, d)
    requires t in h.tenures && d.term < t
    ensures h.tenures[d.term].log[..d.len] <= h.tenures[t].start
    decreases t
  {
    assert TenureElected(c, h, t);
    assert |c.nodes| == |c.nodes.Keys|;
    var v := QuorumsMeet(c.nodes.Keys, d.quorum, h.tenures[t].quorum);
    var a := Ack(v, d.term, d.len);
    assert a in h.acks && (v, t) in h.ballots;
    assert BallotKeeps(h, a, t);
    if Lost(h, a, t) {
      var u :| u in h.tenures && a.term < u < t && !(Held(h, a) <= h.tenures[u].start);
      LaterLeadersHold(c, h, d, u);
    }
  }

  /** A committed prefix is in the log of every term from then on. */
  lemma CommittedInTerm(c: Cluster, h: History, p: seq<LogEntry>, since: nat, t: nat)
    requires Elected(c, h) && BallotInv(h)
    requires forall d :: d in h.decisions ==> DecisionOk(c, h, d)
    requires Committed(h, p, since) && since <= t && t in h.tenures && h.tenures[t].start <= h.tenures[t].log
    ensures p <= h.tenures[t].log
  {
    if p != [] {
      var d :| d in h.decisions && d.term <= since && d.term in h.tenures
               && d.len <= |h.tenures[d.term].log| && p <= h.tenures[d.term].log[..d.len];
      if d.term < t {
        LaterLeadersHold(c, h, d, t);
      }
    }
  }

  // ---- DeliverAppend ----

  /** The log that an append request is a slice of. */
  ghost function LeaderLog(h: History, req: AppendRequest): seq<LogEntry>
    requires req.term in h.tenures
  {
    h.tenures[req.term].log
  }

  /** A successful request leaves the leader's prefix in the follower's log and cuts nothing the two share. */
  lemma AppendEffect(h: History, s: RaftState, req: AppendRequest, p: seq<LogEntry>)
    requires Valid(s) && LogOk(h, s.log) && AppendOk(h, req) && TenureOk(h, req.term)
    requires p <= s.log && p <= LeaderLog(h, req)
    ensures WellFormed(req)
    ensures Follows(s, LeaderLog(h, req), req, p)
  {
    LogsAgree(h, s.log, LeaderLog(h, req));
    hide LogOk, Committed;
    FollowsLeader(s, LeaderLog(h, req), req, p);
  }

  ghost function AfterAppend(c: Cluster, h: History, n: nat, req: AppendRequest): History {
    if n in c.nodes && Valid(Raft(c, n)) && WellFormed(req) && HandleAppend(Raft(c, n), req).1.success
    then h.(acks := h.acks + {Ack(n, req.term, req.prevLogIndex + |req.entries|)}) else h
  }

  /** The receiver after the handler: what stays, and that a success means the sender's term was at least its own. */
  lemma AppendTerms(s: RaftState, req: AppendRequest)
    requires Valid(s) && WellFormed(req)
    ensures var (r, res) := HandleAppend(s, req);
            && r.selfId == s.selfId
            && r.currentTerm == (if req.term < s.currentTerm then s.currentTerm else req.term)
            && (res.success ==> req.term >= s.currentTerm)
            && (req.term < s.currentTerm ==> r == s)
            && (req.term >= s.currentTerm ==>
                  r.role == Follower && r.votedFor == if req.term > s.currentTerm then None else s.votedFor)
  {}

  /** An acknowledged prefix survives the append, or the sender's term is one that lacked it. */
  lemma AppendAckKept(c: Cluster, h: History, n: nat, req: AppendRequest, a: Ack)
    requires PeerInv(c) && LogInv(c, h) && n in c.nodes && a in h.acks && a.peer == n && AckOk(c, h, a)
    requires AppendOk(h, req) && WellFormed(req)
    ensures var r := HandleAppend(Raft(c, n), req).0;
            Held(h, a) <= r.log || Lost(h, a, r.currentTerm + 1)
  {
    hide HandleAppend, Contiguous, Committed, LogOk, SliceOf;
    var s := Raft(c, n);
    AppendTerms(s, req);
    var p := Held(h, a);
    if p <= s.log {
      if req.term >= s.currentTerm {
        assert TenureOk(h, req.term);
        if p <= LeaderLog(h, req) {
          AppendEffect(h, s, req, p);
        }
      }
    } else {
      var u :| u in h.tenures && a.term < u < s.currentTerm + 1 && !(p <= h.tenures[u].start);
    }
  }

  lemma AppendAcks(c: Cluster, h: History, n: nat, req: AppendRequest)
    requires PeerInv(c) && LogInv(c, h) && AckInv(c, h) && AppendOk(h, req) && Enabled(c, DeliverAppend(n, req))
    requires Grows(h, AfterAppend(c, h, n, req))
    ensures AckInv(Take(c, DeliverAppend(n, req)), AfterAppend(c, h, n, req))
  {
    hide HandleAppend, LogInv, PeerInv, Take, AppendOk, WellFormed, Valid, AfterAppend, Grows;
    var g := AfterAppend(c, h, n, req);
    var d := Take(c, DeliverAppend(n, req));
    AppendTerms(Raft(c, n), req);
    AppendDelivered(c, n, req);
    AppendNewAck(c, h, n, req);
    forall a | a in h.acks && a.peer == n ensures AckOk(d, g, a) {
      AppendOldAck(c, h, n, req, a);
    }
    hide AckOk;
    AckFrame(c, d, h, g, n);
  }

  lemma AppendOldAck(c: Cluster, h: History, n: nat, req: AppendRequest, a: Ack)
    requires PeerInv(c) && LogInv(c, h) && AckInv(c, h) && AppendOk(h, req) && Enabled(c, DeliverAppend(n, req))
    requires Grows(h, AfterAppend(c, h, n, req)) && a in h.acks && a.peer == n
    ensures AckOk(Take(c, DeliverAppend(n, req)), AfterAppend(c, h, n, req), a)
  {
    hide HandleAppend, LogInv, PeerInv, Take, AppendOk, WellFormed, AfterAppend, Grows, Lost, Held, Valid;
    var g := AfterAppend(c, h, n, req);
    var d := Take(c, DeliverAppend(n, req));
    AppendTerms(Raft(c, n), req);
    AppendDelivered(c, n, req);
    assert AckOk(c, h, a);
    hide AckInv;
    AppendAckKept(c, h, n, req, a);
    AckCarried(d, h, g, a);
  }

  lemma AckCarried(d: Cluster, h: History, g: History, a: Ack)
    requires Grows(h, g) && AckKnown(h, a) && a.peer in d.nodes && a.term <= Raft(d, a.peer).currentTerm
    requires Held(h, a) <= Raft(d, a.peer).log || Lost(h, a, Raft(d, a.peer).currentTerm + 1)
    ensures AckOk(d, g, a)
  {
    HeldGrows(h, g, a);
    hide Lost, Held, Grows;
    if Lost(h, a, Raft(d, a.peer).currentTerm + 1) {
      LostGrows(h, g, a, Raft(d, a.peer).currentTerm + 1, Raft(d, a.peer).currentTerm + 1);
    }
  }

  lemma AppendDelivered(c: Cluster, n: nat, req: AppendRequest)
    requires Enabled(c, DeliverAppend(n, req))
    ensures var d := Take(c, DeliverAppend(n, req));
            var r := HandleAppend(Raft(c, n), req).0;
            && Updates(c, d, n)
            && d.nodes[n].phase == Idle && d.nodes[n].peer == OnAppend(c.nodes[n].peer, req).0
            && Raft(d, n) == r.(lastApplied := Raft(d, n).lastApplied)
            && r.lastApplied <= Raft(d, n).lastApplied <= r.commitIndex <= |r.log|
  {
    hide HandleAppend, Persist, PersistLogFrom, ApplyEntries;
  }

  lemma AppendNewAck(c: Cluster, h: History, n: nat, req: AppendRequest)
    requires PeerInv(c) && LogInv(c, h) && AppendOk(h, req) && Enabled(c, DeliverAppend(n, req))
    ensures forall a :: a in AfterAppend(c, h, n, req).acks && a !in h.acks ==>
                          AckOk(Take(c, DeliverAppend(n, req)), AfterAppend(c, h, n, req), a)
  {
    hide HandleAppend, Take, LogOk, Committed, Contiguous, Lost;
    assert TenureOk(h, req.term);
    AppendEffect(h, Raft(c, n), req, []);
    AppendTerms(Raft(c, n), req);
    AppendDelivered(c, n, req);
  }

  lemma AppendLogs(c: Cluster, h: History, n: nat, req: AppendRequest)
    requires PeerInv(c) && LogInv(c, h) && AppendOk(h, req) && Enabled(c, DeliverAppend(n, req))
    requires Grows(h, AfterAppend(c, h, n, req))
    ensures LogInv(Take(c, DeliverAppend(n, req)), AfterAppend(c, h, n, req))
  {
    hide Take, HandleAppend, LogInv, Committed, SliceOf, LogOk, TermsBelow, WellFormed, TenureOk, Valid, PeerInv, Grows, AfterAppend;
    AppendHistory(c, h, n, req);
    var g := AfterAppend(c, h, n, req);
    var d := Take(c, DeliverAppend(n, req));
    var s := Raft(c, n);
    LogFacts(c, h, n, req.term);
    SameTenures(c, h, g);
    AppendNewLog(h, s, req);
    AppendDelivered(c, n, req);
    LogOkSame(h, g, Raft(d, n).log);
    hide Enabled, AppendOk;
    LogFrame(c, d, h, g, n);
  }

  lemma LogFacts(c: Cluster, h: History, n: nat, t: nat)
    requires LogInv(c, h) && n in c.nodes && t in h.tenures
    ensures LogOk(h, Raft(c, n).log) && TermsBelow(Raft(c, n).log, Raft(c, n).currentTerm + 1) && TenureOk(h, t)
  {}

  lemma AppendHistory(c: Cluster, h: History, n: nat, req: AppendRequest)
    ensures AfterAppend(c, h, n, req) == h.(acks := AfterAppend(c, h, n, req).acks)
  {}

  lemma LogOkSame(h: History, g: History, log: seq<LogEntry>)
    requires LogOk(h, log) && g.tenures == h.tenures
    ensures LogOk(g, log)
  {}

  lemma TenureTerms(h: History, t: nat, m: nat)
    requires t in h.tenures && TenureOk(h, t) && m <= |h.tenures[t].log|
    ensures TermsBelow(h.tenures[t].log[..m], t + 1)
  {
    var ten := h.tenures[t];
    forall i | 0 <= i < m ensures ten.log[..m][i].term < t + 1 {
      if i < |ten.start| {
        assert ten.start[i] == ten.log[i];
      }
    }
  }

  lemma AppendNewLog(h: History, s: RaftState, req: AppendRequest)
    requires Valid(s) && WellFormed(req) && LogOk(h, s.log) && TermsBelow(s.log, s.currentTerm + 1)
    requires AppendOk(h, req) && TenureOk(h, req.term)
    ensures var r := HandleAppend(s, req).0; LogOk(h, r.log) && TermsBelow(r.log, r.currentTerm + 1)
  {
    hide HandleAppend, LogOk, Committed;
    AppendEffect(h, s, req, []);
    AppendTerms(s, req);
    var l := LeaderLog(h, req);
    var m := req.prevLogIndex + |req.entries|;
    LogOkPrefix(h, l[..m], l);
    TenureTerms(h, req.term, m);
  }

  lemma AppendCommits(c: Cluster, h: History, n: nat, req: AppendRequest)
    requires PeerInv(c) && LogInv(c, h) && Elected(c, h) && BallotInv(h) && CommitInv(c, h)
    requires AppendOk(h, req) && Enabled(c, DeliverAppend(n, req)) && Grows(h, AfterAppend(c, h, n, req))
    ensures CommitInv(Take(c, DeliverAppend(n, req)), AfterAppend(c, h, n, req))
  {
    var g := AfterAppend(c, h, n, req);
    var d := Take(c, DeliverAppend(n, req));
    AppendDelivered(c, n, req);
    AppendCommitted(c, h, n, req);
    CommittedGrows(h, g, Raft(d, n).log[..Raft(d, n).commitIndex], Raft(d, n).currentTerm, Raft(d, n).currentTerm);
    CommitFrame(c, d, h, g, n);
  }

  /** The committed prefix of the receiver is in the sender's log, so nothing at or below the commit index is cut. */
  lemma AppendCommitted(c: Cluster, h: History, n: nat, req: AppendRequest)
    requires PeerInv(c) && LogInv(c, h) && Elected(c, h) && BallotInv(h) && CommitInv(c, h) && n in c.nodes
    requires AppendOk(h, req)
    ensures WellFormed(req)
    ensures var s := Raft(c, n); var (r, res) := HandleAppend(s, req);
            && s.log[..s.commitIndex] <= r.log
            && s.commitIndex <= r.commitIndex <= |r.log|
            && s.lastApplied == r.lastApplied
            && Committed(h, r.log[..r.commitIndex], r.currentTerm)
  {
    hide HandleAppend, Elected, BallotInv, LogOk, Lost, Contiguous, DecisionOk;
    var s := Raft(c, n);
    var p := s.log[..s.commitIndex];
    assert TenureOk(h, req.term);
    AppendEffect(h, s, req, []);
    AppendTerms(s, req);
    if req.term >= s.currentTerm {
      CommittedInTerm(c, h, p, s.currentTerm, req.term);
      AppendEffect(h, s, req, p);
      CommittedGrows(h, h, p, s.currentTerm, req.term);
      hide HandleAppend, LogInv, PeerInv, Elected, BallotInv, CommitInv, Committed;
      var (r, res) := HandleAppend(s, req);
      if res.success && req.leaderCommit > s.commitIndex {
        assert r.log[..r.commitIndex] == LeaderLog(h, req)[..r.commitIndex];
      } else {
        assert r.log[..r.commitIndex] == p;
      }
    }
  }

  lemma VoterFacts(c: Cluster, h: History, n: nat, term: nat)
    requires BallotsOk(c, h) && Voters(c, h) && Leaders(c, h) && n in c.nodes
    ensures VoterOk(h, n, Raft(c, n)) && LeaderOk(h, n, Raft(c, n))
    ensures (n, term) in h.ballots ==> term <= Raft(c, n).currentTerm
  {
    assert (n, term) in h.ballots ==> BallotOk(c, h, (n, term));
  }

  /** A peer that stays as it was, or follows a term it has not voted in yet, is still accounted for. */
  lemma VoterMoves(h: History, g: History, n: nat, s: RaftState, r: RaftState, term: nat)
    requires VoterOk(h, n, s) && LeaderOk(h, n, s) && g == h.(acks := g.acks)
    requires (n, term) in h.ballots ==> term <= s.currentTerm
    requires term < s.currentTerm ==> r.role == s.role && r.currentTerm == s.currentTerm && r.votedFor == s.votedFor && r.log == s.log
    requires term >= s.currentTerm ==>
               r.currentTerm == term && r.role == Follower && r.votedFor == if term > s.currentTerm then None else s.votedFor
    ensures VoterOk(g, n, r) && LeaderOk(g, n, r)
  {}

  lemma AppendPhase(c: Cluster, h: History, n: nat, req: AppendRequest)
    requires BallotsOk(c, h) && Voters(c, h) && Leaders(c, h) && Enabled(c, DeliverAppend(n, req))
    ensures var d, g := Take(c, DeliverAppend(n, req)), AfterAppend(c, h, n, req);
            PhaseOk(d, g, n) && VoterOk(g, n, Raft(d, n)) && LeaderOk(g, n, Raft(d, n))
  {
    hide HandleAppend, Take, WellFormed, Valid, AfterAppend, Voters, Leaders, BallotsOk, VoterOk, LeaderOk;
    VoterFacts(c, h, n, req.term);
    AppendTerms(Raft(c, n), req);
    AppendDelivered(c, n, req);
    AppendHistory(c, h, n, req);
    VoterMoves(h, AfterAppend(c, h, n, req), n, Raft(c, n), Raft(Take(c, DeliverAppend(n, req)), n), req.term);
  }

  lemma AppendVotes(c: Cluster, h: History, n: nat, req: AppendRequest)
    requires VoteInv(c, h) && Enabled(c, DeliverAppend(n, req)) && Grows(h, AfterAppend(c, h, n, req))
    ensures VoteInv(Take(c, DeliverAppend(n, req)), AfterAppend(c, h, n, req))
  {
    hide Elected, BallotsOk, Voters, Phases, Leaders, HandleAppend, Take, PhaseOk, VoterOk, LeaderOk, Valid, WellFormed;
    AppendTerms(Raft(c, n), req);
    AppendDelivered(c, n, req);
    AppendPhase(c, h, n, req);
    VoteFrame(c, Take(c, DeliverAppend(n, req)), h, AfterAppend(c, h, n, req), n);
  }

  lemma AppendBallots(c: Cluster, h: History, n: nat, req: AppendRequest)
    requires BallotsOk(c, h) && BallotInv(h) && Enabled(c, DeliverAppend(n, req)) && Grows(h, AfterAppend(c, h, n, req))
    ensures BallotInv(AfterAppend(c, h, n, req))
  {
    var g := AfterAppend(c, h, n, req);
    AppendTerms(Raft(c, n), req);
    BallotFrame(h, g);
  }

  lemma AppendNet(c: Cluster, h: History, n: nat, req: AppendRequest)
    requires NetInv(c, h) && Enabled(c, DeliverAppend(n, req)) && Grows(h, AfterAppend(c, h, n, req))
    ensures NetInv(Take(c, DeliverAppend(n, req)), AfterAppend(c, h, n, req))
  {
    hide HandleAppend, Persist, PersistLogFrom, ApplyEntries, Valid, WellFormed;
    NetFrame(c, Take(c, DeliverAppend(n, req)), h, AfterAppend(c, h, n, req));
  }

  lemma AppendPeers(c: Cluster, n: nat, req: AppendRequest)
    requires PeerInv(c) && Enabled(c, DeliverAppend(n, req))
    ensures PeerInv(Take(c, DeliverAppend(n, req)))
  {
    AppendTerms(Raft(c, n), req);
    AppendDelivered(c, n, req);
  }

  /** The receiver's storage follows: what it stores and applies is part of the sender's log. */
  lemma AppendData(c: Cluster, h: History, n: nat, req: AppendRequest)
    requires PeerInv(c) && DataInv(c, h) && LogInv(c, h) && Elected(c, h) && BallotInv(h) && CommitInv(c, h)
    requires AppendOk(h, req) && Enabled(c, DeliverAppend(n, req))
    ensures DataInv(Take(c, DeliverAppend(n, req)), AfterAppend(c, h, n, req))
  {
    hide HandleAppend, PeerOk, GoodLog, PeerInv, LogInv, Elected, BallotInv, CommitInv, AppendOk, OnAppend, Take;
    var p := c.nodes[n].peer;
    AppendGood(c, h, n, req);
    AppendLogEffect(p.raft, req);
    AppendKeepsPeer(p, req);
    AppendDelivered(c, n, req);
    DataFrame(c, Take(c, DeliverAppend(n, req)), h, AfterAppend(c, h, n, req), n);
  }

  lemma AppendGood(c: Cluster, h: History, n: nat, req: AppendRequest)
    requires PeerInv(c) && DataInv(c, h) && LogInv(c, h) && Elected(c, h) && BallotInv(h) && CommitInv(c, h) && n in c.nodes
    requires AppendOk(h, req) && WellFormed(req)
    ensures var s := Raft(c, n); var r := HandleAppend(s, req).0;
            && GoodLog(s.regionId, r.log) && r.votedFor != Some(0) && r.lastApplied == s.lastApplied
            && r.log[..s.lastApplied] == s.log[..s.lastApplied]
  {
    hide HandleAppend, Elected, BallotInv, CommitInv, Committed, RaftStorage.Stored, HardStateKept, RaftStorage.UserMap, ApplyEntries, GoodCommand;
    var s := Raft(c, n);
    var r := HandleAppend(s, req).0;
    AppendTerms(s, req);
    AppendCommitted(c, h, n, req);
    assert r.log[..s.lastApplied] == r.log[..s.commitIndex][..s.lastApplied];
    assert s.log[..s.lastApplied] == s.log[..s.commitIndex][..s.lastApplied];
    AppendSource(c, h, n, req);
    assert PeerOk(c.nodes[n].peer) && GoodLog(c.regionId, LeaderLog(h, req));
  }

  lemma AppendSource(c: Cluster, h: History, n: nat, req: AppendRequest)
    requires PeerInv(c) && LogInv(c, h) && n in c.nodes && AppendOk(h, req) && WellFormed(req)
    ensures var r := HandleAppend(Raft(c, n), req).0; r.log == Raft(c, n).log || r.log <= LeaderLog(h, req)
  {
    hide HandleAppend, Committed, LogOk;
    assert TenureOk(h, req.term);
    AppendEffect(h, Raft(c, n), req, []);
  }

  lemma AppendAskOk(c: Cluster, h: History, n: nat, req: AppendRequest)
    requires NetInv(c, h) && Enabled(c, DeliverAppend(n, req))
    ensures AppendOk(h, req) && Grows(h, AfterAppend(c, h, n, req))
  {
    assert MessageOk(h, AppendAsk(n, req));
  }

  lemma AppendKeeps(c: Cluster, h: History, n: nat, req: AppendRequest)
    requires Inv(c, h) && Enabled(c, DeliverAppend(n, req))
    ensures Grows(h, AfterAppend(c, h, n, req)) && Inv(Take(c, DeliverAppend(n, req)), AfterAppend(c, h, n, req))
  {
    hide PeerInv, DataInv, LogInv, AckInv, BallotInv, CommitInv, NetInv, Elected, BallotsOk, Voters, Phases, Leaders,
         AppendOk, Grows, Take, AfterAppend;
    AppendAskOk(c, h, n, req);
    AppendLogs(c, h, n, req);
    AppendAcks(c, h, n, req);
    AppendCommits(c, h, n, req);
    AppendVotes(c, h, n, req);
    AppendBallots(c, h, n, req);
    AppendNet(c, h, n, req);
    AppendPeers(c, n, req);
    AppendData(c, h, n, req);
  }
}
