/** What each part of the invariant needs when a step changes one node and lets the history grow. */
module RaftFrames {
  import opened Basics
  import opened RaftCore
  import opened RegionNode
  import opened RaftCluster
  import opened RaftHistory

  ghost predicate Updates(c: Cluster, d: Cluster, n: nat) {
    n in c.nodes && d.regionId == c.regionId && d.nodes.Keys == c.nodes.Keys && forall m :: m in c.nodes && m != n ==> d.nodes[m] == c.nodes[m]
  }

  // ---- What each step does to the node it belongs to ----

  lemma VoteEffect(c: Cluster, n: nat, vote: VoteRequest)
    requires Enabled(c, DeliverVote(n, vote))
    ensures var d := Take(c, DeliverVote(n, vote));
            && Updates(c, d, n) && d.nodes[n].phase == c.nodes[n].phase == Idle
            && Raft(d, n) == HandleVote(Raft(c, n), vote).0
  {
    hide Persist;
  }

  lemma WinEffect(c: Cluster, n: nat)
    requires Enabled(c, Win(n))
    ensures var d := Take(c, Win(n));
            Updates(c, d, n) && d.nodes[n].phase == Idle && Raft(d, n) == BecomeLeader(Raft(c, n))
  {
    hide Persist;
  }

  lemma ProposeEffect(c: Cluster, n: nat, command: Text)
    requires Enabled(c, ProposeEntry(n, command))
    ensures var d := Take(c, ProposeEntry(n, command));
            Updates(c, d, n) && d.nodes[n].phase == Replicating({n}) && Raft(d, n) == Propose(Raft(c, n), Normal, command)
  {
    hide Persist, GoodCommand;
  }

  lemma CommitEffect(c: Cluster, n: nat)
    requires Enabled(c, Commit(n))
    ensures var d := Take(c, Commit(n));
            var s := Raft(c, n);
            && Updates(c, d, n) && d.nodes[n].phase == Broadcasting && d.net == c.net
            && d.nodes[n].peer == CommitLast(c.nodes[n].peer)
            && Raft(d, n) == s.(commitIndex := |s.log|, lastApplied := |s.log|)
  {
    hide Persist, ApplyEntries, IsMajority;
    assert LastLogIndex(Raft(c, n).log) == |Raft(c, n).log|;
  }

  // ---- Frames ----

  lemma LogFrame(c: Cluster, d: Cluster, h: History, g: History, n: nat)
    requires LogInv(c, h) && Grows(h, g) && Updates(c, d, n)
    requires forall t :: t in g.tenures ==> TenureOk(g, t)
    requires forall k :: k in g.runs && k !in h.runs ==> LogOk(g, g.runs[k]) && TermsBelow(g.runs[k], k.1)
    requires LogOk(g, Raft(d, n).log) && TermsBelow(Raft(d, n).log, Raft(d, n).currentTerm + 1)
    ensures LogInv(d, g)
  {
    forall k | k in g.runs ensures LogOk(g, g.runs[k]) && TermsBelow(g.runs[k], k.1) {
      if k in h.runs {
        LogOkGrows(h, g, h.runs[k]);
      }
    }
    forall m | m in d.nodes
      ensures LogOk(g, Raft(d, m).log) && TermsBelow(Raft(d, m).log, Raft(d, m).currentTerm + 1)
    {
      if m != n {
        LogOkGrows(h, g, Raft(c, m).log);
      }
    }
  }

  lemma DataFrame(c: Cluster, d: Cluster, h: History, g: History, n: nat)
    requires DataInv(c, h) && Updates(c, d, n)
    requires Raft(d, n).regionId == c.regionId && PeerOk(d.nodes[n].peer)
    requires forall t :: t in g.tenures && (t !in h.tenures || g.tenures[t] != h.tenures[t]) ==> GoodLog(c.regionId, g.tenures[t].log)
    ensures DataInv(d, g)
  {
    hide PeerOk, GoodLog;
  }

  /** Tenures stay in order when none is added or extended. */
  lemma SameTenures(c: Cluster, h: History, g: History)
    requires LogInv(c, h) && g.tenures == h.tenures
    ensures forall t :: t in g.tenures ==> TenureOk(g, t)
  {
    forall t | t in g.tenures ensures TenureOk(g, t) {
      assert TenureOk(h, t);
    }
  }

  lemma AckFrame(c: Cluster, d: Cluster, h: History, g: History, n: nat)
    requires AckInv(c, h) && Grows(h, g) && Updates(c, d, n)
    requires Raft(c, n).currentTerm <= Raft(d, n).currentTerm
    requires forall a :: a in g.acks && a !in h.acks ==> AckOk(d, g, a)
    requires forall a :: a in h.acks && a.peer == n ==> AckOk(d, g, a)
    ensures AckInv(d, g)
  {
    forall a | a in g.acks ensures AckOk(d, g, a) {
      if a in h.acks && a.peer != n {
        assert AckOk(c, h, a);
        HeldGrows(h, g, a);
        if Lost(h, a, Raft(c, a.peer).currentTerm + 1) {
          LostGrows(h, g, a, Raft(c, a.peer).currentTerm + 1, Raft(c, a.peer).currentTerm + 1);
        }
      }
    }
  }

  /** A node that only extends its log keeps its acknowledgements. */
  lemma AckKept(c: Cluster, d: Cluster, h: History, g: History, n: nat)
    requires AckInv(c, h) && Grows(h, g) && Updates(c, d, n)
    requires Raft(c, n).currentTerm <= Raft(d, n).currentTerm && Raft(c, n).log <= Raft(d, n).log
    ensures forall a :: a in h.acks && a.peer == n ==> AckOk(d, g, a)
  {
    forall a | a in h.acks && a.peer == n ensures AckOk(d, g, a) {
      assert AckOk(c, h, a);
      HeldGrows(h, g, a);
      if Lost(h, a, Raft(c, n).currentTerm + 1) {
        LostGrows(h, g, a, Raft(c, n).currentTerm + 1, Raft(d, n).currentTerm + 1);
      }
    }
  }

  lemma BallotFrame(h: History, g: History)
    requires BallotInv(h) && Grows(h, g)
    requires forall a, t :: a in g.acks && (a.peer, t) in g.ballots && a.term < t && (a !in h.acks || (a.peer, t) !in h.ballots) ==>
      AckKnown(g, a) && (g.ballots[(a.peer, t)], t) in g.runs
      && (a.len > |g.tenures[a.term].start| ==> BallotKeeps(g, a, t))
    ensures BallotInv(g)
  {
    forall a, t | a in g.acks && (a.peer, t) in g.ballots && a.term < t
      ensures && AckKnown(g, a) && (g.ballots[(a.peer, t)], t) in g.runs
              && (a.len > |g.tenures[a.term].start| ==> BallotKeeps(g, a, t))
    {
      if a in h.acks && (a.peer, t) in h.ballots {
        HeldGrows(h, g, a);
        if a.len > |h.tenures[a.term].start| && Lost(h, a, t) {
          LostGrows(h, g, a, t, t);
        }
      }
    }
  }

  lemma CommitFrame(c: Cluster, d: Cluster, h: History, g: History, n: nat)
    requires CommitInv(c, h) && Grows(h, g) && Updates(c, d, n)
    requires forall x :: x in g.decisions && x !in h.decisions ==> DecisionOk(d, g, x)
    requires Raft(d, n).commitIndex <= |Raft(d, n).log|
    requires Committed(g, Raft(d, n).log[..Raft(d, n).commitIndex], Raft(d, n).currentTerm)
    ensures CommitInv(d, g)
  {
    forall x | x in g.decisions ensures DecisionOk(d, g, x) {
      if x in h.decisions {
        DecisionGrows(c, d, h, g, x);
      }
    }
    forall m | m in d.nodes
      ensures Raft(d, m).commitIndex <= |Raft(d, m).log|
              && Committed(g, Raft(d, m).log[..Raft(d, m).commitIndex], Raft(d, m).currentTerm)
    {
      if m != n {
        CommittedGrows(h, g, Raft(c, m).log[..Raft(c, m).commitIndex], Raft(c, m).currentTerm, Raft(c, m).currentTerm);
      }
    }
  }

  lemma NetFrame(c: Cluster, d: Cluster, h: History, g: History)
    requires NetInv(c, h) && Grows(h, g)
    requires forall m :: m in d.net && m !in c.net ==> MessageOk(g, m)
    ensures NetInv(d, g)
  {
    forall m | m in d.net ensures MessageOk(g, m) {
      if m in c.net {
        MessageGrows(h, g, m);
      }
    }
  }

  lemma ElectedFrame(c: Cluster, d: Cluster, h: History, g: History, n: nat)
    requires Elected(c, h) && Grows(h, g) && Updates(c, d, n) && Raft(c, n).currentTerm <= Raft(d, n).currentTerm
    requires forall t :: t in g.tenures && t !in h.tenures ==> TenureElected(d, g, t)
    ensures Elected(d, g)
  {
    assert |c.nodes| == |c.nodes.Keys| && |d.nodes| == |d.nodes.Keys|;
    forall t | t in g.tenures ensures TenureElected(d, g, t) {
      if t in h.tenures {
        assert TenureElected(c, h, t);
      }
    }
  }

  lemma VotersFrame(c: Cluster, d: Cluster, h: History, g: History, n: nat)
    requires Voters(c, h) && Grows(h, g) && Updates(c, d, n)
    requires forall k :: k in g.ballots && k !in h.ballots ==> k.0 == n
    requires VoterOk(g, n, Raft(d, n))
    ensures Voters(d, g)
  {
    forall m | m in d.nodes ensures VoterOk(g, m, Raft(d, m)) {
      if m != n {
        assert VoterOk(h, m, Raft(c, m));
      }
    }
  }

  lemma PhasesFrame(c: Cluster, d: Cluster, h: History, g: History, n: nat)
    requires Phases(c, h) && Leaders(c, h) && Grows(h, g) && Updates(c, d, n)
    requires forall t :: t in g.tenures && t !in h.tenures ==> g.tenures[t].leader == n
    requires PhaseOk(d, g, n)
    ensures Phases(d, g)
  {
    forall m | m in d.nodes ensures PhaseOk(d, g, m) {
      if m != n {
        assert PhaseOk(c, h, m) && LeaderOk(h, m, Raft(c, m)) && d.nodes[m] == c.nodes[m];
      }
    }
  }

  lemma LeadersFrame(c: Cluster, d: Cluster, h: History, g: History, n: nat)
    requires Leaders(c, h) && Grows(h, g) && Updates(c, d, n)
    requires forall t :: t in h.tenures && h.tenures[t].leader != n ==> g.tenures[t] == h.tenures[t]
    requires LeaderOk(g, n, Raft(d, n))
    ensures Leaders(d, g)
  {
    forall m | m in d.nodes ensures LeaderOk(g, m, Raft(d, m)) {
      if m != n {
        assert LeaderOk(h, m, Raft(c, m));
      }
    }
  }

  lemma BallotsFrame(c: Cluster, d: Cluster, h: History, g: History, n: nat)
    requires BallotsOk(c, h) && Grows(h, g) && Updates(c, d, n) && Raft(c, n).currentTerm <= Raft(d, n).currentTerm
    requires forall k :: k in g.ballots && k !in h.ballots ==>
      k.0 == n && k.1 == Raft(d, n).currentTerm && (g.ballots[k], k.1) in g.runs
    requires forall k :: k in g.runs && k !in h.runs ==> k.0 == n && k.1 == Raft(d, n).currentTerm
    ensures BallotsOk(d, g)
  {
    forall k | k in g.ballots ensures BallotOk(d, g, k) {
      if k in h.ballots {
        assert BallotOk(c, h, k);
      }
    }
  }

  /** Votes: what has to be shown of the one node that changed. */
  lemma VoteFrame(c: Cluster, d: Cluster, h: History, g: History, n: nat)
    requires VoteInv(c, h) && Grows(h, g) && Updates(c, d, n)
    requires Raft(c, n).currentTerm <= Raft(d, n).currentTerm
    requires forall t :: t in g.tenures && t !in h.tenures ==> TenureElected(d, g, t) && g.tenures[t].leader == n
    requires forall t :: t in h.tenures && h.tenures[t].leader != n ==> g.tenures[t] == h.tenures[t]
    requires forall k :: k in g.ballots && k !in h.ballots ==>
      k.0 == n && k.1 == Raft(d, n).currentTerm && (g.ballots[k], k.1) in g.runs
    requires forall k :: k in g.runs && k !in h.runs ==> k.0 == n && k.1 == Raft(d, n).currentTerm
    requires VoterOk(g, n, Raft(d, n)) && PhaseOk(d, g, n) && LeaderOk(g, n, Raft(d, n))
    ensures VoteInv(d, g)
  {
    hide Elected, BallotsOk, Voters, Phases, Leaders, Grows, Updates;
    ElectedFrame(c, d, h, g, n);
    VotersFrame(c, d, h, g, n);
    PhasesFrame(c, d, h, g, n);
    LeadersFrame(c, d, h, g, n);
    BallotsFrame(c, d, h, g, n);
  }
}
