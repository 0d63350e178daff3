/** The guarantees of the distributed Raft path, stated over runs. */
module RaftSafety {
  import opened Basics
  import opened RaftCore
  import opened RaftLog
  import RaftStorage
  import opened RegionNode
  import opened RaftCluster
  import opened RaftHistory
  import opened RaftFrames
  import opened RaftElection
  import opened RaftReplication
  import opened RaftProgress

  // ---- The invariant holds along every run ----

  ghost function Extended(c: Cluster, h: History, step: Step): History
    requires Enabled(c, step)
  {
    match step
    case StartElection(n) => AfterStart(c, h, n)
    case DeliverVote(n, vote) => AfterVote(c, h, n, vote)
    case Win(n) => AfterWin(c, h, n)
    case ProposeEntry(n, command) =>
      if Raft(c, n).currentTerm in h.tenures then AfterPropose(c, h, n, command) else h
    case DeliverAppend(n, append) => AfterAppend(c, h, n, append)
    case Commit(n) => AfterCommit(c, h, n)
    case CountVote(_, _) => h
    case SendAppend(_, _, _) => h
    case CountAck(_, _, _) => h
    case Finish(_) => h
    case Crash(_) => h
  }

  lemma StepKeeps(c: Cluster, h: History, step: Step)
    requires Inv(c, h) && Enabled(c, step)
    ensures Grows(h, Extended(c, h, step)) && Inv(Take(c, step), Extended(c, h, step))
  {
    hide Inv, Take, Grows, AfterStart, AfterVote, AfterWin, AfterPropose, AfterAppend, AfterCommit;
    GrowsItself(h);
    match step
    case StartElection(n) => StartKeeps(c, h, n);
    case DeliverVote(n, vote) => VoteKeepsInv(c, h, n, vote);
    case CountVote(n, from) => CountVoteKeeps(c, h, n, from);
    case Win(n) => WinKeeps(c, h, n);
    case ProposeEntry(n, command) => ProposeKeeps(c, h, n, command);
    case SendAppend(n, to, next) => SendKeeps(c, h, n, to, next);
    case DeliverAppend(n, append) => AppendKeeps(c, h, n, append);
    case CountAck(n, from, next) => CountAckKeeps(c, h, n, from, next);
    case Commit(n) => CommitKeeps(c, h, n);
    case Finish(n) => FinishKeeps(c, h, n);
    case Crash(n) => CrashKeeps(c, h, n);
  }

  lemma InitKeeps(c: Cluster)
    requires Init(c)
    ensures Inv(c, History(map[], map[], map[], {}, {}))
  {
    var h := History(map[], map[], map[], {}, {});
    InitData(c, h);
    hide DataInv;
  }

  lemma InitData(c: Cluster, h: History)
    requires Init(c) && h.tenures == map[]
    ensures DataInv(c, h)
  {
    hide RaftStorage.MetaKey, RaftStorage.LogPrefix;
  }

  lemma GrowsChain(a: History, b: History, c: History)
    requires Grows(a, b) && Grows(b, c)
    ensures Grows(a, c)
  {}

  /** `hs` records the run: the invariant holds throughout and each history extends the one before. */
  ghost predicate Records(hs: seq<History>, states: seq<Cluster>, steps: seq<Step>) {
    && |hs| == |states| == |steps| + 1
    && (forall k :: 0 <= k < |hs| ==> Inv(states[k], hs[k]))
    && (forall k :: 0 <= k < |steps| ==>
          Enabled(states[k], steps[k]) && states[k + 1] == Take(states[k], steps[k]) && hs[k + 1] == Extended(states[k], hs[k], steps[k]))
    && (forall i, j :: 0 <= i <= j < |hs| ==> Grows(hs[i], hs[j]))
  }

  lemma {:induction false} RunRecorded(states: seq<Cluster>, steps: seq<Step>) returns (hs: seq<History>)
    requires IsRun(states, steps)
    ensures Records(hs, states, steps)
    decreases |steps|
  {
    hide Inv, Grows, Take, Enabled, Extended, Init, Records;
    if steps == [] {
      InitKeeps(states[0]);
      hs := [History(map[], map[], map[], {}, {})];
      RecordedStart(hs, states);
    } else {
      var m := |steps| - 1;
      RunPrefix(states, steps);
      var before := RunRecorded(states[..m + 1], steps[..m]);
      RecordedEnd(before, states[..m + 1], steps[..m]);
      StepKeeps(states[m], before[m], steps[m]);
      hs := before + [Extended(states[m], before[m], steps[m])];
      RecordedStep(before, hs, states, steps);
    }
  }

  lemma RunPrefix(states: seq<Cluster>, steps: seq<Step>)
    requires IsRun(states, steps) && steps != []
    ensures IsRun(states[..|steps|], steps[..|steps| - 1])
  {
    hide Take, Enabled, Init;
  }

  lemma RecordedStart(hs: seq<History>, states: seq<Cluster>)
    requires |hs| == |states| == 1 && Inv(states[0], hs[0])
    ensures Records(hs, states, [])
  {
    hide Inv;
    GrowsItself(hs[0]);
  }

  lemma RecordedEnd(hs: seq<History>, states: seq<Cluster>, steps: seq<Step>)
    requires Records(hs, states, steps)
    ensures |hs| == |states| == |steps| + 1 && Inv(states[|steps|], hs[|steps|])
  {
    hide Inv, Grows, Take, Enabled, Extended;
  }

  lemma RecordedStep(before: seq<History>, hs: seq<History>, states: seq<Cluster>, steps: seq<Step>)
    requires |states| == |steps| + 1 && steps != []
    requires Records(before, states[..|steps|], steps[..|steps| - 1])
    requires Enabled(states[|steps| - 1], steps[|steps| - 1])
    requires states[|steps|] == Take(states[|steps| - 1], steps[|steps| - 1])
    requires hs == before + [Extended(states[|steps| - 1], before[|steps| - 1], steps[|steps| - 1])]
    requires Inv(states[|steps|], hs[|steps|]) && Grows(before[|steps| - 1], hs[|steps|])
    ensures Records(hs, states, steps)
  {
    hide Inv, Grows, Take, Enabled, Extended;
    var m := |steps| - 1;
    GrowsItself(hs[m + 1]);
    forall i, j | 0 <= i <= j < |hs| ensures Grows(hs[i], hs[j]) {
      if i < j == m + 1 {
        GrowsChain(hs[i], hs[m], hs[j]);
      }
    }
  }

  // ---- Election safety ----

  lemma LeaderTenure(c: Cluster, h: History, n: nat)
    requires Inv(c, h) && n in c.nodes && Raft(c, n).role == Leader
    ensures var t := Raft(c, n).currentTerm; t in h.tenures && h.tenures[t].leader == n
  {
    hide PeerInv, DataInv, LogInv, AckInv, BallotInv, CommitInv, NetInv;
    NodeFacts(c, h, n);
  }

  /** At most one peer is ever leader of a term, at any two moments of a run, restarts included. */
  lemma ElectionSafety(states: seq<Cluster>, steps: seq<Step>, i: nat, j: nat, n: nat, m: nat)
    requires IsRun(states, steps) && i < |states| && j < |states|
    requires n in states[i].nodes && m in states[j].nodes
    requires Raft(states[i], n).role == Leader && Raft(states[j], m).role == Leader
    requires Raft(states[i], n).currentTerm == Raft(states[j], m).currentTerm
    ensures n == m
  {
    hide IsRun, Inv, Take, Enabled, Extended;
    var hs := RunRecorded(states, steps);
    LeaderTenure(states[i], hs[i], n);
    LeaderTenure(states[j], hs[j], m);
    assert if i <= j then Grows(hs[i], hs[j]) else Grows(hs[j], hs[i]);
  }

  // ---- Log matching ----

  lemma NodeLog(c: Cluster, h: History, g: History, n: nat)
    requires Inv(c, h) && n in c.nodes && Grows(h, g)
    ensures LogOk(g, Raft(c, n).log) && Contiguous(Raft(c, n).log)
  {
    LogOkGrows(h, g, Raft(c, n).log);
  }

  /** Two logs, seen at any two moments of a run, that hold entries of one term at an index are identical up to it;
      and the entry at position i has index i + 1. */
  lemma LogMatching(states: seq<Cluster>, steps: seq<Step>, i: nat, j: nat, n: nat, m: nat)
    requires IsRun(states, steps) && i < |states| && j < |states|
    requires n in states[i].nodes && m in states[j].nodes
    ensures Agree(Raft(states[i], n).log, Raft(states[j], m).log)
    ensures Contiguous(Raft(states[i], n).log)
  {
    hide IsRun, Inv, Take, Enabled, Extended, Grows, LogOk;
    var hs := RunRecorded(states, steps);
    var last := |states| - 1;
    assert Grows(hs[i], hs[last]) && Grows(hs[j], hs[last]);
    NodeLog(states[i], hs[i], hs[last], n);
    NodeLog(states[j], hs[j], hs[last], m);
    LogsAgree(hs[last], Raft(states[i], n).log, Raft(states[j], m).log);
  }

  // ---- Leader completeness ----

  /** The history holds a decision for the whole log of leader `n`. */
  ghost predicate Decides(c: Cluster, g: History, n: nat) {
    && n in c.nodes
    && var s := Raft(c, n);
    exists d :: d in g.decisions && d.term == s.currentTerm && d.term in g.tenures && d.len == |s.log| && g.tenures[d.term].log == s.log
  }

  lemma CommitRecorded(c: Cluster, h: History, n: nat)
    requires Inv(c, h) && Enabled(c, Commit(n))
    ensures Decides(c, AfterCommit(c, h, n), n)
  {
    hide PeerInv, DataInv, LogInv, AckInv, BallotInv, CommitInv, NetInv, VoteInv, IsMajority, Valid;
    NodeFacts(c, h, n);
    var s := Raft(c, n);
    assert Decision(s.currentTerm, |s.log|, c.nodes[n].phase.acks) in AfterCommit(c, h, n).decisions;
  }

  lemma DecidedLater(c: Cluster, g: History, h: History, d: Decision, t: nat)
    requires Inv(c, h) && Grows(g, h) && d in g.decisions && t in h.tenures && d.term < t
    ensures d.term in h.tenures && d.len <= |h.tenures[d.term].log| && h.tenures[d.term].log[..d.len] <= h.tenures[t].start
  {
    hide PeerInv, DataInv, LogInv, AckInv, BallotInv, NetInv, Voters, Phases, Leaders, BallotsOk;
    assert DecisionOk(c, h, d);
    LaterLeadersHold(c, h, d, t);
  }

  /** Once a leader has counted a majority for its log, every peer that wins a higher term has that whole log. */
  lemma LeaderCompleteness(states: seq<Cluster>, steps: seq<Step>, i: nat, j: nat, n: nat, m: nat)
    requires IsRun(states, steps) && i < |steps| && j < |steps|
    requires steps[i] == Commit(n) && steps[j] == Win(m) && n in states[i].nodes && m in states[j].nodes
    requires Raft(states[i], n).currentTerm < Raft(states[j], m).currentTerm
    ensures Raft(states[i], n).log <= Raft(states[j], m).log
  {
    hide IsRun, Inv, Take, Enabled, AfterCommit;
    var hs := RunRecorded(states, steps);
    var last := |states| - 1;
    CommitRecorded(states[i], hs[i], n);
    assert hs[i + 1] == AfterCommit(states[i], hs[i], n);
    var d :| d in hs[i + 1].decisions && d.term == Raft(states[i], n).currentTerm && d.term in hs[i + 1].tenures
             && d.len == |Raft(states[i], n).log| && hs[i + 1].tenures[d.term].log == Raft(states[i], n).log;
    assert Grows(hs[i + 1], hs[last]) && Grows(hs[j + 1], hs[last]);
    DecidedLater(states[last], hs[i + 1], hs[last], d, Raft(states[j], m).currentTerm);
  }

  // ---- State machine safety ----

  lemma CommittedNode(c: Cluster, h: History, g: History, n: nat)
    requires Inv(c, h) && n in c.nodes && Grows(h, g)
    ensures var s := Raft(c, n); s.lastApplied <= s.commitIndex <= |s.log| && Committed(g, s.log[..s.commitIndex], s.currentTerm)
  {
    hide DataInv, LogInv, AckInv, BallotInv, NetInv, VoteInv, Grows, Committed;
    var s := Raft(c, n);
    CommittedGrows(h, g, s.log[..s.commitIndex], s.currentTerm, s.currentTerm);
  }

  /** Committed prefixes are ordered by inclusion. */
  lemma CommittedChain(c: Cluster, h: History, p: seq<LogEntry>, t: nat, q: seq<LogEntry>, u: nat)
    requires Inv(c, h) && Committed(h, p, t) && Committed(h, q, u)
    ensures p <= q || q <= p
  {
    hide PeerInv, DataInv, AckInv, BallotInv, NetInv, LogInv, VoteInv;
    VoteParts(c, h);
    if p != [] && q != [] {
      var d :| d in h.decisions && d.term <= t && d.term in h.tenures
               && d.len <= |h.tenures[d.term].log| && p <= h.tenures[d.term].log[..d.len];
      var e :| e in h.decisions && e.term <= u && e.term in h.tenures
               && e.len <= |h.tenures[e.term].log| && q <= h.tenures[e.term].log[..e.len];
      var top := if d.term < e.term then e.term else d.term;
      TenureStart(c, h, top);
      assert Committed(h, p, d.term) && Committed(h, q, e.term);
      hide Committed, DecisionOk;
      CommittedInTerm(c, h, p, d.term, top);
      CommittedInTerm(c, h, q, e.term, top);
    }
  }

  lemma TenureStart(c: Cluster, h: History, t: nat)
    requires LogInv(c, h) && t in h.tenures
    ensures h.tenures[t].start <= h.tenures[t].log
  {
    assert TenureOk(h, t);
  }

  /** Two peers that have applied index k, at any two moments of a run, applied the same entries up to k. */
  lemma StateMachineSafety(states: seq<Cluster>, steps: seq<Step>, i: nat, j: nat, n: nat, m: nat, k: nat)
    requires IsRun(states, steps) && i < |states| && j < |states|
    requires n in states[i].nodes && m in states[j].nodes
    requires k <= Raft(states[i], n).lastApplied && k <= Raft(states[j], m).lastApplied
    ensures k <= |Raft(states[i], n).log| && k <= |Raft(states[j], m).log|
    ensures Raft(states[i], n).log[..k] == Raft(states[j], m).log[..k]
  {
    hide IsRun, Inv, Take, Enabled, Extended, Grows, Committed;
    var hs := RunRecorded(states, steps);
    var last := |states| - 1;
    assert Grows(hs[i], hs[last]) && Grows(hs[j], hs[last]);
    var s, r := Raft(states[i], n), Raft(states[j], m);
    CommittedNode(states[i], hs[i], hs[last], n);
    CommittedNode(states[j], hs[j], hs[last], m);
    CommittedChain(states[last], hs[last], s.log[..s.commitIndex], s.currentTerm, r.log[..r.commitIndex], r.currentTerm);
    assert s.log[..k] == s.log[..s.commitIndex][..k] && r.log[..k] == r.log[..r.commitIndex][..k];
  }

  // ---- Nothing committed is ever cut ----

  /** What one step may do to a peer: term, commit and apply positions do not go back and the committed prefix stays. */
  ghost predicate Advances(s: RaftState, r: RaftState) {
    && s.currentTerm <= r.currentTerm
    && s.lastApplied <= r.lastApplied
    && s.commitIndex <= r.commitIndex <= |r.log|
    && s.commitIndex <= |s.log| && s.log[..s.commitIndex] == r.log[..s.commitIndex]
  }

  ghost predicate NodeAdvances(c: Cluster, d: Cluster, n: nat) {
    n in c.nodes && n in d.nodes && Advances(Raft(c, n), Raft(d, n))
  }

  lemma AppendAdvances(c: Cluster, h: History, n: nat, req: AppendRequest)
    requires Inv(c, h) && Enabled(c, DeliverAppend(n, req))
    ensures NodeAdvances(c, Take(c, DeliverAppend(n, req)), n)
  {
    hide PeerInv, DataInv, LogInv, AckInv, BallotInv, CommitInv, NetInv, VoteInv, AppendOk, Take, Committed, HandleAppend;
    AppendAskOk(c, h, n, req);
    AppendTerms(Raft(c, n), req);
    VoteParts(c, h);
    AppendCommitted(c, h, n, req);
    AppendDelivered(c, n, req);
  }

  lemma VoteParts(c: Cluster, h: History)
    requires VoteInv(c, h)
    ensures Elected(c, h)
  {}

  lemma StepAdvances(c: Cluster, h: History, step: Step, n: nat)
    requires Inv(c, h) && Enabled(c, step) && n in c.nodes
    ensures NodeAdvances(c, Take(c, step), n)
  {
    hide DataInv, LogInv, AckInv, BallotInv, CommitInv, NetInv, VoteInv;
    SelfIdOk(c, n);
    hide PeerInv;
    if step.n != n {
      OtherNode(c, step, n);
    } else if step.DeliverAppend? {
      AppendAdvances(c, h, n, step.append);
    } else if step.Crash? {
      hide Take;
      CrashNode(c, h, n);
    } else {
      OwnStepAdvances(c, step);
    }
  }

  lemma OtherNode(c: Cluster, step: Step, n: nat)
    requires Enabled(c, step) && n in c.nodes && step.n != n && Valid(Raft(c, n))
    ensures NodeAdvances(c, Take(c, step), n)
  {
    hide OnVote, OnAppend, Campaign, Promote, Offer, CommitLast, Reboot, BuildAppend, GoodCommand, IsMajority, WellFormed, Contiguous;
  }

  lemma OwnStepAdvances(c: Cluster, step: Step)
    requires Enabled(c, step) && Valid(Raft(c, step.n)) && !step.DeliverAppend? && !step.Crash?
    ensures NodeAdvances(c, Take(c, step), step.n)
  {
    hide Persist, ApplyEntries, GoodCommand, IsMajority, BuildAppend, Contiguous;
    match step
    case ProposeEntry(n, command) => ProposeEffect(c, n, command);
    case DeliverVote(n, vote) => VoteEffect(c, n, vote);
    case Commit(n) => CommitEffect(c, n);
    case _ =>
  }

  /** Along every run each peer's term, commit index and applied index only grow, and the entries up to its commit
      index are never cut or replaced: the clamps on truncation never act, and no committed entry is handed out twice. */
  lemma {:induction false} CommitNeverReverts(states: seq<Cluster>, steps: seq<Step>, i: nat, j: nat, n: nat)
    requires IsRun(states, steps) && i <= j < |states| && n in states[i].nodes
    ensures n in states[j].nodes && Advances(Raft(states[i], n), Raft(states[j], n))
    decreases j - i
  {
    hide IsRun, Inv, Take, Enabled, Extended, Grows, Committed;
    var hs := RunRecorded(states, steps);
    if i == j {
      assert Grows(hs[i], hs[i]);
      CommittedNode(states[i], hs[i], hs[i], n);
    } else {
      CommitNeverReverts(states, steps, i, j - 1, n);
      StepAdvances(states[j - 1], hs[j - 1], steps[j - 1], n);
      AdvancesChain(Raft(states[i], n), Raft(states[j - 1], n), Raft(states[j], n));
    }
  }

  lemma AdvancesChain(a: RaftState, b: RaftState, c: RaftState)
    requires Advances(a, b) && Advances(b, c)
    ensures Advances(a, c)
  {
    assert a.log[..a.commitIndex] == b.log[..b.commitIndex][..a.commitIndex];
    assert c.log[..a.commitIndex] == c.log[..b.commitIndex][..a.commitIndex];
  }

  // ---- Equal applied positions mean equal user maps ----

  lemma UserMapOf(c: Cluster, h: History, n: nat)
    requires Inv(c, h) && n in c.nodes
    ensures var p := c.nodes[n].peer;
            p.raft.lastApplied <= |p.raft.log| && RaftStorage.UserMap(p.engine) == ApplyEntries(map[], p.raft.log[..p.raft.lastApplied])
  {
    hide PeerInv, LogInv, AckInv, BallotInv, CommitInv, NetInv, VoteInv;
    PeerFacts(c, h, n);
  }

  /** Peers that have applied the same number of entries, at any two moments of a run, serve the same user data. */
  lemma EqualAppliedEqualData(states: seq<Cluster>, steps: seq<Step>, i: nat, j: nat, n: nat, m: nat)
    requires IsRun(states, steps) && i < |states| && j < |states|
    requires n in states[i].nodes && m in states[j].nodes
    requires Raft(states[i], n).lastApplied == Raft(states[j], m).lastApplied
    ensures RaftStorage.UserMap(states[i].nodes[n].peer.engine) == RaftStorage.UserMap(states[j].nodes[m].peer.engine)
  {
    hide IsRun, Inv, Take, Enabled, Extended, Grows, RaftStorage.UserMap, ApplyEntries;
    StateMachineSafety(states, steps, i, j, n, m, Raft(states[i], n).lastApplied);
    var hs := RunRecorded(states, steps);
    UserMapOf(states[i], hs[i], n);
    UserMapOf(states[j], hs[j], m);
  }

  // ---- The follower's commit rule ----

  /** The handler's commit index, when it moves, is the leader's and lies inside what the request carries. */
  lemma CommitInsideRequest(h: History, s: RaftState, req: AppendRequest)
    requires Valid(s) && WellFormed(req) && LogOk(h, s.log) && AppendOk(h, req) && TenureOk(h, req.term)
    ensures var (r, res) := HandleAppend(s, req);
            var m := req.prevLogIndex + |req.entries|;
            r.commitIndex > s.commitIndex ==>
              && r.commitIndex == req.leaderCommit <= m <= |r.log|
              && r.log[req.prevLogIndex..m] == req.entries
              && HasLogAt(r.log, req.prevLogIndex, req.prevLogTerm)
  {
    hide LogOk, TenureOk, Committed, Contiguous, AppendAll;
    AppendEffect(h, s, req, []);
    HandlerShape(s, req);
    var (r, res) := HandleAppend(s, req);
    CommitNotRaised(s, req);
    if r.commitIndex > s.commitIndex {
      var l, k, m := LeaderLog(h, req), req.prevLogIndex, req.prevLogIndex + |req.entries|;
      assert l[..m] <= r.log;
      assert r.log[k..m] == l[..m][k..m] == req.entries;
    }
  }

  lemma CommitNotRaised(s: RaftState, req: AppendRequest)
    requires Valid(s) && WellFormed(req)
    ensures HandleAppend(s, req).0.commitIndex > s.commitIndex ==>
              HandleAppend(s, req).1.success && HandleAppend(s, req).0.commitIndex == Min(req.leaderCommit, |HandleAppend(s, req).0.log|)
  {
    HandlerShape(s, req);
    if req.term >= s.currentTerm && HasLogAt(s.log, req.prevLogIndex, req.prevLogTerm) {
      AppendNotRaised(Stepped(s, req), req.entries);
    }
  }

  lemma {:induction false} AppendNotRaised(s: RaftState, entries: seq<LogEntry>)
    requires Contiguous(s.log) && Consecutive(entries)
    requires entries != [] ==> entries[0].index <= |s.log| + 1
    ensures AppendAll(s, entries).0.commitIndex <= s.commitIndex
    decreases |entries|
  {
    if entries != [] && entries[0].index != 0 {
      assert forall i :: 0 <= i < |entries[1..]| ==> entries[1..][i] == entries[i + 1];
      AppendNotRaised(AppendOne(s, entries[0]), entries[1..]);
    }
  }

  /** In every run a follower raises its commit index only to the leader's, and only over entries that the very request
      it accepts carries or verifies, although the handler bounds it by the end of its own log. */
  lemma FollowerCommitRule(states: seq<Cluster>, steps: seq<Step>, k: nat, n: nat, req: AppendRequest)
    requires IsRun(states, steps) && k < |steps| && steps[k] == DeliverAppend(n, req) && n in states[k].nodes
    ensures n in states[k + 1].nodes
    ensures var s, r := Raft(states[k], n), Raft(states[k + 1], n);
            var m := req.prevLogIndex + |req.entries|;
            r.commitIndex > s.commitIndex ==>
              && r.commitIndex == req.leaderCommit <= m <= |r.log|
              && r.log[req.prevLogIndex..m] == req.entries
              && HasLogAt(r.log, req.prevLogIndex, req.prevLogTerm)
  {
    hide IsRun, Inv, Take, Extended, Grows;
    var hs := RunRecorded(states, steps);
    var c, h := states[k], hs[k];
    DeliveredParts(c, h, n, req);
    hide Enabled, PeerInv, LogInv, AppendOk, TenureOk, LogOk, HandleAppend, Valid, WellFormed, HasLogAt;
    CommitInsideRequest(h, Raft(c, n), req);
    AppendDelivered(c, n, req);
  }

  lemma DeliveredParts(c: Cluster, h: History, n: nat, req: AppendRequest)
    requires Inv(c, h) && Enabled(c, DeliverAppend(n, req))
    ensures Valid(Raft(c, n)) && WellFormed(req) && LogOk(h, Raft(c, n).log) && AppendOk(h, req) && TenureOk(h, req.term)
  {
    hide DataInv, AckInv, BallotInv, CommitInv, VoteInv;
    AppendAskOk(c, h, n, req);
  }

  // ---- Deliveries are always defined ----

  /** Every append request on its way can be handled: it is well formed, and so is every receiver. */
  lemma DeliveryDefined(states: seq<Cluster>, steps: seq<Step>, i: nat, n: nat, req: AppendRequest)
    requires IsRun(states, steps) && i < |states| && n in states[i].nodes && AppendAsk(n, req) in states[i].net
    ensures Valid(Raft(states[i], n)) && WellFormed(req)
  {
    hide IsRun, Inv, Take, Enabled, Extended, Grows;
    var hs := RunRecorded(states, steps);
    DeliveryOk(states[i], hs[i], n, req);
  }

  lemma DeliveryOk(c: Cluster, h: History, n: nat, req: AppendRequest)
    requires Inv(c, h) && n in c.nodes && AppendAsk(n, req) in c.net
    ensures Valid(Raft(c, n)) && WellFormed(req)
  {
    hide DataInv, AckInv, BallotInv, CommitInv, VoteInv;
    SelfIdOk(c, n);
    assert MessageOk(h, AppendAsk(n, req));
    var l := h.tenures[req.term].log;
    assert TenureOk(h, req.term);
    SliceConsecutive(l, req.prevLogIndex, req.prevLogIndex + |req.entries|);
  }

  /** A restart anywhere in a run succeeds and gives back the same peer as a follower. */
  lemma RestartAlwaysWorks(states: seq<Cluster>, steps: seq<Step>, i: nat, n: nat)
    requires IsRun(states, steps) && i < |states| && n in states[i].nodes
    ensures var p := states[i].nodes[n].peer;
            Recovered(p.raft.regionId, n, p.engine) == Success(p.raft.(role := Follower))
  {
    hide IsRun, Inv, Take, Enabled, Extended, Grows, Recovered, PeerOk;
    var hs := RunRecorded(states, steps);
    InvFacts(states[i], hs[i], n);
    RestartIsInvisible(states[i].nodes[n].peer);
  }

  lemma InvFacts(c: Cluster, h: History, n: nat)
    requires Inv(c, h) && n in c.nodes
    ensures PeerOk(c.nodes[n].peer) && Raft(c, n).selfId == n
  {
    hide PeerOk, LogInv, AckInv, BallotInv, CommitInv, NetInv, VoteInv;
    SelfIdOk(c, n);
    PeerFacts(c, h, n);
  }
}
