/** `ReplicateToStore`: bringing one follower up to date, with back-off and at most eight attempts. */
module Replication {
  import opened Basics
  import opened KvEngine
  import opened RaftCore
  import opened RaftLog
  import opened RaftStorage
  import opened RegionNode
  import opened RegionServer

  const ATTEMPTS: nat := 8

  /** The follower afterwards, whether it acknowledged, and how many calls were made. */
  datatype Outcome = Outcome(follower: Peer, replicated: bool, calls: nat)

  lemma BuiltWellFormed(s: RaftState, next: nat)
    requires Valid(s) && 1 <= next <= |s.log| + 1
    ensures WellFormed(BuildAppend(s, next))
  {
    SliceConsecutive(s.log, next - 1, |s.log|);
    assert s.log[next - 1..|s.log|] == s.log[next - 1..];
  }

  lemma OnAppendValid(f: Peer, req: AppendRequest)
    requires Valid(f.raft) && WellFormed(req)
    ensures Valid(OnAppend(f, req).0.raft)
  {
    hide Persist, ApplyEntries, Contiguous, WellFormed, HandleAppend;
  }

  function Backoff(matchIndex: nat): nat {
    if matchIndex == 0 then 1 else matchIndex
  }

  /** `attempts` are left, and `reach` more calls get through. An attempt that would read past the leader's log
      ends without an acknowledgement. */
  function ReplicateTo(s: RaftState, f: Peer, next: nat, attempts: nat, reach: nat): Outcome
    requires Valid(s) && Valid(f.raft) && 1 <= next
    decreases attempts
  {
    if attempts == 0 || reach == 0 || next > |s.log| + 1 then Outcome(f, false, 0)
    else
      BuiltWellFormed(s, next);
      OnAppendValid(f, BuildAppend(s, next));
      var (g, res) := OnAppend(f, BuildAppend(s, next));
      if res.success then Outcome(g, true, 1)
      else
        var rest := ReplicateTo(s, g, Backoff(res.matchIndex), attempts - 1, reach - 1);
        rest.(calls := rest.calls + 1)
  }

  method ReplicateToStore(leader: DistributedRegionNode, follower: DistributedRegionNode, first: nat, reach: nat)
    returns (replicated: bool)
    requires leader.raft != follower.raft && Valid(leader.raft.State()) && Valid(follower.raft.State()) && 1 <= first
    modifies follower.raft, follower.engine
    ensures leader.raft.State() == old(leader.raft.State())
    ensures var o := ReplicateTo(leader.raft.State(), old(follower.AsPeer()), first, ATTEMPTS, reach);
            follower.AsPeer() == o.follower && replicated == o.replicated
    ensures old(follower.engine.Durable()) && GoodEntries(leader.raft.log) && GoodEntries(old(follower.raft.log)) ==>
              follower.engine.Durable() && GoodEntries(follower.raft.log)
  {
    hide OnAppend, BuildAppend, Contiguous, WellFormed, GoodEntries, Replayed;
    var next, attempt, left := first, 0, reach;
    while attempt < ATTEMPTS
      invariant 0 <= attempt <= ATTEMPTS && 1 <= next
      invariant Valid(follower.raft.State()) && leader.raft.State() == old(leader.raft.State())
      invariant old(follower.engine.Durable()) && GoodEntries(leader.raft.log) && GoodEntries(old(follower.raft.log)) ==>
                  follower.engine.Durable() && GoodEntries(follower.raft.log)
      invariant var o := ReplicateTo(leader.raft.State(), old(follower.AsPeer()), first, ATTEMPTS, reach);
                var rest := ReplicateTo(leader.raft.State(), follower.AsPeer(), next, ATTEMPTS - attempt, left);
                o.follower == rest.follower && o.replicated == rest.replicated
    {
      if next > |leader.raft.log| + 1 || left == 0 {
        return false;
      }
      BuiltWellFormed(leader.raft.State(), next);
      var request := BuildAppend(leader.raft.State(), next);
      OnAppendValid(follower.AsPeer(), request);
      AppendKeepsGood(leader.raft.State(), follower.AsPeer(), next);
      var response := follower.HandleAppendEntries(request);
      if response.success {
        return true;
      }
      next := if response.matchIndex == 0 then 1 else response.matchIndex;
      attempt, left := attempt + 1, left - 1;
    }
    return false;
  }

  lemma {:induction false} MergeKeepsGood(s: RaftState, entries: seq<LogEntry>)
    requires Contiguous(s.log) && Consecutive(entries) && (entries != [] ==> entries[0].index <= |s.log| + 1)
    requires GoodEntries(s.log) && GoodEntries(entries)
    ensures GoodEntries(AppendAll(s, entries).0.log)
    decreases |entries|
  {
    hide GoodCommand;
    if entries != [] && entries[0].index != 0 {
      assert forall i :: 0 <= i < |entries[1..]| ==> entries[1..][i] == entries[i + 1];
      MergeKeepsGood(AppendOne(s, entries[0]), entries[1..]);
    }
  }

  /** A follower's log stays applicable when the leader's is. */
  lemma AppendKeepsGood(s: RaftState, f: Peer, next: nat)
    requires Valid(s) && Valid(f.raft) && 1 <= next <= |s.log| + 1 && WellFormed(BuildAppend(s, next))
    ensures GoodEntries(s.log) && GoodEntries(f.raft.log) ==> GoodEntries(OnAppend(f, BuildAppend(s, next)).0.raft.log)
  {
    hide GoodCommand, Persist, ApplyEntries, HandleAppend, Contiguous;
    var req := BuildAppend(s, next);
    HandlerShape(f.raft, req);
    if GoodEntries(s.log) && GoodEntries(f.raft.log) && req.term >= f.raft.currentTerm && HasLogAt(f.raft.log, req.prevLogIndex, req.prevLogTerm) {
      MergeKeepsGood(Stepped(f.raft, req), req.entries);
    }
  }

  // ---- When it succeeds ----

  /** The follower's log holds the entry before position `next` of the leader's log. */
  predicate Accepts(l: seq<LogEntry>, log: seq<LogEntry>, next: nat) {
    1 <= next <= |l| + 1 && HasLogAt(log, next - 1, if next == 1 then 0 else l[next - 2].term)
  }

  lemma OneAttempt(s: RaftState, f: Peer, next: nat)
    requires Valid(s) && Valid(f.raft) && 1 <= next <= |s.log| + 1 && WellFormed(BuildAppend(s, next))
    ensures var (g, res) := OnAppend(f, BuildAppend(s, next));
            && (res.success <==> f.raft.currentTerm <= s.currentTerm && Accepts(s.log, f.raft.log, next))
            && (!res.success ==> g.raft.log == f.raft.log && res.matchIndex == |f.raft.log|)
            && (!res.success && f.raft.currentTerm <= s.currentTerm ==> g.raft.currentTerm <= s.currentTerm)
            && (!res.success && f.raft.currentTerm > s.currentTerm ==> g.raft.currentTerm > s.currentTerm)
            && g.raft.log == HandleAppend(f.raft, BuildAppend(s, next)).0.log
  {
    hide Persist, ApplyEntries;
    var req := BuildAppend(s, next);
    HandlerShape(f.raft, req);
    assert LastLogIndex(f.raft.log) == |f.raft.log|;
  }

  /** Backing off once is all that ever helps: the second position depends on the follower's length alone, so a
      follower that refuses it refuses every further attempt. */
  lemma {:induction false} StuckAfterBackoff(s: RaftState, f: Peer, attempts: nat, reach: nat)
    requires Valid(s) && Valid(f.raft)
    requires f.raft.currentTerm > s.currentTerm || !Accepts(s.log, f.raft.log, Backoff(|f.raft.log|))
    ensures var o := ReplicateTo(s, f, Backoff(|f.raft.log|), attempts, reach);
            && !o.replicated && o.follower.raft.log == f.raft.log
            && o.calls == if |f.raft.log| <= |s.log| + 1 then Min(attempts, reach) else 0
    decreases attempts
  {
    hide OnAppend, BuildAppend, Contiguous;
    var next := Backoff(|f.raft.log|);
    if attempts != 0 && reach != 0 && next <= |s.log| + 1 {
      BuiltWellFormed(s, next);
      OneAttempt(s, f, next);
      OnAppendValid(f, BuildAppend(s, next));
      StuckAfterBackoff(s, OnAppend(f, BuildAppend(s, next)).0, attempts - 1, reach - 1);
    }
  }

  /** With two attempts that get through, replication succeeds exactly when the follower is not ahead in term and
      accepts either the first position or the one at the end of its own log; otherwise its log stays as it was, and every
      attempt is spent on it unless its log is longer than the leader's. */
  lemma ReplicationOutcome(s: RaftState, f: Peer, next: nat, attempts: nat, reach: nat)
    requires Valid(s) && Valid(f.raft) && 1 <= next <= |s.log| + 1 && 2 <= attempts && 2 <= reach
    ensures var o := ReplicateTo(s, f, next, attempts, reach);
            && (o.replicated <==>
                  && f.raft.currentTerm <= s.currentTerm
                  && (Accepts(s.log, f.raft.log, next) || Accepts(s.log, f.raft.log, if |f.raft.log| == 0 then 1 else |f.raft.log|)))
            && (o.replicated ==> o.calls == if Accepts(s.log, f.raft.log, next) then 1 else 2)
            && (!o.replicated ==> o.follower.raft.log == f.raft.log
                                  && o.calls == if |f.raft.log| <= |s.log| + 1 then Min(attempts, reach) else 1)
  {
    hide OnAppend, BuildAppend, Contiguous, Accepts;
    BuiltWellFormed(s, next);
    OneAttempt(s, f, next);
    OnAppendValid(f, BuildAppend(s, next));
    var (g, res) := OnAppend(f, BuildAppend(s, next));
    if !res.success {
      SecondAttempt(s, g, attempts - 1, reach - 1);
    }
  }

  lemma SecondAttempt(s: RaftState, f: Peer, attempts: nat, reach: nat)
    requires Valid(s) && Valid(f.raft) && 1 <= attempts && 1 <= reach
    ensures var o := ReplicateTo(s, f, Backoff(|f.raft.log|), attempts, reach);
            && (o.replicated <==> f.raft.currentTerm <= s.currentTerm && Accepts(s.log, f.raft.log, Backoff(|f.raft.log|)))
            && (o.replicated ==> o.calls == 1)
            && (!o.replicated ==> o.follower.raft.log == f.raft.log
                                  && o.calls == if |f.raft.log| <= |s.log| + 1 then Min(attempts, reach) else 0)
  {
    hide OnAppend, BuildAppend, Contiguous, HasLogAt;
    var next := Backoff(|f.raft.log|);
    if f.raft.currentTerm <= s.currentTerm && Accepts(s.log, f.raft.log, next) {
      BuiltWellFormed(s, next);
      OneAttempt(s, f, next);
    } else {
      StuckAfterBackoff(s, f, attempts, reach);
    }
  }

  /** One replication makes eight calls at most, and makes them to a follower that refuses both positions. */
  lemma EightAttempts(s: RaftState, f: Peer, next: nat, reach: nat)
    requires Valid(s) && Valid(f.raft) && 1 <= next <= |s.log| + 1 && 2 <= reach && |f.raft.log| <= |s.log| + 1
    requires f.raft.currentTerm > s.currentTerm
             || !(Accepts(s.log, f.raft.log, next) || Accepts(s.log, f.raft.log, if |f.raft.log| == 0 then 1 else |f.raft.log|))
    ensures ReplicateTo(s, f, next, ATTEMPTS, reach).calls == if reach < 8 then reach else 8
  {
    hide ReplicateTo, Accepts;
    ReplicationOutcome(s, f, next, ATTEMPTS, reach);
  }

  // ---- Catching up ----

  /** A follower whose log is a prefix takes over the whole log once it accepts. */
  lemma AcceptedCopies(s: RaftState, f: RaftState, next: nat)
    requires Valid(s) && Valid(f) && 1 <= next <= |s.log| + 1 && WellFormed(BuildAppend(s, next))
    requires f.log <= s.log && f.currentTerm <= s.currentTerm && Accepts(s.log, f.log, next)
    ensures var r := HandleAppend(f, BuildAppend(s, next)).0; r.log == s.log && r.commitIndex == (if s.commitIndex > f.commitIndex then s.commitIndex else f.commitIndex)
    ensures HandleAppend(f, BuildAppend(s, next)).0.lastApplied == f.lastApplied
    ensures HandleAppend(f, BuildAppend(s, next)).1.success
  {
    hide Contiguous, HandleAppend, AppendAll;
    var req := BuildAppend(s, next);
    PrefixAgrees(f.log, s.log);
    assert s.log[next - 1..] == s.log[next - 1..|s.log|] && s.log[..|s.log|] == s.log;
    FollowsLeader(f, s.log, req, f.log);
    SliceConsecutive(s.log, next - 1, |s.log|);
    AcceptedCompletes(f, req);
  }

  lemma AcceptedCompletes(f: RaftState, req: AppendRequest)
    requires Valid(f) && WellFormed(req) && req.term >= f.currentTerm && HasLogAt(f.log, req.prevLogIndex, req.prevLogTerm)
    requires req.entries != [] ==> req.entries[0].index != 0
    ensures HandleAppend(f, req).1.success
  {
    HandlerShape(f, req);
  }

  /** How many calls a follower whose log is a prefix needs: one, or two when the first one starts behind its end. */
  function CallsNeeded(f: RaftState, next: nat): nat {
    if next <= |f.log| + 1 then 1 else 2
  }

  /** Catch-up: for any gap, a follower whose log is a prefix of the leader's and whose term is not higher ends with the
      leader's log after exactly the calls it needs, if they get through; otherwise its log is as before. */
  lemma CatchUp(s: RaftState, f: Peer, next: nat, attempts: nat, reach: nat)
    requires Valid(s) && Valid(f.raft) && 1 <= next <= |s.log| + 1 && 2 <= attempts
    requires f.raft.log <= s.log && f.raft.currentTerm <= s.currentTerm
    ensures var o := ReplicateTo(s, f, next, attempts, reach);
            && (o.replicated <==> reach >= CallsNeeded(f.raft, next))
            && (o.replicated ==> o.calls == CallsNeeded(f.raft, next) && o.follower.raft.log == s.log)
            && (!o.replicated ==> o.follower.raft.log == f.raft.log)
  {
    hide OnAppend, BuildAppend, Contiguous;
    if reach != 0 {
      assert Accepts(s.log, f.raft.log, next) <==> next <= |f.raft.log| + 1;
      BuiltWellFormed(s, next);
      OneAttempt(s, f, next);
      OnAppendValid(f, BuildAppend(s, next));
      if next <= |f.raft.log| + 1 {
        AcceptedCopies(s, f.raft, next);
      } else if reach > 1 {
        var g := OnAppend(f, BuildAppend(s, next)).0;
        var back := Backoff(|f.raft.log|);
        assert Accepts(s.log, f.raft.log, back);
        hide Accepts;
        BuiltWellFormed(s, back);
        OneAttempt(s, g, back);
        AcceptedCopies(s, g.raft, back);
      }
    }
  }

  /** The back-off does not reach further: a follower whose last two entries conflict with the leader's is never
      brought up to date, however often the leader tries. */
  lemma ConflictIsNotRepaired(s: RaftState, f: Peer, attempts: nat, reach: nat)
    requires Valid(s) && Valid(f.raft) && s.log != []
    requires 2 <= |f.raft.log| <= |s.log| && |s.log| <= |f.raft.log| + 1
    requires f.raft.log[|f.raft.log| - 2].term != s.log[|f.raft.log| - 2].term
    requires f.raft.log[|f.raft.log| - 1].term != s.log[|f.raft.log| - 1].term
    ensures !ReplicateTo(s, f, |s.log|, attempts, reach).replicated
  {
    hide OnAppend, BuildAppend, Contiguous;
    var next := |s.log|;
    assert !Accepts(s.log, f.raft.log, next) && !Accepts(s.log, f.raft.log, Backoff(|f.raft.log|));
    if attempts > 0 && reach > 0 {
      BuiltWellFormed(s, next);
      OneAttempt(s, f, next);
      OnAppendValid(f, BuildAppend(s, next));
      StuckAfterBackoff(s, OnAppend(f, BuildAppend(s, next)).0, attempts - 1, reach - 1);
    }
  }

  /** Such a pair: peer 1 led term 1 and appended two entries that reached nobody; peer 2 won term 2 without it, with an
      empty log, and has appended two entries of its own. */
  lemma ConflictExample(command: Text, attempts: nat, reach: nat)
    ensures var leader := RaftState(1, 2, Leader, 2, Some(2), 0, 0,
                                    [LogEntry(1, 1, 2, Normal, command), LogEntry(1, 2, 2, Normal, command)]);
            var follower := RaftState(1, 1, Leader, 1, Some(1), 0, 0,
                                      [LogEntry(1, 1, 1, Normal, command), LogEntry(1, 2, 1, Normal, command)]);
            && Valid(leader) && Valid(follower)
            && !ReplicateTo(leader, Peer(follower, map[]), |leader.log|, attempts, reach).replicated
  {
    hide ReplicateTo;
    var leader := RaftState(1, 2, Leader, 2, Some(2), 0, 0,
                            [LogEntry(1, 1, 2, Normal, command), LogEntry(1, 2, 2, Normal, command)]);
    var follower := RaftState(1, 1, Leader, 1, Some(1), 0, 0,
                              [LogEntry(1, 1, 1, Normal, command), LogEntry(1, 2, 1, Normal, command)]);
    ConflictIsNotRepaired(leader, Peer(follower, map[]), attempts, reach);
  }

  // ---- The follower's commit rule ----

  /** The handler limits the commit index by the end of its own log, not by the prefix it has just verified. That is sound
      for the requests a leader builds: they carry its whole suffix, so a follower whose log matches commits only entries
      of the leader's committed prefix, and nothing below its own commit index is cut. */
  lemma CommitRuleIsSound(s: RaftState, f: RaftState, next: nat)
    requires Valid(s) && Valid(f) && Agree(f.log, s.log) && 1 <= next <= |s.log| + 1
    requires f.log[..f.commitIndex] <= s.log
    ensures var req := BuildAppend(s, next);
            && WellFormed(req) && req.leaderCommit <= req.prevLogIndex + |req.entries|
            && var (r, res) := HandleAppend(f, req);
            && f.commitIndex <= r.commitIndex
            && f.log[..f.commitIndex] <= r.log
            && (r.commitIndex > f.commitIndex ==>
                  res.success && r.commitIndex == s.commitIndex && s.log <= r.log
                  && r.log[..r.commitIndex] == s.log[..s.commitIndex])
  {
    hide Agree, Contiguous, HandleAppend;
    var req := BuildAppend(s, next);
    assert s.log[next - 1..] == s.log[next - 1..|s.log|] && s.log[..|s.log|] == s.log;
    FollowsLeader(f, s.log, req, f.log[..f.commitIndex]);
  }

  // ---- Storage and data of the follower ----

  /** One attempt on a follower whose log is a prefix keeps its storage in order; a success leaves everything committed
      there applied. */
  lemma AttemptKeepsPeer(s: RaftState, f: Peer, next: nat)
    requires Valid(s) && GoodLog(s.regionId, s.log) && 1 <= next <= |s.log| + 1 && WellFormed(BuildAppend(s, next))
    requires PeerOk(f) && f.raft.regionId == s.regionId && f.raft.log <= s.log && f.raft.currentTerm <= s.currentTerm
    ensures var (g, res) := OnAppend(f, BuildAppend(s, next));
            && PeerOk(g) && g.raft.regionId == f.raft.regionId && g.raft.currentTerm == s.currentTerm
            && (res.success ==> g.raft.lastApplied == g.raft.commitIndex == if s.commitIndex > f.raft.commitIndex then s.commitIndex else f.raft.commitIndex)
            && (!res.success ==> g.raft.commitIndex == f.raft.commitIndex && g.raft.lastApplied == f.raft.lastApplied)
  {
    hide GoodEntries, Stored, HardStateKept, UserMap, ApplyEntries, Persist, HandleAppend, Contiguous, BuildAppend, Storable;
    var req := BuildAppend(s, next);
    BuiltTerm(s, next);
    HandlerTerms(f.raft, req);
    OneAttempt(s, f, next);
    if Accepts(s.log, f.raft.log, next) {
      AcceptedCopies(s, f.raft, next);
    } else {
      Refused(f.raft, req);
    }
    AppendKeepsPeer(f, req);
  }

  lemma BuiltTerm(s: RaftState, next: nat)
    requires 1 <= next <= |s.log| + 1
    ensures BuildAppend(s, next).term == s.currentTerm
    ensures forall log :: HasLogAt(log, BuildAppend(s, next).prevLogIndex, BuildAppend(s, next).prevLogTerm) <==> Accepts(s.log, log, next)
  {}

  lemma HandlerTerms(s: RaftState, req: AppendRequest)
    requires Valid(s) && WellFormed(req) && req.term >= s.currentTerm
    ensures var r := HandleAppend(s, req).0;
            r.currentTerm == req.term && r.regionId == s.regionId && r.votedFor in {None, s.votedFor}
  {}

  lemma Refused(s: RaftState, req: AppendRequest)
    requires Valid(s) && WellFormed(req) && !HasLogAt(s.log, req.prevLogIndex, req.prevLogTerm)
    ensures var r := HandleAppend(s, req).0;
            r.log == s.log && r.commitIndex == s.commitIndex && r.lastApplied == s.lastApplied && !HandleAppend(s, req).1.success
  {}

  /** Replication to such a follower keeps its storage in order, and one that caught up has applied all it knows committed. */
  lemma CatchUpKeepsPeer(s: RaftState, f: Peer, next: nat, attempts: nat, reach: nat)
    requires Valid(s) && GoodLog(s.regionId, s.log) && 1 <= next <= |s.log| + 1 && 2 <= attempts
    requires PeerOk(f) && f.raft.regionId == s.regionId && f.raft.log <= s.log && f.raft.currentTerm <= s.currentTerm
    ensures var o := ReplicateTo(s, f, next, attempts, reach);
            && PeerOk(o.follower) && o.follower.raft.regionId == s.regionId && o.follower.raft.currentTerm <= s.currentTerm
            && (o.replicated ==> o.follower.raft.lastApplied == o.follower.raft.commitIndex
                                 == if s.commitIndex > f.raft.commitIndex then s.commitIndex else f.raft.commitIndex)
  {
    hide OnAppend, BuildAppend, GoodLog, PeerOk;
    PeerValid(f);
    hide Valid;
    if reach != 0 {
      BuiltWellFormed(s, next);
      OneAttempt(s, f, next);
      AttemptKeepsPeer(s, f, next);
      OnAppendValid(f, BuildAppend(s, next));
      var (g, res) := OnAppend(f, BuildAppend(s, next));
      if !res.success {
        PrefixBackoff(s, f.raft);
        var back := Backoff(|f.raft.log|);
        hide Backoff, Accepts;
        if reach > 1 {
          BuiltWellFormed(s, back);
          OneAttempt(s, g, back);
          AttemptKeepsPeer(s, g, back);
        }
      }
    }
  }

  lemma PeerValid(f: Peer)
    requires PeerOk(f)
    ensures Valid(f.raft)
  {}

  lemma PrefixBackoff(s: RaftState, f: RaftState)
    requires Valid(s) && Valid(f) && f.log <= s.log
    ensures Accepts(s.log, f.log, Backoff(|f.log|)) && 1 <= Backoff(|f.log|) <= |s.log| + 1
  {}
}
