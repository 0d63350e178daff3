/** How the append loop changes a log, seen against the leader's log. */
module RaftLog {
  import opened Basics
  import opened RaftCore

  /** Equal terms at an index mean equal logs up to it: the Log Matching relation between two logs. */
  ghost predicate Agree(a: seq<LogEntry>, b: seq<LogEntry>) {
    forall i :: 0 <= i < |a| && i < |b| && a[i].term == b[i].term ==> a[..i + 1] == b[..i + 1]
  }

  lemma PrefixAgrees(a: seq<LogEntry>, b: seq<LogEntry>)
    requires a <= b
    ensures Agree(a, b)
  {
    forall i | 0 <= i < |a| && i < |b| && a[i].term == b[i].term ensures a[..i + 1] == b[..i + 1] {}
  }

  lemma SliceConsecutive(l: seq<LogEntry>, k: nat, m: nat)
    requires Contiguous(l) && k <= m <= |l|
    ensures Consecutive(l[k..m]) && (k < m ==> l[k..m][0].index == k + 1)
  {}

  /** One turn of the append loop on the leader's entry at position `k`. */
  lemma MergeOne(s: RaftState, l: seq<LogEntry>, k: nat, p: seq<LogEntry>)
    requires Contiguous(s.log) && Contiguous(l) && Agree(s.log, l)
    requires k < |l| && k <= |s.log| && s.log[..k] == l[..k]
    requires p <= s.log && p <= l
    ensures l[k].index == k + 1
    ensures var s1 := AppendOne(s, l[k]);
            && Contiguous(s1.log) && k + 1 <= |s1.log| && s1.log[..k + 1] == l[..k + 1]
            && (s1 == s || s1.log == l[..k + 1])
            && p <= s1.log
            && (s.lastApplied <= s.commitIndex <= |p| ==>
                  s1.commitIndex == s.commitIndex && s1.lastApplied == s.lastApplied)
  {
    var s1 := AppendOne(s, l[k]);
    if k < |s.log| && s.log[k].term == l[k].term {
      assert s1 == s;
      assert s.log[..k + 1] == l[..k + 1];
    } else {
      assert |p| <= k;
      assert s1.log == s.log[..k] + [l[k]] == l[..k + 1];
      assert s1.log[..k + 1] == s1.log;
    }
  }

  /** Merging a slice of the leader's log `l` into a log that agrees with it either leaves the log as it was
      (the slice was there already) or makes it exactly the leader's prefix. A prefix `p` shared with the
      leader survives, and commit and apply positions inside `p` are not clamped. */
  lemma {:induction false} MergeAlong(s: RaftState, l: seq<LogEntry>, k: nat, m: nat, p: seq<LogEntry>)
    requires Contiguous(s.log) && Contiguous(l) && Agree(s.log, l)
    requires k <= m <= |l| && k <= |s.log| && s.log[..k] == l[..k]
    requires p <= s.log && p <= l
    ensures Consecutive(l[k..m]) && (k < m ==> l[k..m][0].index == k + 1)
    ensures var r := AppendAll(s, l[k..m]);
            && r.1
            && (r.0.log == l[..m] || (r.0.log == s.log && l[..m] <= s.log))
            && p <= r.0.log
            && (s.lastApplied <= s.commitIndex <= |p| ==>
                  r.0.commitIndex == s.commitIndex && r.0.lastApplied == s.lastApplied)
    decreases m - k
  {
    SliceConsecutive(l, k, m);
    if k == m {
      assert l[..m] == s.log[..m];
    } else {
      MergeOne(s, l, k, p);
      var s1 := AppendOne(s, l[k]);
      if s1 != s {
        PrefixAgrees(s1.log, l);
      }
      assert l[k..m][0] == l[k] && l[k..m][1..] == l[k + 1..m];
      MergeAlong(s1, l, k + 1, m, p);
    }
  }

  lemma AppendOneShape(s: RaftState, e: LogEntry)
    requires Contiguous(s.log) && 0 < e.index <= |s.log| + 1
    ensures var t := AppendOne(s, e);
            Contiguous(t.log) && e.index <= |t.log| && t.log[..e.index - 1] == s.log[..e.index - 1]
  {}

  /** Nothing below the first entry of the slice is touched, so persisting from there on is enough. */
  lemma {:induction false} AppendKeepsBelow(s: RaftState, entries: seq<LogEntry>)
    requires Contiguous(s.log) && Consecutive(entries) && entries != []
    requires 0 < entries[0].index <= |s.log| + 1
    ensures var k := entries[0].index - 1;
            var r := AppendAll(s, entries).0.log; k <= |r| && r[..k] == s.log[..k]
    decreases |entries|
  {
    var k := entries[0].index - 1;
    var s1 := AppendOne(s, entries[0]);
    AppendOneShape(s, entries[0]);
    hide AppendOne, Contiguous;
    var rest := entries[1..];
    assert Consecutive(rest) && (rest != [] ==> rest[0].index == entries[0].index + 1);
    assert forall i :: 0 <= i < |rest| ==> rest[i] == entries[i + 1];
    if rest != [] {
      AppendKeepsBelow(s1, rest);
      var r := AppendAll(s1, rest).0.log;
      assert r[..k] == r[..k + 1][..k];
      assert s1.log[..k] == s1.log[..k + 1][..k];
    }
  }

  /** `req` is cut out of the log `l`, with a commit index that the request itself covers. */
  ghost predicate SliceOf(req: AppendRequest, l: seq<LogEntry>) {
    var k, m := req.prevLogIndex, req.prevLogIndex + |req.entries|;
    && m <= |l|
    && req.entries == l[k..m]
    && req.prevLogTerm == (if k == 0 then 0 else l[k - 1].term)
    && req.leaderCommit <= m
  }

  /** What a follower in state `s` becomes on a request cut out of `l`: a success leaves the verified prefix in its
      log, `p` survives, and the commit index only moves to the leader's, inside that prefix. */
  ghost predicate Follows(s: RaftState, l: seq<LogEntry>, req: AppendRequest, p: seq<LogEntry>)
    requires Contiguous(s.log) && WellFormed(req) && SliceOf(req, l)
  {
    var (r, res) := HandleAppend(s, req);
    var m := req.prevLogIndex + |req.entries|;
    && p <= r.log
    && (res.success ==> l[..m] <= r.log)
    && (r.log == s.log || (res.success && r.log == l[..m]))
    && (s.lastApplied <= s.commitIndex <= |p| ==>
          && r.lastApplied == s.lastApplied
          && r.commitIndex == if res.success && req.leaderCommit > s.commitIndex then req.leaderCommit else s.commitIndex)
  }

  lemma PreviousMatches(log: seq<LogEntry>, l: seq<LogEntry>, k: nat)
    requires Agree(log, l) && k <= |l| && HasLogAt(log, k, if k == 0 then 0 else l[k - 1].term)
    ensures k <= |log| && log[..k] == l[..k]
  {
    if k > 0 {
      var i := k - 1;
      assert log[i].term == l[i].term;
      assert log[..i + 1] == l[..i + 1];
    }
  }

  /** The handler as a follower at the request's term runs it. */
  function Stepped(s: RaftState, req: AppendRequest): RaftState {
    if req.term > s.currentTerm || s.role != Follower then BecomeFollower(s, req.term) else s
  }

  lemma HandlerShape(s: RaftState, req: AppendRequest)
    requires Contiguous(s.log) && WellFormed(req)
    ensures var (r, res) := HandleAppend(s, req);
            if req.term < s.currentTerm || !HasLogAt(s.log, req.prevLogIndex, req.prevLogTerm)
            then !res.success && r == if req.term < s.currentTerm then s else Stepped(s, req)
            else
              var (s2, ok) := AppendAll(Stepped(s, req), req.entries);
              && res.success == ok && r.log == s2.log && r.lastApplied == s2.lastApplied
              && r.commitIndex == if ok && req.leaderCommit > s2.commitIndex then Min(req.leaderCommit, |s2.log|) else s2.commitIndex
  {
    if req.term >= s.currentTerm && HasLogAt(s.log, req.prevLogIndex, req.prevLogTerm) {
      var s2 := AppendAll(Stepped(s, req), req.entries).0;
      assert LastLogIndex(s2.log) == |s2.log|;
    }
  }

  lemma FollowsLeader(s: RaftState, l: seq<LogEntry>, req: AppendRequest, p: seq<LogEntry>)
    requires Contiguous(s.log) && Contiguous(l) && Agree(s.log, l) && SliceOf(req, l)
    requires p <= s.log && p <= l
    ensures WellFormed(req) && Follows(s, l, req, p)
  {
    hide Agree, AppendAll, HandleAppend, HasLogAt, Contiguous;
    var k := req.prevLogIndex;
    SliceConsecutive(l, k, k + |req.entries|);
    HandlerShape(s, req);
    if req.term >= s.currentTerm && HasLogAt(s.log, k, req.prevLogTerm) {
      PreviousMatches(s.log, l, k);
      MergeAlong(Stepped(s, req), l, k, k + |req.entries|, p);
    }
  }
}
