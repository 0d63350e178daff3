/** What the Raft handlers decide, with every field written out: the rules of the protocol, against the transition functions. */
module RaftLaws {
  import opened Basics
  import opened RaftCore

  // ---- Votes ----

  /** The candidate's last term and index are, in this order, at least the voter's. */
  ghost predicate LogAtLeast(log: seq<LogEntry>, lastLogIndex: nat, lastLogTerm: nat) {
    var ownTerm := if |log| == 0 then 0 else log[|log| - 1].term;
    var ownIndex := if |log| == 0 then 0 else log[|log| - 1].index;
    lastLogTerm > ownTerm || (lastLogTerm == ownTerm && lastLogIndex >= ownIndex)
  }

  /** A vote is granted exactly when the term is new to the voter, or its own with the vote free or already for this
      candidate, and the candidate's log is at least the voter's. A new term is adopted either way. */
  lemma VoteExactly(s: RaftState, req: VoteRequest)
    ensures var (r, res) := HandleVote(s, req);
            && (res.granted <==>
                  && (req.term > s.currentTerm || (req.term == s.currentTerm && (s.votedFor == None || s.votedFor == Some(req.candidateId))))
                  && LogAtLeast(s.log, req.lastLogIndex, req.lastLogTerm))
            && res.term == r.currentTerm == (if req.term > s.currentTerm then req.term else s.currentTerm)
            && r.votedFor == (if res.granted then Some(req.candidateId) else if req.term > s.currentTerm then None else s.votedFor)
            && r.role == (if req.term > s.currentTerm then Follower else s.role)
            && r == s.(currentTerm := r.currentTerm, votedFor := r.votedFor, role := r.role)
  {}

  // ---- The log ----

  /** Cutting before an index inside the log or right behind it pulls the positions back to what is left. */
  lemma DeleteExactly(s: RaftState, index: nat)
    ensures var r := DeleteFrom(s, index);
            if 1 <= index <= |s.log| + 1
            then r == s.(log := s.log[..index - 1], commitIndex := Min(s.commitIndex, index - 1), lastApplied := Min(s.lastApplied, index - 1))
            else r == s
  {}

  /** The commit index is what was asked for, or the end of the log. */
  lemma CommitExactly(s: RaftState, index: nat)
    requires Contiguous(s.log)
    ensures SetCommitIndex(s, index) == s.(commitIndex := if index <= |s.log| then index else |s.log|)
  {}

  /** Stored state is taken over exactly when every entry belongs to the region and sits at its index, and
      applied <= committed <= length; otherwise nothing changes. */
  lemma RestoreExactly(s: RaftState, term: nat, voted: Option<nat>, commit: nat, applied: nat, log: seq<LogEntry>)
    ensures var fits := (forall i :: 0 <= i < |log| ==> log[i].regionId == s.regionId && log[i].index == i + 1) && applied <= commit && commit <= |log|;
            Restored(s, term, voted, commit, applied, log)
            == if fits then RaftState(s.regionId, s.selfId, Follower, term, voted, commit, applied, log) else s
  {}

  lemma {:induction false} PushAll(s: RaftState, entries: seq<LogEntry>)
    requires Contiguous(s.log) && Consecutive(entries) && (entries != [] ==> entries[0].index == |s.log| + 1)
    ensures AppendAll(s, entries) == (s.(log := s.log + entries), true)
    decreases |entries|
  {
    if entries == [] {
      assert s.log + entries == s.log;
    } else {
      var rest := entries[1..];
      assert forall i :: 0 <= i < |rest| ==> rest[i] == entries[i + 1];
      PushAll(Push(s, entries[0]), rest);
      assert s.log + [entries[0]] + rest == s.log + entries;
    }
  }

  /** The result of merging entries behind position `k`: `same` of them are there already, and from the first one that is not,
      the log is theirs. */
  ghost predicate Merged(s: RaftState, r: RaftState, entries: seq<LogEntry>, k: nat, same: nat)
    requires k <= |s.log|
  {
    && same <= |entries|
    && k + same <= |s.log|
    && (forall i :: k <= i < k + same ==> s.log[i].term == entries[i - k].term)
    && (same < |entries| ==> (k + same == |s.log| || s.log[k + same].term != entries[same].term))
    && r == s.(log := if same == |entries| then s.log else s.log[..k + same] + entries[same..],
               commitIndex := if same == |entries| then s.commitIndex else Min(s.commitIndex, k + same),
               lastApplied := if same == |entries| then s.lastApplied else Min(s.lastApplied, k + same))
  }

  lemma MergedAtFirst(s: RaftState, r: RaftState, entries: seq<LogEntry>, k: nat, more: nat)
    requires entries != [] && k < |s.log| && s.log[k].term == entries[0].term
    requires Merged(s, r, entries[1..], k + 1, more)
    ensures Merged(s, r, entries, k, more + 1)
  {
    var rest := entries[1..];
    forall i | k <= i < k + (more + 1) ensures s.log[i].term == entries[i - k].term {
      if i > k {
        assert s.log[i].term == rest[i - (k + 1)].term;
      }
    }
    assert k + 1 + more == k + (more + 1) && (more == |rest| <==> more + 1 == |entries|);
    if more < |rest| {
      assert rest[more..] == entries[more + 1..] && rest[more] == entries[more + 1];
    }
  }

  lemma MergedByCut(s: RaftState, entries: seq<LogEntry>, k: nat)
    requires Valid(s) && Consecutive(entries) && entries != [] && entries[0].index == k + 1
    requires k == |s.log| || (k < |s.log| && s.log[k].term != entries[0].term)
    ensures var (r, ok) := AppendAll(s, entries); ok && Merged(s, r, entries, k, 0)
  {
    hide AppendAll;
    var cut := if k < |s.log| then DeleteFrom(s, k + 1) else s;
    assert cut.log == s.log[..k];
    PushAll(cut, entries);
    CutThenPush(s, entries, k);
    assert entries[0..] == entries;
  }

  /** At a conflict the loop does what it would do after the cut. */
  lemma CutThenPush(s: RaftState, entries: seq<LogEntry>, k: nat)
    requires Valid(s) && Consecutive(entries) && entries != [] && entries[0].index == k + 1
    requires k == |s.log| || (k < |s.log| && s.log[k].term != entries[0].term)
    ensures AppendAll(s, entries) == AppendAll(if k < |s.log| then DeleteFrom(s, k + 1) else s, entries)
  {}

  /** The append loop on any log: entries with the terms that are there already change nothing; the first other one cuts the
      log and everything from it on is taken over. */
  lemma {:induction false} MergeExactly(s: RaftState, entries: seq<LogEntry>, k: nat) returns (same: nat)
    requires Valid(s) && Consecutive(entries) && k <= |s.log| && (entries != [] ==> entries[0].index == k + 1)
    ensures var (r, ok) := AppendAll(s, entries); ok && Merged(s, r, entries, k, same)
    decreases |entries|
  {
    hide Merged;
    same := 0;
    if entries == [] {
      NothingMerged(s, k);
    } else if k < |s.log| && s.log[k].term == entries[0].term {
      var rest := entries[1..];
      assert forall i :: 0 <= i < |rest| ==> rest[i] == entries[i + 1];
      var more := MergeExactly(s, rest, k + 1);
      same := more + 1;
      MergedAtFirst(s, AppendAll(s, rest).0, entries, k, more);
    } else {
      MergedByCut(s, entries, k);
    }
  }

  lemma NothingMerged(s: RaftState, k: nat)
    requires k <= |s.log|
    ensures Merged(s, s, [], k, 0)
  {}

  // ---- Append requests ----

  /** The follower holds the entry that the request continues from. */
  ghost predicate Continues(log: seq<LogEntry>, req: AppendRequest) {
    (req.prevLogIndex == 0 && req.prevLogTerm == 0)
    || (1 <= req.prevLogIndex <= |log| && log[req.prevLogIndex - 1].term == req.prevLogTerm)
  }

  lemma LastIs(log: seq<LogEntry>)
    requires Contiguous(log)
    ensures LastLogIndex(log) == |log|
  {}

  /** The commit index moves forward only, to the leader's or to the end of the log. */
  ghost function Raised(commit: nat, leaderCommit: nat, length: nat): nat {
    if leaderCommit <= commit then commit else if leaderCommit <= length then leaderCommit else length
  }

  /** The receiver as a follower in the request's term. */
  ghost function Following(s: RaftState, term: nat): RaftState {
    s.(role := Follower, currentTerm := term, votedFor := if term > s.currentTerm then None else s.votedFor)
  }

  /** A request from an older term, one that does not continue the receiver's log, and one with an index 0 are refused; the
      first changes nothing, the others make the receiver a follower. The answer names the end of its log, or 0. */
  lemma RefusedExactly(s: RaftState, req: AppendRequest)
    requires Valid(s) && WellFormed(req)
    ensures var (r, res) := HandleAppend(s, req);
            && (req.term < s.currentTerm ==> r == s && res == AppendResponse(s.currentTerm, false, |s.log|))
            && (req.term >= s.currentTerm && !Continues(s.log, req) ==>
                  r == Following(s, req.term) && res == AppendResponse(req.term, false, |s.log|))
            && (req.term >= s.currentTerm && Continues(s.log, req) && req.entries != [] && req.entries[0].index == 0 ==>
                  r == Following(s, req.term) && res == AppendResponse(req.term, false, 0))
  {
    hide Consecutive;
    LastIs(s.log);
    hide Contiguous;
  }

  lemma AcceptedShape(s: RaftState, req: AppendRequest)
    requires Valid(s) && WellFormed(req) && req.term >= s.currentTerm && Continues(s.log, req)
    requires req.entries != [] ==> req.entries[0].index != 0
    ensures req.prevLogIndex <= |s.log| && Valid(Following(s, req.term)) && (req.entries != [] ==> req.entries[0].index == req.prevLogIndex + 1)
    ensures var (merged, ok) := AppendAll(Following(s, req.term), req.entries);
            ok ==> HandleAppend(s, req) == (merged.(commitIndex := Raised(merged.commitIndex, req.leaderCommit, LastLogIndex(merged.log))),
                                            AppendResponse(merged.currentTerm, true, LastLogIndex(merged.log)))
  {
    hide Consecutive, Contiguous;
  }

  /** Any other request is accepted: its entries are merged behind the previous one, the commit index is raised, and the
      answer names the end of the log. */
  lemma AcceptedExactly(s: RaftState, req: AppendRequest) returns (same: nat, merged: RaftState)
    requires Valid(s) && WellFormed(req) && req.term >= s.currentTerm && Continues(s.log, req)
    requires req.entries != [] ==> req.entries[0].index != 0
    ensures req.prevLogIndex <= |s.log| && Merged(Following(s, req.term), merged, req.entries, req.prevLogIndex, same)
    ensures HandleAppend(s, req) == (merged.(commitIndex := Raised(merged.commitIndex, req.leaderCommit, |merged.log|)),
                                     AppendResponse(req.term, true, |merged.log|))
  {
    hide HandleAppend, AppendAll;
    AcceptedShape(s, req);
    same := MergeExactly(Following(s, req.term), req.entries, req.prevLogIndex);
    merged := AppendAll(Following(s, req.term), req.entries).0;
    LastIs(merged.log);
  }
}
