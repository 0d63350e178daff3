/** `RaftNode`: the object that one peer updates in place, each method proved against its transition function. */
module RaftPeer {
  import opened Basics
  import opened RaftCore

  class RaftNode {
    const regionId: nat
    const selfId: nat
    var role: Role
    var currentTerm: nat
    var votedFor: Option<nat>
    var commitIndex: nat
    var lastApplied: nat
    var log: seq<LogEntry>

    constructor (regionId: nat, selfId: nat)
      ensures State() == FreshState(regionId, selfId)
    {
      this.regionId := regionId;
      this.selfId := selfId;
      role, currentTerm, votedFor, commitIndex, lastApplied, log := Follower, 0, None, 0, 0, [];
    }

    function State(): RaftState
      reads this
    {
      RaftState(regionId, selfId, role, currentTerm, votedFor, commitIndex, lastApplied, log)
    }

    method BecomeFollower(term: nat)
      modifies this
      ensures State() == RaftCore.BecomeFollower(old(State()), term)
    {
      role := Follower;
      if term > currentTerm {
        currentTerm := term;
        votedFor := None;
      }
    }

    method BecomeCandidate()
      modifies this
      ensures State() == RaftCore.BecomeCandidate(old(State()))
    {
      role := Candidate;
      currentTerm := currentTerm + 1;
      votedFor := Some(selfId);
    }

    method BecomeLeader()
      modifies this
      ensures State() == RaftCore.BecomeLeader(old(State()))
    {
      role := Leader;
    }

    method HandleRequestVote(request: VoteRequest) returns (response: VoteResponse)
      modifies this
      ensures (State(), response) == HandleVote(old(State()), request)
    {
      if request.term < currentTerm {
        return VoteResponse(currentTerm, false);
      }
      if request.term > currentTerm {
        BecomeFollower(request.term);
      }
      var canVote := votedFor == None || votedFor == Some(request.candidateId);
      var granted := canVote && UpToDate(log, request.lastLogIndex, request.lastLogTerm);
      if granted {
        votedFor := Some(request.candidateId);
      }
      return VoteResponse(currentTerm, granted);
    }

    /** Cut the log before `index`, pulling back the commit and apply positions when they lie behind the cut. */
    method DeleteFrom(index: nat)
      modifies this
      ensures State() == RaftCore.DeleteFrom(old(State()), index)
    {
      if index == 0 || index > |log| + 1 {
        return;
      }
      log := log[..index - 1];
      if commitIndex >= index {
        commitIndex := index - 1;
      }
      if lastApplied >= index {
        lastApplied := index - 1;
      }
    }

    method HandleAppendEntries(request: AppendRequest) returns (response: AppendResponse)
      requires Contiguous(log) && WellFormed(request)
      modifies this
      ensures (State(), response) == HandleAppend(old(State()), request)
    {
      hide Contiguous;
      if request.term < currentTerm {
        return AppendResponse(currentTerm, false, LastLogIndex(log));
      }
      if request.term > currentTerm || role != Follower {
        BecomeFollower(request.term);
      }
      if !HasLogAt(log, request.prevLogIndex, request.prevLogTerm) {
        return AppendResponse(currentTerm, false, LastLogIndex(log));
      }
      PreviousInside(log, request);
      var ok := AppendEntries(request.entries);
      if !ok {
        return AppendResponse(currentTerm, false, 0);
      }
      if request.leaderCommit > commitIndex {
        commitIndex := Min(request.leaderCommit, LastLogIndex(log));
      }
      return AppendResponse(currentTerm, true, LastLogIndex(log));
    }

    /** The loop over the entries of a request; false when one of them has index 0. */
    method AppendEntries(entries: seq<LogEntry>) returns (ok: bool)
      requires Contiguous(log) && Consecutive(entries) && (entries != [] ==> entries[0].index <= |log| + 1)
      modifies this
      ensures (State(), ok) == AppendAll(old(State()), entries)
    {
      hide Contiguous, Consecutive;
      ghost var before := State();
      var i := 0;
      assert entries[0..] == entries;
      while i < |entries|
        invariant 0 <= i <= |entries|
        invariant Contiguous(log)
        invariant Consecutive(entries[i..]) && (i < |entries| ==> entries[i].index <= |log| + 1)
        invariant AppendAll(State(), entries[i..]) == AppendAll(before, entries)
      {
        var entry := entries[i];
        if entry.index == 0 {
          return false;
        }
        ghost var was := State();
        NextEntry(was, entries, i);
        if entry.index <= LastLogIndex(log) {
          LastIndex(log);
          if log[entry.index - 1].term != entry.term {
            DeleteFrom(entry.index);
            log := log + [entry];
          }
        } else {
          log := log + [entry];
        }
        assert State() == AppendOne(was, entry);
        i := i + 1;
      }
      return true;
    }

    method Propose(kind: EntryType, command: Text) returns (r: Result<LogEntry>)
      modifies this
      ensures State() == RaftCore.Propose(old(State()), kind, command)
      ensures r == if old(role) == Leader then Success(NewEntry(old(State()), kind, command)) else Failure(NotLeader)
    {
      if role != Leader {
        return Failure(NotLeader);
      }
      var entry := LogEntry(regionId, LastLogIndex(log) + 1, currentTerm, kind, command);
      log := log + [entry];
      return Success(entry);
    }

    method SetCommitIndex(index: nat)
      modifies this
      ensures State() == RaftCore.SetCommitIndex(old(State()), index)
    {
      commitIndex := Min(index, LastLogIndex(log));
    }

    /** Hand out what is committed and not yet applied, each entry once. */
    method TakeCommittedEntries() returns (entries: seq<LogEntry>)
      requires commitIndex <= |log|
      modifies this
      ensures entries == Pending(old(State())) && State() == MarkApplied(old(State()))
    {
      entries := [];
      while lastApplied < commitIndex
        invariant State() == old(State()).(lastApplied := lastApplied)
        invariant old(lastApplied) <= lastApplied
        invariant if old(lastApplied) < old(commitIndex) then lastApplied <= commitIndex else lastApplied == old(lastApplied)
        invariant entries == if lastApplied <= |log| then log[old(lastApplied)..lastApplied] else []
        decreases commitIndex - lastApplied
      {
        lastApplied := lastApplied + 1;
        entries := entries + [log[lastApplied - 1]];
      }
    }

    method Restore(term: nat, voted: Option<nat>, commit: nat, applied: nat, entries: seq<LogEntry>) returns (status: Status)
      modifies this
      ensures State() == Restored(old(State()), term, voted, commit, applied, entries)
      ensures status == if Restorable(regionId, commit, applied, entries) then Ok else Error(InvalidArgument)
    {
      var i := 0;
      while i < |entries|
        invariant 0 <= i <= |entries|
        invariant forall j :: 0 <= j < i ==> entries[j].regionId == regionId && entries[j].index == j + 1
      {
        if entries[i].regionId != regionId || entries[i].index != i + 1 {
          return Error(InvalidArgument);
        }
        i := i + 1;
      }
      if commit > |entries| || applied > commit {
        return Error(InvalidArgument);
      }
      role, currentTerm, votedFor, commitIndex, lastApplied, log := Follower, term, voted, commit, applied, entries;
      return Ok;
    }
  }

  lemma LastIndex(log: seq<LogEntry>)
    requires Contiguous(log)
    ensures LastLogIndex(log) == |log|
  {}

  /** A well-formed request whose previous entry is present starts inside the log or right behind it. */
  lemma PreviousInside(log: seq<LogEntry>, request: AppendRequest)
    requires WellFormed(request) && HasLogAt(log, request.prevLogIndex, request.prevLogTerm)
    ensures request.entries != [] ==> request.entries[0].index <= |log| + 1
  {}

  lemma NextEntry(s: RaftState, entries: seq<LogEntry>, i: nat)
    requires i < |entries| && Contiguous(s.log) && Consecutive(entries[i..]) && 0 < entries[i].index <= |s.log| + 1
    ensures var t := AppendOne(s, entries[i]);
            && Contiguous(t.log) && t.currentTerm == s.currentTerm
            && Consecutive(entries[i + 1..]) && (i + 1 < |entries| ==> entries[i + 1].index <= |t.log| + 1)
            && AppendAll(t, entries[i + 1..]) == AppendAll(s, entries[i..])
  {
    var rest := entries[i..];
    assert rest[0] == entries[i] && rest[1..] == entries[i + 1..];
    assert i + 1 < |entries| ==> rest[1] == entries[i + 1];
  }
}
