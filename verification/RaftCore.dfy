/** One Raft peer: the transition functions of `RaftNode`. */
module RaftCore {
  import opened Basics

  datatype Role = Follower | Candidate | Leader
  datatype EntryType = Normal | ConfigChange | Split | Noop
  datatype LogEntry = LogEntry(regionId: nat, index: nat, term: nat, kind: EntryType, command: Text)

  datatype RaftState = RaftState(
    regionId: nat, selfId: nat, role: Role, currentTerm: nat, votedFor: Option<nat>,
    commitIndex: nat, lastApplied: nat, log: seq<LogEntry>)

  datatype VoteRequest = VoteRequest(term: nat, candidateId: nat, lastLogIndex: nat, lastLogTerm: nat)
  datatype VoteResponse = VoteResponse(term: nat, granted: bool)
  datatype AppendRequest = AppendRequest(
    term: nat, leaderId: nat, prevLogIndex: nat, prevLogTerm: nat, entries: seq<LogEntry>, leaderCommit: nat)
  datatype AppendResponse = AppendResponse(term: nat, success: bool, matchIndex: nat)

  // ---- Log views ----

  function LastLogIndex(log: seq<LogEntry>): nat {
    if log == [] then 0 else log[|log| - 1].index
  }

  function LastLogTerm(log: seq<LogEntry>): nat {
    if log == [] then 0 else log[|log| - 1].term
  }

  /** `log[i].index == i + 1`, the shape every indexing expression of the source relies on. */
  ghost predicate Contiguous(log: seq<LogEntry>) {
    forall i :: 0 <= i < |log| ==> log[i].index == i + 1
  }

  /** Indices of `entries` follow each other. */
  ghost predicate Consecutive(entries: seq<LogEntry>) {
    forall i :: 0 <= i < |entries| ==> entries[i].index == entries[0].index + i
  }

  /** What every sender guarantees: entries start right after the previous index.
      A leading index 0 is kept because the handler checks for it. */
  ghost predicate WellFormed(req: AppendRequest) {
    && Consecutive(req.entries)
    && (req.entries != [] ==> req.entries[0].index == req.prevLogIndex + 1 || req.entries[0].index == 0)
  }

  ghost predicate Valid(s: RaftState) {
    && Contiguous(s.log)
    && s.lastApplied <= s.commitIndex <= |s.log|
  }

  // ---- Transition functions ----

  function FreshState(regionId: nat, selfId: nat): RaftState {
    RaftState(regionId, selfId, Follower, 0, None, 0, 0, [])
  }

  function BecomeFollower(s: RaftState, term: nat): RaftState {
    if term > s.currentTerm
    then s.(role := Follower, currentTerm := term, votedFor := None)
    else s.(role := Follower)
  }

  function BecomeCandidate(s: RaftState): RaftState {
    s.(role := Candidate, currentTerm := s.currentTerm + 1, votedFor := Some(s.selfId))
  }

  function BecomeLeader(s: RaftState): RaftState {
    s.(role := Leader)
  }

  predicate UpToDate(log: seq<LogEntry>, lastLogIndex: nat, lastLogTerm: nat) {
    if lastLogTerm != LastLogTerm(log) then lastLogTerm > LastLogTerm(log) else lastLogIndex >= LastLogIndex(log)
  }

  function HandleVote(s: RaftState, req: VoteRequest): (RaftState, VoteResponse) {
    if req.term < s.currentTerm then (s, VoteResponse(s.currentTerm, false))
    else
      var s1 := if req.term > s.currentTerm then BecomeFollower(s, req.term) else s;
      if (s1.votedFor == None || s1.votedFor == Some(req.candidateId))
         && UpToDate(s1.log, req.lastLogIndex, req.lastLogTerm)
      then (s1.(votedFor := Some(req.candidateId)), VoteResponse(s1.currentTerm, true))
      else (s1, VoteResponse(s1.currentTerm, false))
  }

  predicate HasLogAt(log: seq<LogEntry>, index: nat, term: nat) {
    if index == 0 then term == 0
    else index <= |log| && log[index - 1].term == term
  }

  function DeleteFrom(s: RaftState, index: nat): RaftState {
    if index == 0 || index > |s.log| + 1 then s
    else s.(log := s.log[..index - 1],
            commitIndex := if s.commitIndex >= index then index - 1 else s.commitIndex,
            lastApplied := if s.lastApplied >= index then index - 1 else s.lastApplied)
  }

  function Push(s: RaftState, e: LogEntry): RaftState {
    s.(log := s.log + [e])
  }

  /** The body of the append loop for one entry whose index is not 0. */
  function AppendOne(s: RaftState, e: LogEntry): RaftState
    requires Contiguous(s.log) && 0 < e.index <= |s.log| + 1
  {
    if e.index <= LastLogIndex(s.log)
    then if s.log[e.index - 1].term != e.term then Push(DeleteFrom(s, e.index), e) else s
    else Push(s, e)
  }

  /** The append loop; the flag is false when an entry has index 0. */
  function AppendAll(s: RaftState, entries: seq<LogEntry>): (r: (RaftState, bool))
    requires Contiguous(s.log) && Consecutive(entries)
    requires entries != [] ==> entries[0].index <= |s.log| + 1
    ensures Contiguous(r.0.log)
    ensures r.0 == s.(log := r.0.log, commitIndex := r.0.commitIndex, lastApplied := r.0.lastApplied)
    ensures Valid(s) ==> Valid(r.0)
    ensures r.1 <==> entries == [] || entries[0].index != 0
    ensures r.1 && entries != [] ==> entries[0].index <= |r.0.log|
    decreases |entries|
  {
    if entries == [] then (s, true)
    else if entries[0].index == 0 then (s, false)
    else
      assert forall i :: 0 <= i < |entries[1..]| ==> entries[1..][i] == entries[i + 1];
      AppendAll(AppendOne(s, entries[0]), entries[1..])
  }

  function HandleAppend(s: RaftState, req: AppendRequest): (r: (RaftState, AppendResponse))
    requires Contiguous(s.log) && WellFormed(req)
    ensures Contiguous(r.0.log)
    ensures Valid(s) ==> Valid(r.0)
    ensures r.1.success && req.entries != [] ==> 0 < req.entries[0].index <= |r.0.log|
  {
    if req.term < s.currentTerm then (s, AppendResponse(s.currentTerm, false, LastLogIndex(s.log)))
    else
      var s1 := if req.term > s.currentTerm || s.role != Follower then BecomeFollower(s, req.term) else s;
      if !HasLogAt(s1.log, req.prevLogIndex, req.prevLogTerm)
      then (s1, AppendResponse(s1.currentTerm, false, LastLogIndex(s1.log)))
      else
        var (s2, ok) := AppendAll(s1, req.entries);
        if !ok then (s2, AppendResponse(s2.currentTerm, false, 0))
        else
          var s3 := if req.leaderCommit > s2.commitIndex
                    then s2.(commitIndex := Min(req.leaderCommit, LastLogIndex(s2.log))) else s2;
          (s3, AppendResponse(s3.currentTerm, true, LastLogIndex(s3.log)))
  }

  function NewEntry(s: RaftState, kind: EntryType, command: Text): LogEntry {
    LogEntry(s.regionId, LastLogIndex(s.log) + 1, s.currentTerm, kind, command)
  }

  function Propose(s: RaftState, kind: EntryType, command: Text): RaftState {
    if s.role != Leader then s else Push(s, NewEntry(s, kind, command))
  }

  function SetCommitIndex(s: RaftState, index: nat): RaftState {
    s.(commitIndex := Min(index, LastLogIndex(s.log)))
  }

  /** The committed entries that have not been applied yet. */
  function Pending(s: RaftState): seq<LogEntry>
    requires s.commitIndex <= |s.log|
  {
    if s.lastApplied < s.commitIndex then s.log[s.lastApplied..s.commitIndex] else []
  }

  function MarkApplied(s: RaftState): RaftState {
    if s.lastApplied < s.commitIndex then s.(lastApplied := s.commitIndex) else s
  }

  predicate Restorable(regionId: nat, commitIndex: nat, lastApplied: nat, log: seq<LogEntry>) {
    && (forall i :: 0 <= i < |log| ==> log[i].regionId == regionId && log[i].index == i + 1)
    && lastApplied <= commitIndex <= |log|
  }

  function Restored(s: RaftState, term: nat, votedFor: Option<nat>, commitIndex: nat, lastApplied: nat,
                    log: seq<LogEntry>): RaftState
  {
    if Restorable(s.regionId, commitIndex, lastApplied, log)
    then RaftState(s.regionId, s.selfId, Follower, term, votedFor, commitIndex, lastApplied, log) else s
  }
}
