/** `DistributedRegionNode`: a Raft peer and its engine as objects, each operation proved against the peer functions. */
module RegionServer {
  import opened Basics
  import opened KvEngine
  import opened KvCommand
  import opened RaftCore
  import opened RaftPeer
  import RaftStorage
  import opened RegionNode

  class DistributedRegionNode {
    const raft: RaftNode
    const engine: FileKvEngine
    var leaderHint: nat

    constructor (regionId: nat, selfId: nat, leaderHint: nat)
      ensures AsPeer() == Peer(FreshState(regionId, selfId), map[]) && engine.Durable()
      ensures this.leaderHint == leaderHint && fresh(raft) && fresh(engine)
    {
      raft := new RaftNode(regionId, selfId);
      engine := new FileKvEngine();
      this.leaderHint := leaderHint;
    }

    function AsPeer(): Peer
      reads raft, engine
    {
      Peer(raft.State(), engine.data)
    }

    method PersistHardState()
      modifies engine
      ensures AsPeer() == Persist(old(AsPeer()))
      ensures old(engine.Durable()) ==> engine.Durable()
    {
      hide RaftStorage.SaveHardState;
      RaftStorage.Save(engine, raft.regionId, HardStateOf(raft.State()));
    }

    method PersistLogFrom(first: nat)
      requires Contiguous(raft.log) && 1 <= first <= |raft.log| + 1
      modifies engine
      ensures AsPeer() == RegionNode.PersistLogFrom(old(AsPeer()), first)
      ensures old(engine.Durable()) ==> engine.Durable()
    {
      hide RaftStorage.DeleteLogsFrom, RaftStorage.AppendLog, Replayed;
      RaftStorage.DeleteFrom(engine, raft.regionId, first);
      ghost var start := engine.data;
      var log := raft.log;
      var i := 0;
      assert log[first - 1..][0..] == log[first - 1..];
      while i < |log|
        invariant 0 <= i <= |log|
        invariant raft.State() == old(raft.State())
        invariant AppendLogs(start, log[first - 1..])
               == AppendLogs(engine.data, if i < first then log[first - 1..] else log[i..])
        invariant old(engine.Durable()) ==> engine.Durable()
      {
        if log[i].index >= first {
          assert log[i..][0] == log[i] && log[i..][1..] == log[i + 1..];
          RaftStorage.Append(engine, log[i]);
        }
        i := i + 1;
      }
      assert log[|log|..] == [];
    }

    /** Apply what Raft hands out; a command that fails ends the loop, with the positions already moved. */
    method ApplyCommitted() returns (status: Status)
      requires raft.commitIndex <= |raft.log|
      modifies raft, engine
      ensures AsPeer() == RegionNode.ApplyCommitted(old(AsPeer()))
      ensures status == ApplyStatus(Pending(old(raft.State())))
      ensures GoodEntries(old(raft.log)) && old(engine.Durable()) ==> engine.Durable()
    {
      hide ParseCommand, MutateAll, Replayed, IsUserKey;
      var entries := raft.TakeCommittedEntries();
      var i := 0;
      assert entries[0..] == entries;
      while i < |entries|
        invariant 0 <= i <= |entries|
        invariant raft.State() == MarkApplied(old(raft.State()))
        invariant ApplyEntries(old(engine.data), entries) == ApplyEntries(engine.data, entries[i..])
        invariant ApplyStatus(entries) == ApplyStatus(entries[i..])
        invariant GoodEntries(old(raft.log)) && old(engine.Durable()) ==> engine.Durable()
      {
        assert entries[i..][0] == entries[i] && entries[i..][1..] == entries[i + 1..];
        if entries[i].kind != Noop {
          if GoodEntries(old(raft.log)) {
            GoodKeys(old(raft.log), entries[i]);
          }
          status := ApplyKvCommand(engine, entries[i].command);
          if status != Ok {
            return;
          }
        }
        i := i + 1;
      }
      assert entries[|entries|..] == [];
      return Ok;
    }

    method HandleRequestVote(request: VoteRequest) returns (response: VoteResponse)
      modifies raft, engine
      ensures (AsPeer(), response) == OnVote(old(AsPeer()), request)
      ensures old(engine.Durable()) ==> engine.Durable()
    {
      response := raft.HandleRequestVote(request);
      PersistHardState();
    }

    method HandleAppendEntries(request: AppendRequest) returns (response: AppendResponse)
      requires Valid(raft.State()) && WellFormed(request)
      modifies raft, engine
      ensures (AsPeer(), response) == OnAppend(old(AsPeer()), request)
      ensures old(engine.Durable()) && GoodEntries(raft.log) ==> engine.Durable()
    {
      hide WellFormed, GoodEntries, Persist, HandleAppend;
      var first := if request.entries == [] then 0 else request.entries[0].index;
      response := raft.HandleAppendEntries(request);
      if !response.success {
        PersistHardState();
        return;
      }
      if first != 0 {
        PersistLogFrom(first);
      }
      var _ := ApplyCommitted();
      PersistHardState();
    }

    /** Start-up: read the stored state, if there is any. */
    method Bootstrap() returns (status: Status)
      modifies raft
      requires raft.State() == FreshState(raft.regionId, raft.selfId)
      ensures var r := Recovered(raft.regionId, raft.selfId, engine.data);
              && status == (match r case Success(_) => Ok case Failure(e) => Error(e))
              && raft.State() == (match r case Success(s) => s case Failure(_) => old(raft.State()))
    {
      hide RaftStorage.LoadHardState, RaftStorage.LoadLog, Restorable;
      var hs := RaftStorage.LoadHardState(engine.data, raft.regionId);
      if hs.Success? {
        var entries := RaftStorage.Load(engine, raft.regionId);
        if entries.Failure? {
          return Error(entries.code);
        }
        var voted := if hs.value.votedFor != 0 then Some(hs.value.votedFor) else None;
        status := raft.Restore(hs.value.currentTerm, voted, hs.value.commitIndex, hs.value.lastApplied, entries.value);
      } else if hs.code == KeyNotFound {
        return Ok;
      } else {
        return Error(hs.code);
      }
    }
  }

  lemma GoodKeys(log: seq<LogEntry>, e: LogEntry)
    requires GoodEntries(log) && e in log
    ensures ParseCommand(e.command).Success? && KeysNonEmpty(ParseCommand(e.command).value)
  {
    hide ParseCommand;
  }
}
