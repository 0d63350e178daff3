/** `SingleRegionCluster` as an object whose operations loop over the replicas. */
module RegionCluster {
  import opened Basics
  import opened KvEngine
  import opened KvCommand
  import opened RaftCore
  import opened RaftStorage
  import opened RegionNode
  import opened SingleRegion

  class SingleRegionCluster {
    const regionId: nat
    var stores: seq<Replica>
    var leaderId: nat

    constructor (g: Group)
      ensures Value() == g
    {
      regionId := g.regionId;
      stores := g.stores;
      leaderId := g.leaderId;
    }

    function Value(): Group
      reads this
    {
      Group(regionId, stores, leaderId)
    }

    method Find(id: nat) returns (i: nat)
      ensures i == Position(stores, id)
    {
      i := 0;
      while i < |stores| && Id(stores[i]) != id
        invariant i <= |stores| && forall j :: 0 <= j < i ==> Id(stores[j]) != id
      {
        i := i + 1;
      }
    }

    method ElectLeader(id: nat) returns (status: Status)
      modifies this
      ensures (Value(), status) == SingleRegion.ElectLeader(old(Value()), id)
    {
      hide OnVote, Campaign, Promote, BallotRequest;
      var i := Find(id);
      if i == |stores| {
        return Error(InvalidArgument);
      }
      ghost var before := stores;
      var candidate := Campaign(stores[i].peer);
      stores := stores[i := stores[i].(peer := candidate)];
      CampaignId(before[i].peer);
      ghost var start := stores;
      var request := BallotRequest(candidate.raft);
      var votes, k := 1, 0;
      while k < |stores|
        invariant 0 <= k <= |stores| == |start| && leaderId == old(leaderId)
        invariant forall j :: 0 <= j < k ==> stores[j] == Vote(start[j], id, request)
        invariant forall j :: k <= j < |stores| ==> stores[j] == start[j]
        invariant votes == 1 + Votes(before[..k], id, request)
      {
        assert before[..k + 1][..k] == before[..k] && before[..k + 1][k] == before[k];
        if Id(stores[k]) != id {
          var (p, response) := OnVote(stores[k].peer, request);
          stores := stores[k := stores[k].(peer := p)];
          if response.granted {
            votes := votes + 1;
          }
        }
        k := k + 1;
      }
      assert before[..k] == before;
      hide Vote, Votes;
      assert stores == VoteAll(start, id, request);
      if votes <= |stores| / 2 {
        return Error(Internal);
      }
      stores := stores[i := stores[i].(peer := Promote(candidate))];
      leaderId := id;
      return Ok;
    }

    method TransferLeader(id: nat) returns (status: Status)
      modifies this
      ensures (Value(), status) == SingleRegion.TransferLeader(old(Value()), id)
    {
      if leaderId == id {
        return Ok;
      }
      status := ElectLeader(id);
    }

    /** Tell every follower how far the leader has committed; the first failure ends it. */
    method BroadcastCommit(term: nat, commit: nat) returns (status: Status)
      requires AllValid(stores)
      modifies this`stores
      ensures (stores, status) == Broadcast(old(stores), 0, term, leaderId, commit)
    {
      hide Follow, Valid;
      var k := 0;
      while k < |stores|
        invariant 0 <= k <= |stores| && AllValid(stores)
        invariant Broadcast(stores, k, term, leaderId, commit) == Broadcast(old(stores), 0, term, leaderId, commit)
      {
        if Id(stores[k]) != leaderId {
          var (p, st) := Follow(stores[k].peer, term, leaderId, commit);
          stores := stores[k := stores[k].(peer := p)];
          if st != Ok {
            return st;
          }
        }
        k := k + 1;
      }
      return Ok;
    }

    /** Send the new entry to every follower and count who took it. */
    method Distribute(request: AppendRequest, e: LogEntry) returns (replicated: nat)
      requires AllValid(stores) && WellFormed(request)
      modifies this`stores
      ensures stores == SendAll(old(stores), leaderId, request, e)
      ensures replicated == 1 + Acks(old(stores), leaderId, request, e)
    {
      hide Receive, Valid, WellFormed;
      ghost var start := stores;
      replicated := 1;
      var k := 0;
      while k < |stores|
        invariant 0 <= k <= |stores| == |start|
        invariant forall j :: 0 <= j < k ==> stores[j] == SendAll(start, leaderId, request, e)[j]
        invariant forall j :: k <= j < |stores| ==> stores[j] == start[j]
        invariant replicated == 1 + Acks(start[..k], leaderId, request, e)
      {
        assert start[..k + 1][..k] == start[..k] && start[..k + 1][k] == start[k];
        ValidContiguous(start[k].peer.raft);
        if Id(stores[k]) != leaderId {
          var (p, ok) := Receive(stores[k].peer, request, e);
          stores := stores[k := stores[k].(peer := p)];
          if ok {
            replicated := replicated + 1;
          }
        }
        k := k + 1;
      }
      assert start[..k] == start;
    }

    method ProposeAndReplicate(command: Text) returns (status: Status)
      requires AllValid(stores)
      modifies this`stores
      ensures (Value(), status) == SingleRegion.ProposeAndReplicate(old(Value()), command)
    {
      hide Valid, WellFormed, ApplyAndPersist, Receive, Broadcast, EntryRequest;
      var i := Find(leaderId);
      if i == |stores| || stores[i].peer.raft.role != Leader {
        return Error(NotLeader);
      }
      ghost var before := stores;
      var leader := stores[i].peer;
      OfferValid(leader, command);
      var e := NewEntry(leader.raft, Normal, command);
      var offered := Offer(leader, command);
      OfferId(leader, command);
      stores := stores[i := stores[i].(peer := offered)];
      OneEntryWellFormed(offered.raft, leaderId, e);
      var request := EntryRequest(offered.raft, leaderId, e);
      AcksIgnoreLeader(before, stores, i, leaderId, request, e);
      var replicated := Distribute(request, e);
      if replicated <= |stores| / 2 {
        return Error(Internal);
      }
      var committed := offered.(raft := SetCommitIndex(offered.raft, e.index));
      ApplyValid(committed);
      ValidBounds(committed.raft);
      var (done, st) := ApplyAndPersist(committed);
      stores := stores[i := stores[i].(peer := done)];
      if st != Ok {
        return st;
      }
      status := BroadcastCommit(done.raft.currentTerm, e.index);
    }

    method Put(key: Text, value: Text) returns (status: Status)
      requires AllValid(stores)
      modifies this`stores
      ensures (Value(), status) == SingleRegion.Put(old(Value()), key, value)
    {
      status := ProposeAndReplicate(EncodePut(key, value));
    }

    method Delete(key: Text) returns (status: Status)
      requires AllValid(stores)
      modifies this`stores
      ensures (Value(), status) == SingleRegion.Delete(old(Value()), key)
    {
      status := ProposeAndReplicate(EncodeDelete(key));
    }

    method Batch(mus: seq<Mutation>) returns (status: Status)
      requires AllValid(stores)
      modifies this`stores
      ensures (Value(), status) == SingleRegion.Batch(old(Value()), mus)
    {
      if mus == [] {
        return Ok;
      }
      status := ProposeAndReplicate(EncodeBatch(mus));
    }

    /** Build the new peer on an empty store from what the leader has. */
    method AddPeer(storeId: nat, id: nat) returns (status: Status)
      modifies this`stores
      ensures (Value(), status) == SingleRegion.AddPeer(old(Value()), storeId, id)
    {
      hide Persist, MutateAll, AppendLog, IsSystemKey;
      var s := 0;
      while s < |stores| && stores[s].storeId != storeId
        invariant 0 <= s <= |stores| && forall j :: 0 <= j < s ==> stores[j].storeId != storeId
      {
        s := s + 1;
      }
      var p := Find(id);
      if s < |stores| || p < |stores| {
        return Error(InvalidArgument);
      }
      var i := Find(leaderId);
      if i == |stores| {
        stores := stores + [Replica(storeId, Peer(FreshState(regionId, id), map[]))];
        return Ok;
      }
      var leader := stores[i].peer;
      var raft := leader.raft;
      if !Restorable(regionId, raft.commitIndex, raft.lastApplied, raft.log) {
        return Error(InvalidArgument);
      }
      var bootstrap := CollectUserPuts(ScanRange(leader.engine, "", ""));
      var engine: Store := map[];
      var k := 0;
      assert raft.log[0..] == raft.log;
      while k < |raft.log|
        invariant 0 <= k <= |raft.log| && stores == old(stores)
        invariant AppendLogs(engine, raft.log[k..]) == AppendLogs(map[], raft.log)
      {
        assert raft.log[k..][0] == raft.log[k] && raft.log[k..][1..] == raft.log[k + 1..];
        engine := AppendLog(engine, raft.log[k]);
        k := k + 1;
      }
      assert raft.log[k..] == [];
      var restored := Restored(FreshState(raft.regionId, id), raft.currentTerm, raft.votedFor, raft.commitIndex, raft.lastApplied, raft.log);
      var stored := Persist(Peer(restored, engine));
      stores := stores + [Replica(storeId, stored.(engine := MutateAll(stored.engine, bootstrap)))];
      return Ok;
    }

    method RemovePeer(id: nat) returns (status: Status)
      modifies this
      ensures (Value(), status) == SingleRegion.RemovePeer(old(Value()), id)
    {
      hide SingleRegion.ElectLeader;
      var i := Find(id);
      if |stores| <= 1 || i == |stores| {
        return Error(InvalidArgument);
      }
      stores := stores[..i] + stores[i + 1..];
      if leaderId == id {
        leaderId := 0;
        status := ElectLeader(Id(stores[0]));
      } else {
        return Ok;
      }
    }
  }

  /** The loop that turns a scan into puts, leaving out system keys. */
  method CollectUserPuts(pairs: seq<(Text, Text)>) returns (mus: seq<Mutation>)
    ensures mus == Puts(Movable(pairs))
  {
    hide IsSystemKey;
    mus := [];
    var i := 0;
    assert pairs[0..] == pairs;
    while i < |pairs|
      invariant 0 <= i <= |pairs|
      invariant mus + Puts(Movable(pairs[i..])) == Puts(Movable(pairs))
    {
      assert pairs[i..][0] == pairs[i] && pairs[i..][1..] == pairs[i + 1..];
      PutsOne(pairs[i], Movable(pairs[i + 1..]));
      assert Movable(pairs[i..]) == if IsSystemKey(pairs[i].0) then Movable(pairs[i + 1..]) else [pairs[i]] + Movable(pairs[i + 1..]);
      if !IsSystemKey(pairs[i].0) {
        mus := mus + [Mutation(KvEngine.Put, pairs[i].0, pairs[i].1)];
      }
      i := i + 1;
    }
    assert pairs[i..] == [];
  }

  lemma PutsOne(x: (Text, Text), rest: seq<(Text, Text)>)
    ensures Puts([x] + rest) == [Mutation(KvEngine.Put, x.0, x.1)] + Puts(rest)
  {
    assert ([x] + rest)[1..] == rest;
  }

  lemma CampaignId(p: Peer)
    ensures Campaign(p).raft.selfId == p.raft.selfId
  {}

  lemma OfferId(p: Peer, command: Text)
    ensures Offer(p, command).raft.selfId == p.raft.selfId
  {}

  lemma ValidContiguous(s: RaftState)
    requires Valid(s)
    ensures Contiguous(s.log)
  {}

  lemma ValidBounds(s: RaftState)
    requires Valid(s)
    ensures s.commitIndex <= |s.log|
  {}

  /** The leader's own state does not enter the count. */
  lemma {:induction false} AcksIgnoreLeader(a: seq<Replica>, b: seq<Replica>, i: nat, leaderId: nat, req: AppendRequest, e: LogEntry)
    requires AllValid(a) && AllValid(b) && WellFormed(req) && |a| == |b|
    requires forall j :: 0 <= j < |a| ==> Id(a[j]) == Id(b[j]) && (Id(a[j]) != leaderId ==> a[j] == b[j])
    ensures Acks(a, leaderId, req, e) == Acks(b, leaderId, req, e)
    decreases |a|
  {
    hide Receive, Valid, WellFormed;
    if a != [] {
      AcksIgnoreLeader(a[..|a| - 1], b[..|b| - 1], i, leaderId, req, e);
    }
  }
}
