/** A peer of the distributed path working with the others: elections, writes and the commit broadcast, each call going
    to the other peer's own handler. */
module RegionGroup {
  import opened Basics
  import opened KvEngine
  import opened RaftCore
  import opened RaftPeer
  import opened RaftStorage
  import opened RegionNode
  import opened RegionServer
  import opened Replication

  // ---- On values ----

  ghost predicate AllValid(peers: seq<Peer>) {
    forall j :: 0 <= j < |peers| ==> Valid(peers[j].raft)
  }

  /** A peer that is asked for its vote; `up` tells whether the call gets through. */
  function Asked(p: Peer, up: bool, req: VoteRequest): Peer {
    if up then OnVote(p, req).0 else p
  }

  function AskAll(peers: seq<Peer>, up: seq<bool>, req: VoteRequest): (r: seq<Peer>)
    requires |up| == |peers|
    ensures |r| == |peers| && forall j :: 0 <= j < |r| ==> r[j] == Asked(peers[j], up[j], req)
  {
    seq(|peers|, j requires 0 <= j < |peers| => Asked(peers[j], up[j], req))
  }

  /** The votes that come back from the first `n` peers. */
  function Grants(peers: seq<Peer>, up: seq<bool>, req: VoteRequest, n: nat): nat
    requires |up| == |peers| && n <= |peers|
  {
    if n == 0 then 0
    else Grants(peers, up, req, n - 1) + if up[n - 1] && OnVote(peers[n - 1], req).1.granted then 1 else 0
  }

  /** A leader stays leader; another peer stands only when PD named it. */
  function EnsureLeader(p: Peer, named: bool, others: seq<Peer>, up: seq<bool>): (Peer, seq<Peer>, Status)
    requires |up| == |others|
  {
    if p.raft.role == Leader then (p, others, Ok)
    else if !named then (p, others, Error(NotLeader))
    else
      var candidate := Campaign(p);
      var req := BallotRequest(candidate.raft);
      var asked := AskAll(others, up, req);
      if 1 + Grants(others, up, req, |others|) <= (|others| + 1) / 2 then (candidate, asked, Error(Internal))
      else (Promote(candidate), asked, Ok)
  }

  function Sent(s: RaftState, p: Peer, next: nat, reach: nat): Outcome
    requires Valid(s) && Valid(p.raft) && 1 <= next
  {
    ReplicateTo(s, p, next, ATTEMPTS, reach)
  }

  lemma {:induction false} SentValid(s: RaftState, p: Peer, next: nat, attempts: nat, reach: nat)
    requires Valid(s) && Valid(p.raft) && 1 <= next
    ensures Valid(ReplicateTo(s, p, next, attempts, reach).follower.raft)
    decreases attempts
  {
    hide OnAppend, BuildAppend, Contiguous;
    if attempts != 0 && reach != 0 && next <= |s.log| + 1 {
      BuiltWellFormed(s, next);
      OnAppendValid(p, BuildAppend(s, next));
      var (g, res) := OnAppend(p, BuildAppend(s, next));
      if !res.success {
        SentValid(s, g, Backoff(res.matchIndex), attempts - 1, reach - 1);
      }
    }
  }

  /** Replication to every other peer; `reach` tells how many calls to each get through. */
  function SendAll(s: RaftState, peers: seq<Peer>, next: nat, reach: seq<nat>): (r: seq<Peer>)
    requires Valid(s) && AllValid(peers) && 1 <= next && |reach| == |peers|
    ensures |r| == |peers| && AllValid(r) && forall j :: 0 <= j < |r| ==> r[j] == Sent(s, peers[j], next, reach[j]).follower
  {
    hide ReplicateTo;
    SentAllValid(s, peers, next, reach);
    seq(|peers|, j requires 0 <= j < |peers| => Sent(s, peers[j], next, reach[j]).follower)
  }

  lemma SentAllValid(s: RaftState, peers: seq<Peer>, next: nat, reach: seq<nat>)
    requires Valid(s) && AllValid(peers) && 1 <= next && |reach| == |peers|
    ensures forall j :: 0 <= j < |peers| ==> Valid(Sent(s, peers[j], next, reach[j]).follower.raft)
  {
    hide ReplicateTo, Valid;
    forall j | 0 <= j < |peers| ensures Valid(Sent(s, peers[j], next, reach[j]).follower.raft) {
      SentValid(s, peers[j], next, ATTEMPTS, reach[j]);
    }
  }

  function Acks(s: RaftState, peers: seq<Peer>, next: nat, reach: seq<nat>, n: nat): nat
    requires Valid(s) && AllValid(peers) && 1 <= next && |reach| == |peers| && n <= |peers|
  {
    if n == 0 then 0
    else Acks(s, peers, next, reach, n - 1) + if Sent(s, peers[n - 1], next, reach[n - 1]).replicated then 1 else 0
  }

  lemma OfferedValid(p: Peer, command: Text)
    requires Valid(p.raft) && p.raft.role == Leader
    ensures var q := Offer(p, command).raft;
            && Valid(q) && |q.log| == |p.raft.log| + 1 && NewEntry(p.raft, Normal, command).index == |q.log|
            && Valid(SetCommitIndex(q, |q.log|))
  {}

  lemma AppliedValid(p: Peer)
    requires Valid(p.raft)
    ensures Valid(ApplyAndPersist(p).0.raft)
  {
    hide Persist, ApplyEntries, ApplyStatus;
  }

  /** A leader's write: append, replicate, and on a majority commit, apply and tell the others. */
  function Write(p: Peer, others: seq<Peer>, command: Text, reach: seq<nat>, again: seq<nat>): (Peer, seq<Peer>, Status)
    requires Valid(p.raft) && p.raft.role == Leader && AllValid(others) && |reach| == |again| == |others|
  {
    hide Valid, Offer, ApplyAndPersist, Sent, SetCommitIndex;
    OfferedValid(p, command);
    var offered := Offer(p, command);
    var n := |offered.raft.log|;
    var sent := SendAll(offered.raft, others, n, reach);
    if 1 + Acks(offered.raft, others, n, reach, |others|) <= (|others| + 1) / 2 then (offered, sent, Error(Internal))
    else
      var committed := offered.(raft := SetCommitIndex(offered.raft, n));
      AppliedValid(committed);
      ValidCommit(committed.raft);
      var (done, status) := ApplyAndPersist(committed);
      if status != Ok then (done, sent, status)
      else (done, SendAll(done.raft, sent, |done.raft.log| + 1, again), Ok)
  }

  lemma ValidCommit(s: RaftState)
    requires Valid(s)
    ensures s.commitIndex <= |s.log| && LastLogIndex(s.log) == |s.log|
  {}

  lemma LeadingValid(p: Peer, named: bool, others: seq<Peer>, up: seq<bool>)
    requires Valid(p.raft) && AllValid(others) && |up| == |others|
    ensures var (q, asked, status) := EnsureLeader(p, named, others, up);
            && Valid(q.raft) && AllValid(asked) && |asked| == |others| && (status == Ok <==> q.raft.role == Leader)
            && q.raft.log == p.raft.log
  {
    hide Persist, Contiguous;
  }

  function Propose(p: Peer, named: bool, others: seq<Peer>, command: Text, up: seq<bool>, reach: seq<nat>, again: seq<nat>): (Peer, seq<Peer>, Status)
    requires Valid(p.raft) && AllValid(others) && |up| == |reach| == |again| == |others|
  {
    hide Valid, AllValid, EnsureLeader, Write;
    LeadingValid(p, named, others, up);
    var (q, asked, status) := EnsureLeader(p, named, others, up);
    if status != Ok then (q, asked, status) else Write(q, asked, command, reach, again)
  }

  // ---- On objects ----

  /** Peers of one region share no state. */
  ghost predicate Apart(others: seq<DistributedRegionNode>) {
    forall i, j :: 0 <= i < j < |others| ==> others[i].raft != others[j].raft && others[i].engine != others[j].engine
  }

  ghost predicate Separate(node: DistributedRegionNode, others: seq<DistributedRegionNode>) {
    Apart(others) && node.raft !in Rafts(others) && node.engine !in EnginesOf(others)
  }

  ghost function Rafts(others: seq<DistributedRegionNode>): set<RaftNode> {
    set o | o in others :: o.raft
  }

  ghost function EnginesOf(others: seq<DistributedRegionNode>): set<FileKvEngine> {
    set o | o in others :: o.engine
  }

  ghost function PeersOf(others: seq<DistributedRegionNode>): (r: seq<Peer>)
    reads Rafts(others), EnginesOf(others)
    ensures |r| == |others| && forall i :: 0 <= i < |r| ==> r[i] == others[i].AsPeer()
  {
    if others == [] then []
    else
      var n := |others| - 1;
      assert forall o :: o in others[..n] ==> o in others;
      assert others[n] in others;
      PeersOf(others[..n]) + [others[n].AsPeer()]
  }

  lemma GoodPushed(log: seq<LogEntry>, e: LogEntry)
    ensures GoodEntries(log) && GoodCommand(e.command) ==> GoodEntries(log + [e])
  {
    hide GoodCommand;
  }

  lemma InParts(others: seq<DistributedRegionNode>)
    ensures forall i :: 0 <= i < |others| ==> others[i].raft in Rafts(others) && others[i].engine in EnginesOf(others)
  {
    assert forall i :: 0 <= i < |others| ==> others[i] in others;
  }

  /** The election loop over the other peers. */
  method AskOthers(others: seq<DistributedRegionNode>, up: seq<bool>, request: VoteRequest) returns (votes: nat)
    requires Apart(others) && |up| == |others|
    modifies Rafts(others), EnginesOf(others)
    ensures PeersOf(others) == AskAll(old(PeersOf(others)), up, request)
    ensures votes == 1 + Grants(old(PeersOf(others)), up, request, |others|)
  {
    hide OnVote, Replayed, PeersOf, Rafts, EnginesOf, AskAll;
    ghost var before := PeersOf(others);
    InParts(others);
    votes := 1;
    var k := 0;
    while k < |others|
      invariant 0 <= k <= |others|
      invariant forall j :: 0 <= j < k ==> others[j].AsPeer() == Asked(before[j], up[j], request)
      invariant forall j :: k <= j < |others| ==> others[j].AsPeer() == before[j]
      invariant votes == 1 + Grants(before, up, request, k)
    {
      if up[k] {
        var response := others[k].HandleRequestVote(request);
        if response.granted {
          votes := votes + 1;
        }
      }
      k := k + 1;
    }
    assert PeersOf(others) == AskAll(before, up, request);
  }

  method Elect(node: DistributedRegionNode, others: seq<DistributedRegionNode>, up: seq<bool>) returns (status: Status)
    requires Separate(node, others) && |up| == |others|
    modifies node.raft, node.engine, Rafts(others), EnginesOf(others)
    ensures (node.AsPeer(), PeersOf(others), status)
         == EnsureLeader(old(node.AsPeer()), node.leaderHint == node.raft.selfId, old(PeersOf(others)), up)
    ensures old(node.engine.Durable()) ==> node.engine.Durable()
  {
    hide OnVote, Persist, BallotRequest, Replayed, PeersOf, Rafts, EnginesOf, AskAll, Grants, Apart;
    if node.raft.role == Leader {
      return Ok;
    }
    if node.raft.selfId != node.leaderHint {
      return Error(NotLeader);
    }
    ghost var before := PeersOf(others);
    InParts(others);
    node.raft.BecomeCandidate();
    node.PersistHardState();
    assert PeersOf(others) == before;
    var votes := AskOthers(others, up, BallotRequest(node.raft.State()));
    if votes <= (|others| + 1) / 2 {
      return Error(Internal);
    }
    ghost var asked := PeersOf(others);
    node.raft.BecomeLeader();
    node.PersistHardState();
    assert PeersOf(others) == asked;
    return Ok;
  }

  /** A leader transfer is sent to its target, which takes the hint and stands. */
  method TransferLeader(node: DistributedRegionNode, others: seq<DistributedRegionNode>, up: seq<bool>, target: nat) returns (status: Status)
    requires Separate(node, others) && |up| == |others|
    modifies node, node.raft, node.engine, Rafts(others), EnginesOf(others)
    ensures target != node.raft.selfId ==>
              status == Error(NotLeader) && node.AsPeer() == old(node.AsPeer()) && PeersOf(others) == old(PeersOf(others))
    ensures target == node.raft.selfId ==>
              (node.AsPeer(), PeersOf(others), status) == EnsureLeader(old(node.AsPeer()), true, old(PeersOf(others)), up)
  {
    hide PeersOf, Rafts, EnginesOf, Apart, EnsureLeader;
    if target != node.raft.selfId {
      return Error(NotLeader);
    }
    node.leaderHint := target;
    status := Elect(node, others, up);
  }

  /** The replication loop of proposals and of the commit broadcast. */
  method SendOthers(node: DistributedRegionNode, others: seq<DistributedRegionNode>, next: nat, reach: seq<nat>) returns (acks: nat)
    requires Separate(node, others) && |reach| == |others| && 1 <= next && Valid(node.raft.State()) && AllValid(PeersOf(others))
    modifies Rafts(others), EnginesOf(others)
    ensures node.AsPeer() == old(node.AsPeer())
    ensures PeersOf(others) == SendAll(node.raft.State(), old(PeersOf(others)), next, reach)
    ensures acks == 1 + Acks(node.raft.State(), old(PeersOf(others)), next, reach, |others|)
  {
    hide ReplicateTo, Replayed, PeersOf, Valid, GoodEntries, Rafts, EnginesOf;
    ghost var before, s := PeersOf(others), node.raft.State();
    InParts(others);
    acks := 1;
    var k := 0;
    while k < |others|
      invariant 0 <= k <= |others| && node.AsPeer() == old(node.AsPeer())
      invariant forall j :: 0 <= j < k ==> others[j].AsPeer() == Sent(s, before[j], next, reach[j]).follower
      invariant forall j :: k <= j < |others| ==> others[j].AsPeer() == before[j]
      invariant acks == 1 + Acks(s, before, next, reach, k)
    {
      var ok := ReplicateToStore(node, others[k], next, reach[k]);
      if ok {
        acks := acks + 1;
      }
      k := k + 1;
    }
    assert PeersOf(others) == SendAll(s, before, next, reach);
  }

  /** A write by a leader, through to the commit broadcast. */
  method Replicate(node: DistributedRegionNode, others: seq<DistributedRegionNode>, command: Text, reach: seq<nat>, again: seq<nat>)
    returns (status: Status)
    requires Separate(node, others) && |reach| == |again| == |others|
    requires Valid(node.raft.State()) && node.raft.role == Leader && AllValid(PeersOf(others))
    modifies node.raft, node.engine, Rafts(others), EnginesOf(others)
    ensures (node.AsPeer(), PeersOf(others), status) == Write(old(node.AsPeer()), old(PeersOf(others)), command, reach, again)
    ensures old(node.engine.Durable()) && GoodEntries(old(node.raft.log)) && GoodCommand(command) ==> node.engine.Durable()
  {
    hide Persist, Replayed, PeersOf, Rafts, EnginesOf, Apart, Valid, AppendLog, ApplyEntries, ApplyStatus, SendAll, Acks, AllValid, GoodEntries, Pending, MarkApplied;
    ghost var before, peers := node.AsPeer(), PeersOf(others);
    InParts(others);
    OfferedValid(before, command);
    GoodPushed(before.raft.log, NewEntry(before.raft, Normal, command));
    hide GoodCommand;
    var entry := node.raft.Propose(Normal, command);
    Append(node.engine, entry.value);
    assert node.AsPeer() == Offer(before, command) && PeersOf(others) == peers;
    var replicated := SendOthers(node, others, entry.value.index, reach);
    if replicated <= (|others| + 1) / 2 {
      return Error(Internal);
    }
    ghost var sent := PeersOf(others);
    node.raft.SetCommitIndex(entry.value.index);
    ghost var committed := node.AsPeer();
    AppliedValid(committed);
    ValidCommit(committed.raft);
    status := node.ApplyCommitted();
    assert PeersOf(others) == sent;
    if status != Ok {
      return;
    }
    node.PersistHardState();
    assert PeersOf(others) == sent;
    ValidCommit(node.raft.State());
    var _ := SendOthers(node, others, LastLogIndex(node.raft.log) + 1, again);
  }

  /** A client's write: become leader if need be, then replicate. */
  method ProposeAndReplicate(node: DistributedRegionNode, others: seq<DistributedRegionNode>, command: Text,
                             up: seq<bool>, reach: seq<nat>, again: seq<nat>) returns (status: Status)
    requires Separate(node, others) && |up| == |reach| == |again| == |others|
    requires Valid(node.raft.State()) && AllValid(PeersOf(others))
    modifies node.raft, node.engine, Rafts(others), EnginesOf(others)
    ensures (node.AsPeer(), PeersOf(others), status)
         == Propose(old(node.AsPeer()), node.leaderHint == node.raft.selfId, old(PeersOf(others)), command, up, reach, again)
    ensures old(node.engine.Durable()) && GoodEntries(old(node.raft.log)) && GoodCommand(command) ==> node.engine.Durable()
  {
    hide PeersOf, Rafts, EnginesOf, Apart, Valid, AllValid, EnsureLeader, Write;
    LeadingValid(node.AsPeer(), node.leaderHint == node.raft.selfId, PeersOf(others), up);
    hide GoodEntries, GoodCommand, Replayed;
    status := Elect(node, others, up);
    if status != Ok {
      return;
    }
    status := Replicate(node, others, command, reach, again);
  }

  // ---- What a write achieves ----

  /** A peer whose log is a prefix of the leader's, at no higher term, in order with its storage. */
  ghost predicate Behind(s: RaftState, p: Peer) {
    PeerOk(p) && p.raft.regionId == s.regionId && p.raft.log <= s.log && p.raft.currentTerm <= s.currentTerm
  }

  /** Same log, all of it committed and applied, same user data. */
  ghost predicate Level(leader: Peer, p: Peer) {
    && p.raft.log == leader.raft.log
    && p.raft.lastApplied == p.raft.commitIndex == leader.raft.lastApplied == leader.raft.commitIndex == |leader.raft.log|
    && UserMap(p.engine) == UserMap(leader.engine)
  }

  /** Enough calls to a peer get through for it to take the next entry: one if it has the leader's log, two otherwise. */
  predicate Reached(s: RaftState, p: Peer, reach: nat) {
    reach >= if p.raft.log == s.log then 1 else 2
  }

  function CountReached(s: RaftState, peers: seq<Peer>, reach: seq<nat>, n: nat): nat
    requires |reach| == |peers| && n <= |peers|
  {
    if n == 0 then 0 else CountReached(s, peers, reach, n - 1) + if Reached(s, peers[n - 1], reach[n - 1]) then 1 else 0
  }

  /** The leader's log after the proposal, and what the peers behind it look like from there. */
  lemma BehindOffered(p: Peer, f: Peer, command: Text)
    requires PeerOk(p) && p.raft.role == Leader && GoodCommand(command) && |p.raft.log| < MAX_U64 && Behind(p.raft, f)
    ensures var s := Offer(p, command).raft;
            && Valid(s) && GoodLog(s.regionId, s.log) && |s.log| == |p.raft.log| + 1 && s.commitIndex == p.raft.commitIndex
            && Behind(s, f) && Valid(f.raft) && (CallsNeeded(f.raft, |s.log|) == if f.raft.log == p.raft.log then 1 else 2)
  {
    hide GoodCommand, Stored, HardStateKept, UserMap, ApplyEntries, AppendLog, GoodEntries, Storable;
    OfferLog(p, command);
    OfferedValid(p, command);
    var s := Offer(p, command).raft;
    assert p.raft.log <= s.log;
    if |f.raft.log| == |p.raft.log| {
      assert f.raft.log == p.raft.log;
    }
  }

  /** One peer in the first round: it acknowledges exactly when it is reached, and is then at the leader's log. */
  lemma FirstRound(p: Peer, f: Peer, command: Text, reach: nat)
    requires PeerOk(p) && p.raft.role == Leader && GoodCommand(command) && |p.raft.log| < MAX_U64 && Behind(p.raft, f)
    ensures var s := Offer(p, command).raft;
            && Valid(s) && Valid(f.raft)
            && var o := Sent(s, f, |s.log|, reach);
            && (o.replicated <==> Reached(p.raft, f, reach))
            && Behind(s, o.follower)
            && (o.replicated ==> o.follower.raft.log == s.log)
  {
    hide GoodCommand, PeerOk, GoodLog, Offer, ReplicateTo, Valid;
    BehindOffered(p, f, command);
    var s := Offer(p, command).raft;
    CatchUp(s, f, |s.log|, ATTEMPTS, reach);
    CatchUpKeepsPeer(s, f, |s.log|, ATTEMPTS, reach);
  }

  lemma {:induction false} AcksAreReached(p: Peer, others: seq<Peer>, command: Text, reach: seq<nat>, n: nat)
    requires PeerOk(p) && p.raft.role == Leader && GoodCommand(command) && |p.raft.log| < MAX_U64
    requires |reach| == |others| && n <= |others| && forall j :: 0 <= j < |others| ==> Behind(p.raft, others[j])
    ensures var s := Offer(p, command).raft;
            Valid(s) && AllValid(others) && 1 <= |s.log| && Acks(s, others, |s.log|, reach, n) == CountReached(p.raft, others, reach, n)
  {
    hide GoodCommand, PeerOk, Offer, Sent, Valid, Reached;
    BehindAllValid(p, others);
    LeaderValid(p, command);
    if n > 0 {
      AcksAreReached(p, others, command, reach, n - 1);
      FirstRound(p, others[n - 1], command, reach[n - 1]);
    }
  }

  lemma LeaderValid(p: Peer, command: Text)
    requires PeerOk(p) && p.raft.role == Leader
    ensures Valid(p.raft) && Valid(Offer(p, command).raft) && |Offer(p, command).raft.log| == |p.raft.log| + 1
  {
    PeerValid(p);
    OfferedValid(p, command);
  }

  lemma BehindAllValid(p: Peer, others: seq<Peer>)
    requires forall j :: 0 <= j < |others| ==> Behind(p.raft, others[j])
    ensures AllValid(others)
  {
    hide PeerOk;
    forall j | 0 <= j < |others| ensures Valid(others[j].raft) {
      PeerValid(others[j]);
    }
  }

  /** The leader after the commit. */
  lemma LeaderDone(p: Peer, command: Text)
    requires PeerOk(p) && p.raft.role == Leader && GoodCommand(command) && |p.raft.log| < MAX_U64
    ensures var offered := Offer(p, command);
            && Valid(offered.raft) && Valid(SetCommitIndex(offered.raft, |offered.raft.log|))
            && var (done, status) := ApplyAndPersist(offered.(raft := SetCommitIndex(offered.raft, |offered.raft.log|)));
            && status == Ok && PeerOk(done) && done == CommitLast(offered)
            && done.raft == offered.raft.(commitIndex := |offered.raft.log|, lastApplied := |offered.raft.log|)
  {
    hide GoodCommand, Stored, HardStateKept, UserMap, ApplyEntries, AppendLog, Persist, ApplyStatus, Storable;
    LeaderValid(p, command);
    OfferKeepsPeer(p, command);
    var offered := Offer(p, command);
    OfferedValid(p, command);
    ValidCommit(offered.raft);
    CommitKeepsPeer(offered);
    PendingGood(offered.(raft := SetCommitIndex(offered.raft, |offered.raft.log|)));
  }

  /** One peer in the broadcast: with enough calls it ends level with the leader. */
  lemma SecondRound(done: Peer, f: Peer, reach: nat)
    requires PeerOk(done) && done.raft.lastApplied == done.raft.commitIndex == |done.raft.log| && Behind(done.raft, f)
    ensures Valid(done.raft) && Valid(f.raft)
    ensures var o := Sent(done.raft, f, |done.raft.log| + 1, reach);
            && PeerOk(o.follower)
            && (o.replicated <==> Reached(done.raft, f, reach))
            && (o.replicated ==> Level(done, o.follower))
  {
    hide PeerOk, ReplicateTo, Valid, UserMap;
    PeerValid(done);
    PeerValid(f);
    var s := done.raft;
    PeerLog(done);
    PrefixCalls(s, f.raft);
    CommitBound(f);
    CatchUp(s, f, |s.log| + 1, ATTEMPTS, reach);
    CatchUpKeepsPeer(s, f, |s.log| + 1, ATTEMPTS, reach);
    var o := Sent(s, f, |s.log| + 1, reach);
    if o.replicated {
      SameApplied(done, o.follower);
    }
  }

  lemma PeerLog(p: Peer)
    requires PeerOk(p)
    ensures GoodLog(p.raft.regionId, p.raft.log)
  {}

  lemma CommitBound(p: Peer)
    requires PeerOk(p)
    ensures p.raft.commitIndex <= |p.raft.log|
  {}

  lemma PrefixCalls(s: RaftState, f: RaftState)
    requires f.log <= s.log
    ensures CallsNeeded(f, |s.log| + 1) == if f.log == s.log then 1 else 2
  {
    if |f.log| == |s.log| {
      assert f.log == s.log;
    }
  }

  lemma SameApplied(a: Peer, b: Peer)
    requires PeerOk(a) && PeerOk(b) && a.raft.log == b.raft.log && a.raft.lastApplied == b.raft.lastApplied
    ensures UserMap(a.engine) == UserMap(b.engine)
  {
    hide UserMap, ApplyEntries, Stored, HardStateKept, GoodLog;
  }

  /** A write by a leader whose peers are behind it. It succeeds exactly when those that can be reached are a majority
      together with it. Then the entry is committed and applied, and every peer that the broadcast reaches, whatever it
      missed before, ends with the leader's log and data. */
  lemma WriteOutcome(p: Peer, others: seq<Peer>, command: Text, reach: seq<nat>, again: seq<nat>)
    requires PeerOk(p) && p.raft.role == Leader && GoodCommand(command) && |p.raft.log| < MAX_U64
    requires |reach| == |again| == |others| && forall j :: 0 <= j < |others| ==> Behind(p.raft, others[j])
    ensures Valid(p.raft) && AllValid(others)
    ensures var (q, after, status) := Write(p, others, command, reach, again);
            && |after| == |others|
            && (status == Ok <==> 1 + CountReached(p.raft, others, reach, |others|) > (|others| + 1) / 2)
            && (status == Ok ==>
                  && PeerOk(q) && q.raft.log == p.raft.log + [NewEntry(p.raft, Normal, command)]
                  && q.raft.lastApplied == q.raft.commitIndex == |q.raft.log|
                  && forall j :: 0 <= j < |others| ==>
                       && PeerOk(after[j])
                       && (again[j] >= (if Reached(p.raft, others[j], reach[j]) then 1 else 2) ==> Level(q, after[j])))
            && (status != Ok ==> status == Error(Internal) && q == Offer(p, command))
  {
    hide GoodCommand, PeerOk, Offer, Sent, Valid, Reached, Level, ApplyAndPersist, SetCommitIndex, CommitLast, SendAll, Acks, CountReached;
    BehindAllValid(p, others);
    LeaderValid(p, command);
    AcksAreReached(p, others, command, reach, |others|);
    LeaderDone(p, command);
    OfferLogIs(p, command);
    var (q, after, status) := Write(p, others, command, reach, again);
    if status == Ok {
      forall j | 0 <= j < |others|
        ensures PeerOk(after[j]) && (again[j] >= (if Reached(p.raft, others[j], reach[j]) then 1 else 2) ==> Level(q, after[j]))
      {
        PeerOutcome(p, q, others[j], command, reach[j], again[j]);
      }
    }
  }

  lemma OfferLogIs(p: Peer, command: Text)
    requires p.raft.role == Leader
    ensures Offer(p, command).raft.log == p.raft.log + [NewEntry(p.raft, Normal, command)]
  {}

  /** Both rounds for one peer. */
  lemma PeerOutcome(p: Peer, q: Peer, f: Peer, command: Text, reach: nat, again: nat)
    requires PeerOk(p) && p.raft.role == Leader && GoodCommand(command) && |p.raft.log| < MAX_U64 && Behind(p.raft, f)
    requires PeerOk(q) && q.raft == Offer(p, command).raft.(commitIndex := |q.raft.log|, lastApplied := |q.raft.log|)
    ensures Valid(Offer(p, command).raft) && Valid(q.raft) && Valid(f.raft) && 1 <= |Offer(p, command).raft.log|
    ensures var mid := Sent(Offer(p, command).raft, f, |Offer(p, command).raft.log|, reach).follower;
            && Valid(mid.raft)
            && var o := Sent(q.raft, mid, |q.raft.log| + 1, again);
            && PeerOk(o.follower) && (again >= (if Reached(p.raft, f, reach) then 1 else 2) ==> Level(q, o.follower))
  {
    hide GoodCommand, PeerOk, Offer, Sent, Valid, Level;
    LeaderValid(p, command);
    FirstRound(p, f, command, reach);
    var mid := Sent(Offer(p, command).raft, f, |Offer(p, command).raft.log|, reach).follower;
    SecondRound(q, mid, again);
  }
}
