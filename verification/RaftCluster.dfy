/** The distributed Raft path as a step system: the peers of one region, the messages they ever sent,
    and every way the cluster can move. */
module RaftCluster {
  import opened Basics
  import opened RaftCore
  import opened RegionNode

  /** Where a peer is inside its own operation. Its RPC handlers run only in `Idle`. */
  datatype Phase = Idle | Campaigning(votes: set<nat>) | Replicating(acks: set<nat>) | Broadcasting

  datatype Node = Node(peer: Peer, phase: Phase)

  /** Messages are never removed, so each may be delivered late, several times or not at all.
      A reply carries its request: every call has a connection of its own. */
  datatype Message =
    | VoteAsk(to: nat, vote: VoteRequest)
    | VoteReply(from: nat, vote: VoteRequest, granted: bool)
    | AppendAsk(to: nat, append: AppendRequest)
    | AppendReply(from: nat, append: AppendRequest, success: bool)

  datatype Cluster = Cluster(regionId: nat, nodes: map<nat, Node>, net: set<Message>)

  datatype Step =
    | StartElection(n: nat)
    | DeliverVote(n: nat, vote: VoteRequest)
    | CountVote(n: nat, from: nat)
    | Win(n: nat)
    | ProposeEntry(n: nat, command: Text)
    | SendAppend(n: nat, to: nat, next: nat)
    | DeliverAppend(n: nat, append: AppendRequest)
    | CountAck(n: nat, from: nat, next: nat)
    | Commit(n: nat)
    | Finish(n: nat)
    | Crash(n: nat)

  predicate IsMajority(c: Cluster, q: set<nat>) {
    |q| > |c.nodes| / 2
  }

  function Raft(c: Cluster, n: nat): RaftState
    requires n in c.nodes
  {
    c.nodes[n].peer.raft
  }

  ghost predicate Enabled(c: Cluster, step: Step) {
    && step.n in c.nodes
    && var node := c.nodes[step.n];
    var raft := node.peer.raft;
    match step
    case StartElection(n) => node.phase == Idle && raft.role != Leader && raft.currentTerm < MAX_U64
    case DeliverVote(n, vote) => node.phase == Idle && VoteAsk(n, vote) in c.net
    case CountVote(n, from) =>
      node.phase.Campaigning? && from in c.nodes && VoteReply(from, BallotRequest(raft), true) in c.net
    case Win(n) => node.phase.Campaigning? && IsMajority(c, node.phase.votes)
    case ProposeEntry(n, command) => node.phase == Idle && raft.role == Leader && |raft.log| < MAX_U64 && GoodCommand(command)
    case SendAppend(n, to, next) =>
      (node.phase.Replicating? || node.phase.Broadcasting?) && to in c.nodes && to != n && 1 <= next <= |raft.log| + 1
    case DeliverAppend(n, append) =>
      node.phase == Idle && AppendAsk(n, append) in c.net && Valid(raft) && WellFormed(append)
    case CountAck(n, from, next) =>
      node.phase.Replicating? && from in c.nodes && 1 <= next <= |raft.log| + 1
      && AppendReply(from, BuildAppend(raft, next), true) in c.net
    case Commit(n) => node.phase.Replicating? && IsMajority(c, node.phase.acks) && Valid(raft)
    case Finish(n) => true
    case Crash(n) => true
  }

  function Ballots(c: Cluster, n: nat, vote: VoteRequest): set<Message> {
    set to | to in c.nodes && to != n :: VoteAsk(to, vote)
  }

  ghost function Take(c: Cluster, step: Step): Cluster
    requires Enabled(c, step)
  {
    var node := c.nodes[step.n];
    match step
    case StartElection(n) =>
      var p := Campaign(node.peer);
      Cluster(c.regionId, c.nodes[n := Node(p, Campaigning({n}))], c.net + Ballots(c, n, BallotRequest(p.raft)))
    case DeliverVote(n, vote) =>
      var (p, res) := OnVote(node.peer, vote);
      Cluster(c.regionId, c.nodes[n := node.(peer := p)], c.net + {VoteReply(n, vote, res.granted)})
    case CountVote(n, from) =>
      c.(nodes := c.nodes[n := node.(phase := Campaigning(node.phase.votes + {from}))])
    case Win(n) =>
      c.(nodes := c.nodes[n := Node(Promote(node.peer), Idle)])
    case ProposeEntry(n, command) =>
      c.(nodes := c.nodes[n := Node(Offer(node.peer, command), Replicating({n}))])
    case SendAppend(n, to, next) =>
      c.(net := c.net + {AppendAsk(to, BuildAppend(node.peer.raft, next))})
    case DeliverAppend(n, append) =>
      var (p, res) := OnAppend(node.peer, append);
      Cluster(c.regionId, c.nodes[n := node.(peer := p)], c.net + {AppendReply(n, append, res.success)})
    case CountAck(n, from, next) =>
      c.(nodes := c.nodes[n := node.(phase := Replicating(node.phase.acks + {from}))])
    case Commit(n) =>
      c.(nodes := c.nodes[n := Node(CommitLast(node.peer), Broadcasting)])
    case Finish(n) =>
      c.(nodes := c.nodes[n := node.(phase := Idle)])
    case Crash(n) =>
      c.(nodes := c.nodes[n := Node(Reboot(node.peer), Idle)])
  }

  /** Every peer starts with an empty store. */
  ghost predicate Init(c: Cluster) {
    && c.net == {}
    && c.nodes != map[] && 0 !in c.nodes
    && forall n :: n in c.nodes ==> c.nodes[n] == Node(Peer(FreshState(c.regionId, n), map[]), Idle)
  }

  /** A run: `states[k + 1]` follows from `states[k]` by `steps[k]`. */
  ghost predicate IsRun(states: seq<Cluster>, steps: seq<Step>) {
    && |states| == |steps| + 1
    && Init(states[0])
    && forall k :: 0 <= k < |steps| ==> Enabled(states[k], steps[k]) && states[k + 1] == Take(states[k], steps[k])
  }
}
