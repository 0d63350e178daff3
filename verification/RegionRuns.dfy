/** What the peers of a region decide together, with every field written out, and why it is safe: each call of
    `RegionGroup` is a sequence of steps of `RaftCluster`, so all that holds over every run holds through it. */
module RegionRuns {
  import opened Basics
  import opened RaftCore
  import opened RegionNode
  import opened Replication
  import opened RegionGroup
  import opened RaftCluster
  import RaftHistory
  import RaftSafety

  // ---- The decisions ----

  /** The positions of the peers that are reached and grant their vote. */
  ghost function Granting(others: seq<Peer>, up: seq<bool>, req: VoteRequest, n: nat): set<nat>
    requires |up| == |others| && n <= |others|
  {
    set j: nat | j < n && up[j] && OnVote(others[j], req).1.granted
  }

  lemma {:induction false} GrantsAreVoters(others: seq<Peer>, up: seq<bool>, req: VoteRequest, n: nat)
    requires |up| == |others| && n <= |others|
    ensures Grants(others, up, req, n) == |Granting(others, up, req, n)|
  {
    hide OnVote;
    if n > 0 {
      GrantsAreVoters(others, up, req, n - 1);
      var yes := up[n - 1] && OnVote(others[n - 1], req).1.granted;
      assert Granting(others, up, req, n) == Granting(others, up, req, n - 1) + if yes then {n - 1} else {};
    }
  }

  /** Who leads after a client's call. A leader stays; a peer that PD does not name does nothing; a named one stands in the
      next term, votes for itself and leads exactly when it and those that grant their votes are more than half. */
  lemma ElectExactly(p: Peer, named: bool, others: seq<Peer>, up: seq<bool>)
    requires |up| == |others|
    ensures var (q, asked, status) := EnsureLeader(p, named, others, up);
            var s := p.raft;
            var req := VoteRequest(s.currentTerm + 1, s.selfId, if s.log == [] then 0 else s.log[|s.log| - 1].index,
                                   if s.log == [] then 0 else s.log[|s.log| - 1].term);
            var won := 2 * (1 + |Granting(others, up, req, |others|)|) > |others| + 1;
            && |asked| == |others|
            && (s.role == Leader ==> status == Ok && q == p && asked == others)
            && (s.role != Leader && !named ==> status == Error(NotLeader) && q == p && asked == others)
            && (s.role != Leader && named ==>
                  && status == (if won then Ok else Error(Internal))
                  && q.raft == s.(role := if won then Leader else Candidate, currentTerm := s.currentTerm + 1, votedFor := Some(s.selfId))
                  && forall j :: 0 <= j < |others| ==> asked[j] == if up[j] then OnVote(others[j], req).0 else others[j])
  {
    hide OnVote;
    GrantsAreVoters(others, up, BallotRequest(Campaign(p).raft), |others|);
  }

  /** The positions of the peers that acknowledge the leader's log. */
  ghost function Acknowledging(s: RaftState, others: seq<Peer>, reach: seq<nat>, n: nat): set<nat>
    requires Valid(s) && s.log != [] && AllValid(others) && |reach| == |others| && n <= |others|
  {
    set j: nat | j < n && Sent(s, others[j], |s.log|, reach[j]).replicated
  }

  lemma {:induction false} AcksAreVoters(s: RaftState, others: seq<Peer>, reach: seq<nat>, n: nat)
    requires Valid(s) && s.log != [] && AllValid(others) && |reach| == |others| && n <= |others|
    ensures Acks(s, others, |s.log|, reach, n) == |Acknowledging(s, others, reach, n)|
  {
    hide Sent, Valid;
    if n > 0 {
      AcksAreVoters(s, others, reach, n - 1);
      var yes := Sent(s, others[n - 1], |s.log|, reach[n - 1]).replicated;
      assert Acknowledging(s, others, reach, n) == Acknowledging(s, others, reach, n - 1) + if yes then {n - 1} else {};
    }
  }

  ghost function Grown(s: RaftState, command: Text): RaftState {
    s.(log := s.log + [LogEntry(s.regionId, |s.log| + 1, s.currentTerm, Normal, command)])
  }

  lemma OfferGrows(p: Peer, command: Text)
    requires Valid(p.raft) && p.raft.role == Leader
    ensures Offer(p, command).raft == Grown(p.raft, command) && Valid(Grown(p.raft, command))
  {}

  lemma CommitAll(s: RaftState)
    requires Valid(s)
    ensures SetCommitIndex(s, |s.log|) == s.(commitIndex := |s.log|)
    ensures MarkApplied(s.(commitIndex := |s.log|)) == s.(commitIndex := |s.log|, lastApplied := |s.log|)
    ensures Pending(s.(commitIndex := |s.log|)) == s.log[s.lastApplied..]
    ensures Valid(s.(commitIndex := |s.log|, lastApplied := |s.log|))
  {
    assert s.log[s.lastApplied..|s.log|] == s.log[s.lastApplied..];
  }

  /** A leader's write, whatever its peers hold. The entry stays in its log; it is committed exactly when the leader and those
      that acknowledge are more than half, and the peers hear of the commit exactly when all that was pending applied. */
  lemma WriteExactly(p: Peer, others: seq<Peer>, command: Text, reach: seq<nat>, again: seq<nat>)
    requires Valid(p.raft) && p.raft.role == Leader && AllValid(others) && |reach| == |again| == |others|
    ensures Valid(Grown(p.raft, command))
    ensures var (q, after, status) := Write(p, others, command, reach, again);
            var s := Grown(p.raft, command);
            var n := |s.log|;
            var won := 2 * (1 + |Acknowledging(s, others, reach, |others|)|) > |others| + 1;
            && |after| == |others|
            && status == (if won then ApplyStatus(s.log[s.lastApplied..]) else Error(Internal))
            && q.raft == (if won then s.(commitIndex := n, lastApplied := n) else s)
            && (status == Ok ==> Valid(q.raft))
            && forall j :: 0 <= j < |others| ==>
                 var sent := Sent(s, others[j], n, reach[j]).follower;
                 && Valid(sent.raft)
                 && after[j] == if status == Ok then Sent(q.raft, sent, n + 1, again[j]).follower else sent
  {
    hide Valid, Offer, Sent, SetCommitIndex, Persist, ApplyEntries, ApplyStatus, Acks, Acknowledging, Pending, MarkApplied;
    OfferGrows(p, command);
    CommitAll(Grown(p.raft, command));
    AcksAreVoters(Grown(p.raft, command), others, reach, |others|);
  }

  // ---- Steps of the protocol ----

  /** `steps` lead from `c` to `d`. */
  ghost predicate Leads(c: Cluster, steps: seq<Step>, d: Cluster)
    decreases |steps|
  {
    if steps == [] then c == d else Enabled(c, steps[0]) && Leads(Take(c, steps[0]), steps[1..], d)
  }

  lemma {:induction false} LeadsOn(c: Cluster, a: seq<Step>, d: Cluster, b: seq<Step>, e: Cluster)
    requires Leads(c, a, d) && Leads(d, b, e)
    ensures Leads(c, a + b, e)
    decreases |a|
  {
    hide Enabled, Take;
    if a == [] {
      assert a + b == b;
    } else {
      LeadsOn(Take(c, a[0]), a[1..], d, b, e);
      assert (a + b)[1..] == a[1..] + b;
    }
  }

  lemma OneStep(c: Cluster, step: Step)
    requires Enabled(c, step)
    ensures Leads(c, [step], Take(c, step))
  {
    hide Enabled, Take;
    assert Leads(Take(c, step), [], Take(c, step));
    assert [step][1..] == [];
  }

  /** A run goes on with the steps that lead on from its last state. */
  lemma {:induction false} RunsOn(states: seq<Cluster>, steps: seq<Step>, more: seq<Step>, d: Cluster) returns (all: seq<Cluster>)
    requires IsRun(states, steps) && Leads(states[|steps|], more, d)
    ensures IsRun(all, steps + more) && states <= all && all[|steps + more|] == d
    decreases |more|
  {
    hide Enabled, Take, Init;
    if more == [] {
      assert steps + more == steps;
      all := states;
    } else {
      var last := states[|steps|];
      all := RunsOn(states + [Take(last, more[0])], steps + [more[0]], more[1..], d);
      assert steps + [more[0]] + more[1..] == steps + more;
    }
  }

  ghost function Members(ids: seq<nat>): set<nat> {
    set m | m in ids
  }

  /** Peer `n` and the others in order, the whole region, each of the others between two calls. */
  ghost predicate Region(c: Cluster, n: nat, ids: seq<nat>) {
    && n !in ids && Distinct(ids)
    && c.nodes.Keys == {n} + Members(ids)
    && forall j :: 0 <= j < |ids| ==> c.nodes[ids[j]].phase == Idle
  }

  ghost function PeersAt(c: Cluster, ids: seq<nat>): seq<Peer>
    requires forall j :: 0 <= j < |ids| ==> ids[j] in c.nodes
  {
    seq(|ids|, j requires 0 <= j < |ids| => c.nodes[ids[j]].peer)
  }

  lemma {:induction false} DistinctSize(ids: seq<nat>)
    requires Distinct(ids)
    ensures |Members(ids)| == |ids|
  {
    if ids != [] {
      var k := |ids| - 1;
      DistinctSize(ids[..k]);
      assert ids[k] !in ids[..k];
      assert Members(ids) == Members(ids[..k]) + {ids[k]};
    }
  }

  lemma RegionParts(c: Cluster, n: nat, ids: seq<nat>)
    requires Region(c, n, ids)
    ensures n in c.nodes && forall j :: 0 <= j < |ids| ==> ids[j] in c.nodes && ids[j] != n
  {
    assert forall j :: 0 <= j < |ids| ==> ids[j] in ids;
  }

  lemma RegionSize(c: Cluster, n: nat, ids: seq<nat>)
    requires Region(c, n, ids)
    ensures |c.nodes| == |ids| + 1
  {
    DistinctSize(ids);
    assert n !in Members(ids);
    assert |c.nodes.Keys| == |ids| + 1;
  }

  /** The caller counts an answer of peer `m` while it is counting. */
  ghost function Counted(phase: Phase, m: nat, yes: bool): Phase {
    if !yes then phase
    else
      match phase
      case Campaigning(votes) => Campaigning(votes + {m})
      case Replicating(acks) => Replicating(acks + {m})
      case _ => phase
  }

  /** From `c` the first `k` of the others came to `peers`, and `n` has counted up to `phase`. */
  ghost predicate Called(c: Cluster, d: Cluster, n: nat, ids: seq<nat>, peers: seq<Peer>, k: nat, phase: Phase)
    requires Region(c, n, ids) && k <= |ids| == |peers|
  {
    && Region(d, n, ids) && d.regionId == c.regionId && c.net <= d.net
    && d.nodes[n] == Node(c.nodes[n].peer, phase)
    && (forall j :: 0 <= j < k ==> d.nodes[ids[j]].peer == peers[j])
    && (forall j :: k <= j < |ids| ==> d.nodes[ids[j]] == c.nodes[ids[j]])
  }

  /** One more call. */
  lemma CalledOn(c: Cluster, d: Cluster, e: Cluster, n: nat, ids: seq<nat>, peers: seq<Peer>, k: nat, phase: Phase, yes: bool)
    requires Region(c, n, ids) && k < |ids| == |peers| && Called(c, d, n, ids, peers, k, phase)
    requires e.regionId == d.regionId && d.net <= e.net
    requires e.nodes == d.nodes[ids[k] := Node(peers[k], Idle)][n := Node(c.nodes[n].peer, Counted(phase, ids[k], yes))]
    ensures Called(c, e, n, ids, peers, k + 1, Counted(phase, ids[k], yes))
  {
    hide Counted;
    assert ids[k] in ids;
    assert e.nodes.Keys == d.nodes.Keys;
  }

  // ---- An election is a run ----

  /** One call of the election loop: the ballot may not arrive; a grant is counted. */
  lemma AskStep(c: Cluster, n: nat, m: nat, up: bool) returns (steps: seq<Step>, d: Cluster)
    requires n in c.nodes && m in c.nodes && m != n && c.nodes[m].phase == Idle && c.nodes[n].phase.Campaigning?
    requires VoteAsk(m, BallotRequest(Raft(c, n))) in c.net
    ensures Leads(c, steps, d) && d.regionId == c.regionId && c.net <= d.net
    ensures var (p, res) := OnVote(c.nodes[m].peer, BallotRequest(Raft(c, n)));
            d.nodes == c.nodes[m := Node(if up then p else c.nodes[m].peer, Idle)]
                              [n := Node(c.nodes[n].peer, Counted(c.nodes[n].phase, m, up && res.granted))]
  {
    hide OnVote, BallotRequest;
    var req := BallotRequest(Raft(c, n));
    steps, d := [], c;
    if up {
      var asked := Take(c, DeliverVote(m, req));
      OneStep(c, DeliverVote(m, req));
      steps, d := [DeliverVote(m, req)], asked;
      if OnVote(c.nodes[m].peer, req).1.granted {
        d := Take(asked, CountVote(n, m));
        OneStep(asked, CountVote(n, m));
        LeadsOn(c, steps, asked, [CountVote(n, m)], d);
        steps := steps + [CountVote(n, m)];
      }
    }
    assert d.nodes == c.nodes[m := d.nodes[m]][n := d.nodes[n]];
  }

  ghost function Voters(ids: seq<nat>, others: seq<Peer>, up: seq<bool>, req: VoteRequest, k: nat): set<nat>
    requires |ids| == |up| == |others| && k <= |others|
  {
    set j | j in Granting(others, up, req, k) :: ids[j]
  }

  lemma VotersGrow(ids: seq<nat>, others: seq<Peer>, up: seq<bool>, req: VoteRequest, k: nat)
    requires |ids| == |up| == |others| && 0 < k <= |others|
    ensures Voters(ids, others, up, req, k)
         == Voters(ids, others, up, req, k - 1) + if up[k - 1] && OnVote(others[k - 1], req).1.granted then {ids[k - 1]} else {}
  {
    hide OnVote;
    var yes := up[k - 1] && OnVote(others[k - 1], req).1.granted;
    assert Granting(others, up, req, k) == Granting(others, up, req, k - 1) + if yes then {k - 1} else {};
  }

  lemma {:induction false} VotersSize(ids: seq<nat>, others: seq<Peer>, up: seq<bool>, req: VoteRequest, k: nat)
    requires |ids| == |up| == |others| && k <= |others| && Distinct(ids)
    ensures |Voters(ids, others, up, req, k)| == Grants(others, up, req, k)
  {
    hide OnVote;
    if k > 0 {
      VotersSize(ids, others, up, req, k - 1);
      VotersGrow(ids, others, up, req, k);
      VotersAmong(ids, others, up, req, k - 1);
      hide Voters;
      assert ids[k - 1] !in ids[..k - 1];
    }
  }

  lemma VotersAmong(ids: seq<nat>, others: seq<Peer>, up: seq<bool>, req: VoteRequest, k: nat)
    requires |ids| == |up| == |others| && k <= |others|
    ensures forall m :: m in Voters(ids, others, up, req, k) ==> m in ids[..k]
  {
    hide OnVote;
  }

  lemma AskNext(c: Cluster, d: Cluster, n: nat, ids: seq<nat>, up: seq<bool>, k: nat, votes: set<nat>) returns (steps: seq<Step>, e: Cluster)
    requires Region(c, n, ids) && |up| == |ids| && k < |ids| && n in c.nodes && forall j :: 0 <= j < |ids| ==> ids[j] in c.nodes
    requires VoteAsk(ids[k], BallotRequest(Raft(c, n))) in c.net
    requires Called(c, d, n, ids, AskAll(PeersAt(c, ids), up, BallotRequest(Raft(c, n))), k, Campaigning(votes))
    ensures Leads(d, steps, e)
    ensures var req := BallotRequest(Raft(c, n));
            var yes := up[k] && OnVote(c.nodes[ids[k]].peer, req).1.granted;
            Called(c, e, n, ids, AskAll(PeersAt(c, ids), up, req), k + 1, Campaigning(votes + if yes then {ids[k]} else {}))
  {
    hide OnVote, BallotRequest, Region, Leads;
    var req := BallotRequest(Raft(c, n));
    var peers := AskAll(PeersAt(c, ids), up, req);
    CalledParts(c, d, n, ids, peers, k, Campaigning(votes));
    hide AskAll;
    assert peers[k] == Asked(c.nodes[ids[k]].peer, up[k], req);
    steps, e := AskStep(d, n, ids[k], up[k]);
    var yes := up[k] && OnVote(c.nodes[ids[k]].peer, req).1.granted;
    CalledOn(c, d, e, n, ids, peers, k, Campaigning(votes), yes);
    assert votes + {} == votes;
  }

  /** The election loop over the first `k` of the others. */
  lemma {:induction false} AskRun(c: Cluster, n: nat, ids: seq<nat>, up: seq<bool>, k: nat) returns (steps: seq<Step>, d: Cluster)
    requires Region(c, n, ids) && |up| == |ids| && k <= |ids| && c.nodes[n].phase == Campaigning({n})
    requires n in c.nodes && forall j :: 0 <= j < |ids| ==> ids[j] in c.nodes && VoteAsk(ids[j], BallotRequest(Raft(c, n))) in c.net
    ensures Leads(c, steps, d)
    ensures var req := BallotRequest(Raft(c, n));
            var others := PeersAt(c, ids);
            Called(c, d, n, ids, AskAll(others, up, req), k, Campaigning({n} + Voters(ids, others, up, req, k)))
  {
    hide OnVote, BallotRequest, Voters, Leads, AskAll;
    var req := BallotRequest(Raft(c, n));
    var others := PeersAt(c, ids);
    if k == 0 {
      steps, d := [], c;
      NoStep(c);
      NoVoters(ids, others, up, req, n);
    } else {
      hide Region, Called;
      var before, mid := AskRun(c, n, ids, up, k - 1);
      var more, after := AskNext(c, mid, n, ids, up, k - 1, {n} + Voters(ids, others, up, req, k - 1));
      LeadsOn(c, before, mid, more, after);
      steps, d := before + more, after;
      VotersGrow(ids, others, up, req, k);
      assert {n} + Voters(ids, others, up, req, k) == {n} + Voters(ids, others, up, req, k - 1)
             + if up[k - 1] && OnVote(others[k - 1], req).1.granted then {ids[k - 1]} else {};
    }
  }

  lemma NoVoters(ids: seq<nat>, others: seq<Peer>, up: seq<bool>, req: VoteRequest, n: nat)
    requires |ids| == |up| == |others|
    ensures {n} + Voters(ids, others, up, req, 0) == {n}
  {
    hide OnVote;
  }

  lemma NoStep(c: Cluster)
    ensures Leads(c, [], c)
  {}

  lemma CalledParts(c: Cluster, d: Cluster, n: nat, ids: seq<nat>, peers: seq<Peer>, k: nat, phase: Phase)
    requires Region(c, n, ids) && k < |ids| == |peers| && Called(c, d, n, ids, peers, k, phase)
    ensures n in d.nodes && d.nodes[n] == Node(c.nodes[n].peer, phase)
    ensures ids[k] in d.nodes && ids[k] in c.nodes && ids[k] != n
    ensures d.nodes[ids[k]] == c.nodes[ids[k]] && c.nodes[ids[k]].phase == Idle && c.net <= d.net
  {
    assert ids[k] in ids;
  }

  /** After the loop: what each of the others became, and what the caller counted. */
  lemma CalledAll(c: Cluster, d: Cluster, n: nat, ids: seq<nat>, peers: seq<Peer>, phase: Phase)
    requires Region(c, n, ids) && |peers| == |ids| && Called(c, d, n, ids, peers, |ids|, phase)
    ensures Region(d, n, ids) && n in d.nodes && d.nodes[n] == Node(c.nodes[n].peer, phase) && d.regionId == c.regionId && c.net <= d.net
    ensures |d.nodes| == |ids| + 1 && forall j :: 0 <= j < |ids| ==> ids[j] in d.nodes && ids[j] != n
    ensures PeersAt(d, ids) == peers
  {
    RegionParts(d, n, ids);
    RegionSize(d, n, ids);
    hide Region;
  }

  /** The caller's own step leaves the others as they are. */
  lemma OwnStep(c: Cluster, d: Cluster, n: nat, ids: seq<nat>, node: Node)
    requires Region(c, n, ids) && d.nodes == c.nodes[n := node]
    ensures Region(d, n, ids) && n in c.nodes && n in d.nodes && d.nodes[n] == node
    ensures forall j :: 0 <= j < |ids| ==> ids[j] in c.nodes && ids[j] != n && ids[j] in d.nodes
    ensures PeersAt(d, ids) == PeersAt(c, ids)
  {
    RegionParts(c, n, ids);
    assert d.nodes.Keys == c.nodes.Keys;
  }

  /** A peer that stands takes the steps of the protocol: it starts an election, ballots are delivered and grants are counted,
      and it wins exactly when that step is then enabled. */
  lemma ElectionIsRun(c: Cluster, n: nat, ids: seq<nat>, up: seq<bool>) returns (steps: seq<Step>, mid: Cluster, last: Step)
    requires Region(c, n, ids) && n in c.nodes && c.nodes[n].phase == Idle && |up| == |ids|
    requires Raft(c, n).role != Leader && Raft(c, n).currentTerm < MAX_U64
    ensures Leads(c, steps, mid) && Enabled(mid, last) && last == if Enabled(mid, Win(n)) then Win(n) else Finish(n)
    ensures var d := Take(mid, last);
            && Region(d, n, ids) && n in d.nodes && d.nodes[n].phase == Idle && d.regionId == c.regionId
            && (forall j :: 0 <= j < |ids| ==> ids[j] in c.nodes && ids[j] in d.nodes)
            && (d.nodes[n].peer, PeersAt(d, ids), if last == Win(n) then Ok else Error(Internal))
               == EnsureLeader(c.nodes[n].peer, true, PeersAt(c, ids), up)
  {
    hide OnVote, Leads, Region, Called, AskAll, Voters, Grants, Granting, Persist;
    var started := Take(c, StartElection(n));
    OwnStep(c, started, n, ids, Node(Campaign(c.nodes[n].peer), Campaigning({n})));
    OneStep(c, StartElection(n));
    hide Campaign, BallotRequest;
    var req := BallotRequest(Raft(started, n));
    var others := PeersAt(c, ids);
    var asked;
    asked, mid := AskRun(started, n, ids, up, |ids|);
    CalledAll(started, mid, n, ids, AskAll(others, up, req), Campaigning({n} + Voters(ids, others, up, req, |ids|)));
    LeadsOn(c, [StartElection(n)], started, asked, mid);
    steps := [StartElection(n)] + asked;
    VotesCounted(c, n, ids, others, up, req);
    last := if Enabled(mid, Win(n)) then Win(n) else Finish(n);
    OwnStep(mid, Take(mid, last), n, ids, if Enabled(mid, Win(n)) then Node(Promote(mid.nodes[n].peer), Idle) else mid.nodes[n].(phase := Idle));
  }

  lemma VotesCounted(c: Cluster, n: nat, ids: seq<nat>, others: seq<Peer>, up: seq<bool>, req: VoteRequest)
    requires Region(c, n, ids) && |ids| == |others| == |up|
    ensures |{n} + Voters(ids, others, up, req, |ids|)| == 1 + Grants(others, up, req, |others|)
  {
    hide OnVote, Voters, Granting, Grants;
    VotersSize(ids, others, up, req, |ids|);
    VotersAmong(ids, others, up, req, |ids|);
    assert ids[..|ids|] == ids;
    assert n !in Voters(ids, others, up, req, |ids|);
  }

  // ---- A write is a run ----

  lemma {:induction false} SendRun(c: Cluster, n: nat, m: nat, next: nat, attempts: nat, reach: nat) returns (steps: seq<Step>, d: Cluster)
    requires n in c.nodes && m in c.nodes && m != n && c.nodes[m].phase == Idle
    requires c.nodes[n].phase.Replicating? || c.nodes[n].phase.Broadcasting?
    requires Valid(Raft(c, n)) && Valid(Raft(c, m)) && 1 <= next
    ensures Leads(c, steps, d) && d.regionId == c.regionId && c.net <= d.net
    ensures var o := ReplicateTo(Raft(c, n), c.nodes[m].peer, next, attempts, reach);
            d.nodes == c.nodes[m := Node(o.follower, Idle)][n := Node(c.nodes[n].peer, Counted(c.nodes[n].phase, m, o.replicated))]
    decreases attempts
  {
    hide OnAppend, BuildAppend, Leads, Valid, WellFormed;
    var s, f := Raft(c, n), c.nodes[m].peer;
    if attempts == 0 || reach == 0 || next > |s.log| + 1 {
      steps, d := [], c;
      NoStep(c);
      assert d.nodes == c.nodes[m := c.nodes[m]][n := c.nodes[n]];
    } else {
      BuiltWellFormed(s, next);
      OnAppendValid(f, BuildAppend(s, next));
      var told;
      steps, told := CallRun(c, n, m, next);
      var (g, res) := OnAppend(f, BuildAppend(s, next));
      if res.success {
        d := told;
      } else {
        var rest;
        rest, d := SendRun(told, n, m, Backoff(res.matchIndex), attempts - 1, reach - 1);
        LeadsOn(c, steps, told, rest, d);
        steps := steps + rest;
        assert d.nodes == c.nodes[m := d.nodes[m]][n := d.nodes[n]];
      }
    }
  }

  /** One attempt: the request is sent and delivered; an acknowledgement is counted. */
  lemma CallRun(c: Cluster, n: nat, m: nat, next: nat) returns (steps: seq<Step>, d: Cluster)
    requires n in c.nodes && m in c.nodes && m != n && c.nodes[m].phase == Idle
    requires c.nodes[n].phase.Replicating? || c.nodes[n].phase.Broadcasting?
    requires Valid(Raft(c, n)) && Valid(Raft(c, m)) && 1 <= next <= |Raft(c, n).log| + 1 && WellFormed(BuildAppend(Raft(c, n), next))
    ensures Leads(c, steps, d) && d.regionId == c.regionId && c.net <= d.net
    ensures var (g, res) := OnAppend(c.nodes[m].peer, BuildAppend(Raft(c, n), next));
            d.nodes == c.nodes[m := Node(g, Idle)][n := Node(c.nodes[n].peer, Counted(c.nodes[n].phase, m, res.success))]
  {
    hide OnAppend, BuildAppend, Leads, Valid, WellFormed;
    var req := BuildAppend(Raft(c, n), next);
    var sent := Take(c, SendAppend(n, m, next));
    OneStep(c, SendAppend(n, m, next));
    d := Take(sent, DeliverAppend(m, req));
    OneStep(sent, DeliverAppend(m, req));
    LeadsOn(c, [SendAppend(n, m, next)], sent, [DeliverAppend(m, req)], d);
    steps := [SendAppend(n, m, next)] + [DeliverAppend(m, req)];
    if OnAppend(c.nodes[m].peer, req).1.success && c.nodes[n].phase.Replicating? {
      var told := d;
      d := Take(told, CountAck(n, m, next));
      OneStep(told, CountAck(n, m, next));
      LeadsOn(c, steps, told, [CountAck(n, m, next)], d);
      steps := steps + [CountAck(n, m, next)];
    }
    assert d.nodes == c.nodes[m := d.nodes[m]][n := d.nodes[n]];
  }

  /** What `n` has counted after replicating to the first `k` of the others. */
  ghost function Tally(phase: Phase, s: RaftState, ids: seq<nat>, others: seq<Peer>, next: nat, reach: seq<nat>, k: nat): Phase
    requires Valid(s) && AllValid(others) && 1 <= next && |ids| == |others| == |reach| && k <= |ids|
  {
    if k == 0 then phase
    else Counted(Tally(phase, s, ids, others, next, reach, k - 1), ids[k - 1], Sent(s, others[k - 1], next, reach[k - 1]).replicated)
  }

  lemma {:induction false} TallyCounts(n: nat, s: RaftState, ids: seq<nat>, others: seq<Peer>, next: nat, reach: seq<nat>, k: nat)
    requires Valid(s) && AllValid(others) && 1 <= next && |ids| == |others| == |reach| && k <= |ids|
    requires Distinct(ids) && n !in ids
    ensures Tally(Broadcasting, s, ids, others, next, reach, k) == Broadcasting
    ensures var phase := Tally(Replicating({n}), s, ids, others, next, reach, k);
            && phase.Replicating? && |phase.acks| == 1 + Acks(s, others, next, reach, k)
            && forall m :: m in phase.acks ==> m == n || m in ids[..k]
  {
    hide Sent, Valid;
    if k > 0 {
      TallyCounts(n, s, ids, others, next, reach, k - 1);
      assert ids[k - 1] !in ids[..k - 1];
    }
  }

  /** A leader about to send, and what it sends to. */
  ghost predicate Sending(c: Cluster, n: nat, ids: seq<nat>, next: nat, reach: seq<nat>) {
    && Region(c, n, ids) && |reach| == |ids| && n in c.nodes && (forall j :: 0 <= j < |ids| ==> ids[j] in c.nodes)
    && Valid(Raft(c, n)) && AllValid(PeersAt(c, ids)) && 1 <= next
    && (c.nodes[n].phase == Replicating({n}) || c.nodes[n].phase == Broadcasting)
  }

  /** The first `k` of the others have been sent to. */
  ghost predicate SentSoFar(c: Cluster, d: Cluster, n: nat, ids: seq<nat>, next: nat, reach: seq<nat>, k: nat)
    requires Sending(c, n, ids, next, reach) && k <= |ids|
  {
    var s, others := Raft(c, n), PeersAt(c, ids);
    Called(c, d, n, ids, SendAll(s, others, next, reach), k, Tally(c.nodes[n].phase, s, ids, others, next, reach, k))
  }

  lemma TallyNext(c: Cluster, n: nat, ids: seq<nat>, next: nat, reach: seq<nat>, k: nat)
    requires Sending(c, n, ids, next, reach) && k < |ids|
    ensures var s, others := Raft(c, n), PeersAt(c, ids);
            var before := Tally(c.nodes[n].phase, s, ids, others, next, reach, k);
            && (before.Replicating? || before.Broadcasting?)
            && Tally(c.nodes[n].phase, s, ids, others, next, reach, k + 1) == Counted(before, ids[k], Sent(s, others[k], next, reach[k]).replicated)
  {
    hide Sent, Valid, AllValid;
    TallyCounts(n, Raft(c, n), ids, PeersAt(c, ids), next, reach, k);
  }

  lemma SendNext(c: Cluster, d: Cluster, n: nat, ids: seq<nat>, next: nat, reach: seq<nat>, k: nat) returns (steps: seq<Step>, e: Cluster)
    requires Sending(c, n, ids, next, reach) && k < |ids| && SentSoFar(c, d, n, ids, next, reach, k)
    ensures Leads(d, steps, e) && SentSoFar(c, e, n, ids, next, reach, k + 1)
  {
    hide ReplicateTo, Leads, Valid;
    var s, others := Raft(c, n), PeersAt(c, ids);
    var peers := SendAll(s, others, next, reach);
    assert others[k] == c.nodes[ids[k]].peer;
    assert peers[k] == Sent(s, others[k], next, reach[k]).follower;
    TallyNext(c, n, ids, next, reach, k);
    hide SendAll, Tally, Region;
    var phase := Tally(c.nodes[n].phase, s, ids, others, next, reach, k);
    CalledParts(c, d, n, ids, peers, k, phase);
    steps, e := SendRun(d, n, ids[k], next, ATTEMPTS, reach[k]);
    CalledOn(c, d, e, n, ids, peers, k, phase, Sent(s, others[k], next, reach[k]).replicated);
  }

  lemma NothingSent(c: Cluster, n: nat, ids: seq<nat>, next: nat, reach: seq<nat>)
    requires Sending(c, n, ids, next, reach)
    ensures SentSoFar(c, c, n, ids, next, reach, 0)
  {
    hide SendAll, Valid, AllValid;
  }

  /** The replication loop over the first `k` of the others. */
  lemma {:induction false} SendAllRun(c: Cluster, n: nat, ids: seq<nat>, next: nat, reach: seq<nat>, k: nat) returns (steps: seq<Step>, d: Cluster)
    requires Sending(c, n, ids, next, reach) && k <= |ids|
    ensures Leads(c, steps, d) && SentSoFar(c, d, n, ids, next, reach, k)
  {
    hide Leads, Sending, SentSoFar;
    if k == 0 {
      steps, d := [], c;
      NoStep(c);
      NothingSent(c, n, ids, next, reach);
    } else {
      var before, mid := SendAllRun(c, n, ids, next, reach, k - 1);
      var more, after := SendNext(c, mid, n, ids, next, reach, k - 1);
      LeadsOn(c, before, mid, more, after);
      steps, d := before + more, after;
    }
  }

  /** The whole loop. */
  lemma RoundRun(c: Cluster, n: nat, ids: seq<nat>, next: nat, reach: seq<nat>) returns (steps: seq<Step>, d: Cluster)
    requires Region(c, n, ids) && |reach| == |ids| && n in c.nodes && forall j :: 0 <= j < |ids| ==> ids[j] in c.nodes
    requires Valid(Raft(c, n)) && AllValid(PeersAt(c, ids)) && 1 <= next
    requires c.nodes[n].phase == Replicating({n}) || c.nodes[n].phase == Broadcasting
    ensures Leads(c, steps, d) && Region(d, n, ids) && n in d.nodes && d.regionId == c.regionId && |d.nodes| == |ids| + 1
    ensures d.nodes[n].peer == c.nodes[n].peer
    ensures c.nodes[n].phase == Broadcasting ==> d.nodes[n].phase == Broadcasting
    ensures c.nodes[n].phase == Replicating({n}) ==>
              d.nodes[n].phase.Replicating? && |d.nodes[n].phase.acks| == 1 + Acks(Raft(c, n), PeersAt(c, ids), next, reach, |ids|)
    ensures forall j :: 0 <= j < |ids| ==> ids[j] in d.nodes
    ensures PeersAt(d, ids) == SendAll(Raft(c, n), PeersAt(c, ids), next, reach)
  {
    var s, others := Raft(c, n), PeersAt(c, ids);
    TallyCounts(n, s, ids, others, next, reach, |ids|);
    hide Sent, Leads, SendAll, Valid, AllValid, Region, Called, Tally, Counted, PeersAt, Acks;
    steps, d := SendAllRun(c, n, ids, next, reach, |ids|);
    CalledAll(c, d, n, ids, SendAll(s, others, next, reach), Tally(c.nodes[n].phase, s, ids, others, next, reach, |ids|));
  }

  /** A proposal: append, send to all, count. */
  lemma ProposalRun(c: Cluster, n: nat, ids: seq<nat>, command: Text, reach: seq<nat>) returns (steps: seq<Step>, d: Cluster)
    requires Region(c, n, ids) && n in c.nodes && c.nodes[n].phase == Idle && |reach| == |ids|
    requires Raft(c, n).role == Leader && |Raft(c, n).log| < MAX_U64 && GoodCommand(command)
    requires forall j :: 0 <= j < |ids| ==> ids[j] in c.nodes
    requires Valid(Offer(c.nodes[n].peer, command).raft) && AllValid(PeersAt(c, ids)) && 1 <= |Offer(c.nodes[n].peer, command).raft.log|
    ensures Leads(c, steps, d) && Region(d, n, ids) && n in d.nodes && d.regionId == c.regionId && |d.nodes| == |ids| + 1
    ensures var p := Offer(c.nodes[n].peer, command);
            && d.nodes[n].peer == p && d.nodes[n].phase.Replicating?
            && |d.nodes[n].phase.acks| == 1 + Acks(p.raft, PeersAt(c, ids), |p.raft.log|, reach, |ids|)
            && (forall j :: 0 <= j < |ids| ==> ids[j] in d.nodes)
            && PeersAt(d, ids) == SendAll(p.raft, PeersAt(c, ids), |p.raft.log|, reach)
  {
    hide GoodCommand, Leads, Region, Valid, AllValid, SendAll, Acks, Offer;
    var started := Take(c, ProposeEntry(n, command));
    OwnStep(c, started, n, ids, Node(Offer(c.nodes[n].peer, command), Replicating({n})));
    OneStep(c, ProposeEntry(n, command));
    hide PeersAt;
    var sent;
    sent, d := RoundRun(started, n, ids, |Raft(started, n).log|, reach);
    LeadsOn(c, [ProposeEntry(n, command)], started, sent, d);
    steps := [ProposeEntry(n, command)] + sent;
  }

  /** A commit: apply, tell all, rest. */
  lemma CommitRun(c: Cluster, n: nat, ids: seq<nat>, again: seq<nat>) returns (steps: seq<Step>, d: Cluster)
    requires Region(c, n, ids) && n in c.nodes && Enabled(c, Commit(n)) && |again| == |ids|
    requires forall j :: 0 <= j < |ids| ==> ids[j] in c.nodes
    requires Valid(Raft(c, n)) && Valid(CommitLast(c.nodes[n].peer).raft) && AllValid(PeersAt(c, ids))
    ensures Leads(c, steps, d) && steps != [] && steps[0] == Commit(n)
    ensures Region(d, n, ids) && n in d.nodes && d.nodes[n].phase == Idle && d.regionId == c.regionId
    ensures var p := CommitLast(c.nodes[n].peer);
            && d.nodes[n].peer == p && (forall j :: 0 <= j < |ids| ==> ids[j] in d.nodes)
            && PeersAt(d, ids) == SendAll(p.raft, PeersAt(c, ids), |p.raft.log| + 1, again)
  {
    hide Leads, Region, Valid, AllValid, SendAll, CommitLast, IsMajority;
    var done := Take(c, Commit(n));
    OwnStep(c, done, n, ids, Node(CommitLast(c.nodes[n].peer), Broadcasting));
    OneStep(c, Commit(n));
    hide PeersAt;
    var told, end := RoundRun(done, n, ids, |Raft(done, n).log| + 1, again);
    d := Take(end, Finish(n));
    OwnStep(end, d, n, ids, end.nodes[n].(phase := Idle));
    OneStep(end, Finish(n));
    LeadsOn(done, told, end, [Finish(n)], d);
    LeadsOn(c, [Commit(n)], done, told + [Finish(n)], d);
    steps := [Commit(n)] + (told + [Finish(n)]);
  }

  lemma WriteParts(p: Peer, others: seq<Peer>, command: Text, reach: seq<nat>, again: seq<nat>)
    requires PeerOk(p) && p.raft.role == Leader && |p.raft.log| < MAX_U64 && GoodCommand(command)
    requires AllValid(others) && |reach| == |again| == |others|
    ensures var offered := Offer(p, command);
            && Valid(p.raft) && Valid(offered.raft) && offered.raft == Grown(p.raft, command) && Valid(CommitLast(offered).raft)
            && var sent := SendAll(offered.raft, others, |offered.raft.log|, reach);
               Write(p, others, command, reach, again)
               == if 1 + Acks(offered.raft, others, |offered.raft.log|, reach, |others|) > (|others| + 1) / 2
                  then (CommitLast(offered), SendAll(CommitLast(offered).raft, sent, |CommitLast(offered).raft.log| + 1, again), Ok)
                  else (offered, sent, Error(Internal))
  {
    PeerValid(p);
    LeaderDone(p, command);
    OfferGrows(p, command);
    hide PeerOk, GoodCommand, Offer, Sent, SendAll, Acks, ApplyAndPersist, CommitLast, SetCommitIndex;
    LeaderValid(p, command);
    PeerValid(CommitLast(Offer(p, command)));
    hide Valid;
  }

  lemma CommitWhen(c: Cluster, n: nat)
    requires n in c.nodes && c.nodes[n].phase.Replicating? && Valid(Raft(c, n))
    ensures Enabled(c, Commit(n)) <==> |c.nodes[n].phase.acks| > |c.nodes| / 2
  {}

  lemma FinishRun(c: Cluster, n: nat, ids: seq<nat>) returns (d: Cluster)
    requires Region(c, n, ids) && n in c.nodes
    ensures Leads(c, [Finish(n)], d) && Region(d, n, ids) && d.nodes[n] == Node(c.nodes[n].peer, Idle) && d.regionId == c.regionId
    ensures forall j :: 0 <= j < |ids| ==> ids[j] in c.nodes && ids[j] in d.nodes
    ensures PeersAt(d, ids) == PeersAt(c, ids)
  {
    hide Leads;
    d := Take(c, Finish(n));
    OneStep(c, Finish(n));
    OwnStep(c, d, n, ids, c.nodes[n].(phase := Idle));
  }

  /** A leader's write takes the steps of the protocol: it appends, sends and counts, it commits exactly when that step is
      then enabled, and it tells the others. */
  lemma WriteIsRun(c: Cluster, n: nat, ids: seq<nat>, command: Text, reach: seq<nat>, again: seq<nat>)
    returns (steps: seq<Step>, mid: Cluster, more: seq<Step>, d: Cluster)
    requires Region(c, n, ids) && n in c.nodes && c.nodes[n].phase == Idle && |reach| == |again| == |ids|
    requires PeerOk(c.nodes[n].peer) && Raft(c, n).role == Leader && |Raft(c, n).log| < MAX_U64 && GoodCommand(command)
    requires forall j :: 0 <= j < |ids| ==> ids[j] in c.nodes && Valid(Raft(c, ids[j]))
    ensures Valid(Raft(c, n)) && AllValid(PeersAt(c, ids))
    ensures Leads(c, steps, mid) && Leads(mid, more, d)
    ensures n in mid.nodes && Raft(mid, n) == Grown(Raft(c, n), command)
    ensures more != [] && more[0] == if Enabled(mid, Commit(n)) then Commit(n) else Finish(n)
    ensures Region(d, n, ids) && n in d.nodes && d.nodes[n].phase == Idle && d.regionId == c.regionId
    ensures forall j :: 0 <= j < |ids| ==> ids[j] in d.nodes
    ensures (d.nodes[n].peer, PeersAt(d, ids), if more[0] == Commit(n) then Ok else Error(Internal))
         == Write(c.nodes[n].peer, PeersAt(c, ids), command, reach, again)
  {
    var p := c.nodes[n].peer;
    WriteParts(p, PeersAt(c, ids), command, reach, again);
    hide PeerOk, GoodCommand, Leads, Region, Valid, AllValid, SendAll, Acks, Offer, Write, CommitLast, PeersAt, Enabled, Take;
    steps, mid := ProposalRun(c, n, ids, command, reach);
    CommitWhen(mid, n);
    if Enabled(mid, Commit(n)) {
      more, d := CommitRun(mid, n, ids, again);
    } else {
      d := FinishRun(mid, n, ids);
      more := [Finish(n)];
    }
  }

  // ---- Over whole runs ----

  lemma RunPeers(states: seq<Cluster>, steps: seq<Step>, n: nat)
    requires IsRun(states, steps) && n in states[|steps|].nodes
    ensures PeerOk(states[|steps|].nodes[n].peer) && Valid(Raft(states[|steps|], n)) && Raft(states[|steps|], n).selfId == n
  {
    hide IsRun, RaftHistory.Inv, PeerOk, RaftSafety.Records, Valid;
    var hs := RaftSafety.RunRecorded(states, steps);
    RaftSafety.RecordedEnd(hs, states, steps);
    RaftSafety.InvFacts(states[|steps|], hs[|steps|], n);
    PeerValid(states[|steps|].nodes[n].peer);
  }

  /** A state of a run in which peer `n` and the others rest. */
  ghost predicate Rests(states: seq<Cluster>, steps: seq<Step>, n: nat, ids: seq<nat>) {
    && IsRun(states, steps)
    && var c := states[|steps|];
       Region(c, n, ids) && n in c.nodes && c.nodes[n].phase == Idle && forall j :: 0 <= j < |ids| ==> ids[j] in c.nodes
  }

  lemma RestsOn(states: seq<Cluster>, steps: seq<Step>, n: nat, ids: seq<nat>, more: seq<Step>, d: Cluster) returns (all: seq<Cluster>)
    requires Rests(states, steps, n, ids) && Leads(states[|steps|], more, d)
    requires Region(d, n, ids) && n in d.nodes && d.nodes[n].phase == Idle
    ensures Rests(all, steps + more, n, ids) && states <= all && all[|steps + more|] == d
  {
    hide IsRun, Leads;
    all := RunsOn(states, steps, more, d);
    RegionParts(d, n, ids);
  }

  /** Whether a peer leads or has to stand first, a client's call is part of a run. */
  lemma ElectionExtends(states: seq<Cluster>, steps: seq<Step>, n: nat, ids: seq<nat>, named: bool, up: seq<bool>)
    returns (all: seq<Cluster>, more: seq<Step>)
    requires Rests(states, steps, n, ids) && |up| == |ids| && Raft(states[|steps|], n).currentTerm < MAX_U64
    ensures Rests(all, steps + more, n, ids) && states <= all
    ensures var c, d := states[|steps|], all[|steps + more|];
            (d.nodes[n].peer, PeersAt(d, ids), EnsureLeader(c.nodes[n].peer, named, PeersAt(c, ids), up).2)
            == EnsureLeader(c.nodes[n].peer, named, PeersAt(c, ids), up)
  {
    hide Init, Leads, Region, AskAll, Grants, Campaign, BallotRequest, Promote, Enabled, Take;
    var c := states[|steps|];
    hide IsRun;
    if Raft(c, n).role == Leader || !named {
      all, more := states, [];
      assert steps + more == steps;
    } else {
      var before, mid, last := ElectionIsRun(c, n, ids, up);
      hide EnsureLeader, PeersAt;
      more := before + [last];
      OneStep(mid, last);
      LeadsOn(c, before, mid, [last], Take(mid, last));
      all := RestsOn(states, steps, n, ids, more, Take(mid, last));
    }
  }

  /** Nothing that was decided in a run is missing from the logs that win later terms of any longer run. */
  ghost predicate Kept(all: seq<Cluster>, steps: seq<Step>, log: seq<LogEntry>, term: nat) {
    forall longer: seq<Cluster>, further: seq<Step>, j: nat, m: nat ::
      IsRun(longer, further) && all <= longer && steps <= further && j < |further| && further[j] == Win(m)
      && m in longer[j].nodes && Raft(longer[j], m).currentTerm > term
      ==> log <= Raft(longer[j], m).log
  }

  lemma DecidedIsKept(all: seq<Cluster>, steps: seq<Step>, i: nat, n: nat)
    requires IsRun(all, steps) && i < |steps| && steps[i] == Commit(n) && n in all[i].nodes
    ensures Kept(all, steps, Raft(all[i], n).log, Raft(all[i], n).currentTerm)
  {
    hide Enabled, Take, Init;
    forall longer: seq<Cluster>, further: seq<Step>, j: nat, m: nat |
      IsRun(longer, further) && all <= longer && steps <= further && j < |further| && further[j] == Win(m)
      && m in longer[j].nodes && Raft(longer[j], m).currentTerm > Raft(all[i], n).currentTerm
      ensures Raft(all[i], n).log <= Raft(longer[j], m).log
    {
      assert longer[i] == all[i] && further[i] == steps[i];
      RaftSafety.LeaderCompleteness(longer, further, i, j, n, m);
    }
  }

  /** A leader's write is part of a run, and once it is answered with success no later leader lacks its entry, however the run
      goes on. */
  lemma AnsweredWriteStays(states: seq<Cluster>, steps: seq<Step>, n: nat, ids: seq<nat>, command: Text, reach: seq<nat>, again: seq<nat>)
    returns (all: seq<Cluster>, more: seq<Step>)
    requires Rests(states, steps, n, ids) && |reach| == |again| == |ids| && GoodCommand(command)
    requires Raft(states[|steps|], n).role == Leader && |Raft(states[|steps|], n).log| < MAX_U64
    ensures Rests(all, steps + more, n, ids) && states <= all
    ensures var c, d := states[|steps|], all[|steps + more|];
            && Valid(Raft(c, n)) && AllValid(PeersAt(c, ids))
            && var (q, after, status) := Write(c.nodes[n].peer, PeersAt(c, ids), command, reach, again);
            && (d.nodes[n].peer, PeersAt(d, ids)) == (q, after)
            && (status == Ok ==> Kept(all, steps + more, Grown(Raft(c, n), command).log, Raft(c, n).currentTerm))
  {
    hide Init, Leads, Region, Kept, Write, PeerOk, GoodCommand, Enabled, Take, Valid, PeersAt, AllValid;
    var c := states[|steps|];
    RunPeers(states, steps, n);
    forall j | 0 <= j < |ids| ensures Valid(Raft(c, ids[j])) {
      RunPeers(states, steps, ids[j]);
    }
    var before, mid, after, d := WriteIsRun(c, n, ids, command, reach, again);
    LeadsOn(c, before, mid, after, d);
    more := before + after;
    var until := RunsOn(states, steps, before, mid);
    all := RunsOn(until, steps + before, after, d);
    assert steps + before + after == steps + more;
    RegionParts(d, n, ids);
    if after[0] == Commit(n) {
      var i := |steps + before|;
      assert all[i] == until[i] && (steps + more)[i] == after[0];
      DecidedIsKept(all, steps + more, i, n);
    }
  }
}
