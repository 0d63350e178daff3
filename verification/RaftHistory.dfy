/** History of a run and the invariant that ties it to the state. None of this is part of the system:
    the theorems in RaftSafety speak of runs only. */
module RaftHistory {
  import opened Basics
  import opened RaftCore
  import opened RaftLog
  import opened RegionNode
  import opened RaftCluster

  /** One elected term: who won it, with whose votes, with which log, and the log as it grew since. */
  datatype Tenure = Tenure(leader: nat, quorum: set<nat>, start: seq<LogEntry>, log: seq<LogEntry>)

  /** `peer` held the first `len` entries of the term's log while in that term. */
  datatype Ack = Ack(peer: nat, term: nat, len: nat)

  /** The leader of `term` counted `quorum` for its log of length `len`. */
  datatype Decision = Decision(term: nat, len: nat, quorum: set<nat>)

  datatype History = History(
    tenures: map<nat, Tenure>,
    ballots: map<(nat, nat), nat>,            // (voter, term) -> candidate
    runs: map<(nat, nat), seq<LogEntry>>,     // (candidate, term) -> its log
    acks: set<Ack>,
    decisions: set<Decision>)

  // ---- Growth ----

  ghost predicate Grows(h: History, g: History) {
    && (forall t :: t in h.tenures ==>
          t in g.tenures && g.tenures[t] == h.tenures[t].(log := g.tenures[t].log) && h.tenures[t].log <= g.tenures[t].log)
    && (forall k :: k in h.ballots ==> k in g.ballots && g.ballots[k] == h.ballots[k])
    && (forall k :: k in h.runs ==> k in g.runs && g.runs[k] == h.runs[k])
    && h.acks <= g.acks
    && h.decisions <= g.decisions
  }

  // ---- Logs ----

  /** Each entry was written by the leader of its term, on top of the same prefix. */
  ghost predicate LogOk(h: History, log: seq<LogEntry>) {
    forall i :: 0 <= i < |log| ==> log[i].term in h.tenures && log[..i + 1] <= h.tenures[log[i].term].log
  }

  ghost predicate TermsBelow(log: seq<LogEntry>, bound: nat) {
    forall i :: 0 <= i < |log| ==> log[i].term < bound
  }

  ghost predicate TenureOk(h: History, t: nat)
    requires t in h.tenures
  {
    var ten := h.tenures[t];
    && ten.start <= ten.log
    && Contiguous(ten.log)
    && TermsBelow(ten.start, t)
    && (forall i :: |ten.start| <= i < |ten.log| ==> ten.log[i].term == t)
    && LogOk(h, ten.log)
  }

  ghost predicate LogInv(c: Cluster, h: History) {
    && (forall t :: t in h.tenures ==> TenureOk(h, t))
    && (forall k :: k in h.runs ==> LogOk(h, h.runs[k]) && TermsBelow(h.runs[k], k.1))
    && (forall n :: n in c.nodes ==> LogOk(h, Raft(c, n).log) && TermsBelow(Raft(c, n).log, Raft(c, n).currentTerm + 1))
  }

  ghost predicate PeerInv(c: Cluster) {
    forall n :: n in c.nodes ==> Raft(c, n).selfId == n && Valid(Raft(c, n))
  }

  /** Every peer's storage mirrors its memory, and only storable, applicable entries were ever proposed. */
  ghost predicate DataInv(c: Cluster, h: History) {
    && 0 !in c.nodes
    && (forall n :: n in c.nodes ==> Raft(c, n).regionId == c.regionId && PeerOk(c.nodes[n].peer))
    && (forall t :: t in h.tenures ==> GoodLog(c.regionId, h.tenures[t].log))
  }

  // ---- Elections ----

  ghost predicate TenureElected(c: Cluster, h: History, t: nat)
    requires t in h.tenures
  {
    var ten := h.tenures[t];
    && ten.leader in c.nodes
    && t <= Raft(c, ten.leader).currentTerm
    && ten.quorum <= c.nodes.Keys
    && IsMajority(c, ten.quorum)
    && (forall v :: v in ten.quorum ==> (v, t) in h.ballots && h.ballots[(v, t)] == ten.leader)
    && (ten.leader, t) in h.runs && h.runs[(ten.leader, t)] == ten.start
  }

  ghost predicate BallotOk(c: Cluster, h: History, k: (nat, nat))
    requires k in h.ballots
  {
    && k.0 in c.nodes
    && k.1 <= Raft(c, k.0).currentTerm
    && (h.ballots[k], k.1) in h.runs
  }

  ghost predicate VoterOk(h: History, n: nat, raft: RaftState) {
    raft.votedFor == if (n, raft.currentTerm) in h.ballots then Some(h.ballots[(n, raft.currentTerm)]) else None
  }

  ghost predicate PhaseOk(c: Cluster, h: History, n: nat)
    requires n in c.nodes
  {
    var raft := Raft(c, n);
    var t := raft.currentTerm;
    match c.nodes[n].phase
    case Idle => true
    case Campaigning(votes) =>
      && raft.role == Candidate
      && (n, t) in h.runs && h.runs[(n, t)] == raft.log
      && votes <= c.nodes.Keys
      && (forall v :: v in votes ==> (v, t) in h.ballots && h.ballots[(v, t)] == n)
      && (t in h.tenures ==> h.tenures[t].leader != n)
    case Replicating(acks) =>
      && raft.role == Leader
      && acks <= c.nodes.Keys
      && (forall v :: v in acks ==> Ack(v, t, |raft.log|) in h.acks)
      && (t in h.tenures ==> |h.tenures[t].start| < |raft.log|)
    case Broadcasting => raft.role == Leader
  }

  ghost predicate LeaderOk(h: History, n: nat, raft: RaftState) {
    raft.role == Leader ==>
      raft.currentTerm in h.tenures && h.tenures[raft.currentTerm].leader == n && raft.log == h.tenures[raft.currentTerm].log
  }

  ghost predicate Elected(c: Cluster, h: History) {
    forall t :: t in h.tenures ==> TenureElected(c, h, t)
  }

  ghost predicate BallotsOk(c: Cluster, h: History) {
    && (forall k :: k in h.ballots ==> BallotOk(c, h, k))
    && (forall k :: k in h.runs ==> k.0 in c.nodes && k.1 <= Raft(c, k.0).currentTerm)
  }

  ghost predicate Voters(c: Cluster, h: History) {
    forall n :: n in c.nodes ==> VoterOk(h, n, Raft(c, n))
  }

  ghost predicate Phases(c: Cluster, h: History) {
    forall n :: n in c.nodes ==> PhaseOk(c, h, n)
  }

  ghost predicate Leaders(c: Cluster, h: History) {
    forall n :: n in c.nodes ==> LeaderOk(h, n, Raft(c, n))
  }

  ghost predicate VoteInv(c: Cluster, h: History) {
    Elected(c, h) && BallotsOk(c, h) && Voters(c, h) && Phases(c, h) && Leaders(c, h)
  }

  // ---- Acknowledgements ----

  ghost predicate AckKnown(h: History, a: Ack) {
    a.term in h.tenures && a.len <= |h.tenures[a.term].log|
  }

  /** The entries an acknowledgement covers. */
  ghost function Held(h: History, a: Ack): seq<LogEntry>
    requires AckKnown(h, a)
  {
    h.tenures[a.term].log[..a.len]
  }

  /** Some leader between the acknowledged term and `bound` started without those entries. */
  ghost predicate Lost(h: History, a: Ack, bound: nat)
    requires AckKnown(h, a)
  {
    exists u :: u in h.tenures && a.term < u < bound && !(Held(h, a) <= h.tenures[u].start)
  }

  ghost predicate AckOk(c: Cluster, h: History, a: Ack) {
    && AckKnown(h, a)
    && a.peer in c.nodes
    && a.term <= Raft(c, a.peer).currentTerm
    && (Held(h, a) <= Raft(c, a.peer).log || Lost(h, a, Raft(c, a.peer).currentTerm + 1))
  }

  ghost predicate AckInv(c: Cluster, h: History) {
    forall a :: a in h.acks ==> AckOk(c, h, a)
  }

  /** A voter that held entries written in an earlier term votes only for candidates that have them, unless a
      leader in between already lacked them or the vote did not count. */
  ghost predicate BallotKeeps(h: History, a: Ack, term: nat)
    requires AckKnown(h, a) && (a.peer, term) in h.ballots && (h.ballots[(a.peer, term)], term) in h.runs
  {
    || Held(h, a) <= h.runs[(h.ballots[(a.peer, term)], term)]
    || Lost(h, a, term)
    || (term in h.tenures && a.peer !in h.tenures[term].quorum)
  }

  ghost predicate BallotInv(h: History)
  {
    forall a, t :: a in h.acks && (a.peer, t) in h.ballots && a.term < t ==>
      && AckKnown(h, a) && (h.ballots[(a.peer, t)], t) in h.runs
      && (a.len > |h.tenures[a.term].start| ==> BallotKeeps(h, a, t))
  }

  // ---- Commitment ----

  ghost predicate DecisionOk(c: Cluster, h: History, d: Decision) {
    && d.term in h.tenures
    && |h.tenures[d.term].start| < d.len <= |h.tenures[d.term].log|
    && d.quorum <= c.nodes.Keys
    && IsMajority(c, d.quorum)
    && forall v :: v in d.quorum ==> Ack(v, d.term, d.len) in h.acks
  }

  /** `p` was committed by a leader of a term up to `t`. */
  ghost predicate Committed(h: History, p: seq<LogEntry>, t: nat) {
    p == [] || exists d :: d in h.decisions && d.term <= t && d.term in h.tenures
                           && d.len <= |h.tenures[d.term].log| && p <= h.tenures[d.term].log[..d.len]
  }

  ghost predicate CommitInv(c: Cluster, h: History) {
    && (forall d :: d in h.decisions ==> DecisionOk(c, h, d))
    && (forall n :: n in c.nodes ==>
          Raft(c, n).commitIndex <= |Raft(c, n).log|
          && Committed(h, Raft(c, n).log[..Raft(c, n).commitIndex], Raft(c, n).currentTerm))
  }

  // ---- Messages ----

  ghost predicate AppendOk(h: History, req: AppendRequest) {
    && req.term in h.tenures
    && h.tenures[req.term].leader == req.leaderId
    && SliceOf(req, h.tenures[req.term].log)
    && Committed(h, h.tenures[req.term].log[..req.leaderCommit], req.term)
  }

  ghost predicate MessageOk(h: History, m: Message) {
    match m
    case VoteAsk(to, vote) =>
      && (vote.candidateId, vote.term) in h.runs
      && var log := h.runs[(vote.candidateId, vote.term)];
      vote.lastLogIndex == LastLogIndex(log) && vote.lastLogTerm == LastLogTerm(log)
    case VoteReply(from, vote, granted) =>
      granted ==> (from, vote.term) in h.ballots && h.ballots[(from, vote.term)] == vote.candidateId
    case AppendAsk(to, append) => to != append.leaderId && AppendOk(h, append)
    case AppendReply(from, append, success) =>
      success ==> Ack(from, append.term, append.prevLogIndex + |append.entries|) in h.acks
  }

  ghost predicate NetInv(c: Cluster, h: History) {
    forall m :: m in c.net ==> MessageOk(h, m)
  }

  ghost predicate Inv(c: Cluster, h: History) {
    && PeerInv(c)
    && DataInv(c, h)
    && LogInv(c, h)
    && VoteInv(c, h)
    && AckInv(c, h)
    && BallotInv(h)
    && CommitInv(c, h)
    && NetInv(c, h)
  }

  // ---- Facts about logs ----

  lemma LogOkGrows(h: History, g: History, log: seq<LogEntry>)
    requires Grows(h, g) && LogOk(h, log)
    ensures LogOk(g, log)
  {}

  lemma LogOkPrefix(h: History, a: seq<LogEntry>, b: seq<LogEntry>)
    requires LogOk(h, b) && a <= b
    ensures LogOk(h, a)
  {
    forall i | 0 <= i < |a| ensures a[i].term in h.tenures && a[..i + 1] <= h.tenures[a[i].term].log {
      assert a[i] == b[i] && a[..i + 1] == b[..i + 1];
    }
  }

  /** Log Matching, for any two logs the history vouches for. */
  lemma LogsAgree(h: History, a: seq<LogEntry>, b: seq<LogEntry>)
    requires LogOk(h, a) && LogOk(h, b)
    ensures Agree(a, b)
  {
    forall i | 0 <= i < |a| && i < |b| && a[i].term == b[i].term ensures a[..i + 1] == b[..i + 1] {
      var l := h.tenures[a[i].term].log;
      assert a[..i + 1] <= l && b[..i + 1] <= l;
      assert a[..i + 1] == l[..i + 1] == b[..i + 1];
    }
  }

  /** Two majorities of the same cluster share a peer. */
  lemma QuorumsMeet(all: set<nat>, a: set<nat>, b: set<nat>) returns (x: nat)
    requires a <= all && b <= all && |a| > |all| / 2 && |b| > |all| / 2
    ensures x in a && x in b
  {
    if a * b == {} {
      assert |a + b| == |a| + |b|;
      SubsetSize(a + b, all);
      assert false;
    }
    x :| x in a * b;
  }

  lemma {:induction false} SubsetSize(a: set<nat>, b: set<nat>)
    requires a <= b
    ensures |a| <= |b|
  {
    if a != {} {
      var x :| x in a;
      SubsetSize(a - {x}, b - {x});
    }
  }

  // ---- Growth of derived facts ----

  lemma HeldGrows(h: History, g: History, a: Ack)
    requires Grows(h, g) && AckKnown(h, a)
    ensures AckKnown(g, a) && Held(g, a) == Held(h, a)
  {}

  lemma LostGrows(h: History, g: History, a: Ack, bound: nat, bound': nat)
    requires Grows(h, g) && AckKnown(h, a) && Lost(h, a, bound) && bound <= bound'
    ensures AckKnown(g, a) && Lost(g, a, bound')
  {
    HeldGrows(h, g, a);
    var u :| u in h.tenures && a.term < u < bound && !(Held(h, a) <= h.tenures[u].start);
    assert u in g.tenures && !(Held(g, a) <= g.tenures[u].start);
  }

  lemma CommittedGrows(h: History, g: History, p: seq<LogEntry>, t: nat, t': nat)
    requires Grows(h, g) && Committed(h, p, t) && t <= t'
    ensures Committed(g, p, t')
  {
    if p != [] {
      var d :| d in h.decisions && d.term <= t && d.term in h.tenures
               && d.len <= |h.tenures[d.term].log| && p <= h.tenures[d.term].log[..d.len];
      assert d in g.decisions && h.tenures[d.term].log[..d.len] == g.tenures[d.term].log[..d.len];
    }
  }

  lemma MessageGrows(h: History, g: History, m: Message)
    requires Grows(h, g) && MessageOk(h, m)
    ensures MessageOk(g, m)
  {
    if m.AppendAsk? {
      var req := m.append;
      var l, l' := h.tenures[req.term].log, g.tenures[req.term].log;
      assert l[req.prevLogIndex..req.prevLogIndex + |req.entries|] == l'[req.prevLogIndex..req.prevLogIndex + |req.entries|];
      assert l[..req.leaderCommit] == l'[..req.leaderCommit];
      CommittedGrows(h, g, l[..req.leaderCommit], req.term, req.term);
    }
  }

  lemma DecisionGrows(c: Cluster, c': Cluster, h: History, g: History, d: Decision)
    requires Grows(h, g) && DecisionOk(c, h, d) && c.nodes.Keys == c'.nodes.Keys
    ensures DecisionOk(c', g, d)
  {
    assert |c.nodes| == |c.nodes.Keys| && |c'.nodes| == |c'.nodes.Keys|;
  }
}
