/** Region metadata and the geometry of key ranges. */
module Regions {
  import opened Basics
  import opened Order
  import opened KvEngine

  datatype PeerRole = Voter | Learner
  datatype PeerInfo = PeerInfo(peerId: nat, storeId: nat, role: PeerRole)
  datatype Epoch = Epoch(confVer: nat, version: nat)
  datatype RegionInfo = RegionInfo(
    regionId: nat, startKey: Text, endKey: Text, epoch: Epoch, peers: seq<PeerInfo>, leaderPeerId: nat)

  /** What PD records of a physical store. */
  datatype Endpoint = Endpoint(host: Text, port: int)
  datatype StoreInfo = StoreInfo(storeId: nat, raftEndpoint: Endpoint, clientEndpoint: Endpoint, state: Text, lastHeartbeatMs: int)

  predicate ContainsKey(r: RegionInfo, key: Text) {
    InRange(key, r.startKey, r.endKey)
  }

  function FindPeer(peers: seq<PeerInfo>, peerId: nat): (r: Option<PeerInfo>)
    ensures r.Some? ==> r.value in peers && r.value.peerId == peerId
    ensures r.None? ==> forall p :: p in peers ==> p.peerId != peerId
  {
    if peers == [] then None
    else if peers[0].peerId == peerId then Some(peers[0])
    else FindPeer(peers[1..], peerId)
  }

  function FindPeerByStore(peers: seq<PeerInfo>, storeId: nat): (r: Option<PeerInfo>)
    ensures r.Some? ==> r.value in peers && r.value.storeId == storeId
    ensures r.None? ==> forall p :: p in peers ==> p.storeId != storeId
  {
    if peers == [] then None
    else if peers[0].storeId == storeId then Some(peers[0])
    else FindPeerByStore(peers[1..], storeId)
  }

  /** `remove_if` by peer id. */
  function Dropped(peers: seq<PeerInfo>, peerId: nat): seq<PeerInfo> {
    if peers == [] then []
    else (if peers[0].peerId == peerId then [] else [peers[0]]) + Dropped(peers[1..], peerId)
  }

  ghost predicate DistinctPeers(peers: seq<PeerInfo>) {
    forall i, j :: 0 <= i < j < |peers| ==> peers[i].storeId != peers[j].storeId && peers[i].peerId != peers[j].peerId
  }

  /** `remove_if` drops exactly the peers with the id. */
  lemma {:induction false} DroppedPeers(peers: seq<PeerInfo>, peerId: nat)
    ensures forall p :: p in Dropped(peers, peerId) <==> p in peers && p.peerId != peerId
    ensures DistinctPeers(peers) ==> DistinctPeers(Dropped(peers, peerId))
    decreases |peers|
  {
    if peers != [] {
      var rest := Dropped(peers[1..], peerId);
      DroppedPeers(peers[1..], peerId);
      assert forall p :: p in peers <==> p == peers[0] || p in peers[1..];
      if DistinctPeers(peers) {
        assert DistinctPeers(peers[1..]);
        forall i | 0 <= i < |rest| ensures rest[i].storeId != peers[0].storeId && rest[i].peerId != peers[0].peerId {
          assert rest[i] in peers[1..];
          var k :| 0 <= k < |peers[1..]| && peers[1..][k] == rest[i];
          assert peers[k + 1] == rest[i];
        }
      }
    }
  }

  /** Dropping an id takes out the one peer that has it. */
  lemma {:induction false} DroppedAt(peers: seq<PeerInfo>, i: nat)
    requires DistinctPeers(peers) && i < |peers|
    ensures Dropped(peers, peers[i].peerId) == peers[..i] + peers[i + 1..]
    decreases |peers|
  {
    var rest := peers[1..];
    assert forall j :: 0 <= j < |rest| ==> rest[j] == peers[j + 1];
    if i == 0 {
      NothingDropped(rest, peers[0].peerId);
    } else {
      assert DistinctPeers(rest);
      DroppedAt(rest, i - 1);
      assert [peers[0]] + (rest[..i - 1] + rest[i..]) == peers[..i] + peers[i + 1..];
    }
  }

  lemma {:induction false} NothingDropped(peers: seq<PeerInfo>, peerId: nat)
    requires forall j :: 0 <= j < |peers| ==> peers[j].peerId != peerId
    ensures Dropped(peers, peerId) == peers
    decreases |peers|
  {
    if peers != [] {
      assert forall j :: 0 <= j < |peers[1..]| ==> peers[1..][j] == peers[j + 1];
      NothingDropped(peers[1..], peerId);
    }
  }

  // ---- Ranges ----

  /** The guard of both split operations. */
  predicate CanSplit(r: RegionInfo, key: Text) {
    ContainsKey(r, key) && key != r.startKey && (r.endKey == "" || key != r.endKey)
  }

  /** The left half of a split keeps the id. */
  function LeftOf(r: RegionInfo, key: Text): RegionInfo {
    r.(endKey := key, epoch := r.epoch.(version := r.epoch.version + 1))
  }

  /** The range, id and epoch of the right half; each table numbers its peers its own way. */
  function RightRange(r: RegionInfo, key: Text, id: nat): RegionInfo {
    r.(regionId := id, startKey := key, epoch := r.epoch.(version := r.epoch.version + 1))
  }

  /** The rows of a split region: both one version on; the left one keeps the id, the peers and the leader; the right one runs
      from `key` to the old end, with a peer on every store of the old region, in its role, and the first of them leading. */
  ghost predicate Halves(r: RegionInfo, left: RegionInfo, right: RegionInfo, key: Text, id: nat) {
    && left == RegionInfo(r.regionId, r.startKey, key, Epoch(r.epoch.confVer, r.epoch.version + 1), r.peers, r.leaderPeerId)
    && right == RegionInfo(id, key, r.endKey, Epoch(r.epoch.confVer, r.epoch.version + 1), right.peers, right.leaderPeerId)
    && |right.peers| == |r.peers|
    && (forall j :: 0 <= j < |r.peers| ==> right.peers[j].storeId == r.peers[j].storeId && right.peers[j].role == r.peers[j].role)
    && (r.peers != [] ==> right.leaderPeerId == right.peers[0].peerId)
  }

  /** A key cuts a range when it lies above its start and below its end. */
  lemma CanSplitIs(r: RegionInfo, key: Text)
    ensures CanSplit(r, key) <==> Less(r.startKey, key) && (r.endKey == "" || Less(key, r.endKey))
  {
    LessTotal(r.startKey, key);
    LessIrreflexive(key);
    EmptyFirst(key);
    if Less(r.startKey, key) {
      LessAsymmetric(r.startKey, key);
    }
  }

  /** A range that holds its own start key, so is not empty. */
  predicate Proper(r: RegionInfo) {
    r.endKey == "" || Less(r.startKey, r.endKey)
  }

  lemma StartInside(r: RegionInfo)
    ensures Proper(r) <==> ContainsKey(r, r.startKey)
  {
    LessIrreflexive(r.startKey);
  }

  /** Splitting cuts a range in two: every key of it lies on exactly one side. */
  lemma SplitCuts(r: RegionInfo, key: Text, k: Text)
    requires CanSplit(r, key)
    ensures key != "" && Proper(r.(endKey := key)) && (Proper(r) ==> Proper(r.(startKey := key)))
    ensures ContainsKey(r, k) <==> ContainsKey(r.(endKey := key), k) || ContainsKey(r.(startKey := key), k)
    ensures !(ContainsKey(r.(endKey := key), k) && ContainsKey(r.(startKey := key), k))
    ensures ContainsKey(r.(startKey := key), k) <==> ContainsKey(r, k) && AtMost(key, k)
  {
    LessTotal(r.startKey, key);
    EmptyFirst(r.startKey);
    EmptyFirst(key);
    LessTotal(k, key);
    if Less(k, key) && r.endKey != "" {
      LessTransitive(k, key, r.endKey);
    }
    if AtMost(key, k) && r.startKey != "" {
      AtMostTransitive(r.startKey, key, k);
    }
  }

  /** A region that starts inside another one, at or below a key of it, shares its own start key with it. */
  lemma StartsOverlap(r: RegionInfo, s: RegionInfo, key: Text)
    requires ContainsKey(r, key) && Less(r.startKey, s.startKey) && AtMost(s.startKey, key) && Proper(s)
    ensures ContainsKey(r, s.startKey) && ContainsKey(s, s.startKey)
  {
    StartInside(s);
    LessAsymmetric(r.startKey, s.startKey);
    if r.endKey != "" {
      AtMostLess(s.startKey, key, r.endKey);
    }
  }

  lemma ContainsStart(r: RegionInfo, key: Text)
    requires ContainsKey(r, key)
    ensures AtMost(r.startKey, key)
  {
    EmptyFirst(key);
  }
}
