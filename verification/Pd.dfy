/** The placement driver: stores, regions, the start-key index and the id counters. */
module Pd {
  import opened Basics
  import opened Order
  import opened Regions

  datatype Metadata = Metadata(
    stores: map<nat, StoreInfo>, regions: map<nat, RegionInfo>, byStart: map<Text, nat>,
    nextStore: nat, nextRegion: nat, nextPeer: nat)

  const EMPTY := Metadata(map[], map[], map[], 1, 1, 1)

  // ---- The metadata store ----

  function PutStore(m: Metadata, store: StoreInfo): (Metadata, Status) {
    if store.storeId == 0 then (m, Error(InvalidArgument)) else (m.(stores := m.stores[store.storeId := store]), Ok)
  }

  function PutRegion(m: Metadata, region: RegionInfo): (Metadata, Status) {
    if region.regionId == 0 then (m, Error(InvalidArgument))
    else (m.(regions := m.regions[region.regionId := region], byStart := m.byStart[region.startKey := region.regionId]), Ok)
  }

  /** The position that `upper_bound` returns: the first key above `key`. */
  function UpperBound(ks: seq<Text>, key: Text): (i: nat)
    ensures i <= |ks| && (i < |ks| ==> Less(key, ks[i]))
    ensures forall j :: 0 <= j < i ==> AtMost(ks[j], key)
  {
    if ks == [] || Less(key, ks[0]) then 0 else 1 + UpperBound(ks[1..], key)
  }

  function GetRegionByKey(m: Metadata, key: Text): Option<RegionInfo> {
    var ks := Keys(m.byStart.Keys);
    var i := UpperBound(ks, key);
    if i == 0 then None
    else
      assert ks[i - 1] in ks;
      var id := m.byStart[ks[i - 1]];
      if id in m.regions && ContainsKey(m.regions[id], key) then Some(m.regions[id]) else None
  }

  // ---- The server ----

  function RegisterStore(m: Metadata, store: StoreInfo): (Metadata, Status) {
    if store.storeId == 0 then PutStore(m.(nextStore := m.nextStore + 1), store.(storeId := m.nextStore))
    else PutStore(if store.storeId >= m.nextStore then m.(nextStore := store.storeId + 1) else m, store)
  }

  function StoreHeartbeat(m: Metadata, storeId: nat, now: int): (Metadata, Status) {
    if storeId !in m.stores then (m, Error(StoreNotFound))
    else PutStore(m, m.stores[storeId].(lastHeartbeatMs := now, state := "Up"))
  }

  /** The first id that is not registered; the length when all are. */
  function FirstMissing(m: Metadata, ids: seq<nat>): (i: nat)
    ensures i <= |ids| && (i < |ids| ==> ids[i] !in m.stores)
    ensures forall j :: 0 <= j < i ==> ids[j] in m.stores
  {
    if ids == [] || ids[0] !in m.stores then 0 else 1 + FirstMissing(m, ids[1..])
  }

  function NewVoters(ids: seq<nat>, next: nat): (r: seq<PeerInfo>)
    ensures |r| == |ids| && forall i :: 0 <= i < |r| ==> r[i] == PeerInfo(next + i, ids[i], Voter)
  {
    seq(|ids|, i requires 0 <= i < |ids| => PeerInfo(next + i, ids[i], Voter))
  }

  /** The default region covers every key. A store that is not registered ends the operation after ids were drawn. */
  function BootstrapDefaultRegion(m: Metadata, ids: seq<nat>): (Metadata, Status) {
    if m.regions != map[] then (m, Ok)
    else if ids == [] then (m, Error(InvalidArgument))
    else
      var found := FirstMissing(m, ids);
      var drawn := m.(nextRegion := m.nextRegion + 1, nextPeer := m.nextPeer + found);
      if found < |ids| then (drawn, Error(StoreNotFound))
      else PutRegion(drawn, RegionInfo(m.nextRegion, "", "", Epoch(1, 1), NewVoters(ids, m.nextPeer), m.nextPeer))
  }

  function NewPeers(peers: seq<PeerInfo>, next: nat): (r: seq<PeerInfo>)
    ensures |r| == |peers| && forall i :: 0 <= i < |r| ==> r[i] == peers[i].(peerId := next + i)
  {
    seq(|peers|, i requires 0 <= i < |peers| => peers[i].(peerId := next + i))
  }

  function RightOf(r: RegionInfo, key: Text, id: nat, next: nat): RegionInfo {
    RightRange(r, key, id).(peers := NewPeers(r.peers, next), leaderPeerId := if r.peers == [] then 0 else next)
  }

  function SplitRegion(m: Metadata, regionId: nat, key: Text): (Metadata, Status) {
    if regionId !in m.regions then (m, Error(RegionNotFound))
    else
      var r := m.regions[regionId];
      if !CanSplit(r, key) then (m, Error(InvalidArgument))
      else
        var drawn := m.(nextRegion := m.nextRegion + 1, nextPeer := m.nextPeer + |r.peers|);
        var (left, st) := PutRegion(drawn, LeftOf(r, key));
        if st != Ok then (left, st) else PutRegion(left, RightOf(r, key, m.nextRegion, m.nextPeer))
  }

  function AddPeer(m: Metadata, regionId: nat, storeId: nat): (Metadata, Status) {
    if regionId !in m.regions then (m, Error(RegionNotFound))
    else if storeId !in m.stores then (m, Error(StoreNotFound))
    else
      var r := m.regions[regionId];
      if FindPeerByStore(r.peers, storeId).Some? then (m, Error(InvalidArgument))
      else
        PutRegion(m.(nextPeer := m.nextPeer + 1),
                  r.(peers := r.peers + [PeerInfo(m.nextPeer, storeId, Voter)], epoch := r.epoch.(confVer := r.epoch.confVer + 1)))
  }

  function RemovePeer(m: Metadata, regionId: nat, peerId: nat): (Metadata, Status) {
    if regionId !in m.regions then (m, Error(RegionNotFound))
    else
      var r := m.regions[regionId];
      var rest := Dropped(r.peers, peerId);
      if |rest| == |r.peers| || rest == [] then (m, Error(InvalidArgument))
      else
        PutRegion(m, r.(peers := rest, leaderPeerId := if r.leaderPeerId == peerId then rest[0].peerId else r.leaderPeerId,
                        epoch := r.epoch.(confVer := r.epoch.confVer + 1)))
  }

  function TransferLeader(m: Metadata, regionId: nat, peerId: nat): (Metadata, Status) {
    if regionId !in m.regions then (m, Error(RegionNotFound))
    else if FindPeer(m.regions[regionId].peers, peerId).None? then (m, Error(InvalidArgument))
    else PutRegion(m, m.regions[regionId].(leaderPeerId := peerId))
  }

  function GetRegionLeaderStore(m: Metadata, r: RegionInfo): Option<StoreInfo> {
    match FindPeer(r.peers, r.leaderPeerId)
    case None => None
    case Some(p) => if p.storeId in m.stores then Some(m.stores[p.storeId]) else None
  }
}
