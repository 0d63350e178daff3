/** `MultiRegionCluster`: regions that tile the key space, each served by a replicated group. */
module Sharding {
  import opened Basics
  import opened KvEngine
  import opened SingleRegion
  import Lockstep
  import GroupRuns
  import opened Migration
  import opened Regions

  datatype Shards = Shards(storeCount: nat, regions: seq<RegionInfo>, clusters: map<nat, Group>)

  /** Every region has its group; the source indexes `clusters_` on that assumption. */
  ghost predicate Wired(s: Shards) {
    forall i :: 0 <= i < |s.regions| ==> s.regions[i].regionId in s.clusters && AllValid(s.clusters[s.regions[i].regionId].stores)
  }

  /** The first region that contains the key; the length when there is none. */
  function FindByKey(regions: seq<RegionInfo>, key: Text): (i: nat)
    ensures i <= |regions| && (i < |regions| ==> ContainsKey(regions[i], key))
    ensures forall j :: 0 <= j < i ==> !ContainsKey(regions[j], key)
  {
    if regions == [] || ContainsKey(regions[0], key) then 0 else 1 + FindByKey(regions[1..], key)
  }

  function FindById(regions: seq<RegionInfo>, id: nat): (i: nat)
    ensures i <= |regions| && (i < |regions| ==> regions[i].regionId == id)
    ensures forall j :: 0 <= j < i ==> regions[j].regionId != id
  {
    if regions == [] || regions[0].regionId == id then 0 else 1 + FindById(regions[1..], id)
  }

  /** Hand an operation's result back to the group it ran on. */
  function Update(s: Shards, id: nat, r: (Group, Status)): (Shards, Status) {
    (s.(clusters := s.clusters[id := r.0]), r.1)
  }

  function Put(s: Shards, key: Text, value: Text): (Shards, Status)
    requires Wired(s)
  {
    var i := FindByKey(s.regions, key);
    if i == |s.regions| then (s, Error(RegionNotFound))
    else var id := s.regions[i].regionId; Update(s, id, SingleRegion.Put(s.clusters[id], key, value))
  }

  function Delete(s: Shards, key: Text): (Shards, Status)
    requires Wired(s)
  {
    var i := FindByKey(s.regions, key);
    if i == |s.regions| then (s, Error(RegionNotFound))
    else var id := s.regions[i].regionId; Update(s, id, SingleRegion.Delete(s.clusters[id], key))
  }

  /** Whether every key of the batch belongs to the region with this id. */
  predicate SameTarget(regions: seq<RegionInfo>, id: nat, mus: seq<Mutation>) {
    forall j :: 0 <= j < |mus| ==>
      var i := FindByKey(regions, mus[j].key); i < |regions| && regions[i].regionId == id
  }

  function Batch(s: Shards, mus: seq<Mutation>): (Shards, Status)
    requires Wired(s)
  {
    if mus == [] then (s, Ok)
    else
      var i := FindByKey(s.regions, mus[0].key);
      if i == |s.regions| then (s, Error(RegionNotFound))
      else
        var id := s.regions[i].regionId;
        if !SameTarget(s.regions, id, mus) then (s, Error(InvalidArgument))
        else Update(s, id, SingleRegion.Batch(s.clusters[id], mus))
  }

  function Lookup(m: Store, key: Text): Result<Text> {
    if key in m then Success(m[key]) else Failure(KeyNotFound)
  }

  function Get(s: Shards, key: Text, linearizable: bool): Result<Text> {
    var i := FindByKey(s.regions, key);
    if i == |s.regions| || s.regions[i].regionId !in s.clusters then Failure(RegionNotFound)
    else
      var g := s.clusters[s.regions[i].regionId];
      if linearizable then
        var l := Position(g.stores, g.leaderId);
        if l == |g.stores| then Failure(NotLeader) else Lookup(g.stores[l].peer.engine, key)
      else if g.stores == [] then Failure(Internal)
      else Lookup(g.stores[0].peer.engine, key)
  }

  // ---- Splitting ----

  function MaxNat(a: nat, b: nat): nat {
    if a < b then b else a
  }

  function NextId(regions: seq<RegionInfo>): (id: nat)
    ensures id >= 1 && forall i :: 0 <= i < |regions| ==> regions[i].regionId < id
  {
    if regions == [] then 1
    else MaxNat(NextId(regions[..|regions| - 1]), regions[|regions| - 1].regionId + 1)
  }

  function Renumbered(peers: seq<PeerInfo>, id: nat): (r: seq<PeerInfo>)
    ensures |r| == |peers| && forall i :: 0 <= i < |r| ==> r[i] == peers[i].(peerId := peers[i].peerId + id * 1000)
  {
    seq(|peers|, i requires 0 <= i < |peers| => peers[i].(peerId := peers[i].peerId + id * 1000))
  }

  function RightOf(r: RegionInfo, key: Text, id: nat): RegionInfo {
    var peers := Renumbered(r.peers, id);
    RightRange(r, key, id).(peers := peers, leaderPeerId := if peers == [] then r.leaderPeerId else peers[0].peerId)
  }

  /** The user entries of the leader in a range. */
  function Export(g: Group, lo: Text, hi: Text): seq<(Text, Text)> {
    var l := Position(g.stores, g.leaderId);
    if l == |g.stores| then [] else Moved(g.stores[l].peer.engine, lo, hi)
  }

  /** A group on empty directories. */
  function FreshGroup(id: nat, count: nat): (r: (Group, Status))
    ensures AllValid(r.0.stores)
  {
    FreshValid(id, count);
    Bootstrap(id, seq(count, _ => map[]))
  }

  lemma FreshValid(id: nat, count: nat)
    ensures AllValid(Bootstrap(id, seq(count, _ => map[])).0.stores)
  {
    hide ElectLeader;
    if count != 0 {
      GroupRuns.BootstrapFresh(id, count);
      var g := Bootstrap(id, seq(count, _ => map[])).0;
      Lockstep.AlignedValid(g, Lockstep.TermOf(g), Lockstep.LogOf(g));
    }
  }

  /** The groups of the first `n` regions, each on empty directories; the first failure ends it. */
  function BootGroups(regions: seq<RegionInfo>, count: nat, n: nat): (map<nat, Group>, Status)
    requires n <= |regions|
  {
    if n == 0 then (map[], Ok)
    else
      var (clusters, st) := BootGroups(regions, count, n - 1);
      if st != Ok then (clusters, st)
      else
        var id := regions[n - 1].regionId;
        var (g, status) := FreshGroup(id, count);
        if status != Ok then (clusters, status) else (clusters[id := g], Ok)
  }

  /** Start-up with a list of regions and fresh data. */
  function BootShards(regions: seq<RegionInfo>, count: nat): (Shards, Status) {
    if regions == [] then (Shards(count, [], map[]), Error(InvalidArgument))
    else
      var (clusters, status) := BootGroups(regions, count, |regions|);
      (Shards(count, regions, clusters), status)
  }

  /** Everything that can be refused before data moves. */
  function SplitGuard(s: Shards, regionId: nat, key: Text): Status {
    var i := FindById(s.regions, regionId);
    if i == |s.regions| then Error(RegionNotFound)
    else if !CanSplit(s.regions[i], key) then Error(InvalidArgument)
    else if regionId !in s.clusters then Error(RegionNotFound)
    else Ok
  }

  function SplitRegion(s: Shards, regionId: nat, key: Text): (Shards, Status)
    requires Wired(s)
  {
    hide SingleRegion.Batch, Puts, Deletes, Export, FreshGroup, LeftOf, RightOf, CanSplit, AllValid;
    if SplitGuard(s, regionId, key) != Ok then (s, SplitGuard(s, regionId, key))
    else
      var i := FindById(s.regions, regionId);
      var region := s.regions[i];
      var id := NextId(s.regions);
      var (blank, st0) := FreshGroup(id, s.storeCount);
      if st0 != Ok then (s, st0)
      else
        var source := s.clusters[regionId];
        var moved := Export(source, key, region.endKey);
        var (right, st1) := SingleRegion.Batch(blank, Puts(moved));
        if st1 != Ok then (s, st1)
        else
          var (left, st2) := SingleRegion.Batch(source, Deletes(moved));
          if st2 != Ok then (s.(clusters := s.clusters[regionId := left]), st2)
          else
            (Shards(s.storeCount, s.regions[i := LeftOf(region, key)] + [RightOf(region, key, id)],
                    s.clusters[regionId := left][id := right]), Ok)
  }

  // ---- Membership ----

  /** Rewrite the first region with this id. */
  function EditRegion(regions: seq<RegionInfo>, id: nat, peers: seq<PeerInfo>, leader: nat, confVer: nat): (r: seq<RegionInfo>)
    ensures |r| == |regions|
    ensures forall i :: 0 <= i < |r| ==>
              r[i].regionId == regions[i].regionId && r[i].startKey == regions[i].startKey && r[i].endKey == regions[i].endKey
  {
    var i := FindById(regions, id);
    if i == |regions| then regions
    else regions[i := regions[i].(peers := peers, leaderPeerId := leader, epoch := regions[i].epoch.(confVer := confVer))]
  }

  function Peers(regions: seq<RegionInfo>, id: nat): seq<PeerInfo> {
    var i := FindById(regions, id);
    if i == |regions| then [] else regions[i].peers
  }

  function LeaderHint(regions: seq<RegionInfo>, id: nat): nat {
    var i := FindById(regions, id);
    if i == |regions| then 0 else regions[i].leaderPeerId
  }

  function ConfVer(regions: seq<RegionInfo>, id: nat): nat {
    var i := FindById(regions, id);
    if i == |regions| then 0 else regions[i].epoch.confVer
  }

  function TransferLeader(s: Shards, id: nat, peerId: nat): (Shards, Status) {
    if id !in s.clusters then (s, Error(RegionNotFound))
    else
      var (t, status) := Update(s, id, SingleRegion.TransferLeader(s.clusters[id], peerId));
      if status != Ok then (t, status)
      else (t.(regions := EditRegion(s.regions, id, Peers(s.regions, id), peerId, ConfVer(s.regions, id))), Ok)
  }

  function AddPeer(s: Shards, id: nat, storeId: nat, peerId: nat): (Shards, Status) {
    if id !in s.clusters then (s, Error(RegionNotFound))
    else
      var (t, status) := Update(s, id, SingleRegion.AddPeer(s.clusters[id], storeId, peerId));
      if status != Ok then (t, status)
      else
        (t.(regions := EditRegion(s.regions, id, Peers(s.regions, id) + [PeerInfo(peerId, storeId, Voter)],
                                  LeaderHint(s.regions, id), ConfVer(s.regions, id) + 1)), Ok)
  }

  function RemovePeer(s: Shards, id: nat, peerId: nat): (Shards, Status) {
    if id !in s.clusters then (s, Error(RegionNotFound))
    else
      var (t, status) := Update(s, id, SingleRegion.RemovePeer(s.clusters[id], peerId));
      if status != Ok then (t, status)
      else
        var peers := Dropped(Peers(s.regions, id), peerId);
        var hint := LeaderHint(s.regions, id);
        (t.(regions := EditRegion(s.regions, id, peers, if hint == peerId && peers != [] then peers[0].peerId else hint,
                                  ConfVer(s.regions, id) + 1)), Ok)
  }
}
