/** What every run of the placement driver keeps. */
module PdRuns {
  import opened Basics
  import opened Order
  import opened KvEngine
  import opened Regions
  import opened Pd

  // ---- Ranges and the index ----

  ghost predicate Disjoint(m: Metadata) {
    forall a, b, key :: a in m.regions && b in m.regions && a != b && ContainsKey(m.regions[a], key) ==> !ContainsKey(m.regions[b], key)
  }

  ghost predicate HasKey(m: Metadata, key: Text) {
    exists id :: id in m.regions && ContainsKey(m.regions[id], key)
  }

  ghost predicate Covering(m: Metadata) {
    forall key :: HasKey(m, key)
  }

  /** The index maps each region's start key to it and nothing else. */
  ghost predicate Indexed(m: Metadata) {
    && (forall id :: id in m.regions ==> m.regions[id].startKey in m.byStart && m.byStart[m.regions[id].startKey] == id)
    && (forall s :: s in m.byStart ==> m.byStart[s] in m.regions && m.regions[m.byStart[s]].startKey == s)
  }

  ghost predicate AllProper(m: Metadata) {
    forall id :: id in m.regions ==> Proper(m.regions[id]) && m.regions[id].regionId == id && 0 < id < m.nextRegion
  }

  ghost predicate RangesOk(m: Metadata) {
    Disjoint(m) && Indexed(m) && AllProper(m) && (m.regions != map[] ==> Covering(m)) && 0 < m.nextRegion
  }

  /** Stepping back from `upper_bound` in the index finds exactly the region that a scan with `ContainsKey` finds. */
  lemma LookupIsScan(m: Metadata, key: Text, r: RegionInfo)
    requires Disjoint(m) && Indexed(m) && AllProper(m)
    ensures GetRegionByKey(m, key) == Some(r) <==> (exists id :: id in m.regions && m.regions[id] == r && ContainsKey(r, key))
  {
    hide ContainsKey, Proper, Keys;
    if id :| id in m.regions && m.regions[id] == r && ContainsKey(r, key) {
      FloorIsOwner(m, key, id);
    }
    if GetRegionByKey(m, key) == Some(r) {
      var ks := Keys(m.byStart.Keys);
      assert ks[UpperBound(ks, key) - 1] in ks;
      assert m.byStart[ks[UpperBound(ks, key) - 1]] in m.regions;
    }
  }

  lemma LookupId(m: Metadata, key: Text)
    requires Indexed(m) && AllProper(m)
    ensures var r := GetRegionByKey(m, key); r.Some? ==> r.value.regionId in m.regions && m.regions[r.value.regionId] == r.value
  {
    hide ContainsKey, Proper, Keys;
    var ks := Keys(m.byStart.Keys);
    var i := UpperBound(ks, key);
    assert i > 0 ==> ks[i - 1] in ks;
  }

  lemma FloorIsOwner(m: Metadata, key: Text, id: nat)
    requires Disjoint(m) && Indexed(m) && AllProper(m) && id in m.regions && ContainsKey(m.regions[id], key)
    ensures GetRegionByKey(m, key) == Some(m.regions[id])
  {
    hide ContainsKey, Proper, Keys, Less;
    var r := m.regions[id];
    var ks := Keys(m.byStart.Keys);
    var i := UpperBound(ks, key);
    ContainsStart(r, key);
    assert r.startKey in ks;
    var j :| 0 <= j < |ks| && ks[j] == r.startKey;
    FloorAbove(ks, key, i, j);
    assert ks[i - 1] in ks;
    var s := m.regions[m.byStart[ks[i - 1]]];
    if j < i - 1 {
      assert Less(ks[j], ks[i - 1]);
      StartsOverlap(r, s, key);
    }
  }

  lemma FloorAbove(ks: seq<Text>, key: Text, i: nat, j: nat)
    requires Ascending(ks) && i == UpperBound(ks, key) && j < |ks| && AtMost(ks[j], key)
    ensures j < i
  {
    if i <= j {
      if i < j {
        LessTransitive(key, ks[i], ks[j]);
      }
      assert false;
    }
  }

  // ---- Peers ----

  ghost predicate PeersOk(m: Metadata, r: RegionInfo) {
    && r.peers != []
    && (forall i :: 0 <= i < |r.peers| ==> 0 < r.peers[i].peerId < m.nextPeer && r.peers[i].storeId in m.stores)
    && (forall i, j :: 0 <= i < j < |r.peers| ==> r.peers[i].storeId != r.peers[j].storeId && r.peers[i].peerId != r.peers[j].peerId)
    && (exists i :: 0 <= i < |r.peers| && r.peers[i].peerId == r.leaderPeerId)
  }

  ghost predicate Apart(a: RegionInfo, b: RegionInfo) {
    forall i, j :: 0 <= i < |a.peers| && 0 <= j < |b.peers| ==> a.peers[i].peerId != b.peers[j].peerId
  }

  ghost predicate MembersOk(m: Metadata) {
    && 0 < m.nextPeer
    && (forall id :: id in m.regions ==> PeersOk(m, m.regions[id]))
    && (forall a, b :: a in m.regions && b in m.regions && a != b ==> Apart(m.regions[a], m.regions[b]))
  }

  ghost predicate StoresOk(m: Metadata) {
    0 < m.nextStore && forall id :: id in m.stores ==> m.stores[id].storeId == id && 0 < id < m.nextStore
  }

  ghost predicate PdOk(m: Metadata) {
    RangesOk(m) && MembersOk(m) && StoresOk(m)
  }

  /** The recorded leader leads to a registered store: that of the region's peer with its id. */
  lemma LeaderStoreExists(m: Metadata, id: nat)
    requires PdOk(m) && id in m.regions
    ensures var r := m.regions[id];
            exists i :: 0 <= i < |r.peers| && r.peers[i].peerId == r.leaderPeerId && r.peers[i].storeId in m.stores
                        && GetRegionLeaderStore(m, r) == Some(m.stores[r.peers[i].storeId])
  {
    hide RangesOk, FindPeer;
    var r := m.regions[id];
    assert PeersOk(m, r);
    var i :| 0 <= i < |r.peers| && r.peers[i].peerId == r.leaderPeerId;
    assert r.peers[i] in r.peers;
    var found := FindPeer(r.peers, r.leaderPeerId).value;
    var k :| 0 <= k < |r.peers| && r.peers[k] == found;
    assert r.peers[k].peerId == r.leaderPeerId;
  }

  // ---- Every operation keeps the invariant ----

  /** Region `id` is rewritten inside its old range. */
  lemma EditRanges(m: Metadata, n: Metadata, id: nat, r: RegionInfo)
    requires RangesOk(m) && id in m.regions && n.nextRegion == m.nextRegion
    requires r.regionId == id && r.startKey == m.regions[id].startKey && r.endKey == m.regions[id].endKey
    requires n.regions == m.regions[id := r] && n.byStart == m.byStart[r.startKey := id]
    ensures RangesOk(n)
  {
    hide InRange, Less;
    forall key ensures HasKey(n, key) {
      assert HasKey(m, key);
      var x :| x in m.regions && ContainsKey(m.regions[x], key);
      assert ContainsKey(n.regions[x], key);
    }
  }

  /** The peers of region `id` are replaced by some of its own and new ones. */
  lemma EditMembers(m: Metadata, n: Metadata, id: nat, r: RegionInfo)
    requires MembersOk(m) && n.regions == m.regions[id := r] && m.nextPeer <= n.nextPeer && m.stores.Keys <= n.stores.Keys
    requires PeersOk(n, r)
    requires forall i :: 0 <= i < |r.peers| ==> r.peers[i].peerId >= m.nextPeer || (id in m.regions && HasPeer(m.regions[id], r.peers[i].peerId))
    ensures MembersOk(n)
  {
    forall x | x in n.regions ensures PeersOk(n, n.regions[x]) {
      if x != id {
        assert PeersOk(m, m.regions[x]);
      }
    }
    forall a, b | a in n.regions && b in n.regions && a != b ensures Apart(n.regions[a], n.regions[b]) {
      if a == id {
        NewApart(m, r, id, b);
      } else if b == id {
        NewApart(m, r, id, a);
        ApartBack(r, n.regions[a]);
      } else {
        assert Apart(m.regions[a], m.regions[b]);
      }
    }
  }

  ghost predicate HasPeer(r: RegionInfo, peerId: nat) {
    exists i :: 0 <= i < |r.peers| && r.peers[i].peerId == peerId
  }

  lemma ApartBack(a: RegionInfo, b: RegionInfo)
    requires Apart(a, b)
    ensures Apart(b, a)
  {}

  lemma NewApart(m: Metadata, r: RegionInfo, id: nat, x: nat)
    requires MembersOk(m) && x in m.regions && x != id
    requires forall i :: 0 <= i < |r.peers| ==> r.peers[i].peerId >= m.nextPeer || (id in m.regions && HasPeer(m.regions[id], r.peers[i].peerId))
    ensures Apart(r, m.regions[x])
  {
    var s := m.regions[x];
    assert PeersOk(m, s);
    forall i, j | 0 <= i < |r.peers| && 0 <= j < |s.peers| ensures r.peers[i].peerId != s.peers[j].peerId {
      if r.peers[i].peerId < m.nextPeer {
        var k :| 0 <= k < |m.regions[id].peers| && m.regions[id].peers[k].peerId == r.peers[i].peerId;
        assert Apart(m.regions[id], s);
      }
    }
  }

  lemma RangesMove(m: Metadata, n: Metadata)
    requires RangesOk(m) && n.regions == m.regions && n.byStart == m.byStart && m.nextRegion <= n.nextRegion
    ensures RangesOk(n)
  {
    hide ContainsKey, Proper;
    forall key ensures HasKey(m, key) ==> HasKey(n, key) {
      if HasKey(m, key) {
        var id :| id in m.regions && ContainsKey(m.regions[id], key);
        assert ContainsKey(n.regions[id], key);
      }
    }
  }

  lemma MembersMove(m: Metadata, n: Metadata)
    requires MembersOk(m) && n.regions == m.regions && m.nextPeer <= n.nextPeer && m.stores.Keys <= n.stores.Keys
    ensures MembersOk(n)
  {
    hide Apart;
    forall id | id in n.regions ensures PeersOk(n, n.regions[id]) {
      assert PeersOk(m, m.regions[id]);
    }
  }

  lemma StoresMove(m: Metadata, n: Metadata)
    requires PdOk(m) && StoresOk(n) && m.stores.Keys <= n.stores.Keys
    requires n == m.(stores := n.stores, nextStore := n.nextStore)
    ensures PdOk(n)
  {
    hide RangesOk, MembersOk;
    RangesMove(m, n);
    MembersMove(m, n);
  }

  /** A store that registers gets an id that no store has, or keeps the one it asked for; the counter stays above every id, and
      nothing else is touched. */
  lemma RegisterKeeps(m: Metadata, store: StoreInfo)
    requires PdOk(m)
    ensures var (n, status) := RegisterStore(m, store);
            var id := if store.storeId == 0 then m.nextStore else store.storeId;
            && PdOk(n) && status == Ok && (store.storeId == 0 ==> id !in m.stores)
            && n == m.(stores := m.stores[id := StoreInfo(id, store.raftEndpoint, store.clientEndpoint, store.state, store.lastHeartbeatMs)],
                       nextStore := if id < m.nextStore then m.nextStore else id + 1)
  {
    hide RangesOk, MembersOk;
    StoresMove(m, RegisterStore(m, store).0);
  }

  /** A heartbeat of a known store marks it up at that time and touches nothing else. */
  lemma HeartbeatKeeps(m: Metadata, storeId: nat, now: int)
    requires PdOk(m)
    ensures var (n, status) := StoreHeartbeat(m, storeId, now);
            && PdOk(n)
            && (storeId !in m.stores ==> n == m && status == Error(StoreNotFound))
            && (storeId in m.stores ==>
                  var s := m.stores[storeId];
                  status == Ok && n == m.(stores := m.stores[storeId := StoreInfo(storeId, s.raftEndpoint, s.clientEndpoint, "Up", now)]))
  {
    hide RangesOk, MembersOk;
    StoresMove(m, StoreHeartbeat(m, storeId, now).0);
  }

  /** Bootstrapping keeps everything in order exactly when there is a region already, the call names no store or an unknown
      one, or it names each store once: naming one twice gives the default region two peers on it. */
  lemma BootstrapKeeps(m: Metadata, ids: seq<nat>)
    requires PdOk(m)
    ensures PdOk(BootstrapDefaultRegion(m, ids).0)
       <==> m.regions != map[] || ids == [] || (exists i :: 0 <= i < |ids| && ids[i] !in m.stores) || Distinct(ids)
  {
    hide RangesOk, PeersOk;
    RangesPositive(m);
    var (n, status) := BootstrapDefaultRegion(m, ids);
    if m.regions == map[] && ids != [] {
      if FirstMissing(m, ids) == |ids| {
        DefaultRanges(m, n);
        DefaultMembers(m, n, ids);
      } else {
        RangesMove(m, n);
        MembersMove(m, n);
      }
    }
  }

  /** The default region covers every key at epoch (1, 1), with a new voter on each store in order and the first of them
      leading. A store that is unknown ends the call, but the ids drawn so far are gone. */
  lemma BootstrapEffect(m: Metadata, ids: seq<nat>)
    requires PdOk(m)
    ensures var (n, status) := BootstrapDefaultRegion(m, ids);
            && (m.regions != map[] ==> n == m && status == Ok)
            && (m.regions == map[] && ids == [] ==> n == m && status == Error(InvalidArgument))
            && (m.regions == map[] && ids != [] && (forall i :: 0 <= i < |ids| ==> ids[i] in m.stores) ==>
                  && status == Ok && m.nextRegion in n.regions
                  && var peers := n.regions[m.nextRegion].peers;
                  && |peers| == |ids| && (forall i :: 0 <= i < |ids| ==> peers[i] == PeerInfo(m.nextPeer + i, ids[i], Voter))
                  && n == Metadata(m.stores, map[m.nextRegion := RegionInfo(m.nextRegion, "", "", Epoch(1, 1), peers, m.nextPeer)],
                                   map["" := m.nextRegion], m.nextStore, m.nextRegion + 1, m.nextPeer + |ids|))
            && (forall i :: m.regions == map[] && 0 <= i < |ids| && ids[i] !in m.stores && (forall j :: 0 <= j < i ==> ids[j] in m.stores) ==>
                  status == Error(StoreNotFound) && n == m.(nextRegion := m.nextRegion + 1, nextPeer := m.nextPeer + i))
  {
    hide ContainsKey, Proper, MembersOk, StoresOk;
    RangesPositive(m);
    if m.regions == map[] {
      EmptyIndex(m);
    }
  }

  lemma RangesPositive(m: Metadata)
    requires RangesOk(m)
    ensures 0 < m.nextRegion
  {}

  ghost predicate OneRegion(m: Metadata, n: Metadata) {
    && m.regions == map[] && m.nextRegion in n.regions && n.regions == map[m.nextRegion := n.regions[m.nextRegion]]
    && n.regions[m.nextRegion].regionId == m.nextRegion < n.nextRegion && n.byStart == m.byStart["" := m.nextRegion]
    && n.regions[m.nextRegion].startKey == "" && n.regions[m.nextRegion].endKey == ""
  }

  lemma DefaultRanges(m: Metadata, n: Metadata)
    requires RangesOk(m) && OneRegion(m, n)
    ensures RangesOk(n)
  {
    hide InRange, Less;
    WholeRange(n.regions[m.nextRegion]);
    forall key ensures HasKey(n, key) {
      assert ContainsKey(n.regions[m.nextRegion], key);
    }
    EmptyIndex(m);
  }

  lemma DefaultMembers(m: Metadata, n: Metadata, ids: seq<nat>)
    requires 0 < m.nextPeer && ids != [] && (forall j :: 0 <= j < |ids| ==> ids[j] in n.stores) && n.nextPeer == m.nextPeer + |ids|
    requires OneRegion(m, n)
    requires n.regions[m.nextRegion].peers == NewVoters(ids, m.nextPeer) && n.regions[m.nextRegion].leaderPeerId == m.nextPeer
    ensures MembersOk(n) <==> Distinct(ids)
  {
    hide ContainsKey;
    var r := n.regions[m.nextRegion];
    assert r.peers[0].peerId == r.leaderPeerId;
    if MembersOk(n) {
      assert PeersOk(n, r);
      forall i, j | 0 <= i < j < |ids| ensures ids[i] != ids[j] {
        assert r.peers[i].storeId == ids[i] && r.peers[j].storeId == ids[j];
      }
    }
    if Distinct(ids) {
      assert PeersOk(n, r);
    }
  }

  lemma EmptyIndex(m: Metadata)
    requires Indexed(m) && m.regions == map[]
    ensures m.byStart == map[]
  {
    forall s ensures s !in m.byStart {}
  }

  lemma WholeRange(r: RegionInfo)
    requires r.startKey == "" && r.endKey == ""
    ensures forall key :: ContainsKey(r, key)
  {}

  // ---- Splits ----

  lemma SplitSides(r: RegionInfo, key: Text, id: nat, next: nat, k: Text)
    requires CanSplit(r, key)
    ensures ContainsKey(r, k) <==> ContainsKey(LeftOf(r, key), k) || ContainsKey(RightOf(r, key, id, next), k)
    ensures !(ContainsKey(LeftOf(r, key), k) && ContainsKey(RightOf(r, key, id, next), k))
  {
    SplitCuts(r, key, k);
  }

  lemma SplitProper(r: RegionInfo, key: Text, id: nat, next: nat)
    requires CanSplit(r, key) && Proper(r)
    ensures Proper(LeftOf(r, key)) && Proper(RightOf(r, key, id, next)) && key != r.startKey
  {
    SplitCuts(r, key, key);
  }

  /** No other region starts at the split key: it would overlap the region that holds the key. */
  lemma SplitKeyIsNew(m: Metadata, id: nat, key: Text)
    requires RangesOk(m) && id in m.regions && CanSplit(m.regions[id], key)
    ensures key !in m.byStart
  {
    hide InRange, Less;
    if key in m.byStart {
      var s := m.regions[m.byStart[key]];
      StartInside(s);
    }
  }

  /** The tables after a split: two rows, with new peer ids on the right, two index entries and the counters. */
  ghost predicate IsSplit(m: Metadata, n: Metadata, id: nat, key: Text) {
    && id in m.regions && m.nextRegion !in m.regions && n.regions.Keys == m.regions.Keys + {m.nextRegion}
    && var r, right := m.regions[id], n.regions[m.nextRegion];
    && Halves(r, n.regions[id], right, key, m.nextRegion)
    && (forall j :: 0 <= j < |r.peers| ==> right.peers[j].peerId == m.nextPeer + j)
    && (r.peers == [] ==> right.leaderPeerId == 0)
    && (forall x :: x in m.regions && x != id ==> n.regions[x] == m.regions[x])
    && n.byStart == m.byStart[r.startKey := id][key := m.nextRegion]
    && n == m.(regions := n.regions, byStart := n.byStart, nextRegion := m.nextRegion + 1, nextPeer := m.nextPeer + |r.peers|)
  }

  /** The same as updates of the tables. */
  ghost predicate RowsPut(m: Metadata, n: Metadata, id: nat, key: Text) {
    && id in m.regions && m.nextRegion !in m.regions
    && n.regions == m.regions[id := LeftOf(m.regions[id], key)][m.nextRegion := RightOf(m.regions[id], key, m.nextRegion, m.nextPeer)]
    && n.byStart == m.byStart[m.regions[id].startKey := id][key := m.nextRegion]
    && n == m.(regions := n.regions, byStart := n.byStart, nextRegion := m.nextRegion + 1, nextPeer := m.nextPeer + |m.regions[id].peers|)
  }

  lemma SplitRows(m: Metadata, n: Metadata, id: nat, key: Text)
    requires id in m.regions && m.nextRegion !in m.regions
    ensures IsSplit(m, n, id, key) <==> RowsPut(m, n, id, key)
  {
    if IsSplit(m, n, id, key) {
      assert n.regions[m.nextRegion].peers == NewPeers(m.regions[id].peers, m.nextPeer);
    }
  }

  lemma SplitRanges(m: Metadata, n: Metadata, id: nat, key: Text)
    requires RangesOk(m) && RowsPut(m, n, id, key) && CanSplit(m.regions[id], key)
    ensures RangesOk(n)
  {
    hide ContainsKey, Proper, CanSplit;
    SplitKeyIsNew(m, id, key);
    var r, right := m.regions[id], m.nextRegion;
    SplitProper(r, key, right, m.nextPeer);
    assert right !in m.regions;
    forall a, b, k | a in n.regions && b in n.regions && a != b && ContainsKey(n.regions[a], k) ensures !ContainsKey(n.regions[b], k) {
      SplitSides(r, key, right, m.nextPeer, k);
    }
    forall k ensures HasKey(n, k) {
      SplitSides(r, key, right, m.nextPeer, k);
      assert HasKey(m, k);
      var x: nat :| x in m.regions && ContainsKey(m.regions[x], k);
      assert ContainsKey(n.regions[if x != id then x else if ContainsKey(LeftOf(r, key), k) then id else right], k);
    }
  }

  lemma SplitMembers(m: Metadata, n: Metadata, id: nat, key: Text)
    requires MembersOk(m) && RowsPut(m, n, id, key)
    ensures MembersOk(n)
  {
    var r, right := m.regions[id], m.nextRegion;
    var left := m.(regions := m.regions[id := LeftOf(r, key)]);
    assert PeersOk(m, r);
    LeftPeersOk(m, r, key);
    hide PeersOk, HasPeer, MembersOk;
    MembersPositive(m);
    EditMembers(m, left, id, LeftOf(r, key));
    NewPeersOk(m, n, r, key);
    EditMembers(left, n, right, RightOf(r, key, right, m.nextPeer));
  }

  lemma LeftPeersOk(m: Metadata, r: RegionInfo, key: Text)
    requires PeersOk(m, r)
    ensures forall x: Metadata :: x.stores == m.stores && x.nextPeer == m.nextPeer ==> PeersOk(x, LeftOf(r, key))
    ensures forall i :: 0 <= i < |LeftOf(r, key).peers| ==> HasPeer(r, LeftOf(r, key).peers[i].peerId)
  {}

  lemma NewPeersOk(m: Metadata, n: Metadata, r: RegionInfo, key: Text)
    requires PeersOk(m, r) && 0 < m.nextPeer && n.nextPeer == m.nextPeer + |r.peers| && n.stores == m.stores
    ensures PeersOk(n, RightOf(r, key, m.nextRegion, m.nextPeer))
  {
    var q := RightOf(r, key, m.nextRegion, m.nextPeer);
    assert q.peers[0].peerId == q.leaderPeerId;
  }

  lemma SplitShape(m: Metadata, id: nat, key: Text)
    requires RangesOk(m)
    ensures var (n, st) := SplitRegion(m, id, key);
            && (st == Ok <==> id in m.regions && CanSplit(m.regions[id], key))
            && (st == Ok ==> IsSplit(m, n, id, key))
            && (st != Ok ==> n == m && st == Error(if id in m.regions then InvalidArgument else RegionNotFound))
  {
    hide ContainsKey, CanSplit, Proper;
    if id in m.regions {
      SplitRows(m, SplitRegion(m, id, key).0, id, key);
    }
    hide Halves;
  }

  /** A split happens exactly when the region is known and the key cuts it; then two rows, two index entries and the
      counters change and everything stays in order. */
  lemma SplitKeeps(m: Metadata, id: nat, key: Text)
    requires PdOk(m)
    ensures var (n, st) := SplitRegion(m, id, key);
            && PdOk(n)
            && (st == Ok <==> id in m.regions && CanSplit(m.regions[id], key))
            && (st == Ok ==> IsSplit(m, n, id, key))
            && (st != Ok ==> n == m && st == Error(if id in m.regions then InvalidArgument else RegionNotFound))
  {
    hide RangesOk, MembersOk, SplitRegion, CanSplit;
    SplitShape(m, id, key);
    var (n, st) := SplitRegion(m, id, key);
    if st == Ok {
      SplitRows(m, n, id, key);
      hide IsSplit;
      SplitRanges(m, n, id, key);
      SplitMembers(m, n, id, key);
    }
  }

  // ---- Membership ----

  lemma RegionShape(m: Metadata, id: nat)
    requires PdOk(m) && id in m.regions
    ensures m.regions[id].regionId == id != 0 && PeersOk(m, m.regions[id])
  {}

  lemma PeerThere(r: RegionInfo, i: nat)
    requires i < |r.peers|
    ensures HasPeer(r, r.peers[i].peerId)
  {}

  lemma AddedDistinct(a: seq<PeerInfo>, b: seq<PeerInfo>, next: nat, storeId: nat)
    requires b == a + [PeerInfo(next, storeId, Voter)]
    requires forall i :: 0 <= i < |a| ==> a[i].peerId < next && a[i].storeId != storeId
    requires forall i, j :: 0 <= i < j < |a| ==> a[i].storeId != a[j].storeId && a[i].peerId != a[j].peerId
    ensures forall i, j :: 0 <= i < j < |b| ==> b[i].storeId != b[j].storeId && b[i].peerId != b[j].peerId
  {}

  lemma AddedPeersOk(m: Metadata, n: Metadata, r: RegionInfo, q: RegionInfo, storeId: nat)
    requires PeersOk(m, r) && 0 < m.nextPeer && n.stores == m.stores && n.nextPeer == m.nextPeer + 1 && storeId in m.stores
    requires FindPeerByStore(r.peers, storeId).None?
    requires q.peers == r.peers + [PeerInfo(m.nextPeer, storeId, Voter)] && q.leaderPeerId == r.leaderPeerId
    ensures PeersOk(n, q)
    ensures forall i :: 0 <= i < |q.peers| ==> q.peers[i].peerId >= m.nextPeer || HasPeer(r, q.peers[i].peerId)
  {
    hide FindPeerByStore, HasPeer;
    var l :| 0 <= l < |r.peers| && r.peers[l].peerId == r.leaderPeerId;
    assert q.peers[l].peerId == q.leaderPeerId;
    forall i | 0 <= i < |r.peers| ensures r.peers[i].storeId != storeId {
      assert r.peers[i] in r.peers;
    }
    AddedDistinct(r.peers, q.peers, m.nextPeer, storeId);
    forall i | 0 <= i < |q.peers|
      ensures 0 < q.peers[i].peerId < n.nextPeer && q.peers[i].storeId in n.stores
      ensures q.peers[i].peerId >= m.nextPeer || HasPeer(r, q.peers[i].peerId)
    {
      if i < |r.peers| {
        assert q.peers[i] == r.peers[i];
        PeerThere(r, i);
      }
    }
  }

  lemma AddPeerKeeps(m: Metadata, id: nat, storeId: nat)
    requires PdOk(m)
    ensures PdOk(AddPeer(m, id, storeId).0)
  {
    hide RangesOk, MembersOk, ContainsKey, PeersOk;
    var (n, st) := AddPeer(m, id, storeId);
    if id in m.regions {
      RegionShape(m, id);
      if st == Ok {
        var r := n.regions[id];
        EditRanges(m, n, id, r);
        MembersPositive(m);
        AddedPeersOk(m, n, m.regions[id], r, storeId);
        EditMembers(m, n, id, r);
      }
    }
  }

  lemma MembersPositive(m: Metadata)
    requires MembersOk(m)
    ensures 0 < m.nextPeer
  {}

  lemma RestPeersOk(m: Metadata, r: RegionInfo, peerId: nat, q: RegionInfo)
    requires PeersOk(m, r) && q.peers == Dropped(r.peers, peerId) != []
    requires q.leaderPeerId == if r.leaderPeerId == peerId then q.peers[0].peerId else r.leaderPeerId
    ensures PeersOk(m, q)
    ensures forall i :: 0 <= i < |q.peers| ==> HasPeer(r, q.peers[i].peerId)
  {
    hide Dropped, HasPeer;
    DroppedPeers(r.peers, peerId);
    RestLeader(r, peerId, q);
    forall i | 0 <= i < |q.peers| ensures HasPeer(r, q.peers[i].peerId) && 0 < q.peers[i].peerId < m.nextPeer && q.peers[i].storeId in m.stores {
      assert q.peers[i] in r.peers;
      var k :| 0 <= k < |r.peers| && r.peers[k] == q.peers[i];
      PeerThere(r, k);
    }
    assert DistinctPeers(q.peers);
  }

  lemma RestLeader(r: RegionInfo, peerId: nat, q: RegionInfo)
    requires (exists l :: 0 <= l < |r.peers| && r.peers[l].peerId == r.leaderPeerId) && q.peers == Dropped(r.peers, peerId) != []
    requires q.leaderPeerId == if r.leaderPeerId == peerId then q.peers[0].peerId else r.leaderPeerId
    ensures exists l :: 0 <= l < |q.peers| && q.peers[l].peerId == q.leaderPeerId
  {
    hide Dropped;
    DroppedPeers(r.peers, peerId);
    if r.leaderPeerId == peerId {
      assert q.peers[0].peerId == q.leaderPeerId;
    } else {
      var l :| 0 <= l < |r.peers| && r.peers[l].peerId == r.leaderPeerId;
      assert r.peers[l] in q.peers;
      var i :| 0 <= i < |q.peers| && q.peers[i] == r.peers[l];
      assert q.peers[i].peerId == q.leaderPeerId;
    }
  }

  lemma RemovePeerKeeps(m: Metadata, id: nat, peerId: nat)
    requires PdOk(m)
    ensures PdOk(RemovePeer(m, id, peerId).0)
  {
    hide RangesOk, MembersOk, ContainsKey, PeersOk;
    var (n, st) := RemovePeer(m, id, peerId);
    if id in m.regions {
      RegionShape(m, id);
      if st == Ok {
        var r := n.regions[id];
        EditRanges(m, n, id, r);
        RestPeersOk(m, m.regions[id], peerId, r);
        SamePeersOk(m, n, r);
        EditMembers(m, n, id, r);
      }
    }
  }

  lemma SamePeersOk(m: Metadata, n: Metadata, r: RegionInfo)
    requires PeersOk(m, r) && n.nextPeer == m.nextPeer && n.stores == m.stores
    ensures PeersOk(n, r)
  {}

  /** Leadership moves if and only if the target is a member, and nothing else changes. */
  lemma TransferKeeps(m: Metadata, id: nat, peerId: nat)
    requires PdOk(m)
    ensures var (n, st) := TransferLeader(m, id, peerId);
            && PdOk(n)
            && st == (if id !in m.regions then Error(RegionNotFound)
                      else if !HasPeer(m.regions[id], peerId) then Error(InvalidArgument) else Ok)
            && (st != Ok ==> n == m)
            && (st == Ok ==> n == m.(regions := m.regions[id := m.regions[id].(leaderPeerId := peerId)]))
  {
    hide RangesOk, MembersOk, ContainsKey, FindPeer, PeersOk, HasPeer;
    var (n, st) := TransferLeader(m, id, peerId);
    if id in m.regions {
      RegionShape(m, id);
      PeerSearch(m.regions[id], peerId);
      if st == Ok {
        var r := n.regions[id];
        EditRanges(m, n, id, r);
        IndexSame(m, id);
        NewLeaderOk(m, m.regions[id], r, peerId);
        SamePeersOk(m, n, r);
        EditMembers(m, n, id, r);
      }
    }
  }

  lemma IndexSame(m: Metadata, id: nat)
    requires RangesOk(m) && id in m.regions
    ensures m.byStart[m.regions[id].startKey := id] == m.byStart
  {
    hide ContainsKey, Proper;
  }

  lemma NewLeaderOk(m: Metadata, r: RegionInfo, q: RegionInfo, peerId: nat)
    requires PeersOk(m, r) && HasPeer(r, peerId) && q == r.(leaderPeerId := peerId)
    ensures PeersOk(m, q) && forall i :: 0 <= i < |q.peers| ==> HasPeer(r, q.peers[i].peerId)
  {}

  // ---- What each operation decides and does ----

  ghost predicate HasStore(r: RegionInfo, storeId: nat) {
    exists i :: 0 <= i < |r.peers| && r.peers[i].storeId == storeId
  }

  /** A peer is added if and only if region and store are known and the store has none yet: a voter with a new id behind the
      others, under a new configuration version. Nothing else changes. */
  lemma AddPeerEffect(m: Metadata, id: nat, storeId: nat)
    requires PdOk(m)
    ensures var (n, st) := AddPeer(m, id, storeId);
            && st == (if id !in m.regions then Error(RegionNotFound) else if storeId !in m.stores then Error(StoreNotFound)
                      else if HasStore(m.regions[id], storeId) then Error(InvalidArgument) else Ok)
            && (st != Ok ==> n == m)
            && (st == Ok ==>
                  var r := m.regions[id];
                  n == m.(nextPeer := m.nextPeer + 1,
                          regions := m.regions[id := RegionInfo(id, r.startKey, r.endKey, Epoch(r.epoch.confVer + 1, r.epoch.version),
                                                                r.peers + [PeerInfo(m.nextPeer, storeId, Voter)], r.leaderPeerId)]))
  {
    hide RangesOk, MembersOk, FindPeerByStore, ContainsKey;
    if id in m.regions {
      RegionShape(m, id);
      IndexSame(m, id);
      StoreSearch(m.regions[id], storeId);
    }
  }

  lemma StoreSearch(r: RegionInfo, storeId: nat)
    ensures FindPeerByStore(r.peers, storeId).Some? <==> HasStore(r, storeId)
  {
    hide FindPeerByStore;
    var found := FindPeerByStore(r.peers, storeId);
    if found.Some? {
      var i :| 0 <= i < |r.peers| && r.peers[i] == found.value;
      assert r.peers[i].storeId == storeId;
    } else {
      assert forall i :: 0 <= i < |r.peers| ==> r.peers[i] in r.peers;
    }
  }

  /** The row of a region without its i-th peer; a leader that goes is followed by the first peer that stays. */
  ghost function Without(r: RegionInfo, i: nat): RegionInfo
    requires i < |r.peers| && |r.peers| > 1
  {
    var rest := r.peers[..i] + r.peers[i + 1..];
    RegionInfo(r.regionId, r.startKey, r.endKey, Epoch(r.epoch.confVer + 1, r.epoch.version), rest,
               if r.leaderPeerId == r.peers[i].peerId then rest[0].peerId else r.leaderPeerId)
  }

  /** A peer is removed if and only if it is there and not the last one: it alone goes, under a new configuration version. */
  lemma RemovePeerEffect(m: Metadata, id: nat, peerId: nat)
    requires PdOk(m)
    ensures var (n, st) := RemovePeer(m, id, peerId);
            && st == (if id !in m.regions then Error(RegionNotFound)
                      else if !HasPeer(m.regions[id], peerId) || |m.regions[id].peers| == 1 then Error(InvalidArgument) else Ok)
            && (st != Ok ==> n == m)
            && (st == Ok ==> forall i :: 0 <= i < |m.regions[id].peers| && m.regions[id].peers[i].peerId == peerId ==>
                  n == m.(regions := m.regions[id := Without(m.regions[id], i)]))
  {
    hide RangesOk, MembersOk, ContainsKey, Dropped;
    if id in m.regions {
      RegionShape(m, id);
      IndexSame(m, id);
      var peers := m.regions[id].peers;
      if HasPeer(m.regions[id], peerId) {
        forall i | 0 <= i < |peers| && peers[i].peerId == peerId ensures Dropped(peers, peerId) == peers[..i] + peers[i + 1..] {
          DroppedAt(peers, i);
        }
      } else {
        NothingDropped(peers, peerId);
      }
    }
  }

  lemma PeerSearch(r: RegionInfo, peerId: nat)
    ensures FindPeer(r.peers, peerId).Some? <==> HasPeer(r, peerId)
  {
    hide FindPeer;
    var found := FindPeer(r.peers, peerId);
    if found.Some? {
      var i :| 0 <= i < |r.peers| && r.peers[i] == found.value;
      assert r.peers[i].peerId == peerId;
    } else {
      assert forall i :: 0 <= i < |r.peers| ==> r.peers[i] in r.peers;
    }
  }

  // ---- Runs ----

  datatype Op =
    | RegisterOp(store: StoreInfo)
    | HeartbeatOp(storeId: nat, now: int)
    | BootstrapOp(ids: seq<nat>)
    | SplitOp(regionId: nat, key: Text)
    | AddOp(regionId: nat, storeId: nat)
    | RemoveOp(regionId: nat, peerId: nat)
    | TransferOp(regionId: nat, peerId: nat)

  function Perform(m: Metadata, op: Op): (Metadata, Status) {
    match op
    case RegisterOp(store) => RegisterStore(m, store)
    case HeartbeatOp(storeId, now) => StoreHeartbeat(m, storeId, now)
    case BootstrapOp(ids) => BootstrapDefaultRegion(m, ids)
    case SplitOp(regionId, key) => SplitRegion(m, regionId, key)
    case AddOp(regionId, storeId) => AddPeer(m, regionId, storeId)
    case RemoveOp(regionId, peerId) => RemovePeer(m, regionId, peerId)
    case TransferOp(regionId, peerId) => TransferLeader(m, regionId, peerId)
  }

  ghost predicate IsPdRun(states: seq<Metadata>, ops: seq<Op>) {
    && |states| == |ops| + 1
    && states[0] == EMPTY
    && (forall k :: 0 <= k < |ops| ==> states[k + 1] == Perform(states[k], ops[k]).0)
    && (forall k :: 0 <= k < |ops| && ops[k].BootstrapOp? ==> Distinct(ops[k].ids))
  }

  lemma PerformKeeps(m: Metadata, op: Op)
    requires PdOk(m) && (op.BootstrapOp? ==> Distinct(op.ids))
    ensures PdOk(Perform(m, op).0)
  {
    hide PdOk, Distinct;
    match op
    case RegisterOp(store) => RegisterKeeps(m, store);
    case HeartbeatOp(storeId, now) => HeartbeatKeeps(m, storeId, now);
    case BootstrapOp(ids) => BootstrapKeeps(m, ids);
    case SplitOp(regionId, key) => SplitKeeps(m, regionId, key);
    case AddOp(regionId, storeId) => AddPeerKeeps(m, regionId, storeId);
    case RemoveOp(regionId, peerId) => RemovePeerKeeps(m, regionId, peerId);
    case TransferOp(regionId, peerId) => TransferKeeps(m, regionId, peerId);
  }

  /** In every run, from an empty catalog: ranges partition the key space once there is a region, the index is exact,
      members are as they should be. */
  lemma {:induction false} RunKeeps(states: seq<Metadata>, ops: seq<Op>, k: nat)
    requires IsPdRun(states, ops) && k < |states|
    ensures PdOk(states[k])
    decreases k
  {
    hide PdOk, Perform, Distinct;
    if k == 0 {
      EmptyOk();
    } else {
      RunKeeps(states, ops, k - 1);
      PerformKeeps(states[k - 1], ops[k - 1]);
    }
  }

  lemma EmptyOk()
    ensures PdOk(EMPTY)
  {}

  /** Routing is total and exact in every reachable state that has a region: each key has exactly one region, the lookup
      returns it, and its leader leads to a store. */
  lemma RoutingWorks(states: seq<Metadata>, ops: seq<Op>, k: nat, key: Text)
    requires IsPdRun(states, ops) && k < |states| && states[k].regions != map[]
    ensures var m := states[k];
            var r := GetRegionByKey(m, key);
            && r.Some? && ContainsKey(r.value, key) && r.value.regionId in m.regions && m.regions[r.value.regionId] == r.value
            && (forall id :: id in m.regions && ContainsKey(m.regions[id], key) ==> id == r.value.regionId)
            && exists i :: 0 <= i < |r.value.peers| && r.value.peers[i].peerId == r.value.leaderPeerId && r.value.peers[i].storeId in m.stores
                           && GetRegionLeaderStore(m, r.value) == Some(m.stores[r.value.peers[i].storeId])
  {
    hide IsPdRun, ContainsKey, Proper, MembersOk, GetRegionByKey;
    RunKeeps(states, ops, k);
    var m := states[k];
    assert HasKey(m, key);
    var id :| id in m.regions && ContainsKey(m.regions[id], key);
    LookupIsScan(m, key, m.regions[id]);
    LeaderStoreExists(m, id);
  }

  ghost predicate EpochsGrow(m: Metadata, n: Metadata) {
    forall id :: id in m.regions ==>
      id in n.regions && m.regions[id].epoch.confVer <= n.regions[id].epoch.confVer && m.regions[id].epoch.version <= n.regions[id].epoch.version
  }

  lemma PerformGrows(m: Metadata, op: Op)
    requires PdOk(m)
    ensures EpochsGrow(m, Perform(m, op).0)
  {
    hide ContainsKey, CanSplit, Dropped, Disjoint, Indexed, Covering, MembersOk, Proper;
  }

  /** No region disappears and no epoch goes back. */
  lemma {:induction false} EpochsNeverDecrease(states: seq<Metadata>, ops: seq<Op>, i: nat, j: nat)
    requires IsPdRun(states, ops) && i <= j < |states|
    ensures EpochsGrow(states[i], states[j])
    decreases j - i
  {
    hide PdOk, Perform, Distinct;
    if i < j {
      EpochsNeverDecrease(states, ops, i, j - 1);
      RunKeeps(states, ops, j - 1);
      PerformGrows(states[j - 1], ops[j - 1]);
    }
  }
}
