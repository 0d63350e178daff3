/** Stores and regions as fields, with composite names such as `region3.peer0.store_id`. */
module Serialization {
  import opened Basics
  import opened Codec
  import opened KvEngine
  import opened Regions

  // ---- Numbers ----

  const TWO63: int := 0x8000_0000_0000_0000
  const TWO31: int := 0x8000_0000

  /** `std::to_string` of a signed number. */
  function PrintInt(n: int): Text {
    if n < 0 then "-" + Dec(-n) else Dec(n)
  }

  /** `std::stoull`: a minus sign negates modulo 2^64, a value that does not fit is an error. */
  function ParseU64(s: Text): Result<nat> {
    if s != "" && s[0] == '-' then
      match ParseDec(s[1..])
      case Success(n) => if n <= MAX_U64 then Success((MAX_U64 + 1 - n) % (MAX_U64 + 1)) else Failure(InvalidArgument)
      case Failure(e) => Failure(e)
    else
      match ParseDec(s)
      case Success(n) => if n <= MAX_U64 then Success(n) else Failure(InvalidArgument)
      case Failure(e) => Failure(e)
  }

  /** The cast to `std::int64_t`. */
  function ToInt64(u: nat): int {
    if u >= TWO63 then u - (MAX_U64 + 1) else u
  }

  /** `std::stoi`. */
  function ParseInt(s: Text): Result<int> {
    var negative := s != "" && s[0] == '-';
    match ParseDec(if negative then s[1..] else s)
    case Failure(e) => Failure(e)
    case Success(n) =>
      var v: int := if negative then -(n as int) else n as int;
      if -TWO31 <= v < TWO31 then Success(v) else Failure(InvalidArgument)
  }

  lemma NotMinus(n: nat)
    ensures Dec(n)[0] != '-'
  {
    assert IsDigit(Dec(n)[0]);
  }

  lemma U64RoundTrip(n: nat)
    requires n <= MAX_U64
    ensures ParseU64(Dec(n)) == Success(n)
  {
    NotMinus(n);
  }

  /** Heartbeats are printed signed and read unsigned; the cast back makes up for it. */
  lemma Int64RoundTrip(n: int)
    requires -TWO63 <= n < TWO63
    ensures var r := ParseU64(PrintInt(n)); r.Success? && ToInt64(r.value) == n
  {
    hide Dec, ParseDec;
    if n < 0 {
      assert PrintInt(n)[1..] == Dec(-n);
    } else {
      NotMinus(n);
    }
  }

  lemma IntRoundTrip(n: int)
    requires -TWO31 <= n < TWO31
    ensures ParseInt(PrintInt(n)) == Success(n)
  {
    if n < 0 {
      assert PrintInt(n)[1..] == Dec(-n);
    } else {
      NotMinus(n);
    }
  }

  // ---- Names ----

  function Base(prefix: Text): Text {
    if prefix == "" then "" else prefix + "."
  }

  function Key(prefix: Text, name: Text): Text {
    Base(prefix) + name
  }

  predicate NoDot(s: Text) {
    forall i :: 0 <= i < |s| ==> s[i] != '.'
  }

  lemma KeyInjective(prefix: Text, a: Text, b: Text)
    requires Key(prefix, a) == Key(prefix, b)
    ensures a == b
  {
    assert Key(prefix, a)[|Base(prefix)|..] == a && Key(prefix, b)[|Base(prefix)|..] == b;
  }

  lemma KeyHasBase(prefix: Text, name: Text)
    ensures HasPrefix(Key(prefix, name), Base(prefix))
  {
    assert Key(prefix, name)[..|Base(prefix)|] == Base(prefix);
  }

  /** A key belongs to one dot-free prefix only. */
  lemma OnePrefix(k: Text, a: Text, b: Text)
    requires NoDot(a) && NoDot(b) && HasPrefix(k, a + ".") && HasPrefix(k, b + ".")
    ensures a == b
  {
    assert k[..|a| + 1][|a|] == '.' && k[..|b| + 1][|b|] == '.';
    assert forall i :: 0 <= i < |a| ==> k[i] == (a + ".")[i] == a[i];
    assert forall i :: 0 <= i < |b| ==> k[i] == (b + ".")[i] == b[i];
    assert |a| == |b|;
  }

  lemma NoDotNoPrefix(k: Text, a: Text)
    requires NoDot(k)
    ensures !HasPrefix(k, a + ".")
  {
    assert (a + ".")[|a|] == '.';
  }

  // ---- Writing and reading groups of fields ----

  function Write(f: Store, prefix: Text, entries: seq<(Text, Text)>): Store
    decreases |entries|
  {
    if entries == [] then f else Write(f[Key(prefix, entries[0].0) := entries[0].1], prefix, entries[1..])
  }

  ghost predicate DistinctNames(entries: seq<(Text, Text)>) {
    forall i, j :: 0 <= i < j < |entries| ==> entries[i].0 != entries[j].0
  }

  lemma {:induction false} WriteFrame(f: Store, prefix: Text, entries: seq<(Text, Text)>, k: Text)
    requires forall i :: 0 <= i < |entries| ==> k != Key(prefix, entries[i].0)
    ensures SameAt(Write(f, prefix, entries), f, k)
    decreases |entries|
  {
    hide Key;
    if entries != [] {
      WriteFrame(f[Key(prefix, entries[0].0) := entries[0].1], prefix, entries[1..], k);
    }
  }

  lemma {:induction false} WriteReads(f: Store, prefix: Text, entries: seq<(Text, Text)>, i: nat)
    requires DistinctNames(entries) && i < |entries|
    ensures var k := Key(prefix, entries[i].0); var g := Write(f, prefix, entries); k in g && g[k] == entries[i].1
    decreases |entries|
  {
    hide Key;
    var next := f[Key(prefix, entries[0].0) := entries[0].1];
    if i == 0 {
      forall j | 0 <= j < |entries[1..]| ensures Key(prefix, entries[0].0) != Key(prefix, entries[1..][j].0) {
        if Key(prefix, entries[0].0) == Key(prefix, entries[1..][j].0) {
          KeyInjective(prefix, entries[0].0, entries[j + 1].0);
        }
      }
      WriteFrame(next, prefix, entries[1..], Key(prefix, entries[0].0));
    } else {
      WriteReads(next, prefix, entries[1..], i - 1);
    }
  }

  function GetOr(f: Store, k: Text, fallback: Text): Text {
    if k in f then f[k] else fallback
  }

  function GetUint64Or(f: Store, k: Text, fallback: nat): nat {
    if k !in f then fallback else match ParseU64(f[k]) case Success(n) => n case Failure(_) => fallback
  }

  function GetIntOr(f: Store, k: Text, fallback: int): int {
    if k !in f then fallback else match ParseInt(f[k]) case Success(n) => n case Failure(_) => fallback
  }

  // ---- Stores ----

  function StoreEntries(s: StoreInfo): seq<(Text, Text)> {
    [("store_id", Dec(s.storeId)), ("raft_host", s.raftEndpoint.host), ("raft_port", PrintInt(s.raftEndpoint.port)),
     ("client_host", s.clientEndpoint.host), ("client_port", PrintInt(s.clientEndpoint.port)), ("state", s.state),
     ("last_heartbeat_ms", PrintInt(s.lastHeartbeatMs))]
  }

  function PutStoreFields(f: Store, s: StoreInfo, prefix: Text): Store {
    Write(f, prefix, StoreEntries(s))
  }

  function GetStoreFields(f: Store, prefix: Text): StoreInfo {
    StoreInfo(
      GetUint64Or(f, Key(prefix, "store_id"), 0),
      Endpoint(GetOr(f, Key(prefix, "raft_host"), "127.0.0.1"), GetIntOr(f, Key(prefix, "raft_port"), 0)),
      Endpoint(GetOr(f, Key(prefix, "client_host"), "127.0.0.1"), GetIntOr(f, Key(prefix, "client_port"), 0)),
      GetOr(f, Key(prefix, "state"), "Up"),
      ToInt64(GetUint64Or(f, Key(prefix, "last_heartbeat_ms"), 0)))
  }

  /** The ranges of the C++ types. */
  predicate StoreFits(s: StoreInfo) {
    && s.storeId <= MAX_U64 && -TWO63 <= s.lastHeartbeatMs < TWO63
    && -TWO31 <= s.raftEndpoint.port < TWO31 && -TWO31 <= s.clientEndpoint.port < TWO31
  }

  lemma StoreNames(s: StoreInfo)
    ensures DistinctNames(StoreEntries(s)) && forall i :: 0 <= i < |StoreEntries(s)| ==> NoDot(StoreEntries(s)[i].0)
  {
    hide Dec, PrintInt;
  }

  /** The fields of a store read back as the store, under any prefix and beside any other fields. */
  lemma StoreRoundTrip(f: Store, s: StoreInfo, prefix: Text)
    requires StoreFits(s)
    ensures GetStoreFields(PutStoreFields(f, s, prefix), prefix) == s
  {
    StoreNames(s);
    hide Dec, PrintInt, Key, Write, ParseU64, ParseInt, NoDot, ToInt64;
    WriteReads(f, prefix, StoreEntries(s), 0);
    WriteReads(f, prefix, StoreEntries(s), 1);
    WriteReads(f, prefix, StoreEntries(s), 2);
    WriteReads(f, prefix, StoreEntries(s), 3);
    WriteReads(f, prefix, StoreEntries(s), 4);
    WriteReads(f, prefix, StoreEntries(s), 5);
    WriteReads(f, prefix, StoreEntries(s), 6);
    U64RoundTrip(s.storeId);
    IntRoundTrip(s.raftEndpoint.port);
    IntRoundTrip(s.clientEndpoint.port);
    Int64RoundTrip(s.lastHeartbeatMs);
  }

  // ---- Regions ----

  function RoleName(role: PeerRole): Text {
    match role
    case Voter => "Voter"
    case Learner => "Learner"
  }

  function ParseRole(s: Text): PeerRole {
    if s == "Learner" then Learner else Voter
  }

  function PeerEntries(p: PeerInfo): seq<(Text, Text)> {
    [("peer_id", Dec(p.peerId)), ("store_id", Dec(p.storeId)), ("role", RoleName(p.role))]
  }

  function RegionEntries(r: RegionInfo): seq<(Text, Text)> {
    [("region_id", Dec(r.regionId)), ("start_key", r.startKey), ("end_key", r.endKey), ("conf_ver", Dec(r.epoch.confVer)),
     ("version", Dec(r.epoch.version)), ("leader_peer_id", Dec(r.leaderPeerId)), ("peer_count", Dec(|r.peers|))]
  }

  function PeerPrefix(prefix: Text, i: nat): Text {
    Key(prefix, "peer" + Dec(i))
  }

  /** The fields of the first `n` peers. */
  function PutPeers(f: Store, peers: seq<PeerInfo>, prefix: Text, n: nat): Store
    requires n <= |peers|
  {
    if n == 0 then f else Write(PutPeers(f, peers, prefix, n - 1), PeerPrefix(prefix, n - 1), PeerEntries(peers[n - 1]))
  }

  function PutRegionFields(f: Store, r: RegionInfo, prefix: Text): Store {
    PutPeers(Write(f, prefix, RegionEntries(r)), r.peers, prefix, |r.peers|)
  }

  function GetPeer(f: Store, prefix: Text): PeerInfo {
    PeerInfo(GetUint64Or(f, Key(prefix, "peer_id"), 0), GetUint64Or(f, Key(prefix, "store_id"), 0),
             ParseRole(GetOr(f, Key(prefix, "role"), "Voter")))
  }

  function GetPeers(f: Store, prefix: Text, n: nat): (r: seq<PeerInfo>)
    ensures |r| == n && forall i :: 0 <= i < n ==> r[i] == GetPeer(f, PeerPrefix(prefix, i))
  {
    if n == 0 then [] else GetPeers(f, prefix, n - 1) + [GetPeer(f, PeerPrefix(prefix, n - 1))]
  }

  function GetRegionFields(f: Store, prefix: Text): RegionInfo {
    RegionInfo(
      GetUint64Or(f, Key(prefix, "region_id"), 0),
      GetOr(f, Key(prefix, "start_key"), ""),
      GetOr(f, Key(prefix, "end_key"), ""),
      Epoch(GetUint64Or(f, Key(prefix, "conf_ver"), 1), GetUint64Or(f, Key(prefix, "version"), 1)),
      GetPeers(f, prefix, GetUint64Or(f, Key(prefix, "peer_count"), 0)),
      GetUint64Or(f, Key(prefix, "leader_peer_id"), 0))
  }

  predicate PeerFits(p: PeerInfo) {
    p.peerId <= MAX_U64 && p.storeId <= MAX_U64
  }

  predicate RegionFits(r: RegionInfo) {
    && r.regionId <= MAX_U64 && r.epoch.confVer <= MAX_U64 && r.epoch.version <= MAX_U64 && r.leaderPeerId <= MAX_U64
    && |r.peers| <= MAX_U64 && forall i :: 0 <= i < |r.peers| ==> PeerFits(r.peers[i])
  }

  lemma PeerNames(p: PeerInfo)
    ensures DistinctNames(PeerEntries(p)) && forall i :: 0 <= i < |PeerEntries(p)| ==> NoDot(PeerEntries(p)[i].0)
  {
    hide Dec;
  }

  lemma RegionNames(r: RegionInfo)
    ensures DistinctNames(RegionEntries(r)) && forall i :: 0 <= i < |RegionEntries(r)| ==> NoDot(RegionEntries(r)[i].0)
  {
    hide Dec;
  }

  lemma NumberNoDot(word: Text, i: nat)
    requires NoDot(word)
    ensures NoDot(word + Dec(i))
  {
    forall j | 0 <= j < |word + Dec(i)| ensures (word + Dec(i))[j] != '.' {
      assert j >= |word| ==> IsDigit(Dec(i)[j - |word|]);
    }
  }

  lemma NumbersDiffer(word: Text, i: nat, j: nat)
    requires word + Dec(i) == word + Dec(j)
    ensures i == j
  {
    assert (word + Dec(i))[|word|..] == Dec(i) && (word + Dec(j))[|word|..] == Dec(j);
    DecInjective(i, j);
  }

  /** A field of peer `i` is no field of peer `j` and no plain field of the region. */
  lemma PeerKeysApart(prefix: Text, i: nat, name: Text, j: nat, other: Text)
    requires NoDot(name) && NoDot(other)
    ensures Key(PeerPrefix(prefix, i), name) != Key(prefix, other)
    ensures i != j ==> Key(PeerPrefix(prefix, i), name) != Key(PeerPrefix(prefix, j), other)
  {
    var b, x, y := Base(prefix), "peer" + Dec(i), "peer" + Dec(j);
    PeerKeyShape(prefix, i, name);
    PeerKeyShape(prefix, j, other);
    NumberNoDot("peer", i);
    NumberNoDot("peer", j);
    hide Dec;
    var k := x + "." + name;
    assert HasPrefix(k, x + ".") by {
      assert k[..|x| + 1] == x + ".";
    }
    NoDotNoPrefix(other, x);
    assert (b + k)[|b|..] == k && (b + other)[|b|..] == other;
    if Key(PeerPrefix(prefix, i), name) == Key(PeerPrefix(prefix, j), other) {
      var l := y + "." + other;
      assert (b + l)[|b|..] == l;
      assert l[..|y| + 1] == y + ".";
      OnePrefix(k, x, y);
      NumbersDiffer("peer", i, j);
    }
  }

  lemma PeerKeyShape(prefix: Text, i: nat, name: Text)
    ensures Key(PeerPrefix(prefix, i), name) == Base(prefix) + ("peer" + Dec(i) + "." + name)
  {
    hide Dec;
    assert PeerPrefix(prefix, i) == Base(prefix) + ("peer" + Dec(i)) && PeerPrefix(prefix, i) != "";
  }

  /** Plain fields of the region survive the peers. */
  lemma {:induction false} PeersFrame(f: Store, peers: seq<PeerInfo>, prefix: Text, n: nat, name: Text)
    requires n <= |peers| && NoDot(name)
    ensures SameAt(PutPeers(f, peers, prefix, n), f, Key(prefix, name))
  {
    hide Key, Write, PeerPrefix, PeerEntries, NoDot;
    if n > 0 {
      PeersFrame(f, peers, prefix, n - 1, name);
      var entries, inner := PeerEntries(peers[n - 1]), PeerPrefix(prefix, n - 1);
      PeerNames(peers[n - 1]);
      forall i | 0 <= i < |entries| ensures Key(prefix, name) != Key(inner, entries[i].0) {
        PeerKeysApart(prefix, n - 1, entries[i].0, 0, name);
      }
      WriteFrame(PutPeers(f, peers, prefix, n - 1), inner, entries, Key(prefix, name));
    }
  }

  lemma PeerReads(f: Store, p: PeerInfo, prefix: Text)
    requires PeerFits(p)
    ensures GetPeer(Write(f, prefix, PeerEntries(p)), prefix) == p
  {
    PeerNames(p);
    hide Dec, Key, Write, ParseU64, NoDot;
    WriteReads(f, prefix, PeerEntries(p), 0);
    WriteReads(f, prefix, PeerEntries(p), 1);
    WriteReads(f, prefix, PeerEntries(p), 2);
    U64RoundTrip(p.peerId);
    U64RoundTrip(p.storeId);
  }

  lemma PeerFrame(f: Store, p: PeerInfo, prefix: Text, i: nat, j: nat)
    requires i != j
    ensures GetPeer(Write(f, PeerPrefix(prefix, j), PeerEntries(p)), PeerPrefix(prefix, i)) == GetPeer(f, PeerPrefix(prefix, i))
  {
    PeerFieldFrame(f, p, prefix, i, j, "peer_id");
    PeerFieldFrame(f, p, prefix, i, j, "store_id");
    PeerFieldFrame(f, p, prefix, i, j, "role");
    hide Dec, Key, Write, ParseU64, PeerPrefix, PeerEntries;
  }

  lemma PeerFieldFrame(f: Store, p: PeerInfo, prefix: Text, i: nat, j: nat, name: Text)
    requires i != j && NoDot(name)
    ensures SameAt(Write(f, PeerPrefix(prefix, j), PeerEntries(p)), f, Key(PeerPrefix(prefix, i), name))
  {
    hide Key, Write, PeerPrefix, PeerEntries, NoDot;
    PeerNames(p);
    forall x | 0 <= x < |PeerEntries(p)| ensures Key(PeerPrefix(prefix, i), name) != Key(PeerPrefix(prefix, j), PeerEntries(p)[x].0) {
      PeerKeysApart(prefix, i, name, j, PeerEntries(p)[x].0);
    }
    WriteFrame(f, PeerPrefix(prefix, j), PeerEntries(p), Key(PeerPrefix(prefix, i), name));
  }

  lemma {:induction false} PeersRead(f: Store, peers: seq<PeerInfo>, prefix: Text, n: nat, i: nat)
    requires i < n <= |peers| && forall x :: 0 <= x < |peers| ==> PeerFits(peers[x])
    ensures GetPeer(PutPeers(f, peers, prefix, n), PeerPrefix(prefix, i)) == peers[i]
  {
    hide Key, Write, PeerPrefix, PeerEntries, GetPeer;
    var before := PutPeers(f, peers, prefix, n - 1);
    if i == n - 1 {
      PeerReads(before, peers[i], PeerPrefix(prefix, i));
    } else {
      PeersRead(f, peers, prefix, n - 1, i);
      PeerFrame(before, peers[n - 1], prefix, i, n - 1);
    }
  }

  lemma RegionFieldReads(f: Store, r: RegionInfo, prefix: Text, i: nat)
    requires i < |RegionEntries(r)|
    ensures var k := Key(prefix, RegionEntries(r)[i].0);
            k in PutRegionFields(f, r, prefix) && PutRegionFields(f, r, prefix)[k] == RegionEntries(r)[i].1
  {
    hide Key, Write, RegionEntries, NoDot, PutPeers;
    RegionNames(r);
    WriteReads(f, prefix, RegionEntries(r), i);
    PeersFrame(Write(f, prefix, RegionEntries(r)), r.peers, prefix, |r.peers|, RegionEntries(r)[i].0);
  }

  /** The fields of a region, peers included, read back as the region, under any prefix and beside any other fields. */
  lemma RegionRoundTrip(f: Store, r: RegionInfo, prefix: Text)
    requires RegionFits(r)
    ensures GetRegionFields(PutRegionFields(f, r, prefix), prefix) == r
  {
    hide Dec, Key, Write, ParseU64, PutRegionFields, GetPeer, PeerPrefix;
    RegionFieldReads(f, r, prefix, 0);
    RegionFieldReads(f, r, prefix, 1);
    RegionFieldReads(f, r, prefix, 2);
    RegionFieldReads(f, r, prefix, 3);
    RegionFieldReads(f, r, prefix, 4);
    RegionFieldReads(f, r, prefix, 5);
    RegionFieldReads(f, r, prefix, 6);
    U64RoundTrip(r.regionId);
    U64RoundTrip(r.epoch.confVer);
    U64RoundTrip(r.epoch.version);
    U64RoundTrip(r.leaderPeerId);
    U64RoundTrip(|r.peers|);
    RegionPeersRead(f, r, prefix);
  }

  lemma RegionPeersRead(f: Store, r: RegionInfo, prefix: Text)
    requires RegionFits(r)
    ensures GetPeers(PutRegionFields(f, r, prefix), prefix, |r.peers|) == r.peers
  {
    hide Dec, Key, Write, GetPeer, PeerPrefix, RegionEntries;
    forall i | 0 <= i < |r.peers| ensures GetPeer(PutRegionFields(f, r, prefix), PeerPrefix(prefix, i)) == r.peers[i] {
      PeersRead(Write(f, prefix, RegionEntries(r)), r.peers, prefix, |r.peers|, i);
    }
  }
}
