/** The formats of commands, log lines, keys and fields, against tables and examples instead of the functions that print them. */
module Formats {
  import opened Basics
  import Order
  import opened Codec
  import opened KvEngine
  import opened KvCommand
  import opened RaftCore
  import opened RaftStorage
  import opened RegionNode
  import opened Regions
  import opened FieldCodec
  import opened Serialization
  import Pd
  import IdOrder
  import opened Catalog

  // ---- Hexadecimal ----

  const DIGITS: Text := "0123456789abcdef"

  /** Each byte is two digits of the table, the high half first. */
  lemma {:induction false} HexDigitsAre(s: Text, i: nat)
    requires i < |s|
    ensures HexEncode(s)[2 * i] == DIGITS[s[i] as int / 16] && HexEncode(s)[2 * i + 1] == DIGITS[s[i] as int % 16]
    decreases |s|
  {
    if i > 0 {
      HexDigitsAre(s[1..], i - 1);
    }
  }

  /** Letters in either case are read. */
  predicate IsHexDigit(c: Octet) {
    '0' <= c <= '9' || 'a' <= c <= 'f' || 'A' <= c <= 'F'
  }

  function Lower(c: Octet): Octet {
    if 'A' <= c <= 'F' then (c as int + 32) as char else c
  }

  function Lowered(s: Text): (r: Text)
    ensures |r| == |s| && forall i :: 0 <= i < |s| ==> r[i] == Lower(s[i])
  {
    seq(|s|, i requires 0 <= i < |s| => Lower(s[i]))
  }

  /** A string is read exactly when it has digits only and an even number of them; what is read prints as the same digits in
      lower case. */
  lemma {:induction false} HexReads(s: Text)
    ensures HexDecode(s) == Failure(InvalidArgument) || HexDecode(s).Success?
    ensures HexDecode(s).Success? <==> |s| % 2 == 0 && forall i :: 0 <= i < |s| ==> IsHexDigit(s[i])
    ensures HexDecode(s).Success? ==> HexEncode(HexDecode(s).value) == Lowered(s)
    decreases |s|
  {
    if |s| >= 2 {
      HexReads(s[2..]);
      assert forall i :: 2 <= i < |s| ==> s[i] == s[2..][i - 2];
      if HexDecode(s).Success? {
        HexPair(s[0], s[1]);
        var value := HexDecode(s).value;
        assert value[1..] == HexDecode(s[2..]).value;
        assert Lowered(s) == [Lower(s[0]), Lower(s[1])] + Lowered(s[2..]);
      }
    }
  }

  lemma HexPair(a: Octet, b: Octet)
    requires HexValue(a) >= 0 && HexValue(b) >= 0
    ensures HexByte((HexValue(a) * 16 + HexValue(b)) as char) == [Lower(a), Lower(b)]
  {}

  // ---- Commands and lines ----

  lemma CommandExamples()
    ensures EncodePut("a", "b") == "PUT 61 62"
    ensures EncodeDelete("a") == "DELETE 61"
  {
    assert HexEncode("a") == "61" && HexEncode("b") == "62";
  }

  /** A batch: its length, then kind, key and value of each mutation. */
  lemma BatchExample(x: Mutation, y: Mutation)
    ensures EncodeBatch([x, y]) == "BATCH 2" + (EncodeMutation(x) + EncodeMutation(y))
    ensures EncodeMutation(Mutation(Put, "a", "b")) == " P 61 62" && EncodeMutation(Mutation(Delete, "a", "")) == " D 61 -"
  {
    MutationExamples();
    assert Dec(2) == "2";
    hide EncodeMutation, Dec;
    assert [x, y][1..] == [y] && [y][1..] == [];
    assert EncodeMutations([y]) == EncodeMutation(y) + EncodeMutations([]);
  }

  lemma MutationExamples()
    ensures EncodeMutation(Mutation(Put, "a", "b")) == " P 61 62" && EncodeMutation(Mutation(Delete, "a", "")) == " D 61 -"
  {
    assert HexEncode("a") == "61" && HexEncode("b") == "62";
  }

  lemma LineExamples()
    ensures Line(Mutation(Put, "a", "b")) == "P 61 62"
    ensures Line(Mutation(Put, "a", "")) == "P 61 -"
    ensures Line(Mutation(Delete, "a", "")) == "D 61 -"
    ensures FieldLine("a", "b") == "61=62"
  {
    assert HexEncode("a") == "61" && HexEncode("b") == "62";
  }

  /** Entries of each kind. */
  lemma EntryExamples()
    ensures PrintEntry(LogEntry(7, 3, 2, Normal, "a")) == "7 3 2 0 61"
    ensures PrintEntry(LogEntry(7, 3, 2, ConfigChange, "a")) == "7 3 2 1 61"
    ensures PrintEntry(LogEntry(7, 3, 2, EntryType.Split, "a")) == "7 3 2 2 61"
    ensures PrintEntry(LogEntry(7, 3, 2, Noop, "a")) == "7 3 2 3 61"
  {
    assert HexEncode("a") == "61";
  }

  // ---- What is read ----

  /** A line of a field file: empty, or two runs of hexadecimal digits around the first '='. */
  ghost predicate Readable(line: Text) {
    line == ""
    || exists n :: 0 <= n < |line| && line[n] == '=' && (forall i :: 0 <= i < n ==> line[i] != '=')
                   && HexDecode(line[..n]).Success? && HexDecode(line[n + 1..]).Success?
  }

  lemma LineReads(line: Text)
    requires line != ""
    ensures DecodeLine(line).Success? <==> Readable(line)
  {
    hide HexDecode;
    var e := FindEqual(line);
    if n :| 0 <= n < |line| && line[n] == '=' && forall i :: 0 <= i < n ==> line[i] != '=' {
      assert e == n;
    }
  }

  /** A field file is read exactly when every line of it is readable. */
  lemma {:induction false} FieldsRead(m: Store, lines: seq<Text>)
    ensures DecodeLines(m, lines).Success? <==> forall i :: 0 <= i < |lines| ==> Readable(lines[i])
    decreases |lines|
  {
    hide DecodeLine, Readable;
    if lines != [] {
      var rest := lines[1..];
      assert forall i :: 0 < i < |lines| ==> lines[i] == rest[i - 1];
      EmptyReadable();
      if lines[0] == "" {
        FieldsRead(m, rest);
      } else {
        LineReads(lines[0]);
        if DecodeLine(lines[0]).Success? {
          var kv := DecodeLine(lines[0]).value;
          FieldsRead(m[kv.0 := kv.1], rest);
        }
      }
    }
  }

  lemma EmptyReadable()
    ensures Readable("")
  {}

  /** Replay of a log succeeds exactly when every line that is not empty parses. */
  lemma {:induction false} ReplayReads(m: Store, lines: seq<Text>)
    ensures Replayed(m, lines).0 == Ok <==> forall i :: 0 <= i < |lines| && lines[i] != "" ==> ParseLine(lines[i]).Success?
    decreases |lines|
  {
    hide ParseLine;
    if lines != [] {
      var rest := lines[1..];
      assert forall i :: 0 < i < |lines| ==> lines[i] == rest[i - 1];
      if lines[0] == "" {
        ReplayReads(m, rest);
      } else if ParseLine(lines[0]).Success? {
        ReplayReads(Mutate(m, ParseLine(lines[0]).value), rest);
      }
    }
  }

  lemma {:induction false} ParseAllReads(pairs: seq<(Text, Text)>)
    ensures ParseAll(pairs).Success? <==> forall i :: 0 <= i < |pairs| ==> ParseEntry(pairs[i].1).Success?
    decreases |pairs|
  {
    hide ParseEntry;
    if pairs != [] {
      ParseAllReads(pairs[1..]);
      assert forall i :: 0 < i < |pairs| ==> pairs[i] == pairs[1..][i - 1];
      assert forall i :: 0 <= i < |pairs[1..]| ==> pairs[1..][i] == pairs[i + 1];
    }
  }

  /** A stored log is read exactly when every record under the region's prefix parses. */
  lemma LogReads(m: Store, region: nat)
    ensures LoadLog(m, region).Success? <==> forall k :: k in m && HasPrefix(k, LogPrefix(region)) ==> ParseEntry(m[k]).Success?
  {
    hide ParseEntry, ParseAll, HasPrefix, LogPrefix;
    var ks := Order.Keys(PrefixKeys(m, LogPrefix(region)));
    ParseAllReads(ScanPrefix(m, LogPrefix(region)));
    forall k | k in m && HasPrefix(k, LogPrefix(region)) ensures exists i :: 0 <= i < |ks| && ks[i] == k {
      assert k in ks;
    }
    forall i | 0 <= i < |ks| ensures ks[i] in m && HasPrefix(ks[i], LogPrefix(region)) {
      assert ks[i] in ks;
    }
  }

  ghost predicate Number(m: Store, k: Text, n: nat) {
    k in m && ParseDec(m[k]) == Success(n)
  }

  /** A hard state is read exactly when its four keys hold numbers; without a term there is none. */
  lemma HardStateReads(m: Store, region: nat, s: HardState)
    ensures LoadHardState(m, region) == Success(s) <==>
              && Number(m, MetaKey(region, "current_term"), s.currentTerm) && Number(m, MetaKey(region, "voted_for"), s.votedFor)
              && Number(m, MetaKey(region, "commit_index"), s.commitIndex) && Number(m, MetaKey(region, "last_applied"), s.lastApplied)
    ensures MetaKey(region, "current_term") !in m ==> LoadHardState(m, region) == Failure(KeyNotFound)
  {
    hide MetaKey, ParseDec;
  }

  /** A peer starts fresh without a hard state, and otherwise as the follower that hard state and log describe; what cannot be
      read or does not fit together stops it. */
  lemma StartUp(m: Store, region: nat, id: nat)
    ensures var start := Recovered(region, id, m);
            match (LoadHardState(m, region), LoadLog(m, region))
            case (Failure(e), _) =>
              start == if e == KeyNotFound then Success(RaftState(region, id, Follower, 0, None, 0, 0, [])) else Failure(e)
            case (Success(_), Failure(e)) => start == Failure(e)
            case (Success(s), Success(log)) =>
              if (forall i :: 0 <= i < |log| ==> log[i].regionId == region && log[i].index == i + 1)
                 && s.lastApplied <= s.commitIndex && s.commitIndex <= |log|
              then start == Success(RaftState(region, id, Follower, s.currentTerm, if s.votedFor == 0 then None else Some(s.votedFor),
                                              s.commitIndex, s.lastApplied, log))
              else start == Failure(InvalidArgument)
  {
    hide LoadHardState, LoadLog;
  }

  // ---- Keys ----

  lemma {:induction false} ZerosAre(n: nat)
    ensures forall i :: 0 <= i < n ==> Zeros(n)[i] == '0'
  {
    if n > 0 {
      ZerosAre(n - 1);
    }
  }

  /** A log key is its prefix, zeros up to 20 columns, and the index. */
  lemma LogKeyIs(region: nat, index: nat)
    requires index <= MAX_U64
    ensures var d := Dec(index);
            && |d| <= 20
            && var z := Zeros(20 - |d|);
               LogKey(region, index) == "raft/log/" + Dec(region) + "/" + (z + d) && forall i :: 0 <= i < |z| ==> z[i] == '0'
  {
    PaddedWidth(index);
    PaddedIs(index, 20);
    hide Dec, Zeros, Padded;
    ZerosAre(20 - |Dec(index)|);
  }

  lemma PaddedIs(n: nat, width: nat)
    requires |Padded(n, width)| == width
    ensures |Dec(n)| <= width && Padded(n, width) == Zeros(width - |Dec(n)|) + Dec(n)
  {
    hide Dec, Zeros;
  }

  lemma MetaKeyExamples()
    ensures MetaKey(7, "current_term") == "raft/meta/7/current_term" && MetaKey(7, "voted_for") == "raft/meta/7/voted_for"
    ensures MetaKey(7, "commit_index") == "raft/meta/7/commit_index" && MetaKey(7, "last_applied") == "raft/meta/7/last_applied"
  {
    assert Dec(7) == "7";
    hide Dec;
  }

  /** The four keys of the hard state. */
  lemma HardStateExample()
    ensures SaveHardState(map[], 7, HardState(1, 2, 3, 4))
         == map["raft/meta/7/current_term" := "1", "raft/meta/7/voted_for" := "2", "raft/meta/7/commit_index" := "3", "raft/meta/7/last_applied" := "4"]
  {
    assert Dec(1) == "1" && Dec(2) == "2" && Dec(3) == "3" && Dec(4) == "4";
    hide Dec, SaveHardState, MetaKey;
    MetaKeyExamples();
    SavedIsUpdate(map[], 7, HardState(1, 2, 3, 4));
  }

  // ---- Applying ----

  /** A no-op changes nothing and stops nothing; a command that does not parse stops the loop. */
  lemma NoopsAndBadCommands(m: Store, e: LogEntry, rest: seq<LogEntry>)
    ensures e.kind == Noop ==> ApplyEntries(m, [e] + rest) == ApplyEntries(m, rest) && ApplyStatus([e] + rest) == ApplyStatus(rest)
    ensures e.kind != Noop && ParseCommand(e.command).Failure? ==>
              ApplyEntries(m, [e] + rest) == m && ApplyStatus([e] + rest) == Error(ParseCommand(e.command).code)
  {
    hide ParseCommand;
    assert ([e] + rest)[1..] == rest;
  }

  // ---- Fields ----

  ghost predicate At(f: Store, k: string, v: Text) {
    k in f && f[k] == v
  }

  lemma StoreField(f: Store, s: StoreInfo, i: nat, name: Text, value: Text)
    requires i < |StoreEntries(s)| && StoreEntries(s)[i] == (name, value)
    ensures At(PutStoreFields(f, s, ""), name, value)
  {
    StoreNames(s);
    hide StoreEntries, Write;
    WriteReads(f, "", StoreEntries(s), i);
    assert Key("", name) == name;
  }

  /** The names under which a store is written. */
  lemma StoreFieldNames(f: Store, s: StoreInfo)
    ensures var g := PutStoreFields(f, s, "");
            && At(g, "store_id", Dec(s.storeId)) && At(g, "state", s.state)
            && At(g, "last_heartbeat_ms", PrintInt(s.lastHeartbeatMs))
            && At(g, "raft_host", s.raftEndpoint.host) && At(g, "raft_port", PrintInt(s.raftEndpoint.port))
            && At(g, "client_host", s.clientEndpoint.host) && At(g, "client_port", PrintInt(s.clientEndpoint.port))
  {
    hide At, PutStoreFields, Dec, PrintInt;
    StoreField(f, s, 0, "store_id", Dec(s.storeId));
    StoreField(f, s, 1, "raft_host", s.raftEndpoint.host);
    StoreField(f, s, 2, "raft_port", PrintInt(s.raftEndpoint.port));
    StoreField(f, s, 3, "client_host", s.clientEndpoint.host);
    StoreField(f, s, 4, "client_port", PrintInt(s.clientEndpoint.port));
    StoreField(f, s, 5, "state", s.state);
    StoreField(f, s, 6, "last_heartbeat_ms", PrintInt(s.lastHeartbeatMs));
  }

  lemma RegionField(f: Store, r: RegionInfo, i: nat, name: Text, value: Text)
    requires i < |RegionEntries(r)| && RegionEntries(r)[i] == (name, value)
    ensures At(PutRegionFields(f, r, ""), name, value)
  {
    hide RegionEntries, PutRegionFields;
    RegionFieldReads(f, r, "", i);
    assert Key("", name) == name;
  }

  /** The names under which a region is written, and its peers under theirs. */
  lemma RegionFieldNames(f: Store, r: RegionInfo)
    ensures var g := PutRegionFields(f, r, "");
            && At(g, "region_id", Dec(r.regionId)) && At(g, "start_key", r.startKey) && At(g, "end_key", r.endKey)
            && At(g, "conf_ver", Dec(r.epoch.confVer)) && At(g, "version", Dec(r.epoch.version))
            && At(g, "leader_peer_id", Dec(r.leaderPeerId)) && At(g, "peer_count", Dec(|r.peers|))
  {
    hide At, PutRegionFields, Dec;
    RegionField(f, r, 0, "region_id", Dec(r.regionId));
    RegionField(f, r, 1, "start_key", r.startKey);
    RegionField(f, r, 2, "end_key", r.endKey);
    RegionField(f, r, 3, "conf_ver", Dec(r.epoch.confVer));
    RegionField(f, r, 4, "version", Dec(r.epoch.version));
    RegionField(f, r, 5, "leader_peer_id", Dec(r.leaderPeerId));
    RegionField(f, r, 6, "peer_count", Dec(|r.peers|));
  }

  lemma PeerFieldNames(f: Store, p: PeerInfo)
    ensures var g := PutPeers(f, [p], "r", 1);
            && At(g, "r.peer0.peer_id", Dec(p.peerId)) && At(g, "r.peer0.store_id", Dec(p.storeId))
            && At(g, "r.peer0.role", if p.role == Voter then "Voter" else "Learner")
  {
    assert Dec(0) == "0";
    PeerNames(p);
    hide Dec, Write;
    var prefix := PeerPrefix("r", 0);
    assert prefix == "r.peer0";
    var e := PeerEntries(p);
    WriteReads(f, prefix, e, 0);
    WriteReads(f, prefix, e, 1);
    WriteReads(f, prefix, e, 2);
    assert Key(prefix, e[0].0) == "r.peer0.peer_id" && Key(prefix, e[1].0) == "r.peer0.store_id" && Key(prefix, e[2].0) == "r.peer0.role";
  }

  /** The catalog of an empty PD, and the prefixes of its rows. */
  lemma CatalogNames()
    ensures var g := Fields(Pd.EMPTY);
            && At(g, "next_store_id", "1") && At(g, "next_region_id", "1") && At(g, "next_peer_id", "1")
            && At(g, "store_count", "0") && At(g, "region_count", "0")
    ensures StorePrefix(3) == "store3" && RegionPrefix(3) == "region3"
  {
    assert Dec(1) == "1" && Dec(0) == "0" && Dec(3) == "3";
    hide Dec, Write, IdOrder.ValuesOf;
    var c := Counters(Pd.EMPTY);
    WriteReads(map[], "", c, 0);
    WriteReads(map[], "", c, 1);
    WriteReads(map[], "", c, 2);
    WriteReads(map[], "", c, 3);
    assert Key("", c[0].0) == c[0].0 && Key("", c[1].0) == c[1].0 && Key("", c[2].0) == c[2].0 && Key("", c[3].0) == c[3].0;
  }

  /** A field that is missing, or not a number, reads as its default. */
  lemma Unreadable(f: Store, prefix: Text, name: Text, fallback: nat)
    requires Key(prefix, name) in f ==> ParseU64(f[Key(prefix, name)]).Failure?
    ensures GetUint64Or(f, Key(prefix, name), fallback) == fallback
    ensures name == "conf_ver" ==> GetRegionFields(f, prefix).epoch.confVer == 1
    ensures name == "version" ==> GetRegionFields(f, prefix).epoch.version == 1
    ensures name == "peer_count" ==> GetRegionFields(f, prefix).peers == []
  {
    hide ParseU64, Key;
  }

  /** Fields that are missing read as the defaults. */
  lemma Defaults(prefix: Text)
    ensures GetStoreFields(map[], prefix) == StoreInfo(0, Endpoint("127.0.0.1", 0), Endpoint("127.0.0.1", 0), "Up", 0)
    ensures GetRegionFields(map[], prefix) == RegionInfo(0, "", "", Epoch(1, 1), [], 0)
    ensures GetPeer(map[], prefix) == PeerInfo(0, 0, Voter)
  {}
}
