/** Raft state inside the engine: hard-state keys, padded log keys, and the log-entry format. */
module RaftStorage {
  import opened Basics
  import opened Order
  import opened Codec
  import opened KvEngine
  import opened RaftCore

  datatype HardState = HardState(currentTerm: nat, votedFor: nat, commitIndex: nat, lastApplied: nat)

  // ---- Log entries as text ----

  function KindToInt(kind: EntryType): nat {
    match kind
    case Normal => 0
    case ConfigChange => 1
    case Split => 2
    case Noop => 3
  }

  function KindFromInt(n: nat): EntryType {
    if n == 1 then ConfigChange else if n == 2 then EntryType.Split else if n == 3 then Noop else Normal
  }

  function PrintEntry(e: LogEntry): Text {
    Dec(e.regionId) + " " + (Dec(e.index) + " " + (Dec(e.term) + " " + (Dec(KindToInt(e.kind)) + " " + HexEncode(e.command))))
  }

  function ParseEntry(value: Text): Result<LogEntry> {
    var ws := Words(value);
    if |ws| < 5 then Failure(InvalidArgument)
    else
      match (ParseDec(ws[0]), ParseDec(ws[1]), ParseDec(ws[2]), ParseDec(ws[3]), HexDecode(ws[4]))
      case (Success(r), Success(i), Success(t), Success(k), Success(c)) => Success(LogEntry(r, i, t, KindFromInt(k), c))
      case _ => Failure(InvalidArgument)
  }

  lemma EntryWords(e: LogEntry)
    ensures Words(PrintEntry(e))
         == [Dec(e.regionId), Dec(e.index), Dec(e.term), Dec(KindToInt(e.kind))] + Flush(HexEncode(e.command))
  {
    hide Words, Dec, HexEncode;
    var w4 := HexEncode(e.command);
    var w3 := Dec(KindToInt(e.kind)) + " " + w4;
    var w2 := Dec(e.term) + " " + w3;
    var w1 := Dec(e.index) + " " + w2;
    WordsOne(w4);
    WordsCons(Dec(KindToInt(e.kind)), w4);
    WordsCons(Dec(e.term), w3);
    WordsCons(Dec(e.index), w2);
    WordsCons(Dec(e.regionId), w1);
  }

  /** A stored entry reads back as itself exactly when its command is not empty. */
  lemma EntryRoundTrip(e: LogEntry)
    ensures ParseEntry(PrintEntry(e)) == Success(e) <==> e.command != ""
  {
    EntryWords(e);
    HexRoundTrip(e.command);
    hide Words, Dec, HexEncode, HexDecode, ParseDec;
    var ws := Words(PrintEntry(e));
    if e.command != "" {
      assert |ws| == 5 && ws[4] == HexEncode(e.command);
    } else {
      assert |ws| == 4;
    }
  }

  // ---- Keys ----

  function MetaKey(region: nat, name: Text): Text {
    "raft/meta/" + Dec(region) + "/" + name
  }

  function LogPrefix(region: nat): Text {
    "raft/log/" + Dec(region) + "/"
  }

  function LogKey(region: nat, index: nat): Text {
    LogPrefix(region) + Padded(index, 20)
  }

  predicate IsSystemKey(k: Text) {
    HasPrefix(k, "raft/") || HasPrefix(k, "region/") || HasPrefix(k, "pd/") || HasPrefix(k, "local/")
  }

  /** The part of the engine that belongs to users. */
  function UserMap(m: Store): Store {
    map k | k in m && !IsSystemKey(k) :: m[k]
  }

  lemma PrefixOfSum(p: Text, a: Text, b: Text)
    requires p <= a
    ensures HasPrefix(a + b, p)
  {
    assert (a + b)[..|p|] == a[..|p|] == p;
  }

  lemma LogKeyIsSystem(region: nat, index: nat)
    ensures HasPrefix(LogKey(region, index), LogPrefix(region)) && IsSystemKey(LogKey(region, index))
  {
    hide Dec, Padded;
    PrefixOfSum(LogPrefix(region), LogPrefix(region), Padded(index, 20));
    assert LogKey(region, index) == "raft/log/" + (Dec(region) + "/" + Padded(index, 20));
    PrefixOfSum("raft/", "raft/log/", Dec(region) + "/" + Padded(index, 20));
  }

  lemma MetaKeyIsSystem(region: nat, name: Text, other: nat)
    ensures IsSystemKey(MetaKey(region, name)) && !HasPrefix(MetaKey(region, name), LogPrefix(other))
  {
    hide Dec;
    var k := MetaKey(region, name);
    assert k == "raft/meta/" + (Dec(region) + "/" + name);
    PrefixOfSum("raft/", "raft/meta/", Dec(region) + "/" + name);
    var p := LogPrefix(other);
    assert k[5] == 'm' && p[5] == 'l';
    assert |p| <= |k| ==> k[..|p|][5] == k[5];
  }

  lemma MetaKeysDiffer(region: nat, a: Text, b: Text)
    requires a != b
    ensures MetaKey(region, a) != MetaKey(region, b)
  {
    hide Dec;
    var p := "raft/meta/" + Dec(region) + "/";
    assert MetaKey(region, a)[|p|..] == a && MetaKey(region, b)[|p|..] == b;
  }

  /** A key with a log prefix is a system key, so no user key has one. */
  lemma LogPrefixIsSystem(region: nat, k: Text)
    requires HasPrefix(k, LogPrefix(region))
    ensures IsSystemKey(k)
  {
    hide Dec;
    var p := LogPrefix(region);
    assert k == p + k[|p|..];
    assert k == "raft/log/" + (Dec(region) + "/" + k[|p|..]);
    PrefixOfSum("raft/", "raft/log/", Dec(region) + "/" + k[|p|..]);
  }

  lemma {:induction false} LessAfterPrefix(p: Text, a: Text, b: Text)
    ensures Less(p + a, p + b) <==> Less(a, b)
    decreases |p|
  {
    if p == [] {
      assert p + a == a && p + b == b;
    } else {
      assert (p + a)[1..] == p[1..] + a && (p + b)[1..] == p[1..] + b;
      LessAfterPrefix(p[1..], a, b);
    }
  }

  /** Log keys sort by index: 20 zero-padded columns hold every 64-bit index. */
  lemma LogKeysSort(region: nat, i: nat, j: nat)
    requires i <= MAX_U64 && j <= MAX_U64
    ensures Less(LogKey(region, i), LogKey(region, j)) <==> i < j
    ensures LogKey(region, i) == LogKey(region, j) <==> i == j
  {
    PaddedWidth(i);
    PaddedWidth(j);
    NumbersSort(Padded(i, 20), Padded(j, 20));
    LessAfterPrefix(LogPrefix(region), Padded(i, 20), Padded(j, 20));
    var p := LogPrefix(region);
    assert LogKey(region, i)[|p|..] == Padded(i, 20) && LogKey(region, j)[|p|..] == Padded(j, 20);
  }

  /** Log prefixes of different regions never overlap, although one region id may start with another. */
  lemma LogPrefixesDisjoint(k: Text, a: nat, b: nat)
    requires HasPrefix(k, LogPrefix(a)) && HasPrefix(k, LogPrefix(b))
    ensures a == b
  {
    var x, y := Dec(a), Dec(b);
    if |x| == |y| {
      assert forall i :: 0 <= i < |x| ==> x[i] == k[9 + i] && y[i] == k[9 + i] by {
        forall i | 0 <= i < |x| ensures x[i] == k[9 + i] && y[i] == k[9 + i] {
          assert LogPrefix(a)[9 + i] == x[i] && LogPrefix(b)[9 + i] == y[i];
          assert k[..|LogPrefix(a)|][9 + i] == k[9 + i] && k[..|LogPrefix(b)|][9 + i] == k[9 + i];
        }
      }
      DecInjective(a, b);
    } else if |x| < |y| {
      SlashTooEarly(k, a, b);
    } else {
      SlashTooEarly(k, b, a);
    }
  }

  lemma SlashTooEarly(k: Text, a: nat, b: nat)
    requires HasPrefix(k, LogPrefix(a)) && |Dec(a)| < |Dec(b)|
    ensures !HasPrefix(k, LogPrefix(b))
  {
    var n := 9 + |Dec(a)|;
    assert LogPrefix(a)[n] == '/' && k[..|LogPrefix(a)|][n] == k[n];
    assert LogPrefix(b)[n] == Dec(b)[|Dec(a)|] && IsDigit(Dec(b)[|Dec(a)|]);
    assert |LogPrefix(b)| <= |k| ==> k[..|LogPrefix(b)|][n] == k[n];
  }

  function AfterLastSlash(k: Text): Text {
    if k == [] || k[|k| - 1] == '/' then [] else AfterLastSlash(k[..|k| - 1]) + [k[|k| - 1]]
  }

  /** The index `DeleteLogsFrom` reads from a key. */
  function IndexOf(k: Text): nat {
    match ParseDec(AfterLastSlash(k)) case Success(n) => n case Failure(_) => 0
  }

  lemma {:induction false} AfterSlash(p: Text, d: Text)
    requires p != [] && p[|p| - 1] == '/' && IsNumber(d)
    ensures AfterLastSlash(p + d) == d
    decreases |d|
  {
    var k := p + d;
    if d == [] {
      assert k == p;
    } else {
      assert k[|k| - 1] == d[|d| - 1] && k[..|k| - 1] == p + d[..|d| - 1];
      assert IsDigit(d[|d| - 1]);
      AfterSlash(p, d[..|d| - 1]);
      assert d[..|d| - 1] + [d[|d| - 1]] == d;
    }
  }

  lemma LogKeyIndex(region: nat, index: nat)
    ensures IndexOf(LogKey(region, index)) == index
  {
    AfterSlash(LogPrefix(region), Padded(index, 20));
  }

  // ---- Hard state ----

  function HardStateWrites(region: nat, s: HardState): seq<Mutation> {
    [Mutation(Put, MetaKey(region, "current_term"), Dec(s.currentTerm)),
     Mutation(Put, MetaKey(region, "voted_for"), Dec(s.votedFor)),
     Mutation(Put, MetaKey(region, "commit_index"), Dec(s.commitIndex)),
     Mutation(Put, MetaKey(region, "last_applied"), Dec(s.lastApplied))]
  }

  function SaveHardState(m: Store, region: nat, s: HardState): Store {
    MutateAll(m, HardStateWrites(region, s))
  }

  function ReadNumber(m: Store, k: Text): Result<nat> {
    if k in m then ParseDec(m[k]) else Failure(KeyNotFound)
  }

  function LoadHardState(m: Store, region: nat): Result<HardState> {
    match ReadNumber(m, MetaKey(region, "current_term"))
    case Failure(e) => Failure(e)
    case Success(t) =>
      match ReadNumber(m, MetaKey(region, "voted_for"))
      case Failure(e) => Failure(e)
      case Success(v) =>
        match ReadNumber(m, MetaKey(region, "commit_index"))
        case Failure(e) => Failure(e)
        case Success(c) =>
          match ReadNumber(m, MetaKey(region, "last_applied"))
          case Failure(e) => Failure(e)
          case Success(a) => Success(HardState(t, v, c, a))
  }

  lemma SavedIsUpdate(m: Store, region: nat, s: HardState)
    ensures SaveHardState(m, region, s)
         == m[MetaKey(region, "current_term") := Dec(s.currentTerm)][MetaKey(region, "voted_for") := Dec(s.votedFor)]
             [MetaKey(region, "commit_index") := Dec(s.commitIndex)][MetaKey(region, "last_applied") := Dec(s.lastApplied)]
  {
    hide Dec, MetaKey;
    var a := Mutation(Put, MetaKey(region, "current_term"), Dec(s.currentTerm));
    var b := Mutation(Put, MetaKey(region, "voted_for"), Dec(s.votedFor));
    var c := Mutation(Put, MetaKey(region, "commit_index"), Dec(s.commitIndex));
    var d := Mutation(Put, MetaKey(region, "last_applied"), Dec(s.lastApplied));
    FourWrites(m, a, b, c, d);
  }

  lemma FourWrites(m: Store, a: Mutation, b: Mutation, c: Mutation, d: Mutation)
    ensures MutateAll(m, [a, b, c, d]) == Mutate(Mutate(Mutate(Mutate(m, a), b), c), d)
  {
    hide Mutate;
    assert [a, b, c, d][1..] == [b, c, d];
    assert [b, c, d][1..] == [c, d];
    assert [c, d][1..] == [d];
    assert [d][1..] == [];
    assert MutateAll(Mutate(Mutate(m, a), b), [c, d]) == MutateAll(Mutate(Mutate(Mutate(m, a), b), c), [d]);
  }

  /** Loading returns what was saved. */
  lemma HardStateRoundTrip(m: Store, region: nat, s: HardState)
    ensures LoadHardState(SaveHardState(m, region, s), region) == Success(s)
  {
    SavedIsUpdate(m, region, s);
    MetaKeysDiffer(region, "current_term", "voted_for");
    MetaKeysDiffer(region, "current_term", "commit_index");
    MetaKeysDiffer(region, "current_term", "last_applied");
    MetaKeysDiffer(region, "voted_for", "commit_index");
    MetaKeysDiffer(region, "voted_for", "last_applied");
    MetaKeysDiffer(region, "commit_index", "last_applied");
    hide Dec, MetaKey, ParseDec, SaveHardState;
  }

  /** Saving the hard state changes no key outside the hard state: neither the log nor what users see. */
  lemma SaveTouchesMeta(m: Store, region: nat, s: HardState, k: Text)
    requires !IsSystemKey(k) || (exists r :: HasPrefix(k, LogPrefix(r)))
    ensures SameAt(SaveHardState(m, region, s), m, k)
  {
    SavedIsUpdate(m, region, s);
    var r := if !IsSystemKey(k) then 0 else var r :| HasPrefix(k, LogPrefix(r)); r;
    MetaKeyIsSystem(region, "current_term", r);
    MetaKeyIsSystem(region, "voted_for", r);
    MetaKeyIsSystem(region, "commit_index", r);
    MetaKeyIsSystem(region, "last_applied", r);
    hide Dec, MetaKey, SaveHardState, IsSystemKey, HasPrefix;
  }

  // ---- The log ----

  function AppendLog(m: Store, e: LogEntry): Store {
    m[LogKey(e.regionId, e.index) := PrintEntry(e)]
  }

  function ParseAll(records: seq<(Text, Text)>): Result<seq<LogEntry>> {
    if records == [] then Success([])
    else
      match ParseEntry(records[0].1)
      case Failure(e) => Failure(e)
      case Success(x) =>
        match ParseAll(records[1..])
        case Failure(e) => Failure(e)
        case Success(rest) => Success([x] + rest)
  }

  function LoadLog(m: Store, region: nat): Result<seq<LogEntry>> {
    ParseAll(ScanPrefix(m, LogPrefix(region)))
  }

  function DeleteLogsFrom(m: Store, region: nat, first: nat): Store {
    m - (set k | k in PrefixKeys(m, LogPrefix(region)) && IndexOf(k) >= first)
  }

  /** What a log must look like to be stored: short enough for the key columns, with commands to print. */
  ghost predicate Storable(region: nat, log: seq<LogEntry>) {
    && |log| <= MAX_U64
    && forall i :: 0 <= i < |log| ==> log[i].regionId == region && log[i].index == i + 1 && log[i].command != ""
  }

  /** The engine holds exactly this log of the region. */
  ghost predicate Stored(m: Store, region: nat, log: seq<LogEntry>) {
    && (forall j :: 1 <= j <= |log| ==> LogKey(region, j) in m && m[LogKey(region, j)] == PrintEntry(log[j - 1]))
    && (forall k :: k in m && HasPrefix(k, LogPrefix(region)) ==> exists j :: 1 <= j <= |log| && k == LogKey(region, j))
  }

  ghost function LogKeys(region: nat, n: nat): (ks: seq<Text>)
    ensures |ks| == n && forall i :: 0 <= i < n ==> ks[i] == LogKey(region, i + 1)
  {
    seq(n, i requires 0 <= i < n => LogKey(region, i + 1))
  }

  lemma StoredScan(m: Store, region: nat, log: seq<LogEntry>)
    requires Storable(region, log) && Stored(m, region, log)
    ensures Keys(PrefixKeys(m, LogPrefix(region))) == LogKeys(region, |log|)
  {
    hide LogKey, LogPrefix, HasPrefix;
    var ks := LogKeys(region, |log|);
    forall i, j | 0 <= i < j < |ks| ensures Less(ks[i], ks[j]) {
      LogKeysSort(region, i + 1, j + 1);
    }
    forall k ensures k in ks <==> k in PrefixKeys(m, LogPrefix(region)) {
      if k in ks {
        var i :| 0 <= i < |ks| && ks[i] == k;
        LogKeyIsSystem(region, i + 1);
        assert LogKey(region, i + 1) in m;
      }
      if k in PrefixKeys(m, LogPrefix(region)) {
        var j :| 1 <= j <= |log| && k == LogKey(region, j);
        assert ks[j - 1] == k;
      }
    }
    AscendingUnique(ks, Keys(PrefixKeys(m, LogPrefix(region))));
  }

  lemma {:induction false} ParsePrinted(records: seq<(Text, Text)>, log: seq<LogEntry>)
    requires |records| == |log|
    requires forall i :: 0 <= i < |log| ==> records[i].1 == PrintEntry(log[i]) && log[i].command != ""
    ensures ParseAll(records) == Success(log)
    decreases |log|
  {
    hide PrintEntry, ParseEntry;
    if log != [] {
      EntryRoundTrip(log[0]);
      ParsePrinted(records[1..], log[1..]);
      assert [log[0]] + log[1..] == log;
    }
  }

  /** Loading the log returns exactly the stored entries, in index order. */
  lemma LoadStored(m: Store, region: nat, log: seq<LogEntry>)
    requires Storable(region, log) && Stored(m, region, log)
    ensures LoadLog(m, region) == Success(log)
  {
    StoredScan(m, region, log);
    hide LogKey, LogPrefix, HasPrefix, PrintEntry, Keys;
    ParsePrinted(ScanPrefix(m, LogPrefix(region)), log);
  }

  lemma StoredSame(m: Store, n: Store, region: nat, log: seq<LogEntry>)
    requires Stored(m, region, log)
    requires forall k :: HasPrefix(k, LogPrefix(region)) ==> SameAt(n, m, k)
    ensures Stored(n, region, log)
  {
    hide LogKey, LogPrefix, HasPrefix, PrintEntry;
    forall j | 1 <= j <= |log| ensures LogKey(region, j) in n && n[LogKey(region, j)] == PrintEntry(log[j - 1]) {
      LogKeyIsSystem(region, j);
      assert SameAt(n, m, LogKey(region, j));
    }
    forall k | k in n && HasPrefix(k, LogPrefix(region)) ensures exists j :: 1 <= j <= |log| && k == LogKey(region, j) {
      assert SameAt(n, m, k);
    }
  }

  lemma AppendStored(m: Store, region: nat, log: seq<LogEntry>, e: LogEntry)
    requires Storable(region, log + [e]) && Stored(m, region, log)
    ensures Stored(AppendLog(m, e), region, log + [e])
  {
    hide LogKey, LogPrefix, HasPrefix, PrintEntry;
    var n := AppendLog(m, e);
    var log' := log + [e];
    assert log'[|log|] == e;
    forall j | 1 <= j <= |log'| ensures LogKey(region, j) in n && n[LogKey(region, j)] == PrintEntry(log'[j - 1]) {
      LogKeysSort(region, j, e.index);
    }
    forall k | k in n && HasPrefix(k, LogPrefix(region)) ensures exists j :: 1 <= j <= |log'| && k == LogKey(region, j) {
      if k in m {
        var j :| 1 <= j <= |log| && k == LogKey(region, j);
        assert 1 <= j <= |log'|;
      } else {
        assert k == LogKey(region, |log| + 1);
      }
    }
  }

  lemma DeleteStored(m: Store, region: nat, log: seq<LogEntry>, first: nat)
    requires Storable(region, log) && Stored(m, region, log) && 1 <= first <= |log| + 1
    ensures Stored(DeleteLogsFrom(m, region, first), region, log[..first - 1])
  {
    hide LogKey, LogPrefix, HasPrefix, PrintEntry, IndexOf;
    var n := DeleteLogsFrom(m, region, first);
    var kept := log[..first - 1];
    forall j | 1 <= j <= |kept| ensures LogKey(region, j) in n && n[LogKey(region, j)] == PrintEntry(kept[j - 1]) {
      LogKeyIndex(region, j);
    }
    forall k | k in n && HasPrefix(k, LogPrefix(region)) ensures exists j :: 1 <= j <= |kept| && k == LogKey(region, j) {
      var j :| 1 <= j <= |log| && k == LogKey(region, j);
      LogKeyIndex(region, j);
      assert k in PrefixKeys(m, LogPrefix(region));
      assert j <= |kept|;
    }
  }

  // ---- Methods over the engine ----

  method Save(engine: FileKvEngine, region: nat, s: HardState)
    modifies engine
    ensures engine.data == SaveHardState(old(engine.data), region, s)
    ensures old(engine.Durable()) ==> engine.Durable()
  {
    hide Dec;
    engine.WriteBatch(HardStateWrites(region, s));
  }

  method Append(engine: FileKvEngine, e: LogEntry)
    modifies engine
    ensures engine.data == AppendLog(old(engine.data), e)
    ensures old(engine.Durable()) ==> engine.Durable()
  {
    hide Dec, PrintEntry, Padded;
    var w := [Mutation(Put, LogKey(e.regionId, e.index), PrintEntry(e))];
    assert w[1..] == [];
    engine.WriteBatch(w);
  }

  lemma ParseNext(records: seq<(Text, Text)>, i: nat, entries: seq<LogEntry>)
    requires i < |records|
    ensures var e := ParseEntry(records[i].1);
            Prepend(entries, ParseAll(records[i..]))
            == if e.Failure? then Failure(e.code) else Prepend(entries + [e.value], ParseAll(records[i + 1..]))
  {
    hide ParseEntry;
    assert records[i..][0] == records[i] && records[i..][1..] == records[i + 1..];
    var e := ParseEntry(records[i].1);
    var rest := ParseAll(records[i + 1..]);
    assert e.Success? && rest.Success? ==> entries + ([e.value] + rest.value) == entries + [e.value] + rest.value;
  }

  method Load(engine: FileKvEngine, region: nat) returns (r: Result<seq<LogEntry>>)
    ensures r == LoadLog(engine.data, region)
  {
    hide ParseEntry, ParseAll;
    var records := engine.Prefixed(LogPrefix(region));
    var entries: seq<LogEntry> := [];
    var i := 0;
    LoadStart(records);
    while i < |records|
      invariant 0 <= i <= |records|
      invariant ParseAll(records) == Prepend(entries, ParseAll(records[i..]))
    {
      ParseNext(records, i, entries);
      var e := ParseEntry(records[i].1);
      if e.Failure? {
        return Failure(e.code);
      }
      entries := entries + [e.value];
      i := i + 1;
    }
    LoadEnd(records, entries);
    return Success(entries);
  }

  lemma LoadStart(records: seq<(Text, Text)>)
    ensures Prepend([], ParseAll(records[0..])) == ParseAll(records)
  {
    assert records[0..] == records;
    assert ParseAll(records).Success? ==> [] + ParseAll(records).value == ParseAll(records).value;
  }

  lemma LoadEnd(records: seq<(Text, Text)>, entries: seq<LogEntry>)
    ensures Prepend(entries, ParseAll(records[|records|..])) == Success(entries)
  {
    assert entries + [] == entries;
  }

  lemma {:induction false} DeletesRemove(m: Store, mus: seq<Mutation>)
    requires forall i :: 0 <= i < |mus| ==> mus[i].kind == Delete
    ensures MutateAll(m, mus) == m - (set i | 0 <= i < |mus| :: mus[i].key)
    decreases |mus|
  {
    if mus != [] {
      DeletesRemove(m - {mus[0].key}, mus[1..]);
      var rest := set i | 0 <= i < |mus[1..]| :: mus[1..][i].key;
      var all := set i | 0 <= i < |mus| :: mus[i].key;
      forall k ensures k in all <==> k == mus[0].key || k in rest {
        TouchesCons(mus, k);
      }
      assert m - {mus[0].key} - rest == m - all;
    }
  }

  method DeleteFrom(engine: FileKvEngine, region: nat, first: nat)
    modifies engine
    ensures engine.data == DeleteLogsFrom(old(engine.data), region, first)
    ensures old(engine.Durable()) ==> engine.Durable()
  {
    hide LogPrefix, IndexOf;
    var records := engine.Prefixed(LogPrefix(region));
    var mus: seq<Mutation> := [];
    ghost var ks := Keys(PrefixKeys(engine.data, LogPrefix(region)));
    var i := 0;
    while i < |records|
      invariant 0 <= i <= |records|
      invariant engine.data == old(engine.data) && engine.lines == old(engine.lines)
      invariant forall j :: 0 <= j < |mus| ==> mus[j].kind == Delete && mus[j].key in ks && IndexOf(mus[j].key) >= first
      invariant forall j :: 0 <= j < i && IndexOf(ks[j]) >= first ==> Touches(mus, ks[j])
    {
      var k := records[i].0;
      assert k == ks[i];
      ghost var before := mus;
      if IndexOf(k) >= first {
        mus := mus + [Mutation(Delete, k, "")];
        assert mus[|before|].key == k;
      }
      forall j | 0 <= j <= i && IndexOf(ks[j]) >= first ensures Touches(mus, ks[j]) {
        if j < i {
          var x :| 0 <= x < |before| && before[x].key == ks[j];
          assert mus[x].key == ks[j];
        }
      }
      i := i + 1;
    }
    DeletesRemove(engine.data, mus);
    DeletedKeys(engine.data, LogPrefix(region), first, mus);
    LogKeysNonEmpty(region, engine.data, mus);
    engine.WriteBatch(mus);
  }

  lemma DeletedKeys(m: Store, prefix: Text, first: nat, mus: seq<Mutation>)
    requires forall j :: 0 <= j < |mus| ==> mus[j].key in Keys(PrefixKeys(m, prefix)) && IndexOf(mus[j].key) >= first
    requires forall j :: 0 <= j < |Keys(PrefixKeys(m, prefix))| && IndexOf(Keys(PrefixKeys(m, prefix))[j]) >= first ==>
                           Touches(mus, Keys(PrefixKeys(m, prefix))[j])
    ensures (set i | 0 <= i < |mus| :: mus[i].key) == (set k | k in PrefixKeys(m, prefix) && IndexOf(k) >= first)
  {
    hide IndexOf, HasPrefix;
    var ks := Keys(PrefixKeys(m, prefix));
    forall k | k in PrefixKeys(m, prefix) && IndexOf(k) >= first ensures k in (set i | 0 <= i < |mus| :: mus[i].key) {
      assert k in ks;
      var j :| 0 <= j < |ks| && ks[j] == k;
      assert Touches(mus, ks[j]);
    }
  }

  lemma LogKeysNonEmpty(region: nat, m: Store, mus: seq<Mutation>)
    requires forall j :: 0 <= j < |mus| ==> mus[j].key in Keys(PrefixKeys(m, LogPrefix(region)))
    ensures KeysNonEmpty(mus)
  {
    hide Keys;
    forall j | 0 <= j < |mus| ensures mus[j].key != "" {
      assert HasPrefix(mus[j].key, LogPrefix(region));
    }
  }
}
