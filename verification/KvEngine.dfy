/** The file-backed key-value engine: an ordered map in memory and an append-only log of lines. */
module KvEngine {
  import opened Basics
  import opened Order
  import opened Codec

  datatype MutationType = Put | Delete
  datatype Mutation = Mutation(kind: MutationType, key: Text, value: Text)
  type Store = map<Text, Text>

  // ---- Mutations ----

  function Mutate(m: Store, mu: Mutation): Store {
    if mu.kind == Put then m[mu.key := mu.value] else m - {mu.key}
  }

  function MutateAll(m: Store, mus: seq<Mutation>): Store
    decreases |mus|
  {
    if mus == [] then m else MutateAll(Mutate(m, mus[0]), mus[1..])
  }

  lemma {:induction false} MutateAllAppend(m: Store, a: seq<Mutation>, b: seq<Mutation>)
    ensures MutateAll(m, a + b) == MutateAll(MutateAll(m, a), b)
    decreases |a|
  {
    if a == [] {
      assert a + b == b;
    } else {
      assert (a + b)[0] == a[0] && (a + b)[1..] == a[1..] + b;
      MutateAllAppend(Mutate(m, a[0]), a[1..], b);
    }
  }

  ghost predicate Touches(mus: seq<Mutation>, k: Text) {
    exists i :: 0 <= i < |mus| && mus[i].key == k
  }

  lemma TouchesCons(mus: seq<Mutation>, k: Text)
    requires mus != []
    ensures Touches(mus, k) <==> mus[0].key == k || Touches(mus[1..], k)
  {
    if Touches(mus, k) {
      var i :| 0 <= i < |mus| && mus[i].key == k;
      assert i == 0 || mus[1..][i - 1].key == k;
    }
    if Touches(mus[1..], k) {
      var i :| 0 <= i < |mus[1..]| && mus[1..][i].key == k;
      assert mus[i + 1].key == k;
    }
  }

  ghost predicate SameAt(m: Store, n: Store, k: Text) {
    (k in m <==> k in n) && (k in m ==> m[k] == n[k])
  }

  lemma SameEverywhere(m: Store, n: Store)
    requires forall k :: SameAt(m, n, k)
    ensures m == n
  {
    forall k ensures k in m <==> k in n {
      assert SameAt(m, n, k);
    }
    forall k | k in m ensures m[k] == n[k] {
      assert SameAt(m, n, k);
    }
  }

  /** A batch decides every key it touches: maps that differ only there end up equal. */
  lemma {:induction false} BatchDecides(m: Store, n: Store, mus: seq<Mutation>)
    requires forall k :: !Touches(mus, k) ==> SameAt(m, n, k)
    ensures MutateAll(m, mus) == MutateAll(n, mus)
    decreases |mus|
  {
    if mus == [] {
      SameEverywhere(m, n);
    } else {
      var m', n' := Mutate(m, mus[0]), Mutate(n, mus[0]);
      forall k | !Touches(mus[1..], k) ensures SameAt(m', n', k) {
        TouchesCons(mus, k);
      }
      BatchDecides(m', n', mus[1..]);
    }
  }

  lemma {:induction false} UntouchedStays(m: Store, mus: seq<Mutation>, k: Text)
    requires !Touches(mus, k)
    ensures SameAt(m, MutateAll(m, mus), k)
    decreases |mus|
  {
    if mus != [] {
      TouchesCons(mus, k);
      UntouchedStays(Mutate(m, mus[0]), mus[1..], k);
    }
  }

  /** Applying a list again over any prefix of it already applied gives what applying it once gives. */
  lemma ReapplyIsIdempotent(m: Store, mus: seq<Mutation>, done: nat)
    requires done <= |mus|
    ensures MutateAll(MutateAll(m, mus[..done]), mus) == MutateAll(m, mus)
  {
    var n := MutateAll(m, mus[..done]);
    forall k | !Touches(mus, k) ensures SameAt(n, m, k) {
      assert !Touches(mus[..done], k);
      UntouchedStays(m, mus[..done], k);
    }
    BatchDecides(n, m, mus);
  }

  /** The last thing a list of mutations does to a key: nothing, a value, or a deletion. */
  function LastWrite(mus: seq<Mutation>, k: Text): Option<Option<Text>> {
    if mus == [] then None
    else
      var mu := mus[|mus| - 1];
      if mu.key != k then LastWrite(mus[..|mus| - 1], k)
      else Some(if mu.kind == Put then Some(mu.value) else None)
  }

  lemma {:induction false} LastWriteDecides(m: Store, mus: seq<Mutation>, k: Text)
    ensures var r := MutateAll(m, mus);
            match LastWrite(mus, k)
            case None => SameAt(r, m, k)
            case Some(Some(v)) => k in r && r[k] == v
            case Some(None) => k !in r
    decreases |mus|
  {
    if mus != [] {
      var n := |mus| - 1;
      LastWriteDecides(m, mus[..n], k);
      assert mus == mus[..n] + [mus[n]] && [mus[n]][1..] == [];
      MutateAllAppend(m, mus[..n], [mus[n]]);
      assert MutateAll(MutateAll(m, mus[..n]), [mus[n]]) == Mutate(MutateAll(m, mus[..n]), mus[n]);
    }
  }

  // ---- The line log ----

  function Line(mu: Mutation): Text {
    (if mu.kind == Put then "P" else "D") + " " + HexEncode(mu.key) + " " + HexOrDash(mu.value)
  }

  function HexOrDash(v: Text): (r: Text)
    ensures r != "" && NoSpace(r)
  {
    if v == "" then "-" else HexEncode(v)
  }

  function SkipSpaces(s: Text): Text {
    if s != [] && IsSpace(s[0]) then SkipSpaces(s[1..]) else s
  }

  /** The i-th word, empty when the stream has run out. */
  function Nth(ws: seq<Text>, i: nat): Text {
    if i < |ws| then ws[i] else ""
  }

  function ParseLine(line: Text): Result<Mutation> {
    var s := SkipSpaces(line);
    var ws := if s == [] then [] else Words(s[1..]);
    var valueHex := if Nth(ws, 1) == "" then "-" else Nth(ws, 1);
    match HexDecode(Nth(ws, 0))
    case Failure(e) => Failure(e)
    case Success(key) =>
      match (if valueHex == "-" then Success("") else HexDecode(valueHex))
      case Failure(e) => Failure(e)
      case Success(value) =>
        if s != [] && s[0] == 'P' then Success(Mutation(Put, key, value))
        else if s != [] && s[0] == 'D' then Success(Mutation(Delete, key, value))
        else Failure(InvalidArgument)
  }

  function Lines(mus: seq<Mutation>): seq<Text> {
    if mus == [] then [] else [Line(mus[0])] + Lines(mus[1..])
  }

  /** What reopening reads: the status and the map, which keeps what was read before a bad line. */
  function Replayed(m: Store, lines: seq<Text>): (Status, Store)
    decreases |lines|
  {
    if lines == [] then (Ok, m)
    else if lines[0] == "" then Replayed(m, lines[1..])
    else
      match ParseLine(lines[0])
      case Failure(e) => (Error(e), m)
      case Success(mu) => Replayed(Mutate(m, mu), lines[1..])
  }

  lemma LineWords(mu: Mutation)
    ensures SkipSpaces(Line(mu)) == Line(mu) && Line(mu) != ""
    ensures Line(mu)[0] == if mu.kind == Put then 'P' else 'D'
    ensures Words(Line(mu)[1..]) == Flush(HexEncode(mu.key)) + [HexOrDash(mu.value)]
  {
    var rest := HexEncode(mu.key) + " " + HexOrDash(mu.value);
    assert Line(mu)[1..] == "" + " " + rest;
    WordsCons("", rest);
    WordsCons(HexEncode(mu.key), HexOrDash(mu.value));
    WordsOne(HexOrDash(mu.value));
  }

  /** A log line reads back as the mutation it was written for exactly when its key is not empty. */
  lemma LineRoundTrip(mu: Mutation)
    ensures ParseLine(Line(mu)) == Success(mu) <==> mu.key != ""
  {
    LineWords(mu);
    HexRoundTrip(mu.key);
    HexRoundTrip(mu.value);
    var ws := Words(Line(mu)[1..]);
    if mu.key == "" {
      assert ws == [HexOrDash(mu.value)];
    } else {
      assert ws == [HexEncode(mu.key), HexOrDash(mu.value)];
      assert HexOrDash(mu.value) == "-" <==> mu.value == "" by {
        if mu.value != "" {
          assert |HexEncode(mu.value)| == 2 * |mu.value|;
        }
      }
    }
  }

  /** The bad case: an empty key with an empty value leaves a line that makes the next open fail. */
  lemma EmptyKeyBreaksReopen(m: Store)
    ensures Replayed(m, [Line(Mutation(Put, "", ""))]).0 == Error(InvalidArgument)
  {
    var mu := Mutation(Put, "", "");
    LineWords(mu);
    assert Words(Line(mu)[1..]) == ["-"];
  }

  lemma {:induction false} ReplayAppend(m: Store, a: seq<Text>, b: seq<Text>)
    requires Replayed(m, a).0 == Ok
    ensures Replayed(m, a + b) == Replayed(Replayed(m, a).1, b)
    decreases |a|
  {
    if a == [] {
      assert a + b == b;
    } else {
      assert (a + b)[0] == a[0] && (a + b)[1..] == a[1..] + b;
      if a[0] == "" {
        ReplayAppend(m, a[1..], b);
      } else {
        ReplayAppend(Mutate(m, ParseLine(a[0]).value), a[1..], b);
      }
    }
  }

  ghost predicate KeysNonEmpty(mus: seq<Mutation>) {
    forall i :: 0 <= i < |mus| ==> mus[i].key != ""
  }

  /** Reading back the lines of a batch performs the batch. */
  lemma {:induction false} ReplayLines(m: Store, mus: seq<Mutation>)
    requires KeysNonEmpty(mus)
    ensures Replayed(m, Lines(mus)) == (Ok, MutateAll(m, mus))
    decreases |mus|
  {
    if mus != [] {
      LineRoundTrip(mus[0]);
      LineWords(mus[0]);
      assert Lines(mus)[1..] == Lines(mus[1..]);
      ReplayLines(Mutate(m, mus[0]), mus[1..]);
    }
  }

  /** What the lines of a batch are read back as, when all of them parse. */
  predicate AllParse(mus: seq<Mutation>) {
    forall i :: 0 <= i < |mus| ==> ParseLine(Line(mus[i])).Success?
  }

  function ReadBack(mus: seq<Mutation>): (r: seq<Mutation>)
    requires AllParse(mus)
    ensures |r| == |mus| && forall i :: 0 <= i < |r| ==> r[i] == ParseLine(Line(mus[i])).value
  {
    seq(|mus|, i requires 0 <= i < |mus| => ParseLine(Line(mus[i])).value)
  }

  /** Reading the lines of any batch performs what they are read back as, or ends at one that does not parse. */
  lemma {:induction false} ReplayReadBack(m: Store, mus: seq<Mutation>)
    ensures Replayed(m, Lines(mus)).0 == Ok <==> AllParse(mus)
    ensures AllParse(mus) ==> Replayed(m, Lines(mus)).1 == MutateAll(m, ReadBack(mus))
    decreases |mus|
  {
    hide Line, ParseLine;
    if mus != [] {
      LineWords(mus[0]);
      var rest := mus[1..];
      assert Lines(mus)[1..] == Lines(rest);
      assert AllParse(mus) <==> ParseLine(Line(mus[0])).Success? && AllParse(rest) by {
        assert forall i :: 0 < i < |mus| ==> mus[i] == rest[i - 1];
        assert forall i :: 0 <= i < |rest| ==> rest[i] == mus[i + 1];
      }
      if ParseLine(Line(mus[0])).Success? {
        ReplayReadBack(Mutate(m, ParseLine(Line(mus[0])).value), rest);
        assert AllParse(mus) ==> ReadBack(mus)[1..] == ReadBack(rest);
      }
    }
  }

  /** A batch keeps a given state durable exactly when its lines parse and what they are read back as does to the map what
      the batch does. */
  lemma BatchDurableHere(lines: seq<Text>, data: Store, mus: seq<Mutation>)
    requires Replayed(map[], lines) == (Ok, data)
    ensures Replayed(map[], lines + Lines(mus)) == (Ok, MutateAll(data, mus))
       <==> AllParse(mus) && forall k :: SameAt(MutateAll(data, ReadBack(mus)), MutateAll(data, mus), k)
  {
    hide Replayed, Lines, MutateAll, AllParse;
    ReplayAppend(map[], lines, Lines(mus));
    ReplayReadBack(data, mus);
    if AllParse(mus) && forall k :: SameAt(MutateAll(data, ReadBack(mus)), MutateAll(data, mus), k) {
      SameEverywhere(MutateAll(data, ReadBack(mus)), MutateAll(data, mus));
    }
  }

  /** A written line is never read back with an empty key. */
  lemma ReadBackKeys(mu: Mutation)
    ensures ParseLine(Line(mu)).Success? ==> ParseLine(Line(mu)).value.key != ""
  {
    LineWords(mu);
    HexRoundTrip(mu.key);
    HexRoundTrip(mu.value);
  }

  ghost predicate KeepsDurable(lines: seq<Text>, data: Store, mus: seq<Mutation>) {
    Replayed(map[], lines) == (Ok, data) ==> Replayed(map[], lines + Lines(mus)) == (Ok, MutateAll(data, mus))
  }

  /** A batch keeps every durable state durable exactly when none of its keys is empty. */
  lemma BatchDurable(mus: seq<Mutation>)
    ensures (forall lines, data :: KeepsDurable(lines, data, mus)) <==> KeysNonEmpty(mus)
  {
    hide Replayed, Lines, MutateAll;
    if KeysNonEmpty(mus) {
      forall lines, data ensures KeepsDurable(lines, data, mus) {
        if Replayed(map[], lines) == (Ok, data) {
          ReplayAppend(map[], lines, Lines(mus));
          ReplayLines(data, mus);
        }
      }
    } else {
      var lines, data := EmptyKeyShows(mus);
      assert !KeepsDurable(lines, data, mus);
    }
  }

  lemma OneLine()
    ensures Replayed(map[], []) == (Ok, map[])
    ensures Replayed(map[], ["P"]) == (Ok, map["" := ""])
  {
    var none: seq<Text> := Words("");
    assert none == [];
    assert SkipSpaces("P") == "P" && "P"[1..] == "";
    assert ParseLine("P") == Success(Mutation(Put, "", ""));
    assert ["P"][1..] == [];
    assert Replayed(map["" := ""], []) == (Ok, map["" := ""]);
  }

  /** With an empty key in the batch some durable state is left that does not replay: the key is never read back, so it
      shows on the empty engine when the batch puts it and on one that holds it when the batch deletes it. */
  lemma EmptyKeyShows(mus: seq<Mutation>) returns (lines: seq<Text>, data: Store)
    requires !KeysNonEmpty(mus)
    ensures Replayed(map[], lines) == (Ok, data) && Replayed(map[], lines + Lines(mus)) != (Ok, MutateAll(data, mus))
  {
    hide Replayed, Lines, MutateAll, Line, ParseLine, LastWrite;
    OneLine();
    lines, data := [], map[];
    if LastWrite(mus, "") == Some(None) {
      lines, data := ["P"], map["" := ""];
    }
    BatchDurableHere(lines, data, mus);
    if AllParse(mus) {
      var back := ReadBack(mus);
      forall i | 0 <= i < |back| ensures back[i].key != "" {
        ReadBackKeys(mus[i]);
      }
      UntouchedStays(data, back, "");
      LastWriteDecides(data, mus, "");
      WrittenSomehow(mus, "");
      assert Touches(mus, "");
      assert !SameAt(MutateAll(data, back), MutateAll(data, mus), "");
    }
  }

  lemma {:induction false} WrittenSomehow(mus: seq<Mutation>, k: Text)
    ensures LastWrite(mus, k).Some? <==> Touches(mus, k)
    decreases |mus|
  {
    if mus != [] {
      var n := |mus| - 1;
      WrittenSomehow(mus[..n], k);
      if Touches(mus, k) && mus[n].key != k {
        var i :| 0 <= i < |mus| && mus[i].key == k;
        assert mus[..n][i].key == k;
      }
    }
  }

  // ---- Ordered scans ----

  predicate InRange(k: Text, lo: Text, hi: Text) {
    (lo == "" || AtMost(lo, k)) && (hi == "" || Less(k, hi))
  }

  predicate HasPrefix(k: Text, p: Text) {
    |p| <= |k| && k[..|p|] == p
  }

  function Pairs(m: Store, ks: seq<Text>): (r: seq<(Text, Text)>)
    requires forall k :: k in ks ==> k in m
    ensures |r| == |ks| && forall i :: 0 <= i < |r| ==> r[i] == (ks[i], m[ks[i]])
  {
    seq(|ks|, i requires 0 <= i < |ks| => assert ks[i] in ks; (ks[i], m[ks[i]]))
  }

  function RangeKeys(m: Store, lo: Text, hi: Text): set<Text> {
    set k | k in m && InRange(k, lo, hi)
  }

  function PrefixKeys(m: Store, p: Text): set<Text> {
    set k | k in m && HasPrefix(k, p)
  }

  /** The entries in [lo, hi) in key order; an empty bound is open. */
  function ScanRange(m: Store, lo: Text, hi: Text): seq<(Text, Text)> {
    Pairs(m, Keys(RangeKeys(m, lo, hi)))
  }

  function ScanPrefix(m: Store, p: Text): seq<(Text, Text)> {
    Pairs(m, Keys(PrefixKeys(m, p)))
  }

  lemma {:induction false} PrefixAtMost(p: Text, k: Text)
    requires HasPrefix(k, p)
    ensures AtMost(p, k)
    decreases |p|
  {
    if p != [] {
      assert k[0] == p[0] && k[1..][..|p| - 1] == p[1..];
      PrefixAtMost(p[1..], k[1..]);
    }
  }

  /** Keys with a common prefix are next to each other: past the prefix, no key has it again. */
  lemma {:induction false} PrefixContiguous(p: Text, a: Text, b: Text)
    requires AtMost(p, a) && Less(a, b) && HasPrefix(b, p)
    ensures HasPrefix(a, p)
    decreases |p|
  {
    if p != [] {
      assert b[0] == p[0] && b[1..][..|p| - 1] == p[1..];
      assert a != [] && a[0] == p[0];
      PrefixContiguous(p[1..], a[1..], b[1..]);
      assert a[..|p|] == [a[0]] + a[1..][..|p| - 1];
      assert p == [p[0]] + p[1..];
    }
  }

  // ---- The engine ----

  class FileKvEngine {
    var data: Store
    var lines: seq<Text>

    /** Reopening the log would rebuild the map. */
    ghost predicate Durable()
      reads this
    {
      Replayed(map[], lines) == (Ok, data)
    }

    constructor ()
      ensures data == map[] && lines == [] && Durable()
    {
      data := map[];
      lines := [];
    }

    method WriteBatch(mus: seq<Mutation>)
      modifies this
      ensures data == MutateAll(old(data), mus)
      ensures lines == old(lines) + Lines(mus)
      ensures old(Durable()) && KeysNonEmpty(mus) ==> Durable()
    {
      hide Replayed, Line;
      var i := 0;
      while i < |mus|
        invariant 0 <= i <= |mus|
        invariant data == old(data)
        invariant lines + Lines(mus[i..]) == old(lines) + Lines(mus)
      {
        assert mus[i..][0] == mus[i] && mus[i..][1..] == mus[i + 1..];
        lines := lines + [Line(mus[i])];
        i := i + 1;
      }
      i := 0;
      while i < |mus|
        invariant 0 <= i <= |mus|
        invariant lines == old(lines) + Lines(mus)
        invariant MutateAll(data, mus[i..]) == MutateAll(old(data), mus)
      {
        assert mus[i..][0] == mus[i] && mus[i..][1..] == mus[i + 1..];
        if mus[i].kind == Put {
          data := data[mus[i].key := mus[i].value];
        } else {
          data := data - {mus[i].key};
        }
        i := i + 1;
      }
      if old(Durable()) && KeysNonEmpty(mus) {
        BatchDurable(mus);
        assert KeepsDurable(old(lines), old(data), mus);
      }
    }

    method Get(key: Text) returns (r: Result<Text>)
      ensures r == if key in data then Success(data[key]) else Failure(KeyNotFound)
    {
      if key in data {
        r := Success(data[key]);
      } else {
        r := Failure(KeyNotFound);
      }
    }

    /** Reopen: forget the map and read the log. */
    method Replay() returns (status: Status)
      modifies this`data
      ensures (status, data) == Replayed(map[], lines)
      ensures old(Durable()) ==> status == Ok && data == old(data)
    {
      data := map[];
      var i := 0;
      while i < |lines|
        invariant 0 <= i <= |lines|
        invariant Replayed(data, lines[i..]) == Replayed(map[], lines)
      {
        assert lines[i..][0] == lines[i] && lines[i..][1..] == lines[i + 1..];
        if lines[i] != "" {
          var mu := ParseLine(lines[i]);
          if mu.Failure? {
            return Error(mu.code);
          }
          if mu.value.kind == Put {
            data := data[mu.value.key := mu.value.value];
          } else {
            data := data - {mu.value.key};
          }
        }
        i := i + 1;
      }
      return Ok;
    }

    /** `lower_bound`, then as long as the key is below the end. */
    method Range(lo: Text, hi: Text) returns (r: seq<(Text, Text)>)
      ensures r == ScanRange(data, lo, hi)
    {
      hide Keys, Less;
      var ks := Keys(data.Keys);
      var start := 0;
      while lo != "" && start < |ks| && Less(ks[start], lo)
        invariant 0 <= start <= |ks|
        invariant forall j :: 0 <= j < start ==> lo != "" && Less(ks[j], lo)
      {
        start := start + 1;
      }
      var i := start;
      r := [];
      while i < |ks| && (hi == "" || Less(ks[i], hi))
        invariant start <= i <= |ks|
        invariant forall j :: start <= j < i ==> hi == "" || Less(ks[j], hi)
        invariant (forall k :: k in ks[start..i] ==> k in data) && r == Pairs(data, ks[start..i])
      {
        assert ks[start..i + 1] == ks[start..i] + [ks[i]] && ks[i] in ks;
        r := r + [(ks[i], data[ks[i]])];
        i := i + 1;
      }
      RangeIsSlice(data, ks, lo, hi, start, i);
    }

    /** `lower_bound`, then as long as the key has the prefix. */
    method Prefixed(prefix: Text) returns (r: seq<(Text, Text)>)
      ensures r == ScanPrefix(data, prefix)
    {
      hide Keys, Less, HasPrefix;
      var ks := Keys(data.Keys);
      var start := 0;
      while start < |ks| && Less(ks[start], prefix)
        invariant 0 <= start <= |ks|
        invariant forall j :: 0 <= j < start ==> Less(ks[j], prefix)
      {
        start := start + 1;
      }
      var i := start;
      r := [];
      while i < |ks| && HasPrefix(ks[i], prefix)
        invariant start <= i <= |ks|
        invariant forall j :: start <= j < i ==> HasPrefix(ks[j], prefix)
        invariant (forall k :: k in ks[start..i] ==> k in data) && r == Pairs(data, ks[start..i])
      {
        assert ks[start..i + 1] == ks[start..i] + [ks[i]] && ks[i] in ks;
        r := r + [(ks[i], data[ks[i]])];
        i := i + 1;
      }
      PrefixIsSlice(data, ks, prefix, start, i);
    }
  }

  lemma SliceAscending(ks: seq<Text>, a: nat, b: nat)
    requires Ascending(ks) && a <= b <= |ks|
    ensures Ascending(ks[a..b])
  {}

  lemma RangeIsSlice(m: Store, ks: seq<Text>, lo: Text, hi: Text, a: nat, b: nat)
    requires Ascending(ks) && (forall k :: k in ks <==> k in m) && a <= b <= |ks|
    requires forall j :: 0 <= j < a ==> lo != "" && Less(ks[j], lo)
    requires a < |ks| ==> lo == "" || AtMost(lo, ks[a])
    requires forall j :: a <= j < b ==> hi == "" || Less(ks[j], hi)
    requires b < |ks| ==> hi != "" && !Less(ks[b], hi)
    ensures ks[a..b] == Keys(RangeKeys(m, lo, hi))
  {
    SliceAscending(ks, a, b);
    forall j | 0 <= j < |ks| ensures InRange(ks[j], lo, hi) <==> a <= j < b {
      if j > a && lo != "" {
        LessAsymmetric(ks[a], ks[j]);
        AtMostTransitive(lo, ks[a], ks[j]);
      }
      if j > b {
        if Less(ks[j], hi) {
          LessTransitive(ks[b], ks[j], hi);
        }
      }
    }
    SliceMembers(m, ks, a, b, RangeKeys(m, lo, hi));
    AscendingUnique(ks[a..b], Keys(RangeKeys(m, lo, hi)));
  }

  lemma SliceMembers(m: Store, ks: seq<Text>, a: nat, b: nat, picked: set<Text>)
    requires (forall k :: k in ks <==> k in m) && a <= b <= |ks| && picked <= m.Keys
    requires forall j :: 0 <= j < |ks| ==> (ks[j] in picked <==> a <= j < b)
    ensures forall k :: k in ks[a..b] <==> k in picked
  {
    forall k ensures k in ks[a..b] <==> k in picked {
      if k in ks[a..b] {
        var j :| 0 <= j < |ks[a..b]| && ks[a..b][j] == k;
        assert ks[a + j] == k;
      }
      if k in picked {
        assert k in ks;
        var j :| 0 <= j < |ks| && ks[j] == k;
        assert ks[a..b][j - a] == k;
      }
    }
  }

  lemma PrefixIsSlice(m: Store, ks: seq<Text>, p: Text, a: nat, b: nat)
    requires Ascending(ks) && (forall k :: k in ks <==> k in m) && a <= b <= |ks|
    requires forall j :: 0 <= j < a ==> Less(ks[j], p)
    requires a < |ks| ==> AtMost(p, ks[a])
    requires forall j :: a <= j < b ==> HasPrefix(ks[j], p)
    requires b < |ks| ==> !HasPrefix(ks[b], p)
    ensures ks[a..b] == Keys(PrefixKeys(m, p))
  {
    SliceAscending(ks, a, b);
    forall j | 0 <= j < |ks| ensures HasPrefix(ks[j], p) <==> a <= j < b {
      if j < a && HasPrefix(ks[j], p) {
        PrefixAtMost(p, ks[j]);
      }
      if j > b && HasPrefix(ks[j], p) {
        if a < b {
          LessAsymmetric(ks[a], ks[b]);
          AtMostTransitive(p, ks[a], ks[b]);
        }
        PrefixContiguous(p, ks[b], ks[j]);
      }
    }
    SliceMembers(m, ks, a, b, PrefixKeys(m, p));
    AscendingUnique(ks[a..b], Keys(PrefixKeys(m, p)));
  }
}
