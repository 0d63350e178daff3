/** The field codec of the RPC layer: one line of hexadecimal `key=value` per field. */
module FieldCodec {
  import opened Basics
  import opened Order
  import opened Codec
  import opened KvEngine

  // ---- Lines ----

  /** The length of the first line. */
  function LineEnd(s: Text): (n: nat)
    ensures n <= |s| && (n < |s| ==> s[n] == '\n') && forall i :: 0 <= i < n ==> s[i] != '\n'
  {
    if s == [] || s[0] == '\n' then 0 else 1 + LineEnd(s[1..])
  }

  /** What successive `std::getline` calls read. */
  function ReadLines(s: Text): seq<Text>
    decreases |s|
  {
    if s == [] then []
    else
      var n := LineEnd(s);
      [s[..n]] + (if n == |s| then [] else ReadLines(s[n + 1..]))
  }

  lemma LineFirst(line: Text, rest: Text)
    requires forall i :: 0 <= i < |line| ==> line[i] != '\n'
    ensures ReadLines(line + "\n" + rest) == [line] + ReadLines(rest)
  {
    var s := line + "\n" + rest;
    assert s[|line|] == '\n';
    assert LineEnd(s) == |line| by {
      var n := LineEnd(s);
      assert forall i :: 0 <= i < |line| ==> s[i] == line[i];
    }
    assert s[..|line|] == line && s[|line| + 1..] == rest;
  }

  // ---- Fields ----

  function FieldLine(k: Text, v: Text): Text {
    HexEncode(k) + "=" + HexEncode(v)
  }

  function EncodeKeys(m: Store, ks: seq<Text>): Text
    requires forall k :: k in ks ==> k in m
  {
    if ks == [] then "" else FieldLine(ks[0], m[ks[0]]) + "\n" + EncodeKeys(m, ks[1..])
  }

  /** Fields are written in key order. */
  function EncodeFields(m: Store): Text {
    EncodeKeys(m, Keys(m.Keys))
  }

  /** The position of the first '='; the length when there is none. */
  function FindEqual(s: Text): (n: nat)
    ensures n <= |s| && (n < |s| ==> s[n] == '=') && forall i :: 0 <= i < n ==> s[i] != '='
  {
    if s == [] || s[0] == '=' then 0 else 1 + FindEqual(s[1..])
  }

  function DecodeLine(line: Text): Result<(Text, Text)> {
    var n := FindEqual(line);
    if n == |line| then Failure(InvalidArgument)
    else
      match (HexDecode(line[..n]), HexDecode(line[n + 1..]))
      case (Success(k), Success(v)) => Success((k, v))
      case _ => Failure(InvalidArgument)
  }

  function DecodeLines(m: Store, lines: seq<Text>): Result<Store>
    decreases |lines|
  {
    if lines == [] then Success(m)
    else if lines[0] == "" then DecodeLines(m, lines[1..])
    else
      match DecodeLine(lines[0])
      case Failure(e) => Failure(e)
      case Success(kv) => DecodeLines(m[kv.0 := kv.1], lines[1..])
  }

  function DecodeFields(s: Text): Result<Store> {
    DecodeLines(map[], ReadLines(s))
  }

  // ---- Round trip ----

  lemma FieldLineDecodes(k: Text, v: Text)
    ensures DecodeLine(FieldLine(k, v)) == Success((k, v)) && FieldLine(k, v) != ""
    ensures forall i :: 0 <= i < |FieldLine(k, v)| ==> FieldLine(k, v)[i] != '\n'
  {
    hide HexDecode;
    var line, h := FieldLine(k, v), HexEncode(k);
    assert line[|h|] == '=';
    assert forall i :: 0 <= i < |h| ==> line[i] == h[i];
    assert FindEqual(line) == |h|;
    assert line[..|h|] == h && line[|h| + 1..] == HexEncode(v);
    HexRoundTrip(k);
    HexRoundTrip(v);
    forall i | 0 <= i < |line| ensures line[i] != '\n' {
      assert i > |h| ==> line[i] == HexEncode(v)[i - |h| - 1];
    }
  }

  ghost function Only(m: Store, ks: seq<Text>): Store {
    map k | k in m && k in ks :: m[k]
  }

  lemma OnlyCons(acc: Store, m: Store, ks: seq<Text>)
    requires ks != [] && ks[0] in m
    ensures acc[ks[0] := m[ks[0]]] + Only(m, ks[1..]) == acc + Only(m, ks)
  {
    assert forall k :: k in ks <==> k == ks[0] || k in ks[1..];
  }

  lemma DecodeStep(acc: Store, k: Text, v: Text, rest: Text)
    ensures DecodeLines(acc, ReadLines(FieldLine(k, v) + "\n" + rest)) == DecodeLines(acc[k := v], ReadLines(rest))
  {
    hide FieldLine, DecodeLine, ReadLines;
    FieldLineDecodes(k, v);
    LineFirst(FieldLine(k, v), rest);
    assert ([FieldLine(k, v)] + ReadLines(rest))[1..] == ReadLines(rest);
  }

  lemma {:induction false} DecodeKeys(acc: Store, m: Store, ks: seq<Text>)
    requires forall k :: k in ks ==> k in m
    ensures DecodeLines(acc, ReadLines(EncodeKeys(m, ks))) == Success(acc + Only(m, ks))
    decreases |ks|
  {
    hide FieldLine, DecodeLine;
    if ks == [] {
      assert acc + Only(m, ks) == acc;
    } else {
      hide ReadLines, DecodeLines, Only;
      DecodeStep(acc, ks[0], m[ks[0]], EncodeKeys(m, ks[1..]));
      DecodeKeys(acc[ks[0] := m[ks[0]]], m, ks[1..]);
      OnlyCons(acc, m, ks);
    }
  }

  /** Decoding undoes encoding for every map: any keys, any values, none of them excluded. */
  lemma FieldsRoundTrip(m: Store)
    ensures DecodeFields(EncodeFields(m)) == Success(m)
  {
    hide DecodeLines, EncodeKeys, ReadLines;
    DecodeKeys(map[], m, Keys(m.Keys));
    assert map[] + Only(m, Keys(m.Keys)) == m;
  }

  // ---- Loops ----

  lemma EncodeNext(m: Store, ks: seq<Text>, i: nat, s: Text)
    requires (forall k :: k in ks ==> k in m) && i < |ks|
    ensures s + EncodeKeys(m, ks[i..]) == s + (FieldLine(ks[i], m[ks[i]]) + "\n") + EncodeKeys(m, ks[i + 1..])
  {
    hide FieldLine;
    assert ks[i..][0] == ks[i] && ks[i..][1..] == ks[i + 1..];
    Associate(s, FieldLine(ks[i], m[ks[i]]) + "\n", EncodeKeys(m, ks[i + 1..]));
  }

  method PrintFields(m: Store) returns (s: Text)
    ensures s == EncodeFields(m)
  {
    hide FieldLine, EncodeKeys;
    var ks := Keys(m.Keys);
    s := "";
    var i := 0;
    assert ks[0..] == ks;
    while i < |ks|
      invariant 0 <= i <= |ks|
      invariant s + EncodeKeys(m, ks[i..]) == EncodeKeys(m, ks)
    {
      EncodeNext(m, ks, i, s);
      s := s + (FieldLine(ks[i], m[ks[i]]) + "\n");
      i := i + 1;
    }
    assert ks[i..] == [];
    NoKeys(m);
  }

  lemma NoKeys(m: Store)
    ensures EncodeKeys(m, []) == ""
  {}

  method ParseFields(s: Text) returns (r: Result<Store>)
    ensures r == DecodeFields(s)
  {
    hide DecodeLine;
    var m: Store := map[];
    var rest := s;
    while rest != []
      invariant DecodeLines(m, ReadLines(rest)) == DecodeFields(s)
      decreases |rest|
    {
      var n := LineEnd(rest);
      var line := rest[..n];
      rest := if n == |rest| then [] else rest[n + 1..];
      if line != "" {
        var kv := DecodeLine(line);
        if kv.Failure? {
          return Failure(kv.code);
        }
        m := m[kv.value.0 := kv.value.1];
      }
    }
    return Success(m);
  }
}
