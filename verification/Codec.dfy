/** Text encodings: hexadecimal bytes, decimal numbers and whitespace-separated words. */
module Codec {
  import opened Basics
  import opened Order

  // ---- Hexadecimal ----

  function HexDigit(n: nat): Octet
    requires n < 16
  {
    if n < 10 then (n + '0' as int) as char else (n - 10 + 'a' as int) as char
  }

  /** -1 for a character that is not a hexadecimal digit. */
  function HexValue(c: Octet): int {
    if '0' <= c <= '9' then c as int - '0' as int
    else if 'a' <= c <= 'f' then c as int - 'a' as int + 10
    else if 'A' <= c <= 'F' then c as int - 'A' as int + 10
    else -1
  }

  function HexByte(c: Octet): (r: Text)
    ensures |r| == 2 && HexValue(r[0]) == c as int / 16 && HexValue(r[1]) == c as int % 16
    ensures forall i :: 0 <= i < |r| ==> !IsSpace(r[i]) && r[i] != '-' && r[i] != '='
  {
    [HexDigit(c as int / 16), HexDigit(c as int % 16)]
  }

  function HexEncode(s: Text): (r: Text)
    ensures |r| == 2 * |s|
    ensures forall i :: 0 <= i < |r| ==> !IsSpace(r[i]) && r[i] != '-' && r[i] != '='
  {
    if s == [] then [] else HexByte(s[0]) + HexEncode(s[1..])
  }

  function HexDecode(s: Text): Result<Text> {
    if |s| % 2 != 0 then Failure(InvalidArgument)
    else if s == [] then Success([])
    else if HexValue(s[0]) < 0 || HexValue(s[1]) < 0 then Failure(InvalidArgument)
    else
      match HexDecode(s[2..])
      case Failure(e) => Failure(e)
      case Success(rest) => Success([(HexValue(s[0]) * 16 + HexValue(s[1])) as char as Octet] + rest)
  }

  /** Decoding undoes encoding, for every string. */
  lemma {:induction false} HexRoundTrip(s: Text)
    ensures HexDecode(HexEncode(s)) == Success(s)
  {
    if s != [] {
      var h := HexEncode(s);
      assert h[2..] == HexEncode(s[1..]) && h[0] == HexByte(s[0])[0] && h[1] == HexByte(s[0])[1];
      HexRoundTrip(s[1..]);
      assert [s[0]] + s[1..] == s;
    }
  }

  // ---- Words ----

  predicate IsSpace(c: Octet) {
    c == ' ' || c == '\t' || c == '\n' || c == '\r' || c as int == 11 || c as int == 12
  }

  predicate NoSpace(s: Text) {
    forall i :: 0 <= i < |s| ==> !IsSpace(s[i])
  }

  function Flush(w: Text): seq<Text> {
    if w == [] then [] else [w]
  }

  /** The words still to be read when `w` has been read of the current one. */
  function Split(s: Text, w: Text): seq<Text> {
    if s == [] then Flush(w)
    else if IsSpace(s[0]) then Flush(w) + Split(s[1..], [])
    else Split(s[1..], w + [s[0]])
  }

  /** What successive `input >> word` read from a stream. */
  function Words(s: Text): seq<Text> {
    Split(s, [])
  }

  lemma {:induction false} SplitWord(s: Text, w: Text)
    requires NoSpace(s)
    ensures Split(s, w) == Flush(w + s)
    decreases |s|
  {
    if s == [] {
      assert w + s == w;
    } else {
      SplitWord(s[1..], w + [s[0]]);
      assert w + [s[0]] + s[1..] == w + s;
    }
  }

  lemma {:induction false} SplitAtSpace(a: Text, w: Text, c: Octet, b: Text)
    requires IsSpace(c)
    ensures Split(a + [c] + b, w) == Split(a, w) + Words(b)
    decreases |a|
  {
    var s := a + [c] + b;
    if a == [] {
      assert s[0] == c && s[1..] == b;
    } else {
      assert s[0] == a[0] && s[1..] == a[1..] + [c] + b;
      if IsSpace(a[0]) {
        SplitAtSpace(a[1..], [], c, b);
      } else {
        SplitAtSpace(a[1..], w + [a[0]], c, b);
      }
    }
  }

  /** A word followed by a space and the rest. */
  lemma WordsCons(w: Text, rest: Text)
    requires NoSpace(w)
    ensures Words(w + " " + rest) == Flush(w) + Words(rest)
  {
    SplitAtSpace(w, [], ' ', rest);
    SplitWord(w, []);
    assert [] + w == w;
  }

  lemma WordsOne(w: Text)
    requires NoSpace(w)
    ensures Words(w) == Flush(w)
  {
    SplitWord(w, []);
    assert [] + w == w;
  }

  // ---- Decimal ----

  predicate IsDigit(c: Octet) {
    '0' <= c <= '9'
  }

  predicate IsNumber(s: Text) {
    forall i :: 0 <= i < |s| ==> IsDigit(s[i])
  }

  function Digit(n: nat): Octet
    requires n < 10
  {
    (n + '0' as int) as char
  }

  /** `std::to_string` of an unsigned number. */
  function Dec(n: nat): (s: Text)
    ensures s != "" && IsNumber(s) && NoSpace(s) && Value(s) == n
  {
    if n < 10 then
      assert Value([Digit(n)][..0]) == 0;
      [Digit(n)]
    else
      var s := Dec(n / 10) + [Digit(n % 10)];
      assert s[..|s| - 1] == Dec(n / 10);
      s
  }

  /** The number a digit string denotes. */
  function Value(s: Text): nat
    requires IsNumber(s)
  {
    if s == [] then 0 else 10 * Value(s[..|s| - 1]) + (s[|s| - 1] as int - '0' as int)
  }

  /** `std::stoull` on a digit string. */
  function ParseDec(s: Text): (r: Result<nat>)
    ensures forall n: nat :: s == Dec(n) ==> r == Success(n)
  {
    if s == "" || !IsNumber(s) then Failure(InvalidArgument) else Success(Value(s))
  }

  /** Printed numbers are told apart. */
  lemma DecInjective(a: nat, b: nat)
    requires Dec(a) == Dec(b)
    ensures a == b
  {
    assert Value(Dec(a)) == a && Value(Dec(b)) == b;
  }

  function Zeros(n: nat): (s: Text)
    ensures |s| == n && IsNumber(s) && Value(s) == 0
  {
    if n == 0 then []
    else
      var s := Zeros(n - 1) + ['0'];
      assert s[..|s| - 1] == Zeros(n - 1);
      s
  }

  /** `std::setw(width) << std::setfill('0')`. */
  function Padded(n: nat, width: nat): (s: Text)
    ensures IsNumber(s) && Value(s) == n && |s| >= width
  {
    var d := Dec(n);
    if |d| >= width then d
    else
      ZerosInFront(width - |d|, d);
      Zeros(width - |d|) + d
  }

  lemma {:induction false} ZerosInFront(n: nat, s: Text)
    requires IsNumber(s)
    ensures IsNumber(Zeros(n) + s) && Value(Zeros(n) + s) == Value(s)
    decreases |s|
  {
    if s == [] {
      assert Zeros(n) + s == Zeros(n);
    } else {
      var t := Zeros(n) + s;
      ZerosInFront(n, s[..|s| - 1]);
      assert t[..|t| - 1] == Zeros(n) + s[..|s| - 1];
    }
  }

  function Pow10(k: nat): nat {
    if k == 0 then 1 else 10 * Pow10(k - 1)
  }

  lemma {:induction false} DecLength(n: nat, k: nat)
    requires n < Pow10(k)
    ensures |Dec(n)| <= if k == 0 then 1 else k
  {
    if n >= 10 {
      DecLength(n / 10, k - 1);
    }
  }

  /** Every 64-bit number fits the 20 columns of a log key. */
  lemma PaddedWidth(n: nat)
    requires n <= MAX_U64
    ensures |Padded(n, 20)| == 20
  {
    assert Pow10(4) == 1_0000;
    assert Pow10(8) == 1_0000_0000;
    assert Pow10(12) == 1_0000_0000_0000;
    assert Pow10(16) == 1_0000_0000_0000_0000;
    assert Pow10(20) == 1_0000_0000_0000_0000_0000;
    DecLength(n, 20);
  }

  lemma {:induction false} LessAtEnd(a: Text, b: Text, x: Octet, y: Octet)
    requires |a| == |b|
    ensures Less(a + [x], b + [y]) <==> Less(a, b) || (a == b && x < y)
    decreases |a|
  {
    var s, t := a + [x], b + [y];
    if a == [] {
      assert s == [x] && t == [y];
    } else {
      assert s[0] == a[0] && t[0] == b[0] && s[1..] == a[1..] + [x] && t[1..] == b[1..] + [y];
      if a[0] == b[0] {
        LessAtEnd(a[1..], b[1..], x, y);
        assert a == b <==> a[1..] == b[1..] by {
          assert a == [a[0]] + a[1..] && b == [b[0]] + b[1..];
        }
      }
    }
  }

  /** Digit strings of one length sort as the numbers they denote. */
  lemma {:induction false} NumbersSort(a: Text, b: Text)
    requires IsNumber(a) && IsNumber(b) && |a| == |b|
    ensures Less(a, b) <==> Value(a) < Value(b)
    ensures a == b <==> Value(a) == Value(b)
    decreases |a|
  {
    if a != [] {
      var p, q := a[..|a| - 1], b[..|b| - 1];
      var x, y := a[|a| - 1], b[|b| - 1];
      assert a == p + [x] && b == q + [y];
      NumbersSort(p, q);
      LessAtEnd(p, q, x, y);
    }
  }
}
