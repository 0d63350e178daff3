/** Byte order on strings and ordered traversal of maps, as `std::string` and `std::map` define them. */
module Order {
  import opened Basics

  /** `operator<` on `std::string`. */
  predicate Less(a: Text, b: Text) {
    if b == [] then false
    else if a == [] then true
    else if a[0] != b[0] then a[0] < b[0]
    else Less(a[1..], b[1..])
  }

  predicate AtMost(a: Text, b: Text) {
    !Less(b, a)
  }

  lemma {:induction false} LessIrreflexive(a: Text)
    ensures !Less(a, a)
  {
    if a != [] {
      LessIrreflexive(a[1..]);
    }
  }

  lemma {:induction false} LessTransitive(a: Text, b: Text, c: Text)
    requires Less(a, b) && Less(b, c)
    ensures Less(a, c)
  {
    if a != [] && a[0] == b[0] && b[0] == c[0] {
      LessTransitive(a[1..], b[1..], c[1..]);
    }
  }

  lemma {:induction false} LessTotal(a: Text, b: Text)
    ensures Less(a, b) || a == b || Less(b, a)
  {
    if a != [] && b != [] && a[0] == b[0] {
      LessTotal(a[1..], b[1..]);
      assert a[1..] == b[1..] ==> a == [a[0]] + a[1..] == b;
    }
  }

  lemma LessAsymmetric(a: Text, b: Text)
    requires Less(a, b)
    ensures !Less(b, a)
  {
    if Less(b, a) {
      LessTransitive(a, b, a);
      LessIrreflexive(a);
    }
  }

  lemma AtMostLess(a: Text, b: Text, c: Text)
    requires AtMost(a, b) && Less(b, c)
    ensures Less(a, c)
  {
    LessTotal(a, b);
    if Less(a, b) {
      LessTransitive(a, b, c);
    }
  }

  lemma LessAtMost(a: Text, b: Text, c: Text)
    requires Less(a, b) && AtMost(b, c)
    ensures Less(a, c)
  {
    LessTotal(b, c);
    if Less(b, c) {
      LessTransitive(a, b, c);
    }
  }

  lemma AtMostTransitive(a: Text, b: Text, c: Text)
    requires AtMost(a, b) && AtMost(b, c)
    ensures AtMost(a, c)
  {
    if Less(c, a) {
      LessAtMost(c, a, b);
    }
  }

  lemma EmptyFirst(a: Text)
    ensures AtMost("", a) && (a != "" ==> Less("", a))
  {}

  // ---- Ordered traversal ----

  ghost predicate Ascending(ks: seq<Text>) {
    forall i, j :: 0 <= i < j < |ks| ==> Less(ks[i], ks[j])
  }

  predicate IsFirst(k: Text, ks: set<Text>) {
    k in ks && forall x :: x in ks && x != k ==> Less(k, x)
  }

  lemma {:induction false} FirstExists(ks: set<Text>)
    requires ks != {}
    ensures exists k :: IsFirst(k, ks)
  {
    var x :| x in ks;
    var rest := ks - {x};
    if rest == {} {
      forall z | z in ks ensures z == x {
        assert z !in rest;
      }
      assert IsFirst(x, ks);
    } else {
      FirstExists(rest);
      var y :| IsFirst(y, rest);
      LessTotal(x, y);
      if Less(y, x) {
        assert IsFirst(y, ks);
      } else {
        forall z | z in ks && z != x ensures Less(x, z) {
          if z != y {
            LessTransitive(x, y, z);
          }
        }
        assert IsFirst(x, ks);
      }
    }
  }

  lemma FirstUnique(ks: set<Text>)
    ensures forall a, b :: IsFirst(a, ks) && IsFirst(b, ks) ==> a == b
  {
    forall a, b | IsFirst(a, ks) && IsFirst(b, ks) ensures a == b {
      if a != b {
        LessAsymmetric(a, b);
      }
    }
  }

  /** The keys of a `std::map` in iteration order. */
  function Keys(ks: set<Text>): (r: seq<Text>)
    ensures Ascending(r) && (forall k :: k in r <==> k in ks)
  {
    if ks == {} then []
    else
      FirstExists(ks);
      FirstUnique(ks);
      var k :| IsFirst(k, ks);
      [k] + Keys(ks - {k})
  }

  /** Iteration order is determined by the keys. */
  lemma {:induction false} AscendingUnique(a: seq<Text>, b: seq<Text>)
    requires Ascending(a) && Ascending(b)
    requires forall k :: k in a <==> k in b
    ensures a == b
    decreases |a|
  {
    assert a != [] ==> a[0] in a;
    assert b != [] ==> b[0] in b;
    if a != [] {
      if a[0] != b[0] {
        var i :| 0 <= i < |b| && b[i] == a[0];
        var j :| 0 <= j < |a| && a[j] == b[0];
        LessAsymmetric(b[0], a[0]);
        assert false;
      }
      forall k ensures k in a[1..] <==> k in b[1..] {
        TailMember(a, k);
        TailMember(b, k);
      }
      AscendingUnique(a[1..], b[1..]);
      assert a == [a[0]] + a[1..] && b == [b[0]] + b[1..];
    }
  }

  lemma TailMember(a: seq<Text>, k: Text)
    requires Ascending(a) && a != []
    ensures k in a[1..] <==> k in a && k != a[0]
  {
    if k in a[1..] {
      var i :| 0 <= i < |a| - 1 && a[1..][i] == k;
      assert Less(a[0], a[i + 1]);
      LessIrreflexive(a[0]);
    }
  }
}
