/** Copying user data between engines: the put and delete batches built from a scan. */
module Migration {
  import opened Basics
  import opened Order
  import opened KvEngine
  import opened RaftStorage
  import opened SingleRegion

  /** The user entries of [lo, hi) as `ScanRange` and the key filter give them. */
  function Moved(m: Store, lo: Text, hi: Text): seq<(Text, Text)> {
    Movable(ScanRange(m, lo, hi))
  }

  predicate Moves(m: Store, lo: Text, hi: Text, k: Text) {
    k in m && InRange(k, lo, hi) && !IsSystemKey(k)
  }

  lemma {:induction false} MovableMembers(ps: seq<(Text, Text)>, x: (Text, Text))
    ensures x in Movable(ps) <==> x in ps && !IsSystemKey(x.0)
    decreases |ps|
  {
    hide IsSystemKey;
    if ps != [] {
      MovableMembers(ps[1..], x);
      assert x in ps <==> x == ps[0] || x in ps[1..];
    }
  }

  lemma ScanMembers(m: Store, lo: Text, hi: Text, x: (Text, Text))
    ensures x in ScanRange(m, lo, hi) <==> x.0 in m && InRange(x.0, lo, hi) && x.1 == m[x.0]
  {
    hide InRange;
    var ks := Keys(RangeKeys(m, lo, hi));
    if x.0 in m && InRange(x.0, lo, hi) && x.1 == m[x.0] {
      assert x.0 in ks;
      var i :| 0 <= i < |ks| && ks[i] == x.0;
      assert ScanRange(m, lo, hi)[i] == x;
    }
    if x in ScanRange(m, lo, hi) {
      var i :| 0 <= i < |ks| && ScanRange(m, lo, hi)[i] == x;
      assert ks[i] in ks;
    }
  }

  /** The moved entries are exactly the user entries of the range. */
  lemma MovedMembers(m: Store, lo: Text, hi: Text, x: (Text, Text))
    ensures x in Moved(m, lo, hi) <==> Moves(m, lo, hi, x.0) && x.1 == m[x.0]
  {
    hide InRange, IsSystemKey;
    MovableMembers(ScanRange(m, lo, hi), x);
    ScanMembers(m, lo, hi, x);
  }

  ghost predicate Listed(ps: seq<(Text, Text)>, k: Text) {
    exists i :: 0 <= i < |ps| && ps[i].0 == k
  }

  lemma ListedCons(ps: seq<(Text, Text)>, k: Text)
    requires ps != []
    ensures Listed(ps, k) <==> ps[0].0 == k || Listed(ps[1..], k)
  {
    if Listed(ps, k) {
      var i :| 0 <= i < |ps| && ps[i].0 == k;
      assert i == 0 || ps[1..][i - 1].0 == k;
    }
    if Listed(ps[1..], k) {
      var i :| 0 <= i < |ps[1..]| && ps[1..][i].0 == k;
      assert ps[i + 1].0 == k;
    }
  }

  lemma {:induction false} PutsAt(n: Store, m: Store, ps: seq<(Text, Text)>, k: Text)
    requires forall i :: 0 <= i < |ps| ==> ps[i].0 in m && ps[i].1 == m[ps[i].0]
    ensures var r := MutateAll(n, Puts(ps)); if Listed(ps, k) then SameAt(r, m, k) else SameAt(r, n, k)
    decreases |ps|
  {
    if ps != [] {
      ListedCons(ps, k);
      assert Puts(ps)[1..] == Puts(ps[1..]);
      PutsAt(Mutate(n, Puts(ps)[0]), m, ps[1..], k);
    }
  }

  lemma {:induction false} DeletesAt(n: Store, ps: seq<(Text, Text)>, k: Text)
    ensures var r := MutateAll(n, Deletes(ps)); if Listed(ps, k) then k !in r else SameAt(r, n, k)
    decreases |ps|
  {
    if ps != [] {
      ListedCons(ps, k);
      assert Deletes(ps)[1..] == Deletes(ps[1..]);
      DeletesAt(Mutate(n, Deletes(ps)[0]), ps[1..], k);
    }
  }

  lemma ListedMoves(m: Store, lo: Text, hi: Text, k: Text)
    ensures Listed(Moved(m, lo, hi), k) <==> Moves(m, lo, hi, k)
  {
    hide Moves, Moved;
    var ps := Moved(m, lo, hi);
    if Listed(ps, k) {
      var i :| 0 <= i < |ps| && ps[i].0 == k;
      assert ps[i] in ps;
      MovedMembers(m, lo, hi, ps[i]);
    }
    if Moves(m, lo, hi, k) {
      MoveIn(m, lo, hi, k);
      MovedMembers(m, lo, hi, (k, m[k]));
    }
  }

  lemma MoveIn(m: Store, lo: Text, hi: Text, k: Text)
    requires Moves(m, lo, hi, k)
    ensures k in m
  {}

  lemma MovedValues(m: Store, lo: Text, hi: Text)
    ensures var ps := Moved(m, lo, hi); forall i :: 0 <= i < |ps| ==> ps[i].0 in m && ps[i].1 == m[ps[i].0] && Moves(m, lo, hi, ps[i].0)
  {
    hide Moved, InRange, IsSystemKey;
    var ps := Moved(m, lo, hi);
    forall i | 0 <= i < |ps| ensures ps[i].0 in m && ps[i].1 == m[ps[i].0] && Moves(m, lo, hi, ps[i].0) {
      assert ps[i] in ps;
      MovedMembers(m, lo, hi, ps[i]);
    }
  }

  /** Putting the moved entries copies the user entries of the range and touches nothing else. */
  lemma ImportAt(n: Store, m: Store, lo: Text, hi: Text, k: Text)
    ensures var r := MutateAll(n, Puts(Moved(m, lo, hi))); if Moves(m, lo, hi, k) then SameAt(r, m, k) else SameAt(r, n, k)
  {
    hide Moved, Moves, MutateAll;
    MovedValues(m, lo, hi);
    PutsAt(n, m, Moved(m, lo, hi), k);
    ListedMoves(m, lo, hi, k);
  }

  /** Deleting them removes those keys and touches nothing else. */
  lemma ExportAt(n: Store, m: Store, lo: Text, hi: Text, k: Text)
    ensures var r := MutateAll(n, Deletes(Moved(m, lo, hi))); if Moves(m, lo, hi, k) then k !in r else SameAt(r, n, k)
  {
    hide Moved, Moves, MutateAll;
    DeletesAt(n, Moved(m, lo, hi), k);
    ListedMoves(m, lo, hi, k);
  }

  lemma {:induction false} PutsKeys(ps: seq<(Text, Text)>)
    ensures |Puts(ps)| == |ps| && forall i :: 0 <= i < |ps| ==> Puts(ps)[i] == Mutation(KvEngine.Put, ps[i].0, ps[i].1)
    decreases |ps|
  {
    if ps != [] {
      PutsKeys(ps[1..]);
    }
  }

  lemma {:induction false} DeletesKeys(ps: seq<(Text, Text)>)
    ensures |Deletes(ps)| == |ps| && forall i :: 0 <= i < |ps| ==> Deletes(ps)[i] == Mutation(KvEngine.Delete, ps[i].0, "")
    decreases |ps|
  {
    if ps != [] {
      DeletesKeys(ps[1..]);
    }
  }
}
