/** Iteration over maps whose keys are numbers. */
module IdOrder {
  ghost predicate Rising(ids: seq<nat>) {
    forall i, j :: 0 <= i < j < |ids| ==> ids[i] < ids[j]
  }

  predicate IsLeast(x: nat, ids: set<nat>) {
    x in ids && forall y :: y in ids ==> x <= y
  }

  lemma {:induction false} LeastExists(ids: set<nat>)
    requires ids != {}
    ensures exists x :: IsLeast(x, ids)
  {
    var x :| x in ids;
    var rest := ids - {x};
    if rest == {} {
      forall y | y in ids ensures y == x {
        assert y !in rest;
      }
      assert IsLeast(x, ids);
    } else {
      LeastExists(rest);
      var y :| IsLeast(y, rest);
      var least := if x < y then x else y;
      forall z | z in ids ensures least <= z {
        assert z == x || z in rest;
      }
      assert IsLeast(least, ids);
    }
  }

  /** The keys of a `std::map<uint64_t, T>` in iteration order. */
  function SortedIds(ids: set<nat>): (r: seq<nat>)
    ensures Rising(r) && (forall x :: x in r <==> x in ids) && |r| == |ids|
  {
    if ids == {} then []
    else
      LeastExists(ids);
      var x :| IsLeast(x, ids);
      [x] + SortedIds(ids - {x})
  }

  function IdsOf<T>(m: map<nat, T>): (ids: seq<nat>)
    ensures |ids| == |m| && (forall i :: 0 <= i < |ids| ==> ids[i] in m) && (forall x :: x in m ==> x in ids)
  {
    hide SortedIds;
    var ids := SortedIds(m.Keys);
    assert forall i :: 0 <= i < |ids| ==> ids[i] in ids;
    ids
  }

  /** The values of such a map in iteration order. */
  function ValuesOf<T>(m: map<nat, T>): (r: seq<T>)
    ensures |r| == |m| && forall i :: 0 <= i < |r| ==> r[i] == m[IdsOf(m)[i]]
  {
    hide IdsOf;
    var ids := IdsOf(m);
    seq(|ids|, i requires 0 <= i < |ids| => m[ids[i]])
  }
}
