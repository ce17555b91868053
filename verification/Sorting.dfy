/** A finite set of integers, listed in ascending order. */
module Sorting {

  ghost predicate Ascends(ks: seq<int>) {
    forall i, j :: 0 <= i < j < |ks| ==> ks[i] < ks[j]
  }

  lemma EmptyOrNot(some: set<int>)
    ensures some == {} || exists k :: k in some
  {
    if forall k :: k !in some {
      assert some == {};
    }
  }

  lemma SmallestExists(some: set<int>, member: int) returns (least: int)
    requires member in some
    ensures least in some && forall j :: j in some ==> least <= j
    decreases |some|
  {
    var rest := some - {member};
    least := member;
    if k :| k in rest {
      var m := SmallestExists(rest, k);
      least := if m < member then m else member;
    }
    assert forall j :: j in some ==> j == member || j in rest;
  }

  method Sorted(keys: set<int>) returns (ks: seq<int>)
    ensures Ascends(ks)
    ensures forall k :: k in ks <==> k in keys
  {
    ks := [];
    var todo := keys;
    while todo != {}
      invariant Ascends(ks)
      invariant forall i, j :: 0 <= i < |ks| && j in todo ==> ks[i] < j
      invariant forall k :: k in keys <==> k in ks || k in todo
      decreases |todo|
    {
      EmptyOrNot(todo);
      ghost var any :| any in todo;
      ghost var least := SmallestExists(todo, any);
      var k :| k in todo && forall j :: j in todo ==> k <= j;
      ks := ks + [k];
      todo := todo - {k};
    }
  }
}
