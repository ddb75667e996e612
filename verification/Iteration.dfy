/**
 Walking the shards that changed after a given index, least recently updated first.
 */
module Iteration {
  import opened Registry

  /** The shard that was updated first. */
  method Oldest(s: State, todo: set<nat>) returns (k: nat)
    requires todo != {} && todo <= s.shards.Keys
    ensures k in todo && forall j :: j in todo ==> s.shards[k].updated <= s.shards[j].updated
  {
    k :| k in todo;
    var rest := todo - {k};
    while rest != {}
      invariant k in todo && rest <= todo
      invariant forall j :: j in todo && j !in rest ==> s.shards[k].updated <= s.shards[j].updated
    {
      var j :| j in rest;
      if s.shards[j].updated < s.shards[k].updated {
        k := j;
      }
      rest := rest - {j};
    }
  }

  /** Every shard updated after the index, once, in the order of the updates. */
  method UpdatedAfter(s: State, index: nat) returns (order: seq<nat>)
    ensures forall k :: k in order <==> k in s.shards && s.shards[k].updated > index
    ensures forall i, j :: 0 <= i < j < |order| ==>
              order[i] != order[j] && s.shards[order[i]].updated <= s.shards[order[j]].updated
  {
    var todo := set k | k in s.shards && s.shards[k].updated > index;
    order := [];
    while todo != {}
      invariant forall k :: k in todo ==> k in s.shards && k !in order
      invariant forall k :: k in order || k in todo <==> k in s.shards && s.shards[k].updated > index
      invariant forall i, j :: 0 <= i < j < |order| ==>
                  order[i] != order[j] && s.shards[order[i]].updated <= s.shards[order[j]].updated
      invariant forall i, k :: 0 <= i < |order| && k in todo ==> s.shards[order[i]].updated <= s.shards[k].updated
    {
      var k := Oldest(s, todo);
      order, todo := order + [k], todo - {k};
    }
  }

  lemma SubsetSize<T>(a: set<T>, b: set<T>)
    requires a <= b
    ensures |a| <= |b|
  {
    assert b == a + (b - a);
  }
}
