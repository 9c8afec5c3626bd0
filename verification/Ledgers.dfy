/** Lists that name the members of a set in ascending order, each once. */
module Ledgers {

  predicate Ascends(ids: seq<nat>) {
    forall i, j | 0 <= i < j < |ids| :: ids[i] < ids[j]
  }

  ghost predicate ListsExactly(ids: seq<nat>, all: set<nat>) {
    Ascends(ids) && forall id :: id in all <==> id in ids
  }

  lemma ListsOneMore(ids: seq<nat>, all: set<nat>, id: nat)
    requires ListsExactly(ids, all) && forall x | x in all :: x < id
    ensures ListsExactly(ids + [id], all + {id})
  {
    forall i | 0 <= i < |ids| ensures ids[i] < id {
      assert ids[i] in all;
    }
  }

  lemma {:induction false} ListCounts(ids: seq<nat>, all: set<nat>)
    requires ListsExactly(ids, all)
    ensures |all| == |ids|
    decreases |ids|
  {
    if ids == [] {
      assert all == {};
    } else {
      var n := |ids| - 1;
      assert ids == ids[..n] + [ids[n]];
      assert ids[n] in all && ids[n] !in ids[..n];
      forall id ensures id in all - {ids[n]} <==> id in ids[..n] {
        assert id in ids <==> id in ids[..n] || id == ids[n];
      }
      ListCounts(ids[..n], all - {ids[n]});
    }
  }
}
