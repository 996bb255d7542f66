/** Sums over a table of optional members, each member carrying a weight. */
module Tally {
  import opened Wrappers

  function Weight<K(==)>(o: Option<K>, wt: map<K, int>): int {
    if o.Some? && o.value in wt then wt[o.value] else 0
  }

  function Sum<K(==)>(table: seq<Option<K>>, wt: map<K, int>): int {
    if table == [] then 0 else Weight(table[0], wt) + Sum(table[1..], wt)
  }

  /** No member sits in two places. */
  ghost predicate Once<K>(table: seq<Option<K>>) {
    forall i, j | 0 <= i < j < |table| && table[i].Some? :: table[i] != table[j]
  }

  lemma {:induction false} SumOfUpdate<K>(table: seq<Option<K>>, i: nat, o: Option<K>, wt: map<K, int>)
    requires i < |table|
    ensures Sum(table[i := o], wt) == Sum(table, wt) - Weight(table[i], wt) + Weight(o, wt)
  {
    if i == 0 {
      assert table[0 := o][1..] == table[1..];
    } else {
      assert table[i := o][1..] == table[1..][i - 1 := o];
      SumOfUpdate(table[1..], i - 1, o, wt);
    }
  }

  lemma {:induction false} SumAgrees<K>(table: seq<Option<K>>, a: map<K, int>, b: map<K, int>)
    requires forall o <- table :: Weight(o, a) == Weight(o, b)
    ensures Sum(table, a) == Sum(table, b)
  {
    if table != [] {
      SumAgrees(table[1..], a, b);
    }
  }

  /** Changing the weight of one member that sits in the table once changes the sum by the difference. */
  lemma {:induction false} SumOfReweight<K>(table: seq<Option<K>>, a: map<K, int>, b: map<K, int>, k: K)
    requires Once(table) && Some(k) in table
    requires forall o <- table :: o != Some(k) ==> Weight(o, a) == Weight(o, b)
    ensures Sum(table, b) == Sum(table, a) - Weight(Some(k), a) + Weight(Some(k), b)
  {
    if table[0] == Some(k) {
      assert forall o <- table[1..] :: o != Some(k);
      SumAgrees(table[1..], a, b);
    } else {
      SumOfReweight(table[1..], a, b, k);
    }
  }

  /** Sums add up member by member. */
  lemma {:induction false} SumAdds<K>(table: seq<Option<K>>, a: map<K, int>, b: map<K, int>, c: map<K, int>)
    requires forall o <- table :: Weight(o, c) == Weight(o, a) + Weight(o, b)
    ensures Sum(table, c) == Sum(table, a) + Sum(table, b)
  {
    if table != [] {
      SumAdds(table[1..], a, b, c);
    }
  }

  /** If every place weighs one, the sum is the size of the table. */
  lemma {:induction false} SumOfOnes<K>(table: seq<Option<K>>, wt: map<K, int>)
    requires forall o <- table :: Weight(o, wt) == 1
    ensures Sum(table, wt) == |table|
  {
    if table != [] {
      SumOfOnes(table[1..], wt);
    }
  }

  lemma {:induction false} SumNonNegative<K>(table: seq<Option<K>>, wt: map<K, int>)
    requires forall k <- wt :: wt[k] >= 0
    ensures Sum(table, wt) >= 0
  {
    if table != [] {
      SumNonNegative(table[1..], wt);
    }
  }

  /** A member's own weight is part of a sum of non-negative weights. */
  lemma {:induction false} SumCovers<K>(table: seq<Option<K>>, wt: map<K, int>, k: K)
    requires forall q <- wt :: wt[q] >= 0
    requires Some(k) in table
    ensures Sum(table, wt) >= Weight(Some(k), wt)
  {
    SumNonNegative(table[1..], wt);
    if table[0] != Some(k) {
      SumCovers(table[1..], wt, k);
    }
  }
}
