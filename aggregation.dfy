/**
 Adding up a reply's score matrix: one subtotal per item (the sum of that
 item's axis scores) and the grand total over the fifteen items.
 */
module Aggregation {
  import opened Rubric

  /** The score an item gives one axis, or nothing when that axis is absent. */
  function AxisScore(s: ItemScores, a: Axis): int {
    if a in s then s[a] else 0
  }

  /** sum(s.values()) of one item's score object, taken in axis order A, B, C, D. */
  function AxisSum(s: ItemScores): (r: int)
    ensures WellFormedItem(s) ==> 0 <= r <= 4 * MaxLevel
  {
    AxisScore(s, A) + AxisScore(s, B) + AxisScore(s, C) + AxisScore(s, D)
  }

  /** The sum of the values of m under the keys ks, independent of any key order. */
  ghost function SumOver(m: map<Axis, int>, ks: set<Axis>): int
    requires ks <= m.Keys
  {
    if ks == {} then 0
    else
      var k :| k in ks;
      m[k] + SumOver(m, ks - {k})
  }

  /** The sum of all values of a map. */
  ghost function MapSum(m: map<Axis, int>): int {
    SumOver(m, m.Keys)
  }

  /** Any key may be taken out first: SumOver does not depend on the choice it makes. */
  lemma {:induction false} SumOverRemove(m: map<Axis, int>, ks: set<Axis>, a: Axis)
    requires ks <= m.Keys && a in ks
    ensures SumOver(m, ks) == m[a] + SumOver(m, ks - {a})
  {
    var k :| k in ks && SumOver(m, ks) == m[k] + SumOver(m, ks - {k});
    if k != a {
      SumOverRemove(m, ks - {k}, a);
      SumOverRemove(m, ks - {a}, k);
      assert ks - {k} - {a} == ks - {a} - {k};
    }
  }

  /** Summing the axes in the fixed order A, B, C, D is the sum of all the item's values. */
  lemma AxisSumIsSumOfValues(s: ItemScores)
    ensures AxisSum(s) == MapSum(s)
  {
    var k0 := s.Keys;
    var k1 := k0 - {A};
    var k2 := k1 - {B};
    var k3 := k2 - {C};
    var k4 := k3 - {D};
    if A in k0 { SumOverRemove(s, k0, A); } else { assert k1 == k0; }
    if B in k1 { SumOverRemove(s, k1, B); } else { assert k2 == k1; }
    if C in k2 { SumOverRemove(s, k2, C); } else { assert k3 == k2; }
    if D in k3 { SumOverRemove(s, k3, D); } else { assert k4 == k3; }
    assert forall x :: x in k4 ==> !x.A? && !x.B? && !x.C? && !x.D?;
    assert k4 == {};
  }

  /** Sum of the item totals t[1] + ... + t[n]. */
  function SumTotals(t: map<int, int>, n: nat): int
    requires forall i | 1 <= i <= n :: i in t
  {
    if n == 0 then 0 else SumTotals(t, n - 1) + t[n]
  }

  /** The sum of t[1..n] only depends on the entries 1..n. */
  lemma {:induction false} SumTotalsFrame(t1: map<int, int>, t2: map<int, int>, n: nat)
    requires forall i | 1 <= i <= n :: i in t1 && i in t2 && t1[i] == t2[i]
    ensures SumTotals(t1, n) == SumTotals(t2, n)
  {
    if n > 0 {
      SumTotalsFrame(t1, t2, n - 1);
    }
  }

  /** Item totals each within 0..20 add up to at most 20 per item. */
  lemma {:induction false} SumTotalsBounded(t: map<int, int>, n: nat)
    requires forall i | 1 <= i <= n :: i in t && 0 <= t[i] <= 4 * MaxLevel
    ensures 0 <= SumTotals(t, n) <= 4 * MaxLevel * n
  {
    if n > 0 {
      SumTotalsBounded(t, n - 1);
    }
  }

  /** Fifteen equal item totals c add up to n * c. */
  lemma {:induction false} SumTotalsConstant(t: map<int, int>, n: nat, c: int)
    requires forall i | 1 <= i <= n :: i in t && t[i] == c
    ensures SumTotals(t, n) == n * c
  {
    if n > 0 {
      SumTotalsConstant(t, n - 1, c);
    }
  }

  /** item_totals: each item's subtotal, keyed by item id. */
  function ItemTotals(m: ScoreMatrix): map<int, int>
    requires HasAllItems(m)
  {
    map i | 1 <= i <= ItemCount :: AxisSum(m[i])
  }

  /** The grand total: the sum of the fifteen item totals. */
  function GrandTotal(m: ScoreMatrix): int
    requires HasAllItems(m)
  {
    SumTotals(ItemTotals(m), ItemCount)
  }

  /** The first item, in item order, that a score matrix lacks. */
  function FirstMissing(m: ScoreMatrix): (i: int)
    requires !HasAllItems(m)
    ensures IsItem(i) && i !in m
    ensures forall j | 1 <= j < i :: j in m
  {
    FirstMissingFrom(m, 1)
  }

  function FirstMissingFrom(m: ScoreMatrix, i: int): (r: int)
    requires 1 <= i <= ItemCount
    requires forall j | 1 <= j < i :: j in m
    requires exists j | i <= j <= ItemCount :: j !in m
    ensures i <= r <= ItemCount && r !in m
    ensures forall j | 1 <= j < r :: j in m
    decreases ItemCount - i
  {
    if i !in m then i else FirstMissingFrom(m, i + 1)
  }

  /** Only one item can be missing while all items before it are present. */
  lemma FirstMissingIsLeast(m: ScoreMatrix, i: int)
    requires !HasAllItems(m)
    requires IsItem(i) && i !in m && forall j | 1 <= j < i :: j in m
    ensures FirstMissing(m) == i
  {
  }

  /** What the aggregation loop leaves behind: totals, or the first item whose key lookup fails. */
  datatype Aggregation = Totals(itemTotals: map<int, int>, total: int) | MissingItem(item: int)

  /**
   The loop over items 1..15: look up the item (the lookup fails on a missing
   item and ends the run), sum its axis scores, store the subtotal under the
   item and add it to the total.
   */
  method Aggregate(scores: ScoreMatrix) returns (r: Aggregation)
    ensures r.MissingItem? <==> !HasAllItems(scores)
    ensures r.MissingItem? ==>
      IsItem(r.item) && r.item !in scores && forall j | 1 <= j < r.item :: j in scores
    ensures r.MissingItem? ==> r.item == FirstMissing(scores)
    ensures r.Totals? ==>
      && (forall i :: i in r.itemTotals <==> IsItem(i))
      && (forall i | i in r.itemTotals :: r.itemTotals[i] == AxisSum(scores[i]))
      && r.total == SumTotals(r.itemTotals, ItemCount)
    ensures r.Totals? ==> r == Totals(ItemTotals(scores), GrandTotal(scores))
  {
    var total := 0;
    var itemTotals: map<int, int> := map[];
    for i := 1 to ItemCount + 1
      invariant forall j | 1 <= j < i :: j in scores
      invariant forall j :: j in itemTotals <==> 1 <= j < i
      invariant forall j | j in itemTotals :: itemTotals[j] == AxisSum(scores[j])
      invariant total == SumTotals(itemTotals, i - 1)
    {
      if i !in scores {
        FirstMissingIsLeast(scores, i);
        return MissingItem(i);
      }
      var subtotal := AxisSum(scores[i]);
      var before := itemTotals;
      itemTotals := itemTotals[i := subtotal];
      SumTotalsFrame(before, itemTotals, i - 1);
      total := total + subtotal;
    }
    assert itemTotals == ItemTotals(scores);
    r := Totals(itemTotals, total);
  }

  /** For a well-formed reply every item total lies in 0..20 and the grand total in 0..300. */
  lemma AggregateBounds(m: ScoreMatrix)
    requires WellFormed(m)
    ensures forall i | i in ItemTotals(m) :: 0 <= ItemTotals(m)[i] <= 4 * MaxLevel
    ensures 0 <= GrandTotal(m) <= 4 * MaxLevel * ItemCount
  {
    SumTotalsBounded(ItemTotals(m), ItemCount);
  }

  /** The reply that gives every axis of every item the same level v. */
  function Uniform(v: int): (m: ScoreMatrix)
    ensures HasAllItems(m)
  {
    map i | i in ItemIds :: map[A := v, B := v, C := v, D := v]
  }

  /** A uniform reply of level v totals 60 * v. */
  lemma UniformTotal(v: int)
    ensures GrandTotal(Uniform(v)) == 4 * ItemCount * v
  {
    var t := ItemTotals(Uniform(v));
    assert forall i | 1 <= i <= ItemCount :: t[i] == 4 * v;
    SumTotalsConstant(t, ItemCount, 4 * v);
  }
}
