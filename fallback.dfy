/** The fallback that `generate_quantities` runs once every search tier has
    used up its trials: pick a target total, give every product the minimum
    bags, spend what is left of the target product by product, then break
    ties between a product's two orders. It always finishes, but only aims at
    the target: the total it reports is what it actually allocated. */
module Fallback {

  import opened Common
  import opened RandomSource
  import opened Quantities

  /** Every product at `minBags` bags in both orders. */
  function Seeded(n: nat, minBags: int): (qs: seq<QtyPair>)
    ensures |qs| == n
  {
    seq(n, _ => QtyPair(minBags, minBags))
  }

  /** The cost of the seeded counts, which the fallback spends first. */
  function Baseline(products: seq<Product>, minBags: int): int {
    MonthlyTotal(products, Seeded(|products|, minBags))
  }

  /** First pass: every product gets `minBags` bags in both orders, and the
      budget `remaining` starts at the target less their cost. */
  method SeedMinimum(products: seq<Product>, minBags: int, target: int)
    returns (qs: seq<QtyPair>, remaining: int)
    ensures qs == Seeded(|products|, minBags)
    ensures remaining == target - Baseline(products, minBags)
  {
    qs, remaining := [], target;
    var i := 0;
    while i < |products|
      invariant 0 <= i <= |products|
      invariant qs == Seeded(i, minBags)
      invariant remaining == target - MonthlyTotal(products[..i], qs)
    {
      var q := QtyPair(minBags, minBags);
      TotalAppend(products[..i], qs, products[i], q);
      assert products[..i + 1] == products[..i] + [products[i]];
      qs := qs + [q];
      remaining := remaining - (q.q1 + q.q2) * products[i].price;
      i := i + 1;
    }
    assert products[..i] == products;
  }

  /** What the second pass spends on one product while the budget is positive:
      at most the budget, at most twice the bags between minimum and maximum,
      and whole bags only. */
  lemma AllocationStep(remaining: int, price: int, span: int, maxPossible: int, allocate: int, additional: int)
    requires remaining > 0 && price > 0 && span > 0
    requires maxPossible == span * 2 * price
    requires allocate == (if remaining < maxPossible then remaining else maxPossible)
    requires additional == allocate / price
    ensures 0 <= additional <= 2 * span
    ensures 0 <= additional * price <= remaining
    ensures remaining <= maxPossible ==> remaining - additional * price < price
    ensures remaining > maxPossible ==> additional == 2 * span
  {
    assert allocate == price * additional + allocate % price;
    assert additional * price == price * additional;
    if additional > 2 * span {
      MulMono(2 * span + 1, additional, price);
    }
    if remaining > maxPossible {
      if additional < 2 * span {
        MulMono(additional + 1, 2 * span, price);
      }
    }
  }

  /** The change in a product's amount when bags are added to its orders. */
  lemma AmountAdd(p: Product, q: QtyPair, add1: int, add2: int)
    ensures Amount(p, QtyPair(q.q1 + add1, q.q2 + add2)) == Amount(p, q) + (add1 + add2) * p.price
  {
    assert (q.q1 + add1 + (q.q2 + add2)) * p.price == (q.q1 + q.q2) * p.price + (add1 + add2) * p.price;
  }

  /** Second pass: while budget is left, each product in turn takes as many
      whole bags as the budget and its capacity allow, split at random between
      its two orders, the first order never above `maxBags`. The budget falls by
      what is spent and never below zero; at the end every product either got
      all the bags it could take or costs more than what is left. */
  method DistributeRemaining(products: seq<Product>, minBags: int, maxBags: int,
                             qs0: seq<QtyPair>, remaining0: int, g: Rng)
    returns (qs: seq<QtyPair>, remaining: int, g': Rng)
    requires ValidProducts(products) && minBags < maxBags
    requires qs0 == Seeded(|products|, minBags)
    ensures |qs| == |products|
    ensures remaining0 - remaining == MonthlyTotal(products, qs) - MonthlyTotal(products, qs0)
    ensures forall i :: 0 <= i < |qs| ==>
      minBags <= qs[i].q1 <= maxBags && minBags <= qs[i].q2 && qs[i].q1 + qs[i].q2 <= 2 * maxBags
    ensures remaining <= remaining0
    ensures remaining0 >= 0 ==> remaining >= 0
    ensures remaining0 <= 0 ==> qs == qs0 && remaining == remaining0
    ensures forall i :: 0 <= i < |qs| ==> remaining < products[i].price || qs[i].q1 + qs[i].q2 == 2 * maxBags
  {
    qs, remaining, g' := qs0, remaining0, g;
    var i := 0;
    while i < |products|
      invariant 0 <= i <= |products| && |qs| == |products|
      invariant remaining0 - remaining == MonthlyTotal(products, qs) - MonthlyTotal(products, qs0)
      invariant forall j :: i <= j < |qs| ==> qs[j] == QtyPair(minBags, minBags)
      invariant forall j :: 0 <= j < |qs| ==>
        minBags <= qs[j].q1 <= maxBags && minBags <= qs[j].q2 && qs[j].q1 + qs[j].q2 <= 2 * maxBags
      invariant remaining <= remaining0
      invariant remaining0 >= 0 ==> remaining >= 0
      invariant remaining0 <= 0 ==> qs == qs0 && remaining == remaining0
      invariant forall j :: 0 <= j < i ==> remaining < products[j].price || qs[j].q1 + qs[j].q2 == 2 * maxBags
    {
      if remaining <= 0 {
        break;
      }
      var price := products[i].price;
      var maxPossible := (maxBags - minBags) * 2 * price;
      var allocate := if remaining < maxPossible then remaining else maxPossible;
      var additional := allocate / price;
      AllocationStep(remaining, price, maxBags - minBags, maxPossible, allocate, additional);
      ghost var before := remaining;
      if additional > 0 {
        var add1;
        add1, g' := RandInt(g', 0, if additional < maxBags - minBags then additional else maxBags - minBags);
        var add2 := additional - add1;
        var q := qs[i];
        var q' := QtyPair(q.q1 + add1, q.q2 + add2);
        TotalUpdate(products, qs, i, q');
        AmountAdd(products[i], q, add1, add2);
        qs := qs[i := q'];
        remaining := remaining - (add1 + add2) * price;
      }
      if before <= maxPossible {
        assert remaining < products[i].price;
      } else {
        assert qs[i].q1 + qs[i].q2 == 2 * maxBags;
      }
      i := i + 1;
    }
  }

  /** Third pass: a product whose two orders carry the same amount has one bag
      moved between them, out of the first order unless that would take it
      below `minBags`, in which case into it. */
  method BreakTies(products: seq<Product>, minBags: int, maxBags: int, qs0: seq<QtyPair>)
    returns (qs: seq<QtyPair>)
    requires ValidProducts(products) && |qs0| == |products| && minBags < maxBags
    requires forall i :: 0 <= i < |qs0| ==> minBags <= qs0[i].q1 <= maxBags
    ensures |qs| == |qs0|
    ensures forall i :: 0 <= i < |qs| ==> AmountsDiffer(products[i], qs[i])
    ensures forall i :: 0 <= i < |qs| ==> qs[i].q1 + qs[i].q2 == qs0[i].q1 + qs0[i].q2
    ensures forall i :: 0 <= i < |qs| ==> minBags <= qs[i].q1 <= maxBags && qs[i].q2 >= qs0[i].q2 - 1
    ensures forall i :: 0 <= i < |qs| ==>
      if AmountsDiffer(products[i], qs0[i]) then qs[i] == qs0[i]
      else qs[i].q1 == qs0[i].q1 + (if qs0[i].q1 > minBags then -1 else 1)
  {
    qs := qs0;
    var i := 0;
    while i < |products|
      invariant 0 <= i <= |products| && |qs| == |qs0|
      invariant forall j :: i <= j < |qs| ==> qs[j] == qs0[j]
      invariant forall j :: 0 <= j < i ==> AmountsDiffer(products[j], qs[j])
      invariant forall j :: 0 <= j < |qs| ==> qs[j].q1 + qs[j].q2 == qs0[j].q1 + qs0[j].q2
      invariant forall j :: 0 <= j < |qs| ==> minBags <= qs[j].q1 <= maxBags && qs[j].q2 >= qs0[j].q2 - 1
      invariant forall j :: 0 <= j < i ==>
        if AmountsDiffer(products[j], qs0[j]) then qs[j] == qs0[j]
        else qs[j].q1 == qs0[j].q1 + (if qs0[j].q1 > minBags then -1 else 1)
    {
      var q := qs[i];
      var price := products[i].price;
      if q.q1 * price == q.q2 * price {
        DistinctAmounts(q.q1, q.q2, price);
        var q' := if q.q1 > minBags then QtyPair(q.q1 - 1, q.q2 + 1) else QtyPair(q.q1 + 1, q.q2 - 1);
        DistinctAmounts(q'.q1, q'.q2, price);
        qs := qs[i := q'];
      }
      i := i + 1;
    }
  }

  /** The whole fallback. The ghost `target` is the total it aimed at. */
  method Distribute(products: seq<Product>, minTotal: int, maxTotal: int, minBags: int, maxBags: int, g: Rng)
    returns (qs: seq<QtyPair>, total: int, ghost target: int, g': Rng)
    requires ValidProducts(products) && 0 < minBags < maxBags && minTotal <= maxTotal
    ensures |qs| == |products|
    ensures total == MonthlyTotal(products, qs)
    ensures forall i :: 0 <= i < |qs| ==>
      && AmountsDiffer(products[i], qs[i])
      && minBags <= qs[i].q1 <= maxBags
      && minBags - 1 <= qs[i].q2
      && qs[i].q1 + qs[i].q2 <= 2 * maxBags
    ensures minTotal <= target <= maxTotal
    ensures Baseline(products, minBags) <= target ==> total <= target
    ensures Baseline(products, minBags) > target ==> total == Baseline(products, minBags)
    ensures forall i :: 0 <= i < |qs| ==> target - total < products[i].price || qs[i].q1 + qs[i].q2 == 2 * maxBags
  {
    var targetTotal;
    targetTotal, g' := RandInt(g, minTotal, maxTotal);
    target := targetTotal;
    var seeded, remaining := SeedMinimum(products, minBags, targetTotal);
    var distributed;
    distributed, remaining, g' := DistributeRemaining(products, minBags, maxBags, seeded, remaining, g');
    qs := BreakTies(products, minBags, maxBags, distributed);
    TotalOfSameSums(products, distributed, qs);
    total := targetTotal - remaining;
  }
}
