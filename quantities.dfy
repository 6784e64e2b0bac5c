/** Products, the two bag counts each product gets in a month, the monthly
    total they add up to, and the tiered randomized search for counts whose
    total the ledger accepts (`generate_quantities`, up to its fallback). */
module Quantities {

  import opened Common
  import opened RandomSource
  import Ledger

  /** A product with its unit price in whole shillings. */
  datatype Product = Product(name: string, price: int)

  /** The bags of one product in the month's first and second order. */
  datatype QtyPair = QtyPair(q1: int, q2: int)

  predicate ValidProducts(products: seq<Product>) {
    forall i :: 0 <= i < |products| ==> products[i].price > 0
  }

  /** What one product contributes to the month: both orders' bags at its price. */
  function Amount(p: Product, q: QtyPair): int {
    (q.q1 + q.q2) * p.price
  }

  /** The monthly total: the sum of every product's amount. */
  function MonthlyTotal(products: seq<Product>, qs: seq<QtyPair>): int
    requires |products| == |qs|
  {
    if products == [] then 0
    else MonthlyTotal(products[..|products| - 1], qs[..|qs| - 1]) + Amount(products[|products| - 1], qs[|qs| - 1])
  }

  /** The two orders of a product carry different amounts of money. */
  predicate AmountsDiffer(p: Product, q: QtyPair) {
    q.q1 * p.price != q.q2 * p.price
  }

  /** Counts a search trial draws: each from `minBags` to `maxBags`, the two
      orders' amounts different. */
  predicate DrawnPairs(products: seq<Product>, qs: seq<QtyPair>, minBags: int, maxBags: int) {
    |qs| == |products|
    && forall i :: 0 <= i < |qs| ==>
         minBags <= qs[i].q1 <= maxBags && minBags <= qs[i].q2 <= maxBags && AmountsDiffer(products[i], qs[i])
  }

  lemma TotalAppend(products: seq<Product>, qs: seq<QtyPair>, p: Product, q: QtyPair)
    requires |products| == |qs|
    ensures MonthlyTotal(products + [p], qs + [q]) == MonthlyTotal(products, qs) + Amount(p, q)
  {
    assert (products + [p])[..|products|] == products;
    assert (qs + [q])[..|qs|] == qs;
  }

  /** Changing one product's counts changes the total by exactly the change in
      that product's amount. */
  lemma {:induction false} TotalUpdate(products: seq<Product>, qs: seq<QtyPair>, i: int, q: QtyPair)
    requires |products| == |qs| && 0 <= i < |qs|
    ensures MonthlyTotal(products, qs[i := q])
            == MonthlyTotal(products, qs) - Amount(products[i], qs[i]) + Amount(products[i], q)
  {
    var n := |qs| - 1;
    var qs' := qs[i := q];
    if i < n {
      assert qs'[..n] == qs[..n][i := q];
      TotalUpdate(products[..n], qs[..n], i, q);
    } else {
      assert qs'[..n] == qs[..n];
    }
  }

  /** Moving bags between a product's two orders leaves the total unchanged. */
  lemma {:induction false} TotalOfSameSums(products: seq<Product>, qs: seq<QtyPair>, qs': seq<QtyPair>)
    requires |products| == |qs| == |qs'|
    requires forall i :: 0 <= i < |qs| ==> qs[i].q1 + qs[i].q2 == qs'[i].q1 + qs'[i].q2
    ensures MonthlyTotal(products, qs) == MonthlyTotal(products, qs')
  {
    if products != [] {
      var n := |qs| - 1;
      TotalOfSameSums(products[..n], qs[..n], qs'[..n]);
    }
  }

  // ---------------------------------------------------------------------
  // The randomized search

  const MaxAttempts := 500

  /** Draws of `qty2` the model makes before it stops resampling. */
  const ResampleLimit := 1000

  /** A set of acceptance rules: whether a total may repeat, and how far above
      the maximum it may go. */
  datatype Tier = Tier(desc: string, allowDupTotals: bool, rangeBuffer: int)

  /** The tiers in the order they are tried, from strict to permissive. */
  const Tiers: seq<Tier> := [
    Tier("strict", false, 0),
    Tier("relaxed duplicates", true, 0),
    Tier("extended range", true, 5000)
  ]

  /** Whether a trial's total is accepted under a tier, given the previous
      month's total and the ledger. */
  predicate Accepts(tier: Tier, total: int, minTotal: int, maxTotal: int,
                    previous: Option<int>, used: Ledger.Counts)
  {
    minTotal <= total <= maxTotal + tier.rangeBuffer
    && (tier.allowDupTotals || Ledger.FreshEnough(used, previous, total))
  }

  /** What each tier lets through: the range, widened by 5000 on the last
      tier, and on the strict tier a total that is new against the previous
      month and used fewer than twice. Each tier accepts what the one before it
      accepts. */
  lemma TierAcceptance(t: int, total: int, minTotal: int, maxTotal: int,
                       previous: Option<int>, used: Ledger.Counts)
    requires 0 <= t < |Tiers| && Accepts(Tiers[t], total, minTotal, maxTotal, previous, used)
    ensures minTotal <= total <= maxTotal + (if t == 2 then 5000 else 0)
    ensures t == 0 ==> (previous.None? || total != previous.value) && Ledger.Count(used, total) < 2
    ensures t == 0 ==> Ledger.Count(Ledger.Bump(used, total), total) <= 2
    ensures t + 1 < |Tiers| ==> Accepts(Tiers[t + 1], total, minTotal, maxTotal, previous, used)
  {
  }

  /** One product's two counts: both drawn from `minBags` to `maxBags`, the
      second drawn again while the two amounts are equal. */
  method DrawPair(p: Product, minBags: int, maxBags: int, g: Rng) returns (q: QtyPair, g': Rng)
    requires p.price > 0 && minBags < maxBags
    ensures minBags <= q.q1 <= maxBags && minBags <= q.q2 <= maxBags
    ensures AmountsDiffer(p, q)
  {
    var qty1, qty2;
    qty1, g' := RandInt(g, minBags, maxBags);
    qty2, g' := RandInt(g', minBags, maxBags);
    var redraws := 0;
    while qty2 * p.price == qty1 * p.price && redraws < ResampleLimit
      invariant minBags <= qty2 <= maxBags
      decreases ResampleLimit - redraws
    {
      qty2, g' := RandInt(g', minBags, maxBags);
      redraws := redraws + 1;
    }
    if qty2 * p.price == qty1 * p.price {
      qty2 := if qty1 < maxBags then qty1 + 1 else qty1 - 1;
    }
    q := QtyPair(qty1, qty2);
    DistinctAmounts(qty1, qty2, p.price);
  }

  /** At a positive price, different bag counts cost different amounts. */
  lemma DistinctAmounts(a: int, b: int, c: int)
    requires c > 0
    ensures a * c == b * c <==> a == b
  {
    if a < b {
      MulMono(a + 1, b, c);
    } else if b < a {
      MulMono(b + 1, a, c);
    }
  }

  /** One trial: a pair of counts for every product, and their total. */
  method DrawTrial(products: seq<Product>, minBags: int, maxBags: int, g: Rng)
    returns (qs: seq<QtyPair>, total: int, g': Rng)
    requires ValidProducts(products) && minBags < maxBags
    ensures DrawnPairs(products, qs, minBags, maxBags)
    ensures total == MonthlyTotal(products, qs)
  {
    qs, total, g' := [], 0, g;
    var i := 0;
    while i < |products|
      invariant 0 <= i <= |products|
      invariant DrawnPairs(products[..i], qs, minBags, maxBags)
      invariant total == MonthlyTotal(products[..i], qs)
    {
      var q;
      q, g' := DrawPair(products[i], minBags, maxBags, g');
      TotalAppend(products[..i], qs, products[i], q);
      assert products[..i + 1] == products[..i] + [products[i]];
      qs := qs + [q];
      total := total + Amount(products[i], q);
      i := i + 1;
    }
    assert products[..i] == products;
  }

  /** The counts and total of one trial as `DrawTrial` draws them. */
  predicate DrawnTrial(products: seq<Product>, minBags: int, maxBags: int, qs: seq<QtyPair>, total: int) {
    DrawnPairs(products, qs, minBags, maxBags) && total == MonthlyTotal(products, qs)
  }

  /** The search: the tiers in order, up to `MaxAttempts` trials each; the
      first trial a tier accepts is returned. `None` when every tier has used
      up its trials. The ghost `tier` tells which tier accepted, `trials` how
      many trials were drawn in all, `drawnQs` the counts of those trials and
      `drawn` their totals:
      trial `k` is judged by tier `k / MaxAttempts`, and every trial before the
      returned one, or every trial when none is returned, was rejected. */
  method Search(products: seq<Product>, minTotal: int, maxTotal: int, minBags: int, maxBags: int,
                previous: Option<int>, used: Ledger.Counts, g: Rng)
    returns (found: Option<(seq<QtyPair>, int)>, ghost tier: int, ghost trials: int,
             ghost drawn: seq<int>, ghost drawnQs: seq<seq<QtyPair>>, g': Rng)
    requires ValidProducts(products) && minBags < maxBags
    ensures found.Some? ==>
      && DrawnPairs(products, found.value.0, minBags, maxBags)
      && found.value.1 == MonthlyTotal(products, found.value.0)
      && minTotal <= found.value.1 <= maxTotal + 5000
    ensures |drawn| == trials <= |Tiers| * MaxAttempts && |drawnQs| == |drawn|
    ensures forall k :: 0 <= k < |drawn| ==> DrawnTrial(products, minBags, maxBags, drawnQs[k], drawn[k])
    ensures found.Some? ==>
      && 0 <= tier < |Tiers|
      && Accepts(Tiers[tier], found.value.1, minTotal, maxTotal, previous, used)
      && tier * MaxAttempts < trials <= (tier + 1) * MaxAttempts
      && drawn[trials - 1] == found.value.1
      && drawnQs[trials - 1] == found.value.0
    ensures found.None? ==> trials == |Tiers| * MaxAttempts
    ensures forall k :: 0 <= k < trials && (found.None? || k < trials - 1) ==>
      !Accepts(Tiers[k / MaxAttempts], drawn[k], minTotal, maxTotal, previous, used)
  {
    g', tier, trials, drawn, drawnQs := g, 0, 0, [], [];
    var t := 0;
    while t < |Tiers|
      invariant 0 <= t <= |Tiers|
      invariant trials == t * MaxAttempts && |drawn| == trials && |drawnQs| == trials
      invariant forall k :: 0 <= k < trials ==> DrawnTrial(products, minBags, maxBags, drawnQs[k], drawn[k])
      invariant forall k :: 0 <= k < trials ==>
        !Accepts(Tiers[k / MaxAttempts], drawn[k], minTotal, maxTotal, previous, used)
    {
      var attempt := 0;
      while attempt < MaxAttempts
        invariant 0 <= attempt <= MaxAttempts
        invariant trials == t * MaxAttempts + attempt && |drawn| == trials && |drawnQs| == trials
        invariant forall k :: 0 <= k < trials ==> DrawnTrial(products, minBags, maxBags, drawnQs[k], drawn[k])
        invariant forall k :: 0 <= k < trials ==>
          !Accepts(Tiers[k / MaxAttempts], drawn[k], minTotal, maxTotal, previous, used)
      {
        var qs, total;
        qs, total, g' := DrawTrial(products, minBags, maxBags, g');
        assert trials / MaxAttempts == t;
        drawn, drawnQs := drawn + [total], drawnQs + [qs];
        trials := trials + 1;
        if Accepts(Tiers[t], total, minTotal, maxTotal, previous, used) {
          found, tier := Some((qs, total)), t;
          return;
        }
        attempt := attempt + 1;
      }
      t := t + 1;
    }
    found := None;
  }

  /** One product at 50 a bag, 8 to 24 bags per order and the range 800 to
      2400: every trial lands in the range, so the relaxed tier accepts the
      first trial it draws and the search never ends empty-handed. */
  lemma SingleProductAlwaysAccepted(qs: seq<QtyPair>, previous: Option<int>, used: Ledger.Counts)
    requires DrawnPairs([Product("Maize", 50)], qs, 8, 24)
    ensures Accepts(Tiers[1], MonthlyTotal([Product("Maize", 50)], qs), 800, 2400, previous, used)
  {
    var products := [Product("Maize", 50)];
    assert products[..0] == [] && qs[..0] == [];
    assert MonthlyTotal(products, qs) == (qs[0].q1 + qs[0].q2) * 50;
  }
}
