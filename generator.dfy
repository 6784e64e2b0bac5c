/** The receipt generator: its configuration, the used-totals ledger it keeps
    across months, the month's quantities (search, then fallback) and the loop
    over the months of a date range. */
module Generator {

  import opened Common
  import opened RandomSource
  import opened Calendar
  import Ledger
  import opened Quantities
  import Fallback
  import DateSampler

  /** Which path produced a month's quantities: the search at a tier, or the
      fallback aiming at a target total. */
  datatype Origin = Searched(tier: int) | FellBack(target: int)

  /** One month's generated data, from which its receipt block is rendered. */
  datatype MonthBlock = MonthBlock(year: int, month: int, dates: seq<int>, quantities: seq<QtyPair>, total: int)

  /** Stepping past December 9999 asks `datetime` for a year it cannot hold. */
  datatype GenerationError = YearOutOfRange(year: int)

  function Totals(blocks: seq<MonthBlock>): (ts: seq<int>)
    ensures |ts| == |blocks|
    ensures forall k :: 0 <= k < |blocks| ==> ts[k] == blocks[k].total
  {
    if blocks == [] then [] else Totals(blocks[..|blocks| - 1]) + [blocks[|blocks| - 1].total]
  }

  /** What every generated month satisfies: `n` ascending order days within
      the month, the `i`-th in the `i`-th segment of the month, and for every
      product two bag counts, the first between the bag bounds, whose amounts
      differ and whose amounts add up to the total. */
  predicate MonthOk(b: MonthBlock, products: seq<Product>, minBags: int, maxBags: int, n: int) {
    && 1 <= b.month <= 12
    && |b.dates| == n
    && DateSampler.Ascending(b.dates)
    && (forall i :: 0 <= i < n ==> 1 <= b.dates[i] <= DaysInMonth(b.year, b.month))
    && (forall i :: 0 <= i < n ==>
          DateSampler.SegmentStart(i, n, DaysInMonth(b.year, b.month)) <= b.dates[i]
          <= DateSampler.SegmentEnd(i, n, DaysInMonth(b.year, b.month)))
    && |b.quantities| == |products|
    && b.total == MonthlyTotal(products, b.quantities)
    && (forall i :: 0 <= i < |products| ==>
          AmountsDiffer(products[i], b.quantities[i]) && minBags <= b.quantities[i].q1 <= maxBags)
  }

  /** Where a month's total lies: a searched total within the range its tier
      accepts, a fallback total aimed at a target within the range and not
      above it when the minimum bags fit in it. */
  predicate InRange(b: MonthBlock, origin: Origin, products: seq<Product>, minBags: int,
                    minTotal: int, maxTotal: int)
  {
    match origin
    case Searched(t) =>
      0 <= t < |Tiers| && minTotal <= b.total <= maxTotal + Tiers[t].rangeBuffer
    case FellBack(target) =>
      minTotal <= target <= maxTotal && (Fallback.Baseline(products, minBags) <= target ==> b.total <= target)
  }

  /** The number of months from the start month to the end month, both included. */
  function MonthCount(start: Date, end: Date): nat {
    var c := MonthIndex(end.year, end.month) - MonthIndex(start.year, start.month) + 1;
    if c < 0 then 0 else c
  }

  class ReceiptGenerator {
    const minBags: int
    const maxBags: int
    const ordersPerMonth: int
    /** How many times each monthly total has been produced in this run. */
    var usedTotals: Ledger.Counts
    /** The total of the month generated last, `None` before the first. */
    var previousTotal: Option<int>

    predicate Valid() {
      0 < minBags < maxBags && 0 <= ordersPerMonth <= 28
    }

    constructor ()
      ensures Valid()
      ensures minBags == 8 && maxBags == 24 && ordersPerMonth == 2
      ensures usedTotals == map[] && previousTotal == None
    {
      minBags, maxBags, ordersPerMonth := 8, 24, 2;
      usedTotals, previousTotal := map[], None;
    }

    /** Records a produced monthly total in the ledger. */
    method RecordTotal(total: int)
      modifies this
      ensures usedTotals == Ledger.Bump(old(usedTotals), total)
      ensures previousTotal == Some(total)
    {
      usedTotals := usedTotals[total := Ledger.Count(usedTotals, total) + 1];
      previousTotal := Some(total);
    }

    /** A month's quantities and total: the search's first accepted trial,
        or else the fallback's allocation. Either way the ledger counts the
        returned total once more and it becomes the previous total. */
    method GenerateQuantities(products: seq<Product>, minTotal: int, maxTotal: int, g: Rng)
      returns (qs: seq<QtyPair>, total: int, ghost origin: Origin, ghost drawn: seq<int>,
               ghost drawnQs: seq<seq<QtyPair>>, g': Rng)
      requires Valid() && ValidProducts(products) && minTotal <= maxTotal
      modifies this
      ensures |qs| == |products| && total == MonthlyTotal(products, qs)
      ensures forall i :: 0 <= i < |qs| ==> AmountsDiffer(products[i], qs[i]) && minBags <= qs[i].q1 <= maxBags
      ensures usedTotals == Ledger.Bump(old(usedTotals), total)
      ensures previousTotal == Some(total)
      ensures origin.Searched? ==>
        && 0 <= origin.tier < |Tiers|
        && DrawnPairs(products, qs, minBags, maxBags)
        && Accepts(Tiers[origin.tier], total, minTotal, maxTotal, old(previousTotal), old(usedTotals))
        && origin.tier * MaxAttempts < |drawn| <= (origin.tier + 1) * MaxAttempts
        && drawn[|drawn| - 1] == total
      ensures origin.FellBack? ==> |drawn| == |Tiers| * MaxAttempts
      ensures |drawnQs| == |drawn|
      ensures forall k :: 0 <= k < |drawn| ==> DrawnTrial(products, minBags, maxBags, drawnQs[k], drawn[k])
      ensures origin.Searched? ==> drawnQs[|drawn| - 1] == qs
      ensures forall k :: 0 <= k < |drawn| && (origin.FellBack? || k < |drawn| - 1) ==>
        k / MaxAttempts < |Tiers|
        && !Accepts(Tiers[k / MaxAttempts], drawn[k], minTotal, maxTotal, old(previousTotal), old(usedTotals))
      ensures origin.FellBack? ==>
        && minTotal <= origin.target <= maxTotal
        && (Fallback.Baseline(products, minBags) <= origin.target ==> total <= origin.target)
        && (forall i :: 0 <= i < |qs| ==> minBags - 1 <= qs[i].q2 && qs[i].q1 + qs[i].q2 <= 2 * maxBags)
    {
      var found;
      ghost var tier, trials;
      found, tier, trials, drawn, drawnQs, g' := Search(products, minTotal, maxTotal, minBags, maxBags, previousTotal, usedTotals, g);
      if found.Some? {
        qs, total := found.value.0, found.value.1;
        origin := Searched(tier);
      } else {
        ghost var target;
        qs, total, target, g' := Fallback.Distribute(products, minTotal, maxTotal, minBags, maxBags, g');
        origin := FellBack(target);
      }
      RecordTotal(total);
    }

    /** The months from `start` to `end` in order, each with its dates and
        quantities. `produced` holds every month generated, also when stepping
        past December 9999 fails after the last one; the ledger has counted
        each of their totals. When every month came from the strict tier, the
        run is a strict run of the ledger. */
    method GenerateReceipts(products: seq<Product>, start: Date, end: Date, minTotal: int, maxTotal: int, g: Rng)
      returns (result: Result<seq<MonthBlock>, GenerationError>, ghost produced: seq<MonthBlock>,
               ghost origins: seq<Origin>, g': Rng)
      requires Valid() && ValidProducts(products) && minTotal <= maxTotal
      requires ValidDate(start) && start.day == 1 && ValidDate(end)
      modifies this
      ensures |produced| == MonthCount(start, end) && |origins| == |produced|
      ensures MonthsInOrder(produced, MonthIndex(start.year, start.month))
      ensures forall k :: 0 <= k < |produced| ==> MonthOk(produced[k], products, minBags, maxBags, ordersPerMonth)
      ensures forall k :: 0 <= k < |produced| ==> InRange(produced[k], origins[k], products, minBags, minTotal, maxTotal)
      ensures LedgerFollows(old(usedTotals), old(previousTotal), produced, origins, usedTotals, previousTotal)
      ensures result.Ok? ==> result.value == produced
      ensures result.Err? <==> |produced| > 0 && end.year == MaxYear && end.month == 12
    {
      var year, month := start.year, start.month;
      var blocks: seq<MonthBlock> := [];
      produced, origins, g' := [], [], g;
      ghost var startIndex := MonthIndex(start.year, start.month);
      ghost var used0, previous0 := usedTotals, previousTotal;
      FirstOfMonthLe(year, month, end);
      while DateLe(Date(year, month, 1), end)
        invariant MinYear <= year <= MaxYear && 1 <= month <= 12
        invariant MonthIndex(year, month) == startIndex + |blocks|
        invariant |blocks| <= MonthCount(start, end)
        invariant produced == blocks && |origins| == |blocks|
        invariant MonthsInOrder(blocks, startIndex)
        invariant forall k :: 0 <= k < |blocks| ==> MonthOk(blocks[k], products, minBags, maxBags, ordersPerMonth)
        invariant forall k :: 0 <= k < |blocks| ==> InRange(blocks[k], origins[k], products, minBags, minTotal, maxTotal)
        invariant LedgerFollows(used0, previous0, blocks, origins, usedTotals, previousTotal)
        decreases MonthCount(start, end) - |blocks|
      {
        FirstOfMonthLe(year, month, end);
        var block;
        ghost var origin, usedBefore, previousBefore := Searched(0), usedTotals, previousTotal;
        block, origin, g' := GenerateMonth(products, year, month, minTotal, maxTotal, g');
        MonthAtIndex(year, month);
        ExtendMonths(blocks, block, startIndex, products, minBags, maxBags, ordersPerMonth);
        ExtendLedger(used0, previous0, blocks, origins, usedBefore, previousBefore, block, origin, usedTotals, previousTotal);
        ExtendInRange(blocks, origins, block, origin, products, minBags, minTotal, maxTotal);
        blocks := blocks + [block];
        produced, origins := blocks, origins + [origin];
        var next := NextMonth(year, month);
        if next.0 > MaxYear {
          result := Err(YearOutOfRange(next.0));
          return;
        }
        year, month := next.0, next.1;
      }
      FirstOfMonthLe(year, month, end);
      result := Ok(blocks);
    }

    /** One month of the loop: its dates, then its quantities. */
    method GenerateMonth(products: seq<Product>, year: int, month: int, minTotal: int, maxTotal: int, g: Rng)
      returns (block: MonthBlock, ghost origin: Origin, g': Rng)
      requires Valid() && ValidProducts(products) && minTotal <= maxTotal
      requires MinYear <= year <= MaxYear && 1 <= month <= 12
      modifies this
      ensures block.year == year && block.month == month
      ensures MonthOk(block, products, minBags, maxBags, ordersPerMonth)
      ensures usedTotals == Ledger.Bump(old(usedTotals), block.total)
      ensures previousTotal == Some(block.total)
      ensures origin.Searched? ==>
        && 0 <= origin.tier < |Tiers|
        && Accepts(Tiers[origin.tier], block.total, minTotal, maxTotal, old(previousTotal), old(usedTotals))
      ensures origin == Searched(0) ==> Ledger.FreshEnough(old(usedTotals), old(previousTotal), block.total)
      ensures InRange(block, origin, products, minBags, minTotal, maxTotal)
    {
      var dates, qs, total;
      ghost var onWeekday, weekends;
      dates, onWeekday, weekends, g' := DateSampler.GenerateDatesForMonth(year, month, ordersPerMonth, g);
      ghost var drawn, drawnQs;
      qs, total, origin, drawn, drawnQs, g' := GenerateQuantities(products, minTotal, maxTotal, g');
      block := MonthBlock(year, month, dates, qs, total);
    }
  }

  /** Every month's quantities came from the strict tier. */
  predicate AllStrict(origins: seq<Origin>) {
    forall k :: 0 <= k < |origins| ==> origins[k] == Searched(0)
  }

  /** Month `k` of the run is the `k`-th month after the month with index
      `startIndex`. */
  predicate MonthsInOrder(blocks: seq<MonthBlock>, startIndex: int) {
    forall k :: 0 <= k < |blocks| ==> (blocks[k].year, blocks[k].month) == MonthAt(startIndex + k)
  }

  /** The ledger `used` and the previous total `previous` are those the run
      started from, updated by the run's totals in order; and a run whose
      every month came from the strict tier is a strict run. */
  ghost predicate LedgerFollows(used0: Ledger.Counts, previous0: Option<int>, blocks: seq<MonthBlock>,
                                origins: seq<Origin>, used: Ledger.Counts, previous: Option<int>)
  {
    && used == Ledger.Replay(used0, Totals(blocks))
    && previous == Ledger.LastTotal(previous0, Totals(blocks))
    && (AllStrict(origins) ==> Ledger.StrictRun(used0, previous0, Totals(blocks)))
  }

  /** A month appended to the months before it keeps every month in place and
      in order. */
  lemma ExtendMonths(blocks: seq<MonthBlock>, b: MonthBlock, startIndex: int,
                     products: seq<Product>, minBags: int, maxBags: int, n: int)
    requires MonthsInOrder(blocks, startIndex)
    requires forall k :: 0 <= k < |blocks| ==> MonthOk(blocks[k], products, minBags, maxBags, n)
    requires (b.year, b.month) == MonthAt(startIndex + |blocks|)
    requires MonthOk(b, products, minBags, maxBags, n)
    ensures MonthsInOrder(blocks + [b], startIndex)
    ensures forall k :: 0 <= k < |blocks| + 1 ==> MonthOk((blocks + [b])[k], products, minBags, maxBags, n)
  {
    forall k | 0 <= k < |blocks| + 1
      ensures ((blocks + [b])[k].year, (blocks + [b])[k].month) == MonthAt(startIndex + k)
      ensures MonthOk((blocks + [b])[k], products, minBags, maxBags, n)
    {
      if k < |blocks| {
        assert (blocks + [b])[k] == blocks[k];
      } else {
        assert (blocks + [b])[k] == b;
      }
    }
  }

  /** A month appended to the months before it keeps every month's total where
      its origin puts it. */
  lemma ExtendInRange(blocks: seq<MonthBlock>, origins: seq<Origin>, b: MonthBlock, origin: Origin,
                      products: seq<Product>, minBags: int, minTotal: int, maxTotal: int)
    requires |origins| == |blocks|
    requires forall k :: 0 <= k < |blocks| ==> InRange(blocks[k], origins[k], products, minBags, minTotal, maxTotal)
    requires InRange(b, origin, products, minBags, minTotal, maxTotal)
    ensures forall k :: 0 <= k < |blocks| + 1 ==>
      InRange((blocks + [b])[k], (origins + [origin])[k], products, minBags, minTotal, maxTotal)
  {
    forall k | 0 <= k < |blocks| + 1
      ensures InRange((blocks + [b])[k], (origins + [origin])[k], products, minBags, minTotal, maxTotal)
    {
      if k < |blocks| {
        assert (blocks + [b])[k] == blocks[k] && (origins + [origin])[k] == origins[k];
      }
    }
  }

  /** One more month keeps the ledger following the run, provided the month
      bumped the ledger at its total, made it the previous total, and passed
      the strict condition when it came from the strict tier. */
  lemma ExtendLedger(used0: Ledger.Counts, previous0: Option<int>, blocks: seq<MonthBlock>, origins: seq<Origin>,
                     used: Ledger.Counts, previous: Option<int>, b: MonthBlock, origin: Origin,
                     used': Ledger.Counts, previous': Option<int>)
    requires LedgerFollows(used0, previous0, blocks, origins, used, previous)
    requires used' == Ledger.Bump(used, b.total) && previous' == Some(b.total)
    requires origin == Searched(0) ==> Ledger.FreshEnough(used, previous, b.total)
    ensures LedgerFollows(used0, previous0, blocks + [b], origins + [origin], used', previous')
  {
    var totals := Totals(blocks);
    assert (blocks + [b])[..|blocks|] == blocks;
    assert Totals(blocks + [b]) == totals + [b.total];
    Ledger.ExtendRun(used0, previous0, totals, b.total);
    if AllStrict(origins + [origin]) {
      assert (origins + [origin])[|origins|] == origin;
      forall k | 0 <= k < |origins| ensures origins[k] == Searched(0) {
        assert (origins + [origin])[k] == origins[k];
      }
    }
  }

  /** A run from a fresh generator whose every month came from the strict tier
      never produces a total more than twice, and never the same total in two
      consecutive months. */
  lemma StrictReceiptsCapped(blocks: seq<MonthBlock>, origins: seq<Origin>, used: Ledger.Counts, previous: Option<int>)
    requires LedgerFollows(map[], None, blocks, origins, used, previous)
    requires AllStrict(origins)
    ensures forall t :: Ledger.Count(used, t) <= 2
    ensures forall k :: 0 < k < |blocks| ==> blocks[k].total != blocks[k - 1].total
  {
    var totals := Totals(blocks);
    Ledger.StrictRunKeepsCap(map[], None, totals);
    forall k | 0 < k < |blocks| ensures blocks[k].total != blocks[k - 1].total {
      assert totals[k] != totals[k - 1];
    }
  }
}
