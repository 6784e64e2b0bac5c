# Receipt generator: month-generation engine

A Dafny model of the generation engine of `ReceiptGenerator` (`Initial.py`),
a script that synthesizes purchase receipts for a small trading business. For
every calendar month of a date range it produces two orders: their order days,
and for every product two bag counts, one per order. The monthly total is the
sum of every product's bags times its unit price. It should fall inside an
operator-chosen range, and successive months should not repeat totals.

The model covers:

- **the used-totals ledger** (`used_totals`, `previous_total`): the fields of
  class `Generator.ReceiptGenerator`. They are specified by the pure module
  `Ledger` (`Count`, `Bump`, `Replay`, `StrictRun`).
- **the tiered randomized search** (`Quantities`): three tiers in a fixed order
  (strict, relaxed duplicates, extended range), each with up to 500 trials. A
  trial draws two bag counts per product, and redraws the second while the two
  orders' amounts are equal. A trial is accepted when its total is in range,
  and on the strict tier only when the total differs from the previous month's
  total and has been used fewer than twice.
- **the fallback allocator** (`Fallback`). It picks a target total and seeds
  every product at `min_bags` in both orders. It then spends the remaining
  budget product by product in whole bags, and breaks ties by moving one bag
  between a product's two orders. It reports the target less the unspent
  budget.
- **the date sampler** (`DateSampler`): one day per segment of the month,
  preferring a Monday-to-Friday day within 100 draws.
- **month stepping** (`Generator.ReceiptGenerator.GenerateReceipts`): from the
  first of the start month to the end date, December followed by January of
  the next year.
- **the calendar** the script takes from Python's `calendar` and `datetime`
  (`Calendar`): proleptic Gregorian month lengths, and the weekday with
  Monday = 0.

Randomness is an explicit, seedable value (`RandomSource.Rng`). Every draw goes
through the method `RandomSource.RandInt`, whose contract promises only that the
number lies in the requested range. Callers see nothing else, so every property
holds for any random source with that contract. Prices and totals are whole
numbers of shillings.

Behaviours of the code worth knowing:

- The fallback goes through the products in their given order.
- It caps only the first order's extra bags at `max_bags - min_bags`. The second
  order takes the rest, so it can exceed `max_bags`.
- A tie means the two orders hold equal counts. The bag moves out of the first
  order, or into it when the first order is at `min_bags`. In that case the
  second order drops to `min_bags - 1`.
- The extended tier accepts totals up to `max_total + 5000`, so a searched total
  is not always within `[min_total, max_total]`.

## Model

| member | source | states |
|---|---|---|
| Generator.ReceiptGenerator.constructor | Initial.py:8-14 | a new generator has 8 and 24 as bag bounds, 2 orders a month, an empty ledger and no previous total |
| Generator.ReceiptGenerator.RecordTotal | Initial.py:129-132 | the ledger counts the returned total once more and it becomes the previous total |
| Generator.ReceiptGenerator.GenerateQuantities | Initial.py:99-176 | the returned total is the sum of the amounts of the returned counts; each product's two amounts differ and its first count lies within the bag bounds; the ledger is bumped at exactly the returned total and nothing else; every search trial drawn has counts within the bag bounds with different amounts adding up to its total; a searched result is the last trial drawn, satisfies the acceptance rules of its tier against the ledger from before the call, and every trial drawn before it was rejected by its own tier; the fallback runs only after all 1500 drawn trials were rejected, aims at a target within the range and does not exceed it when the minimum bags fit |
| Generator.ReceiptGenerator.GenerateMonth | Initial.py:207-208 | one month's dates, each in its segment of the month, then its quantities; a searched total is accepted by its tier against the ledger from before the month (on the strict tier new against the previous total and counted fewer than twice); a fallback target lies within the range; the ledger is bumped at the month's total |
| Generator.ReceiptGenerator.GenerateReceipts | Initial.py:197-228 | exactly one month block per month from the start month to the end month, in calendar order; every block has its order days ascending, each in its segment of the month, and counts with different amounts adding up to its total; every searched total lies in its tier's range and every fallback target in [min_total, max_total]; the ledger is the old ledger replayed over the blocks' totals; if every month came from the strict tier, the run is a strict run; the result is the year-out-of-range error exactly when the range ends in December 9999 |
| Generator.ExtendMonths | Initial.py:202-226 | appending the next month keeps month k the k-th month after the start |
| Generator.ExtendInRange | Initial.py:202-208 | appending the next month keeps every month's total where its origin puts it |
| Generator.ExtendLedger | Initial.py:129-132 | one more month's ledger update keeps the ledger equal to the replay of the run's totals and keeps a strict run strict |
| Generator.StrictReceiptsCapped | Initial.py:125-131 | over a run from a fresh generator where every month came from the strict tier, no total is produced more than twice and no two consecutive months have the same total |
| Ledger.Bump | Initial.py:130 | bumping the ledger raises the count of that total by one and leaves every other count unchanged |
| Ledger.ReplayCounts | Initial.py:13 | after a run, each count has gone up by the number of months that produced that total |
| Ledger.StrictRunKeepsCap | Initial.py:125-127 | in a run accepted on the strict tier, no count rises above 2 (starting from counts of at most 2) and no two consecutive months share a total |
| Ledger.ExtendRun | Initial.py:129-131 | one more month bumps the replayed ledger, becomes the last total, and extends a strict run when it passes the strict condition |
| Quantities.TotalUpdate | Initial.py:159-161 | changing one product's counts changes the monthly total by exactly the change in that product's amount |
| Quantities.TotalOfSameSums | Initial.py:164-171 | moving bags between a product's two orders leaves the monthly total unchanged |
| Quantities.DistinctAmounts | Initial.py:117 | at a positive price, two orders have equal amounts if and only if they have equal bag counts |
| Quantities.MonthlyTotal | Initial.py:111-121 | defines the monthly total as the sum over the products of both orders' bags times the product's price |
| Quantities.Accepts | Initial.py:124-127 | defines a tier's acceptance test: the total lies between min_total and max_total plus the tier's buffer, and unless the tier allows duplicates it differs from the previous total and has been counted fewer than twice |
| Quantities.TierAcceptance | Initial.py:102-127 | an accepted total lies in [min_total, max_total] (up to max_total + 5000 on the extended tier); on the strict tier it differs from the previous total and was counted fewer than twice, so bumping it leaves it at most 2; each tier accepts whatever the tier before it accepts |
| Quantities.DrawPair | Initial.py:115-118 | both counts lie in [min_bags, max_bags] and the two orders' amounts differ |
| Quantities.DrawTrial | Initial.py:110-121 | every product gets a pair of counts within the bag bounds with different amounts, and the trial's total is the sum of their amounts |
| Quantities.Search | Initial.py:101-132 | every trial drawn has counts within the bag bounds with different amounts and a total equal to their sum; trial k is judged by tier k / 500; a found result is the last trial drawn, its tier accepts it against the given ledger and previous total, it is one of trials 500t+1 to 500(t+1) for its tier t, and every trial before it was rejected by its tier; no result means all 1500 trials were drawn and each was rejected by its tier |
| Quantities.SingleProductAlwaysAccepted | Initial.py:108-132 | with one product at 50 a bag, 8 to 24 bags per order and the range 800 to 2400, the relaxed tier accepts every trial that can be drawn, so the search always returns a result and the fallback is never reached |
| Fallback.SeedMinimum | Initial.py:139-144 | every product starts at min_bags in both orders and the budget is the target less their cost |
| Fallback.AllocationStep | Initial.py:151-153 | one product's allocation is a whole number of bags, at most 2 * (max_bags - min_bags), costing no more than the budget; it leaves less than one unit price when the budget fits, and takes the full 2 * (max_bags - min_bags) when it does not |
| Fallback.DistributeRemaining | Initial.py:146-161 | the budget falls by exactly what the added bags cost; it never goes below zero when it starts non-negative; nothing changes when it starts at or below zero; first orders stay within the bag bounds and each product gains at most 2 * (max_bags - min_bags) bags; afterwards every product either holds 2 * max_bags bags or costs more than the budget left |
| Fallback.BreakTies | Initial.py:163-171 | afterwards every product's two amounts differ; each product keeps its bag total; a product without a tie is unchanged; a tied product's first order moves by one bag, down unless it is at min_bags |
| Fallback.Distribute | Initial.py:134-176 | the target lies in [min_total, max_total]; the reported total (target less the unspent budget) equals the sum of the final amounts; it is at most the target when the minimum bags fit in it, and the minimum bags' cost otherwise; every product either holds 2 * max_bags bags or costs more than the shortfall from the target; amounts differ, first orders lie within the bag bounds, second orders are at least min_bags - 1 |
| DateSampler.SegmentsTile | Initial.py:184-185 | the segments start on day 1, are non-empty, follow one another without gap or overlap, and the last ends on the month's last day |
| DateSampler.SegmentStart | Initial.py:184 | defines the first day of segment i as 1 + i * (last_day // orders) |
| DateSampler.SegmentEnd | Initial.py:185 | defines the last day of segment i as (i + 1) * (last_day // orders), and the month's last day for the final segment |
| DateSampler.PickDay | Initial.py:187-193 | the day lies in its segment; a day kept inside the 100-draw loop is a Monday to Friday and came after fewer than 100 weekend draws; otherwise all 100 draws fell on a Saturday or Sunday within the segment |
| DateSampler.GenerateDatesForMonth | Initial.py:178-195 | exactly orders_per_month days; day i lies in segment i; all days lie within the month and are strictly ascending, so sorting leaves them as they are; each day is a weekday found within 100 draws, or comes after 100 weekend draws from its segment |
| DateSampler.LeapFebruarySegments | Initial.py:180-185 | February 2024 with two orders has segments 1 to 14 and 15 to 29 |
| Calendar.DaysInMonth | Initial.py:180 | every month has 28 to 31 days |
| Calendar.MonthsFillYear | Initial.py:180 | the twelve month lengths add up to 366 in a leap year and 365 otherwise |
| Calendar.LeapFebruary | Initial.py:180 | February has 29 days in 2000 and 2024, and 28 in 1900 and 2023 (the Gregorian century rule) |
| Calendar.Weekday | Initial.py:189 | the weekday is a number from 0 (Monday) to 6 (Sunday) |
| Calendar.DaysBeforeNextYear | Initial.py:189 | the first of January of the next year is exactly the year's length in days later |
| Calendar.OrdinalNextDay | Initial.py:189 | consecutive days, across month and year ends, have consecutive day numbers |
| Calendar.WeekdayNextDay | Initial.py:189 | the weekday of the next day is one more, Sunday wrapping round to Monday |
| Calendar.FirstOfJanuary2024IsMonday | Initial.py:189 | 1 January 2024 is a Monday, which with WeekdayNextDay fixes every weekday |
| Calendar.NextMonth | Initial.py:223-226 | the month after any month is a month from 1 to 12, and its index is one more |
| Calendar.MonthAt | Initial.py:202-226 | the month with a given index is a month from 1 to 12 with that index |
| Calendar.MonthAtIndex | Initial.py:202-226 | a month's index leads back to the same year and month |
| Calendar.FirstOfMonthLe | Initial.py:202 | the first of a month is on or before a valid end date exactly when its month index is at most the end month's index |
| RandomSource.RandInt | Initial.py:115 | the drawn number lies in the requested closed range |

## Left out

- Console input (`get_product_details`, `get_date_range`, `get_total_range`, `run`, Initial.py:16-97 and 240-262). It is prompt-and-retry I/O. The model takes their validated results as parameters: positive prices, `min_total <= max_total`, and valid dates.
- `save_to_file` and `business_name` (Initial.py:12, 230-238). They are file output.
- The receipt text (Initial.py:205, 210-221). This covers the month name and the number formatting. `GenerateReceipts` returns the structured month blocks that the text is rendered from.
- Floating point. Prices and totals are whole numbers, so `int(min_total)` and `allocate // price` are plain integer operations. The price floor `min_sensible_price` belongs to the input layer.
- The distribution of `random.randint`. `RandInt` promises only its range.
- DrawPair: the source redraws the second count until the two amounts differ. That loop ends with probability 1, but a range-only random source cannot guarantee it ends at all. The model stops after 1000 redraws and then takes a neighbouring count.
- Quantities are a sequence aligned with the products, not a dictionary keyed by product name. The input layer does not reject duplicate names, and with duplicates the source's dictionary keeps only the last product's pair. The model does not capture that.
- Reading a missing total from the `defaultdict` ledger stores a 0 for it. This changes no count, and `Ledger.Count` reads 0 without storing anything.
- The order days are already ascending, so `sorted(dates)` returns them unchanged. The model returns them as built.
- The model always has two orders per product, as `orders_per_month = 2`. Rendering with more orders than two would index past the pair, and rendering is not modelled.
- Generator.ReceiptGenerator.Valid requires `0 < min_bags < max_bags`. With equal bounds, the source's redraw loop (Initial.py:117-118) never ends.
- DateSampler.GenerateDatesForMonth requires at most as many orders as days in the month. With more orders, the source's `random.randint` raises on an empty segment. The generator only ever uses 2.
- Generator.ReceiptGenerator.GenerateReceipts requires the start date to be the first of a month. That is what its only caller passes (Initial.py:69).
- When the range ends in December 9999, the source raises when it builds 1 January 10000, and the receipts generated so far are lost. The model returns `Err(YearOutOfRange(10000))`. The ledger keeps every month generated before that.
- Python's `datetime` and `calendar` modules are not modelled. The model uses its own Gregorian `DaysInMonth` and `Weekday`, computed from the same day numbering as `date.toordinal`.
