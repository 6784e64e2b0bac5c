/** The used-totals ledger: how many times each monthly total has been
    produced in this run (`used_totals`, a `defaultdict(int)`, so an absent
    total counts 0). A strict-tier acceptance demands a count below 2. */
module Ledger {

  import opened Common

  type Counts = map<int, nat>

  /** How often `t` has been produced; absent totals count 0. */
  function Count(used: Counts, t: int): nat {
    if t in used then used[t] else 0
  }

  /** The ledger after one more month produced total `t`
      (`used_totals[t] += 1`). */
  function Bump(used: Counts, t: int): (r: Counts)
    ensures Count(r, t) == Count(used, t) + 1
    ensures forall u :: u != t ==> Count(r, u) == Count(used, u)
  {
    used[t := Count(used, t) + 1]
  }

  /** The ledger after the months that produced `totals`, in that order. */
  function Replay(used: Counts, totals: seq<int>): Counts {
    if totals == [] then used else Bump(Replay(used, totals[..|totals| - 1]), totals[|totals| - 1])
  }

  /** Each count goes up by the number of times its total was produced. */
  lemma {:induction false} ReplayCounts(used: Counts, totals: seq<int>, t: int)
    ensures Count(Replay(used, totals), t) == Count(used, t) + multiset(totals)[t]
  {
    if totals != [] {
      var init, last := totals[..|totals| - 1], totals[|totals| - 1];
      assert totals == init + [last];
      ReplayCounts(used, init, t);
    }
  }

  /** The strict tier's condition on total `t`: different from the previous
      month's total (when there is one) and produced fewer than twice. */
  predicate FreshEnough(used: Counts, previous: Option<int>, t: int) {
    (previous.None? || t != previous.value) && Count(used, t) < 2
  }

  /** The total of the last month of `totals`, or `previous` when there is none. */
  function LastTotal(previous: Option<int>, totals: seq<int>): Option<int> {
    if totals == [] then previous else Some(totals[|totals| - 1])
  }

  /** A run in which every month's total passed the strict tier's condition
      against the ledger and previous total of its time. */
  predicate StrictRun(used: Counts, previous: Option<int>, totals: seq<int>) {
    totals == []
    || (var init := totals[..|totals| - 1];
        StrictRun(used, previous, init) && FreshEnough(Replay(used, init), LastTotal(previous, init), totals[|totals| - 1]))
  }

  /** A strict run never lifts a count above 2, and no two consecutive months
      share a total. */
  lemma {:induction false} StrictRunKeepsCap(used: Counts, previous: Option<int>, totals: seq<int>)
    requires forall t :: Count(used, t) <= 2
    requires StrictRun(used, previous, totals)
    ensures forall t :: Count(Replay(used, totals), t) <= 2
    ensures forall k :: 0 < k < |totals| ==> totals[k] != totals[k - 1]
  {
    if totals != [] {
      var n := |totals| - 1;
      var init := totals[..n];
      StrictRunKeepsCap(used, previous, init);
      var before := Replay(used, init);
      assert Replay(used, totals) == Bump(before, totals[n]);
      forall t ensures Count(Replay(used, totals), t) <= 2 {
        assert Count(before, t) <= 2;
      }
      forall k | 0 < k < |totals| ensures totals[k] != totals[k - 1] {
        if k < n {
          assert totals[k] == init[k] && totals[k - 1] == init[k - 1];
        }
      }
    }
  }

  /** One more month at the end of a run: the ledger is bumped at its total,
      which becomes the last total, and a strict run stays strict when the
      new total passes the strict condition. */
  lemma ExtendRun(used: Counts, previous: Option<int>, totals: seq<int>, t: int)
    ensures Replay(used, totals + [t]) == Bump(Replay(used, totals), t)
    ensures LastTotal(previous, totals + [t]) == Some(t)
    ensures StrictRun(used, previous, totals)
            && FreshEnough(Replay(used, totals), LastTotal(previous, totals), t)
            ==> StrictRun(used, previous, totals + [t])
  {
    assert (totals + [t])[..|totals|] == totals;
  }
}
