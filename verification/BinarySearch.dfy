/**
 * The search of packages/strategy-engine/src/search.ts as a recursion over the remaining
 * window, and what it guarantees for every test, monotone or not. A test may also throw.
 * The loop itself is StrategySearch.FindMinimumPassingAmount, proved equal to FindMinimum.
 */
module BinarySearch {
  import opened Wrappers

  type Test = int -> Result<bool>

  datatype Search = Search(amount: Option<int>, probes: seq<int>, complete: bool)

  function Mid(lo: int, hi: int): (mid: int)
    requires lo <= hi
    ensures lo <= mid <= hi
    ensures mid - lo <= (hi - lo + 1) / 2 && hi - mid <= (hi - lo + 1) / 2
  {
    lo + (hi - lo) / 2
  }

  /** The part of the search still to come, and what it adds to what was found so far. */
  function Bisect(test: Test, lo: int, hi: int, budget: int): Result<Search>
    decreases hi - lo + 1
  {
    if hi < lo then Ok(Search(None, [], true))
    else if budget <= 0 then Ok(Search(None, [], false))
    else
      var mid := Mid(lo, hi);
      var passed :- test(mid);
      if passed then
        var rest :- Bisect(test, lo, mid - 1, budget - 1);
        Ok(Continue(Some(mid), [mid], rest))
      else
        var rest :- Bisect(test, mid + 1, hi, budget - 1);
        Ok(Continue(None, [mid], rest))
  }

  function Continue(found: Option<int>, probes: seq<int>, rest: Search): Search {
    Search(if rest.amount.Some? then rest.amount else found, probes + rest.probes, rest.complete)
  }

  /** A window already empty, or no budget at all, is reported as complete without a probe. */
  function FindMinimum(test: Test, lo: int, hi: int, maxProbes: int): Result<Search> {
    if hi < lo || maxProbes <= 0 then Ok(Search(None, [], true))
    else Bisect(test, lo, hi, maxProbes)
  }

  // ---------- guarantees for every test ----------

  ghost predicate Distinct(s: seq<int>) {
    forall i, j :: 0 <= i < j < |s| ==> s[i] != s[j]
  }

  /** Probes are distinct, lie in the window and were all answered. */
  lemma {:induction false} ProbesDistinctAndInRange(test: Test, lo: int, hi: int, budget: int, s: Search)
    requires Bisect(test, lo, hi, budget) == Ok(s)
    ensures Distinct(s.probes)
    ensures forall p :: p in s.probes ==> lo <= p <= hi && test(p).Ok?
    decreases hi - lo + 1
  {
    hide Mid, Distinct;
    NoneDistinct();
    if lo <= hi && budget > 0 {
      var mid := Mid(lo, hi);
      var rest := (if test(mid).value then Bisect(test, lo, mid - 1, budget - 1)
                   else Bisect(test, mid + 1, hi, budget - 1)).value;
      if test(mid).value {
        ProbesDistinctAndInRange(test, lo, mid - 1, budget - 1, rest);
      } else {
        ProbesDistinctAndInRange(test, mid + 1, hi, budget - 1, rest);
      }
      assert s.probes == [mid] + rest.probes && mid !in rest.probes;
      OneMoreDistinct(mid, rest.probes);
    }
  }

  lemma NoneDistinct()
    ensures Distinct([])
  {
  }

  lemma OneMoreDistinct(p: int, probes: seq<int>)
    requires Distinct(probes) && p !in probes
    ensures Distinct([p] + probes)
  {
  }

  /** The budget is never exceeded, and an incomplete search has used all of it. */
  lemma {:induction false} ProbesWithinBudget(test: Test, lo: int, hi: int, budget: nat, s: Search)
    requires Bisect(test, lo, hi, budget) == Ok(s)
    ensures |s.probes| <= budget && (!s.complete ==> |s.probes| == budget)
    decreases hi - lo + 1
  {
    if lo <= hi && budget > 0 {
      var mid := Mid(lo, hi);
      if test(mid).value {
        ProbesWithinBudget(test, lo, mid - 1, budget - 1, Bisect(test, lo, mid - 1, budget - 1).value);
      } else {
        ProbesWithinBudget(test, mid + 1, hi, budget - 1, Bisect(test, mid + 1, hi, budget - 1).value);
      }
    }
  }

  /** The amount was probed and the test answered so. */
  ghost predicate Answered(s: Search, test: Test, amount: int, passed: bool) {
    amount in s.probes && test(amount) == Ok(passed)
  }

  lemma AnsweredInRest(found: Option<int>, mid: int, rest: Search, test: Test, amount: int, passed: bool)
    requires Answered(rest, test, amount, passed)
    ensures Answered(Continue(found, [mid], rest), test, amount, passed)
  {
  }

  /** An answer is a probed, passing amount of the window. */
  lemma {:induction false} AnswerPasses(test: Test, lo: int, hi: int, budget: int, s: Search)
    requires Bisect(test, lo, hi, budget) == Ok(s) && s.amount.Some?
    ensures lo <= s.amount.value <= hi && Answered(s, test, s.amount.value, true)
    decreases hi - lo + 1
  {
    var mid := Mid(lo, hi);
    if test(mid).value {
      var rest := Bisect(test, lo, mid - 1, budget - 1).value;
      if rest.amount.Some? {
        AnswerPasses(test, lo, mid - 1, budget - 1, rest);
        AnsweredInRest(Some(mid), mid, rest, test, rest.amount.value, true);
      }
    } else {
      var rest := Bisect(test, mid + 1, hi, budget - 1).value;
      AnswerPasses(test, mid + 1, hi, budget - 1, rest);
      AnsweredInRest(None, mid, rest, test, rest.amount.value, true);
    }
  }

  /** After a complete search, the amount just below the answer is outside the window or failed. */
  lemma {:induction false} BelowAnswerFailed(test: Test, lo: int, hi: int, budget: int, s: Search)
    requires Bisect(test, lo, hi, budget) == Ok(s) && s.amount.Some? && s.complete
    ensures s.amount.value == lo || test(s.amount.value - 1) == Ok(false)
    decreases hi - lo + 1, 1
  {
    var mid := Mid(lo, hi);
    if test(mid).value {
      BelowAnswerAfterPass(test, lo, hi, budget, s);
    } else {
      var rest := Bisect(test, mid + 1, hi, budget - 1).value;
      assert s == Continue(None, [mid], rest);
      BelowAnswerFailed(test, mid + 1, hi, budget - 1, rest);
    }
  }

  lemma {:induction false} BelowAnswerAfterPass(test: Test, lo: int, hi: int, budget: int, s: Search)
    requires lo <= hi && budget > 0 && test(Mid(lo, hi)) == Ok(true)
    requires Bisect(test, lo, hi, budget) == Ok(s) && s.amount.Some? && s.complete
    ensures s.amount.value == lo || test(s.amount.value - 1) == Ok(false)
    decreases hi - lo + 1, 0
  {
    var mid := Mid(lo, hi);
    var rest := Bisect(test, lo, mid - 1, budget - 1).value;
    assert s == Continue(Some(mid), [mid], rest);
    if rest.amount.Some? {
      BelowAnswerFailed(test, lo, mid - 1, budget - 1, rest);
    } else if lo < mid {
      CompleteNullProbedHigh(test, lo, mid - 1, budget - 1, rest);
    }
  }

  /** A complete search with no answer probed the top of the window, and it failed. */
  lemma {:induction false} CompleteNullProbedHigh(test: Test, lo: int, hi: int, budget: int, s: Search)
    requires lo <= hi
    requires Bisect(test, lo, hi, budget) == Ok(s) && s.amount.None? && s.complete
    ensures Answered(s, test, hi, false)
    decreases hi - lo + 1
  {
    var mid := Mid(lo, hi);
    if mid < hi {
      CompleteNullProbedHigh(test, mid + 1, hi, budget - 1, Bisect(test, mid + 1, hi, budget - 1).value);
    }
  }

  /**
   * For a window that is not empty, "complete with no answer" means the top failed on every
   * test if and only if the budget is positive: with no budget it is reported unprobed.
   */
  lemma NullMeansTopFailedIffBudget(lo: int, hi: int, maxProbes: int)
    requires lo <= hi
    ensures (forall test: Test ::
               (var r := FindMinimum(test, lo, hi, maxProbes); r.Ok? && r.value.complete && r.value.amount.None?)
                 ==> test(hi) == Ok(false))
       <==> maxProbes > 0
  {
    if maxProbes > 0 {
      forall test: Test |
        (var r := FindMinimum(test, lo, hi, maxProbes); r.Ok? && r.value.complete && r.value.amount.None?)
        ensures test(hi) == Ok(false)
      {
        CompleteNullProbedHigh(test, lo, hi, maxProbes, FindMinimum(test, lo, hi, maxProbes).value);
      }
    } else {
      var passing: Test := (a: int) => Ok(true);
      var r := FindMinimum(passing, lo, hi, maxProbes);
      assert r.Ok? && r.value.complete && r.value.amount.None? && passing(hi) != Ok(false);
    }
  }

  // ---------- the budget ----------

  /** width * 2^k. */
  function Doubled(width: nat, k: nat): (d: nat)
    ensures d >= width
  {
    if k == 0 then width else 2 * Doubled(width, k - 1)
  }

  /** The window before probe k: the interval whose amounts are still undecided. */
  ghost function WindowAfter(test: Test, lo: int, hi: int, k: nat): (w: (int, int))
    decreases k
  {
    if k == 0 || hi < lo || test(Mid(lo, hi)).Err? then (lo, hi)
    else if test(Mid(lo, hi)).value then WindowAfter(test, lo, Mid(lo, hi) - 1, k - 1)
    else WindowAfter(test, Mid(lo, hi) + 1, hi, k - 1)
  }

  /** k answered probes leave a window at most 2^k times smaller. */
  lemma {:induction false} WindowHalves(test: Test, lo: int, hi: int, k: nat)
    requires lo <= hi + 1
    requires Bisect(test, lo, hi, k).Ok?
    ensures var w := WindowAfter(test, lo, hi, k); w.0 <= w.1 + 1 && Doubled(w.1 - w.0 + 1, k) <= hi - lo + 1
    decreases k
  {
    hide Mid;
    if k > 0 {
      if hi < lo {
        DoubledZero(k);
      } else {
        MidHalves(lo, hi);
        if test(Mid(lo, hi)).value {
          WindowHalves(test, lo, Mid(lo, hi) - 1, k - 1);
        } else {
          WindowHalves(test, Mid(lo, hi) + 1, hi, k - 1);
        }
      }
    }
  }

  lemma MidHalves(lo: int, hi: int)
    requires lo <= hi
    ensures 2 * (Mid(lo, hi) - lo) <= hi - lo + 1 && 2 * (hi - Mid(lo, hi)) <= hi - lo + 1
  {
  }

  lemma DoubledZero(k: nat)
    ensures Doubled(0, k) == 0
  {
  }

  /** A budget of n probes finishes every window narrower than 2^n. */
  lemma {:induction false} BudgetSuffices(test: Test, lo: int, hi: int, budget: nat)
    requires hi - lo + 1 < Doubled(1, budget)
    requires Bisect(test, lo, hi, budget).Ok?
    ensures Bisect(test, lo, hi, budget).value.complete
    decreases budget
  {
    if lo <= hi {
      var mid := Mid(lo, hi);
      if test(mid).value {
        BudgetSuffices(test, lo, mid - 1, budget - 1);
      } else {
        BudgetSuffices(test, mid + 1, hi, budget - 1);
      }
    }
  }

  // ---------- monotone tests ----------

  /** Once an amount passes, every larger one up to hi passes too. */
  ghost predicate Monotone(test: Test, lo: int, hi: int) {
    forall a, b :: lo <= a <= b <= hi && test(a) == Ok(true) ==> test(b) == Ok(true)
  }

  /**
   * On a monotone test a complete answer is the least passing amount of the window, a complete
   * null means that none passes, and an incomplete answer bounds the least one from above.
   */
  lemma {:induction false} MonotoneAnswerIsGlobalMinimum(test: Test, lo: int, hi: int, budget: int, s: Search)
    requires Bisect(test, lo, hi, budget) == Ok(s) && Monotone(test, lo, hi)
    ensures s.complete && s.amount.Some? ==> forall a :: lo <= a < s.amount.value ==> test(a) != Ok(true)
    ensures s.complete && s.amount.None? ==> forall a :: lo <= a <= hi ==> test(a) != Ok(true)
    ensures s.amount.Some? ==> forall a :: s.amount.value <= a <= hi ==> test(a) == Ok(true)
  {
    if s.amount.Some? {
      AnswerPasses(test, lo, hi, budget, s);
      if s.complete {
        BelowAnswerFailed(test, lo, hi, budget, s);
      }
    } else if s.complete && lo <= hi {
      CompleteNullProbedHigh(test, lo, hi, budget, s);
    }
  }
}
