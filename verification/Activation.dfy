/** Selecting the matchers of one priority under the budgets of the passive lanes
    (bocchi/builtin_plugins/hooks/auth_activation.py:245-297, 1449-1499). */
module Activation {
  import opened Common
  import opened Choices

  type Budget = map<string, int>

  /** The matcher needs a unit of its lane's budget. */
  predicate Charged(d: Descriptor, c: Context) { Choose(d, c) == Select && d.throttleable }

  predicate Affordable(d: Descriptor, budget: Budget) { d.lane !in budget || 0 < budget[d.lane] }

  datatype Result = Result(selected: seq<nat>, certain: set<nat>, budget: Budget)

  function Consume(budget: Budget, lane: string): Budget {
    if lane in budget && 0 < budget[lane] then budget[lane := budget[lane] - 1] else budget
  }

  function SelectOne(r: Result, d: Descriptor, c: Context): Result {
    if Choose(d, c) == Skip then r
    else if Choose(d, c) == Certain then r.(selected := r.selected + [d.matcher], certain := r.certain + {d.matcher})
    else if d.throttleable && !Affordable(d, r.budget) then r
    else r.(selected := r.selected + [d.matcher],
            budget := if d.throttleable then Consume(r.budget, d.lane) else r.budget)
  }

  function SelectAll(ds: seq<Descriptor>, c: Context, budget: Budget): Result {
    if ds == [] then Result([], {}, budget)
    else SelectOne(SelectAll(ds[..|ds| - 1], c, budget), ds[|ds| - 1], c)
  }

  /** How many of the descriptors want a unit of the lane's budget. */
  function Demand(ds: seq<Descriptor>, c: Context, lane: string): nat {
    if ds == [] then 0
    else
      Demand(ds[..|ds| - 1], c, lane)
      + if Charged(ds[|ds| - 1], c) && ds[|ds| - 1].lane == lane then 1 else 0
  }

  /** What is left of a lane's budget depends only on how many asked for it, and it is never overdrawn. */
  lemma {:induction false} BudgetLeft(ds: seq<Descriptor>, c: Context, budget: Budget, lane: string)
    ensures lane in SelectAll(ds, c, budget).budget <==> lane in budget
    ensures lane in budget && 0 <= budget[lane] ==>
      SelectAll(ds, c, budget).budget[lane] == budget[lane] - Min(budget[lane], Demand(ds, c, lane)) >= 0
    ensures lane in budget && budget[lane] < 0 ==> SelectAll(ds, c, budget).budget[lane] == budget[lane]
  {
    if ds == [] {
    } else {
      BudgetLeft(ds[..|ds| - 1], c, budget, lane);
    }
  }

  /** Who gets in, by the first budget and the number of earlier demands alone. */
  predicate Admitted(ds: seq<Descriptor>, c: Context, budget: Budget, i: nat)
    requires i < |ds|
  {
    var d := ds[i];
    && Choose(d, c) != Skip
    && (Charged(d, c) && d.lane in budget ==> Demand(ds[..i], c, d.lane) < budget[d.lane])
  }

  function AdmittedMatchers(ds: seq<Descriptor>, c: Context, budget: Budget, n: nat): seq<nat>
    requires n <= |ds|
  {
    if n == 0 then []
    else AdmittedMatchers(ds, c, budget, n - 1) + if Admitted(ds, c, budget, n - 1) then [ds[n - 1].matcher] else []
  }

  lemma SelectPrefix(ds: seq<Descriptor>, c: Context, budget: Budget, i: nat)
    requires i < |ds|
    ensures SelectAll(ds[..i + 1], c, budget) == SelectOne(SelectAll(ds[..i], c, budget), ds[i], c)
  {
    assert ds[..i + 1] == ds[..i] + [ds[i]];
    SelectSnoc(ds[..i], ds[i], c, budget);
  }

  lemma OneAdmitted(r: Result, d: Descriptor, c: Context, admitted: bool)
    requires admitted <==> Choose(d, c) != Skip && (Charged(d, c) ==> Affordable(d, r.budget))
    ensures SelectOne(r, d, c).selected == r.selected + if admitted then [d.matcher] else []
  {
  }

  lemma AdmittedIff(ds: seq<Descriptor>, c: Context, budget: Budget, i: nat)
    requires i < |ds|
    ensures Admitted(ds, c, budget, i) <==>
            Choose(ds[i], c) != Skip
            && (Charged(ds[i], c) ==> Affordable(ds[i], SelectAll(ds[..i], c, budget).budget))
  {
    BudgetLeft(ds[..i], c, budget, ds[i].lane);
  }

  /** Main result: in every lane exactly the first matchers within the budget get in, in order, and every
      matcher outside the budgeted lanes that is not skipped gets in. */
  lemma {:induction false} SelectsAdmitted(ds: seq<Descriptor>, c: Context, budget: Budget, n: nat)
    requires n <= |ds|
    ensures SelectAll(ds[..n], c, budget).selected == AdmittedMatchers(ds, c, budget, n)
  {
    if n > 0 {
      SelectsAdmitted(ds, c, budget, n - 1);
      SelectPrefix(ds, c, budget, n - 1);
      AdmittedIff(ds, c, budget, n - 1);
      OneAdmitted(SelectAll(ds[..n - 1], c, budget), ds[n - 1], c, Admitted(ds, c, budget, n - 1));
      AdmittedNext(ds, c, budget, n - 1, Admitted(ds, c, budget, n - 1));
    }
  }

  lemma AdmittedNext(ds: seq<Descriptor>, c: Context, budget: Budget, n: nat, admitted: bool)
    requires n < |ds| && admitted == Admitted(ds, c, budget, n)
    ensures AdmittedMatchers(ds, c, budget, n + 1)
            == AdmittedMatchers(ds, c, budget, n) + if admitted then [ds[n].matcher] else []
  {
  }

  /** A certain matcher is among the descriptors. */
  ghost predicate SomeCertain(ds: seq<Descriptor>, c: Context, matcher: nat) {
    exists i :: 0 <= i < |ds| && ds[i].matcher == matcher && Choose(ds[i], c) == Certain
  }

  lemma SomeCertainLast(ds: seq<Descriptor>, d: Descriptor, c: Context, matcher: nat)
    ensures SomeCertain(ds + [d], c, matcher) <==>
            SomeCertain(ds, c, matcher) || (d.matcher == matcher && Choose(d, c) == Certain)
  {
    var more := ds + [d];
    if i :| 0 <= i < |ds| && ds[i].matcher == matcher && Choose(ds[i], c) == Certain {
      assert more[i] == ds[i];
    }
    if i :| 0 <= i < |more| && more[i].matcher == matcher && Choose(more[i], c) == Certain {
      assert i < |ds| ==> ds[i] == more[i];
    }
    assert more[|ds|] == d;
  }

  /** The certain ones are those whose choice is certain, whatever the budget. */
  lemma {:induction false} CertainAre(ds: seq<Descriptor>, c: Context, budget: Budget, matcher: nat)
    ensures matcher in SelectAll(ds, c, budget).certain <==> SomeCertain(ds, c, matcher)
  {
    if ds == [] {
    } else {
      var init, d := ds[..|ds| - 1], ds[|ds| - 1];
      assert ds == init + [d];
      CertainAre(init, c, budget, matcher);
      OneCertain(SelectAll(init, c, budget), d, c);
      SelectSnoc(init, d, c, budget);
      SomeCertainLast(init, d, c, matcher);
    }
  }

  lemma OneCertain(r: Result, d: Descriptor, c: Context)
    ensures SelectOne(r, d, c).certain == r.certain + if Choose(d, c) == Certain then {d.matcher} else {}
  {
  }

  /** The result with selections made before put in front. */
  function Behind(before: Result, r: Result): Result {
    Result(before.selected + r.selected, before.certain + r.certain, r.budget)
  }

  lemma SelectOneBehind(before: Result, r: Result, d: Descriptor, c: Context)
    ensures SelectOne(Behind(before, r), d, c) == Behind(before, SelectOne(r, d, c))
  {
    Associate(before.selected, r.selected, [d.matcher]);
    assert before.certain + (r.certain + {d.matcher}) == before.certain + r.certain + {d.matcher};
  }

  /** Priorities share one budget: selecting in two rounds is selecting from both together. */
  lemma {:induction false} RoundsShareBudget(a: seq<Descriptor>, b: seq<Descriptor>, c: Context, budget: Budget)
    ensures var first := SelectAll(a, c, budget);
      SelectAll(a + b, c, budget) == Behind(first, SelectAll(b, c, first.budget))
  {
    var first := SelectAll(a, c, budget);
    if b == [] {
      assert a + b == a;
    } else {
      var init, last := b[..|b| - 1], b[|b| - 1];
      RoundsShareBudget(a, init, c, budget);
      SelectOneBehind(first, SelectAll(init, c, first.budget), last, c);
      LastOfBoth(a, b, c, budget);
    }
  }

  lemma {:induction false} SelectSnoc(ds: seq<Descriptor>, d: Descriptor, c: Context, budget: Budget)
    ensures SelectAll(ds + [d], c, budget) == SelectOne(SelectAll(ds, c, budget), d, c)
  {
    assert (ds + [d])[..|ds|] == ds;
  }

  lemma {:induction false} LastOfBoth(a: seq<Descriptor>, b: seq<Descriptor>, c: Context, budget: Budget)
    requires b != []
    ensures SelectAll(a + b, c, budget) == SelectOne(SelectAll(a + b[..|b| - 1], c, budget), b[|b| - 1], c)
  {
    var init, last := b[..|b| - 1], b[|b| - 1];
    assert a + b == (a + init) + [last];
    SelectSnoc(a + init, last, c, budget);
  }

  // ---- The loop ----

  class HandlerActivationIndex {
    var budget: Budget

    constructor (limits: Budget)
      ensures budget == limits
    {
      budget := limits;
    }

    /** Take a unit of the lane's budget if it has one. */
    method ConsumeBroadPassiveBudget(d: Descriptor) returns (allowed: bool)
      modifies this
      ensures allowed == Affordable(d, old(budget)) && budget == Consume(old(budget), d.lane)
    {
      if d.lane !in budget {
        return true;
      }
      if budget[d.lane] <= 0 {
        return false;
      }
      budget := budget[d.lane := budget[d.lane] - 1];
      return true;
    }

    method SelectPriority(ds: seq<Descriptor>, c: Context) returns (selected: seq<nat>, certain: set<nat>)
      modifies this
      ensures Result(selected, certain, budget) == SelectAll(ds, c, old(budget))
      ensures selected == AdmittedMatchers(ds, c, old(budget), |ds|)
      ensures forall matcher :: matcher in certain <==> SomeCertain(ds, c, matcher)
    {
      ghost var limits := budget;
      selected, certain := [], {};
      var i := 0;
      while i < |ds|
        invariant 0 <= i <= |ds|
        invariant Result(selected, certain, budget) == SelectAll(ds[..i], c, limits)
      {
        assert ds[..i + 1][..i] == ds[..i];
        var d := ds[i];
        i := i + 1;
        var choice := SelectDescriptor(d, c);
        if choice == Skip {
          continue;
        }
        if choice == Certain {
          selected, certain := selected + [d.matcher], certain + {d.matcher};
          continue;
        }
        if d.throttleable {
          var allowed := ConsumeBroadPassiveBudget(d);
          if !allowed {
            continue;
          }
        }
        selected := selected + [d.matcher];
      }
      assert ds[..i] == ds;
      SelectsAdmitted(ds, c, limits, |ds|);
      assert ds[..|ds|] == ds;
      forall matcher ensures matcher in certain <==> SomeCertain(ds, c, matcher) {
        CertainAre(ds, c, limits, matcher);
      }
    }
  }
}
