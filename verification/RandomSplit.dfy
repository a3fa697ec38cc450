/** Splitting a red bag into random shares (bocchi/builtin_plugins/gold_redbag/config.py:348-371).
    Weights are real numbers; rounding of floating-point numbers is not modelled. */
module RandomSplit {
  import opened Common
  import opened Gold

  function SumReal(ws: seq<real>): real { if ws == [] then 0.0 else ws[0] + SumReal(ws[1..]) }

  function Portion(weight: real, total: real, amount: int): real
    requires total != 0.0
  {
    weight / total * amount as real
  }

  /** The shares for the remaining weights, `given` being the gold in the shares before them. */
  function SharesFrom(amount: int, total: real, weights: seq<real>, given: int): seq<int>
    requires given < amount && 1 < |weights| ==> total != 0.0
    requires total == 0.0 ==> |weights| <= 1 || amount <= given
    decreases |weights|
  {
    if |weights| <= 1 then [amount - given]
    else
      var share := if amount <= given then 0 else Truncate(Portion(weights[0], total, amount));
      [share] + SharesFrom(amount, total, weights[1..], given + share)
  }

  /** Division by the sum of the weights is attempted only for a positive amount and several shares. */
  predicate Splittable(amount: int, weights: seq<real>) {
    && (forall i | 0 <= i < |weights| :: 0.0 <= weights[i])
    && (1 < |weights| && 0 < amount ==> SumReal(weights) != 0.0)
  }

  function Shares(amount: int, weights: seq<real>): seq<int>
    requires Splittable(amount, weights)
  {
    SharesFrom(amount, SumReal(weights), weights, 0)
  }

  lemma {:induction false} SharesFromSum(amount: int, total: real, weights: seq<real>, given: int)
    requires total == 0.0 ==> |weights| <= 1 || amount <= given
    ensures Sum(SharesFrom(amount, total, weights, given)) == amount - given
    ensures |SharesFrom(amount, total, weights, given)| == if weights == [] then 1 else |weights|
    decreases |weights|
  {
    if |weights| <= 1 {
      assert [amount - given][..0] == [];
    } else {
      var share := if amount <= given then 0 else Truncate(Portion(weights[0], total, amount));
      SharesFromSum(amount, total, weights[1..], given + share);
      SumConcat([share], SharesFrom(amount, total, weights[1..], given + share));
      assert [share][..0] == [];
    }
  }

  lemma PortionSplits(a: real, b: real, total: real, amount: int)
    requires total != 0.0
    ensures Portion(a + b, total, amount) == Portion(a, total, amount) + Portion(b, total, amount)
  {
  }

  lemma PortionNonNegative(w: real, total: real, amount: int)
    requires 0.0 <= w && 0.0 < total && 0 <= amount
    ensures 0.0 <= Portion(w, total, amount)
  {
  }

  lemma {:induction false} SumRealNonNegative(ws: seq<real>)
    requires forall i | 0 <= i < |ws| :: 0.0 <= ws[i]
    ensures 0.0 <= SumReal(ws)
  {
    if ws == [] {
    } else {
      SumRealNonNegative(ws[1..]);
    }
  }

  /** As long as the shares given so far leave the remaining portion, every share is non-negative. */
  lemma {:induction false} SharesFromNonNegative(amount: int, total: real, weights: seq<real>, given: int)
    requires 0 <= amount && 0.0 < total
    requires forall i | 0 <= i < |weights| :: 0.0 <= weights[i]
    requires given as real + Portion(SumReal(weights), total, amount) <= amount as real
    ensures forall x | x in SharesFrom(amount, total, weights, given) :: 0 <= x
    decreases |weights|
  {
    SumRealNonNegative(weights);
    if |weights| <= 1 {
      PortionNonNegative(SumReal(weights), total, amount);
    } else {
      PortionSplits(weights[0], SumReal(weights[1..]), total, amount);
      PortionNonNegative(weights[0], total, amount);
      var share := if amount <= given then 0 else Truncate(Portion(weights[0], total, amount));
      SharesFromNonNegative(amount, total, weights[1..], given + share);
    }
  }

  /** A share is its portion without what is behind the point. */
  predicate Cut(share: int, portion: real) { share as real <= portion < share as real + 1.0 }

  lemma CutOf(amount: int, given: int, portion: real)
    requires 0.0 <= portion && given as real + portion <= amount as real
    ensures Cut(if amount <= given then 0 else Truncate(portion), portion)
  {
  }

  lemma {:induction false} SharesFromPortions(amount: int, total: real, weights: seq<real>, given: int, k: nat)
    requires 0 <= amount && 0.0 < total && k + 1 < |weights|
    requires forall i | 0 <= i < |weights| :: 0.0 <= weights[i]
    requires given as real + Portion(SumReal(weights), total, amount) <= amount as real
    ensures k < |SharesFrom(amount, total, weights, given)|
    ensures Cut(SharesFrom(amount, total, weights, given)[k], Portion(weights[k], total, amount))
    decreases |weights|
  {
    var rest, portion := weights[1..], Portion(weights[0], total, amount);
    SumRealNonNegative(rest);
    PortionSplits(weights[0], SumReal(rest), total, amount);
    PortionNonNegative(weights[0], total, amount);
    PortionNonNegative(SumReal(rest), total, amount);
    CutOf(amount, given, portion);
    if 0 < k {
      var share := if amount <= given then 0 else Truncate(portion);
      SharesFromPortions(amount, total, rest, given + share, k - 1);
      assert rest[k - 1] == weights[k];
    }
  }

  /** Every share before the last is the whole part of the amount times its weight's part of all weights; of an amount
      that is not positive they are nothing. */
  lemma SharesArePortions(amount: int, weights: seq<real>, k: nat)
    requires Splittable(amount, weights) && k + 1 < |weights|
    ensures k < |Shares(amount, weights)|
    ensures 0 < amount ==>
      && SumReal(weights) != 0.0
      && var portion, share := weights[k] / SumReal(weights) * amount as real, Shares(amount, weights)[k];
         share as real <= portion < share as real + 1.0
    ensures amount <= 0 ==> Shares(amount, weights)[k] == 0
  {
    if 0 < amount {
      PositiveShares(amount, weights, SumReal(weights), k);
    } else {
      NothingToShare(amount, SumReal(weights), weights, 0, k);
    }
  }

  lemma PositiveShares(amount: int, weights: seq<real>, total: real, k: nat)
    requires Splittable(amount, weights) && k + 1 < |weights| && 0 < amount && total == SumReal(weights)
    ensures total != 0.0 && k < |Shares(amount, weights)|
    ensures Cut(Shares(amount, weights)[k], Portion(weights[k], total, amount))
  {
    SumRealNonNegative(weights);
    WholePortion(total, amount);
    SharesFromPortions(amount, total, weights, 0, k);
  }

  /** The sum of weights is nothing for none, and adds up. */
  lemma {:induction false} SumRealAdds(a: seq<real>, b: seq<real>)
    ensures SumReal([]) == 0.0 && SumReal(a + b) == SumReal(a) + SumReal(b)
    ensures |a| == 1 ==> SumReal(a) == a[0]
  {
    if a == [] {
      assert a + b == b;
    } else {
      SumRealAdds(a[1..], b);
      assert (a + b)[1..] == a[1..] + b;
    }
  }

  /** Only several shares of a positive amount, all of whose weights are nothing, cannot be split. */
  lemma SplittableIff(amount: int, weights: seq<real>)
    requires forall i | 0 <= i < |weights| :: 0.0 <= weights[i]
    ensures Splittable(amount, weights) <==>
            amount <= 0 || |weights| <= 1 || exists i :: 0 <= i < |weights| && weights[i] != 0.0
  {
    SumIsNothingIff(weights);
  }

  lemma {:induction false} SumIsNothingIff(weights: seq<real>)
    requires forall i | 0 <= i < |weights| :: 0.0 <= weights[i]
    ensures SumReal(weights) == 0.0 <==> forall i | 0 <= i < |weights| :: weights[i] == 0.0
  {
    if weights == [] {
    } else {
      SumIsNothingIff(weights[1..]);
      SumRealNonNegative(weights[1..]);
      assert forall i | 1 <= i < |weights| :: weights[i] == weights[1..][i - 1];
    }
  }

  lemma WholePortion(total: real, amount: int)
    requires 0.0 < total
    ensures Portion(total, total, amount) == amount as real
  {
  }

  lemma {:induction false} NothingToShare(amount: int, total: real, weights: seq<real>, given: int, k: nat)
    requires amount <= given && k + 1 < |weights|
    ensures k < |SharesFrom(amount, total, weights, given)| && SharesFrom(amount, total, weights, given)[k] == 0
    decreases |weights|
  {
    if 0 < k {
      NothingToShare(amount, total, weights[1..], given, k - 1);
    }
  }

  // ---- Shuffling ----

  function Swap(xs: seq<int>, i: nat, j: nat): seq<int>
    requires i < |xs| && j < |xs|
  {
    xs[i := xs[j]][j := xs[i]]
  }

  /** random.shuffle: from the last position down, swap with a picked position not beyond it. */
  function Shuffle(xs: seq<int>, i: nat, picks: seq<nat>): seq<int>
    requires i <= |xs| && i <= |picks| && forall k | 0 <= k < |picks| :: picks[k] <= k
    decreases i
  {
    if i <= 1 then xs else Shuffle(Swap(xs, i - 1, picks[i - 1]), i - 1, picks)
  }

  lemma {:induction false} ShuffleKeeps(xs: seq<int>, i: nat, picks: seq<nat>)
    requires i <= |xs| && i <= |picks| && forall k | 0 <= k < |picks| :: picks[k] <= k
    ensures multiset(Shuffle(xs, i, picks)) == multiset(xs)
    ensures Sum(Shuffle(xs, i, picks)) == Sum(xs) && |Shuffle(xs, i, picks)| == |xs|
    decreases i
  {
    if i > 1 {
      var j := picks[i - 1];
      SumUpdate(xs, i - 1, xs[j]);
      SumUpdate(xs[i - 1 := xs[j]], j, xs[i - 1]);
      ShuffleKeeps(Swap(xs, i - 1, j), i - 1, picks);
    }
  }

  /** What a new red bag's share list can be. */
  ghost predicate SplitsInto(amount: int, num: nat, shares: seq<int>) {
    |shares| == num && Sum(shares) == amount && (0 <= amount ==> forall x | x in shares :: 0 <= x)
  }

  function ShareCount(weights: seq<real>): nat { if weights == [] then 1 else |weights| }

  lemma SharesNonNegative(amount: int, weights: seq<real>)
    requires Splittable(amount, weights) && 0 <= amount
    ensures forall x | x in Shares(amount, weights) :: 0 <= x
  {
    var total := SumReal(weights);
    SumRealNonNegative(weights);
    if 0.0 < total {
      assert total / total == 1.0;
      SharesFromNonNegative(amount, total, weights, 0);
    } else if 1 < |weights| {
      ZeroShares(amount, total, weights);
    }
  }

  lemma {:induction false} ZeroShares(amount: int, total: real, weights: seq<real>)
    requires amount == 0
    ensures forall x | x in SharesFrom(amount, total, weights, 0) :: x == 0
    decreases |weights|
  {
    if 1 < |weights| {
      ZeroShares(amount, total, weights[1..]);
    }
  }

  lemma SharesSplit(amount: int, weights: seq<real>)
    requires Splittable(amount, weights)
    ensures SplitsInto(amount, ShareCount(weights), Shares(amount, weights))
  {
    SharesFromSum(amount, SumReal(weights), weights, 0);
    if 0 <= amount {
      SharesNonNegative(amount, weights);
    }
  }

  lemma ReorderedSplit(amount: int, num: nat, shares: seq<int>, picks: seq<nat>)
    requires SplitsInto(amount, num, shares) && num <= |picks|
    requires forall k | 0 <= k < |picks| :: picks[k] <= k
    ensures SplitsInto(amount, num, Shuffle(shares, num, picks))
    ensures multiset(Shuffle(shares, num, picks)) == multiset(shares)
  {
    var shuffled := Shuffle(shares, num, picks);
    ShuffleKeeps(shares, num, picks);
    forall x | x in shuffled && 0 <= amount ensures 0 <= x {
      assert x in multiset(shuffled);
      assert x in shares;
    }
  }

  /** Main result: for any weights the split has exactly the requested number of shares (one when none
      is requested), they add up to the amount, none is negative unless the amount is, and shuffling
      permutes them. */
  lemma SplitIsFair(amount: int, weights: seq<real>, picks: seq<nat>)
    requires Splittable(amount, weights)
    requires ShareCount(weights) <= |picks| && forall k | 0 <= k < |picks| :: picks[k] <= k
    ensures |Shares(amount, weights)| == ShareCount(weights)
    ensures SplitsInto(amount, ShareCount(weights), Shuffle(Shares(amount, weights), ShareCount(weights), picks))
    ensures multiset(Shuffle(Shares(amount, weights), ShareCount(weights), picks)) == multiset(Shares(amount, weights))
  {
    SharesSplit(amount, weights);
    ReorderedSplit(amount, ShareCount(weights), Shares(amount, weights), picks);
  }

  lemma NextShare(amount: int, total: real, weights: seq<real>, i: nat, given: int, share: int, before: seq<int>)
    requires i + 1 < |weights|
    requires total == 0.0 ==> amount <= given
    requires share == if amount <= given then 0 else Truncate(Portion(weights[i], total, amount))
    ensures total == 0.0 ==> amount <= given + share
    ensures before + SharesFrom(amount, total, weights[i..], given)
            == before + [share] + SharesFrom(amount, total, weights[i + 1..], given + share)
  {
  }

  lemma LastShare(amount: int, total: real, weights: seq<real>, given: int)
    requires |weights| <= 1
    ensures SharesFrom(amount, total, weights, given) == [amount - given]
  {
  }

  /** Fill the list share by share; the last one gets the rest. */
  method FillShares(amount: int, randSum: real, weights: seq<real>) returns (redBagList: seq<int>)
    requires randSum == 0.0 ==> |weights| <= 1 || amount <= 0
    ensures redBagList == SharesFrom(amount, randSum, weights, 0)
  {
    var amountSum;
    redBagList, amountSum := FillFirst(amount, randSum, weights);
    LastShare(amount, randSum, weights[|redBagList|..], amountSum);
    redBagList := redBagList + [amount - Sum(redBagList)];
  }

  /** The loop: all shares but the last. */
  method FillFirst(amount: int, randSum: real, weights: seq<real>) returns (redBagList: seq<int>, amountSum: int)
    requires randSum == 0.0 ==> |weights| <= 1 || amount <= 0
    ensures |redBagList| == (if weights == [] then 0 else |weights| - 1) && Sum(redBagList) == amountSum
    ensures SharesFrom(amount, randSum, weights, 0)
            == redBagList + SharesFrom(amount, randSum, weights[|redBagList|..], amountSum)
  {
    amountSum := 0;
    redBagList := [];
    assert weights[0..] == weights;
    while |redBagList| < |weights| - 1
      invariant |redBagList| <= |weights| && (weights != [] ==> |redBagList| <= |weights| - 1)
      invariant Sum(redBagList) == amountSum
      invariant randSum == 0.0 ==> |weights| - |redBagList| <= 1 || amount <= amountSum
      invariant SharesFrom(amount, randSum, weights, 0)
                == redBagList + SharesFrom(amount, randSum, weights[|redBagList|..], amountSum)
      decreases |weights| - |redBagList|
    {
      var share := 0;
      if amountSum < amount {
        share := Truncate(Portion(weights[|redBagList|], randSum, amount));
      }
      NextShare(amount, randSum, weights, |redBagList|, amountSum, share, redBagList);
      SumSnoc(redBagList, share);
      redBagList := redBagList + [share];
      amountSum := amountSum + share;
    }
  }

  /** Reorder the list in place. */
  method ShuffleList(xs: seq<int>, picks: seq<nat>) returns (shuffled: seq<int>)
    requires |xs| <= |picks| && forall k | 0 <= k < |picks| :: picks[k] <= k
    ensures shuffled == Shuffle(xs, |xs|, picks)
  {
    shuffled := xs;
    var i := |xs|;
    while 1 < i
      invariant 0 <= i <= |shuffled| == |xs|
      invariant Shuffle(shuffled, i, picks) == Shuffle(xs, |xs|, picks)
    {
      i := i - 1;
      var j := picks[i];
      shuffled := shuffled[i := shuffled[j]][j := shuffled[i]];
    }
  }

  /** A new red bag's share list, for the weights and the picks the random source gives. */
  method RandomRedBag(amount: int, weights: seq<real>, picks: seq<nat>) returns (redBagList: seq<int>)
    requires Splittable(amount, weights)
    requires ShareCount(weights) <= |picks| && forall k | 0 <= k < |picks| :: picks[k] <= k
    ensures SplitsInto(amount, ShareCount(weights), redBagList)
    ensures multiset(redBagList) == multiset(Shares(amount, weights))
  {
    var filled := FillShares(amount, SumReal(weights), weights);
    SplitIsFair(amount, weights, picks);
    redBagList := ShuffleList(filled, picks);
  }
}
