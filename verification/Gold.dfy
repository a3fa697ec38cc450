/** Sums of gold over lists and wallets, and the rounding of amounts. */
module Gold {

  type Id = string

  /** What a new account starts with (bocchi/models/user_console.py:59). */
  const STARTING_GOLD := 100

  /** int() truncates toward zero. */
  function Truncate(x: real): int { if 0.0 <= x then x.Floor else -((-x).Floor) }

  function Sum(xs: seq<int>): int {
    if xs == [] then 0 else Sum(xs[..|xs| - 1]) + xs[|xs| - 1]
  }

  lemma {:induction false} SumConcat(a: seq<int>, b: seq<int>)
    ensures Sum(a + b) == Sum(a) + Sum(b)
  {
    if b == [] {
      assert a + b == a;
    } else {
      assert (a + b)[..|a + b| - 1] == a + b[..|b| - 1];
      SumConcat(a, b[..|b| - 1]);
    }
  }

  lemma SumSnoc(xs: seq<int>, x: int)
    ensures Sum(xs + [x]) == Sum(xs) + x
  {
  }

  lemma SumUpdate(xs: seq<int>, i: nat, x: int)
    requires i < |xs|
    ensures Sum(xs[i := x]) == Sum(xs) - xs[i] + x
  {
    var one := [xs[i]];
    assert xs == xs[..i] + one + xs[i + 1..];
    assert xs[i := x] == xs[..i] + [x] + xs[i + 1..];
    SumConcat(xs[..i] + one, xs[i + 1..]);
    SumConcat(xs[..i], one);
    SumConcat(xs[..i] + [x], xs[i + 1..]);
    SumConcat(xs[..i], [x]);
    assert [x][..0] == [] && one[..0] == [];
  }

  /** All the gold in a wallet table. */
  ghost function Total(wallet: map<Id, int>): int {
    if wallet == map[] then 0
    else
      var id :| id in wallet;
      wallet[id] + Total(wallet - {id})
  }

  lemma {:induction false} TotalWithout(wallet: map<Id, int>, id: Id)
    requires id in wallet
    ensures Total(wallet) == wallet[id] + Total(wallet - {id})
    decreases |wallet|
  {
    var first :| first in wallet && Total(wallet) == wallet[first] + Total(wallet - {first});
    if first != id {
      TotalWithout(wallet - {first}, id);
      TotalWithout(wallet - {id}, first);
      assert wallet - {first} - {id} == wallet - {id} - {first};
    }
  }

  lemma TotalUpdate(wallet: map<Id, int>, id: Id, gold: int)
    ensures Total(wallet[id := gold]) == Total(wallet) - (if id in wallet then wallet[id] else 0) + gold
  {
    TotalWithout(wallet[id := gold], id);
    assert wallet[id := gold] - {id} == wallet - {id};
    if id in wallet {
      TotalWithout(wallet, id);
    } else {
      assert wallet - {id} == wallet;
    }
  }

  /** The account's gold; reading an account creates it. */
  function GoldOf(wallet: map<Id, int>, id: Id): int {
    if id in wallet then wallet[id] else STARTING_GOLD
  }

  function Credit(wallet: map<Id, int>, id: Id, gold: int): map<Id, int> {
    wallet[id := GoldOf(wallet, id) + gold]
  }

  /** The gold that comes into being when the account is touched for the first time. */
  function OpeningGold(wallet: map<Id, int>, id: Id): int {
    if id in wallet then 0 else STARTING_GOLD
  }

  lemma TotalCredit(wallet: map<Id, int>, id: Id, gold: int)
    ensures Total(Credit(wallet, id, gold)) == Total(wallet) + OpeningGold(wallet, id) + gold
  {
    TotalUpdate(wallet, id, GoldOf(wallet, id) + gold);
  }
}
