/** The terms of the bank (bocchi/builtin_plugins/bocchi_bank/data_source.py:32-88, 393-426): which deposits and
    withdrawals are accepted and what they move, and how much interest is paid. */
module BankTerms {
  import opened Common
  import opened Gold
  import opened Bank

  // ---- What is accepted, and what it moves ----

  /** A positive amount that the wallet covers, within the user's limit and the number of deposits a day. */
  predicate DepositAccepted(s: State, user: Id, amount: int, cap: int, maxDaily: int) {
    && 0 < amount <= GoldOf(s.wallet, user)
    && Balance(s.rows, user) + amount <= cap
    && PendingCount(s.logs, user) < maxDaily
  }

  /** Exactly an accepted deposit moves its amount from the wallet to the bank and is logged as pending, with its rate
      and hours; nobody else's gold moves. */
  lemma DepositMovesIff(s: State, user: Id, amount: int, cap: int, maxDaily: int, rate: real, hours: int, other: Id)
    ensures var t, moved := Next(s, Deposit(user, amount, cap, maxDaily, rate, hours)),
                            if DepositAccepted(s, user, amount, cap, maxDaily) && other == user then amount else 0;
      && GoldOf(t.wallet, other) == GoldOf(s.wallet, other) - moved
      && Balance(t.rows, other) == Balance(s.rows, other) + moved
      && RateOf(t.rows, other) == RateOf(s.rows, other)
    ensures Next(s, Deposit(user, amount, cap, maxDaily, rate, hours)).logs ==
            s.logs + if DepositAccepted(s, user, amount, cap, maxDaily)
                     then [Log(user, amount, rate, DEPOSIT, false, hours)] else []
  {
    if DepositAccepted(s, user, amount, cap, maxDaily) {
      AddToRows(s.rows, user, amount, other);
    } else {
      AddToRows(s.rows, user, 0, other);
      assert s.logs + [] == s.logs;
    }
  }

  /** A positive amount of which nothing is locked. */
  predicate WithdrawAccepted(s: State, user: Id, amount: int) {
    0 < amount <= Balance(s.rows, user) - Locked(s.logs, user)
  }

  /** Exactly an accepted withdrawal moves its amount from the bank to the wallet and is logged. */
  lemma WithdrawMovesIff(s: State, user: Id, amount: int, other: Id)
    ensures var t, moved := Next(s, Withdraw(user, amount)),
                            if WithdrawAccepted(s, user, amount) && other == user then amount else 0;
      && GoldOf(t.wallet, other) == GoldOf(s.wallet, other) + moved
      && Balance(t.rows, other) == Balance(s.rows, other) - moved
      && RateOf(t.rows, other) == RateOf(s.rows, other)
    ensures Next(s, Withdraw(user, amount)).logs ==
            s.logs + if WithdrawAccepted(s, user, amount) then [Log(user, amount, 0.0, WITHDRAW, false, 0)] else []
  {
    if WithdrawAccepted(s, user, amount) {
      AddToRows(s.rows, user, -amount, other);
    } else {
      AddToRows(s.rows, user, 0, other);
      assert s.logs + [] == s.logs;
    }
  }

  /** What the event moves into the user's account. */
  function MovedIn(s: State, ev: Event, user: Id): int {
    match ev
    case Deposit(owner, amount, cap, maxDaily, _, _) =>
      if owner == user && DepositAccepted(s, owner, amount, cap, maxDaily) then amount else 0
    case Withdraw(owner, amount) => if owner == user && WithdrawAccepted(s, owner, amount) then -amount else 0
    case Settlement => 0
  }

  function AllMovedIn(s: State, evs: seq<Event>, user: Id): int
    decreases |evs|
  {
    if evs == [] then 0 else MovedIn(s, evs[0], user) + AllMovedIn(Next(s, evs[0]), evs[1..], user)
  }

  lemma {:induction false} RunMoves(s: State, evs: seq<Event>, user: Id)
    ensures Balance(Run(s, evs).rows, user) == Balance(s.rows, user) + AllMovedIn(s, evs, user)
    ensures RateOf(Run(s, evs).rows, user) == RateOf(s.rows, user)
    decreases |evs|
  {
    if evs == [] {
    } else {
      match evs[0] {
        case Deposit(owner, amount, cap, maxDaily, rate, hours) =>
          DepositMovesIff(s, owner, amount, cap, maxDaily, rate, hours, user);
        case Withdraw(owner, amount) => WithdrawMovesIff(s, owner, amount, user);
        case Settlement =>
      }
      RunMoves(Next(s, evs[0]), evs[1..], user);
    }
  }

  /** Main result: over every run a user's balance is what accepted deposits brought, less what accepted withdrawals
      took, and the account bears the default rate. */
  lemma BalanceIsWhatWasMoved(evs: seq<Event>, user: Id)
    ensures Balance(Run(INITIAL, evs).rows, user) == AllMovedIn(INITIAL, evs, user)
    ensures RateOf(Run(INITIAL, evs).rows, user) == 0.0005
  {
    RunMoves(INITIAL, evs, user);
  }

  /** Who has no wallet, or nothing in the bank, is left alone by a settlement. */
  lemma NoWalletNoSettlement(s: State, user: Id)
    requires DistinctRows(s.rows) && (user !in s.wallet || Balance(s.rows, user) <= 0)
    ensures GoldOf(Settle(s).wallet, user) == GoldOf(s.wallet, user)
    ensures Locked(Settle(s).logs, user) == Locked(s.logs, user)
  {
    SettlementPaysDue(s, user);
    StaysLocked(s, s.logs, user);
    LogConcat(Completed(s, s.logs), Created(s), user);
  }

  lemma {:induction false} StaysLocked(s: State, logs: seq<Log>, user: Id)
    requires user !in s.wallet || Balance(s.rows, user) <= 0
    ensures Locked(Completed(s, logs), user) == Locked(logs, user)
  {
    if logs == [] {
    } else {
      var init := logs[..|logs| - 1];
      StaysLocked(s, init, user);
      LogSnoc(Completed(s, init), Completed(s, logs)[|Completed(s, init)|], user);
    }
  }

  lemma RowAfter(rows: seq<Account>, user: Id, amount: int)
    ensures HasRow(AddTo(rows, user, amount), user)
  {
    AddToRows(rows, user, amount, user);
  }

  lemma DepositOpens(s: State, user: Id, amount: int, cap: int, maxDaily: int, rate: real, hours: int)
    requires 0 < amount
    ensures var t := Next(s, Deposit(user, amount, cap, maxDaily, rate, hours));
      user in t.wallet && HasRow(t.rows, user)
  {
    RowAfter(s.rows, user, if DepositAccepted(s, user, amount, cap, maxDaily) then amount else 0);
  }

  lemma WithdrawOpens(s: State, user: Id, amount: int)
    requires 0 < amount
    ensures HasRow(Next(s, Withdraw(user, amount)).rows, user)
  {
    RowAfter(s.rows, user, if WithdrawAccepted(s, user, amount) then -amount else 0);
  }

  /** A check of a positive amount gives the user an account, and for a deposit a wallet, if there was none. */
  lemma ChecksOpenAccounts(s: State, user: Id, amount: int, cap: int, maxDaily: int, rate: real, hours: int)
    requires 0 < amount
    ensures var t := Next(s, Deposit(user, amount, cap, maxDaily, rate, hours));
      user in t.wallet && HasRow(t.rows, user)
    ensures HasRow(Next(s, Withdraw(user, amount)).rows, user)
  {
    DepositOpens(s, user, amount, cap, maxDaily, rate, hours);
    WithdrawOpens(s, user, amount);
  }

  /** And an amount that is not positive changes nothing. */
  lemma NothingForNothing(s: State, user: Id, amount: int, cap: int, maxDaily: int, rate: real, hours: int)
    requires amount <= 0
    ensures Next(s, Deposit(user, amount, cap, maxDaily, rate, hours)) == s && Next(s, Withdraw(user, amount)) == s
  {
  }

  // ---- How much interest ----

  /** The whole number nearest to x on the side of zero. */
  predicate Truncates(gold: int, x: real) {
    if 0.0 <= x then gold as real <= x < gold as real + 1.0 else gold as real - 1.0 < x <= gold as real
  }

  lemma TruncateTruncates(x: real)
    ensures Truncates(Truncate(x), x)
  {
  }

  /** On free gold: amount times rate, without what is behind the point. */
  lemma FreeInterestIs(free: int, rate: real)
    ensures Truncates(FreeInterest(free, rate), free as real * rate)
  {
    TruncateTruncates(free as real * rate);
  }

  /** On a deposit: amount times rate times hours in the same way, but one gold for what would be nothing. */
  lemma DepositInterestIs(log: Log)
    ensures var x := log.amount as real * log.rate * log.hours as real;
      if -1.0 < x < 1.0 then DepositInterest(log) == 1 else Truncates(DepositInterest(log), x)
  {
    var x := log.amount as real * log.rate * log.hours as real;
    var gold := Truncate(x);
    TruncateTruncates(x);
    assert DepositInterest(log) == if gold == 0 then 1 else gold;
    ZeroIffSmall(gold, x);
  }

  lemma ZeroIffSmall(gold: int, x: real)
    requires Truncates(gold, x)
    ensures gold == 0 <==> -1.0 < x < 1.0
  {
    if 0 < gold {
      assert 1.0 <= gold as real;
    } else if gold < 0 {
      assert gold as real <= -1.0;
    }
  }

  /** One entry for every row with free gold, of a user with a wallet, at the row's rate. */
  lemma {:induction false} RowIsLogged(s: State, rows: seq<Account>, k: nat)
    requires k < |rows| && 0 < rows[k].amount && rows[k].user in s.wallet
    requires rows[k].amount != Locked(s.logs, rows[k].user)
    ensures Log(rows[k].user, FreeInterest(rows[k].amount - Locked(s.logs, rows[k].user), rows[k].rate), rows[k].rate,
                INTEREST, true, 0) in BaseLogs(s, rows)
  {
    if k < |rows| - 1 {
      RowIsLogged(s, rows[..|rows| - 1], k);
    }
  }

  /** One entry for every deposit, in order and at its own rate. */
  lemma {:induction false} DepositsAreLogged(logs: seq<Log>, k: nat)
    requires k < |logs|
    ensures |InterestOn(logs)| == |logs|
    ensures InterestOn(logs)[k] == Log(logs[k].user, DepositInterest(logs[k]), logs[k].rate, INTEREST, true, 0)
  {
    if k < |logs| - 1 {
      DepositsAreLogged(logs[..|logs| - 1], k);
    } else if |logs| > 1 {
      DepositsAreLogged(logs[..|logs| - 1], 0);
    }
  }

  /** Settling keeps every entry and its order, but for the flag of the deposits it completes. */
  lemma {:induction false} CompletingKeepsEntries(s: State, logs: seq<Log>, k: nat)
    requires k < |logs|
    ensures |Completed(s, logs)| == |logs|
    ensures Completed(s, logs)[k] == logs[k].(completed := logs[k].completed ||
                                                          (PendingOf(logs[k], logs[k].user)
                                                           && Eligible(s, logs[k].user)))
  {
    if k < |logs| - 1 {
      CompletingKeepsEntries(s, logs[..|logs| - 1], k);
    } else if |logs| > 1 {
      CompletingKeepsEntries(s, logs[..|logs| - 1], 0);
    }
  }
}
