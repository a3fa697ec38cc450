/** The bank (bocchi/builtin_plugins/bocchi_bank/data_source.py:33-88, 303-336, 376-431 and
    bocchi/models/bocchi_bank.py:34-79). A check and the operation behind it are one step. The bank's table
    is a list of rows, one for each user; rates are real numbers. */
module Bank {
  import opened Common
  import opened Gold

  datatype Kind = DEPOSIT | WITHDRAW | INTEREST

  datatype Log = Log(user: Id, amount: int, rate: real, kind: Kind, completed: bool, hours: int)

  datatype Account = Account(user: Id, amount: int, rate: real)

  datatype State = State(wallet: map<Id, int>, rows: seq<Account>, logs: seq<Log>)

  const DEFAULT_RATE := 0.0005

  // ---- The table ----

  function Balance(rows: seq<Account>, user: Id): int {
    if rows == [] then 0
    else if rows[|rows| - 1].user == user then rows[|rows| - 1].amount
    else Balance(rows[..|rows| - 1], user)
  }

  function HasRow(rows: seq<Account>, user: Id): bool {
    rows != [] && (rows[|rows| - 1].user == user || HasRow(rows[..|rows| - 1], user))
  }

  function RateOf(rows: seq<Account>, user: Id): real {
    if rows == [] then DEFAULT_RATE
    else if rows[|rows| - 1].user == user then rows[|rows| - 1].rate
    else RateOf(rows[..|rows| - 1], user)
  }

  /** get_or_create, then add to the amount. */
  function AddTo(rows: seq<Account>, user: Id, amount: int): seq<Account> {
    if rows == [] then [Account(user, amount, DEFAULT_RATE)]
    else
      var init, last := rows[..|rows| - 1], rows[|rows| - 1];
      if last.user == user then init + [last.(amount := last.amount + amount)]
      else AddTo(init, user, amount) + [last]
  }

  ghost predicate DistinctRows(rows: seq<Account>) {
    rows == [] || (DistinctRows(rows[..|rows| - 1]) && !HasRow(rows[..|rows| - 1], rows[|rows| - 1].user))
  }

  lemma {:induction false} AddToRows(rows: seq<Account>, user: Id, amount: int, other: Id)
    ensures Balance(AddTo(rows, user, amount), other) == Balance(rows, other) + (if other == user then amount else 0)
    ensures HasRow(AddTo(rows, user, amount), other) == (HasRow(rows, other) || other == user)
    ensures RateOf(AddTo(rows, user, amount), other) == RateOf(rows, other)
  {
    if rows == [] {
    } else {
      var init, last := rows[..|rows| - 1], rows[|rows| - 1];
      AddToRows(init, user, amount, other);
      var more := AddTo(init, user, amount);
      assert (more + [last])[..|more|] == more;
      assert (init + [last.(amount := last.amount + amount)])[..|init|] == init;
    }
  }

  lemma {:induction false} AddToDistinct(rows: seq<Account>, user: Id, amount: int)
    requires DistinctRows(rows)
    ensures DistinctRows(AddTo(rows, user, amount))
  {
    if rows == [] {
    } else {
      var init, last := rows[..|rows| - 1], rows[|rows| - 1];
      AddToDistinct(init, user, amount);
      AddToRows(init, user, amount, last.user);
      var more := AddTo(init, user, amount);
      assert (more + [last])[..|more|] == more;
      assert (init + [last.(amount := last.amount + amount)])[..|init|] == init;
    }
  }

  // ---- The log ----

  predicate Pending(log: Log) { log.kind == DEPOSIT && !log.completed }

  predicate PendingOf(log: Log, user: Id) { Pending(log) && log.user == user }

  /** The gold a user may not withdraw yet. */
  function Locked(logs: seq<Log>, user: Id): int {
    if logs == [] then 0
    else Locked(logs[..|logs| - 1], user) + if PendingOf(logs[|logs| - 1], user) then logs[|logs| - 1].amount else 0
  }

  function PendingCount(logs: seq<Log>, user: Id): nat {
    if logs == [] then 0
    else PendingCount(logs[..|logs| - 1], user) + if PendingOf(logs[|logs| - 1], user) then 1 else 0
  }

  /** All the interest the log says a user got. */
  function Interest(logs: seq<Log>, user: Id): int {
    if logs == [] then 0
    else Interest(logs[..|logs| - 1], user)
         + if logs[|logs| - 1].kind == INTEREST && logs[|logs| - 1].user == user then logs[|logs| - 1].amount else 0
  }

  lemma LogSnoc(logs: seq<Log>, log: Log, user: Id)
    ensures Locked(logs + [log], user) == Locked(logs, user) + if PendingOf(log, user) then log.amount else 0
    ensures Interest(logs + [log], user)
            == Interest(logs, user) + if log.kind == INTEREST && log.user == user then log.amount else 0
  {
  }

  lemma {:induction false} LogConcat(a: seq<Log>, b: seq<Log>, user: Id)
    ensures Locked(a + b, user) == Locked(a, user) + Locked(b, user)
    ensures Interest(a + b, user) == Interest(a, user) + Interest(b, user)
  {
    if b == [] {
      assert a + b == a;
    } else {
      var init, last := b[..|b| - 1], b[|b| - 1];
      assert b == init + [last] && a + b == a + init + [last];
      LogConcat(a, init, user);
      LogSnoc(a + init, last, user);
      LogSnoc(init, last, user);
    }
  }

  // ---- Settlement ----

  /** Settlement deals with users who have a wallet and something in the bank. */
  predicate Eligible(s: State, user: Id) { user in s.wallet && 0 < Balance(s.rows, user) }

  function InterestLog(user: Id, amount: int, rate: real): Log { Log(user, amount, rate, INTEREST, true, 0) }

  function FreeInterest(free: int, rate: real): int { Truncate(free as real * rate) }

  /** Interest on what is not locked; nothing when that is nothing. */
  function BaseLog(s: State, row: Account): seq<Log> {
    var free := row.amount - Locked(s.logs, row.user);
    if 0 < row.amount && row.user in s.wallet && free != 0
    then [InterestLog(row.user, FreeInterest(free, row.rate), row.rate)] else []
  }

  function BaseLogs(s: State, rows: seq<Account>): seq<Log> {
    if rows == [] then [] else BaseLogs(s, rows[..|rows| - 1]) + BaseLog(s, rows[|rows| - 1])
  }

  /** A deposit of today bears interest for its own hours and at least one gold. */
  function DepositInterest(log: Log): int {
    var gold := Truncate(log.amount as real * log.rate * log.hours as real);
    if gold == 0 then 1 else gold
  }

  /** The users with pending deposits, in the order of their first. */
  function Depositors(logs: seq<Log>): seq<Id> {
    if logs == [] then []
    else
      var init, last := logs[..|logs| - 1], logs[|logs| - 1];
      var users := Depositors(init);
      if Pending(last) && last.user !in users then users + [last.user] else users
  }

  function LogsOf(logs: seq<Log>, user: Id): seq<Log> {
    if logs == [] then []
    else
      LogsOf(logs[..|logs| - 1], user) + if PendingOf(logs[|logs| - 1], user) then [logs[|logs| - 1]] else []
  }

  function InterestOn(logs: seq<Log>): seq<Log> {
    if logs == [] then []
    else
      var last := logs[|logs| - 1];
      InterestOn(logs[..|logs| - 1]) + [InterestLog(last.user, DepositInterest(last), last.rate)]
  }

  function DepositLogs(s: State, users: seq<Id>): seq<Log> {
    if users == [] then []
    else
      var last := users[|users| - 1];
      DepositLogs(s, users[..|users| - 1]) + if Eligible(s, last) then InterestOn(LogsOf(s.logs, last)) else []
  }

  function Pay(wallet: map<Id, int>, created: seq<Log>): map<Id, int> {
    if created == [] then wallet
    else
      var last := created[|created| - 1];
      Credit(Pay(wallet, created[..|created| - 1]), last.user, last.amount)
  }

  function Completed(s: State, logs: seq<Log>): seq<Log> {
    if logs == [] then []
    else
      var last := logs[|logs| - 1];
      Completed(s, logs[..|logs| - 1])
      + [if Pending(last) && Eligible(s, last.user) then last.(completed := true) else last]
  }

  function Created(s: State): seq<Log> { BaseLogs(s, s.rows) + DepositLogs(s, Depositors(s.logs)) }

  function Settle(s: State): State {
    State(Pay(s.wallet, Created(s)), s.rows, Completed(s, s.logs) + Created(s))
  }

  ghost predicate AllInterest(logs: seq<Log>) { forall i | 0 <= i < |logs| :: logs[i].kind == INTEREST }

  lemma {:induction false} InterestOnIsInterest(logs: seq<Log>)
    ensures AllInterest(InterestOn(logs))
  {
    if logs == [] {
    } else {
      InterestOnIsInterest(logs[..|logs| - 1]);
    }
  }

  lemma {:induction false} BaseIsInterest(s: State, rows: seq<Account>)
    ensures AllInterest(BaseLogs(s, rows))
  {
    if rows == [] {
    } else {
      BaseIsInterest(s, rows[..|rows| - 1]);
    }
  }

  lemma {:induction false} DepositIsInterest(s: State, users: seq<Id>)
    ensures AllInterest(DepositLogs(s, users))
  {
    if users == [] {
    } else {
      DepositIsInterest(s, users[..|users| - 1]);
      InterestOnIsInterest(LogsOf(s.logs, users[|users| - 1]));
    }
  }

  /** Every payment is logged, so the wallet grows by exactly the interest logged. */
  lemma {:induction false} PayIsInterest(wallet: map<Id, int>, created: seq<Log>, user: Id)
    requires AllInterest(created)
    ensures GoldOf(Pay(wallet, created), user) == GoldOf(wallet, user) + Interest(created, user)
    ensures Locked(created, user) == 0
  {
    if created == [] {
    } else {
      PayIsInterest(wallet, created[..|created| - 1], user);
    }
  }

  lemma {:induction false} CompletedLogs(s: State, logs: seq<Log>, user: Id)
    requires forall i | 0 <= i < |logs| :: Pending(logs[i]) ==> 0 < logs[i].amount
    ensures Interest(Completed(s, logs), user) == Interest(logs, user)
    ensures Locked(Completed(s, logs), user) == if Eligible(s, user) then 0 else Locked(logs, user)
    ensures 0 <= Locked(logs, user)
    ensures forall log | log in Completed(s, logs) :: Pending(log) ==> 0 < log.amount && !Eligible(s, log.user)
  {
    if logs == [] {
    } else {
      var init := logs[..|logs| - 1];
      var last := Completed(s, logs)[|Completed(s, init)|];
      CompletedLogs(s, init, user);
      LogSnoc(Completed(s, init), last, user);
    }
  }

  // ---- What one user gets ----

  function BaseDue(s: State, rows: seq<Account>, user: Id): int {
    var free := Balance(rows, user) - Locked(s.logs, user);
    if 0 < Balance(rows, user) && user in s.wallet && free != 0
    then FreeInterest(free, RateOf(rows, user)) else 0
  }

  function DepositDue(logs: seq<Log>, user: Id): int {
    if logs == [] then 0
    else
      DepositDue(logs[..|logs| - 1], user)
      + if PendingOf(logs[|logs| - 1], user) then DepositInterest(logs[|logs| - 1]) else 0
  }

  lemma {:induction false} BalanceAbsent(rows: seq<Account>, user: Id)
    requires !HasRow(rows, user)
    ensures Balance(rows, user) == 0
  {
    if rows == [] {
    } else {
      BalanceAbsent(rows[..|rows| - 1], user);
    }
  }

  function RowDue(s: State, row: Account): int {
    var free := row.amount - Locked(s.logs, row.user);
    if 0 < row.amount && row.user in s.wallet && free != 0 then FreeInterest(free, row.rate) else 0
  }

  lemma BaseDueOfRow(s: State, rows: seq<Account>, user: Id)
    requires rows != []
    ensures var init, last := rows[..|rows| - 1], rows[|rows| - 1];
      BaseDue(s, rows, user) == if last.user == user then RowDue(s, last) else BaseDue(s, init, user)
  {
  }

  lemma BaseDueAbsent(s: State, rows: seq<Account>, user: Id)
    requires !HasRow(rows, user)
    ensures BaseDue(s, rows, user) == 0
  {
    BalanceAbsent(rows, user);
  }

  lemma BaseOfRow(s: State, row: Account, user: Id)
    ensures Interest(BaseLog(s, row), user) == if row.user == user then RowDue(s, row) else 0
  {
  }

  lemma {:induction false} BaseOfUser(s: State, rows: seq<Account>, user: Id)
    requires DistinctRows(rows)
    ensures Interest(BaseLogs(s, rows), user) == BaseDue(s, rows, user)
  {
    if rows == [] {
    } else {
      var init, last := rows[..|rows| - 1], rows[|rows| - 1];
      BaseOfUser(s, init, user);
      LogConcat(BaseLogs(s, init), BaseLog(s, last), user);
      BaseOfRow(s, last, user);
      BaseDueOfRow(s, rows, user);
      if last.user == user {
        BaseDueAbsent(s, init, user);
      }
    }
  }

  lemma {:induction false} InterestOfLogs(logs: seq<Log>, user: Id, other: Id)
    ensures Interest(InterestOn(LogsOf(logs, user)), other) == if user == other then DepositDue(logs, user) else 0
  {
    if logs == [] {
    } else {
      var init, last := logs[..|logs| - 1], logs[|logs| - 1];
      var few := LogsOf(init, user);
      InterestOfLogs(init, user, other);
      if PendingOf(last, user) {
        assert (few + [last])[..|few|] == few;
        LogSnoc(InterestOn(few), InterestLog(user, DepositInterest(last), last.rate), other);
      } else {
        assert few + [] == few;
      }
    }
  }

  lemma {:induction false} DepositorsComplete(logs: seq<Log>, user: Id)
    ensures Distinct(Depositors(logs))
    ensures user !in Depositors(logs) ==> DepositDue(logs, user) == 0
  {
    if logs == [] {
    } else {
      DepositorsComplete(logs[..|logs| - 1], user);
    }
  }

  lemma {:induction false} DepositsOfUser(s: State, users: seq<Id>, user: Id)
    requires Distinct(users)
    ensures Interest(DepositLogs(s, users), user)
            == if user in users && Eligible(s, user) then DepositDue(s.logs, user) else 0
  {
    if users == [] {
    } else {
      var init, last := users[..|users| - 1], users[|users| - 1];
      DepositsOfUser(s, init, user);
      InterestOfLogs(s.logs, last, user);
      LogConcat(DepositLogs(s, init), if Eligible(s, last) then InterestOn(LogsOf(s.logs, last)) else [], user);
    }
  }

  /** Main result: settlement pays each user exactly the interest on the free balance and on every deposit of
      the day, and logs it. */
  lemma SettlementPaysDue(s: State, user: Id)
    requires DistinctRows(s.rows)
    ensures GoldOf(Settle(s).wallet, user) - GoldOf(s.wallet, user)
            == BaseDue(s, s.rows, user) + if Eligible(s, user) then DepositDue(s.logs, user) else 0
    ensures Interest(Created(s), user) == GoldOf(Settle(s).wallet, user) - GoldOf(s.wallet, user)
    ensures Locked(Created(s), user) == 0
  {
    var users := Depositors(s.logs);
    BaseOfUser(s, s.rows, user);
    DepositorsComplete(s.logs, user);
    DepositsOfUser(s, users, user);
    LogConcat(BaseLogs(s, s.rows), DepositLogs(s, users), user);
    BaseIsInterest(s, s.rows);
    DepositIsInterest(s, users);
    PayIsInterest(s.wallet, Created(s), user);
  }

  // ---- Operations ----

  /** `cap` and `maxDaily` are the limits of the user's impression and of the configuration. */
  datatype Event =
    | Deposit(user: Id, amount: int, cap: int, maxDaily: int, rate: real, hours: int)
    | Withdraw(user: Id, amount: int)
    | Settlement

  predicate DepositRefused(s: State, ev: Event)
    requires ev.Deposit?
  {
    || GoldOf(s.wallet, ev.user) < ev.amount
    || ev.cap < Balance(s.rows, ev.user) + ev.amount
    || ev.maxDaily <= PendingCount(s.logs, ev.user)
  }

  predicate WithdrawRefused(s: State, user: Id, amount: int) {
    Balance(s.rows, user) - Locked(s.logs, user) < amount
  }

  function AfterDeposit(s: State, ev: Event): State
    requires ev.Deposit?
  {
    if ev.amount <= 0 then s
    else if DepositRefused(s, ev) then State(Credit(s.wallet, ev.user, 0), AddTo(s.rows, ev.user, 0), s.logs)
    else State(Credit(s.wallet, ev.user, -ev.amount), AddTo(s.rows, ev.user, ev.amount),
               s.logs + [Log(ev.user, ev.amount, ev.rate, DEPOSIT, false, ev.hours)])
  }

  function AfterWithdraw(s: State, user: Id, amount: int): State {
    if amount <= 0 then s
    else if WithdrawRefused(s, user, amount) then s.(rows := AddTo(s.rows, user, 0))
    else State(Credit(s.wallet, user, amount), AddTo(s.rows, user, -amount),
               s.logs + [Log(user, amount, 0.0, WITHDRAW, false, 0)])
  }

  function Next(s: State, ev: Event): State {
    match ev
    case Deposit(_, _, _, _, _, _) => AfterDeposit(s, ev)
    case Withdraw(user, amount) => AfterWithdraw(s, user, amount)
    case Settlement => Settle(s)
  }

  ghost predicate PositiveDeposits(logs: seq<Log>) {
    forall i | 0 <= i < |logs| :: Pending(logs[i]) ==> 0 < logs[i].amount
  }

  ghost predicate LogsOk(s: State) { DistinctRows(s.rows) && PositiveDeposits(s.logs) }

  lemma MoreLogs(s: State, log: Log)
    requires PositiveDeposits(s.logs)
    ensures 0 < log.amount || log.kind != DEPOSIT ==> PositiveDeposits(s.logs + [log])
  {
  }

  /** What is locked is there; wallet and balance together hold the opening gold and the logged interest. */
  ghost predicate UserOk(s: State, user: Id) {
    && 0 <= Locked(s.logs, user) <= Balance(s.rows, user)
    && GoldOf(s.wallet, user) + Balance(s.rows, user) == STARTING_GOLD + Interest(s.logs, user)
  }

  ghost predicate Inv(s: State) { LogsOk(s) && forall user :: UserOk(s, user) }

  lemma DepositKeepsLogs(s: State, ev: Event)
    requires ev.Deposit? && LogsOk(s)
    ensures LogsOk(AfterDeposit(s, ev))
  {
    if 0 < ev.amount {
      AddToDistinct(s.rows, ev.user, if DepositRefused(s, ev) then 0 else ev.amount);
      MoreLogs(s, Log(ev.user, ev.amount, ev.rate, DEPOSIT, false, ev.hours));
    }
  }

  lemma WithdrawKeepsLogs(s: State, owner: Id, amount: int)
    requires LogsOk(s)
    ensures LogsOk(AfterWithdraw(s, owner, amount))
  {
    if 0 < amount {
      AddToDistinct(s.rows, owner, if WithdrawRefused(s, owner, amount) then 0 else -amount);
      MoreLogs(s, Log(owner, amount, 0.0, WITHDRAW, false, 0));
    }
  }

  lemma SettleKeepsLogs(s: State)
    requires LogsOk(s)
    ensures LogsOk(Settle(s))
  {
    CompletedLogs(s, s.logs, "");
    CreatedIsInterest(s);
    var completed, created := Completed(s, s.logs), Created(s);
    forall i | 0 <= i < |completed + created| && Pending((completed + created)[i])
      ensures 0 < (completed + created)[i].amount
    {
      assert i < |completed|;
      assert completed[i] in completed;
    }
  }

  lemma CreatedIsInterest(s: State)
    ensures AllInterest(Created(s))
  {
    BaseIsInterest(s, s.rows);
    DepositIsInterest(s, Depositors(s.logs));
  }

  lemma DepositKeepsUser(s: State, ev: Event, user: Id)
    requires ev.Deposit? && UserOk(s, user)
    ensures UserOk(AfterDeposit(s, ev), user)
  {
    if 0 < ev.amount && !DepositRefused(s, ev) {
      AddToRows(s.rows, ev.user, ev.amount, user);
      LogSnoc(s.logs, Log(ev.user, ev.amount, ev.rate, DEPOSIT, false, ev.hours), user);
    } else {
      AddToRows(s.rows, ev.user, 0, user);
    }
  }

  /** The check behind a withdrawal leaves the locked gold in the bank. */
  lemma WithdrawKeepsUser(s: State, owner: Id, amount: int, user: Id)
    requires UserOk(s, user)
    ensures UserOk(AfterWithdraw(s, owner, amount), user)
  {
    if 0 < amount && !WithdrawRefused(s, owner, amount) {
      AddToRows(s.rows, owner, -amount, user);
      LogSnoc(s.logs, Log(owner, amount, 0.0, WITHDRAW, false, 0), user);
    } else {
      AddToRows(s.rows, owner, 0, user);
    }
  }

  lemma SettleKeepsUser(s: State, user: Id)
    requires LogsOk(s) && UserOk(s, user)
    ensures UserOk(Settle(s), user)
  {
    SettlementPaysDue(s, user);
    CompletedLogs(s, s.logs, user);
    LogConcat(Completed(s, s.logs), Created(s), user);
  }

  lemma StepKeepsInv(s: State, ev: Event)
    requires Inv(s)
    ensures Inv(Next(s, ev))
  {
    match ev
    case Deposit(_, _, _, _, _, _) =>
      DepositKeepsLogs(s, ev);
      forall user ensures UserOk(Next(s, ev), user) { DepositKeepsUser(s, ev, user); }
    case Withdraw(owner, amount) =>
      WithdrawKeepsLogs(s, owner, amount);
      forall user ensures UserOk(Next(s, ev), user) { WithdrawKeepsUser(s, owner, amount, user); }
    case Settlement =>
      SettleKeepsLogs(s);
      forall user ensures UserOk(Next(s, ev), user) { SettleKeepsUser(s, user); }
  }

  const INITIAL := State(map[], [], [])

  function Run(s: State, evs: seq<Event>): State
    decreases |evs|
  {
    if evs == [] then s else Run(Next(s, evs[0]), evs[1..])
  }

  lemma {:induction false} RunKeepsInv(s: State, evs: seq<Event>)
    requires Inv(s)
    ensures Inv(Run(s, evs))
    decreases |evs|
  {
    if evs == [] {
    } else {
      StepKeepsInv(s, evs[0]);
      RunKeepsInv(Next(s, evs[0]), evs[1..]);
    }
  }

  /** Main result: over any run of deposits, withdrawals and settlements no locked deposit can be withdrawn,
      and a user's wallet and balance grow by exactly the interest logged for that user. */
  lemma BankBalances(evs: seq<Event>, user: Id)
    ensures var s := Run(INITIAL, evs);
      && 0 <= Locked(s.logs, user) <= Balance(s.rows, user)
      && GoldOf(s.wallet, user) + Balance(s.rows, user) == STARTING_GOLD + Interest(s.logs, user)
  {
    RunKeepsInv(INITIAL, evs);
    assert UserOk(Run(INITIAL, evs), user);
  }

  /** Main result: after a settlement no user with a wallet has a pending deposit. */
  lemma SettlementCompletesDeposits(s: State, user: Id)
    requires Inv(s) && user in s.wallet
    ensures Locked(Settle(s).logs, user) == 0
    ensures forall log | log in Settle(s).logs :: !PendingOf(log, user)
  {
    CompletedLogs(s, s.logs, user);
    CreatedIsInterest(s);
    SettlementPaysDue(s, user);
    LogConcat(Completed(s, s.logs), Created(s), user);
    assert UserOk(s, user);
    forall log | log in Settle(s).logs ensures !PendingOf(log, user) {
      if log in Completed(s, s.logs) && PendingOf(log, user) {
        LockedPositive(Completed(s, s.logs), log);
        assert false;
      }
    }
  }

  /** A pending deposit locks at least its own amount. */
  lemma {:induction false} LockedPositive(logs: seq<Log>, log: Log)
    requires forall l | l in logs :: Pending(l) ==> 0 < l.amount
    requires log in logs && Pending(log)
    ensures log.amount <= Locked(logs, log.user)
  {
    var init, last := logs[..|logs| - 1], logs[|logs| - 1];
    assert logs == init + [last];
    if log in init {
      LockedPositive(init, log);
    } else {
      LockedNonNegative(init, log.user);
    }
  }

  lemma {:induction false} LockedNonNegative(logs: seq<Log>, user: Id)
    requires forall l | l in logs :: Pending(l) ==> 0 < l.amount
    ensures 0 <= Locked(logs, user)
  {
    if logs == [] {
    } else {
      var init, last := logs[..|logs| - 1], logs[|logs| - 1];
      assert logs == init + [last];
      LockedNonNegative(init, user);
    }
  }

  /** A pending deposit earns at least one gold, however small it is. */
  lemma {:induction false} DepositsEarn(logs: seq<Log>, user: Id)
    requires forall i | 0 <= i < |logs| ::
      Pending(logs[i]) ==> 0 < logs[i].amount && 0.0 <= logs[i].rate && 0 <= logs[i].hours
    ensures PendingCount(logs, user) <= DepositDue(logs, user)
  {
    if logs == [] {
    } else {
      var last := logs[|logs| - 1];
      DepositsEarn(logs[..|logs| - 1], user);
      if Pending(last) {
        ProductNonNegative(last.amount as real, last.rate);
        ProductNonNegative(last.amount as real * last.rate, last.hours as real);
      }
    }
  }

  // ---- Lemmas for the loops of the settlement ----

  function SumOf(logs: seq<Log>): int {
    if logs == [] then 0 else SumOf(logs[..|logs| - 1]) + logs[|logs| - 1].amount
  }

  lemma LogsOfLast(logs: seq<Log>, user: Id)
    requires logs != []
    ensures var few := LogsOf(logs[..|logs| - 1], user);
      LogsOf(logs, user) == if PendingOf(logs[|logs| - 1], user) then few + [logs[|logs| - 1]] else few
  {
  }

  lemma SumOfSnoc(logs: seq<Log>, log: Log)
    ensures SumOf(logs + [log]) == SumOf(logs) + log.amount
  {
    assert (logs + [log])[..|logs|] == logs;
  }

  lemma {:induction false} LockedIsSum(logs: seq<Log>, user: Id)
    ensures Locked(logs, user) == SumOf(LogsOf(logs, user))
    ensures user !in Depositors(logs) ==> LogsOf(logs, user) == []
  {
    if logs == [] {
    } else {
      LockedIsSum(logs[..|logs| - 1], user);
      LogsOfLast(logs, user);
      SumOfSnoc(LogsOf(logs[..|logs| - 1], user), logs[|logs| - 1]);
    }
  }

  lemma {:induction false} BalanceOfRow(rows: seq<Account>, user: Id)
    requires DistinctRows(rows)
    ensures 0 < Balance(rows, user) <==> exists row :: row in rows && row.user == user && 0 < row.amount
  {
    if rows == [] {
    } else {
      var init, last := rows[..|rows| - 1], rows[|rows| - 1];
      assert rows == init + [last];
      BalanceOfRow(init, user);
      if last.user == user {
        BalanceAbsent(init, user);
      }
    }
  }

  lemma PaySnoc(wallet: map<Id, int>, created: seq<Log>, log: Log)
    ensures Pay(wallet, created + [log]) == Credit(Pay(wallet, created), log.user, log.amount)
  {
  }

  lemma BaseLogsStep(s: State, rows: seq<Account>, i: nat)
    requires i < |rows|
    ensures BaseLogs(s, rows[..i + 1]) == BaseLogs(s, rows[..i]) + BaseLog(s, rows[i])
  {
    assert rows[..i + 1][..i] == rows[..i];
  }

  lemma InterestOnStep(logs: seq<Log>, m: nat)
    requires m < |logs|
    ensures InterestOn(logs[..m + 1])
            == InterestOn(logs[..m]) + [InterestLog(logs[m].user, DepositInterest(logs[m]), logs[m].rate)]
  {
    assert logs[..m + 1][..m] == logs[..m];
  }

  class BankManager {
    var wallet: map<Id, int>
    var rows: seq<Account>
    var logs: seq<Log>

    constructor ()
      ensures Model() == INITIAL
    {
      wallet, rows, logs := map[], [], [];
    }

    function Model(): State
      reads this
    {
      State(wallet, rows, logs)
    }

    method AddGold(user: Id, amount: int)
      modifies this`wallet
      ensures wallet == Credit(old(wallet), user, amount)
    {
      var current := STARTING_GOLD;
      if user in wallet {
        current := wallet[user];
      }
      wallet := wallet[user := current + amount];
    }

    /** The check and the deposit. */
    method Deposit(user: Id, amount: int, cap: int, maxDaily: int, rate: real, hours: int) returns (accepted: bool)
      modifies this
      ensures Model() == Next(old(Model()), Event.Deposit(user, amount, cap, maxDaily, rate, hours))
      ensures accepted <==>
              && 0 < amount <= GoldOf(old(wallet), user) && Balance(old(rows), user) + amount <= cap
              && PendingCount(old(logs), user) < maxDaily
    {
      if amount <= 0 {
        return false;
      }
      if GoldOf(wallet, user) < amount || cap < Balance(rows, user) + amount || maxDaily <= PendingCount(logs, user) {
        AddGold(user, 0);
        rows := AddTo(rows, user, 0);
        return false;
      }
      AddGold(user, -amount);
      rows := AddTo(rows, user, amount);
      logs := logs + [Log(user, amount, rate, DEPOSIT, false, hours)];
      return true;
    }

    /** The check and the withdrawal. */
    method Withdraw(user: Id, amount: int) returns (accepted: bool)
      modifies this
      ensures Model() == Next(old(Model()), Event.Withdraw(user, amount))
      ensures accepted <==> 0 < amount <= Balance(old(rows), user) - Locked(old(logs), user)
    {
      if amount <= 0 {
        return false;
      }
      if Balance(rows, user) - Locked(logs, user) < amount {
        rows := AddTo(rows, user, 0);
        return false;
      }
      AddGold(user, amount);
      rows := AddTo(rows, user, -amount);
      logs := logs + [Log(user, amount, 0.0, WITHDRAW, false, 0)];
      return true;
    }

    method Settlement()
      requires DistinctRows(rows)
      modifies this
      ensures Model() == Settle(old(Model()))
    {
      ghost var s := Model();
      var userData := set row | row in rows && 0 < row.amount && row.user in wallet :: row.user;
      assert forall user :: user in userData <==> Eligible(s, user) by {
        forall user ensures user in userData <==> Eligible(s, user) {
          BalanceOfRow(rows, user);
        }
      }
      var users, bankData := GroupLogs();
      var created := PayFree(bankData, userData, s);
      var more := PayDeposits(users, bankData, userData, s, created);
      MarkCompleted(userData, s);
      logs := logs + (created + more);
    }

    /** The pending deposits by user, and the users in the order they were met. */
    method GroupLogs() returns (users: seq<Id>, bankData: map<Id, seq<Log>>)
      ensures users == Depositors(logs)
      ensures bankData.Keys == set user | user in users
      ensures forall user | user in users :: bankData[user] == LogsOf(logs, user)
    {
      users, bankData := [], map[];
      var i := 0;
      while i < |logs|
        invariant 0 <= i <= |logs|
        invariant users == Depositors(logs[..i])
        invariant bankData.Keys == set user | user in users
        invariant forall user | user in users :: bankData[user] == LogsOf(logs[..i], user)
      {
        assert logs[..i + 1][..i] == logs[..i];
        var log := logs[i];
        forall user ensures user !in users ==> LogsOf(logs[..i], user) == [] { LockedIsSum(logs[..i], user); }
        if log.kind == DEPOSIT && !log.completed {
          if log.user !in bankData {
            users := users + [log.user];
            bankData := bankData[log.user := []];
          }
          bankData := bankData[log.user := bankData[log.user] + [log]];
        }
        i := i + 1;
      }
      assert logs[..i] == logs;
    }

    /** Interest on the free balances. */
    method PayFree(bankData: map<Id, seq<Log>>, userData: set<Id>, ghost s: State) returns (created: seq<Log>)
      requires s == Model()
      requires forall row | row in rows && 0 < row.amount :: row.user in userData <==> row.user in wallet
      requires bankData.Keys == set user | user in Depositors(logs)
      requires forall user | user in bankData :: bankData[user] == LogsOf(logs, user)
      modifies this`wallet
      ensures created == BaseLogs(s, rows) && wallet == Pay(s.wallet, created)
    {
      created := [];
      var i := 0;
      while i < |rows|
        invariant 0 <= i <= |rows|
        invariant created == BaseLogs(s, rows[..i]) && wallet == Pay(s.wallet, created)
      {
        var paid := PayRow(rows[i], bankData, userData, s, created);
        BaseLogsStep(s, rows, i);
        created := created + paid;
        i := i + 1;
      }
      assert rows[..i] == rows;
    }

    method PayRow(row: Account, bankData: map<Id, seq<Log>>, userData: set<Id>, ghost s: State, ghost before: seq<Log>)
      returns (paid: seq<Log>)
      requires logs == s.logs && wallet == Pay(s.wallet, before)
      requires 0 < row.amount ==> (row.user in userData <==> row.user in s.wallet)
      requires bankData.Keys == set user | user in Depositors(logs)
      requires forall user | user in bankData :: bankData[user] == LogsOf(logs, user)
      modifies this`wallet
      ensures paid == BaseLog(s, row) && wallet == Pay(s.wallet, before + paid)
    {
      LockedIsSum(logs, row.user);
      assert before + [] == before;
      if row.amount <= 0 || row.user !in userData {
        return [];
      }
      var amount := row.amount;
      if row.user in bankData {
        amount := amount - SumOf(bankData[row.user]);
      }
      assert amount == row.amount - Locked(s.logs, row.user);
      if amount == 0 {
        return [];
      }
      var gold := FreeInterest(amount, row.rate);
      var log := InterestLog(row.user, gold, row.rate);
      PayOne(log, s, before);
      paid := [log];
    }

    /** Interest on the deposits of the day, user by user. */
    method PayDeposits(users: seq<Id>, bankData: map<Id, seq<Log>>, userData: set<Id>,
                       ghost s: State, ghost before: seq<Log>) returns (created: seq<Log>)
      requires bankData.Keys == set user | user in users
      requires forall user | user in users :: bankData[user] == LogsOf(s.logs, user)
      requires forall user :: user in userData <==> Eligible(s, user)
      requires wallet == Pay(s.wallet, before)
      modifies this`wallet
      ensures created == DepositLogs(s, users) && wallet == Pay(s.wallet, before + created)
    {
      created := [];
      assert before + created == before;
      var k := 0;
      while k < |users|
        invariant 0 <= k <= |users|
        invariant created == DepositLogs(s, users[..k]) && wallet == Pay(s.wallet, before + created)
      {
        assert users[..k + 1][..k] == users[..k];
        var user := users[k];
        if user in userData {
          var paid := PayLogs(user, bankData[user], s, before + created);
          assert before + created + paid == before + (created + paid);
          created := created + paid;
        }
        k := k + 1;
      }
      assert users[..k] == users;
    }

    method PayLogs(user: Id, deposits: seq<Log>, ghost s: State, ghost before: seq<Log>) returns (paid: seq<Log>)
      requires deposits == LogsOf(s.logs, user) && wallet == Pay(s.wallet, before)
      modifies this`wallet
      ensures paid == InterestOn(deposits) && wallet == Pay(s.wallet, before + paid)
    {
      paid := [];
      assert before + paid == before;
      LogsOfUser(s.logs, user);
      var m := 0;
      while m < |deposits|
        invariant 0 <= m <= |deposits|
        invariant paid == InterestOn(deposits[..m]) && wallet == Pay(s.wallet, before + paid)
      {
        InterestOnStep(deposits, m);
        var log := InterestLog(user, DepositInterest(deposits[m]), deposits[m].rate);
        PayOne(log, s, before + paid);
        assert before + paid + [log] == before + (paid + [log]);
        paid := paid + [log];
        m := m + 1;
      }
      assert deposits[..m] == deposits;
    }

    method PayOne(log: Log, ghost s: State, ghost before: seq<Log>)
      requires wallet == Pay(s.wallet, before)
      modifies this`wallet
      ensures wallet == Pay(s.wallet, before + [log])
    {
      PaySnoc(s.wallet, before, log);
      AddGold(log.user, log.amount);
    }

    /** The flags of the deposits that were paid. */
    method MarkCompleted(userData: set<Id>, ghost s: State)
      requires logs == s.logs
      requires forall user :: user in userData <==> Eligible(s, user)
      modifies this`logs
      ensures logs == Completed(s, s.logs)
    {
      var updated := [];
      var i := 0;
      while i < |logs|
        invariant 0 <= i <= |logs| && logs == s.logs && updated == Completed(s, logs[..i])
      {
        assert logs[..i + 1][..i] == logs[..i];
        var log := logs[i];
        if log.kind == DEPOSIT && !log.completed && log.user in userData {
          log := log.(completed := true);
        }
        updated := updated + [log];
        i := i + 1;
      }
      assert logs[..i] == logs;
      logs := updated;
    }
  }

  lemma {:induction false} LogsOfUser(logs: seq<Log>, user: Id)
    ensures forall i | 0 <= i < |LogsOf(logs, user)| :: LogsOf(logs, user)[i].user == user
  {
    if logs == [] {
    } else {
      LogsOfUser(logs[..|logs| - 1], user);
    }
  }
}
