/** The wallets under interleaving (bocchi/models/user_console.py:27-49, 117-237). Every coroutine runs
    alone between two suspensions: a check, the guarded update behind it, and the log entry are steps of
    their own, and other coroutines may run in between. Committing a reservation only appends to the log
    buffer, whose lock is never held across a suspension (bocchi/services/buffered_writers.py:49-56,
    bocchi/services/low_priority_writer.py:92-108), so it is one step. */
module Wallet {
  import opened Gold

  datatype Entry = Entry(user: Id, amount: int)

  /** What a coroutine does when it is resumed. */
  datatype Task =
    | AddUpdate(user: Id, amount: int)
    | ReduceUpdate(user: Id, amount: int)
    | ReserveUpdate(user: Id, amount: int)
    | AppendLog(entry: Entry)
    | Refunding(r: nat)
    | Done

  /** The two flags of a reservation, and how often it has been refunded. */
  datatype Reservation = Reservation(user: Id, amount: int, committed: bool, released: bool, refunds: nat)

  /** Log entries are signed: gold got is positive, gold spent negative. */
  datatype State = State(gold: map<Id, int>, tasks: seq<Task>, reservations: seq<Reservation>, log: seq<Entry>)

  datatype Event =
    | AddGold(user: Id, amount: int)
    | ReduceGold(user: Id, amount: int)
    | ReserveGold(user: Id, amount: int)
    | Commit(r: nat)
    | Release(r: nat)
    | Resume(i: nat)

  predicate Settled(r: Reservation) { r.committed || r.released }

  function NewReservation(user: Id, amount: int): Reservation { Reservation(user, amount, false, false, 0) }

  predicate Enabled(s: State, ev: Event) {
    match ev
    case Commit(r) => r < |s.reservations|
    case Release(r) => r < |s.reservations|
    case Resume(i) => i < |s.tasks| && TaskOk(s, s.tasks[i])
    case _ => true
  }

  /** A refund belongs to a reservation; for every reachable state TasksOk says so of all tasks. */
  predicate TaskOk(s: State, t: Task) { t.Refunding? ==> t.r < |s.reservations| }

  /** A coroutine resumes after a suspension. */
  function Continue(s: State, i: nat): State
    requires i < |s.tasks| && TaskOk(s, s.tasks[i])
  {
    var done := s.(tasks := s.tasks[i := Done]);
    match s.tasks[i]
    case AddUpdate(user, amount) =>
      s.(gold := Credit(s.gold, user, amount), tasks := s.tasks[i := AppendLog(Entry(user, amount))])
    case ReduceUpdate(user, amount) =>
      if amount <= GoldOf(s.gold, user)
      then s.(gold := Credit(s.gold, user, -amount), tasks := s.tasks[i := AppendLog(Entry(user, -amount))])
      else done
    case ReserveUpdate(user, amount) =>
      if amount <= GoldOf(s.gold, user)
      then done.(gold := Credit(s.gold, user, -amount), reservations := s.reservations + [NewReservation(user, amount)])
      else done
    case AppendLog(entry) => done.(log := s.log + [entry])
    case Refunding(r) =>
      var res := s.reservations[r];
      done.(reservations := s.reservations[r := res.(refunds := res.refunds + 1)],
            gold := Credit(s.gold, res.user, res.amount))
    case Done => s
  }

  function Next(s: State, ev: Event): State
    requires Enabled(s, ev)
  {
    match ev
    case AddGold(user, amount) =>
      s.(gold := Credit(s.gold, user, 0), tasks := s.tasks + [AddUpdate(user, amount)])
    case ReduceGold(user, amount) =>
      State(Credit(s.gold, user, 0),
            if GoldOf(s.gold, user) < amount then s.tasks else s.tasks + [ReduceUpdate(user, amount)],
            s.reservations, s.log)
    case ReserveGold(user, amount) =>
      if GoldOf(s.gold, user) < amount then s else s.(tasks := s.tasks + [ReserveUpdate(user, amount)])
    case Commit(r) =>
      var res := s.reservations[r];
      if Settled(res) then s
      else s.(reservations := s.reservations[r := res.(committed := true)],
              log := s.log + [Entry(res.user, -res.amount)])
    case Release(r) =>
      var res := s.reservations[r];
      if Settled(res) then s
      else s.(reservations := s.reservations[r := res.(released := true)], tasks := s.tasks + [Refunding(r)])
    case Resume(i) => Continue(s, i)
  }

  // ---- Sums over tasks, reservations and the log, one user at a time ----

  /** Gold moved but not yet logged. */
  function InFlight(t: Task, user: Id): int {
    if t.AppendLog? && t.entry.user == user then t.entry.amount else 0
  }

  /** Gold taken for a reservation that is neither spent nor given back. */
  predicate IsOpen(r: Reservation) { !r.committed && r.refunds == 0 }

  function Held(r: Reservation, user: Id): int { if r.user == user && IsOpen(r) then r.amount else 0 }

  function Amount(e: Entry, user: Id): int { if e.user == user then e.amount else 0 }

  function InFlights(tasks: seq<Task>, user: Id): seq<int> {
    seq(|tasks|, i requires 0 <= i < |tasks| => InFlight(tasks[i], user))
  }

  function AllHeld(rs: seq<Reservation>, user: Id): seq<int> {
    seq(|rs|, i requires 0 <= i < |rs| => Held(rs[i], user))
  }

  function Amounts(log: seq<Entry>, user: Id): seq<int> {
    seq(|log|, i requires 0 <= i < |log| => Amount(log[i], user))
  }

  lemma InFlightsChange(tasks: seq<Task>, t: Task, i: nat, user: Id)
    ensures Sum(InFlights(tasks + [t], user)) == Sum(InFlights(tasks, user)) + InFlight(t, user)
    ensures i < |tasks| ==>
      Sum(InFlights(tasks[i := t], user)) == Sum(InFlights(tasks, user)) - InFlight(tasks[i], user) + InFlight(t, user)
  {
    assert InFlights(tasks + [t], user) == InFlights(tasks, user) + [InFlight(t, user)];
    SumSnoc(InFlights(tasks, user), InFlight(t, user));
    if i < |tasks| {
      assert InFlights(tasks[i := t], user) == InFlights(tasks, user)[i := InFlight(t, user)];
      SumUpdate(InFlights(tasks, user), i, InFlight(t, user));
    }
  }

  lemma HeldChange(rs: seq<Reservation>, r: Reservation, i: nat, user: Id)
    ensures Sum(AllHeld(rs + [r], user)) == Sum(AllHeld(rs, user)) + Held(r, user)
    ensures i < |rs| ==>
      Sum(AllHeld(rs[i := r], user)) == Sum(AllHeld(rs, user)) - Held(rs[i], user) + Held(r, user)
  {
    assert AllHeld(rs + [r], user) == AllHeld(rs, user) + [Held(r, user)];
    SumSnoc(AllHeld(rs, user), Held(r, user));
    if i < |rs| {
      assert AllHeld(rs[i := r], user) == AllHeld(rs, user)[i := Held(r, user)];
      SumUpdate(AllHeld(rs, user), i, Held(r, user));
    }
  }

  lemma AmountsChange(log: seq<Entry>, e: Entry, user: Id)
    ensures Sum(Amounts(log + [e], user)) == Sum(Amounts(log, user)) + Amount(e, user)
  {
    assert Amounts(log + [e], user) == Amounts(log, user) + [Amount(e, user)];
    SumSnoc(Amounts(log, user), Amount(e, user));
  }

  /** The gold the log accounts for, counting what is on its way into the log. */
  function Accounted(s: State, user: Id): int {
    STARTING_GOLD + Sum(Amounts(s.log, user)) + Sum(InFlights(s.tasks, user))
  }

  /** Zero exactly when gold and open reservations together are what was got and not spent. */
  function Gap(s: State, user: Id): int {
    GoldOf(s.gold, user) + Sum(AllHeld(s.reservations, user)) - Accounted(s, user)
  }

  // ---- Refunds under way ----

  function Refunds(t: Task, r: nat): int { if t == Refunding(r) then 1 else 0 }

  /** Coroutines in the middle of a refund of one reservation. */
  function OpenRefunds(tasks: seq<Task>, r: nat): int {
    Sum(seq(|tasks|, i requires 0 <= i < |tasks| => Refunds(tasks[i], r)))
  }

  lemma OpenRefundsChange(tasks: seq<Task>, t: Task, i: nat, r: nat)
    ensures OpenRefunds(tasks + [t], r) == OpenRefunds(tasks, r) + Refunds(t, r)
    ensures i < |tasks| ==>
      OpenRefunds(tasks[i := t], r) == OpenRefunds(tasks, r) - Refunds(tasks[i], r) + Refunds(t, r)
  {
    var was := seq(|tasks|, k requires 0 <= k < |tasks| => Refunds(tasks[k], r));
    var more := tasks + [t];
    assert seq(|more|, k requires 0 <= k < |more| => Refunds(more[k], r)) == was + [Refunds(t, r)];
    SumSnoc(was, Refunds(t, r));
    if i < |tasks| {
      var now := tasks[i := t];
      assert seq(|now|, k requires 0 <= k < |now| => Refunds(now[k], r)) == was[i := Refunds(t, r)];
      SumUpdate(was, i, Refunds(t, r));
    }
  }

  lemma {:induction false} OpenRefundsCount(tasks: seq<Task>, r: nat)
    ensures 0 <= OpenRefunds(tasks, r)
    ensures Refunding(r) in tasks ==> 1 <= OpenRefunds(tasks, r)
    decreases |tasks|
  {
    if tasks == [] {
    } else {
      var init, last := tasks[..|tasks| - 1], tasks[|tasks| - 1];
      assert tasks == init + [last];
      OpenRefundsCount(init, r);
      OpenRefundsChange(init, last, 0, r);
    }
  }

  // ---- The invariant ----

  /** Every coroutine works on a reservation that exists, and no other has a coroutine working on it. */
  ghost predicate TasksOk(s: State) {
    && (forall i | 0 <= i < |s.tasks| :: TaskOk(s, s.tasks[i]))
    && (forall r: nat | |s.reservations| <= r :: OpenRefunds(s.tasks, r) == 0)
  }

  /** A reservation is spent or given back but never both; a refund is made, or on its way, exactly once when
      the reservation is released. */
  ghost predicate ReservationOk(s: State, r: nat)
    requires r < |s.reservations|
  {
    var res := s.reservations[r];
    && !(res.committed && res.released)
    && 0 <= OpenRefunds(s.tasks, r)
    && res.refunds + OpenRefunds(s.tasks, r) == (if res.released then 1 else 0)
  }

  ghost predicate FlagsOk(s: State) { forall r: nat | r < |s.reservations| :: ReservationOk(s, r) }

  ghost predicate LedgerOk(s: State) { forall user :: Gap(s, user) == 0 }

  ghost predicate Inv(s: State) { TasksOk(s) && FlagsOk(s) && LedgerOk(s) }

  /** How a step changes the list of coroutines. */
  predicate TasksChange(s: State, ev: Event, t: Task)
    requires Enabled(s, ev)
  {
    var next := Next(s, ev).tasks;
    if ev.Resume? then next == s.tasks[ev.i := t] && !t.Refunding?
    else next == s.tasks || (next == s.tasks + [t] && (t.Refunding? ==> ev == Release(t.r)))
  }

  function NewTask(s: State, ev: Event): (t: Task)
    requires Enabled(s, ev)
    ensures TasksChange(s, ev, t)
  {
    match ev
    case AddGold(user, amount) => AddUpdate(user, amount)
    case ReduceGold(user, amount) => ReduceUpdate(user, amount)
    case ReserveGold(user, amount) => ReserveUpdate(user, amount)
    case Commit(r) => Done
    case Release(r) => Refunding(r)
    case Resume(i) => Next(s, ev).tasks[i]
  }

  lemma RefundsNext(s: State, ev: Event, r: nat)
    requires Enabled(s, ev)
    ensures OpenRefunds(Next(s, ev).tasks, r) == OpenRefunds(s.tasks, r)
              + (if ev == Release(r) && !Settled(s.reservations[r]) then 1 else 0)
              - (if ev.Resume? && s.tasks[ev.i] == Refunding(r) then 1 else 0)
  {
    OpenRefundsChange(s.tasks, NewTask(s, ev), if ev.Resume? then ev.i else 0, r);
  }

  lemma StepKeepsTasks(s: State, ev: Event)
    requires TasksOk(s) && Enabled(s, ev)
    ensures TasksOk(Next(s, ev))
  {
    forall r: nat | |Next(s, ev).reservations| <= r ensures OpenRefunds(Next(s, ev).tasks, r) == 0 {
      RefundsNext(s, ev, r);
    }
  }

  lemma StepKeepsReservation(s: State, ev: Event, r: nat)
    requires TasksOk(s) && FlagsOk(s) && Enabled(s, ev) && r < |Next(s, ev).reservations|
    ensures ReservationOk(Next(s, ev), r)
  {
    RefundsNext(s, ev, r);
    OpenRefundsCount(Next(s, ev).tasks, r);
    assert r < |s.reservations| ==> ReservationOk(s, r);
  }

  /** A coroutine in the middle of a refund works on a released reservation that is not refunded yet. */
  lemma RefundIsOpen(s: State, i: nat)
    requires Inv(s) && i < |s.tasks| && s.tasks[i].Refunding?
    ensures TaskOk(s, s.tasks[i]) && IsOpen(s.reservations[s.tasks[i].r])
  {
    OpenRefundsCount(s.tasks, s.tasks[i].r);
    assert TaskOk(s, s.tasks[i]);
    assert ReservationOk(s, s.tasks[i].r);
  }

  // ---- No step opens a gap between wallet and log ----

  lemma GapOfNewTask(s: State, t: Task, user: Id)
    requires !t.AppendLog?
    ensures Gap(s.(tasks := s.tasks + [t]), user) == Gap(s, user)
  {
    InFlightsChange(s.tasks, t, 0, user);
  }

  lemma GapOfResumedTask(s: State, i: nat, t: Task, user: Id)
    requires i < |s.tasks|
    ensures Gap(s.(tasks := s.tasks[i := t]), user) == Gap(s, user) + InFlight(s.tasks[i], user) - InFlight(t, user)
  {
    InFlightsChange(s.tasks, t, i, user);
  }

  lemma GapOfGold(s: State, owner: Id, amount: int, user: Id)
    ensures Gap(s.(gold := Credit(s.gold, owner, amount)), user) == Gap(s, user) + if user == owner then amount else 0
  {
  }

  lemma GapOfEntry(s: State, entry: Entry, user: Id)
    ensures Gap(s.(log := s.log + [entry]), user) == Gap(s, user) - Amount(entry, user)
  {
    AmountsChange(s.log, entry, user);
  }

  lemma GapOfReservation(s: State, r: Reservation, k: nat, user: Id)
    ensures Gap(s.(reservations := s.reservations + [r]), user) == Gap(s, user) + Held(r, user)
    ensures k < |s.reservations| ==>
      Gap(s.(reservations := s.reservations[k := r]), user)
      == Gap(s, user) + Held(r, user) - Held(s.reservations[k], user)
  {
    HeldChange(s.reservations, r, k, user);
  }

  lemma CommitKeepsGap(s: State, r: nat, user: Id)
    requires Inv(s) && r < |s.reservations|
    ensures Gap(Next(s, Commit(r)), user) == Gap(s, user)
  {
    var res := s.reservations[r];
    assert ReservationOk(s, r);
    if !Settled(res) {
      var spent := s.(reservations := s.reservations[r := res.(committed := true)]);
      GapOfReservation(s, res.(committed := true), r, user);
      GapOfEntry(spent, Entry(res.user, -res.amount), user);
    }
  }

  lemma ReleaseKeepsGap(s: State, r: nat, user: Id)
    requires r < |s.reservations|
    ensures Gap(Next(s, Release(r)), user) == Gap(s, user)
  {
    var released := s.reservations[r].(released := true);
    GapOfReservation(s, released, r, user);
    GapOfNewTask(s.(reservations := s.reservations[r := released]), Refunding(r), user);
  }

  lemma RefundKeepsGap(s: State, i: nat, user: Id)
    requires Inv(s) && Enabled(s, Resume(i)) && s.tasks[i].Refunding?
    ensures Gap(Continue(s, i), user) == Gap(s, user)
  {
    var r := s.tasks[i].r;
    var res := s.reservations[r];
    var refunded := res.(refunds := res.refunds + 1);
    var done := s.(tasks := s.tasks[i := Done]);
    RefundIsOpen(s, i);
    GapOfResumedTask(s, i, Done, user);
    GapOfReservation(done, refunded, r, user);
    GapOfGold(done.(reservations := s.reservations[r := refunded]), res.user, res.amount, user);
  }

  lemma UpdateKeepsGap(s: State, i: nat, user: Id)
    requires Enabled(s, Resume(i)) && (s.tasks[i].AddUpdate? || s.tasks[i].ReduceUpdate?)
    ensures Gap(Continue(s, i), user) == Gap(s, user)
  {
    var next := Continue(s, i);
    var moved := s.(tasks := s.tasks[i := next.tasks[i]]);
    var owner, amount := s.tasks[i].user, if s.tasks[i].AddUpdate? then s.tasks[i].amount else -s.tasks[i].amount;
    GapOfResumedTask(s, i, next.tasks[i], user);
    GapOfGold(moved, owner, amount, user);
  }

  lemma ReserveKeepsGap(s: State, i: nat, user: Id)
    requires Enabled(s, Resume(i)) && s.tasks[i].ReserveUpdate?
    ensures Gap(Continue(s, i), user) == Gap(s, user)
  {
    var owner, amount := s.tasks[i].user, s.tasks[i].amount;
    var done := s.(tasks := s.tasks[i := Done]);
    GapOfResumedTask(s, i, Done, user);
    GapOfGold(done, owner, -amount, user);
    GapOfReservation(done.(gold := Credit(s.gold, owner, -amount)), NewReservation(owner, amount), 0, user);
  }

  lemma ResumeKeepsGap(s: State, i: nat, user: Id)
    requires Inv(s) && Enabled(s, Resume(i))
    ensures Gap(Continue(s, i), user) == Gap(s, user)
  {
    match s.tasks[i]
    case Refunding(_) => RefundKeepsGap(s, i, user);
    case AppendLog(entry) =>
      GapOfResumedTask(s, i, Done, user);
      GapOfEntry(s.(tasks := s.tasks[i := Done]), entry, user);
    case ReserveUpdate(_, _) => ReserveKeepsGap(s, i, user);
    case Done =>
    case _ => UpdateKeepsGap(s, i, user);
  }

  /** No step of any coroutine makes wallet, reservations and log drift apart. */
  lemma StepKeepsGap(s: State, ev: Event, user: Id)
    requires Inv(s) && Enabled(s, ev)
    ensures Gap(Next(s, ev), user) == Gap(s, user)
  {
    match ev
    case AddGold(owner, amount) =>
      GapOfGold(s, owner, 0, user);
      GapOfNewTask(s.(gold := Credit(s.gold, owner, 0)), AddUpdate(owner, amount), user);
    case ReduceGold(owner, amount) =>
      GapOfGold(s, owner, 0, user);
      GapOfNewTask(s.(gold := Credit(s.gold, owner, 0)), ReduceUpdate(owner, amount), user);
    case ReserveGold(owner, amount) => GapOfNewTask(s, ReserveUpdate(owner, amount), user);
    case Commit(r) => CommitKeepsGap(s, r, user);
    case Release(r) => ReleaseKeepsGap(s, r, user);
    case Resume(i) => ResumeKeepsGap(s, i, user);
  }

  lemma StepKeepsInv(s: State, ev: Event)
    requires Inv(s) && Enabled(s, ev)
    ensures Inv(Next(s, ev))
  {
    StepKeepsTasks(s, ev);
    forall r: nat | r < |Next(s, ev).reservations| ensures ReservationOk(Next(s, ev), r) {
      StepKeepsReservation(s, ev, r);
    }
    forall user ensures Gap(Next(s, ev), user) == 0 {
      StepKeepsGap(s, ev, user);
    }
  }

  // ---- When a wallet goes below zero ----

  /** Amounts added or reserved are not negative (an amount to reduce may be anything). */
  predicate Sane(ev: Event) { (ev.AddGold? || ev.ReserveGold?) ==> 0 <= ev.amount }

  /** Nothing under way, and no reservation, can add a negative amount. */
  ghost predicate NoNegative(s: State) {
    && (forall i | 0 <= i < |s.tasks| ::
          (s.tasks[i].AddUpdate? || s.tasks[i].ReserveUpdate?) ==> 0 <= s.tasks[i].amount)
    && (forall r | 0 <= r < |s.reservations| :: 0 <= s.reservations[r].amount)
  }

  ghost predicate NonNegativeGold(s: State) { forall user | user in s.gold :: 0 <= s.gold[user] }

  /** The step adds, without a guard, a negative amount that the wallet does not cover. */
  predicate Overdraws(s: State, ev: Event) {
    && ev.Resume? && ev.i < |s.tasks| && TaskOk(s, s.tasks[ev.i])
    && match s.tasks[ev.i]
       case AddUpdate(user, amount) => GoldOf(s.gold, user) + amount < 0
       case Refunding(r) => GoldOf(s.gold, s.reservations[r].user) + s.reservations[r].amount < 0
       case _ => false
  }

  /** A step takes a wallet below zero exactly when it adds an uncovered negative amount: a check may be
      outdated when its update runs, but the update's own guard holds. */
  lemma StepOverdrawsIff(s: State, ev: Event)
    requires NonNegativeGold(s) && Enabled(s, ev)
    ensures NonNegativeGold(Next(s, ev)) <==> !Overdraws(s, ev)
  {
    if ev.Resume? && Overdraws(s, ev) {
      match s.tasks[ev.i]
      case AddUpdate(user, _) => assert Next(s, ev).gold[user] < 0;
      case Refunding(r) => assert Next(s, ev).gold[s.reservations[r].user] < 0;
    }
  }

  lemma StepKeepsNoNegative(s: State, ev: Event)
    requires NoNegative(s) && Enabled(s, ev) && Sane(ev)
    ensures NoNegative(Next(s, ev))
    ensures NonNegativeGold(s) ==> !Overdraws(s, ev)
  {
  }

  // ---- Runs ----

  const INITIAL := State(map[], [], [], [])

  ghost predicate ValidRun(s: State, evs: seq<Event>)
    decreases |evs|
  {
    evs == [] || (Enabled(s, evs[0]) && ValidRun(Next(s, evs[0]), evs[1..]))
  }

  ghost function Run(s: State, evs: seq<Event>): State
    requires ValidRun(s, evs)
    decreases |evs|
  {
    if evs == [] then s else Run(Next(s, evs[0]), evs[1..])
  }

  lemma {:induction false} RunKeepsInv(s: State, evs: seq<Event>)
    requires Inv(s) && ValidRun(s, evs)
    ensures Inv(Run(s, evs))
    decreases |evs|
  {
    if evs == [] {
    } else {
      StepKeepsInv(s, evs[0]);
      RunKeepsInv(Next(s, evs[0]), evs[1..]);
    }
  }

  /** Main result: however the coroutines interleave, and whatever the amounts, each user's gold and open
      reservations together are exactly what the user got and did not spend. */
  lemma LedgerIsExact(evs: seq<Event>, user: Id)
    requires ValidRun(INITIAL, evs)
    ensures var s := Run(INITIAL, evs);
      GoldOf(s.gold, user) + Sum(AllHeld(s.reservations, user)) == Accounted(s, user)
  {
    RunKeepsInv(INITIAL, evs);
    assert Gap(Run(INITIAL, evs), user) == 0;
  }

  /** Main result: over any run a reservation is never both spent and given back, and never given back twice;
      every coroutine left can go on. */
  lemma SettledOnce(evs: seq<Event>, r: nat)
    requires ValidRun(INITIAL, evs) && r < |Run(INITIAL, evs).reservations|
    ensures var s := Run(INITIAL, evs);
      var res := s.reservations[r];
      && res.refunds <= 1 && (res.refunds == 1 ==> res.released)
      && (res.committed ==> res.refunds == 0 && Refunding(r) !in s.tasks)
      && (forall i | 0 <= i < |s.tasks| :: Enabled(s, Resume(i)))
  {
    RunKeepsInv(INITIAL, evs);
    OpenRefundsCount(Run(INITIAL, evs).tasks, r);
    assert ReservationOk(Run(INITIAL, evs), r);
  }

  /** A settled reservation stays as it settled: a second commit or release changes nothing at all. */
  lemma SecondHasNoEffect(s: State, r: nat, first: Event, second: Event)
    requires Inv(s) && r < |s.reservations|
    requires first in [Commit(r), Release(r)] && second in [Commit(r), Release(r)]
    ensures Next(Next(s, first), second) == Next(s, first)
  {
  }

  lemma {:induction false} SaneRun(s: State, evs: seq<Event>)
    requires ValidRun(s, evs) && NoNegative(s) && NonNegativeGold(s) && forall ev | ev in evs :: Sane(ev)
    ensures NonNegativeGold(Run(s, evs))
    decreases |evs|
  {
    if evs == [] {
    } else {
      StepKeepsNoNegative(s, evs[0]);
      StepOverdrawsIff(s, evs[0]);
      SaneRun(Next(s, evs[0]), evs[1..]);
    }
  }

  /** Main result: when no negative amount is added or reserved, no wallet is ever below zero, however the
      coroutines interleave. */
  lemma NoWalletGoesNegative(evs: seq<Event>, user: Id)
    requires ValidRun(INITIAL, evs) && forall ev | ev in evs :: Sane(ev)
    ensures 0 <= GoldOf(Run(INITIAL, evs).gold, user)
  {
    SaneRun(INITIAL, evs);
  }

  ghost predicate NeverOverdraws(s: State, evs: seq<Event>)
    requires ValidRun(s, evs)
    decreases |evs|
  {
    evs == [] || (!Overdraws(s, evs[0]) && NeverOverdraws(Next(s, evs[0]), evs[1..]))
  }

  ghost predicate AlwaysNonNegative(s: State, evs: seq<Event>)
    requires ValidRun(s, evs)
    decreases |evs|
  {
    NonNegativeGold(s) && (evs == [] || AlwaysNonNegative(Next(s, evs[0]), evs[1..]))
  }

  /** With any amounts: wallets stay at or above zero all through a run exactly when no step of it adds an
      uncovered negative amount. */
  lemma {:induction false} NonNegativeIff(s: State, evs: seq<Event>)
    requires ValidRun(s, evs) && NonNegativeGold(s)
    ensures AlwaysNonNegative(s, evs) <==> NeverOverdraws(s, evs)
    decreases |evs|
  {
    if evs == [] {
    } else {
      StepOverdrawsIff(s, evs[0]);
      if !Overdraws(s, evs[0]) {
        NonNegativeIff(Next(s, evs[0]), evs[1..]);
      }
    }
  }

  /** A negative amount is accepted and can take the wallet below zero. */
  lemma NegativeAddOverdraws(user: Id)
    ensures var s := Next(INITIAL, AddGold(user, -200));
      Enabled(s, Resume(0)) && GoldOf(Next(s, Resume(0)).gold, user) == -100
  {
  }

  // ---- The table and its coroutines, one method for each stretch between awaits ----

  class UserConsole {
    var gold: map<Id, int>
    var tasks: seq<Task>
    var reservations: seq<Reservation>
    var log: seq<Entry>

    constructor ()
      ensures Model() == INITIAL
    {
      gold, tasks, reservations, log := map[], [], [], [];
    }

    function Model(): State
      reads this
    {
      State(gold, tasks, reservations, log)
    }

    /** Create the row if there is none. */
    method GetUserForWrite(user: Id) returns (current: int)
      modifies this`gold
      ensures gold == Credit(old(gold), user, 0) && current == GoldOf(old(gold), user)
    {
      if user !in gold {
        gold := gold[user := STARTING_GOLD];
      } else {
        assert gold[user := gold[user]] == gold;
      }
      current := gold[user];
    }

    method AddGold(user: Id, amount: int)
      modifies this
      ensures Model() == Next(old(Model()), Event.AddGold(user, amount))
    {
      var _ := GetUserForWrite(user);
      tasks := tasks + [AddUpdate(user, amount)];
    }

    method ReduceGold(user: Id, amount: int) returns (insufficient: bool)
      modifies this
      ensures Model() == Next(old(Model()), Event.ReduceGold(user, amount))
      ensures insufficient == (GoldOf(old(gold), user) < amount)
    {
      var current := GetUserForWrite(user);
      insufficient := current < amount;
      if !insufficient {
        tasks := tasks + [ReduceUpdate(user, amount)];
      }
    }

    /** The row a reservation creates is rolled back when the gold does not suffice. */
    method ReserveGold(user: Id, amount: int) returns (insufficient: bool)
      modifies this
      ensures Model() == Next(old(Model()), Event.ReserveGold(user, amount))
      ensures insufficient == (GoldOf(old(gold), user) < amount)
    {
      insufficient := GoldOf(gold, user) < amount;
      if !insufficient {
        tasks := tasks + [ReserveUpdate(user, amount)];
      }
    }

    /** Up to its end: the log buffer's lock is always free. */
    method Commit(r: nat)
      requires r < |reservations|
      modifies this
      ensures Model() == Next(old(Model()), Event.Commit(r))
    {
      var res := reservations[r];
      if res.committed || res.released {
        return;
      }
      log := log + [Entry(res.user, -res.amount)];
      reservations := reservations[r := res.(committed := true)];
    }

    method Release(r: nat)
      requires r < |reservations|
      modifies this
      ensures Model() == Next(old(Model()), Event.Release(r))
    {
      if reservations[r].released || reservations[r].committed {
        return;
      }
      reservations := reservations[r := reservations[r].(released := true)];
      tasks := tasks + [Refunding(r)];
    }

    /** `filter(user_id, gold__gte=amount).update(gold - amount)`. */
    method GuardedUpdate(user: Id, amount: int) returns (updated: bool)
      modifies this`gold
      ensures updated == (amount <= GoldOf(old(gold), user))
      ensures gold == if updated then Credit(old(gold), user, -amount) else old(gold)
    {
      var current := GoldOf(gold, user);
      updated := amount <= current;
      if updated {
        gold := gold[user := current - amount];
      }
    }

    method ResumeAdd(i: nat)
      requires i < |tasks| && tasks[i].AddUpdate?
      modifies this
      ensures Model() == Continue(old(Model()), i)
    {
      var user, amount := tasks[i].user, tasks[i].amount;
      gold := gold[user := GoldOf(gold, user) + amount];
      tasks := tasks[i := AppendLog(Entry(user, amount))];
    }

    method ResumeReduce(i: nat) returns (insufficient: bool)
      requires i < |tasks| && tasks[i].ReduceUpdate?
      modifies this
      ensures Model() == Continue(old(Model()), i)
      ensures insufficient == (GoldOf(old(gold), old(tasks[i].user)) < old(tasks[i].amount))
    {
      var user, amount := tasks[i].user, tasks[i].amount;
      var updated := GuardedUpdate(user, amount);
      tasks := tasks[i := if updated then AppendLog(Entry(user, -amount)) else Done];
      insufficient := !updated;
    }

    method ResumeReserve(i: nat) returns (insufficient: bool)
      requires i < |tasks| && tasks[i].ReserveUpdate?
      modifies this
      ensures Model() == Continue(old(Model()), i)
      ensures insufficient == (GoldOf(old(gold), old(tasks[i].user)) < old(tasks[i].amount))
    {
      var user, amount := tasks[i].user, tasks[i].amount;
      var updated := GuardedUpdate(user, amount);
      tasks := tasks[i := Done];
      if updated {
        reservations := reservations + [NewReservation(user, amount)];
      }
      insufficient := !updated;
    }

    method ResumeLog(i: nat)
      requires i < |tasks| && tasks[i].AppendLog?
      modifies this
      ensures Model() == Continue(old(Model()), i)
    {
      log := log + [tasks[i].entry];
      tasks := tasks[i := Done];
    }

    method ResumeRelease(i: nat)
      requires i < |tasks| && tasks[i].Refunding? && tasks[i].r < |reservations|
      modifies this
      ensures Model() == Continue(old(Model()), i)
    {
      var r := tasks[i].r;
      var res := reservations[r];
      gold := gold[res.user := GoldOf(gold, res.user) + res.amount];
      reservations := reservations[r := res.(refunds := res.refunds + 1)];
      tasks := tasks[i := Done];
    }
  }
}
