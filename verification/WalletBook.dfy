/** The wallets told from what was asked for (bocchi/models/user_console.py:27-49, 142-237): which requests were let
    in, how far each has come, and what each has moved. */
module WalletBook {
  import opened Gold
  import opened Wallet

  /** How far the coroutine of a request has come: before its update, before its log entry, at its end. */
  datatype Turn = Waiting | Logging | Over

  /** A request that was let in; `moved` says that its update has changed the wallet. */
  datatype Job = Job(request: Event, turn: Turn, moved: bool)

  datatype Fate = Open | Spent | Released | Refunded

  /** The gold a request has reserved. */
  datatype Pot = Pot(user: Id, amount: int, fate: Fate)

  datatype Book = Book(jobs: seq<Job>, pots: seq<Pot>, logged: seq<Entry>)

  const EMPTY := Book([], [], [])

  predicate IsRequest(ev: Event) { ev.AddGold? || ev.ReduceGold? || ev.ReserveGold? || ev.Release? }

  /** What a finished request of a user's gold is logged as. */
  function LoggedAs(request: Event): Entry
    requires request.AddGold? || request.ReduceGold?
  {
    Entry(request.user, if request.AddGold? then request.amount else -request.amount)
  }

  function Covers(s: State, user: Id, amount: int): bool { amount <= GoldOf(s.gold, user) }

  /** The book after a coroutine goes on: the guarded updates move gold exactly when the wallet covers the amount. */
  function GoesOn(b: Book, s: State, i: nat): Book
    requires i < |b.jobs|
  {
    var job := b.jobs[i];
    match job.turn
    case Waiting =>
      (match job.request
       case AddGold(_, _) => b.(jobs := b.jobs[i := job.(turn := Logging, moved := true)])
       case ReduceGold(user, amount) =>
         if Covers(s, user, amount) then b.(jobs := b.jobs[i := job.(turn := Logging, moved := true)])
         else b.(jobs := b.jobs[i := job.(turn := Over)])
       case ReserveGold(user, amount) =>
         if Covers(s, user, amount)
         then b.(jobs := b.jobs[i := job.(turn := Over, moved := true)], pots := b.pots + [Pot(user, amount, Open)])
         else b.(jobs := b.jobs[i := job.(turn := Over)])
       case Release(r) =>
         b.(jobs := b.jobs[i := job.(turn := Over, moved := true)],
            pots := if r < |b.pots| then b.pots[r := b.pots[r].(fate := Refunded)] else b.pots)
       case _ => b)
    case Logging =>
      if job.request.AddGold? || job.request.ReduceGold?
      then b.(jobs := b.jobs[i := job.(turn := Over)], logged := b.logged + [LoggedAs(job.request)])
      else b
    case Over => b
  }

  /** The book after an event: a debit and a reservation are let in when the wallet covers them, a commit and a release
      when the reservation is not settled. */
  function Follow(b: Book, s: State, ev: Event): Book {
    match ev
    case AddGold(_, _) => b.(jobs := b.jobs + [Job(ev, Waiting, false)])
    case ReduceGold(user, amount) =>
      if Covers(s, user, amount) then b.(jobs := b.jobs + [Job(ev, Waiting, false)]) else b
    case ReserveGold(user, amount) =>
      if Covers(s, user, amount) then b.(jobs := b.jobs + [Job(ev, Waiting, false)]) else b
    case Commit(r) =>
      if r < |b.pots| && b.pots[r].fate == Open
      then b.(pots := b.pots[r := b.pots[r].(fate := Spent)],
              logged := b.logged + [Entry(b.pots[r].user, -b.pots[r].amount)])
      else b
    case Release(r) =>
      if r < |b.pots| && b.pots[r].fate == Open
      then b.(pots := b.pots[r := b.pots[r].(fate := Released)], jobs := b.jobs + [Job(ev, Waiting, false)])
      else b
    case Resume(i) => if i < |b.jobs| then GoesOn(b, s, i) else b
  }

  ghost function BookOf(b: Book, s: State, evs: seq<Event>): Book
    requires ValidRun(s, evs)
    decreases |evs|
  {
    if evs == [] then b else BookOf(Follow(b, s, evs[0]), Next(s, evs[0]), evs[1..])
  }

  // ---- The coroutines and the reservations are those of the book ----

  function TaskOf(job: Job): Task {
    match job.turn
    case Over => Done
    case Logging => if job.request.AddGold? || job.request.ReduceGold? then AppendLog(LoggedAs(job.request)) else Done
    case Waiting =>
      match job.request
      case AddGold(user, amount) => AddUpdate(user, amount)
      case ReduceGold(user, amount) => ReduceUpdate(user, amount)
      case ReserveGold(user, amount) => ReserveUpdate(user, amount)
      case Release(r) => Refunding(r)
      case _ => Done
  }

  function ReservationOf(pot: Pot): Reservation {
    Reservation(pot.user, pot.amount, pot.fate == Spent, pot.fate == Released || pot.fate == Refunded,
                if pot.fate == Refunded then 1 else 0)
  }

  /** A coroutine waits for nothing that it has moved, and has moved what it is about to log. */
  predicate JobOk(job: Job) {
    && IsRequest(job.request)
    && (job.turn == Waiting ==> !job.moved)
    && (job.turn == Logging ==> job.moved && (job.request.AddGold? || job.request.ReduceGold?))
  }

  ghost predicate JobsMatch(s: State, b: Book) {
    && |s.tasks| == |b.jobs|
    && forall i | 0 <= i < |b.jobs| :: JobOk(b.jobs[i]) && s.tasks[i] == TaskOf(b.jobs[i])
  }

  ghost predicate PotsMatch(s: State, b: Book) {
    && |s.reservations| == |b.pots|
    && forall r | 0 <= r < |b.pots| :: s.reservations[r] == ReservationOf(b.pots[r])
  }

  ghost predicate Matches(s: State, b: Book) { JobsMatch(s, b) && PotsMatch(s, b) && s.log == b.logged }

  /** A refund under way is of a reservation that is released and not refunded. */
  lemma RefundIsReleased(s: State, b: Book, i: nat)
    requires Inv(s) && Matches(s, b) && i < |s.tasks| && s.tasks[i].Refunding?
    ensures s.tasks[i].r < |b.pots| && b.pots[s.tasks[i].r].fate == Released
  {
    var r := s.tasks[i].r;
    RefundIsOpen(s, i);
    OpenRefundsCount(s.tasks, r);
    assert ReservationOk(s, r);
    assert s.reservations[r] == ReservationOf(b.pots[r]);
  }

  lemma ResumeMatches(s: State, b: Book, i: nat)
    requires Inv(s) && Matches(s, b) && Enabled(s, Resume(i))
    ensures Matches(Next(s, Resume(i)), Follow(b, s, Resume(i)))
  {
    assert JobOk(b.jobs[i]) && s.tasks[i] == TaskOf(b.jobs[i]);
    if s.tasks[i].Refunding? {
      RefundIsReleased(s, b, i);
    }
  }

  lemma StepMatches(s: State, b: Book, ev: Event)
    requires Inv(s) && Matches(s, b) && Enabled(s, ev)
    ensures Matches(Next(s, ev), Follow(b, s, ev))
  {
    match ev
    case Resume(i) => ResumeMatches(s, b, i);
    case Commit(r) => assert s.reservations[r] == ReservationOf(b.pots[r]);
    case Release(r) => assert s.reservations[r] == ReservationOf(b.pots[r]);
    case _ =>
  }

  // ---- The gold ----

  /** What the request has added to the user's wallet for good. */
  function Got(job: Job, user: Id): int {
    if !job.moved then 0
    else
      match job.request
      case AddGold(owner, amount) => if owner == user then amount else 0
      case ReduceGold(owner, amount) => if owner == user then -amount else 0
      case _ => 0
  }

  /** What the pot still holds, and what was spent of it. */
  function Holds(pot: Pot, user: Id): int {
    if pot.user == user && (pot.fate == Open || pot.fate == Released) then pot.amount else 0
  }

  function SpentOf(pot: Pot, user: Id): int { if pot.user == user && pot.fate == Spent then pot.amount else 0 }

  function AllGot(jobs: seq<Job>, user: Id): int {
    if jobs == [] then 0 else AllGot(jobs[..|jobs| - 1], user) + Got(jobs[|jobs| - 1], user)
  }

  function AllHolding(pots: seq<Pot>, user: Id): int {
    if pots == [] then 0 else AllHolding(pots[..|pots| - 1], user) + Holds(pots[|pots| - 1], user)
  }

  function AllSpent(pots: seq<Pot>, user: Id): int {
    if pots == [] then 0 else AllSpent(pots[..|pots| - 1], user) + SpentOf(pots[|pots| - 1], user)
  }

  lemma {:induction false} GotChange(jobs: seq<Job>, i: nat, job: Job, user: Id)
    requires i < |jobs|
    ensures AllGot(jobs[i := job], user) == AllGot(jobs, user) - Got(jobs[i], user) + Got(job, user)
  {
    var init := jobs[..|jobs| - 1];
    if i == |jobs| - 1 {
      assert jobs[i := job][..|jobs| - 1] == init;
    } else {
      GotChange(init, i, job, user);
      assert jobs[i := job][..|jobs| - 1] == init[i := job];
    }
  }

  lemma {:induction false} PotChange(pots: seq<Pot>, r: nat, pot: Pot, user: Id)
    requires r < |pots|
    ensures AllHolding(pots[r := pot], user) == AllHolding(pots, user) - Holds(pots[r], user) + Holds(pot, user)
    ensures AllSpent(pots[r := pot], user) == AllSpent(pots, user) - SpentOf(pots[r], user) + SpentOf(pot, user)
  {
    var init := pots[..|pots| - 1];
    if r == |pots| - 1 {
      assert pots[r := pot][..|pots| - 1] == init;
    } else {
      PotChange(init, r, pot, user);
      assert pots[r := pot][..|pots| - 1] == init[r := pot];
    }
  }

  lemma JobAdded(jobs: seq<Job>, job: Job, user: Id)
    ensures AllGot(jobs + [job], user) == AllGot(jobs, user) + Got(job, user)
  {
    assert (jobs + [job])[..|jobs|] == jobs;
  }

  lemma PotAdded(pots: seq<Pot>, pot: Pot, user: Id)
    ensures AllHolding(pots + [pot], user) == AllHolding(pots, user) + Holds(pot, user)
    ensures AllSpent(pots + [pot], user) == AllSpent(pots, user) + SpentOf(pot, user)
  {
    assert (pots + [pot])[..|pots|] == pots;
  }

  /** Starting gold, and what the requests have added and taken, less what was spent of reservations and what these
      still hold. */
  function Funds(b: Book, user: Id): int {
    STARTING_GOLD + AllGot(b.jobs, user) - AllSpent(b.pots, user) - AllHolding(b.pots, user)
  }

  /** The coroutine that goes on has the job's request before it. */
  lemma JobAt(s: State, b: Book, i: nat)
    requires Matches(s, b) && i < |s.tasks|
    ensures i < |b.jobs| && JobOk(b.jobs[i]) && s.tasks[i] == TaskOf(b.jobs[i])
  {
  }

  /** The wallet and the funds change alike. */
  ghost predicate Alike(s: State, b: Book, i: nat, user: Id)
    requires Enabled(s, Resume(i))
  {
    GoldOf(Next(s, Resume(i)).gold, user) - GoldOf(s.gold, user)
    == Funds(Follow(b, s, Resume(i)), user) - Funds(b, user)
  }

  lemma ReserveFunds(s: State, b: Book, i: nat, user: Id)
    requires Matches(s, b) && Enabled(s, Resume(i)) && s.tasks[i].ReserveUpdate?
    ensures Alike(s, b, i, user)
  {
    JobAt(s, b, i);
    var job := b.jobs[i];
    GotChange(b.jobs, i, Follow(b, s, Resume(i)).jobs[i], user);
    PotAdded(b.pots, Pot(job.request.user, job.request.amount, Open), user);
  }

  lemma RefundFunds(s: State, b: Book, i: nat, user: Id)
    requires Inv(s) && Matches(s, b) && Enabled(s, Resume(i)) && s.tasks[i].Refunding?
    ensures Alike(s, b, i, user)
  {
    JobAt(s, b, i);
    RefundIsReleased(s, b, i);
    var r := s.tasks[i].r;
    GotChange(b.jobs, i, Follow(b, s, Resume(i)).jobs[i], user);
    PotChange(b.pots, r, b.pots[r].(fate := Refunded), user);
    assert s.reservations[r] == ReservationOf(b.pots[r]);
  }

  lemma UpdateFunds(s: State, b: Book, i: nat, user: Id)
    requires Matches(s, b) && Enabled(s, Resume(i)) && !s.tasks[i].ReserveUpdate? && !s.tasks[i].Refunding?
    ensures Alike(s, b, i, user)
  {
    JobAt(s, b, i);
    GotChange(b.jobs, i, Follow(b, s, Resume(i)).jobs[i], user);
  }

  lemma ResumeFunds(s: State, b: Book, i: nat, user: Id)
    requires Inv(s) && Matches(s, b) && Enabled(s, Resume(i))
    ensures Alike(s, b, i, user)
  {
    match s.tasks[i]
    case ReserveUpdate(_, _) => ReserveFunds(s, b, i, user);
    case Refunding(_) => RefundFunds(s, b, i, user);
    case _ => UpdateFunds(s, b, i, user);
  }

  lemma StepFunds(s: State, b: Book, ev: Event, user: Id)
    requires Inv(s) && Matches(s, b) && Enabled(s, ev)
    ensures GoldOf(Next(s, ev).gold, user) - GoldOf(s.gold, user) == Funds(Follow(b, s, ev), user) - Funds(b, user)
  {
    match ev
    case Resume(i) => ResumeFunds(s, b, i, user);
    case Commit(r) =>
      assert s.reservations[r] == ReservationOf(b.pots[r]);
      PotChange(b.pots, r, b.pots[r].(fate := Spent), user);
    case Release(r) =>
      assert s.reservations[r] == ReservationOf(b.pots[r]);
      PotChange(b.pots, r, b.pots[r].(fate := Released), user);
      JobAdded(b.jobs, Job(ev, Waiting, false), user);
    case _ => JobAdded(b.jobs, Job(ev, Waiting, false), user);
  }

  lemma {:induction false} RunMatches(s: State, b: Book, evs: seq<Event>, user: Id)
    requires Inv(s) && Matches(s, b) && ValidRun(s, evs) && GoldOf(s.gold, user) == Funds(b, user)
    ensures Matches(Run(s, evs), BookOf(b, s, evs))
    ensures GoldOf(Run(s, evs).gold, user) == Funds(BookOf(b, s, evs), user)
    decreases |evs|
  {
    if evs == [] {
    } else {
      StepKeepsInv(s, evs[0]);
      StepMatches(s, b, evs[0]);
      StepFunds(s, b, evs[0], user);
      RunMatches(Next(s, evs[0]), Follow(b, s, evs[0]), evs[1..], user);
    }
  }

  // ---- Main results ----

  /** Main result: after every run a user's gold and open reservations together are the starting gold and what the
      requests asked to add, less what they asked to take where the wallet covered it and what was spent of
      reservations; and the log has exactly the finished requests and the commits, in order. */
  lemma LedgerIsAsAsked(evs: seq<Event>, user: Id)
    requires ValidRun(INITIAL, evs)
    ensures var s, b := Run(INITIAL, evs), BookOf(EMPTY, INITIAL, evs);
      && GoldOf(s.gold, user) + AllHolding(b.pots, user)
         == STARTING_GOLD + AllGot(b.jobs, user) - AllSpent(b.pots, user)
      && s.log == b.logged
  {
    RunMatches(INITIAL, EMPTY, evs, user);
  }

  /** Every coroutine and every reservation is that of a request, with the user and the amount that were asked for. */
  lemma CoroutinesAreAsAsked(evs: seq<Event>, i: nat, r: nat)
    requires ValidRun(INITIAL, evs)
    ensures var s, b := Run(INITIAL, evs), BookOf(EMPTY, INITIAL, evs);
      && |s.tasks| == |b.jobs| && |s.reservations| == |b.pots|
      && (i < |b.jobs| ==> s.tasks[i] == TaskOf(b.jobs[i]))
      && (r < |b.pots| ==> s.reservations[r] == ReservationOf(b.pots[r]))
  {
    RunMatches(INITIAL, EMPTY, evs, "");
  }

  /** Adding and reducing create the user's row if there is none, also when the gold does not suffice; a reservation
      that is refused does not. */
  lemma RowsAreCreated(s: State, user: Id, amount: int)
    ensures user in Next(s, AddGold(user, amount)).gold && user in Next(s, ReduceGold(user, amount)).gold
    ensures GoldOf(s.gold, user) < amount ==> Next(s, ReserveGold(user, amount)) == s
  {
  }

  /** A debit that is resumed takes exactly its amount, and goes on to log it, exactly when the wallet covers it; else
      it takes nothing and is over. */
  lemma DebitTakesIff(s: State, i: nat, user: Id, amount: int, other: Id)
    requires Enabled(s, Resume(i)) && s.tasks[i] == ReduceUpdate(user, amount)
    ensures var t := Next(s, Resume(i));
      && GoldOf(t.gold, user) == GoldOf(s.gold, user) - (if amount <= GoldOf(s.gold, user) then amount else 0)
      && (other != user ==> GoldOf(t.gold, other) == GoldOf(s.gold, other))
      && t.tasks[i] == (if amount <= GoldOf(s.gold, user) then AppendLog(Entry(user, -amount)) else Done)
      && t.reservations == s.reservations && t.log == s.log
  {
  }

  /** A reservation that is resumed takes exactly its amount, and is made for it, exactly when the wallet covers it. */
  lemma ReservationTakesIff(s: State, i: nat, user: Id, amount: int, other: Id)
    requires Enabled(s, Resume(i)) && s.tasks[i] == ReserveUpdate(user, amount)
    ensures var t := Next(s, Resume(i));
      && GoldOf(t.gold, user) == GoldOf(s.gold, user) - (if amount <= GoldOf(s.gold, user) then amount else 0)
      && (other != user ==> GoldOf(t.gold, other) == GoldOf(s.gold, other))
      && t.reservations == s.reservations
                           + (if amount <= GoldOf(s.gold, user) then [NewReservation(user, amount)] else [])
      && t.tasks[i] == Done && t.log == s.log
  {
  }
}
