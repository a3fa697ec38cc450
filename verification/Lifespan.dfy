/** The resource lifespan scheduler (bocchi/utils/lifespan.py).

    Resources carry a deadline; a heap orders the deadlines and keeps stale entries until they
    surface (lazy deletion); one watchdog task sleeps on the heap head.  A stretch of code between
    two suspension points is one step.  Critical sections never suspend, so the manager's lock is
    always free when a stretch asks for it. */
module Lifespan {

  type Id = int
  type Time = real

  datatype Entry = Entry(due: Time, id: Id)
  datatype Resource = Resource(due: Time, ttl: Time, hasProbe: bool)

  /** Where the watchdog task is suspended. */
  datatype Watchdog =
    | NotRunning
    | OuterWait
    | Sleeping(entry: Entry)
    | Probing(entry: Entry, ttl: Time, hasProbe: bool)
    | CallingBack(id: Id)

  datatype Observation = Registered(id: Id) | Fired(id: Id, due: Time, at: Time)

  datatype State = State(
    resources: map<Id, Resource>,
    heap: seq<Entry>,
    wakeup: bool,
    watchdog: Watchdog,
    cancelling: bool,
    clock: Time,
    log: seq<Observation>)

  datatype Event =
    | Register(id: Id, ttl: Time, hasProbe: bool, now: Time)
    | Touch(id: Id, ttl: Time, now: Time)
    | Unregister(id: Id, now: Time)
    | Wake(now: Time)
    | TimerFires(now: Time)
    | ProbeReturns(busy: bool, now: Time, later: Time)
    | CallbackReturns(now: Time)
    | Cancel
    | CancelDelivered

  const INITIAL := State(map[], [], false, NotRunning, false, 0.0, [])

  // ---- The heap: heap[0] is the least (deadline, id) pair ----

  predicate Before(a: Entry, b: Entry) {
    a.due < b.due || (a.due == b.due && a.id <= b.id)
  }

  ghost predicate Sorted(heap: seq<Entry>) {
    forall i, j | 0 <= i < j < |heap| :: Before(heap[i], heap[j])
  }

  function HeapPush(heap: seq<Entry>, e: Entry): seq<Entry> {
    if heap == [] || Before(e, heap[0]) then [e] + heap
    else [heap[0]] + HeapPush(heap[1..], e)
  }

  lemma HeapPushContents(heap: seq<Entry>, e: Entry)
    ensures multiset(HeapPush(heap, e)) == multiset(heap) + multiset{e}
    ensures |HeapPush(heap, e)| == |heap| + 1
  {
    if heap != [] {
      assert heap == [heap[0]] + heap[1..];
    }
  }

  lemma {:induction false} HeapPushSorted(heap: seq<Entry>, e: Entry)
    requires Sorted(heap)
    ensures Sorted(HeapPush(heap, e))
    ensures heap != [] && heap[0].due < e.due ==> HeapPush(heap, e)[0] == heap[0]
  {
    if heap != [] && !Before(e, heap[0]) {
      var tail := HeapPush(heap[1..], e);
      HeapPushSorted(heap[1..], e);
      HeapPushContents(heap[1..], e);
      forall k | 0 <= k < |tail| ensures Before(heap[0], tail[k]) {
        assert tail[k] in multiset(tail);
        assert tail[k] == e || tail[k] in heap[1..];
      }
    }
  }

  // ---- Stretches of the manager's methods and of the watchdog ----

  /** The entry is not stale: it carries the resource's current deadline. */
  predicate Current(resources: map<Id, Resource>, e: Entry) {
    e.id in resources && resources[e.id].due == e.due
  }

  function Registering(s: State, id: Id, ttl: Time, hasProbe: bool, now: Time): State {
    s.(resources := s.resources[id := Resource(now + ttl, ttl, hasProbe)],
       heap := HeapPush(s.heap, Entry(now + ttl, id)),
       wakeup := true,
       watchdog := if s.watchdog.NotRunning? then OuterWait else s.watchdog,
       clock := now,
       log := s.log + [Registered(id)])
  }

  function Touching(s: State, id: Id, ttl: Time, now: Time): State {
    if ttl <= 0.0 then Unregistering(s, id, now)
    else if id !in s.resources then s.(clock := now)
    else s.(resources := s.resources[id := s.resources[id].(due := now + ttl)],
            heap := HeapPush(s.heap, Entry(now + ttl, id)),
            wakeup := true,
            clock := now)
  }

  function Unregistering(s: State, id: Id, now: Time): State {
    s.(resources := s.resources - {id}, clock := now)
  }

  /** The inner loop: discard stale heads, then park on the first current one. */
  function Scan(s: State, now: Time): State
    decreases |s.heap|
  {
    if s.heap == [] then s.(watchdog := OuterWait, clock := now)
    else if !Current(s.resources, s.heap[0]) then Scan(s.(heap := s.heap[1..]), now)
    else if now < s.heap[0].due then s.(watchdog := Sleeping(s.heap[0]), clock := now)
    else ProbeHead(s, s.heap[0], now)
  }

  function ProbeHead(s: State, e: Entry, now: Time): State
    requires Current(s.resources, e)
  {
    var r := s.resources[e.id];
    s.(watchdog := Probing(e, r.ttl, r.hasProbe), clock := now)
  }

  /** Forget the resource, pop the heap unconditionally, call the cleanup. */
  function Reclaim(s: State, e: Entry, now: Time): State
  {
    s.(resources := s.resources - {e.id},
       heap := if s.heap == [] then [] else s.heap[1..],
       watchdog := CallingBack(e.id),
       clock := now,
       log := s.log + [Fired(e.id, e.due, now)])
  }

  /** The step is possible; a timeout is delivered only while the wake-up flag is clear. */
  predicate Enabled(s: State, ev: Event) {
    match ev
    case Register(_, _, _, now) => s.clock <= now
    case Touch(_, _, now) => s.clock <= now
    case Unregister(_, now) => s.clock <= now
    case Wake(now) =>
      s.clock <= now && !s.cancelling && s.wakeup && (s.watchdog.OuterWait? || s.watchdog.Sleeping?)
    case TimerFires(now) =>
      s.clock <= now && !s.cancelling && !s.wakeup && s.watchdog.Sleeping? && s.watchdog.entry.due <= now
    case ProbeReturns(busy, now, later) =>
      && s.clock <= now <= later && !s.cancelling && s.watchdog.Probing?
      && (busy ==> s.watchdog.hasProbe)
    case CallbackReturns(now) => s.clock <= now && !s.cancelling && s.watchdog.CallingBack?
    case Cancel => !s.watchdog.NotRunning?
    case CancelDelivered => s.cancelling
  }

  function Next(s: State, ev: Event): State
    requires Enabled(s, ev)
  {
    match ev
    case Register(id, ttl, hasProbe, now) =>
      if ttl <= 0.0 then Unregistering(s, id, now) else Registering(s, id, ttl, hasProbe, now)
    case Touch(id, ttl, now) => Touching(s, id, ttl, now)
    case Unregister(id, now) => Unregistering(s, id, now)
    case Wake(now) => Scan(s.(wakeup := false), now)
    case TimerFires(now) =>
      if Current(s.resources, s.watchdog.entry) then ProbeHead(s, s.watchdog.entry, now) else Scan(s, now)
    case ProbeReturns(busy, now, later) =>
      var e := s.watchdog.entry;
      if busy then Scan(Touching(s, e.id, s.watchdog.ttl, now), later)
      else if Current(s.resources, e) then Reclaim(s, e, now)
      else Scan(s, now)
    case CallbackReturns(now) => Scan(s, now)
    case Cancel => s.(cancelling := true)
    case CancelDelivered => s.(watchdog := NotRunning, cancelling := false)
  }

  // ---- The invariant ----

  ghost predicate EveryResourceHasItsEntry(s: State) {
    forall id | id in s.resources :: Entry(s.resources[id].due, id) in s.heap
  }

  /** What being suspended at each point promises about the heap and the wake-up flag. */
  ghost predicate ParkedSafely(s: State) {
    match s.watchdog
    case NotRunning => true
    case OuterWait => s.heap == [] || s.wakeup
    case Sleeping(e) => s.wakeup || (s.heap != [] && s.heap[0] == e)
    case Probing(e, ttl, _) => s.heap != [] && s.heap[0] == e && e.due <= s.clock && 0.0 < ttl
    case CallingBack(_) => true
  }

  /** The last thing that happened to the resource is a registration. */
  predicate Armed(log: seq<Observation>, id: Id) {
    if log == [] then false
    else
      var last := log[|log| - 1];
      if last.id == id then last.Registered? else Armed(log[..|log| - 1], id)
  }

  ghost predicate OneCleanupPerRegistration(log: seq<Observation>) {
    forall j | 0 <= j < |log| && log[j].Fired? :: Armed(log[..j], log[j].id)
  }

  ghost predicate CleanupsAccounted(s: State) {
    && OneCleanupPerRegistration(s.log)
    && (forall id | id in s.resources :: Armed(s.log, id))
    && (forall j | 0 <= j < |s.log| && s.log[j].Fired? :: s.log[j].due <= s.log[j].at)
  }

  ghost predicate Inv(s: State) {
    && Sorted(s.heap)
    && EveryResourceHasItsEntry(s)
    && (forall id | id in s.resources :: 0.0 < s.resources[id].ttl)
    && ParkedSafely(s)
    && CleanupsAccounted(s)
  }

  lemma {:induction false} ScanKeepsInv(s: State, now: Time)
    requires Sorted(s.heap) && EveryResourceHasItsEntry(s) && CleanupsAccounted(s)
    requires forall id | id in s.resources :: 0.0 < s.resources[id].ttl
    ensures var t := Scan(s, now);
      && Inv(t) && t == s.(heap := t.heap, watchdog := t.watchdog, clock := now)
      && |t.heap| <= |s.heap|
      && (t.watchdog.OuterWait? ==> t.heap == [])
      && (t.watchdog.Sleeping? ==> t.heap != [] && t.heap[0] == t.watchdog.entry && now < t.watchdog.entry.due)
      && (t.watchdog.OuterWait? || t.watchdog.Sleeping? || t.watchdog.Probing?)
      && (s.heap != [] && !Current(s.resources, s.heap[0]) ==> |t.heap| < |s.heap|)
    decreases |s.heap|
  {
    if s.heap != [] && !Current(s.resources, s.heap[0]) {
      var popped := s.(heap := s.heap[1..]);
      forall id | id in popped.resources
        ensures Entry(popped.resources[id].due, id) in popped.heap
      {
        var e := Entry(s.resources[id].due, id);
        assert e in s.heap && e != s.heap[0];
      }
      ScanKeepsInv(popped, now);
    }
  }

  lemma PushKeepsEntries(s: State, e: Entry, r: Resource)
    requires Sorted(s.heap) && EveryResourceHasItsEntry(s) && r.due == e.due
    ensures Sorted(HeapPush(s.heap, e))
    ensures EveryResourceHasItsEntry(s.(resources := s.resources[e.id := r], heap := HeapPush(s.heap, e)))
    ensures s.heap != [] && s.heap[0].due < e.due ==> HeapPush(s.heap, e)[0] == s.heap[0]
    ensures HeapPush(s.heap, e) != []
  {
    HeapPushSorted(s.heap, e);
    HeapPushContents(s.heap, e);
    forall x | x == e || x in s.heap ensures x in HeapPush(s.heap, e) {
      assert x in multiset(HeapPush(s.heap, e));
    }
  }

  lemma Observing(log: seq<Observation>, o: Observation)
    requires OneCleanupPerRegistration(log)
    requires o.Fired? ==> Armed(log, o.id)
    ensures OneCleanupPerRegistration(log + [o])
    ensures forall id :: Armed(log + [o], id) == if o.id == id then o.Registered? else Armed(log, id)
  {
    var longer := log + [o];
    assert longer[..|log|] == log;
    forall j | 0 <= j < |longer| && longer[j].Fired? ensures Armed(longer[..j], longer[j].id) {
      assert longer[..j] == log[..j];
    }
  }

  lemma RegisteringKeepsInv(s: State, id: Id, ttl: Time, hasProbe: bool, now: Time)
    requires Inv(s) && s.clock <= now && 0.0 < ttl
    ensures Inv(Registering(s, id, ttl, hasProbe, now))
  {
    PushKeepsEntries(s, Entry(now + ttl, id), Resource(now + ttl, ttl, hasProbe));
    Observing(s.log, Registered(id));
  }

  lemma TouchingKeepsInv(s: State, id: Id, ttl: Time, now: Time)
    requires Inv(s) && s.clock <= now
    ensures Inv(Touching(s, id, ttl, now))
  {
    if 0.0 < ttl && id in s.resources {
      PushKeepsEntries(s, Entry(now + ttl, id), s.resources[id].(due := now + ttl));
    }
  }

  /** The unconditional pop after a reclaim removes the reclaimed resource's own entry, which is the
      least of the heap, so no other live resource loses its entry. */
  lemma ReclaimKeepsInv(s: State, now: Time)
    requires Inv(s) && s.clock <= now && s.watchdog.Probing? && Current(s.resources, s.watchdog.entry)
    ensures s.heap[0] == Entry(s.resources[s.watchdog.entry.id].due, s.watchdog.entry.id)
    ensures Inv(Reclaim(s, s.watchdog.entry, now))
  {
    var e := s.watchdog.entry;
    var t := Reclaim(s, e, now);
    forall id | id in t.resources ensures Entry(t.resources[id].due, id) in t.heap {
      assert Entry(s.resources[id].due, id) in s.heap;
    }
    Observing(s.log, Fired(e.id, e.due, now));
  }

  lemma StepKeepsInv(s: State, ev: Event)
    requires Inv(s) && Enabled(s, ev)
    ensures Inv(Next(s, ev))
  {
    match ev
    case Register(id, ttl, hasProbe, now) =>
      if 0.0 < ttl { RegisteringKeepsInv(s, id, ttl, hasProbe, now); }
    case Touch(id, ttl, now) => TouchingKeepsInv(s, id, ttl, now);
    case Unregister(_, _) =>
    case Wake(now) => ScanKeepsInv(s.(wakeup := false), now);
    case TimerFires(now) => ScanKeepsInv(s, now);
    case ProbeReturns(busy, now, later) =>
      if busy {
        TouchingKeepsInv(s, s.watchdog.entry.id, s.watchdog.ttl, now);
        ScanKeepsInv(Touching(s, s.watchdog.entry.id, s.watchdog.ttl, now), later);
      } else if Current(s.resources, s.watchdog.entry) {
        ReclaimKeepsInv(s, now);
      } else {
        ScanKeepsInv(s, now);
      }
    case CallbackReturns(now) => ScanKeepsInv(s, now);
    case Cancel =>
    case CancelDelivered =>
  }

  // ---- Whole runs ----

  ghost predicate ValidRun(s: State, evs: seq<Event>)
    decreases |evs|
  {
    evs == [] || (Enabled(s, evs[0]) && ValidRun(Next(s, evs[0]), evs[1..]))
  }

  ghost function Run(s: State, evs: seq<Event>): State
    requires ValidRun(s, evs)
    decreases |evs|
  {
    if evs == [] then s else Run(Next(s, evs[0]), evs[1..])
  }

  lemma {:induction false} RunKeepsInv(s: State, evs: seq<Event>)
    requires Inv(s) && ValidRun(s, evs)
    ensures Inv(Run(s, evs))
    decreases |evs|
  {
    if evs == [] {
    } else {
      StepKeepsInv(s, evs[0]);
      RunKeepsInv(Next(s, evs[0]), evs[1..]);
    }
  }

  lemma ReachableInv(evs: seq<Event>)
    requires ValidRun(INITIAL, evs)
    ensures Inv(Run(INITIAL, evs))
  {
    RunKeepsInv(INITIAL, evs);
  }

  /** Main result: in every reachable interleaving each live resource has a heap entry with exactly
      its current deadline, and a watchdog about to reclaim holds the heap head, which is that
      resource's own entry. */
  lemma LiveResourcesStayScheduled(evs: seq<Event>)
    requires ValidRun(INITIAL, evs)
    ensures var s := Run(INITIAL, evs);
      && (forall id | id in s.resources :: Entry(s.resources[id].due, id) in s.heap)
      && (s.watchdog.Probing? && Current(s.resources, s.watchdog.entry) ==>
            && s.heap != []
            && s.heap[0] == Entry(s.resources[s.watchdog.entry.id].due, s.watchdog.entry.id)
            && multiset(Reclaim(s, s.watchdog.entry, s.clock).heap)
                 == multiset(s.heap) - multiset{s.watchdog.entry})
  {
    ReachableInv(evs);
    var s := Run(INITIAL, evs);
    if s.heap != [] {
      assert s.heap == [s.heap[0]] + s.heap[1..];
    }
  }

  /** A step that runs a cleanup runs it for a resource that was live, whose current deadline has
      passed; the resource is then forgotten and the other resources are untouched. */
  lemma CleanupOnlyAfterDeadline(s: State, ev: Event)
    requires Inv(s) && Enabled(s, ev)
    ensures var t := Next(s, ev);
      t.log == s.log
      || (ev.Register? && t.log == s.log + [Registered(ev.id)])
      || (exists id, due, at ::
            && t.log == s.log + [Fired(id, due, at)]
            && id in s.resources && s.resources[id].due == due <= at == t.clock
            && t.resources == s.resources - {id})
  {
    match ev
    case Wake(now) => ScanKeepsInv(s.(wakeup := false), now);
    case TimerFires(now) => ScanKeepsInv(s, now);
    case ProbeReturns(busy, now, later) =>
      if busy {
        TouchingKeepsInv(s, s.watchdog.entry.id, s.watchdog.ttl, now);
        ScanKeepsInv(Touching(s, s.watchdog.entry.id, s.watchdog.ttl, now), later);
      } else if Current(s.resources, s.watchdog.entry) {
        var e := s.watchdog.entry;
        assert Next(s, ev).log == s.log + [Fired(e.id, e.due, now)];
      } else {
        ScanKeepsInv(s, now);
      }
    case CallbackReturns(now) => ScanKeepsInv(s, now);
    case _ =>
  }

  lemma {:induction false} ArmedBy(log: seq<Observation>, id: Id, from: nat) returns (k: nat)
    requires Armed(log, id) && from < |log| && log[from].id == id && log[from].Fired?
    ensures from < k < |log| && log[k] == Registered(id)
  {
    k := |log| - 1;
    if log[k].id != id {
      k := ArmedBy(log[..|log| - 1], id, from);
    }
  }

  /** At most one cleanup per registration: between two cleanups of one resource, in any run, the
      resource was registered again; and no cleanup runs before its deadline. */
  lemma OneCleanupPerRegistrationOverRuns(evs: seq<Event>, i: nat, j: nat) returns (k: nat)
    requires ValidRun(INITIAL, evs)
    requires i < j < |Run(INITIAL, evs).log|
    requires Run(INITIAL, evs).log[i].Fired? && Run(INITIAL, evs).log[j].Fired?
    requires Run(INITIAL, evs).log[i].id == Run(INITIAL, evs).log[j].id
    ensures i < k < j && Run(INITIAL, evs).log[k] == Registered(Run(INITIAL, evs).log[i].id)
    ensures Run(INITIAL, evs).log[j].due <= Run(INITIAL, evs).log[j].at
  {
    ReachableInv(evs);
    var log := Run(INITIAL, evs).log;
    k := ArmedBy(log[..j], log[i].id, i);
  }

  // ---- No lost wake-up ----

  ghost predicate Overdue(s: State, now: Time) {
    exists id | id in s.resources :: s.resources[id].due <= now
  }

  predicate WatchdogEvent(ev: Event) {
    ev.Wake? || ev.TimerFires? || ev.ProbeReturns? || ev.CallbackReturns?
  }

  /** A next step of the watchdog, its probe answering that the resource is idle. */
  function WatchdogMove(s: State, now: Time): Event {
    match s.watchdog
    case Probing(_, _, _) => ProbeReturns(false, now, now)
    case CallingBack(_) => CallbackReturns(now)
    case _ => if s.wakeup then Wake(now) else TimerFires(now)
  }

  ghost predicate Running(s: State) { !s.cancelling && !s.watchdog.NotRunning? }

  /** While the watchdog runs, an overdue resource always leaves it an enabled step. */
  lemma OverdueNeverStuck(s: State, now: Time)
    requires Inv(s) && s.clock <= now && Running(s) && Overdue(s, now)
    ensures WatchdogEvent(WatchdogMove(s, now)) && Enabled(s, WatchdogMove(s, now))
  {
    var id :| id in s.resources && s.resources[id].due <= now;
    var i :| 0 <= i < |s.heap| && s.heap[i] == Entry(s.resources[id].due, id);
    assert i > 0 ==> Before(s.heap[0], s.heap[i]);
  }

  /** An own step of the watchdog at one instant, whatever its probe answers. */
  predicate OwnStep(ev: Event, now: Time) {
    match ev
    case Wake(at) => at == now
    case TimerFires(at) => at == now
    case ProbeReturns(_, at, later) => at == now && later == now
    case CallbackReturns(at) => at == now
    case _ => false
  }

  /** The heap entries, stale ones included, whose time has come. */
  function DueEntries(heap: seq<Entry>, now: Time): nat {
    if heap == [] then 0 else DueEntries(heap[1..], now) + if heap[0].due <= now then 1 else 0
  }

  lemma {:induction false} LaterEntryIsNotDue(heap: seq<Entry>, e: Entry, now: Time)
    requires now < e.due
    ensures DueEntries(HeapPush(heap, e), now) == DueEntries(heap, now)
  {
    if heap == [] || Before(e, heap[0]) {
      assert ([e] + heap)[1..] == heap;
    } else {
      LaterEntryIsNotDue(heap[1..], e, now);
      assert ([heap[0]] + HeapPush(heap[1..], e))[1..] == HeapPush(heap[1..], e);
    }
  }

  lemma {:induction false} ScanPops(s: State, now: Time)
    ensures DueEntries(Scan(s, now).heap, now) <= DueEntries(s.heap, now)
    ensures s.heap != [] && s.heap[0].due <= now && !Current(s.resources, s.heap[0])
            ==> DueEntries(Scan(s, now).heap, now) < DueEntries(s.heap, now)
    ensures Scan(s, now).wakeup == s.wakeup && Scan(s, now).cancelling == s.cancelling
    ensures ParkRank(Scan(s, now).watchdog) <= 1 && !Scan(s, now).watchdog.NotRunning?
    decreases |s.heap|
  {
    if s.heap != [] && !Current(s.resources, s.heap[0]) {
      ScanPops(s.(heap := s.heap[1..]), now);
    }
  }

  function ParkRank(w: Watchdog): nat {
    match w
    case CallingBack(_) => 2
    case Sleeping(_) => 1
    case _ => 0
  }

  /** How many own steps the watchdog can take at one instant. */
  function StepsLeft(s: State, now: Time): nat {
    4 * DueEntries(s.heap, now) + (if s.wakeup then 2 else 0) + ParkRank(s.watchdog)
  }

  /** A probe's answer uses up the probed entry: a renewed resource is due later, an idle one is reclaimed. */
  lemma AnswerUsesEntry(s: State, busy: bool, now: Time)
    requires Inv(s) && Enabled(s, ProbeReturns(busy, now, now))
    ensures var t := Next(s, ProbeReturns(busy, now, now));
      && DueEntries(t.heap, now) < DueEntries(s.heap, now) && Running(t)
      && (busy ==> ParkRank(t.watchdog) <= 1) && (!busy ==> t.wakeup == s.wakeup)
  {
    var e := s.watchdog.entry;
    if busy {
      var touched := Touching(s, e.id, s.watchdog.ttl, now);
      var later := Entry(now + s.watchdog.ttl, e.id);
      if e.id in s.resources {
        LaterEntryIsNotDue(s.heap, later, now);
        HeapPushSorted(s.heap, later);
      }
      assert touched.heap[0] == e && !Current(touched.resources, e);
      ScanPops(touched, now);
    } else if !Current(s.resources, e) {
      ScanPops(s, now);
    }
  }

  /** Every own step, whatever a probe answers, takes the watchdog nearer to its rest. */
  lemma OwnStepMakesProgress(s: State, ev: Event, now: Time)
    requires Inv(s) && Running(s) && Enabled(s, ev) && OwnStep(ev, now)
    ensures Running(Next(s, ev)) && StepsLeft(Next(s, ev), now) < StepsLeft(s, now)
  {
    match ev
    case ProbeReturns(busy, _, _) => AnswerUsesEntry(s, busy, now);
    case Wake(_) => ScanPops(s.(wakeup := false), now);
    case _ => ScanPops(s, now);
  }

  /** Main result: in every run of the watchdog's own steps at one instant, whatever the probes answer, there are
      only so many steps; and once it has none left, no live resource is overdue: no wake-up is lost and
      discarding stale entries terminates. */
  lemma {:induction false} WatchdogSettles(s: State, moves: seq<Event>, now: Time)
    requires Inv(s) && s.clock <= now && Running(s)
    requires ValidRun(s, moves) && forall m | m in moves :: OwnStep(m, now)
    ensures |moves| <= StepsLeft(s, now)
    ensures Running(Run(s, moves))
    ensures (forall m | OwnStep(m, now) :: !Enabled(Run(s, moves), m)) ==> !Overdue(Run(s, moves), now)
    decreases |moves|
  {
    if moves == [] {
      if Overdue(s, now) {
        OverdueNeverStuck(s, now);
        assert OwnStep(WatchdogMove(s, now), now);
      }
    } else {
      StepKeepsInv(s, moves[0]);
      OwnStepMakesProgress(s, moves[0], now);
      OwnStepTime(s, moves[0], now);
      WatchdogSettles(Next(s, moves[0]), moves[1..], now);
    }
  }

  lemma OwnStepTime(s: State, ev: Event, now: Time)
    requires Inv(s) && Enabled(s, ev) && OwnStep(ev, now)
    ensures Next(s, ev).clock == now
  {
    match ev
    case ProbeReturns(busy, _, _) =>
      if busy {
        TouchingKeepsInv(s, s.watchdog.entry.id, s.watchdog.ttl, now);
        ScanKeepsInv(Touching(s, s.watchdog.entry.id, s.watchdog.ttl, now), now);
      } else if !Current(s.resources, s.watchdog.entry) {
        ScanKeepsInv(s, now);
      }
    case Wake(_) => ScanKeepsInv(s.(wakeup := false), now);
    case _ => ScanKeepsInv(s, now);
  }

  /** From a state with a running watchdog its own steps lead to one without an overdue resource. */
  lemma {:induction false} WatchdogCatchesUp(s: State, now: Time) returns (moves: seq<Event>)
    requires Inv(s) && s.clock <= now && Running(s)
    ensures ValidRun(s, moves) && forall m | m in moves :: OwnStep(m, now)
    ensures !Overdue(Run(s, moves), now)
    decreases StepsLeft(s, now)
  {
    if !Overdue(s, now) {
      moves := [];
    } else {
      var move := WatchdogMove(s, now);
      OverdueNeverStuck(s, now);
      StepKeepsInv(s, move);
      OwnStepMakesProgress(s, move, now);
      OwnStepTime(s, move, now);
      var rest := WatchdogCatchesUp(Next(s, move), now);
      RunCons(s, move, rest);
      moves := [move] + rest;
    }
  }

  lemma RunCons(s: State, ev: Event, rest: seq<Event>)
    ensures ValidRun(s, [ev] + rest) == (Enabled(s, ev) && ValidRun(Next(s, ev), rest))
    ensures ValidRun(s, [ev] + rest) ==> Run(s, [ev] + rest) == Run(Next(s, ev), rest)
  {
    assert ([ev] + rest)[1..] == rest;
  }

  /** Own steps lead from here to a state without an overdue resource. */
  ghost predicate CanCatchUp(s: State, now: Time) {
    exists moves ::
      ValidRun(s, moves) && (forall m | m in moves :: WatchdogEvent(m)) && !Overdue(Run(s, moves), now)
  }

  /** A stopped watchdog, and one that is being cancelled, takes no step. */
  lemma StoppedTakesNoStep(s: State, ev: Event)
    requires !Running(s) && WatchdogEvent(ev)
    ensures !Enabled(s, ev)
  {
  }

  /** Main result: exactly when a watchdog runs that is not being cancelled, or nothing is overdue anyway, the
      watchdog's own steps leave no live resource overdue. */
  lemma CatchesUpIffRunning(s: State, now: Time)
    requires Inv(s) && s.clock <= now
    ensures CanCatchUp(s, now) <==> !Overdue(s, now) || Running(s)
  {
    if Running(s) {
      var moves := WatchdogCatchesUp(s, now);
      assert CanCatchUp(s, now);
    } else {
      forall moves | ValidRun(s, moves) && forall m | m in moves :: WatchdogEvent(m) ensures Run(s, moves) == s {
        if moves != [] {
          assert moves[0] in moves && Enabled(s, moves[0]);
          StoppedTakesNoStep(s, moves[0]);
        }
      }
      assert ValidRun(s, []) && Run(s, []) == s;
    }
  }

  /** A registration leaves a running watchdog behind exactly when none is being cancelled. */
  lemma RegisterRunsIffNotCancelling(s: State, id: Id, ttl: Time, hasProbe: bool, now: Time)
    requires Inv(s) && s.clock <= now && 0.0 < ttl
    ensures Running(Next(s, Register(id, ttl, hasProbe, now))) <==> !s.cancelling
  {
  }

  /** A registration that arrives between a cancellation and its delivery is not followed by a restart. */
  lemma CancelledWatchdogForgets()
    ensures exists evs ::
      && ValidRun(INITIAL, evs)
      && var s := Run(INITIAL, evs);
         1 in s.resources && s.watchdog.NotRunning? && s.wakeup
  {
    var e1, e2, e3, e4 := Register(0, 1.0, false, 0.0), Cancel, Register(1, 1.0, false, 0.0), CancelDelivered;
    var s1 := Next(INITIAL, e1);
    var s2 := Next(s1, e2);
    var s3 := Next(s2, e3);
    var s4 := Next(s3, e4);
    RunCons(s3, e4, []);
    RunCons(s2, e3, [e4]);
    RunCons(s1, e2, [e3] + [e4]);
    RunCons(INITIAL, e1, [e2] + ([e3] + [e4]));
    assert [e4] + [] == [e4];
    var evs := [e1] + ([e2] + ([e3] + [e4]));
    assert ValidRun(INITIAL, evs) && Run(INITIAL, evs) == s4;
  }

  // ---- The manager ----

  class LifespanManager {
    var resources: map<Id, Resource>
    var heap: seq<Entry>
    var wakeup: bool
    var watchdog: Watchdog
    var cancelling: bool
    ghost var clock: Time
    ghost var log: seq<Observation>

    ghost function Model(): State
      reads this
    {
      State(resources, heap, wakeup, watchdog, cancelling, clock, log)
    }

    constructor ()
      ensures Model() == INITIAL
    {
      resources, heap, wakeup := map[], [], false;
      watchdog, cancelling, clock, log := NotRunning, false, 0.0, [];
    }

    method RegisterResource(id: Id, ttl: Time, hasProbe: bool, now: Time)
      requires Inv(Model()) && Enabled(Model(), Register(id, ttl, hasProbe, now))
      modifies this
      ensures Model() == Next(old(Model()), Register(id, ttl, hasProbe, now)) && Inv(Model())
    {
      StepKeepsInv(Model(), Register(id, ttl, hasProbe, now));
      clock := now;
      if ttl <= 0.0 {
        resources := resources - {id};
        return;
      }
      var expireTime := now + ttl;
      resources := resources[id := Resource(expireTime, ttl, hasProbe)];
      heap := HeapPush(heap, Entry(expireTime, id));
      wakeup := true;
      if watchdog.NotRunning? {
        watchdog := OuterWait;
      }
      log := log + [Registered(id)];
    }

    method TouchResource(id: Id, ttl: Time, now: Time)
      requires Inv(Model()) && clock <= now
      modifies this
      ensures Model() == Touching(old(Model()), id, ttl, now) && Inv(Model())
    {
      TouchingKeepsInv(Model(), id, ttl, now);
      clock := now;
      if ttl <= 0.0 {
        resources := resources - {id};
        return;
      }
      if id in resources {
        var expireTime := now + ttl;
        resources := resources[id := resources[id].(due := expireTime)];
        heap := HeapPush(heap, Entry(expireTime, id));
        wakeup := true;
      }
    }

    method UnregisterResource(id: Id, now: Time)
      requires Inv(Model()) && clock <= now
      modifies this
      ensures Model() == Unregistering(old(Model()), id, now) && Inv(Model())
    {
      StepKeepsInv(Model(), Unregister(id, now));
      resources := resources - {id};
      clock := now;
    }

    /** The inner loop up to its next suspension. */
    method ScanHeap(now: Time)
      requires Sorted(heap) && EveryResourceHasItsEntry(Model()) && CleanupsAccounted(Model())
      requires forall id | id in resources :: 0.0 < resources[id].ttl
      modifies this
      ensures Model() == Scan(old(Model()), now) && Inv(Model())
    {
      ScanKeepsInv(Model(), now);
      while true
        invariant Scan(Model(), now) == Scan(old(Model()), now)
        decreases |heap|
      {
        if heap == [] {
          break;
        }
        var head := heap[0];
        if head.id !in resources || resources[head.id].due != head.due {
          heap := heap[1..];
          continue;
        }
        clock := now;
        if now < head.due {
          watchdog := Sleeping(head);
        } else {
          watchdog := Probing(head, resources[head.id].ttl, resources[head.id].hasProbe);
        }
        return;
      }
      watchdog := OuterWait;
      clock := now;
    }

    method WakeUp(now: Time)
      requires Inv(Model()) && Enabled(Model(), Wake(now))
      modifies this
      ensures Model() == Next(old(Model()), Wake(now)) && Inv(Model())
    {
      wakeup := false;
      ScanHeap(now);
    }

    method Timeout(now: Time)
      requires Inv(Model()) && Enabled(Model(), TimerFires(now))
      modifies this
      ensures Model() == Next(old(Model()), TimerFires(now)) && Inv(Model())
    {
      var head := watchdog.entry;
      if head.id !in resources || resources[head.id].due != head.due {
        ScanHeap(now);
        return;
      }
      watchdog := Probing(head, resources[head.id].ttl, resources[head.id].hasProbe);
      clock := now;
    }

    method ProbeReturned(busy: bool, now: Time, later: Time)
      requires Inv(Model()) && Enabled(Model(), ProbeReturns(busy, now, later))
      modifies this
      ensures Model() == Next(old(Model()), ProbeReturns(busy, now, later)) && Inv(Model())
    {
      var head := watchdog.entry;
      if busy {
        TouchResource(head.id, watchdog.ttl, now);
        ScanHeap(later);
        return;
      }
      if head.id in resources && resources[head.id].due == head.due {
        ReclaimKeepsInv(Model(), now);
        resources := resources - {head.id};
        heap := heap[1..];
        watchdog := CallingBack(head.id);
        clock := now;
        log := log + [Fired(head.id, head.due, now)];
      } else {
        ScanHeap(now);
      }
    }

    method CallbackReturned(now: Time)
      requires Inv(Model()) && Enabled(Model(), CallbackReturns(now))
      modifies this
      ensures Model() == Next(old(Model()), CallbackReturns(now)) && Inv(Model())
    {
      ScanHeap(now);
    }

    method Stop()
      requires Inv(Model())
      modifies this
      ensures Model() == if old(watchdog).NotRunning? then old(Model()) else Next(old(Model()), Cancel)
      ensures Inv(Model())
    {
      if !watchdog.NotRunning? {
        cancelling := true;
      }
    }
  }
}
