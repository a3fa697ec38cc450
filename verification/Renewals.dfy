/** Deadlines as the callers of the manager asked for them (bocchi/utils/lifespan.py:37-85, 120-158): the time of a
    resource's latest renewal plus the ttl of that renewal, told from what happened and not from what is stored. */
module Renewals {
  import opened Common
  import opened Lifespan

  /** The latest renewal of a resource: when, for how long, and what its registration asked for. */
  datatype Renewal = Renewal(at: Time, ttl: Time, registeredTtl: Time, hasProbe: bool)

  /** A probe under way: of which resource, and what was known of it when the probe began. */
  datatype Probe = Probe(id: Id, due: Time, registeredTtl: Time, hasProbe: bool)

  datatype History = History(live: map<Id, Renewal>, probe: Option<Probe>)

  const NOTHING := History(map[], None)

  function Deadline(r: Renewal): Time { r.at + r.ttl }

  function Renew(live: map<Id, Renewal>, id: Id, now: Time, ttl: Time): map<Id, Renewal> {
    if ttl <= 0.0 then live - {id}
    else if id in live then live[id := live[id].(at := now, ttl := ttl)]
    else live
  }

  /** Registering begins a life, touching and a busy answer renew it; a ttl that is not positive ends it, and so
      does an idle answer unless the deadline has moved since the probe began. */
  function LiveAfter(h: History, ev: Event): map<Id, Renewal> {
    match ev
    case Register(id, ttl, hasProbe, now) =>
      if ttl <= 0.0 then h.live - {id} else h.live[id := Renewal(now, ttl, ttl, hasProbe)]
    case Touch(id, ttl, now) => Renew(h.live, id, now, ttl)
    case Unregister(id, _) => h.live - {id}
    case ProbeReturns(busy, now, _) =>
      if h.probe.None? then h.live
      else
        var probe := h.probe.value;
        if busy then Renew(h.live, probe.id, now, probe.registeredTtl)
        else if probe.id in h.live && Deadline(h.live[probe.id]) == probe.due then h.live - {probe.id}
        else h.live
    case _ => h.live
  }

  /** A step of the watchdog may begin a probe; whom it asks is seen from outside. */
  function Follow(h: History, ev: Event, watchdog: Watchdog): History {
    var live := LiveAfter(h, ev);
    History(live,
            if !WatchdogEvent(ev) then h.probe
            else if watchdog.Probing? && watchdog.entry.id in live then
              var r := live[watchdog.entry.id];
              Some(Probe(watchdog.entry.id, Deadline(r), r.registeredTtl, r.hasProbe))
            else None)
  }

  ghost function HistoryOf(h: History, s: State, evs: seq<Event>): History
    requires ValidRun(s, evs)
    decreases |evs|
  {
    if evs == [] then h
    else
      var t := Next(s, evs[0]);
      HistoryOf(Follow(h, evs[0], t.watchdog), t, evs[1..])
  }

  // ---- What is stored is what was asked for ----

  ghost predicate ResourcesMatch(resources: map<Id, Resource>, live: map<Id, Renewal>) {
    && resources.Keys == live.Keys
    && forall id | id in live ::
         resources[id] == Resource(Deadline(live[id]), live[id].registeredTtl, live[id].hasProbe)
  }

  ghost predicate ProbeMatches(watchdog: Watchdog, probe: Option<Probe>) {
    watchdog.Probing? ==>
      probe == Some(Probe(watchdog.entry.id, watchdog.entry.due, watchdog.ttl, watchdog.hasProbe))
  }

  ghost predicate Matches(s: State, h: History) {
    ResourcesMatch(s.resources, h.live) && ProbeMatches(s.watchdog, h.probe)
  }

  /** A probe asks a live resource whose deadline is that of the entry. */
  ghost predicate ProbesCurrent(s: State) {
    s.watchdog.Probing? ==>
      Current(s.resources, s.watchdog.entry)
      && s.watchdog.ttl == s.resources[s.watchdog.entry.id].ttl
      && s.watchdog.hasProbe == s.resources[s.watchdog.entry.id].hasProbe
  }

  lemma {:induction false} ScanProbesCurrent(s: State, now: Time)
    ensures ProbesCurrent(Scan(s, now)) && Scan(s, now).resources == s.resources
    decreases |s.heap|
  {
    if s.heap != [] && !Current(s.resources, s.heap[0]) {
      ScanProbesCurrent(s.(heap := s.heap[1..]), now);
    }
  }

  lemma TouchMatches(s: State, live: map<Id, Renewal>, id: Id, ttl: Time, now: Time)
    requires ResourcesMatch(s.resources, live)
    ensures ResourcesMatch(Touching(s, id, ttl, now).resources, Renew(live, id, now, ttl))
    ensures Touching(s, id, ttl, now).watchdog == s.watchdog
  {
  }

  /** After a step of the watchdog the history follows the probe it began, if any. */
  lemma WatchdogStepMatches(s: State, h: History, ev: Event)
    requires Enabled(s, ev) && WatchdogEvent(ev)
    requires ResourcesMatch(Next(s, ev).resources, LiveAfter(h, ev)) && ProbesCurrent(Next(s, ev))
    ensures Matches(Next(s, ev), Follow(h, ev, Next(s, ev).watchdog))
  {
  }

  lemma AnswerMatches(s: State, h: History, busy: bool, now: Time, later: Time)
    requires Matches(s, h) && Enabled(s, ProbeReturns(busy, now, later))
    ensures var ev := ProbeReturns(busy, now, later);
      ResourcesMatch(Next(s, ev).resources, LiveAfter(h, ev)) && ProbesCurrent(Next(s, ev))
  {
    var e := s.watchdog.entry;
    if busy {
      TouchMatches(s, h.live, e.id, s.watchdog.ttl, now);
      ScanProbesCurrent(Touching(s, e.id, s.watchdog.ttl, now), later);
    } else {
      ScanProbesCurrent(s, now);
    }
  }

  lemma StepMatches(s: State, h: History, ev: Event)
    requires Matches(s, h) && Enabled(s, ev)
    ensures Matches(Next(s, ev), Follow(h, ev, Next(s, ev).watchdog))
  {
    match ev
    case Touch(id, ttl, now) => TouchMatches(s, h.live, id, ttl, now);
    case Wake(now) =>
      ScanProbesCurrent(s.(wakeup := false), now);
      WatchdogStepMatches(s, h, ev);
    case ProbeReturns(busy, now, later) =>
      AnswerMatches(s, h, busy, now, later);
      WatchdogStepMatches(s, h, ev);
    case TimerFires(now) =>
      ScanProbesCurrent(s, now);
      WatchdogStepMatches(s, h, ev);
    case CallbackReturns(now) =>
      ScanProbesCurrent(s, now);
      WatchdogStepMatches(s, h, ev);
    case _ =>
  }

  lemma {:induction false} RunMatches(s: State, h: History, evs: seq<Event>)
    requires Matches(s, h) && ValidRun(s, evs)
    ensures Matches(Run(s, evs), HistoryOf(h, s, evs))
    decreases |evs|
  {
    if evs == [] {
    } else {
      StepMatches(s, h, evs[0]);
      var t := Next(s, evs[0]);
      RunMatches(t, Follow(h, evs[0], t.watchdog), evs[1..]);
    }
  }

  // ---- Main results ----

  /** Main result: over every run exactly the resources whose life goes on are stored, each with the time of its
      latest renewal plus the ttl of that renewal as its deadline, and with the ttl and probe of its registration. */
  lemma DeadlinesAreAsAsked(evs: seq<Event>)
    requires ValidRun(INITIAL, evs)
    ensures var s, h := Run(INITIAL, evs), HistoryOf(NOTHING, INITIAL, evs);
      && s.resources.Keys == h.live.Keys
      && forall id | id in h.live ::
           s.resources[id] == Resource(h.live[id].at + h.live[id].ttl, h.live[id].registeredTtl, h.live[id].hasProbe)
  {
    RunMatches(INITIAL, NOTHING, evs);
  }

  /** Main result: no cleanup comes before the ttl of the latest renewal has passed since that renewal. */
  lemma NoEarlyCleanup(evs: seq<Event>, ev: Event, id: Id, due: Time, at: Time)
    requires ValidRun(INITIAL, evs) && Enabled(Run(INITIAL, evs), ev)
    requires Next(Run(INITIAL, evs), ev).log == Run(INITIAL, evs).log + [Fired(id, due, at)]
    ensures var live := HistoryOf(NOTHING, INITIAL, evs).live;
      id in live && live[id].at + live[id].ttl == due <= at
  {
    var s := Run(INITIAL, evs);
    ReachableInv(evs);
    RunMatches(INITIAL, NOTHING, evs);
    CleanupOnlyAfterDeadline(s, ev);
    assert (s.log + [Fired(id, due, at)])[|s.log|] == Fired(id, due, at);
    assert Next(s, ev).log[|s.log|] == Fired(id, due, at);
  }

  /** Main result: a running watchdog that has no step left at some time has left no resource whose latest renewal
      plus ttl is at or before that time. */
  lemma SettledServesRenewals(evs: seq<Event>, now: Time)
    requires ValidRun(INITIAL, evs)
    requires var s := Run(INITIAL, evs);
      Running(s) && s.clock <= now && forall m | OwnStep(m, now) :: !Enabled(s, m)
    ensures var live := HistoryOf(NOTHING, INITIAL, evs).live;
      forall id | id in live :: now < live[id].at + live[id].ttl
  {
    var s := Run(INITIAL, evs);
    ReachableInv(evs);
    RunMatches(INITIAL, NOTHING, evs);
    assert ValidRun(s, []) && Run(s, []) == s;
    WatchdogSettles(s, [], now);
  }

  /** The event may end or renew the life of the resource. */
  predicate Concerns(ev: Event, id: Id) {
    match ev
    case Register(other, _, _, _) => other == id
    case Touch(other, _, _) => other == id
    case Unregister(other, _) => other == id
    case ProbeReturns(_, _, _) => true
    case _ => false
  }

  /** So a registration stores its own time plus its own ttl, and this stays as long as nothing concerns it. */
  lemma {:induction false} RegistrationStays(s: State, evs: seq<Event>, id: Id, r: Resource)
    requires ValidRun(s, evs) && forall ev | ev in evs :: !Concerns(ev, id)
    requires id in s.resources && s.resources[id] == r
    ensures id in Run(s, evs).resources && Run(s, evs).resources[id] == r
    decreases |evs|
  {
    if evs == [] {
    } else {
      var ev := evs[0];
      assert !Concerns(ev, id);
      match ev {
        case Wake(now) => ScanProbesCurrent(s.(wakeup := false), now);
        case TimerFires(now) => ScanProbesCurrent(s, now);
        case CallbackReturns(now) => ScanProbesCurrent(s, now);
        case _ =>
      }
      RegistrationStays(Next(s, ev), evs[1..], id, r);
    }
  }

  lemma RegisteredFor(s: State, id: Id, ttl: Time, hasProbe: bool, now: Time, evs: seq<Event>)
    requires Enabled(s, Register(id, ttl, hasProbe, now)) && 0.0 < ttl
    requires ValidRun(Next(s, Register(id, ttl, hasProbe, now)), evs) && forall ev | ev in evs :: !Concerns(ev, id)
    ensures var t := Run(Next(s, Register(id, ttl, hasProbe, now)), evs);
      id in t.resources && t.resources[id] == Resource(now + ttl, ttl, hasProbe)
  {
    RegistrationStays(Next(s, Register(id, ttl, hasProbe, now)), evs, id, Resource(now + ttl, ttl, hasProbe));
  }

  // ---- Time, and who may call ----

  /** When the event happens; the two events of a cancellation take no time. */
  function TimeOf(ev: Event): Option<Time> {
    match ev
    case Register(_, _, _, now) => Some(now)
    case Touch(_, _, now) => Some(now)
    case Unregister(_, now) => Some(now)
    case Wake(now) => Some(now)
    case TimerFires(now) => Some(now)
    case ProbeReturns(busy, now, later) => Some(if busy then later else now)
    case CallbackReturns(now) => Some(now)
    case _ => None
  }

  lemma {:induction false} ScanClock(s: State, now: Time)
    ensures Scan(s, now).clock == now
    decreases |s.heap|
  {
    if s.heap != [] && !Current(s.resources, s.heap[0]) {
      ScanClock(s.(heap := s.heap[1..]), now);
    }
  }

  /** The clock shows the time of the latest event. */
  lemma ClockFollows(s: State, ev: Event)
    requires Enabled(s, ev)
    ensures Next(s, ev).clock == if TimeOf(ev).Some? then TimeOf(ev).value else s.clock
  {
    match ev
    case Wake(now) => ScanClock(s.(wakeup := false), now);
    case ProbeReturns(busy, now, later) =>
      if busy {
        ScanClock(Touching(s, s.watchdog.entry.id, s.watchdog.ttl, now), later);
      } else {
        ScanClock(s, now);
      }
    case TimerFires(now) => ScanClock(s, now);
    case CallbackReturns(now) => ScanClock(s, now);
    case _ =>
  }

  /** Callers never wait: at any time from now on they register, touch and unregister. */
  lemma CallersNeverWait(s: State, id: Id, ttl: Time, hasProbe: bool, now: Time)
    requires s.clock <= now
    ensures Enabled(s, Register(id, ttl, hasProbe, now)) && Enabled(s, Touch(id, ttl, now))
    ensures Enabled(s, Unregister(id, now))
  {
  }

  /** Once a cancellation is delivered the watchdog is gone, and the next registration starts it again. */
  lemma RestartsAfterCancellation(s: State, id: Id, ttl: Time, hasProbe: bool, now: Time)
    requires s.cancelling && s.clock <= now && 0.0 < ttl
    ensures var t := Next(s, CancelDelivered);
      t.watchdog.NotRunning? && t.resources == s.resources && t.heap == s.heap
      && Running(Next(t, Register(id, ttl, hasProbe, now)))
  {
  }

  /** Only a resource that was registered with a probe can be found busy. */
  lemma OnlyProbesFindBusy(evs: seq<Event>, now: Time, later: Time)
    requires ValidRun(INITIAL, evs) && Enabled(Run(INITIAL, evs), ProbeReturns(true, now, later))
    ensures var h := HistoryOf(NOTHING, INITIAL, evs); h.probe.Some? && h.probe.value.hasProbe
  {
    RunMatches(INITIAL, NOTHING, evs);
  }

  /** The very first registration with a positive ttl starts the watchdog. */
  lemma FirstRegistrationStarts(id: Id, ttl: Time, hasProbe: bool, now: Time)
    requires 0.0 < ttl && 0.0 <= now
    ensures Running(Next(INITIAL, Register(id, ttl, hasProbe, now)))
  {
  }
}
