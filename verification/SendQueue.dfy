/** The outgoing message queue (bocchi/services/send_queue.py): callers enqueue a future and wait for
    it, workers settle futures, shutdown drains what is left and cancels the workers.

    A stretch of code between two suspension points is one step. */
module SendQueue {
  import opened Common

  type FutureId = nat
  type WorkerId = nat
  type StopId = nat

  const QUEUE_MAXSIZE: nat := 2000
  const WORKERS: nat := 3

  /** A shutdown under way: waiting for the queue, not yet resumed after the count has dropped to zero, or
      waiting for the workers it has cancelled; `mark` counts the futures that were enqueued before. */
  datatype Stage = Joining | Joined(mark: nat) | Cancelling(mark: nat)

  datatype Outcome = Pending | Sent | Errored | CallerGone

  /** `futures` maps every future ever enqueued to its outcome; identifiers are handed out in enqueue
      order.  `tasksDone` are the futures whose task_done was called. */
  datatype State = State(
    queue: seq<FutureId>,
    unfinished: int,
    busy: map<WorkerId, FutureId>,
    futures: map<FutureId, Outcome>,
    enqueued: nat,
    tasksDone: set<FutureId>,
    crew: Crew)

  /** The idle workers, the shutdowns under way, and which of them has cancelled which worker. `reopened` says
      that a start, or the end of another shutdown, has let calls in while a shutdown was under way. */
  datatype Crew = Crew(
    idle: set<WorkerId>,
    cancelledBy: map<WorkerId, StopId>,
    stopping: bool,
    reopened: bool,
    stops: map<StopId, Stage>,
    spawned: nat)

  datatype Event =
    | Call
    | CallerCancels(future: FutureId)
    | WorkerGets(worker: WorkerId)
    | WorkerFinishes(worker: WorkerId, sent: bool)
    | WorkerCancelled(worker: WorkerId)
    | Start
    | Stop(id: StopId)
    | JoinFires(id: StopId)
    | JoinReturns(id: StopId)
    | JoinTimesOut(id: StopId)
    | StopReturns(id: StopId)

  const INITIAL := State([], 0, map[], map[], 0, {}, Crew({}, map[], false, false, map[], 0))

  // ---- Steps ----

  /** Set the future's result or exception unless it is done already. */
  function Settle(futures: map<FutureId, Outcome>, f: FutureId, o: Outcome): map<FutureId, Outcome> {
    if f in futures && futures[f].Pending? then futures[f := o] else futures
  }

  /** Settle a future that has left its place, then call task_done. */
  function Finish(s: State, f: FutureId, o: Outcome): State {
    s.(futures := Settle(s.futures, f, o), unfinished := s.unfinished - 1, tasksDone := s.tasksDone + {f})
  }

  /** While stopping, or with a full queue, the call bypasses the queue. */
  function Calling(s: State): State {
    if s.crew.stopping || |s.queue| >= QUEUE_MAXSIZE then s
    else s.(queue := s.queue + [s.enqueued],
            unfinished := s.unfinished + 1,
            futures := s.futures[s.enqueued := Pending],
            enqueued := s.enqueued + 1)
  }

  function Drain(s: State): State
    decreases |s.queue|
  {
    if s.queue == [] then s
    else Drain(Finish(s.(queue := s.queue[1..]), s.queue[0], Errored))
  }

  function Workers(s: State): set<WorkerId> { s.crew.idle + s.busy.Keys }

  function NewWorkers(first: nat, n: nat): (ws: set<WorkerId>)
    ensures forall w | w in ws :: first <= w < first + n
  {
    if n == 0 then {} else NewWorkers(first, n - 1) + {first + n - 1}
  }

  /** The workers on the list of tasks: those that no shutdown has cancelled. */
  function Listed(s: State): set<WorkerId> { Workers(s) - s.crew.cancelledBy.Keys }

  function Cancelled(ws: set<WorkerId>, id: StopId): map<WorkerId, StopId> { map w | w in ws :: id }

  /** The shutdown takes the workers off the list and cancels them. */
  function CancellingWorkers(s: State, id: StopId, mark: nat): State {
    s.(crew := s.crew.(cancelledBy := s.crew.cancelledBy + Cancelled(Listed(s), id),
                       stops := s.crew.stops[id := Cancelling(mark)]))
  }

  predicate Enabled(s: State, ev: Event) {
    match ev
    case Call => true
    case CallerCancels(f) => f in s.futures
    case WorkerGets(w) => w in s.crew.idle && w !in s.crew.cancelledBy && s.queue != []
    case WorkerFinishes(w, _) => w in s.busy
    case WorkerCancelled(w) => w in s.busy || (w in s.crew.idle && w in s.crew.cancelledBy)
    case Start => true
    case Stop(id) => id !in s.crew.stops
    case JoinFires(id) => id in s.crew.stops && s.crew.stops[id].Joining? && s.unfinished == 0
    case JoinReturns(id) => id in s.crew.stops && s.crew.stops[id].Joined?
    case JoinTimesOut(id) => id in s.crew.stops && !s.crew.stops[id].Cancelling?
    case StopReturns(id) => id in s.crew.stops && s.crew.stops[id].Cancelling? && NoneLeft(s.crew, id)
  }

  /** Every worker the shutdown has cancelled has ended. */
  predicate NoneLeft(crew: Crew, id: StopId) { forall w | w in crew.cancelledBy :: crew.cancelledBy[w] != id }

  /** Starting spawns no worker while one is listed. */
  function Starting(s: State): Crew {
    var open := s.crew.(stopping := false, reopened := s.crew.stops != map[]);
    if Listed(s) != {} then open
    else open.(idle := s.crew.idle + NewWorkers(s.crew.spawned, WORKERS), spawned := s.crew.spawned + WORKERS)
  }

  function Leaving(crew: Crew, w: WorkerId): Crew {
    crew.(idle := crew.idle - {w}, cancelledBy := crew.cancelledBy - {w})
  }

  function Returning(crew: Crew, id: StopId): Crew {
    crew.(stopping := false, reopened := crew.stops - {id} != map[], stops := crew.stops - {id})
  }

  function Next(s: State, ev: Event): State
    requires Enabled(s, ev)
  {
    match ev
    case Call => Calling(s)
    case CallerCancels(f) => s.(futures := Settle(s.futures, f, CallerGone))
    case WorkerGets(w) =>
      s.(queue := s.queue[1..], busy := s.busy[w := s.queue[0]], crew := s.crew.(idle := s.crew.idle - {w}))
    case WorkerFinishes(w, sent) =>
      Finish(s.(busy := s.busy - {w}), s.busy[w], if sent then Sent else Errored)
        .(crew := s.crew.(idle := s.crew.idle + {w}))
    case WorkerCancelled(w) =>
      (if w in s.busy then Finish(s.(busy := s.busy - {w}), s.busy[w], Errored) else s).(crew := Leaving(s.crew, w))
    case Start => s.(crew := Starting(s))
    case Stop(id) => s.(crew := s.crew.(stopping := true, stops := s.crew.stops[id := Joining]))
    case JoinFires(id) => s.(crew := s.crew.(stops := s.crew.stops[id := Joined(s.enqueued)]))
    case JoinReturns(id) => CancellingWorkers(s, id, s.crew.stops[id].mark)
    case JoinTimesOut(id) => CancellingWorkers(Drain(s), id, s.enqueued)
    case StopReturns(id) => s.(crew := Returning(s.crew, id))
  }

  // ---- The invariant ----

  /** The oldest future still waiting; older ones have left the queue. */
  function Head(s: State): int { s.enqueued - |s.queue| }

  /** First in, first out: the queue holds the newest futures in order, workers hold older ones. */
  ghost predicate QueueOrdered(s: State) {
    && |s.queue| <= s.enqueued
    && (forall i | 0 <= i < |s.queue| :: s.queue[i] == Head(s) + i)
    && (forall w | w in s.busy :: s.busy[w] < Head(s))
    && (forall v, w | v in s.busy && w in s.busy && v != w :: s.busy[v] != s.busy[w])
  }

  /** Every enqueued future is waiting, being sent, or past its one task_done; a future past its
      task_done was settled before. */
  ghost predicate TasksAccounted(s: State) {
    && (forall f: FutureId :: f in s.futures <==> f < s.enqueued)
    && s.unfinished == |s.queue| + |s.busy|
    && |s.tasksDone| + s.unfinished == s.enqueued
    && (forall f | f in s.tasksDone :: f < Head(s) && !s.futures[f].Pending?)
    && (forall w | w in s.busy :: s.busy[w] !in s.tasksDone)
  }

  ghost predicate WorkersConsistent(s: State) {
    && (forall w | w in s.crew.idle :: w !in s.busy && w < s.crew.spawned)
    && (forall w | w in s.busy :: w < s.crew.spawned)
    && s.crew.cancelledBy.Keys <= Workers(s)
  }

  /** The worker was cancelled by a shutdown that waits for it. */
  predicate Awaited(crew: Crew, w: WorkerId) {
    w in crew.cancelledBy && crew.cancelledBy[w] in crew.stops && crew.stops[crew.cancelledBy[w]].Cancelling?
  }

  /** What a shutdown that has its mark can rely on: earlier futures have left the queue, a worker that holds
      one has been cancelled, and there are no later ones unless something was let in. */
  ghost predicate Marked(s: State, mark: nat) {
    && mark <= Head(s) && |s.queue| <= s.enqueued
    && (forall w | w in s.busy && s.busy[w] < mark :: w in s.crew.cancelledBy)
    && (!s.crew.reopened ==> mark == s.enqueued)
  }

  /** Every worker has been cancelled, unless something was let in. */
  ghost predicate NoneListed(s: State) { !s.crew.reopened ==> Workers(s) <= s.crew.cancelledBy.Keys }

  ghost predicate AllAwaited(crew: Crew) { forall w | w in crew.cancelledBy :: Awaited(crew, w) }

  /** While shutdowns are under way the queue is closed, unless something has let calls in; it is closed again
      only by a further shutdown. */
  ghost predicate Openness(crew: Crew) {
    && (crew.stops == map[] ==> !crew.stopping && !crew.reopened)
    && (crew.stops != map[] && !crew.reopened ==> crew.stopping)
    && (crew.reopened && |crew.stops| <= 1 ==> !crew.stopping)
  }

  ghost predicate FlagsConsistent(crew: Crew) { AllAwaited(crew) && Openness(crew) }

  ghost predicate StageConsistent(s: State, stage: Stage) {
    (!stage.Joining? ==> Marked(s, stage.mark)) && (stage.Cancelling? ==> NoneListed(s))
  }

  ghost predicate StagesConsistent(s: State) {
    forall id | id in s.crew.stops :: StageConsistent(s, s.crew.stops[id])
  }

  ghost predicate StopsConsistent(s: State) { FlagsConsistent(s.crew) && StagesConsistent(s) }

  ghost predicate CrewConsistent(s: State) { WorkersConsistent(s) && StopsConsistent(s) }

  ghost predicate Inv(s: State) {
    QueueOrdered(s) && TasksAccounted(s) && CrewConsistent(s)
  }

  // Each part of the invariant is kept on its own; a future leaves its place and is finished in the
  // same stretch, so these two always come together.

  function DrainOne(s: State): State
    requires s.queue != []
  {
    Finish(s.(queue := s.queue[1..]), s.queue[0], Errored)
  }

  function Release(s: State, w: WorkerId, o: Outcome): State
    requires w in s.busy
  {
    Finish(s.(busy := s.busy - {w}), s.busy[w], o)
  }

  lemma DrainOneKeepsOrder(s: State)
    requires QueueOrdered(s) && s.queue != []
    ensures QueueOrdered(DrainOne(s)) && s.queue[0] == Head(s) && Head(DrainOne(s)) == Head(s) + 1
  {
  }

  lemma DrainOneKeepsTasks(s: State)
    requires QueueOrdered(s) && TasksAccounted(s) && s.queue != []
    ensures QueueOrdered(DrainOne(s)) && TasksAccounted(DrainOne(s))
  {
    DrainOneKeepsOrder(s);
    var t := DrainOne(s);
    assert s.queue[0] !in s.tasksDone && |t.tasksDone| == |s.tasksDone| + 1;
  }

  lemma ReleaseKeepsOrder(s: State, w: WorkerId, o: Outcome)
    requires QueueOrdered(s) && w in s.busy
    ensures QueueOrdered(Release(s, w, o))
  {
  }

  lemma ReleaseKeepsTasks(s: State, w: WorkerId, o: Outcome)
    requires QueueOrdered(s) && TasksAccounted(s) && w in s.busy && !o.Pending?
    ensures QueueOrdered(Release(s, w, o)) && TasksAccounted(Release(s, w, o))
  {
    ReleaseKeepsOrder(s, w, o);
    DroppedSize(s.busy, w);
    var f, t := s.busy[w], Release(s, w, o);
    assert |t.tasksDone| == |s.tasksDone| + 1 && Head(t) == Head(s);
    assert f in t.futures && !t.futures[f].Pending?;
  }

  lemma DroppedSize<K, V>(m: map<K, V>, k: K)
    requires k in m
    ensures |m - {k}| == |m| - 1
  {
  }

  lemma GetKeepsTasks(s: State, w: WorkerId)
    requires QueueOrdered(s) && TasksAccounted(s) && s.queue != [] && w !in s.busy
    ensures var t := s.(queue := s.queue[1..], busy := s.busy[w := s.queue[0]]);
      QueueOrdered(t) && TasksAccounted(t)
  {
  }

  lemma CallKeepsOrder(s: State)
    requires QueueOrdered(s)
    ensures QueueOrdered(Calling(s)) && Head(Calling(s)) == Head(s)
  {
  }

  lemma CallKeepsTasks(s: State)
    requires QueueOrdered(s) && TasksAccounted(s)
    ensures QueueOrdered(Calling(s)) && TasksAccounted(Calling(s))
  {
    CallKeepsOrder(s);
  }

  lemma {:induction false} DrainKeepsTasks(s: State)
    requires QueueOrdered(s) && TasksAccounted(s)
    ensures QueueOrdered(Drain(s)) && TasksAccounted(Drain(s))
    ensures Drain(s).queue == [] && Drain(s).busy == s.busy && Drain(s).crew == s.crew
    ensures Drain(s).enqueued == s.enqueued
    decreases |s.queue|
  {
    if s.queue == [] {
    } else {
      DrainOneKeepsTasks(s);
      DrainKeepsTasks(DrainOne(s));
    }
  }

  lemma CrewDoesNotMatter(s: State, crew: Crew)
    requires QueueOrdered(s) && TasksAccounted(s)
    ensures QueueOrdered(s.(crew := crew)) && TasksAccounted(s.(crew := crew))
  {
  }

  lemma CallerCancelsKeepsTasks(s: State, f: FutureId)
    requires QueueOrdered(s) && TasksAccounted(s) && f in s.futures
    ensures QueueOrdered(Next(s, CallerCancels(f))) && TasksAccounted(Next(s, CallerCancels(f)))
  {
  }

  lemma StepKeepsTasks(s: State, ev: Event)
    requires QueueOrdered(s) && TasksAccounted(s) && CrewConsistent(s) && Enabled(s, ev)
    ensures QueueOrdered(Next(s, ev)) && TasksAccounted(Next(s, ev))
  {
    var crew := Next(s, ev).crew;
    match ev
    case Call => CallKeepsTasks(s);
    case CallerCancels(f) => CallerCancelsKeepsTasks(s, f);
    case WorkerGets(w) =>
      GetKeepsTasks(s, w);
      CrewDoesNotMatter(s.(queue := s.queue[1..], busy := s.busy[w := s.queue[0]]), crew);
    case WorkerFinishes(w, sent) =>
      var o := if sent then Sent else Errored;
      ReleaseKeepsTasks(s, w, o);
      CrewDoesNotMatter(Release(s, w, o), crew);
    case WorkerCancelled(w) =>
      if w in s.busy {
        ReleaseKeepsTasks(s, w, Errored);
        CrewDoesNotMatter(Release(s, w, Errored), crew);
      } else {
        CrewDoesNotMatter(s, crew);
      }
    case JoinTimesOut(_) =>
      DrainKeepsTasks(s);
      CrewDoesNotMatter(Drain(s), crew);
    case _ => CrewDoesNotMatter(s, crew);
  }

  lemma StepKeepsWorkers(s: State, ev: Event)
    requires WorkersConsistent(s) && Enabled(s, ev)
    requires ev.JoinTimesOut? ==> Drain(s).busy == s.busy && Drain(s).crew == s.crew
    ensures WorkersConsistent(Next(s, ev))
  {
  }

  lemma StepKeepsAwaited(s: State, ev: Event)
    requires AllAwaited(s.crew) && Enabled(s, ev)
    requires ev.JoinTimesOut? ==> Drain(s).crew == s.crew
    ensures AllAwaited(Next(s, ev).crew)
  {
    match ev
    case JoinReturns(id) => CancellingKeepsAwaited(s, id, s.crew.stops[id].mark);
    case JoinTimesOut(id) => CancellingKeepsAwaited(Drain(s), id, s.enqueued);
    case WorkerCancelled(w) => assert forall v | v in Leaving(s.crew, w).cancelledBy :: Awaited(s.crew, v);
    case _ => assert forall v | v in s.crew.cancelledBy :: Awaited(s.crew, v);
  }

  lemma CancellingKeepsAwaited(s: State, id: StopId, mark: nat)
    requires AllAwaited(s.crew)
    ensures AllAwaited(CancellingWorkers(s, id, mark).crew)
  {
    assert forall v | v in s.crew.cancelledBy :: Awaited(s.crew, v);
  }

  lemma StepKeepsOpenness(s: State, ev: Event)
    requires Openness(s.crew) && Enabled(s, ev)
    requires ev.JoinTimesOut? ==> Drain(s).crew == s.crew
    ensures Openness(Next(s, ev).crew)
  {
    match ev
    case Stop(id) => OneMore(s.crew.stops, id, Joining);
    case JoinFires(id) => SameSize(s.crew.stops, id, Joined(s.enqueued));
    case JoinReturns(id) => SameSize(s.crew.stops, id, Cancelling(s.crew.stops[id].mark));
    case JoinTimesOut(id) => SameSize(s.crew.stops, id, Cancelling(s.enqueued));
    case _ =>
  }

  lemma OneMore<K, V>(m: map<K, V>, k: K, v: V)
    requires k !in m
    ensures |m[k := v]| == |m| + 1 && m[k := v] != map[] && (m != map[] ==> |m| >= 1)
  {
    assert m[k := v].Keys == m.Keys + {k};
    assert m != map[] ==> m.Keys != {};
  }

  lemma SameSize<K, V>(m: map<K, V>, k: K, v: V)
    requires k in m
    ensures |m[k := v]| == |m| && m[k := v] != map[] && m != map[]
  {
    assert m[k := v].Keys == m.Keys;
  }

  lemma StepKeepsFlags(s: State, ev: Event)
    requires FlagsConsistent(s.crew) && Enabled(s, ev)
    requires ev.JoinTimesOut? ==> Drain(s).crew == s.crew
    ensures FlagsConsistent(Next(s, ev).crew)
  {
    StepKeepsAwaited(s, ev);
    StepKeepsOpenness(s, ev);
  }

  // A mark stays valid through every step but the end of the last shutdown.

  lemma CallKeepsMark(s: State, mark: nat)
    requires Marked(s, mark) && (s.crew.stopping || s.crew.reopened)
    ensures Marked(Calling(s), mark)
  {
  }

  lemma CancellingKeepsMark(s: State, id: StopId, own: nat, mark: nat)
    requires Marked(s, mark)
    ensures Marked(CancellingWorkers(s, id, own), mark)
  {
  }

  lemma CancellingListsNone(s: State, id: StopId, own: nat)
    ensures NoneListed(CancellingWorkers(s, id, own))
  {
  }

  lemma CancellingBegins(s: State, id: StopId)
    requires s.queue == []
    ensures Marked(CancellingWorkers(s, id, s.enqueued), s.enqueued)
  {
  }

  lemma GetKeepsMark(s: State, w: WorkerId, mark: nat)
    requires QueueOrdered(s) && Marked(s, mark) && Enabled(s, WorkerGets(w))
    ensures Marked(Next(s, WorkerGets(w)), mark)
  {
    assert s.queue[0] == Head(s);
  }

  lemma LeaveKeepsMark(s: State, w: WorkerId, mark: nat)
    requires WorkersConsistent(s) && Marked(s, mark) && Enabled(s, WorkerCancelled(w))
    ensures Marked(Next(s, WorkerCancelled(w)), mark)
  {
  }

  lemma FinishKeepsMark(s: State, w: WorkerId, sent: bool, mark: nat)
    requires Marked(s, mark) && Enabled(s, WorkerFinishes(w, sent))
    ensures Marked(Next(s, WorkerFinishes(w, sent)), mark)
  {
  }

  /** What draining leaves as it was. */
  ghost predicate DrainIsLocal(s: State) {
    var d := Drain(s);
    d.queue == [] && d.busy == s.busy && d.crew == s.crew && d.enqueued == s.enqueued
  }

  /** The last shutdown returns and leaves no other under way. */
  predicate LastReturn(s: State, ev: Event) { ev.StopReturns? && s.crew.stops - {ev.id} == map[] }

  lemma StepKeepsMark(s: State, ev: Event, mark: nat)
    requires QueueOrdered(s) && WorkersConsistent(s) && Marked(s, mark) && Enabled(s, ev)
    requires s.crew.stopping || s.crew.reopened
    requires DrainIsLocal(s) && s.crew.stops != map[] && !LastReturn(s, ev)
    ensures Marked(Next(s, ev), mark)
  {
    match ev
    case Call => CallKeepsMark(s, mark);
    case WorkerGets(w) => GetKeepsMark(s, w, mark);
    case WorkerFinishes(w, sent) => FinishKeepsMark(s, w, sent, mark);
    case WorkerCancelled(w) => LeaveKeepsMark(s, w, mark);
    case JoinReturns(id) => CancellingKeepsMark(s, id, s.crew.stops[id].mark, mark);
    case JoinTimesOut(id) => CancellingKeepsMark(Drain(s), id, s.enqueued, mark);
    case _ =>
  }

  lemma StepKeepsNoneListed(s: State, ev: Event)
    requires WorkersConsistent(s) && NoneListed(s) && Enabled(s, ev)
    requires DrainIsLocal(s) && s.crew.stops != map[] && !LastReturn(s, ev)
    ensures NoneListed(Next(s, ev))
  {
    match ev
    case JoinReturns(id) => CancellingListsNone(s, id, s.crew.stops[id].mark);
    case JoinTimesOut(id) => CancellingListsNone(Drain(s), id, s.enqueued);
    case _ =>
  }

  /** A step that changes a shutdown's stage makes the new stage consistent. */
  lemma NewStage(s: State, ev: Event)
    requires Inv(s) && Enabled(s, ev) && DrainIsLocal(s)
    requires ev.JoinFires? || ev.JoinReturns? || ev.JoinTimesOut?
    ensures var t := Next(s, ev); ev.id in t.crew.stops && StageConsistent(t, t.crew.stops[ev.id])
  {
    match ev
    case JoinFires(id) => assert s.queue == [] && |s.busy| == 0;
    case JoinReturns(id) =>
      var mark := s.crew.stops[id].mark;
      assert StageConsistent(s, s.crew.stops[id]);
      CancellingKeepsMark(s, id, mark, mark);
      CancellingListsNone(s, id, mark);
    case JoinTimesOut(id) =>
      CancellingBegins(Drain(s), id);
      CancellingListsNone(Drain(s), id, s.enqueued);
  }

  /** A step leaves a shutdown in its stage, begins one, or advances just the one it is about. */
  lemma StageOrigin(s: State, ev: Event, id: StopId)
    requires Enabled(s, ev) && DrainIsLocal(s) && id in Next(s, ev).crew.stops
    ensures (id in s.crew.stops && s.crew.stops[id] == Next(s, ev).crew.stops[id])
            || (ev.Stop? && Next(s, ev).crew.stops[id].Joining?)
            || ((ev.JoinFires? || ev.JoinReturns? || ev.JoinTimesOut?) && ev.id == id)
  {
  }

  lemma StepKeepsStageOf(s: State, ev: Event, id: StopId)
    requires Inv(s) && Enabled(s, ev) && DrainIsLocal(s) && id in Next(s, ev).crew.stops
    ensures StageConsistent(Next(s, ev), Next(s, ev).crew.stops[id])
  {
    StageOrigin(s, ev, id);
    if id in s.crew.stops && s.crew.stops[id] == Next(s, ev).crew.stops[id] {
      StageStays(s, ev, id);
    } else if !ev.Stop? {
      NewStage(s, ev);
    }
  }

  lemma StepKeepsStages(s: State, ev: Event)
    requires Inv(s) && Enabled(s, ev) && DrainIsLocal(s)
    ensures StagesConsistent(Next(s, ev))
  {
    forall id | id in Next(s, ev).crew.stops ensures StageConsistent(Next(s, ev), Next(s, ev).crew.stops[id]) {
      StepKeepsStageOf(s, ev, id);
    }
  }

  lemma StageStays(s: State, ev: Event, id: StopId)
    requires Inv(s) && Enabled(s, ev) && DrainIsLocal(s)
    requires id in s.crew.stops && id in Next(s, ev).crew.stops
    ensures StageConsistent(Next(s, ev), s.crew.stops[id])
  {
    var stage := s.crew.stops[id];
    assert StageConsistent(s, stage);
    assert ev.StopReturns? ==> id in s.crew.stops - {ev.id};
    if !stage.Joining? {
      StepKeepsMark(s, ev, stage.mark);
    }
    if stage.Cancelling? {
      StepKeepsNoneListed(s, ev);
    }
  }

  lemma StepKeepsInv(s: State, ev: Event)
    requires Inv(s) && Enabled(s, ev)
    ensures Inv(Next(s, ev))
  {
    StepKeepsTasks(s, ev);
    DrainKeepsTasks(s);
    StepKeepsWorkers(s, ev);
    StepKeepsFlags(s, ev);
    StepKeepsStages(s, ev);
  }

  // ---- Whole runs ----

  ghost predicate ValidRun(s: State, evs: seq<Event>)
    decreases |evs|
  {
    evs == [] || (Enabled(s, evs[0]) && ValidRun(Next(s, evs[0]), evs[1..]))
  }

  ghost function Run(s: State, evs: seq<Event>): State
    requires ValidRun(s, evs)
    decreases |evs|
  {
    if evs == [] then s else Run(Next(s, evs[0]), evs[1..])
  }

  lemma {:induction false} RunKeepsInv(s: State, evs: seq<Event>)
    requires Inv(s) && ValidRun(s, evs)
    ensures Inv(Run(s, evs))
    decreases |evs|
  {
    if evs == [] {
    } else {
      StepKeepsInv(s, evs[0]);
      RunKeepsInv(Next(s, evs[0]), evs[1..]);
    }
  }

  lemma ReachableInv(evs: seq<Event>)
    requires ValidRun(INITIAL, evs)
    ensures Inv(Run(INITIAL, evs))
  {
    RunKeepsInv(INITIAL, evs);
  }

  /** A set of the numbers below n that has n members is all of them. */
  lemma {:induction false} FullSet(n: nat, done: set<nat>)
    requires (forall f | f in done :: f < n) && |done| >= n
    ensures forall f: nat | f < n :: f in done
  {
    if n > 0 {
      if n - 1 !in done {
        NumbersBelow(n - 1, done);
        assert false;
      }
      FullSet(n - 1, done - {n - 1});
      forall f: nat | f < n ensures f in done {
        assert f < n - 1 ==> f in done - {n - 1};
      }
    }
  }

  lemma {:induction false} NumbersBelow(n: nat, ns: set<nat>)
    requires forall f | f in ns :: f < n
    ensures |ns| <= n
  {
    if n == 0 {
      assert ns == {};
    } else {
      NumbersBelow(n - 1, ns - {n - 1});
      assert ns <= (ns - {n - 1}) + {n - 1};
    }
  }

  /** Main result: over any run the unfinished count is the queue length plus the items held by
      workers; a future that is not settled is waiting or held; a future whose task_done was called
      was settled before. */
  lemma UnfinishedCountsHeldFutures(evs: seq<Event>)
    requires ValidRun(INITIAL, evs)
    ensures var s := Run(INITIAL, evs);
      && s.unfinished == |s.queue| + |s.busy|
      && (forall f | f in s.futures && s.futures[f].Pending? :: f in s.queue || f in s.busy.Values)
      && (forall f | f in s.tasksDone :: f in s.futures && !s.futures[f].Pending?)
  {
    ReachableInv(evs);
    var s := Run(INITIAL, evs);
    forall f | f in s.futures && f !in s.tasksDone ensures f in s.queue || f in s.busy.Values {
      if f >= Head(s) {
        assert s.queue[f - Head(s)] == f;
      } else {
        var w := HeldByWorker(s, f);
      }
    }
  }

  lemma {:induction false} DistinctValues<K, V>(m: map<K, V>)
    requires forall v, w | v in m && w in m && v != w :: m[v] != m[w]
    ensures |m.Values| == |m|
    decreases |m|
  {
    if m == map[] {
    } else {
      var k :| k in m;
      var rest := m - {k};
      DroppedSize(m, k);
      DistinctValues(rest);
      forall v ensures v in m.Values <==> v in rest.Values || v == m[k] {
        if v in m.Values && v != m[k] {
          var w :| w in m && m[w] == v;
          assert w in rest && rest[w] == v;
        }
      }
      assert m.Values == rest.Values + {m[k]};
      assert m[k] !in rest.Values;
    }
  }

  /** Two sets without a common element that have n members below n together are all of them. */
  lemma CoverBelow(n: nat, a: set<nat>, b: set<nat>, f: nat)
    requires (forall g | g in a + b :: g < n) && a !! b && |a| + |b| == n && f < n
    ensures f in a || f in b
  {
    FullSet(n, a + b);
  }

  /** A future that is neither past its task_done nor in the queue is held by a worker. */
  lemma HeldByWorker(s: State, f: FutureId) returns (w: WorkerId)
    requires QueueOrdered(s) && TasksAccounted(s) && f < Head(s) && f !in s.tasksDone
    ensures w in s.busy && s.busy[w] == f
  {
    DistinctValues(s.busy);
    CoverBelow(Head(s), s.tasksDone, s.busy.Values, f);
    w :| w in s.busy && s.busy[w] == f;
  }

  /** Main result: when a shutdown returns, whether the queue was joined or the join timed out, every future that
      was enqueued before it began to cancel is settled, but for those held by a worker that another shutdown,
      still under way, has cancelled. */
  lemma StopSettlesEarlier(evs: seq<Event>, id: StopId, f: FutureId)
    requires ValidRun(INITIAL, evs) && Enabled(Run(INITIAL, evs), StopReturns(id))
    requires f < Run(INITIAL, evs).crew.stops[id].mark
    ensures var s := Run(INITIAL, evs);
      && f in s.futures
      && (s.futures[f].Pending? ==>
            exists w :: w in s.busy && s.busy[w] == f && w in s.crew.cancelledBy && s.crew.cancelledBy[w] != id)
  {
    ReachableInv(evs);
    var s := Run(INITIAL, evs);
    assert StageConsistent(s, s.crew.stops[id]);
    if f !in s.tasksDone {
      var w := HeldByWorker(s, f);
      assert w in s.crew.cancelledBy && s.crew.cancelledBy[w] != id;
    }
  }

  /** Main result: when the only shutdown returns and no start has let calls in meanwhile, every future ever
      enqueued is settled, the queue is empty and no worker is left. */
  lemma ShutdownLeavesNothingPending(evs: seq<Event>, id: StopId)
    requires ValidRun(INITIAL, evs) && Enabled(Run(INITIAL, evs), StopReturns(id))
    requires Run(INITIAL, evs).crew.stops.Keys == {id} && !Run(INITIAL, evs).crew.reopened
    ensures var s := Next(Run(INITIAL, evs), StopReturns(id));
      && (forall f | f in s.futures :: !s.futures[f].Pending?)
      && s.queue == [] && s.unfinished == 0 && Workers(s) == {}
  {
    ReachableInv(evs);
    var s := Run(INITIAL, evs);
    assert StageConsistent(s, s.crew.stops[id]);
    assert forall w | w in s.crew.cancelledBy :: Awaited(s.crew, w);
    assert s.crew.cancelledBy == map[];
    assert s.busy.Keys <= Workers(s);
    FullSet(s.enqueued, s.tasksDone);
  }

  ghost predicate AllSettled(s: State) { forall f | f in s.futures :: !s.futures[f].Pending? }

  /** What a shutdown leaves pending was enqueued after its mark, if it is the only one. */
  lemma OnlyLaterPending(evs: seq<Event>, id: StopId)
    requires ValidRun(INITIAL, evs) && Enabled(Run(INITIAL, evs), StopReturns(id))
    requires Run(INITIAL, evs).crew.stops.Keys == {id}
    ensures var s := Run(INITIAL, evs);
      forall f | f in s.futures && s.futures[f].Pending? :: s.crew.stops[id].mark <= f
  {
    ReachableInv(evs);
    var s := Run(INITIAL, evs);
    assert forall w | w in s.crew.cancelledBy :: Awaited(s.crew, w);
    forall f | f in s.futures && f < s.crew.stops[id].mark ensures !s.futures[f].Pending? {
      StopSettlesEarlier(evs, id, f);
    }
  }

  /** Main result: when the only shutdown is about to return, a call that still comes in is settled with all the
      others exactly when no start has let calls in; otherwise it is left waiting. */
  lemma LateCallSettledIff(evs: seq<Event>, id: StopId)
    requires ValidRun(INITIAL, evs) && Enabled(Run(INITIAL, evs), StopReturns(id))
    requires Run(INITIAL, evs).crew.stops.Keys == {id} && |Run(INITIAL, evs).queue| < QUEUE_MAXSIZE
    ensures var s := Run(INITIAL, evs);
      && Enabled(Calling(s), StopReturns(id))
      && (AllSettled(Next(Calling(s), StopReturns(id))) <==> !s.crew.reopened)
  {
    ReachableInv(evs);
    var s := Run(INITIAL, evs);
    assert |s.crew.stops| == |s.crew.stops.Keys| == 1;
    if s.crew.reopened {
      assert s.enqueued in Calling(s).futures && Calling(s).futures[s.enqueued].Pending?;
    } else {
      assert id in s.crew.stops && Calling(s) == s;
      ShutdownLeavesNothingPending(evs, id);
    }
  }

  lemma RunCons(s: State, ev: Event, rest: seq<Event>)
    requires Enabled(s, ev) && ValidRun(Next(s, ev), rest)
    ensures ValidRun(s, [ev] + rest) && Run(s, [ev] + rest) == Run(Next(s, ev), rest)
  {
    assert ([ev] + rest)[1..] == rest;
  }

  /** A start and a call while the shutdown waits for its workers: it returns and the call is left waiting. */
  lemma StartDuringStopLeavesPending()
    ensures exists evs :: ValidRun(INITIAL, evs) && Enabled(Run(INITIAL, evs), StopReturns(0))
              && 0 in Run(INITIAL, evs).futures && Run(INITIAL, evs).futures[0].Pending?
  {
    var s1 := Next(INITIAL, Stop(0));
    var s2 := Next(s1, JoinTimesOut(0));
    var s3 := Next(s2, Start);
    var s4 := Next(s3, Call);
    assert NoneLeft(s4.crew, 0);
    RunCons(s3, Call, []);
    RunCons(s2, Start, [Call] + []);
    RunCons(s1, JoinTimesOut(0), [Start] + ([Call] + []));
    RunCons(INITIAL, Stop(0), [JoinTimesOut(0)] + ([Start] + ([Call] + [])));
    assert Run(INITIAL, [Stop(0)] + ([JoinTimesOut(0)] + ([Start] + ([Call] + [])))) == s4;
  }

  // ---- Shutdown never hangs ----

  /** What takes the shutdown forward: its own steps, and a cancelled worker's end. */
  predicate OwnStep(ev: Event, id: StopId) {
    ev.WorkerCancelled? || ((ev.JoinFires? || ev.JoinReturns? || ev.JoinTimesOut? || ev.StopReturns?) && ev.id == id)
  }

  /** How many such steps there can still be, and how many at least one way takes. */
  function StepsLeft(s: State, id: StopId): nat { |Workers(s)| + Rank(s.crew.stops, id) }

  function Shortest(s: State, id: StopId): nat { |Workers(s)| + Min(Rank(s.crew.stops, id), 2) }

  function Rank(stops: map<StopId, Stage>, id: StopId): nat {
    if id !in stops then 0 else match stops[id] case Joining => 3 case Joined(_) => 2 case Cancelling(_) => 1
  }

  lemma RemovedFrom<T>(ws: set<T>, w: T, left: set<T>)
    requires w in ws && left == ws - {w}
    ensures |left| < |ws|
  {
  }

  lemma WorkerGone(s: State, w: WorkerId)
    requires Enabled(s, WorkerCancelled(w))
    ensures var t := Next(s, WorkerCancelled(w));
      w in Workers(s) && Workers(t) == Workers(s) - {w} && t.crew.stops == s.crew.stops
  {
  }

  lemma WorkerLeaves(s: State, w: WorkerId, id: StopId)
    requires Enabled(s, WorkerCancelled(w))
    ensures Shorter(Next(s, WorkerCancelled(w)), s, id)
  {
    WorkerGone(s, w);
    RemovedFrom(Workers(s), w, Workers(Next(s, WorkerCancelled(w))));
  }

  /** Fewer workers at the same stage, or a later stage with the same workers. */
  predicate Shorter(t: State, s: State, id: StopId) {
    || (|Workers(t)| < |Workers(s)| && t.crew.stops == s.crew.stops)
    || (Workers(t) == Workers(s) && Rank(t.crew.stops, id) < Rank(s.crew.stops, id))
  }

  lemma ShorterTakesLess(t: State, s: State, id: StopId)
    requires Shorter(t, s, id)
    ensures StepsLeft(t, id) < StepsLeft(s, id)
    ensures Rank(t.crew.stops, id) <= 1 ==> Shortest(t, id) < Shortest(s, id)
  {
  }

  lemma CancellingRank(s: State, id: StopId, mark: nat)
    ensures var t := CancellingWorkers(s, id, mark); Workers(t) == Workers(s) && Rank(t.crew.stops, id) == 1
  {
  }

  lemma TimeoutShortens(s: State, id: StopId)
    requires Enabled(s, JoinTimesOut(id)) && Drain(s).busy == s.busy && Drain(s).crew == s.crew
    ensures var t := Next(s, JoinTimesOut(id)); Shorter(t, s, id) && Rank(t.crew.stops, id) == 1
  {
    CancellingRank(Drain(s), id, s.enqueued);
  }

  lemma FiringShortens(s: State, id: StopId)
    requires Enabled(s, JoinFires(id))
    ensures Shorter(Next(s, JoinFires(id)), s, id)
  {
  }

  lemma JoiningShortens(s: State, id: StopId)
    requires Enabled(s, JoinReturns(id))
    ensures Shorter(Next(s, JoinReturns(id)), s, id)
  {
    CancellingRank(s, id, s.crew.stops[id].mark);
  }

  lemma ReturningShortens(s: State, id: StopId)
    requires Enabled(s, StopReturns(id))
    ensures var t := Next(s, StopReturns(id)); Shorter(t, s, id) && Rank(t.crew.stops, id) == 0
  {
  }

  lemma OwnStepShortens(s: State, ev: Event, id: StopId)
    requires Inv(s) && Enabled(s, ev) && OwnStep(ev, id)
    ensures StepsLeft(Next(s, ev), id) < StepsLeft(s, id)
  {
    if ev.WorkerCancelled? {
      WorkerLeaves(s, ev.worker, id);
    } else if ev.JoinTimesOut? {
      DrainKeepsTasks(s);
      TimeoutShortens(s, id);
    } else if ev.JoinFires? {
      FiringShortens(s, id);
    } else if ev.JoinReturns? {
      JoiningShortens(s, id);
    } else {
      ReturningShortens(s, id);
    }
    ShorterTakesLess(Next(s, ev), s, id);
  }

  /** A shutdown that still waits for a worker can see it end. */
  lemma CancelledWorkerCanEnd(s: State, id: StopId) returns (w: WorkerId)
    requires WorkersConsistent(s) && !NoneLeft(s.crew, id)
    ensures Enabled(s, WorkerCancelled(w))
  {
    w :| w in s.crew.cancelledBy && s.crew.cancelledBy[w] == id;
    assert w in Workers(s);
  }

  /** A shutdown under way always has a step that takes it forward. */
  lemma ShutdownHasStep(s: State, id: StopId) returns (ev: Event)
    requires Inv(s) && id in s.crew.stops
    ensures OwnStep(ev, id) && Enabled(s, ev) && Shortest(Next(s, ev), id) < Shortest(s, id)
  {
    if !s.crew.stops[id].Cancelling? {
      ev := JoinTimesOut(id);
      DrainKeepsTasks(s);
      TimeoutShortens(s, id);
    } else if NoneLeft(s.crew, id) {
      ev := StopReturns(id);
      ReturningShortens(s, id);
    } else {
      var w := CancelledWorkerCanEnd(s, id);
      ev := WorkerCancelled(w);
      WorkerLeaves(s, w, id);
    }
    ShorterTakesLess(Next(s, ev), s, id);
  }

  /** Main result: in every run of such steps there are only so many, and once none is left the shutdown has
      returned. */
  lemma {:induction false} ShutdownSettles(s: State, evs: seq<Event>, id: StopId)
    requires Inv(s) && ValidRun(s, evs) && forall ev | ev in evs :: OwnStep(ev, id)
    ensures |evs| <= StepsLeft(s, id) <= |Workers(s)| + 3
    ensures (forall ev | OwnStep(ev, id) :: !Enabled(Run(s, evs), ev)) ==> id !in Run(s, evs).crew.stops
    decreases |evs|
  {
    if evs == [] {
      if id in s.crew.stops {
        var ev := ShutdownHasStep(s, id);
      }
    } else {
      StepKeepsInv(s, evs[0]);
      OwnStepShortens(s, evs[0], id);
      ShutdownSettles(Next(s, evs[0]), evs[1..], id);
    }
  }

  /** It can always be completed. */
  lemma {:induction false} ShutdownCompletes(s: State, id: StopId) returns (evs: seq<Event>)
    requires Inv(s)
    ensures ValidRun(s, evs) && forall ev | ev in evs :: OwnStep(ev, id)
    ensures id !in Run(s, evs).crew.stops && |evs| <= Shortest(s, id) <= |Workers(s)| + 2
    decreases Shortest(s, id)
  {
    if id !in s.crew.stops {
      evs := [];
    } else {
      var ev := ShutdownHasStep(s, id);
      StepKeepsInv(s, ev);
      var rest := ShutdownCompletes(Next(s, ev), id);
      RunCons(s, ev, rest);
      evs := [ev] + rest;
    }
  }

  lemma {:induction false} DrainKeepsOutcomes(s: State)
    ensures forall f | f in s.futures && !s.futures[f].Pending? ::
      f in Drain(s).futures && Drain(s).futures[f] == s.futures[f]
    decreases |s.queue|
  {
    if s.queue == [] {
    } else {
      DrainKeepsOutcomes(DrainOne(s));
    }
  }

  lemma SettleKeepsOutcome(futures: map<FutureId, Outcome>, g: FutureId, o: Outcome, f: FutureId)
    requires f in futures && !futures[f].Pending?
    ensures f in Settle(futures, g, o) && Settle(futures, g, o)[f] == futures[f]
  {
  }

  lemma StepKeepsOutcome(s: State, ev: Event, f: FutureId)
    requires Inv(s) && Enabled(s, ev) && f in s.futures && !s.futures[f].Pending?
    ensures f in Next(s, ev).futures && Next(s, ev).futures[f] == s.futures[f]
  {
    match ev
    case JoinTimesOut(_) => DrainKeepsOutcomes(s);
    case Call => assert f < s.enqueued;
    case CallerCancels(g) => SettleKeepsOutcome(s.futures, g, CallerGone, f);
    case WorkerFinishes(w, sent) => SettleKeepsOutcome(s.futures, s.busy[w], if sent then Sent else Errored, f);
    case WorkerCancelled(w) =>
      if w in s.busy {
        SettleKeepsOutcome(s.futures, s.busy[w], Errored, f);
      }
    case _ =>
  }

  /** Each future is settled at most once: no step of any run changes an outcome once it is set. */
  lemma {:induction false} OutcomesAreFinal(s: State, evs: seq<Event>, f: FutureId)
    requires Inv(s) && ValidRun(s, evs)
    requires f in s.futures && !s.futures[f].Pending?
    ensures f in Run(s, evs).futures && Run(s, evs).futures[f] == s.futures[f]
    decreases |evs|
  {
    if evs == [] {
    } else {
      StepKeepsInv(s, evs[0]);
      StepKeepsOutcome(s, evs[0], f);
      OutcomesAreFinal(Next(s, evs[0]), evs[1..], f);
    }
  }

  // ---- The queue ----

  class Queue {
    var queue: seq<FutureId>
    var unfinished: int
    var busy: map<WorkerId, FutureId>
    var idle: set<WorkerId>
    var futures: map<FutureId, Outcome>
    var enqueued: nat
    var cancelledBy: map<WorkerId, StopId>
    var stopping: bool
    var stops: map<StopId, Stage>
    var spawned: nat
    ghost var reopened: bool
    ghost var tasksDone: set<FutureId>

    ghost function Model(): State
      reads this
    {
      State(queue, unfinished, busy, futures, enqueued, tasksDone,
            Crew(idle, cancelledBy, stopping, reopened, stops, spawned))
    }

    constructor ()
      ensures Model() == INITIAL
    {
      queue, unfinished, busy, idle := [], 0, map[], {};
      futures, enqueued, tasksDone := map[], 0, {};
      cancelledBy, stopping, reopened, stops, spawned := map[], false, false, map[], 0;
    }

    /** The synchronous part of a queued call; without a future the caller sends directly. */
    method CallApi() returns (future: FutureId, queued: bool)
      modifies this`queue, this`unfinished, this`futures, this`enqueued
      ensures Model() == Next(old(Model()), Call)
      ensures queued ==> future == old(enqueued) && queue == old(queue) + [future]
      ensures !queued <==> old(stopping) || |old(queue)| >= QUEUE_MAXSIZE
    {
      future, queued := enqueued, false;
      if stopping || |queue| >= QUEUE_MAXSIZE {
        return;
      }
      futures := futures[future := Pending];
      enqueued := enqueued + 1;
      queue := queue + [future];
      unfinished := unfinished + 1;
      queued := true;
    }

    method SetOutcome(f: FutureId, o: Outcome)
      modifies this`futures
      ensures futures == Settle(old(futures), f, o)
    {
      if f in futures && futures[f].Pending? {
        futures := futures[f := o];
      }
    }

    method CancelByCaller(f: FutureId)
      requires f in futures
      modifies this`futures
      ensures Model() == Next(old(Model()), CallerCancels(f))
    {
      SetOutcome(f, CallerGone);
    }

    method Get(w: WorkerId)
      requires Enabled(Model(), WorkerGets(w))
      modifies this`queue, this`idle, this`busy
      ensures Model() == Next(old(Model()), WorkerGets(w))
    {
      busy := busy[w := queue[0]];
      queue := queue[1..];
      idle := idle - {w};
    }

    method CompleteTask(f: FutureId, o: Outcome)
      modifies this`futures, this`unfinished, this`tasksDone
      ensures Model() == Finish(old(Model()), f, o)
    {
      SetOutcome(f, o);
      unfinished := unfinished - 1;
      tasksDone := tasksDone + {f};
    }

    method WorkerDone(w: WorkerId, sent: bool)
      requires w in busy
      modifies this
      ensures Model() == Next(old(Model()), WorkerFinishes(w, sent))
    {
      var f := busy[w];
      busy := busy - {w};
      CompleteTask(f, if sent then Sent else Errored);
      idle := idle + {w};
    }

    method WorkerEnds(w: WorkerId)
      requires Enabled(Model(), WorkerCancelled(w))
      modifies this
      ensures Model() == Next(old(Model()), WorkerCancelled(w))
    {
      if w in busy {
        var f := busy[w];
        busy := busy - {w};
        CompleteTask(f, Errored);
      }
      idle, cancelledBy := idle - {w}, cancelledBy - {w};
    }

    method StartQueue()
      modifies this`stopping, this`idle, this`spawned, this`reopened
      ensures Model() == Next(old(Model()), Start)
    {
      stopping, reopened := false, stops != map[];
      if (idle + busy.Keys) - cancelledBy.Keys != {} {
        return;
      }
      var added := Spawn();
      idle := idle + added;
    }

    /** The loop that creates the workers. */
    method Spawn() returns (added: set<WorkerId>)
      modifies this`spawned
      ensures added == NewWorkers(old(spawned), WORKERS) && spawned == old(spawned) + WORKERS
    {
      added := {};
      var n := 0;
      while n < WORKERS
        invariant n <= WORKERS && spawned == old(spawned) && added == NewWorkers(spawned, n)
      {
        added := added + {spawned + n};
        n := n + 1;
      }
      spawned := spawned + WORKERS;
    }

    method BeginStop(id: StopId)
      requires id !in stops
      modifies this`stopping, this`stops
      ensures Model() == Next(old(Model()), Stop(id))
    {
      stopping, stops := true, stops[id := Joining];
    }

    method DrainPending() returns (drained: nat)
      modifies this`queue, this`futures, this`unfinished, this`tasksDone
      ensures Model() == Drain(old(Model())) && drained == |old(queue)|
    {
      drained := 0;
      while queue != []
        invariant Drain(Model()) == Drain(old(Model()))
        invariant drained + |queue| == |old(queue)|
        decreases |queue|
      {
        var f := queue[0];
        queue := queue[1..];
        CompleteTask(f, Errored);
        drained := drained + 1;
      }
    }

    method RequestCancel(id: StopId, mark: nat)
      modifies this`cancelledBy, this`stops
      ensures Model() == CancellingWorkers(old(Model()), id, mark)
    {
      cancelledBy := cancelledBy + Cancelled((idle + busy.Keys) - cancelledBy.Keys, id);
      stops := stops[id := Cancelling(mark)];
    }

    /** The count is zero: the wait for the queue is over, although the shutdown has not been resumed. */
    method JoinFired(id: StopId)
      requires Enabled(Model(), JoinFires(id))
      modifies this`stops
      ensures Model() == Next(old(Model()), JoinFires(id))
    {
      stops := stops[id := Joined(enqueued)];
    }

    method JoinReturned(id: StopId)
      requires Enabled(Model(), JoinReturns(id))
      modifies this`cancelledBy, this`stops
      ensures Model() == Next(old(Model()), JoinReturns(id))
    {
      RequestCancel(id, stops[id].mark);
    }

    method JoinTimedOut(id: StopId) returns (drained: nat)
      requires Enabled(Model(), JoinTimesOut(id))
      modifies this
      ensures Model() == Next(old(Model()), JoinTimesOut(id)) && drained == |old(queue)|
    {
      drained := DrainPending();
      RequestCancel(id, enqueued);
    }

    method FinishStop(id: StopId)
      requires Enabled(Model(), StopReturns(id))
      modifies this`stopping, this`stops, this`reopened
      ensures Model() == Next(old(Model()), StopReturns(id))
    {
      stops := stops - {id};
      stopping, reopened := false, stops != map[];
    }
  }

  // ---- The send rate ----

  type Time = real

  const MIN_INTERVAL: Time := 0.05

  /** One passage through the rate limit: when it is entered and how long the sleep overshoots. */
  datatype Passage = Passage(now: Time, overshoot: Time)

  function Released(last: Time, p: Passage): Time {
    var wait := MIN_INTERVAL - (p.now - last);
    if wait > 0.0 then p.now + wait + p.overshoot else p.now + p.overshoot
  }

  function ReleaseTimes(last: Time, ps: seq<Passage>): seq<Time>
    decreases |ps|
  {
    if ps == [] then []
    else [Released(last, ps[0])] + ReleaseTimes(Released(last, ps[0]), ps[1..])
  }

  class RateGate {
    var lastSend: Time

    constructor ()
      ensures lastSend == 0.0
    {
      lastSend := 0.0;
    }

    method Pass(now: Time, overshoot: Time)
      requires 0.0 <= overshoot
      modifies this
      ensures lastSend == Released(old(lastSend), Passage(now, overshoot))
      ensures now <= lastSend && old(lastSend) + MIN_INTERVAL <= lastSend
    {
      var wait := MIN_INTERVAL - (now - lastSend);
      var clock := now;
      if wait > 0.0 {
        clock := clock + wait;
      }
      lastSend := clock + overshoot;
    }
  }

  /** Sends that pass the gate one after another are spaced by the minimum interval, so k + 1 of them
      take at least k intervals. */
  lemma {:induction false} SendsAreSpaced(last: Time, ps: seq<Passage>, i: nat, j: nat)
    requires forall p | p in ps :: 0.0 <= p.overshoot
    requires i <= j < |ps|
    ensures |ReleaseTimes(last, ps)| == |ps|
    ensures ReleaseTimes(last, ps)[j] - ReleaseTimes(last, ps)[i] >= (j - i) as real * 0.05
    decreases |ps|, j
  {
    var first := Released(last, ps[0]);
    var later := ReleaseTimes(first, ps[1..]);
    if 0 < i {
      SendsAreSpaced(first, ps[1..], i - 1, j - 1);
    } else if 0 < j {
      SendsAreSpaced(first, ps[1..], 0, j - 1);
      assert ps[1] in ps && later[0] == Released(first, ps[1]) >= first + MIN_INTERVAL;
    } else {
      ReleaseTimesLength(last, ps);
    }
  }

  lemma {:induction false} ReleaseTimesLength(last: Time, ps: seq<Passage>)
    ensures |ReleaseTimes(last, ps)| == |ps|
    decreases |ps|
  {
    if ps == [] {
    } else {
      ReleaseTimesLength(Released(last, ps[0]), ps[1..]);
    }
  }
}
