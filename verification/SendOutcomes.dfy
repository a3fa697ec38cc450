/** What callers of the send queue get (bocchi/services/send_queue.py:178-202, 214-259): which outcome a future has,
    which calls are queued, and how many workers there are, told from the events of a run. */
module SendOutcomes {
  import opened Common
  import opened SendQueue

  // ---- Outcomes ----

  /** What an event tells the caller who waits for the future. */
  ghost function Tells(s: State, ev: Event, f: FutureId): Option<Outcome> {
    match ev
    case WorkerFinishes(w, sent) =>
      if w in s.busy && s.busy[w] == f then Some(if sent then Sent else Errored) else None
    case WorkerCancelled(w) => if w in s.busy && s.busy[w] == f then Some(Errored) else None
    case JoinTimesOut(_) => if f in s.queue then Some(Errored) else None
    case CallerCancels(g) => if g == f then Some(CallerGone) else None
    case _ => None
  }

  predicate Waits(s: State, f: FutureId) { f in s.futures && s.futures[f].Pending? }

  /** At some step of the run, while the future is pending, the caller is told this outcome. */
  ghost predicate Told(s: State, evs: seq<Event>, f: FutureId, o: Outcome)
    requires ValidRun(s, evs)
    decreases |evs|
  {
    evs != [] && ((Waits(s, f) && Tells(s, evs[0], f) == Some(o)) || Told(Next(s, evs[0]), evs[1..], f, o))
  }

  lemma {:induction false} DrainTells(s: State, f: FutureId)
    requires f in s.futures
    ensures f in Drain(s).futures
    ensures Drain(s).futures[f] == if s.futures[f].Pending? && f in s.queue then Errored else s.futures[f]
    decreases |s.queue|
  {
    if s.queue == [] {
    } else {
      assert s.queue == [s.queue[0]] + s.queue[1..];
      DrainTells(DrainOne(s), f);
    }
  }

  lemma SettleTells(futures: map<FutureId, Outcome>, g: FutureId, o: Outcome, f: FutureId)
    ensures f in Settle(futures, g, o) <==> f in futures
    ensures f in futures ==> Settle(futures, g, o)[f] == if futures[f].Pending? && f == g then o else futures[f]
  {
  }

  /** The futures after a step, their sender's outcome set. */
  lemma FuturesNext(s: State, ev: Event)
    requires Enabled(s, ev) && !ev.Call? && !ev.JoinTimesOut?
    ensures Next(s, ev).futures ==
            match ev
            case CallerCancels(g) => Settle(s.futures, g, CallerGone)
            case WorkerFinishes(w, sent) => Settle(s.futures, s.busy[w], if sent then Sent else Errored)
            case WorkerCancelled(w) => if w in s.busy then Settle(s.futures, s.busy[w], Errored) else s.futures
            case _ => s.futures
  {
  }

  lemma CallAdds(s: State, f: FutureId)
    requires TasksAccounted(s)
    ensures f in s.futures ==> f in Calling(s).futures && Calling(s).futures[f] == s.futures[f]
    ensures f !in s.futures && f in Calling(s).futures ==> Calling(s).futures[f].Pending?
  {
  }

  lemma TimeoutFutures(s: State, id: StopId)
    requires Enabled(s, JoinTimesOut(id))
    ensures Next(s, JoinTimesOut(id)).futures == Drain(s).futures
  {
  }

  /** One step gives a pending future just the outcome that the event tells, and leaves any other alone. */
  lemma StepTells(s: State, ev: Event, f: FutureId)
    requires Inv(s) && Enabled(s, ev) && f in s.futures
    ensures f in Next(s, ev).futures
    ensures Next(s, ev).futures[f] ==
            if s.futures[f].Pending? && Tells(s, ev, f).Some? then Tells(s, ev, f).value else s.futures[f]
  {
    match ev
    case JoinTimesOut(id) =>
      DrainTells(s, f);
      TimeoutFutures(s, id);
    case Call => CallAdds(s, f);
    case CallerCancels(g) =>
      FuturesNext(s, ev);
      SettleTells(s.futures, g, CallerGone, f);
    case WorkerFinishes(w, sent) =>
      FuturesNext(s, ev);
      SettleTells(s.futures, s.busy[w], if sent then Sent else Errored, f);
    case WorkerCancelled(w) =>
      FuturesNext(s, ev);
      if w in s.busy {
        SettleTells(s.futures, s.busy[w], Errored, f);
      }
    case _ => FuturesNext(s, ev);
  }

  lemma {:induction false} DrainAddsNone(s: State)
    ensures Drain(s).futures.Keys == s.futures.Keys
    decreases |s.queue|
  {
    if s.queue == [] {
    } else {
      DrainAddsNone(DrainOne(s));
    }
  }

  /** Only a call adds a future, which is pending. */
  lemma NewFuturePends(s: State, ev: Event, f: FutureId)
    requires Inv(s) && Enabled(s, ev) && f !in s.futures && f in Next(s, ev).futures
    ensures ev.Call? && Next(s, ev).futures[f].Pending?
  {
    if ev.JoinTimesOut? {
      DrainAddsNone(s);
      TimeoutFutures(s, ev.id);
    } else if !ev.Call? {
      FuturesNext(s, ev);
    } else {
      CallAdds(s, f);
    }
  }

  lemma {:induction false} OutcomeTold(s: State, evs: seq<Event>, f: FutureId, o: Outcome)
    requires Inv(s) && ValidRun(s, evs) && f in Run(s, evs).futures && !o.Pending?
    requires f !in s.futures || s.futures[f].Pending?
    ensures Run(s, evs).futures[f] == o <==> Told(s, evs, f, o)
    decreases |evs|
  {
    if evs == [] {
    } else {
      var t := Next(s, evs[0]);
      StepKeepsInv(s, evs[0]);
      if f !in s.futures {
        if f in t.futures {
          NewFuturePends(s, evs[0], f);
        }
        OutcomeTold(t, evs[1..], f, o);
      } else {
        StepTells(s, evs[0], f);
        if t.futures[f].Pending? {
          OutcomeTold(t, evs[1..], f, o);
        } else {
          OutcomesAreFinal(t, evs[1..], f);
          NeverTold(t, evs[1..], f, o);
        }
      }
    }
  }

  /** After its outcome is set the caller is told nothing more. */
  lemma {:induction false} NeverTold(s: State, evs: seq<Event>, f: FutureId, o: Outcome)
    requires Inv(s) && ValidRun(s, evs) && f in s.futures && !s.futures[f].Pending?
    ensures !Told(s, evs, f, o)
    decreases |evs|
  {
    if evs == [] {
    } else {
      StepKeepsInv(s, evs[0]);
      StepTells(s, evs[0], f);
      NeverTold(Next(s, evs[0]), evs[1..], f, o);
    }
  }

  /** Main result: over every run a future is sent exactly when, while it was pending, a worker that held it finished
      it as sent; given up exactly when its caller gave up; and failed exactly when it was finished as not sent, its
      worker was cancelled, or it was drained from the queue. */
  lemma OutcomesAreAsTold(evs: seq<Event>, f: FutureId, o: Outcome)
    requires ValidRun(INITIAL, evs) && f in Run(INITIAL, evs).futures && !o.Pending?
    ensures Run(INITIAL, evs).futures[f] == o <==> Told(INITIAL, evs, f, o)
  {
    OutcomeTold(INITIAL, evs, f, o);
  }

  // ---- Which calls are queued, and who sends them ----

  /** A call is queued exactly when no shutdown has closed the queue and it is not full; so the queue never holds more
      than its size. */
  lemma CallQueuedIff(s: State)
    requires Inv(s)
    ensures Calling(s).enqueued == s.enqueued + 1 <==> !s.crew.stopping && |s.queue| < 2000
    ensures Calling(s).enqueued == s.enqueued <==> s.crew.stopping || |s.queue| >= 2000
  {
  }

  lemma StepKeepsRoom(s: State, ev: Event)
    requires Inv(s) && Enabled(s, ev) && |s.queue| <= QUEUE_MAXSIZE
    ensures |Next(s, ev).queue| <= QUEUE_MAXSIZE
  {
    if ev.JoinTimesOut? {
      DrainKeepsTasks(s);
    }
  }

  lemma {:induction false} RunKeepsRoom(s: State, evs: seq<Event>)
    requires Inv(s) && ValidRun(s, evs) && |s.queue| <= QUEUE_MAXSIZE
    ensures |Run(s, evs).queue| <= QUEUE_MAXSIZE
    decreases |evs|
  {
    if evs == [] {
    } else {
      StepKeepsInv(s, evs[0]);
      StepKeepsRoom(s, evs[0]);
      RunKeepsRoom(Next(s, evs[0]), evs[1..]);
    }
  }

  lemma QueueIsBounded(evs: seq<Event>)
    requires ValidRun(INITIAL, evs)
    ensures |Run(INITIAL, evs).queue| <= 2000
  {
    RunKeepsRoom(INITIAL, evs);
  }

  /** A worker gets the oldest of the waiting futures, older than all that were not handed out before. */
  lemma OldestIsSentFirst(s: State, w: WorkerId)
    requires Inv(s) && Enabled(s, WorkerGets(w))
    ensures var t := Next(s, WorkerGets(w));
      && w in t.busy && t.busy[w] == Head(s) && t.busy[w] in s.queue
      && (forall f | f in s.queue :: t.busy[w] <= f) && (forall f | f in t.queue :: t.busy[w] < f)
      && (forall v | v in s.busy :: s.busy[v] < t.busy[w] && v in t.busy && t.busy[v] == s.busy[v])
  {
    assert s.queue[0] == Head(s);
  }

  // ---- Workers ----

  lemma {:induction false} NewWorkersSize(first: nat, n: nat)
    ensures |NewWorkers(first, n)| == n
  {
    if n == 0 {
    } else {
      NewWorkersSize(first, n - 1);
    }
  }

  lemma FinishKeepsWorkers(s: State, w: WorkerId, sent: bool)
    requires Enabled(s, WorkerFinishes(w, sent))
    ensures Workers(Next(s, WorkerFinishes(w, sent))) == Workers(s)
  {
  }

  lemma GetKeepsWorkers(s: State, w: WorkerId)
    requires Enabled(s, WorkerGets(w))
    ensures Workers(Next(s, WorkerGets(w))) == Workers(s)
  {
  }

  lemma StopKeepsWorkers(s: State, ev: Event)
    requires Enabled(s, ev) && (ev.JoinReturns? || ev.JoinTimesOut?)
    requires Drain(s).busy == s.busy && Drain(s).crew == s.crew
    ensures Workers(Next(s, ev)) == Workers(s)
  {
  }

  predicate IsOther(ev: Event) {
    ev.Call? || ev.CallerCancels? || ev.Stop? || ev.JoinFires? || ev.StopReturns?
  }

  lemma OthersKeepWorkers(s: State, ev: Event)
    requires Enabled(s, ev) && IsOther(ev)
    ensures Workers(Next(s, ev)) == Workers(s)
  {
  }

  /** A worker goes only when it is cancelled, and only a start brings new ones. */
  lemma WorkersChangeOnly(s: State, ev: Event)
    requires Inv(s) && Enabled(s, ev) && !ev.Start?
    ensures Workers(Next(s, ev)) == if ev.WorkerCancelled? then Workers(s) - {ev.worker} else Workers(s)
  {
    if IsOther(ev) {
      OthersKeepWorkers(s, ev);
    } else if ev.WorkerGets? {
      GetKeepsWorkers(s, ev.worker);
    } else if ev.WorkerFinishes? {
      FinishKeepsWorkers(s, ev.worker, ev.sent);
    } else if ev.WorkerCancelled? {
      WorkerGone(s, ev.worker);
    } else {
      DrainKeepsTasks(s);
      StopKeepsWorkers(s, ev);
    }
  }

  lemma ListedAfterSpawn(s: State, added: set<WorkerId>)
    requires WorkersConsistent(s) && Listed(s) == {} && added == NewWorkers(s.crew.spawned, WORKERS)
    ensures Listed(Next(s, Start)) == added && added !! Workers(s)
  {
    var t := Next(s, Start);
    assert Workers(t) == Workers(s) + added;
    forall w | w in added ensures w !in Workers(s) {
    }
  }

  /** The worker takes calls: no shutdown has cancelled it. */
  predicate Serves(s: State, w: WorkerId) { (w in s.crew.idle || w in s.busy) && w !in s.crew.cancelledBy }

  /** A start brings three new workers when none takes calls. */
  lemma StartSpawns(s: State)
    requires WorkersConsistent(s) && forall w :: !Serves(s, w)
    ensures |Workers(Next(s, Start)) - Workers(s)| == 3 && Workers(s) <= Workers(Next(s, Start))
    ensures forall w | w in Workers(Next(s, Start)) - Workers(s) :: Serves(Next(s, Start), w)
  {
    assert forall w | w in Listed(s) :: Serves(s, w);
    NewWorkersSize(s.crew.spawned, WORKERS);
    ListedAfterSpawn(s, NewWorkers(s.crew.spawned, WORKERS));
    SpawnedWorkers(s, NewWorkers(s.crew.spawned, WORKERS));
  }

  lemma SpawnedWorkers(s: State, added: set<WorkerId>)
    requires Listed(s) == {} && added == NewWorkers(s.crew.spawned, WORKERS) && added !! Workers(s)
    ensures Workers(Next(s, Start)) - Workers(s) == added && Workers(s) <= Workers(Next(s, Start))
  {
  }

  /** And none when some does. */
  lemma StartKeepsWorkers(s: State, w: WorkerId)
    requires Serves(s, w)
    ensures Workers(Next(s, Start)) == Workers(s) && Next(s, Start).crew.cancelledBy == s.crew.cancelledBy
  {
    assert w in Listed(s);
  }

  /** A free worker gets a future exactly when one waits and no shutdown has cancelled the worker. */
  lemma FreeWorkerGetsIff(s: State, w: WorkerId)
    requires w in s.crew.idle
    ensures Enabled(s, WorkerGets(w)) <==> Serves(s, w) && s.queue != []
  {
  }

  /** The rate gate lets a send pass at once, or as soon as 0.05 seconds have passed since the last one. */
  lemma GateWaitsNoLonger(last: Time, p: Passage)
    ensures Released(last, p) == (if last + 0.05 <= p.now then p.now else last + 0.05) + p.overshoot
  {
  }

  /** A shutdown cancels just the workers that take calls. */
  lemma StopCancelsServing(s: State, id: StopId, w: WorkerId)
    requires Inv(s) && Enabled(s, JoinReturns(id)) && w in Workers(s)
    ensures var t := Next(s, JoinReturns(id));
      w in t.crew.cancelledBy && t.crew.cancelledBy[w] == if Serves(s, w) then id else s.crew.cancelledBy[w]
  {
  }
}
