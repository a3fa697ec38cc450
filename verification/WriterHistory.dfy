/** What a run of the low-priority writer amounts to, told from its events (bocchi/services/low_priority_writer.py:
    182-288): what became of each batch, how often writing has failed in a row, and until when the writer backs off. */
module WriterHistory {
  import opened Common
  import opened LowPriorityWriter

  // ---- What became of the batches ----

  datatype Fates = Fates(stored: seq<Record>, timedOut: seq<Record>, lost: seq<Record>)

  const NO_FATES := Fates([], [], [])

  /** A write that succeeds stores its batch, one that times out gives it up, and one that is cancelled loses it. */
  function FateOf(batch: seq<Record>, ev: Event): Fates {
    match ev
    case WriteDone(_) => Fates(batch, [], [])
    case WriteTimesOut(_) => Fates([], batch, [])
    case WriteCancelled => Fates([], [], batch)
    case _ => NO_FATES
  }

  function Before(a: Fates, b: Fates): Fates { Fates(a.stored + b.stored, a.timedOut + b.timedOut, a.lost + b.lost) }

  ghost function FatesOf(s: State, evs: seq<Event>): Fates
    requires ValidRun(s, evs)
    decreases |evs|
  {
    if evs == [] then NO_FATES else Before(FateOf(s.InFlight(), evs[0]), FatesOf(Next(s, evs[0]), evs[1..]))
  }

  /** A write that does not succeed changes neither what is stored, nor, unless it fails, what is buffered. */
  lemma StepFates(s: State, ev: Event)
    requires Enabled(s, ev)
    ensures var t, fate := Next(s, ev), FateOf(s.InFlight(), ev);
      && t.stored == s.stored + fate.stored && t.lost == s.lost + fate.lost
      && (ev.WriteTimesOut? ==> t.discarded == s.discarded + fate.timedOut && t.dropped == s.dropped + |fate.timedOut|)
      && (ev.WriteTimesOut? || ev.WriteCancelled? ==> t.buffer == s.buffer && t.flush.Idle?)
      && (ev.WriteDone? || ev.WriteCancelled? || ev.Begin? ==> t.discarded == s.discarded && t.dropped == s.dropped)
  {
  }

  /** How many writes were cancelled. */
  function Cancellations(evs: seq<Event>): nat {
    if evs == [] then 0 else (if evs[0].WriteCancelled? then 1 else 0) + Cancellations(evs[1..])
  }

  lemma {:induction false} RunFates(s: State, evs: seq<Event>)
    requires ValidRun(s, evs)
    ensures Run(s, evs).cancellations == s.cancellations + Cancellations(evs)
    ensures Run(s, evs).stored == s.stored + FatesOf(s, evs).stored
    ensures Run(s, evs).lost == s.lost + FatesOf(s, evs).lost
    decreases |evs|
  {
    if evs == [] {
    } else {
      var fate, rest := FateOf(s.InFlight(), evs[0]), FatesOf(Next(s, evs[0]), evs[1..]);
      StepFates(s, evs[0]);
      RunFates(Next(s, evs[0]), evs[1..]);
      Associate(s.stored, fate.stored, rest.stored);
      Associate(s.lost, fate.lost, rest.lost);
    }
  }

  /** Main result: over every run, stored are exactly the batches whose write succeeded, in that order, and lost those
      whose write was cancelled. */
  lemma StoredAreSuccessfulWrites(config: Config, start: Time, evs: seq<Event>)
    requires ValidRun(Initial(config, start), evs)
    ensures var s, fates := Run(Initial(config, start), evs), FatesOf(Initial(config, start), evs);
      s.stored == fates.stored && s.lost == fates.lost && s.cancellations == Cancellations(evs)
  {
    RunFates(Initial(config, start), evs);
  }

  // ---- Failures and backing off ----

  predicate Fails(ev: Event) { ev.WriteFails? || ev.WriteTimesOut? }

  /** Failures in a row at the end of the events. */
  function FailedInARow(evs: seq<Event>): nat {
    if evs == [] then 0
    else
      var init, last := evs[..|evs| - 1], evs[|evs| - 1];
      if last.WriteDone? then 0 else FailedInARow(init) + if Fails(last) then 1 else 0
  }

  /** When the latest of them was. */
  function LastFailure(evs: seq<Event>): Time
    requires 0 < FailedInARow(evs)
  {
    var last := evs[|evs| - 1];
    if Fails(last) then last.now else LastFailure(evs[..|evs| - 1])
  }

  /** When a batch was last written, or when the writer was registered. */
  function LastSuccess(evs: seq<Event>, start: Time): Time {
    if evs == [] then start
    else if evs[|evs| - 1].WriteDone? then evs[|evs| - 1].now
    else LastSuccess(evs[..|evs| - 1], start)
  }

  /** base * 2 ** (n - 1), by multiplying, and no more than the maximum. */
  function Wait(c: Config, n: nat): Time
    requires 0 < n
  {
    var grown := c.backoffBase * Power(n - 1);
    if c.backoffMax < grown then c.backoffMax else grown
  }

  function Power(n: nat): Time { if n == 0 then 1.0 else Power(n - 1) * 2.0 }

  lemma {:induction false} DoubledIsPower(base: Time, n: nat)
    ensures Doubled(base, n) == base * Power(n)
  {
    if n == 0 {
    } else {
      DoubledIsPower(base, n - 1);
    }
  }

  lemma BackoffIsWait(c: Config, n: nat)
    requires 0 < n
    ensures Backoff(c, n) == Wait(c, n)
  {
    DoubledIsPower(c.backoffBase, n - 1);
  }

  lemma {:induction false} RunSnoc(s: State, evs: seq<Event>, ev: Event)
    requires ValidRun(s, evs + [ev])
    ensures ValidRun(s, evs) && Enabled(Run(s, evs), ev) && Run(s, evs + [ev]) == Next(Run(s, evs), ev)
    decreases |evs|
  {
    if evs == [] {
      assert ([] + [ev])[1..] == [];
    } else {
      assert (evs + [ev])[1..] == evs[1..] + [ev] && (evs + [ev])[0] == evs[0];
      RunSnoc(Next(s, evs[0]), evs[1..], ev);
    }
  }

  /** The counters after the events. */
  ghost predicate Counts(s: State, config: Config, start: Time, evs: seq<Event>) {
    && s.config == config && s.failures == FailedInARow(evs)
    && s.backoffUntil == (if FailedInARow(evs) == 0 then 0.0
                          else LastFailure(evs) + Wait(config, FailedInARow(evs)))
    && s.lastFlushAt == LastSuccess(evs, start)
  }

  lemma StepCounts(s: State, config: Config, start: Time, evs: seq<Event>, ev: Event)
    requires Counts(s, config, start, evs) && Enabled(s, ev)
    ensures Counts(Next(s, ev), config, start, evs + [ev])
  {
    assert (evs + [ev])[..|evs|] == evs;
    if Fails(ev) {
      BackoffIsWait(config, s.failures + 1);
    }
  }

  /** Main result: over every run the writer backs off until the time of its latest failure plus the base doubled for
      each earlier failure in a row, no longer than the maximum; and not at all after a success. */
  lemma {:induction false} BacksOffForItsFailures(config: Config, start: Time, evs: seq<Event>)
    requires ValidRun(Initial(config, start), evs)
    ensures Counts(Run(Initial(config, start), evs), config, start, evs)
    decreases |evs|
  {
    if evs == [] {
    } else {
      var init, last := evs[..|evs| - 1], evs[|evs| - 1];
      assert evs == init + [last];
      RunSnoc(Initial(config, start), init, last);
      BacksOffForItsFailures(config, start, init);
      StepCounts(Run(Initial(config, start), init), config, start, init, last);
    }
  }

  // ---- How a cycle goes on ----

  /** After a write that succeeds the cycle goes on with the oldest records exactly when some are left and it may write
      more. */
  lemma CycleGoesOnIff(s: State, now: Time)
    requires s.flush.Writing? && s.config.Registrable()
    ensures var t, written := Next(s, WriteDone(now)), s.flush.written + |s.flush.batch|;
      && (t.flush.Writing? <==> s.buffer != [] && (s.flush.forced || written < s.config.maxItemsPerCycle))
      && (t.flush.Writing? ==>
            && t.flush.batch + t.buffer == s.buffer && |t.flush.batch| == Min(s.config.batchSize, |s.buffer|)
            && t.flush.written == written && t.flush.forced == s.flush.forced)
      && (t.flush.Idle? ==> t.buffer == s.buffer)
  {
  }
}
