/** The bounded write-behind buffer (bocchi/services/low_priority_writer.py).

    One registered writer with a fixed configuration.  Appends may happen while a batch is being
    written; the flush lock lets one flush run at a time. */
module LowPriorityWriter {
  import opened Common

  type Record(==)
  type Time = real

  datatype Config = Config(
    batchSize: nat,
    maxRetain: nat,
    maxItemsPerCycle: int,
    backoffBase: Time,
    backoffMax: Time)
  {
    /** What registration checks. */
    predicate Registrable() { 0 < batchSize && 0 < maxRetain }
  }

  datatype Flush = Idle | Writing(batch: seq<Record>, written: nat, forced: bool)

  /** The buffer and counters, followed by the history: every record appended, stored (reported as
      written), counted as dropped, and lost with a cancelled write. */
  datatype State = State(
    config: Config,
    buffer: seq<Record>,
    dropped: nat,
    failures: nat,
    backoffUntil: Time,
    lastFlushAt: Time,
    flush: Flush,
    appended: seq<Record>,
    stored: seq<Record>,
    discarded: seq<Record>,
    lost: seq<Record>,
    cancellations: nat)
  {
    function InFlight(): seq<Record> { if flush.Writing? then flush.batch else [] }
  }

  datatype Event =
    | Append(record: Record)
    | Begin(forced: bool, paused: bool, now: Time)
    | WriteDone(now: Time)
    | WriteFails(now: Time)
    | WriteTimesOut(now: Time)
    | WriteCancelled

  function Initial(config: Config, now: Time): State {
    State(config, [], 0, 0, 0.0, now, Idle, [], [], [], [], 0)
  }

  // ---- Steps ----

  function Appending(s: State, r: Record): State {
    var full := |s.buffer| >= s.config.maxRetain && s.buffer != [];
    s.(buffer := (if full then s.buffer[1..] else s.buffer) + [r],
       dropped := if full then s.dropped + 1 else s.dropped,
       discarded := if full then s.discarded + [s.buffer[0]] else s.discarded,
       appended := s.appended + [r])
  }

  /** The head of the flush loop: take the next batch, or finish the cycle. */
  function NextBatch(s: State, written: nat, forced: bool): State {
    if forced || written < s.config.maxItemsPerCycle then
      var k := Min(s.config.batchSize, |s.buffer|);
      if k == 0 then s.(flush := Idle)
      else s.(buffer := s.buffer[k..], flush := Writing(s.buffer[..k], written, forced))
    else s.(flush := Idle)
  }

  /** How many of the batch's newest records fit back in front of the buffer. */
  function Restorable(s: State, batch: seq<Record>): (n: nat)
    ensures n <= |batch|
  {
    Min(|batch|, Max(s.config.maxRetain - |s.buffer|, 0))
  }

  function Restoring(s: State, batch: seq<Record>): State {
    var cut := |batch| - Restorable(s, batch);
    s.(buffer := batch[cut..] + s.buffer,
       dropped := s.dropped + cut,
       discarded := s.discarded + batch[..cut])
  }

  /** base * 2 ** n */
  function Doubled(base: Time, n: nat): Time { if n == 0 then base else 2.0 * Doubled(base, n - 1) }

  function Backoff(c: Config, failures: nat): Time
    requires 0 < failures
  {
    var grown := Doubled(c.backoffBase, failures - 1);
    if grown < c.backoffMax then grown else c.backoffMax
  }

  function BackingOff(s: State, now: Time): State {
    s.(failures := s.failures + 1, backoffUntil := now + Backoff(s.config, s.failures + 1))
  }

  function Stored(s: State, now: Time): State
    requires s.flush.Writing?
  {
    s.(stored := s.stored + s.flush.batch, failures := 0, backoffUntil := 0.0, lastFlushAt := now, flush := Idle)
  }

  function Failed(s: State, now: Time): State
    requires s.flush.Writing?
  {
    BackingOff(Restoring(s, s.flush.batch), now).(flush := Idle)
  }

  /** The write may still complete, so its batch is given up rather than restored. */
  function TimedOut(s: State, now: Time): State
    requires s.flush.Writing?
  {
    BackingOff(s, now).(flush := Idle,
                        dropped := s.dropped + |s.flush.batch|,
                        discarded := s.discarded + s.flush.batch)
  }

  predicate Enabled(s: State, ev: Event) {
    match ev
    case Append(_) => true
    case Begin(_, _, _) => s.flush.Idle?
    case _ => s.flush.Writing?
  }

  function Next(s: State, ev: Event): State
    requires Enabled(s, ev)
  {
    match ev
    case Append(r) => Appending(s, r)
    case Begin(forced, paused, now) =>
      if !forced && (paused || now < s.backoffUntil) then s else NextBatch(s, 0, forced)
    case WriteDone(now) =>
      NextBatch(Stored(s, now), s.flush.written + |s.flush.batch|, s.flush.forced)
    case WriteFails(now) => Failed(s, now)
    case WriteTimesOut(now) => TimedOut(s, now)
    case WriteCancelled =>
      s.(flush := Idle, lost := s.lost + s.flush.batch, cancellations := s.cancellations + 1)
  }

  // ---- Order-preserving subsequences ----

  /** at[i] is where a[i] was taken from in b. */
  ghost predicate Embeds<T>(a: seq<T>, b: seq<T>, at: seq<int>) {
    && |at| == |a|
    && (forall i | 0 <= i < |a| :: 0 <= at[i] < |b| && b[at[i]] == a[i])
    && (forall i, j | 0 <= i < j < |a| :: at[i] < at[j])
  }

  /** a is b with some positions left out: nothing is repeated and nothing is reordered. */
  ghost predicate Subsequence<T>(a: seq<T>, b: seq<T>) {
    exists at :: Embeds(a, b, at)
  }

  lemma SubsequenceOmits<T>(p: seq<T>, d: seq<T>, q: seq<T>, b: seq<T>)
    requires Subsequence(p + d + q, b)
    ensures Subsequence(p + q, b)
  {
    var at :| Embeds(p + d + q, b, at);
    var kept := at[..|p|] + at[|p| + |d|..];
    forall i | 0 <= i < |p + q|
      ensures 0 <= kept[i] < |b| && b[kept[i]] == (p + q)[i]
    {
      if i >= |p| {
        assert (p + d + q)[i + |d|] == (p + q)[i];
      } else {
        assert (p + d + q)[i] == (p + q)[i];
      }
    }
    assert Embeds(p + q, b, kept);
  }

  lemma SubsequenceExtends<T>(a: seq<T>, b: seq<T>, x: T)
    requires Subsequence(a, b)
    ensures Subsequence(a + [x], b + [x])
  {
    var at :| Embeds(a, b, at);
    assert Embeds(a + [x], b + [x], at + [|b|]);
  }

  // ---- The invariant ----

  /** Every appended record is in exactly one place. */
  ghost predicate EachRecordOnce(s: State) {
    multiset(s.appended) == multiset(s.stored) + multiset(s.discarded) + multiset(s.lost)
                            + multiset(s.InFlight()) + multiset(s.buffer)
  }

  ghost predicate CountsBalance(s: State) {
    && |s.appended| == |s.stored| + |s.discarded| + |s.lost| + |s.InFlight()| + |s.buffer|
    && s.dropped == |s.discarded|
  }

  /** Each cancelled write loses at most one batch. */
  ghost predicate LossBounded(s: State) {
    |s.lost| <= s.cancellations * s.config.batchSize
  }

  ghost predicate BufferBounded(s: State) {
    s.config.Registrable() && |s.buffer| <= s.config.maxRetain
  }

  ghost predicate OrderKept(s: State) {
    Subsequence(s.stored + s.InFlight() + s.buffer, s.appended)
  }

  ghost predicate CycleBounded(s: State) {
    s.flush.Writing? ==>
      && 0 < |s.flush.batch| <= s.config.batchSize
      && (s.flush.forced || s.flush.written < s.config.maxItemsPerCycle)
  }

  ghost predicate Bounds(s: State) {
    BufferBounded(s) && CountsBalance(s) && LossBounded(s) && CycleBounded(s)
  }

  ghost predicate Inv(s: State) {
    && Bounds(s)
    && OrderKept(s)
  }

  lemma NextBatchKeepsRecords(s: State, written: nat, forced: bool)
    requires s.flush.Idle? && EachRecordOnce(s)
    ensures EachRecordOnce(NextBatch(s, written, forced))
  {
    var k := Min(s.config.batchSize, |s.buffer|);
    assert s.buffer == s.buffer[..k] + s.buffer[k..];
  }

  lemma NextBatchKeepsOrder(s: State, written: nat, forced: bool)
    requires s.flush.Idle? && OrderKept(s)
    ensures OrderKept(NextBatch(s, written, forced))
  {
    var t := NextBatch(s, written, forced);
    Associate(s.stored, [], s.buffer);
    Associate(s.stored, t.InFlight(), t.buffer);
    assert t.InFlight() + t.buffer == [] + s.buffer;
  }

  lemma AppendingKeepsRecords(s: State, r: Record)
    requires EachRecordOnce(s)
    ensures EachRecordOnce(Appending(s, r))
  {
    if |s.buffer| >= s.config.maxRetain && s.buffer != [] {
      assert s.buffer == [s.buffer[0]] + s.buffer[1..];
    }
  }

  lemma AppendingKeepsOrder(s: State, r: Record)
    requires OrderKept(s)
    ensures OrderKept(Appending(s, r))
  {
    var front := s.stored + s.InFlight();
    var kept := s.buffer;
    if |s.buffer| >= s.config.maxRetain && s.buffer != [] {
      kept := s.buffer[1..];
      assert s.buffer == [s.buffer[0]] + kept;
      Associate(front, [s.buffer[0]], kept);
      SubsequenceOmits(front, [s.buffer[0]], kept, s.appended);
    }
    SubsequenceExtends(front + kept, s.appended, r);
    Associate(front, kept, [r]);
  }

  lemma RestoringKeepsRecords(s: State, batch: seq<Record>)
    requires EachRecordOnce(s) && s.flush.Writing? && s.flush.batch == batch
    ensures EachRecordOnce(Restoring(s, batch).(flush := Idle))
  {
    var cut := |batch| - Restorable(s, batch);
    assert batch == batch[..cut] + batch[cut..];
  }

  lemma RestoringKeepsOrder(s: State, batch: seq<Record>)
    requires OrderKept(s) && s.flush.Writing? && s.flush.batch == batch
    ensures OrderKept(Restoring(s, batch).(flush := Idle))
  {
    var cut := |batch| - Restorable(s, batch);
    var oldest, newest := batch[..cut], batch[cut..];
    assert batch == oldest + newest;
    Associate(s.stored, batch, s.buffer);
    Associate(oldest, newest, s.buffer);
    Associate(s.stored, oldest, newest + s.buffer);
    SubsequenceOmits(s.stored, oldest, newest + s.buffer, s.appended);
    Associate(s.stored, [], newest + s.buffer);
    assert [] + (newest + s.buffer) == newest + s.buffer;
  }

  lemma BatchGoneKeepsOrder(s: State, t: State)
    requires OrderKept(s) && s.flush.Writing? && t.flush.Idle?
    requires t.stored == s.stored && t.buffer == s.buffer && t.appended == s.appended
    ensures OrderKept(t)
  {
    SubsequenceOmits(s.stored, s.flush.batch, s.buffer, s.appended);
    assert t.stored + [] == s.stored;
  }

  lemma StoringKeepsOrder(s: State, t: State)
    requires OrderKept(s) && s.flush.Writing? && t.flush.Idle?
    requires t.stored == s.stored + s.flush.batch && t.buffer == s.buffer && t.appended == s.appended
    ensures OrderKept(t)
  {
    assert t.stored + [] == t.stored;
  }

  lemma StoringKeepsRecords(s: State, now: Time)
    requires EachRecordOnce(s) && s.flush.Writing?
    ensures EachRecordOnce(Stored(s, now))
  {
  }

  lemma TimeoutKeepsRecords(s: State, now: Time)
    requires EachRecordOnce(s) && s.flush.Writing?
    ensures EachRecordOnce(Next(s, WriteTimesOut(now)))
  {
  }

  lemma CancellationKeepsRecords(s: State)
    requires EachRecordOnce(s) && s.flush.Writing?
    ensures EachRecordOnce(Next(s, WriteCancelled))
  {
  }

  lemma StepKeepsRecords(s: State, ev: Event)
    requires EachRecordOnce(s) && Enabled(s, ev)
    ensures EachRecordOnce(Next(s, ev))
  {
    match ev
    case Append(r) => AppendingKeepsRecords(s, r);
    case Begin(forced, paused, now) => NextBatchKeepsRecords(s, 0, forced);
    case WriteDone(now) =>
      StoringKeepsRecords(s, now);
      NextBatchKeepsRecords(Stored(s, now), s.flush.written + |s.flush.batch|, s.flush.forced);
    case WriteFails(now) => RestoringKeepsRecords(s, s.flush.batch);
    case WriteTimesOut(now) => TimeoutKeepsRecords(s, now);
    case WriteCancelled => CancellationKeepsRecords(s);
  }

  lemma NextBatchKeepsBounds(s: State, written: nat, forced: bool)
    requires Bounds(s) && s.flush.Idle?
    ensures Bounds(NextBatch(s, written, forced))
  {
  }

  lemma FailureKeepsBounds(s: State, now: Time)
    requires Bounds(s) && s.flush.Writing?
    ensures Bounds(Failed(s, now)) && Bounds(TimedOut(s, now)) && Bounds(Stored(s, now))
  {
  }

  lemma CancellationKeepsBounds(s: State)
    requires Bounds(s) && s.flush.Writing?
    ensures Bounds(Next(s, WriteCancelled))
  {
  }

  lemma StepKeepsBounds(s: State, ev: Event)
    requires Bounds(s) && Enabled(s, ev)
    ensures Bounds(Next(s, ev)) && Next(s, ev).config == s.config
  {
    match ev
    case Append(_) =>
    case Begin(forced, _, _) => NextBatchKeepsBounds(s, 0, forced);
    case WriteDone(now) =>
      FailureKeepsBounds(s, now);
      NextBatchKeepsBounds(Stored(s, now), s.flush.written + |s.flush.batch|, s.flush.forced);
    case WriteCancelled => CancellationKeepsBounds(s);
    case WriteFails(now) => FailureKeepsBounds(s, now);
    case WriteTimesOut(now) => FailureKeepsBounds(s, now);
  }

  lemma StepKeepsOrder(s: State, ev: Event)
    requires OrderKept(s) && Enabled(s, ev)
    ensures OrderKept(Next(s, ev))
  {
    match ev
    case Append(r) => AppendingKeepsOrder(s, r);
    case Begin(forced, paused, now) => NextBatchKeepsOrder(s, 0, forced);
    case WriteDone(now) =>
      StoringKeepsOrder(s, Stored(s, now));
      NextBatchKeepsOrder(Stored(s, now), s.flush.written + |s.flush.batch|, s.flush.forced);
    case WriteFails(now) => RestoringKeepsOrder(s, s.flush.batch);
    case WriteTimesOut(now) => BatchGoneKeepsOrder(s, Next(s, ev));
    case WriteCancelled => BatchGoneKeepsOrder(s, Next(s, ev));
  }

  lemma StepKeepsInv(s: State, ev: Event)
    requires Inv(s) && Enabled(s, ev)
    ensures Inv(Next(s, ev)) && Next(s, ev).config == s.config
  {
    StepKeepsOrder(s, ev);
    StepKeepsBounds(s, ev);
  }

  lemma InitialInv(config: Config, now: Time)
    requires config.Registrable()
    ensures Inv(Initial(config, now))
  {
    var none: seq<Record> := [];
    assert Embeds(none + none + none, none, []);
  }

  // ---- Whole runs ----

  ghost predicate ValidRun(s: State, evs: seq<Event>)
    decreases |evs|
  {
    evs == [] || (Enabled(s, evs[0]) && ValidRun(Next(s, evs[0]), evs[1..]))
  }

  ghost function Run(s: State, evs: seq<Event>): State
    requires ValidRun(s, evs)
    decreases |evs|
  {
    if evs == [] then s else Run(Next(s, evs[0]), evs[1..])
  }

  lemma {:induction false} RunKeepsInv(s: State, evs: seq<Event>)
    requires Inv(s) && ValidRun(s, evs)
    ensures Inv(Run(s, evs)) && Run(s, evs).config == s.config
    decreases |evs|
  {
    if evs == [] {
    } else {
      StepKeepsInv(s, evs[0]);
      RunKeepsInv(Next(s, evs[0]), evs[1..]);
    }
  }

  /** Main result: over any run, appended = written + dropped + lost in cancelled writes + in flight +
      buffered; each cancelled write loses at most one batch; the buffer never exceeds its bound. */
  lemma RecordsAccountedFor(config: Config, start: Time, evs: seq<Event>)
    requires config.Registrable() && ValidRun(Initial(config, start), evs)
    ensures var s := Run(Initial(config, start), evs);
      && |s.appended| == |s.stored| + s.dropped + |s.lost| + |s.InFlight()| + |s.buffer|
      && |s.lost| <= s.cancellations * config.batchSize
      && |s.buffer| <= config.maxRetain
  {
    InitialInv(config, start);
    RunKeepsInv(Initial(config, start), evs);
  }

  lemma {:induction false} RunKeepsRecords(s: State, evs: seq<Event>)
    requires EachRecordOnce(s) && ValidRun(s, evs)
    ensures EachRecordOnce(Run(s, evs))
    decreases |evs|
  {
    if evs == [] {
    } else {
      StepKeepsRecords(s, evs[0]);
      RunKeepsRecords(Next(s, evs[0]), evs[1..]);
    }
  }

  /** The same ledger record by record: nothing vanishes and nothing is duplicated. */
  lemma NoRecordVanishes(config: Config, start: Time, evs: seq<Event>)
    requires ValidRun(Initial(config, start), evs)
    ensures EachRecordOnce(Run(Initial(config, start), evs))
  {
    RunKeepsRecords(Initial(config, start), evs);
  }

  /** Main result: over any run, what was stored, then what is in flight, then what is buffered, is
      a duplicate-free subsequence of the records in the order of their appends. */
  lemma WritesKeepAppendOrder(config: Config, start: Time, evs: seq<Event>)
    requires config.Registrable() && ValidRun(Initial(config, start), evs)
    ensures var s := Run(Initial(config, start), evs);
      Subsequence(s.stored + s.InFlight() + s.buffer, s.appended)
  {
    InitialInv(config, start);
    RunKeepsInv(Initial(config, start), evs);
  }

  // ---- A failed flush is invisible ----

  function AppendAll(s: State, rs: seq<Record>): State
    decreases |rs|
  {
    if rs == [] then s else AppendAll(Appending(s, rs[0]), rs[1..])
  }

  function Newest(records: seq<Record>, n: nat): seq<Record> {
    records[Max(|records| - n, 0)..]
  }

  /** One append, dropping the oldest when full, offers the same newest records. */
  lemma AppendOffers(s: State, r: Record, rest: seq<Record>)
    requires BufferBounded(s)
    ensures var t := Appending(s, r);
      && BufferBounded(t) && t.config == s.config && t.flush == s.flush
      && Newest(t.buffer + rest, s.config.maxRetain) == Newest(s.buffer + ([r] + rest), s.config.maxRetain)
      && t.dropped + |t.buffer| == s.dropped + |s.buffer| + 1
      && |t.buffer| == Min(|s.buffer| + 1, s.config.maxRetain)
  {
  }

  /** Appending one by one, each time dropping the oldest when full, keeps the newest records. */
  lemma {:induction false} AppendAllKeepsNewest(s: State, rs: seq<Record>)
    requires BufferBounded(s)
    ensures AppendAll(s, rs).buffer == Newest(s.buffer + rs, s.config.maxRetain)
    ensures AppendAll(s, rs).dropped == s.dropped + Max(|s.buffer| + |rs| - s.config.maxRetain, 0)
    ensures AppendAll(s, rs).config == s.config && AppendAll(s, rs).flush == s.flush
    decreases |rs|
  {
    if rs == [] {
      assert s.buffer + rs == s.buffer;
    } else {
      assert rs == [rs[0]] + rs[1..];
      AppendOffers(s, rs[0], rs[1..]);
      AppendAllKeepsNewest(Appending(s, rs[0]), rs[1..]);
    }
  }

  /** Main result: take a batch, let any records be appended while it is written, and let the write
      fail: the buffer and the drop counter are those of a run that never took the batch. */
  lemma FailedFlushIsInvisible(s: State, written: nat, forced: bool, rs: seq<Record>, now: Time)
    requires BufferBounded(s)
    requires NextBatch(s, written, forced).flush.Writing?
    ensures var t := AppendAll(NextBatch(s, written, forced), rs);
      && Enabled(t, WriteFails(now))
      && Failed(t, now).buffer == AppendAll(s, rs).buffer
      && Failed(t, now).dropped == AppendAll(s, rs).dropped
  {
    var taken := NextBatch(s, written, forced);
    NextBatchSplitsBuffer(s, written, forced);
    AppendAllKeepsNewest(s, rs);
    AppendAllKeepsNewest(taken, rs);
    FailedAfterOffering(s, taken, AppendAll(taken, rs), rs, now);
  }

  lemma NextBatchSplitsBuffer(s: State, written: nat, forced: bool)
    requires NextBatch(s, written, forced).flush.Writing?
    ensures s.buffer == NextBatch(s, written, forced).flush.batch + NextBatch(s, written, forced).buffer
  {
  }

  lemma FailedAfterOffering(s: State, taken: State, u: State, rs: seq<Record>, now: Time)
    requires BufferBounded(s) && u.config == s.config && u.flush == taken.flush && taken.flush.Writing?
    requires s.buffer == taken.flush.batch + taken.buffer && taken.dropped == s.dropped
    requires u.buffer == Newest(taken.buffer + rs, s.config.maxRetain)
    requires u.dropped == taken.dropped + Max(|taken.buffer| + |rs| - s.config.maxRetain, 0)
    ensures Failed(u, now).buffer == Newest(s.buffer + rs, s.config.maxRetain)
    ensures Failed(u, now).dropped == s.dropped + Max(|s.buffer| + |rs| - s.config.maxRetain, 0)
  {
  }

  // ---- Flush cycles ----

  /** No further flush begins. */
  predicate NoBegin(evs: seq<Event>) {
    forall ev | ev in evs :: !ev.Begin?
  }

  /** Main result: whatever happens during an unforced cycle, it stores fewer than
      maxItems + batchSize records. */
  lemma {:induction false} CycleWritesBounded(s: State, evs: seq<Event>)
    requires Bounds(s)
    requires s.flush.Writing? && !s.flush.forced && ValidRun(s, evs) && NoBegin(evs)
    ensures var total := s.flush.written + |Run(s, evs).stored| - |s.stored|;
      && total < s.config.maxItemsPerCycle + s.config.batchSize
      && (Run(s, evs).flush.Writing? ==> total == Run(s, evs).flush.written && !Run(s, evs).flush.forced)
    decreases |evs|
  {
    if evs == [] {
    } else {
      var t := Next(s, evs[0]);
      StepKeepsBounds(s, evs[0]);
      if t.flush.Writing? {
        CycleWritesBounded(t, evs[1..]);
      } else {
        IdleStoresNothing(t, evs[1..]);
      }
    }
  }

  lemma {:induction false} IdleStoresNothing(s: State, evs: seq<Event>)
    requires s.flush.Idle? && ValidRun(s, evs) && NoBegin(evs)
    ensures Run(s, evs).stored == s.stored && Run(s, evs).flush.Idle?
    decreases |evs|
  {
    if evs == [] {
    } else {
      IdleStoresNothing(Next(s, evs[0]), evs[1..]);
    }
  }

  lemma RunCons(s: State, ev: Event, rest: seq<Event>)
    requires Enabled(s, ev) && ValidRun(Next(s, ev), rest)
    ensures ValidRun(s, [ev] + rest) && Run(s, [ev] + rest) == Run(Next(s, ev), rest)
  {
    assert ([ev] + rest)[1..] == rest;
  }

  /** In a forced cycle, or done with it. */
  predicate Forced(s: State) {
    && s.config.Registrable()
    && if s.flush.Writing? then s.flush.forced && s.flush.batch != [] else s.buffer == []
  }

  function Unwritten(s: State): seq<Record> { s.InFlight() + s.buffer }

  lemma ForcedBatch(s: State, written: nat)
    requires s.flush.Idle? && s.config.Registrable()
    ensures var t := NextBatch(s, written, true);
      Forced(t) && Unwritten(t) == s.buffer && t.stored == s.stored && t.dropped == s.dropped
  {
  }

  lemma ForcedWrite(s: State, now: Time)
    requires Forced(s) && s.flush.Writing?
    ensures var t := Next(s, WriteDone(now));
      && Forced(t) && t.stored + Unwritten(t) == s.stored + Unwritten(s) && t.dropped == s.dropped
      && |Unwritten(t)| < |Unwritten(s)|
  {
    ForcedBatch(Stored(s, now), s.flush.written + |s.flush.batch|);
    Associate(s.stored, s.flush.batch, s.buffer);
  }

  lemma {:induction false} ForcedRun(s: State, now: Time) returns (evs: seq<Event>)
    requires Forced(s)
    ensures ValidRun(s, evs) && forall ev | ev in evs :: ev == WriteDone(now)
    ensures var t := Run(s, evs);
      t.flush.Idle? && t.buffer == [] && t.stored == s.stored + Unwritten(s) && t.dropped == s.dropped
    decreases |Unwritten(s)|
  {
    if s.flush.Writing? {
      ForcedWrite(s, now);
      var rest := ForcedRun(Next(s, WriteDone(now)), now);
      RunCons(s, WriteDone(now), rest);
      evs := [WriteDone(now)] + rest;
    } else {
      evs := [];
      assert s.stored + Unwritten(s) == s.stored;
    }
  }

  /** Main result: the writer begins to write exactly when there is something to write and the flush is forced, or
      neither is the database paused nor the writer backing off and a cycle may write at all; and then it writes the
      oldest records, as many as fit in a batch. */
  lemma BeginWritesIff(s: State, forced: bool, paused: bool, now: Time)
    requires s.flush.Idle? && s.config.Registrable()
    ensures var t := Next(s, Begin(forced, paused, now));
      && (t.flush.Writing? <==>
            s.buffer != [] && (forced || (!paused && s.backoffUntil <= now && 0 < s.config.maxItemsPerCycle)))
      && t == s.(buffer := t.buffer, flush := t.flush)
      && (t.flush.Writing? ==>
            && t.flush.batch + t.buffer == s.buffer && |t.flush.batch| == Min(s.config.batchSize, |s.buffer|)
            && t.flush.forced == forced && t.flush.written == 0)
      && (t.flush.Idle? ==> t.buffer == s.buffer)
  {
  }

  /** A forced flush, paused or backing off as the writer may be, is a forced cycle that has all records before it. */
  lemma ForcedBegin(s: State, paused: bool, now: Time)
    requires s.flush.Idle? && s.config.Registrable()
    ensures var t := Next(s, Begin(true, paused, now));
      && Forced(t) && Unwritten(t) == s.buffer
      && t.stored == s.stored && t.dropped == s.dropped && t.discarded == s.discarded
  {
    ForcedBatch(s, 0);
  }

  /** The shutdown flush: with every write succeeding, it stores the whole buffer, whether or not the database is
      paused or the writer backs off. */
  lemma ForcedCycleDrains(s: State, paused: bool, now: Time) returns (evs: seq<Event>)
    requires s.flush.Idle? && s.config.Registrable()
    ensures var begun := Next(s, Begin(true, paused, now));
      && ValidRun(begun, evs) && (forall ev | ev in evs :: ev == WriteDone(now))
      && var t := Run(begun, evs);
         t.flush.Idle? && t.buffer == [] && t.stored == s.stored + s.buffer && t.dropped == s.dropped
  {
    ForcedBegin(s, paused, now);
    evs := ForcedRun(Next(s, Begin(true, paused, now)), now);
  }

  // ---- The shutdown flush with appends in between ----

  /** The events happen while a cycle is under way: successful writes, and appends in between. */
  ghost predicate ThroughCycle(s: State, evs: seq<Event>)
    decreases |evs|
  {
    evs == [] ||
    (s.flush.Writing? && CycleEvent(evs[0]) && ThroughCycle(Next(s, evs[0]), evs[1..]))
  }

  function AppendedBy(evs: seq<Event>): seq<Record> {
    if evs == [] then [] else CameBy(evs[0]) + AppendedBy(evs[1..])
  }

  lemma SubsequenceOfItself<T>(a: seq<T>)
    ensures Subsequence(a, a)
  {
    assert Embeds(a, a, seq(|a|, i => i));
  }

  lemma SubsequenceInserts<T>(a: seq<T>, p: seq<T>, x: T, q: seq<T>)
    requires Subsequence(a, p + q)
    ensures Subsequence(a, p + [x] + q)
  {
    var at :| Embeds(a, p + q, at);
    var moved := seq(|at|, i requires 0 <= i < |at| => if at[i] < |p| then at[i] else at[i] + 1);
    forall i | 0 <= i < |a| ensures 0 <= moved[i] < |p + [x] + q| && (p + [x] + q)[moved[i]] == a[i] {
      assert (p + q)[at[i]] == a[i];
    }
    assert Embeds(a, p + [x] + q, moved);
  }

  lemma SubsequencePrepends<T>(p: seq<T>, a: seq<T>, b: seq<T>)
    requires Subsequence(a, b)
    ensures Subsequence(p + a, p + b)
  {
    var at :| Embeds(a, b, at);
    var moved := seq(|p|, i => i) + seq(|at|, i requires 0 <= i < |at| => at[i] + |p|);
    forall i | 0 <= i < |p + a| ensures 0 <= moved[i] < |p + b| && (p + b)[moved[i]] == (p + a)[i] {
      assert i >= |p| ==> moved[i] == at[i - |p|] + |p| && (p + a)[i] == a[i - |p|];
    }
    assert Embeds(p + a, p + b, moved);
  }

  /** The records that waited and came are written in order, gone, or left in order. */
  ghost predicate Sorts(waiting: seq<Record>, written: seq<Record>, gone: seq<Record>, left: seq<Record>) {
    && Subsequence(written + left, waiting)
    && multiset(waiting) == multiset(written) + multiset(gone) + multiset(left)
  }

  lemma NothingSorts(waiting: seq<Record>)
    ensures Sorts(waiting, [], [], waiting)
  {
    SubsequenceOfItself(waiting);
    assert [] + waiting == waiting;
  }

  lemma DropSorts(p: seq<Record>, x: Record, q: seq<Record>, written: seq<Record>, gone: seq<Record>, left: seq<Record>)
    requires Sorts(p + q, written, gone, left)
    ensures Sorts(p + [x] + q, written, [x] + gone, left)
  {
    SubsequenceInserts(written + left, p, x, q);
    assert multiset(p + [x] + q) == multiset(p + q) + multiset{x};
  }

  lemma WriteSorts(batch: seq<Record>, waiting: seq<Record>, written: seq<Record>, gone: seq<Record>, left: seq<Record>)
    requires Sorts(waiting, written, gone, left)
    ensures Sorts(batch + waiting, batch + written, gone, left)
  {
    SubsequencePrepends(batch, written + left, waiting);
    Associate(batch, written, left);
  }

  /** The history between two states. */
  predicate Happened(s: State, t: State, written: seq<Record>, gone: seq<Record>) {
    t.stored == s.stored + written && t.discarded == s.discarded + gone && t.dropped == s.dropped + |gone|
  }

  lemma AppendAccounts(s: State, r: Record, came: seq<Record>, t: State, written: seq<Record>, gone: seq<Record>)
    returns (all: seq<Record>)
    requires s.config.Registrable() && Happened(Appending(s, r), t, written, gone)
    requires Sorts(Unwritten(Appending(s, r)) + came, written, gone, Unwritten(t))
    ensures Happened(s, t, written, all) && Sorts(Unwritten(s) + ([r] + came), written, all, Unwritten(t))
  {
    var kept, front := Unwritten(Appending(s, r)), s.InFlight();
    if |s.buffer| >= s.config.maxRetain {
      var x, rest := s.buffer[0], s.buffer[1..] + [r] + came;
      FullBuffer(front, s.buffer, r, came);
      DropSorts(front, x, rest, written, gone, Unwritten(t));
      Associate(s.discarded, [x], gone);
      all := [x] + gone;
    } else {
      assert kept + came == Unwritten(s) + ([r] + came);
      all := gone;
    }
  }

  lemma FullBuffer(front: seq<Record>, buffer: seq<Record>, r: Record, came: seq<Record>)
    requires buffer != []
    ensures front + (buffer[1..] + [r]) + came == front + (buffer[1..] + [r] + came)
    ensures front + buffer + ([r] + came) == front + [buffer[0]] + (buffer[1..] + [r] + came)
  {
    assert buffer == [buffer[0]] + buffer[1..];
  }

  lemma WriteAccounts(s: State, now: Time, came: seq<Record>, t: State, written: seq<Record>, gone: seq<Record>)
    requires Forced(s) && s.flush.Writing? && Happened(Next(s, WriteDone(now)), t, written, gone)
    requires Sorts(Unwritten(Next(s, WriteDone(now))) + came, written, gone, Unwritten(t))
    ensures Happened(s, t, s.flush.batch + written, gone)
    ensures Sorts(Unwritten(s) + came, s.flush.batch + written, gone, Unwritten(t))
  {
    var batch := s.flush.batch;
    ForcedBatch(Stored(s, now), s.flush.written + |batch|);
    assert Next(s, WriteDone(now)).discarded == s.discarded;
    WriteSorts(batch, s.buffer + came, written, gone, Unwritten(t));
    Associate(batch, s.buffer, came);
    Associate(s.stored, batch, written);
  }

  ghost predicate Accounts(s: State, came: seq<Record>, t: State, written: seq<Record>, gone: seq<Record>) {
    Happened(s, t, written, gone) && Sorts(Unwritten(s) + came, written, gone, Unwritten(t))
  }

  predicate CycleEvent(ev: Event) { ev.Append? || ev.WriteDone? }

  function CameBy(ev: Event): seq<Record> { if ev.Append? then [ev.record] else [] }

  lemma ForcedNext(s: State, ev: Event)
    requires Forced(s) && s.flush.Writing? && CycleEvent(ev)
    ensures Forced(Next(s, ev))
  {
    if ev.WriteDone? {
      ForcedWrite(s, ev.now);
    }
  }

  lemma StepAccounts(s: State, ev: Event, came: seq<Record>, t: State, written: seq<Record>, gone: seq<Record>)
    returns (allWritten: seq<Record>, allGone: seq<Record>)
    requires Forced(s) && s.flush.Writing? && CycleEvent(ev) && Accounts(Next(s, ev), came, t, written, gone)
    ensures Accounts(s, CameBy(ev) + came, t, allWritten, allGone)
  {
    allWritten, allGone := written, gone;
    if ev.Append? {
      allGone := AppendAccounts(s, ev.record, came, t, written, gone);
    } else {
      WriteAccounts(s, ev.now, came, t, written, gone);
      allWritten := s.flush.batch + written;
      assert [] + came == came;
    }
  }

  lemma NothingAccounts(s: State)
    ensures Accounts(s, [], s, [], [])
  {
    NothingSorts(Unwritten(s));
    assert Unwritten(s) + [] == Unwritten(s);
    assert s.stored + [] == s.stored && s.discarded + [] == s.discarded;
  }

  lemma {:induction false} CycleAccounts(s: State, evs: seq<Event>)
    returns (t: State, written: seq<Record>, gone: seq<Record>)
    requires Forced(s) && ThroughCycle(s, evs)
    ensures ValidRun(s, evs) && t == Run(s, evs) && (t.flush.Idle? ==> Unwritten(t) == [])
    ensures Accounts(s, AppendedBy(evs), t, written, gone)
    decreases |evs|
  {
    if evs == [] {
      t, written, gone := s, [], [];
      NothingAccounts(s);
    } else {
      ForcedNext(s, evs[0]);
      t, written, gone := CycleAccounts(Next(s, evs[0]), evs[1..]);
      written, gone := StepAccounts(s, evs[0], AppendedBy(evs[1..]), t, written, gone);
    }
  }

  lemma AccountsFromBegin(s: State, begun: State, came: seq<Record>, t: State, written: seq<Record>, gone: seq<Record>)
    requires s.flush.Idle? && Unwritten(begun) == s.buffer && begun.stored == s.stored
    requires begun.dropped == s.dropped && begun.discarded == s.discarded
    requires Accounts(begun, came, t, written, gone)
    ensures Accounts(s, came, t, written, gone)
  {
    assert Unwritten(s) == s.buffer;
  }

  /** Main result: whatever is appended during the shutdown flush, as long as its writes succeed everything that
      waited at its start or came since is stored in order, counted as dropped, or still waiting; and when the
      flush is over nothing waits. */
  lemma ForcedCycleAccounts(s: State, paused: bool, now: Time, evs: seq<Event>)
    returns (t: State, written: seq<Record>, gone: seq<Record>)
    requires s.flush.Idle? && s.config.Registrable() && ThroughCycle(Next(s, Begin(true, paused, now)), evs)
    ensures ValidRun(s, [Begin(true, paused, now)] + evs) && t == Run(s, [Begin(true, paused, now)] + evs)
    ensures t.flush.Idle? ==> Unwritten(t) == []
    ensures Accounts(s, AppendedBy(evs), t, written, gone)
  {
    var begun := Next(s, Begin(true, paused, now));
    ForcedBegin(s, paused, now);
    t, written, gone := CycleAccounts(begun, evs);
    AccountsFromBegin(s, begun, AppendedBy(evs), t, written, gone);
    RunCons(s, Begin(true, paused, now), evs);
  }

  /** Each further failure waits at least as long as the one before and never beyond the maximum. */
  lemma {:induction false} BackoffGrowsToMaximum(c: Config, f: nat)
    requires 0 < f && 0.0 <= c.backoffBase
    ensures Backoff(c, f) <= Backoff(c, f + 1) <= c.backoffMax
  {
    DoubledGrows(c.backoffBase, f - 1);
  }

  lemma {:induction false} DoubledGrows(base: Time, n: nat)
    requires 0.0 <= base
    ensures 0.0 <= Doubled(base, n) <= Doubled(base, n + 1)
  {
    if n > 0 { DoubledGrows(base, n - 1); }
  }

  // ---- The writer ----

  class Writer {
    const config: Config
    var buffer: seq<Record>
    var dropped: nat
    var failures: nat
    var backoffUntil: Time
    var lastFlushAt: Time
    var flush: Flush
    ghost var appended: seq<Record>
    ghost var stored: seq<Record>
    ghost var discarded: seq<Record>
    ghost var lost: seq<Record>
    ghost var cancellations: nat

    ghost function Model(): State
      reads this
    {
      State(config, buffer, dropped, failures, backoffUntil, lastFlushAt, flush,
            appended, stored, discarded, lost, cancellations)
    }

    constructor (config: Config, now: Time)
      requires config.Registrable()
      ensures Model() == Initial(config, now) && this.config.Registrable()
    {
      this.config := config;
      buffer, dropped, failures, backoffUntil, lastFlushAt := [], 0, 0, 0.0, now;
      flush, appended, stored, discarded, lost, cancellations := Idle, [], [], [], [], 0;
    }

    method AppendRecord(record: Record)
      requires config.Registrable()
      modifies this
      ensures Model() == Appending(old(Model()), record)
    {
      if |buffer| >= config.maxRetain {
        discarded := discarded + [buffer[0]];
        buffer := buffer[1..];
        dropped := dropped + 1;
      }
      buffer := buffer + [record];
      appended := appended + [record];
    }

    method TakeBatch() returns (batch: seq<Record>)
      modifies this`buffer
      ensures var k := Min(config.batchSize, |old(buffer)|);
        batch == old(buffer)[..k] && buffer == old(buffer)[k..]
    {
      batch := [];
      while buffer != [] && |batch| < config.batchSize
        invariant |batch| <= config.batchSize && |batch| <= |old(buffer)|
        invariant batch == old(buffer)[..|batch|] && buffer == old(buffer)[|batch|..]
        decreases |buffer|
      {
        batch := batch + [buffer[0]];
        buffer := buffer[1..];
      }
    }

    method RestoreBatch(batch: seq<Record>)
      modifies this`buffer, this`dropped, this`discarded
      ensures Model() == Restoring(old(Model()), batch)
    {
      var retainCount := Max(config.maxRetain - |buffer|, 0);
      var restoreItems := if retainCount == 0 then [] else batch[Max(|batch| - retainCount, 0)..];
      ghost var cut := |batch| - Restorable(Model(), batch);
      assert restoreItems == batch[cut..];
      dropped := dropped + (|batch| - |restoreItems|);
      discarded := discarded + batch[..|batch| - |restoreItems|];
      PrependAll(restoreItems);
    }

    /** Push the items in front of the buffer, the last one first. */
    method PrependAll(items: seq<Record>)
      modifies this`buffer
      ensures buffer == items + old(buffer)
    {
      var i := |items|;
      while i > 0
        invariant 0 <= i <= |items|
        invariant buffer == items[i..] + old(buffer)
      {
        i := i - 1;
        assert items[i..] == [items[i]] + items[i + 1..];
        buffer := [items[i]] + buffer;
      }
    }

    method MarkFailure(now: Time)
      modifies this`failures, this`backoffUntil
      ensures Model() == BackingOff(old(Model()), now)
    {
      failures := failures + 1;
      backoffUntil := now + Backoff(config, failures);
    }

    method MarkUncertainTimeout(ghost batch: seq<Record>, batchSize: nat, now: Time)
      requires batchSize == |batch|
      modifies this`failures, this`backoffUntil, this`dropped, this`discarded
      ensures Model() == BackingOff(old(Model()), now).(dropped := old(dropped) + batchSize,
                                                         discarded := old(discarded) + batch)
    {
      failures := failures + 1;
      backoffUntil := now + Backoff(config, failures);
      dropped := dropped + batchSize;
      discarded := discarded + batch;
    }

    /** The head of the flush loop, up to the suspension in the write. */
    method ContinueFlush(written: nat, forced: bool)
      requires flush.Idle?
      modifies this`buffer, this`flush
      ensures Model() == NextBatch(old(Model()), written, forced)
    {
      if !forced && written >= config.maxItemsPerCycle {
        return;
      }
      var batch := TakeBatch();
      if batch != [] {
        flush := Writing(batch, written, forced);
      }
    }

    method BeginFlush(forced: bool, paused: bool, now: Time)
      requires flush.Idle?
      modifies this`buffer, this`flush
      ensures Model() == Next(old(Model()), Begin(forced, paused, now))
    {
      if !forced && (paused || now < backoffUntil) {
        return;
      }
      ContinueFlush(0, forced);
    }

    method WriteSucceeded(now: Time)
      requires flush.Writing?
      modifies this
      ensures Model() == Next(old(Model()), WriteDone(now))
    {
      var written, forced := flush.written + |flush.batch|, flush.forced;
      failures := 0;
      backoffUntil := 0.0;
      lastFlushAt := now;
      stored, flush := stored + flush.batch, Idle;
      ContinueFlush(written, forced);
    }

    method WriteFailed(now: Time)
      requires flush.Writing?
      modifies this
      ensures Model() == Next(old(Model()), WriteFails(now))
    {
      RestoreBatch(flush.batch);
      MarkFailure(now);
      flush := Idle;
    }

    method WriteTimedOut(now: Time)
      requires flush.Writing?
      modifies this
      ensures Model() == Next(old(Model()), WriteTimesOut(now))
    {
      MarkUncertainTimeout(flush.batch, |flush.batch|, now);
      flush := Idle;
    }

    method FlushCancelled()
      requires flush.Writing?
      modifies this
      ensures Model() == Next(old(Model()), WriteCancelled)
    {
      lost, cancellations, flush := lost + flush.batch, cancellations + 1, Idle;
    }
  }
}
