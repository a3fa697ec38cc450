/** The sliding-window rate limiter (bocchi/utils/limiters.py). */
module RateLimiter {

  type Key(==, !new)
  type Time = real

  datatype Config = Config(maxCalls: int, window: Time)

  /** One call of `check`: for which key, when, and what it answered. */
  datatype Call = Call(key: Key, at: Time, accepted: bool)

  // ---- The queue of one key ----

  function Expire(queue: seq<Time>, cutoff: Time): seq<Time> {
    if queue != [] && queue[0] <= cutoff then Expire(queue[1..], cutoff) else queue
  }

  predicate Accepts(c: Config, queue: seq<Time>, now: Time) {
    |Expire(queue, now - c.window)| < c.maxCalls
  }

  function AfterCheck(c: Config, queue: seq<Time>, now: Time): seq<Time> {
    var kept := Expire(queue, now - c.window);
    if |kept| < c.maxCalls then kept + [now] else kept
  }

  function LeftTime(c: Config, queue: seq<Time>, now: Time): Time {
    if queue != [] && now < queue[0] + c.window then queue[0] + c.window - now else 0.0
  }

  // ---- Call histories ----

  /** The calls so far, the latest one outermost. */
  datatype History = Start | Then(past: History, call: Call)

  /** When the accepted calls for the key happened. */
  function AcceptedTimes(h: History, key: Key): seq<Time> {
    match h
    case Start => []
    case Then(past, call) =>
      if call.key == key && call.accepted then AcceptedTimes(past, key) + [call.at] else AcceptedTimes(past, key)
  }

  /** The key's queue after the calls. */
  function QueueAfter(c: Config, h: History, key: Key): seq<Time> {
    match h
    case Start => []
    case Then(past, call) =>
      if call.key == key then AfterCheck(c, QueueAfter(c, past, key), call.at) else QueueAfter(c, past, key)
  }

  predicate NotAfter(h: History, now: Time) { h.Then? ==> h.call.at <= now }

  /** Time does not go back, and every answer is the limiter's. */
  predicate Genuine(c: Config, h: History) {
    match h
    case Start => true
    case Then(past, call) =>
      && Genuine(c, past) && NotAfter(past, call.at)
      && call.accepted == Accepts(c, QueueAfter(c, past, call.key), call.at)
  }

  /** How many of the times lie in (low, high]. */
  function CountIn(times: seq<Time>, low: Time, high: Time): nat {
    if times == [] then 0
    else
      var t := times[|times| - 1];
      CountIn(times[..|times| - 1], low, high) + if low < t <= high then 1 else 0
  }

  ghost predicate Ordered(times: seq<Time>) {
    forall i, j | 0 <= i < j < |times| :: times[i] <= times[j]
  }

  ghost predicate Bounded(times: seq<Time>, last: Time) {
    forall i | 0 <= i < |times| :: times[i] <= last
  }

  lemma CountAppend(times: seq<Time>, t: Time, low: Time, high: Time)
    ensures CountIn(times + [t], low, high) == CountIn(times, low, high) + if low < t <= high then 1 else 0
  {
  }

  lemma {:induction false} CountNarrower(times: seq<Time>, low: Time, low': Time, high: Time, high': Time)
    requires low' <= low && high <= high'
    ensures CountIn(times, low, high) <= CountIn(times, low', high')
  {
    if times == [] {
    } else {
      CountNarrower(times[..|times| - 1], low, low', high, high');
    }
  }

  lemma {:induction false} ExpireIsSuffix(queue: seq<Time>, cutoff: Time) returns (k: nat)
    ensures k <= |queue| && Expire(queue, cutoff) == queue[k..]
    ensures forall i | 0 <= i < k :: queue[i] <= cutoff
    ensures Ordered(queue) ==> forall i | k <= i < |queue| :: cutoff < queue[i]
  {
    if queue != [] && queue[0] <= cutoff {
      var j := ExpireIsSuffix(queue[1..], cutoff);
      k := j + 1;
    } else {
      k := 0;
    }
  }

  /** Of an ordered list whose first k times are too old, the count is the length of the rest. */
  lemma {:induction false} CountOfSuffix(times: seq<Time>, k: nat, low: Time, high: Time)
    requires k <= |times| && Bounded(times, high)
    requires forall i | 0 <= i < k :: times[i] <= low
    requires forall i | k <= i < |times| :: low < times[i]
    ensures CountIn(times, low, high) == |times| - k
  {
    if times == [] {
    } else {
      var front := times[..|times| - 1];
      CountOfSuffix(front, if k == |times| then k - 1 else k, low, high);
    }
  }

  /** What the queue is: the accepted times with some that are too old for the last call removed. */
  ghost predicate QueueIsRecent(c: Config, accepted: seq<Time>, queue: seq<Time>, last: Time) {
    && Ordered(accepted) && Bounded(accepted, last)
    && |queue| <= |accepted| && queue == accepted[|accepted| - |queue|..]
    && (forall i | 0 <= i < |accepted| - |queue| :: accepted[i] <= last - c.window)
  }

  /** Expiring splits the accepted times into those that are too old and those in the queue. */
  lemma ExpireSplits(c: Config, accepted: seq<Time>, queue: seq<Time>, last: Time, now: Time) returns (k: nat)
    requires QueueIsRecent(c, accepted, queue, last) && last <= now
    ensures k <= |accepted| && Expire(queue, now - c.window) == accepted[k..]
    ensures forall i | 0 <= i < k :: accepted[i] <= now - c.window
    ensures forall i | k <= i < |accepted| :: now - c.window < accepted[i]
  {
    var gone := |accepted| - |queue|;
    var j := ExpireIsSuffix(queue, now - c.window);
    k := gone + j;
    forall i | 0 <= i < k ensures accepted[i] <= now - c.window {
      assert i >= gone ==> accepted[i] == queue[i - gone];
    }
    forall i | k <= i < |accepted| ensures now - c.window < accepted[i] {
      assert accepted[i] == queue[i - gone];
    }
  }

  /** Expiring leaves exactly the accepted times inside the window. */
  lemma ExpiredIsWindow(c: Config, accepted: seq<Time>, queue: seq<Time>, last: Time, now: Time)
    requires QueueIsRecent(c, accepted, queue, last) && last <= now
    ensures |Expire(queue, now - c.window)| == CountIn(accepted, now - c.window, now)
    ensures QueueIsRecent(c, accepted, Expire(queue, now - c.window), now)
  {
    var k := ExpireSplits(c, accepted, queue, last, now);
    CountOfSuffix(accepted, k, now - c.window, now);
  }

  lemma {:induction false} QueueStaysRecent(c: Config, h: History, key: Key, now: Time)
    requires Genuine(c, h) && NotAfter(h, now)
    ensures QueueIsRecent(c, AcceptedTimes(h, key), QueueAfter(c, h, key), now)
  {
    if h.Then? {
      QueueStaysRecent(c, h.past, key, h.call.at);
      var accepted, queue := AcceptedTimes(h.past, key), QueueAfter(c, h.past, key);
      if h.call.key == key {
        ExpiredIsWindow(c, accepted, queue, h.call.at, h.call.at);
        RecentAfterCheck(c, accepted, queue, h.call.at);
      }
      RecentLater(c, AcceptedTimes(h, key), QueueAfter(c, h, key), h.call.at, now);
    }
  }

  lemma RecentAfterCheck(c: Config, accepted: seq<Time>, queue: seq<Time>, now: Time)
    requires QueueIsRecent(c, accepted, Expire(queue, now - c.window), now)
    ensures QueueIsRecent(c, if Accepts(c, queue, now) then accepted + [now] else accepted,
                          AfterCheck(c, queue, now), now)
  {
  }

  lemma RecentLater(c: Config, accepted: seq<Time>, queue: seq<Time>, last: Time, now: Time)
    requires QueueIsRecent(c, accepted, queue, last) && last <= now
    ensures QueueIsRecent(c, accepted, queue, now)
  {
  }

  lemma WindowIsQueue(c: Config, h: History, key: Key, now: Time)
    requires Genuine(c, h) && NotAfter(h, now)
    ensures |Expire(QueueAfter(c, h, key), now - c.window)|
            == CountIn(AcceptedTimes(h, key), now - c.window, now)
  {
    QueueStaysRecent(c, h, key, now);
    ExpiredIsWindow(c, AcceptedTimes(h, key), QueueAfter(c, h, key), now, now);
  }

  /** Main result: in any history a call is accepted exactly when fewer than maxCalls accepted calls of
      its key lie in the window that ends with it. */
  lemma AcceptedIffWindowHasRoom(c: Config, past: History, call: Call)
    requires Genuine(c, Then(past, call))
    ensures call.accepted <==>
      CountIn(AcceptedTimes(past, call.key), call.at - c.window, call.at) < c.maxCalls
  {
    WindowIsQueue(c, past, call.key, call.at);
  }

  lemma {:induction false} CountBeyondBound(times: seq<Time>, low: Time, high: Time, bound: Time)
    requires Bounded(times, bound) && bound <= high
    ensures CountIn(times, low, high) == CountIn(times, low, bound)
  {
    if times == [] {
    } else {
      CountBeyondBound(times[..|times| - 1], low, high, bound);
    }
  }

  /** An accepted call finds room in every window that reaches it. */
  lemma AcceptedFindsRoom(c: Config, past: History, call: Call, t: Time)
    requires Genuine(c, Then(past, call)) && call.accepted && call.at <= t
    ensures CountIn(AcceptedTimes(past, call.key), t - c.window, t) < c.maxCalls
  {
    var accepted, at := AcceptedTimes(past, call.key), call.at;
    AcceptedIffWindowHasRoom(c, past, call);
    QueueStaysRecent(c, past, call.key, at);
    CountBeyondBound(accepted, t - c.window, t, at);
    CountNarrower(accepted, t - c.window, at - c.window, at, at);
  }

  /** Main result: in any history every interval (t - window, t] contains at most maxCalls accepted
      calls of a key. */
  lemma {:induction false} EveryWindowBounded(c: Config, h: History, key: Key, t: Time)
    requires Genuine(c, h)
    ensures var n := CountIn(AcceptedTimes(h, key), t - c.window, t);
      n <= c.maxCalls || n == 0
  {
    if h.Then? {
      EveryWindowBounded(c, h.past, key, t);
      if h.call.key == key && h.call.accepted {
        CountAppend(AcceptedTimes(h.past, key), h.call.at, t - c.window, t);
        if h.call.at <= t {
          AcceptedFindsRoom(c, h.past, h.call, t);
        }
      }
    }
  }

  lemma {:induction false} QueueNeverOverfull(c: Config, h: History, key: Key)
    ensures |QueueAfter(c, h, key)| <= c.maxCalls || QueueAfter(c, h, key) == []
  {
    if h.Then? {
      QueueNeverOverfull(c, h.past, key);
      var k := ExpireIsSuffix(QueueAfter(c, h.past, key), h.call.at - c.window);
    }
  }

  /** Main result: after a rejected call, with no other call for the key, a further check succeeds
      exactly when at least the reported left time has passed, provided any call is allowed at all;
      with maxCalls below one it never succeeds. */
  lemma LeftTimeIsExact(c: Config, past: History, call: Call, asked: Time, wait: Time)
    requires Genuine(c, Then(past, call)) && !call.accepted
    requires call.at <= asked && 0.0 <= wait
    ensures var queue := QueueAfter(c, Then(past, call), call.key);
      Accepts(c, queue, asked + wait) <==> 1 <= c.maxCalls && LeftTime(c, queue, asked) <= wait
  {
    var queue := QueueAfter(c, Then(past, call), call.key);
    QueueNeverOverfull(c, Then(past, call), call.key);
    assert |queue| >= c.maxCalls;
    if queue != [] {
      var k := ExpireIsSuffix(queue[1..], asked + wait - c.window);
    }
  }

  // ---- The limiter ----

  class Limiter {
    const config: Config
    var requests: map<Key, seq<Time>>
    ghost var history: History

    function QueueOf(key: Key): seq<Time>
      reads this
    {
      if key in requests then requests[key] else []
    }

    /** The stored queues are those of the history. */
    ghost predicate Valid()
      reads this
    {
      && Genuine(config, history)
      && forall key :: QueueOf(key) == QueueAfter(config, history, key)
    }

    constructor (maxCalls: int, window: Time)
      ensures Valid() && history == Start && config == Config(maxCalls, window)
    {
      config := Config(maxCalls, window);
      requests, history := map[], Start;
    }

    method Check(key: Key, now: Time) returns (accepted: bool)
      requires Valid() && NotAfter(history, now)
      modifies this
      ensures Valid() && history == Then(old(history), Call(key, now, accepted))
    {
      var queue := QueueOf(key);
      while queue != [] && queue[0] <= now - config.window
        invariant Expire(queue, now - config.window) == Expire(old(QueueOf(key)), now - config.window)
        decreases |queue|
      {
        queue := queue[1..];
      }
      accepted := |queue| < config.maxCalls;
      if accepted {
        queue := queue + [now];
      }
      requests := requests[key := queue];
      history := Then(history, Call(key, now, accepted));
    }

    method TimeLeft(key: Key, now: Time) returns (left: Time)
      requires Valid()
      ensures left == LeftTime(config, QueueAfter(config, history, key), now) && 0.0 <= left
    {
      left := 0.0;
      var queue := QueueOf(key);
      if queue != [] && 0.0 < queue[0] + config.window - now {
        left := queue[0] + config.window - now;
      }
    }
  }
}
