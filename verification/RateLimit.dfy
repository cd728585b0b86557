/** The per-minute limiter on a Redis counter. One call sends INCR and, if the counter answered 1,
    EXPIRE; commands of any number of callers interleave, and any of them can fail. Times are the
    server's, in milliseconds. */
module RateLimit {
  import opened Wrappers

  const WINDOW := 60_000

  /** The counter of one service. Without an expiry it never goes away. */
  datatype Key = Missing | Present(count: nat, expiry: Option<int>)

  /** A counter with the number of callers that were answered 1 and have yet to send EXPIRE. */
  datatype World = World(key: Key, owed: nat)

  /** A command is refused and does nothing, or it is carried out but its answer is lost. */
  datatype Fault = NoFault | Refused | ReplyLost

  datatype Event = Hit(at: int, fault: Fault) | Expire(at: int, fault: Fault)

  predicate Alive(key: Key, at: int) {
    key.Present? && (key.expiry.Some? ==> at < key.expiry.value)
  }

  /** INCR starts a missing or expired counter at 1, and keeps the expiry of another one. */
  function Incremented(key: Key, at: int): Key {
    if Alive(key, at) then key.(count := key.count + 1) else Present(1, None)
  }

  /** What INCR answers its caller. */
  function Reply(w: World, e: Event): Option<nat> {
    if e.Hit? && e.fault.NoFault? then Some(Incremented(w.key, e.at).count) else None
  }

  function Step(w: World, e: Event): World {
    match e
    case Hit(at, fault) =>
      World(if fault.Refused? then w.key else Incremented(w.key, at), w.owed + if Reply(w, e) == Some(1) then 1 else 0)
    case Expire(at, fault) =>
      if w.owed == 0 then w
      else World(if !fault.Refused? && Alive(w.key, at) then w.key.(expiry := Some(at + WINDOW)) else w.key, w.owed - 1)
  }

  function After(trace: seq<Event>): World {
    if trace == [] then World(Missing, 0) else Step(After(trace[..|trace| - 1]), trace[|trace| - 1])
  }

  /** The clock does not run backwards. */
  ghost predicate Ordered(trace: seq<Event>) {
    forall i, j | 0 <= i < j < |trace| :: trace[i].at <= trace[j].at
  }

  /** The answer lets its caller through; a first caller may still be refused when its EXPIRE fails. */
  predicate Grants(limit: int, w: World, e: Event) {
    Reply(w, e).Some? && Reply(w, e).value <= limit
  }

  /** The calls let through at times from `lo` up to but not including `hi`. */
  function Granted(limit: int, trace: seq<Event>, lo: int, hi: int): nat {
    if trace == [] then 0
    else
      var front, last := trace[..|trace| - 1], trace[|trace| - 1];
      Granted(limit, front, lo, hi) + if lo <= last.at < hi && Grants(limit, After(front), last) then 1 else 0
  }

  // ----- The limiter -----

  function KeyOf(keys: map<string, Key>, name: string): Key {
    if name in keys then keys[name] else Missing
  }

  datatype Error = StoreError

  class RateLimiter {
    const limit: int
    var keys: map<string, Key>

    constructor (limit: int)
      ensures this.limit == limit && keys == map[]
    {
      this.limit := limit;
      keys := map[];
    }

    /** Allow: the two commands one after the other, with nothing in between. The second one changes
        nothing unless the first was answered 1. */
    method Allow(serviceID: string, at: int, incr: Fault, expireAt: int, expire: Fault) returns (r: Result<bool, Error>)
      requires at <= expireAt
      modifies `keys
      ensures var name := "rate_limit:" + serviceID;
              var before := World(KeyOf(old(keys), name), 0);
              var counted := Step(before, Hit(at, incr));
              && KeyOf(keys, name) == Step(counted, Expire(expireAt, expire)).key
              && (r.Err? <==> !incr.NoFault? || (counted.owed == 1 && !expire.NoFault?))
              && (r == Ok(true) <==> r.Ok? && Grants(limit, before, Hit(at, incr)))
      ensures forall name | name != "rate_limit:" + serviceID :: KeyOf(keys, name) == KeyOf(old(keys), name)
    {
      var name := "rate_limit:" + serviceID;
      if incr.Refused? {
        return Err(StoreError);
      }
      var key := Incremented(KeyOf(keys, name), at);
      keys := keys[name := key];
      if incr.ReplyLost? {
        return Err(StoreError);
      }
      if key.count == 1 {
        if !expire.Refused? && Alive(key, expireAt) {
          keys := keys[name := key.(expiry := Some(expireAt + WINDOW))];
        }
        if !expire.NoFault? {
          return Err(StoreError);
        }
      }
      return Ok(key.count <= limit);
    }
  }

  // ----- The bound -----

  predicate Opens(w: World, e: Event) {
    e.Hit? && !e.fault.Refused? && !Alive(w.key, e.at)
  }

  /** When the present counter was started. */
  function Opened(trace: seq<Event>): Option<int> {
    if trace == [] then None
    else
      var front, last := trace[..|trace| - 1], trace[|trace| - 1];
      if Opens(After(front), last) then Some(last.at) else Opened(front)
  }

  /** How many counters were started at times from `lo` up to but not including `hi`. */
  function Windows(trace: seq<Event>, lo: int, hi: int): nat {
    if trace == [] then 0
    else
      var front, last := trace[..|trace| - 1], trace[|trace| - 1];
      Windows(front, lo, hi) + if lo <= last.at < hi && Opens(After(front), last) then 1 else 0
  }

  function Times(n: nat, k: nat): nat {
    if n == 0 then 0 else Times(n - 1, k) + k
  }

  lemma {:induction false} TimesIs(n: nat, k: nat)
    ensures Times(n, k) == n * k
  {
    if n > 0 {
      TimesIs(n - 1, k);
      assert (n - 1) * k + k == n * k;
    }
  }

  lemma {:induction false} TimesGrows(n: nat, m: nat, k: nat)
    requires n <= m
    ensures Times(n, k) <= Times(m, k)
  {
    if n < m {
      TimesGrows(n, m - 1, k);
    }
  }

  function Min(a: int, b: int): int {
    if a < b then a else b
  }

  /** What holds of a run and `minutes` minutes from `lo` on, given `start`, when the present counter was
      started, `g` calls let through and `n` counters started in that time. */
  predicate Within(limit: nat, lo: int, minutes: nat, w: World, start: Option<int>, g: nat, n: nat) {
    var hi := lo + minutes * WINDOW;
    && n <= minutes
    && match start
       case None => w.key.Missing? && g == 0 && n == 0
       case Some(s) =>
         && w.key.Present? && w.key.count >= 1 && (w.key.expiry.Some? ==> w.key.expiry.value >= s + WINDOW)
         && (s < lo ==> n == 0 && g <= Min(w.key.count, limit) - 1)
         && (lo <= s < hi ==> n >= 1 && s >= lo + (n - 1) * WINDOW
                                && g <= limit - 1 + Times(n - 1, limit) + Min(w.key.count, limit))
         && (s >= hi ==> g <= limit - 1 + Times(n, limit))
  }

  lemma WithinStep(limit: nat, lo: int, minutes: nat, w: World, start: Option<int>, g: nat, n: nat, e: Event)
    requires limit >= 1 && Within(limit, lo, minutes, w, start, g, n)
    requires e.at < lo ==> g == 0
    requires start.Some? ==> start.value <= e.at
    ensures var inside := lo <= e.at < lo + minutes * WINDOW;
            Within(limit, lo, minutes, Step(w, e), if Opens(w, e) then Some(e.at) else start,
                   g + if inside && Grants(limit, w, e) then 1 else 0, n + if inside && Opens(w, e) then 1 else 0)
  {
  }

  lemma {:induction false} EveryRunStaysWithin(limit: nat, trace: seq<Event>, lo: int, minutes: nat)
    requires limit >= 1 && Ordered(trace)
    ensures var hi := lo + minutes * WINDOW;
            Within(limit, lo, minutes, After(trace), Opened(trace),
                   Granted(limit, trace, lo, hi), Windows(trace, lo, hi))
    ensures trace != [] && Opened(trace).Some? ==> Opened(trace).value <= trace[|trace| - 1].at
    ensures trace == [] ==> Opened(trace).None?
    ensures trace != [] && trace[|trace| - 1].at < lo ==> Granted(limit, trace, lo, lo + minutes * WINDOW) == 0
  {
    if trace != [] {
      var hi := lo + minutes * WINDOW;
      var front, last := trace[..|trace| - 1], trace[|trace| - 1];
      EveryRunStaysWithin(limit, front, lo, minutes);
      var w, start, g, n := After(front), Opened(front), Granted(limit, front, lo, hi), Windows(front, lo, hi);
      assert front != [] ==> front[|front| - 1].at <= last.at;
      WithinStep(limit, lo, minutes, w, start, g, n, last);
    }
  }

  lemma {:induction false} NothingWithoutLimit(limit: int, trace: seq<Event>, lo: int, hi: int)
    requires limit <= 0
    ensures Granted(limit, trace, lo, hi) == 0
  {
    if trace != [] {
      NothingWithoutLimit(limit, trace[..|trace| - 1], lo, hi);
    }
  }

  /** Main result: whatever the interleaving, the faults and the times, no span of `minutes` minutes lets
      through more than (minutes + 1) * limit - 1 calls. In particular a lost or failed EXPIRE never
      raises the bound, and over a long time the rate tends to `limit` a minute. */
  lemma RateIsBounded(limit: int, trace: seq<Event>, lo: int, minutes: nat)
    requires Ordered(trace)
    ensures Granted(limit, trace, lo, lo + minutes * WINDOW) <= if limit <= 0 then 0 else (minutes + 1) * limit - 1
  {
    if limit <= 0 {
      NothingWithoutLimit(limit, trace, lo, lo + minutes * WINDOW);
    } else {
      var n := Windows(trace, lo, lo + minutes * WINDOW);
      EveryRunStaysWithin(limit, trace, lo, minutes);
      TimesGrows(n, minutes, limit);
      TimesIs(minutes, limit);
      assert (minutes + 1) * limit == minutes * limit + limit;
    }
  }

  /** The calls let through since the present counter was started. */
  function GrantedByCounter(limit: int, trace: seq<Event>): nat {
    if trace == [] then 0
    else
      var front, last := trace[..|trace| - 1], trace[|trace| - 1];
      var w := After(front);
      (if Opens(w, last) then 0 else GrantedByCounter(limit, front)) + if Grants(limit, w, last) then 1 else 0
  }

  /** From its start until the next one is started, no counter lets through more than `limit` calls,
      nor more than it has counted. */
  lemma {:induction false} CounterIsBounded(limit: int, trace: seq<Event>)
    ensures GrantedByCounter(limit, trace) <= if limit <= 0 then 0 else limit
    ensures GrantedByCounter(limit, trace) <= if After(trace).key.Present? then After(trace).key.count else 0
  {
    if trace != [] {
      CounterIsBounded(limit, trace[..|trace| - 1]);
    }
  }

  // ----- It is no sliding window -----

  function Repeat(e: Event, n: nat): (r: seq<Event>)
    ensures |r| == n && forall i | 0 <= i < n :: r[i] == e
  {
    seq(n, i => e)
  }

  /** The last calls of a minute and the first ones of the next, with nothing going wrong. */
  function Burst(limit: nat): seq<Event>
    requires limit >= 1
  {
    [Hit(0, NoFault), Expire(0, NoFault)] + Repeat(Hit(WINDOW - 1, NoFault), limit - 1)
    + [Hit(WINDOW, NoFault), Expire(WINDOW, NoFault)] + Repeat(Hit(WINDOW, NoFault), limit - 1)
  }

  lemma NextEvent(limit: int, before: seq<Event>, e: Event, lo: int, hi: int)
    ensures After(before + [e]) == Step(After(before), e)
    ensures Granted(limit, before + [e], lo, hi) ==
            Granted(limit, before, lo, hi) + if lo <= e.at < hi && Grants(limit, After(before), e) then 1 else 0
  {
    assert (before + [e])[..|before|] == before;
  }

  lemma RepeatNext(before: seq<Event>, e: Event, n: nat)
    requires n > 0
    ensures before + Repeat(e, n) == before + Repeat(e, n - 1) + [e]
  {
  }

  lemma HitAgain(limit: nat, before: seq<Event>, at: int, n: nat, lo: int, hi: int)
    requires Alive(After(before).key, at) && After(before).key.count == n && n < limit && lo <= at < hi
    ensures var trace := before + [Hit(at, NoFault)];
            && Granted(limit, trace, lo, hi) == Granted(limit, before, lo, hi) + 1
            && (n >= 1 ==> After(trace) == After(before).(key := After(before).key.(count := n + 1)))
  {
    NextEvent(limit, before, Hit(at, NoFault), lo, hi);
  }

  lemma {:induction false} RepeatedHits(limit: nat, before: seq<Event>, at: int, n: nat, lo: int, hi: int)
    requires Alive(After(before).key, at) && After(before).key.count == 1 && n < limit && lo <= at < hi
    ensures var trace := before + Repeat(Hit(at, NoFault), n);
            && After(trace) == After(before).(key := After(before).key.(count := n + 1))
            && Granted(limit, trace, lo, hi) == Granted(limit, before, lo, hi) + n
  {
    var trace := before + Repeat(Hit(at, NoFault), n);
    if n == 0 {
      assert trace == before;
    } else {
      RepeatedHits(limit, before, at, n - 1, lo, hi);
      HitAgain(limit, before + Repeat(Hit(at, NoFault), n - 1), at, n, lo, hi);
      RepeatNext(before, Hit(at, NoFault), n);
    }
  }

  lemma OpeningPair(limit: nat, before: seq<Event>, at: int, lo: int, hi: int)
    requires limit >= 1 && !Alive(After(before).key, at) && After(before).owed == 0
    ensures var trace := before + [Hit(at, NoFault), Expire(at, NoFault)];
            && After(trace) == World(Present(1, Some(at + WINDOW)), 0)
            && Granted(limit, trace, lo, hi) == Granted(limit, before, lo, hi) + if lo <= at < hi then 1 else 0
  {
    var trace := before + [Hit(at, NoFault), Expire(at, NoFault)];
    var first := before + [Hit(at, NoFault)];
    assert trace[..|trace| - 1] == first && first[..|first| - 1] == before;
  }

  /** A counter started at one time and used up at another. */
  lemma OpenAndFill(limit: nat, before: seq<Event>, at: int, later: int, lo: int, hi: int)
    requires limit >= 1 && !Alive(After(before).key, at) && After(before).owed == 0
    requires lo <= later < hi && later < at + WINDOW
    ensures var trace := before + [Hit(at, NoFault), Expire(at, NoFault)] + Repeat(Hit(later, NoFault), limit - 1);
            && After(trace) == World(Present(limit, Some(at + WINDOW)), 0)
            && Granted(limit, trace, lo, hi) == Granted(limit, before, lo, hi) + limit - if lo <= at < hi then 0 else 1
  {
    OpeningPair(limit, before, at, lo, hi);
    RepeatedHits(limit, before + [Hit(at, NoFault), Expire(at, NoFault)], later, limit - 1, lo, hi);
  }

  lemma BurstIsOrdered(limit: nat)
    requires limit >= 1
    ensures Ordered(Burst(limit))
  {
  }

  /** The bound for one minute is attained. */
  lemma BurstAttainsTheBound(limit: nat)
    requires limit >= 1
    ensures Ordered(Burst(limit)) && Granted(limit, Burst(limit), 1, 1 + WINDOW) == 2 * limit - 1
  {
    BurstIsOrdered(limit);
    var none: seq<Event> := [];
    var first := none + [Hit(0, NoFault), Expire(0, NoFault)] + Repeat(Hit(WINDOW - 1, NoFault), limit - 1);
    OpenAndFill(limit, none, 0, WINDOW - 1, 1, 1 + WINDOW);
    OpenAndFill(limit, first, WINDOW, WINDOW, 1, 1 + WINDOW);
    assert none + [Hit(0, NoFault), Expire(0, NoFault)] == [Hit(0, NoFault), Expire(0, NoFault)];
  }

  /** What a sliding window promises of the minute from `lo` on. */
  ghost predicate Slides(limit: int, trace: seq<Event>, lo: int) {
    Ordered(trace) ==> Granted(limit, trace, lo, lo + WINDOW) <= if limit <= 0 then 0 else limit
  }

  /** The limiter calls itself a sliding window: no minute would let through more than `limit` calls.
      That is so exactly for limits of at most one; with a larger one the burst above breaks it. */
  lemma SlidesIffAtMostOne(limit: int)
    ensures (forall trace, lo :: Slides(limit, trace, lo)) <==> limit <= 1
  {
    if limit <= 1 {
      forall trace, lo
        ensures Slides(limit, trace, lo)
      {
        if Ordered(trace) {
          RateIsBounded(limit, trace, lo, 1);
        }
      }
    } else {
      BurstAttainsTheBound(limit);
      assert !Slides(limit, Burst(limit), 1);
    }
  }

  // ----- A counter that never expires -----

  function AfterMore(w: World, more: seq<Event>): World {
    if more == [] then w else Step(AfterMore(w, more[..|more| - 1]), more[|more| - 1])
  }

  function GrantedMore(limit: int, w: World, more: seq<Event>): nat {
    if more == [] then 0
    else
      var front, last := more[..|more| - 1], more[|more| - 1];
      GrantedMore(limit, w, front) + if Grants(limit, AfterMore(w, front), last) then 1 else 0
  }

  /** Once a counter has no expiry and nobody is left to set one, which is what a failed EXPIRE or a
      lost first answer leaves behind, it stays so for good: whatever comes later, only what is left of
      the limit is ever let through. */
  lemma {:induction false} StuckForGood(limit: int, w: World, more: seq<Event>)
    requires w.key.Present? && w.key.count >= 1 && w.key.expiry.None? && w.owed == 0
    ensures var end := AfterMore(w, more);
            && end.key.Present? && end.key.expiry.None? && end.owed == 0 && end.key.count >= w.key.count
            && GrantedMore(limit, w, more) <=
               if limit <= w.key.count then 0 else Min(limit, end.key.count) - w.key.count
  {
    if more != [] {
      StuckForGood(limit, w, more[..|more| - 1]);
    }
  }

  /** Hence, from any run that leaves such a counter, it never lets through more than `limit` calls in all. */
  lemma NoCallBeyondTheLimit(limit: int, trace: seq<Event>, more: seq<Event>)
    requires var w := After(trace); w.key.Present? && w.key.count >= 1 && w.key.expiry.None? && w.owed == 0
    ensures GrantedByCounter(limit, trace) + GrantedMore(limit, After(trace), more) <= if limit <= 0 then 0 else limit
  {
    CounterIsBounded(limit, trace);
    StuckForGood(limit, After(trace), more);
  }

  /** Later commands, from `from` on, that let a call through. */
  ghost predicate LetsIn(limit: int, w: World, from: int, more: seq<Event>) {
    Ordered(more) && (forall e | e in more :: e.at >= from) && GrantedMore(limit, w, more) > 0
  }

  lemma OneMore(limit: int, w: World, more: seq<Event>, e: Event)
    ensures AfterMore(w, more + [e]) == Step(AfterMore(w, more), e)
    ensures GrantedMore(limit, w, more + [e]) ==
            GrantedMore(limit, w, more) + if Grants(limit, AfterMore(w, more), e) then 1 else 0
  {
    assert (more + [e])[..|more|] == more;
  }

  lemma GetsInAfterExpiry(limit: int, w: World, from: int) returns (more: seq<Event>)
    requires limit >= 1 && w.key.Present? && w.key.expiry.Some?
    ensures LetsIn(limit, w, from, more)
  {
    var at := if from < w.key.expiry.value then w.key.expiry.value else from;
    more := [] + [Hit(at, NoFault)];
    OneMore(limit, w, [], Hit(at, NoFault));
  }

  lemma GetsInOnceExpirySet(limit: int, w: World, from: int) returns (more: seq<Event>)
    requires limit >= 1 && w.key.Present? && w.key.expiry.None? && w.owed > 0
    ensures LetsIn(limit, w, from, more)
  {
    var expire, call := Expire(from, NoFault), Hit(from + WINDOW, NoFault);
    var first := [] + [expire];
    OneMore(limit, w, [], expire);
    assert AfterMore(w, first).key.expiry == Some(from + WINDOW);
    OneMore(limit, w, first, call);
    more := first + [call];
  }

  /** A service that has used up its limit gets in again at some later time if and only if its counter has
      an expiry or some caller has yet to set one. Otherwise it is locked out for ever. */
  lemma LockedOutIff(limit: int, w: World, from: int)
    requires limit >= 1 && w.key.Present? && w.key.count >= limit
    ensures (exists more :: LetsIn(limit, w, from, more)) <==> w.key.expiry.Some? || w.owed > 0
  {
    if w.key.expiry.Some? {
      var more := GetsInAfterExpiry(limit, w, from);
    } else if w.owed > 0 {
      var more := GetsInOnceExpirySet(limit, w, from);
    } else {
      forall more
        ensures !LetsIn(limit, w, from, more)
      {
        StuckForGood(limit, w, more);
      }
    }
  }

  /** One refused EXPIRE is enough: once the limit is used up nothing gets through any more. */
  lemma OneFailureLocksOut(limit: nat, at: int, more: seq<Event>)
    requires limit >= 1
    ensures var trace := [Hit(at, NoFault), Expire(at, Refused)] + Repeat(Hit(at, NoFault), limit - 1);
            && Ordered(trace) && After(trace) == World(Present(limit, None), 0)
            && GrantedMore(limit, After(trace), more) == 0
  {
    var opening := [Hit(at, NoFault), Expire(at, Refused)];
    NextEvent(limit, [], Hit(at, NoFault), at, at + 1);
    NextEvent(limit, [Hit(at, NoFault)], Expire(at, Refused), at, at + 1);
    assert [] + [Hit(at, NoFault)] == [Hit(at, NoFault)] && [Hit(at, NoFault)] + [Expire(at, Refused)] == opening;
    assert After(opening) == World(Present(1, None), 0);
    RepeatedHits(limit, opening, at, limit - 1, at, at + 1);
    StuckForGood(limit, World(Present(limit, None), 0), more);
  }
}
