/** The Redis fixed-window rate limiter, for one key, over timed traces in which every Redis command
    is a separate event. */
module RateLimiter {
  import opened Wrappers

  type Time = real

  /** The counter stored under the key. `since` is the moment it was created; only proofs read it. */
  datatype Counter = Absent | Present(count: nat, deadline: Option<Time>, since: Time)

  /** `owed`: the request that saw the count 1 has not issued its EXPIRE yet. It may do so late, or
      never when its process dies. */
  datatype State = State(counter: Counter, owed: bool)

  const INIT := State(Absent, false)

  datatype Event =
    | Request(at: Time)                   // INCR answered
    | Expire(at: Time)                    // the EXPIRE of the request that saw the count 1
    | Errored(at: Time, counted: bool)    // INCR reported an error, whether or not it took effect

  /** Redis drops the counter once its deadline is reached. */
  function Current(c: Counter, at: Time): Counter {
    if c.Present? && c.deadline.Some? && c.deadline.value <= at then Absent else c
  }

  function Incremented(c: Counter, at: Time): Counter {
    if c.Absent? then Present(1, None, at) else c.(count := c.count + 1)
  }

  function Step(window: Time, s: State, e: Event): State {
    match e
    case Request(at) =>
      var c := Current(s.counter, at);
      State(Incremented(c, at), s.owed || c.Absent?)
    case Expire(at) =>
      var c := Current(s.counter, at);
      if s.owed && c.Present? then State(c.(deadline := Some(at + window)), false) else s
    case Errored(at, counted) =>
      if counted then State(Incremented(Current(s.counter, at), at), s.owed) else s
  }

  /** A counted request is let through unless the count it saw exceeds the maximum. */
  predicate Admits(maxRequests: int, s: State, e: Event) {
    e.Request? && Incremented(Current(s.counter, e.at), e.at).count <= maxRequests
  }

  function After(window: Time, trace: seq<Event>): State {
    if trace == [] then INIT else Step(window, After(window, trace[..|trace| - 1]), trace[|trace| - 1])
  }

  ghost predicate Ordered(trace: seq<Event>) {
    forall i, j :: 0 <= i < j < |trace| ==> trace[i].at <= trace[j].at
  }

  predicate Within(at: Time, from: Time, to: Time) {
    from <= at < to
  }

  function One(b: bool): nat {
    if b then 1 else 0
  }

  /** Requests admitted at times in [from, to). */
  function Admitted(maxRequests: int, window: Time, trace: seq<Event>, from: Time, to: Time): nat {
    if trace == [] then 0
    else
      var before, e := trace[..|trace| - 1], trace[|trace| - 1];
      Admitted(maxRequests, window, before, from, to)
      + One(Within(e.at, from, to) && Admits(maxRequests, After(window, before), e))
  }

  /** Whether the last event of a trace starts a new life of the key. */
  predicate Creates(window: Time, before: seq<Event>, e: Event) {
    (e.Request? || (e.Errored? && e.counted)) && Current(After(window, before).counter, e.at).Absent?
  }

  /** Lives of the key that start in [from, to). */
  function LivesBegun(window: Time, trace: seq<Event>, from: Time, to: Time): nat {
    if trace == [] then 0
    else
      var before, e := trace[..|trace| - 1], trace[|trace| - 1];
      LivesBegun(window, before, from, to) + One(Within(e.at, from, to) && Creates(window, before, e))
  }

  function Count(c: Counter): nat {
    if c.Absent? then 0 else c.count
  }

  function Min(a: int, b: int): int {
    if a <= b then a else b
  }

  ghost predicate EndsBy(trace: seq<Event>, to: Time) {
    forall i :: 0 <= i < |trace| ==> trace[i].at < to
  }

  lemma DropLast(trace: seq<Event>, to: Time)
    requires trace != [] && Ordered(trace)
    ensures Ordered(trace[..|trace| - 1])
    ensures EndsBy(trace, to) ==> EndsBy(trace[..|trace| - 1], to)
  {
  }

  /** A life lasts at least one window, since its deadline is set after it starts. */
  lemma {:induction false} LifeLasts(window: Time, trace: seq<Event>)
    requires window > 0.0 && Ordered(trace)
    ensures var c := After(window, trace).counter;
            c.Present? ==>
              c.count >= 1
              && (c.deadline.Some? ==> c.deadline.value >= c.since + window)
              && (trace != [] && c.since <= trace[|trace| - 1].at)
  {
    if trace != [] {
      DropLast(trace, 0.0);
      LifeLasts(window, trace[..|trace| - 1]);
    }
  }

  /** Requests admitted at positions from `start` on. */
  function AdmittedSince(maxRequests: int, window: Time, trace: seq<Event>, start: nat): nat {
    if |trace| <= start then 0
    else
      var before, e := trace[..|trace| - 1], trace[|trace| - 1];
      AdmittedSince(maxRequests, window, before, start) + One(Admits(maxRequests, After(window, before), e))
  }

  /** Between two moments at which the key is created, at most maxRequests requests are admitted,
      whether or not an EXPIRE was issued or INCR calls reported errors in between. */
  lemma {:induction false} LifeBound(maxRequests: nat, window: Time, trace: seq<Event>, start: nat)
    requires forall i :: start < i < |trace| ==> !Creates(window, trace[..i], trace[i])
    ensures |trace| > start ==>
              AdmittedSince(maxRequests, window, trace, start) <= Min(Count(After(window, trace).counter), maxRequests)
    ensures AdmittedSince(maxRequests, window, trace, start) <= maxRequests
  {
    if |trace| > start {
      var before := trace[..|trace| - 1];
      assert forall i :: 0 <= i < |before| ==> before[..i] == trace[..i];
      LifeBound(maxRequests, window, before, start);
      CountsFromOne(window, before);
    }
  }

  /** The length of n windows. */
  function Span(n: nat, window: Time): Time {
    if n == 0 then 0.0 else Span(n - 1, window) + window
  }

  lemma {:induction false} SpanIsProduct(n: nat, window: Time)
    ensures Span(n, window) == n as real * window
  {
    if n > 0 {
      SpanIsProduct(n - 1, window);
      var m := (n - 1) as real;
      assert (m + 1.0) * window == m * window + window;
    }
  }

  lemma {:induction false} SpanGrows(m: nat, n: nat, window: Time)
    requires m <= n && window > 0.0
    ensures Span(m, window) <= Span(n, window)
  {
    if m < n {
      SpanGrows(m, n - 1, window);
    }
  }

  /** The n-th life to start in the interval starts at least n - 1 windows after the interval does. */
  lemma {:induction false} LivesAreSpaced(window: Time, trace: seq<Event>, from: Time, to: Time)
    requires window > 0.0 && Ordered(trace) && EndsBy(trace, to)
    ensures var n := LivesBegun(window, trace, from, to);
            var c := After(window, trace).counter;
            n > 0 ==> c.Present? && c.since >= from + Span(n - 1, window)
  {
    if trace != [] {
      var before, e := trace[..|trace| - 1], trace[|trace| - 1];
      DropLast(trace, to);
      LivesAreSpaced(window, before, from, to);
      LifeLasts(window, before);
    }
  }

  /** Each life admits at most the maximum, and one that began before the interval has already
      spent at least one of its requests. */
  lemma {:induction false} AdmittedPerLife(maxRequests: nat, window: Time, trace: seq<Event>, from: Time, to: Time)
    requires window > 0.0 && Ordered(trace) && EndsBy(trace, to)
    ensures var n := LivesBegun(window, trace, from, to);
            var c := Count(After(window, trace).counter);
            Admitted(maxRequests, window, trace, from, to)
              <= maxRequests * n + Min(c, maxRequests) - One(c > 0 && maxRequests > 0)
    ensures After(window, trace).counter.Present? ==> After(window, trace).counter.count >= 1
  {
    if trace != [] {
      var before, e := trace[..|trace| - 1], trace[|trace| - 1];
      DropLast(trace, to);
      AdmittedPerLife(maxRequests, window, before, from, to);
      var n := LivesBegun(window, before, from, to);
      assert maxRequests * (n + 1) == maxRequests * n + maxRequests;
      if Creates(window, before, e) && e.at < from {
        NothingBefore(maxRequests, window, before, from, to, e.at);
      }
    }
  }

  lemma {:induction false} NothingBefore(maxRequests: nat, window: Time, trace: seq<Event>, from: Time, to: Time,
        last: Time)
    requires last < from && forall i :: 0 <= i < |trace| ==> trace[i].at <= last
    ensures Admitted(maxRequests, window, trace, from, to) == 0
    ensures LivesBegun(window, trace, from, to) == 0
  {
    if trace != [] {
      NothingBefore(maxRequests, window, trace[..|trace| - 1], from, to, last);
    }
  }

  lemma {:induction false} NothingAfter(maxRequests: int, window: Time, trace: seq<Event>, from: Time, to: Time, n: nat)
    requires n <= |trace| && forall i :: n <= i < |trace| ==> trace[i].at >= to
    ensures Admitted(maxRequests, window, trace, from, to) == Admitted(maxRequests, window, trace[..n], from, to)
  {
    if n < |trace| {
      NothingAfter(maxRequests, window, trace[..|trace| - 1], from, to, n);
      assert trace[..|trace| - 1][..n] == trace[..n];
    } else {
      assert trace[..n] == trace;
    }
  }

  /** The longest prefix of an ordered trace before `to`. */
  ghost function Before(trace: seq<Event>, to: Time): (n: nat)
    requires Ordered(trace)
    ensures n <= |trace| && EndsBy(trace[..n], to)
    ensures forall i :: n <= i < |trace| ==> trace[i].at >= to
  {
    if trace == [] || trace[|trace| - 1].at < to then |trace|
    else
      DropLast(trace, to);
      var n := Before(trace[..|trace| - 1], to);
      assert trace[..|trace| - 1][..n] == trace[..n];
      n
  }

  /** Over any interval no longer than k windows, and however late the EXPIRE of each life comes, at
      most maxRequests * (k + 1) - 1 counted requests get through. */
  lemma IntervalBound(maxRequests: int, window: Time, trace: seq<Event>, from: Time, to: Time, k: nat)
    requires window > 0.0 && Ordered(trace)
    requires to - from <= k as real * window
    ensures maxRequests <= 0 ==> Admitted(maxRequests, window, trace, from, to) == 0
    ensures maxRequests > 0 ==> Admitted(maxRequests, window, trace, from, to) <= maxRequests * (k + 1) - 1
  {
    if maxRequests <= 0 {
      AdmitsNone(maxRequests, window, trace, from, to);
    } else {
      var cut := Before(trace, to);
      NothingAfter(maxRequests, window, trace, from, to, cut);
      var head := trace[..cut];
      assert Ordered(head);
      AdmittedPerLife(maxRequests, window, head, from, to);
      LivesAreSpaced(window, head, from, to);
      LifeLasts(window, head);
      var n := LivesBegun(window, head, from, to);
      SpanIsProduct(k, window);
      if n > k {
        SpanGrows(k, n - 1, window);
      }
      assert n <= k;
      MulMono(maxRequests, n, k);
    }
  }

  lemma MulMono(m: nat, n: nat, k: nat)
    requires n <= k
    ensures m * n + m <= m * (k + 1)
  {
    assert m * (k + 1) == m * n + m + m * (k - n);
  }

  lemma {:induction false} AdmitsNone(maxRequests: int, window: Time, trace: seq<Event>, from: Time, to: Time)
    requires maxRequests <= 0
    ensures Admitted(maxRequests, window, trace, from, to) == 0
  {
    if trace != [] {
      AdmitsNone(maxRequests, window, trace[..|trace| - 1], from, to);
      CountsFromOne(window, trace[..|trace| - 1]);
    }
  }

  lemma {:induction false} CountsFromOne(window: Time, trace: seq<Event>)
    ensures After(window, trace).counter.Present? ==> After(window, trace).counter.count >= 1
  {
    if trace != [] {
      CountsFromOne(window, trace[..|trace| - 1]);
    }
  }

  /** Number of windows that cover a length. */
  function Ceil(x: real): int {
    -((-x).Floor)
  }

  lemma QuotientTimes(length: Time, window: Time)
    requires window > 0.0
    ensures length / window * window == length
  {
  }

  lemma TimesGrows(p: real, q: real, window: Time)
    requires window > 0.0 && p <= q
    ensures p * window <= q * window
  {
  }

  lemma CeilCovers(length: Time, window: Time)
    requires window > 0.0 && length >= 0.0
    ensures Ceil(length / window) >= 0 && length <= Ceil(length / window) as real * window
  {
    var q := length / window;
    QuotientTimes(length, window);
    TimesGrows(q, Ceil(q) as real, window);
    if q < 0.0 {
      TimesGrows(q, 0.0, window);
    }
  }

  /** The bound for an interval of any length; for one window it is 2 * maxRequests - 1. */
  lemma WindowBound(maxRequests: int, window: Time, trace: seq<Event>, from: Time, length: Time)
    requires window > 0.0 && Ordered(trace) && maxRequests > 0 && length >= 0.0
    ensures Admitted(maxRequests, window, trace, from, from + length) <= maxRequests * (Ceil(length / window) + 1) - 1
    ensures length == window ==> Admitted(maxRequests, window, trace, from, from + length) <= 2 * maxRequests - 1
  {
    CeilCovers(length, window);
    var k := Ceil(length / window);
    assert from + length - from == length;
    IntervalBound(maxRequests, window, trace, from, from + length, k);
    if length == window {
      IntervalBound(maxRequests, window, trace, from, from + length, 1);
    }
  }

  /** Requests that all come at one moment. */
  function Burst(n: nat, at: Time): seq<Event> {
    seq(n, i => Request(at))
  }

  lemma BurstSnoc(before: seq<Event>, n: nat, at: Time)
    requires n > 0
    ensures before + Burst(n, at) == before + Burst(n - 1, at) + [Request(at)]
  {
    assert Burst(n, at) == Burst(n - 1, at) + [Request(at)];
  }

  /** While the key lives and the maximum is not reached, every request of a burst is let through. */
  lemma {:induction false} BurstAdmitted(maxRequests: int, window: Time, before: seq<Event>, n: nat, at: Time,
        from: Time, to: Time)
    requires var c := After(window, before).counter;
             c.Present? && Current(c, at) == c && c.count + n <= maxRequests && Within(at, from, to)
    ensures var c := After(window, before).counter;
            After(window, before + Burst(n, at)).counter == c.(count := c.count + n)
    ensures Admitted(maxRequests, window, before + Burst(n, at), from, to)
        == Admitted(maxRequests, window, before, from, to) + n
  {
    if n == 0 {
      assert before + Burst(n, at) == before;
    } else {
      BurstAdmitted(maxRequests, window, before, n - 1, at, from, to);
      BurstSnoc(before, n, at);
      Snoc(maxRequests, window, before + Burst(n - 1, at), Request(at), from, to);
    }
  }

  /** The first request opens a life; halfway through its window the rest of the maximum comes, and when
      the window ends the whole maximum. */
  function TwoBursts(maxRequests: int, window: Time): seq<Event>
    requires maxRequests > 0
  {
    [Request(0.0), Expire(0.0)] + Burst(maxRequests - 1, window / 2.0) + Burst(maxRequests, window)
  }

  lemma FirstLife(maxRequests: int, window: Time, from: Time, to: Time)
    requires window > 0.0 && from > 0.0
    ensures var life := [Request(0.0), Expire(0.0)];
            After(window, life).counter == Present(1, Some(window), 0.0)
                && Admitted(maxRequests, window, life, from, to) == 0
  {
    Snoc(maxRequests, window, [], Request(0.0), from, to);
    assert [] + [Request(0.0)] == [Request(0.0)];
    Snoc(maxRequests, window, [Request(0.0)], Expire(0.0), from, to);
    assert [Request(0.0)] + [Expire(0.0)] == [Request(0.0), Expire(0.0)];
  }

  lemma FirstBurst(maxRequests: int, window: Time, before: seq<Event>, from: Time, to: Time)
    requires maxRequests > 0 && Within(from, from, to) && from < window && before == [Request(0.0), Expire(0.0)]
    requires After(window, before).counter == Present(1, Some(window), 0.0)
    ensures var first := before + Burst(maxRequests - 1, from);
            && After(window, first).counter == Present(maxRequests, Some(window), 0.0)
            && Admitted(maxRequests, window, first, from, to)
                == Admitted(maxRequests, window, before, from, to) + maxRequests - 1
  {
    hide After, Admitted;
    BurstAdmitted(maxRequests, window, before, maxRequests - 1, from, from, to);
  }

  lemma SecondLife(maxRequests: int, window: Time, first: seq<Event>, from: Time, to: Time)
    requires maxRequests > 0 && Within(window, from, to)
    requires After(window, first).counter == Present(maxRequests, Some(window), 0.0)
    ensures var second := first + [Request(window)];
            && After(window, second).counter == Present(1, None, window)
            && Admitted(maxRequests, window, second, from, to) == Admitted(maxRequests, window, first, from, to) + 1
  {
    hide After, Admitted;
    Snoc(maxRequests, window, first, Request(window), from, to);
  }

  lemma SecondBurst(maxRequests: int, window: Time, second: seq<Event>, from: Time, to: Time)
    requires maxRequests > 0 && Within(window, from, to)
    requires After(window, second).counter == Present(1, None, window)
    ensures Admitted(maxRequests, window, second + Burst(maxRequests - 1, window), from, to)
         == Admitted(maxRequests, window, second, from, to) + maxRequests - 1
  {
    hide After, Admitted;
    BurstAdmitted(maxRequests, window, second, maxRequests - 1, window, from, to);
  }

  lemma TwoBurstsOrdered(maxRequests: int, window: Time)
    requires maxRequests > 0 && window > 0.0
    ensures Ordered(TwoBursts(maxRequests, window))
  {
  }

  lemma TwoBurstsFrom(maxRequests: int, window: Time, first: seq<Event>)
    requires maxRequests > 0 && first == [Request(0.0), Expire(0.0)] + Burst(maxRequests - 1, window / 2.0)
    ensures TwoBursts(maxRequests, window) == first + [Request(window)] + Burst(maxRequests - 1, window)
  {
    assert Burst(maxRequests, window) == [Request(window)] + Burst(maxRequests - 1, window);
  }

  /** The bound for one window is reached, for every maximum and every window. */
  lemma WindowBoundReached(maxRequests: int, window: Time)
    requires maxRequests > 0 && window > 0.0
    ensures var trace, from := TwoBursts(maxRequests, window), window / 2.0;
            Ordered(trace) && Admitted(maxRequests, window, trace, from, from + window) == 2 * maxRequests - 1
  {
    hide After, Admitted, TwoBursts, Burst, Ordered;
    var from, to := window / 2.0, window / 2.0 + window;
    var first := [Request(0.0), Expire(0.0)] + Burst(maxRequests - 1, from);
    var second := first + [Request(window)];
    FirstLife(maxRequests, window, from, to);
    FirstBurst(maxRequests, window, [Request(0.0), Expire(0.0)], from, to);
    SecondLife(maxRequests, window, first, from, to);
    SecondBurst(maxRequests, window, second, from, to);
    TwoBurstsOrdered(maxRequests, window);
    TwoBurstsFrom(maxRequests, window, first);
  }

  lemma Snoc(maxRequests: int, window: Time, before: seq<Event>, e: Event, from: Time, to: Time)
    ensures After(window, before + [e]) == Step(window, After(window, before), e)
    ensures Admitted(maxRequests, window, before + [e], from, to)
         == Admitted(maxRequests, window, before, from, to)
             + One(Within(e.at, from, to) && Admits(maxRequests, After(window, before), e))
  {
    assert (before + [e])[..|before|] == before;
  }

  /** A key whose maximum is used up admits a request again exactly when its deadline was set and
      has been reached: without an EXPIRE, never. */
  lemma AdmitsAgainExactlyWhen(maxRequests: int, s: State, at: Time)
    requires s.counter.Present? && s.counter.count >= maxRequests && maxRequests > 0
    ensures Admits(maxRequests, s, Request(at)) <==> s.counter.deadline.Some? && s.counter.deadline.value <= at
  {
  }

  /** The life of the key that the `start`-th event opens is still the current one. */
  ghost predicate SameLife(window: Time, trace: seq<Event>, start: nat) {
    start < |trace| && Creates(window, trace[..start], trace[start])
    && forall i :: start < i < |trace| ==> !Creates(window, trace[..i], trace[i])
  }

  lemma SameLifeBefore(window: Time, trace: seq<Event>, start: nat)
    requires SameLife(window, trace, start) && start + 1 < |trace|
    ensures var before := trace[..|trace| - 1];
            && SameLife(window, before, start) && !Creates(window, before, trace[|trace| - 1])
  {
    var before := trace[..|trace| - 1];
    assert forall i :: 0 <= i <= |before| ==> before[..i] == trace[..i];
  }

  /** INCRs that took effect at positions from `start` on. */
  function Increments(trace: seq<Event>, start: nat): nat {
    if |trace| <= start then 0
    else
      var e := trace[|trace| - 1];
      Increments(trace[..|trace| - 1], start) + One(e.Request? || (e.Errored? && e.counted))
  }

  lemma {:induction false} CountOfLife(window: Time, trace: seq<Event>, start: nat)
    requires SameLife(window, trace, start)
    ensures After(window, trace).counter.Present? && After(window, trace).counter.count == Increments(trace, start)
  {
    if start + 1 < |trace| {
      SameLifeBefore(window, trace, start);
      CountOfLife(window, trace[..|trace| - 1], start);
    } else {
      assert Increments(trace[..start], start) == 0;
    }
  }

  /** Within a life of the key, a request is let through exactly when no more INCRs than the maximum took effect
      in it, its own included: errors that took effect use up the maximum, but are let through themselves. */
  lemma AdmittedInLifeExactlyWhen(maxRequests: int, window: Time, before: seq<Event>, at: Time, start: nat)
    requires SameLife(window, before + [Request(at)], start)
    ensures Admits(maxRequests, After(window, before), Request(at)) <==>
              Increments(before + [Request(at)], start) <= maxRequests
  {
    var trace := before + [Request(at)];
    assert trace[..|before|] == before;
    CountOfLife(window, trace, start);
  }

  /** A life that a request opened has no deadline until its EXPIRE is issued, and has that of the EXPIRE from
      then on. */
  lemma {:induction false} DeadlineOfLife(window: Time, trace: seq<Event>, start: nat, expire: nat)
    requires SameLife(window, trace, start) && trace[start].Request?
    requires start < expire && forall i :: start < i < |trace| && i < expire ==> !trace[i].Expire?
    requires expire < |trace| ==> trace[expire].Expire?
    ensures var s := After(window, trace);
            && s.counter.Present?
            && (if expire < |trace| then s.counter.deadline == Some(trace[expire].at + window) && !s.owed
                else s.counter.deadline == None && s.owed)
  {
    if start + 1 < |trace| {
      SameLifeBefore(window, trace, start);
      DeadlineOfLife(window, trace[..|trace| - 1], start, expire);
    }
  }

  /** While an EXPIRE is still to come, the key has no deadline. */
  lemma {:induction false} OwedHasNoDeadline(window: Time, trace: seq<Event>)
    ensures var s := After(window, trace); s.owed ==> s.counter.Present? && s.counter.deadline == None
  {
    if trace != [] {
      OwedHasNoDeadline(window, trace[..|trace| - 1]);
    }
  }

  /** A life that began with an INCR that took effect but reported an error never gets a deadline. */
  lemma {:induction false} NoDeadlineAfterError(window: Time, trace: seq<Event>, start: nat)
    requires SameLife(window, trace, start) && trace[start].Errored?
    ensures var s := After(window, trace); s.counter.Present? && s.counter.deadline == None && !s.owed
  {
    if start + 1 == |trace| {
      OwedHasNoDeadline(window, trace[..start]);
    } else {
      SameLifeBefore(window, trace, start);
      NoDeadlineAfterError(window, trace[..|trace| - 1], start);
    }
  }

  /** Once the maximum of a life is used up, a request is served again exactly from one window after the EXPIRE
      of that life on, whenever that was issued. */
  lemma ServedAgainExactlyWhen(maxRequests: int, window: Time, trace: seq<Event>, start: nat, expire: nat, at: Time)
    requires SameLife(window, trace, start) && trace[start].Request?
    requires start < expire < |trace| && trace[expire].Expire? && forall i :: start < i < expire ==> !trace[i].Expire?
    requires 0 < maxRequests <= Count(After(window, trace).counter)
    ensures Admits(maxRequests, After(window, trace), Request(at)) <==> trace[expire].at + window <= at
  {
    DeadlineOfLife(window, trace, start, expire);
    AdmitsAgainExactlyWhen(maxRequests, After(window, trace), at);
  }

  /** And never, while no EXPIRE of it is issued, or if it began with an INCR that took effect but reported an
      error. */
  lemma NotServedAgain(maxRequests: int, window: Time, trace: seq<Event>, start: nat, at: Time)
    requires SameLife(window, trace, start)
    requires trace[start].Request? ==> forall i :: start < i < |trace| ==> !trace[i].Expire?
    requires 0 < maxRequests <= Count(After(window, trace).counter)
    ensures !Admits(maxRequests, After(window, trace), Request(at))
  {
    if trace[start].Request? {
      DeadlineOfLife(window, trace, start, |trace|);
    } else {
      NoDeadlineAfterError(window, trace, start);
    }
  }

  lemma {:induction false} RefusedForeverWithoutExpire(maxRequests: int, window: Time, s: State, trace: seq<Event>,
        i: nat)
    requires s.counter.Present? && s.counter.deadline == None && s.counter.count >= maxRequests
    requires (forall j :: 0 <= j < |trace| ==> !trace[j].Expire?) && i < |trace|
    ensures !Admits(maxRequests, StateAt(window, s, trace, i), trace[i])
    decreases i
  {
    if i > 0 {
      RefusedForeverWithoutExpire(maxRequests, window, Step(window, s, trace[0]), trace[1..], i - 1);
    }
  }

  /** The state the i-th event meets when the trace starts in `s`. */
  function StateAt(window: Time, s: State, trace: seq<Event>, i: nat): State
    requires i < |trace|
    decreases i
  {
    if i == 0 then s else StateAt(window, Step(window, s, trace[0]), trace[1..], i - 1)
  }

  /** How each command of one request went. */
  datatype Outcome = Answered | Error(tookEffect: bool)

  /** The middleware and the Redis key it counts in. */
  class Limiter {
    const maxRequests: int
    const window: Time
    var counter: Counter
    var owed: bool

    constructor (maxRequests: int, window: Time)
      ensures this.maxRequests == maxRequests && this.window == window
      ensures Valid() && View() == INIT
    {
      this.maxRequests, this.window := maxRequests, window;
      counter, owed := Absent, false;
    }

    ghost predicate Valid()
      reads this
    {
      counter.Present? ==> counter.count >= 1
    }

    function View(): State
      reads this
    {
      State(counter, owed)
    }

    /** One request: INCR at `at`, then perhaps EXPIRE at `later`, whose error is ignored. It is
        served exactly when INCR erred or the count it saw is within the maximum. */
    method Handle(at: Time, later: Time, incr: Outcome, expireTakesEffect: bool) returns (served: bool)
      requires Valid() && at <= later
      modifies this
      ensures Valid()
      ensures served == (incr.Error? || Admits(maxRequests, old(View()), Request(at)))
      ensures incr.Error? ==> View() == Step(window, old(View()), Errored(at, incr.tookEffect))
      ensures incr.Answered? ==>
                var s := Step(window, old(View()), Request(at));
                View() == (if expireTakesEffect && s.counter.count == 1 then Step(window, s, Expire(later)) else s)
      ensures incr.Answered? ==>
                var opens := old(counter).Absent?
                  || (old(counter).deadline.Some? && old(counter).deadline.value <= at);
                && counter.Present? && counter.count == (if opens then 1 else old(counter).count + 1)
                && counter.deadline == (if !opens then old(counter).deadline
                                        else if expireTakesEffect then Some(later + window)
                                        else None)
                && served == (counter.count <= maxRequests)
    {
      if incr.Error? {
        if incr.tookEffect {
          counter := Incremented(Current(counter, at), at);
        }
        return true;
      }
      if Current(counter, at).Absent? {
        counter, owed := Absent, true;
      }
      counter := Incremented(counter, at);
      var count := counter.count;
      if count == 1 && expireTakesEffect && owed {
        counter, owed := counter.(deadline := Some(later + window)), false;
      }
      return count <= maxRequests;
    }
  }
}
