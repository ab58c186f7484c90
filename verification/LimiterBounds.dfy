/** How much the limiter admits, and when. */
module LimiterBounds {
  import opened Sequences
  import opened RateLimiter
  import opened LimiterRestarts

  // ----- The rate bound -----

  function Admits(l: Limiter, e: Event, subject: string): nat {
    if e.Check? && e.subject == subject && AnswerTo(l, e).allowed then 1 else 0
  }

  function Admitted(l: Limiter, events: seq<Event>, subject: string): nat
    decreases |events|
  {
    if events == [] then 0
    else Admits(l, events[0], subject) + Admitted(Next(l, events[0]), events[1..], subject)
  }

  /** Every check of `subject` in the run is judged at `rpm`. */
  ghost predicate RateIs(l: Limiter, events: seq<Event>, subject: string, rpm: nat)
    decreases |events|
  {
    events == [] ||
    (&& (events[0].Check? && events[0].subject == subject ==> EffectiveRpm(l, subject, events[0].admin) == rpm)
     && RateIs(Next(l, events[0]), events[1..], subject, rpm))
  }

  lemma {:induction false} LevelSlope(b: Option<Bucket>, rpm: nat, t: nat, u: nat)
    ensures Level(b, rpm, u) <= Level(b, rpm, t) + Elapsed(t, u) * rpm
  {
    if b.Some? {
      MulSlope(Elapsed(b.value.lastRefill, t), Elapsed(t, u), Elapsed(b.value.lastRefill, u), rpm);
    }
  }

  /** What one event at time `e.now` does to `subject`: only its own admitted check takes tokens, and only a
      restart can give some back. */
  lemma {:induction false} LevelAfter(l: Limiter, e: Event, subject: string, rpm: nat)
    requires e.Cleanup? ==> e.ttl >= 60
    requires e.Check? && e.subject == subject ==> EffectiveRpm(l, subject, e.admin) == rpm
    ensures !e.Restart? ==>
              Level(Find(Next(l, e).buckets, subject), rpm, e.now) ==
              Level(Find(l.buckets, subject), rpm, e.now) - COST * Admits(l, e, subject)
    ensures e.Restart? ==> Level(Find(Next(l, e).buckets, subject), rpm, e.now) <= COST * rpm
  {
    if e.Cleanup? {
      FreshAlike(l.buckets, l.buckets, e.ttl, e.now);
      AlikeLevels(Next(l, e).buckets, l.buckets, e.now, subject, rpm, e.now);
    }
  }

  function Restarts(events: seq<Event>): nat {
    if events == [] then 0 else (if events[0].Restart? then 1 else 0) + Restarts(events[1..])
  }

  /** How far the readings of the clock move forward and backward in all. */
  function Forward(events: seq<Event>, from: nat): nat {
    if events == [] then 0 else Elapsed(from, events[0].now) + Forward(events[1..], events[0].now)
  }

  function Backward(events: seq<Event>, from: nat): nat {
    if events == [] then 0 else Elapsed(events[0].now, from) + Backward(events[1..], events[0].now)
  }

  lemma {:induction false} ForwardBound(events: seq<Event>, from: nat, until: nat)
    requires from <= until && forall i :: 0 <= i < |events| ==> events[i].now <= until
    ensures Forward(events, from) <= until - from + Backward(events, from)
    ensures Clocked(events, from) ==> Backward(events, from) == 0
    decreases |events|
  {
    if events != [] {
      ForwardBound(events[1..], events[0].now, until);
    }
  }

  /** One unrolling of the bound: `paid` is the cost of the head, `gift` what a restart gave back. */
  lemma {:induction false} SpendingStep(
      paid: nat, rest: nat, start: nat, mid: nat, left: nat, gift: nat, restarts: nat, d: nat, f: nat, rpm: nat)
    requires mid <= start + d * rpm
    requires left + paid <= mid + gift * (COST * rpm)
    requires rest <= left + restarts * (COST * rpm) + f * rpm
    ensures paid + rest <= start + (gift + restarts) * (COST * rpm) + (d + f) * rpm
  {
    var c := COST * rpm;
    assert (gift + restarts) * c == gift * c + restarts * c;
    assert (d + f) * rpm == d * rpm + f * rpm;
  }

  lemma {:induction false} SpendingBound(l: Limiter, events: seq<Event>, subject: string, rpm: nat, from: nat)
    requires SafeTtls(events) && RateIs(l, events, subject, rpm)
    ensures COST * Admitted(l, events, subject) <=
            Level(Find(l.buckets, subject), rpm, from)
            + Restarts(events) * (COST * rpm) + Forward(events, from) * rpm
    decreases |events|
  {
    hide Level, Next, Admits, EffectiveRpm, Elapsed;
    if events != [] {
      var e, rest := events[0], events[1..];
      assert forall i :: 0 <= i < |rest| ==> rest[i] == events[i + 1];
      LevelSlope(Find(l.buckets, subject), rpm, from, e.now);
      LevelAfter(l, e, subject, rpm);
      RestartAdmitsNothing(l, e, subject);
      SpendingBound(Next(l, e), rest, subject, rpm, e.now);
      SpendingStep(
        COST * Admits(l, e, subject), COST * Admitted(Next(l, e), rest, subject),
        Level(Find(l.buckets, subject), rpm, from), Level(Find(l.buckets, subject), rpm, e.now),
        Level(Find(Next(l, e).buckets, subject), rpm, e.now), if e.Restart? then 1 else 0,
        Restarts(rest), Elapsed(from, e.now), Forward(rest, e.now), rpm);
    }
  }

  lemma RestartAdmitsNothing(l: Limiter, e: Event, subject: string)
    ensures e.Restart? ==> Admits(l, e, subject) == 0
  {
  }

  /** In any stretch of any run that lasts `seconds` and holds `k` restarts, a subject held to `rpm` is admitted
      at most `(k + 1) * rpm + seconds * rpm / 60` times, whatever else happens in between. Checks that take the
      lock out of clock order add what the clock readings move back. */
  lemma {:induction false} RateBound(
      l: Limiter, events: seq<Event>, subject: string, rpm: nat, from: nat, seconds: nat)
    requires SafeTtls(events) && RateIs(l, events, subject, rpm)
    requires forall i :: 0 <= i < |events| ==> events[i].now <= from + seconds
    ensures Admitted(l, events, subject) <=
            (Restarts(events) + 1) * rpm + (seconds + Backward(events, from)) * rpm / 60
    ensures Clocked(events, from) ==> Backward(events, from) == 0
  {
    hide RateIs, Admitted, Restarts, Forward, Backward;
    SpendingBound(l, events, subject, rpm, from);
    ForwardBound(events, from, from + seconds);
    BoundArithmetic(
      Admitted(l, events, subject), Level(Find(l.buckets, subject), rpm, from), Restarts(events),
      Forward(events, from), seconds + Backward(events, from), rpm);
  }

  lemma {:induction false} BoundArithmetic(admitted: nat, start: nat, k: nat, f: nat, t: nat, rpm: nat)
    requires COST * admitted <= start + k * (COST * rpm) + f * rpm
    requires start <= COST * rpm && f <= t
    ensures admitted <= (k + 1) * rpm + t * rpm / 60
  {
    MulMono(f, t, rpm);
    var p, q := k * rpm, t * rpm;
    assert k * (COST * rpm) == COST * p;
    assert (k + 1) * rpm == p + rpm;
    assert COST * (admitted - p - rpm) <= q;
  }

  function Repeated(e: Event, n: nat): seq<Event> {
    if n == 0 then [] else [e] + Repeated(e, n - 1)
  }

  /** The reported remainder is exact: `n` checks in one second admit exactly as many as whole tokens are left,
      and each admission reports one token fewer. */
  lemma {:induction false} RemainingIsExact(l: Limiter, subject: string, admin: bool, now: nat, n: nat)
    ensures var tokens := Level(Find(l.buckets, subject), EffectiveRpm(l, subject, admin), now) / COST;
            var answer := AnswerTo(l, Check(subject, admin, now));
            && Admitted(l, Repeated(Check(subject, admin, now), n), subject) == Min(n, tokens)
            && (answer.allowed <==> tokens >= 1)
            && answer.remaining == (if tokens >= 1 then tokens - 1 else 0)
            && (answer.retryAfter.None? <==> answer.allowed)
    decreases n
  {
    var e := Check(subject, admin, now);
    if n > 0 {
      var rpm := EffectiveRpm(l, subject, admin);
      LevelAfter(l, e, subject, rpm);
      RemainingIsExact(Next(l, e), subject, admin, now, n - 1);
      assert Repeated(e, n)[0] == e && Repeated(e, n)[1..] == Repeated(e, n - 1);
    }
  }

  // ----- The bound is attained -----

  /** What the gateway's timer does at start and every 300 seconds. */
  function Upkeep(now: nat): seq<Event> {
    [Cleanup(600, now), Save(true, now)]
  }

  /** The runs that attain the bound: one subject spends its bucket at once, the gateway is restarted `restarts`
      times before the timer saves again, and for `seconds` more the subject takes what each second refills. */
  function Second(rpm: nat, t: nat): seq<Event> {
    (if t % 300 == 0 then Upkeep(t) else []) + Repeated(Check("a", false, t), rpm)
  }

  function Seconds(rpm: nat, t: nat, n: nat): seq<Event>
    decreases n
  {
    if n == 0 then [] else Second(rpm, t + 1) + Seconds(rpm, t + 1, n - 1)
  }

  function Sessions(rpm: nat, restarts: nat, seconds: nat): seq<Event> {
    Second(rpm, 0)
    + if restarts == 0 then Seconds(rpm, 0, seconds)
      else [Restart(true, 0)] + Sessions(rpm, restarts - 1, seconds)
  }

  lemma {:induction false} AdmittedConcat(l: Limiter, a: seq<Event>, b: seq<Event>, subject: string)
    ensures Admitted(l, a + b, subject) == Admitted(l, a, subject) + Admitted(After(l, a), b, subject)
    ensures After(l, a + b) == After(After(l, a), b)
    decreases |a|
  {
    hide Next, Admits;
    if a == [] {
      assert a + b == b;
    } else {
      AdmittedConcat(Next(l, a[0]), a[1..], b, subject);
      assert (a + b)[0] == a[0] && (a + b)[1..] == a[1..] + b;
    }
  }

  /** Configured with one rate, and with what "a" has left at the instant `t`. */
  ghost predicate Has(l: Limiter, rpm: nat, t: nat, level: nat) {
    l.overrides == map[] && l.regularRpm == rpm && Level(Find(l.buckets, "a"), rpm, t) == level
  }

  /** A burst at `t` empties the bucket of "a" down to a fraction of a token. */
  lemma {:induction false} BurstDrains(l: Limiter, rpm: nat, t: nat, n: nat, level: nat)
    requires Has(l, rpm, t, level) && level / COST <= n
    ensures Admitted(l, Repeated(Check("a", false, t), n), "a") == level / COST
    ensures After(l, Repeated(Check("a", false, t), n)) ==
            l.(buckets := After(l, Repeated(Check("a", false, t), n)).buckets)
    ensures n > 0 ==> Find(After(l, Repeated(Check("a", false, t), n)).buckets, "a") == Some(Bucket(level % COST, t))
    decreases n
  {
    if n > 0 {
      var e := Check("a", false, t);
      var l' := Next(l, e);
      LevelAfter(l, e, "a", rpm);
      assert Repeated(e, n)[0] == e && Repeated(e, n)[1..] == Repeated(e, n - 1);
      var left := level - COST * Admits(l, e, "a");
      assert Admits(l, e, "a") == if level >= COST then 1 else 0;
      assert left / COST <= n - 1 && left % COST == level % COST;
      assert level / COST == Admits(l, e, "a") + left / COST;
      BurstDrains(l', rpm, t, n - 1, left);
    }
  }

  /** One second of such a run: the timer changes nothing "a" can notice, and the burst takes every token. */
  lemma {:induction false} SecondDrains(l: Limiter, rpm: nat, t: nat, level: nat)
    requires Has(l, rpm, t, level) && rpm > 0
    ensures Admitted(l, Second(rpm, t), "a") == level / COST
    ensures Find(After(l, Second(rpm, t)).buckets, "a") == Some(Bucket(level % COST, t))
    ensures After(l, Second(rpm, t)).overrides == map[] && After(l, Second(rpm, t)).regularRpm == rpm
    ensures l.buckets == map[] && t == 0 ==> After(l, Second(rpm, t)).saved == map[]
  {
    hide Level, Repeated;
    var burst := Repeated(Check("a", false, t), rpm);
    assert level <= COST * rpm by { LevelIsCapped(Find(l.buckets, "a"), rpm, t); }
    if t % 300 == 0 {
      var tick := Upkeep(t);
      AdmittedConcat(l, tick, burst, "a");
      LevelAfter(l, tick[0], "a", rpm);
      UpkeepKeeps(l, t);
      BurstDrains(After(l, tick), rpm, t, rpm, level);
    } else {
      assert Second(rpm, t) == burst;
      BurstDrains(l, rpm, t, rpm, level);
    }
  }

  lemma LevelIsCapped(b: Option<Bucket>, rpm: nat, t: nat)
    ensures Level(b, rpm, t) <= COST * rpm
  {
  }

  lemma {:induction false} UpkeepKeeps(l: Limiter, t: nat)
    ensures After(l, Upkeep(t)) == l.(buckets := Fresh(l.buckets, 600, t), saved := Fresh(l.buckets, 600, t))
    ensures Admitted(l, Upkeep(t), "a") == 0
  {
    hide Level, Fresh;
    var save := Save(true, t);
    var l' := Next(l, Cleanup(600, t));
    assert Upkeep(t)[1..] == [save] && [save][1..] == [];
    assert After(l', [save]) == After(Next(l', save), []) && Admitted(l', [save], "a") == 0;
  }

  lemma {:induction false} SecondsAdmit(l: Limiter, rpm: nat, t: nat, n: nat, left: nat)
    requires l.overrides == map[] && l.regularRpm == rpm && rpm > 0
    requires left < COST && Find(l.buckets, "a") == Some(Bucket(left, t))
    ensures Admitted(l, Seconds(rpm, t, n), "a") == (left + n * rpm) / COST
    decreases n
  {
    hide Second, Admitted, After;
    if n == 0 {
      EmptyRun(l);
    } else {
      var level := left + rpm;
      assert Level(Find(l.buckets, "a"), rpm, t + 1) == level;
      SecondDrains(l, rpm, t + 1, level);
      AdmittedConcat(l, Second(rpm, t + 1), Seconds(rpm, t + 1, n - 1), "a");
      SecondsAdmit(After(l, Second(rpm, t + 1)), rpm, t + 1, n - 1, level % COST);
      assert n * rpm == rpm + (n - 1) * rpm;
      DivSplit(level, (n - 1) * rpm);
    }
  }

  lemma EmptyRun(l: Limiter)
    ensures Admitted(l, [], "a") == 0 && After(l, []) == l
  {
  }

  lemma DivSplit(a: nat, b: nat)
    ensures a / COST + (a % COST + b) / COST == (a + b) / COST
  {
  }

  lemma {:induction false} SessionsAdmit(l: Limiter, rpm: nat, restarts: nat, seconds: nat)
    requires l.overrides == map[] && l.regularRpm == rpm && rpm > 0 && l.buckets == map[]
    ensures Admitted(l, Sessions(rpm, restarts, seconds), "a") == (restarts + 1) * rpm + seconds * rpm / COST
    decreases restarts
  {
    hide Second, Admitted, After, Seconds;
    assert Has(l, rpm, 0, COST * rpm);
    SecondDrains(l, rpm, 0, COST * rpm);
    var rest := Sessions(rpm, restarts, seconds)[|Second(rpm, 0)|..];
    AdmittedConcat(l, Second(rpm, 0), rest, "a");
    var l' := After(l, Second(rpm, 0));
    if restarts == 0 {
      assert rest == Seconds(rpm, 0, seconds);
      SecondsAdmit(l', rpm, 0, seconds, 0);
    } else {
      var more := Sessions(rpm, restarts - 1, seconds);
      var boot := Restart(true, 0);
      assert rest == [boot] + more;
      AdmittedConcat(l', [boot], more, "a");
      BootAdmitsNothing(l', boot);
      assert Next(l', boot).buckets == map[];
      SessionsAdmit(Next(l', boot), rpm, restarts - 1, seconds);
      assert (restarts + 1) * rpm == rpm + restarts * rpm;
    }
  }

  lemma {:induction false} BootAdmitsNothing(l: Limiter, e: Event)
    requires e.Restart?
    ensures Admitted(l, [e], "a") == 0 && After(l, [e]) == Next(l, e)
  {
    assert [e][1..] == [];
  }

  /** No change of rate and no hasty cleanup, up to the instant `until`. */
  ghost predicate Steady(events: seq<Event>, until: nat) {
    forall i :: 0 <= i < |events| ==>
      && events[i].now <= until && !events[i].SetRpm?
      && (events[i].Check? ==> !events[i].admin) && (events[i].Cleanup? ==> events[i].ttl >= 60)
  }

  lemma {:induction false} SteadyRate(l: Limiter, events: seq<Event>, rpm: nat, until: nat)
    requires Steady(events, until) && l.overrides == map[] && l.regularRpm == rpm
    ensures RateIs(l, events, "a", rpm)
    decreases |events|
  {
    hide Level, Fresh;
    if events != [] {
      SteadyRate(Next(l, events[0]), events[1..], rpm, until);
    }
  }

  /** A block of events at one instant, with `k` restarts among them. */
  ghost predicate Instant(a: seq<Event>, t: nat, k: nat) {
    Steady(a, t) && Restarts(a) == k && forall i :: 0 <= i < |a| ==> a[i].now == t
  }

  /** A run from `from` to `until` with `k` restarts. */
  ghost predicate Course(a: seq<Event>, from: nat, until: nat, k: nat) {
    Clocked(a, from) && Steady(a, until) && Restarts(a) == k
  }

  lemma {:induction false} InstantFirst(a: seq<Event>, b: seq<Event>, from: nat, t: nat, until: nat, j: nat, k: nat)
    requires from <= t <= until && Instant(a, t, j) && Course(b, t, until, k)
    ensures Course(a + b, from, until, j + k)
    decreases |a|
  {
    if a == [] {
      assert a + b == b;
    } else {
      var first := if a[0].Restart? then 1 else 0;
      assert forall i :: 0 <= i < |a[1..]| ==> a[1..][i] == a[i + 1];
      InstantFirst(a[1..], b, t, t, until, j - first, k);
      assert (a + b)[0] == a[0] && (a + b)[1..] == a[1..] + b;
      assert forall i :: 0 < i < |a + b| ==> (a + b)[i] == (a[1..] + b)[i - 1];
    }
  }

  lemma {:induction false} RepeatedIs(e: Event, n: nat)
    requires e.Check? && !e.admin
    ensures Instant(Repeated(e, n), e.now, 0)
  {
    if n > 0 {
      RepeatedIs(e, n - 1);
      assert Repeated(e, n)[1..] == Repeated(e, n - 1);
    }
  }

  lemma {:induction false} SecondIs(rpm: nat, t: nat)
    ensures Instant(Second(rpm, t), t, 0)
  {
    hide Repeated;
    var checks := Repeated(Check("a", false, t), rpm);
    RepeatedIs(Check("a", false, t), rpm);
    if t % 300 == 0 {
      var clean, save := Cleanup(600, t), Save(true, t);
      assert Second(rpm, t)[0] == clean && Second(rpm, t)[1..] == [save] + checks;
      assert ([save] + checks)[1..] == checks;
      assert Restarts([save] + checks) == Restarts(checks);
    } else {
      assert Second(rpm, t) == checks;
    }
  }

  lemma {:induction false} SecondsAre(rpm: nat, t: nat, n: nat)
    ensures Course(Seconds(rpm, t, n), t, t + n, 0)
    decreases n
  {
    hide Second;
    if n > 0 {
      hide Instant, Course;
      SecondIs(rpm, t + 1);
      SecondsAre(rpm, t + 1, n - 1);
      InstantFirst(Second(rpm, t + 1), Seconds(rpm, t + 1, n - 1), t, t + 1, t + n, 0, 0);
    }
  }

  lemma {:induction false} SessionsAre(rpm: nat, restarts: nat, seconds: nat)
    ensures Course(Sessions(rpm, restarts, seconds), 0, seconds, restarts)
    decreases restarts
  {
    hide Second, Seconds, Instant, Course;
    SecondIs(rpm, 0);
    if restarts == 0 {
      SecondsAre(rpm, 0, seconds);
      InstantFirst(Second(rpm, 0), Seconds(rpm, 0, seconds), 0, 0, seconds, 0, 0);
    } else {
      var more := Sessions(rpm, restarts - 1, seconds);
      SessionsAre(rpm, restarts - 1, seconds);
      BootIs(0);
      InstantFirst([Restart(true, 0)], more, 0, 0, seconds, 1, restarts - 1);
      InstantFirst(Second(rpm, 0), [Restart(true, 0)] + more, 0, 0, seconds, 0, restarts);
    }
  }

  lemma {:induction false} BootIs(t: nat)
    ensures Instant([Restart(true, t)], t, 1)
  {
    assert [Restart(true, t)][1..] == [];
  }

  /** For every rate, number of restarts and length there is a run that attains the bound, with a clock that
      never moves back and the timer at work. */
  lemma {:induction false} RateBoundIsAttained(rpm: nat, restarts: nat, seconds: nat)
    ensures var l, events := Limiter(map[], map[], rpm, rpm, map[]), Sessions(rpm, restarts, seconds);
            && Clocked(events, 0) && SafeTtls(events) && RateIs(l, events, "a", rpm)
            && (forall i :: 0 <= i < |events| ==> events[i].now <= seconds)
            && Restarts(events) == restarts
            && Admitted(l, events, "a") == (restarts + 1) * rpm + seconds * rpm / 60
  {
    hide Sessions, Admitted, Restarts, RateIs;
    var l, events := Limiter(map[], map[], rpm, rpm, map[]), Sessions(rpm, restarts, seconds);
    SessionsAre(rpm, restarts, seconds);
    SteadyRate(l, events, rpm, seconds);
    if rpm > 0 {
      SessionsAdmit(l, rpm, restarts, seconds);
    } else {
      RateBound(l, events, "a", rpm, 0, seconds);
      assert (restarts + 1) * rpm == 0 && seconds * rpm == 0;
    }
  }

  // ----- Refusal times are exact -----

  lemma {:induction false} RetryIsCeiling(level: nat, rpm: nat, wait: nat)
    requires level < COST && rpm > 0
    ensures wait < RetryAfter(level, rpm) <==> level + wait * rpm < COST
  {
    var r := RetryAfter(level, rpm);
    var n := COST - level + rpm - 1;
    assert n == r * rpm + n % rpm;
    if wait < r {
      MulMono(wait, r - 1, rpm);
      assert (r - 1) * rpm == r * rpm - rpm;
    } else {
      MulMono(r, wait, rpm);
    }
  }

  function Line(level: nat, rpm: nat, now: nat, v: nat): nat
    requires now <= v
  {
    Min(level + (v - now) * rpm, COST * rpm)
  }

  /** The subject's level from `t` on is the straight line that was at `level` at time `now`. */
  ghost predicate OnLine(b: Option<Bucket>, rpm: nat, level: nat, now: nat, t: nat) {
    forall v: nat :: t <= v && now <= v ==> Level(b, rpm, v) == Line(level, rpm, now, v)
  }

  lemma {:induction false} RefusedStaysOnLine(b: Option<Bucket>, rpm: nat, level: nat, now: nat, u: nat)
    requires now <= u && rpm > 0 && OnLine(b, rpm, level, now, u)
    requires level + (u - now) * rpm < COST
    ensures Level(b, rpm, u) == level + (u - now) * rpm
    ensures OnLine(Some(Spend(Level(b, rpm, u), u)), rpm, level, now, u)
  {
    var b' := Some(Spend(Level(b, rpm, u), u));
    assert b'.value == Bucket(level + (u - now) * rpm, u);
    forall v: nat | u <= v
      ensures Level(b', rpm, v) == Line(level, rpm, now, v)
    {
      MulSplit(now, u, v, rpm);
      assert Elapsed(u, v) * rpm == (v - u) * rpm;
    }
  }

  lemma {:induction false} AlikeOnLine(
      a: map<string, Bucket>, b: map<string, Bucket>, subject: string, rpm: nat, level: nat, now: nat, t: nat, u: nat)
    requires Alike(a, b, u) && t <= u && OnLine(Find(b, subject), rpm, level, now, t)
    ensures OnLine(Find(a, subject), rpm, level, now, u)
  {
    hide Level, Line, Alike;
    forall v: nat | u <= v && now <= v
      ensures Level(Find(a, subject), rpm, v) == Line(level, rpm, now, v)
    {
      AlikeLevels(a, b, u, subject, rpm, v);
    }
  }

  lemma {:induction false} ProbesRefused(
      l: Limiter, probes: seq<Event>, subject: string, rpm: nat, level: nat, now: nat, from: nat)
    requires rpm > 0 && level < COST && now <= from
    requires OnLine(Find(l.buckets, subject), rpm, level, now, from)
    requires Clocked(probes, from) && SafeTtls(probes) && RateIs(l, probes, subject, rpm) && CaughtUp(l, probes)
    requires forall i :: 0 <= i < |probes| ==> probes[i].now < now + RetryAfter(level, rpm)
    ensures Admitted(l, probes, subject) == 0
    ensures OnLine(Find(After(l, probes).buckets, subject), rpm, level, now, Last(probes, from))
    decreases |probes|
  {
    if probes != [] {
      var e, rest := probes[0], probes[1..];
      forall i | 0 <= i < |rest| ensures rest[i] == probes[i + 1] {}
      if e.Check? && e.subject == subject {
        RetryIsCeiling(level, rpm, e.now - now);
        RefusedStaysOnLine(Find(l.buckets, subject), rpm, level, now, e.now);
      } else if e.Cleanup? {
        FreshAlike(l.buckets, l.buckets, e.ttl, e.now);
        AlikeOnLine(Next(l, e).buckets, l.buckets, subject, rpm, level, now, from, e.now);
      } else if e.Restart? {
        AlikeOnLine(Next(l, e).buckets, l.buckets, subject, rpm, level, now, from, e.now);
      }
      ProbesRefused(Next(l, e), rest, subject, rpm, level, now, e.now);
    }
  }

  /** A refusal at `now` names the exact second of the next admission: every earlier probe is refused,
      however many are made, and the first one at or after that second is admitted. Cleanups and restarts from an
      up to date save may fall in between; `RestartInvisibleIff` says what other restarts do. */
  lemma {:induction false} RefusalIsExact(
      l: Limiter, subject: string, admin: bool, rpm: nat, now: nat, probes: seq<Event>, again: Event)
    requires rpm == EffectiveRpm(l, subject, admin) && rpm > 0
    requires !AnswerTo(l, Check(subject, admin, now)).allowed
    requires var wait := AnswerTo(l, Check(subject, admin, now)).retryAfter.value;
             && (forall i :: 0 <= i < |probes| ==> probes[i].now < now + wait)
             && again.Check? && again.subject == subject && now + wait <= again.now
    requires var refused := Next(l, Check(subject, admin, now));
             && Clocked(probes, now) && SafeTtls(probes) && RateIs(refused, probes, subject, rpm)
             && CaughtUp(refused, probes)
             && EffectiveRpm(After(refused, probes), subject, again.admin) == rpm
    requires Last(probes, now) <= again.now
    ensures var refused := Next(l, Check(subject, admin, now));
            && Admitted(refused, probes, subject) == 0
            && AnswerTo(After(refused, probes), again).allowed
  {
    var level := Level(Find(l.buckets, subject), rpm, now);
    var refused := Next(l, Check(subject, admin, now));
    ProbesRefused(refused, probes, subject, rpm, level, now, now);
    RetryIsCeiling(level, rpm, again.now - now);
  }

  /** The promised second is honest exactly when the rate is not zero. */
  lemma {:induction false} RetryPromiseIff(b: Option<Bucket>, rpm: nat, now: nat)
    requires Level(b, rpm, now) < COST
    ensures (forall t: nat :: now + RetryAfter(Level(b, rpm, now), rpm) <= t
                              ==> Level(Some(Spend(Level(b, rpm, now), now)), rpm, t) >= COST)
            <==> rpm > 0
    ensures rpm == 0 ==> RetryAfter(Level(b, rpm, now), rpm) == 4_294_967_295
  {
    var level := Level(b, rpm, now);
    var b' := Some(Spend(level, now));
    if rpm > 0 {
      forall t: nat | now + RetryAfter(level, rpm) <= t
        ensures Level(b', rpm, t) >= COST
      {
        RetryIsCeiling(level, rpm, t - now);
      }
    } else {
      var t := now + MAX_U32;
      assert Level(b', rpm, t) == 0;
    }
  }
}
