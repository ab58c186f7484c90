/** When the limiter's cleanups and restarts cannot be observed. */
module LimiterRestarts {
  import opened Sequences
  import opened RateLimiter

  lemma MulMono(a: nat, b: nat, r: nat)
    requires a <= b
    ensures a * r <= b * r
  {
    assert b * r == a * r + (b - a) * r;
  }

  lemma MulSlope(a: nat, b: nat, c: nat, r: nat)
    requires c <= a + b
    ensures c * r <= a * r + b * r
  {
    MulMono(c, a + b, r);
    assert (a + b) * r == a * r + b * r;
  }

  lemma MulSplit(a: nat, b: nat, c: nat, r: nat)
    requires a <= b <= c
    ensures (c - a) * r == (b - a) * r + (c - b) * r
  {
  }

  /** A bucket idle for a minute has refilled at any rate, so only younger ones matter. */
  ghost predicate Alike(a: map<string, Bucket>, b: map<string, Bucket>, now: nat) {
    Fresh(a, 60, now) == Fresh(b, 60, now)
  }

  lemma {:induction false} FullAfterMinute(b: Option<Bucket>, rpm: nat, t: nat)
    requires b.None? || Elapsed(b.value.lastRefill, t) >= 60
    ensures Level(b, rpm, t) == COST * rpm
  {
    if b.Some? {
      MulMono(60, Elapsed(b.value.lastRefill, t), rpm);
    }
  }

  lemma {:induction false} AlikeLevels(
      a: map<string, Bucket>, b: map<string, Bucket>, now: nat, s: string, rpm: nat, t: nat)
    requires Alike(a, b, now) && now <= t
    ensures Level(Find(a, s), rpm, t) == Level(Find(b, s), rpm, t)
  {
    hide Level;
    var f, g := Fresh(a, 60, now), Fresh(b, 60, now);
    if s in f {
      assert s in g && a[s] == f[s] == g[s] == b[s];
    } else {
      assert s !in g;
      FullAfterMinute(Find(a, s), rpm, t);
      FullAfterMinute(Find(b, s), rpm, t);
    }
  }

  lemma {:induction false} AlikeLater(a: map<string, Bucket>, b: map<string, Bucket>, now: nat, later: nat)
    requires Alike(a, b, now) && now <= later
    ensures Alike(a, b, later)
  {
    assert Fresh(a, 60, later) == Fresh(Fresh(a, 60, now), 60, later);
    assert Fresh(b, 60, later) == Fresh(Fresh(b, 60, now), 60, later);
  }

  lemma {:induction false} FreshAlike(a: map<string, Bucket>, b: map<string, Bucket>, ttl: nat, now: nat)
    requires Alike(a, b, now) && ttl >= 60
    ensures Alike(Fresh(a, ttl, now), b, now)
  {
    assert Fresh(Fresh(a, ttl, now), 60, now) == Fresh(a, 60, now);
  }

  /** Two limiters no future can tell apart. */
  ghost predicate Same(l: Limiter, k: Limiter, now: nat) {
    SameRates(l, k) && Alike(l.buckets, k.buckets, now)
  }

  ghost predicate SameRates(l: Limiter, k: Limiter) {
    && l.regularRpm == k.regularRpm && l.adminRpm == k.adminRpm
    && forall s, admin :: EffectiveRpm(l, s, admin) == EffectiveRpm(k, s, admin)
  }

  lemma {:induction false} RatesAfter(l: Limiter, k: Limiter, e: Event)
    requires SameRates(l, k)
    ensures SameRates(Next(l, e), Next(k, e))
  {
    hide Spend, Level, Fresh;
    forall s, admin
      ensures EffectiveRpm(Next(l, e), s, admin) == EffectiveRpm(Next(k, e), s, admin)
    {
      assert EffectiveRpm(l, s, admin) == EffectiveRpm(k, s, admin);
    }
  }

  lemma {:induction false} CheckKeepsSame(l: Limiter, k: Limiter, e: Event, from: nat)
    requires e.Check? && from <= e.now && Same(l, k, from)
    ensures AnswerTo(l, e) == AnswerTo(k, e)
    ensures Same(Next(l, e), Next(k, e), e.now)
  {
    hide Level, Judge, Spend;
    RatesAfter(l, k, e);
    var rpm := EffectiveRpm(l, e.subject, e.admin);
    AlikeLevels(l.buckets, k.buckets, from, e.subject, rpm, e.now);
    AlikeLater(l.buckets, k.buckets, from, e.now);
    var b := Spend(Level(Find(l.buckets, e.subject), rpm, e.now), e.now);
    assert Next(l, e).buckets == l.buckets[e.subject := b] && Next(k, e).buckets == k.buckets[e.subject := b];
    UpdateAlike(l.buckets, k.buckets, e.subject, b, e.now);
  }

  lemma {:induction false} UpdateAlike(
      a: map<string, Bucket>, b: map<string, Bucket>, s: string, bucket: Bucket, now: nat)
    requires Alike(a, b, now)
    ensures Alike(a[s := bucket], b[s := bucket], now)
  {
    var f, g := Fresh(a[s := bucket], 60, now), Fresh(b[s := bucket], 60, now);
    forall x
      ensures x in f <==> x in g
      ensures x in f ==> f[x] == g[x]
    {
      assert x in Fresh(a, 60, now) <==> x in Fresh(b, 60, now);
      assert x in Fresh(a, 60, now) ==> Fresh(a, 60, now)[x] == Fresh(b, 60, now)[x];
    }
  }

  function WithoutCleanups(events: seq<Event>): seq<Event> {
    if events == [] then []
    else (if events[0].Cleanup? then [] else [events[0]]) + WithoutCleanups(events[1..])
  }

  /** The same future, with and without its cleanups, on two limiters and two saves that are alike. */
  lemma {:induction false} AnswersAgree(l: Limiter, k: Limiter, events: seq<Event>, from: nat)
    requires Same(l, k, from) && Alike(l.saved, k.saved, from)
    requires Clocked(events, from) && SafeTtls(events)
    ensures Answers(l, events) == Answers(k, WithoutCleanups(events))
    decreases |events|
  {
    hide Same, Alike, SameRates;
    if events != [] {
      var e, rest := events[0], events[1..];
      assert SafeTtls(rest) by {
        forall i | 0 <= i < |rest| && rest[i].Cleanup? ensures rest[i].ttl >= 60 { assert rest[i] == events[i + 1]; }
      }
      StepAgrees(l, k, e, from);
      if e.Cleanup? {
        AnswersAgree(Next(l, e), k, rest, e.now);
        assert WithoutCleanups(events) == WithoutCleanups(rest);
      } else {
        AnswersAgree(Next(l, e), Next(k, e), rest, e.now);
        assert WithoutCleanups(events)[0] == e && WithoutCleanups(events)[1..] == WithoutCleanups(rest);
      }
    }
  }

  lemma {:induction false} StepAgrees(l: Limiter, k: Limiter, e: Event, from: nat)
    requires Same(l, k, from) && Alike(l.saved, k.saved, from) && from <= e.now
    requires e.Cleanup? ==> e.ttl >= 60
    ensures e.Check? ==> AnswerTo(l, e) == AnswerTo(k, e)
    ensures var k' := if e.Cleanup? then k else Next(k, e);
            Same(Next(l, e), k', e.now) && Alike(Next(l, e).saved, k'.saved, e.now)
  {
    hide Level, Judge, Spend, Fresh, Alike;
    RatesAfter(l, k, e);
    AlikeLater(l.buckets, k.buckets, from, e.now);
    AlikeLater(l.saved, k.saved, from, e.now);
    match e {
      case Check(_, _, _) => CheckKeepsSame(l, k, e, from);
      case Cleanup(ttl, now) =>
        FreshAlike(l.buckets, k.buckets, ttl, now);
        assert forall s, admin :: EffectiveRpm(Next(l, e), s, admin) == EffectiveRpm(l, s, admin);
      case Restart(restored, now) =>
        if restored {
          FreshAlike(l.saved, k.saved, RESTORE_TTL, now);
          AlikeFlips(Fresh(l.saved, RESTORE_TTL, now), k.saved, now);
          FreshAlike(k.saved, Fresh(l.saved, RESTORE_TTL, now), RESTORE_TTL, now);
          AlikeFlips(Fresh(k.saved, RESTORE_TTL, now), Fresh(l.saved, RESTORE_TTL, now), now);
        } else {
          AlikeSelf(map[], now);
        }
      case _ =>
    }
  }

  lemma AlikeFlips(a: map<string, Bucket>, b: map<string, Bucket>, now: nat)
    requires Alike(a, b, now)
    ensures Alike(b, a, now)
  {
  }

  lemma AlikeSelf(a: map<string, Bucket>, now: nat)
    ensures Alike(a, a, now)
  {
  }

  ghost predicate CleanupInvisible(ttl: nat) {
    forall l, now, events ::
      Clocked(events, now) && SafeTtls(events)
      ==> Answers(Next(l, Cleanup(ttl, now)), events) == Answers(l, events)
  }

  /** One minute is the exact threshold. */
  lemma {:induction false} CleanupInvisibleIff(ttl: nat)
    ensures CleanupInvisible(ttl) <==> ttl >= 60
  {
    if ttl >= 60 {
      forall l, now, events | Clocked(events, now) && SafeTtls(events)
        ensures Answers(Next(l, Cleanup(ttl, now)), events) == Answers(l, events)
      {
        StepAgrees(l, l, Cleanup(ttl, now), now);
        AnswersAgree(Next(l, Cleanup(ttl, now)), l, events, now);
        AnswersAgree(l, l, events, now);
      }
    } else {
      var l := Limiter(map["a" := Bucket(0, 0)], map[], 1, 1, map[]);
      var events := [Check("a", false, ttl)];
      var dropped := Next(l, Cleanup(ttl, ttl));
      assert "a" !in dropped.buckets;
      assert Answers(dropped, events)[0].allowed && !Answers(l, events)[0].allowed;
      assert Clocked(events, ttl) && SafeTtls(events);
    }
  }

  /** No future tells the restarted gateway from one that kept running. */
  ghost predicate RestartInvisible(l: Limiter, restored: bool, now: nat) {
    forall events ::
      Clocked(events, now) && SafeTtls(events)
      ==> Answers(Next(l, Restart(restored, now)), events) == Answers(l, events)
  }

  /** What is restored holds every bucket of the last minute as it is now: nothing was spent since the save
      that a minute has not refilled. */
  ghost predicate UpToDate(l: Limiter, restored: bool, now: nat) {
    Alike(Restored(l, restored, now), l.buckets, now)
  }

  /** Overrides that only repeat the configured rate. */
  predicate IdleOverrides(l: Limiter) {
    forall u :: u in l.overrides ==> l.overrides[u] == l.regularRpm == l.adminRpm
  }

  ghost predicate Past(m: map<string, Bucket>, now: nat) {
    forall s :: s in m ==> m[s].lastRefill <= now
  }

  /** The condition needs no clock of its own: in every run a bucket was last refilled in the past. */
  lemma {:induction false} BucketsArePast(l: Limiter, events: seq<Event>, from: nat)
    requires Past(l.buckets, from) && Past(l.saved, from) && Clocked(events, from)
    ensures Past(After(l, events).buckets, Last(events, from)) && Past(After(l, events).saved, Last(events, from))
    decreases |events|
  {
    hide Level;
    if events != [] {
      BucketsArePast(Next(l, events[0]), events[1..], events[0].now);
    }
  }

  /** A restart is unobservable exactly when the last save is up to date for the last minute and no override
      is lost that made a difference. */
  lemma {:induction false} RestartInvisibleIff(l: Limiter, restored: bool, now: nat)
    requires Past(l.buckets, now) && Past(l.saved, now)
    ensures RestartInvisible(l, restored, now) <==> UpToDate(l, restored, now) && IdleOverrides(l)
  {
    var l' := Next(l, Restart(restored, now));
    if !IdleOverrides(l) {
      var u :| u in l.overrides && !(l.overrides[u] == l.regularRpm == l.adminRpm);
      LostOverrideShows(l, l', u, now);
    } else if !UpToDate(l, restored, now) {
      StaleBucketShows(l, l', now);
    } else {
      assert Same(l', l, now) && Alike(l'.saved, l.saved, now);
      forall events | Clocked(events, now) && SafeTtls(events)
        ensures Answers(l', events) == Answers(l, events)
      {
        AnswersAgree(l', l, events, now);
        AnswersAgree(l, l, events, now);
      }
    }
  }

  lemma {:induction false} LostOverrideShows(l: Limiter, l': Limiter, u: string, now: nat)
    requires Past(l.buckets, now) && Past(l'.buckets, now)
    requires u in l.overrides && u !in l'.overrides
    requires l'.regularRpm == l.regularRpm && l'.adminRpm == l.adminRpm
    requires !(l.overrides[u] == l.regularRpm == l.adminRpm)
    ensures exists events :: Clocked(events, now) && SafeTtls(events) && Answers(l', events) != Answers(l, events)
  {
    hide Level;
    var e := Check(u, l.overrides[u] == l.regularRpm, now + 60);
    FullAfterMinute(Find(l.buckets, u), EffectiveRpm(l, u, e.admin), now + 60);
    FullAfterMinute(Find(l'.buckets, u), EffectiveRpm(l', u, e.admin), now + 60);
    assert AnswerTo(l, e) != AnswerTo(l', e);
    OneCheckShows(l, l', [], e, now);
  }

  lemma {:induction false} OneCheckShows(l: Limiter, l': Limiter, before: seq<Event>, e: Event, now: nat)
    requires before == [] || (|before| == 1 && before[0].SetRpm? && before[0].now == e.now)
    requires e.Check? && now <= e.now && AnswerTo(After(l, before), e) != AnswerTo(After(l', before), e)
    ensures exists events :: Clocked(events, now) && SafeTtls(events) && Answers(l', events) != Answers(l, events)
  {
    hide Level, Judge;
    var events := before + [e];
    if before != [] {
      assert events[0] == before[0] && events[1..] == [e] && before[1..] == [];
      assert After(l, before) == Next(l, before[0]) && After(l', before) == Next(l', before[0]);
    }
    assert [e][1..] == [];
    assert Answers(After(l, before), [e]) == [AnswerTo(After(l, before), e)];
    assert Answers(After(l', before), [e]) == [AnswerTo(After(l', before), e)];
    assert Answers(l, events) == Answers(After(l, before), [e]);
    assert Answers(l', events) == Answers(After(l', before), [e]);
    assert Clocked([e], e.now);
    assert Clocked(events, now) && SafeTtls(events);
  }

  lemma {:induction false} StaleBucketShows(l: Limiter, l': Limiter, now: nat)
    requires Past(l.buckets, now) && Past(l'.buckets, now) && !Alike(l'.buckets, l.buckets, now)
    ensures exists events :: Clocked(events, now) && SafeTtls(events) && Answers(l', events) != Answers(l, events)
  {
    hide Level, Judge;
    var f, f' := Fresh(l.buckets, 60, now), Fresh(l'.buckets, 60, now);
    var s :| Find(f, s) != Find(f', s) by {
      if forall s :: Find(f, s) == Find(f', s) {
        FindDecides(f, f');
      }
    }
    assert Find(f, s) == if Recent(Find(l.buckets, s), now) then Find(l.buckets, s) else None;
    assert Find(f', s) == if Recent(Find(l'.buckets, s), now) then Find(l'.buckets, s) else None;
    var rpm, t := Distinguish(Find(l.buckets, s), Find(l'.buckets, s), now);
    var before := [SetRpm(s, rpm, t)];
    assert before[1..] == [];
    assert After(l, before) == Next(l, before[0]) && After(l', before) == Next(l', before[0]);
    OneCheckShows(l, l', before, Check(s, false, t), now);
  }

  lemma FindDecides(a: map<string, Bucket>, b: map<string, Bucket>)
    requires forall s :: Find(a, s) == Find(b, s)
    ensures a == b
  {
    assert forall s :: (s in a <==> Find(a, s).Some?) && (s in b <==> Find(b, s).Some?);
  }

  predicate Recent(b: Option<Bucket>, now: nat) {
    b.Some? && b.value.lastRefill <= now < b.value.lastRefill + 60
  }

  lemma {:induction false} JudgesDiffer(low: nat, high: nat, rpm: nat)
    requires low / COST < high / COST
    ensures Judge(low, rpm) != Judge(high, rpm)
  {
  }

  /** Two different buckets, at least one of them younger than a minute, answer some check differently. */
  lemma {:induction false} Distinguish(a: Option<Bucket>, b: Option<Bucket>, now: nat) returns (rpm: nat, t: nat)
    requires a.Some? ==> a.value.lastRefill <= now
    requires b.Some? ==> b.value.lastRefill <= now
    requires a != b && (Recent(a, now) || Recent(b, now))
    ensures now <= t && Judge(Level(a, rpm, t), rpm) != Judge(Level(b, rpm, t), rpm)
  {
    hide Judge, Level;
    if Recent(a, now) && (!Recent(b, now) || Behind(a.value, b.value)) {
      rpm, t := DistinguishOrdered(a, b, now);
    } else {
      rpm, t := DistinguishOrdered(b, a, now);
    }
  }

  /** Refilled later, or at the same time and holding less. */
  predicate Behind(a: Bucket, b: Bucket) {
    a.lastRefill > b.lastRefill || (a.lastRefill == b.lastRefill && a.tokens < b.tokens)
  }

  lemma {:induction false} DistinguishOrdered(a: Option<Bucket>, b: Option<Bucket>, now: nat)
    returns (rpm: nat, t: nat)
    requires Recent(a, now) && (b.Some? ==> b.value.lastRefill <= now)
    requires Recent(b, now) ==> Behind(a.value, b.value)
    ensures now <= t && Judge(Level(a, rpm, t), rpm) != Judge(Level(b, rpm, t), rpm)
  {
    hide Judge;
    if !Recent(b, now) {
      rpm, t := a.value.tokens + COST, now;
      FullAfterMinute(b, rpm, t);
      MulMono(now - a.value.lastRefill, 59, rpm);
      JudgesDiffer(Level(a, rpm, t), COST * rpm, rpm);
    } else if a.value.lastRefill != b.value.lastRefill {
      rpm, t := a.value.tokens + b.value.tokens + COST, now;
      var d, e := now - a.value.lastRefill, now - b.value.lastRefill;
      MulMono(e, 59, rpm);
      MulMono(d + 1, e, rpm);
      assert (d + 1) * rpm == d * rpm + rpm;
      JudgesDiffer(Level(a, rpm, t), Level(b, rpm, t), rpm);
    } else {
      rpm, t := b.value.tokens + COST, a.value.lastRefill + 59;
      assert Level(b, rpm, t) == COST * (rpm - 1);
      JudgesDiffer(Level(a, rpm, t), Level(b, rpm, t), rpm);
    }
  }

  /** A restart right after a save that reached storage loses the overrides and nothing else, whatever comes
      afterwards. */
  lemma {:induction false} SaveThenRestart(l: Limiter, t: nat, u: nat, future: seq<Event>)
    requires t <= u && Clocked(future, u) && SafeTtls(future)
    ensures Answers(l, [Save(true, t), Restart(true, u)] + future) ==
            Answers(l, [Save(true, t), ForgetOverrides(u)] + future)
  {
    hide Alike, Fresh, Clocked, SafeTtls;
    var saved := Next(l, Save(true, t));
    var restarted, kept := Next(saved, Restart(true, u)), Next(saved, ForgetOverrides(u));
    AlikeSelf(saved.buckets, u);
    AlikeSelf(saved.saved, u);
    FreshAlike(saved.saved, saved.buckets, RESTORE_TTL, u);
    assert Same(restarted, kept, u);
    AnswersAgree(restarted, kept, future, u);
    AlikeSelf(kept.buckets, u);
    AnswersAgree(kept, kept, future, u);
    TwoQuietSteps(l, Save(true, t), Restart(true, u), future);
    TwoQuietSteps(l, Save(true, t), ForgetOverrides(u), future);
  }

  lemma {:induction false} TwoQuietSteps(l: Limiter, a: Event, b: Event, future: seq<Event>)
    requires !a.Check? && !b.Check?
    ensures Answers(l, [a, b] + future) == Answers(Next(Next(l, a), b), future)
  {
    hide Next;
    var events := [a, b] + future;
    assert events[0] == a && events[1..] == [b] + future && ([b] + future)[1..] == future;
    assert Answers(Next(l, a), [b] + future) == [] + Answers(Next(Next(l, a), b), future);
  }

  // ----- Whole runs -----

  /** The reference run: it never drops a bucket, never saves and never restarts. */
  function Kept(events: seq<Event>): seq<Event> {
    if events == [] then []
    else
      (match events[0]
       case Cleanup(_, _) => []
       case Save(_, _) => []
       case Restart(_, now) => [ForgetOverrides(now)]
       case _ => [events[0]])
      + Kept(events[1..])
  }

  /** Every restart of the run finds an up to date save. */
  ghost predicate CaughtUp(l: Limiter, events: seq<Event>)
    decreases |events|
  {
    events == [] ||
    (&& (events[0].Restart? ==> UpToDate(l, events[0].restored, events[0].now))
     && CaughtUp(Next(l, events[0]), events[1..]))
  }

  lemma {:induction false} ReferenceAgrees(l: Limiter, k: Limiter, events: seq<Event>, from: nat)
    requires Same(l, k, from) && Clocked(events, from) && SafeTtls(events) && CaughtUp(l, events)
    ensures Answers(l, events) == Answers(k, Kept(events))
    decreases |events|
  {
    hide Same, Alike, SameRates, Fresh, Level;
    if events != [] {
      var e, rest := events[0], events[1..];
      assert SafeTtls(rest) by {
        forall i | 0 <= i < |rest| && rest[i].Cleanup? ensures rest[i].ttl >= 60 { assert rest[i] == events[i + 1]; }
      }
      ReferenceStep(l, k, e, from);
      if e.Cleanup? || e.Save? {
        ReferenceAgrees(Next(l, e), k, rest, e.now);
        assert Kept(events) == Kept(rest);
      } else {
        var e' := if e.Restart? then ForgetOverrides(e.now) else e;
        ReferenceAgrees(Next(l, e), Next(k, e'), rest, e.now);
        assert Kept(events)[0] == e' && Kept(events)[1..] == Kept(rest);
      }
    }
  }

  lemma {:induction false} ReferenceStep(l: Limiter, k: Limiter, e: Event, from: nat)
    requires Same(l, k, from) && from <= e.now
    requires e.Cleanup? ==> e.ttl >= 60
    requires e.Restart? ==> UpToDate(l, e.restored, e.now)
    ensures e.Check? ==> AnswerTo(l, e) == AnswerTo(k, e)
    ensures e.Cleanup? || e.Save? ==> Same(Next(l, e), k, e.now)
    ensures e.Restart? ==> Same(Next(l, e), Next(k, ForgetOverrides(e.now)), e.now)
    ensures !e.Cleanup? && !e.Save? && !e.Restart? ==> Same(Next(l, e), Next(k, e), e.now)
  {
    hide Level, Judge, Spend;
    RatesAfter(l, k, e);
    AlikeLater(l.buckets, k.buckets, from, e.now);
    if e.Check? {
      CheckKeepsSame(l, k, e, from);
    } else if e.Cleanup? {
      FreshAlike(l.buckets, k.buckets, e.ttl, e.now);
    }
    assert e.Cleanup? || e.Save? ==> forall s, admin :: EffectiveRpm(Next(l, e), s, admin) == EffectiveRpm(l, s, admin);
  }

  /** Every run whose restarts find an up to date save answers as the run without cleanups and restarts:
      such a restart loses the per-user overrides and nothing else. */
  lemma {:induction false} CleanupAndRestartInvisible(l: Limiter, events: seq<Event>, from: nat)
    requires Clocked(events, from) && SafeTtls(events) && CaughtUp(l, events)
    ensures Answers(l, events) == Answers(l, Kept(events))
  {
    ReferenceAgrees(l, l, events, from);
  }
}
