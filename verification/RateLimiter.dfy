/** The API gateway's token bucket rate limiter.

    Tokens are counted in sixtieths, so that one second at `rpm` requests per minute refills exactly
    `rpm` units, a full bucket holds `60 * rpm` and a request costs 60. Time is a parameter. */
module RateLimiter {
  import opened Sequences

  const COST := 60
  const RESTORE_TTL := 600
  const MAX_U32 := 0xFFFF_FFFF

  datatype Bucket = Bucket(tokens: nat, lastRefill: nat)
  datatype Answer = Answer(allowed: bool, remaining: nat, retryAfter: Option<nat>)

  /** A running limiter, and the buckets as plugin storage last received them. */
  datatype Limiter = Limiter(
    buckets: map<string, Bucket>, overrides: map<string, nat>, regularRpm: nat, adminRpm: nat,
    saved: map<string, Bucket>)

  function Elapsed(since: nat, now: nat): nat {
    if since <= now then now - since else 0
  }

  function Find(buckets: map<string, Bucket>, subject: string): Option<Bucket> {
    if subject in buckets then Some(buckets[subject]) else None
  }

  function EffectiveRpm(l: Limiter, subject: string, admin: bool): nat {
    if subject in l.overrides then l.overrides[subject]
    else if admin then l.adminRpm
    else l.regularRpm
  }

  /** What a subject can spend at time `now`; an unknown subject has a full bucket. */
  function Level(b: Option<Bucket>, rpm: nat, now: nat): nat {
    match b
    case None => COST * rpm
    case Some(b) => Min(b.tokens + Elapsed(b.lastRefill, now) * rpm, COST * rpm)
  }

  function Spend(level: nat, now: nat): Bucket {
    Bucket(if level >= COST then level - COST else level, now)
  }

  /** Whole seconds until `level` reaches the cost; a zero rate divides by zero, which the source's
      saturating cast turns into the largest u32. */
  function RetryAfter(level: nat, rpm: nat): nat
    requires level < COST
  {
    if rpm == 0 then MAX_U32 else (COST - level + rpm - 1) / rpm
  }

  function Judge(level: nat, rpm: nat): Answer {
    if level >= COST then Answer(true, (level - COST) / COST, None)
    else Answer(false, 0, Some(RetryAfter(level, rpm)))
  }

  function Fresh(buckets: map<string, Bucket>, ttl: nat, now: nat): map<string, Bucket> {
    map s | s in buckets && Elapsed(buckets[s].lastRefill, now) < ttl :: buckets[s]
  }

  /** What a new process starts from: the young buckets of the last save, or nothing when storage fails. */
  function Restored(l: Limiter, restored: bool, now: nat): map<string, Bucket> {
    if restored then Fresh(l.saved, RESTORE_TTL, now) else map[]
  }

  /** `Save` is the periodic save, `Restart` a new process, which starts from the last save with no overrides;
      either may miss storage. `ForgetOverrides` is the reference that loses the overrides and nothing else. */
  datatype Event =
    | Check(subject: string, admin: bool, now: nat)
    | SetRpm(user: string, rpm: nat, now: nat)
    | Cleanup(ttl: nat, now: nat)
    | Save(stored: bool, now: nat)
    | Restart(restored: bool, now: nat)
    | ForgetOverrides(now: nat)

  function Next(l: Limiter, e: Event): Limiter {
    match e
    case Check(s, admin, now) =>
      l.(buckets := l.buckets[s := Spend(Level(Find(l.buckets, s), EffectiveRpm(l, s, admin), now), now)])
    case SetRpm(user, rpm, _) => l.(overrides := l.overrides[user := rpm])
    case Cleanup(ttl, now) => l.(buckets := Fresh(l.buckets, ttl, now))
    case Save(stored, _) => if stored then l.(saved := l.buckets) else l
    case Restart(restored, now) => l.(buckets := Restored(l, restored, now), overrides := map[])
    case ForgetOverrides(_) => l.(overrides := map[])
  }

  function AnswerTo(l: Limiter, e: Event): Answer
    requires e.Check?
  {
    var rpm := EffectiveRpm(l, e.subject, e.admin);
    Judge(Level(Find(l.buckets, e.subject), rpm, e.now), rpm)
  }

  function Answers(l: Limiter, events: seq<Event>): seq<Answer>
    decreases |events|
  {
    if events == [] then []
    else (if events[0].Check? then [AnswerTo(l, events[0])] else []) + Answers(Next(l, events[0]), events[1..])
  }

  function After(l: Limiter, events: seq<Event>): Limiter
    decreases |events|
  {
    if events == [] then l else After(Next(l, events[0]), events[1..])
  }

  function Last(events: seq<Event>, from: nat): nat {
    if events == [] then from else Last(events[1..], events[0].now)
  }

  ghost predicate Clocked(events: seq<Event>, from: nat) {
    events == [] || (from <= events[0].now && Clocked(events[1..], events[0].now))
  }

  ghost predicate SafeTtls(events: seq<Event>) {
    forall i :: 0 <= i < |events| && events[i].Cleanup? ==> events[i].ttl >= 60
  }

  /** `base` overwritten by the entries of `keep` that are no longer to do. */
  ghost function Merged(base: map<string, Bucket>, keep: map<string, Bucket>, todo: set<string>): map<string, Bucket> {
    base + map s | s in keep && s !in todo :: keep[s]
  }

  lemma MergedStep(base: map<string, Bucket>, keep: map<string, Bucket>, todo: set<string>, s: string)
    requires s in todo
    ensures Merged(base, keep, todo - {s}) ==
            if s in keep then Merged(base, keep, todo)[s := keep[s]] else Merged(base, keep, todo)
  {
  }

  lemma MergedEnds(base: map<string, Bucket>, keep: map<string, Bucket>, todo: set<string>)
    requires keep.Keys <= todo
    ensures Merged(base, keep, todo) == base && Merged(base, keep, {}) == base + keep
  {
    assert (map s | s in keep && s !in {} :: keep[s]) == keep;
  }

  /** Refilled less than ten minutes ago. */
  predicate Young(b: Bucket, now: nat) {
    now < b.lastRefill + 600
  }

  /** Plugin storage, reached over the bus: a request may be lost, and storage counts those. */
  class Storage {
    var saved: map<string, Bucket>
    ghost var lost: nat

    constructor ()
      ensures saved == map[]
    {
      saved := map[];
    }

    method Set(value: map<string, Bucket>) returns (ghost stored: bool)
      modifies this
      ensures saved == if stored then value else old(saved)
      ensures lost == old(lost) + if stored then 0 else 1
    {
      var fails: bool := *;
      if !fails {
        saved := value;
      }
      stored, lost := !fails, lost + if fails then 1 else 0;
    }

    method Get() returns (value: Option<map<string, Bucket>>)
      modifies this`lost
      ensures value.Some? ==> value.value == saved
      ensures lost == old(lost) + if value.Some? then 0 else 1
    {
      var fails: bool := *;
      value, lost := if fails then None else Some(saved), lost + if fails then 1 else 0;
    }
  }

  /** The object, whose methods update the bucket map in place. */
  class SharedLimiter {
    var buckets: map<string, Bucket>
    var overrides: map<string, nat>
    const regularRpm: nat
    const adminRpm: nat
    const storage: Storage

    ghost function View(): Limiter
      reads this, storage
    {
      Limiter(buckets, overrides, regularRpm, adminRpm, storage.saved)
    }

    constructor (regular: nat, admin: nat, storage: Storage)
      ensures this.storage == storage && View() == Limiter(map[], map[], regular, admin, storage.saved)
    {
      buckets, overrides, regularRpm, adminRpm := map[], map[], regular, admin;
      this.storage := storage;
    }

    method SetUserRpm(user: string, rpm: nat, ghost now: nat)
      modifies this
      ensures View() == Next(old(View()), SetRpm(user, rpm, now))
      ensures forall s, admin ::
                EffectiveRpm(View(), s, admin) == if s == user then rpm else EffectiveRpm(old(View()), s, admin)
    {
      overrides := overrides[user := rpm];
    }

    method EffectiveRate(subject: string, admin: bool) returns (rpm: nat)
      ensures rpm == EffectiveRpm(View(), subject, admin)
      ensures rpm == if subject in overrides then overrides[subject] else if admin then adminRpm else regularRpm
    {
      if subject in overrides {
        return overrides[subject];
      }
      return if admin then adminRpm else regularRpm;
    }

    method CheckRateLimit(subject: string, admin: bool, now: nat) returns (answer: Answer)
      modifies this
      ensures View() == Next(old(View()), Check(subject, admin, now))
      ensures answer == AnswerTo(old(View()), Check(subject, admin, now))
    {
      var rpm := EffectiveRate(subject, admin);
      if subject !in buckets {
        buckets := buckets[subject := Bucket(COST * rpm, now)];
      }
      var bucket := buckets[subject];
      var elapsed := Elapsed(bucket.lastRefill, now);
      var tokens := Min(bucket.tokens + elapsed * rpm, COST * rpm);
      if tokens >= COST {
        buckets := buckets[subject := Bucket(tokens - COST, now)];
        answer := Answer(true, (tokens - COST) / COST, None);
      } else {
        buckets := buckets[subject := Bucket(tokens, now)];
        answer := Answer(false, 0, Some(RetryAfter(tokens, rpm)));
      }
    }

    method CleanupStaleEntries(ttl: nat, now: nat)
      modifies this
      ensures View() == Next(old(View()), Cleanup(ttl, now))
      ensures forall s :: s in old(buckets) ==>
                if old(buckets)[s].lastRefill + ttl <= now || ttl == 0 then s !in buckets
                else s in buckets && buckets[s] == old(buckets)[s]
      ensures buckets.Keys <= old(buckets).Keys
    {
      buckets := map s | s in buckets && Elapsed(buckets[s].lastRefill, now) < ttl :: buckets[s];
    }

    method SaveState(ghost now: nat) returns (ghost stored: bool)
      modifies storage
      ensures View() == Next(old(View()), Save(stored, now))
      ensures storage.lost == old(storage.lost) + if stored then 0 else 1
    {
      stored := storage.Set(buckets);
    }

    /** Inserts the saved buckets that are young enough, over whatever is already there. */
    method RestoreState(now: nat) returns (ghost restored: bool)
      modifies this, storage`lost
      ensures buckets == old(buckets) + Restored(old(View()), restored, now) && overrides == old(overrides)
      ensures forall s :: s in storage.saved && restored && Young(storage.saved[s], now) ==>
                s in buckets && buckets[s] == storage.saved[s]
      ensures forall s :: !(s in storage.saved && restored && Young(storage.saved[s], now)) ==>
                Find(buckets, s) == Find(old(buckets), s)
      ensures storage.lost == old(storage.lost) + if restored then 0 else 1
    {
      var loaded := storage.Get();
      restored := loaded.Some?;
      if loaded.None? {
        return;
      }
      var saved := loaded.value;
      var todo := saved.Keys;
      ghost var keep := Fresh(saved, RESTORE_TTL, now);
      MergedEnds(buckets, keep, todo);
      while todo != {}
        invariant todo <= saved.Keys && overrides == old(overrides)
        invariant buckets == Merged(old(buckets), keep, todo)
        invariant storage.lost == old(storage.lost)
        decreases todo
      {
        var s :| s in todo;
        MergedStep(old(buckets), keep, todo, s);
        if Elapsed(saved[s].lastRefill, now) < RESTORE_TTL {
          buckets := buckets[s := saved[s]];
        }
        todo := todo - {s};
      }
    }
  }

  /** A new process with the configuration and the storage of the previous one. */
  method Boot(previous: SharedLimiter, now: nat) returns (l: SharedLimiter, ghost restored: bool)
    modifies previous.storage`lost
    ensures fresh(l) && l.storage == previous.storage
    ensures l.View() == Next(old(previous.View()), Restart(restored, now))
    ensures l.overrides == map[]
    ensures forall s ::
              Find(l.buckets, s) ==
              if restored && s in l.storage.saved && Young(l.storage.saved[s], now)
              then Some(l.storage.saved[s]) else None
    ensures l.storage.lost == old(previous.storage.lost) + if restored then 0 else 1
  {
    l := new SharedLimiter(previous.regularRpm, previous.adminRpm, previous.storage);
    restored := l.RestoreState(now);
    assert forall m: map<string, Bucket> :: map[] + m == m;
  }
}
