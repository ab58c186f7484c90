/** The daemon's restart policy for one managed process. Instants are nanoseconds. */
module RestartPolicy {
  import opened Sequences

  const MAX_RESTARTS := 5
  const SECOND := 1_000_000_000
  const WINDOW := 300 * SECOND

  /** The counter and the instant of the first restart of the current counter window. */
  datatype Policy = Policy(restartCount: nat, firstRestartAt: Option<nat>)

  const INITIAL := Policy(0, None)

  predicate Valid(p: Policy) {
    p.restartCount <= MAX_RESTARTS && (p.firstRestartAt.None? <==> p.restartCount == 0)
  }

  predicate Expired(p: Policy, now: nat) {
    p.firstRestartAt.Some? && now > p.firstRestartAt.value + WINDOW
  }

  predicate Approved(p: Policy, now: nat) {
    Expired(p, now) || p.restartCount < MAX_RESTARTS
  }

  function AfterCrash(p: Policy, now: nat): Policy {
    if Expired(p, now) then Policy(1, Some(now))
    else if p.restartCount < MAX_RESTARTS then
      Policy(p.restartCount + 1, if p.firstRestartAt.None? then Some(now) else p.firstRestartAt)
    else p
  }

  /** `1 << min(count, 4)` seconds. */
  function BackoffSeconds(count: nat): nat {
    if count == 0 then 1
    else if count <= 4 then 2 * BackoffSeconds(count - 1)
    else BackoffSeconds(4)
  }

  lemma {:induction false} BackoffTable(count: nat)
    ensures BackoffSeconds(0) == 1 && BackoffSeconds(1) == 2 && BackoffSeconds(2) == 4
    ensures BackoffSeconds(3) == 8 && (count >= 4 ==> BackoffSeconds(count) == 16)
  {
    assert BackoffSeconds(2) == 4;
    assert BackoffSeconds(4) == 16;
  }

  /** Sleeping and spawning: a bus command may cut the sleep short and the spawn may fail, either of which leaves
      the process down. The host remembers the delays it was asked to sleep and which of them ended in a spawn. */
  class Host {
    ghost var delays: seq<nat>
    ghost var spawned: seq<bool>

    method SleepAndSpawn(delay: nat) returns (up: bool)
      modifies this
      ensures delays == old(delays) + [delay] && spawned == old(spawned) + [up]
    {
      up := *;
      delays, spawned := delays + [delay], spawned + [up];
    }
  }

  class ManagedProcess {
    const host: Host
    var restartCount: nat
    var firstRestartAt: Option<nat>
    var running: bool

    function View(): Policy
      reads this
    {
      Policy(restartCount, firstRestartAt)
    }

    constructor (host: Host)
      ensures this.host == host && View() == INITIAL && running
    {
      this.host, restartCount, firstRestartAt, running := host, 0, None, true;
    }

    method ShouldRestart(now: nat) returns (ok: bool)
      requires Valid(View())
      modifies this
      ensures running == old(running)
      ensures ok == Approved(old(View()), now)
      ensures ok <==>
              || old(restartCount) < 5
              || (old(firstRestartAt).Some? && now > old(firstRestartAt).value + 300_000_000_000)
      ensures firstRestartAt == AfterCrash(old(View()), now).firstRestartAt
      ensures ok ==> restartCount + 1 == AfterCrash(old(View()), now).restartCount
      ensures !ok ==> View() == old(View())
    {
      if firstRestartAt.Some? && now > firstRestartAt.value + WINDOW {
        restartCount := 0;
        firstRestartAt := None;
      }
      if restartCount >= MAX_RESTARTS {
        return false;
      }
      if firstRestartAt.None? {
        firstRestartAt := Some(now);
      }
      return true;
    }

    /** The monitor loop for a process that has exited: the delay slept before it is spawned again, or none when
        giving up. A process that was stopped by hand, as its marker file says, is not the policy's business. A
        process that is left down is never looked at again. */
    method OnExit(now: nat, stopped: bool) returns (delay: Option<nat>)
      requires Valid(View())
      modifies this, host
      ensures Valid(View())
      ensures !old(running) || stopped ==> View() == old(View()) && delay == None
      ensures old(running) && !stopped ==>
                && View() == AfterCrash(old(View()), now)
                && delay == if Approved(old(View()), now) then Some(BackoffSeconds(restartCount)) else None
      ensures host.delays == old(host.delays) + (if delay.Some? then [delay.value] else [])
      ensures delay.Some? ==> host.spawned == old(host.spawned) + [running] && 2 <= delay.value <= 16
      ensures delay.None? ==> host.spawned == old(host.spawned) && !running
    {
      if !running {
        return None;
      }
      running := false;
      if stopped {
        return None;
      }
      var ok := ShouldRestart(now);
      if ok {
        restartCount := restartCount + 1;
        BackoffTable(restartCount);
        delay := Some(BackoffSeconds(restartCount));
        running := host.SleepAndSpawn(delay.value);
      } else {
        delay := None;
      }
    }
  }

  // ----- Whole crash schedules -----

  function Restarts(p: Policy, crashes: seq<nat>): nat
    decreases |crashes|
  {
    if crashes == [] then 0
    else (if Approved(p, crashes[0]) then 1 else 0) + Restarts(AfterCrash(p, crashes[0]), crashes[1..])
  }

  function After(p: Policy, crashes: seq<nat>): Policy
    decreases |crashes|
  {
    if crashes == [] then p else After(AfterCrash(p, crashes[0]), crashes[1..])
  }

  ghost predicate Ascending(crashes: seq<nat>) {
    forall i, j :: 0 <= i < j < |crashes| ==> crashes[i] <= crashes[j]
  }

  lemma {:induction false} ValidAfter(p: Policy, crashes: seq<nat>)
    requires Valid(p)
    ensures Valid(After(p, crashes))
    decreases |crashes|
  {
    if crashes != [] {
      ValidAfter(AfterCrash(p, crashes[0]), crashes[1..]);
    }
  }

  /** Inside one counter window the budget is what the counter leaves. */
  lemma {:induction false} BoundInsideWindow(p: Policy, crashes: seq<nat>)
    requires Valid(p) && p.firstRestartAt.Some?
    requires forall i :: 0 <= i < |crashes| ==> crashes[i] <= p.firstRestartAt.value + WINDOW
    ensures Restarts(p, crashes) <= MAX_RESTARTS - p.restartCount
    decreases |crashes|
  {
    if crashes != [] {
      BoundInsideWindow(AfterCrash(p, crashes[0]), crashes[1..]);
    }
  }

  lemma {:induction false} BoundFromState(p: Policy, crashes: seq<nat>, start: nat)
    requires Valid(p) && Ascending(crashes)
    requires forall i :: 0 <= i < |crashes| ==> start <= crashes[i] <= start + WINDOW
    ensures p.firstRestartAt.Some? ==> Restarts(p, crashes) <= 2 * MAX_RESTARTS - p.restartCount
    ensures p.firstRestartAt.None? ==> Restarts(p, crashes) <= MAX_RESTARTS
    decreases |crashes|
  {
    if crashes != [] {
      var p' := AfterCrash(p, crashes[0]);
      forall i | 0 <= i < |crashes| - 1 ensures crashes[1..][i] == crashes[i + 1] {}
      if p'.firstRestartAt == Some(crashes[0]) {
        BoundInsideWindow(p', crashes[1..]);
      } else {
        BoundFromState(p', crashes[1..], start);
      }
    }
  }

  /** Any stretch of 300 seconds of any crash schedule holds at most `2 * MAX_RESTARTS - 1` restarts:
      one fewer than two full windows, because the restart that opened the first window lies more than
      300 seconds before any restart of the second. */
  lemma {:induction false} SlidingBound(before: seq<nat>, crashes: seq<nat>, start: nat)
    requires Ascending(crashes)
    requires forall i :: 0 <= i < |crashes| ==> start <= crashes[i] <= start + WINDOW
    ensures Restarts(After(INITIAL, before), crashes) <= 2 * MAX_RESTARTS - 1
  {
    ValidAfter(INITIAL, before);
    BoundFromState(After(INITIAL, before), crashes, start);
  }

  /** The least time between two approvals: the delay that is slept, and the pause before the next scan. */
  function Gap(count: nat): nat {
    (BackoffSeconds(count) + 1) * SECOND
  }

  /** The schedules the monitor loop can see from `ready` on: it sleeps after each approval, and a process it
      does not restart is not looked at again. */
  ghost predicate Feasible(p: Policy, ready: nat, crashes: seq<nat>)
    decreases |crashes|
  {
    crashes == [] ||
    (&& ready <= crashes[0]
     && (|crashes| > 1 ==> Approved(p, crashes[0]))
     && Feasible(AfterCrash(p, crashes[0]), crashes[0] + Gap(AfterCrash(p, crashes[0]).restartCount), crashes[1..]))
  }

  lemma {:induction false} FeasibleAscends(p: Policy, ready: nat, crashes: seq<nat>)
    requires Feasible(p, ready, crashes)
    ensures Ascending(crashes) && forall i :: 0 <= i < |crashes| ==> ready <= crashes[i]
    decreases |crashes|
  {
    hide Gap, BackoffSeconds;
    if crashes != [] {
      var p' := AfterCrash(p, crashes[0]);
      FeasibleAscends(p', crashes[0] + Gap(p'.restartCount), crashes[1..]);
      assert forall i :: 0 < i < |crashes| ==> crashes[i] == crashes[1..][i - 1];
    }
  }

  /** The bound is attained by a schedule the monitor loop can see, so the policy does not limit a process to
      MAX_RESTARTS restarts in every 300 seconds: a restart at 0, four late in its window, five right after it. */
  lemma {:induction false} SlidingBoundIsAttained()
    ensures var late := [260 * SECOND, 265 * SECOND, 274 * SECOND, 291 * SECOND];
            var next := [308 * SECOND, 311 * SECOND, 316 * SECOND, 325 * SECOND, 342 * SECOND];
            && Feasible(INITIAL, 0, [0] + (late + next))
            && Restarts(After(INITIAL, [0]), late + next) == 2 * MAX_RESTARTS - 1
  {
    hide Feasible, Restarts, BackoffSeconds;
    var p := Policy(1, Some(0));
    var late := Train(260 * SECOND, 2, 4);
    var next := Train(308 * SECOND, 1, 5);
    Trains();
    NewTrain(p.(restartCount := 5), 308 * SECOND, 308 * SECOND, 5);
    OldTrain(p, 260 * SECOND, 4, next);
    FirstRestart(late + next);
  }

  lemma {:induction false} FirstRestart(rest: seq<nat>)
    requires Feasible(Policy(1, Some(0)), 260 * SECOND, rest)
    ensures Feasible(INITIAL, 0, [0] + rest) && After(INITIAL, [0]) == Policy(1, Some(0))
  {
    BackoffTable(0);
    assert ([0] + rest)[1..] == rest && [0][1..] == [];
    FeasibleSooner(Policy(1, Some(0)), 260 * SECOND, 3 * SECOND, rest);
  }

  lemma FeasibleSooner(p: Policy, ready: nat, sooner: nat, crashes: seq<nat>)
    requires Feasible(p, ready, crashes) && sooner <= ready
    ensures Feasible(p, sooner, crashes)
  {
  }

  lemma {:induction false} Trains()
    ensures Train(260 * SECOND, 2, 4) == [260 * SECOND, 265 * SECOND, 274 * SECOND, 291 * SECOND]
    ensures Train(308 * SECOND, 1, 5) ==
            [308 * SECOND, 311 * SECOND, 316 * SECOND, 325 * SECOND, 342 * SECOND]
    ensures Pause(2, 4) == 31 * SECOND && Pause(1, 5) == 34 * SECOND && Gap(5) == 17 * SECOND
  {
    hide BackoffSeconds;
    BackoffTable(4);
    BackoffTable(5);
    assert Train(325 * SECOND, 4, 2) == [325 * SECOND, 342 * SECOND];
    assert Train(316 * SECOND, 3, 3) == [316 * SECOND, 325 * SECOND, 342 * SECOND];
    assert Train(311 * SECOND, 2, 4) == [311 * SECOND, 316 * SECOND, 325 * SECOND, 342 * SECOND];
    assert Train(274 * SECOND, 4, 2) == [274 * SECOND, 291 * SECOND];
    assert Train(265 * SECOND, 3, 3) == [265 * SECOND, 274 * SECOND, 291 * SECOND];
    assert Pause(3, 3) == 26 * SECOND && Pause(2, 4) == 31 * SECOND;
  }

  // ----- How many restarts a stretch can hold, exactly -----

  /** `n` restarts in the quickest succession, the first at `t` and raising the counter to `count`. */
  function Train(t: nat, count: nat, n: nat): seq<nat>
    decreases n
  {
    if n == 0 then [] else [t] + Train(t + Gap(count), count + 1, n - 1)
  }

  /** From the first to the last of them. */
  function Pause(count: nat, n: nat): nat
    decreases n
  {
    if n <= 1 then 0 else Gap(count) + Pause(count + 1, n - 1)
  }

  /** When a restart at or after `t` opens a new counter window. */
  function Opening(p: Policy, t: nat): nat {
    if p.firstRestartAt.None? || p.firstRestartAt.value + WINDOW < t then t else p.firstRestartAt.value + WINDOW + 1
  }

  /** The first of the restarts to come after `k` that stay in the current window. */
  function ReadyAfter(p: Policy, ready: nat, k: nat): nat {
    if k == 0 then ready else ready + Pause(p.restartCount + 1, k) + Gap(p.restartCount + k)
  }

  /** `k` more restarts fit into the current window, and `n - k` into the next one, before `limit`. */
  predicate FitsAt(p: Policy, ready: nat, limit: nat, n: nat, k: nat) {
    && (k > 0 ==>
          && p.firstRestartAt.Some? && p.restartCount + k <= MAX_RESTARTS
          && ready + Pause(p.restartCount + 1, k) <= limit
          && ready + Pause(p.restartCount + 1, k) <= p.firstRestartAt.value + WINDOW)
    && (k < n ==>
          && n - k <= MAX_RESTARTS
          && Opening(p, ReadyAfter(p, ready, k)) + Pause(1, n - k) <= limit)
  }

  predicate Fits(p: Policy, ready: nat, limit: nat, n: nat) {
    exists k :: 0 <= k <= n && FitsAt(p, ready, limit, n, k)
  }

  ghost predicate Attainable(p: Policy, ready: nat, limit: nat, n: nat) {
    exists crashes ::
      && Feasible(p, ready, crashes) && Within(crashes, limit)
      && Restarts(p, crashes) >= n
  }

  ghost predicate Within(crashes: seq<nat>, limit: nat) {
    forall i :: 0 <= i < |crashes| ==> crashes[i] <= limit
  }

  /** One approved crash in front of a schedule, and back. */
  lemma {:induction false} Unroll(p: Policy, ready: nat, t: nat, rest: seq<nat>)
    ensures ready <= t && Approved(p, t) && Feasible(AfterCrash(p, t), t + Gap(AfterCrash(p, t).restartCount), rest) ==>
              Feasible(p, ready, [t] + rest)
    ensures Feasible(p, ready, [t] + rest) ==>
              && ready <= t && (rest != [] ==> Approved(p, t))
              && Feasible(AfterCrash(p, t), t + Gap(AfterCrash(p, t).restartCount), rest)
    ensures Restarts(p, [t] + rest) == (if Approved(p, t) then 1 else 0) + Restarts(AfterCrash(p, t), rest)
  {
    hide Gap;
    assert ([t] + rest)[0] == t && ([t] + rest)[1..] == rest;
  }

  lemma {:induction false} TrainWithin(t: nat, count: nat, n: nat, limit: nat)
    requires n > 0 ==> t + Pause(count, n) <= limit
    ensures Within(Train(t, count, n), limit)
    decreases n
  {
    hide Gap;
    if n > 0 {
      TrainWithin(t + Gap(count), count + 1, n - 1, limit);
    }
  }

  lemma {:induction false} NewTrain(p: Policy, ready: nat, t: nat, n: nat)
    requires Valid(p) && ready <= t && n <= MAX_RESTARTS
    requires p.firstRestartAt.Some? ==> Expired(p, t)
    ensures Feasible(p, ready, Train(t, 1, n)) && Restarts(p, Train(t, 1, n)) == n
  {
    hide Gap, Feasible, Restarts, Pause;
    if n == 0 {
      NoCrashes(p, ready);
    } else {
      var rest := Train(t + Gap(1), 2, n - 1);
      SmallPauses(n);
      NoCrashes(Policy(n, Some(t)), ReadyAfter(Policy(1, Some(t)), t + Gap(1), n - 1));
      OldTrain(Policy(1, Some(t)), t + Gap(1), n - 1, []);
      assert rest + [] == rest;
      Unroll(p, ready, t, rest);
    }
  }

  lemma {:induction false} SmallPauses(n: nat)
    requires n <= MAX_RESTARTS
    ensures n > 1 ==> Gap(1) + Pause(2, n - 1) <= WINDOW && Pause(1, n) == Gap(1) + Pause(2, n - 1)
  {
    BackoffTable(4);
    assert Pause(4, 1) == 0 && Pause(4, 2) == Gap(4);
    assert n <= 3 || Pause(3, n - 2) == Gap(3) + Pause(4, n - 3);
  }

  /** A quick succession that stays in the current window, and whatever comes after it. */
  lemma {:induction false} OldTrain(p: Policy, ready: nat, k: nat, rest: seq<nat>)
    requires Valid(p) && p.firstRestartAt.Some? && p.restartCount + k <= MAX_RESTARTS
    requires k > 0 ==> ready + Pause(p.restartCount + 1, k) <= p.firstRestartAt.value + WINDOW
    requires Feasible(p.(restartCount := p.restartCount + k), ReadyAfter(p, ready, k), rest)
    ensures Feasible(p, ready, Train(ready, p.restartCount + 1, k) + rest)
    ensures Restarts(p, Train(ready, p.restartCount + 1, k) + rest) ==
            k + Restarts(p.(restartCount := p.restartCount + k), rest)
    decreases k
  {
    hide Gap, Feasible, Restarts;
    var c := p.restartCount;
    if k == 0 {
      assert [] + rest == rest;
    } else {
      var p1, t1 := AfterCrash(p, ready), ready + Gap(c + 1);
      assert p1 == p.(restartCount := c + 1);
      assert ReadyAfter(p1, t1, k - 1) == ReadyAfter(p, ready, k);
      OldTrain(p1, t1, k - 1, rest);
      var more := Train(t1, c + 2, k - 1);
      assert Train(ready, c + 1, k) + rest == [ready] + (more + rest);
      Unroll(p, ready, ready, more + rest);
    }
  }

  /** Restarts inside one window are bounded by what the counter leaves and by the sleeps between them. */
  lemma {:induction false} WindowHolds(p: Policy, ready: nat, limit: nat, crashes: seq<nat>, m: nat)
    requires Valid(p) && p.firstRestartAt.Some? && Feasible(p, ready, crashes) && Restarts(p, crashes) >= m > 0
    requires Within(crashes, limit) && limit <= p.firstRestartAt.value + WINDOW
    ensures p.restartCount + m <= MAX_RESTARTS && ready + Pause(p.restartCount + 1, m) <= limit
    decreases m
  {
    hide Gap, Feasible, Restarts;
    BoundInsideWindow(p, crashes);
    NoCrashes(p, ready);
    var rest := crashes[1..];
    Unroll(p, ready, crashes[0], rest);
    assert crashes == [crashes[0]] + rest;
    if m > 1 {
      WindowHolds(AfterCrash(p, crashes[0]), crashes[0] + Gap(p.restartCount + 1), limit, rest, m - 1);
    }
  }

  /** One more restart in the current window before those that fit after it. */
  lemma {:induction false} FitsEarlier(p: Policy, ready: nat, t: nat, limit: nat, n: nat, k: nat)
    requires Valid(p) && p.firstRestartAt.Some? && p.restartCount < MAX_RESTARTS && n > 0
    requires ready <= t <= limit && t <= p.firstRestartAt.value + WINDOW
    requires FitsAt(p.(restartCount := p.restartCount + 1), t + Gap(p.restartCount + 1), limit, n - 1, k)
    ensures FitsAt(p, ready, limit, n, k + 1)
  {
    hide Gap;
    var c := p.restartCount;
    assert Pause(c + 1, k + 1) == if k == 0 then 0 else Gap(c + 1) + Pause(c + 2, k);
    assert ReadyAfter(p, ready, k + 1) <= ReadyAfter(p.(restartCount := c + 1), t + Gap(c + 1), k);
  }

  lemma {:induction false} AttainableFits(p: Policy, ready: nat, limit: nat, crashes: seq<nat>, n: nat)
    requires Valid(p) && limit <= ready + WINDOW
    requires Feasible(p, ready, crashes) && Restarts(p, crashes) >= n && Within(crashes, limit)
    ensures exists k :: 0 <= k <= n && FitsAt(p, ready, limit, n, k)
    decreases n
  {
    hide Gap, Feasible, Restarts, Pause;
    NoCrashes(p, ready);
    if n == 0 {
      assert FitsAt(p, ready, limit, 0, 0);
    } else {
      var t, rest := crashes[0], crashes[1..];
      assert crashes == [t] + rest;
      Unroll(p, ready, t, rest);
      var p' := AfterCrash(p, t);
      var ready' := t + Gap(p'.restartCount);
      NoCrashes(p', ready');
      if p.firstRestartAt.None? || Expired(p, t) {
        if n > 1 {
          WindowHolds(p', ready', limit, rest, n - 1);
        }
        PauseStep(1, n);
        assert FitsAt(p, ready, limit, n, 0);
      } else {
        AttainableFits(p', ready', limit, rest, n - 1);
        var k :| 0 <= k <= n - 1 && FitsAt(p', ready', limit, n - 1, k);
        FitsEarlier(p, ready, t, limit, n, k);
      }
    }
  }

  lemma PauseStep(count: nat, n: nat)
    ensures Pause(count, n) == if n <= 1 then 0 else Gap(count) + Pause(count + 1, n - 1)
  {
  }

  /** How many restarts can fall between `ready` and `limit`, at most 300 seconds later: `n` of them exactly when
      they fit, counting the sleeps, into what is left of the current counter window and into the next one. */
  lemma {:induction false} AttainableIff(p: Policy, ready: nat, limit: nat, n: nat)
    requires Valid(p) && limit <= ready + WINDOW
    ensures Attainable(p, ready, limit, n) <==> Fits(p, ready, limit, n)
  {
    hide Gap, BackoffSeconds, Feasible, Restarts, Pause, Train;
    if Attainable(p, ready, limit, n) {
      var crashes :|
        && Feasible(p, ready, crashes) && Within(crashes, limit)
        && Restarts(p, crashes) >= n;
      AttainableFits(p, ready, limit, crashes, n);
    }
    if Fits(p, ready, limit, n) {
      var k :| 0 <= k <= n && FitsAt(p, ready, limit, n, k);
      FitsAttained(p, ready, limit, n, k);
    }
  }

  lemma {:induction false} FitsAttained(p: Policy, ready: nat, limit: nat, n: nat, k: nat)
    requires Valid(p) && k <= n && FitsAt(p, ready, limit, n, k)
    ensures Attainable(p, ready, limit, n)
  {
    hide Gap, BackoffSeconds, Feasible, Restarts, Pause, Train;
    var p', ready' := p.(restartCount := p.restartCount + k), ReadyAfter(p, ready, k);
    var open := Opening(p, ready');
    NewTrain(p', ready', open, n - k);
    var next := Train(open, 1, n - k);
    TrainWithin(open, 1, n - k, limit);
    if k == 0 {
      assert p' == p;
      assert Feasible(p, ready, next) && Restarts(p, next) == n;
    } else {
      OldTrain(p, ready, k, next);
      TrainWithin(ready, p.restartCount + 1, k, limit);
      var crashes := Train(ready, p.restartCount + 1, k) + next;
      assert Within(crashes, limit);
    }
  }

  /** The message of the daemon, MAX_RESTARTS in 300 seconds, is true of a stretch exactly when one more does not
      fit: in particular when no counter window that is older than the stretch ends inside it. */
  lemma {:induction false} MessageHoldsIff(p: Policy, ready: nat, start: nat)
    requires Valid(p) && start <= ready
    ensures (forall crashes ::
               Feasible(p, ready, crashes) && Within(crashes, start + WINDOW)
               ==> Restarts(p, crashes) <= MAX_RESTARTS)
            <==> !Fits(p, ready, start + WINDOW, MAX_RESTARTS + 1)
    ensures BudgetOpen(p, start) || !Fits(p, ready, start + WINDOW, MAX_RESTARTS + 1)
  {
    hide Gap, BackoffSeconds, Feasible, Restarts, Fits;
    AttainableIff(p, ready, start + WINDOW, MAX_RESTARTS + 1);
    if Attainable(p, ready, start + WINDOW, MAX_RESTARTS + 1) {
      var crashes :|
        && Feasible(p, ready, crashes) && Within(crashes, start + WINDOW)
        && Restarts(p, crashes) >= MAX_RESTARTS + 1;
      FeasibleAscends(p, ready, crashes);
      BudgetIff(p, start);
    }
  }

  /** A window opened before `start`, with budget left, ends inside the stretch. */
  predicate BudgetOpen(p: Policy, start: nat) {
    && p.firstRestartAt.Some? && p.restartCount < MAX_RESTARTS
    && p.firstRestartAt.value < start <= p.firstRestartAt.value + WINDOW
  }

  /** Without regard to the sleeps the condition is this simple. */
  lemma {:induction false} BudgetIff(p: Policy, start: nat)
    requires Valid(p)
    ensures (forall crashes ::
               Ascending(crashes) && (forall i :: 0 <= i < |crashes| ==> start <= crashes[i] <= start + WINDOW)
               ==> Restarts(p, crashes) <= MAX_RESTARTS)
            <==> !BudgetOpen(p, start)
  {
    hide Restarts;
    if BudgetOpen(p, start) {
      var v := p.firstRestartAt.value + WINDOW + 1;
      var crashes := Repeat(start, 1) + (Repeat(v, 1) + Repeat(v, 4));
      RestartsOfRun(p, start, 1, Repeat(v, 1) + Repeat(v, 4));
      RestartsOfRun(p.(restartCount := p.restartCount + 1), v, 1, Repeat(v, 4));
      RestartsOfRun(Policy(1, Some(v)), v, 4, []);
      assert Repeat(v, 4) + [] == Repeat(v, 4);
      NoCrashes(Policy(MAX_RESTARTS, Some(v)), v);
      assert Restarts(p, crashes) > MAX_RESTARTS;
      assert Ascending(crashes);
    } else {
      forall crashes |
        Ascending(crashes) && (forall i :: 0 <= i < |crashes| ==> start <= crashes[i] <= start + WINDOW)
        ensures Restarts(p, crashes) <= MAX_RESTARTS
      {
        if p.firstRestartAt.Some? && p.firstRestartAt.value >= start {
          BoundInsideWindow(p, crashes);
        } else {
          ClosedBudget(p, crashes, start);
        }
      }
    }
  }

  lemma NoCrashes(p: Policy, ready: nat)
    ensures Restarts(p, []) == 0 && Feasible(p, ready, [])
  {
  }

  lemma {:induction false} ClosedBudget(p: Policy, crashes: seq<nat>, start: nat)
    requires Valid(p) && Ascending(crashes)
    requires forall i :: 0 <= i < |crashes| ==> start <= crashes[i] <= start + WINDOW
    requires p.firstRestartAt.None? || p.restartCount == MAX_RESTARTS || Expired(p, start)
    ensures Restarts(p, crashes) <= MAX_RESTARTS
    decreases |crashes|
  {
    if crashes != [] {
      var p', rest := AfterCrash(p, crashes[0]), crashes[1..];
      assert forall i :: 0 <= i < |rest| ==> rest[i] == crashes[i + 1];
      if Approved(p, crashes[0]) {
        BoundInsideWindow(p', rest);
      } else {
        ClosedBudget(p, rest, start);
      }
    }
  }

  function Repeat(t: nat, n: nat): (r: seq<nat>)
    ensures |r| == n && forall i :: 0 <= i < n ==> r[i] == t
  {
    if n == 0 then [] else [t] + Repeat(t, n - 1)
  }

  /** `n` crashes at one instant, all approved, leave a counter that is `n` higher (or a new window). */
  lemma {:induction false} RestartsOfRun(p: Policy, t: nat, n: nat, rest: seq<nat>)
    requires Valid(p) && p.firstRestartAt.Some? && n > 0
    requires Expired(p, t) || p.restartCount + n <= MAX_RESTARTS
    requires Expired(p, t) ==> n == 1
    ensures Restarts(p, Repeat(t, n) + rest) ==
            n + Restarts(if Expired(p, t) then Policy(1, Some(t)) else p.(restartCount := p.restartCount + n), rest)
    decreases n
  {
    var all := Repeat(t, n) + rest;
    assert all[0] == t && all[1..] == Repeat(t, n - 1) + rest;
    if n == 1 {
      assert all[1..] == rest;
    } else {
      RestartsOfRun(AfterCrash(p, t), t, n - 1, rest);
    }
  }

  /** Crashes that fall inside the counter window stay in it, and their delays only grow. */
  lemma {:induction false} DelaysGrowInWindow(p: Policy, crashes: seq<nat>)
    requires Valid(p) && p.firstRestartAt.Some?
    requires forall i :: 0 <= i < |crashes| ==> crashes[i] <= p.firstRestartAt.value + WINDOW
    ensures After(p, crashes).firstRestartAt == p.firstRestartAt
    ensures After(p, crashes).restartCount == p.restartCount + Restarts(p, crashes)
    ensures 2 <= BackoffSeconds(p.restartCount) <= BackoffSeconds(After(p, crashes).restartCount) <= 16
    decreases |crashes|
  {
    BackoffTable(p.restartCount);
    BackoffTable(After(p, crashes).restartCount);
    if crashes != [] {
      DelaysGrowInWindow(AfterCrash(p, crashes[0]), crashes[1..]);
    }
  }
}
