/** The ids the server has issued: which of them the client still holds, and how it comes to forget one. */
module WsAccounting {
  import opened Sequences
  import opened WsClient

  // ----- Runs that go wrong -----

  lemma {:induction false} PathConcat(a: seq<Client>, la: seq<Label>, b: seq<Client>, lb: seq<Label>)
    requires Path(a, la) && Path(b, lb) && b[0] == a[|la|]
    ensures Path(a + b[1..], la + lb) && (a + b[1..])[|la + lb|] == b[|lb|]
  {
    hide Next, Enabled;
    var states, labels := a + b[1..], la + lb;
    forall i | 0 <= i < |labels|
      ensures Enabled(states[i], labels[i]) && states[i + 1] == Next(states[i], labels[i])
    {
      if i >= |la| {
        assert states[i] == b[i - |la|] && states[i + 1] == b[i + 1 - |la|] && labels[i] == lb[i - |la|];
      }
    }
  }

  /** A client that has never inserted anything. */
  function Bare(connected: bool, epoch: nat): Client {
    START.(connected := connected, epoch := epoch)
  }

  lemma {:induction false} BareConnects(c: Client)
    requires c.reg == START.reg && !c.connected && c.atConnect == {}
    ensures Enabled(c, Connect)
    ensures Next(c, Connect) == c.(connected := true, epoch := c.epoch + 1, sent := {}, refused := {})
  {
  }

  lemma {:induction false} BareDrops(c: Client)
    requires c.reg == START.reg && c.connected
    ensures Enabled(c, Drop) && Next(c, Drop) == c.(connected := false, sent := {}, pending := {})
  {
  }

  /** Connect, and a caller asks for the pattern "p". */
  lemma {:induction false} BareAsks() returns (states: seq<Client>, labels: seq<Label>)
    ensures labels == [Connect, Ask("a", "p")] && Run(states, labels)
    ensures states[2] == Bare(true, 1).(queue := {Subscribe("a", "p")}, pending := {"a"}, asked := map["a" := "p"])
  {
    labels := [Connect, Ask("a", "p")];
    BareConnects(START);
    states := [START, Bare(true, 1), Next(Bare(true, 1), labels[1])];
  }

  lemma {:induction false} SendAndGrant(c: Client, s: string) returns (states: seq<Client>, labels: seq<Label>)
    requires var f := Subscribe("a", "p");
             c.connected && c.queue == {f} && c.sent == {} && s !in c.issued && "a" !in c.abandoned
    ensures labels == [Transmit(Subscribe("a", "p")), Grant(Subscribe("a", "p"), s)]
    ensures Path(states, labels) && states[0] == c
    ensures var issue := Issue(c.epoch, "p");
            states[2] == c.(queue := {}, pending := c.pending - {"a"}, issued := c.issued[s := issue],
                            ready := if "a" in c.pending then c.ready["a" := (s, issue)] else c.ready)
  {
    hide Bound, Inserted, Removed, Cleared;
    labels := [Transmit(Subscribe("a", "p")), Grant(Subscribe("a", "p"), s)];
    var c1 := Next(c, labels[0]);
    states := [c, c1, Next(c1, labels[1])];
  }

  lemma {:induction false} DropAndConnect(c: Client) returns (states: seq<Client>, labels: seq<Label>)
    requires c.reg == START.reg && c.connected && c.atConnect == {}
    ensures labels == [Drop, Connect] && Path(states, labels) && states[0] == c
    ensures states[2] == c.(epoch := c.epoch + 1, sent := {}, pending := {}, refused := {})
  {
    hide Next, Enabled;
    labels := [Drop, Connect];
    BareDrops(c);
    BareConnects(Next(c, Drop));
    states := [c, Next(c, Drop), Next(Next(c, Drop), Connect)];
  }

  /** A reply inserted after a reconnect leaves a subscription bound to a dead server id, with no resubscription
      under way, although the client reports itself connected. */
  lemma {:induction false} LateInsertIsDeaf() returns (states: seq<Client>, labels: seq<Label>)
    ensures Run(states, labels)
    ensures var c := states[|labels|];
            && c.connected && c.sent == {}
            && Route(c.reg, "s1") == Some("a") && "s1" in c.issued && c.issued["s1"].epoch < c.epoch
  {
    hide Next, Enabled, Path;
    var s1, l1 := BareAsks();
    PathLength(s1, l1);
    var s2, l2 := SendAndGrant(s1[2], "s1");
    PathLength(s2, l2);
    var s3, l3 := DropAndConnect(s2[2]);
    PathLength(s3, l3);
    var s4, l4 := LateInsert(s3[2]);
    PathLength(s4, l4);
    PathConcat(s1, l1, s2, l2);
    PathConcat(s1 + s2[1..], l1 + l2, s3, l3);
    PathConcat(s1 + s2[1..] + s3[1..], l1 + l2 + l3, s4, l4);
    states, labels := s1 + s2[1..] + s3[1..] + s4[1..], l1 + l2 + l3 + l4;
  }

  lemma PathLength(states: seq<Client>, labels: seq<Label>)
    requires Path(states, labels)
    ensures |states| == |labels| + 1
  {
  }

  lemma {:induction false} LateInsert(c: Client) returns (states: seq<Client>, labels: seq<Label>)
    requires c.reg == START.reg && "a" in c.ready && c.ready["a"].0 == "s1"
    ensures labels == [Insert("a")] && Path(states, labels) && states[0] == c
    ensures Route(states[1].reg, "s1") == Some("a")
    ensures states[1] == c.(reg := states[1].reg, ready := c.ready - {"a"}, inserted := c.inserted + {"a"})
  {
    labels := [Insert("a")];
    states := [c, Next(c, labels[0])];
  }

  /** A subscribe frame still in the queue when the connection drops is sent on the next one. Its caller has long
      been told that the connection was lost, so the server's subscription is nobody's. */
  lemma {:induction false} StaleFrameIsForgotten() returns (states: seq<Client>, labels: seq<Label>)
    ensures Run(states, labels) && forall i :: 0 <= i < |labels| ==> !labels[i].Unsubscribe? && !labels[i].Abandon?
    ensures !Accounted(states[|labels|])
  {
    hide Next, Enabled, Path;
    var s1, l1 := BareAsks();
    PathLength(s1, l1);
    var s2, l2 := DropAndConnect(s1[2]);
    PathLength(s2, l2);
    var s3, l3 := SendAndGrant(s2[2], "s1");
    PathLength(s3, l3);
    PathConcat(s1, l1, s2, l2);
    PathConcat(s1 + s2[1..], l1 + l2, s3, l3);
    states, labels := s1 + s2[1..] + s3[1..], l1 + l2 + l3;
    assert !Held(s3[2], "s1");
  }

  // ----- No server subscription is forgotten -----

  /** Every id issued on the live connection is bound, waiting for its caller to insert it, or given back. */
  ghost predicate Accounted(c: Client) {
    c.connected ==> forall s :: s in c.issued && c.issued[s].epoch == c.epoch ==> Held(c, s)
  }

  ghost predicate Held(c: Client, s: string) {
    s in c.released || (exists k :: IsBound(c.reg, k, s)) || (exists k :: k in c.ready && c.ready[k].0 == s)
  }

  /** Ids have the epoch of their connection, one that is in use or waiting to be inserted is not given back, and a
      subscription with its resubscription in flight holds no id of this connection yet. */
  ghost predicate Dated(c: Client) {
    && c.released <= c.issued.Keys
    && (forall s :: s in c.issued ==> c.issued[s].epoch <= c.epoch)
    && (forall k :: k in c.ready ==> c.ready[k].0 !in c.released)
    && (forall k, s :: IsBound(c.reg, k, s) ==> s !in c.released)
    && (forall f, s :: f in c.sent && f.Resubscribe? && IsBound(c.reg, f.stable, s) ==>
          s in c.issued && c.issued[s].epoch < c.epoch)
  }

  lemma {:induction false} ReleasedStep(c: Client, l: Label, s: string)
    requires Enabled(c, l)
    ensures s in c.released ==> s in Next(c, l).released
    ensures s in Next(c, l).released && s !in c.released ==> l.Unsubscribe? && l.queued && IsBound(c.reg, l.stable, s)
    ensures l.Unsubscribe? && l.queued && IsBound(c.reg, l.stable, s) ==> s in Next(c, l).released
    ensures l.Connect? ==> Next(c, l).epoch == c.epoch + 1
  {
    hide Bound, Inserted, Removed, Cleared;
  }

  lemma {:induction false} StepDated(c: Client, l: Label)
    requires Inverse(c.reg) && Placed(c) && Owned(c) && Unshared(c) && Dated(c) && Enabled(c, l)
    ensures Dated(Next(c, l))
  {
    hide Next, Enabled;
    var c' := Next(c, l);
    HistoryStep(c, l);
    SetsStep(c, l);
    ReleasedStep(c, l, "");
    forall s | s in c'.released ensures s in c'.issued {
      ReleasedStep(c, l, s);
    }
    forall k | k in c'.ready ensures c'.ready[k].0 !in c'.released {
      ReadyStep(c, l, k);
      ReleasedStep(c, l, c'.ready[k].0);
      if l.Grant? {
        assert l.server !in c.issued by { GrantIsFresh(c, l); }
      }
    }
    forall k, s | IsBound(c'.reg, k, s) ensures s !in c'.released {
      BoundIsUnreleased(c, l, k, s);
    }
    forall f, s | f in c'.sent && f.Resubscribe? && IsBound(c'.reg, f.stable, s)
      ensures s in c'.issued && c'.issued[s].epoch < c'.epoch
    {
      DatedFrame(c, l, f, s);
    }
  }

  lemma {:induction false} BoundIsUnreleased(c: Client, l: Label, k: string, s: string)
    requires Inverse(c.reg) && Owned(c) && Unshared(c) && Dated(c) && Enabled(c, l) && IsBound(Next(c, l).reg, k, s)
    ensures s !in Next(c, l).released
  {
    hide Next, Enabled;
    NewBindings(c, l, k, s);
    ReleasedStep(c, l, s);
    SetsStep(c, l);
    if l.Grant? {
      GrantIsFresh(c, l);
    }
    if l.Unsubscribe? {
      StepKeys(c, l);
    }
  }

  lemma GrantIsFresh(c: Client, l: Label)
    requires l.Grant? && Enabled(c, l)
    ensures l.server !in c.issued && c.connected && l.frame in c.sent
  {
  }

  lemma {:induction false} DatedFrame(c: Client, l: Label, f: Frame, s: string)
    requires Placed(c) && Owned(c) && Dated(c) && Enabled(c, l)
    requires f in Next(c, l).sent && f.Resubscribe? && IsBound(Next(c, l).reg, f.stable, s)
    ensures s in Next(c, l).issued && Next(c, l).issued[s].epoch < Next(c, l).epoch
  {
    hide Next, Enabled;
    HistoryStep(c, l);
    SetsStep(c, l);
    ReleasedStep(c, l, s);
    FlightStep(c, l, f);
    NewBindings(c, l, f.stable, s);
    if !l.Connect? {
      assert FrameOk(c, f);
      if l.Grant? {
        FlightStep(c, l, l.frame);
        PlacedFrame(c, l.frame);
      }
    }
  }

  lemma {:induction false} DatedHolds(states: seq<Client>, labels: seq<Label>, i: nat)
    requires Run(states, labels) && i <= |labels|
    ensures Dated(states[i])
  {
    hide Placed, Owned, Unshared, Resuming, Inverse, Next, Dated;
    if i == 0 {
      StartDated();
    } else {
      InvariantHolds(states, labels, i - 1);
      DatedHolds(states, labels, i - 1);
      assert Enabled(states[i - 1], labels[i - 1]) && states[i] == Next(states[i - 1], labels[i - 1]);
      StepDated(states[i - 1], labels[i - 1]);
    }
  }

  lemma StartDated()
    ensures Dated(START) && Accounted(START)
  {
  }

  /** A reply waits for its caller on the live connection. */
  ghost predicate WaitsLive(c: Client, k: string) {
    k in c.ready && c.connected && c.ready[k].1.epoch == c.epoch
  }

  /** A subscription holds an id of the live connection. */
  ghost predicate BoundLive(c: Client, k: string) {
    && c.connected && k in c.reg.byStable && c.reg.byStable[k].serverId.Some?
    && c.reg.byStable[k].serverId.value in c.issued && c.issued[c.reg.byStable[k].serverId.value].epoch == c.epoch
  }

  /** The steps that lose an id: the answer to a resubscription finds no subscription, the answer to a subscribe
      no caller, a caller goes away with its answer in hand, or one goes away before its unsubscribe is queued. */
  ghost predicate Forgets(c: Client, l: Label) {
    match l
    case Grant(Resubscribe(k, _), _) => k !in c.reg.byStable
    case Grant(Subscribe(k, _), _) => k !in c.pending || k in c.abandoned
    case Abandon(k) => WaitsLive(c, k)
    case Unsubscribe(k, queued) => !queued && BoundLive(c, k)
    case _ => false
  }

  lemma {:induction false} BoundStays(c: Client, l: Label, k: string, s: string)
    requires Placed(c) && Dated(c) && Enabled(c, l) && c.connected && !l.Drop? && !Forgets(c, l) && IsBound(c.reg, k, s)
    requires s in c.issued && c.issued[s].epoch == c.epoch
    ensures IsBound(Next(c, l).reg, k, s) || s in Next(c, l).released
  {
    hide Next, Enabled;
    ReleasedStep(c, l, s);
    StepKeys(c, l);
    SetsStep(c, l);
    if k in Next(c, l).reg.byStable {
      SubscriptionStep(c, l, k);
      if l.Grant? {
        FlightStep(c, l, l.frame);
      }
    }
  }

  lemma {:induction false} HeldStep(c: Client, l: Label, s: string)
    requires Placed(c) && Owned(c) && Dated(c) && Enabled(c, l) && c.connected && !l.Drop? && !Forgets(c, l)
    requires s in c.issued && c.issued[s].epoch == c.epoch && Held(c, s)
    ensures Held(Next(c, l), s)
  {
    hide Next, Enabled, Placed;
    var c' := Next(c, l);
    if s in c.released {
      ReleasedStep(c, l, s);
    } else if k :| IsBound(c.reg, k, s) {
      BoundStays(c, l, k, s);
    } else {
      var k :| k in c.ready && c.ready[k].0 == s;
      ReadyStep(c, l, k);
      if l == Insert(k) {
        StepKeys(c, l);
        SubscriptionStep(c, l, k);
        assert IsBound(c'.reg, k, s);
      } else {
        assert k in c'.ready && c'.ready[k].0 == s by { ReadyKept(c, l, k); }
      }
    }
  }

  lemma {:induction false} ReadyKept(c: Client, l: Label, k: string)
    requires Placed(c) && Enabled(c, l) && k in c.ready && l != Insert(k) && l != Abandon(k)
    ensures k in Next(c, l).ready && Next(c, l).ready[k] == c.ready[k]
  {
    hide Next, Enabled;
    ReadyStep(c, l, k);
    if l.Grant? {
      FlightStep(c, l, l.frame);
      PlacedFrame(c, l.frame);
    }
  }

  /** The id a forgetting step is about. */
  ghost function Forgotten(c: Client, l: Label): string
    requires Forgets(c, l)
  {
    match l
    case Grant(_, s) => s
    case Abandon(k) => c.ready[k].0
    case Unsubscribe(k, _) => c.reg.byStable[k].serverId.value
  }

  lemma {:induction false} ForgottenIsUnheld(c: Client, l: Label)
    requires Inverse(c.reg) && Placed(c) && Owned(c) && Unshared(c) && Dated(c) && Enabled(c, l) && Forgets(c, l)
    ensures !Accounted(Next(c, l))
  {
    hide Next, Enabled, Placed;
    var c', s := Next(c, l), Forgotten(c, l);
    HistoryStep(c, l);
    StaysConnected(c, l);
    if l.Grant? {
      GrantIsFresh(c, l);
    }
    if l.Unsubscribe? {
      assert IsBound(c.reg, l.stable, s);
    }
    ReleasedStep(c, l, s);
    forall k ensures !IsBound(c'.reg, k, s) {
      NewBindings(c, l, k, s);
      StepKeys(c, l);
    }
    forall k ensures k in c'.ready ==> c'.ready[k].0 != s {
      ReadyStep(c, l, k);
    }
    assert !Held(c', s);
  }

  lemma {:induction false} StaysConnected(c: Client, l: Label)
    requires Enabled(c, l)
    ensures Next(c, l).connected <==> l.Connect? || (c.connected && !l.Drop?)
    ensures l.Connect? ==> !c.connected
  {
    hide Bound, Inserted, Removed, Cleared;
  }

  lemma {:induction false} AccountedStepIff(c: Client, l: Label)
    requires Inverse(c.reg) && Placed(c) && Owned(c) && Unshared(c) && Dated(c) && Accounted(c) && Enabled(c, l)
    ensures Accounted(Next(c, l)) <==> !Forgets(c, l)
  {
    hide Next, Enabled, Placed, Owned, Unshared;
    var c' := Next(c, l);
    StaysConnected(c, l);
    HistoryStep(c, l);
    ReleasedStep(c, l, "");
    if Forgets(c, l) {
      ForgottenIsUnheld(c, l);
    } else if c'.connected && !l.Connect? {
      forall s | s in c'.issued && c'.issued[s].epoch == c'.epoch
        ensures Held(c', s)
      {
        if s in c.issued {
          HeldStep(c, l, s);
        } else {
          NewIdIsHeld(c, l);
        }
      }
    }
  }

  lemma {:induction false} NewIdIsHeld(c: Client, l: Label)
    requires l.Grant? && Enabled(c, l) && !Forgets(c, l)
    ensures Held(Next(c, l), l.server)
  {
    hide Next, Enabled;
    var k := l.frame.stable;
    if l.frame.Resubscribe? {
      StepKeys(c, l);
      SubscriptionStep(c, l, k);
      assert IsBound(Next(c, l).reg, k, l.server);
    } else {
      ReadyStep(c, l, k);
      assert k in Next(c, l).ready && Next(c, l).ready[k].0 == l.server;
    }
  }

  // ----- The same, read off the run -----

  function IsConnect(): Label -> bool {
    (l: Label) => l.Connect?
  }

  function IsDrop(): Label -> bool {
    (l: Label) => l.Drop?
  }

  function IsUnsubscribe(k: string): Label -> bool {
    (l: Label) => l.Unsubscribe? && l.stable == k
  }

  function IsAbandon(k: string): Label -> bool {
    (l: Label) => l == Abandon(k)
  }

  function IsAsk(k: string): Label -> bool {
    (l: Label) => l.Ask? && l.stable == k
  }

  /** The server answers the subscribe of `k`. */
  function IsAnswer(k: string): Label -> bool {
    (l: Label) => l.Grant? && l.frame.Subscribe? && l.frame.stable == k
  }

  function IsInsert(k: string): Label -> bool {
    (l: Label) => l == Insert(k)
  }

  /** The server answers the resubscription of `k`. */
  function IsRegrant(k: string): Label -> bool {
    (l: Label) => l.Grant? && l.frame.Resubscribe? && l.frame.stable == k
  }

  /** Step `i` leaves the server with a subscription that nobody holds: a resubscription is answered after its
      subscription was removed on this connection; a subscribe after a drop since it was asked for, or after its
      caller went away; a caller goes away with an answer of this connection in hand; or a subscription that this
      connection has answered for is removed and its unsubscribe never queued. */
  ghost predicate Lost(labels: seq<Label>, i: nat)
    requires i < |labels|
  {
    match labels[i]
    case Grant(Resubscribe(k, _), _) => Since(labels, i, IsUnsubscribe(k), IsConnect())
    case Grant(Subscribe(k, _), _) =>
      Since(labels, i, IsDrop(), IsAsk(k)) || Since(labels, i, IsAbandon(k), IsAsk(k))
    case Abandon(k) => Since(labels, i, IsAnswer(k), IsDrop())
    case Unsubscribe(k, queued) =>
      && !queued && Since(labels, i, IsInsert(k), IsUnsubscribe(k))
      && (Since(labels, i, IsRegrant(k), IsDrop()) || Since(labels, i, IsAnswer(k), IsDrop()))
    case _ => false
  }

  /** The server refuses the resubscription of `k`. */
  function IsRefusal(k: string): Label -> bool {
    (l: Label) => l.Deny? && l.frame.Resubscribe? && l.frame.stable == k
  }

  /** A resubscription counts as refused exactly when the server refused it since the connect. */
  lemma {:induction false} RefusedIff(states: seq<Client>, labels: seq<Label>, i: nat, k: string)
    requires Run(states, labels) && i <= |labels|
    ensures k in states[i].refused <==> Since(labels, i, IsRefusal(k), IsConnect())
  {
    hide Since, Bound, Inserted, Removed, Cleared;
    if i == 0 {
      SinceNever(labels, IsRefusal(k), IsConnect());
    } else {
      assert Enabled(states[i - 1], labels[i - 1]) && states[i] == Next(states[i - 1], labels[i - 1]);
      RefusedIff(states, labels, i - 1, k);
      SinceStep(labels, i - 1, IsRefusal(k), IsConnect());
    }
  }

  lemma {:induction false} GoneStep(c: Client, l: Label, f: Frame)
    requires Placed(c) && Enabled(c, l) && f in Next(c, l).sent && f.Resubscribe?
    ensures l.Connect? ==> f.stable in Next(c, l).reg.byStable
    ensures !l.Connect? ==>
              && f in c.sent
              && (f.stable in Next(c, l).reg.byStable <==> f.stable in c.reg.byStable && !IsUnsubscribe(f.stable)(l))
  {
    hide Next, Enabled;
    FlightStep(c, l, f);
    StepKeys(c, l);
    SetsStep(c, l);
    if f in c.queue + c.sent {
      PlacedFrame(c, f);
    }
  }

  /** A subscription with its resubscription in flight is gone exactly when it was removed since the connect. */
  lemma {:induction false} GoneIff(states: seq<Client>, labels: seq<Label>, i: nat, f: Frame)
    requires Run(states, labels) && i <= |labels| && f in states[i].sent && f.Resubscribe?
    ensures f.stable !in states[i].reg.byStable <==> Since(labels, i, IsUnsubscribe(f.stable), IsConnect())
  {
    hide Next, Placed, Owned, Inverse, Unshared, Resuming, Since;
    var c, l := states[i - 1], labels[i - 1];
    assert Enabled(c, l) && states[i] == Next(c, l);
    InvariantHolds(states, labels, i - 1);
    GoneStep(c, l, f);
    SinceStep(labels, i - 1, IsUnsubscribe(f.stable), IsConnect());
    if !l.Connect? {
      GoneIff(states, labels, i - 1, f);
    }
  }

  lemma {:induction false} OwnerStep(c: Client, l: Label, f: Frame)
    requires Placed(c) && Owned(c) && Enabled(c, l) && f in Next(c, l).queue + Next(c, l).sent && f.Subscribe?
    ensures IsAsk(f.stable)(l) ==> f.stable in Next(c, l).pending && f.stable !in Next(c, l).abandoned
    ensures !IsAsk(f.stable)(l) ==>
              && f in c.queue + c.sent
              && (f.stable in Next(c, l).pending <==> f.stable in c.pending && !l.Drop?)
              && (f.stable in Next(c, l).abandoned <==> f.stable in c.abandoned || l == Abandon(f.stable))
  {
    hide Next, Enabled;
    var c' := Next(c, l);
    FlightStep(c, l, f);
    SetsStep(c, l);
    StepFrames(c, l, f);
    if f in c.queue + c.sent {
      PlacedFrame(c, f);
    }
    if l.Grant? || l.Deny? {
      AnsweredIsGone(c, l, f);
    }
  }

  lemma {:induction false} AnsweredIsGone(c: Client, l: Label, f: Frame)
    requires Placed(c) && Enabled(c, l) && (l.Grant? || l.Deny?) && f in Next(c, l).queue + Next(c, l).sent
    ensures !(f.Subscribe? && l.frame == Subscribe(f.stable, l.frame.pattern))
  {
    hide Next, Enabled;
    FlightStep(c, l, f);
    FlightStep(c, l, l.frame);
    PlacedFrame(c, l.frame);
    PlacedFrame(c, f);
  }

  /** A subscribe frame under way has lost its pending entry exactly when the connection dropped since it was asked
      for, and its caller exactly when the call was abandoned. */
  lemma {:induction false} OwnerIff(states: seq<Client>, labels: seq<Label>, i: nat, f: Frame)
    requires Run(states, labels) && i <= |labels| && f in states[i].queue + states[i].sent && f.Subscribe?
    ensures f.stable !in states[i].pending <==> Since(labels, i, IsDrop(), IsAsk(f.stable))
    ensures f.stable in states[i].abandoned <==> Since(labels, i, IsAbandon(f.stable), IsAsk(f.stable))
  {
    hide Next, Placed, Owned, Inverse, Unshared, Resuming, Since;
    var c, l := states[i - 1], labels[i - 1];
    assert Enabled(c, l) && states[i] == Next(c, l);
    InvariantHolds(states, labels, i - 1);
    OwnerStep(c, l, f);
    SinceStep(labels, i - 1, IsDrop(), IsAsk(f.stable));
    SinceStep(labels, i - 1, IsAbandon(f.stable), IsAsk(f.stable));
    if !IsAsk(f.stable)(l) {
      OwnerIff(states, labels, i - 1, f);
    }
  }

  /** The call of `subscribe` for `k` is under way. */
  ghost predicate Calling(c: Client, k: string) {
    k in c.pending || k in c.ready
  }

  lemma {:induction false} WaitStep(c: Client, l: Label, k: string)
    requires Placed(c) && Owned(c) && Dated(c) && Enabled(c, l) && Calling(Next(c, l), k)
    ensures IsAnswer(k)(l) ==> WaitsLive(Next(c, l), k)
    ensures l.Drop? || IsAsk(k)(l) ==> !WaitsLive(Next(c, l), k)
    ensures !IsAnswer(k)(l) && !l.Drop? && !IsAsk(k)(l) ==>
              Calling(c, k) && (WaitsLive(Next(c, l), k) <==> WaitsLive(c, k))
    ensures l.Drop? ==> Calling(c, k)
  {
    hide Next, Enabled;
    ReadyStep(c, l, k);
    SetsStep(c, l);
    HistoryStep(c, l);
    StaysConnected(c, l);
    ReleasedStep(c, l, "");
    if l.Grant? {
      GrantIsFresh(c, l);
      PlacedFrame(c, l.frame);
    }
    if k in c.ready {
      assert k !in c.pending && c.ready[k].1.epoch <= c.epoch;
      if l != Insert(k) && l != Abandon(k) {
        ReadyKept(c, l, k);
      }
    }
  }

  /** An answer comes after its question, and a resubscription after its insert. */
  lemma {:induction false} AnswersComeLater(states: seq<Client>, labels: seq<Label>, i: nat, k: string)
    requires Run(states, labels) && i <= |labels|
    ensures k !in states[i].asked ==> !Since(labels, i, IsAnswer(k), IsDrop())
    ensures k !in states[i].inserted ==> !Since(labels, i, IsRegrant(k), IsDrop())
  {
    hide Next, Since, Placed, Owned, Inverse, Unshared, Resuming;
    if i == 0 {
      SinceNever(labels, IsAnswer(k), IsDrop());
      SinceNever(labels, IsRegrant(k), IsDrop());
    } else {
      var c, l := states[i - 1], labels[i - 1];
      assert Enabled(c, l) && states[i] == Next(c, l);
      InvariantHolds(states, labels, i - 1);
      AnswersComeLater(states, labels, i - 1, k);
      HistoryStep(c, l);
      SetsStep(c, l);
      SinceStep(labels, i - 1, IsAnswer(k), IsDrop());
      SinceStep(labels, i - 1, IsRegrant(k), IsDrop());
      if l.Grant? {
        FrameIsKnown(c, l.frame);
      }
    }
  }

  lemma SinceNever(labels: seq<Label>, hit: Label -> bool, reset: Label -> bool)
    ensures !Since(labels, 0, hit, reset)
  {
  }

  lemma FrameIsKnown(c: Client, f: Frame)
    requires Placed(c) && f in c.sent
    ensures f.stable in c.asked && (f.Resubscribe? ==> f.stable in c.inserted)
    ensures f.Subscribe? ==> f.stable !in c.inserted && f.stable !in c.reg.byStable
  {
    PlacedFrame(c, f);
  }

  /** For a call under way: its answer is waiting on the live connection exactly when that connection gave it. */
  lemma {:induction false} WaitsIff(states: seq<Client>, labels: seq<Label>, i: nat, k: string)
    requires Run(states, labels) && i <= |labels| && Calling(states[i], k)
    ensures WaitsLive(states[i], k) <==> Since(labels, i, IsAnswer(k), IsDrop())
  {
    hide Next, Placed, Owned, Inverse, Unshared, Resuming, Since, Dated, WaitsLive;
    var c, l := states[i - 1], labels[i - 1];
    assert Enabled(c, l) && states[i] == Next(c, l);
    InvariantHolds(states, labels, i - 1);
    DatedHolds(states, labels, i - 1);
    WaitStep(c, l, k);
    SinceStep(labels, i - 1, IsAnswer(k), IsDrop());
    if IsAsk(k)(l) {
      AnswersComeLater(states, labels, i - 1, k);
    } else if !IsAnswer(k)(l) && !l.Drop? {
      WaitsIff(states, labels, i - 1, k);
    }
  }

  lemma {:induction false} PresentIff(states: seq<Client>, labels: seq<Label>, i: nat, k: string)
    requires Run(states, labels) && i <= |labels|
    ensures k in states[i].reg.byStable <==> Since(labels, i, IsInsert(k), IsUnsubscribe(k))
  {
    hide Next, Since;
    if i == 0 {
      SinceNever(labels, IsInsert(k), IsUnsubscribe(k));
    } else {
      assert Enabled(states[i - 1], labels[i - 1]) && states[i] == Next(states[i - 1], labels[i - 1]);
      PresentIff(states, labels, i - 1, k);
      StepKeys(states[i - 1], labels[i - 1]);
      SinceStep(labels, i - 1, IsInsert(k), IsUnsubscribe(k));
    }
  }

  lemma {:induction false} LiveStep(c: Client, l: Label, k: string)
    requires Placed(c) && Owned(c) && Dated(c) && Enabled(c, l) && k in Next(c, l).reg.byStable
    ensures IsRegrant(k)(l) ==> BoundLive(Next(c, l), k)
    ensures l.Drop? ==> !BoundLive(Next(c, l), k)
    ensures l == Insert(k) ==> k !in c.inserted && k in c.ready && (BoundLive(Next(c, l), k) <==> WaitsLive(c, k))
    ensures !IsRegrant(k)(l) && !l.Drop? && l != Insert(k) ==>
              && k in c.reg.byStable && !IsAnswer(k)(l)
              && (BoundLive(Next(c, l), k) <==> BoundLive(c, k))
  {
    hide Next, Enabled;
    SubscriptionStep(c, l, k);
    HistoryStep(c, l);
    SetsStep(c, l);
    StaysConnected(c, l);
    ReleasedStep(c, l, "");
    if l.Grant? {
      GrantIsFresh(c, l);
      FrameIsKnown(c, l.frame);
    }
    if k in c.reg.byStable && c.reg.byStable[k].serverId.Some? {
      assert IsBound(c.reg, k, c.reg.byStable[k].serverId.value);
    }
  }

  /** A subscription holds an id of the live connection exactly when that connection answered for it. */
  lemma {:induction false} BoundLiveIff(states: seq<Client>, labels: seq<Label>, i: nat, k: string)
    requires Run(states, labels) && i <= |labels| && k in states[i].reg.byStable
    ensures BoundLive(states[i], k) <==>
            Since(labels, i, IsRegrant(k), IsDrop()) || Since(labels, i, IsAnswer(k), IsDrop())
  {
    hide Next, Placed, Owned, Inverse, Unshared, Resuming, Since, Dated, WaitsLive, BoundLive;
    var c, l := states[i - 1], labels[i - 1];
    assert Enabled(c, l) && states[i] == Next(c, l);
    InvariantHolds(states, labels, i - 1);
    DatedHolds(states, labels, i - 1);
    LiveStep(c, l, k);
    SinceStep(labels, i - 1, IsAnswer(k), IsDrop());
    SinceStep(labels, i - 1, IsRegrant(k), IsDrop());
    if l == Insert(k) {
      AnswersComeLater(states, labels, i - 1, k);
      WaitsIff(states, labels, i - 1, k);
    } else if !IsRegrant(k)(l) && !l.Drop? {
      BoundLiveIff(states, labels, i - 1, k);
    }
  }

  lemma {:induction false} ForgetsIff(states: seq<Client>, labels: seq<Label>, i: nat)
    requires Run(states, labels) && i < |labels|
    ensures Forgets(states[i], labels[i]) <==> Lost(labels, i)
  {
    hide Next, Since, WaitsLive;
    var c, l := states[i], labels[i];
    assert Enabled(c, l);
    match l {
      case Grant(f, _) =>
        if f.Resubscribe? {
          GoneIff(states, labels, i, f);
        } else {
          OwnerIff(states, labels, i, f);
        }
      case Abandon(k) => WaitsIff(states, labels, i, k);
      case Unsubscribe(k, _) =>
        PresentIff(states, labels, i, k);
        if k in c.reg.byStable {
          BoundLiveIff(states, labels, i, k);
        }
      case _ =>
    }
  }

  lemma {:induction false} AccountedAt(states: seq<Client>, labels: seq<Label>, i: nat)
    requires Run(states, labels) && i < |labels| && Accounted(states[i])
    ensures Accounted(states[i + 1]) <==> !Lost(labels, i)
  {
    hide Next, Accounted, Dated, Placed, Owned, Inverse, Unshared, Resuming, Forgets, Lost;
    InvariantHolds(states, labels, i);
    DatedHolds(states, labels, i);
    assert Enabled(states[i], labels[i]) && states[i + 1] == Next(states[i], labels[i]);
    AccountedStepIff(states[i], labels[i]);
    ForgetsIff(states, labels, i);
  }

  /** Every id the server issued is accounted for throughout a run if and only if no step of it loses one. */
  lemma {:induction false} NothingForgottenIff(states: seq<Client>, labels: seq<Label>)
    requires Run(states, labels)
    ensures (forall i :: 0 <= i <= |labels| ==> Accounted(states[i])) <==>
            (forall i :: 0 <= i < |labels| ==> !Lost(labels, i))
  {
    hide Accounted, Lost;
    if forall i :: 0 <= i <= |labels| ==> Accounted(states[i]) {
      forall i | 0 <= i < |labels| ensures !Lost(labels, i) {
        AccountedAt(states, labels, i);
      }
    }
    if forall i :: 0 <= i < |labels| ==> !Lost(labels, i) {
      StartDated();
      var n := 0;
      while n < |labels|
        invariant n <= |labels|
        invariant forall i :: 0 <= i <= n ==> Accounted(states[i])
      {
        AccountedAt(states, labels, n);
        n := n + 1;
      }
    }
  }
}
