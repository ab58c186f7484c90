/** What request/reply guarantees over whole runs, and exactly when. */
module ReplyGuarantees {
  import opened Sequences
  import opened RequestReply

  // ----- What a request returns, in every interleaving -----

  function IsReply(p: nat, x: Payload): Label -> bool {
    (l: Label) => l == BeginReply(p, x)
  }

  function IsReplyOf(p: nat): Label -> bool {
    (l: Label) => l.BeginReply? && l.p == p
  }

  function IsStart(q: nat, x: Payload): Label -> bool {
    (l: Label) => l.Start? && l.r == q && l.payload == x
  }

  function IsStartOf(q: nat): Label -> bool {
    (l: Label) => l.Start? && l.r == q
  }

  function IsRewrite(src: Source, x: Payload): Label -> bool {
    (l: Label) => l == Rewrite(src, x)
  }

  function IsRewriteOf(src: Source): Label -> bool {
    (l: Label) => l.Rewrite? && l.source == src
  }

  /** Where a payload comes from, read off the run: it is what the replier was given, or what the request was called
      with, or the last thing an interceptor made of it. */
  ghost predicate ComesFrom(labels: seq<Label>, i: nat, src: Source, x: Payload, rewritten: bool) {
    if rewritten then Since(labels, i, IsRewrite(src, x), IsRewriteOf(src))
    else
      match src
      case Handler(p) => Since(labels, i, IsReply(p, x), IsReplyOf(p))
      case Requester(q) => Since(labels, i, IsStart(q, x), IsStartOf(q))
  }

  /** The step is about something else than the payload of `src`. */
  predicate Unrelated(l: Label, src: Source) {
    && !IsRewriteOf(src)(l)
    && (src.Handler? ==> !IsReplyOf(src.replier)(l))
    && (src.Requester? ==> !IsStartOf(src.request)(l))
  }

  lemma {:induction false} OriginStays(labels: seq<Label>, i: nat, src: Source, x: Payload, rewritten: bool)
    requires i < |labels| && Unrelated(labels[i], src) && ComesFrom(labels, i, src, x, rewritten)
    ensures ComesFrom(labels, i + 1, src, x, rewritten)
  {
    hide Since;
    SinceStep(labels, i, IsRewrite(src, x), IsRewriteOf(src));
    match src {
      case Handler(p) => SinceStep(labels, i, IsReply(p, x), IsReplyOf(p));
      case Requester(q) => SinceStep(labels, i, IsStart(q, x), IsStartOf(q));
    }
  }

  lemma {:induction false} RequestPayload(states: seq<Bus>, labels: seq<Label>, i: nat, q: nat)
    requires Run(states, labels) && i <= |labels| && q in states[i].requests
    ensures Since(labels, i, IsStart(q, states[i].requests[q].payload), IsStartOf(q))
    decreases i
  {
    hide Next, Enabled, Since;
    assert i > 0;
    var b, l := states[i - 1], labels[i - 1];
    assert Enabled(b, l) && states[i] == Next(b, l);
    SinceStep(labels, i - 1, IsStart(q, states[i].requests[q].payload), IsStartOf(q));
    if l.Start? && l.r == q {
      StartIs(b, l);
    } else {
      RequestsKept(b, l, q);
      RequestPayload(states, labels, i - 1, q);
    }
  }

  lemma {:induction false} FlightPayload(b: Bus, l: Label, src: Source)
    requires Enabled(b, l) && src in Next(b, l).flights
    ensures var f := Next(b, l).flights[src];
            || (IsRewriteOf(src)(l) && f.rewritten && f.payload == l.payload)
            || (src.Handler? && IsReplyOf(src.replier)(l) && !f.rewritten && f.payload == l.payload)
            || (l.BeginRequest? && src == Requester(l.r) && l.r in b.requests && !f.rewritten
                && f.payload == b.requests[l.r].payload)
            || (src in b.flights && f.payload == b.flights[src].payload && f.rewritten == b.flights[src].rewritten
                && !IsRewriteOf(src)(l) && !(src.Handler? && IsReplyOf(src.replier)(l)))
  {
    hide SendersGone, Sent;
  }

  /** What is being published is what was handed in, or what an interceptor made of it. */
  lemma {:induction false} FlightOrigin(states: seq<Bus>, labels: seq<Label>, i: nat, src: Source)
    requires Run(states, labels) && i <= |labels| && src in states[i].flights
    ensures ComesFrom(labels, i, src, states[i].flights[src].payload, states[i].flights[src].rewritten)
    decreases i
  {
    hide Next, Enabled, Since;
    assert i > 0;
    var b, l := states[i - 1], labels[i - 1];
    assert Enabled(b, l) && states[i] == Next(b, l);
    var f := states[i].flights[src];
    FlightPayload(b, l, src);
    SinceStep(labels, i - 1, IsRewrite(src, f.payload), IsRewriteOf(src));
    if src.Handler? {
      SinceStep(labels, i - 1, IsReply(src.replier, f.payload), IsReplyOf(src.replier));
    }
    if l.BeginRequest? && src == Requester(l.r) {
      BegunRequest(b, l);
      RequestPayload(states, labels, i, l.r);
    } else if src in b.flights && Unrelated(l, src) {
      FlightOrigin(states, labels, i - 1, src);
      OriginStays(labels, i - 1, src, f.payload, f.rewritten);
    } else if src in b.flights && src.Requester? && IsStartOf(src.request)(l) {
      NoFlightBeforeStart(states, labels, i - 1, src.request);
    }
  }

  lemma {:induction false} BegunRequest(b: Bus, l: Label)
    requires Enabled(b, l) && l.BeginRequest?
    ensures Requester(l.r) !in b.flights
    ensures l.r in b.requests && l.r in Next(b, l).requests
    ensures Next(b, l).requests[l.r].payload == b.requests[l.r].payload
  {
  }

  /** A request that has not started publishes nothing. */
  lemma {:induction false} NoFlightBeforeStart(states: seq<Bus>, labels: seq<Label>, i: nat, q: nat)
    requires Run(states, labels) && i < |labels| && IsStartOf(q)(labels[i])
    ensures Requester(q) !in states[i].flights
  {
    hide Next, Traced, FirstWins, Faithful, OneShot;
    InvariantHolds(states, labels, i);
    assert Enabled(states[i], labels[i]);
    assert Requester(q) in states[i].flights ==>
           SpeaksOn(states[i], Requester(q), states[i].flights[Requester(q)].subject);
  }

  /** A source that has been heard is silent from then on. */
  ghost predicate Spent(b: Bus, src: Source) {
    && src !in b.flights
    && match src
       case Handler(p) => p in b.repliers && b.repliers[p].replied
       case Requester(q) => q in b.requests && !b.requests[q].phase.Subscribed?
  }

  lemma {:induction false} SpentStays(b: Bus, l: Label, src: Source)
    requires Enabled(b, l) && Spent(b, src)
    ensures Spent(Next(b, l), src) && Unrelated(l, src)
  {
    hide SendersGone, Sent;
  }

  lemma {:induction false} SendSpends(b: Bus, l: Label)
    requires Enabled(b, l) && l.Send? && Aimed(b)
    ensures l.source in b.flights && Spent(Next(b, l), l.source) && Unrelated(l, l.source)
  {
    hide SendersGone, Sent, Reaches, AimedAt;
    assert SpeaksOn(b, l.source, b.flights[l.source].subject);
  }

  /** A source that was sent, or vanished on the way, is heard no more: it reaches nobody after that. */
  lemma {:induction false} PublishedOnce(states: seq<Bus>, labels: seq<Label>, i: nat, j: nat, src: Source)
    requires Run(states, labels) && i < j < |labels| && (labels[i] == Send(src) || labels[i] == Vanish(src))
    ensures labels[j] != Send(src) && labels[j] != Vanish(src) && labels[j] != Grab(src) && labels[j] != Resolve(src)
  {
    hide Next, OneShot, Faithful, Traced, FirstWins, Aimed, Spent;
    assert Enabled(states[i], labels[i]) && states[i + 1] == Next(states[i], labels[i]);
    assert Enabled(states[j], labels[j]);
    InvariantHolds(states, labels, i);
    EndedIsSpent(states[i], labels[i], src);
    SpentLater(states, labels, i + 1, j, src);
    assert src !in states[j].flights by { SpentIsSilent(states[j], src); }
  }

  lemma {:induction false} EndedIsSpent(b: Bus, l: Label, src: Source)
    requires Enabled(b, l) && Aimed(b) && (l == Send(src) || l == Vanish(src))
    ensures Spent(Next(b, l), src)
  {
    hide SendersGone, Sent, Reaches, AimedAt;
    assert SpeaksOn(b, src, b.flights[src].subject);
  }

  lemma SpentIsSilent(b: Bus, src: Source)
    requires Spent(b, src)
    ensures src !in b.flights
  {
  }

  lemma {:induction false} SpentLater(states: seq<Bus>, labels: seq<Label>, i: nat, j: nat, src: Source)
    requires Run(states, labels) && i <= j <= |labels| && Spent(states[i], src)
    ensures Spent(states[j], src)
    decreases j
  {
    hide Next, Enabled, Spent;
    if i < j {
      SpentLater(states, labels, i, j - 1, src);
      assert Enabled(states[j - 1], labels[j - 1]) && states[j] == Next(states[j - 1], labels[j - 1]);
      SpentStays(states[j - 1], labels[j - 1], src);
    }
  }

  /** What reached a channel is what was handed in by its source, or what an interceptor made of it. */
  lemma {:induction false} ArrivalOrigin(states: seq<Bus>, labels: seq<Label>, i: nat, r: nat, k: nat)
    requires Run(states, labels) && i <= |labels| && HasChannel(states[i], r)
    requires k < |ChannelOf(states[i], r).arrivals|
    ensures var a := ChannelOf(states[i], r).arrivals[k];
            ComesFrom(labels, i, a.source, a.payload, a.rewritten) && Spent(states[i], a.source)
    decreases i
  {
    hide Next, Enabled, ComesFrom, Spent, Unrelated, OneShot, Faithful, Traced, FirstWins, Aimed;
    assert i > 0;
    var b, l := states[i - 1], labels[i - 1];
    assert Enabled(b, l) && states[i] == Next(b, l);
    InvariantHolds(states, labels, i - 1);
    ArrivalsStep(b, l, r);
    var a := ChannelOf(states[i], r).arrivals[k];
    if k < |ChannelOf(b, r).arrivals| {
      ArrivalOrigin(states, labels, i - 1, r, k);
      SpentStays(b, l, a.source);
    } else {
      SendSpends(b, l);
      FlightOrigin(states, labels, i - 1, a.source);
    }
    OriginStays(labels, i - 1, a.source, a.payload, a.rewritten);
  }

  ghost predicate Answered(b: Bus, r: nat) {
    r in b.requests && b.requests[r].phase.Done? && b.requests[r].phase.outcome.Reply?
  }

  /** A request that returns a payload returns the first one delivered to its channel, and that was published on
      its own reply subject: by a replier made from its own event, which was given that very payload, or by another
      request addressed there, which was called with it; unless an interceptor put it there last. */
  lemma {:induction false} FirstDeliveryWins(states: seq<Bus>, labels: seq<Label>, i: nat, r: nat)
    requires Run(states, labels) && i <= |labels| && Answered(states[i], r)
    ensures var b := states[i];
            && HasChannel(b, r) && ChannelOf(b, r).arrivals != []
            && var first := ChannelOf(b, r).arrivals[0];
               && first.payload == b.requests[r].phase.outcome.payload
               && ComesFrom(labels, i, first.source, first.payload, first.rewritten)
               && match first.source
                  case Handler(p) => p in b.repliers && b.repliers[p].origin == r
                  case Requester(q) => q in b.requests && b.requests[q].subject == b.requests[r].replySubject
  {
    hide Next, Enabled, Aimed;
    InvariantHolds(states, labels, i);
    var b := states[i];
    OwnsChannel(b, r);
    assert FirstWinsFor(b.requests[r].phase, ChannelOf(b, r));
    assert TracedTo(b, b.requests[r].replySubject, ChannelOf(b, r).arrivals);
    ArrivalOrigin(states, labels, i, r, 0);
    var first := ChannelOf(b, r).arrivals[0];
    assert SpeaksOn(b, first.source, b.requests[r].replySubject);
    if first.source.Handler? {
      SubjectIdentifies(b, r, b.repliers[first.source.replier].origin);
    }
  }

  /** The reply subject identifies the request. */
  lemma {:induction false} SubjectIdentifies(b: Bus, r: nat, o: nat)
    requires OneShot(b) && r in b.requests && o in b.requests
    requires b.requests[r].replySubject == b.requests[o].replySubject
    ensures r == o
  {
    assert !Distinct(b.requests[r], b.requests[o]);
  }

  /** The request returned what some replier made from its own event published. */
  ghost predicate OwnReply(b: Bus, r: nat)
    requires HasChannel(b, r) && ChannelOf(b, r).arrivals != []
  {
    var first := ChannelOf(b, r).arrivals[0];
    && first.source.Handler? && !first.rewritten
    && first.source.replier in b.repliers && b.repliers[first.source.replier].origin == r
  }

  /** The request's empty channel is sent the payload of another request, or what an interceptor made up. */
  ghost predicate Stolen(b: Bus, l: Label, r: nat) {
    && l.Send? && HasChannel(b, r) && ChannelOf(b, r).arrivals == []
    && Grabbed(b, l.source, b.requests[r].subscription)
    && (l.source.Requester? || b.flights[l.source].rewritten)
  }

  /** Where the first arrival came from. */
  lemma {:induction false} FirstArrival(states: seq<Bus>, labels: seq<Label>, i: nat, r: nat)
    requires Run(states, labels) && i <= |labels| && HasChannel(states[i], r) && ChannelOf(states[i], r).arrivals != []
    ensures var first := ChannelOf(states[i], r).arrivals[0];
            (exists j :: 0 <= j < i && Stolen(states[j], labels[j], r)) <==> first.source.Requester? || first.rewritten
    decreases i
  {
    hide Next, Enabled, Invariant, OneShot, Aimed, Faithful, Traced, FirstWins;
    assert i > 0;
    var b, l := states[i - 1], labels[i - 1];
    assert Enabled(b, l) && states[i] == Next(b, l);
    assert OneShot(b) by { InvariantAt(states, labels, i - 1); }
    ArrivalsStep(b, l, r);
    RequestsKept(b, l, r);
    if ChannelOf(b, r).arrivals != [] {
      FirstArrival(states, labels, i - 1, r);
    } else {
      NotYetStolen(states, labels, i - 1, r);
    }
  }

  lemma {:induction false} InvariantAt(states: seq<Bus>, labels: seq<Label>, i: nat)
    requires Run(states, labels) && i <= |labels|
    ensures OneShot(states[i])
  {
    hide Next, Enabled, OneShot, Aimed, Faithful, Traced, FirstWins;
    InvariantHolds(states, labels, i);
  }

  /** An empty channel has never been sent anything. */
  lemma {:induction false} NotYetStolen(states: seq<Bus>, labels: seq<Label>, i: nat, r: nat)
    requires Run(states, labels) && i <= |labels| && HasChannel(states[i], r) && ChannelOf(states[i], r).arrivals == []
    ensures forall j :: 0 <= j < i ==> !Stolen(states[j], labels[j], r)
    decreases i
  {
    hide Next, Enabled, OneShot, ArrivalOf;
    if i > 0 {
      var b, l := states[i - 1], labels[i - 1];
      assert Enabled(b, l) && states[i] == Next(b, l);
      InvariantAt(states, labels, i - 1);
      ArrivalsStep(b, l, r);
      if l.Start? && l.r == r {
        NotYetThere(states, labels, i - 1, r);
      } else {
        RequestsKept(b, l, r);
        NotYetStolen(states, labels, i - 1, r);
      }
    }
  }

  lemma {:induction false} NotYetThere(states: seq<Bus>, labels: seq<Label>, i: nat, r: nat)
    requires Run(states, labels) && i < |labels| && labels[i].Start? && labels[i].r == r
    ensures forall j :: 0 <= j <= i ==> r !in states[j].requests
  {
    hide Next;
    assert Enabled(states[i], labels[i]);
    forall j | 0 <= j <= i ensures r !in states[j].requests {
      if r in states[j].requests {
        RequestsStay(states, labels, j, i, r);
      }
    }
  }

  lemma {:induction false} RequestsStay(states: seq<Bus>, labels: seq<Label>, j: nat, i: nat, r: nat)
    requires Run(states, labels) && j <= i <= |labels| && r in states[j].requests
    ensures r in states[i].requests && states[i].requests[r].subscription == states[j].requests[r].subscription
    ensures states[i].requests[r].replySubject == states[j].requests[r].replySubject
    decreases i
  {
    hide Next, Enabled;
    if j < i {
      RequestsStay(states, labels, j, i - 1, r);
      assert Enabled(states[i - 1], labels[i - 1]) && states[i] == Next(states[i - 1], labels[i - 1]);
      RequestStays(states[i - 1], labels[i - 1], r);
    }
  }

  /** Requests cross exactly when something else is delivered first: a request that returns a payload returns
      that of a replier made from its own event if and only if no request addressed to its reply subject, and no
      interceptor's invention, was delivered to it while its channel was empty. */
  lemma {:induction false} RepliesNeverCrossIff(states: seq<Bus>, labels: seq<Label>, i: nat, r: nat)
    requires Run(states, labels) && i <= |labels| && Answered(states[i], r)
    ensures HasChannel(states[i], r) && ChannelOf(states[i], r).arrivals != []
    ensures OwnReply(states[i], r) <==> forall j :: 0 <= j < i ==> !Stolen(states[j], labels[j], r)
    ensures OwnReply(states[i], r) ==>
              var p := ChannelOf(states[i], r).arrivals[0].source.replier;
              exists j: nat :: j < i && labels[j] == BeginReply(p, states[i].requests[r].phase.outcome.payload)
  {
    hide Next, Enabled;
    FirstDeliveryWins(states, labels, i, r);
    FirstArrival(states, labels, i, r);
  }

  // ----- How a call ends -----

  /** The step that gives the call of `r` its outcome, and the outcome it gives. */
  predicate Ends(l: Label, r: nat, o: Outcome) {
    match l
    case PublishFailed(q) => q == r && o == PublishError
    case Receive(q) => q == r && o.Reply?
    case Expire(q) => q == r && o == Timeout
    case FindClosed(q) => q == r && o == ReplyChannelClosed
    case _ => false
  }

  lemma {:induction false} EndStep(b: Bus, l: Label, r: nat)
    requires Enabled(b, l) && r in Next(b, l).requests
    ensures var now := Next(b, l).requests[r].phase;
            && (l.Start? && l.r == r ==> Pending(Next(b, l).requests[r]))
            && (!(l.Start? && l.r == r) ==>
                  && r in b.requests
                  && (now.Closing? && Pending(b.requests[r]) ==> Ends(l, r, now.outcome))
                  && (!Pending(b.requests[r]) ==> forall o :: !Ends(l, r, o))
                  && (now.Closing? && !Pending(b.requests[r]) ==> b.requests[r].phase == now)
                  && (now.Done? ==> b.requests[r].phase == now || b.requests[r].phase == Closing(now.outcome))
                  && (Pending(Next(b, l).requests[r]) ==> Pending(b.requests[r]) && forall o :: !Ends(l, r, o)))
  {
    hide SendersGone, Sent;
  }

  /** A call that has no outcome has had no ending step; one that has an outcome got it from the one ending step it
      had: a failed publish, an event received, the timer, or a closed channel. */
  lemma {:induction false} OutcomeIsExplained(states: seq<Bus>, labels: seq<Label>, i: nat, r: nat)
    requires Run(states, labels) && i <= |labels| && r in states[i].requests
    ensures var q := states[i].requests[r];
            && (Pending(q) ==> forall j, o :: 0 <= j < i ==> !Ends(labels[j], r, o))
            && (q.phase.Closing? || q.phase.Done? ==>
                  && (exists j :: 0 <= j < i && Ends(labels[j], r, q.phase.outcome))
                  && (forall j, o :: 0 <= j < i && Ends(labels[j], r, o) ==> Ends(labels[j], r, q.phase.outcome)))
    decreases i
  {
    hide Next, Enabled, Ends, Pending;
    assert i > 0;
    var b, l := states[i - 1], labels[i - 1];
    assert Enabled(b, l) && states[i] == Next(b, l);
    EndStep(b, l, r);
    if l.Start? && l.r == r {
      PendingIsOpen(states[i].requests[r]);
      NothingEndsBefore(states, labels, i - 1, r);
      StartEndsNothing(l, r);
    } else {
      PendingIsOpen(b.requests[r]);
      PendingIsOpen(states[i].requests[r]);
      OutcomeIsExplained(states, labels, i - 1, r);
    }
  }

  lemma PendingIsOpen(q: Request)
    ensures Pending(q) ==> !q.phase.Closing? && !q.phase.Done?
  {
  }

  lemma StartEndsNothing(l: Label, r: nat)
    requires l.Start?
    ensures forall o :: !Ends(l, r, o)
  {
  }

  lemma {:induction false} NothingEndsBefore(states: seq<Bus>, labels: seq<Label>, i: nat, r: nat)
    requires Run(states, labels) && i < |labels| && labels[i].Start? && labels[i].r == r
    ensures forall j, o :: 0 <= j < i ==> !Ends(labels[j], r, o)
  {
    hide Next;
    NotYetThere(states, labels, i, r);
    forall j, o | 0 <= j < i ensures !Ends(labels[j], r, o) {
      assert Enabled(states[j], labels[j]) && r !in states[j].requests;
    }
  }

  /** A waiting call can always end, and only in one way: with what is in its channel, or, when that is empty, as
      closed if no sender is left and by its timer otherwise. */
  lemma {:induction false} WaitingEndsOneWay(states: seq<Bus>, labels: seq<Label>, i: nat, r: nat)
    requires Run(states, labels) && i <= |labels| && InPhase(states[i], r, Waiting)
    ensures var b := states[i];
            && HasChannel(b, r)
            && (Enabled(b, Receive(r)) <==> ChannelOf(b, r).arrivals != [])
            && (Enabled(b, FindClosed(r)) <==>
                  ChannelOf(b, r).arrivals == [] && SendersGone(b, b.requests[r].subscription))
            && (Enabled(b, Expire(r)) <==>
                  ChannelOf(b, r).arrivals == [] && !SendersGone(b, b.requests[r].subscription))
            && (Enabled(b, Receive(r)) ==>
                  Next(b, Receive(r)).requests[r].phase == Closing(Reply(ChannelOf(b, r).arrivals[0].payload)))
  {
    hide SendersGone, Aimed, Traced, Faithful;
    InvariantHolds(states, labels, i);
    OwnsChannel(states[i], r);
    assert FirstWinsFor(states[i].requests[r].phase, ChannelOf(states[i], r));
  }

  // ----- The test that keeps requests apart -----

  /** Every request passes a test on its subject before it is published. */
  ghost predicate Gated(labels: seq<Label>, allowed: Subject -> bool) {
    forall i :: 0 <= i < |labels| && labels[i].Start? ==> allowed(labels[i].subject)
  }

  ghost predicate Unintercepted(labels: seq<Label>) {
    forall i :: 0 <= i < |labels| ==> !labels[i].Rewrite?
  }

  ghost predicate Crossed(b: Bus, r: nat) {
    Answered(b, r) && HasChannel(b, r) && ChannelOf(b, r).arrivals != [] && !OwnReply(b, r)
  }

  /** What such a test and the absence of rewriting interceptors mean for a state. */
  ghost predicate Clean(b: Bus, allowed: Subject -> bool) {
    && (forall q :: q in b.requests ==> allowed(b.requests[q].subject))
    && (forall src :: src in b.flights ==> !b.flights[src].rewritten)
  }

  lemma {:induction false} CleanStep(b: Bus, l: Label, allowed: Subject -> bool)
    requires Enabled(b, l) && Clean(b, allowed) && !l.Rewrite? && (l.Start? ==> allowed(l.subject))
    ensures Clean(Next(b, l), allowed)
  {
    hide Next, Enabled;
    var b' := Next(b, l);
    forall q | q in b'.requests ensures allowed(b'.requests[q].subject) {
      if l.Start? && l.r == q {
        StartIs(b, l);
      } else {
        RequestsKept(b, l, q);
      }
    }
    forall src | src in b'.flights ensures !b'.flights[src].rewritten {
      if b'.flights[src].rewritten {
        OnlyInterceptorsRewrite(b, l, src);
      }
    }
  }

  lemma {:induction false} OnlyInterceptorsRewrite(b: Bus, l: Label, src: Source)
    requires Enabled(b, l) && !l.Rewrite? && src in Next(b, l).flights && Next(b, l).flights[src].rewritten
    ensures src in b.flights && b.flights[src].rewritten
  {
    hide SendersGone, Sent;
  }

  lemma {:induction false} CleanHolds(states: seq<Bus>, labels: seq<Label>, i: nat, allowed: Subject -> bool)
    requires Run(states, labels) && i <= |labels| && Gated(labels, allowed) && Unintercepted(labels)
    ensures Clean(states[i], allowed)
  {
    hide Next, Enabled;
    if i > 0 {
      CleanHolds(states, labels, i - 1, allowed);
      assert Enabled(states[i - 1], labels[i - 1]) && states[i] == Next(states[i - 1], labels[i - 1]);
      CleanStep(states[i - 1], labels[i - 1], allowed);
    }
  }

  /** A request can only be robbed by a request addressed to a reserved subject. */
  lemma {:induction false} ThiefIsReserved(states: seq<Bus>, labels: seq<Label>, j: nat, r: nat)
    requires Run(states, labels) && j < |labels| && Stolen(states[j], labels[j], r)
    ensures var src := labels[j].source;
            || (src in states[j].flights && states[j].flights[src].rewritten)
            || (src.Requester? && src.request in states[j].requests
                && RESERVED <= states[j].requests[src.request].subject)
  {
    hide Next, Enabled, Traced, FirstWins, Faithful;
    InvariantHolds(states, labels, j);
    var b, src := states[j], labels[j].source;
    GrabbedReaches(b, src, b.requests[r].subscription);
    assert OwnsSubscription(b, b.requests[r]);
    assert AimedAt(b.flights[src], b.requests[r]) && SpeaksOn(b, src, b.flights[src].subject);
  }

  lemma {:induction false} GateSuffices(
      states: seq<Bus>, labels: seq<Label>, allowed: Subject -> bool, r: nat)
    requires Run(states, labels) && Gated(labels, allowed) && Unintercepted(labels)
    requires forall s :: RESERVED <= s ==> !allowed(s)
    ensures !Crossed(states[|labels|], r)
  {
    hide Next, Enabled, Stolen, OwnReply;
    if Crossed(states[|labels|], r) {
      RepliesNeverCrossIff(states, labels, |labels|, r);
      var j :| 0 <= j < |labels| && Stolen(states[j], labels[j], r);
      ThiefIsReserved(states, labels, j, r);
      CleanHolds(states, labels, j, allowed);
      assert false;
    }
  }

  lemma {:induction false} PathConcat(a: seq<Bus>, la: seq<Label>, b: seq<Bus>, lb: seq<Label>)
    requires Path(a, la) && Path(b, lb) && b[0] == a[|la|]
    ensures Path(a + b[1..], la + lb) && (a + b[1..])[|la + lb|] == b[|lb|]
  {
    hide Next, Enabled;
    var states, labels := a + b[1..], la + lb;
    forall i | 0 <= i < |labels|
      ensures Enabled(states[i], labels[i]) && states[i + 1] == Next(states[i], labels[i])
    {
      if i >= |la| {
        assert states[i] == b[i - |la|] && states[i + 1] == b[i + 1 - |la|] && labels[i] == lb[i - |la|];
      }
    }
  }

  /** A waiting request whose channel is still empty. */
  ghost predicate Exposed(b: Bus, r: nat) {
    && InPhase(b, r, Waiting) && HasChannel(b, r) && b.requests[r].subscription in b.live
    && ChannelOf(b, r) == Channel(None, true, [])
    && b.live[b.requests[r].subscription] == b.requests[r].replySubject
  }

  /** The intruder `q` has published to the reply subject of `r` and looked up its subscription. */
  lemma {:induction false} IntruderResolves(b: Bus, r: nat, q: nat, x: Payload, s: Subject, sub: string)
    returns (states: seq<Bus>, labels: seq<Label>)
    requires Exposed(b, r) && q !in b.requests && Requester(q) !in b.flights
    requires RESERVED <= s && Unused(b, s, sub)
    ensures labels == [Start(q, b.requests[r].replySubject, x, s, sub), BeginRequest(q), Resolve(Requester(q))]
    ensures Path(states, labels) && states[0] == b
    ensures var b' := states[3];
            && Exposed(b', r) && b'.requests[r] == b.requests[r]
            && Requester(q) in b'.flights && b'.flights[Requester(q)].payload == x
            && b'.flights[Requester(q)].senders.None? && !b'.flights[Requester(q)].rewritten
            && b'.flights[Requester(q)].targets.Some?
            && b.requests[r].subscription in b'.flights[Requester(q)].targets.value
  {
    hide SendersGone;
    labels := [Start(q, b.requests[r].replySubject, x, s, sub), BeginRequest(q), Resolve(Requester(q))];
    var b1 := Next(b, labels[0]);
    assert Exposed(b1, r);
    var b2 := Next(b1, labels[1]);
    assert Exposed(b2, r);
    states := [b, b1, b2, Next(b2, labels[2])];
  }

  /** It is sent, and received as the reply. */
  lemma {:induction false} IntruderSends(b: Bus, r: nat, src: Source)
    returns (states: seq<Bus>, labels: seq<Label>)
    requires Exposed(b, r) && src in b.flights && b.flights[src].senders.None? && b.flights[src].targets.Some?
    requires b.requests[r].subscription in b.flights[src].targets.value
    ensures labels == [Grab(src), Send(src), Receive(r)]
    ensures Path(states, labels) && states[0] == b
    ensures var b' := states[3];
            && r in b'.requests && b'.requests[r].phase == Closing(Reply(b.flights[src].payload))
            && HasChannel(b', r)
            && ChannelOf(b', r) == Channel(None, true, [ArrivalOf(src, b.flights[src])])
  {
    hide SendersGone;
    labels := [Grab(src), Send(src), Receive(r)];
    var b1 := Next(b, labels[0]);
    assert b1.flights[src].payload == b.flights[src].payload;
    assert b.requests[r].subscription in b1.flights[src].senders.value;
    var b2 := Next(b1, labels[1]);
    assert ChannelOf(b2, r) == Channel(Some(b.flights[src].payload), true, [ArrivalOf(src, b.flights[src])]);
    states := [b, b1, b2, Next(b2, labels[2])];
  }

  lemma {:induction false} CleansUp(b: Bus, r: nat) returns (states: seq<Bus>, labels: seq<Label>)
    requires IsClosing(b, r) && HasChannel(b, r) && ChannelOf(b, r).open
    ensures labels == [DropReceiver(r), Unsubscribe(r)]
    ensures Path(states, labels) && states[0] == b
    ensures var b' := states[2];
            && r in b'.requests && b'.requests[r].phase == Done(b.requests[r].phase.outcome)
            && HasChannel(b', r) && ChannelOf(b', r).arrivals == ChannelOf(b, r).arrivals
  {
    hide SendersGone;
    labels := [DropReceiver(r), Unsubscribe(r)];
    var b1 := Next(b, labels[0]);
    states := [b, b1, Next(b1, labels[1])];
  }

  /** Whoever knows the reply subject of a waiting request can make it return any payload, by one request of its
      own: every run that has reached such a state goes on like this. */
  lemma {:induction false} AnyPayloadCanCross(
      states: seq<Bus>, labels: seq<Label>, r: nat, q: nat, x: Payload, s: Subject, sub: string)
    returns (states': seq<Bus>, labels': seq<Label>)
    requires Run(states, labels) && Exposed(states[|labels|], r)
    requires var b := states[|labels|]; q !in b.requests && RESERVED <= s && Unused(b, s, sub)
    ensures Run(states', labels')
    ensures labels' == labels + [Start(q, states[|labels|].requests[r].replySubject, x, s, sub), BeginRequest(q),
                                 Resolve(Requester(q)), Grab(Requester(q)), Send(Requester(q)), Receive(r),
                                 DropReceiver(r), Unsubscribe(r)]
    ensures var b' := states'[|labels'|];
            Crossed(b', r) && b'.requests[r].phase == Done(Reply(x))
  {
    hide Next, Enabled, Unused, Exposed;
    var b := states[|labels|];
    assert Requester(q) !in b.flights by { NoFlightYet(states, labels, q); }
    var s1, l1 := IntruderResolves(b, r, q, x, s, sub);
    var s2, l2 := IntruderSends(s1[3], r, Requester(q));
    var s3, l3 := CleansUp(s2[3], r);
    PathConcat(states, labels, s1, l1);
    PathConcat(states + s1[1..], labels + l1, s2, l2);
    PathConcat(states + s1[1..] + s2[1..], labels + l1 + l2, s3, l3);
    states', labels' := states + s1[1..] + s2[1..] + s3[1..], labels + l1 + l2 + l3;
  }

  /** The round trip: from every state with a waiting request, a handler that replies is heard, and its request
      returns what the replier was given. */
  lemma {:induction false} ReplyIsReturned(
      states: seq<Bus>, labels: seq<Label>, r: nat, p: nat, x: Payload)
    returns (states': seq<Bus>, labels': seq<Label>)
    requires Run(states, labels) && Exposed(states[|labels|], r)
    requires p !in states[|labels|].repliers
    ensures Run(states', labels')
    ensures labels' == labels + [MakeReplier(p, r), BeginReply(p, x), Resolve(Handler(p)),
                                 Grab(Handler(p)), Send(Handler(p)), Receive(r), DropReceiver(r), Unsubscribe(r)]
    ensures InPhase(states'[|labels'|], r, Done(Reply(x)))
  {
    hide Next, Enabled, Exposed;
    assert Handler(p) !in states[|labels|].flights by { NoReplyYet(states, labels, p); }
    var s1, l1 := HandlerResolves(states[|labels|], r, p, x);
    var s2, l2 := IntruderSends(s1[3], r, Handler(p));
    var s3, l3 := CleansUp(s2[3], r);
    PathConcat(states, labels, s1, l1);
    PathConcat(states + s1[1..], labels + l1, s2, l2);
    PathConcat(states + s1[1..] + s2[1..], labels + l1 + l2, s3, l3);
    states', labels' := states + s1[1..] + s2[1..] + s3[1..], labels + l1 + l2 + l3;
  }

  lemma {:induction false} HandlerResolves(b: Bus, r: nat, p: nat, x: Payload)
    returns (states: seq<Bus>, labels: seq<Label>)
    requires Exposed(b, r) && p !in b.repliers && Handler(p) !in b.flights
    ensures labels == [MakeReplier(p, r), BeginReply(p, x), Resolve(Handler(p))]
    ensures Path(states, labels) && states[0] == b
    ensures var b' := states[3];
            && Exposed(b', r) && b'.requests[r] == b.requests[r]
            && Handler(p) in b'.flights && b'.flights[Handler(p)].payload == x
            && b'.flights[Handler(p)].senders.None? && b'.flights[Handler(p)].targets.Some?
            && b.requests[r].subscription in b'.flights[Handler(p)].targets.value
  {
    hide SendersGone;
    labels := [MakeReplier(p, r), BeginReply(p, x), Resolve(Handler(p))];
    var b1 := Next(b, labels[0]);
    assert Exposed(b1, r);
    var b2 := Next(b1, labels[1]);
    assert Exposed(b2, r);
    states := [b, b1, b2, Next(b2, labels[2])];
  }

  lemma {:induction false} NoReplyYet(states: seq<Bus>, labels: seq<Label>, p: nat)
    requires Run(states, labels) && p !in states[|labels|].repliers
    ensures Handler(p) !in states[|labels|].flights
  {
    hide Next, Enabled, Traced, FirstWins, Faithful, OneShot;
    InvariantHolds(states, labels, |labels|);
    assert Handler(p) in states[|labels|].flights ==>
           SpeaksOn(states[|labels|], Handler(p), states[|labels|].flights[Handler(p)].subject);
  }

  lemma {:induction false} NoFlightYet(states: seq<Bus>, labels: seq<Label>, q: nat)
    requires Run(states, labels) && q !in states[|labels|].requests
    ensures Requester(q) !in states[|labels|].flights
  {
    hide Next, Enabled, Traced, FirstWins, Faithful, OneShot;
    InvariantHolds(states, labels, |labels|);
    assert Requester(q) in states[|labels|].flights ==>
           SpeaksOn(states[|labels|], Requester(q), states[|labels|].flights[Requester(q)].subject);
  }

  /** The bus with one request whose publication stands at `f`, or is over. */
  function Alone(t: Subject, s: Subject, p: Phase, f: Option<Flight>): Bus {
    Bus(map[0 := Request(t, [], s, "1", p)], map["1" := s], map["1" := Channel(None, true, [])], map[],
        if f.Some? then map[Requester(0) := f.value] else map[])
  }

  lemma {:induction false} AlonePublishes(t: Subject, s: Subject) returns (states: seq<Bus>, labels: seq<Label>)
    requires RESERVED <= s && t != s
    ensures labels == [Start(0, t, [], s, "1"), BeginRequest(0), Resolve(Requester(0))]
    ensures Run(states, labels)
    ensures states[3] == Alone(t, s, Publishing, Some(Flight(t, [], false, Some({}), None)))
  {
    hide SendersGone;
    labels := [Start(0, t, [], s, "1"), BeginRequest(0), Resolve(Requester(0))];
    var b1 := Alone(t, s, Subscribed, None);
    var b2 := Alone(t, s, Publishing, Some(Flight(t, [], false, None, None)));
    assert Next(IDLE, labels[0]) == b1;
    assert Next(b1, labels[1]) == b2;
    assert (set sub | sub in b2.live && b2.live[sub] == t) == {};
    states := [IDLE, b1, b2, Alone(t, s, Publishing, Some(Flight(t, [], false, Some({}), None)))];
  }

  lemma {:induction false} AloneGrabs(t: Subject, s: Subject)
    ensures var b := Alone(t, s, Publishing, Some(Flight(t, [], false, Some({}), None)));
            && Enabled(b, Grab(Requester(0)))
            && Next(b, Grab(Requester(0))) == Alone(t, s, Publishing, Some(Flight(t, [], false, Some({}), Some({}))))
  {
    hide SendersGone;
    var b := Alone(t, s, Publishing, Some(Flight(t, [], false, Some({}), None)));
    assert (set sub | sub in b.flights[Requester(0)].targets.value && sub in b.live) == {};
  }

  lemma {:induction false} AloneSends(t: Subject, s: Subject)
    ensures var b := Alone(t, s, Publishing, Some(Flight(t, [], false, Some({}), Some({}))));
            && Enabled(b, Send(Requester(0)))
            && Next(b, Send(Requester(0))) == Alone(t, s, Publishing, None)
  {
    var b := Alone(t, s, Publishing, Some(Flight(t, [], false, Some({}), Some({}))));
    assert Sent(b, Requester(0)) == b.channels;
    assert b.flights - {Requester(0)} == map[];
  }

  lemma {:induction false} AloneWaits(t: Subject, s: Subject) returns (states: seq<Bus>, labels: seq<Label>)
    ensures labels == [Grab(Requester(0)), Send(Requester(0)), Published(0)]
    ensures Path(states, labels)
    ensures states[0] == Alone(t, s, Publishing, Some(Flight(t, [], false, Some({}), None)))
    ensures states[3] == Alone(t, s, Waiting, None)
  {
    hide Next, Enabled, Alone;
    labels := [Grab(Requester(0)), Send(Requester(0)), Published(0)];
    AloneGrabs(t, s);
    AloneSends(t, s);
    AlonePublished(t, s);
    states := [
      Alone(t, s, Publishing, Some(Flight(t, [], false, Some({}), None))),
      Alone(t, s, Publishing, Some(Flight(t, [], false, Some({}), Some({})))),
      Alone(t, s, Publishing, None), Alone(t, s, Waiting, None)];
  }

  lemma AlonePublished(t: Subject, s: Subject)
    ensures var b := Alone(t, s, Publishing, None);
            Enabled(b, Published(0)) && Next(b, Published(0)) == Alone(t, s, Waiting, None)
  {
  }

  /** A request that nobody serves waits. */
  lemma {:induction false} FirstWaits(t: Subject, s: Subject) returns (states: seq<Bus>, labels: seq<Label>)
    requires RESERVED <= s && t != s
    ensures labels == [Start(0, t, [], s, "1"), BeginRequest(0), Resolve(Requester(0)), Grab(Requester(0)),
                       Send(Requester(0)), Published(0)]
    ensures Run(states, labels) && Exposed(states[6], 0) && states[6] == Alone(t, s, Waiting, None)
  {
    hide Next, Enabled;
    var s1, l1 := AlonePublishes(t, s);
    var s2, l2 := AloneWaits(t, s);
    PathConcat(s1, l1, s2, l2);
    states, labels := s1 + s2[1..], l1 + l2;
  }

  /** A run in which a request returns the payload of another request, with no replier at all. */
  lemma {:induction false} CrossingRun(t: Subject, s: Subject, x: Payload)
    returns (states: seq<Bus>, labels: seq<Label>)
    requires RESERVED <= s && t != s
    ensures Run(states, labels) && Unintercepted(labels)
    ensures forall i :: 0 <= i < |labels| ==>
              !labels[i].MakeReplier? && (labels[i].Start? ==> labels[i].subject == s || labels[i].subject == t)
    ensures Crossed(states[|labels|], 0) && states[|labels|].requests[0].phase == Done(Reply(x))
  {
    hide Next, Enabled, Exposed, Crossed, Run;
    states, labels := FirstWaits(t, s);
    var other := s + t + "x";
    assert |other| > |s| && |other| > |t|;
    states, labels := AnyPayloadCanCross(states, labels, 0, 1, x, other, "2");
  }

  /** A test on the subjects of requests keeps every request from returning another's payload, in every run without
      rewriting interceptors, if and only if it refuses all reserved subjects, as `publish` does. */
  lemma {:induction false} GateIff(allowed: Subject -> bool, ordinary: Subject)
    requires allowed(ordinary) && !("_reply." <= ordinary)
    ensures (forall states, labels, r: nat ::
               Run(states, labels) && Gated(labels, allowed) && Unintercepted(labels) ==>
                 !Crossed(states[|labels|], r))
            <==> forall s: Subject :: "_reply." <= s ==> !allowed(s)
  {
    hide Crossed, Next, Enabled, Unintercepted;
    if forall s :: RESERVED <= s ==> !allowed(s) {
      forall states, labels, r: nat | Run(states, labels) && Gated(labels, allowed) && Unintercepted(labels)
        ensures !Crossed(states[|labels|], r)
      {
        GateSuffices(states, labels, allowed, r);
      }
    } else {
      var s :| RESERVED <= s && allowed(s);
      var states, labels := CrossingRun(ordinary, s, []);
      assert Gated(labels, allowed);
    }
  }

  // ----- Closed channels and subscriptions left behind -----

  ghost predicate RemovedBefore(labels: seq<Label>, i: nat, sub: string) {
    exists j: nat :: j < i <= |labels| && labels[j] == Remove(sub)
  }

  lemma {:induction false} RemovedStep(labels: seq<Label>, i: nat, sub: string)
    requires i < |labels|
    ensures RemovedBefore(labels, i + 1, sub) <==> RemovedBefore(labels, i, sub) || labels[i] == Remove(sub)
  {
  }

  lemma {:induction false} ChannelsGrow(states: seq<Bus>, labels: seq<Label>, j: nat, i: nat)
    requires Run(states, labels) && j <= i <= |labels|
    ensures states[j].channels.Keys <= states[i].channels.Keys
    decreases i
  {
    hide Next, Enabled;
    if j < i {
      ChannelsGrow(states, labels, j, i - 1);
      assert Enabled(states[i - 1], labels[i - 1]) && states[i] == Next(states[i - 1], labels[i - 1]);
      ChannelsKept(states[i - 1], labels[i - 1]);
    }
  }

  /** How one step changes whether the subscription of `r` is live. */
  lemma {:induction false} LiveStep(b: Bus, l: Label, r: nat)
    requires OneShot(b) && Enabled(b, l) && r in b.requests
    ensures var sub := b.requests[r].subscription;
            sub in Next(b, l).live <==> sub in b.live && l != Unsubscribe(r) && l != Remove(sub)
  {
    hide SendersGone, Sent, OwnsSubscription, Distinct, OneShot;
    OwnsChannel(b, r);
    if l.Unsubscribe? && l.r != r {
      SubscriptionIdentifies(b, r, l.r);
    }
  }

  lemma {:induction false} DoneStep(b: Bus, l: Label, r: nat)
    requires Enabled(b, l) && r in b.requests
    ensures r in Next(b, l).requests
    ensures Next(b, l).requests[r].phase.Done? <==> b.requests[r].phase.Done? || l == Unsubscribe(r)
  {
    hide SendersGone, Sent;
  }

  lemma SubscriptionIdentifies(b: Bus, r: nat, q: nat)
    requires OneShot(b) && r in b.requests && q in b.requests && r != q
    ensures b.requests[r].subscription != b.requests[q].subscription
  {
    assert Distinct(b.requests[r], b.requests[q]);
  }

  lemma {:induction false} FreshIsUnremoved(states: seq<Bus>, labels: seq<Label>, i: nat, sub: string)
    requires Run(states, labels) && i <= |labels| && sub !in states[i].channels
    ensures !RemovedBefore(labels, i, sub)
  {
    hide Next;
    if RemovedBefore(labels, i, sub) {
      var j: nat :| j < i <= |labels| && labels[j] == Remove(sub);
      assert Enabled(states[j], labels[j]);
      InvariantAt(states, labels, j);
      ChannelsGrow(states, labels, j, i);
      assert false;
    }
  }

  /** A one-shot subscription is gone exactly when its request has cleaned up (on the reply, timeout, closed and
      publish-error paths) or somebody else removed it: an abandoned call leaves it behind for ever. */
  lemma {:induction false} GoneIff(states: seq<Bus>, labels: seq<Label>, i: nat, r: nat)
    requires Run(states, labels) && i <= |labels| && r in states[i].requests
    ensures var b, q := states[i], states[i].requests[r];
            q.subscription !in b.live <==> q.phase.Done? || RemovedBefore(labels, i, q.subscription)
    decreases i
  {
    hide Next, Enabled, RemovedBefore;
    assert i > 0;
    var b, l := states[i - 1], labels[i - 1];
    assert Enabled(b, l) && states[i] == Next(b, l);
    InvariantAt(states, labels, i - 1);
    RemovedStep(labels, i - 1, states[i].requests[r].subscription);
    if l.Start? && l.r == r {
      StartIs(b, l);
      FreshIsUnremoved(states, labels, i - 1, l.subscription);
    } else {
      RequestsKept(b, l, r);
      LiveStep(b, l, r);
      DoneStep(b, l, r);
      GoneIff(states, labels, i - 1, r);
    }
  }

  lemma {:induction false} StartIs(b: Bus, l: Label)
    requires l.Start? && Enabled(b, l)
    ensures l.subscription !in b.channels
    ensures var b' := Next(b, l);
            && l.r in b'.requests && b'.requests[l.r].subscription == l.subscription
            && b'.requests[l.r].subject == l.subject && b'.requests[l.r].payload == l.payload
            && b'.requests[l.r].replySubject == l.replySubject
            && b'.requests[l.r].phase.Subscribed? && l.subscription in b'.live
  {
  }

  /** A call that is over, one way or another, has dropped its receiver. */
  lemma {:induction false} OverMeansClosed(states: seq<Bus>, labels: seq<Label>, i: nat, r: nat)
    requires Run(states, labels) && i <= |labels| && r in states[i].requests
    requires states[i].requests[r].phase.Done? || states[i].requests[r].phase.Abandoned?
    ensures HasChannel(states[i], r) && !ChannelOf(states[i], r).open
  {
    hide Next, Enabled, Aimed, Faithful, Traced;
    InvariantHolds(states, labels, i);
    OwnsChannel(states[i], r);
    assert FirstWinsFor(states[i].requests[r].phase, ChannelOf(states[i], r));
  }

  /** Nothing has reached the call, and nothing can any more. */
  ghost predicate Severed(b: Bus, r: nat) {
    && HasChannel(b, r) && (b.requests[r].phase.Publishing? || b.requests[r].phase.Waiting?)
    && ChannelOf(b, r).arrivals == [] && SendersGone(b, b.requests[r].subscription)
  }

  ghost predicate Doomed(b: Bus, r: nat) {
    || Severed(b, r)
    || (r in b.requests && (b.requests[r].phase.Abandoned? || b.requests[r].phase == Closing(ReplyChannelClosed)
                            || b.requests[r].phase == Done(ReplyChannelClosed)))
  }

  lemma {:induction false} DoomedStep(b: Bus, l: Label, r: nat)
    requires OneShot(b) && FirstWins(b) && Enabled(b, l) && Doomed(b, r)
    ensures Doomed(Next(b, l), r)
  {
    hide OneShot, FirstWins, Enabled, Next, SendersGone;
    RequestStays(b, l, r);
    OwnsChannel(b, r);
    if Severed(b, r) {
      PhaseOfSevered(b, l, r);
      assert HasChannel(Next(b, l), r) by { ChannelsKept(b, l); }
      ArrivalsStep(b, l, r);
      SeveredStays(b, l, r);
    } else {
      PhaseOfDoomed(b, l, r);
    }
  }

  lemma {:induction false} PhaseOfSevered(b: Bus, l: Label, r: nat)
    requires FirstWins(b) && Enabled(b, l) && Severed(b, r)
    ensures r in Next(b, l).requests
    ensures var p := Next(b, l).requests[r].phase;
            p.Publishing? || p.Waiting? || p.Abandoned? || p == Closing(ReplyChannelClosed)
  {
    hide Sent;
    assert FirstWinsFor(b.requests[r].phase, ChannelOf(b, r));
  }

  lemma {:induction false} PhaseOfDoomed(b: Bus, l: Label, r: nat)
    requires Enabled(b, l) && Doomed(b, r) && !Severed(b, r)
    ensures Doomed(Next(b, l), r)
  {
    hide Sent, SendersGone, Severed;
  }

  lemma {:induction false} SeveredStays(b: Bus, l: Label, r: nat)
    requires OneShot(b) && Enabled(b, l) && r in b.requests && SendersGone(b, b.requests[r].subscription)
    ensures SendersGone(Next(b, l), b.requests[r].subscription)
    ensures l.Send? ==> !Grabbed(b, l.source, b.requests[r].subscription)
  {
    hide Sent;
    assert OwnsSubscription(b, b.requests[r]);
  }

  lemma {:induction false} DoomedLater(states: seq<Bus>, labels: seq<Label>, j: nat, i: nat, r: nat)
    requires Run(states, labels) && j <= i <= |labels| && Doomed(states[j], r)
    ensures Doomed(states[i], r)
    decreases i
  {
    hide Next, Enabled, Doomed, OneShot, FirstWins, Aimed, Faithful, Traced;
    if j < i {
      DoomedLater(states, labels, j, i - 1, r);
      InvariantHolds(states, labels, i - 1);
      assert Enabled(states[i - 1], labels[i - 1]) && states[i] == Next(states[i - 1], labels[i - 1]);
      DoomedStep(states[i - 1], labels[i - 1], r);
    }
  }

  /** Where a closed-channel outcome came from. */
  lemma {:induction false} ClosedCame(states: seq<Bus>, labels: seq<Label>, i: nat, r: nat)
    requires Run(states, labels) && i <= |labels| && r in states[i].requests
    requires states[i].requests[r].phase == Closing(ReplyChannelClosed)
             || states[i].requests[r].phase == Done(ReplyChannelClosed)
    ensures exists j :: 0 <= j < i && Severed(states[j], r)
    decreases i
  {
    hide Next, Enabled, OneShot, FirstWins, Aimed, Faithful, Traced, Severed;
    assert i > 0;
    var b, l := states[i - 1], labels[i - 1];
    assert Enabled(b, l) && states[i] == Next(b, l);
    InvariantHolds(states, labels, i - 1);
    BecameClosed(b, l, r);
    if !Severed(b, r) {
      ClosedCame(states, labels, i - 1, r);
    }
  }

  lemma {:induction false} BecameClosed(b: Bus, l: Label, r: nat)
    requires OneShot(b) && FirstWins(b) && Enabled(b, l) && r in Next(b, l).requests
    requires Next(b, l).requests[r].phase == Closing(ReplyChannelClosed)
             || Next(b, l).requests[r].phase == Done(ReplyChannelClosed)
    ensures r in b.requests
    ensures Severed(b, r) || b.requests[r].phase == Closing(ReplyChannelClosed)
            || b.requests[r].phase == Done(ReplyChannelClosed)
  {
    hide Sent;
    RequestsKept(b, l, r);
    assert OwnsSubscription(b, b.requests[r]);
    assert FirstWinsFor(b.requests[r].phase, ChannelOf(b, r));
  }

  /** A call that runs to its end reports a closed channel if and only if at some point, after its request was
      published, nothing had reached it and no sender was left; and only a removal by somebody else does that. */
  lemma {:induction false} ClosedIff(states: seq<Bus>, labels: seq<Label>, i: nat, r: nat)
    requires Run(states, labels) && i <= |labels| && r in states[i].requests && states[i].requests[r].phase.Done?
    ensures states[i].requests[r].phase.outcome == ReplyChannelClosed <==>
            exists j :: 0 <= j < i && Severed(states[j], r)
    ensures states[i].requests[r].phase.outcome == ReplyChannelClosed ==>
              RemovedBefore(labels, i, states[i].requests[r].subscription)
  {
    hide Next, Enabled, RemovedBefore, SendersGone;
    if states[i].requests[r].phase.outcome == ReplyChannelClosed {
      ClosedCame(states, labels, i, r);
      var j :| 0 <= j < i && Severed(states[j], r);
      assert states[j].requests[r].subscription !in states[j].live by { SeveredIsGone(states[j], r); }
      GoneIff(states, labels, j, r);
      RequestsStay(states, labels, j, i, r);
      RemovedLater(labels, j, i, states[i].requests[r].subscription);
    }
    if exists j :: 0 <= j < i && Severed(states[j], r) {
      var j :| 0 <= j < i && Severed(states[j], r);
      DoomedLater(states, labels, j, i, r);
    }
  }

  lemma SeveredIsGone(b: Bus, r: nat)
    requires Severed(b, r)
    ensures b.requests[r].subscription !in b.live
  {
  }

  lemma RemovedLater(labels: seq<Label>, j: nat, i: nat, sub: string)
    requires RemovedBefore(labels, j, sub) && j <= i <= |labels|
    ensures RemovedBefore(labels, i, sub)
  {
  }

  // ----- Single-use repliers -----

  lemma {:induction false} RepliedStays(states: seq<Bus>, labels: seq<Label>, j: nat, i: nat, p: nat)
    requires Run(states, labels) && j <= i <= |labels| && p in states[j].repliers && states[j].repliers[p].replied
    ensures p in states[i].repliers && states[i].repliers[p].replied
    decreases i
  {
    hide Next, Enabled;
    if j < i {
      RepliedStays(states, labels, j, i - 1, p);
      assert Enabled(states[i - 1], labels[i - 1]) && states[i] == Next(states[i - 1], labels[i - 1]);
      ReplierStays(states[i - 1], labels[i - 1], p);
    }
  }

  lemma {:induction false} ReplierStays(b: Bus, l: Label, p: nat)
    requires Enabled(b, l)
    ensures p in b.repliers && b.repliers[p].replied ==> p in Next(b, l).repliers && Next(b, l).repliers[p].replied
    ensures l.BeginReply? && l.p == p ==> p in Next(b, l).repliers && Next(b, l).repliers[p].replied
  {
    hide SendersGone, Sent;
  }

  /** A replier publishes at most once in the whole run. */
  lemma {:induction false} RepliersPublishOnce(states: seq<Bus>, labels: seq<Label>, i: nat, j: nat)
    requires Run(states, labels) && i < j < |labels| && labels[i].BeginReply? && labels[j].BeginReply?
    ensures labels[i].p != labels[j].p
  {
    hide Next;
    assert Enabled(states[i], labels[i]) && states[i + 1] == Next(states[i], labels[i]);
    assert Enabled(states[j], labels[j]);
    ReplierStays(states[i], labels[i], labels[i].p);
    RepliedStays(states, labels, i + 1, j, labels[i].p);
  }
}
