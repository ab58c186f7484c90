/** Request/reply over publish/subscribe: one-shot reply subscriptions and single-use repliers, under every
    interleaving of requesters, handlers, other callers of the bus and the dispatch of what they publish. */
module RequestReply {
  import opened Sequences

  type Subject = string
  type Payload = seq<bv8>

  /** Reply subjects start with this; the public `publish` refuses them, `request` does not. */
  const RESERVED := "_reply."

  datatype Outcome = Reply(payload: Payload) | Timeout | ReplyChannelClosed | PublishError

  /** Where a call of `request` stands. `Closing` has its outcome but has not cleaned up yet; the future of an
      `Abandoned` call was dropped, so that it never will. */
  datatype Phase = Subscribed | Publishing | Waiting | Closing(outcome: Outcome) | Done(outcome: Outcome) | Abandoned

  datatype Request = Request(
    subject: Subject, payload: Payload, replySubject: Subject, subscription: string, phase: Phase)

  /** Who published: a replier, or `request` itself. Either publishes at most once. */
  datatype Source = Handler(replier: nat) | Requester(request: nat)

  /** What reached a channel; `rewritten` if an interceptor replaced the payload on the way. */
  datatype Arrival = Arrival(source: Source, payload: Payload, rewritten: bool)

  /** The bounded channel of a one-shot subscription: room for one event, open until the receiver is dropped.
      `arrivals` is history: every event sent to it, in the order of delivery. */
  datatype Channel = Channel(buffer: Option<Payload>, open: bool, arrivals: seq<Arrival>)

  /** A handle made from a request event; `origin` is the request it was made for. */
  datatype Replier = Replier(origin: nat, replySubject: Subject, replied: bool)

  /** A publication under way: the matching subscriptions are looked up, interceptors run, the senders that still
      exist are copied, and then sent to. */
  datatype Flight = Flight(
    subject: Subject, payload: Payload, rewritten: bool, targets: Option<set<string>>, senders: Option<set<string>>)

  /** `live` is the engine's index of one-shot subscriptions. */
  datatype Bus = Bus(
    requests: map<nat, Request>, live: map<string, Subject>, channels: map<string, Channel>,
    repliers: map<nat, Replier>, flights: map<Source, Flight>)

  const IDLE := Bus(map[], map[], map[], map[], map[])

  /** `Vanish` ends a publication early: an interceptor drops it, or its task is cancelled. `Remove` is the public
      unsubscribe, which takes any id, also one that `list_subscriptions` showed to somebody else. */
  datatype Label =
    | Start(r: nat, subject: Subject, payload: Payload, replySubject: Subject, subscription: string)
    | PublishFailed(r: nat)
    | BeginRequest(r: nat)
    | Published(r: nat)
    | MakeReplier(p: nat, r: nat)
    | BeginReply(p: nat, payload: Payload)
    | SecondReply(p: nat)
    | Resolve(source: Source)
    | Rewrite(source: Source, payload: Payload)
    | Vanish(source: Source)
    | Grab(source: Source)
    | Send(source: Source)
    | Receive(r: nat)
    | Expire(r: nat)
    | FindClosed(r: nat)
    | DropReceiver(r: nat)
    | Unsubscribe(r: nat)
    | Abandon(r: nat)
    | Remove(subscription: string)

  predicate InPhase(b: Bus, r: nat, p: Phase) {
    r in b.requests && b.requests[r].phase == p
  }

  predicate IsClosing(b: Bus, r: nat) {
    r in b.requests && b.requests[r].phase.Closing?
  }

  predicate HasChannel(b: Bus, r: nat) {
    r in b.requests && b.requests[r].subscription in b.channels
  }

  function ChannelOf(b: Bus, r: nat): Channel
    requires HasChannel(b, r)
  {
    b.channels[b.requests[r].subscription]
  }

  /** A publication under way has copied this subscription's sender. */
  predicate Grabbed(b: Bus, src: Source, sub: string) {
    src in b.flights && b.flights[src].senders.Some? && sub in b.flights[src].senders.value
  }

  /** No sender is left, in the engine or in a publication under way. */
  predicate SendersGone(b: Bus, sub: string) {
    sub !in b.live && forall src :: src in b.flights ==> !Grabbed(b, src, sub)
  }

  /** A reply subject and a subscription id nobody has used or named before. */
  predicate Unused(b: Bus, s: Subject, sub: string) {
    && sub !in b.channels && sub !in b.live
    && forall q :: q in b.requests ==> b.requests[q].replySubject != s && b.requests[q].subject != s
  }

  /** Ids are fresh. A waiting call polls its channel before its timer, so it expires only while the channel is
      empty and not closed. The receiver is dropped before the subscription is removed, except after a failed
      publish, where it goes when the call returns. */
  predicate Enabled(b: Bus, l: Label) {
    match l
    case Start(r, subject, _, s, sub) =>
      r !in b.requests && RESERVED <= s && subject != s && Unused(b, s, sub)
    case PublishFailed(r) => InPhase(b, r, Subscribed)
    case BeginRequest(r) => InPhase(b, r, Subscribed) && Requester(r) !in b.flights
    case Published(r) => InPhase(b, r, Publishing) && Requester(r) !in b.flights
    case MakeReplier(p, r) => p !in b.repliers && r in b.requests
    case BeginReply(p, _) => p in b.repliers && !b.repliers[p].replied
    case SecondReply(p) => p in b.repliers && b.repliers[p].replied
    case Resolve(src) => src in b.flights && b.flights[src].targets.None?
    case Rewrite(src, _) => src in b.flights && b.flights[src].targets.Some? && b.flights[src].senders.None?
    case Vanish(src) => src in b.flights
    case Grab(src) => src in b.flights && b.flights[src].targets.Some? && b.flights[src].senders.None?
    case Send(src) => src in b.flights && b.flights[src].senders.Some?
    case Receive(r) => InPhase(b, r, Waiting) && HasChannel(b, r) && ChannelOf(b, r).buffer.Some?
    case Expire(r) =>
      && InPhase(b, r, Waiting) && HasChannel(b, r) && ChannelOf(b, r).buffer.None?
      && !SendersGone(b, b.requests[r].subscription)
    case FindClosed(r) =>
      && InPhase(b, r, Waiting) && HasChannel(b, r) && ChannelOf(b, r).buffer.None?
      && SendersGone(b, b.requests[r].subscription)
    case DropReceiver(r) => IsClosing(b, r) && HasChannel(b, r) && ChannelOf(b, r).open
    case Unsubscribe(r) =>
      && IsClosing(b, r) && HasChannel(b, r)
      && (!ChannelOf(b, r).open || b.requests[r].phase.outcome == PublishError)
    case Abandon(r) => HasChannel(b, r) && !b.requests[r].phase.Done? && !b.requests[r].phase.Abandoned?
    case Remove(sub) => sub in b.live
  }

  function WithPhase(b: Bus, r: nat, p: Phase): Bus
    requires r in b.requests
  {
    b.(requests := b.requests[r := b.requests[r].(phase := p)])
  }

  function WithChannel(b: Bus, r: nat, c: Channel): Bus
    requires r in b.requests
  {
    b.(channels := b.channels[b.requests[r].subscription := c])
  }

  /** Non-blocking send: the first event fills the channel; a full or closed channel drops it. */
  function TrySend(c: Channel, a: Arrival): Channel {
    Channel(if c.open && c.buffer.None? then Some(a.payload) else c.buffer, c.open, c.arrivals + [a])
  }

  function ArrivalOf(src: Source, f: Flight): Arrival {
    Arrival(src, f.payload, f.rewritten)
  }

  function Sent(b: Bus, src: Source): map<string, Channel>
    requires src in b.flights && b.flights[src].senders.Some?
  {
    var f := b.flights[src];
    map sub | sub in b.channels ::
      if sub in f.senders.value then TrySend(b.channels[sub], ArrivalOf(src, f)) else b.channels[sub]
  }

  function Next(b: Bus, l: Label): Bus
    requires Enabled(b, l)
  {
    match l
    case Start(r, subject, payload, s, sub) =>
      b.(requests := b.requests[r := Request(subject, payload, s, sub, Subscribed)],
         live := b.live[sub := s],
         channels := b.channels[sub := Channel(None, true, [])])
    case PublishFailed(r) => WithPhase(b, r, Closing(PublishError))
    case BeginRequest(r) =>
      WithPhase(b, r, Publishing)
        .(flights := b.flights[
            Requester(r) := Flight(b.requests[r].subject, b.requests[r].payload, false, None, None)])
    case Published(r) => WithPhase(b, r, Waiting)
    case MakeReplier(p, r) => b.(repliers := b.repliers[p := Replier(r, b.requests[r].replySubject, false)])
    case BeginReply(p, payload) =>
      b.(repliers := b.repliers[p := b.repliers[p].(replied := true)],
         flights := b.flights[Handler(p) := Flight(b.repliers[p].replySubject, payload, false, None, None)])
    case SecondReply(_) => b
    case Resolve(src) =>
      var found := set sub | sub in b.live && b.live[sub] == b.flights[src].subject;
      b.(flights := b.flights[src := b.flights[src].(targets := Some(found))])
    case Rewrite(src, payload) =>
      b.(flights := b.flights[src := b.flights[src].(payload := payload, rewritten := true)])
    case Vanish(src) => b.(flights := b.flights - {src})
    case Grab(src) =>
      var left := set sub | sub in b.flights[src].targets.value && sub in b.live;
      b.(flights := b.flights[src := b.flights[src].(senders := Some(left))])
    case Send(src) => b.(flights := b.flights - {src}, channels := Sent(b, src))
    case Receive(r) =>
      WithChannel(WithPhase(b, r, Closing(Reply(ChannelOf(b, r).buffer.value))), r, ChannelOf(b, r).(buffer := None))
    case Expire(r) => WithPhase(b, r, Closing(Timeout))
    case FindClosed(r) => WithPhase(b, r, Closing(ReplyChannelClosed))
    case DropReceiver(r) => WithChannel(b, r, ChannelOf(b, r).(open := false))
    case Unsubscribe(r) =>
      WithChannel(WithPhase(b, r, Done(b.requests[r].phase.outcome)), r, ChannelOf(b, r).(open := false))
        .(live := b.live - {b.requests[r].subscription})
    case Abandon(r) =>
      WithChannel(WithPhase(b, r, Abandoned), r, ChannelOf(b, r).(open := false))
        .(flights := b.flights - {Requester(r)})
    case Remove(sub) => b.(live := b.live - {sub})
  }

  ghost predicate Run(states: seq<Bus>, labels: seq<Label>) {
    Path(states, labels) && states[0] == IDLE
  }

  ghost predicate Path(states: seq<Bus>, labels: seq<Label>) {
    && |states| == |labels| + 1
    && forall i :: 0 <= i < |labels| ==> Enabled(states[i], labels[i]) && states[i + 1] == Next(states[i], labels[i])
  }

  // ----- Invariants -----

  /** A one-shot subscription belongs to one request, and is gone once that request has cleaned up. */
  ghost predicate OneShot(b: Bus) {
    && b.live.Keys <= b.channels.Keys
    && (forall r :: r in b.requests ==> OwnsSubscription(b, b.requests[r]))
    && (forall r, q :: r in b.requests && q in b.requests && r != q ==> Distinct(b.requests[r], b.requests[q]))
  }

  ghost predicate OwnsSubscription(b: Bus, q: Request) {
    && RESERVED <= q.replySubject
    && q.subscription in b.channels
    && (q.phase.Done? ==> q.subscription !in b.live)
    && (q.subscription in b.live ==> b.live[q.subscription] == q.replySubject)
  }

  ghost predicate Distinct(a: Request, b: Request) {
    a.subscription != b.subscription && a.replySubject != b.replySubject
  }

  /** A replier speaks on the reply subject of the request it was made for. */
  ghost predicate Faithful(b: Bus) {
    forall p :: p in b.repliers ==>
      && b.repliers[p].origin in b.requests
      && b.repliers[p].replySubject == b.requests[b.repliers[p].origin].replySubject
  }

  /** The subject a source publishes on. */
  ghost predicate SpeaksOn(b: Bus, src: Source, s: Subject) {
    match src
    case Handler(p) => p in b.repliers && b.repliers[p].replied && b.repliers[p].replySubject == s
    case Requester(q) => q in b.requests && b.requests[q].subject == s && !b.requests[q].phase.Subscribed?
  }

  /** A publication is aimed at subscriptions on its own subject only. */
  ghost predicate Aimed(b: Bus) {
    forall src :: src in b.flights ==>
      && SpeaksOn(b, src, b.flights[src].subject)
      && (forall r :: r in b.requests ==> AimedAt(b.flights[src], b.requests[r]))
      && Reaches(b.flights[src]) <= b.channels.Keys
  }

  function Reaches(f: Flight): set<string> {
    (if f.targets.Some? then f.targets.value else {}) + if f.senders.Some? then f.senders.value else {}
  }

  ghost predicate AimedAt(f: Flight, q: Request) {
    q.subscription in Reaches(f) ==> f.subject == q.replySubject
  }

  /** Everything that reached a request's channel was published on its reply subject. */
  ghost predicate Traced(b: Bus) {
    forall r :: HasChannel(b, r) ==> TracedTo(b, b.requests[r].replySubject, ChannelOf(b, r).arrivals)
  }

  ghost predicate TracedTo(b: Bus, s: Subject, arrivals: seq<Arrival>) {
    forall i :: 0 <= i < |arrivals| ==> SpeaksOn(b, arrivals[i].source, s)
  }

  /** Until a request has its outcome, its channel is open and holds the first event delivered to it, if any; a
      received outcome is that first event. */
  ghost predicate FirstWins(b: Bus) {
    forall r :: HasChannel(b, r) ==> FirstWinsFor(b.requests[r].phase, ChannelOf(b, r))
  }

  ghost predicate FirstWinsFor(p: Phase, c: Channel) {
    match p
    case Closing(o) => OutcomeOk(o, c.arrivals)
    case Done(o) => OutcomeOk(o, c.arrivals) && !c.open
    case Abandoned => !c.open
    case _ => c.open && c.buffer == FirstOf(c.arrivals)
  }

  function FirstOf(arrivals: seq<Arrival>): Option<Payload> {
    if arrivals == [] then None else Some(arrivals[0].payload)
  }

  ghost predicate OutcomeOk(o: Outcome, arrivals: seq<Arrival>) {
    o.Reply? ==> FirstOf(arrivals) == Some(o.payload)
  }

  ghost predicate Invariant(b: Bus) {
    OneShot(b) && Faithful(b) && Aimed(b) && Traced(b) && FirstWins(b)
  }

  /** The call has no outcome yet. */
  predicate Pending(q: Request) {
    q.phase.Subscribed? || q.phase.Publishing? || q.phase.Waiting?
  }

  /** A step keeps the identity of every request but the one it starts. */
  lemma {:induction false} RequestsKept(b: Bus, l: Label, r: nat)
    requires Enabled(b, l) && r in Next(b, l).requests && !(l.Start? && l.r == r)
    ensures r in b.requests
    ensures Next(b, l).requests[r].(phase := b.requests[r].phase) == b.requests[r]
    ensures Next(b, l).requests[r].phase.Subscribed? ==> b.requests[r].phase.Subscribed?
    ensures Pending(Next(b, l).requests[r]) ==> Pending(b.requests[r])
  {
  }

  lemma {:induction false} RequestStays(b: Bus, l: Label, r: nat)
    requires Enabled(b, l) && r in b.requests
    ensures r in Next(b, l).requests && Next(b, l).requests[r].(phase := b.requests[r].phase) == b.requests[r]
  {
    hide SendersGone, Sent;
  }

  /** Requests, repliers and what is known of them only grow. */
  lemma {:induction false} SpeaksKept(b: Bus, l: Label, src: Source, s: Subject)
    requires Enabled(b, l) && SpeaksOn(b, src, s)
    ensures SpeaksOn(Next(b, l), src, s)
  {
  }

  lemma {:induction false} StepOwns(b: Bus, l: Label, r: nat)
    requires OneShot(b) && Enabled(b, l) && r in Next(b, l).requests
    ensures OwnsSubscription(Next(b, l), Next(b, l).requests[r])
  {
    hide Sent, SendersGone;
    if !(l.Start? && l.r == r) {
      RequestsKept(b, l, r);
      assert OwnsSubscription(b, b.requests[r]);
      ChannelsKept(b, l);
    }
  }

  lemma {:induction false} ChannelsKept(b: Bus, l: Label)
    requires Enabled(b, l)
    ensures b.channels.Keys <= Next(b, l).channels.Keys
    ensures Next(b, l).live.Keys <= b.live.Keys + if l.Start? then {l.subscription} else {}
  {
    hide SendersGone;
  }

  lemma {:induction false} StepOneShot(b: Bus, l: Label)
    requires OneShot(b) && Enabled(b, l)
    ensures OneShot(Next(b, l))
  {
    hide OwnsSubscription, Next, Enabled;
    var b' := Next(b, l);
    assert b'.live.Keys <= b'.channels.Keys by { LiveHaveChannels(b, l); }
    forall r | r in b'.requests ensures OwnsSubscription(b', b'.requests[r]) {
      StepOwns(b, l, r);
    }
    forall r, q | r in b'.requests && q in b'.requests && r != q ensures Distinct(b'.requests[r], b'.requests[q]) {
      StepDistinct(b, l, r, q);
    }
  }

  lemma {:induction false} LiveHaveChannels(b: Bus, l: Label)
    requires b.live.Keys <= b.channels.Keys && Enabled(b, l)
    ensures Next(b, l).live.Keys <= Next(b, l).channels.Keys
  {
    hide SendersGone;
    ChannelsKept(b, l);
  }

  lemma {:induction false} StepDistinct(b: Bus, l: Label, r: nat, q: nat)
    requires OneShot(b) && Enabled(b, l) && r in Next(b, l).requests && q in Next(b, l).requests && r != q
    ensures Distinct(Next(b, l).requests[r], Next(b, l).requests[q])
  {
    hide Sent, SendersGone;
    if l.Start? && l.r == r {
      RequestsKept(b, l, q);
      assert OwnsSubscription(b, b.requests[q]);
    } else if l.Start? && l.r == q {
      RequestsKept(b, l, r);
      assert OwnsSubscription(b, b.requests[r]);
    } else {
      RequestsKept(b, l, r);
      RequestsKept(b, l, q);
      assert Distinct(b.requests[r], b.requests[q]);
    }
  }

  lemma {:induction false} StepFaithful(b: Bus, l: Label)
    requires Faithful(b) && Enabled(b, l)
    ensures Faithful(Next(b, l))
  {
    hide Next, Enabled;
    var b' := Next(b, l);
    forall p | p in b'.repliers
      ensures b'.repliers[p].origin in b'.requests
      ensures b'.repliers[p].replySubject == b'.requests[b'.repliers[p].origin].replySubject
    {
      ReplierKept(b, l, p);
      RequestStays(b, l, b'.repliers[p].origin);
    }
  }

  lemma {:induction false} ReplierKept(b: Bus, l: Label, p: nat)
    requires Enabled(b, l) && p in Next(b, l).repliers
    ensures var now := Next(b, l).repliers[p];
            || (p in b.repliers && now.(replied := b.repliers[p].replied) == b.repliers[p])
            || (now.origin in b.requests && now.replySubject == b.requests[now.origin].replySubject)
  {
    hide Sent, SendersGone;
  }

  lemma {:induction false} StepAimed(b: Bus, l: Label)
    requires OneShot(b) && Aimed(b) && Enabled(b, l)
    ensures Aimed(Next(b, l))
  {
    hide Next, Enabled, OneShot, Reaches, AimedAt, SpeaksOn;
    var b' := Next(b, l);
    forall src | src in b'.flights
      ensures SpeaksOn(b', src, b'.flights[src].subject)
      ensures forall r :: r in b'.requests ==> AimedAt(b'.flights[src], b'.requests[r])
      ensures Reaches(b'.flights[src]) <= b'.channels.Keys
    {
      FlightSpeaks(b, l, src);
      FlightReaches(b, l, src);
      forall r | r in b'.requests ensures AimedAt(b'.flights[src], b'.requests[r]) {
        StepAimedAt(b, l, src, r);
      }
    }
  }

  /** A flight is new, or was there before on the same subject. */
  lemma {:induction false} FlightKept(b: Bus, l: Label, src: Source)
    requires Enabled(b, l) && src in Next(b, l).flights
    ensures src !in b.flights ==> Reaches(Next(b, l).flights[src]) == {}
    ensures src in b.flights && !(l.BeginReply? && src == Handler(l.p)) ==>
              Next(b, l).flights[src].subject == b.flights[src].subject
    ensures src in b.flights ==>
              Reaches(Next(b, l).flights[src]) <=
              Reaches(b.flights[src]) + if l == Resolve(src) then b.live.Keys else {}
    ensures l == Resolve(src) && src in b.flights ==>
              forall sub :: sub in Reaches(Next(b, l).flights[src]) && sub !in Reaches(b.flights[src]) ==>
                b.live[sub] == b.flights[src].subject
  {
    hide Sent, SendersGone;
  }

  lemma {:induction false} FlightSpeaks(b: Bus, l: Label, src: Source)
    requires Aimed(b) && Enabled(b, l) && src in Next(b, l).flights
    ensures SpeaksOn(Next(b, l), src, Next(b, l).flights[src].subject)
  {
    hide Sent, SendersGone, Reaches, AimedAt;
    if src in b.flights {
      SpeaksKept(b, l, src, b.flights[src].subject);
    }
  }

  lemma {:induction false} FlightReaches(b: Bus, l: Label, src: Source)
    requires OneShot(b) && Aimed(b) && Enabled(b, l) && src in Next(b, l).flights
    ensures Reaches(Next(b, l).flights[src]) <= Next(b, l).channels.Keys
  {
    hide Next, Enabled, Reaches, AimedAt, SpeaksOn;
    FlightKept(b, l, src);
    ChannelsKept(b, l);
  }

  lemma {:induction false} StepAimedAt(b: Bus, l: Label, src: Source, r: nat)
    requires OneShot(b) && Aimed(b) && Enabled(b, l) && src in Next(b, l).flights && r in Next(b, l).requests
    ensures AimedAt(Next(b, l).flights[src], Next(b, l).requests[r])
  {
    hide Next, Enabled, Reaches, SpeaksOn, Distinct;
    var b' := Next(b, l);
    FlightKept(b, l, src);
    if src in b.flights && b'.requests[r].subscription in Reaches(b'.flights[src]) {
      if l.Start? && l.r == r {
        StartIsNew(b, l, src);
      } else {
        RequestsKept(b, l, r);
        assert OwnsSubscription(b, b.requests[r]) && AimedAt(b.flights[src], b.requests[r]);
        if l.BeginReply? && src == Handler(l.p) {
          BegunReachesNothing(b, l);
        }
      }
    }
  }

  lemma {:induction false} BegunReachesNothing(b: Bus, l: Label)
    requires Enabled(b, l) && l.BeginReply?
    ensures Reaches(Next(b, l).flights[Handler(l.p)]) == {}
  {
  }

  lemma {:induction false} StartIsNew(b: Bus, l: Label, src: Source)
    requires OneShot(b) && Aimed(b) && Enabled(b, l) && l.Start? && src in b.flights
    ensures Next(b, l).requests[l.r].subscription !in Reaches(b.flights[src])
    ensures Next(b, l).flights == b.flights
  {
    hide OwnsSubscription, Distinct, SpeaksOn, AimedAt;
  }

  lemma {:induction false} StepTraced(b: Bus, l: Label)
    requires OneShot(b) && Aimed(b) && Traced(b) && Enabled(b, l)
    ensures Traced(Next(b, l))
  {
    hide Next, Enabled, OneShot, Aimed, TracedTo;
    var b' := Next(b, l);
    forall r | HasChannel(b', r)
      ensures TracedTo(b', b'.requests[r].replySubject, ChannelOf(b', r).arrivals)
    {
      StepTracedTo(b, l, r);
    }
  }

  lemma {:induction false} StepTracedTo(b: Bus, l: Label, r: nat)
    requires OneShot(b) && Aimed(b) && Traced(b) && Enabled(b, l) && HasChannel(Next(b, l), r)
    ensures TracedTo(Next(b, l), Next(b, l).requests[r].replySubject, ChannelOf(Next(b, l), r).arrivals)
  {
    hide Next, Enabled, SpeaksOn, Distinct, Reaches;
    var b' := Next(b, l);
    ArrivalsStep(b, l, r);
    if !(l.Start? && l.r == r) {
      RequestsKept(b, l, r);
      assert OwnsSubscription(b, b.requests[r]) && HasChannel(b, r);
      var s, was, now := b.requests[r].replySubject, ChannelOf(b, r).arrivals, ChannelOf(b', r).arrivals;
      assert TracedTo(b, s, was);
      forall i | 0 <= i < |now| ensures SpeaksOn(b', now[i].source, s) {
        if i < |was| {
          SpeaksKept(b, l, was[i].source, s);
        } else {
          assert AimedAt(b.flights[l.source], b.requests[r]);
          GrabbedReaches(b, l.source, b.requests[r].subscription);
          SpeaksKept(b, l, l.source, s);
        }
      }
    }
  }

  lemma GrabbedReaches(b: Bus, src: Source, sub: string)
    requires Grabbed(b, src, sub)
    ensures sub in Reaches(b.flights[src])
  {
  }

  /** Only a send adds to the history of a channel, and only where the sender was copied. */
  lemma {:induction false} ArrivalsStep(b: Bus, l: Label, r: nat)
    requires OneShot(b) && Enabled(b, l) && HasChannel(Next(b, l), r)
    ensures l.Start? && l.r == r ==> ChannelOf(Next(b, l), r).arrivals == []
    ensures !(l.Start? && l.r == r) ==>
              && HasChannel(b, r)
              && ChannelOf(Next(b, l), r).arrivals ==
                 ChannelOf(b, r).arrivals
                 + if l.Send? && Grabbed(b, l.source, b.requests[r].subscription)
                   then [ArrivalOf(l.source, b.flights[l.source])] else []
  {
    hide SendersGone, OwnsSubscription, Distinct;
    if !(l.Start? && l.r == r) {
      RequestsKept(b, l, r);
      assert HasChannel(b, r) by { OwnsChannel(b, r); }
    }
  }

  lemma OwnsChannel(b: Bus, r: nat)
    requires OneShot(b) && r in b.requests
    ensures HasChannel(b, r)
  {
    assert OwnsSubscription(b, b.requests[r]);
  }

  lemma {:induction false} StepFirstWins(b: Bus, l: Label)
    requires OneShot(b) && FirstWins(b) && Enabled(b, l)
    ensures FirstWins(Next(b, l))
  {
    hide Next, Enabled, OneShot, FirstWinsFor;
    var b' := Next(b, l);
    forall r | HasChannel(b', r)
      ensures FirstWinsFor(b'.requests[r].phase, ChannelOf(b', r))
    {
      StepFirstWinsFor(b, l, r);
    }
  }

  lemma {:induction false} StepFirstWinsFor(b: Bus, l: Label, r: nat)
    requires OneShot(b) && FirstWins(b) && Enabled(b, l) && HasChannel(Next(b, l), r)
    ensures FirstWinsFor(Next(b, l).requests[r].phase, ChannelOf(Next(b, l), r))
  {
    hide SendersGone, OwnsSubscription;
    if !(l.Start? && l.r == r) {
      RequestsKept(b, l, r);
      OwnsChannel(b, r);
      assert FirstWinsFor(b.requests[r].phase, ChannelOf(b, r));
      if (l.Receive? || l.DropReceiver? || l.Unsubscribe? || l.Abandon?) && l.r != r {
        assert Distinct(b.requests[r], b.requests[l.r]);
      }
    }
  }

  lemma StartInvariant()
    ensures Invariant(IDLE)
  {
  }

  lemma {:induction false} InvariantHolds(states: seq<Bus>, labels: seq<Label>, i: nat)
    requires Run(states, labels) && i <= |labels|
    ensures Invariant(states[i])
  {
    hide OneShot, Faithful, Aimed, Traced, FirstWins, Next, Enabled;
    if i == 0 {
      StartInvariant();
    } else {
      InvariantHolds(states, labels, i - 1);
      var b, l := states[i - 1], labels[i - 1];
      assert Enabled(b, l) && states[i] == Next(b, l);
      StepOneShot(b, l);
      StepFaithful(b, l);
      StepAimed(b, l);
      StepTraced(b, l);
      StepFirstWins(b, l);
    }
  }
}
