/** The reconnecting WebSocket client: subscription registry and connection protocol. */
module WsClient {
  import opened Sequences

  // ----- The registry: two maps that must stay inverse -----

  datatype Subscription = Subscription(pattern: string, serverId: Option<string>)
  datatype Registry = Registry(byStable: map<string, Subscription>, toStable: map<string, string>)

  function Inserted(r: Registry, stable: string, pattern: string): Registry {
    r.(byStable := r.byStable[stable := Subscription(pattern, None)])
  }

  function Bound(r: Registry, stable: string, server: string): Registry {
    if stable !in r.byStable then r
    else
      var sub := r.byStable[stable];
      var kept := if sub.serverId.Some? then r.toStable - {sub.serverId.value} else r.toStable;
      Registry(r.byStable[stable := sub.(serverId := Some(server))], kept[server := stable])
  }

  function Removed(r: Registry, stable: string): Registry {
    if stable !in r.byStable then r
    else
      var sub := r.byStable[stable];
      Registry(r.byStable - {stable}, if sub.serverId.Some? then r.toStable - {sub.serverId.value} else r.toStable)
  }

  function Cleared(r: Registry): Registry {
    Registry(map k | k in r.byStable :: r.byStable[k].(serverId := None), map[])
  }

  /** The subscription an event with this server id is delivered to. */
  function Route(r: Registry, server: string): Option<string> {
    if server in r.toStable && r.toStable[server] in r.byStable then Some(r.toStable[server]) else None
  }

  ghost predicate IsBound(r: Registry, stable: string, server: string) {
    stable in r.byStable && r.byStable[stable].serverId == Some(server)
  }

  ghost predicate Inverse(r: Registry) {
    && (forall s :: s in r.toStable ==> IsBound(r, r.toStable[s], s))
    && (forall k, s :: IsBound(r, k, s) ==> s in r.toStable && r.toStable[s] == k)
  }

  class SubscriberRegistry {
    var byStable: map<string, Subscription>
    var toStable: map<string, string>

    function View(): Registry
      reads this
    {
      Registry(byStable, toStable)
    }

    constructor ()
      ensures View() == Registry(map[], map[]) && Inverse(View())
    {
      byStable, toStable := map[], map[];
    }

    method Insert(stable: string, pattern: string)
      modifies this
      ensures View() == Inserted(old(View()), stable, pattern)
    {
      byStable := byStable[stable := Subscription(pattern, None)];
    }

    method BindServerId(stable: string, server: string) returns (ok: bool)
      modifies this
      ensures View() == Bound(old(View()), stable, server) && ok == (stable in old(byStable))
    {
      if stable !in byStable {
        return false;
      }
      var previous := byStable[stable].serverId;
      byStable := byStable[stable := byStable[stable].(serverId := Some(server))];
      if previous.Some? {
        toStable := toStable - {previous.value};
      }
      toStable := toStable[server := stable];
      return true;
    }

    method Remove(stable: string) returns (removed: Option<Subscription>)
      modifies this
      ensures View() == Removed(old(View()), stable)
      ensures removed == if stable in old(byStable) then Some(old(byStable)[stable]) else None
    {
      if stable !in byStable {
        return None;
      }
      removed := Some(byStable[stable]);
      byStable := byStable - {stable};
      if removed.value.serverId.Some? {
        toStable := toStable - {removed.value.serverId.value};
      }
    }

    method ClearServerIds()
      modifies this
      ensures View() == Cleared(old(View()))
    {
      toStable := map[];
      byStable := map k | k in byStable :: byStable[k].(serverId := None);
    }

    /** The fast look-up agrees with a scan of all subscriptions. */
    method StableByServerId(server: string) returns (stable: Option<string>)
      requires Inverse(View())
      ensures stable.Some? ==> IsBound(View(), stable.value, server)
      ensures stable.None? ==> forall k :: !IsBound(View(), k, server)
    {
      if server in toStable && toStable[server] in byStable {
        assert IsBound(View(), toStable[server], server);
        return Some(toStable[server]);
      }
      return None;
    }
  }

  /** A bind keeps the maps inverse exactly when no other subscription holds the server id. */
  lemma {:induction false} BindKeepsInverseIff(r: Registry, stable: string, server: string)
    requires Inverse(r)
    ensures Inverse(Bound(r, stable, server)) <==>
            stable !in r.byStable || (forall k :: IsBound(r, k, server) ==> k == stable)
  {
    var r' := Bound(r, stable, server);
    if stable in r.byStable {
      assert r.byStable[stable].serverId.Some? ==> IsBound(r, stable, r.byStable[stable].serverId.value);
      if k :| IsBound(r, k, server) && k != stable {
        assert IsBound(r', k, server) && r'.toStable[server] == stable;
      } else {
        forall s | s in r'.toStable ensures IsBound(r', r'.toStable[s], s) {
          if s != server {
            assert IsBound(r, r.toStable[s], s);
          }
        }
        forall k, s | IsBound(r', k, s) ensures s in r'.toStable && r'.toStable[s] == k {
          if k != stable {
            assert IsBound(r, k, s);
          }
        }
      }
    }
  }

  /** An insert keeps them inverse exactly when it does not overwrite a bound subscription. */
  lemma {:induction false} InsertKeepsInverseIff(r: Registry, stable: string, pattern: string)
    requires Inverse(r)
    ensures Inverse(Inserted(r, stable, pattern)) <==>
            stable !in r.byStable || r.byStable[stable].serverId.None?
  {
    var r' := Inserted(r, stable, pattern);
    if stable in r.byStable && r.byStable[stable].serverId.Some? {
      var s := r.byStable[stable].serverId.value;
      assert IsBound(r, stable, s);
      assert !IsBound(r', r'.toStable[s], s);
    } else {
      forall k, s | IsBound(r', k, s) ensures IsBound(r, k, s) {}
      forall s | s in r'.toStable ensures IsBound(r', r'.toStable[s], s) {
        assert IsBound(r, r.toStable[s], s);
      }
    }
  }

  lemma {:induction false} RemoveKeepsInverse(r: Registry, stable: string)
    requires Inverse(r)
    ensures Inverse(Removed(r, stable)) && Inverse(Cleared(r))
  {
    var r' := Removed(r, stable);
    assert stable in r.byStable && r.byStable[stable].serverId.Some? ==>
           IsBound(r, stable, r.byStable[stable].serverId.value);
    forall k, s | IsBound(r', k, s) ensures s in r'.toStable && r'.toStable[s] == k {
      assert IsBound(r, k, s);
    }
    forall s | s in r'.toStable ensures IsBound(r', r'.toStable[s], s) {
      assert IsBound(r, r.toStable[s], s);
    }
  }

  /** Each server id reaches at most one subscription, the one that records it. */
  lemma {:induction false} RouteIsScan(r: Registry, server: string, k: string)
    requires Inverse(r)
    ensures Route(r, server) == Some(k) <==> IsBound(r, k, server)
  {
    if server in r.toStable {
      assert IsBound(r, r.toStable[server], server);
    }
  }

  // ----- Resubscribe correlation ids -----

  const RESUBSCRIBE_CID_PREFIX := "__seidrum_resubscribe__:"

  function ResubscribeCid(stable: string, nonce: string): string {
    RESUBSCRIBE_CID_PREFIX + stable + ":" + nonce
  }

  /** `split_once(':')`, the part before. */
  function BeforeColon(s: string): Option<string> {
    if s == "" then None
    else if s[0] == ':' then Some("")
    else
      var rest := BeforeColon(s[1..]);
      if rest.None? then None else Some([s[0]] + rest.value)
  }

  function ParseCid(cid: string): Option<string> {
    if RESUBSCRIBE_CID_PREFIX <= cid then BeforeColon(cid[|RESUBSCRIBE_CID_PREFIX|..]) else None
  }

  lemma {:induction false} BeforeColonIs(stable: string, rest: string)
    ensures BeforeColon(stable + ":" + rest).Some?
    ensures ':' !in BeforeColon(stable + ":" + rest).value
    ensures ':' !in stable ==> BeforeColon(stable + ":" + rest).value == stable
  {
    var s := stable + ":" + rest;
    if stable != "" {
      assert s[1..] == stable[1..] + ":" + rest;
      BeforeColonIs(stable[1..], rest);
      assert stable == [stable[0]] + stable[1..];
    }
  }

  /** A resubscribe reply finds its way back to its subscription exactly when the id holds no colon. */
  lemma {:induction false} ResubscribeCidRoundTrip(stable: string, nonce: string)
    ensures ParseCid(ResubscribeCid(stable, nonce)) == Some(stable) <==> ':' !in stable
  {
    var cid := ResubscribeCid(stable, nonce);
    var rest := stable + ":" + nonce;
    assert cid == RESUBSCRIBE_CID_PREFIX + rest;
    assert cid[|RESUBSCRIBE_CID_PREFIX|..] == rest;
    BeforeColonIs(stable, nonce);
  }

  // ----- The connection protocol -----

  /** A subscribe frame: of the connection manager after a connect, or of a caller of `subscribe`. */
  datatype Frame = Resubscribe(stable: string, pattern: string) | Subscribe(stable: string, pattern: string)

  /** The server's own record of an id: the connection that issued it and the pattern it stands for. */
  datatype Issue = Issue(epoch: nat, pattern: string)

  /** `queue` holds the frames on their way to the connection manager, which outlive a connection, and `sent` those
      sent on the current one and not yet answered. `pending` are the calls of `subscribe` that still have their
      entry in the table of pending replies, `ready` the replies handed to a caller that has not yet inserted them,
      `abandoned` the calls whose future was dropped, `released` the server ids the client has sent an unsubscribe
      for. `asked`, `inserted`, `atConnect` and `refused` are history: the pattern each id was created for, the ids
      ever inserted, those active at the last connect, and those whose resubscription the server refused. */
  datatype Client = Client(
    reg: Registry, connected: bool, epoch: nat, queue: set<Frame>, sent: set<Frame>, issued: map<string, Issue>,
    pending: set<string>, ready: map<string, (string, Issue)>, abandoned: set<string>, released: set<string>,
    asked: map<string, string>, inserted: set<string>, atConnect: set<string>, refused: set<string>)

  const START := Client(Registry(map[], map[]), false, 0, {}, {}, map[], {}, map[], {}, {}, map[], {}, {}, {})

  datatype Label =
    | Connect
    | Drop
    | Ask(stable: string, pattern: string)
    | Transmit(frame: Frame)
    | Discard(frame: Frame)
    | Grant(frame: Frame, server: string)
    | Deny(frame: Frame)
    | Insert(stable: string)
    | Abandon(stable: string)
    | Unsubscribe(stable: string, queued: bool)
    | Deliver(server: string)

  /** Stable ids and server ids are fresh; the server answers only frames of the live connection. A caller may see
      the client connected and enter its request after the connection has dropped. Commands are thrown away only
      while connecting fails. An unsubscribe first removes the subscription; its frame is not `queued` when the
      caller goes away before there is room. */
  predicate Enabled(c: Client, l: Label) {
    match l
    case Connect => !c.connected
    case Drop => c.connected
    case Ask(k, _) => c.epoch > 0 && k !in c.asked
    case Transmit(f) => c.connected && f in c.queue
    case Discard(f) => !c.connected && f in c.queue
    case Grant(f, s) => c.connected && f in c.sent && s !in c.issued
    case Deny(f) => c.connected && f in c.sent
    case Insert(k) => k in c.ready
    case Abandon(k) => (k in c.pending || k in c.ready) && k !in c.abandoned
    case Unsubscribe(_, _) => true
    case Deliver(_) => c.connected
  }

  /** What the client does with the id the server issued for a frame. A reply to a subscribe whose pending entry is
      gone, or whose caller is, reaches nobody. */
  function Granted(c: Client, f: Frame, s: string): Client {
    match f
    case Resubscribe(k, _) => c.(reg := Bound(c.reg, k, s))
    case Subscribe(k, p) =>
      if k in c.pending && k !in c.abandoned
      then c.(pending := c.pending - {k}, ready := c.ready[k := (s, Issue(c.epoch, p))])
      else c.(pending := c.pending - {k})
  }

  function Next(c: Client, l: Label): Client
    requires Enabled(c, l)
  {
    match l
    case Connect =>
      c.(connected := true, epoch := c.epoch + 1,
         sent := set k | k in c.reg.byStable :: Resubscribe(k, c.reg.byStable[k].pattern),
         atConnect := c.reg.byStable.Keys, refused := {})
    case Drop => c.(connected := false, sent := {}, pending := {}, reg := Cleared(c.reg))
    case Ask(k, p) =>
      c.(queue := c.queue + {Subscribe(k, p)}, pending := c.pending + {k}, asked := c.asked[k := p])
    case Transmit(f) => c.(queue := c.queue - {f}, sent := c.sent + {f})
    case Discard(f) => c.(queue := c.queue - {f})
    case Grant(f, s) =>
      Granted(c, f, s).(sent := c.sent - {f}, issued := c.issued[s := Issue(c.epoch, f.pattern)])
    case Deny(f) =>
      if f.Resubscribe? then c.(sent := c.sent - {f}, refused := c.refused + {f.stable})
      else c.(sent := c.sent - {f}, pending := c.pending - {f.stable})
    case Insert(k) =>
      var (s, issue) := c.ready[k];
      c.(reg := Bound(Inserted(c.reg, k, issue.pattern), k, s), ready := c.ready - {k}, inserted := c.inserted + {k})
    case Abandon(k) => c.(abandoned := c.abandoned + {k}, ready := c.ready - {k})
    case Unsubscribe(k, queued) =>
      c.(reg := Removed(c.reg, k),
         released := if queued && k in c.reg.byStable && c.reg.byStable[k].serverId.Some?
                     then c.released + {c.reg.byStable[k].serverId.value} else c.released)
    case Deliver(_) => c
  }

  ghost predicate Run(states: seq<Client>, labels: seq<Label>) {
    Path(states, labels) && states[0] == START
  }

  ghost predicate Path(states: seq<Client>, labels: seq<Label>) {
    && |states| == |labels| + 1
    && forall i :: 0 <= i < |labels| ==> Enabled(states[i], labels[i]) && states[i + 1] == Next(states[i], labels[i])
  }

  /** Where every id is: not answered, answered and waiting, or inserted; never in two places. */
  ghost predicate Placed(c: Client) {
    && c.reg.byStable.Keys <= c.inserted <= c.asked.Keys
    && c.ready.Keys <= c.asked.Keys && c.ready.Keys !! c.inserted
    && c.pending <= c.asked.Keys && c.pending !! c.ready.Keys && c.pending !! c.inserted
    && c.atConnect <= c.inserted && c.abandoned <= c.asked.Keys
    && forall f :: f in c.queue + c.sent ==> FrameOk(c, f)
  }

  /** A frame under way is for the pattern of its id; a caller's is in one place and its id in none. */
  ghost predicate FrameOk(c: Client, f: Frame) {
    && f.stable in c.asked && f.pattern == c.asked[f.stable]
    && (f.Subscribe? ==> f.stable !in c.ready && f.stable !in c.inserted && !(f in c.queue && f in c.sent))
    && (f.Resubscribe? ==> f.stable in c.atConnect && f !in c.queue)
  }

  /** Every server id in use was issued for the pattern its holder was created with. */
  ghost predicate Owned(c: Client) {
    && (forall k :: k in c.reg.byStable ==> k in c.asked && c.reg.byStable[k].pattern == c.asked[k])
    && (forall k, s :: IsBound(c.reg, k, s) ==> s in c.issued && k in c.asked && c.issued[s].pattern == c.asked[k])
    && (forall k :: k in c.ready ==> k in c.asked && c.ready[k].1.pattern == c.asked[k]
                                     && c.ready[k].0 in c.issued && c.issued[c.ready[k].0] == c.ready[k].1)
  }

  /** A server id waiting to be inserted is held by nobody else. */
  ghost predicate Unshared(c: Client) {
    && (forall k, j :: k in c.ready ==> !IsBound(c.reg, j, c.ready[k].0))
    && (forall k, j :: k in c.ready && j in c.ready && c.ready[k].0 == c.ready[j].0 ==> k == j)
  }

  /** Every subscription active at connect and still there is bound on this connection, or has its
      resubscription still in flight, or was refused by the server. */
  ghost predicate Resuming(c: Client) {
    c.connected ==>
      forall k :: k in c.atConnect && k in c.reg.byStable ==>
        || Resubscribe(k, c.reg.byStable[k].pattern) in c.sent
        || k in c.refused
        || BoundNow(c, k)
  }

  ghost predicate BoundNow(c: Client, k: string) {
    && k in c.reg.byStable && c.reg.byStable[k].serverId.Some?
    && c.reg.byStable[k].serverId.value in c.issued
    && c.issued[c.reg.byStable[k].serverId.value] == Issue(c.epoch, c.reg.byStable[k].pattern)
  }

  ghost predicate Invariant(c: Client) {
    Inverse(c.reg) && Placed(c) && Owned(c) && Unshared(c) && Resuming(c)
  }

  /** What each registry operation does to the bindings. */
  lemma {:induction false} BindingsAfter(
      r: Registry, stable: string, server: string, pattern: string, k: string, s: string)
    ensures stable in r.byStable ==>
              (IsBound(Bound(r, stable, server), k, s) <==> if k == stable then s == server else IsBound(r, k, s))
    ensures IsBound(Inserted(r, stable, pattern), k, s) <==> k != stable && IsBound(r, k, s)
    ensures IsBound(Removed(r, stable), k, s) <==> k != stable && IsBound(r, k, s)
    ensures !IsBound(Cleared(r), k, s)
  {
  }

  /** Only a granted resubscription and an insert create bindings. */
  lemma {:induction false} NewBindings(c: Client, l: Label, k: string, s: string)
    requires Enabled(c, l)
    ensures IsBound(Next(c, l).reg, k, s) ==>
              || IsBound(c.reg, k, s)
              || (l.Grant? && l.frame.Resubscribe? && l.server == s && l.frame.stable == k)
              || (l.Insert? && l.stable == k && c.ready[k].0 == s)
    ensures l.Drop? ==> !IsBound(Next(c, l).reg, k, s)
  {
  }

  lemma {:induction false} StepInverse(c: Client, l: Label)
    requires Inverse(c.reg) && Placed(c) && Owned(c) && Unshared(c) && Enabled(c, l)
    ensures Inverse(Next(c, l).reg)
  {
    match l
    case Grant(f, s) =>
      BindKeepsInverseIff(c.reg, f.stable, s);
    case Insert(k) =>
      var (s, issue) := c.ready[k];
      var r := Inserted(c.reg, k, issue.pattern);
      InsertKeepsInverseIff(c.reg, k, issue.pattern);
      BindKeepsInverseIff(r, k, s);
      forall j ensures !IsBound(r, j, s) {
        BindingsAfter(c.reg, k, s, issue.pattern, j, s);
      }
    case Unsubscribe(k, _) => RemoveKeepsInverse(c.reg, k);
    case Drop => RemoveKeepsInverse(c.reg, "");
    case _ =>
  }

  /** The ids a registry holds. */
  lemma {:induction false} KeysAfter(r: Registry, k: string, p: string, s: string)
    ensures Bound(r, k, s).byStable.Keys == r.byStable.Keys
    ensures Inserted(r, k, p).byStable.Keys == r.byStable.Keys + {k}
    ensures Removed(r, k).byStable.Keys == r.byStable.Keys - {k}
    ensures Cleared(r).byStable.Keys == r.byStable.Keys
  {
  }

  lemma {:induction false} StepKeys(c: Client, l: Label)
    requires Enabled(c, l)
    ensures Next(c, l).reg.byStable.Keys ==
            match l
            case Insert(k) => c.reg.byStable.Keys + {k}
            case Unsubscribe(k, _) => c.reg.byStable.Keys - {k}
            case _ => c.reg.byStable.Keys
  {
    hide Bound, Inserted, Removed, Cleared;
    match l {
      case Drop => KeysAfter(c.reg, "", "", "");
      case Grant(f, s) => KeysAfter(c.reg, f.stable, "", s);
      case Insert(k) =>
        KeysAfter(c.reg, k, c.ready[k].1.pattern, "");
        KeysAfter(Inserted(c.reg, k, c.ready[k].1.pattern), k, "", c.ready[k].0);
      case Unsubscribe(k, _) => KeysAfter(c.reg, k, "", "");
      case _ =>
    }
  }

  /** What is asked and issued is never forgotten or changed. */
  lemma {:induction false} HistoryStep(c: Client, l: Label)
    requires Enabled(c, l)
    ensures forall k :: k in c.asked ==> k in Next(c, l).asked && Next(c, l).asked[k] == c.asked[k]
    ensures forall s :: s in c.issued ==> s in Next(c, l).issued && Next(c, l).issued[s] == c.issued[s]
    ensures forall s :: s in Next(c, l).issued && s !in c.issued ==>
              l.Grant? && s == l.server && Next(c, l).issued[s] == Issue(c.epoch, l.frame.pattern)
    ensures l.Grant? ==>
              l.server in Next(c, l).issued && Next(c, l).issued[l.server] == Issue(c.epoch, l.frame.pattern)
    ensures !l.Connect? ==> Next(c, l).epoch == c.epoch
  {
    hide Bound, Inserted, Removed, Cleared;
  }

  /** A reply is handed over by a grant, and taken up by an insert or lost with its caller. */
  lemma {:induction false} ReadyStep(c: Client, l: Label, k: string)
    requires Enabled(c, l)
    ensures k in Next(c, l).ready ==>
              || (k in c.ready && Next(c, l).ready[k] == c.ready[k])
              || (&& l.Grant? && l.frame.Subscribe? && l.frame.stable == k && k in c.pending && k !in c.abandoned
                  && Next(c, l).ready[k] == (l.server, Issue(c.epoch, l.frame.pattern)))
    ensures l.Grant? && l.frame.Subscribe? && l.frame.stable == k && k in c.pending && k !in c.abandoned ==>
              k in Next(c, l).ready && Next(c, l).ready[k] == (l.server, Issue(c.epoch, l.frame.pattern))
    ensures k in c.ready && l != Insert(k) && l != Abandon(k) ==> k in Next(c, l).ready
    ensures l == Insert(k) || l == Abandon(k) ==> k !in Next(c, l).ready
  {
    hide Bound, Inserted, Removed, Cleared;
  }

  lemma {:induction false} FlightStep(c: Client, l: Label, f: Frame)
    requires Enabled(c, l)
    ensures f in Next(c, l).sent ==>
              || f in c.sent || l == Transmit(f)
              || (l.Connect? && f.Resubscribe? && f.stable in c.reg.byStable
                  && f.pattern == c.reg.byStable[f.stable].pattern)
    ensures f in Next(c, l).sent && l.Connect? ==> f.Resubscribe? && f.stable in Next(c, l).atConnect
    ensures f in Next(c, l).queue ==> f in c.queue || (l.Ask? && f == Subscribe(l.stable, l.pattern))
    ensures l.Transmit? ==> l.frame in c.queue && l.frame !in Next(c, l).queue
    ensures l.Grant? || l.Deny? ==> l.frame in c.sent && l.frame !in Next(c, l).sent
    ensures f in c.sent && f !in Next(c, l).sent ==>
              l.Connect? || l.Drop? || ((l.Grant? || l.Deny?) && l.frame == f)
  {
    hide Bound, Inserted, Removed, Cleared;
  }

  lemma {:induction false} SetsStep(c: Client, l: Label)
    requires Enabled(c, l)
    ensures Next(c, l).atConnect == (if l.Connect? then c.reg.byStable.Keys else c.atConnect)
    ensures Next(c, l).inserted == c.inserted + (if l.Insert? then {l.stable} else {})
    ensures Next(c, l).abandoned == c.abandoned + (if l.Abandon? then {l.stable} else {})
    ensures Next(c, l).asked.Keys == c.asked.Keys + (if l.Ask? then {l.stable} else {})
    ensures l.Ask? ==> l.stable !in c.asked && Next(c, l).asked[l.stable] == l.pattern
    ensures l.Insert? ==> l.stable in c.ready
    ensures l.Abandon? ==> l.stable in c.pending || l.stable in c.ready
    ensures Next(c, l).pending == PendingAfter(c, l)
  {
    hide Bound, Inserted, Removed, Cleared;
    PendingStep(c, l);
  }

  ghost function PendingAfter(c: Client, l: Label): set<string> {
    if l.Drop? then {}
    else if l.Ask? then c.pending + {l.stable}
    else if (l.Grant? || l.Deny?) && l.frame.Subscribe? then c.pending - {l.frame.stable}
    else c.pending
  }

  lemma {:induction false} PendingStep(c: Client, l: Label)
    requires Enabled(c, l)
    ensures Next(c, l).pending == PendingAfter(c, l)
  {
    hide Bound, Inserted, Removed, Cleared;
  }

  lemma {:induction false} StepFrames(c: Client, l: Label, f: Frame)
    requires Placed(c) && Owned(c) && Enabled(c, l) && f in Next(c, l).queue + Next(c, l).sent
    ensures FrameOk(Next(c, l), f)
  {
    hide Next, Enabled;
    FlightStep(c, l, f);
    SetsStep(c, l);
    HistoryStep(c, l);
    ReadyStep(c, l, f.stable);
    if f in c.queue + c.sent {
      assert FrameOk(c, f);
    }
    if l.Grant? || l.Deny? || l.Transmit? {
      assert FrameOk(c, l.frame);
    }
  }

  lemma {:induction false} StepPlaced(c: Client, l: Label)
    requires Placed(c) && Owned(c) && Enabled(c, l)
    ensures Placed(Next(c, l))
  {
    hide Next, Enabled, FrameOk;
    var c' := Next(c, l);
    StepKeys(c, l);
    SetsStep(c, l);
    if l.Grant? && l.frame.Subscribe? {
      FlightStep(c, l, l.frame);
      assert l.frame.stable !in c.inserted by { PlacedFrame(c, l.frame); }
    }
    forall k | k in c'.ready ensures k in c'.asked && k !in c'.inserted && k !in c'.pending {
      ReadyStep(c, l, k);
    }
    forall f | f in c'.queue + c'.sent ensures FrameOk(c', f) {
      StepFrames(c, l, f);
    }
  }

  lemma PlacedFrame(c: Client, f: Frame)
    requires Placed(c) && f in c.queue + c.sent
    ensures FrameOk(c, f)
  {
  }

  /** A subscription keeps its pattern, and its id except where it is bound, inserted or cleared. */
  lemma {:induction false} SubscriptionStep(c: Client, l: Label, k: string)
    requires Enabled(c, l) && k in Next(c, l).reg.byStable
    ensures l == Insert(k) ==>
              Next(c, l).reg.byStable[k] == Subscription(c.ready[k].1.pattern, Some(c.ready[k].0))
    ensures l != Insert(k) ==> k in c.reg.byStable && Next(c, l).reg.byStable[k].pattern == c.reg.byStable[k].pattern
    ensures l != Insert(k) && !l.Drop? && !(l.Grant? && l.frame.Resubscribe? && l.frame.stable == k) ==>
              Next(c, l).reg.byStable[k] == c.reg.byStable[k]
    ensures l.Grant? && l.frame.Resubscribe? && l.frame.stable == k ==>
              Next(c, l).reg.byStable[k].serverId == Some(l.server)
  {
  }

  lemma {:induction false} StepOwned(c: Client, l: Label)
    requires Placed(c) && Owned(c) && Enabled(c, l)
    ensures Owned(Next(c, l))
  {
    hide Next, Enabled;
    var c' := Next(c, l);
    HistoryStep(c, l);
    SetsStep(c, l);
    if l.Grant? {
      FlightStep(c, l, l.frame);
      PlacedFrame(c, l.frame);
    }
    forall k | k in c'.reg.byStable ensures k in c'.asked && c'.reg.byStable[k].pattern == c'.asked[k] {
      SubscriptionStep(c, l, k);
    }
    forall k, s | IsBound(c'.reg, k, s)
      ensures s in c'.issued && k in c'.asked && c'.issued[s].pattern == c'.asked[k]
    {
      NewBindings(c, l, k, s);
    }
    forall k | k in c'.ready
      ensures k in c'.asked && c'.ready[k].1.pattern == c'.asked[k]
      ensures c'.ready[k].0 in c'.issued && c'.issued[c'.ready[k].0] == c'.ready[k].1
    {
      ReadyStep(c, l, k);
    }
  }

  lemma {:induction false} StepUnshared(c: Client, l: Label)
    requires Placed(c) && Owned(c) && Unshared(c) && Enabled(c, l)
    ensures Unshared(Next(c, l))
  {
    hide Next, Placed;
    var c' := Next(c, l);
    forall k, j | k in c'.ready
      ensures !IsBound(c'.reg, j, c'.ready[k].0)
    {
      ReadyStep(c, l, k);
      ReadyStep(c, l, j);
      NewBindings(c, l, j, c'.ready[k].0);
    }
    forall k, j | k in c'.ready && j in c'.ready && c'.ready[k].0 == c'.ready[j].0
      ensures k == j
    {
      ReadyStep(c, l, k);
      ReadyStep(c, l, j);
    }
  }

  lemma {:induction false} StepResuming(c: Client, l: Label)
    requires Placed(c) && Owned(c) && Resuming(c) && Enabled(c, l)
    ensures Resuming(Next(c, l))
  {
    hide Next, Enabled, BoundNow, Placed, Owned;
    var c' := Next(c, l);
    if c'.connected {
      forall k | k in c'.atConnect && k in c'.reg.byStable
        ensures Resubscribe(k, c'.reg.byStable[k].pattern) in c'.sent || k in c'.refused || BoundNow(c', k)
      {
        StepResumingFor(c, l, k);
      }
    }
  }

  lemma {:induction false} ConnectStep(c: Client, l: Label, k: string)
    requires Enabled(c, l) && Next(c, l).connected
    ensures l.Connect? && k in c.reg.byStable ==>
              Next(c, l).reg == c.reg && Resubscribe(k, c.reg.byStable[k].pattern) in Next(c, l).sent
    ensures !l.Connect? ==> c.connected && !l.Drop? && c.refused <= Next(c, l).refused
    ensures l.Deny? && l.frame.Resubscribe? ==> l.frame.stable in Next(c, l).refused
  {
    hide Bound, Inserted, Removed, Cleared;
  }

  lemma {:induction false} StepResumingFor(c: Client, l: Label, k: string)
    requires Placed(c) && Owned(c) && Resuming(c) && Enabled(c, l) && Next(c, l).connected
    requires k in Next(c, l).atConnect && k in Next(c, l).reg.byStable
    ensures Resubscribe(k, Next(c, l).reg.byStable[k].pattern) in Next(c, l).sent
            || k in Next(c, l).refused || BoundNow(Next(c, l), k)
  {
    hide Next, Enabled;
    ConnectStep(c, l, k);
    SetsStep(c, l);
    HistoryStep(c, l);
    SubscriptionStep(c, l, k);
    if !l.Connect? {
      assert l != Insert(k);
      var f := Resubscribe(k, c.reg.byStable[k].pattern);
      FlightStep(c, l, f);
      if l.Grant? {
        FlightStep(c, l, l.frame);
        PlacedFrame(c, l.frame);
      }
      if BoundNow(c, k) && !(l.Grant? && l.frame.Resubscribe? && l.frame.stable == k) {
        assert BoundNow(Next(c, l), k);
      }
    }
  }

  /** The invariant holds throughout every run, with any number of drops and reconnects. */
  lemma {:induction false} InvariantHolds(states: seq<Client>, labels: seq<Label>, i: nat)
    requires Run(states, labels) && i <= |labels|
    ensures Invariant(states[i])
  {
    hide Placed, Owned, Unshared, Resuming, Inverse, Next;
    if i == 0 {
      StartInvariant();
    } else {
      InvariantHolds(states, labels, i - 1);
      var c, l := states[i - 1], labels[i - 1];
      assert Enabled(c, l) && states[i] == Next(c, l);
      StepInverse(c, l);
      StepPlaced(c, l);
      StepOwned(c, l);
      StepUnshared(c, l);
      StepResuming(c, l);
    }
  }

  lemma StartInvariant()
    ensures Invariant(START)
  {
  }

  // ----- Subscriptions survive everything but unsubscribe -----

  function Patterns(c: Client): map<string, string> {
    map k | k in c.reg.byStable :: c.reg.byStable[k].pattern
  }

  /** The subscriptions as the callers know them: asked for, inserted, not unsubscribed. */
  function Ledger(labels: seq<Label>, asked: map<string, string>): map<string, string> {
    if labels == [] then map[]
    else
      var before := Ledger(labels[..|labels| - 1], asked);
      match labels[|labels| - 1]
      case Insert(k) => if k in asked then before[k := asked[k]] else before
      case Unsubscribe(k, _) => before - {k}
      case _ => before
  }

  lemma {:induction false} AskedGrows(states: seq<Client>, labels: seq<Label>, i: nat, j: nat)
    requires Run(states, labels) && i <= j <= |labels|
    ensures forall k :: k in states[i].asked ==> k in states[j].asked && states[j].asked[k] == states[i].asked[k]
    decreases j - i
  {
    if i < j {
      AskedGrows(states, labels, i, j - 1);
      assert Enabled(states[j - 1], labels[j - 1]);
    }
  }

  lemma {:induction false} PatternsStep(c: Client, l: Label)
    requires Enabled(c, l)
    ensures Patterns(Next(c, l)) ==
            match l
            case Insert(k) => Patterns(c)[k := c.ready[k].1.pattern]
            case Unsubscribe(k, _) => Patterns(c) - {k}
            case _ => Patterns(c)
  {
  }

  /** The set of (stable id, pattern) pairs is changed by inserts and unsubscribes only, so it survives every
      drop and reconnect, and each id keeps the pattern it was created with. */
  lemma {:induction false} PatternsFollowLedger(states: seq<Client>, labels: seq<Label>, i: nat)
    requires Run(states, labels) && i <= |labels|
    ensures Patterns(states[i]) == Ledger(labels[..i], AskedIn(labels))
  {
    AskedIsLabelled(states, labels, |labels|);
    assert labels[..|labels|] == labels;
    if i > 0 {
      var c, l := states[i - 1], labels[i - 1];
      PatternsFollowLedger(states, labels, i - 1);
      InvariantHolds(states, labels, i - 1);
      AskedGrows(states, labels, i - 1, |labels|);
      PatternsStep(c, l);
      assert Enabled(c, l) && states[i] == Next(c, l);
      assert labels[..i][..i - 1] == labels[..i - 1] && labels[..i][i - 1] == l;
    }
  }

  /** A caller's frame leaves the queue and the connection for good once it is thrown away or answered, and once it
      is sent its caller's pattern is the one on the wire. */
  ghost predicate Used(c: Client, f: Frame) {
    f.stable in c.asked && f !in c.queue && f !in c.sent
  }

  lemma {:induction false} UsedStays(c: Client, l: Label, f: Frame)
    requires Enabled(c, l) && f.Subscribe?
    ensures Used(c, f) ==> Used(Next(c, l), f)
    ensures Placed(c) && (l == Discard(f) || l == Deny(f) || (l.Grant? && l.frame == f)) ==> Used(Next(c, l), f)
    ensures Used(c, f) ==> l != Discard(f) && l != Transmit(f) && l != Deny(f) && !(l.Grant? && l.frame == f)
  {
    hide Bound, Inserted, Removed, Cleared;
    if f in c.queue + c.sent && Placed(c) {
      assert FrameOk(c, f);
    }
  }

  lemma {:induction false} UsedLater(states: seq<Client>, labels: seq<Label>, i: nat, j: nat, f: Frame)
    requires Run(states, labels) && i <= j <= |labels| && f.Subscribe? && Used(states[i], f)
    ensures Used(states[j], f)
    decreases j
  {
    hide Next, Used;
    if i < j {
      UsedLater(states, labels, i, j - 1, f);
      assert Enabled(states[j - 1], labels[j - 1]) && states[j] == Next(states[j - 1], labels[j - 1]);
      UsedStays(states[j - 1], labels[j - 1], f);
    }
  }

  /** A subscribe frame that was thrown away, granted or denied is never sent, thrown away or answered again. */
  lemma {:induction false} FramesEndOnce(states: seq<Client>, labels: seq<Label>, i: nat, j: nat, f: Frame)
    requires Run(states, labels) && i < j < |labels| && f.Subscribe?
    requires labels[i] == Discard(f) || labels[i] == Deny(f) || (labels[i].Grant? && labels[i].frame == f)
    ensures labels[j] != Transmit(f) && labels[j] != Discard(f) && labels[j] != Deny(f)
    ensures !(labels[j].Grant? && labels[j].frame == f)
  {
    hide Next, Used, Placed, Owned, Unshared, Resuming, Inverse;
    assert Enabled(states[i], labels[i]) && states[i + 1] == Next(states[i], labels[i]);
    assert Enabled(states[j], labels[j]);
    InvariantHolds(states, labels, i);
    UsedStays(states[i], labels[i], f);
    UsedLater(states, labels, i + 1, j, f);
    UsedStays(states[j], labels[j], f);
  }

  /** The call of `subscribe` for this frame has nothing more to come. */
  ghost predicate CallOver(c: Client, f: Frame) {
    Used(c, f) && f.stable !in c.pending && f.stable !in c.ready
  }

  lemma {:induction false} CallOverStays(c: Client, l: Label, f: Frame)
    requires Enabled(c, l) && f.Subscribe? && Placed(c)
    ensures CallOver(c, f) ==> CallOver(Next(c, l), f)
    ensures l == Deny(f) ==> CallOver(Next(c, l), f)
    ensures CallOver(c, f) ==> l != Abandon(f.stable) && l != Insert(f.stable)
  {
    hide Bound, Inserted, Removed, Cleared;
    if l.Deny? || l.Grant? {
      assert FrameOk(c, l.frame);
    }
    if f in c.queue + c.sent {
      assert FrameOk(c, f);
    }
  }

  lemma {:induction false} CallOverLater(states: seq<Client>, labels: seq<Label>, i: nat, j: nat, f: Frame)
    requires Run(states, labels) && i <= j <= |labels| && f.Subscribe? && CallOver(states[i], f)
    ensures CallOver(states[j], f)
    decreases j
  {
    hide Next, CallOver, Placed, Owned, Unshared, Resuming, Inverse;
    if i < j {
      CallOverLater(states, labels, i, j - 1, f);
      InvariantHolds(states, labels, j - 1);
      assert Enabled(states[j - 1], labels[j - 1]) && states[j] == Next(states[j - 1], labels[j - 1]);
      CallOverStays(states[j - 1], labels[j - 1], f);
    }
  }

  /** A subscribe the server refuses is over: nothing is inserted for it, and there is no call left to abandon. */
  lemma {:induction false} DeniedIsOver(states: seq<Client>, labels: seq<Label>, i: nat, j: nat, f: Frame)
    requires Run(states, labels) && i < j < |labels| && f.Subscribe? && labels[i] == Deny(f)
    ensures labels[j] != Insert(f.stable) && labels[j] != Abandon(f.stable)
  {
    hide Next, CallOver, Placed, Owned, Unshared, Resuming, Inverse;
    assert Enabled(states[i], labels[i]) && states[i + 1] == Next(states[i], labels[i]);
    assert Enabled(states[j], labels[j]);
    InvariantHolds(states, labels, i);
    InvariantHolds(states, labels, j);
    CallOverStays(states[i], labels[i], f);
    CallOverLater(states, labels, i + 1, j, f);
    CallOverStays(states[j], labels[j], f);
  }

  /** The patterns callers asked for, read off the run. */
  function AskedIn(labels: seq<Label>): map<string, string> {
    if labels == [] then map[]
    else
      var before, l := AskedIn(labels[..|labels| - 1]), labels[|labels| - 1];
      if l.Ask? then before[l.stable := l.pattern] else before
  }

  lemma {:induction false} AskedIsLabelled(states: seq<Client>, labels: seq<Label>, i: nat)
    requires Run(states, labels) && i <= |labels|
    ensures states[i].asked == AskedIn(labels[..i])
  {
    hide Next;
    if i > 0 {
      AskedIsLabelled(states, labels, i - 1);
      assert Enabled(states[i - 1], labels[i - 1]) && states[i] == Next(states[i - 1], labels[i - 1]);
      HistoryStep(states[i - 1], labels[i - 1]);
      SetsStep(states[i - 1], labels[i - 1]);
      assert labels[..i][..i - 1] == labels[..i - 1];
    }
  }

  // ----- No stale server id -----

  /** Every bound server id was issued on the live connection. */
  ghost predicate Current(c: Client) {
    forall k, s :: IsBound(c.reg, k, s) ==> c.connected && s in c.issued && c.issued[s].epoch == c.epoch
  }

  /** The caller inserts its reply before the connection that carried it drops. */
  ghost predicate Timely(c: Client, l: Label) {
    l.Insert? && l.stable in c.ready ==> c.connected && c.ready[l.stable].1.epoch == c.epoch
  }

  lemma {:induction false} CurrentStepIff(c: Client, l: Label)
    requires Invariant(c) && Current(c) && Enabled(c, l)
    ensures Current(Next(c, l)) <==> Timely(c, l)
  {
    var c' := Next(c, l);
    if Timely(c, l) {
      forall k, s | IsBound(c'.reg, k, s)
        ensures c'.connected && s in c'.issued && c'.issued[s].epoch == c'.epoch
      {
        NewBindings(c, l, k, s);
      }
    } else {
      var s := c.ready[l.stable].0;
      assert IsBound(c'.reg, l.stable, s);
    }
  }

  /** No server id of a dropped connection is ever bound again, in the whole run, if and only if every
      subscribe reply is inserted while its own connection is still up. */
  lemma {:induction false} NeverStaleIff(states: seq<Client>, labels: seq<Label>)
    requires Run(states, labels)
    ensures (forall i :: 0 <= i <= |labels| ==> Current(states[i])) <==>
            (forall i :: 0 <= i < |labels| ==> Timely(states[i], labels[i]))
  {
    hide Current, Timely;
    if forall i :: 0 <= i <= |labels| ==> Current(states[i]) {
      forall i | 0 <= i < |labels| ensures Timely(states[i], labels[i]) {
        CurrentAt(states, labels, i);
      }
    }
    if forall i :: 0 <= i < |labels| ==> Timely(states[i], labels[i]) {
      StartCurrent();
      var n := 0;
      while n < |labels|
        invariant n <= |labels|
        invariant forall i :: 0 <= i <= n ==> Current(states[i])
      {
        CurrentAt(states, labels, n);
        n := n + 1;
      }
    }
  }

  lemma {:induction false} CurrentAt(states: seq<Client>, labels: seq<Label>, i: nat)
    requires Run(states, labels) && i < |labels| && Current(states[i])
    ensures Current(states[i + 1]) <==> Timely(states[i], labels[i])
  {
    hide Invariant, Current, Timely, Next;
    InvariantHolds(states, labels, i);
    assert Enabled(states[i], labels[i]) && states[i + 1] == Next(states[i], labels[i]);
    CurrentStepIff(states[i], labels[i]);
  }

  lemma StartCurrent()
    ensures Current(START)
  {
  }

  /** In a timely run an event is delivered only to the subscription its server id was issued for, on the live
      connection, under the pattern that subscription was created with. */
  lemma {:induction false} EventsReachTheirSubscription(states: seq<Client>, labels: seq<Label>, i: nat, server: string)
    requires Run(states, labels) && i <= |labels|
    requires forall j :: 0 <= j < |labels| ==> Timely(states[j], labels[j])
    ensures var c, k := states[i], Route(states[i].reg, server);
            k.Some? ==> c.connected && server in c.issued && k.value in c.asked
                        && c.issued[server] == Issue(c.epoch, c.asked[k.value])
  {
    NeverStaleIff(states, labels);
    InvariantHolds(states, labels, i);
    var c := states[i];
    var k := Route(c.reg, server);
    if k.Some? {
      RouteIsScan(c.reg, server, k.value);
      assert Current(c);
    }
  }

  /** Every subscription that was active at connect, has not been removed, and whose own resubscription has been
      answered and not refused is bound to an id this connection issued for its own pattern. */
  lemma {:induction false} ReconnectResumes(states: seq<Client>, labels: seq<Label>, i: nat, k: string)
    requires Run(states, labels) && i <= |labels| && states[i].connected
    requires k in states[i].atConnect && k in states[i].reg.byStable
    requires k !in states[i].refused && forall f :: f in states[i].sent && f.Resubscribe? ==> f.stable != k
    ensures BoundNow(states[i], k) && k in states[i].asked && states[i].reg.byStable[k].pattern == states[i].asked[k]
  {
    InvariantHolds(states, labels, i);
    assert Resubscribe(k, states[i].reg.byStable[k].pattern) !in states[i].sent;
  }
}
