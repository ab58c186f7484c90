/** The event bus's subject index: a trie over dot-separated tokens with `*` and `>`. */
module SubjectIndex {
  import opened Sequences

  const MAX_SUBJECT_DEPTH := 256

  datatype Entry = Entry(id: string, pattern: string, priority: nat)

  /** A node owns its children, so a trie is a value; the index reassigns its root. */
  datatype Trie = Node(
    subscriptions: seq<Entry>,
    children: map<string, Trie>,
    wildcard: Option<Trie>,
    terminal: seq<Entry>)

  const EMPTY := Node([], map[], None, [])

  predicate IsEmpty(t: Trie) {
    t.subscriptions == [] && t.children.Keys == {} && t.wildcard.None? && t.terminal == []
  }

  /** `str::split('.')`: always at least one token. */
  function Split(s: string): (tokens: seq<string>)
    ensures |tokens| >= 1
    ensures Join(tokens) == s
    ensures forall t :: t in tokens ==> '.' !in t
  {
    if s == "" then [""]
    else
      var rest := Split(s[1..]);
      if s[0] == '.' then [""] + rest
      else [[s[0]] + rest[0]] + rest[1..]
  }

  function Join(tokens: seq<string>): string {
    if tokens == [] then ""
    else if |tokens| == 1 then tokens[0]
    else tokens[0] + "." + Join(tokens[1..])
  }

  predicate ValidPattern(tokens: seq<string>) {
    && |tokens| <= MAX_SUBJECT_DEPTH
    && (forall i :: 0 <= i < |tokens| ==> tokens[i] != "")
    && (forall i :: 0 <= i < |tokens| - 1 ==> tokens[i] != ">")
  }

  /** What a pattern means, token by token and without any trie: `*` stands for any one token,
      a final `>` for one or more. */
  ghost predicate Matches(pattern: seq<string>, subject: seq<string>) {
    if pattern != [] && pattern[|pattern| - 1] == ">" then
      && |pattern| <= |subject|
      && forall i :: 0 <= i < |pattern| - 1 ==> pattern[i] == "*" || pattern[i] == subject[i]
    else
      && |pattern| == |subject|
      && forall i :: 0 <= i < |pattern| ==> pattern[i] == "*" || pattern[i] == subject[i]
  }

  function OtherThan(id: string): Entry -> bool {
    (e: Entry) => e.id != id
  }

  ghost function MatchedBy(subject: seq<string>): Entry -> bool {
    (e: Entry) => Matches(Split(e.pattern), subject)
  }

  function PriorityKey(): Entry -> int {
    (e: Entry) => e.priority
  }

  function InsertAt(t: Trie, tokens: seq<string>, e: Entry): (r: Trie)
    decreases |tokens|
  {
    if tokens == [] then t.(subscriptions := t.subscriptions + [e])
    else if tokens[0] == ">" then t.(terminal := t.terminal + [e])
    else if tokens[0] == "*" then
      var child := if t.wildcard.Some? then t.wildcard.value else EMPTY;
      t.(wildcard := Some(InsertAt(child, tokens[1..], e)))
    else
      var child := if tokens[0] in t.children then t.children[tokens[0]] else EMPTY;
      t.(children := t.children[tokens[0] := InsertAt(child, tokens[1..], e)])
  }

  function Remove(t: Trie, id: string): (r: Trie) {
    var p := OtherThan(id);
    var pruned := map k | k in t.children && !IsEmpty(Remove(t.children[k], id)) :: Remove(t.children[k], id);
    var wild :=
      if t.wildcard.Some? && !IsEmpty(Remove(t.wildcard.value, id)) then Some(Remove(t.wildcard.value, id))
      else None;
    Node(Keep(t.subscriptions, p), pruned, wild, Keep(t.terminal, p))
  }

  function Collect(t: Trie, tokens: seq<string>): (found: seq<Entry>)
    decreases |tokens|
  {
    if tokens == [] then t.subscriptions
    else
      t.terminal
      + (if tokens[0] in t.children then Collect(t.children[tokens[0]], tokens[1..]) else [])
      + (if t.wildcard.Some? then Collect(t.wildcard.value, tokens[1..]) else [])
  }

  lemma {:induction false} CollectEmpty(tokens: seq<string>)
    ensures Collect(EMPTY, tokens) == []
  {
  }

  lemma {:induction false} MatchesStep(pattern: seq<string>, subject: seq<string>)
    requires pattern != [] && ValidPattern(pattern) && pattern[0] != ">" && subject != []
    ensures ValidPattern(pattern[1..])
    ensures Matches(pattern, subject) <==>
            (pattern[0] == "*" || pattern[0] == subject[0]) && Matches(pattern[1..], subject[1..])
  {
    var p, s := pattern[1..], subject[1..];
    assert pattern[|pattern| - 1] == ">" ==> |pattern| >= 2;
    if (pattern[0] == "*" || pattern[0] == subject[0]) && Matches(p, s) {
      forall i | 1 <= i < |pattern|
        ensures p[i - 1] == pattern[i] && (i < |subject| ==> s[i - 1] == subject[i])
      {
      }
    }
    if Matches(pattern, subject) {
      forall i | 0 <= i < |p|
        ensures p[i] == pattern[i + 1] && (i < |s| ==> s[i] == subject[i + 1])
      {
      }
    }
  }

  function Child(t: Trie, token: string): Trie {
    if token == "*" then (if t.wildcard.Some? then t.wildcard.value else EMPTY)
    else if token in t.children then t.children[token]
    else EMPTY
  }

  /** One level of a lookup, with absent branches read as the empty trie. */
  lemma {:induction false} CollectStep(t: Trie, subject: seq<string>)
    requires subject != []
    ensures Collect(t, subject) ==
            t.terminal
            + (if subject[0] in t.children then Collect(t.children[subject[0]], subject[1..]) else [])
            + Collect(Child(t, "*"), subject[1..])
    ensures subject[0] !in t.children ==> Collect(EMPTY, subject[1..]) == []
  {
    CollectEmpty(subject[1..]);
  }

  ghost function Added(pattern: seq<string>, e: Entry, subject: seq<string>): multiset<Entry> {
    if Matches(pattern, subject) then multiset{e} else multiset{}
  }

  lemma {:induction false} InsertSubscription(t: Trie, t': Trie, e: Entry, subject: seq<string>)
    requires t' == t.(subscriptions := t.subscriptions + [e])
    ensures Collect(t', subject) == Collect(t, subject) + if subject == [] then [e] else []
  {
    if subject != [] {
      CollectStep(t, subject);
      CollectStep(t', subject);
      assert Child(t', "*") == Child(t, "*");
    }
  }

  lemma {:induction false} InsertTerminal(t: Trie, t': Trie, e: Entry, subject: seq<string>)
    requires t' == t.(terminal := t.terminal + [e])
    ensures multiset(Collect(t', subject)) ==
            multiset(Collect(t, subject)) + if subject == [] then multiset{} else multiset{e}
  {
    if subject != [] {
      CollectStep(t, subject);
      CollectStep(t', subject);
      assert Child(t', "*") == Child(t, "*");
    }
  }

  lemma {:induction false} InsertStar(t: Trie, t': Trie, child: Trie, subject: seq<string>, added: multiset<Entry>)
    requires subject != []
    requires t' == t.(wildcard := Some(child))
    requires multiset(Collect(child, subject[1..])) == multiset(Collect(Child(t, "*"), subject[1..])) + added
    ensures multiset(Collect(t', subject)) == multiset(Collect(t, subject)) + added
  {
    CollectStep(t, subject);
    CollectStep(t', subject);
    assert Child(t', "*") == child;
  }

  lemma {:induction false} InsertLiteral(
      t: Trie, t': Trie, token: string, child: Trie, subject: seq<string>, added: multiset<Entry>)
    requires subject != [] && token != "*"
    requires t' == t.(children := t.children[token := child])
    requires token == subject[0] ==>
               multiset(Collect(child, subject[1..])) == multiset(Collect(Child(t, token), subject[1..])) + added
    requires token != subject[0] ==> added == multiset{}
    ensures multiset(Collect(t', subject)) == multiset(Collect(t, subject)) + added
  {
    CollectStep(t, subject);
    CollectStep(t', subject);
    assert Child(t', "*") == Child(t, "*");
  }

  /** Insertion adds the entry to exactly the lookups its pattern matches. */
  lemma {:induction false} CollectAfterInsert(t: Trie, tokens: seq<string>, e: Entry, subject: seq<string>)
    requires ValidPattern(tokens)
    ensures multiset(Collect(InsertAt(t, tokens, e), subject)) ==
            multiset(Collect(t, subject)) + Added(tokens, e, subject)
    decreases |tokens|
  {
    var t' := InsertAt(t, tokens, e);
    if tokens == [] {
      InsertSubscription(t, t', e, subject);
    } else if tokens[0] == ">" {
      assert tokens == [">"];
      InsertTerminal(t, t', e, subject);
    } else if subject == [] {
      assert t'.subscriptions == t.subscriptions && !Matches(tokens, subject);
    } else {
      MatchesStep(tokens, subject);
      CollectAfterInsert(Child(t, tokens[0]), tokens[1..], e, subject[1..]);
      var child := InsertAt(Child(t, tokens[0]), tokens[1..], e);
      if tokens[0] == "*" {
        InsertStar(t, t', child, subject, Added(tokens, e, subject));
      } else {
        InsertLiteral(t, t', tokens[0], child, subject, Added(tokens, e, subject));
      }
    }
  }

  /** Removal, with its pruning, filters every lookup and reorders nothing. */
  lemma {:induction false} CollectAfterRemove(t: Trie, id: string, subject: seq<string>)
    ensures Collect(Remove(t, id), subject) == Keep(Collect(t, subject), OtherThan(id))
    decreases |subject|
  {
    if subject != [] {
      var p := OtherThan(id);
      var tail := subject[1..];
      var viaLiteral := if subject[0] in t.children then Collect(t.children[subject[0]], tail) else [];
      var viaStar := if t.wildcard.Some? then Collect(t.wildcard.value, tail) else [];
      var r := Remove(t, id);
      KeepConcat(t.terminal, viaLiteral, p);
      KeepConcat(t.terminal + viaLiteral, viaStar, p);
      if subject[0] in t.children {
        CollectAfterRemove(t.children[subject[0]], id, tail);
      }
      if t.wildcard.Some? {
        CollectAfterRemove(t.wildcard.value, id, tail);
      }
    }
  }

  /** The flat list of live subscriptions, the reference the trie is measured against. */
  datatype Op = Subscribe(entry: Entry) | Unsubscribe(id: string)

  function Live(ops: seq<Op>): (live: seq<Entry>) {
    if ops == [] then []
    else
      var before := Live(ops[..|ops| - 1]);
      match ops[|ops| - 1]
      case Subscribe(e) => if ValidPattern(Split(e.pattern)) then before + [e] else before
      case Unsubscribe(id) => Keep(before, OtherThan(id))
  }

  ghost predicate Represents(root: Trie, live: seq<Entry>) {
    forall subject ::
      multiset(Collect(root, subject)) == multiset(Keep(live, MatchedBy(subject)))
  }

  lemma {:induction false} InsertRepresents(root: Trie, live: seq<Entry>, e: Entry)
    requires Represents(root, live) && ValidPattern(Split(e.pattern))
    ensures Represents(InsertAt(root, Split(e.pattern), e), live + [e])
  {
    var tokens := Split(e.pattern);
    var root' := InsertAt(root, tokens, e);
    forall subject
      ensures multiset(Collect(root', subject)) == multiset(Keep(live + [e], MatchedBy(subject)))
    {
      CollectAfterInsert(root, tokens, e, subject);
      KeepSnoc(live, e, MatchedBy(subject));
      assert MatchedBy(subject)(e) <==> Matches(tokens, subject);
    }
  }

  lemma {:induction false} RemoveRepresents(root: Trie, live: seq<Entry>, id: string)
    requires Represents(root, live)
    ensures Represents(Remove(root, id), Keep(live, OtherThan(id)))
  {
    var p := OtherThan(id);
    forall subject
      ensures multiset(Collect(Remove(root, id), subject)) ==
              multiset(Keep(Keep(live, p), MatchedBy(subject)))
    {
      CollectAfterRemove(root, id, subject);
      KeepPermutes(Collect(root, subject), Keep(live, MatchedBy(subject)), p);
      KeepCommutes(live, MatchedBy(subject), p);
    }
  }

  /** The index as the engine holds it. `ops` is the history of calls. */
  class Index {
    var root: Trie
    ghost var ops: seq<Op>

    ghost predicate Valid()
      reads this
    {
      Represents(root, Live(ops))
    }

    constructor ()
      ensures Valid() && ops == []
    {
      root := EMPTY;
      ops := [];
      new;
      forall subject
        ensures multiset(Collect(root, subject)) ==
                multiset(Keep(Live([]), MatchedBy(subject)))
      {
        CollectEmpty(subject);
      }
    }

    method Subscribe(entry: Entry) returns (ok: bool)
      requires Valid()
      modifies this
      ensures Valid() && ops == old(ops) + [Op.Subscribe(entry)]
      ensures ok <==>
              var tokens := Split(entry.pattern);
              |tokens| <= 256 && "" !in tokens && ">" !in tokens[..|tokens| - 1]
      ensures !ok ==> root == old(root)
    {
      var tokens := Split(entry.pattern);
      ok := ValidPattern(tokens);
      ghost var before := Live(ops);
      ops := ops + [Op.Subscribe(entry)];
      assert ops[..|ops| - 1] == old(ops);
      if ok {
        InsertRepresents(root, before, entry);
        root := InsertAt(root, tokens, entry);
      }
    }

    method Unsubscribe(id: string)
      requires Valid()
      modifies this
      ensures Valid() && ops == old(ops) + [Op.Unsubscribe(id)]
      ensures forall e :: multiset(Live(ops))[e] == if e.id == id then 0 else multiset(Live(old(ops)))[e]
    {
      RemoveRepresents(root, Live(ops), id);
      ops := ops + [Op.Unsubscribe(id)];
      assert ops[..|ops| - 1] == old(ops);
      root := Remove(root, id);
      forall e ensures multiset(Live(ops))[e] == if e.id == id then 0 else multiset(Live(old(ops)))[e] {
        KeepCount(Live(old(ops)), OtherThan(id), e);
      }
    }

    /** After any history, a lookup returns exactly the live entries whose pattern matches, each
        as often as it was subscribed, lowest priority number first. */
    method Lookup(subject: string) returns (found: seq<Entry>)
      requires Valid()
      ensures multiset(found) ==
              multiset(Keep(Live(ops), MatchedBy(Split(subject))))
      ensures forall i, j :: 0 <= i < j < |found| ==> found[i].priority <= found[j].priority
      ensures forall e ::
                multiset(found)[e] == if Matches(Split(e.pattern), Split(subject)) then multiset(Live(ops))[e] else 0
    {
      var hits := Collect(root, Split(subject));
      found := SortByKey(hits, PriorityKey());
      SortIsStableSort(hits, PriorityKey());
      forall e
        ensures multiset(found)[e] == if Matches(Split(e.pattern), Split(subject)) then multiset(Live(ops))[e] else 0
      {
        KeepCount(Live(ops), MatchedBy(Split(subject)), e);
      }
    }
  }

  /** An unsubscribed id is gone from every lookup until it is subscribed again. */
  lemma {:induction false} UnsubscribedIsGone(ops: seq<Op>, id: string, later: seq<Op>)
    requires forall i :: 0 <= i < |later| ==> later[i].Subscribe? ==> later[i].entry.id != id
    ensures forall e :: e in Live(ops + [Unsubscribe(id)] + later) ==> e.id != id
  {
    var all := ops + [Unsubscribe(id)] + later;
    if later == [] {
      assert all[..|all| - 1] == ops;
    } else {
      var front := later[..|later| - 1];
      assert all[..|all| - 1] == ops + [Unsubscribe(id)] + front;
      assert later[|later| - 1] == all[|all| - 1];
      UnsubscribedIsGone(ops, id, front);
    }
  }

  /** What the wildcards mean, token by token from the end: a literal stands for itself, `*` for any one token, and a
      final `>` for one token or more. */
  lemma {:induction false} WildcardsMean(pattern: seq<string>, token: string, subject: seq<string>, last: string)
    requires ">" !in pattern
    ensures Matches([], subject) <==> subject == []
    ensures !Matches(pattern + [token], [])
    ensures token != ">" ==>
              (Matches(pattern + [token], subject + [last]) <==>
               Matches(pattern, subject) && (token == "*" || token == last))
    ensures Matches(pattern + [">"], subject + [last]) <==>
            |pattern| <= |subject| && Matches(pattern, subject[..|pattern|])
  {
    var p, s := pattern + [token], subject + [last];
    assert pattern != [] ==> pattern[|pattern| - 1] in pattern;
    assert p[|p| - 1] == token && (pattern + [">"])[|pattern|] == ">";
    assert forall i :: 0 <= i < |pattern| ==> p[i] == pattern[i] == (pattern + [">"])[i];
    assert forall i :: 0 <= i < |subject| ==> s[i] == subject[i];
    if |p| == |s| {
      assert p[|pattern|] == token && s[|subject|] == last;
    }
  }

  /** A pattern without wildcards, such as a reply subject, matches exactly the subject it spells. */
  lemma {:induction false} LiteralPatternIsExact(pattern: string, subject: string)
    requires forall t :: t in Split(pattern) ==> t != "*" && t != ">"
    ensures Matches(Split(pattern), Split(subject)) <==> pattern == subject
  {
    hide Split, Join;
    var p, s := Split(pattern), Split(subject);
    assert p[|p| - 1] in p;
    if Matches(p, s) {
      forall i | 0 <= i < |p| ensures p[i] == s[i] {
        assert p[i] in p;
      }
      assert p == s;
      assert Join(p) == pattern && Join(s) == subject;
    }
  }
}
