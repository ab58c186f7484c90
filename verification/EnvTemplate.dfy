/** `${VAR}` and `${VAR:-default}` interpolation of the daemon's plugin configuration. */
module EnvTemplate {
  import opened Sequences

  type Env = map<string, string>

  /** `str::find`: the first index at which `needle` occurs. */
  function Find(s: string, needle: string): (r: Option<nat>)
    ensures r.Some? ==> r.value + |needle| <= |s|
    decreases |s|
  {
    if OccursAt(s, needle, 0) then Some(0)
    else if s == "" then None
    else
      var rest := Find(s[1..], needle);
      if rest.Some? then Some(rest.value + 1) else None
  }

  ghost predicate NoneBefore(s: string, needle: string, n: nat) {
    forall i: nat :: i < n ==> !OccursAt(s, needle, i)
  }

  ghost predicate NoOccurrence(s: string, needle: string) {
    forall i: nat :: !OccursAt(s, needle, i)
  }

  lemma {:induction false} OccursInTail(s: string, needle: string, i: nat)
    requires s != ""
    ensures OccursAt(s, needle, i + 1) == OccursAt(s[1..], needle, i)
  {
  }

  /** `Find` is the least occurrence, and misses none. */
  lemma {:induction false} FindIs(s: string, needle: string, n: nat)
    ensures Find(s, needle) == Some(n) <==> OccursAt(s, needle, n) && NoneBefore(s, needle, n)
    decreases |s|
  {
    if s != "" && !OccursAt(s, needle, 0) {
      forall i: nat ensures OccursAt(s, needle, i + 1) == OccursAt(s[1..], needle, i) {
        OccursInTail(s, needle, i);
      }
      if n > 0 {
        FindIs(s[1..], needle, n - 1);
        if NoneBefore(s[1..], needle, n - 1) {
          forall i: nat | i < n ensures !OccursAt(s, needle, i) {
            if i > 0 { OccursInTail(s, needle, i - 1); }
          }
        }
      }
    } else if n > 0 && OccursAt(s, needle, 0) {
      assert !NoneBefore(s, needle, n);
    }
  }

  lemma {:induction false} FindNone(s: string, needle: string)
    ensures Find(s, needle).None? <==> NoOccurrence(s, needle)
  {
    if Find(s, needle).Some? {
      FindIs(s, needle, Find(s, needle).value);
    } else if n: nat :| OccursAt(s, needle, n) {
      FirstOccurrence(s, needle, n);
    }
  }

  lemma {:induction false} FirstOccurrence(s: string, needle: string, n: nat)
    requires OccursAt(s, needle, n)
    ensures Find(s, needle).Some?
  {
    if NoneBefore(s, needle, n) {
      FindIs(s, needle, n);
    } else {
      var m: nat :| m < n && OccursAt(s, needle, m);
      FirstOccurrence(s, needle, m);
    }
  }

  predicate OccursAt(s: string, needle: string, i: nat) {
    i + |needle| <= |s| && forall k :: 0 <= k < |needle| ==> needle[k] == s[i + k]
  }

  function Lookup(env: Env, name: string, fallback: string): string {
    if name in env then env[name] else fallback
  }

  /** The value of the text between `${` and `}`. */
  function Resolve(env: Env, expr: string): string {
    var pos := Find(expr, ":-");
    if pos.Some? then Lookup(env, expr[..pos.value], expr[pos.value + 2..])
    else Lookup(env, expr, "")
  }

  datatype Hole = Hole(open: nat, close: nat)

  /** The first `${` and the first `}` after it. */
  function NextHole(s: string): (r: Option<Hole>)
    ensures r.Some? ==> r.value.open + 2 <= r.value.close < |s|
  {
    var start := Find(s, "${");
    if start.None? then None
    else
      var end := Find(s[start.value..], "}");
      if end.None? then None
      else
        BraceAfterOpen(s, start.value, end.value);
        Some(Hole(start.value, start.value + end.value))
  }

  lemma {:induction false} BraceAfterOpen(s: string, start: nat, end: nat)
    requires Find(s, "${") == Some(start) && Find(s[start..], "}") == Some(end)
    ensures end >= 2
  {
    FindIs(s, "${", start);
    FindIs(s[start..], "}", end);
    assert "${"[0] == s[start] == '$' && "${"[1] == s[start + 1] == '{';
    assert "}"[0] == s[start..][end] == s[start + end];
  }

  /** One left-to-right pass in which substituted text is never looked at again. */
  function Substitute(env: Env, s: string): string
    decreases |s|
  {
    var hole := NextHole(s);
    if hole.None? then s
    else Fill(env, s, hole.value) + Substitute(env, s[hole.value.close + 1..])
  }

  function Fill(env: Env, s: string, h: Hole): string
    requires h.open + 2 <= h.close < |s|
  {
    s[..h.open] + Resolve(env, s[h.open + 2..h.close])
  }

  lemma {:induction false} SubstituteStep(env: Env, s: string, h: Hole)
    requires NextHole(s) == Some(h)
    ensures Substitute(env, s) == Fill(env, s, h) + Substitute(env, s[h.close + 1..])
  {
    hide NextHole, Find, Resolve, Fill;
  }

  lemma {:induction false} FillFrom(env: Env, s: string, from: nat, h: Hole)
    requires from <= |s| && h.open + 2 <= h.close < |s| - from
    ensures s[..from] + Fill(env, s[from..], h) ==
            s[..from + h.open] + Resolve(env, s[from + h.open + 2..from + h.close])
    ensures s[from..][h.close + 1..] == s[from + h.close + 1..]
  {
    hide Find, Resolve;
    var t := s[from..];
    assert t[h.open + 2..h.close] == s[from + h.open + 2..from + h.close];
    assert s[..from] + t[..h.open] == s[..from + h.open];
  }

  /** The two searches of the loop find the next hole of the part not yet scanned. */
  lemma {:induction false} SearchesFindHole(s: string, from: nat)
    requires from <= |s|
    ensures var open := Find(s[from..], "${");
            if open.None? then NextHole(s[from..]).None?
            else
              var close := Find(s[from + open.value..], "}");
              NextHole(s[from..]) ==
              if close.None? then None else Some(Hole(open.value, open.value + close.value))
  {
    hide Find;
    var open := Find(s[from..], "${");
    if open.Some? {
      assert s[from..][open.value..] == s[from + open.value..];
    }
  }

  /** The loop as written: it rewrites `result` in place, and the string may grow. */
  method ResolveEnv(value: string, env: Env) returns (result: string)
    ensures result == Substitute(env, value)
  {
    hide Substitute, NextHole, Find, Resolve, Fill;
    result := value;
    var searchFrom := 0;
    while searchFrom < |result|
      invariant searchFrom <= |result|
      invariant Substitute(env, value) == result[..searchFrom] + Substitute(env, result[searchFrom..])
      decreases |result| - searchFrom
    {
      var found := Find(result[searchFrom..], "${");
      SearchesFindHole(result, searchFrom);
      if found.None? {
        break;
      }
      var start := searchFrom + found.value;
      var close := Find(result[start..], "}");
      if close.None? {
        break;
      }
      var end := start + close.value;
      ghost var hole := Hole(found.value, end - searchFrom);
      SubstituteStep(env, result[searchFrom..], hole);
      FillFrom(env, result, searchFrom, hole);
      var resolved := Resolve(env, result[start + 2..end]);
      ghost var rest := result[end + 1..];
      result := result[..start] + resolved + result[end + 1..];
      searchFrom := start + |resolved|;
      assert result[searchFrom..] == rest;
    }
    NoHoleLeft(env, result, searchFrom);
  }

  lemma {:induction false} NoHoleLeft(env: Env, s: string, from: nat)
    requires from <= |s| && NextHole(s[from..]).None?
    ensures s[..from] + Substitute(env, s[from..]) == s
    ensures from == 0 ==> Substitute(env, s) == s
  {
    hide NextHole, Find;
    assert s[0..] == s;
  }

  // ----- Templates: what the syntax means -----

  datatype Variable = Var(name: string) | VarOr(name: string, fallback: string)

  /** Literal text, a variable, and so on; the last text ends the template. */
  datatype Template = End(text: string) | Then(text: string, v: Variable, rest: Template)

  function Inside(v: Variable): string {
    match v
    case Var(name) => name
    case VarOr(name, fallback) => name + ":-" + fallback
  }

  function ValueOf(env: Env, v: Variable): string {
    match v
    case Var(name) => if name in env then env[name] else ""
    case VarOr(name, fallback) => if name in env then env[name] else fallback
  }

  function Print(t: Template): string {
    match t
    case End(text) => text
    case Then(text, v, rest) => text + ("${" + Inside(v) + "}" + Print(rest))
  }

  function Evaluate(env: Env, t: Template): string {
    match t
    case End(text) => text
    case Then(text, v, rest) => text + ValueOf(env, v) + Evaluate(env, rest)
  }

  /** A name holds no `}` and no `:-`, and a fallback no `}`. */
  ghost predicate WellFormedVariable(v: Variable) {
    && '}' !in v.name && NoOccurrence(v.name, ":-")
    && (v.VarOr? ==> '}' !in v.fallback)
  }

  /** Texts hold no `${`. */
  ghost predicate WellFormed(t: Template) {
    && NoOccurrence(t.text, "${")
    && (t.Then? ==> WellFormedVariable(t.v) && WellFormed(t.rest))
  }

  /** A two-character needle with distinct characters is found right after a text that does not hold it. */
  lemma {:induction false} FirstAfter(text: string, needle: string, tail: string)
    requires |needle| == 2 && needle[0] != needle[1] && NoOccurrence(text, needle)
    ensures Find(text + needle + tail, needle) == Some(|text|)
  {
    var s, n := text + needle + tail, |text|;
    forall j: nat | j < n
      ensures !OccursAt(s, needle, j)
    {
      if j + 2 <= n {
        assert !OccursAt(text, needle, j);
        var k :| 0 <= k < 2 && needle[k] != text[j + k];
        assert s[j + k] == text[j + k];
      } else {
        assert needle[1] != s[j + 1];
      }
    }
    FindIs(s, needle, n);
  }

  /** Resolving the inside of a variable gives that variable's value. */
  lemma {:induction false} ResolveInside(env: Env, v: Variable)
    requires WellFormedVariable(v)
    ensures Resolve(env, Inside(v)) == ValueOf(env, v)
    ensures '}' !in Inside(v)
  {
    if v.VarOr? {
      var s, n := Inside(v), |v.name|;
      FirstAfter(v.name, ":-", v.fallback);
      assert s[..n] == v.name && s[n + 2..] == v.fallback;
    } else {
      FindNone(v.name, ":-");
    }
  }

  lemma {:induction false} FirstClose(t: string, e: string, rest: string)
    requires '}' !in e && t == "${" + e + "}" + rest
    ensures Find(t, "}") == Some(|e| + 2)
  {
    var end := |e| + 2;
    forall j: nat | j < end
      ensures !OccursAt(t, "}", j)
    {
      assert t[j] != '}' && "}"[0] == '}';
    }
    FindIs(t, "}", end);
  }

  lemma {:induction false} HoleAfter(text: string, e: string, rest: string)
    requires NoOccurrence(text, "${") && '}' !in e
    ensures NextHole(text + ("${" + e + "}" + rest)) == Some(Hole(|text|, |text| + |e| + 2))
  {
    var t := "${" + e + "}" + rest;
    var s := text + t;
    assert s == text + "${" + (e + "}" + rest);
    FirstAfter(text, "${", e + "}" + rest);
    assert s[|text|..] == t;
    FirstClose(t, e, rest);
  }

  lemma {:induction false} Slices(text: string, e: string, rest: string)
    ensures var s := text + ("${" + e + "}" + rest);
            && s[..|text|] == text
            && s[|text| + 2..|text| + |e| + 2] == e
            && s[|text| + |e| + 3..] == rest
  {
  }

  /** A text, then a variable, then anything: the scan stops exactly at that variable. */
  lemma {:induction false} SubstituteVariable(env: Env, text: string, v: Variable, rest: string)
    requires NoOccurrence(text, "${") && WellFormedVariable(v)
    ensures Substitute(env, text + ("${" + Inside(v) + "}" + rest)) == text + ValueOf(env, v) + Substitute(env, rest)
  {
    hide Substitute, NextHole, Find, Resolve, NoOccurrence, Inside, ValueOf;
    var e := Inside(v);
    var s := text + ("${" + e + "}" + rest);
    ResolveInside(env, v);
    HoleAfter(text, e, rest);
    SubstituteStep(env, s, Hole(|text|, |text| + |e| + 2));
    Slices(text, e, rest);
  }

  /** A placeholder stands for its variable where the environment sets it, even to nothing, and otherwise for its
      fallback, or nothing; what comes after is interpolated on its own. */
  lemma {:induction false} PlaceholderReadsEnv(env: Env, text: string, name: string, fallback: string, rest: string)
    requires NoOccurrence(text, "${") && '}' !in name && NoOccurrence(name, ":-") && '}' !in fallback
    ensures name in env ==>
              && Substitute(env, text + ("${" + name + "}" + rest)) == text + env[name] + Substitute(env, rest)
              && Substitute(env, text + ("${" + (name + ":-" + fallback) + "}" + rest)) ==
                 text + env[name] + Substitute(env, rest)
    ensures name !in env ==>
              && Substitute(env, text + ("${" + name + "}" + rest)) == text + Substitute(env, rest)
              && Substitute(env, text + ("${" + (name + ":-" + fallback) + "}" + rest)) ==
                 text + fallback + Substitute(env, rest)
  {
    hide Substitute, NoOccurrence;
    SubstituteVariable(env, text, Var(name), rest);
    SubstituteVariable(env, text, VarOr(name, fallback), rest);
    assert text + "" == text;
  }

  /** Text without a placeholder, and text after a `${` that is never closed, is left as it is. */
  lemma {:induction false} NoPlaceholderNoChange(env: Env, text: string, tail: string)
    requires NoOccurrence(text, "${")
    ensures Substitute(env, text) == text
    ensures '}' !in tail ==> Substitute(env, text + "${" + tail) == text + "${" + tail
  {
    hide Find;
    FindNone(text, "${");
    if '}' !in tail {
      var s := text + "${" + tail;
      FirstAfter(text, "${", tail);
      assert s[|text|..] == "${" + tail;
      forall i: nat ensures !OccursAt("${" + tail, "}", i) {
        if i < |"${" + tail| {
          assert ("${" + tail)[i] != '}' && "}"[0] == '}';
        }
      }
      FindNone("${" + tail, "}");
    }
  }

  /** Interpolation computes the meaning of every well-formed template, in every environment, even when
      the substituted values themselves contain `${...}`. */
  lemma {:induction false} SubstituteEvaluates(env: Env, t: Template)
    requires WellFormed(t)
    ensures Substitute(env, Print(t)) == Evaluate(env, t)
  {
    match t
    case End(text) =>
      hide Find;
      FindNone(text, "${");
    case Then(text, v, rest) =>
      hide Substitute, NextHole, Find;
      SubstituteEvaluates(env, rest);
      SubstituteVariable(env, text, v, Print(rest));
  }
}
