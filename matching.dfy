/**
 * The regex shapes the extractors are built from, over the opaque `finditer`:
 * `re.search`, `match.group(i)`, the ordered pattern cascade whose first match wins and
 * whose loop breaks, and `re.findall` for a pattern with one group.
 */
module Matching {
  import opened Wrappers
  import opened Foreign
  import opened Errors
  import opened Strings

  /** `re.search(p, text)`: the first match in text order. */
  function Search(env: Env, p: Pattern, text: string): (r: Option<Match>)
    ensures r.None? <==> env.finditer(p, text) == []
    ensures r.Some? ==> r.value == env.finditer(p, text)[0]
  {
    var ms := env.finditer(p, text);
    if ms == [] then None else Some(ms[0])
  }

  /** `m.group(i)`, with `""` for a group that did not take part (what `re.findall` reports for it). */
  function Group(m: Match, i: nat): (g: string)
    ensures i < |m.groups| && m.groups[i].Some? ==> g == m.groups[i].value
    ensures i >= |m.groups| || m.groups[i].None? ==> g == ""
  {
    if i < |m.groups| && m.groups[i].Some? then m.groups[i].value else ""
  }

  /** `m.group(1).strip() if m else None`: the most common field shape. */
  function StrippedGroup1(m: Option<Match>): (r: Option<string>)
    ensures r.None? <==> m.None?
    ensures r.Some? ==> r.value == Strip(Group(m.value, 1))
  {
    if m.Some? then Some(Strip(Group(m.value, 1))) else None
  }

  /** `m.group(1) if m else None`, unstripped. */
  function RawGroup1(m: Option<Match>): (r: Option<string>)
    ensures r.None? <==> m.None?
    ensures r.Some? ==> r.value == Group(m.value, 1)
  {
    if m.Some? then Some(Group(m.value, 1)) else None
  }

  /** The index of the first pattern of `ps` that matches `text`, or `|ps|` when none does. */
  function FirstHit(env: Env, ps: seq<Pattern>, text: string): (k: nat)
    ensures k <= |ps|
    ensures k < |ps| ==> Search(env, ps[k], text).Some?
    ensures forall j :: 0 <= j < k ==> Search(env, ps[j], text).None?
  {
    if ps == [] then 0
    else if Search(env, ps[0], text).Some? then 0
    else 1 + FirstHit(env, ps[1..], text)
  }

  /**
   * The match an ordered cascade of searches settles on: that of the first pattern, in list
   * order, that matches anywhere in the text; `None` exactly when no pattern matches.
   */
  function FirstMatch(env: Env, ps: seq<Pattern>, text: string): (r: Option<Match>)
    ensures r.None? <==> forall j :: 0 <= j < |ps| ==> Search(env, ps[j], text).None?
    ensures r.Some? ==> exists k :: (0 <= k < |ps| && r == Search(env, ps[k], text)
      && forall j :: 0 <= j < k ==> Search(env, ps[j], text).None?)
  {
    var k := FirstHit(env, ps, text);
    if k < |ps| then Search(env, ps[k], text) else None
  }

  /** A pattern that matches, preceded only by patterns that do not, is the one the cascade picks. */
  lemma FirstHitIs(env: Env, ps: seq<Pattern>, text: string, k: nat)
    requires k < |ps| && Search(env, ps[k], text).Some?
    requires forall j :: 0 <= j < k ==> Search(env, ps[j], text).None?
    ensures FirstHit(env, ps, text) == k
    ensures FirstMatch(env, ps, text) == Search(env, ps[k], text)
  {
  }

  /**
   * The `for pattern in patterns: match = re.search(...); if match: ...; break` loop.
   */
  method SearchCascade(env: Env, ps: seq<Pattern>, text: string) returns (m: Option<Match>)
    ensures m == FirstMatch(env, ps, text)
  {
    m := None;
    var i := 0;
    while i < |ps|
      invariant 0 <= i <= |ps|
      invariant forall j :: 0 <= j < i ==> Search(env, ps[j], text).None?
    {
      var found := Search(env, ps[i], text);
      if found.Some? {
        FirstHitIs(env, ps, text, i);
        m := found;
        break;
      }
      i := i + 1;
    }
  }

  /**
   * Because the cascade stops at its first match, patterns after a matching prefix are never
   * consulted; when the prefix matches nothing, the cascade is that of the remaining patterns.
   */
  lemma {:induction false} CascadeAppend(env: Env, ps: seq<Pattern>, qs: seq<Pattern>, text: string)
    ensures FirstMatch(env, ps, text).Some? ==> FirstMatch(env, ps + qs, text) == FirstMatch(env, ps, text)
    ensures FirstMatch(env, ps, text).None? ==> FirstMatch(env, ps + qs, text) == FirstMatch(env, qs, text)
  {
    var k := FirstHit(env, ps, text);
    if k < |ps| {
      assert (ps + qs)[k] == ps[k];
      FirstHitIs(env, ps + qs, text, k);
    } else {
      var k2 := FirstHit(env, qs, text);
      if k2 < |qs| {
        assert (ps + qs)[|ps| + k2] == qs[k2];
        FirstHitIs(env, ps + qs, text, |ps| + k2);
      } else {
        assert forall j :: 0 <= j < |ps + qs| ==> Search(env, (ps + qs)[j], text).None? by {
          forall j | 0 <= j < |ps + qs|
            ensures Search(env, (ps + qs)[j], text).None?
          {
            if j < |ps| {
              assert (ps + qs)[j] == ps[j];
            } else {
              assert (ps + qs)[j] == qs[j - |ps|];
            }
          }
        }
      }
    }
  }

  /** `re.findall(p, text)` for a pattern with exactly one group: group 1 of every match, in order. */
  function FindAllGroup1(env: Env, p: Pattern, text: string): (r: seq<string>)
    ensures |r| == |env.finditer(p, text)|
    ensures forall i :: 0 <= i < |r| ==> r[i] == Group(env.finditer(p, text)[i], 1)
  {
    var ms := env.finditer(p, text);
    seq(|ms|, i requires 0 <= i < |ms| => Group(ms[i], 1))
  }

  /** `float(s.replace(',', ''))`, with the `ValueError` it may raise. */
  function ToAmount(env: Env, s: string): (r: Result<Float, Error>)
    ensures r.Ok? <==> env.toFloat(RemoveChars(s, {','})).Ok?
    ensures r.Ok? ==> env.toFloat(RemoveChars(s, {','})) == Ok(r.value)
    ensures r.Err? ==> r.error.ValueError?
  {
    match env.toFloat(RemoveChars(s, {','}))
    case Ok(x) => Ok(x)
    case Err(msg) => Err(ValueError(msg))
  }

  /**
   * `try: float(m.group(1).replace(',', '')) except ValueError: pass` after a search: the amount
   * of the first match, `None` when there is none or it does not convert.
   */
  function GuardedAmount(env: Env, p: Pattern, text: string): (r: Option<Float>)
    ensures r.Some? ==> (Search(env, p, text).Some?
      && ToAmount(env, Group(Search(env, p, text).value, 1)) == Ok(r.value))
    ensures r.None? <==> (Search(env, p, text).None?
      || ToAmount(env, Group(Search(env, p, text).value, 1)).Err?)
  {
    var m := Search(env, p, text);
    if m.Some? then
      var a := ToAmount(env, Group(m.value, 1));
      if a.Ok? then Some(a.value) else None
    else None
  }

  /** `m = re.search(...)` followed by `if m: data[key] = m.group(1).strip()` on an unset key. */
  method StrippedField(env: Env, p: Pattern, text: string) returns (v: Option<string>)
    ensures v == StrippedGroup1(Search(env, p, text))
  {
    v := None;
    var m := Search(env, p, text);
    if m.Some? {
      v := Some(Strip(Group(m.value, 1)));
    }
  }

  /** `m = re.search(...)` followed by the guarded `float` conversion on an unset key. */
  method AmountField(env: Env, p: Pattern, text: string) returns (v: Option<Float>)
    ensures v == GuardedAmount(env, p, text)
  {
    v := None;
    var m := Search(env, p, text);
    if m.Some? {
      var a := ToAmount(env, Group(m.value, 1));
      if a.Ok? {
        v := Some(a.value);
      }
    }
  }
}
