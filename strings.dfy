/**
 * Characters and the string cleaners the extractors apply: Python's whitespace test,
 * `str.strip()`, `str.split()`, `' '.join(...)`, `re.sub(r'\s+', ' ', s)`, case mapping,
 * substring tests and `str.replace`.
 */
module Strings {
  import opened Seqs

  /** Python's `str.isspace()`; `str.split()`, `str.strip()` and the regex class `\s` use the same set. */
  predicate IsSpace(c: char)
  {
    c == ' ' || ('\t' <= c <= '\r') || ('\U{1C}' <= c <= '\U{1F}') || c == '\U{85}' || c == '\U{A0}'
    || c == '\U{1680}' || ('\U{2000}' <= c <= '\U{200A}') || c == '\U{2028}' || c == '\U{2029}'
    || c == '\U{202F}' || c == '\U{205F}' || c == '\U{3000}'
  }

  predicate NotSpace(c: char) { !IsSpace(c) }

  predicate IsDigit(c: char) { '0' <= c <= '9' }

  predicate IsAsciiUpper(c: char) { 'A' <= c <= 'Z' }

  predicate IsAsciiLower(c: char) { 'a' <= c <= 'z' }

  /**
   * `str.isalnum()` on one character, for ASCII letters and digits only: Python also counts
   * non-ASCII letters and digits (such as `ú`), which this test does not.
   */
  predicate IsAlnum(c: char) { IsDigit(c) || IsAsciiUpper(c) || IsAsciiLower(c) }

  /**
   * A character of the regex class `\w`, on ASCII letters, digits and underscore; on a `str`
   * pattern Python's `\w` also matches non-ASCII letters and digits, which this test does not.
   */
  predicate IsWordChar(c: char) { IsAlnum(c) || c == '_' }

  lemma AlnumIsNotSpace(c: char)
    ensures IsAlnum(c) ==> NotSpace(c)
  {
  }

  /** `str.lower()` on one character, mapping ASCII letters only. */
  function LowerChar(c: char): char
  {
    if IsAsciiUpper(c) then (c as int + 32) as char else c
  }

  /** `str.upper()` on one character, mapping ASCII letters only. */
  function UpperChar(c: char): char
  {
    if IsAsciiLower(c) then (c as int - 32) as char else c
  }

  /** `s.lower()` */
  function Lower(s: string): (r: string)
    ensures |r| == |s|
    ensures forall i :: 0 <= i < |s| ==> r[i] == LowerChar(s[i])
  {
    seq(|s|, i requires 0 <= i < |s| => LowerChar(s[i]))
  }

  /** `s.upper()` */
  function Upper(s: string): (r: string)
    ensures |r| == |s|
    ensures forall i :: 0 <= i < |s| ==> r[i] == UpperChar(s[i])
  {
    seq(|s|, i requires 0 <= i < |s| => UpperChar(s[i]))
  }

  predicate StartsWith(s: string, prefix: string)
  {
    |prefix| <= |s| && s[..|prefix|] == prefix
  }

  predicate EndsWith(s: string, suffix: string)
  {
    |suffix| <= |s| && s[|s| - |suffix|..] == suffix
  }

  predicate OccursAt(hay: string, needle: string, i: nat)
  {
    i + |needle| <= |hay| && hay[i..i + |needle|] == needle
  }

  /** Python's `needle in hay` for strings. */
  predicate Contains(hay: string, needle: string)
  {
    exists i: nat :: i <= |hay| && OccursAt(hay, needle, i)
  }

  /** A string that occurs in a slice occurs in the whole string. */
  lemma ContainsInSlice(s: string, a: nat, b: nat, needle: string)
    requires a <= b <= |s|
    requires Contains(s[a..b], needle)
    ensures Contains(s, needle)
  {
    var i: nat :| i <= b - a && OccursAt(s[a..b], needle, i);
    assert i + |needle| <= b - a;
    forall k | 0 <= k < |needle|
      ensures s[a + i + k] == needle[k]
    {
      assert s[a..b][i..i + |needle|][k] == needle[k];
    }
    assert s[a + i..a + i + |needle|] == needle;
    assert OccursAt(s, needle, a + i);
  }

  // ---------------------------------------------------------------- strip

  /** The number of whitespace characters at the start of `s`. */
  function LeadingSpaces(s: string): (n: nat)
    ensures n <= |s|
    ensures forall i :: 0 <= i < n ==> IsSpace(s[i])
    ensures n < |s| ==> !IsSpace(s[n])
  {
    if s == [] || !IsSpace(s[0]) then 0 else 1 + LeadingSpaces(s[1..])
  }

  /** The number of whitespace characters at the end of `s`. */
  function TrailingSpaces(s: string): (n: nat)
    ensures n <= |s|
    ensures forall i :: |s| - n <= i < |s| ==> IsSpace(s[i])
    ensures n < |s| ==> !IsSpace(s[|s| - 1 - n])
  {
    if s == [] || !IsSpace(s[|s| - 1]) then 0 else 1 + TrailingSpaces(s[..|s| - 1])
  }

  /** `s.strip()`: the slice of `s` between its leading and its trailing whitespace. */
  function Strip(s: string): (r: string)
    ensures |r| <= |s|
    ensures r == [] || (NotSpace(r[0]) && NotSpace(r[|r| - 1]))
    ensures LeadingSpaces(s) + |r| <= |s| && r == s[LeadingSpaces(s)..LeadingSpaces(s) + |r|]
  {
    var a := LeadingSpaces(s);
    if a == |s| then [] else s[a..|s| - TrailingSpaces(s)]
  }

  /** What stripping removes at the end is whitespace. */
  lemma StripTrailing(s: string)
    ensures forall i :: LeadingSpaces(s) + |Strip(s)| <= i < |s| ==> IsSpace(s[i])
  {
  }

  /** Stripping removes only whitespace: the pieces around the result are all whitespace. */
  lemma StripParts(s: string)
    ensures s == s[..LeadingSpaces(s)] + Strip(s) + s[LeadingSpaces(s) + |Strip(s)|..]
  {
    var a := LeadingSpaces(s);
    var e := a + |Strip(s)|;
    ThreeParts(s, a, e);
  }

  lemma ThreeParts(s: string, a: nat, e: nat)
    requires a <= e <= |s|
    ensures s == s[..a] + s[a..e] + s[e..]
  {
    assert s[..a] + s[a..e] == s[..e];
  }

  /** `strip()` never removes a character that `p` keeps, when `p` keeps no whitespace. */
  lemma StripKeeps(p: char -> bool, s: string)
    requires forall c :: p(c) ==> NotSpace(c)
    ensures Filter(p, Strip(s)) == Filter(p, s)
  {
    var a := LeadingSpaces(s);
    StripTrailing(s);
    FilterMiddle(p, s, a, a + |Strip(s)|);
  }

  lemma {:induction false} StripIdempotent(s: string)
    ensures Strip(Strip(s)) == Strip(s)
  {
    var r := Strip(s);
    if r != [] {
      assert LeadingSpaces(r) == 0;
      assert TrailingSpaces(r) == 0;
    }
  }

  /** Every character of `strip(s)` is a character of `s`. */
  lemma StripChars(s: string, i: nat)
    requires i < |Strip(s)|
    ensures Strip(s)[i] == s[LeadingSpaces(s) + i]
  {
  }

  // ---------------------------------------------------------------- tokens

  /** The length of the run of non-separator characters at the start of `s`. */
  function TokenLength(s: string, isSep: char -> bool): (n: nat)
    ensures n <= |s|
    ensures forall i :: 0 <= i < n ==> !isSep(s[i])
    ensures n < |s| ==> isSep(s[n])
  {
    if s == [] || isSep(s[0]) then 0 else 1 + TokenLength(s[1..], isSep)
  }

  /** The maximal non-empty runs of non-separator characters of `s`, in order. */
  function Tokens(s: string, isSep: char -> bool): (ts: seq<string>)
    ensures forall i :: 0 <= i < |ts| ==> ts[i] != []
    ensures forall i, j :: 0 <= i < |ts| && 0 <= j < |ts[i]| ==> !isSep(ts[i][j])
    decreases |s|
  {
    if s == [] then []
    else if isSep(s[0]) then Tokens(s[1..], isSep)
    else
      var n := TokenLength(s, isSep);
      [s[..n]] + Tokens(s[n..], isSep)
  }

  /** The tokens hold exactly the non-separator characters, in order. */
  lemma {:induction false} TokensKeep(s: string, isSep: char -> bool, keep: char -> bool)
    requires forall c :: keep(c) == !isSep(c)
    ensures Flatten(Tokens(s, isSep)) == Filter(keep, s)
    decreases |s|
  {
    if s == [] {
    } else if isSep(s[0]) {
      TokensKeep(s[1..], isSep, keep);
      assert s == [s[0]] + s[1..];
      FilterConcat(keep, [s[0]], s[1..]);
    } else {
      var n := TokenLength(s, isSep);
      TokensKeep(s[n..], isSep, keep);
      assert s == s[..n] + s[n..];
      FilterConcat(keep, s[..n], s[n..]);
      FilterAll(keep, s[..n]);
    }
  }

  /** Python's `s.split()` with no argument. */
  function Words(s: string): (ws: seq<string>)
    ensures forall i :: 0 <= i < |ws| ==> ws[i] != []
    ensures forall i, j :: 0 <= i < |ws| && 0 <= j < |ws[i]| ==> NotSpace(ws[i][j])
  {
    Tokens(s, IsSpace)
  }

  /** Every whitespace character is a single ' ' between two non-whitespace characters. */
  ghost predicate SingleSpaced(r: string)
  {
    forall i :: 0 <= i < |r| && IsSpace(r[i]) ==>
      r[i] == ' ' && 0 < i < |r| - 1 && NotSpace(r[i - 1]) && NotSpace(r[i + 1])
  }

  lemma {:induction false} JoinWordsShape(ws: seq<string>)
    requires forall i :: 0 <= i < |ws| ==> ws[i] != []
    requires forall i, j :: 0 <= i < |ws| && 0 <= j < |ws[i]| ==> NotSpace(ws[i][j])
    ensures var r := Join(ws, " ");
      (r == [] <==> ws == []) && (r != [] ==> NotSpace(r[0]) && NotSpace(r[|r| - 1])) && SingleSpaced(r)
  {
    if |ws| > 1 {
      JoinWordsShape(ws[1..]);
      var w, rest := ws[0], Join(ws[1..], " ");
      var r := Join(ws, " ");
      assert r == w + " " + rest;
      assert NotSpace(w[|w| - 1]);
      forall i | 0 <= i < |r| && IsSpace(r[i])
        ensures r[i] == ' ' && 0 < i < |r| - 1 && NotSpace(r[i - 1]) && NotSpace(r[i + 1])
      {
        if i > |w| {
          assert r[i] == rest[i - |w| - 1];
          assert r[i - 1] == rest[i - |w| - 2];
          assert r[i + 1] == rest[i - |w|];
        }
      }
    } else if |ws| == 1 {
      var r := ws[0];
      assert Join(ws, " ") == r;
      assert forall i :: 0 <= i < |r| ==> NotSpace(r[i]);
    }
  }

  lemma {:induction false} JoinWordsKeep(ws: seq<string>)
    requires forall i, j :: 0 <= i < |ws| && 0 <= j < |ws[i]| ==> NotSpace(ws[i][j])
    ensures Filter(NotSpace, Join(ws, " ")) == Flatten(ws)
  {
    if ws == [] {
    } else if |ws| == 1 {
      FilterAll(NotSpace, ws[0]);
      assert Flatten(ws) == ws[0] + Flatten(ws[1..]);
    } else {
      var w, tail := ws[0], ws[1..];
      forall i, j | 0 <= i < |tail| && 0 <= j < |tail[i]| ensures NotSpace(tail[i][j]) {
        assert tail[i] == ws[i + 1];
      }
      JoinWordsKeep(tail);
      var rest := Join(tail, " ");
      assert Join(ws, " ") == (w + " ") + rest;
      FilterConcat(NotSpace, w + " ", rest);
      FilterConcat(NotSpace, w, " ");
      forall j | 0 <= j < |w| ensures NotSpace(w[j]) {
        assert w[j] == ws[0][j];
      }
      FilterAll(NotSpace, w);
      FilterNone(NotSpace, " ");
      assert Filter(NotSpace, w + " ") == w;
      assert Flatten(ws) == w + Flatten(tail);
    }
  }

  /** `' '.join(s.split())`: the words of `s` separated by single spaces. */
  function Collapse(s: string): (r: string)
    ensures r == [] || (NotSpace(r[0]) && NotSpace(r[|r| - 1]))
    ensures SingleSpaced(r)
    ensures Filter(NotSpace, r) == Filter(NotSpace, s)
  {
    var ws := Words(s);
    JoinWordsShape(ws);
    JoinWordsKeep(ws);
    TokensKeep(s, IsSpace, NotSpace);
    Join(ws, " ")
  }

  /** `re.sub(r'\s+', ' ', s)`: every maximal whitespace run becomes one ' '. */
  function SubSpaceRuns(s: string): (r: string)
    ensures Filter(NotSpace, r) == Filter(NotSpace, s)
    ensures forall i :: 0 <= i < |r| && IsSpace(r[i]) ==> r[i] == ' '
    ensures forall i :: 0 <= i < |r| - 1 && IsSpace(r[i]) ==> NotSpace(r[i + 1])
    ensures s != [] && IsSpace(s[0]) <==> r != [] && r[0] == ' '
    decreases |s|
  {
    if s == [] then []
    else if IsSpace(s[0]) then
      var n := LeadingSpaces(s);
      var rest := SubSpaceRuns(s[n..]);
      SpaceRunKeeps(s, n, rest);
      " " + rest
    else
      var rest := SubSpaceRuns(s[1..]);
      CharKeeps(s, rest);
      [s[0]] + rest
  }

  /** Replacing a leading whitespace run by one space keeps the other characters. */
  lemma SpaceRunKeeps(s: string, n: nat, rest: string)
    requires n <= |s| && forall i :: 0 <= i < n ==> IsSpace(s[i])
    requires Filter(NotSpace, rest) == Filter(NotSpace, s[n..])
    ensures Filter(NotSpace, " " + rest) == Filter(NotSpace, s)
  {
    assert s == s[..n] + s[n..];
    FilterConcat(NotSpace, s[..n], s[n..]);
    FilterNone(NotSpace, s[..n]);
    FilterConcat(NotSpace, " ", rest);
    FilterNone(NotSpace, " ");
  }

  /** Keeping the first character in front of a rest that keeps the others. */
  lemma CharKeeps(s: string, rest: string)
    requires s != [] && Filter(NotSpace, rest) == Filter(NotSpace, s[1..])
    ensures Filter(NotSpace, [s[0]] + rest) == Filter(NotSpace, s)
  {
    assert s == [s[0]] + s[1..];
    FilterConcat(NotSpace, [s[0]], s[1..]);
    FilterConcat(NotSpace, [s[0]], rest);
  }

  /** `[x.strip() for x in xs]`. */
  function StripAll(xs: seq<string>): (r: seq<string>)
    ensures |r| == |xs|
    ensures forall i :: 0 <= i < |xs| ==> r[i] == Strip(xs[i])
  {
    if xs == [] then [] else [Strip(xs[0])] + StripAll(xs[1..])
  }

  function LongerThan(minLen: nat): string -> bool
  {
    x => |x| > minLen
  }

  /**
   * `[x.strip() for x in xs if len(x.strip()) > minLen]`; with `minLen == 0` this is the
   * `if x.strip()` filter.
   */
  function KeepStripped(xs: seq<string>, minLen: nat): (r: seq<string>)
    ensures |r| <= |xs|
    ensures forall i :: 0 <= i < |r| ==> |r[i]| > minLen && Strip(r[i]) == r[i]
    ensures forall i :: 0 <= i < |r| ==> exists j :: 0 <= j < |xs| && r[i] == Strip(xs[j])
    ensures forall j :: 0 <= j < |xs| && |Strip(xs[j])| > minLen ==> Strip(xs[j]) in r
  {
    KeptStripped(xs, minLen);
    KeptAll(xs, minLen);
    Filter(LongerThan(minLen), StripAll(xs))
  }

  /** Every element whose stripping is long enough is kept, stripped. */
  lemma KeptAll(xs: seq<string>, minLen: nat)
    ensures forall j :: 0 <= j < |xs| && |Strip(xs[j])| > minLen ==> Strip(xs[j]) in Filter(LongerThan(minLen), StripAll(xs))
  {
    var ss := StripAll(xs);
    FilterKeepsAll(LongerThan(minLen), ss);
    forall j | 0 <= j < |xs| && |Strip(xs[j])| > minLen ensures Strip(xs[j]) in Filter(LongerThan(minLen), ss) {
      assert ss[j] == Strip(xs[j]) && LongerThan(minLen)(ss[j]);
    }
  }

  /** Every kept element is already stripped and is the stripping of some element. */
  lemma KeptStripped(xs: seq<string>, minLen: nat)
    ensures forall i :: 0 <= i < |Filter(LongerThan(minLen), StripAll(xs))| ==>
      |Filter(LongerThan(minLen), StripAll(xs))[i]| > minLen
      && Strip(Filter(LongerThan(minLen), StripAll(xs))[i]) == Filter(LongerThan(minLen), StripAll(xs))[i]
    ensures forall i :: 0 <= i < |Filter(LongerThan(minLen), StripAll(xs))| ==>
      exists j :: 0 <= j < |xs| && Filter(LongerThan(minLen), StripAll(xs))[i] == Strip(xs[j])
  {
    var r := Filter(LongerThan(minLen), StripAll(xs));
    forall i | 0 <= i < |r| ensures |r[i]| > minLen && Strip(r[i]) == r[i] && exists j :: 0 <= j < |xs| && r[i] == Strip(xs[j]) {
      assert LongerThan(minLen)(r[i]);
      var j := KeptOne(xs, minLen, i);
    }
  }

  /** The index of the element a kept element is the stripping of. */
  lemma KeptOne(xs: seq<string>, minLen: nat, i: nat) returns (j: nat)
    requires i < |Filter(LongerThan(minLen), StripAll(xs))|
    ensures j < |xs|
    ensures var x := Filter(LongerThan(minLen), StripAll(xs))[i]; Strip(x) == x && x == Strip(xs[j])
  {
    var ss := StripAll(xs);
    var x := Filter(LongerThan(minLen), ss)[i];
    FilterFrom(LongerThan(minLen), ss);
    assert x in ss;
    j :| 0 <= j < |ss| && ss[j] == x;
    StripIdempotent(xs[j]);
  }

  /** The kept elements of two lists are those of the first followed by those of the second. */
  lemma KeepStrippedConcat(xs: seq<string>, ys: seq<string>, minLen: nat)
    ensures KeepStripped(xs + ys, minLen) == KeepStripped(xs, minLen) + KeepStripped(ys, minLen)
  {
    StripAllConcat(xs, ys);
    FilterConcat(LongerThan(minLen), StripAll(xs), StripAll(ys));
  }

  lemma {:induction false} StripAllConcat(xs: seq<string>, ys: seq<string>)
    ensures StripAll(xs + ys) == StripAll(xs) + StripAll(ys)
  {
    if xs == [] {
      assert xs + ys == ys;
    } else {
      assert (xs + ys)[1..] == xs[1..] + ys;
      StripAllConcat(xs[1..], ys);
    }
  }

  /** A property every character of every element has survives stripping and dropping. */
  lemma KeepStrippedAvoids(p: char -> bool, ts: seq<string>, minLen: nat)
    requires forall i, j :: 0 <= i < |ts| && 0 <= j < |ts[i]| ==> p(ts[i][j])
    ensures var bs := KeepStripped(ts, minLen);
      forall i, j :: 0 <= i < |bs| && 0 <= j < |bs[i]| ==> p(bs[i][j])
  {
    var bs := KeepStripped(ts, minLen);
    forall i, j | 0 <= i < |bs| && 0 <= j < |bs[i]| ensures p(bs[i][j]) {
      AvoidsOne(p, ts, minLen, i, j);
    }
  }

  lemma AvoidsOne(p: char -> bool, ts: seq<string>, minLen: nat, i: nat, j: nat)
    requires forall i, j :: 0 <= i < |ts| && 0 <= j < |ts[i]| ==> p(ts[i][j])
    requires i < |KeepStripped(ts, minLen)| && j < |KeepStripped(ts, minLen)[i]|
    ensures p(KeepStripped(ts, minLen)[i][j])
  {
    var b := KeepStripped(ts, minLen)[i];
    var k := KeptSource(ts, minLen, i);
    var t := ts[k];
    StripChars(t, j);
    var m := LeadingSpaces(t) + j;
    assert m < |t| && b[j] == t[m];
    assert p(ts[k][m]);
  }

  /** The index of the element a kept element is the stripping of. */
  lemma KeptSource(xs: seq<string>, minLen: nat, i: nat) returns (j: nat)
    requires i < |KeepStripped(xs, minLen)|
    ensures j < |xs| && KeepStripped(xs, minLen)[i] == Strip(xs[j])
  {
    assert KeepStripped(xs, minLen) == Filter(LongerThan(minLen), StripAll(xs));
    j := KeptOne(xs, minLen, i);
  }

  /**
   * Stripping the elements of a list and dropping those left empty loses no character that
   * `p` keeps, when `p` keeps no whitespace.
   */
  lemma {:induction false} KeepStrippedChars(p: char -> bool, ts: seq<string>)
    requires forall c :: p(c) ==> NotSpace(c)
    ensures Filter(p, Flatten(KeepStripped(ts, 0))) == Filter(p, Flatten(ts))
  {
    if ts != [] {
      var t, rest := ts[0], ts[1..];
      var x := Strip(t);
      KeepStrippedChars(p, rest);
      KeepStrippedConcat([t], rest, 0);
      var head := KeepStripped([t], 0);
      assert StripAll([t]) == [x];
      assert head == if |x| > 0 then [x] else [];
      FlattenConcat(head, KeepStripped(rest, 0));
      assert Flatten(head) == if |x| > 0 then x else [];
      FilterConcat(p, Flatten(head), Flatten(KeepStripped(rest, 0)));
      assert Flatten(ts) == t + Flatten(rest);
      FilterConcat(p, t, Flatten(rest));
      StripKeeps(p, t);
    }
  }

  /** Removing the characters of `cs`, as `re.sub('[' + cs + ']', '', s)` does. */
  function RemoveChars(s: string, cs: set<char>): (r: string)
    ensures forall i :: 0 <= i < |r| ==> r[i] !in cs
  {
    Filter(c => c !in cs, s)
  }

  /** `s.replace(pat, repl)`: every non-overlapping occurrence, left to right. */
  function ReplaceAll(s: string, pat: string, repl: string): string
    requires pat != []
    decreases |s|
  {
    if |s| < |pat| then s
    else if s[..|pat|] == pat then repl + ReplaceAll(s[|pat|..], pat, repl)
    else [s[0]] + ReplaceAll(s[1..], pat, repl)
  }

  /** A string with no occurrence of `pat` is left as it is. */
  lemma {:induction false} ReplaceAbsent(s: string, pat: string, repl: string)
    requires pat != []
    requires !Contains(s, pat)
    ensures ReplaceAll(s, pat, repl) == s
    decreases |s|
  {
    if |s| >= |pat| {
      assert !OccursAt(s, pat, 0);
      forall i: nat | i <= |s| - 1
        ensures !OccursAt(s[1..], pat, i)
      {
        assert !OccursAt(s, pat, i + 1);
        if i + |pat| <= |s| - 1 {
          assert s[1..][i..i + |pat|] == s[i + 1..i + 1 + |pat|];
        }
      }
      ReplaceAbsent(s[1..], pat, repl);
    }
  }
}
