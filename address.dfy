/**
 * The address cleaners of the invoice extractors, on `seq<char>`: whitespace runs become one
 * space, backticks and tildes go, a leading `Bill To` / `Send To` / `Ship To` label is dropped
 * case-insensitively, and the text is cut before the first whole-word `Invoice`, `Date`,
 * `P.O.` or `Total`.
 */
module Address {
  import opened Wrappers
  import opened Seqs
  import opened Strings

  /**
   * The regex `\b` at position `i`: exactly one of the two neighbouring characters is a word
   * character, in the ASCII sense of `IsWordChar`.
   */
  predicate Boundary(c: string, i: nat)
    requires i <= |c|
  {
    (i > 0 && IsWordChar(c[i - 1])) != (i < |c| && IsWordChar(c[i]))
  }

  /** `\bw\b` matches `c` at `i` (case-sensitively). */
  predicate WordAt(c: string, w: string, i: nat)
  {
    OccursAt(c, w, i) && Boundary(c, i) && Boundary(c, i + |w|)
  }

  /** `\b(?:Invoice|Date|P\.O\.|Total)\b` matches at `i`. */
  predicate KeywordAt(c: string, i: nat)
  {
    WordAt(c, "Invoice", i) || WordAt(c, "Date", i) || WordAt(c, "P.O.", i) || WordAt(c, "Total", i)
  }

  ghost predicate KeywordFree(c: string)
  {
    forall j: nat :: !KeywordAt(c, j)
  }

  /** The first position, from `from` on, where a keyword matches; `|c|` when there is none. */
  function FirstKeyword(c: string, from: nat): (i: nat)
    requires from <= |c|
    ensures from <= i <= |c|
    ensures i < |c| ==> KeywordAt(c, i)
    ensures forall j :: from <= j < i ==> !KeywordAt(c, j)
    decreases |c| - from
  {
    if from == |c| then |c| else if KeywordAt(c, from) then from else FirstKeyword(c, from + 1)
  }

  /** `re.split(keywords, c)[0]`: the text before the first keyword match. */
  function CutAtKeyword(c: string): string
  {
    c[..FirstKeyword(c, 0)]
  }

  /**
   * The length of the label `^(?:w\s+To)[:.]?\s*` at the start of `c`, matched
   * case-insensitively, for `w` one of the four-letter lower-case `words`; `0` when there is none.
   */
  function LabelLength(c: string, words: set<string>): (n: nat)
    ensures n <= |c|
    ensures n > 0 ==> 4 <= |c| && Lower(c[..4]) in words
  {
    if |c| < 4 || Lower(c[..4]) !in words then 0
    else
      var a := 4 + LeadingSpaces(c[4..]);
      if a == 4 || a + 2 > |c| || Lower(c[a..a + 2]) != "to" then 0
      else
        var b := if a + 2 < |c| && (c[a + 2] == ':' || c[a + 2] == '.') then a + 3 else a + 2;
        b + LeadingSpaces(c[b..])
  }

  /** `re.sub(label, '', c, flags=re.IGNORECASE)` for a label anchored at the start. */
  function DropLabel(c: string, words: set<string>): (r: string)
    ensures EndsWith(c, r)
  {
    var n := LabelLength(c, words);
    assert c[|c| - |c[n..]|..] == c[n..];
    c[n..]
  }

  /** The labels `clean_address` drops: Bill To, Send To and Ship To. */
  const AddressLabels: set<string> := {"bill", "send", "ship"}

  /** No backtick or tilde, and every whitespace character a plain space. */
  ghost predicate Tidy(a: string)
  {
    forall i :: 0 <= i < |a| ==> a[i] != '`' && a[i] != '~' && (IsSpace(a[i]) ==> a[i] == ' ')
  }

  ghost predicate Stripped(a: string)
  {
    a == [] || (NotSpace(a[0]) && NotSpace(a[|a| - 1]))
  }

  /**
   * `clean_address(address_text)`: `None` for empty text; otherwise the text with whitespace
   * runs collapsed, backticks and tildes removed, one leading label dropped, and everything
   * from the first keyword on cut off.  The result is tidy, stripped and free of keywords.
   */
  function CleanAddress(s: string): (r: Option<string>)
    ensures r.None? <==> s == []
    ensures r.Some? ==> Tidy(r.value) && Stripped(r.value) && KeywordFree(r.value)
  {
    if s == [] then None
    else
      var c3 := DropLabel(Despecial(Strip(SubSpaceRuns(s))), AddressLabels);
      CleanedTidy(s, c3);
      CutKeywordFree(c3);
      Some(Strip(CutAtKeyword(c3)))
  }

  /** Every step after the tidying keeps a slice of its input, so the cleaned text stays tidy. */
  lemma CleanedTidy(s: string, c3: string)
    requires c3 == DropLabel(Despecial(Strip(SubSpaceRuns(s))), AddressLabels)
    ensures Tidy(Strip(CutAtKeyword(c3)))
  {
    DespecialTidy(s);
    LabelCutTidy(Despecial(Strip(SubSpaceRuns(s))));
  }

  /** Dropping the label, cutting at the keyword and stripping keep a tidy text tidy. */
  lemma LabelCutTidy(c2: string)
    requires Tidy(c2)
    ensures Tidy(Strip(CutAtKeyword(DropLabel(c2, AddressLabels))))
  {
    var c3 := DropLabel(c2, AddressLabels);
    TidySlice(c2, |c2| - |c3|, |c2|);
    var cut := CutAtKeyword(c3);
    CutIsPrefix(c3);
    TidySlice(c3, 0, |cut|);
    TidyStrip(cut);
  }

  lemma CutIsPrefix(c: string)
    ensures |CutAtKeyword(c)| <= |c| && CutAtKeyword(c) == c[..|CutAtKeyword(c)|]
  {
  }

  lemma TidyStrip(a: string)
    requires Tidy(a)
    ensures Tidy(Strip(a))
  {
    TidySlice(a, LeadingSpaces(a), LeadingSpaces(a) + |Strip(a)|);
  }

  lemma TidySlice(a: string, i: nat, j: nat)
    requires Tidy(a) && i <= j <= |a|
    ensures Tidy(a[i..j])
  {
    forall k | 0 <= k < j - i
      ensures a[i..j][k] == a[i + k]
    {
    }
  }

  predicate NotSpecial(c: char)
  {
    c != '`' && c != '~'
  }

  /** `re.sub(r'[`~]', '', c)` */
  function Despecial(c: string): (r: string)
    ensures forall i :: 0 <= i < |r| ==> NotSpecial(r[i]) && r[i] in c
  {
    FilterFrom(NotSpecial, c);
    Filter(NotSpecial, c)
  }

  lemma DespecialTidy(s: string)
    ensures Tidy(Despecial(Strip(SubSpaceRuns(s))))
  {
    var c0 := SubSpaceRuns(s);
    var a := LeadingSpaces(c0);
    PlainSlice(c0, a, a + |Strip(c0)|);
    DespecialPlain(Strip(c0));
  }

  /** Every whitespace character is a plain space. */
  ghost predicate PlainSpaces(a: string)
  {
    forall i :: 0 <= i < |a| && IsSpace(a[i]) ==> a[i] == ' '
  }

  lemma PlainSlice(a: string, i: nat, j: nat)
    requires PlainSpaces(a) && i <= j <= |a|
    ensures PlainSpaces(a[i..j])
  {
    forall k | 0 <= k < j - i
      ensures a[i..j][k] == a[i + k]
    {
    }
  }

  lemma DespecialPlain(c: string)
    requires PlainSpaces(c)
    ensures Tidy(Despecial(c))
  {
    var d := Despecial(c);
    forall i | 0 <= i < |d| ensures IsSpace(d[i]) ==> d[i] == ' ' {
      assert d[i] in c;
    }
  }

  // ---------------------------------------------------------------- the keyword cut

  /** Every keyword begins with a word character, so no word character precedes a match. */
  lemma KeywordStart(c: string, i: nat)
    requires KeywordAt(c, i)
    ensures i < |c| && IsWordChar(c[i])
    ensures i > 0 ==> !IsWordChar(c[i - 1])
  {
    assert c[i] == c[i..][0];
  }

  /**
   * A place `i` to cut the text at: the end, or a word character with no word character before
   * it, as the start of a keyword match is.
   */
  predicate CutPoint(c: string, i: nat)
  {
    i <= |c| && (i < |c| ==> IsWordChar(c[i]) && (i > 0 ==> !IsWordChar(c[i - 1])))
  }

  /** The characters of the stripped prefix are those of the text, shifted by the leading whitespace. */
  lemma CutChar(c: string, i: nat, t: nat)
    requires i <= |c| && t < |Strip(c[..i])|
    ensures i >= LeadingSpaces(c[..i]) + |Strip(c[..i])|
    ensures Strip(c[..i])[t] == c[LeadingSpaces(c[..i]) + t]
  {
    StripChars(c[..i], t);
  }

  /**
   * A match of `\bw\b` in the stripped prefix, for a `w` that begins with a word character, is a
   * match in the whole text at the shifted position.
   */
  lemma WordTransfers(c: string, i: nat, w: string, j: nat)
    requires CutPoint(c, i)
    requires w != [] && IsWordChar(w[0])
    requires WordAt(Strip(c[..i]), w, j)
    ensures WordAt(c, w, LeadingSpaces(c[..i]) + j)
  {
    OccursTransfers(c, i, w, j);
    StartTransfers(c, i, j);
    EndTransfers(c, i, j + |w|);
  }

  lemma OccursTransfers(c: string, i: nat, w: string, j: nat)
    requires i <= |c| && OccursAt(Strip(c[..i]), w, j)
    ensures OccursAt(c, w, LeadingSpaces(c[..i]) + j)
  {
    var r := Strip(c[..i]);
    var p := LeadingSpaces(c[..i]) + j;
    forall t | 0 <= t < |w|
      ensures c[p + t] == w[t]
    {
      CutChar(c, i, j + t);
      assert r[j + t] == r[j..j + |w|][t];
    }
    if w != [] {
      CutChar(c, i, j + |w| - 1);
    }
    assert c[p..p + |w|] == w;
  }

  /** A boundary before a word character of the stripped prefix is a boundary in the text. */
  lemma StartTransfers(c: string, i: nat, j: nat)
    requires i <= |c| && j < |Strip(c[..i])| && IsWordChar(Strip(c[..i])[j])
    requires Boundary(Strip(c[..i]), j)
    ensures Boundary(c, LeadingSpaces(c[..i]) + j)
  {
    var pre := c[..i];
    var a := LeadingSpaces(pre);
    CutChar(c, i, j);
    if j > 0 {
      CutChar(c, i, j - 1);
    } else if a > 0 {
      assert IsSpace(pre[a - 1]) && c[a - 1] == pre[a - 1];
    }
  }

  /** A boundary after a character of the stripped prefix is a boundary in the text. */
  lemma EndTransfers(c: string, i: nat, e: nat)
    requires CutPoint(c, i)
    requires 0 < e <= |Strip(c[..i])|
    requires Boundary(Strip(c[..i]), e)
    ensures Boundary(c, LeadingSpaces(c[..i]) + e)
  {
    var pre := c[..i];
    var r := Strip(pre);
    var a := LeadingSpaces(pre);
    CutChar(c, i, e - 1);
    StripTrailing(pre);
    if e < |r| {
      CutChar(c, i, e);
    } else if a + e < i {
      assert IsSpace(pre[a + e]) && c[a + e] == pre[a + e];
    }
  }

  /** Nothing that is left once the text is cut before its first keyword and stripped is a keyword. */
  lemma CutKeywordFree(c: string)
    ensures KeywordFree(Strip(CutAtKeyword(c)))
  {
    var i := FirstKeyword(c, 0);
    if i < |c| {
      KeywordStart(c, i);
    }
    assert CutAtKeyword(c) == c[..i];
    CutPrefixFree(c, i);
  }

  /** Cutting before the first keyword at a cut point leaves no keyword in the stripped prefix. */
  lemma CutPrefixFree(c: string, i: nat)
    requires CutPoint(c, i)
    requires forall j :: 0 <= j < i ==> !KeywordAt(c, j)
    ensures KeywordFree(Strip(c[..i]))
  {
    var r := Strip(c[..i]);
    forall j: nat | KeywordAt(r, j)
      ensures false
    {
      KeywordStart(r, j);
      KeywordTransfers(c, i, j);
      CutChar(c, i, j);
    }
  }

  /** A keyword match in the stripped prefix is a keyword match in the text. */
  lemma KeywordTransfers(c: string, i: nat, j: nat)
    requires CutPoint(c, i)
    requires KeywordAt(Strip(c[..i]), j)
    ensures KeywordAt(c, LeadingSpaces(c[..i]) + j)
  {
    var r := Strip(c[..i]);
    if WordAt(r, "Invoice", j) {
      WordTransfers(c, i, "Invoice", j);
    } else if WordAt(r, "Date", j) {
      WordTransfers(c, i, "Date", j);
    } else if WordAt(r, "P.O.", j) {
      WordTransfers(c, i, "P.O.", j);
    } else {
      WordTransfers(c, i, "Total", j);
    }
  }

  /** The cut is made at the first position where a keyword matches. */
  lemma CutAtFirst(c: string, i: nat)
    requires KeywordAt(c, i)
    requires forall j :: 0 <= j < i ==> !KeywordAt(c, j)
    ensures CutAtKeyword(c) == c[..i]
  {
    KeywordStart(c, i);
  }

  /** `P.O.` ends in a dot, so `\b` after it needs a word character next: `P.O. Box` is not cut. */
  lemma PoNeedsWordAfter(c: string, i: nat)
    requires WordAt(c, "P.O.", i)
    ensures i + 4 < |c| && IsWordChar(c[i + 4])
  {
    assert c[i + 3] == c[i..i + 4][3] == '.';
  }

  // ---------------------------------------------------------------- the label

  /** The length of a run of whitespace that is followed by a non-whitespace character or the end. */
  lemma LeadingSpacesIs(s: string, n: nat)
    requires n <= |s|
    requires forall k :: 0 <= k < n ==> IsSpace(s[k])
    requires n < |s| ==> NotSpace(s[n])
    ensures LeadingSpaces(s) == n
  {
  }

  /**
   * A label `w` + whitespace + `To` + an optional `:` or `.` + whitespace, with `w` one of the
   * label words in any case, is dropped entirely and nothing of what follows it is.
   */
  lemma LabelDropped(w: string, gap: string, t: string, p: string, gap2: string, rest: string, words: set<string>)
    requires |w| == 4 && Lower(w) in words
    requires gap != [] && forall k :: 0 <= k < |gap| ==> IsSpace(gap[k])
    requires |t| == 2 && Lower(t) == "to"
    requires p == "" || p == ":" || p == "."
    requires forall k :: 0 <= k < |gap2| ==> IsSpace(gap2[k])
    requires rest == [] || NotSpace(rest[0])
    requires p == "" && gap2 == [] && rest != [] ==> rest[0] != ':' && rest[0] != '.'
    ensures DropLabel(Labelled(w, gap, t, p, gap2, rest), words) == rest
  {
    var u := t + (p + (gap2 + rest));
    var c := Labelled(w, gap, t, p, gap2, rest);
    assert c == w + (gap + u);
    HeadParts(c, w, gap, u);
    TailParts(u, t, p, gap2, rest);
    TailLength(c, words, |gap|, u, |p|, |gap2|, rest);
  }

  /** A text made of a label and what follows it. */
  function Labelled(w: string, gap: string, t: string, p: string, gap2: string, rest: string): string
  {
    w + (gap + (t + (p + (gap2 + rest))))
  }

  /** The label is dropped once its word, its gap and the rest `u` of it are where they should be. */
  lemma TailLength(c: string, words: set<string>, g: nat, u: string, q: nat, g2: nat, rest: string)
    requires 4 <= |c| && Lower(c[..4]) in words
    requires g > 0 && LeadingSpaces(c[4..]) == g && 4 + g <= |c| && c[4 + g..] == u
    requires q <= 1 && 2 + q <= |u| && Lower(u[..2]) == "to"
    requires q == 1 ==> u[2] == ':' || u[2] == '.'
    requires q == 0 && 2 < |u| ==> u[2] != ':' && u[2] != '.'
    requires LeadingSpaces(u[2 + q..]) == g2 && 2 + q + g2 <= |u| && u[2 + q + g2..] == rest
    ensures DropLabel(c, words) == rest
  {
    var a := 4 + g;
    SuffixShift(c, a, u, 2);
    SuffixShift(c, a, u, 2 + q);
    SuffixShift(c, a, u, 2 + q + g2);
    LabelLengthOf(c, words, g, q, g2);
  }

  /** The label word, then its whitespace gap, then the rest `u` of the label. */
  lemma HeadParts(c: string, w: string, gap: string, u: string)
    requires c == w + (gap + u) && |w| == 4
    requires gap != [] && forall k :: 0 <= k < |gap| ==> IsSpace(gap[k])
    requires u != [] && NotSpace(u[0])
    ensures c[..4] == w && LeadingSpaces(c[4..]) == |gap| && 4 + |gap| <= |c| && c[4 + |gap|..] == u
  {
    assert c[..4] == w && c[4..] == gap + u;
    SpacesThen(gap, u);
    assert c[4 + |gap|..] == u;
  }

  /** `To`, the optional punctuation, the second gap, then what follows the label. */
  lemma TailParts(u: string, t: string, p: string, gap2: string, rest: string)
    requires u == t + (p + (gap2 + rest)) && |t| == 2 && Lower(t) == "to"
    requires p == "" || p == ":" || p == "."
    requires forall k :: 0 <= k < |gap2| ==> IsSpace(gap2[k])
    requires rest == [] || NotSpace(rest[0])
    requires p == "" && gap2 == [] && rest != [] ==> rest[0] != ':' && rest[0] != '.'
    ensures 2 + |p| <= |u| && NotSpace(u[0]) && Lower(u[..2]) == "to"
    ensures |p| == 1 ==> u[2] == ':' || u[2] == '.'
    ensures |p| == 0 && 2 < |u| ==> u[2] != ':' && u[2] != '.'
    ensures LeadingSpaces(u[2 + |p|..]) == |gap2| && 2 + |p| + |gap2| <= |u| && u[2 + |p| + |gap2|..] == rest
  {
    var tail := gap2 + rest;
    assert u[..2] == t;
    assert LowerChar(t[0]) == 't' && u[0] == t[0];
    assert u[2..] == p + tail;
    assert u[2 + |p|..] == tail;
    assert p == "" && 2 < |u| ==> u[2] == tail[0];
    assert p != "" ==> u[2] == p[0];
    SpacesThen(gap2, rest);
    assert tail[|gap2|..] == rest;
  }

  /** Slices of a suffix are slices of the whole text, shifted by where the suffix starts. */
  lemma SuffixShift(c: string, a: nat, u: string, k: nat)
    requires a <= |c| && c[a..] == u && k <= |u|
    ensures c[a + k..] == u[k..] && (k < |u| ==> c[a + k] == u[k]) && c[a..a + k] == u[..k]
  {
  }

  lemma SpacesThen(gap: string, x: string)
    requires forall k :: 0 <= k < |gap| ==> IsSpace(gap[k])
    requires x == [] || NotSpace(x[0])
    ensures LeadingSpaces(gap + x) == |gap|
  {
    LeadingSpacesIs(gap + x, |gap|);
  }

  /** `LabelLength` from the lengths of the label's parts. */
  lemma LabelLengthOf(c: string, words: set<string>, g: nat, q: nat, g2: nat)
    requires 4 <= |c| && Lower(c[..4]) in words
    requires g > 0 && LeadingSpaces(c[4..]) == g && 4 + g + 2 <= |c| && Lower(c[4 + g..4 + g + 2]) == "to"
    requires q <= 1 && 4 + g + 2 + q <= |c|
    requires q == 1 ==> c[4 + g + 2] == ':' || c[4 + g + 2] == '.'
    requires q == 0 && 4 + g + 2 < |c| ==> c[4 + g + 2] != ':' && c[4 + g + 2] != '.'
    requires LeadingSpaces(c[4 + g + 2 + q..]) == g2
    ensures LabelLength(c, words) == 4 + g + 2 + q + g2
  {
  }

  /** A text that starts with none of the label words keeps its start. */
  lemma NoLabelKept(c: string, words: set<string>)
    requires |c| < 4 || Lower(c[..4]) !in words
    ensures DropLabel(c, words) == c
  {
  }

  // ---------------------------------------------------------------- the simpler variants

  /** Only whitespace and the removed characters are lost. */
  predicate Substantive(c: char)
  {
    NotSpace(c) && NotSpecial(c)
  }

  /**
   * The `clean_address` of the Spanish-commented first variant: whitespace runs collapsed, the
   * text stripped, backticks and tildes removed, and nothing else.
   */
  function CleanAddressPlain(s: string): (r: string)
    ensures Tidy(r)
    ensures Filter(Substantive, r) == Filter(Substantive, s)
  {
    DespecialTidy(s);
    PlainKeeps(s);
    Despecial(Strip(SubSpaceRuns(s)))
  }

  /** Collapsing, stripping and removing the special characters lose nothing substantive. */
  lemma PlainKeeps(s: string)
    ensures Filter(Substantive, Despecial(Strip(SubSpaceRuns(s)))) == Filter(Substantive, s)
  {
    var c0 := SubSpaceRuns(s);
    var c1 := Strip(c0);
    FilterSub(Substantive, NotSpecial, c1);
    FilterSub(Substantive, NotSpace, c1);
    StripKeeps(NotSpace, c0);
    FilterSub(Substantive, NotSpace, c0);
    FilterSub(Substantive, NotSpace, s);
  }

  /** The labels the third variant drops: Bill To and Send To, but not Ship To. */
  const BillSendLabels: set<string> := {"bill", "send"}

  /** The `clean_address` of the third variant: the plain cleaning, then a Bill To / Send To label dropped. */
  function CleanAddressLabelled(s: string): (r: string)
    ensures Tidy(r)
    ensures EndsWith(CleanAddressPlain(s), r)
  {
    var c := CleanAddressPlain(s);
    var r := DropLabel(c, BillSendLabels);
    TidySlice(c, |c| - |r|, |c|);
    r
  }

  /** The third variant keeps a leading Ship To label. */
  lemma ShipToKept(c: string)
    requires |c| >= 4 && Lower(c[..4]) == "ship"
    ensures DropLabel(c, BillSendLabels) == c
  {
  }

  /**
   * A whole `Ship To` label is dropped by the cleaner of the main extractor, and kept by that of
   * the third variant.
   */
  lemma ShipToDropped(w: string, gap: string, t: string, p: string, gap2: string, rest: string)
    requires |w| == 4 && Lower(w) == "ship"
    requires gap != [] && forall k :: 0 <= k < |gap| ==> IsSpace(gap[k])
    requires |t| == 2 && Lower(t) == "to"
    requires p == "" || p == ":" || p == "."
    requires forall k :: 0 <= k < |gap2| ==> IsSpace(gap2[k])
    requires rest == [] || NotSpace(rest[0])
    requires p == "" && gap2 == [] && rest != [] ==> rest[0] != ':' && rest[0] != '.'
    ensures DropLabel(Labelled(w, gap, t, p, gap2, rest), AddressLabels) == rest
    ensures DropLabel(Labelled(w, gap, t, p, gap2, rest), BillSendLabels) == Labelled(w, gap, t, p, gap2, rest)
  {
    LabelDropped(w, gap, t, p, gap2, rest, AddressLabels);
    var c := Labelled(w, gap, t, p, gap2, rest);
    assert c[..4] == w;
    ShipToKept(c);
  }
}
