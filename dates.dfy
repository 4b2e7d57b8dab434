/**
 * Dates: the first-success format cascade every `parse_date` runs over `strptime`, and the
 * `strftime('%Y-%m-%d')` rendering, which is the complete extended calendar-date
 * representation of ISO 8601:2004, section 4.1.2.2 (`YYYY-MM-DD`).
 */
module Dates {
  import opened Wrappers
  import opened Foreign
  import opened Strings

  /** The index of the first format under which `s` parses, or `|fs|` when none does. */
  function FirstFormat(strptime: (string, string) -> Option<Date>, fs: seq<string>, s: string): (k: nat)
    ensures k <= |fs|
    ensures k < |fs| ==> strptime(s, fs[k]).Some?
    ensures forall j :: 0 <= j < k ==> strptime(s, fs[j]).None?
  {
    if fs == [] then 0
    else if strptime(s, fs[0]).Some? then 0
    else 1 + FirstFormat(strptime, fs[1..], s)
  }

  /**
   * The `for fmt in formats: try: return datetime.strptime(s, fmt) ... except ValueError: continue`
   * loop followed by `return None`: the parse under the first format that fits, never an exception.
   */
  function ParseFirst(strptime: (string, string) -> Option<Date>, fs: seq<string>, s: string): (r: Option<Date>)
    ensures r.None? <==> forall j :: 0 <= j < |fs| ==> strptime(s, fs[j]).None?
    ensures r.Some? ==> exists k :: (0 <= k < |fs| && r == strptime(s, fs[k])
      && forall j :: 0 <= j < k ==> strptime(s, fs[j]).None?)
  {
    var k := FirstFormat(strptime, fs, s);
    if k < |fs| then strptime(s, fs[k]) else None
  }

  /** A format that fits, preceded only by formats that do not, decides the result. */
  lemma ParseFirstIs(strptime: (string, string) -> Option<Date>, fs: seq<string>, s: string, k: nat)
    requires k < |fs| && strptime(s, fs[k]).Some?
    requires forall j :: 0 <= j < k ==> strptime(s, fs[j]).None?
    ensures ParseFirst(strptime, fs, s) == strptime(s, fs[k])
  {
    assert FirstFormat(strptime, fs, s) == k;
  }

  /** Formats after one that fits are never consulted. */
  lemma {:induction false} ParseFirstAppend(strptime: (string, string) -> Option<Date>, fs: seq<string>, gs: seq<string>, s: string)
    ensures ParseFirst(strptime, fs, s).Some? ==> ParseFirst(strptime, fs + gs, s) == ParseFirst(strptime, fs, s)
    ensures ParseFirst(strptime, fs, s).None? ==> ParseFirst(strptime, fs + gs, s) == ParseFirst(strptime, gs, s)
  {
    var k := FirstFormat(strptime, fs, s);
    if k < |fs| {
      assert (fs + gs)[k] == fs[k];
      ParseFirstIs(strptime, fs + gs, s, k);
    } else {
      var k2 := FirstFormat(strptime, gs, s);
      if k2 < |gs| {
        assert (fs + gs)[|fs| + k2] == gs[k2];
        ParseFirstIs(strptime, fs + gs, s, |fs| + k2);
      } else {
        forall j | 0 <= j < |fs + gs|
          ensures strptime(s, (fs + gs)[j]).None?
        {
          if j < |fs| {
            assert (fs + gs)[j] == fs[j];
          } else {
            assert (fs + gs)[j] == gs[j - |fs|];
          }
        }
      }
    }
  }

  // ---------------------------------------------------------------- decimal digits

  function Pow10(w: nat): (p: nat)
    ensures p >= 1
  {
    if w == 0 then 1 else 10 * Pow10(w - 1)
  }

  function DigitChar(n: nat): (c: char)
    requires n < 10
    ensures IsDigit(c) && c as int - '0' as int == n
  {
    ('0' as int + n) as char
  }

  predicate AllDigits(s: string)
  {
    forall i :: 0 <= i < |s| ==> IsDigit(s[i])
  }

  /** The last `w` decimal digits of `n`, most significant first, zero-padded (`%0wd`). */
  function Digits(n: nat, w: nat): (r: string)
    ensures |r| == w && AllDigits(r)
  {
    if w == 0 then [] else Digits(n / 10, w - 1) + [DigitChar(n % 10)]
  }

  /** The number a string of decimal digits denotes. */
  function DigitsValue(s: string): (v: nat)
    requires AllDigits(s)
    ensures v < Pow10(|s|)
  {
    if s == [] then 0 else DigitsValue(s[..|s| - 1]) * 10 + (s[|s| - 1] as int - '0' as int)
  }

  lemma {:induction false} DigitsRoundTrip(n: nat, w: nat)
    requires n < Pow10(w)
    ensures DigitsValue(Digits(n, w)) == n
  {
    if w > 0 {
      var r := Digits(n, w);
      DigitsRoundTrip(n / 10, w - 1);
      assert r[..|r| - 1] == Digits(n / 10, w - 1);
    }
  }

  lemma {:induction false} ValueRoundTrip(s: string)
    requires AllDigits(s)
    ensures Digits(DigitsValue(s), |s|) == s
  {
    if s != [] {
      var p, c := s[..|s| - 1], s[|s| - 1];
      ValueRoundTrip(p);
      var v := DigitsValue(s);
      assert v / 10 == DigitsValue(p);
      assert v % 10 == c as int - '0' as int;
      assert s == p + [c];
    }
  }

  // ---------------------------------------------------------------- ISO 8601 calendar dates

  /** `d.strftime('%Y-%m-%d')`. */
  function IsoDate(d: Date): (r: string)
    ensures |r| == 10 && r[4] == '-' && r[7] == '-'
    ensures AllDigits(r[..4]) && AllDigits(r[5..7]) && AllDigits(r[8..])
  {
    var r := Digits(d.year, 4) + "-" + Digits(d.month, 2) + "-" + Digits(d.day, 2);
    assert r[..4] == Digits(d.year, 4) && r[5..7] == Digits(d.month, 2) && r[8..] == Digits(d.day, 2);
    r
  }

  /** Reading a `YYYY-MM-DD` string back: `None` unless it has exactly that shape and in-range fields. */
  function ParseIso(s: string): Option<Date>
  {
    if |s| == 10 && s[4] == '-' && s[7] == '-' && AllDigits(s[..4]) && AllDigits(s[5..7]) && AllDigits(s[8..]) then
      var y, m, d := DigitsValue(s[..4]), DigitsValue(s[5..7]), DigitsValue(s[8..]);
      if 1 <= y && 1 <= m <= 12 && 1 <= d <= 31 then Some(Date(y, m, d)) else None
    else None
  }

  /** Formatting a date and reading it back gives the same date. */
  lemma IsoRoundTrip(d: Date)
    ensures ParseIso(IsoDate(d)) == Some(d)
  {
    var r := IsoDate(d);
    assert r[..4] == Digits(d.year, 4) && r[5..7] == Digits(d.month, 2) && r[8..] == Digits(d.day, 2);
    DigitsRoundTrip(d.year, 4);
    DigitsRoundTrip(d.month, 2);
    DigitsRoundTrip(d.day, 2);
  }

  /** Every string `ParseIso` accepts is the rendering of the date it reads. */
  lemma IsoCanonical(s: string)
    requires ParseIso(s).Some?
    ensures IsoDate(ParseIso(s).value) == s
  {
    var d := ParseIso(s).value;
    ValueRoundTrip(s[..4]);
    ValueRoundTrip(s[5..7]);
    ValueRoundTrip(s[8..]);
    assert s == s[..4] + "-" + s[5..7] + "-" + s[8..];
  }

  /** `parse_date` of the invoice and safety extractors: the first parse, rendered as ISO text. */
  function ParseToIso(strptime: (string, string) -> Option<Date>, fs: seq<string>, s: string): (r: Option<string>)
    ensures r.None? <==> ParseFirst(strptime, fs, s).None?
    ensures r.Some? ==> ParseIso(r.value) == ParseFirst(strptime, fs, s)
  {
    var p := ParseFirst(strptime, fs, s);
    if p.Some? then IsoRoundTrip(p.value); Some(IsoDate(p.value)) else None
  }
}
