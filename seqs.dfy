/** Generic sequence helpers: filtering, concatenation, joining and splitting. */
module Seqs {
  import opened Wrappers

  /** The elements of `s` that satisfy `p`, in order (a list comprehension with an `if`). */
  function Filter<T>(p: T -> bool, s: seq<T>): (r: seq<T>)
    ensures |r| <= |s|
    ensures forall i :: 0 <= i < |r| ==> p(r[i])
  {
    if s == [] then [] else (if p(s[0]) then [s[0]] else []) + Filter(p, s[1..])
  }

  /** Every element kept is an element of the input. */
  lemma {:induction false} FilterFrom<T>(p: T -> bool, s: seq<T>)
    ensures forall i :: 0 <= i < |Filter(p, s)| ==> Filter(p, s)[i] in s
  {
    if s != [] {
      FilterFrom(p, s[1..]);
      var head := if p(s[0]) then [s[0]] else [];
      var r := Filter(p, s);
      assert r == head + Filter(p, s[1..]);
      forall i | 0 <= i < |r| ensures r[i] in s {
        if i >= |head| {
          assert r[i] == Filter(p, s[1..])[i - |head|];
          assert r[i] in s[1..];
        }
      }
    }
  }

  /** Every element of the input that satisfies `p` is kept. */
  lemma {:induction false} FilterKeepsAll<T>(p: T -> bool, s: seq<T>)
    ensures forall i :: 0 <= i < |s| && p(s[i]) ==> s[i] in Filter(p, s)
  {
    if s != [] {
      FilterKeepsAll(p, s[1..]);
      var head := if p(s[0]) then [s[0]] else [];
      var r := Filter(p, s);
      assert r == head + Filter(p, s[1..]);
      forall i | 0 <= i < |s| && p(s[i]) ensures s[i] in r {
        if i > 0 {
          assert s[i] == s[1..][i - 1];
        }
      }
    }
  }

  lemma {:induction false} FilterConcat<T>(p: T -> bool, a: seq<T>, b: seq<T>)
    ensures Filter(p, a + b) == Filter(p, a) + Filter(p, b)
  {
    if a == [] {
      assert a + b == b;
    } else {
      assert (a + b)[1..] == a[1..] + b;
      FilterConcat(p, a[1..], b);
    }
  }

  lemma {:induction false} FilterAll<T>(p: T -> bool, s: seq<T>)
    requires forall i :: 0 <= i < |s| ==> p(s[i])
    ensures Filter(p, s) == s
  {
    if s != [] {
      FilterAll(p, s[1..]);
    }
  }

  lemma {:induction false} FilterNone<T>(p: T -> bool, s: seq<T>)
    requires forall i :: 0 <= i < |s| ==> !p(s[i])
    ensures Filter(p, s) == []
  {
    if s != [] {
      FilterNone(p, s[1..]);
    }
  }

  /** Filtering first by a weaker test changes nothing. */
  lemma {:induction false} FilterSub<T>(p: T -> bool, q: T -> bool, s: seq<T>)
    requires forall x :: p(x) ==> q(x)
    ensures Filter(p, Filter(q, s)) == Filter(p, s)
  {
    if s != [] {
      FilterSub(p, q, s[1..]);
      var head := if q(s[0]) then [s[0]] else [];
      assert Filter(q, s) == head + Filter(q, s[1..]);
      FilterConcat(p, head, Filter(q, s[1..]));
      if q(s[0]) {
        assert Filter(p, head) == if p(s[0]) then [s[0]] else [];
      }
    }
  }

  /**
   * The values `f` yields for the elements of `s`, in order, skipping the elements for which it
   * yields `None` (a loop that appends on success and `continue`s on an exception).
   */
  function Choose<A, B>(f: A -> Option<B>, s: seq<A>): (r: seq<B>)
    ensures |r| <= |s|
    ensures forall i :: 0 <= i < |r| ==> exists j :: 0 <= j < |s| && f(s[j]) == Some(r[i])
  {
    if s == [] then []
    else
      var init := s[..|s| - 1];
      var p := Choose(f, init);
      var y := f(s[|s| - 1]);
      assert forall j :: 0 <= j < |init| ==> init[j] == s[j];
      if y.Some? then p + [y.value] else p
  }

  /**
   * The results `f` yields for the elements of `s`, in order, up to the first error, which ends
   * the run and is returned beside them.
   */
  function UntilErr<A, B, E>(f: A -> Result<B, E>, s: seq<A>): (r: (seq<B>, Option<E>))
    ensures r.1.None? <==> forall i :: 0 <= i < |s| ==> f(s[i]).Ok?
    ensures r.1.None? ==> |r.0| == |s|
    ensures r.1.Some? ==> |r.0| < |s| && f(s[|r.0|]) == Err(r.1.value)
    ensures forall i :: 0 <= i < |r.0| ==> f(s[i]) == Ok(r.0[i])
  {
    if s == [] then ([], None)
    else
      var rest := UntilErr(f, s[1..]);
      match f(s[0])
      case Err(e) => ([], Some(e))
      case Ok(b) =>
        assert forall i :: 1 <= i < |s| ==> s[i] == s[1..][i - 1];
        ([b] + rest.0, rest.1)
  }

  /** The loop `Choose` specifies: append what `f` yields for each element, skip a `None`. */
  method AppendChosen<A, B>(f: A -> Option<B>, acc: seq<B>, s: seq<A>) returns (r: seq<B>)
    ensures r == acc + Choose(f, s)
  {
    r := acc;
    var j := 0;
    while j < |s|
      invariant 0 <= j <= |s|
      invariant r == acc + Choose(f, s[..j])
    {
      var y := f(s[j]);
      assert s[..j + 1][..j] == s[..j];
      if y.Some? {
        r := r + [y.value];
      }
      j := j + 1;
    }
    assert s[..j] == s;
  }

  lemma {:induction false} ChooseConcat<A, B>(f: A -> Option<B>, a: seq<A>, b: seq<A>)
    ensures Choose(f, a + b) == Choose(f, a) + Choose(f, b)
    decreases |b|
  {
    if b == [] {
      assert a + b == a;
    } else {
      var b' := b[..|b| - 1];
      assert (a + b)[..|a + b| - 1] == a + b';
      ChooseConcat(f, a, b');
    }
  }

  /** Choosing from a sequence with a first element: that element's value, if any, comes first. */
  lemma ChooseCons<A, B>(f: A -> Option<B>, x: A, s: seq<A>)
    ensures Choose(f, [x] + s) == (if f(x).Some? then [f(x).value] else []) + Choose(f, s)
  {
    ChooseConcat(f, [x], s);
    assert [x][..0] == [];
  }

  /** Where `f` always succeeds, nothing is skipped and every value stays in place. */
  lemma {:induction false} ChooseAll<A, B>(f: A -> Option<B>, s: seq<A>)
    requires forall j :: 0 <= j < |s| ==> f(s[j]).Some?
    ensures |Choose(f, s)| == |s|
    ensures forall j :: 0 <= j < |s| ==> Choose(f, s)[j] == f(s[j]).value
  {
    if s != [] {
      var init := s[..|s| - 1];
      var last := s[|s| - 1];
      assert s == init + [last];
      ChooseAll(f, init);
      assert f(last).Some?;
      var p := Choose(f, init);
      var c := Choose(f, s);
      assert c == p + [f(last).value];
    }
  }

  /** Where `f` always fails, nothing is kept. */
  lemma {:induction false} ChooseNone<A, B>(f: A -> Option<B>, s: seq<A>)
    requires forall j :: 0 <= j < |s| ==> f(s[j]).None?
    ensures Choose(f, s) == []
  {
    if s != [] {
      var init := s[..|s| - 1];
      assert forall j :: 0 <= j < |init| ==> init[j] == s[j];
      ChooseNone(f, init);
    }
  }

  /** Filtering a slice outside of which `p` keeps nothing is filtering the whole. */
  lemma FilterMiddle<T>(p: T -> bool, s: seq<T>, a: nat, e: nat)
    requires a <= e <= |s|
    requires forall i :: 0 <= i < a ==> !p(s[i])
    requires forall i :: e <= i < |s| ==> !p(s[i])
    ensures Filter(p, s[a..e]) == Filter(p, s)
  {
    NoneInSlice(p, s, 0, a);
    NoneInSlice(p, s, e, |s|);
    ThreeParts(s, a, e);
    FilterConcat(p, s[0..a] + s[a..e], s[e..|s|]);
    FilterConcat(p, s[0..a], s[a..e]);
  }

  /** A slice none of whose elements `p` keeps filters to nothing. */
  lemma NoneInSlice<T>(p: T -> bool, s: seq<T>, a: nat, e: nat)
    requires a <= e <= |s|
    requires forall i :: a <= i < e ==> !p(s[i])
    ensures Filter(p, s[a..e]) == []
  {
    forall i | 0 <= i < e - a ensures !p(s[a..e][i]) {
      assert s[a..e][i] == s[a + i];
    }
    FilterNone(p, s[a..e]);
  }

  /** A sequence is its three slices at `a <= e`, in order. */
  lemma ThreeParts<T>(s: seq<T>, a: nat, e: nat)
    requires a <= e <= |s|
    ensures s == s[0..a] + s[a..e] + s[e..|s|]
  {
    assert s[0..a] + s[a..e] == s[0..e];
  }

  /** A slice inside the left operand of a concatenation is a slice of that operand. */
  lemma SliceOfConcat<T>(a: seq<T>, b: seq<T>, i: nat, j: nat)
    requires i <= j <= |a|
    ensures (a + b)[i..j] == a[i..j]
  {
  }

  /** The right operand of a concatenation is the slice after the left one. */
  lemma ConcatTail<T>(a: seq<T>, b: seq<T>)
    ensures (a + b)[|a|..|a| + |b|] == b
  {
  }

  /** All the sequences of `ss`, concatenated in order. */
  function Flatten<T>(ss: seq<seq<T>>): seq<T>
  {
    if ss == [] then [] else ss[0] + Flatten(ss[1..])
  }

  lemma {:induction false} FlattenConcat<T>(a: seq<seq<T>>, b: seq<seq<T>>)
    ensures Flatten(a + b) == Flatten(a) + Flatten(b)
  {
    if a == [] {
      assert a + b == b;
    } else {
      assert (a + b)[1..] == a[1..] + b;
      FlattenConcat(a[1..], b);
    }
  }

  /** Python's `sep.join(ss)`. */
  function Join<T>(ss: seq<seq<T>>, sep: seq<T>): seq<T>
  {
    if ss == [] then [] else if |ss| == 1 then ss[0] else ss[0] + sep + Join(ss[1..], sep)
  }

  /** The first index of `x` in `s`, or `|s|` when `x` does not occur. */
  function IndexOf<T(==)>(s: seq<T>, x: T): (i: nat)
    ensures i <= |s|
    ensures i < |s| ==> s[i] == x
    ensures forall j :: 0 <= j < i ==> s[j] != x
  {
    if s == [] then 0 else if s[0] == x then 0 else 1 + IndexOf(s[1..], x)
  }

  /** Python's `s.split(x)` for a one-element separator: every piece, empty ones included. */
  function SplitOn<T(==)>(s: seq<T>, x: T): (r: seq<seq<T>>)
    ensures |r| > 0
    ensures forall i :: 0 <= i < |r| ==> x !in r[i]
    decreases |s|
  {
    var i := IndexOf(s, x);
    if i == |s| then [s] else [s[..i]] + SplitOn(s[i + 1..], x)
  }

  /** Splitting on `x` and joining with `x` gives back the original sequence. */
  lemma {:induction false} JoinSplitOn<T>(s: seq<T>, x: T)
    ensures Join(SplitOn(s, x), [x]) == s
    decreases |s|
  {
    var i := IndexOf(s, x);
    if i < |s| {
      var rest := s[i + 1..];
      JoinSplitOn(rest, x);
      assert SplitOn(s, x) == [s[..i]] + SplitOn(rest, x);
      assert s == s[..i] + [x] + rest;
    }
  }

  /** The number of occurrences of `x` in `s`. */
  function Count<T(==)>(s: seq<T>, x: T): nat
  {
    if s == [] then 0 else (if s[0] == x then 1 else 0) + Count(s[1..], x)
  }

  lemma {:induction false} CountConcat<T>(a: seq<T>, b: seq<T>, x: T)
    ensures Count(a + b, x) == Count(a, x) + Count(b, x)
  {
    if a == [] {
      assert a + b == b;
    } else {
      assert (a + b)[1..] == a[1..] + b;
      CountConcat(a[1..], b, x);
    }
  }

  lemma {:induction false} CountAbsent<T>(s: seq<T>, x: T)
    requires x !in s
    ensures Count(s, x) == 0
  {
    if s != [] {
      CountAbsent(s[1..], x);
    }
  }

  /** The number of pieces is one more than the number of separators. */
  lemma {:induction false} SplitOnCount<T>(s: seq<T>, x: T)
    ensures |SplitOn(s, x)| == Count(s, x) + 1
    decreases |s|
  {
    var i := IndexOf(s, x);
    if i == |s| {
      CountAbsent(s, x);
    } else {
      var rest := s[i + 1..];
      SplitOnCount(rest, x);
      assert s == s[..i] + ([x] + rest);
      CountConcat(s[..i], [x] + rest, x);
      assert ([x] + rest)[1..] == rest;
      CountAbsent(s[..i], x);
    }
  }
}
