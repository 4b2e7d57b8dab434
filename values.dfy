/**
 * Python values as the exporters see them: scalars, dictionaries (entries in insertion order)
 * and lists, with `str()`, truthiness, `dict(items)` and `d[k]` / `d.get(k)`.
 */
module Values {
  import opened Wrappers
  import opened Foreign
  import opened Seqs

  datatype Atom = Null | Bool(b: bool) | Int(i: int) | Real(x: Float) | Text(s: string)

  /** A JSON-like value; `Dict` entries are in insertion order. */
  datatype Value = Scalar(atom: Atom) | Dict(entries: seq<(string, Value)>) | List(items: seq<Value>)

  function NatStr(n: nat): (r: string)
    ensures |r| >= 1
    ensures forall i :: 0 <= i < |r| ==> '0' <= r[i] <= '9'
  {
    if n < 10 then [('0' as int + n) as char] else NatStr(n / 10) + [('0' as int + n % 10) as char]
  }

  /** `str(i)` for an `int`. */
  function IntStr(i: int): string
  {
    if i < 0 then "-" + NatStr(-i) else NatStr(i)
  }

  /** `str(a)` for a scalar. */
  function AtomStr(a: Atom): string
  {
    match a
    case Null => "None"
    case Bool(b) => if b then "True" else "False"
    case Int(i) => IntStr(i)
    case Real(x) => x.repr
    case Text(s) => s
  }

  /** `repr(v)`; a string is shown between single quotes, without escaping. */
  function Repr(v: Value): string
  {
    match v
    case Scalar(Text(s)) => "'" + s + "'"
    case Scalar(a) => AtomStr(a)
    case List(items) => "[" + Join(seq(|items|, i requires 0 <= i < |items| => Repr(items[i])), ", ") + "]"
    case Dict(es) =>
      "{" + Join(seq(|es|, i requires 0 <= i < |es| => "'" + es[i].0 + "': " + Repr(es[i].1)), ", ") + "}"
  }

  /** `str(v)`: a string is itself, a container is its `repr`. */
  function Str(v: Value): string
  {
    match v
    case Scalar(a) => AtomStr(a)
    case _ => Repr(v)
  }

  /** Python truthiness: `None`, `False`, `0`, `0.0`, `""`, `{}` and `[]` are false. */
  predicate Truthy(v: Value)
  {
    match v
    case Scalar(Null) => false
    case Scalar(Bool(b)) => b
    case Scalar(Int(i)) => i != 0
    case Scalar(Real(x)) => x.repr != "0.0" && x.repr != "-0.0"
    case Scalar(Text(s)) => s != ""
    case Dict(es) => es != []
    case List(items) => items != []
  }

  function Str1(s: string): Value { Scalar(Text(s)) }

  /** `None` for `None`, otherwise the string. */
  function OptStr(o: Option<string>): Value
  {
    if o.Some? then Scalar(Text(o.value)) else Scalar(Null)
  }

  // ---------------------------------------------------------------- dictionaries

  function Keys(es: seq<(string, Value)>): (ks: seq<string>)
    ensures |ks| == |es|
    ensures forall i :: 0 <= i < |es| ==> ks[i] == es[i].0
  {
    seq(|es|, i requires 0 <= i < |es| => es[i].0)
  }

  ghost predicate DistinctKeys(es: seq<(string, Value)>)
  {
    forall i, j :: 0 <= i < j < |es| ==> es[i].0 != es[j].0
  }

  /** `d.get(k)`: the value of the first entry with key `k` (in a dictionary, the only one). */
  function Get(es: seq<(string, Value)>, k: string): (r: Option<Value>)
    ensures r.None? <==> k !in Keys(es)
  {
    var i := IndexOf(Keys(es), k);
    if i < |es| then Some(es[i].1) else None
  }

  /** The value of the last item with key `k`. */
  function LastValue(items: seq<(string, Value)>, k: string): Option<Value>
  {
    if items == [] then None
    else if items[|items| - 1].0 == k then Some(items[|items| - 1].1)
    else LastValue(items[..|items| - 1], k)
  }

  /** The distinct elements of `s`, in order of first occurrence. */
  function Dedup(s: seq<string>): (r: seq<string>)
    ensures forall x :: x in r <==> x in s
  {
    if s == [] then []
    else
      var p := Dedup(s[..|s| - 1]);
      assert s == s[..|s| - 1] + [s[|s| - 1]];
      if s[|s| - 1] in p then p else p + [s[|s| - 1]]
  }

  /** `d[k] = v`: overwrite in place when `k` is present, append otherwise. */
  function Put(d: seq<(string, Value)>, k: string, v: Value): seq<(string, Value)>
  {
    var i := IndexOf(Keys(d), k);
    if i < |d| then d[i := (k, v)] else d + [(k, v)]
  }

  lemma PutFacts(d: seq<(string, Value)>, k: string, v: Value)
    requires DistinctKeys(d)
    ensures DistinctKeys(Put(d, k, v))
    ensures Keys(Put(d, k, v)) == if k in Keys(d) then Keys(d) else Keys(d) + [k]
    ensures forall k' :: Get(Put(d, k, v), k') == if k' == k then Some(v) else Get(d, k')
  {
    var i := IndexOf(Keys(d), k);
    var r := Put(d, k, v);
    if i < |d| {
      assert Keys(r) == Keys(d);
      forall k' ensures Get(r, k') == if k' == k then Some(v) else Get(d, k') {
        var j := IndexOf(Keys(d), k');
        if j < |d| && j != i {
          assert r[j] == d[j];
        }
      }
    } else {
      assert Keys(r) == Keys(d) + [k];
      forall k' ensures Get(r, k') == if k' == k then Some(v) else Get(d, k') {
        IndexOfAppend(Keys(d), k, k');
      }
    }
  }

  /** In a dictionary, the value found under an entry's key is that entry's value. */
  lemma GetDistinct(es: seq<(string, Value)>, i: nat)
    requires DistinctKeys(es) && i < |es|
    ensures Get(es, es[i].0) == Some(es[i].1)
  {
    assert Keys(es)[i] == es[i].0;
  }

  lemma {:induction false} IndexOfAppend(s: seq<string>, x: string, y: string)
    requires x !in s
    ensures IndexOf(s + [x], y) == if y in s then IndexOf(s, y) else if y == x then |s| else |s| + 1
  {
    if s != [] {
      assert (s + [x])[1..] == s[1..] + [x];
      IndexOfAppend(s[1..], x, y);
    }
  }

  /** Looking a key up in two lists of entries joined: the first list wins. */
  lemma GetConcat(a: seq<(string, Value)>, b: seq<(string, Value)>, k: string)
    ensures Keys(a + b) == Keys(a) + Keys(b)
    ensures Get(a + b, k) == if k in Keys(a) then Get(a, k) else Get(b, k)
  {
    var ka, kb, kab := Keys(a), Keys(b), Keys(a + b);
    assert kab == ka + kb;
    var i, j := IndexOf(kab, k), IndexOf(ka, k);
    if k in ka {
      assert j < |a| && kab[j] == k;
      assert i == j;
    } else {
      var l := IndexOf(kb, k);
      if l < |b| {
        assert kab[|a| + l] == k;
        assert i == |a| + l;
      }
    }
  }

  /**
   * `dict(items)`: keys in order of first occurrence, each holding the value of its last
   * occurrence.
   */
  function ToDict(items: seq<(string, Value)>): (r: seq<(string, Value)>)
    ensures DistinctKeys(r)
    ensures Keys(r) == Dedup(Keys(items))
    ensures forall k :: Get(r, k) == LastValue(items, k)
  {
    if items == [] then []
    else
      var init, last := items[..|items| - 1], items[|items| - 1];
      var p := ToDict(init);
      PutFacts(p, last.0, last.1);
      var ks := Keys(items);
      assert ks[..|ks| - 1] == Keys(init) && ks[|ks| - 1] == last.0;
      assert Dedup(ks) == if last.0 in Keys(p) then Keys(p) else Keys(p) + [last.0];
      assert forall k :: LastValue(items, k) == if k == last.0 then Some(last.1) else LastValue(init, k);
      Put(p, last.0, last.1)
  }

  /** A list of entries with distinct keys is already a dictionary: `dict` leaves it as it is. */
  lemma {:induction false} ToDictDistinct(items: seq<(string, Value)>)
    requires DistinctKeys(items)
    ensures ToDict(items) == items
  {
    if items != [] {
      var init, last := items[..|items| - 1], items[|items| - 1];
      ToDictDistinct(init);
      assert last.0 !in Keys(init);
      assert IndexOf(Keys(init), last.0) == |init|;
      assert items == init + [last];
    }
  }

  /** Every entry of `dict(items)` is one of the items. */
  lemma ToDictEntries(items: seq<(string, Value)>, i: nat)
    requires i < |ToDict(items)|
    ensures ToDict(items)[i] in items
  {
    var r := ToDict(items);
    var k := r[i].0;
    assert IndexOf(Keys(r), k) == i;
    assert Get(r, k) == Some(r[i].1);
    LastValueIn(items, k);
  }

  lemma {:induction false} LastValueIn(items: seq<(string, Value)>, k: string)
    ensures LastValue(items, k).Some? ==> (k, LastValue(items, k).value) in items
  {
    if items != [] && items[|items| - 1].0 != k {
      LastValueIn(items[..|items| - 1], k);
    }
  }
}
