/**
 * `flatten_dict` and `export_to_format`: a nested dictionary becomes one level of compound
 * keys (`parent_child`, `key_0`, `key_1`, ...), and is exported either as the tree itself
 * (JSON) or as a CSV header plus exactly one row.
 */
module ExportUtils {
  import opened Wrappers
  import opened Errors
  import opened Seqs
  import opened Strings
  import opened Values

  type Items = seq<(string, Value)>

  /** `f"{parent_key}{sep}{k}" if parent_key else k`, with `sep = '_'`. */
  function NewKey(parent: string, k: string): string
  {
    if parent == "" then k else parent + "_" + k
  }

  /** `','.join(map(str, v))`. */
  function JoinScalars(xs: seq<Value>): string
  {
    Join(seq(|xs|, i requires 0 <= i < |xs| => Str(xs[i])), ",")
  }

  /** Prefixing the items of a successful result; an exception passes through. */
  function Prepend(acc: Items, r: Result<Items, Error>): Result<Items, Error>
  {
    if r.Ok? then Ok(acc + r.value) else r
  }

  lemma EmptyPrepend(r: Result<Items, Error>)
    ensures Prepend([], r) == r
  {
    if r.Ok? {
      assert [] + r.value == r.value;
    }
  }

  /** Extending with the results of several steps, in order; the first exception wins. */
  function ConcatResults(rs: seq<Result<Items, Error>>): Result<Items, Error>
  {
    if rs == [] then Ok([])
    else if rs[0].Err? then rs[0]
    else Prepend(rs[0].value, ConcatResults(rs[1..]))
  }

  /**
   * `flatten_dict(d, parent)`: `dict(items)` of the items the entries produce.  A value that is
   * not a dictionary has no `.items()` and raises `AttributeError`.
   */
  function Flatten(d: Value, parent: string): Result<Items, Error>
    decreases d, 2
  {
    if !d.Dict? then Err(AttributeError)
    else
      var r := FlattenFrom(d, 0, parent);
      if r.Ok? then Ok(ToDict(r.value)) else Err(r.error)
  }

  /** The items produced by the entries of `d` from the `i`-th on. */
  function FlattenFrom(d: Value, i: nat, parent: string): Result<Items, Error>
    requires d.Dict? && i <= |d.entries|
    decreases d, 1, |d.entries| - i
  {
    if i == |d.entries| then Ok([])
    else
      var head := FlattenEntry(d.entries[i].1, NewKey(parent, d.entries[i].0));
      if head.Err? then head else Prepend(head.value, FlattenFrom(d, i + 1, parent))
  }

  /** The items one entry with compound key `key` produces. */
  function FlattenEntry(v: Value, key: string): Result<Items, Error>
    decreases v, 3
  {
    match v
    case Dict(_) => Flatten(v, key)
    case List(xs) =>
      if xs != [] && xs[0].Dict? then FlattenList(v, 0, key) else Ok([(key, Str1(JoinScalars(xs)))])
    case Scalar(_) => Ok([(key, v)])
  }

  /** The items of the elements of a list of dictionaries from the `j`-th on, under `key_j`. */
  function FlattenList(v: Value, j: nat, key: string): Result<Items, Error>
    requires v.List? && j <= |v.items|
    decreases v, 1, |v.items| - j
  {
    if j == |v.items| then Ok([])
    else
      var head := Flatten(v.items[j], key + "_" + NatStr(j));
      if head.Err? then head else Prepend(head.value, FlattenList(v, j + 1, key))
  }

  /**
   * `flatten_dict` as written: a loop over `d.items()` that extends a local `items` list with
   * what each entry produces, then `dict(items)`.
   */
  method FlattenDict(d: Value, parent: string) returns (r: Result<Items, Error>)
    ensures r == Flatten(d, parent)
    decreases d, 2
  {
    if !d.Dict? {
      return Err(AttributeError);
    }
    var items: Items := [];
    var i := 0;
    EmptyPrepend(FlattenFrom(d, 0, parent));
    while i < |d.entries|
      invariant 0 <= i <= |d.entries|
      invariant FlattenFrom(d, 0, parent) == Prepend(items, FlattenFrom(d, i, parent))
    {
      var produced := FlattenValue(d.entries[i].1, NewKey(parent, d.entries[i].0));
      if produced.Err? {
        return Err(produced.error);
      }
      PrependAssoc(items, produced.value, FlattenFrom(d, i + 1, parent));
      items := items + produced.value;
      i := i + 1;
    }
    assert items + [] == items;
    return Ok(ToDict(items));
  }

  /** The body of the loop of `flatten_dict`: what one entry with compound key `key` adds. */
  method FlattenValue(v: Value, key: string) returns (r: Result<Items, Error>)
    ensures r == FlattenEntry(v, key)
    decreases v, 3
  {
    if v.Dict? {
      r := FlattenDict(v, key);
    } else if v.List? && v.items != [] && v.items[0].Dict? {
      r := FlattenDictList(v, key);
    } else if v.List? {
      r := Ok([(key, Str1(JoinScalars(v.items)))]);
    } else {
      r := Ok([(key, v)]);
    }
  }

  /** The inner `for i, item in enumerate(v)` loop over a list of dictionaries. */
  method FlattenDictList(v: Value, key: string) returns (r: Result<Items, Error>)
    requires v.List?
    ensures r == FlattenList(v, 0, key)
    decreases v, 1
  {
    var produced: Items := [];
    var j := 0;
    EmptyPrepend(FlattenList(v, 0, key));
    while j < |v.items|
      invariant 0 <= j <= |v.items|
      invariant FlattenList(v, 0, key) == Prepend(produced, FlattenList(v, j, key))
    {
      var sub := FlattenDict(v.items[j], key + "_" + NatStr(j));
      if sub.Err? {
        return Err(sub.error);
      }
      PrependAssoc(produced, sub.value, FlattenList(v, j + 1, key));
      produced := produced + sub.value;
      j := j + 1;
    }
    assert produced + [] == produced;
    return Ok(produced);
  }

  lemma PrependAssoc(a: Items, b: Items, r: Result<Items, Error>)
    ensures Prepend(a, Prepend(b, r)) == Prepend(a + b, r)
  {
    if r.Ok? {
      assert a + (b + r.value) == (a + b) + r.value;
    }
  }

  // ---------------------------------------------------------------- properties

  /** The results of the entries of `d`, one per entry, in order. */
  function EntryResults(d: Value, parent: string): seq<Result<Items, Error>>
    requires d.Dict?
  {
    seq(|d.entries|, i requires 0 <= i < |d.entries| => FlattenEntry(d.entries[i].1, NewKey(parent, d.entries[i].0)))
  }

  /** The results of the elements of a list of dictionaries, element `j` under `key_j`. */
  function ElementResults(v: Value, key: string): seq<Result<Items, Error>>
    requires v.List?
  {
    seq(|v.items|, j requires 0 <= j < |v.items| => Flatten(v.items[j], key + "_" + NatStr(j)))
  }

  lemma {:induction false} FromIsConcat(d: Value, i: nat, parent: string)
    requires d.Dict? && i <= |d.entries|
    ensures FlattenFrom(d, i, parent) == ConcatResults(EntryResults(d, parent)[i..])
    decreases |d.entries| - i
  {
    if i < |d.entries| {
      FromIsConcat(d, i + 1, parent);
      assert EntryResults(d, parent)[i..][1..] == EntryResults(d, parent)[i + 1..];
    }
  }

  lemma {:induction false} ListIsConcat(v: Value, j: nat, key: string)
    requires v.List? && j <= |v.items|
    ensures FlattenList(v, j, key) == ConcatResults(ElementResults(v, key)[j..])
    decreases |v.items| - j
  {
    if j < |v.items| {
      ListIsConcat(v, j + 1, key);
      assert ElementResults(v, key)[j..][1..] == ElementResults(v, key)[j + 1..];
    }
  }

  /**
   * Depth-first input order: the items of a dictionary are those of its entries, concatenated
   * in entry order, and then passed through `dict`, so a compound key produced twice keeps the
   * value of its last occurrence.
   */
  lemma FlattenInOrder(d: Value, parent: string)
    requires d.Dict?
    ensures var r := ConcatResults(EntryResults(d, parent));
      Flatten(d, parent) == if r.Ok? then Ok(ToDict(r.value)) else Err(r.error)
    ensures Flatten(d, parent).Ok? ==> forall k :: Get(Flatten(d, parent).value, k) == LastValue(ConcatResults(EntryResults(d, parent)).value, k)
  {
    FromIsConcat(d, 0, parent);
    assert EntryResults(d, parent)[0..] == EntryResults(d, parent);
  }

  /** A list whose first element is a dictionary: element `j` is flattened under `key_j`, in index order. */
  lemma DictListExpanded(xs: seq<Value>, key: string)
    requires xs != [] && xs[0].Dict?
    ensures FlattenEntry(List(xs), key) == ConcatResults(ElementResults(List(xs), key))
  {
    ListIsConcat(List(xs), 0, key);
    assert ElementResults(List(xs), key)[0..] == ElementResults(List(xs), key);
  }

  /** A list of scalars, or an empty list, is one entry holding the comma-joined `str` of its elements. */
  lemma ScalarListJoined(k: string, xs: seq<Value>, parent: string)
    requires xs == [] || !xs[0].Dict?
    ensures Flatten(Dict([(k, List(xs))]), parent) == Ok([(NewKey(parent, k), Str1(JoinScalars(xs)))])
    ensures xs == [] ==> JoinScalars(xs) == ""
  {
    var d := Dict([(k, List(xs))]);
    assert FlattenFrom(d, 1, parent) == Ok([]);
    var item := (NewKey(parent, k), Str1(JoinScalars(xs)));
    assert FlattenFrom(d, 0, parent) == Ok([item] + []);
    assert [item] + [] == [item];
    ToDictDistinct([(NewKey(parent, k), Str1(JoinScalars(xs)))]);
  }

  /** A nested dictionary under key `k` flattens exactly as the child does under `parent_k`. */
  lemma NestedChild(k: string, child: Value, parent: string)
    requires child.Dict?
    ensures Flatten(Dict([(k, child)]), parent) == Flatten(child, NewKey(parent, k))
  {
    var d := Dict([(k, child)]);
    assert FlattenFrom(d, 1, parent) == Ok([]);
    var c := Flatten(child, NewKey(parent, k));
    assert FlattenEntry(child, NewKey(parent, k)) == c;
    if c.Ok? {
      assert c.value == ToDict(FlattenFrom(child, 0, NewKey(parent, k)).value);
      assert c.value + [] == c.value;
      assert FlattenFrom(d, 0, parent) == Ok(c.value);
      ToDictDistinct(c.value);
    }
  }

  ghost predicate AllScalar(items: Items)
  {
    forall i :: 0 <= i < |items| ==> items[i].1.Scalar?
  }

  lemma ConcatScalar(a: Items, b: Items)
    requires AllScalar(a) && AllScalar(b)
    ensures AllScalar(a + b)
  {
    forall i | 0 <= i < |a + b| ensures (a + b)[i].1.Scalar? {
      if i < |a| {
        assert (a + b)[i] == a[i];
      } else {
        assert (a + b)[i] == b[i - |a|];
      }
    }
  }

  lemma ToDictScalar(items: Items)
    requires AllScalar(items)
    ensures AllScalar(ToDict(items))
  {
    forall i | 0 <= i < |ToDict(items)| ensures ToDict(items)[i].1.Scalar? {
      ToDictEntries(items, i);
    }
  }

  /** No value of a flattened dictionary is a dictionary or a list. */
  lemma {:induction false} FlattenScalar(d: Value, parent: string)
    ensures Flatten(d, parent).Ok? ==> AllScalar(Flatten(d, parent).value)
    decreases d, 2
  {
    if d.Dict? {
      FromScalar(d, 0, parent);
      if FlattenFrom(d, 0, parent).Ok? {
        ToDictScalar(FlattenFrom(d, 0, parent).value);
      }
    }
  }

  lemma {:induction false} FromScalar(d: Value, i: nat, parent: string)
    requires d.Dict? && i <= |d.entries|
    ensures FlattenFrom(d, i, parent).Ok? ==> AllScalar(FlattenFrom(d, i, parent).value)
    decreases d, 1, |d.entries| - i
  {
    if i < |d.entries| {
      var head := FlattenEntry(d.entries[i].1, NewKey(parent, d.entries[i].0));
      EntryScalar(d.entries[i].1, NewKey(parent, d.entries[i].0));
      FromScalar(d, i + 1, parent);
      if head.Ok? && FlattenFrom(d, i + 1, parent).Ok? {
        ConcatScalar(head.value, FlattenFrom(d, i + 1, parent).value);
      }
    }
  }

  lemma {:induction false} EntryScalar(v: Value, key: string)
    ensures FlattenEntry(v, key).Ok? ==> AllScalar(FlattenEntry(v, key).value)
    decreases v, 3
  {
    match v
    case Dict(_) => FlattenScalar(v, key);
    case List(xs) =>
      if xs != [] && xs[0].Dict? {
        ListScalar(v, 0, key);
      }
    case Scalar(_) =>
  }

  lemma {:induction false} ListScalar(v: Value, j: nat, key: string)
    requires v.List? && j <= |v.items|
    ensures FlattenList(v, j, key).Ok? ==> AllScalar(FlattenList(v, j, key).value)
    decreases v, 1, |v.items| - j
  {
    if j < |v.items| {
      var head := Flatten(v.items[j], key + "_" + NatStr(j));
      FlattenScalar(v.items[j], key + "_" + NatStr(j));
      ListScalar(v, j + 1, key);
      if head.Ok? && FlattenList(v, j + 1, key).Ok? {
        ConcatScalar(head.value, FlattenList(v, j + 1, key).value);
      }
    }
  }

  /** Every key of `items` begins with `pre`. */
  ghost predicate KeysStartWith(items: Items, pre: string)
  {
    forall i :: 0 <= i < |items| ==> StartsWith(items[i].0, pre)
  }

  lemma ConcatKeys(a: Items, b: Items, pre: string)
    requires KeysStartWith(a, pre) && KeysStartWith(b, pre)
    ensures KeysStartWith(a + b, pre)
  {
    forall i | 0 <= i < |a + b| ensures StartsWith((a + b)[i].0, pre) {
      if i < |a| {
        assert (a + b)[i] == a[i];
      } else {
        assert (a + b)[i] == b[i - |a|];
      }
    }
  }

  lemma ToDictKeys(items: Items, pre: string)
    requires KeysStartWith(items, pre)
    ensures KeysStartWith(ToDict(items), pre)
  {
    forall i | 0 <= i < |ToDict(items)| ensures StartsWith(ToDict(items)[i].0, pre) {
      ToDictEntries(items, i);
    }
  }

  lemma StartsWithLonger(s: string, a: string, b: string)
    requires StartsWith(s, a + b)
    ensures StartsWith(s, a)
  {
    assert s[..|a|] == (a + b)[..|a|];
  }

  lemma WeakenKeys(items: Items, a: string, b: string)
    requires KeysStartWith(items, a + b)
    ensures KeysStartWith(items, a)
  {
    forall i | 0 <= i < |items| ensures StartsWith(items[i].0, a) {
      StartsWithLonger(items[i].0, a, b);
    }
  }

  /** Under a non-empty parent, every compound key is `parent + "_" + ...`, at any depth. */
  lemma {:induction false} FlattenKeys(d: Value, parent: string)
    requires parent != ""
    ensures Flatten(d, parent).Ok? ==> KeysStartWith(Flatten(d, parent).value, parent + "_")
    decreases d, 2
  {
    if d.Dict? {
      FromKeys(d, 0, parent);
      if FlattenFrom(d, 0, parent).Ok? {
        ToDictKeys(FlattenFrom(d, 0, parent).value, parent + "_");
      }
    }
  }

  lemma {:induction false} FromKeys(d: Value, i: nat, parent: string)
    requires d.Dict? && i <= |d.entries| && parent != ""
    ensures FlattenFrom(d, i, parent).Ok? ==> KeysStartWith(FlattenFrom(d, i, parent).value, parent + "_")
    decreases d, 1, |d.entries| - i
  {
    if i < |d.entries| {
      var k := d.entries[i].0;
      var key := NewKey(parent, k);
      var head := FlattenEntry(d.entries[i].1, key);
      EntryKeys(d.entries[i].1, key);
      FromKeys(d, i + 1, parent);
      if head.Ok? {
        assert key == (parent + "_") + k;
        WeakenKeys(head.value, parent + "_", k);
        if FlattenFrom(d, i + 1, parent).Ok? {
          ConcatKeys(head.value, FlattenFrom(d, i + 1, parent).value, parent + "_");
        }
      }
    }
  }

  lemma {:induction false} EntryKeys(v: Value, key: string)
    requires key != ""
    ensures FlattenEntry(v, key).Ok? ==> KeysStartWith(FlattenEntry(v, key).value, key)
    decreases v, 3
  {
    match v
    case Dict(_) =>
      FlattenKeys(v, key);
      if Flatten(v, key).Ok? {
        WeakenKeys(Flatten(v, key).value, key, "_");
      }
    case List(xs) =>
      if xs != [] && xs[0].Dict? {
        ListKeys(v, 0, key);
        if FlattenList(v, 0, key).Ok? {
          WeakenKeys(FlattenList(v, 0, key).value, key, "_");
        }
      }
    case Scalar(_) =>
  }

  lemma {:induction false} ListKeys(v: Value, j: nat, key: string)
    requires v.List? && j <= |v.items| && key != ""
    ensures FlattenList(v, j, key).Ok? ==> KeysStartWith(FlattenList(v, j, key).value, key + "_")
    decreases v, 1, |v.items| - j
  {
    if j < |v.items| {
      var sub := key + "_" + NatStr(j);
      var head := Flatten(v.items[j], sub);
      FlattenKeys(v.items[j], sub);
      ListKeys(v, j + 1, key);
      if head.Ok? {
        assert sub + "_" == (key + "_") + (NatStr(j) + "_");
        WeakenKeys(head.value, key + "_", NatStr(j) + "_");
        if FlattenList(v, j + 1, key).Ok? {
          ConcatKeys(head.value, FlattenList(v, j + 1, key).value, key + "_");
        }
      }
    }
  }

  /** A flat dictionary of scalars is its own flattening at the top level. */
  lemma FlatDictUnchanged(d: Value)
    requires d.Dict? && AllScalar(d.entries) && DistinctKeys(d.entries)
    ensures Flatten(d, "") == Ok(d.entries)
  {
    FlatFrom(d, 0);
    assert d.entries[0..] == d.entries;
    ToDictDistinct(d.entries);
  }

  lemma {:induction false} FlatFrom(d: Value, i: nat)
    requires d.Dict? && AllScalar(d.entries) && i <= |d.entries|
    ensures FlattenFrom(d, i, "") == Ok(d.entries[i..])
    decreases |d.entries| - i
  {
    if i < |d.entries| {
      FlatFrom(d, i + 1);
      var (k, v) := d.entries[i];
      assert v.Scalar?;
      assert NewKey("", k) == k;
      assert FlattenEntry(v, k) == Ok([(k, v)]);
      assert FlattenFrom(d, i, "") == Prepend([(k, v)], FlattenFrom(d, i + 1, ""));
      assert d.entries[i..] == [(k, v)] + d.entries[i + 1..];
      assert Prepend([(k, v)], Ok(d.entries[i + 1..])) == Ok(d.entries[i..]);
    } else {
      assert d.entries[i..] == [];
    }
  }

  // ---------------------------------------------------------------- export_to_format

  datatype Exported = Json(tree: Value) | Csv(header: seq<string>, rows: seq<seq<string>>)

  /** The text `csv.writer` writes for a value: `''` for `None`, `str(v)` otherwise. */
  function CsvCell(v: Value): string
  {
    if v == Scalar(Null) then "" else Str(v)
  }

  /** The row `DictWriter.writerow(row)` writes under `fieldnames`, `''` for an absent key. */
  function CsvRow(fieldnames: seq<string>, row: Items): (cells: seq<string>)
    ensures |cells| == |fieldnames|
    ensures forall i :: 0 <= i < |fieldnames| ==>
      cells[i] == if Get(row, fieldnames[i]).Some? then CsvCell(Get(row, fieldnames[i]).value) else ""
  {
    seq(|fieldnames|, i requires 0 <= i < |fieldnames| =>
      var g := Get(row, fieldnames[i]); if g.Some? then CsvCell(g.value) else "")
  }

  /** A dictionary written under its own keys gives the cells of its values, in order. */
  lemma RowOfDistinct(es: Items)
    requires DistinctKeys(es)
    ensures CsvRow(Keys(es), es) == seq(|es|, i requires 0 <= i < |es| => CsvCell(es[i].1))
  {
    forall i | 0 <= i < |es| ensures Get(es, Keys(es)[i]) == Some(es[i].1) {
      GetDistinct(es, i);
    }
  }

  /** Six values under six distinct keys, in order, are written as their six cells. */
  lemma SixUnder(ks: seq<string>, a: Value, b: Value, c: Value, d: Value, e: Value, f: Value)
    requires |ks| == 6 && forall i, j :: 0 <= i < j < 6 ==> ks[i] != ks[j]
    ensures var es := [(ks[0], a), (ks[1], b), (ks[2], c), (ks[3], d), (ks[4], e), (ks[5], f)];
      Keys(es) == ks
      && CsvRow(ks, es) == [CsvCell(a), CsvCell(b), CsvCell(c), CsvCell(d), CsvCell(e), CsvCell(f)]
  {
    var es := [(ks[0], a), (ks[1], b), (ks[2], c), (ks[3], d), (ks[4], e), (ks[5], f)];
    assert Keys(es) == ks;
    RowOfDistinct(es);
    var r := CsvRow(ks, es);
    assert r[0] == CsvCell(a) && r[1] == CsvCell(b) && r[2] == CsvCell(c);
    assert r[3] == CsvCell(d) && r[4] == CsvCell(e) && r[5] == CsvCell(f);
    SixElements(r, CsvCell(a), CsvCell(b), CsvCell(c), CsvCell(d), CsvCell(e), CsvCell(f));
  }

  /** A sequence of six elements is the display of its elements. */
  lemma SixElements<T>(r: seq<T>, a: T, b: T, c: T, d: T, e: T, f: T)
    requires |r| == 6 && r[0] == a && r[1] == b && r[2] == c && r[3] == d && r[4] == e && r[5] == f
    ensures r == [a, b, c, d, e, f]
  {
  }

  /** Four values under four distinct keys, in order, are written as their four cells. */
  lemma FourUnder(ks: seq<string>, a: Value, b: Value, c: Value, d: Value)
    requires |ks| == 4 && forall i, j :: 0 <= i < j < 4 ==> ks[i] != ks[j]
    ensures var es := [(ks[0], a), (ks[1], b), (ks[2], c), (ks[3], d)];
      Keys(es) == ks && CsvRow(ks, es) == [CsvCell(a), CsvCell(b), CsvCell(c), CsvCell(d)]
  {
    var es := [(ks[0], a), (ks[1], b), (ks[2], c), (ks[3], d)];
    assert Keys(es) == ks;
    RowOfDistinct(es);
    var r := CsvRow(ks, es);
    assert r[0] == CsvCell(a) && r[1] == CsvCell(b) && r[2] == CsvCell(c) && r[3] == CsvCell(d);
    FourElements(r, CsvCell(a), CsvCell(b), CsvCell(c), CsvCell(d));
  }

  /** A sequence of four elements is the display of its elements. */
  lemma FourElements<T>(r: seq<T>, a: T, b: T, c: T, d: T)
    requires |r| == 4 && r[0] == a && r[1] == b && r[2] == c && r[3] == d
    ensures r == [a, b, c, d]
  {
  }

  /** `export_to_format(data, format_type)`. */
  function ExportToFormat(data: Value, format: string): (r: Result<Exported, Error>)
    ensures format == "json" ==> r == Ok(Json(data))
    ensures format == "csv" ==> (r.Err? <==> Flatten(data, "").Err?)
    ensures format == "csv" && r.Ok? ==> (r.value.Csv? && r.value.header == Keys(Flatten(data, "").value)
      && |r.value.rows| == 1 && |r.value.rows[0]| == |r.value.header|)
    ensures format != "json" && format != "csv" ==> r == Err(ValueError("Unsupported export format: " + format))
  {
    if format == "json" then Ok(Json(data))
    else if format == "csv" then
      var flat := Flatten(data, "");
      if flat.Err? then Err(flat.error)
      else
        var header := Keys(flat.value);
        Ok(Csv(header, [CsvRow(header, flat.value)]))
    else Err(ValueError("Unsupported export format: " + format))
  }

  /** The CSV row of an export holds, column by column, the flattened value under that column's key. */
  lemma CsvRowMatchesHeader(data: Value)
    requires ExportToFormat(data, "csv").Ok?
    ensures var e := ExportToFormat(data, "csv").value;
      var flat := Flatten(data, "").value;
      forall i :: 0 <= i < |e.header| ==> e.rows[0][i] == CsvCell(flat[i].1)
  {
    var flat := Flatten(data, "").value;
    FlattenScalar(data, "");
    var header := Keys(flat);
    forall i | 0 <= i < |header| ensures Get(flat, header[i]) == Some(flat[i].1) {
      DistinctIndex(flat, i);
    }
  }

  lemma DistinctIndex(es: Items, i: nat)
    requires DistinctKeys(es) && i < |es|
    ensures IndexOf(Keys(es), es[i].0) == i
  {
  }
}
