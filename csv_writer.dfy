/**
 * What `csv.DictWriter` does with the rows the exporters hand it, with the default
 * `extrasaction='raise'` and `restval=''`: each row is a dictionary whose keys must all be
 * fieldnames, and it becomes one cell per fieldname.
 */
module CsvWriter {
  import opened Wrappers
  import opened Errors
  import opened Seqs
  import opened Values
  import opened ExportUtils

  /** A CSV file as its header and its rows of cells; quoting and line terminators are not modelled. */
  datatype Table = Table(header: seq<string>, rows: seq<seq<string>>)

  predicate NotField(fieldnames: seq<string>, k: string)
  {
    k !in fieldnames
  }

  /** `rowdict.keys() - self.fieldnames`, in the row's key order. */
  function ExtraKeys(fieldnames: seq<string>, row: Items): (ks: seq<string>)
    ensures forall k :: k in ks <==> k in Keys(row) && k !in fieldnames
  {
    var ks := Filter(k => NotField(fieldnames, k), Keys(row));
    FilterFrom(k => NotField(fieldnames, k), Keys(row));
    FilterKeepsAll(k => NotField(fieldnames, k), Keys(row));
    assert forall k :: k in Keys(row) && k !in fieldnames ==> k in ks by {
      forall k | k in Keys(row) && k !in fieldnames ensures k in ks {
        var i := IndexOf(Keys(row), k);
      }
    }
    ks
  }

  /** `", ".join([repr(x) for x in wrong_fields])`. */
  function FieldList(ks: seq<string>): string
  {
    Join(seq(|ks|, i requires 0 <= i < |ks| => "'" + ks[i] + "'"), ", ")
  }

  /**
   * `DictWriter.writerow(rowdict)`: the cells of a dictionary whose keys are all fieldnames; a
   * dictionary with other keys raises `ValueError`, anything else has no `.keys()`.
   */
  function RowCells(fieldnames: seq<string>, row: Value): (r: Result<seq<string>, Error>)
    ensures r.Ok? <==> (row.Dict? && forall k :: k in Keys(row.entries) ==> k in fieldnames)
    ensures r.Ok? ==> r.value == CsvRow(fieldnames, row.entries)
    ensures !row.Dict? ==> r == Err(AttributeError)
    ensures row.Dict? && r.Err? ==> r.error.ValueError?
  {
    if !row.Dict? then Err(AttributeError)
    else
      var extra := ExtraKeys(fieldnames, row.entries);
      if extra != [] then
        assert extra[0] in extra;
        Err(ValueError("dict contains fields not in fieldnames: " + FieldList(extra)))
      else Ok(CsvRow(fieldnames, row.entries))
  }

  /** The rows a `writerows` call has written, and the exception that stopped it, if any. */
  datatype Written = Written(rows: seq<seq<string>>, error: Option<Error>)

  /**
   * `DictWriter.writerows(rows)`: each row in turn, up to the first one that raises; the rows
   * before it are already in the file.
   */
  function WriteRows(fieldnames: seq<string>, rows: seq<Value>): (w: Written)
    ensures w.error.None? <==> forall i :: 0 <= i < |rows| ==> RowCells(fieldnames, rows[i]).Ok?
    ensures w.error.None? ==> |w.rows| == |rows|
    ensures w.error.Some? ==> |w.rows| < |rows| && RowCells(fieldnames, rows[|w.rows|]) == Err(w.error.value)
    ensures forall i :: 0 <= i < |w.rows| ==> RowCells(fieldnames, rows[i]) == Ok(w.rows[i])
  {
    var r := UntilErr(row => RowCells(fieldnames, row), rows);
    Written(r.0, r.1)
  }

  /** The class name `TypeError` gives an object that cannot be iterated. */
  function TypeName(a: Atom): string
  {
    match a
    case Null => "NoneType"
    case Bool(_) => "bool"
    case Int(_) => "int"
    case Real(_) => "float"
    case Text(_) => "str"
  }

  /**
   * `for row in v`: a list yields its elements, a dictionary its keys and a string its
   * characters; any other scalar raises `TypeError`.
   */
  function Iterate(v: Value): (r: Result<seq<Value>, Error>)
    ensures v.List? ==> r == Ok(v.items)
    ensures r.Err? <==> (v.Scalar? && !v.atom.Text?)
    ensures r.Ok? && !v.List? ==> forall i :: 0 <= i < |r.value| ==> r.value[i].Scalar?
  {
    match v
    case List(xs) => Ok(xs)
    case Dict(es) => Ok(seq(|es|, i requires 0 <= i < |es| => Str1(es[i].0)))
    case Scalar(Text(s)) => Ok(seq(|s|, i requires 0 <= i < |s| => Str1([s[i]])))
    case Scalar(a) => Err(TypeError("'" + TypeName(a) + "' object is not iterable"))
  }

  /** `writerows` on what `v` iterates to: only a list of dictionaries can be written. */
  function WriteAll(fieldnames: seq<string>, v: Value): (w: Written)
    ensures w.error.None? ==> (v.List? && |w.rows| == |v.items|) || (!Truthy(v) && w.rows == [])
    ensures !v.List? && Truthy(v) ==> w.error.Some? && w.rows == []
  {
    match Iterate(v)
    case Err(e) => Written([], Some(e))
    case Ok(rs) =>
      var w := WriteRows(fieldnames, rs);
      assert !v.List? && rs != [] ==> RowCells(fieldnames, rs[0]) == Err(AttributeError);
      w
  }

  /** A list of dictionaries over the fieldnames is written whole, one row per dictionary, in order. */
  lemma WriteAllRows(fieldnames: seq<string>, xs: seq<Value>)
    requires forall i :: 0 <= i < |xs| ==> xs[i].Dict? && forall k :: k in Keys(xs[i].entries) ==> k in fieldnames
    ensures WriteAll(fieldnames, List(xs)) == Written(seq(|xs|, i requires 0 <= i < |xs| => CsvRow(fieldnames, xs[i].entries)), None)
  {
    var w := WriteAll(fieldnames, List(xs));
    assert w == WriteRows(fieldnames, xs);
  }

  /** One row with a key that is not a fieldname stops the writing at that row. */
  lemma WriteStopsAtExtra(fieldnames: seq<string>, xs: seq<Value>, k: nat, key: string)
    requires k < |xs| && xs[k].Dict? && key in Keys(xs[k].entries) && key !in fieldnames
    requires forall i :: 0 <= i < k ==> RowCells(fieldnames, xs[i]).Ok?
    ensures var w := WriteAll(fieldnames, List(xs));
      |w.rows| == k && w.error.Some? && w.error.value.ValueError?
  {
    var w := WriteRows(fieldnames, xs);
    assert RowCells(fieldnames, xs[k]).Err?;
    assert |w.rows| <= k;
  }
}
