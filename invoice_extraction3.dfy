/**
 * The third of the older invoice extractors (`tests/invoice_extraction_3.py`).  It shares the
 * file checks, the conversion, the letterhead and the pattern loop of the first one, adds line
 * items, a label-dropping address cleaner, an items section in the report and a two-file CSV
 * export.  Its address block runs before the dictionary exists: any `Bill To` or `Send To`
 * match raises `UnboundLocalError`.
 */
module InvoiceExtraction3 {
  import opened Wrappers
  import opened Errors
  import opened Foreign
  import opened Seqs
  import opened Strings
  import opened Values
  import opened Matching
  import opened Address
  import opened ExportUtils
  import opened CsvWriter
  import opened InvoiceExtraction1
  import InvoiceExtraction

  // ---------------------------------------------------------------- patterns

  /** The `patterns` dictionary: the first variant's, with a `po_number` that needs `Purchase Order`. */
  const FieldPatterns3: seq<(string, Pattern)> :=
    FieldPatterns[4 := ("po_number", Pattern(@"(?i)Purchase\s+Order[:.]?\s*([A-Z0-9-]+)", false, false))]

  /** `item_patterns['description']`, the only item pattern used. */
  const ItemPattern: Pattern := Pattern(@"(?i)([A-Za-z\s]+)\s+(\d+)\s+(\$?[\d.]+)\s+(\$?[\d.]+)", false, false)

  /** The address patterns, all searched with `re.DOTALL`. */
  const BillToPattern3: Pattern := Pattern(@"(?i)(?:Bill\s+To|Sold\s+To)[:.]?\s*([^\n]+?)(?=(?:Send\s+To|Ship\s+To|Invoice|P\.O\.|Date|Total)|$)", false, true)
  const SendToPattern3: Pattern := Pattern(@"(?i)(?:Send\s+To|Ship\s+To)[:.]?\s*([^\n]+?)(?=(?:Bill\s+To|Invoice|P\.O\.|Date|Total)|$)", false, true)
  const ShipToPattern3: Pattern := Pattern(@"(?i)Ship\s+To[:.]?\s*([^`]*)(?=(?:Bill\s+To|Invoice|P\.O\.|Date)|$)", false, true)

  lemma FieldKeys3()
    ensures Names(FieldPatterns3) == FieldKeys && Distinct(FieldKeys)
    ensures forall k :: k in ["letterhead", "items"] ==> k !in FieldKeys
    ensures var ks := ["letterhead", "items"] + FieldKeys;
      "bill_to" !in ks && "ship_to" !in ks && "notes" !in ks && "send_to" !in ks
    ensures forall k :: k in ["letterhead"] + FieldKeys + ["ship_to", "notes"] ==> k in GeneralColumns
    ensures forall i :: 0 <= i < |FieldPatterns3| ==>
      FieldPatterns3[i].0 in ["letterhead", "items"] + FieldKeys && FieldPatterns3[i].0 != "items"
  {
    FieldKeysDistinct();
    assert Names(FieldPatterns3) == FieldKeys;
  }

  // ---------------------------------------------------------------- items

  /**
   * The item dictionary built from one match: its four groups, stripped, as text, under the keys
   * `description`, `quantity`, `unit_price` and `total` (the item columns, in that order).
   */
  function ItemOf(m: Match): Value
  {
    var k := InvoiceExtraction.ItemColumns;
    Dict([(k[0], Str1(Strip(Group(m, 1)))), (k[1], Str1(Strip(Group(m, 2)))),
      (k[2], Str1(Strip(Group(m, 3)))), (k[3], Str1(Strip(Group(m, 4))))])
  }

  /** `extracted_data['items']` after the loop: one dictionary per item match, in text order. */
  function Items3(env: Env, text: string): (xs: seq<Value>)
    ensures |xs| == |env.finditer(ItemPattern, text)|
    ensures forall i :: 0 <= i < |xs| ==> xs[i] == ItemOf(env.finditer(ItemPattern, text)[i])
  {
    var ms := env.finditer(ItemPattern, text);
    seq(|ms|, i requires 0 <= i < |ms| => ItemOf(ms[i]))
  }

  /** The item loop as written: one append per match. */
  method ExtractItems(env: Env, text: string) returns (xs: seq<Value>)
    ensures xs == Items3(env, text)
  {
    var ms := env.finditer(ItemPattern, text);
    xs := AppendPerMatch(ItemOf, ms);
  }

  /** `for match in matches: items.append(item(match))`, starting from an empty list. */
  method AppendPerMatch(item: Match -> Value, ms: seq<Match>) returns (xs: seq<Value>)
    ensures |xs| == |ms| && forall i :: 0 <= i < |ms| ==> xs[i] == item(ms[i])
  {
    xs := [];
    for i := 0 to |ms|
      invariant |xs| == i && forall j :: 0 <= j < i ==> xs[j] == item(ms[j])
    {
      xs := xs + [item(ms[i])];
    }
  }

  // ---------------------------------------------------------------- the fields

  /**
   * The field logic of `extract_invoice_data`: a `Bill To` or `Send To` match assigns into
   * `extracted_data` before it is bound; otherwise the letterhead and the empty item list, the
   * pattern loop, the items, and `bill_to`, `ship_to` and `notes` when they match.
   */
  function Fields3(env: Env, text: string, letterhead: string): Result<Items, Error>
  {
    if Search(env, BillToPattern3, text).Some? || Search(env, SendToPattern3, text).Some? then Err(UnboundLocalError)
    else
      var d := SearchAll(env, FieldPatterns3, text, [("letterhead", Str1(letterhead)), ("items", List([]))]);
      var d := Put(d, "items", List(Items3(env, text)));
      var d := PutIfMatched(d, "bill_to", Search(env, BillToPattern3, text), CleanAddressLabelled);
      var d := PutIfMatched(d, "ship_to", Search(env, ShipToPattern3, text), CleanAddressLabelled);
      Ok(PutIfMatched(d, "notes", Search(env, InvoiceExtraction1.NotesPattern, text), Strip))
  }

  /** The premature assignment: a text with a bill-to or send-to address never yields a dictionary. */
  lemma AddressRaises(env: Env, text: string, letterhead: string)
    ensures Fields3(env, text, letterhead).Err? <==>
      (Search(env, BillToPattern3, text).Some? || Search(env, SendToPattern3, text).Some?)
    ensures Fields3(env, text, letterhead).Err? ==> Fields3(env, text, letterhead) == Err(UnboundLocalError)
  {
  }

  /** The dictionary after the pattern loop: the two initial entries, then the nine keys. */
  lemma PatternPart3(env: Env, text: string, letterhead: string)
    ensures var d := SearchAll(env, FieldPatterns3, text, [("letterhead", Str1(letterhead)), ("items", List([]))]);
      DistinctKeys(d)
      && Keys(d) == ["letterhead", "items"] + FieldKeys
      && Get(d, "letterhead") == Some(Str1(letterhead))
      && forall i :: 0 <= i < |FieldPatterns3| ==> Get(d, FieldPatterns3[i].0) == Some(Found(env, FieldPatterns3[i].1, text))
  {
    FieldKeys3();
    var d0: Items := [("letterhead", Str1(letterhead)), ("items", List([]))];
    assert Keys(d0) == ["letterhead", "items"];
    SearchFrom(env, FieldPatterns3, text, d0);
    SearchAllDistinct(env, FieldPatterns3, text, d0);
  }

  /**
   * The steps after the pattern loop, on a dictionary with keys `ks` that include `items` but none
   * of the address and notes keys, when the bill-to search found nothing.
   */
  lemma AfterPatterns(d1: Items, ks: seq<string>, items: Value, bill: Option<Match>, ship: Option<Match>, notes: Option<Match>)
    requires DistinctKeys(d1) && Keys(d1) == ks && "items" in ks && bill.None?
    requires "bill_to" !in ks && "ship_to" !in ks && "notes" !in ks && "send_to" !in ks
    ensures var d := PutIfMatched(PutIfMatched(PutIfMatched(Put(d1, "items", items),
        "bill_to", bill, CleanAddressLabelled), "ship_to", ship, CleanAddressLabelled), "notes", notes, Strip);
      Keys(d) == ks + IfMatched("ship_to", ship) + IfMatched("notes", notes)
      && Get(d, "items") == Some(items)
      && (forall k :: k in ks && k != "items" ==> Get(d, k) == Get(d1, k))
      && (ship.Some? ==> Get(d, "ship_to") == Some(Str1(CleanAddressLabelled(Group(ship.value, 1)))))
  {
    PutFacts(d1, "items", items);
    var d2 := Put(d1, "items", items);
    assert Keys(d2) == ks;
    PutThree(d2, "bill_to", bill, CleanAddressLabelled, "ship_to", ship, CleanAddressLabelled, "notes", notes, Strip);
    assert IfMatched("bill_to", bill) == [] && ks + [] == ks;
  }

  /**
   * When it succeeds, the dictionary has the letterhead, the items, the nine pattern keys, then
   * `ship_to` and `notes` when they match, and never `bill_to` or `send_to`; the items are the
   * item matches, the ship-to address is cleaned.
   */
  lemma Fields3Shape(env: Env, text: string, letterhead: string)
    requires Fields3(env, text, letterhead).Ok?
    ensures var d := Fields3(env, text, letterhead).value;
      Keys(d) == ["letterhead", "items"] + FieldKeys
        + IfMatched("ship_to", Search(env, ShipToPattern3, text))
        + IfMatched("notes", Search(env, InvoiceExtraction1.NotesPattern, text))
      && "bill_to" !in Keys(d) && "send_to" !in Keys(d)
      && Get(d, "letterhead") == Some(Str1(letterhead))
      && Get(d, "items") == Some(List(Items3(env, text)))
      && forall i :: 0 <= i < |FieldPatterns3| ==> Get(d, FieldPatterns3[i].0) == Some(Found(env, FieldPatterns3[i].1, text))
    ensures var d := Fields3(env, text, letterhead).value; var m := Search(env, ShipToPattern3, text);
      m.Some? ==> Get(d, "ship_to") == Some(Str1(CleanAddressLabelled(Group(m.value, 1))))
  {
    PatternPart3(env, text, letterhead);
    FieldKeys3();
    var ks := ["letterhead", "items"] + FieldKeys;
    var d1 := SearchAll(env, FieldPatterns3, text, [("letterhead", Str1(letterhead)), ("items", List([]))]);
    var ship, notes := Search(env, ShipToPattern3, text), Search(env, InvoiceExtraction1.NotesPattern, text);
    assert "items" in ks && "letterhead" in ks && "letterhead" != "items";
    AfterPatterns(d1, ks, List(Items3(env, text)), Search(env, BillToPattern3, text), ship, notes);
  }

  /** The field logic as written, mutating the dictionary in place. */
  method ExtractFields3(env: Env, text: string, letterhead: string) returns (r: Result<Items, Error>)
    ensures r == Fields3(env, text, letterhead)
  {
    var bill := Search(env, BillToPattern3, text);
    var send := Search(env, SendToPattern3, text);
    if bill.Some? || send.Some? {
      return Err(UnboundLocalError);
    }
    var d := SearchPatterns(env, FieldPatterns3, text, [("letterhead", Str1(letterhead)), ("items", List([]))]);
    var items := ExtractItems(env, text);
    d := Put(d, "items", List(items));
    // The second bill-to search repeats the first, which found nothing: `bill_to` is not assigned.
    var ship := Search(env, ShipToPattern3, text);
    if ship.Some? {
      d := Put(d, "ship_to", Str1(CleanAddressLabelled(Group(ship.value, 1))));
    }
    var notes := Search(env, InvoiceExtraction1.NotesPattern, text);
    if notes.Some? {
      d := Put(d, "notes", Str1(Strip(Group(notes.value, 1))));
    }
    r := Ok(d);
  }

  /** `extract_invoice_data(file_path)`: the first variant's steps, then these fields. */
  function InvoiceData3(host: Host, vision: Vision, topQuarter: Image -> Image, env: Env, path: string): (r: Result<Items, Error>)
    ensures VerifyFilePath(host, path).Err? ==> r == Err(VerifyFilePath(host, path).error)
    ensures VerifyFilePath(host, path).Ok? && PageImage(vision, path).Err? ==> r == Err(PageImage(vision, path).error)
  {
    var v := VerifyFilePath(host, path);
    if v.Err? then Err(v.error)
    else
      var image := PageImage(vision, path);
      if image.Err? then Err(image.error)
      else
        var text := vision.recognise(image.value, DefaultConfig);
        if text.Err? then Err(text.error)
        else
          var letterhead := Letterhead(vision, topQuarter, image.value);
          if letterhead.Err? then Err(letterhead.error)
          else Fields3(env, text.value, letterhead.value)
  }

  /** A page whose text has a bill-to address fails with `UnboundLocalError`, whatever else it holds. */
  lemma BillToPageRaises(host: Host, vision: Vision, topQuarter: Image -> Image, env: Env, path: string, text: string)
    requires VerifyFilePath(host, path).Ok? && PageImage(vision, path).Ok?
    requires vision.recognise(PageImage(vision, path).value, DefaultConfig) == Ok(text)
    requires vision.recognise(topQuarter(PageImage(vision, path).value), DefaultConfig).Ok?
    requires Search(env, BillToPattern3, text).Some?
    ensures InvoiceData3(host, vision, topQuarter, env, path) == Err(UnboundLocalError)
  {
  }

  // ---------------------------------------------------------------- format_extracted_data

  /** This variant's `field_order`: `send_to` under `Send To` where the first had `ship_to`. */
  const FieldOrder3: seq<(string, string)> := FieldOrder[7 := ("send_to", "Send To")]

  /** `item.get(key, 'N/A')`, as printed. */
  function ItemText(es: Items, key: string): string
  {
    var v := Get(es, key);
    if v.Some? then Str(v.value) else "N/A"
  }

  /** The four item lines: their leading text and the key whose value follows it. */
  const ItemLineLabels: seq<(string, string)> := [("- Description: ", "description"), ("  Quantity: ", "quantity"),
    ("  Unit Price: ", "unit_price"), ("  Total: ", "total")]

  /** The four lines printed for one item; the last one ends in an extra newline. */
  function ItemBlock(es: Items): (ls: seq<string>)
    ensures |ls| == 4
  {
    var l := ItemLineLabels;
    [l[0].0 + ItemText(es, l[0].1), l[1].0 + ItemText(es, l[1].1),
     l[2].0 + ItemText(es, l[2].1), l[3].0 + ItemText(es, l[3].1) + "\n"]
  }

  /** The lines of the item loop; an item that is not a dictionary has no `get`. */
  function ItemLines(xs: seq<Value>): (r: Result<seq<string>, Error>)
    ensures r.Ok? <==> forall i :: 0 <= i < |xs| ==> xs[i].Dict?
    ensures r.Ok? ==> |r.value| == 4 * |xs|
    ensures r.Err? ==> r == Err(AttributeError)
  {
    if xs == [] then Ok([])
    else
      var init, last := xs[..|xs| - 1], xs[|xs| - 1];
      var p := ItemLines(init);
      if p.Err? then p
      else if !last.Dict? then Err(AttributeError)
      else Ok(p.value + ItemBlock(last.entries))
  }

  /** Item `i` is printed as lines `4i` to `4i + 3`. */
  lemma {:induction false} ItemLinesBlock(xs: seq<Value>, i: nat)
    requires ItemLines(xs).Ok? && i < |xs|
    ensures xs[i].Dict? && ItemLines(xs).value[4 * i..4 * i + 4] == ItemBlock(xs[i].entries)
  {
    var init := xs[..|xs| - 1];
    var p := ItemLines(init);
    var b := ItemBlock(xs[|xs| - 1].entries);
    var ls := ItemLines(xs).value;
    assert |p.value| == 4 * |init| && ls == p.value + b;
    if i < |init| {
      ItemLinesBlock(init, i);
      SliceOfConcat(p.value, b, 4 * i, 4 * i + 4);
      assert init[i] == xs[i] && ls[4 * i..4 * i + 4] == ItemBlock(init[i].entries);
    } else {
      ConcatTail(p.value, b);
      assert 4 * i == |p.value| && 4 * i + 4 == |p.value| + |b| && ls[4 * i..4 * i + 4] == b;
    }
  }

  /** One more dictionary adds its four lines. */
  lemma AppendStep(lines: seq<string>, xs: seq<Value>, i: nat, out: seq<string>)
    requires i < |xs| && ItemLines(xs[..i]).Ok? && xs[i].Dict?
    requires out == lines + ItemLines(xs[..i]).value
    ensures ItemLines(xs[..i + 1]).Ok?
    ensures out + ItemBlock(xs[i].entries) == lines + ItemLines(xs[..i + 1]).value
  {
    assert xs[..i + 1][..i] == xs[..i];
    var b := ItemBlock(xs[i].entries);
    assert ItemLines(xs[..i + 1]) == Ok(ItemLines(xs[..i]).value + b);
    assert out + b == lines + (ItemLines(xs[..i]).value + b);
  }

  /** An item without `get` makes the whole loop fail. */
  lemma NotDictFails(xs: seq<Value>, i: nat)
    requires i < |xs| && !xs[i].Dict?
    ensures ItemLines(xs) == Err(AttributeError)
  {
  }

  /** The item loop as written, appending to `lines`; it stops at the first item without `get`. */
  method AppendItemLines(lines: seq<string>, xs: seq<Value>) returns (r: Result<seq<string>, Error>)
    ensures ItemLines(xs).Ok? ==> r == Ok(lines + ItemLines(xs).value)
    ensures ItemLines(xs).Err? ==> r == Err(AttributeError)
  {
    var out := lines;
    for i := 0 to |xs|
      invariant ItemLines(xs[..i]).Ok? && out == lines + ItemLines(xs[..i]).value
    {
      if !xs[i].Dict? {
        NotDictFails(xs, i);
        return Err(AttributeError);
      }
      AppendStep(lines, xs, i, out);
      out := out + ItemBlock(xs[i].entries);
    }
    assert xs[..|xs|] == xs;
    r := Ok(out);
  }

  /**
   * `format_extracted_data(data)`: the blocks of the shown fields, then, when `data['items']` is
   * truthy, an `Items:` heading and four lines per item, all joined by newlines.
   */
  function Format3(data: Items): Result<string, Error>
  {
    var blocks := Blocks(FieldOrder3, data);
    var items := Get(data, "items");
    if items.None? || !Truthy(items.value) then Ok(Join(blocks, "\n"))
    else
      match Iterate(items.value)
      case Err(e) => Err(e)
      case Ok(xs) =>
        match ItemLines(xs)
        case Err(e) => Err(e)
        case Ok(ls) => Ok(Join(blocks + ["\nItems:"] + ls, "\n"))
  }

  /** Without items the report is the first variant's, over this field order. */
  lemma NoItemsFormat(data: Items)
    requires !Shown(data, "items")
    ensures Format3(data) == Ok(Format(FieldOrder3, data))
  {
  }

  /** The report of extracted data never fails and lists every item after the heading. */
  lemma ExtractedFormat(env: Env, text: string, letterhead: string)
    requires Fields3(env, text, letterhead).Ok?
    ensures var d := Fields3(env, text, letterhead).value; var xs := Items3(env, text);
      Format3(d).Ok?
      && (xs != [] ==> Format3(d).value == Join(Blocks(FieldOrder3, d) + ["\nItems:"] + ItemLines(xs).value, "\n"))
  {
    Fields3Shape(env, text, letterhead);
    ItemsAreDicts(env, text);
    ItemsFormat(Fields3(env, text, letterhead).value, Items3(env, text));
  }

  lemma ItemsAreDicts(env: Env, text: string)
    ensures forall i :: 0 <= i < |Items3(env, text)| ==> Items3(env, text)[i].Dict?
  {
  }

  /** A list of dictionaries under `items` is reported in full. */
  lemma ItemsFormat(d: Items, xs: seq<Value>)
    requires Get(d, "items") == Some(List(xs))
    requires forall i :: 0 <= i < |xs| ==> xs[i].Dict?
    ensures Format3(d).Ok?
    ensures xs != [] ==> Format3(d).value == Join(Blocks(FieldOrder3, d) + ["\nItems:"] + ItemLines(xs).value, "\n")
  {
    assert ItemLines(xs).Ok?;
  }

  /** The report of extracted data shows neither a `Bill To` nor a `Send To` block. */
  lemma NoAddressShown(env: Env, text: string, letterhead: string)
    requires Fields3(env, text, letterhead).Ok?
    ensures var d := Fields3(env, text, letterhead).value;
      forall i :: 0 <= i < |ShownFields(FieldOrder3, d)| ==> ShownFields(FieldOrder3, d)[i].0 !in ["bill_to", "send_to"]
  {
    Fields3Shape(env, text, letterhead);
    AbsentNotShown(Fields3(env, text, letterhead).value);
  }

  lemma AbsentNotShown(d: Items)
    requires "bill_to" !in Keys(d) && "send_to" !in Keys(d)
    ensures forall i :: 0 <= i < |ShownFields(FieldOrder3, d)| ==> ShownFields(FieldOrder3, d)[i].0 !in ["bill_to", "send_to"]
  {
    var sf := ShownFields(FieldOrder3, d);
    forall i | 0 <= i < |sf| ensures sf[i].0 !in ["bill_to", "send_to"] {
      assert Shown(d, sf[i].0);
    }
  }

  /** The report loop as written. */
  method FormatExtractedData3(data: Items) returns (r: Result<string, Error>)
    ensures r == Format3(data)
  {
    var lines := CollectBlocks(FieldOrder3, data);
    var items := Get(data, "items");
    if items.Some? && Truthy(items.value) {
      var xs := Iterate(items.value);
      if xs.Err? {
        return Err(xs.error);
      }
      var all := AppendItemLines(lines + ["\nItems:"], xs.value);
      if all.Err? {
        return Err(all.error);
      }
      lines := all.value;
    }
    r := Ok(Join(lines, "\n"));
  }

  // ---------------------------------------------------------------- export_data_to_csv

  /** The columns of the general file. */
  const GeneralColumns: seq<string> := ["letterhead", "invoice_number", "date", "due_date",
    "expiration_date", "po_number", "bill_to", "ship_to", "subtotal", "tax", "total", "payment_terms", "notes"]

  predicate NotItems(e: (string, Value))
  {
    e.0 != "items"
  }

  /** `{k: v for k, v in data.items() if k != 'items'}`. */
  function GeneralData(data: Items): (g: Items)
    ensures forall k :: k in Keys(g) <==> k in Keys(data) && k != "items"
  {
    var g := Filter(NotItems, data);
    FilterFrom(NotItems, data);
    FilterKeepsAll(NotItems, data);
    assert forall k :: k in Keys(data) && k != "items" ==> k in Keys(g) by {
      forall k | k in Keys(data) && k != "items" ensures k in Keys(g) {
        var i := IndexOf(Keys(data), k);
        assert data[i] in g;
        var j :| 0 <= j < |g| && g[j] == data[i];
        assert Keys(g)[j] == k;
      }
    }
    assert forall k :: k in Keys(g) ==> k in Keys(data) && k != "items" by {
      forall k | k in Keys(g) ensures k in Keys(data) && k != "items" {
        var j := IndexOf(Keys(g), k);
        assert g[j] in data && NotItems(g[j]);
        var i :| 0 <= i < |data| && data[i] == g[j];
        assert Keys(data)[i] == k;
      }
    }
    g
  }

  /** The files written, in order, and the exception raised, if any. */
  datatype CsvFiles = CsvFiles(files: seq<(string, Table)>, error: Option<Error>)

  /**
   * `export_data_to_csv(data, output_path)`: the general file is written first, its header
   * always, its one row unless a key is not a column; then, if nothing raised and `data.get('items')`
   * is truthy, the items file.
   */
  function ExportDataToCsv3(data: Items, outputPath: string): (e: CsvFiles)
    ensures 1 <= |e.files| <= 2 && e.files[0].0 == outputPath && e.files[0].1.header == GeneralColumns
    ensures e.files[0].1.rows == [] <==> exists k :: k in Keys(data) && k != "items" && k !in GeneralColumns
    ensures e.files[0].1.rows == [] ==> e.error.Some? && e.error.value.ValueError? && |e.files| == 1
    ensures |e.files| == 2 <==> (e.files[0].1.rows != [] && Get(data, "items").Some? && Truthy(Get(data, "items").value))
    ensures |e.files| == 2 ==> e.files[1].0 == InvoiceExtraction.ItemsPath(outputPath)
  {
    var general := GeneralData(data);
    match RowCells(GeneralColumns, Dict(general))
    case Err(err) => CsvFiles([(outputPath, Table(GeneralColumns, []))], Some(err))
    case Ok(cells) =>
      var main := (outputPath, Table(GeneralColumns, [cells]));
      var items := Get(data, "items");
      if items.None? || !Truthy(items.value) then CsvFiles([main], None)
      else
        var w := WriteAll(InvoiceExtraction.ItemColumns, items.value);
        CsvFiles([main, (InvoiceExtraction.ItemsPath(outputPath), Table(InvoiceExtraction.ItemColumns, w.rows))], w.error)
  }

  /** A `send_to` entry, the key the report prints, is not a column: exporting it raises `ValueError`. */
  lemma SendToRejected(data: Items, outputPath: string)
    requires "send_to" in Keys(data)
    ensures var e := ExportDataToCsv3(data, outputPath);
      e.files == [(outputPath, Table(GeneralColumns, []))] && e.error.Some? && e.error.value.ValueError?
  {
    assert "send_to" !in GeneralColumns;
  }

  /** Every key of extracted data but `items` is a column of the general file. */
  lemma ExtractedColumns(env: Env, text: string, letterhead: string)
    requires Fields3(env, text, letterhead).Ok?
    ensures forall k :: k in Keys(Fields3(env, text, letterhead).value) && k != "items" ==> k in GeneralColumns
  {
    Fields3Shape(env, text, letterhead);
    FieldKeys3();
  }

  /** The items of a list of matches are written whole: one row of four stripped groups per match. */
  lemma ItemRows(ms: seq<Match>)
    ensures var xs := seq(|ms|, i requires 0 <= i < |ms| => ItemOf(ms[i]));
      WriteAll(InvoiceExtraction.ItemColumns, List(xs)) == Written(seq(|ms|, i requires 0 <= i < |ms| => ItemRow3(ms[i])), None)
  {
    var xs := seq(|ms|, i requires 0 <= i < |ms| => ItemOf(ms[i]));
    forall i | 0 <= i < |xs|
      ensures xs[i].Dict? && (forall k :: k in Keys(xs[i].entries) ==> k in InvoiceExtraction.ItemColumns)
      ensures CsvRow(InvoiceExtraction.ItemColumns, xs[i].entries) == ItemRow3(ms[i])
    {
      ItemCells(ms[i]);
    }
    WriteAllRows(InvoiceExtraction.ItemColumns, xs);
    assert seq(|xs|, i requires 0 <= i < |xs| => CsvRow(InvoiceExtraction.ItemColumns, xs[i].entries))
      == seq(|ms|, i requires 0 <= i < |ms| => ItemRow3(ms[i]));
  }

  /**
   * Exporting extracted data never raises: the general file has the one row of its fields, and an
   * items file is written exactly when there are items, one row of four stripped texts per item.
   */
  lemma ExportExtracted3(env: Env, text: string, letterhead: string, outputPath: string)
    requires Fields3(env, text, letterhead).Ok?
    ensures var d := Fields3(env, text, letterhead).value; var e := ExportDataToCsv3(d, outputPath);
      var ms := env.finditer(ItemPattern, text);
      e.error.None?
      && e.files[0] == (outputPath, Table(GeneralColumns, [CsvRow(GeneralColumns, GeneralData(d))]))
      && (|e.files| == 2 <==> ms != [])
      && (ms != [] ==> e.files[1].1.rows == seq(|ms|, i requires 0 <= i < |ms| => ItemRow3(ms[i])))
  {
    var d := Fields3(env, text, letterhead).value;
    ExtractedColumns(env, text, letterhead);
    Fields3Shape(env, text, letterhead);
    ItemRows(env.finditer(ItemPattern, text));
  }

  /** The four cells of an item row: the match's groups 1 to 4, stripped. */
  function ItemRow3(m: Match): seq<string>
  {
    [Strip(Group(m, 1)), Strip(Group(m, 2)), Strip(Group(m, 3)), Strip(Group(m, 4))]
  }

  /** A dictionary of four texts under the item columns, in order, is written as those texts. */
  lemma FourCells(a: string, b: string, c: string, d: string)
    ensures var k := InvoiceExtraction.ItemColumns;
      var es := [(k[0], Str1(a)), (k[1], Str1(b)), (k[2], Str1(c)), (k[3], Str1(d))];
      Keys(es) == k && CsvRow(k, es) == [a, b, c, d]
  {
    var k := InvoiceExtraction.ItemColumns;
    InvoiceExtraction.ItemColumnsDistinct(k);
    FourUnder(k, Str1(a), Str1(b), Str1(c), Str1(d));
  }

  /** An item dictionary has the four item columns as keys, and its row is its four stripped groups. */
  lemma ItemCells(m: Match)
    ensures ItemOf(m).Dict? && Keys(ItemOf(m).entries) == InvoiceExtraction.ItemColumns
    ensures CsvRow(InvoiceExtraction.ItemColumns, ItemOf(m).entries) == ItemRow3(m)
  {
    FourCells(Strip(Group(m, 1)), Strip(Group(m, 2)), Strip(Group(m, 3)), Strip(Group(m, 4)));
  }
}
