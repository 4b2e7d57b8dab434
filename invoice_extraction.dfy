/**
 * `extract_invoice_data`, the main invoice extractor: the file checks, the PDF or image branch,
 * OCR, and then the twelve-key dictionary filled from the recognised text: an ordered cascade
 * for the invoice number, single searches for dates, purchase order, terms, addresses, amounts
 * and notes, and a line-by-line item loop whose conversions may raise.  `export_data_to_csv`
 * writes the eleven general fields as one row and the items to a second file.
 */
module InvoiceExtraction {
  import opened Wrappers
  import opened Errors
  import opened Foreign
  import opened Seqs
  import opened Strings
  import opened Values
  import opened Matching
  import opened Address
  import opened PdfInput
  import opened ExportUtils
  import opened CsvWriter

  /** One entry of `items`. */
  datatype Item = Item(description: string, quantity: int, unitPrice: Float, total: Float)

  /**
   * The `extracted_data` dictionary: every key is always present, and `None` stays where
   * nothing matched.  The amounts are the matched text with its commas removed, not numbers.
   */
  datatype ExtractedData = ExtractedData(
    items: seq<Item>,
    invoiceNumber: Option<string>,
    date: Option<string>,
    dueDate: Option<string>,
    poNumber: Option<string>,
    paymentTerms: Option<string>,
    billTo: Option<string>,
    sendTo: Option<string>,
    total: Option<string>,
    subtotal: Option<string>,
    tax: Option<string>,
    notes: Option<string>)

  /** Tried in order, case-insensitively; the first that matches gives the invoice number. */
  const InvoicePatterns: seq<Pattern> := [
    Pattern(@"Invoice\s*(?:No\.?|Number|#)?\s*:?\s*([A-Z0-9-]+)", true, false),
    Pattern(@"(?:No\.?|Number|#)\s*:?\s*([A-Z0-9-]+)", true, false),
    Pattern(@"(?<=INVOICE\s)([A-Z0-9-]+)", true, false)
  ]

  const DatePattern: Pattern := Pattern(@"(?:Issue|Invoice)\s*Date[:.]?\s*(\d{4}[-/]\d{2}[-/]\d{2})", true, false)
  const DueDatePattern: Pattern := Pattern(@"(?:Due|Expiration)\s*Date[:.]?\s*(\d{4}[-/]\d{2}[-/]\d{2})", true, false)
  const PoPattern: Pattern := Pattern(@"(?:Purchase\s*Order|PO)[:.]?\s*([A-Z0-9-]+)", true, false)
  const PaymentTermsPattern: Pattern := Pattern(@"Payment\s*Terms[:.]?\s*([^\n]+)", true, false)
  const BillToPattern: Pattern := Pattern(@"Bill\s*To[:.]?\s*([^\n]+(?:\n[^\n]+)*)", true, false)
  const SendToPattern: Pattern := Pattern(@"Send\s*To[:.]?\s*([^\n]+(?:\n[^\n]+)*)", true, false)

  /** `amount_patterns`, in its key order: `total`, `subtotal`, `tax`. */
  const AmountPatterns: seq<Pattern> := [
    Pattern(@"Total[:.]?\s*\$?\s*([\d,]+\.?\d{0,2})", true, false),
    Pattern(@"Subtotal[:.]?\s*\$?\s*([\d,]+\.?\d{0,2})", true, false),
    Pattern(@"Tax[:.]?\s*\$?\s*([\d,]+\.?\d{0,2})", true, false)
  ]

  /**
   * Compiled without flags and used with `match`; as it starts with `^` and has no `MULTILINE`,
   * `match` and `search` agree on it.
   */
  const ItemPattern: Pattern := Pattern(@"^(.*?)\s+(\d+)\s+\$?([\d,.]+)\s+\$?([\d,.]+)", false, false)

  const NotesPattern: Pattern := Pattern(@"Notes?[:.]?\s*([^\n]+)", true, false)

  /** The configuration string handed to the OCR engine. */
  const OcrConfig: string := "--oem 3 --psm 6 -l eng"

  // ---------------------------------------------------------------- fields

  /** `m.group(1).replace(',', '')` after a search; the amounts are kept as text. */
  function AmountText(env: Env, p: Pattern, text: string): (r: Option<string>)
    ensures r.None? <==> Search(env, p, text).None?
    ensures r.Some? ==> r.value == RemoveChars(Group(Search(env, p, text).value, 1), {','})
    ensures r.Some? ==> ',' !in r.value
  {
    var m := Search(env, p, text);
    if m.Some? then Some(RemoveChars(Group(m.value, 1), {','})) else None
  }

  /** `clean_address(m.group(1))` after a search. */
  function AddressField(env: Env, p: Pattern, text: string): (r: Option<string>)
    ensures r.Some? ==> Search(env, p, text).Some? && r == CleanAddress(Group(Search(env, p, text).value, 1))
    ensures r.None? <==> (Search(env, p, text).None? || Group(Search(env, p, text).value, 1) == [])
  {
    var m := Search(env, p, text);
    if m.Some? then CleanAddress(Group(m.value, 1)) else None
  }

  /** `any(keyword in g.lower() for keyword in ['total', 'subtotal', 'tax'])`. */
  predicate Excluded(g: string)
  {
    Contains(Lower(g), "total") || Contains(Lower(g), "subtotal") || Contains(Lower(g), "tax")
  }

  /** `subtotal` contains `total`, so only two of the three keywords matter. */
  lemma ExcludedIs(g: string)
    ensures Excluded(g) <==> Contains(Lower(g), "total") || Contains(Lower(g), "tax")
  {
    if Contains(Lower(g), "subtotal") {
      var i: nat :| i <= |Lower(g)| && OccursAt(Lower(g), "subtotal", i);
      assert Lower(g)[i + 3..i + 8] == "subtotal"[3..];
      assert OccursAt(Lower(g), "total", i + 3);
    }
  }

  /**
   * The item dictionary of a line match: the stripped description, `int` of the quantity and
   * `float` of the two prices without commas, evaluated in that order.
   */
  function ItemOfMatch(env: Env, m: Match): (r: Result<Item, Error>)
    ensures r.Ok? ==> (r.value.description == Strip(Group(m, 1))
      && env.toInt(Group(m, 2)) == Ok(r.value.quantity)
      && ToAmount(env, Group(m, 3)) == Ok(r.value.unitPrice)
      && ToAmount(env, Group(m, 4)) == Ok(r.value.total))
    ensures r.Err? <==> (env.toInt(Group(m, 2)).Err? || ToAmount(env, Group(m, 3)).Err? || ToAmount(env, Group(m, 4)).Err?)
    ensures r.Err? ==> r.error.ValueError?
  {
    match env.toInt(Group(m, 2))
    case Err(msg) => Err(ValueError(msg))
    case Ok(q) =>
      match ToAmount(env, Group(m, 3))
      case Err(e) => Err(e)
      case Ok(u) =>
        match ToAmount(env, Group(m, 4))
        case Err(e) => Err(e)
        case Ok(t) => Ok(Item(Strip(Group(m, 1)), q, u, t))
  }

  /** What one line contributes: nothing, an item, or the exception its conversion raises. */
  function LineItem(env: Env, line: string): Option<Result<Item, Error>>
  {
    var m := Search(env, ItemPattern, Strip(line));
    if m.None? || Excluded(Group(m.value, 1)) then None else Some(ItemOfMatch(env, m.value))
  }

  predicate Fails(r: Option<Result<Item, Error>>)
  {
    r.Some? && r.value.Err?
  }

  /** Prefixing the items of a successful result; an exception passes through. */
  function PrependItems(acc: seq<Item>, r: Result<seq<Item>, Error>): Result<seq<Item>, Error>
  {
    if r.Ok? then Ok(acc + r.value) else r
  }

  /** The items of a sequence of line outcomes, in order, up to the first exception. */
  function Collect(outs: seq<Option<Result<Item, Error>>>): (r: Result<seq<Item>, Error>)
    ensures r.Err? <==> exists k :: 0 <= k < |outs| && Fails(outs[k])
    ensures r.Err? ==> exists k :: (0 <= k < |outs| && outs[k] == Some(Err(r.error))
      && forall j :: 0 <= j < k ==> !Fails(outs[j]))
    ensures r.Ok? ==> |r.value| <= |outs|
  {
    if outs == [] then Ok([])
    else
      var rest := Collect(outs[1..]);
      assert forall k :: 1 <= k < |outs| ==> outs[k] == outs[1..][k - 1];
      match outs[0]
      case None => rest
      case Some(Err(e)) => Err(e)
      case Some(Ok(it)) =>
        if rest.Err? then
          var k :| 0 <= k < |outs[1..]| && outs[1..][k] == Some(Err(rest.error))
            && forall j :: 0 <= j < k ==> !Fails(outs[1..][j]);
          assert outs[k + 1] == Some(Err(rest.error));
          rest
        else Ok([it] + rest.value)
  }

  /** The item of a successful outcome. */
  function Succeeded(o: Option<Result<Item, Error>>): Option<Item>
  {
    if o.Some? && o.value.Ok? then Some(o.value.value) else None
  }

  /** Without an exception, the items are exactly the successful outcomes, in order. */
  lemma {:induction false} CollectChoose(outs: seq<Option<Result<Item, Error>>>)
    requires Collect(outs).Ok?
    ensures Collect(outs).value == Choose(Succeeded, outs)
  {
    if outs != [] {
      CollectChoose(outs[1..]);
      ChooseCons(Succeeded, outs[0], outs[1..]);
      assert outs == [outs[0]] + outs[1..];
    }
  }

  /** What each line contributes, in line order. */
  function Outcomes(env: Env, lines: seq<string>): (outs: seq<Option<Result<Item, Error>>>)
    ensures |outs| == |lines|
    ensures forall k :: 0 <= k < |lines| ==> outs[k] == LineItem(env, lines[k])
  {
    seq(|lines|, k requires 0 <= k < |lines| => LineItem(env, lines[k]))
  }

  /** The items of `lines`, in order; the first line whose conversion raises ends the extraction. */
  function LineItems(env: Env, lines: seq<string>): (r: Result<seq<Item>, Error>)
    ensures r.Err? <==> exists k :: 0 <= k < |lines| && Fails(LineItem(env, lines[k]))
    ensures r.Err? ==> exists k :: (0 <= k < |lines| && LineItem(env, lines[k]) == Some(Err(r.error))
      && forall j :: 0 <= j < k ==> !Fails(LineItem(env, lines[j])))
    ensures r.Ok? ==> |r.value| <= |lines|
    ensures r.Ok? ==> r.value == Choose(Succeeded, Outcomes(env, lines))
  {
    var outs := Outcomes(env, lines);
    var r := Collect(outs);
    if r.Ok? then CollectChoose(outs); r else r
  }

  /** A line without the four columns, or naming a total or a tax, yields nothing. */
  lemma SkippedLine(env: Env, line: string)
    requires Search(env, ItemPattern, Strip(line)).None?
      || Contains(Lower(Group(Search(env, ItemPattern, Strip(line)).value, 1)), "total")
      || Contains(Lower(Group(Search(env, ItemPattern, Strip(line)).value, 1)), "tax")
    ensures LineItem(env, line).None?
  {
    var m := Search(env, ItemPattern, Strip(line));
    if m.Some? {
      ExcludedIs(Group(m.value, 1));
    }
  }

  /** A line that yields nothing leaves the items of the lines after it unchanged, and cannot fail. */
  lemma SkippedLineItems(env: Env, line: string, lines: seq<string>)
    requires LineItem(env, line).None?
    ensures LineItems(env, [line] + lines) == LineItems(env, lines)
  {
    OutcomesCons(env, line, lines);
  }

  lemma OutcomesCons(env: Env, line: string, lines: seq<string>)
    ensures Outcomes(env, [line] + lines) == [LineItem(env, line)] + Outcomes(env, lines)
  {
  }

  /** Every item's description is stripped and names neither a total nor a tax. */
  lemma ItemDescription(env: Env, line: string)
    requires LineItem(env, line).Some? && LineItem(env, line).value.Ok?
    ensures var d := LineItem(env, line).value.value.description;
      Strip(d) == d && !Contains(Lower(d), "total") && !Contains(Lower(d), "tax")
  {
    var g := Group(Search(env, ItemPattern, Strip(line)).value, 1);
    assert !Excluded(g) && LineItem(env, line).value.value.description == Strip(g);
    StripIdempotent(g);
    ExcludedIs(g);
    StrippedAvoids(g, "total");
    StrippedAvoids(g, "tax");
  }

  /** A word that does not occur in a text, ignoring case, does not occur in it stripped either. */
  lemma StrippedAvoids(g: string, w: string)
    requires !Contains(Lower(g), w)
    ensures !Contains(Lower(Strip(g)), w)
  {
    var a := LeadingSpaces(g);
    var d := Strip(g);
    LowerSlice(g, a, a + |d|);
    if Contains(Lower(d), w) {
      ContainsInSlice(Lower(g), a, a + |d|, w);
    }
  }

  lemma LowerSlice(g: string, a: nat, b: nat)
    requires a <= b <= |g|
    ensures Lower(g[a..b]) == Lower(g)[a..b]
  {
  }

  /** The lines of the recognised text, `text.split('\n')`. */
  function Lines(text: string): seq<string>
  {
    SplitOn(text, '\n')
  }

  /** The dictionary built from the recognised text, or the exception an item conversion raises. */
  function InvoiceFields(env: Env, text: string): (r: Result<ExtractedData, Error>)
    ensures r.Err? <==> LineItems(env, Lines(text)).Err?
    ensures r.Ok? ==> r.value.items == LineItems(env, Lines(text)).value
  {
    var items := LineItems(env, Lines(text));
    if items.Err? then Err(items.error)
    else Ok(ExtractedData(
      items.value,
      StrippedGroup1(FirstMatch(env, InvoicePatterns, text)),
      RawGroup1(Search(env, DatePattern, text)),
      RawGroup1(Search(env, DueDatePattern, text)),
      RawGroup1(Search(env, PoPattern, text)),
      StrippedGroup1(Search(env, PaymentTermsPattern, text)),
      AddressField(env, BillToPattern, text),
      AddressField(env, SendToPattern, text),
      AmountText(env, AmountPatterns[0], text),
      AmountText(env, AmountPatterns[1], text),
      AmountText(env, AmountPatterns[2], text),
      StrippedGroup1(Search(env, NotesPattern, text))))
  }

  /**
   * The invoice number comes from the first pattern of the cascade that matches, stripped;
   * it is `None` only when none of the three matches.
   */
  lemma InvoiceNumberFrom(env: Env, text: string, k: nat)
    requires InvoiceFields(env, text).Ok?
    requires k < |InvoicePatterns| && Search(env, InvoicePatterns[k], text).Some?
    requires forall j :: 0 <= j < k ==> Search(env, InvoicePatterns[j], text).None?
    ensures InvoiceFields(env, text).value.invoiceNumber == Some(Strip(Group(Search(env, InvoicePatterns[k], text).value, 1)))
  {
    FirstHitIs(env, InvoicePatterns, text, k);
  }

  /**
   * The amounts are comma-free text, the addresses are cleaned (single-spaced, stripped, without
   * a trailing keyword), and the dates and purchase order are the group as matched.
   */
  lemma FieldsShape(env: Env, text: string)
    requires InvoiceFields(env, text).Ok?
    ensures var d := InvoiceFields(env, text).value;
      (d.total.Some? ==> ',' !in d.total.value)
      && (d.subtotal.Some? ==> ',' !in d.subtotal.value)
      && (d.tax.Some? ==> ',' !in d.tax.value)
      && (d.billTo.Some? ==> Tidy(d.billTo.value) && Stripped(d.billTo.value) && KeywordFree(d.billTo.value))
      && (d.sendTo.Some? ==> Tidy(d.sendTo.value) && Stripped(d.sendTo.value) && KeywordFree(d.sendTo.value))
      && (d.date.Some? <==> Search(env, DatePattern, text).Some?)
      && (d.poNumber.Some? ==> d.poNumber.value == Group(Search(env, PoPattern, text).value, 1))
  {
  }

  /**
   * Only an item conversion can make field extraction fail: a text none of whose lines both
   * matches the item pattern and lacks the keywords always succeeds.
   */
  lemma FieldsFailOnlyOnItems(env: Env, text: string)
    requires forall k :: 0 <= k < |Lines(text)| ==> LineItem(env, Lines(text)[k]).None?
    ensures InvoiceFields(env, text).Ok? && InvoiceFields(env, text).value.items == []
  {
    CollectNone(Outcomes(env, Lines(text)));
  }

  lemma {:induction false} CollectNone(outs: seq<Option<Result<Item, Error>>>)
    requires forall k :: 0 <= k < |outs| ==> outs[k].None?
    ensures Collect(outs) == Ok([])
  {
    if outs != [] {
      assert forall k :: 0 <= k < |outs[1..]| ==> outs[1..][k] == outs[k + 1];
      CollectNone(outs[1..]);
    }
  }

  /** The `for key, pattern in amount_patterns.items()` loop: one optional amount per pattern. */
  method ExtractAmounts(env: Env, text: string) returns (amounts: seq<Option<string>>)
    ensures |amounts| == |AmountPatterns|
    ensures forall j :: 0 <= j < |AmountPatterns| ==> amounts[j] == AmountText(env, AmountPatterns[j], text)
  {
    amounts := [];
    var a := 0;
    while a < |AmountPatterns|
      invariant 0 <= a <= |AmountPatterns| && |amounts| == a
      invariant forall j :: 0 <= j < a ==> amounts[j] == AmountText(env, AmountPatterns[j], text)
    {
      var m := Search(env, AmountPatterns[a], text);
      amounts := amounts + [if m.Some? then Some(RemoveChars(Group(m.value, 1), {','})) else None];
      a := a + 1;
    }
  }

  lemma PrependStep(items: seq<Item>, it: Item, r: Result<seq<Item>, Error>)
    ensures PrependItems(items, PrependItems([it], r)) == PrependItems(items + [it], r)
  {
    if r.Ok? {
      assert items + ([it] + r.value) == (items + [it]) + r.value;
    }
  }

  lemma PrependNothing(r: Result<seq<Item>, Error>)
    ensures PrependItems([], r) == r
  {
    if r.Ok? {
      assert [] + r.value == r.value;
    }
  }

  /** One step of `Collect`: what the outcome at `i` does. */
  lemma CollectStep(outs: seq<Option<Result<Item, Error>>>, i: nat)
    requires i < |outs|
    ensures Collect(outs[i..]) ==
      match outs[i]
      case None => Collect(outs[i + 1..])
      case Some(Err(e)) => Err(e)
      case Some(Ok(it)) => PrependItems([it], Collect(outs[i + 1..]))
  {
    assert outs[i..][1..] == outs[i + 1..];
    assert outs[i..][0] == outs[i];
  }

  /** The `for line in lines` loop: `match` on the stripped line, then append the converted item. */
  method ExtractItems(env: Env, lines: seq<string>) returns (r: Result<seq<Item>, Error>)
    ensures r == LineItems(env, lines)
  {
    ghost var outs := Outcomes(env, lines);
    var items: seq<Item> := [];
    var i := 0;
    assert outs[0..] == outs;
    PrependNothing(Collect(outs));
    while i < |lines|
      invariant 0 <= i <= |lines|
      invariant Collect(outs) == PrependItems(items, Collect(outs[i..]))
    {
      CollectStep(outs, i);
      var m := Search(env, ItemPattern, Strip(lines[i]));
      if m.Some? && !Excluded(Group(m.value, 1)) {
        var item := ItemOfMatch(env, m.value);
        if item.Err? {
          return Err(item.error);
        }
        PrependStep(items, item.value, Collect(outs[i + 1..]));
        items := items + [item.value];
      }
      i := i + 1;
    }
    assert items + [] == items;
    r := Ok(items);
  }

  /**
   * The field extraction as written: the invoice-pattern loop with `break`, the single
   * searches, the amount loop, the line loop, then the notes.
   */
  method ExtractFields(env: Env, text: string) returns (r: Result<ExtractedData, Error>)
    ensures r == InvoiceFields(env, text)
  {
    var invoiceNumber := SearchCascade(env, InvoicePatterns, text);
    var number := if invoiceNumber.Some? then Some(Strip(Group(invoiceNumber.value, 1))) else None;
    var date := RawGroup1(Search(env, DatePattern, text));
    var dueDate := RawGroup1(Search(env, DueDatePattern, text));
    var po := RawGroup1(Search(env, PoPattern, text));
    var terms := StrippedField(env, PaymentTermsPattern, text);
    var billTo := AddressField(env, BillToPattern, text);
    var sendTo := AddressField(env, SendToPattern, text);
    var amounts := ExtractAmounts(env, text);
    var items := ExtractItems(env, Lines(text));
    if items.Err? {
      return Err(items.error);
    }
    var notes := StrippedField(env, NotesPattern, text);
    r := Ok(ExtractedData(items.value, number, date, dueDate, po, terms, billTo, sendTo, amounts[0], amounts[1], amounts[2], notes));
  }

  // ---------------------------------------------------------------- the pipeline

  /** Whether the path takes the PDF branch: `file_path.lower().endswith('.pdf')`. */
  predicate IsPdfPath(path: string)
  {
    EndsWith(Lower(path), ".pdf")
  }

  /** The preprocessed image of the file: the first page of a PDF, or the image file itself. */
  function PageImage(host: Host, vision: Vision, path: string): (r: Result<Image, Error>)
    ensures !IsPdfPath(path) ==> r == vision.preprocess(FromPath(path))
    ensures IsPdfPath(path) && ConvertPdf(host, vision, path).Ok? ==>
      r == vision.preprocess(FromImage(ConvertPdf(host, vision, path).value[0]))
    ensures IsPdfPath(path) && ConvertPdf(host, vision, path).Err? ==> r == Err(ConvertPdf(host, vision, path).error)
  {
    if IsPdfPath(path) then
      match ConvertPdf(host, vision, path)
      case Err(e) => Err(e)
      case Ok(pages) => vision.preprocess(FromImage(pages[0]))
    else vision.preprocess(FromPath(path))
  }

  /** `pytesseract.image_to_string`, with its failure re-raised as `RuntimeError`. */
  function Recognise(vision: Vision, image: Image): (r: Result<string, Error>)
    ensures r.Ok? <==> vision.recognise(image, OcrConfig).Ok?
    ensures r.Ok? ==> r.value == vision.recognise(image, OcrConfig).value
    ensures r.Err? ==> r == Err(RuntimeError("Tesseract OCR error: " + Message(vision.recognise(image, OcrConfig).error)))
  {
    match vision.recognise(image, OcrConfig)
    case Ok(text) => Ok(text)
    case Err(e) => Err(RuntimeError("Tesseract OCR error: " + Message(e)))
  }

  /** The checks, the page image and its recognition, with their own exceptions. */
  function PageText(host: Host, vision: Vision, path: string): Result<string, Error>
  {
    var v := VerifyFilePath(host, path);
    if v.Err? then Err(v.error)
    else
      var image := PageImage(host, vision, path);
      if image.Err? then Err(image.error)
      else Recognise(vision, image.value)
  }

  /** The steps inside the `try` of `extract_invoice_data`, with their own exceptions. */
  function InvoiceSteps(host: Host, vision: Vision, env: Env, path: string): Result<ExtractedData, Error>
  {
    var text := PageText(host, vision, path);
    if text.Err? then Err(text.error) else InvoiceFields(env, text.value)
  }

  const ExtractionPrefix: string := "Error extracting invoice data: "

  /** `extract_invoice_data(file_path)`: every exception leaves as `Exception("Error extracting invoice data: ...")`. */
  function InvoiceData(host: Host, vision: Vision, env: Env, path: string): (r: Result<ExtractedData, Error>)
    ensures r.Ok? ==> InvoiceSteps(host, vision, env, path) == r
    ensures r.Err? <==> InvoiceSteps(host, vision, env, path).Err?
    ensures r.Err? ==> r.error.Exception? && StartsWith(r.error.msg, ExtractionPrefix)
  {
    var s := InvoiceSteps(host, vision, env, path);
    if s.Err? then
      var msg := ExtractionPrefix + Message(s.error);
      assert msg[..|ExtractionPrefix|] == ExtractionPrefix;
      Err(Exception(msg))
    else s
  }

  /** A file that fails the checks is never opened: the error is the check's, wrapped. */
  lemma RejectedPath(host: Host, vision: Vision, env: Env, path: string)
    requires VerifyFilePath(host, path).Err?
    ensures InvoiceData(host, vision, env, path) == Err(Exception(ExtractionPrefix + Message(VerifyFilePath(host, path).error)))
  {
  }

  /**
   * An accepted file is read from the image its branch produces; for a PDF that is the first
   * page of the conversion, and the rasteriser is not used for any other file.
   */
  lemma AcceptedPath(host: Host, vision: Vision, env: Env, path: string)
    requires VerifyFilePath(host, path).Ok? && PageImage(host, vision, path).Ok?
    requires vision.recognise(PageImage(host, vision, path).value, OcrConfig).Ok?
    ensures var text := vision.recognise(PageImage(host, vision, path).value, OcrConfig).value;
      InvoiceData(host, vision, env, path).Err? <==> InvoiceFields(env, text).Err?
    ensures var text := vision.recognise(PageImage(host, vision, path).value, OcrConfig).value;
      InvoiceFields(env, text).Ok? ==> InvoiceData(host, vision, env, path) == InvoiceFields(env, text)
  {
  }

  /** Two rasterisers can only make a difference on a path that takes the PDF branch. */
  lemma ImagesSkipRasteriser(host: Host, v1: Vision, v2: Vision, env: Env, path: string)
    requires !IsPdfPath(path)
    requires v1.preprocess == v2.preprocess && v1.recognise == v2.recognise
    ensures InvoiceData(host, v1, env, path) == InvoiceData(host, v2, env, path)
  {
    var i1, i2 := PageImage(host, v1, path), PageImage(host, v2, path);
    assert i1 == i2;
    if i1.Ok? {
      assert Recognise(v1, i1.value) == Recognise(v2, i2.value);
    }
    assert InvoiceSteps(host, v1, env, path) == InvoiceSteps(host, v2, env, path);
  }

  /** `extract_invoice_data` as written: each step in turn, returning on the first exception. */
  method ExtractInvoiceData(host: Host, vision: Vision, env: Env, path: string) returns (r: Result<ExtractedData, Error>)
    ensures r == InvoiceData(host, vision, env, path)
  {
    var text := ReadPageText(host, vision, path);
    if text.Err? {
      return Err(Exception(ExtractionPrefix + Message(text.error)));
    }
    r := ExtractFields(env, text.value);
    if r.Err? {
      r := Err(Exception(ExtractionPrefix + Message(r.error)));
    }
  }

  /** The statements of `extract_invoice_data` before the fields are searched. */
  method ReadPageText(host: Host, vision: Vision, path: string) returns (text: Result<string, Error>)
    ensures text == PageText(host, vision, path)
  {
    var v := VerifyFilePath(host, path);
    if v.Err? {
      return Err(v.error);
    }
    var image := PreparePage(host, vision, path);
    if image.Err? {
      return Err(image.error);
    }
    text := Recognise(vision, image.value);
  }

  /** The branch on the file type: the first converted page of a PDF, or the image file. */
  method PreparePage(host: Host, vision: Vision, path: string) returns (image: Result<Image, Error>)
    ensures image == PageImage(host, vision, path)
  {
    if IsPdfPath(path) {
      var pages := ConvertPdfToImages(host, vision, path);
      if pages.Err? {
        return Err(pages.error);
      }
      image := vision.preprocess(FromImage(pages.value[0]));
    } else {
      image := vision.preprocess(FromPath(path));
    }
  }

  // ---------------------------------------------------------------- export_data_to_csv

  /** The general columns of the CSV file, in order. */
  const InvoiceColumns: seq<string> := ["invoice_number", "date", "due_date", "po_number", "payment_terms",
    "bill_to", "send_to", "subtotal", "tax", "total", "notes"]

  /** The columns of the items file. */
  const ItemColumns: seq<string> := ["description", "quantity", "unit_price", "total"]

  /** The files written, in order, and the returned CSV text or the exception raised after them. */
  datatype CsvExport = CsvExport(files: seq<(string, Table)>, result: Result<Table, Error>)

  /** `output_path.replace('.csv', '_items.csv')`. */
  function ItemsPath(path: string): string
  {
    ReplaceAll(path, ".csv", "_items.csv")
  }

  /**
   * `export_data_to_csv(data, output_path)`: the general row of `data.get(k, '')` under the eleven
   * columns; with an output path, that file, then the items file when `data.get('items')` is truthy.
   */
  function ExportDataToCsv(data: Items, outputPath: Option<string>): (e: CsvExport)
    ensures e.result.Ok? ==> e.result.value == Table(InvoiceColumns, [CsvRow(InvoiceColumns, data)])
    ensures outputPath.None? || outputPath.value == "" ==> e.files == [] && e.result.Ok?
    ensures outputPath.Some? && outputPath.value != "" ==> (1 <= |e.files|
      && e.files[0] == (outputPath.value, Table(InvoiceColumns, [CsvRow(InvoiceColumns, data)])))
    ensures |e.files| == 2 <==> (outputPath.Some? && outputPath.value != ""
      && Get(data, "items").Some? && Truthy(Get(data, "items").value))
    ensures |e.files| <= 2
    ensures e.result.Err? ==> |e.files| == 2
  {
    var general := Table(InvoiceColumns, [CsvRow(InvoiceColumns, data)]);
    if outputPath.None? || outputPath.value == "" then CsvExport([], Ok(general))
    else
      var main := (outputPath.value, general);
      var items := Get(data, "items");
      if items.None? || !Truthy(items.value) then CsvExport([main], Ok(general))
      else
        var w := WriteAll(ItemColumns, items.value);
        var files := [main, (ItemsPath(outputPath.value), Table(ItemColumns, w.rows))];
        CsvExport(files, if w.error.Some? then Err(w.error.value) else Ok(general))
  }

  /** The cell `csv` writes for an optional text field. */
  function OptCell(o: Option<string>): string
  {
    if o.Some? then o.value else ""
  }

  /** An item as the dictionary the extractor appends. */
  function ItemValue(it: Item): Value
  {
    Dict([("description", Str1(it.description)), ("quantity", Scalar(Int(it.quantity))),
      ("unit_price", Scalar(Real(it.unitPrice))), ("total", Scalar(Real(it.total)))])
  }

  /** `extracted_data` as a dictionary, its keys in insertion order. */
  function DataItems(d: ExtractedData): Items
  {
    [("items", List(seq(|d.items|, i requires 0 <= i < |d.items| => ItemValue(d.items[i])))),
     ("invoice_number", OptStr(d.invoiceNumber)), ("date", OptStr(d.date)), ("due_date", OptStr(d.dueDate)),
     ("po_number", OptStr(d.poNumber)), ("payment_terms", OptStr(d.paymentTerms)),
     ("bill_to", OptStr(d.billTo)), ("send_to", OptStr(d.sendTo)), ("total", OptStr(d.total)),
     ("subtotal", OptStr(d.subtotal)), ("tax", OptStr(d.tax)), ("notes", OptStr(d.notes))]
  }

  /** A row of the items file: the text of each of the four values. */
  function ItemRow(it: Item): seq<string>
  {
    [it.description, IntStr(it.quantity), it.unitPrice.repr, it.total.repr]
  }

  lemma OptCellIs(o: Option<string>)
    ensures CsvCell(OptStr(o)) == OptCell(o)
  {
  }

  lemma ItemRowIs(it: Item)
    ensures ItemValue(it).Dict? && (forall k :: k in Keys(ItemValue(it).entries) ==> k in ItemColumns)
    ensures CsvRow(ItemColumns, ItemValue(it).entries) == ItemRow(it)
  {
    var k := ItemColumns;
    ItemColumnsDistinct(k);
    var es := ItemValue(it).entries;
    assert es == [(k[0], es[0].1), (k[1], es[1].1), (k[2], es[2].1), (k[3], es[3].1)];
    FourUnder(k, es[0].1, es[1].1, es[2].1, es[3].1);
  }

  /** The item columns are four distinct names. */
  lemma ItemColumnsDistinct(ks: seq<string>)
    requires ks == ItemColumns
    ensures |ks| == 4 && forall i, j :: 0 <= i < j < 4 ==> ks[i] != ks[j]
  {
  }

  /**
   * Exporting extracted data to a path writes the general row, and, when there are items, an
   * items file with one row per item in extraction order; it never raises.
   */
  lemma ExportExtracted(d: ExtractedData, path: string)
    requires path != ""
    ensures var e := ExportDataToCsv(DataItems(d), Some(path));
      e.result == Ok(Table(InvoiceColumns, [CsvRow(InvoiceColumns, DataItems(d))]))
      && (d.items == [] ==> |e.files| == 1)
      && (d.items != [] ==> e.files[1] == (ItemsPath(path), Table(ItemColumns, seq(|d.items|, i requires 0 <= i < |d.items| => ItemRow(d.items[i])))))
  {
    var es := DataItems(d);
    var xs := seq(|d.items|, i requires 0 <= i < |d.items| => ItemValue(d.items[i]));
    assert Get(es, "items") == Some(List(xs));
    forall i | 0 <= i < |xs| ensures xs[i].Dict? && (forall k :: k in Keys(xs[i].entries) ==> k in ItemColumns)
      && CsvRow(ItemColumns, xs[i].entries) == ItemRow(d.items[i]) {
      ItemRowIs(d.items[i]);
    }
    WriteAllRows(ItemColumns, xs);
    assert seq(|xs|, i requires 0 <= i < |xs| => CsvRow(ItemColumns, xs[i].entries))
      == seq(|d.items|, i requires 0 <= i < |d.items| => ItemRow(d.items[i]));
  }

  /** For `stem.csv` with a dot-free stem, the items go to `stem_items.csv`. */
  lemma {:induction false} ItemsPathOf(stem: string)
    requires '.' !in stem
    ensures ItemsPath(stem + ".csv") == stem + "_items.csv"
  {
    if stem == [] {
      assert stem + ".csv" == ".csv";
      assert ".csv"[..4] == ".csv" && ".csv"[4..] == [];
      assert ReplaceAll([], ".csv", "_items.csv") == [];
      assert "_items.csv" + [] == "_items.csv";
    } else {
      var s := stem + ".csv";
      assert s[..4] != ".csv" by {
        assert s[0] == stem[0];
      }
      assert s[1..] == stem[1..] + ".csv";
      ItemsPathOf(stem[1..]);
      assert [stem[0]] + (stem[1..] + "_items.csv") == stem + "_items.csv";
    }
  }

  /** An output path that does not contain `.csv` names its items file the same: the items overwrite the general row. */
  lemma ItemsOverwrite(data: Items, path: string)
    requires path != "" && !Contains(path, ".csv")
    requires Get(data, "items").Some? && Truthy(Get(data, "items").value)
    ensures var e := ExportDataToCsv(data, Some(path)); e.files[0].0 == e.files[1].0 == path
  {
    ReplaceAbsent(path, ".csv", "_items.csv");
  }
}
