/**
 * The core package's `DocumentProcessor`: the text of every page of a PDF, the four invoice
 * fields it searches that text for, filled into a fresh `InvoiceData`, and the CSV table of a
 * list of such records.
 */
module CoreDocument {
  import opened Wrappers
  import opened Errors
  import opened Foreign
  import opened Seqs
  import opened Strings
  import opened Values
  import opened Matching
  import opened ExportUtils

  /** The six fields of an `InvoiceData`, in declaration order, as one value. */
  datatype Invoice = Invoice(
    invoiceNumber: Option<string>,
    date: Option<string>,
    totalAmount: Option<Float>,
    taxAmount: Option<Float>,
    supplierName: Option<string>,
    supplierId: Option<string>)

  /** Every field's default is `None`. */
  const Blank: Invoice := Invoice(None, None, None, None, None, None)

  /** The `InvoiceData` dataclass, whose fields `extract_invoice_data` sets one by one. */
  class InvoiceData {
    var invoiceNumber: Option<string>
    var date: Option<string>
    var totalAmount: Option<Float>
    var taxAmount: Option<Float>
    var supplierName: Option<string>
    var supplierId: Option<string>

    /** The fields as they are now. */
    function Snapshot(): Invoice
      reads this
    {
      Invoice(invoiceNumber, date, totalAmount, taxAmount, supplierName, supplierId)
    }

    /** `InvoiceData()`: a fresh record has all six fields `None`. */
    constructor()
      ensures Snapshot() == Blank
    {
      invoiceNumber := None;
      date := None;
      totalAmount := None;
      taxAmount := None;
      supplierName := None;
      supplierId := None;
    }
  }

  // ------------------------------------------------------------------ page text

  /** One page: converted and preprocessed for OpenCV (`prepare`), then recognised with no configuration. */
  function PageText(vision: Vision, prepare: Image -> Result<Image, Error>, img: Image): Result<string, Error>
  {
    match prepare(img)
    case Err(e) => Err(e)
    case Ok(p) => vision.recognise(p, "")
  }

  /** `full_text += text + "\n"` over the pages, stopping at the first page that raises. */
  function PagesText(vision: Vision, prepare: Image -> Result<Image, Error>, imgs: seq<Image>): Result<string, Error>
  {
    if imgs == [] then Ok("")
    else
      match PagesText(vision, prepare, imgs[..|imgs| - 1])
      case Err(e) => Err(e)
      case Ok(t) =>
        match PageText(vision, prepare, imgs[|imgs| - 1])
        case Err(e) => Err(e)
        case Ok(s) => Ok(t + s + "\n")
  }

  /** Each page's text followed by a newline, in page order. */
  function PageLines(vision: Vision, prepare: Image -> Result<Image, Error>, imgs: seq<Image>): (ls: seq<string>)
    ensures |ls| == |imgs|
  {
    seq(|imgs|, i requires 0 <= i < |imgs| =>
      (if PageText(vision, prepare, imgs[i]).Ok? then PageText(vision, prepare, imgs[i]).value else "") + "\n")
  }

  /** The pages succeed together or the whole text fails; on success it is the page texts, each ended by a newline. */
  lemma {:induction false} PagesTextIs(vision: Vision, prepare: Image -> Result<Image, Error>, imgs: seq<Image>)
    ensures PagesText(vision, prepare, imgs).Ok? <==> forall i :: 0 <= i < |imgs| ==> PageText(vision, prepare, imgs[i]).Ok?
    ensures PagesText(vision, prepare, imgs).Ok? ==>
      PagesText(vision, prepare, imgs).value == Seqs.Flatten(PageLines(vision, prepare, imgs))
  {
    if imgs != [] {
      var init := imgs[..|imgs| - 1];
      PagesTextIs(vision, prepare, init);
      assert forall i :: 0 <= i < |init| ==> init[i] == imgs[i];
      var ls := PageLines(vision, prepare, imgs);
      assert ls == PageLines(vision, prepare, init) + [ls[|imgs| - 1]];
      FlattenConcat(PageLines(vision, prepare, init), [ls[|imgs| - 1]]);
      assert Seqs.Flatten([ls[|imgs| - 1]]) == ls[|imgs| - 1] + Seqs.Flatten([]);
    }
  }

  /** `extract_text_from_pdf(pdf_path)`: any exception, on any page, gives `""`. */
  function PdfText(vision: Vision, prepare: Image -> Result<Image, Error>, path: string): string
  {
    match vision.rasterise(path, None)
    case Err(_) => ""
    case Ok(imgs) =>
      match PagesText(vision, prepare, imgs)
      case Err(_) => ""
      case Ok(t) => t
  }

  /**
   * The text is the pages' texts in order, each followed by a newline; a failing page discards
   * the text of the pages before it.
   */
  lemma PdfTextIs(vision: Vision, prepare: Image -> Result<Image, Error>, path: string)
    ensures vision.rasterise(path, None).Err? ==> PdfText(vision, prepare, path) == ""
    ensures vision.rasterise(path, None).Ok? ==>
      var imgs := vision.rasterise(path, None).value;
      if forall i :: 0 <= i < |imgs| ==> PageText(vision, prepare, imgs[i]).Ok?
      then PdfText(vision, prepare, path) == Seqs.Flatten(PageLines(vision, prepare, imgs))
      else PdfText(vision, prepare, path) == ""
  {
    if vision.rasterise(path, None).Ok? {
      PagesTextIs(vision, prepare, vision.rasterise(path, None).value);
    }
  }

  /** The loop as written. */
  method ExtractTextFromPdf(vision: Vision, prepare: Image -> Result<Image, Error>, path: string) returns (fullText: string)
    ensures fullText == PdfText(vision, prepare, path)
  {
    var images := vision.rasterise(path, None);
    if images.Err? {
      return "";
    }
    var imgs := images.value;
    fullText := "";
    var i := 0;
    while i < |imgs|
      invariant 0 <= i <= |imgs|
      invariant PagesText(vision, prepare, imgs[..i]) == Ok(fullText)
    {
      assert imgs[..i + 1][..i] == imgs[..i];
      var processed := prepare(imgs[i]);
      if processed.Err? {
        PagesFail(vision, prepare, imgs, i + 1);
        return "";
      }
      var text := vision.recognise(processed.value, "");
      if text.Err? {
        PagesFail(vision, prepare, imgs, i + 1);
        return "";
      }
      fullText := fullText + text.value + "\n";
      i := i + 1;
    }
    assert imgs[..i] == imgs;
  }

  /** Once a prefix of the pages fails, every longer prefix fails too. */
  lemma {:induction false} PagesFail(vision: Vision, prepare: Image -> Result<Image, Error>, imgs: seq<Image>, n: nat)
    requires n <= |imgs| && PagesText(vision, prepare, imgs[..n]).Err?
    ensures PagesText(vision, prepare, imgs).Err?
    decreases |imgs| - n
  {
    if n < |imgs| {
      assert imgs[..n + 1][..n] == imgs[..n];
      PagesFail(vision, prepare, imgs, n + 1);
    } else {
      assert imgs[..n] == imgs;
    }
  }

  // ------------------------------------------------------------------ invoice fields

  const InvoicePattern: Pattern := Pattern(@"(?i)(?:invoice|factura)\s*(?:#|num|número)?\s*(\w+[-]?\d+)", false, false)
  const DatePattern: Pattern := Pattern(@"\d{2}[/-]\d{2}[/-]\d{4}|\d{4}-\d{2}-\d{2}", false, false)
  const TotalPattern: Pattern := Pattern(@"(?i)total[\s:]*\$?\s*([\d,]+\.?\d*)", false, false)
  const TaxPattern: Pattern := Pattern(@"(?i)(?:tax|iva|impuesto)[\s:]*\$?\s*([\d,]+\.?\d*)", false, false)

  /** Group `g` of the first match, unstripped, or `None` when the pattern does not match. */
  function FirstGroup(env: Env, p: Pattern, text: string, g: nat): Option<string>
  {
    match Search(env, p, text)
    case None => None
    case Some(m) => Some(Group(m, g))
  }

  /** An amount: the first match's group 1 with its commas removed, through `float()`, which may raise. */
  function Amount(env: Env, p: Pattern, text: string): Result<Option<Float>, Error>
  {
    match FirstGroup(env, p, text, 1)
    case None => Ok(None)
    case Some(s) =>
      match env.toFloat(RemoveChars(s, {','}))
      case Ok(x) => Ok(Some(x))
      case Err(msg) => Err(ValueError(msg))
  }

  /** `extract_invoice_data(text)`: the record it returns, or the `ValueError` a conversion raises. */
  function ExtractedInvoice(env: Env, text: string): Result<Invoice, Error>
  {
    match Amount(env, TotalPattern, text)
    case Err(e) => Err(e)
    case Ok(total) =>
      match Amount(env, TaxPattern, text)
      case Err(e) => Err(e)
      case Ok(tax) =>
        Ok(Invoice(FirstGroup(env, InvoicePattern, text, 1), FirstGroup(env, DatePattern, text, 0), total, tax, None, None))
  }

  /**
   * The record is `None` exactly where a pattern has no match, and otherwise holds that pattern's
   * first match: the invoice number's group, the whole date match, and the amounts as `float()`
   * converts them without commas.  Supplier name and id are never set.  A failed conversion of
   * the total raises before the tax is looked at.
   */
  lemma ExtractedInvoiceIs(env: Env, text: string)
    ensures ExtractedInvoice(env, text).Ok? <==> Amount(env, TotalPattern, text).Ok? && Amount(env, TaxPattern, text).Ok?
    ensures Amount(env, TotalPattern, text).Err? ==> ExtractedInvoice(env, text) == Err(Amount(env, TotalPattern, text).error)
    ensures ExtractedInvoice(env, text).Ok? ==>
      var r := ExtractedInvoice(env, text).value;
      && (r.invoiceNumber.None? <==> env.finditer(InvoicePattern, text) == [])
      && (r.invoiceNumber.Some? ==> r.invoiceNumber.value == Group(env.finditer(InvoicePattern, text)[0], 1))
      && (r.date.None? <==> env.finditer(DatePattern, text) == [])
      && (r.date.Some? ==> r.date.value == Group(env.finditer(DatePattern, text)[0], 0))
      && (r.totalAmount.None? <==> env.finditer(TotalPattern, text) == [])
      && (r.totalAmount.Some? ==>
            Ok(r.totalAmount.value) == env.toFloat(RemoveChars(Group(env.finditer(TotalPattern, text)[0], 1), {','})))
      && (r.taxAmount.None? <==> env.finditer(TaxPattern, text) == [])
      && (r.taxAmount.Some? ==>
            Ok(r.taxAmount.value) == env.toFloat(RemoveChars(Group(env.finditer(TaxPattern, text)[0], 1), {','})))
      && r.supplierName.None? && r.supplierId.None?
  {
  }

  /** Whether the two matchers give the same first match (or none) for `p`. */
  predicate SameFirst(env1: Env, env2: Env, p: Pattern, text: string)
  {
    Search(env1, p, text) == Search(env2, p, text)
  }

  /** Each field is set from its first match only: later matches change nothing. */
  lemma FirstMatchOnly(env1: Env, env2: Env, text: string)
    requires SameFirst(env1, env2, InvoicePattern, text) && SameFirst(env1, env2, DatePattern, text)
    requires SameFirst(env1, env2, TotalPattern, text) && SameFirst(env1, env2, TaxPattern, text)
    requires env1.toFloat == env2.toFloat
    ensures ExtractedInvoice(env1, text) == ExtractedInvoice(env2, text)
  {
  }

  /** The assignments as written, on a fresh `InvoiceData`. */
  method ExtractInvoiceData(env: Env, text: string) returns (r: Result<InvoiceData, Error>)
    ensures r.Ok? <==> ExtractedInvoice(env, text).Ok?
    ensures r.Ok? ==> fresh(r.value) && r.value.Snapshot() == ExtractedInvoice(env, text).value
    ensures r.Err? ==> r.error == ExtractedInvoice(env, text).error
  {
    var invoiceData := new InvoiceData();

    var invoiceMatch := Search(env, InvoicePattern, text);
    if invoiceMatch.Some? {
      invoiceData.invoiceNumber := Some(Group(invoiceMatch.value, 1));
    }

    var dateMatch := Search(env, DatePattern, text);
    if dateMatch.Some? {
      invoiceData.date := Some(Group(dateMatch.value, 0));
    }

    var totalMatch := Search(env, TotalPattern, text);
    if totalMatch.Some? {
      var amountStr := RemoveChars(Group(totalMatch.value, 1), {','});
      var amount := env.toFloat(amountStr);
      if amount.Err? {
        return Err(ValueError(amount.error));
      }
      invoiceData.totalAmount := Some(amount.value);
    }

    var taxMatch := Search(env, TaxPattern, text);
    if taxMatch.Some? {
      var taxStr := RemoveChars(Group(taxMatch.value, 1), {','});
      var tax := env.toFloat(taxStr);
      if tax.Err? {
        return Err(ValueError(tax.error));
      }
      invoiceData.taxAmount := Some(tax.value);
    }

    r := Ok(invoiceData);
  }

  // ------------------------------------------------------------------ CSV export

  /** `InvoiceData.__annotations__.keys()`: the six fields in declaration order. */
  const Columns: seq<string> := ["invoice_number", "date", "total_amount", "tax_amount", "supplier_name", "supplier_id"]

  function OptFloat(o: Option<Float>): Value
  {
    if o.Some? then Scalar(Real(o.value)) else Scalar(Null)
  }

  /** `invoice.__dict__`: each field under its own name, in declaration order. */
  function AsDict(v: Invoice): Items
  {
    [(Columns[0], OptStr(v.invoiceNumber)), (Columns[1], OptStr(v.date)),
     (Columns[2], OptFloat(v.totalAmount)), (Columns[3], OptFloat(v.taxAmount)),
     (Columns[4], OptStr(v.supplierName)), (Columns[5], OptStr(v.supplierId))]
  }

  /** A text cell: `''` for `None`. */
  function TextCell(o: Option<string>): string
  {
    if o.Some? then o.value else ""
  }

  /** An amount cell: `''` for `None`, else the float's `repr`. */
  function FloatCell(o: Option<Float>): string
  {
    if o.Some? then o.value.repr else ""
  }

  /** Six values under the columns, in order, are written as their six cells. */
  lemma SixCells(a: Value, b: Value, c: Value, d: Value, e: Value, f: Value)
    ensures var es := [(Columns[0], a), (Columns[1], b), (Columns[2], c), (Columns[3], d), (Columns[4], e), (Columns[5], f)];
      Keys(es) == Columns
      && CsvRow(Columns, es) == [CsvCell(a), CsvCell(b), CsvCell(c), CsvCell(d), CsvCell(e), CsvCell(f)]
  {
    SixDistinct(Columns);
    SixUnder(Columns, a, b, c, d, e, f);
  }

  /** The column names are six distinct names. */
  lemma SixDistinct(ks: seq<string>)
    requires ks == Columns
    ensures |ks| == 6 && forall i, j :: 0 <= i < j < 6 ==> ks[i] != ks[j]
  {
  }

  /** The six cells of a record, field by field. */
  function Cells(v: Invoice): seq<string>
  {
    [TextCell(v.invoiceNumber), TextCell(v.date), FloatCell(v.totalAmount),
     FloatCell(v.taxAmount), TextCell(v.supplierName), TextCell(v.supplierId)]
  }

  /**
   * The record's dictionary has exactly the columns as keys, so `writerow` never rejects it, and
   * each cell is the field of the same position.
   */
  lemma RowOfInvoice(v: Invoice)
    ensures Keys(AsDict(v)) == Columns
    ensures CsvRow(Columns, AsDict(v)) == Cells(v)
  {
    SixCells(OptStr(v.invoiceNumber), OptStr(v.date), OptFloat(v.totalAmount), OptFloat(v.taxAmount),
      OptStr(v.supplierName), OptStr(v.supplierId));
    TextCellIs(v.invoiceNumber);
    TextCellIs(v.date);
    FloatCellIs(v.totalAmount);
    FloatCellIs(v.taxAmount);
    TextCellIs(v.supplierName);
    TextCellIs(v.supplierId);
  }

  lemma TextCellIs(o: Option<string>)
    ensures CsvCell(OptStr(o)) == TextCell(o)
  {
  }

  lemma FloatCellIs(o: Option<Float>)
    ensures CsvCell(OptFloat(o)) == FloatCell(o)
  {
  }

  /** `export_to_csv(invoice_data, output_path)`: the header, then one row per record in list order. */
  method ExportToCsv(invoices: seq<InvoiceData>) returns (header: seq<string>, rows: seq<seq<string>>)
    ensures header == Columns
    ensures |rows| == |invoices|
    ensures forall i :: 0 <= i < |invoices| ==> rows[i] == Cells(invoices[i].Snapshot())
  {
    header := Columns;
    rows := [];
    for i := 0 to |invoices|
      invariant |rows| == i
      invariant forall j :: 0 <= j < i ==> rows[j] == Cells(invoices[j].Snapshot())
    {
      RowOfInvoice(invoices[i].Snapshot());
      rows := rows + [CsvRow(Columns, AsDict(invoices[i].Snapshot()))];
    }
  }
}
