/**
 * `process_invoice`: the invoice extractor of the per-category pipeline.  It fills a ten-field
 * record from the recognised text, using ordered pattern cascades, a date loop without `break`,
 * a last-match total and two item patterns whose matches are converted one by one.
 */
module InvoiceProcessor {
  import opened Wrappers
  import opened Errors
  import opened Foreign
  import opened Seqs
  import opened Strings
  import opened Matching
  import opened Dates

  /** One entry of `items`: `quantity`, `description`, `unit_price` and `total`. */
  datatype InvoiceItem = InvoiceItem(quantity: int, description: string, unitPrice: Float, total: Float)

  /** The `data` dictionary; every one of its ten keys is always present. */
  datatype InvoiceRecord = InvoiceRecord(
    documentType: string,
    invoiceNumber: Option<string>,
    date: Option<string>,
    dueDate: Option<string>,
    total: Option<Float>,
    subtotal: Option<Float>,
    tax: Option<Float>,
    items: seq<InvoiceItem>,
    vendor: Option<string>,
    billTo: Option<string>)

  /** The record as it is initialised, before any field is extracted. */
  const Initial: InvoiceRecord :=
    InvoiceRecord("invoice", None, None, None, None, None, None, [], None, None)

  const InvoicePatterns: seq<Pattern> := [
    Pattern(@"(?:Invoice|Bill|Receipt|Invoice #).*?[:#]?\s*([A-Z0-9-]+)", true, false),
    Pattern(@"Document\s*(?:No|Number)[.:]?\s*([A-Z0-9-]+)", true, false),
    Pattern(@"TD(\d+)", true, false),
    Pattern(@"No[.:]\s*(\d+)", true, false)
  ]

  /** The label alternation every date pattern starts with. */
  const DateLabel: string := @"(?:Date|Invoice Date|Due Date)[:\s]*"

  const DatePatterns: seq<Pattern> := [
    Pattern(DateLabel + @"(\d{1,2}[-/]\d{1,2}[-/]\d{2,4})", true, false),
    Pattern(DateLabel + @"(\d{1,2}\s+(?:Jan|Feb|Mar|Apr|May|Jun|Jul|Aug|Sep|Oct|Nov|Dec)[a-z]*\s+\d{4})", true, false),
    Pattern(DateLabel + @"(\d{4}[-/]\d{2}[-/]\d{2})", true, false),
    Pattern(DateLabel + @"(\d{1,2}[-/]\d{1,2}[-/]\d{2})", true, false)
  ]

  const TotalPattern: Pattern := Pattern(@"(?:Total|Amount|Sum)[^0-9]*?(\d+\.?\d*)", true, false)
  const SubtotalPattern: Pattern := Pattern(@"(?:Subtotal|Net)[^0-9]*?(\d+\.?\d*)", true, false)
  const TaxPattern: Pattern := Pattern(@"(?:Tax|VAT|GST)[^)]*\)\s*[^0-9]*?(\d+\.?\d*)", true, false)

  /** Searched case-sensitively. */
  const VendorPatterns: seq<Pattern> := [
    Pattern(@"(?:Vendor|Seller|Company):\s*([^\n]+)", false, false),
    Pattern(@"^([A-Z\s&]+)(?:\n|$)", false, false),
    Pattern(@"([A-Z][A-Za-z\s&]+)\nAddress", false, false)
  ]

  /** Searched case-sensitively. */
  const ItemPatterns: seq<Pattern> := [
    Pattern(@"(\d+)\s+([A-Za-z\s]+)\s+(\d+\.?\d*)\s+(\d+\.?\d*)", false, false),
    Pattern(@"([A-Za-z\s]+)\s+(\d+)\s+(?:@\s*)?(\d+\.?\d*)\s+(\d+\.?\d*)", false, false)
  ]

  /** The formats of `parse_date`, in the order they are tried. */
  const DateFormats: seq<string> :=
    ["%B %d, %Y", "%m/%d/%Y", "%m/%d/%y", "%m-%d-%Y", "%m-%d-%y", "%Y-%m-%d", "%d %b %Y", "%d %B %Y"]

  /**
   * `parse_date(date_str)`: the date under the first format that fits, as `YYYY-MM-DD`
   * (ISO 8601:2004, section 4.1.2.2), or `None` when no format fits; it never raises.
   */
  function ParseDate(strptime: (string, string) -> Option<Date>, s: string): (r: Option<string>)
    ensures r.None? <==> forall j :: 0 <= j < |DateFormats| ==> strptime(s, DateFormats[j]).None?
    ensures r.Some? ==> exists k :: (0 <= k < |DateFormats| && ParseIso(r.value) == strptime(s, DateFormats[k])
      && forall j :: 0 <= j < k ==> strptime(s, DateFormats[j]).None?)
  {
    ParseToIso(strptime, DateFormats, s)
  }

  /**
   * `extract_final_total(text)`: the amount of the LAST total-like match (with two or more
   * matches the last, with one the only one), `None` without a match; the conversion is not
   * guarded, so its `ValueError` propagates.
   */
  function ExtractFinalTotal(env: Env, text: string): (r: Result<Option<Float>, Error>)
    ensures env.finditer(TotalPattern, text) == [] <==> r == Ok(None)
    ensures var ms := env.finditer(TotalPattern, text);
      ms != [] ==> match ToAmount(env, Group(ms[|ms| - 1], 1))
                   case Ok(x) => r == Ok(Some(x))
                   case Err(e) => r == Err(e)
  {
    var ms := env.finditer(TotalPattern, text);
    if |ms| > 1 then
      var a := ToAmount(env, Group(ms[|ms| - 1], 1));
      if a.Ok? then Ok(Some(a.value)) else Err(a.error)
    else if |ms| == 1 then
      var a := ToAmount(env, Group(ms[0], 1));
      if a.Ok? then Ok(Some(a.value)) else Err(a.error)
    else Ok(None)
  }

  /** Whether the date loop stores a match of `p` into `due_date` (`'Due Date' in pattern`). */
  predicate RoutesToDue(p: Pattern)
  {
    Contains(p.source, "Due Date")
  }

  /**
   * The value the date loop leaves in `due_date` (`due`) or in `date` (`!due`) after going
   * through `ps`: that of the last matching pattern routed to that slot.
   */
  function DateSlot(env: Env, ps: seq<Pattern>, text: string, due: bool): Option<string>
  {
    if ps == [] then None
    else
      var p := ps[|ps| - 1];
      var m := Search(env, p, text);
      if m.Some? && RoutesToDue(p) == due then ParseDate(env.strptime, Group(m.value, 1))
      else DateSlot(env, ps[..|ps| - 1], text, due)
  }

  /** One item match converted: `None` where `int()`/`float()` raises and the loop `continue`s. */
  function ItemOf(env: Env, m: Match): (r: Option<InvoiceItem>)
    ensures r.Some? ==> (|m.groups| == 5 && env.toInt(Group(m, 1)) == Ok(r.value.quantity)
      && r.value.description == Strip(Group(m, 2))
      && env.toFloat(Group(m, 3)) == Ok(r.value.unitPrice) && env.toFloat(Group(m, 4)) == Ok(r.value.total))
    ensures r.None? <==> (|m.groups| != 5 || env.toInt(Group(m, 1)).Err?
      || env.toFloat(Group(m, 3)).Err? || env.toFloat(Group(m, 4)).Err?)
  {
    if |m.groups| == 5 then
      var q, u, t := env.toInt(Group(m, 1)), env.toFloat(Group(m, 3)), env.toFloat(Group(m, 4));
      if q.Ok? && u.Ok? && t.Ok? then Some(InvoiceItem(q.value, Strip(Group(m, 2)), u.value, t.value)) else None
    else None
  }

  /** `ItemOf` with `env` fixed, as the function the item loops apply to every match. */
  function ItemConversion(env: Env): Match -> Option<InvoiceItem>
  {
    m => ItemOf(env, m)
  }

  /** The items of the matches of `ps`, pattern by pattern, each pattern's matches in text order. */
  function ItemsOf(env: Env, ps: seq<Pattern>, text: string): seq<InvoiceItem>
  {
    if ps == [] then []
    else ItemsOf(env, ps[..|ps| - 1], text) + Choose(ItemConversion(env), env.finditer(ps[|ps| - 1], text))
  }

  /** The record `process_invoice` returns, or the exception it raises. */
  function InvoiceFields(env: Env, text: string): Result<InvoiceRecord, Error>
  {
    var total := ExtractFinalTotal(env, text);
    if total.Err? then Err(total.error)
    else
      Ok(Initial.(
        invoiceNumber := StrippedGroup1(FirstMatch(env, InvoicePatterns, text)),
        date := DateSlot(env, DatePatterns, text, false),
        dueDate := DateSlot(env, DatePatterns, text, true),
        total := total.value,
        subtotal := GuardedAmount(env, SubtotalPattern, text),
        tax := GuardedAmount(env, TaxPattern, text),
        vendor := StrippedGroup1(FirstMatch(env, VendorPatterns, text)),
        items := ItemsOf(env, ItemPatterns, text)))
  }

  /**
   * The date loop: every pattern that matches has its capture parsed and stored according to
   * `'Due Date' in pattern`; there is no `break`, so a later match overwrites an earlier one.
   */
  method ExtractDates(env: Env, text: string) returns (date: Option<string>, dueDate: Option<string>)
    ensures date == DateSlot(env, DatePatterns, text, false)
    ensures dueDate == DateSlot(env, DatePatterns, text, true)
  {
    date, dueDate := DatesLoop(env, DatePatterns, text);
  }

  /** The date loop over the patterns `ps`. */
  method DatesLoop(env: Env, ps: seq<Pattern>, text: string) returns (date: Option<string>, dueDate: Option<string>)
    ensures date == DateSlot(env, ps, text, false)
    ensures dueDate == DateSlot(env, ps, text, true)
  {
    date, dueDate := None, None;
    var i := 0;
    while i < |ps|
      invariant 0 <= i <= |ps|
      invariant date == DateSlot(env, ps[..i], text, false)
      invariant dueDate == DateSlot(env, ps[..i], text, true)
    {
      var p := ps[i];
      assert ps[..i + 1][..i] == ps[..i];
      var m := Search(env, p, text);
      if m.Some? {
        var parsed := ParseDate(env.strptime, Group(m.value, 1));
        if Contains(p.source, "Due Date") {
          dueDate := parsed;
        } else {
          date := parsed;
        }
      }
      i := i + 1;
    }
    assert ps[..|ps|] == ps;
  }

  /** The item loops: for each pattern, for each match in text order, append it if it converts. */
  method ExtractItems(env: Env, text: string) returns (items: seq<InvoiceItem>)
    ensures items == ItemsOf(env, ItemPatterns, text)
  {
    items := ItemsLoop(env, ItemPatterns, text);
  }

  /** The item loops over the patterns `ps`. */
  method ItemsLoop(env: Env, ps: seq<Pattern>, text: string) returns (items: seq<InvoiceItem>)
    ensures items == ItemsOf(env, ps, text)
  {
    items := [];
    var k := 0;
    while k < |ps|
      invariant 0 <= k <= |ps|
      invariant items == ItemsOf(env, ps[..k], text)
    {
      var ms := env.finditer(ps[k], text);
      items := AppendChosen(ItemConversion(env), items, ms);
      assert ps[..k + 1][..k] == ps[..k];
      k := k + 1;
    }
    assert ps[..k] == ps;
  }

  /** `process_invoice(text)`, filling the record field by field as the source does. */
  method ProcessInvoice(env: Env, text: string) returns (r: Result<InvoiceRecord, Error>)
    ensures r == InvoiceFields(env, text)
  {
    var data := Initial;

    var m := SearchCascade(env, InvoicePatterns, text);
    if m.Some? {
      data := data.(invoiceNumber := Some(Strip(Group(m.value, 1))));
    }

    var date, dueDate := ExtractDates(env, text);
    data := data.(date := date, dueDate := dueDate);

    var total := ExtractFinalTotal(env, text);
    if total.Err? {
      return Err(total.error);
    }
    data := data.(total := total.value);

    var subtotal := AmountField(env, SubtotalPattern, text);
    var tax := AmountField(env, TaxPattern, text);
    data := data.(subtotal := subtotal, tax := tax);

    var vm := SearchCascade(env, VendorPatterns, text);
    if vm.Some? {
      data := data.(vendor := Some(Strip(Group(vm.value, 1))));
    }

    var items := ExtractItems(env, text);
    data := data.(items := items);
    r := Ok(data);
  }

  // ---------------------------------------------------------------- properties

  /** Each date pattern literal mentions `Due Date`. */
  lemma AllRouteToDue()
    ensures forall i :: 0 <= i < |DatePatterns| ==> RoutesToDue(DatePatterns[i])
  {
    assert DateLabel[21..29] == "Due Date";
    forall i | 0 <= i < |DatePatterns| ensures RoutesToDue(DatePatterns[i]) {
      var src := DatePatterns[i].source;
      assert src[..|DateLabel|] == DateLabel;
      assert src[21..29] == DateLabel[21..29];
      assert OccursAt(src, "Due Date", 21);
    }
  }

  /** With every pattern routed to `due_date`, the `date` slot is never written. */
  lemma {:induction false} DateNeverSet(env: Env, ps: seq<Pattern>, text: string)
    requires forall i :: 0 <= i < |ps| ==> RoutesToDue(ps[i])
    ensures DateSlot(env, ps, text, false) == None
  {
    if ps != [] {
      DateNeverSet(env, ps[..|ps| - 1], text);
    }
  }

  /**
   * `due_date` holds the parse of the LAST matching pattern's capture, even when that parse is
   * `None` and an earlier one succeeded; with no match it stays `None`.
   */
  lemma {:induction false} DueDateFromLast(env: Env, ps: seq<Pattern>, text: string, k: nat)
    requires forall i :: 0 <= i < |ps| ==> RoutesToDue(ps[i])
    requires k < |ps| && Search(env, ps[k], text).Some?
    requires forall j :: k < j < |ps| ==> Search(env, ps[j], text).None?
    ensures DateSlot(env, ps, text, true) == ParseDate(env.strptime, Group(Search(env, ps[k], text).value, 1))
    decreases |ps|
  {
    if k < |ps| - 1 {
      var init := ps[..|ps| - 1];
      forall j | k < j < |init| ensures Search(env, init[j], text).None? {
        assert init[j] == ps[j];
      }
      assert init[k] == ps[k];
      DueDateFromLast(env, init, text, k);
    }
  }

  lemma {:induction false} DueDateUnmatched(env: Env, ps: seq<Pattern>, text: string, due: bool)
    requires forall j :: 0 <= j < |ps| ==> Search(env, ps[j], text).None?
    ensures DateSlot(env, ps, text, due) == None
  {
    if ps != [] {
      var init := ps[..|ps| - 1];
      assert forall j :: 0 <= j < |init| ==> init[j] == ps[j];
      DueDateUnmatched(env, init, text, due);
    }
  }

  /**
   * The shape of every record `process_invoice` returns: document type `invoice`, `date` and
   * `bill_to` never set, `due_date` from the last matching date pattern (or `None`), and the
   * cascades resolved by their first matching pattern.
   */
  lemma InvoiceRecordShape(env: Env, text: string)
    requires InvoiceFields(env, text).Ok?
    ensures var d := InvoiceFields(env, text).value;
      d.documentType == "invoice" && d.date == None && d.billTo == None
      && (d.dueDate.Some? ==> exists k :: 0 <= k < |DatePatterns| && Search(env, DatePatterns[k], text).Some?)
      && (d.invoiceNumber.None? <==> forall j :: 0 <= j < |InvoicePatterns| ==> Search(env, InvoicePatterns[j], text).None?)
      && (d.vendor.None? <==> forall j :: 0 <= j < |VendorPatterns| ==> Search(env, VendorPatterns[j], text).None?)
  {
    AllRouteToDue();
    DateNeverSet(env, DatePatterns, text);
    if forall j :: 0 <= j < |DatePatterns| ==> Search(env, DatePatterns[j], text).None? {
      DueDateUnmatched(env, DatePatterns, text, true);
    }
  }

  /** `due_date` is decided by the last date pattern that matches. */
  lemma InvoiceDueDate(env: Env, text: string, k: nat)
    requires InvoiceFields(env, text).Ok?
    requires k < |DatePatterns| && Search(env, DatePatterns[k], text).Some?
    requires forall j :: k < j < |DatePatterns| ==> Search(env, DatePatterns[j], text).None?
    ensures InvoiceFields(env, text).value.dueDate == ParseDate(env.strptime, Group(Search(env, DatePatterns[k], text).value, 1))
  {
    AllRouteToDue();
    DueDateFromLast(env, DatePatterns, text, k);
  }

  /**
   * Only the total can abort extraction: `process_invoice` raises exactly when there is a
   * total-like match and the last one does not convert; subtotal, tax and item failures never do.
   */
  lemma InvoiceFailsOnlyOnTotal(env: Env, text: string)
    ensures var ms := env.finditer(TotalPattern, text);
      InvoiceFields(env, text).Err? <==> (ms != [] && ToAmount(env, Group(ms[|ms| - 1], 1)).Err?)
  {
  }

  /**
   * The items are all those of the first item pattern's matches followed by those of the
   * second's; every match whose conversion succeeds contributes, the others are skipped.
   */
  lemma InvoiceItems(env: Env, text: string)
    ensures ItemsOf(env, ItemPatterns, text)
      == Choose(ItemConversion(env), env.finditer(ItemPatterns[0], text))
       + Choose(ItemConversion(env), env.finditer(ItemPatterns[1], text))
  {
    ItemsOfPair(env, ItemPatterns, text);
  }

  lemma ItemsOfPair(env: Env, ps: seq<Pattern>, text: string)
    requires |ps| == 2
    ensures ItemsOf(env, ps, text)
      == Choose(ItemConversion(env), env.finditer(ps[0], text)) + Choose(ItemConversion(env), env.finditer(ps[1], text))
  {
    ItemsOfSingle(env, ps[..1], text);
    ItemsOfSnoc(env, ps, text);
  }

  lemma ItemsOfSingle(env: Env, ps: seq<Pattern>, text: string)
    requires |ps| == 1
    ensures ItemsOf(env, ps, text) == Choose(ItemConversion(env), env.finditer(ps[0], text))
  {
    assert ps[..0] == [];
  }

  lemma ItemsOfSnoc(env: Env, ps: seq<Pattern>, text: string)
    requires |ps| == 2
    ensures ItemsOf(env, ps, text) == ItemsOf(env, ps[..1], text) + Choose(ItemConversion(env), env.finditer(ps[1], text))
  {
  }

}
