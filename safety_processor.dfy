/**
 * `process_safety_doc`: the safety-document extractor.  A document-number cascade, two labelled
 * dates read day-first, four labelled free-text fields and the list of safety measures.
 */
module SafetyProcessor {
  import opened Wrappers
  import opened Foreign
  import opened Strings
  import opened Matching
  import opened Dates

  /** The `data` dictionary; every one of its nine keys is always present. */
  datatype SafetyRecord = SafetyRecord(
    documentType: string,
    documentNumber: Option<string>,
    date: Option<string>,
    expiryDate: Option<string>,
    issuer: Option<string>,
    safetyCategory: Option<string>,
    complianceStatus: Option<string>,
    inspectionDetails: Option<string>,
    safetyMeasures: seq<string>)

  const Initial: SafetyRecord := SafetyRecord("safety", None, None, None, None, None, None, None, [])

  /** Certificate, Safety Doc, Document ID: searched in this order, case-insensitively. */
  const DocPatterns: seq<Pattern> := [
    Pattern(@"Certificate\s*(?:No|Number)[.:]?\s*([A-Z0-9-]+)", true, false),
    Pattern(@"Safety\s*Doc[.:]?\s*([A-Z0-9-]+)", true, false),
    Pattern(@"Document\s*ID[.:]?\s*([A-Z0-9-]+)", true, false)
  ]

  const DatePattern: Pattern := Pattern(@"(?:Date|Issued)[:\s]*(\d{1,2}[-/]\d{1,2}[-/]\d{2,4})", true, false)
  const ExpiryPattern: Pattern := Pattern(@"(?:Expiry|Valid Until)[:\s]*(\d{1,2}[-/]\d{1,2}[-/]\d{2,4})", true, false)
  const IssuerPattern: Pattern := Pattern(@"(?:Issued By|Certifier)[:\s]*([^\n]+)", true, false)
  const CategoryPattern: Pattern := Pattern(@"(?:Category|Type)[:\s]*([^\n]+)", true, false)
  const StatusPattern: Pattern := Pattern(@"(?:Status|Compliance)[:\s]*([^\n]+)", true, false)
  const InspectionPattern: Pattern := Pattern(@"(?:Inspection|Assessment)[:\s]*([^\n]+(?:\n[^\n]+)*)", true, false)

  /** A bullet or a numbered line; searched case-sensitively. */
  const MeasurePattern: Pattern := Pattern(@"(?:•|\d+\.)\s*([^\n]+)", false, false)

  /** Day-first formats before the year-first ones, in the order they are tried. */
  const DateFormats: seq<string> := ["%d/%m/%Y", "%Y-%m-%d", "%d-%m-%Y", "%d/%m/%y", "%y-%m-%d", "%d-%m-%y"]

  /** `parse_date(date_str)`: the first format that fits, as `YYYY-MM-DD`, or `None`. */
  function ParseDate(strptime: (string, string) -> Option<Date>, s: string): (r: Option<string>)
    ensures r.None? <==> forall j :: 0 <= j < |DateFormats| ==> strptime(s, DateFormats[j]).None?
    ensures r.Some? ==> exists k :: (0 <= k < |DateFormats| && ParseIso(r.value) == strptime(s, DateFormats[k])
      && forall j :: 0 <= j < k ==> strptime(s, DateFormats[j]).None?)
  {
    ParseToIso(strptime, DateFormats, s)
  }

  /** A labelled date: `None` when the label is absent or the capture fits no format. */
  function LabelledDate(env: Env, p: Pattern, text: string): (r: Option<string>)
    ensures r.Some? <==> (Search(env, p, text).Some?
      && ParseFirst(env.strptime, DateFormats, Group(Search(env, p, text).value, 1)).Some?)
  {
    var m := Search(env, p, text);
    if m.Some? then ParseDate(env.strptime, Group(m.value, 1)) else None
  }

  /** `[m.strip() for m in re.findall(...) if len(m.strip()) > 5]`. */
  function Measures(env: Env, text: string): seq<string>
  {
    KeepStripped(FindAllGroup1(env, MeasurePattern, text), 5)
  }

  /** The record `process_safety_doc` returns. */
  function SafetyFields(env: Env, text: string): SafetyRecord
  {
    Initial.(
      documentNumber := StrippedGroup1(FirstMatch(env, DocPatterns, text)),
      date := LabelledDate(env, DatePattern, text),
      expiryDate := LabelledDate(env, ExpiryPattern, text),
      issuer := StrippedGroup1(Search(env, IssuerPattern, text)),
      safetyCategory := StrippedGroup1(Search(env, CategoryPattern, text)),
      complianceStatus := StrippedGroup1(Search(env, StatusPattern, text)),
      inspectionDetails := StrippedGroup1(Search(env, InspectionPattern, text)),
      safetyMeasures := Measures(env, text))
  }

  /** `m = re.search(p, text)` followed by `if m: data[key] = parse_date(m.group(1))`. */
  method DateField(env: Env, p: Pattern, text: string) returns (v: Option<string>)
    ensures v == LabelledDate(env, p, text)
  {
    v := None;
    var m := Search(env, p, text);
    if m.Some? {
      v := ParseDate(env.strptime, Group(m.value, 1));
    }
  }

  /** `process_safety_doc(text)`, setting the fields one after the other. */
  method ProcessSafetyDoc(env: Env, text: string) returns (data: SafetyRecord)
    ensures data == SafetyFields(env, text)
  {
    data := Initial;
    var m := SearchCascade(env, DocPatterns, text);
    if m.Some? {
      data := data.(documentNumber := Some(Strip(Group(m.value, 1))));
    }
    var date := DateField(env, DatePattern, text);
    var expiryDate := DateField(env, ExpiryPattern, text);
    data := data.(date := date, expiryDate := expiryDate);
    var issuer := StrippedField(env, IssuerPattern, text);
    var category := StrippedField(env, CategoryPattern, text);
    var status := StrippedField(env, StatusPattern, text);
    var inspection := StrippedField(env, InspectionPattern, text);
    data := data.(issuer := issuer, safetyCategory := category, complianceStatus := status, inspectionDetails := inspection);
    data := data.(safetyMeasures := KeepStripped(FindAllGroup1(env, MeasurePattern, text), 5));
  }

  // ---------------------------------------------------------------- properties

  /**
   * The document number is that of the first pattern, in the order Certificate, Safety Doc,
   * Document ID, that matches; later patterns are not consulted.
   */
  lemma DocumentNumberCascade(env: Env, text: string, k: nat)
    requires k < |DocPatterns| && Search(env, DocPatterns[k], text).Some?
    requires forall j :: 0 <= j < k ==> Search(env, DocPatterns[j], text).None?
    ensures SafetyFields(env, text).documentNumber == Some(Strip(Group(Search(env, DocPatterns[k], text).value, 1)))
  {
    FirstHitIs(env, DocPatterns, text, k);
  }

  /**
   * The measures are exactly the captured items whose stripped text is longer than five
   * characters, stripped: each has at least six characters and no surrounding whitespace.
   */
  lemma MeasuresExact(env: Env, text: string)
    ensures var raw, ms := FindAllGroup1(env, MeasurePattern, text), Measures(env, text);
      (forall i :: 0 <= i < |ms| ==> |ms[i]| >= 6 && NotSpace(ms[i][0]) && NotSpace(ms[i][|ms[i]| - 1]))
      && (forall i :: 0 <= i < |ms| ==> exists j :: 0 <= j < |raw| && ms[i] == Strip(raw[j]))
      && (forall j :: 0 <= j < |raw| && |Strip(raw[j])| > 5 ==> Strip(raw[j]) in ms)
  {
    var ms := Measures(env, text);
    forall i | 0 <= i < |ms| ensures NotSpace(ms[i][0]) && NotSpace(ms[i][|ms[i]| - 1]) {
      var m := ms[i];
      assert Strip(m) == m && m != [];
    }
  }

  /**
   * Slash dates are read day-first: a string that `%d/%m/%Y` accepts is rendered from that
   * parse, whatever the later formats would say.
   */
  lemma DayFirst(strptime: (string, string) -> Option<Date>, s: string)
    requires strptime(s, "%d/%m/%Y").Some?
    ensures ParseDate(strptime, s) == Some(IsoDate(strptime(s, "%d/%m/%Y").value))
  {
    ParseFirstIs(strptime, DateFormats, s, 0);
  }
}
