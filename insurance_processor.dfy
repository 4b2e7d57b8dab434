/**
 * `process_insurance_doc`: the insurance-policy extractor.  A policy-number cascade, labelled
 * parties and dates, two guarded amounts, and the beneficiaries and terms lists cut from their
 * sections.
 */
module InsuranceProcessor {
  import opened Wrappers
  import opened Foreign
  import opened Seqs
  import opened Strings
  import opened Matching
  import opened Dates

  /** The `data` dictionary; every one of its eleven keys is always present. */
  datatype InsuranceRecord = InsuranceRecord(
    documentType: string,
    policyNumber: Option<string>,
    insurer: Option<string>,
    insured: Option<string>,
    coverageType: Option<string>,
    startDate: Option<Date>,
    endDate: Option<Date>,
    premium: Option<Float>,
    coverageAmount: Option<Float>,
    beneficiaries: seq<string>,
    terms: seq<string>)

  const Initial: InsuranceRecord := InsuranceRecord("insurance", None, None, None, None, None, None, None, None, [], [])

  const PolicyPatterns: seq<Pattern> := [
    Pattern(@"Policy\s*(?:No|Number)[.:]?\s*([A-Z0-9-]+)", true, false),
    Pattern(@"Insurance\s*ID[.:]?\s*([A-Z0-9-]+)", true, false),
    Pattern(@"Certificate\s*Number[.:]?\s*([A-Z0-9-]+)", true, false)
  ]

  const InsurerPattern: Pattern := Pattern(@"(?:Insurer|Insurance Company)[:\s]*([^\n]+)", true, false)
  const InsuredPattern: Pattern := Pattern(@"(?:Insured|Policy Holder)[:\s]*([^\n]+)", true, false)
  const CoveragePattern: Pattern := Pattern(@"(?:Coverage|Insurance Type)[:\s]*([^\n]+)", true, false)
  const StartPattern: Pattern := Pattern(@"(?:Start Date|Effective From)[:\s]*(\d{1,2}[-/]\d{1,2}[-/]\d{2,4})", true, false)
  const EndPattern: Pattern := Pattern(@"(?:End Date|Valid Until|Expiry)[:\s]*(\d{1,2}[-/]\d{1,2}[-/]\d{2,4})", true, false)
  const PremiumPattern: Pattern := Pattern(@"Premium[:\s]*\$?\s*([\d,]+\.?\d*)", true, false)
  const CoverageAmountPattern: Pattern := Pattern(@"(?:Coverage Amount|Sum Insured)[:\s]*\$?\s*([\d,]+\.?\d*)", true, false)
  const BeneficiariesPattern: Pattern := Pattern(@"Beneficiaries:(.*?)(?:\n\n|\Z)", true, true)
  const TermsPattern: Pattern := Pattern(@"(?:Terms|Conditions|Terms and Conditions):(.*?)(?:\n\n|\Z)", true, true)

  /** A numbered, dashed or starred line of the terms section; searched case-sensitively. */
  const TermPattern: Pattern := Pattern(@"[\d\.\-\*]\s*([^\n]+)", false, false)

  /** Four day-first formats, with month-first variants after their day-first counterparts. */
  const DateFormats: seq<string> :=
    ["%d/%m/%Y", "%d-%m-%Y", "%m/%d/%Y", "%m-%d-%Y", "%d/%m/%y", "%d-%m-%y", "%m/%d/%y", "%m-%d-%y"]

  /** `parse_date(date_str)`: the `date` under the first format that fits, or `None`. */
  function ParseDate(strptime: (string, string) -> Option<Date>, s: string): (r: Option<Date>)
    ensures r.None? <==> forall j :: 0 <= j < |DateFormats| ==> strptime(s, DateFormats[j]).None?
    ensures r.Some? ==> exists k :: (0 <= k < |DateFormats| && r == strptime(s, DateFormats[k])
      && forall j :: 0 <= j < k ==> strptime(s, DateFormats[j]).None?)
  {
    ParseFirst(strptime, DateFormats, s)
  }

  /** A labelled date: `None` when the label is absent or the capture fits no format. */
  function LabelledDate(env: Env, p: Pattern, text: string): (r: Option<Date>)
    ensures r.Some? <==> (Search(env, p, text).Some?
      && ParseFirst(env.strptime, DateFormats, Group(Search(env, p, text).value, 1)).Some?)
  {
    var m := Search(env, p, text);
    if m.Some? then ParseDate(env.strptime, Group(m.value, 1)) else None
  }

  /** The characters that end a beneficiary: the comma and the newline. */
  predicate IsListSep(c: char)
  {
    c == ',' || c == '\n'
  }

  predicate NotListSep(c: char)
  {
    !IsListSep(c)
  }

  /**
   * `re.findall(r'([^\n,]+)(?:,|\n|$)', section)`: since the run is greedy, every match is a
   * maximal run of characters other than the comma and the newline, so the matches are
   * exactly the tokens of the section between those separators.
   */
  function BeneficiaryRuns(section: string): (runs: seq<string>)
    ensures Flatten(runs) == Filter(NotListSep, section)
  {
    TokensKeep(section, IsListSep, NotListSep);
    Tokens(section, IsListSep)
  }

  /** The beneficiaries list: `[]` without a section, else its stripped non-empty runs. */
  function Beneficiaries(env: Env, text: string): seq<string>
  {
    var m := Search(env, BeneficiariesPattern, text);
    if m.Some? then KeepStripped(BeneficiaryRuns(Group(m.value, 1)), 0) else []
  }

  /** The terms list: `[]` without a section, else the stripped non-empty items of the section. */
  function Terms(env: Env, text: string): seq<string>
  {
    var m := Search(env, TermsPattern, text);
    if m.Some? then KeepStripped(FindAllGroup1(env, TermPattern, Group(m.value, 1)), 0) else []
  }

  /** The record `process_insurance_doc` returns. */
  function InsuranceFields(env: Env, text: string): InsuranceRecord
  {
    Initial.(
      policyNumber := StrippedGroup1(FirstMatch(env, PolicyPatterns, text)),
      insurer := StrippedGroup1(Search(env, InsurerPattern, text)),
      insured := StrippedGroup1(Search(env, InsuredPattern, text)),
      coverageType := StrippedGroup1(Search(env, CoveragePattern, text)),
      startDate := LabelledDate(env, StartPattern, text),
      endDate := LabelledDate(env, EndPattern, text),
      premium := GuardedAmount(env, PremiumPattern, text),
      coverageAmount := GuardedAmount(env, CoverageAmountPattern, text),
      beneficiaries := Beneficiaries(env, text),
      terms := Terms(env, text))
  }

  /** `m = re.search(p, text)` followed by `if m: data[key] = parse_date(m.group(1))`. */
  method DateField(env: Env, p: Pattern, text: string) returns (v: Option<Date>)
    ensures v == LabelledDate(env, p, text)
  {
    v := None;
    var m := Search(env, p, text);
    if m.Some? {
      v := ParseDate(env.strptime, Group(m.value, 1));
    }
  }

  /** `process_insurance_doc(text)`, setting the fields one after the other. */
  method ProcessInsuranceDoc(env: Env, text: string) returns (data: InsuranceRecord)
    ensures data == InsuranceFields(env, text)
  {
    data := Initial;
    var m := SearchCascade(env, PolicyPatterns, text);
    if m.Some? {
      data := data.(policyNumber := Some(Strip(Group(m.value, 1))));
    }
    var insurer := StrippedField(env, InsurerPattern, text);
    var insured := StrippedField(env, InsuredPattern, text);
    var coverageType := StrippedField(env, CoveragePattern, text);
    data := data.(insurer := insurer, insured := insured, coverageType := coverageType);
    var startDate := DateField(env, StartPattern, text);
    var endDate := DateField(env, EndPattern, text);
    data := data.(startDate := startDate, endDate := endDate);
    var premium := AmountField(env, PremiumPattern, text);
    var coverageAmount := AmountField(env, CoverageAmountPattern, text);
    data := data.(premium := premium, coverageAmount := coverageAmount);
    var bm := Search(env, BeneficiariesPattern, text);
    if bm.Some? {
      data := data.(beneficiaries := KeepStripped(BeneficiaryRuns(Group(bm.value, 1)), 0));
    }
    var tm := Search(env, TermsPattern, text);
    if tm.Some? {
      data := data.(terms := KeepStripped(FindAllGroup1(env, TermPattern, Group(tm.value, 1)), 0));
    }
  }

  // ---------------------------------------------------------------- properties

  /** The policy number is that of the first policy pattern, in order, that matches. */
  lemma PolicyNumberCascade(env: Env, text: string, k: nat)
    requires k < |PolicyPatterns| && Search(env, PolicyPatterns[k], text).Some?
    requires forall j :: 0 <= j < k ==> Search(env, PolicyPatterns[j], text).None?
    ensures InsuranceFields(env, text).policyNumber == Some(Strip(Group(Search(env, PolicyPatterns[k], text).value, 1)))
  {
    FirstHitIs(env, PolicyPatterns, text, k);
  }

  /** A character that can belong to a name: neither whitespace nor a comma. */
  predicate NameChar(c: char)
  {
    NotSpace(c) && c != ','
  }

  /** Every beneficiary is non-empty, stripped and free of commas and newlines. */
  lemma BeneficiaryShape(section: string)
    ensures var bs := KeepStripped(BeneficiaryRuns(section), 0);
      (forall i :: 0 <= i < |bs| ==> bs[i] != [] && Strip(bs[i]) == bs[i])
      && (forall i, j :: 0 <= i < |bs| && 0 <= j < |bs[i]| ==> NotListSep(bs[i][j]))
  {
    KeepStrippedAvoids(NotListSep, BeneficiaryRuns(section), 0);
  }

  /**
   * Together the beneficiaries hold every non-space, non-comma character of the section, in
   * order: splitting and stripping lose nothing but separators and whitespace.
   */
  lemma BeneficiaryChars(section: string)
    ensures Filter(NameChar, Flatten(KeepStripped(BeneficiaryRuns(section), 0))) == Filter(NameChar, section)
  {
    var runs := BeneficiaryRuns(section);
    forall c | NameChar(c) ensures NotSpace(c) && NotListSep(c) {
    }
    KeepStrippedChars(NameChar, runs);
    FilterSub(NameChar, NotListSep, section);
  }

  /** The beneficiaries are `[]` without a section, else the split of the section's capture. */
  lemma BeneficiariesFromSection(env: Env, text: string)
    ensures var m := Search(env, BeneficiariesPattern, text);
      InsuranceFields(env, text).beneficiaries == if m.None? then [] else KeepStripped(BeneficiaryRuns(Group(m.value, 1)), 0)
  {
  }

  /** Every term is non-empty and stripped, and every captured item that is not blank is kept. */
  lemma TermsKept(env: Env, text: string)
    requires Search(env, TermsPattern, text).Some?
    ensures var raw, ts := FindAllGroup1(env, TermPattern, Group(Search(env, TermsPattern, text).value, 1)), Terms(env, text);
      (forall i :: 0 <= i < |ts| ==> ts[i] != [] && NotSpace(ts[i][0]) && NotSpace(ts[i][|ts[i]| - 1]))
      && (forall j :: 0 <= j < |raw| && Strip(raw[j]) != [] ==> Strip(raw[j]) in ts)
  {
    var ts := Terms(env, text);
    forall i | 0 <= i < |ts| ensures ts[i] != [] && NotSpace(ts[i][0]) && NotSpace(ts[i][|ts[i]| - 1]) {
      var t := ts[i];
      assert Strip(t) == t && |t| > 0;
    }
  }

  /**
   * Day-first readings win: a capture that `%d/%m/%Y` accepts is read that way, and a
   * month-first `%m/%d/%Y` reading is taken only when both four-digit day-first forms fail.
   */
  lemma DayFirst(strptime: (string, string) -> Option<Date>, s: string)
    ensures strptime(s, "%d/%m/%Y").Some? ==> ParseDate(strptime, s) == strptime(s, "%d/%m/%Y")
    ensures strptime(s, "%d/%m/%Y").None? && strptime(s, "%d-%m-%Y").None? && strptime(s, "%m/%d/%Y").Some?
      ==> ParseDate(strptime, s) == strptime(s, "%m/%d/%Y")
  {
    if strptime(s, "%d/%m/%Y").Some? {
      ParseFirstIs(strptime, DateFormats, s, 0);
    } else if strptime(s, "%d-%m-%Y").None? && strptime(s, "%m/%d/%Y").Some? {
      ParseFirstIs(strptime, DateFormats, s, 2);
    }
  }
}
