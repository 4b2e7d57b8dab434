/**
 * `process_personal_doc`: the extractor for passports, driver's licences and state IDs.  It
 * infers the document type when none is given, picks the ID pattern by type, chooses between
 * two name strategies, and normalises gender, address and eye colour.
 */
module PersonalProcessor {
  import opened Wrappers
  import opened Foreign
  import opened Seqs
  import opened Strings
  import opened Matching
  import opened Dates

  /** The `data` dictionary; every one of its sixteen keys is always present. */
  datatype PersonalRecord = PersonalRecord(
    documentType: Option<string>,
    idNumber: Option<string>,
    lastName: Option<string>,
    firstName: Option<string>,
    middleName: Option<string>,
    dateOfBirth: Option<Date>,
    issueDate: Option<Date>,
    expirationDate: Option<Date>,
    issuingAuthority: Option<string>,
    nationality: Option<string>,
    gender: Option<string>,
    address: Option<string>,
    height: Option<string>,
    eyeColor: Option<string>,
    restrictions: seq<string>,
    endorsements: seq<string>)

  /** The record as initialised: the given type, nothing extracted, both lists empty. */
  function Initial(docType: Option<string>): PersonalRecord
  {
    PersonalRecord(docType, None, None, None, None, None, None, None, None, None, None, None, None, None, [], [])
  }

  const PassportPattern: Pattern := Pattern(@"passport", true, false)
  const LicensePattern: Pattern := Pattern(@"driver'?s?\s*license", true, false)
  const StateIdPattern: Pattern := Pattern(@"identification\s*card|ID\s*card", true, false)

  /** The ID-number pattern of each known document type. */
  const IdPatterns: map<string, Pattern> := map[
    "passport" := Pattern(@"Passport\s*(?:No|Number)[.:]?\s*([A-Z0-9]+)", true, false),
    "driver_license" := Pattern(@"(?:DL|License)\s*(?:No|Number|#)[.:]?\s*([A-Z0-9-]+)", true, false),
    "state_id" := Pattern(@"ID\s*(?:No|Number|#)[.:]?\s*([A-Z0-9-]+)", true, false)
  ]

  const LastNamePattern: Pattern := Pattern(@"(?:Last|Family|Sur)[- ]?name[:\s]*([^\n,]+)", true, false)
  const FirstNamePattern: Pattern := Pattern(@"(?:First|Given)[- ]?name[:\s]*([^\n,]+)", true, false)
  /** `LAST, FIRST [MIDDLE]`, searched case-sensitively. */
  const CommaNamePattern: Pattern := Pattern(@"([A-Z]+),\s*([A-Z\s]+)(?:\s+([A-Z]+))?", false, false)

  const BirthPattern: Pattern := Pattern(@"(?:Date\s+of\s+Birth|Birth\s+Date|DOB)[:\s]*(\d{1,2}[-/]\d{1,2}[-/]\d{2,4})", true, false)
  const IssuePattern: Pattern := Pattern(@"(?:Issue|Issued)\s*(?:Date|On)[:\s]*(\d{1,2}[-/]\d{1,2}[-/]\d{2,4})", true, false)
  const ExpirationPattern: Pattern := Pattern(@"(?:Expiration|Expiry|Expires)[:\s]*(\d{1,2}[-/]\d{1,2}[-/]\d{2,4})", true, false)
  const AuthorityPattern: Pattern := Pattern(@"(?:Issued\s+by|Issuing\s+Authority)[:\s]*([^\n]+)", true, false)
  const NationalityPattern: Pattern := Pattern(@"Nationality[:\s]*([^\n]+)", true, false)
  const GenderPattern: Pattern := Pattern(@"(?:Gender|Sex)[:\s]*([MF]|Male|Female)", true, false)
  const AddressPattern: Pattern := Pattern(@"(?:Address|ADD)[:\s]*([^\n]+(?:\n[^\n]+)*)", true, false)
  const HeightPattern: Pattern := Pattern(@"HGT[:\s]*(\d{1,2}\'?\s*\d{1,2}\""?|\d{3}\s*cm)", true, false)
  const EyePattern: Pattern := Pattern(@"(?:Eyes|Eye\s+Color)[:\s]*([A-Z]{3}|[A-Za-z]+)", true, false)
  const RestrictionsPattern: Pattern := Pattern(@"REST[:\s]*([^\n]+)", true, false)
  const EndorsementsPattern: Pattern := Pattern(@"END[:\s]*([^\n]+)", true, false)

  /** Month-first before day-first for each separator, then named months, year-first and two-digit years. */
  const DateFormats: seq<string> :=
    ["%m/%d/%Y", "%d/%m/%Y", "%m-%d-%Y", "%d-%m-%Y", "%b %d, %Y", "%B %d, %Y", "%Y/%m/%d", "%Y-%m-%d", "%m/%d/%y", "%d/%m/%y"]

  /** `parse_date(date_str)`: the `date` under the first format that fits, or `None`. */
  function ParseDate(strptime: (string, string) -> Option<Date>, s: string): (r: Option<Date>)
    ensures r.None? <==> forall j :: 0 <= j < |DateFormats| ==> strptime(s, DateFormats[j]).None?
    ensures r.Some? ==> exists k :: (0 <= k < |DateFormats| && r == strptime(s, DateFormats[k])
      && forall j :: 0 <= j < k ==> strptime(s, DateFormats[j]).None?)
  {
    ParseFirst(strptime, DateFormats, s)
  }

  function LabelledDate(env: Env, p: Pattern, text: string): Option<Date>
  {
    var m := Search(env, p, text);
    if m.Some? then ParseDate(env.strptime, Group(m.value, 1)) else None
  }

  /** Python truthiness of the `doc_type` argument. */
  predicate Given(docType: Option<string>)
  {
    docType.Some? && docType.value != ""
  }

  /** The document type after inference: a given type is kept, otherwise the first keyword found. */
  function DocumentType(env: Env, text: string, docType: Option<string>): Option<string>
  {
    if Given(docType) then docType
    else if Search(env, PassportPattern, text).Some? then Some("passport")
    else if Search(env, LicensePattern, text).Some? then Some("driver_license")
    else if Search(env, StateIdPattern, text).Some? then Some("state_id")
    else docType
  }

  /** The ID number: searched with the pattern of the type, only when the type is in the table. */
  function IdNumber(env: Env, text: string, docType: Option<string>): Option<string>
  {
    if docType.Some? && docType.value in IdPatterns then StrippedGroup1(Search(env, IdPatterns[docType.value], text))
    else None
  }

  /** Last, first and middle name, from the labelled pair or else the comma pattern. */
  function Names(env: Env, text: string): (Option<string>, Option<string>, Option<string>)
  {
    var p1, p2, p3 := Search(env, LastNamePattern, text), Search(env, FirstNamePattern, text), Search(env, CommaNamePattern, text);
    if p1.Some? && p2.Some? then (Some(Strip(Group(p1.value, 1))), Some(Strip(Group(p2.value, 1))), None)
    else if p3.Some? then
      (Some(Strip(Group(p3.value, 1))), Some(Strip(Group(p3.value, 2))),
       if Group(p3.value, 3) != "" then Some(Strip(Group(p3.value, 3))) else None)
    else (None, None, None)
  }

  /** `'M' if g.upper() in ['M', 'MALE'] else 'F'`. */
  function GenderCode(g: string): (r: string)
    ensures r == "M" || r == "F"
    ensures r == "M" <==> Upper(g) == "M" || Upper(g) == "MALE"
  {
    var u := Upper(g);
    if u == "M" || u == "MALE" then "M" else "F"
  }

  function Gender(env: Env, text: string): Option<string>
  {
    var m := Search(env, GenderPattern, text);
    if m.Some? then Some(GenderCode(Group(m.value, 1))) else None
  }

  function Address(env: Env, text: string): Option<string>
  {
    var m := Search(env, AddressPattern, text);
    if m.Some? then Some(Collapse(Group(m.value, 1))) else None
  }

  function EyeColor(env: Env, text: string): Option<string>
  {
    var m := Search(env, EyePattern, text);
    if m.Some? then Some(Upper(Strip(Group(m.value, 1)))) else None
  }

  /** `[x.strip() for x in m.group(1).split(',')]`, `[]` without a match. */
  function CommaList(env: Env, p: Pattern, text: string): seq<string>
  {
    var m := Search(env, p, text);
    if m.Some? then StripAll(SplitOn(Group(m.value, 1), ',')) else []
  }

  /** The record `process_personal_doc(text, doc_type)` returns. */
  function PersonalFields(env: Env, text: string, docType: Option<string>): PersonalRecord
  {
    var t := DocumentType(env, text, docType);
    var names := Names(env, text);
    var dl := t == Some("driver_license");
    Initial(t).(
      idNumber := IdNumber(env, text, t),
      lastName := names.0, firstName := names.1, middleName := names.2,
      dateOfBirth := LabelledDate(env, BirthPattern, text),
      issueDate := LabelledDate(env, IssuePattern, text),
      expirationDate := LabelledDate(env, ExpirationPattern, text),
      issuingAuthority := StrippedGroup1(Search(env, AuthorityPattern, text)),
      nationality := StrippedGroup1(Search(env, NationalityPattern, text)),
      gender := Gender(env, text),
      address := Address(env, text),
      height := StrippedGroup1(Search(env, HeightPattern, text)),
      eyeColor := EyeColor(env, text),
      restrictions := if dl then CommaList(env, RestrictionsPattern, text) else [],
      endorsements := if dl then CommaList(env, EndorsementsPattern, text) else [])
  }

  // ---------------------------------------------------------------- the procedure

  /** The `if not doc_type:` block. */
  method InferType(env: Env, text: string, docType: Option<string>) returns (t: Option<string>)
    ensures t == DocumentType(env, text, docType)
  {
    t := docType;
    if docType.None? || docType.value == "" {
      if Search(env, PassportPattern, text).Some? {
        t := Some("passport");
      } else if Search(env, LicensePattern, text).Some? {
        t := Some("driver_license");
      } else if Search(env, StateIdPattern, text).Some? {
        t := Some("state_id");
      }
    }
  }

  /** The three name searches and the choice between the two strategies. */
  method ExtractNames(env: Env, text: string) returns (last: Option<string>, first: Option<string>, middle: Option<string>)
    ensures (last, first, middle) == Names(env, text)
  {
    last, first, middle := None, None, None;
    var p1 := Search(env, LastNamePattern, text);
    var p2 := Search(env, FirstNamePattern, text);
    var p3 := Search(env, CommaNamePattern, text);
    if p1.Some? && p2.Some? {
      last := Some(Strip(Group(p1.value, 1)));
      first := Some(Strip(Group(p2.value, 1)));
    } else if p3.Some? {
      last := Some(Strip(Group(p3.value, 1)));
      first := Some(Strip(Group(p3.value, 2)));
      if Group(p3.value, 3) != "" {
        middle := Some(Strip(Group(p3.value, 3)));
      }
    }
  }

  method DateField(env: Env, p: Pattern, text: string) returns (v: Option<Date>)
    ensures v == LabelledDate(env, p, text)
  {
    v := None;
    var m := Search(env, p, text);
    if m.Some? {
      v := ParseDate(env.strptime, Group(m.value, 1));
    }
  }

  /** The `if data['document_type'] in id_patterns:` block. */
  method IdField(env: Env, text: string, t: Option<string>) returns (v: Option<string>)
    ensures v == IdNumber(env, text, t)
  {
    v := None;
    if t.Some? && t.value in IdPatterns {
      var m := Search(env, IdPatterns[t.value], text);
      if m.Some? {
        v := Some(Strip(Group(m.value, 1)));
      }
    }
  }

  method GenderField(env: Env, text: string) returns (v: Option<string>)
    ensures v == Gender(env, text)
  {
    v := None;
    var m := Search(env, GenderPattern, text);
    if m.Some? {
      var g := Upper(Group(m.value, 1));
      v := Some(if g == "M" || g == "MALE" then "M" else "F");
    }
  }

  method AddressField(env: Env, text: string) returns (v: Option<string>)
    ensures v == Address(env, text)
  {
    v := None;
    var m := Search(env, AddressPattern, text);
    if m.Some? {
      v := Some(Collapse(Group(m.value, 1)));
    }
  }

  method EyeField(env: Env, text: string) returns (v: Option<string>)
    ensures v == EyeColor(env, text)
  {
    v := None;
    var m := Search(env, EyePattern, text);
    if m.Some? {
      v := Some(Upper(Strip(Group(m.value, 1))));
    }
  }

  method CommaListField(env: Env, p: Pattern, text: string) returns (v: seq<string>)
    ensures v == CommaList(env, p, text)
  {
    v := [];
    var m := Search(env, p, text);
    if m.Some? {
      v := StripAll(SplitOn(Group(m.value, 1), ','));
    }
  }

  /** `process_personal_doc(text, doc_type=None)`. */
  method ProcessPersonalDoc(env: Env, text: string, docType: Option<string> := None) returns (data: PersonalRecord)
    ensures data == PersonalFields(env, text, docType)
  {
    data := Initial(docType);
    var t := InferType(env, text, docType);
    data := data.(documentType := t);
    var id := IdField(env, text, t);
    data := data.(idNumber := id);

    var last, first, middle := ExtractNames(env, text);
    data := data.(lastName := last, firstName := first, middleName := middle);

    var dob := DateField(env, BirthPattern, text);
    var issued := DateField(env, IssuePattern, text);
    var expires := DateField(env, ExpirationPattern, text);
    data := data.(dateOfBirth := dob, issueDate := issued, expirationDate := expires);

    var authority := StrippedField(env, AuthorityPattern, text);
    var nationality := StrippedField(env, NationalityPattern, text);
    data := data.(issuingAuthority := authority, nationality := nationality);

    var gender := GenderField(env, text);
    var address := AddressField(env, text);
    var height := StrippedField(env, HeightPattern, text);
    var eyes := EyeField(env, text);
    data := data.(gender := gender, address := address, height := height, eyeColor := eyes);

    if t == Some("driver_license") {
      var restrictions := CommaListField(env, RestrictionsPattern, text);
      var endorsements := CommaListField(env, EndorsementsPattern, text);
      data := data.(restrictions := restrictions, endorsements := endorsements);
    }
  }

  // ---------------------------------------------------------------- properties

  /**
   * A given (truthy) `doc_type` is never overridden; without one the type is inferred in the
   * priority passport, driver licence, state ID, and otherwise stays as given.
   */
  lemma TypeInference(env: Env, text: string, docType: Option<string>)
    ensures var t := PersonalFields(env, text, docType).documentType;
      (Given(docType) ==> t == docType)
      && (!Given(docType) ==>
            (Search(env, PassportPattern, text).Some? ==> t == Some("passport"))
            && (Search(env, PassportPattern, text).None? && Search(env, LicensePattern, text).Some?
                ==> t == Some("driver_license"))
            && ((Search(env, PassportPattern, text).None? && Search(env, LicensePattern, text).None?
                && Search(env, StateIdPattern, text).Some?) ==> t == Some("state_id"))
            && (t.Some? && t.value != "" ==> t.value in IdPatterns))
  {
  }

  /** An ID number is only ever found with the pattern of the record's own type. */
  lemma IdByType(env: Env, text: string, docType: Option<string>)
    ensures var d := PersonalFields(env, text, docType);
      d.idNumber.Some? ==> (d.documentType.Some? && d.documentType.value in IdPatterns
        && Search(env, IdPatterns[d.documentType.value], text).Some?
        && d.idNumber.value == Strip(Group(Search(env, IdPatterns[d.documentType.value], text).value, 1)))
  {
  }

  /**
   * The labelled names are used exactly when both labels match; the middle name can only come
   * from the comma pattern, and only when its third group took part.
   */
  lemma NameStrategy(env: Env, text: string)
    ensures var n := Names(env, text);
      var p1, p2, p3 := Search(env, LastNamePattern, text), Search(env, FirstNamePattern, text), Search(env, CommaNamePattern, text);
      (p1.Some? && p2.Some? ==> n.0 == Some(Strip(Group(p1.value, 1))) && n.1 == Some(Strip(Group(p2.value, 1))) && n.2 == None)
      && (n.2.Some? ==> !(p1.Some? && p2.Some?) && p3.Some? && Group(p3.value, 3) != "")
      && (n.0.None? <==> !(p1.Some? && p2.Some?) && p3.None?)
  {
  }

  /** Gender is always `M` or `F` when it is set, and `M` exactly for `m`/`male` in any case. */
  lemma GenderCodes(env: Env, text: string, docType: Option<string>)
    ensures var g := PersonalFields(env, text, docType).gender;
      g.Some? ==> (g.value == "M" || g.value == "F")
  {
  }

  /** An address, when set, has no newline, no surrounding whitespace and single spaces between words. */
  lemma AddressShape(env: Env, text: string)
    ensures var a := Address(env, text);
      a.Some? ==> (SingleSpaced(a.value) && (a.value == [] || (NotSpace(a.value[0]) && NotSpace(a.value[|a.value| - 1])))
        && forall i :: 0 <= i < |a.value| ==> a.value[i] != '\n')
  {
    var a := Address(env, text);
    if a.Some? {
      var s := a.value;
      forall i | 0 <= i < |s| ensures s[i] != '\n' {
        if s[i] == '\n' {
          assert IsSpace(s[i]);
        }
      }
    }
  }

  /**
   * The restriction and endorsement lists are filled only for a driver licence; then each holds
   * one stripped entry per comma-separated piece of the capture, empty pieces included.
   */
  lemma LicenceLists(env: Env, text: string, docType: Option<string>)
    ensures var d := PersonalFields(env, text, docType);
      (d.documentType != Some("driver_license") ==> d.restrictions == [] && d.endorsements == [])
      && (d.documentType == Some("driver_license") && Search(env, RestrictionsPattern, text).Some? ==>
            var g := Group(Search(env, RestrictionsPattern, text).value, 1);
            |d.restrictions| == Count(g, ',') + 1
            && forall i :: 0 <= i < |d.restrictions| ==> d.restrictions[i] == Strip(SplitOn(g, ',')[i]))
  {
    var m := Search(env, RestrictionsPattern, text);
    if m.Some? {
      SplitOnCount(Group(m.value, 1), ',');
    }
  }

  /** Month-first wins on slash dates: `%m/%d/%Y` is tried before `%d/%m/%Y`. */
  lemma MonthFirst(strptime: (string, string) -> Option<Date>, s: string)
    requires strptime(s, "%m/%d/%Y").Some?
    ensures ParseDate(strptime, s) == strptime(s, "%m/%d/%Y")
  {
    ParseFirstIs(strptime, DateFormats, s, 0);
  }
}
