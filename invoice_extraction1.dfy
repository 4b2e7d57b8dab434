/**
 * The first of the older invoice extractors (`tests/invoice_extraction_1.py`): its own file
 * checks, a single-backend PDF conversion, a letterhead read from the top quarter of the page,
 * a dictionary filled from nine labelled patterns plus three optional entries, and the plain-text
 * report `format_extracted_data` prints.  Nothing in it is wrapped in `try`: every exception
 * reaches the caller unchanged.
 */
module InvoiceExtraction1 {
  import opened Wrappers
  import opened Errors
  import opened Foreign
  import opened Seqs
  import opened Strings
  import opened Values
  import opened Paths
  import opened Matching
  import opened Address
  import opened ExportUtils
  import PdfInput
  import InvoiceExtraction

  // ---------------------------------------------------------------- verify_file_path

  /**
   * `verify_file_path(file_path)`: a missing path, a path that is not a regular file and a
   * suffix outside the six allowed ones are refused, in that order; the size is not looked at.
   */
  function VerifyFilePath(host: Host, path: string): (r: Result<(), Error>)
    ensures r.Ok? <==> (host.stat(path).Some? && host.stat(path).value.isFile
      && Lower(PathSuffix(path)) in PdfInput.ValidExtensions)
    ensures host.stat(path).None? ==> r == Err(FileNotFoundError("No se encontró el archivo en la ruta: " + path))
    ensures host.stat(path).Some? && !host.stat(path).value.isFile ==>
      r == Err(ValueError("La ruta especificada no es un archivo: " + path))
    ensures (host.stat(path).Some? && host.stat(path).value.isFile
      && Lower(PathSuffix(path)) !in PdfInput.ValidExtensions) ==>
      r == Err(ValueError("El archivo no tiene una extensión válida: " + path))
  {
    match host.stat(path)
    case None => Err(FileNotFoundError("No se encontró el archivo en la ruta: " + path))
    case Some(entry) =>
      if !entry.isFile then Err(ValueError("La ruta especificada no es un archivo: " + path))
      else if Lower(PathSuffix(path)) !in PdfInput.ValidExtensions then
        Err(ValueError("El archivo no tiene una extensión válida: " + path))
      else Ok(())
  }

  /**
   * This check accepts exactly what the main extractor's check accepts, and, in addition,
   * empty files with an allowed suffix.
   */
  lemma AcceptsMoreThanMain(host: Host, path: string)
    ensures VerifyFilePath(host, path).Ok? <==> (PdfInput.VerifyFilePath(host, path).Ok?
      || (host.stat(path).Some? && host.stat(path).value == Entry(true, 0)
        && Lower(PathSuffix(path)) in PdfInput.ValidExtensions))
  {
  }

  // ---------------------------------------------------------------- convert_pdf_to_images

  /** The one poppler directory this variant passes to the rasteriser. */
  const PopplerDir: string := @"C:\Program Files\poppler\Library\bin"

  const ConversionPrefix: string := "Error al convertir PDF a imagen: "

  /**
   * `convert_pdf_to_images(pdf_path)`: the rasteriser's pages with the fixed poppler directory;
   * whatever it raises becomes a `ValueError`.  An empty page list is returned as it is.
   */
  function ConvertPdf(vision: Vision, path: string): (r: Result<seq<Image>, Error>)
    ensures r.Ok? <==> vision.rasterise(path, Some(PopplerDir)).Ok?
    ensures r.Ok? ==> r.value == vision.rasterise(path, Some(PopplerDir)).value
    ensures r.Err? ==> (r.error.ValueError? && StartsWith(r.error.msg, ConversionPrefix)
      && r.error.msg == ConversionPrefix + Message(vision.rasterise(path, Some(PopplerDir)).error))
  {
    match vision.rasterise(path, Some(PopplerDir))
    case Ok(pages) => Ok(pages)
    case Err(e) =>
      var msg := ConversionPrefix + Message(e);
      assert msg[..|ConversionPrefix|] == ConversionPrefix;
      Err(ValueError(msg))
  }

  /**
   * The preprocessed image `extract_invoice_data` reads: `images[0]` of a PDF, which raises
   * `IndexError` on an empty page list, or the image file itself.
   */
  function PageImage(vision: Vision, path: string): (r: Result<Image, Error>)
    ensures !InvoiceExtraction.IsPdfPath(path) ==> r == vision.preprocess(FromPath(path))
    ensures InvoiceExtraction.IsPdfPath(path) && ConvertPdf(vision, path).Err? ==> r == Err(ConvertPdf(vision, path).error)
    ensures InvoiceExtraction.IsPdfPath(path) && vision.rasterise(path, Some(PopplerDir)) == Ok([]) ==> r == Err(IndexError)
    ensures (InvoiceExtraction.IsPdfPath(path) && vision.rasterise(path, Some(PopplerDir)).Ok?
      && vision.rasterise(path, Some(PopplerDir)).value != []) ==>
      r == vision.preprocess(FromImage(vision.rasterise(path, Some(PopplerDir)).value[0]))
  {
    if InvoiceExtraction.IsPdfPath(path) then
      match ConvertPdf(vision, path)
      case Err(e) => Err(e)
      case Ok(pages) => if pages == [] then Err(IndexError) else vision.preprocess(FromImage(pages[0]))
    else vision.preprocess(FromPath(path))
  }

  /** `pytesseract.image_to_string` with no configuration. */
  const DefaultConfig: string := ""

  /**
   * `detect_letterhead(image)`: the recognised text of the top quarter of the page, stripped;
   * `topQuarter` is the crop `image[0:int(height*0.25), :]`.
   */
  function Letterhead(vision: Vision, topQuarter: Image -> Image, image: Image): (r: Result<string, Error>)
    ensures r.Ok? <==> vision.recognise(topQuarter(image), DefaultConfig).Ok?
    ensures r.Ok? ==> r.value == Strip(vision.recognise(topQuarter(image), DefaultConfig).value)
    ensures r.Ok? ==> r.value == [] || (NotSpace(r.value[0]) && NotSpace(r.value[|r.value| - 1]))
    ensures r.Err? ==> r.error == vision.recognise(topQuarter(image), DefaultConfig).error
  {
    match vision.recognise(topQuarter(image), DefaultConfig)
    case Ok(s) => Ok(Strip(s))
    case Err(e) => Err(e)
  }

  // ---------------------------------------------------------------- the labelled fields

  /** The `patterns` dictionary, in its insertion order; each carries its own `(?i)`. */
  const FieldPatterns: seq<(string, Pattern)> := [
    ("invoice_number", Pattern(@"(?i)Invoice\s*(?:#|No|Number|NUM)[:.]?\s*([A-Z0-9-]+)", false, false)),
    ("date", Pattern(@"(?i)(?:Invoice\s+Date|Date)[:.]?\s*(\d{1,2}[-/]\d{1,2}[-/]\d{2,4})", false, false)),
    ("due_date", Pattern(@"(?i)(?:Due\s+Date|Payment\s+Due)[:.]?\s*(\d{1,2}[-/]\d{1,2}[-/]\d{2,4})", false, false)),
    ("expiration_date", Pattern(@"(?i)(?:Expiration\s+Date|Valid\s+Until)[:.]?\s*(\d{1,2}[-/]\d{1,2}[-/]\d{2,4})", false, false)),
    ("po_number", Pattern(@"(?i)(?:P\.?O\.?|Purchase\s+Order)[\s#:.]*([A-Z0-9-]+)", false, false)),
    ("total", Pattern(@"(?i)Total\s*(?:Amount)?[:.]?\s*[\$€]?\s*([\d,]+\.?\d{0,2})", false, false)),
    ("subtotal", Pattern(@"(?i)Subtotal[:.]?\s*[\$€]?\s*([\d,]+\.?\d{0,2})", false, false)),
    ("tax", Pattern(@"(?i)(?:Tax|VAT)[:.]?\s*[\$€]?\s*([\d,]+\.?\d{0,2})", false, false)),
    ("payment_terms", Pattern(@"(?i)(?:Payment\s+Terms|Terms)[:.]?\s*([^.\n]+)", false, false))]

  /** The keys of `patterns`, in order. */
  const FieldKeys: seq<string> := ["invoice_number", "date", "due_date", "expiration_date", "po_number",
    "total", "subtotal", "tax", "payment_terms"]

  /** The three patterns searched with `re.DOTALL`. */
  const BillToPattern: Pattern := Pattern(@"(?i)(?:Bill\s+To|Sold\s+To)[:.]?\s*([^`]*)(?=(?:Ship\s+To|Invoice|P\.O\.|Date)|$)", false, true)
  const ShipToPattern: Pattern := Pattern(@"(?i)Ship\s+To[:.]?\s*([^`]*)(?=(?:Bill\s+To|Invoice|P\.O\.|Date)|$)", false, true)
  const NotesPattern: Pattern := Pattern(@"(?i)(?:Notes?|Remarks?|Comments?)[:.]?\s*([^`]*)(?=\n\n|$)", false, true)

  /** The keys of a list of `(key, pattern)` pairs. */
  function Names(fs: seq<(string, Pattern)>): (ks: seq<string>)
    ensures |ks| == |fs|
    ensures forall i :: 0 <= i < |fs| ==> ks[i] == fs[i].0
  {
    seq(|fs|, i requires 0 <= i < |fs| => fs[i].0)
  }

  ghost predicate Distinct(ks: seq<string>)
  {
    forall i, j :: 0 <= i < j < |ks| ==> ks[i] != ks[j]
  }

  /** Distinct keys stay distinct without the first, which none of the others repeats. */
  lemma NamesTail(fs: seq<(string, Pattern)>)
    requires fs != [] && Distinct(Names(fs))
    ensures Names(fs) == [fs[0].0] + Names(fs[1..])
    ensures Distinct(Names(fs[1..])) && fs[0].0 !in Names(fs[1..])
  {
    var tail := fs[1..];
    forall a, b | 0 <= a < b < |tail| ensures Names(tail)[a] != Names(tail)[b] {
      assert Names(fs)[a + 1] != Names(fs)[b + 1];
    }
    forall j | 0 <= j < |tail| ensures Names(tail)[j] != fs[0].0 {
      assert Names(fs)[0] != Names(fs)[j + 1];
    }
    assert Names(fs) == [fs[0].0] + Names(tail);
  }

  /** `match.group(1).strip() if match else None`, as the value stored. */
  function Found(env: Env, p: Pattern, text: string): (v: Value)
    ensures Search(env, p, text).None? <==> v == Scalar(Null)
    ensures Search(env, p, text).Some? ==> v == Str1(Strip(Group(Search(env, p, text).value, 1)))
  {
    OptStr(StrippedGroup1(Search(env, p, text)))
  }

  /** `for key, pattern in patterns.items(): extracted_data[key] = ...`, from the first pair on. */
  function SearchAll(env: Env, fs: seq<(string, Pattern)>, text: string, d: Items): Items
    decreases |fs|
  {
    if fs == [] then d else SearchAll(env, fs[1..], text, Put(d, fs[0].0, Found(env, fs[0].1, text)))
  }

  /** The loop keeps the keys distinct. */
  lemma {:induction false} SearchAllDistinct(env: Env, fs: seq<(string, Pattern)>, text: string, d: Items)
    requires DistinctKeys(d)
    ensures DistinctKeys(SearchAll(env, fs, text, d))
    decreases |fs|
  {
    if fs != [] {
      PutFacts(d, fs[0].0, Found(env, fs[0].1, text));
      SearchAllDistinct(env, fs[1..], text, Put(d, fs[0].0, Found(env, fs[0].1, text)));
    }
  }

  /** A key no pattern names keeps its value. */
  lemma {:induction false} SearchAllOther(env: Env, fs: seq<(string, Pattern)>, text: string, d: Items, k: string)
    requires DistinctKeys(d) && k !in Names(fs)
    ensures Get(SearchAll(env, fs, text, d), k) == Get(d, k)
    decreases |fs|
  {
    if fs != [] {
      var d' := Put(d, fs[0].0, Found(env, fs[0].1, text));
      PutFacts(d, fs[0].0, Found(env, fs[0].1, text));
      assert Get(d', k) == Get(d, k) by {
        assert Names(fs)[0] == fs[0].0;
      }
      assert k !in Names(fs[1..]) by {
        forall j | 0 <= j < |fs| - 1 ensures Names(fs[1..])[j] != k {
          assert Names(fs)[j + 1] == fs[1..][j].0;
        }
      }
      SearchAllOther(env, fs[1..], text, d', k);
    }
  }

  /** Each pattern key holds its own search's value. */
  lemma {:induction false} SearchAllGet(env: Env, fs: seq<(string, Pattern)>, text: string, d: Items, i: nat)
    requires DistinctKeys(d) && Distinct(Names(fs)) && i < |fs|
    ensures Get(SearchAll(env, fs, text, d), fs[i].0) == Some(Found(env, fs[i].1, text))
    decreases |fs|
  {
    var d' := Put(d, fs[0].0, Found(env, fs[0].1, text));
    PutFacts(d, fs[0].0, Found(env, fs[0].1, text));
    var tail := fs[1..];
    assert SearchAll(env, fs, text, d) == SearchAll(env, tail, text, d');
    NamesTail(fs);
    if i == 0 {
      SearchAllOther(env, tail, text, d', fs[0].0);
      assert Get(d', fs[0].0) == Some(Found(env, fs[0].1, text));
    } else {
      assert fs[i] == tail[i - 1];
      SearchAllGet(env, tail, text, d', i - 1);
    }
  }

  /** Putting a new key appends it. */
  lemma PutNew(d: Items, k: string, v: Value)
    requires k !in Keys(d)
    ensures Put(d, k, v) == d + [(k, v)]
    ensures Keys(Put(d, k, v)) == Keys(d) + [k]
  {
    assert IndexOf(Keys(d), k) == |d|;
    assert Keys(d + [(k, v)]) == Keys(d) + [k];
  }

  /** Pattern keys that are new are appended in pattern order. */
  lemma {:induction false} SearchAllKeys(env: Env, fs: seq<(string, Pattern)>, text: string, d: Items)
    requires Distinct(Names(fs))
    requires forall i :: 0 <= i < |fs| ==> fs[i].0 !in Keys(d)
    ensures Keys(SearchAll(env, fs, text, d)) == Keys(d) + Names(fs)
    decreases |fs|
  {
    if fs != [] {
      var d' := Put(d, fs[0].0, Found(env, fs[0].1, text));
      PutNew(d, fs[0].0, Found(env, fs[0].1, text));
      KeysStep(fs, d, d');
      SearchAllKeys(env, fs[1..], text, d');
    }
  }

  /** After the first key is appended, the other keys are still new and still follow it. */
  lemma KeysStep(fs: seq<(string, Pattern)>, d: Items, d': Items)
    requires fs != [] && Distinct(Names(fs))
    requires forall i :: 0 <= i < |fs| ==> fs[i].0 !in Keys(d)
    requires Keys(d') == Keys(d) + [fs[0].0]
    ensures Distinct(Names(fs[1..]))
    ensures forall j :: 0 <= j < |fs[1..]| ==> fs[1..][j].0 !in Keys(d')
    ensures Keys(d') + Names(fs[1..]) == Keys(d) + Names(fs)
  {
    var ns := Names(fs);
    NamesTail(fs);
    assert ns[1..] == Names(fs[1..]);
    forall i | 0 <= i < |ns| ensures ns[i] !in Keys(d) {
      assert ns[i] == fs[i].0;
    }
    FreshTail(ns, Keys(d));
  }

  /** Names none of which occurs in `ks`: the first appended, the others are still new. */
  lemma FreshTail(ns: seq<string>, ks: seq<string>)
    requires ns != [] && Distinct(ns)
    requires forall i :: 0 <= i < |ns| ==> ns[i] !in ks
    ensures forall j :: 0 <= j < |ns| - 1 ==> ns[1..][j] !in ks + [ns[0]]
    ensures (ks + [ns[0]]) + ns[1..] == ks + ns
  {
    forall j | 0 <= j < |ns| - 1 ensures ns[1..][j] !in ks + [ns[0]] {
      assert ns[1..][j] == ns[j + 1] != ns[0];
    }
    assert ns == [ns[0]] + ns[1..];
  }

  /** The loop over `patterns.items()` as written. */
  method SearchPatterns(env: Env, fs: seq<(string, Pattern)>, text: string, d: Items) returns (r: Items)
    ensures r == SearchAll(env, fs, text, d)
  {
    r := d;
    var i := 0;
    while i < |fs|
      invariant 0 <= i <= |fs|
      invariant SearchAll(env, fs[i..], text, r) == SearchAll(env, fs, text, d)
      decreases |fs| - i
    {
      assert fs[i..][1..] == fs[i + 1..];
      var m := Search(env, fs[i].1, text);
      if m.Some? {
        r := Put(r, fs[i].0, Str1(Strip(Group(m.value, 1))));
      } else {
        r := Put(r, fs[i].0, Scalar(Null));
      }
      i := i + 1;
    }
    assert fs[i..] == [];
  }

  /** `d[key] = v` only when `m` matched. */
  function PutIfMatched(d: Items, key: string, m: Option<Match>, v: string -> string): Items
  {
    if m.Some? then Put(d, key, Str1(v(Group(m.value, 1)))) else d
  }

  /** The dictionary `extract_invoice_data` returns, for the page text and the letterhead. */
  function Fields(env: Env, text: string, letterhead: string): Items
  {
    var d := SearchAll(env, FieldPatterns, text, [("letterhead", Str1(letterhead))]);
    var d := PutIfMatched(d, "bill_to", Search(env, BillToPattern, text), CleanAddressPlain);
    var d := PutIfMatched(d, "ship_to", Search(env, ShipToPattern, text), CleanAddressPlain);
    PutIfMatched(d, "notes", Search(env, NotesPattern, text), Strip)
  }

  /** The optional key `key` when `m` matched, and nothing otherwise. */
  function IfMatched(key: string, m: Option<Match>): seq<string>
  {
    if m.Some? then [key] else []
  }

  lemma FieldKeysDistinct()
    ensures Names(FieldPatterns) == FieldKeys && Distinct(FieldKeys)
    ensures forall i :: 0 <= i < |FieldKeys| ==> FieldKeys[i] !in ["letterhead", "bill_to", "ship_to", "notes"]
    ensures var ks := ["letterhead"] + FieldKeys; "bill_to" !in ks && "ship_to" !in ks && "notes" !in ks
  {
    assert Names(FieldPatterns) == FieldKeys;
  }

  /** The entry `PutIfMatched` adds: `(key, v(group 1))` when `m` matched. */
  function Extra(key: string, m: Option<Match>, v: string -> string): (e: Items)
    ensures Keys(e) == IfMatched(key, m)
  {
    if m.Some? then [(key, Str1(v(Group(m.value, 1))))] else []
  }

  /** A `PutIfMatched` of a new key appends its entry. */
  lemma PutIfMatchedNew(d: Items, key: string, m: Option<Match>, v: string -> string)
    requires key !in Keys(d)
    ensures PutIfMatched(d, key, m, v) == d + Extra(key, m, v)
  {
    if m.Some? {
      PutNew(d, key, Str1(v(Group(m.value, 1))));
    }
  }

  /**
   * A pattern loop started from entries none of whose keys a pattern names: those entries,
   * unchanged, then the pattern keys with their values.
   */
  lemma SearchFrom(env: Env, fs: seq<(string, Pattern)>, text: string, d0: Items)
    requires DistinctKeys(d0) && Distinct(Names(fs))
    requires forall k :: k in Keys(d0) ==> k !in Names(fs)
    ensures var d := SearchAll(env, fs, text, d0);
      Keys(d) == Keys(d0) + Names(fs)
      && (forall k :: k in Keys(d0) ==> Get(d, k) == Get(d0, k))
      && forall i :: 0 <= i < |fs| ==> Get(d, fs[i].0) == Some(Found(env, fs[i].1, text))
  {
    assert forall i :: 0 <= i < |fs| ==> fs[i].0 !in Keys(d0) by {
      assert forall i :: 0 <= i < |fs| ==> fs[i].0 == Names(fs)[i];
    }
    SearchAllKeys(env, fs, text, d0);
    var d := SearchAll(env, fs, text, d0);
    forall i | 0 <= i < |fs| ensures Get(d, fs[i].0) == Some(Found(env, fs[i].1, text)) {
      SearchAllGet(env, fs, text, d0, i);
    }
    forall k | k in Keys(d0) ensures Get(d, k) == Get(d0, k) {
      SearchAllOther(env, fs, text, d0, k);
    }
  }

  /** The dictionary after the pattern loop: the letterhead, then the nine keys with their values. */
  lemma PatternPart(env: Env, text: string, letterhead: string)
    ensures var d := SearchAll(env, FieldPatterns, text, [("letterhead", Str1(letterhead))]);
      Keys(d) == ["letterhead"] + FieldKeys
      && Get(d, "letterhead") == Some(Str1(letterhead))
      && forall i :: 0 <= i < |FieldPatterns| ==> Get(d, FieldPatterns[i].0) == Some(Found(env, FieldPatterns[i].1, text))
  {
    FieldKeysDistinct();
    var d0: Items := [("letterhead", Str1(letterhead))];
    assert Keys(d0) == ["letterhead"];
    SearchFrom(env, FieldPatterns, text, d0);
  }

  /** Three optional entries with new, distinct keys are appended in turn. */
  lemma PutThree(d: Items, k1: string, m1: Option<Match>, v1: string -> string,
                 k2: string, m2: Option<Match>, v2: string -> string, k3: string, m3: Option<Match>, v3: string -> string)
    requires k1 !in Keys(d) && k2 !in Keys(d) && k3 !in Keys(d) && k1 != k2 && k1 != k3 && k2 != k3
    ensures var r := PutIfMatched(PutIfMatched(PutIfMatched(d, k1, m1, v1), k2, m2, v2), k3, m3, v3);
      r == d + Extra(k1, m1, v1) + Extra(k2, m2, v2) + Extra(k3, m3, v3)
      && Keys(r) == Keys(d) + IfMatched(k1, m1) + IfMatched(k2, m2) + IfMatched(k3, m3)
      && (forall k :: k in Keys(d) ==> Get(r, k) == Get(d, k))
      && (m1.Some? ==> Get(r, k1) == Some(Str1(v1(Group(m1.value, 1)))))
      && (m2.Some? ==> Get(r, k2) == Some(Str1(v2(Group(m2.value, 1)))))
      && (m3.Some? ==> Get(r, k3) == Some(Str1(v3(Group(m3.value, 1)))))
  {
    var e1, e2, e3 := Extra(k1, m1, v1), Extra(k2, m2, v2), Extra(k3, m3, v3);
    PutIfMatchedNew(d, k1, m1, v1);
    GetConcat(d, e1, k1);
    PutIfMatchedNew(d + e1, k2, m2, v2);
    GetConcat(d + e1, e2, k2);
    PutIfMatchedNew(d + e1 + e2, k3, m3, v3);
    GetConcat(d + e1 + e2, e3, k3);
    var r := d + e1 + e2 + e3;
    forall k | k in Keys(d) ensures Get(r, k) == Get(d, k) {
      GetConcat(d, e1, k);
      GetConcat(d + e1, e2, k);
      GetConcat(d + e1 + e2, e3, k);
    }
    GetConcat(d + e1, e2, k1);
    GetConcat(d + e1 + e2, e3, k1);
    GetConcat(d + e1 + e2, e3, k2);
  }

  /**
   * The dictionary has the letterhead and the nine pattern keys, in that order, always; then
   * `bill_to`, `ship_to` and `notes`, each only when its pattern matched.  The letterhead is the
   * one given, every pattern key holds its stripped capture or `None`, the addresses are cleaned
   * and the notes stripped.
   */
  lemma FieldsShape(env: Env, text: string, letterhead: string)
    ensures var d := Fields(env, text, letterhead);
      Keys(d) == ["letterhead"] + FieldKeys
        + IfMatched("bill_to", Search(env, BillToPattern, text))
        + IfMatched("ship_to", Search(env, ShipToPattern, text))
        + IfMatched("notes", Search(env, NotesPattern, text))
      && Get(d, "letterhead") == Some(Str1(letterhead))
      && forall i :: 0 <= i < |FieldPatterns| ==> Get(d, FieldPatterns[i].0) == Some(Found(env, FieldPatterns[i].1, text))
    ensures var d := Fields(env, text, letterhead); var m := Search(env, BillToPattern, text);
      m.Some? ==> Get(d, "bill_to") == Some(Str1(CleanAddressPlain(Group(m.value, 1))))
    ensures var d := Fields(env, text, letterhead); var m := Search(env, ShipToPattern, text);
      m.Some? ==> Get(d, "ship_to") == Some(Str1(CleanAddressPlain(Group(m.value, 1))))
    ensures var d := Fields(env, text, letterhead); var m := Search(env, NotesPattern, text);
      m.Some? ==> Get(d, "notes") == Some(Str1(Strip(Group(m.value, 1))))
  {
    PatternPart(env, text, letterhead);
    var d1 := SearchAll(env, FieldPatterns, text, [("letterhead", Str1(letterhead))]);
    FieldKeysDistinct();
    PutThree(d1, "bill_to", Search(env, BillToPattern, text), CleanAddressPlain,
      "ship_to", Search(env, ShipToPattern, text), CleanAddressPlain,
      "notes", Search(env, NotesPattern, text), Strip);
    assert forall i :: 0 <= i < |FieldPatterns| ==> FieldPatterns[i].0 in Keys(d1) by {
      assert forall i :: 0 <= i < |FieldPatterns| ==> FieldPatterns[i].0 == Names(FieldPatterns)[i];
    }
  }

  /** The field logic of `extract_invoice_data` as written, filling the dictionary step by step. */
  method ExtractFields(env: Env, text: string, letterhead: string) returns (d: Items)
    ensures d == Fields(env, text, letterhead)
  {
    d := SearchPatterns(env, FieldPatterns, text, [("letterhead", Str1(letterhead))]);
    var bill := Search(env, BillToPattern, text);
    if bill.Some? {
      d := Put(d, "bill_to", Str1(CleanAddressPlain(Group(bill.value, 1))));
    }
    var ship := Search(env, ShipToPattern, text);
    if ship.Some? {
      d := Put(d, "ship_to", Str1(CleanAddressPlain(Group(ship.value, 1))));
    }
    var notes := Search(env, NotesPattern, text);
    if notes.Some? {
      d := Put(d, "notes", Str1(Strip(Group(notes.value, 1))));
    }
  }

  // ---------------------------------------------------------------- the pipeline

  /**
   * `extract_invoice_data(file_path)`: the check, the page image, its text, its letterhead,
   * then the fields; the first exception is the result.
   */
  function InvoiceData(host: Host, vision: Vision, topQuarter: Image -> Image, env: Env, path: string): (r: Result<Items, Error>)
    ensures VerifyFilePath(host, path).Err? ==> r == Err(VerifyFilePath(host, path).error)
    ensures VerifyFilePath(host, path).Ok? && PageImage(vision, path).Err? ==> r == Err(PageImage(vision, path).error)
    ensures r.Ok? ==> Get(r.value, "letterhead").Some? && |Keys(r.value)| >= 10
  {
    var v := VerifyFilePath(host, path);
    if v.Err? then Err(v.error)
    else
      var image := PageImage(vision, path);
      if image.Err? then Err(image.error)
      else
        var text := vision.recognise(image.value, DefaultConfig);
        if text.Err? then Err(text.error)
        else
          var letterhead := Letterhead(vision, topQuarter, image.value);
          if letterhead.Err? then Err(letterhead.error)
          else
            FieldsShape(env, text.value, letterhead.value);
            Ok(Fields(env, text.value, letterhead.value))
  }

  /** An accepted PDF that rasterises to no pages fails at `images[0]`. */
  lemma EmptyPdf(host: Host, vision: Vision, topQuarter: Image -> Image, env: Env, path: string)
    requires VerifyFilePath(host, path).Ok? && InvoiceExtraction.IsPdfPath(path)
    requires vision.rasterise(path, Some(PopplerDir)) == Ok([])
    ensures InvoiceData(host, vision, topQuarter, env, path) == Err(IndexError)
  {
  }

  /**
   * An accepted file whose page is read yields the fields of the page text, with the letterhead
   * of its top quarter.
   */
  lemma ReadPage(host: Host, vision: Vision, topQuarter: Image -> Image, env: Env, path: string, text: string, top: string)
    requires VerifyFilePath(host, path).Ok? && PageImage(vision, path).Ok?
    requires vision.recognise(PageImage(vision, path).value, DefaultConfig) == Ok(text)
    requires vision.recognise(topQuarter(PageImage(vision, path).value), DefaultConfig) == Ok(top)
    ensures InvoiceData(host, vision, topQuarter, env, path) == Ok(Fields(env, text, Strip(top)))
  {
  }

  // ---------------------------------------------------------------- format_extracted_data

  /** `field_order`: each key with the label it is printed under. */
  const FieldOrder: seq<(string, string)> := [
    ("letterhead", "Letterhead"), ("invoice_number", "Invoice Number"), ("date", "Invoice Date"),
    ("due_date", "Due Date"), ("expiration_date", "Expiration Date"), ("po_number", "Purchase Order Number"),
    ("bill_to", "Bill To"), ("ship_to", "Ship To"), ("subtotal", "Subtotal"), ("tax", "Tax"),
    ("total", "Total"), ("payment_terms", "Payment Terms"), ("notes", "Notes")]

  /** `field in data and data[field]`. */
  predicate Shown(data: Items, field: string)
  {
    Get(data, field).Some? && Truthy(Get(data, field).value)
  }

  /** `f"{label}:\n{data[field]}\n"`. */
  function Block(title: string, v: Value): string
  {
    title + ":\n" + Str(v) + "\n"
  }

  /** The blocks the loop over `order` appends: one per shown field, in order. */
  function Blocks(order: seq<(string, string)>, data: Items): seq<string>
  {
    if order == [] then []
    else
      var last := order[|order| - 1];
      Blocks(order[..|order| - 1], data)
        + if Shown(data, last.0) then [Block(last.1, Get(data, last.0).value)] else []
  }

  /** The fields of `order` that are shown, in order: the reference the blocks follow. */
  function ShownFields(order: seq<(string, string)>, data: Items): (r: seq<(string, string)>)
    ensures forall i :: 0 <= i < |r| ==> Shown(data, r[i].0)
  {
    Filter((f: (string, string)) => Shown(data, f.0), order)
  }

  /** The blocks are exactly the shown fields, each printed with its label and value. */
  lemma {:induction false} BlocksAreShown(order: seq<(string, string)>, data: Items)
    ensures var sf := ShownFields(order, data);
      Blocks(order, data) == seq(|sf|, i requires 0 <= i < |sf| => Block(sf[i].1, Get(data, sf[i].0).value))
  {
    var p := (f: (string, string)) => Shown(data, f.0);
    if order != [] {
      var init, last := order[..|order| - 1], order[|order| - 1];
      BlocksAreShown(init, data);
      assert order == init + [last];
      FilterConcat(p, init, [last]);
      assert Filter(p, [last]) == if p(last) then [last] else [] by {
        assert [last][1..] == [];
      }
    }
  }

  /** Fields outside `order` are never printed: two dictionaries that agree on `order` print the same. */
  lemma {:induction false} BlocksOnlyOrder(order: seq<(string, string)>, d1: Items, d2: Items)
    requires forall i :: 0 <= i < |order| ==> Get(d1, order[i].0) == Get(d2, order[i].0)
    ensures Blocks(order, d1) == Blocks(order, d2)
  {
    if order != [] {
      BlocksOnlyOrder(order[..|order| - 1], d1, d2);
    }
  }

  /** `"\n".join(formatted_output)`. */
  function Format(order: seq<(string, string)>, data: Items): string
  {
    Join(Blocks(order, data), "\n")
  }

  /** With no shown field the report is empty; with exactly one it is that field's block. */
  lemma FormatFew(order: seq<(string, string)>, data: Items)
    ensures |ShownFields(order, data)| == 0 ==> Format(order, data) == ""
    ensures var sf := ShownFields(order, data);
      |sf| == 1 ==> Format(order, data) == Block(sf[0].1, Get(data, sf[0].0).value)
  {
    BlocksAreShown(order, data);
  }

  /** The loop over a field order, appending one block per shown field. */
  method CollectBlocks(order: seq<(string, string)>, data: Items) returns (out: seq<string>)
    ensures out == Blocks(order, data)
  {
    out := [];
    for i := 0 to |order|
      invariant out == Blocks(order[..i], data)
    {
      assert order[..i + 1][..i] == order[..i];
      var field, title := order[i].0, order[i].1;
      var v := Get(data, field);
      if v.Some? && Truthy(v.value) {
        out := out + [Block(title, v.value)];
      }
    }
    assert order[..|order|] == order;
  }

  /** `format_extracted_data(data)` as written: the loop over `field_order`, then the join. */
  method FormatExtractedData(data: Items) returns (s: string)
    ensures s == Format(FieldOrder, data)
  {
    var out := CollectBlocks(FieldOrder, data);
    s := Join(out, "\n");
  }
}
