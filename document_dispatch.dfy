/**
 * `DocumentProcessor` of the processor package: a table from document type to extractor, and
 * `process_document`, which turns a file into recognised text (the first page only, for a PDF)
 * and hands that text to the extractor the type names.
 */
module DocumentDispatch {
  import opened Wrappers
  import opened Errors
  import opened Foreign
  import opened Strings
  import TextUtils
  import InvoiceExtraction
  import InvoiceProcessor
  import SafetyProcessor
  import InsuranceProcessor
  import PersonalProcessor

  /** The four extractors the table can name. */
  datatype Processor = ProcessInvoice | ProcessSafety | ProcessInsurance | ProcessPersonal

  /** What an extractor returns, tagged by the extractor that produced it. */
  datatype Processed =
    | InvoiceData(invoice: InvoiceProcessor.InvoiceRecord)
    | SafetyData(safety: SafetyProcessor.SafetyRecord)
    | InsuranceData(insurance: InsuranceProcessor.InsuranceRecord)
    | PersonalData(personal: PersonalProcessor.PersonalRecord)

  /** `self.supported_types` as the constructor builds it. */
  const SupportedTypes: map<string, Processor> := map[
    "invoice" := ProcessInvoice,
    "safety" := ProcessSafety,
    "insurance" := ProcessInsurance,
    "personal" := ProcessPersonal]

  /** The default `doc_type` of `process_document`. */
  const DefaultType: string := "invoice"

  /** Exactly the four type names are supported, and the default is one of them. */
  lemma SupportedTypesAre(t: string)
    ensures t in SupportedTypes <==> t == "invoice" || t == "safety" || t == "insurance" || t == "personal"
    ensures DefaultType in SupportedTypes && SupportedTypes[DefaultType] == ProcessInvoice
  {
  }

  /** One extractor applied to the text; the personal extractor is called without a `doc_type`. */
  function Run(env: Env, p: Processor, text: string): (r: Result<Processed, Error>)
    ensures p.ProcessInvoice? ==> (r.Ok? <==> InvoiceProcessor.InvoiceFields(env, text).Ok?)
    ensures !p.ProcessInvoice? ==> r.Ok?
  {
    match p
    case ProcessInvoice =>
      (match InvoiceProcessor.InvoiceFields(env, text)
       case Ok(d) => Ok(InvoiceData(d))
       case Err(e) => Err(e))
    case ProcessSafety => Ok(SafetyData(SafetyProcessor.SafetyFields(env, text)))
    case ProcessInsurance => Ok(InsuranceData(InsuranceProcessor.InsuranceFields(env, text)))
    case ProcessPersonal => Ok(PersonalData(PersonalProcessor.PersonalFields(env, text, None)))
  }

  /**
   * The preprocessed image of the file: for a path ending in `.pdf` (in any case), the first page
   * rasterised without a backend directory, `IndexError` when there is none; otherwise the file
   * itself.  Every error is passed on unchanged.
   */
  function PreparedImage(vision: Vision, path: string): (r: Result<Image, Error>)
    ensures !InvoiceExtraction.IsPdfPath(path) ==> r == vision.preprocess(FromPath(path))
    ensures InvoiceExtraction.IsPdfPath(path) && vision.rasterise(path, None) == Ok([]) ==> r == Err(IndexError)
  {
    if InvoiceExtraction.IsPdfPath(path) then
      match vision.rasterise(path, None)
      case Err(e) => Err(e)
      case Ok(images) => if images == [] then Err(IndexError) else vision.preprocess(FromImage(images[0]))
    else vision.preprocess(FromPath(path))
  }

  /** The type lookup, after the text is known. */
  function Dispatch(table: map<string, Processor>, env: Env, docType: string, text: string): (r: Result<Processed, Error>)
    ensures docType !in table ==> r == Err(ValueError("Unsupported document type: " + docType))
    ensures docType in table ==> r == Run(env, table[docType], text)
  {
    if docType in table then Run(env, table[docType], text)
    else Err(ValueError("Unsupported document type: " + docType))
  }

  /** `process_document(file_path, doc_type)` over a given table. */
  function Document(table: map<string, Processor>, env: Env, vision: Vision, path: string, docType: string): Result<Processed, Error>
  {
    match PreparedImage(vision, path)
    case Err(e) => Err(e)
    case Ok(img) => Dispatch(table, env, docType, TextUtils.Longest(TextUtils.Outcomes(vision, img)))
  }

  /**
   * An unsupported type is reported only once the image has been prepared: a failure while
   * preparing it is what is raised instead.
   */
  lemma UnsupportedAfterPreparation(env: Env, vision: Vision, path: string, docType: string)
    requires docType !in SupportedTypes
    ensures PreparedImage(vision, path).Err? ==>
      Document(SupportedTypes, env, vision, path, docType) == Err(PreparedImage(vision, path).error)
    ensures PreparedImage(vision, path).Ok? ==>
      Document(SupportedTypes, env, vision, path, docType) == Err(ValueError("Unsupported document type: " + docType))
  {
  }

  /**
   * For a supported type the recognised text goes unchanged to the extractor the table names, and
   * its result is what `process_document` returns.
   */
  lemma ExtractorResultReturned(env: Env, vision: Vision, path: string, docType: string, img: Image)
    requires docType in SupportedTypes && PreparedImage(vision, path) == Ok(img)
    ensures Document(SupportedTypes, env, vision, path, docType)
      == Run(env, SupportedTypes[docType], TextUtils.Longest(TextUtils.Outcomes(vision, img)))
  {
  }

  /** Only the first page of a PDF matters: rasterisers that agree on it give the same result. */
  lemma OnlyFirstPage(env: Env, v1: Vision, v2: Vision, path: string, docType: string)
    requires InvoiceExtraction.IsPdfPath(path)
    requires v1.rasterise(path, None).Ok? && v2.rasterise(path, None).Ok?
    requires v1.rasterise(path, None).value != [] && v2.rasterise(path, None).value != []
    requires v1.rasterise(path, None).value[0] == v2.rasterise(path, None).value[0]
    requires v1.preprocess == v2.preprocess && v1.recognise == v2.recognise
    ensures Document(SupportedTypes, env, v1, path, docType) == Document(SupportedTypes, env, v2, path, docType)
  {
    assert PreparedImage(v1, path) == PreparedImage(v2, path);
    if PreparedImage(v1, path).Ok? {
      var img := PreparedImage(v1, path).value;
      assert TextUtils.Outcomes(v1, img) == TextUtils.Outcomes(v2, img);
    }
  }

  /** The call `self.supported_types[doc_type](text)`, one extractor method per table entry. */
  method RunExtractor(env: Env, p: Processor, text: string) returns (r: Result<Processed, Error>)
    ensures r == Run(env, p, text)
  {
    match p
    case ProcessInvoice =>
      var d := InvoiceProcessor.ProcessInvoice(env, text);
      r := if d.Ok? then Ok(InvoiceData(d.value)) else Err(d.error);
    case ProcessSafety =>
      var d := SafetyProcessor.ProcessSafetyDoc(env, text);
      r := Ok(SafetyData(d));
    case ProcessInsurance =>
      var d := InsuranceProcessor.ProcessInsuranceDoc(env, text);
      r := Ok(InsuranceData(d));
    case ProcessPersonal =>
      var d := PersonalProcessor.ProcessPersonalDoc(env, text);
      r := Ok(PersonalData(d));
  }

  /** The branch on the file type in `process_document`: the first page of a PDF, or the file. */
  method PrepareImage(vision: Vision, path: string) returns (r: Result<Image, Error>)
    ensures r == PreparedImage(vision, path)
  {
    if EndsWith(Lower(path), ".pdf") {
      var images := vision.rasterise(path, None);
      if images.Err? {
        return Err(images.error);
      }
      if images.value == [] {
        return Err(IndexError);
      }
      r := vision.preprocess(FromImage(images.value[0]));
    } else {
      r := vision.preprocess(FromPath(path));
    }
  }

  class DocumentProcessor {
    /** The type name to extractor table. */
    var supportedTypes: map<string, Processor>

    constructor()
      ensures supportedTypes == SupportedTypes
    {
      supportedTypes := SupportedTypes;
    }

    /** `process_document`: prepare the image, recognise its text, then look the type up. */
    method ProcessDocument(env: Env, vision: Vision, path: string, docType: string := DefaultType)
      returns (r: Result<Processed, Error>)
      ensures r == Document(supportedTypes, env, vision, path, docType)
    {
      var prepared := PrepareImage(vision, path);
      if prepared.Err? {
        return Err(prepared.error);
      }
      var processed := prepared.value;

      var text := TextUtils.ExtractText(vision, processed);

      if docType in supportedTypes {
        r := RunExtractor(env, supportedTypes[docType], text);
      } else {
        r := Err(ValueError("Unsupported document type: " + docType));
      }
    }
  }
}
