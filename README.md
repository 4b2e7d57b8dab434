# supplier_sync_ai text-side model

A Dafny model of the text-side logic of supplier_sync_ai, an OCR pipeline for invoices and other
business and identity documents. The model covers everything that works on the recognised text,
together with the checks and fallback loops around it:

- the upload checks of the web front end;
- the path and PDF checks, and the rasteriser-backend loop;
- the selection among four OCR configurations;
- the per-category field extractors for invoices, safety documents, insurance policies and
  personal identity documents, together with the older invoice extractors;
- address cleaning;
- the report formatter;
- the flattening exporter and the CSV writers;
- the `DocumentProcessor` dispatchers of the processor and core packages.

Pieces of the system that are not text logic are parameters of the model:

- **Regular expressions.** A matcher gives, for a pattern and a text, its matches in text order (`Foreign.Env.finditer`). `re.search` is the first of them and `re.findall` is their group 1.
- **Parsers.** `int()`, `float()` and `datetime.strptime` are opaque partial parsers.
- **OCR and rasterising.** The OCR engine, the PDF rasteriser, the image preprocessing and `pdfinfo` are opaque functions that succeed or raise (`Foreign.Vision`).
- **File system.** A `Foreign.Host` gives, for each path, whether it exists, whether it is a regular file and its size, plus the `POPPLER_PATH` variable.

Floats appear only as the text of their `repr`; nothing adds or compares them. Python exceptions
are an `Errors.Error` datatype carried in a `Result`. Dictionaries whose key set varies are
sequences of key/value pairs in insertion order (`Values.Items`). The records of the four
category extractors, which always hold every key, are datatypes.

A loop of the source is modelled as a method with a `while` or `for` loop. The method is proved
equal to a specification function, and the properties are stated and proved as lemmas about that
function. The dataclass `InvoiceData` of the core package and the `DocumentProcessor` class are
Dafny classes.

Where the code and its documentation disagree, the model follows the code:

- `extract_text` never raises.
- `process_invoice` stores every date match in `due_date`.
- The second `parse_date` of `invoice_processor.py` has eight formats.
- The third test extractor writes `bill_to` and `send_to` into its dictionary before creating it.
- That extractor's report prints a `send_to` field that its CSV export rejects.

## Model

| member | source | states |
|---|---|---|
| Upload.ValidateUploadedFile | app.py:12-20 | succeeds, with `True`, exactly when 0 < size ≤ 10 MB; an empty upload and an oversized one raise their own `ValueError` messages |
| Upload.UploadLimit | app.py:17-18 | the limit is 10485760 bytes and is inclusive: that size passes, one byte more is refused |
| Upload.UploadExtension | app.py:28 | the extension is the lower-cased `os.path.splitext` suffix: empty, or a dot followed by the suffix's letters |
| Upload.SaveUploadedFile | app.py:22-55 | fails exactly when the upload has no content, with the wrapped message; otherwise the saved path is exactly the temporary stem followed by the lower-cased extension of the uploaded name |
| Upload.SavedExtension | app.py:28-29 | `stem.EXT` is saved with suffix `.ext`, lower-cased |
| Paths.RFind | src/processor/invoice_extraction.py:108 | the index of the last occurrence of the character, or -1; no occurrence after it |
| Paths.BaseName | src/processor/invoice_extraction.py:108 | the final component contains no `/` and ends the path |
| Paths.PathSuffix | src/processor/invoice_extraction.py:108 | `Path.suffix` is empty or a dot-led ending of the path of length ≥ 2, with no dot or slash after its first character |
| Paths.SuffixOf | src/processor/invoice_extraction.py:108 | `stem.ext` has suffix `.ext` |
| Paths.SplitExt | app.py:28 | `os.path.splitext(p)[1]` is empty or a dot-led ending of the path, with no further dot or slash |
| Paths.SplitExtOf | app.py:28 | `stem.ext` has extension `.ext`, even when `ext` is empty |
| Paths.SuffixesDiffer | app.py:28 | `Path.suffix` and `splitext` disagree on `..pdf` and on `scan.` |
| TextUtils.Outcomes | src/utils/text_utils.py:11-16 | one outcome per configuration, in the fixed order psm 6, 3, 4, 11 |
| TextUtils.FirstLongestUnique | src/utils/text_utils.py:27-29 | at most one output is the first longest, so the selection is well defined |
| TextUtils.LongestIsFirstLongest | src/utils/text_utils.py:21-32 | the strict `>` keeps the earliest of the longest successful outputs; failures are skipped |
| TextUtils.ExtractText | src/utils/text_utils.py:9-37 | the loop's result is the first longest successful output. It is `""` exactly when no configuration yields text, and it never raises, even for whitespace-only text |
| TextUtils.CleanText | src/utils/text_utils.py:39-50 | `None` and `""` give `""`. The result has only alphanumerics and ` .,:-@`, no surrounding whitespace, and every alphanumeric of the input in order |
| ExportUtils.FlattenDict | src/utils/export_utils.py:23-40 | the loop over the entries, extending `items`, equals the recursive flattening |
| ExportUtils.FlattenValue | src/utils/export_utils.py:26-39 | the loop body for one entry equals the flattening of that entry |
| ExportUtils.FlattenDictList | src/utils/export_utils.py:31-35 | the enumerate loop equals the flattening of the list's elements under `key_i` |
| ExportUtils.FlattenInOrder | src/utils/export_utils.py:25-40 | the items are the entries' items concatenated in entry order, then passed through `dict`, so the last duplicate key wins |
| ExportUtils.DictListExpanded | src/utils/export_utils.py:31-35 | a list headed by a dictionary has element `i` flattened under `key_i`, in index order |
| ExportUtils.ScalarListJoined | src/utils/export_utils.py:36-37 | a scalar or empty list becomes one entry: the comma-joined `str` of its elements, `""` when it is empty |
| ExportUtils.NestedChild | src/utils/export_utils.py:27-30 | a nested dictionary flattens as its child does under `parent_k` |
| ExportUtils.FlattenScalar | src/utils/export_utils.py:29-39 | no value of a successful flattening is a dictionary or a list |
| ExportUtils.FlattenKeys | src/utils/export_utils.py:27 | under a non-empty parent every key starts with `parent_`, at any depth |
| ExportUtils.FlatDictUnchanged | src/utils/export_utils.py:38-39 | a flat dictionary of scalars is its own flattening |
| ExportUtils.CsvRow | src/utils/export_utils.py:15-17 | one cell per fieldname, holding the row's value under that name, or `''` when the key is absent |
| ExportUtils.ExportToFormat | src/utils/export_utils.py:5-21 | `json` returns the data. `csv` returns the flattened keys as header and one row, failing exactly when flattening fails. Any other format raises `ValueError` |
| ExportUtils.CsvRowMatchesHeader | src/utils/export_utils.py:13-17 | column by column, the CSV row holds the flattened value under that column's key |
| CsvWriter.ExtraKeys | src/processor/invoice_extraction.py:313-318 | exactly the row's keys that are not fieldnames |
| CsvWriter.RowCells | src/processor/invoice_extraction.py:313-318 | `writerow` succeeds exactly on a dictionary whose keys are all fieldnames, and writes its `CsvRow`. A non-dictionary raises `AttributeError`; any other rejected row raises `ValueError` |
| CsvWriter.WriteRows | tests/invoice_extraction_3.py:252-258 | `writerows` writes the rows in order up to the first that raises; that row's error is the result |
| Seqs.UntilErr | tests/invoice_extraction_3.py:252-258 | the results run up to the first error, which is returned beside them, and every result before it is a success |
| CsvWriter.Iterate | tests/invoice_extraction_3.py:252-258 | iterating a list gives its elements; a non-text scalar raises |
| CsvWriter.WriteAll | tests/invoice_extraction_3.py:252-258 | only a list can be written row by row; a truthy non-list writes nothing |
| CsvWriter.WriteAllRows | tests/invoice_extraction_3.py:252-258 | a list of dictionaries over the fieldnames is written whole, one row per dictionary, in order |
| CsvWriter.WriteStopsAtExtra | tests/invoice_extraction_3.py:252-258 | a row with a key that is not a fieldname stops the writing at that row |
| Matching.Search | src/processor/invoice_processor.py:34-45 | `re.search` is `None` exactly when there is no match, and otherwise the first match in text order |
| Matching.StrippedGroup1 | src/processor/invoice_processor.py:41-45 | `m.group(1).strip() if m else None` |
| Matching.RawGroup1 | src/processor/invoice_extraction.py:197-199 | `m.group(1) if m else None`, unstripped |
| Matching.FirstHit | src/processor/invoice_processor.py:34-45 | the index of the first pattern that matches; none before it does |
| Matching.FirstMatch | src/processor/invoice_processor.py:34-45 | the cascade is `None` exactly when no pattern matches, and otherwise the match of the first pattern in list order that does |
| Matching.FirstHitIs | src/processor/invoice_processor.py:34-45 | a matching pattern preceded only by non-matching ones decides the cascade |
| Matching.SearchCascade | src/processor/invoice_processor.py:34-45 | the `for`/`break` loop equals the cascade |
| Matching.CascadeAppend | src/processor/invoice_processor.py:34-45 | patterns after a matching prefix are never consulted |
| Matching.FindAllGroup1 | src/processor/safety_processor.py:64 | `re.findall` gives group 1 of every match, in text order |
| Matching.ToAmount | src/processor/insurance_processor.py:73-78 | `float` of the text with its commas removed, or the `ValueError` it raises |
| Matching.GuardedAmount | src/processor/invoice_processor.py:72-83 | the first match's amount; `None` when nothing matches or the conversion fails, never an exception |
| Matching.StrippedField | src/processor/safety_processor.py:44-46 | the search-then-assign step equals the stripped group 1 |
| Matching.AmountField | src/processor/insurance_processor.py:73-86 | the guarded conversion step equals the guarded amount |
| Dates.FirstFormat | src/processor/invoice_processor.py:120-136 | the index of the first format that parses; none before it does |
| Dates.ParseFirst | src/processor/invoice_processor.py:120-136 | the date cascade is `None` exactly when no format fits, and otherwise the parse under the first format that does |
| Dates.ParseFirstIs | src/processor/invoice_processor.py:120-136 | a fitting format preceded only by failing ones decides the result |
| Dates.ParseFirstAppend | src/processor/invoice_processor.py:120-136 | formats after one that fits are never consulted |
| Dates.Digits | src/processor/invoice_processor.py:132 | zero-padded decimal rendering of exactly `w` digits |
| Dates.DigitsRoundTrip | src/processor/invoice_processor.py:132 | reading back a zero-padded rendering gives the number |
| Dates.ValueRoundTrip | src/processor/invoice_processor.py:132 | rendering the value of a digit string at its width gives the string |
| Dates.IsoDate | src/processor/invoice_processor.py:132 | `strftime('%Y-%m-%d')` is ten characters, of the form digits-digits-digits |
| Dates.IsoRoundTrip | src/processor/invoice_processor.py:132 | the ISO rendering of a date reads back as that date |
| Dates.IsoCanonical | src/processor/safety_processor.py:78 | every accepted `YYYY-MM-DD` string is the rendering of its date |
| Dates.ParseToIso | src/processor/safety_processor.py:69-82 | `None` exactly when no format fits, else text that reads back as the first parse |
| InvoiceProcessor.ParseDate | src/processor/invoice_processor.py:120-136 | `None` exactly when none of the eight formats fits, else the ISO text of the parse under some format |
| InvoiceProcessor.ExtractFinalTotal | src/processor/invoice_processor.py:5-16 | `None` exactly when there is no total-like match, otherwise the conversion of the last match, whose `ValueError` propagates |
| InvoiceProcessor.ItemOf | src/processor/invoice_processor.py:99-116 | an item exactly when the match has four groups that convert, with those values |
| InvoiceProcessor.ExtractDates | src/processor/invoice_processor.py:48-66 | the date loop without `break` equals the per-slot specification |
| InvoiceProcessor.DatesLoop | src/processor/invoice_processor.py:55-66 | on any pattern list, each slot ends with the parse of the last matching pattern routed to it, `None` when there is none |
| InvoiceProcessor.ExtractItems | src/processor/invoice_processor.py:99-116 | the nested item loops equal the items of the two patterns |
| InvoiceProcessor.ItemsLoop | src/processor/invoice_processor.py:104-116 | on any pattern list, the items are those of each pattern's matches that convert, pattern by pattern, in text order |
| Seqs.AppendChosen | src/processor/invoice_processor.py:106-116 | the inner loop appends the value of every element that converts, in order, and skips the rest |
| InvoiceProcessor.ProcessInvoice | src/processor/invoice_processor.py:18-118 | filling the record field by field equals the record specification |
| InvoiceProcessor.AllRouteToDue | src/processor/invoice_processor.py:48-66 | every date pattern literal contains `Due Date` |
| InvoiceProcessor.DateNeverSet | src/processor/invoice_processor.py:56-66 | with every pattern routed to `due_date`, `date` is never written |
| InvoiceProcessor.DueDateFromLast | src/processor/invoice_processor.py:48-66 | `due_date` is the parse of the last matching pattern's capture |
| InvoiceProcessor.DueDateUnmatched | src/processor/invoice_processor.py:48-66 | with no date match neither slot is set |
| InvoiceProcessor.InvoiceRecordShape | src/processor/invoice_processor.py:20-96 | the type is `invoice`, and `date` and `bill_to` are `None`. `due_date` is set only after a date match. The invoice number and vendor are `None` exactly when no pattern of their cascade matches |
| InvoiceProcessor.InvoiceDueDate | src/processor/invoice_processor.py:48-66 | the last date pattern that matches decides `due_date` |
| InvoiceProcessor.InvoiceFailsOnlyOnTotal | src/processor/invoice_processor.py:5-16 | extraction raises exactly when the last total-like match does not convert |
| InvoiceProcessor.InvoiceItems | src/processor/invoice_processor.py:99-116 | the items are the first pattern's converting matches, then the second's, each in text order |
| SafetyProcessor.ParseDate | src/processor/safety_processor.py:69-82 | `None` exactly when none of the six formats fits, else the ISO text of a parse |
| SafetyProcessor.LabelledDate | src/processor/safety_processor.py:32-41 | set exactly when the label matches and its capture fits a format |
| SafetyProcessor.DateField | src/processor/safety_processor.py:32-41 | the search-and-parse step equals the labelled date |
| SafetyProcessor.ProcessSafetyDoc | src/processor/safety_processor.py:4-67 | setting the fields step by step equals the safety record |
| SafetyProcessor.DocumentNumberCascade | src/processor/safety_processor.py:19-29 | the document number is the stripped capture of the first matching pattern, in the order Certificate, Safety Doc, Document ID |
| SafetyProcessor.MeasuresExact | src/processor/safety_processor.py:64-65 | each measure is a stripped capture of at least six characters, and every capture longer than five after stripping is kept |
| SafetyProcessor.DayFirst | src/processor/safety_processor.py:71-73 | a string that `%d/%m/%Y` accepts is rendered from that parse |
| InsuranceProcessor.ParseDate | src/processor/insurance_processor.py:4-14 | `None` exactly when no format fits, else the parse under some format |
| InsuranceProcessor.LabelledDate | src/processor/insurance_processor.py:61-70 | set exactly when the label matches and its capture parses |
| InsuranceProcessor.BeneficiaryRuns | src/processor/insurance_processor.py:89-92 | the runs hold exactly the section's characters other than comma and newline |
| InsuranceProcessor.DateField | src/processor/insurance_processor.py:61-70 | the search-and-parse step equals the labelled date |
| InsuranceProcessor.ProcessInsuranceDoc | src/processor/insurance_processor.py:16-100 | setting the fields step by step equals the insurance record |
| InsuranceProcessor.PolicyNumberCascade | src/processor/insurance_processor.py:33-43 | the policy number is the stripped capture of the first matching pattern |
| InsuranceProcessor.BeneficiaryShape | src/processor/insurance_processor.py:89-92 | every beneficiary is non-empty, stripped, and free of commas and newlines |
| InsuranceProcessor.BeneficiaryChars | src/processor/insurance_processor.py:89-92 | the beneficiaries, in order, keep every non-space, non-comma character of the section |
| InsuranceProcessor.BeneficiariesFromSection | src/processor/insurance_processor.py:89-92 | `[]` without a section, else the split of its capture |
| InsuranceProcessor.TermsKept | src/processor/insurance_processor.py:95-98 | every term is non-empty and stripped, and every non-blank captured item is kept in order |
| InsuranceProcessor.DayFirst | src/processor/insurance_processor.py:4-14 | a day-first reading wins; month-first only when both four-digit day-first forms fail |
| PersonalProcessor.ParseDate | src/processor/personal_processor.py:4-19 | `None` exactly when none of the ten formats fits, else the parse under some format |
| PersonalProcessor.GenderCode | src/processor/personal_processor.py:109-112 | always `M` or `F`, and `M` exactly for `m`/`male` in any case |
| PersonalProcessor.InferType | src/processor/personal_processor.py:46-52 | the inference block equals the type specification |
| PersonalProcessor.ExtractNames | src/processor/personal_processor.py:68-79 | the three searches and the strategy choice equal the name specification |
| PersonalProcessor.DateField | src/processor/personal_processor.py:82-96 | the search-and-parse step equals the labelled date |
| PersonalProcessor.IdField | src/processor/personal_processor.py:55-64 | the table lookup and search equal the ID specification |
| PersonalProcessor.GenderField | src/processor/personal_processor.py:109-112 | the gender step equals its specification |
| PersonalProcessor.AddressField | src/processor/personal_processor.py:115-117 | the address step equals its specification |
| PersonalProcessor.EyeField | src/processor/personal_processor.py:124-126 | the eye-colour step equals its specification |
| PersonalProcessor.CommaListField | src/processor/personal_processor.py:129-136 | the comma split step equals its specification |
| PersonalProcessor.ProcessPersonalDoc | src/processor/personal_processor.py:21-138 | the conditional overwrites in sequence equal the personal record |
| PersonalProcessor.TypeInference | src/processor/personal_processor.py:46-52 | a truthy given type is kept. Otherwise the type is passport, driver licence or state ID, in that priority, else it stays as given |
| PersonalProcessor.IdByType | src/processor/personal_processor.py:55-64 | an ID number is found only for a table type, and only with that type's pattern |
| PersonalProcessor.NameStrategy | src/processor/personal_processor.py:68-79 | the labelled names are used exactly when both labels match; the middle name comes only from the comma pattern |
| PersonalProcessor.GenderCodes | src/processor/personal_processor.py:109-112 | a set gender is `M` or `F` |
| PersonalProcessor.AddressShape | src/processor/personal_processor.py:115-117 | a set address has no newline, no surrounding whitespace and single spaces |
| PersonalProcessor.LicenceLists | src/processor/personal_processor.py:129-136 | restrictions and endorsements are filled only for a driver licence, one stripped entry per comma piece, empty pieces kept |
| PersonalProcessor.MonthFirst | src/processor/personal_processor.py:4-19 | `%m/%d/%Y` wins over `%d/%m/%Y` |
| PdfInput.VerifyFilePath | src/processor/invoice_extraction.py:95-109 | refuses, in order, a missing path, a non-file, an empty file and a suffix outside the six, each with its own error; accepts exactly the rest |
| PdfInput.PdfAccepted | src/processor/invoice_extraction.py:95-109 | a non-empty regular `stem.pdf`, in any case, passes |
| PdfInput.VerifyPdf | src/processor/invoice_extraction.py:25-42 | succeeds exactly for a non-empty file with at least one page; every failure is a prefixed `ValueError` |
| PdfInput.Candidates | src/processor/invoice_extraction.py:51-60 | no candidate is empty |
| PdfInput.CandidatesAre | src/processor/invoice_extraction.py:51-60 | the system `None` entry is dropped: the three fixed directories, then `POPPLER_PATH` when set and non-empty |
| PdfInput.Attempt | src/processor/invoice_extraction.py:62-87 | an attempt succeeds exactly with a non-empty page list |
| PdfInput.FirstConversion | src/processor/invoice_extraction.py:62-90 | the first successful attempt's pages; when all fail, the last attempt's error |
| PdfInput.FirstConversionIs | src/processor/invoice_extraction.py:62-87 | a successful attempt preceded only by failures decides the result |
| PdfInput.ConvertPdf | src/processor/invoice_extraction.py:44-93 | success gives at least one page; every error is wrapped with the conversion prefix |
| PdfInput.ConversionOutcome | src/processor/invoice_extraction.py:62-93 | a verified PDF yields the first successful backend's pages, or the last failure's message |
| PdfInput.VerifiedFirst | src/processor/invoice_extraction.py:44-50 | a PDF that fails verification is never rasterised |
| PdfInput.SystemBackendUnused | src/processor/invoice_extraction.py:51-60 | the system installation is never tried |
| PdfInput.ConvertPdfToImages | src/processor/invoice_extraction.py:44-93 | the candidate loop with `last_error` equals the conversion |
| PdfInput.TryBackends | src/processor/invoice_extraction.py:62-87 | the backend loop returns the first non-empty page list, or the last failure's message after trying them all |
| Address.FirstKeyword | src/processor/invoice_extraction.py:275 | the first position where a whole-word keyword matches |
| Address.LabelLength | src/processor/invoice_extraction.py:272 | a label is measured only when it starts with a label word |
| Address.DropLabel | src/processor/invoice_extraction.py:272 | dropping the label leaves an ending of the text |
| Address.CleanAddress | src/processor/invoice_extraction.py:262-277 | `None` exactly for empty text, otherwise tidy, stripped and keyword-free text |
| Address.CutKeywordFree | src/processor/invoice_extraction.py:275 | no keyword survives the cut and strip |
| Address.CutAtFirst | src/processor/invoice_extraction.py:275 | the cut is made at the first keyword match |
| Address.PoNeedsWordAfter | src/processor/invoice_extraction.py:275 | `P.O.` is cut only before a word character |
| Address.LabelDropped | src/processor/invoice_extraction.py:272 | a whole Bill/Send/Ship To label is removed, case-insensitively, and nothing after it |
| Address.NoLabelKept | src/processor/invoice_extraction.py:272 | text that starts with no label word is kept |
| Address.CleanAddressPlain | tests/invoice_extraction_1.py:149-154 | tidy output that keeps every substantive character |
| Address.PlainKeeps | tests/invoice_extraction_1.py:149-154 | only whitespace, backticks and tildes are lost |
| Address.CleanAddressLabelled | tests/invoice_extraction_3.py:184-192 | tidy output that is an ending of the plain cleaning |
| Address.ShipToKept | tests/invoice_extraction_3.py:184-192 | a leading Ship To label is kept in that variant |
| Address.ShipToDropped | src/processor/invoice_extraction.py:272 | a whole Ship To label is removed by the main cleaner, while the variant's cleaner keeps the same text unchanged |
| InvoiceExtraction.AmountText | src/processor/invoice_extraction.py:225-234 | an amount exactly when the pattern matches: group 1 without commas, as text |
| InvoiceExtraction.AddressField | src/processor/invoice_extraction.py:216-222 | the cleaned capture, `None` without a match or for an empty capture |
| InvoiceExtraction.ExcludedIs | src/processor/invoice_extraction.py:243 | the exclusion is `total` or `tax` in the lower-cased description |
| InvoiceExtraction.ItemOfMatch | src/processor/invoice_extraction.py:244-249 | the stripped description and converted numbers; raises exactly when a conversion fails |
| InvoiceExtraction.Collect | src/processor/invoice_extraction.py:237-249 | fails exactly at a failing outcome, with its error; otherwise at most one item per outcome |
| InvoiceExtraction.CollectChoose | src/processor/invoice_extraction.py:237-249 | without an exception, the items are the successful outcomes in order |
| InvoiceExtraction.LineItems | src/processor/invoice_extraction.py:237-249 | items are in line order, at most one per line; the first failing line ends extraction |
| InvoiceExtraction.SkippedLine | src/processor/invoice_extraction.py:240-243 | a non-matching line, or one naming a total or tax, yields nothing |
| InvoiceExtraction.SkippedLineItems | src/processor/invoice_extraction.py:237-249 | a skipped line changes nothing after it |
| InvoiceExtraction.ItemDescription | src/processor/invoice_extraction.py:240-249 | an item's description is stripped and names neither a total nor a tax |
| InvoiceExtraction.InvoiceFields | src/processor/invoice_extraction.py:168-254 | fails exactly when the items fail; the items are the line items |
| InvoiceExtraction.InvoiceNumberFrom | src/processor/invoice_extraction.py:184-194 | the invoice number is the stripped capture of the first matching pattern |
| InvoiceExtraction.FieldsShape | src/processor/invoice_extraction.py:197-234 | comma-free amounts, cleaned addresses, raw dates and purchase order |
| InvoiceExtraction.FieldsFailOnlyOnItems | src/processor/invoice_extraction.py:237-249 | without item lines, extraction succeeds with no items |
| InvoiceExtraction.ExtractAmounts | src/processor/invoice_extraction.py:225-234 | the amount loop gives one optional amount per pattern |
| InvoiceExtraction.ExtractItems | src/processor/invoice_extraction.py:237-249 | the line loop equals the line items |
| InvoiceExtraction.ExtractFields | src/processor/invoice_extraction.py:168-254 | the field logic as written equals the dictionary specification |
| InvoiceExtraction.PageImage | src/processor/invoice_extraction.py:149-158 | the first page of a converted PDF, or the image file itself; errors pass through |
| InvoiceExtraction.Recognise | src/processor/invoice_extraction.py:161-165 | the OCR text, or its failure as a prefixed `RuntimeError` |
| InvoiceExtraction.InvoiceData | src/processor/invoice_extraction.py:140-260 | every failure leaves as the wrapped `Exception`; success is the steps' result |
| InvoiceExtraction.RejectedPath | src/processor/invoice_extraction.py:146 | a file that fails the checks is never opened |
| InvoiceExtraction.AcceptedPath | src/processor/invoice_extraction.py:146-165 | an accepted file is read from its branch's image |
| InvoiceExtraction.ImagesSkipRasteriser | src/processor/invoice_extraction.py:149-158 | the rasteriser matters only on the PDF branch |
| InvoiceExtraction.ExtractInvoiceData | src/processor/invoice_extraction.py:140-260 | the steps as written equal the specification |
| InvoiceExtraction.ReadPageText | src/processor/invoice_extraction.py:146-165 | the checks, the page image and its recognition, returning on the first exception, equal the page-text specification |
| InvoiceExtraction.PreparePage | src/processor/invoice_extraction.py:149-158 | the PDF branch uses the first converted page and any other file is preprocessed from its path |
| InvoiceExtraction.ExportDataToCsv | src/processor/invoice_extraction.py:289-320 | one row under the eleven columns. Files are written only for a non-empty path. The items file is written only when items are truthy, and it alone can raise |
| InvoiceExtraction.ItemRowIs | src/processor/invoice_extraction.py:313-318 | an item's dictionary fits the item columns and gives its four cells |
| InvoiceExtraction.ExportExtracted | src/processor/invoice_extraction.py:289-320 | exporting extracted data never raises; the items file has one row per item in order |
| InvoiceExtraction.ItemsPathOf | src/processor/invoice_extraction.py:313 | `stem.csv` gets the items file `stem_items.csv` |
| InvoiceExtraction.ItemsOverwrite | src/processor/invoice_extraction.py:313 | a path without `.csv` gets the items written over the general file |
| InvoiceExtraction1.VerifyFilePath | tests/invoice_extraction_1.py:33-44 | refuses a missing path, a non-file and a bad suffix, in that order |
| InvoiceExtraction1.AcceptsMoreThanMain | tests/invoice_extraction_1.py:33-44 | accepts what the main check accepts plus empty files |
| InvoiceExtraction1.ConvertPdf | tests/invoice_extraction_1.py:17-31 | the pages from the one directory; a failure becomes a prefixed `ValueError` |
| InvoiceExtraction1.PageImage | tests/invoice_extraction_1.py:85-92 | the first page, `IndexError` for no pages, or the image file |
| InvoiceExtraction1.Letterhead | tests/invoice_extraction_1.py:70-77 | the stripped OCR of the top quarter |
| InvoiceExtraction1.Found | tests/invoice_extraction_1.py:126-131 | `None` exactly without a match, else the stripped capture |
| InvoiceExtraction1.SearchAllDistinct | tests/invoice_extraction_1.py:126-131 | the pattern loop keeps keys distinct |
| InvoiceExtraction1.SearchAllOther | tests/invoice_extraction_1.py:126-131 | keys outside the patterns keep their values |
| InvoiceExtraction1.SearchAllGet | tests/invoice_extraction_1.py:126-131 | each pattern key holds its own search's value |
| InvoiceExtraction1.SearchAllKeys | tests/invoice_extraction_1.py:126-131 | new pattern keys are appended in order |
| InvoiceExtraction1.SearchPatterns | tests/invoice_extraction_1.py:126-131 | the loop equals the pattern specification |
| InvoiceExtraction1.FieldKeysDistinct | tests/invoice_extraction_1.py:101-111 | the nine pattern keys are distinct and differ from the extra keys |
| InvoiceExtraction1.SearchFrom | tests/invoice_extraction_1.py:121-131 | the initial entries are unchanged, then the pattern keys with their values |
| InvoiceExtraction1.PatternPart | tests/invoice_extraction_1.py:121-131 | the letterhead, then the nine keys |
| InvoiceExtraction1.FieldsShape | tests/invoice_extraction_1.py:121-145 | the letterhead and nine keys always. `bill_to`, `ship_to` and `notes` appear only when matched, cleaned or stripped |
| InvoiceExtraction1.ExtractFields | tests/invoice_extraction_1.py:121-145 | the field logic as written equals the specification |
| InvoiceExtraction1.InvoiceData | tests/invoice_extraction_1.py:79-147 | check and page errors pass through; success always has the letterhead and at least ten keys |
| InvoiceExtraction1.EmptyPdf | tests/invoice_extraction_1.py:85-88 | an accepted PDF with no pages fails with `IndexError` |
| InvoiceExtraction1.ReadPage | tests/invoice_extraction_1.py:79-147 | a readable page gives the fields with the stripped letterhead |
| InvoiceExtraction1.ShownFields | tests/invoice_extraction_1.py:176-179 | every selected field is shown |
| InvoiceExtraction1.BlocksAreShown | tests/invoice_extraction_1.py:176-179 | one block per shown field, in order, with its label and value |
| InvoiceExtraction1.BlocksOnlyOrder | tests/invoice_extraction_1.py:161-179 | fields outside the order are never printed |
| InvoiceExtraction1.FormatFew | tests/invoice_extraction_1.py:177-181 | with no shown field the report is `""`; with one it is that field's block |
| InvoiceExtraction1.CollectBlocks | tests/invoice_extraction_1.py:176-179 | the loop equals the block specification |
| InvoiceExtraction1.FormatExtractedData | tests/invoice_extraction_1.py:156-181 | the report as written equals the join of the blocks |
| InvoiceExtraction3.FieldKeys3 | tests/invoice_extraction_3.py:103-113 | the pattern keys are distinct, differ from the fixed keys, and are all general columns |
| InvoiceExtraction3.Items3 | tests/invoice_extraction_3.py:158-166 | one item per match, in text order |
| InvoiceExtraction3.ExtractItems | tests/invoice_extraction_3.py:158-166 | the loop equals the item specification |
| InvoiceExtraction3.AppendPerMatch | tests/invoice_extraction_3.py:158-166 | the loop appends exactly one item per match, built from that match, in match order |
| InvoiceExtraction3.AddressRaises | tests/invoice_extraction_3.py:129-144 | fails, with `UnboundLocalError`, exactly when Bill To or Send To matches |
| InvoiceExtraction3.PatternPart3 | tests/invoice_extraction_3.py:144-155 | the two initial entries, then the nine keys |
| InvoiceExtraction3.AfterPatterns | tests/invoice_extraction_3.py:158-180 | the steps after the loop add the items and the optional keys |
| InvoiceExtraction3.Fields3Shape | tests/invoice_extraction_3.py:144-180 | on success: the letterhead, the items, nine keys, then `ship_to` and `notes` when matched, and never `bill_to` or `send_to` |
| InvoiceExtraction3.ExtractFields3 | tests/invoice_extraction_3.py:129-180 | the field logic as written equals the specification |
| InvoiceExtraction3.InvoiceData3 | tests/invoice_extraction_3.py:81-182 | check and page errors pass through |
| InvoiceExtraction3.BillToPageRaises | tests/invoice_extraction_3.py:129-137 | a page with a bill-to address fails with `UnboundLocalError` |
| InvoiceExtraction3.ItemBlock | tests/invoice_extraction_3.py:220-226 | four lines per item |
| InvoiceExtraction3.ItemLines | tests/invoice_extraction_3.py:218-226 | succeeds exactly for dictionaries, four lines each; otherwise `AttributeError` |
| InvoiceExtraction3.ItemLinesBlock | tests/invoice_extraction_3.py:220-226 | item `i` is printed at lines `4i` to `4i+3` |
| InvoiceExtraction3.AppendItemLines | tests/invoice_extraction_3.py:218-226 | the loop appends the item lines, or stops at the first non-dictionary |
| InvoiceExtraction3.NoItemsFormat | tests/invoice_extraction_3.py:194-228 | without items the report is the first variant's over this order |
| InvoiceExtraction3.ExtractedFormat | tests/invoice_extraction_3.py:194-228 | the report of extracted data never fails and lists every item after the heading |
| InvoiceExtraction3.NoAddressShown | tests/invoice_extraction_3.py:194-216 | the report of extracted data shows no Bill To or Send To block |
| InvoiceExtraction3.FormatExtractedData3 | tests/invoice_extraction_3.py:194-228 | the report loop equals the specification |
| InvoiceExtraction3.GeneralData | tests/invoice_extraction_3.py:248-249 | exactly the keys other than `items` |
| InvoiceExtraction3.ExportDataToCsv3 | tests/invoice_extraction_3.py:235-258 | the general file first, its row rejected exactly for a non-column key. The items file is written exactly when the row was written and items are truthy |
| InvoiceExtraction3.SendToRejected | tests/invoice_extraction_3.py:239-249 | a `send_to` entry makes the export raise `ValueError` |
| InvoiceExtraction3.ExtractedColumns | tests/invoice_extraction_3.py:239-241 | every key of extracted data but `items` is a column |
| InvoiceExtraction3.ItemRows | tests/invoice_extraction_3.py:252-258 | one row of four stripped groups per match |
| InvoiceExtraction3.ExportExtracted3 | tests/invoice_extraction_3.py:235-258 | exporting extracted data never raises; the items file is written exactly when there are items |
| InvoiceExtraction3.FourCells | tests/invoice_extraction_3.py:252-258 | four texts under the item columns are written as those texts |
| InvoiceExtraction3.ItemCells | tests/invoice_extraction_3.py:158-166 | an item has the four item columns and its row is its stripped groups |
| LabelledFields.InvoiceFieldsShape | tests/invoice_extraction.py:20-60 | exactly the nine keys, in order; each is its stripped capture, or `None` exactly when its label is absent |
| LabelledFields.FieldsIndependent | tests/invoice_extraction.py:22-58 | a field depends only on its own pattern's search |
| LabelledFields.ExtractInvoiceFields | tests/invoice_extraction.py:20-60 | the nine assignments equal the specification |
| DocumentDispatch.SupportedTypesAre | src/processor/document_processor.py:16-23 | exactly the four type names are supported; the default `invoice` maps to the invoice processor |
| DocumentDispatch.Run | src/processor/document_processor.py:39 | only the invoice processor can fail |
| DocumentDispatch.PreparedImage | src/processor/document_processor.py:27-32 | the file itself, or a PDF's first page; `IndexError` for no pages |
| DocumentDispatch.Dispatch | src/processor/document_processor.py:38-41 | an unsupported type raises `ValueError`, otherwise the table's processor runs |
| DocumentDispatch.UnsupportedAfterPreparation | src/processor/document_processor.py:27-41 | an unsupported type is reported only after preparation succeeds |
| DocumentDispatch.ExtractorResultReturned | src/processor/document_processor.py:35-39 | the recognised text goes unchanged to the processor, whose result is returned |
| DocumentDispatch.OnlyFirstPage | src/processor/document_processor.py:27-30 | only a PDF's first page matters |
| DocumentDispatch.DocumentProcessor.constructor | src/processor/document_processor.py:15-21 | the table is the four-entry table |
| DocumentDispatch.DocumentProcessor.ProcessDocument | src/processor/document_processor.py:23-45 | the steps as written equal the document specification |
| DocumentDispatch.PrepareImage | src/processor/document_processor.py:27-32 | a PDF is rasterised and its first page preprocessed, `IndexError` when there are no pages; any other file is preprocessed directly |
| DocumentDispatch.RunExtractor | src/processor/document_processor.py:38-39 | the extractor the table names is called on the text and its result, or its exception, is returned |
| CoreDocument.InvoiceData.constructor | src/core/document_processor.py:13-20 | every field of a fresh record is `None` |
| CoreDocument.PagesTextIs | src/core/document_processor.py:51-60 | succeeds exactly when every page does; the text is each page's text plus a newline, in order |
| CoreDocument.PdfTextIs | src/core/document_processor.py:44-65 | any failure gives `""`, discarding earlier pages |
| CoreDocument.ExtractTextFromPdf | src/core/document_processor.py:44-65 | the loop equals the page-text specification |
| CoreDocument.ExtractedInvoiceIs | src/core/document_processor.py:67-93 | each field is its first match or `None`; supplier fields are never set; a failed total conversion raises before the tax is read |
| CoreDocument.FirstMatchOnly | src/core/document_processor.py:69-93 | later matches change nothing |
| CoreDocument.ExtractInvoiceData | src/core/document_processor.py:67-93 | a fresh record holding the extracted fields, or the conversion error |
| CoreDocument.RowOfInvoice | src/core/document_processor.py:100-106 | the record's keys are exactly the six columns, and each cell is its field |
| CoreDocument.ExportToCsv | src/core/document_processor.py:100-106 | the header is the six fields in declaration order, then one row per record in list order |

## Left out

- Image preprocessing is an opaque parameter or a `prepare`/`topQuarter` function. This covers `preprocess_image` in every variant, `src/utils/image_utils.py` and the crop in `detect_letterhead`, all of which are pixel numerics.
- OCR, rasterisation, `pdfinfo` and the file system are opaque functions (`Foreign.Vision`, `Foreign.Host`). Temporary files, `shutil.copy2` and the written file contents are not modelled.
- Regular-expression semantics are opaque, except in the address cleaner. Elsewhere only the pattern literals and their flags are stated. Field properties that depend on what a pattern can capture are therefore not proved. Examples are "the rest of the line", "a word run" and the date shapes of `tests/invoice_extraction.py` and `src/core/document_processor.py`. The regexes of `clean_address` are modelled by hand: `\s+` as `Strings.SubSpaceRuns`, `` [`~] `` as `Address.Despecial`, the label pattern as `Address.DropLabel`, and `\b(?:Invoice|Date|P\.O\.|Total)\b` as `Address.KeywordAt` and `Address.FirstKeyword`. Their `\b` and `\w` are the ASCII ones; see the `Boundary` line below.
- `int()`, `float()` and `strptime` are opaque partial parsers. Consequently, a claim such as "`12/31/2024` gives `None` under the day-first safety formats" is not provable here.
- `Matching.Group` gives `""` for a group that did not take part, where `m.group(i)` gives `None`.
- JSON export is not modelled: `export_data_to_json`, `export_to_json` and the `json` branch's encoding.
- CSV quoting, escaping and line terminators are not modelled, only the header and cells.
- Logging, `print` and the `main`/`__main__` drivers are not modelled. This includes `process_invoice` and `extract_text_from_image` of `tests/invoice_extraction.py`.
- The Streamlit interface and the database code are not modelled.
- CleanText: `TextUtils.CleanText` keeps characters that pass `Strings.IsAlnum` (ASCII letters and digits) or are among ` .,:-@`, and deletes the rest. Python's `char.isalnum()` is also true for non-ASCII letters and digits. For example, the model turns `Factura número 5` into `Factura nmero 5`, while Python leaves it unchanged. The contract is proved only for the ASCII letters and digits.
- Boundary, FirstKeyword: `Address.Boundary` is `\b` over ASCII word characters (`Strings.IsWordChar`). Python's `\b` also counts non-ASCII letters and digits as word characters. Hence `Address.KeywordAt` and `Address.FirstKeyword` can find a keyword that Python does not. An example is `Invoice` directly after `é`.
- CleanAddress: because of the ASCII `\b`, `Address.CleanAddress` cuts `éInvoice` to `é`, where Python returns `éInvoice`. Its contract holds for the ASCII word class only.
- Lower, Upper: `Strings.Lower` and `Strings.Upper` map ASCII letters only, unlike Python's `str.lower()` and `str.upper()`. This affects the case-insensitive label and keyword tests of the invoice extractors, the extension tests of `PdfInput.VerifyFilePath` and `Upload.UploadExtension`, `PersonalProcessor.GenderCode`, and `PersonalProcessor.EyeColor`/`EyeField`. For example, the model gives `MARRóN` for `marrón`, where Python gives `MARRÓN`.
- BaseName, PathSuffix, SplitExt: `Paths.BaseName`, `Paths.PathSuffix` and `Paths.SplitExt` follow POSIX path semantics. Only `/` separates components, and drive letters are not recognised. On Windows, `\` also separates components. So `C:\scans\.pdf` has suffix `""` there, but `.pdf` in the model. As a result, `PdfInput.VerifyFilePath` and `Upload.UploadExtension` accept such a path in the model.
- Repr: `Values.Repr` always puts a string between single quotes and escapes nothing. Python's `repr` switches to double quotes for a string that contains a single quote (`"it's"`) and escapes backslashes and control characters.
- `Upload.SaveUploadedFile`: failures of `open`, `write` and `copy2` are not modelled. The `getsize` check after writing is left out because the written size is the content length, which is never zero on that path.
