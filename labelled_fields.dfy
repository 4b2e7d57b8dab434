/**
 * `extract_invoice_fields(text)` of the first OCR script (`tests/invoice_extraction.py`): nine
 * labelled fields, each searched on its own, case-insensitively, and stored as its stripped first
 * group or `None`, in a dictionary built in that order.
 */
module LabelledFields {
  import opened Wrappers
  import opened Foreign
  import opened Strings
  import opened Values
  import opened Matching
  import opened ExportUtils
  import opened InvoiceExtraction1

  /** The nine assignments, in order, with their patterns (all with `re.IGNORECASE`). */
  const LabelledPatterns: seq<(string, Pattern)> := [
    ("supplier_name", Pattern(@"Supplier Name[:\s]*(.*)", true, false)),
    ("supplier_tax_id", Pattern(@"Supplier Tax ID[:\s]*(\w+)", true, false)),
    ("bill_to", Pattern(@"Bill To[:\s]*(.*)", true, false)),
    ("send_to", Pattern(@"Send To[:\s]*(.*)", true, false)),
    ("issue_date", Pattern(@"Issue Date[:\s]*([\d]{2,4}[-/][\d]{2}[-/][\d]{2,4})", true, false)),
    ("expiration_date", Pattern(@"Expiration Date[:\s]*([\d]{2,4}[-/][\d]{2}[-/][\d]{2,4})", true, false)),
    ("payment_terms", Pattern(@"Payment Terms[:\s]*(.*)", true, false)),
    ("purchase_order", Pattern(@"Purchase Order[:\s]*(\w+)", true, false)),
    ("notes", Pattern(@"Notes[:\s]*(.*)", true, false))]

  const LabelledKeys: seq<string> := ["supplier_name", "supplier_tax_id", "bill_to", "send_to",
    "issue_date", "expiration_date", "payment_terms", "purchase_order", "notes"]

  lemma LabelledKeysDistinct()
    ensures Names(LabelledPatterns) == LabelledKeys && Distinct(LabelledKeys)
  {
    assert Names(LabelledPatterns) == LabelledKeys;
  }

  /** `extract_invoice_fields(text)`: the nine assignments into an empty dictionary. */
  function InvoiceFields(env: Env, text: string): Items
  {
    SearchAll(env, LabelledPatterns, text, [])
  }

  /**
   * The dictionary always has the nine keys, in assignment order; each holds its field's stripped
   * capture when its pattern matches and `None` when it does not.
   */
  lemma InvoiceFieldsShape(env: Env, text: string)
    ensures var d := InvoiceFields(env, text);
      Keys(d) == LabelledKeys
      && forall i :: 0 <= i < |LabelledPatterns| ==> Get(d, LabelledPatterns[i].0) == Some(Found(env, LabelledPatterns[i].1, text))
    ensures var d := InvoiceFields(env, text);
      forall i :: 0 <= i < |LabelledPatterns| ==>
        (Get(d, LabelledPatterns[i].0) == Some(Scalar(Null)) <==> Search(env, LabelledPatterns[i].1, text).None?)
  {
    LabelledKeysDistinct();
    var d0: Items := [];
    assert Keys(d0) == [];
    SearchFrom(env, LabelledPatterns, text, d0);
    assert Keys(d0) + LabelledKeys == LabelledKeys;
  }

  /**
   * The fields are independent: a field's value depends only on its own pattern's search, so two
   * searches that agree on it give the same value for it, whatever the other patterns match.
   */
  lemma FieldsIndependent(env1: Env, env2: Env, text: string, i: nat)
    requires i < |LabelledPatterns|
    requires Search(env1, LabelledPatterns[i].1, text) == Search(env2, LabelledPatterns[i].1, text)
    ensures Get(InvoiceFields(env1, text), LabelledPatterns[i].0) == Get(InvoiceFields(env2, text), LabelledPatterns[i].0)
  {
    InvoiceFieldsShape(env1, text);
    InvoiceFieldsShape(env2, text);
  }

  /** The nine assignments as written, one after another. */
  method ExtractInvoiceFields(env: Env, text: string) returns (d: Items)
    ensures d == InvoiceFields(env, text)
  {
    d := SearchPatterns(env, LabelledPatterns, text, []);
  }
}
