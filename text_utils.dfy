/**
 * `extract_text`, which runs the OCR engine under four fixed configurations and keeps the
 * first output of greatest length, and `clean_text`, a character filter.
 */
module TextUtils {
  import opened Wrappers
  import opened Errors
  import opened Foreign
  import opened Seqs
  import opened Strings

  /** The configurations, in the order they are tried: page segmentation modes 6, 3, 4 and 11. */
  const Configs: seq<string> := [
    "--oem 3 --psm 6 -l eng",
    "--oem 3 --psm 3 -l eng",
    "--oem 3 --psm 4 -l eng",
    "--oem 3 --psm 11 -l eng"
  ]

  /** What the OCR engine returns, or raises, for each configuration in turn. */
  function Outcomes(vision: Vision, image: Image): (outs: seq<Result<string, Error>>)
    ensures |outs| == |Configs|
    ensures forall i :: 0 <= i < |Configs| ==> outs[i] == vision.recognise(image, Configs[i])
  {
    seq(|Configs|, i requires 0 <= i < |Configs| => vision.recognise(image, Configs[i]))
  }

  /**
   * `best` is no shorter than any successful output, and unless it is `""` it is the first
   * successful output of its length: outputs before it are strictly shorter.
   */
  ghost predicate FirstLongest(outs: seq<Result<string, Error>>, best: string)
  {
    (forall j :: 0 <= j < |outs| && outs[j].Ok? ==> |outs[j].value| <= |best|)
    && (best == [] || exists i :: (0 <= i < |outs| && outs[i] == Ok(best)
          && forall j :: 0 <= j < i && outs[j].Ok? ==> |outs[j].value| < |best|))
  }

  /** At most one string is the first longest output: the selection is well defined. */
  lemma FirstLongestUnique(outs: seq<Result<string, Error>>, b1: string, b2: string)
    requires FirstLongest(outs, b1) && FirstLongest(outs, b2)
    ensures b1 == b2
  {
    if b1 != [] && b2 != [] {
      var i1 :| 0 <= i1 < |outs| && outs[i1] == Ok(b1)
        && forall j :: 0 <= j < i1 && outs[j].Ok? ==> |outs[j].value| < |b1|;
      var i2 :| 0 <= i2 < |outs| && outs[i2] == Ok(b2)
        && forall j :: 0 <= j < i2 && outs[j].Ok? ==> |outs[j].value| < |b2|;
      assert |b1| == |b2|;
      assert !(i1 < i2);
      assert !(i2 < i1);
    }
  }

  /**
   * The output `extract_text` keeps after the outcomes `outs`: the output of the last outcome
   * replaces the choice so far only when it succeeded and is strictly longer.
   */
  function Longest(outs: seq<Result<string, Error>>): string
  {
    if outs == [] then ""
    else
      var prev := Longest(outs[..|outs| - 1]);
      var last := outs[|outs| - 1];
      if last.Ok? && |last.value| > |prev| then last.value else prev
  }

  /** The selection is the first longest output, as characterised by `FirstLongest`. */
  lemma {:induction false} LongestIsFirstLongest(outs: seq<Result<string, Error>>)
    ensures FirstLongest(outs, Longest(outs))
  {
    if outs != [] {
      var init := outs[..|outs| - 1];
      LongestIsFirstLongest(init);
      var prev := Longest(init);
      var last := outs[|outs| - 1];
      assert forall j :: 0 <= j < |init| ==> outs[j] == init[j];
      if last.Ok? && |last.value| > |prev| {
        assert outs[|outs| - 1] == Ok(Longest(outs));
      } else if prev != [] {
        var i :| 0 <= i < |init| && init[i] == Ok(prev)
          && forall j :: 0 <= j < i && init[j].Ok? ==> |init[j].value| < |prev|;
        assert outs[i] == Ok(prev);
      }
    }
  }

  /**
   * `extract_text(image)`: try every configuration in order, skip one that raises, and keep an
   * output only when it is strictly longer than the best so far.  It never raises: when no
   * configuration yields text the result is `""`, and whitespace-only text is returned as it is.
   */
  method ExtractText(vision: Vision, image: Image) returns (best: string)
    ensures best == Longest(Outcomes(vision, image))
    ensures FirstLongest(Outcomes(vision, image), best)
    ensures best == [] <==> forall j :: 0 <= j < |Configs| && Outcomes(vision, image)[j].Ok? ==> Outcomes(vision, image)[j].value == []
  {
    var outs := Outcomes(vision, image);
    best := "";
    var maxLength := 0;
    var i := 0;
    while i < |Configs|
      invariant 0 <= i <= |Configs|
      invariant maxLength == |best|
      invariant best == Longest(outs[..i])
    {
      var current := vision.recognise(image, Configs[i]);
      assert outs[..i + 1][i] == current;
      if current.Ok? && |current.value| > maxLength {
        best := current.value;
        maxLength := |current.value|;
      }
      assert outs[..i + 1][..i] == outs[..i];
      i := i + 1;
    }
    assert outs[..|Configs|] == outs;
    LongestIsFirstLongest(outs);
  }

  /** The characters `clean_text` keeps: alphanumerics and ` .,:-@` and the newline. */
  predicate Kept(c: char)
  {
    IsAlnum(c) || c in " .,:-@\n"
  }

  /** `clean_text(text)`, with `None` for Python's `None`. */
  function CleanText(text: Option<string>): (r: string)
    ensures text.None? || text == Some("") ==> r == ""
    ensures forall i :: 0 <= i < |r| ==> IsAlnum(r[i]) || r[i] in " .,:-@"
    ensures r == [] || (NotSpace(r[0]) && NotSpace(r[|r| - 1]))
    ensures text.Some? ==> Filter(IsAlnum, r) == Filter(IsAlnum, text.value)
  {
    if text.None? || text.value == "" then ""
    else
      var s := text.value;
      var collapsed := Collapse(s);
      var filtered := Filter(Kept, collapsed);
      FilterFrom(Kept, collapsed);
      var r := Strip(filtered);
      forall i | 0 <= i < |r| ensures IsAlnum(r[i]) || r[i] in " .,:-@" {
        StripChars(filtered, i);
        var x := r[i];
        assert x in collapsed && Kept(x);
        var j :| 0 <= j < |collapsed| && collapsed[j] == x;
      }
      forall c | IsAlnum(c) ensures NotSpace(c) {
        AlnumIsNotSpace(c);
      }
      StripKeeps(IsAlnum, filtered);
      FilterSub(IsAlnum, Kept, collapsed);
      FilterSub(IsAlnum, NotSpace, collapsed);
      FilterSub(IsAlnum, NotSpace, s);
      r
  }
}
