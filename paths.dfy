/**
 * File-name suffixes on POSIX paths: `pathlib.Path(p).suffix` and `os.path.splitext(p)[1]`.
 * The two differ on names that start with dots and on a trailing dot.
 */
module Paths {
  import opened Strings

  /** `s.rfind(c)`: the last index of `c` in `s`, or `-1`. */
  function RFind(s: string, c: char): (i: int)
    ensures -1 <= i < |s|
    ensures i >= 0 ==> s[i] == c
    ensures forall j :: i < j < |s| ==> s[j] != c
  {
    if s == [] then -1
    else if s[|s| - 1] == c then |s| - 1
    else RFind(s[..|s| - 1], c)
  }

  /** An occurrence of `c` followed by none is the last one. */
  lemma RFindIs(s: string, c: char, i: int)
    requires -1 <= i < |s|
    requires i >= 0 ==> s[i] == c
    requires forall j :: i < j < |s| ==> s[j] != c
    ensures RFind(s, c) == i
  {
  }

  /** The final component of a path: everything after the last `/`. */
  function BaseName(p: string): (name: string)
    ensures '/' !in name && EndsWith(p, name)
  {
    p[RFind(p, '/') + 1..]
  }

  /**
   * `Path(p).suffix`: the final component's text from its last dot, when that dot is neither
   * its first nor its last character; `""` otherwise.
   */
  function PathSuffix(p: string): (r: string)
    ensures r == [] || (|r| >= 2 && r[0] == '.' && EndsWith(p, r))
    ensures forall j :: 1 <= j < |r| ==> r[j] != '.' && r[j] != '/'
  {
    var name := BaseName(p);
    var i := RFind(name, '.');
    if 0 < i < |name| - 1 then
      assert p[|p| - |name[i..]|..] == name[i..];
      name[i..]
    else ""
  }

  /** A name `stem.ext` whose stem ends in an ordinary character has suffix `.ext`. */
  lemma SuffixOf(stem: string, ext: string)
    requires stem != [] && stem[|stem| - 1] != '/'
    requires ext != [] && '.' !in ext && '/' !in ext
    ensures PathSuffix(stem + "." + ext) == "." + ext
  {
    var base := BaseOfStem(stem, ext);
    var name := BaseName(stem + "." + ext);
    RFindIs(name, '.', |base|);
    assert name[|base|..] == "." + ext;
  }

  /** The final component of `stem.ext` is `base.ext` for a non-empty final part `base` of the stem. */
  lemma BaseOfStem(stem: string, ext: string) returns (base: string)
    requires stem != [] && stem[|stem| - 1] != '/'
    requires '/' !in ext
    ensures base != [] && BaseName(stem + "." + ext) == base + "." + ext
  {
    var p := stem + "." + ext;
    var s := RFind(p, '/');
    assert s < |stem| - 1 by {
      assert forall j :: |stem| - 1 <= j < |p| ==> p[j] != '/';
    }
    base := p[s + 1..|stem|];
    assert BaseName(p) == base + "." + ext;
  }

  /** A final component that is all dots until position `dot` (exclusive), from `from`. */
  predicate AllDots(p: string, from: nat, dot: nat)
    requires from <= dot <= |p|
  {
    forall k :: from <= k < dot ==> p[k] == '.'
  }

  /**
   * `os.path.splitext(p)[1]`: from the last dot of the final component, provided some
   * character before that dot in the component is not a dot; `""` otherwise.
   */
  function SplitExt(p: string): (r: string)
    ensures r == [] || (r[0] == '.' && EndsWith(p, r))
    ensures forall j :: 1 <= j < |r| ==> r[j] != '.' && r[j] != '/'
  {
    var sep := RFind(p, '/');
    var dot := RFind(p, '.');
    if dot > sep && !AllDots(p, sep + 1, dot) then
      assert p[|p| - |p[dot..]|..] == p[dot..];
      p[dot..]
    else ""
  }

  /** A name `stem.ext` whose stem ends in neither `/` nor `.` has extension `.ext`, even for an empty `ext`. */
  lemma SplitExtOf(stem: string, ext: string)
    requires stem != [] && stem[|stem| - 1] != '/' && stem[|stem| - 1] != '.'
    requires '.' !in ext && '/' !in ext
    ensures SplitExt(stem + "." + ext) == "." + ext
  {
    var p := stem + "." + ext;
    var dot := RFind(p, '.');
    assert dot == |stem| by {
      assert p[|stem|] == '.';
      assert forall j :: |stem| < j < |p| ==> p[j] == ext[j - |stem| - 1];
    }
    var sep := RFind(p, '/');
    assert sep < |stem| - 1 by {
      assert forall j :: |stem| - 1 <= j < |p| ==> p[j] != '/';
    }
    assert !AllDots(p, sep + 1, dot) by {
      assert p[|stem| - 1] != '.';
    }
    assert p[dot..] == "." + ext;
  }

  /** The two suffixes part ways: a leading-dot name, and a name ending in a dot. */
  lemma SuffixesDiffer()
    ensures PathSuffix("..pdf") == ".pdf" && SplitExt("..pdf") == ""
    ensures PathSuffix("scan.") == "" && SplitExt("scan.") == "."
  {
    RFindIs("..pdf", '/', -1);
    RFindIs("..pdf", '.', 1);
    assert AllDots("..pdf", 0, 1);
    assert BaseName("..pdf") == "..pdf";
    RFindIs("scan.", '/', -1);
    RFindIs("scan.", '.', 4);
    assert BaseName("scan.") == "scan.";
    assert "scan."[0] != '.';
  }
}
