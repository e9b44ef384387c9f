/**
 * Python's argument-less `str.split()` and `str.strip()`, as used on each
 * output-index line. Both treat the same set of characters as whitespace:
 * runs of it separate fields, and it is dropped at both ends.
 */
module Text {

  /** The characters `str.isspace()` accepts. */
  const Whitespace: set<char> :=
    {'\t', '\n', '\U{B}', '\U{C}', '\r', '\U{1C}', '\U{1D}', '\U{1E}', '\U{1F}', ' ',
     '\U{85}', '\U{A0}', '\U{1680}',
     '\U{2000}', '\U{2001}', '\U{2002}', '\U{2003}', '\U{2004}', '\U{2005}',
     '\U{2006}', '\U{2007}', '\U{2008}', '\U{2009}', '\U{200A}',
     '\U{2028}', '\U{2029}', '\U{202F}', '\U{205F}', '\U{3000}'}

  /** No character of `s` is a separator. */
  predicate Solid(s: string, seps: set<char>)
  {
    forall i :: 0 <= i < |s| ==> s[i] !in seps
  }

  /** The longest prefix of `s` that holds no separator. */
  function LeadingRun(s: string, seps: set<char>): (w: string)
    ensures w <= s
    ensures |w| < |s| ==> s[|w|] in seps
  {
    if s == [] || s[0] in seps then [] else [s[0]] + LeadingRun(s[1..], seps)
  }

  /** `s.split()` generalised to a set of separators: the maximal runs of
      non-separator characters, in order. */
  function Fields(s: string, seps: set<char>): (fs: seq<string>)
    decreases |s|
  {
    if s == [] then []
    else if s[0] in seps then Fields(s[1..], seps)
    else
      var w := LeadingRun(s, seps);
      [w] + Fields(s[|w|..], seps)
  }

  /** The leading run holds no separator. */
  lemma {:induction false} LeadingRunSolid(s: string, seps: set<char>)
    ensures Solid(LeadingRun(s, seps), seps)
  {
    if s != [] && s[0] !in seps {
      LeadingRunSolid(s[1..], seps);
      var w := LeadingRun(s[1..], seps);
      assert forall i :: 1 <= i < |w| + 1 ==> ([s[0]] + w)[i] == w[i - 1];
    }
  }

  /** Every field is non-empty and holds no separator. */
  lemma {:induction false} FieldsSolid(s: string, seps: set<char>)
    ensures forall i :: 0 <= i < |Fields(s, seps)| ==>
      |Fields(s, seps)[i]| > 0 && Solid(Fields(s, seps)[i], seps)
    decreases |s|
  {
    if s == [] {
    } else if s[0] in seps {
      FieldsSolid(s[1..], seps);
      assert Fields(s, seps) == Fields(s[1..], seps);
    } else {
      var w := LeadingRun(s, seps);
      LeadingRunSolid(s, seps);
      FieldsSolid(s[|w|..], seps);
      var fs := Fields(s, seps);
      assert forall i :: 1 <= i < |fs| ==> fs[i] == Fields(s[|w|..], seps)[i - 1];
    }
  }

  /** `s.lstrip()`: drop leading separators. */
  function StripStart(s: string, seps: set<char>): (r: string)
    ensures |r| <= |s| && r == s[|s| - |r|..] && (r == [] || r[0] !in seps)
    decreases |s|
  {
    if s != [] && s[0] in seps then StripStart(s[1..], seps) else s
  }

  /** `s.rstrip()`: drop trailing separators. */
  function StripEnd(s: string, seps: set<char>): (r: string)
    ensures r <= s && (r == [] || r[|r| - 1] !in seps)
    decreases |s|
  {
    if s != [] && s[|s| - 1] in seps then StripEnd(s[..|s| - 1], seps) else s
  }

  /** `s.strip()`. */
  function Strip(s: string, seps: set<char>): string
  {
    StripEnd(StripStart(s, seps), seps)
  }

  /** A separator right after a solid run does not change that run. */
  lemma {:induction false} LeadingRunStopsAtSeparator(a: string, c: char, b: string, seps: set<char>)
    requires c in seps
    ensures LeadingRun(a + [c] + b, seps) == LeadingRun(a, seps)
  {
    if a == [] {
    } else if a[0] in seps {
    } else {
      assert (a + [c] + b)[1..] == a[1..] + [c] + b;
      LeadingRunStopsAtSeparator(a[1..], c, b, seps);
    }
  }

  /** Splitting is a homomorphism at every separator: the fields of
      `a + [c] + b` are those of `a` followed by those of `b`. */
  lemma {:induction false} FieldsAtSeparator(a: string, c: char, b: string, seps: set<char>)
    requires c in seps
    ensures Fields(a + [c] + b, seps) == Fields(a, seps) + Fields(b, seps)
    decreases |a|
  {
    var s := a + [c] + b;
    if a == [] {
      assert s[1..] == b;
    } else if a[0] in seps {
      assert s[1..] == a[1..] + [c] + b;
      FieldsAtSeparator(a[1..], c, b, seps);
    } else {
      var w := LeadingRun(a, seps);
      LeadingRunStopsAtSeparator(a, c, b, seps);
      assert s[..|w|] == w;
      assert s[|w|..] == a[|w|..] + [c] + b;
      FieldsAtSeparator(a[|w|..], c, b, seps);
    }
  }

  /** A non-empty solid string is one field. */
  lemma {:induction false} FieldsOfSolid(w: string, seps: set<char>)
    requires |w| > 0 && Solid(w, seps)
    ensures Fields(w, seps) == [w]
  {
    LeadingRunOfSolid(w, seps);
    assert w[|w|..] == [];
  }

  lemma {:induction false} LeadingRunOfSolid(w: string, seps: set<char>)
    requires Solid(w, seps)
    ensures LeadingRun(w, seps) == w
  {
  }

  /** A trailing separator adds no field. */
  lemma FieldsTrailingSeparator(a: string, c: char, seps: set<char>)
    requires c in seps
    ensures Fields(a + [c], seps) == Fields(a, seps)
  {
    FieldsAtSeparator(a, c, [], seps);
    assert a + [c] + [] == a + [c];
  }

  lemma {:induction false} FieldsOfStripStart(s: string, seps: set<char>)
    ensures Fields(StripStart(s, seps), seps) == Fields(s, seps)
    decreases |s|
  {
    if s != [] && s[0] in seps {
      FieldsOfStripStart(s[1..], seps);
    }
  }

  lemma {:induction false} FieldsOfStripEnd(s: string, seps: set<char>)
    ensures Fields(StripEnd(s, seps), seps) == Fields(s, seps)
    decreases |s|
  {
    if s != [] && s[|s| - 1] in seps {
      var t := s[..|s| - 1];
      FieldsOfStripEnd(t, seps);
      assert s == t + [s[|s| - 1]];
      FieldsTrailingSeparator(t, s[|s| - 1], seps);
    }
  }

  /** Stripping before splitting changes nothing: `s.strip().split() == s.split()`. */
  lemma StripThenSplit(s: string, seps: set<char>)
    ensures Fields(Strip(s, seps), seps) == Fields(s, seps)
  {
    FieldsOfStripEnd(StripStart(s, seps), seps);
    FieldsOfStripStart(s, seps);
  }

  /** A solid word and a separator in front of `rest` add that word in front of its fields. */
  lemma FieldsConsWord(w: string, c: char, rest: string, seps: set<char>)
    requires |w| > 0 && Solid(w, seps) && c in seps
    ensures Fields(w + [c] + rest, seps) == [w] + Fields(rest, seps)
  {
    FieldsOfSolid(w, seps);
    FieldsAtSeparator(w, c, rest, seps);
  }

  /** Printable ASCII other than the space is not whitespace. */
  lemma VisibleIsSolid(s: string)
    requires forall i :: 0 <= i < |s| ==> '!' <= s[i] <= '~'
    ensures Solid(s, Whitespace)
  {
  }

  /** Three words, each followed by a separator, split into those three words. */
  lemma ThreeFields(a: string, x: char, b: string, y: char, c: string, z: char, seps: set<char>)
    requires |a| > 0 && Solid(a, seps) && |b| > 0 && Solid(b, seps) && |c| > 0 && Solid(c, seps)
    requires x in seps && y in seps && z in seps
    ensures Fields(a + [x] + (b + [y] + (c + [z])), seps) == [a, b, c]
  {
    FieldsTrailingSeparator(c, z, seps);
    FieldsOfSolid(c, seps);
    FieldsConsWord(b, y, c + [z], seps);
    FieldsConsWord(a, x, b + [y] + (c + [z]), seps);
  }
}
