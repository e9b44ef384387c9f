/**
 * File-system paths as sequences of components, with the `os.path`
 * operations the decoder uses: `join`, `relpath`, `dirname`, and the
 * rebasing of a path from the caller's mount of the shared directory to
 * the decoder container's mount of it.
 */
module Paths {
  import Text

  /** `absolute` says whether the path starts at the root. */
  datatype Path = Path(absolute: bool, parts: seq<string>)

  /** A path given as a string: split on `/`; a leading `/` makes it absolute. */
  function FromString(s: string): Path
  {
    Path(|s| > 0 && s[0] == '/', Text.Fields(s, {'/'}))
  }

  /** The components of a path string are non-empty and hold no `/`. */
  lemma FromStringParts(s: string)
    ensures WellFormed(FromString(s))
  {
    var parts := Text.Fields(s, {'/'});
    Text.FieldsSolid(s, {'/'});
    forall i | 0 <= i < |parts| ensures |parts[i]| > 0 && '/' !in parts[i] {
      assert Text.Solid(parts[i], {'/'});
      assert parts[i][0] !in {'/'};
    }
  }

  /** The components joined by single `/`s, as `os.path.join` writes them. */
  function JoinParts(parts: seq<string>): string
  {
    if parts == [] then ""
    else if |parts| == 1 then parts[0]
    else parts[0] + "/" + JoinParts(parts[1..])
  }

  /** A path written as a string: a leading `/` when it is absolute. */
  function ToString(p: Path): string
  {
    (if p.absolute then "/" else "") + JoinParts(p.parts)
  }

  /** Its components are non-empty and hold no `/`: the paths a string can name. */
  predicate WellFormed(p: Path)
  {
    forall i :: 0 <= i < |p.parts| ==> |p.parts[i]| > 0 && '/' !in p.parts[i]
  }

  lemma {:induction false} FieldsOfJoinParts(parts: seq<string>)
    requires forall i :: 0 <= i < |parts| ==> |parts[i]| > 0 && '/' !in parts[i]
    ensures Text.Fields(JoinParts(parts), {'/'}) == parts
    ensures parts != [] ==> JoinParts(parts)[0] != '/'
  {
    if parts != [] {
      var w := parts[0];
      assert Text.Solid(w, {'/'}) by {
        forall k | 0 <= k < |w| ensures w[k] !in {'/'} {
          assert w[k] in w;
        }
      }
      if |parts| == 1 {
        Text.FieldsOfSolid(w, {'/'});
      } else {
        FieldsOfJoinParts(parts[1..]);
        Text.FieldsConsWord(w, '/', JoinParts(parts[1..]), {'/'});
        assert JoinParts(parts) == w + ['/'] + JoinParts(parts[1..]);
        assert JoinParts(parts)[0] == w[0];
        assert [w] + parts[1..] == parts;
      }
    }
  }

  /** Reading back a written path gives the path again. */
  lemma FromStringOfToString(p: Path)
    requires WellFormed(p)
    ensures FromString(ToString(p)) == p
  {
    var j := JoinParts(p.parts);
    FieldsOfJoinParts(p.parts);
    if p.absolute {
      assert ToString(p) == ['/'] + j;
      assert ToString(p)[1..] == j;
    } else {
      assert ToString(p) == j;
    }
  }

  /** A one-component relative path. */
  function Leaf(name: string): Path
  {
    Path(false, [name])
  }

  /** `os.path.join(a, b)`: an absolute `b` replaces `a`; otherwise `b` is appended. */
  function Join(a: Path, b: Path): Path
  {
    if b.absolute then b else Path(a.absolute, a.parts + b.parts)
  }

  /** `p` lies at or under the directory `dir`. */
  predicate Under(p: Path, dir: Path)
  {
    p.absolute == dir.absolute && dir.parts <= p.parts
  }

  /** `os.path.relpath(p, dir)` for a path under `dir`: the components after `dir`. */
  function RelPath(p: Path, dir: Path): (r: Path)
    requires Under(p, dir)
    ensures !r.absolute && Join(dir, r) == p
    ensures |r.parts| == |p.parts| - |dir.parts|
  {
    Path(false, p.parts[|dir.parts|..])
  }

  /** `os.path.dirname(p)`: everything but the last component. */
  function Dirname(p: Path): (d: Path)
    ensures |p.parts| > 0 ==> Join(d, Leaf(p.parts[|p.parts| - 1])) == p
    ensures |p.parts| == 0 ==> d == p
  {
    if |p.parts| == 0 then p else Path(p.absolute, p.parts[..|p.parts| - 1])
  }

  /** `join(to, relpath(p, from))`: the same file seen under another mount point. */
  function Rebase(p: Path, from: Path, to: Path): (r: Path)
    requires Under(p, from)
    ensures Under(r, to)
    ensures r.parts[|to.parts|..] == p.parts[|from.parts|..]
  {
    Join(to, RelPath(p, from))
  }

  /** Rebasing back undoes a rebase. */
  lemma RebaseInverse(p: Path, from: Path, to: Path)
    requires Under(p, from)
    ensures Rebase(Rebase(p, from, to), to, from) == p
  {
  }

  /** A file named `name` inside a directory under `from` is rebased to the
      same file inside the rebased directory. */
  lemma RebaseLeaf(dir: Path, name: string, from: Path, to: Path)
    requires Under(dir, from)
    ensures Under(Join(dir, Leaf(name)), from)
    ensures Rebase(Join(dir, Leaf(name)), from, to) == Join(Rebase(dir, from, to), Leaf(name))
  {
  }

  /** The directory of a file joined onto `dir` is `dir` again. */
  lemma DirnameOfLeaf(dir: Path, name: string)
    ensures Dirname(Join(dir, Leaf(name))) == dir
  {
  }
}
