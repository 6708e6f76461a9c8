/// Paths as the browsers hold them: absolute and cleaned. A path is the list of
/// its segments, the root "/" being the empty list. Joining a name and cleaning
/// the result (filepath.Clean(filepath.Join(path, name))) is done lexically,
/// component by component, as Go's path library does.
module Paths {

  type Path = seq<string>

  const Root: Path := []

  /** A single directory entry name: not empty, not "." or "..", no separator. */
  predicate IsPlainName(n: string)
  {
    n != "" && n != "." && n != ".." && '/' !in n
  }

  /** The path one level up; the root is its own parent. */
  function Parent(p: Path): (r: Path)
    ensures p == Root ==> r == Root
    ensures p != Root ==> |r| == |p| - 1 && r + [p[|p| - 1]] == p
  {
    if p == Root then Root else p[..|p| - 1]
  }

  /** filepath.Base of the path's string form: its last segment, "/" at the root. */
  function Base(p: Path): string
  {
    if p == Root then "/" else p[|p| - 1]
  }

  /** The components of s between separators ("a/b/" gives "a", "b", ""). */
  function Split(s: string): (r: seq<string>)
    ensures |r| >= 1
    ensures forall i :: 0 <= i < |r| ==> '/' !in r[i]
  {
    if s == [] then
      [""]
    else
      var rest := Split(s[1..]);
      if s[0] == '/' then [""] + rest else [[s[0]] + rest[0]] + rest[1..]
  }

  /** The effect of one component on a cleaned path. */
  function ApplyComponent(p: Path, c: string): Path
  {
    if c == "" || c == "." then p
    else if c == ".." then Parent(p)
    else p + [c]
  }

  /** Applies the components left to right. */
  function Resolve(p: Path, comps: seq<string>): Path
    decreases |comps|
  {
    if comps == [] then p else Resolve(ApplyComponent(p, comps[0]), comps[1..])
  }

  /** filepath.Clean(filepath.Join(p, name)). */
  function Join(p: Path, name: string): Path
  {
    Resolve(p, Split(name))
  }

  /** filepath.Clean of an absolute path string. */
  function Clean(s: string): Path
  {
    Resolve(Root, Split(s))
  }

  /** "/" + each segment; empty for the root (see PathString). */
  function Slashed(p: Path): string
  {
    if p == [] then "" else "/" + p[0] + Slashed(p[1..])
  }

  /** The path as the string the source keeps and prints. */
  function PathString(p: Path): string
  {
    if p == Root then "/" else Slashed(p)
  }

  /** `cd "<path>"`: the command printed to change the shell's directory. */
  function CdCommand(p: Path): string
  {
    "cd \"" + PathString(p) + "\""
  }

  /** Every segment is a plain name: what cleaning an absolute path produces. */
  predicate IsCleanPath(p: Path)
  {
    forall i :: 0 <= i < |p| ==> IsPlainName(p[i])
  }

  lemma {:induction false} SplitNoSlash(a: string)
    requires '/' !in a
    ensures Split(a) == [a]
  {
    if a != [] {
      SplitNoSlash(a[1..]);
      assert [a[0]] + a[1..] == a;
    }
  }

  lemma {:induction false} SplitAtSlash(a: string, b: string)
    requires '/' !in a
    ensures Split(a + "/" + b) == [a] + Split(b)
  {
    if a == [] {
      assert a + "/" + b == "/" + b;
      assert ("/" + b)[1..] == b;
    } else {
      SplitAtSlash(a[1..], b);
      assert (a + "/" + b)[1..] == a[1..] + "/" + b;
      assert [a[0]] + a[1..] == a;
    }
  }

  lemma {:induction false} ResolveAppend(p: Path, a: seq<string>, b: seq<string>)
    ensures Resolve(p, a + b) == Resolve(Resolve(p, a), b)
    decreases |a|
  {
    if a != [] {
      assert (a + b)[0] == a[0];
      assert (a + b)[1..] == a[1..] + b;
      ResolveAppend(ApplyComponent(p, a[0]), a[1..], b);
    } else {
      assert a + b == b;
    }
  }

  lemma ResolveOne(p: Path, c: string)
    ensures Resolve(p, [c]) == ApplyComponent(p, c)
  {
    assert [c][1..] == [];
  }

  lemma ResolveTwo(p: Path, c: string, d: string)
    ensures Resolve(p, [c, d]) == ApplyComponent(ApplyComponent(p, c), d)
  {
    assert [c, d][1..] == [d];
    ResolveOne(ApplyComponent(p, c), d);
  }

  /** Entering a directory entry "n/" (or a link "n") appends its name. */
  lemma JoinPlainName(p: Path, n: string)
    requires IsPlainName(n)
    ensures Join(p, n) == p + [n]
    ensures Join(p, n + "/") == p + [n]
  {
    SplitNoSlash(n);
    ResolveOne(p, n);
    SplitAtSlash(n, "");
    assert n + "/" + "" == n + "/";
    ResolveTwo(p, n, "");
  }

  /** Joining ".." or entering "../" is going up, and entering "./" stays. */
  lemma JoinDots(p: Path)
    ensures Join(p, "..") == Parent(p)
    ensures Join(p, "../") == Parent(p)
    ensures Join(p, "./") == p
  {
    SplitNoSlash("..");
    ResolveOne(p, "..");
    SplitAtSlash("..", "");
    assert ".." + "/" + "" == "../";
    ResolveTwo(p, "..", "");
    SplitAtSlash(".", "");
    assert "." + "/" + "" == "./";
    ResolveTwo(p, ".", "");
  }

  /** Going into a directory and back up returns to the same path, and the
      last segment of the inner path is the name entered. */
  lemma ParentOfJoin(p: Path, n: string)
    requires IsPlainName(n)
    ensures Parent(Join(p, n + "/")) == p
    ensures Base(Join(p, n + "/")) == n
  {
    JoinPlainName(p, n);
  }

  /** The parent of a path differs from it except at the root. */
  lemma ParentFixedOnlyAtRoot(p: Path)
    ensures Parent(p) == p <==> p == Root
  {
  }

  /** Splitting a name followed by a path's "/"-prefixed segments gives the
      name and then the segments. */
  lemma {:induction false} SplitAfterName(a: string, p: Path)
    requires '/' !in a && IsCleanPath(p)
    ensures Split(a + Slashed(p)) == [a] + p
    decreases |p|
  {
    if p == [] {
      assert a + Slashed(p) == a;
      SplitNoSlash(a);
    } else {
      var rest := Slashed(p[1..]);
      assert a + Slashed(p) == a + "/" + (p[0] + rest);
      SplitAtSlash(a, p[0] + rest);
      assert IsCleanPath(p[1..]) by {
        forall i | 0 <= i < |p| - 1 ensures IsPlainName(p[1..][i]) {
          assert p[1..][i] == p[i + 1];
        }
      }
      assert IsPlainName(p[0]);
      SplitAfterName(p[0], p[1..]);
      assert [p[0]] + p[1..] == p;
    }
  }

  lemma SplitSlashed(p: Path)
    requires IsCleanPath(p)
    ensures Split(Slashed(p)) == [""] + p
  {
    assert "" + Slashed(p) == Slashed(p);
    SplitAfterName("", p);
  }

  lemma {:induction false} ResolvePlain(q: Path, p: Path)
    requires IsCleanPath(p)
    ensures Resolve(q, p) == q + p
    decreases |p|
  {
    if p != [] {
      ResolvePlain(q + [p[0]], p[1..]);
      assert q + [p[0]] + p[1..] == q + p;
    }
  }

  /** The printed form of a clean path cleans back to the same path. */
  lemma CleanPathString(p: Path)
    requires IsCleanPath(p)
    ensures Clean(PathString(p)) == p
  {
    if p == Root {
      SplitAtSlash("", "");
      assert "" + "/" + "" == "/";
      ResolveTwo(Root, "", "");
    } else {
      SplitSlashed(p);
      ResolvePlain(Root, p);
      assert Resolve(Root, [""] + p) == Resolve(Root, p);
    }
  }
}
