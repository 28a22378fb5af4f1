/**
 * FileLookup: what the test-data rule and the test-method helper share when they look a
 * path up in a source tree: building a file from a root and a list of paths, turning a
 * package or class name into a path, and taking the first of four candidate files that
 * exists.
 */
module FileLookup {
  import opened Wrappers
  import opened JavaText
  import opened JavaRuntime

  // ---------------------------------------------------------------- nested files

  /** `new File(… new File(new File(root, p1), p2) …, pk)`. */
  function Nested(root: FilePath, paths: seq<string>): FilePath
    decreases |paths|
  {
    if paths == [] then root else Child(Nested(root, paths[..|paths| - 1]), paths[|paths| - 1])
  }

  /** The names of all the paths, in order. */
  function AllComponents(paths: seq<string>): seq<string>
    decreases |paths|
  {
    if paths == [] then [] else AllComponents(paths[..|paths| - 1]) + Components(paths[|paths| - 1])
  }

  /** A nested file holds the root's names followed by the names of every path, in order. */
  lemma {:induction false} NestedNames(root: FilePath, paths: seq<string>)
    ensures Nested(root, paths).names == root.names + AllComponents(paths)
    decreases |paths|
  {
    if paths != [] {
      NestedNames(root, paths[..|paths| - 1]);
    }
  }

  /** Nesting one more path is nesting the first ones and then that path. */
  lemma NestedSnoc(root: FilePath, paths: seq<string>, p: string)
    ensures Nested(root, paths + [p]) == Child(Nested(root, paths), p)
  {
    assert (paths + [p])[..|paths|] == paths;
  }

  lemma NestedOfThree(root: FilePath, a: string, b: string, c: string)
    ensures Nested(root, [a]) == Child(root, a)
    ensures Nested(root, [a, b]) == Child(Child(root, a), b)
    ensures Nested(root, [a, b, c]) == Child(Child(Child(root, a), b), c)
  {
    NestedSnoc(root, [], a);
    NestedSnoc(root, [a], b);
    NestedSnoc(root, [a, b], c);
    assert [] + [a] == [a];
    assert [a] + [b] == [a, b];
    assert [a, b] + [c] == [a, b, c];
  }

  lemma NestedOfFour(root: FilePath, a: string, b: string, c: string, d: string)
    ensures Nested(root, [a, b, c, d]) == Child(Child(Child(Child(root, a), b), c), d)
  {
    NestedOfThree(root, a, b, c);
    NestedSnoc(root, [a, b, c], d);
    assert [a, b, c] + [d] == [a, b, c, d];
  }

  // ---------------------------------------------------------------- paths of packages and classes

  /** `name.replace(".", "/")`. */
  function PackagePath(name: string): string {
    ReplaceChar(name, '.', '/')
  }

  /** Replacing in a concatenation replaces in each part. */
  lemma PackagePathConcat(a: string, b: string)
    ensures PackagePath(a + b) == PackagePath(a) + PackagePath(b)
  {
    var r := PackagePath(a + b);
    assert forall i :: 0 <= i < |a| ==> r[i] == PackagePath(a)[i];
    assert forall i :: |a| <= i < |r| ==> r[i] == PackagePath(b)[i - |a|];
  }

  /** A name without dots is its own path. */
  lemma PackagePathOfSimpleName(s: string)
    requires '.' !in s
    ensures PackagePath(s) == s
  {
  }

  lemma ReplaceCharPrefix(s: string, n: nat)
    requires n <= |s|
    ensures ReplaceChar(s, '.', '/')[..n] == ReplaceChar(s[..n], '.', '/')
  {
  }

  /** The pieces of a package path between `/` are the package's pieces between `.`. */
  lemma {:induction false} PiecesOfPackagePath(name: string)
    requires '/' !in name
    ensures Pieces(PackagePath(name), '/') == Pieces(name, '.')
    decreases |name|
  {
    if name != [] {
      var init := name[..|name| - 1];
      var p := PackagePath(name);
      ReplaceCharPrefix(name, |name| - 1);
      assert p[..|p| - 1] == PackagePath(init);
      PiecesOfPackagePath(init);
    }
  }

  /** The names of a package path are the non-empty parts of the package name between its dots. */
  lemma ComponentsOfPackagePath(name: string)
    requires '/' !in name
    ensures Components(PackagePath(name)) == NonEmpty(Pieces(name, '.'))
  {
    PiecesOfPackagePath(name);
  }

  // ---------------------------------------------------------------- the first existing candidate

  /** The position of the first candidate that exists. */
  function FirstIn(candidates: seq<FilePath>, existing: set<FilePath>): (r: Option<nat>)
    ensures r.Some? ==> r.value < |candidates| && candidates[r.value] in existing
    ensures r.Some? ==> forall j :: 0 <= j < r.value ==> candidates[j] !in existing
    ensures r.None? ==> forall j :: 0 <= j < |candidates| ==> candidates[j] !in existing
    decreases |candidates|
  {
    if candidates == [] then None
    else if candidates[0] in existing then Some(0)
    else
      var rest := FirstIn(candidates[1..], existing);
      assert forall j :: 1 <= j < |candidates| ==> candidates[j] == candidates[1..][j - 1];
      if rest.None? then None else Some(rest.value + 1)
  }

  lemma StartsWithConcat(head: string, tail: string)
    ensures StartsWith(head + tail, head)
  {
    assert (head + tail)[..|head|] == head;
  }

  /** The failure message naming the path and the four places it was looked for. */
  function NotFoundMessage(path: string, level1: FilePath, level2: FilePath, level3: FilePath, level4: FilePath): (r: string)
    ensures StartsWith(r, "Path " + path + " not found in any of: ")
  {
    var head := "Path " + path + " not found in any of: ";
    var tail := PathString(level1) + ", " + PathString(level2) + ", " + PathString(level3) + ", " + PathString(level4);
    StartsWithConcat(head, tail);
    head + tail
  }

  /** Looking `path` up at four levels, most specific first: the first that exists, or the message naming all four. */
  function Lookup(path: string, level1: FilePath, level2: FilePath, level3: FilePath, level4: FilePath, existing: set<FilePath>): Result<FilePath, string> {
    var levels := [level1, level2, level3, level4];
    match FirstIn(levels, existing)
    case Some(k) => Ok(levels[k])
    case None => Err(NotFoundMessage(path, level1, level2, level3, level4))
  }

  /**
   * A lookup succeeds exactly when one of the levels exists, with the most specific level
   * that exists; it fails with the message naming all four otherwise.
   */
  lemma LookupFirstExisting(path: string, level1: FilePath, level2: FilePath, level3: FilePath, level4: FilePath, existing: set<FilePath>)
    ensures var r := Lookup(path, level1, level2, level3, level4, existing);
      (r.Ok? <==> level1 in existing || level2 in existing || level3 in existing || level4 in existing) &&
      (level1 in existing ==> r == Ok(level1)) &&
      (level1 !in existing && level2 in existing ==> r == Ok(level2)) &&
      (level1 !in existing && level2 !in existing && level3 in existing ==> r == Ok(level3)) &&
      (level1 !in existing && level2 !in existing && level3 !in existing && level4 in existing ==> r == Ok(level4)) &&
      (r.Err? ==> r.error == NotFoundMessage(path, level1, level2, level3, level4))
  {
    var levels := [level1, level2, level3, level4];
    assert levels[0] == level1 && levels[1] == level2 && levels[2] == level3 && levels[3] == level4;
  }
}
