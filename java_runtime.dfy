/**
 * The parts of java.io.File, java.lang.Class, JUnit's Description and Java arithmetic that
 * the test-support code relies on (Unix file-system semantics).
 */
module JavaRuntime {
  import opened Wrappers
  import opened JavaText

  // ---------------------------------------------------------------- java.io.File

  /**
   * A `java.io.File` after Java's normalisation: whether its path starts with `/`, and the
   * names between the separators.
   */
  datatype FilePath = FilePath(absolute: bool, names: seq<string>)

  /** A name that can stand between two separators. */
  predicate IsName(s: string) {
    s != "" && '/' !in s
  }

  predicate ValidNames(names: seq<string>) {
    forall k :: 0 <= k < |names| ==> IsName(names[k])
  }

  predicate ValidFile(f: FilePath) {
    ValidNames(f.names)
  }

  /** The non-empty strings of `parts`, in order. */
  function NonEmpty(parts: seq<string>): (r: seq<string>)
    ensures |r| <= |parts|
    ensures forall x :: x in r <==> x in parts && x != ""
    decreases |parts|
  {
    if parts == [] then []
    else
      var init := NonEmpty(parts[..|parts| - 1]);
      if parts[|parts| - 1] == "" then init else init + [parts[|parts| - 1]]
  }

  /** The names of a path string: runs of repeated separators and a trailing one are dropped. */
  function Components(path: string): (r: seq<string>)
    ensures ValidNames(r)
  {
    var parts := Pieces(path, '/');
    PiecesAvoidSeparator(path, '/');
    var r := NonEmpty(parts);
    assert forall k :: 0 <= k < |r| ==> r[k] in parts;
    r
  }

  /** `new File(path)`. */
  function NewFile(path: string): FilePath {
    FilePath(StartsWith(path, "/"), Components(path))
  }

  /**
   * `new File(parent, child)`: the child's names are appended; a parent whose path is the
   * empty string resolves the child against the root directory.
   */
  function Child(parent: FilePath, child: string): (r: FilePath)
    ensures ValidFile(parent) ==> ValidFile(r)
    ensures r.names == parent.names + Components(child)
  {
    if parent == FilePath(false, []) then FilePath(true, Components(child))
    else FilePath(parent.absolute, parent.names + Components(child))
  }

  /** `file.getPath()` (also what `toString()` prints). */
  function PathString(f: FilePath): string {
    if f.absolute then "/" + Join(f.names, "/") else Join(f.names, "/")
  }

  /** `file.isAbsolute()`. */
  predicate IsAbsolute(f: FilePath) {
    f.absolute
  }

  lemma {:induction false} PiecesAfterSeparator(p: string, b: string)
    requires '/' !in b
    ensures Pieces(p + "/" + b, '/') == Pieces(p, '/') + [b]
    decreases |b|
  {
    var s := p + "/" + b;
    if b == [] {
      assert s[..|s| - 1] == p;
    } else {
      var b' := b[..|b| - 1];
      PiecesAfterSeparator(p, b');
      assert s[..|s| - 1] == p + "/" + b';
      assert b == b' + [b[|b| - 1]];
    }
  }

  lemma SeparatedAssoc(a: string, b: string, c: string)
    ensures a + "/" + (b + "/" + c) == (a + "/" + b) + "/" + c
  {
  }

  lemma PiecesAfterJoinStep(p: string, init: seq<string>, last: string)
    requires init != [] && IsName(last)
    requires Pieces(p + "/" + Join(init, "/"), '/') == Pieces(p, '/') + init
    ensures Pieces(p + "/" + Join(init + [last], "/"), '/') == Pieces(p, '/') + (init + [last])
  {
    JoinSnoc(init, last, "/");
    SeparatedAssoc(p, Join(init, "/"), last);
    PiecesAfterSeparator(p + "/" + Join(init, "/"), last);
  }

  lemma {:induction false} PiecesAfterJoin(p: string, names: seq<string>)
    requires names != [] && ValidNames(names)
    ensures Pieces(p + "/" + Join(names, "/"), '/') == Pieces(p, '/') + names
    decreases |names|
  {
    if |names| == 1 {
      assert Join(names, "/") == names[0];
      PiecesAfterSeparator(p, names[0]);
    } else {
      var init := names[..|names| - 1];
      var last := names[|names| - 1];
      assert names == init + [last];
      PiecesAfterJoin(p, init);
      assert IsName(last);
      PiecesAfterJoinStep(p, init, last);
    }
  }

  /** Joining splits off the first part as well as the last. */
  lemma {:induction false} JoinFront(parts: seq<string>, sep: string)
    requires |parts| >= 2
    ensures Join(parts, sep) == parts[0] + sep + Join(parts[1..], sep)
    decreases |parts|
  {
    var init := parts[..|parts| - 1];
    if |parts| > 2 {
      JoinFront(init, sep);
      assert init[1..] == parts[1..][..|parts[1..]| - 1];
    } else {
      assert init == [parts[0]];
    }
  }

  lemma {:induction false} PiecesNoSeparator(s: string)
    requires '/' !in s
    ensures Pieces(s, '/') == [s]
    decreases |s|
  {
    if s != [] {
      PiecesNoSeparator(s[..|s| - 1]);
      assert s == s[..|s| - 1] + [s[|s| - 1]];
    }
  }

  lemma {:induction false} NonEmptyOfNames(names: seq<string>)
    requires ValidNames(names)
    ensures NonEmpty(names) == names
    decreases |names|
  {
    if names != [] {
      NonEmptyOfNames(names[..|names| - 1]);
      assert names == names[..|names| - 1] + [names[|names| - 1]];
    }
  }

  lemma {:induction false} NonEmptyAfterEmpty(names: seq<string>)
    requires ValidNames(names)
    ensures NonEmpty([""] + names) == names
    decreases |names|
  {
    if names == [] {
      assert ([""] + names)[..0] == [];
    } else {
      var init := names[..|names| - 1];
      NonEmptyAfterEmpty(init);
      assert ([""] + names)[..|names|] == [""] + init;
      assert names == init + [names[|names| - 1]];
    }
  }

  lemma PiecesOfRoot()
    ensures Pieces("/", '/') == ["", ""]
  {
    assert "/"[..0] == "";
  }

  lemma RelativePieces(names: seq<string>)
    requires |names| > 1 && ValidNames(names)
    ensures Pieces(Join(names, "/"), '/') == names
  {
    var n0 := names[0];
    PiecesNoSeparator(n0);
    JoinFront(names, "/");
    PiecesAfterJoin(n0, names[1..]);
    assert [n0] + names[1..] == names;
  }

  lemma JoinFirstChar(names: seq<string>)
    requires names != [] && names[0] != ""
    ensures Join(names, "/") != "" && Join(names, "/")[0] == names[0][0]
  {
    if |names| > 1 {
      JoinFront(names, "/");
      var rest := "/" + Join(names[1..], "/");
      assert Join(names, "/") == names[0] + rest;
    }
  }

  lemma RelativeComponents(names: seq<string>)
    requires names != [] && ValidNames(names)
    ensures Pieces(Join(names, "/"), '/') == names
  {
    if |names| > 1 {
      RelativePieces(names);
    } else {
      assert Join(names, "/") == names[0];
      PiecesNoSeparator(names[0]);
    }
  }

  lemma RelativeNotAbsolute(names: seq<string>)
    requires names != [] && ValidNames(names)
    ensures !StartsWith(Join(names, "/"), "/")
  {
    JoinFirstChar(names);
    assert names[0][0] != '/';
  }

  lemma NewFileOfAbsolute(names: seq<string>)
    requires names != [] && ValidNames(names)
    ensures NewFile(PathString(FilePath(true, names))) == FilePath(true, names)
  {
    var path := PathString(FilePath(true, names));
    assert path == "" + "/" + Join(names, "/");
    PiecesAfterJoin("", names);
    NonEmptyAfterEmpty(names);
    assert Pieces("", '/') == [""];
    assert StartsWith(path, "/");
  }

  lemma NewFileOfRelative(names: seq<string>)
    requires names != [] && ValidNames(names)
    ensures NewFile(PathString(FilePath(false, names))) == FilePath(false, names)
  {
    RelativeComponents(names);
    RelativeNotAbsolute(names);
    NonEmptyOfNames(names);
  }

  /** Printing a normalised file's path and reading it back with `new File` gives the same file. */
  lemma NewFileOfPathString(f: FilePath)
    requires ValidFile(f)
    ensures NewFile(PathString(f)) == f
  {
    if f.names == [] {
      if f.absolute {
        PiecesOfRoot();
        assert NonEmpty(["", ""]) == [];
      } else {
        assert PathString(f) == "";
      }
    } else if f.absolute {
      NewFileOfAbsolute(f.names);
    } else {
      NewFileOfRelative(f.names);
    }
  }

  lemma {:induction false} NonEmptyConcat(a: seq<string>, b: seq<string>)
    ensures NonEmpty(a + b) == NonEmpty(a) + NonEmpty(b)
    decreases |b|
  {
    if b == [] {
      assert a + b == a;
    } else {
      var b' := b[..|b| - 1];
      NonEmptyConcat(a, b');
      assert (a + b)[..|a + b| - 1] == a + b';
      assert (a + b)[|a + b| - 1] == b[|b| - 1];
      assert b' == b[..|b| - 1];
    }
  }

  /** The names of `x/y` are the names of `x` followed by those of `y`. */
  lemma ComponentsConcat(x: string, y: string)
    ensures Components(x + "/" + y) == Components(x) + Components(y)
  {
    PiecesConcat(x, y, '/');
    NonEmptyConcat(Pieces(x, '/'), Pieces(y, '/'));
  }

  /** A single name is its own only component. */
  lemma ComponentsOfName(x: string)
    requires IsName(x)
    ensures Components(x) == [x]
  {
    PiecesNoSeparator(x);
    assert NonEmpty([x]) == NonEmpty([]) + [x];
  }

  /** An absolute path string names exactly the names it was printed from. */
  lemma ComponentsOfAbsolute(names: seq<string>)
    requires ValidNames(names)
    ensures Components(PathString(FilePath(true, names))) == names
  {
    NewFileOfPathString(FilePath(true, names));
  }

  // ---------------------------------------------------------------- java.lang.Class

  /** A class: its package (`""` for the default package), enclosing classes and simple name. */
  datatype JavaClass = JavaClass(packageName: string, enclosing: seq<string>, simpleName: string)

  function Qualify(packageName: string, name: string): string {
    if packageName == "" then name else packageName + "." + name
  }

  /** `clazz.getCanonicalName()`. */
  function CanonicalName(c: JavaClass): string {
    Qualify(c.packageName, Join(c.enclosing + [c.simpleName], "."))
  }

  /** `clazz.getName()`, the binary name that JUnit reports as the test's class name. */
  function BinaryName(c: JavaClass): string {
    Qualify(c.packageName, Join(c.enclosing + [c.simpleName], "$"))
  }

  /** The JUnit `Description` of one test method. */
  datatype Description = Description(testClass: JavaClass, methodName: string)

  /** `description.getClassName()`. */
  function ClassName(d: Description): string {
    BinaryName(d.testClass)
  }

  // ---------------------------------------------------------------- arithmetic

  /** Java's `a / b` on integers: the quotient truncated toward zero. */
  function JavaDiv(a: int, b: int): (q: int)
    requires b != 0
    ensures b > 0 && a >= 0 ==> q == a / b
    ensures b > 0 && a < 0 ==> q == -((-a) / b)
  {
    var m := Abs(a) / Abs(b);
    if (a < 0) == (b < 0) then m else -m
  }

  function Abs(x: int): nat {
    if x < 0 then -x else x
  }
}
