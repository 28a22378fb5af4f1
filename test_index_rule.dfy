/**
 * TestIndexRule: a JUnit rule that keeps an index of test runs under a directory. The first
 * use in a test loads the index, counts the test, adds a record for it and creates the
 * test's own directory `indexDir/<counter>`; later calls record information, links and the
 * outcome into that record.
 *
 * The index file `indexDir/index.xml` is the field `stored`; the clock is a parameter; the
 * current directory used to canonicalise relative files is a parameter of the path
 * functions.
 */
module TestIndexing {
  import opened Wrappers
  import opened JavaText
  import opened JavaRuntime

  // ---------------------------------------------------------------- canonical paths

  /** Names that a canonical path can hold: no empty names, no `.` and no `..`. */
  predicate Plain(names: seq<string>) {
    ValidNames(names) && forall k :: 0 <= k < |names| ==> names[k] != "." && names[k] != ".."
  }

  /**
   * The names of `f.getCanonicalPath()`: a relative file is taken against the directory
   * `cwd`, then `.` is dropped and `..` removes the name before it (at the root it stays at
   * the root). Symbolic links are not modelled.
   */
  function CanonicalNames(f: FilePath, cwd: seq<string>): seq<string> {
    Resolve(if f.absolute then [] else cwd, f.names)
  }

  /** `f.getCanonicalPath()`. */
  function CanonicalPath(f: FilePath, cwd: seq<string>): string {
    PathString(FilePath(true, CanonicalNames(f, cwd)))
  }

  /** `f.getParentFile()`: the path without its last name; `null` for the root and for a single relative name. */
  function ParentFile(f: FilePath): (r: Option<FilePath>)
    ensures r.Some? ==> r.value.absolute == f.absolute && f.names != [] && r.value.names == f.names[..|f.names| - 1]
    ensures r.None? <==> f.names == [] || (!f.absolute && |f.names| == 1)
  {
    if f.names == [] || (!f.absolute && |f.names| == 1) then None
    else Some(FilePath(f.absolute, f.names[..|f.names| - 1]))
  }

  /** Following a relative path from a directory: `.` stays, `..` goes up one level, any other name goes down. */
  function Resolve(base: seq<string>, steps: seq<string>): seq<string>
    decreases |steps|
  {
    if steps == [] then base
    else if steps[0] == "." then Resolve(base, steps[1..])
    else if steps[0] == ".." then Resolve(if base == [] then [] else base[..|base| - 1], steps[1..])
    else Resolve(base + [steps[0]], steps[1..])
  }

  lemma {:induction false} ResolvePlain(base: seq<string>, steps: seq<string>)
    requires Plain(steps)
    ensures Resolve(base, steps) == base + steps
    decreases |steps|
  {
    if steps == [] {
      assert base + steps == base;
    } else {
      assert steps[0] != "..";
      ResolvePlain(base + [steps[0]], steps[1..]);
      assert base + [steps[0]] + steps[1..] == base + steps;
    }
  }

  /** The canonical names of a file whose names and directory are already plain are those names, taken against `cwd` when relative. */
  lemma CanonicalOfPlain(f: FilePath, cwd: seq<string>)
    requires Plain(cwd) && Plain(f.names)
    ensures CanonicalNames(f, cwd) == (if f.absolute then [] else cwd) + f.names
  {
    ResolvePlain(if f.absolute then [] else cwd, f.names);
  }

  datatype PathError = RootDirectory

  /**
   * `calculateRelativePath(from, to)` as written: "" for the same canonical path; the rest
   * of `to`'s path when it starts with `from`'s path as a string; otherwise `..` followed
   * by the relative path from `from`'s parent, dropped when that path is blank.
   */
  function RelativePathAsWritten(from: FilePath, to: FilePath, cwd: seq<string>): (r: Result<string, PathError>)
    ensures ParentFile(from).None? ==> r == Err(RootDirectory)
    decreases |from.names|
  {
    var parent := ParentFile(from);
    if parent.None? then Err(RootDirectory)
    else
      var fromPath := CanonicalPath(from, cwd);
      var toPath := CanonicalPath(to, cwd);
      if toPath == fromPath then Ok("")
      else if StartsWith(toPath, fromPath) then
        assert |toPath| != |fromPath|;
        Ok(toPath[|fromPath| + 1..])
      else
        var rest := RelativePathAsWritten(parent.value, to, cwd);
        if rest.Err? then rest
        else Ok(".." + (if IsBlank(rest.value) then "" else "/" + rest.value))
  }

  /**
   * The relative path the method is meant to compute: `to` lies below `from` only when its
   * path starts with `from`'s path followed by a separator, and only an empty relative path
   * from the parent is dropped.
   */
  function RelativePath(from: FilePath, to: FilePath, cwd: seq<string>): (r: Result<string, PathError>)
    ensures ParentFile(from).None? ==> r == Err(RootDirectory)
    decreases |from.names|
  {
    var parent := ParentFile(from);
    if parent.None? then Err(RootDirectory)
    else
      var fromPath := CanonicalPath(from, cwd);
      var toPath := CanonicalPath(to, cwd);
      if toPath == fromPath then Ok("")
      else if StartsWith(toPath, fromPath + "/") then Ok(toPath[|fromPath| + 1..])
      else
        var rest := RelativePath(parent.value, to, cwd);
        if rest.Err? then rest
        else Ok(".." + (if rest.value == "" then "" else "/" + rest.value))
  }

  lemma ComponentsOfDots()
    ensures Components("..") == [".."]
  {
    PiecesNoSeparator("..");
    assert NonEmpty([".."]) == NonEmpty([]) + [".."];
  }

  lemma ComponentsOfEmpty()
    ensures Components("") == []
  {
  }

  /** Going up from `from`'s canonical path is `from`'s parent's canonical path. */
  lemma CanonicalParent(from: FilePath, cwd: seq<string>)
    requires Plain(cwd) && Plain(from.names) && ParentFile(from).Some?
    ensures var names := CanonicalNames(from, cwd);
      names != [] && CanonicalNames(ParentFile(from).value, cwd) == names[..|names| - 1]
  {
    var base := if from.absolute then [] else cwd;
    ParentPlain(from);
    CanonicalOfPlain(from, cwd);
    CanonicalOfPlain(ParentFile(from).value, cwd);
    assert (base + from.names)[..|base + from.names| - 1] == base + from.names[..|from.names| - 1];
  }

  /** The case of `to` inside `from`: the relative path is the rest of `to`'s names. */
  lemma BelowCase(fromNames: seq<string>, toNames: seq<string>, p: string)
    requires Plain(fromNames) && Plain(toNames)
    requires PathString(FilePath(true, toNames)) == PathString(FilePath(true, fromNames)) + "/" + p
    ensures Resolve(fromNames, Components(p)) == toNames
  {
    var fromPath := PathString(FilePath(true, fromNames));
    ComponentsOfAbsolute(fromNames);
    ComponentsOfAbsolute(toNames);
    ComponentsConcat(fromPath, p);
    var cs := Components(p);
    assert toNames == fromNames + cs;
    assert forall k :: 0 <= k < |cs| ==> cs[k] == toNames[|fromNames| + k];
    ResolvePlain(fromNames, cs);
  }

  /** `..` followed by a separator and `q` names `..` and then `q`'s names. */
  lemma ComponentsOfUp(q: string)
    ensures Components(".." + (if q == "" then "" else "/" + q)) == [".."] + Components(q)
  {
    ComponentsOfDots();
    ComponentsOfEmpty();
    ComponentsOfSingle("..", q);
  }

  lemma ComponentsOfSingle(x: string, q: string)
    requires Components(x) == [x] && Components("") == []
    ensures Components(x + (if q == "" then "" else "/" + q)) == [x] + Components(q)
  {
    if q == "" {
      assert x + "" == x;
    } else {
      ComponentsConcat(x, q);
      assert x + ("/" + q) == x + "/" + q;
    }
  }

  /** A leading `..` step leaves the last name of a non-empty base. */
  lemma ResolveUp(base: seq<string>, steps: seq<string>)
    requires base != []
    ensures Resolve(base, [".."] + steps) == Resolve(base[..|base| - 1], steps)
  {
    assert ([".."] + steps)[1..] == steps;
  }

  /** The case of going up: `..` then the relative path `q` from the parent. */
  lemma UpCase(fromNames: seq<string>, toNames: seq<string>, q: string)
    requires fromNames != []
    requires Resolve(fromNames[..|fromNames| - 1], Components(q)) == toNames
    ensures Resolve(fromNames, Components(".." + (if q == "" then "" else "/" + q))) == toNames
  {
    ComponentsOfUp(q);
    ResolveUp(fromNames, Components(q));
  }

  /** The corrected relative path of a file that lies neither at nor below `from`: it goes up first. */
  lemma RelativePathUp(from: FilePath, to: FilePath, cwd: seq<string>)
    requires ParentFile(from).Some?
    requires CanonicalPath(to, cwd) != CanonicalPath(from, cwd)
    requires !StartsWith(CanonicalPath(to, cwd), CanonicalPath(from, cwd) + "/")
    ensures var rest := RelativePath(ParentFile(from).value, to, cwd);
      RelativePath(from, to, cwd) ==
        if rest.Err? then rest else Ok(".." + (if rest.value == "" then "" else "/" + rest.value))
  {
  }

  /** The corrected relative path of a file at or below `from`. */
  lemma RelativePathHere(from: FilePath, to: FilePath, cwd: seq<string>)
    requires ParentFile(from).Some?
    ensures var fromPath := CanonicalPath(from, cwd);
      var toPath := CanonicalPath(to, cwd);
      (toPath == fromPath ==> RelativePath(from, to, cwd) == Ok(""))
      && (toPath != fromPath && StartsWith(toPath, fromPath + "/") ==>
        RelativePath(from, to, cwd) == Ok(toPath[|fromPath| + 1..]))
  {
  }

  /** The case of equal canonical paths: the empty relative path leaves `from` where it is. */
  lemma SameCase(fromNames: seq<string>, toNames: seq<string>)
    requires ValidNames(fromNames) && ValidNames(toNames)
    requires PathString(FilePath(true, toNames)) == PathString(FilePath(true, fromNames))
    ensures Resolve(fromNames, Components("")) == toNames
  {
    ComponentsOfAbsolute(fromNames);
    ComponentsOfAbsolute(toNames);
    ComponentsOfEmpty();
  }

  /** A path starting with a prefix is the prefix followed by the rest. */
  lemma PrefixSplit(s: string, prefix: string)
    requires StartsWith(s, prefix)
    ensures s == prefix + s[|prefix|..]
  {
  }

  /** The case of `to` inside `from`, stated on the two canonical paths. */
  lemma InsideCase(fromNames: seq<string>, toNames: seq<string>)
    requires Plain(fromNames) && Plain(toNames)
    requires StartsWith(PathString(FilePath(true, toNames)), PathString(FilePath(true, fromNames)) + "/")
    ensures var fromPath := PathString(FilePath(true, fromNames));
      var toPath := PathString(FilePath(true, toNames));
      Resolve(fromNames, Components(toPath[|fromPath| + 1..])) == toNames
  {
    var fromPath := PathString(FilePath(true, fromNames));
    var toPath := PathString(FilePath(true, toNames));
    var p := toPath[|fromPath| + 1..];
    PrefixSplit(toPath, fromPath + "/");
    assert toPath == fromPath + "/" + p;
    BelowCase(fromNames, toNames, p);
  }

  /** The parent of a file whose names are plain has plain names too. */
  lemma ParentPlain(from: FilePath)
    requires Plain(from.names) && ParentFile(from).Some?
    ensures Plain(ParentFile(from).value.names)
  {
  }

  /** The step of going up: `..` followed by the relative path from the parent. */
  lemma UpBranch(from: FilePath, to: FilePath, cwd: seq<string>)
    requires Plain(cwd) && Plain(from.names) && ParentFile(from).Some?
    requires CanonicalPath(to, cwd) != CanonicalPath(from, cwd)
    requires !StartsWith(CanonicalPath(to, cwd), CanonicalPath(from, cwd) + "/")
    requires RelativePath(ParentFile(from).value, to, cwd).Ok?
    requires Resolve(CanonicalNames(ParentFile(from).value, cwd), Components(RelativePath(ParentFile(from).value, to, cwd).value))
      == CanonicalNames(to, cwd)
    ensures RelativePath(from, to, cwd).Ok?
    ensures Resolve(CanonicalNames(from, cwd), Components(RelativePath(from, to, cwd).value)) == CanonicalNames(to, cwd)
  {
    var q := RelativePath(ParentFile(from).value, to, cwd).value;
    var fromNames := CanonicalNames(from, cwd);
    RelativePathUp(from, to, cwd);
    CanonicalParent(from, cwd);
    assert Resolve(fromNames[..|fromNames| - 1], Components(q)) == CanonicalNames(to, cwd);
    UpCase(fromNames, CanonicalNames(to, cwd), q);
  }

  /** The two cases that do not go up: the same path, and `to` inside `from`. */
  lemma HereBranch(from: FilePath, to: FilePath, cwd: seq<string>)
    requires Plain(CanonicalNames(from, cwd)) && Plain(CanonicalNames(to, cwd)) && ParentFile(from).Some?
    requires CanonicalPath(to, cwd) == CanonicalPath(from, cwd)
      || StartsWith(CanonicalPath(to, cwd), CanonicalPath(from, cwd) + "/")
    ensures RelativePath(from, to, cwd).Ok?
    ensures Resolve(CanonicalNames(from, cwd), Components(RelativePath(from, to, cwd).value)) == CanonicalNames(to, cwd)
  {
    RelativePathHere(from, to, cwd);
    if CanonicalPath(to, cwd) == CanonicalPath(from, cwd) {
      SameCase(CanonicalNames(from, cwd), CanonicalNames(to, cwd));
    } else {
      InsideCase(CanonicalNames(from, cwd), CanonicalNames(to, cwd));
    }
  }

  /** Resolving names that can stand between separators from plain names gives plain names. */
  lemma {:induction false} ResolveKeepsPlain(base: seq<string>, steps: seq<string>)
    requires Plain(base) && ValidNames(steps)
    ensures Plain(Resolve(base, steps))
    decreases |steps|
  {
    if steps != [] {
      var next := if steps[0] == "." then base
        else if steps[0] == ".." then (if base == [] then [] else base[..|base| - 1])
        else base + [steps[0]];
      assert Plain(next) by {
        if steps[0] != "." && steps[0] != ".." {
          assert forall k :: 0 <= k < |next| ==> next[k] == if k < |base| then base[k] else steps[0];
        }
      }
      ResolveKeepsPlain(next, steps[1..]);
    }
  }

  /** Canonical names are plain whenever the working directory is, whatever `.` and `..` the file holds. */
  lemma CanonicalPlain(f: FilePath, cwd: seq<string>)
    requires Plain(cwd) && ValidNames(f.names)
    ensures Plain(CanonicalNames(f, cwd))
  {
    ResolveKeepsPlain(if f.absolute then [] else cwd, f.names);
  }

  /**
   * When the corrected relative path exists, following it from `from`'s canonical directory
   * arrives at `to`'s canonical path.
   */
  lemma {:induction false} RelativePathResolves(from: FilePath, to: FilePath, cwd: seq<string>)
    requires Plain(cwd) && Plain(from.names) && ValidNames(to.names)
    requires RelativePath(from, to, cwd).Ok?
    ensures Resolve(CanonicalNames(from, cwd), Components(RelativePath(from, to, cwd).value)) == CanonicalNames(to, cwd)
    decreases |from.names|
  {
    var fromPath := CanonicalPath(from, cwd);
    var toPath := CanonicalPath(to, cwd);
    if toPath == fromPath || StartsWith(toPath, fromPath + "/") {
      CanonicalPlain(from, cwd);
      CanonicalPlain(to, cwd);
      HereBranch(from, to, cwd);
    } else {
      var parent := ParentFile(from).value;
      RelativePathUp(from, to, cwd);
      ParentPlain(from);
      RelativePathResolves(parent, to, cwd);
      UpBranch(from, to, cwd);
    }
  }

  /**
   * The relative path as evidently meant when `from` holds `.` or `..`: the recursion climbs
   * from `from`'s canonical directory rather than from its abstract parent. A file without
   * a parent still fails.
   */
  function RelativePathCanonical(from: FilePath, to: FilePath, cwd: seq<string>): (r: Result<string, PathError>)
    ensures ParentFile(from).None? ==> r == Err(RootDirectory)
  {
    if ParentFile(from).None? then Err(RootDirectory)
    else RelativePath(FilePath(true, CanonicalNames(from, cwd)), to, cwd)
  }

  /** A canonical directory is its own canonical path. */
  lemma CanonicalOfCanonical(names: seq<string>, cwd: seq<string>)
    requires Plain(names)
    ensures CanonicalNames(FilePath(true, names), cwd) == names
  {
    ResolvePlain([], names);
    assert [] + names == names;
  }

  /**
   * When the relative path from `from`'s canonical directory exists, following it arrives at
   * `to`, whatever `.` and `..` the names of `from` and `to` hold.
   */
  lemma CanonicalRelativePathResolves(from: FilePath, to: FilePath, cwd: seq<string>)
    requires Plain(cwd) && ValidNames(from.names) && ValidNames(to.names)
    requires RelativePathCanonical(from, to, cwd).Ok?
    ensures Resolve(CanonicalNames(from, cwd), Components(RelativePathCanonical(from, to, cwd).value)) == CanonicalNames(to, cwd)
  {
    var names := CanonicalNames(from, cwd);
    CanonicalPlain(from, cwd);
    CanonicalOfCanonical(names, cwd);
    RelativePathResolves(FilePath(true, names), to, cwd);
  }

  /**
   * Climbing from the canonical directory of a plain `from` gives the same answer as
   * climbing from `from` itself, wherever the latter has one.
   */
  lemma {:induction false} CanonicalClimbAgrees(from: FilePath, to: FilePath, cwd: seq<string>)
    requires Plain(cwd) && Plain(from.names)
    requires RelativePath(from, to, cwd).Ok?
    ensures RelativePath(FilePath(true, CanonicalNames(from, cwd)), to, cwd) == RelativePath(from, to, cwd)
    decreases |from.names|
  {
    var names := CanonicalNames(from, cwd);
    var c := FilePath(true, names);
    CanonicalPlain(from, cwd);
    CanonicalOfCanonical(names, cwd);
    CanonicalParent(from, cwd);
    var parent := ParentFile(from).value;
    assert ParentFile(c) == Some(FilePath(true, CanonicalNames(parent, cwd)));
    var fromPath := CanonicalPath(from, cwd);
    var toPath := CanonicalPath(to, cwd);
    if toPath != fromPath && !StartsWith(toPath, fromPath + "/") {
      ParentPlain(from);
      CanonicalClimbAgrees(parent, to, cwd);
    }
  }

  /** For a plain `from` the canonical climb only answers more often, never differently. */
  lemma RelativePathCanonicalAgrees(from: FilePath, to: FilePath, cwd: seq<string>)
    requires Plain(cwd) && Plain(from.names)
    requires RelativePath(from, to, cwd).Ok?
    ensures RelativePathCanonical(from, to, cwd) == RelativePath(from, to, cwd)
  {
    CanonicalClimbAgrees(from, to, cwd);
  }

  /** No name is blank, so `trim().isEmpty()` only holds of the empty relative path. */
  predicate NoBlankName(names: seq<string>) {
    forall k :: 0 <= k < |names| ==> !IsBlank(names[k])
  }

  /**
   * At every level of the recursion, from `from` up to the last one with a parent, `to`'s
   * canonical path extends that level's path only past a separator. This excludes exactly
   * the case where the code as written takes a sibling such as `/a/bc` for a file inside
   * `/a/b`.
   */
  predicate SeparatedAtEveryLevel(from: FilePath, to: FilePath, cwd: seq<string>)
    decreases |from.names|
  {
    var parent := ParentFile(from);
    parent.None? ||
    ((StartsWith(CanonicalPath(to, cwd), CanonicalPath(from, cwd)) ==>
        CanonicalPath(to, cwd) == CanonicalPath(from, cwd) ||
        StartsWith(CanonicalPath(to, cwd), CanonicalPath(from, cwd) + "/")) &&
     SeparatedAtEveryLevel(parent.value, to, cwd))
  }

  /** A blank relative path has no separator, so inside `from` it names one entry of `to`. */
  lemma BlankInside(fromNames: seq<string>, toNames: seq<string>, p: string)
    requires Plain(fromNames) && Plain(toNames) && p != "" && IsBlank(p)
    requires Resolve(fromNames, Components(p)) == toNames
    ensures toNames == fromNames + [p]
  {
    assert '/' !in p by {
      assert forall i :: 0 <= i < |p| ==> p[i] <= ' ';
    }
    ComponentsOfName(p);
    assert p[0] <= ' ';
    assert p != "." && p != "..";
    var single: seq<string> := [p];
    assert single[1..] == [];
  }

  /** With no blank name in `to`, the corrected relative path is empty or not blank. */
  lemma CorrectedNotBlank(from: FilePath, to: FilePath, cwd: seq<string>)
    requires Plain(cwd) && Plain(from.names) && ValidNames(to.names)
    requires NoBlankName(CanonicalNames(to, cwd))
    requires RelativePath(from, to, cwd).Ok?
    ensures RelativePath(from, to, cwd).value == "" || !IsBlank(RelativePath(from, to, cwd).value)
  {
    var p := RelativePath(from, to, cwd).value;
    var fromPath := CanonicalPath(from, cwd);
    var toPath := CanonicalPath(to, cwd);
    if toPath != fromPath && StartsWith(toPath, fromPath + "/") {
      RelativePathHere(from, to, cwd);
      CanonicalPlain(from, cwd);
      CanonicalPlain(to, cwd);
      InsideCase(CanonicalNames(from, cwd), CanonicalNames(to, cwd));
      var toNames := CanonicalNames(to, cwd);
      if p != "" && IsBlank(p) {
        BlankInside(CanonicalNames(from, cwd), toNames, p);
        assert false;
      }
    } else if toPath != fromPath {
      RelativePathUp(from, to, cwd);
      assert p[0] == '.';
    }
  }

  /**
   * Where no level sees a sibling prefix and `to` has no blank name, the code as written
   * and the corrected function compute the same relative path.
   */
  lemma {:induction false} AsWrittenAgrees(from: FilePath, to: FilePath, cwd: seq<string>)
    requires Plain(cwd) && Plain(from.names) && ValidNames(to.names)
    requires NoBlankName(CanonicalNames(to, cwd))
    requires SeparatedAtEveryLevel(from, to, cwd)
    ensures RelativePathAsWritten(from, to, cwd) == RelativePath(from, to, cwd)
    decreases |from.names|
  {
    var parent := ParentFile(from);
    if parent.Some? {
      var fromPath := CanonicalPath(from, cwd);
      var toPath := CanonicalPath(to, cwd);
      if toPath != fromPath && StartsWith(toPath, fromPath + "/") {
        assert toPath[..|fromPath|] == (fromPath + "/")[..|fromPath|];
        assert StartsWith(toPath, fromPath);
      } else if toPath != fromPath {
        assert !StartsWith(toPath, fromPath);
        ParentPlain(from);
        AsWrittenAgrees(parent.value, to, cwd);
        var rest := RelativePath(parent.value, to, cwd);
        if rest.Ok? {
          CorrectedNotBlank(parent.value, to, cwd);
        }
      }
    }
  }

  /** Joining two non-empty lists of parts puts one separator between them. */
  lemma {:induction false} JoinConcat(xs: seq<string>, ys: seq<string>, sep: string)
    requires xs != [] && ys != []
    ensures Join(xs + ys, sep) == Join(xs, sep) + sep + Join(ys, sep)
    decreases |ys|
  {
    var init := ys[..|ys| - 1];
    var y := ys[|ys| - 1];
    assert ys == init + [y];
    assert xs + ys == (xs + init) + [y];
    if init == [] {
      assert xs + init == xs;
      JoinSnoc(xs, y, sep);
    } else {
      JoinConcat(xs, init, sep);
      JoinSnoc(xs + init, y, sep);
      JoinSnoc(init, y, sep);
      var a, b := Join(xs, sep), Join(init, sep);
      assert a + sep + b + sep + y == a + sep + (b + sep + y);
    }
  }

  /** The text every canonical path inside the directory `cwd` starts with. */
  function DirPrefix(cwd: seq<string>): string {
    if cwd == [] then "/" else PathString(FilePath(true, cwd)) + "/"
  }

  /** The canonical path of a relative file with plain names is its path after `cwd`'s prefix. */
  lemma PathInside(names: seq<string>, cwd: seq<string>)
    requires Plain(cwd) && Plain(names) && names != []
    ensures CanonicalPath(FilePath(false, names), cwd) == DirPrefix(cwd) + Join(names, "/")
  {
    CanonicalOfPlain(FilePath(false, names), cwd);
    if cwd != [] {
      JoinConcat(cwd, names, "/");
      assert "/" + (Join(cwd, "/") + "/" + Join(names, "/")) == ("/" + Join(cwd, "/") + "/") + Join(names, "/");
    } else {
      assert [] + names == names;
    }
  }

  /** Comparing two paths after a common prefix is comparing what follows it. */
  lemma SamePrefix(p: string, u: string, v: string)
    ensures (p + u == p + v) <==> u == v
    ensures StartsWith(p + u, p + v) <==> StartsWith(u, v)
  {
    if p + u == p + v {
      assert u == (p + u)[|p|..];
    }
    if |v| <= |u| {
      assert (p + u)[..|p + v|] == p + u[..|v|];
      if (p + u)[..|p + v|] == p + v {
        assert u[..|v|] == (p + v)[|p|..];
      }
    }
  }

  /** What follows a directory's path inside a path that starts with it, after a common prefix. */
  lemma SamePrefixRest(p: string, u: string, v: string)
    requires |v| < |u|
    ensures (p + u)[|p + v| + 1..] == u[|v| + 1..]
  {
  }

  /** The example files' canonical paths inside any plain directory. */
  lemma PathAB(cwd: seq<string>)
    requires Plain(cwd)
    ensures CanonicalPath(ab, cwd) == DirPrefix(cwd) + "a/b"
  {
    PathInside(ab.names, cwd);
    JoinAB();
  }

  lemma PathABC(cwd: seq<string>)
    requires Plain(cwd)
    ensures CanonicalPath(abc, cwd) == DirPrefix(cwd) + "a/b/c"
  {
    PathInside(abc.names, cwd);
    JoinABC();
  }

  lemma PathABCD(cwd: seq<string>)
    requires Plain(cwd)
    ensures CanonicalPath(abcd, cwd) == DirPrefix(cwd) + "a/b/c/d"
  {
    PathInside(abcd.names, cwd);
    JoinABCD();
  }

  lemma PathABEF(cwd: seq<string>)
    requires Plain(cwd)
    ensures CanonicalPath(abef, cwd) == DirPrefix(cwd) + "a/b/e/f"
  {
    PathInside(abef.names, cwd);
    JoinABEF();
  }

  /** The example files' names joined by the separator. */
  lemma JoinAB()
    ensures Join(["a", "b"], "/") == "a/b"
  {
    assert Join(["a"], "/") == "a";
    assert ["a"] + ["b"] == ["a", "b"];
    JoinSnoc(["a"], "b", "/");
  }

  lemma JoinABC()
    ensures Join(["a", "b", "c"], "/") == "a/b/c"
  {
    JoinAB();
    assert ["a", "b"] + ["c"] == ["a", "b", "c"];
    JoinSnoc(["a", "b"], "c", "/");
  }

  lemma JoinABCD()
    ensures Join(["a", "b", "c", "d"], "/") == "a/b/c/d"
  {
    JoinABC();
    assert ["a", "b", "c"] + ["d"] == ["a", "b", "c", "d"];
    JoinSnoc(["a", "b", "c"], "d", "/");
  }

  lemma JoinABEF()
    ensures Join(["a", "b", "e", "f"], "/") == "a/b/e/f"
  {
    JoinAB();
    assert ["a", "b"] + ["e"] == ["a", "b", "e"];
    JoinSnoc(["a", "b"], "e", "/");
    assert ["a", "b", "e"] + ["f"] == ["a", "b", "e", "f"];
    JoinSnoc(["a", "b", "e"], "f", "/");
  }

  /** The texts the examples' upward steps build. */
  lemma UpTexts()
    ensures ".." + "" == ".."
    ensures ".." + ("/" + "e/f") == "../e/f"
    ensures ".." + ("/" + "../e/f") == "../../e/f"
  {
  }

  const ab := FilePath(false, ["a", "b"])
  const abc := FilePath(false, ["a", "b", "c"])
  const abcd := FilePath(false, ["a", "b", "c", "d"])
  const abef := FilePath(false, ["a", "b", "e", "f"])

  /** One step of both functions where the paths are equal. */
  lemma SameStep(from: FilePath, to: FilePath, cwd: seq<string>, path: string)
    requires ParentFile(from).Some?
    requires CanonicalPath(from, cwd) == path && CanonicalPath(to, cwd) == path
    ensures RelativePathAsWritten(from, to, cwd) == Ok("") && RelativePath(from, to, cwd) == Ok("")
  {
  }

  /** One step of both functions where `to` lies inside `from`, past a separator. */
  lemma InsideStep(from: FilePath, to: FilePath, cwd: seq<string>, fromPath: string, toPath: string)
    requires ParentFile(from).Some?
    requires CanonicalPath(from, cwd) == fromPath && CanonicalPath(to, cwd) == toPath
    requires toPath != fromPath && StartsWith(toPath, fromPath + "/")
    ensures RelativePathAsWritten(from, to, cwd) == Ok(toPath[|fromPath| + 1..])
    ensures RelativePath(from, to, cwd) == Ok(toPath[|fromPath| + 1..])
  {
    assert toPath[..|fromPath|] == (fromPath + "/")[..|fromPath|];
  }

  /** One step of both functions where `to` is not inside `from` even as a string: they go up alike. */
  lemma UpStep(from: FilePath, parent: FilePath, to: FilePath, cwd: seq<string>, fromPath: string, toPath: string, rest: string)
    requires ParentFile(from) == Some(parent)
    requires CanonicalPath(from, cwd) == fromPath && CanonicalPath(to, cwd) == toPath
    requires toPath != fromPath && !StartsWith(toPath, fromPath)
    requires RelativePathAsWritten(parent, to, cwd) == Ok(rest)
    requires RelativePath(parent, to, cwd) == Ok(rest)
    requires rest == "" || !IsBlank(rest)
    ensures var up := ".." + (if rest == "" then "" else "/" + rest);
      RelativePathAsWritten(from, to, cwd) == Ok(up) && RelativePath(from, to, cwd) == Ok(up)
  {
  }

  /**
   * The rule's first example: from `a/b/c` to `a/b/c/d` is `d`, as written and corrected,
   * whatever plain directory the relative files are taken against.
   */
  lemma ExampleSubDirectory(cwd: seq<string>)
    requires Plain(cwd)
    ensures RelativePathAsWritten(abc, abcd, cwd) == Ok("d")
    ensures RelativePath(abc, abcd, cwd) == Ok("d")
  {
    var p := DirPrefix(cwd);
    PathABC(cwd);
    PathABCD(cwd);
    assert ParentFile(abc).Some?;
    SamePrefix(p, "a/b/c/d", "a/b/c/");
    SamePrefix(p, "a/b/c/d", "a/b/c");
    assert StartsWith("a/b/c/d", "a/b/c/");
    assert p + "a/b/c" + "/" == p + "a/b/c/";
    InsideStep(abc, abcd, cwd, p + "a/b/c", p + "a/b/c/d");
    SamePrefixRest(p, "a/b/c/d", "a/b/c");
    assert "a/b/c/d"[6..] == "d";
  }

  /** The rule's second example: from `a/b/c/d` to `a/b/c` is `..`, as written and corrected. */
  lemma ExampleParent(cwd: seq<string>)
    requires Plain(cwd)
    ensures RelativePathAsWritten(abcd, abc, cwd) == Ok("..")
    ensures RelativePath(abcd, abc, cwd) == Ok("..")
  {
    var p := DirPrefix(cwd);
    PathABC(cwd);
    PathABCD(cwd);
    assert abcd.names[..3] == abc.names;
    SameStep(abc, abc, cwd, p + "a/b/c");
    SamePrefix(p, "a/b/c", "a/b/c/d");
    UpStep(abcd, abc, abc, cwd, p + "a/b/c/d", p + "a/b/c", "");
    UpTexts();
  }

  /** From `a/b` to `a/b/e/f` is `e/f`, as written and corrected. */
  lemma ExampleCousinFromGrandparent(cwd: seq<string>)
    requires Plain(cwd)
    ensures RelativePathAsWritten(ab, abef, cwd) == Ok("e/f")
    ensures RelativePath(ab, abef, cwd) == Ok("e/f")
  {
    var p := DirPrefix(cwd);
    PathAB(cwd);
    PathABEF(cwd);
    assert ab.names[..1] == ["a"];
    SamePrefix(p, "a/b/e/f", "a/b/");
    SamePrefix(p, "a/b/e/f", "a/b");
    assert StartsWith("a/b/e/f", "a/b/");
    assert p + "a/b" + "/" == p + "a/b/";
    InsideStep(ab, abef, cwd, p + "a/b", p + "a/b/e/f");
    SamePrefixRest(p, "a/b/e/f", "a/b");
    assert "a/b/e/f"[4..] == "e/f";
  }

  /** From `a/b/c` to `a/b/e/f` is `../e/f`, as written and corrected. */
  lemma ExampleCousinFromParent(cwd: seq<string>)
    requires Plain(cwd)
    ensures RelativePathAsWritten(abc, abef, cwd) == Ok("../e/f")
    ensures RelativePath(abc, abef, cwd) == Ok("../e/f")
  {
    var p := DirPrefix(cwd);
    PathABC(cwd);
    PathABEF(cwd);
    ExampleCousinFromGrandparent(cwd);
    assert abc.names[..2] == ab.names;
    SamePrefix(p, "a/b/e/f", "a/b/c");
    assert "a/b/e/f"[4] != "a/b/c"[4];
    assert "e/f"[0] > ' ';
    UpStep(abc, ab, abef, cwd, p + "a/b/c", p + "a/b/e/f", "e/f");
    UpTexts();
  }

  /** The rule's third example: from `a/b/c/d` to `a/b/e/f` is `../../e/f`, as written and corrected. */
  lemma ExampleCousin(cwd: seq<string>)
    requires Plain(cwd)
    ensures RelativePathAsWritten(abcd, abef, cwd) == Ok("../../e/f")
    ensures RelativePath(abcd, abef, cwd) == Ok("../../e/f")
  {
    var p := DirPrefix(cwd);
    PathABCD(cwd);
    PathABEF(cwd);
    ExampleCousinFromParent(cwd);
    assert abcd.names[..3] == abc.names;
    SamePrefix(p, "a/b/e/f", "a/b/c/d");
    assert "a/b/e/f"[4] != "a/b/c/d"[4];
    assert "../e/f"[0] > ' ';
    UpStep(abcd, abc, abef, cwd, p + "a/b/c/d", p + "a/b/e/f", "../e/f");
    UpTexts();
  }

  const rootAC := FilePath(true, ["a", "c"])
  const rootABUpC := FilePath(true, ["a", "b", "..", "c"])

  /** Both functions compare canonical paths: from `/a/c` to `/a/b/../c` is the empty path. */
  lemma ExampleDotDot()
    ensures CanonicalNames(rootABUpC, []) == ["a", "c"]
    ensures RelativePathAsWritten(rootAC, rootABUpC, []) == Ok("")
    ensures RelativePath(rootAC, rootABUpC, []) == Ok("")
  {
    assert CanonicalNames(rootABUpC, []) == CanonicalNames(rootAC, []);
  }

  // ---------------------------------------------------------------- where the code as written goes wrong

  const rootAB := FilePath(true, ["a", "b"])
  const rootA := FilePath(true, ["a"])
  const rootABC := FilePath(true, ["a", "bc"])
  const rootABlank := FilePath(true, ["a", " "])

  lemma FindingPaths()
    ensures CanonicalPath(rootA, []) == "/a"
    ensures CanonicalPath(rootAB, []) == "/a/b"
    ensures CanonicalPath(rootABC, []) == "/a/bc"
    ensures CanonicalPath(rootABlank, []) == "/a/ "
    ensures ParentFile(rootAB) == Some(rootA)
  {
    assert rootAB.names[..1] == rootA.names;
    assert ["a", "bc"][..1] == ["a"];
    assert ["a", " "][..1] == ["a"];
  }

  /**
   * From `/a/b` to its sibling `/a/bc` the code as written answers the empty path, because
   * `/a/bc` starts with the string `/a/b` and the character after it is skipped as if it
   * were the separator; the empty path leads back to `/a/b`.
   */
  lemma AsWrittenSiblingPrefix()
    ensures RelativePathAsWritten(rootAB, rootABC, []) == Ok("")
    ensures Resolve(CanonicalNames(rootAB, []), Components("")) != CanonicalNames(rootABC, [])
  {
    FindingPaths();
    assert StartsWith("/a/bc", "/a/b");
    assert "/a/bc"[5..] == "";
    ComponentsOfEmpty();
  }

  /** The corrected relative path from `/a/b` to `/a/bc` is `../bc`. */
  lemma CorrectedSiblingPrefix()
    ensures RelativePath(rootAB, rootABC, []) == Ok("../bc")
  {
    FindingPaths();
    assert "/a/bc"[4] != ("/a/b" + "/")[4];
    assert !StartsWith("/a/bc", "/a/b" + "/");
    assert StartsWith("/a/bc", "/a" + "/");
    assert RelativePath(rootA, rootABC, []) == Ok("bc");
    assert ".." + ("/" + "bc") == "../bc";
  }

  /**
   * From `/a/b` to `/a/ ` (a directory named by one space) the code as written drops the
   * blank relative path ` ` from the parent and answers `..`, which leads to `/a`.
   */
  lemma AsWrittenBlankName()
    ensures RelativePathAsWritten(rootAB, rootABlank, []) == Ok("..")
    ensures Resolve(CanonicalNames(rootAB, []), Components("..")) != CanonicalNames(rootABlank, [])
  {
    FindingPaths();
    assert "/a/ "[3] != "/a/b"[3];
    assert !StartsWith("/a/ ", "/a/b");
    assert StartsWith("/a/ ", "/a");
    assert RelativePathAsWritten(rootA, rootABlank, []) == Ok(" ");
    assert IsBlank(" ");
    assert ".." + "" == "..";
    ComponentsOfDots();
  }

  /** The corrected relative path from `/a/b` to `/a/ ` is `../ `. */
  lemma CorrectedBlankName()
    ensures RelativePath(rootAB, rootABlank, []) == Ok("../ ")
  {
    FindingPaths();
    assert "/a/ "[3] != "/a/b"[3];
    assert !StartsWith("/a/ ", "/a/b" + "/");
    assert StartsWith("/a/ ", "/a" + "/");
    assert RelativePath(rootA, rootABlank, []) == Ok(" ");
    assert ".." + ("/" + " ") == "../ ";
  }

  const rootX := FilePath(true, ["x"])
  const rootXY := FilePath(true, ["x", "y"])
  const rootXYZ := FilePath(true, ["x", "y", "z"])
  const rootXYZUp := FilePath(true, ["x", "y", "z", ".."])

  /** A name that can follow `/x/` without making `/x/y` a prefix of the path. */
  predicate SideName(w: string) {
    IsName(w) && w != "." && w != ".." && w[0] != 'y' && !IsBlank(w)
  }

  /** The levels of the example, from `/x/y/z/..` up to `/x`. */
  lemma DotDotPaths()
    ensures CanonicalNames(rootXYZUp, []) == ["x", "y"]
    ensures CanonicalPath(rootXYZUp, []) == "/x/y"
    ensures CanonicalPath(rootXYZ, []) == "/x/y/z"
    ensures CanonicalPath(rootXY, []) == "/x/y"
    ensures CanonicalPath(rootX, []) == "/x"
    ensures ParentFile(rootXYZUp) == Some(rootXYZ)
    ensures ParentFile(rootXYZ) == Some(rootXY)
    ensures ParentFile(rootXY) == Some(rootX)
    ensures ParentFile(rootX).Some?
  {
    assert rootXYZUp.names[..3] == rootXYZ.names;
    assert rootXYZ.names[..2] == rootXY.names;
    assert rootXY.names[..1] == rootX.names;
  }

  /** The target `/x/w` and its canonical path. */
  lemma SidePath(w: string)
    requires SideName(w)
    ensures CanonicalNames(FilePath(true, ["x", w]), []) == ["x", w]
    ensures CanonicalPath(FilePath(true, ["x", w]), []) == "/x/" + w
  {
    ResolvePlain([], ["x", w]);
    assert [] + ["x", w] == ["x", w];
    assert ["x"] + [w] == ["x", w];
    JoinSnoc(["x"], w, "/");
    assert Join(["x"], "/") == "x";
    assert "/" + ("x" + "/" + w) == "/x/" + w;
  }

  /** Where `/x/w` stands against each level's path. */
  lemma SideTexts(w: string)
    requires SideName(w)
    ensures StartsWith("/x/" + w, "/x" + "/") && "/x/" + w != "/x" && ("/x/" + w)[3..] == w
    ensures !StartsWith("/x/" + w, "/x/y") && "/x/" + w != "/x/y"
    ensures !StartsWith("/x/" + w, "/x/y/z") && "/x/" + w != "/x/y/z"
  {
    assert ("/x/" + w)[3] == w[0];
    assert ("/x/" + w)[..3] == "/x/";
    assert "/x" + "/" == "/x/";
    assert ("/x/" + w)[3..] == w;
  }

  /** `..` in front of a relative path is not blank. */
  lemma UpNotBlank(q: string)
    ensures !IsBlank(".." + ("/" + q))
  {
    assert (".." + ("/" + q))[0] == '.';
  }

  /** From `/x/y` the two functions agree: `/x/w` is `../w`. */
  lemma DotDotFromXY(w: string)
    requires SideName(w)
    ensures var to := FilePath(true, ["x", w]);
      RelativePathAsWritten(rootXY, to, []) == Ok(".." + ("/" + w))
      && RelativePath(rootXY, to, []) == Ok(".." + ("/" + w))
  {
    var to := FilePath(true, ["x", w]);
    DotDotPaths();
    SidePath(w);
    SideTexts(w);
    InsideStep(rootX, to, [], "/x", "/x/" + w);
    UpStep(rootXY, rootX, to, [], "/x/y", "/x/" + w, w);
  }

  /**
   * From `/x/y/z/..`, whose canonical path is `/x/y`, to `/x/w` the code answers
   * `../../../w`: it compares canonical paths but climbs through the abstract parents
   * `/x/y/z` and `/x/y`, one level more than the canonical directory has. The path leads
   * to `/w`. The corrected prefix test changes nothing here.
   */
  lemma AsWrittenDotDotParent(w: string)
    requires SideName(w)
    ensures var to := FilePath(true, ["x", w]);
      var p := ".." + ("/" + (".." + ("/" + (".." + ("/" + w)))));
      RelativePathAsWritten(rootXYZUp, to, []) == Ok(p)
      && RelativePath(rootXYZUp, to, []) == Ok(p)
      && Resolve(CanonicalNames(rootXYZUp, []), Components(p)) == [w]
      && [w] != CanonicalNames(to, [])
  {
    var to := FilePath(true, ["x", w]);
    var q1 := ".." + ("/" + w);
    var q2 := ".." + ("/" + q1);
    DotDotPaths();
    SidePath(w);
    SideTexts(w);
    DotDotFromXY(w);
    UpNotBlank(w);
    UpNotBlank(q1);
    UpStep(rootXYZ, rootXY, to, [], "/x/y/z", "/x/" + w, q1);
    UpStep(rootXYZUp, rootXYZ, to, [], "/x/y", "/x/" + w, q2);
    UpComponents(w);
  }

  /** The names the example's relative paths follow. */
  lemma UpNames(w: string)
    requires SideName(w)
    ensures Components(".." + ("/" + w)) == [".."] + [w]
    ensures Components(".." + ("/" + (".." + ("/" + (".." + ("/" + w))))))
      == [".."] + ([".."] + ([".."] + [w]))
  {
    var q1 := ".." + ("/" + w);
    var q2 := ".." + ("/" + q1);
    ComponentsOfName(w);
    ComponentsOfUp(w);
    ComponentsOfUp(q1);
    ComponentsOfUp(q2);
  }

  /** Three `..` steps from `/x/y` end at the root, then `w`; one ends at `/x`, then `w`. */
  lemma UpComponents(w: string)
    requires SideName(w)
    ensures Resolve(["x", "y"], Components(".." + ("/" + (".." + ("/" + (".." + ("/" + w))))))) == [w]
    ensures Resolve(["x", "y"], Components(".." + ("/" + w))) == ["x", w]
  {
    UpNames(w);
    var single: seq<string> := [w];
    ResolvePlain([], single);
    ResolvePlain(["x"], single);
    assert [] + single == single;
    ResolveUp(["x", "y"], single);
    assert ["x", "y"][..1] == ["x"];
    ResolveUp(["x", "y"], [".."] + ([".."] + single));
    ResolveUp(["x"], [".."] + single);
    assert ["x"][..0] == [];
    assert ([".."] + single)[1..] == single;
  }

  /** Climbing from the canonical directory `/x/y` instead, the path is `../w`, which leads to `/x/w`. */
  lemma CorrectedDotDotParent(w: string)
    requires SideName(w)
    ensures var to := FilePath(true, ["x", w]);
      RelativePathCanonical(rootXYZUp, to, []) == Ok(".." + ("/" + w))
      && Resolve(CanonicalNames(rootXYZUp, []), Components(".." + ("/" + w))) == CanonicalNames(to, [])
  {
    DotDotPaths();
    SidePath(w);
    DotDotFromXY(w);
    UpComponents(w);
  }

  // ---------------------------------------------------------------- the index and the rule's state

  /** One recorded piece of information about a test (`TestInfoXO`). */
  datatype TestInfo = TestInfo(link: bool, key: string, value: string)

  /** The index entry of one test (`TestXO`); the stack trace of a failure is not modelled. */
  datatype TestRecord = TestRecord(
    index: int,
    className: string,
    methodName: string,
    success: Option<bool>,
    throwableMessage: Option<string>,
    duration: Option<int>,
    infos: seq<TestInfo>)

  /** The index (`IndexXO`): the number of tests counted so far and their entries. */
  datatype Index = Index(counter: int, tests: seq<TestRecord>)

  /** What `indexDir/index.xml` holds: nothing yet, an index, or something that cannot be read. */
  datatype Stored = NoIndexFile | IndexFile(saved: Index) | Unreadable

  /**
   * The exceptions the rule throws: `NullPointerException` from `starting(null)`, the
   * `IllegalStateException` of `initialize` before `starting`, the propagated read failure of
   * the index, and the propagated `IOException` of `calculateRelativePath`.
   */
  datatype RuleError = NullDescription | NotStarted | IndexUnreadable | PathFailure(cause: PathError)

  /** The rule's fields; `current` is the position in `index.tests` of the record the field `test` refers to. */
  datatype RuleState = RuleState(
    description: Option<Description>,
    startTime: int,
    initialized: bool,
    testDir: Option<FilePath>,
    index: Index,
    current: nat,
    stored: Stored)

  /** The state after an operation, and the exception it threw, if any. */
  datatype Outcome = Outcome(state: RuleState, failure: Option<RuleError>)

  /** The test's own directory `indexDir/<counter>`. */
  function TestDirectory(indexDir: FilePath, counter: int): FilePath {
    Child(indexDir, IntToString(counter))
  }

  /**
   * What holds between the fields once the rule is initialized: the field `test` is the
   * last counted record and the test directory is named after the counter.
   */
  predicate Coherent(s: RuleState, indexDir: FilePath) {
    s.initialized ==>
      s.description.Some? &&
      s.current < |s.index.tests| &&
      s.index.tests[s.current].index == s.index.counter &&
      s.testDir == Some(TestDirectory(indexDir, s.index.counter))
  }

  /** The record the field `test` refers to. */
  function Current(s: RuleState): TestRecord
    requires s.current < |s.index.tests|
  {
    s.index.tests[s.current]
  }

  /** The state with the record the field `test` refers to replaced. */
  function WithCurrent(s: RuleState, record: TestRecord): (r: RuleState)
    requires s.current < |s.index.tests|
    ensures r.current == s.current && |r.index.tests| == |s.index.tests| && Current(r) == record
  {
    s.(index := s.index.(tests := s.index.tests[s.current := record]))
  }

  /** Replacing the current record leaves every other record as it was. */
  lemma WithCurrentOthers(s: RuleState, record: TestRecord)
    requires s.current < |s.index.tests|
    ensures forall k :: 0 <= k < |s.index.tests| && k != s.current ==> WithCurrent(s, record).index.tests[k] == s.index.tests[k]
  {
  }

  /** `load()`: a missing index file gives an empty index with counter 0. */
  function Loaded(stored: Stored): Option<Index> {
    match stored
    case NoIndexFile => Some(Index(0, []))
    case IndexFile(saved) => Some(saved)
    case Unreadable => None
  }

  /** The record `initialize` adds for the test described by `d`. */
  function NewRecord(counter: int, d: Description): TestRecord {
    TestRecord(counter, ClassName(d), d.methodName, None, None, None, [])
  }

  /** `starting(description)`: a `null` description is rejected before any field changes. */
  function StartingStep(s: RuleState, d: Option<Description>, now: int): (r: Outcome)
    ensures r.failure.Some? <==> d.None?
    ensures d.None? ==> r.state == s
  {
    if d.None? then Outcome(s, Some(NullDescription))
    else Outcome(s.(description := d, startTime := now), None)
  }

  /**
   * `initialize()`: fails before `starting`; the first call loads the index, counts the
   * test, appends its record, saves the index and names the test directory; later calls
   * change nothing.
   */
  function InitStep(s: RuleState, indexDir: FilePath): (r: Outcome)
    requires Coherent(s, indexDir)
    ensures Coherent(r.state, indexDir)
    ensures r.failure.None? ==> r.state.initialized && r.state.description == s.description
    ensures r.failure.Some? <==> s.description.None? || (!s.initialized && Loaded(s.stored).None?)
    ensures r.state.startTime == s.startTime
  {
    if s.description.None? then Outcome(s, Some(NotStarted))
    else if s.initialized then Outcome(s, None)
    else
      match Loaded(s.stored)
      case None => Outcome(s.(index := Index(0, [])), Some(IndexUnreadable))
      case Some(loaded) =>
        var counter := loaded.counter + 1;
        var index := Index(counter, loaded.tests + [NewRecord(counter, s.description.value)]);
        Outcome(s.(index := index, current := |loaded.tests|, stored := IndexFile(index),
                   testDir := Some(TestDirectory(indexDir, counter)), initialized := true), None)
  }

  /** `save()`: the index file now holds the index. */
  function SaveStep(s: RuleState): RuleState {
    s.(stored := IndexFile(s.index))
  }

  /** `succeeded`: initialize, then mark the test's record successful. */
  function SucceededStep(s: RuleState, indexDir: FilePath): (r: Outcome)
    requires Coherent(s, indexDir)
    ensures Coherent(r.state, indexDir)
  {
    var i := InitStep(s, indexDir);
    if i.failure.Some? then i
    else Outcome(WithCurrent(i.state, Current(i.state).(success := Some(true))), None)
  }

  /** `failed(e)`: initialize, then mark the record failed with the throwable's message (`null` when it has none). */
  function FailedStep(s: RuleState, indexDir: FilePath, message: Option<string>): (r: Outcome)
    requires Coherent(s, indexDir)
    ensures Coherent(r.state, indexDir)
  {
    var i := InitStep(s, indexDir);
    if i.failure.Some? then i
    else Outcome(WithCurrent(i.state, Current(i.state).(success := Some(false), throwableMessage := message)), None)
  }

  /** `finished`: initialize, record the elapsed whole seconds, and save the index. */
  function FinishedStep(s: RuleState, indexDir: FilePath, now: int): (r: Outcome)
    requires Coherent(s, indexDir)
    ensures Coherent(r.state, indexDir)
  {
    var i := InitStep(s, indexDir);
    if i.failure.Some? then i
    else
      var duration := JavaDiv(now - i.state.startTime, 1000);
      Outcome(SaveStep(WithCurrent(i.state, Current(i.state).(duration := Some(duration)))), None)
  }

  /** `recordInfo` (`link` false) and `recordLink(key, String)` (`link` true): initialize, then append the entry. */
  function RecordStep(s: RuleState, indexDir: FilePath, link: bool, key: string, value: string): (r: Outcome)
    requires Coherent(s, indexDir)
    ensures Coherent(r.state, indexDir)
  {
    var i := InitStep(s, indexDir);
    if i.failure.Some? then i
    else
      var record := Current(i.state);
      Outcome(WithCurrent(i.state, record.(infos := record.infos + [TestInfo(link, key, value)])), None)
  }

  /**
   * `recordLink(key, file)`: nothing happens unless the file exists; otherwise initialize
   * and record a link holding `calculateRelativePath(indexDir, file)` as written.
   */
  function RecordLinkFileStep(s: RuleState, indexDir: FilePath, key: string, file: FilePath, fileExists: bool, cwd: seq<string>): (r: Outcome)
    requires Coherent(s, indexDir)
    ensures Coherent(r.state, indexDir)
    ensures !fileExists ==> r == Outcome(s, None)
  {
    if !fileExists then Outcome(s, None)
    else
      var i := InitStep(s, indexDir);
      if i.failure.Some? then i
      else
        match RelativePathAsWritten(indexDir, file, cwd)
        case Err(e) => Outcome(i.state, Some(PathFailure(e)))
        case Ok(path) => RecordStep(i.state, indexDir, true, key, path)
  }

  /** Initializing an initialized rule changes nothing: the index counts each test once. */
  lemma InitOnce(s: RuleState, indexDir: FilePath)
    requires Coherent(s, indexDir)
    requires InitStep(s, indexDir).failure.None?
    ensures InitStep(InitStep(s, indexDir).state, indexDir) == InitStep(s, indexDir)
  {
  }

  /**
   * The first initialization counts the test on top of the stored index: the counter grows
   * by one, exactly one record is appended (numbered with the new counter, naming the
   * test's class and method), the index is saved and the test directory is named after the
   * counter.
   */
  lemma FirstInit(s: RuleState, indexDir: FilePath, loaded: Index)
    requires Coherent(s, indexDir)
    requires s.description.Some? && !s.initialized && Loaded(s.stored) == Some(loaded)
    ensures var t := InitStep(s, indexDir).state;
      t.index.counter == loaded.counter + 1 &&
      t.index.tests[..|loaded.tests|] == loaded.tests &&
      |t.index.tests| == |loaded.tests| + 1 &&
      Current(t) == NewRecord(t.index.counter, s.description.value) &&
      Current(t).className == ClassName(s.description.value) &&
      t.stored == IndexFile(t.index) &&
      t.testDir == Some(Child(indexDir, IntToString(loaded.counter + 1)))
  {
    var t := InitStep(s, indexDir).state;
    assert t.index.tests == loaded.tests + [NewRecord(loaded.counter + 1, s.description.value)];
  }

  /** A record step leaves the counter, the other records and the other fields of the test's record as they were after initialization. */
  predicate OnlyCurrentChanged(before: RuleState, after: RuleState)
    requires before.current < |before.index.tests|
  {
    after.index.counter == before.index.counter &&
    after.current == before.current &&
    |after.index.tests| == |before.index.tests| &&
    Current(after).index == Current(before).index &&
    (forall k :: 0 <= k < |before.index.tests| && k != before.current ==> after.index.tests[k] == before.index.tests[k]) &&
    after.testDir == before.testDir
  }

  /** `recordInfo` and `recordLink` append one entry to the test's record and change nothing else. */
  lemma RecordAppends(s: RuleState, indexDir: FilePath, link: bool, key: string, value: string)
    requires Coherent(s, indexDir)
    requires RecordStep(s, indexDir, link, key, value).failure.None?
    ensures var t := InitStep(s, indexDir).state;
      var r := RecordStep(s, indexDir, link, key, value).state;
      t.initialized &&
      OnlyCurrentChanged(t, r) &&
      Current(r).infos == Current(t).infos + [TestInfo(link, key, value)] &&
      Current(r).success == Current(t).success &&
      Current(r).duration == Current(t).duration &&
      r.stored == t.stored
  {
  }

  /** `succeeded` marks the test successful; `failed` marks it failed and keeps the throwable's message. */
  lemma OutcomeRecorded(s: RuleState, indexDir: FilePath, message: Option<string>)
    requires Coherent(s, indexDir)
    requires InitStep(s, indexDir).failure.None?
    ensures var t := InitStep(s, indexDir).state;
      var ok := SucceededStep(s, indexDir).state;
      var failed := FailedStep(s, indexDir, message).state;
      OnlyCurrentChanged(t, ok) && Current(ok).success == Some(true) && Current(ok).infos == Current(t).infos &&
      OnlyCurrentChanged(t, failed) && Current(failed).success == Some(false) &&
      Current(failed).throwableMessage == message && Current(failed).infos == Current(t).infos
  {
  }

  /**
   * `finished` records the elapsed time in whole seconds, truncated toward zero, and leaves
   * the saved index file holding the index.
   */
  lemma FinishedSaves(s: RuleState, indexDir: FilePath, now: int)
    requires Coherent(s, indexDir)
    requires InitStep(s, indexDir).failure.None?
    ensures var t := InitStep(s, indexDir).state;
      var r := FinishedStep(s, indexDir, now).state;
      OnlyCurrentChanged(t, r) &&
      Current(r).duration == Some(JavaDiv(now - s.startTime, 1000)) &&
      (now >= s.startTime ==> Current(r).duration == Some((now - s.startTime) / 1000)) &&
      r.stored == IndexFile(r.index)
  {
    var t := InitStep(s, indexDir).state;
    var record := Current(t).(duration := Some(JavaDiv(now - t.startTime, 1000)));
    assert FinishedStep(s, indexDir, now).state == SaveStep(WithCurrent(t, record));
    WithCurrentOthers(t, record);
  }

  /**
   * A link recorded for an existing file holds a relative path that leads from the index
   * directory to that file, unless some level of the index directory is a string prefix of
   * a sibling on the file's path or the file's path has a blank name (the two cases in
   * which the code as written goes wrong).
   */
  lemma RecordLinkFileResolves(s: RuleState, indexDir: FilePath, key: string, file: FilePath, cwd: seq<string>)
    requires Coherent(s, indexDir)
    requires Plain(cwd) && Plain(indexDir.names) && ValidNames(file.names)
    requires SeparatedAtEveryLevel(indexDir, file, cwd) && NoBlankName(CanonicalNames(file, cwd))
    requires RecordLinkFileStep(s, indexDir, key, file, true, cwd).failure.None?
    ensures var r := RecordLinkFileStep(s, indexDir, key, file, true, cwd).state;
      var infos := Current(r).infos;
      infos != [] && infos[|infos| - 1].link && infos[|infos| - 1].key == key &&
      Resolve(CanonicalNames(indexDir, cwd), Components(infos[|infos| - 1].value)) == CanonicalNames(file, cwd)
  {
    var t := InitStep(s, indexDir).state;
    AsWrittenAgrees(indexDir, file, cwd);
    var path := RelativePath(indexDir, file, cwd);
    assert path.Ok?;
    InitOnce(s, indexDir);
    RecordAppends(t, indexDir, true, key, path.value);
    RelativePathResolves(indexDir, file, cwd);
  }

  // ---------------------------------------------------------------- the rule

  /** The rule: the index directory it was built with and the fields its callbacks update. */
  class TestIndexRule {
    const indexDir: FilePath
    var description: Option<Description>
    var startTime: int
    var initialized: bool
    var testDir: Option<FilePath>
    var index: Index
    var current: nat
    var stored: Stored

    function State(): RuleState
      reads this
    {
      RuleState(description, startTime, initialized, testDir, index, current, stored)
    }

    predicate Valid()
      reads this
    {
      Coherent(State(), indexDir)
    }

    /** `new TestIndexRule(indexDir)` over a directory whose index file is `stored`; the index is empty until loaded. */
    constructor (indexDir: FilePath, stored: Stored)
      ensures Valid() && this.indexDir == indexDir
      ensures State() == RuleState(None, 0, false, None, Index(0, []), 0, stored)
    {
      this.indexDir := indexDir;
      description := None;
      startTime := 0;
      initialized := false;
      testDir := None;
      index := Index(0, []);
      current := 0;
      this.stored := stored;
    }

    method Starting(d: Option<Description>, now: int) returns (failure: Option<RuleError>)
      requires Valid()
      modifies this
      ensures Valid() && Outcome(State(), failure) == StartingStep(old(State()), d, now)
    {
      if d.None? {
        return Some(NullDescription);
      }
      description := d;
      startTime := now;
      return None;
    }

    method Initialize() returns (failure: Option<RuleError>)
      requires Valid()
      modifies this
      ensures Valid() && Outcome(State(), failure) == InitStep(old(State()), indexDir)
    {
      if description.None? {
        return Some(NotStarted);
      }
      if !initialized {
        index := Index(0, []);
        match stored {
          case Unreadable =>
            return Some(IndexUnreadable);
          case IndexFile(saved) =>
            index := saved;
          case NoIndexFile =>
        }
        index := index.(counter := index.counter + 1);
        current := |index.tests|;
        index := index.(tests := index.tests + [NewRecord(index.counter, description.value)]);
        Save();
        testDir := Some(TestDirectory(indexDir, index.counter));
        initialized := true;
      }
      return None;
    }

    method Save()
      modifies this
      ensures State() == SaveStep(old(State()))
    {
      stored := IndexFile(index);
    }

    method Succeeded() returns (failure: Option<RuleError>)
      requires Valid()
      modifies this
      ensures Valid() && Outcome(State(), failure) == SucceededStep(old(State()), indexDir)
    {
      failure := Initialize();
      if failure.None? {
        index := index.(tests := index.tests[current := index.tests[current].(success := Some(true))]);
      }
    }

    method Failed(message: Option<string>) returns (failure: Option<RuleError>)
      requires Valid()
      modifies this
      ensures Valid() && Outcome(State(), failure) == FailedStep(old(State()), indexDir, message)
    {
      failure := Initialize();
      if failure.None? {
        var record := index.tests[current].(success := Some(false), throwableMessage := message);
        index := index.(tests := index.tests[current := record]);
      }
    }

    method Finished(now: int) returns (failure: Option<RuleError>)
      requires Valid()
      modifies this
      ensures Valid() && Outcome(State(), failure) == FinishedStep(old(State()), indexDir, now)
    {
      failure := Initialize();
      if failure.None? {
        var record := index.tests[current].(duration := Some(JavaDiv(now - startTime, 1000)));
        index := index.(tests := index.tests[current := record]);
        Save();
      }
    }

    /** `getDirectory()`: the test directory, after initializing. */
    method GetDirectory() returns (dir: Option<FilePath>, failure: Option<RuleError>)
      requires Valid()
      modifies this
      ensures Valid() && Outcome(State(), failure) == InitStep(old(State()), indexDir)
      ensures failure.None? ==> dir == Some(TestDirectory(indexDir, index.counter))
    {
      failure := Initialize();
      dir := testDir;
    }

    /** `getDirectory(name)`: the directory `name` inside the test directory. */
    method GetDirectoryNamed(name: string) returns (dir: Option<FilePath>, failure: Option<RuleError>)
      requires Valid()
      modifies this
      ensures Valid() && Outcome(State(), failure) == InitStep(old(State()), indexDir)
      ensures failure.None? ==> dir == Some(Child(TestDirectory(indexDir, index.counter), name))
    {
      var testDirectory;
      testDirectory, failure := GetDirectory();
      if failure.Some? {
        return None, failure;
      }
      dir := Some(Child(testDirectory.value, name));
    }

    method RecordInfo(key: string, value: string) returns (failure: Option<RuleError>)
      requires Valid()
      modifies this
      ensures Valid() && Outcome(State(), failure) == RecordStep(old(State()), indexDir, false, key, value)
    {
      failure := Initialize();
      if failure.None? {
        var record := index.tests[current];
        index := index.(tests := index.tests[current := record.(infos := record.infos + [TestInfo(false, key, value)])]);
      }
    }

    method RecordLink(key: string, value: string) returns (failure: Option<RuleError>)
      requires Valid()
      modifies this
      ensures Valid() && Outcome(State(), failure) == RecordStep(old(State()), indexDir, true, key, value)
    {
      failure := Initialize();
      if failure.None? {
        var record := index.tests[current];
        index := index.(tests := index.tests[current := record.(infos := record.infos + [TestInfo(true, key, value)])]);
      }
    }

    /** `recordLink(key, file)`, where `fileExists` is `file.exists()` and `cwd` the directory relative files are taken against. */
    method RecordLinkFile(key: string, file: FilePath, fileExists: bool, cwd: seq<string>) returns (failure: Option<RuleError>)
      requires Valid()
      modifies this
      ensures Valid() && Outcome(State(), failure) == RecordLinkFileStep(old(State()), indexDir, key, file, fileExists, cwd)
    {
      if !fileExists {
        return None;
      }
      failure := Initialize();
      if failure.Some? {
        return;
      }
      match RelativePathAsWritten(indexDir, file, cwd) {
        case Err(e) =>
          failure := Some(PathFailure(e));
        case Ok(path) =>
          failure := RecordLink(key, path);
      }
    }
  }
}
