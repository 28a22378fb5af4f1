/**
 * TestDataRule: a JUnit rule that finds test data under a data directory, looking first in
 * the running method's directory, then in the test class's, then in its package's, and
 * last in the data directory itself.
 *
 * Which files exist is the parameter `existing`.
 */
module TestData {
  import opened Wrappers
  import opened JavaText
  import opened JavaRuntime
  import opened FileLookup

  /** The position of the first `c` in `s` (`s.indexOf(c)` when `c` occurs). */
  function IndexOfChar(s: string, c: char): (r: nat)
    requires c in s
    ensures r < |s| && s[r] == c && c !in s[..r]
  {
    if s[0] == c then 0
    else
      assert c in s[1..];
      var r := IndexOfChar(s[1..], c) + 1;
      assert s[..r] == [s[0]] + s[1..][..r - 1];
      r
  }

  /**
   * `mn(methodName)`: the name of a parameterised test's method with its `[index]` part
   * dropped: everything before the first `[`, or the whole name when there is none.
   */
  function MethodDirectoryName(methodName: string): (r: string)
    ensures StartsWith(methodName, r) && '[' !in r
    ensures '[' in methodName ==> methodName[|r|] == '['
    ensures '[' !in methodName ==> r == methodName
  {
    if '[' in methodName then methodName[..IndexOfChar(methodName, '[')] else methodName
  }

  /** Dropping the index part twice is dropping it once. */
  lemma MethodDirectoryNameIdempotent(methodName: string)
    ensures MethodDirectoryName(MethodDirectoryName(methodName)) == MethodDirectoryName(methodName)
  {
  }

  /** `asPath(clazz)`: the package as a path, then the simple name (enclosing classes are not part of it). */
  function ClassPath(c: JavaClass): string {
    PackagePath(c.packageName) + "/" + c.simpleName
  }

  /** The names of a class path are the package's parts and then the simple name. */
  lemma ClassPathNames(c: JavaClass)
    requires '/' !in c.packageName && IsName(c.simpleName)
    ensures Components(ClassPath(c)) == NonEmpty(Pieces(c.packageName, '.')) + [c.simpleName]
  {
    ComponentsConcat(PackagePath(c.packageName), c.simpleName);
    ComponentsOfPackagePath(c.packageName);
    ComponentsOfName(c.simpleName);
  }

  /** `<dataDir>/<class path>/<method>/<path>`. */
  function MethodLevel(dataDir: FilePath, d: Description, path: string): FilePath {
    Nested(dataDir, [ClassPath(d.testClass), MethodDirectoryName(d.methodName), path])
  }

  /** `<dataDir>/<class path>/<path>`. */
  function ClassLevel(dataDir: FilePath, d: Description, path: string): FilePath {
    Nested(dataDir, [ClassPath(d.testClass), path])
  }

  /** `<dataDir>/<package path>/<path>`. */
  function PackageLevel(dataDir: FilePath, d: Description, path: string): FilePath {
    Nested(dataDir, [PackagePath(d.testClass.packageName), path])
  }

  /** `<dataDir>/<path>`. */
  function DataLevel(dataDir: FilePath, path: string): FilePath {
    Nested(dataDir, [path])
  }

  /**
   * The method level lies inside the class level's directory: both start with the data
   * directory and the class path, and the method level adds the method's directory before
   * the path.
   */
  lemma MethodLevelInsideClass(dataDir: FilePath, d: Description, path: string)
    ensures MethodLevel(dataDir, d, path).names ==
      dataDir.names + Components(ClassPath(d.testClass)) + Components(MethodDirectoryName(d.methodName)) + Components(path)
    ensures ClassLevel(dataDir, d, path).names == dataDir.names + Components(ClassPath(d.testClass)) + Components(path)
    ensures PackageLevel(dataDir, d, path).names == dataDir.names + Components(PackagePath(d.testClass.packageName)) + Components(path)
    ensures DataLevel(dataDir, path).names == dataDir.names + Components(path)
  {
    var cls := ClassPath(d.testClass);
    var m := MethodDirectoryName(d.methodName);
    NestedNames(dataDir, [cls, m, path]);
    assert [cls, m, path][..2] == [cls, m];
    assert [cls, m][..1] == [cls];
    NestedNames(dataDir, [cls, path]);
    assert [cls, path][..1] == [cls];
    NestedNames(dataDir, [PackagePath(d.testClass.packageName), path]);
    NestedNames(dataDir, [path]);
  }

  /** The exceptions of the rule. */
  datatype DataError =
    | NullDataDir          // `checkNotNull(dataDir)` in the constructor
    | NullDescription      // `checkNotNull(description)` in `starting`
    | NotInitialized       // `checkState(description != null, "Test was not yet initialized")`
    | NotFound(message: string)

  /** The rule: its data directory and the description `starting` records. */
  class TestDataRule {
    const dataDir: FilePath
    var description: Option<Description>

    constructor (dataDir: FilePath)
      ensures this.dataDir == dataDir && description == None
    {
      this.dataDir := dataDir;
      description := None;
    }

    /** `starting(description)`: a `null` description is rejected and nothing changes. */
    method Starting(d: Option<Description>) returns (failure: Option<DataError>)
      modifies this
      ensures d.None? ==> failure == Some(NullDescription) && unchanged(this)
      ensures d.Some? ==> failure == None && description == d
    {
      if d.None? {
        return Some(NullDescription);
      }
      description := d;
      return None;
    }

    /** `file(root, paths…)`: each path in turn is resolved against the file built so far. */
    static method File(root: FilePath, paths: seq<string>) returns (file: FilePath)
      ensures file == Nested(root, paths)
    {
      file := root;
      var i := 0;
      while i < |paths|
        invariant 0 <= i <= |paths| && file == Nested(root, paths[..i])
      {
        NestedSnoc(root, paths[..i], paths[i]);
        assert paths[..i + 1] == paths[..i] + [paths[i]];
        file := Child(file, paths[i]);
        i := i + 1;
      }
      assert paths[..i] == paths;
    }

    /** `resolveFile(path)`: the most specific of the four levels that exists. */
    method ResolveFile(path: string, existing: set<FilePath>) returns (r: Result<FilePath, DataError>)
      ensures description.None? ==> r == Err(NotInitialized)
      ensures description.Some? ==>
        var d := description.value;
        r == match Lookup(path, MethodLevel(dataDir, d, path), ClassLevel(dataDir, d, path),
                          PackageLevel(dataDir, d, path), DataLevel(dataDir, path), existing)
             case Ok(f) => Ok(f)
             case Err(message) => Err(NotFound(message))
    {
      if description.None? {
        return Err(NotInitialized);
      }
      var d := description.value;
      var level1 := File(dataDir, [ClassPath(d.testClass), MethodDirectoryName(d.methodName), path]);
      var level2 := File(dataDir, [ClassPath(d.testClass), path]);
      var level3 := File(dataDir, [PackagePath(d.testClass.packageName), path]);
      var level4 := File(dataDir, [path]);
      LookupFirstExisting(path, level1, level2, level3, level4, existing);
      if level1 in existing {
        return Ok(level1);
      }
      if level2 in existing {
        return Ok(level2);
      }
      if level3 in existing {
        return Ok(level3);
      }
      if level4 in existing {
        return Ok(level4);
      }
      return Err(NotFound(NotFoundMessage(path, level1, level2, level3, level4)));
    }
  }

  /** `new TestDataRule(dataDir)`: a `null` data directory is rejected. */
  method NewTestDataRule(dataDir: Option<FilePath>) returns (r: Result<TestDataRule, DataError>)
    ensures dataDir.None? <==> r.Err?
    ensures r.Err? ==> r.error == NullDataDir
    ensures r.Ok? ==> fresh(r.value) && r.value.dataDir == dataDir.value && r.value.description == None
  {
    if dataDir.None? {
      return Err(NullDataDir);
    }
    var rule := new TestDataRule(dataDir.value);
    return Ok(rule);
  }
}
