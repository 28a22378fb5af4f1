/**
 * LogFileMatching: a matcher over a log file that succeeds at the first line a line test
 * accepts, and remembers that line for its mismatch description.
 *
 * Reading the file is an input: `ReadResult` is what `FileUtils.readLines(file, "UTF-8")`
 * returns or throws.
 */
module LogFileMatching {
  import opened Wrappers
  import opened JavaText
  import opened JavaRuntime

  /** The two string-based line tests: `hasText(text)` and `hasExceptionOfType(E)` (by `E.getName()`). */
  datatype LineTest = HasText(text: string) | HasExceptionOfType(exceptionName: string)

  /** The string a line must contain to be accepted. */
  function Needle(test: LineTest): string {
    match test
    case HasText(text) => text
    case HasExceptionOfType(name) => name + ":"
  }

  /** `matchesLine(line)`: the line contains the test's string somewhere. */
  predicate MatchesLine(test: LineTest, line: string) {
    Contains(line, Needle(test))
  }

  /** A line is accepted exactly when the test's string occurs in it. */
  lemma MatchesLineIff(test: LineTest, line: string)
    ensures MatchesLine(test, line) <==> exists i :: OccursAt(line, Needle(test), i)
  {
    ContainsIff(line, Needle(test));
  }

  /** A line naming an exception followed by a colon also contains the bare name. */
  lemma ExceptionLineHasName(name: string, line: string)
    requires MatchesLine(HasExceptionOfType(name), line)
    ensures MatchesLine(HasText(name), line)
  {
    MatchesLineIff(HasExceptionOfType(name), line);
    var i :| OccursAt(line, name + ":", i);
    assert line[i..i + |name|] == (name + ":")[..|name|];
    assert OccursAt(line, name, i);
    MatchesLineIff(HasText(name), line);
  }

  /** The index of the first line the test accepts. */
  function FirstMatch(test: LineTest, lines: seq<string>): (r: Option<nat>)
    ensures r.Some? ==> r.value < |lines|
    decreases |lines|
  {
    if lines == [] then None
    else if MatchesLine(test, lines[0]) then Some(0)
    else
      var rest := FirstMatch(test, lines[1..]);
      if rest.None? then None else Some(rest.value + 1)
  }

  /** The index found is accepted and no line before it is; no index means no line is accepted. */
  lemma {:induction false} FirstMatchIsFirst(test: LineTest, lines: seq<string>)
    ensures FirstMatch(test, lines).Some? ==> MatchesLine(test, lines[FirstMatch(test, lines).value])
    ensures FirstMatch(test, lines).Some? ==> forall j :: 0 <= j < FirstMatch(test, lines).value ==> !MatchesLine(test, lines[j])
    ensures FirstMatch(test, lines).None? ==> forall j :: 0 <= j < |lines| ==> !MatchesLine(test, lines[j])
    decreases |lines|
  {
    if lines != [] && !MatchesLine(test, lines[0]) {
      FirstMatchIsFirst(test, lines[1..]);
      assert forall j :: 1 <= j < |lines| ==> lines[j] == lines[1..][j - 1];
    }
  }

  /** Lines after the first accepted one are never looked at. */
  lemma {:induction false} FirstMatchIgnoresLaterLines(test: LineTest, lines: seq<string>, more: seq<string>)
    requires FirstMatch(test, lines).Some?
    ensures FirstMatch(test, lines + more) == FirstMatch(test, lines)
    decreases |lines|
  {
    assert (lines + more)[0] == lines[0];
    if !MatchesLine(test, lines[0]) {
      assert (lines + more)[1..] == lines[1..] + more;
      FirstMatchIgnoresLaterLines(test, lines[1..], more);
    }
  }

  /** The outcome of reading the file's lines. */
  datatype ReadResult = ReadLines(lines: seq<string>) | ReadFailed(message: string)

  /** What `matchesSafely` throws: `NullPointerException` from the null check, or the `AssertionError` wrapping a read failure. */
  datatype MatchError = NullFile | AssertionFailure(message: string)

  /** The mismatch text: the remembered line when there is one, otherwise "log file did not contain …". */
  function MismatchText(test: LineTest, failingLineNumber: int, failingLine: Option<string>): (r: string)
    ensures failingLine.Some? <==> StartsWith(r, "contained on line ")
  {
    if failingLine.Some? then
      "contained on line " + AngleValue(failingLineNumber) + ": " + Quoted(failingLine.value)
    else
      var subject := match test
        case HasText(text) => text
        case HasExceptionOfType(name) => name;
      var r := "log file did not contain " + Quoted(subject);
      assert r[0] != "contained on line "[0];
      r
  }

  /** A log-file matcher: its line test and the fields `matchesSafely` updates. */
  class LogFileMatcher {
    const test: LineTest
    var logFile: Option<FilePath>
    var failingLineNumber: int
    var failingLine: Option<string>

    constructor (test: LineTest)
      ensures this.test == test && logFile == None && failingLineNumber == 0 && failingLine == None
    {
      this.test := test;
      logFile := None;
      failingLineNumber := 0;
      failingLine := None;
    }

    /**
     * `matchesSafely(logFile)`: scans the lines in order, counting them, and succeeds at the
     * first accepted line, which it remembers with its 1-based number; otherwise it forgets
     * any line and number.
     */
    method MatchesSafely(file: Option<FilePath>, read: ReadResult) returns (r: Result<bool, MatchError>)
      modifies this
      ensures file.None? ==> r == Err(NullFile) && unchanged(this)
      ensures file.Some? ==> logFile == file
      ensures file.Some? && read.ReadFailed? ==>
        r == Err(AssertionFailure(read.message)) && failingLineNumber == old(failingLineNumber) && failingLine == old(failingLine)
      ensures file.Some? && read.ReadLines? ==>
        match FirstMatch(test, read.lines)
        case Some(k) => r == Ok(true) && failingLineNumber == k + 1 && failingLine == Some(read.lines[k])
        case None => r == Ok(false) && failingLineNumber == 0 && failingLine == None
    {
      if file.None? {
        return Err(NullFile);
      }
      logFile := file;
      if read.ReadFailed? {
        return Err(AssertionFailure(read.message));
      }
      var lines := read.lines;
      FirstMatchIsFirst(test, lines);
      if |lines| > 0 {
        failingLineNumber := 0;
        var i := 0;
        while i < |lines|
          invariant 0 <= i <= |lines| && failingLineNumber == i && logFile == file
          invariant forall j :: 0 <= j < i ==> !MatchesLine(test, lines[j])
        {
          failingLineNumber := failingLineNumber + 1;
          failingLine := Some(lines[i]);
          if MatchesLine(test, lines[i]) {
            return Ok(true);
          }
          i := i + 1;
        }
      }
      failingLineNumber := 0;
      failingLine := None;
      return Ok(false);
    }

    /** `matches(item)` inherited from `TypeSafeMatcher`: a `null` file fails without reaching `matchesSafely`. */
    method Matches(file: Option<FilePath>, read: ReadResult) returns (r: Result<bool, MatchError>)
      modifies this
      ensures file.None? ==> r == Ok(false) && unchanged(this)
      ensures file.Some? && read.ReadFailed? ==> r == Err(AssertionFailure(read.message)) && logFile == file
      ensures file.Some? && read.ReadLines? ==> logFile == file && r == Ok(FirstMatch(test, read.lines).Some?)
    {
      if file.None? {
        return Ok(false);
      }
      r := MatchesSafely(file, read);
    }

    /** `describeMismatchSafely`. */
    function DescribeMismatch(): string
      reads this
    {
      MismatchText(test, failingLineNumber, failingLine)
    }
  }
}
