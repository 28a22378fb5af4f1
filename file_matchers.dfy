/**
 * FileMatching: reading a file's whole content through a character buffer, and the
 * `contains` / `doesNotContain` file matchers built on it.
 *
 * A `Reader` is the sequence of chunks its `read` calls will deliver, a chunk being either
 * some characters or an `IOException`.
 */
module FileMatching {
  import opened Wrappers
  import opened JavaText
  import opened JavaRuntime

  /** What the underlying stream delivers next: characters, or a failure. */
  datatype Chunk = Data(text: string) | Broken

  datatype IOFault = IOException

  /** The characters a reader delivers before it reports end of stream, or its failure. */
  function Collected(chunks: seq<Chunk>): Result<string, IOFault>
    decreases |chunks|
  {
    if chunks == [] then Ok("")
    else match chunks[0]
      case Broken => Err(IOException)
      case Data(s) => Prefixed(s, Collected(chunks[1..]))
  }

  function Prefixed(s: string, r: Result<string, IOFault>): Result<string, IOFault> {
    if r.Ok? then Ok(s + r.value) else r
  }

  /** Reading one sequence of chunks and then another collects the two texts in order, unless the first fails. */
  lemma {:induction false} CollectedAppend(a: seq<Chunk>, b: seq<Chunk>)
    ensures Collected(a + b) == if Collected(a).Err? then Collected(a) else Prefixed(Collected(a).value, Collected(b))
    decreases |a|
  {
    if a == [] {
      assert a + b == b;
      PrefixedEmpty(Collected(b));
    } else {
      assert (a + b)[0] == a[0];
      assert (a + b)[1..] == a[1..] + b;
      CollectedAppend(a[1..], b);
      if a[0].Data? && Collected(a[1..]).Ok? && Collected(b).Ok? {
        var s := a[0].text;
        assert s + (Collected(a[1..]).value + Collected(b).value) == s + Collected(a[1..]).value + Collected(b).value;
      }
    }
  }

  /** A measure of what is left to read. */
  function Size(chunks: seq<Chunk>): nat
    decreases |chunks|
  {
    if chunks == [] then 0
    else (if chunks[0].Data? then |chunks[0].text| + 1 else 1) + Size(chunks[1..])
  }

  /** A `java.io.Reader` over a scripted stream. */
  class Reader {
    var chunks: seq<Chunk>
    var closed: bool

    constructor (chunks: seq<Chunk>)
      ensures this.chunks == chunks && !closed
    {
      this.chunks := chunks;
      closed := false;
    }

    /**
     * `read(buffer)`: -1 at the end of the stream; otherwise fills the front of the buffer
     * with up to `buffer.length` characters of the next chunk and returns how many.
     */
    method Read(buffer: array<char>) returns (r: Result<int, IOFault>)
      requires buffer.Length > 0
      modifies this, buffer
      ensures old(chunks) == [] ==> r == Ok(-1) && chunks == [] && buffer[..] == old(buffer[..])
      ensures old(chunks) != [] && old(chunks)[0].Broken? ==> r == Err(IOException) && chunks == old(chunks)[1..]
      ensures old(chunks) != [] && old(chunks)[0].Data? ==>
        var s := old(chunks)[0].text;
        var n := if |s| < buffer.Length then |s| else buffer.Length;
        && r == Ok(n)
        && buffer[..n] == s[..n]
        && chunks == (if n < |s| then [Data(s[n..])] else []) + old(chunks)[1..]
      ensures closed == old(closed)
    {
      if chunks == [] {
        return Ok(-1);
      }
      match chunks[0]
      case Broken =>
        chunks := chunks[1..];
        return Err(IOException);
      case Data(s) =>
        var n := if |s| < buffer.Length then |s| else buffer.Length;
        var i := 0;
        while i < n
          invariant 0 <= i <= n
          invariant buffer[..i] == s[..i]
          invariant chunks == old(chunks) && closed == old(closed)
        {
          buffer[i] := s[i];
          i := i + 1;
        }
        chunks := (if n < |s| then [Data(s[n..])] else []) + chunks[1..];
        return Ok(n);
    }
  }

  /** What `readFully` throws. */
  datatype ReadError = IllegalArgument(message: string) | ReadFailure

  /** The result of reading everything: `null` instead of the empty string, an `IOException` passed on. */
  function ReadOutcome(c: Result<string, IOFault>): Result<Option<string>, ReadError> {
    if c.Err? then Err(ReadFailure)
    else if c.value == "" then Ok(None)
    else Ok(Some(c.value))
  }

  /** After a chunk of `s` has been taken off the front, the rest still collects to the remainder of `s`. */
  lemma ReadStep(s: string, n: nat, rest: seq<Chunk>)
    requires n <= |s|
    ensures Collected([Data(s)] + rest) ==
      Prefixed(s[..n], Collected((if n < |s| then [Data(s[n..])] else []) + rest))
  {
    assert ([Data(s)] + rest)[1..] == rest;
    if n < |s| {
      assert ([Data(s[n..])] + rest)[1..] == rest;
      if Collected(rest).Ok? {
        assert s == s[..n] + s[n..];
        assert s + Collected(rest).value == s[..n] + (s[n..] + Collected(rest).value);
      }
    } else {
      assert s[..n] == s;
      assert [] + rest == rest;
    }
  }

  lemma PrefixedEmpty(r: Result<string, IOFault>)
    ensures Prefixed("", r) == r
  {
    if r.Ok? {
      assert "" + r.value == r.value;
    }
  }

  lemma PrefixedAssoc(a: string, b: string, r: Result<string, IOFault>)
    ensures Prefixed(a + b, r) == Prefixed(a, Prefixed(b, r))
  {
    if r.Ok? {
      assert a + b + r.value == a + (b + r.value);
    }
  }

  /** Taking `n` characters off the front chunk leaves less to read, provided something was taken or the chunk was empty. */
  lemma SizeStep(s: string, n: nat, rest: seq<Chunk>)
    requires n <= |s| && (n > 0 || s == "")
    ensures Size((if n < |s| then [Data(s[n..])] else []) + rest) < Size([Data(s)] + rest)
  {
    assert ([Data(s)] + rest)[1..] == rest;
    if n < |s| {
      assert ([Data(s[n..])] + rest)[1..] == rest;
    } else {
      assert [] + rest == rest;
    }
  }

  /** The text collected so far, with `null` for nothing. */
  function SoFar(textBuffer: Option<string>): string {
    if textBuffer.None? then "" else textBuffer.value
  }

  /**
   * `readFully(rdr, bufferSize)`: reads chunk after chunk until end of stream and returns
   * everything read, or `null` when nothing was; a non-positive buffer size is refused.
   * The result does not depend on the buffer size.
   */
  method ReadFully(rdr: Reader, bufferSize: int) returns (r: Result<Option<string>, ReadError>)
    modifies rdr
    ensures bufferSize <= 0 ==> r == Err(IllegalArgument("Buffer size must be greater than 0")) && unchanged(rdr)
    ensures bufferSize > 0 ==> r == ReadOutcome(Collected(old(rdr.chunks)))
    ensures bufferSize > 0 && r.Ok? ==> rdr.chunks == []
    ensures rdr.closed == old(rdr.closed)
  {
    if bufferSize <= 0 {
      return Err(IllegalArgument("Buffer size must be greater than 0"));
    }
    var buffer := new char[bufferSize];
    var bufferLength := 0;
    var textBuffer: Option<string> := None;
    PrefixedEmpty(Collected(rdr.chunks));
    while bufferLength != -1
      invariant bufferLength == -1 ==> rdr.chunks == []
      invariant textBuffer.Some? ==> textBuffer.value != ""
      invariant Collected(old(rdr.chunks)) == Prefixed(SoFar(textBuffer), Collected(rdr.chunks))
      invariant rdr.closed == old(rdr.closed)
      decreases if bufferLength == -1 then 0 else Size(rdr.chunks) + 1
    {
      ghost var before := rdr.chunks;
      var read := rdr.Read(buffer);
      if read.Err? {
        return Err(ReadFailure);
      }
      bufferLength := read.value;
      if bufferLength >= 0 {
        ghost var s := before[0].text;
        assert before == [Data(s)] + before[1..];
        ReadStep(s, bufferLength, before[1..]);
        SizeStep(s, bufferLength, before[1..]);
        if bufferLength > 0 {
          var piece := buffer[..bufferLength];
          PrefixedAssoc(SoFar(textBuffer), piece, Collected(rdr.chunks));
          textBuffer := Some(SoFar(textBuffer) + piece);
        } else {
          assert s[..0] == "";
          PrefixedEmpty(Collected(rdr.chunks));
        }
      }
    }
    assert SoFar(textBuffer) + "" == SoFar(textBuffer);
    return if textBuffer.None? then Ok(None) else Ok(Some(textBuffer.value));
  }

  /** `readFully(rdr)`: the same with a buffer of 8192 characters. */
  method ReadFullyReader(rdr: Reader) returns (r: Result<Option<string>, ReadError>)
    modifies rdr
    ensures r == ReadOutcome(Collected(old(rdr.chunks)))
    ensures rdr.closed == old(rdr.closed)
  {
    r := ReadFully(rdr, 8192);
  }

  /**
   * `readFully(file)`: `source` is the reader opened on the file, `null` when the file
   * cannot be opened (a `FileNotFoundException`, which is an `IOException`); an opened
   * reader is closed whatever happens.
   */
  method ReadFullyFile(source: Reader?) returns (r: Result<Option<string>, ReadError>)
    modifies source
    ensures source == null ==> r == Err(ReadFailure)
    ensures source != null ==> r == ReadOutcome(Collected(old(source.chunks))) && source.closed
  {
    if source == null {
      return Err(ReadFailure);
    }
    r := ReadFully(source, 8192);
    source.closed := true;
  }

  // ---------------------------------------------------------------- content matchers

  /** The entries that do not occur in the content, in order. */
  function Missing(entries: seq<string>, content: string): seq<string>
    decreases |entries|
  {
    if entries == [] then []
    else
      var last := entries[|entries| - 1];
      Missing(entries[..|entries| - 1], content) + (if Contains(content, last) then [] else [last])
  }

  /** An entry is reported missing exactly when it is listed and does not occur in the content. */
  lemma {:induction false} MissingMembers(entries: seq<string>, content: string)
    ensures forall x :: x in Missing(entries, content) <==> x in entries && !Contains(content, x)
    decreases |entries|
  {
    if entries != [] {
      var init := entries[..|entries| - 1];
      MissingMembers(init, content);
      assert entries == init + [entries[|entries| - 1]];
    }
  }

  /** The entries that occur in the content, in order. */
  function Present(entries: seq<string>, content: string): seq<string>
    decreases |entries|
  {
    if entries == [] then []
    else
      var last := entries[|entries| - 1];
      Present(entries[..|entries| - 1], content) + (if Contains(content, last) then [last] else [])
  }

  /** An entry is reported present exactly when it is listed and occurs in the content. */
  lemma {:induction false} PresentMembers(entries: seq<string>, content: string)
    ensures forall x :: x in Present(entries, content) <==> x in entries && Contains(content, x)
    decreases |entries|
  {
    if entries != [] {
      var init := entries[..|entries| - 1];
      PresentMembers(init, content);
      assert entries == init + [entries[|entries| - 1]];
    }
  }

  /** Every entry is either missing or present, as often as it is listed. */
  lemma {:induction false} EntriesPartition(entries: seq<string>, content: string)
    ensures multiset(Missing(entries, content)) + multiset(Present(entries, content)) == multiset(entries)
    decreases |entries|
  {
    if entries != [] {
      var init := entries[..|entries| - 1];
      EntriesPartition(init, content);
      assert entries == init + [entries[|entries| - 1]];
    }
  }

  /** What the matchers throw: `content.contains(entry)` on a `null` content. */
  datatype Thrown = NullPointer

  /** `FileMatchers.contains(entries…)`: the file last matched and the entries found missing so far. */
  class ContainsMatcher {
    const entries: seq<string>
    var item: Option<FilePath>
    var missing: seq<string>

    constructor (entries: seq<string>)
      ensures this.entries == entries && item == None && missing == []
    {
      this.entries := entries;
      item := None;
      missing := [];
    }

    /**
     * `matchesSafely(item)`: adds every entry the content lacks to `missing` (which is
     * never cleared) and matches when `missing` is empty; a read failure does not match,
     * and an empty file has `null` content, on which the first entry throws.
     */
    method MatchesSafely(file: FilePath, source: Reader?) returns (r: Result<bool, Thrown>)
      modifies this, source
      ensures item == Some(file)
      ensures source != null ==> source.closed
      ensures source == null ==> r == Ok(false) && missing == old(missing)
      ensures source != null ==>
        match ReadOutcome(Collected(old(source.chunks)))
        case Err(_) => r == Ok(false) && missing == old(missing)
        case Ok(None) => missing == old(missing) && r == (if entries == [] then Ok(missing == []) else Err(NullPointer))
        case Ok(Some(c)) => missing == old(missing) + Missing(entries, c) && r == Ok(missing == [])
    {
      item := Some(file);
      var content := ReadFullyFile(source);
      if content.Err? {
        return Ok(false);
      }
      if content.value.None? {
        if entries != [] {
          return Err(NullPointer);
        }
        return Ok(|missing| == 0);
      }
      CollectMissing(content.value.value);
      return Ok(|missing| == 0);
    }

    /** The loop over the entries on a non-`null` content. */
    method CollectMissing(content: string)
      modifies this
      ensures missing == old(missing) + Missing(entries, content) && item == old(item)
    {
      var i := 0;
      while i < |entries|
        invariant 0 <= i <= |entries| && item == old(item)
        invariant missing == old(missing) + Missing(entries[..i], content)
      {
        var entry := entries[i];
        assert entries[..i + 1][..i] == entries[..i] && entries[..i + 1][i] == entry;
        if !Contains(content, entry) {
          missing := missing + [entry];
        }
        i := i + 1;
      }
      assert entries[..|entries|] == entries;
    }
  }

  /** `FileMatchers.doesNotContain(entries…)`: the file last matched and the entries found present so far. */
  class DoesNotContainMatcher {
    const entries: seq<string>
    var item: Option<FilePath>
    var contained: seq<string>

    constructor (entries: seq<string>)
      ensures this.entries == entries && item == None && contained == []
    {
      this.entries := entries;
      item := None;
      contained := [];
    }

    /**
     * `matchesSafely(item)`: adds every entry the content has to `contained` (which is
     * never cleared) and matches when `contained` is empty; a read failure does not match,
     * and an empty file has `null` content, on which the first entry throws.
     */
    method MatchesSafely(file: FilePath, source: Reader?) returns (r: Result<bool, Thrown>)
      modifies this, source
      ensures item == Some(file)
      ensures source != null ==> source.closed
      ensures source == null ==> r == Ok(false) && contained == old(contained)
      ensures source != null ==>
        match ReadOutcome(Collected(old(source.chunks)))
        case Err(_) => r == Ok(false) && contained == old(contained)
        case Ok(None) => contained == old(contained) && r == (if entries == [] then Ok(contained == []) else Err(NullPointer))
        case Ok(Some(c)) => contained == old(contained) + Present(entries, c) && r == Ok(contained == [])
    {
      item := Some(file);
      var content := ReadFullyFile(source);
      if content.Err? {
        return Ok(false);
      }
      if content.value.None? {
        if entries != [] {
          return Err(NullPointer);
        }
        return Ok(|contained| == 0);
      }
      CollectPresent(content.value.value);
      return Ok(|contained| == 0);
    }

    /** The loop over the entries on a non-`null` content. */
    method CollectPresent(content: string)
      modifies this
      ensures contained == old(contained) + Present(entries, content) && item == old(item)
    {
      var i := 0;
      while i < |entries|
        invariant 0 <= i <= |entries| && item == old(item)
        invariant contained == old(contained) + Present(entries[..i], content)
      {
        var entry := entries[i];
        assert entries[..i + 1][..i] == entries[..i] && entries[..i + 1][i] == entry;
        if Contains(content, entry) {
          contained := contained + [entry];
        }
        i := i + 1;
      }
      assert entries[..|entries|] == entries;
    }
  }
}
