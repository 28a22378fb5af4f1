/**
 * URLIsReachable: a junit-ext checker built from one to four string arguments, a URL and
 * then optionally a timeout, an HTTP status code and a message, each with a default.
 *
 * Whether `new URL(text)` accepts a text is the parameter `isUrl`; the network check
 * `satisfy` is not part of this model.
 */
module UrlChecking {
  import opened Wrappers
  import opened JavaText

  const DefaultTimeout: int := 10 * 1000
  const DefaultStatus: int := 200

  /** What `init` throws. `NumberFormatException` is an `IllegalArgumentException` in Java. */
  datatype UrlError =
    | IllegalArgument(message: string)
    | NumberFormat
    | MalformedUrl

  /** The checker's four fields; `url` holds the text the URL was parsed from. */
  datatype Settings = Settings(url: Option<string>, timeout: int, statusCode: int, message: Option<string>)

  /** The fields before `init` runs. */
  const Defaults := Settings(None, DefaultTimeout, DefaultStatus, None)

  /** The fields after `init`, as far as it got, and what it threw. */
  datatype Configured = Configured(settings: Settings, failure: Option<UrlError>)

  /** Every `IllegalArgumentException`, `NumberFormatException` included. */
  predicate IsIllegalArgument(e: UrlError) {
    e.IllegalArgument? || e.NumberFormat?
  }

  /**
   * `init(args)`: the argument count is checked, then the URL is parsed and stored, then the
   * timeout and the status code are parsed, stored and checked in turn, and last the
   * message is stored. Each field keeps the value assigned before a later step throws.
   */
  function Configure(s: Settings, args: Option<seq<Option<string>>>, isUrl: Option<string> -> bool): (r: Configured) {
    if args.None? || |args.value| > 4 || |args.value| < 1 then
      Configured(s, Some(IllegalArgument("args must have length 1 to 4")))
    else
      var a := args.value;
      if !isUrl(a[0]) then Configured(s, Some(MalformedUrl))
      else
        var s1 := s.(url := a[0]);
        if |a| >= 2 && ParseInt(a[1]).None? then Configured(s1, Some(NumberFormat))
        else
          var s2 := if |a| >= 2 then s1.(timeout := ParseInt(a[1]).value) else s1;
          if |a| >= 2 && s2.timeout < 0 then Configured(s2, Some(IllegalArgument("timeout cannot be less than zero")))
          else if |a| >= 3 && ParseInt(a[2]).None? then Configured(s2, Some(NumberFormat))
          else
            var s3 := if |a| >= 3 then s2.(statusCode := ParseInt(a[2]).value) else s2;
            if |a| >= 3 && s3.statusCode < 0 then Configured(s3, Some(IllegalArgument("http status code cannot be less than zero")))
            else Configured(if |a| == 4 then s3.(message := a[3]) else s3, None)
  }

  /** A non-negative number in the 32-bit range, written as `Integer.parseInt` accepts it. */
  predicate NonNegativeNumber(text: Option<string>) {
    ParseInt(text).Some? && ParseInt(text).value >= 0
  }

  /**
   * From the defaults, `init` succeeds exactly when there are one to four arguments, the
   * first is a URL and the second and third, where given, are non-negative numbers.
   */
  lemma ConfigureSucceedsIff(args: Option<seq<Option<string>>>, isUrl: Option<string> -> bool)
    ensures Configure(Defaults, args, isUrl).failure.None? <==>
      args.Some? && 1 <= |args.value| <= 4 && isUrl(args.value[0]) &&
      (|args.value| >= 2 ==> NonNegativeNumber(args.value[1])) &&
      (|args.value| >= 3 ==> NonNegativeNumber(args.value[2]))
  {
  }

  /**
   * After a successful `init` from the defaults, the URL is the first argument and each
   * optional field is its argument when given and its default otherwise.
   */
  lemma ConfigureSettings(args: Option<seq<Option<string>>>, isUrl: Option<string> -> bool)
    requires Configure(Defaults, args, isUrl).failure.None?
    ensures var a := args.value;
      var s := Configure(Defaults, args, isUrl).settings;
      s.url == a[0] &&
      s.timeout == (if |a| >= 2 then ParseInt(a[1]).value else DefaultTimeout) &&
      s.statusCode == (if |a| >= 3 then ParseInt(a[2]).value else DefaultStatus) &&
      s.message == (if |a| == 4 then a[3] else None) &&
      s.timeout >= 0 && s.statusCode >= 0
  {
  }

  /**
   * The checks come in order: a wrong argument count is reported before anything else, and
   * a first argument that is not a URL before any problem with the numbers; every failure
   * other than a bad URL is an `IllegalArgumentException`.
   */
  lemma ConfigureChecksInOrder(args: Option<seq<Option<string>>>, isUrl: Option<string> -> bool)
    ensures args.None? || |args.value| > 4 || |args.value| < 1 ==>
      Configure(Defaults, args, isUrl) == Configured(Defaults, Some(IllegalArgument("args must have length 1 to 4")))
    ensures args.Some? && 1 <= |args.value| <= 4 && !isUrl(args.value[0]) ==>
      Configure(Defaults, args, isUrl).failure == Some(MalformedUrl)
    ensures var r := Configure(Defaults, args, isUrl);
      r.failure.Some? && r.failure != Some(MalformedUrl) ==> IsIllegalArgument(r.failure.value)
  {
  }

  /** The numbers the checker's own examples pass. */
  lemma ParseExamples()
    ensures ParseInt(Some("100")) == Some(100)
    ensures ParseInt(Some("-100")) == Some(-100)
    ensures ParseInt(Some("-1000")) == Some(-1000)
    ensures ParseInt(Some("notanumber")) == None
  {
    assert DigitsValue("100") == 100 by {
      assert "100"[..2] == "10" && "10"[..1] == "1";
    }
    assert DigitsValue("1000") == 1000 by {
      assert "1000"[..3] == "100" && "100"[..2] == "10" && "10"[..1] == "1";
    }
    assert "-100"[1..] == "100";
    assert "-1000"[1..] == "1000";
    assert !AllDigits("notanumber") by {
      assert !IsDigit("notanumber"[0]);
    }
  }

  /** A timeout of `100` is taken. */
  lemma ConfigureTimeoutExample(isUrl: Option<string> -> bool)
    requires isUrl(Some("http://fubar"))
    ensures Configure(Defaults, Some([Some("http://fubar"), Some("100")]), isUrl).settings.timeout == 100
  {
    ParseExamples();
  }

  /** A negative timeout is rejected. */
  lemma ConfigureNegativeTimeoutExample(isUrl: Option<string> -> bool)
    requires isUrl(Some("http://fubar"))
    ensures Configure(Defaults, Some([Some("http://fubar"), Some("-100")]), isUrl).failure ==
      Some(IllegalArgument("timeout cannot be less than zero"))
  {
    ParseExamples();
  }

  /** A timeout that is not a number, or `null`, is rejected as a number format error. */
  lemma ConfigureNotANumberExample(isUrl: Option<string> -> bool)
    requires isUrl(Some("http://fubar"))
    ensures Configure(Defaults, Some([Some("http://fubar"), Some("notanumber")]), isUrl).failure == Some(NumberFormat)
    ensures Configure(Defaults, Some([Some("http://fubar"), None]), isUrl).failure == Some(NumberFormat)
  {
    ParseExamples();
  }

  /** A negative status code is rejected. */
  lemma ConfigureNegativeStatusExample(isUrl: Option<string> -> bool)
    requires isUrl(Some("http://fubar"))
    ensures Configure(Defaults, Some([Some("http://fubar"), Some("100"), Some("-1000")]), isUrl).failure ==
      Some(IllegalArgument("http status code cannot be less than zero"))
  {
    ParseExamples();
  }

  /** The checker's fields, assigned by `init` as the constructor runs. */
  class URLIsReachable {
    var url: Option<string>
    var timeout: int
    var statusCode: int
    var message: Option<string>

    function Fields(): Settings
      reads this
    {
      Settings(url, timeout, statusCode, message)
    }

    constructor ()
      ensures Fields() == Defaults
    {
      url := None;
      timeout := DefaultTimeout;
      statusCode := DefaultStatus;
      message := None;
    }

    /** `init(args)`, assigning each field in turn and stopping at the first failure. */
    method Init(args: Option<seq<Option<string>>>, isUrl: Option<string> -> bool) returns (failure: Option<UrlError>)
      modifies this
      ensures Configured(Fields(), failure) == Configure(old(Fields()), args, isUrl)
    {
      if args.None? || |args.value| > 4 || |args.value| < 1 {
        return Some(IllegalArgument("args must have length 1 to 4"));
      }
      var a := args.value;
      if !isUrl(a[0]) {
        return Some(MalformedUrl);
      }
      url := a[0];
      if |a| >= 2 {
        var parsed := ParseInt(a[1]);
        if parsed.None? {
          return Some(NumberFormat);
        }
        timeout := parsed.value;
        if timeout < 0 {
          return Some(IllegalArgument("timeout cannot be less than zero"));
        }
      }
      if |a| >= 3 {
        var parsed := ParseInt(a[2]);
        if parsed.None? {
          return Some(NumberFormat);
        }
        statusCode := parsed.value;
        if statusCode < 0 {
          return Some(IllegalArgument("http status code cannot be less than zero"));
        }
      }
      if |a| == 4 {
        message := a[3];
      }
      return None;
    }
  }

  /** `new URLIsReachable(args)`: the checker, or what `init` threw. */
  method NewURLIsReachable(args: Option<seq<Option<string>>>, isUrl: Option<string> -> bool) returns (r: Result<URLIsReachable, UrlError>)
    ensures var c := Configure(Defaults, args, isUrl);
      (r.Ok? <==> c.failure.None?) &&
      (r.Err? ==> r.error == c.failure.value) &&
      (r.Ok? ==> fresh(r.value) && r.value.Fields() == c.settings)
  {
    var checker := new URLIsReachable();
    var failure := checker.Init(args, isUrl);
    if failure.Some? {
      return Err(failure.value);
    }
    return Ok(checker);
  }

  /** `new URLIsReachable(urlString)`: the same as the one-argument array. */
  method NewURLIsReachableFromString(urlString: Option<string>, isUrl: Option<string> -> bool) returns (r: Result<URLIsReachable, UrlError>)
    ensures var c := Configure(Defaults, Some([urlString]), isUrl);
      (r.Ok? <==> isUrl(urlString)) &&
      (r.Err? ==> r.error == MalformedUrl) &&
      (r.Ok? ==> fresh(r.value) && r.value.Fields() == Settings(urlString, DefaultTimeout, DefaultStatus, None))
  {
    r := NewURLIsReachable(Some([urlString]), isUrl);
  }
}
