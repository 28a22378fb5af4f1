/**
 * The parts of java.lang.String, java.lang.Integer and Hamcrest's value descriptions that
 * the test-support code relies on, written over Dafny strings (`seq<char>`).
 */
module JavaText {
  import opened Wrappers

  /** `s.startsWith(prefix)`. */
  predicate StartsWith(s: string, prefix: string) {
    |prefix| <= |s| && s[..|prefix|] == prefix
  }

  /** `sub` occurs in `s` starting at index `i`. */
  predicate OccursAt(s: string, sub: string, i: int) {
    0 <= i && i + |sub| <= |s| && s[i..i + |sub|] == sub
  }

  /** `s.contains(sub)`, scanning `s` from the front. */
  function Contains(s: string, sub: string): bool
    decreases |s|
  {
    if StartsWith(s, sub) then true
    else if s == [] then false
    else Contains(s[1..], sub)
  }

  /** The scan finds `sub` exactly when `sub` occurs somewhere in `s`. */
  lemma {:induction false} ContainsIff(s: string, sub: string)
    ensures Contains(s, sub) <==> exists i :: OccursAt(s, sub, i)
    decreases |s|
  {
    if StartsWith(s, sub) {
      assert OccursAt(s, sub, 0);
    } else if s == [] {
    } else {
      ContainsIff(s[1..], sub);
      if Contains(s, sub) {
        var i :| OccursAt(s[1..], sub, i);
        assert s[1..][i..i + |sub|] == s[i + 1..i + 1 + |sub|];
        assert OccursAt(s, sub, i + 1);
      }
      if exists i :: OccursAt(s, sub, i) {
        var i :| OccursAt(s, sub, i);
        if i != 0 {
          assert s[1..][i - 1..i - 1 + |sub|] == s[i..i + |sub|];
          assert OccursAt(s[1..], sub, i - 1);
        }
      }
    }
  }

  /** `s.replace(from, to)` for single characters: every `from` becomes `to`. */
  function ReplaceChar(s: string, from: char, to: char): (r: string)
    ensures |r| == |s|
  {
    seq(|s|, i requires 0 <= i < |s| => if s[i] == from then to else s[i])
  }

  /** `s.trim().isEmpty()`: `trim` removes every character up to and including the space. */
  predicate IsBlank(s: string) {
    forall i :: 0 <= i < |s| ==> s[i] <= ' '
  }

  /** The parts joined with `sep` between consecutive parts. */
  function Join(parts: seq<string>, sep: string): string
    decreases |parts|
  {
    if parts == [] then ""
    else if |parts| == 1 then parts[0]
    else Join(parts[..|parts| - 1], sep) + sep + parts[|parts| - 1]
  }

  /** `n` space characters. */
  function Spaces(n: nat): string {
    seq(n, _ => ' ')
  }

  /** Guava's `Strings.padEnd(s, width, ' ')`: spaces are added up to `width`; a longer `s` is kept. */
  function PadEnd(s: string, width: nat): string {
    if |s| >= width then s else s + Spaces(width - |s|)
  }

  /** The padded string starts with `s`, is `width` long unless `s` is longer, and ends in spaces. */
  lemma PadEndShape(s: string, width: nat)
    ensures var r := PadEnd(s, width);
      && StartsWith(r, s)
      && |r| == (if |s| < width then width else |s|)
      && forall i :: |s| <= i < |r| ==> r[i] == ' '
  {
    var r := PadEnd(s, width);
    assert r[..|s|] == s;
  }

  // ---------------------------------------------------------------- decimal numbers

  predicate IsDigit(c: char) {
    '0' <= c <= '9'
  }

  function DigitChar(d: nat): char
    requires d < 10
  {
    ('0' as int + d) as char
  }

  function DigitValue(c: char): nat
    requires IsDigit(c)
  {
    (c as int - '0' as int) as nat
  }

  /** `String.valueOf(n)` for a non-negative `n`: decimal, no leading zeros. */
  function NatToString(n: nat): (r: string)
    ensures |r| >= 1
    decreases n
  {
    if n < 10 then [DigitChar(n)] else NatToString(n / 10) + [DigitChar(n % 10)]
  }

  /** `String.valueOf(n)` for any `n`. */
  function IntToString(n: int): string {
    if n < 0 then "-" + NatToString(-n) else NatToString(n)
  }

  predicate AllDigits(s: string) {
    forall i :: 0 <= i < |s| ==> IsDigit(s[i])
  }

  /** The value of a string of decimal digits, most significant first. */
  function DigitsValue(s: string): nat
    requires AllDigits(s)
    decreases |s|
  {
    if s == [] then 0 else DigitsValue(s[..|s| - 1]) * 10 + DigitValue(s[|s| - 1])
  }

  const MinInt: int := -0x8000_0000
  const MaxInt: int := 0x7fff_ffff

  /**
   * `Integer.parseInt(s)`: an optional sign followed by at least one decimal digit, with a
   * value in the 32-bit range; `None` where Java throws `NumberFormatException`
   * (also for a `null` argument).
   */
  function ParseInt(s: Option<string>): (r: Option<int>)
    ensures r.Some? ==> MinInt <= r.value <= MaxInt
  {
    if s.None? || s.value == [] then None
    else
      var t := s.value;
      var start := if t[0] == '-' || t[0] == '+' then 1 else 0;
      var digits := t[start..];
      if digits == [] || !AllDigits(digits) then None
      else
        var n: int := if t[0] == '-' then -(DigitsValue(digits) as int) else DigitsValue(digits);
        if MinInt <= n <= MaxInt then Some(n) else None
  }

  lemma {:induction false} NatToStringDigits(n: nat)
    ensures AllDigits(NatToString(n)) && DigitsValue(NatToString(n)) == n
    decreases n
  {
    var s := NatToString(n);
    if n < 10 {
      assert s == [DigitChar(n)];
    } else {
      var q, d := n / 10, n % 10;
      NatToStringDigits(q);
      assert s == NatToString(q) + [DigitChar(d)];
      assert s[..|s| - 1] == NatToString(q);
      assert DigitValue(s[|s| - 1]) == d;
      assert n == q * 10 + d;
    }
  }

  /** Printing a 32-bit integer and parsing the text back gives the integer again. */
  lemma ParseIntOfIntToString(n: int)
    requires MinInt <= n <= MaxInt
    ensures ParseInt(Some(IntToString(n))) == Some(n)
  {
    if n < 0 {
      ParseNegative(-n);
    } else {
      ParseNonNegative(n);
    }
  }

  /** The text of a negative 32-bit integer parses back. */
  lemma ParseNegative(m: nat)
    requires 0 < m <= -MinInt
    ensures ParseInt(Some("-" + NatToString(m))) == Some(-(m as int))
  {
    NatToStringDigits(m);
    var t := "-" + NatToString(m);
    assert t[0] == '-' && t[1..] == NatToString(m);
  }

  /** The text of a non-negative 32-bit integer parses back. */
  lemma ParseNonNegative(n: nat)
    requires n <= MaxInt
    ensures ParseInt(Some(NatToString(n))) == Some(n)
  {
    NatToStringDigits(n);
    var t := NatToString(n);
    assert IsDigit(t[0]) && t[0..] == t;
  }

  // ---------------------------------------------------------------- String.split

  /** The pieces of `s` between occurrences of `sep`, empty pieces included. */
  function Pieces(s: string, sep: char): (r: seq<string>)
    ensures |r| >= 1
    decreases |s|
  {
    if s == [] then [""]
    else
      var rest := Pieces(s[..|s| - 1], sep);
      if s[|s| - 1] == sep then rest + [""]
      else rest[..|rest| - 1] + [rest[|rest| - 1] + [s[|s| - 1]]]
  }

  /** No piece contains the separator. */
  lemma {:induction false} PiecesAvoidSeparator(s: string, sep: char)
    ensures forall k :: 0 <= k < |Pieces(s, sep)| ==> sep !in Pieces(s, sep)[k]
    decreases |s|
  {
    if s != [] {
      PiecesAvoidSeparator(s[..|s| - 1], sep);
      var rest := Pieces(s[..|s| - 1], sep);
      if s[|s| - 1] != sep {
        var r := Pieces(s, sep);
        assert forall k :: 0 <= k < |rest| - 1 ==> r[k] == rest[k];
        assert r[|r| - 1] == rest[|rest| - 1] + [s[|s| - 1]];
      }
    }
  }

  /** Sequence concatenation regroups freely; stated so that long chains need not be re-derived. */
  lemma ConcatAssoc<T>(a: seq<T>, b: seq<T>, c: seq<T>)
    ensures a + b + c == a + (b + c)
  {
  }

  /** Joining one more part adds the separator and the part, unless there was nothing before. */
  lemma JoinSnoc(parts: seq<string>, x: string, sep: string)
    ensures Join(parts + [x], sep) == if parts == [] then x else Join(parts, sep) + sep + x
  {
    assert (parts + [x])[..|parts|] == parts;
  }

  lemma JoinPiecesStep(rest: seq<string>, init: string, c: char, sep: char)
    requires |rest| >= 1 && Join(rest, [sep]) == init
    ensures Join(if c == sep then rest + [""] else rest[..|rest| - 1] + [rest[|rest| - 1] + [c]], [sep]) == init + [c]
  {
    if c == sep {
      JoinSnoc(rest, "", [sep]);
    } else {
      var front := rest[..|rest| - 1];
      var last := rest[|rest| - 1];
      assert rest == front + [last];
      JoinSnoc(front, last, [sep]);
      JoinSnoc(front, last + [c], [sep]);
    }
  }

  /** Joining the pieces with the separator gives back the string. */
  lemma {:induction false} JoinPieces(s: string, sep: char)
    ensures Join(Pieces(s, sep), [sep]) == s
    decreases |s|
  {
    if s != [] {
      var init := s[..|s| - 1];
      var c := s[|s| - 1];
      assert s == init + [c];
      JoinPieces(init, sep);
      PiecesSnoc(init, c, sep);
      JoinPiecesStep(Pieces(init, sep), init, c, sep);
    }
  }

  /** The pieces after one more character: a separator opens a new piece, any other character extends the last one. */
  function Extended(p: seq<string>, c: char, sep: char): seq<string>
    requires p != []
  {
    if c == sep then p + [""] else p[..|p| - 1] + [p[|p| - 1] + [c]]
  }

  lemma PiecesSnoc(s: string, c: char, sep: char)
    ensures Pieces(s + [c], sep) == Extended(Pieces(s, sep), c, sep)
  {
    assert (s + [c])[..|s|] == s;
  }

  lemma PiecesConcatStep(px: seq<string>, py: seq<string>, c: char, sep: char)
    requires py != []
    ensures Extended(px + py, c, sep) == px + Extended(py, c, sep)
  {
    var rest := px + py;
    if c != sep {
      assert rest[..|rest| - 1] == px + py[..|py| - 1];
    }
  }

  /** Splitting at one occurrence of the separator splits the pieces there. */
  lemma {:induction false} PiecesConcat(x: string, y: string, sep: char)
    ensures Pieces(x + [sep] + y, sep) == Pieces(x, sep) + Pieces(y, sep)
    decreases |y|
  {
    if y == [] {
      PiecesSnoc(x, sep, sep);
      assert x + [sep] + y == x + [sep];
    } else {
      var y', c := y[..|y| - 1], y[|y| - 1];
      var z := x + [sep] + y';
      calc {
        Pieces(x + [sep] + y, sep);
        { assert x + [sep] + y == z + [c]; }
        Pieces(z + [c], sep);
        { PiecesSnoc(z, c, sep); PiecesConcat(x, y', sep); }
        Extended(Pieces(x, sep) + Pieces(y', sep), c, sep);
        { PiecesConcatStep(Pieces(x, sep), Pieces(y', sep), c, sep); }
        Pieces(x, sep) + Extended(Pieces(y', sep), c, sep);
        { PiecesSnoc(y', c, sep); assert y' + [c] == y; }
        Pieces(x, sep) + Pieces(y, sep);
      }
    }
  }

  /** The list with its trailing empty strings removed. */
  function DropTrailingEmpty(parts: seq<string>): (r: seq<string>)
    ensures |r| <= |parts| && r == parts[..|r|]
    ensures r == [] || r[|r| - 1] != ""
    ensures forall k :: |r| <= k < |parts| ==> parts[k] == ""
    decreases |parts|
  {
    if parts == [] || parts[|parts| - 1] != "" then parts
    else DropTrailingEmpty(parts[..|parts| - 1])
  }

  /**
   * `s.split(String.valueOf(sep))` with Java's default limit: a string without `sep` is
   * its own only piece (so `""` gives `[""]`); otherwise trailing empty pieces are removed.
   */
  function Split(s: string, sep: char): (r: seq<string>)
    ensures forall k :: 0 <= k < |r| ==> sep !in r[k]
  {
    PiecesAvoidSeparator(s, sep);
    if sep !in s then [s] else DropTrailingEmpty(Pieces(s, sep))
  }

  // ---------------------------------------------------------------- Hamcrest descriptions

  /** One character as Hamcrest's `appendValue` writes it inside a quoted string. */
  function EscapeChar(c: char): string {
    if c == '"' then "\\\""
    else if c == '\n' then "\\n"
    else if c == '\r' then "\\r"
    else if c == '\t' then "\\t"
    else [c]
  }

  function Escaped(s: string): string
    decreases |s|
  {
    if s == [] then "" else Escaped(s[..|s| - 1]) + EscapeChar(s[|s| - 1])
  }

  /** Hamcrest's `appendValue` for a `String`: Java string-literal syntax. */
  function Quoted(s: string): (r: string)
    ensures |r| >= 2 && r[0] == '"' && r[|r| - 1] == '"'
  {
    "\"" + Escaped(s) + "\""
  }

  /** Hamcrest's `appendValue` for an `int`: the number in angle brackets. */
  function AngleValue(n: int): string {
    "<" + IntToString(n) + ">"
  }
}
