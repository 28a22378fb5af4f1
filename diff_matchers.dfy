/**
 * DiffMatchers: a string matcher whose description is a side-by-side diff of the expected
 * and the actual text, in the layout of `diff -y`.
 *
 * The line-based edit script comes from an external diff library; here it is an input,
 * a list of `Difference`s that must be well formed (`WfScript`).
 */
module DiffMatchers {
  import opened Wrappers
  import opened JavaText

  /** `Difference.NONE`: an empty deleted or added range. */
  const NONE: int := -1

  /** One change of the edit script: the deleted range of the old text and the added range of the new one (inclusive ends). */
  datatype Difference = Difference(delStart: int, delEnd: int, addStart: int, addEnd: int)

  predicate IsAdd(d: Difference) {
    d.delEnd == NONE && d.addEnd != NONE
  }

  predicate IsDel(d: Difference) {
    d.addEnd == NONE && d.delEnd != NONE
  }

  predicate IsMod(d: Difference) {
    d.delEnd != NONE && d.addEnd != NONE
  }

  /** The old-text line after a difference has been written. */
  function NextFrom(d: Difference): int {
    if d.delEnd != NONE then d.delEnd + 1 else d.delStart
  }

  /** The new-text line after a difference has been written. */
  function NextTo(d: Difference): int {
    if d.addEnd != NONE then d.addEnd + 1 else d.addStart
  }

  /**
   * The differences come in order, each starting at or after the line where the previous
   * one left off, with ranges inside the two texts.
   */
  predicate WfScript(nFrom: int, nTo: int, diffs: seq<Difference>, f: int, t: int)
    decreases |diffs|
  {
    && 0 <= f <= nFrom && 0 <= t <= nTo
    && (diffs != [] ==>
      var d := diffs[0];
      && f <= d.delStart <= nFrom && t <= d.addStart <= nTo
      && (d.delEnd != NONE ==> d.delStart <= d.delEnd < nFrom)
      && (d.addEnd != NONE ==> d.addStart <= d.addEnd < nTo)
      && WfScript(nFrom, nTo, diffs[1..], NextFrom(d), NextTo(d)))
  }

  // ---------------------------------------------------------------- rows

  /** One output line: the old-text line on the left (if any), a marker, the new-text line on the right (if any). */
  datatype Row = Row(left: Option<nat>, marker: string, right: Option<nat>)

  const Unchanged := "  "
  const Deleted := "<"
  const Added := "> "
  const Modified := "| "

  /**
   * The rows of one of the `while (true)` loops: pair the old lines `f..fEnd-1` with the
   * new lines `t..tEnd-1`, one of each per row while they last. Like the loop, it writes
   * at least one row, a blank one when both ranges are empty.
   */
  function Paired(f: nat, t: nat, fEnd: nat, tEnd: nat, marker: string): (r: seq<Row>)
    requires f <= fEnd && t <= tEnd
    ensures |r| >= 1
    decreases (fEnd - f) + (tEnd - t)
  {
    var left := if f < fEnd then Some(f) else None;
    var right := if t < tEnd then Some(t) else None;
    var f' := if f < fEnd then f + 1 else f;
    var t' := if t < tEnd then t + 1 else t;
    [Row(left, marker, right)] + (if f' == fEnd && t' == tEnd then [] else Paired(f', t', fEnd, tEnd, marker))
  }

  function Max(a: int, b: int): int {
    if a < b then b else a
  }

  /** The first row of a pairing loop and the rows after it. */
  lemma PairedUnfold(f: nat, t: nat, fEnd: nat, tEnd: nat, marker: string)
    requires f <= fEnd && t <= tEnd
    ensures var f' := if f < fEnd then f + 1 else f;
      var t' := if t < tEnd then t + 1 else t;
      Paired(f, t, fEnd, tEnd, marker) ==
        [Row(if f < fEnd then Some(f) else None, marker, if t < tEnd then Some(t) else None)]
        + (if f' == fEnd && t' == tEnd then [] else Paired(f', t', fEnd, tEnd, marker))
  {
  }

  /** The pairing loop writes as many rows as the longer range, and at least one. */
  lemma {:induction false} PairedLength(f: nat, t: nat, fEnd: nat, tEnd: nat, marker: string)
    requires f <= fEnd && t <= tEnd
    ensures |Paired(f, t, fEnd, tEnd, marker)| == Max(1, Max(fEnd - f, tEnd - t))
    decreases (fEnd - f) + (tEnd - t)
  {
    var f' := if f < fEnd then f + 1 else f;
    var t' := if t < tEnd then t + 1 else t;
    PairedUnfold(f, t, fEnd, tEnd, marker);
    if !(f' == fEnd && t' == tEnd) {
      PairedLength(f', t', fEnd, tEnd, marker);
    }
  }

  /** Row `j` of the pairing loop pairs line `f + j` with line `t + j`, where they exist. */
  lemma {:induction false} PairedRow(f: nat, t: nat, fEnd: nat, tEnd: nat, marker: string, j: nat)
    requires f <= fEnd && t <= tEnd && j < |Paired(f, t, fEnd, tEnd, marker)|
    ensures Paired(f, t, fEnd, tEnd, marker)[j] == Row(Slot(f, j, fEnd), marker, Slot(t, j, tEnd))
    decreases j
  {
    PairedUnfold(f, t, fEnd, tEnd, marker);
    if j > 0 {
      var f', t' := Next(f, fEnd), Next(t, tEnd);
      PairedTail(f, t, fEnd, tEnd, marker, j);
      PairedRow(f', t', fEnd, tEnd, marker, j - 1);
      SlotShift(f, fEnd, j);
      SlotShift(t, tEnd, j);
    }
  }

  /** The line a pairing loop starting at `a` shows in its row `j`, if the range up to `end` still has one. */
  function Slot(a: nat, j: nat, end: nat): Option<nat> {
    if a + j < end then Some(a + j) else None
  }

  /** Where a pairing loop continues in a range after writing one row. */
  function Next(a: nat, end: nat): nat {
    if a < end then a + 1 else a
  }

  lemma SlotShift(a: nat, end: nat, j: nat)
    requires a <= end && j > 0
    ensures Slot(Next(a, end), j - 1, end) == Slot(a, j, end)
  {
  }

  /** Row `j > 0` of the pairing loop is row `j - 1` of the loop after its first row. */
  lemma PairedTail(f: nat, t: nat, fEnd: nat, tEnd: nat, marker: string, j: nat)
    requires f <= fEnd && t <= tEnd && 0 < j < |Paired(f, t, fEnd, tEnd, marker)|
    ensures !(Next(f, fEnd) == fEnd && Next(t, tEnd) == tEnd)
    ensures j - 1 < |Paired(Next(f, fEnd), Next(t, tEnd), fEnd, tEnd, marker)|
    ensures Paired(f, t, fEnd, tEnd, marker)[j] == Paired(Next(f, fEnd), Next(t, tEnd), fEnd, tEnd, marker)[j - 1]
  {
    PairedUnfold(f, t, fEnd, tEnd, marker);
  }

  /** The pairing loop writes as many rows as the longer range, and at least one; row `j` pairs line `f + j` with line `t + j`. */
  lemma PairedShape(f: nat, t: nat, fEnd: nat, tEnd: nat, marker: string)
    requires f <= fEnd && t <= tEnd
    ensures |Paired(f, t, fEnd, tEnd, marker)| == Max(1, Max(fEnd - f, tEnd - t))
    ensures forall j :: 0 <= j < |Paired(f, t, fEnd, tEnd, marker)| ==>
      Paired(f, t, fEnd, tEnd, marker)[j] ==
        Row(if f + j < fEnd then Some(f + j) else None, marker, if t + j < tEnd then Some(t + j) else None)
  {
    PairedLength(f, t, fEnd, tEnd, marker);
    forall j | 0 <= j < |Paired(f, t, fEnd, tEnd, marker)|
      ensures Paired(f, t, fEnd, tEnd, marker)[j] == Row(Slot(f, j, fEnd), marker, Slot(t, j, tEnd))
    {
      PairedRow(f, t, fEnd, tEnd, marker, j);
    }
  }

  /** The deletion loop: old lines `s..e-1`, each marked `<`. */
  function DelRows(s: nat, e: nat): seq<Row>
    decreases e - s
  {
    if s >= e then [] else [Row(Some(s), Deleted, None)] + DelRows(s + 1, e)
  }

  /** The deletion loop writes one row per old line of the range, row `j` showing line `s + j`. */
  lemma {:induction false} DelRowsShape(s: nat, e: nat)
    ensures |DelRows(s, e)| == if s < e then e - s else 0
    ensures forall j :: 0 <= j < |DelRows(s, e)| ==> DelRows(s, e)[j] == Row(Some(s + j), Deleted, None)
    decreases e - s
  {
    if s < e {
      DelRowsShape(s + 1, e);
      var r := DelRows(s, e);
      assert r == [r[0]] + DelRows(s + 1, e);
      forall j | 1 <= j < |r|
        ensures r[j] == Row(Some(s + j), Deleted, None)
      {
        assert r[j] == DelRows(s + 1, e)[j - 1];
      }
    }
  }

  /** The addition loop: new lines `s..e-1`, each marked `> `. */
  function AddRows(s: nat, e: nat): seq<Row>
    decreases e - s
  {
    if s >= e then [] else [Row(None, Added, Some(s))] + AddRows(s + 1, e)
  }

  /** The addition loop writes one row per new line of the range, row `j` showing line `s + j`. */
  lemma {:induction false} AddRowsShape(s: nat, e: nat)
    ensures |AddRows(s, e)| == if s < e then e - s else 0
    ensures forall j :: 0 <= j < |AddRows(s, e)| ==> AddRows(s, e)[j] == Row(None, Added, Some(s + j))
    decreases e - s
  {
    if s < e {
      AddRowsShape(s + 1, e);
      var r := AddRows(s, e);
      assert r == [r[0]] + AddRows(s + 1, e);
      forall j | 1 <= j < |r|
        ensures r[j] == Row(None, Added, Some(s + j))
      {
        assert r[j] == AddRows(s + 1, e)[j - 1];
      }
    }
  }

  /** The rows written for a difference after its leading unchanged lines. */
  function ChangeRows(d: Difference): seq<Row>
    requires d.delStart >= 0 && d.addStart >= 0
    requires d.delEnd != NONE ==> d.delStart <= d.delEnd
    requires d.addEnd != NONE ==> d.addStart <= d.addEnd
  {
    if IsDel(d) then DelRows(d.delStart, d.delEnd + 1)
    else if IsAdd(d) then AddRows(d.addStart, d.addEnd + 1)
    else if IsMod(d) then Paired(d.delStart, d.addStart, d.delEnd + 1, d.addEnd + 1, Modified)
    else []
  }

  /** All rows of `diffSideBySide` from old line `f` and new line `t` on. */
  function DiffRows(nFrom: nat, nTo: nat, diffs: seq<Difference>, f: nat, t: nat): seq<Row>
    requires WfScript(nFrom, nTo, diffs, f, t)
    decreases |diffs|
  {
    if diffs == [] then Paired(f, t, nFrom, nTo, Unchanged)
    else
      var d := diffs[0];
      Paired(f, t, d.delStart, d.addStart, Unchanged) + ChangeRows(d)
        + DiffRows(nFrom, nTo, diffs[1..], NextFrom(d), NextTo(d))
  }

  // ---------------------------------------------------------------- text

  function Cell(lines: seq<string>, c: Option<nat>): string {
    if c.Some? && c.value < |lines| then lines[c.value] else ""
  }

  /** One output line: the left cell padded to `width`, the marker, the right cell, a newline. */
  function RowText(from: seq<string>, to: seq<string>, r: Row, width: nat): string {
    Line(Cell(from, r.left), r.marker, Cell(to, r.right), width)
  }

  /** `padEnd(left, width, ' ') + marker + right + "\n"`. */
  function Line(left: string, marker: string, right: string, width: nat): string {
    PadEnd(left, width) + marker + right + "\n"
  }

  /** The output lines of the rows, in order. */
  function RowTexts(from: seq<string>, to: seq<string>, rows: seq<Row>, width: nat): seq<string>
    decreases |rows|
  {
    if rows == [] then [] else [RowText(from, to, rows[0], width)] + RowTexts(from, to, rows[1..], width)
  }

  /** The strings one after another. */
  function Concat(ss: seq<string>): string
    decreases |ss|
  {
    if ss == [] then "" else ss[0] + Concat(ss[1..])
  }

  /** The text the rows print. */
  function Render(from: seq<string>, to: seq<string>, rows: seq<Row>, width: nat): string {
    Concat(RowTexts(from, to, rows, width))
  }

  lemma {:induction false} ConcatAppend(a: seq<string>, b: seq<string>)
    ensures Concat(a + b) == Concat(a) + Concat(b)
    decreases |a|
  {
    if a != [] {
      assert (a + b)[0] == a[0] && (a + b)[1..] == a[1..] + b;
      ConcatAppend(a[1..], b);
    } else {
      assert a + b == b;
    }
  }

  lemma {:induction false} RowTextsAppend(from: seq<string>, to: seq<string>, a: seq<Row>, b: seq<Row>, width: nat)
    ensures RowTexts(from, to, a + b, width) == RowTexts(from, to, a, width) + RowTexts(from, to, b, width)
    decreases |a|
  {
    if a != [] {
      assert (a + b)[0] == a[0] && (a + b)[1..] == a[1..] + b;
      RowTextsAppend(from, to, a[1..], b, width);
    } else {
      assert a + b == b;
    }
  }

  /** The text of two runs of rows is the text of the first followed by that of the second. */
  lemma RenderAppend(from: seq<string>, to: seq<string>, a: seq<Row>, b: seq<Row>, width: nat)
    ensures Render(from, to, a + b, width) == Render(from, to, a, width) + Render(from, to, b, width)
  {
    RowTextsAppend(from, to, a, b, width);
    ConcatAppend(RowTexts(from, to, a, width), RowTexts(from, to, b, width));
  }

  /** `maxLength(lines)` as a value: the length of the longest line, 0 for none. */
  function Longest(lines: seq<string>): (m: nat)
    ensures forall i :: 0 <= i < |lines| ==> |lines[i]| <= m
    ensures m == 0 || exists i :: 0 <= i < |lines| && |lines[i]| == m
    decreases |lines|
  {
    if lines == [] then 0
    else
      var m := Longest(lines[..|lines| - 1]);
      var last := |lines[|lines| - 1]|;
      assert forall i :: 0 <= i < |lines| - 1 ==> lines[..|lines| - 1][i] == lines[i];
      if m < last then last else m
  }

  function Lines(s: string): seq<string> {
    Split(s, '\n')
  }

  /** `maxStrWidth`: the longer of the two texts' longest lines, plus a padding of 3. */
  function Width(from: seq<string>, to: seq<string>): nat {
    Max(Longest(from), Longest(to)) + 3
  }

  /** `diffSideBySide(fromStr, toStr)` for the edit script `diffs`. */
  function SideBySide(fromStr: string, toStr: string, diffs: seq<Difference>): string
    requires WfScript(|Lines(fromStr)|, |Lines(toStr)|, diffs, 0, 0)
  {
    var from := Lines(fromStr);
    var to := Lines(toStr);
    Render(from, to, DiffRows(|from|, |to|, diffs, 0, 0), Width(from, to))
  }

  // ---------------------------------------------------------------- properties

  /** The old-text line numbers of the rows, in order. */
  function Lefts(rows: seq<Row>): seq<nat>
    decreases |rows|
  {
    if rows == [] then [] else (if rows[0].left.Some? then [rows[0].left.value] else []) + Lefts(rows[1..])
  }

  /** The new-text line numbers of the rows, in order. */
  function Rights(rows: seq<Row>): seq<nat>
    decreases |rows|
  {
    if rows == [] then [] else (if rows[0].right.Some? then [rows[0].right.value] else []) + Rights(rows[1..])
  }

  /** The numbers `a`, `a + 1`, …, `b - 1`. */
  function Range(a: nat, b: nat): seq<nat>
    decreases b - a
  {
    if a >= b then [] else [a] + Range(a + 1, b)
  }

  /** `Range(a, b)` has `b - a` elements, the `j`-th being `a + j`. */
  lemma {:induction false} RangeShape(a: nat, b: nat)
    ensures |Range(a, b)| == if a < b then b - a else 0
    ensures forall j :: 0 <= j < |Range(a, b)| ==> Range(a, b)[j] == a + j
    decreases b - a
  {
    if a < b {
      RangeShape(a + 1, b);
    }
  }

  lemma {:induction false} LeftsAppend(a: seq<Row>, b: seq<Row>)
    ensures Lefts(a + b) == Lefts(a) + Lefts(b)
    decreases |a|
  {
    if a == [] {
      assert a + b == b;
    } else {
      var h := if a[0].left.Some? then [a[0].left.value] else [];
      assert (a + b)[0] == a[0];
      assert (a + b)[1..] == a[1..] + b;
      assert Lefts(a + b) == h + Lefts(a[1..] + b);
      LeftsAppend(a[1..], b);
      assert h + (Lefts(a[1..]) + Lefts(b)) == (h + Lefts(a[1..])) + Lefts(b);
    }
  }

  lemma {:induction false} RightsAppend(a: seq<Row>, b: seq<Row>)
    ensures Rights(a + b) == Rights(a) + Rights(b)
    decreases |a|
  {
    if a == [] {
      assert a + b == b;
    } else {
      var h := if a[0].right.Some? then [a[0].right.value] else [];
      assert (a + b)[0] == a[0];
      assert (a + b)[1..] == a[1..] + b;
      assert Rights(a + b) == h + Rights(a[1..] + b);
      RightsAppend(a[1..], b);
      assert h + (Rights(a[1..]) + Rights(b)) == (h + Rights(a[1..])) + Rights(b);
    }
  }

  lemma ColumnsAppend(a: seq<Row>, b: seq<Row>)
    ensures Lefts(a + b) == Lefts(a) + Lefts(b)
    ensures Rights(a + b) == Rights(a) + Rights(b)
  {
    LeftsAppend(a, b);
    RightsAppend(a, b);
  }

  lemma RangeSplit(a: nat, b: nat, c: nat)
    requires a <= b <= c
    ensures Range(a, b) + Range(b, c) == Range(a, c)
  {
    RangeShape(a, b);
    RangeShape(b, c);
    RangeShape(a, c);
  }

  lemma {:induction false} PairedColumns(f: nat, t: nat, fEnd: nat, tEnd: nat, marker: string)
    requires f <= fEnd && t <= tEnd
    ensures Lefts(Paired(f, t, fEnd, tEnd, marker)) == Range(f, fEnd)
    ensures Rights(Paired(f, t, fEnd, tEnd, marker)) == Range(t, tEnd)
    decreases (fEnd - f) + (tEnd - t)
  {
    var f' := if f < fEnd then f + 1 else f;
    var t' := if t < tEnd then t + 1 else t;
    var r := Paired(f, t, fEnd, tEnd, marker);
    if !(f' == fEnd && t' == tEnd) {
      PairedColumns(f', t', fEnd, tEnd, marker);
      assert r[1..] == Paired(f', t', fEnd, tEnd, marker);
    } else {
      assert r[1..] == [];
    }
    if f < fEnd {
      assert Range(f, fEnd) == [f] + Range(f + 1, fEnd);
    }
    if t < tEnd {
      assert Range(t, tEnd) == [t] + Range(t + 1, tEnd);
    }
  }

  lemma {:induction false} DelColumns(s: nat, e: nat)
    requires s <= e
    ensures Lefts(DelRows(s, e)) == Range(s, e) && Rights(DelRows(s, e)) == []
    decreases e - s
  {
    if s < e {
      DelColumns(s + 1, e);
      assert DelRows(s, e)[1..] == DelRows(s + 1, e);
    }
  }

  lemma {:induction false} AddColumns(s: nat, e: nat)
    requires s <= e
    ensures Lefts(AddRows(s, e)) == [] && Rights(AddRows(s, e)) == Range(s, e)
    decreases e - s
  {
    if s < e {
      AddColumns(s + 1, e);
      assert AddRows(s, e)[1..] == AddRows(s + 1, e);
    }
  }

  lemma ChangeColumns(d: Difference)
    requires d.delStart >= 0 && d.addStart >= 0
    requires d.delEnd != NONE ==> d.delStart <= d.delEnd
    requires d.addEnd != NONE ==> d.addStart <= d.addEnd
    ensures Lefts(ChangeRows(d)) == Range(d.delStart, NextFrom(d))
    ensures Rights(ChangeRows(d)) == Range(d.addStart, NextTo(d))
  {
    if IsDel(d) {
      DelColumns(d.delStart, d.delEnd + 1);
    } else if IsAdd(d) {
      AddColumns(d.addStart, d.addEnd + 1);
    } else if IsMod(d) {
      PairedColumns(d.delStart, d.addStart, d.delEnd + 1, d.addEnd + 1, Modified);
    }
  }

  /**
   * Every line of the old text appears exactly once in the left column, in order, and
   * every line of the new text exactly once in the right column.
   */
  lemma {:induction false} EveryLineOnce(nFrom: nat, nTo: nat, diffs: seq<Difference>, f: nat, t: nat)
    requires WfScript(nFrom, nTo, diffs, f, t)
    ensures Lefts(DiffRows(nFrom, nTo, diffs, f, t)) == Range(f, nFrom)
    ensures Rights(DiffRows(nFrom, nTo, diffs, f, t)) == Range(t, nTo)
    decreases |diffs|
  {
    if diffs == [] {
      PairedColumns(f, t, nFrom, nTo, Unchanged);
    } else {
      var d := diffs[0];
      var gap := Paired(f, t, d.delStart, d.addStart, Unchanged);
      var change := ChangeRows(d);
      var rest := DiffRows(nFrom, nTo, diffs[1..], NextFrom(d), NextTo(d));
      PairedColumns(f, t, d.delStart, d.addStart, Unchanged);
      ChangeColumns(d);
      EveryLineOnce(nFrom, nTo, diffs[1..], NextFrom(d), NextTo(d));
      ColumnsAppend(gap, change);
      ColumnsAppend(gap + change, rest);
      RangeSplit(f, d.delStart, NextFrom(d));
      RangeSplit(f, NextFrom(d), nFrom);
      RangeSplit(t, d.addStart, NextTo(d));
      RangeSplit(t, NextTo(d), nTo);
    }
  }

  lemma ColumnBound(rows: seq<Row>, n: nat, j: nat)
    requires Lefts(rows) == Range(0, n) && j < |rows| && rows[j].left.Some?
    ensures rows[j].left.value < n
  {
    var pre, post := rows[..j], rows[j..];
    assert rows == pre + post;
    ColumnsAppend(pre, post);
    assert post[0] == rows[j];
    assert Lefts(post) == [rows[j].left.value] + Lefts(post[1..]);
    var k := |Lefts(pre)|;
    assert Lefts(rows)[k] == rows[j].left.value;
    RangeShape(0, n);
  }

  /** The left cell of every row is padded to exactly the width, so every marker starts in the same column. */
  lemma MarkersAligned(fromStr: string, toStr: string, diffs: seq<Difference>, j: nat)
    requires WfScript(|Lines(fromStr)|, |Lines(toStr)|, diffs, 0, 0)
    requires j < |DiffRows(|Lines(fromStr)|, |Lines(toStr)|, diffs, 0, 0)|
    ensures var from := Lines(fromStr);
      var r := DiffRows(|from|, |Lines(toStr)|, diffs, 0, 0)[j];
      |PadEnd(Cell(from, r.left), Width(from, Lines(toStr)))| == Width(from, Lines(toStr))
  {
    var from := Lines(fromStr);
    var rows := DiffRows(|from|, |Lines(toStr)|, diffs, 0, 0);
    EveryLineOnce(|from|, |Lines(toStr)|, diffs, 0, 0);
    if rows[j].left.Some? {
      ColumnBound(rows, |from|, j);
    }
    PadEndShape(Cell(from, rows[j].left), Width(from, Lines(toStr)));
  }

  /** Without differences every row is unchanged: row `j` shows line `j` of each text. */
  lemma NoDifferences(nFrom: nat, nTo: nat)
    ensures |DiffRows(nFrom, nTo, [], 0, 0)| == Max(1, Max(nFrom, nTo))
    ensures forall j :: 0 <= j < |DiffRows(nFrom, nTo, [], 0, 0)| ==>
      DiffRows(nFrom, nTo, [], 0, 0)[j] ==
        Row(if j < nFrom then Some(j) else None, Unchanged, if j < nTo then Some(j) else None)
  {
    PairedShape(0, 0, nFrom, nTo, Unchanged);
  }

  /** Comparing a text with itself, each row shows the same line on both sides and no change marker. */
  lemma SameTextUnchanged(s: string, j: nat)
    requires j < |DiffRows(|Lines(s)|, |Lines(s)|, [], 0, 0)|
    ensures var r := DiffRows(|Lines(s)|, |Lines(s)|, [], 0, 0)[j];
      r.marker == Unchanged && Cell(Lines(s), r.left) == Cell(Lines(s), r.right)
  {
    NoDifferences(|Lines(s)|, |Lines(s)|);
  }

  // ---------------------------------------------------------------- the code

  /** `maxLength(lines)`. */
  method MaxLength(lines: seq<string>) returns (m: nat)
    ensures m == Longest(lines)
  {
    m := 0;
    var i := 0;
    while i < |lines|
      invariant 0 <= i <= |lines|
      invariant m == Longest(lines[..i])
    {
      assert lines[..i + 1][..i] == lines[..i];
      if m < |lines[i]| {
        m := |lines[i]|;
      }
      i := i + 1;
    }
    assert lines[..|lines|] == lines;
  }

  /** The first row of a pairing loop, the line it prints and the rows after it. */
  lemma PairedStep(from: seq<string>, to: seq<string>, f: nat, t: nat, fEnd: nat, tEnd: nat, marker: string, width: nat)
    requires f <= fEnd && t <= tEnd
    ensures var f' := if f < fEnd then f + 1 else f;
      var t' := if t < tEnd then t + 1 else t;
      var row := Row(if f < fEnd then Some(f) else None, marker, if t < tEnd then Some(t) else None);
      Render(from, to, Paired(f, t, fEnd, tEnd, marker), width) ==
        RowText(from, to, row, width)
        + (if f' == fEnd && t' == tEnd then "" else Render(from, to, Paired(f', t', fEnd, tEnd, marker), width))
  {
    var f' := if f < fEnd then f + 1 else f;
    var t' := if t < tEnd then t + 1 else t;
    var row := Row(if f < fEnd then Some(f) else None, marker, if t < tEnd then Some(t) else None);
    var rest := if f' == fEnd && t' == tEnd then [] else Paired(f', t', fEnd, tEnd, marker);
    var rows := Paired(f, t, fEnd, tEnd, marker);
    assert rows == [row] + rest;
    assert rows[0] == row && rows[1..] == rest;
    RenderStep(from, to, rows, width);
  }

  /** One of the three `while (true)` pairing loops of `diffSideBySide`. */
  method WritePaired(from: seq<string>, to: seq<string>, f0: nat, t0: nat, fEnd: nat, tEnd: nat, marker: string, width: nat)
    returns (text: string)
    requires f0 <= fEnd <= |from| && t0 <= tEnd <= |to|
    ensures text == Render(from, to, Paired(f0, t0, fEnd, tEnd, marker), width)
  {
    text := "";
    var f := f0;
    var t := t0;
    while true
      invariant f0 <= f <= fEnd && t0 <= t <= tEnd
      invariant text + Render(from, to, Paired(f, t, fEnd, tEnd, marker), width) ==
        Render(from, to, Paired(f0, t0, fEnd, tEnd, marker), width)
      decreases (fEnd - f) + (tEnd - t)
    {
      PairedStep(from, to, f, t, fEnd, tEnd, marker, width);
      ghost var row := Row(if f < fEnd then Some(f) else None, marker, if t < tEnd then Some(t) else None);
      var left := if f < fEnd then from[f] else "";
      var right := if t < tEnd then to[t] else "";
      assert left == Cell(from, row.left) && right == Cell(to, row.right);
      var line := Line(left, marker, right, width);
      f := if f < fEnd then f + 1 else f;
      t := if t < tEnd then t + 1 else t;
      ghost var rest := if f == fEnd && t == tEnd then "" else Render(from, to, Paired(f, t, fEnd, tEnd, marker), width);
      ConcatAssoc(text, line, rest);
      text := text + line;
      if f == fEnd && t == tEnd {
        return;
      }
    }
  }

  lemma RenderStep(from: seq<string>, to: seq<string>, rows: seq<Row>, width: nat)
    requires rows != []
    ensures Render(from, to, rows, width) == RowText(from, to, rows[0], width) + Render(from, to, rows[1..], width)
  {
    var ts := RowTexts(from, to, rows, width);
    assert ts[0] == RowText(from, to, rows[0], width) && ts[1..] == RowTexts(from, to, rows[1..], width);
  }

  /** The first row of the deletion loop, the line it prints and the rows after it. */
  lemma DelStep(from: seq<string>, to: seq<string>, i: nat, e: nat, width: nat)
    requires i < e <= |from|
    ensures Render(from, to, DelRows(i, e), width) == Line(from[i], Deleted, "", width) + Render(from, to, DelRows(i + 1, e), width)
  {
    var rows := DelRows(i, e);
    assert rows[0] == Row(Some(i), Deleted, None);
    assert rows[1..] == DelRows(i + 1, e);
    RenderStep(from, to, rows, width);
  }

  /** The first row of the addition loop, the line it prints and the rows after it. */
  lemma AddStep(from: seq<string>, to: seq<string>, i: nat, e: nat, width: nat)
    requires i < e <= |to|
    ensures Render(from, to, AddRows(i, e), width) == Line("", Added, to[i], width) + Render(from, to, AddRows(i + 1, e), width)
  {
    var rows := AddRows(i, e);
    assert rows[0] == Row(None, Added, Some(i));
    assert rows[1..] == AddRows(i + 1, e);
    RenderStep(from, to, rows, width);
  }

  /** The deletion loop of `diffSideBySide`, over the deleted lines `s` to `e - 1`. */
  method WriteDeletedLines(from: seq<string>, to: seq<string>, s: nat, e: nat, width: nat) returns (text: string)
    requires s <= e <= |from|
    ensures text == Render(from, to, DelRows(s, e), width)
  {
    text := "";
    var i := s;
    while i < e
      invariant s <= i <= e
      invariant text + Render(from, to, DelRows(i, e), width) == Render(from, to, DelRows(s, e), width)
    {
      var line := Line(from[i], Deleted, "", width);
      DelStep(from, to, i, e, width);
      ConcatAssoc(text, line, Render(from, to, DelRows(i + 1, e), width));
      text := text + line;
      i := i + 1;
    }
  }

  /** The rows of a deletion, written by the deletion loop. */
  method WriteDeleted(from: seq<string>, to: seq<string>, d: Difference, width: nat) returns (text: string)
    requires IsDel(d) && 0 <= d.delStart <= d.delEnd < |from| && d.addStart >= 0
    ensures text == Render(from, to, ChangeRows(d), width)
  {
    text := WriteDeletedLines(from, to, d.delStart, d.delEnd + 1, width);
    ChangeRowsCases(d);
  }

  /** The addition loop of `diffSideBySide`, over the added lines `s` to `e - 1`. */
  method WriteAddedLines(from: seq<string>, to: seq<string>, s: nat, e: nat, width: nat) returns (text: string)
    requires s <= e <= |to|
    ensures text == Render(from, to, AddRows(s, e), width)
  {
    text := "";
    var i := s;
    while i < e
      invariant s <= i <= e
      invariant text + Render(from, to, AddRows(i, e), width) == Render(from, to, AddRows(s, e), width)
    {
      var line := Line("", Added, to[i], width);
      AddStep(from, to, i, e, width);
      ConcatAssoc(text, line, Render(from, to, AddRows(i + 1, e), width));
      text := text + line;
      i := i + 1;
    }
  }

  /** The rows of an addition, written by the addition loop. */
  method WriteAdded(from: seq<string>, to: seq<string>, d: Difference, width: nat) returns (text: string)
    requires IsAdd(d) && 0 <= d.addStart <= d.addEnd < |to| && d.delStart >= 0
    ensures text == Render(from, to, ChangeRows(d), width)
  {
    text := WriteAddedLines(from, to, d.addStart, d.addEnd + 1, width);
    ChangeRowsCases(d);
  }

  /** The pairing loop of a modification, marked `| `. */
  method WriteModified(from: seq<string>, to: seq<string>, d: Difference, width: nat) returns (text: string)
    requires IsMod(d) && 0 <= d.delStart <= d.delEnd < |from| && 0 <= d.addStart <= d.addEnd < |to|
    ensures text == Render(from, to, ChangeRows(d), width)
  {
    text := WritePaired(from, to, d.delStart, d.addStart, d.delEnd + 1, d.addEnd + 1, Modified, width);
    ChangeRowsCases(d);
  }

  /** The rows of one difference after its leading unchanged lines, and where the two texts continue. */
  method WriteChange(from: seq<string>, to: seq<string>, d: Difference, width: nat)
    returns (text: string, f': nat, t': nat)
    requires 0 <= d.delStart <= |from| && 0 <= d.addStart <= |to|
    requires d.delEnd != NONE ==> d.delStart <= d.delEnd < |from|
    requires d.addEnd != NONE ==> d.addStart <= d.addEnd < |to|
    ensures text == Render(from, to, ChangeRows(d), width)
    ensures f' == NextFrom(d) && t' == NextTo(d)
  {
    f' := NextFrom(d);
    t' := NextTo(d);
    text := WriteChangeRows(from, to, d, width);
  }

  /** The three loops of a difference; a difference that changes nothing writes nothing. */
  method WriteChangeRows(from: seq<string>, to: seq<string>, d: Difference, width: nat) returns (text: string)
    requires 0 <= d.delStart <= |from| && 0 <= d.addStart <= |to|
    requires d.delEnd != NONE ==> d.delStart <= d.delEnd < |from|
    requires d.addEnd != NONE ==> d.addStart <= d.addEnd < |to|
    ensures text == Render(from, to, ChangeRows(d), width)
  {
    if IsDel(d) {
      text := WriteDeleted(from, to, d, width);
    } else if IsAdd(d) {
      text := WriteAdded(from, to, d, width);
    } else if IsMod(d) {
      text := WriteModified(from, to, d, width);
    } else {
      ChangeRowsCases(d);
      text := "";
    }
  }

  lemma ChangeRowsCases(d: Difference)
    requires d.delStart >= 0 && d.addStart >= 0
    requires d.delEnd != NONE ==> d.delStart <= d.delEnd
    requires d.addEnd != NONE ==> d.addStart <= d.addEnd
    ensures IsDel(d) ==> ChangeRows(d) == DelRows(d.delStart, d.delEnd + 1)
    ensures IsAdd(d) ==> ChangeRows(d) == AddRows(d.addStart, d.addEnd + 1)
    ensures IsMod(d) ==> ChangeRows(d) == Paired(d.delStart, d.addStart, d.delEnd + 1, d.addEnd + 1, Modified)
    ensures !IsDel(d) && !IsAdd(d) && !IsMod(d) ==> ChangeRows(d) == []
  {
  }

  lemma DiffRowsStep(from: seq<string>, to: seq<string>, diffs: seq<Difference>, k: nat, f: nat, t: nat, width: nat)
    requires k < |diffs| && WfScript(|from|, |to|, diffs[k..], f, t)
    ensures var d := diffs[k];
      && f <= d.delStart <= |from| && t <= d.addStart <= |to|
      && (d.delEnd != NONE ==> d.delStart <= d.delEnd < |from|)
      && (d.addEnd != NONE ==> d.addStart <= d.addEnd < |to|)
      && WfScript(|from|, |to|, diffs[k + 1..], NextFrom(d), NextTo(d))
      && Render(from, to, DiffRows(|from|, |to|, diffs[k..], f, t), width) ==
        Render(from, to, Paired(f, t, d.delStart, d.addStart, Unchanged), width)
        + Render(from, to, ChangeRows(d), width)
        + Render(from, to, DiffRows(|from|, |to|, diffs[k + 1..], NextFrom(d), NextTo(d)), width)
  {
    var d := diffs[k];
    assert diffs[k..][0] == d && diffs[k..][1..] == diffs[k + 1..];
    var gap := Paired(f, t, d.delStart, d.addStart, Unchanged);
    var rest := DiffRows(|from|, |to|, diffs[k + 1..], NextFrom(d), NextTo(d));
    assert DiffRows(|from|, |to|, diffs[k..], f, t) == gap + ChangeRows(d) + rest;
    RenderAppend(from, to, gap + ChangeRows(d), rest, width);
    RenderAppend(from, to, gap, ChangeRows(d), width);
  }

  /** One iteration of the loop over the edit script: the unchanged lines before difference `k`, then its rows. */
  method WriteDifference(from: seq<string>, to: seq<string>, diffs: seq<Difference>, k: nat, f: nat, t: nat, width: nat)
    returns (text: string, f': nat, t': nat)
    requires k < |diffs| && WfScript(|from|, |to|, diffs[k..], f, t)
    ensures WfScript(|from|, |to|, diffs[k + 1..], f', t')
    ensures text + Render(from, to, DiffRows(|from|, |to|, diffs[k + 1..], f', t'), width) ==
      Render(from, to, DiffRows(|from|, |to|, diffs[k..], f, t), width)
  {
    DiffRowsStep(from, to, diffs, k, f, t, width);
    var gap := WritePaired(from, to, f, t, diffs[k].delStart, diffs[k].addStart, Unchanged, width);
    var change;
    change, f', t' := WriteChange(from, to, diffs[k], width);
    ConcatAssoc(gap, change, Render(from, to, DiffRows(|from|, |to|, diffs[k + 1..], f', t'), width));
    text := gap + change;
  }

  /** The loop of `diffSideBySide` over the edit script, then the unchanged lines after the last difference. */
  method WriteScript(from: seq<string>, to: seq<string>, diffs: seq<Difference>, width: nat) returns (out: string)
    requires WfScript(|from|, |to|, diffs, 0, 0)
    ensures out == Render(from, to, DiffRows(|from|, |to|, diffs, 0, 0), width)
  {
    ghost var total := Render(from, to, DiffRows(|from|, |to|, diffs, 0, 0), width);
    out := "";
    var f := 0;
    var t := 0;
    var k := 0;
    assert diffs[0..] == diffs;
    while k < |diffs|
      invariant 0 <= k <= |diffs|
      invariant WfScript(|from|, |to|, diffs[k..], f, t)
      invariant out + Render(from, to, DiffRows(|from|, |to|, diffs[k..], f, t), width) == total
    {
      var text, f', t' := WriteDifference(from, to, diffs, k, f, t, width);
      ConcatAssoc(out, text, Render(from, to, DiffRows(|from|, |to|, diffs[k + 1..], f', t'), width));
      out := out + text;
      f, t, k := f', t', k + 1;
    }
    assert diffs[k..] == [];
    var tail := WritePaired(from, to, f, t, |from|, |to|, Unchanged, width);
    out := out + tail;
  }

  /** `diffSideBySide(fromStr, toStr)`, given the edit script the diff library computes for the two texts' lines. */
  method DiffSideBySide(fromStr: string, toStr: string, diffs: seq<Difference>) returns (out: string)
    requires WfScript(|Lines(fromStr)|, |Lines(toStr)|, diffs, 0, 0)
    ensures out == SideBySide(fromStr, toStr, diffs)
  {
    var from := Split(fromStr, '\n');
    var to := Split(toStr, '\n');
    var padding := 3;
    var m1 := MaxLength(from);
    var m2 := MaxLength(to);
    var width := Max(m1, m2) + padding;
    out := WriteScript(from, to, diffs, width);
  }

  // ---------------------------------------------------------------- the matcher

  datatype DescribeError = NullText

  /** `DiffMatchers.equalTo(string)`: the expected text and the item last matched. */
  class StringDiffMatcher {
    const expected: Option<string>
    var item: Option<string>

    constructor (expected: Option<string>)
      ensures this.expected == expected && item == None
    {
      this.expected := expected;
      item := None;
    }

    /** `matchesSafely(item)`: remembers the item and compares it with `equals`. */
    method MatchesSafely(item: Option<string>) returns (r: bool)
      modifies this
      ensures this.item == item
      ensures r <==> item == expected
    {
      this.item := item;
      if item.None? {
        return expected.None?;
      }
      return expected.Some? && item.value == expected.value;
    }

    /** `matches(item)` inherited from `TypeSafeMatcher`: a `null` item fails without reaching `matchesSafely`. */
    method Matches(item: Option<string>) returns (r: bool)
      modifies this
      ensures item.None? ==> !r && this.item == old(this.item)
      ensures item.Some? ==> this.item == item && (r <==> expected == item)
    {
      if item.None? {
        return false;
      }
      r := MatchesSafely(item);
    }

    /** `describeTo`: a newline and the side-by-side diff of expected and item; a missing text throws. */
    method DescribeTo(diffs: seq<Difference>) returns (r: Result<string, DescribeError>)
      requires expected.Some? && item.Some? ==> WfScript(|Lines(expected.value)|, |Lines(item.value)|, diffs, 0, 0)
      ensures expected.None? || item.None? ==> r == Err(NullText)
      ensures expected.Some? && item.Some? ==> r == Ok("\n" + SideBySide(expected.value, item.value, diffs))
    {
      if expected.None? || item.None? {
        return Err(NullText);
      }
      var diff := DiffSideBySide(expected.value, item.value, diffs);
      return Ok("\n" + diff);
    }
  }
}
