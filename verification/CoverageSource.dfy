/** The source-origin map as the compiler keeps it, and its line tables
    (internal/compiler/coverage_source.go). */
module CoverageSource {
  import opened SourceEdits
  import opened SourceMap

  // ----- lines -----

  function Newlines(text: seq<Byte>): nat {
    if text == [] then 0 else Newlines(text[..|text| - 1]) + (if text[|text| - 1] == NEWLINE then 1 else 0)
  }

  /** The line on which the byte at `o` stands starts here. */
  function LineBegin(text: seq<Byte>, o: nat): nat
    requires o <= |text|
  {
    if o == 0 || text[o - 1] == NEWLINE then o else LineBegin(text, o - 1)
  }

  datatype Pos = Pos(line: int, column: int)

  const NO_POS := Pos(0, 0)

  /** One-based line and column of the byte at `o`. */
  function At(text: seq<Byte>, o: nat): Pos
    requires o <= |text|
  {
    Pos(1 + Newlines(text[..o]), o - LineBegin(text, o) + 1)
  }

  /** The table of line starts, as one pass over the text builds it. */
  function LineStarts(text: seq<Byte>): seq<int>
  {
    if text == [] then [0]
    else LineStarts(text[..|text| - 1]) + (if text[|text| - 1] == NEWLINE then [|text|] else [])
  }

  /** Up to `o` the table lists the starts of the lines reached so far, the last
      being that of `o`'s own line; all later entries lie behind `o`. */
  lemma {:induction false} TableAt(text: seq<Byte>, o: nat)
    requires o <= |text|
    ensures var t, line := LineStarts(text), At(text, o).line;
            && 1 <= line <= |t|
            && t[line - 1] == LineBegin(text, o)
            && (forall i :: 0 <= i < line ==> t[i] <= o)
            && (forall i :: line <= i < |t| ==> o < t[i])
    decreases |text|, o
  {
    if text != [] {
      var n := |text|;
      var before := text[..n - 1];
      if o < n {
        TableAt(before, o);
        assert before[..o] == text[..o];
        SameBegin(text, n - 1, o);
      } else if text[n - 1] == NEWLINE {
        assert text[..n] == text;
        StartsBounded(before);
        StartsCounted(before);
      } else {
        TableAt(before, n - 1);
        assert text[..n] == text && before[..n - 1] == before;
        SameBegin(text, n - 1, n - 1);
        StartsBounded(before);
        StartsCounted(before);
      }
    }
  }

  lemma {:induction false} SameBegin(text: seq<Byte>, n: nat, o: nat)
    requires o <= n <= |text|
    ensures LineBegin(text[..n], o) == LineBegin(text, o)
    decreases o
  {
    if o > 0 && text[o - 1] != NEWLINE { SameBegin(text, n, o - 1); }
  }

  lemma {:induction false} StartsBounded(text: seq<Byte>)
    ensures forall i :: 0 <= i < |LineStarts(text)| ==> 0 <= LineStarts(text)[i] <= |text|
    decreases |text|
  {
    if text != [] { StartsBounded(text[..|text| - 1]); }
  }

  lemma {:induction false} StartsCounted(text: seq<Byte>)
    ensures |LineStarts(text)| == 1 + Newlines(text)
    decreases |text|
  {
    if text != [] { StartsCounted(text[..|text| - 1]); }
  }

  lemma {:induction false} StartsIncrease(text: seq<Byte>)
    ensures forall i, j :: 0 <= i < j < |LineStarts(text)| ==> LineStarts(text)[i] < LineStarts(text)[j]
    decreases |text|
  {
    if text != [] {
      StartsIncrease(text[..|text| - 1]);
      StartsBounded(text[..|text| - 1]);
    }
  }

  // ----- the map -----

  class SourceMapping {
    var expressions: seq<Range>
    var active: bool          // whether an edit has been applied
    var original: seq<Byte>
    var offsets: seq<int>
    var lines: seq<int>
    var originalLines: seq<int>

    /** The origins of the bytes of `text`; before any edit each byte is its own. */
    ghost function Offsets(text: seq<Byte>): seq<int>
      reads this
    {
      if active then offsets else Identity(|text|)
    }

    ghost function Original(text: seq<Byte>): seq<Byte>
      reads this
    {
      if active then original else text
    }

    /** `text` is the current source. */
    ghost predicate Valid(text: seq<Byte>)
      reads this
    {
      Exact(Original(text), Offsets(text), text) && Proper(expressions)
    }

    /** The recorded range `i` of the current source separates its origins. */
    ghost predicate Separated(text: seq<Byte>, i: int)
      reads this
    {
      0 <= i < |expressions| && Separates(Offsets(text), expressions[i])
    }

    constructor (text: seq<Byte>)
      ensures Valid(text) && !active && expressions == []
    {
      expressions, active, original, offsets, lines, originalLines := [], false, [], [], [], [];
    }

    static method EditedSourceOffset(offset: int, edits: seq<Edit>, afterInsertion: bool) returns (r: int)
      ensures r == EditedOffset(offset, edits, afterInsertion)
    {
      var delta, i := 0, 0;
      assert edits[0..] == edits;
      while i < |edits|
        invariant 0 <= i <= |edits|
        invariant Moved(offset, edits, afterInsertion) == Add(delta, Moved(offset, edits[i..], afterInsertion))
      {
        var edit := edits[i];
        assert edits[i..][0] == edit && edits[i..][1..] == edits[i + 1..];
        if offset < edit.start { break; }
        if edit.start == edit.end && offset == edit.start {
          if afterInsertion { delta := delta + |edit.text|; }
        } else {
          if offset == edit.start { return offset + delta; }
          if offset < edit.end { return -1; }
          delta := delta + |edit.text| - (edit.end - edit.start);
        }
        i := i + 1;
      }
      r := offset + delta;
    }

    /** Moves the recorded ranges with the edits. */
    method MoveRanges(edits: seq<Edit>)
      requires edits != []
      modifies this`expressions
      ensures expressions == Moving(old(expressions), edits)
    {
      for i := 0 to |expressions|
        invariant |expressions| == |old(expressions)|
        invariant forall j :: 0 <= j < i ==> expressions[j] == MovedRange(old(expressions)[j], edits)
        invariant forall j :: i <= j < |expressions| ==> expressions[j] == old(expressions)[j]
      {
        var start := EditedSourceOffset(expressions[i].start, edits, true);
        var end := EditedSourceOffset(expressions[i].end, edits, false);
        expressions := expressions[i := expressions[i].(start := start, end := end)];
      }
    }

    /** Replays the edits of one pass on the map. */
    method Apply(source: seq<Byte>, edits: seq<Edit>)
      requires Valid(source) && Sorted(edits, 0, |source|)
      modifies this
      ensures Valid(Edited(source, edits))
      ensures Offsets(Edited(source, edits)) == Origins(old(Offsets(source)), edits)
      ensures Original(Edited(source, edits)) == old(Original(source))
      ensures forall i :: old(Separated(source, i)) ==> Separated(Edited(source, edits), i)
      ensures expressions == Moving(old(expressions), edits)
      ensures active == (old(active) || edits != [])
    {
      ghost var before := Offsets(source);
      if edits == [] {
        assert source[0..] == source && before[0..] == before;
        return;
      }
      MoveRanges(edits);
      if !active {
        active, original := true, source;
        offsets := Identity(|source|);
      }
      assert offsets == before;
      var next := Replay(offsets, edits);
      offsets := next;
      EditsKeepExact(original, before, source, edits);
      forall i | old(Separated(source, i)) ensures Separates(offsets, expressions[i]) {
        RangeKept(before, old(expressions)[i], edits, true, false);
      }
    }

    /** The new table: kept stretches, and -1 for every inserted byte. */
    static method Replay(offsets: seq<int>, edits: seq<Edit>) returns (next: seq<int>)
      requires Sorted(edits, 0, |offsets|)
      ensures next == Origins(offsets, edits)
    {
      next := [];
      var previous, i := 0, 0;
      assert edits[0..] == edits;
      while i < |edits|
        invariant 0 <= i <= |edits| && Sorted(edits[i..], previous, |offsets|)
        invariant next + Splice(offsets, edits[i..], previous, Nowhere) == Origins(offsets, edits)
      {
        var edit := edits[i];
        assert edits[i..][0] == edit && edits[i..][1..] == edits[i + 1..];
        SortedBounds(edits[i + 1..], edit.end, |offsets|);
        ghost var rest := Splice(offsets, edits[i + 1..], edit.end, Nowhere);
        assert next + (offsets[previous..edit.start] + Nowhere(edit) + rest) ==
                 next + offsets[previous..edit.start] + Nowhere(edit) + rest;
        next := next + offsets[previous..edit.start];
        next := next + Nowhere(edit);
        previous := edit.end;
        i := i + 1;
      }
      SortedBounds(edits[i..], previous, |offsets|);
      next := next + offsets[previous..];
    }

    /** The original byte at an end of an expression: the byte's own origin, or
        what the first recorded range with that end says. */
    ghost function Boundary(offset: int): int
      reads this
    {
      if active then BoundaryIn(offsets, expressions, offset) else offset
    }

    method ExpressionBoundary(offset: int) returns (r: int)
      ensures r == Boundary(offset)
      ensures active && Proper(expressions) ==> (r >= 0 <==> HasOriginal(offsets, expressions, offset))
    {
      if active && Proper(expressions) { OriginalExact(offsets, expressions, offset); }
      if !active { return offset; }
      if 0 <= offset < |offsets| && offsets[offset] >= 0 { return offsets[offset]; }
      assert expressions[0..] == expressions;
      for i := 0 to |expressions|
        invariant FirstTouching(expressions, offset) ==
                  var j := FirstTouching(expressions[i..], offset); if j < 0 then -1 else i + j
      {
        assert expressions[i..][0] == expressions[i] && expressions[i..][1..] == expressions[i + 1..];
        if offset == expressions[i].start { return expressions[i].originalStart; }
        if offset == expressions[i].end - 1 { return expressions[i].originalEnd - 1; }
      }
      r := -1;
    }

    /** At an end whose byte has no origin of its own, the first recorded range that
        touches the byte has that end too, has not been cut and separates its origins. */
    ghost predicate Aligned(text: seq<Byte>, start: int, end: int)
      reads this
    {
      && 0 <= start < end <= |text|
      && (active && start < |offsets| && offsets[start] < 0 ==>
            var i := FirstTouching(expressions, start);
            i >= 0 ==> !Lost(expressions[i]) && expressions[i].start == start && Separated(text, i))
      && (active && end <= |offsets| && offsets[end - 1] < 0 ==>
            var i := FirstTouching(expressions, end - 1);
            i >= 0 ==> !Lost(expressions[i]) && expressions[i].end == end && Separated(text, i))
    }

    /** Records a range of the source before the edits by where they move it. */
    method Record(ghost text: seq<Byte>, ghost before: seq<int>, range: Range, edits: seq<Edit>)
      requires Sorted(edits, 0, |before|) && Offsets(text) == Origins(before, edits)
      modifies this`expressions
      ensures expressions == old(expressions) + [Wrapped(range, edits)]
      ensures old(Proper(expressions)) && 0 <= range.originalStart < range.originalEnd ==> Proper(expressions)
      ensures Offsets(text) == old(Offsets(text)) && Original(text) == old(Original(text))
      ensures forall i :: old(Separated(text, i)) ==> Separated(text, i)
      ensures Separates(before, range) && !Lost(range) ==> Separated(text, |old(expressions)|)
    {
      if Separates(before, range) && !Lost(range) { RangeKept(before, range, edits, false, true); }
      var start := EditedSourceOffset(range.start, edits, false);
      var end := EditedSourceOffset(range.end, edits, true);
      expressions := expressions + [range.(start := start, end := end)];
    }

    method Boundaries(ghost source: seq<Byte>, start: int, end: int) returns (originalStart: int, originalLast: int)
      requires Valid(source)
      ensures originalStart == Boundary(start) && originalLast == Boundary(end - 1)
      ensures Aligned(source, start, end) && 0 <= originalStart <= originalLast ==>
                Separates(Offsets(source), Range(start, end, originalStart, originalLast + 1))
    {
      originalStart := ExpressionBoundary(start);
      originalLast := ExpressionBoundary(end - 1);
      if Aligned(source, start, end) && 0 <= originalStart <= originalLast { AlignedSeparate(source, start, end); }
    }

    lemma AlignedSeparate(source: seq<Byte>, start: int, end: int)
      requires Valid(source) && Aligned(source, start, end) && 0 <= Boundary(start) <= Boundary(end - 1)
      ensures Separates(Offsets(source), Range(start, end, Boundary(start), Boundary(end - 1) + 1))
    {
      StartAligned(source, start, end);
      EndAligned(source, start, end);
      assert Increasing(Offsets(source));
      BoundariesSeparate(Offsets(source), expressions, Range(start, end, Boundary(start), Boundary(end - 1) + 1));
    }

    lemma StartAligned(source: seq<Byte>, start: int, end: int)
      requires Valid(source) && Aligned(source, start, end) && Boundary(start) >= 0
      ensures StartFrom(Offsets(source), expressions, start, Boundary(start))
    {
      if active && offsets[start] < 0 {
        var i := FirstTouching(expressions, start);
        assert Separated(source, i) && expressions[i].start == start;
      }
    }

    lemma EndAligned(source: seq<Byte>, start: int, end: int)
      requires Valid(source) && Aligned(source, start, end) && Boundary(end - 1) >= 0
      ensures EndFrom(Offsets(source), expressions, end, Boundary(end - 1) + 1)
    {
      if active && offsets[end - 1] < 0 {
        var i := FirstTouching(expressions, end - 1);
        assert Separated(source, i) && expressions[i].end == end;
      }
    }

    /** Applies the edits that rewrite the expression [start, end) and records the range
        the result stands for. It separates its origins where the ends are aligned with
        the ranges recorded before. */
    method ApplyExpression(source: seq<Byte>, edits: seq<Edit>, start: int, end: int)
      requires Valid(source) && Sorted(edits, 0, |source|)
      modifies this
      ensures Valid(Edited(source, edits))
      ensures Offsets(Edited(source, edits)) == Origins(old(Offsets(source)), edits)
      ensures var first, last := old(Boundary(start)), old(Boundary(end - 1));
              expressions == Moving(old(expressions), edits)
                + if 0 <= first <= last then [Wrapped(Range(start, end, first, last + 1), edits)] else []
      ensures old(active) && |expressions| > |old(expressions)| ==>
                HasOriginal(old(offsets), old(expressions), start)
                    && HasOriginal(old(offsets), old(expressions), end - 1)
      ensures forall i :: old(Separated(source, i)) ==> Separated(Edited(source, edits), i)
      ensures old(Aligned(source, start, end)) && |expressions| > |old(expressions)| ==>
                Separated(Edited(source, edits), |old(expressions)|)
    {
      ghost var before := Offsets(source);
      var originalStart, originalLast := Boundaries(source, start, end);
      var range := Range(start, end, originalStart, originalLast + 1);
      ghost var good := Separates(before, range) && !Lost(range);
      assert Aligned(source, start, end) && 0 <= originalStart <= originalLast ==> good;
      Apply(source, edits);
      if originalStart >= 0 && originalLast >= originalStart {
        Record(Edited(source, edits), before, range, edits);
      }
    }

    /** Line tables of the final source and of the original. */
    method Finish(source: seq<Byte>)
      requires Valid(source)
      modifies this
      ensures Valid(source) && active == old(active) && original == old(original) && offsets == old(offsets)
              && expressions == old(expressions)
      ensures active ==> lines == LineStarts(source) && originalLines == LineStarts(original)
    {
      if !active { return; }
      var table := Table(original);
      originalLines := table;
      table := Table(source);
      lines := table;
    }

    static method Table(text: seq<Byte>) returns (table: seq<int>)
      ensures table == LineStarts(text)
    {
      table := [0];
      for i := 0 to |text|
        invariant table == LineStarts(text[..i])
      {
        assert text[..i + 1][..i] == text[..i];
        if text[i] == NEWLINE { table := table + [i + 1]; }
      }
      assert text[..|text|] == text;
    }

    /** Smallest index whose entry exceeds `offset`, by bisection. */
    static method Search(table: seq<int>, offset: int) returns (i: nat)
      requires forall a, b :: 0 <= a < b < |table| ==> table[a] < table[b]
      ensures i <= |table| && (forall k :: 0 <= k < i ==> table[k] <= offset)
                && (forall k :: i <= k < |table| ==> offset < table[k])
    {
      i := 0;
      var j := |table|;
      while i < j
        invariant 0 <= i <= j <= |table|
        invariant forall k :: 0 <= k < i ==> table[k] <= offset
        invariant forall k :: j <= k < |table| ==> offset < table[k]
      {
        var h := (i + j) / 2;
        if table[h] <= offset { i := h + 1; } else { j := h; }
      }
    }

    /** For a position of the final source: the line and column of the byte it
        comes from, or no position if it comes from nowhere. */
    method Position(text: seq<Byte>, pos: Pos) returns (r: Pos)
      requires Valid(text) && (active ==> lines == LineStarts(text) && originalLines == LineStarts(original))
      ensures !active ==> r == pos
      ensures active ==> forall o :: 0 <= o < |text| && pos == At(text, o) ==>
                r == if offsets[o] >= 0 then At(original, offsets[o]) else NO_POS
    {
      if !active { return pos; }
      ghost var o := if exists o ::
        0 <= o < |text| && pos == At(text, o) then (var o :| 0 <= o < |text| && pos == At(text, o); o) else -1;
      if o >= 0 { Located(text, pos, o); }
      r := NO_POS;
      if 1 <= pos.line <= |lines| && pos.column >= 1 {
        var offset := lines[pos.line - 1] + pos.column - 1;
        assert o >= 0 ==> offset == o;
        if 0 <= offset < |offsets| && offsets[offset] >= 0 {
          offset := offsets[offset];
          TableAt(original, offset);
          StartsIncrease(original);
          var line := Search(originalLines, offset);
          LineFound(original, offset, line);
          r := Pos(line, offset - originalLines[line - 1] + 1);
        }
      }
    }
  }

  /** A position determines its offset. */
  lemma Located(text: seq<Byte>, pos: Pos, o: nat)
    requires o < |text| && pos == At(text, o)
    ensures 1 <= pos.line <= |LineStarts(text)| && pos.column >= 1
            && LineStarts(text)[pos.line - 1] + pos.column - 1 == o
    ensures forall i :: 0 <= i < |text| && pos == At(text, i) ==> i == o
  {
    TableAt(text, o);
    forall i | 0 <= i < |text| && pos == At(text, i) ensures i == o { TableAt(text, i); }
  }

  lemma LineFound(text: seq<Byte>, o: nat, line: nat)
    requires o < |text| && line <= |LineStarts(text)|
    requires (forall k :: 0 <= k < line ==> LineStarts(text)[k] <= o)
               && (forall k :: line <= k < |LineStarts(text)| ==> o < LineStarts(text)[k])
    ensures line == At(text, o).line && line >= 1 && LineStarts(text)[line - 1] == LineBegin(text, o)
  {
    TableAt(text, o);
    var table, at := LineStarts(text), At(text, o).line;
    assert line < |table| ==> o < table[line];
    assert at < |table| ==> o < table[at];
    assert line >= 1 ==> table[line - 1] <= o;
    assert table[at - 1] <= o;
  }

  predicate Touches(e: Range, offset: int) {
    offset == e.start || offset == e.end - 1
  }

  /** The first range that begins or ends with the byte at `offset`, or -1. */
  function FirstTouching(expressions: seq<Range>, offset: int): (i: int)
    ensures -1 <= i < |expressions|
    ensures i >= 0 ==> Touches(expressions[i], offset)
    ensures forall j :: 0 <= j < (if i < 0 then |expressions| else i) ==> !Touches(expressions[j], offset)
    decreases |expressions|
  {
    if expressions == [] then -1
    else if Touches(expressions[0], offset) then 0
    else
      var i := FirstTouching(expressions[1..], offset);
      assert forall j :: 1 <= j < |expressions| ==> expressions[j] == expressions[1..][j - 1];
      if i < 0 then -1 else i + 1
  }

  function BoundaryOf(e: Range, offset: int): int {
    if offset == e.start then e.originalStart else e.originalEnd - 1
  }

  /** What the map and the recorded ranges tell about the byte at `offset`: its own
      origin, or that end of the first range that begins or ends with it. */
  function BoundaryIn(offsets: seq<int>, expressions: seq<Range>, offset: int): int {
    if 0 <= offset < |offsets| && offsets[offset] >= 0 then offsets[offset]
    else
      var i := FirstTouching(expressions, offset);
      if i < 0 then -1 else BoundaryOf(expressions[i], offset)
  }

  /** Recorded ranges stand for something. */
  predicate Proper(expressions: seq<Range>) {
    forall i :: 0 <= i < |expressions| ==> 0 <= expressions[i].originalStart < expressions[i].originalEnd
  }

  /** The byte has an origin, or some recorded range begins or ends with it. */
  ghost predicate HasOriginal(offsets: seq<int>, expressions: seq<Range>, offset: int) {
    || (0 <= offset < |offsets| && offsets[offset] >= 0)
    || exists i :: 0 <= i < |expressions| && Touches(expressions[i], offset)
  }

  /** An end has an original exactly then. */
  lemma OriginalExact(offsets: seq<int>, expressions: seq<Range>, offset: int)
    requires Proper(expressions)
    ensures BoundaryIn(offsets, expressions, offset) >= 0 <==> HasOriginal(offsets, expressions, offset)
  {
    var i := FirstTouching(expressions, offset);
    if i >= 0 { assert Touches(expressions[i], offset); }
  }

  /** The ranges recorded before, as the edits move them. */
  function Moving(expressions: seq<Range>, edits: seq<Edit>): seq<Range> {
    if edits == [] then expressions
    else seq(|expressions|, i requires 0 <= i < |expressions| => MovedRange(expressions[i], edits))
  }

  lemma {:induction false} TouchedLast(before: seq<Range>, m: Range, offset: int)
    requires Touches(m, offset) && forall i :: 0 <= i < |before| ==> !Touches(before[i], offset)
    ensures FirstTouching(before + [m], offset) == |before|
  {
    assert (before + [m])[|before|] == m;
    assert forall i :: 0 <= i < |before| ==> (before + [m])[i] == before[i];
  }

  /** Rewriting the result of a rewrite again gives it the same original ends: each end
      byte is the old end byte or has no origin, and no older range begins or ends with
      it there. Only a result of one originless byte forgets the original's end: that
      byte is taken for the range's first. */
  lemma RewrittenAgain(offsets: seq<int>, expressions: seq<Range>, edits: seq<Edit>, start: int, end: int)
    requires Sorted(edits, 0, |offsets|) && 0 <= start < end <= |offsets|
    requires var first, last := BoundaryIn(offsets, expressions, start), BoundaryIn(offsets, expressions, end - 1);
             0 <= first <= last && !Lost(Wrapped(Range(start, end, first, last + 1), edits))
    requires var m, next, older := Wrapped(Range(start, end, 0, 0), edits), Origins(offsets, edits),
               Moving(expressions, edits);
             && m.end <= |next|
             && (if next[m.start] >= 0 then Outside(edits, start)
                 else forall i :: 0 <= i < |older| ==> !Touches(older[i], m.start))
             && (if next[m.end - 1] >= 0 then Outside(edits, end - 1)
                 else forall i :: 0 <= i < |older| ==> !Touches(older[i], m.end - 1))
    ensures var first, last := BoundaryIn(offsets, expressions, start), BoundaryIn(offsets, expressions, end - 1);
            var m, next := Wrapped(Range(start, end, first, last + 1), edits), Origins(offsets, edits);
            var now := Moving(expressions, edits) + [m];
            && BoundaryIn(next, now, m.start) == first
            && (BoundaryIn(next, now, m.end - 1) == last <==> first == last || m.start < m.end - 1)
  {
    var first, last := BoundaryIn(offsets, expressions, start), BoundaryIn(offsets, expressions, end - 1);
    var m, next := Wrapped(Range(start, end, first, last + 1), edits), Origins(offsets, edits);
    var older := Moving(expressions, edits);
    assert m.start == EditedOffset(start, edits, false) && m.end == EditedOffset(end, edits, true);
    StartAgain(offsets, edits, older, m, start, first);
    EndAgain(offsets, edits, older, m, end, last);
    if next[m.start] >= 0 && m.start == m.end - 1 { assert first == last; }
  }

  lemma StartAgain(offsets: seq<int>, edits: seq<Edit>, older: seq<Range>, m: Range, start: int, first: int)
    requires Sorted(edits, 0, |offsets|) && 0 <= start < |offsets| && m.start == EditedOffset(start, edits, false)
    requires m.originalStart == first && (offsets[start] >= 0 ==> first == offsets[start])
    requires var next := Origins(offsets, edits);
             && 0 <= m.start < |next|
             && (if next[m.start] >= 0 then Outside(edits, start)
                 else forall i :: 0 <= i < |older| ==> !Touches(older[i], m.start))
    ensures BoundaryIn(Origins(offsets, edits), older + [m], m.start) == first
  {
    if Origins(offsets, edits)[m.start] >= 0 { FirstByte(offsets, edits, start); }
    else { TouchedLast(older, m, m.start); }
  }

  lemma EndAgain(offsets: seq<int>, edits: seq<Edit>, older: seq<Range>, m: Range, end: int, last: int)
    requires Sorted(edits, 0, |offsets|) && 0 < end <= |offsets| && m.end == EditedOffset(end, edits, true)
    requires m.originalEnd == last + 1 && (offsets[end - 1] >= 0 ==> last == offsets[end - 1])
    requires var next := Origins(offsets, edits);
             && 0 <= m.end - 1 < |next|
             && (if next[m.end - 1] >= 0 then Outside(edits, end - 1)
                 else forall i :: 0 <= i < |older| ==> !Touches(older[i], m.end - 1))
    ensures var next := Origins(offsets, edits);
            BoundaryIn(next, older + [m], m.end - 1) ==
            if next[m.end - 1] < 0 && m.start == m.end - 1 then m.originalStart else last
  {
    if Origins(offsets, edits)[m.end - 1] >= 0 { LastByte(offsets, edits, end); }
    else { TouchedLast(older, m, m.end - 1); }
  }

  /** A first byte that has an origin and survives is the old one. */
  lemma FirstByte(offsets: seq<int>, edits: seq<Edit>, start: int)
    requires Sorted(edits, 0, |offsets|) && 0 <= start < |offsets| && Outside(edits, start)
    requires var at := EditedOffset(start, edits, false);
             0 <= at < |Origins(offsets, edits)| && Origins(offsets, edits)[at] >= 0
    ensures Origins(offsets, edits)[EditedOffset(start, edits, false)] == offsets[start]
  {
    var at, n := EditedOffset(start, edits, false), |offsets|;
    Covered(offsets, edits, 0, Nowhere, at);
    var o := ComesFrom(edits, 0, n, at).value;
    Placed(offsets, edits, 0, Nowhere, o);
    Placed(offsets, edits, 0, Nowhere, start);
    CutEitherWay(start, edits, 0, n);
    BeforeInsertion(start, edits, 0, n);
    if o < start { Strict(o, start, edits, false, 0, n); }
    if start < o { Strict(start, o, edits, true, 0, n); }
  }

  lemma LastByte(offsets: seq<int>, edits: seq<Edit>, end: int)
    requires Sorted(edits, 0, |offsets|) && 0 < end <= |offsets| && Outside(edits, end - 1)
    requires var at := EditedOffset(end, edits, true) - 1;
             0 <= at < |Origins(offsets, edits)| && Origins(offsets, edits)[at] >= 0
    ensures Origins(offsets, edits)[EditedOffset(end, edits, true) - 1] == offsets[end - 1]
  {
    var at, n := EditedOffset(end, edits, true) - 1, |offsets|;
    Covered(offsets, edits, 0, Nowhere, at);
    var o := ComesFrom(edits, 0, n, at).value;
    Placed(offsets, edits, 0, Nowhere, o);
    Placed(offsets, edits, 0, Nowhere, end - 1);
    SideKept(o, end, edits, true, n);
    Strict(end - 1, end, edits, true, 0, n);
    if o < end - 1 { Strict(o, end - 1, edits, true, 0, n); }
  }

  /** Where an end of a new range gets its original offset from. */
  ghost predicate StartFrom(offsets: seq<int>, expressions: seq<Range>, start: int, r: int) {
    || (0 <= start < |offsets| && offsets[start] >= 0 && r == offsets[start])
    || (exists i ::
        0 <= i < |expressions| && !Lost(expressions[i]) && Separates(offsets, expressions[i])
            && expressions[i].start == start && r == expressions[i].originalStart)
  }

  ghost predicate EndFrom(offsets: seq<int>, expressions: seq<Range>, end: int, r: int) {
    || (0 < end <= |offsets| && offsets[end - 1] >= 0 && r == offsets[end - 1] + 1)
    || (exists i :: 0 <= i < |expressions| && !Lost(expressions[i]) && Separates(offsets, expressions[i])
                    && expressions[i].end == end
                    && (r == expressions[i].originalEnd
                        || (expressions[i].start == end - 1 && 0 < end <= |offsets| && offsets[end - 1] < 0
                            && r == expressions[i].originalStart + 1)))
  }

  /** Ends taken from bytes with an origin, or from ranges that share them, give a
      range that separates the map again. */
  lemma BoundariesSeparate(offsets: seq<int>, expressions: seq<Range>, r: Range)
    requires 0 <= r.start < r.end <= |offsets| && r.originalStart < r.originalEnd
    requires Increasing(offsets)
    requires StartFrom(offsets, expressions, r.start, r.originalStart)
             && EndFrom(offsets, expressions, r.end, r.originalEnd)
    ensures Separates(offsets, r)
  {
    forall k | 0 <= k < |offsets| && offsets[k] >= 0
      ensures (k < r.start ==> offsets[k] < r.originalStart) && (k >= r.start ==> r.originalStart <= offsets[k])
    {
      if !(offsets[r.start] >= 0 && r.originalStart == offsets[r.start]) {
        var i :| 0 <= i < |expressions| && !Lost(expressions[i]) && Separates(offsets, expressions[i])
            && expressions[i].start == r.start && r.originalStart == expressions[i].originalStart;
      }
    }
    forall k | 0 <= k < |offsets| && offsets[k] >= 0
      ensures (k < r.end ==> offsets[k] < r.originalEnd) && (k >= r.end ==> r.originalEnd <= offsets[k])
    {
      if !(offsets[r.end - 1] >= 0 && r.originalEnd == offsets[r.end - 1] + 1) {
        var i :| 0 <= i < |expressions| && !Lost(expressions[i]) && Separates(offsets, expressions[i])
                 && expressions[i].end == r.end
                 && (r.originalEnd == expressions[i].originalEnd
                     || (expressions[i].start == r.end - 1 && offsets[r.end - 1] < 0
                         && r.originalEnd == expressions[i].originalStart + 1));
      }
    }
  }

  predicate Increasing(offsets: seq<int>) {
    forall i, j :: 0 <= i < j < |offsets| && offsets[i] >= 0 && offsets[j] >= 0 ==> offsets[i] < offsets[j]
  }

  /** An expression that begins with the inserted last byte of a recorded range takes
      that range's last original byte for its first: right exactly when no byte of the
      range in front of it still has that origin. */
  lemma UnalignedStart(offsets: seq<int>, e: Range, start: int, end: int)
    requires Increasing(offsets) && Separates(offsets, e) && !Lost(e) && 0 <= start < end <= |offsets|
    requires offsets[start] < 0 && e.start < start == e.end - 1 && e.originalStart >= 0
    requires BoundaryOf(e, start) <= offsets[end - 1]
    ensures Separates(offsets, Range(start, end, BoundaryOf(e, start), offsets[end - 1] + 1)) <==>
            forall k :: e.start <= k < start ==> offsets[k] != e.originalEnd - 1
  {}

  /** The same at the other end. */
  lemma UnalignedEnd(offsets: seq<int>, e: Range, start: int, end: int)
    requires Increasing(offsets) && Separates(offsets, e) && !Lost(e) && 0 <= start < end <= |offsets|
    requires offsets[end - 1] < 0 && e.start == end - 1 && end < e.end && e.originalStart >= 0
    requires 0 <= offsets[start] <= BoundaryOf(e, end - 1)
    ensures Separates(offsets, Range(start, end, offsets[start], BoundaryOf(e, end - 1) + 1)) <==>
            forall k :: end <= k < e.end ==> offsets[k] != e.originalStart
  {}

  /** With the second byte of a range `ab` wrapped to `ab)` still in place, an expression
      `)c` that begins with the inserted byte does not separate the map. */
  lemma UnalignedMixes()
    ensures var offsets, e := [0, 1, -1, 2], Range(0, 3, 0, 2);
            && Increasing(offsets) && Separates(offsets, e) && FirstTouching([e], 2) == 0
            && !Separates(offsets, Range(2, 4, BoundaryOf(e, 2), offsets[3] + 1))
  {
    var offsets, e := [0, 1, -1, 2], Range(0, 3, 0, 2);
    assert Separates(offsets, e);
    UnalignedStart(offsets, e, 2, 4);
    assert offsets[1] == e.originalEnd - 1;
  }
}
