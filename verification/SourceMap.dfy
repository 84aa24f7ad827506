/** What the source-origin map keeps through any sequence of edits
    (internal/compiler/coverage_source.go). */
module SourceMap {
  import opened Options
  import opened SourceEdits

  const NEWLINE: Byte := 10

  /** A recorded range of the current text and the original range it stands for;
      -1 marks an end that an edit has cut. */
  datatype Range = Range(start: int, end: int, originalStart: int, originalEnd: int)

  /** One entry per byte; an entry that is not -1 names an equal original byte, and
      such entries increase strictly. */
  ghost predicate Exact(original: seq<Byte>, offsets: seq<int>, text: seq<Byte>) {
    && |offsets| == |text|
    && (forall i :: 0 <= i < |offsets| ==> offsets[i] == -1 || 0 <= offsets[i] < |original|)
    && (forall i :: 0 <= i < |offsets| && offsets[i] >= 0 ==> original[offsets[i]] == text[i])
    && (forall i, j :: 0 <= i < j < |offsets| && offsets[i] >= 0 && offsets[j] >= 0 ==> offsets[i] < offsets[j])
  }

  function Identity(n: nat): seq<int> {
    seq(n, i => i)
  }

  lemma IdentityExact(text: seq<Byte>)
    ensures Exact(text, Identity(|text|), text)
  {}

  /** Edits keep the map exact. */
  lemma EditsKeepExact(original: seq<Byte>, offsets: seq<int>, text: seq<Byte>, edits: seq<Edit>)
    requires Exact(original, offsets, text) && Sorted(edits, 0, |text|)
    ensures Exact(original, Origins(offsets, edits), Edited(text, edits))
  {
    var next, out := Origins(offsets, edits), Edited(text, edits);
    SameLength(offsets, text, edits, 0);
    forall k | 0 <= k < |next|
      ensures next[k] == -1 || (0 <= next[k] < |original| && original[next[k]] == out[k])
    { OneOrigin(original, offsets, text, edits, k); }
    forall i, j | 0 <= i < j < |next| && next[i] >= 0 && next[j] >= 0 ensures next[i] < next[j] {
      InOrder(original, offsets, text, edits, i, j);
    }
  }

  /** An entry with an origin is that of a byte outside the edits. */
  lemma Survives(original: seq<Byte>, offsets: seq<int>, text: seq<Byte>, edits: seq<Edit>, i: int) returns (o: int)
    requires Exact(original, offsets, text) && Sorted(edits, 0, |text|)
    requires 0 <= i < |Origins(offsets, edits)| && Origins(offsets, edits)[i] >= 0
    ensures 0 <= o < |text| && Outside(edits, o) && Origins(offsets, edits)[i] == offsets[o]
    ensures Moved(o, edits, true) == Some(i - o)
  {
    Covered(offsets, edits, 0, Nowhere, i);
    o := ComesFrom(edits, 0, |text|, i).value;
    Placed(offsets, edits, 0, Nowhere, o);
  }

  lemma InOrder(original: seq<Byte>, offsets: seq<int>, text: seq<Byte>, edits: seq<Edit>, i: int, j: int)
    requires Exact(original, offsets, text) && Sorted(edits, 0, |text|)
    requires 0 <= i < j < |Origins(offsets, edits)| && Origins(offsets, edits)[i] >= 0
             && Origins(offsets, edits)[j] >= 0
    ensures Origins(offsets, edits)[i] < Origins(offsets, edits)[j]
  {
    var a := Survives(original, offsets, text, edits, i);
    var b := Survives(original, offsets, text, edits, j);
    if b < a { Strict(b, a, edits, true, 0, |text|); }
  }

  lemma {:induction false} SameLength(offsets: seq<int>, text: seq<Byte>, edits: seq<Edit>, prev: int)
    requires |offsets| == |text| && Sorted(edits, prev, |text|)
    ensures |Splice(offsets, edits, prev, Nowhere)| == |Splice(text, edits, prev, Text)|
    decreases |edits|
  {
    if edits != [] {
      SortedBounds(edits[1..], edits[0].end, |text|);
      SameLength(offsets, text, edits[1..], edits[0].end);
    }
  }

  lemma OneOrigin(original: seq<Byte>, offsets: seq<int>, text: seq<Byte>, edits: seq<Edit>, k: int)
    requires Exact(original, offsets, text) && Sorted(edits, 0, |text|)
    requires 0 <= k < |Origins(offsets, edits)| == |Edited(text, edits)|
    ensures var o := Origins(offsets, edits)[k];
            o == -1 || (0 <= o < |original| && original[o] == Edited(text, edits)[k])
  {
    Covered(offsets, edits, 0, Nowhere, k);
    var c := ComesFrom(edits, 0, |text|, k);
    if c.Some? {
      Placed(offsets, edits, 0, Nowhere, c.value);
      Placed(text, edits, 0, Text, c.value);
    }
  }

  /** For every byte outside all edits the map puts its origin exactly where the
      offset computation moves it; all other entries have no origin. */
  lemma OffsetsAgree(offsets: seq<int>, edits: seq<Edit>)
    requires Sorted(edits, 0, |offsets|)
    ensures forall o :: 0 <= o < |offsets| && Outside(edits, o) ==>
              var k := EditedOffset(o, edits, true);
              0 <= k < |Origins(offsets, edits)| && Origins(offsets, edits)[k] == offsets[o]
    ensures forall k :: 0 <= k < |Origins(offsets, edits)| ==>
              || Origins(offsets, edits)[k] == -1
              || exists o :: 0 <= o < |offsets| && Outside(edits, o) && EditedOffset(o, edits, true) == k
  {
    forall o | 0 <= o < |offsets| && Outside(edits, o)
      ensures var k := EditedOffset(o, edits, true);
              0 <= k < |Origins(offsets, edits)| && Origins(offsets, edits)[k] == offsets[o]
    { Placed(offsets, edits, 0, Nowhere, o); }
    forall k | 0 <= k < |Origins(offsets, edits)| && Origins(offsets, edits)[k] != -1
      ensures exists o :: 0 <= o < |offsets| && Outside(edits, o) && EditedOffset(o, edits, true) == k
    {
      Covered(offsets, edits, 0, Nowhere, k);
      assert EditedOffset(ComesFrom(edits, 0, |offsets|, k).value, edits, true) == k;
    }
  }

  // ----- any sequence of edits -----

  predicate AllSorted(text: seq<Byte>, lists: seq<seq<Edit>>)
    decreases |lists|
  {
    lists == [] || (Sorted(lists[0], 0, |text|) && AllSorted(Edited(text, lists[0]), lists[1..]))
  }

  function EditedAll(text: seq<Byte>, lists: seq<seq<Edit>>): seq<Byte>
    requires AllSorted(text, lists)
    decreases |lists|
  {
    if lists == [] then text else EditedAll(Edited(text, lists[0]), lists[1..])
  }

  /** The map after all edits, each applied to what the ones before left. */
  function OriginsAll(text: seq<Byte>, offsets: seq<int>, lists: seq<seq<Edit>>): seq<int>
    requires AllSorted(text, lists) && |offsets| == |text|
    decreases |lists|
  {
    if lists == [] then offsets
    else
      SameLength(offsets, text, lists[0], 0);
      OriginsAll(Edited(text, lists[0]), Origins(offsets, lists[0]), lists[1..])
  }

  lemma {:induction false} AlwaysExact(original: seq<Byte>, offsets: seq<int>, text: seq<Byte>, lists: seq<seq<Edit>>)
    requires Exact(original, offsets, text) && AllSorted(text, lists)
    ensures Exact(original, OriginsAll(text, offsets, lists), EditedAll(text, lists))
    decreases |lists|
  {
    if lists != [] {
      EditsKeepExact(original, offsets, text, lists[0]);
      AlwaysExact(original, Origins(offsets, lists[0]), Edited(text, lists[0]), lists[1..]);
    }
  }

  /** From any source, through any edits, the map is exact for that source. */
  lemma MapAlwaysExact(source: seq<Byte>, lists: seq<seq<Edit>>)
    requires AllSorted(source, lists)
    ensures Exact(source, OriginsAll(source, Identity(|source|), lists), EditedAll(source, lists))
  {
    IdentityExact(source);
    AlwaysExact(source, Identity(|source|), source, lists);
  }

  // ----- expression ranges -----

  /** An edit has cut an end of the range or removed all of it. */
  predicate Lost(r: Range) {
    r.start < 0 || r.end < 0 || r.start >= r.end
  }

  /** What stands inside the range comes from inside the original range, what
      stands before it from before, what stands behind it from behind. */
  ghost predicate Separates(offsets: seq<int>, r: Range) {
    || Lost(r)
    || (&& r.end <= |offsets| && r.originalStart < r.originalEnd
        && (forall i :: 0 <= i < r.start && offsets[i] >= 0 ==> offsets[i] < r.originalStart)
        && (forall i :: r.start <= i < r.end && offsets[i] >= 0 ==> r.originalStart <= offsets[i] < r.originalEnd)
        && (forall i :: r.end <= i < |offsets| && offsets[i] >= 0 ==> r.originalEnd <= offsets[i]))
  }

  /** A range after edits, with what they insert exactly at an end kept behind it
      or not. */
  function Shifted(r: Range, edits: seq<Edit>, afterStart: bool, afterEnd: bool): Range {
    r.(start := EditedOffset(r.start, edits, afterStart), end := EditedOffset(r.end, edits, afterEnd))
  }

  /** Later edits leave what they insert at the ends outside the range ... */
  function MovedRange(r: Range, edits: seq<Edit>): Range {
    Shifted(r, edits, true, false)
  }

  /** ... while the edits around which it is recorded go inside. */
  function Wrapped(r: Range, edits: seq<Edit>): Range {
    Shifted(r, edits, false, true)
  }

  lemma LostStays(r: Range, edits: seq<Edit>, n: int)
    requires Sorted(edits, 0, n) && Lost(r)
    ensures Lost(MovedRange(r, edits))
  {
    var m := MovedRange(r, edits);
    if 0 <= r.end <= r.start && m.start >= 0 && m.end >= 0 {
      CutEitherWay(r.end, edits, 0, n);
      Monotone(r.end, r.start, edits, true, 0, n);
      BeforeInsertion(r.end, edits, 0, n);
    }
  }

  /** A range keeps its meaning as long as edits do not cut its ends or remove it. */
  lemma RangeKept(offsets: seq<int>, r: Range, edits: seq<Edit>, afterStart: bool, afterEnd: bool)
    requires Sorted(edits, 0, |offsets|) && Separates(offsets, r) && (Lost(r) ==> afterStart && !afterEnd)
    ensures Separates(Origins(offsets, edits), Shifted(r, edits, afterStart, afterEnd))
  {
    var m, next, n := Shifted(r, edits, afterStart, afterEnd), Origins(offsets, edits), |offsets|;
    if Lost(r) { LostStays(r, edits, n); }
    else if !Lost(m) {
      EndInside(offsets, edits, r.end, afterEnd);
      forall k | 0 <= k < |next| && next[k] >= 0
        ensures k < m.start ==> next[k] < r.originalStart
        ensures m.start <= k < m.end ==> r.originalStart <= next[k] < r.originalEnd
        ensures m.end <= k ==> r.originalEnd <= next[k]
      {
        Covered(offsets, edits, 0, Nowhere, k);
        var o := ComesFrom(edits, 0, n, k).value;
        Placed(offsets, edits, 0, Nowhere, o);
        SideKept(o, r.start, edits, afterStart, n);
        SideKept(o, r.end, edits, afterEnd, n);
      }
    }
  }

  /** It is not lost as long as no edit cuts its ends and some byte in it survives. */
  lemma RangeStays(r: Range, edits: seq<Edit>, o: int, n: int, afterStart: bool, afterEnd: bool)
    requires Sorted(edits, 0, n) && 0 <= r.start <= o < r.end <= n && Outside(edits, o)
    requires forall i :: 0 <= i < |edits| ==>
               !(edits[i].start < r.start < edits[i].end) && !(edits[i].start < r.end < edits[i].end)
    ensures !Lost(Shifted(r, edits, afterStart, afterEnd))
  {
    CutExact(r.start, edits, true, 0, n);
    CutExact(r.start, edits, afterStart, 0, n);
    CutExact(r.end, edits, afterEnd, 0, n);
    CutExact(o, edits, true, 0, n);
    NotInside(edits, o);
    Monotone(r.start, o, edits, true, 0, n);
    CutEitherWay(r.start, edits, 0, n);
    BeforeInsertion(r.start, edits, 0, n);
    Strict(o, r.end, edits, afterEnd, 0, n);
    Lower(r.start, edits, afterStart, 0, n);
  }

  lemma {:induction false} NotInside(edits: seq<Edit>, o: int)
    requires Outside(edits, o)
    ensures forall i :: 0 <= i < |edits| ==> !(edits[i].start <= o < edits[i].end)
    decreases |edits|
  {
    if edits != [] {
      NotInside(edits[1..], o);
      assert forall i :: 0 < i < |edits| ==> edits[i] == edits[1..][i - 1];
    }
  }

  /** A surviving byte stays on its side of a moved boundary. */
  lemma SideKept(o: int, b: int, edits: seq<Edit>, after: bool, n: int)
    requires Sorted(edits, 0, n) && 0 <= o < n && Outside(edits, o) && Moved(o, edits, true).Some?
             && Moved(b, edits, after).Some?
    ensures o < b <==> EditedOffset(o, edits, true) < EditedOffset(b, edits, after)
  {
    if o < b { Strict(o, b, edits, after, 0, n); }
    else {
      CutEitherWay(b, edits, 0, n);
      Monotone(b, o, edits, true, 0, n);
      BeforeInsertion(b, edits, 0, n);
    }
  }

  lemma {:induction false} SpliceBound<T>(s: seq<T>, edits: seq<Edit>, prev: int, ins: Edit -> seq<T>, o: int,
                                          after: bool)
    requires Sorted(edits, prev, |s|) && prev <= o <= |s| && Moved(o, edits, after).Some?
    requires forall e :: |ins(e)| == |e.text|
    ensures o - prev + Moved(o, edits, after).value <= |Splice(s, edits, prev, ins)|
    decreases |edits|
  {
    if edits != [] {
      SortedBounds(edits[1..], edits[0].end, |s|);
      if o >= edits[0].end { SpliceBound(s, edits[1..], edits[0].end, ins, o, after); }
    }
  }

  lemma EndInside(offsets: seq<int>, edits: seq<Edit>, end: int, after: bool)
    requires Sorted(edits, 0, |offsets|) && 0 <= end <= |offsets| && Moved(end, edits, after).Some?
    ensures EditedOffset(end, edits, after) <= |Origins(offsets, edits)|
  {
    SpliceBound(offsets, edits, 0, Nowhere, end, after);
  }

  /** What an edit puts before a range or behind it, exactly at an end of it too,
      stays outside the moved range. */
  lemma InsertedOutside(r: Range, edits: seq<Edit>, i: nat, n: int)
    requires Sorted(edits, 0, n) && i < |edits| && !Lost(MovedRange(r, edits))
    ensures edits[i].end <= r.start ==> TextAt(edits, i) + |edits[i].text| <= MovedRange(r, edits).start
    ensures r.end <= edits[i].start ==> MovedRange(r, edits).end <= TextAt(edits, i)
  {
    if edits[i].end <= r.start && Moved(r.start, edits, true).Some? { EndSide(r.start, edits, i, 0, n); }
    if r.end <= edits[i].start && Moved(r.end, edits, false).Some? { AheadSide(r.end, edits, i, 0, n); }
  }

  predicate Within(a: Range, b: Range) {
    b.start <= a.start && a.end <= b.end
  }

  /** Nested ranges stay nested, unless an edit cuts an end of one of them. */
  lemma NestedStay(a: Range, b: Range, edits: seq<Edit>, n: int)
    requires Sorted(edits, 0, n) && Within(a, b) && !Lost(MovedRange(a, edits)) && !Lost(MovedRange(b, edits))
    requires 0 <= b.start <= a.start && 0 <= a.end <= b.end
    ensures Within(MovedRange(a, edits), MovedRange(b, edits))
  {
    Monotone(b.start, a.start, edits, true, 0, n);
    Monotone(a.end, b.end, edits, false, 0, n);
  }
}
