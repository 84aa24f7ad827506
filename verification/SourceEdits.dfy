/** Lists of edits and where they move the bytes of a source
    (internal/compiler/coverage_source.go). */
module SourceEdits {
  import opened Options

  type Byte = b: int | 0 <= b < 256

  /** Replaces [start, end) by `text`. */
  datatype Edit = Edit(start: int, end: int, text: seq<Byte>)

  /** Disjoint edits in source order, between `from` and the end `n`. */
  predicate Sorted(edits: seq<Edit>, from: int, n: int)
    decreases |edits|
  {
    if edits == [] then 0 <= from <= n
    else 0 <= from <= edits[0].start <= edits[0].end && Sorted(edits[1..], edits[0].end, n)
  }

  /** No edit replaces the byte at `o`. */
  predicate Outside(edits: seq<Edit>, o: int)
    decreases |edits|
  {
    edits == [] || (!(edits[0].start <= o < edits[0].end) && Outside(edits[1..], o))
  }

  lemma {:induction false} SortedBounds(edits: seq<Edit>, from: int, n: int)
    requires Sorted(edits, from, n)
    ensures 0 <= from <= n
    decreases |edits|
  {
    if edits != [] { SortedBounds(edits[1..], edits[0].end, n); }
  }

  /** What remains of `s` from `prev` on, with the insertions of `ins`. */
  function Splice<T>(s: seq<T>, edits: seq<Edit>, prev: int, ins: Edit -> seq<T>): seq<T>
    requires Sorted(edits, prev, |s|)
    decreases |edits|
  {
    if edits == [] then s[prev..]
    else
      SortedBounds(edits[1..], edits[0].end, |s|);
      s[prev..edits[0].start] + ins(edits[0]) + Splice(s, edits[1..], edits[0].end, ins)
  }

  function Text(e: Edit): seq<Byte> {
    e.text
  }

  /** Inserted bytes come from nowhere. */
  function Nowhere(e: Edit): seq<int> {
    seq(|e.text|, _ => -1)
  }

  function Edited(s: seq<Byte>, edits: seq<Edit>): seq<Byte>
    requires Sorted(edits, 0, |s|)
  {
    Splice(s, edits, 0, Text)
  }

  function Origins(offsets: seq<int>, edits: seq<Edit>): seq<int>
    requires Sorted(edits, 0, |offsets|)
  {
    Splice(offsets, edits, 0, Nowhere)
  }

  function Grown(e: Edit): int {
    |e.text| - (e.end - e.start)
  }

  function Add(d: int, o: Option<int>): Option<int> {
    if o.None? then None else Some(d + o.value)
  }

  /** How far an offset moves; none if an edit cuts across it. `after` puts it
      behind what is inserted exactly there. */
  function Moved(o: int, edits: seq<Edit>, after: bool): Option<int>
    decreases |edits|
  {
    if edits == [] then Some(0)
    else
      var e := edits[0];
      if o < e.start then Some(0)
      else if e.start == e.end && o == e.start then Add(if after then |e.text| else 0, Moved(o, edits[1..], after))
      else if o == e.start then Some(0)
      else if o < e.end then None
      else Add(Grown(e), Moved(o, edits[1..], after))
  }

  function EditedOffset(o: int, edits: seq<Edit>, after: bool): int {
    var m := Moved(o, edits, after);
    if m.None? then -1 else o + m.value
  }

  // ----- order -----

  /** An offset behind `from` stays behind it. */
  lemma {:induction false} Lower(o: int, edits: seq<Edit>, after: bool, from: int, n: int)
    requires Sorted(edits, from, n) && from <= o && Moved(o, edits, after).Some?
    ensures from <= o + Moved(o, edits, after).value
    decreases |edits|
  {
    if edits != [] && edits[0].start <= o && (o >= edits[0].end) { Lower(o, edits[1..], after, edits[0].end, n); }
  }

  /** The move is monotone ... */
  lemma {:induction false} Monotone(a: int, b: int, edits: seq<Edit>, after: bool, from: int, n: int)
    requires Sorted(edits, from, n) && a <= b
    requires Moved(a, edits, after).Some? && Moved(b, edits, after).Some?
    ensures a + Moved(a, edits, after).value <= b + Moved(b, edits, after).value
    decreases |edits|
  {
    if edits != [] {
      var e := edits[0];
      if b >= e.end && b >= e.start && (b > e.start || e.start == e.end) { Lower(b, edits[1..], after, e.end, n); }
      if a >= e.end && (a > e.start || e.start == e.end) { Monotone(a, b, edits[1..], after, e.end, n); }
    }
  }

  /** ... strictly so from a byte that survives, wherever the other offset ends up
      among insertions made there. */
  lemma {:induction false} Strict(a: int, b: int, edits: seq<Edit>, after: bool, from: int, n: int)
    requires Sorted(edits, from, n) && a < b && Outside(edits, a)
    requires Moved(a, edits, true).Some? && Moved(b, edits, after).Some?
    ensures a + Moved(a, edits, true).value < b + Moved(b, edits, after).value
    decreases |edits|
  {
    if edits != [] {
      var e := edits[0];
      if b >= e.end && b >= e.start && (b > e.start || e.start == e.end) { Lower(b, edits[1..], after, e.end, n); }
      if a >= e.end { Strict(a, b, edits[1..], after, e.end, n); }
    }
  }

  lemma {:induction false} BeforeInsertion(o: int, edits: seq<Edit>, from: int, n: int)
    requires Sorted(edits, from, n) && Moved(o, edits, false).Some? && Moved(o, edits, true).Some?
    ensures Moved(o, edits, false).value <= Moved(o, edits, true).value
    decreases |edits|
  {
    if edits != [] && o >= edits[0].end && (o > edits[0].start || edits[0].start == edits[0].end) {
      BeforeInsertion(o, edits[1..], edits[0].end, n);
    }
  }

  /** Whether an edit cuts an offset does not depend on the side. */
  lemma {:induction false} CutEitherWay(o: int, edits: seq<Edit>, from: int, n: int)
    requires Sorted(edits, from, n)
    ensures Moved(o, edits, false).Some? <==> Moved(o, edits, true).Some?
    decreases |edits|
  {
    if edits != [] { CutEitherWay(o, edits[1..], edits[0].end, n); }
  }

  /** An offset has no new place exactly when an edit replaces text on both sides of it. */
  lemma {:induction false} CutExact(o: int, edits: seq<Edit>, after: bool, from: int, n: int)
    requires Sorted(edits, from, n)
    ensures Moved(o, edits, after).None? <==> exists i :: 0 <= i < |edits| && edits[i].start < o < edits[i].end
    decreases |edits|
  {
    if edits != [] {
      var e := edits[0];
      CutExact(o, edits[1..], after, e.end, n);
      if exists i :: 0 <= i < |edits[1..]| && edits[1..][i].start < o < edits[1..][i].end {
        var i :| 0 <= i < |edits[1..]| && edits[1..][i].start < o < edits[1..][i].end;
        SortedFrom(edits[1..], e.end, n, i);
        assert edits[i + 1] == edits[1..][i];
      }
      if exists i :: 0 <= i < |edits| && edits[i].start < o < edits[i].end {
        var i :| 0 <= i < |edits| && edits[i].start < o < edits[i].end;
        if i > 0 {
          assert edits[1..][i - 1] == edits[i];
          SortedFrom(edits[1..], e.end, n, i - 1);
        }
      }
    }
  }

  lemma {:induction false} SortedFrom(edits: seq<Edit>, from: int, n: int, i: nat)
    requires Sorted(edits, from, n) && i < |edits|
    ensures from <= edits[i].start
    decreases i
  {
    if i > 0 { SortedFrom(edits[1..], edits[0].end, n, i - 1); }
  }

  // ----- the two computations agree -----

  /** A surviving byte lands exactly where its offset moves to. */
  lemma {:induction false} Placed<T>(s: seq<T>, edits: seq<Edit>, prev: int, ins: Edit -> seq<T>, o: int)
    requires Sorted(edits, prev, |s|) && prev <= o < |s| && Outside(edits, o)
    requires forall e :: |ins(e)| == |e.text|
    ensures Moved(o, edits, true).Some?
    ensures var k := o - prev + Moved(o, edits, true).value;
            0 <= k < |Splice(s, edits, prev, ins)| && Splice(s, edits, prev, ins)[k] == s[o]
    decreases |edits|
  {
    if edits != [] {
      var e := edits[0];
      SortedBounds(edits[1..], e.end, |s|);
      var head := s[prev..e.start] + ins(e);
      var rest := Splice(s, edits[1..], e.end, ins);
      assert Splice(s, edits, prev, ins) == head + rest;
      if o < e.start {
        assert Moved(o, edits, true) == Some(0);
        assert head[o - prev] == s[prev..e.start][o - prev];
      } else {
        assert o >= e.end && Outside(edits[1..], o);
        Placed(s, edits[1..], e.end, ins, o);
        assert Moved(o, edits, true) == Add(Grown(e), Moved(o, edits[1..], true));
        var k := o - e.end + Moved(o, edits[1..], true).value;
        assert (head + rest)[|head| + k] == rest[k];
      }
    }
  }

  /** Where byte `k` of a splice comes from: a surviving byte, or an insertion. */
  function ComesFrom(edits: seq<Edit>, prev: int, n: int, k: int): Option<int>
    requires Sorted(edits, prev, n)
    decreases |edits|
  {
    if edits == [] then Some(prev + k)
    else
      var e := edits[0];
      if k < e.start - prev then Some(prev + k)
      else if k < e.start - prev + |e.text| then None
      else ComesFrom(edits[1..], e.end, n, k - (e.start - prev) - |e.text|)
  }

  lemma {:induction false} NotCut(edits: seq<Edit>, from: int, n: int, o: int)
    requires Sorted(edits, from, n) && o < from
    ensures Outside(edits, o) && Moved(o, edits, true) == Some(0)
    decreases |edits|
  {
    if edits != [] { NotCut(edits[1..], edits[0].end, n, o); }
  }

  /** Every byte of the result is a surviving byte, at its moved offset, or inserted. */
  lemma {:induction false} Covered<T>(s: seq<T>, edits: seq<Edit>, prev: int, ins: Edit -> seq<T>, k: int)
    requires Sorted(edits, prev, |s|) && (forall e :: |ins(e)| == |e.text|)
    requires 0 <= k < |Splice(s, edits, prev, ins)|
    ensures var c := ComesFrom(edits, prev, |s|, k);
            if c.None? then exists e :: e in edits && Splice(s, edits, prev, ins)[k] in ins(e)
            else && prev <= c.value < |s| && Outside(edits, c.value)
                 && Moved(c.value, edits, true) == Some(k - (c.value - prev))
    decreases |edits|
  {
    if edits != [] {
      var e := edits[0];
      SortedBounds(edits[1..], e.end, |s|);
      var head := s[prev..e.start];
      var rest := Splice(s, edits[1..], e.end, ins);
      var all := head + ins(e) + rest;
      assert Splice(s, edits, prev, ins) == all;
      if k < |head| {
        NotCut(edits[1..], e.end, |s|, prev + k);
      } else if k < |head| + |e.text| {
        assert all[k] == ins(e)[k - |head|];
        assert e in edits;
      } else {
        var i := k - |head| - |e.text|;
        assert all[k] == rest[i];
        Covered(s, edits[1..], e.end, ins, i);
        var c := ComesFrom(edits[1..], e.end, |s|, i);
        if c.None? {
          var x :| x in edits[1..] && rest[i] in ins(x);
          assert x in edits;
        }
      }
    }
  }

  // ----- wrappers -----

  /** Offset in the result of the text that edit `i` inserts. */
  function TextAt(edits: seq<Edit>, i: nat): int
    requires i < |edits|
    decreases i
  {
    if i == 0 then edits[0].start else Grown(edits[0]) + TextAt(edits[1..], i - 1)
  }

  lemma {:induction false} TextLower(edits: seq<Edit>, i: nat, from: int, n: int)
    requires Sorted(edits, from, n) && i < |edits|
    ensures from <= TextAt(edits, i)
    decreases i
  {
    if i > 0 { TextLower(edits[1..], i - 1, edits[0].end, n); }
  }

  lemma {:induction false} StaysPut(o: int, edits: seq<Edit>, from: int, n: int)
    requires Sorted(edits, from, n) && o <= from
    ensures Moved(o, edits, false) == Some(0)
    decreases |edits|
  {
    if edits != [] && o == edits[0].end { StaysPut(o, edits[1..], edits[0].end, n); }
  }

  /** A range recorded around edits covers everything they insert, at its ends too. */
  lemma {:induction false} WrapperCovered(start: int, end: int, edits: seq<Edit>, i: nat, from: int, n: int)
    requires Sorted(edits, from, n) && i < |edits| && start <= edits[i].start && edits[i].end <= end
    requires Moved(start, edits, false).Some? && Moved(end, edits, true).Some?
    ensures EditedOffset(start, edits, false) <= TextAt(edits, i)
    ensures TextAt(edits, i) + |edits[i].text| <= EditedOffset(end, edits, true)
    decreases i
  {
    var e := edits[0];
    if i == 0 {
      if start == e.start { StaysPut(start, edits[1..], e.end, n); }
      Lower(end, edits[1..], true, e.end, n);
    } else {
      Later(edits, i, from, n);
      TextLower(edits[1..], i - 1, e.end, n);
      if start < e.end || (start == e.start && e.start < e.end) {
        StartSide(start, end, edits, i, from, n);
      } else {
        WrapperCovered(start, end, edits[1..], i - 1, e.end, n);
      }
    }
  }

  lemma {:induction false} Later(edits: seq<Edit>, i: nat, from: int, n: int)
    requires Sorted(edits, from, n) && 0 < i < |edits|
    ensures edits[0].end <= edits[i].start <= edits[i].end
    decreases i
  {
    if i > 1 { Later(edits[1..], i - 1, edits[0].end, n); }
  }

  /** The end side alone: everything inserted up to `end` lies before it. */
  lemma {:induction false} EndSide(end: int, edits: seq<Edit>, i: nat, from: int, n: int)
    requires Sorted(edits, from, n) && i < |edits| && edits[i].end <= end && Moved(end, edits, true).Some?
    ensures TextAt(edits, i) + |edits[i].text| <= EditedOffset(end, edits, true)
    decreases i
  {
    var e := edits[0];
    if i == 0 { Lower(end, edits[1..], true, e.end, n); }
    else {
      Later(edits, i, from, n);
      EndSide(end, edits[1..], i - 1, e.end, n);
    }
  }

  lemma StartSide(start: int, end: int, edits: seq<Edit>, i: nat, from: int, n: int)
    requires Sorted(edits, from, n) && 0 < i < |edits| && edits[i].end <= end && start <= edits[0].start
    requires Moved(start, edits, false).Some? && Moved(end, edits, true).Some?
    ensures EditedOffset(start, edits, false) <= TextAt(edits, i)
    ensures TextAt(edits, i) + |edits[i].text| <= EditedOffset(end, edits, true)
  {
    var e := edits[0];
    TextLower(edits[1..], i - 1, e.end, n);
    if start == e.start { StaysPut(start, edits[1..], e.end, n); }
    EndSide(end, edits, i, from, n);
  }

  /** Everything inserted from `o` on lies behind it. */
  lemma {:induction false} AheadSide(o: int, edits: seq<Edit>, i: nat, from: int, n: int)
    requires Sorted(edits, from, n) && i < |edits| && o <= edits[i].start && Moved(o, edits, false).Some?
    ensures EditedOffset(o, edits, false) <= TextAt(edits, i)
    decreases i
  {
    var e := edits[0];
    if i > 0 { TextLower(edits[1..], i - 1, e.end, n); }
    if o == e.start == e.end { StaysPut(o, edits[1..], e.end, n); }
    else if o >= e.end && o > e.start && i > 0 { AheadSide(o, edits[1..], i - 1, e.end, n); }
  }
}
