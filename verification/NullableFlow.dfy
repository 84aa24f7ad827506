/** The narrowing pass as the compiler runs it: proofs are mutable maps that
    statements share and delete from, while conditions and branches work on
    copies (internal/compiler/nullable_flow.go). Every method is proved equal to
    the functions of `Nullable`, on which soundness is proved. */
module NullableFlow {
  import opened Options
  import opened Spec = Nullable
  import opened NullSound

  class Proof {
    var known: set<Obj>

    constructor (known: set<Obj>)
      ensures this.known == known
    {
      this.known := known;
    }

    method Delete(xs: set<Obj>)
      modifies this
      ensures known == old(known) - xs
    {
      known := known - xs;
    }

    method Clone() returns (copy: Proof)
      ensures fresh(copy) && copy.known == known
    {
      copy := new Proof(known);
    }
  }

  predicate OneDefault(cs: Clauses) {
    cs.Clause? ==> if cs.isDefault then NoDefault(cs.rest) else OneDefault(cs.rest)
  }

  predicate NoDefault(cs: Clauses) {
    cs.Clause? ==> !cs.isDefault && NoDefault(cs.rest)
  }

  /** Go allows one default clause in a switch. */
  predicate Legal(s: Stmt)
    decreases s
  {
    match s
    case Scope(body) => LegalBlock(body)
    case If(_, thn, els) => LegalBlock(thn) && LegalElse(els)
    case For(_, post, body) => LegalBlock(post) && LegalBlock(body)
    case Range(_, _, body) => LegalBlock(body)
    case Switch(_, clauses) => OneDefault(clauses) && LegalClauses(clauses)
    case Labeled(_, inner) => Legal(inner)
    case _ => true
  }

  predicate LegalBlock(b: Block)
    decreases b
  {
    match b
    case Nil => true
    case Cons(h, rest) => Legal(h) && LegalBlock(rest)
  }

  predicate LegalElse(e: Else)
    decreases e
  {
    match e
    case NoElse => true
    case ElseDo(b) => LegalBlock(b)
    case ElseIf(s) => Legal(s)
  }

  predicate LegalClauses(cs: Clauses)
    decreases cs
  {
    match cs
    case NoClauses => true
    case Clause(_, _, body, rest) => LegalBlock(body) && LegalClauses(rest)
  }

  /** The narrowed guards and the entry proofs of all clauses, in order. */
  function AllGuards(t: set<Obj>, tagless: bool, cs: Clauses, rem: set<Obj>): seq<Exprs>
    decreases cs
  {
    if cs.NoClauses? then []
    else [if cs.isDefault then cs.guards else NarrowGuards(t, tagless, cs.guards, rem)]
         + AllGuards(t, tagless, cs.rest, NextRemaining(t, tagless, cs, rem))
  }

  function EntryProofs(t: set<Obj>, tagless: bool, cs: Clauses, rem: set<Obj>, failed: set<Obj>): seq<set<Obj>>
    decreases cs
  {
    if cs.NoClauses? then []
    else [Incoming(t, tagless, cs, rem, failed, false)]
         + EntryProofs(t, tagless, cs.rest, NextRemaining(t, tagless, cs, rem), failed)
  }

  lemma {:induction false} AsManyAsClauses(t: set<Obj>, tagless: bool, cs: Clauses, rem: set<Obj>, failed: set<Obj>)
    ensures |AllGuards(t, tagless, cs, rem)| == |EntryProofs(t, tagless, cs, rem, failed)| == Length(cs)
    decreases cs
  {
    if cs.Clause? { AsManyAsClauses(t, tagless, cs.rest, NextRemaining(t, tagless, cs, rem), failed); }
  }

  lemma OneClause(t: set<Obj>, tagless: bool, cs: Clauses, rem: set<Obj>, failed: set<Obj>, guards: seq<Exprs>,
                  proofs: seq<set<Obj>>)
    requires cs.Clause?
    ensures var next := NextRemaining(t, tagless, cs, rem);
            && guards + AllGuards(t, tagless, cs, rem)
               == guards + [if cs.isDefault then cs.guards else NarrowGuards(t, tagless, cs.guards, rem)]
                  + AllGuards(t, tagless, cs.rest, next)
            && proofs + EntryProofs(t, tagless, cs, rem, failed)
               == proofs + [Incoming(t, tagless, cs, rem, failed, false)] + EntryProofs(t, tagless, cs.rest,
                   next, failed)
  {
    Between(guards, if cs.isDefault then cs.guards else NarrowGuards(t, tagless, cs.guards, rem),
            AllGuards(t, tagless, cs.rest, NextRemaining(t, tagless, cs, rem)));
    Between(proofs, Incoming(t, tagless, cs, rem, failed, false),
            EntryProofs(t, tagless, cs.rest, NextRemaining(t, tagless, cs, rem), failed));
  }

  lemma Between<T>(before: seq<T>, x: T, behind: seq<T>)
    ensures before + ([x] + behind) == before + [x] + behind
  {}

  class Flow {
    const tracked: set<Obj>

    constructor (tracked: set<Obj>)
      ensures this.tracked == tracked
    {
      this.tracked := tracked;
    }

    /** What a condition tells, on a copy of the proof. */
    method Suppose(e: Expr, truth: bool, proof: Proof) returns (result: Proof)
      ensures fresh(result) && result.known == Assume(tracked, e, truth, proof.known)
      decreases e
    {
      result := proof.Clone();
      match e {
        case Paren(i) => result := Suppose(i, truth, proof);
        case Not(i) => result := Suppose(i, !truth, proof);
        case And(l, r) =>
          if truth {
            var left := Suppose(l, true, proof);
            result := Suppose(r, true, left);
          }
        case Or(l, r) =>
          if !truth {
            var left := Suppose(l, false, proof);
            result := Suppose(r, false, left);
          }
        case Equal(l, r, negated) =>
          var candidate, other := l, r;
          if l.NilLit? { candidate, other := r, l; }
          if other.NilLit? && candidate.Var? && candidate.x in tracked {
            if truth == negated { result.known := result.known + {candidate.x}; }
            else { result.Delete({candidate.x}); }
          }
        case _ =>
      }
    }

    method SupposeTest(e: Option<Expr>, proof: Proof) returns (result: Proof)
      ensures fresh(result) && result.known == AssumeAll(tracked, e, true, proof.known)
    {
      if e.Some? { result := Suppose(e.value, true, proof); } else { result := proof.Clone(); }
    }

    /** Deletes, in place, every variable some statement inside names. */
    method InvalidateWrites(s: Stmt, proof: Proof)
      modifies proof
      ensures proof.known == old(proof.known) - Writes(s)
      decreases s
    {
      match s {
        case Assign(lhs, _) => proof.Delete(AllNamed(lhs));
        case Scope(body) => InvalidateBlock(body, proof);
        case If(_, thn, els) =>
          InvalidateBlock(thn, proof);
          match els {
            case NoElse =>
            case ElseDo(b) => InvalidateBlock(b, proof);
            case ElseIf(i) => InvalidateWrites(i, proof);
          }
        case For(_, post, body) =>
          InvalidateBlock(post, proof);
          InvalidateBlock(body, proof);
        case Range(targets, _, body) =>
          proof.Delete(AllNamed(targets));
          InvalidateBlock(body, proof);
        case Switch(_, clauses) => InvalidateClauses(clauses, proof);
        case Labeled(_, inner) => InvalidateWrites(inner, proof);
        case _ =>
      }
    }

    method InvalidateBlock(b: Block, proof: Proof)
      modifies proof
      ensures proof.known == old(proof.known) - BlockWrites(b)
      decreases b
    {
      if b.Cons? {
        InvalidateWrites(b.head, proof);
        InvalidateBlock(b.tail, proof);
      }
    }

    method InvalidateClauses(cs: Clauses, proof: Proof)
      modifies proof
      ensures proof.known == old(proof.known) - ClausesWrites(cs)
      decreases cs
    {
      if cs.Clause? {
        InvalidateBlock(cs.body, proof);
        InvalidateClauses(cs.rest, proof);
      }
    }

    /** Targets from left to right, each deleted after it has been visited. */
    method Targets(lhs: Exprs, proof: Proof) returns (n: Exprs)
      modifies proof
      ensures n == NarrowTargets(tracked, lhs, old(proof.known)) && proof.known == old(proof.known) - AllNamed(lhs)
      decreases lhs
    {
      n := NoExprs;
      if lhs.More? {
        var head := NarrowExpr(tracked, lhs.head, proof.known);
        proof.Delete(Named(lhs.head));
        var tail := Targets(lhs.tail, proof);
        n := More(head, tail);
      }
    }

    method BlockOf(b: Block, proof: Proof) returns (n: Block, after: Proof)
      requires LegalBlock(b)
      modifies proof
      ensures NarrowedBlock(n, after.known) == NarrowBlock(tracked, b, old(proof.known))
      ensures after == proof || fresh(after)
      decreases b, 0
    {
      if b.Nil? { return Nil, proof; }
      var head, next := Statement(b.head, proof);
      var tail;
      tail, after := BlockOf(b.tail, next);
      n := Cons(head, tail);
    }

    method Statement(s: Stmt, proof: Proof) returns (n: Stmt, after: Proof)
      requires Legal(s)
      modifies proof
      ensures Narrowed(n, after.known) == NarrowStmt(tracked, s, old(proof.known))
      ensures after == proof || fresh(after)
      decreases s, 1
    {
      n, after := s, proof;
      match s {
        case Do(e) => n := Do(NarrowExpr(tracked, e, proof.known));
        case Throw(e) => n := Throw(NarrowExpr(tracked, e, proof.known));
        case Assign(lhs, rhs) =>
          var values := NarrowExprs(tracked, rhs, proof.known);
          var targets := Targets(lhs, proof);
          n := Assign(targets, values);
        case Declare(names, rhs) => n := Declare(names, NarrowExprs(tracked, rhs, proof.known));
        case Return(es) => n := Return(NarrowExprs(tracked, es, proof.known));
        case Scope(body) =>
          var b;
          b, after := BlockOf(body, proof);
          n := Scope(b);
        case If(_, _, _) => n, after := IfStatement(s, proof);
        case For(_, _, _) => n := ForStatement(s, proof);
        case Range(targets, over, body) =>
          var what := NarrowOver(tracked, over, proof.known);
          InvalidateWrites(s, proof);
          var copy := proof.Clone();
          var b, _ := BlockOf(body, copy);
          n := Range(targets, what, b);
        case Switch(tag, clauses) =>
          var what := if tag.Some? then Some(NarrowExpr(tracked, tag.value, proof.known)) else None;
          var cs := SwitchCases(tag.None?, clauses, proof);
          InvalidateWrites(s, proof);
          n := Switch(what, cs);
        case Labeled(l, inner) =>
          var empty := new Proof({});
          var i;
          i, after := Statement(inner, empty);
          n := Labeled(l, i);
        case _ =>
      }
    }

    method IfStatement(s: Stmt, proof: Proof) returns (n: Stmt, after: Proof)
      requires s.If? && Legal(s)
      modifies proof
      ensures Narrowed(n, after.known) == NarrowIf(tracked, s, old(proof.known))
      ensures fresh(after)
      decreases s, 0
    {
      var cond := NarrowExpr(tracked, s.cond, proof.known);
      var t := Suppose(cond, true, proof);
      var f := Suppose(cond, false, proof);
      var thn, yes := BlockOf(s.thn, t);
      var els, no := ElseOf(s.els, f);
      n := If(cond, thn, els);
      if BlockTerminates(s.thn) { after := no; }
      else if s.els.ElseDo? && BlockTerminates(s.els.body) { after := yes; }
      else { after := new Proof(yes.known * no.known); }
    }

    method ElseOf(e: Else, proof: Proof) returns (n: Else, after: Proof)
      requires LegalElse(e)
      modifies proof
      ensures NarrowedElse(n, after.known) == NarrowElse(tracked, e, old(proof.known))
      ensures after == proof || fresh(after)
      decreases e, 0
    {
      n, after := NoElse, proof;
      match e {
        case NoElse =>
        case ElseDo(body) =>
          var b;
          b, after := BlockOf(body, proof);
          n := ElseDo(b);
        case ElseIf(s) =>
          var i;
          i, after := Statement(s, proof);
          n := ElseIf(i);
      }
    }

    method ForStatement(s: Stmt, proof: Proof) returns (n: Stmt)
      requires s.For? && Legal(s)
      modifies proof
      ensures Narrowed(n, proof.known) == NarrowFor(tracked, s, old(proof.known))
      decreases s, 0
    {
      InvalidateWrites(s, proof);
      var test := if s.test.Some? then Some(NarrowExpr(tracked, s.test.value, proof.known)) else None;
      var entry := SupposeTest(test, proof);
      var body, end := BlockOf(s.body, entry);
      var post, _ := BlockOf(s.post, end);
      n := For(test, post, body);
    }

    /** All conditions first, then all bodies. */
    method SwitchCases(tagless: bool, cs: Clauses, proof: Proof) returns (n: Clauses)
      requires OneDefault(cs) && LegalClauses(cs)
      ensures n == NarrowClauses(tracked, tagless, cs, proof.known, AllFailed(tracked, tagless, cs, proof.known), false)
      ensures proof.known == old(proof.known)
      decreases cs, 2
    {
      var guards, proofs := Conditions(tagless, cs, proof.known);
      AsManyAsClauses(tracked, tagless, cs, proof.known, AllFailed(tracked, tagless, cs, proof.known));
      n := Bodies(tagless, cs, guards, proofs, proof.known, AllFailed(tracked, tagless, cs, proof.known), false);
    }

    method Conditions(tagless: bool, cs: Clauses, proof: set<Obj>) returns (guards: seq<Exprs>, proofs: seq<set<Obj>>)
      requires OneDefault(cs)
      ensures guards == AllGuards(tracked, tagless, cs, proof)
      ensures proofs == EntryProofs(tracked, tagless, cs, proof, AllFailed(tracked, tagless, cs, proof))
    {
      guards, proofs := [], [];
      var remaining, list, default := proof, cs, -1;
      ghost var failed := AllFailed(tracked, tagless, cs, proof);
      ghost var full: seq<set<Obj>> := [];    // the proofs with the default clause's in place
      while list.Clause?
        invariant if default >= 0 then NoDefault(list) else OneDefault(list)
        invariant -1 <= default < |proofs|
        invariant AllFailed(tracked, tagless, list, remaining) == failed
        invariant guards + AllGuards(tracked, tagless, list, remaining) == AllGuards(tracked, tagless, cs, proof)
        invariant full == if default >= 0 then proofs[default := failed] else proofs
        invariant full + EntryProofs(tracked, tagless, list, remaining, failed) ==
                    EntryProofs(tracked, tagless, cs, proof, failed)
        decreases list
      {
        OneClause(tracked, tagless, list, remaining, failed, guards, full);
        full := full + [Incoming(tracked, tagless, list, remaining, failed, false)];
        if list.isDefault {
          default := |proofs|;
          guards, proofs := guards + [list.guards], proofs + [{}];
        } else {
          var narrowed, matched, rest := Guarded(tagless, list.guards, remaining);
          guards, proofs := guards + [narrowed], proofs + [matched];
          remaining := rest;
        }
        list := list.rest;
      }
      if default >= 0 { proofs := proofs[default := remaining]; }
    }

    /** The guards of one clause: each starts where the one before failed. */
    method Guarded(tagless: bool, guards: Exprs, remaining: set<Obj>)
      returns (narrowed: Exprs, matched: set<Obj>, rest: set<Obj>)
      ensures narrowed == NarrowGuards(tracked, tagless, guards, remaining)
      ensures matched == if guards.NoExprs? then {} else Matched(tracked, tagless, guards, remaining)
      ensures rest == GuardsFailed(tracked, tagless, guards, remaining)
      decreases guards
    {
      narrowed, matched, rest := NoExprs, {}, remaining;
      if guards.More? {
        var guard := NarrowExpr(tracked, guards.head, remaining);
        var branch, next := remaining, remaining;
        if tagless {
          branch := Assume(tracked, guard, true, remaining);
          next := Assume(tracked, guard, false, remaining);
        }
        var tail, others;
        tail, others, rest := Guarded(tagless, guards.tail, next);
        narrowed := More(guard, tail);
        matched := if guards.tail.NoExprs? then branch else branch * others;
      }
    }

    method Bodies(tagless: bool, cs: Clauses, guards: seq<Exprs>, proofs: seq<set<Obj>>, ghost rem: set<Obj>,
                  ghost failed: set<Obj>,
                  fallthroughPossible: bool) returns (n: Clauses)
      requires LegalClauses(cs)
      requires guards == AllGuards(tracked, tagless, cs, rem) && |guards| == Length(cs)
      requires proofs == EntryProofs(tracked, tagless, cs, rem, failed) && |proofs| == Length(cs)
      ensures n == NarrowClauses(tracked, tagless, cs, rem, failed, fallthroughPossible)
      decreases cs, 1
    {
      n := NoClauses;
      if cs.Clause? {
        var incoming := new Proof(if fallthroughPossible then {} else proofs[0]);
        var body, _ := BlockOf(cs.body, incoming);
        var rest := Bodies(tagless, cs.rest, guards[1..], proofs[1..], NextRemaining(tracked, tagless, cs, rem),
                           failed, BlockHasFall(cs.body));
        n := Clause(cs.isDefault, guards[0], body, rest);
      }
    }
  }
}
