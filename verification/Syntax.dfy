/** Statements of a Ghi function body after parsing, together with the runtime
    forms that control-flow lowering introduces. A source program uses only the
    first group; generated code uses all of them except `Try`. */
module Syntax {
  type Name = string
  type Val = int

  /** Expressions are opaque: what matters is which fields of `this` and which
      local variables they mention. The last three forms stand for the actions
      the machine performs on behalf of a statement. */
  datatype Expr =
    | True
    | Atom(id: int, fields: set<Name>, vars: set<Name>)
    | Put(at: Expr, value: Val)   // the store half of an assignment to an indexed target
    | Next(over: Expr)            // one turn of a range clause
    | Call(callback: Val)         // a deferred callback

  function Fields(e: Expr): set<Name> {
    if e.Atom? then e.fields else {}
  }

  function Vars(e: Expr): set<Name> {
    if e.Atom? then e.vars else {}
  }

  /** Assignment targets: a local variable, a field of `this`, or any other
      addressable expression, whose operands are evaluated first. */
  datatype Lhs = Var(x: Name) | Field(f: Name) | At(e: Expr)

  datatype Cond = Always | When(e: Expr)

  datatype Stmt =
    // Source forms
    | Eval(e: Expr)
    | Parent(e: Expr)
    | Throw(e: Expr)
    | Panic(e: Expr)
    | Assign(lhs: seq<Lhs>, rhs: seq<Expr>)
    | Declare(names: seq<Name>, rhs: seq<Expr>)
    | Return(es: seq<Expr>)
    | Break(to: Name)
    | Continue(to: Name)
    | Fallthrough
    | Scope(body: Block)
    | If(init: Block, test: Expr, thn: Block, els: Block)
    | For(init: Block, cond: Cond, post: Block, body: Block)
    | Range(names: seq<Name>, lhs: seq<Lhs>, over: Expr, body: Block)
    | Switch(init: Block, tag: Cond, clauses: Clauses)
    | Labeled(lab: Name, stmt: Stmt)
    | Defer(e: Expr)
    | Try(body: Block, handler: Closure, finalizer: Closure)
    // Runtime forms
    | RtTry(body: Block, handler: Closure, finalizer: Closure)
    | SetFlow(code: int)               // ghi_flow = code
    | OnFlow(code: int, thn: Block)    // if ghi_flow == code { thn }
    | OnAnyFlow(thn: Block)            // if ghi_flow != 0 { thn }
    | SaveFlow(temp: nat)              // ghi_saved_temp := ghi_flow
    | DeferRestore(temp: nat)          // defer func() { if ghi_flow == 0 { ghi_flow = ghi_saved_temp } }()
    | SetSlots(es: seq<Expr>)          // <result slot names> = es
    | ReturnSlots                      // return <result slot names>
    | Register(e: Expr)                // RegisterDefer(&ghi_defers, e)
    | DeferRunDefers                   // var ghi_defers []func(); defer RunDefers(&ghi_defers)
    | DeclareSignal(slots: nat)        // var ghi_flow int; var ghi_return_0 ...

  datatype Block = Nil | Cons(head: Stmt, tail: Block)

  datatype Clauses = NoClauses | Clause(isDefault: bool, guards: seq<Expr>, body: Block, rest: Clauses)

  datatype Closure = NoClosure | Func(body: Block)

  /** The results of a function. Named results are ordinary variables living in
      `cells`; unnamed ones are Go's anonymous result parameters. */
  datatype Slots = Named(names: seq<Name>, cells: seq<nat>) | Unnamed(count: nat)

  function SlotCount(slots: Slots): nat {
    if slots.Named? then |slots.names| else slots.count
  }

  /** The names an unlabelled statement uses for "no label". */
  const NO_LABEL: Name := ""

  function Append(a: Block, b: Block): Block {
    match a
    case Nil => b
    case Cons(h, t) => Cons(h, Append(t, b))
  }

  function Single(s: Stmt): Block {
    Cons(s, Nil)
  }

  function Length(b: Block): nat {
    match b
    case Nil => 0
    case Cons(_, t) => 1 + Length(t)
  }

  lemma AppendNil(b: Block)
    ensures Append(b, Nil) == b
  {}

  lemma AppendAssociates(a: Block, b: Block, c: Block)
    ensures Append(Append(a, b), c) == Append(a, Append(b, c))
  {}

  /** What Go allows in a statement header. */
  predicate SimpleStmt(b: Block) {
    b.Nil? || (b.tail.Nil? && (b.head.Eval? || b.head.Assign? || b.head.Declare?))
  }

  predicate HasDefault(cs: Clauses) {
    cs.Clause? && (cs.isDefault || HasDefault(cs.rest))
  }

  /** A loop condition that never ends the loop. */
  predicate Infinite(c: Cond) {
    c.Always? || c.e.True?
  }
}
