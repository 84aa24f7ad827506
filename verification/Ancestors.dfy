/** Type arguments of ancestors along a chain of generic classes
    (internal/compiler/inheritance.go). */
module Ancestors {
  type Name = string

  /** Type expressions. Names under a package or bound by the parser, and anything
      that is no name, stay as they are; all other forms are nodes with children. */
  datatype Type = Ident(name: Name) | Fixed(text: string) | Node(kind: int, children: Types)

  datatype Types = NoTypes | More(head: Type, tail: Types)

  type Bindings = map<Name, Type>

  /** Replaces type parameters everywhere at once. */
  function Substitute(t: Type, b: Bindings): Type
    decreases t
  {
    match t
    case Ident(n) => if n in b then b[n] else t
    case Fixed(_) => t
    case Node(kind, children) => Node(kind, SubstituteAll(children, b))
  }

  function SubstituteAll(ts: Types, b: Bindings): Types
    decreases ts
  {
    match ts
    case NoTypes => NoTypes
    case More(h, rest) => More(Substitute(h, b), SubstituteAll(rest, b))
  }

  function Idents(t: Type): set<Name>
    decreases t
  {
    match t
    case Ident(n) => {n}
    case Fixed(_) => {}
    case Node(_, children) => AllIdents(children)
  }

  function AllIdents(ts: Types): set<Name>
    decreases ts
  {
    match ts
    case NoTypes => {}
    case More(h, rest) => Idents(h) + AllIdents(rest)
  }

  /** A class with its type parameters and, if it has a parent, the arguments it
      gives to the parent's parameters. */
  datatype Class = Root(params: seq<Name>) | Derived(params: seq<Name>, parent: Class, direct: seq<Type>)

  function Depth(c: Class): nat {
    if c.Root? then 0 else 1 + Depth(c.parent)
  }

  function Ancestor(c: Class, k: nat): Class
    requires k <= Depth(c)
  {
    if k == 0 then c else Ancestor(c.parent, k - 1)
  }

  predicate Unique(names: seq<Name>) {
    forall i, j :: 0 <= i < j < |names| ==> names[i] != names[j]
  }

  /** Go's checks on declarations: distinct parameters, as many arguments as the
      parent has parameters. */
  predicate Declared(c: Class) {
    Unique(c.params) && (c.Derived? ==> |c.direct| == |c.parent.params| && Declared(c.parent))
  }

  function Bind(names: seq<Name>, args: seq<Type>): Bindings
    requires |names| == |args|
    decreases |names|
  {
    if names == [] then map[] else Bind(names[1..], args[1..])[names[0] := args[0]]
  }

  function Own(names: seq<Name>): seq<Type> {
    seq(|names|, i requires 0 <= i < |names| => Ident(names[i]))
  }

  function Each(ts: seq<Type>, b: Bindings): (r: seq<Type>)
    ensures |r| == |ts|
  {
    seq(|ts|, i requires 0 <= i < |ts| => Substitute(ts[i], b))
  }

  /** The arguments that an instance of `c` gives to its k-th ancestor, in terms of
      `c`'s own parameters. */
  function Arguments(c: Class, k: nat): (r: seq<Type>)
    requires k <= Depth(c) && Declared(c)
    ensures |r| == |Ancestor(c, k).params|
    decreases k
  {
    if k == 0 then Own(c.params)
    else Each(Arguments(c.parent, k - 1), Bind(c.parent.params, c.direct))
  }

  /** The parent gets the arguments as they are written. */
  lemma ArgumentsDirect(c: Class)
    requires c.Derived? && Declared(c)
    ensures Arguments(c, 1) == c.direct
  {
    var b, own := Bind(c.parent.params, c.direct), Own(c.parent.params);
    assert Arguments(c.parent, 0) == own;
    forall i | 0 <= i < |c.direct| ensures Each(own, b)[i] == c.direct[i] { BindLooksUp(c.parent.params, c.direct, i); }
    assert Arguments(c, 1) == Each(own, b);
  }

  // ----- no capture -----

  /** Every name in an argument is a parameter of its own class or the name of a
      concrete type, and no concrete type is named like a parameter of the chain. */
  predicate Apart(c: Class, concrete: set<Name>) {
    && (forall n :: n in c.params ==> n !in concrete)
    && (c.Derived? ==>
          && (forall i :: 0 <= i < |c.direct| ==> Idents(c.direct[i]) <= (set n | n in c.params) + concrete)
          && Apart(c.parent, concrete))
  }

  lemma {:induction false} BindLooksUp(names: seq<Name>, args: seq<Type>, i: nat)
    requires |names| == |args| && Unique(names) && i < |names|
    ensures names[i] in Bind(names, args) && Bind(names, args)[names[i]] == args[i]
    decreases |names|
  {
    if i > 0 { BindLooksUp(names[1..], args[1..], i - 1); }
  }

  lemma {:induction false} BindKeys(names: seq<Name>, args: seq<Type>)
    requires |names| == |args|
    ensures Bind(names, args).Keys == set n | n in names
    decreases |names|
  {
    if names != [] {
      BindKeys(names[1..], args[1..]);
      assert names == [names[0]] + names[1..];
    }
  }

  lemma {:induction false} SubstituteIdents(t: Type, b: Bindings, allowed: set<Name>)
    requires forall n :: n in Idents(t) && n in b ==> Idents(b[n]) <= allowed
    requires forall n :: n in Idents(t) && n !in b ==> n in allowed
    ensures Idents(Substitute(t, b)) <= allowed
    decreases t
  {
    if t.Node? { SubstituteAllIdents(t.children, b, allowed); }
  }

  lemma {:induction false} SubstituteAllIdents(ts: Types, b: Bindings, allowed: set<Name>)
    requires forall n :: n in AllIdents(ts) && n in b ==> Idents(b[n]) <= allowed
    requires forall n :: n in AllIdents(ts) && n !in b ==> n in allowed
    ensures AllIdents(SubstituteAll(ts, b)) <= allowed
    decreases ts
  {
    if ts.More? {
      SubstituteIdents(ts.head, b, allowed);
      SubstituteAllIdents(ts.tail, b, allowed);
    }
  }

  /** Arguments speak only of the descendant's own parameters and concrete types. */
  lemma {:induction false} ArgumentsScoped(c: Class, k: nat, concrete: set<Name>)
    requires k <= Depth(c) && Declared(c) && Apart(c, concrete)
    ensures forall i :: 0 <= i < |Arguments(c, k)| ==> Idents(Arguments(c, k)[i]) <= (set n | n in c.params) + concrete
    decreases k
  {
    if k > 0 {
      var inner, b := Arguments(c.parent, k - 1), Bind(c.parent.params, c.direct);
      ArgumentsScoped(c.parent, k - 1, concrete);
      BindKeys(c.parent.params, c.direct);
      forall i | 0 <= i < |inner| ensures Idents(Arguments(c, k)[i]) <= (set n | n in c.params) + concrete {
        forall n | n in b ensures Idents(b[n]) <= (set m | m in c.params) + concrete {
          var j :| 0 <= j < |c.parent.params| && c.parent.params[j] == n;
          BindLooksUp(c.parent.params, c.direct, j);
        }
        SubstituteIdents(inner[i], b, (set n | n in c.params) + concrete);
      }
    }
  }

  // ----- composition -----

  /** First `a`, then `b`, as one substitution. */
  function Then(a: Bindings, b: Bindings): Bindings {
    map n | n in a :: Substitute(a[n], b)
  }

  /** Two substitutions are one simultaneous substitution exactly when the second
      changes no name that the first leaves alone. */
  lemma {:induction false} SubstituteTwice(t: Type, a: Bindings, b: Bindings)
    ensures Substitute(Substitute(t, a), b) == Substitute(t, Then(a, b))
            <==> forall n :: n in Idents(t) && n !in a && n in b ==> b[n] == Ident(n)
    decreases t
  {
    if t.Node? { SubstituteAllTwice(t.children, a, b); }
  }

  lemma {:induction false} SubstituteAllTwice(ts: Types, a: Bindings, b: Bindings)
    ensures SubstituteAll(SubstituteAll(ts, a), b) == SubstituteAll(ts, Then(a, b))
            <==> forall n :: n in AllIdents(ts) && n !in a && n in b ==> b[n] == Ident(n)
    decreases ts
  {
    if ts.More? {
      SubstituteTwice(ts.head, a, b);
      SubstituteAllTwice(ts.tail, a, b);
    }
  }

  lemma {:induction false} BindEach(names: seq<Name>, args: seq<Type>, b: Bindings)
    requires |names| == |args|
    ensures Bind(names, Each(args, b)) == Then(Bind(names, args), b)
    decreases |names|
  {
    if names != [] {
      assert Each(args, b)[1..] == Each(args[1..], b);
      BindEach(names[1..], args[1..], b);
    }
  }

  lemma BindTwice(t: Type, names: seq<Name>, args: seq<Type>, b: Bindings)
    requires |names| == |args|
    ensures Substitute(t, Bind(names, Each(args, b))) == Substitute(Substitute(t, Bind(names, args)), b)
            <==> forall n :: n in Idents(t) && n !in names && n in b ==> b[n] == Ident(n)
  {
    BindEach(names, args, b);
    BindKeys(names, args);
    SubstituteTwice(t, Bind(names, args), b);
    assert forall n :: n in Bind(names, args) <==> n in names;
  }

  /** What `c` makes of the parameters of its j-th ancestor. */
  function Meaning(c: Class, j: nat): Bindings
    requires j <= Depth(c) && Declared(c)
  {
    Bind(Ancestor(c, j).params, Arguments(c, j))
  }

  /** A type written in the j-th ancestor, under `c`'s arguments for it. */
  function Under(c: Class, j: nat, t: Type): Type
    requires j <= Depth(c) && Declared(c)
  {
    Substitute(t, Meaning(c, j))
  }

  /** ... which is the type as the parent has it, under `c`'s arguments for the
      parent, exactly when they rebind none of its names but the ancestor's own
      parameters. */
  lemma UnderStep(c: Class, j: nat, t: Type)
    requires c.Derived? && j <= Depth(c.parent) && Declared(c)
    ensures var b := Bind(c.parent.params, c.direct);
            Under(c, j + 1, t) == Substitute(Under(c.parent, j, t), b)
            <==> forall n :: n in Idents(t) && n !in Ancestor(c.parent, j).params && n in b ==> b[n] == Ident(n)
  {
    BindTwice(t, Ancestor(c.parent, j).params, Arguments(c.parent, j), Bind(c.parent.params, c.direct));
  }

  lemma {:induction false} AncestorDeclared(c: Class, k: nat)
    requires k <= Depth(c) && Declared(c)
    ensures Declared(Ancestor(c, k)) && Depth(Ancestor(c, k)) == Depth(c) - k
    decreases k
  {
    if k > 0 { AncestorDeclared(c.parent, k - 1); }
  }

  lemma {:induction false} AncestorTwice(c: Class, j: nat, k: nat)
    requires j + k <= Depth(c) && Declared(c)
    ensures Depth(Ancestor(c, j)) == Depth(c) - j && Ancestor(c, j + k) == Ancestor(Ancestor(c, j), k)
    decreases j
  {
    if j > 0 { AncestorTwice(c.parent, j - 1, k); }
  }

  lemma {:induction false} AncestorApart(c: Class, k: nat, concrete: set<Name>)
    requires k <= Depth(c) && Apart(c, concrete)
    ensures Apart(Ancestor(c, k), concrete)
    decreases k
  {
    if k > 0 { AncestorApart(c.parent, k - 1, concrete); }
  }

  /** What becomes of a type written in the j-th ancestor on the way down to `c`:
      every class substitutes its arguments for its parent's parameters. */
  function Down(c: Class, j: nat, t: Type): Type
    requires j <= Depth(c) && Declared(c)
    decreases j
  {
    if j == 0 then t else Substitute(Down(c.parent, j - 1, t), Bind(c.parent.params, c.direct))
  }

  function DownAll(c: Class, j: nat, ts: Types): Types
    requires j <= Depth(c) && Declared(c)
    decreases ts
  {
    match ts
    case NoTypes => NoTypes
    case More(h, rest) => More(Down(c, j, h), DownAll(c, j, rest))
  }

  lemma {:induction false} DownParts(c: Class, j: nat, kind: int, children: Types)
    requires j <= Depth(c) && Declared(c)
    ensures Down(c, j, Node(kind, children)) == Node(kind, DownAll(c, j, children))
    decreases j
  {
    if j == 0 { DownNowhere(c, children); }
    else {
      DownParts(c.parent, j - 1, kind, children);
      DownAllStep(c, j, children);
    }
  }

  lemma {:induction false} DownNowhere(c: Class, ts: Types)
    requires Declared(c)
    ensures DownAll(c, 0, ts) == ts
    decreases ts
  {
    if ts.More? { DownNowhere(c, ts.tail); }
  }

  lemma {:induction false} DownAllStep(c: Class, j: nat, ts: Types)
    requires 0 < j <= Depth(c) && Declared(c)
    ensures DownAll(c, j, ts) == SubstituteAll(DownAll(c.parent, j - 1, ts), Bind(c.parent.params, c.direct))
    decreases ts
  {
    if ts.More? { DownAllStep(c, j, ts.tail); }
  }

  lemma {:induction false} DownFixed(c: Class, j: nat, text: string)
    requires j <= Depth(c) && Declared(c)
    ensures Down(c, j, Fixed(text)) == Fixed(text)
    decreases j
  {
    if j > 0 { DownFixed(c.parent, j - 1, text); }
  }

  /** Going down agrees with one substitution `b`, which does the same on the names
      it binds, exactly when no other name of the type changes on the way. */
  lemma {:induction false} DownIsOne(c: Class, j: nat, t: Type, b: Bindings)
    requires j <= Depth(c) && Declared(c) && forall n :: n in b ==> b[n] == Down(c, j, Ident(n))
    ensures Down(c, j, t) == Substitute(t, b) <==> forall n ::
              n in Idents(t) && n !in b ==> Down(c, j, Ident(n)) == Ident(n)
    decreases t
  {
    if t.Fixed? { DownFixed(c, j, t.text); }
    else if t.Node? {
      DownParts(c, j, t.kind, t.children);
      DownAllIsOne(c, j, t.children, b);
    }
  }

  lemma {:induction false} DownAllIsOne(c: Class, j: nat, ts: Types, b: Bindings)
    requires j <= Depth(c) && Declared(c) && forall n :: n in b ==> b[n] == Down(c, j, Ident(n))
    ensures DownAll(c, j, ts) == SubstituteAll(ts, b)
            <==> forall n :: n in AllIdents(ts) && n !in b ==> Down(c, j, Ident(n)) == Ident(n)
    decreases ts
  {
    if ts.More? {
      DownIsOne(c, j, ts.head, b);
      DownAllIsOne(c, j, ts.tail, b);
    }
  }

  /** The arguments for an ancestor are those of the class in between, brought
      down. */
  lemma {:induction false} ArgumentsDown(c: Class, j: nat, k: nat)
    requires j + k <= Depth(c) && Declared(c)
    ensures var b := Ancestor(c, j);
            && Declared(b) && k <= Depth(b) && Ancestor(b, k) == Ancestor(c, j + k)
            && |Arguments(c, j + k)| == |Arguments(b, k)|
            && forall i :: 0 <= i < |Arguments(b, k)| ==> Arguments(c, j + k)[i] == Down(c, j, Arguments(b, k)[i])
    decreases j
  {
    AncestorDeclared(c, j);
    AncestorTwice(c, j, k);
    if j > 0 { ArgumentsDown(c.parent, j - 1, k); }
  }

  lemma OwnDown(c: Class, j: nat)
    requires j <= Depth(c) && Declared(c)
    ensures var b := Ancestor(c, j);
            var own := Bind(b.params, Arguments(c, j));
            own.Keys == (set n | n in b.params) && forall n :: n in own ==> own[n] == Down(c, j, Ident(n))
  {
    var params, args := Ancestor(c, j).params, Arguments(c, j);
    AncestorDeclared(c, j);
    BindKeys(params, args);
    forall n | n in params ensures Bind(params, args)[n] == Down(c, j, Ident(n)) {
      var i :| 0 <= i < |params| && params[i] == n;
      ArgumentDown(c, j, i);
      BindLooksUp(params, args, i);
    }
  }

  lemma ArgumentDown(c: Class, j: nat, i: nat)
    requires j <= Depth(c) && Declared(c) && i < |Ancestor(c, j).params|
    ensures Arguments(c, j)[i] == Down(c, j, Ident(Ancestor(c, j).params[i]))
  {
    ArgumentsDown(c, j, 0);
    assert Arguments(Ancestor(c, j), 0)[i] == Ident(Ancestor(c, j).params[i]);
  }

  /** No argument that class `b`, the j-th ancestor of `c`, gives to its own k-th
      ancestor names a type that changes on the way from `b` to `c`, the
      parameters of `b` excepted. */
  predicate Uncaptured(c: Class, j: nat, k: nat)
    requires j + k <= Depth(c) && Declared(c) && k <= Depth(Ancestor(c, j)) && Declared(Ancestor(c, j))
  {
    var b := Ancestor(c, j);
    forall i, n :: 0 <= i < |Arguments(b, k)| && n in Idents(Arguments(b, k)[i]) && n !in b.params
                   ==> Down(c, j, Ident(n)) == Ident(n)
  }

  /** Going through any class on the way composes, the arguments for the far
      ancestor being those the intermediate class gives it under the arguments the
      descendant gives the intermediate class, exactly when nothing is captured. */
  lemma ArgumentsCompose(c: Class, j: nat, k: nat)
    requires j + k <= Depth(c) && Declared(c)
    ensures var b := Ancestor(c, j);
            && Declared(b) && k <= Depth(b) && Ancestor(b, k) == Ancestor(c, j + k)
            && (Arguments(c, j + k) == Each(Arguments(b, k), Bind(b.params, Arguments(c, j))) <==> Uncaptured(c, j, k))
  {
    ArgumentsDown(c, j, k);
    OwnDown(c, j);
    var b := Ancestor(c, j);
    var far, own := Arguments(b, k), Bind(b.params, Arguments(c, j));
    forall i | 0 <= i < |far|
      ensures Arguments(c, j + k)[i] == Each(far, own)[i]
              <==> forall n :: n in Idents(far[i]) && n !in b.params ==> Down(c, j, Ident(n)) == Ident(n)
    {
      DownIsOne(c, j, far[i], own);
    }
    if Uncaptured(c, j, k) {
      assert forall i :: 0 <= i < |far| ==> Arguments(c, j + k)[i] == Each(far, own)[i];
    }
  }

  // ----- types written in an ancestor -----

  /** A type after several substitutions. */
  function Through(steps: seq<Bindings>, t: Type): Type
    decreases |steps|
  {
    if steps == [] then t else Through(steps[1..], Substitute(t, steps[0]))
  }

  function ThroughAll(steps: seq<Bindings>, ts: Types): Types
    decreases ts
  {
    match ts
    case NoTypes => NoTypes
    case More(h, rest) => More(Through(steps, h), ThroughAll(steps, rest))
  }

  lemma {:induction false} ThroughAllStep(steps: seq<Bindings>, ts: Types)
    ensures ThroughAll(steps, ts) ==
            if steps == [] then ts else ThroughAll(steps[1..], SubstituteAll(ts, steps[0]))
    decreases ts
  {
    if ts.More? { ThroughAllStep(steps, ts.tail); }
  }

  lemma {:induction false} ThroughParts(steps: seq<Bindings>, t: Type)
    ensures t.Fixed? ==> Through(steps, t) == t
    ensures t.Node? ==> Through(steps, t) == Node(t.kind, ThroughAll(steps, t.children))
    decreases |steps|
  {
    if t.Node? { ThroughAllStep(steps, t.children); }
    if steps != [] { ThroughParts(steps[1..], Substitute(t, steps[0])); }
  }

  lemma {:induction false} ThroughMore(steps: seq<Bindings>, last: Bindings, t: Type)
    ensures Through(steps + [last], t) == Substitute(Through(steps, t), last)
    decreases |steps|
  {
    if steps == [] { assert [last][1..] == [] && [] + [last] == [last]; }
    else {
      assert (steps + [last])[1..] == steps[1..] + [last];
      ThroughMore(steps[1..], last, Substitute(t, steps[0]));
    }
  }

  /** Several substitutions agree with one on a type exactly when they do on its names. */
  lemma {:induction false} ThroughIsOne(steps: seq<Bindings>, b: Bindings, t: Type)
    ensures Through(steps, t) == Substitute(t, b)
            <==> forall n :: n in Idents(t) ==> Through(steps, Ident(n)) == Substitute(Ident(n), b)
    decreases t
  {
    ThroughParts(steps, t);
    if t.Node? { ThroughAllIsOne(steps, b, t.children); }
  }

  lemma {:induction false} ThroughAllIsOne(steps: seq<Bindings>, b: Bindings, ts: Types)
    ensures ThroughAll(steps, ts) == SubstituteAll(ts, b)
            <==> forall n :: n in AllIdents(ts) ==> Through(steps, Ident(n)) == Substitute(Ident(n), b)
    decreases ts
  {
    if ts.More? {
      ThroughIsOne(steps, b, ts.head);
      ThroughAllIsOne(steps, b, ts.tail);
    }
  }

  /** A class takes its own parameters for themselves. */
  lemma OwnMeaning(c: Class, t: Type)
    requires Declared(c)
    ensures Under(c, 0, t) == t
  {
    BindKeys(c.params, Own(c.params));
    forall n | n in c.params ensures Meaning(c, 0)[n] == Ident(n) {
      var i :| 0 <= i < |c.params| && c.params[i] == n;
      BindLooksUp(c.params, Own(c.params), i);
    }
    Unchanged(t, Meaning(c, 0));
  }

  lemma {:induction false} Unchanged(t: Type, b: Bindings)
    requires forall n :: n in b ==> b[n] == Ident(n)
    ensures Substitute(t, b) == t
    decreases t
  {
    if t.Node? { AllUnchanged(t.children, b); }
  }

  lemma {:induction false} AllUnchanged(ts: Types, b: Bindings)
    requires forall n :: n in b ==> b[n] == Ident(n)
    ensures SubstituteAll(ts, b) == ts
    decreases ts
  {
    if ts.More? {
      Unchanged(ts.head, b);
      AllUnchanged(ts.tail, b);
    }
  }

  /** On the way of one name of a type, written in the (j + k)-th ancestor, through the
      j-th ancestor `b` down to `c`, nothing is rebound but the parameters of these
      classes. */
  predicate NameKept(c: Class, j: nat, k: nat, n: Name)
    requires j + k <= Depth(c) && Declared(c) && k <= Depth(Ancestor(c, j)) && Declared(Ancestor(c, j))
  {
    var b := Ancestor(c, j);
    if n in Meaning(b, k)
    then forall m :: m in Idents(Meaning(b, k)[n]) && m !in b.params ==> Down(c, j, Ident(m)) == Ident(m)
    else n in b.params ==> Down(c, j, Ident(n)) == Ident(n)
  }

  /** Nothing but these parameters is rebound in the type on its way. */
  predicate Kept(c: Class, j: nat, k: nat, t: Type)
    requires j + k <= Depth(c) && Declared(c) && k <= Depth(Ancestor(c, j)) && Declared(Ancestor(c, j))
  {
    forall n :: n in Idents(t) ==> NameKept(c, j, k, n)
  }

  lemma ParameterTwice(c: Class, j: nat, k: nat, i: nat)
    requires j + k <= Depth(c) && Declared(c) && k <= Depth(Ancestor(c, j)) && Declared(Ancestor(c, j))
    requires i < |Ancestor(Ancestor(c, j), k).params|
    ensures var n := Ancestor(Ancestor(c, j), k).params[i];
            Under(c, j, Under(Ancestor(c, j), k, Ident(n))) == Under(c, j + k, Ident(n)) <==> NameKept(c, j, k, n)
  {
    ArgumentsDown(c, j, k);
    var b := Ancestor(c, j);
    AncestorDeclared(b, k);
    var params, near := Ancestor(b, k).params, Arguments(b, k);
    BindLooksUp(params, near, i);
    BindLooksUp(params, Arguments(c, j + k), i);
    assert Under(b, k, Ident(params[i])) == near[i];
    assert Under(c, j + k, Ident(params[i])) == Down(c, j, near[i]);
    OwnDown(c, j);
    DownIsOne(c, j, near[i], Meaning(c, j));
  }

  lemma OtherTwice(c: Class, j: nat, k: nat, n: Name)
    requires j + k <= Depth(c) && Declared(c) && k <= Depth(Ancestor(c, j)) && Declared(Ancestor(c, j))
    requires n !in Ancestor(Ancestor(c, j), k).params
    ensures Under(c, j, Under(Ancestor(c, j), k, Ident(n))) == Under(c, j + k, Ident(n)) <==> NameKept(c, j, k, n)
  {
    ArgumentsDown(c, j, k);
    var b := Ancestor(c, j);
    BindKeys(Ancestor(b, k).params, Arguments(b, k));
    BindKeys(Ancestor(b, k).params, Arguments(c, j + k));
    assert Under(b, k, Ident(n)) == Ident(n) && Under(c, j + k, Ident(n)) == Ident(n);
    OwnDown(c, j);
  }

  lemma NameTwice(c: Class, j: nat, k: nat, n: Name)
    requires j + k <= Depth(c) && Declared(c) && k <= Depth(Ancestor(c, j)) && Declared(Ancestor(c, j))
    ensures Under(c, j, Under(Ancestor(c, j), k, Ident(n))) == Under(c, j + k, Ident(n)) <==> NameKept(c, j, k, n)
  {
    var params := Ancestor(Ancestor(c, j), k).params;
    if n in params {
      var i :| 0 <= i < |params| && params[i] == n;
      ParameterTwice(c, j, k, i);
    } else { OtherTwice(c, j, k, n); }
  }

  /** A type seen from `c` is what the class in between sees, under `c`'s arguments for
      that class, exactly when no name of it is rebound on the way. */
  lemma UnderTwice(c: Class, j: nat, k: nat, t: Type)
    requires j + k <= Depth(c) && Declared(c)
    ensures k <= Depth(Ancestor(c, j)) && Declared(Ancestor(c, j))
    ensures Under(c, j, Under(Ancestor(c, j), k, t)) == Under(c, j + k, t) <==> Kept(c, j, k, t)
  {
    ArgumentsDown(c, j, k);
    var b := Ancestor(c, j);
    var steps, direct := [Meaning(b, k), Meaning(c, j)], Meaning(c, j + k);
    ThroughIsOne(steps, direct, t);
    TwoSteps(steps, t);
    assert Through(steps, t) == Under(c, j, Under(b, k, t));
    forall n: Name
      ensures Through(steps, Ident(n)) == Substitute(Ident(n), direct) <==> NameKept(c, j, k, n)
    {
      TwoSteps(steps, Ident(n));
      assert Through(steps, Ident(n)) == Under(c, j, Under(b, k, Ident(n)));
      NameTwice(c, j, k, n);
    }
  }

  lemma TwoSteps(steps: seq<Bindings>, t: Type)
    requires |steps| == 2
    ensures Through(steps, t) == Substitute(Substitute(t, steps[0]), steps[1])
  {
    var once, rest := Substitute(t, steps[0]), steps[1..];
    assert rest[0] == steps[1] && rest[1..] == [];
    assert Through(rest, once) == Through(rest[1..], Substitute(once, steps[1]));
  }

  /** Names kept apart are never captured. */
  lemma ApartUncaptured(c: Class, j: nat, k: nat, concrete: set<Name>)
    requires j + k <= Depth(c) && Declared(c) && Apart(c, concrete)
    ensures k <= Depth(Ancestor(c, j)) && Declared(Ancestor(c, j)) && Uncaptured(c, j, k)
  {
    var b := Ancestor(c, j);
    AncestorDeclared(c, j);
    AncestorApart(c, j, concrete);
    ArgumentsScoped(b, k, concrete);
    forall n | n in concrete ensures Down(c, j, Ident(n)) == Ident(n) { ConcreteStays(c, j, concrete, n); }
  }

  lemma {:induction false} ConcreteStays(c: Class, j: nat, concrete: set<Name>, n: Name)
    requires j <= Depth(c) && Declared(c) && Apart(c, concrete) && n in concrete
    ensures Down(c, j, Ident(n)) == Ident(n)
    decreases j
  {
    if j > 0 {
      ConcreteStays(c.parent, j - 1, concrete, n);
      BindKeys(c.parent.params, c.direct);
    }
  }

  /** Without the separation of names a concrete type is captured on the way:
      class A[T]; class B extends A[U], for a type U; class C[U] extends B;
      class D extends C[int]. Through C the argument for A becomes int. */
  lemma CaptureBreaksComposition()
    ensures var b := Derived([], Root(["T"]), [Ident("U")]);
            var d := Derived([], Derived(["U"], b, []), [Fixed("int")]);
            && Declared(d) && Ancestor(d, 2) == b
            && Arguments(d, 3) == [Fixed("int")]
            && Each(Arguments(b, 1), Bind(b.params, Arguments(d, 2))) == [Ident("U")]
  {
    var a := Root(["T"]);
    var b := Derived([], a, [Ident("U")]);
    var c := Derived(["U"], b, []);
    var d := Derived([], c, [Fixed("int")]);
    assert Declared(b) && Declared(c) && Declared(d);
    assert Arguments(a, 0) == [Ident("T")];
    var toA := Bind(["T"], [Ident("U")]);
    assert toA["T"] == Ident("U");
    assert Arguments(b, 1) == [Ident("U")];
    assert Bind([], []) == map[];
    assert Arguments(c, 2) == [Ident("U")];
    var toC := Bind(["U"], [Fixed("int")]);
    assert toC["U"] == Fixed("int");
    assert Arguments(d, 3) == [Fixed("int")];
    assert Ancestor(d, 2) == Ancestor(c, 1) == Ancestor(b, 0) == b;
    assert Arguments(d, 2) == [];
  }
}
