/** Lookup of inherited members and the method table of a class
    (internal/compiler/class_model.go). */
module MethodSlots {
  import opened Options
  import Types = Ancestors

  type Name = string

  datatype Visibility = Private | Protected | Public

  /** `owner` is the depth of the declaring class, in whose type parameters the
      signature is written; `id` tells declarations apart. */
  datatype Method =
    Method(name: Name, visibility: Visibility, overrides: bool, signature: Types.Type, owner: nat, id: int)

  /** `generic` is the class as far as type parameters and arguments go. */
  datatype Class = Class(id: int, methods: seq<Method>, generic: Types.Class, parent: Option<Class>)

  function Depth(c: Class): nat {
    Types.Depth(c.generic)
  }

  /** Type parameters are declared, and methods know their class. */
  predicate Formed(c: Class)
    decreases c
  {
    && Types.Declared(c.generic) && (c.generic.Derived? <==> c.parent.Some?)
    && (forall i :: 0 <= i < |c.methods| ==> c.methods[i].owner == Depth(c))
    && (c.parent.Some? ==> c.generic.parent == c.parent.value.generic && Formed(c.parent.value))
  }

  /** The arguments a class gives to its parent's type parameters. */
  function Direct(c: Class): Types.Bindings
    requires Formed(c) && c.parent.Some?
  {
    Types.Bind(c.generic.parent.params, c.generic.direct)
  }

  /** The parameters of the class that declares the method. */
  function OwnerParams(m: Method, c: Class): seq<Name>
    requires m.owner <= Depth(c)
  {
    Types.Ancestor(c.generic, Depth(c) - m.owner).params
  }

  /** The signature as `c` sees it, with `c`'s arguments for the declaring class. */
  function Seen(m: Method, c: Class): Types.Type
    requires Formed(c) && m.owner <= Depth(c)
  {
    Types.Under(c.generic, Depth(c) - m.owner, m.signature)
  }

  function Rank(v: Visibility): nat {
    if v == Public then 2 else if v == Protected then 1 else 0
  }

  function Own(ms: seq<Method>, name: Name): (m: Option<Method>)
    ensures m.Some? ==> m.value in ms && m.value.name == name
  {
    if ms == [] then None else if ms[0].name == name then Some(ms[0]) else Own(ms[1..], name)
  }

  /** The nearest declaration, going up. */
  function Find(c: Class, name: Name): (m: Option<Method>)
    ensures Formed(c) && m.Some? ==> m.value.owner <= Depth(c)
    decreases c
  {
    var own := Own(c.methods, name);
    if own.Some? then own else if c.parent.Some? then Find(c.parent.value, name) else None
  }

  /** A declaration takes over the slot of its name, or gets a new one. */
  function Place(slots: seq<Method>, m: Method): seq<Method> {
    if slots == [] then [m]
    else if slots[0].name == m.name then [m] + slots[1..]
    else [slots[0]] + Place(slots[1..], m)
  }

  function PlaceAll(slots: seq<Method>, ms: seq<Method>): seq<Method>
    decreases |ms|
  {
    if ms == [] then slots else PlaceAll(Place(slots, ms[0]), ms[1..])
  }

  function Table(c: Class): seq<Method>
    decreases c
  {
    PlaceAll(if c.parent.Some? then Table(c.parent.value) else [], c.methods)
  }

  /** Members of one class have distinct names. */
  predicate Distinct(ms: seq<Method>) {
    forall i, j :: 0 <= i < j < |ms| ==> ms[i].name != ms[j].name
  }

  /** What the check of classes accepts: every declaration that hides an inherited
      one says so, agrees with it as the class sees both, and is at least as visible. */
  predicate Overrides(c: Class, m: Method)
    requires Formed(c) && m.owner == Depth(c)
  {
    var base := if c.parent.Some? then Find(c.parent.value, m.name) else None;
    && (m.overrides ==> base.Some? && base.value.visibility != Private)
    && (base.Some? ==> m.overrides && Seen(m, c) == Seen(base.value, c)
                       && Rank(m.visibility) >= Rank(base.value.visibility))
  }

  predicate Accepted(c: Class)
    decreases c
  {
    && Formed(c)
    && Distinct(c.methods)
    && (forall i :: 0 <= i < |c.methods| ==> Overrides(c, c.methods[i]))
    && (c.parent.Some? ==> Accepted(c.parent.value))
  }

  // ----- the loop over a class's methods -----

  method AllMethods(c: Class) returns (result: seq<Method>)
    ensures result == Table(c)
    decreases c
  {
    result := [];
    if c.parent.Some? { result := AllMethods(c.parent.value); }
    var i := 0;
    assert c.methods[0..] == c.methods;
    while i < |c.methods|
      invariant 0 <= i <= |c.methods| && PlaceAll(result, c.methods[i..]) == Table(c)
    {
      var m := c.methods[i];
      assert c.methods[i..][0] == m && c.methods[i..][1..] == c.methods[i + 1..];
      var k := 0;
      while k < |result| && result[k].name != m.name
        invariant 0 <= k <= |result| && forall j :: 0 <= j < k ==> result[j].name != m.name
      {
        k := k + 1;
      }
      PlaceAt(result, m, k);
      if k < |result| { result := result[k := m]; } else { result := result + [m]; }
      i := i + 1;
    }
  }

  lemma {:induction false} PlaceAt(slots: seq<Method>, m: Method, k: nat)
    requires k <= |slots| && (forall j :: 0 <= j < k ==> slots[j].name != m.name)
               && (k < |slots| ==> slots[k].name == m.name)
    ensures Place(slots, m) == if k < |slots| then slots[k := m] else slots + [m]
    decreases |slots|
  {
    if slots != [] {
      if k > 0 {
        PlaceAt(slots[1..], m, k - 1);
      }
    }
  }

  // ----- the table against lookup -----

  /** Position of a name's slot, or the length of the table. */
  function Slot(slots: seq<Method>, name: Name): (k: nat)
    ensures k <= |slots|
    ensures k < |slots| ==> slots[k].name == name
    ensures forall j :: 0 <= j < k ==> slots[j].name != name
  {
    if slots == [] || slots[0].name == name then 0 else 1 + Slot(slots[1..], name)
  }

  lemma PlaceKeeps(slots: seq<Method>, m: Method)
    requires Distinct(slots)
    ensures var p := Place(slots, m);
            && Distinct(p) && |slots| <= |p|
            && (forall i :: 0 <= i < |slots| ==> p[i].name == slots[i].name && (p[i] == slots[i] || p[i] == m))
            && (forall i :: 0 <= i < |p| ==> (i < |slots| && p[i] == slots[i] && p[i].name != m.name) || p[i] == m)
            && Slot(p, m.name) < |p| && p[Slot(p, m.name)] == m
  {
    PlaceAt(slots, m, Slot(slots, m.name));
  }

  /** One entry per name, inherited names at their inherited positions. */
  lemma {:induction false} PlaceAllKeeps(slots: seq<Method>, ms: seq<Method>)
    requires Distinct(slots) && Distinct(ms)
    ensures var p := PlaceAll(slots, ms);
            && Distinct(p) && |slots| <= |p|
            && (forall i :: 0 <= i < |slots| ==> p[i].name == slots[i].name)
            && (forall i :: 0 <= i < |p| ==> if Own(ms, p[i].name).Some? then p[i] == Own(ms, p[i].name).value
                                             else i < |slots| && p[i] == slots[i])
            && (forall name :: Own(ms, name).Some? ==> Slot(p, name) < |p|)
    decreases |ms|
  {
    if ms != [] {
      var next, rest := Place(slots, ms[0]), ms[1..];
      PlaceKeeps(slots, ms[0]);
      PlaceAllKeeps(next, rest);
      var p := PlaceAll(slots, ms);
      assert Own(rest, ms[0].name).None?;
      var k := Slot(next, ms[0].name);
      assert p[k].name == ms[0].name;
      forall i | 0 <= i < |p|
        ensures if Own(ms, p[i].name).Some? then p[i] == Own(ms, p[i].name).value else i < |slots| && p[i] == slots[i]
      {
        if p[i].name == ms[0].name { assert i == k; }
      }
    }
  }

  /** The table has exactly one entry for every method the lookup finds, and that
      entry is what it finds. */
  lemma {:induction false} TableIsLookup(c: Class)
    requires Accepted(c)
    ensures Distinct(Table(c))
    ensures forall name :: Find(c, name).Some? <==> Slot(Table(c), name) < |Table(c)|
    ensures forall i :: 0 <= i < |Table(c)| ==> Find(c, Table(c)[i].name) == Some(Table(c)[i])
    decreases c
  {
    var base := if c.parent.Some? then Table(c.parent.value) else [];
    if c.parent.Some? { TableIsLookup(c.parent.value); }
    PlaceAllKeeps(base, c.methods);
    var t := Table(c);
    forall name ensures Find(c, name).Some? <==> Slot(t, name) < |t| {
      if Slot(t, name) < |t| { EntryFound(c, base, Slot(t, name)); }
      if Find(c, name).Some? && Own(c.methods, name).None? { assert t[Slot(base, name)].name == name; }
    }
    forall i | 0 <= i < |t| ensures Find(c, t[i].name) == Some(t[i]) { EntryFound(c, base, i); }
  }

  lemma EntryFound(c: Class, base: seq<Method>, i: nat)
    requires i < |Table(c)|
    requires base == if c.parent.Some? then Table(c.parent.value) else []
    requires if Own(c.methods, Table(c)[i].name).Some? then Table(c)[i] == Own(c.methods, Table(c)[i].name).value
             else i < |base| && Table(c)[i] == base[i]
    requires c.parent.Some? ==> forall j :: 0 <= j < |base| ==> Find(c.parent.value, base[j].name) == Some(base[j])
    ensures Find(c, Table(c)[i].name) == Some(Table(c)[i])
  {}

  // ----- along a chain -----

  predicate Descends(c: Class, a: Class)
    decreases c
  {
    c == a || (c.parent.Some? && Descends(c.parent.value, a))
  }

  predicate Declares(c: Class, name: Name) {
    exists m :: m in c.methods && m.name == name
  }

  lemma {:induction false} OwnDeclared(ms: seq<Method>, name: Name)
    ensures Own(ms, name).None? <==> forall m :: m in ms ==> m.name != name
  {
    if ms != [] {
      OwnDeclared(ms[1..], name);
      assert ms == [ms[0]] + ms[1..];
    }
  }

  /** What is found is declared by a class on the way up, and by no class before it;
      nothing is found only if no class on the way declares the name. */
  lemma {:induction false} FindNearest(c: Class, name: Name)
    ensures Find(c, name).None? ==> forall a :: Descends(c, a) ==> !Declares(a, name)
    ensures Find(c, name).Some? ==> exists a ::
              && Descends(c, a) && Find(c, name).value in a.methods && Find(c, name).value.name == name
              && forall d :: Descends(c, d) && Declares(d, name) ==> Descends(a, d)
    decreases c
  {
    OwnDeclared(c.methods, name);
    if Own(c.methods, name).Some? { assert Descends(c, c); }
    else if c.parent.Some? {
      var p := c.parent.value;
      FindNearest(p, name);
      assert !Declares(c, name);
      if Find(p, name).Some? {
        var a :| Descends(p, a) && Find(p, name).value in a.methods && Find(p, name).value.name == name
                 && forall d :: Descends(p, d) && Declares(d, name) ==> Descends(a, d);
        assert Descends(c, a);
        forall d | Descends(c, d) && Declares(d, name) ensures Descends(a, d) { assert d != c; }
      }
    }
  }

  /** No name in the signature but a parameter of the declaring class is rebound
      between `c`'s parent and `c`. */
  predicate Uncaptured(m: Method, c: Class)
    requires Formed(c) && c.parent.Some? && m.owner <= Depth(c.parent.value)
  {
    var p := c.parent.value;
    forall n ::
        n in Types.Idents(m.signature) && n !in OwnerParams(m, p) && n in Direct(c) ==> Direct(c)[n] == Types.Ident(n)
  }

  /** A signature seen from a class is what the parent sees, under the class's
      arguments for the parent, exactly when nothing is captured. */
  lemma SeenBelow(m: Method, c: Class)
    requires Formed(c) && c.parent.Some? && m.owner <= Depth(c.parent.value)
    ensures var p := c.parent.value;
            Seen(m, c) == Types.Substitute(Seen(m, p), Direct(c)) <==> Uncaptured(m, c)
  {
    var p := c.parent.value;
    var j := Depth(p) - m.owner;
    assert Depth(c) - m.owner == j + 1;
    Types.UnderStep(c.generic, j, m.signature);
  }

  lemma {:induction false} AncestorAccepted(c: Class, a: Class)
    requires Accepted(c) && Descends(c, a)
    ensures Accepted(a) && Depth(a) <= Depth(c)
    decreases c
  {
    if c != a { AncestorAccepted(c.parent.value, a); }
  }

  lemma {:induction false} FindStays(c: Class, a: Class, name: Name)
    requires Descends(c, a) && Find(a, name).Some?
    ensures Find(c, name).Some?
    decreases c
  {
    if c != a { FindStays(c.parent.value, a, name); }
  }

  /** What `c` makes of the parameters of the class that declares the method. */
  function Meaning(m: Method, c: Class): Types.Bindings
    requires Formed(c) && m.owner <= Depth(c)
  {
    Types.Meaning(c.generic, Depth(c) - m.owner)
  }

  /** The substitutions that take the signature of `a`'s method down to `c`'s: one for
      every class in between that overrides, which sees what it overrides under its
      own arguments. */
  function Way(c: Class, a: Class, name: Name): seq<Types.Bindings>
    requires Formed(c) && Descends(c, a)
    decreases c
  {
    if c == a then []
    else
      var p := c.parent.value;
      var base := Find(p, name);
      Way(p, a, name) + (if Own(c.methods, name).Some? && base.Some? then [Meaning(base.value, c)] else [])
  }

  /** An overriding method has the signature of the method it overrides, brought down. */
  lemma {:induction false} SignatureCarried(c: Class, a: Class, name: Name)
    requires Accepted(c) && Descends(c, a) && Find(a, name).Some?
    ensures Find(c, name).Some?
    ensures Find(c, name).value.signature == Types.Through(Way(c, a, name), Find(a, name).value.signature)
    decreases c
  {
    FindStays(c, a, name);
    if c != a {
      var p := c.parent.value;
      SignatureCarried(p, a, name);
      var m, base := Find(c, name).value, Find(p, name).value;
      if Own(c.methods, name).Some? {
        var k :| 0 <= k < |c.methods| && c.methods[k] == m;
        assert Overrides(c, c.methods[k]);
        Types.OwnMeaning(c.generic, m.signature);
        Types.ThroughMore(Way(p, a, name), Meaning(base, c), Find(a, name).value.signature);
      } else { assert Way(p, a, name) + [] == Way(p, a, name); }
    }
  }

  /** The name, written in the signature of `a`'s method, means to `c` in its own method
      what it means to it in `a`'s. */
  predicate Preserved(c: Class, a: Class, name: Name, n: Name)
    requires Formed(c) && Descends(c, a) && Find(c, name).Some? && Find(a, name).Some?
    requires Find(a, name).value.owner <= Depth(c)
  {
    Types.Through(Way(c, a, name) + [Meaning(Find(c, name).value, c)], Types.Ident(n))
    == Types.Substitute(Types.Ident(n), Meaning(Find(a, name).value, c))
  }

  /** However often a method has been overridden on the way, a class sees it with the
      signature it sees an ancestor's method with exactly when every name of that
      signature is preserved. */
  lemma SignaturesExact(c: Class, a: Class, name: Name)
    requires Accepted(c) && Descends(c, a) && Find(a, name).Some?
    ensures Find(c, name).Some? && Find(a, name).value.owner <= Depth(c)
    ensures var m, b := Find(c, name).value, Find(a, name).value;
            Seen(m, c) == Seen(b, c) <==> forall n :: n in Types.Idents(b.signature) ==> Preserved(c, a, name, n)
  {
    AncestorAccepted(c, a);
    SignatureCarried(c, a, name);
    var m, b := Find(c, name).value, Find(a, name).value;
    var steps := Way(c, a, name) + [Meaning(m, c)];
    Types.ThroughMore(Way(c, a, name), Meaning(m, c), b.signature);
    Types.ThroughIsOne(steps, Meaning(b, c), b.signature);
  }

  /** The slot `m` of a class stands where an ancestor has `b`. */
  predicate Replaces(m: Method, b: Method) {
    && m.name == b.name && Rank(m.visibility) >= Rank(b.visibility)
    && (b.visibility == Private ==> m == b)
  }

  /** Every ancestor's slots are a prefix: the same names at the same positions, no
      slot less visible, private ones unchanged. The class sees a slot with another
      signature exactly when a name of the ancestor's signature is not preserved. */
  lemma SlotsExtend(c: Class, a: Class)
    requires Accepted(c) && Descends(c, a)
    ensures |Table(a)| <= |Table(c)|
    ensures forall i :: 0 <= i < |Table(a)| ==> Replaces(Table(c)[i], Table(a)[i])
    ensures forall i :: 0 <= i < |Table(a)| ==> SameSignature(c, a, Table(c)[i], Table(a)[i])
  {
    SlotsReplaced(c, a);
    AncestorAccepted(c, a);
    TableIsLookup(c);
    TableIsLookup(a);
    forall i | 0 <= i < |Table(a)| ensures SameSignature(c, a, Table(c)[i], Table(a)[i]) {
      assert Replaces(Table(c)[i], Table(a)[i]);
      SignaturesExact(c, a, Table(a)[i].name);
    }
  }

  /** When the two methods of a slot have one signature, as the class sees them. */
  predicate SameSignature(c: Class, a: Class, m: Method, b: Method)
    requires Formed(c) && Descends(c, a)
  {
    && m.owner <= Depth(c) && b.owner <= Depth(c) && Find(c, b.name) == Some(m) && Find(a, b.name) == Some(b)
    && (Seen(m, c) == Seen(b, c) <==> forall n :: n in Types.Idents(b.signature) ==> Preserved(c, a, b.name, n))
  }

  lemma {:induction false} SlotsReplaced(c: Class, a: Class)
    requires Accepted(c) && Descends(c, a)
    ensures |Table(a)| <= |Table(c)|
    ensures forall i :: 0 <= i < |Table(a)| ==> Replaces(Table(c)[i], Table(a)[i])
    decreases c
  {
    if c != a {
      var p := c.parent.value;
      SlotsReplaced(p, a);
      TableIsLookup(p);
      PlaceAllKeeps(Table(p), c.methods);
      forall i | 0 <= i < |Table(a)| ensures Replaces(Table(c)[i], Table(a)[i]) { SlotOverrides(c, i); }
    }
  }

  /** One step: the slot is the parent's, or overrides it. */
  lemma SlotOverrides(c: Class, i: nat)
    requires Accepted(c) && c.parent.Some? && i < |Table(c.parent.value)|
    ensures i < |Table(c)| && Replaces(Table(c)[i], Table(c.parent.value)[i])
  {
    var p := c.parent.value;
    TableIsLookup(p);
    TableIsLookup(c);
    PlaceAllKeeps(Table(p), c.methods);
    var m := Table(c)[i];
    if Own(c.methods, m.name).Some? {
      var k :| 0 <= k < |c.methods| && c.methods[k] == m;
      assert Overrides(c, c.methods[k]);
    }
  }

  lemma {:induction false} GenericAncestor(c: Class, d: Class)
    requires Formed(c) && Descends(c, d)
    ensures Formed(d) && Depth(d) <= Depth(c) && Types.Ancestor(c.generic, Depth(c) - Depth(d)) == d.generic
    decreases c
  {
    if c != d { GenericAncestor(c.parent.value, d); }
  }

  /** A descendant sees a method declared in `d` with the signature of a method that `d`
      sees with the same one, such as the method it overrides, exactly when no name of
      that signature is rebound on the way through `d`. */
  lemma OverridingExact(c: Class, d: Class, m: Method, b: Method)
    requires Formed(c) && Formed(d) && Descends(c, d) && b.owner <= m.owner == Depth(d) && Seen(m, d) == Seen(b, d)
    ensures Depth(d) <= Depth(c) && Types.Ancestor(c.generic, Depth(c) - Depth(d)) == d.generic
    ensures Seen(m, c) == Seen(b, c) <==> Untouched(c, d, b)
  {
    GenericAncestor(c, d);
    var j, k := Depth(c) - Depth(d), Depth(d) - b.owner;
    OverridingSeen(c, d, m, b, j, k);
    UntouchedIs(c, d, b, j, k);
  }

  lemma OverridingSeen(c: Class, d: Class, m: Method, b: Method, j: nat, k: nat)
    requires Formed(c) && Formed(d) && m.owner + j == Depth(c) && b.owner + k == m.owner == Depth(d)
    requires d.generic == Types.Ancestor(c.generic, j) && Seen(m, d) == Seen(b, d)
    ensures Seen(m, c) == Seen(b, c) <==> Types.Kept(c.generic, j, k, b.signature)
  {
    SeenHere(d, m, b);
    SeenThrough(c.generic, d.generic, j, k, m.signature, b.signature);
    SeenFrom(m, c, j);
    SeenFrom(b, c, j + k);
  }

  /** No name of the signature is rebound on the way through `d` down to `c`. */
  predicate Untouched(c: Class, d: Class, b: Method)
    requires Formed(c) && Formed(d) && b.owner <= Depth(d) <= Depth(c)
    requires Types.Ancestor(c.generic, Depth(c) - Depth(d)) == d.generic
  {
    Types.Kept(c.generic, Depth(c) - Depth(d), Depth(d) - b.owner, b.signature)
  }

  lemma UntouchedIs(c: Class, d: Class, b: Method, j: nat, k: nat)
    requires Formed(c) && Formed(d) && b.owner <= Depth(d) <= Depth(c)
    requires j == Depth(c) - Depth(d) && k == Depth(d) - b.owner && Types.Ancestor(c.generic, j) == d.generic
    ensures Untouched(c, d, b) == Types.Kept(c.generic, j, k, b.signature)
  {}

  lemma SeenFrom(m: Method, c: Class, j: nat)
    requires Formed(c) && m.owner + j == Depth(c)
    ensures Seen(m, c) == Types.Under(c.generic, j, m.signature)
  {}

  lemma SeenHere(d: Class, m: Method, b: Method)
    requires Formed(d) && m.owner == Depth(d) && b.owner <= Depth(d) && Seen(m, d) == Seen(b, d)
    ensures m.signature == Types.Under(d.generic, Depth(d) - b.owner, b.signature)
  {
    Types.OwnMeaning(d.generic, m.signature);
  }

  lemma SeenThrough(c: Types.Class, d: Types.Class, j: nat, k: nat, s: Types.Type, t: Types.Type)
    requires j + k <= Types.Depth(c) && Types.Declared(c) && d == Types.Ancestor(c, j)
    requires k <= Types.Depth(d) && Types.Declared(d) && s == Types.Under(d, k, t)
    ensures Types.Under(c, j, s) == Types.Under(c, j + k, t)
            <==> Types.Kept(c, j, k, t)
  {
    Types.UnderTwice(c, j, k, t);
  }

  /** The names in a signature are parameters of the declaring class or concrete types. */
  predicate Scoped(m: Method, c: Class, concrete: set<Name>)
    requires m.owner <= Depth(c)
  {
    Types.Idents(m.signature) <= (set n | n in OwnerParams(m, c)) + concrete
  }

  lemma ApartBelow(m: Method, c: Class, concrete: set<Name>)
    requires Formed(c) && c.parent.Some? && m.owner <= Depth(c.parent.value)
    requires Types.Apart(c.generic, concrete) && Scoped(m, c.parent.value, concrete)
    ensures Seen(m, c) == Types.Substitute(Seen(m, c.parent.value), Direct(c)) && Scoped(m, c, concrete)
  {
    Types.BindKeys(c.generic.parent.params, c.generic.direct);
    SeenBelow(m, c);
  }

  /** A signature as a class sees it speaks of the class's own parameters. */
  lemma SeenScoped(m: Method, c: Class, concrete: set<Name>)
    requires Formed(c) && m.owner <= Depth(c) && Types.Apart(c.generic, concrete) && Scoped(m, c, concrete)
    ensures Types.Idents(Seen(m, c)) <= (set n | n in c.generic.params) + concrete
  {
    var j := Depth(c) - m.owner;
    var params, args := OwnerParams(m, c), Types.Arguments(c.generic, j);
    Types.ArgumentsScoped(c.generic, j, concrete);
    Types.BindKeys(params, args);
    forall n | n in params ensures Types.Idents(Meaning(m, c)[n]) <= (set n | n in c.generic.params) + concrete {
      Types.AncestorDeclared(c.generic, j);
      var i :| 0 <= i < |params| && params[i] == n;
      Types.BindLooksUp(params, args, i);
    }
    Types.SubstituteIdents(m.signature, Meaning(m, c), (set n | n in c.generic.params) + concrete);
  }

  /** Where no concrete type is named like a parameter of the chain, a slot keeps its
      signature through any number of overridings. */
  lemma {:induction false} ApartKeepsSignatures(c: Class, a: Class, name: Name, concrete: set<Name>)
    requires Accepted(c) && Descends(c, a) && Find(a, name).Some? && Types.Apart(c.generic, concrete)
    requires Formed(a) && Scoped(Find(a, name).value, a, concrete)
    ensures Find(c, name).Some? && Find(a, name).value.owner <= Depth(c)
    ensures Seen(Find(c, name).value, c) == Seen(Find(a, name).value, c)
    ensures Scoped(Find(c, name).value, c, concrete) && Scoped(Find(a, name).value, c, concrete)
    decreases c
  {
    if c != a {
      var p := c.parent.value;
      ApartKeepsSignatures(p, a, name, concrete);
      var m, base := Find(c, name).value, Find(p, name).value;
      ApartBelow(base, c, concrete);
      ApartBelow(Find(a, name).value, c, concrete);
      if Own(c.methods, name).Some? {
        var k :| 0 <= k < |c.methods| && c.methods[k] == m;
        assert Overrides(c, c.methods[k]);
        Types.OwnMeaning(c.generic, m.signature);
        SeenScoped(base, c, concrete);
      }
    }
  }

  /** class A { m(x U) }, for a type U; class B[U] extends A { override m(x U) };
      class C extends B[int]. */
  const BASE := Method("m", Public, false, Types.Ident("U"), 0, 0)
  const OVERRIDING := Method("m", Public, true, Types.Ident("U"), 1, 1)
  const A := Class(0, [BASE], Types.Root([]), None)
  const B := Class(1, [OVERRIDING], Types.Derived(["U"], A.generic, []), Some(A))
  const C := Class(2, [], Types.Derived([], B.generic, [Types.Fixed("int")]), Some(B))

  lemma CapturedSignatures()
    ensures Formed(C) && Seen(BASE, B) == Seen(OVERRIDING, B)
    ensures Seen(OVERRIDING, C) == Types.Fixed("int") && Seen(BASE, C) == Types.Ident("U")
  {
    assert Types.Bind([], []) == map[];
    assert Types.Bind(["U"], [Types.Ident("U")])["U"] == Types.Ident("U");
    assert Types.Bind(["U"], [Types.Fixed("int")])["U"] == Types.Fixed("int");
    assert Types.Arguments(A.generic, 0) == [] && Types.Arguments(B.generic, 1) == [];
    assert Types.Arguments(C.generic, 2) == [];
    assert Types.Arguments(B.generic, 0) == [Types.Ident("U")];
    assert Types.Arguments(C.generic, 1) == [Types.Fixed("int")];
    assert Seen(BASE, B) == Types.Ident("U") && Seen(OVERRIDING, B) == Types.Ident("U");
  }

  /** A type parameter named like a concrete type hides it from the check: the method
      in C's slot takes an int, the one in A's a U. */
  lemma CaptureBreaksOverriding()
    ensures Accepted(C) && Table(C) == [OVERRIDING] && Table(A) == [BASE]
    ensures Seen(OVERRIDING, C) == Types.Fixed("int") && Seen(BASE, C) == Types.Ident("U")
  {
    CapturedSignatures();
    assert Place([], BASE) == [BASE] && Place([BASE], OVERRIDING) == [OVERRIDING] + [];
    assert [BASE][1..] == [] && [OVERRIDING][1..] == [];
    assert PlaceAll(Place([], BASE), []) == [BASE];
    assert Table(A) == [BASE];
    assert PlaceAll(Place([BASE], OVERRIDING), []) == [OVERRIDING];
    assert Table(B) == [OVERRIDING];
    assert Find(A, "m") == Some(BASE);
    assert Overrides(A, BASE) && Overrides(B, OVERRIDING);
  }

  // ----- access -----

  /** Who may use a member: everyone, the owner and its descendants, or the owner. */
  predicate MayUse(visibility: Visibility, owner: Class, caller: Class) {
    visibility == Public || owner == caller || (visibility == Protected && Descends(caller, owner))
  }

  /** Whether code of `caller` may use a member of `owner`: the loop climbs from the
      caller. */
  method Accessible(visibility: Visibility, owner: Class, caller: Class) returns (ok: bool)
    ensures ok <==> MayUse(visibility, owner, caller)
  {
    if visibility == Public || owner == caller { return true; }
    if visibility == Protected {
      var c := Some(caller);
      while c.Some?
        invariant Descends(caller, owner) <==> c.Some? && Descends(c.value, owner)
        decreases c
      {
        if c.value == owner { return true; }
        c := c.value.parent;
      }
    }
    ok := false;
  }

  /** The ranks order visibilities by who may use a member. */
  lemma RankExact(v: Visibility, w: Visibility)
    ensures Rank(v) >= Rank(w) <==> forall owner, caller :: MayUse(w, owner, caller) ==> MayUse(v, owner, caller)
  {
    var owner, stranger := Class(0, [], Types.Root([]), None), Class(1, [], Types.Root([]), None);
    var heir := Class(2, [], Types.Root([]), Some(owner));
    assert Descends(heir, owner) && !Descends(stranger, owner);
    if Rank(v) < Rank(w) {
      var caller := if w == Public then stranger else heir;
      assert MayUse(w, owner, caller) && !MayUse(v, owner, caller) by {
        if w == Public { assert v != Public; }
      }
    }
  }

  /** So the check of a class lets a declaration hide an inherited one exactly if it says
      so, the inherited one is not private, the class sees both with one signature, and
      whoever may use the inherited one could use the new one in its place. */
  lemma OverridesExact(c: Class, m: Method, b: Method)
    requires Formed(c) && m.owner == Depth(c) && c.parent.Some? && Find(c.parent.value, m.name) == Some(b)
    ensures Overrides(c, m) <==>
            && m.overrides && b.visibility != Private && Seen(m, c) == Seen(b, c)
            && forall owner, caller :: MayUse(b.visibility, owner, caller) ==> MayUse(m.visibility, owner, caller)
  {
    RankExact(m.visibility, b.visibility);
  }
}
