/** The facts of the PHP may-flow analysis. */
module PhpFacts {

  const HTML: bv8 := 1
  const SQL: bv8 := 2
  const SHELL: bv8 := 4
  const HEADER: bv8 := 8
  const URL: bv8 := 16
  const JAVASCRIPT: bv8 := 32
  const ALL: bv8 := HTML | SQL | SHELL | HEADER | URL | JAVASCRIPT

  /** The number of contexts. */
  const CONTEXTS: nat := 6

  function Mask(k: nat): bv8
    requires k < 8
  {
    match k
    case 0 => 1
    case 1 => 2
    case 2 => 4
    case 3 => 8
    case 4 => 16
    case 5 => 32
    case 6 => 64
    case _ => 128
  }

  function Or(a: bv8, b: bv8): bv8 {
    a | b
  }

  predicate Bit(w: bv8, k: nat) {
    k < 8 && w & Mask(k) != 0
  }

  lemma BitsOr(a: bv8, b: bv8, k: nat)
    ensures Bit(Or(a, b), k) == (Bit(a, k) || Bit(b, k))
  {
  }

  lemma BitsClear(a: bv8, b: bv8, k: nat)
    ensures Bit(a & !b, k) == (Bit(a, k) && !Bit(b, k))
  {
  }

  lemma BitsMeet(a: bv8, b: bv8)
    ensures a & b != 0 <==> exists k :: Bit(a, k) && Bit(b, k)
  {
    if a & b != 0 {
      var k := SomeBit(a & b);
      assert Bit(a, k) && Bit(b, k);
    }
  }

  lemma SomeBit(w: bv8) returns (k: nat)
    requires w != 0
    ensures Bit(w, k)
  {
    k := if w & 1 != 0 then 0 else if w & 2 != 0 then 1 else if w & 4 != 0 then 2 else if w & 8 != 0 then 3
      else if w & 16 != 0 then 4 else if w & 32 != 0 then 5 else if w & 64 != 0 then 6 else 7;
  }

  lemma BitsEqual(a: bv8, b: bv8)
    requires forall k | 0 <= k < 8 :: Bit(a, k) == Bit(b, k)
    ensures a == b
  {
    assert Bit(a, 0) == Bit(b, 0) && Bit(a, 1) == Bit(b, 1) && Bit(a, 2) == Bit(b, 2) && Bit(a, 3) == Bit(b, 3);
    assert Bit(a, 4) == Bit(b, 4) && Bit(a, 5) == Bit(b, 5) && Bit(a, 6) == Bit(b, 6) && Bit(a, 7) == Bit(b, 7);
  }

  lemma BitsOfAll(k: nat)
    ensures Bit(ALL, k) <==> k < CONTEXTS
  {
  }

  // ---- facts ----------------------------------------------------------

  /** The contexts each source line may still harm. */
  type Fact = map<nat, bv8>

  function Get(f: Fact, line: nat): bv8 {
    if line in f then f[line] else 0
  }

  predicate Has(f: Fact, line: nat, k: nat) {
    Bit(Get(f, line), k)
  }

  function Join(f: Fact, other: Fact): Fact {
    map l | l in f.Keys + other.Keys :: Or(Get(f, l), Get(other, l))
  }

  function Clear(f: Fact, bits: bv8): Fact {
    map l | l in f && f[l] & !bits != 0 :: f[l] & !bits
  }

  /** No line is kept without a context. */
  predicate NoZero(f: Fact) {
    forall l | l in f :: f[l] != 0
  }

  lemma JoinHas(f: Fact, other: Fact, line: nat, k: nat)
    ensures Has(Join(f, other), line, k) <==> Has(f, line, k) || Has(other, line, k)
  {
    BitsOr(Get(f, line), Get(other, line), k);
  }

  lemma ClearHas(f: Fact, bits: bv8, line: nat, k: nat)
    ensures Has(Clear(f, bits), line, k) <==> Has(f, line, k) && !Bit(bits, k)
  {
    BitsClear(Get(f, line), bits, k);
  }

  lemma JoinNoZero(f: Fact, other: Fact)
    requires NoZero(f) && NoZero(other)
    ensures NoZero(Join(f, other))
  {
    forall l | l in Join(f, other)
      ensures Join(f, other)[l] != 0
    {
      OrZero(Get(f, l), Get(other, l));
    }
  }

  lemma OrZero(a: bv8, b: bv8)
    ensures Or(a, b) == 0 <==> a == 0 && b == 0
  {
  }

  /** Facts without empty lines are equal when they hold the same. */
  lemma FactsEqual(f: Fact, f': Fact)
    requires NoZero(f) && NoZero(f') && forall l, k :: Has(f, l, k) <==> Has(f', l, k)
    ensures f == f'
  {
    forall l: nat
      ensures Get(f, l) == Get(f', l)
    {
      forall k: nat | k < 8
        ensures Bit(Get(f, l), k) == Bit(Get(f', l), k)
      {
        assert Has(f, l, k) <==> Has(f', l, k);
      }
      BitsEqual(Get(f, l), Get(f', l));
    }
    forall l: nat
      ensures l in f <==> l in f'
    {
      assert Get(f, l) == Get(f', l);
    }
    forall l | l in f
      ensures f[l] == f'[l]
    {
      assert Get(f, l) == Get(f', l);
    }
  }

  /** Adds to `f` line by line. */
  method JoinFact(f: Fact, other: Fact) returns (r: Fact)
    ensures r == Join(f, other)
  {
    hide Or;
    r := f;
    var rest := other.Keys;
    while rest != {}
      invariant rest <= other.Keys && r.Keys == f.Keys + (other.Keys - rest)
      invariant forall l | l in r :: r[l] == if l in other && l !in rest then Or(Get(f, l), other[l]) else f[l]
    {
      var l :| l in rest;
      r := r[l := Or(Get(r, l), other[l])];
      rest := rest - {l};
    }
    forall l | l in r
      ensures r[l] == Or(Get(f, l), Get(other, l))
    {
      OrNothing(Get(f, l));
    }
  }

  lemma OrNothing(a: bv8)
    ensures Or(a, 0) == a
  {
  }

  // ---- expressions ----------------------------------------------------

  /** For every variable, the lines its value may come from and what it is not safe for. */
  type State = map<string, Fact>

  function Look(s: State, x: string): Fact {
    if x in s then s[x] else map[]
  }

  datatype Expr =
    | Clean
    | Source(line: nat)
    | Var(name: string)
    | Joined(parts: seq<Expr>)
    | Sanitise(inner: Expr, bits: bv8)

  function Eval(e: Expr, s: State): Fact
    decreases e, 1, 0
  {
    match e
    case Clean => map[]
    case Source(line) => map[line := ALL]
    case Var(x) => Look(s, x)
    case Joined(parts) => EvalParts(e, |parts|, s)
    case Sanitise(inner, bits) => Clear(Eval(inner, s), bits)
  }

  function EvalParts(e: Expr, n: nat, s: State): Fact
    requires e.Joined? && n <= |e.parts|
    decreases e, 0, n
  {
    if n == 0 then map[] else Join(EvalParts(e, n - 1, s), Eval(e.parts[n - 1], s))
  }

  /** The expression itself is a source of line `line` for context `k`. */
  predicate Emits(e: Expr, line: nat, k: nat) {
    match e
    case Source(l) => l == line && k < CONTEXTS
    case Joined(parts) => exists i :: 0 <= i < |parts| && Emits(parts[i], line, k)
    case Sanitise(inner, bits) => Emits(inner, line, k) && !Bit(bits, k)
    case _ => false
  }

  /** The expression passes on what `x` holds for context `k`. */
  predicate Copies(e: Expr, x: string, k: nat) {
    match e
    case Var(y) => x == y
    case Joined(parts) => exists i :: 0 <= i < |parts| && Copies(parts[i], x, k)
    case Sanitise(inner, bits) => Copies(inner, x, k) && !Bit(bits, k)
    case _ => false
  }

  /** The value holds what the expression emits and what some variable it copies holds:
      evaluation distributes over joins of states. */
  ghost predicate Passes(e: Expr, s: State, line: nat, k: nat) {
    Emits(e, line, k) || exists x :: Copies(e, x, k) && Has(Look(s, x), line, k)
  }

  lemma {:induction false} EvalDistributes(e: Expr, s: State, line: nat, k: nat)
    ensures Has(Eval(e, s), line, k) <==> Passes(e, s, line, k)
    decreases e, 1, 0
  {
    match e
    case Clean =>
    case Source(l) => BitsOfAll(k);
    case Var(x) => assert Copies(e, x, k);
    case Joined(parts) =>
      PartsDistribute(e, |parts|, s, line, k);
      if x :| Copies(e, x, k) && Has(Look(s, x), line, k) {
        var i :| 0 <= i < |parts| && Copies(parts[i], x, k);
        assert Passes(parts[i], s, line, k);
      }
      if i :| 0 <= i < |parts| && Emits(parts[i], line, k) {
        assert Passes(parts[i], s, line, k);
      }
      if i :| 0 <= i < |parts| && Passes(parts[i], s, line, k) {
        if x :| Copies(parts[i], x, k) && Has(Look(s, x), line, k) {
          assert Copies(e, x, k);
        }
      }
    case Sanitise(inner, bits) =>
      ClearHas(Eval(inner, s), bits, line, k);
      EvalDistributes(inner, s, line, k);
      if x :| Copies(inner, x, k) && Has(Look(s, x), line, k) && !Bit(bits, k) {
        assert Copies(e, x, k);
      }
  }

  lemma {:induction false} PartsDistribute(e: Expr, n: nat, s: State, line: nat, k: nat)
    requires e.Joined? && n <= |e.parts|
    ensures Has(EvalParts(e, n, s), line, k) <==> exists i :: 0 <= i < n && Passes(e.parts[i], s, line, k)
    decreases e, 0, n
  {
    hide Passes;
    if n > 0 {
      PartsDistribute(e, n - 1, s, line, k);
      EvalDistributes(e.parts[n - 1], s, line, k);
      JoinHas(EvalParts(e, n - 1, s), Eval(e.parts[n - 1], s), line, k);
    }
  }

  predicate StateNoZero(s: State) {
    forall x | x in s :: NoZero(s[x])
  }

  lemma {:induction false} EvalNoZero(e: Expr, s: State)
    requires StateNoZero(s)
    ensures NoZero(Eval(e, s))
    decreases e, 1, 0
  {
    match e
    case Joined(parts) => PartsNoZero(e, |parts|, s);
    case Sanitise(inner, bits) => EvalNoZero(inner, s);
    case _ =>
  }

  lemma {:induction false} PartsNoZero(e: Expr, n: nat, s: State)
    requires StateNoZero(s) && e.Joined? && n <= |e.parts|
    ensures NoZero(EvalParts(e, n, s))
    decreases e, 0, n
  {
    if n > 0 {
      PartsNoZero(e, n - 1, s);
      EvalNoZero(e.parts[n - 1], s);
      JoinNoZero(EvalParts(e, n - 1, s), Eval(e.parts[n - 1], s));
    }
  }
}
