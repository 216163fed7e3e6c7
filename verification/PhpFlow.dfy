/** What the PHP worklist has to compute, and the invariant it keeps on the way. */
module PhpFlow {
  import opened PhpFacts
  import opened PhpCompile
  import opened PhpPaths

  // ---- one path -------------------------------------------------------

  /** An assignment replaces what its variable held. */
  function Step(op: Op, s: State): State {
    if op.Assign? then s[op.name := Eval(op.expr, s)] else s
  }

  /** The state a run has after performing `t`. */
  function StateAfter(t: Ops): State {
    if t == [] then map[] else Step(t[|t| - 1], StateAfter(t[..|t| - 1]))
  }

  ghost predicate ReachesIn(g: Graph, entry: nat, b: nat, t: Ops, n: nat)
    decreases n
  {
    if n == 0 then b == entry && t == []
    else exists a: nat, u :: a < |g| && b in g[a].next && t == u + OpsOf(g[a].op) && ReachesIn(g, entry, a, u, n - 1)
  }

  /** A path from the entry arrives at `b` having performed `t`. */
  ghost predicate Reaches(g: Graph, entry: nat, b: nat, t: Ops) {
    exists n: nat :: ReachesIn(g, entry, b, t, n)
  }

  lemma ReachesStep(g: Graph, entry: nat, a: nat, b: nat, t: Ops)
    requires Reaches(g, entry, a, t) && a < |g| && b in g[a].next
    ensures Reaches(g, entry, b, t + OpsOf(g[a].op))
  {
    var n: nat :| ReachesIn(g, entry, a, t, n);
    assert ReachesIn(g, entry, b, t + OpsOf(g[a].op), n + 1);
  }

  lemma StateStep(t: Ops, op: Op)
    ensures StateAfter(t + OpsOf(op)) == Step(op, StateAfter(t))
  {
    if op.Nop? {
      assert t + OpsOf(op) == t;
    } else {
      assert (t + [op])[..|t|] == t;
    }
  }

  // ---- what states hold -----------------------------------------------

  predicate Holds(s: State, x: string, line: nat, k: nat) {
    Has(Look(s, x), line, k)
  }

  ghost predicate Le(s: State, s': State) {
    forall x, l, k {:trigger Holds(s, x, l, k)} {:trigger Holds(s', x, l, k)} :: Holds(s, x, l, k) ==> Holds(s', x, l, k)
  }

  lemma StepHolds(op: Op, s: State, x: string, line: nat, k: nat)
    ensures Holds(Step(op, s), x, line, k) <==>
      if op.Assign? && op.name == x then Passes(op.expr, s, line, k) else Holds(s, x, line, k)
  {
    if op.Assign? {
      EvalDistributes(op.expr, s, line, k);
    }
  }

  /** Operation `i` of `t` is the last that assigns `x`. */
  predicate LastAssigns(t: Ops, i: nat, x: string) {
    i < |t| && Assigns(t[i], x) && forall j | i < j < |t| :: !Assigns(t[j], x)
  }

  predicate Assigns(op: Op, x: string) {
    op.Assign? && op.name == x
  }

  /** After `t`, `x` has `line` for context `k`: its last assignment emits it, or copies it
      from a variable that had it by then. */
  ghost predicate Brought(t: Ops, x: string, line: nat, k: nat)
    decreases |t|, 0
  {
    exists i: nat :: LastAssigns(t, i, x) && Delivered(t[i].expr, t[..i], line, k)
  }

  ghost predicate Delivered(e: Expr, t: Ops, line: nat, k: nat)
    decreases |t|, 1
  {
    Emits(e, line, k) || exists y :: Copies(e, y, k) && Brought(t, y, line, k)
  }

  /** The state after `t` holds just what its assignments have brought. */
  lemma {:induction false} StateHolds(t: Ops, x: string, line: nat, k: nat)
    ensures Holds(StateAfter(t), x, line, k) <==> Brought(t, x, line, k)
    decreases |t|, 0
  {
    hide Eval, Step;
    if t != [] {
      var n := |t| - 1;
      StepHolds(t[n], StateAfter(t[..n]), x, line, k);
      if Assigns(t[n], x) {
        EvalDelivers(t[n].expr, t[..n], line, k);
        EvalDistributes(t[n].expr, StateAfter(t[..n]), line, k);
        assert LastAssigns(t, n, x);
      } else {
        StateHolds(t[..n], x, line, k);
        BroughtBefore(t, x, line, k);
      }
    }
  }

  /** Evaluating after `t` gives just what the expression is delivered. */
  lemma {:induction false} EvalDelivers(e: Expr, t: Ops, line: nat, k: nat)
    ensures Has(Eval(e, StateAfter(t)), line, k) <==> Delivered(e, t, line, k)
    decreases |t|, 1
  {
    hide Eval, StateAfter, Brought;
    EvalDistributes(e, StateAfter(t), line, k);
    forall y
      ensures Has(Look(StateAfter(t), y), line, k) <==> Brought(t, y, line, k)
    {
      StateHolds(t, y, line, k);
    }
  }

  lemma BroughtBefore(t: Ops, x: string, line: nat, k: nat)
    requires t != [] && !Assigns(t[|t| - 1], x)
    ensures Brought(t, x, line, k) <==> Brought(t[..|t| - 1], x, line, k)
  {
    hide Delivered;
    forall i: nat
      ensures LastAssigns(t, i, x) <==> LastAssigns(t[..|t| - 1], i, x)
      ensures i < |t| - 1 ==> t[..|t| - 1][..i] == t[..i]
    {
      LastBefore(t, i, x);
    }
  }

  lemma LastBefore(t: Ops, i: nat, x: string)
    requires t != [] && !Assigns(t[|t| - 1], x)
    ensures LastAssigns(t, i, x) <==> LastAssigns(t[..|t| - 1], i, x)
  {
  }

  lemma PassesMono(e: Expr, s: State, s': State, line: nat, k: nat)
    requires Le(s, s') && Passes(e, s, line, k)
    ensures Passes(e, s', line, k)
  {
    if !Emits(e, line, k) {
      var x :| Copies(e, x, k) && Has(Look(s, x), line, k);
      assert Holds(s, x, line, k);
      assert Holds(s', x, line, k);
    }
  }

  lemma StepMono(op: Op, s: State, s': State)
    requires Le(s, s')
    ensures Le(Step(op, s), Step(op, s'))
  {
    forall x, l, k | Holds(Step(op, s), x, l, k)
      ensures Holds(Step(op, s'), x, l, k)
    {
      StepHolds(op, s, x, l, k);
      StepHolds(op, s', x, l, k);
      if op.Assign? && op.name == x {
        PassesMono(op.expr, s, s', l, k);
      }
    }
  }

  function JoinStates(s: State, other: State): State {
    map x | x in s.Keys + other.Keys :: PhpFacts.Join(Look(s, x), Look(other, x))
  }

  lemma JoinStatesHolds(s: State, other: State, x: string, line: nat, k: nat)
    ensures Holds(JoinStates(s, other), x, line, k) <==> Holds(s, x, line, k) || Holds(other, x, line, k)
  {
    JoinHas(Look(s, x), Look(other, x), line, k);
  }

  lemma JoinStatesLe(s: State, other: State)
    ensures Le(s, JoinStates(s, other)) && Le(other, JoinStates(s, other))
  {
    forall x, l, k
      ensures Holds(s, x, l, k) || Holds(other, x, l, k) ==> Holds(JoinStates(s, other), x, l, k)
    {
      JoinStatesHolds(s, other, x, l, k);
    }
  }

  lemma JoinStatesNoZero(s: State, other: State)
    requires StateNoZero(s) && StateNoZero(other)
    ensures StateNoZero(JoinStates(s, other))
  {
    forall x | x in JoinStates(s, other)
      ensures NoZero(JoinStates(s, other)[x])
    {
      JoinNoZero(Look(s, x), Look(other, x));
    }
  }

  lemma StepNoZero(op: Op, s: State)
    requires StateNoZero(s)
    ensures StateNoZero(Step(op, s))
  {
    if op.Assign? {
      EvalNoZero(op.expr, s);
    }
  }

  /** Evaluation distributes over the join of states, through joins and sanitisers alike. */
  lemma EvalJoins(e: Expr, s: State, other: State, line: nat, k: nat)
    ensures Has(Eval(e, JoinStates(s, other)), line, k) <==> Has(PhpFacts.Join(Eval(e, s), Eval(e, other)), line, k)
  {
    hide Eval, JoinStates;
    var both := JoinStates(s, other);
    EvalDistributes(e, s, line, k);
    EvalDistributes(e, other, line, k);
    EvalDistributes(e, both, line, k);
    JoinHas(Eval(e, s), Eval(e, other), line, k);
    JoinStatesLe(s, other);
    if Passes(e, s, line, k) {
      PassesMono(e, s, both, line, k);
    }
    if Passes(e, other, line, k) {
      PassesMono(e, other, both, line, k);
    }
    if Passes(e, both, line, k) && !Emits(e, line, k) {
      var x :| Copies(e, x, k) && Has(Look(both, x), line, k);
      JoinStatesHolds(s, other, x, line, k);
      assert Holds(both, x, line, k);
      assert Passes(e, if Holds(s, x, line, k) then s else other, line, k);
    }
  }

  /** Whether the join brings some variable something new. */
  predicate Grows(s: State, other: State) {
    exists x {:trigger NewAt(s, other, x)} :: x in other && NewAt(s, other, x)
  }

  predicate NewAt(s: State, other: State, x: string) {
    x in other && PhpFacts.Join(Look(s, x), other[x]) != Look(s, x)
  }

  lemma NoGrowth(s: State, other: State)
    requires !Grows(s, other)
    ensures Le(JoinStates(s, other), s)
  {
    forall x, l, k | Holds(JoinStates(s, other), x, l, k)
      ensures Holds(s, x, l, k)
    {
      if x in other {
        assert !NewAt(s, other, x);
      } else {
        JoinStatesHolds(s, other, x, l, k);
        assert !Holds(other, x, l, k);
      }
    }
  }

  // ---- the result -----------------------------------------------------

  /** The state of `b` holds just what some path carries there. */
  ghost predicate Carried(g: Graph, entry: nat, b: nat, x: string, line: nat, k: nat) {
    exists t :: Reaches(g, entry, b, t) && Holds(StateAfter(t), x, line, k)
  }

  ghost predicate Reached(g: Graph, entry: nat, b: nat) {
    exists t :: Reaches(g, entry, b, t)
  }

  /** Nothing is held that no path carries. */
  ghost predicate SoundState(g: Graph, entry: nat, s: State, b: nat) {
    forall x, l, k {:trigger Holds(s, x, l, k)} | Holds(s, x, l, k) :: Carried(g, entry, b, x, l, k)
  }

  /** The state leaving `b` is in the states of all its successors. */
  ghost predicate Closed(g: Graph, states: seq<State>, reached: set<nat>, b: nat)
    requires b < |g| == |states|
  {
    forall i {:trigger Into(g, states, reached, b, i)} | 0 <= i < |g[b].next| :: Into(g, states, reached, b, i)
  }

  ghost predicate Into(g: Graph, states: seq<State>, reached: set<nat>, b: nat, i: nat)
    requires b < |g| == |states| && i < |g[b].next|
  {
    var c := g[b].next[i];
    c in reached && c < |states| && Le(Step(g[b].op, states[b]), states[c])
  }

  ghost predicate Good(g: Graph, entry: nat, states: seq<State>, reached: set<nat>, b: nat)
    requires b < |states|
  {
    && StateNoZero(states[b]) && SoundState(g, entry, states[b], b)
    && (b in reached ==> Reached(g, entry, b))
    && (b !in reached ==> states[b] == map[])
  }

  ghost predicate GoodStates(g: Graph, entry: nat, states: seq<State>, reached: set<nat>) {
    && |states| == |g| && entry in reached && (forall b | b in reached :: b < |g|)
    && forall b {:trigger Good(g, entry, states, reached, b)} | 0 <= b < |states| :: Good(g, entry, states, reached, b)
  }

  /** At a fixed point every path's state is in the state of its block. */
  lemma {:induction false} ClosedHolds(g: Graph, entry: nat, states: seq<State>, reached: set<nat>, b: nat, t: Ops, n: nat)
    requires |states| == |g| && entry in reached && forall a | a in reached :: a < |g| && Closed(g, states, reached, a)
    requires ReachesIn(g, entry, b, t, n)
    ensures b in reached && Le(StateAfter(t), states[b])
    decreases n
  {
    hide OpsOf;
    if n > 0 {
      var a: nat, u :| a < |g| && b in g[a].next && t == u + OpsOf(g[a].op) && ReachesIn(g, entry, a, u, n - 1);
      ClosedHolds(g, entry, states, reached, a, u, n - 1);
      var i :| 0 <= i < |g[a].next| && g[a].next[i] == b;
      assert Into(g, states, reached, a, i);
      StepMono(g[a].op, StateAfter(u), states[a]);
      StateStep(u, g[a].op);
    }
  }

  /** The states are exact: reached are the blocks a path reaches, and their states hold
      just what some path carries. */
  ghost predicate Exact(g: Graph, entry: nat, states: seq<State>, reached: set<nat>) {
    && |states| == |g| && (forall b :: b in reached <==> Reached(g, entry, b))
    && (forall b {:trigger ExactAt(g, entry, states, b)} | 0 <= b < |g| :: ExactAt(g, entry, states, b))
  }

  ghost predicate ExactAt(g: Graph, entry: nat, states: seq<State>, b: nat)
    requires b < |states|
  {
    forall x, l, k {:trigger Holds(states[b], x, l, k)} :: Holds(states[b], x, l, k) <==> Carried(g, entry, b, x, l, k)
  }

  lemma FixedIsExact(g: Graph, entry: nat, states: seq<State>, reached: set<nat>)
    requires GoodStates(g, entry, states, reached) && forall b | b in reached :: b < |g| && Closed(g, states, reached, b)
    ensures Exact(g, entry, states, reached)
  {
    forall b: nat
      ensures b in reached <==> Reached(g, entry, b)
    {
      if b in reached {
        assert Good(g, entry, states, reached, b);
      }
      if t :| Reaches(g, entry, b, t) {
        var n: nat :| ReachesIn(g, entry, b, t, n);
        ClosedHolds(g, entry, states, reached, b, t, n);
      }
    }
    forall b: nat | b < |g|
      ensures ExactAt(g, entry, states, b)
    {
      forall x, l, k
        ensures Holds(states[b], x, l, k) <==> Carried(g, entry, b, x, l, k)
      {
        assert Good(g, entry, states, reached, b);
        if t :| Reaches(g, entry, b, t) && Holds(StateAfter(t), x, l, k) {
          var n: nat :| ReachesIn(g, entry, b, t, n);
          ClosedHolds(g, entry, states, reached, b, t, n);
        }
      }
    }
  }
}
