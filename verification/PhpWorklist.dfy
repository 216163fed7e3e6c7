/** The worklist of the PHP solver as steps on its states and its queue. */
module PhpWorklist {
  import opened PhpFacts
  import opened PhpCompile
  import opened PhpFlow

  const STEP_BUDGET: nat := 50_000
  const NAME_BUDGET: nat := 512

  datatype Work = Work(states: seq<State>, reached: set<nat>, queue: seq<nat>)

  /** What leaves a block that is entered with `s`: an assigned variable holds what its
      expression passes on, and the others what they held. */
  ghost predicate Leaving(op: Op, s: State, out: State) {
    && StateNoZero(out)
    && (forall x :: x in out <==> x in s || (op.Assign? && op.name == x))
    && (forall x, l, k {:trigger Holds(out, x, l, k)} :: Holds(out, x, l, k) <==>
          if op.Assign? && op.name == x then Passes(op.expr, s, l, k) else Holds(s, x, l, k))
  }

  ghost predicate Merged(s: State, out: State, s': State) {
    && StateNoZero(s')
    && (forall x :: x in s' <==> x in s || x in out)
    && (forall x, l, k {:trigger Holds(s', x, l, k)} :: Holds(s', x, l, k) <==> Holds(s, x, l, k) || Holds(out, x, l, k))
  }

  ghost predicate Brings(s: State, out: State) {
    exists x, l, k {:trigger Holds(out, x, l, k)} :: Holds(out, x, l, k) && !Holds(s, x, l, k)
  }

  /** Block `c` is given `out`, and queued if that is new to it and it is not queued yet. */
  ghost predicate Gives(c: nat, out: State, w: Work, w': Work) {
    && c < |w.states| == |w'.states|
    && Merged(w.states[c], out, w'.states[c])
    && (forall b | 0 <= b < |w.states| && b != c :: w'.states[b] == w.states[b])
    && w'.reached == w.reached + {c}
    && w'.queue == if c !in w.queue && (c !in w.reached || Brings(w.states[c], out)) then w.queue + [c] else w.queue
  }

  ghost predicate GivesAll(next: seq<nat>, out: State, w: Work, w': Work) {
    if next == [] then w' == w
    else
      var init, last := next[..|next| - 1], next[|next| - 1];
      exists w1 :: GivesAll(init, out, w, w1) && Gives(last, out, w1, w')
  }

  /** The first block of the queue passes on what leaves it. */
  ghost predicate Transfer(g: Graph, w: Work, w': Work) {
    exists out :: Leaves(g, w, out) && |out| <= NAME_BUDGET && GivesAll(g[w.queue[0]].next, out, w.(queue := w.queue[1..]), w')
  }

  ghost predicate Leaves(g: Graph, w: Work, out: State) {
    w.queue != [] && w.queue[0] < |g| == |w.states| && Leaving(g[w.queue[0]].op, w.states[w.queue[0]], out)
  }

  function Start(g: Graph, entry: nat): Work {
    Work(seq(|g|, _ => map[]), {entry}, [entry])
  }

  ghost predicate After(g: Graph, entry: nat, w: Work, n: nat)
    decreases n
  {
    if n == 0 then w == Start(g, entry)
    else exists w0 :: After(g, entry, w0, n - 1) && Transfer(g, w0, w)
  }

  /** One more transfer begins after the last that is allowed. */
  ghost predicate OutOfSteps(g: Graph, entry: nat) {
    exists w :: After(g, entry, w, STEP_BUDGET) && w.queue != []
  }

  /** Within the allowed transfers, what leaves a block has too many variables. */
  ghost predicate OutOfNames(g: Graph, entry: nat) {
    exists w, n: nat, out :: n < STEP_BUDGET && After(g, entry, w, n) && Leaves(g, w, out) && |out| > NAME_BUDGET
  }

  /** The queue is empty after at most the allowed transfers. */
  ghost predicate Finishes(g: Graph, entry: nat) {
    exists w, n: nat :: n <= STEP_BUDGET && After(g, entry, w, n) && w.queue == []
  }

  // ---- there is one way to go on --------------------------------------

  lemma StatesEqual(s: State, s': State)
    requires StateNoZero(s) && StateNoZero(s') && s.Keys == s'.Keys
    requires forall x, l, k {:trigger Holds(s, x, l, k)} :: Holds(s, x, l, k) <==> Holds(s', x, l, k)
    ensures s == s'
  {
    forall x | x in s
      ensures s[x] == s'[x]
    {
      forall l, k
        ensures Has(s[x], l, k) <==> Has(s'[x], l, k)
      {
        assert Holds(s, x, l, k) <==> Holds(s', x, l, k);
      }
      FactsEqual(s[x], s'[x]);
    }
  }

  lemma LeavingOnce(op: Op, s: State, out: State, out': State)
    requires Leaving(op, s, out) && Leaving(op, s, out')
    ensures out == out'
  {
    hide Passes, Holds, StateNoZero;
    assert out.Keys == out'.Keys;
    StatesEqual(out, out');
  }

  lemma MergedOnce(s: State, out: State, s1: State, s2: State)
    requires Merged(s, out, s1) && Merged(s, out, s2)
    ensures s1 == s2
  {
    hide Holds, StateNoZero;
    assert s1.Keys == s2.Keys;
    StatesEqual(s1, s2);
  }

  lemma GivesOnce(c: nat, out: State, w: Work, w1: Work, w2: Work)
    requires Gives(c, out, w, w1) && Gives(c, out, w, w2)
    ensures w1 == w2
  {
    hide Merged, Brings;
    MergedOnce(w.states[c], out, w1.states[c], w2.states[c]);
    assert w1.states == w2.states;
  }

  lemma {:induction false} GivesAllOnce(next: seq<nat>, out: State, w: Work, w1: Work, w2: Work)
    requires GivesAll(next, out, w, w1) && GivesAll(next, out, w, w2)
    ensures w1 == w2
    decreases |next|
  {
    hide Gives;
    if next != [] {
      var (init, c) := (next[..|next| - 1], next[|next| - 1]);
      var v1 :| GivesAll(init, out, w, v1) && Gives(c, out, v1, w1);
      var v2 :| GivesAll(init, out, w, v2) && Gives(c, out, v2, w2);
      GivesAllOnce(init, out, w, v1, v2);
      GivesOnce(c, out, v1, w1, w2);
    }
  }

  lemma TransferOnce(g: Graph, w: Work, w1: Work, w2: Work)
    requires Transfer(g, w, w1) && Transfer(g, w, w2)
    ensures w1 == w2
  {
    hide Leaving, GivesAll;
    var out1 :| Leaves(g, w, out1) && GivesAll(g[w.queue[0]].next, out1, w.(queue := w.queue[1..]), w1);
    var out2 :| Leaves(g, w, out2) && GivesAll(g[w.queue[0]].next, out2, w.(queue := w.queue[1..]), w2);
    LeavingOnce(g[w.queue[0]].op, w.states[w.queue[0]], out1, out2);
    GivesAllOnce(g[w.queue[0]].next, out1, w.(queue := w.queue[1..]), w1, w2);
  }

  lemma {:induction false} AfterOnce(g: Graph, entry: nat, w: Work, w': Work, n: nat)
    requires After(g, entry, w, n) && After(g, entry, w', n)
    ensures w == w'
    decreases n
  {
    hide Transfer;
    if n > 0 {
      var w0 :| After(g, entry, w0, n - 1) && Transfer(g, w0, w);
      var w0' :| After(g, entry, w0', n - 1) && Transfer(g, w0', w');
      AfterOnce(g, entry, w0, w0', n - 1);
      TransferOnce(g, w0, w, w');
    }
  }

  /** Whatever goes on longer has gone on from here. */
  lemma {:induction false} AfterLonger(g: Graph, entry: nat, w: Work, n: nat, w': Work, m: nat) returns (w1: Work)
    requires After(g, entry, w, n) && After(g, entry, w', m) && n < m
    ensures Transfer(g, w, w1)
    decreases m
  {
    hide Transfer;
    var w0 :| After(g, entry, w0, m - 1) && Transfer(g, w0, w');
    if n == m - 1 {
      AfterOnce(g, entry, w, w0, n);
      w1 := w';
    } else {
      w1 := AfterLonger(g, entry, w, n, w0, m - 1);
    }
  }

  /** Where a worklist cannot go on: it is out of steps or of names, or it has finished. */
  ghost predicate Halts(g: Graph, entry: nat, w: Work, n: nat) {
    n <= STEP_BUDGET && After(g, entry, w, n) && !Within(g, w, n)
  }

  ghost predicate Within(g: Graph, w: Work, n: nat) {
    n < STEP_BUDGET && w.queue != [] && !exists out :: Leaves(g, w, out) && |out| > NAME_BUDGET
  }

  lemma GoesWithin(g: Graph, w: Work, w': Work, n: nat)
    requires Transfer(g, w, w') && n < STEP_BUDGET
    ensures Within(g, w, n)
  {
    hide Leaving, GivesAll;
    var out :| Leaves(g, w, out) && |out| <= NAME_BUDGET;
    if out' :| Leaves(g, w, out') && |out'| > NAME_BUDGET {
      LeavingOnce(g[w.queue[0]].op, w.states[w.queue[0]], out, out');
    }
  }

  lemma HaltsOnce(g: Graph, entry: nat, w: Work, n: nat, w': Work, n': nat)
    requires Halts(g, entry, w, n) && Halts(g, entry, w', n')
    ensures w == w' && n == n'
  {
    hide After, Within, Transfer;
    if n < n' {
      var w1 := AfterLonger(g, entry, w, n, w', n');
      GoesWithin(g, w, w1, n);
    } else if n' < n {
      var w1 := AfterLonger(g, entry, w', n', w, n);
      GoesWithin(g, w', w1, n');
    } else {
      AfterOnce(g, entry, w, w', n);
    }
  }

  /** A worklist halts in one way only. */
  lemma HaltsOneWay(g: Graph, entry: nat, w: Work, n: nat)
    requires Halts(g, entry, w, n)
    ensures OutOfSteps(g, entry) <==> n == STEP_BUDGET && w.queue != []
    ensures OutOfNames(g, entry) <==> n < STEP_BUDGET && exists out :: Leaves(g, w, out) && |out| > NAME_BUDGET
    ensures Finishes(g, entry) <==> w.queue == []
  {
    hide After, Leaving;
    if w' :| After(g, entry, w', STEP_BUDGET) && w'.queue != [] {
      HaltsOnce(g, entry, w, n, w', STEP_BUDGET);
    }
    if w', n': nat, out :| n' < STEP_BUDGET && After(g, entry, w', n') && Leaves(g, w', out) && |out| > NAME_BUDGET {
      HaltsOnce(g, entry, w, n, w', n');
    }
    if w', n': nat :| n' <= STEP_BUDGET && After(g, entry, w', n') && w'.queue == [] {
      HaltsOnce(g, entry, w, n, w', n');
    }
  }

  // ---- the functions of the solver are these steps ---------------------

  lemma StepLeaves(op: Op, s: State)
    requires StateNoZero(s)
    ensures Leaving(op, s, Step(op, s))
  {
    hide Passes, Eval, StateNoZero;
    StepNoZero(op, s);
    forall x, l, k
      ensures Holds(Step(op, s), x, l, k) <==> if op.Assign? && op.name == x then Passes(op.expr, s, l, k) else Holds(s, x, l, k)
    {
      StepHolds(op, s, x, l, k);
    }
  }

  lemma JoinMerges(s: State, out: State)
    requires StateNoZero(s) && StateNoZero(out)
    ensures Merged(s, out, JoinStates(s, out))
  {
    hide PhpFacts.Join, StateNoZero;
    JoinStatesNoZero(s, out);
    forall x, l, k
      ensures Holds(JoinStates(s, out), x, l, k) <==> Holds(s, x, l, k) || Holds(out, x, l, k)
    {
      JoinStatesHolds(s, out, x, l, k);
    }
  }

  lemma {:induction false} SomeDifference(f: Fact, f': Fact) returns (l: nat, k: nat)
    requires NoZero(f) && NoZero(f') && f != f'
    ensures Has(f, l, k) != Has(f', l, k)
  {
    if forall l, k :: Has(f, l, k) <==> Has(f', l, k) {
      FactsEqual(f, f');
    }
    l, k :| Has(f, l, k) != Has(f', l, k);
  }

  /** A join brings something new just when it makes a fact another. */
  lemma GrowsBrings(s: State, out: State)
    requires StateNoZero(s) && StateNoZero(out)
    ensures Grows(s, out) <==> Brings(s, out)
  {
    hide PhpFacts.Join, Has;
    if Grows(s, out) {
      var x :| x in out && NewAt(s, out, x);
      JoinNoZero(Look(s, x), out[x]);
      var l, k := SomeDifference(PhpFacts.Join(Look(s, x), out[x]), Look(s, x));
      JoinHas(Look(s, x), out[x], l, k);
      assert Holds(out, x, l, k) && !Holds(s, x, l, k);
    } else {
      NoGrowth(s, out);
      JoinStatesLe(s, out);
    }
  }

  lemma GivesJoin(c: nat, out: State, w: Work, w': Work)
    requires c < |w.states| && StateNoZero(w.states[c]) && StateNoZero(out)
    requires w'.states == w.states[c := JoinStates(w.states[c], out)] && w'.reached == w.reached + {c}
    requires w'.queue == if c !in w.queue && (c !in w.reached || Grows(w.states[c], out)) then w.queue + [c] else w.queue
    ensures Gives(c, out, w, w')
  {
    hide StateNoZero, Grows, Brings, Merged, JoinStates;
    JoinMerges(w.states[c], out);
    GrowsBrings(w.states[c], out);
  }

  lemma GivesMore(next: seq<nat>, i: nat, out: State, w: Work, w1: Work, w': Work)
    requires i < |next| && GivesAll(next[..i], out, w, w1) && Gives(next[i], out, w1, w')
    ensures GivesAll(next[..i + 1], out, w, w')
  {
    hide Gives;
    var more := next[..i + 1];
    assert more[..|more| - 1] == next[..i] && more[|more| - 1] == next[i];
  }
}
