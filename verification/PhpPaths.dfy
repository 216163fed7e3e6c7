/** The compiled graph of a PHP statement spells exactly its runs: from the head of the
    statement, the paths that leave to the block that comes next, to the loop's edges, or
    that end, are the runs that complete, jump or return. */
module PhpPaths {
  import opened Wrappers
  import opened PhpFacts
  import opened PhpCompile

  /** Where a path stops: at a block below the statement's own, at a block without a
      successor, or on a block with the given operation, which it has not performed. */
  datatype Where = Out(block: nat) | End | On(op: Op)

  function OpsOf(op: Op): Ops {
    if op.Nop? then [] else [op]
  }

  /** A path of `n` edges, through blocks from `lo` on, that performs `t` and stops. */
  ghost predicate Arrives(g: Graph, lo: nat, b: nat, t: Ops, w: Where, n: nat)
    decreases n
  {
    if n == 0 then Stops(g, lo, b, t, w)
    else
      lo <= b < |g| && exists c, u :: c in g[b].next && t == OpsOf(g[b].op) + u && Arrives(g, lo, c, u, w, n - 1)
  }

  ghost predicate Stops(g: Graph, lo: nat, b: nat, t: Ops, w: Where) {
    match w
    case Out(d) => b == d && b < lo && t == []
    case End => lo <= b < |g| && g[b].next == [] && t == OpsOf(g[b].op)
    case On(op) => lo <= b < |g| && !op.Nop? && g[b].op == op && t == []
  }

  ghost predicate Goes(g: Graph, lo: nat, b: nat, t: Ops, w: Where) {
    exists n: nat :: Arrives(g, lo, b, t, w, n)
  }

  predicate InRange(g: Graph) {
    forall b, i | 0 <= b < |g| && 0 <= i < |g[b].next| :: g[b].next[i] < |g|
  }

  predicate LoopIn(loop: Loop, n: nat) {
    loop.Loop? ==> loop.br < n && loop.co < n
  }

  /** Where a run that ends as `o` goes on. */
  predicate LeadsTo(o: Outcome, next: nat, loop: Loop, w: Where) {
    match o
    case Normal => w == Out(next)
    case Broke => loop.Loop? && w == Out(loop.br)
    case Continued => loop.Loop? && w == Out(loop.co)
    case Returned => w == End
    case Before(op) => w == On(op)
  }

  // ---- paths ----------------------------------------------------------

  lemma StepGoes(g: Graph, lo: nat, b: nat, c: nat, u: Ops, w: Where)
    requires lo <= b < |g| && c in g[b].next && Goes(g, lo, c, u, w)
    ensures Goes(g, lo, b, OpsOf(g[b].op) + u, w)
  {
    var n: nat :| Arrives(g, lo, c, u, w, n);
    assert Arrives(g, lo, b, OpsOf(g[b].op) + u, w, n + 1);
  }

  lemma StopGoes(g: Graph, lo: nat, b: nat, t: Ops, w: Where)
    requires Stops(g, lo, b, t, w)
    ensures Goes(g, lo, b, t, w)
  {
    assert Arrives(g, lo, b, t, w, 0);
  }

  /** A block below `lo` is where the path stops. */
  lemma OutStops(g: Graph, lo: nat, b: nat, t: Ops, w: Where)
    requires b < lo && Goes(g, lo, b, t, w)
    ensures w == Out(b) && t == []
  {
    var n: nat :| Arrives(g, lo, b, t, w, n);
  }

  lemma {:induction false} Join(g: Graph, lo: nat, lo1: nat, b: nat, t1: Ops, m: nat, t2: Ops, w: Where)
    requires lo <= lo1 && Goes(g, lo1, b, t1, Out(m)) && Goes(g, lo, m, t2, w)
    ensures Goes(g, lo, b, t1 + t2, w)
  {
    var n: nat :| Arrives(g, lo1, b, t1, Out(m), n);
    JoinSteps(g, lo, lo1, b, t1, m, t2, w, n);
  }

  lemma {:induction false} JoinSteps(g: Graph, lo: nat, lo1: nat, b: nat, t1: Ops, m: nat, t2: Ops, w: Where, n: nat)
    requires lo <= lo1 && Arrives(g, lo1, b, t1, Out(m), n) && Goes(g, lo, m, t2, w)
    ensures Goes(g, lo, b, t1 + t2, w)
    decreases n
  {
    hide Goes, OpsOf;
    if n == 0 {
      assert t1 + t2 == t2;
    } else {
      var c, u :| c in g[b].next && t1 == OpsOf(g[b].op) + u && Arrives(g, lo1, c, u, Out(m), n - 1);
      JoinSteps(g, lo, lo1, c, u, m, t2, w, n - 1);
      StepGoes(g, lo, b, c, u + t2, w);
      Assoc(OpsOf(g[b].op), u, t2);
    }
  }

  /** A path that stays above `lo1` is one above `lo`, if it does not leave between. */
  lemma {:induction false} Deepen(g: Graph, lo: nat, lo1: nat, b: nat, t: Ops, w: Where)
    requires lo <= lo1 && Goes(g, lo1, b, t, w) && (w.Out? ==> w.block < lo)
    ensures Goes(g, lo, b, t, w)
  {
    if w.Out? {
      StopGoes(g, lo, w.block, [], w);
      Join(g, lo, lo1, b, t, w.block, [], w);
      assert t + [] == t;
    } else {
      var n: nat :| Arrives(g, lo1, b, t, w, n);
      DeepenSteps(g, lo, lo1, b, t, w, n);
    }
  }

  lemma {:induction false} DeepenSteps(g: Graph, lo: nat, lo1: nat, b: nat, t: Ops, w: Where, n: nat)
    requires lo <= lo1 && Arrives(g, lo1, b, t, w, n) && !w.Out?
    ensures Arrives(g, lo, b, t, w, n)
    decreases n
  {
    hide OpsOf;
    if n > 0 {
      var c, u :| c in g[b].next && t == OpsOf(g[b].op) + u && Arrives(g, lo1, c, u, w, n - 1);
      DeepenSteps(g, lo, lo1, c, u, w, n - 1);
    }
  }

  /** A path above `lo` up to where it first leaves the blocks above `lo1`. */
  lemma {:induction false} Split(g: Graph, lo: nat, lo1: nat, b: nat, t: Ops, w: Where, n: nat) returns (m: nat, t1: Ops, t2: Ops, k: nat)
    requires lo <= lo1 && Arrives(g, lo, b, t, w, n)
    ensures (Goes(g, lo1, b, t, w) && !w.Out?) ||
      (m < lo1 && t == t1 + t2 && k <= n && Goes(g, lo1, b, t1, Out(m)) && Arrives(g, lo, m, t2, w, k))
    decreases n
  {
    hide Goes, OpsOf;
    m, t1, t2, k := b, [], t, n;
    if b < lo1 {
      StopGoes(g, lo1, b, [], Out(b));
      assert t == t1 + t2;
    } else if n == 0 {
      StopGoes(g, lo1, b, t, w);
    } else {
      var c, u :| c in g[b].next && t == OpsOf(g[b].op) + u && Arrives(g, lo, c, u, w, n - 1);
      m, t1, t2, k := Split(g, lo, lo1, c, u, w, n - 1);
      if Goes(g, lo1, c, u, w) && !w.Out? {
        StepGoes(g, lo1, b, c, u, w);
      } else {
        StepGoes(g, lo1, b, c, t1, Out(m));
        Assoc(OpsOf(g[b].op), t1, t2);
        t1 := OpsOf(g[b].op) + t1;
      }
    }
  }

  /** The blocks from `lo` to `hi` are the same in both graphs and lead no higher. */
  predicate Agree(g: Graph, g': Graph, lo: nat, hi: nat) {
    && hi <= |g| && hi <= |g'|
    && forall b | lo <= b < hi :: g[b] == g'[b] && forall i | 0 <= i < |g[b].next| :: g[b].next[i] < hi
  }

  lemma {:induction false} ArrivesSame(g: Graph, g': Graph, lo: nat, hi: nat, b: nat, t: Ops, w: Where, n: nat)
    requires Agree(g, g', lo, hi) && b < hi && Arrives(g, lo, b, t, w, n)
    ensures Arrives(g', lo, b, t, w, n)
    decreases n
  {
    if n > 0 {
      var c, u :| c in g[b].next && t == OpsOf(g[b].op) + u && Arrives(g, lo, c, u, w, n - 1);
      ArrivesSame(g, g', lo, hi, c, u, w, n - 1);
    }
  }

  lemma GoesSame(g: Graph, g': Graph, lo: nat, hi: nat, b: nat, t: Ops, w: Where)
    requires Agree(g, g', lo, hi) && b < hi
    ensures Goes(g, lo, b, t, w) <==> Goes(g', lo, b, t, w)
  {
    if Goes(g, lo, b, t, w) {
      var n: nat :| Arrives(g, lo, b, t, w, n);
      ArrivesSame(g, g', lo, hi, b, t, w, n);
    }
    if Goes(g', lo, b, t, w) {
      var n: nat :| Arrives(g', lo, b, t, w, n);
      ArrivesSame(g', g, lo, hi, b, t, w, n);
    }
  }

  // ---- the frame ------------------------------------------------------

  /** What is asked of the block a statement is compiled against. */
  predicate Context(g: Graph, next: nat, loop: Loop) {
    InRange(g) && next < |g| && LoopIn(loop, |g|)
  }

  /** The statement has a head, and the blocks there before are as they were. */
  predicate Compiled(g: Graph, r: (Graph, Result<nat, string>)) {
    && r.1.Ok? && |g| <= |r.0| && r.0[..|g|] == g && InRange(r.0) && r.1.value < |r.0|
  }

  lemma AddFrame(g: Graph, b: Block)
    requires InRange(g) && (forall i | 0 <= i < |b.next| :: b.next[i] <= |g|) && Add(g, b).1.Ok?
    ensures Compiled(g, Add(g, b)) && Add(g, b) == (g + [b], Ok(|g|))
  {
  }

  lemma CompiledTrans(g: Graph, g1: Graph, h: nat, r: (Graph, Result<nat, string>))
    requires Compiled(g, (g1, Ok(h))) && Compiled(g1, r)
    ensures Compiled(g, r)
  {
    assert r.0[..|g|] == r.0[..|g1|][..|g|];
  }

  lemma {:induction false} CompileFrame(g: Graph, s: Stmt, next: nat, loop: Loop)
    requires Context(g, next, loop) && Compile(g, s, next, loop).1.Ok?
    ensures Compiled(g, Compile(g, s, next, loop))
    decreases s, 1
  {
    hide CompileAll, CompileAlts;
    match s
    case Compound(k) => CompileAllFrame(g, k, next, loop);
    case Skip =>
    case If(cond, body, alts) =>
      CompileFrame(g, body, next, loop);
      var (g1, yes) := Compile(g, body, next, loop);
      CompileAltsFrame(g1, alts, next, loop);
      var (g2, no) := CompileAlts(g1, alts, next, loop);
      CompiledTrans(g, g1, yes.value, (g2, no));
      AddFrame(g2, Block(Nop, [yes.value, no.value]));
      CompiledTrans(g, g2, no.value, Add(g2, Block(Nop, [yes.value, no.value])));
    case While(cond, body) => WhileFrame(g, body, next);
    case Break(_) => AddFrame(g, Block(Nop, [loop.br]));
    case Continue(_) => AddFrame(g, Block(Nop, [loop.co]));
    case Leave(exprs) => AddFrame(g, Block(Nop, []));
    case Do(op) => AddFrame(g, Block(op.value, [next]));
  }

  /** A loop's blocks before its condition has its successors. */
  function LoopBlocks(g: Graph, body: Stmt, next: nat): (Graph, Result<nat, string>) {
    Compile(g + [Block(Nop, [])], body, |g|, Loop(next, |g|))
  }

  function LoopGraph(g: Graph, body: Stmt, next: nat): Graph
    requires LoopBlocks(g, body, next).1.Ok?
  {
    var (g2, head) := LoopBlocks(g, body, next);
    g2[|g| := Block(Nop, [head.value, next])]
  }

  lemma {:induction false} WhileFrame(g: Graph, body: Stmt, next: nat)
    requires InRange(g) && next < |g| && |g| < BLOCK_BUDGET && LoopBlocks(g, body, next).1.Ok?
    ensures Compiled(g, (LoopGraph(g, body, next), Ok(|g|)))
    ensures Compiled(g + [Block(Nop, [])], LoopBlocks(g, body, next))
    decreases body, 2
  {
    var gh := g + [Block(Nop, [])];
    AddFrame(g, Block(Nop, []));
    CompileFrame(gh, body, |g|, Loop(next, |g|));
    var (g2, head) := LoopBlocks(g, body, next);
    var g3 := LoopGraph(g, body, next);
    assert g3[..|g|] == g2[..|gh|][..|g|];
  }

  lemma {:induction false} CompileAllFrame(g: Graph, k: Stmts, next: nat, loop: Loop)
    requires Context(g, next, loop) && CompileAll(g, k, next, loop).1.Ok?
    ensures Compiled(g, CompileAll(g, k, next, loop))
    decreases k, 1
  {
    hide Compile;
    if k.Cons? {
      CompileAllFrame(g, k.tail, next, loop);
      var (g1, head) := CompileAll(g, k.tail, next, loop);
      CompileFrame(g1, k.head, head.value, loop);
      CompiledTrans(g, g1, head.value, Compile(g1, k.head, head.value, loop));
    }
  }

  lemma {:induction false} CompileAltsFrame(g: Graph, a: Alts, next: nat, loop: Loop)
    requires Context(g, next, loop) && CompileAlts(g, a, next, loop).1.Ok?
    ensures Compiled(g, CompileAlts(g, a, next, loop))
    decreases a, 1
  {
    hide Compile;
    if !a.NoAlt? {
      CompileAltsFrame(g, a.rest, next, loop);
      var (g1, no) := CompileAlts(g, a.rest, next, loop);
      CompileFrame(g1, a.body, next, loop);
      var (g2, yes) := Compile(g1, a.body, next, loop);
      CompiledTrans(g, g1, no.value, (g2, yes));
      if a.ElseIf? {
        AddFrame(g2, Block(Nop, [yes.value, no.value]));
        CompiledTrans(g, g2, yes.value, Add(g2, Block(Nop, [yes.value, no.value])));
      }
    }
  }

  /** Later blocks do not matter to the paths from blocks already there. */
  lemma CompiledAgree(g: Graph, lo: nat, r: (Graph, Result<nat, string>))
    requires InRange(g) && Compiled(g, r)
    ensures Agree(g, r.0, lo, |g|)
  {
    forall b | lo <= b < |g|
      ensures g[b] == r.0[b]
    {
      assert r.0[..|g|][b] == r.0[b];
    }
  }

  lemma LeadsBelow(o: Outcome, next: nat, loop: Loop, w: Where, n: nat)
    requires LeadsTo(o, next, loop, w) && next < n && LoopIn(loop, n)
    ensures w.Out? ==> w.block < n
  {
  }

  // ---- every run is a path --------------------------------------------

  /** One new block with one successor. */
  lemma StepOut(g: Graph, b: Block, c: nat, w: Where)
    requires InRange(g) && b.next == [c] && c < |g|
    ensures Goes(g + [b], |g|, |g|, OpsOf(b.op), Out(c))
  {
    var g' := g + [b];
    StopGoes(g', |g|, c, [], Out(c));
    StepGoes(g', |g|, |g|, c, [], Out(c));
    assert OpsOf(b.op) + [] == OpsOf(b.op);
  }

  /** A path of an older part of the graph, from a block that has just been added. */
  lemma StepInto(g: Graph, lo: nat, b: Block, c: nat, t: Ops, w: Where)
    requires InRange(g) && lo <= |g| && b.op.Nop? && c in b.next && c < |g| && Goes(g, lo, c, t, w)
    ensures Goes(g + [b], lo, |g|, t, w)
  {
    var g' := g + [b];
    GoesSame(g, g', lo, |g|, c, t, w);
    StepGoes(g', lo, |g|, c, t, w);
    assert [] + t == t;
  }

  lemma {:induction false} Complete(g: Graph, s: Stmt, next: nat, loop: Loop, t: Ops, o: Outcome, w: Where)
    requires Context(g, next, loop) && Compile(g, s, next, loop).1.Ok?
    requires Run(s, t, o) && LeadsTo(o, next, loop, w)
    ensures var (g', head) := Compile(g, s, next, loop); Goes(g', |g|, head.value, t, w)
    decreases s, 1
  {
    hide CompileAll, CompileAlts, Goes, RunStmts, RunAlts;
    match s
    case Compound(k) => CompleteAll(g, k, next, loop, t, o, w);
    case Skip => StopGoes(g, |g|, next, [], w);
    case If(cond, body, alts) => CompleteIf(g, s, next, loop, t, o, w);
    case While(cond, body) =>
      var n: nat, t1, t2 :| t == t1 + t2 && RunTurns(body, t1, n) && RunLast(body, t2, o);
      CompleteLoop(g, body, next, loop, t1, n, t2, o, w);
    case Break(_) => StepOut(g, Block(Nop, [loop.br]), loop.br, w);
    case Continue(_) => StepOut(g, Block(Nop, [loop.co]), loop.co, w);
    case Leave(exprs) => StopGoes(g + [Block(Nop, [])], |g|, |g|, [], End);
    case Do(op) =>
      var b := Block(op.value, [next]);
      if o.Before? {
        StopGoes(g + [b], |g|, |g|, [], w);
      } else {
        StepOut(g, b, next, w);
      }
  }

  lemma {:induction false} CompleteIf(g: Graph, s: Stmt, next: nat, loop: Loop, t: Ops, o: Outcome, w: Where)
    requires s.If? && Context(g, next, loop) && Compile(g, s, next, loop).1.Ok?
    requires Run(s, t, o) && LeadsTo(o, next, loop, w)
    ensures var (g', head) := Compile(g, s, next, loop); Goes(g', |g|, head.value, t, w)
    decreases s, 0
  {
    hide CompileAll, CompileAlts, Goes, RunStmts, RunAlts;
    CompileFrame(g, s.body, next, loop);
    var (g1, yes) := Compile(g, s.body, next, loop);
    CompileAltsFrame(g1, s.alts, next, loop);
    var (g2, no) := CompileAlts(g1, s.alts, next, loop);
    var b := Block(Nop, [yes.value, no.value]);
    if Run(s.body, t, o) {
      Complete(g, s.body, next, loop, t, o, w);
      CompiledAgree(g1, |g|, (g2, no));
      GoesSame(g1, g2, |g|, |g1|, yes.value, t, w);
      StepInto(g2, |g|, b, yes.value, t, w);
    } else {
      CompleteAlts(g1, s.alts, next, loop, t, o, w);
      LeadsBelow(o, next, loop, w, |g|);
      Deepen(g2, |g|, |g1|, no.value, t, w);
      StepInto(g2, |g|, b, no.value, t, w);
    }
  }

  lemma {:induction false} CompleteAll(g: Graph, k: Stmts, next: nat, loop: Loop, t: Ops, o: Outcome, w: Where)
    requires Context(g, next, loop) && CompileAll(g, k, next, loop).1.Ok?
    requires RunStmts(k, t, o) && LeadsTo(o, next, loop, w)
    ensures var (g', head) := CompileAll(g, k, next, loop); Goes(g', |g|, head.value, t, w)
    decreases k, 1
  {
    hide Compile, Goes, Run;
    if k.Nil? {
      StopGoes(g, |g|, next, [], w);
    } else {
      CompileAllFrame(g, k.tail, next, loop);
      var (g1, mid) := CompileAll(g, k.tail, next, loop);
      CompileFrame(g1, k.head, mid.value, loop);
      var (g2, head) := Compile(g1, k.head, mid.value, loop);
      LeadsBelow(o, next, loop, w, |g|);
      if o != Normal && Run(k.head, t, o) {
        Complete(g1, k.head, mid.value, loop, t, o, w);
        Deepen(g2, |g|, |g1|, head.value, t, w);
      } else {
        var t1, t2 :| t == t1 + t2 && Run(k.head, t1, Normal) && RunStmts(k.tail, t2, o);
        Complete(g1, k.head, mid.value, loop, t1, Normal, Out(mid.value));
        CompleteAll(g, k.tail, next, loop, t2, o, w);
        CompiledAgree(g1, |g|, (g2, head));
        GoesSame(g1, g2, |g|, |g1|, mid.value, t2, w);
        Join(g2, |g|, |g1|, head.value, t1, mid.value, t2, w);
      }
    }
  }

  lemma {:induction false} CompleteAlts(g: Graph, a: Alts, next: nat, loop: Loop, t: Ops, o: Outcome, w: Where)
    requires Context(g, next, loop) && CompileAlts(g, a, next, loop).1.Ok?
    requires RunAlts(a, t, o) && LeadsTo(o, next, loop, w)
    ensures var (g', head) := CompileAlts(g, a, next, loop); Goes(g', |g|, head.value, t, w)
    decreases a, 1
  {
    hide Compile, Goes, Run;
    if a.NoAlt? {
      StopGoes(g, |g|, next, [], w);
    } else {
      CompileAltsFrame(g, a.rest, next, loop);
      var (g1, no) := CompileAlts(g, a.rest, next, loop);
      CompileFrame(g1, a.body, next, loop);
      var (g2, yes) := Compile(g1, a.body, next, loop);
      LeadsBelow(o, next, loop, w, |g|);
      if Run(a.body, t, o) {
        Complete(g1, a.body, next, loop, t, o, w);
        Deepen(g2, |g|, |g1|, yes.value, t, w);
        if a.ElseIf? {
          StepInto(g2, |g|, Block(Nop, [yes.value, no.value]), yes.value, t, w);
        }
      } else {
        CompleteAlts(g, a.rest, next, loop, t, o, w);
        CompiledAgree(g1, |g|, (g2, yes));
        GoesSame(g1, g2, |g|, |g1|, no.value, t, w);
        StepInto(g2, |g|, Block(Nop, [yes.value, no.value]), no.value, t, w);
      }
    }
  }

  /** The blocks of a loop's body are as they were before its condition was completed. */
  lemma LoopAgree(g: Graph, body: Stmt, next: nat)
    requires InRange(g) && next < |g| && |g| < BLOCK_BUDGET && LoopBlocks(g, body, next).1.Ok?
    ensures var (g2, g3) := (LoopBlocks(g, body, next).0, LoopGraph(g, body, next));
      Agree(g2, g3, |g| + 1, |g2|)
  {
    hide Compile;
    WhileFrame(g, body, next);
  }

  lemma {:induction false} CompleteLoop(g: Graph, body: Stmt, next: nat, loop: Loop, t1: Ops, n: nat, t2: Ops, o: Outcome, w: Where)
    requires Context(g, next, loop) && |g| < BLOCK_BUDGET && LoopBlocks(g, body, next).1.Ok?
    requires RunTurns(body, t1, n) && RunLast(body, t2, o) && LeadsTo(o, next, loop, w)
    ensures Goes(LoopGraph(g, body, next), |g|, |g|, t1 + t2, w)
    decreases body, 2, n
  {
    hide Compile, Goes, Run, RunTurns, OpsOf;
    WhileFrame(g, body, next);
    LoopAgree(g, body, next);
    var (g2, head) := LoopBlocks(g, body, next);
    var g3, c := LoopGraph(g, body, next), |g|;
    NopOps();
    NoTurns(body, t1, n);
    if n > 0 {
      var u := CompleteTurn(g, body, next, t1, n);
      var u2 :| t1 == u + u2 && RunTurns(body, u2, n - 1) && Goes(g3, c + 1, head.value, u, Out(c));
      CompleteLoop(g, body, next, loop, u2, n - 1, t2, o, w);
      Join(g3, c, c + 1, head.value, u, c, u2 + t2, w);
      StepGoes(g3, c, c, head.value, u + (u2 + t2), w);
      Assoc(u, u2, t2);
      assert [] + (u + (u2 + t2)) == u + (u2 + t2);
    } else if t2 == [] && o == Normal {
      StopGoes(g3, c, next, [], w);
      StepGoes(g3, c, c, next, [], w);
      assert [] + [] == t1 + t2;
    } else {
      var o' := if o == Normal then Broke else o;
      Complete(g + [Block(Nop, [])], body, c, Loop(next, c), t2, o', w);
      GoesSame(g2, g3, c + 1, |g2|, head.value, t2, w);
      Deepen(g3, c, c + 1, head.value, t2, w);
      StepGoes(g3, c, c, head.value, t2, w);
      assert [] + t2 == t1 + t2;
    }
  }

  lemma NopOps()
    ensures OpsOf(Nop) == []
  {
  }

  lemma NoTurns(body: Stmt, t: Ops, n: nat)
    ensures n == 0 && RunTurns(body, t, n) ==> t == []
  {
  }

  lemma {:induction false} CompleteTurn(g: Graph, body: Stmt, next: nat, t1: Ops, n: nat) returns (u: Ops)
    requires InRange(g) && next < |g| && |g| < BLOCK_BUDGET && LoopBlocks(g, body, next).1.Ok?
    requires n > 0 && RunTurns(body, t1, n)
    ensures exists u2 ::
      && t1 == u + u2 && RunTurns(body, u2, n - 1)
      && Goes(LoopGraph(g, body, next), |g| + 1, LoopBlocks(g, body, next).1.value, u, Out(|g|))
    decreases body, 2, 0
  {
    hide Compile, Goes, Run;
    var u2;
    u, u2 :| t1 == u + u2 && RunTurn(body, u) && RunTurns(body, u2, n - 1);
    WhileFrame(g, body, next);
    LoopAgree(g, body, next);
    var (g2, head) := LoopBlocks(g, body, next);
    Complete(g + [Block(Nop, [])], body, |g|, Loop(next, |g|), u, if Run(body, u, Normal) then Normal else Continued, Out(|g|));
    GoesSame(g2, LoopGraph(g, body, next), |g| + 1, |g2|, head.value, u, Out(|g|));
  }

  // ---- every path is a run --------------------------------------------

  /** The first step from a new block without an operation. */
  lemma FirstStep(g: Graph, lo: nat, b: Block, t: Ops, w: Where) returns (c: nat)
    requires InRange(g) && lo <= |g| && b.next != [] && b.op.Nop? && forall i | 0 <= i < |b.next| :: b.next[i] < |g|
    requires Goes(g + [b], lo, |g|, t, w)
    ensures c in b.next && Goes(g, lo, c, t, w)
  {
    var g' := g + [b];
    var n: nat :| Arrives(g', lo, |g|, t, w, n);
    assert n > 0;
    var u;
    c, u :| c in g'[|g|].next && t == OpsOf(g'[|g|].op) + u && Arrives(g', lo, c, u, w, n - 1);
    assert t == u;
    assert Goes(g', lo, c, t, w);
    GoesSame(g, g', lo, |g|, c, t, w);
  }

  /** The new block of a statement that is a single one. */
  lemma OneStep(g: Graph, b: Block, c: nat, t: Ops, w: Where)
    requires InRange(g) && b.next == [c] && c < |g| && Goes(g + [b], |g|, |g|, t, w)
    ensures (w == Out(c) && t == OpsOf(b.op)) || (!b.op.Nop? && w == On(b.op) && t == [])
  {
    var g' := g + [b];
    var n: nat :| Arrives(g', |g|, |g|, t, w, n);
    if n > 0 {
      var d, u :| d in g'[|g|].next && t == OpsOf(g'[|g|].op) + u && Arrives(g', |g|, d, u, w, n - 1);
      assert Goes(g', |g|, d, u, w);
      OutStops(g', |g|, d, u, w);
      assert OpsOf(b.op) + [] == OpsOf(b.op);
    }
  }

  lemma OneEnd(g: Graph, t: Ops, w: Where)
    requires Goes(g + [Block(Nop, [])], |g|, |g|, t, w)
    ensures w == End && t == []
  {
    var n: nat :| Arrives(g + [Block(Nop, [])], |g|, |g|, t, w, n);
  }

  lemma {:induction false} Sound(g: Graph, s: Stmt, next: nat, loop: Loop, t: Ops, w: Where) returns (o: Outcome)
    requires Context(g, next, loop) && Compile(g, s, next, loop).1.Ok?
    requires var (g', head) := Compile(g, s, next, loop); Goes(g', |g|, head.value, t, w)
    ensures LeadsTo(o, next, loop, w) && Run(s, t, o)
    decreases s, 1
  {
    hide CompileAll, CompileAlts, Goes, RunStmts, RunAlts;
    match s
    case Compound(k) => o := SoundAll(g, k, next, loop, t, w);
    case Skip =>
      OutStops(g, |g|, next, t, w);
      o := Normal;
    case If(cond, body, alts) => o := SoundIf(g, s, next, loop, t, w);
    case While(cond, body) => o := SoundWhile(g, s, next, loop, t, w);
    case Break(_) =>
      OneStep(g, Block(Nop, [loop.br]), loop.br, t, w);
      o := Broke;
    case Continue(_) =>
      OneStep(g, Block(Nop, [loop.co]), loop.co, t, w);
      o := Continued;
    case Leave(exprs) =>
      OneEnd(g, t, w);
      o := Returned;
    case Do(op) =>
      OneStep(g, Block(op.value, [next]), next, t, w);
      o := if w.On? then Before(op.value) else Normal;
  }

  lemma {:induction false} SoundIf(g: Graph, s: Stmt, next: nat, loop: Loop, t: Ops, w: Where) returns (o: Outcome)
    requires s.If? && Context(g, next, loop) && Compile(g, s, next, loop).1.Ok?
    requires var (g', head) := Compile(g, s, next, loop); Goes(g', |g|, head.value, t, w)
    ensures LeadsTo(o, next, loop, w) && Run(s, t, o)
    decreases s, 0
  {
    hide CompileAll, CompileAlts, Goes, RunStmts, RunAlts;
    CompileFrame(g, s.body, next, loop);
    var (g1, yes) := Compile(g, s.body, next, loop);
    CompileAltsFrame(g1, s.alts, next, loop);
    var (g2, no) := CompileAlts(g1, s.alts, next, loop);
    var c := FirstStep(g2, |g|, Block(Nop, [yes.value, no.value]), t, w);
    if c == yes.value {
      CompiledAgree(g1, |g|, (g2, no));
      GoesSame(g1, g2, |g|, |g1|, yes.value, t, w);
      o := Sound(g, s.body, next, loop, t, w);
    } else {
      o := SoundAltsFrom(g, g1, s.alts, next, loop, t, w);
    }
  }

  /** The same for alternatives compiled on top of a longer graph. */
  lemma {:induction false} SoundAltsFrom(g: Graph, g1: Graph, a: Alts, next: nat, loop: Loop, t: Ops, w: Where) returns (o: Outcome)
    requires |g| <= |g1| && Context(g, next, loop) && Context(g1, next, loop) && CompileAlts(g1, a, next, loop).1.Ok?
    requires var (g', head) := CompileAlts(g1, a, next, loop); Goes(g', |g|, head.value, t, w)
    ensures LeadsTo(o, next, loop, w) && RunAlts(a, t, o)
    decreases a, 2
  {
    hide CompileAlts, RunAlts, Goes;
    var (g2, head) := CompileAlts(g1, a, next, loop);
    var t1, m := SplitOnce(g2, |g|, |g1|, head.value, t, w);
    if !w.Out? && Goes(g2, |g1|, head.value, t, w) {
      o := SoundAlts(g1, a, next, loop, t, w);
    } else {
      o := SoundAlts(g1, a, next, loop, t1, Out(m));
      LeadsBelow(o, next, loop, Out(m), |g|);
      var t2 :| t == t1 + t2 && Goes(g2, |g|, m, t2, w);
      OutStops(g2, |g|, m, t2, w);
      assert t1 + [] == t1;
    }
  }

  lemma {:induction false} SoundFrom(g: Graph, g1: Graph, s: Stmt, next: nat, loop: Loop, t: Ops, w: Where) returns (o: Outcome)
    requires |g| <= |g1| && Context(g, next, loop) && Context(g1, next, loop) && Compile(g1, s, next, loop).1.Ok?
    requires var (g', head) := Compile(g1, s, next, loop); Goes(g', |g|, head.value, t, w)
    ensures LeadsTo(o, next, loop, w) && Run(s, t, o)
    decreases s, 2
  {
    hide Compile, Run, Goes;
    var (g2, head) := Compile(g1, s, next, loop);
    var t1, m := SplitOnce(g2, |g|, |g1|, head.value, t, w);
    if !w.Out? && Goes(g2, |g1|, head.value, t, w) {
      o := Sound(g1, s, next, loop, t, w);
    } else {
      o := Sound(g1, s, next, loop, t1, Out(m));
      LeadsBelow(o, next, loop, Out(m), |g|);
      var t2 :| t == t1 + t2 && Goes(g2, |g|, m, t2, w);
      OutStops(g2, |g|, m, t2, w);
      assert t1 + [] == t1;
    }
  }

  lemma SplitOnce(g: Graph, lo: nat, lo1: nat, b: nat, t: Ops, w: Where) returns (t1: Ops, m: nat)
    requires lo <= lo1 && Goes(g, lo, b, t, w)
    ensures (!w.Out? && Goes(g, lo1, b, t, w)) ||
      (m < lo1 && Goes(g, lo1, b, t1, Out(m)) && exists t2 :: t == t1 + t2 && Goes(g, lo, m, t2, w))
  {
    var n: nat :| Arrives(g, lo, b, t, w, n);
    var t2, k;
    m, t1, t2, k := Split(g, lo, lo1, b, t, w, n);
    if w.Out? || !Goes(g, lo1, b, t, w) {
      assert Goes(g, lo, m, t2, w);
    }
  }

  lemma {:induction false} SoundAll(g: Graph, k: Stmts, next: nat, loop: Loop, t: Ops, w: Where) returns (o: Outcome)
    requires Context(g, next, loop) && CompileAll(g, k, next, loop).1.Ok?
    requires var (g', head) := CompileAll(g, k, next, loop); Goes(g', |g|, head.value, t, w)
    ensures LeadsTo(o, next, loop, w) && RunStmts(k, t, o)
    decreases k, 1
  {
    hide Compile, Goes, Run;
    if k.Nil? {
      OutStops(g, |g|, next, t, w);
      return Normal;
    }
    CompileAllFrame(g, k.tail, next, loop);
    var (g1, mid) := CompileAll(g, k.tail, next, loop);
    CompileFrame(g1, k.head, mid.value, loop);
    var (g2, head) := Compile(g1, k.head, mid.value, loop);
    var t1, m := SplitOnce(g2, |g|, |g1|, head.value, t, w);
    if !w.Out? && Goes(g2, |g1|, head.value, t, w) {
      o := Sound(g1, k.head, mid.value, loop, t, w);
    } else {
      var t2 :| t == t1 + t2 && Goes(g2, |g|, m, t2, w);
      var o1 := Sound(g1, k.head, mid.value, loop, t1, Out(m));
      if o1 == Normal {
        CompiledAgree(g1, |g|, (g2, head));
        GoesSame(g1, g2, |g|, |g1|, mid.value, t2, w);
        o := SoundAll(g, k.tail, next, loop, t2, w);
      } else {
        OutStops(g2, |g|, m, t2, w);
        assert t1 + [] == t1;
        o := o1;
      }
    }
  }

  lemma {:induction false} SoundAlts(g: Graph, a: Alts, next: nat, loop: Loop, t: Ops, w: Where) returns (o: Outcome)
    requires Context(g, next, loop) && CompileAlts(g, a, next, loop).1.Ok?
    requires var (g', head) := CompileAlts(g, a, next, loop); Goes(g', |g|, head.value, t, w)
    ensures LeadsTo(o, next, loop, w) && RunAlts(a, t, o)
    decreases a, 1
  {
    hide Compile, Goes, Run;
    if a.NoAlt? {
      OutStops(g, |g|, next, t, w);
      return Normal;
    }
    CompileAltsFrame(g, a.rest, next, loop);
    var (g1, no) := CompileAlts(g, a.rest, next, loop);
    CompileFrame(g1, a.body, next, loop);
    var (g2, yes) := Compile(g1, a.body, next, loop);
    if a.Else? {
      o := SoundFrom(g, g1, a.body, next, loop, t, w);
    } else {
      var c := FirstStep(g2, |g|, Block(Nop, [yes.value, no.value]), t, w);
      if c == yes.value {
        o := SoundFrom(g, g1, a.body, next, loop, t, w);
      } else {
        CompiledAgree(g1, |g|, (g2, yes));
        GoesSame(g1, g2, |g|, |g1|, no.value, t, w);
        o := SoundAlts(g, a.rest, next, loop, t, w);
      }
    }
  }

  lemma {:induction false} SoundWhile(g: Graph, s: Stmt, next: nat, loop: Loop, t: Ops, w: Where) returns (o: Outcome)
    requires s.While? && Context(g, next, loop) && Compile(g, s, next, loop).1.Ok?
    requires var (g', head) := Compile(g, s, next, loop); Goes(g', |g|, head.value, t, w)
    ensures LeadsTo(o, next, loop, w) && Run(s, t, o)
    decreases s, 0
  {
    hide Run, Arrives, RunTurns, RunLast;
    var n: nat :| Arrives(LoopGraph(g, s.body, next), |g|, |g|, t, w, n);
    var k, t1, t2;
    o, k, t1, t2 := SoundLoop(g, s.body, next, loop, t, w, n);
    LoopRuns(s, t1, k, t2, o);
  }

  lemma LoopRuns(s: Stmt, t1: Ops, n: nat, t2: Ops, o: Outcome)
    requires s.While? && RunTurns(s.body, t1, n) && RunLast(s.body, t2, o)
    ensures Run(s, t1 + t2, o)
  {
  }

  lemma {:induction false} SoundLoop(g: Graph, body: Stmt, next: nat, loop: Loop, t: Ops, w: Where, n: nat)
      returns (o: Outcome, k: nat, t1: Ops, t2: Ops)
    requires Context(g, next, loop) && |g| < BLOCK_BUDGET && LoopBlocks(g, body, next).1.Ok?
    requires Arrives(LoopGraph(g, body, next), |g|, |g|, t, w, n)
    ensures LeadsTo(o, next, loop, w) && t == t1 + t2 && RunTurns(body, t1, k) && RunLast(body, t2, o)
    decreases body, 2, n
  {
    hide Compile, Goes, Run, OpsOf, Arrives, LoopGraph, LoopBlocks, RunLast, RunTurns;
    var c, g3 := |g|, LoopGraph(g, body, next);
    LoopStep(g, body, next, t, w, n);
    if w == Out(next) && t == [] {
      o, k, t1, t2 := Normal, 0, [], [];
      LoopEnds(body, [], o);
    } else {
      var m, u1, u2, j := Split(g3, c, c + 1, LoopBlocks(g, body, next).1.value, t, w, n - 1);
      if !w.Out? && Goes(g3, c + 1, LoopBlocks(g, body, next).1.value, t, w) {
        o := SoundBody(g, body, next, t, w);
        k, t1, t2 := 0, [], t;
        LoopEnds(body, t, o);
      } else {
        var o1 := SoundBody(g, body, next, u1, Out(m));
        if m == c {
          var u3;
          o, k, u3, t2 := SoundLoop(g, body, next, loop, u2, w, j);
          t1, k := u1 + u3, k + 1;
          Assoc(u1, u3, t2);
          MoreTurns(body, u1, u3, k, o1);
        } else {
          ArrivesGoes(g3, c, m, u2, w, j);
          OutStops(g3, c, m, u2, w);
          assert u1 + [] == u1;
          o, k, t1, t2 := Normal, 0, [], u1;
          LoopEnds(body, u1, o1);
        }
      }
      assert [] + t2 == t2;
    }
  }

  lemma LoopEnds(body: Stmt, t: Ops, o: Outcome)
    requires (t == [] && o == Normal) || (Run(body, t, o) && (o.Broke? || o.Returned? || o.Before?))
    ensures RunTurns(body, [], 0) && RunLast(body, t, if o.Broke? then Normal else o)
  {
  }

  /** From the condition a path leaves for the next block or enters the body. */
  lemma LoopStep(g: Graph, body: Stmt, next: nat, t: Ops, w: Where, n: nat)
    requires InRange(g) && next < |g| && |g| < BLOCK_BUDGET && LoopBlocks(g, body, next).1.Ok?
    requires Arrives(LoopGraph(g, body, next), |g|, |g|, t, w, n)
    ensures n > 0
    ensures (w == Out(next) && t == []) ||
      Arrives(LoopGraph(g, body, next), |g|, LoopBlocks(g, body, next).1.value, t, w, n - 1)
  {
    hide Compile;
    WhileFrame(g, body, next);
    var g3, c := LoopGraph(g, body, next), |g|;
    var d, u :| d in g3[c].next && t == OpsOf(g3[c].op) + u && Arrives(g3, c, d, u, w, n - 1);
    assert t == u;
    if d == next {
      ArrivesGoes(g3, c, d, u, w, n - 1);
      OutStops(g3, c, d, u, w);
    }
  }

  lemma ArrivesGoes(g: Graph, lo: nat, b: nat, t: Ops, w: Where, n: nat)
    requires Arrives(g, lo, b, t, w, n)
    ensures Goes(g, lo, b, t, w)
  {
  }

  lemma MoreTurns(body: Stmt, u: Ops, t: Ops, n: nat, o: Outcome)
    requires n > 0 && (o.Normal? || o.Continued?) && Run(body, u, o) && RunTurns(body, t, n - 1)
    ensures RunTurns(body, u + t, n)
  {
    assert RunTurn(body, u);
  }

  lemma {:induction false} SoundBody(g: Graph, body: Stmt, next: nat, t: Ops, w: Where) returns (o: Outcome)
    requires InRange(g) && next < |g| && |g| < BLOCK_BUDGET && LoopBlocks(g, body, next).1.Ok?
    requires Goes(LoopGraph(g, body, next), |g| + 1, LoopBlocks(g, body, next).1.value, t, w)
    ensures Run(body, t, o) && LeadsTo(o, |g|, Loop(next, |g|), w)
    decreases body, 2, 0
  {
    hide Compile, Goes, Run;
    WhileFrame(g, body, next);
    LoopAgree(g, body, next);
    var (g2, head) := LoopBlocks(g, body, next);
    GoesSame(g2, LoopGraph(g, body, next), |g| + 1, |g2|, head.value, t, w);
    o := Sound(g + [Block(Nop, [])], body, |g|, Loop(next, |g|), t, w);
  }
}
