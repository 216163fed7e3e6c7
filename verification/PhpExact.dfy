/** From the head of a PHP statement the paths are exactly its runs. */
module PhpExact {
  import opened PhpFacts
  import opened PhpCompile
  import opened PhpPaths

  /** From its head, a statement's paths are exactly its runs, each stopping where an
      outcome of that run leads. */
  lemma CompileExact(g: Graph, s: Stmt, next: nat, loop: Loop, t: Ops, w: Where)
    requires Context(g, next, loop) && Compile(g, s, next, loop).1.Ok?
    ensures Compiled(g, Compile(g, s, next, loop))
    ensures Goes(Compile(g, s, next, loop).0, |g|, Compile(g, s, next, loop).1.value, t, w)
      <==> exists o :: LeadsTo(o, next, loop, w) && Run(s, t, o)
  {
    hide Compile, Goes, Run;
    CompileFrame(g, s, next, loop);
    if Goes(Compile(g, s, next, loop).0, |g|, Compile(g, s, next, loop).1.value, t, w) {
      var o := Sound(g, s, next, loop, t, w);
    }
    if o :| LeadsTo(o, next, loop, w) && Run(s, t, o) {
      Complete(g, s, next, loop, t, o, w);
    }
  }

  // ---- jumps stay in their loops --------------------------------------

  predicate Jumps(o: Outcome) {
    o.Broke? || o.Continued?
  }

  /** Outside a loop a compiled statement has no run that ends as a jump. */
  lemma {:induction false} NoJumps(g: Graph, s: Stmt, next: nat, t: Ops, o: Outcome)
    requires Compile(g, s, next, NoLoop).1.Ok? && Run(s, t, o)
    ensures !Jumps(o)
    decreases s
  {
    hide CompileAll, CompileAlts, RunStmts, RunAlts;
    match s
    case Compound(k) => NoJumpsAll(g, k, next, t, o);
    case If(cond, body, alts) =>
      if Run(body, t, o) {
        NoJumps(g, body, next, t, o);
      } else {
        NoJumpsAlts(Compile(g, body, next, NoLoop).0, alts, next, t, o);
      }
    case _ =>
  }

  lemma {:induction false} NoJumpsAll(g: Graph, k: Stmts, next: nat, t: Ops, o: Outcome)
    requires CompileAll(g, k, next, NoLoop).1.Ok? && RunStmts(k, t, o)
    ensures !Jumps(o)
    decreases k
  {
    hide Compile, Run;
    if k.Cons? {
      var (g1, mid) := CompileAll(g, k.tail, next, NoLoop);
      if o != Normal && Run(k.head, t, o) {
        NoJumps(g1, k.head, mid.value, t, o);
      } else {
        var t1, t2 :| t == t1 + t2 && Run(k.head, t1, Normal) && RunStmts(k.tail, t2, o);
        NoJumpsAll(g, k.tail, next, t2, o);
      }
    }
  }

  lemma {:induction false} NoJumpsAlts(g: Graph, a: Alts, next: nat, t: Ops, o: Outcome)
    requires CompileAlts(g, a, next, NoLoop).1.Ok? && RunAlts(a, t, o)
    ensures !Jumps(o)
    decreases a
  {
    hide Compile, Run;
    if !a.NoAlt? {
      var (g1, no) := CompileAlts(g, a.rest, next, NoLoop);
      if Run(a.body, t, o) {
        NoJumps(g1, a.body, next, t, o);
      } else {
        NoJumpsAlts(g, a.rest, next, t, o);
      }
    }
  }
}
