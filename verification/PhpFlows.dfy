/** The flows of one PHP unit, and what they mean for its runs. */
module PhpFlows {
  import opened Wrappers
  import opened PhpFacts
  import opened PhpCompile
  import opened PhpPaths
  import opened PhpExact
  import opened PhpFlow
  import opened PhpWorklist
  import opened PhpModelled
  import opened PhpLayout
  import opened PhpSolver
  import opened Ordered
  import B = PhpBuilder

  datatype Flow = Flow(start: nat, end: nat, line: nat, sources: seq<nat>, context: string)

  // ---- the names a unit assigns ---------------------------------------

  predicate StmtNames(s: Stmt) {
    match s
    case Compound(k) => StmtsNames(k)
    case If(_, body, alts) => StmtNames(body) && AltsNames(alts)
    case While(_, body) => StmtNames(body)
    case Do(op) => op.Ok? && op.value.Assign? ==> op.value.name != UNREACHABLE
    case _ => true
  }

  predicate StmtsNames(k: Stmts) {
    k.Cons? ==> StmtNames(k.head) && StmtsNames(k.tail)
  }

  predicate AltsNames(a: Alts) {
    !a.NoAlt? ==> StmtNames(a.body) && AltsNames(a.rest)
  }

  lemma {:induction false} CompileNames(g: Graph, s: Stmt, next: nat, loop: Loop)
    requires NameFree(g) && StmtNames(s)
    ensures NameFree(Compile(g, s, next, loop).0)
    decreases s
  {
    hide CompileAll, CompileAlts;
    match s
    case Compound(k) => CompileAllNames(g, k, next, loop);
    case If(cond, body, alts) =>
      CompileNames(g, body, next, loop);
      CompileAltsNames(Compile(g, body, next, loop).0, alts, next, loop);
    case While(cond, body) =>
      CompileNames(g + [Block(Nop, [])], body, |g|, Loop(next, |g|));
    case _ =>
  }

  lemma {:induction false} CompileAllNames(g: Graph, k: Stmts, next: nat, loop: Loop)
    requires NameFree(g) && StmtsNames(k)
    ensures NameFree(CompileAll(g, k, next, loop).0)
    decreases k
  {
    hide Compile;
    if k.Cons? {
      CompileAllNames(g, k.tail, next, loop);
      var (g1, mid) := CompileAll(g, k.tail, next, loop);
      if mid.Ok? {
        CompileNames(g1, k.head, mid.value, loop);
      }
    }
  }

  lemma {:induction false} CompileAltsNames(g: Graph, a: Alts, next: nat, loop: Loop)
    requires NameFree(g) && AltsNames(a)
    ensures NameFree(CompileAlts(g, a, next, loop).0)
    decreases a
  {
    hide Compile;
    if !a.NoAlt? {
      CompileAltsNames(g, a.rest, next, loop);
      CompileNames(CompileAlts(g, a.rest, next, loop).0, a.body, next, loop);
    }
  }

  // ---- from paths to runs ---------------------------------------------

  /** The exit is the only block below the unit's own, and nothing follows it. */
  predicate UnitGraph(g: Graph) {
    |g| > 0 && g[0] == Block(Nop, []) && InRange(g)
  }

  lemma {:induction false} ReachesGoes(g: Graph, entry: nat, b: nat, t: Ops, n: nat, v: Ops, w: Where)
    requires UnitGraph(g) && ReachesIn(g, entry, b, t, n) && Goes(g, 1, b, v, w)
    ensures Goes(g, 1, entry, t + v, w)
    decreases n
  {
    hide Goes, OpsOf;
    if n == 0 {
      assert t + v == v;
    } else {
      var a: nat, u :| a < |g| && b in g[a].next && t == u + OpsOf(g[a].op) && ReachesIn(g, entry, a, u, n - 1);
      StepGoes(g, 1, a, b, v, w);
      ReachesGoes(g, entry, a, u, n - 1, OpsOf(g[a].op) + v, w);
      Assoc(u, OpsOf(g[a].op), v);
    }
  }

  lemma {:induction false} GoesReaches(g: Graph, entry: nat, b: nat, t: Ops, v: Ops, op: Op, n: nat) returns (c: nat)
    requires Reaches(g, entry, b, t) && Arrives(g, 1, b, v, On(op), n)
    ensures c < |g| && g[c].op == op && Reaches(g, entry, c, t + v)
    decreases n
  {
    hide Reaches, OpsOf;
    if n == 0 {
      c := b;
      assert t + v == t;
    } else {
      var d, u :| d in g[b].next && v == OpsOf(g[b].op) + u && Arrives(g, 1, d, u, On(op), n - 1);
      ReachesStep(g, entry, b, d, t);
      c := GoesReaches(g, entry, d, t + OpsOf(g[b].op), u, op, n - 1);
      Assoc(t, OpsOf(g[b].op), u);
    }
  }

  lemma UnitOk(s: Stmt)
    requires CompileUnit(s).1.Ok?
    ensures UnitGraph(CompileUnit(s).0) && CompileUnit(s).1.value < |CompileUnit(s).0|
  {
    hide Compile;
    CompileFrame(EXIT_BLOCK, s, 0, NoLoop);
    var g := CompileUnit(s).0;
    assert g[..1][0] == g[0];
  }

  /** The blocks of a unit with operation `op` are reached just as its runs are about to
      perform it. */
  lemma UnitRuns(s: Stmt, op: Op, t: Ops)
    requires CompileUnit(s).1.Ok? && !op.Nop?
    ensures var (g, entry) := CompileUnit(s);
      Run(s, t, Before(op)) <==> exists b: nat :: b < |g| && g[b].op == op && Reaches(g, entry.value, b, t)
  {
    hide Run, Compile, Goes, Reaches;
    UnitOk(s);
    var (g, entry) := CompileUnit(s);
    CompileExact(EXIT_BLOCK, s, 0, NoLoop, t, On(op));
    if b: nat :| b < |g| && g[b].op == op && Reaches(g, entry.value, b, t) {
      StopGoes(g, 1, b, [], On(op));
      ReachedGoes(g, entry.value, b, t, On(op));
    }
    if Run(s, t, Before(op)) {
      assert LeadsTo(Before(op), 0, NoLoop, On(op));
      var b := GoneReaches(g, entry.value, t, op);
    }
  }

  lemma ReachedGoes(g: Graph, entry: nat, b: nat, t: Ops, w: Where)
    requires UnitGraph(g) && Reaches(g, entry, b, t) && Goes(g, 1, b, [], w)
    ensures Goes(g, 1, entry, t, w)
  {
    hide Goes;
    var n: nat :| ReachesIn(g, entry, b, t, n);
    ReachesGoes(g, entry, b, t, n, [], w);
    assert t + [] == t;
  }

  lemma ReachesItself(g: Graph, entry: nat)
    ensures Reaches(g, entry, entry, [])
  {
    assert ReachesIn(g, entry, entry, [], 0);
  }

  lemma GoneReaches(g: Graph, entry: nat, t: Ops, op: Op) returns (b: nat)
    requires Goes(g, 1, entry, t, On(op))
    ensures b < |g| && g[b].op == op && Reaches(g, entry, b, t)
  {
    hide Arrives, Reaches;
    var n: nat :| Arrives(g, 1, entry, t, On(op), n);
    ReachesItself(g, entry);
    b := GoesReaches(g, entry, entry, [], t, op, n);
    assert [] + t == t;
  }

  // ---- sinks ----------------------------------------------------------

  /** After `t` the sink is delivered a value with `line` for one of its contexts. */
  ghost predicate Taints(op: Op, t: Ops, line: nat)
    requires op.Sink?
  {
    exists k :: Bit(op.bits, k) && Delivered(op.expr, t, line, k)
  }

  /** Some run performs the sink on such a value. */
  ghost predicate TaintedRun(s: Stmt, op: Op, line: nat) {
    op.Sink? && exists t :: Run(s, t, Before(op)) && Taints(op, t, line)
  }

  ghost predicate TaintedBlock(g: Graph, entry: nat, b: nat, line: nat) {
    b < |g| && g[b].op.Sink? && exists t :: Reaches(g, entry, b, t) && Taints(g[b].op, t, line)
  }

  predicate InGraphOp(g: Graph, b: nat, op: Op) {
    b < |g| && g[b].op == op
  }

  lemma TaintedBlocks(s: Stmt, op: Op, line: nat)
    requires CompileUnit(s).1.Ok?
    ensures TaintedRun(s, op, line) <==>
      exists b: nat :: TaintedBlock(CompileUnit(s).0, CompileUnit(s).1.value, b, line) && InGraphOp(CompileUnit(s).0, b, op)
  {
    hide Run, CompileUnit, Taints, Reaches;
    var (g, entry) := CompileUnit(s);
    if TaintedRun(s, op, line) {
      var t :| Run(s, t, Before(op)) && Taints(op, t, line);
      UnitRuns(s, op, t);
      var b: nat :| b < |g| && g[b].op == op && Reaches(g, entry.value, b, t);
      assert TaintedBlock(g, entry.value, b, line);
    }
    if b: nat :| TaintedBlock(g, entry.value, b, line) && InGraphOp(g, b, op) {
      var t :| Reaches(g, entry.value, b, t) && Taints(g[b].op, t, line);
      UnitRuns(s, op, t);
    }
  }

  /** Evaluating the sink's expression on the solved state gives what some path gives. */
  lemma EvalExact(g: Graph, entry: nat, states: seq<State>, b: nat, e: Expr, line: nat, k: nat)
    requires Solved(g, entry, states) && b < |g| && Reached(g, entry, b)
    ensures Has(Eval(e, states[b]), line, k) <==>
      exists t :: Reaches(g, entry, b, t) && Has(Eval(e, StateAfter(t)), line, k)
  {
    hide Eval, Reaches, StateAfter;
    assert SolvedAt(g, entry, states, b);
    EvalDistributes(e, states[b], line, k);
    if Has(Eval(e, states[b]), line, k) {
      var t0 :| Reaches(g, entry, b, t0);
      var t := t0;
      if !Emits(e, line, k) {
        var x :| Copies(e, x, k) && Has(Look(states[b], x), line, k);
        assert Holds(states[b], x, line, k);
        t :| Reaches(g, entry, b, t) && Holds(StateAfter(t), x, line, k);
        assert Copies(e, x, k) && Has(Look(StateAfter(t), x), line, k);
      }
      EvalDistributes(e, StateAfter(t), line, k);
    }
    if t :| Reaches(g, entry, b, t) && Has(Eval(e, StateAfter(t)), line, k) {
      EvalDistributes(e, StateAfter(t), line, k);
      if !Emits(e, line, k) {
        var x :| Copies(e, x, k) && Has(Look(StateAfter(t), x), line, k);
        assert Carried(g, entry, b, x, line, k);
        assert Holds(states[b], x, line, k);
      }
    }
  }

  predicate Meets(w: bv8, bits: bv8) {
    w & bits != 0
  }

  predicate Flags(op: Op, s: State, line: nat)
    requires op.Sink?
  {
    Meets(Get(Eval(op.expr, s), line), op.bits)
  }

  lemma FlagsExact(g: Graph, entry: nat, states: seq<State>, b: nat, line: nat)
    requires Solved(g, entry, states) && b < |g| && g[b].op.Sink? && Reached(g, entry, b)
    ensures Flags(g[b].op, states[b], line) <==> TaintedBlock(g, entry, b, line)
  {
    hide Eval, Reaches, StateAfter, SolvedAt, Delivered;
    var op := g[b].op;
    BitsMeet(Get(Eval(op.expr, states[b]), line), op.bits);
    if Flags(op, states[b], line) {
      var k :| Bit(Get(Eval(op.expr, states[b]), line), k) && Bit(op.bits, k);
      EvalExact(g, entry, states, b, op.expr, line, k);
      var t :| Reaches(g, entry, b, t) && Has(Eval(op.expr, StateAfter(t)), line, k);
      EvalDelivers(op.expr, t, line, k);
      assert Taints(op, t, line);
    }
    if TaintedBlock(g, entry, b, line) {
      var t :| Reaches(g, entry, b, t) && Taints(op, t, line);
      var k :| Bit(op.bits, k) && Delivered(op.expr, t, line, k);
      EvalDelivers(op.expr, t, line, k);
      EvalExact(g, entry, states, b, op.expr, line, k);
      assert Bit(Get(Eval(op.expr, states[b]), line), k) && Bit(op.bits, k);
    }
  }

  // ---- extraction -----------------------------------------------------

  /** The lines the sink is flagged with, in ascending order. */
  method Sources(op: Op, s: State) returns (sources: seq<nat>)
    requires op.Sink?
    ensures Ascending(sources) && forall l :: l in sources <==> Flags(op, s, l)
  {
    hide Meets, Eval;
    var f := Eval(op.expr, s);
    var lines := InKeyOrder(f.Keys);
    sources := [];
    for i := 0 to |lines|
      invariant Ascending(sources) && forall k | 0 <= k < |sources| && i < |lines| :: sources[k] < lines[i]
      invariant forall l :: l in sources <==> l in lines[..i] && Meets(f[l], op.bits)
    {
      if Meets(f[lines[i]], op.bits) {
        sources := sources + [lines[i]];
      }
      assert lines[..i + 1] == lines[..i] + [lines[i]];
    }
    assert lines[..|lines|] == lines;
    NoBits(op.bits);
  }

  lemma NoBits(b: bv8)
    ensures !Meets(0, b)
  {
  }

  predicate FlowOf(f: Flow, op: Op) {
    op.Sink? && f.start == op.start && f.end == op.end && f.line == op.line && f.context == op.context
  }

  /** Some flow of the sink's place and context has `line` among its sources. */
  predicate Reports(flows: seq<Flow>, op: Op, line: nat) {
    exists i :: 0 <= i < |flows| && FlowOf(flows[i], op) && line in flows[i].sources
  }

  /** Two sinks a report cannot tell apart. */
  predicate SameSink(op: Op, op': Op) {
    op.Sink? && op'.Sink? && op.start == op'.start && op.end == op'.end && op.line == op'.line && op.context == op'.context
  }

  ghost predicate TaintedUpTo(g: Graph, entry: nat, n: nat, op: Op, line: nat) {
    exists b: nat :: b < n && TaintedBlock(g, entry, b, line) && SameSink(g[b].op, op)
  }

  ghost predicate ReportsUpTo(flows: seq<Flow>, g: Graph, entry: nat, n: nat) {
    forall op: Op, l: nat {:trigger Reports(flows, op, l)} | op.Sink? :: Reports(flows, op, l) <==> TaintedUpTo(g, entry, n, op, l)
  }

  ghost predicate Tainted(g: Graph, entry: nat, b: nat) {
    exists l: nat :: TaintedBlock(g, entry, b, l)
  }

  /** The flow of block `b`: its sources, in order, are the lines that taint it. */
  ghost predicate FlowAt(f: Flow, g: Graph, entry: nat, b: nat) {
    b < |g| && FlowOf(f, g[b].op) && Ascending(f.sources) && forall l: nat :: l in f.sources <==> TaintedBlock(g, entry, b, l)
  }

  /** One flow for every tainted sink of the first `n` blocks, in the order of the blocks. */
  ghost predicate Listed(flows: seq<Flow>, g: Graph, entry: nat, n: nat, ids: seq<nat>) {
    && |ids| == |flows| && Ids(g, entry, n, ids)
    && (forall i | 0 <= i < |ids| :: FlowAt(flows[i], g, entry, ids[i]))
  }

  ghost predicate ListsFlows(flows: seq<Flow>, g: Graph, entry: nat) {
    exists ids :: Listed(flows, g, entry, |g|, ids)
  }

  /** The flows found in the blocks: one for every tainted sink, block by block. */
  method Extract(g: Graph, ghost entry: nat, states: seq<State>) returns (flows: seq<Flow>)
    requires Solved(g, entry, states)
    ensures ListsFlows(flows, g, entry)
    ensures ReportsUpTo(flows, g, entry, |g|)
  {
    hide Reached, TaintedBlock, Flags, Solved, ExactAt, Listed;
    flows := [];
    ghost var ids: seq<nat> := [];
    NothingListed(g, entry);
    for id := 0 to |g|
      invariant ReportsUpTo(flows, g, entry, id) && Listed(flows, g, entry, id, ids)
    {
      ghost var before := flows;
      SolvedIs(g, entry, states, id);
      var sources: seq<nat> := [];
      if UNREACHABLE !in states[id] && g[id].op.Sink? {
        sources := Sources(g[id].op, states[id]);
        if sources != [] {
          flows := flows + [Flow(g[id].op.start, g[id].op.end, g[id].op.line, sources, g[id].op.context)];
        }
        forall l: nat
          ensures l in sources <==> TaintedBlock(g, entry, id, l)
        {
          FlagsExact(g, entry, states, id, l);
        }
      } else {
        forall l: nat
          ensures l in sources <==> TaintedBlock(g, entry, id, l)
        {
          Untainted(g, entry, id, l);
        }
      }
      OneMoreBlock(g, entry, id, before, flows, sources);
      OneMoreListed(g, entry, id, before, flows, sources, ids);
      ids := if sources == [] then ids else ids + [id];
    }
  }

  lemma NothingListed(g: Graph, entry: nat)
    ensures Listed([], g, entry, 0, [])
  {
  }

  lemma OneMoreListed(g: Graph, entry: nat, id: nat, before: seq<Flow>, flows: seq<Flow>, sources: seq<nat>, ids: seq<nat>)
    requires id < |g| && Listed(before, g, entry, id, ids) && Ascending(sources)
    requires forall l: nat :: l in sources <==> TaintedBlock(g, entry, id, l)
    requires sources == [] ==> flows == before
    requires sources != [] ==> g[id].op.Sink?
    requires sources != [] ==> flows == before + [Flow(g[id].op.start, g[id].op.end, g[id].op.line, sources, g[id].op.context)]
    ensures Listed(flows, g, entry, id + 1, if sources == [] then ids else ids + [id])
  {
    hide TaintedBlock, FlowAt, Ascending;
    if sources == [] {
      NotTainted(g, entry, id, sources);
      SameIds(g, entry, id, ids);
    } else {
      assert sources[0] in sources;
      assert Tainted(g, entry, id);
      NewFlow(g, entry, id, flows[|before|], sources);
      MoreIds(g, entry, id, ids);
      var ids' := ids + [id];
      forall i | 0 <= i < |ids'|
        ensures FlowAt(flows[i], g, entry, ids'[i])
      {
        if i < |ids| {
          assert FlowAt(before[i], g, entry, ids[i]);
        }
      }
    }
  }

  lemma NotTainted(g: Graph, entry: nat, id: nat, sources: seq<nat>)
    requires sources == [] && forall l: nat :: l in sources <==> TaintedBlock(g, entry, id, l)
    ensures !Tainted(g, entry, id)
  {
    hide TaintedBlock;
  }

  lemma NewFlow(g: Graph, entry: nat, id: nat, f: Flow, sources: seq<nat>)
    requires id < |g| && FlowOf(f, g[id].op) && f.sources == sources && Ascending(sources)
    requires forall l: nat :: l in sources <==> TaintedBlock(g, entry, id, l)
    ensures FlowAt(f, g, entry, id)
  {
    hide TaintedBlock, Ascending;
  }

  /** The blocks of the flows, up to block `n`. */
  ghost predicate Ids(g: Graph, entry: nat, n: nat, ids: seq<nat>) {
    Ascending(ids) && forall b: nat :: b in ids <==> b < n && Tainted(g, entry, b)
  }

  lemma SameIds(g: Graph, entry: nat, id: nat, ids: seq<nat>)
    requires Ids(g, entry, id, ids) && !Tainted(g, entry, id)
    ensures Ids(g, entry, id + 1, ids)
  {
    hide Tainted;
  }

  lemma MoreIds(g: Graph, entry: nat, id: nat, ids: seq<nat>)
    requires Ids(g, entry, id, ids) && Tainted(g, entry, id)
    ensures Ids(g, entry, id + 1, ids + [id])
  {
    hide Tainted;
    var more := ids + [id];
    forall i, j | 0 <= i < j < |more|
      ensures more[i] < more[j]
    {
      assert more[i] in ids;
    }
  }

  lemma SolvedIs(g: Graph, entry: nat, states: seq<State>, b: nat)
    requires Solved(g, entry, states) && b < |g|
    ensures |states| == |g| && (UNREACHABLE !in states[b] <==> Reached(g, entry, b))
  {
    assert SolvedAt(g, entry, states, b);
  }

  lemma Untainted(g: Graph, entry: nat, b: nat, line: nat)
    requires b < |g| && (!Reached(g, entry, b) || !g[b].op.Sink?)
    ensures !TaintedBlock(g, entry, b, line)
  {
  }

  lemma OneMoreBlock(g: Graph, entry: nat, id: nat, before: seq<Flow>, flows: seq<Flow>, sources: seq<nat>)
    requires id < |g| && ReportsUpTo(before, g, entry, id)
    requires forall l: nat :: l in sources <==> TaintedBlock(g, entry, id, l)
    requires sources == [] ==> flows == before
    requires sources != [] ==> g[id].op.Sink?
    requires sources != [] ==> flows == before + [Flow(g[id].op.start, g[id].op.end, g[id].op.line, sources, g[id].op.context)]
    ensures ReportsUpTo(flows, g, entry, id + 1)
  {
    hide TaintedBlock;
    forall op: Op, l: nat | op.Sink?
      ensures Reports(flows, op, l) <==> TaintedUpTo(g, entry, id + 1, op, l)
    {
      assert Reports(before, op, l) <==> TaintedUpTo(g, entry, id, op, l);
      if Reports(before, op, l) {
        var i :| 0 <= i < |before| && FlowOf(before[i], op) && l in before[i].sources;
        assert flows[i] == before[i];
      }
      if sources != [] && l in sources && SameSink(g[id].op, op) {
        assert FlowOf(flows[|before|], op);
      }
      if Reports(flows, op, l) && !Reports(before, op, l) {
        var i :| 0 <= i < |flows| && FlowOf(flows[i], op) && l in flows[i].sources;
        assert i == |before|;
        assert TaintedBlock(g, entry, id, l);
      }
      if b: nat :| b < id + 1 && TaintedBlock(g, entry, b, l) && SameSink(g[b].op, op) {
        assert b < id || b == id;
      }
    }
  }

  // ---- one unit -------------------------------------------------------

  ghost predicate TaintedPlace(s: Stmt, op: Op, line: nat) {
    exists op' :: SameSink(op', op) && TaintedRun(s, op', line)
  }

  lemma PlacesExact(s: Stmt, op: Op, line: nat)
    requires CompileUnit(s).1.Ok? && op.Sink?
    ensures var (g, entry) := CompileUnit(s);
      TaintedUpTo(g, entry.value, |g|, op, line) <==> TaintedPlace(s, op, line)
  {
    hide Run, CompileUnit, TaintedBlock, TaintedRun;
    var (g, entry) := CompileUnit(s);
    if b: nat :| b < |g| && TaintedBlock(g, entry.value, b, line) && SameSink(g[b].op, op) {
      TaintedBlocks(s, g[b].op, line);
      assert SameSink(g[b].op, op) && TaintedRun(s, g[b].op, line);
    }
    if op' :| SameSink(op', op) && TaintedRun(s, op', line) {
      TaintedBlocks(s, op', line);
      var b: nat :| TaintedBlock(g, entry.value, b, line) && InGraphOp(g, b, op');
    }
  }

  /** Builds the graph of a unit, solves it and reports its flows, which are exact about
      the runs. A unit has no flows but an error just when it is not modelled, or has too
      many blocks, or the worklist runs out of steps or names; and that error is the first
      there is. */
  method AnalyseUnit(s: Stmt) returns (blocks: nat, r: Result<seq<Flow>, string>)
    requires StmtNames(s)
    ensures blocks == |CompileUnit(s).0| && Served(1, Demands(s, false), blocks, CompileUnit(s).1)
    ensures r.Ok? ==> forall op: Op, l: nat | op.Sink? :: Reports(r.value, op, l) <==> TaintedPlace(s, op, l)
    ensures CompileUnit(s).1.Ok? ==> Laid(CompileUnit(s).0, 1, s, 0, NoLoop, CompileUnit(s).1.value)
    ensures r.Ok? ==> CompileUnit(s).1.Ok? && ListsFlows(r.value, CompileUnit(s).0, CompileUnit(s).1.value)
    ensures CompileUnit(s).1.Ok? <==> Modelled(s, false) && 1 + Size(s) <= BLOCK_BUDGET
    ensures CompileUnit(s).1.Err? ==> r == Err(CompileUnit(s).1.error)
    ensures CompileUnit(s).1.Ok? ==> Ends(r, CompileUnit(s).0, CompileUnit(s).1.value)
    ensures CompileUnit(s).1.Ok? && Bound(CompileUnit(s).0) <= STEP_BUDGET && |Names(CompileUnit(s).0)| <= NAME_BUDGET ==> r.Ok?
  {
    hide Compile, TaintedPlace, TaintedUpTo, Bound, Names, NameFree, Solved, Reports, ListsFlows;
    hide Demands, Served, Modelled, Size, Laid, OutOfSteps, OutOfNames, Finishes;
    CompilesIff(s);
    if CompileUnit(s).1.Ok? {
      UnitLaid(s);
    }
    var b := new B.Builder();
    var head := b.Stmt(s, 0, NoLoop);
    blocks := |b.blocks|;
    if head.Err? {
      return blocks, Err(head.error);
    }
    UnitOk(s);
    NoNames();
    CompileNames(EXIT_BLOCK, s, 0, NoLoop);
    var states := Solve(b.blocks, head.value);
    if states.Err? {
      return blocks, Err(states.error);
    }
    var flows := Extract(b.blocks, head.value, states.value);
    forall op: Op, l: nat | op.Sink?
      ensures Reports(flows, op, l) <==> TaintedPlace(s, op, l)
    {
      PlacesExact(s, op, l);
    }
    r := Ok(flows);
  }

  /** How the worklist ends decides whether there are flows or which error. */
  ghost predicate Ends(r: Result<seq<Flow>, string>, g: Graph, entry: nat) {
    match r
    case Ok(_) => Finishes(g, entry) && !OutOfSteps(g, entry) && !OutOfNames(g, entry)
    case Err(error) =>
      || (error == STEP_ERROR && OutOfSteps(g, entry) && !OutOfNames(g, entry))
      || (error == NAME_ERROR && OutOfNames(g, entry) && !OutOfSteps(g, entry))
  }

  lemma NoNames()
    ensures NameFree(EXIT_BLOCK)
  {
  }
}
