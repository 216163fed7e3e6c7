/** PHP statements, what their runs may do, and the graph compiled for them in
    continuation style: every statement against the block that comes next. */
module PhpCompile {
  import opened Wrappers
  import opened PhpFacts


  datatype Op =
    | Nop
    | Assign(name: string, expr: Expr)
    | Sink(expr: Expr, bits: bv8, context: string, start: nat, end: nat, line: nat)

  datatype Block = Block(op: Op, next: seq<nat>)

  type Graph = seq<Block>

  /** Two edges of the innermost loop: where `break` and `continue` go. */
  datatype Loop = NoLoop | Loop(br: nat, co: nat)

  datatype Stmts = Nil | Cons(head: Stmt, tail: Stmts)

  /** An expression that could not be modelled is an error in its place. `Leave` is
      `return` or `throw`, with the expressions it evaluates; `Do` is one effect: an
      assignment, an output, a call of a sink, or nothing. */
  datatype Stmt =
    | Compound(stmts: Stmts)
    | Skip
    | If(cond: Result<Expr, string>, body: Stmt, alts: Alts)
    | While(cond: Result<Expr, string>, body: Stmt)
    | Break(numbered: bool)
    | Continue(numbered: bool)
    | Leave(exprs: seq<Result<Expr, string>>)
    | Do(op: Result<Op, string>)
    | Unmodelled(error: string)

  datatype Alts = NoAlt | ElseIf(cond: Result<Expr, string>, body: Stmt, rest: Alts) | Else(body: Stmt, rest: Alts)

  const BLOCK_BUDGET: nat := 1024
  const BUDGET_ERROR := "CFG budget exhausted (1024 blocks)"
  const NUMBERED_ERROR := "numbered loop jump not modelled"
  const NO_LOOP_ERROR := "jump outside supported loop"

  // ---- runs -----------------------------------------------------------

  /** How a run of a statement ends; `Before(op)` is a run observed as it is about to
      perform `op`. */
  datatype Outcome = Normal | Broke | Continued | Returned | Before(op: Op)

  type Ops = seq<Op>

  ghost predicate RunStmts(k: Stmts, t: Ops, o: Outcome)
    decreases k, 0, 0
  {
    match k
    case Nil => t == [] && o == Normal
    case Cons(s, r) =>
      || (o != Normal && Run(s, t, o))
      || (exists t1, t2 :: t == t1 + t2 && Run(s, t1, Normal) && RunStmts(r, t2, o))
  }

  ghost predicate Run(s: Stmt, t: Ops, o: Outcome)
    decreases s, 0, 0
  {
    match s
    case Compound(k) => RunStmts(k, t, o)
    case Skip => t == [] && o == Normal
    case If(_, body, alts) => Run(body, t, o) || RunAlts(alts, t, o)
    case While(_, body) => exists n: nat, t1, t2 :: t == t1 + t2 && RunTurns(body, t1, n) && RunLast(body, t2, o)
    case Break(_) => t == [] && o == Broke
    case Continue(_) => t == [] && o == Continued
    case Leave(_) => t == [] && o == Returned
    case Do(op) => op.Ok? && RunOp(op.value, t, o)
    case Unmodelled(_) => false
  }

  ghost predicate RunOp(op: Op, t: Ops, o: Outcome) {
    if op.Nop? then t == [] && o == Normal
    else (t == [op] && o == Normal) || (t == [] && o == Before(op))
  }

  ghost predicate RunAlts(a: Alts, t: Ops, o: Outcome)
    decreases a, 0, 0
  {
    match a
    case NoAlt => t == [] && o == Normal
    case ElseIf(_, body, rest) => Run(body, t, o) || RunAlts(rest, t, o)
    case Else(body, _) => Run(body, t, o)
  }

  ghost predicate RunTurns(body: Stmt, t: Ops, n: nat)
    decreases body, 2, n
  {
    if n == 0 then t == []
    else exists t1, t2 :: t == t1 + t2 && RunTurn(body, t1) && RunTurns(body, t2, n - 1)
  }

  ghost predicate RunTurn(body: Stmt, t: Ops)
    decreases body, 1, 0
  {
    Run(body, t, Normal) || Run(body, t, Continued)
  }

  /** The loop ends at its condition, by `break`, or with what leaves it from inside. */
  ghost predicate RunLast(body: Stmt, t: Ops, o: Outcome)
    decreases body, 1, 0
  {
    || (t == [] && o == Normal)
    || (o == Normal && Run(body, t, Broke))
    || ((o.Returned? || o.Before?) && Run(body, t, o))
  }

  // ---- the compiled graph ---------------------------------------------

  /** A new block, unless the graph is full. */
  function Add(g: Graph, b: Block): (Graph, Result<nat, string>) {
    if |g| >= BLOCK_BUDGET then (g, Err(BUDGET_ERROR)) else (g + [b], Ok(|g|))
  }

  /** The graph so far and the head of the statement, or why there is none. */
  function Compile(g: Graph, s: Stmt, next: nat, loop: Loop): (r: (Graph, Result<nat, string>))
    ensures |g| <= |r.0|
    decreases s
  {
    match s
    case Compound(k) => CompileAll(g, k, next, loop)
    case Skip => (g, Ok(next))
    case If(cond, body, alts) =>
      if cond.Err? then (g, Err(cond.error))
      else
        var (g1, yes) := Compile(g, body, next, loop);
        if yes.Err? then (g1, yes)
        else
          var (g2, no) := CompileAlts(g1, alts, next, loop);
          if no.Err? then (g2, no) else Add(g2, Block(Nop, [yes.value, no.value]))
    case While(cond, body) =>
      if cond.Err? then (g, Err(cond.error))
      else
        var (g1, header) := Add(g, Block(Nop, []));
        if header.Err? then (g1, header)
        else
          var (g2, head) := Compile(g1, body, |g|, Loop(next, |g|));
          if head.Err? then (g2, head) else (g2[|g| := Block(Nop, [head.value, next])], header)
    case Break(numbered) => CompileJump(g, numbered, loop, loop.Loop?, if loop.Loop? then loop.br else 0)
    case Continue(numbered) => CompileJump(g, numbered, loop, loop.Loop?, if loop.Loop? then loop.co else 0)
    case Leave(exprs) =>
      (match FirstError(exprs)
       case Some(error) => (g, Err(error))
       case None => Add(g, Block(Nop, [])))
    case Do(op) => if op.Err? then (g, Err(op.error)) else Add(g, Block(op.value, [next]))
    case Unmodelled(error) => (g, Err(error))
  }


  function FirstError(exprs: seq<Result<Expr, string>>): Option<string> {
    if exprs == [] then None
    else if exprs[0].Err? then Some(exprs[0].error)
    else FirstError(exprs[1..])
  }

  function CompileJump(g: Graph, numbered: bool, loop: Loop, inLoop: bool, target: nat): (r: (Graph, Result<nat, string>))
    ensures |g| <= |r.0|
  {
    if numbered then (g, Err(NUMBERED_ERROR))
    else if !inLoop then (g, Err(NO_LOOP_ERROR))
    else Add(g, Block(Nop, [target]))
  }

  /** Last statement first. */
  function CompileAll(g: Graph, k: Stmts, next: nat, loop: Loop): (r: (Graph, Result<nat, string>))
    ensures |g| <= |r.0|
    decreases k
  {
    match k
    case Nil => (g, Ok(next))
    case Cons(s, rest) =>
      var (g1, head) := CompileAll(g, rest, next, loop);
      if head.Err? then (g1, head) else Compile(g1, s, head.value, loop)
  }

  /** Last alternative first. */
  function CompileAlts(g: Graph, a: Alts, next: nat, loop: Loop): (r: (Graph, Result<nat, string>))
    ensures |g| <= |r.0|
    decreases a
  {
    match a
    case NoAlt => (g, Ok(next))
    case ElseIf(cond, body, rest) =>
      var (g1, no) := CompileAlts(g, rest, next, loop);
      if no.Err? then (g1, no)
      else
        var (g2, yes) := Compile(g1, body, next, loop);
        if yes.Err? then (g2, yes)
        else if cond.Err? then (g2, Err(cond.error))
        else Add(g2, Block(Nop, [yes.value, no.value]))
    case Else(body, rest) =>
      var (g1, no) := CompileAlts(g, rest, next, loop);
      if no.Err? then (g1, no) else Compile(g1, body, next, loop)
  }

  /** Block 0 is the exit of a unit. */
  const EXIT_BLOCK: Graph := [Block(Nop, [])]

  function CompileUnit(s: Stmt): (Graph, Result<nat, string>) {
    Compile(EXIT_BLOCK, s, 0, NoLoop)
  }
}
