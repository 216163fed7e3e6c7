/** When a PHP unit compiles, and with which error it does not. */
module PhpModelled {
  import opened Wrappers
  import opened PhpFacts
  import opened PhpCompile

  // ---- by the text alone ----------------------------------------------

  /** Every expression is modelled, and every jump is plain and inside a loop. */
  predicate Modelled(s: Stmt, inLoop: bool) {
    match s
    case Compound(k) => ModelledAll(k, inLoop)
    case Skip => true
    case If(cond, body, alts) => cond.Ok? && Modelled(body, inLoop) && ModelledAlts(alts, inLoop)
    case While(cond, body) => cond.Ok? && Modelled(body, true)
    case Break(numbered) => inLoop && !numbered
    case Continue(numbered) => inLoop && !numbered
    case Leave(exprs) => forall i | 0 <= i < |exprs| :: exprs[i].Ok?
    case Do(op) => op.Ok?
    case Unmodelled(_) => false
  }

  predicate ModelledAll(k: Stmts, inLoop: bool) {
    k.Cons? ==> Modelled(k.head, inLoop) && ModelledAll(k.tail, inLoop)
  }

  predicate ModelledAlts(a: Alts, inLoop: bool) {
    match a
    case NoAlt => true
    case ElseIf(cond, body, rest) => cond.Ok? && Modelled(body, inLoop) && ModelledAlts(rest, inLoop)
    case Else(body, rest) => Modelled(body, inLoop) && ModelledAlts(rest, inLoop)
  }

  /** One block for every effect, jump, condition and exit. */
  function Size(s: Stmt): nat {
    match s
    case Compound(k) => SizeAll(k)
    case Skip => 0
    case If(_, body, alts) => Size(body) + SizeAlts(alts) + 1
    case While(_, body) => 1 + Size(body)
    case _ => 1
  }

  function SizeAll(k: Stmts): nat {
    if k.Nil? then 0 else Size(k.head) + SizeAll(k.tail)
  }

  function SizeAlts(a: Alts): nat {
    match a
    case NoAlt => 0
    case ElseIf(_, body, rest) => Size(body) + SizeAlts(rest) + 1
    case Else(body, rest) => Size(body) + SizeAlts(rest)
  }

  // ---- in the order of the compiler -----------------------------------

  /** What compiling asks for: a new block, or to give up. */
  datatype Demand = NewBlock | Fault(error: string)

  function Checked<T>(r: Result<T, string>): seq<Demand> {
    if r.Err? then [Fault(r.error)] else []
  }

  function CheckedAll<T>(rs: seq<Result<T, string>>): seq<Demand> {
    if rs == [] then [] else Checked(rs[0]) + CheckedAll(rs[1..])
  }

  function JumpDemands(numbered: bool, inLoop: bool): seq<Demand> {
    (if numbered then [Fault(NUMBERED_ERROR)] else []) + (if inLoop then [] else [Fault(NO_LOOP_ERROR)]) + [NewBlock]
  }

  /** A condition is looked at before the body, except that of an `elseif`; statements and
      alternatives are taken last to first. */
  function Demands(s: Stmt, inLoop: bool): seq<Demand> {
    match s
    case Compound(k) => DemandsAll(k, inLoop)
    case Skip => []
    case If(cond, body, alts) => Checked(cond) + Demands(body, inLoop) + DemandsAlts(alts, inLoop) + [NewBlock]
    case While(cond, body) => Checked(cond) + [NewBlock] + Demands(body, true)
    case Break(numbered) => JumpDemands(numbered, inLoop)
    case Continue(numbered) => JumpDemands(numbered, inLoop)
    case Leave(exprs) => CheckedAll(exprs) + [NewBlock]
    case Do(op) => Checked(op) + [NewBlock]
    case Unmodelled(error) => [Fault(error)]
  }

  function DemandsAll(k: Stmts, inLoop: bool): seq<Demand> {
    if k.Nil? then [] else DemandsAll(k.tail, inLoop) + Demands(k.head, inLoop)
  }

  function DemandsAlts(a: Alts, inLoop: bool): seq<Demand> {
    match a
    case NoAlt => []
    case ElseIf(cond, body, rest) => DemandsAlts(rest, inLoop) + Demands(body, inLoop) + Checked(cond) + [NewBlock]
    case Else(body, rest) => DemandsAlts(rest, inLoop) + Demands(body, inLoop)
  }

  predicate AllBlocks(ds: seq<Demand>) {
    forall i | 0 <= i < |ds| :: ds[i].NewBlock?
  }

  /** Demand `i` is the first that cannot be met: a fault, or a block too many. */
  predicate StopsAt(n: nat, ds: seq<Demand>, i: nat, error: string) {
    && i < |ds| && AllBlocks(ds[..i]) && n + i <= BLOCK_BUDGET
    && match ds[i]
       case Fault(e) => error == e
       case NewBlock => n + i == BLOCK_BUDGET && error == BUDGET_ERROR
  }

  /** From `n` blocks to `n'`, meeting all demands, or those before the first that cannot
      be met. */
  ghost predicate Served(n: nat, ds: seq<Demand>, n': nat, r: Result<nat, string>) {
    match r
    case Ok(_) => AllBlocks(ds) && n' == n + |ds| <= BLOCK_BUDGET
    case Err(error) => n <= n' && StopsAt(n, ds, n' - n, error)
  }

  lemma ServedThen(n: nat, ds: seq<Demand>, n1: nat, r1: Result<nat, string>, ds': seq<Demand>, n2: nat, r2: Result<nat, string>)
    requires Served(n, ds, n1, r1)
    requires if r1.Ok? then Served(n1, ds', n2, r2) else n2 == n1 && r2 == r1
    ensures Served(n, ds + ds', n2, r2)
  {
    if r1.Ok? {
      if r2.Err? {
        assert (ds + ds')[..n2 - n] == ds + ds'[..n2 - n1];
      }
    } else {
      assert (ds + ds')[..n2 - n] == ds[..n2 - n];
    }
  }

  lemma CheckedServed<T>(n: nat, c: Result<T, string>, r: Result<nat, string>)
    requires n <= BLOCK_BUDGET && (c.Err? <==> r.Err?) && (c.Err? ==> r.error == c.error)
    ensures Served(n, Checked(c), n, r)
  {
  }

  lemma {:induction false} CheckedAllServed(n: nat, exprs: seq<Result<Expr, string>>, r: Result<nat, string>)
    requires n <= BLOCK_BUDGET
    requires match FirstError(exprs)
      case Some(error) => r == Err(error)
      case None => r.Ok?
    ensures Served(n, CheckedAll(exprs), n, r)
  {
    if exprs != [] {
      if exprs[0].Ok? {
        CheckedAllServed(n, exprs[1..], r);
      }
      CheckedServed(n, exprs[0], if exprs[0].Ok? then Ok(0) else r);
      ServedThen(n, Checked(exprs[0]), n, if exprs[0].Ok? then Ok(0) else r, CheckedAll(exprs[1..]), n, r);
    }
  }

  lemma AddServed(g: Graph, b: Block)
    requires |g| <= BLOCK_BUDGET
    ensures Served(|g|, [NewBlock], |Add(g, b).0|, Add(g, b).1)
  {
  }

  lemma NothingServed(n: nat, r: Result<nat, string>)
    requires n <= BLOCK_BUDGET && r.Ok?
    ensures Served(n, [], n, r)
  {
  }

  /** Checking comes first, and then a block. */
  lemma CheckedAdd(g: Graph, ds: seq<Demand>, r: Result<nat, string>, b: Block)
    requires |g| <= BLOCK_BUDGET && Served(|g|, ds, |g|, r)
    ensures var (g1, r1) := if r.Err? then (g, r) else Add(g, b);
      Served(|g|, ds + [NewBlock], |g1|, r1)
  {
    hide Served, Add;
    var (g1, r1) := if r.Err? then (g, r) else Add(g, b);
    AddServed(g, b);
    ServedThen(|g|, ds, |g|, r, [NewBlock], |g1|, r1);
  }

  lemma JumpServed(g: Graph, numbered: bool, loop: Loop, target: nat)
    requires |g| <= BLOCK_BUDGET
    ensures var (g1, r) := CompileJump(g, numbered, loop, loop.Loop?, target);
      Served(|g|, JumpDemands(numbered, loop.Loop?), |g1|, r)
  {
  }

  /** Every statement meets its demands in order. */
  lemma {:induction false} CompileServed(g: Graph, s: Stmt, next: nat, loop: Loop)
    requires |g| <= BLOCK_BUDGET
    ensures var (g', r) := Compile(g, s, next, loop);
      Served(|g|, Demands(s, loop.Loop?), |g'|, r)
    decreases s, 1
  {
    hide Served, CompileAll, CompileAlts, CompileJump, JumpDemands, DemandsAll, DemandsAlts, CheckedAll, Add, FirstError;
    var (n, inLoop) := (|g|, loop.Loop?);
    match s
    case Compound(k) => CompileAllServed(g, k, next, loop);
    case Skip => NothingServed(n, Ok(next));
    case If(cond, body, alts) => IfServed(g, cond, body, alts, next, loop);
    case While(cond, body) => WhileServed(g, cond, body, next, loop);
    case Break(numbered) => JumpServed(g, numbered, loop, if loop.Loop? then loop.br else 0);
    case Continue(numbered) => JumpServed(g, numbered, loop, if loop.Loop? then loop.co else 0);
    case Leave(exprs) =>
      var r0 := match FirstError(exprs) { case Some(error) => Err(error) case None => Ok(0) };
      CheckedAllServed(n, exprs, r0);
      CheckedAdd(g, CheckedAll(exprs), r0, Block(Nop, []));
    case Do(op) =>
      var r0 := if op.Err? then Err(op.error) else Ok(0);
      CheckedServed(n, op, r0);
      CheckedAdd(g, Checked(op), r0, Block(if op.Ok? then op.value else Nop, [next]));
    case Unmodelled(error) => FaultServed(n, error);
  }

  lemma {:induction false} IfServed(g: Graph, cond: Result<Expr, string>, body: Stmt, alts: Alts, next: nat, loop: Loop)
    requires |g| <= BLOCK_BUDGET
    ensures var (g', r) := Compile(g, If(cond, body, alts), next, loop);
      Served(|g|, Demands(If(cond, body, alts), loop.Loop?), |g'|, r)
    decreases If(cond, body, alts), 0
  {
    hide Served, CompileAlts, DemandsAlts, Add;
    var (n, inLoop) := (|g|, loop.Loop?);
    var r0 := if cond.Err? then Err(cond.error) else Ok(0);
    CheckedServed(n, cond, r0);
    var (g1, yes) := if cond.Err? then (g, r0) else Compile(g, body, next, loop);
    CompileServed(g, body, next, loop);
    ServedThen(n, Checked(cond), n, r0, Demands(body, inLoop), |g1|, yes);
    ServedFits(n, Checked(cond) + Demands(body, inLoop), |g1|, yes);
    var (g2, no) := if yes.Err? then (g1, yes) else CompileAlts(g1, alts, next, loop);
    CompileAltsServed(g1, alts, next, loop);
    ServedThen(n, Checked(cond) + Demands(body, inLoop), |g1|, yes, DemandsAlts(alts, inLoop), |g2|, no);
    BranchServed(g, Checked(cond) + Demands(body, inLoop) + DemandsAlts(alts, inLoop), g2, yes, no);
  }

  lemma {:induction false} WhileServed(g: Graph, cond: Result<Expr, string>, body: Stmt, next: nat, loop: Loop)
    requires |g| <= BLOCK_BUDGET
    ensures var (g', r) := Compile(g, While(cond, body), next, loop);
      Served(|g|, Demands(While(cond, body), loop.Loop?), |g'|, r)
    decreases While(cond, body), 0
  {
    hide Served, Add;
    var n := |g|;
    var r0 := if cond.Err? then Err(cond.error) else Ok(0);
    CheckedServed(n, cond, r0);
    CheckedAdd(g, Checked(cond), r0, Block(Nop, []));
    var (g1, header) := if cond.Err? then (g, r0) else Add(g, Block(Nop, []));
    ServedFits(n, Checked(cond) + [NewBlock], |g1|, header);
    var (g2, head) := if header.Err? then (g1, header) else Compile(g1, body, |g|, Loop(next, |g|));
    CompileServed(g1, body, |g|, Loop(next, |g|));
    ServedThen(n, Checked(cond) + [NewBlock], |g1|, header, Demands(body, true), |g2|, head);
    ServedAs(n, Demands(While(cond, body), loop.Loop?), |g2|, head, if head.Ok? then header else head);
  }

  lemma FaultServed(n: nat, error: string)
    requires n <= BLOCK_BUDGET
    ensures Served(n, [Fault(error)], n, Err(error))
  {
  }

  lemma ServedFits(n: nat, ds: seq<Demand>, n': nat, r: Result<nat, string>)
    requires Served(n, ds, n', r)
    ensures n <= n' <= BLOCK_BUDGET
  {
  }

  lemma ServedAs(n: nat, ds: seq<Demand>, n': nat, r: Result<nat, string>, r': Result<nat, string>)
    requires Served(n, ds, n', r) && (r.Err? <==> r'.Err?) && (r.Err? ==> r == r')
    ensures Served(n, ds, n', r')
  {
  }

  /** The block of a condition, after both its branches. */
  lemma BranchServed(g: Graph, ds: seq<Demand>, g2: Graph, yes: Result<nat, string>, no: Result<nat, string>)
    requires |g| <= BLOCK_BUDGET && Served(|g|, ds, |g2|, no) && (no.Ok? ==> yes.Ok?)
    ensures var (g3, r) := if no.Err? then (g2, no) else Add(g2, Block(Nop, [yes.value, no.value]));
      Served(|g|, ds + [NewBlock], |g3|, r)
  {
    hide Served, Add;
    ServedFits(|g|, ds, |g2|, no);
    if no.Ok? {
      AddServed(g2, Block(Nop, [yes.value, no.value]));
      ServedThen(|g|, ds, |g2|, no, [NewBlock], |Add(g2, Block(Nop, [yes.value, no.value])).0|, Add(g2, Block(Nop, [yes.value, no.value])).1);
    } else {
      ServedThen(|g|, ds, |g2|, no, [NewBlock], |g2|, no);
    }
  }

  lemma {:induction false} CompileAllServed(g: Graph, k: Stmts, next: nat, loop: Loop)
    requires |g| <= BLOCK_BUDGET
    ensures var (g', r) := CompileAll(g, k, next, loop);
      Served(|g|, DemandsAll(k, loop.Loop?), |g'|, r)
    decreases k, 1
  {
    hide Served, Compile, Demands;
    if k.Nil? {
      NothingServed(|g|, Ok(next));
    } else {
      var (g1, head) := CompileAll(g, k.tail, next, loop);
      CompileAllServed(g, k.tail, next, loop);
      ServedFits(|g|, DemandsAll(k.tail, loop.Loop?), |g1|, head);
      if head.Ok? {
        CompileServed(g1, k.head, head.value, loop);
      }
      var (g2, r) := CompileAll(g, k, next, loop);
      ServedThen(|g|, DemandsAll(k.tail, loop.Loop?), |g1|, head, Demands(k.head, loop.Loop?), |g2|, r);
    }
  }

  lemma {:induction false} CompileAltsServed(g: Graph, a: Alts, next: nat, loop: Loop)
    requires |g| <= BLOCK_BUDGET
    ensures var (g', r) := CompileAlts(g, a, next, loop);
      Served(|g|, DemandsAlts(a, loop.Loop?), |g'|, r)
    decreases a, 1
  {
    hide Served, Compile, Demands, Add;
    var (n, inLoop) := (|g|, loop.Loop?);
    if a.NoAlt? {
      NothingServed(n, Ok(next));
    } else {
      var (g1, no) := CompileAlts(g, a.rest, next, loop);
      CompileAltsServed(g, a.rest, next, loop);
      ServedFits(n, DemandsAlts(a.rest, inLoop), |g1|, no);
      var (g2, yes) := if no.Err? then (g1, no) else Compile(g1, a.body, next, loop);
      CompileServed(g1, a.body, next, loop);
      var ds := DemandsAlts(a.rest, inLoop) + Demands(a.body, inLoop);
      ServedThen(n, DemandsAlts(a.rest, inLoop), |g1|, no, Demands(a.body, inLoop), |g2|, yes);
      if a.ElseIf? {
        ServedFits(n, ds, |g2|, yes);
        var checked := if yes.Err? then yes else if a.cond.Err? then Err(a.cond.error) else no;
        CheckedServed(|g2|, a.cond, if a.cond.Err? then Err(a.cond.error) else if no.Ok? then no else Ok(0));
        ServedThen(n, ds, |g2|, yes, Checked(a.cond), |g2|, checked);
        BranchServed(g, ds + Checked(a.cond), g2, yes, checked);
      }
    }
  }

  // ---- the order does not matter to whether it compiles ----------------

  lemma AllBlocksAppend(ds: seq<Demand>, ds': seq<Demand>)
    ensures AllBlocks(ds + ds') <==> AllBlocks(ds) && AllBlocks(ds')
  {
    assert AllBlocks(ds + ds') ==> forall i | 0 <= i < |ds'| :: (ds + ds')[|ds| + i] == ds'[i];
    assert AllBlocks(ds + ds') ==> forall i | 0 <= i < |ds| :: (ds + ds')[i] == ds[i];
  }

  lemma {:induction false} CheckedAllBlocks(exprs: seq<Result<Expr, string>>)
    ensures AllBlocks(CheckedAll(exprs)) <==> forall i | 0 <= i < |exprs| :: exprs[i].Ok?
    ensures AllBlocks(CheckedAll(exprs)) ==> CheckedAll(exprs) == []
  {
    hide AllBlocks, Checked;
    FewBlocks();
    if exprs != [] {
      var rest := exprs[1..];
      CheckedAllBlocks(rest);
      CheckedBlocks(exprs[0]);
      AllBlocksAppend(Checked(exprs[0]), CheckedAll(rest));
      assert forall i | 0 <= i < |rest| :: rest[i] == exprs[i + 1];
      assert forall i | 0 < i < |exprs| :: exprs[i] == rest[i - 1];
    }
  }

  /** No demand is a fault just when the statement is modelled, and then they are as many
      as its blocks. */
  lemma {:induction false} DemandsModelled(s: Stmt, inLoop: bool)
    ensures AllBlocks(Demands(s, inLoop)) <==> Modelled(s, inLoop)
    ensures Modelled(s, inLoop) ==> |Demands(s, inLoop)| == Size(s)
    decreases s
  {
    hide DemandsAll, DemandsAlts, CheckedAll, ModelledAll, ModelledAlts, AllBlocks;
    FewBlocks();
    match s
    case Compound(k) => DemandsAllModelled(k, inLoop);
    case If(cond, body, alts) =>
      DemandsModelled(body, inLoop);
      DemandsAltsModelled(alts, inLoop);
      CheckedBlocks(cond);
      AllBlocksAppend(Checked(cond), Demands(body, inLoop));
      AllBlocksAppend(Checked(cond) + Demands(body, inLoop), DemandsAlts(alts, inLoop));
      AllBlocksAppend(Checked(cond) + Demands(body, inLoop) + DemandsAlts(alts, inLoop), [NewBlock]);
    case While(cond, body) =>
      DemandsModelled(body, true);
      CheckedBlocks(cond);
      AllBlocksAppend(Checked(cond), [NewBlock]);
      AllBlocksAppend(Checked(cond) + [NewBlock], Demands(body, true));
    case Leave(exprs) =>
      CheckedAllBlocks(exprs);
      AllBlocksAppend(CheckedAll(exprs), [NewBlock]);
    case Do(op) =>
      CheckedBlocks(op);
      AllBlocksAppend(Checked(op), [NewBlock]);
    case Break(numbered) => JumpBlocks(numbered, inLoop);
    case Continue(numbered) => JumpBlocks(numbered, inLoop);
    case Skip =>
    case Unmodelled(error) => FaultBlocks(error);
  }

  lemma FewBlocks()
    ensures AllBlocks([]) && AllBlocks([NewBlock])
  {
  }

  lemma FaultBlocks(error: string)
    ensures !AllBlocks([Fault(error)])
  {
    assert [Fault(error)][0].Fault?;
  }

  lemma CheckedBlocks<T>(r: Result<T, string>)
    ensures AllBlocks(Checked(r)) <==> r.Ok?
    ensures r.Ok? ==> Checked(r) == []
  {
    if r.Err? {
      FaultBlocks(r.error);
    }
  }

  lemma JumpBlocks(numbered: bool, inLoop: bool)
    ensures AllBlocks(JumpDemands(numbered, inLoop)) <==> inLoop && !numbered
    ensures AllBlocks(JumpDemands(numbered, inLoop)) ==> |JumpDemands(numbered, inLoop)| == 1
  {
    var ds := JumpDemands(numbered, inLoop);
    if numbered || !inLoop {
      assert ds[0].Fault?;
    }
  }

  lemma {:induction false} DemandsAllModelled(k: Stmts, inLoop: bool)
    ensures AllBlocks(DemandsAll(k, inLoop)) <==> ModelledAll(k, inLoop)
    ensures ModelledAll(k, inLoop) ==> |DemandsAll(k, inLoop)| == SizeAll(k)
    decreases k
  {
    hide Demands, Modelled, Size;
    if k.Cons? {
      DemandsModelled(k.head, inLoop);
      DemandsAllModelled(k.tail, inLoop);
      AllBlocksAppend(DemandsAll(k.tail, inLoop), Demands(k.head, inLoop));
    }
  }

  lemma {:induction false} DemandsAltsModelled(a: Alts, inLoop: bool)
    ensures AllBlocks(DemandsAlts(a, inLoop)) <==> ModelledAlts(a, inLoop)
    ensures ModelledAlts(a, inLoop) ==> |DemandsAlts(a, inLoop)| == SizeAlts(a)
    decreases a
  {
    hide Demands, Modelled, Size, AllBlocks;
    FewBlocks();
    if !a.NoAlt? {
      DemandsModelled(a.body, inLoop);
      DemandsAltsModelled(a.rest, inLoop);
      AllBlocksAppend(DemandsAlts(a.rest, inLoop), Demands(a.body, inLoop));
      if a.ElseIf? {
        CheckedBlocks(a.cond);
        AllBlocksAppend(DemandsAlts(a.rest, inLoop) + Demands(a.body, inLoop), Checked(a.cond));
        AllBlocksAppend(DemandsAlts(a.rest, inLoop) + Demands(a.body, inLoop) + Checked(a.cond), [NewBlock]);
      }
    }
  }

  /** A unit compiles just when it is modelled and its blocks, with the exit, are not too
      many; otherwise it is given up at the first demand that cannot be met. */
  lemma CompilesIff(s: Stmt)
    ensures var (g, r) := CompileUnit(s);
      && (r.Ok? <==> Modelled(s, false) && 1 + Size(s) <= BLOCK_BUDGET)
      && (r.Ok? ==> |g| == 1 + Size(s))
      && Served(1, Demands(s, false), |g|, r)
  {
    hide Compile, Demands, Modelled, Size;
    CompileServed(EXIT_BLOCK, s, 0, NoLoop);
    DemandsModelled(s, false);
    var (g, r) := CompileUnit(s);
    if r.Err? && Modelled(s, false) {
      assert Demands(s, false)[|g| - 1].NewBlock?;
    }
  }
}
