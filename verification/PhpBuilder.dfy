/** The PHP graph builder: blocks are appended, and a loop's condition is given its
    successors once its body has a head. */
module PhpBuilder {
  import opened Wrappers
  import opened PhpFacts
  import C = PhpCompile
  import opened PhpModelled

  class Builder {
    var blocks: C.Graph

    constructor ()
      ensures blocks == C.EXIT_BLOCK
    {
      blocks := [C.Block(C.Nop, [])];
    }

    method Add(op: C.Op, next: seq<nat>) returns (id: Result<nat, string>)
      modifies this
      ensures (blocks, id) == C.Add(old(blocks), C.Block(op, next))
    {
      if |blocks| >= C.BLOCK_BUDGET {
        return Err(C.BUDGET_ERROR);
      }
      id := Ok(|blocks|);
      blocks := blocks + [C.Block(op, next)];
    }

    method Stmt(s: C.Stmt, next: nat, loop: C.Loop) returns (head: Result<nat, string>)
      modifies this
      ensures (blocks, head) == C.Compile(old(blocks), s, next, loop)
      ensures |old(blocks)| <= C.BLOCK_BUDGET ==> Served(|old(blocks)|, Demands(s, loop.Loop?), |blocks|, head)
      decreases s, 1
    {
      hide Served, Demands;
      if |blocks| <= C.BLOCK_BUDGET {
        CompileServed(blocks, s, next, loop);
      }
      match s
      case Compound(k) => head := Stmts(k, next, loop);
      case Skip => head := Ok(next);
      case If(cond, body, alts) => head := If(cond, body, alts, next, loop);
      case While(cond, body) => head := While(cond, body, next);
      case Break(numbered) => head := Jump(numbered, loop, true);
      case Continue(numbered) => head := Jump(numbered, loop, false);
      case Leave(exprs) =>
        var i := 0;
        while i < |exprs|
          invariant 0 <= i <= |exprs| && C.FirstError(exprs[i..]) == C.FirstError(exprs) && blocks == old(blocks)
        {
          assert exprs[i..][1..] == exprs[i + 1..];
          if exprs[i].Err? {
            return Err(exprs[i].error);
          }
          i := i + 1;
        }
        head := Add(C.Nop, []);
      case Do(op) =>
        if op.Err? {
          return Err(op.error);
        }
        head := Add(op.value, [next]);
      case Unmodelled(error) => head := Err(error);
    }

    method Jump(numbered: bool, loop: C.Loop, isBreak: bool) returns (head: Result<nat, string>)
      modifies this
      ensures (blocks, head) ==
        C.CompileJump(old(blocks), numbered, loop, loop.Loop?, if loop.NoLoop? then 0 else if isBreak then loop.br else loop.co)
    {
      if numbered {
        return Err(C.NUMBERED_ERROR);
      }
      if loop.NoLoop? {
        return Err(C.NO_LOOP_ERROR);
      }
      head := Add(C.Nop, [if isBreak then loop.br else loop.co]);
    }

    method Stmts(k: C.Stmts, next: nat, loop: C.Loop) returns (head: Result<nat, string>)
      modifies this
      ensures (blocks, head) == C.CompileAll(old(blocks), k, next, loop)
      decreases k, 1
    {
      match k
      case Nil => head := Ok(next);
      case Cons(s, rest) =>
        head := Stmts(rest, next, loop);
        if head.Ok? {
          head := Stmt(s, head.value, loop);
        }
    }

    method If(cond: Result<Expr, string>, body: C.Stmt, alts: C.Alts, next: nat, loop: C.Loop) returns (head: Result<nat, string>)
      modifies this
      ensures (blocks, head) == C.Compile(old(blocks), C.If(cond, body, alts), next, loop)
      ensures |old(blocks)| <= C.BLOCK_BUDGET ==>
        Served(|old(blocks)|, Demands(C.If(cond, body, alts), loop.Loop?), |blocks|, head)
      decreases C.If(cond, body, alts), 0
    {
      hide Served, Demands;
      if |blocks| <= C.BLOCK_BUDGET {
        CompileServed(blocks, C.If(cond, body, alts), next, loop);
      }
      if cond.Err? {
        return Err(cond.error);
      }
      var yes := Stmt(body, next, loop);
      if yes.Err? {
        return yes;
      }
      var no := Alternatives(alts, next, loop);
      if no.Err? {
        return no;
      }
      head := Add(C.Nop, [yes.value, no.value]);
    }

    method Alternatives(alts: C.Alts, next: nat, loop: C.Loop) returns (no: Result<nat, string>)
      modifies this
      ensures (blocks, no) == C.CompileAlts(old(blocks), alts, next, loop)
      decreases alts, 1
    {
      if alts.NoAlt? {
        return Ok(next);
      }
      no := Alternatives(alts.rest, next, loop);
      if no.Err? {
        return;
      }
      var body := Stmt(alts.body, next, loop);
      if body.Err? || alts.Else? {
        return body;
      }
      if alts.cond.Err? {
        return Err(alts.cond.error);
      }
      no := Add(C.Nop, [body.value, no.value]);
    }

    method While(cond: Result<Expr, string>, body: C.Stmt, next: nat) returns (head: Result<nat, string>)
      modifies this
      ensures forall loop :: (blocks, head) == C.Compile(old(blocks), C.While(cond, body), next, loop)
      decreases C.While(cond, body), 0
    {
      if cond.Err? {
        return Err(cond.error);
      }
      head := Add(C.Nop, []);
      if head.Err? {
        return;
      }
      var header := head.value;
      var entry := Stmt(body, header, C.Loop(next, header));
      if entry.Err? {
        return entry;
      }
      blocks := blocks[header := C.Block(C.Nop, [entry.value, next])];
    }
  }
}
