/** Sealed functions are exactly those whose `try` bodies the builder spares. */
module Sealing {
  import opened Cfg
  import opened Python
  import opened Lower
  import opened Growth
  import opened Shape

  /** The `try` statement `s` occurs in `k`, inside a `try` region if `r`. */
  predicate InBlock(s: Stmt, r: bool, k: Block, region: bool) {
    k.Cons? && (InStmt(s, r, k.head, region) || InBlock(s, r, k.tail, region))
  }

  predicate InStmt(s: Stmt, r: bool, k: Stmt, region: bool) {
    match k
    case If(_, body, alts) => InBlock(s, r, body, region) || InAlts(s, r, alts, region)
    case While(_, _, body, orelse) => InBlock(s, r, body, region) || InBlock(s, r, orelse, region)
    case For(_, _, _, body, orelse) => InBlock(s, r, body, region) || InBlock(s, r, orelse, region)
    case Try(body, handlers, orelse, final) =>
      || (s == k && r == region)
      || InBlock(s, r, body, region || final.Cons? || handlers.Handler?)
      || InHandlers(s, r, handlers, region || final.Cons?)
      || InBlock(s, r, orelse, region || final.Cons?)
      || InBlock(s, r, final, region)
    case _ => false
  }

  predicate InAlts(s: Stmt, r: bool, a: Alts, region: bool) {
    match a
    case NoElse => false
    case Else(body) => InBlock(s, r, body, region)
    case Elif(_, body, rest) => InBlock(s, r, body, region) || InAlts(s, r, rest, region)
  }

  predicate InHandlers(s: Stmt, r: bool, h: Handlers, region: bool) {
    h.Handler? && (InBlock(s, r, h.body, region) || InHandlers(s, r, h.rest, region))
  }

  /** Lowering the `else` makes no events in the block the body ended in, which has its
      raise edges by then. */
  predicate TailKept(b: State, s: Stmt)
    requires b.cur < |b.g| && s.Try?
  {
    var b1 := LowerBlock(OpenTry(b, s), s.body);
    LowerElse(b1, PastTry(b, s), s.orelse).g[b1.cur].events == b1.g[b1.cur].events
  }

  /** The exact condition under which a `try` makes events in a block that can already
      raise: the `else` leads with events, no `finally` guards it, and the `try` is
      outside every `try` region. */
  lemma TailKeptIff(b: State, s: Stmt, n: nat)
    requires Fits(b, n) && s.Try? && StmtLocals(s, n)
    ensures TailKept(b, s) <==> InTry(b) || s.final.Cons? || Lead(s.orelse) == []
  {
    hide LowerBlock, LowerElse, OpenTry, BlockLocals, HandlersLocals, Lead;
    LoweredOpenTry(b, s, n);
    TryRaiseOk(b, s, OpenTry(b, s).g);
    LoweredBlock(OpenTry(b, s), s.body, n);
    var b1, past := LowerBlock(OpenTry(b, s), s.body), PastTry(b, s);
    LoweredElse(b1, past, s.orelse, n);
    var r := LowerElse(b1, past, s.orelse);
    assert Gets(b1.g, b1.cur, if past == [EXIT] then Lead(s.orelse) else [], r.g, b1.cur);
  }

  /** Whatever the builder's state, lowering `s` keeps the tail of its body. */
  ghost predicate KeepsTail(s: Stmt, r: bool, n: nat) {
    s.Try? && forall b {:trigger Fits(b, n)} | Fits(b, n) && InTry(b) == r :: TailKept(b, s)
  }

  predicate Guarded(s: Stmt, r: bool) {
    s.Try? && (r || s.final.Cons? || Lead(s.orelse) == [])
  }

  lemma KeepsTailIff(s: Stmt, r: bool, n: nat)
    requires s.Try? && StmtLocals(s, n)
    ensures KeepsTail(s, r, n) <==> Guarded(s, r)
  {
    hide TailKept, StmtLocals;
    if Guarded(s, r) {
      forall b | Fits(b, n) && InTry(b) == r
        ensures TailKept(b, s)
      {
        TailKeptIff(b, s, n);
      }
    } else {
      StartFits(n);
      TailKeptIff(START, s, n);
    }
  }

  lemma StartFits(n: nat)
    ensures Fits(START, n) && !InTry(START)
  {
  }

  // ---- sealed is: every try is guarded --------------------------------

  lemma {:induction false} SealedBlockGuards(k: Block, region: bool, s: Stmt, r: bool)
    requires SealedBlock(k, region) && InBlock(s, r, k, region)
    ensures Guarded(s, r)
    decreases k
  {
    if InStmt(s, r, k.head, region) {
      SealedStmtGuards(k.head, region, s, r);
    } else {
      SealedBlockGuards(k.tail, region, s, r);
    }
  }

  lemma {:induction false} SealedStmtGuards(k: Stmt, region: bool, s: Stmt, r: bool)
    requires SealedStmt(k, region) && InStmt(s, r, k, region)
    ensures Guarded(s, r)
    decreases k
  {
    hide SealedBlock, InBlock, InHandlers, SealedHandlers, InAlts, SealedAlts, Lead;
    match k
    case If(_, body, alts) =>
      if InBlock(s, r, body, region) {
        SealedBlockGuards(body, region, s, r);
      } else {
        SealedAltsGuard(alts, region, s, r);
      }
    case While(_, _, body, orelse) =>
      SealedBlockGuards(if InBlock(s, r, body, region) then body else orelse, region, s, r);
    case For(_, _, _, body, orelse) =>
      SealedBlockGuards(if InBlock(s, r, body, region) then body else orelse, region, s, r);
    case Try(body, handlers, orelse, final) =>
      var outer := region || final.Cons?;
      if s == k && r == region {
      } else if InBlock(s, r, body, outer || handlers.Handler?) {
        SealedBlockGuards(body, outer || handlers.Handler?, s, r);
      } else if InHandlers(s, r, handlers, outer) {
        SealedHandlersGuard(handlers, outer, s, r);
      } else if InBlock(s, r, orelse, outer) {
        SealedBlockGuards(orelse, outer, s, r);
      } else {
        SealedBlockGuards(final, region, s, r);
      }
  }

  lemma {:induction false} SealedAltsGuard(a: Alts, region: bool, s: Stmt, r: bool)
    requires SealedAlts(a, region) && InAlts(s, r, a, region)
    ensures Guarded(s, r)
    decreases a
  {
    if a.Elif? && !InBlock(s, r, a.body, region) {
      SealedAltsGuard(a.rest, region, s, r);
    } else {
      SealedBlockGuards(a.body, region, s, r);
    }
  }

  lemma {:induction false} SealedHandlersGuard(h: Handlers, region: bool, s: Stmt, r: bool)
    requires SealedHandlers(h, region) && InHandlers(s, r, h, region)
    ensures Guarded(s, r)
    decreases h
  {
    if InBlock(s, r, h.body, region) {
      SealedBlockGuards(h.body, region, s, r);
    } else {
      SealedHandlersGuard(h.rest, region, s, r);
    }
  }

  lemma {:induction false} UnsealedBlock(k: Block, region: bool, n: nat) returns (s: Stmt, r: bool)
    requires !SealedBlock(k, region) && BlockLocals(k, n)
    ensures InBlock(s, r, k, region) && StmtLocals(s, n) && s.Try? && !Guarded(s, r)
    decreases k
  {
    if !SealedStmt(k.head, region) {
      s, r := UnsealedStmt(k.head, region, n);
    } else {
      s, r := UnsealedBlock(k.tail, region, n);
    }
  }

  lemma {:induction false} UnsealedStmt(k: Stmt, region: bool, n: nat) returns (s: Stmt, r: bool)
    requires !SealedStmt(k, region) && StmtLocals(k, n)
    ensures InStmt(s, r, k, region) && StmtLocals(s, n) && s.Try? && !Guarded(s, r)
    decreases k
  {
    hide InBlock, InHandlers, InAlts, Lead;
    match k
    case If(_, body, alts) =>
      if !SealedBlock(body, region) {
        s, r := UnsealedBlock(body, region, n);
      } else {
        s, r := UnsealedAlts(alts, region, n);
      }
    case While(_, _, body, orelse) =>
      s, r := UnsealedBlock(if SealedBlock(body, region) then orelse else body, region, n);
    case For(_, _, _, body, orelse) =>
      s, r := UnsealedBlock(if SealedBlock(body, region) then orelse else body, region, n);
    case Try(body, handlers, orelse, final) =>
      var outer := region || final.Cons?;
      if !outer && Lead(orelse) != [] {
        s, r := k, region;
      } else if !SealedBlock(body, outer || handlers.Handler?) {
        s, r := UnsealedBlock(body, outer || handlers.Handler?, n);
      } else if !SealedHandlers(handlers, outer) {
        s, r := UnsealedHandlers(handlers, outer, n);
      } else if !SealedBlock(orelse, outer) {
        s, r := UnsealedBlock(orelse, outer, n);
      } else {
        s, r := UnsealedBlock(final, region, n);
      }
  }

  lemma {:induction false} UnsealedAlts(a: Alts, region: bool, n: nat) returns (s: Stmt, r: bool)
    requires !SealedAlts(a, region) && AltsLocals(a, n)
    ensures InAlts(s, r, a, region) && StmtLocals(s, n) && s.Try? && !Guarded(s, r)
    decreases a
  {
    if a.Elif? && SealedBlock(a.body, region) {
      s, r := UnsealedAlts(a.rest, region, n);
    } else {
      s, r := UnsealedBlock(a.body, region, n);
    }
  }

  lemma {:induction false} UnsealedHandlers(h: Handlers, region: bool, n: nat) returns (s: Stmt, r: bool)
    requires !SealedHandlers(h, region) && HandlersLocals(h, n)
    ensures InHandlers(s, r, h, region) && StmtLocals(s, n) && s.Try? && !Guarded(s, r)
    decreases h
  {
    if !SealedBlock(h.body, region) {
      s, r := UnsealedBlock(h.body, region, n);
    } else {
      s, r := UnsealedHandlers(h.rest, region, n);
    }
  }

  /** A function is sealed just when the builder keeps the tail of every `try` in it. */
  lemma SealedIff(body: Block, n: nat)
    requires BlockLocals(body, n)
    ensures Sealed(body) <==> forall s, r | InBlock(s, r, body, false) && StmtLocals(s, n) :: KeepsTail(s, r, n)
  {
    hide SealedBlock, InBlock, KeepsTail, StmtLocals, BlockLocals;
    if Sealed(body) {
      forall s, r | InBlock(s, r, body, false) && StmtLocals(s, n)
        ensures KeepsTail(s, r, n)
      {
        SealedBlockGuards(body, false, s, r);
        KeepsTailIff(s, r, n);
      }
    } else {
      var s, r := UnsealedBlock(body, false, n);
      KeepsTailIff(s, r, n);
    }
  }
}
