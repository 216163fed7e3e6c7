/** What lowering does to any function body, legal or not: edges stay in range, never
    enter ENTRY and never leave EXIT; every event comes from the body; and of the blocks
    there before, only the current one gets events, exactly those the body leads with. */
module Shape {
  import opened Cfg
  import opened Python
  import opened Lower
  import opened Growth
  import opened Queries

  // ---- the locals of a body -------------------------------------------

  predicate BlockLocals(k: Block, n: nat) {
    k.Cons? ==> StmtLocals(k.head, n) && BlockLocals(k.tail, n)
  }

  predicate StmtLocals(s: Stmt, n: nat) {
    match s
    case Simple(ev) => LocalsOk(ev, n)
    case Return(ev) => LocalsOk(ev, n)
    case Raise(ev) => LocalsOk(ev, n)
    case Break => true
    case Continue => true
    case If(cond, body, alts) => LocalsOk(cond, n) && BlockLocals(body, n) && AltsLocals(alts, n)
    case While(_, cond, body, orelse) => LocalsOk(cond, n) && BlockLocals(body, n) && BlockLocals(orelse, n)
    case For(iterable, _, target, body, orelse) =>
      LocalsOk(iterable, n) && LocalsOk(target, n) && BlockLocals(body, n) && BlockLocals(orelse, n)
    case Try(body, handlers, orelse, final) =>
      BlockLocals(body, n) && HandlersLocals(handlers, n) && BlockLocals(orelse, n) && BlockLocals(final, n)
  }

  predicate AltsLocals(a: Alts, n: nat) {
    match a
    case NoElse => true
    case Else(body) => BlockLocals(body, n)
    case Elif(cond, body, rest) => LocalsOk(cond, n) && BlockLocals(body, n) && AltsLocals(rest, n)
  }

  predicate HandlersLocals(h: Handlers, n: nat) {
    h.Handler? ==>
      LocalsOk(h.header, n) && BlockLocals(h.body, n) && LocalsOk(h.unbind, n) && HandlersLocals(h.rest, n)
  }

  // ---- states ---------------------------------------------------------

  predicate EventsFit(g: Graph, n: nat) {
    forall i {:trigger Fit(g, n, i)} | 0 <= i < |g| :: Fit(g, n, i)
  }

  predicate Fit(g: Graph, n: nat, i: nat)
    requires i < |g|
  {
    LocalsOk(g[i].events, n)
  }

  predicate FrameFits(g: Graph, f: Frame, n: nat) {
    match f
    case Loop(brk, cont) => Target(g, brk) && Target(g, cont)
    case Finally(body, outerRaise) => RaiseOk(g, outerRaise) && BlockLocals(body, n)
  }

  predicate FramesFit(g: Graph, fs: seq<Frame>, n: nat) {
    forall i | 0 <= i < |fs| :: FrameFits(g, fs[i], n)
  }

  predicate Fits(b: State, n: nat) {
    && GraphOk(b.g) && EventsFit(b.g, n) && b.cur < |b.g| && b.cur != EXIT
    && FramesFit(b.g, b.frames, n) && RaiseOk(b.g, b.raiseTo)
  }

  /** Block `i` has the events it had, and `ev` after them if it is block `a`. */
  predicate Gets(g: Graph, a: nat, ev: Trace, g': Graph, i: nat)
    requires i < |g| <= |g'|
  {
    g'[i].events == g[i].events + if i == a then ev else []
  }

  predicate Appends(g: Graph, a: nat, ev: Trace, g': Graph) {
    |g| <= |g'| && forall i {:trigger Gets(g, a, ev, g', i)} | 0 <= i < |g| :: Gets(g, a, ev, g', i)
  }

  ghost predicate Lowered(b: State, ev: Trace, r: State, n: nat) {
    && Fits(r, n) && Follows(b, r) && Appends(b.g, b.cur, ev, r.g)
    && (r.cur == b.cur || |b.g| <= r.cur)
  }

  lemma AppendsTrans(g: Graph, a: nat, ev: Trace, g1: Graph, a1: nat, ev1: Trace, g2: Graph)
    requires Appends(g, a, ev, g1) && Appends(g1, a1, ev1, g2)
    requires a1 == a || |g| <= a1 || ev1 == []
    ensures Appends(g, a, ev + if a1 == a then ev1 else [], g2)
  {
    var all := ev + if a1 == a then ev1 else [];
    forall i | 0 <= i < |g|
      ensures Gets(g, a, all, g2, i)
    {
      assert Gets(g, a, ev, g1, i) && Gets(g1, a1, ev1, g2, i);
    }
  }

  lemma AppendsAfter(g: Graph, a: nat, ev: Trace, g1: Graph, a1: nat, ev1: Trace, g2: Graph)
    requires Appends(g, a, ev, g1) && Appends(g1, a1, ev1, g2)
    requires |g| <= a1 || ev1 == []
    ensures Appends(g, a, ev, g2)
  {
    forall i | 0 <= i < |g|
      ensures Gets(g, a, ev, g2, i)
    {
      assert Gets(g, a, ev, g1, i) && Gets(g1, a1, ev1, g2, i);
    }
  }

  lemma AppendsElsewhere(g: Graph, a: nat, c: nat, ev: Trace, g': Graph)
    requires Appends(g, a, ev, g') && (|g| <= a || ev == [])
    ensures Appends(g, c, [], g')
  {
    forall i | 0 <= i < |g|
      ensures Gets(g, c, [], g', i)
    {
      assert Gets(g, a, ev, g', i);
    }
  }

  // ---- plumbing -------------------------------------------------------

  lemma LinkFits(g: Graph, a: nat, c: nat, n: nat)
    requires GraphOk(g) && EventsFit(g, n) && a < |g| && a != EXIT && Target(g, c)
    ensures GraphOk(Link(g, a, c)) && EventsFit(Link(g, a, c), n) && Appends(g, a, [], Link(g, a, c))
  {
    LinkExtends(g, a, c);
    forall i | 0 <= i < |g|
      ensures Fit(Link(g, a, c), n, i)
    {
      assert Fit(g, n, i);
    }
  }

  lemma {:induction false} LinkAllFits(g: Graph, a: nat, ts: seq<nat>, n: nat)
    requires GraphOk(g) && EventsFit(g, n) && a < |g| && a != EXIT
    requires forall i | 0 <= i < |ts| :: Target(g, ts[i])
    ensures GraphOk(LinkAll(g, a, ts)) && EventsFit(LinkAll(g, a, ts), n) && Appends(g, a, [], LinkAll(g, a, ts))
  {
    if ts != [] {
      var g1 := LinkAll(g, a, ts[..|ts| - 1]);
      LinkAllFits(g, a, ts[..|ts| - 1], n);
      LinkFits(g1, a, ts[|ts| - 1], n);
      AppendsAfter(g, a, [], g1, a, [], LinkAll(g, a, ts));
    }
  }

  lemma {:induction false} LinkFromFits(g: Graph, froms: seq<nat>, c: nat, n: nat)
    requires GraphOk(g) && EventsFit(g, n) && Target(g, c)
    requires forall i | 0 <= i < |froms| :: froms[i] < |g| && froms[i] != EXIT
    ensures GraphOk(LinkFrom(g, froms, c)) && EventsFit(LinkFrom(g, froms, c), n)
    ensures Appends(g, c, [], LinkFrom(g, froms, c))
  {
    if froms != [] {
      var g1 := LinkFrom(g, froms[..|froms| - 1], c);
      LinkFromFits(g, froms[..|froms| - 1], c, n);
      LinkFits(g1, froms[|froms| - 1], c, n);
      AppendsAfter(g, c, [], g1, froms[|froms| - 1], [], LinkFrom(g, froms, c));
    }
  }

  lemma GrowFits(g: Graph, k: nat, n: nat, a: nat)
    requires GraphOk(g) && EventsFit(g, n)
    ensures GraphOk(Grow(g, k)) && EventsFit(Grow(g, k), n) && Appends(g, a, [], Grow(g, k))
  {
    GrowExtends(g, k, 0, 0);
    forall i | 0 <= i < |g| + k
      ensures Fit(Grow(g, k), n, i)
    {
      assert i < |g| ==> Fit(g, n, i);
    }
  }

  lemma EmitFits(g: Graph, a: nat, ev: Trace, n: nat)
    requires GraphOk(g) && EventsFit(g, n) && a < |g| && a != EXIT && LocalsOk(ev, n)
    ensures GraphOk(Emit(g, a, ev)) && EventsFit(Emit(g, a, ev), n) && Appends(g, a, ev, Emit(g, a, ev))
  {
    var g' := Emit(g, a, ev);
    forall i | 0 <= i < |g|
      ensures BlockOk(g', i) && Fit(g', n, i)
    {
      assert BlockOk(g, i) && Fit(g, n, i);
    }
  }

  lemma ContextFits(b: State, g': Graph, n: nat)
    requires Fits(b, n) && |b.g| <= |g'|
    ensures FramesFit(g', b.frames, n) && RaiseOk(g', b.raiseTo)
  {
    forall i | 0 <= i < |b.frames|
      ensures FrameFits(g', b.frames[i], n)
    {
      assert FrameFits(b.g, b.frames[i], n);
    }
  }

  lemma LoweredTrans(b: State, ev: Trace, b1: State, ev1: Trace, r: State, n: nat)
    requires Lowered(b, ev, b1, n) && Lowered(b1, ev1, r, n) && b.cur < |b.g|
    ensures Lowered(b, ev + if b1.cur == b.cur then ev1 else [], r, n)
  {
    AppendsTrans(b.g, b.cur, ev, b1.g, b1.cur, ev1, r.g);
  }

  lemma LoweredAfter(b: State, ev: Trace, b1: State, ev1: Trace, r: State, n: nat)
    requires Lowered(b, ev, b1, n) && Lowered(b1, ev1, r, n) && b.cur < |b.g|
    requires |b.g| <= b1.cur || ev1 == []
    ensures Lowered(b, ev, r, n)
  {
    AppendsAfter(b.g, b.cur, ev, b1.g, b1.cur, ev1, r.g);
  }

  // ---- statements -----------------------------------------------------

  lemma LoweredPrelude(b: State, n: nat)
    requires Fits(b, n)
    ensures Lowered(b, [], Prelude(b), n) && (InTry(b) ==> |b.g| <= Prelude(b).cur)
  {
    if InTry(b) {
      var g1 := LinkAll(b.g, b.cur, b.raiseTo);
      LinkAllFits(b.g, b.cur, b.raiseTo, n);
      GrowFits(g1, 1, n, b.cur);
      LinkFits(Grow(g1, 1), b.cur, |b.g|, n);
      AppendsAfter(b.g, b.cur, [], g1, b.cur, [], Grow(g1, 1));
      AppendsAfter(b.g, b.cur, [], Grow(g1, 1), b.cur, [], Prelude(b).g);
      ContextFits(b, Prelude(b).g, n);
    } else {
      GrowFits(b.g, 0, n, b.cur);
    }
  }

  lemma {:induction false} LoweredBlock(b: State, k: Block, n: nat)
    requires Fits(b, n) && BlockLocals(k, n)
    ensures Lowered(b, Head(b, k), LowerBlock(b, k), n)
    decreases BlockSize(k) + FrameSize(b.frames), 0
  {
    hide LowerStmt, LowerBody, LeadStmt, FrameSize;
    if k.Nil? {
      GrowFits(b.g, 0, n, b.cur);
    } else {
      var b1 := LowerStmt(b, k.head);
      LoweredStmt(b, k.head, n);
      LoweredBlock(b1, k.tail, n);
      if InTry(b) || !k.head.Simple? {
        LoweredAfter(b, if InTry(b) then [] else LeadStmt(k.head), b1, Head(b1, k.tail), LowerBlock(b1, k.tail), n);
      } else {
        LoweredTrans(b, LeadStmt(k.head), b1, Head(b1, k.tail), LowerBlock(b1, k.tail), n);
      }
    }
  }

  lemma {:induction false} LoweredStmt(b: State, s: Stmt, n: nat)
    requires Fits(b, n) && StmtLocals(s, n)
    ensures Lowered(b, if InTry(b) then [] else LeadStmt(s), LowerStmt(b, s), n)
    ensures if InTry(b) || !s.Simple? then |b.g| <= LowerStmt(b, s).cur else LowerStmt(b, s).cur == b.cur
    decreases StmtSize(s) + FrameSize(b.frames), 1
  {
    hide LowerBody, LowerBlock, LeadStmt, StmtLocals, FrameSize;
    var b1 := Prelude(b);
    LoweredPrelude(b, n);
    LoweredBody(b1, s, n);
    if InTry(b) {
      LoweredAfter(b, [], b1, LeadStmt(s), LowerBody(b1, s), n);
    }
  }

  lemma {:induction false} LoweredBody(b: State, s: Stmt, n: nat)
    requires Fits(b, n) && StmtLocals(s, n)
    ensures Lowered(b, LeadStmt(s), LowerBody(b, s), n)
    ensures if s.Simple? then LowerBody(b, s).cur == b.cur else |b.g| <= LowerBody(b, s).cur
    decreases StmtSize(s) + FrameSize(b.frames), 0
  {
    hide LowerBlock, LowerStmt, Jump, LowerIf, LowerWhile, LowerFor, LowerTry, BlockLocals, HandlersLocals, AltsLocals, FrameSize;
    match s
    case Simple(ev) => LoweredEmit(b, ev, n);
    case Return(ev) =>
      var b1 := b.(g := Emit(b.g, b.cur, ev));
      LoweredEmit(b, ev, n);
      LoweredJump(b1, Returned, n);
      LoweredAfter(b, ev, b1, [], LowerBody(b, s), n);
    case Raise(ev) => LoweredRaise(b, ev, n);
    case Break => LoweredJump(b, Broke, n);
    case Continue => LoweredJump(b, Continued, n);
    case If(cond, body, alts) => LoweredIf(b, cond, body, alts, n);
    case While(always, cond, body, orelse) => LoweredWhile(b, always, cond, body, orelse, n);
    case For(iterable, nonEmpty, target, body, orelse) => LoweredFor(b, iterable, nonEmpty, target, body, orelse, n);
    case Try(_, _, _, _) => LoweredTry(b, s, n);
  }

  lemma LoweredEmit(b: State, ev: Trace, n: nat)
    requires Fits(b, n) && LocalsOk(ev, n)
    ensures Lowered(b, ev, b.(g := Emit(b.g, b.cur, ev)), n)
  {
    EmitFits(b.g, b.cur, ev, n);
    ContextFits(b, Emit(b.g, b.cur, ev), n);
  }

  /** `r` comes from `b` by one edge out of block `a`. */
  lemma LoweredLink(b: State, a: nat, c: nat, n: nat)
    requires Fits(b, n) && a < |b.g| && a != EXIT && Target(b.g, c)
    ensures Lowered(b, [], b.(g := Link(b.g, a, c)), n)
  {
    LinkFits(b.g, a, c, n);
    AppendsElsewhere(b.g, a, b.cur, [], Link(b.g, a, c));
    ContextFits(b, Link(b.g, a, c), n);
  }

  lemma LoweredLinkAll(b: State, n: nat)
    requires Fits(b, n)
    ensures Lowered(b, [], b.(g := LinkAll(b.g, b.cur, b.raiseTo)), n)
  {
    LinkAllFits(b.g, b.cur, b.raiseTo, n);
    ContextFits(b, LinkAll(b.g, b.cur, b.raiseTo), n);
  }

  lemma LoweredGrow(b: State, k: nat, cur: nat, n: nat)
    requires Fits(b, n) && (cur == b.cur || |b.g| <= cur < |b.g| + k)
    ensures Lowered(b, [], b.(g := Grow(b.g, k), cur := cur), n)
  {
    GrowFits(b.g, k, n, b.cur);
    ContextFits(b, Grow(b.g, k), n);
  }

  lemma LoweredRaise(b: State, ev: Trace, n: nat)
    requires Fits(b, n) && LocalsOk(ev, n)
    ensures Lowered(b, ev, LowerBody(b, Raise(ev)), n) && |b.g| <= LowerBody(b, Raise(ev)).cur
  {
    var b1 := b.(g := Emit(b.g, b.cur, ev));
    LoweredEmit(b, ev, n);
    var b2 := b1.(g := LinkAll(b1.g, b1.cur, b1.raiseTo));
    LoweredLinkAll(b1, n);
    LoweredAfter(b, ev, b1, [], b2, n);
    LoweredGrow(b2, 1, |b2.g|, n);
    LoweredAfter(b, ev, b2, [], LowerBody(b, Raise(ev)), n);
  }

  lemma {:induction false} LoweredJump(b: State, kind: Outcome, n: nat)
    requires Fits(b, n)
    ensures Lowered(b, [], Jump(b, kind), n) && |b.g| <= Jump(b, kind).cur
    decreases FrameSize(b.frames), |b.frames|, 1
  {
    hide Unwind, FrameSize;
    LoweredUnwind(b, kind, n);
    var (u, dest) := Unwind(b, kind);
    var g1 := Link(u.g, u.cur, dest);
    LinkFits(u.g, u.cur, dest, n);
    GrowFits(g1, 1, n, u.cur);
    AppendsAfter(b.g, b.cur, [], u.g, u.cur, [], g1);
    AppendsAfter(b.g, b.cur, [], g1, u.cur, [], Grow(g1, 1));
    ContextFits(b, Grow(g1, 1), n);
  }

  /** A jump may run `finally` copies, in blocks of their own. */
  ghost predicate UnwoundTo(b: State, u: State, dest: nat, n: nat) {
    && GraphOk(u.g) && EventsFit(u.g, n) && u.cur < |u.g| && u.cur != EXIT && Target(u.g, dest)
    && Appends(b.g, b.cur, [], u.g) && |b.g| <= |u.g|
  }

  lemma {:induction false} LoweredUnwind(b: State, kind: Outcome, n: nat)
    requires Fits(b, n)
    ensures var (u, dest) := Unwind(b, kind); UnwoundTo(b, u, dest, n)
    decreases FrameSize(b.frames), |b.frames|, 0
  {
    hide LowerBlock, LowerStmt, LowerBody, FrameSize;
    GrowFits(b.g, 0, n, b.cur);
    assert Grow(b.g, 0) == b.g;
    if b.frames != [] {
      var f, outer := b.frames[|b.frames| - 1], b.frames[..|b.frames| - 1];
      assert FrameFits(b.g, f, n);
      FrameSizePop(b.frames);
      match f
      case Loop(brk, cont) =>
        if kind != Broke && kind != Continued {
          LoweredUnwind(b.(frames := outer), kind, n);
        }
      case Finally(body, outerRaise) => LoweredUnwindFinally(b, body, outerRaise, kind, n);
    }
  }

  lemma {:induction false} LoweredUnwindFinally(b: State, body: Block, outerRaise: seq<nat>, kind: Outcome, n: nat)
    requires Fits(b, n) && b.frames != [] && b.frames[|b.frames| - 1] == Finally(body, outerRaise)
    ensures var (u, dest) := Unwind(LowerBlock(FinallyCopy(b, outerRaise), body), kind); UnwoundTo(b, u, dest, n)
    decreases FrameSize(b.frames), 0, 0
  {
    hide LowerBlock, LowerStmt, LowerBody, Unwind, BlockLocals, FrameSize;
    assert FrameFits(b.g, b.frames[|b.frames| - 1], n);
    FrameSizePop(b.frames);
    var b1 := FinallyCopy(b, outerRaise);
    GrowFits(b.g, 1, n, b.cur);
    LinkFits(Grow(b.g, 1), b.cur, |b.g|, n);
    AppendsAfter(b.g, b.cur, [], Grow(b.g, 1), b.cur, [], b1.g);
    ContextFits(b, b1.g, n);
    LoweredBlock(b1, body, n);
    var b2 := LowerBlock(b1, body);
    LoweredUnwind(b2, kind, n);
    var (u, dest) := Unwind(b2, kind);
    AppendsAfter(b.g, b.cur, [], b1.g, b1.cur, Head(b1, body), b2.g);
    AppendsAfter(b.g, b.cur, [], b2.g, b2.cur, [], u.g);
  }

  // ---- branches and loops ---------------------------------------------

  /** `r` comes from `b` without a change to the events of the blocks of `b`. */
  ghost predicate Apart(b: State, r: State, n: nat) {
    Fits(r, n) && Follows(b, r) && Appends(b.g, b.cur, [], r.g)
  }

  lemma ApartTrans(b: State, b1: State, r: State, n: nat)
    requires Apart(b, b1, n) && Apart(b1, r, n)
    ensures Apart(b, r, n)
  {
    AppendsAfter(b.g, b.cur, [], b1.g, b1.cur, [], r.g);
  }

  /** Lowering in a new block leaves the old ones apart. */
  lemma {:induction false} ApartBlock(b: State, b1: State, k: Block, n: nat)
    requires Apart(b, b1, n) && |b.g| <= b1.cur && BlockLocals(k, n)
    ensures Apart(b, LowerBlock(b1, k), n)
    decreases BlockSize(k) + FrameSize(b1.frames), 1
  {
    hide LowerBlock, BlockLocals, FrameSize;
    LoweredBlock(b1, k, n);
    AppendsAfter(b.g, b.cur, [], b1.g, b1.cur, Head(b1, k), LowerBlock(b1, k).g);
  }

  lemma ApartLink(b: State, b1: State, a: nat, c: nat, n: nat)
    requires Apart(b, b1, n) && a < |b1.g| && a != EXIT && Target(b1.g, c)
    ensures Apart(b, b1.(g := Link(b1.g, a, c)), n)
  {
    LoweredLink(b1, a, c, n);
    AppendsAfter(b.g, b.cur, [], b1.g, b1.cur, [], Link(b1.g, a, c));
  }

  lemma ApartNew(b: State, fork: nat, n: nat)
    requires Fits(b, n) && fork < |b.g| && fork != EXIT
    ensures Apart(b, b.(g := Link(Grow(b.g, 1), fork, |b.g|), cur := |b.g|), n)
  {
    LoweredGrow(b, 1, |b.g|, n);
    ApartLink(b, b.(g := Grow(b.g, 1), cur := |b.g|), fork, |b.g|, n);
  }

  lemma {:induction false} ApartArm(b: State, body: Block, fork: nat, after: nat, n: nat)
    requires Fits(b, n) && BlockLocals(body, n) && fork < |b.g| && fork != EXIT && Target(b.g, after)
    ensures Apart(b, LowerArm(b, body, fork, after), n)
    decreases BlockSize(body) + FrameSize(b.frames), 2
  {
    hide LowerBlock, BlockLocals, FrameSize;
    var b1 := b.(g := Link(Grow(b.g, 1), fork, |b.g|), cur := |b.g|);
    ApartNew(b, fork, n);
    ApartBlock(b, b1, body, n);
    var b2 := LowerBlock(b1, body);
    ApartLink(b, b2, b2.cur, after, n);
  }

  lemma {:induction false} ApartAlts(b: State, alts: Alts, fork: nat, after: nat, n: nat)
    requires Fits(b, n) && AltsLocals(alts, n) && fork < |b.g| && fork != EXIT && Target(b.g, after)
    ensures Apart(b, LowerAlts(b, alts, fork, after), n)
    decreases AltsSize(alts) + FrameSize(b.frames)
  {
    hide LowerBlock, LowerArm, BlockLocals, FrameSize;
    match alts
    case NoElse =>
      GrowFits(b.g, 0, n, b.cur);
      assert Grow(b.g, 0) == b.g;
      ApartLink(b, b, fork, after, n);
    case Else(body) => ApartArm(b, body, fork, after, n);
    case Elif(cond, body, rest) =>
      var b1 := ElifHead(b, cond, fork);
      ApartElifHead(b, cond, fork, n);
      ApartArm(b1, body, |b.g|, after, n);
      var b2 := LowerArm(b1, body, |b.g|, after);
      ApartTrans(b, b1, b2, n);
      ApartAlts(b2, rest, |b.g|, after, n);
      ApartTrans(b, b2, LowerAlts(b2, rest, |b.g|, after), n);
  }

  lemma ApartElifHead(b: State, cond: Trace, fork: nat, n: nat)
    requires Fits(b, n) && LocalsOk(cond, n) && fork < |b.g| && fork != EXIT
    ensures Apart(b, ElifHead(b, cond, fork), n)
  {
    var b0 := b.(g := Link(Grow(b.g, 1), fork, |b.g|), cur := |b.g|);
    ApartNew(b, fork, n);
    LoweredEmit(b0, cond, n);
    AppendsAfter(b.g, b.cur, [], b0.g, |b.g|, cond, ElifHead(b, cond, fork).g);
  }

  lemma LoweredApart(b: State, ev: Trace, b1: State, r: State, n: nat)
    requires Lowered(b, ev, b1, n) && b.cur < |b.g| && Apart(b1, r, n) && |b.g| <= r.cur
    ensures Lowered(b, ev, r, n)
  {
    AppendsAfter(b.g, b.cur, ev, b1.g, b1.cur, [], r.g);
  }

  lemma {:induction false} LoweredIf(b: State, cond: Trace, body: Block, alts: Alts, n: nat)
    requires Fits(b, n) && LocalsOk(cond, n) && BlockLocals(body, n) && AltsLocals(alts, n)
    ensures Lowered(b, cond, LowerIf(b, cond, body, alts), n) && |b.g| <= LowerIf(b, cond, body, alts).cur
    decreases 1 + BlockSize(body) + AltsSize(alts) + FrameSize(b.frames)
  {
    hide LowerBlock, LowerArm, LowerAlts, BlockLocals, AltsLocals, FrameSize;
    var after, b0 := |b.g|, b.(g := Grow(b.g, 1));
    LoweredGrow(b, 1, b.cur, n);
    var b1 := OpenIf(b, cond);
    LoweredEmit(b0, cond, n);
    LoweredTrans(b, [], b0, cond, b1, n);
    ApartArm(b1, body, b.cur, after, n);
    var b2 := LowerArm(b1, body, b.cur, after);
    ApartAlts(b2, alts, b.cur, after, n);
    var b3 := LowerAlts(b2, alts, b.cur, after);
    ApartTrans(b1, b2, b3, n);
    assert Apart(b1, b3.(cur := after), n);
    LoweredApart(b, cond, b1, b3.(cur := after), n);
  }

  lemma {:induction false} ApartLoop(b: State, body: Block, cont: nat, after: nat, n: nat)
    requires Fits(b, n) && BlockLocals(body, n) && Target(b.g, cont) && Target(b.g, after)
    ensures Apart(b, LoopBody(b, body, cont, after), n)
    decreases BlockSize(body) + FrameSize(b.frames), 2
  {
    hide LowerBlock, BlockLocals, FrameSize;
    var b1 := OpenLoop(b, cont, after);
    FrameSizePush(b.frames, Loop(after, cont));
    ApartNew(b, b.cur, n);
    LoweredBlock(b1, body, n);
    var b2 := LowerBlock(b1, body);
    AppendsAfter(b.g, b.cur, [], b1.g, b1.cur, Head(b1, body), b2.g);
    LinkFits(b2.g, b2.cur, cont, n);
    var g3 := Link(b2.g, b2.cur, cont);
    AppendsAfter(b.g, b.cur, [], b2.g, b2.cur, [], g3);
    ContextFits(b, g3, n);
  }

  lemma {:induction false} ApartElse(b: State, from: nat, orelse: Block, after: nat, n: nat)
    requires Fits(b, n) && BlockLocals(orelse, n) && from < |b.g| && from != EXIT && Target(b.g, after) && after != EXIT
    ensures Apart(b, ElseBody(b, from, orelse, after), n)
    decreases BlockSize(orelse) + FrameSize(b.frames), 3
  {
    hide LowerBlock, BlockLocals, FrameSize;
    ApartArm(b, orelse, from, after, n);
  }

  lemma {:induction false} ApartDeadElse(b: State, orelse: Block, after: nat, n: nat)
    requires Fits(b, n) && BlockLocals(orelse, n) && Target(b.g, after) && after != EXIT
    ensures Apart(b, DeadElse(b, orelse, after), n)
    decreases BlockSize(orelse) + FrameSize(b.frames), 2
  {
    hide LowerBlock, BlockLocals, FrameSize;
    var b1 := b.(g := Grow(b.g, 1), cur := |b.g|);
    LoweredGrow(b, 1, |b.g|, n);
    ApartBlock(b, b1, orelse, n);
    var b2 := LowerBlock(b1, orelse);
    ApartLink(b, b2, b2.cur, after, n);
  }

  lemma ApartOpenWhile(b: State, cond: Trace, n: nat)
    requires Fits(b, n) && LocalsOk(cond, n)
    ensures Apart(b, OpenWhile(b, cond), n)
  {
    var b1 := ElifHead(b, cond, b.cur);
    ApartElifHead(b, cond, b.cur, n);
    LoweredGrow(b1, 1, b1.cur, n);
    ApartTrans(b, b1, OpenWhile(b, cond), n);
  }

  lemma {:induction false} LoweredWhile(b: State, always: bool, cond: Trace, body: Block, orelse: Block, n: nat)
    requires Fits(b, n) && LocalsOk(cond, n) && BlockLocals(body, n) && BlockLocals(orelse, n)
    ensures var r := LowerWhile(b, always, cond, body, orelse); Lowered(b, [], r, n) && |b.g| <= r.cur
    decreases 1 + BlockSize(body) + BlockSize(orelse) + FrameSize(b.frames)
  {
    hide LowerBlock, LoopBody, ElseBody, DeadElse, BlockLocals, FrameSize;
    var header, after := |b.g|, |b.g| + 1;
    var b0 := OpenWhile(b, cond);
    ApartOpenWhile(b, cond, n);
    ApartLoop(b0, body, header, after, n);
    var b1 := LoopBody(b0, body, header, after);
    ApartTrans(b, b0, b1, n);
    if !always {
      ApartElse(b1, header, orelse, after, n);
      ApartTrans(b, b1, ElseBody(b1, header, orelse, after), n);
      AtAfter(b, b1, header, orelse, after);
    } else if orelse.Cons? {
      ApartDeadElse(b1, orelse, after, n);
      ApartTrans(b, b1, DeadElse(b1, orelse, after), n);
      AtAfter(b, b1, header, orelse, after);
    }
  }

  lemma AtAfter(b: State, b1: State, from: nat, orelse: Block, after: nat)
    requires from < |b1.g| && after < |b1.g|
    ensures ElseBody(b1, from, orelse, after).cur == after && DeadElse(b1, orelse, after).cur == after
  {
    hide LowerBlock, FrameSize;
  }

  lemma LoweredOpenFor(b: State, iterable: Trace, nonEmpty: bool, target: Trace, n: nat)
    requires Fits(b, n) && LocalsOk(iterable, n) && LocalsOk(target, n)
    ensures Lowered(b, iterable, OpenFor(b, iterable, nonEmpty, target), n)
  {
    var header := |b.g|;
    var b1 := b.(g := Emit(b.g, b.cur, iterable));
    LoweredEmit(b, iterable, n);
    var b2 := b1.(g := Link(Grow(b1.g, 1), b.cur, header), cur := header);
    ApartNew(b1, b.cur, n);
    var b3 := ElifHead(b2, target, header);
    ApartElifHead(b2, target, header, n);
    ApartTrans(b1, b2, b3, n);
    LoweredApart(b, iterable, b1, b3, n);
    LoweredGrow(b3, if nonEmpty then 2 else 1, b3.cur, n);
    LoweredAfter(b, iterable, b3, [], OpenFor(b, iterable, nonEmpty, target), n);
  }

  lemma {:induction false} LoweredFor(b: State, iterable: Trace, nonEmpty: bool, target: Trace, body: Block, orelse: Block, n: nat)
    requires Fits(b, n) && LocalsOk(iterable, n) && LocalsOk(target, n) && BlockLocals(body, n) && BlockLocals(orelse, n)
    ensures var r := LowerFor(b, iterable, nonEmpty, target, body, orelse); Lowered(b, iterable, r, n) && |b.g| <= r.cur
    decreases 1 + BlockSize(body) + BlockSize(orelse) + FrameSize(b.frames)
  {
    hide LowerBlock, LoopBody, ElseBody, DeadElse, BlockLocals, FrameSize;
    var iterate, after := |b.g| + 1, |b.g| + 2;
    var repeat := if nonEmpty then |b.g| + 3 else |b.g|;
    var b0 := OpenFor(b, iterable, nonEmpty, target);
    LoweredOpenFor(b, iterable, nonEmpty, target, n);
    ApartLoop(b0, body, repeat, after, n);
    var b1 := LoopBody(b0, body, repeat, after);
    var b2 := if nonEmpty then b1.(g := Link(b1.g, repeat, iterate)) else b1;
    if nonEmpty {
      ApartLink(b0, b1, repeat, iterate, n);
    }
    ApartElse(b2, repeat, orelse, after, n);
    var r := ElseBody(b2, repeat, orelse, after);
    ApartTrans(b0, b2, r, n);
    AtAfter(b, b2, repeat, orelse, after);
    LoweredApart(b, iterable, b0, r, n);
  }

  // ---- try ------------------------------------------------------------

  lemma LoweredOpenTry(b: State, s: Stmt, n: nat)
    requires Fits(b, n) && s.Try? && StmtLocals(s, n)
    ensures var r := OpenTry(b, s);
      && Fits(r, n) && Appends(b.g, b.cur, [], r.g) && RaiseOk(r.g, PastTry(b, s))
      && |r.g| == r.cur + 1 && r.cur == FirstHandler(b, s) + HandlerCount(s.handlers)
  {
    hide BlockLocals, HandlersLocals, FrameSize, Link;
    var r := OpenTry(b, s);
    var k := r.cur + 1 - |b.g|;
    GrowFits(b.g, k, n, b.cur);
    LinkFits(Grow(b.g, k), b.cur, r.cur, n);
    AppendsAfter(b.g, b.cur, [], Grow(b.g, k), b.cur, [], r.g);
    ContextFits(b, r.g, n);
    TryRaiseOk(b, s, r.g);
  }

  /** The body's last block gets the events the `else` leads with just when the `else`
      is outside every `try` region, that is when nothing between it and the function's
      exit catches an exception; its raise edges are there already. */
  lemma {:induction false} LoweredElse(b: State, past: seq<nat>, orelse: Block, n: nat)
    requires Fits(b, n) && RaiseOk(b.g, past) && BlockLocals(orelse, n)
    ensures var r := LowerElse(b, past, orelse);
      && Fits(r, n) && (r.cur == b.cur || |b.g| <= r.cur)
      && Appends(b.g, b.cur, if past == [EXIT] then Lead(orelse) else [], r.g)
    decreases BlockSize(orelse) + FrameSize(b.frames), 1
  {
    hide LowerBlock, BlockLocals, Lead, FrameSize;
    var b1 := OpenElse(b, past);
    LoweredLinkAll(b, n);
    LoweredBlock(b1, orelse, n);
    var b2 := LowerBlock(b1, orelse);
    AppendsTrans(b.g, b.cur, [], b1.g, b1.cur, Head(b1, orelse), b2.g);
    if InTry(b2) {
      LoweredLinkAll(b2, n);
      AppendsAfter(b.g, b.cur, Head(b1, orelse), b2.g, b2.cur, [], TailRaise(b2).g);
    }
    assert [] + Head(b1, orelse) == Head(b1, orelse);
  }

  /** The blocks below `lo` keep their events. */
  predicate Below(g: Graph, lo: nat, g': Graph) {
    |g| <= |g'| && forall i {:trigger Gets(g, lo, [], g', i)} | 0 <= i < |g| && i < lo :: Gets(g, lo, [], g', i)
  }

  lemma BelowTrans(g: Graph, lo: nat, g1: Graph, lo1: nat, g2: Graph)
    requires Below(g, lo, g1) && Below(g1, lo1, g2) && lo <= lo1
    ensures Below(g, lo, g2)
  {
    forall i | 0 <= i < |g| && i < lo
      ensures Gets(g, lo, [], g2, i)
    {
      assert Gets(g, lo, [], g1, i) && Gets(g1, lo1, [], g2, i);
    }
  }

  lemma AppendsBelow(g: Graph, a: nat, ev: Trace, lo: nat, g': Graph)
    requires Appends(g, a, ev, g') && lo <= a
    ensures Below(g, lo, g')
  {
    forall i | 0 <= i < |g| && i < lo
      ensures Gets(g, lo, [], g', i)
    {
      assert Gets(g, a, ev, g', i);
    }
  }

  lemma BelowAppends(g: Graph, a: nat, ev: Trace, g1: Graph, g2: Graph)
    requires Appends(g, a, ev, g1) && Below(g1, |g|, g2)
    ensures Appends(g, a, ev, g2)
  {
    forall i | 0 <= i < |g|
      ensures Gets(g, a, ev, g2, i)
    {
      assert Gets(g, a, ev, g1, i) && Gets(g1, |g|, [], g2, i);
    }
  }

  lemma {:induction false} BelowHandler(b: State, header: Trace, body: Block, unbind: Trace, entry: nat, n: nat)
    requires Fits(b, n) && LocalsOk(header, n) && BlockLocals(body, n) && LocalsOk(unbind, n) && 2 <= entry < |b.g|
    ensures var r := LowerHandler(b, header, body, unbind, entry);
      Fits(r, n) && Below(b.g, entry, r.g) && entry <= r.cur
    decreases BlockSize(body) + FrameSize(b.frames), 1
  {
    hide LowerBlock, BlockLocals, FrameSize;
    var b1 := OpenHandler(b, header, entry);
    LoweredEmit(b.(cur := entry), header, n);
    AppendsBelow(b.g, entry, header, entry, b1.g);
    LoweredBlock(b1, body, n);
    var b2 := LowerBlock(b1, body);
    AppendsBelow(b1.g, entry, Head(b1, body), entry, b2.g);
    BelowTrans(b.g, entry, b1.g, entry, b2.g);
    var b3 := b2.(g := Emit(b2.g, b2.cur, unbind));
    LoweredEmit(b2, unbind, n);
    AppendsBelow(b2.g, b2.cur, unbind, entry, b3.g);
    BelowTrans(b.g, entry, b2.g, entry, b3.g);
    if InTry(b3) {
      LoweredLinkAll(b3, n);
      AppendsBelow(b3.g, b3.cur, [], entry, TailRaise(b3).g);
      BelowTrans(b.g, entry, b3.g, entry, TailRaise(b3).g);
    }
  }

  lemma {:induction false} BelowHandlers(b: State, h: Handlers, entry: nat, n: nat)
    requires Fits(b, n) && HandlersLocals(h, n) && 2 <= entry && entry + HandlerCount(h) <= |b.g|
    ensures var (r, ends) := LowerHandlers(b, h, entry);
      Fits(r, n) && Below(b.g, entry, r.g) && forall i | 0 <= i < |ends| :: entry <= ends[i] < |r.g|
    decreases HandlersSize(h) + FrameSize(b.frames)
  {
    hide LowerBlock, LowerHandler, BlockLocals, FrameSize;
    match h
    case NoHandler =>
      GrowFits(b.g, 0, n, |b.g|);
      assert Grow(b.g, 0) == b.g;
      AppendsBelow(b.g, |b.g|, [], entry, b.g);
    case Handler(header, body, unbind, rest) =>
      var b1 := LowerHandler(b, header, body, unbind, entry);
      BelowHandler(b, header, body, unbind, entry, n);
      BelowHandlers(b1, rest, entry + 1, n);
      BelowTrans(b.g, entry, b1.g, entry + 1, LowerHandlers(b1, rest, entry + 1).0.g);
  }

  lemma {:induction false} BelowTryElse(b: State, s: Stmt, n: nat)
    requires Fits(b, n) && s.Try? && StmtLocals(s, n)
    ensures Fits(TryElse(b, s), n) && Appends(b.g, b.cur, [], TryElse(b, s).g) && |b.g| <= TryElse(b, s).cur
    decreases StmtSize(s) + FrameSize(b.frames), 0, 0
  {
    hide LowerBlock, LowerElse, OpenTry, PastTry, BlockLocals, HandlersLocals, Lead, GraphOk, FramesFit, EventsFit, RaiseOk, FrameSize;
    TryMeasure(b, s);
    var b0, b1, past := OpenTry(b, s), TryBody(b, s), PastTry(b, s);
    LoweredOpenTry(b, s, n);
    LoweredBlock(b0, s.body, n);
    AppendsAfter(b.g, b.cur, [], b0.g, b0.cur, Head(b0, s.body), b1.g);
    TryPastOk(b, s, n);
    LoweredElse(b1, past, s.orelse, n);
    AppendsAfter(b.g, b.cur, [], b1.g, b1.cur, if past == [EXIT] then Lead(s.orelse) else [], TryElse(b, s).g);
  }

  lemma {:induction false} TryPastOk(b: State, s: Stmt, n: nat)
    requires Fits(b, n) && s.Try? && StmtLocals(s, n)
    ensures RaiseOk(TryBody(b, s).g, PastTry(b, s)) && |b.g| <= TryBody(b, s).cur
    decreases BlockSize(s.body) + FrameSize(OpenTry(b, s).frames), 1
  {
    hide LowerBlock, BlockLocals, HandlersLocals, FrameSize;
    LoweredOpenTry(b, s, n);
    LoweredBlock(OpenTry(b, s), s.body, n);
  }

  lemma {:induction false} BelowGuarded(b: State, s: Stmt, n: nat)
    requires Fits(b, n) && s.Try? && StmtLocals(s, n)
    ensures var (r, ends) := LowerGuarded(b, s);
      && Fits(r, n) && Appends(b.g, b.cur, [], r.g) && |b.g| < |r.g|
      && forall i | 0 <= i < |ends| :: |b.g| <= ends[i] < |r.g|
    decreases StmtSize(s) + FrameSize(b.frames), 0, 1
  {
    hide LowerElse, LowerHandlers, OpenTry, BlockLocals, HandlersLocals, Lead, FramesFit, EventsFit, RaiseOk, FrameSize;
    TryMeasure(b, s);
    BelowTryElse(b, s, n);
    var b2, first := TryElse(b, s), FirstHandler(b, s);
    assert 2 <= first && first + HandlerCount(s.handlers) <= |b2.g|;
    BelowHandlers(b2, s.handlers, first, n);
    var (b3, ends) := LowerHandlers(b2, s.handlers, first);
    AppendsBelow(b2.g, |b2.g|, [], |b.g|, b2.g);
    BelowTrans(b2.g, |b.g|, b2.g, first, b3.g);
    BelowAppends(b.g, b.cur, [], b2.g, b3.g);
  }

  lemma {:induction false} ApartJoin(b: State, s: Stmt, n: nat)
    requires Fits(b, n) && s.Try? && StmtLocals(s, n)
    ensures Apart(b, Join(b, s), n) && |b.g| < Join(b, s).cur
    decreases StmtSize(s) + FrameSize(b.frames), 0, 2
  {
    hide LowerBlock, LowerGuarded, BlockLocals, HandlersLocals, FrameSize;
    BelowGuarded(b, s, n);
    var (b3, ends) := LowerGuarded(b, s);
    var g1, join := Grow(b3.g, 1), |b3.g|;
    GrowFits(b3.g, 1, n, b.cur);
    LinkFromFits(g1, ends, join, n);
    AppendsAfter(b.g, b.cur, [], b3.g, b.cur, [], g1);
    AppendsAfter(b.g, b.cur, [], g1, join, [], LinkFrom(g1, ends, join));
    ContextFits(b, LinkFrom(g1, ends, join), n);
  }

  lemma {:induction false} ApartReraise(b: State, exc: nat, final: Block, lo: nat, n: nat)
    requires Fits(b, n) && BlockLocals(final, n) && 2 <= lo <= exc < |b.g|
    ensures var r := LowerReraise(b, exc, final); Fits(r, n) && Below(b.g, lo, r.g) && Follows(b, r) && r.cur == b.cur
    decreases BlockSize(final) + FrameSize(b.frames), 1
  {
    hide LowerBlock, BlockLocals, FrameSize;
    var b1 := b.(cur := exc);
    LoweredBlock(b1, final, n);
    var b2 := LowerBlock(b1, final);
    AppendsBelow(b.g, exc, Head(b1, final), lo, b2.g);
    LoweredLinkAll(b2, n);
    var g3 := LinkAll(b2.g, b2.cur, b2.raiseTo);
    AppendsBelow(b2.g, b2.cur, [], lo, g3);
    BelowTrans(b.g, lo, b2.g, lo, g3);
    ContextFits(b, g3, n);
  }

  lemma {:induction false} LoweredTry(b: State, s: Stmt, n: nat)
    requires Fits(b, n) && s.Try? && StmtLocals(s, n)
    ensures Lowered(b, [], LowerTry(b, s), n) && |b.g| <= LowerTry(b, s).cur
    decreases StmtSize(s) + FrameSize(b.frames), 0, 3
  {
    hide LowerBlock, Join, LowerReraise, BlockLocals, HandlersLocals, FrameSize;
    var b1 := Join(b, s);
    ApartJoin(b, s, n);
    if s.final.Cons? {
      ApartBlock(b, b1, s.final, n);
      var b2 := LowerBlock(b1, s.final);
      LoweredBlock(b1, s.final, n);
      ApartReraise(b2, |b.g|, s.final, |b.g|, n);
      BelowAppends(b.g, b.cur, [], b2.g, LowerReraise(b2, |b.g|, s.final).g);
    }
  }
}
