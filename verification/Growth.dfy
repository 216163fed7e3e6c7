/** What lowering leaves alone. A statement adds blocks and changes, of the blocks there
    before, only the current one, which gets the events the statement leads with; a block
    that has a successor gets no more events; edges stay in range, never enter ENTRY and
    never leave EXIT. */
module Growth {
  import opened Cfg
  import opened Python
  import opened Lower
  import opened Alike

  predicate Target(g: Graph, c: nat) {
    c != ENTRY && c < |g|
  }

  predicate BlockOk(g: Graph, i: nat)
    requires i < |g|
  {
    forall c | c in g[i].succs :: Target(g, c)
  }

  predicate GraphOk(g: Graph) {
    |g| >= 2 && g[EXIT] == EMPTY && forall i {:trigger BlockOk(g, i)} | 0 <= i < |g| :: BlockOk(g, i)
  }

  predicate RaiseOk(g: Graph, rs: seq<nat>) {
    |rs| > 0 && forall i | 0 <= i < |rs| :: Target(g, rs[i])
  }

  predicate FrameOk(g: Graph, f: Frame) {
    match f
    case Loop(brk, cont) => Target(g, brk) && Target(g, cont)
    case Finally(body, outerRaise) =>
      RaiseOk(g, outerRaise) && LegalBlock(body)
  }

  predicate FramesOk(g: Graph, fs: seq<Frame>) {
    forall i | 0 <= i < |fs| :: FrameOk(g, fs[i])
  }

  predicate StateOk(b: State) {
    GraphOk(b.g) && b.cur < |b.g| && b.cur != EXIT && FramesOk(b.g, b.frames) && RaiseOk(b.g, b.raiseTo)
  }

  /** Events made next may go into the current block: it has no successor, or they
      will get a block of their own, or there are none. */
  predicate Ready(b: State, lead: Trace)
    requires b.cur < |b.g|
  {
    InTry(b) || b.g[b.cur].succs == [] || lead == []
  }

  /** What a block adds to the current block: inside a `try` region, nothing. */
  function Head(b: State, k: Block): Trace {
    if InTry(b) then [] else Lead(k)
  }

  /** The current block of `b` has got the events `ev`. */
  predicate Adds(b: State, ev: Trace, r: State)
    requires b.cur < |b.g| && b.cur < |r.g|
  {
    r.g[b.cur].events == b.g[b.cur].events + ev
  }

  /** `g'` comes from `g` by adding blocks and by adding edges and events to blocks in
      `lo..hi`, events only where there is no edge yet. */
  predicate Extends(g: Graph, lo: nat, hi: nat, g': Graph) {
    && GraphOk(g') && |g| <= |g'|
    && (forall i {:trigger Kept(g, lo, hi, g', i)} | 0 <= i < |g| :: Kept(g, lo, hi, g', i))
  }

  predicate Kept(g: Graph, lo: nat, hi: nat, g': Graph, i: nat)
    requires i < |g| <= |g'|
  {
    && g[i].events <= g'[i].events && g[i].succs <= g'[i].succs
    && (g[i].succs != [] ==> g'[i].events == g[i].events)
    && (i < lo || hi <= i ==> g'[i] == g[i])
  }

  lemma ExtendsTrans(g: Graph, lo: nat, hi: nat, g1: Graph, lo1: nat, hi1: nat, g2: Graph)
    requires Extends(g, lo, hi, g1) && Extends(g1, lo1, hi1, g2)
    requires (lo <= lo1 && hi1 <= hi) || |g| <= lo1
    ensures Extends(g, lo, hi, g2)
  {
    forall i | 0 <= i < |g|
      ensures Kept(g, lo, hi, g2, i)
    {
      assert Kept(g, lo, hi, g1, i) && Kept(g1, lo1, hi1, g2, i);
    }
  }

  lemma ExtendsWiden(g: Graph, lo: nat, hi: nat, g': Graph, lo': nat, hi': nat)
    requires Extends(g, lo, hi, g') && lo' <= lo && hi <= hi'
    ensures Extends(g, lo', hi', g')
  {
    forall i | 0 <= i < |g|
      ensures Kept(g, lo', hi', g', i)
    {
      assert Kept(g, lo, hi, g', i);
    }
  }

  lemma LinkExtends(g: Graph, a: nat, c: nat)
    requires GraphOk(g) && a < |g| && a != EXIT && Target(g, c)
    ensures Extends(g, a, a + 1, Link(g, a, c))
    ensures c in Link(g, a, c)[a].succs && Link(g, a, c)[a].events == g[a].events
  {
    var g' := Link(g, a, c);
    forall i | 0 <= i < |g'|
      ensures BlockOk(g', i)
    {
      assert BlockOk(g, i);
    }
  }

  lemma {:induction false} LinkAllExtends(g: Graph, a: nat, ts: seq<nat>)
    requires GraphOk(g) && a < |g| && a != EXIT
    requires forall i | 0 <= i < |ts| :: Target(g, ts[i])
    ensures Extends(g, a, a + 1, LinkAll(g, a, ts))
    ensures forall i | 0 <= i < |ts| :: ts[i] in LinkAll(g, a, ts)[a].succs
    ensures LinkAll(g, a, ts)[a].events == g[a].events
  {
    if ts != [] {
      var init := ts[..|ts| - 1];
      LinkAllExtends(g, a, init);
      var g1 := LinkAll(g, a, init);
      LinkExtends(g1, a, ts[|ts| - 1]);
      ExtendsTrans(g, a, a + 1, g1, a, a + 1, LinkAll(g, a, ts));
      forall i | 0 <= i < |ts|
        ensures ts[i] in LinkAll(g, a, ts)[a].succs
      {
        if i < |ts| - 1 {
          assert init[i] in g1[a].succs;
        }
      }
    }
  }

  lemma {:induction false} LinkFromExtends(g: Graph, lo: nat, hi: nat, froms: seq<nat>, c: nat)
    requires GraphOk(g) && Target(g, c) && hi <= |g|
    requires forall i :: 0 <= i < |froms| ==> lo <= froms[i] < hi && froms[i] != EXIT
    ensures Extends(g, lo, hi, LinkFrom(g, froms, c))
    ensures forall i | 0 <= i < |froms| :: c in LinkFrom(g, froms, c)[froms[i]].succs
    ensures forall i | 0 <= i < |g| :: LinkFrom(g, froms, c)[i].events == g[i].events
  {
    if froms != [] {
      var init := froms[..|froms| - 1];
      LinkFromExtends(g, lo, hi, init, c);
      var g1 := LinkFrom(g, init, c);
      var a := froms[|froms| - 1];
      LinkExtends(g1, a, c);
      ExtendsWiden(g1, a, a + 1, LinkFrom(g, froms, c), lo, hi);
      ExtendsTrans(g, lo, hi, g1, lo, hi, LinkFrom(g, froms, c));
      forall i | 0 <= i < |froms|
        ensures c in LinkFrom(g, froms, c)[froms[i]].succs
      {
        if i < |froms| - 1 {
          assert c in g1[init[i]].succs;
        }
      }
    }
  }

  lemma EmitExtends(g: Graph, a: nat, ev: Trace)
    requires GraphOk(g) && a < |g| && a != EXIT
    requires g[a].succs == [] || ev == []
    ensures Extends(g, a, a + 1, Emit(g, a, ev))
    ensures Emit(g, a, ev)[a] == g[a].(events := g[a].events + ev)
  {
    forall i | 0 <= i < |g|
      ensures BlockOk(Emit(g, a, ev), i)
    {
      assert BlockOk(g, i);
    }
  }

  lemma GrowExtends(g: Graph, n: nat, lo: nat, hi: nat)
    requires GraphOk(g)
    ensures Extends(g, lo, hi, Grow(g, n))
    ensures forall i | |g| <= i < |g| + n :: Grow(g, n)[i] == EMPTY
  {
    forall i | 0 <= i < |g| + n
      ensures BlockOk(Grow(g, n), i)
    {
      assert i < |g| ==> BlockOk(g, i);
    }
  }

  /** A new block, entered by an edge from `a`. */
  lemma BranchExtends(g: Graph, a: nat)
    requires GraphOk(g) && a < |g| && a != EXIT
    ensures Extends(g, a, a + 1, Link(Grow(g, 1), a, |g|))
    ensures Link(Grow(g, 1), a, |g|)[|g|] == EMPTY
    ensures |g| in Link(Grow(g, 1), a, |g|)[a].succs
    ensures Link(Grow(g, 1), a, |g|)[a].events == g[a].events
  {
    GrowExtends(g, 1, a, a + 1);
    LinkExtends(Grow(g, 1), a, |g|);
    ExtendsTrans(g, a, a + 1, Grow(g, 1), a, a + 1, Link(Grow(g, 1), a, |g|));
  }

  /** The state `r` follows `b` in the lowering of one function. */
  ghost predicate Grown(b: State, r: State)
    requires b.cur < |b.g|
  {
    && StateOk(r) && Follows(b, r) && Extends(b.g, b.cur, b.cur + 1, r.g)
    && (r.cur == b.cur || |b.g| <= r.cur)
    && (b.g[b.cur].succs == [] ==> r.g[r.cur].succs == [])
  }

  lemma ContextKept(b: State, g': Graph)
    requires StateOk(b) && |b.g| <= |g'|
    ensures FramesOk(g', b.frames) && RaiseOk(g', b.raiseTo)
  {
    forall i | 0 <= i < |b.frames|
      ensures FrameOk(g', b.frames[i])
    {
      assert FrameOk(b.g, b.frames[i]);
    }
  }

  lemma GrownTrans(b: State, b1: State, b2: State)
    requires b.cur < |b.g| && b1.cur < |b1.g|
    requires Grown(b, b1) && Grown(b1, b2)
    ensures Grown(b, b2)
  {
    ExtendsTrans(b.g, b.cur, b.cur + 1, b1.g, b1.cur, b1.cur + 1, b2.g);
  }

  // ---- statements -----------------------------------------------------

  lemma GrownPrelude(b: State)
    requires StateOk(b)
    ensures Grown(b, Prelude(b))
    ensures InTry(b) ==> Prelude(b).g[Prelude(b).cur] == EMPTY && Prelude(b).cur == |b.g|
    ensures InTry(b) ==> Prelude(b).cur in Prelude(b).g[b.cur].succs
    ensures InTry(b) ==> forall i | 0 <= i < |b.raiseTo| :: b.raiseTo[i] in Prelude(b).g[b.cur].succs
    ensures if InTry(b) then Prelude(b).g[b.cur].events == b.g[b.cur].events else Prelude(b) == b
  {
    if InTry(b) {
      var g1 := LinkAll(b.g, b.cur, b.raiseTo);
      LinkAllExtends(b.g, b.cur, b.raiseTo);
      BranchExtends(g1, b.cur);
      ExtendsTrans(b.g, b.cur, b.cur + 1, g1, b.cur, b.cur + 1, Prelude(b).g);
      ContextKept(b, Prelude(b).g);
    }
  }

  lemma {:induction false} GrownBlock(b: State, k: Block)
    requires StateOk(b) && LegalBlock(k) && Ready(b, Lead(k))
    ensures Grown(b, LowerBlock(b, k)) && Adds(b, Head(b, k), LowerBlock(b, k))
    decreases BlockSize(k) + FrameSize(b.frames), 0
  {
    hide LowerStmt, LowerBody, LeadStmt, FrameSize;
    if k.Cons? {
      var b1 := LowerStmt(b, k.head);
      GrownStmt(b, k.head);
      GrownBlock(b1, k.tail);
      GrownTrans(b, b1, LowerBlock(b1, k.tail));
      AddsTwice(b, if InTry(b) then [] else LeadStmt(k.head), b1, Head(b1, k.tail), LowerBlock(b1, k.tail));
    } else {
      GrowExtends(b.g, 0, b.cur, b.cur + 1);
    }
  }

  lemma AddsTwice(b: State, ev: Trace, b1: State, ev1: Trace, r: State)
    requires b.cur < |b.g| <= |b1.g| <= |r.g| && b1.cur < |b1.g| && Extends(b1.g, b1.cur, b1.cur + 1, r.g)
    requires Adds(b, ev, b1) && Adds(b1, ev1, r)
    ensures Adds(b, ev + if b1.cur == b.cur then ev1 else [], r)
  {
    assert Kept(b1.g, b1.cur, b1.cur + 1, r.g, b.cur);
  }

  lemma {:induction false} GrownStmt(b: State, s: Stmt)
    requires StateOk(b) && LegalStmt(s) && Ready(b, LeadStmt(s))
    ensures Grown(b, LowerStmt(b, s)) && Adds(b, if InTry(b) then [] else LeadStmt(s), LowerStmt(b, s))
    ensures if InTry(b) || !s.Simple? then |b.g| <= LowerStmt(b, s).cur && LowerStmt(b, s).g[LowerStmt(b, s).cur].succs == []
      else LowerStmt(b, s).cur == b.cur
    decreases StmtSize(s) + FrameSize(b.frames), 1
  {
    hide LowerBody, Prelude, LowerBlock, LeadStmt, FrameSize;
    var b1 := Prelude(b);
    GrownPrelude(b);
    assert b1.g[b1.cur].succs == [] || LeadStmt(s) == [];
    GrownBody(b1, s);
    GrownTrans(b, b1, LowerBody(b1, s));
    if InTry(b) {
      assert Kept(b1.g, b1.cur, b1.cur + 1, LowerBody(b1, s).g, b.cur);
    } else {
      assert b1 == b;
    }
  }

  lemma {:induction false} GrownBody(b: State, s: Stmt)
    requires StateOk(b) && LegalStmt(s)
    requires b.g[b.cur].succs == [] || LeadStmt(s) == []
    ensures Grown(b, LowerBody(b, s)) && Adds(b, LeadStmt(s), LowerBody(b, s))
    ensures if s.Simple? then LowerBody(b, s).cur == b.cur
      else |b.g| <= LowerBody(b, s).cur && LowerBody(b, s).g[LowerBody(b, s).cur].succs == []
    decreases StmtSize(s) + FrameSize(b.frames), 0
  {
    hide LowerBlock, LowerStmt, Jump, LowerIf, LowerWhile, LowerFor, LowerTry, FrameSize;
    match s
    case Simple(ev) => GrownEmit(b, ev);
    case Return(ev) =>
      GrownEmit(b, ev);
      var b1 := b.(g := Emit(b.g, b.cur, ev));
      GrownJump(b1, Returned);
      GrownTrans(b, b1, LowerBody(b, s));
    case Raise(ev) => GrownRaise(b, ev);
    case Break => GrownJump(b, Broke);
    case Continue => GrownJump(b, Continued);
    case If(cond, body, alts) => GrownIf(b, cond, body, alts);
    case While(always, cond, body, orelse) => GrownWhile(b, always, cond, body, orelse);
    case For(iterable, nonEmpty, target, body, orelse) =>
      GrownFor(b, iterable, nonEmpty, target, body, orelse);
    case Try(_, _, _, _) => GrownTry(b, s);
  }

  lemma GrownEmit(b: State, ev: Trace)
    requires StateOk(b) && (b.g[b.cur].succs == [] || ev == [])
    ensures Grown(b, b.(g := Emit(b.g, b.cur, ev)))
    ensures Adds(b, ev, b.(g := Emit(b.g, b.cur, ev)))
  {
    EmitExtends(b.g, b.cur, ev);
    ContextKept(b, Emit(b.g, b.cur, ev));
  }

  lemma GrownRaise(b: State, ev: Trace)
    requires StateOk(b) && (b.g[b.cur].succs == [] || ev == [])
    ensures Grown(b, LowerBody(b, Raise(ev)))
    ensures LowerBody(b, Raise(ev)).g[LowerBody(b, Raise(ev)).cur] == EMPTY
    ensures Adds(b, ev, LowerBody(b, Raise(ev))) && |b.g| <= LowerBody(b, Raise(ev)).cur
  {
    var b1 := b.(g := Emit(b.g, b.cur, ev));
    GrownEmit(b, ev);
    var g1 := LinkAll(b1.g, b.cur, b.raiseTo);
    LinkAllExtends(b1.g, b.cur, b.raiseTo);
    GrowExtends(g1, 1, b.cur, b.cur + 1);
    ExtendsTrans(b.g, b.cur, b.cur + 1, b1.g, b.cur, b.cur + 1, g1);
    ExtendsTrans(b.g, b.cur, b.cur + 1, g1, b.cur, b.cur + 1, Grow(g1, 1));
    ContextKept(b, Grow(g1, 1));
  }

  lemma {:induction false} GrownJump(b: State, kind: Outcome)
    requires StateOk(b)
    ensures Grown(b, Jump(b, kind))
    ensures Jump(b, kind).g[Jump(b, kind).cur] == EMPTY
    ensures Adds(b, [], Jump(b, kind)) && |b.g| <= Jump(b, kind).cur
    decreases FrameSize(b.frames), |b.frames|, 1
  {
    hide Unwind, FrameSize, Extends, Kept, LegalStmt;
    GrownUnwind(b, kind);
    var (u, dest) := Unwind(b, kind);
    var g1 := Link(u.g, u.cur, dest);
    LinkExtends(u.g, u.cur, dest);
    ExtendsTrans(b.g, b.cur, b.cur + 1, u.g, u.cur, u.cur + 1, g1);
    GrowExtends(g1, 1, b.cur, b.cur + 1);
    ExtendsTrans(b.g, b.cur, b.cur + 1, g1, b.cur, b.cur + 1, Grow(g1, 1));
    ContextKept(b, Grow(g1, 1));
  }

  /** A jump may run `finally` copies that themselves leave the current block open. */
  ghost predicate Unwound(b: State, u: State, dest: nat)
    requires b.cur < |b.g|
  {
    && GraphOk(u.g) && u.cur < |u.g| && u.cur != EXIT && Target(u.g, dest)
    && Extends(b.g, b.cur, b.cur + 1, u.g) && Adds(b, [], u)
    && (u.cur == b.cur || |b.g| <= u.cur)
  }

  lemma {:induction false} GrownUnwind(b: State, kind: Outcome)
    requires StateOk(b)
    ensures var (u, dest) := Unwind(b, kind); Unwound(b, u, dest)
    decreases FrameSize(b.frames), |b.frames|, 0
  {
    hide LowerBlock, LowerStmt, LowerBody, FrameSize, LegalHandlers, Follows, LegalBlock;
    if b.frames == [] {
      GrowExtends(b.g, 0, b.cur, b.cur + 1);
    } else {
      FrameSizePop(b.frames);
      var f := b.frames[|b.frames| - 1];
      assert FrameOk(b.g, f);
      var outer := b.frames[..|b.frames| - 1];
      match f
      case Loop(brk, cont) =>
        GrowExtends(b.g, 0, b.cur, b.cur + 1);
        if kind != Broke && kind != Continued {
          GrownUnwind(b.(frames := outer), kind);
        }
      case Finally(body, outerRaise) => GrownUnwindFinally(b, body, outerRaise, kind);
    }
  }

  lemma {:induction false} GrownUnwindFinally(b: State, body: Block, outerRaise: seq<nat>, kind: Outcome)
    requires StateOk(b) && b.frames != [] && b.frames[|b.frames| - 1] == Finally(body, outerRaise)
    ensures var (u, dest) := Unwind(LowerBlock(FinallyCopy(b, outerRaise), body), kind); Unwound(b, u, dest)
    decreases FrameSize(b.frames), 0, 0
  {
    hide LowerBlock, LowerStmt, LowerBody, Unwind, FrameSize, LegalStmt, RaiseOk, Head, Link;
    FrameSizePop(b.frames);
    assert FrameOk(b.g, b.frames[|b.frames| - 1]);
    var b1 := FinallyCopy(b, outerRaise);
    GrownFinallyCopy(b, outerRaise);
    GrownBlock(b1, body);
    var b2 := LowerBlock(b1, body);
    GrownUnwind(b2, kind);
    var (u, dest) := Unwind(b2, kind);
    ExtendsTrans(b.g, b.cur, b.cur + 1, b1.g, b1.cur, b1.cur + 1, b2.g);
    ExtendsTrans(b.g, b.cur, b.cur + 1, b2.g, b2.cur, b2.cur + 1, u.g);
    assert Kept(b1.g, b1.cur, b1.cur + 1, b2.g, b.cur) && Kept(b2.g, b2.cur, b2.cur + 1, u.g, b.cur);
  }

  /** Where a jump starts its copy of the innermost `finally`. */
  function FinallyCopy(b: State, outerRaise: seq<nat>): State
    requires b.cur < |b.g| && b.frames != []
  {
    State(Link(Grow(b.g, 1), b.cur, |b.g|), |b.g|, b.frames[..|b.frames| - 1], outerRaise)
  }

  lemma GrownFinallyCopy(b: State, outerRaise: seq<nat>)
    requires StateOk(b) && b.frames != [] && RaiseOk(b.g, outerRaise)
    ensures StateOk(FinallyCopy(b, outerRaise))
    ensures Extends(b.g, b.cur, b.cur + 1, FinallyCopy(b, outerRaise).g)
    ensures FinallyCopy(b, outerRaise).g[|b.g|] == EMPTY
    ensures |b.g| in FinallyCopy(b, outerRaise).g[b.cur].succs
    ensures FinallyCopy(b, outerRaise).g[b.cur].events == b.g[b.cur].events
  {
    BranchExtends(b.g, b.cur);
    ContextKept(b, FinallyCopy(b, outerRaise).g);
  }

  // ---- branches and loops ---------------------------------------------

  /** `r` comes from `b` by work that started at `fork`. */
  ghost predicate Branched(b: State, fork: nat, r: State) {
    StateOk(r) && Follows(b, r) && Extends(b.g, fork, fork + 1, r.g)
  }

  lemma {:induction false} GrownArm(b: State, body: Block, fork: nat, after: nat)
    requires StateOk(b) && LegalBlock(body)
    requires fork < |b.g| && fork != EXIT && Target(b.g, after)
    ensures Branched(b, fork, LowerArm(b, body, fork, after))
    ensures LowerArm(b, body, fork, after).g[fork].events == b.g[fork].events
    decreases BlockSize(body) + FrameSize(b.frames), 1
  {
    hide LowerBlock, LowerStmt, LowerBody, LegalBlock, FrameSize, Lead;
    var b1 := b.(g := Link(Grow(b.g, 1), fork, |b.g|), cur := |b.g|);
    BranchExtends(b.g, fork);
    ContextKept(b, b1.g);
    GrownBlock(b1, body);
    var b2 := LowerBlock(b1, body);
    ExtendsTrans(b.g, fork, fork + 1, b1.g, b1.cur, b1.cur + 1, b2.g);
    assert Kept(b1.g, b1.cur, b1.cur + 1, b2.g, fork);
    LinkExtends(b2.g, b2.cur, after);
    ExtendsTrans(b.g, fork, fork + 1, b2.g, b2.cur, b2.cur + 1, Link(b2.g, b2.cur, after));
    ContextKept(b2, Link(b2.g, b2.cur, after));
  }

  /** The head of an `elif`, entered from `fork`. */
  function ElifHead(b: State, cond: Trace, fork: nat): State
    requires fork < |b.g|
  {
    b.(g := Emit(Link(Grow(b.g, 1), fork, |b.g|), |b.g|, cond), cur := |b.g|)
  }

  lemma GrownElifHead(b: State, cond: Trace, fork: nat)
    requires StateOk(b) && fork < |b.g| && fork != EXIT
    ensures Branched(b, fork, ElifHead(b, cond, fork))
    ensures ElifHead(b, cond, fork).g[|b.g|] == BasicBlock(cond, [])
    ensures |b.g| in ElifHead(b, cond, fork).g[fork].succs
    ensures ElifHead(b, cond, fork).g[fork].events == b.g[fork].events
  {
    BranchExtends(b.g, fork);
    var g1 := Link(Grow(b.g, 1), fork, |b.g|);
    EmitExtends(g1, |b.g|, cond);
    ExtendsTrans(b.g, fork, fork + 1, g1, |b.g|, |b.g| + 1, ElifHead(b, cond, fork).g);
    ContextKept(b, ElifHead(b, cond, fork).g);
  }

  lemma {:induction false} GrownAlts(b: State, alts: Alts, fork: nat, after: nat)
    requires StateOk(b) && LegalAlts(alts)
    requires fork < |b.g| && fork != EXIT && Target(b.g, after)
    ensures Branched(b, fork, LowerAlts(b, alts, fork, after))
    ensures LowerAlts(b, alts, fork, after).g[fork].events == b.g[fork].events
    decreases AltsSize(alts) + FrameSize(b.frames)
  {
    hide LowerBlock, LowerStmt, LowerBody, LowerArm, LegalBlock, FrameSize;
    match alts
    case NoElse =>
      LinkExtends(b.g, fork, after);
      ContextKept(b, Link(b.g, fork, after));
    case Else(body) => GrownArm(b, body, fork, after);
    case Elif(cond, body, rest) =>
      var head := |b.g|;
      var b1 := ElifHead(b, cond, fork);
      GrownElifHead(b, cond, fork);
      GrownArm(b1, body, head, after);
      var b2 := LowerArm(b1, body, head, after);
      GrownAlts(b2, rest, head, after);
      ExtendsTrans(b.g, fork, fork + 1, b1.g, head, head + 1, b2.g);
      ExtendsTrans(b.g, fork, fork + 1, b2.g, head, head + 1, LowerAlts(b2, rest, head, after).g);
      assert Kept(b1.g, head, head + 1, b2.g, fork) && Kept(b2.g, head, head + 1, LowerAlts(b2, rest, head, after).g, fork);
  }

  /** The fork of an `if`, with its condition, and the block after it. */
  function OpenIf(b: State, cond: Trace): State
    requires b.cur < |b.g|
  {
    b.(g := Emit(Grow(b.g, 1), b.cur, cond))
  }

  lemma GrownOpenIf(b: State, cond: Trace)
    requires StateOk(b) && (b.g[b.cur].succs == [] || cond == [])
    ensures Grown(b, OpenIf(b, cond))
    ensures OpenIf(b, cond).g[|b.g|] == EMPTY
    ensures Adds(b, cond, OpenIf(b, cond))
  {
    GrowExtends(b.g, 1, b.cur, b.cur + 1);
    EmitExtends(Grow(b.g, 1), b.cur, cond);
    ExtendsTrans(b.g, b.cur, b.cur + 1, Grow(b.g, 1), b.cur, b.cur + 1, OpenIf(b, cond).g);
    ContextKept(b, OpenIf(b, cond).g);
  }

  lemma {:induction false} GrownIf(b: State, cond: Trace, body: Block, alts: Alts)
    requires StateOk(b) && LegalBlock(body) && LegalAlts(alts)
    requires b.g[b.cur].succs == [] || cond == []
    ensures var r := LowerIf(b, cond, body, alts);
      Grown(b, r) && Adds(b, cond, r) && r.cur == |b.g| && r.g[r.cur] == EMPTY
    decreases 1 + BlockSize(body) + AltsSize(alts) + FrameSize(b.frames)
  {
    hide LowerBlock, LowerStmt, LowerBody, LowerArm, LowerAlts, LegalBlock, LegalAlts, FrameSize, Grow;
    var after := |b.g|;
    var b1 := OpenIf(b, cond);
    GrownOpenIf(b, cond);
    GrownArm(b1, body, b.cur, after);
    var b2 := LowerArm(b1, body, b.cur, after);
    GrownAlts(b2, alts, b.cur, after);
    var b3 := LowerAlts(b2, alts, b.cur, after);
    ExtendsTrans(b.g, b.cur, b.cur + 1, b1.g, b.cur, b.cur + 1, b2.g);
    ExtendsTrans(b.g, b.cur, b.cur + 1, b2.g, b.cur, b.cur + 1, b3.g);
    assert Kept(b1.g, b.cur, b.cur + 1, b2.g, after) && Kept(b2.g, b.cur, b.cur + 1, b3.g, after);
  }

  /** The entry of a loop body. */
  function OpenLoop(b: State, cont: nat, after: nat): State
    requires b.cur < |b.g|
  {
    State(Link(Grow(b.g, 1), b.cur, |b.g|), |b.g|, b.frames + [Loop(after, cont)], b.raiseTo)
  }

  lemma GrownOpenLoop(b: State, cont: nat, after: nat)
    requires StateOk(b) && Target(b.g, cont) && Target(b.g, after)
    ensures StateOk(OpenLoop(b, cont, after))
    ensures Extends(b.g, b.cur, b.cur + 1, OpenLoop(b, cont, after).g)
    ensures OpenLoop(b, cont, after).g[|b.g|] == EMPTY
    ensures |b.g| in OpenLoop(b, cont, after).g[b.cur].succs
    ensures OpenLoop(b, cont, after).g[b.cur].events == b.g[b.cur].events
  {
    BranchExtends(b.g, b.cur);
    ContextKept(b, OpenLoop(b, cont, after).g);
  }

  lemma {:induction false} GrownLoopBody(b: State, body: Block, cont: nat, after: nat)
    requires StateOk(b) && LegalBlock(body)
    requires Target(b.g, cont) && Target(b.g, after)
    ensures Branched(b, b.cur, LoopBody(b, body, cont, after))
    ensures LoopBody(b, body, cont, after).g[b.cur].events == b.g[b.cur].events
    decreases BlockSize(body) + FrameSize(b.frames), 1
  {
    hide LowerBlock, LowerStmt, LowerBody, LegalBlock, GraphOk, RaiseOk, FrameSize, Grow, Head;
    var b1 := OpenLoop(b, cont, after);
    GrownOpenLoop(b, cont, after);
    FrameSizePush(b.frames, Loop(after, cont));
    GrownBlock(b1, body);
    var b2 := LowerBlock(b1, body);
    ExtendsTrans(b.g, b.cur, b.cur + 1, b1.g, b1.cur, b1.cur + 1, b2.g);
    assert Kept(b1.g, b1.cur, b1.cur + 1, b2.g, b.cur);
    LinkExtends(b2.g, b2.cur, cont);
    var g3 := Link(b2.g, b2.cur, cont);
    ExtendsTrans(b.g, b.cur, b.cur + 1, b2.g, b2.cur, b2.cur + 1, g3);
    ContextKept(b, g3);
  }

  lemma {:induction false} GrownElseBody(b: State, from: nat, orelse: Block, after: nat)
    requires StateOk(b) && LegalBlock(orelse)
    requires from < |b.g| && from != EXIT && Target(b.g, after) && after != EXIT
    ensures Branched(b, from, ElseBody(b, from, orelse, after))
    decreases BlockSize(orelse) + FrameSize(b.frames), 2
  {
    hide LowerBlock, LowerStmt, LowerBody, LegalBlock, FrameSize;
    GrownArm(b, orelse, from, after);
  }

  lemma {:induction false} GrownDeadElse(b: State, orelse: Block, after: nat)
    requires StateOk(b) && LegalBlock(orelse) && Target(b.g, after) && after != EXIT
    ensures Branched(b, |b.g|, DeadElse(b, orelse, after))
    decreases BlockSize(orelse) + FrameSize(b.frames), 1
  {
    hide LowerBlock, LowerStmt, LowerBody, LegalBlock, FrameSize;
    var n := |b.g|;
    var b1 := b.(g := Grow(b.g, 1), cur := n);
    GrowExtends(b.g, 1, n, n + 1);
    ContextKept(b, b1.g);
    GrownBlock(b1, orelse);
    var b2 := LowerBlock(b1, orelse);
    ExtendsTrans(b.g, n, n + 1, b1.g, n, n + 1, b2.g);
    LinkExtends(b2.g, b2.cur, after);
    var g3 := Link(b2.g, b2.cur, after);
    ExtendsTrans(b.g, n, n + 1, b2.g, b2.cur, b2.cur + 1, g3);
    ContextKept(b, g3);
  }

  lemma GrownOpenWhile(b: State, cond: Trace)
    requires StateOk(b)
    ensures var r := OpenWhile(b, cond); StateOk(r) && Extends(b.g, b.cur, b.cur + 1, r.g)
    ensures OpenWhile(b, cond).g[|b.g|] == BasicBlock(cond, [])
    ensures OpenWhile(b, cond).g[|b.g| + 1] == EMPTY && |OpenWhile(b, cond).g| == |b.g| + 2
    ensures |b.g| in OpenWhile(b, cond).g[b.cur].succs
    ensures OpenWhile(b, cond).g[b.cur].events == b.g[b.cur].events
  {
    GrownElifHead(b, cond, b.cur);
    var g1 := ElifHead(b, cond, b.cur).g;
    GrowExtends(g1, 1, b.cur, b.cur + 1);
    ExtendsTrans(b.g, b.cur, b.cur + 1, g1, b.cur, b.cur + 1, Grow(g1, 1));
    ContextKept(b, Grow(g1, 1));
  }

  lemma {:induction false} GrownWhileLoop(b: State, cond: Trace, body: Block)
    requires StateOk(b) && LegalBlock(body)
    ensures var r := LoopBody(OpenWhile(b, cond), body, |b.g|, |b.g| + 1);
      Branched(b, b.cur, r) && |b.g| + 1 < |r.g| && r.g[|b.g| + 1] == EMPTY
    ensures Adds(b, [], LoopBody(OpenWhile(b, cond), body, |b.g|, |b.g| + 1))
    decreases BlockSize(body) + FrameSize(b.frames), 2
  {
    hide LowerBlock, LowerStmt, LowerBody, LoopBody, LegalBlock, FrameSize;
    var header, after := |b.g|, |b.g| + 1;
    var b1 := OpenWhile(b, cond);
    GrownOpenWhile(b, cond);
    GrownLoopBody(b1, body, header, after);
    var b2 := LoopBody(b1, body, header, after);
    ExtendsTrans(b.g, b.cur, b.cur + 1, b1.g, header, header + 1, b2.g);
    assert Kept(b1.g, header, header + 1, b2.g, after) && Kept(b1.g, header, header + 1, b2.g, b.cur);
  }

  lemma {:induction false} GrownWhile(b: State, always: bool, cond: Trace, body: Block, orelse: Block)
    requires StateOk(b) && LegalBlock(body) && LegalBlock(orelse)
    ensures var r := LowerWhile(b, always, cond, body, orelse);
      Grown(b, r) && Adds(b, [], r) && r.cur == |b.g| + 1 && r.g[r.cur] == EMPTY
    decreases 1 + BlockSize(body) + BlockSize(orelse) + FrameSize(b.frames)
  {
    hide LowerBlock, LowerStmt, LowerBody, LoopBody, LegalBlock, FrameSize;
    var header, after := |b.g|, |b.g| + 1;
    var b2 := LoopBody(OpenWhile(b, cond), body, header, after);
    GrownWhileLoop(b, cond, body);
    if !always {
      GrownElseBody(b2, header, orelse, after);
      GrownAfter(b, b2, header, ElseBody(b2, header, orelse, after), after);
    } else if orelse.Cons? {
      GrownDeadElse(b2, orelse, after);
      GrownAfter(b, b2, |b2.g|, DeadElse(b2, orelse, after), after);
    }
  }

  /** Work from a block newer than `b`, ending at the block after the statement. */
  lemma GrownAfter(b: State, b1: State, from: nat, r: State, after: nat)
    requires b.cur < |b.g| <= from && Branched(b, b.cur, b1) && Branched(b1, from, r)
    requires |b.g| <= after < |b1.g| && b1.g[after] == EMPTY && after != from && after != EXIT
    requires r.cur == after
    ensures Grown(b, r) && r.g[after] == EMPTY
    ensures r.g[b.cur] == b1.g[b.cur]
  {
    ExtendsTrans(b.g, b.cur, b.cur + 1, b1.g, from, from + 1, r.g);
    assert Kept(b1.g, from, from + 1, r.g, after) && Kept(b1.g, from, from + 1, r.g, b.cur);
  }

  lemma GrownOpenFor(b: State, iterable: Trace, nonEmpty: bool, target: Trace)
    requires StateOk(b) && (b.g[b.cur].succs == [] || iterable == [])
    ensures var r := OpenFor(b, iterable, nonEmpty, target); StateOk(r) && Extends(b.g, b.cur, b.cur + 1, r.g)
    ensures var r := OpenFor(b, iterable, nonEmpty, target);
      && r.g[|b.g|] == BasicBlock([], [|b.g| + 1])
      && r.g[|b.g| + 1] == BasicBlock(target, [])
      && (forall i | |b.g| + 2 <= i < |r.g| :: r.g[i] == EMPTY)
      && |b.g| in r.g[b.cur].succs
      && r.g[b.cur].events == b.g[b.cur].events + iterable
  {
    hide FramesOk, FrameOk, FrameSize, Kept;
    var header, iterate := |b.g|, |b.g| + 1;
    var g0 := Emit(b.g, b.cur, iterable);
    EmitExtends(b.g, b.cur, iterable);
    var b1 := b.(g := Link(Grow(g0, 1), b.cur, header));
    BranchExtends(g0, b.cur);
    ExtendsTrans(b.g, b.cur, b.cur + 1, g0, b.cur, b.cur + 1, b1.g);
    ContextKept(b, b1.g);
    GrownElifHead(b1, target, header);
    var g2 := ElifHead(b1, target, header).g;
    ExtendsTrans(b.g, b.cur, b.cur + 1, b1.g, header, header + 1, g2);
    var n := if nonEmpty then 2 else 1;
    GrowExtends(g2, n, b.cur, b.cur + 1);
    ExtendsTrans(b.g, b.cur, b.cur + 1, g2, b.cur, b.cur + 1, Grow(g2, n));
    ContextKept(b, Grow(g2, n));
    assert g2[header].succs == [iterate];
  }

  /** The loop of a `for`, with the edge that repeats it. */
  function ForLoop(b: State, iterable: Trace, nonEmpty: bool, target: Trace, body: Block): State
    requires b.cur < |b.g|
  {
    var repeat := if nonEmpty then |b.g| + 3 else |b.g|;
    var b1 := LoopBody(OpenFor(b, iterable, nonEmpty, target), body, repeat, |b.g| + 2);
    if nonEmpty then b1.(g := Link(b1.g, repeat, |b.g| + 1)) else b1
  }

  lemma {:induction false} GrownForLoop(b: State, iterable: Trace, nonEmpty: bool, target: Trace, body: Block)
    requires StateOk(b) && LegalBlock(body)
    requires b.g[b.cur].succs == [] || iterable == []
    ensures var r := ForLoop(b, iterable, nonEmpty, target, body);
      Branched(b, b.cur, r) && |b.g| + 2 < |r.g| && r.g[|b.g| + 2] == EMPTY
    ensures Adds(b, iterable, ForLoop(b, iterable, nonEmpty, target, body))
    decreases BlockSize(body) + FrameSize(b.frames), 2
  {
    hide LowerBlock, LowerStmt, LowerBody, LoopBody, LegalBlock, FramesOk, FrameSize, OpenFor;
    var iterate, after := |b.g| + 1, |b.g| + 2;
    var repeat := if nonEmpty then |b.g| + 3 else |b.g|;
    var b1 := OpenFor(b, iterable, nonEmpty, target);
    GrownOpenFor(b, iterable, nonEmpty, target);
    GrownLoopBody(b1, body, repeat, after);
    var b2 := LoopBody(b1, body, repeat, after);
    ExtendsTrans(b.g, b.cur, b.cur + 1, b1.g, iterate, iterate + 1, b2.g);
    assert Kept(b1.g, iterate, iterate + 1, b2.g, after) && Kept(b1.g, iterate, iterate + 1, b2.g, b.cur);
    if nonEmpty {
      GrownRepeat(b, b2, repeat, iterate);
    }
  }

  lemma GrownRepeat(b: State, b1: State, repeat: nat, iterate: nat)
    requires b.cur < |b.g| <= repeat && Branched(b, b.cur, b1)
    requires repeat < |b1.g| && repeat != EXIT && Target(b1.g, iterate)
    ensures var r := b1.(g := Link(b1.g, repeat, iterate));
      && Branched(b, b.cur, r)
      && forall i | 0 <= i < |b1.g| :: i != repeat ==> r.g[i] == b1.g[i]
  {
    var g2 := Link(b1.g, repeat, iterate);
    LinkExtends(b1.g, repeat, iterate);
    ExtendsTrans(b.g, b.cur, b.cur + 1, b1.g, repeat, repeat + 1, g2);
    ContextKept(b1, g2);
  }

  lemma {:induction false} GrownFor(b: State, iterable: Trace, nonEmpty: bool, target: Trace, body: Block, orelse: Block)
    requires StateOk(b) && LegalBlock(body) && LegalBlock(orelse)
    requires b.g[b.cur].succs == [] || iterable == []
    ensures var r := LowerFor(b, iterable, nonEmpty, target, body, orelse);
      Grown(b, r) && Adds(b, iterable, r) && r.cur == |b.g| + 2 && r.g[r.cur] == EMPTY
    decreases 1 + BlockSize(body) + BlockSize(orelse) + FrameSize(b.frames)
  {
    hide LowerBlock, LowerStmt, LowerBody, LoopBody, LegalBlock, FrameSize;
    var after := |b.g| + 2;
    var repeat := if nonEmpty then |b.g| + 3 else |b.g|;
    var b2 := ForLoop(b, iterable, nonEmpty, target, body);
    GrownForLoop(b, iterable, nonEmpty, target, body);
    GrownElseBody(b2, repeat, orelse, after);
    GrownAfter(b, b2, repeat, ElseBody(b2, repeat, orelse, after), after);
  }

  // ---- try ------------------------------------------------------------

  lemma OpenTryOk(b: State, s: Stmt)
    requires StateOk(b) && s.Try? && LegalStmt(s)
    ensures var r := OpenTry(b, s);
      && StateOk(r) && InTry(r) && Extends(b.g, b.cur, b.cur + 1, r.g)
      && (forall i | |b.g| <= i < |r.g| :: r.g[i] == EMPTY)
      && r.cur in r.g[b.cur].succs && r.g[b.cur].events == b.g[b.cur].events
      && r.cur == FirstHandler(b, s) + HandlerCount(s.handlers) && |r.g| == r.cur + 1
      && RaiseOk(r.g, PastTry(b, s)) && (PastTry(b, s) != [EXIT] <==> InTry(b) || s.final.Cons?)
  {
    hide LegalHandlers, LegalBlock, LegalAlts, Lead, GraphOk, FrameSize;
    var r := OpenTry(b, s);
    OpenTryExtends(b, s);
    ContextKept(b, r.g);
    TryRaiseOk(b, s, r.g);
    assert s.final.Cons? ==> FrameOk(r.g, Finally(s.final, b.raiseTo));
  }

  lemma OpenTryExtends(b: State, s: Stmt)
    requires StateOk(b) && s.Try?
    ensures var r := OpenTry(b, s);
      && Extends(b.g, b.cur, b.cur + 1, r.g)
      && (forall i | |b.g| <= i < |r.g| :: r.g[i] == EMPTY)
      && r.cur in r.g[b.cur].succs && r.g[b.cur].events == b.g[b.cur].events
      && r.cur == FirstHandler(b, s) + HandlerCount(s.handlers) && |r.g| == r.cur + 1 && r.cur != EXIT && 2 <= |b.g|
  {
    hide FramesOk, FrameOk, RaiseOk, FrameSize, BlockOk;
    var r := OpenTry(b, s);
    var n := r.cur + 1 - |b.g|;
    GrowExtends(b.g, n, b.cur, b.cur + 1);
    LinkExtends(Grow(b.g, n), b.cur, r.cur);
    ExtendsTrans(b.g, b.cur, b.cur + 1, Grow(b.g, n), b.cur, b.cur + 1, r.g);
  }

  lemma TryRaiseOk(b: State, s: Stmt, g: Graph)
    requires 2 <= |b.g| && b.cur < |b.g| && s.Try? && RaiseOk(g, b.raiseTo)
    requires |g| == FirstHandler(b, s) + HandlerCount(s.handlers) + 1
    ensures RaiseOk(g, OpenTry(b, s).raiseTo) && RaiseOk(g, PastTry(b, s))
    ensures s.handlers.Handler? || s.final.Cons? ==> OpenTry(b, s).raiseTo != [EXIT]
    ensures PastTry(b, s) != [EXIT] <==> InTry(b) || s.final.Cons?
  {
    var ids, past := EntryIds(FirstHandler(b, s), HandlerCount(s.handlers)), PastTry(b, s);
    var rs := OpenTry(b, s).raiseTo;
    forall i | 0 <= i < |rs|
      ensures Target(g, rs[i])
    {
      if i < |ids| {
        assert rs[i] == ids[i];
      } else {
        assert rs[i] == past[i - |ids|];
      }
    }
    if s.handlers.Handler? {
      assert |rs| > 1;
    } else {
      assert rs == past;
    }
  }

  /** The body's last block, with its raise edges, at the start of `else`. */
  function OpenElse(b: State, past: seq<nat>): State
    requires b.cur < |b.g|
  {
    b.(g := LinkAll(b.g, b.cur, b.raiseTo), raiseTo := past)
  }

  lemma GrownOpenElse(b: State, past: seq<nat>)
    requires StateOk(b) && RaiseOk(b.g, past)
    ensures StateOk(OpenElse(b, past)) && Extends(b.g, b.cur, b.cur + 1, OpenElse(b, past).g)
    ensures forall i | 0 <= i < |b.raiseTo| :: b.raiseTo[i] in OpenElse(b, past).g[b.cur].succs
    ensures OpenElse(b, past).g[b.cur].events == b.g[b.cur].events
  {
    LinkAllExtends(b.g, b.cur, b.raiseTo);
    ContextKept(b, OpenElse(b, past).g);
  }

  lemma GrownTailRaise(b: State)
    requires StateOk(b)
    ensures StateOk(TailRaise(b)) && Extends(b.g, b.cur, b.cur + 1, TailRaise(b).g)
    ensures InTry(b) ==> forall i | 0 <= i < |b.raiseTo| :: b.raiseTo[i] in TailRaise(b).g[b.cur].succs
    ensures TailRaise(b).g[b.cur].events == b.g[b.cur].events
  {
    if InTry(b) {
      LinkAllExtends(b.g, b.cur, b.raiseTo);
      ContextKept(b, TailRaise(b).g);
    } else {
      GrowExtends(b.g, 0, b.cur, b.cur + 1);
    }
  }

  lemma {:induction false} GrownElse(b: State, past: seq<nat>, orelse: Block)
    requires StateOk(b) && LegalBlock(orelse) && RaiseOk(b.g, past) && b.g[b.cur].succs == []
    ensures var r := LowerElse(b, past, orelse);
      && StateOk(r) && Extends(b.g, b.cur, b.cur + 1, r.g) && (r.cur == b.cur || |b.g| <= r.cur)
      && Adds(b, if past == [EXIT] then Lead(orelse) else [], r)
      && (forall i | 0 <= i < |b.raiseTo| :: b.raiseTo[i] in r.g[b.cur].succs)
    decreases BlockSize(orelse) + FrameSize(b.frames), 2
  {
    hide LowerBlock, LowerStmt, LowerBody, LegalBlock, FrameSize, LinkAll;
    var b1 := OpenElse(b, past);
    GrownOpenElse(b, past);
    if past == [EXIT] {
      GrownBareElse(b, orelse);
    } else {
      GrownBlock(b1, orelse);
      var b2 := LowerBlock(b1, orelse);
      ExtendsTrans(b.g, b.cur, b.cur + 1, b1.g, b1.cur, b1.cur + 1, b2.g);
      GrownTailRaise(b2);
      ExtendsTrans(b.g, b.cur, b.cur + 1, b2.g, b2.cur, b2.cur + 1, TailRaise(b2).g);
      assert Kept(b1.g, b1.cur, b1.cur + 1, b2.g, b.cur) && Kept(b2.g, b2.cur, b2.cur + 1, TailRaise(b2).g, b.cur);
    }
  }

  /** Outside every `try` region the `else` goes on in the block the body ended in. It is
      lowered as it would be without the raise edges of that block. */
  lemma {:induction false} GrownBareElse(b: State, orelse: Block)
    requires StateOk(b) && LegalBlock(orelse) && b.g[b.cur].succs == []
    ensures var r, q := LowerElse(b, [EXIT], orelse), LowerBlock(b.(raiseTo := [EXIT]), orelse);
      && StateOk(r) && Extends(b.g, b.cur, b.cur + 1, r.g) && (r.cur == b.cur || |b.g| <= r.cur)
      && AlikeStates(q, r, b.cur, b.raiseTo) && Grown(b.(raiseTo := [EXIT]), q)
      && Adds(b, Lead(orelse), r)
      && (forall i | 0 <= i < |b.raiseTo| :: b.raiseTo[i] in r.g[b.cur].succs)
    decreases BlockSize(orelse) + FrameSize(b.frames), 1
  {
    hide LowerBlock, LowerStmt, LowerBody, LegalBlock, FrameSize;
    var b0, b1 := b.(raiseTo := [EXIT]), OpenElse(b, [EXIT]);
    GrownBlock(b0, orelse);
    AlikeAdded(b.g, b.cur, b.raiseTo);
    AlikeBlock(b0, b1, b.cur, b.raiseTo, orelse);
    AlikeExtends(b, LowerBlock(b0, orelse), LowerBlock(b1, orelse));
  }

  /** More edges out of a current block that had none. */
  lemma AlikeExtends(b: State, q: State, r: State)
    requires StateOk(b) && b.g[b.cur].succs == []
    requires Grown(b.(raiseTo := [EXIT]), q) && AlikeStates(q, r, b.cur, b.raiseTo)
    ensures StateOk(r) && Extends(b.g, b.cur, b.cur + 1, r.g) && r.g[b.cur].events == q.g[b.cur].events
    ensures forall i | 0 <= i < |b.raiseTo| :: b.raiseTo[i] in r.g[b.cur].succs
  {
    forall i | 0 <= i < |r.g|
      ensures BlockOk(r.g, i)
    {
      assert AlikeAt(q.g, r.g, b.cur, b.raiseTo, i) && BlockOk(q.g, i);
    }
    assert AlikeAt(q.g, r.g, b.cur, b.raiseTo, EXIT);
    forall i {:trigger Kept(b.g, b.cur, b.cur + 1, r.g, i)} | 0 <= i < |b.g|
      ensures Kept(b.g, b.cur, b.cur + 1, r.g, i)
    {
      assert AlikeAt(q.g, r.g, b.cur, b.raiseTo, i) && Kept(b.g, b.cur, b.cur + 1, q.g, i);
    }
    assert AlikeAt(q.g, r.g, b.cur, b.raiseTo, b.cur);
    ContextKept(q, r.g);
  }

  /** A handler with its header, at the start of its body. */
  function OpenHandler(b: State, header: Trace, entry: nat): State
    requires entry < |b.g|
  {
    b.(g := Emit(b.g, entry, header), cur := entry)
  }

  lemma GrownOpenHandler(b: State, header: Trace, entry: nat)
    requires StateOk(b) && Target(b.g, entry) && entry != EXIT && b.g[entry] == EMPTY
    ensures StateOk(OpenHandler(b, header, entry)) && Extends(b.g, entry, entry + 1, OpenHandler(b, header, entry).g)
    ensures OpenHandler(b, header, entry).g[entry] == BasicBlock(header, [])
  {
    EmitExtends(b.g, entry, header);
    ContextKept(b, OpenHandler(b, header, entry).g);
  }

  lemma {:induction false} GrownHandler(b: State, header: Trace, body: Block, unbind: Trace, entry: nat)
    requires StateOk(b) && LegalBlock(body)
    requires Target(b.g, entry) && entry != EXIT && b.g[entry] == EMPTY
    ensures var r := LowerHandler(b, header, body, unbind, entry);
      StateOk(r) && Extends(b.g, entry, entry + 1, r.g) && (r.cur == entry || |b.g| <= r.cur)
    decreases BlockSize(body) + FrameSize(b.frames), 1
  {
    hide LowerBlock, LowerStmt, LowerBody, LegalBlock, FrameSize, Extends;
    var b1 := OpenHandler(b, header, entry);
    GrownOpenHandler(b, header, entry);
    GrownBlock(b1, body);
    var b2 := LowerBlock(b1, body);
    ExtendsTrans(b.g, entry, entry + 1, b1.g, entry, entry + 1, b2.g);
    var b3 := b2.(g := Emit(b2.g, b2.cur, unbind));
    GrownEmit(b2, unbind);
    ExtendsTrans(b.g, entry, entry + 1, b2.g, b2.cur, b2.cur + 1, b3.g);
    GrownTailRaise(b3);
    ExtendsTrans(b.g, entry, entry + 1, b3.g, b3.cur, b3.cur + 1, TailRaise(b3).g);
  }

  lemma {:induction false} GrownHandlers(b: State, h: Handlers, entry: nat)
    requires StateOk(b) && LegalHandlers(h)
    requires 2 <= entry && entry + HandlerCount(h) <= |b.g|
    requires forall i | entry <= i < entry + HandlerCount(h) :: b.g[i] == EMPTY
    ensures var (r, ends) := LowerHandlers(b, h, entry);
      && StateOk(r) && Extends(b.g, entry, entry + HandlerCount(h), r.g)
      && (forall i | 0 <= i < |ends| :: entry <= ends[i] < |r.g|)
    decreases HandlersSize(h) + FrameSize(b.frames)
  {
    hide LowerBlock, LowerStmt, LowerBody, LowerHandler, FrameSize, StmtSize;
    match h
    case NoHandler => GrowExtends(b.g, 0, entry, entry);
    case Handler(header, body, unbind, rest) =>
      var b1 := LowerHandler(b, header, body, unbind, entry);
      GrownHandler(b, header, body, unbind, entry);
      forall i | entry + 1 <= i < entry + HandlerCount(h)
        ensures b1.g[i] == EMPTY
      {
        assert Kept(b.g, entry, entry + 1, b1.g, i);
      }
      ExtendsWiden(b.g, entry, entry + 1, b1.g, entry, entry + HandlerCount(h));
      GrownHandlers(b1, rest, entry + 1);
      var (b2, ends) := LowerHandlers(b1, rest, entry + 1);
      ExtendsTrans(b.g, entry, entry + HandlerCount(h), b1.g, entry + 1, entry + HandlerCount(h), b2.g);
  }

  /** The body of a `try` ends in a block that has no edges yet. */
  lemma {:induction false} GrownTryBody(b: State, s: Stmt)
    requires StateOk(b) && s.Try? && LegalStmt(s)
    ensures var r := TryBody(b, s);
      && Grown(OpenTry(b, s), r) && r.g[r.cur].succs == [] && RaiseOk(r.g, PastTry(b, s))
      && Extends(b.g, b.cur, b.cur + 1, r.g) && Adds(b, [], r)
      && (forall i | |b.g| <= i < FirstHandler(b, s) + HandlerCount(s.handlers) :: r.g[i] == EMPTY)
    decreases StmtSize(s) + FrameSize(b.frames), 0, 0
  {
    hide LowerBlock, LowerStmt, LowerBody, OpenTry, LegalBlock, LegalHandlers, FrameSize;
    var b0 := OpenTry(b, s);
    OpenTryOk(b, s);
    GrownBlock(b0, s.body);
    var b1 := LowerBlock(b0, s.body);
    forall i | |b.g| <= i < FirstHandler(b, s) + HandlerCount(s.handlers)
      ensures b1.g[i] == EMPTY
    {
      assert Kept(b0.g, b0.cur, b0.cur + 1, b1.g, i);
    }
    assert Kept(b0.g, b0.cur, b0.cur + 1, b1.g, b.cur);
    ExtendsTrans(b.g, b.cur, b.cur + 1, b0.g, b0.cur, b0.cur + 1, b1.g);
  }

  lemma {:induction false} GrownTryElse(b: State, s: Stmt)
    requires StateOk(b) && s.Try? && LegalStmt(s)
    ensures var r := TryElse(b, s);
      && StateOk(r) && Extends(b.g, b.cur, b.cur + 1, r.g) && Adds(b, [], r)
      && FirstHandler(b, s) + HandlerCount(s.handlers) <= r.cur
      && (forall i | |b.g| <= i < FirstHandler(b, s) + HandlerCount(s.handlers) :: r.g[i] == EMPTY)
    decreases StmtSize(s) + FrameSize(b.frames), 0, 1
  {
    hide LowerBlock, LowerStmt, LowerBody, LowerElse, TryBody, LegalBlock, LegalHandlers, FrameSize, Link, LegalAlts, Target, Grow, GraphOk;
    var b1, past := TryBody(b, s), PastTry(b, s);
    GrownTryBody(b, s);
    GrownElse(b1, past, s.orelse);
    var b2 := TryElse(b, s);
    forall i | |b.g| <= i < FirstHandler(b, s) + HandlerCount(s.handlers)
      ensures b2.g[i] == EMPTY
    {
      assert Kept(b1.g, b1.cur, b1.cur + 1, b2.g, i);
    }
    assert Kept(b1.g, b1.cur, b1.cur + 1, b2.g, b.cur);
    ExtendsTrans(b.g, b.cur, b.cur + 1, b1.g, b1.cur, b1.cur + 1, b2.g);
  }

  lemma {:induction false} GrownGuarded(b: State, s: Stmt)
    requires StateOk(b) && s.Try? && LegalStmt(s)
    ensures var (r, ends) := LowerGuarded(b, s);
      && StateOk(r) && Extends(b.g, b.cur, b.cur + 1, r.g) && |b.g| < |r.g| && Adds(b, [], r)
      && FirstHandler(b, s) + HandlerCount(s.handlers) < |r.g|
      && (forall i | 0 <= i < |ends| :: FirstHandler(b, s) <= ends[i] < |r.g|)
      && (s.final.Cons? ==> r.g[|b.g|] == EMPTY)
    decreases StmtSize(s) + FrameSize(b.frames), 0, 2
  {
    hide LowerBlock, LowerStmt, LowerBody, TryElse, LowerHandlers, LegalBlock, LegalHandlers, FrameSize, OpenTry;
    var b2 := TryElse(b, s);
    GrownTryElse(b, s);
    var first, count := FirstHandler(b, s), HandlerCount(s.handlers);
    GrownHandlers(b2, s.handlers, first);
    var (b3, ends) := LowerHandlers(b2, s.handlers, first);
    ExtendsTrans(b.g, b.cur, b.cur + 1, b2.g, first, first + count, b3.g);
    assert Kept(b2.g, first, first + count, b3.g, b.cur);
    if s.final.Cons? {
      assert Kept(b2.g, first, first + count, b3.g, |b.g|);
    }
  }

  /** The normal ends of the guarded part joined in a new block. */
  lemma GrownJoined(b: State, b3: State, ends: seq<nat>, lo: nat)
    requires StateOk(b) && StateOk(b3) && Extends(b.g, b.cur, b.cur + 1, b3.g) && |b.g| < |b3.g|
    requires |b.g| <= lo && forall i | 0 <= i < |ends| :: lo <= ends[i] < |b3.g|
    ensures var r := State(LinkFrom(Grow(b3.g, 1), ends, |b3.g|), |b3.g|, b.frames, b.raiseTo);
      && Grown(b, r) && r.g[r.cur] == EMPTY
      && Extends(b3.g, lo, |b3.g|, r.g)
      && (forall i | 0 <= i < |ends| :: r.cur in r.g[ends[i]].succs)
      && (forall i | 0 <= i < |b3.g| :: r.g[i].events == b3.g[i].events)
  {
    var join := |b3.g|;
    var g := Grow(b3.g, 1);
    GrowExtends(b3.g, 1, lo, join);
    LinkFromExtends(g, lo, join, ends, join);
    var g4 := LinkFrom(g, ends, join);
    ExtendsTrans(b3.g, lo, join, g, lo, join, g4);
    ExtendsTrans(b.g, b.cur, b.cur + 1, b3.g, lo, join, g4);
    assert Kept(g, lo, join, g4, join);
    ContextKept(b, g4);
  }

  lemma {:induction false} GrownJoin(b: State, s: Stmt)
    requires StateOk(b) && s.Try? && LegalStmt(s)
    ensures Grown(b, Join(b, s)) && Adds(b, [], Join(b, s)) && |b.g| < Join(b, s).cur
    ensures Join(b, s).g[Join(b, s).cur] == EMPTY
    ensures s.final.Cons? ==> Join(b, s).g[|b.g|] == EMPTY
    decreases StmtSize(s) + FrameSize(b.frames), 0, 3
  {
    hide LowerBlock, LowerStmt, LowerBody, LowerGuarded, FrameSize;
    GrownGuarded(b, s);
    var (b3, ends) := LowerGuarded(b, s);
    GrownJoined(b, b3, ends, FirstHandler(b, s));
    if s.final.Cons? {
      assert Kept(b3.g, FirstHandler(b, s), |b3.g|, Join(b, s).g, |b.g|);
    }
  }

  /** The exceptional copy of `finally`. */
  lemma {:induction false} GrownReraise(b: State, exc: nat, final: Block)
    requires StateOk(b) && LegalBlock(final)
    requires 2 <= exc < |b.g| && b.g[exc] == EMPTY
    ensures StateOk(LowerReraise(b, exc, final)) && Extends(b.g, exc, exc + 1, LowerReraise(b, exc, final).g)
    ensures LowerReraise(b, exc, final).cur == b.cur
    decreases BlockSize(final) + FrameSize(b.frames), 1
  {
    hide LowerBlock, LowerStmt, LowerBody, LegalBlock, FrameSize;
    var b1 := b.(cur := exc);
    GrownBlock(b1, final);
    var b2 := LowerBlock(b1, final);
    LinkAllExtends(b2.g, b2.cur, b2.raiseTo);
    var g3 := LinkAll(b2.g, b2.cur, b2.raiseTo);
    ExtendsTrans(b.g, exc, exc + 1, b2.g, b2.cur, b2.cur + 1, g3);
    ContextKept(b, g3);
  }

  lemma {:induction false} GrownTry(b: State, s: Stmt)
    requires StateOk(b) && s.Try? && LegalStmt(s)
    ensures Grown(b, LowerTry(b, s)) && Adds(b, [], LowerTry(b, s)) && |b.g| <= LowerTry(b, s).cur
    ensures LowerTry(b, s).g[LowerTry(b, s).cur].succs == []
    decreases StmtSize(s) + FrameSize(b.frames), 0, 4
  {
    hide LowerBlock, LowerStmt, LowerBody, Join, LegalBlock, LegalHandlers, FrameSize, LowerReraise;
    var b1, exc := Join(b, s), |b.g|;
    GrownJoin(b, s);
    if s.final.Cons? {
      GrownBlock(b1, s.final);
      var b2 := LowerBlock(b1, s.final);
      assert Kept(b1.g, b1.cur, b1.cur + 1, b2.g, exc);
      GrownReraise(b2, exc, s.final);
      var b3 := LowerReraise(b2, exc, s.final);
      ExtendsTrans(b.g, b.cur, b.cur + 1, b1.g, b1.cur, b1.cur + 1, b2.g);
      ExtendsTrans(b.g, b.cur, b.cur + 1, b2.g, exc, exc + 1, b3.g);
      assert Kept(b2.g, exc, exc + 1, b3.g, b2.cur);
      assert Kept(b1.g, b1.cur, b1.cur + 1, b2.g, b.cur) && Kept(b2.g, exc, exc + 1, b3.g, b.cur);
    }
  }

  // ---- functions ------------------------------------------------------

  lemma StartOk()
    ensures StateOk(START) && !InTry(START)
  {
  }

  /** Edges of a built graph are in range, none enters ENTRY and none leaves EXIT. */
  lemma BuildOk(body: Block)
    requires LegalBlock(body)
    ensures GraphOk(Build(body))
    ensures var b := LowerBlock(START, body);
      && StateOk(b) && Extends(START.g, ENTRY, ENTRY + 1, b.g)
      && Extends(b.g, b.cur, b.cur + 1, Build(body))
      && EXIT in Build(body)[b.cur].succs && Build(body)[b.cur].events == b.g[b.cur].events
  {
    hide LowerBlock, LowerStmt, LowerBody, FrameSize;
    StartOk();
    GrownBlock(START, body);
    var b := LowerBlock(START, body);
    LinkExtends(b.g, b.cur, EXIT);
  }
}
