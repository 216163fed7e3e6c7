/** Where in a run an event is made. An event that occurs in one `try` only, outside every
    `try` region, is made in a run of that `try`, and the block can be run up to that
    `try` and go on with any run of it: whatever the block does before it, the run comes to
    the `try` having spelled the same. */
module Locating {
  import opened Cfg
  import opened Python
  import opened Endings
  import opened Occurring

  // ---- a try that can be reached --------------------------------------

  /** A run of `k` can come to `s`, outside every `try` region. */
  predicate ReachedBlock(k: Block, s: Stmt) {
    k.Cons? && (ReachedStmt(k.head, s) || (EndsStmt(k.head, Normal) && ReachedBlock(k.tail, s)))
  }

  predicate ReachedStmt(k: Stmt, s: Stmt) {
    || k == s
    || match k {
      case If(_, body, alts) => ReachedBlock(body, s) || ReachedAlts(alts, s)
      case While(always, _, body, orelse) => ReachedBlock(body, s) || (!always && ReachedBlock(orelse, s))
      case For(_, nonEmpty, _, body, orelse) =>
        ReachedBlock(body, s) || ((nonEmpty ==> Repeats(body)) && ReachedBlock(orelse, s))
      case Try(body, handlers, orelse, final) =>
        if final.Cons? then ReachedBlock(final, s)
        else ReachedHandlers(handlers, s) || (EndsBlock(body, Normal) && ReachedBlock(orelse, s))
      case _ => false
    }
  }

  predicate ReachedAlts(a: Alts, s: Stmt) {
    match a
    case NoElse => false
    case Else(body) => ReachedBlock(body, s)
    case Elif(_, body, rest) => ReachedBlock(body, s) || ReachedAlts(rest, s)
  }

  predicate ReachedHandlers(h: Handlers, s: Stmt) {
    h.Handler? && (ReachedBlock(h.body, s) || ReachedHandlers(h.rest, s))
  }

  /** From `t` on, part of any run of `s` can be observed. */
  ghost predicate Opens(m: Rules, s: Stmt, t: Trace, cuts: iset<Trace>) {
    forall u {:trigger RunStmt(m, s, u, Cut)} | RunStmt(m, s, u, Cut) :: t + u in cuts
  }

  ghost function BlockCuts(m: Rules, k: Block): iset<Trace> {
    iset t | RunBlock(m, k, t, Cut)
  }

  ghost function StmtCuts(m: Rules, s: Stmt): iset<Trace> {
    iset t | RunStmt(m, s, t, Cut)
  }

  ghost function BodyCuts(m: Rules, s: Stmt): iset<Trace> {
    iset t | RunBody(m, s, t, Cut)
  }

  ghost function AltCuts(m: Rules, a: Alts): iset<Trace> {
    iset t | RunAlts(m, a, t, Cut)
  }

  ghost function GuardCuts(m: Rules, s: Stmt): iset<Trace>
    requires s.Try?
  {
    iset t | RunGuarded(m, s, t, Cut)
  }

  ghost function HandlerCuts(m: Rules, h: Handlers): iset<Trace> {
    iset t | RunHandlers(m, h, t, Cut)
  }

  ghost function LoopCuts(m: Rules, pre: Trace, body: Block): iset<Trace> {
    iset t | IsLoopCut(m, pre, body, t)
  }

  ghost predicate IsLoopCut(m: Rules, pre: Trace, body: Block, t: Trace) {
    exists n: nat, t1, t2 :: t == t1 + t2 && RunTurns(m, pre, body, t1, n) && RunLastTurn(m, pre, body, t2, Cut)
  }

  /** What is in `inner` is in `outer` after `pre`. */
  ghost predicate Prefixed(pre: Trace, inner: iset<Trace>, outer: iset<Trace>) {
    forall t | t in inner :: pre + t in outer
  }

  lemma OpensIn(m: Rules, s: Stmt, t: Trace, inner: iset<Trace>, pre: Trace, outer: iset<Trace>)
    requires Opens(m, s, t, inner) && Prefixed(pre, inner, outer)
    ensures Opens(m, s, pre + t, outer)
  {
    hide RunStmt;
    forall u | RunStmt(m, s, u, Cut)
      ensures pre + t + u in outer
    {
      assert pre + t + u == pre + (t + u);
    }
  }

  lemma PrefixedNothing(cuts: iset<Trace>)
    ensures Prefixed([], cuts, cuts)
  {
    forall t | t in cuts
      ensures [] + t in cuts
    {
      assert [] + t == t;
    }
  }

  // ---- how cuts of the parts are cuts of the whole --------------------

  lemma HeadCuts(m: Rules, k: Block)
    requires k.Cons?
    ensures Prefixed([], StmtCuts(m, k.head), BlockCuts(m, k))
  {
    hide RunStmt;
    forall t | t in StmtCuts(m, k.head)
      ensures [] + t in BlockCuts(m, k)
    {
      assert [] + t == t;
    }
  }

  lemma TailCuts(m: Rules, k: Block, t1: Trace)
    requires k.Cons? && RunStmt(m, k.head, t1, Normal)
    ensures Prefixed(t1, BlockCuts(m, k.tail), BlockCuts(m, k))
  {
    hide RunStmt;
  }

  lemma StmtBodyCuts(m: Rules, s: Stmt)
    ensures Prefixed([], BodyCuts(m, s), StmtCuts(m, s))
  {
    hide RunBody;
    forall t | t in BodyCuts(m, s)
      ensures [] + t in StmtCuts(m, s)
    {
      assert [] + t == t;
    }
  }

  lemma IfCuts(m: Rules, s: Stmt)
    requires s.If?
    ensures Prefixed(s.cond, BlockCuts(m, s.body), BodyCuts(m, s)) && Prefixed(s.cond, AltCuts(m, s.alts), BodyCuts(m, s))
  {
    hide RunBlock, RunAlts;
  }

  lemma ElifCuts(m: Rules, a: Alts)
    requires a.Elif?
    ensures Prefixed(a.cond, BlockCuts(m, a.body), AltCuts(m, a)) && Prefixed(a.cond, AltCuts(m, a.rest), AltCuts(m, a))
  {
    hide RunBlock;
  }

  /** A cut turn after `n` whole ones. */
  lemma TurnCuts(m: Rules, pre: Trace, body: Block, t1: Trace, n: nat)
    requires RunTurns(m, pre, body, t1, n)
    ensures Prefixed(t1 + pre, BlockCuts(m, body), LoopCuts(m, pre, body))
  {
    hide RunBlock, RunTurns;
    forall t | t in BlockCuts(m, body)
      ensures t1 + pre + t in LoopCuts(m, pre, body)
    {
      assert t1 + pre + t == t1 + (pre + t) && RunLastTurn(m, pre, body, pre + t, Cut);
      assert IsLoopCut(m, pre, body, t1 + (pre + t));
    }
  }

  lemma WhileCuts(m: Rules, s: Stmt)
    requires s.While?
    ensures Prefixed([], LoopCuts(m, s.cond, s.body), BodyCuts(m, s))
  {
    hide RunBlock, RunTurns, RunLastTurn;
    forall t | t in LoopCuts(m, s.cond, s.body)
      ensures [] + t in BodyCuts(m, s)
    {
      assert [] + t == t;
    }
  }

  lemma WhileElseCuts(m: Rules, s: Stmt, t1: Trace, n: nat)
    requires s.While? && !s.always && RunTurns(m, s.cond, s.body, t1, n)
    ensures Prefixed(t1 + s.cond, BlockCuts(m, s.orelse), BodyCuts(m, s))
  {
    hide RunBlock, RunTurns, RunLastTurn;
    forall t | t in BlockCuts(m, s.orelse)
      ensures t1 + s.cond + t in BodyCuts(m, s)
    {
      assert t1 + s.cond + t == t1 + (s.cond + t);
    }
  }

  lemma ForCuts(m: Rules, s: Stmt)
    requires s.For?
    ensures Prefixed(s.iterable, LoopCuts(m, s.target, s.body), BodyCuts(m, s))
  {
    hide RunBlock, RunTurns, RunLastTurn;
    forall t | t in LoopCuts(m, s.target, s.body)
      ensures s.iterable + t in BodyCuts(m, s)
    {
      var n: nat, t1, t2 :| t == t1 + t2 && RunTurns(m, s.target, s.body, t1, n) && RunLastTurn(m, s.target, s.body, t2, Cut);
      assert s.iterable + t == s.iterable + t1 + t2;
    }
  }

  lemma ForElseCuts(m: Rules, s: Stmt, t1: Trace, n: nat)
    requires s.For? && (s.nonEmpty ==> n > 0) && RunTurns(m, s.target, s.body, t1, n)
    ensures Prefixed(s.iterable + t1, BlockCuts(m, s.orelse), BodyCuts(m, s))
  {
    hide RunBlock, RunTurns, RunLastTurn;
  }

  lemma GuardedCuts(m: Rules, s: Stmt)
    requires s.Try?
    ensures Prefixed([], GuardCuts(m, s), BodyCuts(m, s))
  {
    hide RunBlock, RunGuarded;
    forall t | t in GuardCuts(m, s)
      ensures [] + t in BodyCuts(m, s)
    {
      assert [] + t == t;
    }
  }

  lemma FinallyCuts(m: Rules, s: Stmt, t1: Trace, o1: Outcome)
    requires s.Try? && s.final.Cons? && o1 != Cut && RunGuarded(m, s, t1, o1)
    ensures Prefixed(t1, BlockCuts(m, s.final), BodyCuts(m, s))
  {
    hide RunBlock, RunGuarded;
    forall t | t in BlockCuts(m, s.final)
      ensures t1 + t in BodyCuts(m, s)
    {
      assert AfterFinally(o1, Cut) == Cut;
    }
  }

  lemma ElseCuts(m: Rules, s: Stmt, t1: Trace)
    requires s.Try? && s.final.Nil? && RunBlock(Inner(m), s.body, t1, Normal)
    ensures Prefixed(t1, BlockCuts(m, s.orelse), GuardCuts(m, s))
  {
    hide RunBlock, Throws, RunHandlers;
    forall t | t in BlockCuts(m, s.orelse)
      ensures t1 + t in GuardCuts(m, s)
    {
      assert RunTail(Outer(m, s.final), s.orelse, t, Cut);
    }
  }

  lemma CaughtCuts(m: Rules, s: Stmt, t1: Trace)
    requires s.Try? && s.final.Nil? && Throws(Inner(m), s.body, Spill(m, s), t1)
    ensures Prefixed(t1, HandlerCuts(m, s.handlers), GuardCuts(m, s))
  {
    hide RunBlock, Throws, RunTail, RunHandlers, Spill;
  }

  lemma HandlerBodyCuts(m: Rules, h: Handlers)
    requires h.Handler?
    ensures Prefixed(h.header, BlockCuts(m, h.body), HandlerCuts(m, h)) && Prefixed([], HandlerCuts(m, h.rest), HandlerCuts(m, h))
  {
    hide RunBlock;
    forall t | t in BlockCuts(m, h.body)
      ensures h.header + t in HandlerCuts(m, h)
    {
      assert RunHandled(m, h.body, h.unbind, t, Cut);
      assert RunHandler(m, h.header, h.body, h.unbind, h.header + t, Cut);
    }
    forall t | t in HandlerCuts(m, h.rest)
      ensures [] + t in HandlerCuts(m, h)
    {
      assert [] + t == t;
    }
  }

  // ---- a reached try is run -------------------------------------------

  lemma {:induction false} ReachedRuns(m: Rules, k: Block, s: Stmt) returns (t: Trace)
    requires ReachedBlock(k, s)
    ensures Opens(m, s, t, BlockCuts(m, k))
    decreases k, 0
  {
    hide ReachedStmt, RunStmt, RunBlock, EndsStmt, Opens, Prefixed;
    if ReachedStmt(k.head, s) {
      t := ReachedStmtRuns(m, k.head, s);
      HeadCuts(m, k);
      OpensIn(m, s, t, StmtCuts(m, k.head), [], BlockCuts(m, k));
      t := [] + t;
    } else {
      var t1 := EndingStmtRuns(m, k.head, Normal);
      var t2 := ReachedRuns(m, k.tail, s);
      TailCuts(m, k, t1);
      OpensIn(m, s, t2, BlockCuts(m, k.tail), t1, BlockCuts(m, k));
      t := t1 + t2;
    }
  }

  lemma OpensSelf(m: Rules, s: Stmt)
    ensures Opens(m, s, [], StmtCuts(m, s))
  {
    hide RunStmt;
    forall u | RunStmt(m, s, u, Cut)
      ensures [] + u in StmtCuts(m, s)
    {
      assert [] + u == u;
    }
  }

  lemma {:induction false} ReachedStmtRuns(m: Rules, k: Stmt, s: Stmt) returns (t: Trace)
    requires ReachedStmt(k, s)
    ensures Opens(m, s, t, StmtCuts(m, k))
    decreases k, 2
  {
    hide ReachedBlock, ReachedAlts, ReachedHandlers, EndsBlock, RunStmt, RunBody, Opens, Prefixed;
    if k == s {
      OpensSelf(m, s);
      t := [];
    } else {
      t := ReachedBodyRuns(m, k, s);
      StmtBodyCuts(m, k);
      OpensIn(m, s, t, BodyCuts(m, k), [], StmtCuts(m, k));
      t := [] + t;
    }
  }

  lemma {:induction false} ReachedBodyRuns(m: Rules, k: Stmt, s: Stmt) returns (t: Trace)
    requires k != s && ReachedStmt(k, s)
    ensures Opens(m, s, t, BodyCuts(m, k))
    decreases k, 1
  {
    hide ReachedBlock, ReachedAlts, ReachedHandlers, EndsBlock, Repeats, RunStmt, RunBody, Opens, Prefixed;
    match k
    case If(cond, body, alts) =>
      IfCuts(m, k);
      if ReachedBlock(body, s) {
        t := ReachedRuns(m, body, s);
        OpensIn(m, s, t, BlockCuts(m, body), cond, BodyCuts(m, k));
      } else {
        t := ReachedAltRuns(m, alts, s);
        OpensIn(m, s, t, AltCuts(m, alts), cond, BodyCuts(m, k));
      }
      t := cond + t;
    case While(_, _, _, _) => t := ReachedLoopRuns(m, k, s);
    case For(_, _, _, _, _) => t := ReachedLoopRuns(m, k, s);
    case Try(_, _, _, _) => t := ReachedTryRuns(m, k, s);
  }

  lemma {:induction false} ReachedLoopRuns(m: Rules, k: Stmt, s: Stmt) returns (t: Trace)
    requires (k.While? || k.For?) && k != s && ReachedStmt(k, s)
    ensures Opens(m, s, t, BodyCuts(m, k))
    decreases k, 0
  {
    hide ReachedBlock, EndsBlock, Repeats, RunStmt, RunBody, RunTurns, Opens, Prefixed;
    var pre := if k.While? then k.cond else k.target;
    NoTurns(m, pre, k.body);
    if ReachedBlock(k.body, s) {
      var u := ReachedRuns(m, k.body, s);
      TurnCuts(m, pre, k.body, [], 0);
      OpensIn(m, s, u, BlockCuts(m, k.body), [] + pre, LoopCuts(m, pre, k.body));
      var first := if k.While? then [] else k.iterable;
      if k.While? {
        WhileCuts(m, k);
      } else {
        ForCuts(m, k);
      }
      OpensIn(m, s, [] + pre + u, LoopCuts(m, pre, k.body), first, BodyCuts(m, k));
      t := first + ([] + pre + u);
    } else {
      var u := ReachedRuns(m, k.orelse, s);
      if k.While? {
        WhileElseCuts(m, k, [], 0);
        t := [] + k.cond;
      } else if k.nonEmpty {
        var v := RepeatRuns(m, k.target, k.body);
        ForElseCuts(m, k, v, 1);
        t := k.iterable + v;
      } else {
        ForElseCuts(m, k, [], 0);
        t := k.iterable + [];
      }
      OpensIn(m, s, u, BlockCuts(m, k.orelse), t, BodyCuts(m, k));
      t := t + u;
    }
  }

  lemma {:induction false} ReachedAltRuns(m: Rules, a: Alts, s: Stmt) returns (t: Trace)
    requires ReachedAlts(a, s)
    ensures Opens(m, s, t, AltCuts(m, a))
    decreases a, 0
  {
    hide ReachedBlock, RunStmt, RunBlock, Opens, Prefixed;
    match a
    case Else(body) =>
      t := ReachedRuns(m, body, s);
      assert AltCuts(m, a) == BlockCuts(m, body);
    case Elif(cond, body, rest) =>
      ElifCuts(m, a);
      if ReachedBlock(body, s) {
        t := ReachedRuns(m, body, s);
        OpensIn(m, s, t, BlockCuts(m, body), cond, AltCuts(m, a));
      } else {
        t := ReachedAltRuns(m, rest, s);
        OpensIn(m, s, t, AltCuts(m, rest), cond, AltCuts(m, a));
      }
      t := cond + t;
  }

  lemma {:induction false} ReachedTryRuns(m: Rules, k: Stmt, s: Stmt) returns (t: Trace)
    requires k.Try? && k != s && ReachedStmt(k, s)
    ensures Opens(m, s, t, BodyCuts(m, k))
    decreases k, 0
  {
    hide ReachedBlock, ReachedHandlers, EndsBlock, EndsGuarded, RunStmt, RunBody, RunBlock, RunGuarded, Throws, Spill, Opens, Prefixed;
    if k.final.Cons? {
      var o := SomeEnding(k);
      var t1 := EndingGuardedRuns(m, k, o);
      var t2 := ReachedRuns(m, k.final, s);
      FinallyCuts(m, k, t1, o);
      OpensIn(m, s, t2, BlockCuts(m, k.final), t1, BodyCuts(m, k));
      t := t1 + t2;
    } else {
      var t1, t2;
      if ReachedHandlers(k.handlers, s) {
        ThrownAlways(k.body);
        t1 := EndingThrowRuns(Inner(m), k.body, Spill(m, k));
        t2 := ReachedHandlerRuns(m, k.handlers, s);
        CaughtCuts(m, k, t1);
        OpensIn(m, s, t2, HandlerCuts(m, k.handlers), t1, GuardCuts(m, k));
      } else {
        t1 := EndingRuns(Inner(m), k.body, Normal);
        t2 := ReachedRuns(m, k.orelse, s);
        ElseCuts(m, k, t1);
        OpensIn(m, s, t2, BlockCuts(m, k.orelse), t1, GuardCuts(m, k));
      }
      GuardedCuts(m, k);
      OpensIn(m, s, t1 + t2, GuardCuts(m, k), [], BodyCuts(m, k));
      t := [] + (t1 + t2);
    }
  }

  lemma ThrownAlways(body: Block)
    ensures EndsThrown(body)
  {
    hide EndsBody;
    if body.Cons? {
      assert EndsStmt(body.head, Raised(false));
    }
  }

  lemma {:induction false} ReachedHandlerRuns(m: Rules, h: Handlers, s: Stmt) returns (t: Trace)
    requires ReachedHandlers(h, s)
    ensures Opens(m, s, t, HandlerCuts(m, h))
    decreases h
  {
    hide ReachedBlock, RunStmt, RunBlock, RunHandlers, Opens, Prefixed;
    HandlerBodyCuts(m, h);
    if ReachedBlock(h.body, s) {
      t := ReachedRuns(m, h.body, s);
      OpensIn(m, s, t, BlockCuts(m, h.body), h.header, HandlerCuts(m, h));
      t := h.header + t;
    } else {
      t := ReachedHandlerRuns(m, h.rest, s);
      OpensIn(m, s, t, HandlerCuts(m, h.rest), [], HandlerCuts(m, h));
      t := [] + t;
    }
  }

  // ---- an event of the try is made in it ------------------------------

  /** Such a run goes no further, outside every `try` region. */
  predicate Stops(o: Outcome) {
    o == Cut || o == Raised(false)
  }

  /** Event `i` of `t`, a run that ends as `o`, is made in a run of `s`: before it comes
      `t0`, from where on any run of `s` can be observed. */
  ghost predicate LocatedAt(m: Rules, s: Stmt, t: Trace, i: nat, o: Outcome, cuts: iset<Trace>, t0: Trace, u: Trace, o1: Outcome, v: Trace) {
    && t == t0 + u + v && |t0| <= i < |t0| + |u| && RunStmt(m, s, u, o1)
    && (Stops(o1) ==> v == [] && o == o1)
    && Opens(m, s, t0, cuts)
  }

  ghost predicate Located(m: Rules, s: Stmt, t: Trace, i: nat, o: Outcome, cuts: iset<Trace>) {
    exists t0, u, o1, v :: LocatedAt(m, s, t, i, o, cuts, t0, u, o1, v)
  }

  lemma LocatedIn(m: Rules, s: Stmt, t: Trace, i: nat, o: Outcome, inner: iset<Trace>, pre: Trace, suf: Trace, o': Outcome, outer: iset<Trace>)
    requires Located(m, s, t, i, o, inner) && Prefixed(pre, inner, outer) && (Stops(o) ==> suf == [] && o' == o)
    ensures Located(m, s, pre + t + suf, |pre| + i, o', outer)
  {
    hide RunStmt, Opens, Prefixed;
    var t0, u, o1, v :| LocatedAt(m, s, t, i, o, inner, t0, u, o1, v);
    OpensIn(m, s, t0, inner, pre, outer);
    assert pre + t + suf == (pre + t0) + u + (v + suf);
    assert LocatedAt(m, s, pre + t + suf, |pre| + i, o', outer, pre + t0, u, o1, v + suf);
  }

  /** The same, where nothing follows. */
  lemma LocatedLast(m: Rules, s: Stmt, t: Trace, i: nat, o: Outcome, inner: iset<Trace>, pre: Trace, o': Outcome, outer: iset<Trace>)
    requires Located(m, s, t, i, o, inner) && Prefixed(pre, inner, outer) && (Stops(o) ==> o' == o)
    ensures Located(m, s, pre + t, |pre| + i, o', outer)
  {
    hide Located, Prefixed;
    LocatedIn(m, s, t, i, o, inner, pre, [], o', outer);
    assert pre + t + [] == pre + t;
  }

  lemma LocatedSelf(m: Rules, s: Stmt, t: Trace, i: nat, o: Outcome)
    requires RunStmt(m, s, t, o) && i < |t|
    ensures Located(m, s, t, i, o, StmtCuts(m, s))
  {
    hide RunStmt, Opens;
    OpensSelf(m, s);
    assert t == [] + t + [];
    assert LocatedAt(m, s, t, i, o, StmtCuts(m, s), [], t, o, []);
  }

  lemma {:induction false} LocateBlock(m: Rules, k: Block, s: Stmt, d: Event, t: Trace, o: Outcome, i: nat)
    requires !m.tidies && s.Try? && OnlyBlock(k, s, d) && RunBlock(m, k, t, o) && i < |t| && t[i] == d
    ensures Located(m, s, t, i, o, BlockCuts(m, k)) && ReachedBlock(k, s)
    decreases k, 0
  {
    hide RunStmt, OnlyStmt, EndsStmt, ReachedStmt, Located, Prefixed;
    var h, r := k.head, k.tail;
    HeadCuts(m, k);
    if o != Normal && RunStmt(m, h, t, o) {
      LocateStmt(m, h, s, d, t, o, i);
      LocatedLast(m, s, t, i, o, StmtCuts(m, h), [], o, BlockCuts(m, k));
      assert [] + t == t;
    } else {
      var t1, t2 :| t == t1 + t2 && RunStmt(m, h, t1, Normal) && RunBlock(m, r, t2, o);
      if i < |t1| {
        LocateStmt(m, h, s, d, t1, Normal, i);
        LocatedIn(m, s, t1, i, Normal, StmtCuts(m, h), [], t2, o, BlockCuts(m, k));
        assert [] + t1 + t2 == t;
      } else {
        RunStmtEnds(m, h, t1, Normal);
        LocateBlock(m, r, s, d, t2, o, i - |t1|);
        TailCuts(m, k, t1);
        LocatedLast(m, s, t2, i - |t1|, o, BlockCuts(m, r), t1, o, BlockCuts(m, k));
      }
    }
  }

  lemma {:induction false} LocateStmt(m: Rules, k: Stmt, s: Stmt, d: Event, t: Trace, o: Outcome, i: nat)
    requires !m.tidies && s.Try? && OnlyStmt(k, s, d) && RunStmt(m, k, t, o) && i < |t| && t[i] == d
    ensures Located(m, s, t, i, o, StmtCuts(m, k)) && ReachedStmt(k, s)
    decreases k, 2
  {
    hide RunBody, OnlyStmt, Located, Prefixed;
    if k == s {
      LocatedSelf(m, s, t, i, o);
    } else {
      LocateBody(m, k, s, d, t, o, i);
      StmtBodyCuts(m, k);
      LocatedLast(m, s, t, i, o, BodyCuts(m, k), [], o, StmtCuts(m, k));
      assert [] + t == t;
    }
  }

  lemma {:induction false} LocateBody(m: Rules, k: Stmt, s: Stmt, d: Event, t: Trace, o: Outcome, i: nat)
    requires !m.tidies && k != s && s.Try? && OnlyStmt(k, s, d) && RunBody(m, k, t, o) && i < |t| && t[i] == d
    ensures Located(m, s, t, i, o, BodyCuts(m, k)) && ReachedStmt(k, s)
    decreases k, 1
  {
    hide RunBlock, RunAlts, RunGuarded, RunTurns, RunLastTurn, OnlyBlock, OnlyAlts, OnlyHandlers, AbsentBlock, AbsentHandlers, ReachedBlock, ReachedAlts, ReachedHandlers, EndsBlock, Repeats, Located, Prefixed;
    match k
    case If(cond, body, alts) =>
      IfCuts(m, k);
      var u :| t == cond + u && (RunBlock(m, body, u, o) || RunAlts(m, alts, u, o));
      var j := i - |cond|;
      if RunBlock(m, body, u, o) {
        LocateBlock(m, body, s, d, u, o, j);
        LocatedLast(m, s, u, j, o, BlockCuts(m, body), cond, o, BodyCuts(m, k));
      } else {
        LocateAlts(m, alts, s, d, u, o, j);
        LocatedLast(m, s, u, j, o, AltCuts(m, alts), cond, o, BodyCuts(m, k));
      }
    case While(_, _, _, _) => LocateWhile(m, k, s, d, t, o, i);
    case For(_, _, _, _, _) => LocateFor(m, k, s, d, t, o, i);
    case Try(_, _, _, _) => LocateTry(m, k, s, d, t, o, i);
  }

  lemma {:induction false} LocateWhile(m: Rules, k: Stmt, s: Stmt, d: Event, t: Trace, o: Outcome, i: nat)
    requires !m.tidies && k.While? && s.Try? && OnlyStmt(k, s, d) && RunBody(m, k, t, o) && i < |t| && t[i] == d
    ensures Located(m, s, t, i, o, BodyCuts(m, k)) && ReachedStmt(k, s)
    decreases k, 0
  {
    hide RunBody, RunTurns, RunLastTurn, OnlyBlock, ReachedBlock, Located, Prefixed;
    WhileCuts(m, k);
    var n, t1, t2 := SplitWhile(m, k, t, o);
    if i < |t1| {
      LocateTurns(m, k.cond, k.body, s, d, t1, n, i);
      LocatedIn(m, s, t1, i, Normal, LoopCuts(m, k.cond, k.body), [], t2, o, BodyCuts(m, k));
      assert [] + t1 + t2 == t;
    } else if RunLastTurn(m, k.cond, k.body, t2, o) {
      LocateLastTurn(m, k.cond, k.body, s, d, t1, n, t2, o, i - |t1|);
      LocatedLast(m, s, t1 + t2, i, o, LoopCuts(m, k.cond, k.body), [], o, BodyCuts(m, k));
      assert [] + (t1 + t2) == t;
    } else {
      LocateWhileElse(m, k, s, d, t1, n, t2, o, i);
    }
  }

  lemma {:induction false} LocateWhileElse(m: Rules, k: Stmt, s: Stmt, d: Event, t1: Trace, n: nat, t2: Trace, o: Outcome, i: nat)
    requires !m.tidies && k.While? && !k.always && s.Try? && OnlyStmt(k, s, d)
    requires RunTurns(m, k.cond, k.body, t1, n) && LeavesLoop(m, k, t2, o)
    requires |t1| <= i < |t1 + t2| && (t1 + t2)[i] == d
    ensures Located(m, s, t1 + t2, i, o, BodyCuts(m, k)) && ReachedStmt(k, s)
    decreases k.orelse, 1
  {
    hide RunBlock, RunTurns, OnlyBlock, ReachedBlock, Located, Prefixed;
    var u :| t2 == k.cond + u && RunBlock(m, k.orelse, u, o);
    var pre := t1 + k.cond;
    assert t1 + t2 == pre + u;
    LocateBlock(m, k.orelse, s, d, u, o, i - |pre|);
    WhileElseCuts(m, k, t1, n);
    LocatedLast(m, s, u, i - |pre|, o, BlockCuts(m, k.orelse), pre, o, BodyCuts(m, k));
  }

  lemma {:induction false} LocateFor(m: Rules, k: Stmt, s: Stmt, d: Event, t: Trace, o: Outcome, i: nat)
    requires !m.tidies && k.For? && s.Try? && OnlyStmt(k, s, d) && RunBody(m, k, t, o) && i < |t| && t[i] == d
    ensures Located(m, s, t, i, o, BodyCuts(m, k)) && ReachedStmt(k, s)
    decreases k, 0
  {
    hide RunBlock, RunBody, RunTurns, RunLastTurn, OnlyBlock, ReachedBlock, Repeats, Located, Prefixed;
    ForCuts(m, k);
    ForNotCut(m, k, d, t, o);
    var n, t1, t2 := SplitFor(m, k, t, o);
    var pre, j := k.iterable + t1, i - |k.iterable|;
    if j < |t1| {
      LocateTurns(m, k.target, k.body, s, d, t1, n, j);
      LocatedIn(m, s, t1, j, Normal, LoopCuts(m, k.target, k.body), k.iterable, t2, o, BodyCuts(m, k));
    } else if RunLastTurn(m, k.target, k.body, t2, o) {
      LocateLastTurn(m, k.target, k.body, s, d, t1, n, t2, o, j - |t1|);
      LocatedLast(m, s, t1 + t2, j, o, LoopCuts(m, k.target, k.body), k.iterable, o, BodyCuts(m, k));
      assert k.iterable + (t1 + t2) == t;
    } else {
      LocateBlock(m, k.orelse, s, d, t2, o, i - |pre|);
      if n > 0 {
        RunRepeats(m, k.target, k.body, t1, n);
      }
      ForElseCuts(m, k, t1, n);
      LocatedLast(m, s, t2, i - |pre|, o, BlockCuts(m, k.orelse), pre, o, BodyCuts(m, k));
    }
  }

  lemma ForNotCut(m: Rules, k: Stmt, d: Event, t: Trace, o: Outcome)
    requires k.For? && d !in k.iterable && d in t
    ensures !RunEvents(k.iterable, t, o, Cut)
  {
  }

  lemma SplitTurns(m: Rules, pre: Trace, body: Block, t: Trace, n: nat) returns (t1: Trace, t2: Trace, o: Outcome)
    requires RunTurns(m, pre, body, t, n) && t != []
    ensures n > 0 && t == t1 + (pre + t2) && RunTurns(m, pre, body, t1, n - 1)
    ensures RunBlock(m, body, t2, o) && (o == Normal || o == Continued)
  {
    hide RunBlock;
    t1, t2 :| t == t1 + (pre + t2) && RunTurns(m, pre, body, t1, n - 1) && Completes(m, body, t2);
    o := if RunBlock(m, body, t2, Normal) then Normal else Continued;
  }

  lemma {:induction false} LocateTurns(m: Rules, pre: Trace, body: Block, s: Stmt, d: Event, t: Trace, n: nat, i: nat)
    requires !m.tidies && s.Try? && d !in pre && OnlyBlock(body, s, d) && RunTurns(m, pre, body, t, n) && i < |t| && t[i] == d
    ensures Located(m, s, t, i, Normal, LoopCuts(m, pre, body)) && ReachedBlock(body, s)
    decreases body, 1, n
  {
    hide RunBlock, RunTurns, Completes, OnlyBlock, ReachedBlock, Located, Prefixed, LoopCuts, IsLoopCut;
    var t1, t2, o := SplitTurns(m, pre, body, t, n);
    if i < |t1| {
      LocateTurns(m, pre, body, s, d, t1, n - 1, i);
      PrefixedNothing(LoopCuts(m, pre, body));
      LocatedIn(m, s, t1, i, Normal, LoopCuts(m, pre, body), [], pre + t2, Normal, LoopCuts(m, pre, body));
      assert [] + t1 + (pre + t2) == t;
    } else {
      var first := t1 + pre;
      assert t == first + t2;
      LocateBlock(m, body, s, d, t2, o, i - |first|);
      TurnCuts(m, pre, body, t1, n - 1);
      LocatedLast(m, s, t2, i - |first|, o, BlockCuts(m, body), first, Normal, LoopCuts(m, pre, body));
    }
  }

  lemma {:induction false} LocateLastTurn(m: Rules, pre: Trace, body: Block, s: Stmt, d: Event, t1: Trace, n: nat, t: Trace, o: Outcome, i: nat)
    requires !m.tidies && s.Try? && d !in pre && OnlyBlock(body, s, d) && i < |t| && t[i] == d
    requires RunTurns(m, pre, body, t1, n) && RunLastTurn(m, pre, body, t, o)
    ensures Located(m, s, t1 + t, |t1| + i, o, LoopCuts(m, pre, body)) && ReachedBlock(body, s)
    decreases body, 1
  {
    hide RunBlock, RunTurns, OnlyBlock, ReachedBlock, Located, Prefixed;
    var o1 := if o == Normal then Broke else o;
    var u :| t == pre + u && RunBlock(m, body, u, o1);
    var first := t1 + pre;
    assert t1 + t == first + u;
    LocateBlock(m, body, s, d, u, o1, i - |pre|);
    TurnCuts(m, pre, body, t1, n);
    LocatedLast(m, s, u, i - |pre|, o1, BlockCuts(m, body), first, o, LoopCuts(m, pre, body));
  }

  lemma {:induction false} LocateAlts(m: Rules, a: Alts, s: Stmt, d: Event, t: Trace, o: Outcome, i: nat)
    requires !m.tidies && s.Try? && OnlyAlts(a, s, d) && RunAlts(m, a, t, o) && i < |t| && t[i] == d
    ensures Located(m, s, t, i, o, AltCuts(m, a)) && ReachedAlts(a, s)
    decreases a, 0
  {
    hide RunBlock, OnlyBlock, ReachedBlock, Located, Prefixed;
    match a
    case Else(body) =>
      LocateBlock(m, body, s, d, t, o, i);
      assert AltCuts(m, a) == BlockCuts(m, body);
    case Elif(cond, body, rest) =>
      ElifCuts(m, a);
      var u :| t == cond + u && (RunBlock(m, body, u, o) || RunAlts(m, rest, u, o));
      var j := i - |cond|;
      if RunBlock(m, body, u, o) {
        LocateBlock(m, body, s, d, u, o, j);
        LocatedLast(m, s, u, j, o, BlockCuts(m, body), cond, o, AltCuts(m, a));
      } else {
        LocateAlts(m, rest, s, d, u, o, j);
        LocatedLast(m, s, u, j, o, AltCuts(m, rest), cond, o, AltCuts(m, a));
      }
  }

  lemma {:induction false} LocateTry(m: Rules, k: Stmt, s: Stmt, d: Event, t: Trace, o: Outcome, i: nat)
    requires !m.tidies && k.Try? && k != s && s.Try? && OnlyStmt(k, s, d) && RunBody(m, k, t, o) && i < |t| && t[i] == d
    ensures Located(m, s, t, i, o, BodyCuts(m, k)) && ReachedStmt(k, s)
    decreases k, 0, 1
  {
    hide RunBlock, RunGuarded, OnlyBlock, OnlyHandlers, AbsentBlock, AbsentHandlers, ReachedBlock, ReachedHandlers, EndsBlock, Located, Prefixed;
    if k.final.Nil? {
      LocateGuarded(m, k, s, d, t, o, i);
      GuardedCuts(m, k);
      LocatedLast(m, s, t, i, o, GuardCuts(m, k), [], o, BodyCuts(m, k));
      assert [] + t == t;
    } else if o == Cut && RunGuarded(m, k, t, Cut) {
      AbsentGuardedRun(m, k, t, Cut, d);
    } else {
      var t1, t2, o1, o2 :| t == t1 + t2 && o1 != Cut && o == AfterFinally(o1, o2) &&
        RunGuarded(m, k, t1, o1) && RunBlock(m, k.final, t2, o2);
      AbsentGuardedRun(m, k, t1, o1, d);
      LocateBlock(m, k.final, s, d, t2, o2, i - |t1|);
      FinallyCuts(m, k, t1, o1);
      LocatedLast(m, s, t2, i - |t1|, o2, BlockCuts(m, k.final), t1, o, BodyCuts(m, k));
    }
  }

  lemma {:induction false} LocateGuarded(m: Rules, k: Stmt, s: Stmt, d: Event, t: Trace, o: Outcome, i: nat)
    requires !m.tidies && k.Try? && k.final.Nil? && k != s && s.Try? && OnlyStmt(k, s, d)
    requires RunGuarded(m, k, t, o) && i < |t| && t[i] == d
    ensures Located(m, s, t, i, o, GuardCuts(m, k)) && ReachedStmt(k, s)
    decreases k, 0, 0
  {
    hide RunBlock, Throws, RunTail, RunHandlers, OnlyBlock, OnlyHandlers, AbsentBlock, AbsentHandlers, ReachedBlock, ReachedHandlers, EndsBlock, Located, Prefixed, Lead;
    OnlyLead(k.orelse, s, d);
    if o != Normal && !o.Raised? && RunBlock(Inner(m), k.body, t, o) {
      AbsentRun(Inner(m), k.body, t, o, d);
    } else if o == Raised(true) && Throws(Inner(m), k.body, Spill(m, k), t) {
      AbsentThrow(Inner(m), k.body, Spill(m, k), t, d);
    } else if exists t1, t2 :: t == t1 + t2 && RunBlock(Inner(m), k.body, t1, Normal) && RunTail(m, k.orelse, t2, o) {
      var t1, t2 :| t == t1 + t2 && RunBlock(Inner(m), k.body, t1, Normal) && RunTail(m, k.orelse, t2, o);
      AbsentRun(Inner(m), k.body, t1, Normal, d);
      RunEnds(Inner(m), k.body, t1, Normal);
      var o1 := if RunBlock(m, k.orelse, t2, o) then o else Normal;
      RunTailIs(m, k.orelse, t2, o);
      LocateBlock(m, k.orelse, s, d, t2, o1, i - |t1|);
      ElseCuts(m, k, t1);
      LocatedLast(m, s, t2, i - |t1|, o1, BlockCuts(m, k.orelse), t1, o, GuardCuts(m, k));
    } else {
      var t1, t2 :| t == t1 + t2 && Throws(Inner(m), k.body, Spill(m, k), t1) && RunHandlers(m, k.handlers, t2, o);
      AbsentThrow(Inner(m), k.body, Spill(m, k), t1, d);
      LocateHandlers(m, k.handlers, s, d, t2, o, i - |t1|);
      CaughtCuts(m, k, t1);
      LocatedLast(m, s, t2, i - |t1|, o, HandlerCuts(m, k.handlers), t1, o, GuardCuts(m, k));
    }
  }

  lemma RunTailIs(m: Rules, k: Block, t: Trace, o: Outcome)
    requires RunTail(m, k, t, o)
    ensures RunBlock(m, k, t, if RunBlock(m, k, t, o) then o else Normal)
  {
    hide RunBlock;
  }

  lemma {:induction false} LocateHandlers(m: Rules, h: Handlers, s: Stmt, d: Event, t: Trace, o: Outcome, i: nat)
    requires !m.tidies && s.Try? && OnlyHandlers(h, s, d) && RunHandlers(m, h, t, o) && i < |t| && t[i] == d
    ensures Located(m, s, t, i, o, HandlerCuts(m, h)) && ReachedHandlers(h, s)
    decreases h
  {
    hide RunBlock, RunHandled, OnlyBlock, ReachedBlock, Located, Prefixed;
    HandlerBodyCuts(m, h);
    if RunHandler(m, h.header, h.body, h.unbind, t, o) {
      var u :| t == h.header + u && RunHandled(m, h.body, h.unbind, u, o);
      LocateHandled(m, h, s, d, u, o, i - |h.header|);
    } else {
      LocateHandlers(m, h.rest, s, d, t, o, i);
      LocatedLast(m, s, t, i, o, HandlerCuts(m, h.rest), [], o, HandlerCuts(m, h));
      assert [] + t == t;
    }
  }

  lemma {:induction false} LocateHandled(m: Rules, h: Handlers, s: Stmt, d: Event, t: Trace, o: Outcome, i: nat)
    requires !m.tidies && h.Handler? && s.Try? && OnlyHandlers(h, s, d) && RunHandled(m, h.body, h.unbind, t, o) && i < |t| && t[i] == d
    ensures Located(m, s, h.header + t, |h.header| + i, o, HandlerCuts(m, h)) && ReachedBlock(h.body, s)
    decreases h, 0
  {
    hide RunBlock, RunHandlers, OnlyBlock, ReachedBlock, Located, Prefixed;
    HandlerBodyCuts(m, h);
    if o != Normal && RunBlock(m, h.body, t, o) {
      LocateBlock(m, h.body, s, d, t, o, i);
      LocatedLast(m, s, t, i, o, BlockCuts(m, h.body), h.header, o, HandlerCuts(m, h));
    } else {
      var u, v :| t == u + v && RunBlock(m, h.body, u, Normal) &&
        (RunEvents(h.unbind, v, o, Normal) || (v == h.unbind && o == Raised(false)));
      LocateBlock(m, h.body, s, d, u, Normal, i);
      LocatedIn(m, s, u, i, Normal, BlockCuts(m, h.body), h.header, v, o, HandlerCuts(m, h));
      assert h.header + u + v == h.header + t;
    }
  }
}
