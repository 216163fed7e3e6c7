/** The alias of a handler, which the graph unbinds only where the handler completes. */
module Aliases {
  import opened Wrappers
  import opened Cfg
  import opened Python
  import opened Endings
  import opened Occurring
  import opened Agreement
  import opened Correctness
  import opened Shape
  import opened Paths
  import opened Findings
  import opened EndToEnd
  import opened Misreports

  // ---- one handler ----------------------------------------------------

  /** Unbinding the alias on every way out of a handler makes a difference if and only if
      there is an alias and the handler has a statement: any statement can raise. */
  lemma HandledIff(spills: bool, body: Block, unbind: Trace)
    requires PlainBlock(body)
    ensures (forall t, o :: RunHandled(Rules(spills, false), body, unbind, t, o) <==> RunHandled(Rules(spills, true), body, unbind, t, o))
      <==> unbind == [] || body.Nil?
  {
    hide RunBlock, PlainBlock, RunHandled, HarmlessBlock;
    var m, m' := Rules(spills, false), Rules(spills, true);
    if unbind == [] {
      forall t, o
        ensures RunHandled(m, body, unbind, t, o) <==> RunHandled(m', body, unbind, t, o)
      {
        if RunHandled(m, body, unbind, t, o) {
          SameHandled(m, m', body, unbind, t, o);
        }
        if RunHandled(m', body, unbind, t, o) {
          SameHandled(m', m, body, unbind, t, o);
        }
      }
    } else if body.Nil? {
      forall t, o
        ensures RunHandled(m, body, unbind, t, o) <==> RunHandled(m', body, unbind, t, o)
      {
        NothingHandled(m, m', unbind, t, o);
      }
    } else {
      RaisesAtOnce(m, m', body, unbind);
    }
  }

  lemma NothingHandled(m: Rules, m': Rules, unbind: Trace, t: Trace, o: Outcome)
    ensures RunHandled(m, Nil, unbind, t, o) <==> RunHandled(m', Nil, unbind, t, o)
  {
  }

  lemma RaisesAtOnce(m: Rules, m': Rules, body: Block, unbind: Trace)
    requires body.Cons? && unbind != [] && !m.tidies && m'.tidies
    ensures RunHandled(m, body, unbind, [], Raised(false)) && !RunHandled(m', body, unbind, [], Raised(false))
  {
    hide RunBody;
    assert RunStmt(m, body.head, [], Raised(false));
  }

  // ---- a read that is missed ------------------------------------------

  const E: nat := 0

  const BIND: Event := Event(E, Def(None), 10)
  const UNBIND: Event := Event(E, Kill, 11)
  const USE: Event := Event(E, Use(true), 20)

  /** `try: pass` / `except Error as e: raise`. */
  const INNER: Stmt :=
    Try(Cons(Simple([]), Nil), Handler([BIND], Cons(Raise([]), Nil), [UNBIND], NoHandler), Nil, Nil)

  /** `try: INNER` / `finally: use(e)`. */
  const OUTER: Stmt := Try(Cons(INNER, Nil), NoHandler, Nil, Cons(Simple([USE]), Nil))

  /** With parameter `e`, which is unbound when the inner handler raises. */
  const SHADOWED: Function := Function(1, [E], Cons(OUTER, Nil))

  /** As the function is lowered, the alias is never unbound: the handler cannot complete. */
  lemma NeverUnbinds(t: Trace, o: Outcome)
    requires RunBlock(LOWERED, SHADOWED.body, t, o)
    ensures UNBIND !in t
  {
    hide RunBody;
    OneStmt(LOWERED, OUTER, t, o);
    if o1 :| RunBody(LOWERED, OUTER, t, o1) {
      OuterNeverUnbinds(t, o1);
    }
  }

  /** A run of one statement. */
  lemma OneStmt(m: Rules, s: Stmt, t: Trace, o: Outcome)
    requires RunBlock(m, Cons(s, Nil), t, o)
    ensures t == [] || RunBody(m, s, t, o) || RunBody(m, s, t, Normal)
  {
    hide RunBody;
    if !(o != Normal && RunStmt(m, s, t, o)) {
      var t1, t2 :| t == t1 + t2 && RunStmt(m, s, t1, Normal) && RunBlock(m, Nil, t2, o);
      assert t == t1;
    }
  }

  lemma OuterNeverUnbinds(t: Trace, o: Outcome)
    requires RunBody(LOWERED, OUTER, t, o)
    ensures UNBIND !in t
  {
    hide RunBlock, RunGuarded;
    if o == Cut && RunGuarded(LOWERED, OUTER, t, Cut) {
      OuterGuarded(t, Cut);
    } else {
      var t1, t2, o1, o2 :| t == t1 + t2 && o1 != Cut && o == AfterFinally(o1, o2) &&
        RunGuarded(LOWERED, OUTER, t1, o1) && RunBlock(LOWERED, OUTER.final, t2, o2);
      OuterGuarded(t1, o1);
      assert AbsentStmt(Simple([USE]), UNBIND) && AbsentBlock(OUTER.final, UNBIND);
      AbsentRun(LOWERED, OUTER.final, t2, o2, UNBIND);
    }
  }

  lemma OuterGuarded(t: Trace, o: Outcome)
    requires RunGuarded(LOWERED, OUTER, t, o)
    ensures UNBIND !in t
  {
    hide RunBlock, RunHandlers, RunTail, Throws;
    assert Spill(LOWERED, OUTER) == [] && Outer(LOWERED, OUTER.final) == WRITTEN;
    if o != Normal && !o.Raised? && RunBlock(WRITTEN, OUTER.body, t, o) {
      InnerBlock(t, o);
    } else if o == Raised(true) && Throws(WRITTEN, OUTER.body, [], t) {
      InnerThrows(t);
    } else if exists t1, t2 :: t == t1 + t2 && RunBlock(WRITTEN, OUTER.body, t1, Normal) && RunTail(WRITTEN, Nil, t2, o) {
      var t1, t2 :| t == t1 + t2 && RunBlock(WRITTEN, OUTER.body, t1, Normal) && RunTail(WRITTEN, Nil, t2, o);
      InnerBlock(t1, Normal);
      AbsentTailRun(WRITTEN, Nil, t2, o, UNBIND);
    } else {
      var t1, t2 :| t == t1 + t2 && Throws(WRITTEN, OUTER.body, [], t1) && RunHandlers(WRITTEN, NoHandler, t2, o);
      NoHandlerRuns(t2, o);
    }
  }

  lemma NoHandlerRuns(t: Trace, o: Outcome)
    ensures !RunHandlers(WRITTEN, NoHandler, t, o)
  {
  }

  lemma InnerThrows(t: Trace)
    requires Throws(WRITTEN, OUTER.body, [], t)
    ensures UNBIND !in t
  {
    hide RunBlock;
    if ThrowsLate(WRITTEN, OUTER.body, [], t) {
      var u :| t == u + [] && RunBlock(WRITTEN, OUTER.body, u, Normal);
      InnerBlock(u, Normal);
    } else {
      InnerBlock(t, Raised(RunBlock(WRITTEN, OUTER.body, t, Raised(true))));
    }
  }

  lemma InnerBlock(t: Trace, o: Outcome)
    requires RunBlock(WRITTEN, OUTER.body, t, o)
    ensures UNBIND !in t
  {
    hide RunBody, RunGuarded;
    OneStmt(WRITTEN, INNER, t, o);
    if o1 :| RunBody(WRITTEN, INNER, t, o1) {
      InnerIsGuarded(t, o1);
      InnerGuarded(t, o1);
    }
  }

  lemma InnerIsGuarded(t: Trace, o: Outcome)
    requires RunBody(WRITTEN, INNER, t, o)
    ensures RunGuarded(WRITTEN, INNER, t, o)
  {
    hide RunGuarded;
  }

  lemma InnerGuarded(t: Trace, o: Outcome)
    requires RunGuarded(WRITTEN, INNER, t, o)
    ensures UNBIND !in t
  {
    hide RunBlock, RunHandlers, RunTail, Throws;
    assert Spill(WRITTEN, INNER) == [] && Outer(WRITTEN, INNER.final) == WRITTEN;
    assert AbsentStmt(Simple([]), UNBIND) && AbsentBlock(INNER.body, UNBIND);
    if o != Normal && !o.Raised? && RunBlock(WRITTEN, INNER.body, t, o) {
      AbsentRun(WRITTEN, INNER.body, t, o, UNBIND);
    } else if o == Raised(true) && Throws(WRITTEN, INNER.body, [], t) {
      AbsentThrow(WRITTEN, INNER.body, [], t, UNBIND);
    } else if exists t1, t2 :: t == t1 + t2 && RunBlock(WRITTEN, INNER.body, t1, Normal) && RunTail(WRITTEN, Nil, t2, o) {
      var t1, t2 :| t == t1 + t2 && RunBlock(WRITTEN, INNER.body, t1, Normal) && RunTail(WRITTEN, Nil, t2, o);
      AbsentRun(WRITTEN, INNER.body, t1, Normal, UNBIND);
      AbsentTailRun(WRITTEN, Nil, t2, o, UNBIND);
    } else {
      var t1, t2 :| t == t1 + t2 && Throws(WRITTEN, INNER.body, [], t1) && RunHandlers(WRITTEN, INNER.handlers, t2, o);
      AbsentThrow(WRITTEN, INNER.body, [], t1, UNBIND);
      HandlerNeverUnbinds(t2, o);
    }
  }

  lemma HandlerNeverUnbinds(t: Trace, o: Outcome)
    requires RunHandlers(WRITTEN, INNER.handlers, t, o)
    ensures UNBIND !in t
  {
    hide RunBlock, RunHandled;
    var h := INNER.handlers;
    NoHandlerRuns(t, o);
    assert RunHandler(WRITTEN, h.header, h.body, h.unbind, t, o);
    if RunEvents(h.header, t, o, Cut) {
      AbsentEvents(h.header, t, o, Cut, UNBIND);
    } else {
      var u :| t == h.header + u && RunHandled(WRITTEN, h.body, h.unbind, u, o);
      RaiseHandled(u, o);
    }
  }

  lemma RaiseHandled(t: Trace, o: Outcome)
    requires RunHandled(WRITTEN, Cons(Raise([]), Nil), [UNBIND], t, o)
    ensures UNBIND !in t
  {
    hide RunBlock;
    var k := Cons(Raise([]), Nil);
    assert !EndsStmt(Raise([]), Normal) && !EndsBlock(k, Normal);
    forall u
      ensures !RunBlock(WRITTEN, k, u, Normal)
    {
      if RunBlock(WRITTEN, k, u, Normal) {
        RunEnds(WRITTEN, k, u, Normal);
        assert false;
      }
    }
    assert RunBlock(WRITTEN, k, t, o);
    assert AbsentStmt(Raise([]), UNBIND) && AbsentBlock(k, UNBIND);
    AbsentRun(WRITTEN, k, t, o, UNBIND);
  }

  /** If the alias is unbound when the handler raises, `finally` reads it unbound. */
  lemma UnbindsThenReads()
    ensures Run(TIDY, SHADOWED.body, [BIND, UNBIND, USE])
  {
    hide RunGuarded;
    InnerUnbinds();
    var t := [BIND, UNBIND];
    assert RunBody(TIDY, INNER, t, Raised(true));
    assert RunStmt(TIDY, INNER, t, Raised(true));
    OuterUnbinds(t);
    assert t + [USE] == [BIND, UNBIND, USE];
    UseRuns();
    assert AfterFinally(Raised(true), Normal) == Raised(true);
    assert RunBody(TIDY, OUTER, t + [USE], Raised(true));
    assert RunStmt(TIDY, OUTER, t + [USE], Raised(true));
    assert RunBlock(TIDY, SHADOWED.body, t + [USE], Raised(true));
  }

  lemma UseRuns()
    ensures RunBlock(TIDY, OUTER.final, [USE], Normal)
  {
    assert RunBody(TIDY, Simple([USE]), [USE], Normal);
    assert [USE] == [USE] + [] && RunBlock(TIDY, Nil, [], Normal);
  }

  lemma OuterUnbinds(t: Trace)
    requires RunStmt(TIDY, INNER, t, Raised(true))
    ensures RunGuarded(TIDY, OUTER, t, Raised(true))
  {
    hide RunStmt;
    assert RunBlock(TIDY, OUTER.body, t, Raised(true));
    assert Throws(TIDY, OUTER.body, Spill(TIDY, OUTER), t);
  }

  lemma InnerUnbinds()
    ensures RunGuarded(TIDY, INNER, [BIND, UNBIND], Raised(true))
  {
    var k := Cons(Raise([]), Nil);
    assert RunBody(TIDY, Raise([]), [], Raised(true));
    assert RunBlock(TIDY, k, [], Raised(true));
    assert [UNBIND] == [] + [UNBIND] && RunEvents([UNBIND], [UNBIND], Raised(true), Raised(true));
    assert RunTidied(TIDY, k, [UNBIND], [UNBIND], Raised(true));
    assert RunHandled(TIDY, k, [UNBIND], [UNBIND], Raised(true));
    assert [BIND, UNBIND] == [BIND] + [UNBIND];
    assert RunHandler(TIDY, [BIND], k, [UNBIND], [BIND, UNBIND], Raised(true));
    assert RunHandlers(TIDY, INNER.handlers, [BIND, UNBIND], Raised(true));
    assert RunStmt(TIDY, Simple([]), [], Raised(false)) && RunBlock(TIDY, INNER.body, [], Raised(false));
    assert Throws(TIDY, INNER.body, Spill(TIDY, INNER), []);
    assert [BIND, UNBIND] == [] + [BIND, UNBIND];
  }

  lemma OnlyDeletion(e: Event)
    requires e.local == E && e.kind.Kill? && e != UNBIND
    ensures AbsentBlock(SHADOWED.body, e)
  {
    ShadowedAbsent(e);
  }

  lemma ShadowedAbsent(e: Event)
    requires e != BIND && e != UNBIND && e != USE
    ensures AbsentBlock(SHADOWED.body, e)
  {
    assert AbsentStmt(Simple([]), e) && AbsentBlock(INNER.body, e);
    assert AbsentStmt(Raise([]), e) && AbsentBlock(INNER.handlers.body, e) && AbsentHandlers(INNER.handlers, e);
    assert AbsentStmt(INNER, e) && AbsentBlock(OUTER.body, e);
    assert AbsentStmt(Simple([USE]), e) && AbsentBlock(OUTER.final, e) && AbsentStmt(OUTER, e);
  }

  /** Read-before-init misses a read of an alias that the reference has unbound when its
      handler was left by an exception. */
  lemma MissesAlias()
    ensures Legal(SHADOWED) && Harmless(SHADOWED.body) && !PlainBlock(SHADOWED.body)
    ensures ReadsUnbound(TIDY, SHADOWED, 20) && !UnboundAt(CfgOf(SHADOWED), 20)
  {
    hide RunBlock, UnboundAt;
    ShadowedIs();
    UnbindsThenReads();
    var t := [BIND, UNBIND, USE];
    assert t[..2] == [BIND, UNBIND];
    assert UnboundRead(TIDY, SHADOWED, 20, t, 2);
    UnboundReadsExact(SHADOWED, 20);
    forall t, i
      ensures !UnboundRead(LOWERED, SHADOWED, 20, t, i)
    {
      if UnboundRead(LOWERED, SHADOWED, 20, t, i) {
        var o :| RunBlock(LOWERED, SHADOWED.body, t, o);
        LocalIsAlias(t, o, i);
        var j := LastDeletion(t[..i], E);
        NeverUnbinds(t, o);
        OnlyDeletion(t[j]);
        AbsentRun(LOWERED, SHADOWED.body, t, o, t[j]);
        assert false;
      }
    }
  }

  lemma LocalIsAlias(t: Trace, o: Outcome, i: nat)
    requires RunBlock(LOWERED, SHADOWED.body, t, o) && i < |t| && t[i].loc == 20
    ensures t[i].local == E
  {
    hide RunBlock;
    var e := t[i];
    if e.local != E {
      ShadowedAbsent(e);
      AbsentRun(LOWERED, SHADOWED.body, t, o, e);
    }
  }

  lemma ShadowedIs()
    ensures Legal(SHADOWED) && Harmless(SHADOWED.body) && !PlainBlock(SHADOWED.body)
  {
    assert LegalBlock(INNER.body) && LegalBlock(INNER.handlers.body) && LegalHandlers(INNER.handlers);
    assert LegalBlock(OUTER.final);
    assert LegalStmt(INNER) && LegalBlock(OUTER.body) && LegalStmt(OUTER);
    assert BlockLocals(INNER.body, 1) && BlockLocals(INNER.handlers.body, 1) && HandlersLocals(INNER.handlers, 1);
    assert BlockLocals(OUTER.final, 1);
    assert StmtLocals(INNER, 1) && BlockLocals(OUTER.body, 1) && StmtLocals(OUTER, 1);
    assert HarmlessStmt(Simple([USE])) && HarmlessBlock(OUTER.final) && HarmlessStmt(OUTER);
    assert !PlainHandlers(INNER.handlers) && !PlainStmt(INNER) && !PlainBlock(OUTER.body) && !PlainStmt(OUTER);
  }
}
