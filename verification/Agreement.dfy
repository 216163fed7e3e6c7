/** When a function has the same runs whichever rules they obey, read off its text. */
module Agreement {
  import opened Cfg
  import opened Python
  import opened Endings
  import opened Correctness

  // As it is lowered a function runs as it is written if no `try` that can be reached
  // outside every `try` region has a body that can complete and an `else` that leads with
  // events; and it does not matter when a handler unbinds its alias if none has one.

  predicate HarmlessBlock(k: Block) {
    k.Cons? ==> HarmlessStmt(k.head) && (EndsStmt(k.head, Normal) ==> HarmlessBlock(k.tail))
  }

  predicate HarmlessStmt(s: Stmt) {
    match s
    case If(_, body, alts) => HarmlessBlock(body) && HarmlessAlts(alts)
    case While(always, _, body, orelse) => HarmlessBlock(body) && (!always ==> HarmlessBlock(orelse))
    case For(_, nonEmpty, _, body, orelse) =>
      HarmlessBlock(body) && ((nonEmpty ==> Repeats(body)) ==> HarmlessBlock(orelse))
    case Try(body, handlers, orelse, final) =>
      && HarmlessBlock(final)
      && (final.Nil? ==>
           && !Spoils(s)
           && HarmlessHandlers(handlers)
           && (EndsBlock(body, Normal) ==> HarmlessBlock(orelse)))
    case _ => true
  }

  /** Outside every `try` region, `s` has its handlers entered as if part of its `else`
      had run. */
  predicate Spoils(s: Stmt)
    requires s.Try?
  {
    s.final.Nil? && Lead(s.orelse) != [] && EndsBlock(s.body, Normal)
  }

  predicate HarmlessAlts(a: Alts) {
    match a
    case NoElse => true
    case Else(body) => HarmlessBlock(body)
    case Elif(_, body, rest) => HarmlessBlock(body) && HarmlessAlts(rest)
  }

  predicate HarmlessHandlers(h: Handlers) {
    h.Handler? ==> HarmlessBlock(h.body) && HarmlessHandlers(h.rest)
  }

  predicate Harmless(body: Block) {
    HarmlessBlock(body)
  }

  // ---- no handler has an alias ----------------------------------------

  predicate PlainBlock(k: Block) {
    k.Cons? ==> PlainStmt(k.head) && PlainBlock(k.tail)
  }

  predicate PlainStmt(s: Stmt) {
    match s
    case If(_, body, alts) => PlainBlock(body) && PlainAlts(alts)
    case While(_, _, body, orelse) => PlainBlock(body) && PlainBlock(orelse)
    case For(_, _, _, body, orelse) => PlainBlock(body) && PlainBlock(orelse)
    case Try(body, handlers, orelse, final) =>
      PlainBlock(body) && PlainHandlers(handlers) && PlainBlock(orelse) && PlainBlock(final)
    case _ => true
  }

  predicate PlainAlts(a: Alts) {
    match a
    case NoElse => true
    case Else(body) => PlainBlock(body)
    case Elif(_, body, rest) => PlainBlock(body) && PlainAlts(rest)
  }

  predicate PlainHandlers(h: Handlers) {
    h.Handler? ==> h.unbind == [] && PlainBlock(h.body) && PlainHandlers(h.rest)
  }

  // ---- sealed functions are harmless ----------------------------------

  lemma {:induction false} SealedHarmlessBlock(k: Block)
    requires SealedBlock(k, false)
    ensures HarmlessBlock(k)
    decreases k
  {
    if k.Cons? {
      SealedHarmlessStmt(k.head);
      SealedHarmlessBlock(k.tail);
    }
  }

  lemma {:induction false} SealedHarmlessStmt(s: Stmt)
    requires SealedStmt(s, false)
    ensures HarmlessStmt(s)
    decreases s
  {
    hide SealedBlock, HarmlessBlock, EndsBlock, Repeats, Lead;
    match s
    case If(_, body, alts) =>
      SealedHarmlessBlock(body);
      SealedHarmlessAlts(alts);
    case While(_, _, body, orelse) =>
      SealedHarmlessBlock(body);
      SealedHarmlessBlock(orelse);
    case For(_, _, _, body, orelse) =>
      SealedHarmlessBlock(body);
      SealedHarmlessBlock(orelse);
    case Try(_, handlers, orelse, final) =>
      SealedHarmlessBlock(final);
      if final.Nil? {
        SealedHarmlessHandlers(handlers);
        SealedHarmlessBlock(orelse);
      }
    case _ =>
  }

  lemma {:induction false} SealedHarmlessAlts(a: Alts)
    requires SealedAlts(a, false)
    ensures HarmlessAlts(a)
    decreases a
  {
    hide SealedBlock, HarmlessBlock;
    if !a.NoElse? {
      SealedHarmlessBlock(a.body);
      if a.Elif? {
        SealedHarmlessAlts(a.rest);
      }
    }
  }

  lemma {:induction false} SealedHarmlessHandlers(h: Handlers)
    requires SealedHandlers(h, false)
    ensures HarmlessHandlers(h)
    decreases h
  {
    hide SealedBlock, HarmlessBlock;
    if h.Handler? {
      SealedHarmlessBlock(h.body);
      SealedHarmlessHandlers(h.rest);
    }
  }

  /** A sealed function is harmless; not the other way round, as `Unsealed.StillExact`
      shows. */
  lemma SealedIsHarmless(body: Block)
    requires Sealed(body)
    ensures Harmless(body)
  {
    SealedHarmlessBlock(body);
  }

  // ---- the same runs either way ---------------------------------------

  /** Where the rules differ, it does not matter in `k`. */
  predicate AgreeBlock(m: Rules, m': Rules, k: Block) {
    (m.spills == m'.spills || HarmlessBlock(k)) && (m.tidies == m'.tidies || PlainBlock(k))
  }

  predicate AgreeStmt(m: Rules, m': Rules, s: Stmt) {
    (m.spills == m'.spills || HarmlessStmt(s)) && (m.tidies == m'.tidies || PlainStmt(s))
  }

  predicate AgreeAlts(m: Rules, m': Rules, a: Alts) {
    (m.spills == m'.spills || HarmlessAlts(a)) && (m.tidies == m'.tidies || PlainAlts(a))
  }

  predicate AgreeHandlers(m: Rules, m': Rules, h: Handlers) {
    (m.spills == m'.spills || HarmlessHandlers(h)) && (m.tidies == m'.tidies || PlainHandlers(h))
  }

  lemma {:induction false} SameBlock(m: Rules, m': Rules, k: Block, t: Trace, o: Outcome)
    requires AgreeBlock(m, m', k) && RunBlock(m, k, t, o)
    ensures RunBlock(m', k, t, o)
    decreases k, 0
  {
    hide RunStmt, HarmlessStmt, PlainStmt, EndsStmt;
    if k.Cons? {
      var s, r := k.head, k.tail;
      if o != Normal && RunStmt(m, s, t, o) {
        SameStmt(m, m', s, t, o);
      } else {
        var t1, t2 :| t == t1 + t2 && RunStmt(m, s, t1, Normal) && RunBlock(m, r, t2, o);
        SameStmt(m, m', s, t1, Normal);
        RunStmtEnds(m, s, t1, Normal);
        SameBlock(m, m', r, t2, o);
      }
    }
  }

  lemma {:induction false} SameStmt(m: Rules, m': Rules, s: Stmt, t: Trace, o: Outcome)
    requires AgreeStmt(m, m', s) && RunStmt(m, s, t, o)
    ensures RunStmt(m', s, t, o)
    decreases s, 2
  {
    hide RunBody, HarmlessStmt, PlainStmt;
    if RunBody(m, s, t, o) {
      SameBody(m, m', s, t, o);
    }
  }

  lemma {:induction false} SameBody(m: Rules, m': Rules, s: Stmt, t: Trace, o: Outcome)
    requires AgreeStmt(m, m', s) && RunBody(m, s, t, o)
    ensures RunBody(m', s, t, o)
    decreases s, 1
  {
    hide RunBlock, RunAlts, RunTurns, RunLastTurn, RunGuarded, HarmlessBlock, HarmlessAlts, HarmlessHandlers, PlainBlock, PlainAlts, PlainHandlers, EndsBlock, Spoils, Repeats;
    match s
    case If(cond, body, alts) =>
      if !RunEvents(cond, t, o, Cut) {
        var u :| t == cond + u && (RunBlock(m, body, u, o) || RunAlts(m, alts, u, o));
        if RunBlock(m, body, u, o) {
          SameBlock(m, m', body, u, o);
        } else {
          SameAlts(m, m', alts, u, o);
        }
      }
    case While(_, _, _, _) => SameWhile(m, m', s, t, o);
    case For(_, _, _, _, _) => SameFor(m, m', s, t, o);
    case Try(_, _, _, final) =>
      if final.Nil? || (o == Cut && RunGuarded(m, s, t, Cut)) {
        SameGuarded(m, m', s, t, o);
      } else {
        var t1, t2, o1, o2 :| t == t1 + t2 && o1 != Cut && o == AfterFinally(o1, o2) &&
          RunGuarded(m, s, t1, o1) && RunBlock(m, final, t2, o2);
        SameGuarded(m, m', s, t1, o1);
        SameBlock(m, m', final, t2, o2);
      }
    case _ =>
  }

  lemma {:induction false} SameWhile(m: Rules, m': Rules, s: Stmt, t: Trace, o: Outcome)
    requires s.While? && AgreeStmt(m, m', s) && RunBody(m, s, t, o)
    ensures RunBody(m', s, t, o)
    decreases s, 0
  {
    hide RunBlock, RunBody, RunTurns, RunLastTurn, HarmlessBlock, PlainBlock;
    var n, t1, t2 := SplitWhile(m, s, t, o);
    SameTurns(m, m', s.cond, s.body, t1, n);
    if RunLastTurn(m, s.cond, s.body, t2, o) {
      SameLastTurn(m, m', s.cond, s.body, t2, o);
    } else {
      var u :| t2 == s.cond + u && RunBlock(m, s.orelse, u, o);
      SameBlock(m, m', s.orelse, u, o);
      assert LeavesLoop(m', s, t2, o);
    }
    JoinWhile(m', s, n, t1, t2, o);
  }

  lemma {:induction false} SameFor(m: Rules, m': Rules, s: Stmt, t: Trace, o: Outcome)
    requires s.For? && AgreeStmt(m, m', s) && RunBody(m, s, t, o)
    ensures RunBody(m', s, t, o)
    decreases s, 0
  {
    hide RunBlock, RunBody, RunTurns, RunLastTurn, HarmlessBlock, PlainBlock, Repeats;
    if RunEvents(s.iterable, t, o, Cut) {
      ForCut(m', s, t, o);
    } else {
      var n, t1, t2 := SplitFor(m, s, t, o);
      SameTurns(m, m', s.target, s.body, t1, n);
      if RunLastTurn(m, s.target, s.body, t2, o) {
        SameLastTurn(m, m', s.target, s.body, t2, o);
      } else {
        if n > 0 {
          RunRepeats(m, s.target, s.body, t1, n);
        }
        SameBlock(m, m', s.orelse, t2, o);
      }
      JoinFor(m', s, n, t1, t2, o);
    }
  }

  lemma ForCut(m: Rules, s: Stmt, t: Trace, o: Outcome)
    requires s.For? && RunEvents(s.iterable, t, o, Cut)
    ensures RunBody(m, s, t, o)
  {
    hide RunTurns, RunLastTurn;
  }

  lemma {:induction false} SameTurns(m: Rules, m': Rules, pre: Trace, body: Block, t: Trace, n: nat)
    requires AgreeBlock(m, m', body) && RunTurns(m, pre, body, t, n)
    ensures RunTurns(m', pre, body, t, n)
    decreases body, 2, n
  {
    hide RunBlock, HarmlessBlock, PlainBlock;
    if n > 0 {
      var t1, t2 :| t == t1 + (pre + t2) && RunTurns(m, pre, body, t1, n - 1) && Completes(m, body, t2);
      SameTurns(m, m', pre, body, t1, n - 1);
      SameBlock(m, m', body, t2, if RunBlock(m, body, t2, Normal) then Normal else Continued);
      assert Completes(m', body, t2);
    }
  }

  lemma {:induction false} SameLastTurn(m: Rules, m': Rules, pre: Trace, body: Block, t: Trace, o: Outcome)
    requires AgreeBlock(m, m', body) && RunLastTurn(m, pre, body, t, o)
    ensures RunLastTurn(m', pre, body, t, o)
    decreases body, 1
  {
    hide RunBlock, HarmlessBlock, PlainBlock;
    if !RunEvents(pre, t, o, Cut) {
      var o1 := if o == Normal then Broke else o;
      var u :| t == pre + u && RunBlock(m, body, u, o1);
      SameBlock(m, m', body, u, o1);
    }
  }

  lemma {:induction false} SameAlts(m: Rules, m': Rules, a: Alts, t: Trace, o: Outcome)
    requires AgreeAlts(m, m', a) && RunAlts(m, a, t, o)
    ensures RunAlts(m', a, t, o)
    decreases a, 0
  {
    hide RunBlock, HarmlessBlock, PlainBlock;
    match a
    case NoElse =>
    case Else(body) => SameBlock(m, m', body, t, o);
    case Elif(cond, body, rest) =>
      if !RunEvents(cond, t, o, Cut) {
        var u :| t == cond + u && (RunBlock(m, body, u, o) || RunAlts(m, rest, u, o));
        if RunBlock(m, body, u, o) {
          SameBlock(m, m', body, u, o);
        } else {
          SameAlts(m, m', rest, u, o);
        }
      }
  }

  lemma {:induction false} SameGuarded(m: Rules, m': Rules, s: Stmt, t: Trace, o: Outcome)
    requires s.Try? && AgreeStmt(m, m', s) && RunGuarded(m, s, t, o)
    ensures RunGuarded(m', s, t, o)
    decreases s, 0
  {
    hide RunBlock, Throws, RunTail, RunHandlers, HarmlessBlock, HarmlessHandlers, PlainBlock, PlainHandlers, Spill, Spoils, EndsBlock;
    var m1, m2 := Outer(m, s.final), Outer(m', s.final);
    if o != Normal && !o.Raised? && RunBlock(Inner(m), s.body, t, o) {
      SameBlock(Inner(m), Inner(m'), s.body, t, o);
    } else if o == Raised(true) && Throws(Inner(m), s.body, Spill(m, s), t) {
      SameThrows(m, m', s, t);
    } else if RunsElse(m, s, t, o) {
      SameElse(m, m', s, t, o);
    } else {
      var t1, t2 :| t == t1 + t2 && Throws(Inner(m), s.body, Spill(m, s), t1) && RunHandlers(m1, s.handlers, t2, o);
      SameThrows(m, m', s, t1);
      SameHandlers(m1, m2, s.handlers, t2, o);
    }
  }

  ghost predicate RunsElse(m: Rules, s: Stmt, t: Trace, o: Outcome)
    requires s.Try?
  {
    exists t1, t2 :: t == t1 + t2 && RunBlock(Inner(m), s.body, t1, Normal) && RunTail(Outer(m, s.final), s.orelse, t2, o)
  }

  lemma {:induction false} SameElse(m: Rules, m': Rules, s: Stmt, t: Trace, o: Outcome)
    requires s.Try? && AgreeStmt(m, m', s) && RunsElse(m, s, t, o)
    ensures RunGuarded(m', s, t, o)
    decreases s, 0, 0
  {
    hide RunBlock, Throws, RunTail, RunHandlers, HarmlessBlock, HarmlessHandlers, PlainBlock, PlainHandlers, Spoils, EndsBlock;
    var m1, m2 := Outer(m, s.final), Outer(m', s.final);
    var t1, t2 :| t == t1 + t2 && RunBlock(Inner(m), s.body, t1, Normal) && RunTail(m1, s.orelse, t2, o);
    RunEnds(Inner(m), s.body, t1, Normal);
    SameBlock(Inner(m), Inner(m'), s.body, t1, Normal);
    SameTail(m1, m2, s.orelse, t2, o);
  }

  /** Unless a `try` spoils, its body throws the same either way. */
  lemma {:induction false} SameThrows(m: Rules, m': Rules, s: Stmt, t: Trace)
    requires s.Try? && (m.tidies == m'.tidies || PlainBlock(s.body))
    requires m.spills == m'.spills || s.final.Cons? || !Spoils(s)
    requires Throws(Inner(m), s.body, Spill(m, s), t)
    ensures Throws(Inner(m'), s.body, Spill(m', s), t)
    decreases s.body, 1
  {
    hide RunBlock, EndsBlock, Lead, PlainBlock;
    if ThrowsLate(Inner(m), s.body, Spill(m, s), t) {
      var u :| t == u + Spill(m, s) && RunBlock(Inner(m), s.body, u, Normal);
      RunEnds(Inner(m), s.body, u, Normal);
      SameBlock(Inner(m), Inner(m'), s.body, u, Normal);
      assert Spill(m, s) == Spill(m', s);
    } else {
      SameBlock(Inner(m), Inner(m'), s.body, t, Raised(RunBlock(Inner(m), s.body, t, Raised(true))));
    }
  }

  lemma {:induction false} SameTail(m: Rules, m': Rules, k: Block, t: Trace, o: Outcome)
    requires AgreeBlock(m, m', k) && RunTail(m, k, t, o)
    ensures RunTail(m', k, t, o)
    decreases k, 1
  {
    hide RunBlock, HarmlessBlock, PlainBlock;
    SameBlock(m, m', k, t, if RunBlock(m, k, t, o) then o else Normal);
  }

  lemma {:induction false} SameHandlers(m: Rules, m': Rules, h: Handlers, t: Trace, o: Outcome)
    requires AgreeHandlers(m, m', h) && RunHandlers(m, h, t, o)
    ensures RunHandlers(m', h, t, o)
    decreases h
  {
    hide RunBlock, RunHandled, HarmlessBlock, PlainBlock;
    if RunHandler(m, h.header, h.body, h.unbind, t, o) {
      if !RunEvents(h.header, t, o, Cut) {
        var u :| t == h.header + u && RunHandled(m, h.body, h.unbind, u, o);
        SameHandled(m, m', h.body, h.unbind, u, o);
        assert RunHandler(m', h.header, h.body, h.unbind, t, o);
      }
    } else {
      SameHandlers(m, m', h.rest, t, o);
    }
  }

  lemma {:induction false} SameHandled(m: Rules, m': Rules, body: Block, unbind: Trace, t: Trace, o: Outcome)
    requires AgreeBlock(m, m', body) && (m.tidies == m'.tidies || unbind == []) && RunHandled(m, body, unbind, t, o)
    ensures RunHandled(m', body, unbind, t, o)
    decreases body, 2
  {
    hide RunBlock, HarmlessBlock, PlainBlock, RunTidied;
    if o != Normal && (m.tidies ==> o == Cut) && RunBlock(m, body, t, o) {
      SameBlock(m, m', body, t, o);
      if m'.tidies && o != Cut {
        LeftIsTidied(m', body, unbind, t, o);
      }
    } else if m.tidies && RunTidied(m, body, unbind, t, o) {
      SameTidied(m, m', body, unbind, t, o);
    } else {
      var u, v :| t == u + v && RunBlock(m, body, u, Normal) &&
        (RunEvents(unbind, v, o, Normal) || (v == unbind && o == Raised(false)));
      SameBlock(m, m', body, u, Normal);
    }
  }

  lemma LeftIsTidied(m: Rules, body: Block, unbind: Trace, t: Trace, o: Outcome)
    requires o != Normal && o != Cut && RunBlock(m, body, t, o) && unbind == []
    ensures RunTidied(m, body, unbind, t, o)
  {
    hide RunBlock;
    assert t == t + [] && RunEvents([], [], o, o);
  }

  lemma {:induction false} SameTidied(m: Rules, m': Rules, body: Block, unbind: Trace, t: Trace, o: Outcome)
    requires AgreeBlock(m, m', body) && m.tidies && (m'.tidies || unbind == []) && RunTidied(m, body, unbind, t, o)
    ensures RunHandled(m', body, unbind, t, o)
    decreases body, 1
  {
    hide RunBlock, HarmlessBlock, PlainBlock;
    var u, v, o1 :| t == u + v && o1 != Normal && o1 != Cut && RunBlock(m, body, u, o1) && RunEvents(unbind, v, o, o1);
    SameBlock(m, m', body, u, o1);
    if m'.tidies {
      assert RunTidied(m', body, unbind, t, o);
    } else {
      assert t == u;
      CutBlock(m', body, u, o1);
    }
  }

  /** A function has the same runs under all rules that agree on it. */
  lemma SameRuns(m: Rules, m': Rules, body: Block, t: Trace)
    requires AgreeBlock(m, m', body)
    ensures Run(m, body, t) <==> Run(m', body, t)
  {
    hide RunBlock, HarmlessBlock, PlainBlock;
    if o :| RunBlock(m, body, t, o) {
      SameBlock(m, m', body, t, o);
    }
    if o :| RunBlock(m', body, t, o) {
      SameBlock(m', m, body, t, o);
    }
  }

  /** A harmless function has the same runs as it is lowered and as it is written. */
  lemma HarmlessSameRuns(body: Block, t: Trace)
    requires Harmless(body)
    ensures Run(LOWERED, body, t) <==> Run(WRITTEN, body, t)
  {
    hide RunBlock, HarmlessBlock, Run;
    SameRuns(LOWERED, WRITTEN, body, t);
  }
}
