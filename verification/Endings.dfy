/** How the runs of a block can end, read off its text. What events the statements make
    does not matter, nor which rules the runs obey: for every way of ending that the text
    allows there is a run that ends so, and no run ends otherwise. */
module Endings {
  import opened Cfg
  import opened Python

  predicate EndsBlock(k: Block, o: Outcome)
    decreases k, 0
  {
    match k
    case Nil => o == Normal
    case Cons(s, r) => (o != Normal && EndsStmt(s, o)) || (EndsStmt(s, Normal) && EndsBlock(r, o))
  }

  predicate EndsStmt(s: Stmt, o: Outcome)
    decreases s, 2
  {
    o == Raised(false) || EndsBody(s, o)
  }

  predicate EndsBody(s: Stmt, o: Outcome)
    decreases s, 1
  {
    match s
    case Simple(_) => o == Normal
    case Return(_) => o == Returned
    case Raise(_) => o == Raised(true)
    case Break => o == Broke
    case Continue => o == Continued
    case If(_, body, alts) => EndsBlock(body, o) || EndsAlts(alts, o)
    case While(always, _, body, orelse) => EndsTurn(body, o) || (!always && EndsBlock(orelse, o))
    case For(_, nonEmpty, _, body, orelse) =>
      EndsTurn(body, o) || ((nonEmpty ==> Repeats(body)) && EndsBlock(orelse, o))
    case Try(_, _, _, final) =>
      if final.Nil? then EndsGuarded(s, o)
      else if o == Normal then EndsGuarded(s, Normal) && EndsBlock(final, Normal)
      else EndsBlock(final, o) || (EndsBlock(final, Normal) && EndsPassed(s, o))
  }

  /** What a `finally` that completes goes on with: an exception is raised again. */
  predicate EndsPassed(s: Stmt, o: Outcome)
    requires s.Try?
    decreases s, 0, 1
  {
    if o == Raised(true) then EndsGuarded(s, Raised(true)) || EndsGuarded(s, Raised(false))
    else !o.Raised? && EndsGuarded(s, o)
  }

  predicate EndsAlts(a: Alts, o: Outcome)
    decreases a, 0
  {
    match a
    case NoElse => o == Normal
    case Else(body) => EndsBlock(body, o)
    case Elif(_, body, rest) => EndsBlock(body, o) || EndsAlts(rest, o)
  }

  /** Some turn of a loop can be followed by another. */
  predicate Repeats(body: Block)
    decreases body, 1
  {
    EndsBlock(body, Normal) || EndsBlock(body, Continued)
  }

  /** A turn that leaves the loop. */
  predicate EndsTurn(body: Block, o: Outcome)
    decreases body, 1
  {
    if o == Normal then EndsBlock(body, Broke) else o != Broke && o != Continued && EndsBlock(body, o)
  }

  predicate EndsGuarded(s: Stmt, o: Outcome)
    requires s.Try?
    decreases s, 0, 0
  {
    || (o != Normal && !o.Raised? && EndsBlock(s.body, o))
    || (o == Raised(true) && EndsThrown(s.body))
    || (EndsBlock(s.body, Normal) && EndsTail(s.orelse, o))
    || (EndsThrown(s.body) && EndsHandlers(s.handlers, o))
  }

  predicate EndsThrown(body: Block)
    decreases body, 1
  {
    EndsBlock(body, Raised(true)) || EndsBlock(body, Raised(false)) || EndsBlock(body, Normal)
  }

  predicate EndsTail(k: Block, o: Outcome)
    decreases k, 1
  {
    EndsBlock(k, o) || (o == Raised(false) && EndsBlock(k, Normal))
  }

  predicate EndsHandlers(h: Handlers, o: Outcome)
    decreases h
  {
    h.Handler? && (EndsTail(h.body, o) || EndsHandlers(h.rest, o))
  }

  // ---- every ending has a run -----------------------------------------

  lemma {:induction false} EndingRuns(m: Rules, k: Block, o: Outcome) returns (t: Trace)
    requires EndsBlock(k, o) && o != Cut
    ensures RunBlock(m, k, t, o)
    decreases k, 0
  {
    hide RunStmt, EndsStmt;
    match k
    case Nil => t := [];
    case Cons(s, r) =>
      if o != Normal && EndsStmt(s, o) {
        t := EndingStmtRuns(m, s, o);
      } else {
        var t1 := EndingStmtRuns(m, s, Normal);
        var t2 := EndingRuns(m, r, o);
        t := t1 + t2;
      }
  }

  lemma {:induction false} EndingStmtRuns(m: Rules, s: Stmt, o: Outcome) returns (t: Trace)
    requires EndsStmt(s, o) && o != Cut
    ensures RunStmt(m, s, t, o)
    decreases s, 2
  {
    hide EndsBody, RunBody;
    if o == Raised(false) {
      t := [];
    } else {
      t := EndingBodyRuns(m, s, o);
    }
  }

  lemma {:induction false} EndingBodyRuns(m: Rules, s: Stmt, o: Outcome) returns (t: Trace)
    requires EndsBody(s, o) && o != Cut
    ensures RunBody(m, s, t, o)
    decreases s, 1
  {
    hide EndsBlock, RunBlock, EndsAlts, RunAlts, EndsTurn, RunTurns, RunLastTurn;
    match s
    case Simple(ev) => t := ev;
    case Return(ev) => t := ev;
    case Raise(ev) => t := ev;
    case Break => t := [];
    case Continue => t := [];
    case If(cond, body, alts) =>
      var u;
      if EndsBlock(body, o) {
        u := EndingRuns(m, body, o);
      } else {
        u := EndingAltRuns(m, alts, o);
      }
      t := cond + u;
    case While(_, _, _, _) => t := EndingWhileRuns(m, s, o);
    case For(_, _, _, _, _) => t := EndingForRuns(m, s, o);
    case Try(_, _, _, final) =>
      if final.Nil? {
        t := EndingGuardedRuns(m, s, o);
      } else {
        t := EndingFinallyRuns(m, s, o);
      }
  }

  lemma NoTurns(m: Rules, pre: Trace, body: Block)
    ensures RunTurns(m, pre, body, [], 0)
  {
  }

  lemma {:induction false} EndingWhileRuns(m: Rules, s: Stmt, o: Outcome) returns (t: Trace)
    requires s.While? && EndsBody(s, o) && o != Cut
    ensures RunBody(m, s, t, o)
    decreases s, 0
  {
    hide EndsBlock, RunBlock, EndsTurn, RunTurns, RunLastTurn;
    NoTurns(m, s.cond, s.body);
    if EndsTurn(s.body, o) {
      t := EndingTurnRuns(m, s.cond, s.body, o);
    } else {
      var u := EndingRuns(m, s.orelse, o);
      t := s.cond + u;
    }
    assert t == [] + t;
  }

  lemma {:induction false} EndingForRuns(m: Rules, s: Stmt, o: Outcome) returns (t: Trace)
    requires s.For? && EndsBody(s, o) && o != Cut
    ensures RunBody(m, s, t, o)
    decreases s, 0
  {
    hide EndsBlock, RunBlock, EndsTurn, RunTurns, RunLastTurn, Repeats;
    NoTurns(m, s.target, s.body);
    if EndsTurn(s.body, o) {
      var u := EndingTurnRuns(m, s.target, s.body, o);
      t := s.iterable + [] + u;
    } else if s.nonEmpty {
      var v := RepeatRuns(m, s.target, s.body);
      var u := EndingRuns(m, s.orelse, o);
      t := s.iterable + v + u;
    } else {
      var u := EndingRuns(m, s.orelse, o);
      t := s.iterable + [] + u;
    }
  }

  lemma {:induction false} RepeatRuns(m: Rules, pre: Trace, body: Block) returns (t: Trace)
    requires Repeats(body)
    ensures RunTurns(m, pre, body, t, 1)
    decreases body, 1
  {
    hide EndsBlock, RunBlock;
    var u := EndingRuns(m, body, if EndsBlock(body, Normal) then Normal else Continued);
    assert Completes(m, body, u) && RunTurns(m, pre, body, [], 0);
    t := [] + (pre + u);
  }

  lemma {:induction false} EndingTurnRuns(m: Rules, pre: Trace, body: Block, o: Outcome) returns (t: Trace)
    requires EndsTurn(body, o) && o != Cut
    ensures RunLastTurn(m, pre, body, t, o)
    decreases body, 1
  {
    hide EndsBlock, RunBlock;
    var u := EndingRuns(m, body, if o == Normal then Broke else o);
    t := pre + u;
  }

  lemma {:induction false} EndingAltRuns(m: Rules, a: Alts, o: Outcome) returns (t: Trace)
    requires EndsAlts(a, o) && o != Cut
    ensures RunAlts(m, a, t, o)
    decreases a, 0
  {
    hide EndsBlock, RunBlock;
    match a
    case NoElse => t := [];
    case Else(body) => t := EndingRuns(m, body, o);
    case Elif(cond, body, rest) =>
      var u;
      if EndsBlock(body, o) {
        u := EndingRuns(m, body, o);
      } else {
        u := EndingAltRuns(m, rest, o);
      }
      t := cond + u;
  }

  lemma {:induction false} EndingFinallyRuns(m: Rules, s: Stmt, o: Outcome) returns (t: Trace)
    requires s.Try? && s.final.Cons? && EndsBody(s, o) && o != Cut
    ensures RunBody(m, s, t, o)
    decreases s, 0, 2
  {
    hide EndsBlock, RunBlock, EndsGuarded, RunGuarded;
    var o1, o2;
    if o != Normal && EndsBlock(s.final, o) {
      o1 := SomeEnding(s);
      o2 := o;
    } else {
      o2 := Normal;
      o1 := if o == Raised(true) && !EndsGuarded(s, Raised(true)) then Raised(false) else o;
    }
    var t1 := EndingGuardedRuns(m, s, o1);
    var t2 := EndingRuns(m, s.final, o2);
    t := t1 + t2;
    assert o == AfterFinally(o1, o2);
  }

  /** The guarded part of a `try` can always be left, if only by an exception. */
  lemma {:induction false} SomeEnding(s: Stmt) returns (o: Outcome)
    requires s.Try?
    ensures EndsGuarded(s, o) && o != Cut
  {
    hide EndsBody;
    o := Raised(true);
    if s.body.Cons? {
      assert EndsStmt(s.body.head, Raised(false));
    }
    assert EndsThrown(s.body);
  }

  lemma {:induction false} EndingGuardedRuns(m: Rules, s: Stmt, o: Outcome) returns (t: Trace)
    requires s.Try? && EndsGuarded(s, o) && o != Cut
    ensures RunGuarded(m, s, t, o)
    decreases s, 0, 1
  {
    hide EndsBlock, RunBlock, EndsThrown, Throws, EndsTail, RunTail, EndsHandlers, RunHandlers;
    if o != Normal && !o.Raised? && EndsBlock(s.body, o) {
      t := EndingRuns(Inner(m), s.body, o);
    } else if o == Raised(true) && EndsThrown(s.body) {
      t := EndingThrowRuns(Inner(m), s.body, Spill(m, s));
    } else if EndsBlock(s.body, Normal) && EndsTail(s.orelse, o) {
      var t1 := EndingRuns(Inner(m), s.body, Normal);
      var t2 := EndingTailRuns(Outer(m, s.final), s.orelse, o);
      t := t1 + t2;
    } else {
      var t1 := EndingThrowRuns(Inner(m), s.body, Spill(m, s));
      var t2 := EndingHandlerRuns(Outer(m, s.final), s.handlers, o);
      t := t1 + t2;
    }
  }

  lemma {:induction false} EndingThrowRuns(m: Rules, body: Block, spill: Trace) returns (t: Trace)
    requires EndsThrown(body)
    ensures Throws(m, body, spill, t)
    decreases body, 1
  {
    hide EndsBlock, RunBlock;
    if EndsBlock(body, Normal) {
      var u := EndingRuns(m, body, Normal);
      t := u + spill;
    } else {
      t := EndingRuns(m, body, Raised(EndsBlock(body, Raised(true))));
    }
  }

  lemma {:induction false} EndingTailRuns(m: Rules, k: Block, o: Outcome) returns (t: Trace)
    requires EndsTail(k, o) && o != Cut
    ensures RunTail(m, k, t, o)
    decreases k, 1
  {
    hide EndsBlock, RunBlock;
    t := EndingRuns(m, k, if EndsBlock(k, o) then o else Normal);
  }

  lemma {:induction false} EndingHandlerRuns(m: Rules, h: Handlers, o: Outcome) returns (t: Trace)
    requires EndsHandlers(h, o) && o != Cut
    ensures RunHandlers(m, h, t, o)
    decreases h
  {
    hide EndsBlock, RunBlock, RunHandled, EndsTail;
    if EndsTail(h.body, o) {
      var u := EndingHandledRuns(m, h.body, h.unbind, o);
      t := h.header + u;
    } else {
      t := EndingHandlerRuns(m, h.rest, o);
    }
  }

  lemma {:induction false} EndingHandledRuns(m: Rules, body: Block, unbind: Trace, o: Outcome) returns (t: Trace)
    requires EndsTail(body, o) && o != Cut
    ensures RunHandled(m, body, unbind, t, o)
    decreases body, 1
  {
    hide EndsBlock, RunBlock;
    if o == Normal || !EndsBlock(body, o) {
      var u := EndingRuns(m, body, Normal);
      t := u + unbind;
    } else {
      var u := EndingRuns(m, body, o);
      t := if m.tidies then u + unbind else u;
      assert m.tidies ==> RunTidied(m, body, unbind, t, o);
    }
  }

  // ---- every run has an ending ----------------------------------------

  lemma {:induction false} RunEnds(m: Rules, k: Block, t: Trace, o: Outcome)
    requires RunBlock(m, k, t, o) && o != Cut
    ensures EndsBlock(k, o)
    decreases k, 0
  {
    hide RunStmt, EndsStmt;
    if k.Cons? {
      var s, r := k.head, k.tail;
      if o != Normal && RunStmt(m, s, t, o) {
        RunStmtEnds(m, s, t, o);
      } else {
        var t1, t2 :| t == t1 + t2 && RunStmt(m, s, t1, Normal) && RunBlock(m, r, t2, o);
        RunStmtEnds(m, s, t1, Normal);
        RunEnds(m, r, t2, o);
      }
    }
  }

  lemma {:induction false} RunStmtEnds(m: Rules, s: Stmt, t: Trace, o: Outcome)
    requires RunStmt(m, s, t, o) && o != Cut
    ensures EndsStmt(s, o)
    decreases s, 2
  {
    hide RunBody, EndsBody;
    if RunBody(m, s, t, o) {
      RunBodyEnds(m, s, t, o);
    }
  }

  lemma {:induction false} RunBodyEnds(m: Rules, s: Stmt, t: Trace, o: Outcome)
    requires RunBody(m, s, t, o) && o != Cut
    ensures EndsBody(s, o)
    decreases s, 1
  {
    hide EndsBlock, RunBlock, EndsAlts, RunAlts, EndsTurn, RunTurns, RunLastTurn, EndsGuarded, RunGuarded;
    match s
    case If(cond, body, alts) =>
      var u :| t == cond + u && (RunBlock(m, body, u, o) || RunAlts(m, alts, u, o));
      if RunBlock(m, body, u, o) {
        RunEnds(m, body, u, o);
      } else {
        RunAltEnds(m, alts, u, o);
      }
    case While(_, _, _, _) => RunWhileEnds(m, s, t, o);
    case For(_, _, _, _, _) => RunForEnds(m, s, t, o);
    case Try(_, _, _, final) =>
      if final.Nil? {
        RunGuardedEnds(m, s, t, o);
      } else {
        var t1, t2, o1, o2 :| t == t1 + t2 && o1 != Cut && o == AfterFinally(o1, o2) &&
          RunGuarded(m, s, t1, o1) && RunBlock(m, final, t2, o2);
        RunGuardedEnds(m, s, t1, o1);
        RunEnds(m, final, t2, o2);
      }
    case _ =>
  }

  lemma {:induction false} RunWhileEnds(m: Rules, s: Stmt, t: Trace, o: Outcome)
    requires s.While? && RunBody(m, s, t, o) && o != Cut
    ensures EndsBody(s, o)
    decreases s, 0
  {
    hide EndsBlock, RunBlock, EndsTurn, RunTurns, RunLastTurn;
    var n: nat, t1, t2 :| t == t1 + t2 && RunTurns(m, s.cond, s.body, t1, n) &&
      (RunLastTurn(m, s.cond, s.body, t2, o) || (!s.always && exists u :: t2 == s.cond + u && RunBlock(m, s.orelse, u, o)));
    if RunLastTurn(m, s.cond, s.body, t2, o) {
      RunTurnEnds(m, s.cond, s.body, t2, o);
    } else {
      var u :| t2 == s.cond + u && RunBlock(m, s.orelse, u, o);
      RunEnds(m, s.orelse, u, o);
    }
  }

  lemma {:induction false} RunForEnds(m: Rules, s: Stmt, t: Trace, o: Outcome)
    requires s.For? && RunBody(m, s, t, o) && o != Cut
    ensures EndsBody(s, o)
    decreases s, 0
  {
    hide EndsBlock, RunBlock, EndsTurn, RunTurns, RunLastTurn, Repeats;
    var n: nat, t1, t2 :| t == s.iterable + t1 + t2 && RunTurns(m, s.target, s.body, t1, n) &&
      (RunLastTurn(m, s.target, s.body, t2, o) || ((s.nonEmpty ==> n > 0) && RunBlock(m, s.orelse, t2, o)));
    if RunLastTurn(m, s.target, s.body, t2, o) {
      RunTurnEnds(m, s.target, s.body, t2, o);
    } else {
      RunEnds(m, s.orelse, t2, o);
      if n > 0 {
        RunRepeats(m, s.target, s.body, t1, n);
      }
    }
  }

  lemma {:induction false} RunRepeats(m: Rules, pre: Trace, body: Block, t: Trace, n: nat)
    requires n > 0 && RunTurns(m, pre, body, t, n)
    ensures Repeats(body)
    decreases body, 1
  {
    hide EndsBlock, RunBlock;
    var t1, t2 :| t == t1 + (pre + t2) && RunTurns(m, pre, body, t1, n - 1) && Completes(m, body, t2);
    RunEnds(m, body, t2, if RunBlock(m, body, t2, Normal) then Normal else Continued);
  }

  lemma {:induction false} RunTurnEnds(m: Rules, pre: Trace, body: Block, t: Trace, o: Outcome)
    requires RunLastTurn(m, pre, body, t, o) && o != Cut
    ensures EndsTurn(body, o)
    decreases body, 1
  {
    hide EndsBlock, RunBlock;
    var u :| t == pre + u && RunBlock(m, body, u, if o == Normal then Broke else o);
    RunEnds(m, body, u, if o == Normal then Broke else o);
  }

  lemma {:induction false} RunAltEnds(m: Rules, a: Alts, t: Trace, o: Outcome)
    requires RunAlts(m, a, t, o) && o != Cut
    ensures EndsAlts(a, o)
    decreases a, 0
  {
    hide EndsBlock, RunBlock;
    match a
    case NoElse =>
    case Else(body) => RunEnds(m, body, t, o);
    case Elif(cond, body, rest) =>
      var u :| t == cond + u && (RunBlock(m, body, u, o) || RunAlts(m, rest, u, o));
      if RunBlock(m, body, u, o) {
        RunEnds(m, body, u, o);
      } else {
        RunAltEnds(m, rest, u, o);
      }
  }

  lemma {:induction false} RunGuardedEnds(m: Rules, s: Stmt, t: Trace, o: Outcome)
    requires s.Try? && RunGuarded(m, s, t, o) && o != Cut
    ensures EndsGuarded(s, o)
    decreases s, 0
  {
    hide EndsBlock, RunBlock, EndsThrown, Throws, EndsTail, RunTail, EndsHandlers, RunHandlers, Spill;
    if o != Normal && !o.Raised? && RunBlock(Inner(m), s.body, t, o) {
      RunEnds(Inner(m), s.body, t, o);
    } else if o == Raised(true) && Throws(Inner(m), s.body, Spill(m, s), t) {
      RunThrownEnds(Inner(m), s.body, Spill(m, s), t);
    } else if exists t1, t2 :: t == t1 + t2 && RunBlock(Inner(m), s.body, t1, Normal) && RunTail(Outer(m, s.final), s.orelse, t2, o) {
      var t1, t2 :| t == t1 + t2 && RunBlock(Inner(m), s.body, t1, Normal) && RunTail(Outer(m, s.final), s.orelse, t2, o);
      RunEnds(Inner(m), s.body, t1, Normal);
      RunTailEnds(Outer(m, s.final), s.orelse, t2, o);
    } else {
      var t1, t2 :| t == t1 + t2 && Throws(Inner(m), s.body, Spill(m, s), t1) && RunHandlers(Outer(m, s.final), s.handlers, t2, o);
      RunThrownEnds(Inner(m), s.body, Spill(m, s), t1);
      RunHandlersEnd(Outer(m, s.final), s.handlers, t2, o);
    }
  }

  lemma {:induction false} RunThrownEnds(m: Rules, body: Block, spill: Trace, t: Trace)
    requires Throws(m, body, spill, t)
    ensures EndsThrown(body)
    decreases body, 1
  {
    hide EndsBlock, RunBlock;
    if ThrowsLate(m, body, spill, t) {
      var u :| t == u + spill && RunBlock(m, body, u, Normal);
      RunEnds(m, body, u, Normal);
    } else {
      RunEnds(m, body, t, Raised(RunBlock(m, body, t, Raised(true))));
    }
  }

  lemma {:induction false} RunTailEnds(m: Rules, k: Block, t: Trace, o: Outcome)
    requires RunTail(m, k, t, o) && o != Cut
    ensures EndsTail(k, o)
    decreases k, 1
  {
    hide EndsBlock, RunBlock;
    RunEnds(m, k, t, if RunBlock(m, k, t, o) then o else Normal);
  }

  lemma {:induction false} RunHandlersEnd(m: Rules, h: Handlers, t: Trace, o: Outcome)
    requires RunHandlers(m, h, t, o) && o != Cut
    ensures EndsHandlers(h, o)
    decreases h
  {
    hide EndsBlock, RunBlock, RunHandled, EndsTail;
    if RunHandler(m, h.header, h.body, h.unbind, t, o) {
      var u :| t == h.header + u && RunHandled(m, h.body, h.unbind, u, o);
      RunHandledEnds(m, h.body, h.unbind, u, o);
    } else {
      RunHandlersEnd(m, h.rest, t, o);
    }
  }

  lemma {:induction false} RunHandledEnds(m: Rules, body: Block, unbind: Trace, t: Trace, o: Outcome)
    requires RunHandled(m, body, unbind, t, o) && o != Cut
    ensures EndsTail(body, o)
    decreases body, 2
  {
    hide EndsBlock, RunBlock, RunTidied;
    if o != Normal && (m.tidies ==> o == Cut) && RunBlock(m, body, t, o) {
      RunEnds(m, body, t, o);
    } else if m.tidies && RunTidied(m, body, unbind, t, o) {
      RunTidiedEnds(m, body, unbind, t, o);
    } else {
      var u, v :| t == u + v && RunBlock(m, body, u, Normal) &&
        (RunEvents(unbind, v, o, Normal) || (v == unbind && o == Raised(false)));
      RunEnds(m, body, u, Normal);
    }
  }

  lemma {:induction false} RunTidiedEnds(m: Rules, body: Block, unbind: Trace, t: Trace, o: Outcome)
    requires RunTidied(m, body, unbind, t, o) && o != Cut
    ensures EndsBlock(body, o)
    decreases body, 1
  {
    hide EndsBlock, RunBlock;
    var u, v, o1 :| t == u + v && o1 != Normal && o1 != Cut && RunBlock(m, body, u, o1) && RunEvents(unbind, v, o, o1);
    RunEnds(m, body, u, o);
  }

  /** The runs of a block can end as its text says, whatever rules they obey. */
  lemma EndsExactly(m: Rules, k: Block, o: Outcome)
    requires o != Cut
    ensures EndsBlock(k, o) <==> exists t :: RunBlock(m, k, t, o)
  {
    hide EndsBlock, RunBlock;
    if EndsBlock(k, o) {
      var t := EndingRuns(m, k, o);
    }
    if t :| RunBlock(m, k, t, o) {
      RunEnds(m, k, t, o);
    }
  }
}
