/** Events that do not occur in a block, and events that occur in one `try` only, which is
    outside every `try` region. An event that does not occur in a block is not made in any
    run of it, whichever rules the run obeys and however it ends. */
module Occurring {
  import opened Cfg
  import opened Python

  // ---- events that do not occur ---------------------------------------

  predicate AbsentBlock(k: Block, d: Event) {
    k.Cons? ==> AbsentStmt(k.head, d) && AbsentBlock(k.tail, d)
  }

  predicate AbsentStmt(s: Stmt, d: Event) {
    match s
    case Simple(ev) => d !in ev
    case Return(ev) => d !in ev
    case Raise(ev) => d !in ev
    case Break => true
    case Continue => true
    case If(cond, body, alts) => d !in cond && AbsentBlock(body, d) && AbsentAlts(alts, d)
    case While(_, cond, body, orelse) => d !in cond && AbsentBlock(body, d) && AbsentBlock(orelse, d)
    case For(iterable, _, target, body, orelse) =>
      d !in iterable && d !in target && AbsentBlock(body, d) && AbsentBlock(orelse, d)
    case Try(body, handlers, orelse, final) =>
      AbsentBlock(body, d) && AbsentHandlers(handlers, d) && AbsentBlock(orelse, d) && AbsentBlock(final, d)
  }

  predicate AbsentAlts(a: Alts, d: Event) {
    match a
    case NoElse => true
    case Else(body) => AbsentBlock(body, d)
    case Elif(cond, body, rest) => d !in cond && AbsentBlock(body, d) && AbsentAlts(rest, d)
  }

  predicate AbsentHandlers(h: Handlers, d: Event) {
    h.Handler? ==> d !in h.header && AbsentBlock(h.body, d) && d !in h.unbind && AbsentHandlers(h.rest, d)
  }

  lemma {:induction false} AbsentLead(k: Block, d: Event)
    requires AbsentBlock(k, d)
    ensures d !in Lead(k)
    decreases k
  {
    if k.Cons? {
      AbsentLead(k.tail, d);
    }
  }

  lemma {:induction false} AbsentRun(m: Rules, k: Block, t: Trace, o: Outcome, d: Event)
    requires AbsentBlock(k, d) && RunBlock(m, k, t, o)
    ensures d !in t
    decreases k, 0
  {
    hide RunStmt, AbsentStmt;
    if k.Cons? {
      var s, r := k.head, k.tail;
      if o != Normal && RunStmt(m, s, t, o) {
        AbsentStmtRun(m, s, t, o, d);
      } else {
        var t1, t2 :| t == t1 + t2 && RunStmt(m, s, t1, Normal) && RunBlock(m, r, t2, o);
        AbsentStmtRun(m, s, t1, Normal, d);
        AbsentRun(m, r, t2, o, d);
      }
    }
  }

  lemma {:induction false} AbsentStmtRun(m: Rules, s: Stmt, t: Trace, o: Outcome, d: Event)
    requires AbsentStmt(s, d) && RunStmt(m, s, t, o)
    ensures d !in t
    decreases s, 2
  {
    hide RunBody, AbsentStmt;
    if RunBody(m, s, t, o) {
      AbsentBodyRun(m, s, t, o, d);
    }
  }

  lemma AbsentEvents(ev: Trace, t: Trace, o: Outcome, o1: Outcome, d: Event)
    requires d !in ev && RunEvents(ev, t, o, o1)
    ensures d !in t
  {
  }

  lemma {:induction false} AbsentBodyRun(m: Rules, s: Stmt, t: Trace, o: Outcome, d: Event)
    requires AbsentStmt(s, d) && RunBody(m, s, t, o)
    ensures d !in t
    decreases s, 1
  {
    hide AbsentBlock, RunBlock, AbsentAlts, RunAlts, AbsentHandlers, RunGuarded, RunTurns, RunLastTurn;
    match s
    case Simple(ev) => AbsentEvents(ev, t, o, Normal, d);
    case Return(ev) => AbsentEvents(ev, t, o, Returned, d);
    case Raise(ev) => AbsentEvents(ev, t, o, Raised(true), d);
    case Break =>
    case Continue =>
    case If(cond, body, alts) =>
      if RunEvents(cond, t, o, Cut) {
        AbsentEvents(cond, t, o, Cut, d);
      } else {
        var u :| t == cond + u && (RunBlock(m, body, u, o) || RunAlts(m, alts, u, o));
        if RunBlock(m, body, u, o) {
          AbsentRun(m, body, u, o, d);
        } else {
          AbsentAltRun(m, alts, u, o, d);
        }
      }
    case While(_, _, _, _) => AbsentWhileRun(m, s, t, o, d);
    case For(_, _, _, _, _) => AbsentForRun(m, s, t, o, d);
    case Try(_, _, _, final) =>
      if final.Nil? || (o == Cut && RunGuarded(m, s, t, Cut)) {
        AbsentGuardedRun(m, s, t, o, d);
      } else {
        var t1, t2, o1, o2 :| t == t1 + t2 && o1 != Cut && o == AfterFinally(o1, o2) &&
          RunGuarded(m, s, t1, o1) && RunBlock(m, final, t2, o2);
        AbsentGuardedRun(m, s, t1, o1, d);
        AbsentRun(m, final, t2, o2, d);
      }
  }

  lemma {:induction false} AbsentWhileRun(m: Rules, s: Stmt, t: Trace, o: Outcome, d: Event)
    requires s.While? && AbsentStmt(s, d) && RunBody(m, s, t, o)
    ensures d !in t
    decreases s, 0
  {
    hide AbsentBlock, RunBlock, RunTurns, RunLastTurn;
    var n: nat, t1, t2 :| t == t1 + t2 && RunTurns(m, s.cond, s.body, t1, n) &&
      (RunLastTurn(m, s.cond, s.body, t2, o) || (!s.always && exists u :: t2 == s.cond + u && RunBlock(m, s.orelse, u, o)));
    AbsentTurnsRun(m, s.cond, s.body, t1, n, d);
    if RunLastTurn(m, s.cond, s.body, t2, o) {
      AbsentLastTurnRun(m, s.cond, s.body, t2, o, d);
    } else {
      var u :| t2 == s.cond + u && RunBlock(m, s.orelse, u, o);
      AbsentRun(m, s.orelse, u, o, d);
    }
  }

  lemma {:induction false} AbsentForRun(m: Rules, s: Stmt, t: Trace, o: Outcome, d: Event)
    requires s.For? && AbsentStmt(s, d) && RunBody(m, s, t, o)
    ensures d !in t
    decreases s, 0
  {
    hide AbsentBlock, RunBlock, RunTurns, RunLastTurn;
    if RunEvents(s.iterable, t, o, Cut) {
      AbsentEvents(s.iterable, t, o, Cut, d);
    } else {
      var n: nat, t1, t2 :| t == s.iterable + t1 + t2 && RunTurns(m, s.target, s.body, t1, n) &&
        (RunLastTurn(m, s.target, s.body, t2, o) || ((s.nonEmpty ==> n > 0) && RunBlock(m, s.orelse, t2, o)));
      AbsentTurnsRun(m, s.target, s.body, t1, n, d);
      if RunLastTurn(m, s.target, s.body, t2, o) {
        AbsentLastTurnRun(m, s.target, s.body, t2, o, d);
      } else {
        AbsentRun(m, s.orelse, t2, o, d);
      }
    }
  }

  lemma {:induction false} AbsentTurnsRun(m: Rules, pre: Trace, body: Block, t: Trace, n: nat, d: Event)
    requires d !in pre && AbsentBlock(body, d) && RunTurns(m, pre, body, t, n)
    ensures d !in t
    decreases body, 1, n
  {
    hide AbsentBlock, RunBlock;
    if n > 0 {
      var t1, t2 :| t == t1 + (pre + t2) && RunTurns(m, pre, body, t1, n - 1) && Completes(m, body, t2);
      AbsentTurnsRun(m, pre, body, t1, n - 1, d);
      AbsentRun(m, body, t2, if RunBlock(m, body, t2, Normal) then Normal else Continued, d);
    }
  }

  lemma {:induction false} AbsentLastTurnRun(m: Rules, pre: Trace, body: Block, t: Trace, o: Outcome, d: Event)
    requires d !in pre && AbsentBlock(body, d) && RunLastTurn(m, pre, body, t, o)
    ensures d !in t
    decreases body, 1
  {
    hide AbsentBlock, RunBlock;
    if RunEvents(pre, t, o, Cut) {
      AbsentEvents(pre, t, o, Cut, d);
    } else {
      var u, o1 :| t == pre + u && RunBlock(m, body, u, o1);
      AbsentRun(m, body, u, o1, d);
    }
  }

  lemma {:induction false} AbsentAltRun(m: Rules, a: Alts, t: Trace, o: Outcome, d: Event)
    requires AbsentAlts(a, d) && RunAlts(m, a, t, o)
    ensures d !in t
    decreases a, 0
  {
    hide AbsentBlock, RunBlock;
    match a
    case NoElse =>
    case Else(body) => AbsentRun(m, body, t, o, d);
    case Elif(cond, body, rest) =>
      if RunEvents(cond, t, o, Cut) {
        AbsentEvents(cond, t, o, Cut, d);
      } else {
        var u :| t == cond + u && (RunBlock(m, body, u, o) || RunAlts(m, rest, u, o));
        if RunBlock(m, body, u, o) {
          AbsentRun(m, body, u, o, d);
        } else {
          AbsentAltRun(m, rest, u, o, d);
        }
      }
  }

  lemma {:induction false} AbsentGuardedRun(m: Rules, s: Stmt, t: Trace, o: Outcome, d: Event)
    requires s.Try? && AbsentBlock(s.body, d) && AbsentHandlers(s.handlers, d) && AbsentBlock(s.orelse, d)
    requires RunGuarded(m, s, t, o)
    ensures d !in t
    decreases s, 0
  {
    hide AbsentBlock, RunBlock, Throws, RunTail, AbsentHandlers, RunHandlers, Lead;
    AbsentLead(s.orelse, d);
    if o != Normal && !o.Raised? && RunBlock(Inner(m), s.body, t, o) {
      AbsentRun(Inner(m), s.body, t, o, d);
    } else if o == Raised(true) && Throws(Inner(m), s.body, Spill(m, s), t) {
      AbsentThrow(Inner(m), s.body, Spill(m, s), t, d);
    } else if exists t1, t2 :: t == t1 + t2 && RunBlock(Inner(m), s.body, t1, Normal) && RunTail(Outer(m, s.final), s.orelse, t2, o) {
      var t1, t2 :| t == t1 + t2 && RunBlock(Inner(m), s.body, t1, Normal) && RunTail(Outer(m, s.final), s.orelse, t2, o);
      AbsentRun(Inner(m), s.body, t1, Normal, d);
      AbsentTailRun(Outer(m, s.final), s.orelse, t2, o, d);
    } else {
      var t1, t2 :| t == t1 + t2 && Throws(Inner(m), s.body, Spill(m, s), t1) && RunHandlers(Outer(m, s.final), s.handlers, t2, o);
      AbsentThrow(Inner(m), s.body, Spill(m, s), t1, d);
      AbsentHandlersRun(Outer(m, s.final), s.handlers, t2, o, d);
    }
  }

  lemma {:induction false} AbsentThrow(m: Rules, body: Block, spill: Trace, t: Trace, d: Event)
    requires AbsentBlock(body, d) && d !in spill && Throws(m, body, spill, t)
    ensures d !in t
    decreases body, 1
  {
    hide AbsentBlock, RunBlock;
    if ThrowsLate(m, body, spill, t) {
      var u :| t == u + spill && RunBlock(m, body, u, Normal);
      AbsentRun(m, body, u, Normal, d);
    } else {
      AbsentRun(m, body, t, Raised(RunBlock(m, body, t, Raised(true))), d);
    }
  }

  lemma {:induction false} AbsentTailRun(m: Rules, k: Block, t: Trace, o: Outcome, d: Event)
    requires AbsentBlock(k, d) && RunTail(m, k, t, o)
    ensures d !in t
    decreases k, 1
  {
    hide AbsentBlock, RunBlock;
    AbsentRun(m, k, t, if RunBlock(m, k, t, o) then o else Normal, d);
  }

  lemma {:induction false} AbsentHandlersRun(m: Rules, h: Handlers, t: Trace, o: Outcome, d: Event)
    requires AbsentHandlers(h, d) && RunHandlers(m, h, t, o)
    ensures d !in t
    decreases h
  {
    hide AbsentBlock, RunBlock, RunHandled;
    if RunHandler(m, h.header, h.body, h.unbind, t, o) {
      if RunEvents(h.header, t, o, Cut) {
        AbsentEvents(h.header, t, o, Cut, d);
      } else {
        var u :| t == h.header + u && RunHandled(m, h.body, h.unbind, u, o);
        AbsentHandledRun(m, h.body, h.unbind, u, o, d);
      }
    } else {
      AbsentHandlersRun(m, h.rest, t, o, d);
    }
  }

  lemma {:induction false} AbsentHandledRun(m: Rules, body: Block, unbind: Trace, t: Trace, o: Outcome, d: Event)
    requires AbsentBlock(body, d) && d !in unbind && RunHandled(m, body, unbind, t, o)
    ensures d !in t
    decreases body, 2
  {
    hide AbsentBlock, RunBlock;
    if o != Normal && (m.tidies ==> o == Cut) && RunBlock(m, body, t, o) {
      AbsentRun(m, body, t, o, d);
    } else if m.tidies && RunTidied(m, body, unbind, t, o) {
      AbsentTidiedRun(m, body, unbind, t, o, d);
    } else {
      var u, v :| t == u + v && RunBlock(m, body, u, Normal) &&
        (RunEvents(unbind, v, o, Normal) || (v == unbind && o == Raised(false)));
      AbsentRun(m, body, u, Normal, d);
    }
  }

  lemma {:induction false} AbsentTidiedRun(m: Rules, body: Block, unbind: Trace, t: Trace, o: Outcome, d: Event)
    requires AbsentBlock(body, d) && d !in unbind && RunTidied(m, body, unbind, t, o)
    ensures d !in t
    decreases body, 1
  {
    hide AbsentBlock, RunBlock;
    var u, v, o1 :| t == u + v && o1 != Normal && o1 != Cut && RunBlock(m, body, u, o1) && RunEvents(unbind, v, o, o1);
    AbsentRun(m, body, u, o1, d);
  }

  // ---- events of one try ----------------------------------------------

  /** `d` occurs in `k` only inside `s`, which is outside every `try` region. */
  predicate OnlyBlock(k: Block, s: Stmt, d: Event) {
    k.Cons? ==> OnlyStmt(k.head, s, d) && OnlyBlock(k.tail, s, d)
  }

  predicate OnlyStmt(k: Stmt, s: Stmt, d: Event) {
    || k == s
    || match k {
      case Simple(ev) => d !in ev
      case Return(ev) => d !in ev
      case Raise(ev) => d !in ev
      case Break => true
      case Continue => true
      case If(cond, body, alts) => d !in cond && OnlyBlock(body, s, d) && OnlyAlts(alts, s, d)
      case While(_, cond, body, orelse) => d !in cond && OnlyBlock(body, s, d) && OnlyBlock(orelse, s, d)
      case For(iterable, _, target, body, orelse) =>
        d !in iterable && d !in target && OnlyBlock(body, s, d) && OnlyBlock(orelse, s, d)
      case Try(body, handlers, orelse, final) =>
        && AbsentBlock(body, d) && OnlyBlock(final, s, d)
        && (if final.Cons? then AbsentHandlers(handlers, d) && AbsentBlock(orelse, d)
            else OnlyHandlers(handlers, s, d) && OnlyBlock(orelse, s, d))
    }
  }

  predicate OnlyAlts(a: Alts, s: Stmt, d: Event) {
    match a
    case NoElse => true
    case Else(body) => OnlyBlock(body, s, d)
    case Elif(cond, body, rest) => d !in cond && OnlyBlock(body, s, d) && OnlyAlts(rest, s, d)
  }

  predicate OnlyHandlers(h: Handlers, s: Stmt, d: Event) {
    h.Handler? ==> d !in h.header && OnlyBlock(h.body, s, d) && d !in h.unbind && OnlyHandlers(h.rest, s, d)
  }

  lemma {:induction false} OnlyLead(k: Block, s: Stmt, d: Event)
    requires s.Try? && OnlyBlock(k, s, d)
    ensures d !in Lead(k)
    decreases k
  {
    if k.Cons? {
      OnlyLead(k.tail, s, d);
    }
  }
}
