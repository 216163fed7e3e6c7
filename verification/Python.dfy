/** The Python statements the analyser lowers, and what their runs may do. */
module Python {
  import opened Cfg

  // A simple statement is the list of events it makes on local variables. Runs are
  // nondeterministic: a condition may go either way, an iterable may end at any point,
  // and an exception may start before any statement and at the end of a `try` body, of
  // its `else` and of a handler. An absent `else` or `finally` clause is the empty block,
  // since the grammar has no empty clause.

  datatype Block = Nil | Cons(head: Stmt, tail: Block)

  datatype Stmt =
    | Simple(events: Trace)
    | Return(events: Trace)
    | Raise(events: Trace)
    | Break
    | Continue
    | If(cond: Trace, body: Block, alts: Alts)
    | While(always: bool, cond: Trace, body: Block, orelse: Block)
    | For(iterable: Trace, nonEmpty: bool, target: Trace, body: Block, orelse: Block)
    | Try(body: Block, handlers: Handlers, orelse: Block, final: Block)

  datatype Alts = NoElse | Else(body: Block) | Elif(cond: Trace, body: Block, rest: Alts)

  /** `header` is the exception expression and the binding of the alias; `unbind` is
      the implicit deletion of the alias when the handler body completes. */
  datatype Handlers = NoHandler | Handler(header: Trace, body: Block, unbind: Trace, rest: Handlers)

  /** How a run ends. `Raised(false)` is an exception that has started implicitly and
      has not left a `try` body or a `finally` yet; `Raised(true)` is one from a `raise`
      statement, or one that no handler caught or that a `finally` raised again. `Cut`
      is a run observed only part of the way. */
  datatype Outcome = Normal | Broke | Continued | Returned | Raised(explicit: bool) | Cut

  /** What runs obey. If `spills`, an exception that starts at the end of a `try` body
      which no `finally` and no `try` region guards is seen only after the events its
      `else` leads with: that is what the graph makes of it. If `tidies`, a handler
      unbinds its alias however it is left, and otherwise only when it completes. */
  datatype Rules = Rules(spills: bool, tidies: bool)

  /** Functions as they are written, as they are lowered, and as they are written but
      with the alias of a handler unbound on every way out. */
  const WRITTEN: Rules := Rules(false, false)
  const LOWERED: Rules := Rules(true, false)
  const TIDY: Rules := Rules(false, true)

  /** The rules in a `try` body, which is a region of its own. */
  function Inner(m: Rules): Rules {
    m.(spills := false)
  }

  /** The rules in an `else` and in handlers, to which a `finally` is a region. */
  function Outer(m: Rules, final: Block): Rules {
    if final.Cons? then Inner(m) else m
  }

  /** What comes between the end of the body of `s` and an exception there. */
  function Spill(m: Rules, s: Stmt): Trace
    requires s.Try?
  {
    if Outer(m, s.final).spills then Lead(s.orelse) else []
  }

  // ---- sizes ----------------------------------------------------------

  function BlockSize(k: Block): nat {
    match k
    case Nil => 0
    case Cons(s, r) => 1 + StmtSize(s) + BlockSize(r)
  }

  function StmtSize(s: Stmt): nat {
    match s
    case Simple(_) => 1
    case Return(_) => 1
    case Raise(_) => 1
    case Break => 1
    case Continue => 1
    case If(_, body, alts) => 2 + BlockSize(body) + AltsSize(alts)
    case While(_, _, body, orelse) => 2 + BlockSize(body) + BlockSize(orelse)
    case For(_, _, _, body, orelse) => 2 + BlockSize(body) + BlockSize(orelse)
    case Try(body, handlers, orelse, final) =>
      4 + BlockSize(body) + HandlersSize(handlers) + BlockSize(orelse) + BlockSize(final)
  }

  function AltsSize(a: Alts): nat {
    match a
    case NoElse => 0
    case Else(body) => 1 + BlockSize(body)
    case Elif(_, body, rest) => 1 + BlockSize(body) + AltsSize(rest)
  }

  function HandlersSize(h: Handlers): nat {
    match h
    case NoHandler => 0
    case Handler(_, body, _, rest) => 1 + BlockSize(body) + HandlersSize(rest)
  }

  function HandlerCount(h: Handlers): nat {
    match h
    case NoHandler => 0
    case Handler(_, _, _, rest) => 1 + HandlerCount(rest)
  }

  // ---- runs -----------------------------------------------------------

  /** `t` is spelled by a run of the statements of `k` that ends as `o`. */
  ghost predicate RunBlock(m: Rules, k: Block, t: Trace, o: Outcome)
    decreases k, 0
  {
    match k
    case Nil => t == [] && (o == Normal || o == Cut)
    case Cons(s, r) =>
      || (o != Normal && RunStmt(m, s, t, o))
      || (exists t1, t2 :: t == t1 + t2 && RunStmt(m, s, t1, Normal) && RunBlock(m, r, t2, o))
  }

  ghost predicate RunStmt(m: Rules, s: Stmt, t: Trace, o: Outcome)
    decreases s, 2
  {
    || (t == [] && (o == Raised(false) || o == Cut))
    || RunBody(m, s, t, o)
  }

  /** What a statement does once no exception has started before it. */
  ghost predicate RunBody(m: Rules, s: Stmt, t: Trace, o: Outcome)
    decreases s, 1
  {
    match s
    case Simple(ev) => RunEvents(ev, t, o, Normal)
    case Return(ev) => RunEvents(ev, t, o, Returned)
    case Raise(ev) => RunEvents(ev, t, o, Raised(true))
    case Break => t == [] && o == Broke
    case Continue => t == [] && o == Continued
    case If(cond, body, alts) =>
      || RunEvents(cond, t, o, Cut)
      || (exists u :: t == cond + u && (RunBlock(m, body, u, o) || RunAlts(m, alts, u, o)))
    case While(always, cond, body, orelse) =>
      exists n: nat, t1, t2 :: t == t1 + t2 && RunTurns(m, cond, body, t1, n) &&
        (RunLastTurn(m, cond, body, t2, o) ||
         (!always && exists u :: t2 == cond + u && RunBlock(m, orelse, u, o)))
    case For(iterable, nonEmpty, target, body, orelse) =>
      || RunEvents(iterable, t, o, Cut)
      || (exists n: nat, t1, t2 :: t == iterable + t1 + t2 && RunTurns(m, target, body, t1, n) &&
           (RunLastTurn(m, target, body, t2, o) ||
            ((nonEmpty ==> n > 0) && RunBlock(m, orelse, t2, o))))
    case Try(body, handlers, orelse, final) =>
      if final.Nil? then RunGuarded(m, s, t, o)
      else
        || (o == Cut && RunGuarded(m, s, t, Cut))
        || (exists t1, t2, o1, o2 :: t == t1 + t2 && o1 != Cut && o == AfterFinally(o1, o2) &&
             RunGuarded(m, s, t1, o1) && RunBlock(m, final, t2, o2))
  }

  /** All of `ev`, ending as `o1`, or part of it. */
  ghost predicate RunEvents(ev: Trace, t: Trace, o: Outcome, o1: Outcome) {
    (t == ev && o == o1) || (t <= ev && o == Cut)
  }

  ghost predicate RunAlts(m: Rules, a: Alts, t: Trace, o: Outcome)
    decreases a, 0
  {
    match a
    case NoElse => t == [] && (o == Normal || o == Cut)
    case Else(body) => RunBlock(m, body, t, o)
    case Elif(cond, body, rest) =>
      || RunEvents(cond, t, o, Cut)
      || (exists u :: t == cond + u && (RunBlock(m, body, u, o) || RunAlts(m, rest, u, o)))
  }

  /** `n` turns of a loop, each completed normally or by `continue`. */
  ghost predicate RunTurns(m: Rules, pre: Trace, body: Block, t: Trace, n: nat)
    decreases body, 2, n
  {
    if n == 0 then t == []
    else exists t1, t2 :: t == t1 + (pre + t2) && RunTurns(m, pre, body, t1, n - 1) && Completes(m, body, t2)
  }

  ghost predicate Completes(m: Rules, body: Block, t: Trace)
    decreases body, 1
  {
    RunBlock(m, body, t, Normal) || RunBlock(m, body, t, Continued)
  }

  /** A turn that leaves the loop from inside: by `break`, which ends the loop
      statement normally, or by `return`, an exception or the cut. */
  ghost predicate RunLastTurn(m: Rules, pre: Trace, body: Block, t: Trace, o: Outcome)
    decreases body, 1
  {
    || RunEvents(pre, t, o, Cut)
    || (exists u :: t == pre + u && o == Normal && RunBlock(m, body, u, Broke))
    || (exists u :: t == pre + u && o != Normal && o != Broke && o != Continued && RunBlock(m, body, u, o))
  }

  /** A `try` up to its `finally`: the body, then its `else` or the handler that
      catches what the body raised. */
  ghost predicate RunGuarded(m: Rules, s: Stmt, t: Trace, o: Outcome)
    requires s.Try?
    decreases s, 0
  {
    || (o != Normal && !o.Raised? && RunBlock(Inner(m), s.body, t, o))
    || (o == Raised(true) && Throws(Inner(m), s.body, Spill(m, s), t))
    || (exists t1, t2 :: t == t1 + t2 && RunBlock(Inner(m), s.body, t1, Normal) && RunTail(Outer(m, s.final), s.orelse, t2, o))
    || (exists t1, t2 :: t == t1 + t2 && Throws(Inner(m), s.body, Spill(m, s), t1) && RunHandlers(Outer(m, s.final), s.handlers, t2, o))
  }

  /** An exception leaves `body`, at the latest when its last statement is done; one
      that starts only then is seen after `spill`. */
  ghost predicate Throws(m: Rules, body: Block, spill: Trace, t: Trace)
    decreases body, 2
  {
    RunBlock(m, body, t, Raised(true)) || RunBlock(m, body, t, Raised(false)) || ThrowsLate(m, body, spill, t)
  }

  ghost predicate ThrowsLate(m: Rules, body: Block, spill: Trace, t: Trace)
    decreases body, 1
  {
    exists u :: t == u + spill && RunBlock(m, body, u, Normal)
  }

  /** `k`, where an exception may also start at its end. */
  ghost predicate RunTail(m: Rules, k: Block, t: Trace, o: Outcome)
    decreases k, 1
  {
    RunBlock(m, k, t, o) || (o == Raised(false) && RunBlock(m, k, t, Normal))
  }

  ghost predicate RunHandlers(m: Rules, h: Handlers, t: Trace, o: Outcome)
    decreases h
  {
    h.Handler? && (RunHandler(m, h.header, h.body, h.unbind, t, o) || RunHandlers(m, h.rest, t, o))
  }

  ghost predicate RunHandler(m: Rules, header: Trace, body: Block, unbind: Trace, t: Trace, o: Outcome)
    decreases body, 3
  {
    || RunEvents(header, t, o, Cut)
    || (exists u :: t == header + u && RunHandled(m, body, unbind, u, o))
  }

  /** A handler body, after which the alias is unbound and an exception may start. */
  ghost predicate RunHandled(m: Rules, body: Block, unbind: Trace, t: Trace, o: Outcome)
    decreases body, 2
  {
    || (o != Normal && (m.tidies ==> o == Cut) && RunBlock(m, body, t, o))
    || (exists u, v :: t == u + v && RunBlock(m, body, u, Normal) &&
         (RunEvents(unbind, v, o, Normal) || (v == unbind && o == Raised(false))))
    || (m.tidies && RunTidied(m, body, unbind, t, o))
  }

  /** A handler body left by a jump or an exception, the alias unbound on the way. */
  ghost predicate RunTidied(m: Rules, body: Block, unbind: Trace, t: Trace, o: Outcome)
    decreases body, 1
  {
    exists u, v, o1 :: t == u + v && o1 != Normal && o1 != Cut && RunBlock(m, body, u, o1) && RunEvents(unbind, v, o, o1)
  }

  /** A jump or an exception in `finally` replaces what was pending; otherwise the
      pending outcome goes on, an exception being raised again. */
  function AfterFinally(pending: Outcome, o: Outcome): Outcome {
    if o != Normal then o else if pending.Raised? then Raised(true) else pending
  }

  /** The outcomes with which a run of a whole function body reaches its exit; an
      implicit exception that no `try` region sees has no edge there. `break` and
      `continue` outside a loop are syntax errors; the builder sends them to the exit. */
  predicate Leaves(o: Outcome) {
    o != Cut && o != Raised(false)
  }

  // ---- what the builder is given --------------------------------------

  /** Every `try` has a handler or a `finally`. */
  predicate LegalBlock(k: Block) {
    k.Cons? ==> LegalStmt(k.head) && LegalBlock(k.tail)
  }

  predicate LegalStmt(s: Stmt) {
    match s
    case If(_, body, alts) => LegalBlock(body) && LegalAlts(alts)
    case While(_, _, body, orelse) => LegalBlock(body) && LegalBlock(orelse)
    case For(_, _, _, body, orelse) => LegalBlock(body) && LegalBlock(orelse)
    case Try(body, handlers, orelse, final) =>
      && (handlers.Handler? || final.Cons?)
      && LegalBlock(body) && LegalHandlers(handlers) && LegalBlock(orelse) && LegalBlock(final)
    case _ => true
  }

  predicate LegalAlts(a: Alts) {
    match a
    case NoElse => true
    case Else(body) => LegalBlock(body)
    case Elif(_, body, rest) => LegalBlock(body) && LegalAlts(rest)
  }

  predicate LegalHandlers(h: Handlers) {
    h.Handler? ==> LegalBlock(h.body) && LegalHandlers(h.rest)
  }

  /** The events a block makes before it needs a basic block of its own, when it is
      lowered outside every `try` region. */
  function Lead(k: Block): Trace {
    match k
    case Nil => []
    case Cons(s, r) => LeadStmt(s) + if s.Simple? then Lead(r) else []
  }

  function LeadStmt(s: Stmt): Trace {
    match s
    case Simple(ev) => ev
    case Return(ev) => ev
    case Raise(ev) => ev
    case If(cond, _, _) => cond
    case For(iterable, _, _, _, _) => iterable
    case _ => []
  }

  /** No `try` outside a `try` region has an `else` that makes events in the basic
      block its body ends in. A `finally` opens a region for its `else`. */
  predicate SealedBlock(k: Block, region: bool) {
    k.Cons? ==> SealedStmt(k.head, region) && SealedBlock(k.tail, region)
  }

  predicate SealedStmt(s: Stmt, region: bool) {
    match s
    case If(_, body, alts) => SealedBlock(body, region) && SealedAlts(alts, region)
    case While(_, _, body, orelse) => SealedBlock(body, region) && SealedBlock(orelse, region)
    case For(_, _, _, body, orelse) => SealedBlock(body, region) && SealedBlock(orelse, region)
    case Try(body, handlers, orelse, final) =>
      var outer := region || final.Cons?;
      && (outer || Lead(orelse) == [])
      && SealedBlock(body, outer || handlers.Handler?)
      && SealedHandlers(handlers, outer)
      && SealedBlock(orelse, outer)
      && SealedBlock(final, region)
    case _ => true
  }

  predicate SealedAlts(a: Alts, region: bool) {
    match a
    case NoElse => true
    case Else(body) => SealedBlock(body, region)
    case Elif(_, body, rest) => SealedBlock(body, region) && SealedAlts(rest, region)
  }

  predicate SealedHandlers(h: Handlers, region: bool) {
    h.Handler? ==> SealedBlock(h.body, region) && SealedHandlers(h.rest, region)
  }

  predicate Sealed(body: Block) {
    SealedBlock(body, false)
  }

  // ---- the turns of a loop --------------------------------------------

  /** The condition of a `while` fails, and its `else` follows. */
  ghost predicate LeavesLoop(m: Rules, s: Stmt, t: Trace, o: Outcome)
    requires s.While?
  {
    exists u :: t == s.cond + u && RunBlock(m, s.orelse, u, o)
  }

  lemma SplitWhile(m: Rules, s: Stmt, t: Trace, o: Outcome) returns (n: nat, t1: Trace, t2: Trace)
    requires s.While? && RunBody(m, s, t, o)
    ensures t == t1 + t2 && RunTurns(m, s.cond, s.body, t1, n)
    ensures RunLastTurn(m, s.cond, s.body, t2, o) || (!s.always && LeavesLoop(m, s, t2, o))
  {
    hide RunBlock, RunTurns, RunLastTurn;
    n, t1, t2 :| t == t1 + t2 && RunTurns(m, s.cond, s.body, t1, n) &&
      (RunLastTurn(m, s.cond, s.body, t2, o) || (!s.always && exists u :: t2 == s.cond + u && RunBlock(m, s.orelse, u, o)));
  }

  lemma JoinWhile(m: Rules, s: Stmt, n: nat, t1: Trace, t2: Trace, o: Outcome)
    requires s.While? && RunTurns(m, s.cond, s.body, t1, n)
    requires RunLastTurn(m, s.cond, s.body, t2, o) || (!s.always && LeavesLoop(m, s, t2, o))
    ensures RunBody(m, s, t1 + t2, o)
  {
    hide RunBlock, RunTurns, RunLastTurn;
  }

  lemma SplitFor(m: Rules, s: Stmt, t: Trace, o: Outcome) returns (n: nat, t1: Trace, t2: Trace)
    requires s.For? && RunBody(m, s, t, o) && !RunEvents(s.iterable, t, o, Cut)
    ensures t == s.iterable + t1 + t2 && RunTurns(m, s.target, s.body, t1, n)
    ensures RunLastTurn(m, s.target, s.body, t2, o) || ((s.nonEmpty ==> n > 0) && RunBlock(m, s.orelse, t2, o))
  {
    hide RunBlock, RunTurns, RunLastTurn;
    n, t1, t2 :| t == s.iterable + t1 + t2 && RunTurns(m, s.target, s.body, t1, n) &&
      (RunLastTurn(m, s.target, s.body, t2, o) || ((s.nonEmpty ==> n > 0) && RunBlock(m, s.orelse, t2, o)));
  }

  lemma JoinFor(m: Rules, s: Stmt, n: nat, t1: Trace, t2: Trace, o: Outcome)
    requires s.For? && RunTurns(m, s.target, s.body, t1, n)
    requires RunLastTurn(m, s.target, s.body, t2, o) || ((s.nonEmpty ==> n > 0) && RunBlock(m, s.orelse, t2, o))
    ensures RunBody(m, s, s.iterable + t1 + t2, o)
  {
    hide RunBlock, RunTurns, RunLastTurn;
  }

  // ---- a run can be cut where it ends ---------------------------------

  lemma {:induction false} CutBlock(m: Rules, k: Block, t: Trace, o: Outcome)
    requires RunBlock(m, k, t, o)
    ensures RunBlock(m, k, t, Cut)
    decreases k, 0
  {
    match k
    case Nil =>
    case Cons(s, r) =>
      if o != Normal && RunStmt(m, s, t, o) {
        CutStmt(m, s, t, o);
      } else {
        var t1, t2 :| t == t1 + t2 && RunStmt(m, s, t1, Normal) && RunBlock(m, r, t2, o);
        CutBlock(m, r, t2, o);
      }
  }

  lemma {:induction false} CutStmt(m: Rules, s: Stmt, t: Trace, o: Outcome)
    requires RunStmt(m, s, t, o)
    ensures RunStmt(m, s, t, Cut)
    decreases s, 2
  {
    if RunBody(m, s, t, o) && !s.Break? && !s.Continue? {
      CutBody(m, s, t, o);
    }
  }

  lemma {:induction false} CutBody(m: Rules, s: Stmt, t: Trace, o: Outcome)
    requires RunBody(m, s, t, o) && !s.Break? && !s.Continue?
    ensures RunBody(m, s, t, Cut)
    decreases s, 1
  {
    hide RunBlock, RunStmt;
    match s
    case Simple(_) =>
    case Return(_) =>
    case Raise(_) =>
    case If(cond, body, alts) =>
      if !RunEvents(cond, t, o, Cut) {
        var u :| t == cond + u && (RunBlock(m, body, u, o) || RunAlts(m, alts, u, o));
        if RunBlock(m, body, u, o) {
          CutBlock(m, body, u, o);
        } else {
          CutAlts(m, alts, u, o);
        }
      }
    case While(_, _, _, _) => CutWhile(m, s, t, o);
    case For(_, _, _, _, _) => CutFor(m, s, t, o);
    case Try(_, _, _, final) =>
      if final.Nil? || (o == Cut && RunGuarded(m, s, t, Cut)) {
        CutGuarded(m, s, t, o);
      } else {
        var t1, t2, o1, o2 :| t == t1 + t2 && o1 != Cut && o == AfterFinally(o1, o2) &&
          RunGuarded(m, s, t1, o1) && RunBlock(m, final, t2, o2);
        CutBlock(m, final, t2, o2);
        assert AfterFinally(o1, Cut) == Cut;
      }
  }

  lemma {:induction false} CutWhile(m: Rules, s: Stmt, t: Trace, o: Outcome)
    requires s.While? && RunBody(m, s, t, o)
    ensures RunBody(m, s, t, Cut)
    decreases s, 0
  {
    hide RunBlock, RunStmt, RunTurns, RunLastTurn;
    var n: nat, t1, t2 :| t == t1 + t2 && RunTurns(m, s.cond, s.body, t1, n) &&
      (RunLastTurn(m, s.cond, s.body, t2, o) || (!s.always && exists u :: t2 == s.cond + u && RunBlock(m, s.orelse, u, o)));
    if RunLastTurn(m, s.cond, s.body, t2, o) {
      CutLastTurn(m, s.cond, s.body, t2, o);
    } else {
      var u :| t2 == s.cond + u && RunBlock(m, s.orelse, u, o);
      CutBlock(m, s.orelse, u, o);
    }
  }

  lemma {:induction false} CutFor(m: Rules, s: Stmt, t: Trace, o: Outcome)
    requires s.For? && RunBody(m, s, t, o)
    ensures RunBody(m, s, t, Cut)
    decreases s, 0
  {
    hide RunBlock, RunStmt, RunTurns, RunLastTurn;
    if !RunEvents(s.iterable, t, o, Cut) {
      var n: nat, t1, t2 :| t == s.iterable + t1 + t2 && RunTurns(m, s.target, s.body, t1, n) &&
        (RunLastTurn(m, s.target, s.body, t2, o) || ((s.nonEmpty ==> n > 0) && RunBlock(m, s.orelse, t2, o)));
      if RunLastTurn(m, s.target, s.body, t2, o) {
        CutLastTurn(m, s.target, s.body, t2, o);
      } else {
        CutBlock(m, s.orelse, t2, o);
      }
    }
  }

  lemma {:induction false} CutAlts(m: Rules, a: Alts, t: Trace, o: Outcome)
    requires RunAlts(m, a, t, o)
    ensures RunAlts(m, a, t, Cut)
    decreases a, 0
  {
    hide RunBlock;
    match a
    case NoElse =>
    case Else(body) => CutBlock(m, body, t, o);
    case Elif(cond, body, rest) =>
      if !RunEvents(cond, t, o, Cut) {
        var u :| t == cond + u && (RunBlock(m, body, u, o) || RunAlts(m, rest, u, o));
        if RunBlock(m, body, u, o) {
          CutBlock(m, body, u, o);
        } else {
          CutAlts(m, rest, u, o);
        }
      }
  }

  lemma {:induction false} CutLastTurn(m: Rules, pre: Trace, body: Block, t: Trace, o: Outcome)
    requires RunLastTurn(m, pre, body, t, o)
    ensures RunLastTurn(m, pre, body, t, Cut)
    decreases body, 1
  {
    hide RunBlock;
    if !RunEvents(pre, t, o, Cut) {
      var u, o1 :| t == pre + u && RunBlock(m, body, u, o1);
      CutBlock(m, body, u, o1);
    }
  }

  lemma {:induction false} CutGuarded(m: Rules, s: Stmt, t: Trace, o: Outcome)
    requires s.Try? && RunGuarded(m, s, t, o)
    ensures RunGuarded(m, s, t, Cut)
    decreases s, 0
  {
    hide RunBlock, RunHandlers, RunTail, Throws, Lead;
    if o != Normal && !o.Raised? && RunBlock(Inner(m), s.body, t, o) {
      CutBlock(Inner(m), s.body, t, o);
    } else if o == Raised(true) && Throws(Inner(m), s.body, Spill(m, s), t) {
      CutThrow(m, s, t);
    } else if exists t1, t2 :: t == t1 + t2 && RunBlock(Inner(m), s.body, t1, Normal) && RunTail(Outer(m, s.final), s.orelse, t2, o) {
      var t1, t2 :| t == t1 + t2 && RunBlock(Inner(m), s.body, t1, Normal) && RunTail(Outer(m, s.final), s.orelse, t2, o);
      CutTail(Outer(m, s.final), s.orelse, t2, o);
    } else {
      var t1, t2 :| t == t1 + t2 && Throws(Inner(m), s.body, Spill(m, s), t1) && RunHandlers(Outer(m, s.final), s.handlers, t2, o);
      CutHandlers(Outer(m, s.final), s.handlers, t2, o);
    }
  }

  /** What leaves a body as an exception can be observed: if it has spilled, as the
      start of the `else`. */
  lemma {:induction false} CutThrow(m: Rules, s: Stmt, t: Trace)
    requires s.Try? && Throws(Inner(m), s.body, Spill(m, s), t)
    ensures RunGuarded(m, s, t, Cut)
    decreases s.body, 2
  {
    hide RunBlock, RunHandlers, Lead;
    if ThrowsLate(Inner(m), s.body, Spill(m, s), t) {
      var u :| t == u + Spill(m, s) && RunBlock(Inner(m), s.body, u, Normal);
      SpillRuns(Outer(m, s.final), s.orelse, Spill(m, s));
      assert RunTail(Outer(m, s.final), s.orelse, Spill(m, s), Cut);
    } else {
      CutBlock(Inner(m), s.body, t, Raised(RunBlock(Inner(m), s.body, t, Raised(true))));
    }
  }

  lemma {:induction false} SpillRuns(m: Rules, k: Block, spill: Trace)
    requires spill == Lead(k) || spill == []
    ensures RunBlock(m, k, spill, Cut)
    decreases k
  {
    hide RunBody, RunStmt, Lead, LeadStmt;
    LeadIs(k);
    if k.Cons? {
      LeadStmtRuns(m, k.head);
      if spill == [] {
        CutAtStart(m, k.head);
      } else if k.head.Simple? {
        SpillRuns(m, k.tail, Lead(k.tail));
      } else {
        assert LeadStmt(k.head) + [] == LeadStmt(k.head);
      }
    }
  }

  lemma CutAtStart(m: Rules, s: Stmt)
    ensures RunStmt(m, s, [], Cut)
  {
    hide RunBody;
  }

  lemma LeadIs(k: Block)
    ensures k.Nil? ==> Lead(k) == []
    ensures k.Cons? ==> Lead(k) == LeadStmt(k.head) + if k.head.Simple? then Lead(k.tail) else []
  {
    hide LeadStmt;
  }

  lemma LeadStmtRuns(m: Rules, s: Stmt)
    ensures RunStmt(m, s, LeadStmt(s), Cut)
    ensures s.Simple? ==> RunStmt(m, s, LeadStmt(s), Normal)
  {
    hide RunBlock, RunAlts, RunTurns, RunLastTurn;
    match s
    case Simple(ev) => assert RunBody(m, s, ev, Normal) && RunBody(m, s, ev, Cut);
    case Return(ev) => assert RunBody(m, s, ev, Cut);
    case Raise(ev) => assert RunBody(m, s, ev, Cut);
    case If(cond, _, _) => assert RunBody(m, s, cond, Cut);
    case For(iterable, _, _, _, _) => assert RunBody(m, s, iterable, Cut);
    case _ =>
  }

  lemma {:induction false} CutTail(m: Rules, k: Block, t: Trace, o: Outcome)
    requires RunTail(m, k, t, o)
    ensures RunTail(m, k, t, Cut)
    decreases k, 1
  {
    hide RunBlock;
    CutBlock(m, k, t, if RunBlock(m, k, t, o) then o else Normal);
  }

  lemma {:induction false} CutHandlers(m: Rules, h: Handlers, t: Trace, o: Outcome)
    requires RunHandlers(m, h, t, o)
    ensures RunHandlers(m, h, t, Cut)
    decreases h
  {
    hide RunBlock, RunHandled;
    if RunHandler(m, h.header, h.body, h.unbind, t, o) {
      if !RunEvents(h.header, t, o, Cut) {
        var u :| t == h.header + u && RunHandled(m, h.body, h.unbind, u, o);
        CutHandled(m, h.body, h.unbind, u, o);
      }
    } else {
      CutHandlers(m, h.rest, t, o);
    }
  }

  lemma {:induction false} CutHandled(m: Rules, body: Block, unbind: Trace, t: Trace, o: Outcome)
    requires RunHandled(m, body, unbind, t, o)
    ensures RunHandled(m, body, unbind, t, Cut)
    decreases body, 1
  {
    hide RunBlock;
    if o != Normal && (m.tidies ==> o == Cut) && RunBlock(m, body, t, o) {
      CutBlock(m, body, t, o);
    } else if m.tidies && RunTidied(m, body, unbind, t, o) {
      CutTidied(m, body, unbind, t, o);
    }
  }

  lemma CutTidied(m: Rules, body: Block, unbind: Trace, t: Trace, o: Outcome)
    requires RunTidied(m, body, unbind, t, o)
    ensures RunTidied(m, body, unbind, t, Cut)
  {
    hide RunBlock;
    var u, v, o1 :| t == u + v && o1 != Normal && o1 != Cut && RunBlock(m, body, u, o1) && RunEvents(unbind, v, o, o1);
    assert RunEvents(unbind, v, Cut, o1);
  }
}
