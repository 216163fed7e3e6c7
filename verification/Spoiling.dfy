/** What a `try` that spoils does to the runs of its function, and when a function is
    exact. */
module Spoiling {
  import opened Cfg
  import opened Python
  import opened Lower
  import opened Endings
  import opened Occurring
  import opened Locating
  import opened Correctness
  import opened Agreement

  // ---- harmless: no try that spoils is reached ------------------------

  lemma {:induction false} HarmlessBlockSafe(k: Block, s: Stmt)
    requires HarmlessBlock(k) && ReachedBlock(k, s) && s.Try?
    ensures !Spoils(s)
    decreases k
  {
    if ReachedStmt(k.head, s) {
      HarmlessStmtSafe(k.head, s);
    } else {
      HarmlessBlockSafe(k.tail, s);
    }
  }

  lemma {:induction false} HarmlessStmtSafe(k: Stmt, s: Stmt)
    requires HarmlessStmt(k) && ReachedStmt(k, s) && s.Try?
    ensures !Spoils(s)
    decreases k
  {
    hide HarmlessBlock, ReachedBlock, HarmlessAlts, ReachedAlts, HarmlessHandlers, ReachedHandlers, EndsBlock, Repeats, Lead;
    if k != s {
      match k
      case If(_, body, alts) =>
        if ReachedBlock(body, s) {
          HarmlessBlockSafe(body, s);
        } else {
          HarmlessAltsSafe(alts, s);
        }
      case While(_, _, body, orelse) => HarmlessBlockSafe(if ReachedBlock(body, s) then body else orelse, s);
      case For(_, _, _, body, orelse) => HarmlessBlockSafe(if ReachedBlock(body, s) then body else orelse, s);
      case Try(_, handlers, orelse, final) =>
        if final.Cons? {
          HarmlessBlockSafe(final, s);
        } else if ReachedHandlers(handlers, s) {
          HarmlessHandlersSafe(handlers, s);
        } else {
          HarmlessBlockSafe(orelse, s);
        }
    }
  }

  lemma {:induction false} HarmlessAltsSafe(a: Alts, s: Stmt)
    requires HarmlessAlts(a) && ReachedAlts(a, s) && s.Try?
    ensures !Spoils(s)
    decreases a
  {
    if ReachedBlock(a.body, s) {
      HarmlessBlockSafe(a.body, s);
    } else {
      HarmlessAltsSafe(a.rest, s);
    }
  }

  lemma {:induction false} HarmlessHandlersSafe(h: Handlers, s: Stmt)
    requires HarmlessHandlers(h) && ReachedHandlers(h, s) && s.Try?
    ensures !Spoils(s)
    decreases h
  {
    if ReachedBlock(h.body, s) {
      HarmlessBlockSafe(h.body, s);
    } else {
      HarmlessHandlersSafe(h.rest, s);
    }
  }

  lemma {:induction false} HarmInBlock(k: Block) returns (s: Stmt)
    requires !HarmlessBlock(k)
    ensures ReachedBlock(k, s) && s.Try? && Spoils(s)
    decreases k
  {
    if !HarmlessStmt(k.head) {
      s := HarmInStmt(k.head);
    } else {
      s := HarmInBlock(k.tail);
    }
  }

  lemma {:induction false} HarmInStmt(k: Stmt) returns (s: Stmt)
    requires !HarmlessStmt(k)
    ensures ReachedStmt(k, s) && s.Try? && Spoils(s)
    decreases k
  {
    hide HarmlessBlock, ReachedBlock, HarmlessAlts, ReachedAlts, HarmlessHandlers, ReachedHandlers, EndsBlock, Repeats, Lead;
    match k
    case If(_, body, alts) =>
      if !HarmlessBlock(body) {
        s := HarmInBlock(body);
      } else {
        s := HarmInAlts(alts);
      }
    case While(_, _, body, orelse) => s := HarmInBlock(if HarmlessBlock(body) then orelse else body);
    case For(_, _, _, body, orelse) => s := HarmInBlock(if HarmlessBlock(body) then orelse else body);
    case Try(_, handlers, orelse, final) =>
      if !HarmlessBlock(final) {
        FinalIsCons(final);
        s := HarmInBlock(final);
      } else if Spoils(k) {
        s := k;
      } else if !HarmlessHandlers(handlers) {
        s := HarmInHandlers(handlers);
      } else {
        s := HarmInBlock(orelse);
      }
  }

  lemma FinalIsCons(final: Block)
    requires !HarmlessBlock(final)
    ensures final.Cons?
  {
  }

  lemma {:induction false} HarmInAlts(a: Alts) returns (s: Stmt)
    requires !HarmlessAlts(a)
    ensures ReachedAlts(a, s) && s.Try? && Spoils(s)
    decreases a
  {
    if !HarmlessBlock(a.body) {
      s := HarmInBlock(a.body);
    } else {
      s := HarmInAlts(a.rest);
    }
  }

  lemma {:induction false} HarmInHandlers(h: Handlers) returns (s: Stmt)
    requires !HarmlessHandlers(h)
    ensures ReachedHandlers(h, s) && s.Try? && Spoils(s)
    decreases h
  {
    if !HarmlessBlock(h.body) {
      s := HarmInBlock(h.body);
    } else {
      s := HarmInHandlers(h.rest);
    }
  }

  /** Harmless means that no `try` that spoils can be reached. */
  lemma HarmlessIff(body: Block)
    ensures Harmless(body) <==> forall s | ReachedBlock(body, s) && s.Try? :: !Spoils(s)
  {
    hide HarmlessBlock, ReachedBlock, Spoils;
    if Harmless(body) {
      forall s | ReachedBlock(body, s) && s.Try?
        ensures !Spoils(s)
      {
        HarmlessBlockSafe(body, s);
      }
    } else {
      var s := HarmInBlock(body);
    }
  }

  // ---- what a body throws ---------------------------------------------

  /** Outside every `try` region the graph has a body throw what it throws as it is
      written, if and only if the `try` does not spoil: its `else` leads with nothing, or
      its body never completes. */
  lemma ThrownIff(s: Stmt)
    requires s.Try? && s.final.Nil? && (Lead(s.orelse) == [] || AbsentBlock(s.body, Lead(s.orelse)[0]))
    ensures (forall t :: Throws(WRITTEN, s.body, Spill(LOWERED, s), t) <==> Throws(WRITTEN, s.body, Spill(WRITTEN, s), t)) <==> !Spoils(s)
  {
    hide RunBlock, EndsBlock, Lead, Throws, AbsentBlock;
    if Spoils(s) {
      var n := EndingRuns(WRITTEN, s.body, Normal);
      var t := n + Lead(s.orelse);
      ThrowsSpilled(s, n);
      assert t[|n|] == Lead(s.orelse)[0];
      if Throws(WRITTEN, s.body, [], t) {
        AbsentThrow(WRITTEN, s.body, [], t, Lead(s.orelse)[0]);
        assert false;
      }
    } else {
      forall t
        ensures Throws(WRITTEN, s.body, Spill(LOWERED, s), t) <==> Throws(WRITTEN, s.body, Spill(WRITTEN, s), t)
      {
        if Throws(WRITTEN, s.body, Spill(LOWERED, s), t) {
          SameThrows(LOWERED, WRITTEN, s, t);
        }
        if Throws(WRITTEN, s.body, Spill(WRITTEN, s), t) {
          SameThrows(WRITTEN, LOWERED, s, t);
        }
      }
    }
  }

  lemma ThrowsSpilled(s: Stmt, n: Trace)
    requires s.Try? && s.final.Nil? && RunBlock(WRITTEN, s.body, n, Normal)
    ensures Throws(WRITTEN, s.body, Spill(LOWERED, s), n + Lead(s.orelse))
    ensures Throws(WRITTEN, s.body, Spill(WRITTEN, s), n)
  {
    hide RunBlock, Lead;
    assert ThrowsLate(WRITTEN, s.body, Lead(s.orelse), n + Lead(s.orelse));
    assert n == n + [] && ThrowsLate(WRITTEN, s.body, [], n);
  }

  // ---- telling a try apart --------------------------------------------

  /** `k` ends in a simple statement that makes `d` last, and `d` is nowhere else in it. */
  predicate EndsWith(k: Block, d: Event) {
    k.Cons? &&
    if k.tail.Nil? then k.head.Simple? && |k.head.events| > 0 && LastOnly(k.head.events, d)
    else AbsentStmt(k.head, d) && EndsWith(k.tail, d)
  }

  predicate LastOnly(ev: Trace, d: Event)
    requires |ev| > 0
  {
    ev[|ev| - 1] == d && d !in ev[..|ev| - 1]
  }

  /** What some handler makes first, `h` being the first event. */
  ghost predicate Handles(h: Handlers, e: Event) {
    h.Handler? && (FirstOf(h.header + Lead(h.body), e) || Handles(h.rest, e))
  }

  predicate FirstOf(ev: Trace, e: Event) {
    |ev| > 0 && ev[0] == e
  }

  /** `s` makes `d` at the end of its body and nowhere else, one of its handlers starts
      with `h`, and its `else` leads with something else. */
  ghost predicate Told(s: Stmt, d: Event, h: Event) {
    && s.Try? && s.final.Nil? && Lead(s.orelse) != [] && h != Lead(s.orelse)[0]
    && EndsWith(s.body, d) && AbsentHandlers(s.handlers, d) && AbsentBlock(s.orelse, d) && Handles(s.handlers, h)
  }

  lemma {:induction false} BodyLast(m: Rules, k: Block, t: Trace, o: Outcome, d: Event, i: nat)
    requires EndsWith(k, d) && RunBlock(m, k, t, o) && i < |t| && t[i] == d
    ensures i == |t| - 1 && (o == Normal || o == Cut) && EndsBlock(k, Normal)
    decreases k
  {
    hide RunStmt, EndsStmt, AbsentStmt, LastOnly;
    var s, r := k.head, k.tail;
    if r.Nil? {
      BodyLastStmt(m, k, t, o, d, i);
    } else if o != Normal && RunStmt(m, s, t, o) {
      AbsentStmtRun(m, s, t, o, d);
    } else {
      var t1, t2 :| t == t1 + t2 && RunStmt(m, s, t1, Normal) && RunBlock(m, r, t2, o);
      AbsentStmtRun(m, s, t1, Normal, d);
      RunStmtEnds(m, s, t1, Normal);
      BodyLast(m, r, t2, o, d, i - |t1|);
    }
  }

  lemma BodyLastStmt(m: Rules, k: Block, t: Trace, o: Outcome, d: Event, i: nat)
    requires EndsWith(k, d) && k.tail.Nil? && RunBlock(m, k, t, o) && i < |t| && t[i] == d
    ensures i == |t| - 1 && (o == Normal || o == Cut) && EndsBlock(k, Normal)
  {
    hide RunStmt;
    var ev := k.head.events;
    LastOnlyAt(ev, d);
    assert EndsBody(k.head, Normal) && EndsStmt(k.head, Normal);
    assert EndsBlock(k.tail, Normal);
    if o != Normal && RunStmt(m, k.head, t, o) {
      SimpleRun(m, k.head, t, o);
    } else {
      var t1, t2 :| t == t1 + t2 && RunStmt(m, k.head, t1, Normal) && RunBlock(m, k.tail, t2, o);
      SimpleRun(m, k.head, t1, Normal);
    }
  }

  lemma LastOnlyAt(ev: Trace, d: Event)
    requires |ev| > 0 && LastOnly(ev, d)
    ensures forall j | 0 <= j < |ev| - 1 :: ev[j] != d
  {
    forall j | 0 <= j < |ev| - 1
      ensures ev[j] != d
    {
      assert ev[j] in ev[..|ev| - 1];
    }
  }

  lemma SimpleRun(m: Rules, s: Stmt, t: Trace, o: Outcome)
    requires s.Simple? && RunStmt(m, s, t, o)
    ensures t <= s.events && (o == Normal ==> t == s.events) && (o == Normal || o == Cut || t == [])
  {
  }

  lemma {:induction false} BodyDone(m: Rules, k: Block, t: Trace, d: Event)
    requires EndsWith(k, d) && RunBlock(m, k, t, Normal)
    ensures |t| > 0 && t[|t| - 1] == d
    decreases k
  {
    hide RunStmt, AbsentStmt;
    var t1, t2 :| t == t1 + t2 && RunStmt(m, k.head, t1, Normal) && RunBlock(m, k.tail, t2, Normal);
    if k.tail.Nil? {
      SimpleDone(m, k.head, t1);
    } else {
      BodyDone(m, k.tail, t2, d);
    }
  }

  lemma SimpleDone(m: Rules, s: Stmt, t: Trace)
    requires s.Simple? && RunStmt(m, s, t, Normal)
    ensures t == s.events
  {
  }

  /** A run of a block that leads with events makes the first of them, or stops. */
  lemma {:induction false} LeadsFirst(m: Rules, k: Block, t: Trace, o: Outcome)
    requires Lead(k) != [] && RunBlock(m, k, t, o)
    ensures if t == [] then Stops(o) else t[0] == Lead(k)[0]
    decreases k
  {
    hide RunStmt, Lead, LeadStmt;
    LeadIs(k);
    var s, r := k.head, k.tail;
    if o != Normal && RunStmt(m, s, t, o) {
      LeadsFirstStmt(m, s, t, o);
    } else {
      var t1, t2 :| t == t1 + t2 && RunStmt(m, s, t1, Normal) && RunBlock(m, r, t2, o);
      LeadsFirstStmt(m, s, t1, Normal);
      if LeadStmt(s) == [] {
        SimpleLead(m, s, t1);
        LeadsFirst(m, r, t2, o);
      }
    }
  }

  lemma SimpleLead(m: Rules, s: Stmt, t: Trace)
    requires s.Simple? && LeadStmt(s) == [] && RunStmt(m, s, t, Normal)
    ensures t == []
  {
  }

  lemma LeadsFirstStmt(m: Rules, s: Stmt, t: Trace, o: Outcome)
    requires RunStmt(m, s, t, o)
    ensures LeadStmt(s) != [] ==> if t == [] then Stops(o) else t[0] == LeadStmt(s)[0]
    ensures s.Simple? && LeadStmt(s) == [] ==> t == [] && (o == Normal || Stops(o))
  {
    hide RunBlock, RunAlts;
    match s
    case If(cond, body, alts) =>
      if RunBody(m, s, t, o) && !RunEvents(cond, t, o, Cut) {
        var u :| t == cond + u && (RunBlock(m, body, u, o) || RunAlts(m, alts, u, o));
      }
    case For(_, _, _, _, _) => ForStarts(m, s, t, o);
    case _ =>
  }

  lemma ForStarts(m: Rules, s: Stmt, t: Trace, o: Outcome)
    requires s.For? && RunStmt(m, s, t, o)
    ensures s.iterable <= t || (t <= s.iterable && Stops(o))
  {
    hide RunBlock, RunTurns, RunLastTurn;
    if RunBody(m, s, t, o) && !RunEvents(s.iterable, t, o, Cut) {
      ForRest(m, s, t, o);
    }
  }

  lemma ForRest(m: Rules, s: Stmt, t: Trace, o: Outcome)
    requires s.For? && RunBody(m, s, t, o) && !RunEvents(s.iterable, t, o, Cut)
    ensures s.iterable <= t
  {
    hide RunBlock, RunTurns, RunLastTurn;
    var n: nat, t1, t2 :| t == s.iterable + t1 + t2 && RunTurns(m, s.target, s.body, t1, n) &&
      (RunLastTurn(m, s.target, s.body, t2, o) || ((s.nonEmpty ==> n > 0) && RunBlock(m, s.orelse, t2, o)));
    assert t == s.iterable + (t1 + t2);
  }

  /** As it is lowered, a `try` that can be told apart follows `d` by the event its `else`
      leads with, if anything follows at all. */
  lemma {:induction false} NextInTry(s: Stmt, d: Event, h: Event, t: Trace, o: Outcome, i: nat)
    requires Told(s, d, h) && RunStmt(LOWERED, s, t, o) && i < |t| && t[i] == d
    ensures if i + 1 < |t| then t[i + 1] == Lead(s.orelse)[0] else Stops(o)
    ensures EndsBlock(s.body, Normal)
  {
    hide RunBlock, Throws, RunTail, RunHandlers, Lead, EndsBlock, EndsWith, AbsentHandlers, AbsentBlock, Handles;
    assert RunGuarded(LOWERED, s, t, o);
    if o != Normal && !o.Raised? && RunBlock(WRITTEN, s.body, t, o) {
      BodyLast(WRITTEN, s.body, t, o, d, i);
    } else if o == Raised(true) && Throws(WRITTEN, s.body, Lead(s.orelse), t) {
      NextThrown(s, d, h, t, i);
    } else if exists t1, t2 :: t == t1 + t2 && RunBlock(WRITTEN, s.body, t1, Normal) && RunTail(LOWERED, s.orelse, t2, o) {
      var t1, t2 :| t == t1 + t2 && RunBlock(WRITTEN, s.body, t1, Normal) && RunTail(LOWERED, s.orelse, t2, o);
      AbsentTailRun(LOWERED, s.orelse, t2, o, d);
      BodyLast(WRITTEN, s.body, t1, Normal, d, i);
      RunTailIs(LOWERED, s.orelse, t2, o);
      LeadsFirst(LOWERED, s.orelse, t2, if RunBlock(LOWERED, s.orelse, t2, o) then o else Normal);
    } else {
      var t1, t2 :| t == t1 + t2 && Throws(WRITTEN, s.body, Lead(s.orelse), t1) && RunHandlers(LOWERED, s.handlers, t2, o);
      AbsentHandlersRun(LOWERED, s.handlers, t2, o, d);
      NextThrown(s, d, h, t1, i);
    }
  }

  lemma NextThrown(s: Stmt, d: Event, h: Event, t: Trace, i: nat)
    requires Told(s, d, h) && Throws(WRITTEN, s.body, Lead(s.orelse), t) && i < |t| && t[i] == d
    ensures i + 1 < |t| && t[i + 1] == Lead(s.orelse)[0] && EndsBlock(s.body, Normal)
  {
    hide RunBlock, Lead, EndsBlock, EndsWith, AbsentHandlers, AbsentBlock, Handles;
    if ThrowsLate(WRITTEN, s.body, Lead(s.orelse), t) {
      var u :| t == u + Lead(s.orelse) && RunBlock(WRITTEN, s.body, u, Normal);
      AbsentLead(s.orelse, d);
      BodyLast(WRITTEN, s.body, u, Normal, d, i);
    } else {
      BodyLast(WRITTEN, s.body, t, Raised(RunBlock(WRITTEN, s.body, t, Raised(true))), d, i);
    }
  }

  /** As the function is lowered, `d` is never followed by what a handler starts with. */
  lemma NextLowered(body: Block, s: Stmt, d: Event, h: Event, t: Trace, i: nat)
    requires Told(s, d, h) && OnlyBlock(body, s, d) && Run(LOWERED, body, t) && i < |t| && t[i] == d
    ensures i + 1 < |t| ==> t[i + 1] == Lead(s.orelse)[0]
    ensures ReachedBlock(body, s) && EndsBlock(s.body, Normal)
  {
    hide RunBlock, OnlyBlock, ReachedBlock, EndsBlock, Told, RunStmt, Opens, Lead;
    var o :| RunBlock(LOWERED, body, t, o);
    TriesAre(s, d, h);
    LocateBlock(LOWERED, body, s, d, t, o, i);
    var t0, u, o1, v :| LocatedAt(LOWERED, s, t, i, o, BlockCuts(LOWERED, body), t0, u, o1, v);
    NextInTry(s, d, h, u, o1, i - |t0|);
  }

  lemma TriesAre(s: Stmt, d: Event, h: Event)
    requires Told(s, d, h)
    ensures s.Try? && s.final.Nil? && Lead(s.orelse) != [] && h != Lead(s.orelse)[0]
  {
  }

  // ---- as it is written, a handler can follow -------------------------

  lemma {:induction false} HandlesRuns(m: Rules, hs: Handlers, e: Event) returns (t: Trace)
    requires Handles(hs, e)
    ensures RunHandlers(m, hs, t, Cut) && FirstOf(t, e)
    decreases hs
  {
    hide RunBlock, RunHandled, Lead;
    if FirstOf(hs.header + Lead(hs.body), e) {
      t := hs.header + Lead(hs.body);
      SpillRuns(m, hs.body, Lead(hs.body));
      assert RunHandled(m, hs.body, hs.unbind, Lead(hs.body), Cut) by {
        CutIsHandled(m, hs.body, hs.unbind, Lead(hs.body));
      }
      assert RunHandler(m, hs.header, hs.body, hs.unbind, t, Cut);
    } else {
      t := HandlesRuns(m, hs.rest, e);
    }
  }

  lemma CutIsHandled(m: Rules, body: Block, unbind: Trace, t: Trace)
    requires RunBlock(m, body, t, Cut)
    ensures RunHandled(m, body, unbind, t, Cut)
  {
    hide RunBlock;
  }

  /** The run that does all of the body, raises at its end and goes on in a handler. */
  lemma RaisesLate(m: Rules, s: Stmt, d: Event, h: Event) returns (t: Trace, i: nat)
    requires !m.spills && Told(s, d, h) && EndsBlock(s.body, Normal)
    ensures RunStmt(m, s, t, Cut) && i + 1 < |t| && t[i] == d && t[i + 1] == h
  {
    hide RunBlock, Throws, RunTail, RunHandlers, Lead, EndsBlock, EndsWith, AbsentHandlers, AbsentBlock, Handles;
    var n := EndingRuns(Inner(m), s.body, Normal);
    BodyDone(Inner(m), s.body, n, d);
    var u := HandlesRuns(m, s.handlers, h);
    assert Throws(Inner(m), s.body, [], n) by {
      ThrowsAtEnd(Inner(m), s.body, n);
    }
    t, i := n + u, |n| - 1;
    assert RunGuarded(m, s, t, Cut);
    assert RunBody(m, s, t, Cut);
  }

  lemma ThrowsAtEnd(m: Rules, body: Block, n: Trace)
    requires RunBlock(m, body, n, Normal)
    ensures Throws(m, body, [], n)
  {
    hide RunBlock;
    assert n == n + [] && ThrowsLate(m, body, [], n);
  }

  /** As the function is written, `d` can be followed by what a handler starts with. */
  lemma NextWritten(body: Block, s: Stmt, d: Event, h: Event) returns (t: Trace, i: nat)
    requires Told(s, d, h) && ReachedBlock(body, s) && EndsBlock(s.body, Normal)
    ensures Run(WRITTEN, body, t) && i + 1 < |t| && t[i] == d && t[i + 1] == h
  {
    hide RunBlock, RunStmt, ReachedBlock, EndsBlock, Told;
    var t0 := ReachedRuns(WRITTEN, body, s);
    var u, j := RaisesLate(WRITTEN, s, d, h);
    assert RunBlock(WRITTEN, body, t0 + u, Cut);
    t, i := t0 + u, |t0| + j;
  }

  // ---- when a function is exact ---------------------------------------

  /** Every `try` of `body` that spoils and can be reached can be told apart. */
  ghost predicate Tellable(body: Block) {
    forall s | ReachedBlock(body, s) && s.Try? && Spoils(s) :: ToldIn(body, s)
  }

  ghost predicate ToldIn(body: Block, s: Stmt) {
    exists d, h :: Told(s, d, h) && OnlyBlock(body, s, d)
  }

  /** The graph spells just the runs of the function as it is written, if and only if the
      function is harmless. */
  lemma ExactIff(body: Block)
    requires LegalBlock(body) && Tellable(body)
    ensures (forall t :: Spells(Build(body), t) <==> Run(WRITTEN, body, t)) <==> Harmless(body)
  {
    hide Spells, Build, Run, LegalBlock, ReachedBlock, Spoils, Harmless, Told, OnlyBlock;
    if Harmless(body) {
      forall t
        ensures Spells(Build(body), t) <==> Run(WRITTEN, body, t)
      {
        SpellsRuns(body, t);
        HarmlessSameRuns(body, t);
      }
    } else {
      HarmlessIff(body);
      var s :| ReachedBlock(body, s) && s.Try? && Spoils(s);
      assert ToldIn(body, s);
      var d, h :| Told(s, d, h) && OnlyBlock(body, s, d);
      SpoilsEnds(s);
      var t, i := NextWritten(body, s, d, h);
      TriesAre(s, d, h);
      if Spells(Build(body), t) {
        SpellsRuns(body, t);
        NextLowered(body, s, d, h, t, i);
        assert false;
      }
      assert Run(WRITTEN, body, t) && !Spells(Build(body), t);
    }
  }

  lemma SpoilsEnds(s: Stmt)
    requires s.Try? && Spoils(s)
    ensures EndsBlock(s.body, Normal)
  {
  }
}
