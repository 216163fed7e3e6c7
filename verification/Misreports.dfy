/** What the two reports get wrong about a `try` that spoils, and exactly when. */
module Misreports {
  import opened Cfg
  import opened Python
  import opened Queries
  import opened Endings
  import opened Occurring
  import opened Locating
  import opened Correctness
  import opened Agreement
  import opened Spoiling
  import opened Paths
  import opened Findings
  import opened EndToEnd

  /** All that the function does at the place of `e` is `e`. */
  ghost predicate OnlyAt(f: Function, e: Event) {
    forall e1: Event | e1.loc == e.loc && e1 != e :: AbsentBlock(f.body, e1)
  }

  lemma OnlyAtRun(m: Rules, f: Function, e: Event, t: Trace, i: nat)
    requires OnlyAt(f, e) && Run(m, f.body, t) && i < |t| && t[i].loc == e.loc
    ensures t[i] == e
  {
    hide RunBlock, AbsentBlock;
    if t[i] != e {
      var o :| RunBlock(m, f.body, t, o);
      AbsentRun(m, f.body, t, o, t[i]);
      assert false;
    }
  }

  /** A run makes `d` just when `s` can be reached and its body can complete. */
  ghost predicate Live(f: Function, s: Stmt)
    requires s.Try?
  {
    ReachedBlock(f.body, s) && EndsBlock(s.body, Normal)
  }

  lemma MadeIsLive(m: Rules, f: Function, s: Stmt, d: Event, h: Event, t: Trace, i: nat)
    requires !m.tidies && Told(s, d, h) && OnlyBlock(f.body, s, d) && Run(m, f.body, t) && i < |t| && t[i] == d
    ensures Live(f, s)
  {
    hide RunBlock, OnlyBlock, ReachedBlock, EndsBlock, Told, RunStmt, Opens;
    var o :| RunBlock(m, f.body, t, o);
    TriesAre(s, d, h);
    LocateBlock(m, f.body, s, d, t, o, i);
    var t0, u, o1, v :| LocatedAt(m, s, t, i, o, BlockCuts(m, f.body), t0, u, o1, v);
    MadeInTry(m, s, d, h, u, o1, i - |t0|);
  }

  lemma {:induction false} MadeInTry(m: Rules, s: Stmt, d: Event, h: Event, t: Trace, o: Outcome, i: nat)
    requires Told(s, d, h) && RunStmt(m, s, t, o) && i < |t| && t[i] == d
    ensures EndsBlock(s.body, Normal)
  {
    hide RunBlock, Throws, RunTail, RunHandlers, Lead, EndsBlock, EndsWith, AbsentHandlers, AbsentBlock, Handles, Spill;
    assert RunGuarded(m, s, t, o) && Outer(m, s.final) == m;
    if o != Normal && !o.Raised? && RunBlock(Inner(m), s.body, t, o) {
      BodyLast(Inner(m), s.body, t, o, d, i);
    } else if o == Raised(true) && Throws(Inner(m), s.body, Spill(m, s), t) {
      RunThrown(m, s, d, h, t, i);
    } else if exists t1, t2 :: t == t1 + t2 && RunBlock(Inner(m), s.body, t1, Normal) && RunTail(m, s.orelse, t2, o) {
      var t1, t2 :| t == t1 + t2 && RunBlock(Inner(m), s.body, t1, Normal) && RunTail(m, s.orelse, t2, o);
      RunEnds(Inner(m), s.body, t1, Normal);
    } else {
      var t1, t2 :| t == t1 + t2 && Throws(Inner(m), s.body, Spill(m, s), t1) && RunHandlers(m, s.handlers, t2, o);
      AbsentHandlersRun(m, s.handlers, t2, o, d);
      RunThrown(m, s, d, h, t1, i);
    }
  }

  lemma RunThrown(m: Rules, s: Stmt, d: Event, h: Event, t: Trace, i: nat)
    requires Told(s, d, h) && Throws(Inner(m), s.body, Spill(m, s), t) && i < |t| && t[i] == d
    ensures EndsBlock(s.body, Normal)
  {
    hide RunBlock, Lead, EndsBlock, EndsWith, AbsentHandlers, AbsentBlock, Handles, Spill;
    if ThrowsLate(Inner(m), s.body, Spill(m, s), t) {
      var u :| t == u + Spill(m, s) && RunBlock(Inner(m), s.body, u, Normal);
      RunEnds(Inner(m), s.body, u, Normal);
    } else {
      BodyLast(Inner(m), s.body, t, Raised(RunBlock(Inner(m), s.body, t, Raised(true))), d, i);
    }
  }

  /** As the function is lowered, too, a run makes `d`. */
  lemma MadeLowered(f: Function, s: Stmt, d: Event, h: Event) returns (t: Trace, i: nat)
    requires Told(s, d, h) && Live(f, s)
    ensures Run(LOWERED, f.body, t) && i < |t| && t[i] == d
  {
    hide RunBlock, ReachedBlock, EndsBlock, EndsWith, RunStmt, Lead;
    var t0 := ReachedRuns(LOWERED, f.body, s);
    var n := EndingRuns(WRITTEN, s.body, Normal);
    BodyDone(WRITTEN, s.body, n, d);
    BodyIsCut(s, n);
    t, i := t0 + n, |t0| + |n| - 1;
    assert RunBlock(LOWERED, f.body, t, Cut);
  }

  lemma BodyIsCut(s: Stmt, n: Trace)
    requires s.Try? && s.final.Nil? && RunBlock(WRITTEN, s.body, n, Normal)
    ensures RunStmt(LOWERED, s, n, Cut)
  {
    hide RunBlock, Throws, RunTail, RunHandlers;
    CutBlock(WRITTEN, s.body, n, Normal);
    assert RunGuarded(LOWERED, s, n, Cut);
    assert RunBody(LOWERED, s, n, Cut);
  }

  // ---- a store that is read -------------------------------------------

  /** The body of `s` ends with a reportable store, a handler starts by reading it, and
      the `else` leads with another definition. */
  ghost predicate StoreSpoiled(f: Function, s: Stmt, d: Event, h: Event) {
    && Told(s, d, h) && OnlyBlock(f.body, s, d) && OnlyAt(f, d)
    && Reportable(d) && h.local == d.local && h.kind.Use?
    && Lead(s.orelse)[0].local == d.local && Lead(s.orelse)[0].kind.Def?
  }

  lemma NotReadLowered(f: Function, s: Stmt, d: Event, h: Event, t: Trace, i: nat)
    requires StoreSpoiled(f, s, d, h) && Run(LOWERED, f.body, t) && i < |t| && t[i].loc == d.loc
    ensures t[i] == d && !ReadsFirst(t[i + 1..], d.local)
  {
    hide Run, OnlyBlock, Told, ReachedBlock, EndsBlock, AbsentBlock, Lead;
    OnlyAtRun(LOWERED, f, d, t, i);
    TriesAre(s, d, h);
    NextLowered(f.body, s, d, h, t, i);
  }

  /** Dead-store is wrong about such a store if and only if a run can make it: the store
      is read by a run, and reported all the same. */
  lemma SpoiledStore(f: Function, s: Stmt, d: Event, h: Event)
    requires Legal(f) && s.Try? && StoreSpoiled(f, s, d, h)
    ensures DeadAt(CfgOf(f), d.loc) <==> Live(f, s)
    ensures Live(f, s) ==> !NeverRead(WRITTEN, f, d.loc)
    ensures (DeadAt(CfgOf(f), d.loc) <==> NeverRead(WRITTEN, f, d.loc)) <==> !Live(f, s)
  {
    hide DeadAt, Legal, Told, OnlyBlock, ReachedBlock, EndsBlock, AbsentBlock, Run, Lead;
    DeadStoresExact(f, d.loc);
    if Live(f, s) {
      StoreMade(f, s, d, h);
      StoreRead(f, s, d, h);
    } else {
      forall m, t, i | m in {WRITTEN, LOWERED}
        ensures !StoreIn(m, f, d.loc, t, i)
      {
        if StoreIn(m, f, d.loc, t, i) {
          OnlyAtRun(m, f, d, t, i);
          MadeIsLive(m, f, s, d, h, t, i);
          assert false;
        }
      }
      assert !NeverRead(WRITTEN, f, d.loc) && !NeverRead(LOWERED, f, d.loc);
    }
  }

  lemma StoreMade(f: Function, s: Stmt, d: Event, h: Event)
    requires s.Try? && StoreSpoiled(f, s, d, h) && Live(f, s)
    ensures NeverRead(LOWERED, f, d.loc)
  {
    hide Told, OnlyBlock, ReachedBlock, EndsBlock, AbsentBlock, Run, Lead, OnlyAt, ReadsFirst, Live;
    var t, i := MadeLowered(f, s, d, h);
    assert StoreIn(LOWERED, f, d.loc, t, i);
    forall t, i
      ensures !ReadIn(LOWERED, f, d.loc, t, i)
    {
      if StoreIn(LOWERED, f, d.loc, t, i) {
        NotReadLowered(f, s, d, h, t, i);
      }
    }
  }

  lemma StoreRead(f: Function, s: Stmt, d: Event, h: Event)
    requires s.Try? && StoreSpoiled(f, s, d, h) && Live(f, s)
    ensures !NeverRead(WRITTEN, f, d.loc)
  {
    hide Told, OnlyBlock, ReachedBlock, EndsBlock, AbsentBlock, Run, Lead, OnlyAt;
    var t, i := NextWritten(f.body, s, d, h);
    assert t[i + 1..][0] == h;
    assert ReadIn(WRITTEN, f, d.loc, t, i);
  }

  // ---- a read that is unbound -----------------------------------------

  /** The body of `s` ends by deleting a parameter, which nothing else deletes; a handler
      starts by reading it, which nothing else does at that place; and the `else` leads
      with a definition. */
  ghost predicate ReadSpoiled(f: Function, s: Stmt, d: Event, h: Event) {
    && Told(s, d, h) && OnlyBlock(f.body, s, d) && OnlyAt(f, h)
    && d.local in f.params && d.kind.Kill? && h.local == d.local && h.kind == Use(true)
    && Lead(s.orelse)[0].local == d.local && (Lead(s.orelse)[0].kind.Def? || Lead(s.orelse)[0].kind.WeakDef?)
    && (forall e: Event | e.local == d.local && e.kind.Kill? && e != d :: AbsentBlock(f.body, e))
  }

  /** Every deletion of `x` in `t` is followed by a definition, if it is followed. */
  predicate Mended(t: Trace, x: nat) {
    forall i {:trigger t[i]} | 0 <= i < |t| - 1 && t[i].local == x && t[i].kind.Kill? ::
      t[i + 1].local == x && (t[i + 1].kind.Def? || t[i + 1].kind.WeakDef?)
  }

  lemma {:induction false} MendedBound(t: Trace, x: nat, n: nat)
    requires Mended(t, x) && n <= |t| && UnboundFrom(false, t[..n], x)
    ensures n > 0 && t[n - 1].local == x && t[n - 1].kind.Kill?
    decreases n
  {
    if n > 0 {
      assert t[..n][..n - 1] == t[..n - 1];
      var e := t[n - 1];
      if !(e.local == x && !e.kind.Use?) {
        MendedBound(t, x, n - 1);
        assert false;
      }
    }
  }

  lemma MendedLowered(f: Function, s: Stmt, d: Event, h: Event, t: Trace)
    requires ReadSpoiled(f, s, d, h) && Run(LOWERED, f.body, t)
    ensures Mended(t, d.local)
  {
    hide OnlyBlock, Told, ReachedBlock, EndsBlock, AbsentBlock, Lead, RunBlock;
    TriesAre(s, d, h);
    forall i {:trigger t[i]} | 0 <= i < |t| - 1 && t[i].local == d.local && t[i].kind.Kill?
      ensures t[i + 1].local == d.local && (t[i + 1].kind.Def? || t[i + 1].kind.WeakDef?)
    {
      if t[i] != d {
        var o :| RunBlock(LOWERED, f.body, t, o);
        AbsentRun(LOWERED, f.body, t, o, t[i]);
      }
      NextLowered(f.body, s, d, h, t, i);
    }
  }

  /** Read-before-init never reports such a read; a run makes it with the parameter
      deleted if and only if the deletion can be made at all. */
  lemma SpoiledRead(f: Function, s: Stmt, d: Event, h: Event)
    requires Legal(f) && s.Try? && ReadSpoiled(f, s, d, h)
    ensures !UnboundAt(CfgOf(f), h.loc)
    ensures ReadsUnbound(WRITTEN, f, h.loc) <==> Live(f, s)
  {
    hide UnboundAt, Legal, Told, OnlyBlock, ReachedBlock, EndsBlock, AbsentBlock, Run, Lead;
    UnboundReadsExact(f, h.loc);
    forall t, i
      ensures !UnboundRead(LOWERED, f, h.loc, t, i)
    {
      if UnboundRead(LOWERED, f, h.loc, t, i) {
        OnlyAtRun(LOWERED, f, h, t, i);
        MendedLowered(f, s, d, h, t);
        MendedBound(t, d.local, i);
        assert false;
      }
    }
    if Live(f, s) {
      var t, i := NextWritten(f.body, s, d, h);
      assert t[..i + 1][i] == d;
      assert UnboundRead(WRITTEN, f, h.loc, t, i + 1);
    }
    if t, i :| UnboundRead(WRITTEN, f, h.loc, t, i) {
      DeletedIsLive(f, s, d, h, t, i);
    }
  }

  lemma DeletedIsLive(f: Function, s: Stmt, d: Event, h: Event, t: Trace, i: nat)
    requires s.Try? && ReadSpoiled(f, s, d, h) && UnboundRead(WRITTEN, f, h.loc, t, i)
    ensures Live(f, s)
  {
    hide Told, OnlyBlock, ReachedBlock, EndsBlock, AbsentBlock, Lead, RunBlock, Live;
    OnlyAtRun(WRITTEN, f, h, t, i);
    var j := LastDeletion(t[..i], d.local);
    if t[j] != d {
      var o :| RunBlock(WRITTEN, f.body, t, o);
      AbsentRun(WRITTEN, f.body, t, o, t[j]);
    }
    MadeIsLive(WRITTEN, f, s, d, h, t, j);
  }

  lemma {:induction false} LastDeletion(t: Trace, x: nat) returns (i: nat)
    requires UnboundFrom(false, t, x)
    ensures i < |t| && t[i].local == x && t[i].kind.Kill?
    decreases |t|
  {
    var e := t[|t| - 1];
    if e.local == x && !e.kind.Use? {
      i := |t| - 1;
    } else {
      i := LastDeletion(t[..|t| - 1], x);
    }
  }
}
