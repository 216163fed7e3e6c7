/** What arrives at the handlers of a `try`: what its body throws, as the graph has it. */
module Entries {
  import opened Wrappers
  import opened Cfg
  import opened Python
  import opened Lower
  import opened Growth
  import opened Outcomes
  import opened Simulation
  import opened Exactness
  import opened Correctness
  import opened Endings
  import opened Agreement
  import opened Occurring
  import opened Spoiling

  function Append(k: Block, k': Block): Block {
    match k
    case Nil => k'
    case Cons(s, r) => Cons(s, Append(r, k'))
  }

  lemma {:induction false} LowerAppend(b: State, k: Block, k': Block)
    requires b.cur < |b.g|
    ensures LowerBlock(b, Append(k, k')) == LowerBlock(LowerBlock(b, k), k')
    decreases k
  {
    hide LowerStmt;
    if k.Cons? {
      LowerAppend(LowerStmt(b, k.head), k.tail, k');
    }
  }

  lemma {:induction false} LegalAppend(k: Block, k': Block)
    ensures LegalBlock(Append(k, k')) <==> LegalBlock(k) && LegalBlock(k')
    decreases k
  {
    hide LegalStmt;
    if k.Cons? {
      LegalAppend(k.tail, k');
    }
  }

  /** A run of `k` that goes no further, or one of `k'` after it. */
  lemma {:induction false} RunAppend(m: Rules, k: Block, k': Block, t: Trace, o: Outcome, t': Trace, o': Outcome)
    requires RunBlock(m, k, t, o)
    ensures o != Normal ==> RunBlock(m, Append(k, k'), t, o)
    ensures o == Normal && RunBlock(m, k', t', o') ==> RunBlock(m, Append(k, k'), t + t', o')
    decreases k
  {
    hide RunStmt;
    match k
    case Nil =>
      assert t + t' == t';
      CutAtOnce(m, k');
    case Cons(s, r) =>
      if o != Normal && RunStmt(m, s, t, o) {
      } else {
        var t1, t2 :| t == t1 + t2 && RunStmt(m, s, t1, Normal) && RunBlock(m, r, t2, o);
        RunAppend(m, r, k', t2, o, t', o');
        Assoc(t1, t2, t');
      }
  }

  lemma AppendRuns(m: Rules, k: Block, k': Block)
    ensures Sequel(BlockRuns(m, k), BlockRuns(m, k'), BlockRuns(m, Append(k, k')))
    ensures forall u, o | (u, o) in BlockRuns(m, k) && o != Normal :: (u, o) in BlockRuns(m, Append(k, k'))
  {
    hide RunBlock;
    forall u1, u2, o
      ensures SequelOne(BlockRuns(m, k), BlockRuns(m, k'), BlockRuns(m, Append(k, k')), u1, u2, o)
    {
      if RunBlock(m, k, u1, Normal) {
        RunAppend(m, k, k', u1, Normal, u2, o);
      }
    }
    forall u, o | (u, o) in BlockRuns(m, k) && o != Normal
      ensures (u, o) in BlockRuns(m, Append(k, k'))
    {
      RunAppend(m, k, k', u, o, [], Normal);
    }
  }

  /** The function whose statement after `k` is `s`. */
  function Around(k: Block, s: Stmt, k': Block): Block {
    Append(k, Cons(s, k'))
  }

  function Before(k: Block): State {
    LowerBlock(START, k)
  }

  /** The block of handler `i` of `s`, in the graph of `Around(k, s, k')`. */
  function Entry(k: Block, s: Stmt, i: nat): nat
    requires s.Try?
  {
    FirstHandler(Before(k), s) + i
  }

  /** `t` is what a run has spelled when it has come to `s` and its body throws. */
  ghost predicate Raises(k: Block, s: Stmt, spill: Trace, t: Trace)
    requires s.Try?
  {
    exists t0, u :: t == t0 + u && RunBlock(LOWERED, k, t0, Normal) && Throws(WRITTEN, s.body, spill, u)
  }

  lemma BeforeOk(k: Block)
    requires LegalBlock(k)
    ensures StateOk(Before(k)) && !InTry(Before(k)) && Before(k).g[Before(k).cur].succs == []
  {
    hide LowerBlock, LegalBlock;
    StartOk();
    GrownBlock(START, k);
  }

  lemma StmtOutside(b: State, s: Stmt)
    requires b.cur < |b.g| && s.Try? && !InTry(b)
    ensures LowerStmt(b, s) == LowerTry(b, s)
  {
    hide LowerTry;
  }

  // ---- what arrives is thrown -----------------------------------------

  lemma {:induction false} EntriesExact(k: Block, s: Stmt, k': Block) returns (arr: Arrivals)
    requires s.Try? && LegalBlock(Around(k, s, k'))
    ensures Closed(arr, Observed(LOWERED, Around(k, s, k')), Build(Around(k, s, k'))) && (ENTRY, []) in arr
    ensures HandlersGet(Before(k), s, arr, After(iset{[]}, BlockRuns(LOWERED, k)))
  {
    hide LowerBlock, LowerTry, RunBlock, LegalBlock, Goes, After, HandlersGet;
    var body, rest, b := Around(k, s, k'), Cons(s, k'), Before(k);
    var seen, start, none := Observed(LOWERED, body), Arriving(ENTRY, iset{[]}) + Arriving(EXIT, Exits(LOWERED, body)), iset{[]};
    LegalAppend(k, rest);
    LegalCons(s, k');
    StartOk();
    StartClosed(body, start);
    StartEnds(start);
    StartGoes(body, start);
    AppendRuns(LOWERED, k, rest);
    GoesSub(start, seen, [], [EXIT], none, BlockRuns(LOWERED, body), start, none, BlockRuns(LOWERED, k));
    var arr1 := ExactBlock(START, k, start, seen, none);
    BeforeOk(k);
    GoesThen(start, seen, [], [EXIT], none, BlockRuns(LOWERED, body), arr1, BlockRuns(LOWERED, k), BlockRuns(LOWERED, rest));
    AfterThen(none, BlockRuns(LOWERED, body), BlockRuns(LOWERED, k), BlockRuns(LOWERED, rest));
    var arr2 := EntriesThrough(b, s, k', arr1, seen, After(none, BlockRuns(LOWERED, k)));
    LowerAppend(START, k, rest);
    var r := LowerBlock(b, rest);
    EndsInMore(r, arr2, After(After(none, BlockRuns(LOWERED, k)), BlockRuns(LOWERED, rest)), After(none, BlockRuns(LOWERED, body)));
    ExitArrives(body, r, start, arr2, seen);
    arr := arr2;
  }

  lemma LegalCons(s: Stmt, k: Block)
    ensures LegalBlock(Cons(s, k)) <==> LegalStmt(s) && LegalBlock(k)
  {
    hide LegalStmt;
  }

  lemma StartEnds(start: Arrivals)
    requires forall u | (ENTRY, u) in start :: u == []
    ensures EndsIn(START, start, iset{[]})
  {
    forall t | At(START, start, t)
      ensures t in iset{[]}
    {
      var u :| (ENTRY, u) in start && t == u + START.g[ENTRY].events;
      assert t == u;
    }
  }

  lemma ExitArrives(body: Block, r: State, start: Arrivals, arr: Arrivals, seen: iset<Trace>)
    requires r == LowerBlock(START, body) && Closed(arr, seen, r.g) && start <= arr
    requires EndsIn(r, arr, After(iset{[]}, BlockRuns(LOWERED, body))) && Arriving(EXIT, Exits(LOWERED, body)) <= start
    ensures Closed(arr, seen, Build(body))
  {
    hide LowerBlock, RunBlock;
    forall t | At(r, arr, t)
      ensures (EXIT, t) in arr
    {
      var t1, t2 :| t1 in iset{[]} && (t2, Normal) in BlockRuns(LOWERED, body) && t == t1 + t2;
      assert t == t2 && Exiting(LOWERED, body, t);
    }
    ClosedLink(r, EXIT, arr, seen);
  }

  /** Through `s` and what follows it. */
  lemma {:induction false} EntriesThrough(b: State, s: Stmt, k: Block, arr: Arrivals, seen: iset<Trace>, before: iset<Trace>) returns (arr2: Arrivals)
    requires StateOk(b) && !InTry(b) && b.g[b.cur].succs == [] && s.Try? && LegalStmt(s) && LegalBlock(k)
    requires Closed(arr, seen, b.g) && EndsIn(b, arr, before)
    requires Goes(arr, seen, b.frames, b.raiseTo, before, BlockRuns(LOWERED, Cons(s, k)))
    ensures Extended(b, arr, LowerBlock(b, Cons(s, k)), arr2, seen)
    ensures EndsIn(LowerBlock(b, Cons(s, k)), arr2, After(before, BlockRuns(LOWERED, Cons(s, k))))
    ensures HandlersGet(b, s, arr2, before)
  {
    hide LowerTry, RunBody, RunBlock, LegalStmt, LegalBlock, Goes, After, HandlersGet;
    var all := BlockRuns(LOWERED, Cons(s, k));
    StmtOutside(b, s);
    TryIsBody(s, k);
    GoesSub(arr, seen, b.frames, b.raiseTo, before, all, arr, before, BodyRuns(LOWERED, s));
    var arr1 := ExactTry(b, s, arr, seen, before);
    var b1 := LowerTry(b, s);
    GrownTry(b, s);
    GoesThen(arr, seen, b.frames, b.raiseTo, before, all, arr1, BodyRuns(LOWERED, s), BlockRuns(LOWERED, k));
    AfterThen(before, all, BodyRuns(LOWERED, s), BlockRuns(LOWERED, k));
    arr2 := ExactBlock(b1, k, arr1, seen, After(before, BodyRuns(LOWERED, s)));
    EndsInMore(LowerBlock(b1, k), arr2, After(After(before, BodyRuns(LOWERED, s)), BlockRuns(LOWERED, k)), After(before, all));
    TryBelow(b, s);
    HandlersGetKept(b, s, arr1, before, arr2, |b1.g|);
    OldKeptTrans(arr, arr1, |b1.g|, arr2, |b.g|);
  }

  lemma TryIsBody(s: Stmt, k: Block)
    ensures forall u, o | (u, o) in BodyRuns(LOWERED, s) && o != Normal :: (u, o) in BlockRuns(LOWERED, Cons(s, k))
    ensures Sequel(BodyRuns(LOWERED, s), BlockRuns(LOWERED, k), BlockRuns(LOWERED, Cons(s, k)))
  {
    hide RunBody;
    forall u, o | (u, o) in BodyRuns(LOWERED, s) && o != Normal
      ensures (u, o) in BlockRuns(LOWERED, Cons(s, k))
    {
      assert RunStmt(LOWERED, s, u, o);
    }
    forall u1, u2, o
      ensures SequelOne(BodyRuns(LOWERED, s), BlockRuns(LOWERED, k), BlockRuns(LOWERED, Cons(s, k)), u1, u2, o)
    {
      if RunBody(LOWERED, s, u1, Normal) {
        assert RunStmt(LOWERED, s, u1, Normal);
      }
    }
  }

  lemma TryBelow(b: State, s: Stmt)
    requires StateOk(b) && s.Try? && LegalStmt(s)
    ensures FirstHandler(b, s) + HandlerCount(s.handlers) <= |LowerTry(b, s).g|
  {
    hide LowerBlock, Join, LowerReraise, LegalStmt;
    HandlersBelow(b, s);
  }

  // ---- what is thrown arrives -----------------------------------------

  lemma EntriesReached(k: Block, s: Stmt, k': Block, t0: Trace, u: Trace, i: nat)
    requires s.Try? && LegalBlock(Around(k, s, k')) && i < HandlerCount(s.handlers)
    requires RunBlock(LOWERED, k, t0, Normal) && Throws(WRITTEN, s.body, Spill(LOWERED, s), u)
    ensures Reaches(Build(Around(k, s, k')), t0 + u, Entry(k, s, i))
  {
    hide LowerBlock, LowerTry, RunBlock, Throws, LegalBlock, LegalStmt, Reaches, Spill, Build, Walks, Spelled, Closed;
    var body, b := Around(k, s, k'), Before(k);
    var gf := Build(body);
    var arr, seen := Walks(gf), Spelled(gf);
    LegalAppend(k, Cons(s, k'));
    LegalCons(s, k');
    StartReady(body);
    LowerAppend(START, k, Cons(s, k'));
    EntriesFinal(k, s, k', gf, arr, seen);
    SimBlock(START, k, gf, arr, seen, [], t0, Normal);
    assert [] + t0 == t0;
    BeforeOk(k);
    SimEntries(b, s, gf, arr, seen, t0, u);
    ArrivesReaches(gf, t0 + u, Entry(k, s, i));
  }

  lemma ArrivesReaches(g: Graph, t: Trace, c: nat)
    requires (c, t) in Walks(g)
    ensures Reaches(g, t, c)
  {
    hide Reaches;
  }

  lemma EntriesFinal(k: Block, s: Stmt, k': Block, gf: Graph, arr: Arrivals, seen: iset<Trace>)
    requires s.Try? && LegalBlock(k) && LegalStmt(s) && LegalBlock(k')
    requires Final(LowerBlock(Before(k), Cons(s, k')).g, gf, arr, seen)
    ensures Final(Before(k).g, gf, arr, seen) && Final(LowerTry(Before(k), s).g, gf, arr, seen)
  {
    hide LowerTry, LegalBlock, LegalStmt;
    var b := Before(k);
    BeforeOk(k);
    StmtOutside(b, s);
    GrownTry(b, s);
    var b1 := LowerTry(b, s);
    GrownBlock(b1, k');
    FinalTrans(b1.g, b1.cur, b1.cur + 1, LowerBlock(b1, k').g, gf, arr, seen);
    FinalTrans(b.g, b.cur, b.cur + 1, b1.g, gf, arr, seen);
  }

  /** A handler of a `try` is reached by exactly what a run has spelled when it comes to
      the `try` and its body throws, an exception at the end being seen after what the
      `else` leads with, unless a `finally` guards it. */
  lemma EntriesAreThrows(k: Block, s: Stmt, k': Block, t: Trace, i: nat)
    requires s.Try? && LegalBlock(Around(k, s, k')) && i < HandlerCount(s.handlers)
    ensures Reaches(Build(Around(k, s, k')), t, Entry(k, s, i)) <==> Raises(k, s, Spill(LOWERED, s), t)
  {
    hide LowerBlock, RunBlock, Throws, LegalBlock, Reaches, Build, Spill;
    var g := Build(Around(k, s, k'));
    if Raises(k, s, Spill(LOWERED, s), t) {
      var t0, u :| t == t0 + u && RunBlock(LOWERED, k, t0, Normal) && Throws(WRITTEN, s.body, Spill(LOWERED, s), u);
      EntriesReached(k, s, k', t0, u, i);
    }
    if Reaches(g, t, Entry(k, s, i)) {
      var arr := EntriesExact(k, s, k');
      ClosedReaches(g, arr, Observed(LOWERED, Around(k, s, k')), t, Entry(k, s, i));
      LegalAppend(k, Cons(s, k'));
      BeforeOk(k);
      EntryRaises(k, s, arr, t, i);
    }
  }

  lemma EntryRaises(k: Block, s: Stmt, arr: Arrivals, t: Trace, i: nat)
    requires s.Try? && i < HandlerCount(s.handlers) && !InTry(Before(k)) && (Entry(k, s, i), t) in arr
    requires HandlersGet(Before(k), s, arr, After(iset{[]}, BlockRuns(LOWERED, k)))
    ensures Raises(k, s, Spill(LOWERED, s), t)
  {
    hide LowerBlock, RunBlock, Throws, Spill;
    assert t in After(After(iset{[]}, BlockRuns(LOWERED, k)), ThrowRuns(LOWERED, s));
    var t1, u :| t1 in After(iset{[]}, BlockRuns(LOWERED, k)) && (u, Normal) in ThrowRuns(LOWERED, s) && t == t1 + u;
    var t2, t0 :| t2 in iset{[]} && (t0, Normal) in BlockRuns(LOWERED, k) && t1 == t2 + t0;
    assert t1 == t0;
  }

  /** The handlers are reached by exactly what the body throws as it is written, if and
      only if the `try` does not spoil or nothing comes to it. */
  lemma EntriesIff(k: Block, s: Stmt, k': Block)
    requires s.Try? && s.handlers.Handler? && LegalBlock(Around(k, s, k'))
    requires Lead(s.orelse) != [] ==> AbsentBlock(k, Lead(s.orelse)[0]) && AbsentBlock(s.body, Lead(s.orelse)[0])
    ensures (forall t, i: nat | i < HandlerCount(s.handlers) ::
              Reaches(Build(Around(k, s, k')), t, Entry(k, s, i)) <==> Raises(k, s, [], t))
      <==> !(EndsBlock(k, Normal) && Spoils(s))
  {
    hide RunBlock, Throws, LegalBlock, Reaches, Build, EndsBlock, AbsentBlock, Entry, Lead, Raises, Spill, Around;
    if EndsBlock(k, Normal) && Spoils(s) {
      var t := SpilledEntry(k, s);
      EntriesAreThrows(k, s, k', t, 0);
      assert 0 < HandlerCount(s.handlers);
    } else {
      forall t, i: nat | i < HandlerCount(s.handlers)
        ensures Reaches(Build(Around(k, s, k')), t, Entry(k, s, i)) <==> Raises(k, s, [], t)
      {
        EntriesAreThrows(k, s, k', t, i);
        SameRaises(k, s, t);
      }
    }
  }

  lemma SpilledEntry(k: Block, s: Stmt) returns (t: Trace)
    requires s.Try? && EndsBlock(k, Normal) && Spoils(s)
    requires AbsentBlock(k, Lead(s.orelse)[0]) && AbsentBlock(s.body, Lead(s.orelse)[0])
    ensures Raises(k, s, Spill(LOWERED, s), t) && !Raises(k, s, [], t)
  {
    hide RunBlock, Throws, EndsBlock, AbsentBlock, Lead;
    var t0 := EndingRuns(LOWERED, k, Normal);
    var n := EndingRuns(WRITTEN, s.body, Normal);
    ThrowsSpilled(s, n);
    t := t0 + (n + Lead(s.orelse));
    assert t[|t0| + |n|] == Lead(s.orelse)[0];
    if Raises(k, s, [], t) {
      var t1, u :| t == t1 + u && RunBlock(LOWERED, k, t1, Normal) && Throws(WRITTEN, s.body, [], u);
      AbsentRun(LOWERED, k, t1, Normal, Lead(s.orelse)[0]);
      AbsentThrow(WRITTEN, s.body, [], u, Lead(s.orelse)[0]);
      assert false;
    }
  }

  lemma SameRaises(k: Block, s: Stmt, t: Trace)
    requires s.Try? && !(EndsBlock(k, Normal) && Spoils(s))
    ensures Raises(k, s, Spill(LOWERED, s), t) <==> Raises(k, s, [], t)
  {
    hide RunBlock, Throws, EndsBlock, Spoils;
    if t0, u :| t == t0 + u && RunBlock(LOWERED, k, t0, Normal) && Throws(WRITTEN, s.body, Spill(LOWERED, s), u) {
      RunEnds(LOWERED, k, t0, Normal);
      SameThrows(LOWERED, WRITTEN, s, u);
    }
    if t0, u :| t == t0 + u && RunBlock(LOWERED, k, t0, Normal) && Throws(WRITTEN, s.body, [], u) {
      RunEnds(LOWERED, k, t0, Normal);
      SameThrows(WRITTEN, LOWERED, s, u);
    }
  }
}
