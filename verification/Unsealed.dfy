/** Functions with an unguarded `try` whose `else` leads with events. */
module Unsealed {
  import opened Wrappers
  import opened Cfg
  import opened Python
  import opened Lower
  import opened Growth
  import opened Endings
  import opened Occurring
  import opened Locating
  import opened Agreement
  import opened Spoiling
  import opened Findings
  import opened EndToEnd
  import opened Misreports

  function One(e: Event): Block {
    Cons(Simple([e]), Nil)
  }

  /** `try: first` / `except: handled` / `else: next`, each one event. */
  function TryElse(first: Event, handled: Event, next: Event): Block {
    Cons(Try(One(first), Handler([], One(handled), [], NoHandler), One(next), Nil), Nil)
  }

  /** Block 4 ends the body and has the event of the `else` as well, though its edges to
      the handler, block 2, and to the exit were made before that. */
  function TryElseGraph(first: Event, handled: Event, next: Event): Graph {
    [ BasicBlock([], [3]), EMPTY,
      BasicBlock([handled], [5]), BasicBlock([], [2, 1, 4]),
      BasicBlock([first, next], [2, 1, 5]), BasicBlock([], [1]) ]
  }

  function TryElseStmt(first: Event, handled: Event, next: Event): Stmt {
    Try(One(first), Handler([], One(handled), [], NoHandler), One(next), Nil)
  }

  lemma Sums(first: Event, next: Event)
    ensures [] + [2] == [2] && [2] + [1] == [2, 1] && [2, 1] + [4] == [2, 1, 4] && [2, 1] + [5] == [2, 1, 5]
    ensures [] + [3] == [3] && [] + [5] == [5] && [] + [1] == [1]
    ensures [] + [first] == [first] && [first] + [next] == [first, next]
  {
  }

  lemma LinkTwo(g: Graph, a: nat, b: nat, c: nat)
    requires a < |g| && b < |g|
    ensures LinkFrom(g, [a, b], c) == Link(Link(g, a, c), b, c)
  {
    assert [a, b][..1] == [a] && [a][..0] == [];
    assert LinkFrom(g, [a], c) == Link(LinkFrom(g, [a][..0], c), a, c);
  }

  lemma LinkAllTwo(g: Graph, a: nat, c: nat, d: nat)
    requires a < |g|
    ensures LinkAll(g, a, [c, d]) == Link(Link(g, a, c), a, d)
  {
    assert [c, d][..1] == [c] && [c][..0] == [];
    assert LinkAll(g, a, [c]) == Link(LinkAll(g, a, [c][..0]), a, c);
  }

  const OPENED: Graph := [BasicBlock([], [3]), EMPTY, EMPTY, EMPTY]

  lemma TryOpened(s: Stmt)
    requires s.Try? && s.final.Nil? && HandlerCount(s.handlers) == 1
    ensures OpenTry(START, s) == State(OPENED, 3, [], [2, 1])
  {
    Sums(Event(0, Kill, 0), Event(0, Kill, 0));
    assert EntryIds(2, 1) == [2];
    var g := Grow(START.g, 2);
    assert g == [EMPTY, EMPTY, EMPTY, EMPTY];
    assert Link(g, 0, 3) == OPENED;
  }

  lemma BodyLowered(first: Event)
    ensures LowerBlock(State(OPENED, 3, [], [2, 1]), One(first)) ==
      State([BasicBlock([], [3]), EMPTY, EMPTY, BasicBlock([], [2, 1, 4]), BasicBlock([first], [])], 4, [], [2, 1])
  {
    var b0 := State(OPENED, 3, [], [2, 1]);
    Sums(first, first);
    LinkAllTwo(OPENED, 3, 2, 1);
    var g1 := Link(OPENED, 3, 2);
    assert g1 == OPENED[3 := BasicBlock([], [2])];
    var g2 := Link(g1, 3, 1);
    assert g2 == OPENED[3 := BasicBlock([], [2, 1])];
    var g3 := Link(Grow(g2, 1), 3, 4);
    assert g3 == [BasicBlock([], [3]), EMPTY, EMPTY, BasicBlock([], [2, 1, 4]), EMPTY];
    var p := State(g3, 4, [], [2, 1]);
    assert Prelude(b0) == p;
    OneLowered(b0, p, first);
    assert Emit(g3, 4, [first]) == g3[4 := BasicBlock([first], [])];
  }

  lemma OneLowered(b: State, p: State, e: Event)
    requires b.cur < |b.g| && Prelude(b) == p
    ensures p.cur < |p.g| && LowerBlock(b, One(e)) == p.(g := Emit(p.g, p.cur, [e]))
  {
    assert LowerStmt(b, Simple([e])) == LowerBody(p, Simple([e]));
    assert LowerBlock(b, One(e)) == LowerBlock(LowerStmt(b, Simple([e])), Nil);
  }

  lemma ElseLowered(first: Event, next: Event)
    ensures LowerElse(State(OPENED[3 := BasicBlock([], [2, 1, 4])] + [BasicBlock([first], [])], 4, [], [2, 1]), [1], One(next)) ==
      State(OPENED[3 := BasicBlock([], [2, 1, 4])] + [BasicBlock([first, next], [2, 1])], 4, [], [1])
  {
    var g := OPENED[3 := BasicBlock([], [2, 1, 4])] + [BasicBlock([first], [])];
    Sums(first, next);
    LinkAllTwo(g, 4, 2, 1);
    var g1 := Link(g, 4, 2);
    assert g1 == g[4 := BasicBlock([first], [2])];
    var g2 := Link(g1, 4, 1);
    assert g2 == g[4 := BasicBlock([first], [2, 1])];
    var p := State(g2, 4, [], [1]);
    OneLowered(p, p, next);
    var g3 := Emit(g2, 4, [next]);
    assert g3[4] == BasicBlock([first, next], [2, 1]);
    assert g3 == OPENED[3 := BasicBlock([], [2, 1, 4])] + [BasicBlock([first, next], [2, 1])];
  }

  lemma HandlerLowered(g: Graph, handled: Event)
    requires |g| == 5 && g[2] == EMPTY
    ensures LowerHandlers(State(g, 4, [], [1]), Handler([], One(handled), [], NoHandler), 2) ==
      (State(g[2 := BasicBlock([handled], [])], 2, [], [1]), [2])
  {
    var b := State(g, 4, [], [1]);
    Sums(handled, handled);
    assert g[2].events + [] == g[2].events;
    assert Emit(g, 2, []) == g;
    var p := State(g, 2, [], [1]);
    OneLowered(p, p, handled);
    var q := State(g[2 := BasicBlock([handled], [])], 2, [], [1]);
    assert Emit(g, 2, [handled]) == q.g;
    assert [handled] + [] == [handled];
    assert Emit(q.g, 2, []) == q.g;
    assert LowerHandler(b, [], One(handled), [], 2) == q;
    HandlersOne(b, q, [], One(handled), []);
  }

  lemma HandlersOne(b: State, q: State, header: Trace, body: Block, unbind: Trace)
    requires b.cur < |b.g| && 3 <= |b.g| && q == LowerHandler(b, header, body, unbind, 2)
    ensures LowerHandlers(b, Handler(header, body, unbind, NoHandler), 2) == (q, [2]) || q.cur != 2
  {
    hide LowerHandler;
    assert LowerHandlers(q, NoHandler, 3) == (q, []);
    assert [q.cur] + [] == [q.cur];
  }

  lemma TryElseBuilt(first: Event, handled: Event, next: Event)
    ensures Build(TryElse(first, handled, next)) == TryElseGraph(first, handled, next)
  {
    hide LowerHandlers, LowerElse, OpenTry, LowerBlock, LinkFrom;
    var s := TryElseStmt(first, handled, next);
    TryOpened(s);
    BodyLowered(first);
    ElseLowered(first, next);
    var g1 := OPENED[3 := BasicBlock([], [2, 1, 4])] + [BasicBlock([first], [])];
    assert g1 == [BasicBlock([], [3]), EMPTY, EMPTY, BasicBlock([], [2, 1, 4]), BasicBlock([first], [])];
    var g2 := OPENED[3 := BasicBlock([], [2, 1, 4])] + [BasicBlock([first, next], [2, 1])];
    HandlerLowered(g2, handled);
    var g3 := g2[2 := BasicBlock([handled], [])];
    assert [4] + [2] == [4, 2];
    assert TryBody(START, s) == State(g1, 4, [], [2, 1]) && Lower.TryElse(START, s) == State(g2, 4, [], [1]);
    assert LowerGuarded(START, s) == (State(g3, 2, [], [1]), [4, 2]);
    var g4 := Grow(g3, 1);
    LinkTwo(g4, 4, 2, 5);
    Sums(first, next);
    var g5 := Link(Link(g4, 4, 5), 2, 5);
    assert Link(g4, 4, 5) == g4[4 := BasicBlock([first, next], [2, 1, 5])];
    assert g5 == TryElseGraph(first, handled, next)[5 := EMPTY];
    var b5 := State(g5, 5, [], [1]);
    assert Join(START, s) == b5;
    OnlyStmt(s);
    assert Link(g5, 5, 1) == TryElseGraph(first, handled, next);
  }

  lemma OnlyStmt(s: Stmt)
    requires s.Try? && s.final.Nil?
    ensures LowerBlock(START, Cons(s, Nil)) == Join(START, s)
  {
    hide Join;
    assert LowerStmt(START, s) == LowerBody(START, s) == LowerTry(START, s);
    assert LowerBlock(START, Cons(s, Nil)) == LowerBlock(LowerStmt(START, s), Nil);
  }

  // ---- functions that spoil -------------------------------------------

  const X: nat := 0

  /** `try: del x` / `except: use(x)` / `else: x = 1`, with parameter `x`. */
  const MISSED: Function :=
    Function(1, [X], TryElse(Event(X, Kill, 10), Event(X, Use(true), 20), Event(X, Def(None), 30)))

  /** `try: x = 1` / `except: use(x)` / `else: x = 2`. */
  const FALSELY_DEAD: Function :=
    Function(1, [], TryElse(Event(X, Def(Some(DefReport(false))), 10), Event(X, Use(true), 20), Event(X, Def(None), 30)))

  /** The one `try` spoils, is reached, and can be told apart by its events. */
  lemma TryElseTold(first: Event, handled: Event, next: Event)
    requires first != handled && first != next && handled != next
    ensures var k, s := TryElse(first, handled, next), TryElseStmt(first, handled, next);
      && Told(s, first, handled) && OnlyBlock(k, s, first) && Lead(s.orelse) == [next]
      && ReachedBlock(k, s) && EndsBlock(s.body, Normal) && Spoils(s) && LegalBlock(k)
  {
    var s := TryElseStmt(first, handled, next);
    OneIs(first);
    OneIs(handled);
    OneIs(next);
    OneAbsent(first, handled);
    OneAbsent(first, next);
    assert [] + [handled] == [handled];
    assert Handles(s.handlers, handled) && LegalHandlers(s.handlers) && LegalStmt(s);
  }

  lemma OneIs(e: Event)
    ensures Lead(One(e)) == [e] && EndsWith(One(e), e) && EndsBlock(One(e), Normal) && LegalBlock(One(e))
  {
    assert Lead(One(e)) == [e] + Lead(Nil);
    assert [e][..0] == [];
    assert EndsStmt(Simple([e]), Normal);
  }

  lemma OneAbsent(d: Event, e: Event)
    requires d != e
    ensures AbsentBlock(One(e), d)
  {
  }

  lemma TryElseAbsent(first: Event, handled: Event, next: Event, e: Event)
    requires e != first && e != handled && e != next
    ensures AbsentBlock(TryElse(first, handled, next), e)
  {
    OneAbsent(e, first);
    OneAbsent(e, handled);
    OneAbsent(e, next);
    assert AbsentStmt(TryElseStmt(first, handled, next), e);
  }

  /** Read-before-init misses a read that a run makes of an unbound local. */
  lemma {:induction false} MissesRead()
    ensures Legal(MISSED) && !Harmless(MISSED.body)
    ensures ReadsUnbound(WRITTEN, MISSED, 20) && !UnboundAt(CfgOf(MISSED), 20)
  {
    hide ReadsUnbound, UnboundAt, HarmlessBlock, Told, OnlyBlock, ReachedBlock, EndsBlock, AbsentBlock, Lead;
    var kill, use, def := Event(X, Kill, 10), Event(X, Use(true), 20), Event(X, Def(None), 30);
    var s := TryElseStmt(kill, use, def);
    TryElseTold(kill, use, def);
    forall e: Event | e != kill && e != use && e != def
      ensures AbsentBlock(MISSED.body, e)
    {
      TryElseAbsent(kill, use, def, e);
    }
    assert ReadSpoiled(MISSED, s, kill, use);
    SpoiledRead(MISSED, s, kill, use);
    HarmlessIff(MISSED.body);
  }

  /** Dead-store reports a store that a run reads. */
  lemma ReportsRead()
    ensures Legal(FALSELY_DEAD) && !Harmless(FALSELY_DEAD.body)
    ensures DeadAt(CfgOf(FALSELY_DEAD), 10) && !NeverRead(WRITTEN, FALSELY_DEAD, 10)
  {
    hide DeadAt, NeverRead, HarmlessBlock, Told, OnlyBlock, ReachedBlock, EndsBlock, AbsentBlock, Lead;
    var store, use, def := Event(X, Def(Some(DefReport(false))), 10), Event(X, Use(true), 20), Event(X, Def(None), 30);
    var s := TryElseStmt(store, use, def);
    TryElseTold(store, use, def);
    forall e: Event | e != store && e != use && e != def
      ensures AbsentBlock(FALSELY_DEAD.body, e)
    {
      TryElseAbsent(store, use, def, e);
    }
    assert StoreSpoiled(FALSELY_DEAD, s, store, use);
    SpoiledStore(FALSELY_DEAD, s, store, use);
    HarmlessIff(FALSELY_DEAD.body);
  }

  // ---- functions that are not sealed and still exact ------------------

  /** `return` and then the `try`, which nothing reaches. */
  function AfterReturn(first: Event, handled: Event, next: Event): Block {
    Cons(Return([]), TryElse(first, handled, next))
  }

  /** `try: return first` / `except: handled` / `else: next`. */
  function BodyReturns(first: Event, handled: Event, next: Event): Block {
    Cons(Try(Cons(Return([first]), Nil), Handler([], One(handled), [], NoHandler), One(next), Nil), Nil)
  }

  lemma StillExact(first: Event, handled: Event, next: Event)
    ensures var k := AfterReturn(first, handled, next); !Sealed(k) && Harmless(k) && LegalBlock(k)
    ensures var k := BodyReturns(first, handled, next); !Sealed(k) && Harmless(k) && LegalBlock(k)
  {
    OneIs(first);
    OneIs(handled);
    OneIs(next);
    assert !SealedStmt(TryElseStmt(first, handled, next), false);
    assert !SealedBlock(TryElse(first, handled, next), false);
    assert !EndsStmt(Return([]), Normal) && !EndsStmt(Return([first]), Normal);
    var k := BodyReturns(first, handled, next);
    assert LegalStmt(TryElseStmt(first, handled, next)) && LegalBlock(TryElse(first, handled, next));
    assert LegalBlock(k.head.body) && LegalHandlers(k.head.handlers) && LegalStmt(k.head);
    assert !SealedStmt(k.head, false);
    assert !EndsBlock(k.head.body, Normal);
    assert HarmlessBlock(Nil) && HarmlessStmt(Simple([handled])) && HarmlessBlock(One(handled));
    assert HarmlessHandlers(NoHandler);
    assert HarmlessHandlers(k.head.handlers);
    assert HarmlessStmt(k.head);
  }
}
