/** Every run of the structured program is a walk of the graph. A set of arrivals at
    blocks that holds the start of a statement, and is closed under the edges of any
    graph the building may end in, has the runs of the statement go on where they should
    go, whichever way they end. */
module Simulation {
  import opened Wrappers
  import opened Cfg
  import opened Python
  import opened Lower
  import opened Alike
  import opened Growth
  import opened Outcomes

  /** `gf` is a graph the building of `g` may end in. */
  predicate Later(g: Graph, gf: Graph) {
    Extends(g, 0, |g|, gf)
  }

  lemma LaterTrans(g: Graph, lo: nat, hi: nat, g1: Graph, gf: Graph)
    requires Extends(g, lo, hi, g1) && Later(g1, gf)
    ensures Later(g, gf)
  {
    forall i | 0 <= i < |g|
      ensures Kept(g, 0, |g|, gf, i)
    {
      assert Kept(g, lo, hi, g1, i) && Kept(g1, 0, |g1|, gf, i);
    }
  }

  /** What is fixed while a function is walked: the graph and a closed set. */
  ghost predicate Final(g: Graph, gf: Graph, arr: Arrivals, seen: iset<Trace>) {
    Later(g, gf) && Closed(arr, seen, gf)
  }

  lemma FinalTrans(g: Graph, lo: nat, hi: nat, g1: Graph, gf: Graph, arr: Arrivals, seen: iset<Trace>)
    requires Extends(g, lo, hi, g1) && Final(g1, gf, arr, seen)
    ensures Final(g, gf, arr, seen)
  {
    LaterTrans(g, lo, hi, g1, gf);
  }

  /** Along an edge that is there already. */
  lemma Follow(b: State, g: Graph, c: nat, gf: Graph, arr: Arrivals, seen: iset<Trace>, t: Trace)
    requires b.cur < |b.g| && b.cur < |g| && At(b, arr, t) && Final(g, gf, arr, seen)
    requires c in g[b.cur].succs && g[b.cur].events == b.g[b.cur].events
    ensures (c, t) in arr
  {
    var u :| (b.cur, u) in arr && t == u + b.g[b.cur].events;
    assert Kept(g, 0, |g|, gf, b.cur);
    assert Carried(arr, gf, b.cur, u, c);
  }

  lemma FollowAll(b: State, g: Graph, rs: seq<nat>, gf: Graph, arr: Arrivals, seen: iset<Trace>, t: Trace)
    requires b.cur < |b.g| && b.cur < |g| && At(b, arr, t) && Final(g, gf, arr, seen)
    requires (forall i | 0 <= i < |rs| :: rs[i] in g[b.cur].succs) && g[b.cur].events == b.g[b.cur].events
    ensures forall i | 0 <= i < |rs| :: (rs[i], t) in arr
  {
    forall i | 0 <= i < |rs|
      ensures (rs[i], t) in arr
    {
      Follow(b, g, rs[i], gf, arr, seen, t);
    }
  }

  /** Arriving at a block that so far has the events `ev`. */
  lemma Arrive(b: State, arr: Arrivals, t: Trace, ev: Trace)
    requires b.cur < |b.g| && (b.cur, t) in arr && b.g[b.cur].events == ev
    ensures At(b, arr, t + ev)
  {
  }

  /** Part of the events just made can be observed. */
  lemma See(b: State, g: Graph, ev: Trace, gf: Graph, arr: Arrivals, seen: iset<Trace>, t: Trace, v: Trace)
    requires b.cur < |b.g| && b.cur < |g| && At(b, arr, t) && Final(g, gf, arr, seen)
    requires b.g[b.cur].events + ev <= g[b.cur].events && v <= ev
    ensures t + v in seen
  {
    var u :| (b.cur, u) in arr && t == u + b.g[b.cur].events;
    assert Kept(g, 0, |g|, gf, b.cur);
    var e := b.g[b.cur].events + v;
    assert e <= gf[b.cur].events;
    assert Shown(arr, seen, gf, b.cur, u, e);
    assert u + e == t + v;
  }

  lemma SeeHere(b: State, gf: Graph, arr: Arrivals, seen: iset<Trace>, t: Trace)
    requires b.cur < |b.g| && At(b, arr, t) && Final(b.g, gf, arr, seen)
    ensures t in seen
  {
    See(b, b.g, [], gf, arr, seen, t, []);
    assert t + [] == t;
  }

  lemma SeeArrival(c: nat, gf: Graph, arr: Arrivals, seen: iset<Trace>, t: Trace)
    requires (c, t) in arr && Closed(arr, seen, gf)
    ensures t in seen
  {
    assert Shown(arr, seen, gf, c, t, []);
    assert t + [] == t;
  }

  lemma AtEmit(b: State, ev: Trace, arr: Arrivals, t: Trace)
    requires b.cur < |b.g| && At(b, arr, t)
    ensures At(b.(g := Emit(b.g, b.cur, ev)), arr, t + ev)
  {
    var u :| (b.cur, u) in arr && t == u + b.g[b.cur].events;
    assert t + ev == u + (b.g[b.cur].events + ev);
  }

  // ---- statements -----------------------------------------------------

  lemma SimPrelude(b: State, gf: Graph, arr: Arrivals, seen: iset<Trace>, t: Trace)
    requires StateOk(b) && Final(Prelude(b).g, gf, arr, seen) && At(b, arr, t)
    ensures At(Prelude(b), arr, t)
    ensures LeadsRaise(arr, seen, b.raiseTo, t, false)
    ensures t in seen
  {
    GrownPrelude(b);
    var p := Prelude(b);
    if InTry(b) {
      FollowAll(b, p.g, b.raiseTo, gf, arr, seen, t);
      Follow(b, p.g, p.cur, gf, arr, seen, t);
      Arrive(p, arr, t, []);
      assert t + [] == t;
      SeeArrival(p.cur, gf, arr, seen, t);
    } else {
      SeeHere(b, gf, arr, seen, t);
    }
  }

  lemma {:induction false} SimBlock(b: State, k: Block, gf: Graph, arr: Arrivals, seen: iset<Trace>, t: Trace, u: Trace, o: Outcome)
    requires StateOk(b) && LegalBlock(k) && Ready(b, Lead(k))
    requires Final(LowerBlock(b, k).g, gf, arr, seen) && At(b, arr, t) && RunBlock(Read(b.raiseTo), k, u, o)
    ensures o == Normal ==> At(LowerBlock(b, k), arr, t + u)
    ensures Leads(arr, seen, b.frames, b.raiseTo, t + u, o)
    decreases BlockSize(k) + FrameSize(b.frames), 0
  {
    hide LowerStmt, LowerBody, RunStmt, FrameSize, Kept, Extends, At;
    match k
    case Nil =>
      assert t + u == t;
      SeeHere(b, gf, arr, seen, t);
    case Cons(s, rest) =>
      var b1 := LowerStmt(b, s);
      GrownStmt(b, s);
      GrownBlock(b1, rest);
      FinalTrans(b1.g, b1.cur, b1.cur + 1, LowerBlock(b1, rest).g, gf, arr, seen);
      if o != Normal && RunStmt(Read(b.raiseTo), s, u, o) {
        SimStmt(b, s, gf, arr, seen, t, u, o);
      } else {
        var u1, u2 :| u == u1 + u2 && RunStmt(Read(b.raiseTo), s, u1, Normal) && RunBlock(Read(b.raiseTo), rest, u2, o);
        SimStmt(b, s, gf, arr, seen, t, u1, Normal);
        SimBlock(b1, rest, gf, arr, seen, t + u1, u2, o);
        assert t + u1 + u2 == t + u;
      }
  }

  lemma {:induction false} SimStmt(b: State, s: Stmt, gf: Graph, arr: Arrivals, seen: iset<Trace>, t: Trace, u: Trace, o: Outcome)
    requires StateOk(b) && LegalStmt(s) && Ready(b, LeadStmt(s))
    requires Final(LowerStmt(b, s).g, gf, arr, seen) && At(b, arr, t) && RunStmt(Read(b.raiseTo), s, u, o)
    ensures o == Normal ==> At(LowerStmt(b, s), arr, t + u)
    ensures Leads(arr, seen, b.frames, b.raiseTo, t + u, o)
    decreases StmtSize(s) + FrameSize(b.frames), 1
  {
    hide LowerBlock, LowerBody, RunBody, Prelude, GraphOk, FramesOk, RaiseOk, Lead, LeadStmt, FrameSize;
    var p := Prelude(b);
    GrownPrelude(b);
    assert p.g[p.cur].succs == [] || LeadStmt(s) == [];
    GrownBody(p, s);
    FinalTrans(p.g, p.cur, p.cur + 1, LowerBody(p, s).g, gf, arr, seen);
    SimPrelude(b, gf, arr, seen, t);
    if RunBody(Read(b.raiseTo), s, u, o) {
      SimBody(p, s, gf, arr, seen, t, u, o);
    } else {
      assert t + u == t;
    }
  }

  lemma {:induction false} SimBody(b: State, s: Stmt, gf: Graph, arr: Arrivals, seen: iset<Trace>, t: Trace, u: Trace, o: Outcome)
    requires StateOk(b) && LegalStmt(s)
    requires b.g[b.cur].succs == [] || LeadStmt(s) == []
    requires Final(LowerBody(b, s).g, gf, arr, seen) && At(b, arr, t) && RunBody(Read(b.raiseTo), s, u, o)
    ensures o == Normal ==> At(LowerBody(b, s), arr, t + u)
    ensures Leads(arr, seen, b.frames, b.raiseTo, t + u, o)
    decreases StmtSize(s) + FrameSize(b.frames), 0
  {
    hide LowerBlock, LowerStmt, Jump, LowerIf, LowerWhile, LowerFor, LowerTry, RunBlock, RunGuarded, FrameSize;
    match s
    case Simple(ev) =>
      AtEmit(b, ev, arr, t);
      if o == Cut {
        See(b, LowerBody(b, s).g, ev, gf, arr, seen, t, u);
      }
    case Return(ev) => SimReturn(b, ev, gf, arr, seen, t, u, o);
    case Raise(ev) => SimRaise(b, ev, gf, arr, seen, t, u, o);
    case Break =>
      assert t + u == t;
      SimJump(b, Broke, gf, arr, seen, t);
    case Continue =>
      assert t + u == t;
      SimJump(b, Continued, gf, arr, seen, t);
    case If(cond, body, alts) => SimIf(b, cond, body, alts, gf, arr, seen, t, u, o);
    case While(always, cond, body, orelse) => SimWhile(b, always, cond, body, orelse, gf, arr, seen, t, u, o);
    case For(iterable, nonEmpty, target, body, orelse) =>
      SimFor(b, iterable, nonEmpty, target, body, orelse, gf, arr, seen, t, u, o);
    case Try(_, _, _, _) => SimTry(b, s, gf, arr, seen, t, u, o);
  }

  lemma {:induction false} SimReturn(b: State, ev: Trace, gf: Graph, arr: Arrivals, seen: iset<Trace>, t: Trace, u: Trace, o: Outcome)
    requires StateOk(b) && (b.g[b.cur].succs == [] || ev == [])
    requires Final(LowerBody(b, Return(ev)).g, gf, arr, seen) && At(b, arr, t) && RunEvents(ev, u, o, Returned)
    ensures Leads(arr, seen, b.frames, b.raiseTo, t + u, o) && o != Normal
    decreases FrameSize(b.frames), |b.frames|, 2
  {
    hide Jump, FrameSize;
    var b1 := b.(g := Emit(b.g, b.cur, ev));
    GrownEmit(b, ev);
    GrownJump(b1, Returned);
    var r := Jump(b1, Returned);
    FinalTrans(b1.g, b1.cur, b1.cur + 1, r.g, gf, arr, seen);
    AtEmit(b, ev, arr, t);
    if o == Returned {
      SimJump(b1, Returned, gf, arr, seen, t + u);
    } else {
      See(b, b1.g, ev, gf, arr, seen, t, u);
    }
  }

  lemma SimRaise(b: State, ev: Trace, gf: Graph, arr: Arrivals, seen: iset<Trace>, t: Trace, u: Trace, o: Outcome)
    requires StateOk(b) && (b.g[b.cur].succs == [] || ev == [])
    requires Final(LowerBody(b, Raise(ev)).g, gf, arr, seen) && At(b, arr, t) && RunEvents(ev, u, o, Raised(true))
    ensures Leads(arr, seen, b.frames, b.raiseTo, t + u, o) && o != Normal
  {
    var b1 := b.(g := Emit(b.g, b.cur, ev));
    GrownEmit(b, ev);
    var g2 := LinkAll(b1.g, b.cur, b.raiseTo);
    LinkAllExtends(b1.g, b.cur, b.raiseTo);
    GrowExtends(g2, 1, 0, 0);
    FinalTrans(g2, 0, 0, Grow(g2, 1), gf, arr, seen);
    AtEmit(b, ev, arr, t);
    if o == Cut {
      See(b, g2, ev, gf, arr, seen, t, u);
    } else {
      FollowAll(b1, g2, b.raiseTo, gf, arr, seen, t + u);
    }
  }

  // ---- jumps ----------------------------------------------------------

  lemma {:induction false} SimJump(b: State, kind: Outcome, gf: Graph, arr: Arrivals, seen: iset<Trace>, t: Trace)
    requires StateOk(b) && (kind == Broke || kind == Continued || kind == Returned)
    requires Final(Jump(b, kind).g, gf, arr, seen) && At(b, arr, t)
    ensures LeadsJump(arr, seen, b.frames, t, kind)
    decreases FrameSize(b.frames), |b.frames|, 1
  {
    hide Unwind, FrameSize;
    GrownUnwind(b, kind);
    var (u, dest) := Unwind(b, kind);
    var g1 := Link(u.g, u.cur, dest);
    LinkExtends(u.g, u.cur, dest);
    GrowExtends(g1, 1, 0, 0);
    FinalTrans(g1, 0, 0, Grow(g1, 1), gf, arr, seen);
    SimUnwind(b, kind, gf, arr, seen, t);
  }

  lemma {:induction false} SimUnwind(b: State, kind: Outcome, gf: Graph, arr: Arrivals, seen: iset<Trace>, t: Trace)
    requires StateOk(b) && (kind == Broke || kind == Continued || kind == Returned) && At(b, arr, t)
    requires var (u, dest) := Unwind(b, kind); Final(Link(u.g, u.cur, dest), gf, arr, seen)
    ensures LeadsJump(arr, seen, b.frames, t, kind)
    decreases FrameSize(b.frames), |b.frames|, 0
  {
    hide LowerBlock, FrameSize, RunBlock, Kept, Lead, Read;
    if b.frames == [] {
      LinkExtends(b.g, b.cur, EXIT);
      Follow(b, Link(b.g, b.cur, EXIT), EXIT, gf, arr, seen, t);
    } else {
      var outer := b.frames[..|b.frames| - 1];
      FrameSizePop(b.frames);
      assert FrameOk(b.g, b.frames[|b.frames| - 1]);
      match b.frames[|b.frames| - 1]
      case Loop(brk, cont) =>
        if kind == Returned {
          SimUnwind(b.(frames := outer), kind, gf, arr, seen, t);
        } else {
          var dest := if kind == Broke then brk else cont;
          LinkExtends(b.g, b.cur, dest);
          Follow(b, Link(b.g, b.cur, dest), dest, gf, arr, seen, t);
        }
      case Finally(body, rs) => SimUnwindCopies(b, body, rs, kind, gf, arr, seen, t);
    }
  }

  /** Through the innermost `finally`, however its run ends. */
  lemma {:induction false} SimUnwindCopies(b: State, body: Block, rs: seq<nat>, kind: Outcome, gf: Graph, arr: Arrivals, seen: iset<Trace>, t: Trace)
    requires StateOk(b) && (kind == Broke || kind == Continued || kind == Returned) && At(b, arr, t)
    requires b.frames != [] && b.frames[|b.frames| - 1] == Finally(body, rs)
    requires var (u, dest) := Unwind(LowerBlock(FinallyCopy(b, rs), body), kind); Final(Link(u.g, u.cur, dest), gf, arr, seen)
    ensures LeadsJump(arr, seen, b.frames, t, kind)
    decreases FrameSize(b.frames), 0, 1
  {
    hide LowerBlock, Unwind, FrameSize, RunBlock, Leads, LeadsJump, StateOk, Final, At, Read;
    var outer := b.frames[..|b.frames| - 1];
    forall v, o | RunBlock(Read(rs), body, v, o)
      ensures Leads(arr, seen, outer, rs, t + v, AfterFinally(kind, o))
    {
      SimUnwindFinally(b, body, rs, kind, gf, arr, seen, t, v, o);
    }
    assert b.frames == outer + [Finally(body, rs)];
    LeadsPopFinally(arr, seen, outer, body, rs, t, kind);
  }

  lemma {:induction false} SimUnwindFinally(b: State, body: Block, rs: seq<nat>, kind: Outcome, gf: Graph, arr: Arrivals, seen: iset<Trace>, t: Trace, v: Trace, o: Outcome)
    requires StateOk(b) && (kind == Broke || kind == Continued || kind == Returned) && At(b, arr, t)
    requires b.frames != [] && b.frames[|b.frames| - 1] == Finally(body, rs)
    requires var (u, dest) := Unwind(LowerBlock(FinallyCopy(b, rs), body), kind); Final(Link(u.g, u.cur, dest), gf, arr, seen)
    requires RunBlock(Read(rs), body, v, o)
    ensures Leads(arr, seen, b.frames[..|b.frames| - 1], rs, t + v, AfterFinally(kind, o))
    decreases FrameSize(b.frames), 0, 0
  {
    hide LowerBlock, Unwind, RunBlock, FrameSize, Final, GraphOk, LegalBlock, Lead, LeadsJump;
    FrameSizePop(b.frames);
    var b1, b2 := FinallyCopy(b, rs), LowerBlock(FinallyCopy(b, rs), body);
    SimFinallyCopy(b, body, rs, kind, gf, arr, seen, t);
    SimBlock(b1, body, gf, arr, seen, t, v, o);
    if o == Normal {
      SimUnwind(b2, kind, gf, arr, seen, t + v);
    }
  }

  /** The start of a jump's copy of a `finally`, and the graphs there and at its end. */
  lemma SimFinallyCopy(b: State, body: Block, rs: seq<nat>, kind: Outcome, gf: Graph, arr: Arrivals, seen: iset<Trace>, t: Trace)
    requires StateOk(b) && At(b, arr, t) && b.frames != [] && b.frames[|b.frames| - 1] == Finally(body, rs)
    requires var (u, dest) := Unwind(LowerBlock(FinallyCopy(b, rs), body), kind); Final(Link(u.g, u.cur, dest), gf, arr, seen)
    ensures var b1 := FinallyCopy(b, rs); var b2 := LowerBlock(b1, body);
      && StateOk(b1) && LegalBlock(body) && b1.g[b1.cur].succs == [] && At(b1, arr, t)
      && StateOk(b2) && Final(b2.g, gf, arr, seen)
  {
    hide LowerBlock, Unwind, FrameSize, Final, GraphOk, LegalBlock, Lead;
    assert FrameOk(b.g, b.frames[|b.frames| - 1]);
    var b1 := FinallyCopy(b, rs);
    GrownFinallyCopy(b, rs);
    GrownBlock(b1, body);
    var b2 := LowerBlock(b1, body);
    GrownUnwind(b2, kind);
    var (u, dest) := Unwind(b2, kind);
    LinkExtends(u.g, u.cur, dest);
    FinalTrans(u.g, u.cur, u.cur + 1, Link(u.g, u.cur, dest), gf, arr, seen);
    FinalTrans(b2.g, b2.cur, b2.cur + 1, u.g, gf, arr, seen);
    FinalTrans(b1.g, b1.cur, b1.cur + 1, b2.g, gf, arr, seen);
    Follow(b, b1.g, b1.cur, gf, arr, seen, t);
    Arrive(b1, arr, t, []);
    assert t + [] == t;
  }

  // ---- branches and loops ---------------------------------------------

  lemma {:induction false} SimArm(b: State, body: Block, fork: nat, after: nat, gf: Graph, arr: Arrivals, seen: iset<Trace>, t: Trace, u: Trace, o: Outcome)
    requires StateOk(b) && LegalBlock(body)
    requires fork < |b.g| && fork != EXIT && Target(b.g, after)
    requires Final(LowerArm(b, body, fork, after).g, gf, arr, seen) && At(b.(cur := fork), arr, t) && RunBlock(Read(b.raiseTo), body, u, o)
    ensures o == Normal ==> (after, t + u) in arr
    ensures Leads(arr, seen, b.frames, b.raiseTo, t + u, o)
    decreases BlockSize(body) + FrameSize(b.frames), 1
  {
    hide LowerBlock, LowerStmt, LowerBody, RunBlock, LegalBlock, FrameSize;
    var b1 := b.(g := Link(Grow(b.g, 1), fork, |b.g|), cur := |b.g|);
    BranchExtends(b.g, fork);
    ContextKept(b, b1.g);
    GrownBlock(b1, body);
    var b2 := LowerBlock(b1, body);
    LinkExtends(b2.g, b2.cur, after);
    var g3 := Link(b2.g, b2.cur, after);
    FinalTrans(b2.g, b2.cur, b2.cur + 1, g3, gf, arr, seen);
    FinalTrans(b1.g, b1.cur, b1.cur + 1, b2.g, gf, arr, seen);
    Follow(b.(cur := fork), b1.g, b1.cur, gf, arr, seen, t);
    Arrive(b1, arr, t, []);
    assert t + [] == t;
    SimBlock(b1, body, gf, arr, seen, t, u, o);
    if o == Normal {
      Follow(b2, g3, after, gf, arr, seen, t + u);
    }
  }

  lemma {:induction false} SimAlts(b: State, alts: Alts, fork: nat, after: nat, gf: Graph, arr: Arrivals, seen: iset<Trace>, t: Trace, u: Trace, o: Outcome)
    requires StateOk(b) && LegalAlts(alts)
    requires fork < |b.g| && fork != EXIT && Target(b.g, after)
    requires Final(LowerAlts(b, alts, fork, after).g, gf, arr, seen) && At(b.(cur := fork), arr, t) && RunAlts(Read(b.raiseTo), alts, u, o)
    ensures o == Normal ==> (after, t + u) in arr
    ensures Leads(arr, seen, b.frames, b.raiseTo, t + u, o)
    decreases AltsSize(alts) + FrameSize(b.frames), 0
  {
    hide LowerBlock, LowerStmt, LowerBody, LowerArm, RunBlock, FrameSize;
    match alts
    case NoElse =>
      LinkExtends(b.g, fork, after);
      Follow(b.(cur := fork), Link(b.g, fork, after), after, gf, arr, seen, t);
      assert t + u == t;
      SeeArrival(after, gf, arr, seen, t);
    case Else(body) => SimArm(b, body, fork, after, gf, arr, seen, t, u, o);
    case Elif(cond, body, rest) => SimElif(b, cond, body, rest, fork, after, gf, arr, seen, t, u, o);
  }

  lemma {:induction false} SimElif(b: State, cond: Trace, body: Block, rest: Alts, fork: nat, after: nat, gf: Graph, arr: Arrivals, seen: iset<Trace>, t: Trace, u: Trace, o: Outcome)
    requires StateOk(b) && LegalBlock(body) && LegalAlts(rest)
    requires fork < |b.g| && fork != EXIT && Target(b.g, after)
    requires Final(LowerAlts(LowerArm(ElifHead(b, cond, fork), body, |b.g|, after), rest, |b.g|, after).g, gf, arr, seen)
    requires At(b.(cur := fork), arr, t)
    requires RunEvents(cond, u, o, Cut) || exists v :: u == cond + v && (RunBlock(Read(b.raiseTo), body, v, o) || RunAlts(Read(b.raiseTo), rest, v, o))
    ensures o == Normal ==> (after, t + u) in arr
    ensures Leads(arr, seen, b.frames, b.raiseTo, t + u, o)
    decreases BlockSize(body) + AltsSize(rest) + FrameSize(b.frames), 3
  {
    hide LowerBlock, LowerStmt, LowerBody, LowerArm, LowerAlts, RunBlock, RunAlts, FrameSize;
    var head := |b.g|;
    var b1 := ElifHead(b, cond, fork);
    GrownElifHead(b, cond, fork);
    GrownArm(b1, body, head, after);
    var b2 := LowerArm(b1, body, head, after);
    GrownAlts(b2, rest, head, after);
    FinalTrans(b2.g, head, head + 1, LowerAlts(b2, rest, head, after).g, gf, arr, seen);
    FinalTrans(b1.g, head, head + 1, b2.g, gf, arr, seen);
    Follow(b.(cur := fork), b1.g, head, gf, arr, seen, t);
    assert t == t + [];
    SimFork(b1, [], cond, body, rest, after, gf, arr, seen, t, u, o);
  }

  /** From a block that has the events `ev` and then the condition: its first arm, then
      the others. */
  lemma {:induction false} SimFork(b: State, ev: Trace, cond: Trace, body: Block, rest: Alts, after: nat, gf: Graph, arr: Arrivals, seen: iset<Trace>, t: Trace, u: Trace, o: Outcome)
    requires StateOk(b) && LegalBlock(body) && LegalAlts(rest)
    requires Target(b.g, after) && b.g[b.cur].events == ev + cond
    requires Final(LowerAlts(LowerArm(b, body, b.cur, after), rest, b.cur, after).g, gf, arr, seen)
    requires exists w :: (b.cur, w) in arr && t == w + ev
    requires RunEvents(cond, u, o, Cut) || exists v :: u == cond + v && (RunBlock(Read(b.raiseTo), body, v, o) || RunAlts(Read(b.raiseTo), rest, v, o))
    ensures o == Normal ==> (after, t + u) in arr
    ensures Leads(arr, seen, b.frames, b.raiseTo, t + u, o)
    decreases BlockSize(body) + AltsSize(rest) + FrameSize(b.frames), 2
  {
    hide LowerBlock, LowerStmt, LowerBody, LowerArm, LowerAlts, RunBlock, RunAlts, FrameSize;
    GrownArm(b, body, b.cur, after);
    var b2 := LowerArm(b, body, b.cur, after);
    GrownAlts(b2, rest, b.cur, after);
    FinalTrans(b2.g, b.cur, b.cur + 1, LowerAlts(b2, rest, b.cur, after).g, gf, arr, seen);
    FinalTrans(b.g, b.cur, b.cur + 1, b2.g, gf, arr, seen);
    var w :| (b.cur, w) in arr && t == w + ev;
    if RunEvents(cond, u, o, Cut) {
      var b0 := b.(g := b.g[b.cur := BasicBlock(ev, [])]);
      assert At(b0, arr, t);
      See(b0, b.g, cond, gf, arr, seen, t, u);
    } else {
      var v :| u == cond + v && (RunBlock(Read(b.raiseTo), body, v, o) || RunAlts(Read(b.raiseTo), rest, v, o));
      assert t + u == t + cond + v;
      assert t + cond == w + (ev + cond);
      assert At(b, arr, t + cond) && At(b2.(cur := b.cur), arr, t + cond);
      if RunBlock(Read(b.raiseTo), body, v, o) {
        SimArm(b, body, b.cur, after, gf, arr, seen, t + cond, v, o);
      } else {
        SimAlts(b2, rest, b.cur, after, gf, arr, seen, t + cond, v, o);
      }
    }
  }

  lemma {:induction false} SimIf(b: State, cond: Trace, body: Block, alts: Alts, gf: Graph, arr: Arrivals, seen: iset<Trace>, t: Trace, u: Trace, o: Outcome)
    requires StateOk(b) && LegalBlock(body) && LegalAlts(alts)
    requires (b.g[b.cur].succs == [] || cond == [])
    requires Final(LowerIf(b, cond, body, alts).g, gf, arr, seen) && At(b, arr, t) && RunBody(Read(b.raiseTo), If(cond, body, alts), u, o)
    ensures o == Normal ==> At(LowerIf(b, cond, body, alts), arr, t + u)
    ensures Leads(arr, seen, b.frames, b.raiseTo, t + u, o)
    decreases 1 + BlockSize(body) + AltsSize(alts) + FrameSize(b.frames), 3
  {
    hide LowerBlock, LowerStmt, LowerBody, LowerArm, LowerAlts, RunBlock, RunAlts, FrameSize;
    GrownOpenIf(b, cond);
    GrownIf(b, cond, body, alts);
    SimFork(OpenIf(b, cond), b.g[b.cur].events, cond, body, alts, |b.g|, gf, arr, seen, t, u, o);
    if o == Normal {
      Arrive(LowerIf(b, cond, body, alts), arr, t + u, []);
      assert t + u + [] == t + u;
    }
  }

  /** One pass through a loop body, from the block that leads into it. */
  lemma {:induction false} SimLoopBody(b: State, body: Block, cont: nat, after: nat, gf: Graph, arr: Arrivals, seen: iset<Trace>, t: Trace, u: Trace, o: Outcome)
    requires StateOk(b) && LegalBlock(body) && Target(b.g, cont) && Target(b.g, after)
    requires Final(LoopBody(b, body, cont, after).g, gf, arr, seen) && At(b, arr, t) && RunBlock(Read(b.raiseTo), body, u, o)
    ensures match o {
      case Normal => (cont, t + u) in arr
      case Continued => (cont, t + u) in arr
      case Broke => (after, t + u) in arr
      case _ => Leads(arr, seen, b.frames, b.raiseTo, t + u, o) }
    decreases BlockSize(body) + FrameSize(b.frames), 1
  {
    hide LowerBlock, LowerStmt, LowerBody, RunBlock, LegalBlock, FrameSize;
    var b1 := OpenLoop(b, cont, after);
    GrownOpenLoop(b, cont, after);
    FrameSizePush(b.frames, Loop(after, cont));
    GrownBlock(b1, body);
    var b2 := LowerBlock(b1, body);
    LinkExtends(b2.g, b2.cur, cont);
    var g3 := Link(b2.g, b2.cur, cont);
    FinalTrans(b2.g, b2.cur, b2.cur + 1, g3, gf, arr, seen);
    FinalTrans(b1.g, b1.cur, b1.cur + 1, b2.g, gf, arr, seen);
    Follow(b, b1.g, b1.cur, gf, arr, seen, t);
    Arrive(b1, arr, t, []);
    assert t + [] == t;
    SimBlock(b1, body, gf, arr, seen, t, u, o);
    LeadsPopLoop(arr, seen, b.frames, after, cont, b.raiseTo, t + u, o);
    if o == Normal {
      Follow(b2, g3, cont, gf, arr, seen, t + u);
    }
  }

  /** `n` turns of a loop whose turns start in block `b.cur`, which has the events `pre`
      and which `cont` leads back to. */
  lemma {:induction false} SimTurns(b: State, pre: Trace, body: Block, cont: nat, after: nat, gf: Graph, arr: Arrivals, seen: iset<Trace>, t: Trace, u: Trace, n: nat)
    requires StateOk(b) && LegalBlock(body) && Target(b.g, cont) && Target(b.g, after)
    requires Final(LoopBody(b, body, cont, after).g, gf, arr, seen) && b.g[b.cur].events == pre
    requires forall w | (cont, w) in arr :: (b.cur, w) in arr
    requires (b.cur, t) in arr && RunTurns(Read(b.raiseTo), pre, body, u, n)
    ensures (b.cur, t + u) in arr
    ensures n > 0 ==> (cont, t + u) in arr
    decreases BlockSize(body) + FrameSize(b.frames), 3, n
  {
    hide LowerBlock, LowerStmt, LowerBody, LoopBody, RunBlock, Completes, Final, LegalBlock, FrameSize;
    if n == 0 {
      assert t + u == t;
    } else {
      var u1, u2 :| u == u1 + (pre + u2) && RunTurns(Read(b.raiseTo), pre, body, u1, n - 1) && Completes(Read(b.raiseTo), body, u2);
      SimTurns(b, pre, body, cont, after, gf, arr, seen, t, u1, n - 1);
      SimTurn(b, pre, body, cont, after, gf, arr, seen, t + u1, u2);
      assert t + u1 + (pre + u2) == t + u;
    }
  }

  lemma {:induction false} SimTurn(b: State, pre: Trace, body: Block, cont: nat, after: nat, gf: Graph, arr: Arrivals, seen: iset<Trace>, t: Trace, u: Trace)
    requires StateOk(b) && LegalBlock(body) && Target(b.g, cont) && Target(b.g, after)
    requires Final(LoopBody(b, body, cont, after).g, gf, arr, seen) && b.g[b.cur].events == pre
    requires (b.cur, t) in arr && Completes(Read(b.raiseTo), body, u)
    ensures (cont, t + (pre + u)) in arr
    decreases BlockSize(body) + FrameSize(b.frames), 2
  {
    hide LowerBlock, LowerStmt, LowerBody, LoopBody, RunBlock, LegalBlock, FrameSize;
    Arrive(b, arr, t, pre);
    var o := if RunBlock(Read(b.raiseTo), body, u, Normal) then Normal else Continued;
    SimLoopBody(b, body, cont, after, gf, arr, seen, t + pre, u, o);
    assert t + pre + u == t + (pre + u);
  }

  lemma {:induction false} SimLastTurn(b: State, pre: Trace, body: Block, cont: nat, after: nat, gf: Graph, arr: Arrivals, seen: iset<Trace>, t: Trace, u: Trace, o: Outcome)
    requires StateOk(b) && LegalBlock(body) && Target(b.g, cont) && Target(b.g, after)
    requires Final(LoopBody(b, body, cont, after).g, gf, arr, seen) && b.g[b.cur].events == pre
    requires (b.cur, t) in arr && RunLastTurn(Read(b.raiseTo), pre, body, u, o)
    ensures o == Normal ==> (after, t + u) in arr
    ensures Leads(arr, seen, b.frames, b.raiseTo, t + u, o)
    decreases BlockSize(body) + FrameSize(b.frames), 2
  {
    hide LowerBlock, LowerStmt, LowerBody, LoopBody, RunBlock, LegalBlock, FrameSize;
    GrownLoopBody(b, body, cont, after);
    FinalTrans(b.g, b.cur, b.cur + 1, LoopBody(b, body, cont, after).g, gf, arr, seen);
    if RunEvents(pre, u, o, Cut) {
      var b0 := b.(g := b.g[b.cur := EMPTY]);
      assert t == t + b0.g[b.cur].events;
      See(b0, b.g, pre, gf, arr, seen, t, u);
    } else {
      Arrive(b, arr, t, pre);
      var v, o1 :| u == pre + v && RunBlock(Read(b.raiseTo), body, v, o1) && (if o == Normal then o1 == Broke else o1 == o) && o != Broke && o != Continued;
      SimLoopBody(b, body, cont, after, gf, arr, seen, t + pre, v, o1);
      assert t + pre + v == t + u;
    }
  }

  /** What holds when a `while` has been lowered and its header can be reached. */
  ghost predicate WhileReady(b: State, always: bool, cond: Trace, body: Block, orelse: Block, gf: Graph, arr: Arrivals, seen: iset<Trace>, t: Trace)
    requires b.cur < |b.g|
  {
    var header, after := |b.g|, |b.g| + 1;
    var b1 := OpenWhile(b, cond);
    var b2 := LoopBody(b1, body, header, after);
    && StateOk(b1) && b1.g[header].events == cond && Target(b1.g, after)
    && StateOk(b2) && Final(b2.g, gf, arr, seen) && header < |b2.g| && b2.g[header].events == cond
    && (!always ==> Final(ElseBody(b2, header, orelse, after).g, gf, arr, seen))
    && (header, t) in arr
  }

  lemma {:induction false} SimWhileStart(b: State, always: bool, cond: Trace, body: Block, orelse: Block, gf: Graph, arr: Arrivals, seen: iset<Trace>, t: Trace)
    requires StateOk(b) && LegalBlock(body) && LegalBlock(orelse)
    requires Final(LowerWhile(b, always, cond, body, orelse).g, gf, arr, seen) && At(b, arr, t)
    ensures WhileReady(b, always, cond, body, orelse, gf, arr, seen, t)
  {
    hide LowerBlock, LowerStmt, LowerBody, LoopBody, ElseBody, DeadElse, OpenWhile, LegalBlock, FrameSize;
    var header, after := |b.g|, |b.g| + 1;
    var b1 := OpenWhile(b, cond);
    var b2 := LoopBody(b1, body, header, after);
    GrownOpenWhile(b, cond);
    GrownLoopBody(b1, body, header, after);
    if !always {
      GrownElseBody(b2, header, orelse, after);
      FinalTrans(b2.g, header, header + 1, ElseBody(b2, header, orelse, after).g, gf, arr, seen);
    } else if orelse.Cons? {
      GrownDeadElse(b2, orelse, after);
      FinalTrans(b2.g, |b2.g|, |b2.g| + 1, DeadElse(b2, orelse, after).g, gf, arr, seen);
    }
    FinalTrans(b1.g, header, header + 1, b2.g, gf, arr, seen);
    Follow(b, b1.g, header, gf, arr, seen, t);
  }

  /** From the header when a run of `while` leaves the loop. */
  lemma {:induction false} SimWhileExit(b: State, always: bool, cond: Trace, body: Block, orelse: Block, gf: Graph, arr: Arrivals, seen: iset<Trace>, t0: Trace, t: Trace, v: Trace, o: Outcome)
    requires StateOk(b) && LegalBlock(orelse)
    requires WhileReady(b, always, cond, body, orelse, gf, arr, seen, t0)
    requires !always && (|b.g|, t) in arr && RunBlock(Read(b.raiseTo), orelse, v, o)
    ensures o == Normal ==> (|b.g| + 1, t + (cond + v)) in arr
    ensures Leads(arr, seen, b.frames, b.raiseTo, t + (cond + v), o)
    decreases BlockSize(orelse) + FrameSize(b.frames), 3
  {
    hide LowerBlock, LowerStmt, LowerBody, LoopBody, ElseBody, OpenWhile, RunBlock, Leads, LegalBlock, FrameSize;
    var b2 := LoopBody(OpenWhile(b, cond), body, |b.g|, |b.g| + 1);
    Arrive(b2.(cur := |b.g|), arr, t, cond);
    SimElseBody(b2, |b.g|, orelse, |b.g| + 1, gf, arr, seen, t + cond, v, o);
    Assoc(t, cond, v);
  }

  lemma {:induction false} SimWhile(b: State, always: bool, cond: Trace, body: Block, orelse: Block, gf: Graph, arr: Arrivals, seen: iset<Trace>, t: Trace, u: Trace, o: Outcome)
    requires StateOk(b) && LegalBlock(body) && LegalBlock(orelse)
    requires Final(LowerWhile(b, always, cond, body, orelse).g, gf, arr, seen) && At(b, arr, t)
    requires RunBody(Read(b.raiseTo), While(always, cond, body, orelse), u, o)
    ensures o == Normal ==> At(LowerWhile(b, always, cond, body, orelse), arr, t + u)
    ensures Leads(arr, seen, b.frames, b.raiseTo, t + u, o)
    decreases 1 + BlockSize(body) + BlockSize(orelse) + FrameSize(b.frames), 3
  {
    hide LowerBlock, LowerStmt, LowerBody, LowerWhile, OpenWhile, LoopBody, ElseBody, RunBlock, RunBody, RunTurns, RunLastTurn, Leads, LegalBlock, FrameSize;
    SimWhileStart(b, always, cond, body, orelse, gf, arr, seen, t);
    var n, u1, u2 := SplitWhile(Read(b.raiseTo), While(always, cond, body, orelse), u, o);
    var header, after := |b.g|, |b.g| + 1;
    var b1 := OpenWhile(b, cond);
    SimTurns(b1, cond, body, header, after, gf, arr, seen, t, u1, n);
    if RunLastTurn(Read(b.raiseTo), cond, body, u2, o) {
      SimLastTurn(b1, cond, body, header, after, gf, arr, seen, t + u1, u2, o);
    } else {
      var v :| u2 == cond + v && RunBlock(Read(b.raiseTo), orelse, v, o);
      SimWhileExit(b, always, cond, body, orelse, gf, arr, seen, t, t + u1, v, o);
    }
    Assoc(t, u1, u2);
    if o == Normal {
      SimWhileEnd(b, always, cond, body, orelse, arr, t + u);
    }
  }

  lemma SimWhileEnd(b: State, always: bool, cond: Trace, body: Block, orelse: Block, arr: Arrivals, t: Trace)
    requires StateOk(b) && LegalBlock(body) && LegalBlock(orelse)
    requires (|b.g| + 1, t) in arr
    ensures At(LowerWhile(b, always, cond, body, orelse), arr, t)
  {
    hide LowerWhile, LegalBlock, FrameSize;
    GrownWhile(b, always, cond, body, orelse);
    assert t + [] == t;
    Arrive(LowerWhile(b, always, cond, body, orelse), arr, t, []);
  }

  lemma {:induction false} SimElseBody(b: State, from: nat, orelse: Block, after: nat, gf: Graph, arr: Arrivals, seen: iset<Trace>, t: Trace, u: Trace, o: Outcome)
    requires StateOk(b) && LegalBlock(orelse)
    requires from < |b.g| && from != EXIT && Target(b.g, after)
    requires Final(ElseBody(b, from, orelse, after).g, gf, arr, seen) && At(b.(cur := from), arr, t) && RunBlock(Read(b.raiseTo), orelse, u, o)
    ensures o == Normal ==> (after, t + u) in arr
    ensures Leads(arr, seen, b.frames, b.raiseTo, t + u, o)
    decreases BlockSize(orelse) + FrameSize(b.frames), 2
  {
    hide LowerBlock, LowerStmt, LowerBody, RunBlock, LegalBlock, FrameSize;
    SimArm(b, orelse, from, after, gf, arr, seen, t, u, o);
  }

  ghost predicate ForReady(b: State, iterable: Trace, nonEmpty: bool, target: Trace, body: Block, gf: Graph, arr: Arrivals, seen: iset<Trace>, t: Trace)
    requires b.cur < |b.g|
  {
    var b1 := OpenFor(b, iterable, nonEmpty, target);
    var b2 := ForLoop(b, iterable, nonEmpty, target, body);
    var repeat := if nonEmpty then |b.g| + 3 else |b.g|;
    && StateOk(b1) && Final(b1.g, gf, arr, seen)
    && b1.cur == |b.g| + 1 && b1.g[b1.cur].events == target && repeat < |b1.g| && |b.g| + 2 < |b1.g|
    && StateOk(b2) && Final(b2.g, gf, arr, seen) && repeat < |b2.g| && b2.g[repeat].events == []
    && Final(LoopBody(b1, body, repeat, |b.g| + 2).g, gf, arr, seen)
    && (|b.g|, t + iterable) in arr
    && (forall w | (|b.g|, w) in arr :: (|b.g| + 1, w) in arr)
    && (forall w | (repeat, w) in arr :: (|b.g| + 1, w) in arr)
  }

  lemma {:induction false} SimForExit(b: State, iterable: Trace, nonEmpty: bool, target: Trace, body: Block, orelse: Block, gf: Graph, arr: Arrivals, seen: iset<Trace>, t0: Trace, t: Trace, v: Trace, o: Outcome)
    requires StateOk(b) && LegalBlock(orelse)
    requires Final(LowerFor(b, iterable, nonEmpty, target, body, orelse).g, gf, arr, seen)
    requires ForReady(b, iterable, nonEmpty, target, body, gf, arr, seen, t0)
    requires ((if nonEmpty then |b.g| + 3 else |b.g|), t) in arr && RunBlock(Read(b.raiseTo), orelse, v, o)
    ensures o == Normal ==> (|b.g| + 2, t + v) in arr
    ensures Leads(arr, seen, b.frames, b.raiseTo, t + v, o)
    decreases BlockSize(orelse) + FrameSize(b.frames), 3
  {
    hide LowerBlock, LowerStmt, LowerBody, LoopBody, ElseBody, OpenFor, RunBlock, Leads, LegalBlock, FrameSize;
    var repeat := if nonEmpty then |b.g| + 3 else |b.g|;
    var b2 := ForLoop(b, iterable, nonEmpty, target, body);
    assert t + [] == t;
    Arrive(b2.(cur := repeat), arr, t, []);
    SimElseBody(b2, repeat, orelse, |b.g| + 2, gf, arr, seen, t, v, o);
  }

  lemma {:induction false} SimForTurns(b: State, iterable: Trace, nonEmpty: bool, target: Trace, body: Block, orelse: Block, gf: Graph, arr: Arrivals, seen: iset<Trace>, t: Trace, u1: Trace, u2: Trace, n: nat, o: Outcome)
    requires StateOk(b) && LegalBlock(body) && LegalBlock(orelse)
    requires Final(LowerFor(b, iterable, nonEmpty, target, body, orelse).g, gf, arr, seen)
    requires ForReady(b, iterable, nonEmpty, target, body, gf, arr, seen, t) && RunTurns(Read(b.raiseTo), target, body, u1, n)
    requires RunLastTurn(Read(b.raiseTo), target, body, u2, o) || ((nonEmpty ==> n > 0) && RunBlock(Read(b.raiseTo), orelse, u2, o))
    ensures o == Normal ==> (|b.g| + 2, t + iterable + u1 + u2) in arr
    ensures Leads(arr, seen, b.frames, b.raiseTo, t + iterable + u1 + u2, o)
    decreases BlockSize(body) + BlockSize(orelse) + FrameSize(b.frames), 4
  {
    hide LowerBlock, LowerStmt, LowerBody, LoopBody, ElseBody, OpenFor, ForLoop, LowerFor, RunBlock, RunLastTurn, Leads, LegalBlock, FrameSize;
    var repeat := if nonEmpty then |b.g| + 3 else |b.g|;
    var b1 := OpenFor(b, iterable, nonEmpty, target);
    SimTurns(b1, target, body, repeat, |b.g| + 2, gf, arr, seen, t + iterable, u1, n);
    if RunLastTurn(Read(b.raiseTo), target, body, u2, o) {
      SimLastTurn(b1, target, body, repeat, |b.g| + 2, gf, arr, seen, t + iterable + u1, u2, o);
    } else {
      if n == 0 {
        assert u1 == [];
        assert t + iterable + u1 == t + iterable;
      }
      SimForExit(b, iterable, nonEmpty, target, body, orelse, gf, arr, seen, t, t + iterable + u1, u2, o);
    }
  }

  lemma {:induction false} SimFor(b: State, iterable: Trace, nonEmpty: bool, target: Trace, body: Block, orelse: Block, gf: Graph, arr: Arrivals, seen: iset<Trace>, t: Trace, u: Trace, o: Outcome)
    requires StateOk(b) && LegalBlock(body) && LegalBlock(orelse)
    requires (b.g[b.cur].succs == [] || iterable == [])
    requires Final(LowerFor(b, iterable, nonEmpty, target, body, orelse).g, gf, arr, seen) && At(b, arr, t)
    requires RunBody(Read(b.raiseTo), For(iterable, nonEmpty, target, body, orelse), u, o)
    ensures o == Normal ==> At(LowerFor(b, iterable, nonEmpty, target, body, orelse), arr, t + u)
    ensures Leads(arr, seen, b.frames, b.raiseTo, t + u, o)
    decreases 1 + BlockSize(body) + BlockSize(orelse) + FrameSize(b.frames), 4
  {
    hide LowerBlock, LowerStmt, LowerBody, LowerFor, OpenFor, ForLoop, LoopBody, RunBlock, RunBody, RunTurns, RunLastTurn, Leads, LegalBlock, Final, FrameSize, FramesOk;
    SimForStart(b, iterable, nonEmpty, target, body, orelse, gf, arr, seen, t);
    if RunEvents(iterable, u, o, Cut) {
      GrownOpenFor(b, iterable, nonEmpty, target);
      See(b, OpenFor(b, iterable, nonEmpty, target).g, iterable, gf, arr, seen, t, u);
      LeadsCut(arr, seen, b.frames, b.raiseTo, t + u);
    } else {
      var n, u1, u2 := SplitFor(Read(b.raiseTo), For(iterable, nonEmpty, target, body, orelse), u, o);
      SimForTurns(b, iterable, nonEmpty, target, body, orelse, gf, arr, seen, t, u1, u2, n, o);
      assert t + iterable + u1 + u2 == t + u;
      if o == Normal {
        SimForEnd(b, iterable, nonEmpty, target, body, orelse, arr, t + u);
      }
    }
  }

  lemma SimForEnd(b: State, iterable: Trace, nonEmpty: bool, target: Trace, body: Block, orelse: Block, arr: Arrivals, t: Trace)
    requires StateOk(b) && LegalBlock(body) && LegalBlock(orelse)
    requires (b.g[b.cur].succs == [] || iterable == [])
    requires (|b.g| + 2, t) in arr
    ensures At(LowerFor(b, iterable, nonEmpty, target, body, orelse), arr, t)
  {
    hide LowerFor, LegalBlock, FrameSize;
    GrownFor(b, iterable, nonEmpty, target, body, orelse);
    assert t + [] == t;
    Arrive(LowerFor(b, iterable, nonEmpty, target, body, orelse), arr, t, []);
  }

  lemma {:induction false} SimForStart(b: State, iterable: Trace, nonEmpty: bool, target: Trace, body: Block, orelse: Block, gf: Graph, arr: Arrivals, seen: iset<Trace>, t: Trace)
    requires StateOk(b) && LegalBlock(body) && LegalBlock(orelse)
    requires (b.g[b.cur].succs == [] || iterable == [])
    requires Final(LowerFor(b, iterable, nonEmpty, target, body, orelse).g, gf, arr, seen) && At(b, arr, t)
    ensures ForReady(b, iterable, nonEmpty, target, body, gf, arr, seen, t)
  {
    hide LowerBlock, LowerStmt, LowerBody, LoopBody, ElseBody, OpenFor, LegalBlock, FrameSize;
    var header, iterate, after := |b.g|, |b.g| + 1, |b.g| + 2;
    var repeat := if nonEmpty then |b.g| + 3 else |b.g|;
    var b1, b2 := OpenFor(b, iterable, nonEmpty, target), ForLoop(b, iterable, nonEmpty, target, body);
    GrownForLoop(b, iterable, nonEmpty, target, body);
    GrownElseBody(b2, repeat, orelse, after);
    FinalTrans(b2.g, repeat, repeat + 1, ElseBody(b2, repeat, orelse, after).g, gf, arr, seen);
    SimForLoop(b, iterable, nonEmpty, target, body, gf, arr, seen, t);
  }

  lemma {:induction false} SimForLoop(b: State, iterable: Trace, nonEmpty: bool, target: Trace, body: Block, gf: Graph, arr: Arrivals, seen: iset<Trace>, t: Trace)
    requires StateOk(b) && LegalBlock(body) && (b.g[b.cur].succs == [] || iterable == [])
    requires Final(ForLoop(b, iterable, nonEmpty, target, body).g, gf, arr, seen) && At(b, arr, t)
    ensures ForReady(b, iterable, nonEmpty, target, body, gf, arr, seen, t)
  {
    hide LowerBlock, LowerStmt, LowerBody, LoopBody, OpenFor, LegalBlock, FrameSize;
    var header, iterate, after := |b.g|, |b.g| + 1, |b.g| + 2;
    var repeat := if nonEmpty then |b.g| + 3 else |b.g|;
    var b1 := OpenFor(b, iterable, nonEmpty, target);
    GrownOpenFor(b, iterable, nonEmpty, target);
    GrownLoopBody(b1, body, repeat, after);
    GrownForLoop(b, iterable, nonEmpty, target, body);
    var b2, b3 := LoopBody(b1, body, repeat, after), ForLoop(b, iterable, nonEmpty, target, body);
    assert Kept(b1.g, iterate, iterate + 1, b2.g, repeat);
    if nonEmpty {
      LinkExtends(b2.g, repeat, iterate);
      FinalTrans(b2.g, repeat, repeat + 1, b3.g, gf, arr, seen);
    }
    FinalTrans(b1.g, iterate, iterate + 1, b2.g, gf, arr, seen);
    FollowEmit(b, b1.g, iterable, header, gf, arr, seen, t);
    FollowEmpty(b1.g, header, iterate, gf, arr, seen);
    FollowEmpty(b3.g, repeat, iterate, gf, arr, seen);
  }

  /** Along an edge that is there once the events `ev` have been made. */
  lemma FollowEmit(b: State, g: Graph, ev: Trace, c: nat, gf: Graph, arr: Arrivals, seen: iset<Trace>, t: Trace)
    requires b.cur < |b.g| && b.cur < |g| && At(b, arr, t) && Final(g, gf, arr, seen)
    requires c in g[b.cur].succs && g[b.cur].events == b.g[b.cur].events + ev
    ensures (c, t + ev) in arr
  {
    AtEmit(b, ev, arr, t);
    Follow(b.(g := Emit(b.g, b.cur, ev)), g, c, gf, arr, seen, t + ev);
  }

  lemma FollowEmpty(g: Graph, a: nat, c: nat, gf: Graph, arr: Arrivals, seen: iset<Trace>)
    requires Final(g, gf, arr, seen) && a < |g| && g[a].events == [] && c in g[a].succs
    ensures forall w | (a, w) in arr :: (c, w) in arr
  {
    forall w | (a, w) in arr
      ensures (c, w) in arr
    {
      assert Kept(g, 0, |g|, gf, a);
      assert Carried(arr, gf, a, w, c);
      assert w + [] == w;
    }
  }

  // ---- try ------------------------------------------------------------

  /** Whatever leaves the body by an exception, at the latest at its end, arrives at
      every handler and past the handlers. */
  lemma {:induction false} SimThrow(b: State, body: Block, past: seq<nat>, orelse: Block, gf: Graph, arr: Arrivals, seen: iset<Trace>, t: Trace, u: Trace)
    requires StateOk(b) && InTry(b) && LegalBlock(body) && LegalBlock(orelse) && RaiseOk(b.g, past) && b.g[b.cur].succs == []
    requires Final(LowerElse(LowerBlock(b, body), past, orelse).g, gf, arr, seen) && At(b, arr, t)
    requires Throws(WRITTEN, body, if past == [EXIT] then Lead(orelse) else [], u)
    ensures forall i | 0 <= i < |b.raiseTo| :: (b.raiseTo[i], t + u) in arr
    decreases BlockSize(body) + FrameSize(b.frames), 1
  {
    hide LowerBlock, LowerElse, RunBlock, LegalBlock, Lead, FrameSize;
    GrownBlock(b, body);
    var b1 := LowerBlock(b, body);
    ContextKept(b, b1.g);
    assert RaiseOk(b1.g, past);
    GrownElse(b1, past, orelse);
    var e := LowerElse(b1, past, orelse);
    FinalTrans(b1.g, b1.cur, b1.cur + 1, e.g, gf, arr, seen);
    var spill := if past == [EXIT] then Lead(orelse) else [];
    if ThrowsLate(WRITTEN, body, spill, u) {
      var v :| u == v + spill && RunBlock(WRITTEN, body, v, Normal);
      SimBlock(b, body, gf, arr, seen, t, v, Normal);
      FollowSpill(b1, e.g, spill, b.raiseTo, gf, arr, seen, t + v);
      Assoc(t, v, spill);
    } else {
      var x := RunBlock(WRITTEN, body, u, Raised(true));
      SimBlock(b, body, gf, arr, seen, t, u, Raised(x));
    }
  }

  /** Along the raise edges of a block that gets the events `spill` all the same. */
  lemma FollowSpill(b: State, g: Graph, spill: Trace, rs: seq<nat>, gf: Graph, arr: Arrivals, seen: iset<Trace>, t: Trace)
    requires b.cur < |b.g| && b.cur < |g| && At(b, arr, t) && Final(g, gf, arr, seen)
    requires (forall i | 0 <= i < |rs| :: rs[i] in g[b.cur].succs) && g[b.cur].events == b.g[b.cur].events + spill
    ensures forall i | 0 <= i < |rs| :: (rs[i], t + spill) in arr
  {
    forall i | 0 <= i < |rs|
      ensures (rs[i], t + spill) in arr
    {
      FollowEmit(b, g, spill, rs[i], gf, arr, seen, t);
    }
  }

  /** `k` where an exception may also start at its end, as `else` and the handlers. */
  lemma SimTailRaise(b: State, gf: Graph, arr: Arrivals, seen: iset<Trace>, t: Trace)
    requires StateOk(b) && Final(TailRaise(b).g, gf, arr, seen) && At(b, arr, t)
    ensures At(TailRaise(b), arr, t) && LeadsRaise(arr, seen, b.raiseTo, t, false)
  {
    GrownTailRaise(b);
    if InTry(b) {
      FollowAll(b, TailRaise(b).g, b.raiseTo, gf, arr, seen, t);
    } else {
      SeeHere(b, gf, arr, seen, t);
    }
  }

  lemma {:induction false} SimElse(b: State, past: seq<nat>, orelse: Block, gf: Graph, arr: Arrivals, seen: iset<Trace>, t: Trace, u: Trace, o: Outcome)
    requires StateOk(b) && LegalBlock(orelse) && RaiseOk(b.g, past) && b.g[b.cur].succs == []
    requires Final(LowerElse(b, past, orelse).g, gf, arr, seen) && At(b, arr, t) && RunTail(Read(past), orelse, u, o)
    ensures o == Normal ==> At(LowerElse(b, past, orelse), arr, t + u)
    ensures Leads(arr, seen, b.frames, past, t + u, o)
    decreases BlockSize(orelse) + FrameSize(b.frames), 2
  {
    hide LowerBlock, RunBlock, LegalBlock, Lead, FrameSize;
    if past == [EXIT] {
      SimBareElse(b, orelse, gf, arr, seen, t, u, o);
    } else {
      var e := OpenElse(b, past);
      GrownOpenElse(b, past);
      GrownBlock(e, orelse);
      var b2 := LowerBlock(e, orelse);
      GrownTailRaise(b2);
      FinalTrans(b2.g, b2.cur, b2.cur + 1, TailRaise(b2).g, gf, arr, seen);
      assert At(e, arr, t);
      if o == Normal || !RunBlock(Read(past), orelse, u, o) {
        SimBlock(e, orelse, gf, arr, seen, t, u, Normal);
        SimTailRaise(b2, gf, arr, seen, t + u);
      } else {
        SimBlock(e, orelse, gf, arr, seen, t, u, o);
      }
    }
  }

  /** The final graph with the edges of block `a` in another order: those of `q` first. */
  function Reordered(gf: Graph, a: nat, q: Graph): Graph
    requires a < |gf| && a < |q|
  {
    gf[a := gf[a].(succs := q[a].succs + gf[a].succs)]
  }

  lemma ReorderedFinal(b: State, q: State, r: State, rs: seq<nat>, gf: Graph, arr: Arrivals, seen: iset<Trace>)
    requires b.cur < |q.g| && GraphOk(q.g) && AlikeStates(q, r, b.cur, rs) && Final(r.g, gf, arr, seen)
    requires r.g[b.cur].succs != []
    ensures Final(q.g, Reordered(gf, b.cur, q.g), arr, seen)
  {
    var a := b.cur;
    assert Kept(r.g, 0, |r.g|, gf, a) && AlikeAt(q.g, r.g, a, rs, a);
    var g := Reordered(gf, a, q.g);
    forall i {:trigger Kept(q.g, 0, |q.g|, g, i)} | 0 <= i < |q.g|
      ensures Kept(q.g, 0, |q.g|, g, i)
    {
      assert Kept(r.g, 0, |r.g|, gf, i) && AlikeAt(q.g, r.g, a, rs, i);
    }
    forall i | 0 <= i < |g|
      ensures BlockOk(g, i)
    {
      assert BlockOk(gf, i) && (i == a ==> BlockOk(q.g, a));
    }
    assert a != EXIT by {
      assert gf[EXIT] == EMPTY;
    }
    forall c: nat, u, d | c < |g| && d in g[c].succs
      ensures Carried(arr, g, c, u, d)
    {
      assert d in gf[c].succs;
      assert Carried(arr, gf, c, u, d);
    }
    forall c: nat, u, e
      ensures Shown(arr, seen, g, c, u, e)
    {
      assert Shown(arr, seen, gf, c, u, e);
    }
  }

  lemma {:induction false} SimBareElse(b: State, orelse: Block, gf: Graph, arr: Arrivals, seen: iset<Trace>, t: Trace, u: Trace, o: Outcome)
    requires StateOk(b) && LegalBlock(orelse) && b.g[b.cur].succs == []
    requires Final(LowerElse(b, [EXIT], orelse).g, gf, arr, seen) && At(b, arr, t) && RunTail(LOWERED, orelse, u, o)
    ensures o == Normal ==> At(LowerElse(b, [EXIT], orelse), arr, t + u)
    ensures Leads(arr, seen, b.frames, [EXIT], t + u, o)
    decreases BlockSize(orelse) + FrameSize(b.frames), 1
  {
    hide LowerBlock, LowerElse, RunBlock, LegalBlock, Lead, FrameSize;
    var b0 := b.(raiseTo := [EXIT]);
    var q, r := LowerBlock(b0, orelse), LowerElse(b, [EXIT], orelse);
    GrownBareElse(b, orelse);
    assert b.raiseTo[0] in r.g[b.cur].succs;
    ReorderedFinal(b, q, r, b.raiseTo, gf, arr, seen);
    var g := Reordered(gf, b.cur, q.g);
    assert At(b0, arr, t);
    if o == Normal || !RunBlock(LOWERED, orelse, u, o) {
      SimBlock(b0, orelse, g, arr, seen, t, u, Normal);
      AlikeAtEnd(q, r, b.cur, b.raiseTo, arr, t + u);
      SeeHere(q, g, arr, seen, t + u);
    } else {
      SimBlock(b0, orelse, g, arr, seen, t, u, o);
    }
  }

  lemma AlikeAtEnd(q: State, r: State, a: nat, rs: seq<nat>, arr: Arrivals, t: Trace)
    requires q.cur < |q.g| && AlikeStates(q, r, a, rs) && At(q, arr, t)
    ensures r.cur < |r.g| && At(r, arr, t)
  {
    assert AlikeAt(q.g, r.g, a, rs, q.cur);
  }

  lemma {:induction false} SimHandler(b: State, header: Trace, body: Block, unbind: Trace, entry: nat, gf: Graph, arr: Arrivals, seen: iset<Trace>, t: Trace, u: Trace, o: Outcome)
    requires StateOk(b) && LegalBlock(body)
    requires Target(b.g, entry) && entry != EXIT && b.g[entry] == EMPTY
    requires Final(LowerHandler(b, header, body, unbind, entry).g, gf, arr, seen)
    requires (entry, t) in arr && RunHandler(Read(b.raiseTo), header, body, unbind, u, o)
    ensures o == Normal ==> At(LowerHandler(b, header, body, unbind, entry), arr, t + u)
    ensures Leads(arr, seen, b.frames, b.raiseTo, t + u, o)
    decreases BlockSize(body) + FrameSize(b.frames), 3
  {
    hide LowerBlock, LowerHandler, RunBlock, RunHandled, LegalBlock, Leads, FrameSize;
    SimOpenHandler(b, header, body, unbind, entry, gf, arr, seen, t);
    if RunEvents(header, u, o, Cut) {
      var b0 := b.(cur := entry);
      assert t == t + b0.g[entry].events;
      See(b0, OpenHandler(b, header, entry).g, header, gf, arr, seen, t, u);
      LeadsCut(arr, seen, b.frames, b.raiseTo, t + u);
    } else {
      var v :| u == header + v && RunHandled(Read(b.raiseTo), body, unbind, v, o);
      SimHandled(b, header, body, unbind, entry, gf, arr, seen, t + header, v, o);
      Assoc(t, header, v);
    }
  }

  lemma {:induction false} SimHandled(b: State, header: Trace, body: Block, unbind: Trace, entry: nat, gf: Graph, arr: Arrivals, seen: iset<Trace>, t: Trace, u: Trace, o: Outcome)
    requires LegalBlock(body) && entry < |b.g|
    requires HandlerReady(b, header, body, unbind, entry, gf, arr, seen, t)
    requires Final(LowerHandler(b, header, body, unbind, entry).g, gf, arr, seen) && RunHandled(Read(b.raiseTo), body, unbind, u, o)
    ensures o == Normal ==> At(LowerHandler(b, header, body, unbind, entry), arr, t + u)
    ensures Leads(arr, seen, b.frames, b.raiseTo, t + u, o)
    decreases BlockSize(body) + FrameSize(b.frames), 2
  {
    hide LowerBlock, LowerHandler, RunBlock, LegalBlock, Leads, FrameSize;
    if o != Normal && RunBlock(Read(b.raiseTo), body, u, o) {
      SimBlock(OpenHandler(b, header, entry), body, gf, arr, seen, t, u, o);
    } else {
      var v, w :| u == v + w && RunBlock(Read(b.raiseTo), body, v, Normal) &&
        (RunEvents(unbind, w, o, Normal) || (w == unbind && o == Raised(false)));
      SimHandlerEnd(b, header, body, unbind, entry, gf, arr, seen, t, v, w, o);
      Assoc(t, v, w);
    }
  }

  /** What holds at the start of the body of a lowered handler. */
  ghost predicate HandlerReady(b: State, header: Trace, body: Block, unbind: Trace, entry: nat, gf: Graph, arr: Arrivals, seen: iset<Trace>, t: Trace)
    requires entry < |b.g|
  {
    var b1 := OpenHandler(b, header, entry);
    var b2 := LowerBlock(b1, body);
    && StateOk(b1) && b1.g[entry].succs == [] && Final(b1.g, gf, arr, seen) && At(b1, arr, t)
    && Final(b2.g, gf, arr, seen) && StateOk(b2.(g := Emit(b2.g, b2.cur, unbind)))
  }

  lemma {:induction false} SimOpenHandler(b: State, header: Trace, body: Block, unbind: Trace, entry: nat, gf: Graph, arr: Arrivals, seen: iset<Trace>, t: Trace)
    requires StateOk(b) && LegalBlock(body)
    requires Target(b.g, entry) && entry != EXIT && b.g[entry] == EMPTY
    requires Final(LowerHandler(b, header, body, unbind, entry).g, gf, arr, seen) && (entry, t) in arr
    ensures HandlerReady(b, header, body, unbind, entry, gf, arr, seen, t + header)
    ensures OpenHandler(b, header, entry).g[entry] == BasicBlock(header, [])
    ensures Final(OpenHandler(b, header, entry).g, gf, arr, seen)
  {
    hide LowerBlock, RunBlock, LegalBlock, FrameSize;
    var b1 := OpenHandler(b, header, entry);
    GrownOpenHandler(b, header, entry);
    GrownBlock(b1, body);
    var b2 := LowerBlock(b1, body);
    GrownEmit(b2, unbind);
    var b3 := b2.(g := Emit(b2.g, b2.cur, unbind));
    GrownTailRaise(b3);
    FinalTrans(b3.g, b3.cur, b3.cur + 1, TailRaise(b3).g, gf, arr, seen);
    FinalTrans(b2.g, b2.cur, b2.cur + 1, b3.g, gf, arr, seen);
    FinalTrans(b1.g, b1.cur, b1.cur + 1, b2.g, gf, arr, seen);
    Arrive(b1, arr, t, header);
  }

  /** A handler whose body has completed unbinds its alias; then it can still raise. */
  lemma {:induction false} SimHandlerEnd(b: State, header: Trace, body: Block, unbind: Trace, entry: nat, gf: Graph, arr: Arrivals, seen: iset<Trace>, t: Trace, v: Trace, w: Trace, o: Outcome)
    requires LegalBlock(body) && entry < |b.g|
    requires HandlerReady(b, header, body, unbind, entry, gf, arr, seen, t)
    requires Final(LowerHandler(b, header, body, unbind, entry).g, gf, arr, seen) && RunBlock(Read(b.raiseTo), body, v, Normal)
    requires RunEvents(unbind, w, o, Normal) || (w == unbind && o == Raised(false))
    ensures o == Normal ==> At(LowerHandler(b, header, body, unbind, entry), arr, t + v + w)
    ensures Leads(arr, seen, b.frames, b.raiseTo, t + v + w, o)
    decreases BlockSize(body) + FrameSize(b.frames), 1
  {
    hide LowerBlock, RunBlock, LegalBlock, FrameSize;
    var b1 := OpenHandler(b, header, entry);
    var b2 := LowerBlock(b1, body);
    SimBlock(b1, body, gf, arr, seen, t, v, Normal);
    var b3 := b2.(g := Emit(b2.g, b2.cur, unbind));
    GrownTailRaise(b3);
    if o == Cut {
      FinalTrans(b3.g, b3.cur, b3.cur + 1, TailRaise(b3).g, gf, arr, seen);
      See(b2, b3.g, unbind, gf, arr, seen, t + v, w);
    } else {
      AtEmit(b2, unbind, arr, t + v);
      SimTailRaise(b3, gf, arr, seen, t + v + w);
    }
  }

  /** Arrivals at the end of one of the blocks of `r.1`. */
  ghost predicate EndsAt(r: (State, seq<nat>), arr: Arrivals, t: Trace)
    requires forall i | 0 <= i < |r.1| :: r.1[i] < |r.0.g|
  {
    exists i | 0 <= i < |r.1| :: At(r.0.(cur := r.1[i]), arr, t)
  }

  lemma EndsAtHead(r: State, c: nat, ends: seq<nat>, arr: Arrivals, t: Trace)
    requires c < |r.g| && At(r.(cur := c), arr, t) && forall i | 0 <= i < |ends| :: ends[i] < |r.g|
    ensures EndsAt((r, [c] + ends), arr, t)
  {
    assert ([c] + ends)[0] == c;
  }

  lemma EndsAtTail(r: State, c: nat, ends: seq<nat>, arr: Arrivals, t: Trace)
    requires c < |r.g| && (forall i | 0 <= i < |ends| :: ends[i] < |r.g|) && EndsAt((r, ends), arr, t)
    ensures EndsAt((r, [c] + ends), arr, t)
  {
    var i :| 0 <= i < |ends| && At(r.(cur := ends[i]), arr, t);
    assert ([c] + ends)[i + 1] == ends[i];
  }

  lemma {:induction false} SimHandlers(b: State, h: Handlers, entry: nat, gf: Graph, arr: Arrivals, seen: iset<Trace>, t: Trace, u: Trace, o: Outcome)
    requires StateOk(b) && LegalHandlers(h)
    requires 2 <= entry && entry + HandlerCount(h) <= |b.g|
    requires forall i | entry <= i < entry + HandlerCount(h) :: b.g[i] == EMPTY
    requires Final(LowerHandlers(b, h, entry).0.g, gf, arr, seen)
    requires forall i | entry <= i < entry + HandlerCount(h) :: (i, t) in arr
    requires RunHandlers(Read(b.raiseTo), h, u, o)
    ensures o == Normal ==> EndsAt(LowerHandlers(b, h, entry), arr, t + u)
    ensures Leads(arr, seen, b.frames, b.raiseTo, t + u, o)
    decreases HandlersSize(h) + FrameSize(b.frames), 0
  {
    hide LowerHandler, RunHandler, LegalBlock, Leads, FrameSize, StmtSize, GraphOk;
    var Handler(header, body, unbind, rest) := h;
    var b1 := LowerHandler(b, header, body, unbind, entry);
    GrownHandler(b, header, body, unbind, entry);
    forall i | entry + 1 <= i < entry + HandlerCount(h)
      ensures b1.g[i] == EMPTY
    {
      assert Kept(b.g, entry, entry + 1, b1.g, i);
    }
    GrownHandlers(b1, rest, entry + 1);
    var (b2, ends) := LowerHandlers(b1, rest, entry + 1);
    FinalTrans(b1.g, entry + 1, entry + HandlerCount(h), b2.g, gf, arr, seen);
    if RunHandler(Read(b.raiseTo), header, body, unbind, u, o) {
      SimHandler(b, header, body, unbind, entry, gf, arr, seen, t, u, o);
      if o == Normal {
        assert Kept(b1.g, entry + 1, entry + HandlerCount(h), b2.g, b1.cur);
        EndsAtHead(b2, b1.cur, ends, arr, t + u);
      }
    } else {
      SimHandlers(b1, rest, entry + 1, gf, arr, seen, t, u, o);
      if o == Normal {
        EndsAtTail(b2, b1.cur, ends, arr, t + u);
      }
    }
  }

  /** What holds when the guarded part of a `try` has been lowered and joined, and its
      start can be reached. */
  ghost predicate TryReady(b: State, s: Stmt, gf: Graph, arr: Arrivals, seen: iset<Trace>, t: Trace)
    requires b.cur < |b.g| && s.Try?
  {
    var b0, b1, b2, past := OpenTry(b, s), TryBody(b, s), TryElse(b, s), PastTry(b, s);
    && 2 <= |b.g| && StateOk(b0) && InTry(b0) && b0.g[b0.cur].succs == [] && At(b0, arr, t) && RaiseOk(b0.g, past)
    && b0.raiseTo == EntryIds(FirstHandler(b, s), HandlerCount(s.handlers)) + past
    && StateOk(b1) && b1.g[b1.cur].succs == [] && RaiseOk(b1.g, past)
    && StateOk(b2) && Final(b2.g, gf, arr, seen) && FirstHandler(b, s) + HandlerCount(s.handlers) <= b2.cur
    && (forall i | |b.g| <= i < FirstHandler(b, s) + HandlerCount(s.handlers) :: b2.g[i] == EMPTY)
    && Final(b1.g, gf, arr, seen) && Final(LowerHandlers(b2, s.handlers, FirstHandler(b, s)).0.g, gf, arr, seen)
  }

  lemma {:induction false} SimOpenTry(b: State, s: Stmt, gf: Graph, arr: Arrivals, seen: iset<Trace>, t: Trace)
    requires StateOk(b) && s.Try? && LegalStmt(s)
    requires Final(LowerGuarded(b, s).0.g, gf, arr, seen) && At(b, arr, t)
    ensures TryReady(b, s, gf, arr, seen, t)
  {
    hide TryBody, TryElse, LowerHandlers, LegalBlock, Lead, FrameSize;
    OpenTryOk(b, s);
    GrownTryElse(b, s);
    var b2, first, count := TryElse(b, s), FirstHandler(b, s), HandlerCount(s.handlers);
    GrownHandlers(b2, s.handlers, first);
    FinalTrans(b2.g, first, first + count, LowerHandlers(b2, s.handlers, first).0.g, gf, arr, seen);
    SimOpenElse(b, s, gf, arr, seen, t);
  }

  lemma {:induction false} SimOpenElse(b: State, s: Stmt, gf: Graph, arr: Arrivals, seen: iset<Trace>, t: Trace)
    requires StateOk(b) && s.Try? && LegalStmt(s) && Final(TryElse(b, s).g, gf, arr, seen) && At(b, arr, t)
    ensures var b1 := TryBody(b, s);
      && At(OpenTry(b, s), arr, t) && StateOk(b1) && RaiseOk(b1.g, PastTry(b, s))
      && b1.g[b1.cur].succs == [] && Final(b1.g, gf, arr, seen)
  {
    hide TryBody, LowerElse, OpenTry, PastTry, LegalBlock, LegalHandlers, Lead, FrameSize;
    var b0, b1 := OpenTry(b, s), TryBody(b, s);
    OpenTryOk(b, s);
    GrownTryBody(b, s);
    GrownElse(b1, PastTry(b, s), s.orelse);
    FinalTrans(b1.g, b1.cur, b1.cur + 1, TryElse(b, s).g, gf, arr, seen);
    FinalTrans(b0.g, b0.cur, b0.cur + 1, b1.g, gf, arr, seen);
    Follow(b, b0.g, b0.cur, gf, arr, seen, t);
    assert t + [] == t;
    Arrive(b0, arr, t, []);
  }

  /** The guarded part: its normal runs arrive at one of its ends. */
  lemma {:induction false} SimGuarded(b: State, s: Stmt, gf: Graph, arr: Arrivals, seen: iset<Trace>, t: Trace, u: Trace, o: Outcome)
    requires StateOk(b) && s.Try? && LegalStmt(s)
    requires TryReady(b, s, gf, arr, seen, t) && RunGuarded(Read(b.raiseTo), s, u, o)
    ensures o == Normal ==> EndsAt(LowerGuarded(b, s), arr, t + u)
    ensures Leads(arr, seen, OpenTry(b, s).frames, PastTry(b, s), t + u, o)
    decreases StmtSize(s) + FrameSize(b.frames), 0, 0
  {
    hide LowerBlock, TryElse, LowerGuarded, OpenTry, PastTry, RunBlock, RunTail, RunHandlers, Throws, LegalBlock, LegalHandlers, Lead, Leads, Read, Spill, FrameSize;
    var b0, past, spill := OpenTry(b, s), PastTry(b, s), Spill(Read(b.raiseTo), s);
    TryRules(b, s);
    TryMeasure(b, s);
    if o != Normal && !o.Raised? && RunBlock(WRITTEN, s.body, u, o) {
      SimGuardedJump(b, s, gf, arr, seen, t, u, o);
    } else if o == Raised(true) && Throws(WRITTEN, s.body, spill, u) {
      SimGuardedThrow(b, s, gf, arr, seen, t, u);
    } else if exists t1, t2 :: u == t1 + t2 && RunBlock(WRITTEN, s.body, t1, Normal) && RunTail(Read(past), s.orelse, t2, o) {
      var t1, t2 :| u == t1 + t2 && RunBlock(WRITTEN, s.body, t1, Normal) && RunTail(Read(past), s.orelse, t2, o);
      SimGuardedElse(b, s, gf, arr, seen, t, t1, t2, o);
      Assoc(t, t1, t2);
    } else {
      var t1, t2 :| u == t1 + t2 && Throws(WRITTEN, s.body, spill, t1) && RunHandlers(Read(past), s.handlers, t2, o);
      SimGuardedHandlers(b, s, gf, arr, seen, t, t1, t2, o);
      Assoc(t, t1, t2);
    }
  }

  /** A jump out of the body. */
  lemma {:induction false} SimGuardedJump(b: State, s: Stmt, gf: Graph, arr: Arrivals, seen: iset<Trace>, t: Trace, u: Trace, o: Outcome)
    requires StateOk(b) && s.Try? && LegalStmt(s) && TryReady(b, s, gf, arr, seen, t)
    requires o != Normal && !o.Raised? && RunBlock(WRITTEN, s.body, u, o)
    ensures Leads(arr, seen, OpenTry(b, s).frames, PastTry(b, s), t + u, o)
    decreases BlockSize(s.body) + FrameSize(OpenTry(b, s).frames), 1
  {
    hide LowerBlock, TryElse, LowerHandlers, OpenTry, RunBlock, LegalBlock, Leads, FrameSize;
    var b0 := OpenTry(b, s);
    SimBlock(b0, s.body, gf, arr, seen, t, u, o);
    LeadsJumpSame(arr, seen, b0.frames, b0.raiseTo, PastTry(b, s), t + u, o);
  }

  /** An exception that no handler catches goes to `past`. */
  lemma LeadsPast(arr: Arrivals, seen: iset<Trace>, fs: seq<Frame>, ids: seq<nat>, past: seq<nat>, t: Trace)
    requires forall i | 0 <= i < |ids + past| :: ((ids + past)[i], t) in arr
    ensures Leads(arr, seen, fs, past, t, Raised(true))
  {
    forall i | 0 <= i < |past|
      ensures (past[i], t) in arr
    {
      assert (ids + past)[|ids| + i] == past[i];
    }
  }

  /** An exception out of the body arrives at every handler and past them. */
  lemma {:induction false} SimGuardedThrow(b: State, s: Stmt, gf: Graph, arr: Arrivals, seen: iset<Trace>, t: Trace, u: Trace)
    requires StateOk(b) && s.Try? && LegalStmt(s)
    requires TryReady(b, s, gf, arr, seen, t) && Throws(WRITTEN, s.body, Spill(Read(b.raiseTo), s), u)
    ensures Leads(arr, seen, OpenTry(b, s).frames, PastTry(b, s), t + u, Raised(true))
    ensures forall i: nat | FirstHandler(b, s) <= i < FirstHandler(b, s) + HandlerCount(s.handlers) :: (i, t + u) in arr
    decreases BlockSize(s.body) + FrameSize(OpenTry(b, s).frames), 2
  {
    hide LowerElse, LowerHandlers, OpenTry, PastTry, RunBlock, Throws, LegalBlock, Lead, Read, Spill, FrameSize;
    TryRules(b, s);
    var b0, past := OpenTry(b, s), PastTry(b, s);
    SimThrow(b0, s.body, past, s.orelse, gf, arr, seen, t, u);
    LeadsPast(arr, seen, b0.frames, EntryIds(FirstHandler(b, s), HandlerCount(s.handlers)), past, t + u);
    var first, count := FirstHandler(b, s), HandlerCount(s.handlers);
    forall i: nat | first <= i < first + count
      ensures (i, t + u) in arr
    {
      assert b0.raiseTo[i - first] == i;
    }
  }

  lemma {:induction false} SimGuardedElse(b: State, s: Stmt, gf: Graph, arr: Arrivals, seen: iset<Trace>, t: Trace, t1: Trace, t2: Trace, o: Outcome)
    requires StateOk(b) && s.Try? && LegalStmt(s) && TryReady(b, s, gf, arr, seen, t)
    requires RunBlock(WRITTEN, s.body, t1, Normal) && RunTail(Read(PastTry(b, s)), s.orelse, t2, o)
    ensures o == Normal ==> EndsAt(LowerGuarded(b, s), arr, t + t1 + t2)
    ensures Leads(arr, seen, OpenTry(b, s).frames, PastTry(b, s), t + t1 + t2, o)
    decreases BlockSize(s.body) + BlockSize(s.orelse) + FrameSize(OpenTry(b, s).frames), 3
  {
    hide LowerBlock, LowerElse, LowerHandlers, OpenTry, PastTry, RunBlock, RunTail, LegalBlock, LegalHandlers, Lead, Leads, FrameSize;
    SimBlock(OpenTry(b, s), s.body, gf, arr, seen, t, t1, Normal);
    SimElse(TryBody(b, s), PastTry(b, s), s.orelse, gf, arr, seen, t + t1, t2, o);
    if o == Normal {
      SimElseEnd(b, s, TryElse(b, s), arr, t + t1 + t2);
    }
  }

  /** The end of `else` is as it was when the handlers have been lowered. */
  lemma {:induction false} SimElseEnd(b: State, s: Stmt, b2: State, arr: Arrivals, t: Trace)
    requires s.Try? && StateOk(b2) && LegalHandlers(s.handlers)
    requires 2 <= FirstHandler(b, s) && FirstHandler(b, s) + HandlerCount(s.handlers) <= b2.cur && At(b2, arr, t)
    requires forall i | FirstHandler(b, s) <= i < FirstHandler(b, s) + HandlerCount(s.handlers) :: b2.g[i] == EMPTY
    ensures var (b3, ends) := LowerHandlers(b2, s.handlers, FirstHandler(b, s)); EndsAt((b3, [b2.cur] + ends), arr, t)
  {
    hide LowerHandlers, LegalHandlers, FirstHandler, FrameSize;
    var first, count := FirstHandler(b, s), HandlerCount(s.handlers);
    GrownHandlers(b2, s.handlers, first);
    var (b3, ends) := LowerHandlers(b2, s.handlers, first);
    assert Kept(b2.g, first, first + count, b3.g, b2.cur);
    EndsAtHead(b3, b2.cur, ends, arr, t);
  }

  lemma {:induction false} SimGuardedHandlers(b: State, s: Stmt, gf: Graph, arr: Arrivals, seen: iset<Trace>, t: Trace, t1: Trace, t2: Trace, o: Outcome)
    requires StateOk(b) && s.Try? && LegalStmt(s) && TryReady(b, s, gf, arr, seen, t)
    requires Throws(WRITTEN, s.body, Spill(Read(b.raiseTo), s), t1) && RunHandlers(Read(PastTry(b, s)), s.handlers, t2, o)
    ensures o == Normal ==> EndsAt(LowerGuarded(b, s), arr, t + t1 + t2)
    ensures Leads(arr, seen, OpenTry(b, s).frames, PastTry(b, s), t + t1 + t2, o)
    decreases BlockSize(s.body) + HandlersSize(s.handlers) + FrameSize(OpenTry(b, s).frames), 3
  {
    hide LowerElse, TryBody, LowerHandlers, OpenTry, PastTry, RunBlock, RunHandlers, Throws, LegalBlock, LegalHandlers, Lead, Leads, Read, Spill, FrameSize;
    SimGuardedThrow(b, s, gf, arr, seen, t, t1);
    var first, b2 := FirstHandler(b, s), TryElse(b, s);
    SimHandlers(b2, s.handlers, first, gf, arr, seen, t + t1, t2, o);
    if o == Normal {
      var (b3, ends) := LowerHandlers(b2, s.handlers, first);
      EndsAtTail(b3, b2.cur, ends, arr, t + t1 + t2);
    }
  }

  /** The guarded part again, with its normal ends joined. */
  lemma {:induction false} SimJoin(b: State, s: Stmt, gf: Graph, arr: Arrivals, seen: iset<Trace>, t: Trace, u: Trace, o: Outcome)
    requires StateOk(b) && s.Try? && LegalStmt(s)
    requires Final(Join(b, s).g, gf, arr, seen) && At(b, arr, t) && RunGuarded(Read(b.raiseTo), s, u, o)
    ensures o == Normal ==> At(Join(b, s), arr, t + u)
    ensures Leads(arr, seen, OpenTry(b, s).frames, PastTry(b, s), t + u, o)
    decreases StmtSize(s) + FrameSize(b.frames), 0, 1
  {
    hide LowerGuarded, OpenTry, PastTry, RunGuarded, LegalStmt, Leads, FramesOk, FrameOk, FrameSize;
    GrownGuarded(b, s);
    var (b3, ends) := LowerGuarded(b, s);
    GrownJoined(b, b3, ends, FirstHandler(b, s));
    var r := Join(b, s);
    SimJoinReady(b, s, gf, arr, seen, t);
    SimGuarded(b, s, gf, arr, seen, t, u, o);
    if o == Normal {
      var i :| 0 <= i < |ends| && At(b3.(cur := ends[i]), arr, t + u);
      Follow(b3.(cur := ends[i]), r.g, r.cur, gf, arr, seen, t + u);
      assert t + u + [] == t + u;
      Arrive(r, arr, t + u, []);
    }
  }

  /** The exceptional copy of `finally`. */
  lemma {:induction false} SimReraise(b: State, exc: nat, final: Block, gf: Graph, arr: Arrivals, seen: iset<Trace>, t: Trace, u: Trace, o: Outcome)
    requires StateOk(b) && LegalBlock(final)
    requires 2 <= exc < |b.g| && b.g[exc] == EMPTY
    requires Final(LowerReraise(b, exc, final).g, gf, arr, seen) && (exc, t) in arr && RunBlock(Read(b.raiseTo), final, u, o)
    ensures Leads(arr, seen, b.frames, b.raiseTo, t + u, AfterFinally(Raised(true), o))
    decreases BlockSize(final) + FrameSize(b.frames), 1
  {
    hide LowerBlock, RunBlock, LegalBlock, FrameSize;
    var b1 := b.(cur := exc);
    GrownBlock(b1, final);
    var b2 := LowerBlock(b1, final);
    LinkAllExtends(b2.g, b2.cur, b2.raiseTo);
    var g3 := LinkAll(b2.g, b2.cur, b2.raiseTo);
    FinalTrans(b2.g, b2.cur, b2.cur + 1, g3, gf, arr, seen);
    assert t + [] == t;
    Arrive(b1, arr, t, []);
    SimBlock(b1, final, gf, arr, seen, t, u, o);
    if o == Normal {
      FollowAll(b2, g3, b2.raiseTo, gf, arr, seen, t + u);
    }
  }

  /** What holds when a `try` with a `finally` has been lowered. */
  ghost predicate FinallyReady(b: State, s: Stmt, gf: Graph, arr: Arrivals, seen: iset<Trace>)
    requires b.cur < |b.g| && s.Try?
  {
    var b1 := Join(b, s);
    var b2 := LowerBlock(b1, s.final);
    && StateOk(b1) && b1.g[b1.cur].succs == [] && Final(b1.g, gf, arr, seen)
    && StateOk(b2) && Final(b2.g, gf, arr, seen) && 2 <= |b.g| < |b2.g| && b2.g[|b.g|] == EMPTY
    && Final(LowerReraise(b2, |b.g|, s.final).g, gf, arr, seen)
    && LowerReraise(b2, |b.g|, s.final).cur == b2.cur
    && LowerReraise(b2, |b.g|, s.final).g[b2.cur] == b2.g[b2.cur]
  }

  lemma {:induction false} SimFinallyReady(b: State, s: Stmt, gf: Graph, arr: Arrivals, seen: iset<Trace>)
    requires StateOk(b) && s.Try? && s.final.Cons? && LegalStmt(s)
    requires Final(LowerTry(b, s).g, gf, arr, seen)
    ensures FinallyReady(b, s, gf, arr, seen)
  {
    hide LowerBlock, LowerReraise, Join, LegalBlock, LegalHandlers, Lead, FrameSize;
    var exc := |b.g|;
    var b1 := Join(b, s);
    GrownJoin(b, s);
    GrownBlock(b1, s.final);
    var b2 := LowerBlock(b1, s.final);
    assert Kept(b1.g, b1.cur, b1.cur + 1, b2.g, exc);
    GrownReraise(b2, exc, s.final);
    var b3 := LowerReraise(b2, exc, s.final);
    assert Kept(b2.g, exc, exc + 1, b3.g, b2.cur);
    FinalTrans(b2.g, exc, exc + 1, b3.g, gf, arr, seen);
    FinalTrans(b1.g, b1.cur, b1.cur + 1, b2.g, gf, arr, seen);
  }

  lemma {:induction false} SimFinally(b: State, s: Stmt, gf: Graph, arr: Arrivals, seen: iset<Trace>, t: Trace, o1: Outcome, u: Trace, o2: Outcome)
    requires StateOk(b) && s.Try? && s.final.Cons? && LegalBlock(s.final)
    requires FinallyReady(b, s, gf, arr, seen) && o1 != Cut && RunBlock(Read(b.raiseTo), s.final, u, o2)
    requires o1 == Normal ==> At(Join(b, s), arr, t)
    requires Leads(arr, seen, b.frames + [Finally(s.final, b.raiseTo)], [|b.g|], t, o1)
    ensures var o := AfterFinally(o1, o2);
      && (o == Normal ==> At(LowerTry(b, s), arr, t + u))
      && Leads(arr, seen, b.frames, b.raiseTo, t + u, o)
    decreases BlockSize(s.final) + FrameSize(b.frames), 2
  {
    hide LowerBlock, LowerReraise, Join, RunBlock, LegalBlock, LeadsJump, FrameSize;
    var b1 := Join(b, s);
    var b2 := LowerBlock(b1, s.final);
    if o1 == Normal {
      SimBlock(b1, s.final, gf, arr, seen, t, u, o2);
    } else if o1.Raised? {
      assert [|b.g|] != [EXIT] && ([|b.g|][0], t) in arr;
      SimReraise(b2, |b.g|, s.final, gf, arr, seen, t, u, o2);
    } else {
      LeadsPopFinally(arr, seen, b.frames, s.final, b.raiseTo, t, o1);
    }
  }

  lemma {:induction false} SimTry(b: State, s: Stmt, gf: Graph, arr: Arrivals, seen: iset<Trace>, t: Trace, u: Trace, o: Outcome)
    requires StateOk(b) && s.Try? && LegalStmt(s)
    requires Final(LowerTry(b, s).g, gf, arr, seen) && At(b, arr, t) && RunBody(Read(b.raiseTo), s, u, o)
    ensures o == Normal ==> At(LowerTry(b, s), arr, t + u)
    ensures Leads(arr, seen, b.frames, b.raiseTo, t + u, o)
    decreases StmtSize(s) + FrameSize(b.frames), 0, 2
  {
    hide LowerBlock, LowerReraise, Join, RunBlock, RunGuarded, LegalBlock, LegalHandlers, Lead, Leads, FrameSize;
    if s.final.Nil? {
      SimJoin(b, s, gf, arr, seen, t, u, o);
    } else {
      SimFinallyReady(b, s, gf, arr, seen);
      if o == Cut && RunGuarded(Read(b.raiseTo), s, u, Cut) {
        SimJoin(b, s, gf, arr, seen, t, u, Cut);
        LeadsSame(arr, seen, OpenTry(b, s).frames, PastTry(b, s), b.frames, b.raiseTo, t + u);
      } else {
        var t1, t2, o1, o2 :| u == t1 + t2 && o1 != Cut && o == AfterFinally(o1, o2) &&
          RunGuarded(Read(b.raiseTo), s, t1, o1) && RunBlock(Read(b.raiseTo), s.final, t2, o2);
        SimJoin(b, s, gf, arr, seen, t, t1, o1);
        SimFinally(b, s, gf, arr, seen, t + t1, o1, t2, o2);
        Assoc(t, t1, t2);
      }
    }
  }

  /** In any builder state and for any closed set, what the body throws arrives at each
      handler. */
  lemma SimEntries(b: State, s: Stmt, gf: Graph, arr: Arrivals, seen: iset<Trace>, t: Trace, u: Trace)
    requires StateOk(b) && s.Try? && LegalStmt(s) && Final(LowerTry(b, s).g, gf, arr, seen) && At(b, arr, t)
    requires Throws(WRITTEN, s.body, Spill(Read(b.raiseTo), s), u)
    ensures forall i: nat | FirstHandler(b, s) <= i < FirstHandler(b, s) + HandlerCount(s.handlers) :: (i, t + u) in arr
  {
    hide LowerBlock, LowerGuarded, Join, LowerReraise, Throws, LegalStmt, Spill, TryReady, FirstHandler, FrameSize;
    if s.final.Cons? {
      SimFinallyReady(b, s, gf, arr, seen);
    }
    SimJoinReady(b, s, gf, arr, seen, t);
    SimGuardedThrow(b, s, gf, arr, seen, t, u);
  }

  /** Outside every `try` region, with no `finally`, what completes the body arrives at
      each handler with what the `else` leads with as well. */
  lemma SimSpill(b: State, s: Stmt, gf: Graph, arr: Arrivals, seen: iset<Trace>, t: Trace, n: Trace)
    requires StateOk(b) && s.Try? && LegalStmt(s) && Final(LowerTry(b, s).g, gf, arr, seen) && At(b, arr, t)
    requires !InTry(b) && s.final.Nil? && RunBlock(WRITTEN, s.body, n, Normal)
    ensures forall i: nat | FirstHandler(b, s) <= i < FirstHandler(b, s) + HandlerCount(s.handlers) ::
      (i, t + (n + Lead(s.orelse))) in arr
  {
    hide LowerTry, RunBlock, LegalStmt, Lead, FirstHandler, Final, StateOk, FrameSize;
    assert ThrowsLate(WRITTEN, s.body, Spill(Read(b.raiseTo), s), n + Lead(s.orelse));
    SimEntries(b, s, gf, arr, seen, t, n + Lead(s.orelse));
  }

  lemma SimJoinReady(b: State, s: Stmt, gf: Graph, arr: Arrivals, seen: iset<Trace>, t: Trace)
    requires StateOk(b) && s.Try? && LegalStmt(s) && Final(Join(b, s).g, gf, arr, seen) && At(b, arr, t)
    ensures TryReady(b, s, gf, arr, seen, t)
  {
    hide LowerGuarded, OpenTry, PastTry, LegalStmt, FramesOk, FrameOk, TryReady, FrameSize;
    GrownGuarded(b, s);
    var (b3, ends) := LowerGuarded(b, s);
    GrownJoined(b, b3, ends, FirstHandler(b, s));
    FinalTrans(b3.g, FirstHandler(b, s), |b3.g|, Join(b, s).g, gf, arr, seen);
    SimOpenTry(b, s, gf, arr, seen, t);
  }

  lemma LeadsSame(arr: Arrivals, seen: iset<Trace>, fs: seq<Frame>, rs: seq<nat>, fs': seq<Frame>, rs': seq<nat>, t: Trace)
    requires Leads(arr, seen, fs, rs, t, Cut)
    ensures Leads(arr, seen, fs', rs', t, Cut)
  {
  }

  // ---- functions ------------------------------------------------------

  /** Where the walks of `g` arrive and what they spell. */
  ghost function Walks(g: Graph): Arrivals {
    iset p: (nat, Trace) | Reaches(g, p.1, p.0)
  }

  ghost function Spelled(g: Graph): iset<Trace> {
    iset t | Spells(g, t)
  }

  lemma WalksClosed(g: Graph)
    requires GraphOk(g)
    ensures Closed(Walks(g), Spelled(g), g) && (ENTRY, []) in Walks(g)
  {
    ReachesEntry(g);
    forall a: nat, u, c | a < |g| && c in g[a].succs
      ensures Carried(Walks(g), g, a, u, c)
    {
      if Reaches(g, u, a) {
        assert BlockOk(g, a);
        ReachesStep(g, u, a, c);
      }
    }
    forall a: nat, u, e
      ensures Shown(Walks(g), Spelled(g), g, a, u, e)
    {
      if Reaches(g, u, a) {
        ReachesInRange(g, u, a);
      }
    }
  }
}
