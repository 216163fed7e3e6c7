/** Lowering never looks at the edges a block already has: from two states that differ only in the
    edges out of one block, it makes graphs that differ only in the same edges. What is
    lowered next does not depend on the raise edges that the end of a `try` body got. */
module Alike {
  import opened Cfg
  import opened Python
  import opened Lower

  /** Block `i` of `g'` is that of `g`, but that block `a` has edges to `ts` as well. */
  ghost predicate AlikeAt(g: Graph, g': Graph, a: nat, ts: seq<nat>, i: nat)
    requires i < |g| == |g'|
  {
    && g'[i].events == g[i].events
    && (i != a ==> g'[i] == g[i])
    && (forall c :: c in g'[i].succs <==> c in g[i].succs || (i == a && c in ts))
  }

  ghost predicate AlikeGraphs(g: Graph, g': Graph, a: nat, ts: seq<nat>) {
    |g| == |g'| && forall i {:trigger AlikeAt(g, g', a, ts, i)} | 0 <= i < |g| :: AlikeAt(g, g', a, ts, i)
  }

  ghost predicate AlikeStates(b: State, b': State, a: nat, ts: seq<nat>) {
    && AlikeGraphs(b.g, b'.g, a, ts)
    && b'.cur == b.cur && b'.frames == b.frames && b'.raiseTo == b.raiseTo
  }

  // ---- plumbing -------------------------------------------------------

  lemma AlikeLink(g: Graph, g': Graph, a: nat, ts: seq<nat>, from: nat, c: nat)
    requires AlikeGraphs(g, g', a, ts) && from < |g|
    ensures AlikeGraphs(Link(g, from, c), Link(g', from, c), a, ts)
  {
    var r, r' := Link(g, from, c), Link(g', from, c);
    forall i | 0 <= i < |g|
      ensures AlikeAt(r, r', a, ts, i)
    {
      assert AlikeAt(g, g', a, ts, i);
    }
  }

  lemma {:induction false} AlikeLinkAll(g: Graph, g': Graph, a: nat, ts: seq<nat>, from: nat, rs: seq<nat>)
    requires AlikeGraphs(g, g', a, ts) && from < |g|
    ensures AlikeGraphs(LinkAll(g, from, rs), LinkAll(g', from, rs), a, ts)
  {
    if rs != [] {
      var init := rs[..|rs| - 1];
      AlikeLinkAll(g, g', a, ts, from, init);
      AlikeLink(LinkAll(g, from, init), LinkAll(g', from, init), a, ts, from, rs[|rs| - 1]);
    }
  }

  lemma {:induction false} AlikeLinkFrom(g: Graph, g': Graph, a: nat, ts: seq<nat>, froms: seq<nat>, c: nat)
    requires AlikeGraphs(g, g', a, ts) && forall i :: 0 <= i < |froms| ==> froms[i] < |g|
    ensures AlikeGraphs(LinkFrom(g, froms, c), LinkFrom(g', froms, c), a, ts)
  {
    if froms != [] {
      var init := froms[..|froms| - 1];
      AlikeLinkFrom(g, g', a, ts, init, c);
      AlikeLink(LinkFrom(g, init, c), LinkFrom(g', init, c), a, ts, froms[|froms| - 1], c);
    }
  }

  lemma AlikeEmit(g: Graph, g': Graph, a: nat, ts: seq<nat>, from: nat, ev: Trace)
    requires AlikeGraphs(g, g', a, ts) && from < |g|
    ensures AlikeGraphs(Emit(g, from, ev), Emit(g', from, ev), a, ts)
  {
    forall i | 0 <= i < |g|
      ensures AlikeAt(Emit(g, from, ev), Emit(g', from, ev), a, ts, i)
    {
      assert AlikeAt(g, g', a, ts, i);
    }
  }

  lemma AlikeGrow(g: Graph, g': Graph, a: nat, ts: seq<nat>, n: nat)
    requires AlikeGraphs(g, g', a, ts) && a < |g|
    ensures AlikeGraphs(Grow(g, n), Grow(g', n), a, ts)
  {
    forall i | 0 <= i < |g| + n
      ensures AlikeAt(Grow(g, n), Grow(g', n), a, ts, i)
    {
      assert i < |g| ==> AlikeAt(g, g', a, ts, i);
    }
  }

  /** A new block, entered from `from`. */
  lemma AlikeBranch(g: Graph, g': Graph, a: nat, ts: seq<nat>, from: nat)
    requires AlikeGraphs(g, g', a, ts) && a < |g| && from < |g|
    ensures AlikeGraphs(Link(Grow(g, 1), from, |g|), Link(Grow(g', 1), from, |g|), a, ts)
  {
    AlikeGrow(g, g', a, ts, 1);
    AlikeLink(Grow(g, 1), Grow(g', 1), a, ts, from, |g|);
  }

  /** The edges themselves, added to the block. */
  lemma {:induction false} AlikeAdded(g: Graph, a: nat, ts: seq<nat>)
    requires a < |g|
    ensures AlikeGraphs(g, LinkAll(g, a, ts), a, ts)
  {
    if ts != [] {
      var init := ts[..|ts| - 1];
      AlikeAdded(g, a, init);
      var g1 := LinkAll(g, a, init);
      forall i | 0 <= i < |g|
        ensures AlikeAt(g, LinkAll(g, a, ts), a, ts, i)
      {
        assert AlikeAt(g, g1, a, init, i) && ts == init + [ts[|ts| - 1]];
      }
    }
  }

  // ---- statements -----------------------------------------------------

  lemma AlikePrelude(b: State, b': State, a: nat, ts: seq<nat>)
    requires b.cur < |b.g| && a < |b.g| && AlikeStates(b, b', a, ts)
    ensures AlikeStates(Prelude(b), Prelude(b'), a, ts)
  {
    AlikeLinkAll(b.g, b'.g, a, ts, b.cur, b.raiseTo);
    AlikeBranch(LinkAll(b.g, b.cur, b.raiseTo), LinkAll(b'.g, b.cur, b.raiseTo), a, ts, b.cur);
  }

  lemma AlikeTailRaise(b: State, b': State, a: nat, ts: seq<nat>)
    requires b.cur < |b.g| && a < |b.g| && AlikeStates(b, b', a, ts)
    ensures AlikeStates(TailRaise(b), TailRaise(b'), a, ts)
  {
    AlikeLinkAll(b.g, b'.g, a, ts, b.cur, b.raiseTo);
  }

  lemma {:induction false} AlikeBlock(b: State, b': State, a: nat, ts: seq<nat>, k: Block)
    requires b.cur < |b.g| && a < |b.g| && AlikeStates(b, b', a, ts)
    ensures AlikeStates(LowerBlock(b, k), LowerBlock(b', k), a, ts)
    decreases BlockSize(k) + FrameSize(b.frames), 0
  {
    hide AlikeGraphs, LowerStmt;
    AlikeSize(b, b', a, ts);
    if k.Cons? {
      AlikeStmt(b, b', a, ts, k.head);
      AlikeBlock(LowerStmt(b, k.head), LowerStmt(b', k.head), a, ts, k.tail);
    }
  }

  lemma AlikeSize(b: State, b': State, a: nat, ts: seq<nat>)
    requires AlikeStates(b, b', a, ts)
    ensures |b.g| == |b'.g|
  {
  }

  lemma {:induction false} AlikeStmt(b: State, b': State, a: nat, ts: seq<nat>, s: Stmt)
    requires b.cur < |b.g| && a < |b.g| && AlikeStates(b, b', a, ts)
    ensures AlikeStates(LowerStmt(b, s), LowerStmt(b', s), a, ts)
    decreases StmtSize(s) + FrameSize(b.frames), 1
  {
    hide AlikeGraphs, LowerBody;
    AlikeSize(b, b', a, ts);
    AlikePrelude(b, b', a, ts);
    AlikeBody(Prelude(b), Prelude(b'), a, ts, s);
  }

  lemma {:induction false} AlikeBody(b: State, b': State, a: nat, ts: seq<nat>, s: Stmt)
    requires b.cur < |b.g| && a < |b.g| && AlikeStates(b, b', a, ts)
    ensures AlikeStates(LowerBody(b, s), LowerBody(b', s), a, ts)
    decreases StmtSize(s) + FrameSize(b.frames), 0
  {
    hide AlikeGraphs, LowerBlock, LowerStmt, Jump, LowerIf, LowerWhile, LowerFor, LowerTry;
    AlikeSize(b, b', a, ts);
    match s
    case Simple(ev) => AlikeEmit(b.g, b'.g, a, ts, b.cur, ev);
    case Return(ev) =>
      AlikeEmit(b.g, b'.g, a, ts, b.cur, ev);
      AlikeJump(b.(g := Emit(b.g, b.cur, ev)), b'.(g := Emit(b'.g, b.cur, ev)), a, ts, Returned);
    case Raise(ev) =>
      AlikeEmit(b.g, b'.g, a, ts, b.cur, ev);
      var g, g' := Emit(b.g, b.cur, ev), Emit(b'.g, b.cur, ev);
      AlikeLinkAll(g, g', a, ts, b.cur, b.raiseTo);
      AlikeGrow(LinkAll(g, b.cur, b.raiseTo), LinkAll(g', b.cur, b.raiseTo), a, ts, 1);
    case Break => AlikeJump(b, b', a, ts, Broke);
    case Continue => AlikeJump(b, b', a, ts, Continued);
    case If(cond, body, alts) => AlikeIf(b, b', a, ts, cond, body, alts);
    case While(always, cond, body, orelse) => AlikeWhile(b, b', a, ts, always, cond, body, orelse);
    case For(iterable, nonEmpty, target, body, orelse) =>
      AlikeFor(b, b', a, ts, iterable, nonEmpty, target, body, orelse);
    case Try(_, _, _, _) => AlikeTry(b, b', a, ts, s);
  }

  lemma {:induction false} AlikeJump(b: State, b': State, a: nat, ts: seq<nat>, kind: Outcome)
    requires b.cur < |b.g| && a < |b.g| && AlikeStates(b, b', a, ts)
    ensures AlikeStates(Jump(b, kind), Jump(b', kind), a, ts)
    decreases FrameSize(b.frames), |b.frames|, 1
  {
    hide AlikeGraphs, Unwind;
    AlikeSize(b, b', a, ts);
    AlikeUnwind(b, b', a, ts, kind);
    var (u, dest) := Unwind(b, kind);
    var (u', _) := Unwind(b', kind);
    AlikeSize(u, u', a, ts);
    AlikeLink(u.g, u'.g, a, ts, u.cur, dest);
    AlikeGrow(Link(u.g, u.cur, dest), Link(u'.g, u.cur, dest), a, ts, 1);
  }

  lemma {:induction false} AlikeUnwind(b: State, b': State, a: nat, ts: seq<nat>, kind: Outcome)
    requires b.cur < |b.g| && a < |b.g| && AlikeStates(b, b', a, ts)
    ensures AlikeStates(Unwind(b, kind).0, Unwind(b', kind).0, a, ts) && Unwind(b, kind).1 == Unwind(b', kind).1
    decreases FrameSize(b.frames), |b.frames|, 0
  {
    hide AlikeGraphs, LowerBlock;
    AlikeSize(b, b', a, ts);
    if b.frames != [] {
      var outer := b.frames[..|b.frames| - 1];
      match b.frames[|b.frames| - 1]
      case Loop(_, _) =>
        if kind != Broke && kind != Continued {
          AlikeUnwind(b.(frames := outer), b'.(frames := outer), a, ts, kind);
        }
      case Finally(body, rs) =>
        AlikeBranch(b.g, b'.g, a, ts, b.cur);
        var n := |b.g|;
        var c := State(Link(Grow(b.g, 1), b.cur, n), n, outer, rs);
        var c' := State(Link(Grow(b'.g, 1), b.cur, n), n, outer, rs);
        AlikeBlock(c, c', a, ts, body);
        AlikeSize(LowerBlock(c, body), LowerBlock(c', body), a, ts);
        AlikeUnwind(LowerBlock(c, body), LowerBlock(c', body), a, ts, kind);
    }
  }

  // ---- branches and loops ---------------------------------------------

  lemma {:induction false} AlikeArm(b: State, b': State, a: nat, ts: seq<nat>, body: Block, fork: nat, after: nat)
    requires fork < |b.g| && a < |b.g| && AlikeStates(b, b', a, ts)
    ensures AlikeStates(LowerArm(b, body, fork, after), LowerArm(b', body, fork, after), a, ts)
    decreases BlockSize(body) + FrameSize(b.frames), 1
  {
    hide AlikeGraphs, LowerBlock;
    AlikeSize(b, b', a, ts);
    AlikeBranch(b.g, b'.g, a, ts, fork);
    var n := |b.g|;
    var c, c' := b.(g := Link(Grow(b.g, 1), fork, n), cur := n), b'.(g := Link(Grow(b'.g, 1), fork, n), cur := n);
    AlikeBlock(c, c', a, ts, body);
    var d, d' := LowerBlock(c, body), LowerBlock(c', body);
    AlikeSize(d, d', a, ts);
    AlikeLink(d.g, d'.g, a, ts, d.cur, after);
  }

  lemma {:induction false} AlikeAlts(b: State, b': State, a: nat, ts: seq<nat>, alts: Alts, fork: nat, after: nat)
    requires b.cur < |b.g| && fork < |b.g| && a < |b.g| && AlikeStates(b, b', a, ts)
    ensures AlikeStates(LowerAlts(b, alts, fork, after), LowerAlts(b', alts, fork, after), a, ts)
    decreases AltsSize(alts) + FrameSize(b.frames)
  {
    hide AlikeGraphs, LowerArm;
    AlikeSize(b, b', a, ts);
    match alts
    case NoElse => AlikeLink(b.g, b'.g, a, ts, fork, after);
    case Else(body) => AlikeArm(b, b', a, ts, body, fork, after);
    case Elif(cond, body, rest) =>
      var n := |b.g|;
      AlikeBranch(b.g, b'.g, a, ts, fork);
      AlikeEmit(Link(Grow(b.g, 1), fork, n), Link(Grow(b'.g, 1), fork, n), a, ts, n, cond);
      var c := b.(g := Emit(Link(Grow(b.g, 1), fork, n), n, cond), cur := n);
      var c' := b'.(g := Emit(Link(Grow(b'.g, 1), fork, n), n, cond), cur := n);
      AlikeArm(c, c', a, ts, body, n, after);
      AlikeSize(LowerArm(c, body, n, after), LowerArm(c', body, n, after), a, ts);
      AlikeAlts(LowerArm(c, body, n, after), LowerArm(c', body, n, after), a, ts, rest, n, after);
  }

  lemma {:induction false} AlikeIf(b: State, b': State, a: nat, ts: seq<nat>, cond: Trace, body: Block, alts: Alts)
    requires b.cur < |b.g| && a < |b.g| && AlikeStates(b, b', a, ts)
    ensures AlikeStates(LowerIf(b, cond, body, alts), LowerIf(b', cond, body, alts), a, ts)
    decreases 1 + BlockSize(body) + AltsSize(alts) + FrameSize(b.frames)
  {
    hide AlikeGraphs, LowerArm, LowerAlts;
    AlikeSize(b, b', a, ts);
    AlikeGrow(b.g, b'.g, a, ts, 1);
    AlikeEmit(Grow(b.g, 1), Grow(b'.g, 1), a, ts, b.cur, cond);
    var c, c' := b.(g := Emit(Grow(b.g, 1), b.cur, cond)), b'.(g := Emit(Grow(b'.g, 1), b.cur, cond));
    AlikeArm(c, c', a, ts, body, b.cur, |b.g|);
    var d, d' := LowerArm(c, body, b.cur, |b.g|), LowerArm(c', body, b.cur, |b.g|);
    AlikeSize(d, d', a, ts);
    AlikeAlts(d, d', a, ts, alts, b.cur, |b.g|);
  }

  lemma {:induction false} AlikeLoop(b: State, b': State, a: nat, ts: seq<nat>, body: Block, cont: nat, after: nat)
    requires b.cur < |b.g| && a < |b.g| && AlikeStates(b, b', a, ts)
    ensures AlikeStates(LoopBody(b, body, cont, after), LoopBody(b', body, cont, after), a, ts)
    decreases BlockSize(body) + FrameSize(b.frames), 1
  {
    hide AlikeGraphs, LowerBlock;
    AlikeSize(b, b', a, ts);
    FrameSizePush(b.frames, Loop(after, cont));
    AlikeBranch(b.g, b'.g, a, ts, b.cur);
    var n, fs := |b.g|, b.frames + [Loop(after, cont)];
    var c := State(Link(Grow(b.g, 1), b.cur, n), n, fs, b.raiseTo);
    var c' := State(Link(Grow(b'.g, 1), b.cur, n), n, fs, b.raiseTo);
    AlikeBlock(c, c', a, ts, body);
    var d, d' := LowerBlock(c, body), LowerBlock(c', body);
    AlikeSize(d, d', a, ts);
    AlikeLink(d.g, d'.g, a, ts, d.cur, cont);
  }

  lemma {:induction false} AlikeElseBody(b: State, b': State, a: nat, ts: seq<nat>, from: nat, orelse: Block, after: nat)
    requires from < |b.g| && after < |b.g| && a < |b.g| && AlikeStates(b, b', a, ts)
    ensures AlikeStates(ElseBody(b, from, orelse, after), ElseBody(b', from, orelse, after), a, ts)
    decreases BlockSize(orelse) + FrameSize(b.frames), 2
  {
    hide AlikeGraphs, LowerBlock;
    AlikeSize(b, b', a, ts);
    AlikeArm(b, b', a, ts, orelse, from, after);
  }

  lemma {:induction false} AlikeDeadElse(b: State, b': State, a: nat, ts: seq<nat>, orelse: Block, after: nat)
    requires after < |b.g| && a < |b.g| && AlikeStates(b, b', a, ts)
    ensures AlikeStates(DeadElse(b, orelse, after), DeadElse(b', orelse, after), a, ts)
    decreases BlockSize(orelse) + FrameSize(b.frames), 2
  {
    hide AlikeGraphs, LowerBlock;
    AlikeSize(b, b', a, ts);
    AlikeGrow(b.g, b'.g, a, ts, 1);
    var c, c' := b.(g := Grow(b.g, 1), cur := |b.g|), b'.(g := Grow(b'.g, 1), cur := |b.g|);
    AlikeBlock(c, c', a, ts, orelse);
    var d, d' := LowerBlock(c, orelse), LowerBlock(c', orelse);
    AlikeSize(d, d', a, ts);
    AlikeLink(d.g, d'.g, a, ts, d.cur, after);
  }

  lemma AlikeOpenWhile(b: State, b': State, a: nat, ts: seq<nat>, cond: Trace)
    requires b.cur < |b.g| && a < |b.g| && AlikeStates(b, b', a, ts)
    ensures AlikeStates(OpenWhile(b, cond), OpenWhile(b', cond), a, ts)
  {
    hide AlikeGraphs;
    AlikeSize(b, b', a, ts);
    var n := |b.g|;
    AlikeBranch(b.g, b'.g, a, ts, b.cur);
    var g, g' := Link(Grow(b.g, 1), b.cur, n), Link(Grow(b'.g, 1), b.cur, n);
    AlikeEmit(g, g', a, ts, n, cond);
    AlikeGrow(Emit(g, n, cond), Emit(g', n, cond), a, ts, 1);
  }

  lemma {:induction false} AlikeWhile(b: State, b': State, a: nat, ts: seq<nat>, always: bool, cond: Trace, body: Block, orelse: Block)
    requires b.cur < |b.g| && a < |b.g| && AlikeStates(b, b', a, ts)
    ensures AlikeStates(LowerWhile(b, always, cond, body, orelse), LowerWhile(b', always, cond, body, orelse), a, ts)
    decreases 1 + BlockSize(body) + BlockSize(orelse) + FrameSize(b.frames)
  {
    hide AlikeGraphs, LoopBody, OpenWhile, ElseBody, DeadElse;
    AlikeSize(b, b', a, ts);
    AlikeOpenWhile(b, b', a, ts, cond);
    var header, after := |b.g|, |b.g| + 1;
    AlikeLoop(OpenWhile(b, cond), OpenWhile(b', cond), a, ts, body, header, after);
    var c, c' := LoopBody(OpenWhile(b, cond), body, header, after), LoopBody(OpenWhile(b', cond), body, header, after);
    AlikeSize(c, c', a, ts);
    if !always {
      AlikeElseBody(c, c', a, ts, header, orelse, after);
    } else if orelse.Cons? {
      AlikeDeadElse(c, c', a, ts, orelse, after);
    }
  }

  lemma AlikeOpenFor(b: State, b': State, a: nat, ts: seq<nat>, iterable: Trace, nonEmpty: bool, target: Trace)
    requires b.cur < |b.g| && a < |b.g| && AlikeStates(b, b', a, ts)
    ensures AlikeStates(OpenFor(b, iterable, nonEmpty, target), OpenFor(b', iterable, nonEmpty, target), a, ts)
  {
    hide AlikeGraphs;
    AlikeSize(b, b', a, ts);
    var n := |b.g|;
    AlikeEmit(b.g, b'.g, a, ts, b.cur, iterable);
    AlikeBranch(Emit(b.g, b.cur, iterable), Emit(b'.g, b.cur, iterable), a, ts, b.cur);
    var g1, g1' := Link(Grow(Emit(b.g, b.cur, iterable), 1), b.cur, n), Link(Grow(Emit(b'.g, b.cur, iterable), 1), b.cur, n);
    AlikeBranch(g1, g1', a, ts, n);
    AlikeEmit(Link(Grow(g1, 1), n, n + 1), Link(Grow(g1', 1), n, n + 1), a, ts, n + 1, target);
    AlikeGrow(Emit(Link(Grow(g1, 1), n, n + 1), n + 1, target), Emit(Link(Grow(g1', 1), n, n + 1), n + 1, target), a, ts,
              if nonEmpty then 2 else 1);
  }

  lemma {:induction false} AlikeFor(b: State, b': State, a: nat, ts: seq<nat>, iterable: Trace, nonEmpty: bool, target: Trace, body: Block, orelse: Block)
    requires b.cur < |b.g| && a < |b.g| && AlikeStates(b, b', a, ts)
    ensures AlikeStates(LowerFor(b, iterable, nonEmpty, target, body, orelse), LowerFor(b', iterable, nonEmpty, target, body, orelse), a, ts)
    decreases 1 + BlockSize(body) + BlockSize(orelse) + FrameSize(b.frames)
  {
    hide AlikeGraphs, LoopBody, OpenFor, ElseBody;
    AlikeSize(b, b', a, ts);
    AlikeOpenFor(b, b', a, ts, iterable, nonEmpty, target);
    var iterate, after := |b.g| + 1, |b.g| + 2;
    var repeat := if nonEmpty then |b.g| + 3 else |b.g|;
    var o, o' := OpenFor(b, iterable, nonEmpty, target), OpenFor(b', iterable, nonEmpty, target);
    AlikeLoop(o, o', a, ts, body, repeat, after);
    var c, c' := LoopBody(o, body, repeat, after), LoopBody(o', body, repeat, after);
    AlikeSize(c, c', a, ts);
    AlikeLink(c.g, c'.g, a, ts, repeat, iterate);
    var d := if nonEmpty then c.(g := Link(c.g, repeat, iterate)) else c;
    var d' := if nonEmpty then c'.(g := Link(c'.g, repeat, iterate)) else c';
    AlikeElseBody(d, d', a, ts, repeat, orelse, after);
  }

  // ---- try ------------------------------------------------------------

  lemma AlikeOpenTry(b: State, b': State, a: nat, ts: seq<nat>, s: Stmt)
    requires b.cur < |b.g| && a < |b.g| && s.Try? && AlikeStates(b, b', a, ts)
    ensures AlikeStates(OpenTry(b, s), OpenTry(b', s), a, ts)
    ensures PastTry(b, s) == PastTry(b', s) && FirstHandler(b, s) == FirstHandler(b', s)
  {
    hide AlikeGraphs;
    AlikeSize(b, b', a, ts);
    var entry := FirstHandler(b, s) + HandlerCount(s.handlers);
    AlikeGrow(b.g, b'.g, a, ts, entry + 1 - |b.g|);
    AlikeLink(Grow(b.g, entry + 1 - |b.g|), Grow(b'.g, entry + 1 - |b.g|), a, ts, b.cur, entry);
  }

  lemma {:induction false} AlikeElse(b: State, b': State, a: nat, ts: seq<nat>, past: seq<nat>, orelse: Block)
    requires b.cur < |b.g| && a < |b.g| && AlikeStates(b, b', a, ts)
    ensures AlikeStates(LowerElse(b, past, orelse), LowerElse(b', past, orelse), a, ts)
    decreases BlockSize(orelse) + FrameSize(b.frames), 1
  {
    hide AlikeGraphs, LowerBlock;
    AlikeSize(b, b', a, ts);
    AlikeLinkAll(b.g, b'.g, a, ts, b.cur, b.raiseTo);
    var c := b.(g := LinkAll(b.g, b.cur, b.raiseTo), raiseTo := past);
    var c' := b'.(g := LinkAll(b'.g, b.cur, b.raiseTo), raiseTo := past);
    AlikeBlock(c, c', a, ts, orelse);
    AlikeTailRaise(LowerBlock(c, orelse), LowerBlock(c', orelse), a, ts);
  }

  lemma {:induction false} AlikeHandler(b: State, b': State, a: nat, ts: seq<nat>, header: Trace, body: Block, unbind: Trace, entry: nat)
    requires entry < |b.g| && a < |b.g| && AlikeStates(b, b', a, ts)
    ensures AlikeStates(LowerHandler(b, header, body, unbind, entry), LowerHandler(b', header, body, unbind, entry), a, ts)
    decreases BlockSize(body) + FrameSize(b.frames), 1
  {
    hide AlikeGraphs, LowerBlock;
    AlikeSize(b, b', a, ts);
    AlikeEmit(b.g, b'.g, a, ts, entry, header);
    var c, c' := b.(g := Emit(b.g, entry, header), cur := entry), b'.(g := Emit(b'.g, entry, header), cur := entry);
    AlikeBlock(c, c', a, ts, body);
    var d, d' := LowerBlock(c, body), LowerBlock(c', body);
    AlikeSize(d, d', a, ts);
    AlikeEmit(d.g, d'.g, a, ts, d.cur, unbind);
    AlikeTailRaise(d.(g := Emit(d.g, d.cur, unbind)), d'.(g := Emit(d'.g, d.cur, unbind)), a, ts);
  }

  lemma {:induction false} AlikeHandlers(b: State, b': State, a: nat, ts: seq<nat>, h: Handlers, entry: nat)
    requires b.cur < |b.g| && entry + HandlerCount(h) <= |b.g| && a < |b.g| && AlikeStates(b, b', a, ts)
    ensures var r, r' := LowerHandlers(b, h, entry), LowerHandlers(b', h, entry);
      AlikeStates(r.0, r'.0, a, ts) && r.1 == r'.1
    decreases HandlersSize(h) + FrameSize(b.frames)
  {
    hide AlikeGraphs, LowerHandler;
    AlikeSize(b, b', a, ts);
    if h.Handler? {
      AlikeHandler(b, b', a, ts, h.header, h.body, h.unbind, entry);
      var c, c' := LowerHandler(b, h.header, h.body, h.unbind, entry), LowerHandler(b', h.header, h.body, h.unbind, entry);
      AlikeSize(c, c', a, ts);
      AlikeHandlers(c, c', a, ts, h.rest, entry + 1);
    }
  }

  lemma {:induction false} AlikeTryElse(b: State, b': State, a: nat, ts: seq<nat>, s: Stmt)
    requires b.cur < |b.g| && a < |b.g| && s.Try? && AlikeStates(b, b', a, ts)
    ensures AlikeStates(TryElse(b, s), TryElse(b', s), a, ts)
    decreases StmtSize(s) + FrameSize(b.frames), 0, 0
  {
    hide AlikeGraphs, LowerBlock, LowerElse, OpenTry, PastTry;
    AlikeSize(b, b', a, ts);
    TryMeasure(b, s);
    AlikeOpenTry(b, b', a, ts, s);
    AlikeSize(OpenTry(b, s), OpenTry(b', s), a, ts);
    AlikeBlock(OpenTry(b, s), OpenTry(b', s), a, ts, s.body);
    AlikeSize(TryBody(b, s), TryBody(b', s), a, ts);
    AlikeElse(TryBody(b, s), TryBody(b', s), a, ts, PastTry(b, s), s.orelse);
  }

  lemma {:induction false} AlikeJoin(b: State, b': State, a: nat, ts: seq<nat>, s: Stmt)
    requires b.cur < |b.g| && a < |b.g| && s.Try? && AlikeStates(b, b', a, ts)
    ensures AlikeStates(Join(b, s), Join(b', s), a, ts)
    decreases StmtSize(s) + FrameSize(b.frames), 0, 1
  {
    hide AlikeGraphs, TryElse, LowerHandlers, OpenTry, FirstHandler;
    AlikeSize(b, b', a, ts);
    TryMeasure(b, s);
    AlikeOpenTry(b, b', a, ts, s);
    AlikeTryElse(b, b', a, ts, s);
    var c, c' := TryElse(b, s), TryElse(b', s);
    AlikeSize(c, c', a, ts);
    AlikeHandlers(c, c', a, ts, s.handlers, FirstHandler(b, s));
    var (d, ends) := LowerGuarded(b, s);
    var (d', _) := LowerGuarded(b', s);
    AlikeSize(d, d', a, ts);
    AlikeGrow(d.g, d'.g, a, ts, 1);
    AlikeLinkFrom(Grow(d.g, 1), Grow(d'.g, 1), a, ts, ends, |d.g|);
  }

  lemma {:induction false} AlikeReraise(b: State, b': State, a: nat, ts: seq<nat>, exc: nat, final: Block)
    requires b.cur < |b.g| && exc < |b.g| && a < |b.g| && AlikeStates(b, b', a, ts)
    ensures AlikeStates(LowerReraise(b, exc, final), LowerReraise(b', exc, final), a, ts)
    decreases BlockSize(final) + FrameSize(b.frames), 1
  {
    hide AlikeGraphs, LowerBlock;
    AlikeSize(b, b', a, ts);
    AlikeBlock(b.(cur := exc), b'.(cur := exc), a, ts, final);
    var d, d' := LowerBlock(b.(cur := exc), final), LowerBlock(b'.(cur := exc), final);
    AlikeSize(d, d', a, ts);
    AlikeLinkAll(d.g, d'.g, a, ts, d.cur, d.raiseTo);
  }

  lemma {:induction false} AlikeTry(b: State, b': State, a: nat, ts: seq<nat>, s: Stmt)
    requires b.cur < |b.g| && a < |b.g| && s.Try? && AlikeStates(b, b', a, ts)
    ensures AlikeStates(LowerTry(b, s), LowerTry(b', s), a, ts)
    decreases StmtSize(s) + FrameSize(b.frames), 0, 2
  {
    hide AlikeGraphs, LowerBlock, Join, LowerReraise;
    AlikeSize(b, b', a, ts);
    AlikeJoin(b, b', a, ts, s);
    if s.final.Cons? {
      var c, c' := Join(b, s), Join(b', s);
      AlikeSize(c, c', a, ts);
      AlikeBlock(c, c', a, ts, s.final);
      var d, d' := LowerBlock(c, s.final), LowerBlock(c', s.final);
      AlikeSize(d, d', a, ts);
      AlikeReraise(d, d', a, ts, |b.g|, s.final);
    }
  }
}
