/** The graph the builder makes, as functions from one builder state to the next.
    Class `Builder.Builder` is proved to compute exactly these. */
module Lower {
  import opened Cfg
  import opened Python

  /** Something a jump has to pass on its way out. */
  datatype Frame =
    | Loop(brk: nat, cont: nat)
    | Finally(body: Block, outerRaise: seq<nat>)

  datatype State = State(g: Graph, cur: nat, frames: seq<Frame>, raiseTo: seq<nat>)

  /** What is left to lower in the `finally` bodies on the frame stack. */
  function FrameSize(fs: seq<Frame>): nat {
    if fs == [] then 0
    else
      FrameSize(fs[..|fs| - 1]) +
      match fs[|fs| - 1] { case Loop(_, _) => 0 case Finally(body, _) => 1 + BlockSize(body) }
  }

  lemma FrameSizePush(fs: seq<Frame>, f: Frame)
    ensures FrameSize(fs + [f]) == FrameSize(fs) + if f.Loop? then 0 else 1 + BlockSize(f.body)
  {
    assert (fs + [f])[..|fs|] == fs;
  }

  lemma FrameSizePop(fs: seq<Frame>)
    requires fs != []
    ensures FrameSize(fs[..|fs| - 1]) <= FrameSize(fs)
    ensures fs[|fs| - 1].Finally? ==> FrameSize(fs[..|fs| - 1]) + BlockSize(fs[|fs| - 1].body) < FrameSize(fs)
  {
  }

  // ---- graph plumbing -------------------------------------------------

  function Link(g: Graph, a: nat, c: nat): (r: Graph)
    requires a < |g|
    ensures |r| == |g|
  {
    if c in g[a].succs then g else g[a := g[a].(succs := g[a].succs + [c])]
  }

  function LinkAll(g: Graph, a: nat, ts: seq<nat>): (r: Graph)
    requires a < |g|
    ensures |r| == |g|
  {
    if ts == [] then g else Link(LinkAll(g, a, ts[..|ts| - 1]), a, ts[|ts| - 1])
  }

  /** An edge to `c` from every block of `froms`. */
  function LinkFrom(g: Graph, froms: seq<nat>, c: nat): (r: Graph)
    requires forall i :: 0 <= i < |froms| ==> froms[i] < |g|
    ensures |r| == |g|
  {
    if froms == [] then g
    else Link(LinkFrom(g, froms[..|froms| - 1], c), froms[|froms| - 1], c)
  }

  function Emit(g: Graph, a: nat, ev: Trace): (r: Graph)
    requires a < |g|
    ensures |r| == |g|
  {
    g[a := g[a].(events := g[a].events + ev)]
  }

  /** `n` new blocks. */
  function Grow(g: Graph, n: nat): (r: Graph)
    ensures |r| == |g| + n
  {
    g + seq(n, _ => EMPTY)
  }

  lemma GrowTwice(g: Graph, a: nat, c: nat)
    ensures Grow(Grow(g, a), c) == Grow(g, a + c)
  {
  }

  /** An exception raised here would not just leave the function. */
  predicate InTry(b: State) {
    b.raiseTo != [EXIT]
  }

  /** What the graph makes of a block that is lowered with these raise targets. */
  function Read(rs: seq<nat>): Rules {
    Rules(rs == [EXIT], false)
  }

  function TailRaise(b: State): State
    requires b.cur < |b.g|
  {
    if InTry(b) then b.(g := LinkAll(b.g, b.cur, b.raiseTo)) else b
  }

  /** Inside a `try` region every statement starts a block of its own, and the block
      before it can raise. */
  function Prelude(b: State): State
    requires b.cur < |b.g|
  {
    if InTry(b) then
      var n := |b.g|;
      b.(g := Link(Grow(LinkAll(b.g, b.cur, b.raiseTo), 1), b.cur, n), cur := n)
    else b
  }

  // ---- statements -----------------------------------------------------

  predicate Follows(b: State, r: State) {
    r.cur < |r.g| && |b.g| <= |r.g| && r.frames == b.frames && r.raiseTo == b.raiseTo
  }

  function LowerBlock(b: State, k: Block): (r: State)
    requires b.cur < |b.g|
    ensures Follows(b, r)
    decreases BlockSize(k) + FrameSize(b.frames), 0
  {
    match k
    case Nil => b
    case Cons(s, rest) => LowerBlock(LowerStmt(b, s), rest)
  }

  function LowerStmt(b: State, s: Stmt): (r: State)
    requires b.cur < |b.g|
    ensures Follows(b, r)
    decreases StmtSize(s) + FrameSize(b.frames), 1
  {
    LowerBody(Prelude(b), s)
  }

  function LowerBody(b: State, s: Stmt): (r: State)
    requires b.cur < |b.g|
    ensures Follows(b, r)
    decreases StmtSize(s) + FrameSize(b.frames), 0
  {
    match s
    case Simple(ev) => b.(g := Emit(b.g, b.cur, ev))
    case Return(ev) => Jump(b.(g := Emit(b.g, b.cur, ev)), Returned)
    case Raise(ev) =>
      var g1 := LinkAll(Emit(b.g, b.cur, ev), b.cur, b.raiseTo);
      b.(g := Grow(g1, 1), cur := |g1|)
    case Break => Jump(b, Broke)
    case Continue => Jump(b, Continued)
    case If(cond, body, alts) => LowerIf(b, cond, body, alts)
    case While(always, cond, body, orelse) => LowerWhile(b, always, cond, body, orelse)
    case For(iterable, nonEmpty, target, body, orelse) => LowerFor(b, iterable, nonEmpty, target, body, orelse)
    case Try(_, _, _, _) => LowerTry(b, s)
  }

  /** A copy of every `finally` between here and the destination, then the edge there. */
  function Jump(b: State, kind: Outcome): (r: State)
    requires b.cur < |b.g|
    ensures Follows(b, r)
    decreases FrameSize(b.frames), |b.frames|, 1
  {
    var (u, dest) := Unwind(b, kind);
    State(Grow(Link(u.g, u.cur, dest), 1), |u.g|, b.frames, b.raiseTo)
  }

  /** The state in which a jump through `b.frames` has run every `finally` it passes,
      and where it goes from there. */
  function Unwind(b: State, kind: Outcome): (r: (State, nat))
    requires b.cur < |b.g|
    ensures r.0.cur < |r.0.g| && |b.g| <= |r.0.g|
    decreases FrameSize(b.frames), |b.frames|, 0
  {
    if b.frames == [] then (b, EXIT)
    else
      var outer := b.frames[..|b.frames| - 1];
      match b.frames[|b.frames| - 1]
      case Loop(brk, cont) =>
        if kind == Broke then (b, brk)
        else if kind == Continued then (b, cont)
        else Unwind(b.(frames := outer), kind)
      case Finally(body, outerRaise) =>
        var copy := |b.g|;
        var b1 := State(Link(Grow(b.g, 1), b.cur, copy), copy, outer, outerRaise);
        Unwind(LowerBlock(b1, body), kind)
  }

  function LowerIf(b: State, cond: Trace, body: Block, alts: Alts): (r: State)
    requires b.cur < |b.g|
    ensures Follows(b, r)
    decreases 1 + BlockSize(body) + AltsSize(alts) + FrameSize(b.frames)
  {
    var after := |b.g|;
    var g1 := Emit(Grow(b.g, 1), b.cur, cond);
    var b2 := LowerArm(b.(g := g1), body, b.cur, after);
    LowerAlts(b2, alts, b.cur, after).(cur := after)
  }

  /** A branch from `fork`, rejoining at `after`. */
  function LowerArm(b: State, body: Block, fork: nat, after: nat): (r: State)
    requires fork < |b.g|
    ensures Follows(b, r)
    decreases BlockSize(body) + FrameSize(b.frames), 1
  {
    var head := |b.g|;
    var b1 := LowerBlock(b.(g := Link(Grow(b.g, 1), fork, head), cur := head), body);
    b1.(g := Link(b1.g, b1.cur, after))
  }

  function LowerAlts(b: State, alts: Alts, fork: nat, after: nat): (r: State)
    requires b.cur < |b.g| && fork < |b.g|
    ensures Follows(b, r)
    decreases AltsSize(alts) + FrameSize(b.frames)
  {
    match alts
    case NoElse => b.(g := Link(b.g, fork, after))
    case Else(body) => LowerArm(b, body, fork, after)
    case Elif(cond, body, rest) =>
      var head := |b.g|;
      var g1 := Emit(Link(Grow(b.g, 1), fork, head), head, cond);
      LowerAlts(LowerArm(b.(g := g1, cur := head), body, head, after), rest, head, after)
  }

  /** The loop body, which `continue` and normal completion leave for `cont` and
      `break` for `after`. */
  function LoopBody(b: State, body: Block, cont: nat, after: nat): (r: State)
    requires b.cur < |b.g|
    ensures Follows(b, r)
    decreases BlockSize(body) + FrameSize(b.frames), 1
  {
    var entry := |b.g|;
    FrameSizePush(b.frames, Loop(after, cont));
    var b1 := LowerBlock(State(Link(Grow(b.g, 1), b.cur, entry), entry, b.frames + [Loop(after, cont)], b.raiseTo), body);
    State(Link(b1.g, b1.cur, cont), b1.cur, b.frames, b.raiseTo)
  }

  /** The `else` of a loop, entered from `from` when the loop ends without `break`. */
  function ElseBody(b: State, from: nat, orelse: Block, after: nat): (r: State)
    requires from < |b.g| && after < |b.g|
    ensures Follows(b, r)
    decreases BlockSize(orelse) + FrameSize(b.frames), 1
  {
    var e := |b.g|;
    var b1 := LowerBlock(b.(g := Link(Grow(b.g, 1), from, e), cur := e), orelse);
    b1.(g := Link(b1.g, b1.cur, after), cur := after)
  }

  /** The `else` of `while True`, which nothing enters. */
  function DeadElse(b: State, orelse: Block, after: nat): (r: State)
    requires after < |b.g|
    ensures Follows(b, r)
    decreases BlockSize(orelse) + FrameSize(b.frames), 1
  {
    var b1 := LowerBlock(b.(g := Grow(b.g, 1), cur := |b.g|), orelse);
    b1.(g := Link(b1.g, b1.cur, after), cur := after)
  }

  /** At the header, with the condition in it. The block after the loop is the next. */
  function OpenWhile(b: State, cond: Trace): (r: State)
    requires b.cur < |b.g|
    ensures Follows(b, r) && r.cur == |b.g| && |r.g| == |b.g| + 2
  {
    var header := |b.g|;
    b.(g := Grow(Emit(Link(Grow(b.g, 1), b.cur, header), header, cond), 1), cur := header)
  }

  function LowerWhile(b: State, always: bool, cond: Trace, body: Block, orelse: Block): (r: State)
    requires b.cur < |b.g|
    ensures Follows(b, r)
    decreases 1 + BlockSize(body) + BlockSize(orelse) + FrameSize(b.frames)
  {
    var header, after := |b.g|, |b.g| + 1;
    var b1 := LoopBody(OpenWhile(b, cond), body, header, after);
    if !always then ElseBody(b1, header, orelse, after)
    else if orelse.Cons? then DeadElse(b1, orelse, after)
    else b1.(cur := after)
  }

  /** At the block that binds the target; the header, this block, the block after the
      loop and, for a non-empty literal, the repeat block are allocated in that order. */
  function OpenFor(b: State, iterable: Trace, nonEmpty: bool, target: Trace): (r: State)
    requires b.cur < |b.g|
    ensures Follows(b, r) && r.cur == |b.g| + 1 && |r.g| == |b.g| + if nonEmpty then 4 else 3
  {
    var header, iterate := |b.g|, |b.g| + 1;
    var g1 := Link(Grow(Emit(b.g, b.cur, iterable), 1), b.cur, header);
    var g2 := Emit(Link(Grow(g1, 1), header, iterate), iterate, target);
    b.(g := Grow(g2, if nonEmpty then 2 else 1), cur := iterate)
  }

  function LowerFor(b: State, iterable: Trace, nonEmpty: bool, target: Trace, body: Block, orelse: Block): (r: State)
    requires b.cur < |b.g|
    ensures Follows(b, r)
    decreases 1 + BlockSize(body) + BlockSize(orelse) + FrameSize(b.frames)
  {
    var iterate, after := |b.g| + 1, |b.g| + 2;
    var repeat := if nonEmpty then |b.g| + 3 else |b.g|;
    var b1 := LoopBody(OpenFor(b, iterable, nonEmpty, target), body, repeat, after);
    var b2 := if nonEmpty then b1.(g := Link(b1.g, repeat, iterate)) else b1;
    ElseBody(b2, repeat, orelse, after)
  }

  // ---- try ------------------------------------------------------------

  /** Where an exception goes once no handler has caught it. */
  function PastTry(b: State, s: Stmt): seq<nat>
    requires s.Try?
  {
    if s.final.Cons? then [|b.g|] else b.raiseTo
  }

  /** The rules that the parts of a `try` are read by. */
  lemma TryRules(b: State, s: Stmt)
    requires 2 <= |b.g| && s.Try?
    ensures Inner(Read(b.raiseTo)) == WRITTEN && Outer(Read(b.raiseTo), s.final) == Read(PastTry(b, s))
    ensures Spill(Read(b.raiseTo), s) == if PastTry(b, s) == [EXIT] then Lead(s.orelse) else []
  {
    assert [|b.g|][0] == |b.g|;
  }

  function FirstHandler(b: State, s: Stmt): nat
    requires s.Try?
  {
    if s.final.Cons? then |b.g| + 1 else |b.g|
  }

  function EntryIds(first: nat, n: nat): seq<nat> {
    seq(n, i requires 0 <= i < n => first + i)
  }

  /** At the entry of the body. The block of the exceptional `finally`, one block per
      handler and the entry are allocated in that order. */
  function OpenTry(b: State, s: Stmt): (r: State)
    requires b.cur < |b.g| && s.Try?
    ensures r.cur < |r.g| && |b.g| < |r.g| && FirstHandler(b, s) + HandlerCount(s.handlers) < |r.g|
    ensures FrameSize(r.frames) <= FrameSize(b.frames) + 1 + BlockSize(s.final)
  {
    var first, count := FirstHandler(b, s), HandlerCount(s.handlers);
    var entry := first + count;
    FrameSizePush(b.frames, Finally(s.final, b.raiseTo));
    State(Link(Grow(b.g, entry + 1 - |b.g|), b.cur, entry), entry,
          if s.final.Cons? then b.frames + [Finally(s.final, b.raiseTo)] else b.frames,
          EntryIds(first, count) + PastTry(b, s))
  }

  /** The body's end can raise; then `else`, which the handlers do not cover. */
  function LowerElse(b: State, past: seq<nat>, orelse: Block): (r: State)
    requires b.cur < |b.g|
    ensures Follows(b.(raiseTo := past), r)
    decreases BlockSize(orelse) + FrameSize(b.frames), 1
  {
    TailRaise(LowerBlock(b.(g := LinkAll(b.g, b.cur, b.raiseTo), raiseTo := past), orelse))
  }

  function LowerHandler(b: State, header: Trace, body: Block, unbind: Trace, entry: nat): (r: State)
    requires entry < |b.g|
    ensures Follows(b, r)
    decreases BlockSize(body) + FrameSize(b.frames), 1
  {
    var b1 := LowerBlock(b.(g := Emit(b.g, entry, header), cur := entry), body);
    TailRaise(b1.(g := Emit(b1.g, b1.cur, unbind)))
  }

  /** The handlers, whose entries are the blocks from `entry` on, and the blocks they
      end in. */
  function LowerHandlers(b: State, h: Handlers, entry: nat): (r: (State, seq<nat>))
    requires b.cur < |b.g| && entry + HandlerCount(h) <= |b.g|
    ensures Follows(b, r.0)
    ensures forall i :: 0 <= i < |r.1| ==> r.1[i] < |r.0.g|
    decreases HandlersSize(h) + FrameSize(b.frames)
  {
    match h
    case NoHandler => (b, [])
    case Handler(header, body, unbind, rest) =>
      var b1 := LowerHandler(b, header, body, unbind, entry);
      var (b2, ends) := LowerHandlers(b1, rest, entry + 1);
      (b2, [b1.cur] + ends)
  }

  /** The measure of what is left to lower once a `try` is open. */
  lemma TryMeasure(b: State, s: Stmt)
    requires b.cur < |b.g| && s.Try?
    ensures BlockSize(s.body) + BlockSize(s.orelse) + HandlersSize(s.handlers) + FrameSize(OpenTry(b, s).frames)
      < StmtSize(s) + FrameSize(b.frames)
  {
    hide OpenTry, FrameSize;
  }

  /** At the end of the body. */
  function TryBody(b: State, s: Stmt): (r: State)
    requires b.cur < |b.g| && s.Try?
    ensures Follows(OpenTry(b, s), r)
    decreases StmtSize(s) + FrameSize(b.frames), 0, 0
  {
    TryMeasure(b, s);
    LowerBlock(OpenTry(b, s), s.body)
  }

  /** At the end of `else`. */
  function TryElse(b: State, s: Stmt): (r: State)
    requires b.cur < |b.g| && s.Try?
    ensures Follows(OpenTry(b, s).(raiseTo := PastTry(b, s)), r)
    decreases StmtSize(s) + FrameSize(b.frames), 0, 1
  {
    TryMeasure(b, s);
    LowerElse(TryBody(b, s), PastTry(b, s), s.orelse)
  }

  /** The body, `else` and handlers, with the blocks a run may end them in. */
  function LowerGuarded(b: State, s: Stmt): (r: (State, seq<nat>))
    requires b.cur < |b.g| && s.Try?
    ensures r.0.cur < |r.0.g| && |b.g| < |r.0.g|
    ensures forall i :: 0 <= i < |r.1| ==> r.1[i] < |r.0.g|
    decreases StmtSize(s) + FrameSize(b.frames), 0, 2
  {
    TryMeasure(b, s);
    var b2 := TryElse(b, s);
    var (b3, ends) := LowerHandlers(b2, s.handlers, FirstHandler(b, s));
    (b3, [b2.cur] + ends)
  }

  /** At the block every normal end of the guarded part joins. */
  function Join(b: State, s: Stmt): (r: State)
    requires b.cur < |b.g| && s.Try?
    ensures r.cur < |r.g| && |b.g| < |r.g| && r.frames == b.frames && r.raiseTo == b.raiseTo
    decreases StmtSize(s) + FrameSize(b.frames), 0, 3
  {
    var (b3, ends) := LowerGuarded(b, s);
    State(LinkFrom(Grow(b3.g, 1), ends, |b3.g|), |b3.g|, b.frames, b.raiseTo)
  }

  /** The exceptional copy of `finally`, which raises again. */
  function LowerReraise(b: State, exc: nat, final: Block): (r: State)
    requires b.cur < |b.g| && exc < |b.g|
    ensures Follows(b, r)
    decreases BlockSize(final) + FrameSize(b.frames), 1
  {
    var b1 := LowerBlock(b.(cur := exc), final);
    b1.(g := LinkAll(b1.g, b1.cur, b1.raiseTo), cur := b.cur)
  }

  function LowerTry(b: State, s: Stmt): (r: State)
    requires b.cur < |b.g| && s.Try?
    ensures Follows(b, r)
    decreases StmtSize(s) + FrameSize(b.frames), 0, 4
  {
    var b1 := Join(b, s);
    if s.final.Cons? then LowerReraise(LowerBlock(b1, s.final), |b.g|, s.final) else b1
  }

  // ---- functions ------------------------------------------------------

  const START: State := State([EMPTY, EMPTY], ENTRY, [], [EXIT])

  function Build(body: Block): Graph {
    var b := LowerBlock(START, body);
    Link(b.g, b.cur, EXIT)
  }
}
