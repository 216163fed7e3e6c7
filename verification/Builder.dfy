/** The builder itself: one object that changes as it walks the statements. Each method
    computes the function of the same name on its state. */
module Builder {
  import opened Cfg
  import opened Python
  import L = Lower

  // ---- lemmas about the functions -------------------------------------

  lemma {:induction false} FrameSizePrefix(fs: seq<L.Frame>, i: nat)
    requires i <= |fs|
    ensures L.FrameSize(fs[..i]) <= L.FrameSize(fs)
    decreases |fs|
  {
    if i < |fs| {
      FrameSizePrefix(fs[..|fs| - 1], i);
      assert fs[..|fs| - 1][..i] == fs[..i];
    } else {
      assert fs[..i] == fs;
    }
  }

  lemma FrameSizeAt(fs: seq<L.Frame>, i: nat)
    requires i < |fs| && fs[i].Finally?
    ensures L.FrameSize(fs[..i]) + 1 + BlockSize(fs[i].body) <= L.FrameSize(fs)
  {
    FrameSizePrefix(fs, i + 1);
    assert fs[..i + 1] == fs[..i] + [fs[i]];
    L.FrameSizePush(fs[..i], fs[i]);
  }

  /** What a jump does to the graph does not depend on where it would raise. */
  lemma {:induction false} UnwindRaise(b: L.State, rs: seq<nat>, kind: Outcome)
    requires b.cur < |b.g|
    ensures var (u, d), (u', d') := L.Unwind(b, kind), L.Unwind(b.(raiseTo := rs), kind);
      u.g == u'.g && u.cur == u'.cur && d == d'
    decreases |b.frames|
  {
    hide L.LowerBlock;
    if b.frames != [] && b.frames[|b.frames| - 1].Loop? {
      UnwindRaise(b.(frames := b.frames[..|b.frames| - 1]), rs, kind);
    }
  }

  predicate SameUnwind(b: L.State, b': L.State, kind: Outcome)
    requires b.cur < |b.g| && b'.cur < |b'.g|
  {
    var (u, d), (u', d') := L.Unwind(b, kind), L.Unwind(b', kind);
    u.g == u'.g && u.cur == u'.cur && d == d'
  }

  lemma UnwindStep(b: L.State, kind: Outcome)
    requires b.cur < |b.g|
    ensures b.frames == [] ==> L.Unwind(b, kind) == (b, EXIT)
    ensures b.frames != [] ==>
      var outer := b.frames[..|b.frames| - 1];
      match b.frames[|b.frames| - 1] {
        case Loop(brk, cont) =>
          L.Unwind(b, kind) == if kind == Broke then (b, brk) else if kind == Continued then (b, cont)
            else L.Unwind(b.(frames := outer), kind)
        case Finally(body, outerRaise) =>
          L.Unwind(b, kind) == L.Unwind(
            L.LowerBlock(L.State(L.Link(L.Grow(b.g, 1), b.cur, |b.g|), |b.g|, outer, outerRaise), body), kind)
      }
  {
    hide L.LowerBlock;
  }

  class Builder {
    var blocks: seq<BasicBlock>
    var cur: nat
    var frames: seq<L.Frame>
    var raiseTo: seq<nat>

    function State(): L.State
      reads this
    {
      L.State(blocks, cur, frames, raiseTo)
    }

    constructor ()
      ensures State() == L.START
    {
      blocks, cur, frames, raiseTo := [EMPTY, EMPTY], ENTRY, [], [EXIT];
    }

    // ---- graph plumbing -----------------------------------------------

    method NewBlock() returns (n: nat)
      modifies this`blocks
      ensures n == |old(blocks)| && blocks == L.Grow(old(blocks), 1)
    {
      n := |blocks|;
      blocks := blocks + [EMPTY];
    }

    method Edge(from: nat, to: nat)
      requires from < |blocks|
      modifies this`blocks
      ensures blocks == L.Link(old(blocks), from, to)
    {
      var succs := blocks[from].succs;
      if to !in succs {
        blocks := blocks[from := blocks[from].(succs := succs + [to])];
      }
    }

    method EdgesToRaise(from: nat)
      requires from < |blocks|
      modifies this`blocks
      ensures blocks == L.LinkAll(old(blocks), from, raiseTo)
    {
      for i := 0 to |raiseTo|
        invariant |blocks| == |old(blocks)| && blocks == L.LinkAll(old(blocks), from, raiseTo[..i])
      {
        assert raiseTo[..i + 1][..i] == raiseTo[..i];
        Edge(from, raiseTo[i]);
      }
      assert raiseTo[..|raiseTo|] == raiseTo;
    }

    method TailRaise()
      requires cur < |blocks|
      modifies this`blocks
      ensures State() == L.TailRaise(old(State()))
    {
      if raiseTo != [EXIT] {
        EdgesToRaise(cur);
      }
    }

    method Emit(events: Trace)
      requires cur < |blocks|
      modifies this`blocks
      ensures blocks == L.Emit(old(blocks), cur, events)
    {
      blocks := blocks[cur := blocks[cur].(events := blocks[cur].events + events)];
    }

    // ---- statements ---------------------------------------------------

    method Block(k: Block)
      requires cur < |blocks|
      modifies this
      ensures State() == L.LowerBlock(old(State()), k)
      decreases BlockSize(k) + L.FrameSize(frames), 0
    {
      hide L.LowerStmt;
      var rest := k;
      while rest.Cons?
        invariant cur < |blocks| && frames == old(frames) && BlockSize(rest) <= BlockSize(k)
        invariant L.LowerBlock(State(), rest) == L.LowerBlock(old(State()), k)
        decreases BlockSize(rest)
      {
        Stmt(rest.head);
        rest := rest.tail;
      }
    }

    method Stmt(s: Stmt)
      requires cur < |blocks|
      modifies this
      ensures State() == L.LowerStmt(old(State()), s)
      decreases StmtSize(s) + L.FrameSize(frames), 1
    {
      hide L.LowerBody;
      if raiseTo != [EXIT] {
        var prev := cur;
        EdgesToRaise(prev);
        var next := NewBlock();
        Edge(prev, next);
        cur := next;
      }
      assert State() == L.Prelude(old(State()));
      Body(s);
    }

    method Body(s: Stmt)
      requires cur < |blocks|
      modifies this
      ensures State() == L.LowerBody(old(State()), s)
      decreases StmtSize(s) + L.FrameSize(frames), 0
    {
      hide L.Jump, L.LowerIf, L.LowerWhile, L.LowerFor, L.LowerTry, L.LowerBlock, L.LowerStmt;
      match s
      case Simple(ev) => Emit(ev);
      case Return(ev) =>
        Emit(ev);
        Jump(Returned);
      case Raise(ev) =>
        Emit(ev);
        EdgesToRaise(cur);
        cur := NewBlock();
      case Break => Jump(Broke);
      case Continue => Jump(Continued);
      case If(cond, body, alts) => If(cond, body, alts);
      case While(always, cond, body, orelse) => While(always, cond, body, orelse);
      case For(iterable, nonEmpty, target, body, orelse) => For(iterable, nonEmpty, target, body, orelse);
      case Try(_, _, _, _) => Try(s);
    }

    /** A jump leaves the frames it crosses from the top of the stack down, and lowers the
        body of each `finally` among them anew, with the frames below it. */
    method Jump(kind: Outcome)
      requires cur < |blocks|
      modifies this
      ensures State() == L.Jump(old(State()), kind)
      decreases L.FrameSize(frames), |frames|, 1
    {
      hide L.LowerBlock, L.Unwind, L.FrameSize;
      var i := |frames|;
      var dest := EXIT;
      assert frames[..i] == frames;
      ghost var start := State();
      while true
        invariant 0 <= i <= |frames| && frames == start.frames && raiseTo == start.raiseTo
        invariant cur < |blocks| && SameUnwind(L.State(blocks, cur, frames[..i], raiseTo), start, kind)
        decreases i
      {
        UnwindStep(L.State(blocks, cur, frames[..i], raiseTo), kind);
        if i == 0 {
          break;
        }
        i := i - 1;
        assert frames[..i + 1][..i] == frames[..i];
        match frames[i]
        case Loop(brk, cont) =>
          if kind == Broke || kind == Continued {
            dest := if kind == Broke then brk else cont;
            break;
          }
        case Finally(body, outerRaise) =>
          FrameSizeAt(frames, i);
          RunFinally(i, body, outerRaise, kind);
      }
      Edge(cur, dest);
      cur := NewBlock();
    }

    /** A copy of the `finally` in frame `i`, under the frames outside it. */
    method RunFinally(i: nat, body: Python.Block, outerRaise: seq<nat>, kind: Outcome)
      requires cur < |blocks| && i < |frames| && frames[i] == L.Finally(body, outerRaise)
      modifies this
      ensures frames == old(frames) && raiseTo == old(raiseTo) && cur < |blocks|
      ensures SameUnwind(L.State(blocks, cur, frames[..i], raiseTo), old(L.State(blocks, cur, frames[..i + 1], raiseTo)), kind)
      decreases BlockSize(body) + L.FrameSize(frames[..i]), 1
    {
      hide L.LowerBlock, L.Unwind, L.FrameSize;
      ghost var before := L.State(blocks, cur, frames[..i + 1], raiseTo);
      assert frames[..i + 1][..i] == frames[..i];
      var tail, saved := frames[i..], raiseTo;
      frames, raiseTo := frames[..i], outerRaise;
      var copy := NewBlock();
      Edge(cur, copy);
      cur := copy;
      Block(body);
      UnwindStep(before, kind);
      UnwindRaise(State(), saved, kind);
      frames, raiseTo := frames + tail, saved;
      assert frames == old(frames) && frames[..i] == old(frames)[..i];
    }

    method If(cond: Trace, body: Python.Block, alts: Alts)
      requires cur < |blocks|
      modifies this
      ensures State() == L.LowerIf(old(State()), cond, body, alts)
      decreases 1 + BlockSize(body) + AltsSize(alts) + L.FrameSize(frames)
    {
      hide L.LowerBlock, L.LowerArm, L.FrameSize;
      var after := NewBlock();
      var fork := cur;
      Emit(cond);
      Arm(body, fork, after);
      Alternatives(alts, fork, after);
      cur := after;
    }

    method Alternatives(alts: Alts, fork0: nat, after: nat)
      requires cur < |blocks| && fork0 < |blocks|
      modifies this
      ensures State() == L.LowerAlts(old(State()), alts, fork0, after)
      decreases AltsSize(alts) + L.FrameSize(frames), 1
    {
      hide L.LowerBlock, L.LowerArm, L.FrameSize;
      var fork: nat, rest, hasElse := fork0, alts, false;
      while !rest.NoElse?
        invariant cur < |blocks| && fork < |blocks| && frames == old(frames) && AltsSize(rest) <= AltsSize(alts)
        invariant hasElse ==> rest.NoElse? && State() == L.LowerAlts(old(State()), alts, fork0, after)
        invariant !hasElse ==> L.LowerAlts(State(), rest, fork, after) == L.LowerAlts(old(State()), alts, fork0, after)
        decreases AltsSize(rest)
      {
        match rest
        case Elif(cond, body, more) =>
          var head := NewBlock();
          Edge(fork, head);
          cur := head;
          Emit(cond);
          Arm(body, head, after);
          fork, rest := head, more;
        case Else(body) =>
          Arm(body, fork, after);
          hasElse, rest := true, NoElse;
      }
      if !hasElse {
        Edge(fork, after);
      }
    }

    method Arm(body: Python.Block, fork: nat, after: nat)
      requires fork < |blocks|
      modifies this
      ensures State() == L.LowerArm(old(State()), body, fork, after)
      decreases BlockSize(body) + L.FrameSize(frames), 1
    {
      hide L.LowerBlock, L.FrameSize;
      var head := NewBlock();
      Edge(fork, head);
      cur := head;
      Block(body);
      Edge(cur, after);
    }

    method LoopBody(body: Python.Block, header: nat, after: nat)
      requires cur < |blocks|
      modifies this
      ensures State() == L.LoopBody(old(State()), body, header, after)
      decreases BlockSize(body) + L.FrameSize(frames), 1
    {
      hide L.LowerBlock, L.FrameSize;
      var entry := NewBlock();
      Edge(cur, entry);
      cur := entry;
      L.FrameSizePush(frames, L.Loop(after, header));
      frames := frames + [L.Loop(after, header)];
      Block(body);
      frames := frames[..|frames| - 1];
      assert frames == old(frames);
      Edge(cur, header);
    }

    /** The `else` of a loop, entered from `from` when the loop ends without `break`. */
    method ElseBody(from: nat, orelse: Python.Block, after: nat)
      requires from < |blocks| && after < |blocks|
      modifies this
      ensures State() == L.ElseBody(old(State()), from, orelse, after) && cur == after
      decreases BlockSize(orelse) + L.FrameSize(frames), 1
    {
      hide L.LowerBlock, L.FrameSize;
      var e := NewBlock();
      Edge(from, e);
      cur := e;
      Block(orelse);
      Edge(cur, after);
      cur := after;
    }

    method DeadElse(orelse: Python.Block, after: nat)
      requires after < |blocks|
      modifies this
      ensures State() == L.DeadElse(old(State()), orelse, after) && cur == after
      decreases BlockSize(orelse) + L.FrameSize(frames), 1
    {
      hide L.LowerBlock, L.FrameSize;
      cur := NewBlock();
      Block(orelse);
      Edge(cur, after);
      cur := after;
    }

    method OpenWhile(cond: Trace) returns (header: nat, after: nat)
      requires cur < |blocks|
      modifies this`blocks, this`cur
      ensures State() == L.OpenWhile(old(State()), cond)
      ensures header == |old(blocks)| && after == |old(blocks)| + 1
    {
      header := NewBlock();
      Edge(cur, header);
      cur := header;
      Emit(cond);
      after := NewBlock();
    }

    method While(always: bool, cond: Trace, body: Python.Block, orelse: Python.Block)
      requires cur < |blocks|
      modifies this
      ensures State() == L.LowerWhile(old(State()), always, cond, body, orelse)
      decreases 1 + BlockSize(body) + BlockSize(orelse) + L.FrameSize(frames)
    {
      hide L.LowerBlock, L.LoopBody, L.ElseBody, L.DeadElse, L.OpenWhile, L.FrameSize;
      var header, after := OpenWhile(cond);
      LoopBody(body, header, after);
      if always {
        if orelse.Cons? {
          DeadElse(orelse, after);
        }
      } else {
        ElseBody(header, orelse, after);
      }
      cur := after;
    }

    method OpenFor(iterable: Trace, nonEmpty: bool, target: Trace) returns (iterate: nat, repeat: nat, after: nat)
      requires cur < |blocks|
      modifies this`blocks, this`cur
      ensures State() == L.OpenFor(old(State()), iterable, nonEmpty, target)
      ensures iterate == |old(blocks)| + 1 && after == |old(blocks)| + 2
      ensures repeat == if nonEmpty then |old(blocks)| + 3 else |old(blocks)|
    {
      Emit(iterable);
      var header := NewBlock();
      Edge(cur, header);
      iterate := NewBlock();
      Edge(header, iterate);
      cur := iterate;
      Emit(target);
      ghost var graph := blocks;
      after := NewBlock();
      repeat := header;
      if nonEmpty {
        repeat := NewBlock();
        L.GrowTwice(graph, 1, 1);
      }
    }

    method For(iterable: Trace, nonEmpty: bool, target: Trace, body: Python.Block, orelse: Python.Block)
      requires cur < |blocks|
      modifies this
      ensures State() == L.LowerFor(old(State()), iterable, nonEmpty, target, body, orelse)
      decreases 1 + BlockSize(body) + BlockSize(orelse) + L.FrameSize(frames)
    {
      hide L.LowerBlock, L.LoopBody, L.ElseBody, L.OpenFor, L.FrameSize;
      var iterate, repeat, after := OpenFor(iterable, nonEmpty, target);
      LoopBody(body, repeat, after);
      if nonEmpty {
        Edge(repeat, iterate);
      }
      ElseBody(repeat, orelse, after);
      cur := after;
    }

    // ---- try ----------------------------------------------------------

    /** One block for every handler. */
    method HandlerEntries(handlers: Handlers) returns (entries: seq<nat>)
      modifies this`blocks
      ensures blocks == L.Grow(old(blocks), HandlerCount(handlers))
      ensures entries == L.EntryIds(|old(blocks)|, HandlerCount(handlers))
    {
      entries := [];
      var rest := handlers;
      ghost var n := 0;
      while rest.Handler?
        invariant HandlerCount(rest) + n == HandlerCount(handlers)
        invariant blocks == L.Grow(old(blocks), n) && entries == L.EntryIds(|old(blocks)|, n)
        decreases rest
      {
        L.GrowTwice(old(blocks), n, 1);
        var entry := NewBlock();
        entries, n, rest := entries + [entry], n + 1, rest.rest;
      }
    }

    /** The blocks of the `try` up to the entry of its body. */
    method OpenTry(s: Stmt) returns (exc: nat, past: seq<nat>, entries: seq<nat>)
      requires cur < |blocks| && s.Try?
      modifies this
      ensures State() == L.OpenTry(old(State()), s) && past == L.PastTry(old(State()), s)
      ensures exc == |old(blocks)| && entries == L.EntryIds(L.FirstHandler(old(State()), s), HandlerCount(s.handlers))
    {
      past, exc := raiseTo, |blocks|;
      ghost var start := blocks;
      if s.final.Cons? {
        exc := NewBlock();
        past := [exc];
        L.GrowTwice(start, 1, HandlerCount(s.handlers));
      }
      entries := HandlerEntries(s.handlers);
      if s.final.Cons? {
        frames := frames + [L.Finally(s.final, raiseTo)];
      }
      raiseTo := entries + past;
      ghost var before := |blocks| - |start|;
      L.GrowTwice(start, before, 1);
      var entry := NewBlock();
      Edge(cur, entry);
      cur := entry;
    }

    method Else(past: seq<nat>, orelse: Python.Block)
      requires cur < |blocks|
      modifies this
      ensures State() == L.LowerElse(old(State()), past, orelse)
      decreases BlockSize(orelse) + L.FrameSize(frames), 1
    {
      hide L.LowerBlock, L.FrameSize;
      EdgesToRaise(cur);
      raiseTo := past;
      Block(orelse);
      TailRaise();
    }

    method Handler(header: Trace, body: Python.Block, unbind: Trace, entry: nat)
      requires entry < |blocks|
      modifies this
      ensures State() == L.LowerHandler(old(State()), header, body, unbind, entry)
      decreases BlockSize(body) + L.FrameSize(frames), 1
    {
      hide L.LowerBlock, L.FrameSize;
      cur := entry;
      Emit(header);
      Block(body);
      Emit(unbind);
      TailRaise();
    }

    method Handlers(handlers: Handlers, entries: seq<nat>, ghost first: nat) returns (ends: seq<nat>)
      requires cur < |blocks| && first + HandlerCount(handlers) <= |blocks|
      requires entries == L.EntryIds(first, HandlerCount(handlers))
      modifies this
      ensures (State(), ends) == L.LowerHandlers(old(State()), handlers, first)
      decreases HandlersSize(handlers) + L.FrameSize(frames), 1
    {
      hide L.LowerBlock, L.LowerHandler, L.FrameSize;
      ends := [];
      var rest, i := handlers, 0;
      while rest.Handler?
        invariant 0 <= i && i + HandlerCount(rest) == HandlerCount(handlers) && HandlersSize(rest) <= HandlersSize(handlers)
        invariant cur < |blocks| && |old(blocks)| <= |blocks| && frames == old(frames)
        invariant var (r, more), (r0, all) := L.LowerHandlers(State(), rest, first + i), L.LowerHandlers(old(State()), handlers, first);
          r == r0 && ends + more == all
        decreases rest
      {
        Handler(rest.header, rest.body, rest.unbind, entries[i]);
        ends, rest, i := ends + [cur], rest.rest, i + 1;
      }
      assert ends + [] == ends;
    }

    /** The body, `else` and handlers, with the blocks a run may end them in. */
    method Guarded(s: Stmt) returns (exc: nat, ends: seq<nat>)
      requires cur < |blocks| && s.Try?
      modifies this
      ensures (State(), ends) == L.LowerGuarded(old(State()), s) && exc == |old(blocks)|
      ensures frames == L.OpenTry(old(State()), s).frames
      decreases StmtSize(s) + L.FrameSize(frames), 0, 0
    {
      hide L.LowerBlock, L.LowerElse, L.LowerHandlers, L.FrameSize;
      L.TryMeasure(State(), s);
      var past, entries;
      exc, past, entries := OpenTry(s);
      Block(s.body);
      assert State() == L.TryBody(old(State()), s);
      Else(past, s.orelse);
      assert State() == L.TryElse(old(State()), s);
      var tail := cur;
      ends := Handlers(s.handlers, entries, L.FirstHandler(old(State()), s));
      ends := [tail] + ends;
    }

    method Try(s: Stmt)
      requires cur < |blocks| && s.Try?
      modifies this
      ensures State() == L.LowerTry(old(State()), s)
      decreases StmtSize(s) + L.FrameSize(frames), 0, 2
    {
      hide L.LowerBlock, L.LowerGuarded, L.FrameSize;
      var outer := raiseTo;
      var exc, ends := Guarded(s);
      if s.final.Cons? {
        frames := frames[..|frames| - 1];
      }
      raiseTo := outer;
      var join := NewBlock();
      for i := 0 to |ends|
        invariant |blocks| == join + 1 && forall k | 0 <= k < |ends| :: ends[k] < join
        invariant frames == old(frames) && raiseTo == outer
        invariant State() == L.State(L.LinkFrom(L.Grow(L.LowerGuarded(old(State()), s).0.g, 1), ends[..i], join), cur, frames, raiseTo)
      {
        assert ends[..i + 1][..i] == ends[..i];
        Edge(ends[i], join);
      }
      assert ends[..|ends|] == ends;
      cur := join;
      assert State() == L.Join(old(State()), s);
      if s.final.Cons? {
        Block(s.final);
        var afterNormal := cur;
        cur := exc;
        Block(s.final);
        EdgesToRaise(cur);
        cur := afterNormal;
      }
    }
  }

  /** The graph of a function body. */
  method Build(body: Block) returns (g: Graph)
    ensures g == L.Build(body)
  {
    hide L.LowerBlock;
    var b := new Builder();
    b.Block(body);
    b.Edge(b.cur, EXIT);
    g := b.blocks;
  }
}
