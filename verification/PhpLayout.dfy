/** Where the blocks of a PHP unit lie, and which blocks follow them. */
module PhpLayout {
  import opened Wrappers
  import opened PhpFacts
  import opened PhpCompile
  import opened PhpModelled

  predicate BlockAt(g: Graph, b: nat, op: Op, next: seq<nat>) {
    b < |g| && g[b] == Block(op, next)
  }

  /** The blocks of `s` are those from `lo` on, as many as its size: those of a body before
      those of its alternatives and before the condition of an `if`, but after that of a
      loop. `head` is where `s` is entered. */
  ghost predicate Laid(g: Graph, lo: nat, s: Stmt, next: nat, loop: Loop, head: nat)
    decreases s
  {
    match s
    case Compound(k) => LaidAll(g, lo, k, next, loop, head)
    case Skip => head == next
    case If(_, body, alts) =>
      && head == lo + Size(body) + SizeAlts(alts)
      && exists yes, no :: BlockAt(g, head, Nop, [yes, no]) && Laid(g, lo, body, next, loop, yes) && LaidAlts(g, lo + Size(body), alts, next, loop, no)
    case While(_, body) =>
      head == lo && exists entry :: BlockAt(g, lo, Nop, [entry, next]) && Laid(g, lo + 1, body, lo, Loop(next, lo), entry)
    case Break(_) => loop.Loop? && head == lo && BlockAt(g, lo, Nop, [loop.br])
    case Continue(_) => loop.Loop? && head == lo && BlockAt(g, lo, Nop, [loop.co])
    case Leave(_) => head == lo && BlockAt(g, lo, Nop, [])
    case Do(op) => op.Ok? && head == lo && BlockAt(g, lo, op.value, [next])
    case Unmodelled(_) => false
  }

  /** A statement comes after the blocks of the rest, and goes on to where they are entered. */
  ghost predicate LaidAll(g: Graph, lo: nat, k: Stmts, next: nat, loop: Loop, head: nat)
    decreases k
  {
    match k
    case Nil => head == next
    case Cons(s, rest) =>
      exists mid :: LaidAll(g, lo, rest, next, loop, mid) && Laid(g, lo + SizeAll(rest), s, mid, loop, head)
  }

  ghost predicate LaidAlts(g: Graph, lo: nat, a: Alts, next: nat, loop: Loop, head: nat)
    decreases a
  {
    match a
    case NoAlt => head == next
    case ElseIf(_, body, rest) =>
      && head == lo + SizeAlts(rest) + Size(body)
      && exists yes, no :: BlockAt(g, head, Nop, [yes, no]) && LaidAlts(g, lo, rest, next, loop, no) && Laid(g, lo + SizeAlts(rest), body, next, loop, yes)
    case Else(body, rest) =>
      (exists no :: LaidAlts(g, lo, rest, next, loop, no)) && Laid(g, lo + SizeAlts(rest), body, next, loop, head)
  }

  predicate SameBlocks(g: Graph, g': Graph, lo: nat, hi: nat) {
    hi <= |g| && hi <= |g'| && forall b | lo <= b < hi :: g[b] == g'[b]
  }

  /** Blocks elsewhere do not matter to a layout. */
  lemma {:induction false} LaidSame(g: Graph, g': Graph, lo: nat, s: Stmt, next: nat, loop: Loop, head: nat)
    requires SameBlocks(g, g', lo, lo + Size(s)) && Laid(g, lo, s, next, loop, head)
    ensures Laid(g', lo, s, next, loop, head)
    decreases s
  {
    hide LaidAll, LaidAlts, SizeAll, SizeAlts;
    match s
    case Compound(k) => LaidAllSame(g, g', lo, k, next, loop, head);
    case If(_, body, alts) =>
      var yes, no :| BlockAt(g, head, Nop, [yes, no]) && Laid(g, lo, body, next, loop, yes) && LaidAlts(g, lo + Size(body), alts, next, loop, no);
      LaidSame(g, g', lo, body, next, loop, yes);
      LaidAltsSame(g, g', lo + Size(body), alts, next, loop, no);
      assert BlockAt(g', head, Nop, [yes, no]);
    case While(_, body) =>
      var entry :| BlockAt(g, lo, Nop, [entry, next]) && Laid(g, lo + 1, body, lo, Loop(next, lo), entry);
      LaidSame(g, g', lo + 1, body, lo, Loop(next, lo), entry);
      assert BlockAt(g', lo, Nop, [entry, next]);
    case _ =>
  }

  lemma {:induction false} LaidAllSame(g: Graph, g': Graph, lo: nat, k: Stmts, next: nat, loop: Loop, head: nat)
    requires SameBlocks(g, g', lo, lo + SizeAll(k)) && LaidAll(g, lo, k, next, loop, head)
    ensures LaidAll(g', lo, k, next, loop, head)
    decreases k
  {
    hide Laid, Size;
    if k.Cons? {
      var mid :| LaidAll(g, lo, k.tail, next, loop, mid) && Laid(g, lo + SizeAll(k.tail), k.head, mid, loop, head);
      LaidAllSame(g, g', lo, k.tail, next, loop, mid);
      LaidSame(g, g', lo + SizeAll(k.tail), k.head, mid, loop, head);
    }
  }

  lemma {:induction false} LaidAltsSame(g: Graph, g': Graph, lo: nat, a: Alts, next: nat, loop: Loop, head: nat)
    requires SameBlocks(g, g', lo, lo + SizeAlts(a)) && LaidAlts(g, lo, a, next, loop, head)
    ensures LaidAlts(g', lo, a, next, loop, head)
    decreases a
  {
    hide Laid, Size;
    match a
    case NoAlt =>
    case ElseIf(_, body, rest) =>
      var yes, no :| BlockAt(g, head, Nop, [yes, no]) && LaidAlts(g, lo, rest, next, loop, no) && Laid(g, lo + SizeAlts(rest), body, next, loop, yes);
      LaidAltsSame(g, g', lo, rest, next, loop, no);
      LaidSame(g, g', lo + SizeAlts(rest), body, next, loop, yes);
      assert BlockAt(g', head, Nop, [yes, no]);
    case Else(body, rest) =>
      var no :| LaidAlts(g, lo, rest, next, loop, no);
      LaidAltsSame(g, g', lo, rest, next, loop, no);
      LaidSame(g, g', lo + SizeAlts(rest), body, next, loop, head);
  }

  /** `n` blocks were appended to `g`. */
  predicate Appended(g: Graph, g': Graph, n: nat) {
    |g'| == |g| + n && g'[..|g|] == g
  }

  lemma AppendedSame(g: Graph, g1: Graph, g2: Graph, n: nat, m: nat)
    requires Appended(g, g1, n) && Appended(g1, g2, m)
    ensures Appended(g, g2, n + m) && SameBlocks(g1, g2, |g|, |g| + n)
  {
    assert g2[..|g|] == g2[..|g1|][..|g|];
    forall b | |g| <= b < |g1|
      ensures g1[b] == g2[b]
    {
      assert g2[..|g1|][b] == g2[b];
    }
  }

  lemma AddedAt(g: Graph, b: Block)
    requires Add(g, b).1.Ok?
    ensures Appended(g, Add(g, b).0, 1) && BlockAt(Add(g, b).0, |g|, b.op, b.next)
  {
  }

  /** Compiling lays out the blocks of a statement after those there are. */
  lemma {:induction false} CompileLaid(g: Graph, s: Stmt, next: nat, loop: Loop)
    requires Compile(g, s, next, loop).1.Ok?
    ensures var (g', head) := Compile(g, s, next, loop);
      Appended(g, g', Size(s)) && Laid(g', |g|, s, next, loop, head.value)
    decreases s, 1
  {
    hide CompileAll, CompileAlts, LaidAll, LaidAlts;
    match s
    case Compound(k) => CompileAllLaid(g, k, next, loop);
    case If(_, _, _) => IfLaid(g, s, next, loop);
    case While(_, _) => WhileLaid(g, s, next, loop);
    case _ =>
  }

  lemma {:induction false} IfLaid(g: Graph, s: Stmt, next: nat, loop: Loop)
    requires s.If? && Compile(g, s, next, loop).1.Ok?
    ensures var (g', head) := Compile(g, s, next, loop);
      Appended(g, g', Size(s)) && Laid(g', |g|, s, next, loop, head.value)
    decreases s, 0
  {
    hide CompileAlts, LaidAlts, Add, Appended, SameBlocks;
    var (g1, yes) := Compile(g, s.body, next, loop);
    CompileLaid(g, s.body, next, loop);
    var (g2, no) := CompileAlts(g1, s.alts, next, loop);
    CompileAltsLaid(g1, s.alts, next, loop);
    var b := Block(Nop, [yes.value, no.value]);
    BranchLaid(g, g1, Size(s.body), g2, SizeAlts(s.alts), b);
    var (g3, _) := Add(g2, b);
    LaidSame(g1, g3, |g|, s.body, next, loop, yes.value);
    LaidAltsSame(g2, g3, |g1|, s.alts, next, loop, no.value);
  }

  /** Two parts, and a block after them. */
  lemma BranchLaid(g: Graph, g1: Graph, n: nat, g2: Graph, m: nat, b: Block)
    requires Appended(g, g1, n) && Appended(g1, g2, m) && Add(g2, b).1.Ok?
    ensures var g3 := Add(g2, b).0;
      && |g1| == |g| + n && |g2| == |g1| + m && Add(g2, b).1 == Ok(|g2|) && BlockAt(g3, |g2|, b.op, b.next)
      && Appended(g, g3, n + m + 1) && SameBlocks(g1, g3, |g|, |g1|) && SameBlocks(g2, g3, |g1|, |g2|)
  {
    AddedAt(g2, b);
    AppendedSame(g, g1, g2, n, m);
    AppendedSame(g1, g2, Add(g2, b).0, m, 1);
    AppendedSame(g, g2, Add(g2, b).0, n + m, 1);
  }

  lemma {:induction false} WhileLaid(g: Graph, s: Stmt, next: nat, loop: Loop)
    requires s.While? && Compile(g, s, next, loop).1.Ok?
    ensures var (g', head) := Compile(g, s, next, loop);
      Appended(g, g', Size(s)) && Laid(g', |g|, s, next, loop, head.value)
    decreases s, 0
  {
    var g1 := g + [Block(Nop, [])];
    var inner := Loop(next, |g|);
    CompileLaid(g1, s.body, |g|, inner);
    var (g2, entry) := Compile(g1, s.body, |g|, inner);
    var g3 := g2[|g| := Block(Nop, [entry.value, next])];
    HeaderLaid(g, g1, g2, Size(s.body), g3, Block(Nop, [entry.value, next]));
    LaidSame(g2, g3, |g1|, s.body, |g|, inner, entry.value);
    assert BlockAt(g3, |g|, Nop, [entry.value, next]);
  }

  lemma HeaderLaid(g: Graph, g1: Graph, g2: Graph, n: nat, g3: Graph, header: Block)
    requires |g1| == |g| + 1 && g1[..|g|] == g && Appended(g1, g2, n) && g3 == g2[|g| := header]
    ensures Appended(g, g3, 1 + n) && SameBlocks(g2, g3, |g1|, |g1| + n)
  {
    assert g3[..|g|] == g2[..|g1|][..|g|];
  }

  lemma {:induction false} CompileAllLaid(g: Graph, k: Stmts, next: nat, loop: Loop)
    requires CompileAll(g, k, next, loop).1.Ok?
    ensures var (g', head) := CompileAll(g, k, next, loop);
      Appended(g, g', SizeAll(k)) && LaidAll(g', |g|, k, next, loop, head.value)
    decreases k, 1
  {
    hide Compile, Laid, SameBlocks;
    if k.Cons? {
      var (g1, mid) := CompileAll(g, k.tail, next, loop);
      CompileAllLaid(g, k.tail, next, loop);
      var (g2, head) := Compile(g1, k.head, mid.value, loop);
      CompileLaid(g1, k.head, mid.value, loop);
      AppendedSame(g, g1, g2, SizeAll(k.tail), Size(k.head));
      LaidAllSame(g1, g2, |g|, k.tail, next, loop, mid.value);
    }
  }

  lemma {:induction false} CompileAltsLaid(g: Graph, a: Alts, next: nat, loop: Loop)
    requires CompileAlts(g, a, next, loop).1.Ok?
    ensures var (g', head) := CompileAlts(g, a, next, loop);
      Appended(g, g', SizeAlts(a)) && LaidAlts(g', |g|, a, next, loop, head.value)
    decreases a, 1
  {
    hide Compile, Laid, Add, SameBlocks, Size;
    if !a.NoAlt? {
      var (g1, no) := CompileAlts(g, a.rest, next, loop);
      CompileAltsLaid(g, a.rest, next, loop);
      var (g2, yes) := Compile(g1, a.body, next, loop);
      CompileLaid(g1, a.body, next, loop);
      AppendedSame(g, g1, g2, SizeAlts(a.rest), Size(a.body));
      LaidAltsSame(g1, g2, |g|, a.rest, next, loop, no.value);
      if a.ElseIf? {
        var b := Block(Nop, [yes.value, no.value]);
        BranchLaid(g, g1, SizeAlts(a.rest), g2, Size(a.body), b);
        var (g3, _) := Add(g2, b);
        LaidAltsSame(g1, g3, |g|, a.rest, next, loop, no.value);
        LaidSame(g2, g3, |g1|, a.body, next, loop, yes.value);
      }
    }
  }

  /** There is one way to lay out a statement. */
  lemma {:induction false} LaidOnce(g: Graph, g': Graph, lo: nat, s: Stmt, next: nat, loop: Loop, head: nat, head': nat)
    requires Laid(g, lo, s, next, loop, head) && Laid(g', lo, s, next, loop, head')
    ensures head == head' && SameFrom(g, g', lo, Size(s))
    decreases s, 1
  {
    hide LaidAll, LaidAlts, SizeAll, SizeAlts;
    match s
    case Compound(k) => LaidAllOnce(g, g', lo, k, next, loop, head, head');
    case If(_, _, _) => LaidIfOnce(g, g', lo, s, next, loop, head, head');
    case While(_, _) => LaidWhileOnce(g, g', lo, s, next, loop, head, head');
    case _ =>
  }

  lemma {:induction false} LaidIfOnce(g: Graph, g': Graph, lo: nat, s: Stmt, next: nat, loop: Loop, head: nat, head': nat)
    requires s.If? && Laid(g, lo, s, next, loop, head) && Laid(g', lo, s, next, loop, head')
    ensures head == head' && SameFrom(g, g', lo, Size(s))
    decreases s, 0
  {
    hide LaidAlts, SizeAlts, SameFrom, BlockAt;
    var (n, m) := (Size(s.body), SizeAlts(s.alts));
    var yes, no :| BlockAt(g, head, Nop, [yes, no]) && Laid(g, lo, s.body, next, loop, yes) && LaidAlts(g, lo + n, s.alts, next, loop, no);
    var yes', no' :| BlockAt(g', head', Nop, [yes', no']) && Laid(g', lo, s.body, next, loop, yes') && LaidAlts(g', lo + n, s.alts, next, loop, no');
    LaidOnce(g, g', lo, s.body, next, loop, yes, yes');
    LaidAltsOnce(g, g', lo + n, s.alts, next, loop, no, no');
    SameThen(g, g', lo, n, m);
    SameHead(g, g', lo, n + m, [yes, no]);
  }

  lemma {:induction false} LaidWhileOnce(g: Graph, g': Graph, lo: nat, s: Stmt, next: nat, loop: Loop, head: nat, head': nat)
    requires s.While? && Laid(g, lo, s, next, loop, head) && Laid(g', lo, s, next, loop, head')
    ensures head == head' && SameFrom(g, g', lo, Size(s))
    decreases s, 0
  {
    hide SameFrom, BlockAt;
    var entry :| BlockAt(g, lo, Nop, [entry, next]) && Laid(g, lo + 1, s.body, lo, Loop(next, lo), entry);
    var entry' :| BlockAt(g', lo, Nop, [entry', next]) && Laid(g', lo + 1, s.body, lo, Loop(next, lo), entry');
    LaidOnce(g, g', lo + 1, s.body, lo, Loop(next, lo), entry, entry');
    NoneSame(g, g', lo);
    SameHead(g, g', lo, 0, [entry, next]);
    SameThen(g, g', lo, 1, Size(s.body));
  }

  ghost predicate SameFrom(g: Graph, g': Graph, lo: nat, n: nat) {
    n > 0 ==> SameBlocks(g, g', lo, lo + n)
  }

  lemma NoneSame(g: Graph, g': Graph, lo: nat)
    ensures SameFrom(g, g', lo, 0)
  {
  }

  lemma SameThen(g: Graph, g': Graph, lo: nat, n: nat, m: nat)
    requires SameFrom(g, g', lo, n) && SameFrom(g, g', lo + n, m)
    ensures SameFrom(g, g', lo, n + m)
  {
  }

  lemma SameHead(g: Graph, g': Graph, lo: nat, n: nat, next: seq<nat>)
    requires SameFrom(g, g', lo, n) && BlockAt(g, lo + n, Nop, next) && BlockAt(g', lo + n, Nop, next)
    ensures SameFrom(g, g', lo, n + 1)
  {
  }

  lemma {:induction false} LaidAllOnce(g: Graph, g': Graph, lo: nat, k: Stmts, next: nat, loop: Loop, head: nat, head': nat)
    requires LaidAll(g, lo, k, next, loop, head) && LaidAll(g', lo, k, next, loop, head')
    ensures head == head' && SameFrom(g, g', lo, SizeAll(k))
    decreases k, 1
  {
    hide Laid, Size;
    if k.Cons? {
      var mid :| LaidAll(g, lo, k.tail, next, loop, mid) && Laid(g, lo + SizeAll(k.tail), k.head, mid, loop, head);
      var mid' :| LaidAll(g', lo, k.tail, next, loop, mid') && Laid(g', lo + SizeAll(k.tail), k.head, mid', loop, head');
      LaidAllOnce(g, g', lo, k.tail, next, loop, mid, mid');
      LaidOnce(g, g', lo + SizeAll(k.tail), k.head, mid, loop, head, head');
      SameThen(g, g', lo, SizeAll(k.tail), Size(k.head));
    }
  }

  lemma {:induction false} LaidAltsOnce(g: Graph, g': Graph, lo: nat, a: Alts, next: nat, loop: Loop, head: nat, head': nat)
    requires LaidAlts(g, lo, a, next, loop, head) && LaidAlts(g', lo, a, next, loop, head')
    ensures head == head' && SameFrom(g, g', lo, SizeAlts(a))
    decreases a, 1
  {
    hide Laid, Size, SameFrom, BlockAt;
    NoneSame(g, g', lo);
    match a
    case NoAlt =>
    case ElseIf(_, body, rest) =>
      var yes, no :| BlockAt(g, head, Nop, [yes, no]) && LaidAlts(g, lo, rest, next, loop, no) && Laid(g, lo + SizeAlts(rest), body, next, loop, yes);
      var yes', no' :| BlockAt(g', head', Nop, [yes', no']) && LaidAlts(g', lo, rest, next, loop, no') && Laid(g', lo + SizeAlts(rest), body, next, loop, yes');
      LaidAltsOnce(g, g', lo, rest, next, loop, no, no');
      LaidOnce(g, g', lo + SizeAlts(rest), body, next, loop, yes, yes');
      SameThen(g, g', lo, SizeAlts(rest), Size(body));
      SameHead(g, g', lo, SizeAlts(rest) + Size(body), [yes, no]);
    case Else(body, rest) =>
      var no :| LaidAlts(g, lo, rest, next, loop, no);
      var no' :| LaidAlts(g', lo, rest, next, loop, no');
      LaidAltsOnce(g, g', lo, rest, next, loop, no, no');
      LaidOnce(g, g', lo + SizeAlts(rest), body, next, loop, head, head');
      SameThen(g, g', lo, SizeAlts(rest), Size(body));
  }

  /** A unit's graph is its exit and, after it, the blocks of its statement. */
  lemma UnitLaid(s: Stmt)
    requires CompileUnit(s).1.Ok?
    ensures var (g, entry) := CompileUnit(s);
      |g| == 1 + Size(s) && BlockAt(g, 0, Nop, []) && Laid(g, 1, s, 0, NoLoop, entry.value)
  {
    hide Compile, Laid, Size;
    CompileLaid(EXIT_BLOCK, s, 0, NoLoop);
    assert CompileUnit(s).0[..1][0] == EXIT_BLOCK[0];
  }
}
