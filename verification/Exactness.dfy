/** Every walk of the graph is a run of the structured program. Lowering extends a set
    of arrivals that is closed under the edges there so far, and that sends the runs of
    a statement where they should go, to the blocks and edges it makes; what arrives at
    the end of the statement has run it normally. */
module Exactness {
  import opened Wrappers
  import opened Cfg
  import opened Python
  import opened Lower
  import opened Alike
  import opened Growth
  import opened Outcomes

  /** Pairs of a trace and the way the run that spells it ends. */
  type Runs = iset<(Trace, Outcome)>

  ghost function EventRuns(ev: Trace, o: Outcome): Runs {
    iset p: (Trace, Outcome) | RunEvents(ev, p.0, p.1, o)
  }

  ghost function BlockRuns(m: Rules, k: Block): Runs {
    iset p: (Trace, Outcome) | RunBlock(m, k, p.0, p.1)
  }

  ghost function StmtRuns(m: Rules, s: Stmt): Runs {
    iset p: (Trace, Outcome) | RunStmt(m, s, p.0, p.1)
  }

  ghost function BodyRuns(m: Rules, s: Stmt): Runs {
    iset p: (Trace, Outcome) | RunBody(m, s, p.0, p.1)
  }

  ghost function AltRuns(m: Rules, a: Alts): Runs {
    iset p: (Trace, Outcome) | RunAlts(m, a, p.0, p.1)
  }

  /** What `before` and then a normal run of `runs` spells. */
  ghost function After(before: iset<Trace>, runs: Runs): iset<Trace> {
    iset t | IsAfter(before, runs, t)
  }

  ghost predicate IsAfter(before: iset<Trace>, runs: Runs, t: Trace) {
    exists t1, t2 :: t1 in before && (t2, Normal) in runs && t == t1 + t2
  }

  /** Every run of `runs` after `before` that does not end normally goes on where it
      should. */
  ghost predicate Goes(arr: Arrivals, seen: iset<Trace>, fs: seq<Frame>, rs: seq<nat>, before: iset<Trace>, runs: Runs) {
    forall t, u, o {:trigger GoesOne(arr, seen, fs, rs, before, runs, t, u, o)} ::
      GoesOne(arr, seen, fs, rs, before, runs, t, u, o)
  }

  ghost predicate GoesOne(arr: Arrivals, seen: iset<Trace>, fs: seq<Frame>, rs: seq<nat>, before: iset<Trace>, runs: Runs, t: Trace, u: Trace, o: Outcome) {
    t in before && (u, o) in runs ==> Leads(arr, seen, fs, rs, t + u, o)
  }

  /** Nothing new arrives at the blocks below `n`. */
  ghost predicate OldKept(arr: Arrivals, arr': Arrivals, n: nat) {
    arr <= arr' && forall i: nat, t {:trigger NotNew(arr, arr', i, t)} | i < n :: NotNew(arr, arr', i, t)
  }

  ghost predicate NotNew(arr: Arrivals, arr': Arrivals, i: nat, t: Trace) {
    (i, t) in arr' ==> (i, t) in arr
  }

  /** Only `before` arrives at the end of the current block. */
  ghost predicate EndsIn(b: State, arr: Arrivals, before: iset<Trace>)
    requires b.cur < |b.g|
  {
    forall t {:trigger At(b, arr, t)} | At(b, arr, t) :: t in before
  }

  lemma OldKeptTrans(arr: Arrivals, arr1: Arrivals, n1: nat, arr2: Arrivals, n: nat)
    requires OldKept(arr, arr1, n) && OldKept(arr1, arr2, n1) && n <= n1
    ensures OldKept(arr, arr2, n)
  {
    forall i: nat, t | i < n
      ensures NotNew(arr, arr2, i, t)
    {
      assert NotNew(arr, arr1, i, t) && NotNew(arr1, arr2, i, t);
    }
  }

  lemma OldKeptSame(arr: Arrivals, n: nat)
    ensures OldKept(arr, arr, n)
  {
    forall i: nat, t | i < n
      ensures NotNew(arr, arr, i, t)
    {
    }
  }

  // ---- more arrivals lead as far --------------------------------------

  lemma {:induction false} LeadsJumpMono(arr: Arrivals, arr': Arrivals, seen: iset<Trace>, fs: seq<Frame>, t: Trace, kind: Outcome)
    requires arr <= arr' && LeadsJump(arr, seen, fs, t, kind)
    ensures LeadsJump(arr', seen, fs, t, kind)
    decreases |fs|
  {
    if fs != [] {
      var outer := fs[..|fs| - 1];
      match fs[|fs| - 1]
      case Loop(_, _) =>
        if kind != Broke && kind != Continued {
          LeadsJumpMono(arr, arr', seen, outer, t, kind);
        }
      case Finally(body, rs) =>
        forall u, o | RunBlock(Read(rs), body, u, o)
          ensures match o {
            case Normal => LeadsJump(arr', seen, outer, t + u, kind)
            case Cut => t + u in seen
            case Raised(explicit) => LeadsRaise(arr', seen, rs, t + u, explicit)
            case _ => LeadsJump(arr', seen, outer, t + u, o) }
        {
          match o
          case Cut =>
          case Raised(explicit) => LeadsRaiseMono(arr, arr', seen, rs, t + u, explicit);
          case Normal => LeadsJumpMono(arr, arr', seen, outer, t + u, kind);
          case _ => LeadsJumpMono(arr, arr', seen, outer, t + u, o);
        }
    }
  }

  lemma LeadsRaiseMono(arr: Arrivals, arr': Arrivals, seen: iset<Trace>, rs: seq<nat>, t: Trace, explicit: bool)
    requires arr <= arr' && LeadsRaise(arr, seen, rs, t, explicit)
    ensures LeadsRaise(arr', seen, rs, t, explicit)
  {
  }

  lemma LeadsMono(arr: Arrivals, arr': Arrivals, seen: iset<Trace>, fs: seq<Frame>, rs: seq<nat>, t: Trace, o: Outcome)
    requires arr <= arr' && Leads(arr, seen, fs, rs, t, o)
    ensures Leads(arr', seen, fs, rs, t, o)
  {
    hide LeadsJump, LeadsRaise, FrameSize;
    match o
    case Normal =>
    case Cut =>
    case Raised(explicit) => LeadsRaiseMono(arr, arr', seen, rs, t, explicit);
    case _ => LeadsJumpMono(arr, arr', seen, fs, t, o);
  }

  /** Fewer starts and fewer runs, more arrivals. */
  lemma GoesSub(arr: Arrivals, seen: iset<Trace>, fs: seq<Frame>, rs: seq<nat>, before: iset<Trace>, runs: Runs, arr': Arrivals, before': iset<Trace>, runs': Runs)
    requires Goes(arr, seen, fs, rs, before, runs) && arr <= arr' && before' <= before
    requires forall u, o | (u, o) in runs' && o != Normal :: (u, o) in runs
    ensures Goes(arr', seen, fs, rs, before', runs')
  {
    hide Leads, FrameSize;
    forall t, u, o
      ensures GoesOne(arr', seen, fs, rs, before', runs', t, u, o)
    {
      if t in before' && (u, o) in runs' {
        GoesAt(arr, seen, fs, rs, before, runs, arr', t, u, o);
      }
    }
  }

  lemma GoesAt(arr: Arrivals, seen: iset<Trace>, fs: seq<Frame>, rs: seq<nat>, before: iset<Trace>, runs: Runs, arr': Arrivals, t: Trace, u: Trace, o: Outcome)
    requires Goes(arr, seen, fs, rs, before, runs) && arr <= arr' && t in before
    requires o != Normal ==> (u, o) in runs
    ensures Leads(arr', seen, fs, rs, t + u, o)
  {
    hide LeadsJump, LeadsRaise, FrameSize;
    if o != Normal {
      assert GoesOne(arr, seen, fs, rs, before, runs, t, u, o);
      LeadsMono(arr, arr', seen, fs, rs, t + u, o);
    }
  }

  /** `first` and then `next` is a run of `runs`. */
  ghost predicate Sequel(first: Runs, next: Runs, runs: Runs) {
    forall u1, u2, o {:trigger SequelOne(first, next, runs, u1, u2, o)} :: SequelOne(first, next, runs, u1, u2, o)
  }

  ghost predicate SequelOne(first: Runs, next: Runs, runs: Runs, u1: Trace, u2: Trace, o: Outcome) {
    (u1, Normal) in first && (u2, o) in next ==> (u1 + u2, o) in runs
  }

  lemma GoesThen(arr: Arrivals, seen: iset<Trace>, fs: seq<Frame>, rs: seq<nat>, before: iset<Trace>, runs: Runs, arr': Arrivals, first: Runs, next: Runs)
    requires Goes(arr, seen, fs, rs, before, runs) && arr <= arr' && Sequel(first, next, runs)
    ensures Goes(arr', seen, fs, rs, After(before, first), next)
  {
    hide Leads, FrameSize;
    forall t, u, o
      ensures GoesOne(arr', seen, fs, rs, After(before, first), next, t, u, o)
    {
      if t in After(before, first) && (u, o) in next {
        var t1, t2 :| t1 in before && (t2, Normal) in first && t == t1 + t2;
        assert SequelOne(first, next, runs, t2, u, o);
        GoesAt(arr, seen, fs, rs, before, runs, arr', t1, t2 + u, o);
        Assoc(t1, t2, u);
      }
    }
  }

  lemma AfterThen(before: iset<Trace>, runs: Runs, first: Runs, next: Runs)
    requires Sequel(first, next, runs)
    ensures After(After(before, first), next) <= After(before, runs)
  {
    forall t | t in After(After(before, first), next)
      ensures t in After(before, runs)
    {
      var t12, t3 :| t12 in After(before, first) && (t3, Normal) in next && t == t12 + t3;
      var t1, t2 :| t1 in before && (t2, Normal) in first && t12 == t1 + t2;
      assert SequelOne(first, next, runs, t2, t3, Normal);
      Assoc(t1, t2, t3);
      assert IsAfter(before, runs, t1 + (t2 + t3));
    }
  }

  lemma AfterSub(before: iset<Trace>, runs: Runs, before': iset<Trace>, runs': Runs)
    requires before' <= before && forall u | (u, Normal) in runs' :: (u, Normal) in runs
    ensures After(before', runs') <= After(before, runs)
  {
    forall t | t in After(before', runs')
      ensures t in After(before, runs)
    {
      var t1, t2 :| t1 in before' && (t2, Normal) in runs' && t == t1 + t2;
      assert IsAfter(before, runs, t);
    }
  }

  lemma AfterOne(before: iset<Trace>, runs: Runs, t: Trace, u: Trace)
    requires t in before && (u, Normal) in runs
    ensures t + u in After(before, runs)
  {
    assert IsAfter(before, runs, t + u);
  }

  // ---- closure under new blocks, edges and events ---------------------

  lemma SeenAt(b: State, arr: Arrivals, seen: iset<Trace>, t: Trace)
    requires b.cur < |b.g| && Closed(arr, seen, b.g) && At(b, arr, t)
    ensures t in seen
  {
    var u :| (b.cur, u) in arr && t == u + b.g[b.cur].events;
    assert Shown(arr, seen, b.g, b.cur, u, b.g[b.cur].events);
  }

  lemma ArrivesInRange(arr: Arrivals, seen: iset<Trace>, g: Graph, a: nat, u: Trace)
    requires Closed(arr, seen, g) && (a, u) in arr
    ensures a < |g|
  {
    assert Shown(arr, seen, g, a, u, []);
  }

  lemma ClosedLink(b: State, c: nat, arr: Arrivals, seen: iset<Trace>)
    requires b.cur < |b.g| && Closed(arr, seen, b.g) && forall t | At(b, arr, t) :: (c, t) in arr
    ensures Closed(arr, seen, Link(b.g, b.cur, c))
  {
    var g := Link(b.g, b.cur, c);
    forall a: nat, u, d | a < |g| && d in g[a].succs
      ensures Carried(arr, g, a, u, d)
    {
      if d in b.g[a].succs {
        assert Carried(arr, b.g, a, u, d);
      } else if (a, u) in arr {
        assert At(b, arr, u + b.g[a].events);
      }
    }
    forall a: nat, u, e
      ensures Shown(arr, seen, g, a, u, e)
    {
      assert Shown(arr, seen, b.g, a, u, e);
    }
  }

  lemma {:induction false} ClosedLinkAll(b: State, rs: seq<nat>, arr: Arrivals, seen: iset<Trace>)
    requires b.cur < |b.g| && Closed(arr, seen, b.g)
    requires forall t, i | At(b, arr, t) && 0 <= i < |rs| :: (rs[i], t) in arr
    ensures Closed(arr, seen, LinkAll(b.g, b.cur, rs))
    ensures LinkAll(b.g, b.cur, rs)[b.cur].events == b.g[b.cur].events
    decreases |rs|
  {
    if rs != [] {
      var init := rs[..|rs| - 1];
      forall t, i | At(b, arr, t) && 0 <= i < |init|
        ensures (init[i], t) in arr
      {
        assert (rs[i], t) in arr;
      }
      ClosedLinkAll(b, init, arr, seen);
      var b1 := b.(g := LinkAll(b.g, b.cur, init));
      forall t | At(b1, arr, t)
        ensures (rs[|rs| - 1], t) in arr
      {
        assert At(b, arr, t);
      }
      ClosedLink(b1, rs[|rs| - 1], arr, seen);
    }
  }

  lemma ClosedGrow(g: Graph, n: nat, arr: Arrivals, seen: iset<Trace>)
    requires Closed(arr, seen, g)
    ensures Closed(arr, seen, Grow(g, n))
  {
    var g' := Grow(g, n);
    forall a: nat, u, d | a < |g'| && d in g'[a].succs
      ensures Carried(arr, g', a, u, d)
    {
      assert Carried(arr, g, a, u, d);
    }
    forall a: nat, u, e
      ensures Shown(arr, seen, g', a, u, e)
    {
      assert Shown(arr, seen, g, a, u, e);
    }
  }

  lemma ClosedEmit(b: State, ev: Trace, arr: Arrivals, seen: iset<Trace>)
    requires b.cur < |b.g| && Closed(arr, seen, b.g) && (b.g[b.cur].succs == [] || ev == [])
    requires forall t, v | At(b, arr, t) && v <= ev :: t + v in seen
    ensures Closed(arr, seen, Emit(b.g, b.cur, ev))
  {
    var g := Emit(b.g, b.cur, ev);
    forall a: nat, u, d | a < |g| && d in g[a].succs
      ensures Carried(arr, g, a, u, d)
    {
      assert Carried(arr, b.g, a, u, d);
      assert a == b.cur ==> g[a].events == b.g[a].events;
    }
    forall a: nat, u, e
      ensures Shown(arr, seen, g, a, u, e)
    {
      assert Shown(arr, seen, b.g, a, u, e);
      if (a, u) in arr && a == b.cur && e <= g[a].events && !(e <= b.g[a].events) {
        var done := b.g[a].events;
        var v := e[|done|..];
        assert e == done + v && v <= ev;
        assert At(b, arr, u + done);
        Assoc(u, done, v);
      }
    }
  }

  /** New arrivals at a block that is still empty. */
  ghost function Arriving(c: nat, before: iset<Trace>): Arrivals {
    iset p: (nat, Trace) | p.0 == c && p.1 in before
  }

  lemma ClosedArriving(g: Graph, c: nat, before: iset<Trace>, arr: Arrivals, seen: iset<Trace>)
    requires Closed(arr, seen, g) && c < |g| && g[c] == EMPTY && before <= seen
    ensures Closed(arr + Arriving(c, before), seen, g)
  {
    var arr' := arr + Arriving(c, before);
    forall a: nat, u, d | a < |g| && d in g[a].succs
      ensures Carried(arr', g, a, u, d)
    {
      assert Carried(arr, g, a, u, d);
    }
    forall a: nat, u, e
      ensures Shown(arr', seen, g, a, u, e)
    {
      assert Shown(arr, seen, g, a, u, e);
      if (a, u) in arr' && (a, u) !in arr && e <= g[a].events {
        assert u + e == u;
      }
    }
  }

  lemma OldKeptArriving(arr: Arrivals, c: nat, before: iset<Trace>, n: nat)
    requires n <= c
    ensures OldKept(arr, arr + Arriving(c, before), n)
  {
    var arr' := arr + Arriving(c, before);
    forall i: nat, t | i < n
      ensures NotNew(arr, arr', i, t)
    {
    }
  }

  ghost function EndTraces(b: State, arr: Arrivals): iset<Trace>
    requires b.cur < |b.g|
  {
    iset t | At(b, arr, t)
  }

  /** The arrivals at a new block entered from the current one. */
  ghost function Branch(b: State, arr: Arrivals): Arrivals
    requires b.cur < |b.g|
  {
    arr + Arriving(|b.g|, EndTraces(b, arr))
  }

  lemma ExactBranch(b: State, arr: Arrivals, seen: iset<Trace>, before: iset<Trace>)
    requires StateOk(b) && Closed(arr, seen, b.g) && EndsIn(b, arr, before)
    ensures var r := b.(g := Link(Grow(b.g, 1), b.cur, |b.g|), cur := |b.g|); var arr' := Branch(b, arr);
      Closed(arr', seen, r.g) && OldKept(arr, arr', |b.g|) && EndsIn(r, arr', before)
    ensures var r := b.(g := Link(Grow(b.g, 1), b.cur, |b.g|), cur := |b.g|); r.g[r.cur] == EMPTY
  {
    var n := |b.g|;
    var arr' := Branch(b, arr);
    ClosedGrow(b.g, 1, arr, seen);
    forall t | At(b, arr, t)
      ensures t in seen
    {
      SeenAt(b, arr, seen, t);
    }
    ClosedArriving(Grow(b.g, 1), n, EndTraces(b, arr), arr, seen);
    OldKeptArriving(arr, n, EndTraces(b, arr), n);
    var b1 := b.(g := Grow(b.g, 1));
    forall t | At(b1, arr', t)
      ensures (n, t) in arr'
    {
      var u :| (b.cur, u) in arr' && t == u + b.g[b.cur].events;
      assert NotNew(arr, arr', b.cur, u);
      assert At(b, arr, t);
    }
    ClosedLink(b1, n, arr', seen);
    var r := b.(g := Link(Grow(b.g, 1), b.cur, n), cur := n);
    forall t | At(r, arr', t)
      ensures t in before
    {
      var u :| (n, u) in arr' && t == u + r.g[n].events;
      assert t == u;
      if (n, u) in arr {
        ArrivesInRange(arr, seen, b.g, n, u);
      }
      assert At(b, arr, t);
    }
  }

  /** Events made at the end of the current block. */
  lemma ExactEmit(b: State, ev: Trace, o: Outcome, arr: Arrivals, seen: iset<Trace>, before: iset<Trace>)
    requires b.cur < |b.g| && Closed(arr, seen, b.g) && (b.g[b.cur].succs == [] || ev == [])
    requires EndsIn(b, arr, before) && forall t, v | t in before && v <= ev :: t + v in seen
    ensures var r := b.(g := Emit(b.g, b.cur, ev));
      Closed(arr, seen, r.g) && EndsIn(r, arr, After(before, EventRuns(ev, Normal)))
  {
    ClosedEmit(b, ev, arr, seen);
    var r := b.(g := Emit(b.g, b.cur, ev));
    forall t | At(r, arr, t)
      ensures t in After(before, EventRuns(ev, Normal))
    {
      var u :| (b.cur, u) in arr && t == u + (b.g[b.cur].events + ev);
      Assoc(u, b.g[b.cur].events, ev);
      assert At(b, arr, u + b.g[b.cur].events);
      AfterOne(before, EventRuns(ev, Normal), u + b.g[b.cur].events, ev);
    }
  }

  /** The parts of `ev` can be observed if its cut runs can. */
  lemma SeenEvents(ev: Trace, arr: Arrivals, seen: iset<Trace>, fs: seq<Frame>, rs: seq<nat>, before: iset<Trace>, runs: Runs)
    requires Goes(arr, seen, fs, rs, before, runs) && forall v | v <= ev :: (v, Cut) in runs
    ensures forall t, v | t in before && v <= ev :: t + v in seen
  {
    forall t, v | t in before && v <= ev
      ensures t + v in seen
    {
      assert GoesOne(arr, seen, fs, rs, before, runs, t, v, Cut);
    }
  }

  /** What a statement's normal runs arrive with can be observed. */
  lemma SeenAfter(arr: Arrivals, seen: iset<Trace>, fs: seq<Frame>, rs: seq<nat>, before: iset<Trace>, runs: Runs)
    requires Goes(arr, seen, fs, rs, before, runs) && forall u | (u, Normal) in runs :: (u, Cut) in runs
    ensures After(before, runs) <= seen
  {
    forall t | t in After(before, runs)
      ensures t in seen
    {
      var t1, t2 :| t1 in before && (t2, Normal) in runs && t == t1 + t2;
      assert GoesOne(arr, seen, fs, rs, before, runs, t1, t2, Cut);
    }
  }

  /** Arrivals with the current block unchanged end as before. */
  lemma EndsKept(b: State, arr: Arrivals, r: State, arr': Arrivals, before: iset<Trace>)
    requires b.cur < |b.g| && r.cur == b.cur && r.cur < |r.g| && r.g[r.cur].events == b.g[b.cur].events
    requires EndsIn(b, arr, before) && OldKept(arr, arr', |b.g|)
    ensures EndsIn(r, arr', before)
  {
    forall t | At(r, arr', t)
      ensures t in before
    {
      var u :| (r.cur, u) in arr' && t == u + r.g[r.cur].events;
      assert NotNew(arr, arr', b.cur, u);
      assert At(b, arr, t);
    }
  }

  /** Only the current block matters for what ends in it. */
  lemma SameEnds(b: State, r: State, arr: Arrivals, before: iset<Trace>)
    requires b.cur < |b.g| && r.cur == b.cur && r.cur < |r.g| && r.g[r.cur].events == b.g[b.cur].events
    requires EndsIn(b, arr, before)
    ensures EndsIn(r, arr, before)
  {
    forall t | At(r, arr, t)
      ensures t in before
    {
      assert At(b, arr, t);
    }
  }

  // ---- statements -----------------------------------------------------

  /** `arr'` is to `r` what `arr` is to `b`. */
  ghost predicate Extended(b: State, arr: Arrivals, r: State, arr': Arrivals, seen: iset<Trace>) {
    Closed(arr', seen, r.g) && OldKept(arr, arr', |b.g|)
  }

  lemma ExtendedTrans(b: State, arr: Arrivals, b1: State, arr1: Arrivals, b2: State, arr2: Arrivals, seen: iset<Trace>)
    requires Extended(b, arr, b1, arr1, seen) && Extended(b1, arr1, b2, arr2, seen) && |b.g| <= |b1.g|
    ensures Extended(b, arr, b2, arr2, seen)
  {
    OldKeptTrans(arr, arr1, |b1.g|, arr2, |b.g|);
  }

  lemma ExactPrelude(b: State, arr: Arrivals, seen: iset<Trace>, before: iset<Trace>) returns (arr2: Arrivals)
    requires StateOk(b) && Closed(arr, seen, b.g) && EndsIn(b, arr, before)
    requires forall t | t in before :: LeadsRaise(arr, seen, b.raiseTo, t, false)
    ensures Extended(b, arr, Prelude(b), arr2, seen) && EndsIn(Prelude(b), arr2, before)
  {
    if InTry(b) {
      forall t, i | At(b, arr, t) && 0 <= i < |b.raiseTo|
        ensures (b.raiseTo[i], t) in arr
      {
        assert LeadsRaise(arr, seen, b.raiseTo, t, false);
      }
      ClosedLinkAll(b, b.raiseTo, arr, seen);
      LinkAllExtends(b.g, b.cur, b.raiseTo);
      var b1 := b.(g := LinkAll(b.g, b.cur, b.raiseTo));
      ContextKept(b, b1.g);
      OldKeptSame(arr, |b.g|);
      EndsKept(b, arr, b1, arr, before);
      ExactBranch(b1, arr, seen, before);
      arr2 := Branch(b1, arr);
    } else {
      arr2 := arr;
      OldKeptSame(arr, |b.g|);
    }
  }

  lemma {:induction false} ExactBlock(b: State, k: Block, arr: Arrivals, seen: iset<Trace>, before: iset<Trace>) returns (arr2: Arrivals)
    requires StateOk(b) && LegalBlock(k) && Ready(b, Lead(k))
    requires Closed(arr, seen, b.g) && EndsIn(b, arr, before)
    requires Goes(arr, seen, b.frames, b.raiseTo, before, BlockRuns(Read(b.raiseTo), k))
    ensures Extended(b, arr, LowerBlock(b, k), arr2, seen)
    ensures EndsIn(LowerBlock(b, k), arr2, After(before, BlockRuns(Read(b.raiseTo), k)))
    decreases BlockSize(k) + FrameSize(b.frames), 0
  {
    hide LowerStmt, LowerBody, RunStmt, Goes, FrameSize;
    match k
    case Nil =>
      arr2 := arr;
      OldKeptSame(arr, |b.g|);
      forall t | At(b, arr, t)
        ensures t in After(before, BlockRuns(Read(b.raiseTo), k))
      {
        AfterOne(before, BlockRuns(Read(b.raiseTo), k), t, []);
        assert t + [] == t;
      }
    case Cons(s, rest) =>
      var b1 := LowerStmt(b, s);
      GrownStmt(b, s);
      GoesSub(arr, seen, b.frames, b.raiseTo, before, BlockRuns(Read(b.raiseTo), k), arr, before, StmtRuns(Read(b.raiseTo), s));
      var arr1 := ExactStmt(b, s, arr, seen, before);
      SequelBlock(Read(b.raiseTo), s, rest);
      GoesThen(arr, seen, b.frames, b.raiseTo, before, BlockRuns(Read(b.raiseTo), k), arr1, StmtRuns(Read(b.raiseTo), s), BlockRuns(Read(b.raiseTo), rest));
      arr2 := ExactBlock(b1, rest, arr1, seen, After(before, StmtRuns(Read(b.raiseTo), s)));
      AfterThen(before, BlockRuns(Read(b.raiseTo), k), StmtRuns(Read(b.raiseTo), s), BlockRuns(Read(b.raiseTo), rest));
      ExtendedTrans(b, arr, b1, arr1, LowerBlock(b1, rest), arr2, seen);
  }

  lemma SequelBlock(m: Rules, s: Stmt, rest: Block)
    ensures Sequel(StmtRuns(m, s), BlockRuns(m, rest), BlockRuns(m, Cons(s, rest)))
  {
    hide RunStmt, FrameSize;
    forall u1, u2, o
      ensures SequelOne(StmtRuns(m, s), BlockRuns(m, rest), BlockRuns(m, Cons(s, rest)), u1, u2, o)
    {
    }
  }

  lemma {:induction false} ExactStmt(b: State, s: Stmt, arr: Arrivals, seen: iset<Trace>, before: iset<Trace>) returns (arr2: Arrivals)
    requires StateOk(b) && LegalStmt(s) && Ready(b, LeadStmt(s))
    requires Closed(arr, seen, b.g) && EndsIn(b, arr, before)
    requires Goes(arr, seen, b.frames, b.raiseTo, before, StmtRuns(Read(b.raiseTo), s))
    ensures Extended(b, arr, LowerStmt(b, s), arr2, seen)
    ensures EndsIn(LowerStmt(b, s), arr2, After(before, StmtRuns(Read(b.raiseTo), s)))
    decreases StmtSize(s) + FrameSize(b.frames), 1
  {
    hide LowerBody, RunBody, LegalStmt, Goes, FrameSize;
    var p := Prelude(b);
    GrownPrelude(b);
    forall t | t in before
      ensures LeadsRaise(arr, seen, b.raiseTo, t, false)
    {
      assert ([], Raised(false)) in StmtRuns(Read(b.raiseTo), s);
      GoesAt(arr, seen, b.frames, b.raiseTo, before, StmtRuns(Read(b.raiseTo), s), arr, t, [], Raised(false));
      assert t + [] == t;
    }
    var arr1 := ExactPrelude(b, arr, seen, before);
    GoesSub(arr, seen, b.frames, b.raiseTo, before, StmtRuns(Read(b.raiseTo), s), arr1, before, BodyRuns(Read(b.raiseTo), s));
    GrownBody(p, s);
    arr2 := ExactBody(p, s, arr1, seen, before);
    AfterSub(before, StmtRuns(Read(b.raiseTo), s), before, BodyRuns(Read(b.raiseTo), s));
    ExtendedTrans(b, arr, p, arr1, LowerBody(p, s), arr2, seen);
  }

  lemma {:induction false} ExactBody(b: State, s: Stmt, arr: Arrivals, seen: iset<Trace>, before: iset<Trace>) returns (arr2: Arrivals)
    requires StateOk(b) && LegalStmt(s)
    requires b.g[b.cur].succs == [] || LeadStmt(s) == []
    requires Closed(arr, seen, b.g) && EndsIn(b, arr, before)
    requires Goes(arr, seen, b.frames, b.raiseTo, before, BodyRuns(Read(b.raiseTo), s))
    ensures Extended(b, arr, LowerBody(b, s), arr2, seen)
    ensures EndsIn(LowerBody(b, s), arr2, After(before, BodyRuns(Read(b.raiseTo), s)))
    decreases StmtSize(s) + FrameSize(b.frames), 0
  {
    hide LowerBlock, LowerStmt, Jump, LowerIf, LowerWhile, LowerFor, LowerTry, RunBlock, RunGuarded, Goes, Leads, After, FrameSize;
    match s
    case Simple(ev) => arr2 := ExactSimple(b, ev, arr, seen, before);
    case Return(ev) => arr2 := ExactReturn(b, ev, arr, seen, before);
    case Raise(ev) => arr2 := ExactRaise(b, ev, arr, seen, before);
    case Break => arr2 := ExactLeave(b, s, Broke, arr, seen, before);
    case Continue => arr2 := ExactLeave(b, s, Continued, arr, seen, before);
    case If(cond, body, alts) => arr2 := ExactIf(b, cond, body, alts, arr, seen, before);
    case While(always, cond, body, orelse) => arr2 := ExactWhile(b, always, cond, body, orelse, arr, seen, before);
    case For(iterable, nonEmpty, target, body, orelse) =>
      arr2 := ExactFor(b, iterable, nonEmpty, target, body, orelse, arr, seen, before);
    case Try(_, _, _, _) => arr2 := ExactTry(b, s, arr, seen, before);
  }

  lemma ExactSimple(b: State, ev: Trace, arr: Arrivals, seen: iset<Trace>, before: iset<Trace>) returns (arr2: Arrivals)
    requires StateOk(b) && (b.g[b.cur].succs == [] || ev == []) && Closed(arr, seen, b.g) && EndsIn(b, arr, before)
    requires Goes(arr, seen, b.frames, b.raiseTo, before, BodyRuns(Read(b.raiseTo), Simple(ev)))
    ensures Extended(b, arr, LowerBody(b, Simple(ev)), arr2, seen)
    ensures EndsIn(LowerBody(b, Simple(ev)), arr2, After(before, BodyRuns(Read(b.raiseTo), Simple(ev))))
  {
    arr2 := arr;
    OldKeptSame(arr, |b.g|);
    SeenEvents(ev, arr, seen, b.frames, b.raiseTo, before, BodyRuns(Read(b.raiseTo), Simple(ev)));
    ExactEmit(b, ev, Normal, arr, seen, before);
    AfterSub(before, BodyRuns(Read(b.raiseTo), Simple(ev)), before, EventRuns(ev, Normal));
  }

  lemma {:induction false} ExactReturn(b: State, ev: Trace, arr: Arrivals, seen: iset<Trace>, before: iset<Trace>) returns (arr2: Arrivals)
    requires StateOk(b) && (b.g[b.cur].succs == [] || ev == []) && Closed(arr, seen, b.g) && EndsIn(b, arr, before)
    requires Goes(arr, seen, b.frames, b.raiseTo, before, BodyRuns(Read(b.raiseTo), Return(ev)))
    ensures Extended(b, arr, LowerBody(b, Return(ev)), arr2, seen)
    ensures EndsIn(LowerBody(b, Return(ev)), arr2, iset{})
    decreases FrameSize(b.frames), |b.frames|, 2
  {
    hide Jump, Goes, Leads, FrameSize;
    var runs := BodyRuns(Read(b.raiseTo), Return(ev));
    SeenEvents(ev, arr, seen, b.frames, b.raiseTo, before, runs);
    ExactEmit(b, ev, Normal, arr, seen, before);
    var b1 := b.(g := Emit(b.g, b.cur, ev));
    GrownEmit(b, ev);
    var before1 := After(before, EventRuns(ev, Normal));
    forall t | t in before1
      ensures LeadsJump(arr, seen, b.frames, t, Returned)
    {
      var t1, t2 :| t1 in before && (t2, Normal) in EventRuns(ev, Normal) && t == t1 + t2;
      GoesAt(arr, seen, b.frames, b.raiseTo, before, runs, arr, t1, ev, Returned);
      LeadsIsJump(arr, seen, b.frames, b.raiseTo, t, Returned);
    }
    arr2 := ExactJump(b1, Returned, arr, seen, before1);
  }

  lemma LeadsIsJump(arr: Arrivals, seen: iset<Trace>, fs: seq<Frame>, rs: seq<nat>, t: Trace, kind: Outcome)
    requires kind == Broke || kind == Continued || kind == Returned
    ensures Leads(arr, seen, fs, rs, t, kind) == LeadsJump(arr, seen, fs, t, kind)
  {
  }

  lemma ExactRaise(b: State, ev: Trace, arr: Arrivals, seen: iset<Trace>, before: iset<Trace>) returns (arr2: Arrivals)
    requires StateOk(b) && (b.g[b.cur].succs == [] || ev == []) && Closed(arr, seen, b.g) && EndsIn(b, arr, before)
    requires Goes(arr, seen, b.frames, b.raiseTo, before, BodyRuns(Read(b.raiseTo), Raise(ev)))
    ensures Extended(b, arr, LowerBody(b, Raise(ev)), arr2, seen)
    ensures EndsIn(LowerBody(b, Raise(ev)), arr2, iset{})
  {
    hide Goes, FrameSize;
    var runs := BodyRuns(Read(b.raiseTo), Raise(ev));
    arr2 := arr;
    OldKeptSame(arr, |b.g|);
    SeenEvents(ev, arr, seen, b.frames, b.raiseTo, before, runs);
    ExactEmit(b, ev, Normal, arr, seen, before);
    var b1 := b.(g := Emit(b.g, b.cur, ev));
    forall t, i | At(b1, arr, t) && 0 <= i < |b.raiseTo|
      ensures (b.raiseTo[i], t) in arr
    {
      var t1, t2 :| t1 in before && (t2, Normal) in EventRuns(ev, Normal) && t == t1 + t2;
      GoesAt(arr, seen, b.frames, b.raiseTo, before, runs, arr, t1, ev, Raised(true));
    }
    ClosedLinkAll(b1, b.raiseTo, arr, seen);
    var g2 := LinkAll(b1.g, b.cur, b.raiseTo);
    ClosedGrow(g2, 1, arr, seen);
    NoArrivals(b, g2, LowerBody(b, Raise(ev)), arr, seen);
  }

  /** Nothing arrives at a block that is newer than the arrivals. */
  lemma NoArrivals(b: State, g: Graph, r: State, arr: Arrivals, seen: iset<Trace>)
    requires Closed(arr, seen, g) && r.cur < |r.g| && |g| <= r.cur
    ensures EndsIn(r, arr, iset{})
  {
    if exists t :: At(r, arr, t) {
      var t :| At(r, arr, t);
      var u :| (r.cur, u) in arr && t == u + r.g[r.cur].events;
      ArrivesInRange(arr, seen, g, r.cur, u);
      assert false;
    }
  }

  // ---- jumps ----------------------------------------------------------

  lemma {:induction false} ExactLeave(b: State, s: Stmt, kind: Outcome, arr: Arrivals, seen: iset<Trace>, before: iset<Trace>) returns (arr2: Arrivals)
    requires StateOk(b) && Closed(arr, seen, b.g) && EndsIn(b, arr, before)
    requires kind == Broke || kind == Continued || kind == Returned
    requires Goes(arr, seen, b.frames, b.raiseTo, before, BodyRuns(Read(b.raiseTo), s)) && RunBody(Read(b.raiseTo), s, [], kind)
    ensures Extended(b, arr, Jump(b, kind), arr2, seen)
    ensures EndsIn(Jump(b, kind), arr2, iset{})
    decreases FrameSize(b.frames), |b.frames|, 2
  {
    hide Jump, Goes, Leads, RunBody, FrameSize;
    forall t | t in before
      ensures LeadsJump(arr, seen, b.frames, t, kind)
    {
      GoesAt(arr, seen, b.frames, b.raiseTo, before, BodyRuns(Read(b.raiseTo), s), arr, t, [], kind);
      assert t + [] == t;
      LeadsIsJump(arr, seen, b.frames, b.raiseTo, t, kind);
    }
    arr2 := ExactJump(b, kind, arr, seen, before);
  }

  lemma {:induction false} ExactJump(b: State, kind: Outcome, arr: Arrivals, seen: iset<Trace>, before: iset<Trace>) returns (arr2: Arrivals)
    requires StateOk(b) && Closed(arr, seen, b.g) && EndsIn(b, arr, before)
    requires kind == Broke || kind == Continued || kind == Returned
    requires forall t | t in before :: LeadsJump(arr, seen, b.frames, t, kind)
    ensures Extended(b, arr, Jump(b, kind), arr2, seen)
    ensures EndsIn(Jump(b, kind), arr2, iset{})
    decreases FrameSize(b.frames), |b.frames|, 1
  {
    hide Unwind, LeadsJump, FrameSize;
    GrownUnwind(b, kind);
    var (u, dest) := Unwind(b, kind);
    arr2 := ExactUnwind(b, kind, arr, seen, before);
    var g1 := Link(u.g, u.cur, dest);
    ClosedGrow(g1, 1, arr2, seen);
    NoArrivals(b, g1, Jump(b, kind), arr2, seen);
  }

  lemma {:induction false} ExactUnwind(b: State, kind: Outcome, arr: Arrivals, seen: iset<Trace>, before: iset<Trace>) returns (arr2: Arrivals)
    requires StateOk(b) && Closed(arr, seen, b.g) && EndsIn(b, arr, before)
    requires kind == Broke || kind == Continued || kind == Returned
    requires forall t | t in before :: LeadsJump(arr, seen, b.frames, t, kind)
    ensures var (u, dest) := Unwind(b, kind);
      Closed(arr2, seen, Link(u.g, u.cur, dest)) && OldKept(arr, arr2, |b.g|)
    decreases FrameSize(b.frames), |b.frames|, 0
  {
    hide LowerBlock, LowerStmt, LowerBody, FrameSize, RunBlock, Link, RunHandlers, RunBody, Grow, Follows;
    arr2 := arr;
    OldKeptSame(arr, |b.g|);
    if b.frames == [] {
      ExactDest(b, kind, EXIT, arr, seen, before);
    } else {
      var outer := b.frames[..|b.frames| - 1];
      FrameSizePop(b.frames);
      match b.frames[|b.frames| - 1]
      case Loop(brk, cont) =>
        if kind == Returned {
          assert FramesOk(b.g, outer);
          var b1 := b.(frames := outer);
          EndsKept(b, arr, b1, arr, before);
          arr2 := ExactUnwind(b1, kind, arr, seen, before);
        } else {
          ExactDest(b, kind, if kind == Broke then brk else cont, arr, seen, before);
        }
      case Finally(body, rs) => arr2 := ExactUnwindFinally(b, body, rs, kind, arr, seen, before);
    }
  }

  lemma ExactDest(b: State, kind: Outcome, dest: nat, arr: Arrivals, seen: iset<Trace>, before: iset<Trace>)
    requires b.cur < |b.g| && Closed(arr, seen, b.g) && EndsIn(b, arr, before)
    requires forall t | t in before :: LeadsJump(arr, seen, b.frames, t, kind)
    requires forall t | LeadsJump(arr, seen, b.frames, t, kind) :: (dest, t) in arr
    ensures Closed(arr, seen, Link(b.g, b.cur, dest))
  {
    hide LeadsJump, FrameSize;
    ClosedLink(b, dest, arr, seen);
  }

  lemma {:induction false} ExactUnwindFinally(b: State, body: Block, rs: seq<nat>, kind: Outcome, arr: Arrivals, seen: iset<Trace>, before: iset<Trace>) returns (arr2: Arrivals)
    requires StateOk(b) && Closed(arr, seen, b.g) && EndsIn(b, arr, before)
    requires kind == Broke || kind == Continued || kind == Returned
    requires b.frames != [] && b.frames[|b.frames| - 1] == Finally(body, rs)
    requires forall t | t in before :: LeadsJump(arr, seen, b.frames, t, kind)
    ensures var (u, dest) := Unwind(LowerBlock(FinallyCopy(b, rs), body), kind);
      Closed(arr2, seen, Link(u.g, u.cur, dest)) && OldKept(arr, arr2, |b.g|)
    decreases FrameSize(b.frames), 0, 0
  {
    hide LowerBlock, Unwind, RunBlock, Leads, LeadsJump, LegalBlock, FrameSize, Goes, After, GraphOk, Closed, EndsIn;
    FrameSizePop(b.frames);
    var outer, runs := b.frames[..|b.frames| - 1], BlockRuns(Read(rs), body);
    var b1, b2 := FinallyCopy(b, rs), LowerBlock(FinallyCopy(b, rs), body);
    FinallyCopyReady(b, body, rs);
    var arr1 := ExactFinallyCopy(b, rs, arr, seen, before);
    CopyGoes(arr, arr1, seen, outer, body, rs, before, kind);
    var arr3 := ExactBlock(b1, body, arr1, seen, before);
    CopyLeads(arr1, arr3, seen, outer, body, rs, before, kind);
    arr2 := ExactUnwind(b2, kind, arr3, seen, After(before, runs));
    OldKeptTrans(arr, arr1, |b1.g|, arr3, |b.g|);
    OldKeptTrans(arr, arr3, |b2.g|, arr2, |b.g|);
  }

  /** The states at the start and at the end of a jump's copy of a `finally`. */
  lemma FinallyCopyReady(b: State, body: Block, rs: seq<nat>)
    requires StateOk(b) && b.frames != [] && b.frames[|b.frames| - 1] == Finally(body, rs)
    ensures StateOk(FinallyCopy(b, rs)) && LegalBlock(body) && Ready(FinallyCopy(b, rs), Lead(body))
    ensures StateOk(LowerBlock(FinallyCopy(b, rs), body)) && b.frames == b.frames[..|b.frames| - 1] + [Finally(body, rs)]
  {
    hide LowerBlock, LegalBlock, GraphOk, Lead;
    assert FrameOk(b.g, b.frames[|b.frames| - 1]);
    GrownFinallyCopy(b, rs);
    GrownBlock(FinallyCopy(b, rs), body);
  }

  lemma ExactFinallyCopy(b: State, rs: seq<nat>, arr: Arrivals, seen: iset<Trace>, before: iset<Trace>) returns (arr1: Arrivals)
    requires StateOk(b) && b.frames != [] && Closed(arr, seen, b.g) && EndsIn(b, arr, before)
    ensures var b1 := FinallyCopy(b, rs);
      Closed(arr1, seen, b1.g) && OldKept(arr, arr1, |b.g|) && EndsIn(b1, arr1, before)
  {
    hide Closed;
    ExactBranch(b, arr, seen, before);
    arr1 := Branch(b, arr);
    SameEnds(FinallyCopy(b, rs).(frames := b.frames, raiseTo := b.raiseTo), FinallyCopy(b, rs), arr1, before);
  }

  /** A jump through a `finally` has its runs go on where they should. */
  lemma CopyGoes(arr: Arrivals, arr1: Arrivals, seen: iset<Trace>, fs: seq<Frame>, body: Block, rs: seq<nat>, before: iset<Trace>, kind: Outcome)
    requires kind == Broke || kind == Continued || kind == Returned
    requires arr <= arr1 && forall t | t in before :: LeadsJump(arr, seen, fs + [Finally(body, rs)], t, kind)
    ensures Goes(arr1, seen, fs, rs, before, BlockRuns(Read(rs), body))
    ensures forall t, u | t in before && RunBlock(Read(rs), body, u, Normal) :: LeadsJump(arr1, seen, fs, t + u, kind)
  {
    hide RunBlock, Leads, LeadsJump, Read;
    forall t, u, o | t in before && RunBlock(Read(rs), body, u, o)
      ensures Leads(arr1, seen, fs, rs, t + u, AfterFinally(kind, o))
    {
      LeadsPopFinally(arr, seen, fs, body, rs, t, kind);
      LeadsMono(arr, arr1, seen, fs, rs, t + u, AfterFinally(kind, o));
    }
    forall t, u, o | t in before && (u, o) in BlockRuns(Read(rs), body)
      ensures Leads(arr1, seen, fs, rs, t + u, o)
    {
      if o == Normal {
        LeadsNormal(arr1, seen, fs, rs, t + u);
      }
    }
    GoesIntro(arr1, seen, fs, rs, before, BlockRuns(Read(rs), body));
    forall t, u | t in before && RunBlock(Read(rs), body, u, Normal)
      ensures LeadsJump(arr1, seen, fs, t + u, kind)
    {
      LeadsIsJump(arr1, seen, fs, rs, t + u, kind);
    }
  }

  /** Where the copy completes, the jump goes on. */
  lemma CopyLeads(arr1: Arrivals, arr3: Arrivals, seen: iset<Trace>, fs: seq<Frame>, body: Block, rs: seq<nat>, before: iset<Trace>, kind: Outcome)
    requires arr1 <= arr3
    requires forall t, u | t in before && RunBlock(Read(rs), body, u, Normal) :: LeadsJump(arr1, seen, fs, t + u, kind)
    ensures forall t | t in After(before, BlockRuns(Read(rs), body)) :: LeadsJump(arr3, seen, fs, t, kind)
  {
    hide RunBlock, LeadsJump, Read;
    forall t | t in After(before, BlockRuns(Read(rs), body))
      ensures LeadsJump(arr3, seen, fs, t, kind)
    {
      var t1, t2 :| t1 in before && (t2, Normal) in BlockRuns(Read(rs), body) && t == t1 + t2;
      LeadsJumpMono(arr1, arr3, seen, fs, t, kind);
    }
  }

  // ---- branches and loops ---------------------------------------------

  lemma {:induction false} ExactArm(b: State, body: Block, fork: nat, after: nat, arr: Arrivals, seen: iset<Trace>, before: iset<Trace>) returns (arr2: Arrivals)
    requires StateOk(b) && LegalBlock(body)
    requires fork < |b.g| && fork != EXIT && Target(b.g, after)
    requires Closed(arr, seen, b.g) && EndsIn(b.(cur := fork), arr, before)
    requires Goes(arr, seen, b.frames, b.raiseTo, before, BlockRuns(Read(b.raiseTo), body))
    requires forall t | t in After(before, BlockRuns(Read(b.raiseTo), body)) :: (after, t) in arr
    ensures Extended(b, arr, LowerArm(b, body, fork, after), arr2, seen)
    decreases BlockSize(body) + FrameSize(b.frames), 1
  {
    hide LowerBlock, LowerStmt, LowerBody, RunBlock, LegalBlock, Goes, After, FrameSize;
    var b0 := b.(cur := fork);
    var b1 := b.(g := Link(Grow(b.g, 1), fork, |b.g|), cur := |b.g|);
    BranchExtends(b.g, fork);
    ContextKept(b, b1.g);
    ExactBranch(b0, arr, seen, before);
    var arr1 := Branch(b0, arr);
    GoesSub(arr, seen, b.frames, b.raiseTo, before, BlockRuns(Read(b.raiseTo), body), arr1, before, BlockRuns(Read(b.raiseTo), body));
    arr2 := ExactBlock(b1, body, arr1, seen, before);
    var b2 := LowerBlock(b1, body);
    ClosedLink(b2, after, arr2, seen);
    OldKeptTrans(arr, arr1, |b1.g|, arr2, |b.g|);
  }

  lemma {:induction false} ExactAlts(b: State, alts: Alts, fork: nat, after: nat, arr: Arrivals, seen: iset<Trace>, before: iset<Trace>) returns (arr2: Arrivals)
    requires StateOk(b) && LegalAlts(alts)
    requires fork < |b.g| && fork != EXIT && Target(b.g, after)
    requires Closed(arr, seen, b.g) && EndsIn(b.(cur := fork), arr, before)
    requires Goes(arr, seen, b.frames, b.raiseTo, before, AltRuns(Read(b.raiseTo), alts))
    requires forall t | t in After(before, AltRuns(Read(b.raiseTo), alts)) :: (after, t) in arr
    ensures Extended(b, arr, LowerAlts(b, alts, fork, after), arr2, seen)
    decreases AltsSize(alts) + FrameSize(b.frames), 0
  {
    hide LowerBlock, LowerStmt, LowerBody, LowerArm, RunBlock, Goes, After, FrameSize;
    match alts
    case NoElse =>
      arr2 := arr;
      OldKeptSame(arr, |b.g|);
      forall t | At(b.(cur := fork), arr, t)
        ensures (after, t) in arr
      {
        AfterOne(before, AltRuns(Read(b.raiseTo), alts), t, []);
        assert t + [] == t;
      }
      ClosedLink(b.(cur := fork), after, arr, seen);
    case Else(body) =>
      GoesSub(arr, seen, b.frames, b.raiseTo, before, AltRuns(Read(b.raiseTo), alts), arr, before, BlockRuns(Read(b.raiseTo), body));
      AfterSub(before, AltRuns(Read(b.raiseTo), alts), before, BlockRuns(Read(b.raiseTo), body));
      arr2 := ExactArm(b, body, fork, after, arr, seen, before);
    case Elif(cond, body, rest) =>
      SequelElif(Read(b.raiseTo), cond, body, rest);
      arr2 := ExactElif(b, cond, body, rest, fork, after, arr, seen, before, AltRuns(Read(b.raiseTo), alts));
  }

  /** A condition and then either arm is a run of `runs`. */
  ghost predicate Forks(m: Rules, cond: Trace, body: Block, rest: Alts, runs: Runs) {
    && Sequel(EventRuns(cond, Normal), BlockRuns(m, body), runs)
    && Sequel(EventRuns(cond, Normal), AltRuns(m, rest), runs)
    && (forall v | v <= cond :: (v, Cut) in runs)
  }

  lemma SequelElif(m: Rules, cond: Trace, body: Block, rest: Alts)
    ensures Sequel(EventRuns(cond, Normal), BlockRuns(m, body), AltRuns(m, Elif(cond, body, rest)))
    ensures Sequel(EventRuns(cond, Normal), AltRuns(m, rest), AltRuns(m, Elif(cond, body, rest)))
  {
    hide RunBlock, FrameSize;
    var runs := AltRuns(m, Elif(cond, body, rest));
    forall u1, u2, o
      ensures SequelOne(EventRuns(cond, Normal), BlockRuns(m, body), runs, u1, u2, o)
      ensures SequelOne(EventRuns(cond, Normal), AltRuns(m, rest), runs, u1, u2, o)
    {
    }
  }

  lemma {:induction false} ExactElif(b: State, cond: Trace, body: Block, rest: Alts, fork: nat, after: nat, arr: Arrivals, seen: iset<Trace>, before: iset<Trace>, runs: Runs) returns (arr2: Arrivals)
    requires StateOk(b) && LegalBlock(body) && LegalAlts(rest)
    requires fork < |b.g| && fork != EXIT && Target(b.g, after)
    requires Closed(arr, seen, b.g) && EndsIn(b.(cur := fork), arr, before) && Forks(Read(b.raiseTo), cond, body, rest, runs)
    requires Goes(arr, seen, b.frames, b.raiseTo, before, runs)
    requires forall t | t in After(before, runs) :: (after, t) in arr
    ensures Extended(b, arr, LowerAlts(LowerArm(ElifHead(b, cond, fork), body, |b.g|, after), rest, |b.g|, after), arr2, seen)
    decreases BlockSize(body) + AltsSize(rest) + FrameSize(b.frames), 3
  {
    hide LowerBlock, LowerStmt, LowerBody, LowerArm, LowerAlts, RunBlock, LegalBlock, Goes, After, Forks, FrameSize;
    var b0 := b.(cur := fork);
    var b1 := ElifHead(b, cond, fork);
    GrownElifHead(b, cond, fork);
    ExactBranch(b0, arr, seen, before);
    var arr1 := Branch(b0, arr);
    var h := b.(g := Link(Grow(b.g, 1), fork, |b.g|), cur := |b.g|);
    GoesSub(arr, seen, b.frames, b.raiseTo, before, runs, arr1, before, runs);
    ForksCut(Read(b.raiseTo), cond, body, rest, runs);
    SeenEvents(cond, arr1, seen, b.frames, b.raiseTo, before, runs);
    ExactEmit(h, cond, Normal, arr1, seen, before);
    arr2 := ExactFork(b1, cond, body, rest, after, arr1, seen, before, runs);
    OldKeptTrans(arr, arr1, |b1.g|, arr2, |b.g|);
  }

  lemma ForksCut(m: Rules, cond: Trace, body: Block, rest: Alts, runs: Runs)
    requires Forks(m, cond, body, rest, runs)
    ensures forall v | v <= cond :: (v, Cut) in runs
  {
  }

  /** From a block that ends in the condition: its first arm, then the others. */
  lemma {:induction false} ExactFork(b: State, cond: Trace, body: Block, rest: Alts, after: nat, arr: Arrivals, seen: iset<Trace>, before: iset<Trace>, runs: Runs) returns (arr2: Arrivals)
    requires StateOk(b) && LegalBlock(body) && LegalAlts(rest)
    requires Target(b.g, after) && Forks(Read(b.raiseTo), cond, body, rest, runs)
    requires Closed(arr, seen, b.g) && EndsIn(b, arr, After(before, EventRuns(cond, Normal)))
    requires Goes(arr, seen, b.frames, b.raiseTo, before, runs)
    requires forall t | t in After(before, runs) :: (after, t) in arr
    ensures Extended(b, arr, LowerAlts(LowerArm(b, body, b.cur, after), rest, b.cur, after), arr2, seen)
    decreases BlockSize(body) + AltsSize(rest) + FrameSize(b.frames), 2
  {
    hide LowerBlock, LowerStmt, LowerBody, LowerArm, LowerAlts, RunBlock, LegalBlock, Goes, After, FrameSize;
    var fork, before1 := b.cur, After(before, EventRuns(cond, Normal));
    GoesThen(arr, seen, b.frames, b.raiseTo, before, runs, arr, EventRuns(cond, Normal), BlockRuns(Read(b.raiseTo), body));
    AfterThen(before, runs, EventRuns(cond, Normal), BlockRuns(Read(b.raiseTo), body));
    GrownArm(b, body, fork, after);
    var b2 := LowerArm(b, body, fork, after);
    var arr1 := ExactArm(b, body, fork, after, arr, seen, before1);
    GoesThen(arr, seen, b.frames, b.raiseTo, before, runs, arr1, EventRuns(cond, Normal), AltRuns(Read(b.raiseTo), rest));
    AfterThen(before, runs, EventRuns(cond, Normal), AltRuns(Read(b.raiseTo), rest));
    EndsKept(b, arr, b2.(cur := fork), arr1, before1);
    arr2 := ExactAlts(b2, rest, fork, after, arr1, seen, before1);
    OldKeptTrans(arr, arr1, |b2.g|, arr2, |b.g|);
  }

  lemma SequelIf(m: Rules, cond: Trace, body: Block, alts: Alts)
    ensures Forks(m, cond, body, alts, BodyRuns(m, If(cond, body, alts)))
  {
    hide RunBlock, RunAlts, FrameSize;
    var runs := BodyRuns(m, If(cond, body, alts));
    forall u1, u2, o
      ensures SequelOne(EventRuns(cond, Normal), BlockRuns(m, body), runs, u1, u2, o)
      ensures SequelOne(EventRuns(cond, Normal), AltRuns(m, alts), runs, u1, u2, o)
    {
    }
  }

  lemma BodyCuts(m: Rules, s: Stmt)
    requires !s.Break? && !s.Continue?
    ensures forall u | (u, Normal) in BodyRuns(m, s) :: (u, Cut) in BodyRuns(m, s)
  {
    hide RunBody, FrameSize;
    forall u | (u, Normal) in BodyRuns(m, s)
      ensures (u, Cut) in BodyRuns(m, s)
    {
      CutBody(m, s, u, Normal);
    }
  }

  lemma {:induction false} ExactIf(b: State, cond: Trace, body: Block, alts: Alts, arr: Arrivals, seen: iset<Trace>, before: iset<Trace>) returns (arr2: Arrivals)
    requires StateOk(b) && LegalBlock(body) && LegalAlts(alts)
    requires (b.g[b.cur].succs == [] || cond == [])
    requires Closed(arr, seen, b.g) && EndsIn(b, arr, before)
    requires Goes(arr, seen, b.frames, b.raiseTo, before, BodyRuns(Read(b.raiseTo), If(cond, body, alts)))
    ensures Extended(b, arr, LowerIf(b, cond, body, alts), arr2, seen)
    ensures EndsIn(LowerIf(b, cond, body, alts), arr2, After(before, BodyRuns(Read(b.raiseTo), If(cond, body, alts))))
    decreases 1 + BlockSize(body) + AltsSize(alts) + FrameSize(b.frames), 3
  {
    hide LowerBlock, LowerStmt, LowerBody, LowerArm, LowerAlts, RunBody, RunBlock, RunAlts, LegalBlock, Goes, After, Forks, FrameSize;
    var runs, after := BodyRuns(Read(b.raiseTo), If(cond, body, alts)), |b.g|;
    SequelIf(Read(b.raiseTo), cond, body, alts);
    ForksCut(Read(b.raiseTo), cond, body, alts, runs);
    BodyCuts(Read(b.raiseTo), If(cond, body, alts));
    SeenAfter(arr, seen, b.frames, b.raiseTo, before, runs);
    var ends := After(before, runs);
    var arr1 := arr + Arriving(after, ends);
    ClosedGrow(b.g, 1, arr, seen);
    ClosedArriving(Grow(b.g, 1), after, ends, arr, seen);
    OldKeptArriving(arr, after, ends, |b.g|);
    var b0 := b.(g := Grow(b.g, 1));
    EndsKept(b, arr, b0, arr1, before);
    GoesSub(arr, seen, b.frames, b.raiseTo, before, runs, arr1, before, runs);
    SeenEvents(cond, arr1, seen, b.frames, b.raiseTo, before, runs);
    ExactEmit(b0, cond, Normal, arr1, seen, before);
    var b1 := OpenIf(b, cond);
    GrownOpenIf(b, cond);
    arr2 := ExactFork(b1, cond, body, alts, after, arr1, seen, before, runs);
    OldKeptTrans(arr, arr1, |b1.g|, arr2, |b.g|);
    GrownIf(b, cond, body, alts);
    NoneAtNew(arr, seen, b.g, after);
    EndsAfter(arr, ends, |b1.g|, arr2, LowerIf(b, cond, body, alts));
  }

  ghost predicate NoneAt(arr: Arrivals, c: nat) {
    forall u :: (c, u) !in arr
  }

  lemma NoneAtNew(arr: Arrivals, seen: iset<Trace>, g: Graph, c: nat)
    requires Closed(arr, seen, g) && |g| <= c
    ensures NoneAt(arr, c)
  {
    if exists u :: (c, u) in arr {
      var u :| (c, u) in arr;
      ArrivesInRange(arr, seen, g, c, u);
      assert false;
    }
  }

  /** What ends in the block after a statement is what was said to arrive there. */
  lemma EndsAfter(arr: Arrivals, ends: iset<Trace>, n: nat, arr2: Arrivals, r: State)
    requires r.cur < n && r.cur < |r.g| && r.g[r.cur].events == []
    requires NoneAt(arr, r.cur) && OldKept(arr + Arriving(r.cur, ends), arr2, n)
    ensures EndsIn(r, arr2, ends)
  {
    forall t | At(r, arr2, t)
      ensures t in ends
    {
      var u :| (r.cur, u) in arr2 && t == u + r.g[r.cur].events;
      assert t == u;
      assert NotNew(arr + Arriving(r.cur, ends), arr2, r.cur, u);
    }
  }

  /** One pass through a loop body goes on where it should. */
  ghost predicate LoopGoes(m: Rules, arr: Arrivals, seen: iset<Trace>, fs: seq<Frame>, rs: seq<nat>, before: iset<Trace>, body: Block, cont: nat, after: nat) {
    forall t, u, o {:trigger LoopGoesOne(m, arr, seen, fs, rs, before, body, cont, after, t, u, o)} ::
      LoopGoesOne(m, arr, seen, fs, rs, before, body, cont, after, t, u, o)
  }

  ghost predicate LoopGoesOne(m: Rules, arr: Arrivals, seen: iset<Trace>, fs: seq<Frame>, rs: seq<nat>, before: iset<Trace>, body: Block, cont: nat, after: nat, t: Trace, u: Trace, o: Outcome) {
    t in before && RunBlock(m, body, u, o) ==>
      match o {
        case Normal => (cont, t + u) in arr
        case Continued => (cont, t + u) in arr
        case Broke => (after, t + u) in arr
        case _ => Leads(arr, seen, fs, rs, t + u, o)
      }
  }

  lemma {:induction false} ExactLoopBody(b: State, body: Block, cont: nat, after: nat, arr: Arrivals, seen: iset<Trace>, before: iset<Trace>) returns (arr2: Arrivals)
    requires StateOk(b) && LegalBlock(body) && Target(b.g, cont) && Target(b.g, after)
    requires Closed(arr, seen, b.g) && EndsIn(b, arr, before)
    requires LoopGoes(Read(b.raiseTo), arr, seen, b.frames, b.raiseTo, before, body, cont, after)
    ensures Extended(b, arr, LoopBody(b, body, cont, after), arr2, seen)
    decreases BlockSize(body) + FrameSize(b.frames), 1
  {
    hide LowerBlock, LowerStmt, LowerBody, RunBlock, LegalBlock, Leads, LoopGoes, FrameSize;
    var b1 := OpenLoop(b, cont, after);
    GrownOpenLoop(b, cont, after);
    FrameSizePush(b.frames, Loop(after, cont));
    ExactBranch(b, arr, seen, before);
    var arr1 := Branch(b, arr);
    SameEnds(b1.(frames := b.frames), b1, arr1, before);
    LoopGoesBlock(Read(b.raiseTo), arr, seen, b.frames, b.raiseTo, before, body, cont, after, arr1);
    arr2 := ExactBlock(b1, body, arr1, seen, before);
    var b2 := LowerBlock(b1, body);
    forall t | At(b2, arr2, t)
      ensures (cont, t) in arr2
    {
      var t1, t2 :| t1 in before && (t2, Normal) in BlockRuns(Read(b.raiseTo), body) && t == t1 + t2;
      LoopGoesAt(Read(b.raiseTo), arr, seen, b.frames, b.raiseTo, before, body, cont, after, t1, t2, Normal);
    }
    ClosedLink(b2, cont, arr2, seen);
    OldKeptTrans(arr, arr1, |b1.g|, arr2, |b.g|);
  }

  lemma LoopGoesAt(m: Rules, arr: Arrivals, seen: iset<Trace>, fs: seq<Frame>, rs: seq<nat>, before: iset<Trace>, body: Block, cont: nat, after: nat, t: Trace, u: Trace, o: Outcome)
    requires LoopGoes(m, arr, seen, fs, rs, before, body, cont, after)
    ensures LoopGoesOne(m, arr, seen, fs, rs, before, body, cont, after, t, u, o)
  {
  }

  lemma LoopGoesBlock(m: Rules, arr: Arrivals, seen: iset<Trace>, fs: seq<Frame>, rs: seq<nat>, before: iset<Trace>, body: Block, cont: nat, after: nat, arr1: Arrivals)
    requires LoopGoes(m, arr, seen, fs, rs, before, body, cont, after) && arr <= arr1
    ensures Goes(arr1, seen, fs + [Loop(after, cont)], rs, before, BlockRuns(m, body))
  {
    hide Leads, RunBlock, FrameSize;
    forall t, u, o
      ensures GoesOne(arr1, seen, fs + [Loop(after, cont)], rs, before, BlockRuns(m, body), t, u, o)
    {
      if t in before && RunBlock(m, body, u, o) {
        assert LoopGoesOne(m, arr, seen, fs, rs, before, body, cont, after, t, u, o);
        LeadsPopLoop(arr1, seen, fs, after, cont, rs, t + u, o);
        if o == Normal {
          LeadsNormal(arr1, seen, fs, rs, t + u);
        } else if o != Broke && o != Continued {
          LeadsMono(arr, arr1, seen, fs, rs, t + u, o);
        }
      }
    }
  }

  lemma LeadsNormal(arr: Arrivals, seen: iset<Trace>, fs: seq<Frame>, rs: seq<nat>, t: Trace)
    ensures Leads(arr, seen, fs, rs, t, Normal)
  {
  }

  /** Any number of turns, and at least one. */
  ghost function TurnRuns(m: Rules, pre: Trace, body: Block): Runs {
    iset p: (Trace, Outcome) | p.1 == Normal && exists n: nat :: RunTurns(m, pre, body, p.0, n)
  }

  ghost function MoreRuns(m: Rules, pre: Trace, body: Block): Runs {
    iset p: (Trace, Outcome) | p.1 == Normal && exists n: nat :: n > 0 && RunTurns(m, pre, body, p.0, n)
  }

  ghost function LastRuns(m: Rules, pre: Trace, body: Block): Runs {
    iset p: (Trace, Outcome) | RunLastTurn(m, pre, body, p.0, p.1)
  }

  /** A turn after any number of turns: it is one more, or it leaves the loop. */
  lemma {:induction false} LoopGoesOn(m: Rules, arr: Arrivals, seen: iset<Trace>, fs: seq<Frame>, rs: seq<nat>, before: iset<Trace>, pre: Trace, body: Block, runs: Runs, cont: nat, after: nat)
    requires Goes(arr, seen, fs, rs, before, runs) && Sequel(TurnRuns(m, pre, body), LastRuns(m, pre, body), runs)
    requires forall t | t in After(before, runs) :: (after, t) in arr
    requires forall t | t in After(before, MoreRuns(m, pre, body)) :: (cont, t) in arr
    ensures LoopGoes(m, arr, seen, fs, rs, After(After(before, TurnRuns(m, pre, body)), EventRuns(pre, Normal)), body, cont, after)
  {
    hide Leads, RunBlock, RunTurns, RunLastTurn, Goes, Sequel, FrameSize;
    var starts := After(After(before, TurnRuns(m, pre, body)), EventRuns(pre, Normal));
    forall t, u, o
      ensures LoopGoesOne(m, arr, seen, fs, rs, starts, body, cont, after, t, u, o)
    {
      if t in starts && RunBlock(m, body, u, o) {
        var t12, t3 :| t12 in After(before, TurnRuns(m, pre, body)) && (t3, Normal) in EventRuns(pre, Normal) && t == t12 + t3;
        var t1, t2 :| t1 in before && (t2, Normal) in TurnRuns(m, pre, body) && t12 == t1 + t2;
        assert t + u == t1 + (t2 + (pre + u));
        LoopGoesTurn(m, arr, seen, fs, rs, before, pre, body, runs, cont, after, t1, t2, u, o);
      }
    }
  }

  lemma {:induction false} LoopGoesTurn(m: Rules, arr: Arrivals, seen: iset<Trace>, fs: seq<Frame>, rs: seq<nat>, before: iset<Trace>, pre: Trace, body: Block, runs: Runs, cont: nat, after: nat, t1: Trace, t2: Trace, u: Trace, o: Outcome)
    requires Goes(arr, seen, fs, rs, before, runs) && Sequel(TurnRuns(m, pre, body), LastRuns(m, pre, body), runs)
    requires forall t | t in After(before, runs) :: (after, t) in arr
    requires forall t | t in After(before, MoreRuns(m, pre, body)) :: (cont, t) in arr
    requires t1 in before && (t2, Normal) in TurnRuns(m, pre, body) && RunBlock(m, body, u, o)
    ensures var t := t1 + (t2 + (pre + u));
      match o {
        case Normal => (cont, t) in arr
        case Continued => (cont, t) in arr
        case Broke => (after, t) in arr
        case _ => Leads(arr, seen, fs, rs, t, o)
      }
  {
    hide Leads, RunBlock, Goes, After, FrameSize;
    if o == Normal || o == Continued {
      OneMoreTurn(m, pre, body, t2, u);
      AfterOne(before, MoreRuns(m, pre, body), t1, t2 + (pre + u));
    } else {
      var o1 := if o == Broke then Normal else o;
      assert RunLastTurn(m, pre, body, pre + u, o1);
      assert SequelOne(TurnRuns(m, pre, body), LastRuns(m, pre, body), runs, t2, pre + u, o1);
      if o == Broke {
        AfterOne(before, runs, t1, t2 + (pre + u));
      } else {
        GoesAt(arr, seen, fs, rs, before, runs, arr, t1, t2 + (pre + u), o);
      }
    }
  }

  lemma OneMoreTurn(m: Rules, pre: Trace, body: Block, t: Trace, u: Trace)
    requires (t, Normal) in TurnRuns(m, pre, body) && Completes(m, body, u)
    ensures (t + (pre + u), Normal) in MoreRuns(m, pre, body)
  {
    hide Completes, RunBlock, FrameSize;
    var n: nat :| RunTurns(m, pre, body, t, n);
    assert RunTurns(m, pre, body, t + (pre + u), n + 1);
  }

  /** A new block with the events `ev`, entered from the current one and, later, from
      elsewhere: `heads` may arrive at it. */
  lemma ExactHead(b: State, ev: Trace, arr: Arrivals, seen: iset<Trace>, before: iset<Trace>, heads: iset<Trace>)
    requires StateOk(b) && Closed(arr, seen, b.g) && EndsIn(b, arr, before) && before <= heads
    requires forall t, v | t in heads && v <= ev :: t + v in seen
    ensures var r := ElifHead(b, ev, b.cur); var arr' := arr + Arriving(|b.g|, heads);
      Extended(b, arr, r, arr', seen) && EndsIn(r, arr', After(heads, EventRuns(ev, Normal)))
  {
    hide After, FrameSize;
    var n := |b.g|;
    var arr' := arr + Arriving(n, heads);
    forall t | t in heads
      ensures t in seen
    {
      assert [] <= ev && t + [] == t;
    }
    ClosedGrow(b.g, 1, arr, seen);
    ClosedArriving(Grow(b.g, 1), n, heads, arr, seen);
    OldKeptArriving(arr, n, heads, n);
    var b1 := b.(g := Grow(b.g, 1));
    EndsKept(b, arr, b1, arr', before);
    ClosedLink(b1, n, arr', seen);
    var h := b.(g := Link(Grow(b.g, 1), b.cur, n), cur := n);
    forall t | At(h, arr', t)
      ensures t in heads
    {
      var u :| (n, u) in arr' && t == u + h.g[n].events;
      assert t == u;
      if (n, u) in arr {
        ArrivesInRange(arr, seen, b.g, n, u);
      }
    }
    ExactEmit(h, ev, Normal, arr', seen, heads);
  }

  lemma WhileRuns(m: Rules, always: bool, cond: Trace, body: Block, orelse: Block)
    ensures var runs := BodyRuns(m, While(always, cond, body, orelse));
      && Sequel(TurnRuns(m, cond, body), LastRuns(m, cond, body), runs)
      && ([], Normal) in TurnRuns(m, cond, body)
      && (forall v | v <= cond :: (v, Cut) in LastRuns(m, cond, body))
  {
    hide RunBlock, RunLastTurn, FrameSize;
    var runs := BodyRuns(m, While(always, cond, body, orelse));
    assert RunTurns(m, cond, body, [], 0);
    forall u1, u2, o
      ensures SequelOne(TurnRuns(m, cond, body), LastRuns(m, cond, body), runs, u1, u2, o)
    {
      if (u1, Normal) in TurnRuns(m, cond, body) && (u2, o) in LastRuns(m, cond, body) {
        var n: nat :| RunTurns(m, cond, body, u1, n);
      }
    }
    forall v | v <= cond
      ensures RunLastTurn(m, cond, body, v, Cut)
    {
      LastTurnCut(m, cond, body, v);
    }
  }

  lemma LastTurnCut(m: Rules, pre: Trace, body: Block, v: Trace)
    requires v <= pre
    ensures RunLastTurn(m, pre, body, v, Cut)
  {
    hide RunBlock, FrameSize;
  }

  lemma WhileElse(m: Rules, cond: Trace, body: Block, orelse: Block)
    ensures Sequel(EventRuns(cond, Normal), BlockRuns(m, orelse), ElseRuns(m, cond, orelse))
    ensures Sequel(TurnRuns(m, cond, body), ElseRuns(m, cond, orelse), BodyRuns(m, While(false, cond, body, orelse)))
  {
    hide RunBlock, RunLastTurn, FrameSize;
    var runs := BodyRuns(m, While(false, cond, body, orelse));
    forall u1, u2, o
      ensures SequelOne(EventRuns(cond, Normal), BlockRuns(m, orelse), ElseRuns(m, cond, orelse), u1, u2, o)
    {
    }
    forall u1, u2, o
      ensures SequelOne(TurnRuns(m, cond, body), ElseRuns(m, cond, orelse), runs, u1, u2, o)
    {
      if (u1, Normal) in TurnRuns(m, cond, body) && (u2, o) in ElseRuns(m, cond, orelse) {
        var n: nat :| RunTurns(m, cond, body, u1, n);
        assert RunTurns(m, cond, body, u1, n) && u1 + u2 == u1 + u2;
      }
    }
  }

  /** The condition fails, then `else`. */
  ghost function ElseRuns(m: Rules, cond: Trace, orelse: Block): Runs {
    iset p: (Trace, Outcome) | exists u :: p.0 == cond + u && RunBlock(m, orelse, u, p.1)
  }

  /** The cut runs of the last turn can be observed after any number of turns. */
  lemma SeenTurns(m: Rules, arr: Arrivals, seen: iset<Trace>, fs: seq<Frame>, rs: seq<nat>, before: iset<Trace>, runs: Runs, pre: Trace, body: Block)
    requires Goes(arr, seen, fs, rs, before, runs) && Sequel(TurnRuns(m, pre, body), LastRuns(m, pre, body), runs)
    requires forall v | v <= pre :: (v, Cut) in LastRuns(m, pre, body)
    ensures forall t, v | t in After(before, TurnRuns(m, pre, body)) && v <= pre :: t + v in seen
  {
    hide RunBlock, RunLastTurn, RunTurns, Goes, After, FrameSize;
    GoesThen(arr, seen, fs, rs, before, runs, arr, TurnRuns(m, pre, body), LastRuns(m, pre, body));
    SeenEvents(pre, arr, seen, fs, rs, After(before, TurnRuns(m, pre, body)), LastRuns(m, pre, body));
  }

  lemma ExactOpenWhile(b: State, cond: Trace, arr: Arrivals, seen: iset<Trace>, before: iset<Trace>, heads: iset<Trace>, ends: iset<Trace>)
    requires StateOk(b) && Closed(arr, seen, b.g) && EndsIn(b, arr, before) && before <= heads && ends <= seen
    requires forall t, v | t in heads && v <= cond :: t + v in seen
    ensures var r := OpenWhile(b, cond); var arr' := arr + Arriving(|b.g|, heads) + Arriving(|b.g| + 1, ends);
      Extended(b, arr, r, arr', seen) && EndsIn(r, arr', After(heads, EventRuns(cond, Normal)))
  {
    hide After, FrameSize;
    ExactHead(b, cond, arr, seen, before, heads);
    var h, arr1 := ElifHead(b, cond, b.cur), arr + Arriving(|b.g|, heads);
    ClosedGrow(h.g, 1, arr1, seen);
    ClosedArriving(Grow(h.g, 1), |b.g| + 1, ends, arr1, seen);
    OldKeptArriving(arr1, |b.g| + 1, ends, |h.g|);
    OldKeptTrans(arr, arr1, |h.g|, arr1 + Arriving(|b.g| + 1, ends), |b.g|);
    EndsKept(h, arr1, OpenWhile(b, cond), arr1 + Arriving(|b.g| + 1, ends), After(heads, EventRuns(cond, Normal)));
  }

  lemma {:induction false} ExactWhile(b: State, always: bool, cond: Trace, body: Block, orelse: Block, arr: Arrivals, seen: iset<Trace>, before: iset<Trace>) returns (arr2: Arrivals)
    requires StateOk(b) && LegalBlock(body) && LegalBlock(orelse)
    requires Closed(arr, seen, b.g) && EndsIn(b, arr, before)
    requires Goes(arr, seen, b.frames, b.raiseTo, before, BodyRuns(Read(b.raiseTo), While(always, cond, body, orelse)))
    ensures Extended(b, arr, LowerWhile(b, always, cond, body, orelse), arr2, seen)
    ensures EndsIn(LowerWhile(b, always, cond, body, orelse), arr2, After(before, BodyRuns(Read(b.raiseTo), While(always, cond, body, orelse))))
    decreases 1 + BlockSize(body) + BlockSize(orelse) + FrameSize(b.frames), 3
  {
    hide LowerBlock, LowerStmt, LowerBody, LoopBody, OpenWhile, ElseBody, DeadElse, RunBlock, RunBody, RunTurns, RunLastTurn, LegalBlock, Goes, LoopGoes, After, Sequel, FrameSize;
    var s, header, after := While(always, cond, body, orelse), |b.g|, |b.g| + 1;
    var runs := BodyRuns(Read(b.raiseTo), s);
    var heads, ends := After(before, TurnRuns(Read(b.raiseTo), cond, body)), After(before, runs);
    WhileRuns(Read(b.raiseTo), always, cond, body, orelse);
    SeenTurns(Read(b.raiseTo), arr, seen, b.frames, b.raiseTo, before, runs, cond, body);
    BodyCuts(Read(b.raiseTo), s);
    SeenAfter(arr, seen, b.frames, b.raiseTo, before, runs);
    AfterSelf(before, TurnRuns(Read(b.raiseTo), cond, body));
    ExactOpenWhile(b, cond, arr, seen, before, heads, ends);
    var arr1 := arr + Arriving(header, heads) + Arriving(after, ends);
    var b1 := OpenWhile(b, cond);
    GrownOpenWhile(b, cond);
    GoesSub(arr, seen, b.frames, b.raiseTo, before, runs, arr1, before, runs);
    AfterSub(before, TurnRuns(Read(b.raiseTo), cond, body), before, MoreRuns(Read(b.raiseTo), cond, body));
    LoopGoesOn(Read(b.raiseTo), arr1, seen, b.frames, b.raiseTo, before, cond, body, runs, header, after);
    var starts := After(heads, EventRuns(cond, Normal));
    var arr3 := ExactLoopBody(b1, body, header, after, arr1, seen, starts);
    arr2 := ExactWhileElse(b, always, cond, body, orelse, arr1, arr3, seen, before);
    assert OldKept(arr1, arr2, |b1.g|);
    GrownWhile(b, always, cond, body, orelse);
    OldKeptTrans(arr, arr1, |b1.g|, arr2, |b.g|);
    NoneAtNew(arr, seen, b.g, after);
    EndsAfter(arr + Arriving(header, heads), ends, |b1.g|, arr2, LowerWhile(b, always, cond, body, orelse));
  }

  lemma AfterSelf(before: iset<Trace>, runs: Runs)
    requires ([], Normal) in runs
    ensures before <= After(before, runs)
  {
    forall t | t in before
      ensures t in After(before, runs)
    {
      AfterOne(before, runs, t, []);
      assert t + [] == t;
    }
  }

  /** The loop is left through `else`, unless its condition is `True`. */
  lemma {:induction false} ExactWhileElse(b: State, always: bool, cond: Trace, body: Block, orelse: Block, arr1: Arrivals, arr3: Arrivals, seen: iset<Trace>, before: iset<Trace>) returns (arr2: Arrivals)
    requires StateOk(b) && LegalBlock(body) && LegalBlock(orelse)
    requires var b1 := OpenWhile(b, cond);
      && Extended(b1, arr1, LoopBody(b1, body, |b.g|, |b.g| + 1), arr3, seen)
      && EndsIn(b1, arr1, After(After(before, TurnRuns(Read(b.raiseTo), cond, body)), EventRuns(cond, Normal)))
    requires Goes(arr1, seen, b.frames, b.raiseTo, before, BodyRuns(Read(b.raiseTo), While(always, cond, body, orelse)))
    requires forall t | t in After(before, BodyRuns(Read(b.raiseTo), While(always, cond, body, orelse))) :: (|b.g| + 1, t) in arr1
    ensures Closed(arr2, seen, LowerWhile(b, always, cond, body, orelse).g)
    ensures OldKept(arr1, arr2, |OpenWhile(b, cond).g|)
    decreases BlockSize(orelse) + FrameSize(b.frames), 3
  {
    hide LowerBlock, LowerStmt, LowerBody, LoopBody, OpenWhile, ElseBody, DeadElse, RunBlock, RunBody, RunTurns, RunLastTurn, LegalBlock, Goes, After, Sequel, FrameSize;
    var header, after := |b.g|, |b.g| + 1;
    var runs := BodyRuns(Read(b.raiseTo), While(always, cond, body, orelse));
    var b1 := OpenWhile(b, cond);
    GrownOpenWhile(b, cond);
    GrownLoopBody(b1, body, header, after);
    var b2 := LoopBody(b1, body, header, after);
    var heads := After(before, TurnRuns(Read(b.raiseTo), cond, body));
    var starts := After(heads, EventRuns(cond, Normal));
    if !always {
      WhileElse(Read(b.raiseTo), cond, body, orelse);
      GoesThen(arr1, seen, b.frames, b.raiseTo, before, runs, arr3, TurnRuns(Read(b.raiseTo), cond, body), ElseRuns(Read(b.raiseTo), cond, orelse));
      GoesThen(arr3, seen, b.frames, b.raiseTo, heads, ElseRuns(Read(b.raiseTo), cond, orelse), arr3, EventRuns(cond, Normal), BlockRuns(Read(b.raiseTo), orelse));
      AfterThen(heads, ElseRuns(Read(b.raiseTo), cond, orelse), EventRuns(cond, Normal), BlockRuns(Read(b.raiseTo), orelse));
      AfterThen(before, runs, TurnRuns(Read(b.raiseTo), cond, body), ElseRuns(Read(b.raiseTo), cond, orelse));
      EndsKept(b1, arr1, b2.(cur := header), arr3, starts);
      arr2 := ExactElseBody(b2, header, orelse, after, arr3, seen, starts);
      OldKeptTrans(arr1, arr3, |b2.g|, arr2, |b1.g|);
    } else if orelse.Cons? {
      arr2 := ExactDeadElse(b2, orelse, after, arr3, seen);
      OldKeptTrans(arr1, arr3, |b2.g|, arr2, |b1.g|);
    } else {
      arr2 := arr3;
    }
  }

  lemma {:induction false} ExactElseBody(b: State, from: nat, orelse: Block, after: nat, arr: Arrivals, seen: iset<Trace>, before: iset<Trace>) returns (arr2: Arrivals)
    requires StateOk(b) && LegalBlock(orelse)
    requires from < |b.g| && from != EXIT && Target(b.g, after)
    requires Closed(arr, seen, b.g) && EndsIn(b.(cur := from), arr, before)
    requires Goes(arr, seen, b.frames, b.raiseTo, before, BlockRuns(Read(b.raiseTo), orelse))
    requires forall t | t in After(before, BlockRuns(Read(b.raiseTo), orelse)) :: (after, t) in arr
    ensures Extended(b, arr, ElseBody(b, from, orelse, after), arr2, seen)
    decreases BlockSize(orelse) + FrameSize(b.frames), 2
  {
    hide LowerBlock, LowerStmt, LowerBody, RunBlock, LegalBlock, Goes, After, FrameSize;
    arr2 := ExactArm(b, orelse, from, after, arr, seen, before);
  }

  /** Nothing arrives at the `else` of `while True`. */
  lemma {:induction false} ExactDeadElse(b: State, orelse: Block, after: nat, arr: Arrivals, seen: iset<Trace>) returns (arr2: Arrivals)
    requires StateOk(b) && LegalBlock(orelse)
    requires Target(b.g, after) && Closed(arr, seen, b.g)
    ensures Extended(b, arr, DeadElse(b, orelse, after), arr2, seen)
    decreases BlockSize(orelse) + FrameSize(b.frames), 2
  {
    hide LowerBlock, LowerStmt, LowerBody, RunBlock, LegalBlock, FrameSize;
    var b1 := b.(g := Grow(b.g, 1), cur := |b.g|);
    GrowExtends(b.g, 1, 0, 0);
    ContextKept(b, b1.g);
    ClosedGrow(b.g, 1, arr, seen);
    NoArrivals(b, b.g, b1, arr, seen);
    arr2 := ExactBlock(b1, orelse, arr, seen, iset{});
    var b2 := LowerBlock(b1, orelse);
    ClosedLink(b2, after, arr2, seen);
  }

  /** The runs of a `for` once its iterable has been evaluated. */
  ghost function ForRuns(m: Rules, nonEmpty: bool, target: Trace, body: Block, orelse: Block): Runs {
    iset p: (Trace, Outcome) | IsForRun(m, nonEmpty, target, body, orelse, p.0, p.1)
  }

  ghost predicate IsForRun(m: Rules, nonEmpty: bool, target: Trace, body: Block, orelse: Block, t: Trace, o: Outcome) {
    exists n: nat, t1, t2 :: t == t1 + t2 && RunTurns(m, target, body, t1, n) &&
      (RunLastTurn(m, target, body, t2, o) || ((nonEmpty ==> n > 0) && RunBlock(m, orelse, t2, o)))
  }

  /** How the turns of a `for` come to an end that leads to its `else`. */
  ghost function ExhaustRuns(m: Rules, nonEmpty: bool, target: Trace, body: Block): Runs {
    if nonEmpty then MoreRuns(m, target, body) else TurnRuns(m, target, body)
  }

  lemma ForIsSequel(m: Rules, iterable: Trace, nonEmpty: bool, target: Trace, body: Block, orelse: Block)
    ensures Sequel(EventRuns(iterable, Normal), ForRuns(m, nonEmpty, target, body, orelse), BodyRuns(m, For(iterable, nonEmpty, target, body, orelse)))
    ensures forall v | v <= iterable :: (v, Cut) in BodyRuns(m, For(iterable, nonEmpty, target, body, orelse))
  {
    hide RunBlock, RunTurns, RunLastTurn, FrameSize;
    var first, next := EventRuns(iterable, Normal), ForRuns(m, nonEmpty, target, body, orelse);
    var runs := BodyRuns(m, For(iterable, nonEmpty, target, body, orelse));
    forall u1, u2, o
      ensures SequelOne(first, next, runs, u1, u2, o)
    {
      if (u1, Normal) in first && (u2, o) in next {
        var n: nat, t1, t2 :| u2 == t1 + t2 && RunTurns(m, target, body, t1, n) &&
          (RunLastTurn(m, target, body, t2, o) || ((nonEmpty ==> n > 0) && RunBlock(m, orelse, t2, o)));
        assert u1 + u2 == iterable + t1 + t2;
      }
    }
  }

  lemma ForIsTurns(m: Rules, nonEmpty: bool, target: Trace, body: Block, orelse: Block)
    ensures var runs := ForRuns(m, nonEmpty, target, body, orelse);
      && Sequel(TurnRuns(m, target, body), LastRuns(m, target, body), runs)
      && Sequel(ExhaustRuns(m, nonEmpty, target, body), BlockRuns(m, orelse), runs)
      && ([], Normal) in TurnRuns(m, target, body)
      && (forall v | v <= target :: (v, Cut) in LastRuns(m, target, body))
  {
    hide RunBlock, RunLastTurn, FrameSize;
    var runs := ForRuns(m, nonEmpty, target, body, orelse);
    assert RunTurns(m, target, body, [], 0);
    forall u1, u2, o
      ensures SequelOne(TurnRuns(m, target, body), LastRuns(m, target, body), runs, u1, u2, o)
    {
      if (u1, Normal) in TurnRuns(m, target, body) && (u2, o) in LastRuns(m, target, body) {
        var n: nat :| RunTurns(m, target, body, u1, n);
        assert IsForRun(m, nonEmpty, target, body, orelse, u1 + u2, o);
      }
    }
    forall u1, u2, o
      ensures SequelOne(ExhaustRuns(m, nonEmpty, target, body), BlockRuns(m, orelse), runs, u1, u2, o)
    {
      if (u1, Normal) in ExhaustRuns(m, nonEmpty, target, body) && (u2, o) in BlockRuns(m, orelse) {
        var n: nat :| RunTurns(m, target, body, u1, n) && (nonEmpty ==> n > 0);
        assert IsForRun(m, nonEmpty, target, body, orelse, u1 + u2, o);
      }
    }
    forall v | v <= target
      ensures RunLastTurn(m, target, body, v, Cut)
    {
      LastTurnCut(m, target, body, v);
    }
  }

  /** The arrivals at the blocks a `for` opens, when `start` has evaluated the iterable. */
  ghost function ForArrivals(b: State, nonEmpty: bool, target: Trace, body: Block, arr: Arrivals, start: iset<Trace>, ends: iset<Trace>): Arrivals {
    var n, turns := |b.g|, After(start, TurnRuns(Read(b.raiseTo), target, body));
    arr + Arriving(n, if nonEmpty then start else turns) + Arriving(n + 1, turns)
    + (if nonEmpty then Arriving(n + 3, After(start, MoreRuns(Read(b.raiseTo), target, body))) else iset{})
    + Arriving(n + 2, ends)
  }

  lemma {:induction false} ExactOpenFor(b: State, iterable: Trace, nonEmpty: bool, target: Trace, body: Block, arr: Arrivals, seen: iset<Trace>, before: iset<Trace>, ends: iset<Trace>)
    requires StateOk(b) && Closed(arr, seen, b.g) && EndsIn(b, arr, before) && (b.g[b.cur].succs == [] || iterable == [])
    requires forall t, v | t in before && v <= iterable :: t + v in seen
    requires var start := After(before, EventRuns(iterable, Normal)); var turns := After(start, TurnRuns(Read(b.raiseTo), target, body));
      && start <= turns && After(start, MoreRuns(Read(b.raiseTo), target, body)) <= turns && ends <= seen
      && (forall t, v | t in turns && v <= target :: t + v in seen)
    ensures var start := After(before, EventRuns(iterable, Normal));
      var r, arr' := OpenFor(b, iterable, nonEmpty, target), ForArrivals(b, nonEmpty, target, body, arr, start, ends);
      Extended(b, arr, r, arr', seen) && EndsIn(r, arr', After(After(start, TurnRuns(Read(b.raiseTo), target, body)), EventRuns(target, Normal)))
  {
    hide After, LowerBlock, Closed, EndsIn, OldKept, Iterating, GraphOk, FramesOk, RaiseOk, FrameSize;
    var start := After(before, EventRuns(iterable, Normal));
    var turns, more := After(start, TurnRuns(Read(b.raiseTo), target, body)), After(start, MoreRuns(Read(b.raiseTo), target, body));
    var heads := if nonEmpty then start else turns;
    forall t | t in turns
      ensures t in seen
    {
      assert [] <= target && t + [] == t;
    }
    var arr2 := arr + Arriving(|b.g|, heads) + Arriving(|b.g| + 1, turns);
    var i, after := Iterating(b, iterable, target), After(turns, EventRuns(target, Normal));
    ExactIterating(b, iterable, target, arr, seen, before, heads, turns);
    ExactForBlocks(b, i, nonEmpty, arr2, seen, after, more, ends);
    var arr3 := ForArrivals(b, nonEmpty, target, body, arr, start, ends);
    assert arr3 == arr2 + (if nonEmpty then Arriving(|b.g| + 3, more) else iset{}) + Arriving(|b.g| + 2, ends);
    OldKeptTrans(arr, arr2, |i.g|, arr3, |b.g|);
    OpenForIs(b, iterable, nonEmpty, target);
    SameEnds(i.(g := Grow(i.g, if nonEmpty then 2 else 1)), OpenFor(b, iterable, nonEmpty, target), arr3, after);
  }

  /** At the block that binds the target of a `for`, with its header. */
  ghost function Iterating(b: State, iterable: Trace, target: Trace): State
    requires b.cur < |b.g|
  {
    var h := ElifHead(b.(g := Emit(b.g, b.cur, iterable)), [], b.cur);
    ElifHead(h, target, h.cur)
  }

  lemma ExactIterating(b: State, iterable: Trace, target: Trace, arr: Arrivals, seen: iset<Trace>, before: iset<Trace>, heads: iset<Trace>, turns: iset<Trace>)
    requires StateOk(b) && Closed(arr, seen, b.g) && EndsIn(b, arr, before) && (b.g[b.cur].succs == [] || iterable == [])
    requires forall t, v | t in before && v <= iterable :: t + v in seen
    requires After(before, EventRuns(iterable, Normal)) <= heads <= turns <= seen
    requires forall t, v | t in turns && v <= target :: t + v in seen
    ensures var i, arr' := Iterating(b, iterable, target), arr + Arriving(|b.g|, heads) + Arriving(|b.g| + 1, turns);
      && |i.g| == |b.g| + 2 && i.cur < |i.g| && Closed(arr', seen, i.g) && OldKept(arr, arr', |b.g|)
      && EndsIn(i, arr', After(turns, EventRuns(target, Normal)))
  {
    hide After, Closed, EndsIn, GraphOk, FramesOk, RaiseOk, FrameSize;
    var arr1 := arr + Arriving(|b.g|, heads);
    var h := ElifHead(b.(g := Emit(b.g, b.cur, iterable)), [], b.cur);
    ExactForHead(b, iterable, arr, seen, before, heads);
    ExactHead(h, target, arr1, seen, heads, turns);
    OldKeptTrans(arr, arr1, |h.g|, arr1 + Arriving(|b.g| + 1, turns), |b.g|);
  }

  lemma ExactForHead(b: State, iterable: Trace, arr: Arrivals, seen: iset<Trace>, before: iset<Trace>, heads: iset<Trace>)
    requires StateOk(b) && Closed(arr, seen, b.g) && EndsIn(b, arr, before) && (b.g[b.cur].succs == [] || iterable == [])
    requires (forall t, v | t in before && v <= iterable :: t + v in seen) && heads <= seen
    requires After(before, EventRuns(iterable, Normal)) <= heads
    ensures var h := ElifHead(b.(g := Emit(b.g, b.cur, iterable)), [], b.cur); var arr1 := arr + Arriving(|b.g|, heads);
      && StateOk(h) && Closed(arr1, seen, h.g) && OldKept(arr, arr1, |b.g|) && EndsIn(h, arr1, heads)
  {
    hide After, FrameSize;
    ExactEmit(b, iterable, Normal, arr, seen, before);
    GrownEmit(b, iterable);
    var b0 := b.(g := Emit(b.g, b.cur, iterable));
    forall t, v | t in heads && v <= []
      ensures t + v in seen
    {
      assert t + v == t;
    }
    ExactHead(b0, [], arr, seen, After(before, EventRuns(iterable, Normal)), heads);
    GrownElifHead(b0, [], b.cur);
    AfterNothing(heads);
  }

  lemma AfterNothing(before: iset<Trace>)
    ensures After(before, EventRuns([], Normal)) == before
  {
    forall t
      ensures t in After(before, EventRuns([], Normal)) <==> t in before
    {
      assert t == t + [];
      if t in before {
        AfterOne(before, EventRuns([], Normal), t, []);
      }
      if t in After(before, EventRuns([], Normal)) {
        var t1, t2 :| t1 in before && (t2, Normal) in EventRuns([], Normal) && t == t1 + t2;
        assert t1 + t2 == t1;
      }
    }
  }

  lemma OpenForIs(b: State, iterable: Trace, nonEmpty: bool, target: Trace)
    requires b.cur < |b.g|
    ensures var i := Iterating(b, iterable, target);
      OpenFor(b, iterable, nonEmpty, target) == i.(g := Grow(i.g, if nonEmpty then 2 else 1))
  {
    var g1 := Link(Grow(Emit(b.g, b.cur, iterable), 1), b.cur, |b.g|);
    assert g1[|b.g|].events + [] == g1[|b.g|].events;
    assert Emit(g1, |b.g|, []) == g1;
  }

  /** The block after a `for` and, for a non-empty literal, its repeat block. */
  lemma ExactForBlocks(b: State, i: State, nonEmpty: bool, arr: Arrivals, seen: iset<Trace>, before: iset<Trace>, more: iset<Trace>, ends: iset<Trace>)
    requires |i.g| == |b.g| + 2 && i.cur < |i.g| && Closed(arr, seen, i.g) && EndsIn(i, arr, before)
    requires more <= seen && ends <= seen
    ensures var r := i.(g := Grow(i.g, if nonEmpty then 2 else 1));
      var arr' := arr + (if nonEmpty then Arriving(|b.g| + 3, more) else iset{}) + Arriving(|b.g| + 2, ends);
      Closed(arr', seen, r.g) && OldKept(arr, arr', |i.g|) && EndsIn(r, arr', before)
  {
    var r := i.(g := Grow(i.g, if nonEmpty then 2 else 1));
    ClosedGrow(i.g, if nonEmpty then 2 else 1, arr, seen);
    var arr1 := arr + if nonEmpty then Arriving(|b.g| + 3, more) else iset{};
    if nonEmpty {
      ClosedArriving(r.g, |b.g| + 3, more, arr, seen);
      OldKeptArriving(arr, |b.g| + 3, more, |i.g|);
    } else {
      assert arr1 == arr;
      OldKeptSame(arr, |i.g|);
    }
    ClosedArriving(r.g, |b.g| + 2, ends, arr1, seen);
    OldKeptArriving(arr1, |b.g| + 2, ends, |i.g|);
    OldKeptTrans(arr, arr1, |i.g|, arr1 + Arriving(|b.g| + 2, ends), |i.g|);
    EndsKept(i, arr, r, arr1 + Arriving(|b.g| + 2, ends), before);
  }

  lemma {:induction false} ExactFor(b: State, iterable: Trace, nonEmpty: bool, target: Trace, body: Block, orelse: Block, arr: Arrivals, seen: iset<Trace>, before: iset<Trace>) returns (arr2: Arrivals)
    requires StateOk(b) && LegalBlock(body) && LegalBlock(orelse)
    requires (b.g[b.cur].succs == [] || iterable == [])
    requires Closed(arr, seen, b.g) && EndsIn(b, arr, before)
    requires Goes(arr, seen, b.frames, b.raiseTo, before, BodyRuns(Read(b.raiseTo), For(iterable, nonEmpty, target, body, orelse)))
    ensures Extended(b, arr, LowerFor(b, iterable, nonEmpty, target, body, orelse), arr2, seen)
    ensures EndsIn(LowerFor(b, iterable, nonEmpty, target, body, orelse), arr2, After(before, BodyRuns(Read(b.raiseTo), For(iterable, nonEmpty, target, body, orelse))))
    decreases 1 + BlockSize(body) + BlockSize(orelse) + FrameSize(b.frames), 4
  {
    hide LowerBlock, LowerStmt, LowerBody, LowerFor, LoopBody, OpenFor, RunBlock, RunBody, RunTurns, RunLastTurn, LegalBlock, Goes, LoopGoes, After, Sequel, FrameSize;
    var s, after := For(iterable, nonEmpty, target, body, orelse), |b.g| + 2;
    var runs, rest := BodyRuns(Read(b.raiseTo), s), ForRuns(Read(b.raiseTo), nonEmpty, target, body, orelse);
    var start, ends := After(before, EventRuns(iterable, Normal)), After(before, runs);
    ForIsSequel(Read(b.raiseTo), iterable, nonEmpty, target, body, orelse);
    ForIsTurns(Read(b.raiseTo), nonEmpty, target, body, orelse);
    SeenEvents(iterable, arr, seen, b.frames, b.raiseTo, before, runs);
    GoesThen(arr, seen, b.frames, b.raiseTo, before, runs, arr, EventRuns(iterable, Normal), rest);
    SeenTurns(Read(b.raiseTo), arr, seen, b.frames, b.raiseTo, start, rest, target, body);
    BodyCuts(Read(b.raiseTo), s);
    SeenAfter(arr, seen, b.frames, b.raiseTo, before, runs);
    AfterSelf(start, TurnRuns(Read(b.raiseTo), target, body));
    AfterSub(start, TurnRuns(Read(b.raiseTo), target, body), start, MoreRuns(Read(b.raiseTo), target, body));
    ExactOpenFor(b, iterable, nonEmpty, target, body, arr, seen, before, ends);
    var arr1 := ForArrivals(b, nonEmpty, target, body, arr, start, ends);
    AfterThen(before, runs, EventRuns(iterable, Normal), rest);
    GoesSub(arr, seen, b.frames, b.raiseTo, start, rest, arr1, start, rest);
    var b1 := OpenFor(b, iterable, nonEmpty, target);
    GrownOpenFor(b, iterable, nonEmpty, target);
    var arr3 := ExactForLoop(b, iterable, nonEmpty, target, body, orelse, arr, arr1, seen, start, ends);
    arr2 := ExactForElse(b, iterable, nonEmpty, target, body, orelse, arr, arr1, arr3, seen, start, ends);
    GrownFor(b, iterable, nonEmpty, target, body, orelse);
    OldKeptTrans(arr, arr1, |b1.g|, arr2, |b.g|);
    ForEnds(b, iterable, nonEmpty, target, body, orelse, arr, arr1, arr2, seen, start, ends);
  }

  /** What holds once a `for` has been opened. */
  ghost predicate ForOpened(b: State, iterable: Trace, nonEmpty: bool, target: Trace, body: Block, orelse: Block, arr: Arrivals, arr1: Arrivals, seen: iset<Trace>, start: iset<Trace>, ends: iset<Trace>)
    requires b.cur < |b.g|
  {
    var b1 := OpenFor(b, iterable, nonEmpty, target);
    var runs := ForRuns(Read(b.raiseTo), nonEmpty, target, body, orelse);
    && arr1 == ForArrivals(b, nonEmpty, target, body, arr, start, ends)
    && Closed(arr, seen, b.g) && Closed(arr1, seen, b1.g)
    && EndsIn(b1, arr1, After(After(start, TurnRuns(Read(b.raiseTo), target, body)), EventRuns(target, Normal)))
    && Goes(arr1, seen, b.frames, b.raiseTo, start, runs) && After(start, runs) <= ends
    && After(start, MoreRuns(Read(b.raiseTo), target, body)) <= After(start, TurnRuns(Read(b.raiseTo), target, body))
  }

  lemma {:induction false} ExactForLoop(b: State, iterable: Trace, nonEmpty: bool, target: Trace, body: Block, orelse: Block, arr: Arrivals, arr1: Arrivals, seen: iset<Trace>, start: iset<Trace>, ends: iset<Trace>) returns (arr3: Arrivals)
    requires StateOk(b) && LegalBlock(body) && (b.g[b.cur].succs == [] || iterable == [])
    requires ForOpened(b, iterable, nonEmpty, target, body, orelse, arr, arr1, seen, start, ends)
    ensures Extended(OpenFor(b, iterable, nonEmpty, target), arr1, ForLoop(b, iterable, nonEmpty, target, body), arr3, seen)
    decreases BlockSize(body) + FrameSize(b.frames), 3
  {
    hide LowerBlock, LowerStmt, LowerBody, LoopBody, OpenFor, RunBlock, RunTurns, RunLastTurn, LegalBlock, Goes, LoopGoes, After, Sequel, FrameSize;
    var iterate, after := |b.g| + 1, |b.g| + 2;
    var repeat := if nonEmpty then |b.g| + 3 else |b.g|;
    var b1 := OpenFor(b, iterable, nonEmpty, target);
    GrownOpenFor(b, iterable, nonEmpty, target);
    ForIsTurns(Read(b.raiseTo), nonEmpty, target, body, orelse);
    LoopGoesOn(Read(b.raiseTo), arr1, seen, b.frames, b.raiseTo, start, target, body, ForRuns(Read(b.raiseTo), nonEmpty, target, body, orelse), repeat, after);
    var turns := After(start, TurnRuns(Read(b.raiseTo), target, body));
    arr3 := ExactLoopBody(b1, body, repeat, after, arr1, seen, After(turns, EventRuns(target, Normal)));
    if nonEmpty {
      GrownLoopBody(b1, body, repeat, after);
      var b2 := LoopBody(b1, body, repeat, after);
      assert Kept(b1.g, iterate, iterate + 1, b2.g, repeat);
      ForRepeat(b, iterable, nonEmpty, target, body, orelse, arr, arr1, arr3, seen, start, ends);
      forall t | At(b2.(cur := repeat), arr3, t)
        ensures (iterate, t) in arr3
      {
        var u :| (repeat, u) in arr3 && t == u + b2.g[repeat].events;
        assert t == u;
      }
      ClosedLink(b2.(cur := repeat), iterate, arr3, seen);
    }
  }

  /** What is at the block a `for` repeats from. */
  lemma ForRepeat(b: State, iterable: Trace, nonEmpty: bool, target: Trace, body: Block, orelse: Block, arr: Arrivals, arr1: Arrivals, arr3: Arrivals, seen: iset<Trace>, start: iset<Trace>, ends: iset<Trace>)
    requires b.cur < |b.g| && ForOpened(b, iterable, nonEmpty, target, body, orelse, arr, arr1, seen, start, ends)
    requires OldKept(arr1, arr3, |OpenFor(b, iterable, nonEmpty, target).g|)
    ensures var repeat := if nonEmpty then |b.g| + 3 else |b.g|;
      forall t | (repeat, t) in arr3 :: t in After(start, ExhaustRuns(Read(b.raiseTo), nonEmpty, target, body)) && (|b.g| + 1, t) in arr3
  {
    hide After, Goes, FrameSize;
    var repeat := if nonEmpty then |b.g| + 3 else |b.g|;
    forall t | (repeat, t) in arr3
      ensures t in After(start, ExhaustRuns(Read(b.raiseTo), nonEmpty, target, body)) && (|b.g| + 1, t) in arr3
    {
      assert NotNew(arr1, arr3, repeat, t);
      if (repeat, t) in arr {
        ArrivesInRange(arr, seen, b.g, repeat, t);
      }
    }
  }

  lemma {:induction false} ExactForElse(b: State, iterable: Trace, nonEmpty: bool, target: Trace, body: Block, orelse: Block, arr: Arrivals, arr1: Arrivals, arr3: Arrivals, seen: iset<Trace>, start: iset<Trace>, ends: iset<Trace>) returns (arr2: Arrivals)
    requires StateOk(b) && LegalBlock(body) && LegalBlock(orelse) && (b.g[b.cur].succs == [] || iterable == [])
    requires ForOpened(b, iterable, nonEmpty, target, body, orelse, arr, arr1, seen, start, ends)
    requires Extended(OpenFor(b, iterable, nonEmpty, target), arr1, ForLoop(b, iterable, nonEmpty, target, body), arr3, seen)
    ensures Closed(arr2, seen, LowerFor(b, iterable, nonEmpty, target, body, orelse).g)
    ensures OldKept(arr1, arr2, |OpenFor(b, iterable, nonEmpty, target).g|)
    decreases BlockSize(orelse) + FrameSize(b.frames), 3
  {
    hide LowerBlock, LowerStmt, LowerBody, LoopBody, OpenFor, ElseBody, RunBlock, RunTurns, RunLastTurn, LegalBlock, Goes, After, Sequel, FrameSize;
    var after := |b.g| + 2;
    var repeat := if nonEmpty then |b.g| + 3 else |b.g|;
    var b1, b2 := OpenFor(b, iterable, nonEmpty, target), ForLoop(b, iterable, nonEmpty, target, body);
    GrownForLoop(b, iterable, nonEmpty, target, body);
    ForRepeatEmpty(b, iterable, nonEmpty, target, body);
    var first, runs := ExhaustRuns(Read(b.raiseTo), nonEmpty, target, body), ForRuns(Read(b.raiseTo), nonEmpty, target, body, orelse);
    ForRepeat(b, iterable, nonEmpty, target, body, orelse, arr, arr1, arr3, seen, start, ends);
    forall t | At(b2.(cur := repeat), arr3, t)
      ensures t in After(start, first)
    {
      var u :| (repeat, u) in arr3 && t == u + [];
      assert t == u;
    }
    ForIsTurns(Read(b.raiseTo), nonEmpty, target, body, orelse);
    GoesThen(arr1, seen, b.frames, b.raiseTo, start, runs, arr3, first, BlockRuns(Read(b.raiseTo), orelse));
    AfterThen(start, runs, first, BlockRuns(Read(b.raiseTo), orelse));
    arr2 := ExactElseBody(b2, repeat, orelse, after, arr3, seen, After(start, first));
    OldKeptTrans(arr1, arr3, |b2.g|, arr2, |b1.g|);
  }

  lemma {:induction false} ForRepeatEmpty(b: State, iterable: Trace, nonEmpty: bool, target: Trace, body: Block)
    requires StateOk(b) && LegalBlock(body) && (b.g[b.cur].succs == [] || iterable == [])
    ensures var repeat := if nonEmpty then |b.g| + 3 else |b.g|; var r := ForLoop(b, iterable, nonEmpty, target, body);
      repeat < |r.g| && r.g[repeat].events == [] && |OpenFor(b, iterable, nonEmpty, target).g| <= |r.g|
  {
    hide LowerBlock, LowerStmt, LowerBody, LoopBody, OpenFor, LegalBlock, FrameSize;
    var iterate, after := |b.g| + 1, |b.g| + 2;
    var repeat := if nonEmpty then |b.g| + 3 else |b.g|;
    var b1 := OpenFor(b, iterable, nonEmpty, target);
    GrownOpenFor(b, iterable, nonEmpty, target);
    GrownLoopBody(b1, body, repeat, after);
    var b2 := LoopBody(b1, body, repeat, after);
    assert Kept(b1.g, iterate, iterate + 1, b2.g, repeat);
  }

  lemma ForEnds(b: State, iterable: Trace, nonEmpty: bool, target: Trace, body: Block, orelse: Block, arr: Arrivals, arr1: Arrivals, arr2: Arrivals, seen: iset<Trace>, start: iset<Trace>, ends: iset<Trace>)
    requires b.cur < |b.g| && Closed(arr, seen, b.g) && arr1 == ForArrivals(b, nonEmpty, target, body, arr, start, ends)
    requires OldKept(arr1, arr2, |OpenFor(b, iterable, nonEmpty, target).g|)
    requires var r := LowerFor(b, iterable, nonEmpty, target, body, orelse); r.cur == |b.g| + 2 && r.g[r.cur] == EMPTY
    ensures EndsIn(LowerFor(b, iterable, nonEmpty, target, body, orelse), arr2, ends)
  {
    hide LowerFor, After, FrameSize;
    var n, turns := |b.g|, After(start, TurnRuns(Read(b.raiseTo), target, body));
    var arr0 := arr + Arriving(n, if nonEmpty then start else turns) + Arriving(n + 1, turns)
      + if nonEmpty then Arriving(n + 3, After(start, MoreRuns(Read(b.raiseTo), target, body))) else iset{};
    NoneAtNew(arr, seen, b.g, n + 2);
    assert arr1 == arr0 + Arriving(n + 2, ends);
    EndsAfter(arr0, ends, |OpenFor(b, iterable, nonEmpty, target).g|, arr2, LowerFor(b, iterable, nonEmpty, target, body, orelse));
  }

  // ---- try ------------------------------------------------------------

  ghost function GuardRuns(m: Rules, s: Stmt): Runs
    requires s.Try?
  {
    iset p: (Trace, Outcome) | RunGuarded(m, s, p.0, p.1)
  }

  /** What a body has spelled when an exception leaves it. */
  ghost function ThrowRuns(m: Rules, s: Stmt): Runs
    requires s.Try?
  {
    iset p: (Trace, Outcome) | p.1 == Normal && Throws(Inner(m), s.body, Spill(m, s), p.0)
  }

  /** What the guarded part has spelled when an exception leaves it. */
  ghost function RaisedRuns(m: Rules, s: Stmt): Runs
    requires s.Try?
  {
    iset p: (Trace, Outcome) | p.1 == Normal && (RunGuarded(m, s, p.0, Raised(true)) || RunGuarded(m, s, p.0, Raised(false)))
  }

  ghost function TailRuns(m: Rules, k: Block): Runs {
    iset p: (Trace, Outcome) | RunTail(m, k, p.0, p.1)
  }

  ghost function HandlerRuns(m: Rules, h: Handlers): Runs {
    iset p: (Trace, Outcome) | RunHandlers(m, h, p.0, p.1)
  }

  ghost function OneHandlerRuns(m: Rules, header: Trace, body: Block, unbind: Trace): Runs {
    iset p: (Trace, Outcome) | RunHandler(m, header, body, unbind, p.0, p.1)
  }

  ghost function HandledRuns(m: Rules, body: Block, unbind: Trace): Runs {
    iset p: (Trace, Outcome) | RunHandled(m, body, unbind, p.0, p.1)
  }

  /** At the end an exception may start. */
  lemma ExactTailRaise(b: State, arr: Arrivals, seen: iset<Trace>, before: iset<Trace>)
    requires StateOk(b) && Closed(arr, seen, b.g) && EndsIn(b, arr, before)
    requires forall t | t in before :: LeadsRaise(arr, seen, b.raiseTo, t, false)
    ensures Closed(arr, seen, TailRaise(b).g) && EndsIn(TailRaise(b), arr, before)
  {
    if InTry(b) {
      forall t, i | At(b, arr, t) && 0 <= i < |b.raiseTo|
        ensures (b.raiseTo[i], t) in arr
      {
        assert LeadsRaise(arr, seen, b.raiseTo, t, false);
      }
      ClosedLinkAll(b, b.raiseTo, arr, seen);
      SameEnds(b, TailRaise(b), arr, before);
    }
  }

  lemma {:induction false} ExactElse(b: State, past: seq<nat>, orelse: Block, arr: Arrivals, seen: iset<Trace>, before: iset<Trace>) returns (arr2: Arrivals)
    requires StateOk(b) && LegalBlock(orelse) && RaiseOk(b.g, past) && b.g[b.cur].succs == []
    requires Closed(arr, seen, b.g) && EndsIn(b, arr, before)
    requires SpillArrives(b.raiseTo, if past == [EXIT] then Lead(orelse) else [], arr, before)
    requires Goes(arr, seen, b.frames, past, before, TailRuns(Read(past), orelse))
    ensures Extended(b, arr, LowerElse(b, past, orelse), arr2, seen)
    ensures EndsIn(LowerElse(b, past, orelse), arr2, After(before, TailRuns(Read(past), orelse)))
    decreases BlockSize(orelse) + FrameSize(b.frames), 2
  {
    hide LowerBlock, RunBlock, LegalBlock, Lead, Goes, FrameSize;
    var runs := TailRuns(Read(past), orelse);
    GoesSub(arr, seen, b.frames, past, before, runs, arr, before, BlockRuns(Read(past), orelse));
    if past == [EXIT] {
      arr2 := ExactBareElse(b, orelse, arr, seen, before);
    } else {
      arr2 := ExactGuardedElse(b, past, orelse, arr, seen, before);
    }
    AfterSub(before, runs, before, BlockRuns(Read(past), orelse));
    EndsInMore(LowerElse(b, past, orelse), arr2, After(before, BlockRuns(Read(past), orelse)), After(before, runs));
  }

  /** What ends in a block arrives along its raise edges once it has spilled. */
  ghost predicate SpillArrives(rs: seq<nat>, spill: Trace, arr: Arrivals, before: iset<Trace>) {
    forall t, i {:trigger (rs[i], t + spill) in arr} | t in before && 0 <= i < |rs| :: (rs[i], t + spill) in arr
  }

  lemma {:induction false} ExactGuardedElse(b: State, past: seq<nat>, orelse: Block, arr: Arrivals, seen: iset<Trace>, before: iset<Trace>) returns (arr2: Arrivals)
    requires StateOk(b) && LegalBlock(orelse) && RaiseOk(b.g, past) && b.g[b.cur].succs == [] && past != [EXIT]
    requires Closed(arr, seen, b.g) && EndsIn(b, arr, before) && SpillArrives(b.raiseTo, [], arr, before)
    requires Goes(arr, seen, b.frames, past, before, TailRuns(Read(past), orelse))
    ensures Extended(b, arr, LowerElse(b, past, orelse), arr2, seen)
    ensures EndsIn(LowerElse(b, past, orelse), arr2, After(before, BlockRuns(Read(past), orelse)))
    decreases BlockSize(orelse) + FrameSize(b.frames), 1
  {
    hide LowerBlock, RunBlock, LegalBlock, Lead, Goes, FrameSize;
    var e, runs := OpenElse(b, past), TailRuns(Read(past), orelse);
    GrownOpenElse(b, past);
    forall t, i | At(b, arr, t) && 0 <= i < |b.raiseTo|
      ensures (b.raiseTo[i], t) in arr
    {
      assert (b.raiseTo[i], t + []) in arr && t + [] == t;
    }
    ClosedLinkAll(b, b.raiseTo, arr, seen);
    SameEnds(b, e, arr, before);
    GoesSub(arr, seen, b.frames, past, before, runs, arr, before, BlockRuns(Read(past), orelse));
    GrownBlock(e, orelse);
    arr2 := ExactBlock(e, orelse, arr, seen, before);
    var ends := After(before, BlockRuns(Read(past), orelse));
    forall t | t in ends
      ensures LeadsRaise(arr2, seen, past, t, false)
    {
      var t1, t2 :| t1 in before && (t2, Normal) in BlockRuns(Read(past), orelse) && t == t1 + t2;
      GoesAt(arr, seen, b.frames, past, before, runs, arr2, t1, t2, Raised(false));
    }
    ExactTailRaise(LowerBlock(e, orelse), arr2, seen, ends);
  }

  /** Outside every `try` region: the raise edges are added when the block they leave has
      all its events. */
  lemma {:induction false} ExactBareElse(b: State, orelse: Block, arr: Arrivals, seen: iset<Trace>, before: iset<Trace>) returns (arr2: Arrivals)
    requires StateOk(b) && LegalBlock(orelse) && b.g[b.cur].succs == []
    requires Closed(arr, seen, b.g) && EndsIn(b, arr, before) && SpillArrives(b.raiseTo, Lead(orelse), arr, before)
    requires Goes(arr, seen, b.frames, [EXIT], before, BlockRuns(LOWERED, orelse))
    ensures Extended(b, arr, LowerElse(b, [EXIT], orelse), arr2, seen)
    ensures EndsIn(LowerElse(b, [EXIT], orelse), arr2, After(before, BlockRuns(LOWERED, orelse)))
    decreases BlockSize(orelse) + FrameSize(b.frames), 1
  {
    hide LowerBlock, LowerElse, RunBlock, LegalBlock, Lead, Goes, After, FrameSize;
    var b0 := b.(raiseTo := [EXIT]);
    SameEnds(b, b0, arr, before);
    arr2 := ExactBlock(b0, orelse, arr, seen, before);
    var q, r := LowerBlock(b0, orelse), LowerElse(b, [EXIT], orelse);
    GrownBareElse(b, orelse);
    assert AlikeAt(q.g, r.g, b.cur, b.raiseTo, b.cur) && AlikeAt(q.g, r.g, b.cur, b.raiseTo, q.cur);
    SpillCarried(b, q, Lead(orelse), arr, arr2, before);
    ClosedAlike(q, r, b.cur, b.raiseTo, arr2, seen);
    SameEnds(q, r, arr2, After(before, BlockRuns(LOWERED, orelse)));
  }

  lemma SpillCarried(b: State, q: State, spill: Trace, arr: Arrivals, arr2: Arrivals, before: iset<Trace>)
    requires b.cur < |b.g| <= |q.g| && q.g[b.cur].events == b.g[b.cur].events + spill
    requires EndsIn(b, arr, before) && SpillArrives(b.raiseTo, spill, arr, before) && OldKept(arr, arr2, |b.g|)
    ensures forall i, u | 0 <= i < |b.raiseTo| && (b.cur, u) in arr2 :: (b.raiseTo[i], u + q.g[b.cur].events) in arr2
  {
    forall i, u | 0 <= i < |b.raiseTo| && (b.cur, u) in arr2
      ensures (b.raiseTo[i], u + q.g[b.cur].events) in arr2
    {
      assert NotNew(arr, arr2, b.cur, u);
      var t := u + b.g[b.cur].events;
      assert At(b, arr, t);
      assert (b.raiseTo[i], t + spill) in arr;
      Assoc(u, b.g[b.cur].events, spill);
    }
  }

  lemma ClosedAlike(q: State, r: State, a: nat, rs: seq<nat>, arr: Arrivals, seen: iset<Trace>)
    requires a < |q.g| && AlikeStates(q, r, a, rs) && Closed(arr, seen, q.g)
    requires forall i, u | 0 <= i < |rs| && (a, u) in arr :: (rs[i], u + q.g[a].events) in arr
    ensures Closed(arr, seen, r.g)
  {
    forall c: nat, u, d | c < |r.g| && d in r.g[c].succs
      ensures Carried(arr, r.g, c, u, d)
    {
      assert AlikeAt(q.g, r.g, a, rs, c);
      if d in q.g[c].succs {
        assert Carried(arr, q.g, c, u, d);
      }
    }
    forall c: nat, u, e
      ensures Shown(arr, seen, r.g, c, u, e)
    {
      assert Shown(arr, seen, q.g, c, u, e);
      assert c < |q.g| ==> AlikeAt(q.g, r.g, a, rs, c);
    }
  }

  lemma HandlerIsSequel(m: Rules, header: Trace, body: Block, unbind: Trace)
    ensures Sequel(EventRuns(header, Normal), HandledRuns(m, body, unbind), OneHandlerRuns(m, header, body, unbind))
    ensures forall v | v <= header :: (v, Cut) in OneHandlerRuns(m, header, body, unbind)
  {
    hide RunHandled, FrameSize;
    var first, next, runs := EventRuns(header, Normal), HandledRuns(m, body, unbind), OneHandlerRuns(m, header, body, unbind);
    forall u1, u2, o
      ensures SequelOne(first, next, runs, u1, u2, o)
    {
    }
  }

  /** The unbinding of the alias, and an exception after it. */
  ghost function UnbindRuns(unbind: Trace): Runs {
    iset p: (Trace, Outcome) | RunEvents(unbind, p.0, p.1, Normal) || (p.0 == unbind && p.1 == Raised(false))
  }

  lemma HandledIsSequel(m: Rules, body: Block, unbind: Trace)
    ensures Sequel(BlockRuns(m, body), UnbindRuns(unbind), HandledRuns(m, body, unbind))
  {
    hide RunBlock, FrameSize;
    forall u1, u2, o
      ensures SequelOne(BlockRuns(m, body), UnbindRuns(unbind), HandledRuns(m, body, unbind), u1, u2, o)
    {
    }
  }

  lemma {:induction false} ExactHandler(b: State, header: Trace, body: Block, unbind: Trace, entry: nat, arr: Arrivals, seen: iset<Trace>, before: iset<Trace>) returns (arr2: Arrivals)
    requires StateOk(b) && LegalBlock(body)
    requires Target(b.g, entry) && entry != EXIT && b.g[entry] == EMPTY
    requires Closed(arr, seen, b.g) && forall u | (entry, u) in arr :: u in before
    requires Goes(arr, seen, b.frames, b.raiseTo, before, OneHandlerRuns(Read(b.raiseTo), header, body, unbind))
    ensures Extended(b, arr, LowerHandler(b, header, body, unbind, entry), arr2, seen)
    ensures EndsIn(LowerHandler(b, header, body, unbind, entry), arr2, After(before, OneHandlerRuns(Read(b.raiseTo), header, body, unbind)))
    decreases BlockSize(body) + FrameSize(b.frames), 3
  {
    hide LowerBlock, LowerHandler, RunBlock, RunHandler, RunHandled, LegalBlock, Goes, After, Sequel, FrameSize;
    var runs, starts := OneHandlerRuns(Read(b.raiseTo), header, body, unbind), After(before, EventRuns(header, Normal));
    HandlerIsSequel(Read(b.raiseTo), header, body, unbind);
    var b0 := b.(cur := entry);
    forall t | At(b0, arr, t)
      ensures t in before
    {
      var u :| (entry, u) in arr && t == u + b0.g[entry].events;
      assert t == u;
    }
    SeenEvents(header, arr, seen, b.frames, b.raiseTo, before, runs);
    ExactEmit(b0, header, Normal, arr, seen, before);
    GrownOpenHandler(b, header, entry);
    GoesThen(arr, seen, b.frames, b.raiseTo, before, runs, arr, EventRuns(header, Normal), HandledRuns(Read(b.raiseTo), body, unbind));
    arr2 := ExactHandled(b, header, body, unbind, entry, arr, seen, starts);
    AfterThen(before, runs, EventRuns(header, Normal), HandledRuns(Read(b.raiseTo), body, unbind));
  }

  lemma {:induction false} ExactHandled(b: State, header: Trace, body: Block, unbind: Trace, entry: nat, arr: Arrivals, seen: iset<Trace>, before: iset<Trace>) returns (arr2: Arrivals)
    requires LegalBlock(body) && entry < |b.g|
    requires var b1 := OpenHandler(b, header, entry);
      StateOk(b1) && b1.g[entry].succs == [] && Closed(arr, seen, b1.g) && EndsIn(b1, arr, before)
    requires Goes(arr, seen, b.frames, b.raiseTo, before, HandledRuns(Read(b.raiseTo), body, unbind))
    ensures Extended(b, arr, LowerHandler(b, header, body, unbind, entry), arr2, seen)
    ensures EndsIn(LowerHandler(b, header, body, unbind, entry), arr2, After(before, HandledRuns(Read(b.raiseTo), body, unbind)))
    decreases BlockSize(body) + FrameSize(b.frames), 2
  {
    hide LowerBlock, RunBlock, LegalBlock, Goes, After, Sequel, FrameSize;
    var b1 := OpenHandler(b, header, entry);
    var runs := HandledRuns(Read(b.raiseTo), body, unbind);
    GoesSub(arr, seen, b.frames, b.raiseTo, before, runs, arr, before, BlockRuns(Read(b.raiseTo), body));
    GrownBlock(b1, body);
    arr2 := ExactBlock(b1, body, arr, seen, before);
    var b2 := LowerBlock(b1, body);
    var ends := After(before, BlockRuns(Read(b.raiseTo), body));
    HandledIsSequel(Read(b.raiseTo), body, unbind);
    GoesThen(arr, seen, b.frames, b.raiseTo, before, runs, arr2, BlockRuns(Read(b.raiseTo), body), UnbindRuns(unbind));
    AfterThen(before, runs, BlockRuns(Read(b.raiseTo), body), UnbindRuns(unbind));
    ExactUnbind(b2, unbind, arr2, seen, ends);
  }

  lemma ExactUnbind(b: State, unbind: Trace, arr: Arrivals, seen: iset<Trace>, before: iset<Trace>)
    requires StateOk(b) && b.g[b.cur].succs == [] && Closed(arr, seen, b.g) && EndsIn(b, arr, before)
    requires Goes(arr, seen, b.frames, b.raiseTo, before, UnbindRuns(unbind))
    ensures var r := TailRaise(b.(g := Emit(b.g, b.cur, unbind)));
      Closed(arr, seen, r.g) && EndsIn(r, arr, After(before, UnbindRuns(unbind)))
  {
    hide Goes, FrameSize;
    var runs := UnbindRuns(unbind);
    SeenEvents(unbind, arr, seen, b.frames, b.raiseTo, before, runs);
    ExactEmit(b, unbind, Normal, arr, seen, before);
    GrownEmit(b, unbind);
    var ends := After(before, EventRuns(unbind, Normal));
    forall t | t in ends
      ensures LeadsRaise(arr, seen, b.raiseTo, t, false)
    {
      var t1, t2 :| t1 in before && (t2, Normal) in EventRuns(unbind, Normal) && t == t1 + t2;
      GoesAt(arr, seen, b.frames, b.raiseTo, before, runs, arr, t1, unbind, Raised(false));
    }
    ExactTailRaise(b.(g := Emit(b.g, b.cur, unbind)), arr, seen, ends);
    AfterSub(before, runs, before, EventRuns(unbind, Normal));
  }

  /** Every block of `r.1` ends in `before`. */
  ghost predicate AllEndIn(r: (State, seq<nat>), arr: Arrivals, before: iset<Trace>)
    requires forall i :: 0 <= i < |r.1| ==> r.1[i] < |r.0.g|
  {
    forall i | 0 <= i < |r.1| :: EndsIn(r.0.(cur := r.1[i]), arr, before)
  }

  lemma AllEndInCons(r: State, c: nat, ends: seq<nat>, arr: Arrivals, before: iset<Trace>)
    requires c < |r.g| && forall i :: 0 <= i < |ends| ==> ends[i] < |r.g|
    requires EndsIn(r.(cur := c), arr, before) && AllEndIn((r, ends), arr, before)
    ensures AllEndIn((r, [c] + ends), arr, before)
  {
    forall i | 0 <= i < |[c] + ends|
      ensures EndsIn(r.(cur := ([c] + ends)[i]), arr, before)
    {
      if i > 0 {
        assert ([c] + ends)[i] == ends[i - 1];
      }
    }
  }

  lemma EndsInMore(b: State, arr: Arrivals, before: iset<Trace>, before': iset<Trace>)
    requires b.cur < |b.g| && EndsIn(b, arr, before) && before <= before'
    ensures EndsIn(b, arr, before')
  {
  }

  lemma {:induction false} ExactHandlers(b: State, h: Handlers, entry: nat, arr: Arrivals, seen: iset<Trace>, before: iset<Trace>) returns (arr2: Arrivals)
    requires StateOk(b) && LegalHandlers(h)
    requires 2 <= entry && entry + HandlerCount(h) <= |b.g|
    requires forall i | entry <= i < entry + HandlerCount(h) :: b.g[i] == EMPTY
    requires Closed(arr, seen, b.g)
    requires forall i: nat, u | entry <= i < entry + HandlerCount(h) && (i, u) in arr :: u in before
    requires Goes(arr, seen, b.frames, b.raiseTo, before, HandlerRuns(Read(b.raiseTo), h))
    ensures var r := LowerHandlers(b, h, entry);
      Extended(b, arr, r.0, arr2, seen) && AllEndIn(r, arr2, After(before, HandlerRuns(Read(b.raiseTo), h)))
    decreases HandlersSize(h) + FrameSize(b.frames), 0
  {
    hide LowerHandler, RunHandler, RunHandlers, LegalBlock, Goes, After, FrameSize;
    match h
    case NoHandler =>
      arr2 := arr;
      OldKeptSame(arr, |b.g|);
    case Handler(header, body, unbind, rest) =>
      OneOfHandlers(Read(b.raiseTo), h);
      var b1 := LowerHandler(b, header, body, unbind, entry);
      GrownHandler(b, header, body, unbind, entry);
      GoesSub(arr, seen, b.frames, b.raiseTo, before, HandlerRuns(Read(b.raiseTo), h), arr, before, OneHandlerRuns(Read(b.raiseTo), header, body, unbind));
      var arr1 := ExactHandler(b, header, body, unbind, entry, arr, seen, before);
      GoesSub(arr, seen, b.frames, b.raiseTo, before, HandlerRuns(Read(b.raiseTo), h), arr1, before, HandlerRuns(Read(b.raiseTo), rest));
      forall i | entry + 1 <= i < entry + HandlerCount(h)
        ensures b1.g[i] == EMPTY
      {
        assert Kept(b.g, entry, entry + 1, b1.g, i);
      }
      forall i: nat, u | entry + 1 <= i < entry + HandlerCount(h) && (i, u) in arr1
        ensures u in before
      {
        assert NotNew(arr, arr1, i, u);
      }
      arr2 := ExactHandlers(b1, rest, entry + 1, arr1, seen, before);
      AfterSub(before, HandlerRuns(Read(b.raiseTo), h), before, OneHandlerRuns(Read(b.raiseTo), header, body, unbind));
      AfterSub(before, HandlerRuns(Read(b.raiseTo), h), before, HandlerRuns(Read(b.raiseTo), rest));
      GrownHandlers(b1, rest, entry + 1);
      HandlersEnd(b1, rest, entry + 1, arr1, arr2, After(before, OneHandlerRuns(Read(b.raiseTo), header, body, unbind)),
                  After(before, HandlerRuns(Read(b.raiseTo), rest)), After(before, HandlerRuns(Read(b.raiseTo), h)));
      OldKeptTrans(arr, arr1, |b1.g|, arr2, |b.g|);
  }

  lemma OneOfHandlers(m: Rules, h: Handlers)
    requires h.Handler?
    ensures OneHandlerRuns(m, h.header, h.body, h.unbind) <= HandlerRuns(m, h) && HandlerRuns(m, h.rest) <= HandlerRuns(m, h)
  {
    hide RunHandler, FrameSize;
  }

  /** The first handler ends where it did before the others were lowered. */
  lemma HandlersEnd(b1: State, rest: Handlers, entry: nat, arr1: Arrivals, arr2: Arrivals, first: iset<Trace>, next: iset<Trace>, all: iset<Trace>)
    requires StateOk(b1) && entry + HandlerCount(rest) <= |b1.g| && EndsIn(b1, arr1, first) && OldKept(arr1, arr2, |b1.g|)
    requires var r := LowerHandlers(b1, rest, entry); Extends(b1.g, entry, entry + HandlerCount(rest), r.0.g) && AllEndIn(r, arr2, next)
    requires b1.cur < entry || entry + HandlerCount(rest) <= b1.cur
    requires first <= all && next <= all
    ensures var (b2, ends) := LowerHandlers(b1, rest, entry); AllEndIn((b2, [b1.cur] + ends), arr2, all)
  {
    hide LowerHandlers, FrameSize;
    var (b2, ends) := LowerHandlers(b1, rest, entry);
    assert Kept(b1.g, entry, entry + HandlerCount(rest), b2.g, b1.cur);
    EndsKept(b1, arr1, b2.(cur := b1.cur), arr2, first);
    EndsInMore(b2.(cur := b1.cur), arr2, first, all);
    forall i | 0 <= i < |ends|
      ensures EndsIn(b2.(cur := ends[i]), arr2, all)
    {
      EndsInMore(b2.(cur := ends[i]), arr2, next, all);
    }
    AllEndInCons(b2, b1.cur, ends, arr2, all);
  }

  /** New arrivals at each of the blocks from `lo` to `hi`, which are still empty. */
  ghost function ArrivingIn(lo: nat, hi: nat, before: iset<Trace>): Arrivals {
    iset p: (nat, Trace) | lo <= p.0 < hi && p.1 in before
  }

  lemma ClosedArrivingIn(g: Graph, lo: nat, hi: nat, before: iset<Trace>, arr: Arrivals, seen: iset<Trace>, n: nat)
    requires Closed(arr, seen, g) && n <= lo && hi <= |g| && before <= seen
    requires forall i | lo <= i < hi :: g[i] == EMPTY
    ensures Closed(arr + ArrivingIn(lo, hi, before), seen, g) && OldKept(arr, arr + ArrivingIn(lo, hi, before), n)
  {
    var arr' := arr + ArrivingIn(lo, hi, before);
    forall a: nat, u, d | a < |g| && d in g[a].succs
      ensures Carried(arr', g, a, u, d)
    {
      assert Carried(arr, g, a, u, d);
    }
    forall a: nat, u, e
      ensures Shown(arr', seen, g, a, u, e)
    {
      assert Shown(arr, seen, g, a, u, e);
      if (a, u) in arr' && (a, u) !in arr && e <= g[a].events {
        assert u + e == u;
      }
    }
    forall i: nat, t | i < n
      ensures NotNew(arr, arr', i, t)
    {
    }
  }

  /** The arrivals at the blocks `OpenTry` makes, but for its entry. */
  ghost function TryArrivals(b: State, s: Stmt, arr: Arrivals, before: iset<Trace>): Arrivals
    requires s.Try?
  {
    var first := FirstHandler(b, s);
    arr + ArrivingIn(|b.g|, first, After(before, RaisedRuns(Read(b.raiseTo), s)))
    + ArrivingIn(first, first + HandlerCount(s.handlers), After(before, ThrowRuns(Read(b.raiseTo), s)))
  }

  /** What holds at the start of the body of a `try` that has been opened. */
  ghost predicate TryOpened(b: State, s: Stmt, arr: Arrivals, arr1: Arrivals, seen: iset<Trace>, before: iset<Trace>)
    requires b.cur < |b.g| && s.Try?
  {
    var b0, past := OpenTry(b, s), PastTry(b, s);
    var first, count := FirstHandler(b, s), HandlerCount(s.handlers);
    && Closed(arr1, seen, b0.g) && OldKept(arr, arr1, |b.g|) && EndsIn(b0, arr1, before)
    && (forall i: nat, u | first <= i < first + count :: (i, u) in arr1 <==> u in After(before, ThrowRuns(Read(b.raiseTo), s)))
    && (s.final.Cons? ==> forall u :: (|b.g|, u) in arr1 <==> u in After(before, RaisedRuns(Read(b.raiseTo), s)))
  }

  lemma ClosedTryArrivals(b: State, s: Stmt, arr: Arrivals, seen: iset<Trace>, before: iset<Trace>, n: nat)
    requires GraphOk(b.g) && s.Try? && n == FirstHandler(b, s) + HandlerCount(s.handlers) - |b.g|
    requires Closed(arr, seen, b.g)
    requires After(before, RaisedRuns(Read(b.raiseTo), s)) <= seen && After(before, ThrowRuns(Read(b.raiseTo), s)) <= seen
    ensures Closed(TryArrivals(b, s, arr, before), seen, Grow(b.g, n))
    ensures OldKept(arr, TryArrivals(b, s, arr, before), |b.g|)
  {
    hide After, FrameSize;
    var first, count := FirstHandler(b, s), HandlerCount(s.handlers);
    ClosedGrow(b.g, n, arr, seen);
    var g := Grow(b.g, n);
    var raised, thrown := After(before, RaisedRuns(Read(b.raiseTo), s)), After(before, ThrowRuns(Read(b.raiseTo), s));
    ClosedArrivingIn(g, |b.g|, first, raised, arr, seen, |b.g|);
    var arr0 := arr + ArrivingIn(|b.g|, first, raised);
    ClosedArrivingIn(g, first, first + count, thrown, arr0, seen, |b.g|);
    OldKeptTrans(arr, arr0, |b.g|, TryArrivals(b, s, arr, before), |b.g|);
  }

  lemma ExactOpenTry(b: State, s: Stmt, arr: Arrivals, seen: iset<Trace>, before: iset<Trace>) returns (arr1: Arrivals)
    requires StateOk(b) && s.Try? && LegalStmt(s)
    requires Closed(arr, seen, b.g) && EndsIn(b, arr, before)
    requires After(before, RaisedRuns(Read(b.raiseTo), s)) <= seen && After(before, ThrowRuns(Read(b.raiseTo), s)) <= seen
    ensures TryOpened(b, s, arr, arr1, seen, before)
  {
    hide After, LegalStmt, FramesOk, FrameOk, RaisedRuns, ThrowRuns, TryArrivals, FrameSize;
    var b0, first, count := OpenTry(b, s), FirstHandler(b, s), HandlerCount(s.handlers);
    OpenTryOk(b, s);
    var n := first + count - |b.g|;
    var b1 := b.(g := Grow(b.g, n));
    GrowExtends(b.g, n, 0, 0);
    ContextKept(b, b1.g);
    var arr2 := TryArrivals(b, s, arr, before);
    ClosedTryArrivals(b, s, arr, seen, before, n);
    EndsKept(b, arr, b1, arr2, before);
    ExactBranch(b1, arr2, seen, before);
    arr1 := Branch(b1, arr2);
    GrowTwice(b.g, n, 1);
    OldKeptTrans(arr, arr2, |b1.g|, arr1, |b.g|);
    SameEnds(b1.(g := Link(Grow(b1.g, 1), b1.cur, |b1.g|), cur := |b1.g|), b0, arr1, before);
    TryArrivalsAre(b, s, arr, arr2, arr1, seen, before, |b1.g|);
  }

  lemma TryArrivalsAre(b: State, s: Stmt, arr: Arrivals, arr2: Arrivals, arr1: Arrivals, seen: iset<Trace>, before: iset<Trace>, n: nat)
    requires s.Try? && Closed(arr, seen, b.g) && arr2 == TryArrivals(b, s, arr, before) && OldKept(arr2, arr1, n)
    requires n == FirstHandler(b, s) + HandlerCount(s.handlers)
    ensures var first := FirstHandler(b, s);
      forall i: nat, u | first <= i < n :: (i, u) in arr1 <==> u in After(before, ThrowRuns(Read(b.raiseTo), s))
    ensures |b.g| < n && s.final.Cons? ==> forall u :: (|b.g|, u) in arr1 <==> u in After(before, RaisedRuns(Read(b.raiseTo), s))
  {
    hide After, FrameSize;
    var first := FirstHandler(b, s);
    forall i: nat, u | |b.g| <= i < n
      ensures (i, u) in arr1 <==> u in (if i < first then After(before, RaisedRuns(Read(b.raiseTo), s)) else After(before, ThrowRuns(Read(b.raiseTo), s)))
    {
      assert NotNew(arr2, arr1, i, u);
      if (i, u) in arr {
        ArrivesInRange(arr, seen, b.g, i, u);
      }
    }
  }

  lemma {:induction false} GoesGuard(b: State, s: Stmt, arr: Arrivals, arr1: Arrivals, seen: iset<Trace>, before: iset<Trace>)
    requires b.cur < |b.g| && 2 <= |b.g| && s.Try? && TryOpened(b, s, arr, arr1, seen, before)
    requires Goes(arr, seen, b.frames, b.raiseTo, before, BodyRuns(Read(b.raiseTo), s))
    ensures Goes(arr1, seen, OpenTry(b, s).frames, PastTry(b, s), before, GuardRuns(Read(b.raiseTo), s))
  {
    hide RunGuarded, RunBlock, Leads, Goes, After, FrameSize;
    var fs, past := OpenTry(b, s).frames, PastTry(b, s);
    forall t, u, o | t in before && RunGuarded(Read(b.raiseTo), s, u, o)
      ensures Leads(arr1, seen, fs, past, t + u, o)
    {
      if s.final.Nil? {
        GoesAt(arr, seen, b.frames, b.raiseTo, before, BodyRuns(Read(b.raiseTo), s), arr1, t, u, o);
      } else {
        GoesGuardFinally(b, s, arr, arr1, seen, before, t, u, o);
      }
    }
    GoesIntro(arr1, seen, fs, past, before, GuardRuns(Read(b.raiseTo), s));
  }

  lemma GoesIntro(arr: Arrivals, seen: iset<Trace>, fs: seq<Frame>, rs: seq<nat>, before: iset<Trace>, runs: Runs)
    requires forall t, u, o | t in before && (u, o) in runs :: Leads(arr, seen, fs, rs, t + u, o)
    ensures Goes(arr, seen, fs, rs, before, runs)
  {
    hide Leads, FrameSize;
    forall t, u, o
      ensures GoesOne(arr, seen, fs, rs, before, runs, t, u, o)
    {
    }
  }

  lemma {:induction false} GoesGuardFinally(b: State, s: Stmt, arr: Arrivals, arr1: Arrivals, seen: iset<Trace>, before: iset<Trace>, t: Trace, u: Trace, o: Outcome)
    requires b.cur < |b.g| && 2 <= |b.g| && s.Try? && s.final.Cons? && TryOpened(b, s, arr, arr1, seen, before)
    requires Goes(arr, seen, b.frames, b.raiseTo, before, BodyRuns(Read(b.raiseTo), s)) && t in before && RunGuarded(Read(b.raiseTo), s, u, o)
    ensures Leads(arr1, seen, b.frames + [Finally(s.final, b.raiseTo)], [|b.g|], t + u, o)
  {
    hide RunGuarded, RunBlock, LeadsJump, Goes, After, FrameSize;
    match o
    case Normal =>
    case Cut => GoesAt(arr, seen, b.frames, b.raiseTo, before, BodyRuns(Read(b.raiseTo), s), arr1, t, u, Cut);
    case Raised(x) =>
      assert (u, Normal) in RaisedRuns(Read(b.raiseTo), s);
      AfterOne(before, RaisedRuns(Read(b.raiseTo), s), t, u);
      assert (|b.g|, t + u) in arr1;
      assert forall i | 0 <= i < |[|b.g|]| :: [|b.g|][i] == |b.g|;
    case _ =>
      forall v, o2 | RunBlock(Read(b.raiseTo), s.final, v, o2)
        ensures Leads(arr1, seen, b.frames, b.raiseTo, t + u + v, AfterFinally(o, o2))
      {
        assert RunBody(Read(b.raiseTo), s, u + v, AfterFinally(o, o2));
        GoesAt(arr, seen, b.frames, b.raiseTo, before, BodyRuns(Read(b.raiseTo), s), arr1, t, u + v, AfterFinally(o, o2));
        Assoc(t, u, v);
      }
      LeadsPopFinally(arr1, seen, b.frames, s.final, b.raiseTo, t + u, o);
  }

  lemma ThrowsArrive(b: State, s: Stmt, arr: Arrivals, arr1: Arrivals, seen: iset<Trace>, before: iset<Trace>, t: Trace, u: Trace)
    requires b.cur < |b.g| && s.Try? && TryOpened(b, s, arr, arr1, seen, before) && t in before && Throws(Inner(Read(b.raiseTo)), s.body, Spill(Read(b.raiseTo), s), u)
    requires Goes(arr1, seen, OpenTry(b, s).frames, PastTry(b, s), before, GuardRuns(Read(b.raiseTo), s))
    ensures forall i | 0 <= i < |OpenTry(b, s).raiseTo| :: (OpenTry(b, s).raiseTo[i], t + u) in arr1
  {
    hide Throws, LeadsJump, Goes, After, FrameSize;
    var rs, past := OpenTry(b, s).raiseTo, PastTry(b, s);
    var first, count := FirstHandler(b, s), HandlerCount(s.handlers);
    var ids := EntryIds(first, count);
    AfterOne(before, ThrowRuns(Read(b.raiseTo), s), t, u);
    assert (u, Raised(true)) in GuardRuns(Read(b.raiseTo), s);
    GoesAt(arr1, seen, OpenTry(b, s).frames, past, before, GuardRuns(Read(b.raiseTo), s), arr1, t, u, Raised(true));
    forall i | 0 <= i < |rs|
      ensures (rs[i], t + u) in arr1
    {
      assert rs == ids + past;
      if i < count {
        assert rs[i] == first + i;
      } else {
        assert rs[i] == past[i - count];
      }
    }
  }

  lemma GoesTryBody(b: State, s: Stmt, arr: Arrivals, arr1: Arrivals, seen: iset<Trace>, before: iset<Trace>)
    requires b.cur < |b.g| && s.Try? && InTry(OpenTry(b, s)) && TryOpened(b, s, arr, arr1, seen, before)
    requires Goes(arr1, seen, OpenTry(b, s).frames, PastTry(b, s), before, GuardRuns(Read(b.raiseTo), s))
    ensures Goes(arr1, seen, OpenTry(b, s).frames, OpenTry(b, s).raiseTo, before, BlockRuns(WRITTEN, s.body))
  {
    hide OpenTry, RunBlock, LeadsJump, Goes, After, FrameSize;
    var b0 := OpenTry(b, s);
    forall t, u, o | t in before && RunBlock(WRITTEN, s.body, u, o)
      ensures Leads(arr1, seen, b0.frames, b0.raiseTo, t + u, o)
    {
      if o.Raised? {
        assert o == Raised(true) || o == Raised(false);
        ThrowsArrive(b, s, arr, arr1, seen, before, t, u);
      } else if o != Normal {
        assert (u, o) in GuardRuns(Read(b.raiseTo), s);
        GoesAt(arr1, seen, b0.frames, PastTry(b, s), before, GuardRuns(Read(b.raiseTo), s), arr1, t, u, o);
        LeadsJumpSame(arr1, seen, b0.frames, PastTry(b, s), b0.raiseTo, t + u, o);
      }
    }
    GoesIntro(arr1, seen, b0.frames, b0.raiseTo, before, BlockRuns(WRITTEN, s.body));
  }

  lemma GuardIsSequel(m: Rules, s: Stmt)
    requires s.Try?
    ensures Sequel(BlockRuns(Inner(m), s.body), TailRuns(Outer(m, s.final), s.orelse), GuardRuns(m, s))
    ensures Sequel(ThrowRuns(m, s), HandlerRuns(Outer(m, s.final), s.handlers), GuardRuns(m, s))
  {
    hide RunBlock, RunTail, RunHandlers, Throws, Spill, FrameSize;
    var runs := GuardRuns(m, s);
    forall u1, u2, o
      ensures SequelOne(BlockRuns(Inner(m), s.body), TailRuns(Outer(m, s.final), s.orelse), runs, u1, u2, o)
      ensures SequelOne(ThrowRuns(m, s), HandlerRuns(Outer(m, s.final), s.handlers), runs, u1, u2, o)
    {
    }
  }

  /** The body of a `try` and its `else`. */
  lemma {:induction false} ExactTryElse(b: State, s: Stmt, arr: Arrivals, arr1: Arrivals, seen: iset<Trace>, before: iset<Trace>) returns (arr2: Arrivals)
    requires StateOk(b) && s.Try? && LegalStmt(s) && TryOpened(b, s, arr, arr1, seen, before)
    requires Goes(arr1, seen, OpenTry(b, s).frames, PastTry(b, s), before, GuardRuns(Read(b.raiseTo), s))
    ensures Extended(OpenTry(b, s), arr1, TryElse(b, s), arr2, seen)
    ensures EndsIn(TryElse(b, s), arr2, After(before, GuardRuns(Read(b.raiseTo), s)))
    decreases BlockSize(s.body) + BlockSize(s.orelse) + FrameSize(OpenTry(b, s).frames), 3
  {
    hide LowerBlock, LowerElse, OpenTry, PastTry, RunBlock, RunTail, RunGuarded, LegalBlock, LegalHandlers, Lead, Goes, After, Sequel, TryOpened, SpillArrives, Read, Spill, FrameSize;
    var b0, b1, past, m := OpenTry(b, s), TryBody(b, s), PastTry(b, s), Read(b.raiseTo);
    TryRules(b, s);
    OpenTryOk(b, s);
    TryOpenedIs(b, s, arr, arr1, seen, before);
    GoesTryBody(b, s, arr, arr1, seen, before);
    var arr3 := ExactTryBody(b, s, arr1, seen, before);
    GrownTryBody(b, s);
    var first, ends := BlockRuns(WRITTEN, s.body), After(before, BlockRuns(WRITTEN, s.body));
    BodyArrives(b, s, arr, arr1, seen, before, arr3);
    GuardIsSequel(m, s);
    GoesThen(arr1, seen, b0.frames, past, before, GuardRuns(m, s), arr3, first, TailRuns(Read(past), s.orelse));
    AfterThen(before, GuardRuns(m, s), first, TailRuns(Read(past), s.orelse));
    arr2 := ExactElse(b1, past, s.orelse, arr3, seen, ends);
    EndsInMore(TryElse(b, s), arr2, After(ends, TailRuns(Read(past), s.orelse)), After(before, GuardRuns(m, s)));
    OldKeptTrans(arr1, arr3, |b1.g|, arr2, |b0.g|);
  }

  lemma {:induction false} ExactTryBody(b: State, s: Stmt, arr: Arrivals, seen: iset<Trace>, before: iset<Trace>) returns (arr2: Arrivals)
    requires StateOk(b) && s.Try? && LegalStmt(s)
    requires Closed(arr, seen, OpenTry(b, s).g) && EndsIn(OpenTry(b, s), arr, before)
    requires Goes(arr, seen, OpenTry(b, s).frames, OpenTry(b, s).raiseTo, before, BlockRuns(WRITTEN, s.body))
    ensures Extended(OpenTry(b, s), arr, TryBody(b, s), arr2, seen)
    ensures EndsIn(TryBody(b, s), arr2, After(before, BlockRuns(WRITTEN, s.body)))
    decreases BlockSize(s.body) + FrameSize(OpenTry(b, s).frames), 1
  {
    hide LowerBlock, OpenTry, RunBlock, LegalBlock, LegalHandlers, Goes, After, FrameSize;
    OpenTryOk(b, s);
    arr2 := ExactBlock(OpenTry(b, s), s.body, arr, seen, before);
  }

  lemma TryOpenedIs(b: State, s: Stmt, arr: Arrivals, arr1: Arrivals, seen: iset<Trace>, before: iset<Trace>)
    requires b.cur < |b.g| && s.Try? && TryOpened(b, s, arr, arr1, seen, before)
    ensures Closed(arr1, seen, OpenTry(b, s).g) && EndsIn(OpenTry(b, s), arr1, before) && OldKept(arr, arr1, |b.g|)
  {
    hide OpenTry, After, FrameSize;
  }

  /** The end of a body can raise. */
  lemma BodyArrives(b: State, s: Stmt, arr: Arrivals, arr1: Arrivals, seen: iset<Trace>, before: iset<Trace>, arr3: Arrivals)
    requires b.cur < |b.g| && s.Try? && TryOpened(b, s, arr, arr1, seen, before) && arr1 <= arr3
    requires Inner(Read(b.raiseTo)) == WRITTEN
    requires Goes(arr1, seen, OpenTry(b, s).frames, PastTry(b, s), before, GuardRuns(Read(b.raiseTo), s))
    ensures SpillArrives(OpenTry(b, s).raiseTo, Spill(Read(b.raiseTo), s), arr3, After(before, BlockRuns(WRITTEN, s.body)))
  {
    hide OpenTry, RunBlock, Goes, TryOpened, Spill, Read, FrameSize;
    var rs, spill := OpenTry(b, s).raiseTo, Spill(Read(b.raiseTo), s);
    forall t, i {:trigger (rs[i], t + spill) in arr3} | t in After(before, BlockRuns(WRITTEN, s.body)) && 0 <= i < |rs|
      ensures (rs[i], t + spill) in arr3
    {
      var t1, t2 :| t1 in before && (t2, Normal) in BlockRuns(WRITTEN, s.body) && t == t1 + t2;
      assert ThrowsLate(WRITTEN, s.body, spill, t2 + spill);
      ThrowsArrive(b, s, arr, arr1, seen, before, t1, t2 + spill);
      Assoc(t1, t2, spill);
    }
  }

  /** Only what the body throws arrives at the handlers of `s`. */
  ghost predicate HandlersGet(b: State, s: Stmt, arr: Arrivals, before: iset<Trace>)
    requires s.Try?
  {
    forall i: nat, u | FirstHandler(b, s) <= i < FirstHandler(b, s) + HandlerCount(s.handlers) && (i, u) in arr ::
      u in After(before, ThrowRuns(Read(b.raiseTo), s))
  }

  lemma HandlersGetKept(b: State, s: Stmt, arr: Arrivals, before: iset<Trace>, arr': Arrivals, n: nat)
    requires s.Try? && HandlersGet(b, s, arr, before) && OldKept(arr, arr', n)
    requires FirstHandler(b, s) + HandlerCount(s.handlers) <= n
    ensures HandlersGet(b, s, arr', before)
  {
    hide After, ThrowRuns, FrameSize;
    forall i: nat, u | FirstHandler(b, s) <= i < FirstHandler(b, s) + HandlerCount(s.handlers) && (i, u) in arr'
      ensures u in After(before, ThrowRuns(Read(b.raiseTo), s))
    {
      assert NotNew(arr, arr', i, u);
    }
  }

  lemma HandlersOpened(b: State, s: Stmt, arr: Arrivals, arr1: Arrivals, seen: iset<Trace>, before: iset<Trace>)
    requires b.cur < |b.g| && s.Try? && TryOpened(b, s, arr, arr1, seen, before)
    ensures HandlersGet(b, s, arr1, before)
  {
    hide After, ThrowRuns, OpenTry, FrameSize;
  }

  lemma {:induction false} ExactGuarded(b: State, s: Stmt, arr: Arrivals, arr1: Arrivals, seen: iset<Trace>, before: iset<Trace>) returns (arr2: Arrivals)
    requires StateOk(b) && s.Try? && LegalStmt(s) && TryOpened(b, s, arr, arr1, seen, before)
    requires Goes(arr1, seen, OpenTry(b, s).frames, PastTry(b, s), before, GuardRuns(Read(b.raiseTo), s))
    ensures var r := LowerGuarded(b, s);
      Closed(arr2, seen, r.0.g) && OldKept(arr1, arr2, |OpenTry(b, s).g|) && AllEndIn(r, arr2, After(before, GuardRuns(Read(b.raiseTo), s)))
    ensures HandlersGet(b, s, arr2, before)
    decreases StmtSize(s) + FrameSize(b.frames), 0, 0
  {
    hide TryElse, LowerHandlers, OpenTry, PastTry, RunBlock, RunTail, RunHandlers, RunGuarded, LegalBlock, LegalHandlers, Lead, Goes, After, Sequel, Read, Spill, HandlersGet, FrameSize;
    var b0, past, first := OpenTry(b, s), PastTry(b, s), FirstHandler(b, s);
    OpenTryOk(b, s);
    TryRules(b, s);
    TryMeasure(b, s);
    var arr3 := ExactTryElse(b, s, arr, arr1, seen, before);
    var b2 := TryElse(b, s);
    GrownTryElse(b, s);
    var thrown, all := After(before, ThrowRuns(Read(b.raiseTo), s)), After(before, GuardRuns(Read(b.raiseTo), s));
    forall i: nat, u | first <= i < first + HandlerCount(s.handlers) && (i, u) in arr3
      ensures u in thrown
    {
      assert NotNew(arr1, arr3, i, u);
    }
    GuardIsSequel(Read(b.raiseTo), s);
    GoesThen(arr1, seen, b0.frames, past, before, GuardRuns(Read(b.raiseTo), s), arr3, ThrowRuns(Read(b.raiseTo), s), HandlerRuns(Read(past), s.handlers));
    AfterThen(before, GuardRuns(Read(b.raiseTo), s), ThrowRuns(Read(b.raiseTo), s), HandlerRuns(Read(past), s.handlers));
    arr2 := ExactHandlers(b2, s.handlers, first, arr3, seen, thrown);
    GrownHandlers(b2, s.handlers, first);
    HandlersEnd(b2, s.handlers, first, arr3, arr2, all, After(thrown, HandlerRuns(Read(past), s.handlers)), all);
    OldKeptTrans(arr1, arr3, |b2.g|, arr2, |b0.g|);
    HandlersOpened(b, s, arr, arr1, seen, before);
    HandlersGetKept(b, s, arr1, before, arr2, |b0.g|);
  }

  lemma {:induction false} ClosedLinkFrom(g: Graph, froms: seq<nat>, c: nat, arr: Arrivals, seen: iset<Trace>, b: State)
    requires (forall i :: 0 <= i < |froms| ==> froms[i] < |g|) && Closed(arr, seen, g) && |b.g| == |g|
    requires forall i, t | 0 <= i < |froms| && At(b.(cur := froms[i]), arr, t) :: (c, t) in arr
    requires forall i | 0 <= i < |g| :: g[i].events == b.g[i].events
    ensures Closed(arr, seen, LinkFrom(g, froms, c))
    ensures forall i | 0 <= i < |g| :: LinkFrom(g, froms, c)[i].events == g[i].events
    decreases |froms|
  {
    if froms != [] {
      var init, e := froms[..|froms| - 1], froms[|froms| - 1];
      forall i, t | 0 <= i < |init| && At(b.(cur := init[i]), arr, t)
        ensures (c, t) in arr
      {
        assert At(b.(cur := froms[i]), arr, t);
      }
      ClosedLinkFrom(g, init, c, arr, seen, b);
      var b1 := b.(g := LinkFrom(g, init, c), cur := e);
      forall t | At(b1, arr, t)
        ensures (c, t) in arr
      {
        assert At(b.(cur := froms[|froms| - 1]), arr, t);
      }
      ClosedLink(b1, c, arr, seen);
    }
  }

  /** The ends of the guarded part, joined. */
  lemma ExactJoined(b3: State, ends: seq<nat>, arr: Arrivals, seen: iset<Trace>, before: iset<Trace>, fs: seq<Frame>, rs: seq<nat>) returns (arr2: Arrivals)
    requires GraphOk(b3.g) && Closed(arr, seen, b3.g) && before <= seen
    requires (forall i :: 0 <= i < |ends| ==> ends[i] < |b3.g|) && AllEndIn((b3, ends), arr, before)
    ensures var r := State(LinkFrom(Grow(b3.g, 1), ends, |b3.g|), |b3.g|, fs, rs);
      Closed(arr2, seen, r.g) && OldKept(arr, arr2, |b3.g|) && EndsIn(r, arr2, before)
  {
    var n := |b3.g|;
    var g := Grow(b3.g, 1);
    arr2 := arr + Arriving(n, before);
    ClosedGrow(b3.g, 1, arr, seen);
    ClosedArriving(g, n, before, arr, seen);
    OldKeptArriving(arr, n, before, n);
    var b := b3.(g := g);
    forall i, t | 0 <= i < |ends| && At(b.(cur := ends[i]), arr2, t)
      ensures (n, t) in arr2
    {
      EndsKept(b3.(cur := ends[i]), arr, b.(cur := ends[i]), arr2, before);
    }
    ClosedLinkFrom(g, ends, n, arr2, seen, b);
    NoneAtNew(arr, seen, b3.g, n);
    var r := State(LinkFrom(g, ends, n), n, fs, rs);
    OldKeptSame(arr2, n + 1);
    EndsAfter(arr, before, n + 1, arr2, r);
  }

  lemma GuardSeen(m: Rules, s: Stmt, arr: Arrivals, seen: iset<Trace>, fs: seq<Frame>, rs: seq<nat>, before: iset<Trace>)
    requires s.Try? && Goes(arr, seen, fs, rs, before, BodyRuns(m, s))
    ensures After(before, GuardRuns(m, s)) <= seen && After(before, RaisedRuns(m, s)) <= seen && After(before, ThrowRuns(m, s)) <= seen
  {
    hide RunBlock, RunGuarded, Goes, FrameSize;
    forall t | t in After(before, GuardRuns(m, s)) || t in After(before, RaisedRuns(m, s)) || t in After(before, ThrowRuns(m, s))
      ensures t in seen
    {
      ThrowsAreRaised(m, s);
      var t1, t2, o :| t1 in before && RunGuarded(m, s, t2, o) && t == t1 + t2;
      CutGuarded(m, s, t2, o);
      GuardCuts(m, s, t2);
      GoesAt(arr, seen, fs, rs, before, BodyRuns(m, s), arr, t1, t2, Cut);
    }
  }

  lemma ThrowsAreRaised(m: Rules, s: Stmt)
    requires s.Try?
    ensures forall u | (u, Normal) in ThrowRuns(m, s) :: RunGuarded(m, s, u, Raised(true))
  {
    hide Throws, FrameSize;
  }

  lemma GuardCuts(m: Rules, s: Stmt, u: Trace)
    requires s.Try? && RunGuarded(m, s, u, Cut)
    ensures (u, Cut) in BodyRuns(m, s)
  {
    hide RunGuarded, RunBlock, FrameSize;
  }

  /** A `try` up to the join of its normal ends. */
  lemma {:induction false} ExactJoin(b: State, s: Stmt, arr: Arrivals, seen: iset<Trace>, before: iset<Trace>) returns (arr2: Arrivals)
    requires StateOk(b) && s.Try? && LegalStmt(s)
    requires Closed(arr, seen, b.g) && EndsIn(b, arr, before)
    requires Goes(arr, seen, b.frames, b.raiseTo, before, BodyRuns(Read(b.raiseTo), s))
    ensures Extended(b, arr, Join(b, s), arr2, seen) && EndsIn(Join(b, s), arr2, After(before, GuardRuns(Read(b.raiseTo), s)))
    ensures s.final.Cons? ==> forall u | (|b.g|, u) in arr2 :: u in After(before, RaisedRuns(Read(b.raiseTo), s))
    ensures HandlersGet(b, s, arr2, before)
    decreases StmtSize(s) + FrameSize(b.frames), 0, 1
  {
    hide LowerGuarded, OpenTry, PastTry, RunGuarded, LegalStmt, Goes, After, HandlersGet, FrameSize;
    GuardSeen(Read(b.raiseTo), s, arr, seen, b.frames, b.raiseTo, before);
    var arr1 := ExactOpenTry(b, s, arr, seen, before);
    GoesGuard(b, s, arr, arr1, seen, before);
    var arr3 := ExactGuarded(b, s, arr, arr1, seen, before);
    GrownGuarded(b, s);
    OpenTryOk(b, s);
    var (b3, ends) := LowerGuarded(b, s);
    arr2 := ExactJoined(b3, ends, arr3, seen, After(before, GuardRuns(Read(b.raiseTo), s)), b.frames, b.raiseTo);
    HandlersGetKept(b, s, arr3, before, arr2, |b3.g|);
    OldKeptTrans(arr1, arr3, |b3.g|, arr2, |OpenTry(b, s).g|);
    OldKeptTrans(arr, arr1, |b.g|, arr2, |b.g|);
    if s.final.Cons? {
      forall u | (|b.g|, u) in arr2
        ensures u in After(before, RaisedRuns(Read(b.raiseTo), s))
      {
        assert NotNew(arr1, arr2, |b.g|, u);
      }
    }
  }

  /** `finally` after an exception: if it completes, the exception is raised again. */
  ghost function PassRuns(m: Rules, s: Stmt): Runs
    requires s.Try?
  {
    iset p: (Trace, Outcome) | RunBody(m, s, p.0, AfterFinally(Raised(true), p.1))
  }

  lemma FinallyIsSequel(m: Rules, s: Stmt)
    requires s.Try? && s.final.Cons?
    ensures Sequel(GuardRuns(m, s), BlockRuns(m, s.final), BodyRuns(m, s))
    ensures Sequel(RaisedRuns(m, s), BlockRuns(m, s.final), PassRuns(m, s))
  {
    hide RunBlock, RunGuarded, FrameSize;
    forall u1, u2, o
      ensures SequelOne(GuardRuns(m, s), BlockRuns(m, s.final), BodyRuns(m, s), u1, u2, o)
    {
      if (u1, Normal) in GuardRuns(m, s) && (u2, o) in BlockRuns(m, s.final) {
        FinallyRuns(m, s, u1, Normal, u2, o);
      }
    }
    forall u1, u2, o
      ensures SequelOne(RaisedRuns(m, s), BlockRuns(m, s.final), PassRuns(m, s), u1, u2, o)
    {
      if (u1, Normal) in RaisedRuns(m, s) && (u2, o) in BlockRuns(m, s.final) {
        FinallyRuns(m, s, u1, Raised(RunGuarded(m, s, u1, Raised(true))), u2, o);
      }
    }
  }

  lemma FinallyRuns(m: Rules, s: Stmt, u1: Trace, o1: Outcome, u2: Trace, o2: Outcome)
    requires s.Try? && s.final.Cons? && RunGuarded(m, s, u1, o1) && o1 != Cut && RunBlock(m, s.final, u2, o2)
    ensures RunBody(m, s, u1 + u2, AfterFinally(o1, o2))
  {
    hide RunBlock, RunGuarded, FrameSize;
  }

  lemma GoesPass(m: Rules, s: Stmt, arr: Arrivals, arr': Arrivals, seen: iset<Trace>, fs: seq<Frame>, rs: seq<nat>, before: iset<Trace>)
    requires s.Try? && s.final.Cons? && Goes(arr, seen, fs, rs, before, BodyRuns(m, s)) && arr <= arr'
    ensures Goes(arr', seen, fs, rs, After(before, RaisedRuns(m, s)), BlockRuns(m, s.final))
    ensures forall t | t in After(After(before, RaisedRuns(m, s)), BlockRuns(m, s.final)) :: LeadsRaise(arr', seen, rs, t, true)
  {
    hide RunBlock, RunGuarded, RunBody, Goes, LeadsJump, FrameSize;
    FinallyIsSequel(m, s);
    GoesSub(arr, seen, fs, rs, before, BodyRuns(m, s), arr', before, PassRuns(m, s));
    GoesThen(arr', seen, fs, rs, before, PassRuns(m, s), arr', RaisedRuns(m, s), BlockRuns(m, s.final));
    AfterThen(before, PassRuns(m, s), RaisedRuns(m, s), BlockRuns(m, s.final));
    forall t | t in After(before, PassRuns(m, s))
      ensures LeadsRaise(arr', seen, rs, t, true)
    {
      var t1, t2 :| t1 in before && (t2, Normal) in PassRuns(m, s) && t == t1 + t2;
      GoesAt(arr, seen, fs, rs, before, BodyRuns(m, s), arr', t1, t2, Raised(true));
    }
  }

  lemma {:induction false} ExactReraise(b: State, exc: nat, final: Block, arr: Arrivals, seen: iset<Trace>, before: iset<Trace>) returns (arr2: Arrivals)
    requires StateOk(b) && LegalBlock(final)
    requires 2 <= exc < |b.g| && b.g[exc] == EMPTY
    requires Closed(arr, seen, b.g) && forall u | (exc, u) in arr :: u in before
    requires Goes(arr, seen, b.frames, b.raiseTo, before, BlockRuns(Read(b.raiseTo), final))
    requires forall t | t in After(before, BlockRuns(Read(b.raiseTo), final)) :: LeadsRaise(arr, seen, b.raiseTo, t, true)
    ensures Extended(b, arr, LowerReraise(b, exc, final), arr2, seen)
    decreases BlockSize(final) + FrameSize(b.frames), 1
  {
    hide LowerBlock, RunBlock, LegalBlock, Goes, After, FrameSize;
    var b1 := b.(cur := exc);
    forall t | At(b1, arr, t)
      ensures t in before
    {
      var u :| (exc, u) in arr && t == u + b1.g[exc].events;
      assert t == u;
    }
    arr2 := ExactBlock(b1, final, arr, seen, before);
    var b2 := LowerBlock(b1, final);
    forall t, i | At(b2, arr2, t) && 0 <= i < |b2.raiseTo|
      ensures (b2.raiseTo[i], t) in arr2
    {
      assert LeadsRaise(arr, seen, b.raiseTo, t, true);
    }
    ClosedLinkAll(b2, b2.raiseTo, arr2, seen);
  }

  lemma {:induction false} ExactTry(b: State, s: Stmt, arr: Arrivals, seen: iset<Trace>, before: iset<Trace>) returns (arr2: Arrivals)
    requires StateOk(b) && s.Try? && LegalStmt(s)
    requires Closed(arr, seen, b.g) && EndsIn(b, arr, before)
    requires Goes(arr, seen, b.frames, b.raiseTo, before, BodyRuns(Read(b.raiseTo), s))
    ensures Extended(b, arr, LowerTry(b, s), arr2, seen) && EndsIn(LowerTry(b, s), arr2, After(before, BodyRuns(Read(b.raiseTo), s)))
    ensures HandlersGet(b, s, arr2, before)
    decreases StmtSize(s) + FrameSize(b.frames), 0, 2
  {
    hide LowerBlock, Join, LowerReraise, RunBlock, RunGuarded, LegalHandlers, Lead, Goes, After, HandlersGet, FrameSize;
    var arr1 := ExactJoin(b, s, arr, seen, before);
    if s.final.Nil? {
      arr2 := arr1;
      AfterSub(before, BodyRuns(Read(b.raiseTo), s), before, GuardRuns(Read(b.raiseTo), s));
      EndsInMore(LowerTry(b, s), arr2, After(before, GuardRuns(Read(b.raiseTo), s)), After(before, BodyRuns(Read(b.raiseTo), s)));
    } else {
      arr2 := ExactFinally(b, s, arr, arr1, seen, before);
      HandlersBelow(b, s);
      HandlersGetKept(b, s, arr1, before, arr2, |Join(b, s).g|);
    }
  }

  lemma HandlersBelow(b: State, s: Stmt)
    requires StateOk(b) && s.Try? && LegalStmt(s)
    ensures FirstHandler(b, s) + HandlerCount(s.handlers) <= |Join(b, s).g|
  {
    hide LowerGuarded, LegalStmt, FrameSize;
    GrownGuarded(b, s);
  }

  lemma {:induction false} ExactFinally(b: State, s: Stmt, arr: Arrivals, arr1: Arrivals, seen: iset<Trace>, before: iset<Trace>) returns (arr2: Arrivals)
    requires StateOk(b) && s.Try? && s.final.Cons? && LegalStmt(s)
    requires Extended(b, arr, Join(b, s), arr1, seen) && EndsIn(Join(b, s), arr1, After(before, GuardRuns(Read(b.raiseTo), s)))
    requires forall u | (|b.g|, u) in arr1 :: u in After(before, RaisedRuns(Read(b.raiseTo), s))
    requires Goes(arr, seen, b.frames, b.raiseTo, before, BodyRuns(Read(b.raiseTo), s))
    ensures Extended(b, arr, LowerTry(b, s), arr2, seen) && EndsIn(LowerTry(b, s), arr2, After(before, BodyRuns(Read(b.raiseTo), s)))
    ensures OldKept(arr1, arr2, |Join(b, s).g|)
    decreases BlockSize(s.final) + FrameSize(b.frames), 2
  {
    hide LowerBlock, Join, LowerReraise, RunBlock, RunGuarded, RunBody, LegalBlock, LegalHandlers, Lead, Goes, After, Sequel, FrameSize, Adds;
    var b1, exc := Join(b, s), |b.g|;
    GrownJoin(b, s);
    FinallyIsSequel(Read(b.raiseTo), s);
    GoesThen(arr, seen, b.frames, b.raiseTo, before, BodyRuns(Read(b.raiseTo), s), arr1, GuardRuns(Read(b.raiseTo), s), BlockRuns(Read(b.raiseTo), s.final));
    AfterThen(before, BodyRuns(Read(b.raiseTo), s), GuardRuns(Read(b.raiseTo), s), BlockRuns(Read(b.raiseTo), s.final));
    var arr3 := ExactBlock(b1, s.final, arr1, seen, After(before, GuardRuns(Read(b.raiseTo), s)));
    var b2 := LowerBlock(b1, s.final);
    GrownBlock(b1, s.final);
    assert Kept(b1.g, b1.cur, b1.cur + 1, b2.g, exc);
    forall u | (exc, u) in arr3
      ensures u in After(before, RaisedRuns(Read(b.raiseTo), s))
    {
      assert NotNew(arr1, arr3, exc, u);
    }
    GoesPass(Read(b.raiseTo), s, arr, arr3, seen, b.frames, b.raiseTo, before);
    arr2 := ExactReraise(b2, exc, s.final, arr3, seen, After(before, RaisedRuns(Read(b.raiseTo), s)));
    FinallyEnds(b2, exc, s.final, arr3, arr2, After(After(before, GuardRuns(Read(b.raiseTo), s)), BlockRuns(Read(b.raiseTo), s.final)));
    EndsInMore(LowerTry(b, s), arr2, After(After(before, GuardRuns(Read(b.raiseTo), s)), BlockRuns(Read(b.raiseTo), s.final)), After(before, BodyRuns(Read(b.raiseTo), s)));
    OldKeptTrans(arr1, arr3, |b2.g|, arr2, |b1.g|);
    OldKeptTrans(arr, arr1, |b1.g|, arr3, |b.g|);
    OldKeptTrans(arr, arr3, |b2.g|, arr2, |b.g|);
  }

  /** The exceptional copy leaves alone what the normal copy of `finally` ends in. */
  lemma {:induction false} FinallyEnds(b: State, exc: nat, final: Block, arr: Arrivals, arr2: Arrivals, before: iset<Trace>)
    requires StateOk(b) && LegalBlock(final)
    requires 2 <= exc < |b.g| && b.g[exc] == EMPTY && b.cur != exc
    requires EndsIn(b, arr, before) && OldKept(arr, arr2, |b.g|)
    ensures EndsIn(LowerReraise(b, exc, final), arr2, before)
  {
    hide LowerReraise, LegalBlock, FrameSize;
    GrownReraise(b, exc, final);
    var r := LowerReraise(b, exc, final);
    assert Kept(b.g, exc, exc + 1, r.g, b.cur);
    EndsKept(b, arr, r, arr2, before);
  }

  // ---- functions ------------------------------------------------------

  /** `t` is a whole run that leaves the function. */
  ghost predicate Exiting(m: Rules, body: Block, t: Trace) {
    exists o :: Leaves(o) && RunBlock(m, body, t, o)
  }

  ghost function Exits(m: Rules, body: Block): iset<Trace> {
    iset t | Exiting(m, body, t)
  }

  ghost function Observed(m: Rules, body: Block): iset<Trace> {
    iset t | RunBlock(m, body, t, Cut)
  }

  lemma {:induction false} ExactBuild(body: Block) returns (arr: Arrivals)
    requires LegalBlock(body)
    ensures Closed(arr, Observed(LOWERED, body), Build(body)) && (ENTRY, []) in arr
    ensures forall t | (EXIT, t) in arr :: t in Exits(LOWERED, body)
  {
    hide LowerBlock, RunBlock, LegalBlock, Goes, FrameSize;
    var seen, ends := Observed(LOWERED, body), Exits(LOWERED, body);
    var start := Arriving(ENTRY, iset{[]}) + Arriving(EXIT, ends);
    StartOk();
    StartClosed(body, start);
    assert EndsIn(START, start, iset{[]}) by {
      forall t | At(START, start, t)
        ensures t in iset{[]}
      {
        var u :| (ENTRY, u) in start && t == u + START.g[ENTRY].events;
        assert t == u;
      }
    }
    StartGoes(body, start);
    arr := ExactBlock(START, body, start, seen, iset{[]});
    var b := LowerBlock(START, body);
    forall t | At(b, arr, t)
      ensures (EXIT, t) in arr
    {
      var t1, t2 :| t1 in iset{[]} && (t2, Normal) in BlockRuns(LOWERED, body) && t == t1 + t2;
      assert t == t2;
    }
    ClosedLink(b, EXIT, arr, seen);
    forall t | (EXIT, t) in arr
      ensures t in ends
    {
      assert NotNew(start, arr, EXIT, t);
    }
  }

  lemma StartClosed(body: Block, start: Arrivals)
    requires start == Arriving(ENTRY, iset{[]}) + Arriving(EXIT, Exits(LOWERED, body))
    ensures Closed(start, Observed(LOWERED, body), START.g)
  {
    hide RunBlock, FrameSize;
    forall a: nat, u, e
      ensures Shown(start, Observed(LOWERED, body), START.g, a, u, e)
    {
      if (a, u) in start && e <= START.g[a].events {
        assert u + e == u;
        if a == EXIT {
          assert Exiting(LOWERED, body, u);
          var o :| Leaves(o) && RunBlock(LOWERED, body, u, o);
          CutBlock(LOWERED, body, u, o);
        } else {
          CutAtOnce(LOWERED, body);
        }
      }
    }
  }

  lemma CutAtOnce(m: Rules, k: Block)
    ensures RunBlock(m, k, [], Cut)
  {
  }

  lemma StartGoes(body: Block, start: Arrivals)
    requires start == Arriving(ENTRY, iset{[]}) + Arriving(EXIT, Exits(LOWERED, body))
    ensures Goes(start, Observed(LOWERED, body), [], [EXIT], iset{[]}, BlockRuns(LOWERED, body))
  {
    hide RunBlock, FrameSize;
    forall t, u, o | t in iset{[]} && (u, o) in BlockRuns(LOWERED, body)
      ensures Leads(start, Observed(LOWERED, body), [], [EXIT], t + u, o)
    {
      assert t + u == u;
      if o == Cut || o == Raised(false) {
        CutBlock(LOWERED, body, u, o);
      } else {
        assert Leaves(o) && Exiting(LOWERED, body, u);
      }
    }
    GoesIntro(start, Observed(LOWERED, body), [], [EXIT], iset{[]}, BlockRuns(LOWERED, body));
  }
}
