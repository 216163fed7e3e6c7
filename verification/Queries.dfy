/** The graph queries of one function's graph: predecessors and reachability. */
module Queries {
  import opened Cfg

  /** `locals` is how many locals there are; parameters are some of them. */
  datatype FunctionCfg = FunctionCfg(locals: nat, params: seq<nat>, blocks: Graph)

  predicate SuccsInRange(g: Graph) {
    forall b, i | 0 <= b < |g| && 0 <= i < |g[b].succs| :: g[b].succs[i] < |g|
  }

  predicate CfgOk(c: FunctionCfg) {
    && |c.blocks| >= 2 && SuccsInRange(c.blocks)
    && (forall i | 0 <= i < |c.params| :: c.params[i] < c.locals)
    && (forall b | 0 <= b < |c.blocks| :: LocalsOk(c.blocks[b].events, c.locals))
  }

  predicate LocalsOk(t: Trace, n: nat) {
    forall i | 0 <= i < |t| :: t[i].local < n
  }

  // ---- predecessors ---------------------------------------------------

  /** `b` once for every occurrence of `s` in `ss`. */
  function Times(b: nat, ss: seq<nat>, s: nat): seq<nat> {
    if ss == [] then []
    else Times(b, ss[..|ss| - 1], s) + if ss[|ss| - 1] == s then [b] else []
  }

  /** The predecessors of `s` among the first `n` blocks, one for every edge. */
  function PredsOf(g: Graph, s: nat, n: nat): seq<nat>
    requires n <= |g|
  {
    if n == 0 then [] else PredsOf(g, s, n - 1) + Times(n - 1, g[n - 1].succs, s)
  }

  /** How often `x` occurs in `ss`. */
  function Count(ss: seq<nat>, x: nat): nat {
    if ss == [] then 0 else Count(ss[..|ss| - 1], x) + if ss[|ss| - 1] == x then 1 else 0
  }

  lemma {:induction false} CountAppend(ss: seq<nat>, ts: seq<nat>, x: nat)
    ensures Count(ss + ts, x) == Count(ss, x) + Count(ts, x)
  {
    if ts == [] {
      assert ss + ts == ss;
    } else {
      CountAppend(ss, ts[..|ts| - 1], x);
      assert (ss + ts)[..|ss + ts| - 1] == ss + ts[..|ts| - 1];
    }
  }

  lemma {:induction false} CountIn(ss: seq<nat>, x: nat)
    ensures x in ss <==> Count(ss, x) > 0
  {
    if ss != [] {
      CountIn(ss[..|ss| - 1], x);
      assert ss == ss[..|ss| - 1] + [ss[|ss| - 1]];
    }
  }

  lemma {:induction false} TimesCount(b: nat, ss: seq<nat>, s: nat, x: nat)
    ensures Count(Times(b, ss, s), x) == if x == b then Count(ss, s) else 0
  {
    if ss != [] {
      TimesCount(b, ss[..|ss| - 1], s, x);
      if ss[|ss| - 1] == s {
        CountAppend(Times(b, ss[..|ss| - 1], s), [b], x);
        assert [b][..0] == [];
      } else {
        assert Times(b, ss, s) == Times(b, ss[..|ss| - 1], s);
      }
    }
  }

  /** The exact inverse of the successor lists, edge for edge. */
  lemma {:induction false} PredsInvert(g: Graph, s: nat, n: nat, b: nat)
    requires n <= |g|
    ensures Count(PredsOf(g, s, n), b) == if b < n then Count(g[b].succs, s) else 0
  {
    if n > 0 {
      PredsInvert(g, s, n - 1, b);
      CountAppend(PredsOf(g, s, n - 1), Times(n - 1, g[n - 1].succs, s), b);
      TimesCount(n - 1, g[n - 1].succs, s, b);
    }
  }

  lemma InPreds(g: Graph, s: nat, b: nat)
    ensures b in PredsOf(g, s, |g|) <==> b < |g| && s in g[b].succs
  {
    PredsInvert(g, s, |g|, b);
    CountIn(PredsOf(g, s, |g|), b);
    if b < |g| {
      CountIn(g[b].succs, s);
    }
  }

  method Preds(g: Graph) returns (preds: seq<seq<nat>>)
    requires SuccsInRange(g)
    ensures |preds| == |g| && forall s | 0 <= s < |g| :: preds[s] == PredsOf(g, s, |g|)
  {
    var ps := new seq<nat>[|g|](_ => []);
    for b := 0 to |g|
      invariant forall s | 0 <= s < |g| :: ps[s] == PredsOf(g, s, b)
    {
      var ss := g[b].succs;
      for k := 0 to |ss|
        invariant forall s | 0 <= s < |g| :: ps[s] == PredsOf(g, s, b) + Times(b, ss[..k], s)
      {
        assert ss[..k + 1][..k] == ss[..k];
        ps[ss[k]] := ps[ss[k]] + [b];
      }
      assert ss[..|ss|] == ss;
    }
    preds := ps[..];
  }

  // ---- reachability ---------------------------------------------------

  ghost predicate Reachable(g: Graph, b: nat) {
    exists p :: Walk(g, p) && p[|p| - 1] == b
  }

  lemma ReachableTraces(g: Graph, b: nat)
    ensures Reachable(g, b) <==> exists t :: Reaches(g, t, b)
  {
    if Reachable(g, b) {
      var p :| Walk(g, p) && p[|p| - 1] == b;
      assert Reaches(g, Spell(g, p), b);
    }
  }

  lemma ReachableStep(g: Graph, a: nat, b: nat)
    requires Reachable(g, a) && a < |g| && b in g[a].succs && b < |g|
    ensures Reachable(g, b)
  {
    ReachableTraces(g, a);
    var t :| Reaches(g, t, a);
    ReachesStep(g, t, a, b);
    ReachableTraces(g, b);
  }

  /** A set of blocks with the entry that edges do not leave has every reachable block. */
  lemma {:induction false} ReachableInside(g: Graph, inside: set<nat>, p: seq<nat>)
    requires ENTRY in inside && Walk(g, p)
    requires forall a, c | a in inside && a < |g| && c in g[a].succs :: c in inside
    ensures p[|p| - 1] in inside
    decreases |p|
  {
    if |p| > 1 {
      var q := p[..|p| - 1];
      ReachableInside(g, inside, q);
      assert p[|p| - 2 + 1] in g[p[|p| - 2]].succs;
    }
  }

  ghost function Marked(seen: seq<bool>): set<nat> {
    set b | 0 <= b < |seen| && seen[b]
  }

  lemma MarkOne(seen: seq<bool>, b: nat)
    requires b < |seen| && !seen[b]
    ensures Marked(seen[b := true]) == Marked(seen) + {b}
  {
  }

  lemma {:induction false} MarkedFits(seen: seq<bool>)
    ensures |Marked(seen)| <= |seen|
  {
    if seen == [] {
      assert Marked(seen) == {};
    } else {
      var init := seen[..|seen| - 1];
      MarkedFits(init);
      assert Marked(seen) == Marked(init) + if seen[|seen| - 1] then {|seen| - 1} else {};
    }
  }

  /** Everything seen can be reached, and its successors are seen or still to come. */
  ghost predicate Searched(g: Graph, seen: seq<bool>, stack: seq<nat>) {
    && |seen| == |g|
    && (forall i | 0 <= i < |stack| :: Reachable(g, stack[i]) && stack[i] < |g|)
    && (forall b | 0 <= b < |g| && seen[b] :: Reachable(g, b) && Pushed(g, seen, stack, b))
  }

  ghost predicate Pushed(g: Graph, seen: seq<bool>, stack: seq<nat>, b: nat)
    requires b < |g| == |seen|
  {
    forall c | c in g[b].succs :: c < |g| && (seen[c] || c in stack)
  }

  method Reach(g: Graph) returns (reachable: seq<bool>)
    requires |g| > 0 && SuccsInRange(g)
    ensures |reachable| == |g| && forall b | 0 <= b < |g| :: reachable[b] <==> Reachable(g, b)
  {
    hide Reachable;
    var seen := new bool[|g|](_ => false);
    var stack := [ENTRY];
    EntryReachable(g);
    while stack != []
      invariant Searched(g, seen[..], stack) && (seen[ENTRY] || ENTRY in stack)
      decreases |g| - |Marked(seen[..])|, |stack|
    {
      var b := stack[|stack| - 1];
      ghost var before, stack0 := seen[..], stack;
      MarkedFits(before);
      stack := stack[..|stack| - 1];
      if seen[b] {
        SearchedPop(g, before, stack0);
      } else {
        seen[b] := true;
        assert seen[..] == before[b := true];
        MarkOne(before, b);
        MarkedFits(seen[..]);
        stack := stack + g[b].succs;
        SearchedStep(g, before, stack0);
      }
    }
    reachable := seen[..];
    SearchedAll(g, reachable);
  }

  lemma EntryReachable(g: Graph)
    requires |g| > 0
    ensures Reachable(g, ENTRY)
  {
    assert Walk(g, [ENTRY]);
  }

  lemma SearchedPop(g: Graph, seen: seq<bool>, stack: seq<nat>)
    requires Searched(g, seen, stack) && stack != [] && seen[stack[|stack| - 1]]
    ensures Searched(g, seen, stack[..|stack| - 1])
  {
    forall b | 0 <= b < |g| && seen[b]
      ensures Pushed(g, seen, stack[..|stack| - 1], b)
    {
      assert Pushed(g, seen, stack, b);
    }
  }

  lemma SearchedStep(g: Graph, seen: seq<bool>, stack: seq<nat>)
    requires SuccsInRange(g) && Searched(g, seen, stack) && stack != []
    ensures var b := stack[|stack| - 1];
      Searched(g, seen[b := true], stack[..|stack| - 1] + g[b].succs)
  {
    hide Reachable;
    var b := stack[|stack| - 1];
    var rest := stack[..|stack| - 1] + g[b].succs;
    forall i | 0 <= i < |rest|
      ensures Reachable(g, rest[i]) && rest[i] < |g|
    {
      if i >= |stack| - 1 {
        assert rest[i] == g[b].succs[i - (|stack| - 1)];
        ReachableStep(g, b, rest[i]);
      }
    }
    var seen1 := seen[b := true];
    forall c | 0 <= c < |g| && seen1[c]
      ensures Pushed(g, seen1, rest, c)
    {
      if c != b {
        assert Pushed(g, seen, stack, c);
      }
    }
  }

  lemma SearchedAll(g: Graph, seen: seq<bool>)
    requires |g| > 0 && Searched(g, seen, []) && seen[ENTRY]
    ensures forall b | 0 <= b < |g| :: seen[b] <==> Reachable(g, b)
  {
    forall b | 0 <= b < |g| && Reachable(g, b)
      ensures seen[b]
    {
      var p :| Walk(g, p) && p[|p| - 1] == b;
      forall a, c | a in Marked(seen) && a < |g| && c in g[a].succs
        ensures c in Marked(seen)
      {
        assert Pushed(g, seen, [], a);
      }
      ReachableInside(g, Marked(seen), p);
    }
  }
}
