/** Control-flow graphs of one Python function: events, basic blocks, the walks
    that start at the entry block, and the traces those walks spell. */
module Cfg {
  import opened Wrappers

  datatype DefReport = DefReport(rhsHasEffect: bool)

  /** What one statement does to one local. */
  datatype EventKind =
    | Use(checkable: bool)
    | Def(report: Option<DefReport>)
    | WeakDef
    | Kill

  /** `loc` is the byte offset of the identifier the event is about. */
  datatype Event = Event(local: nat, kind: EventKind, loc: nat)

  type Trace = seq<Event>

  datatype BasicBlock = BasicBlock(events: Trace, succs: seq<nat>)

  type Graph = seq<BasicBlock>

  const ENTRY: nat := 0
  const EXIT: nat := 1
  const EMPTY: BasicBlock := BasicBlock([], [])

  /** A walk of the graph from the entry block. */
  ghost predicate Walk(g: Graph, p: seq<nat>) {
    && |p| > 0 && p[0] == ENTRY
    && (forall i :: 0 <= i < |p| ==> p[i] < |g|)
    && (forall i :: 0 <= i < |p| - 1 ==> p[i + 1] in g[p[i]].succs)
  }

  /** The events a walk has passed when it arrives at its last block. */
  ghost function Spell(g: Graph, p: seq<nat>): Trace
    requires forall i :: 0 <= i < |p| ==> p[i] < |g|
  {
    if |p| <= 1 then [] else Spell(g, p[..|p| - 1]) + g[p[|p| - 2]].events
  }

  /** Some walk arrives at the start of block `b` having spelled `t`. */
  ghost predicate Reaches(g: Graph, t: Trace, b: nat) {
    exists p :: Walk(g, p) && p[|p| - 1] == b && Spell(g, p) == t
  }

  /** Some walk spells `t`, possibly stopping part of the way through its last block. */
  ghost predicate Spells(g: Graph, t: Trace) {
    exists b: nat, t0, e :: Reaches(g, t0, b) && b < |g| && e <= g[b].events && t == t0 + e
  }

  lemma ReachesEntry(g: Graph)
    requires |g| > 0
    ensures Reaches(g, [], ENTRY)
  {
    assert Walk(g, [ENTRY]) && Spell(g, [ENTRY]) == [];
  }

  lemma ReachesInRange(g: Graph, t: Trace, b: nat)
    requires Reaches(g, t, b)
    ensures b < |g|
  {
  }

  lemma ReachesStep(g: Graph, t: Trace, a: nat, b: nat)
    requires Reaches(g, t, a) && a < |g| && b in g[a].succs && b < |g|
    ensures Reaches(g, t + g[a].events, b)
  {
    var p :| Walk(g, p) && p[|p| - 1] == a && Spell(g, p) == t;
    var q := p + [b];
    assert q[..|q| - 1] == p;
    forall i | 0 <= i < |q| - 1
      ensures q[i + 1] in g[q[i]].succs
    {
      if i < |p| - 1 {
        assert p[i + 1] in g[p[i]].succs;
      }
    }
    assert Walk(g, q);
  }

  lemma SpellsAtStart(g: Graph, t: Trace, b: nat)
    requires Reaches(g, t, b)
    ensures Spells(g, t)
  {
    ReachesInRange(g, t, b);
    assert [] <= g[b].events && t == t + [];
  }

  /** An assertion `inv` on blocks that holds initially and is carried along every
      edge holds of every trace that arrives at a block. */
  lemma {:induction false} ReachesInvariant(g: Graph, inv: iset<(nat, Trace)>, t: Trace, b: nat)
    requires (ENTRY, []) in inv
    requires forall a: nat, c, u :: a < |g| && c in g[a].succs && (a, u) in inv ==> (c, u + g[a].events) in inv
    requires Reaches(g, t, b)
    ensures (b, t) in inv
  {
    var p :| Walk(g, p) && p[|p| - 1] == b && Spell(g, p) == t;
    WalkInvariant(g, inv, p);
  }

  lemma {:induction false} WalkInvariant(g: Graph, inv: iset<(nat, Trace)>, p: seq<nat>)
    requires (ENTRY, []) in inv
    requires forall a: nat, c, u :: a < |g| && c in g[a].succs && (a, u) in inv ==> (c, u + g[a].events) in inv
    requires Walk(g, p)
    ensures (p[|p| - 1], Spell(g, p)) in inv
    decreases |p|
  {
    if |p| > 1 {
      var q := p[..|p| - 1];
      WalkInvariant(g, inv, q);
      var a := p[|p| - 2];
      assert q[|q| - 1] == a;
      assert p[|p| - 2 + 1] in g[a].succs;
      assert (p[|p| - 1], Spell(g, q) + g[a].events) in inv;
    }
  }
}
