/** Unreachable blocks do not matter: emptying them changes no fact of either analysis at
    a block that can be reached. */
module Pruning {
  import opened Cfg
  import opened Queries
  import opened Dataflow
  import opened Paths

  ghost function Prune(g: Graph): Graph {
    seq(|g|, b requires 0 <= b < |g| => if Reachable(g, b) then g[b] else EMPTY)
  }

  ghost function PruneCfg(c: FunctionCfg): FunctionCfg {
    c.(blocks := Prune(c.blocks))
  }

  lemma PruneOk(c: FunctionCfg)
    requires CfgOk(c)
    ensures CfgOk(PruneCfg(c))
  {
    hide Reachable;
    var g := Prune(c.blocks);
    forall b, i | 0 <= b < |g| && 0 <= i < |g[b].succs|
      ensures g[b].succs[i] < |g|
    {
      assert c.blocks[b].succs[i] < |g|;
    }
  }

  /** A path from a reachable block stays in reachable blocks. */
  lemma {:induction false} PathPruned(g: Graph, p: seq<nat>, b: nat)
    requires b < |g| && Reachable(g, b) && SuccsInRange(g)
    ensures PathFrom(g, p, b) <==> PathFrom(Prune(g), p, b)
    ensures PathFrom(g, p, b) ==> SpellAll(g, p) == SpellAll(Prune(g), p)
    decreases |p|
  {
    hide Reachable;
    if |p| > 0 && p[0] == b {
      if |p| == 1 {
        assert p == [b];
        assert [b][1..] == [];
      } else {
        PathTail(g, p, b);
        PathTail(Prune(g), p, b);
        if p[1] in g[b].succs {
          ReachableStep(g, b, p[1]);
          PathPruned(g, p[1..], p[1]);
        }
      }
    }
  }

  lemma PathTail(g: Graph, p: seq<nat>, b: nat)
    requires |p| > 1 && p[0] == b && b < |g|
    ensures PathFrom(g, p, b) <==> p[1] in g[b].succs && PathFrom(g, p[1..], p[1])
  {
    var q := p[1..];
    if PathFrom(g, p, b) {
      assert p[0 + 1] in g[p[0]].succs;
      forall i | 0 <= i < |q| - 1
        ensures q[i + 1] in g[q[i]].succs
      {
        assert p[i + 1 + 1] in g[p[i + 1]].succs;
      }
    }
    if p[1] in g[b].succs && PathFrom(g, q, p[1]) {
      forall i | 0 <= i < |p| - 1
        ensures p[i + 1] in g[p[i]].succs
      {
        assert i > 0 ==> q[i - 1 + 1] in g[q[i - 1]].succs;
      }
      forall i | 0 <= i < |p|
        ensures p[i] < |g|
      {
        assert i > 0 ==> p[i] == q[i - 1];
      }
    }
  }

  lemma {:induction false} SpellPruned(g: Graph, p: seq<nat>)
    requires |g| > 0 && SuccsInRange(g)
    ensures Walk(g, p) <==> Walk(Prune(g), p)
    ensures Walk(g, p) ==> Spell(g, p) == Spell(Prune(g), p)
  {
    EntryReachable(g);
    PathPruned(g, p, ENTRY);
    assert Walk(g, p) <==> PathFrom(g, p, ENTRY);
    assert Walk(Prune(g), p) <==> PathFrom(Prune(g), p, ENTRY);
    if Walk(g, p) {
      WalkSpells(g, p, |p|);
      assert p[..|p|] == p;
    }
  }

  lemma {:induction false} WalkSpells(g: Graph, p: seq<nat>, n: nat)
    requires |g| > 0 && SuccsInRange(g) && Walk(g, p) && 0 < n <= |p|
    ensures Reachable(g, p[n - 1]) && Spell(g, p[..n]) == Spell(Prune(g), p[..n])
  {
    hide Reachable;
    if n == 1 {
      EntryReachable(g);
    } else {
      WalkSpells(g, p, n - 1);
      assert p[n - 2 + 1] in g[p[n - 2]].succs;
      ReachableStep(g, p[n - 2], p[n - 1]);
      assert p[..n][..n - 1] == p[..n - 1];
    }
  }

  lemma ReachesPruned(g: Graph, t: Trace, b: nat)
    requires |g| > 0 && SuccsInRange(g)
    ensures Reaches(g, t, b) <==> Reaches(Prune(g), t, b)
  {
    hide Spell, Prune;
    PruneSize(g);
    if Reaches(g, t, b) {
      var p :| Walk(g, p) && p[|p| - 1] == b && Spell(g, p) == t;
      SpellPruned(g, p);
      assert Walk(Prune(g), p);
    }
    if Reaches(Prune(g), t, b) {
      var p :| Walk(Prune(g), p) && p[|p| - 1] == b && Spell(Prune(g), p) == t;
      SpellPruned(g, p);
      assert Walk(g, p);
    }
  }

  lemma UnboundPruned(c: FunctionCfg, facts: Facts, facts': Facts, b: nat, x: nat)
    requires CfgOk(c) && LeastSolution(MayUnbound, c, facts) && LeastSolution(MayUnbound, PruneCfg(c), facts')
    requires b < |c.blocks|
    ensures x in InFact(MayUnbound, c, facts, b) <==> x in InFact(MayUnbound, PruneCfg(c), facts', b)
  {
    hide Reaches, InFact, Prune, LeastSolution, CfgOk;
    PruneOk(c);
    PruneSize(c.blocks);
    UnboundMeetsPaths(c, facts, b, x);
    UnboundMeetsPaths(PruneCfg(c), facts', b, x);
    forall t
      ensures Reaches(c.blocks, t, b) <==> Reaches(Prune(c.blocks), t, b)
    {
      PruneInRange(c);
      ReachesPruned(c.blocks, t, b);
    }
  }

  lemma PruneSize(g: Graph)
    ensures |Prune(g)| == |g|
  {
  }

  lemma PruneInRange(c: FunctionCfg)
    requires CfgOk(c)
    ensures |c.blocks| > 0 && SuccsInRange(c.blocks)
  {
  }

  lemma LivePruned(c: FunctionCfg, facts: Facts, facts': Facts, b: nat, x: nat)
    requires CfgOk(c) && LeastSolution(Liveness, c, facts) && LeastSolution(Liveness, PruneCfg(c), facts')
    requires b < |c.blocks| && Reachable(c.blocks, b)
    ensures b < |facts| == |facts'| && (x in facts[b] <==> x in facts'[b])
  {
    hide ReadsFirst, InFact, OutFact, CfgOk, Reachable;
    PruneOk(c);
    LiveMeetsPaths(c, facts, b, x);
    LiveMeetsPaths(PruneCfg(c), facts', b, x);
    PruneInRange(c);
    var g := c.blocks;
    if ReadPath(g, b, x) {
      var p :| PathFrom(g, p, b) && ReadsFirst(SpellAll(g, p), x);
      PathPruned(g, p, b);
      assert PathFrom(Prune(g), p, b) && ReadsFirst(SpellAll(Prune(g), p), x);
    }
    if ReadPath(Prune(g), b, x) {
      var p :| PathFrom(Prune(g), p, b) && ReadsFirst(SpellAll(Prune(g), p), x);
      PathPruned(g, p, b);
      assert PathFrom(g, p, b) && ReadsFirst(SpellAll(g, p), x);
    }
  }

  /** Both facts of every reachable block survive the pruning. */
  lemma PruneKeepsFacts(pr: Problem, c: FunctionCfg, facts: Facts, facts': Facts, b: nat)
    requires CfgOk(c) && LeastSolution(pr, c, facts) && LeastSolution(pr, PruneCfg(c), facts')
    requires b < |c.blocks| && Reachable(c.blocks, b)
    ensures b < |facts| == |facts'| && |Prune(c.blocks)| == |c.blocks|
    ensures facts[b] == facts'[b] && InFact(pr, c, facts, b) == InFact(pr, PruneCfg(c), facts', b)
  {
    hide Reachable, CfgOk, BelowAll, InFact, TransferAll, InOrder;
    PruneOk(c);
    PruneInRange(c);
    assert Fixed(pr, c, facts, b) && Fixed(pr, PruneCfg(c), facts', b);
    assert PruneCfg(c).blocks[b] == c.blocks[b];
    if pr.MayUnbound? {
      forall x: nat
        ensures x in InFact(pr, c, facts, b) <==> x in InFact(pr, PruneCfg(c), facts', b)
      {
        UnboundPruned(c, facts, facts', b, x);
      }
      assert InFact(pr, c, facts, b) == InFact(pr, PruneCfg(c), facts', b);
    } else {
      forall x: nat
        ensures x in facts[b] <==> x in facts'[b]
      {
        LivePruned(c, facts, facts', b, x);
      }
      forall x: nat
        ensures x in InFact(pr, c, facts, b) <==> x in InFact(pr, PruneCfg(c), facts', b)
      {
        LiveInPruned(c, facts, facts', b, x);
      }
    }
  }

  lemma LiveInPruned(c: FunctionCfg, facts: Facts, facts': Facts, b: nat, x: nat)
    requires CfgOk(c) && LeastSolution(Liveness, c, facts) && LeastSolution(Liveness, PruneCfg(c), facts')
    requires b < |c.blocks| && Reachable(c.blocks, b)
    ensures x in InFact(Liveness, c, facts, b) <==> x in InFact(Liveness, PruneCfg(c), facts', b)
  {
    hide Reachable, InFact, OutFact, BelowAll;
    PruneOk(c);
    InLive(c, facts, b, x);
    InLive(PruneCfg(c), facts', b, x);
    forall s | s in c.blocks[b].succs
      ensures s < |facts| == |facts'| && (x in facts[s] <==> x in facts'[s])
    {
      ReachableStep(c.blocks, b, s);
      LivePruned(c, facts, facts', s, x);
    }
  }
}
