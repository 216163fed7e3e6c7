/** Meet over all paths: what the least solutions of the two analyses mean for the
    walks of the graph. */
module Paths {
  import opened Cfg
  import opened LocalSets
  import opened Queries
  import opened Dataflow

  // ---- one local along one trace --------------------------------------

  /** Whether `x` is unbound after `t`, having been so before if `base`. */
  predicate UnboundFrom(base: bool, t: Trace, x: nat) {
    if t == [] then base
    else
      var e := t[|t| - 1];
      if e.local == x && !e.kind.Use? then e.kind.Kill? else UnboundFrom(base, t[..|t| - 1], x)
  }

  /** Unbound at the end of `t`: the last binding or deletion of `x` is a deletion, or
      there is none and `x` is not a parameter. */
  predicate Unbound(params: seq<nat>, t: Trace, x: nat) {
    UnboundFrom(x !in params, t, x)
  }

  /** Whether the value `x` has before `t` may be read, knowing it is read after `t`
      just if `base`: a definition or deletion ends its life, a weak one does not. */
  predicate LiveBefore(base: bool, t: Trace, x: nat) {
    if t == [] then base
    else
      var e := t[0];
      if e.local == x && !e.kind.WeakDef? then e.kind.Use? else LiveBefore(base, t[1..], x)
  }

  /** `t` reads the value `x` has before it. */
  predicate ReadsFirst(t: Trace, x: nat) {
    LiveBefore(false, t, x)
  }

  lemma {:induction false} UnboundConcat(base: bool, t: Trace, u: Trace, x: nat)
    ensures UnboundFrom(base, t + u, x) == UnboundFrom(UnboundFrom(base, t, x), u, x)
  {
    if u == [] {
      assert t + u == t;
    } else {
      assert (t + u)[..|t + u| - 1] == t + u[..|u| - 1];
      UnboundConcat(base, t, u[..|u| - 1], x);
    }
  }

  lemma {:induction false} LiveConcat(base: bool, t: Trace, u: Trace, x: nat)
    ensures LiveBefore(base, t + u, x) == LiveBefore(LiveBefore(base, u, x), t, x)
  {
    if t == [] {
      assert t + u == u;
    } else {
      assert (t + u)[1..] == t[1..] + u;
      LiveConcat(base, t[1..], u, x);
    }
  }

  lemma {:induction false} UnboundMono(base: bool, t: Trace, x: nat)
    ensures UnboundFrom(base, t, x) ==> UnboundFrom(true, t, x)
    ensures UnboundFrom(false, t, x) ==> UnboundFrom(base, t, x)
  {
    if t != [] {
      UnboundMono(base, t[..|t| - 1], x);
    }
  }

  lemma {:induction false} LiveMono(base: bool, t: Trace, x: nat)
    ensures LiveBefore(base, t, x) ==> LiveBefore(true, t, x)
    ensures LiveBefore(false, t, x) ==> LiveBefore(base, t, x)
  {
    if t != [] {
      LiveMono(base, t[1..], x);
    }
  }

  lemma {:induction false} TransferUnbound(t: Trace, s: set<nat>, x: nat)
    ensures x in TransferAll(MayUnbound, t, s) <==> UnboundFrom(x in s, t, x)
  {
    if t != [] {
      TransferUnbound(t[..|t| - 1], s, x);
    }
  }

  lemma {:induction false} TransferLive(t: Trace, s: set<nat>, x: nat)
    ensures x in TransferAll(Liveness, Reverse(t), s) <==> LiveBefore(x in s, t, x)
  {
    if t != [] {
      assert Reverse(t)[..|t| - 1] == Reverse(t[1..]);
      TransferLive(t[1..], s, x);
    }
  }

  // ---- may-unbound ----------------------------------------------------

  /** Some walk arrives at `b` with `x` unbound. */
  ghost predicate UnboundWalk(c: FunctionCfg, b: nat, x: nat) {
    exists t :: Reaches(c.blocks, t, b) && Unbound(c.params, t, x)
  }

  lemma OutUnbound(c: FunctionCfg, facts: Facts, b: nat, x: nat)
    requires b < |c.blocks|
    ensures x in OutFact(MayUnbound, c, facts, b) <==>
      UnboundFrom(x in InFact(MayUnbound, c, facts, b), c.blocks[b].events, x)
  {
    TransferUnbound(c.blocks[b].events, InFact(MayUnbound, c, facts, b), x);
  }

  lemma InUnbound(c: FunctionCfg, facts: Facts, b: nat, x: nat)
    requires CfgOk(c) && b < |c.blocks| == |facts|
    ensures x in InFact(MayUnbound, c, facts, b) <==>
      || (b == ENTRY && x < c.locals && x !in c.params)
      || (exists p: nat :: p < |c.blocks| && b in c.blocks[p].succs && Reachable(c.blocks, p) && x in facts[p])
  {
    InRange(c.locals, x);
    InGather(facts, Sources(MayUnbound, c, b), x);
    forall p: nat
      ensures p in Sources(MayUnbound, c, b) <==> p < |c.blocks| && b in c.blocks[p].succs && Reachable(c.blocks, p)
    {
      InPreds(c.blocks, b, p);
    }
  }

  /** What a walk finds unbound is in the fact at the start of the block it arrives at. */
  lemma {:induction false} WalksUnbound(c: FunctionCfg, facts: Facts, b: nat, x: nat, t: Trace)
    requires CfgOk(c) && Solves(MayUnbound, c, facts) && x < c.locals
    requires Reaches(c.blocks, t, b) && Unbound(c.params, t, x)
    ensures b < |c.blocks| && x in InFact(MayUnbound, c, facts, b)
  {
    hide Reaches;
    var inv := UnboundInv(c, facts, x);
    ReachesEntry(c.blocks);
    InUnbound(c, facts, ENTRY, x);
    forall a: nat, d, u | a < |c.blocks| && d in c.blocks[a].succs && (a, u) in inv
      ensures (d, u + c.blocks[a].events) in inv
    {
      UnboundInvStep(c, facts, x, a, d, u);
    }
    ReachesInvariant(c.blocks, inv, t, b);
  }

  ghost function UnboundInv(c: FunctionCfg, facts: Facts, x: nat): iset<(nat, Trace)>
  {
    iset p: (nat, Trace) | p.0 < |c.blocks| && Reaches(c.blocks, p.1, p.0) &&
      (Unbound(c.params, p.1, x) ==> x in InFact(MayUnbound, c, facts, p.0))
  }

  lemma UnboundInvStep(c: FunctionCfg, facts: Facts, x: nat, a: nat, d: nat, u: Trace)
    requires CfgOk(c) && Solves(MayUnbound, c, facts) && x < c.locals
    requires a < |c.blocks| && d in c.blocks[a].succs && (a, u) in UnboundInv(c, facts, x)
    ensures (d, u + c.blocks[a].events) in UnboundInv(c, facts, x)
  {
    hide Reaches, InFact, OutFact;
    var ev := c.blocks[a].events;
    assert d < |c.blocks|;
    ReachesStep(c.blocks, u, a, d);
    if Unbound(c.params, u + ev, x) {
      UnboundConcat(x !in c.params, u, ev, x);
      UnboundMono(x in InFact(MayUnbound, c, facts, a), ev, x);
      OutUnbound(c, facts, a, x);
      assert Fixed(MayUnbound, c, facts, a);
      ReachableTraces(c.blocks, a);
      InUnbound(c, facts, d, x);
    }
  }

  /** The facts the walks give, with everything at blocks no walk reaches. */
  ghost function WalkFacts(c: FunctionCfg): Facts {
    seq(|c.blocks|, b requires 0 <= b < |c.blocks| => set x | x in Range(c.locals) && LeavesUnbound(c, b, x))
  }

  ghost predicate LeavesUnbound(c: FunctionCfg, b: nat, x: nat)
    requires b < |c.blocks|
  {
    !Reachable(c.blocks, b) ||
    exists t :: Reaches(c.blocks, t, b) && Unbound(c.params, t + c.blocks[b].events, x)
  }

  lemma WalkFactsAt(c: FunctionCfg, b: nat, x: nat)
    requires b < |c.blocks|
    ensures x in WalkFacts(c)[b] <==> x < c.locals && LeavesUnbound(c, b, x)
  {
    InRange(c.locals, x);
  }

  lemma WalkFactsIn(c: FunctionCfg, b: nat, x: nat)
    requires CfgOk(c) && b < |c.blocks| && x in InFact(MayUnbound, c, WalkFacts(c), b)
    ensures x < c.locals && UnboundWalk(c, b, x)
  {
    hide Reaches, InFact, Reachable;
    InUnbound(c, WalkFacts(c), b, x);
    if b == ENTRY && x < c.locals && x !in c.params {
      ReachesEntry(c.blocks);
      assert Unbound(c.params, [], x);
    } else {
      var p: nat :| p < |c.blocks| && b in c.blocks[p].succs && Reachable(c.blocks, p) && x in WalkFacts(c)[p];
      WalkFactsAt(c, p, x);
      var t :| Reaches(c.blocks, t, p) && Unbound(c.params, t + c.blocks[p].events, x);
      ReachesStep(c.blocks, t, p, b);
    }
  }

  lemma WalkFactsClosed(c: FunctionCfg)
    requires CfgOk(c)
    ensures PreSolves(MayUnbound, c, WalkFacts(c))
  {
    forall b | 0 <= b < |c.blocks|
      ensures Covers(MayUnbound, c, WalkFacts(c), b)
    {
      forall x | x in OutFact(MayUnbound, c, WalkFacts(c), b)
        ensures x in WalkFacts(c)[b]
      {
        WalkFactsCover(c, b, x);
      }
    }
  }

  lemma WalkFactsCover(c: FunctionCfg, b: nat, x: nat)
    requires CfgOk(c) && b < |c.blocks| && x in OutFact(MayUnbound, c, WalkFacts(c), b)
    ensures x in WalkFacts(c)[b]
  {
    hide Reaches, InFact, OutFact, Reachable;
    var facts, ev := WalkFacts(c), c.blocks[b].events;
    WalkFactsFit(c);
    OutFits(MayUnbound, c, facts, b);
    InRange(c.locals, x);
    WalkFactsAt(c, b, x);
    OutUnbound(c, facts, b, x);
    if Reachable(c.blocks, b) {
      var t;
      if x in InFact(MayUnbound, c, facts, b) {
        WalkFactsIn(c, b, x);
        t :| Reaches(c.blocks, t, b) && Unbound(c.params, t, x);
      } else {
        ReachableTraces(c.blocks, b);
        t :| Reaches(c.blocks, t, b);
      }
      UnboundConcat(x !in c.params, t, ev, x);
      UnboundMono(Unbound(c.params, t, x), ev, x);
    }
  }

  lemma WalkFactsFit(c: FunctionCfg)
    ensures Fits(WalkFacts(c), c.locals)
  {
  }

  /** May-unbound is exact: a local is in the fact at the start of a block just when
      some walk from the entry arrives there with the local unbound. */
  lemma UnboundMeetsPaths(c: FunctionCfg, facts: Facts, b: nat, x: nat)
    requires CfgOk(c) && LeastSolution(MayUnbound, c, facts) && b < |c.blocks|
    ensures x in InFact(MayUnbound, c, facts, b) <==> x < c.locals && UnboundWalk(c, b, x)
  {
    hide Reaches, InFact, OutFact;
    if x in InFact(MayUnbound, c, facts, b) {
      WalkFactsClosed(c);
      OutMono(MayUnbound, c, facts, WalkFacts(c), b);
      WalkFactsIn(c, b, x);
    }
    if x < c.locals && UnboundWalk(c, b, x) {
      var t :| Reaches(c.blocks, t, b) && Unbound(c.params, t, x);
      WalksUnbound(c, facts, b, x, t);
    }
  }

  // ---- liveness -------------------------------------------------------

  /** A path of the graph from `b`. */
  ghost predicate PathFrom(g: Graph, p: seq<nat>, b: nat) {
    && |p| > 0 && p[0] == b
    && (forall i | 0 <= i < |p| :: p[i] < |g|)
    && (forall i | 0 <= i < |p| - 1 :: p[i + 1] in g[p[i]].succs)
  }

  /** All the events of the blocks of `p`. */
  ghost function SpellAll(g: Graph, p: seq<nat>): Trace
    requires forall i | 0 <= i < |p| :: p[i] < |g|
  {
    if p == [] then [] else g[p[0]].events + SpellAll(g, p[1..])
  }

  /** Some path that starts with block `b` reads the value `x` has at its start. */
  ghost predicate ReadPath(g: Graph, b: nat, x: nat) {
    exists p :: PathFrom(g, p, b) && ReadsFirst(SpellAll(g, p), x)
  }

  lemma OutLive(c: FunctionCfg, facts: Facts, b: nat, x: nat)
    requires b < |c.blocks|
    ensures x in OutFact(Liveness, c, facts, b) <==>
      LiveBefore(x in InFact(Liveness, c, facts, b), c.blocks[b].events, x)
  {
    TransferLive(c.blocks[b].events, InFact(Liveness, c, facts, b), x);
  }

  lemma InLive(c: FunctionCfg, facts: Facts, b: nat, x: nat)
    requires CfgOk(c) && b < |c.blocks| == |facts|
    ensures x in InFact(Liveness, c, facts, b) <==> exists s :: s in c.blocks[b].succs && s < |facts| && x in facts[s]
  {
    InGather(facts, c.blocks[b].succs, x);
  }

  lemma {:induction false} PathsLive(c: FunctionCfg, facts: Facts, p: seq<nat>, b: nat, x: nat)
    requires CfgOk(c) && Solves(Liveness, c, facts) && PathFrom(c.blocks, p, b) && ReadsFirst(SpellAll(c.blocks, p), x)
    ensures x in facts[b]
    decreases |p|
  {
    hide InFact, OutFact;
    var ev, rest := c.blocks[b].events, p[1..];
    LiveConcat(false, ev, SpellAll(c.blocks, rest), x);
    assert Fixed(Liveness, c, facts, b);
    OutLive(c, facts, b, x);
    LiveMono(x in InFact(Liveness, c, facts, b), ev, x);
    if ReadsFirst(SpellAll(c.blocks, rest), x) && rest != [] {
      assert PathFrom(c.blocks, rest, p[1]) by {
        assert p[0 + 1] in c.blocks[p[0]].succs;
        forall i | 0 <= i < |rest| - 1
          ensures rest[i + 1] in c.blocks[rest[i]].succs
        {
          assert p[i + 1 + 1] in c.blocks[p[i + 1]].succs;
        }
      }
      PathsLive(c, facts, rest, p[1], x);
      InLive(c, facts, b, x);
      assert p[0 + 1] in c.blocks[b].succs;
    }
  }

  ghost function PathFacts(c: FunctionCfg): Facts {
    seq(|c.blocks|, b requires 0 <= b < |c.blocks| => set x | x in Range(c.locals) && ReadPath(c.blocks, b, x))
  }

  lemma PathCons(g: Graph, b: nat, s: nat, q: seq<nat>)
    requires b < |g| && s in g[b].succs && PathFrom(g, q, s)
    ensures PathFrom(g, [b] + q, b) && SpellAll(g, [b] + q) == g[b].events + SpellAll(g, q)
  {
    var p := [b] + q;
    assert p[1..] == q;
    forall i | 0 <= i < |p| - 1
      ensures p[i + 1] in g[p[i]].succs
    {
      if i > 0 {
        assert q[i - 1 + 1] in g[q[i - 1]].succs;
      }
    }
  }

  lemma PathFactsCover(c: FunctionCfg, b: nat, x: nat)
    requires CfgOk(c) && b < |c.blocks| && x in OutFact(Liveness, c, PathFacts(c), b)
    ensures x in PathFacts(c)[b]
  {
    hide InFact, OutFact;
    var facts, ev := PathFacts(c), c.blocks[b].events;
    assert Fits(facts, c.locals);
    OutFits(Liveness, c, facts, b);
    OutLive(c, facts, b, x);
    InLive(c, facts, b, x);
    var p;
    if x in InFact(Liveness, c, facts, b) {
      var s :| s in c.blocks[b].succs && s < |facts| && x in facts[s];
      var q :| PathFrom(c.blocks, q, s) && ReadsFirst(SpellAll(c.blocks, q), x);
      PathCons(c.blocks, b, s, q);
      LiveConcat(false, ev, SpellAll(c.blocks, q), x);
      p := [b] + q;
    } else {
      p := [b];
      assert SpellAll(c.blocks, [b]) == ev + [] == ev;
    }
    assert PathFrom(c.blocks, p, b) && ReadsFirst(SpellAll(c.blocks, p), x);
  }

  /** Liveness is exact: a local is live at the start of a block just when some path
      from there reads the value it has there. */
  lemma LiveMeetsPaths(c: FunctionCfg, facts: Facts, b: nat, x: nat)
    requires CfgOk(c) && LeastSolution(Liveness, c, facts) && b < |c.blocks|
    ensures x in facts[b] <==> ReadPath(c.blocks, b, x)
  {
    hide InFact, OutFact;
    forall a | 0 <= a < |c.blocks|
      ensures Covers(Liveness, c, PathFacts(c), a)
    {
      forall y | y in OutFact(Liveness, c, PathFacts(c), a)
        ensures y in PathFacts(c)[a]
      {
        PathFactsCover(c, a, y);
      }
      CoversIntro(c, PathFacts(c), a);
    }
    assert PreSolves(Liveness, c, PathFacts(c));
    assert Under(facts, PathFacts(c));
    if ReadPath(c.blocks, b, x) {
      var p :| PathFrom(c.blocks, p, b) && ReadsFirst(SpellAll(c.blocks, p), x);
      PathsLive(c, facts, p, b, x);
    }
  }

  lemma CoversIntro(c: FunctionCfg, f: Facts, b: nat)
    requires b < |c.blocks| == |f| && forall x | x in OutFact(Liveness, c, f, b) :: x in f[b]
    ensures Covers(Liveness, c, f, b)
  {
  }
}
