/** The worklist over bitsets, and the replay of the solved facts event by event. */
module Solver {
  import opened Cfg
  import opened LocalSets
  import opened Queries
  import opened Dataflow

  /** Two facts for every block, at its two ends, whichever way the analysis runs. */
  datatype Solution = Solution(atStart: seq<LocalSet>, atEnd: seq<LocalSet>)

  method BoundarySet(pr: Problem, c: FunctionCfg) returns (s: LocalSet)
    requires CfgOk(c)
    ensures fresh(s) && |s.words| == Words(c.locals) && s.Model() == Boundary(pr, c)
  {
    if pr.Liveness? {
      s := new LocalSet.Empty(c.locals);
    } else {
      s := new LocalSet.Full(c.locals);
      for i := 0 to |c.params|
        invariant |s.words| == Words(c.locals) && s.Model() == Range(c.locals) - Elements(c.params[..i])
      {
        assert Elements(c.params[..i + 1]) == Elements(c.params[..i]) + {c.params[i]};
        s.Remove(c.params[i]);
      }
      assert c.params[..|c.params|] == c.params;
    }
  }

  method Apply(pr: Problem, e: Event, state: LocalSet)
    requires e.local < 64 * |state.words|
    modifies state
    ensures |state.words| == old(|state.words|) && state.Model() == Transfer(pr, e, old(state.Model()))
  {
    match pr
    case Liveness =>
      match e.kind {
        case Use(_) => state.Insert(e.local);
        case Def(_) => state.Remove(e.local);
        case Kill => state.Remove(e.local);
        case WeakDef =>
      }
    case MayUnbound =>
      match e.kind {
        case Use(_) =>
        case Def(_) => state.Remove(e.local);
        case WeakDef => state.Remove(e.local);
        case Kill => state.Insert(e.local);
      }
  }

  /** The two lists a visit needs for each block: the blocks its fact comes from and the
      blocks its fact goes to. */
  method Flows(pr: Problem, c: FunctionCfg) returns (sources: seq<seq<nat>>, targets: seq<seq<nat>>)
    requires CfgOk(c)
    ensures |sources| == |targets| == |c.blocks|
    ensures forall b | 0 <= b < |c.blocks| :: sources[b] == Sources(pr, c, b) && targets[b] == Targets(pr, c, b)
  {
    var preds := Preds(c.blocks);
    var succs := seq(|c.blocks|, b requires 0 <= b < |c.blocks| => c.blocks[b].succs);
    if pr.Liveness? {
      sources, targets := succs, preds;
    } else {
      sources := ReachablePreds(c.blocks, preds);
      targets := succs;
    }
  }

  method ReachablePreds(g: Graph, preds: seq<seq<nat>>) returns (kept: seq<seq<nat>>)
    requires |g| > 0 && SuccsInRange(g) && |preds| == |g|
    ensures |kept| == |g| && forall b | 0 <= b < |g| :: kept[b] == OnlyReachable(g, preds[b])
  {
    hide OnlyReachable;
    var reachable := Reach(g);
    kept := [];
    for b := 0 to |g|
      invariant |kept| == b && forall x | 0 <= x < b :: kept[x] == OnlyReachable(g, preds[x])
    {
      var ps := KeepReachable(g, preds[b], reachable);
      kept := kept + [ps];
    }
  }

  method KeepReachable(g: Graph, ps: seq<nat>, reachable: seq<bool>) returns (kept: seq<nat>)
    requires |reachable| == |g| && forall b | 0 <= b < |g| :: reachable[b] <==> Reachable(g, b)
    ensures kept == OnlyReachable(g, ps)
  {
    kept := [];
    for i := 0 to |ps|
      invariant kept == OnlyReachable(g, ps[..i])
    {
      assert ps[..i + 1][..i] == ps[..i];
      UnreachableOutside(g, ps[i]);
      if ps[i] < |reachable| && reachable[ps[i]] {
        kept := kept + [ps[i]];
      }
    }
    assert ps[..|ps|] == ps;
  }

  lemma UnreachableOutside(g: Graph, b: nat)
    ensures Reachable(g, b) ==> b < |g|
  {
  }

  /** The set `into` is about to take: the boundary and the facts of the sources. */
  method MeetSources(pr: Problem, c: FunctionCfg, boundary: LocalSet, sources: seq<nat>, from: seq<LocalSet>, b: nat, ghost facts: Facts)
      returns (state: LocalSet)
    requires CfgOk(c) && b < |c.blocks| == |facts| && sources == Sources(pr, c, b)
    requires |boundary.words| == Words(c.locals) && boundary.Model() == Boundary(pr, c)
    requires Holds(from, facts, c.locals) && Fits(facts, c.locals)
    ensures fresh(state) && |state.words| == Words(c.locals) && state.Model() == InFact(pr, c, facts, b)
  {
    hide Gather, Members, Sources, Below;
    if b == BoundaryBlock(pr) {
      state := new LocalSet.Clone(boundary);
    } else {
      state := new LocalSet.Empty(c.locals);
    }
    ghost var start := state.Model();
    GatherNone(facts);
    for i := 0 to |sources|
      invariant |state.words| == Words(c.locals) && state.Model() == start + Gather(facts, sources[..i])
      invariant Holds(from, facts, c.locals)
      modifies state
    {
      var p := sources[i];
      SourcesAre(pr, c, b, p);
      GatherNext(facts, sources, i);
      BelowCapacity(from[p].words, c.locals, |state.words|);
      var grew := state.UnionWith(from[p]);
    }
    assert sources[..|sources|] == sources;
  }

  lemma GatherNone(facts: Facts)
    ensures Gather(facts, []) == {}
  {
  }

  lemma GatherNext(facts: Facts, ps: seq<nat>, i: nat)
    requires i < |ps| && ps[i] < |facts|
    ensures Gather(facts, ps[..i + 1]) == Gather(facts, ps[..i]) + facts[ps[i]]
  {
    assert ps[..i + 1][..i] == ps[..i];
  }

  /** `sets` hold `facts`. */
  ghost predicate Holds(sets: seq<LocalSet>, facts: Facts, n: nat)
    reads sets
  {
    |sets| == |facts| && forall b | 0 <= b < |sets| :: |sets[b].words| == Words(n) && sets[b].Model() == facts[b]
  }

  lemma BelowCapacity(ws: seq<bv64>, n: nat, k: nat)
    requires Words(n) == k && Members(ws) <= Range(n)
    ensures Below(ws, k) == Members(ws)
  {
    forall id | id in Members(ws)
      ensures id < 64 * k
    {
      InRange(n, id);
    }
  }

  method ApplyAll(pr: Problem, events: Trace, state: LocalSet, n: nat)
    requires LocalsOk(events, n) && |state.words| == Words(n)
    modifies state
    ensures |state.words| == Words(n) && state.Model() == TransferAll(pr, events, old(state.Model()))
  {
    for i := 0 to |events|
      invariant |state.words| == Words(n) && state.Model() == TransferAll(pr, events[..i], old(state.Model()))
    {
      assert events[..i + 1][..i] == events[..i];
      Apply(pr, events[i], state);
    }
    assert events[..|events|] == events;
  }

  /** Queues the targets of a block whose fact has changed. */
  method Enqueue(targets: seq<nat>, queued: array<bool>, queue0: seq<nat>) returns (queue: seq<nat>)
    requires forall i | 0 <= i < |targets| :: targets[i] < queued.Length
    requires Queue(queued[..], queue0)
    modifies queued
    ensures Queue(queued[..], queue) && |queue| <= |queue0| + |targets|
    ensures forall x | 0 <= x < queued.Length :: queued[x] <==> old(queued[x]) || x in targets
  {
    queue := queue0;
    for i := 0 to |targets|
      invariant Queue(queued[..], queue) && |queue| <= |queue0| + i
      invariant forall x | 0 <= x < queued.Length :: queued[x] <==> old(queued[x]) || x in targets[..i]
    {
      var s := targets[i];
      ghost var before, queue1 := queued[..], queue;
      if !queued[s] {
        queued[s] := true;
        queue := queue + [s];
        QueueMore(before, queue1, s);
        assert queued[..] == before[s := true];
      }
      assert targets[..i + 1] == targets[..i] + [s];
    }
    assert targets[..|targets|] == targets;
  }

  lemma QueueMore(queued: seq<bool>, queue: seq<nat>, s: nat)
    requires Queue(queued, queue) && s < |queued|
    ensures Queue(queued[s := true], queue + [s])
  {
  }

  lemma QueuePop(queued: seq<bool>, queue: seq<nat>)
    requires Queue(queued, queue) && queue != []
    ensures Queue(queued[queue[0] := false], queue[1..])
  {
  }

  /** The facts that now enter and leave block `b`. */
  method NewFacts(pr: Problem, c: FunctionCfg, boundary: LocalSet, sources: seq<nat>, from: seq<LocalSet>, b: nat, ghost facts: Facts)
      returns (met: LocalSet, state: LocalSet)
    requires CfgOk(c) && b < |c.blocks| == |facts| && sources == Sources(pr, c, b)
    requires |boundary.words| == Words(c.locals) && boundary.Model() == Boundary(pr, c)
    requires Holds(from, facts, c.locals) && Fits(facts, c.locals)
    ensures fresh(met) && |met.words| == Words(c.locals) && met.Model() == InFact(pr, c, facts, b)
    ensures fresh(state) && |state.words| == Words(c.locals) && state.Model() == OutFact(pr, c, facts, b)
  {
    hide InFact, Members, Sources;
    state := MeetSources(pr, c, boundary, sources, from, b, facts);
    met := new LocalSet.Clone(state);
    OutFits(pr, c, facts, b);
    InOrderOk(pr, c.blocks[b].events, c.locals);
    ApplyAll(pr, InOrder(pr, c.blocks[b].events), state, c.locals);
  }

  /** One visit: the facts that enter and leave block `b` are computed anew, and its
      targets queued if the fact that leaves it has changed. */
  method VisitBlock(pr: Problem, c: FunctionCfg, boundary: LocalSet, sources: seq<nat>, targets: seq<nat>,
                    into: array<LocalSet>, from: array<LocalSet>, queued: array<bool>, queue0: seq<nat>, b: nat,
                    ghost facts: Facts, ghost ins: Facts)
      returns (queue: seq<nat>)
    requires CfgOk(c) && b < |c.blocks| == into.Length == from.Length == queued.Length
    requires |boundary.words| == Words(c.locals) && boundary.Model() == Boundary(pr, c)
    requires sources == Sources(pr, c, b) && targets == Targets(pr, c, b)
    requires into != from && Fits(facts, c.locals) && Queue(queued[..], queue0)
    requires Holds(from[..], facts, c.locals) && Holds(into[..], ins, c.locals)
    modifies into, from, queued
    ensures Holds(from[..], Visit(pr, c, facts, b), c.locals)
    ensures Holds(into[..], ins[b := InFact(pr, c, facts, b)], c.locals)
    ensures Queue(queued[..], queue)
    ensures forall x | 0 <= x < queued.Length ::
      queued[x] <==> old(queued[x]) || (x in targets && facts[b] != OutFact(pr, c, facts, b))
    ensures |queue| <= |queue0| + if facts[b] != OutFact(pr, c, facts, b) then |targets| else 0
  {
    hide InFact, OutFact, Members, Sources, Targets;
    var met, state := NewFacts(pr, c, boundary, sources, from[..], b, facts);
    into[b] := met;
    queue := queue0;
    assert from[..][b] == from[b];
    if !state.Same(from[b]) {
      from[b] := state;
      forall i | 0 <= i < |targets|
        ensures targets[i] < queued.Length
      {
        TargetsInRange(pr, c, b, targets[i]);
      }
      queue := Enqueue(targets, queued, queue);
    }
  }

  /** The next block of the queue is visited: the invariant is kept, and the visit is paid
      for by the queue or by facts that have grown. */
  method VisitNext(pr: Problem, c: FunctionCfg, boundary: LocalSet, sources: seq<seq<nat>>, targets: seq<seq<nat>>,
                   into: array<LocalSet>, from: array<LocalSet>, queued: array<bool>, queue0: seq<nat>,
                   ghost facts0: Facts, ghost ins0: Facts)
      returns (queue: seq<nat>, ghost facts: Facts, ghost ins: Facts)
    requires CfgOk(c) && into != from && |c.blocks| == into.Length == from.Length == queued.Length
    requires |sources| == |targets| == |c.blocks|
    requires forall b | 0 <= b < |c.blocks| :: sources[b] == Sources(pr, c, b) && targets[b] == Targets(pr, c, b)
    requires |boundary.words| == Words(c.locals) && boundary.Model() == Boundary(pr, c)
    requires |facts0| == |ins0| == |c.blocks| && Working(pr, c, facts0, ins0, queued[..], queue0) && queue0 != []
    requires Holds(from[..], facts0, c.locals) && Holds(into[..], ins0, c.locals)
    modifies into, from, queued
    ensures |facts| == |ins| == |c.blocks| && Working(pr, c, facts, ins, queued[..], queue)
    ensures Holds(from[..], facts, c.locals) && Holds(into[..], ins, c.locals)
    ensures 1 + |queue| + Weight(pr, c, facts, |c.blocks|) <= |queue0| + Weight(pr, c, facts0, |c.blocks|)
  {
    hide InFact, OutFact, Members, Sources, Targets, Weight, Working, Fits, Rising, Holds, Queue;
    var b := queue0[0];
    ghost var before := queued[..];
    WorkPop(pr, c, facts0, ins0, before, queue0);
    queued[b] := false;
    assert queued[..] == before[b := false];
    queue := VisitBlock(pr, c, boundary, sources[b], targets[b], into, from, queued, queue0[1..], b, facts0, ins0);
    WorkStep(pr, c, facts0, ins0, before, queue0, b, queued[..], queue);
    WorkShrinks(pr, c, facts0, b);
    facts, ins := Visit(pr, c, facts0, b), ins0[b := InFact(pr, c, facts0, b)];
  }

  /** The least solution of the block equations, found in at most one visit a block and
      one for every edge and local. */
  method Solve(pr: Problem, c: FunctionCfg) returns (s: Solution, ghost facts: Facts, ghost visits: nat)
    requires CfgOk(c)
    ensures |s.atStart| == |s.atEnd| == |c.blocks| && LeastSolution(pr, c, facts)
    ensures Holds(if pr.Liveness? then s.atStart else s.atEnd, facts, c.locals)
    ensures Holds(if pr.Liveness? then s.atEnd else s.atStart, InFacts(pr, c, facts), c.locals)
    ensures visits <= |c.blocks| + c.locals * Edges(c.blocks, |c.blocks|)
  {
    hide InFact, OutFact, Members, Sources, Targets, Weight, Edges, Working, Fits, Rising, Holds, Queue;
    var n := |c.blocks|;
    var sources, targets := Flows(pr, c);
    var blank := new LocalSet.Empty(c.locals);
    var into := new LocalSet[n](_ => blank);
    var from := new LocalSet[n](_ => blank);
    var boundary := BoundarySet(pr, c);
    var queue: seq<nat> := seq(n, i => i);
    var queued := new bool[n](_ => true);

    facts, visits := Nothing(c), 0;
    ghost var ins := Nothing(c);
    BlankHolds(c, blank, into[..]);
    BlankHolds(c, blank, from[..]);
    WorkStart(pr, c, queue);
    WorkBound(pr, c);
    assert queued[..] == seq(n, _ => true);
    ghost var bound := n + c.locals * Edges(c.blocks, n);
    while queue != []
      invariant |facts| == |ins| == n && Working(pr, c, facts, ins, queued[..], queue)
      invariant Holds(from[..], facts, c.locals) && Holds(into[..], ins, c.locals)
      invariant |boundary.words| == Words(c.locals) && boundary.Model() == Boundary(pr, c)
      invariant visits + |queue| + Weight(pr, c, facts, n) <= bound
      decreases |queue| + Weight(pr, c, facts, n)
    {
      queue, facts, ins := VisitNext(pr, c, boundary, sources, targets, into, from, queued, queue, facts, ins);
      visits := visits + 1;
    }
    WorkDone(pr, c, facts, ins, queued[..]);
    assert InFacts(pr, c, facts) == ins;
    s := if pr.Liveness? then Solution(from[..], into[..]) else Solution(into[..], from[..]);
    HoldsLength(from[..], facts, c.locals);
    HoldsLength(into[..], ins, c.locals);
  }

  lemma BlankHolds(c: FunctionCfg, blank: LocalSet, sets: seq<LocalSet>)
    requires |blank.words| == Words(c.locals) && blank.Model() == {}
    requires |sets| == |c.blocks| && forall b | 0 <= b < |sets| :: sets[b] == blank
    ensures Holds(sets, Nothing(c), c.locals)
  {
  }

  lemma HoldsLength(sets: seq<LocalSet>, facts: Facts, n: nat)
    requires Holds(sets, facts, n)
    ensures |sets| == |facts|
  {
  }

  lemma WorkPop(pr: Problem, c: FunctionCfg, facts: Facts, ins: Facts, queued: seq<bool>, queue: seq<nat>)
    requires Working(pr, c, facts, ins, queued, queue) && queue != []
    ensures queue[0] < |queued| == |facts| == |ins| == |c.blocks|
    ensures Fits(facts, c.locals) && Rising(pr, c, facts, queue[0])
    ensures Queue(queued[queue[0] := false], queue[1..])
  {
    assert queue[0] < |queued|;
    QueuePop(queued, queue);
  }

  lemma WorkShrinks(pr: Problem, c: FunctionCfg, facts: Facts, b: nat)
    requires CfgOk(c) && b < |c.blocks| == |facts| && Fits(facts, c.locals) && Rising(pr, c, facts, b)
    ensures Weight(pr, c, Visit(pr, c, facts, b), |facts|)
      + (if facts[b] != OutFact(pr, c, facts, b) then |Targets(pr, c, b)| else 0) <= Weight(pr, c, facts, |facts|)
  {
    hide InFact, OutFact, Targets, Weight;
    OutFits(pr, c, facts, b);
    if facts[b] != OutFact(pr, c, facts, b) {
      WeightDrops(pr, c, facts, b, OutFact(pr, c, facts, b), |facts|);
    } else {
      assert Visit(pr, c, facts, b) == facts;
    }
  }

  ghost function InFacts(pr: Problem, c: FunctionCfg, facts: Facts): Facts {
    seq(|c.blocks|, b requires 0 <= b < |c.blocks| => InFact(pr, c, facts, b))
  }
}
