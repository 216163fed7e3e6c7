/** The worklist solver for the two analyses of locals, and what it computes: the least
    solution of the block equations. A visit only makes facts grow and never past a
    solution, a block that is not queued meets its equation, and the growth that is left
    pays for the visits to come. */
module Dataflow {
  import opened Wrappers
  import opened Cfg
  import opened LocalSets
  import opened Queries

  /** Backward liveness and forward may-unbound. */
  datatype Problem = Liveness | MayUnbound

  // ---- the equations --------------------------------------------------

  function Transfer(pr: Problem, e: Event, s: set<nat>): set<nat> {
    match pr
    case Liveness =>
      (match e.kind
       case Use(_) => s + {e.local}
       case Def(_) => s - {e.local}
       case Kill => s - {e.local}
       case WeakDef => s)
    case MayUnbound =>
      (match e.kind
       case Use(_) => s
       case Def(_) => s - {e.local}
       case WeakDef => s - {e.local}
       case Kill => s + {e.local})
  }

  function Reverse(t: Trace): (r: Trace)
    ensures |r| == |t| && forall i | 0 <= i < |t| :: r[i] == t[|t| - 1 - i]
  {
    if t == [] then [] else [t[|t| - 1]] + Reverse(t[..|t| - 1])
  }

  /** The events of a block in the direction of the analysis. */
  function InOrder(pr: Problem, t: Trace): (r: Trace)
    ensures |r| == |t|
  {
    if pr.Liveness? then Reverse(t) else t
  }

  function TransferAll(pr: Problem, t: Trace, s: set<nat>): set<nat> {
    if t == [] then s else Transfer(pr, t[|t| - 1], TransferAll(pr, t[..|t| - 1], s))
  }

  /** One fact for every block. */
  type Facts = seq<set<nat>>

  ghost function OnlyReachable(g: Graph, ps: seq<nat>): (r: seq<nat>)
    ensures forall p :: p in r <==> p in ps && Reachable(g, p)
  {
    if ps == [] then []
    else
      var last := ps[|ps| - 1];
      OnlyReachable(g, ps[..|ps| - 1]) + if Reachable(g, last) then [last] else []
  }

  /** The blocks whose facts enter `b`: for may-unbound, its reachable predecessors. */
  ghost function Sources(pr: Problem, c: FunctionCfg, b: nat): seq<nat>
    requires b < |c.blocks|
  {
    if pr.Liveness? then c.blocks[b].succs else OnlyReachable(c.blocks, PredsOf(c.blocks, b, |c.blocks|))
  }

  /** The blocks to visit again when the fact leaving `b` has changed. */
  function Targets(pr: Problem, c: FunctionCfg, b: nat): seq<nat>
    requires b < |c.blocks|
  {
    if pr.Liveness? then PredsOf(c.blocks, b, |c.blocks|) else c.blocks[b].succs
  }

  lemma SourcesAre(pr: Problem, c: FunctionCfg, b: nat, p: nat)
    requires CfgOk(c) && b < |c.blocks|
    ensures p in Sources(pr, c, b) ==> p < |c.blocks| && b in Targets(pr, c, p)
  {
    InPreds(c.blocks, b, p);
    if pr.Liveness? && p in c.blocks[b].succs {
      assert p < |c.blocks|;
      InPreds(c.blocks, p, b);
    }
  }

  lemma TargetsInRange(pr: Problem, c: FunctionCfg, b: nat, s: nat)
    requires CfgOk(c) && b < |c.blocks| && s in Targets(pr, c, b)
    ensures s < |c.blocks|
  {
    InPreds(c.blocks, b, s);
  }

  ghost function Gather(from: Facts, ps: seq<nat>): set<nat> {
    if ps == [] then {}
    else Gather(from, ps[..|ps| - 1]) + if ps[|ps| - 1] < |from| then from[ps[|ps| - 1]] else {}
  }

  lemma {:induction false} InGather(from: Facts, ps: seq<nat>, x: nat)
    ensures x in Gather(from, ps) <==> exists p :: p in ps && p < |from| && x in from[p]
  {
    if ps != [] {
      var init, last := ps[..|ps| - 1], ps[|ps| - 1];
      InGather(from, init, x);
      assert forall p :: p in ps <==> p in init || p == last;
    }
  }

  function BoundaryBlock(pr: Problem): nat {
    if pr.Liveness? then EXIT else ENTRY
  }

  function Elements(ps: seq<nat>): set<nat> {
    set p | p in ps
  }

  /** The fact at the start of ENTRY, forward, and at the end of EXIT, backward. */
  ghost function Boundary(pr: Problem, c: FunctionCfg): set<nat> {
    if pr.Liveness? then {} else Range(c.locals) - Elements(c.params)
  }

  ghost function InFact(pr: Problem, c: FunctionCfg, from: Facts, b: nat): set<nat>
    requires b < |c.blocks|
  {
    (if b == BoundaryBlock(pr) then Boundary(pr, c) else {}) + Gather(from, Sources(pr, c, b))
  }

  ghost function OutFact(pr: Problem, c: FunctionCfg, from: Facts, b: nat): set<nat>
    requires b < |c.blocks|
  {
    TransferAll(pr, InOrder(pr, c.blocks[b].events), InFact(pr, c, from, b))
  }

  ghost predicate Fixed(pr: Problem, c: FunctionCfg, from: Facts, b: nat)
    requires b < |c.blocks| == |from|
  {
    from[b] == OutFact(pr, c, from, b)
  }

  /** A solution of the block equations, given by the facts that leave the blocks. */
  ghost predicate Solves(pr: Problem, c: FunctionCfg, from: Facts) {
    |from| == |c.blocks| && forall b {:trigger Fixed(pr, c, from, b)} | 0 <= b < |from| :: Fixed(pr, c, from, b)
  }

  ghost predicate Covers(pr: Problem, c: FunctionCfg, from: Facts, b: nat)
    requires b < |c.blocks| == |from|
  {
    OutFact(pr, c, from, b) <= from[b]
  }

  ghost predicate PreSolves(pr: Problem, c: FunctionCfg, from: Facts) {
    |from| == |c.blocks| && forall b {:trigger Covers(pr, c, from, b)} | 0 <= b < |from| :: Covers(pr, c, from, b)
  }

  predicate Under(f: Facts, f': Facts) {
    |f| == |f'| && forall b | 0 <= b < |f| :: f[b] <= f'[b]
  }

  /** Nothing smaller is even closed under the equations. */
  ghost predicate BelowAll(pr: Problem, c: FunctionCfg, from: Facts) {
    forall f {:trigger PreSolves(pr, c, f)} | PreSolves(pr, c, f) :: Under(from, f)
  }

  ghost predicate LeastSolution(pr: Problem, c: FunctionCfg, from: Facts) {
    Solves(pr, c, from) && BelowAll(pr, c, from)
  }

  // ---- monotone transfers ---------------------------------------------

  lemma {:induction false} TransferAllMono(pr: Problem, t: Trace, s: set<nat>, s': set<nat>)
    requires s <= s'
    ensures TransferAll(pr, t, s) <= TransferAll(pr, t, s')
  {
    if t != [] {
      TransferAllMono(pr, t[..|t| - 1], s, s');
    }
  }

  lemma {:induction false} GatherMono(f: Facts, f': Facts, ps: seq<nat>)
    requires Under(f, f')
    ensures Gather(f, ps) <= Gather(f', ps)
  {
    if ps != [] {
      GatherMono(f, f', ps[..|ps| - 1]);
    }
  }

  lemma OutMono(pr: Problem, c: FunctionCfg, f: Facts, f': Facts, b: nat)
    requires Under(f, f') && b < |c.blocks|
    ensures InFact(pr, c, f, b) <= InFact(pr, c, f', b) && OutFact(pr, c, f, b) <= OutFact(pr, c, f', b)
  {
    GatherMono(f, f', Sources(pr, c, b));
    TransferAllMono(pr, InOrder(pr, c.blocks[b].events), InFact(pr, c, f, b), InFact(pr, c, f', b));
  }

  lemma {:induction false} GatherSame(f: Facts, a: nat, s: set<nat>, ps: seq<nat>)
    requires a < |f| && a !in ps
    ensures Gather(f[a := s], ps) == Gather(f, ps)
  {
    if ps != [] {
      assert ps[|ps| - 1] in ps;
      GatherSame(f, a, s, ps[..|ps| - 1]);
    }
  }

  // ---- facts stay among the locals ------------------------------------

  ghost predicate Fits(f: Facts, n: nat) {
    forall b | 0 <= b < |f| :: f[b] <= Range(n)
  }

  lemma {:induction false} TransferAllFits(pr: Problem, t: Trace, s: set<nat>, n: nat)
    requires LocalsOk(t, n) && s <= Range(n)
    ensures TransferAll(pr, t, s) <= Range(n)
  {
    if t != [] {
      TransferAllFits(pr, t[..|t| - 1], s, n);
      InRange(n, t[|t| - 1].local);
    }
  }

  lemma {:induction false} GatherFits(f: Facts, ps: seq<nat>, n: nat)
    requires Fits(f, n)
    ensures Gather(f, ps) <= Range(n)
  {
    if ps != [] {
      GatherFits(f, ps[..|ps| - 1], n);
    }
  }

  lemma InOrderOk(pr: Problem, t: Trace, n: nat)
    requires LocalsOk(t, n)
    ensures LocalsOk(InOrder(pr, t), n)
  {
  }

  lemma OutFits(pr: Problem, c: FunctionCfg, f: Facts, b: nat)
    requires CfgOk(c) && Fits(f, c.locals) && b < |c.blocks|
    ensures InFact(pr, c, f, b) <= Range(c.locals) && OutFact(pr, c, f, b) <= Range(c.locals)
  {
    GatherFits(f, Sources(pr, c, b), c.locals);
    InOrderOk(pr, c.blocks[b].events, c.locals);
    TransferAllFits(pr, InOrder(pr, c.blocks[b].events), InFact(pr, c, f, b), c.locals);
  }

  lemma {:induction false} RangeSize(n: nat)
    ensures |Range(n)| == n
  {
    if n > 0 {
      RangeSize(n - 1);
      InRange(n - 1, n - 1);
    }
  }

  // ---- the work left --------------------------------------------------

  /** How much the facts of the first `k` blocks can still grow, each step weighted by
      the visits it causes. */
  function Weight(pr: Problem, c: FunctionCfg, f: Facts, k: nat): nat
    requires k <= |f| == |c.blocks|
  {
    if k == 0 then 0
    else Weight(pr, c, f, k - 1) + Load(|Targets(pr, c, k - 1)|, c.locals, f[k - 1])
  }

  function Room(n: nat, s: set<nat>): nat {
    if |s| <= n then n - |s| else 0
  }

  function Load(m: nat, n: nat, s: set<nat>): nat {
    m * Room(n, s)
  }

  lemma {:induction false} WeightSame(pr: Problem, c: FunctionCfg, f: Facts, f': Facts, k: nat)
    requires k <= |f| == |f'| == |c.blocks| && forall i | 0 <= i < k :: f[i] == f'[i]
    ensures Weight(pr, c, f, k) == Weight(pr, c, f', k)
  {
    if k > 0 {
      WeightSame(pr, c, f, f', k - 1);
    }
  }

  lemma RoomShrinks(m: nat, n: nat, s: set<nat>, s': set<nat>)
    requires s <= s' <= Range(n) && s != s'
    ensures Load(m, n, s') + m <= Load(m, n, s)
  {
    RangeSize(n);
    SubsetSize(s, s');
    SubsetSize(s', Range(n));
    TimesLess(m, Room(n, s'), Room(n, s));
  }

  lemma TimesLess(m: nat, a: nat, b: nat)
    requires a < b
    ensures m * a + m <= m * b
  {
    assert m * a + m == m * (a + 1);
  }

  lemma {:induction false} WeightDrops(pr: Problem, c: FunctionCfg, f: Facts, b: nat, s: set<nat>, k: nat)
    requires b < k <= |f| == |c.blocks| && f[b] <= s <= Range(c.locals) && f[b] != s
    ensures Weight(pr, c, f[b := s], k) + |Targets(pr, c, b)| <= Weight(pr, c, f, k)
  {
    hide Load, Targets;
    if b == k - 1 {
      WeightSame(pr, c, f, f[b := s], k - 1);
      RoomShrinks(|Targets(pr, c, b)|, c.locals, f[b], s);
    } else {
      WeightDrops(pr, c, f, b, s, k - 1);
    }
  }

  /** The number of edges. */
  function Edges(g: Graph, n: nat): nat
    requires n <= |g|
  {
    if n == 0 then 0 else Edges(g, n - 1) + |g[n - 1].succs|
  }

  function TimesSum(b: nat, ss: seq<nat>, k: nat): nat {
    if k == 0 then 0 else TimesSum(b, ss, k - 1) + |Times(b, ss, k - 1)|
  }

  function PredsSum(g: Graph, n: nat, k: nat): nat
    requires n <= |g|
  {
    if k == 0 then 0 else PredsSum(g, n, k - 1) + |PredsOf(g, k - 1, n)|
  }

  lemma {:induction false} TimesSumSplit(b: nat, ss: seq<nat>, k: nat)
    requires ss != []
    ensures TimesSum(b, ss, k) == TimesSum(b, ss[..|ss| - 1], k) + if ss[|ss| - 1] < k then 1 else 0
  {
    if k > 0 {
      TimesSumSplit(b, ss, k - 1);
    }
  }

  lemma {:induction false} TimesSumAll(b: nat, ss: seq<nat>, k: nat)
    requires forall i | 0 <= i < |ss| :: ss[i] < k
    ensures TimesSum(b, ss, k) == |ss|
  {
    if ss == [] {
      TimesSumNone(b, k);
    } else {
      TimesSumSplit(b, ss, k);
      TimesSumAll(b, ss[..|ss| - 1], k);
    }
  }

  lemma {:induction false} TimesSumNone(b: nat, k: nat)
    ensures TimesSum(b, [], k) == 0
  {
    if k > 0 {
      TimesSumNone(b, k - 1);
    }
  }

  lemma {:induction false} PredsSumSplit(g: Graph, n: nat, k: nat)
    requires 0 < n <= |g|
    ensures PredsSum(g, n, k) == PredsSum(g, n - 1, k) + TimesSum(n - 1, g[n - 1].succs, k)
  {
    if k > 0 {
      PredsSumSplit(g, n, k - 1);
    }
  }

  lemma {:induction false} PredsSumNone(g: Graph, k: nat)
    ensures PredsSum(g, 0, k) == 0
  {
    if k > 0 {
      PredsSumNone(g, k - 1);
    }
  }

  /** Every edge is counted once among the predecessors. */
  lemma {:induction false} PredsSumAll(g: Graph, n: nat)
    requires SuccsInRange(g) && n <= |g|
    ensures PredsSum(g, n, |g|) == Edges(g, n)
  {
    hide PredsSum, TimesSum;
    if n == 0 {
      PredsSumNone(g, |g|);
    } else {
      PredsSumSplit(g, n, |g|);
      TimesSumAll(n - 1, g[n - 1].succs, |g|);
      PredsSumAll(g, n - 1);
    }
  }

  function Nothing(c: FunctionCfg): Facts {
    seq(|c.blocks|, _ => {})
  }

  function TargetsSum(pr: Problem, c: FunctionCfg, k: nat): nat
    requires k <= |c.blocks|
  {
    if k == 0 then 0 else TargetsSum(pr, c, k - 1) + |Targets(pr, c, k - 1)|
  }

  lemma {:induction false} TargetsSumAll(pr: Problem, c: FunctionCfg, k: nat)
    requires k <= |c.blocks|
    ensures TargetsSum(pr, c, k) == if pr.Liveness? then PredsSum(c.blocks, |c.blocks|, k) else Edges(c.blocks, k)
  {
    hide PredsOf;
    if k > 0 {
      TargetsSumAll(pr, c, k - 1);
    }
  }

  lemma {:induction false} WeightAtStart(pr: Problem, c: FunctionCfg, k: nat)
    requires k <= |c.blocks|
    ensures Weight(pr, c, Nothing(c), k) == c.locals * TargetsSum(pr, c, k)
  {
    hide Targets;
    if k > 0 {
      WeightAtStart(pr, c, k - 1);
      LoadAll(c.locals, TargetsSum(pr, c, k - 1), |Targets(pr, c, k - 1)|);
    }
  }

  lemma LoadAll(n: nat, a: nat, m: nat)
    ensures n * a + Load(m, n, {}) == n * (a + m)
  {
  }

  lemma WorkBound(pr: Problem, c: FunctionCfg)
    requires CfgOk(c)
    ensures Weight(pr, c, Nothing(c), |c.blocks|) == c.locals * Edges(c.blocks, |c.blocks|)
  {
    WeightAtStart(pr, c, |c.blocks|);
    TargetsSumAll(pr, c, |c.blocks|);
    PredsSumAll(c.blocks, |c.blocks|);
  }

  // ---- the worklist ---------------------------------------------------

  ghost predicate Settled(pr: Problem, c: FunctionCfg, facts: Facts, ins: Facts, queued: seq<bool>, b: nat)
    requires b < |c.blocks| == |facts| == |ins| == |queued|
  {
    !queued[b] ==> Fixed(pr, c, facts, b) && ins[b] == InFact(pr, c, facts, b)
  }

  ghost predicate Rising(pr: Problem, c: FunctionCfg, facts: Facts, b: nat)
    requires b < |c.blocks|
  {
    b < |facts| && facts[b] <= OutFact(pr, c, facts, b)
  }

  /** Blocks that are not queued meet their equations; facts have only grown, and are
      in every solution. */
  ghost predicate Working(pr: Problem, c: FunctionCfg, facts: Facts, ins: Facts, queued: seq<bool>, queue: seq<nat>) {
    && |facts| == |ins| == |queued| == |c.blocks|
    && Fits(facts, c.locals) && BelowAll(pr, c, facts)
    && (forall b {:trigger Settled(pr, c, facts, ins, queued, b)} | 0 <= b < |facts| :: Settled(pr, c, facts, ins, queued, b))
    && (forall b {:trigger Rising(pr, c, facts, b)} | 0 <= b < |facts| :: Rising(pr, c, facts, b))
    && Queue(queued, queue)
  }

  predicate Queue(queued: seq<bool>, queue: seq<nat>) {
    && (forall b | 0 <= b < |queued| && queued[b] :: b in queue)
    && (forall i | 0 <= i < |queue| :: queue[i] < |queued|)
  }

  lemma WorkStart(pr: Problem, c: FunctionCfg, queue: seq<nat>)
    requires CfgOk(c) && |queue| == |c.blocks| && forall b | 0 <= b < |queue| :: queue[b] == b
    ensures Working(pr, c, Nothing(c), Nothing(c), seq(|queue|, _ => true), queue)
  {
    forall b: nat | b < |c.blocks|
      ensures b in queue
    {
      assert queue[b] == b;
    }
  }

  lemma WorkDone(pr: Problem, c: FunctionCfg, facts: Facts, ins: Facts, queued: seq<bool>)
    requires Working(pr, c, facts, ins, queued, [])
    ensures LeastSolution(pr, c, facts)
    ensures forall b | 0 <= b < |facts| :: ins[b] == InFact(pr, c, facts, b)
  {
    forall b | 0 <= b < |facts|
      ensures Fixed(pr, c, facts, b) && ins[b] == InFact(pr, c, facts, b)
    {
      assert Settled(pr, c, facts, ins, queued, b);
    }
  }

  /** The facts after block `b` has been visited. */
  ghost function Visit(pr: Problem, c: FunctionCfg, facts: Facts, b: nat): Facts
    requires b < |c.blocks| == |facts|
  {
    facts[b := OutFact(pr, c, facts, b)]
  }

  lemma VisitGrows(pr: Problem, c: FunctionCfg, facts: Facts, b: nat)
    requires CfgOk(c) && b < |c.blocks| == |facts| && Fits(facts, c.locals) && BelowAll(pr, c, facts)
    requires forall x {:trigger Rising(pr, c, facts, x)} | 0 <= x < |facts| :: Rising(pr, c, facts, x)
    ensures var f := Visit(pr, c, facts, b);
      && Under(facts, f) && Fits(f, c.locals) && BelowAll(pr, c, f)
      && forall x {:trigger Rising(pr, c, f, x)} | 0 <= x < |facts| :: Rising(pr, c, f, x)
  {
    hide OutFact, InFact;
    var f := Visit(pr, c, facts, b);
    assert Rising(pr, c, facts, b);
    OutFits(pr, c, facts, b);
    forall x | 0 <= x < |facts|
      ensures Rising(pr, c, f, x)
    {
      assert Rising(pr, c, facts, x);
      OutMono(pr, c, facts, f, x);
    }
    forall other | PreSolves(pr, c, other)
      ensures Under(f, other)
    {
      assert Covers(pr, c, other, b);
      OutMono(pr, c, facts, other, b);
    }
  }

  lemma VisitElsewhere(pr: Problem, c: FunctionCfg, facts: Facts, b: nat, x: nat)
    requires CfgOk(c) && b < |c.blocks| == |facts| && x < |c.blocks| && x !in Targets(pr, c, b)
    ensures InFact(pr, c, Visit(pr, c, facts, b), x) == InFact(pr, c, facts, x)
    ensures OutFact(pr, c, Visit(pr, c, facts, b), x) == OutFact(pr, c, facts, x)
  {
    hide Sources;
    SourcesAre(pr, c, x, b);
    GatherSame(facts, b, OutFact(pr, c, facts, b), Sources(pr, c, x));
  }

  /** What a visit to the first block of the queue leaves: `queued'` and `queue'` are as
      before but for that block, and for its targets when its fact has changed. */
  ghost predicate Requeued(pr: Problem, c: FunctionCfg, facts: Facts, queued: seq<bool>, b: nat, queued': seq<bool>)
    requires b < |c.blocks| == |facts| == |queued|
  {
    && |queued'| == |queued|
    && forall x | 0 <= x < |queued| ::
      queued'[x] <==> (x != b && queued[x]) || (x in Targets(pr, c, b) && facts[b] != OutFact(pr, c, facts, b))
  }

  lemma WorkStep(pr: Problem, c: FunctionCfg, facts: Facts, ins: Facts, queued: seq<bool>, queue: seq<nat>, b: nat,
                 queued': seq<bool>, queue': seq<nat>)
    requires CfgOk(c) && Working(pr, c, facts, ins, queued, queue) && b < |c.blocks|
    requires Requeued(pr, c, facts, queued, b, queued') && Queue(queued', queue')
    ensures Working(pr, c, Visit(pr, c, facts, b), ins[b := InFact(pr, c, facts, b)], queued', queue')
  {
    hide OutFact, InFact, Targets;
    VisitGrows(pr, c, facts, b);
    var f, ins' := Visit(pr, c, facts, b), ins[b := InFact(pr, c, facts, b)];
    forall x | 0 <= x < |facts|
      ensures Settled(pr, c, f, ins', queued', x)
    {
      assert Settled(pr, c, facts, ins, queued, x);
      if facts[b] == OutFact(pr, c, facts, b) {
        assert f == facts;
      } else if x !in Targets(pr, c, b) {
        VisitElsewhere(pr, c, facts, b, x);
      }
    }
  }
}
