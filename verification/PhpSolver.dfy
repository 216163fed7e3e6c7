/** The PHP worklist, with its budgets: within them it returns exact states, and a graph
    that is small enough never exhausts them, since every time a block is queued there is
    less room for its state to grow: six contexts for every variable and every line. */
module PhpSolver {
  import opened Wrappers
  import opened PhpFacts
  import opened PhpCompile
  import opened PhpPaths
  import opened PhpFlow
  import opened PhpWorklist

  const STEP_ERROR := "dataflow budget exhausted (50000 transfers)"
  const NAME_ERROR := "local-variable budget exhausted (512)"
  const UNREACHABLE := "<unreachable>"

  // ---- how much states can grow ---------------------------------------

  ghost function LinesOf(e: Expr): set<nat> {
    match e
    case Source(line) => {line}
    case Joined(parts) => set i, l | 0 <= i < |parts| && l in LinesOf(parts[i]) :: l
    case Sanitise(inner, _) => LinesOf(inner)
    case _ => {}
  }

  /** The variables the graph assigns and the source lines it assigns from. */
  ghost function Names(g: Graph): set<string> {
    set b | 0 <= b < |g| && g[b].op.Assign? :: g[b].op.name
  }

  ghost function Lines(g: Graph): set<nat> {
    set b, l | 0 <= b < |g| && g[b].op.Assign? && l in LinesOf(g[b].op.expr) :: l
  }

  lemma {:induction false} EmitsLines(e: Expr, line: nat, k: nat)
    requires Emits(e, line, k)
    ensures line in LinesOf(e) && k < CONTEXTS
  {
    match e
    case Joined(parts) =>
      var i :| 0 <= i < |parts| && Emits(parts[i], line, k);
      EmitsLines(parts[i], line, k);
    case Sanitise(inner, _) => EmitsLines(inner, line, k);
    case _ =>
  }

  /** What a block's state holds on the way out it held on the way in, or got here. */
  lemma HeldByOp(g: Graph, a: nat, s: State, x: string, line: nat, k: nat) returns (y: string)
    requires a < |g| && Holds(Step(g[a].op, s), x, line, k)
    ensures x in Names(g) || (y == x && Holds(s, y, line, k))
    ensures (line in Lines(g) && k < CONTEXTS) || Holds(s, y, line, k)
  {
    hide Eval;
    var op := g[a].op;
    StepHolds(op, s, x, line, k);
    y := x;
    if op.Assign? && op.name == x {
      if Emits(op.expr, line, k) {
        EmitsLines(op.expr, line, k);
      } else {
        y :| Copies(op.expr, y, k) && Has(Look(s, y), line, k);
      }
    }
  }

  lemma {:induction false} HeldByNames(g: Graph, entry: nat, b: nat, t: Ops, n: nat, x: string, line: nat, k: nat)
    requires ReachesIn(g, entry, b, t, n) && Holds(StateAfter(t), x, line, k)
    ensures x in Names(g) && line in Lines(g) && k < CONTEXTS
    decreases n
  {
    hide Step, Names, Lines, OpsOf;
    if n > 0 {
      var a: nat, u :| a < |g| && b in g[a].next && t == u + OpsOf(g[a].op) && ReachesIn(g, entry, a, u, n - 1);
      StateStep(u, g[a].op);
      var y := HeldByOp(g, a, StateAfter(u), x, line, k);
      if Holds(StateAfter(u), y, line, k) {
        HeldByNames(g, entry, a, u, n - 1, y, line, k);
      }
    }
  }

  ghost function Triples(s: State): set<(string, nat, nat)> {
    set x, l, k | x in s && l in s[x] && 0 <= k < 8 && Holds(s, x, l, k) :: (x, l, k)
  }

  ghost function Universe(names: set<string>, lines: set<nat>, n: nat): set<(string, nat, nat)> {
    set x, l, k | x in names && l in lines && 0 <= k < n :: (x, l, k)
  }

  lemma InTriples(s: State, x: string, l: nat, k: nat)
    ensures (x, l, k) in Triples(s) <==> Holds(s, x, l, k)
  {
  }

  lemma TriplesFit(g: Graph, entry: nat, s: State, b: nat)
    requires SoundState(g, entry, s, b)
    ensures Triples(s) <= Universe(Names(g), Lines(g), CONTEXTS)
    ensures |Triples(s)| <= Most(g)
  {
    forall x: string, l: nat, k: nat | Holds(s, x, l, k)
      ensures (x, l, k) in Universe(Names(g), Lines(g), CONTEXTS)
    {
      var t :| Reaches(g, entry, b, t) && Holds(StateAfter(t), x, l, k);
      var n: nat :| ReachesIn(g, entry, b, t, n);
      HeldByNames(g, entry, b, t, n, x, l, k);
    }
    UniverseSize(Names(g), Lines(g), CONTEXTS);
    SubsetSize(Triples(s), Universe(Names(g), Lines(g), CONTEXTS));
  }

  ghost function Row(x: string, l: nat, n: nat): set<(string, nat, nat)> {
    set k | 0 <= k < n :: (x, l, k)
  }

  lemma {:induction false} RowSize(x: string, l: nat, n: nat)
    ensures |Row(x, l, n)| == n
  {
    if n == 0 {
      assert Row(x, l, n) == {};
    } else {
      RowSize(x, l, n - 1);
      assert Row(x, l, n) == Row(x, l, n - 1) + {(x, l, n - 1)};
    }
  }

  ghost function Plane(x: string, lines: set<nat>, n: nat): set<(string, nat, nat)> {
    set l, k | l in lines && 0 <= k < n :: (x, l, k)
  }

  lemma {:induction false} PlaneSize(x: string, lines: set<nat>, n: nat)
    ensures |Plane(x, lines, n)| == |lines| * n
    decreases lines
  {
    if lines == {} {
      assert Plane(x, lines, n) == {};
    } else {
      var l :| l in lines;
      var rest := lines - {l};
      PlaneSize(x, rest, n);
      RowSize(x, l, n);
      assert Plane(x, lines, n) == Plane(x, rest, n) + Row(x, l, n);
      assert lines == rest + {l};
      OneMore(|rest|, n);
    }
  }

  lemma OneMore(a: nat, n: nat)
    ensures a * n + n == (a + 1) * n
  {
  }

  lemma {:induction false} UniverseSize(names: set<string>, lines: set<nat>, n: nat)
    ensures |Universe(names, lines, n)| == |names| * (|lines| * n)
    decreases names
  {
    if names == {} {
      assert Universe(names, lines, n) == {};
    } else {
      var x :| x in names;
      var rest := names - {x};
      UniverseSize(rest, lines, n);
      PlaneSize(x, lines, n);
      assert Universe(names, lines, n) == Universe(rest, lines, n) + Plane(x, lines, n);
      assert names == rest + {x};
      OneMore(|rest|, |lines| * n);
    }
  }

  /** The most a state can hold. */
  ghost function Most(g: Graph): nat {
    |Names(g)| * (|Lines(g)| * CONTEXTS)
  }

  /** The most transfers the worklist makes. */
  ghost function Bound(g: Graph): nat {
    |g| * (1 + Most(g))
  }

  lemma Grown(s: State, other: State)
    requires StateNoZero(s) && StateNoZero(other) && Grows(s, other)
    ensures Triples(s) < Triples(JoinStates(s, other))
  {
    hide Has, PhpFacts.Join;
    var s' := JoinStates(s, other);
    TriplesGrow(s, other);
    var x :| x in other && NewAt(s, other, x);
    JoinNoZero(Look(s, x), other[x]);
    var l, k := SomeDifference(PhpFacts.Join(Look(s, x), other[x]), Look(s, x));
    JoinHas(Look(s, x), other[x], l, k);
    assert Look(s', x) == PhpFacts.Join(Look(s, x), other[x]);
    InTriples(s', x, l, k);
    InTriples(s, x, l, k);
  }

  lemma TriplesGrow(s: State, other: State)
    ensures Triples(s) <= Triples(JoinStates(s, other))
  {
    var s' := JoinStates(s, other);
    JoinStatesLe(s, other);
    forall x: string, l: nat, k: nat | Holds(s, x, l, k)
      ensures (x, l, k) in Triples(s')
    {
      InTriples(s', x, l, k);
    }
  }

  // ---- the room left --------------------------------------------------

  ghost function Room(m: nat, s: State, reached: bool): nat {
    (if reached then 0 else 1) + if |Triples(s)| <= m then m - |Triples(s)| else 0
  }

  ghost function Rooms(m: nat, states: seq<State>, reached: set<nat>, n: nat): nat
    requires n <= |states|
  {
    if n == 0 then 0 else Rooms(m, states, reached, n - 1) + Room(m, states[n - 1], n - 1 in reached)
  }

  lemma {:induction false} RoomsSame(m: nat, states: seq<State>, reached: set<nat>, states': seq<State>, reached': set<nat>, n: nat)
    requires n <= |states| == |states'|
    requires forall b | 0 <= b < n :: states[b] == states'[b] && (b in reached <==> b in reached')
    ensures Rooms(m, states, reached, n) == Rooms(m, states', reached', n)
  {
    if n > 0 {
      RoomsSame(m, states, reached, states', reached', n - 1);
    }
  }

  lemma {:induction false} RoomsChange(m: nat, states: seq<State>, reached: set<nat>, c: nat, s: State, n: nat)
    requires c < n <= |states|
    ensures Rooms(m, states[c := s], reached + {c}, n) + Room(m, states[c], c in reached) ==
      Rooms(m, states, reached, n) + Room(m, s, true)
  {
    if c == n - 1 {
      RoomsSame(m, states, reached, states[c := s], reached + {c}, n - 1);
    } else {
      RoomsChange(m, states, reached, c, s, n - 1);
    }
  }

  lemma {:induction false} RoomsAtStart(m: nat, states: seq<State>, entry: nat, n: nat)
    requires n <= |states| && forall b | 0 <= b < n :: states[b] == map[]
    ensures Rooms(m, states, {entry}, n) + (if entry < n then 1 else 0) == n * (1 + m)
  {
    if n > 0 {
      RoomsAtStart(m, states, entry, n - 1);
      assert Triples(map[]) == {};
      OneMore(n - 1, 1 + m);
    }
  }

  // ---- the invariant --------------------------------------------------

  predicate NamesIn(s: State, names: set<string>) {
    s.Keys <= names
  }

  predicate Queue(reached: set<nat>, queued: set<nat>, queue: seq<nat>) {
    && (forall b | b in queued :: b in queue && b in reached)
    && (forall i | 0 <= i < |queue| :: queue[i] in reached)
  }

  /** Every block that is reached and not queued has its state in its successors'. */
  ghost predicate Working(g: Graph, entry: nat, states: seq<State>, reached: set<nat>, queued: set<nat>, queue: seq<nat>) {
    && GoodStates(g, entry, states, reached) && Queue(reached, queued, queue)
    && (forall b | 0 <= b < |states| :: NamesIn(states[b], Names(g)))
    && (forall b | b in reached && b !in queued :: Closed(g, states, reached, b))
  }

  /** The same part of the way through the successors of `id`, whose state was `s0`. */
  ghost predicate Passing(g: Graph, entry: nat, states: seq<State>, reached: set<nat>, queued: set<nat>, queue: seq<nat>,
                          id: nat, s0: State, i: nat)
  {
    && id < |g| && id in reached && i <= |g[id].next|
    && GoodStates(g, entry, states, reached) && Queue(reached, queued, queue)
    && (forall b | 0 <= b < |states| :: NamesIn(states[b], Names(g)))
    && (forall b | b in reached && b !in queued && b != id :: Closed(g, states, reached, b))
    && SoundState(g, entry, s0, id) && StateNoZero(s0) && NamesIn(s0, Names(g))
    && (id in queued || (Le(states[id], s0) && forall j | 0 <= j < i :: Given(g, states, reached, id, s0, j)))
  }

  /** Successor `j` of `id` has been given the state that leaves `id`. */
  ghost predicate Given(g: Graph, states: seq<State>, reached: set<nat>, id: nat, s0: State, j: nat)
    requires id < |g| && j < |g[id].next|
  {
    var c := g[id].next[j];
    c in reached && c < |states| && Le(Step(g[id].op, s0), states[c])
  }

  lemma LeTrans(a: State, b: State, c: State)
    requires Le(a, b) && Le(b, c)
    ensures Le(a, c)
  {
    forall x, l, k | Holds(a, x, l, k)
      ensures Holds(c, x, l, k)
    {
      assert Holds(b, x, l, k);
    }
  }

  /** What leaves `id` is carried to its successors. */
  lemma OutCarried(g: Graph, entry: nat, id: nat, s0: State, c: nat)
    requires id < |g| && c in g[id].next && SoundState(g, entry, s0, id) && Reached(g, entry, id)
    ensures SoundState(g, entry, Step(g[id].op, s0), c) && Reached(g, entry, c)
  {
    hide Reaches, StateAfter, Step;
    var op := g[id].op;
    var t0 :| Reaches(g, entry, id, t0);
    ReachesStep(g, entry, id, c, t0);
    forall x, l, k | Holds(Step(op, s0), x, l, k)
      ensures Carried(g, entry, c, x, l, k)
    {
      var t := SomePath(g, entry, id, s0, x, l, k, t0);
      ReachesStep(g, entry, id, c, t);
      StateStep(t, op);
    }
  }

  lemma SomePath(g: Graph, entry: nat, id: nat, s0: State, x: string, l: nat, k: nat, t0: Ops) returns (t: Ops)
    requires id < |g| && SoundState(g, entry, s0, id) && Reaches(g, entry, id, t0)
    requires Holds(Step(g[id].op, s0), x, l, k)
    ensures Reaches(g, entry, id, t) && Holds(Step(g[id].op, StateAfter(t)), x, l, k)
  {
    hide Reaches, StateAfter, Step;
    var op := g[id].op;
    StepHolds(op, s0, x, l, k);
    var y := x;
    t := t0;
    if op.Assign? && op.name == x {
      if !Emits(op.expr, l, k) {
        y :| Copies(op.expr, y, k) && Has(Look(s0, y), l, k);
        assert Holds(s0, y, l, k);
        t :| Reaches(g, entry, id, t) && Holds(StateAfter(t), y, l, k);
        assert Copies(op.expr, y, k) && Has(Look(StateAfter(t), y), l, k);
      }
    } else {
      assert Holds(s0, x, l, k);
      t :| Reaches(g, entry, id, t) && Holds(StateAfter(t), x, l, k);
    }
    StepHolds(op, StateAfter(t), x, l, k);
  }

  lemma JoinedGood(g: Graph, entry: nat, states: seq<State>, reached: set<nat>, c: nat, out: State)
    requires GoodStates(g, entry, states, reached) && c < |g| && StateNoZero(out)
    requires SoundState(g, entry, out, c) && Reached(g, entry, c)
    ensures GoodStates(g, entry, states[c := JoinStates(states[c], out)], reached + {c})
  {
    hide Reached, JoinStates, Carried, StateNoZero;
    var s', states', reached' := JoinStates(states[c], out), states[c := JoinStates(states[c], out)], reached + {c};
    assert Good(g, entry, states, reached, c);
    JoinStatesNoZero(states[c], out);
    forall x, l, k | Holds(s', x, l, k)
      ensures Carried(g, entry, c, x, l, k)
    {
      JoinStatesHolds(states[c], out, x, l, k);
    }
    forall b | 0 <= b < |states'|
      ensures Good(g, entry, states', reached', b)
    {
      assert Good(g, entry, states, reached, b);
    }
  }

  /** One successor `c` of `id` is given what leaves `id`. */
  lemma Relax(g: Graph, entry: nat, states: seq<State>, reached: set<nat>, queued: set<nat>, queue: seq<nat>,
              id: nat, s0: State, i: nat, queued': set<nat>, queue': seq<nat>)
    requires InRange(g) && Passing(g, entry, states, reached, queued, queue, id, s0, i) && i < |g[id].next|
    requires var c := g[id].next[i];
      && Queue(reached + {c}, queued', queue')
      && queued' == if c !in reached || Grows(states[c], Step(g[id].op, s0)) then queued + {c} else queued
    ensures var c := g[id].next[i];
      Passing(g, entry, states[c := JoinStates(states[c], Step(g[id].op, s0))], reached + {c}, queued', queue', id, s0, i + 1)
  {
    hide Reached, JoinStates, SoundState, StateNoZero, Step, Grows, Le;
    var c, out := g[id].next[i], Step(g[id].op, s0);
    var states', reached' := states[c := JoinStates(states[c], out)], reached + {c};
    assert Good(g, entry, states, reached, id);
    assert c in g[id].next;
    OutCarried(g, entry, id, s0, c);
    StepNoZero(g[id].op, s0);
    JoinedGood(g, entry, states, reached, c, out);
    JoinedNames(g, states, c, id, s0);
    JoinStatesLe(states[c], out);
    if c in reached && !Grows(states[c], out) {
      NoGrowth(states[c], out);
    }
    forall b | b in reached' && b !in queued' && b != id
      ensures Closed(g, states', reached', b)
    {
      assert Closed(g, states, reached, b);
      StaysClosed(g, states, reached, b, c, out);
    }
    if id !in queued' {
      if id == c {
        LeTrans(states'[id], states[id], s0);
      }
      forall j | 0 <= j < i + 1
        ensures Given(g, states', reached', id, s0, j)
      {
        if j < i {
          assert Given(g, states, reached, id, s0, j);
          if g[id].next[j] == c {
            LeTrans(out, states[c], states'[c]);
          }
        }
      }
    }
  }

  lemma JoinedNames(g: Graph, states: seq<State>, c: nat, id: nat, s0: State)
    requires id < |g| == |states| && c < |g| && NamesIn(states[c], Names(g)) && NamesIn(s0, Names(g))
    ensures NamesIn(JoinStates(states[c], Step(g[id].op, s0)), Names(g))
  {
  }

  lemma StaysClosed(g: Graph, states: seq<State>, reached: set<nat>, b: nat, c: nat, out: State)
    requires b < |g| == |states| && c < |g| && Closed(g, states, reached, b)
    requires b == c ==> Le(JoinStates(states[c], out), states[c])
    ensures Closed(g, states[c := JoinStates(states[c], out)], reached + {c}, b)
  {
    hide JoinStates, Step, Le;
    var states' := states[c := JoinStates(states[c], out)];
    JoinStatesLe(states[c], out);
    forall i | 0 <= i < |g[b].next|
      ensures Into(g, states', reached + {c}, b, i)
    {
      assert Into(g, states, reached, b, i);
      var d := g[b].next[i];
      if b == c {
        StepMono(g[b].op, states'[b], states[b]);
        LeTrans(Step(g[b].op, states'[b]), Step(g[b].op, states[b]), states[d]);
      }
      if d == c {
        LeTrans(Step(g[b].op, states'[b]), states[d], states'[d]);
      }
    }
  }

  lemma PassDone(g: Graph, entry: nat, states: seq<State>, reached: set<nat>, queued: set<nat>, queue: seq<nat>, id: nat, s0: State)
    requires id < |g| && Passing(g, entry, states, reached, queued, queue, id, s0, |g[id].next|)
    ensures Working(g, entry, states, reached, queued, queue)
  {
    hide Step, Le;
    if id !in queued {
      StepMono(g[id].op, states[id], s0);
      forall i | 0 <= i < |g[id].next|
        ensures Into(g, states, reached, id, i)
      {
        assert Given(g, states, reached, id, s0, i);
        LeTrans(Step(g[id].op, states[id]), Step(g[id].op, s0), states[g[id].next[i]]);
      }
    }
  }

  lemma PassStart(g: Graph, entry: nat, states: seq<State>, reached: set<nat>, queued: set<nat>, queue: seq<nat>)
    requires Working(g, entry, states, reached, queued, queue) && queue != []
    ensures queue[0] < |states| == |g|
    ensures Passing(g, entry, states, reached, queued - {queue[0]}, queue[1..], queue[0], states[queue[0]], 0)
  {
    var id := queue[0];
    assert Good(g, entry, states, reached, id);
    forall b | b in queued - {id}
      ensures b in queue[1..]
    {
      assert b in queue;
    }
  }

  lemma WorkStart(g: Graph, entry: nat)
    requires entry < |g|
    ensures Working(g, entry, seq(|g|, _ => map[]), {entry}, {entry}, [entry])
  {
    var states: seq<State> := seq(|g|, _ => map[]);
    assert ReachesIn(g, entry, entry, [], 0);
    assert Reaches(g, entry, entry, []);
    forall b | 0 <= b < |states|
      ensures Good(g, entry, states, {entry}, b)
    {
    }
  }

  /** The room falls whenever a block is queued. */
  lemma RelaxRooms(g: Graph, entry: nat, states: seq<State>, reached: set<nat>, c: nat, out: State)
    requires GoodStates(g, entry, states, reached) && c < |g| && StateNoZero(out)
    requires SoundState(g, entry, out, c) && Reached(g, entry, c)
    ensures Rooms(Most(g), states[c := JoinStates(states[c], out)], reached + {c}, |g|)
      + (if c !in reached || Grows(states[c], out) then 1 else 0) <= Rooms(Most(g), states, reached, |g|)
  {
    hide Reached, JoinStates, StateNoZero, Most, Triples, Grows, SoundState;
    var s' := JoinStates(states[c], out);
    JoinedGood(g, entry, states, reached, c, out);
    assert Good(g, entry, states, reached, c);
    assert Good(g, entry, states[c := s'], reached + {c}, c);
    TriplesFit(g, entry, s', c);
    TriplesGrow(states[c], out);
    SubsetSize(Triples(states[c]), Triples(s'));
    if Grows(states[c], out) {
      Grown(states[c], out);
    }
    RoomsChange(Most(g), states, reached, c, s', |g|);
  }

  // ---- the worklist ---------------------------------------------------

  /** Adds `out` to a state, variable by variable. */
  method JoinInto(prior: State, out: State) returns (r: State, changed: bool)
    ensures r == JoinStates(prior, out) && changed == Grows(prior, out)
  {
    hide PhpFacts.Join, NewAt, JoinStates;
    r, changed := prior, false;
    var rest := out.Keys;
    while rest != {}
      invariant rest <= out.Keys && r.Keys == prior.Keys + (out.Keys - rest)
      invariant forall x | x in r :: r[x] == if x in out && x !in rest then PhpFacts.Join(Look(prior, x), out[x]) else prior[x]
      invariant changed ==> Grows(prior, out)
      invariant !changed ==> forall x | x in out && x !in rest :: !NewAt(prior, out, x)
    {
      var x :| x in rest;
      var old' := Look(r, x);
      var joined := JoinFact(old', out[x]);
      NewIs(prior, out, x);
      if joined != old' {
        changed := true;
      }
      r, rest := r[x := joined], rest - {x};
    }
    Joined(prior, out, r);
  }

  lemma NewIs(prior: State, out: State, x: string)
    requires x in out
    ensures NewAt(prior, out, x) <==> PhpFacts.Join(Look(prior, x), out[x]) != Look(prior, x)
  {
  }

  lemma Joined(prior: State, out: State, r: State)
    requires r.Keys == prior.Keys + out.Keys
    requires forall x | x in r :: r[x] == if x in out then PhpFacts.Join(Look(prior, x), out[x]) else prior[x]
    ensures r == JoinStates(prior, out)
  {
    hide PhpFacts.Join;
    forall x | x in r
      ensures r[x] == PhpFacts.Join(Look(prior, x), Look(out, x))
    {
      if x !in out {
        JoinNothing(prior[x]);
      }
    }
  }

  lemma JoinNothing(f: Fact)
    ensures PhpFacts.Join(f, map[]) == f
  {
    forall l | l in f
      ensures PhpFacts.Join(f, map[])[l] == f[l]
    {
      OrNothing(f[l]);
    }
  }

  /** The queue has no block twice, and `queued` are its blocks. */
  ghost predicate Lined(queued: set<nat>, queue: seq<nat>) {
    (forall i, j | 0 <= i < j < |queue| :: queue[i] != queue[j]) && forall b :: b in queued <==> b in queue
  }

  lemma LinedMore(queued: set<nat>, queue: seq<nat>, c: nat)
    requires Lined(queued, queue) && c !in queued
    ensures Lined(queued + {c}, queue + [c])
  {
  }

  lemma LinedLess(queued: set<nat>, queue: seq<nat>)
    requires Lined(queued, queue) && queue != []
    ensures Lined(queued - {queue[0]}, queue[1..])
  {
    var rest := queue[1..];
    assert forall i | 0 <= i < |rest| :: rest[i] == queue[i + 1] && rest[i] != queue[0];
    forall b
      ensures b in queued - {queue[0]} <==> b in rest
    {
      if b in queue && b != queue[0] {
        var i :| 0 <= i < |queue| && queue[i] == b;
        assert rest[i - 1] == b;
      }
    }
  }

  /** Gives every successor of `id` the state that leaves it. */
  method Visit(g: Graph, ghost entry: nat, states: array<State>, reached0: set<nat>, queued0: set<nat>, queue0: seq<nat>,
               id: nat, ghost s0: State, out: State)
      returns (reached: set<nat>, queued: set<nat>, queue: seq<nat>)
    requires InRange(g) && id < |g| && out == Step(g[id].op, s0) && states.Length == |g|
    requires Passing(g, entry, states[..], reached0, queued0, queue0, id, s0, 0) && Lined(queued0, queue0)
    modifies states
    ensures Working(g, entry, states[..], reached, queued, queue) && Lined(queued, queue)
    ensures GivesAll(g[id].next, out, Work(old(states[..]), reached0, queue0), Work(states[..], reached, queue))
    ensures |queue| + Rooms(Most(g), states[..], reached, |g|) <= |queue0| + Rooms(Most(g), old(states[..]), reached0, |g|)
  {
    hide Passing, Working, Rooms, Step, Grows, JoinStates, Most, Lined, GivesAll, Gives;
    reached, queued, queue := reached0, queued0, queue0;
    GivesNone(g[id].next, out, Work(states[..], reached0, queue0));
    for i := 0 to |g[id].next|
      invariant Passing(g, entry, states[..], reached, queued, queue, id, s0, i) && Lined(queued, queue)
      invariant GivesAll(g[id].next[..i], out, Work(old(states[..]), reached0, queue0), Work(states[..], reached, queue))
      invariant |queue| + Rooms(Most(g), states[..], reached, |g|) <= |queue0| + Rooms(Most(g), old(states[..]), reached0, |g|)
    {
      var c := g[id].next[i];
      ghost var before, reached1, queued1, queue1 := states[..], reached, queued, queue;
      PassingGives(g, entry, before, reached1, queued1, queue1, id, s0, i);
      var joined, grew := JoinInto(states[c], out);
      var changed := c !in reached || grew;
      reached := reached + {c};
      states[c] := joined;
      assert states[..] == before[c := joined];
      LinedIs(queued, queue, c);
      if changed && c !in queued {
        LinedMore(queued, queue, c);
        queued, queue := queued + {c}, queue + [c];
      }
      GivesJoin(c, out, Work(before, reached1, queue1), Work(states[..], reached, queue));
      GivesMore(g[id].next, i, out, Work(old(states[..]), reached0, queue0), Work(before, reached1, queue1), Work(states[..], reached, queue));
      QueueMore(reached1, queued1, queue1, c);
      Relax(g, entry, before, reached1, queued1, queue1, id, s0, i, if changed then queued1 + {c} else queued1, queue);
      assert queued == if changed then queued1 + {c} else queued1;
      RelaxRooms(g, entry, before, reached1, c, out);
    }
    PassDone(g, entry, states[..], reached, queued, queue, id, s0);
    assert g[id].next[..|g[id].next|] == g[id].next;
  }

  lemma LinedIs(queued: set<nat>, queue: seq<nat>, c: nat)
    requires Lined(queued, queue)
    ensures c in queued <==> c in queue
  {
  }

  lemma GivesNone(next: seq<nat>, out: State, w: Work)
    ensures GivesAll(next[..0], out, w, w)
  {
  }

  lemma QueueMore(reached: set<nat>, queued: set<nat>, queue: seq<nat>, c: nat)
    requires Queue(reached, queued, queue)
    ensures Queue(reached + {c}, queued, queue)
    ensures c !in queued ==> Queue(reached + {c}, queued + {c}, queue + [c])
    ensures c in queued ==> queued + {c} == queued
  {
  }

  lemma PassingGives(g: Graph, entry: nat, states: seq<State>, reached: set<nat>, queued: set<nat>, queue: seq<nat>,
                     id: nat, s0: State, i: nat)
    requires InRange(g) && Passing(g, entry, states, reached, queued, queue, id, s0, i) && i < |g[id].next|
    ensures var c, out := g[id].next[i], Step(g[id].op, s0);
      && c < |g| == |states| && GoodStates(g, entry, states, reached) && Queue(reached, queued, queue)
      && StateNoZero(states[c]) && StateNoZero(out) && SoundState(g, entry, out, c) && Reached(g, entry, c)
  {
    hide Step, StateNoZero, SoundState;
    var c := g[id].next[i];
    assert c in g[id].next;
    assert Good(g, entry, states, reached, id) && Good(g, entry, states, reached, c);
    OutCarried(g, entry, id, s0, c);
    StepNoZero(g[id].op, s0);
  }

  /** No block assigns a variable of the reserved name; a PHP variable starts with `$`. */
  predicate NameFree(g: Graph) {
    forall b | 0 <= b < |g| && g[b].op.Assign? :: g[b].op.name != UNREACHABLE
  }

  /** Blocks no path reaches are marked; the states of the others are exact. */
  ghost predicate Solved(g: Graph, entry: nat, states: seq<State>) {
    && |states| == |g|
    && forall b {:trigger SolvedAt(g, entry, states, b)} | 0 <= b < |g| :: SolvedAt(g, entry, states, b)
  }

  ghost predicate SolvedAt(g: Graph, entry: nat, states: seq<State>, b: nat)
    requires b < |states|
  {
    && (UNREACHABLE !in states[b] <==> Reached(g, entry, b))
    && (Reached(g, entry, b) ==> ExactAt(g, entry, states, b))
  }

  /** Exact states, unless the worklist runs out of steps or names first; and it does not
      on a graph that is small enough. */
  method Solve(g: Graph, entry: nat) returns (r: Result<seq<State>, string>)
    requires InRange(g) && entry < |g| && NameFree(g)
    ensures r.Ok? ==> Solved(g, entry, r.value)
    ensures r.Ok? <==> Finishes(g, entry)
    ensures r == Err(STEP_ERROR) <==> OutOfSteps(g, entry)
    ensures r == Err(NAME_ERROR) <==> OutOfNames(g, entry)
    ensures r.Err? ==> (r.error == STEP_ERROR && Bound(g) > STEP_BUDGET) || (r.error == NAME_ERROR && |Names(g)| > NAME_BUDGET)
  {
    hide Working, Rooms, Bound, Most, Solved, Names, NameFree, Exact, Lined, After, Step, OutOfSteps, OutOfNames, Finishes, GivesAll, Passing;
    var states := new State[|g|](_ => map[]);
    var queue: seq<nat>, reached: set<nat>, queued: set<nat> := [entry], {entry}, {entry};
    var steps := 0;
    WorkStart(g, entry);
    assert states[..] == seq(|g|, _ => map[]);
    AfterStart(g, entry);
    RoomsBound(g, entry);
    while queue != []
      invariant Working(g, entry, states[..], reached, queued, queue) && Lined(queued, queue)
      invariant steps <= STEP_BUDGET && After(g, entry, Work(states[..], reached, queue), steps)
      invariant steps + |queue| + Rooms(Most(g), states[..], reached, |g|) <= Bound(g)
      decreases STEP_BUDGET - steps
    {
      var id := queue[0];
      ghost var w := Work(states[..], reached, queue);
      PassStart(g, entry, states[..], reached, queued, queue);
      LinedLess(queued, queue);
      queue := queue[1..];
      queued := queued - {id};
      steps := steps + 1;
      if steps > STEP_BUDGET {
        AtTheEnd(g, entry, w, steps - 1, map[]);
        return Err(STEP_ERROR);
      }
      var state := states[id];
      var out := Step(g[id].op, state);
      OutNames(g, entry, states[..], reached, queued, queue, id, state);
      OutLeaves(g, entry, w, queued, queue, id, state);
      if |out| > NAME_BUDGET {
        AtTheEnd(g, entry, w, steps - 1, out);
        return Err(NAME_ERROR);
      }
      reached, queued, queue := Visit(g, entry, states, reached, queued, queue, id, state, out);
      OneTransfer(g, entry, w, steps, out, Work(states[..], reached, queue));
    }
    AtTheEnd(g, entry, Work(states[..], reached, queue), steps, map[]);
    WorkDone(g, entry, states[..], reached, queued);
    ghost var solved := states[..];
    for id := 0 to states.Length
      invariant |solved| == |g| && forall b | 0 <= b < |g| :: states[b] == if b < id then Mark(solved[b], b in reached) else solved[b]
    {
      if id !in reached {
        states[id] := states[id][UNREACHABLE := map[]];
      }
    }
    Marked(g, entry, solved, reached, states[..]);
    r := Ok(states[..]);
  }

  lemma AfterStart(g: Graph, entry: nat)
    ensures After(g, entry, Work(seq(|g|, _ => map[]), {entry}, [entry]), 0) && Lined({entry}, [entry])
  {
  }

  lemma OneTransfer(g: Graph, entry: nat, w: Work, n: nat, out: State, w': Work)
    requires n > 0 && After(g, entry, w, n - 1) && Leaves(g, w, out) && |out| <= NAME_BUDGET
    requires GivesAll(g[w.queue[0]].next, out, w.(queue := w.queue[1..]), w')
    ensures After(g, entry, w', n)
  {
    hide GivesAll;
    assert Transfer(g, w, w');
  }

  /** Where the solver stops, it stops for the reason there is. */
  lemma AtTheEnd(g: Graph, entry: nat, w: Work, n: nat, out: State)
    requires n <= STEP_BUDGET && After(g, entry, w, n)
    requires w.queue == [] || n == STEP_BUDGET || (Leaves(g, w, out) && |out| > NAME_BUDGET)
    ensures OutOfSteps(g, entry) <==> n == STEP_BUDGET && w.queue != []
    ensures OutOfNames(g, entry) <==> n < STEP_BUDGET && w.queue != []
    ensures Finishes(g, entry) <==> w.queue == []
  {
    hide After, Leaving, OutOfSteps, OutOfNames, Finishes;
    HaltsOneWay(g, entry, w, n);
  }

  lemma OutLeaves(g: Graph, entry: nat, w: Work, queued: set<nat>, queue: seq<nat>, id: nat, s0: State)
    requires w.queue != [] && w.queue[0] == id && Passing(g, entry, w.states, w.reached, queued, queue, id, s0, 0) && s0 == w.states[id]
    ensures Leaves(g, w, Step(g[id].op, s0))
  {
    hide Leaving, Step;
    assert Good(g, entry, w.states, w.reached, id);
    StepLeaves(g[id].op, s0);
  }

  function Mark(s: State, reached: bool): State {
    if reached then s else s[UNREACHABLE := map[]]
  }

  lemma RoomsBound(g: Graph, entry: nat)
    requires entry < |g|
    ensures 1 + Rooms(Most(g), seq(|g|, _ => map[]), {entry}, |g|) == Bound(g)
  {
    RoomsAtStart(Most(g), seq(|g|, _ => map[]), entry, |g|);
  }

  lemma OutNames(g: Graph, entry: nat, states: seq<State>, reached: set<nat>, queued: set<nat>, queue: seq<nat>, id: nat, s0: State)
    requires Passing(g, entry, states, reached, queued, queue, id, s0, 0)
    ensures |Step(g[id].op, s0)| <= |Names(g)|
  {
    var out := Step(g[id].op, s0);
    assert out.Keys <= Names(g);
    SubsetSize(out.Keys, Names(g));
  }

  lemma WorkDone(g: Graph, entry: nat, states: seq<State>, reached: set<nat>, queued: set<nat>)
    requires Working(g, entry, states, reached, queued, [])
    ensures Exact(g, entry, states, reached) && forall b | 0 <= b < |states| :: NamesIn(states[b], Names(g))
  {
    assert forall b | b in reached :: b !in queued;
    FixedIsExact(g, entry, states, reached);
  }

  lemma Marked(g: Graph, entry: nat, states: seq<State>, reached: set<nat>, states': seq<State>)
    requires NameFree(g) && Exact(g, entry, states, reached)
    requires forall b | 0 <= b < |states| :: NamesIn(states[b], Names(g))
    requires |states'| == |states| && forall b | 0 <= b < |states| :: states'[b] == Mark(states[b], b in reached)
    ensures Solved(g, entry, states')
  {
    hide Reached;
    forall b | 0 <= b < |g|
      ensures SolvedAt(g, entry, states', b)
    {
      assert ExactAt(g, entry, states, b);
      assert NamesIn(states[b], Names(g));
      assert UNREACHABLE !in Names(g);
    }
  }
}
