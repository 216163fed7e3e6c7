/** The two reports: dead stores and unbound reads, one per source location. */
module Findings {
  import opened Wrappers
  import opened Cfg
  import opened LocalSets
  import opened Queries
  import opened Dataflow
  import opened Solver
  import opened Paths
  import opened Ordered

  // ---- sites ----------------------------------------------------------

  /** Event `i` of block `b`. */
  predicate Site(c: FunctionCfg, s: (nat, nat)) {
    s.0 < |c.blocks| && s.1 < |c.blocks[s.0].events|
  }

  function At(c: FunctionCfg, s: (nat, nat)): Event
    requires Site(c, s)
  {
    c.blocks[s.0].events[s.1]
  }

  ghost predicate LiveSite(c: FunctionCfg, s: (nat, nat)) {
    Site(c, s) && Reachable(c.blocks, s.0)
  }

  /** `q` continues a walk that has just left block `b`, or stops there. */
  ghost predicate Continues(g: Graph, b: nat, q: seq<nat>)
    requires b < |g|
  {
    q == [] || (q[0] in g[b].succs && PathFrom(g, q, q[0]))
  }

  /** Some path on from the event reads what its local holds just after it. */
  ghost predicate ReadAfter(c: FunctionCfg, s: (nat, nat))
    requires Site(c, s)
  {
    exists q :: Continues(c.blocks, s.0, q) &&
      ReadsFirst(c.blocks[s.0].events[s.1 + 1..] + SpellAll(c.blocks, q), At(c, s).local)
  }

  /** Some walk reaches the event with its local unbound. */
  ghost predicate UnboundBefore(c: FunctionCfg, s: (nat, nat))
    requires Site(c, s)
  {
    exists t :: Reaches(c.blocks, t, s.0) && Unbound(c.params, t + c.blocks[s.0].events[..s.1], At(c, s).local)
  }

  /** The replayed fact is exact at every event, not only at the ends of blocks. */
  lemma LiveAfterExact(c: FunctionCfg, facts: Facts, s: (nat, nat))
    requires CfgOk(c) && LeastSolution(Liveness, c, facts) && Site(c, s)
    ensures var ev, x := c.blocks[s.0].events, At(c, s).local;
      x in TransferAll(Liveness, Reverse(ev[s.1 + 1..]), InFact(Liveness, c, facts, s.0)) <==> ReadAfter(c, s)
  {
    hide InFact;
    var g, b, x := c.blocks, s.0, At(c, s).local;
    var ev := g[b].events[s.1 + 1..];
    TransferLive(ev, InFact(Liveness, c, facts, b), x);
    InLive(c, facts, b, x);
    LiveMono(x in InFact(Liveness, c, facts, b), ev, x);
    if x in InFact(Liveness, c, facts, b) {
      var d :| d in g[b].succs && d < |facts| && x in facts[d];
      LiveMeetsPaths(c, facts, d, x);
      var q :| PathFrom(g, q, d) && ReadsFirst(SpellAll(g, q), x);
      LiveConcat(false, ev, SpellAll(g, q), x);
      assert Continues(g, b, q);
    } else if LiveBefore(false, ev, x) {
      assert ev + SpellAll(g, []) == ev;
      assert Continues(g, b, []);
    }
    if ReadAfter(c, s) {
      var q :| Continues(g, b, q) && ReadsFirst(ev + SpellAll(g, q), x);
      LiveConcat(false, ev, SpellAll(g, q), x);
      if q != [] && ReadsFirst(SpellAll(g, q), x) {
        assert q[0] < |g|;
        LiveMeetsPaths(c, facts, q[0], x);
      }
    }
  }

  lemma UnboundBeforeExact(c: FunctionCfg, facts: Facts, s: (nat, nat))
    requires CfgOk(c) && LeastSolution(MayUnbound, c, facts) && LiveSite(c, s)
    ensures var ev, x := c.blocks[s.0].events, At(c, s).local;
      x in TransferAll(MayUnbound, ev[..s.1], InFact(MayUnbound, c, facts, s.0)) <==> UnboundBefore(c, s)
  {
    hide InFact, Reaches, Reachable;
    var g, b, x := c.blocks, s.0, At(c, s).local;
    var ev := g[b].events[..s.1];
    TransferUnbound(ev, InFact(MayUnbound, c, facts, b), x);
    UnboundMeetsPaths(c, facts, b, x);
    UnboundMono(x in InFact(MayUnbound, c, facts, b), ev, x);
    assert x < c.locals;
    if x in InFact(MayUnbound, c, facts, b) && UnboundFrom(true, ev, x) {
      var t :| Reaches(g, t, b) && Unbound(c.params, t, x);
      UnboundConcat(x !in c.params, t, ev, x);
    } else if UnboundFrom(false, ev, x) {
      ReachableTraces(g, b);
      var t :| Reaches(g, t, b);
      UnboundConcat(x !in c.params, t, ev, x);
      UnboundMono(Unbound(c.params, t, x), ev, x);
    }
    if UnboundBefore(c, s) {
      var t :| Reaches(g, t, b) && Unbound(c.params, t + ev, x);
      UnboundConcat(x !in c.params, t, ev, x);
      UnboundMono(Unbound(c.params, t, x), ev, x);
      assert UnboundFrom(UnboundFrom(x !in c.params, t, x), ev, x);
    }
  }

  // ---- dead stores ----------------------------------------------------

  datatype Store = Store(event: Event, report: DefReport, dead: bool)

  predicate Reportable(e: Event) {
    e.kind.Def? && e.kind.report.Some?
  }

  ghost predicate Reported(c: FunctionCfg, s: (nat, nat)) {
    LiveSite(c, s) && Reportable(At(c, s))
  }

  /** Stores are met block by block, the events of a block last to first. */
  predicate MetBefore(s: (nat, nat), s': (nat, nat)) {
    s.0 < s'.0 || (s.0 == s'.0 && s.1 > s'.1)
  }

  /** Of the sites with its location, this one is met first. */
  ghost predicate MetFirst(c: FunctionCfg, sites: set<(nat, nat)>, s: (nat, nat)) {
    s in sites && Site(c, s) && forall s' | s' in sites && Site(c, s') && At(c, s').loc == At(c, s).loc :: s' == s || MetBefore(s, s')
  }

  function AddStore(byLoc: map<nat, Store>, e: Event, dead: bool): map<nat, Store>
    requires Reportable(e)
  {
    if e.loc in byLoc then
      var old' := byLoc[e.loc];
      byLoc[e.loc := old'.(dead := old'.dead && dead)]
    else byLoc[e.loc := Store(e, e.kind.report.value, dead)]
  }

  ghost predicate StoredFrom(c: FunctionCfg, sites: set<(nat, nat)>, p: nat, v: Store) {
    && (exists s :: MetFirst(c, sites, s) && Site(c, s) && v.event == At(c, s))
    && v.event.loc == p && Reportable(v.event) && v.report == v.event.kind.report.value
    && (v.dead <==> forall s | s in sites && Site(c, s) && At(c, s).loc == p :: !ReadAfter(c, s))
  }

  /** `byLoc` sums up the reportable stores at `sites`. */
  ghost predicate SumsUp(c: FunctionCfg, sites: set<(nat, nat)>, byLoc: map<nat, Store>) {
    && (forall s | s in sites :: Site(c, s) && At(c, s).loc in byLoc)
    && (forall p {:trigger p in byLoc} | p in byLoc :: StoredFrom(c, sites, p, byLoc[p]))
  }

  lemma MetFirstStill(c: FunctionCfg, sites: set<(nat, nat)>, s1: (nat, nat), s: (nat, nat))
    requires MetFirst(c, sites, s1) && forall s' | s' in sites :: MetBefore(s', s)
    ensures MetFirst(c, sites + {s}, s1)
  {
  }

  lemma MetFirstNew(c: FunctionCfg, sites: set<(nat, nat)>, s: (nat, nat))
    requires Site(c, s) && forall s' | s' in sites :: Site(c, s') ==> At(c, s').loc != At(c, s).loc
    ensures MetFirst(c, sites + {s}, s)
  {
  }

  lemma SumsUpMore(c: FunctionCfg, sites: set<(nat, nat)>, byLoc: map<nat, Store>, s: (nat, nat), dead: bool)
    requires SumsUp(c, sites, byLoc) && Site(c, s) && Reportable(At(c, s)) && (dead <==> !ReadAfter(c, s))
    requires forall s' | s' in sites :: MetBefore(s', s)
    ensures SumsUp(c, sites + {s}, AddStore(byLoc, At(c, s), dead))
  {
    hide ReadAfter, MetFirst, MetBefore;
    var e, more, byLoc' := At(c, s), sites + {s}, AddStore(byLoc, At(c, s), dead);
    forall p | p in byLoc'
      ensures StoredFrom(c, more, p, byLoc'[p])
    {
      if p in byLoc {
        assert StoredFrom(c, sites, p, byLoc[p]);
        var s1 :| MetFirst(c, sites, s1) && Site(c, s1) && byLoc[p].event == At(c, s1);
        MetFirstStill(c, sites, s1, s);
        assert MetFirst(c, more, s1) && byLoc'[p].event == At(c, s1);
      } else {
        MetFirstNew(c, sites, s);
        assert MetFirst(c, more, s) && byLoc'[p].event == At(c, s);
      }
    }
  }

  ghost function StoresIn(c: FunctionCfg, b: nat): set<(nat, nat)>
    requires b < |c.blocks|
  {
    set i: nat | i < |c.blocks[b].events| && Reportable(At(c, (b, i))) :: (b, i)
  }

  /** One block, its events last to first. */
  method ReplayStores(c: FunctionCfg, b: nat, atEnd: LocalSet, byLoc0: map<nat, Store>,
                      ghost facts: Facts, ghost sites0: set<(nat, nat)>)
      returns (byLoc: map<nat, Store>)
    requires CfgOk(c) && LeastSolution(Liveness, c, facts) && b < |c.blocks|
    requires |atEnd.words| == Words(c.locals) && atEnd.Model() == InFact(Liveness, c, facts, b)
    requires SumsUp(c, sites0, byLoc0) && forall s | s in sites0 :: s.0 < b
    ensures SumsUp(c, sites0 + StoresIn(c, b), byLoc)
  {
    hide InFact, TransferAll, ReadAfter, SumsUp, AddStore, LeastSolution, Reverse;
    byLoc := byLoc0;
    ghost var sites := sites0;
    var ev := c.blocks[b].events;
    var state := new LocalSet.Clone(atEnd);
    TransferNone(atEnd.Model());
    var i := |ev|;
    while i > 0
      invariant 0 <= i <= |ev| && |state.words| == Words(c.locals)
      invariant state.Model() == TransferAll(Liveness, Reverse(ev[i..]), InFact(Liveness, c, facts, b))
      invariant SumsUp(c, sites, byLoc)
      invariant forall s: (nat, nat) :: s in sites <==> s in sites0 || (s.0 == b && i <= s.1 && Site(c, s) && Reportable(At(c, s)))
    {
      i := i - 1;
      assert ev[i].local < c.locals;
      if Reportable(ev[i]) {
        LiveAfterExact(c, facts, (b, i));
        var dead := !state.Contains(ev[i].local);
        SumsUpMore(c, sites, byLoc, (b, i), dead);
        byLoc, sites := AddStore(byLoc, ev[i], dead), sites + {(b, i)};
      }
      TransferNext(ev, i, InFact(Liveness, c, facts, b));
      Apply(Liveness, ev[i], state);
    }
    assert sites == sites0 + StoresIn(c, b);
  }

  lemma TransferNone(s: set<nat>)
    ensures TransferAll(Liveness, Reverse([]), s) == s
  {
  }

  lemma TransferNext(ev: Trace, i: nat, s: set<nat>)
    requires i < |ev|
    ensures TransferAll(Liveness, Reverse(ev[i..]), s) == Transfer(Liveness, ev[i], TransferAll(Liveness, Reverse(ev[i + 1..]), s))
  {
    assert Reverse(ev[i..])[..|ev| - i - 1] == Reverse(ev[i + 1..]);
  }

  ghost predicate StoreAt(c: FunctionCfg, p: nat, s: (nat, nat)) {
    Reported(c, s) && At(c, s).loc == p
  }

  /** A reportable store can be reached at `p`, and none that can is ever read. */
  ghost predicate DeadAt(c: FunctionCfg, p: nat) {
    (exists s :: StoreAt(c, p, s)) && forall s | StoreAt(c, p, s) :: !ReadAfter(c, s)
  }

  predicate Lists(found: seq<Store>, p: nat) {
    exists k :: 0 <= k < |found| && found[k].event.loc == p
  }

  /** All the reportable stores of the reachable blocks, block by block. */
  method ScanStores(c: FunctionCfg) returns (byLoc: map<nat, Store>, ghost sites: set<(nat, nat)>)
    requires CfgOk(c)
    ensures SumsUp(c, sites, byLoc)
    ensures forall s: (nat, nat) :: s in sites <==> Reported(c, s)
  {
    hide ReadAfter, InFact, LeastSolution, Reachable, SumsUp;
    var solution, facts, visits := Solve(Liveness, c);
    var reachable := Reach(c.blocks);
    byLoc, sites := map[], {};
    NothingSummed(c);
    for b := 0 to |c.blocks|
      invariant Holds(solution.atEnd, InFacts(Liveness, c, facts), c.locals)
      invariant SumsUp(c, sites, byLoc)
      invariant forall s: (nat, nat) :: s in sites <==> Reported(c, s) && s.0 < b
    {
      assert solution.atEnd[b].Model() == InFacts(Liveness, c, facts)[b];
      if reachable[b] {
        byLoc := ReplayStores(c, b, solution.atEnd[b], byLoc, facts, sites);
        sites := sites + StoresIn(c, b);
      }
    }
  }

  lemma NothingSummed(c: FunctionCfg)
    ensures SumsUp(c, {}, map[])
  {
  }

  method KeepDead(byLoc: map<nat, Store>) returns (found: seq<Store>)
    requires forall p | p in byLoc :: byLoc[p].event.loc == p
    ensures forall p :: Lists(found, p) <==> p in byLoc && byLoc[p].dead
    ensures forall i, j | 0 <= i < j < |found| :: found[i].event.loc < found[j].event.loc
    ensures forall k | 0 <= k < |found| :: found[k].event.loc in byLoc && found[k] == byLoc[found[k].event.loc]
  {
    found := [];
    var ks := InKeyOrder(byLoc.Keys);
    for i := 0 to |ks|
      invariant forall k | 0 <= k < |found| :: found[k].event.loc in byLoc && found[k] == byLoc[found[k].event.loc]
      invariant forall k | 0 <= k < |found| :: found[k].dead && (i < |ks| ==> found[k].event.loc < ks[i])
      invariant forall j | 0 <= j < i && byLoc[ks[j]].dead :: Lists(found, ks[j])
      invariant forall k, j | 0 <= k < j < |found| :: found[k].event.loc < found[j].event.loc
    {
      assert ks[i] in byLoc;
      ghost var before := found;
      if byLoc[ks[i]].dead {
        found := found + [byLoc[ks[i]]];
        assert found[|before|].event.loc == ks[i];
      }
      forall j | 0 <= j < i && byLoc[ks[j]].dead
        ensures Lists(found, ks[j])
      {
        var k :| 0 <= k < |before| && before[k].event.loc == ks[j];
        assert found[k] == before[k];
      }
    }
  }

  /** Exactly the locations all of whose reachable reportable stores are dead, in
      ascending order without repetition. */
  method DeadStores(c: FunctionCfg) returns (found: seq<Store>)
    requires CfgOk(c)
    ensures forall p :: Lists(found, p) <==> DeadAt(c, p)
    ensures forall i, j | 0 <= i < j < |found| :: found[i].event.loc < found[j].event.loc
    ensures forall k | 0 <= k < |found| :: StoreReported(c, found[k])
  {
    hide ReadAfter, Reachable;
    var byLoc, sites := ScanStores(c);
    forall p | p in byLoc
      ensures byLoc[p].event.loc == p && StoreReported(c, byLoc[p]) && (byLoc[p].dead <==> DeadAt(c, p))
    {
      SummedAt(c, sites, byLoc, p);
    }
    forall p | DeadAt(c, p)
      ensures p in byLoc
    {
      var s :| StoreAt(c, p, s);
      assert s in sites;
    }
    found := KeepDead(byLoc);
  }

  /** No store of the location is met before this one. */
  ghost predicate FirstStore(c: FunctionCfg, s: (nat, nat))
    requires Site(c, s)
  {
    forall s' | StoreAt(c, At(c, s).loc, s') :: s' == s || MetBefore(s, s')
  }

  ghost predicate StoreReported(c: FunctionCfg, v: Store) {
    exists s :: Reported(c, s) && v.event == At(c, s) && v.event.kind.report == Some(v.report) && FirstStore(c, s)
  }

  lemma SummedAt(c: FunctionCfg, sites: set<(nat, nat)>, byLoc: map<nat, Store>, p: nat)
    requires SumsUp(c, sites, byLoc) && p in byLoc && forall s: (nat, nat) :: s in sites <==> Reported(c, s)
    ensures byLoc[p].event.loc == p && StoreReported(c, byLoc[p]) && (byLoc[p].dead <==> DeadAt(c, p))
  {
    hide ReadAfter, Reachable;
    assert StoredFrom(c, sites, p, byLoc[p]);
    var s :| MetFirst(c, sites, s) && byLoc[p].event == At(c, s);
    assert StoreAt(c, p, s) && FirstStore(c, s);
    forall s1 | StoreAt(c, p, s1)
      ensures s1 in sites && Site(c, s1) && At(c, s1).loc == p
    {
    }
    forall s1 | s1 in sites && Site(c, s1) && At(c, s1).loc == p
      ensures StoreAt(c, p, s1)
    {
    }
  }

  // ---- unbound reads --------------------------------------------------

  ghost predicate Checked(c: FunctionCfg, s: (nat, nat)) {
    LiveSite(c, s) && At(c, s).kind == Use(true)
  }

  ghost predicate UnboundSite(c: FunctionCfg, s: (nat, nat)) {
    Checked(c, s) && UnboundBefore(c, s)
  }

  /** Some checkable read at `p` can be reached with its local unbound. */
  ghost predicate UnboundAt(c: FunctionCfg, p: nat) {
    exists s :: UnboundSite(c, s) && At(c, s).loc == p
  }

  /** Reads are met block by block, the events of a block first to last. */
  predicate ReadBefore(s: (nat, nat), s': (nat, nat)) {
    s.0 < s'.0 || (s.0 == s'.0 && s.1 < s'.1)
  }

  ghost predicate ReadFirst(c: FunctionCfg, sites: set<(nat, nat)>, s: (nat, nat)) {
    s in sites && Site(c, s) && forall s' | s' in sites && Site(c, s') && At(c, s').loc == At(c, s).loc :: s' == s || ReadBefore(s, s')
  }

  /** `byLoc` has the first of the unbound reads at `sites` for each of their locations. */
  ghost predicate Collects(c: FunctionCfg, sites: set<(nat, nat)>, byLoc: map<nat, Event>) {
    && (forall s | s in sites :: Site(c, s) && At(c, s).loc in byLoc)
    && (forall p {:trigger p in byLoc} | p in byLoc :: CollectedFrom(c, sites, p, byLoc[p]))
  }

  ghost predicate CollectedFrom(c: FunctionCfg, sites: set<(nat, nat)>, p: nat, e: Event) {
    e.loc == p && exists s :: ReadFirst(c, sites, s) && e == At(c, s)
  }

  lemma CollectsMore(c: FunctionCfg, sites: set<(nat, nat)>, byLoc: map<nat, Event>, s: (nat, nat))
    requires Collects(c, sites, byLoc) && Site(c, s) && forall s' | s' in sites :: ReadBefore(s', s)
    ensures var e := At(c, s);
      Collects(c, sites + {s}, if e.loc in byLoc then byLoc else byLoc[e.loc := e])
  {
    var e, more := At(c, s), sites + {s};
    var byLoc' := if e.loc in byLoc then byLoc else byLoc[e.loc := e];
    forall p | p in byLoc'
      ensures CollectedFrom(c, more, p, byLoc'[p])
    {
      if p in byLoc {
        assert CollectedFrom(c, sites, p, byLoc[p]);
        var s1 :| ReadFirst(c, sites, s1) && byLoc[p] == At(c, s1);
        assert ReadFirst(c, more, s1);
      } else {
        assert forall s1 | s1 in sites :: At(c, s1).loc != p;
        assert ReadFirst(c, more, s);
      }
    }
  }

  ghost function UnboundIn(c: FunctionCfg, b: nat): set<(nat, nat)>
    requires b < |c.blocks|
  {
    set i: nat | i < |c.blocks[b].events| && UnboundSite(c, (b, i)) :: (b, i)
  }

  /** One block, its events first to last. */
  method ReplayReads(c: FunctionCfg, b: nat, atStart: LocalSet, byLoc0: map<nat, Event>,
                     ghost facts: Facts, ghost sites0: set<(nat, nat)>)
      returns (byLoc: map<nat, Event>)
    requires CfgOk(c) && LeastSolution(MayUnbound, c, facts) && b < |c.blocks| && Reachable(c.blocks, b)
    requires |atStart.words| == Words(c.locals) && atStart.Model() == InFact(MayUnbound, c, facts, b)
    requires Collects(c, sites0, byLoc0) && forall s | s in sites0 :: s.0 < b
    ensures Collects(c, sites0 + UnboundIn(c, b), byLoc)
  {
    hide InFact, Collects, UnboundBefore, Reachable, Transfer;
    byLoc := byLoc0;
    ghost var sites := sites0;
    var ev := c.blocks[b].events;
    var state := new LocalSet.Clone(atStart);
    for i := 0 to |ev|
      invariant |state.words| == Words(c.locals)
      invariant state.Model() == TransferAll(MayUnbound, ev[..i], InFact(MayUnbound, c, facts, b))
      invariant Collects(c, sites, byLoc)
      invariant forall s: (nat, nat) :: s in sites <==> s in sites0 || (s.0 == b && s.1 < i && UnboundSite(c, s))
    {
      assert ev[i].local < c.locals;
      UnboundBeforeExact(c, facts, (b, i));
      if ev[i].kind == Use(true) && state.Contains(ev[i].local) {
        CollectsMore(c, sites, byLoc, (b, i));
        if ev[i].loc !in byLoc {
          byLoc := byLoc[ev[i].loc := ev[i]];
        }
        sites := sites + {(b, i)};
      }
      assert ev[..i + 1][..i] == ev[..i];
      Apply(MayUnbound, ev[i], state);
    }
    assert sites == sites0 + UnboundIn(c, b);
  }

  method ScanReads(c: FunctionCfg) returns (byLoc: map<nat, Event>, ghost sites: set<(nat, nat)>)
    requires CfgOk(c)
    ensures Collects(c, sites, byLoc)
    ensures forall s: (nat, nat) :: s in sites <==> UnboundSite(c, s)
  {
    hide InFact, LeastSolution, Reachable, Collects, UnboundBefore;
    var solution, facts, visits := Solve(MayUnbound, c);
    var reachable := Reach(c.blocks);
    byLoc, sites := map[], {};
    NothingCollected(c);
    for b := 0 to |c.blocks|
      invariant Holds(solution.atStart, InFacts(MayUnbound, c, facts), c.locals)
      invariant Collects(c, sites, byLoc)
      invariant forall s: (nat, nat) :: s in sites <==> UnboundSite(c, s) && s.0 < b
    {
      assert solution.atStart[b].Model() == InFacts(MayUnbound, c, facts)[b];
      if reachable[b] {
        byLoc := ReplayReads(c, b, solution.atStart[b], byLoc, facts, sites);
        sites := sites + UnboundIn(c, b);
      }
    }
  }

  lemma NothingCollected(c: FunctionCfg)
    ensures Collects(c, {}, map[])
  {
  }

  lemma CollectedAt(c: FunctionCfg, sites: set<(nat, nat)>, byLoc: map<nat, Event>, p: nat)
    requires Collects(c, sites, byLoc) && forall s: (nat, nat) :: s in sites <==> UnboundSite(c, s)
    ensures p in byLoc <==> UnboundAt(c, p)
    ensures p in byLoc ==> byLoc[p].loc == p && UnboundEvent(c, byLoc[p])
  {
    hide UnboundBefore, Checked;
    if p in byLoc {
      assert CollectedFrom(c, sites, p, byLoc[p]);
      var s :| ReadFirst(c, sites, s) && byLoc[p] == At(c, s);
      assert UnboundSite(c, s) && FirstRead(c, s);
    }
  }

  /** No unbound read of the location is met before this one. */
  ghost predicate FirstRead(c: FunctionCfg, s: (nat, nat))
    requires Site(c, s)
  {
    forall s' | UnboundSite(c, s') && At(c, s').loc == At(c, s).loc :: s' == s || ReadBefore(s, s')
  }

  ghost predicate UnboundEvent(c: FunctionCfg, e: Event) {
    exists s :: UnboundSite(c, s) && e == At(c, s) && FirstRead(c, s)
  }

  /** Exactly the locations with a checkable read that some walk reaches unbound, in
      ascending order without repetition. */
  method UnboundReads(c: FunctionCfg) returns (found: seq<Event>)
    requires CfgOk(c)
    ensures forall p :: ListsRead(found, p) <==> UnboundAt(c, p)
    ensures forall i, j | 0 <= i < j < |found| :: found[i].loc < found[j].loc
    ensures forall k | 0 <= k < |found| :: UnboundEvent(c, found[k])
  {
    hide UnboundAt, UnboundEvent, UnboundSite, Collects;
    var byLoc, sites := ScanReads(c);
    var ks := InKeyOrder(byLoc.Keys);
    found := [];
    for i := 0 to |ks|
      invariant |found| == i && forall k | 0 <= k < i :: found[k].loc == ks[k] && UnboundEvent(c, found[k])
    {
      CollectedAt(c, sites, byLoc, ks[i]);
      found := found + [byLoc[ks[i]]];
    }
    forall p: nat
      ensures ListsRead(found, p) <==> UnboundAt(c, p)
    {
      CollectedAt(c, sites, byLoc, p);
      if p in byLoc {
        var k :| 0 <= k < |ks| && ks[k] == p;
        assert found[k].loc == p;
      }
    }
  }

  predicate ListsRead(found: seq<Event>, p: nat) {
    exists k :: 0 <= k < |found| && found[k].loc == p
  }
}
