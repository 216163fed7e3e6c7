/** What the two reports mean for the runs of a function: they are exact. */
module EndToEnd {
  import opened Wrappers
  import opened Cfg
  import opened Python
  import L = Lower
  import B = Builder
  import opened Growth
  import opened Shape
  import opened Correctness
  import opened Endings
  import opened Agreement
  import opened Queries
  import opened Paths
  import opened Findings

  datatype Function = Function(locals: nat, params: seq<nat>, body: Block)

  /** What the parser and the collection of names guarantee. */
  predicate Legal(f: Function) {
    LegalBlock(f.body) && BlockLocals(f.body, f.locals) && forall i | 0 <= i < |f.params| :: f.params[i] < f.locals
  }

  function CfgOf(f: Function): FunctionCfg {
    FunctionCfg(f.locals, f.params, L.Build(f.body))
  }

  lemma CfgOfOk(f: Function)
    requires Legal(f)
    ensures CfgOk(CfgOf(f))
  {
    hide L.Build, LegalBlock, BlockLocals;
    BuildShape(f.body, f.locals);
    var g := L.Build(f.body);
    forall b, i | 0 <= b < |g| && 0 <= i < |g[b].succs|
      ensures g[b].succs[i] < |g|
    {
      assert BlockOk(g, b);
      assert g[b].succs[i] in g[b].succs;
    }
    forall b | 0 <= b < |g|
      ensures LocalsOk(g[b].events, f.locals)
    {
      assert Fit(g, f.locals, b);
    }
  }

  // ---- walks through an event -----------------------------------------

  /** Everything `p` spells, its last block included. */
  ghost function Through(g: Graph, p: seq<nat>): Trace
    requires |p| > 0 && forall i :: 0 <= i < |p| ==> p[i] < |g|
  {
    Spell(g, p) + g[p[|p| - 1]].events
  }

  lemma {:induction false} ThroughSplit(g: Graph, p: seq<nat>, j: nat)
    requires Walk(g, p) && j < |p|
    ensures Through(g, p) == Spell(g, p[..j + 1]) + SpellAll(g, p[j..])
    decreases |p| - j
  {
    SpellAllHead(g, p, j);
    if j == |p| - 1 {
      assert p[j + 1..] == [] && p[..j + 1] == p;
    } else {
      hide SpellAll, Spell, Walk;
      ThroughSplit(g, p, j + 1);
      SpellLast(g, p, j);
      Assoc(Spell(g, p[..j + 1]), g[p[j]].events, SpellAll(g, p[j + 1..]));
    }
  }

  lemma SpellAllHead(g: Graph, p: seq<nat>, j: nat)
    requires Walk(g, p) && j < |p|
    ensures SpellAll(g, p[j..]) == g[p[j]].events + SpellAll(g, p[j + 1..])
  {
    assert p[j..][1..] == p[j + 1..];
  }

  lemma SpellLast(g: Graph, p: seq<nat>, j: nat)
    requires Walk(g, p) && j + 1 < |p|
    ensures Spell(g, p[..j + 2]) == Spell(g, p[..j + 1]) + g[p[j]].events
  {
    assert p[..j + 2][..j + 1] == p[..j + 1];
  }

  /** The block of a walk in which it spells its event `i`. */
  lemma {:induction false} BlockOfEvent(g: Graph, p: seq<nat>, i: nat) returns (j: nat)
    requires Walk(g, p) && i < |Through(g, p)|
    ensures j < |p| && |Spell(g, p[..j + 1])| <= i < |Spell(g, p[..j + 1])| + |g[p[j]].events|
    decreases |p|
  {
    if i >= |Spell(g, p)| {
      j := |p| - 1;
      assert p[..j + 1] == p;
    } else {
      var q := p[..|p| - 1];
      WalkPrefix(g, p, |p| - 1);
      j := BlockOfEvent(g, q, i);
      assert q[..j + 1] == p[..j + 1];
    }
  }

  lemma WalkPrefix(g: Graph, p: seq<nat>, n: nat)
    requires Walk(g, p) && 0 < n <= |p|
    ensures Walk(g, p[..n])
  {
    var q := p[..n];
    forall i | 0 <= i < |q| - 1
      ensures q[i + 1] in g[q[i]].succs
    {
      assert p[i + 1] in g[p[i]].succs;
    }
  }

  lemma PathSuffix(g: Graph, p: seq<nat>, j: nat)
    requires Walk(g, p) && j < |p|
    ensures Continues(g, p[j], p[j + 1..])
  {
    var q := p[j + 1..];
    if q != [] {
      assert p[j + 1] in g[p[j]].succs;
      forall i | 0 <= i < |q| - 1
        ensures q[i + 1] in g[q[i]].succs
      {
        assert p[j + 1 + i + 1] in g[p[j + 1 + i]].succs;
      }
    }
  }

  lemma ThroughSite(c: FunctionCfg, p: seq<nat>, i: nat) returns (s: (nat, nat), t0: Trace, q: seq<nat>)
    requires Walk(c.blocks, p) && i < |Through(c.blocks, p)|
    ensures LiveSite(c, s) && Reaches(c.blocks, t0, s.0) && Continues(c.blocks, s.0, q)
    ensures At(c, s) == Through(c.blocks, p)[i]
    ensures Through(c.blocks, p)[..i] == t0 + c.blocks[s.0].events[..s.1]
    ensures Through(c.blocks, p)[i + 1..] == c.blocks[s.0].events[s.1 + 1..] + SpellAll(c.blocks, q)
  {
    hide Spell, SpellAll;
    var g := c.blocks;
    var j := BlockOfEvent(g, p, i);
    ThroughSplit(g, p, j);
    var p0 := p[..j + 1];
    WalkPrefix(g, p, j + 1);
    PathSuffix(g, p, j);
    t0, q := Spell(g, p0), p[j + 1..];
    s := (p[j], i - |t0|);
    assert p0[|p0| - 1] == p[j];
    SpellAllHead(g, p, j);
    SplitAt(t0, g[p[j]].events, SpellAll(g, q), Through(g, p), i);
  }

  /** Event `i` of a trace the graph spells is an event of a reachable block, and the
      rest of the trace starts what some path on from there spells. */
  lemma SpellsSite(c: FunctionCfg, t: Trace, i: nat) returns (s: (nat, nat), t0: Trace, q: seq<nat>)
    requires Spells(c.blocks, t) && i < |t|
    ensures LiveSite(c, s) && At(c, s) == t[i]
    ensures Reaches(c.blocks, t0, s.0) && t[..i] == t0 + c.blocks[s.0].events[..s.1]
    ensures Continues(c.blocks, s.0, q) && t[i + 1..] <= c.blocks[s.0].events[s.1 + 1..] + SpellAll(c.blocks, q)
  {
    hide Continues, SpellAll;
    var g := c.blocks;
    var b: nat, u, e :| Reaches(g, u, b) && b < |g| && e <= g[b].events && t == u + e;
    var p :| Walk(g, p) && p[|p| - 1] == b && Spell(g, p) == u;
    s, t0, q := ThroughSite(c, p, i);
    PrefixAt(t, Through(g, p), i);
  }

  lemma PrefixAt(t: Trace, all: Trace, i: nat)
    requires t <= all && i < |t|
    ensures t[..i] == all[..i] && t[i] == all[i] && t[i + 1..] <= all[i + 1..]
  {
  }

  lemma ContinuesInRange(g: Graph, b: nat, q: seq<nat>)
    requires b < |g| && Continues(g, b, q)
    ensures forall i | 0 <= i < |q| :: q[i] < |g|
  {
  }

  lemma SplitAt(t0: Trace, ev: Trace, rest: Trace, all: Trace, i: nat)
    requires all == t0 + (ev + rest) && |t0| <= i < |t0| + |ev|
    ensures all[..i] == t0 + ev[..i - |t0|] && all[i] == ev[i - |t0|]
    ensures all[i + 1..] == ev[i - |t0| + 1..] + rest
  {
  }

  /** A walk to the block of an event, through it and on along a path. */
  lemma {:induction false} SpellsOn(g: Graph, t: Trace, b: nat, q: seq<nat>)
    requires SuccsInRange(g) && b < |g| && Reaches(g, t, b) && Continues(g, b, q)
    ensures Spells(g, t + g[b].events + SpellAll(g, q))
    decreases |q|
  {
    hide Reaches;
    if q == [] {
      assert t + g[b].events + SpellAll(g, q) == t + g[b].events;
    } else {
      ReachesStep(g, t, b, q[0]);
      var rest := q[1..];
      if rest != [] {
        assert q[0 + 1] in g[q[0]].succs;
        forall i | 0 <= i < |rest| - 1
          ensures rest[i + 1] in g[rest[i]].succs
        {
          assert q[i + 1 + 1] in g[q[i + 1]].succs;
        }
      }
      SpellsOn(g, t + g[b].events, q[0], rest);
      assert t + g[b].events + SpellAll(g, q) == t + g[b].events + g[q[0]].events + SpellAll(g, rest);
    }
  }

  lemma SpellsPrefix(g: Graph, t: Trace, b: nat, n: nat)
    requires b < |g| && Reaches(g, t, b) && n <= |g[b].events|
    ensures Spells(g, t + g[b].events[..n])
  {
    assert g[b].events[..n] <= g[b].events;
  }

  // ---- runs -----------------------------------------------------------

  /** Event `i` of a run is a checkable read, at `p`, of a local that is then unbound. */
  ghost predicate UnboundRead(m: Rules, f: Function, p: nat, t: Trace, i: nat) {
    && Run(m, f.body, t) && i < |t| && t[i].loc == p && t[i].kind == Use(true)
    && Unbound(f.params, t[..i], t[i].local)
  }

  ghost predicate ReadsUnbound(m: Rules, f: Function, p: nat) {
    exists t, i :: UnboundRead(m, f, p, t, i)
  }

  /** Read-before-init is exact about the function as it is lowered: it reports just the
      reads some run makes of a local that is unbound. */
  lemma UnboundReadsExact(f: Function, p: nat)
    requires Legal(f)
    ensures UnboundAt(CfgOf(f), p) <==> ReadsUnbound(LOWERED, f, p)
  {
    if UnboundAt(CfgOf(f), p) {
      UnboundReadsSound(f, p);
    }
    if ReadsUnbound(LOWERED, f, p) {
      UnboundReadsComplete(f, p);
    }
  }

  lemma UnboundReadsSound(f: Function, p: nat)
    requires Legal(f) && UnboundAt(CfgOf(f), p)
    ensures ReadsUnbound(LOWERED, f, p)
  {
    hide L.Build, Legal, UnboundBefore, Reachable, UnboundRead;
    var c := CfgOf(f);
    var s :| UnboundSite(c, s) && At(c, s).loc == p;
    var t, i := UnboundSiteRuns(f, s);
  }

  lemma UnboundSiteRuns(f: Function, s: (nat, nat)) returns (t: Trace, i: nat)
    requires Legal(f) && UnboundSite(CfgOf(f), s)
    ensures UnboundRead(LOWERED, f, At(CfgOf(f), s).loc, t, i) && t[i] == At(CfgOf(f), s)
  {
    hide L.Build, Reaches, Spells, Run, LegalBlock;
    var c := CfgOf(f);
    var t0 :| Reaches(c.blocks, t0, s.0) && Unbound(f.params, t0 + c.blocks[s.0].events[..s.1], At(c, s).local);
    var ev := c.blocks[s.0].events;
    t := t0 + ev[..s.1 + 1];
    SpellsPrefix(c.blocks, t0, s.0, s.1 + 1);
    SpellsRuns(f.body, t);
    i := |t0| + s.1;
    assert t[..i] == t0 + ev[..s.1] && t[i] == ev[s.1];
  }

  lemma UnboundReadsComplete(f: Function, p: nat)
    requires Legal(f) && ReadsUnbound(LOWERED, f, p)
    ensures UnboundAt(CfgOf(f), p)
  {
    hide L.Build, Reaches, Spells, Run, LegalBlock, Continues, Reachable;
    var c := CfgOf(f);
    var t, i :| UnboundRead(LOWERED, f, p, t, i);
    SpellsRuns(f.body, t);
    var s, t0, q := SpellsSite(c, t, i);
    assert UnboundBefore(c, s);
    assert UnboundSite(c, s) && At(c, s).loc == p;
  }

  /** Event `i` of a run is a store at `p` that the rule may speak about. */
  ghost predicate StoreIn(m: Rules, f: Function, p: nat, t: Trace, i: nat) {
    Run(m, f.body, t) && i < |t| && t[i].loc == p && Reportable(t[i])
  }

  /** The run reads what the store put there. */
  ghost predicate ReadIn(m: Rules, f: Function, p: nat, t: Trace, i: nat) {
    StoreIn(m, f, p, t, i) && ReadsFirst(t[i + 1..], t[i].local)
  }

  /** Some run stores at `p`, and no run reads what it stored there before the next
      definition or deletion of the local. */
  ghost predicate NeverRead(m: Rules, f: Function, p: nat) {
    (exists t, i :: StoreIn(m, f, p, t, i)) && !(exists t, i :: ReadIn(m, f, p, t, i))
  }

  /** Dead-store is exact about the function as it is lowered: it reports just the stores
      whose value no run reads, over all copies of the `finally` they may stand in. */
  lemma DeadStoresExact(f: Function, p: nat)
    requires Legal(f)
    ensures DeadAt(CfgOf(f), p) <==> NeverRead(LOWERED, f, p)
  {
    hide ReadAfter, ReadIn, StoreIn, StoreAt;
    var c := CfgOf(f);
    if s :| StoreAt(c, p, s) {
      var t, i := SiteRuns(f, p, s);
    }
    if t, i :| StoreIn(LOWERED, f, p, t, i) {
      var s := RunSite(f, p, t, i);
    }
    if t, i :| ReadIn(LOWERED, f, p, t, i) {
      var s := ReadSite(f, p, t, i);
    }
    if s :| StoreAt(c, p, s) && SiteRead(c, s) {
      SiteReads(f, p, s);
    }
    DeadAtIs(c, p);
  }

  ghost predicate SiteRead(c: FunctionCfg, s: (nat, nat)) {
    Site(c, s) && ReadAfter(c, s)
  }

  lemma DeadAtIs(c: FunctionCfg, p: nat)
    ensures DeadAt(c, p) <==> (exists s :: StoreAt(c, p, s)) && !(exists s :: StoreAt(c, p, s) && SiteRead(c, s))
  {
    hide ReadAfter, Reachable;
    if DeadAt(c, p) {
      forall s | StoreAt(c, p, s)
        ensures !SiteRead(c, s)
      {
      }
    }
    if exists s :: StoreAt(c, p, s) && SiteRead(c, s) {
      var s :| StoreAt(c, p, s) && SiteRead(c, s);
      assert ReadAfter(c, s);
    }
    if (exists s :: StoreAt(c, p, s)) && !(exists s :: StoreAt(c, p, s) && SiteRead(c, s)) {
      forall s | StoreAt(c, p, s)
        ensures !ReadAfter(c, s)
      {
        assert !SiteRead(c, s);
      }
    }
  }

  lemma SiteRuns(f: Function, p: nat, s: (nat, nat)) returns (t: Trace, i: nat)
    requires Legal(f) && StoreAt(CfgOf(f), p, s)
    ensures StoreIn(LOWERED, f, p, t, i) && t[i] == At(CfgOf(f), s)
  {
    hide L.Build, Reaches, Spells, Run, LegalBlock;
    var c := CfgOf(f);
    ReachableTraces(c.blocks, s.0);
    var t0 :| Reaches(c.blocks, t0, s.0);
    var ev := c.blocks[s.0].events;
    SpellsPrefix(c.blocks, t0, s.0, s.1 + 1);
    t, i := t0 + ev[..s.1 + 1], |t0| + s.1;
    SpellsRuns(f.body, t);
  }

  lemma RunSite(f: Function, p: nat, t: Trace, i: nat) returns (s: (nat, nat))
    requires Legal(f) && StoreIn(LOWERED, f, p, t, i)
    ensures StoreAt(CfgOf(f), p, s)
  {
    hide L.Build, Reaches, Spells, Run, LegalBlock, Continues, Reachable;
    SpellsRuns(f.body, t);
    var t0, q;
    s, t0, q := SpellsSite(CfgOf(f), t, i);
  }

  lemma ReadSite(f: Function, p: nat, t: Trace, i: nat) returns (s: (nat, nat))
    requires Legal(f) && ReadIn(LOWERED, f, p, t, i)
    ensures StoreAt(CfgOf(f), p, s) && SiteRead(CfgOf(f), s)
  {
    hide L.Build, Reaches, Spells, Run, LegalBlock, Continues, Reachable;
    SpellsRuns(f.body, t);
    var c := CfgOf(f);
    var t0, q;
    s, t0, q := SpellsSite(c, t, i);
    ContinuesInRange(c.blocks, s.0, q);
    var all := c.blocks[s.0].events[s.1 + 1..] + SpellAll(c.blocks, q);
    ReadsMore(t[i + 1..], all, t[i].local);
    assert ReadAfter(c, s);
  }

  lemma ReadsMore(t: Trace, u: Trace, x: nat)
    requires t <= u && ReadsFirst(t, x)
    ensures ReadsFirst(u, x)
  {
    var rest := u[|t|..];
    assert u == t + rest;
    LiveConcat(false, t, rest, x);
    LiveMono(LiveBefore(false, rest, x), t, x);
  }

  lemma SiteReads(f: Function, p: nat, s: (nat, nat))
    requires Legal(f) && StoreAt(CfgOf(f), p, s) && SiteRead(CfgOf(f), s)
    ensures exists t, i :: ReadIn(LOWERED, f, p, t, i)
  {
    hide L.Build, Reaches, Spells, Run, LegalBlock, ReadsFirst;
    var c := CfgOf(f);
    CfgOfOk(f);
    ReachableTraces(c.blocks, s.0);
    var t0 :| Reaches(c.blocks, t0, s.0);
    var ev := c.blocks[s.0].events;
    var q :| Continues(c.blocks, s.0, q) && ReadsFirst(ev[s.1 + 1..] + SpellAll(c.blocks, q), At(c, s).local);
    SpellsOn(c.blocks, t0, s.0, q);
    var t, i := t0 + ev + SpellAll(c.blocks, q), |t0| + s.1;
    SpellsRuns(f.body, t);
    assert t == t0 + (ev + SpellAll(c.blocks, q));
    SplitAt(t0, ev, SpellAll(c.blocks, q), t, i);
    assert ReadIn(LOWERED, f, p, t, i);
  }

  // ---- the two rules --------------------------------------------------

  /** The event is one some run makes, a checkable read of a local that is then unbound. */
  ghost predicate MadeUnbound(m: Rules, f: Function, e: Event) {
    exists t, i :: UnboundRead(m, f, e.loc, t, i) && t[i] == e
  }

  /** The event is a store some run makes, reported as its kind says. */
  ghost predicate MadeStore(m: Rules, f: Function, v: Store) {
    v.event.kind == Def(Some(v.report)) && exists t, i :: StoreIn(m, f, v.event.loc, t, i) && t[i] == v.event
  }

  ghost predicate AllMadeUnbound(m: Rules, f: Function, found: seq<Event>) {
    forall k | 0 <= k < |found| :: MadeUnbound(m, f, found[k])
  }

  ghost predicate AllMadeStores(m: Rules, f: Function, found: seq<Store>) {
    forall k | 0 <= k < |found| :: MadeStore(m, f, found[k])
  }

  lemma UnboundEventMade(f: Function, e: Event)
    requires Legal(f) && UnboundEvent(CfgOf(f), e)
    ensures MadeUnbound(LOWERED, f, e)
  {
    hide L.Build, Legal, UnboundBefore, Reachable, UnboundRead;
    var s :| UnboundSite(CfgOf(f), s) && e == At(CfgOf(f), s);
    var t, i := UnboundSiteRuns(f, s);
  }

  lemma StoreReportedMade(f: Function, v: Store)
    requires Legal(f) && StoreReported(CfgOf(f), v)
    ensures MadeStore(LOWERED, f, v)
  {
    hide L.Build, Legal, StoreIn, Reachable;
    var s :| Reported(CfgOf(f), s) && v.event == At(CfgOf(f), s) && v.event.kind.report == Some(v.report);
    var t, i := SiteRuns(f, v.event.loc, s);
  }

  /** Builds the graph and reports the reads before initialisation: exactly the locations
      at which some run reads a local that is unbound. */
  method ReadBeforeInit(f: Function) returns (found: seq<Event>)
    requires Legal(f)
    ensures forall i, j | 0 <= i < j < |found| :: found[i].loc < found[j].loc
    ensures forall p :: ListsRead(found, p) <==> ReadsUnbound(LOWERED, f, p)
    ensures AllMadeUnbound(LOWERED, f, found)
    ensures Harmless(f.body) ==> AllMadeUnbound(WRITTEN, f, found) && forall p :: ListsRead(found, p) <==> ReadsUnbound(WRITTEN, f, p)
    ensures Harmless(f.body) && PlainBlock(f.body) ==>
      AllMadeUnbound(TIDY, f, found) && forall p :: ListsRead(found, p) <==> ReadsUnbound(TIDY, f, p)
  {
    hide UnboundAt, MadeUnbound, UnboundEvent, ReadsUnbound, Legal, HarmlessBlock, PlainBlock, L.Build;
    CfgOfOk(f);
    var g := B.Build(f.body);
    found := UnboundReads(FunctionCfg(f.locals, f.params, g));
    forall p: nat
      ensures UnboundAt(CfgOf(f), p) <==> ReadsUnbound(LOWERED, f, p)
      ensures Harmless(f.body) ==> (ReadsUnbound(LOWERED, f, p) <==> ReadsUnbound(WRITTEN, f, p))
      ensures Harmless(f.body) && PlainBlock(f.body) ==> (ReadsUnbound(LOWERED, f, p) <==> ReadsUnbound(TIDY, f, p))
    {
      UnboundReadsExact(f, p);
      ReportsAgree(f, p);
    }
    forall k | 0 <= k < |found|
      ensures MadeUnbound(LOWERED, f, found[k])
      ensures Harmless(f.body) ==> MadeUnbound(WRITTEN, f, found[k])
      ensures Harmless(f.body) && PlainBlock(f.body) ==> MadeUnbound(TIDY, f, found[k])
    {
      UnboundEventMade(f, found[k]);
      EventsAgree(f, found[k]);
    }
  }

  /** Builds the graph and reports the dead stores: exactly the locations some run stores
      at without any run reading the value. */
  method DeadStore(f: Function) returns (found: seq<Store>)
    requires Legal(f)
    ensures forall i, j | 0 <= i < j < |found| :: found[i].event.loc < found[j].event.loc
    ensures forall p :: Lists(found, p) <==> NeverRead(LOWERED, f, p)
    ensures AllMadeStores(LOWERED, f, found)
    ensures Harmless(f.body) ==> AllMadeStores(WRITTEN, f, found) && forall p :: Lists(found, p) <==> NeverRead(WRITTEN, f, p)
    ensures Harmless(f.body) && PlainBlock(f.body) ==>
      AllMadeStores(TIDY, f, found) && forall p :: Lists(found, p) <==> NeverRead(TIDY, f, p)
  {
    hide DeadAt, MadeStore, StoreReported, NeverRead, Legal, HarmlessBlock, PlainBlock, L.Build;
    CfgOfOk(f);
    var g := B.Build(f.body);
    found := DeadStores(FunctionCfg(f.locals, f.params, g));
    forall p: nat
      ensures DeadAt(CfgOf(f), p) <==> NeverRead(LOWERED, f, p)
      ensures Harmless(f.body) ==> (NeverRead(LOWERED, f, p) <==> NeverRead(WRITTEN, f, p))
      ensures Harmless(f.body) && PlainBlock(f.body) ==> (NeverRead(LOWERED, f, p) <==> NeverRead(TIDY, f, p))
    {
      DeadStoresExact(f, p);
      ReportsAgree(f, p);
    }
    forall k | 0 <= k < |found|
      ensures MadeStore(LOWERED, f, found[k])
      ensures Harmless(f.body) ==> MadeStore(WRITTEN, f, found[k])
      ensures Harmless(f.body) && PlainBlock(f.body) ==> MadeStore(TIDY, f, found[k])
    {
      StoreReportedMade(f, found[k]);
      StoresAgree(f, found[k]);
    }
  }

  /** Under rules that agree on a function, the reports mean the same. */
  lemma SameReports(m: Rules, m': Rules, f: Function, p: nat)
    requires AgreeBlock(m, m', f.body)
    ensures ReadsUnbound(m, f, p) <==> ReadsUnbound(m', f, p)
    ensures NeverRead(m, f, p) <==> NeverRead(m', f, p)
  {
    hide Run, HarmlessBlock, PlainBlock;
    forall t
      ensures Run(m, f.body, t) <==> Run(m', f.body, t)
    {
      SameRuns(m, m', f.body, t);
    }
    forall t, i
      ensures UnboundRead(m, f, p, t, i) <==> UnboundRead(m', f, p, t, i)
      ensures StoreIn(m, f, p, t, i) <==> StoreIn(m', f, p, t, i)
      ensures ReadIn(m, f, p, t, i) <==> ReadIn(m', f, p, t, i)
    {
    }
  }

  lemma SameEvents(m: Rules, m': Rules, f: Function, e: Event)
    requires AgreeBlock(m, m', f.body)
    ensures MadeUnbound(m, f, e) <==> MadeUnbound(m', f, e)
  {
    hide Run, HarmlessBlock, PlainBlock;
    forall t
      ensures Run(m, f.body, t) <==> Run(m', f.body, t)
    {
      SameRuns(m, m', f.body, t);
    }
    forall t, i
      ensures UnboundRead(m, f, e.loc, t, i) <==> UnboundRead(m', f, e.loc, t, i)
    {
    }
  }

  lemma SameStores(m: Rules, m': Rules, f: Function, v: Store)
    requires AgreeBlock(m, m', f.body)
    ensures MadeStore(m, f, v) <==> MadeStore(m', f, v)
  {
    hide Run, HarmlessBlock, PlainBlock;
    forall t
      ensures Run(m, f.body, t) <==> Run(m', f.body, t)
    {
      SameRuns(m, m', f.body, t);
    }
    forall t, i
      ensures StoreIn(m, f, v.event.loc, t, i) <==> StoreIn(m', f, v.event.loc, t, i)
    {
    }
  }

  lemma EventsAgree(f: Function, e: Event)
    ensures Harmless(f.body) ==> (MadeUnbound(LOWERED, f, e) <==> MadeUnbound(WRITTEN, f, e))
    ensures Harmless(f.body) && PlainBlock(f.body) ==> (MadeUnbound(LOWERED, f, e) <==> MadeUnbound(TIDY, f, e))
  {
    hide MadeUnbound, HarmlessBlock, PlainBlock;
    if Harmless(f.body) {
      SameEvents(LOWERED, WRITTEN, f, e);
      if PlainBlock(f.body) {
        SameEvents(LOWERED, TIDY, f, e);
      }
    }
  }

  lemma StoresAgree(f: Function, v: Store)
    ensures Harmless(f.body) ==> (MadeStore(LOWERED, f, v) <==> MadeStore(WRITTEN, f, v))
    ensures Harmless(f.body) && PlainBlock(f.body) ==> (MadeStore(LOWERED, f, v) <==> MadeStore(TIDY, f, v))
  {
    hide MadeStore, HarmlessBlock, PlainBlock;
    if Harmless(f.body) {
      SameStores(LOWERED, WRITTEN, f, v);
      if PlainBlock(f.body) {
        SameStores(LOWERED, TIDY, f, v);
      }
    }
  }

  /** On a harmless function the reports are about its runs as it is written, and if no
      handler has an alias, it does not matter when one is unbound. */
  lemma ReportsAgree(f: Function, p: nat)
    ensures Harmless(f.body) ==> (ReadsUnbound(LOWERED, f, p) <==> ReadsUnbound(WRITTEN, f, p))
    ensures Harmless(f.body) ==> (NeverRead(LOWERED, f, p) <==> NeverRead(WRITTEN, f, p))
    ensures Harmless(f.body) && PlainBlock(f.body) ==> (ReadsUnbound(LOWERED, f, p) <==> ReadsUnbound(TIDY, f, p))
    ensures Harmless(f.body) && PlainBlock(f.body) ==> (NeverRead(LOWERED, f, p) <==> NeverRead(TIDY, f, p))
  {
    hide ReadsUnbound, NeverRead, HarmlessBlock, PlainBlock;
    if Harmless(f.body) {
      SameReports(LOWERED, WRITTEN, f, p);
      if PlainBlock(f.body) {
        SameReports(LOWERED, TIDY, f, p);
      }
    }
  }
}
