/** The walks of a built graph are exactly the runs of its body. */
module Correctness {
  import opened Cfg
  import opened Python
  import opened Lower
  import opened Growth
  import opened Queries
  import opened Shape
  import opened Outcomes
  import opened Simulation
  import opened Exactness

  /** The graph built for any body is in shape: its edges are in range, none enters
      ENTRY and none leaves EXIT, and its events are about the function's locals. */
  lemma BuildShape(body: Block, n: nat)
    requires BlockLocals(body, n)
    ensures GraphOk(Build(body)) && EventsFit(Build(body), n)
  {
    hide LowerBlock, BlockLocals;
    LoweredBlock(START, body, n);
    var b := LowerBlock(START, body);
    LinkFits(b.g, b.cur, EXIT, n);
  }

  /** Every run of a function body, as it is lowered, is spelled by a walk of the graph
      built for it, and one that leaves the function by a walk to the exit. */
  lemma {:induction false} RunsAreWalks(body: Block, t: Trace, o: Outcome)
    requires LegalBlock(body) && RunBlock(LOWERED, body, t, o)
    ensures Spells(Build(body), t)
    ensures Leaves(o) ==> Reaches(Build(body), t, EXIT)
  {
    hide LowerBlock, RunBlock, LegalBlock, Reaches, Spells, Leads, Build;
    var gf := Build(body);
    var arr, seen := Walks(gf), Spelled(gf);
    StartReady(body);
    SimBlock(START, body, gf, arr, seen, [], t, o);
    assert [] + t == t;
    if o == Normal {
      FollowExit(body, arr, seen, t);
    }
    if o == Cut || o == Raised(false) {
      assert t in seen by {
        SeenUnlessLeft(arr, seen, t, o);
      }
    } else {
      LeavesByExit(arr, seen, t, o);
      SpellsAtStart(gf, t, EXIT);
    }
  }

  lemma LeavesByExit(arr: Arrivals, seen: iset<Trace>, t: Trace, o: Outcome)
    requires Leaves(o) && Leads(arr, seen, [], [EXIT], t, o) && (o == Normal ==> (EXIT, t) in arr)
    ensures (EXIT, t) in arr
  {
    if o == Raised(true) {
      assert [EXIT][0] == EXIT;
    }
  }

  lemma SeenUnlessLeft(arr: Arrivals, seen: iset<Trace>, t: Trace, o: Outcome)
    requires !Leaves(o) && Leads(arr, seen, [], [EXIT], t, o)
    ensures t in seen
  {
  }

  /** The walks of the built graph are a closed set that holds the start. */
  lemma StartReady(body: Block)
    requires LegalBlock(body)
    ensures var gf := Build(body);
      && StateOk(START) && Ready(START, Lead(body)) && At(START, Walks(gf), [])
      && GraphOk(gf) && Final(LowerBlock(START, body).g, gf, Walks(gf), Spelled(gf))
  {
    hide LowerBlock, LegalBlock, Reaches, Spells;
    var gf, b := Build(body), LowerBlock(START, body);
    StartOk();
    BuildOk(body);
    WalksClosed(gf);
    ExtendsWiden(b.g, b.cur, b.cur + 1, gf, 0, |b.g|);
    assert [] + START.g[START.cur].events == [];
  }

  /** The end of the body leads to the exit. */
  lemma FollowExit(body: Block, arr: Arrivals, seen: iset<Trace>, t: Trace)
    requires LegalBlock(body) && Closed(arr, seen, Build(body)) && At(LowerBlock(START, body), arr, t)
    ensures (EXIT, t) in arr
  {
    hide LowerBlock, LegalBlock;
    var gf := Build(body);
    BuildOk(body);
    GrowExtends(gf, 0, 0, |gf|);
    assert Grow(gf, 0) == gf;
    Follow(LowerBlock(START, body), gf, EXIT, gf, arr, seen, t);
  }

  /** Every walk of the graph built for a function body spells a run of it, as it is
      lowered, and one that arrives at the exit spells a run that leaves the function. */
  lemma WalksAreRuns(body: Block, t: Trace)
    requires LegalBlock(body)
    ensures Spells(Build(body), t) ==> RunBlock(LOWERED, body, t, Cut)
    ensures Reaches(Build(body), t, EXIT) ==> Exiting(LOWERED, body, t)
  {
    hide RunBlock, LegalBlock, Reaches, LowerBlock;
    var g := Build(body);
    var arr := ExactBuild(body);
    forall a: nat, u | Reaches(g, u, a)
      ensures (a, u) in arr
    {
      ClosedReaches(g, arr, Observed(LOWERED, body), u, a);
    }
    if Spells(g, t) {
      var a: nat, u, e :| Reaches(g, u, a) && a < |g| && e <= g[a].events && t == u + e;
      assert Shown(arr, Observed(LOWERED, body), g, a, u, e);
    }
  }

  /** A closed set that holds the start holds every arrival. */
  lemma ClosedReaches(g: Graph, arr: Arrivals, seen: iset<Trace>, u: Trace, a: nat)
    requires Closed(arr, seen, g) && (ENTRY, []) in arr && Reaches(g, u, a)
    ensures (a, u) in arr
  {
    hide Reaches;
    forall c: nat, d, v | c < |g| && d in g[c].succs && (c, v) in arr
      ensures (d, v + g[c].events) in arr
    {
      assert Carried(arr, g, c, v, d);
    }
    ReachesInvariant(g, arr, u, a);
  }

  /** `t` is what some run of `body` has done, wherever the run then is. */
  ghost predicate Run(m: Rules, body: Block, t: Trace) {
    exists o :: RunBlock(m, body, t, o)
  }

  /** The walks of the graph spell exactly the runs of the body as it is lowered, and
      those that arrive at the exit spell exactly the runs that leave the function. */
  lemma SpellsRuns(body: Block, t: Trace)
    requires LegalBlock(body)
    ensures Spells(Build(body), t) <==> Run(LOWERED, body, t)
    ensures Reaches(Build(body), t, EXIT) <==> Exiting(LOWERED, body, t)
  {
    hide RunBlock, LegalBlock, Spells, Reaches, Build;
    WalksAreRuns(body, t);
    if Run(LOWERED, body, t) {
      var o :| RunBlock(LOWERED, body, t, o);
      RunsAreWalks(body, t, o);
    }
    if Exiting(LOWERED, body, t) {
      var o :| Leaves(o) && RunBlock(LOWERED, body, t, o);
      RunsAreWalks(body, t, o);
    }
  }
}
