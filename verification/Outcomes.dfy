/** Where the ways out of a statement lead, in the terms of a set of arrivals: pairs
    of a block and a trace with which the block may be entered. */
module Outcomes {
  import opened Cfg
  import opened Python
  import opened Lower
  import opened Growth

  type Arrivals = iset<(nat, Trace)>

  /** `arr` is closed under the edges of `g`, and `seen` has every trace observable on
      the way. */
  ghost predicate Closed(arr: Arrivals, seen: iset<Trace>, g: Graph) {
    && (forall a: nat, u, c {:trigger Carried(arr, g, a, u, c)} | a < |g| && c in g[a].succs :: Carried(arr, g, a, u, c))
    && (forall a: nat, u, e {:trigger Shown(arr, seen, g, a, u, e)} :: Shown(arr, seen, g, a, u, e))
  }

  ghost predicate Carried(arr: Arrivals, g: Graph, a: nat, u: Trace, c: nat)
    requires a < |g|
  {
    (a, u) in arr ==> (c, u + g[a].events) in arr
  }

  ghost predicate Shown(arr: Arrivals, seen: iset<Trace>, g: Graph, a: nat, u: Trace, e: Trace) {
    (a, u) in arr ==> a < |g| && (e <= g[a].events ==> u + e in seen)
  }

  /** An exception that would just leave the function unseen need not arrive anywhere. */
  ghost predicate LeadsRaise(arr: Arrivals, seen: iset<Trace>, rs: seq<nat>, t: Trace, explicit: bool) {
    if !explicit && rs == [EXIT] then t in seen else forall i | 0 <= i < |rs| :: (rs[i], t) in arr
  }

  /** A jump runs each `finally` on the frame stack, innermost first, until it meets
      its loop; a `finally` that does not complete replaces the jump. */
  ghost predicate LeadsJump(arr: Arrivals, seen: iset<Trace>, fs: seq<Frame>, t: Trace, kind: Outcome)
    decreases |fs|
  {
    if fs == [] then (EXIT, t) in arr
    else
      var outer := fs[..|fs| - 1];
      match fs[|fs| - 1]
      case Loop(brk, cont) =>
        if kind == Broke then (brk, t) in arr
        else if kind == Continued then (cont, t) in arr
        else LeadsJump(arr, seen, outer, t, kind)
      case Finally(body, rs) =>
        forall u, o | RunBlock(Read(rs), body, u, o) ::
          match o
          case Normal => LeadsJump(arr, seen, outer, t + u, kind)
          case Cut => t + u in seen
          case Raised(explicit) => LeadsRaise(arr, seen, rs, t + u, explicit)
          case _ => LeadsJump(arr, seen, outer, t + u, o)
  }

  /** A run that has spelled `t` and ends as `o` goes on where it should. */
  ghost predicate Leads(arr: Arrivals, seen: iset<Trace>, fs: seq<Frame>, rs: seq<nat>, t: Trace, o: Outcome) {
    match o
    case Normal => true
    case Cut => t in seen
    case Raised(explicit) => LeadsRaise(arr, seen, rs, t, explicit)
    case _ => LeadsJump(arr, seen, fs, t, o)
  }

  /** Arrivals at the end, so far, of the current block. */
  ghost predicate At(b: State, arr: Arrivals, t: Trace)
    requires b.cur < |b.g|
  {
    exists u :: (b.cur, u) in arr && t == u + b.g[b.cur].events
  }

  lemma LeadsPopLoop(arr: Arrivals, seen: iset<Trace>, fs: seq<Frame>, brk: nat, cont: nat, rs: seq<nat>, t: Trace, o: Outcome)
    ensures Leads(arr, seen, fs + [Loop(brk, cont)], rs, t, o) ==
      match o {
        case Broke => (brk, t) in arr
        case Continued => (cont, t) in arr
        case _ => Leads(arr, seen, fs, rs, t, o)
      }
  {
    assert (fs + [Loop(brk, cont)])[..|fs|] == fs;
  }

  lemma LeadsPopFinally(arr: Arrivals, seen: iset<Trace>, fs: seq<Frame>, body: Block, rs: seq<nat>, t: Trace, o: Outcome)
    requires o == Broke || o == Continued || o == Returned
    ensures LeadsJump(arr, seen, fs + [Finally(body, rs)], t, o) ==
      (forall u, o2 | RunBlock(Read(rs), body, u, o2) :: Leads(arr, seen, fs, rs, t + u, AfterFinally(o, o2)))
  {
    assert (fs + [Finally(body, rs)])[..|fs|] == fs;
  }

  lemma LeadsCut(arr: Arrivals, seen: iset<Trace>, fs: seq<Frame>, rs: seq<nat>, t: Trace)
    requires t in seen
    ensures Leads(arr, seen, fs, rs, t, Cut)
  {
  }

  lemma LeadsJumpSame(arr: Arrivals, seen: iset<Trace>, fs: seq<Frame>, rs: seq<nat>, rs': seq<nat>, t: Trace, o: Outcome)
    requires !o.Raised? && Leads(arr, seen, fs, rs, t, o)
    ensures Leads(arr, seen, fs, rs', t, o)
  {
  }
}
