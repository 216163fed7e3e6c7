/** What every run of the protocol checker keeps. */
module ProtocolLaws {
  import opened Wrappers
  import opened Text
  import opened Protocol

  // ---- instances do not see each other --------------------------------

  /** The events of one instance. */
  function Only(t: Trace, i: string): Trace {
    if t == [] then [] else Only(t[..|t| - 1], i) + if t[|t| - 1].instance == i then [t[|t| - 1]] else []
  }

  function ViolationsOf(vs: seq<Violation>, i: string): seq<Violation> {
    if vs == [] then []
    else ViolationsOf(vs[..|vs| - 1], i) + if vs[|vs| - 1].instance == i then [vs[|vs| - 1]] else []
  }

  lemma {:induction false} ViolationsOfAppend(vs: seq<Violation>, more: seq<Violation>, i: string)
    ensures ViolationsOf(vs + more, i) == ViolationsOf(vs, i) + ViolationsOf(more, i)
  {
    if more == [] {
      assert vs + more == vs;
    } else {
      assert (vs + more)[..|vs + more| - 1] == vs + more[..|more| - 1];
      ViolationsOfAppend(vs, more[..|more| - 1], i);
    }
  }

  lemma {:induction false} ForbiddenOf(p: Contract, os: seq<Operation>, en: Entry, e: Event, i: string)
    ensures ViolationsOf(Forbidden(p, os, en, e), i) == if e.instance == i then Forbidden(p, os, en, e) else []
  {
    if os != [] {
      ForbiddenOf(p, os[..|os| - 1], en, e, i);
      var o := os[|os| - 1];
      if Forbids(o, e.call, en.state) {
        OneOf(Violation(p.id, e.instance, en.state, en.enteredAt, e.line, o.message), i);
        ViolationsOfAppend(Forbidden(p, os[..|os| - 1], en, e), [Violation(p.id, e.instance, en.state, en.enteredAt, e.line, o.message)], i);
      } else {
        assert Forbidden(p, os, en, e) == Forbidden(p, os[..|os| - 1], en, e);
      }
    }
  }

  lemma OneOf(v: Violation, i: string)
    ensures ViolationsOf([v], i) == if v.instance == i then [v] else []
  {
    assert [v][..0] == [];
  }

  lemma AdvanceOf(p: Contract, en: Entry, e: Event, i: string)
    ensures ViolationsOf(Advance(p, en, e).1, i) == if e.instance == i then Advance(p, en, e).1 else []
  {
    hide ViolationsOf;
    var forbidden := Forbidden(p, p.operations, en, e);
    ForbiddenOf(p, p.operations, en, e, i);
    var denied := Violation(p.id, e.instance, en.state, en.enteredAt, e.line, Denied(e.call, en.state));
    OneOf(denied, i);
    ViolationsOfAppend(forbidden, [denied], i);
  }

  /** However the events of the instances interleave, each instance ends as it would
      alone, with the violations it would have alone. */
  lemma {:induction false} Projection(p: Contract, t: Trace, i: string)
    ensures var ((es, vs), (es1, vs1)) := (Trail(p, t), Trail(p, Only(t, i)));
      && (i in es <==> i in es1) && (i in es ==> es[i] == es1[i])
      && ViolationsOf(vs, i) == vs1
  {
    hide Advance, ViolationsOf;
    if t == [] {
      NoViolations(i);
    } else {
      var init, e := t[..|t| - 1], t[|t| - 1];
      Projection(p, init, i);
      var (es, vs) := Trail(p, init);
      var (en, more) := Advance(p, EntryFor(p, es, e), e);
      ViolationsOfAppend(vs, more, i);
      AdvanceOf(p, EntryFor(p, es, e), e, i);
      if e.instance == i {
        assert (Only(init, i) + [e])[..|Only(init, i)|] == Only(init, i);
      } else {
        assert Only(init, i) + [] == Only(init, i);
        assert ViolationsOf(vs, i) + [] == ViolationsOf(vs, i);
      }
    }
  }

  /** The trace of one instance can be checked if the whole can, and has an event. */
  lemma OnlyCheckable(p: Contract, t: Trace, i: string)
    requires Checkable(p, t) && Only(t, i) != []
    ensures Checkable(p, Only(t, i))
  {
    hide Valid, GoodTrace;
    OnlyGood(p, t, i);
  }

  lemma {:induction false} OnlyGood(p: Contract, t: Trace, i: string)
    requires GoodTrace(p, t)
    ensures |Only(t, i)| <= |t| && GoodTrace(p, Only(t, i))
    ensures Only(t, i) != [] ==> Only(t, i)[|Only(t, i)| - 1].line <= t[|t| - 1].line
  {
    hide Blank, KnownCall;
    if t != [] {
      var n := |t| - 1;
      var init, only := t[..n], Only(t[..n], i);
      GoodInit(p, t);
      OnlyGood(p, init, i);
      assert GoodEvent(t, n) && KnownCall(p, t[n].call);
      if t[n].instance == i {
        GoodAppend(p, only, t[n]);
      } else {
        assert only + [] == only;
      }
    }
  }

  lemma GoodInit(p: Contract, t: Trace)
    requires GoodTrace(p, t) && t != []
    ensures GoodTrace(p, t[..|t| - 1])
  {
    hide Blank, KnownCall;
    var u := t[..|t| - 1];
    forall k | 0 <= k < |u|
      ensures GoodEvent(u, k) && KnownCall(p, u[k].call)
    {
      assert GoodEvent(t, k) && KnownCall(p, t[k].call);
    }
  }

  lemma GoodAppend(p: Contract, t: Trace, e: Event)
    requires GoodTrace(p, t) && !Blank(e.instance) && e.line > 0 && KnownCall(p, e.call)
    requires t != [] ==> t[|t| - 1].line <= e.line
    ensures GoodTrace(p, t + [e])
  {
    hide Blank, KnownCall;
    var u := t + [e];
    forall k | 0 <= k < |u|
      ensures GoodEvent(u, k) && KnownCall(p, u[k].call)
    {
      if k < |t| {
        assert GoodEvent(t, k) && KnownCall(p, t[k].call);
      }
    }
  }

  lemma {:induction false} OnlyOne(p: Contract, t: Trace, i: string)
    ensures Trail(p, Only(t, i)).0.Keys <= {i}
  {
    hide Advance;
    if t != [] {
      var only := Only(t[..|t| - 1], i);
      OnlyOne(p, t[..|t| - 1], i);
      if t[|t| - 1].instance == i {
        assert (only + [t[|t| - 1]])[..|only|] == only;
      } else {
        assert only + [] == only;
      }
    }
  }

  /** What is reported about an instance is what is reported when it is checked alone: the
      same violations on the way, and a closing one in both cases or in neither. */
  lemma {:induction false} ProjectedReports(p: Contract, t: Trace, i: string, vs: seq<Violation>, vs1: seq<Violation>, message: string)
    requires Checkable(p, t) && Only(t, i) != []
    requires Reports(p, t, vs, message) && Reports(p, Only(t, i), vs1, message)
    ensures Checkable(p, Only(t, i))
    ensures var (found, found1) := (Trail(p, t).1, Trail(p, Only(t, i)).1);
      && found <= vs && found1 <= vs1 && ViolationsOf(found, i) == found1
      && (vs1[|found1|..] != [] <==> exists v :: v in vs[|found|..] && v.instance == i)
  {
    hide Valid, GoodTrace, Trail, ViolationsOf;
    OnlyCheckable(p, t, i);
    Projection(p, t, i);
    OnlyOne(p, t, i);
    var ((es, found), (es1, found1)) := (Trail(p, t), Trail(p, Only(t, i)));
    StrandedSame(p, es, es1, i);
    ClosesInstance(p, t, es, vs[|found|..], message, i);
    ClosesOne(p, Only(t, i), es1, vs1[|found1|..], message, i);
  }

  lemma StrandedSame(p: Contract, es: Entries, es1: Entries, i: string)
    requires es1.Keys <= {i} && (i in es <==> i in es1) && (i in es ==> es[i] == es1[i])
    ensures (i in Stranded(p, es) <==> i in Stranded(p, es1)) && Stranded(p, es1) <= {i}
  {
  }

  lemma ClosesInstance(p: Contract, t: Trace, es: Entries, vs: seq<Violation>, message: string, i: string)
    requires Closes(p, t, es, vs, message)
    ensures i in Stranded(p, es) <==> exists v :: v in vs && v.instance == i
  {
    if i in Stranded(p, es) {
      assert ExitViolation(p, es, i, if t == [] then 0 else t[|t| - 1].line, message) in vs;
    }
  }

  lemma ClosesOne(p: Contract, t: Trace, es: Entries, vs: seq<Violation>, message: string, i: string)
    requires Closes(p, t, es, vs, message) && Stranded(p, es) <= {i}
    ensures vs != [] <==> i in Stranded(p, es)
  {
    if i in Stranded(p, es) {
      assert Stranded(p, es) == {i};
    } else {
      assert Stranded(p, es) == {};
    }
  }

  lemma NoViolations(i: string)
    ensures ViolationsOf([], i) == []
  {
  }

  // ---- the order of the transitions does not matter -------------------

  /** `perm` and `inv` are a permutation of the first `n` numbers and its inverse. */
  predicate Permutes(perm: seq<nat>, inv: seq<nat>, n: nat) {
    && |perm| == |inv| == n
    && forall i | 0 <= i < n :: perm[i] < n && inv[i] < n && inv[perm[i]] == i && perm[inv[i]] == i
  }

  function Permuted(ts: seq<Transition>, perm: seq<nat>): seq<Transition>
    requires |perm| == |ts| && forall i | 0 <= i < |perm| :: perm[i] < |ts|
  {
    seq(|ts|, i requires 0 <= i < |ts| => ts[perm[i]])
  }

  function Reordered(p: Contract, perm: seq<nat>): Contract
    requires |perm| == |p.transitions| && forall i | 0 <= i < |perm| :: perm[i] < |p.transitions|
  {
    p.(transitions := Permuted(p.transitions, perm))
  }

  lemma SameTransitions(ts: seq<Transition>, perm: seq<nat>, inv: seq<nat>, t: Transition)
    requires Permutes(perm, inv, |ts|)
    ensures t in Permuted(ts, perm) <==> t in ts
  {
    if t in ts {
      var i :| 0 <= i < |ts| && ts[i] == t;
      assert Permuted(ts, perm)[inv[i]] == t;
    }
  }

  lemma UnambiguousPermuted(ts: seq<Transition>, perm: seq<nat>, inv: seq<nat>)
    requires Permutes(perm, inv, |ts|) && Unambiguous(ts)
    ensures Unambiguous(Permuted(ts, perm))
  {
    var us := Permuted(ts, perm);
    forall i, j | 0 <= i < j < |us|
      ensures us[i].on != us[j].on || us[i].from != us[j].from
    {
      assert inv[perm[i]] == i && inv[perm[j]] == j;
      assert perm[i] < perm[j] || perm[j] < perm[i];
      assert us[i] == ts[perm[i]] && us[j] == ts[perm[j]];
    }
  }

  lemma FindPermuted(ts: seq<Transition>, perm: seq<nat>, inv: seq<nat>, call: string, state: string)
    requires Permutes(perm, inv, |ts|) && Unambiguous(ts)
    ensures Find(Permuted(ts, perm), call, state) == Find(ts, call, state)
  {
    hide Find, Permuted, Unambiguous;
    UnambiguousPermuted(ts, perm, inv);
    var us := Permuted(ts, perm);
    if t: Transition :| Find(us, call, state) == Some(t) {
      FindIs(us, call, state, t);
      SameTransitions(ts, perm, inv, t);
      FindIs(ts, call, state, t);
    } else if t: Transition :| Find(ts, call, state) == Some(t) {
      FindIs(ts, call, state, t);
      SameTransitions(ts, perm, inv, t);
      FindIs(us, call, state, t);
    } else {
      FindCases(ts, call, state);
      FindCases(us, call, state);
    }
  }

  lemma FindCases(ts: seq<Transition>, call: string, state: string)
    ensures Find(ts, call, state) == None || exists t :: Find(ts, call, state) == Some(t)
  {
  }

  lemma HasPermuted(ts: seq<Transition>, perm: seq<nat>, inv: seq<nat>, call: string)
    requires Permutes(perm, inv, |ts|)
    ensures HasTransition(Permuted(ts, perm), call) <==> HasTransition(ts, call)
  {
    var us := Permuted(ts, perm);
    if i :| 0 <= i < |ts| && ts[i].on == call {
      assert us[inv[i]].on == call;
    }
    if i :| 0 <= i < |us| && us[i].on == call {
      assert ts[perm[i]].on == call;
    }
  }

  lemma AdvancePermuted(p: Contract, perm: seq<nat>, inv: seq<nat>, en: Entry, e: Event)
    requires Permutes(perm, inv, |p.transitions|) && Unambiguous(p.transitions)
    ensures Advance(Reordered(p, perm), en, e) == Advance(p, en, e)
  {
    hide Find, Permuted, HasTransition;
    FindPermuted(p.transitions, perm, inv, e.call, en.state);
    HasPermuted(p.transitions, perm, inv, e.call);
    ForbiddenSame(p, Reordered(p, perm), p.operations, en, e);
  }

  lemma {:induction false} ForbiddenSame(p: Contract, p': Contract, os: seq<Operation>, en: Entry, e: Event)
    requires p.id == p'.id
    ensures Forbidden(p', os, en, e) == Forbidden(p, os, en, e)
  {
    if os != [] {
      ForbiddenSame(p, p', os[..|os| - 1], en, e);
    }
  }

  lemma {:induction false} TrailPermuted(p: Contract, perm: seq<nat>, inv: seq<nat>, t: Trace)
    requires Permutes(perm, inv, |p.transitions|) && Unambiguous(p.transitions)
    ensures Trail(Reordered(p, perm), t) == Trail(p, t)
  {
    hide Advance, Permuted;
    if t != [] {
      var init, e := t[..|t| - 1], t[|t| - 1];
      TrailPermuted(p, perm, inv, init);
      AdvancePermuted(p, perm, inv, EntryFor(p, Trail(p, init).0, e), e);
    }
  }

  lemma ValidPermuted(p: Contract, perm: seq<nat>, inv: seq<nat>)
    requires Permutes(perm, inv, |p.transitions|) && Valid(p)
    ensures Valid(Reordered(p, perm))
  {
    hide Blank, GoodOperation, Unambiguous;
    UnambiguousPermuted(p.transitions, perm, inv);
    var q := Reordered(p, perm);
    forall i | 0 <= i < |q.transitions|
      ensures KnownTransition(q, q.transitions[i])
    {
      assert KnownTransition(p, p.transitions[perm[i]]);
    }
    forall i | 0 <= i < |q.operations|
      ensures GoodOperation(q, q.operations[i])
    {
      assert GoodOperation(p, p.operations[i]);
      OperationSame(p, q, q.operations[i]);
    }
  }

  lemma OperationSame(p: Contract, q: Contract, o: Operation)
    requires p.states == q.states && GoodOperation(p, o)
    ensures GoodOperation(q, o)
  {
  }

  lemma PermutedBack(p: Contract, perm: seq<nat>, inv: seq<nat>)
    requires Permutes(perm, inv, |p.transitions|)
    ensures Permutes(inv, perm, |p.transitions|) && Reordered(Reordered(p, perm), inv) == p
  {
    assert Permuted(Permuted(p.transitions, perm), inv) == p.transitions;
  }

  lemma TracePermuted(p: Contract, perm: seq<nat>, inv: seq<nat>, t: Trace)
    requires Permutes(perm, inv, |p.transitions|) && GoodTrace(p, t)
    ensures GoodTrace(Reordered(p, perm), t)
  {
    hide GoodEvent, Permuted, HasTransition;
    forall i | 0 <= i < |t|
      ensures GoodEvent(t, i) && KnownCall(Reordered(p, perm), t[i].call)
    {
      assert GoodEvent(t, i);
      HasPermuted(p.transitions, perm, inv, t[i].call);
    }
  }

  /** The order in which a contract lists its transitions does not matter: the same traces
      can be checked, with the same reports. */
  lemma {:induction false} OrderDoesNotMatter(p: Contract, perm: seq<nat>, inv: seq<nat>, t: Trace, vs: seq<Violation>, message: string)
    requires Permutes(perm, inv, |p.transitions|)
    ensures Checkable(Reordered(p, perm), t) <==> Checkable(p, t)
    ensures Checkable(p, t) ==> (Reports(Reordered(p, perm), t, vs, message) <==> Reports(p, t, vs, message))
  {
    hide Valid, GoodTrace, Trail, Closes, Permuted, Permutes;
    PermutedBack(p, perm, inv);
    PermutedSize(p, perm, inv);
    if Checkable(p, t) {
      CheckablePermuted(p, perm, inv, t);
    }
    if Checkable(Reordered(p, perm), t) {
      CheckablePermuted(Reordered(p, perm), inv, perm, t);
    }
    if Checkable(p, t) {
      ValidIsUnambiguous(p);
      TrailPermuted(p, perm, inv, t);
      var (es, found) := Trail(p, t);
      if found <= vs {
        ClosesSame(p, Reordered(p, perm), t, es, vs[|found|..], message);
      }
    }
  }

  lemma PermutedSize(p: Contract, perm: seq<nat>, inv: seq<nat>)
    requires Permutes(perm, inv, |p.transitions|)
    ensures |Reordered(p, perm).transitions| == |p.transitions|
  {
  }

  lemma CheckablePermuted(p: Contract, perm: seq<nat>, inv: seq<nat>, t: Trace)
    requires Permutes(perm, inv, |p.transitions|) && Checkable(p, t)
    ensures Checkable(Reordered(p, perm), t)
  {
    hide Valid, GoodTrace, Permuted;
    ValidPermuted(p, perm, inv);
    TracePermuted(p, perm, inv, t);
  }

  lemma ClosesSame(p: Contract, q: Contract, t: Trace, es: Entries, vs: seq<Violation>, message: string)
    requires p.id == q.id && p.mustExitIn == q.mustExitIn
    ensures Closes(p, t, es, vs, message) <==> Closes(q, t, es, vs, message)
  {
    assert Stranded(p, es) == Stranded(q, es);
  }
}
