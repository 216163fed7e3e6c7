/** What every run of the Wharf checker keeps. */
module WharfLaws {
  import opened Wrappers
  import opened Text
  import opened Wharf

  // ---- denied events can be deleted -----------------------------------

  function Kept<T>(xs: seq<T>, keep: seq<bool>): seq<T>
    requires |xs| == |keep|
  {
    if xs == [] then []
    else Kept(xs[..|xs| - 1], keep[..|xs| - 1]) + if keep[|xs| - 1] then [xs[|xs| - 1]] else []
  }

  lemma {:induction false} KeptLast<T>(xs: seq<T>, x: T, keep: seq<bool>, k: bool)
    requires |xs| == |keep|
    ensures Kept(xs + [x], keep + [k]) == Kept(xs, keep) + if k then [x] else []
  {
    assert (xs + [x])[..|xs|] == xs && (keep + [k])[..|xs|] == keep;
  }

  predicate KeepsAccepted(t: Trace, keep: seq<bool>)
    requires |t| == |keep|
  {
    forall i | 0 <= i < |t| && Verdicts(t)[i].None? :: keep[i]
  }

  /** Deleting denied events, some or all, changes neither the final state nor the verdict
      of any event that is left. */
  lemma {:induction false} DeniedDeleted(t: Trace, keep: seq<bool>)
    requires |t| == |keep| && KeepsAccepted(t, keep)
    ensures After(Kept(t, keep)) == After(t)
    ensures Verdicts(Kept(t, keep)) == Kept(Verdicts(t), keep)
  {
    hide Step, Verdicts;
    if t == [] {
      NoVerdicts();
    } else {
      var n := |t| - 1;
      var init, e, keep0 := t[..n], t[n], keep[..n];
      VerdictsInit(t);
      forall i | 0 <= i < n && Verdicts(init)[i].None?
        ensures keep0[i]
      {
        assert Verdicts(t)[i] == Verdicts(t)[..n][i];
      }
      DeniedDeleted(init, keep0);
      var kept := Kept(init, keep0);
      if keep[n] {
        VerdictsMore(kept, e);
      } else {
        DeniedKeeps(After(init), e);
        assert kept + [] == kept;
        assert Kept(Verdicts(init), keep0) + [] == Kept(Verdicts(init), keep0);
      }
    }
  }

  /** What is left of a trace that can be checked can be checked, if anything is. */
  lemma KeptCheckable(t: Trace, keep: seq<bool>)
    requires |t| == |keep| && Checkable(t) && Kept(t, keep) != []
    ensures Checkable(Kept(t, keep))
  {
    KeptGood(t, keep);
  }

  lemma {:induction false} KeptGood(t: Trace, keep: seq<bool>)
    requires |t| == |keep| && GoodTrace(t)
    ensures |Kept(t, keep)| <= |t| && GoodTrace(Kept(t, keep))
    ensures Kept(t, keep) != [] ==> Kept(t, keep)[|Kept(t, keep)| - 1].now <= t[|t| - 1].now
  {
    hide Blank;
    if t != [] {
      var n := |t| - 1;
      var kept := Kept(t[..n], keep[..n]);
      GoodInit(t);
      KeptGood(t[..n], keep[..n]);
      assert GoodEvent(t, n);
      if keep[n] {
        GoodAppend(kept, t[n]);
      } else {
        assert kept + [] == kept;
      }
    }
  }

  lemma GoodAppend(t: Trace, e: Event)
    requires GoodTrace(t) && !Blank(e.session) && (t != [] ==> t[|t| - 1].now <= e.now)
    ensures GoodTrace(t + [e])
  {
    hide Blank;
    forall i | 0 <= i < |t + [e]|
      ensures GoodEvent(t + [e], i)
    {
      if i < |t| {
        assert GoodEvent(t, i);
      }
    }
  }

  /** With its denied events deleted, some or all, a trace is reported with one violation
      less for each of them, and the same sessions left open. */
  lemma DeletedReports(t: Trace, keep: seq<bool>, vs: seq<Violation>, vs': seq<Violation>)
    requires |t| == |keep| && KeepsAccepted(t, keep) && Checkable(t) && Kept(t, keep) != []
    requires Reports(t, vs) && Reports(Kept(t, keep), vs')
    ensures Checkable(Kept(t, keep)) && |vs'| + (|t| - |Kept(t, keep)|) == |vs|
    ensures Unfinished(After(Kept(t, keep))) == Unfinished(After(t))
  {
    hide Verdicts, After, KeepsAccepted, Closes;
    KeptCheckable(t, keep);
    DeniedDeleted(t, keep);
    DenialsCount(t);
    DenialsCount(Kept(t, keep));
    AllDeleted(t, keep);
    DeniedLess(Verdicts(t), keep);
    KeptSize(t, Verdicts(t), keep);
    ReportsSize(t, vs);
    ReportsSize(Kept(t, keep), vs');
  }

  lemma ReportsSize(t: Trace, vs: seq<Violation>)
    requires Reports(t, vs)
    ensures |vs| == |Denials(t)| + |Unfinished(After(t))|
  {
    hide Denials, After;
  }

  lemma AllDeleted(t: Trace, keep: seq<bool>)
    requires |t| == |keep| && KeepsAccepted(t, keep)
    ensures DeletesDenied(Verdicts(t), keep)
  {
    hide Verdicts;
  }

  predicate DeletesDenied(vs: seq<Option<string>>, keep: seq<bool>)
    requires |vs| == |keep|
  {
    forall i | 0 <= i < |vs| && !keep[i] :: vs[i].Some?
  }

  lemma {:induction false} DeniedLess(vs: seq<Option<string>>, keep: seq<bool>)
    requires |vs| == |keep| && DeletesDenied(vs, keep)
    ensures |Kept(vs, keep)| <= |vs|
    ensures DeniedCount(Kept(vs, keep)) + (|vs| - |Kept(vs, keep)|) == DeniedCount(vs)
  {
    if vs != [] {
      var n := |vs| - 1;
      DeniedLess(vs[..n], keep[..n]);
      var kept := Kept(vs[..n], keep[..n]);
      assert kept + [] == kept;
      if keep[n] {
        assert (kept + [vs[n]])[..|kept|] == kept;
      }
    }
  }

  lemma {:induction false} KeptSize<A, B>(xs: seq<A>, ys: seq<B>, keep: seq<bool>)
    requires |xs| == |ys| == |keep|
    ensures |Kept(xs, keep)| == |Kept(ys, keep)|
  {
    if xs != [] {
      KeptSize(xs[..|xs| - 1], ys[..|xs| - 1], keep[..|xs| - 1]);
    }
  }

  // ---- sessions do not see each other ---------------------------------

  /** Keeps the events of the chosen sessions. */
  function Choose(t: Trace, chosen: set<string>): (keep: seq<bool>)
    ensures |keep| == |t| && forall i | 0 <= i < |t| :: keep[i] == (t[i].session in chosen)
  {
    seq(|t|, i requires 0 <= i < |t| => t[i].session in chosen)
  }

  /** No nonce is used both inside and outside the chosen sessions. */
  predicate NoncesApart(t: Trace, chosen: set<string>) {
    forall i, j | 0 <= i < |t| && 0 <= j < |t| && t[i].action.Authenticate? && t[j].action.Authenticate? ::
      t[i].session in chosen && t[j].session !in chosen ==> t[i].action.nonce != t[j].action.nonce
  }

  /** A nonce the chosen sessions use anywhere in the trace. */
  ghost predicate UsedBy(t: Trace, chosen: set<string>, n: string) {
    exists i :: 0 <= i < |t| && t[i].action.Authenticate? && t[i].session in chosen && t[i].action.nonce == n
  }

  /** The two states agree about the chosen sessions and their nonces. */
  ghost predicate Agree(t: Trace, chosen: set<string>, st: State, st': State) {
    && (forall s | s in chosen :: SessionOf(st, s) == SessionOf(st', s))
    && (forall n | UsedBy(t, chosen, n) :: n in st.nonces <==> n in st'.nonces)
  }

  lemma AgreeStep(t: Trace, chosen: set<string>, st: State, st': State, i: nat)
    requires Agree(t, chosen, st, st') && i < |t| && t[i].session in chosen
    ensures Agree(t, chosen, Step(st, t[i]).0, Step(st', t[i]).0) && Step(st, t[i]).1 == Step(st', t[i]).1
  {
    hide Blank, Act;
    var e := t[i];
    assert SessionOf(st, e.session) == SessionOf(st', e.session);
    if e.action.Authenticate? {
      assert UsedBy(t, chosen, e.action.nonce);
    }
    forall s | s in chosen
      ensures SessionOf(Step(st, e).0, s) == SessionOf(Step(st', e).0, s)
    {
      if s != e.session {
        OthersKept(st, e, s);
        OthersKept(st', e, s);
      }
      assert SessionOf(st, s) == SessionOf(st', s);
    }
  }

  lemma AgreeOther(t: Trace, chosen: set<string>, st: State, st': State, i: nat)
    requires Agree(t, chosen, st, st') && i < |t| && t[i].session !in chosen && NoncesApart(t, chosen)
    ensures Agree(t, chosen, Step(st, t[i]).0, st')
  {
    hide Blank, Act;
    var e := t[i];
    forall s | s in chosen
      ensures SessionOf(Step(st, e).0, s) == SessionOf(st', s)
    {
      OthersKept(st, e, s);
    }
    forall n | UsedBy(t, chosen, n)
      ensures n in Step(st, e).0.nonces <==> n in st'.nonces
    {
      var j :| 0 <= j < |t| && t[j].action.Authenticate? && t[j].session in chosen && t[j].action.nonce == n;
      assert e.action.Authenticate? ==> e.action.nonce != n;
    }
  }

  /** Deleting all the events of sessions that share no nonce with the others changes
      neither the verdicts nor the final states of the others. */
  lemma {:induction false} Noninterference(t: Trace, chosen: set<string>)
    requires NoncesApart(t, chosen)
    ensures var rest := Kept(t, Choose(t, chosen));
      && (forall s | s in chosen :: SessionOf(After(rest), s) == SessionOf(After(t), s))
      && Verdicts(rest) == Kept(Verdicts(t), Choose(t, chosen))
  {
    assert t[..|t|] == t && Choose(t, chosen)[..|t|] == Choose(t, chosen);
    NoninterferenceUpTo(t, chosen, |t|);
  }

  /** The chosen sessions alone are checked, if they have an event, and are left open or
      not as they are among the others. */
  lemma ChosenReports(t: Trace, chosen: set<string>)
    requires NoncesApart(t, chosen) && Checkable(t) && Kept(t, Choose(t, chosen)) != []
    ensures var rest := Kept(t, Choose(t, chosen));
      && Checkable(rest)
      && forall s | s in chosen :: s in Unfinished(After(rest)) <==> s in Unfinished(After(t))
  {
    hide NoncesApart, After, Verdicts;
    var rest := Kept(t, Choose(t, chosen));
    KeptCheckable(t, Choose(t, chosen));
    Noninterference(t, chosen);
    forall s | s in chosen
      ensures s in Unfinished(After(rest)) <==> s in Unfinished(After(t))
    {
      assert SessionOf(After(rest), s) == SessionOf(After(t), s);
    }
  }

  /** Two traces in step: the same for the chosen sessions, with the verdicts of one
      those of the chosen events of the other. */
  ghost predicate InStep(t: Trace, chosen: set<string>, all: Trace, keep: seq<bool>, rest: Trace)
    requires |all| == |keep|
  {
    Agree(t, chosen, After(all), After(rest)) && Verdicts(rest) == Kept(Verdicts(all), keep)
  }

  lemma InStepMore(t: Trace, chosen: set<string>, all: Trace, keep: seq<bool>, rest: Trace, i: nat)
    requires NoncesApart(t, chosen) && i < |t| && |all| == |keep| && InStep(t, chosen, all, keep, rest)
    ensures var k := t[i].session in chosen;
      InStep(t, chosen, all + [t[i]], keep + [k], rest + if k then [t[i]] else [])
  {
    hide Step, Verdicts, Agree, After, NoncesApart;
    var e, k := t[i], t[i].session in chosen;
    VerdictsMore(all, e);
    KeptLast(Verdicts(all), Step(After(all), e).1, keep, k);
    if k {
      VerdictsMore(rest, e);
      AgreeStep(t, chosen, After(all), After(rest), i);
    } else {
      AgreeOther(t, chosen, After(all), After(rest), i);
      assert rest + [] == rest;
      assert Kept(Verdicts(all), keep) + [] == Kept(Verdicts(all), keep);
    }
  }

  lemma {:induction false} NoninterferenceUpTo(t: Trace, chosen: set<string>, n: nat)
    requires NoncesApart(t, chosen) && n <= |t|
    ensures InStep(t, chosen, t[..n], Choose(t, chosen)[..n], Kept(t[..n], Choose(t, chosen)[..n]))
  {
    hide InStep, NoncesApart;
    var keep := Choose(t, chosen);
    if n == 0 {
      assert t[..0] == [] && keep[..0] == [];
      InStepAtStart(t, chosen);
    } else {
      NoninterferenceUpTo(t, chosen, n - 1);
      assert t[..n] == t[..n - 1] + [t[n - 1]] && keep[..n] == keep[..n - 1] + [keep[n - 1]];
      KeptLast(t[..n - 1], t[n - 1], keep[..n - 1], keep[n - 1]);
      InStepMore(t, chosen, t[..n - 1], keep[..n - 1], Kept(t[..n - 1], keep[..n - 1]), n - 1);
    }
  }

  lemma InStepAtStart(t: Trace, chosen: set<string>)
    ensures InStep(t, chosen, [], [], [])
  {
    NoVerdicts();
    AgreeAtStart(t, chosen);
  }

  lemma AgreeAtStart(t: Trace, chosen: set<string>)
    ensures Agree(t, chosen, START, START)
  {
  }

  // ---- expiry ---------------------------------------------------------

  /** A session left open past its expiry stays as it is, whatever follows, and is
      reported at the end. */
  lemma {:induction false} ExpiredStaysOpen(t: Trace, more: Trace, s: string)
    requires GoodTrace(t + more) && t != []
    requires s in After(t).sessions && t[|t| - 1].now >= After(t).sessions[s].expires
    ensures SessionOf(After(t + more), s) == SessionOf(After(t), s)
    ensures !Terminal(After(t).sessions[s].state) ==> s in Unfinished(After(t + more))
  {
    hide Step;
    if more == [] {
      assert t + more == t;
    } else {
      var init, e := more[..|more| - 1], more[|more| - 1];
      var all := t + more;
      assert all[..|all| - 1] == t + init;
      GoodInit(all);
      ExpiredStaysOpen(t, init, s);
      LaterInTrace(all, |t| - 1, |all| - 1);
      assert all[|t| - 1] == t[|t| - 1] && all[|all| - 1] == e;
      ExpiredKept(After(t + init), e, s);
    }
  }

  lemma GoodInit(t: Trace)
    requires GoodTrace(t) && t != []
    ensures GoodTrace(t[..|t| - 1])
  {
    var u := t[..|t| - 1];
    forall i | 0 <= i < |u|
      ensures GoodEvent(u, i)
    {
      assert GoodEvent(t, i);
    }
  }

  lemma {:induction false} LaterInTrace(t: Trace, i: nat, j: nat)
    requires GoodTrace(t) && i <= j < |t|
    ensures t[i].now <= t[j].now
    decreases j
  {
    if i < j {
      LaterInTrace(t, i, j - 1);
      assert GoodEvent(t, j);
    }
  }

  lemma ExpiredKept(st: State, e: Event, s: string)
    requires s in st.sessions && e.now >= st.sessions[s].expires
    ensures SessionOf(Step(st, e).0, s) == SessionOf(st, s)
  {
  }
}
