/** The generic protocol checker: contracts, and traces of many instances. */
module Protocol {
  import opened Wrappers
  import opened Text
  import opened Ordered

  datatype Error =
    | Schema | StrictSchema | Identity | States | UnknownState(on: string) | Ambiguous(on: string, from: string)
    | BadOperation(on: string) | UnknownExit | Empty
    | EmptyTrace | TraceBudget | BadEvent | UnknownCall(call: string)

  datatype Transition = Transition(on: string, from: string, to: string)

  datatype Operation = Operation(on: string, kind: string, forbiddenIn: seq<string>, message: string)

  datatype Contract = Contract(
    schema: string, strict: bool, id: string, description: string, channel: string,
    states: seq<string>, initial: string, transitions: seq<Transition>, operations: seq<Operation>, mustExitIn: seq<string>)

  datatype Event = Event(instance: string, call: string, line: nat)

  datatype Violation = Violation(
    protocol: string, instance: string, state: string, enteredAt: nat, observedAt: nat, message: string)

  type Trace = seq<Event>

  const EVENT_BUDGET: nat := 100_000

  // ---- contracts ------------------------------------------------------

  predicate KnownTransition(p: Contract, t: Transition) {
    t.from in p.states && t.to in p.states && !Blank(t.on)
  }

  predicate GoodOperation(p: Contract, o: Operation) {
    && !Blank(o.on) && !Blank(o.message) && o.kind == "emit" && o.forbiddenIn != []
    && forall i | 0 <= i < |o.forbiddenIn| :: o.forbiddenIn[i] in p.states
  }

  /** At most one transition leaves each state on each call. */
  predicate Unambiguous(ts: seq<Transition>) {
    forall i, j | 0 <= i < j < |ts| :: ts[i].on != ts[j].on || ts[i].from != ts[j].from
  }

  predicate Distinct(ss: seq<string>) {
    forall i, j | 0 <= i < j < |ss| :: ss[i] != ss[j]
  }

  predicate GoodStates(p: Contract) {
    Distinct(p.states) && (forall i | 0 <= i < |p.states| :: !Blank(p.states[i])) && p.initial in p.states
  }

  predicate Identified(p: Contract) {
    !Blank(p.id) && !Blank(p.channel) && !Blank(p.description)
  }

  predicate Schemed(p: Contract) {
    (p.schema == "0.1.0" || p.schema == "0.2.0") && (p.strict ==> p.schema == "0.2.0")
  }

  predicate Headed(p: Contract) {
    Schemed(p) && Identified(p) && GoodStates(p)
  }

  predicate GoodTransitions(p: Contract) {
    (forall i | 0 <= i < |p.transitions| :: KnownTransition(p, p.transitions[i])) && Unambiguous(p.transitions)
  }

  predicate GoodOperations(p: Contract) {
    forall i | 0 <= i < |p.operations| :: GoodOperation(p, p.operations[i])
  }

  predicate GoodExits(p: Contract) {
    forall i | 0 <= i < |p.mustExitIn| :: p.mustExitIn[i] in p.states
  }

  /** What a contract has to be for its traces to be checked. */
  predicate Valid(p: Contract) {
    Headed(p) && GoodTransitions(p) && GoodOperations(p) && GoodExits(p) && (p.transitions != [] || p.operations != [])
  }

  predicate KnownStates(p: Contract, t: Transition) {
    t.from in p.states && t.to in p.states
  }

  /** Transition `k` is the first that is not allowed after those before it, for this
      reason. */
  predicate TransitionFlaw(p: Contract, k: nat, error: Error) {
    && k < |p.transitions| && Unambiguous(p.transitions[..k])
    && (forall i | 0 <= i < k :: KnownTransition(p, p.transitions[i]))
    && var t := p.transitions[k];
    if !KnownStates(p, t) then error == UnknownState(t.on)
    else (Blank(t.on) || exists i :: 0 <= i < k && p.transitions[i].on == t.on && p.transitions[i].from == t.from) && error == Ambiguous(t.on, t.from)
  }

  /** The first thing that is wrong with a contract. */
  ghost predicate Flaw(p: Contract, error: Error) {
    match error
    case Schema => p.schema != "0.1.0" && p.schema != "0.2.0"
    case StrictSchema => p.schema == "0.1.0" && p.strict
    case Identity => Schemed(p) && !Identified(p)
    case States => Schemed(p) && Identified(p) && !GoodStates(p)
    case UnknownState(_) => Headed(p) && exists k: nat :: TransitionFlaw(p, k, error)
    case Ambiguous(_, _) => Headed(p) && exists k: nat :: TransitionFlaw(p, k, error)
    case BadOperation(_) => Headed(p) && GoodTransitions(p) && exists k: nat :: OperationFlaw(p, k, error)
    case UnknownExit => Headed(p) && GoodTransitions(p) && GoodOperations(p) && !GoodExits(p)
    case Empty => Headed(p) && GoodTransitions(p) && GoodOperations(p) && GoodExits(p) && p.transitions == [] && p.operations == []
    case _ => false
  }

  predicate OperationFlaw(p: Contract, k: nat, error: Error) {
    && k < |p.operations| && (forall i | 0 <= i < k :: GoodOperation(p, p.operations[i]))
    && !GoodOperation(p, p.operations[k]) && error == BadOperation(p.operations[k].on)
  }

  method ValidateTransitions(p: Contract) returns (r: Result<(), Error>)
    ensures r.Ok? <==> GoodTransitions(p)
    ensures r.Err? ==> exists k: nat :: TransitionFlaw(p, k, r.error)
  {
    hide Blank;
    var seen: set<(string, string)> := {};
    for k := 0 to |p.transitions|
      invariant forall i | 0 <= i < k :: KnownTransition(p, p.transitions[i])
      invariant Unambiguous(p.transitions[..k])
      invariant forall on, from :: (on, from) in seen <==> exists i :: 0 <= i < k && p.transitions[i].on == on && p.transitions[i].from == from
    {
      var t := p.transitions[k];
      if t.from !in p.states || t.to !in p.states {
        assert TransitionFlaw(p, k, UnknownState(t.on));
        return Err(UnknownState(t.on));
      }
      if Blank(t.on) || (t.on, t.from) in seen {
        assert TransitionFlaw(p, k, Ambiguous(t.on, t.from));
        return Err(Ambiguous(t.on, t.from));
      }
      seen := seen + {(t.on, t.from)};
    }
    assert p.transitions[..|p.transitions|] == p.transitions;
    r := Ok(());
  }

  lemma FlawIs(p: Contract, error: Error)
    requires Headed(p) && exists k: nat :: TransitionFlaw(p, k, error)
    ensures Flaw(p, error)
  {
  }

  method Validate(p: Contract) returns (r: Result<(), Error>)
    ensures r.Ok? <==> Valid(p)
    ensures r.Err? ==> Flaw(p, r.error)
  {
    hide Blank, GoodTransitions, GoodOperation, GoodStates, TransitionFlaw;
    if p.schema != "0.1.0" && p.schema != "0.2.0" {
      return Err(Schema);
    }
    if p.schema == "0.1.0" && p.strict {
      return Err(StrictSchema);
    }
    if Blank(p.id) || Blank(p.channel) || Blank(p.description) {
      return Err(Identity);
    }
    var states := ValidateStates(p);
    if !states {
      return Err(States);
    }
    var transitions := ValidateTransitions(p);
    if transitions.Err? {
      FlawIs(p, transitions.error);
      return transitions;
    }
    for k := 0 to |p.operations|
      invariant forall i | 0 <= i < k :: GoodOperation(p, p.operations[i])
    {
      if !GoodOperation(p, p.operations[k]) {
        assert OperationFlaw(p, k, BadOperation(p.operations[k].on));
        return Err(BadOperation(p.operations[k].on));
      }
    }
    if exists i | 0 <= i < |p.mustExitIn| :: p.mustExitIn[i] !in p.states {
      return Err(UnknownExit);
    }
    if p.transitions == [] && p.operations == [] {
      return Err(Empty);
    }
    r := Ok(());
  }

  method ValidateStates(p: Contract) returns (good: bool)
    ensures good <==> GoodStates(p)
  {
    hide Blank;
    var states: set<string> := {};
    for k := 0 to |p.states|
      invariant |states| <= k && (|states| == k <==> Distinct(p.states[..k]))
      invariant forall s :: s in states <==> s in p.states[..k]
    {
      ghost var before := states;
      states := states + {p.states[k]};
      DistinctMore(p.states, k);
      assert p.states[..k + 1] == p.states[..k] + [p.states[k]];
    }
    assert p.states[..|p.states|] == p.states;
    good := |states| == |p.states| && (forall i | 0 <= i < |p.states| :: !Blank(p.states[i])) && p.initial in states;
  }

  lemma DistinctMore(ss: seq<string>, k: nat)
    requires k < |ss|
    ensures Distinct(ss[..k + 1]) <==> Distinct(ss[..k]) && ss[k] !in ss[..k]
  {
    var more := ss[..k + 1];
    if Distinct(more) {
      assert forall i | 0 <= i < k :: more[i] != more[k];
    }
  }

  // ---- one event of one instance --------------------------------------

  /** Where an instance is, since when, and whether it has ever left the initial state. */
  datatype Entry = Entry(state: string, enteredAt: nat, moved: bool)

  predicate Forbids(o: Operation, call: string, state: string) {
    o.on == call && state in o.forbiddenIn
  }

  function Forbidden(p: Contract, os: seq<Operation>, en: Entry, e: Event): seq<Violation> {
    if os == [] then []
    else
      var o := os[|os| - 1];
      Forbidden(p, os[..|os| - 1], en, e) +
      if Forbids(o, e.call, en.state) then [Violation(p.id, e.instance, en.state, en.enteredAt, e.line, o.message)] else []
  }

  /** The first transition on the call from the state. */
  function Find(ts: seq<Transition>, call: string, state: string): Option<Transition> {
    if ts == [] then None
    else if ts[0].on == call && ts[0].from == state then Some(ts[0])
    else Find(ts[1..], call, state)
  }

  predicate HasTransition(ts: seq<Transition>, call: string) {
    exists i :: 0 <= i < |ts| && ts[i].on == call
  }

  predicate HasOperation(os: seq<Operation>, call: string) {
    exists i :: 0 <= i < |os| && os[i].on == call
  }

  predicate KnownCall(p: Contract, call: string) {
    HasTransition(p.transitions, call) || HasOperation(p.operations, call)
  }

  /** The instance after the event, and the violations: forbidden operations first, then,
      in a strict contract, a transition that is denied from this state. */
  function Advance(p: Contract, en: Entry, e: Event): (Entry, seq<Violation>) {
    var forbidden := Forbidden(p, p.operations, en, e);
    match Find(p.transitions, e.call, en.state)
    case Some(t) => (Entry(t.to, e.line, en.moved || t.to != p.initial), forbidden)
    case None =>
      if p.strict && HasTransition(p.transitions, e.call) then
        (en, forbidden + [Violation(p.id, e.instance, en.state, en.enteredAt, e.line, Denied(e.call, en.state))])
      else (en, forbidden)
  }

  function Denied(call: string, state: string): string {
    "transition " + call + " denied from " + state
  }

  // ---- traces ---------------------------------------------------------

  type Entries = map<string, Entry>

  function EntryFor(p: Contract, es: Entries, e: Event): Entry {
    if e.instance in es then es[e.instance] else Entry(p.initial, e.line, false)
  }

  /** Every instance after the trace, and the violations found on the way. */
  function Trail(p: Contract, t: Trace): (Entries, seq<Violation>) {
    if t == [] then (map[], [])
    else
      var (es, vs) := Trail(p, t[..|t| - 1]);
      var e := t[|t| - 1];
      var (en, more) := Advance(p, EntryFor(p, es, e), e);
      (es[e.instance := en], vs + more)
  }

  predicate GoodEvent(t: Trace, i: nat)
    requires i < |t|
  {
    !Blank(t[i].instance) && t[i].line > 0 && (i > 0 ==> t[i - 1].line <= t[i].line)
  }

  /** Every event can be checked, and its call is one of the contract's. */
  predicate GoodTrace(p: Contract, t: Trace) {
    forall i {:trigger GoodEvent(t, i)} | 0 <= i < |t| :: GoodEvent(t, i) && KnownCall(p, t[i].call)
  }

  /** The instances that end, having moved, outside the states they must end in. */
  function Stranded(p: Contract, es: Entries): set<string> {
    if p.mustExitIn == [] then {} else set i | i in es && es[i].moved && es[i].state !in p.mustExitIn
  }

  function ExitViolation(p: Contract, es: Entries, i: string, last: nat, message: string): Violation
    requires i in es
  {
    Violation(p.id, i, es[i].state, es[i].enteredAt, last, message)
  }

  function LastLine(t: Trace): nat {
    if t == [] then 0 else t[|t| - 1].line
  }

  /** One closing violation for every stranded instance, by name. */
  predicate Closes(p: Contract, t: Trace, es: Entries, vs: seq<Violation>, message: string) {
    var (last, stranded) := (LastLine(t), Stranded(p, es));
    && |vs| == |stranded|
    && (forall i | 0 <= i < |vs| :: vs[i].instance in stranded && vs[i] == ExitViolation(p, es, vs[i].instance, last, message))
    && (forall i | i in stranded :: ExitViolation(p, es, i, last, message) in vs)
    && (forall i, j | 0 <= i < j < |vs| :: Before(vs[i].instance, vs[j].instance))
  }

  /** What a successful check returns: the violations found on the way, in order, then the
      closing ones. */
  predicate Reports(p: Contract, t: Trace, vs: seq<Violation>, message: string) {
    var (es, found) := Trail(p, t);
    found <= vs && Closes(p, t, es, vs[|found|..], message)
  }

  lemma {:induction false} FindIs(ts: seq<Transition>, call: string, state: string, t: Transition)
    requires Unambiguous(ts)
    ensures Find(ts, call, state) == Some(t) <==> t in ts && t.on == call && t.from == state
  {
    if ts != [] {
      var rest := ts[1..];
      assert forall i | 0 <= i < |rest| :: rest[i] == ts[i + 1];
      FindIs(rest, call, state, t);
      assert t in ts <==> t == ts[0] || t in rest;
      if t in rest {
        var j :| 0 <= j < |rest| && rest[j] == t;
        assert ts[j + 1] == t;
      }
    }
  }

  // ---- what has to be reported ----------------------------------------

  /** An instance before one of its events and after it. */
  datatype Passage = Passage(before: Entry, after: Entry)

  /** The contract has the transition, on the call, from the state. */
  predicate Leaves(p: Contract, tr: Transition, call: string, state: string) {
    tr in p.transitions && tr.on == call && tr.from == state
  }

  /** The event takes the contract's transition from the state before it, or leaves the
      instance as it is when there is none. */
  ghost predicate Goes(p: Contract, e: Event, s: Passage) {
    || (exists tr :: Leaves(p, tr, e.call, s.before.state) && s.after == Entry(tr.to, e.line, s.before.moved || tr.to != p.initial))
    || ((forall tr :: !Leaves(p, tr, e.call, s.before.state)) && s.after == s.before)
  }

  /** Event `j` is the one before event `k` among those of its instance. */
  predicate Precedes(t: Trace, j: nat, k: nat) {
    j < k < |t| && t[j].instance == t[k].instance && forall i | j < i < k :: t[i].instance != t[k].instance
  }

  predicate First(t: Trace, k: nat) {
    k < |t| && forall j | 0 <= j < k :: t[j].instance != t[k].instance
  }

  predicate Last(t: Trace, k: nat) {
    k < |t| && forall j | k < j < |t| :: t[j].instance != t[k].instance
  }

  /** An instance starts in the initial state, and goes on from where its last event left it. */
  ghost predicate PassageAt(p: Contract, t: Trace, ps: seq<Passage>, k: nat)
    requires |ps| == |t| && k < |t|
  {
    && (First(t, k) ==> ps[k].before == Entry(p.initial, t[k].line, false))
    && (forall j: nat | Precedes(t, j, k) :: ps[k].before == ps[j].after)
    && Goes(p, t[k], ps[k])
  }

  ghost predicate Chronicle(p: Contract, t: Trace, ps: seq<Passage>) {
    |ps| == |t| && forall k {:trigger PassageAt(p, t, ps, k)} | 0 <= k < |t| :: PassageAt(p, t, ps, k)
  }

  /** Operation `k` is forbidden in the state before the event; or, one place after the
      last operation, a strict contract has transitions on the call and none from there. */
  ghost predicate Objects(p: Contract, e: Event, en: Entry, k: nat, v: Violation) {
    && v == Violation(p.id, e.instance, en.state, en.enteredAt, e.line, v.message)
    && if k < |p.operations| then
         var o := p.operations[k];
         o.on == e.call && en.state in o.forbiddenIn && v.message == o.message
       else
         && k == |p.operations| && p.strict && (exists tr :: tr in p.transitions && tr.on == e.call)
         && (forall tr :: !Leaves(p, tr, e.call, en.state))
         && v.message == "transition " + e.call + " denied from " + en.state
  }

  /** A violation is found at an event, by an operation of the contract. */
  datatype Place = Place(event: nat, op: nat)

  predicate Sooner(a: Place, b: Place) {
    a.event < b.event || (a.event == b.event && a.op < b.op)
  }

  ghost predicate ObjectsAt(p: Contract, t: Trace, ps: seq<Passage>, at: Place, v: Violation)
    requires |ps| == |t|
  {
    at.event < |t| && Objects(p, t[at.event], ps[at.event].before, at.op, v)
  }

  /** The violations are those found at these places, and they are all there are. */
  ghost predicate FoundAt(p: Contract, t: Trace, ps: seq<Passage>, vs: seq<Violation>, places: seq<Place>)
    requires |ps| == |t|
  {
    && |places| == |vs| && Sorted(Sooner, places)
    && (forall i | 0 <= i < |vs| :: ObjectsAt(p, t, ps, places[i], vs[i]))
    && (forall at, v | ObjectsAt(p, t, ps, at, v) :: at in places)
  }

  /** The last event of an instance leaves it, having moved, outside the required states. */
  ghost predicate Strands(p: Contract, t: Trace, ps: seq<Passage>, k: nat, v: Violation, message: string)
    requires |ps| == |t|
  {
    Last(t, k) &&
    var en := ps[k].after;
    && p.mustExitIn != [] && en.moved && en.state !in p.mustExitIn
    && v == Violation(p.id, t[k].instance, en.state, en.enteredAt, t[|t| - 1].line, message)
  }

  predicate ByInstance(v: Violation, v': Violation) {
    Before(v.instance, v'.instance)
  }

  ghost predicate Leftover(p: Contract, t: Trace, ps: seq<Passage>, vs: seq<Violation>, message: string)
    requires |ps| == |t|
  {
    Sorted(ByInstance, vs) && forall v :: v in vs <==> exists k: nat :: Strands(p, t, ps, k, v, message)
  }

  ghost predicate Splits(p: Contract, t: Trace, ps: seq<Passage>, places: seq<Place>, vs: seq<Violation>, message: string)
    requires |ps| == |t|
  {
    |places| <= |vs| && FoundAt(p, t, ps, vs[..|places|], places) && Leftover(p, t, ps, vs[|places|..], message)
  }

  /** What a checked trace has to be told: the violations by event and operation, and then
      the instances left outside the required states, by name. */
  ghost predicate Told(p: Contract, t: Trace, vs: seq<Violation>, message: string) {
    exists ps, places :: Chronicle(p, t, ps) && Splits(p, t, ps, places, vs, message)
  }

  /** Every instance that has an event is where its last event left it. */
  ghost predicate EndsIn(t: Trace, ps: seq<Passage>, es: Entries)
    requires |ps| == |t|
  {
    && (forall k: nat | Last(t, k) :: t[k].instance in es && es[t[k].instance] == ps[k].after)
    && (forall i | i in es :: exists k: nat :: Last(t, k) && t[k].instance == i)
  }

  /** What has to be found on the way, and where the instances end. */
  ghost predicate Walked(p: Contract, t: Trace, es: Entries, vs: seq<Violation>) {
    exists ps, places :: Chronicle(p, t, ps) && EndsIn(t, ps, es) && FoundAt(p, t, ps, vs, places)
  }

  // ---- what is reported is what has to be -----------------------------

  ghost function Passages(p: Contract, t: Trace): (ps: seq<Passage>)
    ensures |ps| == |t|
  {
    if t == [] then []
    else
      var (es, e) := (Trail(p, t[..|t| - 1]).0, t[|t| - 1]);
      Passages(p, t[..|t| - 1]) + [Passage(EntryFor(p, es, e), Advance(p, EntryFor(p, es, e), e).0)]
  }

  lemma AdvanceGoes(p: Contract, en: Entry, e: Event)
    requires Unambiguous(p.transitions)
    ensures Goes(p, e, Passage(en, Advance(p, en, e).0))
  {
    hide Find, Forbidden, Unambiguous;
    FindAny(p, e.call, en.state);
  }

  /** What is found is the one transition there is. */
  lemma FindAny(p: Contract, call: string, state: string)
    requires Unambiguous(p.transitions)
    ensures match Find(p.transitions, call, state)
      case Some(tr) => Leaves(p, tr, call, state)
      case None => forall tr :: !Leaves(p, tr, call, state)
  {
    hide Find, Unambiguous;
    match Find(p.transitions, call, state)
    case Some(tr) => FindIs(p.transitions, call, state, tr);
    case None =>
      forall tr
        ensures !Leaves(p, tr, call, state)
      {
        FindIs(p.transitions, call, state, tr);
      }
  }

  lemma {:induction false} PassagesEnd(p: Contract, t: Trace)
    ensures EndsIn(t, Passages(p, t), Trail(p, t).0)
  {
    hide Advance, EndsIn;
    if t == [] {
      NothingEnds();
    } else {
      var n := |t| - 1;
      PassagesEnd(p, t[..n]);
      EndsMore(t[..n], Passages(p, t[..n]), Trail(p, t[..n]).0, t[n], Passages(p, t)[n]);
      assert t[..n] + [t[n]] == t;
    }
  }

  lemma NothingEnds()
    ensures EndsIn([], [], map[])
  {
  }

  lemma EndsMore(t: Trace, ps: seq<Passage>, es: Entries, e: Event, s: Passage)
    requires |ps| == |t| && EndsIn(t, ps, es)
    ensures EndsIn(t + [e], ps + [s], es[e.instance := s.after])
  {
    var (u, es') := (t + [e], es[e.instance := s.after]);
    forall k: nat | Last(u, k)
      ensures u[k].instance in es' && es'[u[k].instance] == (ps + [s])[k].after
    {
      if k < |t| {
        assert forall j | k < j < |t| :: t[j] == u[j];
        assert Last(t, k) && u[|t|].instance != u[k].instance;
      }
    }
    assert Last(u, |t|);
    forall i | i in es' && i != e.instance
      ensures exists k: nat :: Last(u, k) && u[k].instance == i
    {
      var k: nat :| Last(t, k) && t[k].instance == i;
      assert Last(u, k);
    }
  }

  lemma {:induction false} PassagesChronicle(p: Contract, t: Trace)
    requires Unambiguous(p.transitions)
    ensures Chronicle(p, t, Passages(p, t))
  {
    hide Advance, Goes, Unambiguous;
    if t != [] {
      var n := |t| - 1;
      var init, ps := t[..n], Passages(p, t);
      PassagesChronicle(p, init);
      forall k | 0 <= k < |t|
        ensures PassageAt(p, t, ps, k)
      {
        if k < n {
          assert PassageAt(p, init, Passages(p, init), k);
          PassageStays(p, init, Passages(p, init), t[n], ps[n], k);
          assert init + [t[n]] == t;
        } else {
          NewPassage(p, t);
        }
      }
    }
  }

  lemma PassageStays(p: Contract, t: Trace, ps: seq<Passage>, e: Event, s: Passage, k: nat)
    requires |ps| == |t| && k < |t| && PassageAt(p, t, ps, k)
    ensures PassageAt(p, t + [e], ps + [s], k)
  {
    hide Goes;
    var u := t + [e];
    assert forall j | 0 <= j <= k :: u[j] == t[j];
    assert First(u, k) ==> First(t, k);
    forall j: nat | Precedes(u, j, k)
      ensures Precedes(t, j, k)
    {
    }
  }

  lemma NewPassage(p: Contract, t: Trace)
    requires Unambiguous(p.transitions) && t != []
    ensures PassageAt(p, t, Passages(p, t), |t| - 1)
  {
    hide Advance, Goes, Unambiguous;
    var n := |t| - 1;
    var init, es, e := t[..n], Trail(p, t[..n]).0, t[n];
    PassagesEnd(p, init);
    AdvanceGoes(p, EntryFor(p, es, e), e);
    forall j: nat | Precedes(t, j, n)
      ensures Last(init, j) && init[j].instance == e.instance
    {
    }
    assert First(t, n) ==> forall k: nat | k < n :: init[k].instance != e.instance;
  }

  lemma {:induction false} ForbiddenPlaces(p: Contract, en: Entry, e: Event, m: nat) returns (ks: seq<nat>)
    requires m <= |p.operations|
    ensures |ks| == |Forbidden(p, p.operations[..m], en, e)| && Ordered.Ascending(ks)
    ensures forall i | 0 <= i < |ks| :: ks[i] < m && Objects(p, e, en, ks[i], Forbidden(p, p.operations[..m], en, e)[i])
    ensures forall k: nat, v | k < m && Objects(p, e, en, k, v) :: k in ks
  {
    ks := [];
    if m > 0 {
      ks := ForbiddenPlaces(p, en, e, m - 1);
      assert p.operations[..m][..m - 1] == p.operations[..m - 1];
      if Forbids(p.operations[m - 1], e.call, en.state) {
        ks := ks + [m - 1];
      }
    }
  }

  /** Each violation of an event is found at an operation, or after the last of them. */
  ghost predicate AdvancedAt(p: Contract, en: Entry, e: Event, vs: seq<Violation>, ks: seq<nat>) {
    && |ks| == |vs| && Ordered.Ascending(ks)
    && (forall i | 0 <= i < |ks| :: Objects(p, e, en, ks[i], vs[i]))
    && (forall k: nat, v | Objects(p, e, en, k, v) :: k in ks)
  }

  lemma AdvancePlaces(p: Contract, en: Entry, e: Event) returns (ks: seq<nat>)
    requires Unambiguous(p.transitions)
    ensures AdvancedAt(p, en, e, Advance(p, en, e).1, ks)
  {
    hide Find, Forbidden, Unambiguous;
    ks := ForbiddenPlaces(p, en, e, |p.operations|);
    assert p.operations[..|p.operations|] == p.operations;
    FindAny(p, e.call, en.state);
    if p.strict && HasTransition(p.transitions, e.call) && Find(p.transitions, e.call, en.state).None? {
      ks := ks + [|p.operations|];
    }
  }

  lemma {:induction false} TrailPlaces(p: Contract, t: Trace) returns (places: seq<Place>)
    requires Unambiguous(p.transitions)
    ensures FoundAt(p, t, Passages(p, t), Trail(p, t).1, places)
  {
    hide Advance, Objects, Unambiguous;
    places := [];
    if t != [] {
      var n := |t| - 1;
      var es := Trail(p, t[..n]).0;
      places := TrailPlaces(p, t[..n]);
      var ks := AdvancePlaces(p, EntryFor(p, es, t[n]), t[n]);
      var more := seq(|ks|, i requires 0 <= i < |ks| => Place(n, ks[i]));
      FoundMore(p, t, places, ks, more);
      places := places + more;
    }
  }

  lemma FoundMore(p: Contract, t: Trace, places: seq<Place>, ks: seq<nat>, more: seq<Place>)
    requires t != [] && FoundAt(p, t[..|t| - 1], Passages(p, t[..|t| - 1]), Trail(p, t[..|t| - 1]).1, places)
    requires var (n, es) := (|t| - 1, Trail(p, t[..|t| - 1]).0);
      && AdvancedAt(p, EntryFor(p, es, t[n]), t[n], Advance(p, EntryFor(p, es, t[n]), t[n]).1, ks)
      && |more| == |ks| && forall i | 0 <= i < |ks| :: more[i] == Place(n, ks[i])
    ensures FoundAt(p, t, Passages(p, t), Trail(p, t).1, places + more)
  {
    hide Advance, Objects;
    var n := |t| - 1;
    var init, ps, all := t[..n], Passages(p, t), places + more;
    var vs, found := Trail(p, t).1, Trail(p, init).1;
    forall i | 0 <= i < |places|
      ensures places[i].event < n
    {
      assert ObjectsAt(p, init, Passages(p, init), places[i], found[i]);
    }
    forall i | 0 <= i < |vs|
      ensures ObjectsAt(p, t, ps, all[i], vs[i])
    {
      if i < |places| {
        assert ObjectsAt(p, init, Passages(p, init), places[i], found[i]);
      } else {
        assert Objects(p, t[n], ps[n].before, ks[i - |places|], vs[i]);
      }
    }
    forall at, v | ObjectsAt(p, t, ps, at, v)
      ensures at in all
    {
      if at.event < n {
        assert ObjectsAt(p, init, Passages(p, init), at, v);
      } else {
        assert at.op in ks;
        var i :| 0 <= i < |ks| && ks[i] == at.op;
        assert all[|places| + i] == at;
      }
    }
  }

  lemma StrandedAt(p: Contract, t: Trace, ps: seq<Passage>, es: Entries, v: Violation, message: string) returns (k: nat)
    requires |ps| == |t| && EndsIn(t, ps, es) && v.instance in Stranded(p, es)
    requires v == ExitViolation(p, es, v.instance, LastLine(t), message)
    ensures Strands(p, t, ps, k, v, message)
  {
    k :| Last(t, k) && t[k].instance == v.instance;
  }

  lemma StrandsClosed(p: Contract, t: Trace, ps: seq<Passage>, es: Entries, k: nat, v: Violation, message: string)
    requires |ps| == |t| && EndsIn(t, ps, es) && Strands(p, t, ps, k, v, message)
    ensures v.instance in Stranded(p, es)
    ensures v == ExitViolation(p, es, v.instance, LastLine(t), message)
  {
  }

  lemma ClosesLeftover(p: Contract, t: Trace, es: Entries, vs: seq<Violation>, message: string)
    requires EndsIn(t, Passages(p, t), es) && Closes(p, t, es, vs, message)
    ensures Leftover(p, t, Passages(p, t), vs, message)
  {
    hide Passages, Before, Strands;
    var ps := Passages(p, t);
    forall v
      ensures v in vs <==> exists k: nat :: Strands(p, t, ps, k, v, message)
    {
      if v in vs {
        var k := StrandedAt(p, t, ps, es, v, message);
      }
      if k: nat :| Strands(p, t, ps, k, v, message) {
        StrandsClosed(p, t, ps, es, k, v, message);
      }
    }
  }

  lemma TrailWalked(p: Contract, t: Trace)
    requires Unambiguous(p.transitions)
    ensures Walked(p, t, Trail(p, t).0, Trail(p, t).1)
  {
    hide Chronicle, EndsIn, FoundAt, Trail, Passages, Unambiguous;
    PassagesChronicle(p, t);
    PassagesEnd(p, t);
    var places := TrailPlaces(p, t);
    assert Chronicle(p, t, Passages(p, t));
  }

  /** A report says what has to be reported, */
  lemma ReportsTold(p: Contract, t: Trace, vs: seq<Violation>, message: string)
    requires Unambiguous(p.transitions) && Reports(p, t, vs, message)
    ensures Told(p, t, vs, message)
  {
    hide Chronicle, EndsIn, FoundAt, Closes, Leftover, Trail, Passages, Unambiguous;
    PassagesChronicle(p, t);
    PassagesEnd(p, t);
    var (es, found) := Trail(p, t);
    var places := TrailPlaces(p, t);
    FoundSize(p, t, Passages(p, t), found, places);
    assert vs[..|places|] == found;
    ClosesLeftover(p, t, es, vs[|found|..], message);
    assert Splits(p, t, Passages(p, t), places, vs, message);
  }

  lemma FoundSize(p: Contract, t: Trace, ps: seq<Passage>, vs: seq<Violation>, places: seq<Place>)
    requires |ps| == |t| && FoundAt(p, t, ps, vs, places)
    ensures |places| == |vs|
  {
  }

  lemma {:induction false} ChronicleOnce(p: Contract, t: Trace, ps: seq<Passage>, ps': seq<Passage>, n: nat)
    requires Unambiguous(p.transitions) && Chronicle(p, t, ps) && Chronicle(p, t, ps') && n <= |t|
    ensures ps[..n] == ps'[..n]
  {
    hide Goes, Unambiguous;
    if n > 0 {
      var k := n - 1;
      ChronicleOnce(p, t, ps, ps', k);
      assert PassageAt(p, t, ps, k) && PassageAt(p, t, ps', k);
      if !First(t, k) {
        var j := Preceding(t, k);
        assert ps[j] == ps[..k][j] && ps'[j] == ps'[..k][j];
      }
      GoesOnce(p, t[k], ps[k], ps'[k]);
      assert ps[..n] == ps[..k] + [ps[k]] && ps'[..n] == ps'[..k] + [ps'[k]];
    }
  }

  lemma {:induction false} Preceding(t: Trace, k: nat) returns (j: nat)
    requires k < |t| && !First(t, k)
    ensures Precedes(t, j, k)
  {
    j := k - 1;
    while t[j].instance != t[k].instance
      invariant j < k && forall i | j < i < k :: t[i].instance != t[k].instance
      invariant exists i :: 0 <= i <= j && t[i].instance == t[k].instance
      decreases j
    {
      j := j - 1;
    }
  }

  lemma GoesOnce(p: Contract, e: Event, s: Passage, s': Passage)
    requires Unambiguous(p.transitions) && Goes(p, e, s) && Goes(p, e, s') && s.before == s'.before
    ensures s == s'
  {
    forall tr, tr' | Leaves(p, tr, e.call, s.before.state) && Leaves(p, tr', e.call, s.before.state)
      ensures tr == tr'
    {
      var i :| 0 <= i < |p.transitions| && p.transitions[i] == tr;
      var j :| 0 <= j < |p.transitions| && p.transitions[j] == tr';
      assert i == j;
    }
  }

  /** and that is only one thing. */
  lemma ToldOnce(p: Contract, t: Trace, vs: seq<Violation>, vs': seq<Violation>, message: string)
    requires Unambiguous(p.transitions) && Told(p, t, vs, message) && Told(p, t, vs', message)
    ensures vs == vs'
  {
    hide PassageAt, FoundAt, Leftover, Unambiguous;
    var ps, places :| Chronicle(p, t, ps) && Splits(p, t, ps, places, vs, message);
    var ps', places' :| Chronicle(p, t, ps') && Splits(p, t, ps', places', vs', message);
    ChronicleOnce(p, t, ps, ps', |t|);
    assert ps[..|t|] == ps && ps'[..|t|] == ps';
    FoundOnce(p, t, ps, vs[..|places|], places, vs'[..|places'|], places');
    LeftoverOnce(p, t, ps, vs[|places|..], vs'[|places'|..], message);
    assert vs == vs[..|places|] + vs[|places|..] && vs' == vs'[..|places'|] + vs'[|places'|..];
  }

  lemma FoundOnce(p: Contract, t: Trace, ps: seq<Passage>, vs: seq<Violation>, places: seq<Place>, vs': seq<Violation>, places': seq<Place>)
    requires |ps| == |t| && FoundAt(p, t, ps, vs, places) && FoundAt(p, t, ps, vs', places')
    ensures vs == vs' && places == places'
  {
    hide Leaves;
    forall at
      ensures at in places <==> at in places'
    {
      if at in places {
        var i :| 0 <= i < |places| && places[i] == at;
        assert ObjectsAt(p, t, ps, at, vs[i]);
      }
      if at in places' {
        var i :| 0 <= i < |places'| && places'[i] == at;
        assert ObjectsAt(p, t, ps, at, vs'[i]);
      }
    }
    SortedOnce(Sooner, places, places');
    forall i | 0 <= i < |vs|
      ensures vs[i] == vs'[i]
    {
      assert ObjectsAt(p, t, ps, places[i], vs[i]) && ObjectsAt(p, t, ps, places[i], vs'[i]);
    }
  }

  lemma LeftoverOnce(p: Contract, t: Trace, ps: seq<Passage>, vs: seq<Violation>, vs': seq<Violation>, message: string)
    requires |ps| == |t| && Leftover(p, t, ps, vs, message) && Leftover(p, t, ps, vs', message)
    ensures vs == vs'
  {
    hide Before, Strands;
    forall v, v' | ByInstance(v, v')
      ensures !ByInstance(v', v)
    {
      BeforeAsym(v.instance, v'.instance);
    }
    forall v
      ensures v in vs <==> v in vs'
    {
    }
    SortedOnce(ByInstance, vs, vs');
  }

  /** An event of the instance, up to event `k`, took it to another state than the initial. */
  ghost predicate HasMoved(p: Contract, t: Trace, ps: seq<Passage>, k: nat, j: nat, tr: Transition)
    requires |ps| == |t| && k < |t|
  {
    && j <= k && t[j].instance == t[k].instance
    && Leaves(p, tr, t[j].call, ps[j].before.state) && tr.to != p.initial
  }

  /** An instance has moved just when it has taken a transition to another state than the
      initial one. */
  lemma {:induction false} MovedIff(p: Contract, t: Trace, ps: seq<Passage>, k: nat)
    requires Unambiguous(p.transitions) && Chronicle(p, t, ps) && k < |t|
    ensures ps[k].after.moved <==> exists j: nat, tr :: HasMoved(p, t, ps, k, j, tr)
    decreases k
  {
    hide Unambiguous;
    assert PassageAt(p, t, ps, k);
    MovedNow(p, t[k], ps[k]);
    if First(t, k) {
      assert forall j: nat, tr | HasMoved(p, t, ps, k, j, tr) :: j == k;
    } else {
      var i := Preceding(t, k);
      MovedIff(p, t, ps, i);
      if j: nat, tr :| HasMoved(p, t, ps, i, j, tr) {
        assert HasMoved(p, t, ps, k, j, tr);
      }
      if j: nat, tr :| HasMoved(p, t, ps, k, j, tr) && j < k {
        assert HasMoved(p, t, ps, i, j, tr);
      }
    }
    if tr :| Leaves(p, tr, t[k].call, ps[k].before.state) && tr.to != p.initial {
      assert HasMoved(p, t, ps, k, k, tr);
    }
  }

  lemma MovedNow(p: Contract, e: Event, s: Passage)
    requires Unambiguous(p.transitions) && Goes(p, e, s)
    ensures s.after.moved <==> s.before.moved || exists tr :: Leaves(p, tr, e.call, s.before.state) && tr.to != p.initial
  {
    if tr :| Leaves(p, tr, e.call, s.before.state) {
      GoesOnce(p, e, s, Passage(s.before, Entry(tr.to, e.line, s.before.moved || tr.to != p.initial)));
    }
  }

  // ---- the checker ----------------------------------------------------

  method AdvanceEntry(p: Contract, en: Entry, e: Event) returns (en': Entry, vs: seq<Violation>)
    ensures (en', vs) == Advance(p, en, e)
    ensures Unambiguous(p.transitions) ==> Goes(p, e, Passage(en, en')) && exists ks :: AdvancedAt(p, en, e, vs, ks)
  {
    hide Goes, AdvancedAt, Unambiguous;
    if Unambiguous(p.transitions) {
      AdvanceGoes(p, en, e);
      ghost var ks := AdvancePlaces(p, en, e);
    }
    vs := [];
    for k := 0 to |p.operations|
      invariant vs == Forbidden(p, p.operations[..k], en, e)
    {
      assert p.operations[..k + 1][..k] == p.operations[..k];
      if Forbids(p.operations[k], e.call, en.state) {
        vs := vs + [Violation(p.id, e.instance, en.state, en.enteredAt, e.line, p.operations[k].message)];
      }
    }
    assert p.operations[..|p.operations|] == p.operations;
    for k := 0 to |p.transitions|
      invariant Find(p.transitions[k..], e.call, en.state) == Find(p.transitions, e.call, en.state)
    {
      var t := p.transitions[k];
      assert p.transitions[k..][1..] == p.transitions[k + 1..];
      if t.on == e.call && t.from == en.state {
        return Entry(t.to, e.line, en.moved || t.to != p.initial), vs;
      }
    }
    en' := en;
    if p.strict && exists i | 0 <= i < |p.transitions| :: p.transitions[i].on == e.call {
      vs := vs + [Violation(p.id, e.instance, en.state, en.enteredAt, e.line, Denied(e.call, en.state))];
    }
  }

  /** Event `k` is the first that cannot be checked, for this reason. */
  predicate FlawAt(p: Contract, t: Trace, k: nat, error: Error) {
    && k < |t| && GoodTrace(p, t[..k])
    && if !GoodEvent(t, k) then error == BadEvent else !KnownCall(p, t[k].call) && error == UnknownCall(t[k].call)
  }

  ghost predicate TraceFlaw(p: Contract, t: Trace, error: Error) {
    exists k: nat :: FlawAt(p, t, k, error)
  }

  method Walk(p: Contract, events: Trace) returns (r: Result<(Entries, seq<Violation>), Error>)
    ensures r.Ok? <==> GoodTrace(p, events)
    ensures r.Err? ==> TraceFlaw(p, events, r.error)
    ensures r.Ok? ==> r.value == Trail(p, events)
    ensures r.Ok? && Unambiguous(p.transitions) ==> Walked(p, events, r.value.0, r.value.1)
  {
    hide Blank, Advance, Goes, AdvancedAt, Unambiguous, Walked;
    var instances: Entries, violations, last := map[], [], 0;
    for k := 0 to |events|
      invariant GoodTrace(p, events[..k]) && (instances, violations) == Trail(p, events[..k])
      invariant last == if k == 0 then 0 else events[k - 1].line
    {
      var e := events[k];
      if Blank(e.instance) || e.line == 0 || e.line < last {
        assert !GoodEvent(events, k);
        assert FlawAt(p, events, k, BadEvent);
        return Err(BadEvent);
      }
      if !(exists i | 0 <= i < |p.transitions| :: p.transitions[i].on == e.call)
        && !(exists i | 0 <= i < |p.operations| :: p.operations[i].on == e.call) {
        assert GoodEvent(events, k) && !KnownCall(p, events[k].call);
        assert FlawAt(p, events, k, UnknownCall(e.call));
        return Err(UnknownCall(e.call));
      }
      GoodMore(p, events, k);
      last := e.line;
      var en, more := AdvanceEntry(p, EntryFor(p, instances, e), e);
      assert events[..k + 1][..k] == events[..k];
      instances, violations := instances[e.instance := en], violations + more;
    }
    assert events[..|events|] == events;
    if Unambiguous(p.transitions) {
      TrailWalked(p, events);
    }
    r := Ok((instances, violations));
  }

  lemma GoodMore(p: Contract, t: Trace, k: nat)
    requires k < |t| && GoodTrace(p, t[..k]) && GoodEvent(t, k) && KnownCall(p, t[k].call)
    ensures GoodTrace(p, t[..k + 1])
  {
    var u := t[..k + 1];
    forall j | 0 <= j < |u|
      ensures GoodEvent(u, j) && KnownCall(p, u[j].call)
    {
      if j < k {
        assert GoodEvent(t[..k], j);
      }
    }
  }

  /** The closing violations, by the names of the instances; `message` is the text they
      all carry. */
  method Close(p: Contract, events: Trace, es: Entries, message: string) returns (vs: seq<Violation>)
    ensures Closes(p, events, es, vs, message)
  {
    vs := [];
    var last := LastLine(events);
    var stranded := Stranded(p, es);
    var names := InNameOrder(stranded);
    for k := 0 to |names|
      invariant |vs| == k && forall j | 0 <= j < k :: names[j] in es && vs[j] == ExitViolation(p, es, names[j], last, message)
    {
      assert names[k] in stranded;
      vs := vs + [ExitViolation(p, es, names[k], last, message)];
    }
    forall i | i in stranded
      ensures ExitViolation(p, es, i, last, message) in vs
    {
      var k :| 0 <= k < |names| && names[k] == i;
      assert vs[k] == ExitViolation(p, es, i, last, message);
    }
  }

  predicate Checkable(p: Contract, t: Trace) {
    Valid(p) && !(p.schema == "0.2.0" && t == []) && |t| <= EVENT_BUDGET && GoodTrace(p, t)
  }

  /** Why a trace is not checked: the contract, its size, or its first bad event. */
  ghost predicate Unchecked(p: Contract, t: Trace, error: Error) {
    if !Valid(p) then Flaw(p, error)
    else if p.schema == "0.2.0" && t == [] then error == EmptyTrace
    else if |t| > EVENT_BUDGET then error == TraceBudget
    else TraceFlaw(p, t, error)
  }

  lemma ValidIsUnambiguous(p: Contract)
    requires Valid(p)
    ensures Unambiguous(p.transitions)
  {
  }

  /** Checks a trace against a contract: an error just when the contract or the trace is
      not one that can be checked, and the violations otherwise. */
  method CheckTrace(p: Contract, events: Trace, message: string) returns (r: Result<seq<Violation>, Error>)
    ensures r.Ok? <==> Checkable(p, events)
    ensures r.Err? ==> Unchecked(p, events, r.error)
    ensures r.Ok? ==> Reports(p, events, r.value, message) && Told(p, events, r.value, message)
  {
    hide Valid, GoodTrace, Trail, Closes, Flaw, TraceFlaw, Told, Walked, Unambiguous;
    var valid := Validate(p);
    if valid.Err? {
      return Err(valid.error);
    }
    ValidIsUnambiguous(p);
    if p.schema == "0.2.0" && events == [] {
      return Err(EmptyTrace);
    }
    if |events| > EVENT_BUDGET {
      return Err(TraceBudget);
    }
    var walked := Walk(p, events);
    if walked.Err? {
      return Err(walked.error);
    }
    var (es, found) := walked.value;
    var closing := Close(p, events, es, message);
    assert (found + closing)[|found|..] == closing;
    r := Ok(found + closing);
    ReportsTold(p, events, r.value, message);
  }
}
