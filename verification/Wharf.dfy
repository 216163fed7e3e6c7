/** The Wharf transfer checker: events out of turn are denied and change nothing. */
module Wharf {
  import opened Wrappers
  import opened Text
  import opened Ordered

  datatype Action =
    | Authenticate(keyPresent: bool, nonce: string, expiresAt: nat)
    | Bind(artifact: string, policy: string, rootPresent: bool, signatureRequired: bool)
    | Transfer(artifact: string)
    | Verify(artifact: string, signatureValid: bool, rootValid: bool)
    | Commit(artifact: string, durable: bool)
    | Rollback

  datatype Event = Event(session: string, now: nat, action: Action)

  type Trace = seq<Event>

  datatype Phase = Authenticated | Bound | Transferred | Verified | Committed | RolledBack

  datatype Session = Session(state: Phase, expires: nat, artifact: string, policy: string)

  datatype State = State(sessions: map<string, Session>, nonces: set<string>)

  const EVENT_BUDGET: nat := 100_000

  datatype Refusal = BadSize | BadEvent(index: nat)

  datatype Violation = Violation(event: nat, session: string, reason: string)

  // ---- one event ------------------------------------------------------

  predicate Terminal(p: Phase) {
    p == Committed || p == RolledBack
  }

  const AUTH_REASON := "absent key/nonce or expired authentication"
  const REPLAY_REASON := "replayed session/nonce"
  const NO_SESSION_REASON := "unauthenticated session"
  const EXPIRED_REASON := "session expired"
  const BIND_REASON := "binding requires artifact, policy, root and mandatory signature"
  const TRANSFER_REASON := "transfer is unbound or cross-session artifact"
  const VERIFY_REASON := "verification requires bound transferred artifact, valid signature and root"
  const COMMIT_REASON := "commit requires matching verified artifact and durable application"
  const ROLLBACK_REASON := "terminal session cannot roll back"
  const UNFINISHED_REASON := "trace ends without commit/rollback"

  /** A live session after an action, or why the action is denied. */
  function Act(s: Session, a: Action): Result<Session, string>
    requires !a.Authenticate?
  {
    match a
    case Bind(artifact, policy, root, signature) =>
      if s.state != Authenticated || Blank(artifact) || Blank(policy) || !root || !signature then Err(BIND_REASON)
      else Ok(s.(artifact := artifact, policy := policy, state := Bound))
    case Transfer(artifact) =>
      if s.state != Bound || artifact != s.artifact then Err(TRANSFER_REASON) else Ok(s.(state := Transferred))
    case Verify(artifact, signature, root) =>
      if s.state != Transferred || artifact != s.artifact || !signature || !root then Err(VERIFY_REASON)
      else Ok(s.(state := Verified))
    case Commit(artifact, durable) =>
      if s.state != Verified || artifact != s.artifact || !durable then Err(COMMIT_REASON) else Ok(s.(state := Committed))
    case Rollback =>
      if Terminal(s.state) then Err(ROLLBACK_REASON) else Ok(s.(state := RolledBack))
  }

  /** The state after an event, and why the event is denied, if it is. */
  function Step(st: State, e: Event): (State, Option<string>) {
    match e.action
    case Authenticate(key, nonce, expires) =>
      if !key || Blank(nonce) || expires <= e.now then (st, Some(AUTH_REASON))
      else if e.session in st.sessions || nonce in st.nonces then (st, Some(REPLAY_REASON))
      else (State(st.sessions[e.session := Session(Authenticated, expires, "", "")], st.nonces + {nonce}), None)
    case _ =>
      if e.session !in st.sessions then (st, Some(NO_SESSION_REASON))
      else if e.now >= st.sessions[e.session].expires then (st, Some(EXPIRED_REASON))
      else
        match Act(st.sessions[e.session], e.action)
        case Ok(s) => (st.(sessions := st.sessions[e.session := s]), None)
        case Err(reason) => (st, Some(reason))
  }

  // ---- traces ---------------------------------------------------------

  const START := State(map[], {})

  function After(t: Trace): State {
    if t == [] then START else Step(After(t[..|t| - 1]), t[|t| - 1]).0
  }

  /** For every event, why it is denied, if it is. */
  function Verdicts(t: Trace): (r: seq<Option<string>>)
    ensures |r| == |t|
  {
    if t == [] then []
    else Verdicts(t[..|t| - 1]) + [Step(After(t[..|t| - 1]), t[|t| - 1]).1]
  }

  predicate GoodEvent(t: Trace, i: nat)
    requires i < |t|
  {
    !Blank(t[i].session) && (i > 0 ==> t[i - 1].now <= t[i].now)
  }

  predicate GoodTrace(t: Trace) {
    forall i {:trigger GoodEvent(t, i)} | 0 <= i < |t| :: GoodEvent(t, i)
  }

  /** The traces that are checked: the others are refused. */
  predicate Checkable(t: Trace) {
    0 < |t| <= EVENT_BUDGET && GoodTrace(t)
  }

  /** The violations of the denied events, numbered from one. */
  function Denials(t: Trace): seq<Violation> {
    if t == [] then []
    else
      var last := t[|t| - 1];
      Denials(t[..|t| - 1]) +
      match Verdicts(t)[|t| - 1] {
        case None => []
        case Some(reason) => [Violation(|t|, last.session, reason)]
      }
  }

  function Unfinished(st: State): set<string> {
    set s | s in st.sessions && !Terminal(st.sessions[s].state)
  }

  lemma VerdictsInit(t: Trace)
    requires t != []
    ensures Verdicts(t)[..|t| - 1] == Verdicts(t[..|t| - 1])
    ensures Verdicts(t)[|t| - 1] == Step(After(t[..|t| - 1]), t[|t| - 1]).1
  {
    hide Step;
  }

  lemma VerdictsMore(t: Trace, e: Event)
    ensures After(t + [e]) == Step(After(t), e).0
    ensures Verdicts(t + [e]) == Verdicts(t) + [Step(After(t), e).1]
  {
    hide Step;
    assert (t + [e])[..|t|] == t;
  }

  lemma NoVerdicts()
    ensures Verdicts([]) == [] && After([]) == START
  {
  }

  // ---- what a session has been through --------------------------------

  /** The events of one session that are not denied, in order. */
  function Past(t: Trace, vs: seq<Option<string>>, s: string): Trace
    requires |vs| == |t|
  {
    if t == [] then []
    else
      var n := |t| - 1;
      Past(t[..n], vs[..n], s) + if t[n].session == s && vs[n].None? then [t[n]] else []
  }

  /** The nonces of the authentications that are not denied, in order. */
  function Spent(t: Trace, vs: seq<Option<string>>): seq<string>
    requires |vs| == |t|
  {
    if t == [] then []
    else
      var n := |t| - 1;
      Spent(t[..n], vs[..n]) + if t[n].action.Authenticate? && vs[n].None? then [t[n].action.nonce] else []
  }

  /** The accepted events of one session. */
  function History(t: Trace, s: string): Trace {
    Past(t, Verdicts(t), s)
  }

  function AcceptedNonces(t: Trace): seq<string> {
    Spent(t, Verdicts(t))
  }

  /** One more event, and its verdict. */
  lemma PastMore(t: Trace, s: string)
    requires t != []
    ensures var (init, e) := (t[..|t| - 1], t[|t| - 1]);
      var accepted := Step(After(init), e).1.None?;
      && History(t, s) == History(init, s) + (if e.session == s && accepted then [e] else [])
      && AcceptedNonces(t) == AcceptedNonces(init) + (if e.action.Authenticate? && accepted then [e.action.nonce] else [])
  {
    hide Step;
    VerdictsInit(t);
  }

  /** Event `i` of an undisturbed transfer of `artifact`. */
  predicate InTurn(h: Trace, i: nat, artifact: string, expires: nat)
    requires i < |h|
  {
    && h[i].now < expires
    && match h[i].action
       case Authenticate(key, nonce, at) => i == 0 && key && !Blank(nonce) && at == expires
       case Bind(a, policy, root, signature) => i == 1 && a == artifact && !Blank(a) && !Blank(policy) && root && signature
       case Transfer(a) => i == 2 && a == artifact
       case Verify(a, signature, root) => i == 3 && a == artifact && signature && root
       case Commit(a, durable) => i == 4 && a == artifact && durable
       case Rollback => false
  }

  /** Authenticate, Bind, Transfer, Verify, Commit: the first `|h|` of these, all on one
      artifact and before the session expires. */
  predicate Undisturbed(h: Trace, artifact: string, expires: nat) {
    |h| <= 5 && forall i {:trigger InTurn(h, i, artifact, expires)} | 0 <= i < |h| :: InTurn(h, i, artifact, expires)
  }

  function Stage(p: Phase): nat
    requires p != RolledBack
  {
    match p
    case Authenticated => 1
    case Bound => 2
    case Transferred => 3
    case Verified => 4
    case Committed => 5
  }

  predicate RolledBackAfter(h: Trace, expires: nat) {
    |h| > 1 && h[|h| - 1].action == Rollback && h[|h| - 1].now < expires
  }

  /** The session is what its accepted events make it. */
  predicate Explains(h: Trace, s: Option<Session>) {
    match s
    case None => h == []
    case Some(x) =>
      if x.state == RolledBack then
        RolledBackAfter(h, x.expires) && |h| <= 5 && Undisturbed(h[..|h| - 1], x.artifact, x.expires)
      else |h| == Stage(x.state) && Undisturbed(h, x.artifact, x.expires)
  }

  function SessionOf(st: State, s: string): Option<Session> {
    if s in st.sessions then Some(st.sessions[s]) else None
  }

  lemma UndisturbedMore(h: Trace, e: Event, artifact: string, expires: nat)
    requires Undisturbed(h, artifact, expires) && |h| < 5 && InTurn(h + [e], |h|, artifact, expires)
    ensures Undisturbed(h + [e], artifact, expires)
  {
    var h' := h + [e];
    forall i | 0 <= i < |h'|
      ensures InTurn(h', i, artifact, expires)
    {
      if i < |h| {
        assert InTurn(h, i, artifact, expires);
      }
    }
  }

  /** The artifact is fixed by the binding; before it there is nothing to match. */
  lemma UndisturbedAnyArtifact(h: Trace, a: string, a': string, expires: nat)
    requires Undisturbed(h, a, expires) && |h| <= 1
    ensures Undisturbed(h, a', expires)
  {
    forall i | 0 <= i < |h|
      ensures InTurn(h, i, a', expires)
    {
      assert InTurn(h, i, a, expires);
    }
  }

  lemma ExplainsStep(h: Trace, st: State, e: Event)
    requires Explains(h, SessionOf(st, e.session)) && Step(st, e).1.None?
    ensures Explains(h + [e], SessionOf(Step(st, e).0, e.session))
  {
    hide Blank;
    var st' := Step(st, e).0;
    var x' := st'.sessions[e.session];
    if e.action.Authenticate? {
      assert h == [];
      UndisturbedMore([], e, "", x'.expires);
      assert [] + [e] == [e];
    } else {
      var x := st.sessions[e.session];
      if e.action.Rollback? {
        assert (h + [e])[..|h|] == h;
      } else {
        if e.action.Bind? {
          UndisturbedAnyArtifact(h, x.artifact, x'.artifact, x.expires);
        }
        UndisturbedMore(h, e, x'.artifact, x.expires);
      }
    }
  }

  lemma OthersKept(st: State, e: Event, s: string)
    requires s != e.session
    ensures SessionOf(Step(st, e).0, s) == SessionOf(st, s)
  {
  }

  lemma DeniedKeeps(st: State, e: Event)
    requires Step(st, e).1.Some?
    ensures Step(st, e).0 == st
  {
  }

  /** In every reachable state every session is exactly what its accepted events make it:
      a committed one has five, in turn, on one artifact, all before it expires. */
  lemma {:induction false} SessionsExplained(t: Trace, s: string)
    ensures Explains(History(t, s), SessionOf(After(t), s))
  {
    hide Step, Explains, Verdicts;
    if t != [] {
      PastMore(t, s);
    }
    if t == [] {
      NoVerdicts();
      NothingExplained(s);
    } else {
      var init, e := t[..|t| - 1], t[|t| - 1];
      SessionsExplained(init, s);
      if Step(After(init), e).1.Some? {
        DeniedKeeps(After(init), e);
        assert History(init, s) + [] == History(init, s);
      } else if e.session != s {
        OthersKept(After(init), e, s);
        assert History(init, s) + [] == History(init, s);
      } else {
        ExplainsStep(History(init, s), After(init), e);
      }
    }
  }

  lemma NothingExplained(s: string)
    ensures Explains([], SessionOf(START, s))
  {
  }

  // ---- nonces ---------------------------------------------------------

  lemma NoneAccepted()
    ensures AcceptedNonces([]) == []
  {
  }

  lemma NonceStep(st: State, e: Event)
    ensures Step(st, e).0.nonces == st.nonces + if e.action.Authenticate? && Step(st, e).1.None? then {e.action.nonce} else {}
    ensures e.action.Authenticate? && Step(st, e).1.None? ==> e.action.nonce !in st.nonces
  {
  }

  /** No nonce is accepted twice, in any session, and the checker remembers just those
      it has accepted. */
  lemma {:induction false} NoncesOnce(t: Trace)
    ensures forall i, j | 0 <= i < j < |AcceptedNonces(t)| :: AcceptedNonces(t)[i] != AcceptedNonces(t)[j]
    ensures forall n :: n in After(t).nonces <==> n in AcceptedNonces(t)
  {
    hide Step, Verdicts, AcceptedNonces;
    if t == [] {
      NoVerdicts();
      NoneAccepted();
    } else {
      NoncesOnce(t[..|t| - 1]);
      PastMore(t, "");
      NonceStep(After(t[..|t| - 1]), t[|t| - 1]);
    }
  }

  // ---- what has to be said of a trace ---------------------------------

  /** The session has begun, and has neither committed nor rolled back. */
  predicate Open(h: Trace) {
    h != [] && !h[|h| - 1].action.Commit? && !h[|h| - 1].action.Rollback?
  }

  function Expiry(h: Trace): nat {
    if h != [] && h[0].action.Authenticate? then h[0].action.expiresAt else 0
  }

  /** The event is the next of an undisturbed transfer. */
  ghost predicate Continues(h: Trace, e: Event) {
    exists artifact, expires :: Undisturbed(h + [e], artifact, expires)
  }

  /** An event may follow the accepted events `h` of its session when the nonces accepted
      in all are `nonces`: a first authentication, the next event in turn, or a rollback of
      an open session in time. */
  ghost predicate Admissible(h: Trace, nonces: seq<string>, e: Event) {
    match e.action
    case Authenticate(key, nonce, expires) => key && !Blank(nonce) && e.now < expires && h == [] && nonce !in nonces
    case Rollback => Open(h) && e.now < Expiry(h)
    case _ => h != [] && Continues(h, e)
  }

  function OutOfTurn(a: Action): string {
    match a
    case Authenticate(_, _, _) => REPLAY_REASON
    case Bind(_, _, _, _) => BIND_REASON
    case Transfer(_) => TRANSFER_REASON
    case Verify(_, _, _) => VERIFY_REASON
    case Commit(_, _) => COMMIT_REASON
    case Rollback => ROLLBACK_REASON
  }

  predicate Presentable(e: Event) {
    e.action.Authenticate? ==> e.action.keyPresent && !Blank(e.action.nonce) && e.now < e.action.expiresAt
  }

  /** Why an event is denied: not presentable, no session, too late, or out of turn. */
  ghost function Ruling(h: Trace, nonces: seq<string>, e: Event): Option<string> {
    if Admissible(h, nonces, e) then None
    else if !Presentable(e) then Some(AUTH_REASON)
    else if e.action.Authenticate? || (h != [] && e.now < Expiry(h)) then Some(OutOfTurn(e.action))
    else Some(if h == [] then NO_SESSION_REASON else EXPIRED_REASON)
  }

  /** Every event is judged by what has been accepted before it, and by nothing else. */
  ghost predicate Ledger(t: Trace, vs: seq<Option<string>>) {
    |vs| == |t| && forall k {:trigger RuledAt(t, vs, k)} | 0 <= k < |t| :: RuledAt(t, vs, k)
  }

  ghost predicate RuledAt(t: Trace, vs: seq<Option<string>>, k: nat)
    requires |vs| == |t| && k < |t|
  {
    vs[k] == Ruling(Past(t[..k], vs[..k], t[k].session), Spent(t[..k], vs[..k]), t[k])
  }

  /** A session has begun with its first accepted event, which fixes when it expires. */
  lemma SessionBegun(h: Trace, x: Session)
    requires Explains(h, Some(x))
    ensures h != [] && Expiry(h) == x.expires && (Open(h) <==> !Terminal(x.state))
  {
    hide Blank;
    var init := h[..|h| - 1];
    if x.state == RolledBack {
      assert InTurn(init, 0, x.artifact, x.expires);
    } else {
      assert InTurn(h, 0, x.artifact, x.expires);
      assert InTurn(h, |h| - 1, x.artifact, x.expires);
    }
  }

  /** An undisturbed transfer goes on with just the event its stage calls for. */
  lemma ContinuesIff(h: Trace, x: Session, e: Event)
    requires Explains(h, Some(x)) && !e.action.Authenticate? && !e.action.Rollback?
    ensures Continues(h, e) <==> e.now < x.expires && Act(x, e.action).Ok?
  {
    hide Blank;
    SessionBegun(h, x);
    var h' := h + [e];
    if artifact, expires :| Undisturbed(h', artifact, expires) {
      assert InTurn(h', |h|, artifact, expires) && InTurn(h', 0, artifact, expires) && InTurn(h', |h| - 1, artifact, expires);
      if x.state != RolledBack {
        assert InTurn(h, 0, x.artifact, x.expires);
        if |h| > 1 {
          assert InTurn(h, 1, x.artifact, x.expires) && InTurn(h', 1, artifact, expires);
        }
      }
    }
    if e.now < x.expires && Act(x, e.action).Ok? {
      var x' := Act(x, e.action).value;
      if e.action.Bind? {
        UndisturbedAnyArtifact(h, x.artifact, x'.artifact, x.expires);
      }
      UndisturbedMore(h, e, x'.artifact, x.expires);
    }
  }

  /** A checker that remembers what has been accepted rules as it has to. */
  lemma StepRules(h: Trace, nonces: seq<string>, st: State, e: Event)
    requires Explains(h, SessionOf(st, e.session)) && forall n :: n in st.nonces <==> n in nonces
    ensures Step(st, e).1 == Ruling(h, nonces, e)
  {
    hide Blank, Continues, Undisturbed, InTurn;
    if e.session in st.sessions {
      var x := st.sessions[e.session];
      SessionBegun(h, x);
      if !e.action.Authenticate? && !e.action.Rollback? {
        ContinuesIff(h, x, e);
      }
    }
  }

  /** The next event is accepted just when it may follow what has been accepted, and is
      otherwise denied for the reason there is. */
  lemma NextVerdict(t: Trace, e: Event)
    ensures Step(After(t), e).1 == Ruling(History(t, e.session), AcceptedNonces(t), e)
    ensures Step(After(t), e).1.None? <==> Admissible(History(t, e.session), AcceptedNonces(t), e)
  {
    hide Step, Explains, History, AcceptedNonces, After, Admissible;
    SessionsExplained(t, e.session);
    NoncesOnce(t);
    StepRules(History(t, e.session), AcceptedNonces(t), After(t), e);
  }

  /** The verdicts of the checker are those that have to be given, */
  lemma {:induction false} VerdictsAreRuled(t: Trace)
    ensures Ledger(t, Verdicts(t))
  {
    hide Step, Verdicts, Ruling, After;
    if t == [] {
      NoVerdicts();
    } else {
      var n := |t| - 1;
      var init := t[..n];
      VerdictsAreRuled(init);
      VerdictsInit(t);
      forall k | 0 <= k < |t|
        ensures RuledAt(t, Verdicts(t), k)
      {
        if k < n {
          assert RuledAt(init, Verdicts(init), k);
          assert init[..k] == t[..k] && Verdicts(init)[..k] == Verdicts(t)[..k];
          assert Verdicts(init)[k] == Verdicts(t)[..n][k];
        } else {
          NextVerdict(init, t[n]);
        }
      }
    }
  }

  /** and no others. */
  lemma {:induction false} LedgerOnce(t: Trace, vs: seq<Option<string>>, n: nat)
    requires Ledger(t, vs) && n <= |t|
    ensures vs[..n] == Verdicts(t)[..n]
  {
    hide Verdicts, Ruling;
    if n > 0 {
      LedgerOnce(t, vs, n - 1);
      VerdictsAreRuled(t);
      assert RuledAt(t, vs, n - 1) && RuledAt(t, Verdicts(t), n - 1);
      assert vs[..n] == vs[..n - 1] + [vs[n - 1]] && Verdicts(t)[..n] == Verdicts(t)[..n - 1] + [Verdicts(t)[n - 1]];
    }
  }

  // ---- what has to be reported ----------------------------------------

  predicate Denies(t: Trace, vs: seq<Option<string>>, d: Violation)
    requires |vs| == |t|
  {
    0 < d.event <= |t| && vs[d.event - 1] == Some(d.reason) && d.session == t[d.event - 1].session
  }

  predicate Earlier(d: Violation, d': Violation) {
    d.event < d'.event
  }

  /** One violation for every denied event, in order. */
  ghost predicate ListsDenials(t: Trace, vs: seq<Option<string>>, ds: seq<Violation>)
    requires |vs| == |t|
  {
    Sorted(Earlier, ds) && forall d :: d in ds <==> Denies(t, vs, d)
  }

  /** The sessions whose accepted events leave them open. */
  function OpenSessions(t: Trace, vs: seq<Option<string>>): set<string>
    requires |vs| == |t|
  {
    set k | 0 <= k < |t| && Open(Past(t, vs, t[k].session)) :: t[k].session
  }

  /** What a checked trace has to be told: its denials, and then the sessions it leaves
      open, by what each event's past allows. */
  ghost predicate Told(t: Trace, vs: seq<Violation>) {
    exists ledger, n: nat :: Ledger(t, ledger) && n <= |vs| && Splits(t, ledger, vs, n)
  }

  ghost predicate Splits(t: Trace, ledger: seq<Option<string>>, vs: seq<Violation>, n: nat)
    requires |ledger| == |t| && n <= |vs|
  {
    ListsDenials(t, ledger, vs[..n]) && Closes(t, vs[n..], OpenSessions(t, ledger))
  }

  lemma {:induction false} DenialsListed(t: Trace)
    ensures ListsDenials(t, Verdicts(t), Denials(t))
  {
    hide Verdicts, Step, After, ListsDenials;
    if t == [] {
      NoVerdicts();
      NothingListed();
    } else {
      var n := |t| - 1;
      DenialsListed(t[..n]);
      VerdictsInit(t);
      assert Denials(t[..n]) + [] == Denials(t[..n]);
      ListsMore(t, Verdicts(t), Denials(t[..n]), Denials(t));
    }
  }

  lemma NothingListed()
    ensures ListsDenials([], [], [])
  {
  }

  lemma ListsMore(t: Trace, vs: seq<Option<string>>, ds: seq<Violation>, ds': seq<Violation>)
    requires |vs| == |t| > 0 && ListsDenials(t[..|t| - 1], vs[..|t| - 1], ds)
    requires var n := |t| - 1;
      ds' == if vs[n].Some? then ds + [Violation(|t|, t[n].session, vs[n].value)] else ds
    ensures ListsDenials(t, vs, ds')
  {
    var n := |t| - 1;
    forall d
      ensures d in ds <==> Denies(t, vs, d) && d.event <= n
    {
      assert d in ds <==> Denies(t[..n], vs[..n], d);
    }
    hide Denies;
    forall i, j | 0 <= i < j < |ds'|
      ensures Earlier(ds'[i], ds'[j])
    {
      assert ds[i] in ds;
      assert j < |ds| ==> Earlier(ds[i], ds[j]);
    }
    forall d
      ensures d in ds' <==> Denies(t, vs, d)
    {
      LastDenied(t, vs, d);
    }
  }

  lemma LastDenied(t: Trace, vs: seq<Option<string>>, d: Violation)
    requires |vs| == |t| > 0
    ensures Denies(t, vs, d) ==> d.event <= |t|
    ensures Denies(t, vs, d) && d.event == |t| <==> vs[|t| - 1].Some? && d == Violation(|t|, t[|t| - 1].session, vs[|t| - 1].value)
  {
  }

  lemma {:induction false} PastIn(t: Trace, vs: seq<Option<string>>, s: string) returns (k: nat)
    requires |vs| == |t| && Past(t, vs, s) != []
    ensures k < |t| && t[k].session == s
  {
    k := |t| - 1;
    if t[k].session != s {
      k := PastIn(t[..k], vs[..k], s);
    }
  }

  lemma UnfinishedIsOpen(t: Trace)
    ensures Unfinished(After(t)) == OpenSessions(t, Verdicts(t))
  {
    hide Explains, Open, Past, Verdicts, After;
    forall s
      ensures s in Unfinished(After(t)) <==> s in OpenSessions(t, Verdicts(t))
    {
      SessionsExplained(t, s);
      if s in After(t).sessions {
        SessionBegun(History(t, s), After(t).sessions[s]);
        var k := PastIn(t, Verdicts(t), s);
      } else {
        NotBegun(History(t, s));
      }
    }
  }

  lemma NotBegun(h: Trace)
    requires Explains(h, None)
    ensures !Open(h)
  {
  }

  /** A report says what it has to, */
  lemma ReportsTold(t: Trace, vs: seq<Violation>)
    requires Reports(t, vs)
    ensures Told(t, vs)
  {
    hide ListsDenials, Closes, Denials, Verdicts, OpenSessions, Unfinished, After;
    VerdictsAreRuled(t);
    DenialsListed(t);
    UnfinishedIsOpen(t);
    assert vs[..|Denials(t)|] == Denials(t);
    assert Splits(t, Verdicts(t), vs, |Denials(t)|);
  }

  predicate ByName(v: Violation, v': Violation) {
    Before(v.session, v'.session)
  }

  lemma ClosesOnce(t: Trace, vs: seq<Violation>, vs': seq<Violation>, sessions: set<string>)
    requires Closes(t, vs, sessions) && Closes(t, vs', sessions)
    ensures vs == vs'
  {
    hide Before;
    forall v, v' | ByName(v, v')
      ensures !ByName(v', v)
    {
      BeforeAsym(v.session, v'.session);
    }
    SortedOnce(ByName, vs, vs');
  }

  /** which is only one thing. */
  lemma ToldOnce(t: Trace, vs: seq<Violation>, vs': seq<Violation>)
    requires Told(t, vs) && Told(t, vs')
    ensures vs == vs'
  {
    hide RuledAt, Closes, Denies, OpenSessions;
    var ledger, n: nat :| Ledger(t, ledger) && n <= |vs| && Splits(t, ledger, vs, n);
    var ledger', n': nat :| Ledger(t, ledger') && n' <= |vs'| && Splits(t, ledger', vs', n');
    SameLedger(t, ledger, ledger');
    SortedOnce(Earlier, vs[..n], vs'[..n']);
    ClosesOnce(t, vs[n..], vs'[n'..], OpenSessions(t, ledger));
    assert vs == vs[..n] + vs[n..] && vs' == vs'[..n'] + vs'[n'..];
  }

  lemma SameLedger(t: Trace, vs: seq<Option<string>>, vs': seq<Option<string>>)
    requires Ledger(t, vs) && Ledger(t, vs')
    ensures vs == vs'
  {
    hide Verdicts, Ruling;
    LedgerOnce(t, vs, |t|);
    LedgerOnce(t, vs', |t|);
    assert vs[..|t|] == vs && vs'[..|t|] == vs';
  }

  // ---- the checker ----------------------------------------------------

  /** The trace event by event: each is checked and judged in the state so far. */
  method Judge(events: Trace) returns (r: Result<(State, seq<Violation>), Refusal>)
    ensures r.Err? ==> r.error.BadEvent? && r.error.index < |events|
    ensures r.Err? ==> !GoodEvent(events, r.error.index) && GoodTrace(events[..r.error.index])
    ensures r.Ok? ==> GoodTrace(events) && r.value == (After(events), Denials(events))
    ensures r.Ok? ==> Judged(events, r.value.0, r.value.1)
  {
    hide Step, Act, Blank;
    var st, violations, last := START, [], 0;
    for index := 0 to |events|
      invariant st == After(events[..index]) && violations == Denials(events[..index])
      invariant GoodTrace(events[..index]) && last == if index == 0 then 0 else events[index - 1].now
    {
      var event := events[index];
      if Blank(event.session) || event.now < last {
        return Err(BadEvent(index));
      }
      GoodMore(events, index);
      OneMore(events, index);
      last := event.now;
      var (st', verdict) := Step(st, event);
      st := st';
      if verdict.Some? {
        violations := violations + [Violation(index + 1, event.session, verdict.value)];
      }
    }
    assert events[..|events|] == events;
    AfterJudged(events);
    r := Ok((st, violations));
  }

  /** Every event has the verdict its past calls for, the denials are listed in order, and
      the sessions and nonces are what the accepted events make them. */
  ghost predicate Judged(t: Trace, st: State, ds: seq<Violation>) {
    exists ledger :: Ledger(t, ledger) && ListsDenials(t, ledger, ds) && Remembers(t, ledger, st)
  }

  ghost predicate Remembers(t: Trace, ledger: seq<Option<string>>, st: State)
    requires |ledger| == |t|
  {
    && (forall s {:trigger SessionOf(st, s)} :: Explains(Past(t, ledger, s), SessionOf(st, s)))
    && (forall n :: n in st.nonces <==> n in Spent(t, ledger))
  }

  lemma AfterJudged(t: Trace)
    ensures Judged(t, After(t), Denials(t))
  {
    hide Ledger, ListsDenials, Explains, Verdicts, After;
    VerdictsAreRuled(t);
    DenialsListed(t);
    NoncesOnce(t);
    forall s
      ensures Explains(Past(t, Verdicts(t), s), SessionOf(After(t), s))
    {
      SessionsExplained(t, s);
    }
    assert Remembers(t, Verdicts(t), After(t));
  }

  lemma OneMore(t: Trace, i: nat)
    requires i < |t|
    ensures After(t[..i + 1]) == Step(After(t[..i]), t[i]).0
    ensures Denials(t[..i + 1]) ==
      match Step(After(t[..i]), t[i]).1 {
        case None => Denials(t[..i])
        case Some(reason) => Denials(t[..i]) + [Violation(i + 1, t[i].session, reason)]
      }
  {
    hide Step;
    assert t[..i + 1][..i] == t[..i];
    assert Denials(t[..i]) + [] == Denials(t[..i]);
  }

  /** The sessions that are left open, in the order of their names. */
  method Close(events: Trace, open: set<string>) returns (vs: seq<Violation>)
    ensures Closes(events, vs, open)
  {
    vs := [];
    var names := InNameOrder(open);
    for i := 0 to |names|
      invariant |vs| == i && forall k | 0 <= k < i :: vs[k] == Violation(|events|, names[k], UNFINISHED_REASON)
    {
      vs := vs + [Violation(|events|, names[i], UNFINISHED_REASON)];
    }
    forall s | s in open
      ensures Violation(|events|, s, UNFINISHED_REASON) in vs
    {
      var k :| 0 <= k < |names| && names[k] == s;
      assert vs[k] == Violation(|events|, s, UNFINISHED_REASON);
    }
  }

  /** The violations of a trace: one for every denied event, in order, and then one for
      every session left open, in the order of their names. */
  method Check(events: Trace) returns (r: Result<seq<Violation>, Refusal>)
    ensures r.Ok? <==> Checkable(events)
    ensures r == Err(BadSize) <==> |events| == 0 || |events| > EVENT_BUDGET
    ensures r.Err? && r.error.BadEvent? ==> r.error.index < |events|
    ensures r.Err? && r.error.BadEvent? ==> !GoodEvent(events, r.error.index) && GoodTrace(events[..r.error.index])
    ensures r.Ok? ==> Reports(events, r.value) && Told(events, r.value)
    ensures r.Ok? ==> |r.value| == DeniedCount(Verdicts(events)) + |Unfinished(After(events))|
  {
    hide Told, Closes, Judged, After, Verdicts, Denials;
    if |events| == 0 || |events| > EVENT_BUDGET {
      return Err(BadSize);
    }
    var judged := Judge(events);
    if judged.Err? {
      return Err(judged.error);
    }
    var (st, denials) := judged.value;
    var open := set s | s in st.sessions && !Terminal(st.sessions[s].state);
    var closing := Close(events, open);
    DenialsCount(events);
    assert (denials + closing)[|denials|..] == closing;
    ReportsTold(events, denials + closing);
    r := Ok(denials + closing);
  }

  predicate Reports(t: Trace, vs: seq<Violation>) {
    Denials(t) <= vs && Closes(t, vs[|Denials(t)|..], Unfinished(After(t)))
  }

  lemma GoodMore(t: Trace, i: nat)
    requires i < |t| && GoodTrace(t[..i]) && GoodEvent(t, i)
    ensures GoodTrace(t[..i + 1])
  {
    var u := t[..i + 1];
    forall j | 0 <= j < |u|
      ensures GoodEvent(u, j)
    {
      if j < i {
        assert GoodEvent(t[..i], j);
      }
    }
  }

  /** One closing violation for each of the sessions, by name. */
  predicate Closes(t: Trace, vs: seq<Violation>, sessions: set<string>) {
    && |vs| == |sessions|
    && (forall i | 0 <= i < |vs| :: vs[i].session in sessions && vs[i] == Violation(|t|, vs[i].session, UNFINISHED_REASON))
    && (forall s | s in sessions :: Violation(|t|, s, UNFINISHED_REASON) in vs)
    && (forall i, j | 0 <= i < j < |vs| :: Before(vs[i].session, vs[j].session))
  }

  function DeniedCount(vs: seq<Option<string>>): nat {
    if vs == [] then 0 else DeniedCount(vs[..|vs| - 1]) + if vs[|vs| - 1].Some? then 1 else 0
  }

  /** One violation for every denied event. */
  lemma {:induction false} DenialsCount(t: Trace)
    ensures |Denials(t)| == DeniedCount(Verdicts(t))
  {
    if t != [] {
      DenialsCount(t[..|t| - 1]);
      assert Verdicts(t)[..|t| - 1] == Verdicts(t[..|t| - 1]);
    }
  }
}
