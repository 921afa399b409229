/**
 The invariant of the log machine: everything a session knows stays coherent through every event.
 */
module AuthorInvariant {
  import opened Wrappers
  import opened PageText
  import opened Contexts
  import opened AuthorModel
  import opened AuthorResult
  import opened AuthorLog

  /** Goal, first page, dashboard and bounds are admissible, inside the approved origins. */
  predicate Sound(c: Scope, origins: set<Origin>) {
    && c.titled && GoalOk(origins, c.goal) && PortableRole(c.goal.role) && BoundsHold(c.bounds)
    && (forall o <- origins :: o.exact)
    && c.initial.Url? && c.initial.origin in origins && c.dashboard.Url? && c.dashboard.origin in origins
  }

  predicate Limited(c: Scope, diagnostics: set<Code>, observations: int) {
    |diagnostics| <= MAX_DIAGNOSTICS && 0 <= observations <= c.bounds.maxObservations
  }

  predicate ChallengeSetOk(r: Record) {
    && InputKindOk(r.input)
    && (r.input == OtpInput ==> r.challenges <= OTP_CHALLENGES) && (r.input == MfaInput ==> r.challenges <= HELD_CHALLENGES)
  }

  predicate RecordOk(m: Table, id: Id, r: Record) {
    r.candidate.id == id && id.CandidateId? && PortableRole(r.candidate.role) && Known(m, r.context) && ChallengeSetOk(r)
  }

  predicate CandidatesOk(m: Table, cs: map<Id, Record>) { forall id <- cs :: RecordOk(m, id, cs[id]) }

  /** What a pending or accepted approval is about: a click on a current candidate, or a navigation to a new origin. */
  predicate PendingOk(m: Table, cs: map<Id, Record>, origins: set<Origin>, counter: nat, p: Pending) {
    && 0 < p.id <= counter && (p.origin.Some? ==> p.origin.value.exact)
    && match p.kind
       case OriginApproval =>
         p.request.action == NavigateGet && p.request.url.Some? && p.request.url.value.Url?
         && p.origin == Some(p.request.url.value.origin) && p.target.None? && Known(m, ContextOf(p.request, None))
       case OriginActionApproval => ClickOk(cs, p) && p.origin.Some? && p.target.value.target == p.origin
       case ActionApproval =>
         ClickOk(cs, p) && p.origin.None? && (p.target.value.target.Some? ==> p.target.value.target.value in origins)
  }

  predicate ClickOk(cs: map<Id, Record>, p: Pending) {
    && p.request.action == Click && p.request.url.None? && p.request.candidate in cs
    && p.target == Some(cs[p.request.candidate])
  }

  predicate PendingsOk(f: Facts) {
    && (f.pending.Some? ==> PendingOk(f.contexts, f.candidates, f.origins, f.counter, f.pending.value))
    && (f.granted.Some? ==> PendingOk(f.contexts, f.candidates, f.origins, f.counter, f.granted.value))
  }

  predicate InputOk(m: Table, i: Input) {
    && ChallengeSetOk(i.record) && i.record.input != NoInput && PortableRole(i.record.candidate.role)
    && Known(m, i.record.context) && i.kinds == ChallengeKinds(i.record) && i.record.candidate.id == i.candidate
  }

  /** The proofs satisfy the goal and the dashboard in known contexts, after at least one observation. */
  predicate ProofsOk(c: Scope, m: Table, observations: int, proof: Option<Proof>, arrival: Option<Proof>) {
    && (proof.Some? ==> 0 < observations && Meets(c.goal, proof.value) && Known(m, c.goal.context))
    && (arrival.Some? ==> Known(m, arrival.value.context) && Arrives(c.dashboard, arrival.value))
  }

  /** The challenge kinds a trace step may carry for an input. */
  predicate ChallengeFits(k: InputKind, c: Challenge) {
    match k
    case IdentifierInput => c == NoChallenge
    case PasswordInput => c == NoChallenge
    case OtpInput => c in OTP_CHALLENGES
    case MfaInput => c in HELD_CHALLENGES
    case _ => false
  }

  predicate StepFit(m: Table, s: TraceStep) {
    && Known(m, s.context) && (s.opens.Some? ==> s.opens.value in m)
    && match s.kind
       case NavigateKind => s.url.Some? && s.url.value.Url?
       case ClickKind => s.url.None? && PortableRole(s.role)
       case FocusKind => s.url.None? && s.opens.None? && PortableRole(s.role) && ChallengeFits(s.input, s.challenge)
       case _ => false
  }

  predicate TraceFit(m: Table, trace: seq<TraceStep>) { forall s <- trace :: StepFit(m, s) }

  predicate Coherent(f: Facts) {
    && Sound(f.scope, f.origins) && Limited(f.scope, f.diagnostics, f.observations) && Forest(f.origins, f.contexts)
    && CandidatesOk(f.contexts, f.candidates) && PendingsOk(f)
    && (f.input.Some? ==> InputOk(f.contexts, f.input.value))
    && ProofsOk(f.scope, f.contexts, f.observations, f.proof, f.arrival) && TraceFit(f.contexts, f.trace)
  }

  /** A request, its acceptance, a human input and an answer under way exclude each other. */
  predicate Alone(s: Stage)
    requires s.Stage?
  {
    && (s.now.None? ==> s.answer == NoAnswer && s.f.granted.None?)
    && (s.f.granted.Some? ==> s.f.pending.None? && s.f.input.None? && s.now == Some(Approve(s.f.granted.value.id))
                              && (s.answer == NoAnswer || s.answer.OriginAnswer?))
    && (s.f.pending.Some? ==> s.f.input.None? && s.answer == NoAnswer)
    && (s.f.input.Some? ==> s.answer == NoAnswer && s.mode != Explore && s.mode != Agreed)
    && (s.answer.RunAnswer? ==> s.now.Some? && (s.now.value.Execute? || s.now.value.Approve?))
    && (s.answer.LookAnswer? ==> s.now.Some? && (s.now.value.Observe? || s.now.value.HumanComplete?))
    && (s.answer.OriginAnswer? ==>
          && s.f.granted.Some? && s.f.granted.value.kind != ActionApproval
          && (s.answer.ok ==> s.f.granted.value.origin.Some? && s.f.granted.value.origin.value in s.f.origins))
  }

  /** An execution under way is of a request that passed its checks. */
  predicate AnswerOk(s: Stage)
    requires s.Stage?
  {
    s.answer.RunAnswer? ==>
      var r, target := s.answer.request, s.answer.target;
      && s.f.proof.None?
      && Known(s.f.contexts, ContextOf(r, target))
      && match r.action
         case NavigateGet => r.url.Some? && r.url.value.Url? && target.None?
         case Click => r.url.None? && target.Some? && PortableRole(target.value.candidate.role)
         case OtherAction(_) => false
  }

  predicate Begun(m: Mode) { Held(m) || m.Over? || m == Written }

  /** A completed session has both proofs and admissible selections. */
  predicate Complete(f: Facts) { f.proof.Some? && f.arrival.Some? && SelectionsOk(RequestOf(f)) }

  predicate Confirmed(m: Mode) { m == Agreed || m == Written || (m.Over? && m.agreed) }

  predicate Sane(s: Stage) {
    s.Stage? ==>
      && Alone(s) && AnswerOk(s)
      && (s.f == NOTHING || Coherent(s.f)) && (Begun(s.mode) ==> Coherent(s.f))
      && (s.mode == Silent || s.mode == Waiting || s.mode == Dropped ==> s.f == NOTHING)
      && (s.mode == Explore ==> s.f.arrival.Some?) && (Confirmed(s.mode) ==> Complete(s.f))
  }

  // What stays true when contexts and origins grow.

  lemma MoreOrigins(origins: set<Origin>, more: set<Origin>, m: Table)
    requires Forest(origins, m) && origins <= more
    ensures Forest(more, m)
  {
    hide Rooted;
    forall id <- m ensures ContextOk(more, id, m[id]) { assert ContextOk(origins, id, m[id]); }
  }

  lemma TraceGrows(m: Table, m': Table, trace: seq<TraceStep>)
    requires Within(m, m') && TraceFit(m, trace)
    ensures TraceFit(m', trace)
  {
  }

  lemma CandidatesGrow(m: Table, m': Table, cs: map<Id, Record>)
    requires Within(m, m') && CandidatesOk(m, cs)
    ensures CandidatesOk(m', cs)
  {
    hide ChallengeSetOk;
  }

  // Events other than outcomes.

  lemma ReceivedSane(s: Stage, m: ClientMessage)
    requires Sane(s) && MayReceive(s)
    ensures Sane(OnReceived(s, m))
  {
    hide Sound, Forest, CandidatesOk, PendingOk, InputOk, ProofsOk, TraceFit, SelectionsOk;
  }

  lemma StartCoherent(m: ClientMessage)
    requires m.Start? && StartOk(m)
    ensures Coherent(Started(m))
  {
    assert Rooted(map[]);
  }

  lemma OpenedSane(s: Stage, url: Url, origins: set<Origin>, call: Call, session: bool, ok: bool)
    requires Sane(s) && MayOpen(s, url, origins)
    ensures Sane(OnOpened(s, url, origins, call, session, ok))
  {
    hide Coherent, SelectionsOk, StartOk;
    StartCoherent(s.now.value);
  }

  lemma LookedSane(s: Stage, context: ContextId, call: Call, raw: Option<RawObservation>)
    requires Sane(s) && MayLook(s, context)
    ensures Sane(OnLooked(s, context, call, raw))
  {
    hide Forest, CandidatesOk, InputOk, TraceFit, SelectionsOk, Meets, Arrives, GoalOk, BoundsHold;
  }

  lemma FocusedSane(s: Stage, target: Record, call: Call, ok: bool)
    requires Sane(s) && MayFocus(s, target)
    ensures Sane(OnFocused(s, target, call, ok))
  {
    hide Coherent, SelectionsOk;
  }

  lemma RanSane(s: Stage, r: Request, target: Option<Record>, call: Call, result: Option<Execution>)
    requires Sane(s) && MayRun(s, r, target)
    ensures Sane(OnRan(s, r, target, call, result))
  {
    hide Sound, Forest, InputOk, TraceFit, SelectionsOk, Meets, Arrives, ChallengeSetOk;
  }

  lemma AdmittedSane(s: Stage, o: Origin, ok: bool)
    requires Sane(s) && MayAdmit(s, o)
    ensures Sane(OnAddedOrigin(s, o, ok))
  {
    hide Forest, CandidatesOk, InputOk, TraceFit, SelectionsOk, Meets, Arrives, BoundsHold, ProofsOk;
    MoreOrigins(s.f.origins, s.f.origins + {o}, s.f.contexts);
  }

  lemma EndedSane(s: Stage, clean: bool)
    requires Sane(s) && MayEnd(s)
    ensures Sane(OnEnded(s, clean))
  {
    hide Coherent, SelectionsOk;
  }

  // Outcomes.

  lemma ReviewedKindFits(r: Record, c: Challenge)
    requires ChallengeSetOk(r) && r.input != NoInput
    requires if ChallengeKinds(r) == {} then c == NoChallenge else c in ChallengeKinds(r)
    ensures ChallengeFits(r.input, c)
  {
    assert Totp in OTP_CHALLENGES && Push in HELD_CHALLENGES;
  }

  lemma HumanSane(s: Stage)
    requires Sane(s) && CompletesInput(s)
    ensures Sane(OutcomeHuman(s, Authentication))
  {
    hide Sound, Forest, CandidatesOk, PendingOk, SelectionsOk, ProofsOk, ChallengeSetOk, ChallengeKinds, ChallengeFits;
    var i, c := s.f.input.value, s.now.value.challenge;
    ReviewedKindFits(i.record, c);
    assert StepFit(s.f.contexts, HumanStep(i, c));
  }

  lemma PopupKeeps(f: Facts, id: ContextId, c: Context)
    requires Coherent(f) && f.pending.None? && f.granted.None? && f.input.None? && Addable(f.origins, f.contexts, id, c)
    ensures Coherent(f.(contexts := f.contexts[id := c])) && Within(f.contexts, f.contexts[id := c])
  {
    hide Forest, Sound, CandidatesOk, TraceFit, Meets, Arrives, Reaches, ContextOk;
    AddKeepsForest(f.origins, f.contexts, id, c);
    CandidatesGrow(f.contexts, f.contexts[id := c], f.candidates);
    TraceGrows(f.contexts, f.contexts[id := c], f.trace);
  }

  lemma RunSane(s: Stage)
    requires Sane(s) && Succeeds(s)
    ensures Sane(OutcomeRun(s, PhaseOf(s.mode)))
  {
    hide Sound, Forest, CandidatesOk, PendingOk, InputOk, SelectionsOk, ProofsOk, Addable, ChallengeFits;
    var e := s.answer.result.value;
    var m := WithPopup(s.f.contexts, e);
    var grown := s.f.(contexts := m);
    if e.popup.Some? { PopupKeeps(s.f, e.popup.value.0, e.popup.value.1); }
    assert Coherent(grown);
    assert StepFit(m, RunStep(s.answer.request, s.answer.target, PhaseOf(s.mode), e));
  }

  lemma {:induction false} InsertedByKey(s: Selection, t: seq<Selection>)
    ensures |InsertByKey(s, t)| == |t| + 1 && forall x :: x in InsertByKey(s, t) <==> x == s || x in t
  {
    if t != [] && !TextLe(s.key.text, t[0].key.text) {
      InsertedByKey(s, t[1..]);
      assert t == [t[0]] + t[1..];
    }
  }

  ghost predicate Apart(t: seq<Selection>) {
    forall i, j | 0 <= i < j < |t| :: t[i].key != t[j].key && t[i].candidate != t[j].candidate
  }

  lemma {:induction false} InsertApart(s: Selection, t: seq<Selection>)
    requires Apart(t) && forall x <- t :: x.key != s.key && x.candidate != s.candidate
    ensures Apart(InsertByKey(s, t))
  {
    if t != [] && !TextLe(s.key.text, t[0].key.text) {
      InsertApart(s, t[1..]);
      InsertedByKey(s, t[1..]);
      assert t == [t[0]] + t[1..];
      forall x <- InsertByKey(s, t[1..]) ensures x.key != t[0].key && x.candidate != t[0].candidate {
        if x != s { var i :| 0 <= i < |t[1..]| && t[1..][i] == x; }
      }
    }
  }

  lemma Offered(candidates: map<Id, Record>, goal: Proof, qs: seq<OutputRequest>)
    requires OutputsOk(candidates, goal, qs)
    ensures forall q <- qs :: q.candidate in candidates
  {
  }

  /** The selections are those of the requests, each once. */
  lemma {:induction false} SelectionsAre(candidates: map<Id, Record>, goal: Proof, generation: int, qs: seq<OutputRequest>,
                                         page: Option<RawObservation>)
    requires OutputsOk(candidates, goal, qs) && (qs != [] ==> page.Some?)
    ensures forall q <- qs :: q.candidate in candidates
    ensures var ss := Selections(candidates, goal, generation, qs, page);
            |ss| == |qs| && Apart(ss)
            && (forall q <- qs :: SelectionOf(candidates, goal, generation, page.value, q) in ss)
            && forall s <- ss :: exists q <- qs :: s == SelectionOf(candidates, goal, generation, page.value, q)
  {
    Offered(candidates, goal, qs);
    hide OutputOk, Matches;
    if qs != [] {
      var n := |qs| - 1;
      var before := Selections(candidates, goal, generation, qs[..n], page);
      SelectionsAre(candidates, goal, generation, qs[..n], page);
      var s := SelectionOf(candidates, goal, generation, page.value, qs[n]);
      forall x <- before ensures x.key != s.key && x.candidate != s.candidate {
        var q :| q in qs[..n] && x == SelectionOf(candidates, goal, generation, page.value, q);
        var i :| 0 <= i < n && qs[i] == q;
      }
      InsertedByKey(s, before);
      InsertApart(s, before);
      assert qs == qs[..n] + [qs[n]];
    }
  }

  ghost predicate ByKey(t: seq<Selection>) {
    forall i, j | 0 <= i < j < |t| :: TextLe(t[i].key.text, t[j].key.text)
  }

  lemma {:induction false} TextTotal(a: string, b: string)
    ensures TextLe(a, b) || TextLe(b, a)
    decreases |a|
  {
    if a != "" && b != "" && a[0] == b[0] { TextTotal(a[1..], b[1..]); }
  }

  lemma {:induction false} TextThrough(a: string, b: string, c: string)
    requires TextLe(a, b) && TextLe(b, c)
    ensures TextLe(a, c)
    decreases |a|
  {
    if a != "" && a[0] == b[0] && b[0] == c[0] { TextThrough(a[1..], b[1..], c[1..]); }
  }

  lemma {:induction false} InsertedInOrder(s: Selection, t: seq<Selection>)
    requires ByKey(t)
    ensures ByKey(InsertByKey(s, t))
  {
    hide TextLe;
    if t == [] {
    } else if TextLe(s.key.text, t[0].key.text) {
      forall j | 0 <= j < |t| ensures TextLe(s.key.text, t[j].key.text) {
        if j > 0 { TextThrough(s.key.text, t[0].key.text, t[j].key.text); }
      }
    } else {
      TextTotal(s.key.text, t[0].key.text);
      InsertedInOrder(s, t[1..]);
      InsertedByKey(s, t[1..]);
      var rest := InsertByKey(s, t[1..]);
      forall j | 0 <= j < |rest| ensures TextLe(t[0].key.text, rest[j].key.text) {
        assert rest[j] in rest;
        if rest[j] != s { var i :| 0 <= i < |t[1..]| && t[1..][i] == rest[j]; assert t[i + 1] == rest[j]; }
      }
    }
  }

  /** Selections come in the order of their keys. */
  lemma {:induction false} SelectionsInOrder(candidates: map<Id, Record>, goal: Proof, generation: int,
                                             qs: seq<OutputRequest>, page: Option<RawObservation>)
    requires (forall q <- qs :: q.candidate in candidates) && (qs != [] ==> page.Some?)
    ensures ByKey(Selections(candidates, goal, generation, qs, page))
  {
    if qs != [] {
      var n := |qs| - 1;
      SelectionsInOrder(candidates, goal, generation, qs[..n], page);
      InsertedInOrder(SelectionOf(candidates, goal, generation, page.value, qs[n]),
                      Selections(candidates, goal, generation, qs[..n], page));
    }
  }

  lemma SelectionFits(f: Facts, q: OutputRequest, page: RawObservation)
    requires Coherent(f) && f.proof.Some? && f.arrival.Some? && OutputOk(f.candidates, f.proof.value, q)
    requires Proved(f.scope.bounds, page, f.candidates[q.candidate].candidate, q.mode)
    ensures SelectionOk(RequestOf(f), SelectionOf(f.candidates, f.proof.value, f.observations, page, q), f.observations)
  {
    hide Forest, TraceFit, PendingOk, InputOk, ChallengeSetOk, Sound, BoundsHold;
    var c := f.candidates[q.candidate].candidate;
    AtMostRole(page.candidates, c, |page.candidates|, f.scope.bounds);
    assert RecordOk(f.contexts, q.candidate, f.candidates[q.candidate]);
  }

  /** Exact matches are matches of the role. */
  lemma {:induction false} AtMostRole(raw: seq<RawCandidate>, c: Candidate, n: nat, b: Bounds)
    requires n <= |raw| && forall r <- raw :: 1 <= r.matches <= b.maxCandidates
    ensures 0 <= Matches(raw, c, true, n) <= Matches(raw, c, false, n)
  {
    if n > 0 {
      AtMostRole(raw, c, n - 1, b);
      assert raw[n - 1] in raw;
    }
  }

  lemma CompleteSane(s: Stage)
    requires Sane(s) && Completes(s)
    ensures Sane(OutcomeComplete(s, Completed))
  {
    hide Sound, Forest, CandidatesOk, PendingOk, InputOk, ProofsOk, TraceFit, OutputOk, Proved, SelectionOk;
    var qs, page := s.now.value.outputs.value, PageOf(s.answer);
    Offered(s.f.candidates, s.f.proof.value, qs);
    var chosen := Selections(s.f.candidates, s.f.proof.value, s.f.observations, qs, page);
    var f := s.f.(selections := chosen);
    SelectionsAre(s.f.candidates, s.f.proof.value, s.f.observations, qs, page);
    forall x <- chosen ensures SelectionOk(RequestOf(f), x, s.f.observations) && x.observation == s.f.observations {
      var q :| q in qs && x == SelectionOf(s.f.candidates, s.f.proof.value, s.f.observations, page.value, q);
      SelectionFits(f, q, page.value);
    }
    assert Coherent(f);
    if chosen != [] { assert chosen[0] in chosen; }
  }

  lemma MatchMeets(g: Goal, o: Observation)
    ensures MatchGoal(g, o).Some? ==>
              Meets(g, MatchGoal(g, o).value) && o.context == g.context && o.origin == g.origin && o.path == g.path
  {
    MatchingMatches(g, o.candidates);
    if MatchGoal(g, o).Some? { assert Matching(g, o.candidates)[0] in Matching(g, o.candidates); }
  }

  lemma SuccessArrives(f: Facts, o: Observation)
    requires OnDashboard(f.scope.dashboard, o) && PortableRole(f.scope.goal.role)
    requires forall c <- o.candidates :: PortableRole(c.role)
    requires SuccessOn(f.scope.goal, o).Some?
    ensures Arrives(f.scope.dashboard, SuccessOn(f.scope.goal, o).value)
    ensures SuccessOn(f.scope.goal, o).value.context == o.context
  {
    hide MatchGoal, Repeats;
    MatchMeets(f.scope.goal, o);
    var k := BestOf(o.candidates);
    if k.Some? { assert o.candidates[k.value] in o.candidates; }
  }

  lemma ReportedOk(m: Table, b: Bounds, raws: seq<RawCandidate>, generation: int, context: ContextId)
    requires Known(m, context) && forall c <- raws :: Reportable(b, c)
    ensures CandidatesOk(m, RecordsOf(raws, generation, context))
    ensures forall c <- CandidatesOf(raws, generation, context) :: PortableRole(c.role)
  {
    var rs := RecordsOf(raws, generation, context);
    RecordsAre(raws, generation, context);
    forall id <- rs ensures RecordOk(m, id, rs[id]) {
      assert Reportable(b, raws[id.ordinal]) && ChallengesOk(raws[id.ordinal].input, raws[id.ordinal].challenges);
    }
  }

  lemma ContextsKeep(f: Facts, batch: Table)
    requires Coherent(f) && Joinable(f.origins, f.contexts, batch)
    ensures Within(f.contexts, f.contexts + batch) && Forest(f.origins, f.contexts + batch)
    ensures TraceFit(f.contexts + batch, f.trace)
  {
    hide Sound, CandidatesOk, PendingOk, InputOk, ProofsOk, TraceFit, Forest;
    TraceGrows(f.contexts, f.contexts + batch, f.trace);
  }

  lemma ObservedSane(s: Stage, o: Observation)
    requires Sane(s) && Adopts(s, o)
    requires Known(s.f.contexts, Target(s.now.value.context)) && 0 < s.f.observations && Quiet(s.f)
    ensures Sane(OutcomeObserved(s, o))
  {
    hide Forest, CandidatesOk, PendingOk, InputOk, TraceFit, SelectionsOk, MatchGoal, SuccessOn, Reportable, Meets, Arrives,
         Joinable, OnDashboard, GoalOk, BoundsHold;
    var raw, context := s.answer.raw.value, Target(s.now.value.context);
    var m := s.f.contexts + raw.contexts;
    ContextsKeep(s.f, raw.contexts);
    ReportedOk(m, s.f.scope.bounds, raw.candidates, s.f.observations, context);
    MatchMeets(s.f.scope.goal, o);
    if Arriving(s, o) { SuccessArrives(s.f, o); }
  }

  lemma PromptSane(s: Stage, m: ServerMessage)
    requires Sane(s) && Prompts(s)
    ensures Sane(OutcomePrompt(s, m))
  {
    hide Sound, Forest, PendingOk, ProofsOk, TraceFit, SelectionsOk, ChallengeSetOk, ChallengeKinds;
    assert RecordOk(s.f.contexts, s.now.value.candidate, s.f.candidates[s.now.value.candidate]);
  }

  lemma DemandOk(f: Facts, r: Request)
    requires Executable(f, r) && Demand(f, r).Some?
    ensures PendingOk(f.contexts, f.candidates, f.origins, f.counter + 1, Demand(f, r).value)
    ensures Demand(f, r).value.id == f.counter + 1
  {
  }

  lemma AskSane(s: Stage, m: ServerMessage)
    requires Sane(s) && Asks(s)
    ensures Sane(OutcomeAsk(s, m))
  {
    hide Sound, Forest, CandidatesOk, InputOk, ProofsOk, TraceFit, SelectionsOk, Executable, Demand;
    DemandOk(s.f, AskedFor(s).value);
  }

  /** An observation was looked for in a known context while nothing else was under way. */
  predicate LookOk(s: Stage)
    requires s.Stage?
  {
    s.answer.LookAnswer? ==>
      && Quiet(s.f) && s.now.Some?
      && (s.now.value.Observe? ==> Known(s.f.contexts, Target(s.now.value.context)) && 0 < s.f.observations)
  }

  ghost predicate Right(s: Stage) { Sane(s) && (s.Stage? ==> LookOk(s)) }

  lemma OutcomeSane(s: Stage, m: ServerMessage)
    requires Right(s)
    ensures Right(Outcome(s, m))
  {
    hide Coherent, Complete, CompletesInput, Succeeds, Completes, Adopts, Prompts, Asks, Alone, AnswerOk;
    if s.Stage? {
      match m
      case State(phase) => StateSane(s, phase);
      case Observed(o) => if Adopts(s, o) { WasLooked(s, o); ObservedSane(s, o); }
      case Prompt(_, _, _) => if Prompts(s) { PromptSane(s, m); }
      case ApprovalRequired(_, _, _, _, _, _) => if Asks(s) { AskSane(s, m); }
      case _ => QuietEnds(s, m);
    }
  }

  lemma WasLooked(s: Stage, o: Observation)
    requires s.Stage? && Adopts(s, o) && LookOk(s)
    ensures Known(s.f.contexts, Target(s.now.value.context)) && 0 < s.f.observations && Quiet(s.f)
  {
  }

  lemma QuietEnds(s: Stage, m: ServerMessage)
    requires Right(s) && s.Stage? && !m.State? && !m.Observed? && !m.Prompt? && !m.ApprovalRequired?
    ensures Right(Outcome(s, m))
  {
    hide Coherent, Complete;
  }

  lemma StateSane(s: Stage, phase: Phase)
    requires Right(s) && s.Stage?
    ensures Right(OutcomeState(s, phase))
  {
    hide Coherent, Complete, CompletesInput, Succeeds, Completes;
    if s.now.Some? {
      match s.now.value
      case Start(_, _, _, _, _, _) => SettledStart(s, phase);
      case HumanInputComplete(_, _) => if CompletesInput(s) { HumanSane(s); }
      case Execute(_) => if Succeeds(s) { RunSane(s); }
      case Approve(_) => if Succeeds(s) { RunSane(s); }
      case HumanComplete(_, _) => if Completes(s) { CompleteSane(s); }
      case _ =>
    }
  }

  lemma SettledStart(s: Stage, phase: Phase)
    requires Right(s) && s.Stage?
    ensures Right(OutcomeStart(s, phase))
  {
    hide Coherent, Complete;
  }

  lemma SentSane(s: Stage, m: ServerMessage, ok: bool)
    requires Right(s)
    ensures Right(OnSent(s, m, ok))
  {
    hide Coherent, Complete, Outcome;
    OutcomeSane(s, m);
  }

  lemma StoredSane(s: Stage, r: BuildRequest, ok: bool)
    requires Right(s)
    ensures Right(OnStored(s, r, ok))
  {
    hide Coherent, SelectionsOk;
  }

  /** Every event keeps the invariant. */
  lemma NextSane(s: Stage, e: Event)
    requires Right(s)
    ensures Right(Next(s, e))
  {
    hide OnReceived, OnOpened, OnLooked, OnFocused, OnRan, OnAddedOrigin, OnEnded, OnStored, OnSent, Sane, LookOk;
    match e
    case Received(m) => KeepReceived(s, m);
    case Opened(url, origins, call, session, ok) => KeepOpened(s, url, origins, call, session, ok);
    case Looked(context, call, raw) => KeepLooked(s, context, call, raw);
    case Focused(target, call, ok) => KeepFocused(s, target, call, ok);
    case Ran(r, target, call, result) => KeepRan(s, r, target, call, result);
    case AddedOrigin(o, ok) => KeepAdmitted(s, o, ok);
    case Ended(clean) => KeepEnded(s, clean);
    case Stored(r, ok) => StoredSane(s, r, ok);
    case Sent(m, ok) => SentSane(s, m, ok);
  }

  lemma KeepReceived(s: Stage, m: ClientMessage)
    requires Right(s)
    ensures Right(OnReceived(s, m))
  {
    if MayReceive(s) {
      hide Sane;
      ReceivedSane(s, m);
    }
  }

  lemma KeepOpened(s: Stage, url: Url, origins: set<Origin>, call: Call, session: bool, ok: bool)
    requires Right(s)
    ensures Right(OnOpened(s, url, origins, call, session, ok))
  {
    if MayOpen(s, url, origins) {
      hide Sane;
      OpenedSane(s, url, origins, call, session, ok);
    }
  }

  lemma KeepLooked(s: Stage, context: ContextId, call: Call, raw: Option<RawObservation>)
    requires Right(s)
    ensures Right(OnLooked(s, context, call, raw))
  {
    if MayLook(s, context) {
      LookedSane(s, context, call, raw);
      ObservationsCount(s);
    }
  }

  lemma ObservationsCount(s: Stage)
    requires Sane(s) && s.Stage? && Working(s.mode)
    ensures 0 <= s.f.observations
  {
    hide Forest, CandidatesOk, PendingOk, InputOk, ProofsOk, TraceFit, SelectionsOk;
  }

  lemma KeepFocused(s: Stage, target: Record, call: Call, ok: bool)
    requires Right(s)
    ensures Right(OnFocused(s, target, call, ok))
  {
    if MayFocus(s, target) {
      hide Sane;
      FocusedSane(s, target, call, ok);
    }
  }

  lemma KeepRan(s: Stage, r: Request, target: Option<Record>, call: Call, result: Option<Execution>)
    requires Right(s)
    ensures Right(OnRan(s, r, target, call, result))
  {
    if MayRun(s, r, target) {
      hide Sane;
      RanSane(s, r, target, call, result);
    }
  }

  lemma KeepAdmitted(s: Stage, o: Origin, ok: bool)
    requires Right(s)
    ensures Right(OnAddedOrigin(s, o, ok))
  {
    if MayAdmit(s, o) {
      hide Sane;
      AdmittedSane(s, o, ok);
    }
  }

  lemma KeepEnded(s: Stage, clean: bool)
    requires Right(s)
    ensures Right(OnEnded(s, clean))
  {
    if MayEnd(s) {
      hide Sane;
      EndedSane(s, clean);
    }
  }

  /** The invariant holds after every log the machine accepts. */
  lemma {:induction false} AlwaysRight(log: seq<Event>)
    ensures Right(Track(log))
    decreases |log|
  {
    if log == [] {
      FirstRight();
    } else {
      hide Next, Right;
      AlwaysRight(log[..|log| - 1]);
      NextSane(Track(log[..|log| - 1]), log[|log| - 1]);
    }
  }

  lemma WaitingKnowsNothing(s: Stage)
    requires Right(s)
    ensures s.Stage? && s.mode == Waiting ==> s.f == NOTHING
  {
    hide Coherent, Complete, Alone, AnswerOk;
  }

  /** What the server needs to know of the facts of a session at work. */
  lemma RightFacts(s: Stage)
    requires Right(s)
    ensures s.Stage? && Begun(s.mode) ==> Coherent(s.f) && Alone(s)
  {
    hide Coherent, Complete, Alone, AnswerOk;
  }

  lemma FirstRight()
    ensures Right(FIRST)
  {
  }
}
