/**
 When the result of an agreed author session can be built, and concrete runs: one that a human completed
 and the builder refuses, and three that leave an opened session open.
 */
module AuthorOutcome {
  import opened Wrappers
  import opened PageText
  import opened Contexts
  import opened AuthorModel
  import opened AuthorResult
  import opened AuthorLog
  import opened AuthorInvariant
  import opened AuthorTheorems
  import opened AuthorTeardown

  /** What a session guarantees of a result. */
  predicate Fit(r: BuildRequest) {
    && Forest(r.origins, r.contexts) && SelectionsOk(r) && (forall o <- r.origins :: o.exact)
    && r.titled && |r.diagnostics| <= MAX_DIAGNOSTICS
    && Meets(r.goal, r.goalProof) && Arrives(r.dashboard, r.authentication)
    && Known(r.contexts, r.goal.context) && Known(r.contexts, r.authentication.context)
    && GoalOk(r.origins, r.goal) && BoundsHold(r.bounds)
    && r.initial.Url? && r.initial.origin in r.origins && r.dashboard.Url? && r.dashboard.origin in r.origins
    && TraceFit(r.contexts, r.trace)
  }

  /** What a session cannot guarantee of a trace step: that names may be disclosed, and that a popup is its click's. */
  predicate StepPortable(m: Table, s: TraceStep) {
    && (s.kind == ClickKind || (s.kind == FocusKind && s.input != MfaInput) ==> NameOk(s.name))
    && (s.opens.Some? ==> s.kind == ClickKind && s.opens.value in m
                          && m[s.opens.value].kind == Popup && m[s.opens.value].parent == s.context)
  }

  /** What a session cannot guarantee of its result. */
  predicate ResultPortable(r: BuildRequest) {
    && r.initial.Url? && r.initial.exact && r.initial.path.disclosable
    && r.dashboard.Url? && r.dashboard.exact && r.dashboard.path.disclosable
    && NameOk(r.authentication.name) && forall s <- r.trace :: StepPortable(r.contexts, s)
  }

  lemma AgreedFits(s: Stage)
    requires Right(s) && s.Stage? && s.mode == Agreed
    ensures s.f.proof.Some? && s.f.arrival.Some? && Fit(RequestOf(s.f))
  {
    hide Forest, CandidatesOk, PendingsOk, InputOk, TraceFit, SelectionsOk, Alone, AnswerOk, Meets, Arrives, BoundsHold;
  }

  /**
   When a completed session is refused. The result builder accepts what an agreed session knows exactly when
   its two URLs were given without surrounding space and with safe paths, no name it needs was redacted, and
   every popup was opened by a click in its parent.
   */
  lemma SessionResultsBuild(log: seq<Event>)
    requires Track(log).Stage? && Track(log).mode == Agreed
    ensures Track(log).f.proof.Some? && Track(log).f.arrival.Some?
    ensures Buildable(RequestOf(Track(log).f)) <==> ResultPortable(RequestOf(Track(log).f))
  {
    hide Track, Right, Buildable, ResultPortable, Fit, Ordered;
    AlwaysRight(log);
    AgreedFits(Track(log));
    var n := AuthenticationComesFirst(log);
    FitBuilds(RequestOf(Track(log).f), n);
  }

  lemma FitBuilds(r: BuildRequest, n: nat)
    requires Fit(r) && Ordered(r.trace, n)
    ensures Buildable(r) <==> ResultPortable(r)
  {
    hide Rooted, Forest, ResultContextOk, TraceStepOk, SelectionsOk, StepPortable, CapabilityStep,
         AuthenticationStep, Compiled;
    ForestValidates(r.origins, r.contexts);
    forall s <- r.trace
      ensures StepPortable(r.contexts, s) <==>
                && TraceStepOk(r.contexts, s)
                && (Compiled(s) ==> AuthenticationStep(s, 0).Some?) && (s.phase == Exploration ==> CapabilityStep(s).Some?)
    {
      StepBuilds(r, n, s);
    }
  }

  lemma StepBuilds(r: BuildRequest, n: nat, s: TraceStep)
    requires Ordered(r.trace, n) && s in r.trace && StepFit(r.contexts, s)
    ensures StepPortable(r.contexts, s) <==>
              && TraceStepOk(r.contexts, s)
              && (Compiled(s) ==> AuthenticationStep(s, 0).Some?) && (s.phase == Exploration ==> CapabilityStep(s).Some?)
  {
    var i :| 0 <= i < |r.trace| && r.trace[i] == s;
  }

  // A session whose login button has a name that may not be disclosed.

  const HOME := Origin("https://example.com", true)
  const DASHBOARD := Path("/dashboard", true, true)
  const WELCOME := Reduced("Welcome", false, false)
  const PAGE := Url(HOME, ROOT, "", true)
  const ASKED := Start(PAGE, Url(HOME, DASHBOARD, "", true), [HOME], Goal(HOME, DASHBOARD, Main, Heading, WELCOME), true,
                       None)
  const QUICK := Call(1000, 1)

  const BUTTON := RawCandidate(true, Button, Redacted, NoInput, [], None, 1)
  const TITLE := RawCandidate(true, Heading, WELCOME, NoInput, [], None, 1)
  const LOGIN := RawObservation(HOME, ROOT, None, [BUTTON], map[], [])
  const ARRIVED := RawObservation(HOME, DASHBOARD, None, [TITLE], map[], [])

  const CHOSEN := Reduction(BUTTON, 1, Main, 0)
  const CLICK := Request(Click, CHOSEN.candidate.id, None, None, 0)
  const CONSENT := Pending(1, ActionApproval, CLICK, None, Some(CHOSEN))
  const STEP := RunStep(CLICK, Some(CHOSEN), Authentication, Execution(0, None))
  const REACHED := Proof(HOME, DASHBOARD, Main, Heading, WELCOME)

  function Opening(call: Call, ok: bool): seq<Event> {
    [Sent(Hello, true), Received(ASKED), Opened(PAGE, {HOME}, call, true, ok)]
  }

  function Refused(): seq<Event> {
    Opening(QUICK, true)
    + [Sent(State(Authentication), true),
       Received(Observe(None)), Looked(Main, QUICK, Some(LOGIN)), Sent(Observed(ObservationOf(LOGIN, 1, Main)), true),
       Received(Execute(CLICK)), Sent(Shown(CONSENT), true),
       Received(Approve(1)), Ran(CLICK, Some(CHOSEN), QUICK, Some(Execution(0, None))), Sent(State(Authentication), true),
       Received(Observe(None)), Looked(Main, QUICK, Some(ARRIVED)), Sent(Observed(ObservationOf(ARRIVED, 2, Main)), true),
       Sent(CompletionDue, true),
       Received(HumanComplete(true, Some([]))), Sent(State(Completed), true)]
  }

  function At(mode: Mode, f: Facts): Stage { Stage(mode, None, NoAnswer, f) }

  const OPENED: Facts := NOTHING.(scope := Scope(true, PAGE, ASKED.dashboard, ASKED.goal, DEFAULT_BOUNDS), origins := {HOME})
  const SEEN: Facts := OPENED.(observations := 1, candidates := map[CHOSEN.candidate.id := CHOSEN])
  const CLICKED: Facts := SEEN.(counter := 1, trace := [STEP])
  const PROVED: Facts := CLICKED.(observations := 2, proof := Some(REACHED), arrival := Some(REACHED),
                                  candidates := map[Reduction(TITLE, 2, Main, 0).candidate.id := Reduction(TITLE, 2, Main, 0)])

  lemma OpeningTracks(call: Call, ok: bool)
    ensures Track(Opening(call, ok))
         == if ok && InTime(call) then Stage(Auth, Some(ASKED), OpenAnswer, OPENED)
            else Stage(Dropped, Some(ASKED), NoAnswer, NOTHING)
  {
    hide Track;
    FirstStage();
    TrackNext([], Sent(Hello, true));
    TrackNext([Sent(Hello, true)], Received(ASKED));
    TrackNext([Sent(Hello, true), Received(ASKED)], Opened(PAGE, {HOME}, call, true, ok));
    assert [] + [Sent(Hello, true)] == [Sent(Hello, true)];
    assert [Sent(Hello, true)] + [Received(ASKED)] == [Sent(Hello, true), Received(ASKED)];
    assert [Sent(Hello, true), Received(ASKED)] + [Opened(PAGE, {HOME}, call, true, ok)] == Opening(call, ok);
    assert Elements(ASKED.origins) == {HOME};
  }

  lemma FirstStage()
    ensures Track([]) == FIRST
  {
  }

  /** Two events in a row. */
  lemma Two(log: seq<Event>, a: Event, b: Event)
    ensures Track(log + [a, b]) == Next(Next(Track(log), a), b)
  {
    hide Next;
    TrackNext(log, a);
    TrackNext(log + [a], b);
    assert log + [a] + [b] == log + [a, b];
  }

  lemma Three(log: seq<Event>, a: Event, b: Event, c: Event)
    ensures Track(log + [a, b, c]) == Next(Next(Next(Track(log), a), b), c)
  {
    hide Next;
    Two(log, a, b);
    TrackNext(log + [a, b], c);
    assert log + [a, b] + [c] == log + [a, b, c];
  }

  lemma StartSent()
    ensures Next(Stage(Auth, Some(ASKED), OpenAnswer, OPENED), Sent(State(Authentication), true)) == At(Auth, OPENED)
  {
  }

  lemma OneCandidate(raw: RawCandidate, generation: int)
    ensures var r := Reduction(raw, generation, Main, 0);
            && CandidatesOf([raw], generation, Main) == [r.candidate]
            && RecordsOf([raw], generation, Main) == map[r.candidate.id := r]
  {
    assert [raw][..0] == [];
    assert RecordsOf([raw][..0], generation, Main) == map[];
  }

  lemma NothingJoins(f: Facts)
    requires f.contexts == map[] && f.origins == {HOME}
    ensures Joinable(f.origins, f.contexts, map[]) && f.contexts + map[] == f.contexts
    ensures f.diagnostics + Elements([]) == f.diagnostics
  {
    assert f.contexts + map[] == map[];
  }

  lemma OneMatch(g: Goal, c: Candidate)
    ensures Matching(g, [c]) == if GoalMatch(g, c) then [c] else []
  {
    assert Matching(g, [c][..0]) == [];
  }

  lemma Looks(f: Facts, raw: RawObservation)
    requires f.scope == OPENED.scope && f.observations < 64 && Quiet(f)
    ensures Next(Next(At(Auth, f), Received(Observe(None))), Looked(Main, QUICK, Some(raw)))
         == Stage(Auth, Some(Observe(None)), LookAnswer(Some(raw)), f.(observations := f.observations + 1))
  {
  }

  lemma LoginSeen()
    ensures Next(Stage(Auth, Some(Observe(None)), LookAnswer(Some(LOGIN)), OPENED.(observations := 1)),
                 Sent(Observed(ObservationOf(LOGIN, 1, Main)), true)) == At(Auth, SEEN)
  {
    OneCandidate(BUTTON, 1);
    NothingJoins(OPENED);
    hide CandidatesOf, RecordsOf, Joinable, Matching, SuccessOn;
  }

  lemma ClickAsked()
    ensures Next(Next(At(Auth, SEEN), Received(Execute(CLICK))), Sent(Shown(CONSENT), true))
         == At(Auth, SEEN.(counter := 1, pending := Some(CONSENT)))
  {
  }

  lemma ClickRan()
    ensures var s := Next(Next(At(Auth, SEEN.(counter := 1, pending := Some(CONSENT))), Received(Approve(1))),
                          Ran(CLICK, Some(CHOSEN), QUICK, Some(Execution(0, None))));
            Next(s, Sent(State(Authentication), true)) == At(Auth, CLICKED)
  {
  }

  lemma DashboardMatches()
    ensures MatchGoal(ASKED.goal, ObservationOf(ARRIVED, 2, Main)) == Some(REACHED)
    ensures SuccessOn(ASKED.goal, ObservationOf(ARRIVED, 2, Main)) == Some(REACHED)
  {
    OneCandidate(TITLE, 2);
    OneMatch(ASKED.goal, Reduction(TITLE, 2, Main, 0).candidate);
    hide CandidatesOf, RecordsOf, Matching;
  }

  const LOOKED: Stage := Stage(Auth, Some(Observe(None)), LookAnswer(Some(ARRIVED)), CLICKED.(observations := 2))

  lemma DashboardAdopted()
    ensures Adopts(LOOKED, ObservationOf(ARRIVED, 2, Main))
  {
    NothingJoins(CLICKED);
    DashboardMatches();
    hide CandidatesOf, Joinable, MatchGoal, SuccessOn;
  }

  lemma DashboardTaken()
    ensures Adopted(LOOKED) == PROVED && Arriving(LOOKED, ObservationOf(ARRIVED, 2, Main))
  {
    OneCandidate(TITLE, 2);
    NothingJoins(CLICKED);
    DashboardMatches();
    hide CandidatesOf, RecordsOf, Joinable, MatchGoal, SuccessOn;
  }

  lemma DashboardSeen()
    ensures Next(LOOKED, Sent(Observed(ObservationOf(ARRIVED, 2, Main)), true)) == At(Explore, PROVED)
  {
    DashboardTaken();
    DashboardAdopted();
    hide CandidatesOf, RecordsOf, Joinable, MatchGoal, SuccessOn, Adopts, Adopted, Arriving;
  }

  lemma CompletionSent()
    ensures var s := Next(Next(At(Explore, PROVED), Sent(CompletionDue, true)), Received(HumanComplete(true, Some([]))));
            Next(s, Sent(State(Completed), true)) == At(Agreed, PROVED)
  {
  }

  /**
   A session the machine accepts to its confirmed end, with a click on a button whose name was redacted:
   the client approved the click and confirmed the goal, and the builder refuses the result.
   */
  lemma CompletedAndRefused()
    ensures Track(Refused()) == At(Agreed, PROVED) && Fit(RequestOf(PROVED)) && !Buildable(RequestOf(PROVED))
    ensures Track(Refused() + [Received(Finish), Ended(true), Sent(Diagnostic, true)])
         == Stage(Finished, Some(Finish), NoAnswer, PROVED)
  {
    hide Track, Right, Refused, Fit, Buildable;
    CompletedLog();
    AlwaysRight(Refused());
    AgreedFits(At(Agreed, PROVED));
    StepRefused();
    Three(Refused(), Received(Finish), Ended(true), Sent(Diagnostic, true));
    hide Next;
    FinishRefused(PROVED);
  }

  lemma FinishRefused(f: Facts)
    requires f.granted.None? && f.pending.None?
    ensures Next(Next(Next(At(Agreed, f), Received(Finish)), Ended(true)), Sent(Diagnostic, true))
         == Stage(Finished, Some(Finish), NoAnswer, f)
  {
  }

  lemma StepRefused()
    ensures !Buildable(RequestOf(PROVED))
  {
    assert STEP in RequestOf(PROVED).trace;
    assert Compiled(STEP) && AuthenticationStep(STEP, 0).None?;
  }

  lemma CompletedLog()
    ensures Track(Refused()) == At(Agreed, PROVED)
  {
    hide Next, Track;
    var start := Opening(QUICK, true) + [Sent(State(Authentication), true)];
    var login := [Received(Observe(None)), Looked(Main, QUICK, Some(LOGIN)),
                  Sent(Observed(ObservationOf(LOGIN, 1, Main)), true)];
    var ask := [Received(Execute(CLICK)), Sent(Shown(CONSENT), true)];
    var click := [Received(Approve(1)), Ran(CLICK, Some(CHOSEN), QUICK, Some(Execution(0, None))),
                  Sent(State(Authentication), true)];
    var arrive := [Received(Observe(None)), Looked(Main, QUICK, Some(ARRIVED)),
                   Sent(Observed(ObservationOf(ARRIVED, 2, Main)), true)];
    var complete := [Sent(CompletionDue, true), Received(HumanComplete(true, Some([]))), Sent(State(Completed), true)];
    OpeningTracks(QUICK, true);
    TrackNext(Opening(QUICK, true), Sent(State(Authentication), true));
    StartSent();
    Three(start, login[0], login[1], login[2]);
    Looks(OPENED, LOGIN);
    LoginSeen();
    Two(start + login, ask[0], ask[1]);
    ClickAsked();
    Three(start + login + ask, click[0], click[1], click[2]);
    ClickRan();
    Three(start + login + ask + click, arrive[0], arrive[1], arrive[2]);
    Looks(CLICKED, ARRIVED);
    DashboardSeen();
    Three(start + login + ask + click + arrive, complete[0], complete[1], complete[2]);
    CompletionSent();
    assert Refused() == start + login + ask + click + arrive + complete;
  }

  // Sessions left open.

  /** The browser opens a session and reports an error: the session is dropped, not closed. */
  lemma ErrorLeaves()
    ensures var log := Opening(QUICK, false) + [Sent(Diagnostic, true)];
            Track(log).Stage? && Track(log).mode == Finished && Unended(log)
  {
    Leaves(QUICK, false);
  }

  /** The session comes after the time budget is used up: it is dropped, not closed. */
  lemma LateLeaves()
    ensures var log := Opening(Call(1000, 1000), true) + [Sent(Diagnostic, true)];
            Track(log).Stage? && Track(log).mode == Finished && Unended(log)
  {
    Leaves(Call(1000, 1000), true);
  }

  lemma Leaves(call: Call, ok: bool)
    requires !(ok && InTime(call))
    ensures var log := Opening(call, ok) + [Sent(Diagnostic, true)];
            Track(log).Stage? && Track(log).mode == Finished && Unended(log)
  {
    hide Track;
    var log := Opening(call, ok) + [Sent(Diagnostic, true)];
    OpeningTracks(call, ok);
    TrackNext(Opening(call, ok), Sent(Diagnostic, true));
    assert log[2].Opened? && log[2].session;
  }

  /** The first report of an opened session cannot be written: nothing more is done, and the session stays open. */
  lemma UnwrittenLeaves()
    ensures var log := Opening(QUICK, true) + [Sent(State(Authentication), false)];
            Track(log).Stage? && Track(log).mode == Cut && Unended(log)
  {
    hide Track;
    var log := Opening(QUICK, true) + [Sent(State(Authentication), false)];
    OpeningTracks(QUICK, true);
    TrackNext(Opening(QUICK, true), Sent(State(Authentication), false));
    assert log[2].Opened? && log[2].session;
  }
}
