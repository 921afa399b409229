/**
 What an authenticated author session may do, as a machine over everything that crosses its boundary:
 the client's messages, the browser's calls with their answers, the messages sent and the file stored.
 Nothing in a log is a decision of the session alone; what the session makes of the answers is computed
 here. The server is proved to produce only logs that this machine accepts.
 */
module AuthorLog {
  import opened Wrappers
  import opened PageText
  import opened Contexts
  import opened AuthorModel
  import AuthorResult

  datatype Event =
    | Received(message: ClientMessage)
    | Opened(url: Url, origins: set<Origin>, call: Call, session: bool, ok: bool)
    | Looked(context: ContextId, call: Call, raw: Option<RawObservation>)
    | Focused(record: Record, call: Call, ok: bool)
    | Ran(request: Request, target: Option<Record>, call: Call, result: Option<Execution>)
    | AddedOrigin(origin: Origin, ok: bool)
    | Ended(clean: bool)
    | Stored(document: BuildRequest, ok: bool)
    | Sent(reply: ServerMessage, ok: bool)

  /** What `start` fixes for the rest of the session. */
  datatype Scope = Scope(titled: bool, initial: Url, dashboard: Url, goal: Goal, bounds: Bounds)

  /** What a session knows. */
  datatype Facts = Facts(
    scope: Scope,
    origins: set<Origin>, contexts: Table, candidates: map<Id, Record>, observations: int, diagnostics: set<Code>,
    counter: nat, pending: Option<Pending>, granted: Option<Pending>, input: Option<Input>,
    trace: seq<TraceStep>, proof: Option<Proof>, arrival: Option<Proof>, selections: seq<Selection>)

  const NOWHERE := Scope(false, BadUrl, BadUrl, Goal(Origin("", false), ROOT, Main, OtherRole(""), NoLabel),
                         Bounds(0, 0, 0, 0, 0, 0, 0))
  const NOTHING := Facts(
    NOWHERE, {}, map[], map[], 0, {}, 0, None, None, None, [], None, None, [])

  /** The browser's last answer while a message is handled, as far as it came in time. */
  datatype Answer =
    | NoAnswer
    | OpenAnswer
    | LookAnswer(raw: Option<RawObservation>)
    | FocusAnswer(ok: bool)
    | OriginAnswer(ok: bool)
    | RunAnswer(request: Request, target: Option<Record>, result: Option<Execution>)

  /** `Dropped` is a session the browser opened and the server did not keep, or none at all. */
  datatype Mode = Silent | Waiting | Auth | Explore | Agreed | Dropped | Over(clean: bool, agreed: bool) | Written
                | Finished | Cut

  datatype Stage = Wrong | Stage(mode: Mode, now: Option<ClientMessage>, answer: Answer, f: Facts)

  const FIRST := Stage(Silent, None, NoAnswer, NOTHING)

  /** A session is held. */
  predicate Held(m: Mode) { m == Auth || m == Explore || m == Agreed }

  predicate Working(m: Mode) { m == Auth || m == Explore }

  /** The run is complete. */
  predicate Final(m: Mode) { m == Finished || m == Cut }

  predicate Quiet(f: Facts) { f.pending.None? && f.granted.None? && f.input.None? }

  function PhaseOf(m: Mode): Phase { if m == Explore then Exploration else Authentication }

  // Messages received. Accepting an approval is receiving its identifier while it is pending.

  predicate MayReceive(s: Stage) { s.Stage? && s.now.None? && (s.mode == Waiting || Held(s.mode)) }

  function Granted(f: Facts, m: ClientMessage): Facts {
    if m.Approve? && f.pending.Some? && f.pending.value.id == m.id then f.(pending := None, granted := f.pending) else f
  }

  function OnReceived(s: Stage, m: ClientMessage): Stage {
    if !MayReceive(s) then Wrong else Stage(s.mode, Some(m), NoAnswer, Granted(s.f, m))
  }

  // Opening.

  predicate StartBoundsOk(b: Bounds) {
    && 0 < b.navigationTimeoutMS <= 60000 && b.navigationTimeoutMS <= b.totalTimeoutMS <= 1800000
    && 0 < b.maxRequests <= 4096 && 0 < b.maxResponseBytes <= 134217728
    && 0 < b.maxObservations <= 256 && 0 < b.maxCandidates <= 512 && 0 < b.maxOutputs <= MAX_OUTPUTS
  }

  predicate StartOk(m: ClientMessage)
    requires m.Start?
  {
    && m.titled && (m.bounds.Some? ==> StartBoundsOk(m.bounds.value))
    && 0 < |m.origins| <= 32 && (forall o <- m.origins :: o.exact)
    && m.goal.origin in m.origins && m.goal.path.disclosable && PortableRole(m.goal.role)
    && m.url.Url? && m.url.origin in m.origins && m.dashboard.Url? && m.dashboard.origin in m.origins
  }

  function BoundsOf(m: ClientMessage): Bounds
    requires m.Start?
  {
    if m.bounds.Some? then m.bounds.value else DEFAULT_BOUNDS
  }

  /** What is known when a session starts. */
  function Started(m: ClientMessage): Facts
    requires m.Start?
  {
    NOTHING.(scope := Scope(m.titled, m.url, m.dashboard, m.goal, BoundsOf(m)), origins := Elements(m.origins))
  }

  predicate MayOpen(s: Stage, url: Url, origins: set<Origin>) {
    s.Stage? && s.mode == Waiting && s.now.Some? && s.now.value.Start? && s.answer == NoAnswer
    && StartOk(s.now.value) && url == s.now.value.url && origins == Elements(s.now.value.origins)
  }

  /** A session is kept when it came without an error and in time; otherwise it is dropped. */
  function OnOpened(s: Stage, url: Url, origins: set<Origin>, call: Call, session: bool, ok: bool): Stage {
    if !MayOpen(s, url, origins) || (ok && !session) then Wrong
    else if ok && InTime(call) then Stage(Auth, s.now, OpenAnswer, Started(s.now.value))
    else Stage(Dropped, s.now, NoAnswer, s.f)
  }

  // Browser calls of a session.

  predicate MayLook(s: Stage, context: ContextId) {
    s.Stage? && Working(s.mode) && s.now.Some? && s.answer == NoAnswer && Quiet(s.f)
    && match s.now.value
       case Observe(requested) =>
         context == Target(requested) && AuthorResult.Known(s.f.contexts, context)
         && s.f.observations < s.f.scope.bounds.maxObservations
       case HumanComplete(confirmed, outputs) =>
         confirmed && outputs.Some? && outputs.value != [] && s.mode == Explore && s.f.proof.Some?
         && context == s.f.proof.value.context
       case _ => false
  }

  function OnLooked(s: Stage, context: ContextId, call: Call, raw: Option<RawObservation>): Stage {
    if !MayLook(s, context) then Wrong
    else AfterLook(s, Timely(call, raw))
  }

  function AfterLook(s: Stage, raw: Option<RawObservation>): Stage
    requires s.Stage? && s.now.Some?
  {
    Stage(s.mode, s.now, LookAnswer(raw),
          if s.now.value.Observe? then s.f.(observations := s.f.observations + 1) else s.f)
  }

  predicate Typable(r: Record) { r.input != NoInput && r.candidate.matches == 1 }

  predicate MayFocus(s: Stage, target: Record) {
    s.Stage? && s.mode == Auth && s.now.Some? && s.now.value.FocusHumanInput? && s.answer == NoAnswer && Quiet(s.f)
    && s.now.value.candidate in s.f.candidates && target == s.f.candidates[s.now.value.candidate]
    && Typable(target) && target.input != MfaInput
  }

  function OnFocused(s: Stage, target: Record, call: Call, ok: bool): Stage {
    if !MayFocus(s, target) then Wrong else s.(answer := FocusAnswer(ok && InTime(call)))
  }

  /** The checks a request passes before anything is asked or done. */
  predicate Executable(f: Facts, r: Request) {
    match r.action
    case NavigateGet =>
      r.candidate == NoId && r.url.Some? && r.url.value.Url? && r.url.value.origin.exact && r.postBudget == 0
      && AuthorResult.Known(f.contexts, ContextOf(r, None))
    case Click =>
      r.url.None? && r.candidate in f.candidates && f.candidates[r.candidate].candidate.matches == 1
      && 0 <= r.postBudget <= 32
      && (r.context.Some? ==> r.context.value == f.candidates[r.candidate].context)
      && (f.candidates[r.candidate].target.Some? ==> f.candidates[r.candidate].target.value.exact)
    case OtherAction(_) => false
  }

  /** The approval a request needs before it may run: none for a navigation inside the approved origins. */
  function Demand(f: Facts, r: Request): Option<Pending>
    requires Executable(f, r)
  {
    match r.action
    case NavigateGet =>
      if r.url.value.origin in f.origins then None
      else Some(Pending(f.counter + 1, OriginApproval, r, Some(r.url.value.origin), None))
    case Click =>
      var target := f.candidates[r.candidate];
      if target.target.Some? && target.target.value !in f.origins
      then Some(Pending(f.counter + 1, OriginActionApproval, r, target.target, Some(target)))
      else Some(Pending(f.counter + 1, ActionApproval, r, None, Some(target)))
  }

  /** A navigation may run by itself inside the approved origins; everything else needs its own accepted approval. */
  predicate MayRun(s: Stage, r: Request, target: Option<Record>) {
    s.Stage? && Working(s.mode) && s.now.Some? && s.f.pending.None? && s.f.input.None?
    && match s.now.value
       case Execute(request) =>
         r == request && target.None? && s.f.granted.None? && s.answer == NoAnswer
         && Executable(s.f, r) && Demand(s.f, r).None?
       case Approve(_) =>
         s.f.granted.Some? && r == s.f.granted.value.request
         && (match s.f.granted.value.kind
             case ActionApproval => s.answer == NoAnswer && target == s.f.granted.value.target
             case OriginApproval => s.answer == OriginAnswer(true) && target.None?
             case OriginActionApproval => false)
       case _ => false
  }

  function OnRan(s: Stage, r: Request, target: Option<Record>, call: Call, result: Option<Execution>): Stage {
    if !MayRun(s, r, target) then Wrong
    else Stage(s.mode, s.now, RunAnswer(r, target, Timely(call, result)), s.f.(granted := None, proof := None))
  }

  predicate MayAdmit(s: Stage, o: Origin) {
    s.Stage? && Working(s.mode) && s.now.Some? && s.now.value.Approve? && s.answer == NoAnswer
    && s.f.granted.Some? && s.f.granted.value.kind != ActionApproval && s.f.granted.value.origin == Some(o)
  }

  function OnAddedOrigin(s: Stage, o: Origin, ok: bool): Stage {
    if !MayAdmit(s, o) then Wrong
    else s.(answer := OriginAnswer(ok), f := if ok then s.f.(origins := s.f.origins + {o}) else s.f)
  }

  predicate MayEnd(s: Stage) { s.Stage? && Held(s.mode) }

  function OnEnded(s: Stage, clean: bool): Stage {
    if !MayEnd(s) then Wrong else s.(mode := Over(clean, s.mode == Agreed))
  }

  // The result.

  /** The request a result is built from. */
  function RequestOf(f: Facts): BuildRequest
    requires f.proof.Some? && f.arrival.Some?
  {
    BuildRequest(f.scope.titled, f.origins, f.contexts, f.trace, f.scope.initial, f.scope.dashboard, f.scope.goal,
                 f.proof.value, f.arrival.value, f.selections, f.scope.bounds, f.diagnostics)
  }

  predicate MayStore(s: Stage, r: BuildRequest) {
    s.Stage? && s.mode == Over(true, true) && s.now == Some(Finish)
    && s.f.proof.Some? && s.f.arrival.Some? && r == RequestOf(s.f) && AuthorResult.Buildable(r)
  }

  function OnStored(s: Stage, r: BuildRequest, ok: bool): Stage {
    if !MayStore(s, r) then Wrong else s.(mode := if ok then Written else Over(true, false))
  }

  // Outcomes. A handled message ends with one message sent, and that fixes what it changed.

  function Settled(s: Stage, mode: Mode, f: Facts): Stage { Stage(mode, None, NoAnswer, f) }

  predicate Handling(s: Stage) { s.Stage? && s.now.Some? }

  function OutcomeStart(s: Stage, phase: Phase): Stage {
    if Handling(s) && s.answer.OpenAnswer? && s.mode == Auth && phase == Authentication then Settled(s, Auth, s.f) else Wrong
  }

  predicate CompletesInput(s: Stage) {
    Handling(s) && s.now.value.HumanInputComplete? && s.mode == Auth && s.f.pending.None? && s.f.input.Some?
    && s.now.value.candidate != NoId && s.now.value.candidate == s.f.input.value.candidate
    && KindFits(s.f.input.value, s.now.value.challenge)
  }

  function OutcomeHuman(s: Stage, phase: Phase): Stage {
    if CompletesInput(s) && phase == Authentication then
      Settled(s, Auth, s.f.(trace := s.f.trace + [HumanStep(s.f.input.value, s.now.value.challenge)], input := None))
    else Wrong
  }

  /** The browser answered within the POST budget, and a popup it opened can be added. */
  predicate Succeeds(s: Stage) {
    Handling(s) && Working(s.mode) && s.answer.RunAnswer? && s.answer.result.Some?
    && 0 <= s.answer.result.value.posts <= s.answer.request.postBudget
    && (s.answer.result.value.popup.Some? ==>
          Addable(s.f.origins, s.f.contexts, s.answer.result.value.popup.value.0, s.answer.result.value.popup.value.1))
  }

  function WithPopup(m: Table, e: Execution): Table {
    if e.popup.Some? then m[e.popup.value.0 := e.popup.value.1] else m
  }

  function OutcomeRun(s: Stage, phase: Phase): Stage {
    if Succeeds(s) && phase == PhaseOf(s.mode) then
      Settled(s, s.mode, s.f.(trace := s.f.trace + [RunStep(s.answer.request, s.answer.target, phase, s.answer.result.value)],
                              contexts := WithPopup(s.f.contexts, s.answer.result.value)))
    else Wrong
  }

  /** Confirmed by the human on a standing proof, with outputs proved again on the page of the goal. */
  predicate Completes(s: Stage) {
    Handling(s) && s.now.value.HumanComplete? && s.mode == Explore && Quiet(s.f)
    && s.now.value.confirmed && s.f.proof.Some? && s.now.value.outputs.Some?
    && Reviewed(s.f.candidates, s.f.proof.value, s.f.scope.bounds, s.now.value.outputs.value, PageOf(s.answer))
  }

  function PageOf(a: Answer): Option<RawObservation> { if a.LookAnswer? then a.raw else None }

  function OutcomeComplete(s: Stage, phase: Phase): Stage {
    if Completes(s) && phase == Completed then
      Settled(s, Agreed, s.f.(selections := Selections(s.f.candidates, s.f.proof.value, s.f.observations,
                                                       s.now.value.outputs.value, PageOf(s.answer))))
    else Wrong
  }

  function OutcomeState(s: Stage, phase: Phase): Stage {
    if !Handling(s) then Wrong
    else
      match s.now.value
      case Start(_, _, _, _, _, _) => OutcomeStart(s, phase)
      case HumanInputComplete(_, _) => OutcomeHuman(s, phase)
      case Execute(_) => OutcomeRun(s, phase)
      case Approve(_) => OutcomeRun(s, phase)
      case HumanComplete(_, _) => OutcomeComplete(s, phase)
      case _ => Wrong
  }

  /** A report that a session of these facts accepts. */
  predicate Acceptable(f: Facts, before: Phase, raw: RawObservation, context: ContextId) {
    && ReportOk(f.origins, f.scope.bounds, raw, context) && Joinable(f.origins, f.contexts, raw.contexts)
    && |f.diagnostics + Elements(raw.diagnostics)| <= MAX_DIAGNOSTICS
    && (Arrival(f, before, raw, context) ==> SuccessOn(f.scope.goal, ObservationOf(raw, f.observations, context)).Some?)
  }

  /** The report shows the dashboard while the session still authenticates. */
  predicate Arrival(f: Facts, before: Phase, raw: RawObservation, context: ContextId) {
    before == Authentication && OnDashboard(f.scope.dashboard, ObservationOf(raw, f.observations, context))
  }

  /** What an accepted report makes of the facts. */
  function Taken(f: Facts, before: Phase, raw: RawObservation, context: ContextId): Facts {
    var o := ObservationOf(raw, f.observations, context);
    f.(contexts := f.contexts + raw.contexts,
       candidates := RecordsOf(raw.candidates, f.observations, context),
       diagnostics := f.diagnostics + Elements(raw.diagnostics),
       proof := MatchGoal(f.scope.goal, o),
       arrival := if Arrival(f, before, raw, context) then SuccessOn(f.scope.goal, o) else f.arrival)
  }

  function PhaseAfter(f: Facts, before: Phase, raw: RawObservation, context: ContextId): Phase {
    if Arrival(f, before, raw, context) then Exploration else before
  }

  /** The newest observation comes from what the browser reported, which the session accepts. */
  ghost predicate Adopts(s: Stage, o: Observation) {
    Handling(s) && s.now.value.Observe? && Working(s.mode) && s.answer.LookAnswer? && s.answer.raw.Some?
    && var raw, context := s.answer.raw.value, Target(s.now.value.context);
    && o == ObservationOf(raw, s.f.observations, context) && Acceptable(s.f, PhaseOf(s.mode), raw, context)
  }

  /** It replaces every candidate of every context, and decides the goal proof. */
  function Adopted(s: Stage): Facts
    requires Handling(s) && s.now.value.Observe? && s.answer.LookAnswer? && s.answer.raw.Some?
  {
    Taken(s.f, PhaseOf(s.mode), s.answer.raw.value, Target(s.now.value.context))
  }

  /** The dashboard is reached for the first time. */
  predicate Arriving(s: Stage, o: Observation)
    requires s.Stage?
  {
    s.mode == Auth && OnDashboard(s.f.scope.dashboard, o)
  }

  ghost function OutcomeObserved(s: Stage, o: Observation): Stage {
    if Adopts(s, o) then Settled(s, if Arriving(s, o) then Explore else s.mode, Adopted(s)) else Wrong
  }

  predicate Prompts(s: Stage) {
    Handling(s) && s.now.value.FocusHumanInput? && s.mode == Auth && Quiet(s.f)
    && s.now.value.candidate in s.f.candidates && Typable(s.f.candidates[s.now.value.candidate])
    && (s.f.candidates[s.now.value.candidate].input == MfaInput || s.answer == FocusAnswer(true))
  }

  function PromptOf(i: Input): ServerMessage { Prompt(i.candidate, i.record.input, i.kinds) }

  function OutcomePrompt(s: Stage, m: ServerMessage): Stage {
    if !Prompts(s) then Wrong
    else
      var i := InputFor(s.now.value.candidate, s.f.candidates[s.now.value.candidate]);
      if m == PromptOf(i) then Settled(s, Auth, s.f.(input := Some(i))) else Wrong
  }

  /** The request an approval may be asked for: the client's, or the one whose origin was just admitted. */
  function AskedFor(s: Stage): Option<Request> {
    if !Handling(s) then None
    else
      match s.now.value
      case Execute(r) => if Quiet(s.f) && s.answer == NoAnswer then Some(r) else None
      case Approve(_) =>
        if s.f.granted.Some? && s.f.granted.value.kind == OriginActionApproval && s.answer == OriginAnswer(true)
           && s.f.pending.None? && s.f.input.None?
        then Some(s.f.granted.value.request) else None
      case _ => None
  }

  predicate Asks(s: Stage) {
    Handling(s) && Working(s.mode) && AskedFor(s).Some? && Executable(s.f, AskedFor(s).value)
    && Demand(s.f, AskedFor(s).value).Some? && s.f.counter < MAX_APPROVALS
  }

  function OutcomeAsk(s: Stage, m: ServerMessage): Stage {
    if !Asks(s) then Wrong
    else
      var p := Demand(s.f, AskedFor(s).value).value;
      if m == Shown(p) then Settled(s, s.mode, s.f.(pending := Some(p), counter := p.id, granted := None)) else Wrong
  }

  predicate Ending(s: Stage) { s.Stage? && (s.mode == Waiting || s.mode == Dropped || s.mode.Over?) }

  predicate MayClose(s: Stage) {
    s.Stage? && s.now == Some(CloseMessage) && (s.mode == Waiting || (s.mode.Over? && s.mode.clean))
  }

  ghost function Outcome(s: Stage, m: ServerMessage): Stage {
    if s.Wrong? then Wrong
    else
      match m
      case Hello => if s.mode == Silent then s.(mode := Waiting) else Wrong
      case State(phase) => OutcomeState(s, phase)
      case Observed(o) => OutcomeObserved(s, o)
      case CompletionDue => if s.now.None? && s.mode == Explore && Quiet(s.f) && s.f.proof.Some? then s else Wrong
      case Prompt(_, _, _) => OutcomePrompt(s, m)
      case ApprovalRequired(_, _, _, _, _, _) => OutcomeAsk(s, m)
      case ResultReady => if s.mode == Written then s.(mode := Finished) else Wrong
      case Closed => if MayClose(s) then s.(mode := Finished) else Wrong
      case Diagnostic => if Ending(s) then s.(mode := Finished) else Wrong
  }

  /** Nothing follows a message that could not be written. */
  ghost function OnSent(s: Stage, m: ServerMessage, ok: bool): Stage {
    var t := Outcome(s, m);
    if t.Wrong? || ok then t else t.(mode := Cut)
  }

  ghost function Next(s: Stage, e: Event): Stage {
    match e
    case Received(m) => OnReceived(s, m)
    case Opened(url, origins, call, session, ok) => OnOpened(s, url, origins, call, session, ok)
    case Looked(context, call, raw) => OnLooked(s, context, call, raw)
    case Focused(target, call, ok) => OnFocused(s, target, call, ok)
    case Ran(r, target, call, result) => OnRan(s, r, target, call, result)
    case AddedOrigin(o, ok) => OnAddedOrigin(s, o, ok)
    case Ended(clean) => OnEnded(s, clean)
    case Stored(r, ok) => OnStored(s, r, ok)
    case Sent(m, ok) => OnSent(s, m, ok)
  }

  ghost function Track(log: seq<Event>): Stage {
    if log == [] then FIRST else Next(Track(log[..|log| - 1]), log[|log| - 1])
  }

  lemma TrackNext(log: seq<Event>, e: Event)
    ensures Track(log + [e]) == Next(Track(log), e)
  {
    hide Next;
    assert (log + [e])[..|log|] == log;
  }

  lemma WrongStays(e: Event)
    ensures Next(Wrong, e) == Wrong
  {
  }

  lemma {:induction false} PrefixRight(log: seq<Event>, k: nat)
    requires Track(log) != Wrong && k <= |log|
    ensures Track(log[..k]) != Wrong
    decreases |log|
  {
    hide Next;
    if k < |log| {
      WrongStays(log[|log| - 1]);
      PrefixRight(log[..|log| - 1], k);
      assert log[..|log| - 1][..k] == log[..k];
    } else {
      assert log[..k] == log;
    }
  }

  /** The stage before and after event k. */
  lemma StageAt(log: seq<Event>, k: nat)
    requires Track(log) != Wrong && k < |log|
    ensures Track(log[..k]) != Wrong && Track(log[..k + 1]) == Next(Track(log[..k]), log[k]) != Wrong
  {
    hide Next;
    PrefixRight(log, k);
    PrefixRight(log, k + 1);
    assert log[..k + 1] == log[..k] + [log[k]];
    TrackNext(log[..k], log[k]);
  }
}
