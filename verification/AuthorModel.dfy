/**
 The values of an authenticated author session: what the client says, what the browser answers, and
 what the session makes of both.
 */
module AuthorModel {
  import opened Wrappers
  import opened PageText
  import opened Contexts

  /** A URL in normal form; `exact` says that the text it was given as needed no trimming. */
  datatype Url = BadUrl | Url(origin: Origin, path: Path, query: string, exact: bool)

  datatype Id = NoId | CandidateId(generation: int, context: ContextId, role: Role, name: Label, ordinal: nat)
              | OtherId(text: string)

  datatype Candidate = Candidate(id: Id, role: Role, name: Label, matches: int)

  datatype InputKind = NoInput | IdentifierInput | PasswordInput | OtpInput | MfaInput | OtherInput(text: string)

  datatype Challenge = NoChallenge | Totp | SmsOtp | EmailOtp | VoiceOtp | Push | PushNumberMatch | Passkey
                     | SecurityKey | OtherChallenge(text: string)

  /** A candidate as the session keeps it: the disclosed part and the backend's private facts. */
  datatype Record = Record(
    candidate: Candidate, input: InputKind, challenges: set<Challenge>, target: Option<Origin>, context: ContextId)

  datatype Observation = Observation(origin: Origin, path: Path, context: ContextId, candidates: seq<Candidate>)

  datatype Goal = Goal(origin: Origin, path: Path, context: ContextId, role: Role, name: Label)

  datatype Proof = Proof(origin: Origin, path: Path, context: ContextId, role: Role, name: Label)

  datatype Action = NavigateGet | Click | OtherAction(text: string)

  datatype Request = Request(action: Action, candidate: Id, url: Option<Url>, context: Option<ContextId>, postBudget: int)

  datatype Phase = AwaitingStart | Authentication | HumanInput | Exploration | Completed | OtherPhase(text: string)

  datatype StepKind = NavigateKind | ClickKind | FocusKind | OtherKind(text: string)

  datatype TraceStep = TraceStep(
    kind: StepKind, phase: Phase, id: Id, context: ContextId, role: Role, name: Label, input: InputKind,
    challenge: Challenge, url: Option<Url>, postBudget: int, postObserved: int, opens: Option<ContextId>)

  // Outputs, bounds and the request a result is built from.

  datatype OutputType = StringOutput | IntegerOutput | NumberOutput | BooleanOutput | PresenceOutput
                      | OtherOutput(text: string)

  datatype LocatorMode = ExactName | UniqueRole | OtherMode(text: string)

  /** `usable` keys are identifiers that are neither reserved nor sensitive. */
  datatype Key = Key(text: string, usable: bool)

  datatype OutputRequest = OutputRequest(candidate: Id, key: Key, kind: OutputType, mode: LocatorMode)

  datatype Selection = Selection(
    candidate: Id, key: Key, kind: OutputType, mode: LocatorMode, observation: int, context: ContextId,
    role: Role, name: Label, matches: int, roleMatches: int)

  datatype Bounds = Bounds(
    navigationTimeoutMS: int, totalTimeoutMS: int, maxRequests: int, maxResponseBytes: int,
    maxObservations: int, maxCandidates: int, maxOutputs: int)

  const DEFAULT_BOUNDS := Bounds(20000, 600000, 512, 33554432, 64, 128, 16)

  const MAX_SELECTED := 16
  const MAX_OUTPUTS := 32
  const MAX_APPROVALS := 9999
  const MAX_DIAGNOSTICS := 256

  /** A backend diagnostic code; `shaped` codes obey the code pattern. */
  datatype Code = Code(text: string, shaped: bool)

  /** `titled` says that title and goal text are present and short enough. */
  datatype BuildRequest = BuildRequest(
    titled: bool, origins: set<Origin>, contexts: Table, trace: seq<TraceStep>, initial: Url, dashboard: Url, goal: Goal,
    goalProof: Proof, authentication: Proof, selections: seq<Selection>, bounds: Bounds, diagnostics: set<Code>)

  // What crosses the boundary of a session.

  datatype ClientMessage =
    | Start(url: Url, dashboard: Url, origins: seq<Origin>, goal: Goal, titled: bool, bounds: Option<Bounds>)
    | Observe(context: Option<ContextId>)
    | FocusHumanInput(candidate: Id)
    | HumanInputComplete(candidate: Id, challenge: Challenge)
    | Execute(request: Request)
    | Approve(id: nat)
    | Deny(id: nat)
    | HumanComplete(confirmed: bool, outputs: Option<seq<OutputRequest>>)
    | Finish
    | CloseMessage
    | Unknown

  datatype Kind = OriginApproval | OriginActionApproval | ActionApproval

  datatype ServerMessage =
    | Hello
    | State(phase: Phase)
    | Observed(observation: Observation)
    | CompletionDue
    | Prompt(candidate: Id, input: InputKind, kinds: set<Challenge>)
    | ApprovalRequired(id: nat, kind: Kind, origin: Option<Origin>, action: Action, candidate: Id, postBudget: int)
    | ResultReady
    | Closed
    | Diagnostic

  datatype RawCandidate = RawCandidate(
    handle: bool, role: Role, name: Label, input: InputKind, challenges: seq<Challenge>, target: Option<Origin>,
    matches: int)

  datatype RawObservation = RawObservation(
    origin: Origin, path: Path, context: Option<ContextId>, candidates: seq<RawCandidate>, contexts: Table,
    diagnostics: seq<Code>)

  datatype Execution = Execution(posts: int, popup: Option<(ContextId, Context)>)

  /** A browser call was given this much of the active-time budget and took that long. */
  datatype Call = Call(budget: int, elapsed: nat)

  predicate InTime(c: Call) { c.elapsed < c.budget }

  /** What comes back after the deadline is discarded. */
  function Timely<T>(c: Call, answer: Option<T>): Option<T> { if InTime(c) then answer else None }

  // Requests and approvals.

  /** What a pending approval will admit or do; a click's target is the record it was asked for. */
  datatype Pending = Pending(id: nat, kind: Kind, request: Request, origin: Option<Origin>, target: Option<Record>)

  function ContextOf(r: Request, target: Option<Record>): ContextId {
    if target.Some? then target.value.context else if r.context.Some? then r.context.value else Main
  }

  function Shown(p: Pending): ServerMessage {
    ApprovalRequired(p.id, p.kind, p.origin, p.request.action, p.request.candidate, p.request.postBudget)
  }

  function PhaseStep(explore: bool): Phase { if explore then Exploration else Authentication }

  /** The trace step of an execution the browser answered. */
  function RunStep(r: Request, target: Option<Record>, phase: Phase, e: Execution): TraceStep {
    TraceStep(if r.action == Click then ClickKind else NavigateKind, phase, r.candidate, ContextOf(r, target),
              if target.Some? then target.value.candidate.role else OtherRole(""),
              if target.Some? then target.value.candidate.name else NoLabel,
              NoInput, NoChallenge, r.url, r.postBudget, e.posts, if e.popup.Some? then Some(e.popup.value.0) else None)
  }

  // Goal and dashboard.

  predicate GoalMatch(g: Goal, c: Candidate) { c.role == g.role && (g.name == NoLabel || c.name == g.name) }

  function Matching(g: Goal, cs: seq<Candidate>): seq<Candidate> {
    if cs == [] then []
    else Matching(g, cs[..|cs| - 1]) + if GoalMatch(g, cs[|cs| - 1]) then [cs[|cs| - 1]] else []
  }

  lemma {:induction false} MatchingMatches(g: Goal, cs: seq<Candidate>)
    ensures forall c <- Matching(g, cs) :: GoalMatch(g, c) && c in cs
  {
    if cs != [] {
      MatchingMatches(g, cs[..|cs| - 1]);
    }
  }

  /** The typed goal is proved by one uniquely matching candidate on the goal's page and context. */
  function MatchGoal(g: Goal, o: Observation): Option<Proof> {
    var ms := Matching(g, o.candidates);
    if g.origin != o.origin || g.path != o.path || g.context != o.context || |ms| != 1 || ms[0].matches != 1 then None
    else Some(Proof(o.origin, o.path, o.context, ms[0].role, ms[0].name))
  }

  predicate OnDashboard(dashboard: Url, o: Observation) {
    dashboard.Url? && dashboard.origin == o.origin && dashboard.path == o.path
  }

  // Success evidence.

  predicate NameOk(l: Label) { l != Redacted && l != Untrusted }

  function Priority(r: Role): int {
    match r
    case Heading => 0
    case Region => 1
    case StatusRole => 2
    case Table => 3
    case _ => 4
  }

  predicate Eligible(c: Candidate) { c.matches == 1 && NameOk(c.name) }

  /** The eligible candidate of the best role, the first of them. */
  predicate Best(cs: seq<Candidate>, k: int) {
    && 0 <= k < |cs| && Eligible(cs[k])
    && forall j | 0 <= j < |cs| && Eligible(cs[j]) ::
         Priority(cs[k].role) < Priority(cs[j].role) || (Priority(cs[k].role) == Priority(cs[j].role) && k <= j)
  }

  function BestOf(cs: seq<Candidate>): (k: Option<nat>)
    ensures k.Some? ==> Best(cs, k.value)
    ensures k.None? ==> forall j | 0 <= j < |cs| :: !Eligible(cs[j])
  {
    if cs == [] then None
    else
      var n := |cs| - 1;
      var before := BestOf(cs[..n]);
      if Eligible(cs[n]) && (before.None? || Priority(cs[n].role) < Priority(cs[before.value].role)) then Some(n) else before
  }

  /** How often the role and name of a candidate are matched by the first n candidates. */
  function Repeats(cs: seq<Candidate>, c: Candidate, n: nat): int
    requires n <= |cs|
  {
    if n == 0 then 0
    else Repeats(cs, c, n - 1) + if cs[n - 1].role == c.role && cs[n - 1].name == c.name then cs[n - 1].matches else 0
  }

  /** Success evidence on a page: the goal if it matches, else the best candidate, if nothing repeats it. */
  function SuccessOn(g: Goal, o: Observation): Option<Proof> {
    if MatchGoal(g, o).Some? then MatchGoal(g, o)
    else
      var k := BestOf(o.candidates);
      if k.Some? && Repeats(o.candidates, o.candidates[k.value], |o.candidates|) == 1
      then Some(Proof(o.origin, o.path, o.context, o.candidates[k.value].role, o.candidates[k.value].name))
      else None
  }

  // Human input.

  const OTP_CHALLENGES := {Totp, SmsOtp, EmailOtp, VoiceOtp}
  const HELD_CHALLENGES := {Push, PushNumberMatch, Passkey, SecurityKey}

  predicate InputKindOk(k: InputKind) { !k.OtherInput? }

  /** Challenge kinds belong to one-time codes or to inputs that are never typed. */
  predicate ChallengesOk(k: InputKind, cs: seq<Challenge>) {
    cs == []
    || ((k == OtpInput || k == MfaInput) && Distinct(cs)
        && forall c <- cs :: c in if k == MfaInput then HELD_CHALLENGES else OTP_CHALLENGES)
  }

  function ChallengeKinds(r: Record): set<Challenge> {
    if r.input == IdentifierInput || r.input == PasswordInput then {}
    else if r.challenges != {} then r.challenges
    else if r.input == OtpInput then OTP_CHALLENGES else HELD_CHALLENGES
  }

  datatype Input = Input(candidate: Id, record: Record, kinds: set<Challenge>)

  function InputFor(id: Id, r: Record): Input { Input(id, r, ChallengeKinds(r)) }

  /** A reviewed challenge kind: none where none is offered, else one of those offered. */
  predicate KindFits(i: Input, c: Challenge) { if i.kinds == {} then c == NoChallenge else c in i.kinds }

  /** The trace of a completed human input: what was asked of whom, never what was typed. */
  function HumanStep(i: Input, challenge: Challenge): TraceStep {
    TraceStep(FocusKind, Authentication, i.candidate, i.record.context, i.record.candidate.role, i.record.candidate.name,
              i.record.input, challenge, None, 0, 0, None)
  }

  // Reduction of what the browser reports.

  predicate Reportable(b: Bounds, c: RawCandidate) {
    c.handle && PortableRole(c.role) && 1 <= c.matches <= b.maxCandidates
    && InputKindOk(c.input) && ChallengesOk(c.input, c.challenges)
  }

  /** The k-th reported candidate under an identifier of this observation and context. */
  function Reduction(raw: RawCandidate, generation: int, context: ContextId, k: nat): Record {
    Record(Candidate(CandidateId(generation, context, raw.role, raw.name, k), raw.role, raw.name, raw.matches),
           raw.input, Elements(raw.challenges), raw.target, context)
  }

  function CandidatesOf(raws: seq<RawCandidate>, generation: int, context: ContextId): seq<Candidate> {
    seq(|raws|, k requires 0 <= k < |raws| => Reduction(raws[k], generation, context, k).candidate)
  }

  function RecordsOf(raws: seq<RawCandidate>, generation: int, context: ContextId): map<Id, Record> {
    if raws == [] then map[]
    else
      var n := |raws| - 1;
      var r := Reduction(raws[n], generation, context, n);
      RecordsOf(raws[..n], generation, context)[r.candidate.id := r]
  }

  /** The records are the reductions of the reported candidates and nothing else. */
  lemma {:induction false} RecordsAre(raws: seq<RawCandidate>, generation: int, context: ContextId)
    ensures forall id <- RecordsOf(raws, generation, context) ::
              && id.CandidateId? && id.ordinal < |raws|
              && RecordsOf(raws, generation, context)[id] == Reduction(raws[id.ordinal], generation, context, id.ordinal)
              && id == Reduction(raws[id.ordinal], generation, context, id.ordinal).candidate.id
    ensures forall k | 0 <= k < |raws| ::
              Reduction(raws[k], generation, context, k).candidate.id in RecordsOf(raws, generation, context)
  {
    if raws != [] {
      RecordsAre(raws[..|raws| - 1], generation, context);
    }
  }

  function ObservationOf(raw: RawObservation, generation: int, context: ContextId): Observation {
    Observation(raw.origin, raw.path, context, CandidatesOf(raw.candidates, generation, context))
  }

  function Target(requested: Option<ContextId>): ContextId { if requested.Some? then requested.value else Main }

  /** A report of the requested context, inside the approved origins, with admissible candidates and codes. */
  predicate ReportOk(origins: set<Origin>, b: Bounds, raw: RawObservation, context: ContextId) {
    Admissible(origins, b, raw, context) && forall d <- raw.diagnostics :: d.shaped
  }

  predicate Admissible(origins: set<Origin>, b: Bounds, raw: RawObservation, context: ContextId) {
    && raw.origin.exact && raw.origin in origins && raw.path.disclosable
    && (raw.context.Some? ==> raw.context.value == context)
    && |raw.candidates| <= b.maxCandidates && forall c <- raw.candidates :: Reportable(b, c)
  }

  // Reviewed outputs.

  predicate ControlRole(r: Role) {
    r in {Button, Textbox, Checkbox, Radio, Combobox, OptionRole, MenuItem, Tab, Switch}
  }

  /** How often the role of a candidate, or exactly the candidate, is matched by the first n reported ones. */
  function Matches(raw: seq<RawCandidate>, c: Candidate, exactly: bool, n: nat): int
    requires n <= |raw|
  {
    if n == 0 then 0
    else
      var r := raw[n - 1];
      Matches(raw, c, exactly, n - 1)
      + if r.role == c.role && (exactly ==> r.input == NoInput && r.name == c.name) then r.matches else 0
  }

  /** A request names a current, unique, disclosed output candidate of the goal's context. */
  predicate OutputOk(candidates: map<Id, Record>, goal: Proof, q: OutputRequest) {
    && q.key.usable && !q.kind.OtherOutput? && !q.mode.OtherMode?
    && q.candidate in candidates
    && candidates[q.candidate].context == goal.context && candidates[q.candidate].candidate.matches == 1
    && candidates[q.candidate].input == NoInput && !ControlRole(candidates[q.candidate].candidate.role)
    && PromotableLabel(candidates[q.candidate].candidate.name)
  }

  /** Admissible requests that name no key and no candidate twice. */
  predicate OutputsOk(candidates: map<Id, Record>, goal: Proof, qs: seq<OutputRequest>) {
    && (forall q <- qs :: OutputOk(candidates, goal, q))
    && forall i, j | 0 <= i < j < |qs| :: qs[i].key != qs[j].key && qs[i].candidate != qs[j].candidate
  }

  /** The page looked at again is the page of the goal proof. */
  predicate SamePage(goal: Proof, b: Bounds, page: RawObservation) {
    && page.origin == goal.origin && page.path == goal.path && Target(page.context) == goal.context
    && |page.candidates| <= b.maxCandidates
  }

  function SelectionOf(candidates: map<Id, Record>, goal: Proof, generation: int, page: RawObservation,
                       q: OutputRequest): Selection
    requires q.candidate in candidates
  {
    var c := candidates[q.candidate].candidate;
    Selection(q.candidate, q.key, q.kind, q.mode, generation, goal.context, c.role,
              if q.mode == ExactName then c.name else NoLabel,
              Matches(page.candidates, c, true, |page.candidates|), Matches(page.candidates, c, false, |page.candidates|))
  }

  /** The candidate is still proved on the page: matched once exactly, and once by role where the role identifies it. */
  predicate Proved(b: Bounds, page: RawObservation, c: Candidate, mode: LocatorMode) {
    && (forall r <- page.candidates :: 1 <= r.matches <= b.maxCandidates)
    && Matches(page.candidates, c, false, |page.candidates|) <= b.maxCandidates
    && Matches(page.candidates, c, true, |page.candidates|) == 1
    && (mode == UniqueRole ==> Matches(page.candidates, c, false, |page.candidates|) == 1)
  }

  predicate Reviewed(candidates: map<Id, Record>, goal: Proof, b: Bounds, qs: seq<OutputRequest>,
                     page: Option<RawObservation>) {
    && |qs| <= b.maxOutputs && |qs| <= MAX_SELECTED && OutputsOk(candidates, goal, qs)
    && (qs != [] ==>
          && page.Some? && SamePage(goal, b, page.value)
          && forall q <- qs :: Proved(b, page.value, candidates[q.candidate].candidate, q.mode))
  }

  /** Selections in the order of their keys. */
  function InsertByKey(s: Selection, t: seq<Selection>): seq<Selection> {
    if t == [] || TextLe(s.key.text, t[0].key.text) then [s] + t else [t[0]] + InsertByKey(s, t[1..])
  }

  function Selections(candidates: map<Id, Record>, goal: Proof, generation: int, qs: seq<OutputRequest>,
                      page: Option<RawObservation>): seq<Selection>
    requires forall q <- qs :: q.candidate in candidates
    requires qs != [] ==> page.Some?
  {
    if qs == [] then []
    else InsertByKey(SelectionOf(candidates, goal, generation, page.value, qs[|qs| - 1]),
                     Selections(candidates, goal, generation, qs[..|qs| - 1], page))
  }

  /** n authentication steps, then exploration steps only, none of them a human input. */
  predicate Ordered(trace: seq<TraceStep>, n: nat) {
    && n <= |trace|
    && (forall i | 0 <= i < n :: trace[i].phase == Authentication)
    && (forall i | n <= i < |trace| ::
          trace[i].phase == Exploration && (trace[i].kind == ClickKind || trace[i].kind == NavigateKind))
  }
}
