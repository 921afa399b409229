/**
 The values that registration authoring passes between its session, its evidence checker and its
 result builder.

 Digests, candidate identifiers and encodings are constructors, so they are injective. Labels,
 origins, paths and URLs carry the verdict of the string validators as a flag, because how text is
 judged is not part of this model. A closed vocabulary is a datatype whose last constructor is any
 text outside it.
 */
module RegistrationModel {
  import opened Wrappers
  import opened PageText

  datatype Protocol = V1 | V2 | V3 | V4

  predicate Typed(p: Protocol) { p == V3 || p == V4 }

  const MAX_LINE_BYTES := 262144
  const MAX_DIAGNOSTICS := 256
  const SECOND := 1_000_000_000

  /** The UWS registration profile schemas. */
  datatype Schema = Schema10 | Schema11 | Schema12 | OtherSchema(text: string)

  function SchemaFor(p: Protocol): Schema {
    match p
    case V1 => Schema10
    case V2 => Schema10
    case V3 => Schema11
    case V4 => Schema12
  }

  datatype ControlKind = TextKind | EmailKind | PasswordKind | NumberKind | CheckboxKind | SwitchKind | SelectKind
                       | ButtonKind | LinkKind | Unsupported | OtherKind(text: string)

  /** How a step or a preview acts on a control. */
  datatype Manner = Fill | Check | Select | ClickIt | OtherManner(text: string)

  datatype CredentialKind = PasswordSlot | IdentifierSlot | OtherSlot(text: string)

  /** The closed vocabulary of observation warnings, in its lexical order. */
  datatype Warning = SnapshotPartial | CrossOriginFrame | SyntheticFixture | UnsupportedControl | OtherWarning(text: string)

  predicate KnownWarning(w: Warning) { !w.OtherWarning? }

  function WarningRank(w: Warning): int {
    match w
    case SnapshotPartial => 0
    case CrossOriginFrame => 1
    case SyntheticFixture => 2
    case UnsupportedControl => 3
    case OtherWarning(_) => 4
  }

  datatype Cleanup = DeleteSeparately | RetainTestIdentity | OtherCleanup(text: string)
  datatype Effect = CreatesAccount | OtherEffect(text: string)
  datatype ObservationKind = AccessibilitySnapshot | OtherObservation(text: string)
  datatype Provider = Turnstile | RecaptchaV2 | Hcaptcha | OtherProvider(text: string)
  datatype Activation = BeforeApproval | ApprovedSubmit | OtherActivation(text: string)
  datatype Binding = SingleInSubmitForm | OtherBinding(text: string)
  datatype Coverage = StandardSingleWidget | OtherCoverage(text: string)
  datatype Policy = PolicyV1(provider: Provider) | OtherPolicy(text: string)
  datatype Purpose = PublicFormPreview | OtherPurpose(text: string)

  /** `plain` and `retained` are the verdicts of the query-free rule and of the literal-query rule. */
  datatype Url = Malformed | Url(origin: Origin, path: Option<Path>, query: string, plain: bool, retained: bool)

  predicate CleanUrl(p: Protocol, u: Url) {
    u.Url? && u.origin.exact && if p == V1 then u.plain else u.retained
  }

  function PathOf(u: Url): Path
    requires u.Url?
  {
    if u.path.Some? then u.path.value else ROOT
  }

  datatype Locator = Locator(role: Role, name: Label, text: string, value: string)

  datatype Step =
    | Navigate(url: Url)
    | TypeCredential(locator: Locator, slot: string)
    | FillInput(locator: Locator, slot: string, control: Manner)
    | Click(locator: Locator)
    | Submit(locator: Locator)
    | WaitFor(locator: Locator)
    | HumanCheckpoint(kind: string, at: Option<Locator>)

  function LocatorOf(s: Step): Option<Locator> {
    match s
    case Navigate(_) => None
    case HumanCheckpoint(_, at) => at
    case _ => Some(s.locator)
  }

  datatype Dependencies = Dependencies(policy: Policy, maxRequests: int, maxResponseBytes: int, timeoutMS: int)

  datatype HumanVerification = HumanVerification(
    provider: Provider, activation: Activation, submissionUrl: Url, widgetBinding: Binding, dependencies: Dependencies)

  datatype Flow = Flow(
    sequence: seq<Step>, success: Locator, effects: seq<Effect>, confirmationRequired: bool,
    verification: Option<HumanVerification>)

  /** `verifiedAt` and `expiresAt` are the parsed freshness metadata, when they parse. */
  datatype Profile = Profile(
    schema: Schema, observationKind: ObservationKind, origins: seq<Origin>, flows: map<string, Flow>,
    credentialSlots: map<string, CredentialKind>, inputSlots: map<string, seq<Label>>,
    verifiedAt: Option<int>, expiresAt: Option<int>, schemaValid: bool)

  function CredentialOf(p: Profile, slot: string): CredentialKind {
    if slot in p.credentialSlots then p.credentialSlots[slot] else OtherSlot("")
  }

  function Choices(p: Profile, slot: string): seq<Label> {
    if slot in p.inputSlots then p.inputSlots[slot] else []
  }

  /** Profile text: the canonical encoding of a profile, another encoding of one, or neither. */
  datatype Source = Canonical(profile: Profile) | Foreign(profile: Profile, valid: bool) | Garbage

  function Parse(s: Source): Option<Profile> {
    match s
    case Canonical(p) => if p.schemaValid then Some(p) else None
    case Foreign(p, valid) => if valid then Some(p) else None
    case Garbage => None
  }

  function Marshal(p: Profile): Option<Source> {
    if p.schemaValid then Some(Canonical(p)) else None
  }

  /** An instant in nanoseconds; zero is the zero time. */
  datatype Time = Time(nanos: int, utc: bool)

  predicate CanonicalTime(t: Time) { t.nanos != 0 && t.utc && t.nanos % SECOND == 0 }

  function WholeSecond(t: Time): Time { Time(t.nanos - t.nanos % SECOND, true) }

  predicate VerifiedAt(p: Profile, at: Time) {
    at.nanos != 0 && p.verifiedAt.Some? && p.verifiedAt.value <= at.nanos
  }

  /** The profile re-encodes, was verified no later than `at`, and expires after `at`. */
  predicate CurrentAt(p: Profile, at: Time) {
    p.schemaValid && VerifiedAt(p, at) && p.expiresAt.Some? && at.nanos < p.expiresAt.value
  }

  /** Every retained navigation is canonical and stays inside the declared origins. */
  predicate RetainedNavigation(p: Profile) {
    p.origins != []
    && forall name, i | name in p.flows && 0 <= i < |p.flows[name].sequence| && p.flows[name].sequence[i].Navigate? ::
         var u := p.flows[name].sequence[i].url;
         CleanUrl(V2, u) && u.origin in p.origins
  }

  // Observations.

  datatype Number = NotANumber | Infinite | Finite(value: real)

  datatype PublicOption = PublicOption(value: Label, name: Label)

  datatype Control = Control(
    kind: ControlKind, minLength: Option<int>, maxLength: Option<int>,
    minimum: Option<Number>, maximum: Option<Number>, options: seq<PublicOption>)

  datatype VerificationObservation = VerificationObservation(
    provider: Provider, activation: Activation, submissionUrl: Url, widgetBinding: Binding, coverage: Coverage)

  /** A candidate identifier digests exactly these four facts; clients may send other text. */
  datatype Id = NoId | CandidateId(generation: int, role: Role, name: Label, ordinal: nat) | OtherId(text: string, shaped: bool)

  datatype Candidate = Candidate(
    id: Id, role: Role, name: Label, matches: int, control: Option<Control>,
    verification: Option<VerificationObservation>)

  /** `bytes` is the length of the observation's encoding. */
  datatype Observation = Observation(
    generation: int, origin: Origin, path: Path, candidates: seq<Candidate>, diagnostics: seq<Warning>, bytes: nat)

  datatype PreviewRequest = PreviewRequest(
    id: Id, generation: int, action: Manner, purpose: Purpose, option: Option<Label>, checked: Option<bool>)

  datatype PreviewRecord = PreviewRecord(request: PreviewRequest, nextGeneration: int)

  datatype Record = Record(candidate: Candidate, generation: int)

  predicate Promotable(c: Candidate) { PromotableLabel(c.name) }

  /** The length of the encoded history: an array of the encoded observations. */
  function HistoryBytes(history: seq<Observation>): nat {
    if history == [] then 2
    else HistoryBytes(history[..|history| - 1]) + history[|history| - 1].bytes + if |history| > 1 then 1 else 0
  }

  /**
   Identifiers are compared as text. Which order their digests happen to have does not matter to
   anything stated here; this fixed order stands for it.
   */
  function Rank(id: Id): int {
    match id
    case NoId => 0
    case CandidateId(g, _, _, k) => 1 + g + k
    case OtherId(t, _) => 1 + |t|
  }

  predicate SortedIds(ids: seq<Id>) {
    forall i | 0 < i < |ids| :: Rank(ids[i - 1]) <= Rank(ids[i])
  }

  /** Known warnings in lexical order without repetition. */
  predicate CanonicalWarnings(s: seq<Warning>) {
    (forall w <- s :: KnownWarning(w)) && forall i | 0 < i < |s| :: WarningRank(s[i - 1]) < WarningRank(s[i])
  }

  // Verification widgets.

  predicate VerificationObservationOk(v: VerificationObservation, origins: seq<Origin>) {
    && !v.provider.OtherProvider? && !v.activation.OtherActivation?
    && v.widgetBinding == SingleInSubmitForm && v.coverage == StandardSingleWidget
    && CleanUrl(V4, v.submissionUrl) && v.submissionUrl.origin in origins
  }

  predicate AuthorityOk(v: HumanVerification, origins: seq<Origin>) {
    && VerificationObservationOk(
         VerificationObservation(v.provider, v.activation, v.submissionUrl, v.widgetBinding, StandardSingleWidget),
         origins)
    && v.dependencies.policy == PolicyV1(v.provider)
    && 1 <= v.dependencies.maxRequests <= 256 && 1 <= v.dependencies.maxResponseBytes <= 33554432
    && 1 <= v.dependencies.timeoutMS <= 120000
  }

  predicate MatchesVerification(o: Option<VerificationObservation>, v: HumanVerification) {
    o == Some(VerificationObservation(v.provider, v.activation, v.submissionUrl, v.widgetBinding, StandardSingleWidget))
  }

  // The handoff from the session to the result builder.

  datatype Bounds = Bounds(
    navigationTimeoutMS: int, totalTimeoutMS: int, maxRequests: int, maxResponseBytes: int,
    maxObservations: int, maxCandidates: int)

  const DEFAULT_BOUNDS := Bounds(20000, 300000, 256, 33554432, 64, 128)

  predicate BoundsOk(b: Bounds) {
    && 0 < b.navigationTimeoutMS <= 60000 && b.navigationTimeoutMS <= b.totalTimeoutMS <= 1800000
    && 0 < b.maxRequests <= 4096 && 0 < b.maxResponseBytes <= 134217728
    && 0 < b.maxObservations <= 256 && 0 < b.maxCandidates <= 512
  }

  datatype NetworkSummary = NetworkSummary(
    requests: int, getRequests: int, headRequests: int,
    providerRequests: int, providerPosts: int, providerBytes: int)

  const NO_TRAFFIC := NetworkSummary(0, 0, 0, 0, 0, 0)

  predicate SummaryOk(s: NetworkSummary, maximum: int) {
    s.requests >= 0 && s.getRequests >= 0 && s.headRequests >= 0
    && s.requests == s.getRequests + s.headRequests && s.requests <= maximum
  }

  /** The network check shared by the session and the result builder. */
  predicate SummaryOkFor(s: NetworkSummary, maximum: int, p: Protocol, authority: Option<HumanVerification>) {
    && SummaryOk(s, maximum)
    && (p != V4 ==> s.providerRequests == 0 && s.providerPosts == 0 && s.providerBytes == 0 && authority.None?)
    && (p == V4 ==>
          0 <= s.providerPosts <= s.providerRequests && 0 <= s.providerBytes
          && (match authority
              case None => s.providerRequests == 0 && s.providerBytes == 0
              case Some(v) => s.providerRequests <= v.dependencies.maxRequests
                              && s.providerBytes <= v.dependencies.maxResponseBytes))
  }

  datatype ReviewedCandidate = ReviewedCandidate(id: Id, generation: int, role: Role, name: Label, matches: int)

  datatype Completion = Completion(
    protocol: Protocol, authority: Option<HumanVerification>, profileId: string, profile: Profile, source: Source,
    reviewed: seq<ReviewedCandidate>, flow: string, cleanup: Cleanup, origins: seq<Origin>, observedAt: Time,
    bounds: Bounds, observations: int, diagnostics: seq<Warning>, network: NetworkSummary,
    history: seq<Observation>, previews: seq<PreviewRecord>, stepIds: seq<Id>)

  function IdsOf(reviewed: seq<ReviewedCandidate>): seq<Id> {
    seq(|reviewed|, i requires 0 <= i < |reviewed| => reviewed[i].id)
  }

  // The submit description.

  predicate OnlySubmit(sequence: seq<Step>, i: nat) {
    i < |sequence| && sequence[i].Submit? && forall j | 0 <= j < |sequence| && sequence[j].Submit? :: j == i
  }

  predicate PortableSubmit(l: Locator) {
    l.role != OtherRole("") && l.text == "" && l.value == "" && PromotableLabel(l.name)
  }

  predicate MatchesLocator(c: ReviewedCandidate, l: Locator) {
    c.role == l.role && c.name == l.name && c.matches == 1
  }

  /** Candidate k is the only one of the first n at this locator. */
  predicate OnlyMatch(reviewed: seq<ReviewedCandidate>, l: Locator, k: nat, n: nat)
    requires n <= |reviewed|
  {
    k < n && MatchesLocator(reviewed[k], l)
    && forall j | 0 <= j < n && MatchesLocator(reviewed[j], l) :: j == k
  }

  /** The flow has one submit, portable by its accessible name, and one reviewed candidate is it. */
  predicate SubmitBound(flow: Flow, reviewed: seq<ReviewedCandidate>) {
    exists i :: 0 <= i < |flow.sequence| && OnlySubmit(flow.sequence, i) && PortableSubmit(flow.sequence[i].locator)
                && exists k :: 0 <= k < |reviewed| && OnlyMatch(reviewed, flow.sequence[i].locator, k, |reviewed|)
  }

  predicate Lower(c: char) { 'a' <= c <= 'z' }

  /** Identifiers of profiles and flows: a lower-case letter, then at most 63 of [a-z0-9_-]. */
  predicate Identifier(s: string) {
    0 < |s| <= 64 && Lower(s[0])
    && forall c <- s :: Lower(c) || '0' <= c <= '9' || c == '_' || c == '-'
  }
}
