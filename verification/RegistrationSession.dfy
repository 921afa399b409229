/**
 The registration authoring session: a server that reads client messages, drives one browser
 session, and hands a completion to the result builder. Browser, output and clock are
 nondeterministic; the browser keeps a ghost log of everything it was asked to do.
 */
module RegistrationSession {
  import opened Wrappers
  import opened PageText
  import opened RegistrationModel
  import opened Evidence
  import opened RegistrationLog
  import G = RegistrationGuard

  /**
   A browser that may refuse, fail, or return a session together with an error. A guarded one runs a network
   guard between its calls, closes cleanly only when the guard found no violation, and reports its summary.
   */
  class Browser {
    ghost var log: seq<Event>
    ghost var stage: Stage
    var next: nat
    var guard: G.Guard
    const guarded: bool
    const previews: bool
    const verifies: bool

    /** Nothing has been done out of order, and nothing that was not allowed when it was done. */
    ghost predicate Orderly()
      reads this`log, this`stage
    {
      stage == Track(log) && stage != Broken && Lawful(log)
    }

    /** The guard serves a session of this protocol and limit that has been granted this authority. */
    ghost predicate Guards(protocol: Protocol, maximum: int, authority: Option<HumanVerification>)
      reads this`guard
    {
      && guarded
      ==> G.Conserved(guard) && guard.protocol == protocol && guard.core.maxRequests == maximum && guard.authority == authority
    }

    constructor (guarded: bool, previews: bool, verifies: bool)
      ensures Orderly() && stage == Idle && this.guarded == guarded
    {
      log, stage, next, guard := [], Idle, 0, G.NewGuard(V1, [], 0, 0);
      this.guarded, this.previews, this.verifies := guarded, previews, verifies;
    }

    /** Any traffic but an approval. */
    method Traffic()
      modifies this`guard
      ensures guarded ==> G.SameTerms(old(guard), guard)
    {
      var calls: seq<G.Call> := *;
      if !G.NoApproval(calls) { calls := []; }
      if guarded {
        ghost var was := guard;
        guard := G.Run(guard, calls);
        if G.Conserved(was) { G.TrafficKeeps(was, calls); }
      }
    }

    method Open(request: BrowserRequest) returns (session: Option<nat>, ok: bool)
      requires Orderly() && stage == Idle && OpenLawful(request) && request.maxRequests >= 0 && request.maxResponseBytes >= 0
      modifies this
      ensures Orderly() && stage == if session.Some? then Inside(session.value) else Idle
      ensures log == old(log) + [if session.Some? then Opened(session.value, request, ok) else Refused(request)]
      ensures Guards(request.protocol, request.maxRequests, None)
    {
      var opens: bool := *;
      ok := *;
      session := if opens then Some(next) else None;
      Note(if opens then Opened(next, request, ok) else Refused(request));
      next, guard := next + 1, G.NewGuard(request.protocol, request.origins, request.maxRequests, request.maxResponseBytes);
      G.RunConserves(request.protocol, request.origins, request.maxRequests, request.maxResponseBytes, []);
      Traffic();
    }

    ghost method Note(e: Event)
      requires Orderly() && Next(stage, e) != Broken && EventLawful(log, e)
      modifies this`log, this`stage
      ensures Orderly() && log == old(log) + [e] && stage == Next(old(stage), e)
    {
      hide EventLawful, Lawful, Track;
      TrackNext(log, e);
      LawfulNext(log, e);
      log, stage := log + [e], Next(stage, e);
    }

    method Observe(h: nat) returns (raw: Option<RawObservation>)
      requires Orderly() && stage == Inside(h)
      modifies this`log, this`stage, this`guard
      ensures Orderly() && stage == old(stage) && log == old(log) + [Looked(h, raw)]
      ensures guarded ==> G.SameTerms(old(guard), guard)
    {
      raw := *;
      Traffic();
      Note(Looked(h, raw));
    }

    /** A navigation inside the session's origins: accepted or not. */
    method Navigate(h: nat, verb: Verb, url: Url) returns (ok: bool)
      requires Orderly() && stage == Inside(h) && NavigationLawful(log, h, verb, url)
      modifies this`log, this`stage, this`guard
      ensures Orderly() && stage == old(stage) && log == old(log) + [Navigated(h, verb, url, ok)]
      ensures guarded ==> G.SameTerms(old(guard), guard)
    {
      ok := *;
      Traffic();
      Note(Navigated(h, verb, url, ok));
    }

    /** A preview of a candidate that the page shows: accepted or not. */
    method Preview(h: nat, candidate: Candidate, request: PreviewRequest) returns (ok: bool)
      requires Orderly() && stage == Inside(h) && PreviewLawful(log, h, candidate, request)
      modifies this`log, this`stage, this`guard
      ensures Orderly() && stage == old(stage) && log == old(log) + [Previewed(h, candidate, request, ok)]
      ensures guarded ==> G.SameTerms(old(guard), guard)
    {
      ok := *;
      Traffic();
      Note(Previewed(h, candidate, request, ok));
    }

    /** Verification approval: a guarded browser accepts one when its guard does. */
    method Approve(h: nat, v: HumanVerification) returns (ok: bool)
      requires Orderly() && stage == Inside(h) && GrantLawful(log, h, v)
      modifies this`log, this`stage, this`guard
      ensures Orderly() && stage == old(stage) && log == old(log) + [Granted(h, v, ok)]
      ensures guarded && ok && G.Conserved(old(guard)) ==>
                Guards(old(guard).protocol, old(guard).core.maxRequests, Some(v))
    {
      ok := *;
      Traffic();
      if guarded {
        ghost var was := guard;
        var (after, granted) := G.Apply(guard, G.Approve(v));
        guard, ok := after, ok && granted;
        if G.Conserved(was) { G.StepConserves(was, G.Approve(v)); }
      }
      Traffic();
      Note(Granted(h, v, ok));
    }

    method Close(h: nat) returns (summary: NetworkSummary, ok: bool)
      requires Orderly() && stage == Inside(h)
      modifies this`log, this`stage, this`guard
      ensures Orderly() && stage == Idle && log == old(log) + [Closed(h, ok, summary)]
      ensures guarded && ok && G.Conserved(old(guard)) ==>
                SummaryOkFor(summary, old(guard).core.maxRequests, old(guard).protocol, old(guard).authority)
    {
      summary, ok := *, *;
      Traffic();
      if guarded {
        summary, ok := G.Summary(guard), ok && guard.core.violation.None?;
      }
      Note(Closed(h, ok, summary));
    }
  }

  datatype Phase = AwaitingStart | Observing | Reviewed | Finished

  datatype ServerMessage =
    | Hello(protocol: Protocol)
    | State(phase: Phase)
    | Observed(observation: Observation)
    | Diagnostic(code: Failure)

  /** The closed vocabulary of terminal failures. */
  datatype Failure =
    | BrowserFailure | Canceled | ClockUnavailable | InvalidBounds | InvalidCandidate | InvalidCleanup
    | InvalidFlow | InvalidNavigation | InvalidObservation | InvalidOrigin | InvalidProfile | InvalidReview
    | InvalidStart | InvalidState | InvalidSubmit | MalformedMessage | NetworkPolicy | ObservationLimit
    | OriginMismatch | ProtocolLimit | ProtocolMismatch | TeardownFailure | UnexpectedEof | UnknownMessage

  /** Page text crosses the protocol boundary only reduced, approved and with known warnings. */
  predicate Disclosable(m: ServerMessage) {
    match m
    case Observed(o) => o.origin.exact && o.path.disclosable && (forall c <- o.candidates :: SafeLabel(c.name))
                        && forall d <- o.diagnostics :: KnownWarning(d)
    case _ => true
  }

  type Sendable = m: ServerMessage | Disclosable(m) witness Hello(V1)

  /** An output that may fail at any message. Only disclosable messages can be written to it. */
  class Output {
    ghost var sent: seq<Sendable>

    constructor ()
      ensures sent == []
    {
      sent := [];
    }

    method Write(m: Sendable) returns (ok: bool)
      modifies this
      ensures sent == old(sent) + [m]
    {
      ok := *;
      sent := sent + [m];
    }
  }

  // Client messages.

  datatype Kind = StartMessage | ObserveMessage | NavigateMessage | ReviewMessage | FinishMessage | CloseMessage
                | PreviewMessage | ApproveMessage | OtherMessage(text: string)

  datatype ClientMessage = ClientMessage(
    protocol: Option<Protocol>, kind: Kind, profileId: Option<string>, url: Option<Url>,
    origins: Option<seq<Origin>>, bounds: Option<Bounds>, verb: Option<Verb>, profile: Option<Source>,
    candidateIds: Option<seq<Id>>, flow: Option<string>, cleanup: Option<Cleanup>, preview: Option<PreviewRequest>,
    stepIds: Option<seq<Id>>, candidateId: Option<Id>, verification: Option<HumanVerification>)

  datatype Field = ProfileIdField | UrlField | OriginsField | BoundsField | MethodField | ProfileField
                 | CandidateIdsField | FlowField | CleanupField | PreviewField | StepCandidatesField
                 | CandidateIdField | VerificationField

  predicate Carries(m: ClientMessage, f: Field) {
    match f
    case ProfileIdField => m.profileId.Some?
    case UrlField => m.url.Some?
    case OriginsField => m.origins.Some?
    case BoundsField => m.bounds.Some?
    case MethodField => m.verb.Some?
    case ProfileField => m.profile.Some?
    case CandidateIdsField => m.candidateIds.Some?
    case FlowField => m.flow.Some?
    case CleanupField => m.cleanup.Some?
    case PreviewField => m.preview.Some?
    case StepCandidatesField => m.stepIds.Some?
    case CandidateIdField => m.candidateId.Some?
    case VerificationField => m.verification.Some?
  }

  /** The fields a message of this type and protocol may carry besides those two. */
  function Allowed(protocol: Option<Protocol>, kind: Kind): set<Field> {
    var typed := protocol.Some? && Typed(protocol.value);
    match kind
    case StartMessage => {ProfileIdField, UrlField, OriginsField, BoundsField}
    case NavigateMessage => {MethodField, UrlField}
    case ReviewMessage =>
      {ProfileField, CandidateIdsField, FlowField, CleanupField} + if typed then {StepCandidatesField} else {}
    case PreviewMessage => if typed then {PreviewField} else {}
    case ApproveMessage => if protocol == Some(V4) then {CandidateIdField, VerificationField} else {}
    case _ => {}
  }

  /** `decodeClientMessage`: None for a line that is malformed or carries a field its type does not admit. */
  function Decode(line: Option<ClientMessage>): Option<ClientMessage> {
    if line.Some? && forall f :: Carries(line.value, f) ==> f in Allowed(line.value.protocol, line.value.kind)
    then line else None
  }

  /** The whitelist keeps version-specific authority out of older protocols. */
  lemma WhitelistSeparatesVersions(line: Option<ClientMessage>, m: ClientMessage)
    requires Decode(line) == Some(m)
    ensures m.stepIds.Some? ==> m.kind == ReviewMessage && m.protocol.Some? && Typed(m.protocol.value)
    ensures m.preview.Some? ==> m.kind == PreviewMessage && m.protocol.Some? && Typed(m.protocol.value)
    ensures m.verification.Some? || m.candidateId.Some? ==> m.kind == ApproveMessage && m.protocol == Some(V4)
    ensures m.profile.Some? ==> m.kind == ReviewMessage
  {
    assert Carries(m, StepCandidatesField) ==> m.stepIds.Some?;
    assert Carries(m, PreviewField) ==> m.preview.Some?;
    assert Carries(m, VerificationField) || Carries(m, CandidateIdField) ==> m.verification.Some? || m.candidateId.Some?;
    assert Carries(m, ProfileField) ==> m.profile.Some?;
  }

  // What the session knows.

  datatype Review = Review(
    profile: Profile, source: Source, candidates: seq<ReviewedCandidate>, flow: string, cleanup: Cleanup, stepIds: seq<Id>)

  /** What `start` fixes for the rest of the session. */
  datatype Scope = Scope(protocol: Protocol, bounds: Bounds, origins: seq<Origin>)

  datatype Snapshot = Snapshot(
    scope: Scope, observations: int, generation: int,
    candidates: map<Id, Record>, history: seq<Observation>, previews: seq<PreviewRecord>,
    observedAt: Time, diagnostics: seq<Warning>, authority: Option<HumanVerification>)

  predicate OriginsOk(origins: seq<Origin>) {
    && 0 < |origins| <= 32
    && (forall o <- origins :: o.exact)
    && (forall i | 0 < i < |origins| :: TextLe(origins[i - 1].text, origins[i].text) && origins[i - 1] != origins[i])
  }

  predicate DiagnosticsOk(s: seq<Warning>) {
    |s| <= MAX_DIAGNOSTICS && CanonicalWarnings(s)
  }

  predicate ReducedCandidateOk(s: Scope, generation: int, c: Candidate, k: nat) {
    && c.id == CandidateId(generation, c.role, c.name, k)
    && PortableRole(c.role) && SafeLabel(c.name) && 1 <= c.matches <= s.bounds.maxCandidates
    && (c.control.Some? ==> Typed(s.protocol) && Promotable(c) && ControlOk(c.control.value))
    && (c.verification.Some? ==> s.protocol == V4 && VerificationObservationOk(c.verification.value, s.origins))
  }

  /** What a backend may report of one candidate. */
  predicate Reducible(s: Scope, raw: RawCandidate) {
    && raw.wellFormed && PortableRole(raw.role) && SafeLabel(raw.name) && 1 <= raw.matches <= s.bounds.maxCandidates
    && (Typed(s.protocol) && raw.control.Some? && PromotableLabel(raw.name) ==> ControlOk(raw.control.value))
    && (s.protocol == V4 && raw.verification.Some? ==> VerificationObservationOk(raw.verification.value, s.origins))
  }

  /** The k-th candidate is the report with a bound identifier; control and widget pass only where the version has them. */
  predicate Reduces(s: Scope, generation: int, raw: RawCandidate, k: nat, c: Candidate) {
    && c.id == CandidateId(generation, raw.role, raw.name, k)
    && c.role == raw.role && c.name == raw.name && c.matches == raw.matches
    && c.control == (if Typed(s.protocol) && PromotableLabel(raw.name) then raw.control else None)
    && c.verification == (if s.protocol == V4 then raw.verification else None)
  }

  /** A reduced observation of one generation: approved origin, safe path, safe and distinct candidates. */
  predicate ReducedOk(s: Scope, o: Observation) {
    && o.origin.exact && o.origin in s.origins && o.path.disclosable
    && |o.candidates| <= s.bounds.maxCandidates
    && (forall k | 0 <= k < |o.candidates| :: ReducedCandidateOk(s, o.generation, o.candidates[k], k))
    && (forall i, j | 0 <= i < j < |o.candidates| ::
          o.candidates[i].role != o.candidates[j].role || o.candidates[i].name != o.candidates[j].name)
    && DiagnosticsOk(o.diagnostics)
  }

  lemma ReducedDisclosable(s: Scope, o: Observation)
    requires ReducedOk(s, o)
    ensures Disclosable(Observed(o))
  {
    forall c <- o.candidates ensures SafeLabel(c.name) {
      var k :| 0 <= k < |o.candidates| && o.candidates[k] == c;
      assert ReducedCandidateOk(s, o.generation, o.candidates[k], k);
    }
  }

  /** The reduced observation is the report, candidate by candidate, with the reported warnings. */
  predicate ReducedFrom(s: Scope, raw: RawObservation, o: Observation) {
    && o.origin == raw.origin && o.path == raw.path && |o.candidates| == |raw.candidates|
    && (forall k | 0 <= k < |raw.candidates| :: Reduces(s, o.generation, raw.candidates[k], k, o.candidates[k]))
    && Elements(o.diagnostics) == Elements(raw.diagnostics)
  }

  /** Every actionable candidate was reported by the newest observation. */
  ghost predicate CandidatesCurrent(s: Snapshot) {
    && (forall id <- s.candidates ::
          s.candidates[id].generation == s.generation && s.candidates[id].candidate.id == id
          && id.CandidateId? && ReducedCandidateOk(s.scope, s.generation, s.candidates[id].candidate, id.ordinal))
    && (Typed(s.scope.protocol) ==> forall id <- s.candidates :: Find(s.history, id) == Some(s.candidates[id]))
  }

  /** The invariant of a live session. */
  ghost predicate Consistent(s: Snapshot) {
    && BoundsOk(s.scope.bounds) && OriginsOk(s.scope.origins)
    && 0 <= s.generation == s.observations <= s.scope.bounds.maxObservations
    && (Typed(s.scope.protocol) ==> |s.history| == s.observations)
    && (!Typed(s.scope.protocol) ==> s.history == [] && s.previews == [])
    && (forall i | 0 <= i < |s.history| :: s.history[i].generation == i + 1 && ReducedOk(s.scope, s.history[i]))
    && PreviewsOk(s.history, s.previews)
    && CandidatesCurrent(s)
    && (s.observations > 0 ==> CanonicalTime(s.observedAt))
    && DiagnosticsOk(s.diagnostics)
    && (s.authority.Some? ==> s.scope.protocol == V4 && AuthorityOk(s.authority.value, s.scope.origins))
  }

  /** The records are exactly the candidates of observation o. */
  ghost predicate RecordsOf(records: map<Id, Record>, o: Observation) {
    && (forall id :: id in records ==>
          id.CandidateId? && id.ordinal < |o.candidates| && o.candidates[id.ordinal].id == id
          && records[id] == Record(o.candidates[id.ordinal], o.generation))
    && forall k | 0 <= k < |o.candidates| :: o.candidates[k].id in records
  }

  lemma FindKept(history: seq<Observation>, o: Observation, id: Id)
    requires Find(history, id).Some?
    ensures Find(history + [o], id) == Find(history, id)
  {
  }

  lemma PreviewsKept(history: seq<Observation>, o: Observation, previews: seq<PreviewRecord>)
    requires PreviewsOk(history, previews)
    ensures PreviewsOk(history + [o], previews)
  {
    forall q <- previews ensures PreviewAt(history + [o], q) {
      assert PreviewAt(history, q);
      FindKept(history, o, q.request.id);
    }
  }

  lemma ConsistentFacts(s: Snapshot)
    requires Consistent(s)
    ensures BoundsOk(s.scope.bounds) && OriginsOk(s.scope.origins) && DiagnosticsOk(s.diagnostics)
    ensures 0 <= s.generation == s.observations <= s.scope.bounds.maxObservations
    ensures s.scope.protocol != V4 ==> s.authority.None?
  {
  }

  lemma DefaultBoundsOk()
    ensures BoundsOk(DEFAULT_BOUNDS)
  {
  }

  lemma StartConsistent(scope: Scope, at: Time)
    requires BoundsOk(scope.bounds) && OriginsOk(scope.origins)
    ensures Consistent(Snapshot(scope, 0, 0, map[], [], [], at, [], None))
  {
  }

  /** What an observation changes and what it leaves alone. */
  ghost predicate Advanced(s: Snapshot, s': Snapshot) {
    && s'.scope == s.scope && s'.previews == s.previews && s'.authority == s.authority
    && s'.generation == s.generation + 1
    && (Typed(s.scope.protocol) ==> |s'.history| == |s.history| + 1 && s'.history[..|s.history|] == s.history)
  }

  lemma CountKeeps(s: Snapshot, observations: int, diagnostics: seq<Warning>)
    requires Consistent(s) && DiagnosticsOk(diagnostics)
    ensures Consistent(s.(observations := observations, diagnostics := diagnostics).(observations := s.generation))
  {
  }

  /** A further observation replaces every candidate and keeps the invariant. */
  lemma ObservationKeeps(s: Snapshot, o: Observation, records: map<Id, Record>, at: Time, diagnostics: seq<Warning>)
    returns (s': Snapshot)
    requires Consistent(s.(observations := s.generation))
    requires s.observations == s.generation + 1 <= s.scope.bounds.maxObservations
    requires ReducedOk(s.scope, o) && o.generation == s.generation + 1 && CanonicalTime(at) && DiagnosticsOk(diagnostics)
    requires RecordsOf(records, o)
    ensures s' == s.(generation := o.generation, candidates := records, observedAt := at, diagnostics := diagnostics,
                     history := if Typed(s.scope.protocol) then s.history + [o] else s.history)
    ensures Consistent(s')
  {
    s' := s.(generation := o.generation, candidates := records, observedAt := at, diagnostics := diagnostics,
             history := if Typed(s.scope.protocol) then s.history + [o] else s.history);
    if Typed(s.scope.protocol) {
      PreviewsKept(s.history, o, s.previews);
    }
    forall id <- records
      ensures records[id].generation == s'.generation && records[id].candidate.id == id && id.CandidateId?
      ensures ReducedCandidateOk(s'.scope, s'.generation, records[id].candidate, id.ordinal)
      ensures Typed(s.scope.protocol) ==> Find(s'.history, id) == Some(records[id])
    {
      assert ReducedCandidateOk(s.scope, o.generation, o.candidates[id.ordinal], id.ordinal);
    }
  }

  /** A preview that was carried out and followed by an observation passes the evidence checker. */
  lemma PreviewKeeps(s: Snapshot, before: Snapshot, request: PreviewRequest)
    requires Consistent(before) && Consistent(s) && Typed(s.scope.protocol)
    requires Advanced(before.(candidates := map[]), s)
    requires request.id in before.candidates && before.candidates[request.id].generation == request.generation
    requires PreviewOk(before.candidates[request.id].candidate, request)
    ensures Consistent(s.(previews := s.previews + [PreviewRecord(request, s.generation)]))
  {
    var q := PreviewRecord(request, s.generation);
    assert s.history == before.history + [s.history[|before.history|]];
    FindKept(before.history, s.history[|before.history|], request.id);
    assert PreviewAt(s.history, q);
    forall i | 0 <= i < |before.previews| ensures before.previews[i].nextGeneration < q.nextGeneration {
      assert PreviewAt(before.history, before.previews[i]);
    }
    var s' := s.(previews := s.previews + [q]);
    assert PreviewsOk(s'.history, s'.previews);
  }

  /** Fields that the invariant does not tie to anything but the newest generation may be cleared or set. */
  lemma ClearKeeps(s: Snapshot)
    requires Consistent(s)
    ensures Consistent(s.(candidates := map[]))
  {
  }

  lemma ApprovalKeeps(s: Snapshot, v: HumanVerification)
    requires Consistent(s) && s.scope.protocol == V4 && AuthorityOk(v, s.scope.origins)
    ensures Consistent(s.(authority := Some(v)))
  {
  }

  // What a review establishes and a completion carries.

  function ReviewedOf(r: Record): ReviewedCandidate {
    ReviewedCandidate(r.candidate.id, r.generation, r.candidate.role, r.candidate.name, r.candidate.matches)
  }

  /** Where a review may take candidates from: the whole history, or the newest observation. */
  function Available(s: Snapshot, id: Id): Option<Record> {
    if Typed(s.scope.protocol) then Find(s.history, id)
    else if id in s.candidates then Some(s.candidates[id]) else None
  }

  /** A candidate that was observed, is unique and may be disclosed by name. */
  predicate Selectable(s: Snapshot, id: Id) {
    var r := Available(s, id);
    r.Some? && r.value.candidate.matches == 1 && Promotable(r.value.candidate)
  }

  function Selected(s: Snapshot, ids: seq<Id>): seq<ReviewedCandidate>
    requires forall id <- ids :: Selectable(s, id)
  {
    seq(|ids|, i requires 0 <= i < |ids| => assert Selectable(s, ids[i]); ReviewedOf(Available(s, ids[i]).value))
  }

  predicate ReviewedOk(s: Snapshot, c: ReviewedCandidate) {
    var r := Available(s, c.id);
    r.Some? && c == ReviewedOf(r.value) && c.matches == 1 && PromotableLabel(c.name)
  }

  predicate ReviewOk(s: Snapshot, r: Review) {
    && s.observations > 0
    && Marshal(r.profile) == Some(r.source)
    && r.profile.observationKind == AccessibilitySnapshot && r.profile.schema == SchemaFor(s.scope.protocol)
    && r.profile.origins == s.scope.origins
    && (s.scope.protocol != V1 ==> RetainedNavigation(r.profile))
    && Identifier(r.flow) && r.flow in r.profile.flows && !r.cleanup.OtherCleanup?
    && (s.scope.protocol == V4 ==> s.authority.Some? && s.authority == r.profile.flows[r.flow].verification)
    && 0 < |r.candidates| <= s.scope.bounds.maxCandidates
    && SortedIds(IdsOf(r.candidates)) && Distinct(IdsOf(r.candidates))
    && (forall c <- r.candidates :: ReviewedOk(s, c))
    && (if Typed(s.scope.protocol)
        then TypedEvidence(s.scope.protocol, r.profile, r.flow, s.history, s.previews, r.stepIds, IdsOf(r.candidates))
        else r.stepIds == [])
    && SubmitBound(r.profile.flows[r.flow], r.candidates)
  }

  function Complete(s: Snapshot, profileId: string, r: Review, summary: NetworkSummary): Completion {
    Completion(s.scope.protocol, s.authority, profileId, r.profile, r.source, r.candidates, r.flow, r.cleanup,
               s.scope.origins, s.observedAt, s.scope.bounds, s.observations, s.diagnostics, summary,
               s.history, s.previews, r.stepIds)
  }

  /** What the session promises about every completion it returns. */
  ghost predicate Handoff(c: Completion) {
    exists s, profileId, r, summary :: HandoffOf(c, s, profileId, r, summary)
  }

  ghost predicate HandoffOf(c: Completion, s: Snapshot, profileId: string, r: Review, summary: NetworkSummary) {
    && c == Complete(s, profileId, r, summary)
    && Consistent(s) && ReviewOk(s, r) && Identifier(profileId)
    && SummaryOkFor(summary, s.scope.bounds.maxRequests, s.scope.protocol, s.authority)
  }
}
