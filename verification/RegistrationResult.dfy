/**
 The registration authoring result: built from a completion, and verified by rebuilding it.
 */
module RegistrationResult {
  import opened Wrappers
  import opened PageText
  import opened RegistrationModel
  import opened Evidence

  // The review bundle inside the result.

  datatype Digest = OfSource(source: Source) | OfReview(bundle: Bundle) | OtherDigest(text: string)

  /** Text of an instant; `Rfc3339` holds what the canonical layout keeps of it. */
  datatype Stamp = Rfc3339(nanos: int) | OtherStamp(text: string)

  datatype ReviewVersion = ReviewFor(schema: Schema) | OtherReview(text: string)

  datatype Gap = ProfileExpired | OtherGap(text: string)

  datatype Bundle = Bundle(
    version: ReviewVersion, profile: Profile, profileDigest: Digest, assessedAt: Stamp, expiresAt: Stamp,
    promotable: bool, gaps: seq<Gap>)

  /** The layout has no fraction of a second. */
  function Format(nanos: int): Stamp { Rfc3339(nanos - nanos % SECOND) }

  function ParseStamp(s: Stamp): Option<Time> {
    if s.Rfc3339? && s.nanos % SECOND == 0 then Some(Time(s.nanos, true)) else None
  }

  function BundleVersion(s: Schema): ReviewVersion {
    ReviewFor(if s == Schema11 || s == Schema12 then s else Schema10)
  }

  function BuildBundle(p: Profile, at: Time): Option<Bundle> {
    if at.nanos == 0 || Marshal(p).None? || !VerifiedAt(p, at) || p.expiresAt.None? then None
    else
      var current := at.nanos < p.expiresAt.value;
      Some(Bundle(BundleVersion(p.schema), p, OfSource(Canonical(p)), Format(at.nanos), Format(p.expiresAt.value),
                  current, if current then [] else [ProfileExpired]))
  }

  /** The embedded review is intact, was made no later than `at`, and its profile is still current. */
  predicate BundleVerifies(b: Bundle, at: Time) {
    && at.nanos != 0 && b.version == BundleVersion(b.profile.schema)
    && var assessed := ParseStamp(b.assessedAt);
    && assessed.Some? && assessed.value.nanos <= at.nanos
    && VerifiedAt(b.profile, assessed.value)
    && Marshal(b.profile).Some? && b.profileDigest == OfSource(Marshal(b.profile).value)
    && b.profile.expiresAt.Some? && b.expiresAt == Format(b.profile.expiresAt.value)
    && b.promotable == (assessed.value.nanos < b.profile.expiresAt.value)
    && b.gaps == (if b.promotable then [] else [ProfileExpired])
    && CurrentAt(b.profile, at) && b.promotable
  }

  // The envelope.

  datatype ResultSchema = ResultOf(protocol: Protocol) | OtherResult(text: string)
  datatype SessionVersion = SessionOf(protocol: Protocol) | OtherSession(text: string)
  datatype Producer = Browsertools | OtherProducer(text: string)

  datatype Provenance = Provenance(producer: Producer, resultVersion: ResultSchema, sessionVersion: SessionVersion)

  datatype CandidateSource = CandidateSource(
    profileId: string, schema: Schema, sourceDigest: Digest, source: Source, reviewDigest: Digest, review: Bundle)

  datatype SubmitReview = SubmitReview(index: nat, locator: Locator, id: Id, generation: int, executed: bool)

  datatype CheckpointReview = CheckpointReview(index: nat, kind: string, locator: Option<Locator>)

  /** The slot inventory and the effects are listed in sorted order, so the map and the multiset fix them. */
  datatype FlowReview = FlowReview(
    name: string, slots: map<string, CredentialKind>, effects: multiset<Effect>, confirmationRequired: bool,
    submit: SubmitReview, checkpoints: seq<CheckpointReview>, success: Locator)

  datatype Rule = RegistrationApproval | OperatorAttestation | FailOnDuplicate | StopWithoutRetry | OtherRule(text: string)

  datatype CallPolicy = CallPolicy(
    approvalSymbol: Rule, duplicatePrevention: Rule, onDuplicate: Rule, ambiguousOutcome: Rule, cleanup: Cleanup)

  datatype HttpMethod = GET | HEAD | POST | OtherMethod(text: string)

  datatype NetworkPosture = NetworkPosture(
    traffic: NetworkSummary, methods: seq<HttpMethod>, mutationRequests: int, submitExecuted: bool,
    accountAttempted: bool, sessionEstablished: bool, runtimeSupported: bool)

  datatype Envelope = Envelope(
    authority: Option<HumanVerification>, schema: ResultSchema, provenance: Provenance,
    createdAt: Stamp, observedAt: Stamp, expiresAt: Stamp, origins: seq<Origin>, candidate: CandidateSource,
    reviewed: seq<ReviewedCandidate>, flow: FlowReview, callPolicy: CallPolicy, bounds: Bounds, observations: int,
    network: NetworkPosture, diagnostics: seq<Warning>, history: seq<Observation>, previews: seq<PreviewRecord>,
    stepIds: seq<Id>)

  // The flow review.

  /** The first submit at or after i. */
  function FirstSubmit(sequence: seq<Step>, i: nat): (r: Option<nat>)
    requires i <= |sequence|
    ensures r.Some? ==> i <= r.value < |sequence| && sequence[r.value].Submit?
                        && forall j | i <= j < r.value :: !sequence[j].Submit?
    ensures r.None? ==> forall j | i <= j < |sequence| :: !sequence[j].Submit?
    decreases |sequence| - i
  {
    if i == |sequence| then None else if sequence[i].Submit? then Some(i) else FirstSubmit(sequence, i + 1)
  }

  function SubmitIndex(sequence: seq<Step>): (r: Option<nat>)
    ensures r.Some? ==> OnlySubmit(sequence, r.value)
    ensures r.None? ==> forall i :: 0 <= i < |sequence| ==> !OnlySubmit(sequence, i)
  {
    var first := FirstSubmit(sequence, 0);
    if first.Some? && FirstSubmit(sequence, first.value + 1).None? then first else None
  }

  /** The first reviewed candidate at this locator from position i. */
  function FirstMatch(reviewed: seq<ReviewedCandidate>, l: Locator, i: nat): (r: Option<nat>)
    requires i <= |reviewed|
    ensures r.Some? ==> i <= r.value < |reviewed| && MatchesLocator(reviewed[r.value], l)
                        && forall j | i <= j < r.value :: !MatchesLocator(reviewed[j], l)
    ensures r.None? ==> forall j | i <= j < |reviewed| :: !MatchesLocator(reviewed[j], l)
    decreases |reviewed| - i
  {
    if i == |reviewed| then None else if MatchesLocator(reviewed[i], l) then Some(i) else FirstMatch(reviewed, l, i + 1)
  }

  function MatchIndex(reviewed: seq<ReviewedCandidate>, l: Locator): (r: Option<nat>)
    ensures r.Some? ==> r.value < |reviewed| && OnlyMatch(reviewed, l, r.value, |reviewed|)
    ensures r.None? ==> forall k :: 0 <= k < |reviewed| ==> !OnlyMatch(reviewed, l, k, |reviewed|)
  {
    var first := FirstMatch(reviewed, l, 0);
    if first.Some? && FirstMatch(reviewed, l, first.value + 1).None? then first else None
  }

  function Checkpoints(sequence: seq<Step>, n: nat): seq<CheckpointReview>
    requires n <= |sequence|
  {
    if n == 0 then []
    else
      Checkpoints(sequence, n - 1)
      + match sequence[n - 1]
        case HumanCheckpoint(kind, at) => [CheckpointReview(n - 1, kind, at)]
        case _ => []
  }

  function FlowReviewOf(c: Completion, flow: Flow): Option<FlowReview> {
    if !flow.confirmationRequired || CreatesAccount !in flow.effects then None
    else
      var i := SubmitIndex(flow.sequence);
      if i.None? || !PortableSubmit(flow.sequence[i.value].locator) then None
      else
        var l := flow.sequence[i.value].locator;
        var k := MatchIndex(c.reviewed, l);
        if k.None? then None
        else
          Some(FlowReview(c.flow, c.profile.credentialSlots, multiset(flow.effects), true,
                          SubmitReview(i.value, l, c.reviewed[k.value].id, c.reviewed[k.value].generation, false),
                          Checkpoints(flow.sequence, |flow.sequence|), flow.success))
  }

  lemma SubmitIndexIs(sequence: seq<Step>, i: nat)
    requires OnlySubmit(sequence, i)
    ensures SubmitIndex(sequence) == Some(i)
  {
  }

  lemma TwoSubmits(sequence: seq<Step>, i: nat, j: nat)
    requires i < j < |sequence| && sequence[i].Submit? && sequence[j].Submit?
    ensures SubmitIndex(sequence).None?
  {
  }

  lemma NoSubmit(sequence: seq<Step>)
    requires forall j | 0 <= j < |sequence| :: !sequence[j].Submit?
    ensures SubmitIndex(sequence).None?
  {
  }

  /** One pass over the recipe finds the submit and lists the checkpoints; a second one the candidate. */
  method BuildFlowReview(c: Completion, flow: Flow) returns (r: Option<FlowReview>)
    ensures r == FlowReviewOf(c, flow)
  {
    if !flow.confirmationRequired || CreatesAccount !in flow.effects { return None; }
    var checkpoints: seq<CheckpointReview>, submit: Option<nat> := [], None;
    for i := 0 to |flow.sequence|
      invariant checkpoints == Checkpoints(flow.sequence, i)
      invariant submit.Some? ==> submit.value < i && flow.sequence[submit.value].Submit?
      invariant forall j | 0 <= j < i && flow.sequence[j].Submit? :: submit == Some(j)
    {
      var step := flow.sequence[i];
      if step.Submit? {
        if submit.Some? {
          TwoSubmits(flow.sequence, submit.value, i);
          return None;
        }
        submit := Some(i);
      }
      if step.HumanCheckpoint? { checkpoints := checkpoints + [CheckpointReview(i, step.kind, step.at)]; }
    }
    if submit.None? {
      NoSubmit(flow.sequence);
      return None;
    }
    SubmitIndexIs(flow.sequence, submit.value);
    var l := flow.sequence[submit.value].locator;
    if !PortableSubmit(l) { return None; }
    var matching: seq<nat> := [];
    for k := 0 to |c.reviewed|
      invariant forall x | 0 <= x < |matching| :: matching[x] < k && MatchesLocator(c.reviewed[matching[x]], l)
      invariant forall j | 0 <= j < k && MatchesLocator(c.reviewed[j], l) :: j in matching
      invariant forall x, y | 0 <= x < y < |matching| :: matching[x] < matching[y]
    {
      if MatchesLocator(c.reviewed[k], l) { matching := matching + [k]; }
    }
    if |matching| != 1 {
      NotOneMatch(c.reviewed, l, matching);
      return None;
    }
    assert OnlyMatch(c.reviewed, l, matching[0], |c.reviewed|);
    r := Some(FlowReview(c.flow, c.profile.credentialSlots, multiset(flow.effects), true,
                         SubmitReview(submit.value, l, c.reviewed[matching[0]].id, c.reviewed[matching[0]].generation, false),
                         checkpoints, flow.success));
  }

  lemma NotOneMatch(reviewed: seq<ReviewedCandidate>, l: Locator, matching: seq<nat>)
    requires |matching| != 1
    requires forall x | 0 <= x < |matching| :: matching[x] < |reviewed| && MatchesLocator(reviewed[matching[x]], l)
    requires forall j | 0 <= j < |reviewed| && MatchesLocator(reviewed[j], l) :: j in matching
    requires forall x, y | 0 <= x < y < |matching| :: matching[x] < matching[y]
    ensures MatchIndex(reviewed, l).None?
  {
    if |matching| > 1 {
      assert matching[0] < matching[1];
    }
  }

  // Canonical lists.

  predicate ShapedId(id: Id) { id.CandidateId? || (id.OtherId? && id.shaped) }

  predicate ReviewedEntryOk(r: ReviewedCandidate, observations: int, p: Protocol) {
    ShapedId(r.id) && 1 <= r.generation <= observations && (!Typed(p) ==> r.generation == observations)
    && r.matches == 1 && PortableRole(r.role) && PromotableLabel(r.name)
  }

  predicate ReviewedCanonical(values: seq<ReviewedCandidate>, observations: int, maximum: int, p: Protocol) {
    && 0 < |values| <= maximum && SortedIds(IdsOf(values)) && Distinct(IdsOf(values))
    && forall r <- values :: ReviewedEntryOk(r, observations, p)
  }

  method CanonicalReviewed(values: seq<ReviewedCandidate>, observations: int, maximum: int, p: Protocol)
    returns (ok: bool)
    ensures ok <==> ReviewedCanonical(values, observations, maximum, p)
  {
    if |values| == 0 || |values| > maximum || maximum <= 0 || !SortedIds(IdsOf(values)) { return false; }
    var seen: set<Id> := {};
    for i := 0 to |values|
      invariant forall j | 0 <= j < i :: ReviewedEntryOk(values[j], observations, p)
      invariant forall j, k | 0 <= j < k < i :: values[j].id != values[k].id
      invariant forall x :: x in seen <==> exists j :: 0 <= j < i && values[j].id == x
    {
      if !ReviewedEntryOk(values[i], observations, p) {
        assert values[i] in values;
        return false;
      }
      if values[i].id in seen {
        var j :| 0 <= j < i && values[j].id == values[i].id;
        assert IdsOf(values)[j] == IdsOf(values)[i];
        return false;
      }
      seen := seen + {values[i].id};
    }
    ok := true;
  }

  method CanonicalDiagnostics(values: seq<Warning>) returns (ok: bool)
    ensures ok <==> |values| <= MAX_DIAGNOSTICS && CanonicalWarnings(values)
  {
    if |values| > MAX_DIAGNOSTICS { return false; }
    for i := 0 to |values|
      invariant forall j | 0 <= j < i :: KnownWarning(values[j])
      invariant forall j | 0 < j < i :: WarningRank(values[j - 1]) < WarningRank(values[j])
    {
      if !KnownWarning(values[i]) || (i > 0 && WarningRank(values[i - 1]) >= WarningRank(values[i])) {
        assert values[i] in values;
        return false;
      }
    }
    ok := true;
  }

  // Build.

  /** The evidence a completion carries fits its protocol. */
  predicate EvidenceOk(c: Completion) {
    if Typed(c.protocol) then
      |c.history| == c.observations
      && TypedEvidence(c.protocol, c.profile, c.flow, c.history, c.previews, c.stepIds, IdsOf(c.reviewed))
      && forall r <- c.reviewed ::
           var found := Find(c.history, r.id);
           found.Some? && r == ReviewedCandidate(found.value.candidate.id, found.value.generation,
                                                 found.value.candidate.role, found.value.candidate.name,
                                                 found.value.candidate.matches)
    else c.history == [] && c.previews == [] && c.stepIds == []
  }

  predicate BoundsHold(c: Completion) {
    SummaryOkFor(c.network, c.bounds.maxRequests, c.protocol, c.authority)
    && BoundsOk(c.bounds) && 0 < c.observations <= c.bounds.maxObservations
  }

  /** What Build checks of the call, apart from the creation time and the flow review. */
  predicate CompletionOk(c: Completion) {
    && EvidenceOk(c)
    && CanonicalTime(c.observedAt)
    && Identifier(c.profileId) && Identifier(c.flow) && !c.cleanup.OtherCleanup?
    && Marshal(c.profile) == Some(c.source)
    && (c.protocol != V1 ==> RetainedNavigation(c.profile))
    && c.profile.schema == SchemaFor(c.protocol) && c.profile.observationKind == AccessibilitySnapshot
    && c.profile.origins == c.origins && c.origins != []
    && BoundsHold(c)
    && c.flow in c.profile.flows
    && |c.diagnostics| <= MAX_DIAGNOSTICS && CanonicalWarnings(c.diagnostics)
    && ReviewedCanonical(c.reviewed, c.observations, c.bounds.maxCandidates, c.protocol)
    && (c.protocol == V4 ==> c.authority.Some? && c.authority == c.profile.flows[c.flow].verification)
  }

  function Methods(p: Protocol): seq<HttpMethod> {
    if p == V4 then [GET, HEAD, POST] else [GET, HEAD]
  }

  function Build(c: Completion, at: Time): Option<Envelope> {
    if !CompletionOk(c) || !CanonicalTime(at) || at.nanos < c.observedAt.nanos || !CurrentAt(c.profile, at) then None
    else
      var flow := FlowReviewOf(c, c.profile.flows[c.flow]);
      var review := BuildBundle(c.profile, at);
      if flow.None? || review.None? || !review.value.promotable || review.value.gaps != [] then None
      else
        Some(Envelope(
          c.authority, ResultOf(c.protocol), Provenance(Browsertools, ResultOf(c.protocol), SessionOf(c.protocol)),
          Format(at.nanos), Format(c.observedAt.nanos), Format(c.profile.expiresAt.value), c.origins,
          CandidateSource(c.profileId, c.profile.schema, OfSource(c.source), c.source, OfReview(review.value), review.value),
          c.reviewed, flow.value,
          CallPolicy(RegistrationApproval, OperatorAttestation, FailOnDuplicate, StopWithoutRetry, c.cleanup),
          c.bounds, c.observations,
          NetworkPosture(c.network, Methods(c.protocol), 0, false, false, false, false),
          c.diagnostics, c.history, c.previews, c.stepIds))
  }

  // Verify.

  /** The protocol the version triple names; anything inconsistent is taken for the oldest. */
  function ProtocolOf(e: Envelope): Protocol {
    if e.schema.ResultOf? && e.provenance.resultVersion == e.schema
       && e.provenance.sessionVersion == SessionOf(e.schema.protocol)
    then e.schema.protocol else V1
  }

  function CompletionOf(e: Envelope, profile: Profile, observedAt: Time): Completion {
    Completion(ProtocolOf(e), e.authority, e.candidate.profileId, profile, e.candidate.source, e.reviewed, e.flow.name,
               e.callPolicy.cleanup, e.origins, observedAt, e.bounds, e.observations, e.diagnostics,
               e.network.traffic, e.history, e.previews, e.stepIds)
  }

  function Rebuild(e: Envelope): Option<Envelope> {
    var createdAt, observedAt, profile := ParseStamp(e.createdAt), ParseStamp(e.observedAt), Parse(e.candidate.source);
    if createdAt.None? || observedAt.None? || profile.None? then None
    else Build(CompletionOf(e, profile.value, observedAt.value), createdAt.value)
  }

  predicate Verify(e: Envelope, at: Time) {
    at.nanos != 0 && Rebuild(e) == Some(e) && BundleVerifies(e.candidate.review, at)
  }

  // What the two guarantee together.

  lemma RebuildIsIdentity(c: Completion, created: Time, e: Envelope)
    requires Build(c, created) == Some(e)
    ensures Rebuild(e) == Some(e)
  {
    hide CompletionOk, CurrentAt, FlowReviewOf, BuildBundle;
    BuiltFrom(c, created);
    assert ProtocolOf(e) == c.protocol;
    assert CompletionOf(e, c.profile, c.observedAt) == c;
  }

  lemma BuiltFrom(c: Completion, created: Time)
    requires Build(c, created).Some?
    ensures Parse(c.source) == Some(c.profile)
    ensures ParseStamp(Format(created.nanos)) == Some(created)
    ensures ParseStamp(Format(c.observedAt.nanos)) == Some(c.observedAt)
    ensures var f := FlowReviewOf(c, c.profile.flows[c.flow]); f.Some? && f.value.name == c.flow
  {
    hide EvidenceOk, BoundsHold, ReviewedCanonical, RetainedNavigation, CanonicalWarnings;
  }

  lemma BuiltReview(c: Completion, created: Time, e: Envelope, at: Time)
    requires Build(c, created) == Some(e)
    ensures c.profile.expiresAt.Some?
    ensures BundleVerifies(e.candidate.review, at) <==> created.nanos <= at.nanos < c.profile.expiresAt.value && at.nanos != 0
  {
    hide CompletionOk, FlowReviewOf;
    assert CanonicalTime(created);
  }

  /**
   Fixpoint: what Build returns verifies exactly from its creation until the expiry of its profile.
   */
  lemma BuildVerifies(c: Completion, created: Time, e: Envelope, at: Time)
    requires Build(c, created) == Some(e)
    ensures c.profile.expiresAt.Some?
    ensures Verify(e, at) <==> created.nanos <= at.nanos < c.profile.expiresAt.value && at.nanos != 0
  {
    hide CompletionOk, Build, BundleVerifies;
    RebuildIsIdentity(c, created, e);
    BuiltReview(c, created, e, at);
  }

  /** The inputs of a result: everything else in an envelope is derived. */
  datatype Inputs = Inputs(
    protocol: Protocol, authority: Option<HumanVerification>, createdAt: Stamp, observedAt: Stamp,
    profileId: string, source: Source, flow: string, cleanup: Cleanup, origins: seq<Origin>,
    reviewed: seq<ReviewedCandidate>, bounds: Bounds, observations: int, traffic: NetworkSummary,
    diagnostics: seq<Warning>, history: seq<Observation>, previews: seq<PreviewRecord>, stepIds: seq<Id>)

  function InputsOf(e: Envelope): Inputs {
    Inputs(ProtocolOf(e), e.authority, e.createdAt, e.observedAt, e.candidate.profileId, e.candidate.source,
           e.flow.name, e.callPolicy.cleanup, e.origins, e.reviewed, e.bounds, e.observations, e.network.traffic,
           e.diagnostics, e.history, e.previews, e.stepIds)
  }

  /** Two envelopes that verify and agree on their inputs are equal: no derived field can be altered. */
  lemma VerifiedIsDetermined(e: Envelope, f: Envelope, at: Time, later: Time)
    requires Verify(e, at) && Verify(f, later) && InputsOf(e) == InputsOf(f)
    ensures e == f
  {
    hide Build, BundleVerifies;
  }

  /** In particular the claims of a verified envelope are the fixed ones. */
  lemma VerifiedClaims(e: Envelope, at: Time)
    requires Verify(e, at)
    ensures e.schema == ResultOf(ProtocolOf(e)) == e.provenance.resultVersion
    ensures e.provenance.sessionVersion == SessionOf(ProtocolOf(e)) && e.provenance.producer == Browsertools
    ensures e.candidate.sourceDigest == OfSource(e.candidate.source)
    ensures e.candidate.reviewDigest == OfReview(e.candidate.review)
    ensures e.candidate.review.profileDigest == OfSource(e.candidate.source)
    ensures e.network.methods == Methods(ProtocolOf(e)) && e.network.mutationRequests == 0
    ensures !e.network.submitExecuted && !e.network.accountAttempted
            && !e.network.sessionEstablished && !e.network.runtimeSupported
    ensures e.callPolicy == CallPolicy(RegistrationApproval, OperatorAttestation, FailOnDuplicate, StopWithoutRetry,
                                       e.callPolicy.cleanup)
    ensures !e.flow.submit.executed && e.flow.confirmationRequired
  {
    hide EvidenceOk, BoundsHold, ReviewedCanonical, RetainedNavigation, CanonicalWarnings, BundleVerifies;
  }
}
