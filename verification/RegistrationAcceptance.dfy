/**
 Exactly what the registration result builder accepts and what it hands out, condition by condition, and what
 a verified envelope therefore says of its own fields.
 */
module RegistrationAcceptance {
  import opened Wrappers
  import opened PageText
  import opened RegistrationModel
  import opened Evidence
  import opened RegistrationResult

  /** The candidate that was reviewed is the observed one: same text, at the position its identifier names. */
  predicate Observed(history: seq<Observation>, r: ReviewedCandidate) {
    && r.id.CandidateId? && r.generation == r.id.generation && 1 <= r.id.generation <= |history|
    && r.id.ordinal < |history[r.id.generation - 1].candidates|
    && var c := history[r.id.generation - 1].candidates[r.id.ordinal];
       c.id == r.id && c.role == r.role && c.name == r.name && c.matches == r.matches
  }

  predicate EvidenceFits(c: Completion) {
    && (c.protocol == V3 || c.protocol == V4 ==>
          && |c.history| == c.observations
          && TypedEvidence(c.protocol, c.profile, c.flow, c.history, c.previews, c.stepIds,
                           seq(|c.reviewed|, i requires 0 <= i < |c.reviewed| => c.reviewed[i].id))
          && forall r <- c.reviewed :: Observed(c.history, r))
    && (c.protocol == V1 || c.protocol == V2 ==> c.history == [] && c.previews == [] && c.stepIds == [])
  }

  /** Whole seconds in UTC, created no earlier than observed, within the lifetime of the profile. */
  predicate TimesFit(c: Completion, at: Time) {
    && c.observedAt.nanos != 0 && c.observedAt.utc && c.observedAt.nanos % 1_000_000_000 == 0
    && at.nanos != 0 && at.utc && at.nanos % 1_000_000_000 == 0 && c.observedAt.nanos <= at.nanos
    && c.profile.verifiedAt.Some? && c.profile.verifiedAt.value <= at.nanos
    && c.profile.expiresAt.Some? && at.nanos < c.profile.expiresAt.value
  }

  predicate NamesFit(c: Completion) {
    && (forall name | name in {c.profileId, c.flow} ::
          0 < |name| <= 64 && 'a' <= name[0] <= 'z'
          && forall ch <- name :: 'a' <= ch <= 'z' || '0' <= ch <= '9' || ch == '_' || ch == '-')
    && (c.cleanup == DeleteSeparately || c.cleanup == RetainTestIdentity)
  }

  /** The source is the canonical encoding of the profile, of the protocol's schema, and stays inside its origins. */
  predicate ProfileFits(c: Completion) {
    && c.profile.schemaValid && c.source == Canonical(c.profile)
    && c.profile.schema == (if c.protocol == V3 then Schema11 else if c.protocol == V4 then Schema12 else Schema10)
    && c.profile.observationKind == AccessibilitySnapshot
    && c.profile.origins == c.origins && c.origins != []
    && (c.protocol != V1 ==>
          forall name, i | name in c.profile.flows && 0 <= i < |c.profile.flows[name].sequence|
                           && c.profile.flows[name].sequence[i].Navigate? ::
            var u := c.profile.flows[name].sequence[i].url;
            u.Url? && u.origin.exact && u.retained && u.origin in c.origins)
  }

  predicate BoundsFit(c: Completion) {
    && 0 < c.bounds.navigationTimeoutMS <= 60000
    && c.bounds.navigationTimeoutMS <= c.bounds.totalTimeoutMS <= 1800000
    && 0 < c.bounds.maxRequests <= 4096 && 0 < c.bounds.maxResponseBytes <= 134217728
    && 0 < c.bounds.maxObservations <= 256 && 0 < c.bounds.maxCandidates <= 512
    && 0 < c.observations <= c.bounds.maxObservations
  }

  /** The request counts add up within the limit; provider traffic is v4 only and within its authority. */
  predicate TrafficFits(c: Completion) {
    && 0 <= c.network.getRequests && 0 <= c.network.headRequests
    && c.network.getRequests + c.network.headRequests == c.network.requests <= c.bounds.maxRequests
    && (if c.protocol == V4 then
          && c.authority.Some?
          && 0 <= c.network.providerPosts <= c.network.providerRequests <= c.authority.value.dependencies.maxRequests
          && 0 <= c.network.providerBytes <= c.authority.value.dependencies.maxResponseBytes
        else
          c.authority.None? && c.network.providerRequests == 0 && c.network.providerPosts == 0
          && c.network.providerBytes == 0)
  }

  predicate ListsFit(c: Completion) {
    && |c.diagnostics| <= 256 && (forall w <- c.diagnostics :: !w.OtherWarning?)
    && (forall i | 0 < i < |c.diagnostics| :: WarningRank(c.diagnostics[i - 1]) < WarningRank(c.diagnostics[i]))
    && 0 < |c.reviewed| <= c.bounds.maxCandidates
    && (forall i | 0 < i < |c.reviewed| :: Rank(c.reviewed[i - 1].id) <= Rank(c.reviewed[i].id))
    && (forall i, j | 0 <= i < j < |c.reviewed| :: c.reviewed[i].id != c.reviewed[j].id)
    && (forall r <- c.reviewed ::
          && (r.id.CandidateId? || (r.id.OtherId? && r.id.shaped))
          && 1 <= r.generation <= c.observations && (c.protocol == V1 || c.protocol == V2 ==> r.generation == c.observations)
          && r.matches == 1 && !r.role.OtherRole? && r.name.Reduced?)
  }

  /** Step i is the one submit of the flow, found by its accessible name, and reviewed candidate k is the one it means. */
  predicate SubmitsOnce(flow: Flow, reviewed: seq<ReviewedCandidate>, i: nat, k: nat) {
    && i < |flow.sequence| && flow.sequence[i].Submit?
    && (forall j | 0 <= j < |flow.sequence| && j != i :: !flow.sequence[j].Submit?)
    && var l := flow.sequence[i].locator;
    && l.text == "" && l.value == "" && l.role != OtherRole("") && l.name.Reduced?
    && k < |reviewed| && reviewed[k].role == l.role && reviewed[k].name == l.name && reviewed[k].matches == 1
    && forall j | 0 <= j < |reviewed| && j != k ::
         !(reviewed[j].role == l.role && reviewed[j].name == l.name && reviewed[j].matches == 1)
  }

  ghost predicate FlowFits(c: Completion) {
    && c.flow in c.profile.flows
    && var flow := c.profile.flows[c.flow];
    && flow.confirmationRequired && CreatesAccount in flow.effects
    && (c.protocol == V4 ==> c.authority.Some? && c.authority == flow.verification)
    && exists i: nat, k: nat :: SubmitsOnce(flow, c.reviewed, i, k)
  }

  /** Everything Build asks for. */
  ghost predicate Acceptable(c: Completion, at: Time) {
    && EvidenceFits(c) && TimesFit(c, at) && NamesFit(c) && ProfileFits(c) && BoundsFit(c) && TrafficFits(c)
    && ListsFit(c) && FlowFits(c)
  }

  lemma EvidenceIff(c: Completion)
    ensures EvidenceOk(c) <==> EvidenceFits(c)
  {
    hide TypedEvidence;
    assert seq(|c.reviewed|, i requires 0 <= i < |c.reviewed| => c.reviewed[i].id) == IdsOf(c.reviewed);
  }

  lemma ListsIff(c: Completion)
    ensures ListsFit(c) <==>
              |c.diagnostics| <= MAX_DIAGNOSTICS && CanonicalWarnings(c.diagnostics)
              && ReviewedCanonical(c.reviewed, c.observations, c.bounds.maxCandidates, c.protocol)
  {
    var ids := IdsOf(c.reviewed);
    assert forall i | 0 <= i < |c.reviewed| :: ids[i] == c.reviewed[i].id;
  }

  lemma NavigationIff(c: Completion)
    requires c.profile.origins == c.origins && c.origins != []
    ensures (c.protocol != V1 ==> RetainedNavigation(c.profile)) <==>
            (c.protocol != V1 ==>
               forall name, i | name in c.profile.flows && 0 <= i < |c.profile.flows[name].sequence|
                                && c.profile.flows[name].sequence[i].Navigate? ::
                 var u := c.profile.flows[name].sequence[i].url;
                 u.Url? && u.origin.exact && u.retained && u.origin in c.origins)
  {
  }

  lemma SubmitIff(c: Completion, flow: Flow)
    ensures FlowReviewOf(c, flow).Some? <==>
              flow.confirmationRequired && CreatesAccount in flow.effects
              && exists i: nat, k: nat :: SubmitsOnce(flow, c.reviewed, i, k)
    ensures FlowReviewOf(c, flow).Some? ==>
              var f := FlowReviewOf(c, flow).value;
              exists k: nat :: SubmitsOnce(flow, c.reviewed, f.submit.index, k)
                && f.submit == SubmitReview(f.submit.index, flow.sequence[f.submit.index].locator,
                                            c.reviewed[k].id, c.reviewed[k].generation, false)
  {
    if i: nat, k: nat :| SubmitsOnce(flow, c.reviewed, i, k) {
      SubmitIndexIs(flow.sequence, i);
      assert OnlyMatch(c.reviewed, flow.sequence[i].locator, k, |c.reviewed|);
    }
    var f := FlowReviewOf(c, flow);
    if f.Some? {
      var i, l := SubmitIndex(flow.sequence).value, f.value.submit.locator;
      assert SubmitsOnce(flow, c.reviewed, i, MatchIndex(c.reviewed, l).value);
    }
  }

  lemma NamesIff(c: Completion)
    ensures NamesFit(c) <==> Identifier(c.profileId) && Identifier(c.flow) && !c.cleanup.OtherCleanup?
  {
  }

  lemma TrafficIff(c: Completion)
    ensures BoundsFit(c) && TrafficFits(c) <==> BoundsHold(c) && (c.protocol == V4 ==> c.authority.Some?)
  {
  }

  lemma BuildIff(c: Completion, at: Time)
    ensures Build(c, at).Some? <==>
              CompletionOk(c) && CanonicalTime(at) && c.observedAt.nanos <= at.nanos && CurrentAt(c.profile, at)
              && c.flow in c.profile.flows && FlowReviewOf(c, c.profile.flows[c.flow]).Some?
  {
    hide CompletionOk, FlowReviewOf;
    if CompletionOk(c) {
      HasFlow(c);
    }
  }

  lemma HasFlow(c: Completion)
    requires CompletionOk(c)
    ensures c.flow in c.profile.flows
  {
  }

  /** Build returns an envelope exactly for these completions at these times. */
  lemma BuildAccepts(c: Completion, at: Time)
    ensures Build(c, at).Some? <==> Acceptable(c, at)
  {
    hide Build, EvidenceOk, EvidenceFits, ListsFit, CanonicalWarnings, ReviewedCanonical, FlowReviewOf, SubmitsOnce,
         RetainedNavigation, NamesFit, Identifier, BoundsFit, TrafficFits, BoundsHold;
    BuildIff(c, at);
    EvidenceIff(c);
    ListsIff(c);
    NamesIff(c);
    TrafficIff(c);
    if c.profile.origins == c.origins && c.origins != [] {
      NavigationIff(c);
    }
    if c.flow in c.profile.flows {
      SubmitIff(c, c.profile.flows[c.flow]);
    }
  }

  /** The reviewed checkpoints are the human steps of the recipe, in order. */
  ghost predicate ListsCheckpoints(checkpoints: seq<CheckpointReview>, sequence: seq<Step>, n: nat)
    requires n <= |sequence|
  {
    && (forall x | 0 <= x < |checkpoints| ::
          var i := checkpoints[x].index;
          i < n && sequence[i] == HumanCheckpoint(checkpoints[x].kind, checkpoints[x].locator))
    && (forall x, y | 0 <= x < y < |checkpoints| :: checkpoints[x].index < checkpoints[y].index)
    && (forall i | 0 <= i < n && sequence[i].HumanCheckpoint? :: exists x | 0 <= x < |checkpoints| :: checkpoints[x].index == i)
  }

  lemma OneMoreStep(before: seq<CheckpointReview>, all: seq<CheckpointReview>, sequence: seq<Step>, n: nat)
    requires n < |sequence| && ListsCheckpoints(before, sequence, n)
    requires all == before + match sequence[n]
                             case HumanCheckpoint(kind, at) => [CheckpointReview(n, kind, at)]
                             case _ => []
    ensures ListsCheckpoints(all, sequence, n + 1)
  {
    forall i | 0 <= i < n + 1 && sequence[i].HumanCheckpoint? ensures exists x | 0 <= x < |all| :: all[x].index == i {
      if i < n {
        var x :| 0 <= x < |before| && before[x].index == i;
        assert all[x].index == i;
      } else {
        assert all[|before|].index == i;
      }
    }
  }

  lemma {:induction false} CheckpointsListed(sequence: seq<Step>, n: nat)
    requires n <= |sequence|
    ensures ListsCheckpoints(Checkpoints(sequence, n), sequence, n)
  {
    if n > 0 {
      CheckpointsListed(sequence, n - 1);
      hide ListsCheckpoints;
      OneMoreStep(Checkpoints(sequence, n - 1), Checkpoints(sequence, n), sequence, n - 1);
    }
  }

  /** What the envelope of a completion says, field by field. */
  ghost predicate Carries(c: Completion, created: Time, e: Envelope) {
    && e.schema == ResultOf(c.protocol) && e.provenance == Provenance(Browsertools, e.schema, SessionOf(c.protocol))
    && e.authority == c.authority && e.origins == c.origins
    && e.createdAt == Rfc3339(created.nanos) && e.observedAt == Rfc3339(c.observedAt.nanos)
    && c.profile.expiresAt.Some?
    && e.expiresAt == Rfc3339(c.profile.expiresAt.value - c.profile.expiresAt.value % 1_000_000_000)
    && e.candidate.profileId == c.profileId && e.candidate.schema == c.profile.schema && e.candidate.source == c.source
    && e.candidate.sourceDigest == OfSource(c.source) && e.candidate.reviewDigest == OfReview(e.candidate.review)
    && e.candidate.review.profile == c.profile && e.candidate.review.profileDigest == OfSource(Canonical(c.profile))
    && e.candidate.review.assessedAt == e.createdAt && e.candidate.review.expiresAt == e.expiresAt
    && e.candidate.review.version == ReviewFor(c.profile.schema)
    && e.candidate.review.promotable && e.candidate.review.gaps == []
    && e.reviewed == c.reviewed && c.flow in c.profile.flows && CarriesFlow(c, c.profile.flows[c.flow], e.flow)
    && e.callPolicy == CallPolicy(RegistrationApproval, OperatorAttestation, FailOnDuplicate, StopWithoutRetry, c.cleanup)
    && e.bounds == c.bounds && e.observations == c.observations && e.network.traffic == c.network
    && e.network.methods == (if c.protocol == V4 then [GET, HEAD, POST] else [GET, HEAD])
    && e.network.mutationRequests == 0 && !e.network.submitExecuted && !e.network.accountAttempted
    && !e.network.sessionEstablished && !e.network.runtimeSupported
    && e.diagnostics == c.diagnostics && e.history == c.history && e.previews == c.previews && e.stepIds == c.stepIds
  }

  ghost predicate CarriesFlow(c: Completion, flow: Flow, f: FlowReview) {
    && f.name == c.flow && f.slots == c.profile.credentialSlots && f.effects == multiset(flow.effects)
    && f.confirmationRequired && f.success == flow.success && !f.submit.executed
    && ListsCheckpoints(f.checkpoints, flow.sequence, |flow.sequence|)
    && exists k: nat :: SubmitsOnce(flow, c.reviewed, f.submit.index, k)
         && f.submit.locator == flow.sequence[f.submit.index].locator
         && f.submit.id == c.reviewed[k].id && f.submit.generation == c.reviewed[k].generation
  }

  lemma FlowCarried(c: Completion, flow: Flow)
    requires FlowReviewOf(c, flow).Some?
    ensures CarriesFlow(c, flow, FlowReviewOf(c, flow).value)
  {
    SubmitIff(c, flow);
    CheckpointsListed(flow.sequence, |flow.sequence|);
    hide SubmitsOnce, ListsCheckpoints, Checkpoints;
  }

  /** The envelope Build returns carries the completion, and its fixed claims, field by field. */
  lemma BuildCarries(c: Completion, created: Time)
    requires Build(c, created).Some?
    ensures Carries(c, created, Build(c, created).value)
  {
    hide EvidenceOk, BoundsHold, ReviewedCanonical, RetainedNavigation, CanonicalWarnings, Identifier, FlowReviewOf,
         CarriesFlow;
    FlowCarried(c, c.profile.flows[c.flow]);
  }

  /** The completion an envelope claims to be the result of. */
  function Claimed(e: Envelope): Completion
    requires e.schema.ResultOf? && e.candidate.source.Canonical? && e.observedAt.Rfc3339?
  {
    Completion(e.schema.protocol, e.authority, e.candidate.profileId, e.candidate.source.profile, e.candidate.source,
               e.reviewed, e.flow.name, e.callPolicy.cleanup, e.origins, Time(e.observedAt.nanos, true), e.bounds,
               e.observations, e.diagnostics, e.network.traffic, e.history, e.previews, e.stepIds)
  }

  predicate Legible(e: Envelope) {
    e.schema.ResultOf? && e.candidate.source.Canonical? && e.observedAt.Rfc3339? && e.createdAt.Rfc3339?
  }

  lemma VerifiedIsBuilt(e: Envelope, at: Time)
    requires Verify(e, at)
    ensures Legible(e) && Build(Claimed(e), Time(e.createdAt.nanos, true)) == Some(e)
  {
    hide CompletionOk, FlowReviewOf, BuildBundle, BundleVerifies, CurrentAt, Build;
    var createdAt, observedAt, profile := ParseStamp(e.createdAt), ParseStamp(e.observedAt), Parse(e.candidate.source);
    var c := CompletionOf(e, profile.value, observedAt.value);
    BuildAccepts(c, createdAt.value);
    BuildCarries(c, createdAt.value);
    assert c == Claimed(e);
  }

  /**
   Verify accepts an envelope exactly when its own fields are those of an acceptable completion at the creation
   time it states, every other field is what Build derives from them, and the assessment falls between that
   time and the expiry of the profile.
   */
  lemma VerifyAccepts(e: Envelope, at: Time)
    ensures Verify(e, at) <==>
              && Legible(e) && Build(Claimed(e), Time(e.createdAt.nanos, true)) == Some(e) && at.nanos != 0
              && e.createdAt.nanos <= at.nanos
              && e.candidate.source.profile.expiresAt.Some? && at.nanos < e.candidate.source.profile.expiresAt.value
    ensures Verify(e, at) ==>
              Acceptable(Claimed(e), Time(e.createdAt.nanos, true)) && Carries(Claimed(e), Time(e.createdAt.nanos, true), e)
  {
    hide Verify, Build, Acceptable, Carries;
    if Verify(e, at) {
      VerifiedIsBuilt(e, at);
    }
    if Legible(e) && Build(Claimed(e), Time(e.createdAt.nanos, true)) == Some(e) {
      BuildVerifies(Claimed(e), Time(e.createdAt.nanos, true), e, at);
      BuildAccepts(Claimed(e), Time(e.createdAt.nanos, true));
      BuildCarries(Claimed(e), Time(e.createdAt.nanos, true));
    }
  }
}
