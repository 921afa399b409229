/**
 Producer and checker together: every completion a registration session returns is one the result
 builder accepts.
 */
module RegistrationHandoff {
  import opened Wrappers
  import opened PageText
  import opened RegistrationModel
  import opened Evidence
  import opened RegistrationSession
  import opened RegistrationResult

  /** What is left to the caller: the creation time, and what the profile schema promises of the flow. */
  predicate Ready(c: Completion, at: Time) {
    && CanonicalTime(at) && c.observedAt.nanos <= at.nanos && CurrentAt(c.profile, at)
    && c.flow in c.profile.flows
    && c.profile.flows[c.flow].confirmationRequired && CreatesAccount in c.profile.flows[c.flow].effects
  }

  lemma ReviewedEvidence(s: Snapshot, r: Review)
    requires Consistent(s) && ReviewOk(s, r)
    ensures ReviewedCanonical(r.candidates, s.observations, s.scope.bounds.maxCandidates, s.scope.protocol)
  {
    hide TypedEvidence, SubmitBound, RetainedNavigation, OriginsOk, PreviewsOk, DiagnosticsOk, AuthorityOk;
    forall c <- r.candidates ensures ReviewedEntryOk(c, s.observations, s.scope.protocol) {
      assert ReviewedOk(s, c);
      if Typed(s.scope.protocol) {
        var g := c.id.generation;
        assert ReducedOk(s.scope, s.history[g - 1]) && s.history[g - 1].generation == g;
        assert ReducedCandidateOk(s.scope, g, s.history[g - 1].candidates[c.id.ordinal], c.id.ordinal);
      }
    }
  }

  lemma HandoffEvidence(s: Snapshot, profileId: string, r: Review, summary: NetworkSummary)
    requires Consistent(s) && ReviewOk(s, r)
    ensures EvidenceOk(Complete(s, profileId, r, summary))
  {
    hide TypedEvidence, SubmitBound, RetainedNavigation, OriginsOk, DiagnosticsOk, AuthorityOk, CandidatesCurrent,
         ReducedOk;
    forall c <- r.candidates ensures ReviewedOk(s, c) {}
  }

  lemma HandoffOk(s: Snapshot, profileId: string, r: Review, summary: NetworkSummary)
    requires Consistent(s) && ReviewOk(s, r) && Identifier(profileId)
    requires SummaryOkFor(summary, s.scope.bounds.maxRequests, s.scope.protocol, s.authority)
    ensures CompletionOk(Complete(s, profileId, r, summary))
  {
    HandoffEvidence(s, profileId, r, summary);
    ReviewedEvidence(s, r);
    hide EvidenceOk, ReviewedCanonical, TypedEvidence, SubmitBound, RetainedNavigation, CandidatesCurrent, ReducedOk,
         PreviewsOk, AuthorityOk, ReviewedOk, Identifier, SortedIds, Distinct, SummaryOkFor;
  }

  lemma FlowReviewExists(c: Completion, flow: Flow)
    requires SubmitBound(flow, c.reviewed)
    ensures FlowReviewOf(c, flow).Some? <==> flow.confirmationRequired && CreatesAccount in flow.effects
  {
    var i :| 0 <= i < |flow.sequence| && OnlySubmit(flow.sequence, i) && PortableSubmit(flow.sequence[i].locator)
             && exists k :: 0 <= k < |c.reviewed| && OnlyMatch(c.reviewed, flow.sequence[i].locator, k, |c.reviewed|);
    SubmitIndexIs(flow.sequence, i);
    var k :| 0 <= k < |c.reviewed| && OnlyMatch(c.reviewed, flow.sequence[i].locator, k, |c.reviewed|);
    assert MatchIndex(c.reviewed, flow.sequence[i].locator) == Some(k);
  }

  /**
   In all four protocol versions Build accepts the completion of a session exactly when it is called
   at a canonical time no earlier than the observation, while the profile is current, for a flow that
   requires confirmation and declares that it creates an account.
   */
  lemma SessionsBuild(c: Completion, at: Time)
    requires Handoff(c)
    ensures Build(c, at).Some? <==> Ready(c, at)
  {
    var s, profileId, r, summary :| HandoffOf(c, s, profileId, r, summary);
    HandoffOk(s, profileId, r, summary);
    FlowReviewExists(c, c.profile.flows[c.flow]);
    hide CompletionOk, FlowReviewOf, Consistent, SubmitBound, TypedEvidence;
  }

  /** End to end: what a session hands over is built once and verifies until its profile expires. */
  lemma SessionsVerify(c: Completion, created: Time, at: Time)
    requires Handoff(c) && Ready(c, created)
    requires at.nanos != 0 && created.nanos <= at.nanos && c.profile.expiresAt.Some? && at.nanos < c.profile.expiresAt.value
    ensures Build(c, created).Some? && Verify(Build(c, created).value, at)
  {
    hide Build, Verify, Handoff, Ready;
    SessionsBuild(c, created);
    BuildVerifies(c, created, Build(c, created).value, at);
  }
}
