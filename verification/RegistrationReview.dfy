/**
 Exactly which reviews a registration session accepts, condition by condition.
 */
module RegistrationReview {
  import opened Wrappers
  import opened PageText
  import opened RegistrationModel
  import opened Evidence
  import opened EvidenceMeaning
  import opened RegistrationLog
  import opened RegistrationSession

  /** The observed candidate that an identifier of this session names, if there is one. */
  predicate Names(s: Snapshot, id: Id, c: Candidate) {
    if s.scope.protocol == V3 || s.scope.protocol == V4 then
      id.CandidateId? && Shown(s.history, id.generation, id.ordinal, id) && s.history[id.generation - 1].candidates[id.ordinal] == c
    else id in s.candidates && s.candidates[id].candidate == c
  }

  /** The profile is of the protocol's schema, current, and stays inside the session's origins. */
  predicate SoundProfile(s: Snapshot, profile: Profile, now: Time) {
    && profile.schemaValid && profile.observationKind == AccessibilitySnapshot
    && profile.schema == (if s.scope.protocol == V3 then Schema11 else if s.scope.protocol == V4 then Schema12 else Schema10)
    && now.nanos != 0 && profile.verifiedAt.Some? && profile.verifiedAt.value <= now.nanos
    && profile.expiresAt.Some? && now.nanos < profile.expiresAt.value
    && profile.origins == s.scope.origins
    && (s.scope.protocol != V1 ==>
          profile.origins != []
          && forall name, i | name in profile.flows && 0 <= i < |profile.flows[name].sequence|
                              && profile.flows[name].sequence[i].Navigate? ::
               UrlInside(V2, profile.flows[name].sequence[i].url, s.scope.origins))
  }

  /** Flow and clean-up of the call; a v4 flow is for the authority that was granted. */
  predicate SoundCall(s: Snapshot, m: ClientMessage, profile: Profile) {
    && m.flow.Some? && 0 < |m.flow.value| <= 64 && 'a' <= m.flow.value[0] <= 'z'
    && (forall ch <- m.flow.value :: 'a' <= ch <= 'z' || '0' <= ch <= '9' || ch == '_' || ch == '-')
    && m.flow.value in profile.flows
    && (m.cleanup == Some(DeleteSeparately) || m.cleanup == Some(RetainTestIdentity))
    && (s.scope.protocol == V4 ==> s.authority.Some? && s.authority == profile.flows[m.flow.value].verification)
  }

  /** The selection: sorted, distinct identifiers of observed candidates that are unique and may be named. */
  ghost predicate SoundSelection(s: Snapshot, ids: seq<Id>) {
    && 0 < |ids| <= s.scope.bounds.maxCandidates
    && (forall i | 0 < i < |ids| :: Rank(ids[i - 1]) <= Rank(ids[i]))
    && (forall i, j | 0 <= i < j < |ids| :: ids[i] != ids[j])
    && forall id <- ids :: exists c :: Names(s, id, c) && c.matches == 1 && c.name.Reduced?
  }

  predicate Fits(c: Candidate, l: Locator) { c.role == l.role && c.name == l.name && c.matches == 1 }

  /** Step i is the one submit of the flow, found by its name, and candidate k is the only one that it means. */
  predicate SubmitAt(flow: Flow, cs: seq<Candidate>, i: nat, k: nat) {
    && i < |flow.sequence| && flow.sequence[i].Submit?
    && (forall j | 0 <= j < |flow.sequence| && j != i :: !flow.sequence[j].Submit?)
    && var l := flow.sequence[i].locator;
    && l.text == "" && l.value == "" && l.role != OtherRole("") && l.name.Reduced?
    && k < |cs| && Fits(cs[k], l) && forall j | 0 <= j < |cs| && j != k :: !Fits(cs[j], l)
  }

  /** The flow submits once, and exactly one selected candidate is the submit. */
  ghost predicate SoundSubmit(s: Snapshot, flow: Flow, ids: seq<Id>) {
    exists cs: seq<Candidate>, i: nat, k: nat ::
      |cs| == |ids| && (forall j | 0 <= j < |ids| :: Names(s, ids[j], cs[j])) && SubmitAt(flow, cs, i, k)
  }

  /** Everything a session asks of a review at this time. */
  ghost predicate SoundReview(s: Snapshot, m: ClientMessage, now: Time) {
    && s.observations != 0 && s.candidates != map[] && m.profile.Some? && !m.profile.value.Garbage?
    && (m.profile.value.Foreign? ==> m.profile.value.valid)
    && var profile := m.profile.value.profile;
    && SoundProfile(s, profile, now) && SoundCall(s, m, profile)
    && m.candidateIds.Some? && SoundSelection(s, m.candidateIds.value)
    && (s.scope.protocol == V3 || s.scope.protocol == V4 ==>
          Supported(s.scope.protocol, profile, m.flow.value, s.history, s.previews,
                    if m.stepIds.Some? then m.stepIds.value else [], m.candidateIds.value))
    && SoundSubmit(s, profile.flows[m.flow.value], m.candidateIds.value)
  }

  lemma NamesIff(s: Snapshot, id: Id, c: Candidate)
    ensures Names(s, id, c) <==> Available(s, id).Some? && Available(s, id).value.candidate == c
  {
  }

  lemma SelectableIff(s: Snapshot, id: Id)
    ensures Selectable(s, id) <==> exists c :: Names(s, id, c) && c.matches == 1 && c.name.Reduced?
  {
    if Available(s, id).Some? {
      assert Names(s, id, Available(s, id).value.candidate);
    }
  }

  lemma SubmitAtIff(flow: Flow, cs: seq<Candidate>, reviewed: seq<ReviewedCandidate>)
    requires |cs| == |reviewed|
    requires forall k | 0 <= k < |cs| ::
               reviewed[k].role == cs[k].role && reviewed[k].name == cs[k].name && reviewed[k].matches == cs[k].matches
    ensures SubmitBound(flow, reviewed) <==> exists i: nat, k: nat :: SubmitAt(flow, cs, i, k)
  {
    assert forall k, l | 0 <= k < |cs| :: MatchesLocator(reviewed[k], l) <==> Fits(cs[k], l);
    hide MatchesLocator, Fits;
    if i: nat, k: nat :| SubmitAt(flow, cs, i, k) {
      assert OnlySubmit(flow.sequence, i) && OnlyMatch(reviewed, flow.sequence[i].locator, k, |reviewed|);
    }
    if SubmitBound(flow, reviewed) {
      var i: nat :| i < |flow.sequence| && OnlySubmit(flow.sequence, i) && PortableSubmit(flow.sequence[i].locator)
                  && exists k :: 0 <= k < |reviewed| && OnlyMatch(reviewed, flow.sequence[i].locator, k, |reviewed|);
      var k: nat :| k < |reviewed| && OnlyMatch(reviewed, flow.sequence[i].locator, k, |reviewed|);
      assert SubmitAt(flow, cs, i, k);
    }
  }

  lemma NamesOne(s: Snapshot, id: Id, c: Candidate, d: Candidate)
    requires Names(s, id, c) && Names(s, id, d)
    ensures c == d
  {
  }

  lemma SubmitIff(s: Snapshot, flow: Flow, ids: seq<Id>)
    requires forall id <- ids :: Selectable(s, id)
    ensures SubmitBound(flow, Selected(s, ids)) <==> SoundSubmit(s, flow, ids)
  {
    forall j | 0 <= j < |ids| ensures Available(s, ids[j]).Some? { assert Selectable(s, ids[j]); }
    var reviewed := Selected(s, ids);
    var cs := seq(|ids|, j requires 0 <= j < |ids| => Available(s, ids[j]).value.candidate);
    forall j | 0 <= j < |ids| ensures Names(s, ids[j], cs[j]) { NamesIff(s, ids[j], cs[j]); }
    forall j | 0 <= j < |ids|
      ensures reviewed[j].role == cs[j].role && reviewed[j].name == cs[j].name && reviewed[j].matches == cs[j].matches {}
    hide Names, Selected, Selectable, Available, SubmitAt, SubmitBound;
    SubmitAtIff(flow, cs, reviewed);
    if SoundSubmit(s, flow, ids) {
      var ds: seq<Candidate>, i: nat, k: nat :|
        |ds| == |ids| && (forall j | 0 <= j < |ids| :: Names(s, ids[j], ds[j])) && SubmitAt(flow, ds, i, k);
      forall j | 0 <= j < |ids| ensures ds[j] == cs[j] { NamesOne(s, ids[j], ds[j], cs[j]); }
      assert ds == cs;
    }
  }
}
