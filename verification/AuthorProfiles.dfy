/**
 Exactly which requests the author result builder accepts, condition by condition, and what the compiled steps
 of its two profiles are, position by position.
 */
module AuthorProfiles {
  import opened Wrappers
  import opened PageText
  import opened Contexts
  import opened AuthorModel
  import opened AuthorResult

  // Contexts.

  /** The main page is at most four parents away. */
  predicate Near(m: Table, id: ContextId) {
    || id == Main
    || (id in m
        && (m[id].parent == Main
            || (m[id].parent in m
                && (m[m[id].parent].parent == Main
                    || (m[m[id].parent].parent in m
                        && (m[m[m[id].parent].parent].parent == Main
                            || (m[m[m[id].parent].parent].parent in m
                                && m[m[m[m[id].parent].parent].parent].parent == Main)))))))
  }

  /** A popup or frame with the facts of its kind and an approved exact origin. */
  predicate SoundContext(origins: set<Origin>, id: ContextId, c: Context) {
    && id.Named? && id.shaped && c.origin.exact && c.origin in origins
    && (c.name.Some? ==> c.name.value.Reduced?) && (c.path.Some? ==> c.path.value.disclosable)
    && ((c.kind.Popup? && c.path.None? && c.name.None?) || (c.kind.Frame? && (c.path.Some? || c.name.Some?)))
  }

  lemma NearIff(m: Table, id: ContextId)
    ensures Reaches(m, id, 4) <==> Near(m, id)
  {
    if id != Main && id in m {
      var p := m[id].parent;
      assert Reaches(m, id, 4) <==> Reaches(m, p, 3);
      if p != Main && p in m {
        var q := m[p].parent;
        assert Reaches(m, p, 3) <==> Reaches(m, q, 2);
        if q != Main && q in m {
          assert Reaches(m, q, 2) <==> Reaches(m, m[q].parent, 1);
        }
      }
    }
  }

  /** A session's contexts are a forest exactly when each is sound and near the main page, and there are at most 64. */
  lemma ForestIff(origins: set<Origin>, m: Table)
    ensures Forest(origins, m) <==> |m| <= 64 && forall id <- m :: SoundContext(origins, id, m[id]) && Near(m, id)
  {
    forall id | id in m ensures Reaches(m, id, MAX_DEPTH) <==> Near(m, id) { NearIff(m, id); }
    hide Reaches, Near;
  }

  // What the builder accepts.

  predicate SoundName(r: Role) {
    r.OtherRole? ==>
      && 0 < |r.text| <= 64 && ('a' <= r.text[0] <= 'z' || 'A' <= r.text[0] <= 'Z')
      && forall c <- r.text :: 'a' <= c <= 'z' || 'A' <= c <= 'Z' || '0' <= c <= '9' || c == '_' || c == '-'
  }

  predicate SoundUrl(u: Url, origins: set<Origin>) {
    u.Url? && u.exact && u.path.disclosable && u.origin.exact && u.origin in origins
  }

  /** Goal and dashboard are proved on their own pages, inside the approved origins, within positive limits. */
  predicate SoundFacts(r: BuildRequest) {
    && r.titled && |r.diagnostics| <= 256 && (forall o <- r.origins :: o.exact)
    && SoundUrl(r.initial, r.origins) && SoundUrl(r.dashboard, r.origins)
    && r.authentication.origin == r.dashboard.origin && r.authentication.path == r.dashboard.path
    && SoundName(r.authentication.role) && !r.authentication.name.Redacted? && !r.authentication.name.Untrusted?
    && r.goal.origin in r.origins && r.goal.path.disclosable && SoundName(r.goal.role)
    && r.goalProof.origin == r.goal.origin && r.goalProof.path == r.goal.path && r.goalProof.context == r.goal.context
    && r.goalProof.role == r.goal.role && (r.goal.name.NoLabel? || r.goalProof.name == r.goal.name)
    && (r.goal.context == Main || r.goal.context in r.contexts)
    && (r.authentication.context == Main || r.authentication.context in r.contexts)
    && 0 < r.bounds.navigationTimeoutMS <= r.bounds.totalTimeoutMS && 0 < r.bounds.maxRequests
    && 0 < r.bounds.maxResponseBytes && 0 < r.bounds.maxObservations && 0 < r.bounds.maxCandidates
    && 0 < r.bounds.maxOutputs <= 32
  }

  predicate SoundGraph(r: BuildRequest) {
    && |r.contexts| <= 64
    && forall id <- r.contexts ::
         var c := r.contexts[id];
         && id.Named? && id.shaped && c.origin in r.origins && Near(r.contexts, id)
         && (c.parent == Main || c.parent.shaped) && (c.path.Some? ==> c.path.value.disclosable)
         && ((c.kind.Popup? && c.path.None? && c.name.None?) || (c.kind.Frame? && (c.path.Some? || c.name.Some?)))
  }

  predicate Control(r: Role) {
    r.Button? || r.Textbox? || r.Checkbox? || r.Radio? || r.Combobox? || r.OptionRole? || r.MenuItem? || r.Tab? || r.Switch?
  }

  /** Selections of one observation, in the goal's context, found once by name or by role; no key or candidate twice. */
  predicate SoundSelections(r: BuildRequest) {
    && |r.selections| <= 16 && |r.selections| <= r.bounds.maxOutputs
    && (forall s <- r.selections ::
          && s.key.usable && s.candidate.CandidateId? && !s.kind.OtherOutput? && !s.mode.OtherMode?
          && 0 < s.observation <= r.bounds.maxObservations && s.observation == r.selections[0].observation
          && s.matches == 1 && 1 <= s.roleMatches <= r.bounds.maxCandidates && !s.role.OtherRole? && !Control(s.role)
          && s.context == r.goalProof.context
          && (s.mode.ExactName? ==> s.name.Reduced?)
          && (s.mode.UniqueRole? ==> s.name.NoLabel? && s.roleMatches == 1))
    && (forall i, j | 0 <= i < j < |r.selections| ::
          r.selections[i].key != r.selections[j].key && r.selections[i].candidate != r.selections[j].candidate)
  }

  /** A locator by role and disclosed name. */
  predicate Locatable(s: TraceStep) { s.role != OtherRole("") && !s.name.Redacted? && !s.name.Untrusted? }

  /** A step in known contexts; what it opened is a popup below its own; a human input has a kind that fits it. */
  predicate SoundStep(r: BuildRequest, s: TraceStep) {
    && (s.url.Some? ==> s.url.value.Url?) && (s.context == Main || s.context in r.contexts)
    && (s.opens.Some? ==>
          s.kind.ClickKind? && s.opens.value in r.contexts && r.contexts[s.opens.value].kind.Popup?
          && r.contexts[s.opens.value].parent == s.context)
    && (s.kind.FocusKind? ==>
          || ((s.input.IdentifierInput? || s.input.PasswordInput?) && s.challenge.NoChallenge? && Locatable(s))
          || (s.input.OtpInput? && Locatable(s)
              && (s.challenge.Totp? || s.challenge.SmsOtp? || s.challenge.EmailOtp? || s.challenge.VoiceOtp?))
          || (s.input.MfaInput? && (s.challenge.Push? || s.challenge.PushNumberMatch? || s.challenge.Passkey?
                                    || s.challenge.SecurityKey?)))
    // and the profiles can express it
    && (s.phase.Authentication? && s.kind.ClickKind? ==> Locatable(s))
    && (s.phase.Exploration? ==> (s.kind.NavigateKind? && s.url.Some?) || (s.kind.ClickKind? && Locatable(s)))
  }

  predicate SoundRequest(r: BuildRequest) {
    SoundFacts(r) && SoundGraph(r) && SoundSelections(r) && forall s <- r.trace :: SoundStep(r, s)
  }

  lemma FactsIff(r: BuildRequest)
    ensures SoundFacts(r) <==>
              FactsOk(r) && Meets(r.goal, r.goalProof) && Known(r.contexts, r.goal.context)
              && Known(r.contexts, r.authentication.context)
  {
  }

  lemma GraphIff(r: BuildRequest)
    ensures SoundGraph(r) <==>
              |r.contexts| <= MAX_CONTEXTS && Rooted(r.contexts)
              && forall id <- r.contexts :: ResultContextOk(r.origins, r.contexts, id)
  {
    forall id | id in r.contexts ensures Reaches(r.contexts, id, MAX_DEPTH) <==> Near(r.contexts, id) { NearIff(r.contexts, id); }
    hide Reaches, Near;
  }

  lemma SelectionsIff(r: BuildRequest)
    requires Known(r.contexts, r.goalProof.context)
    ensures SoundSelections(r) <==> SelectionsOk(r)
  {
  }

  lemma StepIff(r: BuildRequest, s: TraceStep)
    ensures SoundStep(r, s) <==>
              TraceStepOk(r.contexts, s) && (Compiled(s) ==> AuthenticationStep(s, 0).Some?)
              && (s.phase == Exploration ==> CapabilityStep(s).Some?)
  {
    assert forall c :: c in OTP_CHALLENGES <==> c.Totp? || c.SmsOtp? || c.EmailOtp? || c.VoiceOtp?;
    assert forall c :: c in HELD_CHALLENGES <==> c.Push? || c.PushNumberMatch? || c.Passkey? || c.SecurityKey?;
  }

  /** The builder accepts exactly the sound requests. */
  lemma BuildableIff(r: BuildRequest)
    ensures Buildable(r) <==> SoundRequest(r)
  {
    FactsIff(r);
    GraphIff(r);
    if SoundFacts(r) { SelectionsIff(r); }
    forall s | s in r.trace
      ensures SoundStep(r, s) <==>
                TraceStepOk(r.contexts, s) && (Compiled(s) ==> AuthenticationStep(s, 0).Some?)
                && (s.phase == Exploration ==> CapabilityStep(s).Some?)
    {
      StepIff(r, s);
    }
    hide SoundFacts, SoundGraph, SoundSelections, SoundStep, FactsOk, Rooted, ResultContextOk, SelectionsOk, TraceStepOk, Compiled,
         AuthenticationStep, CapabilityStep;
  }

  // What the profiles consist of.

  /** How many exploration steps come before position n. */
  function Explored(trace: seq<TraceStep>, n: nat): nat
    requires n <= |trace|
  {
    if n == 0 then 0 else Explored(trace, n - 1) + if trace[n - 1].phase.Exploration? then 1 else 0
  }

  /** The profile step that exploration step s stands for. */
  predicate Explores(p: ProfileStep, s: TraceStep) {
    if s.kind.NavigateKind? then s.url.Some? && p == Goto(s.url.value, s.context)
    else s.kind.ClickKind? && p == Press(s.role, s.name, s.context, s.opens)
  }

  predicate AllCompile(trace: seq<TraceStep>, n: nat)
    requires n <= |trace|
  {
    forall i | 0 <= i < n && trace[i].phase == Exploration :: CapabilityStep(trace[i]).Some?
  }

  /**
   The capability profile has one step for every exploration step of the trace, at the position that counts the
   exploration steps before it, and no other.
   */
  lemma {:induction false} CapabilityIs(trace: seq<TraceStep>, n: nat)
    requires n <= |trace| && AllCompile(trace, n)
    ensures |CapabilitySteps(trace, n)| == Explored(trace, n)
    ensures forall i | 0 <= i < n && trace[i].phase.Exploration? ::
              Explored(trace, i) < Explored(trace, n) && Explores(CapabilitySteps(trace, n)[Explored(trace, i)], trace[i])
  {
    if n > 0 {
      CapabilityIs(trace, n - 1);
    }
  }

  predicate Entered(s: TraceStep) { s.phase.Authentication? && (s.kind.FocusKind? || s.kind.ClickKind?) }

  predicate Credential(s: TraceStep) { Entered(s) && s.kind.FocusKind? && !s.input.OtpInput? && !s.input.MfaInput? }

  function EnteredBefore(trace: seq<TraceStep>, n: nat): nat
    requires n <= |trace|
  {
    if n == 0 then 0 else EnteredBefore(trace, n - 1) + if Entered(trace[n - 1]) then 1 else 0
  }

  function CredentialsBefore(trace: seq<TraceStep>, n: nat): nat
    requires n <= |trace|
  {
    if n == 0 then 0 else CredentialsBefore(trace, n - 1) + if Credential(trace[n - 1]) then 1 else 0
  }

  /** The profile step that authentication step s stands for, with the credential slots used before it. */
  predicate Authenticates(p: ProfileStep, s: TraceStep, slots: nat) {
    if s.kind.ClickKind? then p == Press(s.role, s.name, s.context, s.opens)
    else
      match s.input
      case OtpInput => p == Challenged(s.challenge, Some((s.role, s.name)), s.context)
      case MfaInput => p == Challenged(s.challenge, None, s.context)
      case _ => p == TypeInto(s.role, s.name, slots + 1, s.input.PasswordInput?, s.context)
  }

  predicate AllEnter(trace: seq<TraceStep>, n: nat)
    requires n <= |trace|
  {
    forall i | 0 <= i < n && Compiled(trace[i]) :: AuthenticationStep(trace[i], 0).Some?
  }

  /**
   The authentication profile has one step for every human input and click of the authentication phase, in order;
   credentials are typed into slots numbered from one in the order in which they were typed.
   */
  lemma {:induction false} AuthenticationIs(trace: seq<TraceStep>, n: nat)
    requires n <= |trace| && AllEnter(trace, n)
    ensures |AuthenticationSteps(trace, n)| == EnteredBefore(trace, n) && SlotCount(trace, n) == CredentialsBefore(trace, n)
    ensures forall i | 0 <= i < n && Entered(trace[i]) ::
              EnteredBefore(trace, i) < EnteredBefore(trace, n)
              && Authenticates(AuthenticationSteps(trace, n)[EnteredBefore(trace, i)], trace[i], CredentialsBefore(trace, i))
  {
    if n > 0 {
      AuthenticationIs(trace, n - 1);
      assert Compiled(trace[n - 1]) <==> Entered(trace[n - 1]);
      assert Compiled(trace[n - 1]) ==> AuthenticationStep(trace[n - 1], 0).Some?;
    }
  }
}
