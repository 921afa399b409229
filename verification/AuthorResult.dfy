/**
 The result of an authenticated author session: validation of the build request and the two profiles
 compiled from its trace, with the contexts each of them declares.
 */
module AuthorResult {
  import opened Wrappers
  import opened PageText
  import opened Contexts
  import opened AuthorModel

  predicate Letter(c: char) { 'a' <= c <= 'z' || 'A' <= c <= 'Z' }

  /** A role the portable vocabulary has, or any other identifier. */
  predicate RoleName(r: Role) {
    r.OtherRole? ==> 0 < |r.text| <= 64 && Letter(r.text[0])
                     && forall c <- r.text :: Letter(c) || '0' <= c <= '9' || c == '_' || c == '-'
  }

  predicate BoundsHold(b: Bounds) {
    && 0 < b.navigationTimeoutMS <= b.totalTimeoutMS && 0 < b.maxRequests && 0 < b.maxResponseBytes
    && 0 < b.maxObservations && 0 < b.maxCandidates && 0 < b.maxOutputs <= MAX_OUTPUTS
  }

  predicate UrlOk(origins: set<Origin>, u: Url) {
    u.Url? && u.exact && u.path.disclosable && u.origin.exact && u.origin in origins
  }

  /** The proof of arrival is of the dashboard's page, by a candidate whose name may be disclosed. */
  predicate Arrives(dashboard: Url, p: Proof) {
    dashboard.Url? && p.origin == dashboard.origin && p.path == dashboard.path && RoleName(p.role)
  }

  predicate GoalOk(origins: set<Origin>, g: Goal) {
    g.origin in origins && g.path.disclosable && RoleName(g.role)
  }

  /** The typed goal is satisfied by its proof. */
  predicate Meets(g: Goal, p: Proof) {
    && p.origin == g.origin && p.path == g.path && p.context == g.context && p.role == g.role
    && (g.name != NoLabel ==> p.name == g.name)
  }

  predicate OutputRole(r: Role) { PortableRole(r) && !ControlRole(r) }

  // Validation.

  predicate SelectionOk(r: BuildRequest, s: Selection, observation: int) {
    && s.key.usable && s.candidate.CandidateId?
    && !s.kind.OtherOutput? && !s.mode.OtherMode?
    && 0 < s.observation <= r.bounds.maxObservations && s.observation == observation
    && s.matches == 1 && 1 <= s.roleMatches <= r.bounds.maxCandidates && OutputRole(s.role)
    && s.context == r.goalProof.context && (s.context == Main || s.context in r.contexts)
    && (if s.mode == ExactName then PromotableLabel(s.name) else s.name == NoLabel && s.roleMatches == 1)
  }

  predicate SelectionsOk(r: BuildRequest) {
    && |r.selections| <= r.bounds.maxOutputs && |r.selections| <= MAX_SELECTED
    && (forall s <- r.selections :: SelectionOk(r, s, r.selections[0].observation))
    && (forall i, j | 0 <= i < j < |r.selections| ::
          r.selections[i].key != r.selections[j].key && r.selections[i].candidate != r.selections[j].candidate)
  }

  /** A step is portable by role and disclosed name. */
  predicate Portable(s: TraceStep) { s.role != OtherRole("") && NameOk(s.name) }

  predicate Known(m: Table, id: ContextId) { id == Main || id in m }

  predicate HumanStepOk(s: TraceStep) {
    match s.input
    case IdentifierInput => s.challenge == NoChallenge && Portable(s)
    case PasswordInput => s.challenge == NoChallenge && Portable(s)
    case OtpInput => s.challenge in OTP_CHALLENGES && Portable(s)
    case MfaInput => s.challenge in HELD_CHALLENGES
    case _ => false
  }

  predicate TraceStepOk(m: Table, s: TraceStep) {
    && (s.url.Some? ==> s.url.value.Url?)
    && Known(m, s.context)
    && (s.opens.Some? ==> s.opens.value in m && m[s.opens.value].kind == Popup && s.kind == ClickKind
                          && m[s.opens.value].parent == s.context)
    && (s.kind == FocusKind ==> HumanStepOk(s))
  }

  /** What a build request must satisfy before profiles are compiled from it. */
  predicate Validated(r: BuildRequest) {
    && FactsOk(r)
    && |r.contexts| <= MAX_CONTEXTS && Rooted(r.contexts)
    && (forall id <- r.contexts :: ResultContextOk(r.origins, r.contexts, id))
    && SelectionsOk(r)
    && Known(r.contexts, r.goal.context) && Known(r.contexts, r.authentication.context)
    && (forall s <- r.trace :: TraceStepOk(r.contexts, s))
  }

  /** Title, origins, URLs, proofs, bounds and diagnostics. */
  predicate FactsOk(r: BuildRequest) {
    && r.titled && |r.diagnostics| <= MAX_DIAGNOSTICS
    && (forall o <- r.origins :: o.exact)
    && UrlOk(r.origins, r.initial) && UrlOk(r.origins, r.dashboard)
    && Arrives(r.dashboard, r.authentication) && NameOk(r.authentication.name)
    && GoalOk(r.origins, r.goal) && BoundsHold(r.bounds)
  }

  method ValidateSelections(r: BuildRequest) returns (ok: bool)
    ensures ok <==> SelectionsOk(r)
  {
    if |r.selections| > r.bounds.maxOutputs || |r.selections| > MAX_SELECTED { return false; }
    var keys: set<Key>, ids: set<Id>, observation := {}, {}, 0;
    for i := 0 to |r.selections|
      invariant i > 0 ==> observation == r.selections[0].observation && observation > 0
      invariant i == 0 ==> observation == 0
      invariant forall j | 0 <= j < i :: SelectionOk(r, r.selections[j], observation)
      invariant forall k :: k in keys <==> exists j :: 0 <= j < i && r.selections[j].key == k
      invariant forall k :: k in ids <==> exists j :: 0 <= j < i && r.selections[j].candidate == k
      invariant forall j, k | 0 <= j < k < i ::
                  r.selections[j].key != r.selections[k].key && r.selections[j].candidate != r.selections[k].candidate
    {
      var s := r.selections[i];
      assert s in r.selections;
      if s.key in keys || s.candidate in ids { return false; }
      keys, ids := keys + {s.key}, ids + {s.candidate};
      if observation == 0 { observation := s.observation; }
      if !SelectionOk(r, s, observation) { return false; }
    }
    ok := true;
  }

  method ValidateBuildRequest(r: BuildRequest) returns (ok: bool)
    ensures ok <==> Validated(r)
  {
    hide Rooted, SelectionsOk, ResultContextOk, TraceStepOk, FactsOk;
    if !FactsOk(r) { return false; }
    ok := ValidateSelections(r);
    if !ok { return; }
    ok := ValidateContexts(r.origins, r.contexts);
    if !ok { return; }
    if !Known(r.contexts, r.goal.context) || !Known(r.contexts, r.authentication.context) { return false; }
    for i := 0 to |r.trace|
      invariant forall j | 0 <= j < i :: TraceStepOk(r.contexts, r.trace[j])
    {
      assert r.trace[i] in r.trace;
      if !TraceStepOk(r.contexts, r.trace[i]) { return false; }
    }
    ok := true;
  }

  // Profiles. `Main` as a context means that none is written.

  datatype ProfileStep =
    | Goto(url: Url, context: ContextId)
    | Press(role: Role, name: Label, context: ContextId, opens: Option<ContextId>)
    | TypeInto(role: Role, name: Label, slot: nat, password: bool, context: ContextId)
    | Challenged(challenge: Challenge, locator: Option<(Role, Label)>, context: ContextId)

  datatype ResultOutput = ResultOutput(key: Option<Key>, role: Role, name: Label, kind: OutputType, context: ContextId)

  datatype Version = Plain | WithContexts | TypedOutputs

  datatype Profile = Profile(
    steps: seq<ProfileStep>, goal: ContextId, outputs: seq<ResultOutput>, contexts: Option<Table>, version: Version)

  function Used(id: ContextId): set<ContextId> { if id == Main then {} else {id} }

  function StepUses(s: ProfileStep): set<ContextId> {
    Used(s.context) + if s.Press? && s.opens.Some? then Used(s.opens.value) else {}
  }

  function StepsUse(steps: seq<ProfileStep>): set<ContextId> { set s, id | s in steps && id in StepUses(s) :: id }

  function OutputsUse(outputs: seq<ResultOutput>): set<ContextId> { set o,
      id | o in outputs && id in Used(o.context) :: id }

  /** Every context a profile mentions: in a step, in its wait or success condition, or in an output. */
  function Mentions(p: Profile): set<ContextId> { StepsUse(p.steps) + Used(p.goal) + OutputsUse(p.outputs) }

  lemma StepsUseAppend(steps: seq<ProfileStep>, s: ProfileStep)
    ensures StepsUse(steps + [s]) == StepsUse(steps) + StepUses(s)
  {
    assert forall t :: t in steps + [s] <==> t in steps || t == s;
  }

  lemma OutputsUseAppend(outputs: seq<ResultOutput>, o: ResultOutput)
    ensures OutputsUse(outputs + [o]) == OutputsUse(outputs) + Used(o.context)
  {
    assert forall t :: t in outputs + [o] <==> t in outputs || t == o;
  }

  /** The exploration step a trace step compiles to; None for a step the profile cannot express. */
  function CapabilityStep(s: TraceStep): Option<ProfileStep> {
    match s.kind
    case NavigateKind => if s.url.Some? && s.url.value.Url? then Some(Goto(s.url.value, s.context)) else None
    case ClickKind => if Portable(s) then Some(Press(s.role, s.name, s.context, s.opens)) else None
    case _ => None
  }

  function CapabilitySteps(trace: seq<TraceStep>, n: nat): seq<ProfileStep>
    requires n <= |trace|
    requires forall i | 0 <= i < n && trace[i].phase == Exploration :: CapabilityStep(trace[i]).Some?
  {
    if n == 0 then []
    else CapabilitySteps(trace, n - 1)
         + if trace[n - 1].phase == Exploration then [CapabilityStep(trace[n - 1]).value] else []
  }

  predicate TypedOutput(k: OutputType) { k == IntegerOutput || k == NumberOutput || k == BooleanOutput }

  function OutputOf(s: Selection): ResultOutput { ResultOutput(Some(s.key), s.role, s.name, s.kind, s.context) }

  /** The contexts of the selected part of a validated graph that contains `used`. */
  lemma SelectionCovers(m: Table, ids: seq<ContextId>, r: Table, used: set<ContextId>)
    requires Requests(m, ids, r.Keys) && (forall id <- used :: id in ids && id in m && id != Main)
    ensures used <= r.Keys
  {
  }

  /** A part of the graph that covers what the profile mentions, and is contained in every closed set that does. */
  ghost predicate Covers(r: BuildRequest, p: Profile, part: Table) {
    && Mentions(p) <= part.Keys && Within(part, r.contexts)
    && forall s :: Mentions(p) <= s && AncestorClosed(r.contexts, s) ==> part.Keys <= s
  }

  /** The exploration steps, the goal as the first output, and the selections; contexts only where one is mentioned. */
  ghost predicate IsCapability(r: BuildRequest, p: Profile)
    requires forall s <- r.trace :: s.phase == Exploration ==> CapabilityStep(s).Some?
  {
    && p.steps == CapabilitySteps(r.trace, |r.trace|) && p.goal == r.goal.context && |p.outputs| == |r.selections| + 1
    && p.outputs[0] == ResultOutput(None, r.goal.role, r.goal.name, PresenceOutput, r.goal.context)
    && (forall i | 0 <= i < |r.selections| ::
          var s := r.selections[i]; p.outputs[i + 1] == ResultOutput(Some(s.key), s.role, s.name, s.kind, s.context))
    && (p.contexts.Some? <==> Mentions(p) != {}) && (p.contexts.Some? ==> Covers(r, p, p.contexts.value))
    && p.version
       == (if exists s <- r.selections :: s.kind.IntegerOutput? || s.kind.NumberOutput? || s.kind.BooleanOutput?
           then TypedOutputs else if p.contexts.Some? then WithContexts else Plain)
  }

  /** The first page, then what was entered on the way to the dashboard; its contexts are always declared. */
  ghost predicate IsAuthentication(r: BuildRequest, p: Profile)
    requires forall s <- r.trace :: Compiled(s) ==> AuthenticationStep(s, 0).Some?
  {
    && p.steps == [Goto(r.initial, Main)] + AuthenticationSteps(r.trace, |r.trace|)
    && p.goal == r.authentication.context && p.outputs == [] && p.version == WithContexts
    && p.contexts.Some? && Mentions(p) <= p.contexts.value.Keys && Within(p.contexts.value, r.contexts)
  }

  /**
   The capability profile: exploration steps in order, the goal as wait and output, the selected
   outputs; contexts are declared exactly when something mentions one, and cover every mention.
   */
  method BuildCapabilityProfile(r: BuildRequest) returns (profile: Option<Profile>)
    requires Validated(r) && Meets(r.goal, r.goalProof)
    ensures profile.Some? <==> forall s <- r.trace :: s.phase == Exploration ==> CapabilityStep(s).Some?
    ensures profile.Some? ==> IsCapability(r, profile.value)
  {
    hide Validated, SelectionsOk, Requests, AncestorClosed, StepsUse, OutputsUse, CapabilitySteps, Within;
    var steps, ids, outputs;
    var ok, use16 := true, r.goal.context != Main;
    ok, steps, ids := CompileExploration(r);
    if !ok { return None; }
    use16 := use16 || StepsUse(steps) != {};
    var use17;
    outputs, use17 := CompileOutputs(r);
    var contexts := None;
    GoalUse(r);
    if use16 {
      NoMain(r);
      var selected := SelectContexts(r.contexts, ids);
      SelectionCovers(r.contexts, ids, selected, StepsUse(steps) + Used(r.goal.context));
      forall s | StepsUse(steps) + Used(r.goal.context) <= s && AncestorClosed(r.contexts, s) ensures selected.Keys <= s {
        MentionsRequest(r.contexts, ids, StepsUse(steps) + Used(r.goal.context), s);
      }
      contexts := Some(selected);
    }
    var version := if use17 then TypedOutputs else if use16 then WithContexts else Plain;
    profile := Some(Profile(steps, r.goal.context, outputs, contexts, version));
  }

  lemma MentionsRequest(m: Table, ids: seq<ContextId>, used: set<ContextId>, s: set<ContextId>)
    requires (forall id <- ids :: id == Main || id in used) && used <= s
    ensures Requests(m, ids, s)
  {
  }

  lemma GoalUse(r: BuildRequest)
    requires Validated(r)
    ensures r.goal.context == Main || r.goal.context in r.contexts
    ensures Rooted(r.contexts)
  {
  }

  /** Everything `used` by the compiled steps is among the collected context ids and in the graph. */
  ghost predicate Collected(r: BuildRequest, steps: seq<ProfileStep>, ids: seq<ContextId>) {
    forall id <- StepsUse(steps) :: id in ids && id in r.contexts && id != Main
  }

  lemma CollectedAppend(r: BuildRequest, steps: seq<ProfileStep>, ids: seq<ContextId>, s: TraceStep, step: ProfileStep)
    requires Validated(r) && s in r.trace && Collected(r, steps, ids)
    requires StepUses(step) <= Used(s.context) + if s.opens.Some? then {s.opens.value} else {}
    ensures Collected(r, steps + [step], ids + [s.context] + if s.opens.Some? then [s.opens.value] else [])
  {
    hide Validated, StepsUse, StepUses;
    MainIsNoContext(r, s);
    StepsUseAppend(steps, step);
  }

  method CompileExploration(r: BuildRequest) returns (ok: bool, steps: seq<ProfileStep>, ids: seq<ContextId>)
    requires Validated(r)
    ensures ok <==> forall s <- r.trace :: s.phase == Exploration ==> CapabilityStep(s).Some?
    ensures ok ==> steps == CapabilitySteps(r.trace, |r.trace|) && Collected(r, steps, ids) && r.goal.context in ids
    ensures ok ==> forall id <- ids :: id == Main || id in StepsUse(steps) + Used(r.goal.context)
  {
    hide Validated, Collected;
    steps, ids := [], [r.goal.context];
    assert Collected(r, steps, ids) by { NothingCollected(r, ids); }
    for i := 0 to |r.trace|
      invariant forall j | 0 <= j < i && r.trace[j].phase == Exploration :: CapabilityStep(r.trace[j]).Some?
      invariant steps == CapabilitySteps(r.trace, i)
      invariant r.goal.context in ids && Collected(r, steps, ids)
      invariant forall id <- ids :: id == Main || id in StepsUse(steps) + Used(r.goal.context)
    {
      var s := r.trace[i];
      assert s in r.trace;
      if s.phase == Exploration {
        var step := CapabilityStep(s);
        if step.None? { return false, steps, ids; }
        CollectedAppend(r, steps, ids, s, step.value);
        StepsUseAppend(steps, step.value);
        ExploredUses(r, s);
        ids := ids + [s.context] + if s.opens.Some? then [s.opens.value] else [];
        steps := steps + [step.value];
      }
    }
    ok := true;
  }

  lemma ExploredUses(r: BuildRequest, s: TraceStep)
    requires Validated(r) && s in r.trace && CapabilityStep(s).Some?
    ensures StepUses(CapabilityStep(s).value) == Used(s.context) + if s.opens.Some? then {s.opens.value} else {}
  {
    hide Rooted, Reaches, FactsOk, SelectionsOk;
    assert TraceStepOk(r.contexts, s);
    MainIsNoContext(r, s);
  }

  lemma NothingCollected(r: BuildRequest, ids: seq<ContextId>)
    ensures Collected(r, [], ids)
  {
  }

  lemma OutputContext(r: BuildRequest, s: Selection)
    requires Validated(r) && Meets(r.goal, r.goalProof) && s in r.selections
    ensures s.context == r.goal.context
  {
    hide Rooted, ResultContextOk, TraceStepOk, FactsOk;
  }

  lemma NoOutputs()
    ensures OutputsUse([]) == {}
  {
  }

  method CompileOutputs(r: BuildRequest) returns (outputs: seq<ResultOutput>, use17: bool)
    requires Validated(r) && Meets(r.goal, r.goalProof)
    ensures |outputs| == |r.selections| + 1
    ensures outputs[0] == ResultOutput(None, r.goal.role, r.goal.name, PresenceOutput, r.goal.context)
    ensures forall i | 0 <= i < |r.selections| :: outputs[i + 1] == OutputOf(r.selections[i])
    ensures OutputsUse(outputs) == Used(r.goal.context)
    ensures use17 <==> exists s <- r.selections :: TypedOutput(s.kind)
  {
    hide Validated, Meets, OutputsUse;
    var first := ResultOutput(None, r.goal.role, r.goal.name, PresenceOutput, r.goal.context);
    OutputsUseAppend([], first);
    assert OutputsUse([]) == {} by { NoOutputs(); }
    outputs, use17 := [] + [first], false;
    for i := 0 to |r.selections|
      invariant |outputs| == i + 1 && outputs[0] == first
      invariant forall j | 0 <= j < i :: outputs[j + 1] == OutputOf(r.selections[j])
      invariant OutputsUse(outputs) == Used(r.goal.context)
      invariant use17 <==> exists s <- r.selections[..i] :: TypedOutput(s.kind)
    {
      var s := r.selections[i];
      OutputContext(r, s);
      OutputsUseAppend(outputs, OutputOf(s));
      outputs := outputs + [OutputOf(s)];
      if TypedOutput(s.kind) { use17 := true; }
      assert r.selections[..i + 1] == r.selections[..i] + [s];
    }
    assert r.selections[..|r.selections|] == r.selections;
  }

  lemma MainIsNoContext(r: BuildRequest, s: TraceStep)
    requires Validated(r) && s in r.trace
    ensures s.opens.Some? ==> s.opens.value != Main && s.opens.value in r.contexts
    ensures s.context != Main ==> s.context in r.contexts
  {
    hide Rooted, Reaches;
    assert TraceStepOk(r.contexts, s);
    if s.opens.Some? { assert ResultContextOk(r.origins, r.contexts, s.opens.value); }
  }

  lemma NoMain(r: BuildRequest)
    requires Validated(r)
    ensures Main !in r.contexts
  {
    hide Rooted, Reaches;
    assert Main in r.contexts ==> ResultContextOk(r.origins, r.contexts, Main);
  }

  /** The authentication step a trace step compiles to, given the number of credential slots so far. */
  function AuthenticationStep(s: TraceStep, slots: nat): Option<ProfileStep> {
    match s.kind
    case FocusKind =>
      if s.input == OtpInput then
        if Portable(s) then Some(Challenged(s.challenge, Some((s.role, s.name)), s.context)) else None
      else if s.input == MfaInput then Some(Challenged(s.challenge, None, s.context))
      else if Portable(s) then Some(TypeInto(s.role, s.name, slots + 1, s.input == PasswordInput, s.context)) else None
    case ClickKind => if Portable(s) then Some(Press(s.role, s.name, s.context, s.opens)) else None
    case _ => None
  }

  predicate Compiled(s: TraceStep) { s.phase == Authentication && (s.kind == FocusKind || s.kind == ClickKind) }

  predicate TypesCredential(s: TraceStep) {
    Compiled(s) && s.kind == FocusKind && s.input != OtpInput && s.input != MfaInput
  }

  /** Credential slots are numbered in the order in which they are typed. */
  function SlotCount(trace: seq<TraceStep>, n: nat): nat
    requires n <= |trace|
  {
    if n == 0 then 0 else SlotCount(trace, n - 1) + if TypesCredential(trace[n - 1]) then 1 else 0
  }

  function AuthenticationSteps(trace: seq<TraceStep>, n: nat): seq<ProfileStep>
    requires n <= |trace|
    requires forall i | 0 <= i < n && Compiled(trace[i]) :: AuthenticationStep(trace[i], 0).Some?
  {
    if n == 0 then []
    else
      var s := trace[n - 1];
      assert Compiled(s) ==> AuthenticationStep(s, 0).Some?;
      AuthenticationSteps(trace, n - 1)
      + if Compiled(s) then [AuthenticationStep(s, SlotCount(trace, n - 1)).value] else []
  }

  /** The authentication profile: human inputs and clicks before the dashboard; its contexts cover every mention. */
  method BuildAuthenticationProfile(r: BuildRequest) returns (profile: Option<Profile>)
    requires Validated(r)
    ensures profile.Some? <==> forall s <- r.trace :: Compiled(s) ==> AuthenticationStep(s, 0).Some?
    ensures profile.Some? ==> IsAuthentication(r, profile.value)
  {
    hide Validated, SelectionsOk, Requests, AncestorClosed, StepsUse, Within;
    var ok, steps, ids := CompileAuthentication(r);
    if !ok { return None; }
    NoMain(r);
    AuthenticationUse(r);
    var selected := SelectContexts(r.contexts, ids);
    SelectionCovers(r.contexts, ids, selected, StepsUse(steps) + Used(r.authentication.context));
    assert OutputsUse([]) == {};
    profile := Some(Profile(steps, r.authentication.context, [], Some(selected), WithContexts));
  }

  lemma AuthenticationUse(r: BuildRequest)
    requires Validated(r)
    ensures r.authentication.context == Main || r.authentication.context in r.contexts
    ensures Rooted(r.contexts)
  {
  }

  method CompileAuthentication(r: BuildRequest) returns (ok: bool, steps: seq<ProfileStep>, ids: seq<ContextId>)
    requires Validated(r)
    ensures ok <==> forall s <- r.trace :: Compiled(s) ==> AuthenticationStep(s, 0).Some?
    ensures ok ==> steps == [Goto(r.initial, Main)] + AuthenticationSteps(r.trace, |r.trace|)
                   && Collected(r, steps, ids) && r.authentication.context in ids
  {
    hide Validated, Collected;
    var slots := 0;
    steps, ids := [] + [Goto(r.initial, Main)], [r.authentication.context];
    assert Collected(r, steps, ids) by { FirstCollected(r, ids); }
    for i := 0 to |r.trace|
      invariant forall j | 0 <= j < i && Compiled(r.trace[j]) :: AuthenticationStep(r.trace[j], 0).Some?
      invariant steps == [Goto(r.initial, Main)] + AuthenticationSteps(r.trace, i) && slots == SlotCount(r.trace, i)
      invariant r.authentication.context in ids && Collected(r, steps, ids)
    {
      var s := r.trace[i];
      assert s in r.trace;
      if s.phase == Authentication && s.kind != NavigateKind {
        if s.kind == FocusKind || s.kind == ClickKind {
          var step := AuthenticationStep(s, slots);
          if step.None? { return false, steps, ids; }
          if step.value.TypeInto? { slots := slots + 1; }
          CollectedAppend(r, steps, ids, s, step.value);
          steps := steps + [step.value];
        } else {
          CollectedMore(r, steps, ids, s);
        }
        ids := ids + [s.context] + if s.opens.Some? then [s.opens.value] else [];
      }
    }
    ok := true;
  }

  lemma FirstCollected(r: BuildRequest, ids: seq<ContextId>)
    ensures Collected(r, [] + [Goto(r.initial, Main)], ids)
  {
    StepsUseAppend([], Goto(r.initial, Main));
  }

  lemma CollectedMore(r: BuildRequest, steps: seq<ProfileStep>, ids: seq<ContextId>, s: TraceStep)
    requires Collected(r, steps, ids)
    ensures Collected(r, steps, ids + [s.context] + if s.opens.Some? then [s.opens.value] else [])
  {
  }

  /** What Build accepts. */
  predicate Buildable(r: BuildRequest) {
    && Meets(r.goal, r.goalProof) && Validated(r)
    && (forall s <- r.trace :: Compiled(s) ==> AuthenticationStep(s, 0).Some?)
    && (forall s <- r.trace :: s.phase == Exploration ==> CapabilityStep(s).Some?)
  }

  /** Both profiles, from one validated request. */
  method Build(r: BuildRequest) returns (profiles: Option<(Profile, Profile)>)
    ensures profiles.Some? <==> Buildable(r)
    ensures profiles.Some? ==> IsAuthentication(r, profiles.value.0) && IsCapability(r, profiles.value.1)
  {
    hide Validated, Meets, IsAuthentication, IsCapability;
    if !Meets(r.goal, r.goalProof) { return None; }
    var ok := ValidateBuildRequest(r);
    if !ok { return None; }
    var authentication := BuildAuthenticationProfile(r);
    if authentication.None? { return None; }
    var capability := BuildCapabilityProfile(r);
    if capability.None? { return None; }
    profiles := Some((authentication.value, capability.value));
  }

  /** A session's trace never meets an unsupported exploration step: only portability is left to fail. */
  lemma SessionTracesCompile(trace: seq<TraceStep>, n: nat, s: TraceStep)
    requires Ordered(trace, n) && s in trace && s.phase == Exploration
    requires s.kind == NavigateKind ==> s.url.Some? && s.url.value.Url?
    ensures CapabilityStep(s).Some? <==> (s.kind == ClickKind ==> Portable(s))
  {
    var i :| 0 <= i < |trace| && trace[i] == s;
    assert i >= n;
  }
}
