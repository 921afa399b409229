/**
 What the guide builds from an operator's intent: steps and outputs that only use catalog locators
 of the selected evidence, and a decision for every ambiguous one.
 */
module GuideActions {
  import opened Wrappers
  import opened Guide
  import opened Revalidate

  const MAX_EVIDENCE := 64
  const MAX_STEPS := 128

  datatype WaitIntent = WaitIntent(locator: Option<LocatorId>, navigation: Option<bool>)

  /** `secret` targets look like credentials. */
  datatype StepIntent = StepIntent(
    kind: StepKind, target: string, secret: bool, locator: Option<LocatorId>, parameter: string, wait: Option<WaitIntent>)

  datatype Declaration = Declaration(hint: OutputId, source: Source, locator: Option<LocatorId>, rest: string, refused: bool)

  datatype Resolution = Resolution(locator: LocatorId, rationale: string, secret: bool)

  /** `sound` stands for the checks of description, side effects, confirmation and templates. */
  datatype ActionIntent = ActionIntent(
    id: string, evidence: seq<RecordId>, parameters: set<string>, sequence: seq<StepIntent>, outputs: seq<OutputId>,
    declarations: seq<Declaration>, resolutions: seq<Resolution>, sound: bool)

  /** Catalog locators of selected records. */
  predicate Usable(c: Catalog, selected: set<RecordId>, ids: set<LocatorId>) {
    forall id <- ids :: id in c.locators && c.locators[id].record in selected
  }

  predicate InUse(c: Catalog, ids: set<LocatorId>, l: Locator) {
    exists id <- ids :: id in c.locators && c.locators[id].candidate.locator == l
  }

  method LocatorFor(c: Catalog, selected: set<RecordId>, id: Option<LocatorId>) returns (l: Option<Locator>)
    ensures l.Some? <==> id.Some? && Usable(c, selected, {id.value})
    ensures l.Some? ==> l.value == c.locators[id.value].candidate.locator
  {
    if id.None? || id.value !in c.locators || c.locators[id.value].record !in selected { return None; }
    l := Some(c.locators[id.value].candidate.locator);
  }

  predicate LocatorOk(c: Catalog, selected: set<RecordId>, id: Option<LocatorId>) {
    id.Some? && Usable(c, selected, {id.value})
  }

  /** A wait is exactly one locator or one supported navigation event. */
  predicate WaitFits(c: Catalog, selected: set<RecordId>, wait: Option<WaitIntent>) {
    wait.Some? ==>
      if wait.value.locator.Some? then wait.value.navigation.None? && LocatorOk(c, selected, wait.value.locator)
      else wait.value.navigation == Some(true)
  }

  predicate TypesValue(k: StepKind) { k == TypeText || k == SelectOption }

  /** The closed macro set: what each kind of step must and must not carry. */
  predicate StepFits(c: Catalog, selected: set<RecordId>, parameters: set<string>, i: StepIntent) {
    match i.kind
    case Navigate => i.locator.None? && i.parameter == "" && i.wait.None? && !Blank(i.target) && !i.secret
    case WaitFor => i.locator.None? && i.parameter == "" && Blank(i.target) && i.wait.Some? && WaitFits(c, selected, i.wait)
    case OtherStep(_) => false
    case _ => Blank(i.target) && LocatorOk(c, selected, i.locator) && WaitFits(c, selected, i.wait)
              && if TypesValue(i.kind) then i.parameter in parameters else i.parameter == ""
  }

  function PlannedLocator(c: Catalog, id: Option<LocatorId>): Option<Locator> {
    if id.Some? && id.value in c.locators then Some(c.locators[id.value].candidate.locator) else None
  }

  function PlannedWait(c: Catalog, wait: Option<WaitIntent>): Option<Wait> {
    if wait.None? then None
    else
      var l := PlannedLocator(c, wait.value.locator);
      Some(if l.Some? then OnLocator(l.value) else OnNavigation)
  }

  /** The step an intent stands for. */
  function PlannedStep(c: Catalog, i: StepIntent): Step {
    Step(i.kind, if i.kind == Navigate then i.target else "", PlannedLocator(c, i.locator),
         if TypesValue(i.kind) then "{{" + i.parameter + "}}" else "", PlannedWait(c, i.wait))
  }

  function StepUses(i: StepIntent): set<LocatorId> {
    (if i.locator.Some? then {i.locator.value} else {})
    + if i.wait.Some? && i.wait.value.locator.Some? then {i.wait.value.locator.value} else {}
  }

  method WaitOf(c: Catalog, selected: set<RecordId>, wait: Option<WaitIntent>)
    returns (ok: bool, w: Option<Wait>, used: set<LocatorId>)
    ensures ok <==> WaitFits(c, selected, wait)
    ensures ok ==> w == PlannedWait(c, wait)
    ensures ok ==> used == if wait.Some? && wait.value.locator.Some? then {wait.value.locator.value} else {}
  {
    used := {};
    if wait.None? { return true, None, used; }
    var i := wait.value;
    if i.locator.Some? && i.navigation.Some? { return false, None, used; }
    if i.locator.Some? {
      var l := LocatorFor(c, selected, i.locator);
      if l.None? { return false, None, used; }
      return true, Some(OnLocator(l.value)), {i.locator.value};
    }
    if i.navigation == Some(true) { return true, Some(OnNavigation), used; }
    return false, None, used;
  }

  /** One step, accepted exactly when it fits its kind. */
  method BuildStep(c: Catalog, selected: set<RecordId>, parameters: set<string>, i: StepIntent)
    returns (step: Option<Step>, used: set<LocatorId>)
    ensures step.Some? <==> StepFits(c, selected, parameters, i)
    ensures step.Some? ==> step.value == PlannedStep(c, i) && used == StepUses(i)
  {
    used := {};
    match i.kind {
      case Navigate =>
        if i.locator.Some? || i.parameter != "" || i.wait.Some? || Blank(i.target) || i.secret { return None, used; }
        return Some(Step(Navigate, i.target, None, "", None)), used;
      case WaitFor =>
        if i.locator.Some? || i.parameter != "" || !Blank(i.target) || i.wait.None? { return None, used; }
        var ok, w;
        ok, w, used := WaitOf(c, selected, i.wait);
        if !ok { return None, used; }
        return Some(Step(WaitFor, "", None, "", w)), used;
      case OtherStep(_) => return None, used;
      case _ =>
        var typed := i.kind == TypeText || i.kind == SelectOption;
        if !Blank(i.target) || (!typed && i.parameter != "") { return None, used; }
        var l := LocatorFor(c, selected, i.locator);
        if l.None? || (typed && i.parameter !in parameters) { return None, used; }
        var ok, w, waited := WaitOf(c, selected, i.wait);
        if !ok { return None, used; }
        used := {i.locator.value} + waited;
        return Some(Step(i.kind, "", l, if typed then "{{" + i.parameter + "}}" else "", w)), used;
    }
  }

  /** Whatever a fitting step declares is a usable catalog locator. */
  lemma StepInUse(c: Catalog, selected: set<RecordId>, parameters: set<string>, i: StepIntent, l: Locator)
    requires StepFits(c, selected, parameters, i)
    ensures Usable(c, selected, StepUses(i))
    ensures StepDeclares(PlannedStep(c, i), l) ==> InUse(c, StepUses(i), l)
  {
    if i.locator.Some? { assert i.locator.value in StepUses(i); }
    if i.wait.Some? && i.wait.value.locator.Some? { assert i.wait.value.locator.value in StepUses(i); }
  }

  function SequenceUses(intents: seq<StepIntent>): set<LocatorId> {
    set i, id | i in intents && id in StepUses(i) :: id
  }

  method BuildSequence(c: Catalog, selected: set<RecordId>, parameters: set<string>, intents: seq<StepIntent>)
    returns (steps: Option<seq<Step>>, used: set<LocatorId>)
    ensures steps.Some? <==> 0 < |intents| <= MAX_STEPS && forall i <- intents :: StepFits(c, selected, parameters, i)
    ensures steps.Some? ==> steps.value == PlannedSteps(c, intents) && used == SequenceUses(intents)
  {
    hide StepFits, PlannedStep, StepUses;
    used := {};
    if |intents| == 0 || |intents| > MAX_STEPS { return None, used; }
    var built: seq<Step> := [];
    for i := 0 to |intents|
      invariant forall j | 0 <= j < i :: StepFits(c, selected, parameters, intents[j])
      invariant built == PlannedSteps(c, intents[..i]) && used == SequenceUses(intents[..i])
    {
      assert intents[..i + 1] == intents[..i] + [intents[i]];
      var step, more := BuildStep(c, selected, parameters, intents[i]);
      if step.None? { return None, used; }
      used := used + more;
      built := built + [step.value];
    }
    assert intents[..|intents|] == intents;
    steps := Some(built);
  }

  function PlannedSteps(c: Catalog, intents: seq<StepIntent>): seq<Step> {
    seq(|intents|, k requires 0 <= k < |intents| => PlannedStep(c, intents[k]))
  }

  // Outputs.

  function OutputOf(o: CandidateOutput): ActionOutput {
    ActionOutput(o.source, if o.locator.Some? then Some(o.locator.value.locator) else None, o.rest)
  }

  /** Outputs by key, as they are asked for; the same key may be asked for again with the same output. */
  type Plan = seq<(string, ActionOutput)>

  predicate Consistent(p: Plan) {
    forall i, j | 0 <= i < j < |p| && p[i].0 == p[j].0 :: p[i].1 == p[j].1
  }

  predicate Carries(m: map<string, ActionOutput>, p: Plan) {
    && (forall i | 0 <= i < |p| :: p[i].0 in m && m[p[i].0] == p[i].1)
    && forall k <- m :: exists i :: 0 <= i < |p| && p[i].0 == k
  }

  lemma CarriesMore(m: map<string, ActionOutput>, p: Plan, key: string, o: ActionOutput)
    requires Carries(m, p) && (key in m ==> m[key] == o)
    ensures Carries(m[key := o], p + [(key, o)])
  {
    var m', p' := m[key := o], p + [(key, o)];
    forall k | k in m' ensures exists i :: 0 <= i < |p'| && p'[i].0 == k {
      if k == key {
        assert p'[|p|].0 == k;
      } else {
        var i :| 0 <= i < |p| && p[i].0 == k;
        assert p'[i].0 == k;
      }
    }
  }

  lemma CarriedIsConsistent(m: map<string, ActionOutput>, p: Plan)
    requires Carries(m, p)
    ensures Consistent(p)
  {
  }

  /** A key that is taken by another output makes the whole plan inconsistent. */
  lemma Clash(m: map<string, ActionOutput>, p: Plan, whole: Plan)
    requires |p| < |whole| && whole[..|p|] == p && Carries(m, p)
    requires whole[|p|].0 in m && m[whole[|p|].0] != whole[|p|].1
    ensures !Consistent(whole)
  {
    var i :| 0 <= i < |p| && p[i].0 == whole[|p|].0;
    assert whole[i] == p[i];
  }

  predicate BoundOk(c: Catalog, selected: set<RecordId>, id: OutputId) {
    id in c.outputs && c.outputs[id].record in selected
    && c.outputs[id].output.source != NoSource && !c.outputs[id].output.refused
  }

  function PlannedOutput(c: Catalog, id: OutputId): (string, ActionOutput) {
    if id in c.outputs then (c.outputs[id].output.key, OutputOf(c.outputs[id].output)) else ("", ActionOutput(NoSource, None, ""))
  }

  function BoundPlan(c: Catalog, ids: seq<OutputId>): Plan {
    seq(|ids|, k requires 0 <= k < |ids| => PlannedOutput(c, ids[k]))
  }

  function BoundUses(c: Catalog, ids: seq<OutputId>): set<LocatorId> {
    set id | id in ids && id in c.outputs && c.outputs[id].locator.Some? :: c.outputs[id].locator.value
  }

  predicate BoundFit(c: Catalog, selected: set<RecordId>, ids: seq<OutputId>) {
    (forall id <- ids :: BoundOk(c, selected, id)) && (forall i, j | 0 <= i < j < |ids| :: ids[i] != ids[j])
  }

  /** Bound outputs carry their own source and locator. */
  method BuildOutputs(c: Catalog, selected: set<RecordId>, ids: seq<OutputId>)
    returns (outputs: Option<map<string, ActionOutput>>, used: set<LocatorId>)
    ensures outputs.Some? <==> BoundFit(c, selected, ids) && Consistent(BoundPlan(c, ids))
    ensures outputs.Some? ==> Carries(outputs.value, BoundPlan(c, ids)) && used == BoundUses(c, ids)
  {
    hide Consistent, Carries, OutputOf;
    used := {};
    var built: map<string, ActionOutput>, seen: set<OutputId> := map[], {};
    CarriesNothing();
    assert BoundPlan(c, ids[..0]) == [];
    for i := 0 to |ids|
      invariant BoundFit(c, selected, ids[..i])
      invariant forall x :: x in seen <==> x in ids[..i]
      invariant Carries(built, BoundPlan(c, ids[..i])) && used == BoundUses(c, ids[..i])
    {
      ghost var plan := BoundPlan(c, ids[..i]);
      assert ids[..i + 1] == ids[..i] + [ids[i]];
      assert BoundPlan(c, ids[..i + 1]) == plan + [PlannedOutput(c, ids[i])];
      assert ids[i] in ids;
      if ids[i] in seen || ids[i] !in c.outputs { return None, used; }
      seen := seen + {ids[i]};
      var o := c.outputs[ids[i]];
      if o.record !in selected || o.output.source == NoSource || o.output.refused { return None, used; }
      var output := OutputOf(o.output);
      if o.output.key in built && built[o.output.key] != output {
        Clash(built, plan, BoundPlan(c, ids));
        return None, used;
      }
      if o.locator.Some? { used := used + {o.locator.value}; }
      CarriesMore(built, plan, o.output.key, output);
      built := built[o.output.key := output];
    }
    assert ids[..|ids|] == ids;
    CarriedIsConsistent(built, BoundPlan(c, ids));
    outputs := Some(built);
  }

  lemma CarriesNothing()
    ensures Carries(map[], [])
  {
  }

  /** Outputs that carry a fitting plan of a catalog use its locators. */
  lemma BoundInUse(c: Catalog, selected: set<RecordId>, ids: seq<OutputId>, k: nat)
    requires CatalogOk(c) && BoundFit(c, selected, ids) && k < |ids|
    ensures Usable(c, selected, BoundUses(c, ids))
    ensures var o := BoundPlan(c, ids)[k].1;
            o.source == A11y && o.locator.Some? ==> InUse(c, BoundUses(c, ids), o.locator.value)
  {
    assert ids[k] in ids && BoundOk(c, selected, ids[k]);
    forall id <- BoundUses(c, ids) ensures id in c.locators && c.locators[id].record in selected {
      var x :| x in ids && x in c.outputs && c.outputs[x].locator == Some(id);
      assert BoundOk(c, selected, x);
    }
    var e := c.outputs[ids[k]];
    if e.output.locator.Some? {
      assert e.locator.value in BoundUses(c, ids);
    }
  }

  predicate DeclarationOk(c: Catalog, selected: set<RecordId>, d: Declaration) {
    && d.hint in c.outputs && c.outputs[d.hint].output.source == NoSource && c.outputs[d.hint].record in selected
    && !d.refused && !d.source.NoSource? && !d.source.OtherSource?
    && (d.source == A11y ==> LocatorOk(c, selected, d.locator))
  }

  predicate DeclarationsFit(c: Catalog, selected: set<RecordId>, ds: seq<Declaration>) {
    (forall d <- ds :: DeclarationOk(c, selected, d)) && (forall i, j | 0 <= i < j < |ds| :: ds[i].hint != ds[j].hint)
  }

  function DeclaredOutput(c: Catalog, d: Declaration): (string, ActionOutput) {
    (if d.hint in c.outputs then c.outputs[d.hint].output.key else "",
     ActionOutput(d.source, if d.source == A11y then PlannedLocator(c, d.locator) else None, d.rest))
  }

  function DeclaredPlan(c: Catalog, ds: seq<Declaration>): Plan {
    seq(|ds|, k requires 0 <= k < |ds| => DeclaredOutput(c, ds[k]))
  }

  function DeclaredUses(ds: seq<Declaration>): set<LocatorId> {
    set d | d in ds && d.source == A11y && d.locator.Some? :: d.locator.value
  }

  /** Declarations give unbound hints an explicit portable source. */
  method DeclareOutputs(c: Catalog, selected: set<RecordId>, ds: seq<Declaration>, outputs: map<string,
      ActionOutput>, ghost plan: Plan)
    returns (r: Option<map<string, ActionOutput>>, used: set<LocatorId>)
    requires Carries(outputs, plan)
    ensures r.Some? <==> DeclarationsFit(c, selected, ds) && Consistent(plan + DeclaredPlan(c, ds))
    ensures r.Some? ==> Carries(r.value, plan + DeclaredPlan(c, ds)) && used == DeclaredUses(ds)
  {
    hide Consistent, Carries, LocatorOk;
    used := {};
    var built, hints: set<OutputId> := outputs, {};
    assert plan + DeclaredPlan(c, ds[..0]) == plan;
    for i := 0 to |ds|
      invariant DeclarationsFit(c, selected, ds[..i])
      invariant forall h :: h in hints <==> exists j :: 0 <= j < i && ds[j].hint == h
      invariant Carries(built, plan + DeclaredPlan(c, ds[..i])) && used == DeclaredUses(ds[..i])
    {
      var d := ds[i];
      ghost var before := plan + DeclaredPlan(c, ds[..i]);
      assert ds[..i + 1] == ds[..i] + [d];
      assert plan + DeclaredPlan(c, ds[..i + 1]) == before + [DeclaredOutput(c, d)];
      assert d in ds;
      if d.hint in hints || d.hint !in c.outputs { return None, used; }
      hints := hints + {d.hint};
      var o := c.outputs[d.hint];
      if o.output.source != NoSource || o.record !in selected || d.refused { return None, used; }
      var locator, ok := DeclaredLocator(c, selected, d);
      if !ok { return None, used; }
      if d.source == A11y { used := used + {d.locator.value}; }
      var output := ActionOutput(d.source, locator, d.rest);
      if o.output.key in built && built[o.output.key] != output {
        Clash(built, before, plan + DeclaredPlan(c, ds));
        return None, used;
      }
      CarriesMore(built, before, o.output.key, output);
      built := built[o.output.key := output];
    }
    assert ds[..|ds|] == ds;
    CarriedIsConsistent(built, plan + DeclaredPlan(c, ds));
    r := Some(built);
  }

  method DeclaredLocator(c: Catalog, selected: set<RecordId>, d: Declaration) returns (locator: Option<Locator>, ok: bool)
    ensures ok <==> !d.source.NoSource? && !d.source.OtherSource? && (d.source == A11y ==> LocatorOk(c, selected, d.locator))
    ensures ok ==> locator == if d.source == A11y then PlannedLocator(c, d.locator) else None
    ensures ok && d.source == A11y ==> d.locator.Some?
  {
    locator := None;
    match d.source {
      case A11y =>
        locator := LocatorFor(c, selected, d.locator);
        ok := locator.Some?;
      case JsonLd => ok := true;
      case Microdata => ok := true;
      case Css => ok := true;
      case _ => ok := false;
    }
  }

  lemma DeclaredInUse(c: Catalog, selected: set<RecordId>, ds: seq<Declaration>, k: nat)
    requires DeclarationsFit(c, selected, ds) && k < |ds|
    ensures Usable(c, selected, DeclaredUses(ds))
    ensures var o := DeclaredPlan(c, ds)[k].1;
            o.source == A11y && o.locator.Some? ==> InUse(c, DeclaredUses(ds), o.locator.value)
  {
    assert ds[k] in ds && DeclarationOk(c, selected, ds[k]);
    forall id <- DeclaredUses(ds) ensures id in c.locators && c.locators[id].record in selected {
      var d :| d in ds && d.source == A11y && d.locator == Some(id);
      assert DeclarationOk(c, selected, d);
    }
    if ds[k].source == A11y {
      assert ds[k].locator.value in DeclaredUses(ds);
    }
  }

  // Decisions.

  predicate NotedIn(records: seq<Evidence>, l: Locator) { exists r <- records :: Noted(r, l) }

  /** The locator of an entry is ambiguous somewhere in the selected records. */
  predicate NeedsDecision(c: Catalog, records: seq<Evidence>, id: LocatorId) {
    id in c.locators && NotedIn(records, c.locators[id].candidate.locator)
  }

  /** Every resolution is distinct, states a reason, and answers an ambiguous locator in use. */
  predicate ResolutionsFit(c: Catalog, records: seq<Evidence>, used: set<LocatorId>, rs: seq<Resolution>) {
    && (forall i, j | 0 <= i < j < |rs| :: rs[i].locator != rs[j].locator)
    && (forall r <- rs :: !r.secret && !Blank(r.rationale) && r.locator in used && NeedsDecision(c, records, r.locator))
    && (forall id <- used :: NeedsDecision(c, records, id) ==> exists r <- rs :: r.locator == id)
  }

  /** A decision states the reason given for this entry's locator. */
  predicate Answers(c: Catalog, action: string, rs: seq<Resolution>, d: Decision) {
    exists r <- rs :: r.locator in c.locators
                      && d == Decision(action, c.locators[r.locator].candidate.locator, r.rationale)
  }

  method Ambiguity(l: Locator, records: seq<Evidence>) returns (b: bool)
    ensures b <==> NotedIn(records, l)
  {
    var ms := MatchingCandidates(l, records);
    b := exists m <- ms :: Ambiguous(m);
  }

  method ReadResolutions(rs: seq<Resolution>) returns (ok: bool, byId: map<LocatorId, string>)
    ensures ok <==> (forall r <- rs :: !r.secret) && forall i, j | 0 <= i < j < |rs| :: rs[i].locator != rs[j].locator
    ensures ok ==> (forall r <- rs :: r.locator in byId && byId[r.locator] == r.rationale)
                   && forall id <- byId :: exists r <- rs :: r.locator == id && r.rationale == byId[id]
  {
    byId := map[];
    for i := 0 to |rs|
      invariant forall j | 0 <= j < i :: !rs[j].secret && rs[j].locator in byId && byId[rs[j].locator] == rs[j].rationale
      invariant forall id <- byId :: exists j | 0 <= j < i :: rs[j].locator == id && rs[j].rationale == byId[id]
      invariant forall j, k | 0 <= j < k < i :: rs[j].locator != rs[k].locator
    {
      assert rs[i] in rs;
      if rs[i].locator in byId || rs[i].secret { return false, byId; }
      byId := byId[rs[i].locator := rs[i].rationale];
    }
    ok := true;
  }

  /**
   Decisions for exactly the ambiguous locators in use; a missing, blank, repeated or unused resolution
   is refused.
   */
  method BuildDecisions(action: string, c: Catalog, records: seq<Evidence>, used: set<LocatorId>, rs: seq<Resolution>)
    returns (ds: Option<seq<Decision>>)
    requires forall id <- used :: id in c.locators
    ensures ds.Some? <==> ResolutionsFit(c, records, used, rs)
    ensures ds.Some? ==> (forall d <- ds.value :: Answers(c, action, rs, d))
                         && forall id <- used :: NeedsDecision(c, records, id)
                                                 ==> Decided(action, c.locators[id].candidate.locator, ds.value)
  {
    hide Decided, NotedIn, NeedsDecision, ResolutionsFit, Settled, Blank;
    var ok, byId := ReadResolutions(rs);
    if !ok {
      RefusedUnread(c, records, used, rs);
      return None;
    }
    var decisions: seq<Decision>, left, ids := [], byId.Keys, used;
    ghost var done: set<LocatorId> := {};
    while ids != {}
      invariant forall k :: k in used <==> k in done || k in ids
      invariant forall k :: k in left <==> k in byId && k !in done
      invariant forall id <- done :: Settled(action, c, records, byId, decisions, id)
      invariant forall d <- decisions :: Answers(c, action, rs, d)
      decreases |ids|
    {
      var id :| id in ids;
      ids := ids - {id};
      ok, decisions := DecideOne(action, c, records, used, rs, byId, decisions, done, id);
      if !ok { return None; }
      left, done := left - {id}, done + {id};
    }
    if left != {} {
      var id :| id in left;
      Unneeded(c, records, used, rs, byId, id);
      return None;
    }
    AllSettled(action, c, records, used, rs, byId, decisions);
    ds := Some(decisions);
  }

  method DecideOne(action: string, c: Catalog, records: seq<Evidence>, ghost used: set<LocatorId>,
      ghost rs: seq<Resolution>,
                   byId: map<LocatorId, string>, ds: seq<Decision>, ghost done: set<LocatorId>, id: LocatorId)
    returns (ok: bool, r: seq<Decision>)
    requires id in c.locators && id in used
    requires forall k <- done :: Settled(action, c, records, byId, ds, k)
    requires forall d <- ds :: Answers(c, action, rs, d)
    requires forall x <- rs :: x.locator in byId && byId[x.locator] == x.rationale
    requires forall k <- byId :: exists x <- rs :: x.locator == k && x.rationale == byId[k]
    ensures ok ==> forall k <- done + {id} :: Settled(action, c, records, byId, r, k)
    ensures ok ==> forall d <- r :: Answers(c, action, rs, d)
    ensures !ok ==> !ResolutionsFit(c, records, used, rs)
  {
    hide Decided, NotedIn, NeedsDecision, ResolutionsFit, Settled, Blank;
    r := ds;
    var l := c.locators[id].candidate.locator;
    var ambiguous := Ambiguity(l, records);
    NeedMeans(c, records, id);
    if ambiguous {
      if id !in byId || Blank(byId[id]) {
        Unresolved(c, records, used, rs, byId, id);
        return false, r;
      }
      SettledMore(action, c, records, byId, ds, Decision(action, l, byId[id]), done, id);
      assert Answers(c, action, rs, Decision(action, l, byId[id]));
      r := ds + [Decision(action, l, byId[id])];
    } else if id in byId {
      Unneeded(c, records, used, rs, byId, id);
      return false, r;
    } else {
      SettledUnneeded(action, c, records, byId, ds, id);
    }
    ok := true;
  }

  /** An entry is settled when it is decided if it needs it, and unmentioned if it does not. */
  ghost predicate Settled(action: string, c: Catalog, records: seq<Evidence>, byId: map<LocatorId, string>,
                          ds: seq<Decision>, id: LocatorId) {
    && id in c.locators
    && (NeedsDecision(c, records, id) ==>
          id in byId && !Blank(byId[id]) && Decided(action, c.locators[id].candidate.locator, ds))
    && (!NeedsDecision(c, records, id) ==> id !in byId)
  }

  lemma SettledMore(action: string, c: Catalog, records: seq<Evidence>, byId: map<LocatorId, string>,
                    ds: seq<Decision>, d: Decision, done: set<LocatorId>, id: LocatorId)
    requires forall k <- done :: Settled(action, c, records, byId, ds, k)
    requires id in c.locators && id in byId && !Blank(byId[id]) && NeedsDecision(c, records, id)
    requires d == Decision(action, c.locators[id].candidate.locator, byId[id])
    ensures forall k <- done + {id} :: Settled(action, c, records, byId, ds + [d], k)
  {
    hide Decided, NeedsDecision, Blank;
    DecidedMore(action, ds, d);
  }

  lemma SettledUnneeded(action: string, c: Catalog, records: seq<Evidence>, byId: map<LocatorId, string>,
                        ds: seq<Decision>, id: LocatorId)
    requires id in c.locators && id !in byId && !NeedsDecision(c, records, id)
    ensures Settled(action, c, records, byId, ds, id)
  {
    hide NeedsDecision;
  }

  lemma NeedMeans(c: Catalog, records: seq<Evidence>, id: LocatorId)
    requires id in c.locators
    ensures NeedsDecision(c, records, id) <==> NotedIn(records, c.locators[id].candidate.locator)
  {
    hide NotedIn;
  }

  lemma RefusedUnread(c: Catalog, records: seq<Evidence>, used: set<LocatorId>, rs: seq<Resolution>)
    requires !((forall r <- rs :: !r.secret) && forall i, j | 0 <= i < j < |rs| :: rs[i].locator != rs[j].locator)
    ensures !ResolutionsFit(c, records, used, rs)
  {
    hide NeedsDecision, Blank;
  }

  lemma Unneeded(c: Catalog, records: seq<Evidence>, used: set<LocatorId>, rs: seq<Resolution>,
                 byId: map<LocatorId, string>, id: LocatorId)
    requires id in byId && (id !in used || !NeedsDecision(c, records, id))
    requires forall k <- byId :: exists r <- rs :: r.locator == k && r.rationale == byId[k]
    ensures !ResolutionsFit(c, records, used, rs)
  {
    hide NeedsDecision, Blank;
    var r :| r in rs && r.locator == id;
  }

  lemma AllSettled(action: string, c: Catalog, records: seq<Evidence>, used: set<LocatorId>, rs: seq<Resolution>,
                   byId: map<LocatorId, string>, ds: seq<Decision>)
    requires (forall r <- rs :: !r.secret) && forall i, j | 0 <= i < j < |rs| :: rs[i].locator != rs[j].locator
    requires (forall r <- rs :: r.locator in byId && byId[r.locator] == r.rationale)
    requires forall id <- byId :: exists r <- rs :: r.locator == id && r.rationale == byId[id]
    requires byId.Keys <= used && forall id <- used :: Settled(action, c, records, byId, ds, id)
    ensures ResolutionsFit(c, records, used, rs)
    ensures forall id <- used :: NeedsDecision(c, records, id) ==> Decided(action, c.locators[id].candidate.locator, ds)
  {
    hide NeedsDecision, Blank, Decided;
    forall r <- rs ensures !Blank(r.rationale) && r.locator in used && NeedsDecision(c, records, r.locator) {
      assert Settled(action, c, records, byId, ds, r.locator);
    }
  }

  lemma Unresolved(c: Catalog, records: seq<Evidence>, used: set<LocatorId>, rs: seq<Resolution>,
                   byId: map<LocatorId, string>, id: LocatorId)
    requires id in used && NeedsDecision(c, records, id) && (id !in byId || Blank(byId[id]))
    requires forall r <- rs :: r.locator in byId && byId[r.locator] == r.rationale
    ensures !ResolutionsFit(c, records, used, rs)
  {
    hide NeedsDecision, Blank;
  }

  lemma DecidedMore(action: string, ds: seq<Decision>, d: Decision)
    requires d.hint == action && !Blank(d.rationale)
    ensures Decided(action, d.locator, ds + [d])
    ensures forall l :: Decided(action, l, ds) ==> Decided(action, l, ds + [d])
  {
    assert d in ds + [d];
    forall l | Decided(action, l, ds) ensures Decided(action, l, ds + [d]) {
      var x :| x in ds && x.hint == action && x.locator == l && !Blank(x.rationale);
      assert x in ds + [d];
    }
  }

  // Actions.

  predicate EvidenceFits(c: Catalog, ids: seq<RecordId>) {
    && 0 < |ids| <= MAX_EVIDENCE && (forall id <- ids :: id in c.records)
    && forall i, j | 0 <= i < j < |ids| :: ids[i] != ids[j]
  }

  function Selected(ids: seq<RecordId>): set<RecordId> { set id <- ids }

  /** The selected records, bound to the action. */
  function RecordsFor(c: Catalog, action: string, ids: seq<RecordId>): seq<Evidence> {
    if ids == [] then []
    else
      var id := ids[|ids| - 1];
      RecordsFor(c, action, ids[..|ids| - 1]) + if id in c.records then [c.records[id].(hint := action)] else []
  }

  lemma {:induction false} RecordsAreSelected(c: Catalog, action: string, ids: seq<RecordId>)
    requires forall id <- ids :: id in c.records
    ensures |RecordsFor(c, action, ids)| == |ids| && forall r <- RecordsFor(c, action, ids) :: r.hint == action
    ensures forall id <- ids :: c.records[id].(hint := action) in RecordsFor(c, action, ids)
  {
    if ids != [] {
      RecordsAreSelected(c, action, ids[..|ids| - 1]);
      assert ids == ids[..|ids| - 1] + [ids[|ids| - 1]];
    }
  }

  method SelectRecords(c: Catalog, action: string, ids: seq<RecordId>)
    returns (records: Option<seq<Evidence>>, selected: set<RecordId>)
    ensures records.Some? <==> EvidenceFits(c, ids)
    ensures records.Some? ==> records.value == RecordsFor(c, action, ids) && selected == Selected(ids)
  {
    selected := {};
    if |ids| == 0 || |ids| > MAX_EVIDENCE { return None, selected; }
    var rs: seq<Evidence> := [];
    for i := 0 to |ids|
      invariant rs == RecordsFor(c, action, ids[..i]) && selected == Selected(ids[..i])
      invariant (forall j | 0 <= j < i :: ids[j] in c.records) && forall j, k | 0 <= j < k < i :: ids[j] != ids[k]
    {
      assert ids[..i + 1] == ids[..i] + [ids[i]] && ids[..i + 1][..i] == ids[..i];
      assert ids[i] in ids;
      if ids[i] in selected || ids[i] !in c.records { return None, selected; }
      selected := selected + {ids[i]};
      rs := rs + [c.records[ids[i]].(hint := action)];
    }
    assert ids[..|ids|] == ids;
    records := Some(rs);
  }

  /** A locator in use is shown by a selected record. */
  lemma InUseSupported(c: Catalog, action: string, selected: set<RecordId>, records: seq<Evidence>,
      used: set<LocatorId>, l: Locator)
    requires LocatorsOk(c) && Usable(c, selected, used) && InUse(c, used, l)
    requires forall id <- selected :: id in c.records && c.records[id].(hint := action) in records
    ensures Supported(action, l, records)
  {
    var id :| id in used && id in c.locators && c.locators[id].candidate.locator == l;
    var r := c.records[c.locators[id].record];
    assert Shows(r, l);
    assert Shows(r.(hint := action), l);
  }

  lemma InUseDecided(c: Catalog, action: string, records: seq<Evidence>, used: set<LocatorId>, ds: seq<Decision>,
      l: Locator)
    requires InUse(c, used, l) && AmbiguousIn(action, l, records)
    requires forall id <- used :: id in c.locators
                                  && (NeedsDecision(c, records, id) ==> Decided(action, c.locators[id].candidate.locator, ds))
    ensures Decided(action, l, ds)
  {
    hide Decided, Noted;
    var id :| id in used && id in c.locators && c.locators[id].candidate.locator == l;
    assert NeedsDecision(c, records, id);
  }

  function Uses(c: Catalog, i: ActionIntent): set<LocatorId> {
    SequenceUses(i.sequence) + BoundUses(c, i.outputs) + DeclaredUses(i.declarations)
  }

  function PlanOf(c: Catalog, i: ActionIntent): Plan { BoundPlan(c, i.outputs) + DeclaredPlan(c, i.declarations) }

  /** What an intent must satisfy: it stays within its selected evidence and resolves exactly its ambiguities. */
  predicate IntentFits(c: Catalog, i: ActionIntent) {
    var selected := Selected(i.evidence);
    && EvidenceFits(c, i.evidence)
    && 0 < |i.sequence| <= MAX_STEPS && (forall s <- i.sequence :: StepFits(c, selected, i.parameters, s))
    && BoundFit(c, selected, i.outputs) && DeclarationsFit(c, selected, i.declarations) && Consistent(PlanOf(c, i))
    && i.sound && ResolutionsFit(c, RecordsFor(c, i.id, i.evidence), Uses(c, i), i.resolutions)
  }

  /** The action an intent stands for. */
  predicate Realizes(c: Catalog, i: ActionIntent, a: Action) {
    a.sequence == PlannedSteps(c, i.sequence) && Carries(a.outputs, PlanOf(c, i))
  }

  /**
   The guide subsumes the gate: it accepts exactly the fitting intents, realizes them, and the records,
   action and decisions it returns pass the gate.
   */
  method BuildAction(c: Catalog, i: ActionIntent) returns (records: seq<Evidence>, action: Option<Action>,
      decisions: seq<Decision>)
    requires CatalogOk(c)
    ensures action.Some? <==> IntentFits(c, i)
    ensures action.Some? ==> records == RecordsFor(c, i.id, i.evidence) && Realizes(c, i, action.value)
    ensures action.Some? ==> forall d <- decisions :: Answers(c, i.id, i.resolutions, d)
    ensures action.Some? ==> Passes(i.id, action.value, records, decisions)
  {
    hide CatalogOk, Carries, Consistent, Decided, StepFits, NeedsDecision, ResolutionsFit, BoundFit, DeclarationsFit,
         Passes, Answers;
    records, decisions, action := [], [], None;
    var chosen, selected := SelectRecords(c, i.id, i.evidence);
    if chosen.None? { return; }
    var steps, used := BuildSequence(c, selected, i.parameters, i.sequence);
    if steps.None? { return; }
    var bound, boundIds := BuildOutputs(c, selected, i.outputs);
    if bound.None? {
      if !Consistent(BoundPlan(c, i.outputs)) { ConsistentPrefix(BoundPlan(c, i.outputs), DeclaredPlan(c, i.declarations)); }
      return;
    }
    var outputs, declaredIds := DeclareOutputs(c, selected, i.declarations, bound.value, BoundPlan(c, i.outputs));
    if outputs.None? || !i.sound { return; }
    UsesAreUsable(c, i, selected);
    var ds := BuildDecisions(i.id, c, chosen.value, used + boundIds + declaredIds, i.resolutions);
    if ds.None? { return; }
    records, decisions := chosen.value, ds.value;
    action := Some(Action(steps.value, outputs.value));
    RealizedPasses(c, i, action.value, decisions);
  }

  lemma ConsistentPrefix(p: Plan, q: Plan)
    requires !Consistent(p)
    ensures !Consistent(p + q)
  {
    var i, j :| 0 <= i < j < |p| && p[i].0 == p[j].0 && p[i].1 != p[j].1;
    assert (p + q)[i] == p[i] && (p + q)[j] == p[j];
  }

  lemma UsesAreUsable(c: Catalog, i: ActionIntent, selected: set<RecordId>)
    requires CatalogOk(c) && selected == Selected(i.evidence)
    requires forall s <- i.sequence :: StepFits(c, selected, i.parameters, s)
    requires BoundFit(c, selected, i.outputs) && DeclarationsFit(c, selected, i.declarations)
    ensures Usable(c, selected, Uses(c, i))
  {
    hide CatalogOk, StepFits, BoundFit, DeclarationsFit, BoundUses, DeclaredUses, StepUses, StepDeclares;
    forall id <- SequenceUses(i.sequence) ensures id in c.locators && c.locators[id].record in selected {
      var s :| s in i.sequence && id in StepUses(s);
      StepInUse(c, selected, i.parameters, s, Locator("", "", "", ""));
    }
    if i.outputs != [] { BoundInUse(c, selected, i.outputs, 0); } else { NoneBound(c); }
    if i.declarations != [] { DeclaredInUse(c, selected, i.declarations, 0); } else { NoneDeclared(); }
  }

  lemma NoneBound(c: Catalog)
    ensures BoundUses(c, []) == {}
  {
  }

  lemma NoneDeclared()
    ensures DeclaredUses([]) == {}
  {
  }

  /** Whatever a realized intent declares is a locator in use. */
  lemma DeclaredIsUsed(c: Catalog, i: ActionIntent, a: Action, l: Locator)
    requires CatalogOk(c) && IntentFits(c, i) && Realizes(c, i, a) && Declares(a, l)
    ensures InUse(c, Uses(c, i), l)
  {
    hide CatalogOk, StepFits, BoundFit, DeclarationsFit, BoundUses, DeclaredUses, StepUses, ResolutionsFit, StepDeclares,
         PlannedStep, PlannedOutput, DeclaredOutput, EvidenceFits;
    var selected := Selected(i.evidence);
    if s :| s in a.sequence && StepDeclares(s, l) {
      var k :| 0 <= k < |i.sequence| && s == PlannedStep(c, i.sequence[k]);
      assert i.sequence[k] in i.sequence;
      StepInUse(c, selected, i.parameters, i.sequence[k], l);
      InUseWithin(c, StepUses(i.sequence[k]), Uses(c, i), l);
    } else {
      var key :| key in a.outputs && OutputDeclares(a.outputs[key], l);
      var k :| 0 <= k < |PlanOf(c, i)| && PlanOf(c, i)[k].0 == key;
      if k < |i.outputs| {
        BoundInUse(c, selected, i.outputs, k);
        InUseWithin(c, BoundUses(c, i.outputs), Uses(c, i), l);
      } else {
        DeclaredInUse(c, selected, i.declarations, k - |i.outputs|);
        InUseWithin(c, DeclaredUses(i.declarations), Uses(c, i), l);
      }
    }
  }

  lemma InUseWithin(c: Catalog, a: set<LocatorId>, b: set<LocatorId>, l: Locator)
    requires InUse(c, a, l) && a <= b
    ensures InUse(c, b, l)
  {
  }

  lemma RealizedPasses(c: Catalog, i: ActionIntent, a: Action, ds: seq<Decision>)
    requires CatalogOk(c) && IntentFits(c, i) && Realizes(c, i, a)
    requires var records := RecordsFor(c, i.id, i.evidence);
             forall id <- Uses(c, i) :: NeedsDecision(c, records, id)
                                        ==> id in c.locators && Decided(i.id, c.locators[id].candidate.locator, ds)
    ensures Passes(i.id, a, RecordsFor(c, i.id, i.evidence), ds)
  {
    hide CatalogOk, StepFits, BoundFit, DeclarationsFit, ResolutionsFit, NeedsDecision, Decided, Declares, Supported,
         AmbiguousIn, Uses, Realizes, Consistent;
    var records, selected := RecordsFor(c, i.id, i.evidence), Selected(i.evidence);
    RecordsAreSelected(c, i.id, i.evidence);
    UsesAreUsable(c, i, selected);
    CatalogLocators(c);
    assert records[0] in records;
    forall l | Declares(a, l)
      ensures Supported(i.id, l, records) && (AmbiguousIn(i.id, l, records) ==> Decided(i.id, l, ds))
    {
      DeclaredIsUsed(c, i, a, l);
      InUseSupported(c, i.id, selected, records, Uses(c, i), l);
      if AmbiguousIn(i.id, l, records) { InUseDecided(c, i.id, records, Uses(c, i), ds, l); }
    }
  }

  lemma CatalogLocators(c: Catalog)
    requires CatalogOk(c)
    ensures LocatorsOk(c)
  {
    hide LocatorsOk, OutputsOk;
  }

  /** Evidence and decisions of other actions neither help nor harm an action. */
  lemma OthersDoNotMatter(name: string, a: Action, records: seq<Evidence>, decisions: seq<Decision>,
                          more: seq<Evidence>, moreDecisions: seq<Decision>)
    requires Passes(name, a, records, decisions)
    requires (forall r <- more :: r.hint != name) && (forall d <- moreDecisions :: d.hint != name)
    ensures Passes(name, a, records + more, decisions + moreDecisions)
    ensures Passes(name, a, more + records, moreDecisions + decisions)
  {
    hide Declares, Shows, Noted;
    assert forall r: Evidence :: r.hint == name ==> (r in records + more <==> r in records) && (r in more + records <==> r in records);
    assert forall d: Decision :: d.hint == name ==> (d in decisions + moreDecisions <==> d in decisions);
    assert forall d: Decision :: d.hint == name ==> (d in moreDecisions + decisions <==> d in decisions);
  }

  lemma OwnHint(c: Catalog, i: ActionIntent, ds: seq<Decision>)
    requires IntentFits(c, i) && forall d <- ds :: Answers(c, i.id, i.resolutions, d)
    ensures (forall r <- RecordsFor(c, i.id, i.evidence) :: r.hint == i.id) && forall d <- ds :: d.hint == i.id
  {
    hide StepFits, BoundFit, DeclarationsFit, ResolutionsFit, Consistent;
    RecordsAreSelected(c, i.id, i.evidence);
  }

  const MAX_GENERATED := 2048
  const MAX_WORK := 2000000

  /** What the records show, locators and outputs. */
  function Shown(records: seq<Evidence>): nat {
    if records == [] then 0
    else Shown(records[..|records| - 1]) + |records[|records| - 1].locators| + |records[|records| - 1].outputs|
  }

  method CountShown(records: seq<Evidence>) returns (n: nat)
    ensures n == Shown(records)
  {
    n := 0;
    for i := 0 to |records|
      invariant n == Shown(records[..i])
    {
      assert records[..i + 1][..i] == records[..i];
      n := n + |records[i].locators| + |records[i].outputs|;
    }
    assert records[..|records|] == records;
  }

  /** The matching work of an action: what its records show for each of its steps and outputs, and once more. */
  function WorkOf(c: Catalog, i: ActionIntent): nat {
    Shown(RecordsFor(c, i.id, i.evidence)) * (|i.sequence| + |i.outputs| + |i.declarations| + 1)
  }

  function Generated(c: Catalog, intents: seq<ActionIntent>): nat {
    if intents == [] then 0
    else Generated(c, intents[..|intents| - 1])
         + |RecordsFor(c, intents[|intents| - 1].id, intents[|intents| - 1].evidence)|
  }

  function Work(c: Catalog, intents: seq<ActionIntent>): nat {
    if intents == [] then 0 else Work(c, intents[..|intents| - 1]) + WorkOf(c, intents[|intents| - 1])
  }

  lemma {:induction false} EffortGrows(c: Catalog, intents: seq<ActionIntent>, n: nat)
    requires n <= |intents|
    ensures Generated(c, intents[..n]) <= Generated(c, intents) && Work(c, intents[..n]) <= Work(c, intents)
    decreases |intents|
  {
    hide WorkOf, RecordsFor;
    if n == |intents| {
      assert intents[..n] == intents;
    } else {
      EffortGrows(c, intents[..|intents| - 1], n);
      assert intents[..|intents| - 1][..n] == intents[..n];
    }
  }

  lemma EffortNext(c: Catalog, intents: seq<ActionIntent>, n: nat)
    requires n < |intents|
    ensures Generated(c, intents[..n + 1]) == Generated(c, intents[..n]) + |RecordsFor(c, intents[n].id, intents[n].evidence)|
    ensures Work(c, intents[..n + 1]) == Work(c, intents[..n]) + WorkOf(c, intents[n])
  {
    hide WorkOf, RecordsFor;
    assert intents[..n + 1][..n] == intents[..n];
  }

  /**
   All actions of an intent together: built exactly when each fits and both limits are kept, and then the gate
   has nothing to report.
   */
  method BuildActions(c: Catalog, intents: seq<ActionIntent>)
    returns (ok: bool, actions: map<string, Action>, records: seq<Evidence>, decisions: seq<Decision>, fs: seq<Failure>)
    requires CatalogOk(c) && forall i, j | 0 <= i < j < |intents| :: intents[i].id != intents[j].id
    ensures ok <==> (forall i <- intents :: IntentFits(c, i))
                    && Generated(c, intents) <= MAX_GENERATED && Work(c, intents) <= MAX_WORK
    ensures ok ==> actions.Keys == (set i <- intents :: i.id)
                   && forall i <- intents :: Realizes(c, i, actions[i.id])
    ensures ok ==> fs == [] && forall f: Failure :: !(f.name in actions && Deserved(f.name, actions[f.name], records, decisions, f))
  {
    hide CatalogOk, Passes, Deserved, IntentFits, Realizes, RecordsFor, Answers, Generated, Work;
    actions, records, decisions, fs := map[], [], [], [];
    var work := 0;
    NoEffort(c);
    assert intents[..0] == [];
    for i := 0 to |intents|
      invariant actions.Keys == set x <- intents[..i] :: x.id
      invariant forall x <- intents[..i] :: IntentFits(c, x) && Realizes(c, x, actions[x.id])
      invariant forall name <- actions :: Passes(name, actions[name], records, decisions)
      invariant |records| == Generated(c, intents[..i]) <= MAX_GENERATED && work == Work(c, intents[..i]) <= MAX_WORK
      invariant (forall r <- records :: r.hint in actions) && (forall d <- decisions :: d.hint in actions)
    {
      var rs, action, ds := BuildAction(c, intents[i]);
      if action.None? { assert intents[i] in intents; return false, actions, records, decisions, fs; }
      EffortNext(c, intents, i);
      EffortGrows(c, intents, i + 1);
      if |records + rs| > MAX_GENERATED { return false, actions, records, decisions, fs; }
      var candidates := CountShown(rs);
      work := work + candidates * (|intents[i].sequence| + |intents[i].outputs| + |intents[i].declarations| + 1);
      if work > MAX_WORK { return false, actions, records, decisions, fs; }
      OwnHint(c, intents[i], ds);
      var name := intents[i].id;
      assert name !in actions;
      assert intents[..i + 1] == intents[..i] + [intents[i]];
      forall other <- actions ensures Passes(other, actions[other], records + rs, decisions + ds) {
        OthersDoNotMatter(other, actions[other], records, decisions, rs, ds);
      }
      OthersDoNotMatter(name, action.value, rs, ds, records, decisions);
      records, decisions, actions := records + rs, decisions + ds, actions[name := action.value];
    }
    assert intents[..|intents|] == intents;
    fs := CheckEvidence(actions, records, decisions);
    ok := true;
  }

  lemma NoEffort(c: Catalog)
    ensures Generated(c, []) == 0 && Work(c, []) == 0
  {
  }
}
