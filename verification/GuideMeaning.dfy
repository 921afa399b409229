/**
 The gate and the guide read field by field and position by position: which actions pass, which
 intents are accepted, and what the action built from one is.
 */
module GuideMeaning {
  import opened Wrappers
  import opened Guide
  import opened Revalidate
  import opened GuideActions

  // The gate.

  predicate Acts(k: StepKind) { k in {Click, CheckRadio, Uncheck, TypeText, SelectOption} }

  /** The action relies on l: as a target or wait of a step that acts, as a pure wait, or as an output's source. */
  predicate ReliesOn(a: Action, l: Locator) {
    || (exists i :: 0 <= i < |a.sequence| && Acts(a.sequence[i].kind)
                    && (a.sequence[i].locator == Some(l) || a.sequence[i].wait == Some(OnLocator(l))))
    || (exists i :: 0 <= i < |a.sequence| && a.sequence[i].kind == WaitFor && a.sequence[i].wait == Some(OnLocator(l)))
    || exists k :: k in a.outputs && a.outputs[k].source == A11y && a.outputs[k].locator == Some(l)
  }

  /** Record r observed l, on its own or on an output, as candidate c. */
  predicate Observed(r: Evidence, l: Locator, c: Candidate) {
    c.locator == l && (c in r.locators || exists j :: 0 <= j < |r.outputs| && r.outputs[j].locator == Some(c))
  }

  predicate ObservedFor(name: string, l: Locator, records: seq<Evidence>, c: Candidate) {
    exists k :: 0 <= k < |records| && records[k].hint == name && Observed(records[k], l, c)
  }

  predicate HasReason(s: string) { exists i :: 0 <= i < |s| && s[i] !in {' ', '\t', '\n', '\r'} }

  predicate Reviewed(name: string, l: Locator, ds: seq<Decision>) {
    exists k :: 0 <= k < |ds| && ds[k].hint == name && ds[k].locator == l && HasReason(ds[k].rationale)
  }

  /**
   An action passes exactly when a record is its own, every locator it relies on was observed in a record of its
   own, and each one observed with an ambiguity note there was reviewed for it with a reason.
   */
  lemma GateIff(name: string, a: Action, records: seq<Evidence>, ds: seq<Decision>)
    ensures Passes(name, a, records, ds)
            <==> && (exists k :: 0 <= k < |records| && records[k].hint == name)
                 && (forall l | ReliesOn(a, l) :: exists c :: ObservedFor(name, l, records, c))
                 && forall l, c | ReliesOn(a, l) && ObservedFor(name, l, records, c) && c.note != "" :: Reviewed(name, l, ds)
  {
    hide Declares, ReliesOn, Supported, AmbiguousIn, Decided, Reviewed, ObservedFor;
    assert HasEvidence(name, records) <==> exists k :: 0 <= k < |records| && records[k].hint == name;
    forall l
      ensures Declares(a, l) <==> ReliesOn(a, l)
      ensures Supported(name, l, records) <==> exists c :: ObservedFor(name, l, records, c)
      ensures AmbiguousIn(name, l, records) <==> exists c :: ObservedFor(name, l, records, c) && c.note != ""
      ensures Decided(name, l, ds) <==> Reviewed(name, l, ds)
    {
      DeclaresIff(a, l);
      SupportedIff(name, l, records);
      DecidedIff(name, l, ds);
    }
  }

  /**
   The failures of an action: that it has no record of its own, or else each locator it relies on that none of them
   observed, and each one they observed with an ambiguity note that was not reviewed for it.
   */
  lemma FailuresIff(name: string, a: Action, records: seq<Evidence>, ds: seq<Decision>, f: Failure)
    ensures Deserved(name, a, records, ds, f)
            <==> f.name == name
                 && var own := exists k :: 0 <= k < |records| && records[k].hint == name;
                    match f
                    case MissingEvidence(_) => !own
                    case MissingLocator(_, l) => own && ReliesOn(a, l) && !exists c :: ObservedFor(name, l, records, c)
                    case AmbiguousLocator(_, l) =>
                      own && ReliesOn(a, l) && (exists c :: ObservedFor(name, l, records, c) && c.note != "")
                      && !Reviewed(name, l, ds)
  {
    hide Declares, ReliesOn, Supported, AmbiguousIn, Decided, Reviewed, ObservedFor;
    if !f.MissingEvidence? {
      DeclaresIff(a, f.locator);
      SupportedIff(name, f.locator, records);
      DecidedIff(name, f.locator, ds);
    }
  }

  lemma DeclaresIff(a: Action, l: Locator)
    ensures Declares(a, l) <==> ReliesOn(a, l)
  {
    assert (exists s <- a.sequence :: StepDeclares(s, l)) <==> exists i :: 0 <= i < |a.sequence| && StepDeclares(a.sequence[i], l);
    assert forall s :: StepDeclares(s, l) <==> || (Acts(s.kind) && (s.locator == Some(l) || s.wait == Some(OnLocator(l))))
                                               || (s.kind == WaitFor && s.wait == Some(OnLocator(l)));
  }

  lemma SupportedIff(name: string, l: Locator, records: seq<Evidence>)
    ensures Supported(name, l, records) <==> exists c :: ObservedFor(name, l, records, c)
    ensures AmbiguousIn(name, l, records) <==> exists c :: ObservedFor(name, l, records, c) && c.note != ""
  {
    hide Shows, Noted, Observed;
    forall r ensures Shows(r, l) <==> exists c :: Observed(r, l, c)
             ensures Noted(r, l) <==> exists c :: Observed(r, l, c) && c.note != ""
    {
      ShownIff(r, l);
    }
    if Supported(name, l, records) {
      var r :| r in records && r.hint == name && Shows(r, l);
      var k :| 0 <= k < |records| && records[k] == r;
      var c :| Observed(r, l, c);
      assert ObservedFor(name, l, records, c);
    }
    if AmbiguousIn(name, l, records) {
      var r :| r in records && r.hint == name && Noted(r, l);
      var k :| 0 <= k < |records| && records[k] == r;
      var c :| Observed(r, l, c) && c.note != "";
      assert ObservedFor(name, l, records, c);
    }
  }

  lemma ShownIff(r: Evidence, l: Locator)
    ensures Shows(r, l) <==> exists c :: Observed(r, l, c)
    ensures Noted(r, l) <==> exists c :: Observed(r, l, c) && c.note != ""
  {
    forall c | c in r.locators && c.locator == l ensures Observed(r, l, c) {}
    forall o | o in r.outputs && o.locator.Some? && o.locator.value.locator == l ensures Observed(r, l, o.locator.value) {
      var j :| 0 <= j < |r.outputs| && r.outputs[j] == o;
    }
    forall c | Observed(r, l, c) ensures Shows(r, l) && (c.note != "" ==> Noted(r, l)) {
      if c !in r.locators {
        var j :| 0 <= j < |r.outputs| && r.outputs[j].locator == Some(c);
        assert r.outputs[j] in r.outputs;
      }
    }
  }

  lemma DecidedIff(name: string, l: Locator, ds: seq<Decision>)
    ensures Decided(name, l, ds) <==> Reviewed(name, l, ds)
  {
    forall s ensures Blank(s) <==> !HasReason(s) { BlankIff(s); }
    hide Blank, HasReason;
  }

  lemma BlankIff(s: string)
    ensures Blank(s) <==> !HasReason(s)
  {
    if !HasReason(s) {
      forall x <- s ensures Space(x) {
        var i :| 0 <= i < |s| && s[i] == x;
      }
    } else {
      var i :| 0 <= i < |s| && s[i] !in {' ', '\t', '\n', '\r'};
      assert s[i] in s && !Space(s[i]);
    }
  }

  // The guide.

  /** Catalog entry id belongs to one of the chosen records and is locator l. */
  predicate Chosen(c: Catalog, chosen: seq<RecordId>, id: LocatorId, l: Locator) {
    id in c.locators && c.locators[id].record in chosen && c.locators[id].candidate.locator == l
  }

  predicate WaitIs(c: Catalog, chosen: seq<RecordId>, i: Option<WaitIntent>, w: Option<Wait>) {
    match i
    case None => w == None
    case Some(WaitIntent(Some(id), None)) => w.Some? && w.value.OnLocator? && Chosen(c, chosen, id, w.value.locator)
    case Some(WaitIntent(None, Some(supported))) => supported && w == Some(OnNavigation)
    case _ => false
  }

  predicate Types(k: StepKind) { k in {TypeText, SelectOption} }

  /** Intent i is accepted and s is its step. */
  predicate StepIs(c: Catalog, chosen: seq<RecordId>, parameters: set<string>, i: StepIntent, s: Step) {
    && s.kind == i.kind && (Acts(i.kind) || i.kind == Navigate || i.kind == WaitFor)
    && (HasReason(i.target) <==> i.kind == Navigate) && s.target == (if i.kind == Navigate then i.target else "")
    && (i.kind == Navigate ==> !i.secret && i.wait.None?) && (i.kind == WaitFor ==> i.wait.Some?)
    && (if Acts(i.kind) then i.locator.Some? && s.locator.Some? && Chosen(c, chosen, i.locator.value, s.locator.value)
        else i.locator.None? && s.locator.None?)
    && (if Types(i.kind) then i.parameter in parameters && s.value == ['{', '{'] + i.parameter + ['}', '}']
        else i.parameter == "" && s.value == "")
    && WaitIs(c, chosen, i.wait, s.wait)
  }

  lemma StepIff(c: Catalog, chosen: seq<RecordId>, parameters: set<string>, i: StepIntent, s: Step)
    ensures StepFits(c, Selected(chosen), parameters, i) && s == PlannedStep(c, i) <==> StepIs(c, chosen, parameters, i, s)
  {
    BlankIff(i.target);
    hide Blank, HasReason;
  }

  /** Outputs are asked for by position: first those already bound to a source, then the declared ones. */
  function Asked(i: ActionIntent): nat { |i.outputs| + |i.declarations| }

  /** Output n asked for is accepted, and o is it under this key. */
  predicate OutputIs(c: Catalog, i: ActionIntent, n: nat, key: string, o: ActionOutput)
    requires n < Asked(i)
  {
    if n < |i.outputs| then
      var id := i.outputs[n];
      && id in c.outputs && c.outputs[id].record in i.evidence && key == c.outputs[id].output.key
      && !c.outputs[id].output.source.NoSource? && !c.outputs[id].output.refused
      && o.source == c.outputs[id].output.source && o.rest == c.outputs[id].output.rest
      && (match c.outputs[id].output.locator
          case None => o.locator.None?
          case Some(seen) => o.locator == Some(seen.locator))
    else
      var d := i.declarations[n - |i.outputs|];
      && d.hint in c.outputs && c.outputs[d.hint].record in i.evidence && key == c.outputs[d.hint].output.key
      && c.outputs[d.hint].output.source.NoSource? && !d.refused
      && d.source in {A11y, JsonLd, Microdata, Css} && o.source == d.source && o.rest == d.rest
      && if d.source == A11y then d.locator.Some? && o.locator.Some? && Chosen(c, i.evidence, d.locator.value, o.locator.value)
         else o.locator.None?
  }

  lemma OutputIff(c: Catalog, i: ActionIntent, n: nat, key: string, o: ActionOutput)
    requires n < Asked(i)
    ensures OutputIs(c, i, n, key, o)
            <==> (key, o) == PlanOf(c, i)[n]
                 && (n < |i.outputs| ==> BoundOk(c, Selected(i.evidence), i.outputs[n]))
                 && (n >= |i.outputs| ==> DeclarationOk(c, Selected(i.evidence), i.declarations[n - |i.outputs|]))
  {
  }

  /** A step, a bound output or a declaration of the intent refers to catalog entry id. */
  predicate RefersTo(c: Catalog, i: ActionIntent, id: LocatorId) {
    || (exists k :: 0 <= k < |i.sequence| && (i.sequence[k].locator == Some(id)
                    || (i.sequence[k].wait.Some? && i.sequence[k].wait.value.locator == Some(id))))
    || (exists k :: 0 <= k < |i.outputs| && i.outputs[k] in c.outputs && c.outputs[i.outputs[k]].locator == Some(id))
    || exists k :: 0 <= k < |i.declarations| && i.declarations[k].source == A11y && i.declarations[k].locator == Some(id)
  }

  lemma UsesIff(c: Catalog, i: ActionIntent, id: LocatorId)
    ensures id in Uses(c, i) <==> RefersTo(c, i, id)
  {
    assert id in SequenceUses(i.sequence) <==> exists k :: 0 <= k < |i.sequence| && id in StepUses(i.sequence[k]);
    forall k | 0 <= k < |i.sequence|
      ensures id in StepUses(i.sequence[k])
              <==> i.sequence[k].locator == Some(id)
                   || (i.sequence[k].wait.Some? && i.sequence[k].wait.value.locator == Some(id))
    {
    }
    if k :| 0 <= k < |i.outputs| && i.outputs[k] in c.outputs && c.outputs[i.outputs[k]].locator == Some(id) {
      assert i.outputs[k] in i.outputs;
    }
    if k :| 0 <= k < |i.declarations| && i.declarations[k].source == A11y && i.declarations[k].locator == Some(id) {
      assert i.declarations[k] in i.declarations;
    }
  }

  /** A chosen record observed the entry's locator with an ambiguity note. */
  ghost predicate AmbiguousHere(c: Catalog, i: ActionIntent, id: LocatorId) {
    id in c.locators
    && exists k :: 0 <= k < |i.evidence| && i.evidence[k] in c.records
                   && SeenAmbiguous(c.records[i.evidence[k]], c.locators[id].candidate.locator)
  }

  ghost predicate SeenAmbiguous(r: Evidence, l: Locator) { exists x :: Observed(r, l, x) && x.note != "" }

  lemma {:induction false} RecordsAt(c: Catalog, action: string, ids: seq<RecordId>)
    requires forall id <- ids :: id in c.records
    ensures |RecordsFor(c, action, ids)| == |ids|
    ensures forall k | 0 <= k < |ids| :: ids[k] in c.records && RecordsFor(c, action, ids)[k] == c.records[ids[k]].(hint := action)
  {
    if ids != [] {
      RecordsAt(c, action, ids[..|ids| - 1]);
    }
  }

  lemma AmbiguousIff(c: Catalog, i: ActionIntent, id: LocatorId)
    requires forall x <- i.evidence :: x in c.records
    ensures NeedsDecision(c, RecordsFor(c, i.id, i.evidence), id) <==> AmbiguousHere(c, i, id)
  {
    hide Noted, Observed, SeenAmbiguous;
    RecordsAt(c, i.id, i.evidence);
    if id in c.locators {
      var l, records := c.locators[id].candidate.locator, RecordsFor(c, i.id, i.evidence);
      forall k | 0 <= k < |i.evidence| ensures Noted(records[k], l) <==> SeenAmbiguous(c.records[i.evidence[k]], l) {
        NotedIff(c.records[i.evidence[k]], i.id, l);
      }
      assert NotedIn(records, l) <==> exists k :: 0 <= k < |records| && Noted(records[k], l);
    }
  }

  lemma NotedIff(r: Evidence, name: string, l: Locator)
    ensures Noted(r.(hint := name), l) <==> SeenAmbiguous(r, l)
  {
    ShownIff(r, l);
    hide Observed;
    assert Noted(r.(hint := name), l) <==> Noted(r, l);
  }

  /** Each ambiguous entry referred to is resolved, once and with a reason, and nothing else is. */
  ghost predicate Settles(c: Catalog, i: ActionIntent) {
    && (forall j, k | 0 <= j < k < |i.resolutions| :: i.resolutions[j].locator != i.resolutions[k].locator)
    && (forall k | 0 <= k < |i.resolutions| ::
          && !i.resolutions[k].secret && HasReason(i.resolutions[k].rationale)
          && RefersTo(c, i, i.resolutions[k].locator) && AmbiguousHere(c, i, i.resolutions[k].locator))
    && forall id | RefersTo(c, i, id) && AmbiguousHere(c, i, id) ::
         exists k :: 0 <= k < |i.resolutions| && i.resolutions[k].locator == id
  }

  lemma SettlesIff(c: Catalog, i: ActionIntent)
    requires forall x <- i.evidence :: x in c.records
    ensures ResolutionsFit(c, RecordsFor(c, i.id, i.evidence), Uses(c, i), i.resolutions) <==> Settles(c, i)
  {
    hide NeedsDecision, AmbiguousHere, RefersTo, Uses, Blank, HasReason, RecordsFor;
    forall id ensures id in Uses(c, i) <==> RefersTo(c, i, id)
              ensures NeedsDecision(c, RecordsFor(c, i.id, i.evidence), id) <==> AmbiguousHere(c, i, id)
    {
      UsesIff(c, i, id);
      AmbiguousIff(c, i, id);
    }
    forall s ensures Blank(s) <==> !HasReason(s) { BlankIff(s); }
    var records, used, rs := RecordsFor(c, i.id, i.evidence), Uses(c, i), i.resolutions;
    assert (forall id <- used :: NeedsDecision(c, records, id) ==> exists r <- rs :: r.locator == id)
           <==> forall id | RefersTo(c, i, id) && AmbiguousHere(c, i, id) :: exists k :: 0 <= k < |rs| && rs[k].locator == id;
    assert (forall r <- rs :: !r.secret && !Blank(r.rationale) && r.locator in used && NeedsDecision(c, records, r.locator))
           <==> forall k | 0 <= k < |rs| :: !rs[k].secret && HasReason(rs[k].rationale) && RefersTo(c, i, rs[k].locator)
                                            && AmbiguousHere(c, i, rs[k].locator);
  }

  /** Intent i is accepted and a is its action: same steps and outputs, all of chosen evidence, nothing left ambiguous. */
  ghost predicate ActionIs(c: Catalog, i: ActionIntent, a: Action) {
    && 0 < |i.evidence| <= MAX_EVIDENCE && (forall k | 0 <= k < |i.evidence| :: i.evidence[k] in c.records)
    && (forall j, k | 0 <= j < k < |i.evidence| :: i.evidence[j] != i.evidence[k])
    && 0 < |i.sequence| <= MAX_STEPS && |a.sequence| == |i.sequence|
    && (forall k | 0 <= k < |i.sequence| :: StepIs(c, i.evidence, i.parameters, i.sequence[k], a.sequence[k]))
    && (forall j, k | 0 <= j < k < |i.outputs| :: i.outputs[j] != i.outputs[k])
    && (forall j, k | 0 <= j < k < |i.declarations| :: i.declarations[j].hint != i.declarations[k].hint)
    && (forall n | 0 <= n < Asked(i) :: Given(c, i, n, a))
    && (forall key <- a.outputs :: AskedFor(c, i, key, a.outputs[key]))
    && i.sound && Settles(c, i)
  }

  ghost predicate Given(c: Catalog, i: ActionIntent, n: nat, a: Action)
    requires n < Asked(i)
  {
    exists key :: key in a.outputs && OutputIs(c, i, n, key, a.outputs[key])
  }

  ghost predicate AskedFor(c: Catalog, i: ActionIntent, key: string, o: ActionOutput) {
    exists n :: 0 <= n < Asked(i) && OutputIs(c, i, n, key, o)
  }

  /** The accepted intents and their actions, read field by field. */
  lemma ActionIff(c: Catalog, i: ActionIntent, a: Action)
    ensures IntentFits(c, i) && Realizes(c, i, a) <==> ActionIs(c, i, a)
  {
    hide StepFits, PlannedStep, StepIs, BoundOk, DeclarationOk, OutputIs, Settles, ResolutionsFit, RecordsFor, Uses, PlannedOutput,
         DeclaredOutput, Consistent;
    assert EvidenceFits(c, i.evidence)
           <==> 0 < |i.evidence| <= MAX_EVIDENCE && (forall k | 0 <= k < |i.evidence| :: i.evidence[k] in c.records)
                && forall j, k | 0 <= j < k < |i.evidence| :: i.evidence[j] != i.evidence[k];
    if EvidenceFits(c, i.evidence) {
      SettlesIff(c, i);
      StepsIff(c, i, a.sequence);
      OutputsIff(c, i, a);
    }
  }

  lemma StepsIff(c: Catalog, i: ActionIntent, steps: seq<Step>)
    ensures (forall s <- i.sequence :: StepFits(c, Selected(i.evidence), i.parameters, s)) && steps == PlannedSteps(c, i.sequence)
            <==> |steps| == |i.sequence|
                 && forall k | 0 <= k < |i.sequence| :: StepIs(c, i.evidence, i.parameters, i.sequence[k], steps[k])
  {
    hide StepFits, PlannedStep, StepIs, Selected;
    if |steps| == |i.sequence| {
      forall k | 0 <= k < |i.sequence|
        ensures StepFits(c, Selected(i.evidence), i.parameters, i.sequence[k]) && steps[k] == PlannedStep(c, i.sequence[k])
                <==> StepIs(c, i.evidence, i.parameters, i.sequence[k], steps[k])
      {
        StepIff(c, i.evidence, i.parameters, i.sequence[k], steps[k]);
      }
    }
  }

  lemma OutputsIff(c: Catalog, i: ActionIntent, a: Action)
    ensures var chosen := Selected(i.evidence);
            BoundFit(c, chosen, i.outputs) && DeclarationsFit(c, chosen, i.declarations) && Consistent(PlanOf(c, i))
            && Carries(a.outputs, PlanOf(c, i))
            <==> && (forall j, k | 0 <= j < k < |i.outputs| :: i.outputs[j] != i.outputs[k])
                 && (forall j, k | 0 <= j < k < |i.declarations| :: i.declarations[j].hint != i.declarations[k].hint)
                 && (forall n | 0 <= n < Asked(i) :: Given(c, i, n, a))
                 && forall key <- a.outputs :: AskedFor(c, i, key, a.outputs[key])
  {
    hide BoundOk, DeclarationOk, OutputIs, PlannedOutput, DeclaredOutput, Consistent, Selected;
    var chosen, p := Selected(i.evidence), PlanOf(c, i);
    forall n, key, o | 0 <= n < Asked(i)
      ensures OutputIs(c, i, n, key, o)
              <==> (key, o) == p[n] && (n < |i.outputs| ==> BoundOk(c, chosen, i.outputs[n]))
                   && (n >= |i.outputs| ==> DeclarationOk(c, chosen, i.declarations[n - |i.outputs|]))
    {
      OutputIff(c, i, n, key, o);
    }
    if Carries(a.outputs, p) { CarriedIsConsistent(a.outputs, p); }
    if (forall n | 0 <= n < Asked(i) :: Given(c, i, n, a)) && forall key <- a.outputs :: AskedFor(c, i, key, a.outputs[key]) {
      forall n | 0 <= n < |p| ensures p[n].0 in a.outputs && a.outputs[p[n].0] == p[n].1 {
        assert Given(c, i, n, a);
      }
      forall n | 0 <= n < |i.outputs| ensures BoundOk(c, chosen, i.outputs[n]) {
        assert Given(c, i, n, a);
      }
      forall n | 0 <= n < |i.declarations| ensures DeclarationOk(c, chosen, i.declarations[n]) {
        assert Given(c, i, |i.outputs| + n, a);
      }
      forall key | key in a.outputs ensures exists n :: 0 <= n < |p| && p[n].0 == key {
        assert AskedFor(c, i, key, a.outputs[key]);
      }
    }
    if BoundFit(c, chosen, i.outputs) && DeclarationsFit(c, chosen, i.declarations) && Carries(a.outputs, p) {
      forall n | 0 <= n < Asked(i) ensures Given(c, i, n, a) {
        assert n < |i.outputs| ==> i.outputs[n] in i.outputs;
        assert n >= |i.outputs| ==> i.declarations[n - |i.outputs|] in i.declarations;
        assert OutputIs(c, i, n, p[n].0, a.outputs[p[n].0]);
      }
      forall key | key in a.outputs ensures AskedFor(c, i, key, a.outputs[key]) {
        var n :| 0 <= n < |p| && p[n].0 == key;
        assert OutputIs(c, i, n, key, a.outputs[key]);
      }
    }
  }

  /** A consistent plan is carried by some map. */
  lemma {:induction false} PlanIsCarried(p: Plan) returns (m: map<string, ActionOutput>)
    requires Consistent(p)
    ensures Carries(m, p)
  {
    if p == [] {
      m := map[];
    } else {
      var n := |p| - 1;
      m := PlanIsCarried(p[..n]);
      assert p == p[..n] + [(p[n].0, p[n].1)];
      if p[n].0 in m {
        var k :| 0 <= k < n && p[..n][k].0 == p[n].0;
        assert p[k].0 == p[n].0 && m[p[n].0] == p[k].1;
      }
      CarriesMore(m, p[..n], p[n].0, p[n].1);
      m := m[p[n].0 := p[n].1];
    }
  }

  /** The guide accepts exactly the intents that have such an action. */
  lemma AcceptedIff(c: Catalog, i: ActionIntent)
    ensures IntentFits(c, i) <==> exists a :: ActionIs(c, i, a)
  {
    hide ActionIs, StepFits, BoundFit, DeclarationsFit, ResolutionsFit, EvidenceFits, Carries;
    if IntentFits(c, i) {
      var outputs := PlanIsCarried(PlanOf(c, i));
      var a := Action(PlannedSteps(c, i.sequence), outputs);
      ActionIff(c, i, a);
      assert ActionIs(c, i, a);
    }
    forall a | ActionIs(c, i, a) ensures IntentFits(c, i) { ActionIff(c, i, a); }
  }
}
