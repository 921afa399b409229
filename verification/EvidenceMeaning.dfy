/**
 What the evidence checker accepts, stated over the positions of the observation history: no index of
 candidates, no recipe walk, no helper of the checker.
 */
module EvidenceMeaning {
  import opened Wrappers
  import opened PageText
  import opened RegistrationModel
  import opened Evidence

  /** The candidate at position k of observation g, counted from 1. */
  predicate Shown(history: seq<Observation>, g: int, k: nat, id: Id) {
    && 1 <= g <= |history| && k < |history[g - 1].candidates| && history[g - 1].candidates[k].id == id
    && id.CandidateId? && id.generation == g && id.ordinal == k
  }

  /** A control definition in which every limit belongs to the kind and no range is empty. */
  predicate SoundControl(c: Control) {
    && !c.kind.OtherKind? && |c.options| <= 32 && (c.options == [] || c.kind.SelectKind?)
    && (forall o <- c.options :: o.value.Reduced? && o.name.Reduced?)
    && (forall i, j | 0 <= i < j < |c.options| :: c.options[i].value != c.options[j].value)
    && (c.minLength.Some? || c.maxLength.Some? ==> c.kind.TextKind? || c.kind.EmailKind? || c.kind.PasswordKind?)
    && (c.minimum.Some? || c.maximum.Some? ==> c.kind.NumberKind?)
    && (forall n | n in {c.minLength, c.maxLength} && n.Some? :: 0 <= n.value <= 4096)
    && (forall n | n in {c.minimum, c.maximum} && n.Some? ::
          n.value.Finite? && -9007199254740991.0 <= n.value.value <= 9007199254740991.0)
    && (c.minLength.Some? && c.maxLength.Some? ==> c.minLength.value <= c.maxLength.value)
    && (c.minimum.Some? && c.maximum.Some? ==> c.minimum.value.value <= c.maximum.value.value)
  }

  /** A widget of a supported provider whose form submits inside the declared origins. */
  predicate SoundWidget(v: VerificationObservation, origins: seq<Origin>) {
    && !v.provider.OtherProvider? && !v.activation.OtherActivation?
    && v.widgetBinding.SingleInSubmitForm? && v.coverage.StandardSingleWidget?
    && v.submissionUrl.Url? && v.submissionUrl.origin.exact && v.submissionUrl.retained && v.submissionUrl.origin in origins
  }

  predicate SoundCandidate(p: Protocol, profile: Profile, c: Candidate, g: int, k: nat) {
    && c.id == CandidateId(g, c.role, c.name, k)
    && !c.role.OtherRole? && !c.name.Unreduced? && 1 <= c.matches <= 512
    && (c.control.Some? ==> SoundControl(c.control.value))
    && (c.verification.Some? ==> p == V4 && SoundWidget(c.verification.value, profile.origins))
  }

  /** Generations count the observations, and every candidate carries its own position as its identifier. */
  predicate SoundHistory(p: Protocol, profile: Profile, history: seq<Observation>) {
    forall i | 0 <= i < |history| ::
      var o := history[i];
      && o.generation == i + 1 && |o.candidates| <= 512 && o.origin.exact && o.origin in profile.origins
      && o.path.retainable && forall k | 0 <= k < |o.candidates| :: SoundCandidate(p, profile, o.candidates[k], i + 1, k)
  }

  /** A preview that acts on a unique public control in the one way its kind admits. */
  predicate SoundPreview(c: Candidate, r: PreviewRequest) {
    && r.purpose.PublicFormPreview? && c.matches == 1 && c.name.Reduced? && !c.name.human && !c.name.reserved
    && c.control.Some? && SoundControl(c.control.value)
    && var kind := c.control.value.kind;
       || (r.action.Select? && kind.SelectKind? && r.checked.None? && r.option.Some?
           && exists o <- c.control.value.options :: o.value == r.option.value)
       || (r.action.Check? && (kind.CheckboxKind? || kind.SwitchKind?) && r.checked.Some? && r.option.None?)
       || (r.action.ClickIt? && (kind.ButtonKind? || kind.LinkKind?) && r.checked.None? && r.option.None?)
  }

  /** Every preview is of a candidate shown in its generation and leads to the next one; none is repeated. */
  predicate SoundPreviews(history: seq<Observation>, previews: seq<PreviewRecord>) {
    && (forall q <- previews ::
          var r := q.request;
          && r.id.CandidateId? && Shown(history, r.generation, r.id.ordinal, r.id)
          && q.nextGeneration == r.generation + 1 && r.generation + 1 <= |history|
          && SoundPreview(history[r.generation - 1].candidates[r.id.ordinal], r))
    && forall i, j | 0 <= i < j < |previews| :: previews[i].nextGeneration < previews[j].nextGeneration
  }

  lemma ControlIff(c: Control)
    ensures ControlOk(c) <==> SoundControl(c)
  {
  }

  lemma WidgetIff(v: VerificationObservation, origins: seq<Origin>)
    ensures VerificationObservationOk(v, origins) <==> SoundWidget(v, origins)
  {
  }

  lemma CandidateIff(p: Protocol, profile: Profile, o: Observation, k: nat)
    requires k < |o.candidates|
    ensures CandidateOk(p, profile, o, k) <==> SoundCandidate(p, profile, o.candidates[k], o.generation, k)
  {
    var c := o.candidates[k];
    if c.control.Some? {
      ControlIff(c.control.value);
    }
    if c.verification.Some? {
      WidgetIff(c.verification.value, profile.origins);
    }
    hide ControlOk, SoundControl, VerificationObservationOk, SoundWidget;
  }

  lemma HistoryIff(p: Protocol, profile: Profile, history: seq<Observation>)
    ensures HistoryOk(p, profile, history) <==> SoundHistory(p, profile, history)
  {
    hide CandidateOk, SoundCandidate;
    if HistoryOk(p, profile, history) {
      forall i, k | 0 <= i < |history| && 0 <= k < |history[i].candidates|
        ensures SoundCandidate(p, profile, history[i].candidates[k], i + 1, k)
      {
        assert ObservationOk(p, profile, history, i);
        CandidateIff(p, profile, history[i], k);
      }
      forall i | 0 <= i < |history|
        ensures var o := history[i];
                && o.generation == i + 1 && |o.candidates| <= 512 && o.origin.exact && o.origin in profile.origins
                && o.path.retainable
                && forall k | 0 <= k < |o.candidates| :: SoundCandidate(p, profile, o.candidates[k], i + 1, k)
      {
        assert ObservationOk(p, profile, history, i);
      }
      assert SoundHistory(p, profile, history);
    }
    if SoundHistory(p, profile, history) {
      forall i | 0 <= i < |history| ensures ObservationOk(p, profile, history, i) {
        var o := history[i];
        forall k | 0 <= k < |o.candidates| ensures CandidateOk(p, profile, o, k) {
          assert SoundCandidate(p, profile, o.candidates[k], i + 1, k);
          CandidateIff(p, profile, o, k);
        }
      }
      assert HistoryOk(p, profile, history);
    }
  }

  /** A preview is admissible exactly when it is such a one, of this very candidate. */
  lemma PreviewIff(c: Candidate, r: PreviewRequest)
    ensures PreviewOk(c, r) <==> SoundPreview(c, r) && r.id == c.id && r.generation > 0
  {
    if c.control.Some? {
      ControlIff(c.control.value);
    }
    hide ControlOk, SoundControl;
  }

  lemma PreviewsIff(history: seq<Observation>, previews: seq<PreviewRecord>)
    ensures PreviewsOk(history, previews) <==> SoundPreviews(history, previews)
  {
    hide PreviewOk, SoundPreview;
    forall q | q in previews
      ensures PreviewAt(history, q) <==>
                var r := q.request;
                && r.id.CandidateId? && Shown(history, r.generation, r.id.ordinal, r.id)
                && q.nextGeneration == r.generation + 1 && r.generation + 1 <= |history|
                && SoundPreview(history[r.generation - 1].candidates[r.id.ordinal], r)
    {
      var found := Find(history, q.request.id);
      if found.Some? && found.value.generation == q.request.generation {
        PreviewIff(found.value.candidate, q.request);
      }
    }
  }

  // The recipe.

  predicate Moves(s: Step) { s.Navigate? || s.Click? }

  /** Before step i the browser is on the page of observation g: there the last moving step led. */
  predicate OnPage(history: seq<Observation>, sequence: seq<Step>, ids: seq<Id>, i: nat, g: int)
    requires |ids| == |sequence| && i <= |ids| && 1 <= g <= |history|
  {
    exists m | 0 <= m < i ::
      && Moves(sequence[m]) && (forall n | m < n < i :: !Moves(sequence[n]))
      && match sequence[m]
         case Navigate(u) =>
           u.Url? && history[g - 1].origin == u.origin
           && history[g - 1].path == (if u.path.Some? then u.path.value else Path("/", true, true))
         case _ =>
           ids[m].CandidateId? && 1 <= ids[m].generation < |history|
           && history[g - 1].origin == history[ids[m].generation].origin
           && history[g - 1].path == history[ids[m].generation].path
  }

  /** The control shows a kind that the step can act on. */
  predicate Acts(profile: Profile, step: Step, c: Candidate) {
    match step
    case TypeCredential(_, slot) =>
      && c.control.Some?
      && (slot in profile.credentialSlots ==>
            && (profile.credentialSlots[slot].PasswordSlot? ==> c.control.value.kind.PasswordKind?)
            && (profile.credentialSlots[slot].IdentifierSlot? ==>
                  c.control.value.kind.TextKind? || c.control.value.kind.EmailKind?))
    case FillInput(_, slot, how) =>
      && c.control.Some? && !(c.name.Reduced? && c.name.human)
      && var kind := c.control.value.kind;
         || (how.Fill? && (kind.TextKind? || kind.EmailKind? || kind.NumberKind?))
         || (how.Check? && (kind.CheckboxKind? || kind.SwitchKind?))
         || (how.Select? && kind.SelectKind?
             && (slot in profile.inputSlots ==>
                   forall choice <- profile.inputSlots[slot] :: exists o <- c.control.value.options :: o.value == choice))
    case _ => true
  }

  /** Step i acts at locator l on the one candidate with that role and name on the page the browser is on. */
  predicate BoundTo(profile: Profile, flow: Flow, history: seq<Observation>, previews: seq<PreviewRecord>, ids: seq<Id>,
                    i: nat, l: Locator)
    requires |ids| == |flow.sequence| && i < |ids|
  {
    && ids[i].CandidateId? && Shown(history, ids[i].generation, ids[i].ordinal, ids[i])
    && var c := history[ids[i].generation - 1].candidates[ids[i].ordinal];
    && c.matches == 1 && c.name.Reduced? && l == Locator(c.role, c.name, "", "")
    && OnPage(history, flow.sequence, ids, i, ids[i].generation) && Acts(profile, flow.sequence[i], c)
    && (flow.sequence[i].Click? ==> exists q <- previews :: q.request.id == ids[i] && q.request.action.ClickIt?)
  }

  predicate SoundStep(profile: Profile, flow: Flow, history: seq<Observation>, previews: seq<PreviewRecord>, ids: seq<Id>,
                      i: nat)
    requires |ids| == |flow.sequence| && i < |ids|
  {
    match flow.sequence[i]
    case Navigate(u) => u.Url? && ids[i].NoId?
    case HumanCheckpoint(_, None) => ids[i].NoId?
    case HumanCheckpoint(_, Some(l)) => BoundTo(profile, flow, history, previews, ids, i, l)
    case WaitFor(l) =>
      || (ids[i].NoId? && l == flow.success && exists k | 0 <= k < i :: flow.sequence[k].Submit?)
      || BoundTo(profile, flow, history, previews, ids, i, l)
    case step => BoundTo(profile, flow, history, previews, ids, i, step.locator)
  }

  /** Every moving step before n leads to a page. */
  predicate Landed(history: seq<Observation>, sequence: seq<Step>, ids: seq<Id>, n: nat)
    requires |ids| == |sequence| && n <= |ids|
  {
    forall k | 0 <= k < n ::
      && (sequence[k].Navigate? ==> sequence[k].url.Url?)
      && (sequence[k].Click? ==> Find(history, ids[k]).Some? && ids[k].generation < |history|)
  }

  lemma {:induction false} PageIff(history: seq<Observation>, sequence: seq<Step>, ids: seq<Id>, i: nat, g: int)
    requires |ids| == |sequence| && i <= |ids| && 1 <= g <= |history| && Landed(history, sequence, ids, i)
    ensures PageBefore(history, sequence, ids, i) == PageOfGeneration(history, g) <==> OnPage(history, sequence, ids, i, g)
  {
    if i > 0 {
      PageIff(history, sequence, ids, i - 1, g);
    }
  }

  lemma BindingIff(profile: Profile, flow: Flow, history: seq<Observation>, previews: seq<PreviewRecord>, ids: seq<Id>,
                   i: nat)
    requires |ids| == |flow.sequence| && i < |ids| && Landed(history, flow.sequence, ids, i)
    requires LocatorOf(flow.sequence[i]).Some?
    ensures BoundOk(profile, flow, history, previews, ids, i)
            <==> BoundTo(profile, flow, history, previews, ids, i, LocatorOf(flow.sequence[i]).value)
  {
    hide OnPage, PageBefore;
    if Find(history, ids[i]).Some? {
      PageIff(history, flow.sequence, ids, i, ids[i].generation);
      ActsIff(profile, flow.sequence[i], history[ids[i].generation - 1].candidates[ids[i].ordinal]);
    }
    hide ControlFits, Acts;
  }

  lemma ActsIff(profile: Profile, step: Step, c: Candidate)
    ensures ControlFits(profile, step, c) <==> Acts(profile, step, c)
  {
    if step.FillInput? && step.control.Select? && c.control.Some? {
      assert step.slot in profile.inputSlots ==> Choices(profile, step.slot) == profile.inputSlots[step.slot];
      assert step.slot !in profile.inputSlots ==> Choices(profile, step.slot) == [];
    }
  }

  lemma StepIff(profile: Profile, flow: Flow, history: seq<Observation>, previews: seq<PreviewRecord>, ids: seq<Id>, i: nat)
    requires |ids| == |flow.sequence| && i < |ids| && Landed(history, flow.sequence, ids, i)
    ensures StepOk(profile, flow, history, previews, ids, i) <==> SoundStep(profile, flow, history, previews, ids, i)
    ensures StepOk(profile, flow, history, previews, ids, i) ==>
              (ids[i] != NoId <==> Bound(flow, ids, i)) && (ids[i] != NoId ==> Find(history, ids[i]).Some?)
  {
    hide Landed;
    if LocatorOf(flow.sequence[i]).Some? {
      BindingIff(profile, flow, history, previews, ids, i);
    }
    hide BoundTo;
  }

  lemma SoFarLanded(profile: Profile, flow: Flow, history: seq<Observation>, previews: seq<PreviewRecord>, ids: seq<Id>, n: nat)
    requires |ids| == |flow.sequence| && n <= |ids| && PreviewsOk(history, previews)
    requires forall i | 0 <= i < n :: StepOk(profile, flow, history, previews, ids, i)
    ensures Landed(history, flow.sequence, ids, n)
  {
    forall k | 0 <= k < n && flow.sequence[k].Click? ensures Find(history, ids[k]).Some? && ids[k].generation < |history| {
      assert StepOk(profile, flow, history, previews, ids, k);
      assert ClickPreviewed(previews, ids[k]);
      var q :| q in previews && q.request.id == ids[k] && q.request.action == ClickIt;
      assert PreviewAt(history, q);
    }
    forall k | 0 <= k < n && flow.sequence[k].Navigate? ensures flow.sequence[k].url.Url? {
      assert StepOk(profile, flow, history, previews, ids, k);
    }
  }

  /** Steps are judged alike one after the other: what a step needs of the page rests on the steps before it. */
  lemma {:induction false} StepsIff(profile: Profile, flow: Flow, history: seq<Observation>, previews: seq<PreviewRecord>,
      ids: seq<Id>, n: nat)
    requires |ids| == |flow.sequence| && n <= |ids| && PreviewsOk(history, previews)
    ensures (forall i | 0 <= i < n :: StepOk(profile, flow, history, previews, ids, i))
            <==> (forall i | 0 <= i < n :: SoundStep(profile, flow, history, previews, ids, i))
  {
    hide StepOk, SoundStep, Landed;
    if n > 0 {
      StepsIff(profile, flow, history, previews, ids, n - 1);
      if forall i | 0 <= i < n - 1 :: StepOk(profile, flow, history, previews, ids, i) {
        SoFarLanded(profile, flow, history, previews, ids, n - 1);
        StepIff(profile, flow, history, previews, ids, n - 1);
      }
    }
  }

  /** The recipe never returns to an older observation, and the selected candidates are those it is bound to. */
  predicate SoundUse(history: seq<Observation>, ids: seq<Id>, selected: seq<Id>) {
    && (forall i, j | 0 <= i < j < |ids| && ids[i].CandidateId? && ids[j].CandidateId? ::
          ids[i].generation <= ids[j].generation)
    && (forall id | id in ids && id.CandidateId? :: id in selected)
    && (forall id <- selected :: id.CandidateId? && id in ids)
    && (forall i, j | 0 <= i < j < |selected| :: selected[i] != selected[j])
  }

  lemma UseIff(flow: Flow, history: seq<Observation>, ids: seq<Id>, selected: seq<Id>)
    requires |ids| == |flow.sequence|
    requires forall i | 0 <= i < |ids| :: (ids[i] != NoId <==> Bound(flow, ids, i)) && (ids[i] != NoId ==> Find(history, ids[i]).Some?)
    ensures Ordered(flow, history, ids, |ids|) && Distinct(selected) && Elements(selected) == BoundIds(flow, ids, |ids|)
            <==> SoundUse(history, ids, selected)
  {
    hide Bound;
    assert forall i | 0 <= i < |ids| && ids[i] != NoId :: ids[i].CandidateId? && GenerationOf(history, ids[i]) == ids[i].generation;
    assert forall id :: id in BoundIds(flow, ids, |ids|) <==> id in ids && id.CandidateId?;
    if SoundUse(history, ids, selected) {
      assert forall id :: id in Elements(selected) <==> id in BoundIds(flow, ids, |ids|);
    }
    if Elements(selected) == BoundIds(flow, ids, |ids|) {
      forall id ensures id in selected <==> id in ids && id.CandidateId? {
        assert id in selected <==> id in Elements(selected);
      }
    }
  }

  /** The verification widget of a v4 flow was shown, once, on a candidate that a submit is bound to. */
  predicate SoundVerification(profile: Profile, flow: Flow, history: seq<Observation>, ids: seq<Id>)
    requires |ids| == |flow.sequence|
  {
    && flow.verification.Some?
    && var v := flow.verification.value;
    && SoundWidget(VerificationObservation(v.provider, v.activation, v.submissionUrl, v.widgetBinding, StandardSingleWidget),
                   profile.origins)
    && v.dependencies.policy == PolicyV1(v.provider) && 1 <= v.dependencies.maxRequests <= 256
    && 1 <= v.dependencies.maxResponseBytes <= 33554432 && 1 <= v.dependencies.timeoutMS <= 120000
    && exists i | 0 <= i < |ids| ::
         && flow.sequence[i].Submit? && ids[i].CandidateId?
         && Shown(history, ids[i].generation, ids[i].ordinal, ids[i])
         && history[ids[i].generation - 1].candidates[ids[i].ordinal].matches == 1
         && history[ids[i].generation - 1].candidates[ids[i].ordinal].verification
            == Some(VerificationObservation(v.provider, v.activation, v.submissionUrl, v.widgetBinding, StandardSingleWidget))
  }

  lemma VerificationIff(p: Protocol, profile: Profile, flow: Flow, history: seq<Observation>, ids: seq<Id>)
    requires |ids| == |flow.sequence| && HistoryOk(p, profile, history)
    ensures VerificationEvidence(profile, flow, history, ids) <==> SoundVerification(profile, flow, history, ids)
  {
    if flow.verification.Some? {
      var v := flow.verification.value;
      var o := VerificationObservation(v.provider, v.activation, v.submissionUrl, v.widgetBinding, StandardSingleWidget);
      WidgetIff(o, profile.origins);
      hide VerificationObservationOk, SoundWidget;
      forall i, g, k | 0 <= i < |ids| && 0 <= g < |history| && 0 <= k < |history[g].candidates|
                       && Witnesses(profile, v, history[g].candidates[k], ids[i])
        ensures ids[i] == CandidateId(g + 1, history[g].candidates[k].role, history[g].candidates[k].name, k)
      {
        assert ObservationOk(p, profile, history, g);
        assert CandidateOk(p, profile, history[g], k);
      }
      if SoundVerification(profile, flow, history, ids) {
        var i :| 0 <= i < |ids| && flow.sequence[i].Submit? && ids[i].CandidateId?
                 && Shown(history, ids[i].generation, ids[i].ordinal, ids[i])
                 && history[ids[i].generation - 1].candidates[ids[i].ordinal].matches == 1
                 && history[ids[i].generation - 1].candidates[ids[i].ordinal].verification == Some(o);
        assert Witnesses(profile, v, history[ids[i].generation - 1].candidates[ids[i].ordinal], ids[i]);
      }
    }
  }

  /** Everything the checker asks of one flow. */
  predicate Supported(p: Protocol, profile: Profile, flowName: string, history: seq<Observation>,
                      previews: seq<PreviewRecord>, ids: seq<Id>, selected: seq<Id>) {
    && (p == V3 || p == V4) && profile.schema == (if p == V3 then Schema11 else Schema12)
    && 0 < |history| <= 256 && HistoryBytes(history) <= 262144 && 0 < |selected| <= 512
    && (forall i | 0 < i < |selected| :: Rank(selected[i - 1]) <= Rank(selected[i]))
    && flowName in profile.flows && |ids| == |profile.flows[flowName].sequence|
    && (p == V4 ==> SoundVerification(profile, profile.flows[flowName], history, ids))
    && SoundHistory(p, profile, history) && SoundPreviews(history, previews)
    && (forall i | 0 <= i < |ids| :: SoundStep(profile, profile.flows[flowName], history, previews, ids, i))
    && SoundUse(history, ids, selected)
  }

  /** Typed evidence is exactly this: every step was possible on what was shown at its position of the history. */
  lemma EvidenceMeans(p: Protocol, profile: Profile, flowName: string, history: seq<Observation>,
                      previews: seq<PreviewRecord>, ids: seq<Id>, selected: seq<Id>)
    ensures TypedEvidence(p, profile, flowName, history, previews, ids, selected)
            <==> Supported(p, profile, flowName, history, previews, ids, selected)
  {
    if flowName in profile.flows && |ids| == |profile.flows[flowName].sequence| {
      FlowIff(p, profile, profile.flows[flowName], history, previews, ids, selected);
    }
    hide HistoryOk, SoundHistory, PreviewsOk, SoundPreviews, StepOk, SoundStep, Ordered, SoundUse, Distinct, Elements,
         BoundIds, SoundVerification, VerificationEvidence;
  }

  lemma FlowIff(p: Protocol, profile: Profile, flow: Flow, history: seq<Observation>,
                previews: seq<PreviewRecord>, ids: seq<Id>, selected: seq<Id>)
    requires |ids| == |flow.sequence|
    ensures FlowEvidence(p, profile, flow, history, previews, ids, selected)
            <==> (p == V4 ==> SoundVerification(profile, flow, history, ids))
                 && SoundHistory(p, profile, history) && SoundPreviews(history, previews)
                 && (forall i | 0 <= i < |ids| :: SoundStep(profile, flow, history, previews, ids, i))
                 && SoundUse(history, ids, selected)
  {
    hide HistoryOk, SoundHistory, PreviewsOk, SoundPreviews, StepOk, SoundStep, Ordered, SoundUse, Distinct, Elements,
         BoundIds, SoundVerification, VerificationEvidence, Landed, Bound;
    HistoryIff(p, profile, history);
    PreviewsIff(history, previews);
    if HistoryOk(p, profile, history) && PreviewsOk(history, previews) {
      VerificationIff(p, profile, flow, history, ids);
      StepsIff(profile, flow, history, previews, ids, |ids|);
      if forall i | 0 <= i < |ids| :: StepOk(profile, flow, history, previews, ids, i) {
        forall i | 0 <= i < |ids|
          ensures (ids[i] != NoId <==> Bound(flow, ids, i)) && (ids[i] != NoId ==> Find(history, ids[i]).Some?)
        {
          SoFarLanded(profile, flow, history, previews, ids, i);
          StepIff(profile, flow, history, previews, ids, i);
        }
        UseIff(flow, history, ids, selected);
      }
    }
  }
}
