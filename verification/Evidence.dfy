/**
 The evidence checker: which recipe steps, previews and selected candidates an observation history
 supports. Predicates state the relation, methods are the checker's loops, and every method decides
 its predicate exactly.
 */
module Evidence {
  import opened Wrappers
  import opened PageText
  import opened RegistrationModel

  // Public control definitions.

  predicate LengthOk(n: Option<int>) { n.Some? ==> 0 <= n.value <= 4096 }

  predicate Bounded(n: Option<Number>) {
    n.Some? ==> n.value.Finite? && -9007199254740991.0 <= n.value.value <= 9007199254740991.0
  }

  predicate OptionsOk(options: seq<PublicOption>) {
    && (forall o <- options :: PromotableLabel(o.value) && PromotableLabel(o.name))
    && (forall i, j | 0 <= i < j < |options| :: options[i].value != options[j].value)
  }

  /** A closed, consistent control definition: limits only where the kind admits them. */
  predicate ControlOk(c: Control) {
    && !c.kind.OtherKind?
    && |c.options| <= 32 && (c.options != [] ==> c.kind == SelectKind) && OptionsOk(c.options)
    && LengthOk(c.minLength) && LengthOk(c.maxLength)
    && (c.minLength.Some? && c.maxLength.Some? ==> c.minLength.value <= c.maxLength.value)
    && Bounded(c.minimum) && Bounded(c.maximum)
    && (c.minimum.Some? && c.maximum.Some? ==> c.minimum.value.value <= c.maximum.value.value)
    && (c.minimum.Some? || c.maximum.Some? ==> c.kind == NumberKind)
    && (c.minLength.Some? || c.maxLength.Some? ==> c.kind in {TextKind, EmailKind, PasswordKind})
  }

  method ValidateControlMetadata(control: Option<Control>) returns (ok: bool)
    ensures ok <==> control.Some? && ControlOk(control.value)
  {
    if control.None? || control.value.kind.OtherKind? { return false; }
    var c := control.value;
    if |c.options| > 32 || (c.kind != SelectKind && |c.options| != 0) { return false; }
    var seen: set<Label> := {};
    for i := 0 to |c.options|
      invariant OptionsOk(c.options[..i])
      invariant forall l :: l in seen <==> exists j | 0 <= j < i :: c.options[j].value == l
    {
      var o := c.options[i];
      if !PromotableLabel(o.value) || !PromotableLabel(o.name) || o.value in seen { return false; }
      seen := seen + {o.value};
      assert c.options[..i + 1] == c.options[..i] + [o];
    }
    assert c.options[..|c.options|] == c.options;
    ok := LengthOk(c.minLength) && LengthOk(c.maxLength)
          && !(c.minLength.Some? && c.maxLength.Some? && c.minLength.value > c.maxLength.value)
          && Bounded(c.minimum) && Bounded(c.maximum)
          && !(c.minimum.Some? && c.maximum.Some? && c.minimum.value.value > c.maximum.value.value)
          && !(c.kind != NumberKind && (c.minimum.Some? || c.maximum.Some?))
          && !(c.kind !in {TextKind, EmailKind, PasswordKind} && (c.minLength.Some? || c.maxLength.Some?));
  }

  // Previews.

  /** A preview acts on one uniquely matching public control in the one way its kind admits. */
  predicate PreviewOk(c: Candidate, r: PreviewRequest) {
    && r.purpose == PublicFormPreview && r.id == c.id && r.generation > 0
    && c.matches == 1 && Promotable(c) && c.control.Some? && ControlOk(c.control.value)
    && !c.name.human && !c.name.reserved
    && match r.action
       case Select => c.control.value.kind == SelectKind && r.checked.None? && r.option.Some?
                        && exists o <- c.control.value.options :: o.value == r.option.value
       case Check => c.control.value.kind in {CheckboxKind, SwitchKind} && r.checked.Some? && r.option.None?
       case ClickIt => c.control.value.kind in {ButtonKind, LinkKind} && r.checked.None? && r.option.None?
       case _ => false
  }

  method ValidatePreview(c: Candidate, r: PreviewRequest) returns (ok: bool)
    ensures ok <==> PreviewOk(c, r)
  {
    var controlOk := ValidateControlMetadata(c.control);
    if r.purpose != PublicFormPreview || r.id != c.id || r.generation <= 0
       || c.matches != 1 || !Promotable(c) || !controlOk { return false; }
    if c.name.human || c.name.reserved { return false; }
    var control := c.control.value;
    match r.action {
      case Select =>
        if control.kind != SelectKind || r.option.None? || r.checked.Some? { return false; }
        for i := 0 to |control.options|
          invariant forall j | 0 <= j < i :: control.options[j].value != r.option.value
        {
          if control.options[i].value == r.option.value {
            assert control.options[i] in control.options;
            return true;
          }
        }
        return false;
      case Check => return control.kind in {CheckboxKind, SwitchKind} && r.checked.Some? && r.option.None?;
      case ClickIt => return control.kind in {ButtonKind, LinkKind} && r.option.None? && r.checked.None?;
      case _ => return false;
    }
  }

  // The history.

  predicate CandidateOk(p: Protocol, profile: Profile, o: Observation, k: nat)
    requires k < |o.candidates|
  {
    var c := o.candidates[k];
    && c.id == CandidateId(o.generation, c.role, c.name, k)
    && PortableRole(c.role) && SafeLabel(c.name) && 1 <= c.matches <= 512
    && (c.control.Some? ==> ControlOk(c.control.value))
    && (c.verification.Some? ==> p == V4 && VerificationObservationOk(c.verification.value, profile.origins))
  }

  predicate ObservationOk(p: Protocol, profile: Profile, history: seq<Observation>, i: nat)
    requires i < |history|
  {
    var o := history[i];
    && o.generation == i + 1 && |o.candidates| <= 512
    && o.origin.exact && o.origin in profile.origins && o.path.retainable
    && forall k | 0 <= k < |o.candidates| :: CandidateOk(p, profile, o, k)
  }

  predicate HistoryOk(p: Protocol, profile: Profile, history: seq<Observation>) {
    forall i | 0 <= i < |history| :: ObservationOk(p, profile, history, i)
  }

  /** The observed candidate an identifier names. */
  function Find(history: seq<Observation>, id: Id): Option<Record> {
    if id.CandidateId? && 1 <= id.generation <= |history|
       && id.ordinal < |history[id.generation - 1].candidates|
       && history[id.generation - 1].candidates[id.ordinal].id == id
    then Some(Record(history[id.generation - 1].candidates[id.ordinal], id.generation))
    else None
  }

  /** `records` is the index of every candidate of the history. */
  ghost predicate Indexes(records: map<Id, Record>, history: seq<Observation>) {
    forall id :: (id in records <==> Find(history, id).Some?)
                 && (id in records ==> Find(history, id) == Some(records[id]))
  }

  /** Every preview acts on an observed candidate and leads to the very next observation. */
  predicate PreviewAt(history: seq<Observation>, preview: PreviewRecord) {
    var r := Find(history, preview.request.id);
    && r.Some? && r.value.generation == preview.request.generation
    && preview.nextGeneration == r.value.generation + 1 <= |history|
    && PreviewOk(r.value.candidate, preview.request)
  }

  predicate PreviewsOk(history: seq<Observation>, previews: seq<PreviewRecord>) {
    && (forall q <- previews :: PreviewAt(history, q))
    && (forall i, j | 0 <= i < j < |previews| :: previews[i].nextGeneration < previews[j].nextGeneration)
  }

  predicate ClickPreviewed(previews: seq<PreviewRecord>, id: Id) {
    exists q <- previews :: q.request.id == id && q.request.action == ClickIt
  }

  // The recipe.

  datatype Page = NoPage | At(origin: Origin, path: Path)

  function PageOfGeneration(history: seq<Observation>, g: int): Page {
    if 1 <= g <= |history| then At(history[g - 1].origin, history[g - 1].path) else NoPage
  }

  /** The page a step moves to: a navigation its target, a previewed click the next observation. */
  function Lands(history: seq<Observation>, step: Step, id: Id): Page {
    match step
    case Navigate(u) => if u.Url? then At(u.origin, PathOf(u)) else NoPage
    case Click(_) =>
      var r := Find(history, id);
      if r.Some? then PageOfGeneration(history, r.value.generation + 1) else NoPage
    case _ => NoPage
  }

  /** The page reached before step i: where the last moving step before it landed. */
  function PageBefore(history: seq<Observation>, sequence: seq<Step>, ids: seq<Id>, i: nat): Page
    requires |ids| == |sequence| && i <= |ids|
  {
    if i == 0 then NoPage
    else
      var landed := Lands(history, sequence[i - 1], ids[i - 1]);
      if landed != NoPage then landed else PageBefore(history, sequence, ids, i - 1)
  }

  lemma {:induction false} PageBeforeIsLastLanding(
    history: seq<Observation>, sequence: seq<Step>, ids: seq<Id>, i: nat)
    requires |ids| == |sequence| && i <= |ids|
    ensures PageBefore(history, sequence, ids, i) == NoPage
            <==> forall k | 0 <= k < i :: Lands(history, sequence[k], ids[k]) == NoPage
    ensures forall k | 0 <= k < i && Lands(history, sequence[k], ids[k]) != NoPage
                       && (forall m | k < m < i :: Lands(history, sequence[m], ids[m]) == NoPage) ::
              PageBefore(history, sequence, ids, i) == Lands(history, sequence[k], ids[k])
  {
    if i > 0 {
      PageBeforeIsLastLanding(history, sequence, ids, i - 1);
    }
  }

  /** The wait for the success locator after the submit needs no observed candidate. */
  predicate Exempt(flow: Flow, ids: seq<Id>, i: nat)
    requires |ids| == |flow.sequence| && i < |ids|
  {
    flow.sequence[i].WaitFor? && ids[i] == NoId && flow.sequence[i].locator == flow.success
    && exists k | 0 <= k < i :: flow.sequence[k].Submit?
  }

  predicate Bound(flow: Flow, ids: seq<Id>, i: nat)
    requires |ids| == |flow.sequence| && i < |ids|
  {
    LocatorOf(flow.sequence[i]).Some? && !Exempt(flow, ids, i)
  }

  predicate CredentialFits(profile: Profile, slot: string, control: Option<Control>) {
    control.Some?
    && (CredentialOf(profile, slot) == PasswordSlot ==> control.value.kind == PasswordKind)
    && (CredentialOf(profile, slot) == IdentifierSlot ==> control.value.kind in {TextKind, EmailKind})
  }

  predicate InputFits(profile: Profile, slot: string, how: Manner, c: Candidate) {
    !HumanLabel(c.name) && c.control.Some?
    && match how
       case Fill => c.control.value.kind in {TextKind, EmailKind, NumberKind}
       case Check => c.control.value.kind in {CheckboxKind, SwitchKind}
       case Select => c.control.value.kind == SelectKind
                        && forall choice <- Choices(profile, slot) ::
                             exists o <- c.control.value.options :: o.value == choice
       case _ => false
  }

  predicate ControlFits(profile: Profile, step: Step, c: Candidate) {
    match step
    case TypeCredential(_, slot) => CredentialFits(profile, slot, c.control)
    case FillInput(_, slot, how) => InputFits(profile, slot, how, c)
    case _ => true
  }

  /** A located step is bound to a unique candidate with its role and name on the page reached so far. */
  predicate BoundOk(profile: Profile, flow: Flow, history: seq<Observation>, previews: seq<PreviewRecord>,
                    ids: seq<Id>, i: nat)
    requires |ids| == |flow.sequence| && i < |ids| && LocatorOf(flow.sequence[i]).Some?
  {
    var r := Find(history, ids[i]);
    && r.Some? && r.value.candidate.matches == 1 && Promotable(r.value.candidate)
    && LocatorOf(flow.sequence[i]).value == Locator(r.value.candidate.role, r.value.candidate.name, "", "")
    && PageBefore(history, flow.sequence, ids, i) == PageOfGeneration(history, r.value.generation)
    && ControlFits(profile, flow.sequence[i], r.value.candidate)
    && (flow.sequence[i].Click? ==> ClickPreviewed(previews, ids[i]))
  }

  predicate StepOk(profile: Profile, flow: Flow, history: seq<Observation>, previews: seq<PreviewRecord>,
                   ids: seq<Id>, i: nat)
    requires |ids| == |flow.sequence| && i < |ids|
  {
    if LocatorOf(flow.sequence[i]).None? then
      ids[i] == NoId && (flow.sequence[i].Navigate? ==> flow.sequence[i].url.Url?)
    else Exempt(flow, ids, i) || BoundOk(profile, flow, history, previews, ids, i)
  }

  function GenerationOf(history: seq<Observation>, id: Id): int {
    if Find(history, id).Some? then Find(history, id).value.generation else 0
  }

  /** Later steps are never bound to earlier generations. */
  predicate Ordered(flow: Flow, history: seq<Observation>, ids: seq<Id>, n: nat)
    requires |ids| == |flow.sequence| && n <= |ids|
  {
    forall i, j | 0 <= i < j < n && Bound(flow, ids, i) && Bound(flow, ids, j) ::
      GenerationOf(history, ids[i]) <= GenerationOf(history, ids[j])
  }

  function BoundIds(flow: Flow, ids: seq<Id>, n: nat): set<Id>
    requires |ids| == |flow.sequence| && n <= |ids|
  {
    set i | 0 <= i < n && Bound(flow, ids, i) :: ids[i]
  }

  predicate StepsOk(profile: Profile, flow: Flow, history: seq<Observation>, previews: seq<PreviewRecord>,
                    ids: seq<Id>, n: nat)
    requires |ids| == |flow.sequence| && n <= |ids|
  {
    (forall i | 0 <= i < n :: StepOk(profile, flow, history, previews, ids, i)) && Ordered(flow, history, ids, n)
  }

  /** The verification descriptor of a v4 recipe is the one observed on a candidate bound to a submit. */
  predicate VerificationEvidence(profile: Profile, flow: Flow, history: seq<Observation>, ids: seq<Id>) {
    && |ids| == |flow.sequence|
    && flow.verification.Some? && AuthorityOk(flow.verification.value, profile.origins)
    && exists i, g, k | 0 <= i < |ids| && 0 <= g < |history| && 0 <= k < |history[g].candidates| ::
         flow.sequence[i].Submit? && Witnesses(profile, flow.verification.value, history[g].candidates[k], ids[i])
  }

  predicate Witnesses(profile: Profile, v: HumanVerification, c: Candidate, id: Id) {
    c.id == id && c.matches == 1 && MatchesVerification(c.verification, v)
    && VerificationObservationOk(c.verification.value, profile.origins)
  }

  /** What the checker accepts, for one flow of the profile. */
  predicate FlowEvidence(p: Protocol, profile: Profile, flow: Flow, history: seq<Observation>,
                         previews: seq<PreviewRecord>, ids: seq<Id>, selected: seq<Id>) {
    && |ids| == |flow.sequence|
    && (p == V4 ==> VerificationEvidence(profile, flow, history, ids))
    && HistoryOk(p, profile, history) && PreviewsOk(history, previews)
    && StepsOk(profile, flow, history, previews, ids, |ids|)
    && Distinct(selected) && Elements(selected) == BoundIds(flow, ids, |ids|)
  }

  /** The whole relation of typed evidence. */
  predicate TypedEvidence(p: Protocol, profile: Profile, flowName: string, history: seq<Observation>,
                          previews: seq<PreviewRecord>, ids: seq<Id>, selected: seq<Id>) {
    && Typed(p) && profile.schema == SchemaFor(p)
    && 0 < |history| <= 256 && HistoryBytes(history) <= MAX_LINE_BYTES
    && 0 < |selected| <= 512 && SortedIds(selected)
    && flowName in profile.flows
    && FlowEvidence(p, profile, profile.flows[flowName], history, previews, ids, selected)
  }

  // The checker.

  method IndexHistory(p: Protocol, profile: Profile, history: seq<Observation>)
    returns (ok: bool, records: map<Id, Record>)
    ensures ok <==> HistoryOk(p, profile, history)
    ensures ok ==> Indexes(records, history)
  {
    records := map[];
    for i := 0 to |history|
      invariant forall j | 0 <= j < i :: ObservationOk(p, profile, history, j)
      invariant Indexes(records, history[..i])
    {
      var o := history[i];
      if o.generation != i + 1 || |o.candidates| > 512 || !o.origin.exact || o.origin !in profile.origins
         || !o.path.retainable {
        assert !ObservationOk(p, profile, history, i);
        return false, records;
      }
      var candidatesOk;
      candidatesOk, records := IndexObservation(p, profile, history[..i], o, records);
      if !candidatesOk {
        assert !ObservationOk(p, profile, history, i);
        return false, records;
      }
      assert history[..i + 1] == history[..i] + [o];
    }
    assert history[..|history|] == history;
    ok := true;
  }

  method IndexObservation(p: Protocol, profile: Profile, before: seq<Observation>, o: Observation, known: map<Id, Record>)
    returns (ok: bool, records: map<Id, Record>)
    requires Indexes(known, before) && o.generation == |before| + 1
    ensures ok <==> forall k | 0 <= k < |o.candidates| :: CandidateOk(p, profile, o, k)
    ensures ok ==> Indexes(records, before + [o])
  {
    records := known;
    for k := 0 to |o.candidates|
      invariant forall j | 0 <= j < k :: CandidateOk(p, profile, o, j)
      invariant Indexes(records, before + [o.(candidates := o.candidates[..k])])
    {
      var c := o.candidates[k];
      if c.verification.Some? && (p != V4 || !VerificationObservationOk(c.verification.value, profile.origins)) {
        assert !CandidateOk(p, profile, o, k);
        return false, records;
      }
      if c.id != CandidateId(o.generation, c.role, c.name, k) || !PortableRole(c.role) || !SafeLabel(c.name)
         || c.matches < 1 || c.matches > 512 {
        assert !CandidateOk(p, profile, o, k);
        return false, records;
      }
      if c.control.Some? {
        var controlOk := ValidateControlMetadata(c.control);
        if !controlOk {
          assert !CandidateOk(p, profile, o, k);
          return false, records;
        }
      }
      // The position is part of the identifier, so a repeated identifier cannot occur here.
      assert c.id !in records by { FindFirst(before, o, k, c.id); }
      FindNext(before, o, k, records);
      records := records[c.id := Record(c, o.generation)];
    }
    assert o.(candidates := o.candidates[..|o.candidates|]) == o;
    ok := true;
  }

  lemma FindFirst(before: seq<Observation>, o: Observation, k: nat, id: Id)
    requires k < |o.candidates| && id == CandidateId(|before| + 1, o.candidates[k].role, o.candidates[k].name, k)
    ensures Find(before + [o.(candidates := o.candidates[..k])], id).None?
  {
  }

  lemma FindNext(before: seq<Observation>, o: Observation, k: nat, records: map<Id, Record>)
    requires k < |o.candidates| && o.generation == |before| + 1
    requires var c := o.candidates[k]; c.id == CandidateId(o.generation, c.role, c.name, k)
    requires Indexes(records, before + [o.(candidates := o.candidates[..k])])
    ensures Indexes(records[o.candidates[k].id := Record(o.candidates[k], o.generation)],
                    before + [o.(candidates := o.candidates[..k + 1])])
  {
    var h := before + [o.(candidates := o.candidates[..k])];
    var h' := before + [o.(candidates := o.candidates[..k + 1])];
    forall id | id != o.candidates[k].id ensures Find(h', id) == Find(h, id) {
      if id.CandidateId? && id.generation == |before| + 1 && id.ordinal < k {
        assert h'[|before|].candidates[id.ordinal] == h[|before|].candidates[id.ordinal];
      }
    }
  }

  method CheckPreviews(history: seq<Observation>, records: map<Id, Record>, previews: seq<PreviewRecord>)
    returns (ok: bool)
    requires Indexes(records, history)
    ensures ok <==> PreviewsOk(history, previews)
  {
    var last := 0;
    for i := 0 to |previews|
      invariant PreviewsOk(history, previews[..i])
      invariant forall q <- previews[..i] :: q.nextGeneration <= last
      invariant if i == 0 then last == 0 else last == previews[i - 1].nextGeneration
    {
      var q := previews[i];
      assert q in previews;
      if q.request.id !in records { return false; }
      var r := records[q.request.id];
      if r.generation != q.request.generation || q.nextGeneration != r.generation + 1
         || q.nextGeneration > |history| || q.nextGeneration <= last { return false; }
      var actionOk := ValidatePreview(r.candidate, q.request);
      if !actionOk { return false; }
      last := q.nextGeneration;
      assert previews[..i + 1] == previews[..i] + [q];
    }
    assert previews[..|previews|] == previews;
    ok := true;
  }

  method CheckVerification(profile: Profile, flow: Flow, history: seq<Observation>, ids: seq<Id>) returns (ok: bool)
    ensures ok <==> VerificationEvidence(profile, flow, history, ids)
  {
    if |ids| != |flow.sequence| || flow.verification.None? || !AuthorityOk(flow.verification.value, profile.origins) {
      return false;
    }
    var v := flow.verification.value;
    for i := 0 to |ids|
      invariant forall j, g, k | 0 <= j < i && 0 <= g < |history| && 0 <= k < |history[g].candidates| ::
                  !(flow.sequence[j].Submit? && Witnesses(profile, v, history[g].candidates[k], ids[j]))
    {
      if flow.sequence[i].Submit? {
        for g := 0 to |history|
          invariant forall g', k | 0 <= g' < g && 0 <= k < |history[g'].candidates| ::
                      !Witnesses(profile, v, history[g'].candidates[k], ids[i])
        {
          for k := 0 to |history[g].candidates|
            invariant forall k' | 0 <= k' < k :: !Witnesses(profile, v, history[g].candidates[k'], ids[i])
          {
            if Witnesses(profile, v, history[g].candidates[k], ids[i]) { return true; }
          }
        }
      }
    }
    ok := false;
  }

  method CheckChoices(choices: seq<Label>, options: seq<PublicOption>) returns (ok: bool)
    ensures ok <==> forall choice <- choices :: exists o <- options :: o.value == choice
  {
    for i := 0 to |choices|
      invariant forall j | 0 <= j < i :: exists o <- options :: o.value == choices[j]
    {
      var found := false;
      for k := 0 to |options|
        invariant found <==> exists j | 0 <= j < k :: options[j].value == choices[i]
      {
        if choices[i] == options[k].value { found := true; }
      }
      assert choices[i] in choices;
      if !found { return false; }
    }
    ok := true;
  }

  method CheckControl(profile: Profile, step: Step, c: Candidate) returns (ok: bool)
    ensures ok <==> ControlFits(profile, step, c)
  {
    match step {
      case TypeCredential(_, slot) =>
        var kind := CredentialOf(profile, slot);
        return !(c.control.None? || (kind == PasswordSlot && c.control.value.kind != PasswordKind)
                 || (kind == IdentifierSlot && c.control.value.kind != TextKind && c.control.value.kind != EmailKind));
      case FillInput(_, slot, how) =>
        if HumanLabel(c.name) || c.control.None? { return false; }
        var kind := c.control.value.kind;
        match how {
          case Fill => return kind in {TextKind, EmailKind, NumberKind};
          case Check => return kind in {CheckboxKind, SwitchKind};
          case Select =>
            if kind != SelectKind { return false; }
            ok := CheckChoices(Choices(profile, slot), c.control.value.options);
          case _ => return false;
        }
      case _ => return true;
    }
  }

  /** Previews of one candidate lead to one page: a generation is previewed at most once. */
  lemma PreviewLands(history: seq<Observation>, previews: seq<PreviewRecord>, q: PreviewRecord)
    requires PreviewsOk(history, previews) && q in previews
    ensures 1 <= q.nextGeneration <= |history|
    ensures forall l :: Lands(history, Click(l), q.request.id) == PageOfGeneration(history, q.nextGeneration)
  {
    assert PreviewAt(history, q);
  }

  method FindClick(history: seq<Observation>, previews: seq<PreviewRecord>, id: Id) returns (found: bool, page: Page)
    requires PreviewsOk(history, previews)
    ensures found <==> ClickPreviewed(previews, id)
    ensures found ==> page != NoPage && forall l :: Lands(history, Click(l), id) == page
  {
    for i := 0 to |previews|
      invariant forall j | 0 <= j < i :: !(previews[j].request.id == id && previews[j].request.action == ClickIt)
    {
      var q := previews[i];
      if q.request.id == id && q.request.action == ClickIt {
        assert q in previews;
        PreviewLands(history, previews, q);
        return true, PageOfGeneration(history, q.nextGeneration);
      }
    }
    found, page := false, NoPage;
  }

  datatype Walk = Walk(page: Page, last: int, submitted: bool, used: set<Id>)

  /** What the variables of the recipe walk mean before step n. */
  ghost predicate Walked(flow: Flow, history: seq<Observation>, ids: seq<Id>, n: nat, w: Walk)
    requires |ids| == |flow.sequence| && n <= |ids|
  {
    && w.used == BoundIds(flow, ids, n)
    && w.page == PageBefore(history, flow.sequence, ids, n)
    && (w.submitted <==> exists k | 0 <= k < n :: flow.sequence[k].Submit?)
    && (forall k | 0 <= k < n && Bound(flow, ids, k) :: GenerationOf(history, ids[k]) <= w.last)
    && (w.last == 0 || exists k | 0 <= k < n :: Bound(flow, ids, k) && GenerationOf(history, ids[k]) == w.last)
  }

  lemma WalkUnbound(flow: Flow, history: seq<Observation>, ids: seq<Id>, n: nat, w: Walk, page: Page)
    requires |ids| == |flow.sequence| && n < |ids| && Walked(flow, history, ids, n, w) && !Bound(flow, ids, n)
    requires page == PageBefore(history, flow.sequence, ids, n + 1)
    ensures Walked(flow, history, ids, n + 1, w.(page := page))
    ensures Ordered(flow, history, ids, n) ==> Ordered(flow, history, ids, n + 1)
  {
  }

  lemma WalkBound(flow: Flow, history: seq<Observation>, ids: seq<Id>, n: nat, w: Walk, page: Page)
    requires |ids| == |flow.sequence| && n < |ids| && Walked(flow, history, ids, n, w) && Bound(flow, ids, n)
    requires page == PageBefore(history, flow.sequence, ids, n + 1) && GenerationOf(history, ids[n]) >= w.last
    ensures Walked(flow, history, ids, n + 1,
                   Walk(page, GenerationOf(history, ids[n]), w.submitted || flow.sequence[n].Submit?, w.used + {ids[n]}))
    ensures Ordered(flow, history, ids, n) ==> Ordered(flow, history, ids, n + 1)
  {
  }

  lemma WalkBackwards(flow: Flow, history: seq<Observation>, ids: seq<Id>, n: nat, w: Walk)
    requires |ids| == |flow.sequence| && n < |ids| && Walked(flow, history, ids, n, w) && Bound(flow, ids, n)
    requires 0 < GenerationOf(history, ids[n]) < w.last
    ensures !Ordered(flow, history, ids, |ids|)
  {
  }

  /** The recipe walk: page, last generation, submission and used candidates are updated step by step. */
  method CheckSteps(profile: Profile, flow: Flow, history: seq<Observation>, records: map<Id, Record>,
                    previews: seq<PreviewRecord>, ids: seq<Id>) returns (ok: bool, used: set<Id>)
    requires |ids| == |flow.sequence| && Indexes(records, history) && PreviewsOk(history, previews)
    ensures ok <==> StepsOk(profile, flow, history, previews, ids, |ids|)
    ensures ok ==> used == BoundIds(flow, ids, |ids|)
  {
    used := {};
    var page, last, submitted := NoPage, 0, false;
    for i := 0 to |ids|
      invariant StepsOk(profile, flow, history, previews, ids, i)
      invariant Walked(flow, history, ids, i, Walk(page, last, submitted, used))
    {
      var step := flow.sequence[i];
      var locator := LocatorOf(step);
      ghost var walk := Walk(page, last, submitted, used);
      if locator.None? {
        if (step.Navigate? && step.url.Malformed?) || ids[i] != NoId {
          assert !StepOk(profile, flow, history, previews, ids, i);
          return false, used;
        }
        if step.Navigate? { page := At(step.url.origin, PathOf(step.url)); }
        WalkUnbound(flow, history, ids, i, walk, page);
      } else if submitted && step.WaitFor? && ids[i] == NoId && locator.value == flow.success {
        WalkUnbound(flow, history, ids, i, walk, page);
      } else {
        var bound, generation := CheckBound(profile, flow, history, records, previews, ids, i, page);
        if !bound {
          assert !StepOk(profile, flow, history, previews, ids, i);
          return false, used;
        }
        if generation < last {
          WalkBackwards(flow, history, ids, i, walk);
          return false, used;
        }
        last := generation;
        used := used + {ids[i]};
        if step.Click? {
          var found, next := FindClick(history, previews, ids[i]);
          assert step == Click(step.locator);
          page := next;
        }
        if step.Submit? { submitted := true; }
        WalkBound(flow, history, ids, i, walk, page);
      }
    }
    ok := true;
  }

  method CheckBound(profile: Profile, flow: Flow, history: seq<Observation>, records: map<Id, Record>,
                    previews: seq<PreviewRecord>, ids: seq<Id>, i: nat, page: Page)
    returns (ok: bool, generation: int)
    requires |ids| == |flow.sequence| && i < |ids| && LocatorOf(flow.sequence[i]).Some?
    requires Indexes(records, history) && PreviewsOk(history, previews)
    requires page == PageBefore(history, flow.sequence, ids, i)
    ensures ok <==> BoundOk(profile, flow, history, previews, ids, i)
    ensures ok ==> generation == GenerationOf(history, ids[i]) > 0
  {
    var step, locator := flow.sequence[i], LocatorOf(flow.sequence[i]).value;
    generation := 0;
    if ids[i] !in records { return false, generation; }
    var r := records[ids[i]];
    generation := r.generation;
    if r.candidate.matches != 1 || !Promotable(r.candidate) || locator.role != r.candidate.role
       || locator.name != r.candidate.name || locator.text != "" || locator.value != "" {
      return false, generation;
    }
    if page != At(history[r.generation - 1].origin, history[r.generation - 1].path) { return false, generation; }
    ok := CheckControl(profile, step, r.candidate);
    if ok && step.Click? {
      var next;
      ok, next := FindClick(history, previews, ids[i]);
    }
  }

  method CheckSelected(used: set<Id>, selected: seq<Id>) returns (ok: bool)
    ensures ok <==> Distinct(selected) && Elements(selected) == used
  {
    var left := used;
    if |used| != |selected| {
      DistinctSize(selected);
      return false;
    }
    for i := 0 to |selected|
      invariant Distinct(selected[..i]) && left == used - Elements(selected[..i])
      invariant Elements(selected[..i]) <= used
    {
      assert selected[..i + 1] == selected[..i] + [selected[i]];
      if selected[i] !in left {
        assert selected[i] in selected;
        if selected[i] in used {
          var j :| 0 <= j < i && selected[j] == selected[i];
        }
        return false;
      }
      left := left - {selected[i]};
    }
    assert selected[..|selected|] == selected;
    DistinctSize(selected);
    SubsetOfSameSize(Elements(selected), used);
    ok := true;
  }

  lemma {:induction false} DistinctSize<T>(s: seq<T>)
    ensures Distinct(s) ==> |Elements(s)| == |s|
  {
    if s != [] && Distinct(s) {
      var last := s[|s| - 1];
      DistinctSize(s[..|s| - 1]);
      assert Elements(s) == Elements(s[..|s| - 1]) + {last};
    }
  }

  lemma SubsetOfSameSize<T>(a: set<T>, b: set<T>)
    requires a <= b && |a| == |b|
    ensures a == b
  {
    assert |b| == |a| + |b - a| by { assert b == a + (b - a); }
  }

  /** The checker accepts exactly the relation. */
  method ValidateTypedEvidence(p: Protocol, profile: Option<Profile>, flowName: string, history: seq<Observation>,
                               previews: seq<PreviewRecord>, ids: seq<Id>, selected: seq<Id>) returns (ok: bool)
    ensures ok <==> profile.Some? && TypedEvidence(p, profile.value, flowName, history, previews, ids, selected)
  {
    if profile.None? || !Typed(p) || profile.value.schema != SchemaFor(p) || |history| == 0 || |history| > 256 {
      return false;
    }
    if flowName !in profile.value.flows { return false; }
    var flow := profile.value.flows[flowName];
    if p == V4 {
      ok := CheckVerification(profile.value, flow, history, ids);
      if !ok { return; }
    }
    if |ids| != |flow.sequence| || |selected| == 0 || |selected| > 512 || !SortedIds(selected) { return false; }
    if HistoryBytes(history) > MAX_LINE_BYTES { return false; }
    var records, used;
    ok, records := IndexHistory(p, profile.value, history);
    if !ok { return; }
    ok := CheckPreviews(history, records, previews);
    if !ok { return; }
    ok, used := CheckSteps(profile.value, flow, history, records, previews, ids);
    if !ok { return; }
    ok := CheckSelected(used, selected);
  }
}
