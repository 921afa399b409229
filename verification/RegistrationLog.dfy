/**
 The log of everything a registration browser is asked to do: what order it keeps, and which calls are allowed
 by what was opened and what the browser reported before.
 */
module RegistrationLog {
  import opened Wrappers
  import opened PageText
  import opened RegistrationModel
  import opened EvidenceMeaning

  datatype RawCandidate = RawCandidate(
    role: Role, name: Label, wellFormed: bool, matches: int, control: Option<Control>,
    verification: Option<VerificationObservation>)

  /** What a backend reports: `name` is the reduction of the raw label, `bytes` the encoded length. */
  datatype RawObservation = RawObservation(
    origin: Origin, path: Path, candidates: seq<RawCandidate>, diagnostics: seq<Warning>, bytes: nat)

  datatype Verb = Get | Head | OtherVerb(text: string)

  /** What a browser is asked to open, with the limits it is to keep. */
  datatype BrowserRequest = BrowserRequest(
    protocol: Protocol, url: Url, origins: seq<Origin>, navigationTimeoutMS: int, totalTimeoutMS: int,
    maxRequests: int, maxResponseBytes: int, maxCandidates: int)

  /** A browser call with what was asked and whether it was answered without an error. */
  datatype Event =
    | Opened(h: nat, request: BrowserRequest, ok: bool)
    | Refused(request: BrowserRequest)
    | Looked(h: nat, raw: Option<RawObservation>)
    | Navigated(h: nat, verb: Verb, url: Url, ok: bool)
    | Previewed(h: nat, candidate: Candidate, preview: PreviewRequest, ok: bool)
    | Granted(h: nat, authority: HumanVerification, ok: bool)
    | Closed(h: nat, clean: bool, summary: NetworkSummary)

  /** Where a log of browser events has got to: between sessions, inside one, or out of order. */
  datatype Stage = Idle | Inside(h: nat) | Broken

  function Next(stage: Stage, e: Event): Stage {
    match e
    case Opened(h, _, _) => if stage == Idle then Inside(h) else Broken
    case Refused(_) => if stage == Idle then Idle else Broken
    case Looked(h, _) => if stage == Inside(h) then stage else Broken
    case Navigated(h, _, _, _) => if stage == Inside(h) then stage else Broken
    case Previewed(h, _, _, _) => if stage == Inside(h) then stage else Broken
    case Granted(h, _, _) => if stage == Inside(h) then stage else Broken
    case Closed(h, _, _) => if stage == Inside(h) then Idle else Broken
  }

  function Track(log: seq<Event>): Stage {
    if log == [] then Idle else Next(Track(log[..|log| - 1]), log[|log| - 1])
  }

  lemma TrackNext(log: seq<Event>, e: Event)
    ensures Track(log + [e]) == Next(Track(log), e)
  {
    assert (log + [e])[..|log|] == log;
  }

  /** An observation, or another call, of session h. */
  predicate CallOf(e: Event, h: nat) {
    (e.Looked? || e.Navigated? || e.Previewed? || e.Granted?) && e.h == h
  }

  /** Event j closes the session opened at i, and only calls to that session lie between. */
  ghost predicate SessionSpan(log: seq<Event>, i: int, j: int) {
    && 0 <= i < j < |log| && log[i].Opened? && log[j].Closed? && log[j].h == log[i].h
    && forall k | i < k < j :: CallOf(log[k], log[i].h)
  }

  ghost predicate Spanned(log: seq<Event>, k: nat) {
    exists i, j :: SessionSpan(log, i, j) && i <= k <= j
  }

  lemma SpanKept(log: seq<Event>, more: seq<Event>, k: nat)
    requires Spanned(log, k)
    ensures Spanned(log + more, k)
  {
    var i, j :| SessionSpan(log, i, j) && i <= k <= j;
    assert SessionSpan(log + more, i, j);
  }

  lemma {:induction false} InsideMeans(log: seq<Event>) returns (i: nat)
    requires Track(log).Inside?
    ensures i < |log| && log[i].Opened? && log[i].h == Track(log).h && forall k | i < k < |log| :: CallOf(log[k], Track(log).h)
    ensures Track(log[..i]) == Idle
  {
    var last := log[|log| - 1];
    if last.Opened? {
      i := |log| - 1;
    } else {
      i := InsideMeans(log[..|log| - 1]);
      assert log[..|log| - 1][..i] == log[..i];
    }
  }

  /**
   A log that ends between sessions consists of refusals and whole sessions: every session opened is
   closed, nothing is called before its opening or after its close, and no close is repeated.
   */
  lemma {:induction false} IdleMeansSessions(log: seq<Event>)
    requires Track(log) == Idle
    ensures forall k | 0 <= k < |log| :: log[k].Refused? || Spanned(log, k)
    decreases |log|
  {
    hide CallOf, SessionSpan;
    if log != [] {
      var last := |log| - 1;
      if log[last].Refused? {
        IdleMeansSessions(log[..last]);
        StillSpanned(log, last);
      } else {
        var i := InsideMeans(log[..last]);
        assert log[..last][..i] == log[..i];
        IdleMeansSessions(log[..i]);
        StillSpanned(log, i);
        WholeSpan(log, log[..last], i);
      }
    }
  }

  lemma StillSpanned(log: seq<Event>, n: nat)
    requires n <= |log| && forall k | 0 <= k < n :: log[..n][k].Refused? || Spanned(log[..n], k)
    ensures forall k | 0 <= k < n :: log[k].Refused? || Spanned(log, k)
  {
    hide Spanned;
    assert log == log[..n] + log[n..];
    forall k | 0 <= k < n ensures log[k].Refused? || Spanned(log, k) {
      assert log[..n][k] == log[k];
      if Spanned(log[..n], k) { SpanKept(log[..n], log[n..], k); }
    }
  }

  lemma WholeSpan(log: seq<Event>, front: seq<Event>, i: nat)
    requires log != [] && front == log[..|log| - 1] && i < |front| && log[i].Opened?
    requires log[|front|].Closed? && log[|front|].h == log[i].h && forall k | i < k < |front| :: CallOf(front[k], log[i].h)
    ensures forall k | i <= k < |log| :: Spanned(log, k)
  {
    hide CallOf;
    forall k | i < k < |front| ensures CallOf(log[k], log[i].h) { assert log[k] == front[k]; }
    assert SessionSpan(log, i, |front|);
  }

  // Which calls are allowed.

  /** A canonical URL inside the approved origins, without a query in the oldest protocol. */
  predicate UrlInside(p: Protocol, u: Url, origins: seq<Origin>) {
    u.Url? && u.origin.exact && (if p == V1 then u.plain else u.retained) && u.origin in origins
  }

  /** A session is opened on a URL inside its sorted, distinct origins, within every limit. */
  predicate OpenLawful(r: BrowserRequest) {
    && UrlInside(r.protocol, r.url, r.origins) && |r.origins| <= 32 && (forall o <- r.origins :: o.exact)
    && (forall i | 0 < i < |r.origins| ::
          TextLe(r.origins[i - 1].text, r.origins[i].text) && r.origins[i - 1] != r.origins[i])
    && 0 < r.navigationTimeoutMS <= 60000 && r.navigationTimeoutMS <= r.totalTimeoutMS <= 1800000
    && 0 < r.maxRequests <= 4096 && 0 < r.maxResponseBytes <= 134217728 && 0 < r.maxCandidates <= 512
  }

  /** Event i opened session h. */
  predicate OpenedAt(log: seq<Event>, h: nat, i: nat) {
    i < |log| && log[i].Opened? && log[i].h == h && log[i].ok
  }

  /** The page may be another one after this call. */
  predicate Moving(e: Event) { e.Navigated? || e.Previewed? }

  /** The newest report of session h is event j, and nothing has moved the page since. */
  predicate Showing(log: seq<Event>, h: nat, j: nat) {
    && j < |log| && log[j].Looked? && log[j].h == h && log[j].raw.Some?
    && forall k | j < k < |log| :: !Moving(log[k]) && !log[k].Looked?
  }

  /** The candidate is what was reported at its position, with only the facts its protocol version has. */
  predicate ShownAs(raw: RawObservation, p: Protocol, c: Candidate) {
    && c.id.CandidateId? && c.id.ordinal < |raw.candidates|
    && var r := raw.candidates[c.id.ordinal];
    && c.role == r.role && c.name == r.name && c.matches == r.matches
    && c.control == (if (p == V3 || p == V4) && r.name.Reduced? then r.control else None)
    && c.verification == (if p == V4 then r.verification else None)
  }

  /** A navigation stays inside the origins its session was opened with. */
  ghost predicate NavigationLawful(log: seq<Event>, h: nat, verb: Verb, url: Url) {
    && (verb.Get? || verb.Head?)
    && exists i: nat :: OpenedAt(log, h, i) && UrlInside(log[i].request.protocol, url, log[i].request.origins)
  }

  /** A preview acts on a public control that the page still shows. */
  ghost predicate PreviewLawful(log: seq<Event>, h: nat, c: Candidate, r: PreviewRequest) {
    && r.id == c.id && SoundPreview(c, r)
    && exists i: nat, j: nat :: OpenedAt(log, h, i) && (log[i].request.protocol == V3 || log[i].request.protocol == V4)
                      && Showing(log, h, j) && ShownAs(log[j].raw.value, log[i].request.protocol, c)
  }

  /** The widget an authority is for. */
  function WidgetOf(v: HumanVerification): VerificationObservation {
    VerificationObservation(v.provider, v.activation, v.submissionUrl, v.widgetBinding, StandardSingleWidget)
  }

  predicate HasWidget(raw: RawObservation, k: nat, v: HumanVerification) {
    k < |raw.candidates| && raw.candidates[k].matches == 1 && raw.candidates[k].verification == Some(WidgetOf(v))
  }

  /** Verification traffic is granted once, for the widget that the page still shows, within the fixed limits. */
  ghost predicate GrantLawful(log: seq<Event>, h: nat, v: HumanVerification) {
    && v.dependencies.policy == PolicyV1(v.provider) && 1 <= v.dependencies.maxRequests <= 256
    && 1 <= v.dependencies.maxResponseBytes <= 33554432 && 1 <= v.dependencies.timeoutMS <= 120000
    && exists i: nat, j: nat, k: nat ::
         && OpenedAt(log, h, i) && (forall m | i < m < |log| :: !(log[m].Granted? && log[m].h == h && log[m].ok))
         && log[i].request.protocol == V4 && SoundWidget(WidgetOf(v), log[i].request.origins)
         && Showing(log, h, j) && HasWidget(log[j].raw.value, k, v)
  }

  /** What the calls made so far allow next. */
  ghost predicate EventLawful(log: seq<Event>, e: Event) {
    match e
    case Opened(_, r, _) => OpenLawful(r)
    case Refused(r) => OpenLawful(r)
    case Navigated(h, verb, url, _) => NavigationLawful(log, h, verb, url)
    case Previewed(h, c, r, _) => PreviewLawful(log, h, c, r)
    case Granted(h, v, _) => GrantLawful(log, h, v)
    case _ => true
  }

  /** Every call was allowed when it was made. */
  ghost predicate Lawful(log: seq<Event>) {
    forall k | 0 <= k < |log| :: EventLawful(log[..k], log[k])
  }

  lemma LawfulNext(log: seq<Event>, e: Event)
    requires Lawful(log) && EventLawful(log, e)
    ensures Lawful(log + [e])
  {
    hide EventLawful;
    forall k | 0 <= k < |log| + 1 ensures EventLawful((log + [e])[..k], (log + [e])[k]) {
      assert k < |log| ==> (log + [e])[..k] == log[..k];
      assert k == |log| ==> (log + [e])[..k] == log;
    }
  }
}
