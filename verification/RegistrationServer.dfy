/**
 The server of a registration authoring session, handler by handler, and the loop that serves it.
 */
module RegistrationServer {
  import opened Wrappers
  import opened PageText
  import opened RegistrationModel
  import opened Evidence
  import opened RegistrationLog
  import opened RegistrationSession
  import opened RegistrationTrail
  import opened RegistrationReport
  import R = RegistrationReview
  import EvidenceMeaning

  // Diagnostics stay sorted.

  function Insert(s: seq<Warning>, x: Warning): seq<Warning> {
    if s == [] || WarningRank(x) <= WarningRank(s[0]) then [x] + s else [s[0]] + Insert(s[1..], x)
  }

  lemma {:induction false} InsertSorted(s: seq<Warning>, x: Warning)
    requires CanonicalWarnings(s) && KnownWarning(x) && x !in s
    ensures CanonicalWarnings(Insert(s, x)) && |Insert(s, x)| == |s| + 1
    ensures Insert(s, x)[0] == x || (s != [] && Insert(s, x)[0] == s[0])
  {
    if s == [] || WarningRank(x) <= WarningRank(s[0]) {
      if s != [] { assert WarningRank(x) != WarningRank(s[0]) by { assert s[0] in s; } }
    } else {
      assert s == [s[0]] + s[1..];
      InsertSorted(s[1..], x);
      Prepend(s[0], Insert(s[1..], x));
    }
  }

  lemma InsertWarning(s: seq<Warning>, x: Warning)
    requires CanonicalWarnings(s) && KnownWarning(x) && x !in s
    ensures CanonicalWarnings(Insert(s, x)) && |Insert(s, x)| == |s| + 1 && Elements(Insert(s, x)) == Elements(s) + {x}
  {
    InsertSorted(s, x);
    InsertElements(s, x);
  }

  lemma NoWarnings()
    ensures DiagnosticsOk([]) && Elements<Warning>([]) == {}
  {
  }

  lemma NextElements(s: seq<Warning>, i: nat)
    requires i < |s|
    ensures Elements(s[..i + 1]) == Elements(s[..i]) + {s[i]}
  {
    assert s[..i + 1] == s[..i] + [s[i]];
  }

  lemma InElements(s: seq<Warning>, x: Warning)
    ensures x in s <==> x in Elements(s)
  {
  }

  /** One more warning than may be kept is reported. */
  lemma TooMany(before: seq<Warning>, now: seq<Warning>, raw: seq<Warning>, i: nat)
    requires CanonicalWarnings(now) && |now| >= MAX_DIAGNOSTICS && i < |raw| && raw[i] !in now
    requires Elements(now) == Elements(before) + Elements(raw[..i])
    ensures |Elements(before) + Elements(raw)| > MAX_DIAGNOSTICS
  {
    WarningsCount(now);
    assert |Elements(now) + {raw[i]}| == |now| + 1;
    assert raw[..i + 1] == raw[..i] + [raw[i]];
    assert Elements(before) + Elements(raw[..i + 1]) == Elements(now) + {raw[i]};
    MoreWarnings(Elements(before), raw[..i + 1], raw);
  }

  lemma {:induction false} InsertElements(s: seq<Warning>, x: Warning)
    ensures Elements(Insert(s, x)) == Elements(s) + {x}
  {
    if s == [] || WarningRank(x) <= WarningRank(s[0]) {
      ElementsFront(x, s);
    } else {
      InsertElements(s[1..], x);
      ElementsFront(s[0], Insert(s[1..], x));
      ElementsFront(s[0], s[1..]);
      assert s == [s[0]] + s[1..];
    }
  }

  lemma ElementsFront(w: Warning, t: seq<Warning>)
    ensures Elements([w] + t) == Elements(t) + {w}
  {
    forall v ensures v in Elements([w] + t) <==> v in Elements(t) + {w} {
      assert v in [w] + t <==> v == w || v in t;
    }
  }

  lemma Prepend(w: Warning, t: seq<Warning>)
    requires CanonicalWarnings(t) && KnownWarning(w) && (t != [] ==> WarningRank(w) < WarningRank(t[0]))
    ensures CanonicalWarnings([w] + t)
  {
  }

  // The submit check.

  function MatchCount(reviewed: seq<ReviewedCandidate>, l: Locator, n: nat): nat
    requires n <= |reviewed|
  {
    if n == 0 then 0 else MatchCount(reviewed, l, n - 1) + if MatchesLocator(reviewed[n - 1], l) then 1 else 0
  }

  lemma {:induction false} MatchCountMeans(reviewed: seq<ReviewedCandidate>, l: Locator, n: nat)
    requires n <= |reviewed|
    ensures MatchCount(reviewed, l, n) == 0 <==> forall j | 0 <= j < n :: !MatchesLocator(reviewed[j], l)
    ensures MatchCount(reviewed, l, n) == 1 <==> exists k :: 0 <= k < n && OnlyMatch(reviewed, l, k, n)
  {
    if n > 0 {
      MatchCountMeans(reviewed, l, n - 1);
      if MatchesLocator(reviewed[n - 1], l) {
        if MatchCount(reviewed, l, n) == 1 {
          assert OnlyMatch(reviewed, l, n - 1, n);
        }
      } else {
        if MatchCount(reviewed, l, n) == 1 {
          var k :| 0 <= k < n - 1 && OnlyMatch(reviewed, l, k, n - 1);
          assert OnlyMatch(reviewed, l, k, n);
        } else {
          assert forall k | 0 <= k < n && OnlyMatch(reviewed, l, k, n) :: OnlyMatch(reviewed, l, k, n - 1);
        }
      }
    }
  }

  method ValidateReviewedSubmit(flow: Flow, reviewed: seq<ReviewedCandidate>) returns (ok: bool)
    ensures ok <==> SubmitBound(flow, reviewed)
  {
    var submits, matching := 0, 0;
    ghost var last: nat := 0;
    for i := 0 to |flow.sequence|
      invariant submits >= 0 && matching >= 0
      invariant submits == 0 ==> matching == 0 && forall j | 0 <= j < i :: !flow.sequence[j].Submit?
      invariant submits > 0 ==> last < i && flow.sequence[last].Submit? && PortableSubmit(flow.sequence[last].locator)
      invariant submits == 1 ==> forall j | 0 <= j < i && flow.sequence[j].Submit? :: j == last
      invariant submits == 1 ==> matching == MatchCount(reviewed, flow.sequence[last].locator, |reviewed|)
      invariant submits > 1 ==> exists j :: 0 <= j < last && flow.sequence[j].Submit?
    {
      if flow.sequence[i].Submit? {
        submits := submits + 1;
        var l := flow.sequence[i].locator;
        if !PortableSubmit(l) { return false; }
        ghost var before := matching;
        for k := 0 to |reviewed|
          invariant matching == before + MatchCount(reviewed, l, k)
        {
          if MatchesLocator(reviewed[k], l) { matching := matching + 1; }
        }
        last := i;
      }
    }
    ok := submits == 1 && matching == 1;
    if submits == 1 {
      MatchCountMeans(reviewed, flow.sequence[last].locator, |reviewed|);
      assert OnlySubmit(flow.sequence, last);
    }
  }

  function StepIds(m: ClientMessage): seq<Id> {
    if m.stepIds.Some? then m.stepIds.value else []
  }

  predicate DistinctLocators(cs: seq<Candidate>) {
    forall i, j | 0 <= i < j < |cs| :: cs[i].role != cs[j].role || cs[i].name != cs[j].name
  }

  /** The records are the candidates, each under its own identifier. */
  ghost predicate IndexedBy(generation: int, records: map<Id, Record>, cs: seq<Candidate>) {
    && (forall id :: id in records ==>
          id.CandidateId? && id.ordinal < |cs| && cs[id.ordinal].id == id && records[id] == Record(cs[id.ordinal], generation))
    && forall k | 0 <= k < |cs| :: cs[k].id in records
  }

  function LocatorsOf(cs: seq<Candidate>): set<(Role, Label)> { set c <- cs :: (c.role, c.name) }

  lemma NothingReduced(generation: int)
    ensures IndexedBy(generation, map[], []) && DistinctLocators([]) && LocatorsOf([]) == {}
  {
  }

  lemma OneMore(generation: int, records: map<Id, Record>, cs: seq<Candidate>, c: Candidate)
    requires IndexedBy(generation, records, cs) && DistinctLocators(cs) && (c.role, c.name) !in LocatorsOf(cs)
    requires c.id == CandidateId(generation, c.role, c.name, |cs|)
    ensures IndexedBy(generation, records[c.id := Record(c, generation)], cs + [c]) && DistinctLocators(cs + [c])
    ensures LocatorsOf(cs + [c]) == LocatorsOf(cs) + {(c.role, c.name)}
  {
    forall j | 0 <= j < |cs| ensures cs[j].role != c.role || cs[j].name != c.name {
      assert cs[j] in cs && (cs[j].role, cs[j].name) in LocatorsOf(cs);
    }
    forall l ensures l in LocatorsOf(cs + [c]) <==> l in LocatorsOf(cs) + {(c.role, c.name)} {
      assert forall x :: x in cs + [c] <==> x in cs || x == c;
    }
  }

  lemma RepeatedAt(cs: seq<Candidate>, c: Candidate) returns (j: nat)
    requires (c.role, c.name) in LocatorsOf(cs)
    ensures j < |cs| && cs[j].role == c.role && cs[j].name == c.name
  {
    var x :| x in cs && (x.role, x.name) == (c.role, c.name);
    j :| 0 <= j < |cs| && cs[j] == x;
  }

  lemma SameLocator(s: Scope, generation: int, a: RawCandidate, j: nat, x: Candidate, b: RawCandidate, k: nat, y: Candidate)
    requires Reduces(s, generation, a, j, x) && Reduces(s, generation, b, k, y) && x.role == y.role && x.name == y.name
    ensures a.role == b.role && a.name == b.name
  {
  }

  /** Where the reduced candidates are distinct the reported ones are. */
  lemma RawDistinct(s: Scope, generation: int, raw: seq<RawCandidate>, cs: seq<Candidate>)
    requires |cs| == |raw| && DistinctLocators(cs)
    requires forall k | 0 <= k < |raw| :: Reduces(s, generation, raw[k], k, cs[k])
    ensures forall i, j | 0 <= i < j < |raw| :: raw[i].role != raw[j].role || raw[i].name != raw[j].name
  {
    forall i, j | 0 <= i < j < |raw| ensures raw[i].role != raw[j].role || raw[i].name != raw[j].name {
      assert Reduces(s, generation, raw[i], i, cs[i]) && Reduces(s, generation, raw[j], j, cs[j]);
    }
  }

  /** The browser made a sound report, and the observation lists it. */
  ghost predicate Accepted(s: Scope, noted: set<Warning>, e: Event, o: Observation) {
    e.Looked? && e.raw.Some? && SoundReport(s, noted, e.raw.value) && Lists(s.protocol, o.generation, e.raw.value, o)
  }

  class Server {
    const browser: Browser
    const output: Output
    const protocol: Protocol
    var phase: Phase
    var closed: bool
    var profileId: string
    var bounds: Bounds
    var origins: seq<Origin>
    var session: Option<nat>
    var candidates: map<Id, Record>
    var generation: int
    var observations: int
    var diagnostics: seq<Warning>
    var observedAt: Time
    var review: Option<Review>
    var remaining: int
    var history: seq<Observation>
    var previews: seq<PreviewRecord>
    var authority: Option<HumanVerification>
    ghost var trail: Trail

    ghost function Snap(): Snapshot
      reads this`bounds, this`origins, this`observations, this`generation, this`candidates, this`history, this`previews,
            this`observedAt, this`diagnostics, this`authority
    {
      Snapshot(Scope(protocol, bounds, origins), observations, generation, candidates, history, previews,
               observedAt, diagnostics, authority)
    }

    /** The browser is inside exactly the session this server holds. */
    ghost predicate Linked()
      reads this, browser
    {
      browser.Orderly() && browser.stage == if session.Some? then Inside(session.value) else Idle
    }

    /** The browser's guard, if it has one, works under this session's terms. */
    ghost predicate Agrees()
      reads this`bounds, this`authority, browser`guard
    {
      browser.Guards(protocol, bounds.maxRequests, authority)
    }

    /** A guarded browser has never been reported to break the network policy. */
    ghost predicate PolicyKept()
      reads output
    {
      browser.guarded ==> Diagnostic(NetworkPolicy) !in output.sent
    }

    ghost predicate Live()
      reads this
    {
      && session.Some? && (phase.Observing? || phase.Reviewed?)
      && Consistent(Snap()) && Identifier(profileId)
      && (phase.Observing? ==> review.None?)
      && (phase.Reviewed? ==> review.Some? && ReviewOk(Snap(), review.value))
    }

    /** What the session knows is what the browser's log has. */
    ghost predicate Traced()
      reads this`session, this`trail, this`bounds, this`origins, this`observations, this`generation, this`candidates,
            this`history, this`previews, this`observedAt, this`diagnostics, this`authority, browser`log
    {
      session == Some(trail.h) && OnRecord(browser.log, trail, Snap())
    }

    /** Before start nothing is open; a live session is consistent; a closed one was torn down. */
    ghost predicate Valid()
      reads this, browser, output
    {
      && Linked() && PolicyKept()
      && (closed ==> session.None?)
      && (!closed && phase.AwaitingStart? ==> session.None? && Fresh() && bounds == DEFAULT_BOUNDS)
      && (!closed && !phase.AwaitingStart? ==> Live() && Agrees() && Traced())
    }

    ghost predicate Fresh()
      reads this
    {
      generation == 0 && observations == 0 && candidates == map[] && history == [] && previews == []
      && diagnostics == [] && authority.None? && review.None?
    }

    constructor (browser: Browser, output: Output, protocol: Protocol)
      requires browser.Orderly() && browser.stage == Idle && (browser.guarded ==> Diagnostic(NetworkPolicy) !in output.sent)
      ensures Valid() && !closed && phase.AwaitingStart?
      ensures this.browser == browser && this.output == output && this.protocol == protocol
    {
      this.browser, this.output, this.protocol := browser, output, protocol;
      phase, closed, profileId, session := AwaitingStart, false, "", None;
      bounds, origins := DEFAULT_BOUNDS, [];
      candidates, generation, observations, diagnostics := map[], 0, 0, [];
      observedAt, review, remaining, history, previews, authority := Time(0, true), None, 0, [], [], None;
      trail := Trail(0, 0, []);
    }

    /** A close is made at most once: the session is forgotten before it is closed. */
    method CloseSession() returns (summary: NetworkSummary, ok: bool)
      requires Linked()
      modifies this`session, browser`log, browser`stage, browser`guard
      ensures Linked() && session.None?
      ensures old(session).None? ==> browser.log == old(browser.log) && summary == NO_TRAFFIC && ok
      ensures old(session).Some? ==> browser.log == old(browser.log) + [Closed(old(session).value, ok, summary)]
      ensures old(session).Some? && browser.guarded && ok && old(Agrees()) ==>
                SummaryOkFor(summary, bounds.maxRequests, protocol, authority)
    {
      if session.None? { return NO_TRAFFIC, true; }
      var h := session.value;
      session := None;
      summary, ok := browser.Close(h);
    }

    /** A session that was open has been closed, once, and nothing else was asked of the browser. */
    ghost predicate ClosedSince(was: Option<nat>, before: seq<Event>)
      reads browser`log
    {
      match was
      case None => browser.log == before
      case Some(h) =>
        |browser.log| > 0 && browser.log == before + [browser.log[|browser.log| - 1]]
        && browser.log[|browser.log| - 1].Closed? && browser.log[|browser.log| - 1].h == h
    }

    method FailAfterClose(code: Failure)
      requires Linked() && session.None? && PolicyKept() && (browser.guarded ==> code != NetworkPolicy)
      modifies this`closed, output
      ensures Valid() && closed && output.sent == old(output.sent) + [Diagnostic(code)]
    {
      closed := true;
      var ok := output.Write(Diagnostic(code));
    }

    method Fail(code: Failure)
      requires Linked() && PolicyKept() && code != NetworkPolicy
      modifies this`session, this`closed, browser`log, browser`stage, browser`guard, output
      ensures Valid() && closed
      ensures ClosedSince(old(session), old(browser.log))
      ensures output.sent == old(output.sent)
                + [Diagnostic(if old(session).None? || browser.log[|browser.log| - 1].clean then code else TeardownFailure)]
    {
      var summary, ok := CloseSession();
      FailAfterClose(if ok then code else TeardownFailure);
    }

    method Cancelled() returns (b: bool) {
      b := *;
    }

    /** The code of a failed browser call. */
    method BrowserProblem() returns (code: Failure)
      ensures code == Canceled || code == BrowserFailure
    {
      var cancelled := Cancelled();
      code := if cancelled then Canceled else BrowserFailure;
    }

    method FailBrowser()
      requires Linked() && PolicyKept()
      modifies this`session, this`closed, browser`log, browser`stage, browser`guard, output
      ensures Valid() && closed
    {
      var code := BrowserProblem();
      Fail(code);
    }

    /** The active-time budget around one browser call. */
    method BeginActive() returns (ok: bool)
      ensures ok ==> remaining > 0
    {
      var cancelled := Cancelled();
      ok := !cancelled && remaining > 0;
    }

    method EndActive(done: bool) returns (ok: bool)
      requires remaining > 0
      modifies this`remaining
      ensures 0 <= remaining <= old(remaining)
      ensures ok ==> done && remaining > 0
    {
      var elapsed :| elapsed >= 0;
      if elapsed >= remaining {
        remaining := 0;
        ok := false;
      } else {
        remaining := remaining - elapsed;
        ok := done;
      }
    }

    /** One navigation within the budget. */
    method GoTo(verb: Verb, url: Url) returns (ok: bool)
      requires Linked() && session.Some? && NavigationLawful(browser.log, session.value, verb, url)
      modifies this`remaining, browser`log, browser`stage, browser`guard
      ensures Linked() && (old(Agrees()) ==> Agrees())
      ensures ok ==> browser.log == old(browser.log) + [Navigated(session.value, verb, url, true)]
    {
      ok := BeginActive();
      if ok {
        var done := browser.Navigate(session.value, verb, url);
        ok := EndActive(done);
      }
    }

    /** One preview within the budget. */
    method ActOn(candidate: Candidate, request: PreviewRequest) returns (ok: bool)
      requires Linked() && session.Some? && PreviewLawful(browser.log, session.value, candidate, request)
      modifies this`remaining, browser`log, browser`stage, browser`guard
      ensures Linked() && (old(Agrees()) ==> Agrees())
      ensures ok ==> browser.log == old(browser.log) + [Previewed(session.value, candidate, request, true)]
    {
      ok := BeginActive();
      if ok {
        var done := browser.Preview(session.value, candidate, request);
        ok := EndActive(done);
      }
    }

    /** One approval within the budget. */
    method ApproveInTime(v: HumanVerification) returns (ok: bool)
      requires Linked() && session.Some? && GrantLawful(browser.log, session.value, v)
      modifies this`remaining, browser`log, browser`stage, browser`guard
      ensures Linked() && (old(Agrees()) && ok ==> browser.Guards(protocol, bounds.maxRequests, Some(v)))
      ensures ok ==> browser.log == old(browser.log) + [Granted(session.value, v, true)]
    {
      ok := BeginActive();
      if ok {
        var approved := browser.Approve(session.value, v);
        ok := EndActive(approved);
      }
    }

    method ValidateOrigins(values: seq<Origin>) returns (ok: bool)
      ensures ok <==> OriginsOk(values)
    {
      if |values| == 0 || |values| > 32 { return false; }
      for i := 0 to |values|
        invariant forall j | 0 <= j < i :: values[j].exact
        invariant forall j | 0 < j < i :: TextLe(values[j - 1].text, values[j].text) && values[j - 1] != values[j]
      {
        if !values[i].exact || (i > 0 && (!TextLe(values[i - 1].text, values[i].text) || values[i - 1] == values[i])) {
          assert values[i] in values;
          return false;
        }
      }
      ok := true;
    }

    method StartProblem(m: ClientMessage) returns (problem: Option<Failure>)
      ensures problem != Some(NetworkPolicy)
      ensures problem.None? ==> m.profileId.Some? && Identifier(m.profileId.value)
                                && m.origins.Some? && OriginsOk(m.origins.value)
                                && m.url.Some? && CleanUrl(protocol, m.url.value) && m.url.value.origin in m.origins.value
                                && (m.bounds.Some? ==> BoundsOk(m.bounds.value))
    {
      if m.profileId.None? || !Identifier(m.profileId.value) { return Some(InvalidStart); }
      if m.url.None? || !CleanUrl(protocol, m.url.value) { return Some(InvalidStart); }
      var ok := ValidateOrigins(if m.origins.Some? then m.origins.value else []);
      if !ok || m.url.value.origin !in m.origins.value { return Some(InvalidOrigin); }
      if m.bounds.Some? && !BoundsOk(m.bounds.value) { return Some(InvalidBounds); }
      problem := None;
    }

    /** What the browser is asked for: the URL given, and the session's protocol, origins and limits. */
    function RequestFor(url: Url): BrowserRequest
      reads this`bounds, this`origins
    {
      BrowserRequest(protocol, url, origins, bounds.navigationTimeoutMS, bounds.totalTimeoutMS, bounds.maxRequests,
                     bounds.maxResponseBytes, bounds.maxCandidates)
    }

    /** Open may return a session, an error, or both: whatever it opened is ours to close. */
    method OpenSession(url: Url) returns (ok: bool)
      requires Linked() && session.None? && authority.None? && bounds.maxRequests >= 0 && bounds.maxResponseBytes >= 0
      requires OpenLawful(RequestFor(url))
      modifies this`session, this`remaining, browser
      ensures Linked() && (ok ==> session.Some? && Agrees())
      ensures ok ==> browser.log == old(browser.log) + [Opened(session.value, RequestFor(url), true)]
    {
      hide OpenLawful, Browser.Orderly, Browser.Guards;
      ok := BeginActive();
      if ok {
        var opens;
        session, opens := browser.Open(RequestFor(url));
        ok := EndActive(opens);
      }
      ok := ok && session.Some?;
    }

    /** A session for exactly the profile, origins and bounds of the message, with nothing observed yet. */
    ghost predicate Started(m: ClientMessage)
      reads this
    {
      && m.profileId == Some(profileId) && m.origins == Some(origins)
      && m.url.Some? && CleanUrl(protocol, m.url.value) && m.url.value.origin in origins
      && bounds == (if m.bounds.Some? then m.bounds.value else DEFAULT_BOUNDS) && session.Some? && Fresh()
    }

    method Start(m: ClientMessage) returns (ok: bool)
      requires Valid() && !closed && phase.AwaitingStart?
      modifies this, browser, output
      ensures Valid() && (ok ==> !closed)
      ensures !closed ==> phase.Observing? && Started(m)
      ensures !closed ==>
                browser.log == old(browser.log)
                               + [Opened(session.value,
                                         BrowserRequest(protocol, m.url.value, m.origins.value, bounds.navigationTimeoutMS,
                                                        bounds.totalTimeoutMS, bounds.maxRequests,
                                                        bounds.maxResponseBytes, bounds.maxCandidates), true)]
    {
      hide Consistent, ReviewOk, Identifier, OriginsOk, BoundsOk, CleanUrl, OpenLawful, OnRecord, Browser.Guards,
           Browser.Orderly, Live;
      var problem := StartProblem(m);
      if problem.Some? { Fail(problem.value); return false; }
      Configure(m);
      ok := Connect(m.url.value);
      if !ok { FailBrowser(); return false; }
      ok := output.Write(State(phase));
    }

    /** Opens the configured session at this URL. */
    method Connect(url: Url) returns (ok: bool)
      requires Linked() && PolicyKept() && session.None? && !closed && Fresh()
      requires BoundsOk(bounds) && OriginsOk(origins) && Identifier(profileId)
      requires bounds.maxRequests >= 0 && bounds.maxResponseBytes >= 0 && CleanUrl(protocol, url) && url.origin in origins
      modifies this`session, this`remaining, this`phase, this`trail, browser
      ensures Linked() && PolicyKept()
      ensures ok ==> Valid() && phase.Observing? && session.Some? && Fresh()
                     && browser.log == old(browser.log) + [Opened(session.value, RequestFor(url), true)]
    {
      hide Consistent, ReviewOk, Identifier, OriginsOk, BoundsOk, CleanUrl, OpenLawful, OnRecord, Browser.Guards,
           Browser.Orderly;
      MayOpen(RequestFor(url), Snap().scope);
      ghost var before := browser.log;
      ok := OpenSession(url);
      if ok { Begin(before, url); }
    }

    method Configure(m: ClientMessage)
      requires m.profileId.Some? && m.origins.Some? && (m.bounds.Some? ==> BoundsOk(m.bounds.value))
      modifies this`bounds, this`profileId, this`origins, this`remaining
      ensures profileId == m.profileId.value && origins == m.origins.value && BoundsOk(bounds)
      ensures bounds == if m.bounds.Some? then m.bounds.value else DEFAULT_BOUNDS
      ensures bounds.maxRequests >= 0 && bounds.maxResponseBytes >= 0
    {
      DefaultBoundsOk();
      bounds := if m.bounds.Some? then m.bounds.value else DEFAULT_BOUNDS;
      profileId, origins := m.profileId.value, m.origins.value;
      remaining := bounds.totalTimeoutMS;
    }

    method Begin(ghost before: seq<Event>, url: Url)
      requires Linked() && PolicyKept() && Agrees() && session.Some? && !closed && Fresh()
      requires BoundsOk(bounds) && OriginsOk(origins) && Identifier(profileId)
      requires browser.log == before + [Opened(session.value, RequestFor(url), true)]
      modifies this`phase, this`trail
      ensures Valid() && !closed && phase.Observing?
    {
      hide Consistent, ReviewOk, Identifier, OriginsOk, BoundsOk, OnRecord;
      phase, trail := Observing, Trail(session.value, |before|, []);
      StartConsistent(Scope(protocol, bounds, origins), observedAt);
      Begun(before, session.value, RequestFor(url), Snap());
    }

    /** One candidate of a raw observation, reduced; None when the backend's report is invalid. */
    method ReduceCandidate(raw: RawCandidate, k: nat) returns (c: Option<Candidate>)
      ensures c.Some? <==> Reducible(Scope(protocol, bounds, origins), raw)
      ensures c.Some? ==> Reduces(Scope(protocol, bounds, origins), generation, raw, k, c.value)
      ensures c.Some? ==> c.value.role == raw.role && c.value.name == raw.name && c.value.matches == raw.matches
                          && c.value.id == CandidateId(generation, raw.role, raw.name, k)
                          && c.value.control == (if Typed(protocol) && raw.name.Reduced? then raw.control else None)
                          && c.value.verification == (if protocol == V4 then raw.verification else None)
      ensures c.Some? ==> ReducedCandidateOk(Scope(protocol, bounds, origins), generation, c.value, k)
    {
      if !raw.wellFormed || !PortableRole(raw.role) || raw.matches < 1 || raw.matches > bounds.maxCandidates
         || !SafeLabel(raw.name) {
        return None;
      }
      var candidate := Candidate(CandidateId(generation, raw.role, raw.name, k), raw.role, raw.name, raw.matches, None, None);
      if Typed(protocol) && raw.control.Some? && Promotable(candidate) {
        var ok := ValidateControlMetadata(raw.control);
        if !ok { return None; }
        candidate := candidate.(control := raw.control);
      }
      if protocol == V4 && raw.verification.Some? {
        if !VerificationObservationOk(raw.verification.value, origins) { return None; }
        candidate := candidate.(verification := raw.verification);
      }
      c := Some(candidate);
    }

    method ReduceDiagnostics(raw: seq<Warning>) returns (ok: bool, mine: seq<Warning>)
      requires |raw| <= MAX_DIAGNOSTICS && DiagnosticsOk(diagnostics)
      modifies this`diagnostics
      ensures ok <==> (forall w <- raw :: KnownWarning(w)) && |Elements(old(diagnostics)) + Elements(raw)| <= MAX_DIAGNOSTICS
      ensures ok ==> DiagnosticsOk(mine) && DiagnosticsOk(diagnostics)
      ensures ok ==> Elements(mine) == Elements(raw) && Elements(diagnostics) == Elements(old(diagnostics)) + Elements(raw)
    {
      hide Insert, CanonicalWarnings, KnownWarning, Elements;
      mine := [];
      NoWarnings();
      assert raw[..0] == [];
      for i := 0 to |raw|
        invariant |mine| <= i && DiagnosticsOk(mine) && DiagnosticsOk(diagnostics)
        invariant Elements(mine) == Elements(raw[..i])
        invariant Elements(diagnostics) == Elements(old(diagnostics)) + Elements(raw[..i])
        invariant forall j | 0 <= j < i :: KnownWarning(raw[j])
      {
        var code := raw[i];
        NextElements(raw, i);
        InElements(mine, code);
        InElements(diagnostics, code);
        assert code in raw;
        if !KnownWarning(code) { return false, mine; }
        if code !in mine {
          InsertWarning(mine, code);
          mine := Insert(mine, code);
          if code !in diagnostics {
            if |diagnostics| >= MAX_DIAGNOSTICS {
              TooMany(old(diagnostics), diagnostics, raw, i);
              return false, mine;
            }
            InsertWarning(diagnostics, code);
            diagnostics := Insert(diagnostics, code);
          }
        }
      }
      assert raw[..|raw|] == raw;
      WarningsCount(diagnostics);
      ok := true;
    }

    method ReduceCandidates(raw: seq<RawCandidate>) returns (ok: bool, cs: seq<Candidate>, records: map<Id, Record>)
      ensures ok ==> |cs| == |raw| && DistinctLocators(cs) && IndexedBy(generation, records, cs)
      ensures ok ==> forall k | 0 <= k < |cs| ::
                       Reduces(Scope(protocol, bounds, origins), generation, raw[k], k, cs[k])
                       && ReducedCandidateOk(Scope(protocol, bounds, origins), generation, cs[k], k)
      ensures ok <==> (forall k | 0 <= k < |raw| :: Reducible(Scope(protocol, bounds, origins), raw[k]))
                      && forall i, j | 0 <= i < j < |raw| :: raw[i].role != raw[j].role || raw[i].name != raw[j].name
    {
      hide Reducible, ReducedCandidateOk, Reduces, IndexedBy, DistinctLocators, LocatorsOf;
      cs, records := [], map[];
      var locators: set<(Role, Label)> := {};
      NothingReduced(generation);
      for k := 0 to |raw|
        invariant |cs| == k && DistinctLocators(cs) && IndexedBy(generation, records, cs) && locators == LocatorsOf(cs)
        invariant forall j | 0 <= j < k :: Reduces(Scope(protocol, bounds, origins), generation, raw[j], j, cs[j])
        invariant forall j | 0 <= j < k :: ReducedCandidateOk(Scope(protocol, bounds, origins), generation, cs[j], j)
        invariant forall j | 0 <= j < k :: Reducible(Scope(protocol, bounds, origins), raw[j])
      {
        var c := ReduceCandidate(raw[k], k);
        if c.None? { return false, cs, records; }
        if (c.value.role, c.value.name) in locators {
          ghost var j := RepeatedAt(cs, c.value);
          SameLocator(Scope(protocol, bounds, origins), generation, raw[j], j, cs[j], raw[k], k, c.value);
          return false, cs, records;
        }
        OneMore(generation, records, cs, c.value);
        locators := locators + {(c.value.role, c.value.name)};
        records := records[c.value.id := Record(c.value, generation)];
        cs := cs + [c.value];
      }
      RawDistinct(Scope(protocol, bounds, origins), generation, raw, cs);
      ok := true;
    }

    /** Reduction of what the backend reports; the generation advances once the limits are checked. */
    method ReduceObservation(raw: RawObservation) returns (ok: bool, o: Observation, records: map<Id, Record>)
      requires DiagnosticsOk(diagnostics)
      modifies this`generation, this`diagnostics
      ensures ok ==> generation == old(generation) + 1 && o.generation == generation
                     && ReducedOk(Scope(protocol, bounds, origins), o) && RecordsOf(records, o)
                     && DiagnosticsOk(diagnostics)
      ensures ok ==> ReducedFrom(Scope(protocol, bounds, origins), raw, o)
                     && Elements(diagnostics) == Elements(old(diagnostics)) + Elements(o.diagnostics)
      ensures ok <==> SoundReport(Scope(protocol, bounds, origins), Elements(old(diagnostics)), raw)
      ensures ok ==> Lists(protocol, generation, raw, o)
    {
      hide Reducible, SoundRaw, Reduces, ShowsAs;
      forall k | 0 <= k < |raw.candidates|
        ensures Reducible(Scope(protocol, bounds, origins), raw.candidates[k])
                <==> SoundRaw(Scope(protocol, bounds, origins), raw.candidates[k])
      {
        RawIff(Scope(protocol, bounds, origins), raw.candidates[k]);
      }
      o, records := Observation(0, raw.origin, raw.path, [], [], 0), map[];
      if !raw.origin.exact || raw.origin !in origins || !raw.path.disclosable
         || |raw.candidates| > bounds.maxCandidates || |raw.diagnostics| > MAX_DIAGNOSTICS {
        return false, o, records;
      }
      generation := generation + 1;
      var cs, mine;
      ok, cs, records := ReduceCandidates(raw.candidates);
      if !ok { return; }
      ok, mine := ReduceDiagnostics(raw.diagnostics);
      o := Observation(generation, raw.origin, raw.path, cs, mine, raw.bytes);
      if ok { ListsIff(Scope(protocol, bounds, origins), raw, o); }
    }

    method ObserveRaw() returns (raw: Option<RawObservation>)
      requires Linked() && session.Some?
      modifies this`remaining, browser`log, browser`stage, browser`guard
      ensures Linked() && (old(Agrees()) ==> Agrees())
      ensures raw.Some? ==> browser.log == old(browser.log) + [Looked(session.value, raw)]
    {
      raw := None;
      var ok := BeginActive();
      if ok {
        raw := browser.Observe(session.value);
        ok := EndActive(raw.Some?);
        if !ok { raw := None; }
      }
    }

    /** The browser's last call was an observation, and o is its reduction. */
    ghost predicate JustReported(o: Observation)
      reads this`session, this`bounds, this`origins, browser`log
    {
      && session.Some? && |browser.log| > 0
      && var e := browser.log[|browser.log| - 1];
      && e.Looked? && e.h == session.value && e.raw.Some?
      && ReducedFrom(Scope(protocol, bounds, origins), e.raw.value, o)
    }

    /** The browser was called once since, for an observation that it answered. */
    ghost predicate LookedOnce(before: seq<Event>)
      reads this`session, browser`log
    {
      && session.Some? && |browser.log| > 0 && browser.log == before + [browser.log[|browser.log| - 1]]
      && browser.log[|browser.log| - 1].Looked? && browser.log[|browser.log| - 1].h == session.value
    }

    /** Asks the browser for an observation and reduces it, or says what went wrong. */
    method TakeObservation()
      returns (problem: Option<Failure>, o: Observation, records: map<Id, Record>, now: Time)
      requires Linked() && session.Some? && DiagnosticsOk(diagnostics)
      modifies this`observations, this`generation, this`diagnostics, this`remaining, browser`log, browser`stage, browser`guard
      ensures Linked() && (old(Agrees()) ==> Agrees()) && problem != Some(NetworkPolicy)
      ensures problem.None? ==> JustReported(o) && Elements(diagnostics) == old(Elements(diagnostics)) + Elements(o.diagnostics)
      ensures problem.None? ==>
                && LookedOnce(old(browser.log))
                && Accepted(Scope(protocol, bounds, origins), old(Elements(diagnostics)), browser.log[|browser.log| - 1], o)
      ensures problem == Some(InvalidObservation) ==>
                && LookedOnce(old(browser.log)) && browser.log[|browser.log| - 1].raw.Some?
                && !SoundReport(Scope(protocol, bounds, origins), old(Elements(diagnostics)), browser.log[|browser.log| - 1].raw.value)
      ensures problem.None? ==>
                && observations == old(observations) + 1 <= bounds.maxObservations
                && generation == old(generation) + 1 && o.generation == generation && DiagnosticsOk(diagnostics)
                && ReducedOk(Scope(protocol, bounds, origins), o) && RecordsOf(records, o) && CanonicalTime(now)
    {
      hide DiagnosticsOk, ReducedOk, RecordsOf, ReducedFrom, SoundReport, Lists, Browser.Guards, Browser.Orderly;
      o, records, now := Observation(0, Origin("", false), ROOT, [], [], 0), map[], Time(0, true);
      observations := observations + 1;
      if observations > bounds.maxObservations { return Some(ObservationLimit), o, records, now; }
      var raw := ObserveRaw();
      if raw.None? {
        var code := BrowserProblem();
        return Some(code), o, records, now;
      }
      var ok;
      ok, o, records := ReduceObservation(raw.value);
      if !ok { return Some(InvalidObservation), o, records, now; }
      now := Now();
      now := WholeSecond(now);
      if now.nanos == 0 || (observedAt.nanos != 0 && now.nanos < observedAt.nanos) {
        return Some(ClockUnavailable), o, records, now;
      }
      problem := None;
    }

    /**
     The message discloses the newest observation, which is the reduction of what the browser just reported, and
     the actionable candidates are exactly its candidates.
     */
    ghost predicate Reports(m: ServerMessage)
      reads this`session, this`bounds, this`origins, this`generation, this`candidates, browser`log
    {
      m.Observed? && JustReported(m.observation) && m.observation.generation == generation
      && ReducedOk(Scope(protocol, bounds, origins), m.observation)
      && RecordsOf(candidates, m.observation)
    }

    /** Observation: the newest generation replaces every candidate. */
    method Observe() returns (ok: bool)
      requires Valid() && !closed && phase.Observing?
      modifies this, browser, output
      ensures Valid() && (ok ==> !closed)
      ensures !closed ==> phase.Observing? && session == old(session) && Advanced(old(Snap()), Snap())
      ensures !closed ==> |output.sent| > 0 && Reports(output.sent[|output.sent| - 1])
      ensures !closed ==> Elements(diagnostics) == old(Elements(diagnostics))
                                                   + Elements(output.sent[|output.sent| - 1].observation.diagnostics)
      ensures !closed && Typed(protocol) ==> history == old(history) + [output.sent[|output.sent| - 1].observation]
      ensures !closed ==> LookedOnce(old(browser.log)) && trail == Further(old(trail), |old(browser.log)|)
      ensures !closed ==> Accepted(Scope(protocol, bounds, origins), old(Elements(diagnostics)), browser.log[|browser.log| - 1],
                                   output.sent[|output.sent| - 1].observation)
    {
      hide Consistent, ReviewOk, Identifier, DiagnosticsOk, BoundsOk, OriginsOk, RecordsOf, Advanced, JustReported, Accepted,
           ReducedOk, OnRecord, Browser.Guards, Browser.Orderly;
      var problem, o := TakeIn();
      if problem.Some? { Fail(problem.value); return false; }
      ReducedDisclosable(Snap().scope, o);
      if Typed(protocol) && HistoryBytes(history) > MAX_LINE_BYTES { Fail(InvalidObservation); return false; }
      ok := output.Write(Observed(o));
    }

    /** Takes an observation and adopts it. */
    method TakeIn() returns (problem: Option<Failure>, o: Observation)
      requires Valid() && !closed && phase.Observing?
      modifies this, browser`log, browser`stage, browser`guard
      ensures Linked() && problem != Some(NetworkPolicy)
      ensures problem.None? ==>
                && Valid() && !closed && phase.Observing? && session == old(session) && Advanced(old(Snap()), Snap())
                && JustReported(o) && o.generation == generation && ReducedOk(Snap().scope, o) && RecordsOf(candidates, o)
                && Elements(diagnostics) == old(Elements(diagnostics)) + Elements(o.diagnostics)
                && (Typed(protocol) ==> history == old(history) + [o])
                && LookedOnce(old(browser.log)) && trail == Further(old(trail), |old(browser.log)|)
                && Accepted(Scope(protocol, bounds, origins), old(Elements(diagnostics)), browser.log[|browser.log| - 1], o)
    {
      hide Consistent, ReviewOk, Identifier, DiagnosticsOk, BoundsOk, OriginsOk, RecordsOf, Advanced, JustReported, Accepted,
           ReducedOk, OnRecord, Elements, SummaryOkFor, SoundReport, Lists, ReducedFrom, Further, Fresh, CleanlyClosed, CanonicalTime, LookedOnce, Browser.Guards, Browser.Orderly;
      ghost var before, log := Snap(), browser.log;
      ConsistentFacts(before);
      var records, now;
      problem, o, records, now := TakeObservation();
      if problem.None? {
        Adopt(before, o, records, now);
        Trace(before, log, o, records);
      }
    }

    /** The newest generation replaces every candidate and extends the history. */
    method Adopt(ghost before: Snapshot, o: Observation, records: map<Id, Record>, now: Time)
      requires Consistent(before) && before.generation + 1 <= bounds.maxObservations
      requires Snap() == before.(observations := observations, generation := generation, diagnostics := diagnostics)
      requires observations == generation == before.generation + 1 == o.generation && DiagnosticsOk(diagnostics)
      requires ReducedOk(Snap().scope, o) && RecordsOf(records, o) && CanonicalTime(now)
      modifies this`candidates, this`review, this`observedAt, this`history
      ensures Consistent(Snap()) && review.None? && Advanced(before, Snap()) && candidates == records
      ensures history == (if Typed(protocol) then before.history + [o] else before.history)
    {
      hide Consistent, ReducedOk, RecordsOf, DiagnosticsOk;
      ghost var counted := before.(observations := observations, diagnostics := diagnostics);
      CountKeeps(before, observations, diagnostics);
      candidates, review, observedAt := records, None, now;
      if Typed(protocol) { history := history + [o]; }
      ghost var after := ObservationKeeps(counted, o, records, now, diagnostics);
      assert Snap() == after;
    }

    /** The record is extended by what was just reported. */
    ghost method Trace(before: Snapshot, log: seq<Event>, o: Observation, records: map<Id, Record>)
      requires session == Some(trail.h) && OnRecord(log, trail, before) && Consistent(before) && JustReported(o) && RecordsOf(records, o)
      requires LookedOnce(log) && Snap().scope == before.scope
      requires Snap() == before.(observations := observations, generation := before.generation + 1, diagnostics := diagnostics,
                                 candidates := records, observedAt := observedAt, history := history)
      requires history == if Typed(protocol) then before.history + [o] else before.history
      modifies this`trail
      ensures Traced() && trail == Further(old(trail), |log|)
    {
      hide OnRecord, RecordsOf, ReducedFrom;
      assert Typed(protocol) ==> |before.history| == before.generation by { HistoryCounts(before); }
      trail := Further(trail, |log|);
      Adopting(log, browser.log[|log|].raw.value, old(trail), before, o, records, Snap());
    }

    lemma HistoryCounts(s: Snapshot)
      requires Consistent(s)
      ensures Typed(s.scope.protocol) ==> |s.history| == s.generation
    {
    }

    method Now() returns (t: Time)
      ensures t.utc
    {
      var nanos: int := *;
      t := Time(nanos, true);
    }

    /** No candidate and no review survives. */
    method Clear()
      requires Linked() && PolicyKept() && Live() && Agrees() && !closed && phase.Observing?
      requires session == Some(trail.h) && OnRecord(browser.log, trail, Snap().(candidates := map[]))
      modifies this`candidates, this`review
      ensures Valid() && Snap() == old(Snap()).(candidates := map[])
    {
      hide Consistent, ReviewOk, Identifier, OnRecord;
      ClearKeeps(Snap());
      candidates, review := map[], None;
    }

    /** Navigation, to where the message says: no candidate survives it. */
    method Navigate(m: ClientMessage) returns (ok: bool)
      requires Valid() && !closed && phase.Observing?
      modifies this, browser, output
      ensures Valid() && (ok ==> !closed)
      ensures !closed ==> candidates == map[] && Snap() == old(Snap()).(candidates := map[])
      ensures !closed ==> m.verb.Some? && m.url.Some? && session.Some? && session == old(session)
                          && browser.log == old(browser.log) + [Navigated(session.value, m.verb.value, m.url.value, true)]
    {
      hide Consistent, ReviewOk, Identifier, PreviewOk, AuthorityOk, OriginsOk, BoundsOk, MatchesVerification,
           OnRecord, NavigationLawful, Browser.Guards, Browser.Orderly;
      if m.verb != Some(Get) && m.verb != Some(Head) { Fail(InvalidNavigation); return false; }
      if m.url.None? || !CleanUrl(protocol, m.url.value) { Fail(InvalidNavigation); return false; }
      if m.url.value.origin !in origins { Fail(InvalidOrigin); return false; }
      MayGo(m.verb.value, m.url.value);
      ok := Travel(m.verb.value, m.url.value);
      if !ok { FailBrowser(); return false; }
      ok := output.Write(State(phase));
    }

    /** The navigation itself: no candidate survives it, answered or not. */
    method Travel(verb: Verb, url: Url) returns (ok: bool)
      requires Valid() && !closed && phase.Observing? && NavigationLawful(browser.log, session.value, verb, url)
      modifies this`candidates, this`review, this`remaining, browser`log, browser`stage, browser`guard
      ensures Linked() && PolicyKept() && candidates == map[]
      ensures ok ==> Valid() && Snap() == old(Snap()).(candidates := map[])
                     && browser.log == old(browser.log) + [Navigated(session.value, verb, url, true)]
    {
      hide Consistent, ReviewOk, Identifier, OnRecord, NavigationLawful, Browser.Guards, Browser.Orderly;
      ghost var before, log := Snap(), browser.log;
      candidates, review := map[], None;
      ok := GoTo(verb, url);
      if ok {
        Moved(log, Navigated(session.value, verb, url, true), trail, before);
        ClearKeeps(before);
      }
    }

    lemma MayGo(verb: Verb, url: Url)
      requires Traced() && (verb == Get || verb == Head) && CleanUrl(protocol, url) && url.origin in origins
      ensures NavigationLawful(browser.log, session.value, verb, url)
    {
      MayNavigate(browser.log, trail, Snap().scope, generation, history, previews, authority, verb, url);
    }

    method PreviewProblem(m: ClientMessage) returns (problem: Option<Failure>)
      ensures problem != Some(NetworkPolicy)
      ensures problem.None? ==>
                && Typed(protocol) && m.preview.Some? && m.preview.value.id in candidates
                && candidates[m.preview.value.id].generation == m.preview.value.generation
                && PreviewOk(candidates[m.preview.value.id].candidate, m.preview.value)
    {
      if !Typed(protocol) || m.preview.None? { return Some(InvalidState); }
      var request := m.preview.value;
      if request.id !in candidates || !browser.previews || candidates[request.id].generation != request.generation {
        return Some(InvalidCandidate);
      }
      var ok := ValidatePreview(candidates[request.id].candidate, request);
      problem := if ok then None else Some(InvalidCandidate);
    }

    /** A reviewed public preview: acts on a current candidate, then observes. */
    method Preview(m: ClientMessage) returns (ok: bool)
      requires Valid() && !closed && phase.Observing?
      modifies this, browser, output
      ensures Valid() && (ok ==> !closed)
      ensures ok ==> generation == old(generation) + 1 && m.preview.Some?
                     && previews == old(previews) + [PreviewRecord(m.preview.value, generation)]
      ensures ok ==> m.preview.value.id in old(candidates) && |output.sent| > 0 && Reports(output.sent[|output.sent| - 1])
      ensures ok ==> session.Some? && session == old(session) && |browser.log| > 0
                     && browser.log == old(browser.log)
                          + [Previewed(session.value, old(candidates)[m.preview.value.id].candidate, m.preview.value, true),
                             browser.log[|browser.log| - 1]]
    {
      hide Consistent, ReviewOk, Identifier, PreviewOk, AuthorityOk, CleanUrl, OriginsOk, BoundsOk,
           MatchesVerification, SummaryOkFor, OnRecord, PreviewLawful, Fresh, ReducedOk, JustReported,
           Reports, Accepted, Elements, Browser.Guards, Browser.Orderly;
      var problem := PreviewProblem(m);
      if problem.Some? { Fail(problem.value); return false; }
      var request := m.preview.value;
      ghost var before, log := Snap(), browser.log;
      var candidate := candidates[request.id].candidate;
      MayAct(request);
      ok := Perform(candidate, request);
      if !ok { FailBrowser(); return false; }
      ok := Observe();
      if !ok { return; }
      assert browser.log == log + [Previewed(session.value, candidate, request, true), browser.log[|browser.log| - 1]];
      Append(request, before, log, old(trail));
    }

    /** The preview itself: when it is answered, no candidate survives it. */
    method Perform(candidate: Candidate, request: PreviewRequest) returns (ok: bool)
      requires Valid() && !closed && phase.Observing? && PreviewLawful(browser.log, session.value, candidate, request)
      modifies this`candidates, this`review, this`remaining, browser`log, browser`stage, browser`guard
      ensures Linked() && PolicyKept()
      ensures ok ==> Valid() && Snap() == old(Snap()).(candidates := map[])
                     && browser.log == old(browser.log) + [Previewed(session.value, candidate, request, true)]
    {
      hide Consistent, ReviewOk, Identifier, OnRecord, PreviewLawful, Browser.Guards, Browser.Orderly;
      ghost var before, log := Snap(), browser.log;
      ok := ActOn(candidate, request);
      if ok {
        Moved(log, Previewed(session.value, candidate, request, true), trail, before);
        Clear();
      }
    }

    lemma MayAct(request: PreviewRequest)
      requires Traced() && Typed(protocol) && request.id in candidates && PreviewOk(candidates[request.id].candidate, request)
      ensures PreviewLawful(browser.log, session.value, candidates[request.id].candidate, request)
    {
      MayPreview(browser.log, trail, Snap().scope, generation, history, previews, authority, candidates, request);
    }

    method Append(request: PreviewRequest, ghost before: Snapshot, ghost log: seq<Event>, ghost t: Trail)
      requires Consistent(before) && Consistent(Snap()) && Typed(protocol)
      requires Advanced(before.(candidates := map[]), Snap())
      requires request.id in before.candidates && before.candidates[request.id].generation == request.generation
      requires PreviewOk(before.candidates[request.id].candidate, request)
      requires OnRecord(log, t, before) && Traced() && trail == Further(t, |log| + 1) && |browser.log| == |log| + 2
      requires browser.log == log + [Previewed(t.h, before.candidates[request.id].candidate, request, true), browser.log[|log| + 1]]
      requires browser.log[|log| + 1].Looked? && browser.log[|log| + 1].h == t.h
      modifies this`previews
      ensures Consistent(Snap()) && previews == before.previews + [PreviewRecord(request, generation)] && Traced()
    {
      hide Consistent, PreviewOk, OnRecord;
      PreviewKeeps(Snap(), before, request);
      ghost var s := Snap();
      PreviewPerformed(log, t, before, s, browser.log[|log| + 1].raw, request);
      previews := previews + [PreviewRecord(request, generation)];
      assert Snap() == s.(previews := s.previews + [PreviewRecord(request, s.generation)]);
    }

    predicate Approvable(m: ClientMessage)
      reads this
    {
      var id := if m.candidateId.Some? then m.candidateId.value else NoId;
      && protocol == V4 && authority.None? && m.verification.Some? && AuthorityOk(m.verification.value, origins)
      && id in candidates && candidates[id].candidate.matches == 1
      && MatchesVerification(candidates[id].candidate.verification, m.verification.value) && browser.verifies
    }

    /** Approval of verification traffic: once, for the widget observed on a current candidate. */
    method ApproveVerification(m: ClientMessage) returns (ok: bool)
      requires Valid() && !closed && phase.Observing?
      modifies this, browser, output
      ensures Valid() && (ok ==> !closed)
      ensures !closed ==> old(Approvable(m)) && Snap() == old(Snap()).(authority := m.verification)
      ensures !closed ==> m.verification.Some? && session == old(session)
                          && browser.log == old(browser.log) + [Granted(session.value, m.verification.value, true)]
    {
      hide Consistent, ReviewOk, Identifier, AuthorityOk, OnRecord, GrantLawful, Browser.Guards, Browser.Orderly, Approvable;
      if !Approvable(m) { Fail(InvalidReview); return false; }
      ApprovableFacts(m);
      ghost var before, log := Snap(), browser.log;
      ok := ApproveInTime(m.verification.value);
      if !ok { FailBrowser(); return false; }
      GrantedTo(log, trail, before, m.verification.value);
      Grant(m.verification.value);
      ok := output.Write(State(phase));
    }

    lemma ApprovableFacts(m: ClientMessage)
      requires Approvable(m)
      ensures protocol == V4 && m.verification.Some? && AuthorityOk(m.verification.value, origins) && authority.None?
      ensures Traced() ==> GrantLawful(browser.log, session.value, m.verification.value)
    {
      hide AuthorityOk;
      if Traced() {
        MayGrant(browser.log, trail, Snap().scope, generation, history, previews, candidates, m.candidateId.value,
                 m.verification.value);
      }
    }

    method Grant(v: HumanVerification)
      requires Linked() && PolicyKept() && Live() && phase.Observing? && !closed && protocol == V4 && AuthorityOk(v, origins)
      requires browser.Guards(protocol, bounds.maxRequests, Some(v))
      requires session == Some(trail.h) && OnRecord(browser.log, trail, Snap().(authority := Some(v)))
      modifies this`authority, this`review
      ensures Valid() && Snap() == old(Snap()).(authority := Some(v))
    {
      hide Consistent, ReviewOk, Identifier, AuthorityOk, OnRecord, Browser.Guards, Browser.Orderly;
      ApprovalKeeps(Snap(), v);
      authority, review := Some(v), None;
    }

    /** The reviewed candidates of a review message, in its order. */
    method SelectCandidates(ids: seq<Id>) returns (ok: bool, reviewed: seq<ReviewedCandidate>)
      requires Consistent(Snap())
      ensures ok <==> Distinct(ids) && forall id <- ids :: Selectable(Snap(), id)
      ensures ok ==> reviewed == Selected(Snap(), ids) && IdsOf(reviewed) == ids
                     && forall c <- reviewed :: ReviewedOk(Snap(), c)
    {
      reviewed := [];
      var seen: set<Id> := {};
      for i := 0 to |ids|
        invariant |reviewed| == i && forall j | 0 <= j < i :: reviewed[j].id == ids[j] && ReviewedOk(Snap(), reviewed[j])
        invariant Distinct(ids[..i]) && forall x :: x in seen <==> x in ids[..i]
        invariant forall j | 0 <= j < i ::
                    Selectable(Snap(), ids[j]) && reviewed[j] == ReviewedOf(Available(Snap(), ids[j]).value)
      {
        assert ids[i] in ids;
        if ids[i] in seen { return false, reviewed; }
        seen := seen + {ids[i]};
        assert ids[..i + 1] == ids[..i] + [ids[i]];
        var r := if Typed(protocol) then Find(history, ids[i])
                 else if ids[i] in candidates then Some(candidates[ids[i]]) else None;
        if r.None? || r.value.candidate.matches != 1 || !Promotable(r.value.candidate) { return false, reviewed; }
        assert r == Available(Snap(), ids[i]);
        reviewed := reviewed + [ReviewedOf(r.value)];
      }
      assert ids[..|ids|] == ids;
      ok := true;
    }

    /** A profile, flow and clean-up that fit the session at this time. */
    ghost predicate ProfileFits(m: ClientMessage, profile: Profile, flowName: string, now: Time)
      reads this`origins, this`authority
    {
      && profile.observationKind == AccessibilitySnapshot && profile.schema == SchemaFor(protocol)
      && now.nanos != 0 && CurrentAt(profile, now) && profile.origins == origins
      && (protocol != V1 ==> RetainedNavigation(profile))
      && Identifier(flowName) && flowName in profile.flows && m.cleanup.Some? && !m.cleanup.value.OtherCleanup?
      && (protocol == V4 ==> authority.Some? && authority == profile.flows[flowName].verification)
    }

    /** The checks a review makes of the profile and the call, in order, at the time it asks the clock. */
    method ProfileProblem(m: ClientMessage, profile: Profile, flowName: string)
      returns (problem: Option<Failure>, ghost at: Time)
      ensures problem != Some(NetworkPolicy)
      ensures problem.None? <==> ProfileFits(m, profile, flowName, at)
    {
      at := Time(0, true);
      if profile.observationKind != AccessibilitySnapshot || profile.schema != SchemaFor(protocol) {
        return Some(InvalidProfile), at;
      }
      if protocol == V4 && (authority.None? || flowName !in profile.flows
                            || authority != profile.flows[flowName].verification) {
        return Some(InvalidReview), at;
      }
      var now := Now();
      at := now;
      if now.nanos == 0 || !CurrentAt(profile, now) { return Some(InvalidProfile), at; }
      if profile.origins != origins { return Some(OriginMismatch), at; }
      if protocol != V1 && !RetainedNavigation(profile) { return Some(InvalidProfile), at; }
      if !Identifier(flowName) || flowName !in profile.flows { return Some(InvalidFlow), at; }
      if m.cleanup.None? || m.cleanup.value.OtherCleanup? { return Some(InvalidCleanup), at; }
      problem := None;
    }

    /** A selection that what was observed bears out. */
    ghost predicate SelectionFits(m: ClientMessage, profile: Profile, flowName: string)
      requires flowName in profile.flows
      reads this`bounds, this`origins, this`observations, this`generation, this`candidates, this`history, this`previews,
            this`observedAt, this`diagnostics, this`authority
    {
      && m.candidateIds.Some?
      && var ids := m.candidateIds.value;
      && 0 < |ids| <= bounds.maxCandidates && SortedIds(ids) && Distinct(ids)
      && (Typed(protocol) ==> TypedEvidence(protocol, profile, flowName, history, previews, StepIds(m), ids))
      && (forall id <- ids :: Selectable(Snap(), id)) && SubmitBound(profile.flows[flowName], Selected(Snap(), ids))
    }

    /** The checks a review makes of the selection against what was observed. */
    method SelectionProblem(m: ClientMessage, profile: Profile, flowName: string)
      returns (problem: Option<Failure>, reviewed: seq<ReviewedCandidate>)
      requires Consistent(Snap()) && flowName in profile.flows
      ensures problem != Some(NetworkPolicy)
      ensures problem.None? <==> SelectionFits(m, profile, flowName)
      ensures problem.None? ==> m.candidateIds == Some(IdsOf(reviewed)) && reviewed == Selected(Snap(), IdsOf(reviewed))
                                && forall c <- reviewed :: ReviewedOk(Snap(), c)
    {
      hide Consistent, TypedEvidence, SubmitBound;
      var ids := if m.candidateIds.Some? then m.candidateIds.value else [];
      reviewed := [];
      if |ids| == 0 || |ids| > bounds.maxCandidates || !SortedIds(ids) { return Some(InvalidCandidate), reviewed; }
      var ok;
      if Typed(protocol) {
        ok := ValidateTypedEvidence(protocol, Some(profile), flowName, history, previews, StepIds(m), ids);
        if !ok { return Some(InvalidCandidate), reviewed; }
      }
      ok, reviewed := SelectCandidates(ids);
      if !ok { return Some(InvalidCandidate), reviewed; }
      ok := ValidateReviewedSubmit(profile.flows[flowName], reviewed);
      problem := if ok then None else Some(InvalidSubmit);
    }

    /** The recorded review is of the message's profile, candidates, flow, clean-up and step bindings. */
    ghost predicate ReviewsWhat(m: ClientMessage)
      reads this`review
    {
      && review.Some? && m.profile.Some? && Parse(m.profile.value) == Some(review.value.profile)
      && m.candidateIds == Some(IdsOf(review.value.candidates)) && m.flow == Some(review.value.flow)
      && m.cleanup == Some(review.value.cleanup) && review.value.stepIds == StepIds(m)
    }

    /** A review the session accepts at this time. */
    ghost predicate Reviewable(m: ClientMessage, now: Time)
      reads this`bounds, this`origins, this`observations, this`generation, this`candidates, this`history, this`previews,
            this`observedAt, this`diagnostics, this`authority
    {
      && observations != 0 && candidates != map[] && m.profile.Some? && Parse(m.profile.value).Some?
      && var profile, flowName := Parse(m.profile.value).value, FlowName(m);
      && ProfileFits(m, profile, flowName, now) && SelectionFits(m, profile, flowName)
    }

    function FlowName(m: ClientMessage): string { if m.flow.Some? then m.flow.value else "" }

    lemma SelectionIff(m: ClientMessage, profile: Profile, flowName: string)
      requires flowName in profile.flows
      ensures SelectionFits(m, profile, flowName) <==>
                && m.candidateIds.Some? && R.SoundSelection(Snap(), m.candidateIds.value)
                && (protocol == V3 || protocol == V4 ==>
                      EvidenceMeaning.Supported(protocol, profile, flowName, history, previews,
                                                if m.stepIds.Some? then m.stepIds.value else [], m.candidateIds.value))
                && R.SoundSubmit(Snap(), profile.flows[flowName], m.candidateIds.value)
    {
      if m.candidateIds.Some? {
        var ids := m.candidateIds.value;
        EvidenceMeaning.EvidenceMeans(protocol, profile, flowName, history, previews, StepIds(m), ids);
        forall id ensures Selectable(Snap(), id) <==> exists c :: R.Names(Snap(), id, c) && c.matches == 1 && c.name.Reduced? {
          R.SelectableIff(Snap(), id);
        }
        if forall id <- ids :: Selectable(Snap(), id) {
          R.SubmitIff(Snap(), profile.flows[flowName], ids);
        }
      }
      hide TypedEvidence, EvidenceMeaning.Supported, SubmitBound, R.SoundSubmit, Selectable, R.Names, Selected;
    }

    lemma ProfileIff(m: ClientMessage, profile: Profile, now: Time)
      ensures ProfileFits(m, profile, FlowName(m), now) <==> R.SoundProfile(Snap(), profile, now) && R.SoundCall(Snap(), m, profile)
    {
    }

    /** Which reviews fit, in terms of the message and of what was observed. */
    lemma ReviewableIff(m: ClientMessage, now: Time)
      ensures Reviewable(m, now) <==> R.SoundReview(Snap(), m, now)
    {
      hide ProfileFits, SelectionFits, R.SoundSelection, R.SoundSubmit, EvidenceMeaning.Supported;
      if m.profile.Some? && Parse(m.profile.value).Some? {
        var profile := Parse(m.profile.value).value;
        ProfileIff(m, profile, now);
        if FlowName(m) in profile.flows { SelectionIff(m, profile, FlowName(m)); }
        if ProfileFits(m, profile, FlowName(m), now) { FlowKnown(m, profile, FlowName(m), now); }
      }
    }

    /** Review: accepted exactly when it fits; nothing but the reviewed profile and the phase changes. */
    method ReviewProfile(m: ClientMessage) returns (ok: bool, ghost now: Time)
      requires Valid() && !closed && phase.Observing?
      requires m.stepIds.Some? ==> Typed(protocol)
      modifies this, browser, output
      ensures Valid() && (ok ==> !closed)
      ensures !closed <==> old(Reviewable(m, now))
      ensures !closed <==> R.SoundReview(old(Snap()), m, now)
      ensures !closed ==> Snap() == old(Snap()) && phase.Reviewed? && ReviewsWhat(m)
    {
      hide Consistent, TypedEvidence, SubmitBound, Identifier, RetainedNavigation, ReviewedOk, SortedIds, Distinct,
           Selectable, CurrentAt, ProfileFits, SelectionFits, Selected, OnRecord, R.SoundReview, Browser.Guards,
           Browser.Orderly;
      ghost var s := Snap();
      forall t ensures Reviewable(m, t) <==> R.SoundReview(s, m, t) { ReviewableIff(m, t); }
      now := Time(0, true);
      if observations == 0 || candidates == map[] || m.profile.None? { Fail(InvalidReview); return false, now; }
      ConsistentFacts(Snap());
      var parsed := Parse(m.profile.value);
      if parsed.None? { Fail(InvalidProfile); return false, now; }
      var profile, flowName := parsed.value, FlowName(m);
      var problem;
      problem, now := ProfileProblem(m, profile, flowName);
      if problem.Some? { Fail(problem.value); return false, now; }
      FlowKnown(m, profile, flowName, now);
      var reviewed;
      problem, reviewed := SelectionProblem(m, profile, flowName);
      if problem.Some? { Fail(problem.value); return false, now; }
      Keep(m, profile, flowName, reviewed, now);
      ok := output.Write(State(phase));
    }

    method Keep(m: ClientMessage, profile: Profile, flowName: string, reviewed: seq<ReviewedCandidate>, ghost now: Time)
      requires Valid() && !closed && phase.Observing? && observations > 0 && (m.stepIds.Some? ==> Typed(protocol))
      requires ProfileFits(m, profile, flowName, now) && flowName in profile.flows && SelectionFits(m, profile, flowName)
      requires m.profile.Some? && Parse(m.profile.value) == Some(profile) && m.flow == Some(flowName) && m.cleanup.Some?
      requires m.candidateIds == Some(IdsOf(reviewed)) && reviewed == Selected(Snap(), IdsOf(reviewed))
      requires forall c <- reviewed :: ReviewedOk(Snap(), c)
      modifies this`review, this`phase
      ensures Valid() && phase.Reviewed? && ReviewsWhat(m)
    {
      hide Consistent, ReviewOk, TypedEvidence, SubmitBound, Identifier, RetainedNavigation, ReviewedOk, SortedIds, Distinct,
           Selectable, CurrentAt, ProfileFits, SelectionFits, Selected, OnRecord, Browser.Guards, Browser.Orderly;
      review := Some(Review(profile, Canonical(profile), reviewed, flowName, m.cleanup.value, StepIds(m)));
      phase := Reviewed;
      FittingReview(m, profile, flowName, now);
    }

    lemma FlowKnown(m: ClientMessage, profile: Profile, flowName: string, now: Time)
      requires ProfileFits(m, profile, flowName, now) && flowName == FlowName(m)
      ensures flowName in profile.flows && m.cleanup.Some? && m.flow == Some(flowName)
    {
    }

    lemma FittingReview(m: ClientMessage, profile: Profile, flowName: string, now: Time)
      requires review.Some? && ProfileFits(m, profile, flowName, now) && SelectionFits(m, profile, flowName)
      requires observations > 0 && (m.stepIds.Some? ==> Typed(protocol))
      requires m.candidateIds == Some(IdsOf(review.value.candidates))
      requires review.value.candidates == Selected(Snap(), IdsOf(review.value.candidates))
      requires forall c <- review.value.candidates :: ReviewedOk(Snap(), c)
      requires review.value
            == Review(profile, Canonical(profile), review.value.candidates, flowName, m.cleanup.value, StepIds(m))
      ensures ReviewOk(Snap(), review.value)
    {
      hide TypedEvidence, SubmitBound, Identifier, RetainedNavigation, ReviewedOk, SortedIds, Distinct, Selectable;
    }

    /** The completion, only after a clean close whose accounting is within bounds. */
    method Finish() returns (completion: Option<Completion>)
      requires Valid() && !closed && phase.Reviewed?
      modifies this, browser, output
      ensures Valid() && closed
      ensures completion.Some? ==>
                Handoff(completion.value) && CleanlyClosed(browser.log, completion.value.network)
      ensures |browser.log| > 0 && browser.log[|browser.log| - 1].Closed? && |output.sent| > 0
      ensures browser.guarded && browser.log[|browser.log| - 1].clean ==> output.sent[|output.sent| - 1] == State(Finished)
      ensures completion.Some? ==>
                && old(review).Some?
                && completion.value == Complete(old(Snap()), old(profileId), old(review).value, completion.value.network)
                && Evidenced(completion.value, browser.log)
    {
      hide Consistent, ReviewOk, Identifier, SummaryOkFor, OnRecord, Evidenced, Handoff,
           Browser.Guards, Browser.Orderly;
      var summary, ok := CloseSession();
      if !ok { FailAfterClose(TeardownFailure); return None; }
      if !SummaryOkFor(summary, bounds.maxRequests, protocol, authority) {
        FailAfterClose(NetworkPolicy);
        return None;
      }
      ghost var s := Snap();
      closed, phase := true, Finished;
      ok := output.Write(State(phase));
      if !ok { return None; }
      var r := review.value;
      completion := Some(Completion(protocol, authority, profileId, r.profile, r.source, r.candidates, r.flow, r.cleanup,
                                    origins, observedAt, bounds, observations, diagnostics, summary,
                                    history, previews, r.stepIds));
      Leaves(old(browser.log), browser.log[|browser.log| - 1], s, r, summary);
    }

    lemma Leaves(log: seq<Event>, e: Event, s: Snapshot, r: Review, summary: NetworkSummary)
      requires OnRecord(log, trail, s) && Consistent(s) && ReviewOk(s, r) && e.Closed? && Identifier(profileId)
      requires SummaryOkFor(summary, s.scope.bounds.maxRequests, s.scope.protocol, s.authority)
      ensures Evidenced(Complete(s, profileId, r, summary), log + [e]) && Handoff(Complete(s, profileId, r, summary))
    {
      hide Recorded, Current, Evidenced, Consistent, ReviewOk, SummaryOkFor, Identifier;
      assert HandoffOf(Complete(s, profileId, r, summary), s, profileId, r, summary);
      ClosingEvidenced(log, e, trail, s, profileId, r, summary);
    }

    method CloseWithoutResult() returns (ok: bool)
      requires Valid() && !closed
      modifies this, browser, output
      ensures Valid() && closed && ClosedSince(old(session), old(browser.log))
      ensures ok ==> output.sent == old(output.sent) + [State(Finished)]
                     && (old(session).Some? ==> browser.log[|browser.log| - 1].clean)
    {
      hide Consistent, ReviewOk, Identifier, PreviewOk, AuthorityOk, CleanUrl, OriginsOk, BoundsOk,
           MatchesVerification, SummaryOkFor, OnRecord,
           Browser.Guards, Browser.Orderly;
      if session.None? { NoTrafficOk(bounds.maxRequests, protocol); }
      var summary, clean := CloseSession();
      closed, phase := true, Finished;
      if !clean { FailAfterClose(TeardownFailure); return false; }
      if !SummaryOkFor(summary, bounds.maxRequests, protocol, authority) && profileId != "" {
        FailAfterClose(NetworkPolicy);
        return false;
      }
      ok := output.Write(State(phase));
    }

    predicate Admits(m: ClientMessage)
      reads this`phase
    {
      && m.protocol == Some(protocol)
      && match phase
         case AwaitingStart => m.kind == StartMessage || m.kind == CloseMessage
         case Observing =>
           || m.kind == ObserveMessage || m.kind == NavigateMessage || m.kind == ReviewMessage || m.kind == CloseMessage
           || (Typed(protocol) && m.kind == PreviewMessage) || (protocol == V4 && m.kind == ApproveMessage)
         case Reviewed => m.kind == FinishMessage || m.kind == CloseMessage
         case Finished => false
    }

    /**
     Dispatch by message type and phase. A message the phase does not admit closes the session; an admitted one
     that leaves it open has exactly the effect of its type.
     */
    method Handle(m: ClientMessage) returns (completion: Option<Completion>, done: bool, ok: bool)
      requires Valid() && !closed
      requires m.stepIds.Some? ==> m.protocol.Some? && Typed(m.protocol.value)
      modifies this, browser, output
      ensures Valid() && (ok && !done ==> !closed) && (ok && done ==> closed)
      ensures !old(Admits(m)) ==> closed && !ok
      ensures ok && !done && m.kind == StartMessage ==> phase.Observing? && Started(m)
      ensures ok && !done && m.kind == ObserveMessage ==>
                Advanced(old(Snap()), Snap()) && |output.sent| > 0 && Reports(output.sent[|output.sent| - 1])
      ensures ok && !done && m.kind == NavigateMessage ==> Snap() == old(Snap()).(candidates := map[])
      ensures ok && !done && m.kind == PreviewMessage ==>
                generation == old(generation) + 1 && m.preview.Some?
                && previews == old(previews) + [PreviewRecord(m.preview.value, generation)]
      ensures ok && !done && m.kind == ReviewMessage ==> Snap() == old(Snap()) && phase.Reviewed? && ReviewsWhat(m)
      ensures ok && !done && m.kind == ReviewMessage ==> exists now :: R.SoundReview(old(Snap()), m, now)
      ensures ok && !done && m.kind == ApproveMessage ==>
                old(Approvable(m)) && Snap() == old(Snap()).(authority := m.verification)
      ensures ok ==> (done <==> m.kind == FinishMessage || m.kind == CloseMessage)
      ensures ok && !done && m.kind == NavigateMessage ==>
                m.verb.Some? && m.url.Some? && session.Some?
                && browser.log == old(browser.log) + [Navigated(session.value, m.verb.value, m.url.value, true)]
      ensures ok && !done && m.kind == PreviewMessage ==>
                session.Some? && m.preview.value.id in old(candidates) && |browser.log| > 0
                && browser.log == old(browser.log)
                     + [Previewed(session.value, old(candidates)[m.preview.value.id].candidate, m.preview.value, true),
                        browser.log[|browser.log| - 1]]
      ensures completion.Some? ==>
                && closed && Handoff(completion.value) && CleanlyClosed(browser.log, completion.value.network)
                && Evidenced(completion.value, browser.log) && m.kind == FinishMessage && old(review).Some?
                && completion.value == Complete(old(Snap()), old(profileId), old(review).value, completion.value.network)
    {
      hide Consistent, ReviewOk, Identifier, PreviewOk, AuthorityOk, CleanUrl, OriginsOk, BoundsOk,
           MatchesVerification, SummaryOkFor, OnRecord, Evidenced, Handoff, Complete, Started, Reports, Approvable,
           ReviewsWhat, R.SoundReview, Advanced, Live, Fresh, Agrees, Traced, PolicyKept, Linked;
      completion, done, ok := None, true, false;
      if m.protocol != Some(protocol) { Fail(ProtocolMismatch); return; }
      var preview := Typed(protocol) && m.kind == PreviewMessage;
      var verification := protocol == V4 && m.kind == ApproveMessage;
      if m.kind.OtherMessage? || (m.kind == PreviewMessage && !preview) || (m.kind == ApproveMessage && !verification) {
        Fail(UnknownMessage);
        return;
      }
      var admitted :=
        match phase
        case AwaitingStart => m.kind == StartMessage || m.kind == CloseMessage
        case Observing => preview || verification || m.kind == ObserveMessage || m.kind == NavigateMessage
                          || m.kind == ReviewMessage || m.kind == CloseMessage
        case Reviewed => m.kind == FinishMessage || m.kind == CloseMessage
        case Finished => false;
      if !admitted { Fail(InvalidState); return; }
      match m.kind {
        case ApproveMessage => ok := ApproveVerification(m); done := false;
        case StartMessage => ok := Start(m); done := false;
        case ObserveMessage => ok := Observe(); done := false;
        case NavigateMessage => ok := Navigate(m); done := false;
        case PreviewMessage => ok := Preview(m); done := false;
        case ReviewMessage =>
          ghost var now;
          ok, now := ReviewProfile(m);
          done := false;
        case FinishMessage => completion := Finish(); ok := completion.Some?;
        case CloseMessage => ok := CloseWithoutResult();
        case OtherMessage(_) => assert false;
      }
    }
  }

  lemma NoTrafficOk(maximum: int, protocol: Protocol)
    requires maximum >= 0
    ensures SummaryOkFor(NO_TRAFFIC, maximum, protocol, None)
  {
  }

  /**
   One authoring run over any input. Whatever the client, the browser, the clock and the output do:
   every session opened is closed exactly once with nothing called after it, and a completion exists
   only after a clean close and satisfies everything the result builder relies on.
   */
  method Serve(browser: Browser, output: Output, protocol: Protocol, input: seq<Option<ClientMessage>>)
    returns (completion: Option<Completion>)
    requires browser.Orderly() && browser.stage == Idle && output.sent == []
    modifies browser, output
    ensures browser.Orderly() && browser.stage == Idle
    ensures browser.guarded ==> Diagnostic(NetworkPolicy) !in output.sent
    ensures forall k | 0 <= k < |browser.log| :: browser.log[k].Refused? || Spanned(browser.log, k)
    ensures completion.Some? ==> Handoff(completion.value) && CleanlyClosed(browser.log, completion.value.network)
    ensures completion.Some? ==> Evidenced(completion.value, browser.log)
    ensures Lawful(browser.log)
  {
    completion := ServeUntilClosed(browser, output, protocol, input);
    IdleMeansSessions(browser.log);
  }

  /** The last thing the browser did was to close its session cleanly and report this traffic. */
  ghost predicate CleanlyClosed(log: seq<Event>, summary: NetworkSummary) {
    |log| > 0 && log[|log| - 1].Closed? && log[|log| - 1].clean && log[|log| - 1].summary == summary
  }

  method ServeUntilClosed(browser: Browser, output: Output, protocol: Protocol, input: seq<Option<ClientMessage>>)
    returns (completion: Option<Completion>)
    requires browser.Orderly() && browser.stage == Idle && output.sent == []
    modifies browser, output
    ensures browser.Orderly() && browser.stage == Idle
    ensures browser.guarded ==> Diagnostic(NetworkPolicy) !in output.sent
    ensures completion.Some? ==> Handoff(completion.value) && CleanlyClosed(browser.log, completion.value.network)
    ensures completion.Some? ==> Evidenced(completion.value, browser.log)
  {
    hide Consistent, ReviewOk, Identifier, OnRecord, Evidenced, Handoff, Browser.Guards, Browser.Orderly, Spanned, CleanlyClosed,
         OpenLawful, Server.Started, Server.Reports, Server.Live, Server.Fresh;
    completion := None;
    var s := new Server(browser, output, protocol);
    var ok := output.Write(Hello(protocol));
    if !ok { return; }
    for i := 0 to |input|
      invariant fresh(s) && s.browser == browser && s.output == output
      invariant s.Valid() && !s.closed && completion.None?
    {
      var interrupted := s.Cancelled();
      if interrupted { break; }
      var message := Decode(input[i]);
      if message.None? { s.Fail(MalformedMessage); return; }
      WhitelistSeparatesVersions(input[i], message.value);
      var done;
      completion, done, ok := s.Handle(message.value);
      if !ok {
        if !s.closed {
          var summary, clean := s.CloseSession();
          s.closed := true;
        }
        return;
      }
      if done { return; }
    }
    var cancelled := s.Cancelled();
    var truncated: bool := *;
    s.Fail(if cancelled then Canceled else if truncated then ProtocolLimit else UnexpectedEof);
  }
}
