/**
 What a session knows of a page, asks of its client and does in the browser, traced back to the browser's own
 reports. Every statement is about the events of the log: what was reported, what was asked, what was sent.
 */
module AuthorReports {
  import opened Wrappers
  import opened PageText
  import opened Contexts
  import opened AuthorModel
  import opened AuthorLog
  import opened AuthorInvariant
  import opened AuthorTheorems

  /** Message k discloses what the browser had reported, in time, right before. */
  predicate ReportAt(log: seq<Event>, k: nat) {
    && 0 < k < |log| && log[k].Sent? && log[k].reply.Observed?
    && log[k - 1].Looked? && log[k - 1].raw.Some? && log[k - 1].call.elapsed < log[k - 1].call.budget
  }

  /** The newest observation disclosed. */
  predicate Newest(log: seq<Event>, k: nat) {
    ReportAt(log, k) && forall j | k < j < |log| :: !(log[j].Sent? && log[j].reply.Observed?)
  }

  /** The observation lists exactly the reported candidates, each under its own position. */
  predicate Lists(o: Observation, raw: RawObservation, context: ContextId, generation: int) {
    && o.origin == raw.origin && o.path == raw.path && o.context == context && |o.candidates| == |raw.candidates|
    && forall n | 0 <= n < |raw.candidates| ::
         var c := raw.candidates[n];
         o.candidates[n] == Candidate(CandidateId(generation, context, c.role, c.name, n), c.role, c.name, c.matches)
  }

  /** The record is the reported candidate at the position its identifier gives, with the browser's private facts. */
  ghost predicate RecordIs(r: Record, id: Id, o: Observation, raw: RawObservation, context: ContextId) {
    && id.CandidateId? && id.ordinal < |raw.candidates| && id.ordinal < |o.candidates|
    && r.candidate == o.candidates[id.ordinal] && r.candidate.id == id && r.context == context
    && var c := raw.candidates[id.ordinal];
    && r.candidate.role == c.role && r.candidate.name == c.name && r.candidate.matches == c.matches
    && r.input == c.input && r.target == c.target && forall x :: x in r.challenges <==> x in c.challenges
  }

  /** How many observations the client's requests have led to. */
  function Looks(log: seq<Event>): nat {
    if log == [] then 0
    else
      Looks(log[..|log| - 1])
      + if |log| > 1 && log[|log| - 1].Looked? && log[|log| - 2].Received? && log[|log| - 2].message.Observe? then 1 else 0
  }

  lemma CountFrom(s: Stage, e: Event)
    requires s.Stage? && Right(s) && Next(s, e).Stage?
    ensures e.Looked? ==> s.now.Some? && s.answer == NoAnswer
                          && Next(s, e).f.observations == s.f.observations + if s.now.value.Observe? then 1 else 0
    ensures e.Opened? ==> s.f.observations == 0 && Next(s, e).f.observations == 0
    ensures !e.Looked? && !e.Opened? ==> Next(s, e).f.observations == s.f.observations
  {
    hide Coherent, Complete, AnswerOk, Adopts, Reviewed, Executable, Demand, Alone, StartOk;
  }

  lemma NowFrom(s: Stage, e: Event)
    requires s.Stage? && Right(s) && Next(s, e).Stage? && Next(s, e).now.Some? && Next(s, e).now.value.Observe?
    requires Next(s, e).answer == NoAnswer && Working(Next(s, e).mode)
    ensures e == Received(Next(s, e).now.value)
  {
    hide Coherent, Complete, AnswerOk, Adopts, Reviewed, Executable, Demand;
  }

  lemma NotObserve(s: Stage, e: Event)
    requires s.Stage? && Next(s, e).Stage? && e.Received?
    ensures Next(s, e).now == Some(e.message)
  {
  }

  /** The observation count is that of the log. */
  lemma {:induction false} CountIsLooks(log: seq<Event>)
    requires Track(log) != Wrong
    ensures Track(log).f.observations == Looks(log)
    decreases |log|
  {
    hide Next, Right;
    if log != [] {
      LastStep(log);
      CountIsLooks(Front(log));
      var s := Track(Front(log));
      CountFrom(s, Last(log));
      if Last(log).Looked? {
        LooksAfter(log);
      }
    }
  }

  lemma LooksAfter(log: seq<Event>)
    requires Track(log) != Wrong && log != [] && Last(log).Looked?
    requires Track(Front(log)).Stage? && Track(Front(log)).now.Some? && Track(Front(log)).answer == NoAnswer
    requires Right(Track(Front(log))) && Next(Track(Front(log)), Last(log)) != Wrong
    ensures |log| > 1
            && (Track(Front(log)).now.value.Observe? <==> log[|log| - 2].Received? && log[|log| - 2].message.Observe?)
  {
    hide Next, Right;
    assert Front(log) != [];
    LastStep(Front(log));
    var t, d := Track(Front(Front(log))), Last(Front(log));
    LookNeeds(Track(Front(log)), Last(log));
    if Track(Front(log)).now.value.Observe? { NowFrom(t, d); }
    if d.Received? { NotObserve(t, d); }
  }

  lemma LookNeeds(s: Stage, e: Event)
    requires Next(s, e) != Wrong && e.Looked?
    ensures s.Stage? && Working(s.mode) && s.now.Some? && s.answer == NoAnswer
  {
  }

  lemma ObservationLists(raw: RawObservation, generation: int, context: ContextId)
    ensures Lists(ObservationOf(raw, generation, context), raw, context, generation)
  {
  }

  /**
   An observation sent lists exactly what the browser reported in time for the context asked for, candidate by
   candidate, under identifiers of its own generation.
   */
  lemma ObservationsList(log: seq<Event>, k: nat)
    requires Track(log) != Wrong && k < |log| && log[k].Sent? && log[k].reply.Observed?
    ensures ReportAt(log, k)
    ensures Lists(log[k].reply.observation, log[k - 1].raw.value, log[k - 1].context, Looks(log[..k]))
  {
    hide Next, Right, Track;
    ObservationsAreReports(log, k);
    PrefixRight(log, k);
    CountIsLooks(log[..k]);
    ObservationLists(log[k - 1].raw.value, Looks(log[..k]), log[k - 1].context);
  }

  lemma CandidatesFrom(s: Stage, e: Event)
    requires s.Stage? && Right(s) && Next(s, e).Stage?
    ensures if e.Sent? && e.reply.Observed?
            then Handling(s) && Working(s.mode) && s.now.value.Observe? && s.answer.LookAnswer? && s.answer.raw.Some?
                 && Next(s, e).f.candidates
                    == RecordsOf(s.answer.raw.value.candidates, s.f.observations, Target(s.now.value.context))
            else Next(s, e).f.candidates == s.f.candidates || Next(s, e).f.candidates == map[]
  {
    if e.Sent? && e.reply.Observed? {
      hide Right, Outcome, RecordsOf;
      ObservedCandidates(s, e.reply.observation, e.ok);
    } else if e.Sent? {
      hide Right, RecordsOf;
      OtherCandidates(s, e.reply, e.ok);
    } else {
      hide OnSent, Right, Executable, Demand, StartOk;
    }
  }

  lemma OtherCandidates(s: Stage, m: ServerMessage, ok: bool)
    requires s.Stage? && OnSent(s, m, ok).Stage? && !m.Observed?
    ensures OnSent(s, m, ok).f.candidates == s.f.candidates
  {
    hide Adopts, Reviewed, Executable, Demand, Addable, KindFits, Succeeds, Completes, CompletesInput, Prompts, Asks;
  }

  lemma ObservedCandidates(s: Stage, o: Observation, ok: bool)
    requires s.Stage? && OnSent(s, Observed(o), ok).Stage?
    ensures Handling(s) && Working(s.mode) && s.now.value.Observe? && s.answer.LookAnswer? && s.answer.raw.Some?
    ensures OnSent(s, Observed(o), ok).f.candidates
            == RecordsOf(s.answer.raw.value.candidates, s.f.observations, Target(s.now.value.context))
  {
    hide Adopts, RecordsOf, SuccessOn, MatchGoal;
    if Adopts(s, o) { AdoptsMeans(s, o); }
  }

  /** The records of a report are its candidates, each at its own position. */
  lemma RecordsFit(raw: RawObservation, generation: int, context: ContextId)
    ensures var o, records := ObservationOf(raw, generation, context), RecordsOf(raw.candidates, generation, context);
            && (forall id <- records :: RecordIs(records[id], id, o, raw, context))
            && forall n | 0 <= n < |o.candidates| :: o.candidates[n].id in records && o.candidates[n].id.ordinal == n
  {
    RecordsAre(raw.candidates, generation, context);
    hide RecordsOf;
    forall id | id in RecordsOf(raw.candidates, generation, context)
      ensures RecordIs(RecordsOf(raw.candidates, generation, context)[id], id, ObservationOf(raw, generation, context), raw, context)
    {
      var c := raw.candidates[id.ordinal];
      assert forall x :: x in Elements(c.challenges) <==> x in c.challenges;
    }
  }

  /**
   What a session holds of a page is what the browser reported of it: every record is the candidate at its
   position of the newest report, with the input, the challenge kinds and the target that were reported there,
   and every reported position has its record.
   */
  lemma {:induction false} RecordsAreReported(log: seq<Event>) returns (k: nat)
    requires Track(log).Stage? && Track(log).f.candidates != map[]
    ensures Newest(log, k)
    ensures var o, raw, context, records := log[k].reply.observation, log[k - 1].raw.value, log[k - 1].context,
                Track(log).f.candidates;
            && (forall id <- records :: RecordIs(records[id], id, o, raw, context))
            && forall n | 0 <= n < |o.candidates| :: o.candidates[n].id in records && o.candidates[n].id.ordinal == n
    decreases |log|
  {
    hide Next, Right, RecordIs, RecordsOf, ObservationOf;
    assert log != [];
    LastStep(log);
    var s, e := Track(Front(log)), Last(log);
    CandidatesFrom(s, e);
    if e.Sent? && e.reply.Observed? {
      k := |log| - 1;
      ObservationsAreReports(log, k);
      assert log[..k] == Front(log);
      LastStep(Front(log));
      AnswerFrom(Track(Front(Front(log))), Last(Front(log)));
      LookedFor(Track(Front(Front(log))), Last(Front(log)));
      RecordsFit(log[k - 1].raw.value, s.f.observations, log[k - 1].context);
    } else {
      k := RecordsAreReported(Front(log));
    }
  }

  // What is asked, and what is done.

  function Approved(log: seq<Event>): set<Origin> { StartIn(log) + AdmittedIn(log) }

  lemma AskNeeds(s: Stage, m: ServerMessage, ok: bool)
    requires s.Stage? && OnSent(s, m, ok) != Wrong && m.ApprovalRequired?
    ensures Working(s.mode) && AskedFor(s).Some?
    ensures var r := AskedFor(s).value;
            && m.action == r.action && m.candidate == r.candidate && m.postBudget == r.postBudget
            && s.f.counter < m.id <= 9999
            && (r.action == NavigateGet || r.action == Click)
            && (r.action == NavigateGet ==>
                  r.candidate == NoId && r.postBudget == 0 && r.url.Some? && r.url.value.Url? && r.url.value.origin.exact
                  && m.kind == OriginApproval && m.origin == Some(r.url.value.origin) && r.url.value.origin !in s.f.origins)
            && (r.action == Click ==>
                  && r.url.None? && 0 <= r.postBudget <= 32 && r.candidate in s.f.candidates
                  && var target := s.f.candidates[r.candidate];
                  && target.candidate.matches == 1 && (r.context.Some? ==> r.context.value == target.context)
                  && (if target.target.Some? && target.target.value !in s.f.origins
                      then m.kind == OriginActionApproval && m.origin == target.target && target.target.value.exact
                      else m.kind == ActionApproval && m.origin == None))
  {
    hide Adopts;
  }

  lemma AskedLast(s: Stage, last: Option<Request>)
    requires Traced(s, last) && s.Stage? && Working(s.mode) && AskedFor(s).Some?
    ensures last == AskedFor(s)
  {
  }

  /** Candidate n of a report, as a click needs it: matched once, and leading nowhere or to this origin. */
  predicate Clickable(r: Request, o: Observation, raw: RawObservation, context: ContextId) {
    && r.action == Click && r.url.None? && 0 <= r.postBudget <= 32 && (r.context.Some? ==> r.context.value == context)
    && r.candidate.CandidateId? && r.candidate.ordinal < |raw.candidates| && r.candidate.ordinal < |o.candidates|
    && o.candidates[r.candidate.ordinal].id == r.candidate && raw.candidates[r.candidate.ordinal].matches == 1
  }

  /**
   What an approval is asked for. It is the client's last request, under a number never used before. A navigation
   is asked for when it leaves the approved origins, and shows where it goes. A click is asked for on a
   candidate of the newest report, matched once there: when the browser reported a target outside the approved
   origins, the approval shows that origin; otherwise it is one for the click itself.
   */
  lemma ApprovalsAsk(log: seq<Event>, k: nat) returns (r: Request, j: nat)
    requires Track(log) != Wrong && k < |log| && log[k].Sent? && log[k].reply.ApprovalRequired?
    ensures var m := log[k].reply;
            && LastExecute(log[..k]) == Some(r) && m.action == r.action && m.candidate == r.candidate
            && m.postBudget == r.postBudget && 0 < m.id <= 9999 && (r.action == NavigateGet || r.action == Click)
            && (r.action == NavigateGet ==>
                  r.candidate == NoId && r.postBudget == 0 && r.url.Some? && r.url.value.Url? && r.url.value.origin.exact
                  && m.kind == OriginApproval && m.origin == Some(r.url.value.origin)
                  && r.url.value.origin !in Approved(log[..k]))
            && (r.action == Click ==>
                  && Newest(log[..k], j) && Clickable(r, log[j].reply.observation, log[j - 1].raw.value, log[j - 1].context)
                  && var target := log[j - 1].raw.value.candidates[r.candidate.ordinal].target;
                     if target.Some? && target.value !in Approved(log[..k])
                     then m.kind == OriginActionApproval && m.origin == target && target.value.exact
                     else m.kind == ActionApproval && m.origin == None)
    ensures forall i | 0 <= i < k && log[i].Sent? && log[i].reply.ApprovalRequired? :: log[i].reply.id < log[k].reply.id
  {
    hide Next, Right, Traced, RecordIs, Executable, Demand, AskedFor;
    StageAt(log, k);
    var s := Track(log[..k]);
    AlwaysRight(log[..k]);
    SentNext(s, log[k]);
    AskNeeds(s, log[k].reply, log[k].ok);
    AskedByClient(log[..k]);
    AskedLast(s, LastExecute(log[..k]));
    OriginsAreApproved(log[..k]);
    r, j := AskedFor(s).value, 0;
    if r.action == Click {
      j := RecordsAreReported(log[..k]);
      Recognised(s.f.candidates[r.candidate], r.candidate, log[j].reply.observation, log[j - 1].raw.value, log[j - 1].context);
    }
    forall i | 0 <= i < k && log[i].Sent? && log[i].reply.ApprovalRequired? ensures log[i].reply.id < log[k].reply.id {
      IdsDiffer(log, i, k);
    }
  }

  lemma SentNext(s: Stage, e: Event)
    requires Next(s, e) != Wrong && e.Sent?
    ensures s.Stage? && OnSent(s, e.reply, e.ok) != Wrong
  {
    if s.Wrong? { WrongStays(e); }
    hide Outcome;
  }

  lemma Recognised(r: Record, id: Id, o: Observation, raw: RawObservation, context: ContextId)
    requires RecordIs(r, id, o, raw, context)
    ensures id.CandidateId? && id.ordinal < |raw.candidates| && id.ordinal < |o.candidates|
    ensures o.candidates[id.ordinal].id == id && r.context == context
    ensures raw.candidates[id.ordinal].matches == r.candidate.matches && raw.candidates[id.ordinal].target == r.target
  {
  }

  /**
   Every click acts on a candidate of the newest report, on the very record that was reported at its position,
   and if the browser reported that it leads to an origin, that origin is one of those the session started with
   or one that was admitted, after the client had been shown it, before the click.
   */
  lemma ClicksActOnReports(log: seq<Event>, k: nat) returns (j: nat)
    requires Track(log) != Wrong && k < |log| && log[k].Ran? && log[k].request.action == Click
    ensures Newest(log[..k], j)
    ensures var r, o, raw, context := log[k].request, log[j].reply.observation, log[j - 1].raw.value, log[j - 1].context;
            && Clickable(r, o, raw, context)
            && log[k].target.Some? && RecordIs(log[k].target.value, r.candidate, o, raw, context)
            && (raw.candidates[r.candidate.ordinal].target.Some? ==>
                  raw.candidates[r.candidate.ordinal].target.value in Approved(log[..k]))
  {
    hide Next, Right, RecordIs;
    ClicksAreApproved(log, k);
    var s := Track(log[..k]);
    j := RecordsAreReported(log[..k]);
    var r := log[k].request;
    RunsStayInside(log, k);
    Recognised(log[k].target.value, r.candidate, log[j].reply.observation, log[j - 1].raw.value, log[j - 1].context);
    var asked, i := ApprovalsAsk(log, k - 2);
    LastExecuteKept(log, k);
    SameNewest(log, k - 2, k, i, j);
  }

  lemma LastExecuteKept(log: seq<Event>, k: nat)
    requires 1 < k <= |log| && log[k - 1].Received? && log[k - 1].message.Approve? && log[k - 2].Sent?
    ensures LastExecute(log[..k]) == LastExecute(log[..k - 2])
  {
    assert Front(log[..k]) == log[..k - 1] && Front(log[..k - 1]) == log[..k - 2];
  }

  lemma SameNewest(log: seq<Event>, m: nat, k: nat, i: nat, j: nat)
    requires m < k <= |log| && Newest(log[..m], i) && Newest(log[..k], j)
    requires forall x | m <= x < k :: !(log[x].Sent? && log[x].reply.Observed?)
    ensures i == j
  {
  }

  // The session that was started.

  /** The start message of the session that was kept. */
  function StartOf(log: seq<Event>): Option<ClientMessage> {
    if |log| < 2 then None
    else
      var e, m := log[|log| - 1], log[|log| - 2];
      if e.Opened? && e.ok && e.call.elapsed < e.call.budget && m.Received? then Some(m.message) else StartOf(log[..|log| - 1])
  }

  /** A start message that names a goal, a first page and a dashboard inside its approved origins, within the limits. */
  predicate SoundStart(m: ClientMessage) {
    && m.Start? && m.titled
    && 0 < |m.origins| <= 32 && (forall o <- m.origins :: o.exact)
    && m.goal.origin in m.origins && m.goal.path.disclosable && !m.goal.role.OtherRole?
    && m.url.Url? && m.url.origin in m.origins && m.dashboard.Url? && m.dashboard.origin in m.origins
    && (m.bounds.Some? ==>
          && 0 < m.bounds.value.navigationTimeoutMS <= 60000
          && m.bounds.value.navigationTimeoutMS <= m.bounds.value.totalTimeoutMS <= 1800000
          && 0 < m.bounds.value.maxRequests <= 4096 && 0 < m.bounds.value.maxResponseBytes <= 134217728
          && 0 < m.bounds.value.maxObservations <= 256 && 0 < m.bounds.value.maxCandidates <= 512
          && 0 < m.bounds.value.maxOutputs <= 32)
  }

  function BoundsIn(m: ClientMessage): Bounds
    requires m.Start?
  {
    if m.bounds.Some? then m.bounds.value else Bounds(20000, 600000, 512, 33554432, 64, 128, 16)
  }

  /** What the session is for is what its start message said. */
  ghost predicate StartedBy(f: Facts, m: Option<ClientMessage>) {
    && m.Some? && SoundStart(m.value)
    && f.scope == Scope(m.value.titled, m.value.url, m.value.dashboard, m.value.goal, BoundsIn(m.value))
  }

  lemma OpenNeeds(s: Stage, e: Event)
    requires s.Stage? && Next(s, e).Stage? && e.Opened?
    ensures s.now.Some? && s.mode == Waiting && s.answer == NoAnswer && SoundStart(s.now.value)
    ensures e.url == s.now.value.url && e.origins == Elements(s.now.value.origins)
    ensures e.ok && InTime(e.call) ==> StartedBy(Next(s, e).f, s.now)
  {
  }

  lemma WaitingFrom(s: Stage, e: Event)
    requires s.Stage? && Right(s) && Next(s, e).Stage? && Next(s, e).mode == Waiting && Next(s, e).now.Some?
    ensures e == Received(Next(s, e).now.value) || (s.mode == Silent && s.now.Some?)
  {
    hide Coherent, Complete, AnswerOk, Adopts, Reviewed, Executable, Demand, StartOk;
  }

  lemma NeverSilent(s: Stage, e: Event)
    requires s.Stage? && Right(s) && Next(s, e).Stage?
    ensures Next(s, e).mode != Silent
  {
    hide Coherent, Complete, AnswerOk, Adopts, Reviewed, Executable, Demand, Alone, StartOk;
    if e.Sent? && e.reply.Observed? && Adopts(s, e.reply.observation) { AdoptsMeans(s, e.reply.observation); }
  }

  lemma WaitingReceived(log: seq<Event>)
    requires Track(log).Stage? && log != [] && Track(log).mode == Waiting && Track(log).now.Some?
    ensures Last(log) == Received(Track(log).now.value)
  {
    hide Next, Right;
    LastStep(log);
    WaitingFrom(Track(Front(log)), Last(log));
    if Front(log) != [] {
      LastStep(Front(log));
      NeverSilent(Track(Front(Front(log))), Last(Front(log)));
    }
  }

  lemma ScopeFrom(s: Stage, e: Event)
    requires s.Stage? && Right(s) && Next(s, e).Stage? && !(e.Opened? && e.ok && InTime(e.call))
    ensures Next(s, e).f.scope == s.f.scope && (Held(Next(s, e).mode) ==> Held(s.mode))
  {
    hide Coherent, Complete, AnswerOk, Adopts, Reviewed, Executable, Demand, Alone, StartOk;
  }

  /** The browser is opened on the first page and the origins of a sound start message, which the client just sent. */
  lemma OpeningsAreAsked(log: seq<Event>, k: nat)
    requires Track(log) != Wrong && k < |log| && log[k].Opened?
    ensures k > 0 && log[k - 1].Received? && SoundStart(log[k - 1].message) && log[k].url == log[k - 1].message.url
    ensures forall o :: o in log[k].origins <==> o in log[k - 1].message.origins
  {
    hide Next, Right, SoundStart;
    StageAt(log, k);
    var s := Track(log[..k]);
    OpenNeeds(s, log[k]);
    assert log[..k] != [];
    WaitingReceived(log[..k]);
  }

  /** While a session is held, what it is for is what its start message said. */
  lemma {:induction false} ScopeIsStart(log: seq<Event>)
    requires Track(log) != Wrong && (Held(Track(log).mode) || Track(log).f.scope != NOWHERE)
    ensures StartedBy(Track(log).f, StartOf(log))
    decreases |log|
  {
    hide Next, Right, SoundStart;
    assert log != [];
    LastStep(log);
    var s, e := Track(Front(log)), Last(log);
    if e.Opened? && e.ok && InTime(e.call) {
      OpeningsAreAsked(log, |log| - 1);
      OpenNeeds(s, e);
      WaitingReceived(Front(log));
    } else {
      ScopeFrom(s, e);
      ScopeIsStart(Front(log));
    }
  }

  // Which reports are accepted.

  /** A reported candidate that may be disclosed: challenge kinds only on inputs that have them, and none twice. */
  predicate SoundCandidate(c: RawCandidate, b: Bounds) {
    && c.handle && !c.role.OtherRole? && 1 <= c.matches <= b.maxCandidates && !c.input.OtherInput?
    && (c.challenges != [] ==> c.input.OtpInput? || c.input.MfaInput?)
    && (forall i, j | 0 <= i < j < |c.challenges| :: c.challenges[i] != c.challenges[j])
    && (c.input.OtpInput? ==> forall x <- c.challenges :: x.Totp? || x.SmsOtp? || x.EmailOtp? || x.VoiceOtp?)
    && (c.input.MfaInput? ==> forall x <- c.challenges :: x.Push? || x.PushNumberMatch? || x.Passkey? || x.SecurityKey?)
  }

  /** A report of the context asked for, inside the approved origins, within the limits. */
  predicate SoundReport(raw: RawObservation, context: ContextId, origins: set<Origin>, b: Bounds) {
    && raw.origin.exact && raw.origin in origins && raw.path.disclosable
    && (raw.context.Some? ==> raw.context.value == context)
    && |raw.candidates| <= b.maxCandidates && (forall c <- raw.candidates :: SoundCandidate(c, b))
    && forall d <- raw.diagnostics :: d.shaped
  }

  lemma ReportIff(raw: RawObservation, context: ContextId, origins: set<Origin>, b: Bounds)
    ensures ReportOk(origins, b, raw, context) <==> SoundReport(raw, context, origins, b)
  {
    forall c | c in raw.candidates ensures Reportable(b, c) <==> SoundCandidate(c, b) { CandidateIff(c, b); }
    hide Reportable, SoundCandidate;
  }

  lemma CandidateIff(c: RawCandidate, b: Bounds)
    ensures Reportable(b, c) <==> SoundCandidate(c, b)
  {
  }

  lemma AdoptedReport(s: Stage, o: Observation)
    requires Adopts(s, o)
    ensures s.Stage? && s.answer.LookAnswer? && s.answer.raw.Some? && s.now.Some? && s.now.value.Observe? && Working(s.mode)
    ensures ReportOk(s.f.origins, s.f.scope.bounds, s.answer.raw.value, Target(s.now.value.context))
    ensures |s.f.diagnostics + Elements(s.answer.raw.value.diagnostics)| <= 256
  {
    hide ReportOk, SuccessOn, Joinable;
  }

  lemma CountBounded(s: Stage)
    requires Right(s) && s.Stage? && Held(s.mode)
    ensures s.f.observations <= s.f.scope.bounds.maxObservations
  {
  }

  /**
   Only admissible reports are disclosed: inside the origins approved by then, of the context asked for, within
   the limits of the start message, no more often than it allows.
   */
  lemma ReportsAreSound(log: seq<Event>, k: nat)
    requires Track(log) != Wrong && k < |log| && log[k].Sent? && log[k].reply.Observed?
    ensures ReportAt(log, k) && StartOf(log[..k]).Some? && StartOf(log[..k]).value.Start?
    ensures SoundReport(log[k - 1].raw.value, log[k - 1].context, Approved(log[..k]), BoundsIn(StartOf(log[..k]).value))
    ensures Looks(log[..k]) <= BoundsIn(StartOf(log[..k]).value).maxObservations
  {
    hide Next, Right, Adopts, ReportOk, SoundReport, SoundStart;
    ObservationsList(log, k);
    StageAt(log, k);
    var s := Track(log[..k]);
    AlwaysRight(log[..k]);
    ObservedNeeds(s, log[k]);
    AdoptedReport(s, log[k].reply.observation);
    LastStep(log[..k]);
    AnswerFrom(Track(Front(log[..k])), Last(log[..k]));
    LookedFor(Track(Front(log[..k])), Last(log[..k]));
    OriginsAreApproved(log[..k]);
    ScopeIsStart(log[..k]);
    StartIsStart(s.f, StartOf(log[..k]));
    CountIsLooks(log[..k]);
    CountBounded(s);
    ReportIff(log[k - 1].raw.value, log[k - 1].context, s.f.origins, s.f.scope.bounds);
  }

  lemma StartIsStart(f: Facts, m: Option<ClientMessage>)
    requires StartedBy(f, m)
    ensures m.value.Start? && f.scope.bounds == BoundsIn(m.value) && f.scope.goal == m.value.goal
    ensures f.scope.dashboard == m.value.dashboard && f.scope.initial == m.value.url && f.scope.titled
  {
  }

  // The goal and the dashboard.

  predicate FitsGoal(g: Goal, c: Candidate) { c.role == g.role && (g.name == NoLabel || c.name == g.name) }

  /** Candidate n is the only one of the page that fits the goal, is matched once, and gives the proof. */
  predicate ProvesGoal(g: Goal, o: Observation, n: nat, p: Proof) {
    && o.origin == g.origin && o.path == g.path && o.context == g.context
    && n < |o.candidates| && FitsGoal(g, o.candidates[n]) && o.candidates[n].matches == 1
    && (forall m | 0 <= m < |o.candidates| && m != n :: !FitsGoal(g, o.candidates[m]))
    && p == Proof(o.origin, o.path, o.context, o.candidates[n].role, o.candidates[n].name)
  }

  lemma {:induction false} NoneFits(g: Goal, cs: seq<Candidate>)
    requires forall m | 0 <= m < |cs| :: !FitsGoal(g, cs[m])
    ensures Matching(g, cs) == []
  {
    if cs != [] {
      NoneFits(g, cs[..|cs| - 1]);
    }
  }

  lemma {:induction false} OneFits(g: Goal, cs: seq<Candidate>, n: nat)
    requires n < |cs| && FitsGoal(g, cs[n]) && forall m | 0 <= m < |cs| && m != n :: !FitsGoal(g, cs[m])
    ensures Matching(g, cs) == [cs[n]]
  {
    if n == |cs| - 1 { NoneFits(g, cs[..n]); } else { OneFits(g, cs[..|cs| - 1], n); }
  }

  lemma {:induction false} FitsCount(g: Goal, cs: seq<Candidate>, m: nat, n: nat)
    requires m <= n < |cs| && FitsGoal(g, cs[m]) && FitsGoal(g, cs[n])
    ensures |Matching(g, cs)| >= if m < n then 2 else 1
  {
    if n < |cs| - 1 {
      FitsCount(g, cs[..|cs| - 1], m, n);
    } else if m < n {
      FitsCount(g, cs[..|cs| - 1], m, m);
    }
  }

  /** The goal is proved exactly by a page of its own on which one candidate, matched once, fits it. */
  lemma GoalIff(g: Goal, o: Observation, p: Proof)
    ensures MatchGoal(g, o) == Some(p) <==> exists n: nat :: ProvesGoal(g, o, n, p)
  {
    var cs := o.candidates;
    if n: nat :| ProvesGoal(g, o, n, p) {
      OneFits(g, cs, n);
    }
    if MatchGoal(g, o) == Some(p) {
      if forall m | 0 <= m < |cs| :: !FitsGoal(g, cs[m]) { NoneFits(g, cs); }
      var n: nat :| n < |cs| && FitsGoal(g, cs[n]);
      forall m | 0 <= m < |cs| && m != n ensures !FitsGoal(g, cs[m]) {
        if FitsGoal(g, cs[m]) { FitsCount(g, cs, if m < n then m else n, if m < n then n else m); }
      }
      OneFits(g, cs, n);
      assert ProvesGoal(g, o, n, p);
    }
  }
}
