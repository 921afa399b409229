/**
 What a session claims in the end, traced back to its log: the success evidence of the dashboard, the human
 inputs, the selected outputs and the document a result is built from.
 */
module AuthorClaims {
  import opened Wrappers
  import opened PageText
  import opened Contexts
  import opened AuthorModel
  import opened AuthorLog
  import opened AuthorInvariant
  import opened AuthorTheorems
  import AuthorProfiles
  import AuthorResult
  import opened AuthorReports

  // Success evidence.

  /** Headings before regions before status texts before tables before anything else. */
  function RankOf(r: Role): nat {
    if r.Heading? then 0 else if r.Region? then 1 else if r.StatusRole? then 2 else if r.Table? then 3 else 4
  }

  predicate Usable(c: Candidate) { c.matches == 1 && !c.name.Redacted? && !c.name.Untrusted? }

  /** Candidate n is the first usable one of the best role, and no other candidate has its role and name. */
  predicate StandsOut(cs: seq<Candidate>, n: nat) {
    && n < |cs| && Usable(cs[n])
    && (forall m | 0 <= m < |cs| && m != n && Usable(cs[m]) ::
          RankOf(cs[n].role) < RankOf(cs[m].role) || (RankOf(cs[n].role) == RankOf(cs[m].role) && n < m))
    && forall m | 0 <= m < |cs| && m != n :: !(cs[m].role == cs[n].role && cs[m].name == cs[n].name)
  }

  /** The goal proves success where it is proved; elsewhere a candidate that stands out does. */
  ghost predicate ProvesSuccess(g: Goal, o: Observation, p: Proof) {
    || (exists n: nat :: ProvesGoal(g, o, n, p))
    || ((forall n: nat, q :: !ProvesGoal(g, o, n, q))
        && exists n: nat :: StandsOut(o.candidates, n)
             && p == Proof(o.origin, o.path, o.context, o.candidates[n].role, o.candidates[n].name))
  }

  lemma {:induction false} RepeatsAtLeast(cs: seq<Candidate>, c: Candidate, n: nat, m: nat)
    requires n <= |cs| && forall x <- cs :: x.matches >= 1
    ensures Repeats(cs, c, n) >= 0
    ensures m < n && cs[m].role == c.role && cs[m].name == c.name ==> Repeats(cs, c, n) >= cs[m].matches
  {
    if n > 0 {
      RepeatsAtLeast(cs, c, n - 1, m);
      assert cs[n - 1] in cs;
    }
  }

  lemma {:induction false} RepeatsTwo(cs: seq<Candidate>, c: Candidate, n: nat, m: nat, k: nat)
    requires n <= |cs| && m < k < n && forall x <- cs :: x.matches >= 1
    requires cs[m].role == c.role && cs[m].name == c.name && cs[k].role == c.role && cs[k].name == c.name
    ensures Repeats(cs, c, n) >= cs[m].matches + cs[k].matches
  {
    assert cs[n - 1] in cs;
    if k == n - 1 { RepeatsAtLeast(cs, c, n - 1, m); } else { RepeatsTwo(cs, c, n - 1, m, k); }
  }

  lemma {:induction false} RepeatsOnly(cs: seq<Candidate>, c: Candidate, n: nat, m: nat)
    requires m < |cs| && n <= |cs| && forall k | 0 <= k < |cs| && k != m :: !(cs[k].role == c.role && cs[k].name == c.name)
    requires cs[m].role == c.role && cs[m].name == c.name
    ensures Repeats(cs, c, n) == if m < n then cs[m].matches else 0
  {
    if n > 0 {
      RepeatsOnly(cs, c, n - 1, m);
    }
  }

  lemma BestIff(cs: seq<Candidate>, k: nat)
    ensures Best(cs, k) <==>
              k < |cs| && Usable(cs[k])
              && forall m | 0 <= m < |cs| && m != k && Usable(cs[m]) ::
                   RankOf(cs[k].role) < RankOf(cs[m].role) || (RankOf(cs[k].role) == RankOf(cs[m].role) && k < m)
  {
  }

  lemma StandsOutIff(cs: seq<Candidate>, k: nat)
    requires forall x <- cs :: x.matches >= 1
    ensures Best(cs, k) && Repeats(cs, cs[k], |cs|) == 1 <==> StandsOut(cs, k)
  {
    BestIff(cs, k);
    if Best(cs, k) {
      if StandsOut(cs, k) { RepeatsOnly(cs, cs[k], |cs|, k); }
      forall m | 0 <= m < |cs| && m != k && Repeats(cs, cs[k], |cs|) == 1
        ensures !(cs[m].role == cs[k].role && cs[m].name == cs[k].name)
      {
        if cs[m].role == cs[k].role && cs[m].name == cs[k].name {
          assert cs[m] in cs;
          RepeatsTwo(cs, cs[k], |cs|, if m < k then m else k, if m < k then k else m);
        }
      }
    }
  }

  lemma OneBest(cs: seq<Candidate>, j: nat, k: nat)
    requires Best(cs, j) && Best(cs, k)
    ensures j == k
  {
  }

  /** Success evidence on a page of which every candidate is matched. */
  lemma SuccessIff(g: Goal, o: Observation, p: Proof)
    requires forall c <- o.candidates :: c.matches >= 1
    ensures SuccessOn(g, o) == Some(p) <==> ProvesSuccess(g, o, p)
  {
    hide Best, Repeats, StandsOut, ProvesGoal, MatchGoal;
    GoalIff(g, o, p);
    if MatchGoal(g, o).Some? {
      var q := MatchGoal(g, o).value;
      GoalIff(g, o, q);
      var n: nat :| ProvesGoal(g, o, n, q);
    } else {
      forall n: nat, q ensures !ProvesGoal(g, o, n, q) { GoalIff(g, o, q); }
      var k := BestOf(o.candidates);
      if k.Some? { StandsOutIff(o.candidates, k.value); }
      forall n: nat | StandsOut(o.candidates, n) ensures k == Some(n) {
        StandsOutIff(o.candidates, n);
        if k.Some? { OneBest(o.candidates, n, k.value); } else { BestFound(o.candidates, n); }
      }
    }
  }

  lemma BestFound(cs: seq<Candidate>, n: nat)
    requires Best(cs, n)
    ensures BestOf(cs).Some?
  {
  }

  /** Observation k of the log shows the dashboard page that the start message named. */
  predicate OnDashboardPage(m: ClientMessage, o: Observation)
    requires m.Start?
  {
    m.dashboard.Url? && o.origin == m.dashboard.origin && o.path == m.dashboard.path
  }

  lemma ArrivalFrom(s: Stage, e: Event)
    requires s.Stage? && Right(s) && Next(s, e).Stage?
    ensures !(e.Sent? && e.reply.Observed?) && !e.Opened? ==>
              Next(s, e).f.arrival == s.f.arrival && (Next(s, e).mode == Auth ==> s.mode == Auth)
    ensures e.Opened? ==> s.f.arrival.None? && Next(s, e).f.arrival.None?
    ensures e.Sent? && e.reply.Observed? ==>
              var o := e.reply.observation;
              && Working(s.mode)
              && (if s.mode == Auth && OnDashboard(s.f.scope.dashboard, o)
                  then Next(s, e).f.arrival == SuccessOn(s.f.scope.goal, o) && SuccessOn(s.f.scope.goal, o).Some?
                       && Next(s, e).mode != Auth
                  else Next(s, e).f.arrival == s.f.arrival && (Next(s, e).mode == Auth ==> s.mode == Auth))
  {
    if e.Sent? && e.reply.Observed? {
      hide Right, SuccessOn, MatchGoal, RecordsOf;
      ObservedArrival(s, e.reply.observation, e.ok);
    } else if e.Sent? {
      hide Right;
      OtherArrival(s, e.reply, e.ok);
    } else {
      hide OnSent, Coherent, Complete, AnswerOk, Executable, Demand, Alone, StartOk;
    }
  }

  lemma OtherArrival(s: Stage, m: ServerMessage, ok: bool)
    requires s.Stage? && OnSent(s, m, ok).Stage? && !m.Observed?
    ensures var s' := OnSent(s, m, ok); s'.f.arrival == s.f.arrival && (s'.mode == Auth ==> s.mode == Auth)
  {
    hide Adopts, Reviewed, Executable, Demand, Addable, KindFits;
  }

  lemma ObservedArrival(s: Stage, o: Observation, ok: bool)
    requires s.Stage? && OnSent(s, Observed(o), ok).Stage?
    ensures var s' := OnSent(s, Observed(o), ok);
            && Working(s.mode)
            && (if s.mode == Auth && OnDashboard(s.f.scope.dashboard, o)
                then s'.f.arrival == SuccessOn(s.f.scope.goal, o) && SuccessOn(s.f.scope.goal, o).Some? && s'.mode != Auth
                else s'.f.arrival == s.f.arrival && (s'.mode == Auth ==> s.mode == Auth))
  {
    hide ReportOk, SuccessOn, MatchGoal, RecordsOf, Joinable;
  }

  /** No observation sent so far shows the dashboard, or none was sent at all. */
  ghost predicate NotYet(log: seq<Event>, s: Stage) {
    s.Stage? ==>
      && (s.mode == Silent || s.mode == Waiting ==> forall j | 0 <= j < |log| :: !(log[j].Sent? && log[j].reply.Observed?))
      && (s.mode == Auth ==> forall j | 0 <= j < |log| && log[j].Sent? && log[j].reply.Observed? ::
                               !OnDashboard(s.f.scope.dashboard, log[j].reply.observation))
  }

  lemma WaitingBefore(s: Stage, e: Event)
    requires s.Stage? && Right(s) && Next(s, e).Stage?
    ensures Next(s, e).mode == Silent || Next(s, e).mode == Waiting ==>
              (s.mode == Silent || s.mode == Waiting) && !(e.Sent? && e.reply.Observed?)
    ensures e.Opened? ==> s.mode == Waiting
  {
    hide Coherent, Complete, AnswerOk, Adopts, Reviewed, Executable, Demand, Alone, StartOk;
    if e.Sent? && e.reply.Observed? && Adopts(s, e.reply.observation) { AdoptsMeans(s, e.reply.observation); }
  }

  lemma {:induction false} DashboardNotYet(log: seq<Event>)
    requires Track(log) != Wrong
    ensures NotYet(log, Track(log))
    decreases |log|
  {
    hide Next, Right, OnDashboard;
    if log != [] {
      LastStep(log);
      DashboardNotYet(Front(log));
      var s, e := Track(Front(log)), Last(log);
      ArrivalFrom(s, e);
      WaitingBefore(s, e);
      if !(e.Opened? && e.ok && InTime(e.call)) { ScopeFrom(s, e); }
    }
  }

  lemma ListedMatched(o: Observation, raw: RawObservation, context: ContextId, generation: int, origins: set<Origin>, b: Bounds)
    requires Lists(o, raw, context, generation) && SoundReport(raw, context, origins, b)
    ensures forall c <- o.candidates :: c.matches >= 1
  {
    forall c | c in o.candidates ensures c.matches >= 1 {
      var n :| 0 <= n < |o.candidates| && o.candidates[n] == c;
      assert SoundCandidate(raw.candidates[n], b);
    }
  }

  /**
   The authentication proof is success evidence on the first observation sent that shows the dashboard page of
   the start message.
   */
  lemma {:induction false} ArrivalIsReported(log: seq<Event>) returns (k: nat, m: ClientMessage)
    requires Track(log).Stage? && Track(log).f.arrival.Some?
    ensures ReportAt(log, k) && StartOf(log[..k]) == Some(m) && m.Start?
    ensures OnDashboardPage(m, log[k].reply.observation)
    ensures ProvesSuccess(m.goal, log[k].reply.observation, Track(log).f.arrival.value)
    ensures forall j | 0 <= j < k && log[j].Sent? && log[j].reply.Observed? :: !OnDashboardPage(m, log[j].reply.observation)
    decreases |log|
  {
    hide Next, Right, ProvesSuccess, SuccessOn, SoundReport, SoundStart, Lists;
    assert log != [];
    LastStep(log);
    var s, e := Track(Front(log)), Last(log);
    ArrivalFrom(s, e);
    if e.Sent? && e.reply.Observed? && s.mode == Auth && OnDashboard(s.f.scope.dashboard, e.reply.observation) {
      k := |log| - 1;
      assert log[..k] == Front(log);
      ObservationsList(log, k);
      ReportsAreSound(log, k);
      m := StartOf(log[..k]).value;
      ScopeIsStart(log[..k]);
      StartIsStart(s.f, Some(m));
      ListedMatched(e.reply.observation, log[k - 1].raw.value, log[k - 1].context, Looks(log[..k]), Approved(log[..k]), BoundsIn(m));
      SuccessIff(m.goal, e.reply.observation, Track(log).f.arrival.value);
      DashboardNotYet(log[..k]);
      forall j | 0 <= j < k && log[j].Sent? && log[j].reply.Observed? ensures !OnDashboardPage(m, log[j].reply.observation) {
        assert log[..k][j] == log[j];
      }
    } else {
      k, m := ArrivalIsReported(Front(log));
      assert Front(log)[..k] == log[..k];
    }
  }

  // Human input.

  /** The challenge kinds a human may answer an input with: those reported, or all of its sort. */
  predicate Offers(c: RawCandidate, x: Challenge) {
    match c.input
    case OtpInput => if c.challenges == [] then x.Totp? || x.SmsOtp? || x.EmailOtp? || x.VoiceOtp? else x in c.challenges
    case MfaInput =>
      if c.challenges == [] then x.Push? || x.PushNumberMatch? || x.Passkey? || x.SecurityKey? else x in c.challenges
    case _ => false
  }

  /** An input of candidate id as the browser reported it: a unique input, with the kinds it offers. */
  ghost predicate InputIs(i: Input, o: Observation, raw: RawObservation, context: ContextId) {
    && RecordIs(i.record, i.candidate, o, raw, context) && i.candidate.CandidateId? && i.candidate.ordinal < |raw.candidates|
    && var c := raw.candidates[i.candidate.ordinal];
    && !c.input.NoInput? && c.matches == 1 && forall x :: x in i.kinds <==> Offers(c, x)
  }

  lemma InputSent(s: Stage, m: ServerMessage, ok: bool)
    requires s.Stage? && OnSent(s, m, ok).Stage? && OnSent(s, m, ok).f.input.Some?
    ensures m.Prompt? ==>
              var i := OnSent(s, m, ok).f.input.value;
              && i.candidate in s.f.candidates && i.record == s.f.candidates[i.candidate]
              && i.record.input != NoInput && i.record.candidate.matches == 1 && i.kinds == ChallengeKinds(i.record)
              && m == Prompt(i.candidate, i.record.input, i.kinds)
    ensures !m.Prompt? ==> OnSent(s, m, ok).f.input == s.f.input
  {
    hide Adopts, Reviewed, Executable, Demand, Addable, KindFits, ChallengeKinds;
  }

  lemma InputFrom(s: Stage, e: Event)
    requires s.Stage? && Right(s) && Next(s, e).Stage? && Next(s, e).f.input.Some?
    ensures e.Sent? && e.reply.Prompt? ==>
              var i := Next(s, e).f.input.value;
              && i.candidate in s.f.candidates && i.record == s.f.candidates[i.candidate]
              && i.record.input != NoInput && i.record.candidate.matches == 1 && i.kinds == ChallengeKinds(i.record)
              && e.reply == Prompt(i.candidate, i.record.input, i.kinds)
    ensures !(e.Sent? && e.reply.Prompt?) ==> Next(s, e).f.input == s.f.input
  {
    if e.Sent? {
      hide Right, OnSent;
      InputSent(s, e.reply, e.ok);
    } else {
      hide OnSent, Coherent, Complete, AnswerOk, Executable, Demand, Alone, StartOk;
    }
  }

  lemma PromptedInput(i: Input, o: Observation, raw: RawObservation, context: ContextId)
    requires RecordIs(i.record, i.candidate, o, raw, context) && i.record.input != NoInput && !i.record.input.OtherInput?
    requires i.record.candidate.matches == 1 && i.kinds == ChallengeKinds(i.record)
    ensures InputIs(i, o, raw, context)
  {
    var c := raw.candidates[i.candidate.ordinal];
    assert c.challenges != [] ==> c.challenges[0] in i.record.challenges;
    assert i.record.challenges == {} <==> c.challenges == [];
  }

  lemma InputKnown(s: Stage)
    requires Right(s) && s.Stage? && s.f.input.Some? && Held(s.mode)
    ensures !s.f.input.value.record.input.OtherInput?
  {
    hide Forest, CandidatesOk, PendingOk, ProofsOk, TraceFit, Complete, Sound, Limited, AnswerOk;
  }

  lemma PromptNeeds(s: Stage, e: Event)
    requires s.Stage? && Right(s) && Next(s, e).Stage? && Next(s, e).f.input.Some? && e.Sent? && e.reply.Prompt?
    ensures Working(s.mode) && InputKindOk(Next(s, e).f.input.value.record.input)
  {
    hide Forest, PendingOk, ProofsOk, TraceFit, Complete, Sound, Limited, AnswerOk, ChallengeKinds;
  }

  /**
   A human input that is open was prompted for, as the newest report showed it: a unique input, for which the
   kinds offered are those reported, or all of its sort when none were.
   */
  lemma {:induction false} InputIsPrompted(log: seq<Event>) returns (k: nat, j: nat)
    requires Track(log).Stage? && Track(log).f.input.Some?
    ensures k < |log| && Newest(log[..k], j) && log[k].Sent?
    ensures var i := Track(log).f.input.value;
            log[k].reply == Prompt(i.candidate, i.record.input, i.kinds)
            && InputIs(i, log[j].reply.observation, log[j - 1].raw.value, log[j - 1].context)
    decreases |log|
  {
    hide Next, Right, InputIs, RecordIs, ChallengeKinds;
    assert log != [];
    LastStep(log);
    var s, e := Track(Front(log)), Last(log);
    InputFrom(s, e);
    if e.Sent? && e.reply.Prompt? {
      k := |log| - 1;
      assert log[..k] == Front(log);
      j := RecordsAreReported(Front(log));
      PromptNeeds(s, e);
      PromptedInput(Track(log).f.input.value, log[j].reply.observation, log[j - 1].raw.value, log[j - 1].context);
    } else {
      k, j := InputIsPrompted(Front(log));
      assert Front(log)[..k] == log[..k];
    }
  }

  lemma FocusNeeds(s: Stage, e: Event)
    requires Next(s, e) != Wrong && e.Focused?
    ensures s.Stage? && s.mode == Auth && s.now.Some? && s.now.value.FocusHumanInput? && s.answer == NoAnswer
    ensures s.now.value.candidate in s.f.candidates && e.record == s.f.candidates[s.now.value.candidate]
    ensures e.record.input != NoInput && e.record.input != MfaInput && e.record.candidate.matches == 1
  {
  }

  lemma FocusFrom(s: Stage, e: Event)
    requires s.Stage? && Right(s) && Next(s, e).Stage? && Next(s, e).now.Some? && Next(s, e).now.value.FocusHumanInput?
    requires Next(s, e).mode == Auth && Next(s, e).answer == NoAnswer
    ensures e == Received(Next(s, e).now.value)
  {
    hide Coherent, Complete, AnswerOk, Adopts, Reviewed, Executable, Demand, StartOk;
  }

  /** The browser focuses only what the client just asked for: a unique typed input of the newest report. */
  lemma FocusesAreAsked(log: seq<Event>, k: nat) returns (j: nat)
    requires Track(log) != Wrong && k < |log| && log[k].Focused?
    ensures k > 0 && log[k - 1].Received? && log[k - 1].message.FocusHumanInput? && Newest(log[..k], j)
    ensures var id, raw := log[k - 1].message.candidate, log[j - 1].raw.value;
            && RecordIs(log[k].record, id, log[j].reply.observation, raw, log[j - 1].context)
            && id.CandidateId? && id.ordinal < |raw.candidates| && raw.candidates[id.ordinal].matches == 1
            && !raw.candidates[id.ordinal].input.NoInput? && !raw.candidates[id.ordinal].input.MfaInput?
  {
    hide Next, Right;
    StageAt(log, k);
    var s := Track(log[..k]);
    FocusNeeds(s, log[k]);
    assert log[..k] != [];
    LastStep(log[..k]);
    FocusFrom(Track(Front(log[..k])), Last(log[..k]));
    j := RecordsAreReported(log[..k]);
  }

  lemma PromptAsks(s: Stage, e: Event)
    requires s.Stage? && Right(s) && Next(s, e).Stage? && e.Sent? && e.reply.Prompt?
    ensures s.mode == Auth && s.now == Some(FocusHumanInput(e.reply.candidate)) && e.reply.candidate in s.f.candidates
    ensures s.f.candidates[e.reply.candidate].input == e.reply.input
    ensures e.reply.input != MfaInput ==> s.answer == FocusAnswer(true)
  {
    hide Coherent, Complete, Executable, Demand, Alone, StartOk;
  }

  lemma FocusEvents(s: Stage, e: Event)
    requires s.Stage? && Right(s) && Next(s, e).Stage? && Next(s, e).now.Some? && Next(s, e).now.value.FocusHumanInput?
    requires Next(s, e).mode == Auth
    ensures e == Received(Next(s, e).now.value)
            || (e.Focused? && Next(s, e).now == s.now && Next(s, e).f == s.f && s.now.value.candidate in s.f.candidates
                && s.f.candidates[s.now.value.candidate].input != MfaInput)
  {
    hide Coherent, Complete, AnswerOk, Adopts, Reviewed, Executable, Demand, StartOk;
  }

  /**
   A human is prompted right after the client asked for it and, unless the input is one that is never typed into
   the page, right after the browser focused it in time.
   */
  lemma PromptsAreFocused(log: seq<Event>, k: nat)
    requires Track(log) != Wrong && k < |log| && log[k].Sent? && log[k].reply.Prompt?
    ensures 0 < k
    ensures if log[k].reply.input.MfaInput? then log[k - 1] == Received(FocusHumanInput(log[k].reply.candidate))
            else 1 < k && log[k - 2] == Received(FocusHumanInput(log[k].reply.candidate))
                 && log[k - 1].Focused? && log[k - 1].ok && log[k - 1].call.elapsed < log[k - 1].call.budget
  {
    hide Next, Right;
    StageAt(log, k);
    AlwaysRight(log[..k]);
    SentNext(Track(log[..k]), log[k]);
    PromptAsks(Track(log[..k]), log[k]);
    LastStep(log[..k]);
    var s, e := Track(Front(log[..k])), Last(log[..k]);
    if log[k].reply.input.MfaInput? {
      FocusEvents(s, e);
    } else {
      AnswerFrom(s, e);
      FocusStays(s, e);
      LastStep(Front(log[..k]));
      FocusFrom(Track(Front(Front(log[..k]))), Last(Front(log[..k])));
    }
  }

  lemma FocusStays(s: Stage, e: Event)
    requires Right(s) && s.Stage? && Next(s, e).Stage? && e.Focused?
    ensures Next(s, e).now == s.now && Next(s, e).mode == s.mode == Auth && s.answer == NoAnswer
    ensures s.now.Some? && s.now.value.FocusHumanInput?
  {
    hide Right;
  }

  lemma CompletionNeeds(s: Stage, e: Event)
    requires s.Stage? && Right(s) && Next(s, e).Stage? && e.Sent? && e.reply.State? && s.now.Some? && s.now.value.HumanInputComplete?
    ensures s.f.input.Some? && s.now.value.candidate == s.f.input.value.candidate && e.reply.phase == Authentication
    ensures if s.f.input.value.kinds == {} then s.now.value.challenge == NoChallenge
            else s.now.value.challenge in s.f.input.value.kinds
    ensures Next(s, e).f.trace
            == s.f.trace + [TraceStep(FocusKind, Authentication, s.f.input.value.candidate, s.f.input.value.record.context,
                                      s.f.input.value.record.candidate.role, s.f.input.value.record.candidate.name,
                                      s.f.input.value.record.input, s.now.value.challenge, None, 0, 0, None)]
  {
    hide Coherent, Complete, AnswerOk, Adopts, Reviewed, Executable, Demand, Alone, StartOk;
  }

  /** The step a completed input leaves in the trace: what was asked of whom, with the kind the client reviewed. */
  predicate InputStep(t: TraceStep, id: Id, raw: RawObservation, context: ContextId, challenge: Challenge) {
    && id.CandidateId? && id.ordinal < |raw.candidates|
    && var c := raw.candidates[id.ordinal];
    && t == TraceStep(FocusKind, Authentication, id, context, c.role, c.name, c.input, challenge, None, 0, 0, None)
    && !c.input.NoInput? && c.matches == 1
    && (if c.input.OtpInput? || c.input.MfaInput? then Offers(c, challenge) else challenge == NoChallenge)
  }

  lemma SomeKind(c: RawCandidate) returns (x: Challenge)
    requires c.input.OtpInput? || c.input.MfaInput?
    ensures Offers(c, x)
  {
    x := if c.challenges != [] then c.challenges[0] else if c.input.OtpInput? then Totp else Push;
  }

  /**
   Every human input that is reported as completed was open, is the one the client names, was answered with a
   kind it offers, and enters the trace as it was reported by the browser.
   */
  lemma InputsAreTraced(log: seq<Event>, k: nat) returns (p: nat, j: nat)
    requires Track(log) != Wrong && 0 < k < |log| && log[k].Sent? && log[k].reply.State?
    requires log[k - 1].Received? && log[k - 1].message.HumanInputComplete?
    ensures p < k && log[p].Sent? && log[p].reply.Prompt? && log[p].reply.candidate == log[k - 1].message.candidate
    ensures Newest(log[..p], j) && log[k].reply.phase == Authentication
    ensures Track(log[..k + 1]).Stage? && Track(log[..k]).Stage?
    ensures var t := Track(log[..k + 1]).f.trace;
            && |t| == |Track(log[..k]).f.trace| + 1 && t[..|t| - 1] == Track(log[..k]).f.trace
            && InputStep(t[|t| - 1], log[k - 1].message.candidate, log[j - 1].raw.value, log[j - 1].context,
                         log[k - 1].message.challenge)
  {
    hide Next, Right, InputIs;
    StageAt(log, k);
    var s := Track(log[..k]);
    AlwaysRight(log[..k]);
    SentNext(s, log[k]);
    LastStep(log[..k]);
    NotObserve(Track(Front(log[..k])), Last(log[..k]));
    CompletionNeeds(s, log[k]);
    p, j := InputIsPrompted(log[..k]);
    assert log[..k][..p] == log[..p];
    InputMeans(s.f.input.value, log[j].reply.observation, log[j - 1].raw.value, log[j - 1].context, s.now.value.challenge);
  }

  lemma InputMeans(i: Input, o: Observation, raw: RawObservation, context: ContextId, challenge: Challenge)
    requires InputIs(i, o, raw, context) && if i.kinds == {} then challenge == NoChallenge else challenge in i.kinds
    ensures InputStep(TraceStep(FocusKind, Authentication, i.candidate, i.record.context, i.record.candidate.role,
                                i.record.candidate.name, i.record.input, challenge, None, 0, 0, None),
                      i.candidate, raw, context, challenge)
  {
    var c := raw.candidates[i.candidate.ordinal];
    if c.input.OtpInput? || c.input.MfaInput? {
      var x := SomeKind(c);
      assert x in i.kinds;
    }
  }

  // Executions.

  lemma RunOutcome(s: Stage, e: Event)
    requires s.Stage? && Right(s) && Next(s, e).Stage? && e.Sent? && e.reply.State? && s.answer.RunAnswer?
    ensures s.answer.result.Some? && Working(s.mode)
    ensures e.reply.phase == if s.mode == Explore then Exploration else Authentication
    ensures var r, target, x := s.answer.request, s.answer.target, s.answer.result.value;
            && 0 <= x.posts <= r.postBudget
            && Next(s, e).f.trace
               == s.f.trace
                  + [TraceStep(if r.action == Click then ClickKind else NavigateKind, e.reply.phase, r.candidate,
                               if target.Some? then target.value.context else if r.context.Some? then r.context.value else Main,
                               if target.Some? then target.value.candidate.role else OtherRole(""),
                               if target.Some? then target.value.candidate.name else NoLabel,
                               NoInput, NoChallenge, r.url, r.postBudget, x.posts,
                               if x.popup.Some? then Some(x.popup.value.0) else None)]
            && Next(s, e).f.contexts == if x.popup.Some? then s.f.contexts[x.popup.value.0 := x.popup.value.1] else s.f.contexts
  {
    hide Coherent, Complete, AnswerOk, Adopts, Reviewed, Executable, Demand, Addable;
  }

  /** The step an answered execution leaves in the trace. */
  predicate RunStepIs(t: TraceStep, r: Request, phase: Phase, x: Execution) {
    && t.kind == (if r.action == Click then ClickKind else NavigateKind) && t.phase == phase && t.id == r.candidate
    && t.input == NoInput && t.challenge == NoChallenge && t.url == r.url
    && t.postBudget == r.postBudget && t.postObserved == x.posts
    && t.opens == (if x.popup.Some? then Some(x.popup.value.0) else None)
    && (r.action != Click ==>
          t.context == (if r.context.Some? then r.context.value else Main) && t.role == OtherRole("") && t.name == NoLabel)
  }

  /** A click is traced with the role, name and context that the browser reported at the candidate's position. */
  predicate ClickStepIs(t: TraceStep, id: Id, raw: RawObservation, context: ContextId) {
    && id.CandidateId? && id.ordinal < |raw.candidates|
    && t.role == raw.candidates[id.ordinal].role && t.name == raw.candidates[id.ordinal].name && t.context == context
  }

  /** A session explores exactly from the first observation sent that shows the dashboard of its start message. */
  lemma PhaseIsShown(log: seq<Event>) returns (m: ClientMessage)
    requires Track(log).Stage? && Working(Track(log).mode)
    ensures StartOf(log) == Some(m) && m.Start?
    ensures Track(log).mode == Auth
            <==> forall i | 0 <= i < |log| && log[i].Sent? && log[i].reply.Observed? :: !OnDashboardPage(m, log[i].reply.observation)
  {
    hide Next, SoundStart, ProvesSuccess;
    AlwaysRight(log);
    ScopeIsStart(log);
    m := StartOf(log).value;
    StartIsStart(Track(log).f, StartOf(log));
    DashboardNotYet(log);
    if Track(log).mode == Explore {
      Arrived(Track(log));
      var k, first := ArrivalIsReported(log);
      OneStart(log, k);
    }
  }

  lemma Arrived(s: Stage)
    requires s.Stage? && Right(s) && s.mode == Explore
    ensures s.f.arrival.Some?
  {
    hide Coherent, AnswerOk;
  }

  /**
   Every execution that is reported as done was answered in time, with no more POSTs than it was approved for,
   and enters the trace as it was asked for and as the browser reported it, as authentication exactly while no
   observation had shown the dashboard of the start message.
   */
  lemma RunsAreTraced(log: seq<Event>, k: nat) returns (m: ClientMessage, j: nat)
    requires Track(log) != Wrong && 0 < k < |log| && log[k].Sent? && log[k].reply.State? && log[k - 1].Ran?
    ensures log[k - 1].result.Some? && log[k - 1].call.elapsed < log[k - 1].call.budget
    ensures 0 <= log[k - 1].result.value.posts <= log[k - 1].request.postBudget
    ensures Track(log[..k + 1]).Stage? && Track(log[..k]).Stage?
    ensures var t, r := Track(log[..k + 1]).f.trace, log[k - 1].request;
            && |t| == |Track(log[..k]).f.trace| + 1 && t[..|t| - 1] == Track(log[..k]).f.trace
            && RunStepIs(t[|t| - 1], r, log[k].reply.phase, log[k - 1].result.value)
            && (r.action == Click ==>
                  Newest(log[..k - 1], j) && ClickStepIs(t[|t| - 1], r.candidate, log[j - 1].raw.value, log[j - 1].context))
    ensures StartOf(log[..k]) == Some(m) && m.Start? && (log[k].reply.phase == Authentication || log[k].reply.phase == Exploration)
    ensures log[k].reply.phase == Authentication
            <==> forall i | 0 <= i < k && log[i].Sent? && log[i].reply.Observed? :: !OnDashboardPage(m, log[i].reply.observation)
  {
    hide Next, Right;
    StageAt(log, k);
    var s := Track(log[..k]);
    AlwaysRight(log[..k]);
    SentNext(s, log[k]);
    LastStep(log[..k]);
    Recorded(Track(Front(log[..k])), Last(log[..k]));
    RunOutcome(s, log[k]);
    m := PhaseIsShown(log[..k]);
    assert forall i | 0 <= i < k :: log[..k][i] == log[i];
    j := 0;
    if log[k - 1].request.action == Click {
      j := ClicksActOnReports(log, k - 1);
    } else {
      StageAt(log, k - 1);
      AlwaysRight(log[..k - 1]);
      NavigationNeedsNoTarget(Track(log[..k - 1]), log[k - 1]);
    }
  }

  lemma NavigationNeedsNoTarget(s: Stage, e: Event)
    requires Right(s) && Next(s, e) != Wrong && e.Ran? && e.request.action != Click
    ensures e.target.None?
  {
    hide Forest, CandidatesOk, InputOk, ProofsOk, TraceFit, Complete, Sound, Limited, AnswerOk;
  }

  // Selected outputs.

  predicate Alike(r: RawCandidate, c: Candidate, exactly: bool) {
    r.role == c.role && (exactly ==> r.input.NoInput? && r.name == c.name)
  }

  lemma {:induction false} CountsNone(raw: seq<RawCandidate>, c: Candidate, exactly: bool, n: nat)
    requires n <= |raw| && forall m | 0 <= m < n :: !Alike(raw[m], c, exactly)
    ensures Matches(raw, c, exactly, n) == 0
  {
    if n > 0 {
      CountsNone(raw, c, exactly, n - 1);
    }
  }

  lemma {:induction false} CountsAtLeast(raw: seq<RawCandidate>, c: Candidate, exactly: bool, n: nat, m: nat)
    requires n <= |raw| && forall r <- raw :: r.matches >= 1
    ensures 0 <= Matches(raw, c, exactly, n)
    ensures m < n && Alike(raw[m], c, exactly) ==> raw[m].matches <= Matches(raw, c, exactly, n)
  {
    if n > 0 {
      CountsAtLeast(raw, c, exactly, n - 1, m);
      assert raw[n - 1] in raw;
    }
  }

  lemma {:induction false} CountsTwo(raw: seq<RawCandidate>, c: Candidate, exactly: bool, n: nat, m: nat, k: nat)
    requires n <= |raw| && m < k < n && forall r <- raw :: r.matches >= 1
    requires Alike(raw[m], c, exactly) && Alike(raw[k], c, exactly)
    ensures Matches(raw, c, exactly, n) >= 2
  {
    assert raw[n - 1] in raw && raw[k] in raw && raw[m] in raw;
    if k == n - 1 { CountsAtLeast(raw, c, exactly, n - 1, m); } else { CountsTwo(raw, c, exactly, n - 1, m, k); }
  }

  /** A count of one is one candidate, matched once. */
  lemma CountIsOne(raw: seq<RawCandidate>, c: Candidate, exactly: bool) returns (n: nat)
    requires (forall r <- raw :: r.matches >= 1) && Matches(raw, c, exactly, |raw|) == 1
    ensures n < |raw| && raw[n].matches == 1 && Alike(raw[n], c, exactly)
    ensures forall m | 0 <= m < |raw| && m != n :: !Alike(raw[m], c, exactly)
  {
    if forall m | 0 <= m < |raw| :: !Alike(raw[m], c, exactly) { CountsNone(raw, c, exactly, |raw|); }
    n :| n < |raw| && Alike(raw[n], c, exactly);
    CountsAtLeast(raw, c, exactly, |raw|, n);
    assert raw[n] in raw;
    forall m | 0 <= m < |raw| && m != n ensures !Alike(raw[m], c, exactly) {
      if Alike(raw[m], c, exactly) { CountsTwo(raw, c, exactly, |raw|, if m < n then m else n, if m < n then n else m); }
    }
  }

  /** Exactly one candidate of the page is like c, and it is matched once. */
  predicate OnlyOne(page: seq<RawCandidate>, c: Candidate, exactly: bool) {
    exists n | 0 <= n < |page| ::
      page[n].matches == 1 && Alike(page[n], c, exactly) && forall m | 0 <= m < |page| && m != n :: !Alike(page[m], c, exactly)
  }

  /**
   The selection is the request's: a candidate of the report, no control and no input, matched once there; and
   once again on the page looked at before the completion, by its role where the role is to find it.
   */
  ghost predicate SelectionIs(x: Selection, q: OutputRequest, o: Observation, raw: RawObservation, context: ContextId,
                              page: RawObservation, generation: int) {
    && x.candidate == q.candidate && x.key == q.key && x.kind == q.kind && x.mode == q.mode
    && x.observation == generation && x.context == context && x.matches == 1
    && q.candidate.CandidateId? && q.candidate.ordinal < |raw.candidates| && q.candidate.ordinal < |o.candidates|
    && o.candidates[q.candidate.ordinal].id == q.candidate
    && var c := raw.candidates[q.candidate.ordinal];
    && c.matches == 1 && c.input.NoInput? && c.name.Reduced?
    && !(c.role.Button? || c.role.Textbox? || c.role.Checkbox? || c.role.Radio? || c.role.Combobox? || c.role.OptionRole?
         || c.role.MenuItem? || c.role.Tab? || c.role.Switch?)
    && x.role == c.role && x.name == (if q.mode == ExactName then c.name else NoLabel)
    && OnlyOne(page.candidates, o.candidates[q.candidate.ordinal], true)
    && (q.mode == UniqueRole ==> x.roleMatches == 1 && OnlyOne(page.candidates, o.candidates[q.candidate.ordinal], false))
    && q.key.usable && !q.kind.OtherOutput? && !q.mode.OtherMode?
  }

  lemma CountedOnce(page: seq<RawCandidate>, c: Candidate, exactly: bool)
    requires (forall r <- page :: r.matches >= 1) && Matches(page, c, exactly, |page|) == 1
    ensures OnlyOne(page, c, exactly)
  {
    var n := CountIsOne(page, c, exactly);
  }

  lemma SelectedAsReported(f: Facts, q: OutputRequest, page: RawObservation, o: Observation, raw: RawObservation,
                           context: ContextId)
    requires f.proof.Some? && OutputOk(f.candidates, f.proof.value, q)
    requires Proved(f.scope.bounds, page, f.candidates[q.candidate].candidate, q.mode)
    requires RecordIs(f.candidates[q.candidate], q.candidate, o, raw, context)
    ensures SelectionIs(SelectionOf(f.candidates, f.proof.value, f.observations, page, q), q, o, raw, context, page, f.observations)
  {
    var c := f.candidates[q.candidate].candidate;
    CountedOnce(page.candidates, c, true);
    if q.mode == UniqueRole { CountedOnce(page.candidates, c, false); }
    hide Matches, OnlyOne;
  }

  lemma CompletionMeans(s: Stage, e: Event)
    requires s.Stage? && Right(s) && Next(s, e).Stage? && e.Sent? && e.reply == State(Completed)
    ensures s.mode == Explore && s.now.Some? && s.now.value.HumanComplete? && s.now.value.confirmed
            && s.now.value.outputs.Some? && s.f.proof.Some?
    ensures Reviewed(s.f.candidates, s.f.proof.value, s.f.scope.bounds, s.now.value.outputs.value, PageOf(s.answer))
    ensures forall q <- s.now.value.outputs.value :: q.candidate in s.f.candidates
    ensures s.now.value.outputs.value != [] ==> PageOf(s.answer).Some?
    ensures Next(s, e).f == s.f.(selections := Selections(s.f.candidates, s.f.proof.value, s.f.observations,
                                                          s.now.value.outputs.value, PageOf(s.answer)))
  {
    hide Coherent, Complete, AnswerOk, Adopts, OutputOk, Proved, SamePage, Executable, Demand, Alone, StartOk, Selections;
    if s.now.Some? && s.now.value.HumanComplete? && s.now.value.outputs.Some? && s.f.proof.Some?
       && OutputsOk(s.f.candidates, s.f.proof.value, s.now.value.outputs.value) {
      Offered(s.f.candidates, s.f.proof.value, s.now.value.outputs.value);
    }
  }

  /** The client's confirmation that completion c of the log answers: the message just before, or before one more look. */
  function ConfirmationOf(log: seq<Event>, c: nat): Event
    requires 0 < c < |log| && (log[c - 1].Received? || 1 < c)
  {
    if log[c - 1].Received? then log[c - 1] else log[c - 2]
  }

  /**
   A completion is reported only when the client confirmed the goal and asked for outputs that the page bore out.
   The selections are those of the requests, one for each, in the order of their keys; each was reported by the
   browser in the newest observation, and found once more on the goal's page, which was looked at for it.
   */
  lemma OutputsAreProved(log: seq<Event>, c: nat) returns (j: nat)
    requires Track(log) != Wrong && c < |log| && log[c] == Sent(State(Completed), true)
    ensures 0 < c && (log[c - 1].Received? || 1 < c) && Confirmation(ConfirmationOf(log, c))
    ensures Track(log[..c + 1]).Stage? && Newest(log[..c], j)
    ensures var ss, qs := Track(log[..c + 1]).f.selections, ConfirmationOf(log, c).message.outputs.value;
            && (qs != [] ==> log[c - 1].Looked? && log[c - 1].raw.Some? && log[c - 1].call.elapsed < log[c - 1].call.budget)
            && SelectionsClaim(ss, qs, log[j].reply.observation, log[j - 1].raw.value, log[j - 1].context,
                               if log[c - 1].Looked? then log[c - 1].raw else None, Looks(log[..c]))
            && StartOf(log[..c]).Some? && StartOf(log[..c]).value.Start?
            && (qs != [] ==> |log[c - 1].raw.value.candidates| <= BoundsIn(StartOf(log[..c]).value).maxCandidates)
            && |qs| <= BoundsIn(StartOf(log[..c]).value).maxOutputs
  {
    hide Next, Right, SelectionIs, Selections, RecordIs, Confirmation, Fresh, OutputsOk, Proved, SoundStart;
    StageAt(log, c);
    var s := Track(log[..c]);
    AlwaysRight(log[..c]);
    SentNext(s, log[c]);
    CompletionMeans(s, log[c]);
    ScopeIsStart(log[..c]);
    StartIsStart(s.f, StartOf(log[..c]));
    Confirmed(log, c);
    CountIsLooks(log[..c]);
    j := ProofIsFresh(log[..c]);
    FreshNewest(log[..c], j, s.f.scope.goal, s.f.proof.value);
    if s.f.candidates != map[] {
      var i := RecordsAreReported(log[..c]);
      assert i == j;
    }
    Claimed(s.f, s.now.value.outputs.value, PageOf(s.answer), log[j].reply.observation, log[j - 1].raw.value, log[j - 1].context);
  }

  lemma FreshNewest(log: seq<Event>, j: nat, g: Goal, p: Proof)
    requires Fresh(log, j, g, p)
    ensures Newest(log, j) && log[j].reply.observation.origin == p.origin && log[j].reply.observation.path == p.path
    ensures log[j].reply.observation.context == p.context
  {
    hide ObservationOf;
  }

  /** The selections made of requests on a report and on the page looked at again. */
  ghost predicate SelectionsClaim(ss: seq<Selection>, qs: seq<OutputRequest>, o: Observation, raw: RawObservation,
                                  context: ContextId, page: Option<RawObservation>, generation: int) {
    && |ss| == |qs| && |qs| <= 16
    && (forall i, k | 0 <= i < k < |ss| ::
          TextLe(ss[i].key.text, ss[k].key.text) && ss[i].key != ss[k].key && ss[i].candidate != ss[k].candidate)
    && (qs != [] ==>
          && page.Some? && page.value.origin == o.origin && page.value.path == o.path
          && (if page.value.context.Some? then page.value.context.value else Main) == o.context
          && (forall x <- ss :: exists q <- qs :: SelectionIs(x, q, o, raw, context, page.value, generation))
          && (forall q <- qs :: exists x <- ss :: SelectionIs(x, q, o, raw, context, page.value, generation)))
  }

  lemma Claimed(f: Facts, qs: seq<OutputRequest>, page: Option<RawObservation>, o: Observation, raw: RawObservation,
                context: ContextId)
    requires f.proof.Some? && Reviewed(f.candidates, f.proof.value, f.scope.bounds, qs, page)
    requires forall q <- qs :: q.candidate in f.candidates
    requires qs != [] ==> page.Some?
    requires o.origin == f.proof.value.origin && o.path == f.proof.value.path && o.context == f.proof.value.context
    requires forall id <- f.candidates :: RecordIs(f.candidates[id], id, o, raw, context)
    ensures SelectionsClaim(Selections(f.candidates, f.proof.value, f.observations, qs, page), qs, o, raw, context, page, f.observations)
  {
    hide SelectionIs, Proved, OutputOk, RecordIs, Selections;
    var ss := Selections(f.candidates, f.proof.value, f.observations, qs, page);
    SelectionsAre(f.candidates, f.proof.value, f.observations, qs, page);
    SelectionsInOrder(f.candidates, f.proof.value, f.observations, qs, page);
    forall q | q in qs
      ensures SelectionIs(SelectionOf(f.candidates, f.proof.value, f.observations, page.value, q), q, o, raw, context, page.value,
                          f.observations)
    {
      SelectedAsReported(f, q, page.value, o, raw, context);
    }
  }

  /** Who confirmed, and what page was looked at for it. */
  lemma Confirmed(log: seq<Event>, c: nat)
    requires Track(log) != Wrong && c < |log| && log[c] == Sent(State(Completed), true)
    ensures 0 < c && (log[c - 1].Received? || 1 < c) && Confirmation(ConfirmationOf(log, c)) && Track(log[..c]).Stage?
    ensures Track(log[..c]).now == Some(ConfirmationOf(log, c).message)
    ensures PageOf(Track(log[..c]).answer).Some? ==>
              log[c - 1].Looked? && log[c - 1].raw == PageOf(Track(log[..c]).answer) && InTime(log[c - 1].call)
  {
    hide Next, Right;
    StageAt(log, c);
    var s := Track(log[..c]);
    AlwaysRight(log[..c]);
    SentNext(s, log[c]);
    CompletionMeans(s, log[c]);
    LastStep(log[..c]);
    ConfirmFrom(Track(Front(log[..c])), Last(log[..c]));
    AnswerFrom(Track(Front(log[..c])), Last(log[..c]));
    if Last(log[..c]).Looked? {
      LastStep(Front(log[..c]));
      ConfirmSilent(Track(Front(Front(log[..c]))), Last(Front(log[..c])));
    }
  }

  // What is open comes first.

  lemma AskedIsPending(s: Stage, e: Event)
    requires s.Stage? && Next(s, e).Stage? && e.Sent? && e.reply.ApprovalRequired? && e.ok
    ensures Next(s, e).f.pending.Some? && Next(s, e).f.pending.value.id == e.reply.id && Held(Next(s, e).mode)
    ensures Next(s, e).f.granted.None?
  {
    hide Executable;
  }

  lemma PromptedIsOpen(s: Stage, e: Event)
    requires s.Stage? && Next(s, e).Stage? && e.Sent? && e.reply.Prompt? && e.ok
    ensures Next(s, e).f.input.Some? && Next(s, e).f.input.value.candidate == e.reply.candidate && Held(Next(s, e).mode)
    ensures Next(s, e).f.pending.None? && Next(s, e).f.granted.None?
  {
  }

  lemma PendingBlocks(s: Stage, m: ClientMessage, e: Event)
    requires s.Stage? && s.f.pending.Some? && s.f.granted.None? && Held(s.mode) && m != Approve(s.f.pending.value.id)
    requires Next(Next(s, Received(m)), e) != Wrong
    ensures e.Ended?
  {
    hide Executable, Demand, Reviewed, KindFits, Acceptable, StartOk;
  }

  lemma InputBlocks(s: Stage, m: ClientMessage, e: Event)
    requires s.Stage? && s.f.input.Some? && s.f.pending.None? && s.f.granted.None? && Held(s.mode)
    requires !(m.HumanInputComplete? && m.candidate == s.f.input.value.candidate)
    requires Next(Next(s, Received(m)), e) != Wrong
    ensures e.Ended?
  {
    hide Executable, Demand, Reviewed, KindFits, Acceptable, StartOk;
  }

  /**
   After an approval is asked for, or a human input prompted, any message but its own answer ends the session
   before anything else is done or said.
   */
  lemma OpenQuestionsBlock(log: seq<Event>, k: nat)
    requires Track(log) != Wrong && 0 < k < |log| - 1 && log[k].Received? && log[k - 1].Sent?
    requires match log[k - 1].reply
             case ApprovalRequired(id, _, _, _, _, _) => log[k].message != Approve(id)
             case Prompt(id, _, _) => !(log[k].message.HumanInputComplete? && log[k].message.candidate == id)
             case _ => false
    ensures log[k + 1].Ended?
  {
    hide Next, Right;
    StageAt(log, k - 1);
    StageAt(log, k);
    StageAt(log, k + 1);
    MessageNeeds(Track(log[..k]), log[k]);
    SentOk(Track(log[..k - 1]), log[k - 1], log[k]);
    if log[k - 1].reply.ApprovalRequired? {
      AskedIsPending(Track(log[..k - 1]), log[k - 1]);
      PendingBlocks(Track(log[..k]), log[k].message, log[k + 1]);
    } else {
      PromptedIsOpen(Track(log[..k - 1]), log[k - 1]);
      InputBlocks(Track(log[..k]), log[k].message, log[k + 1]);
    }
  }

  lemma MessageNeeds(s: Stage, e: Event)
    requires Next(s, e) != Wrong && e.Received?
    ensures s.Stage?
  {
  }

  /** Nothing follows what could not be written. */
  lemma SentOk(s: Stage, e: Event, next: Event)
    requires Next(Next(s, e), next) != Wrong && e.Sent? && next.Received?
    ensures s.Stage? && e.ok
  {
    hide OutcomeState, OutcomeObserved, OutcomePrompt, OutcomeAsk, Quiet;
  }

  // The last word.

  lemma FinalNeeds(s: Stage, e: Event)
    requires s.Stage? && Next(s, e).Stage? && e.Sent?
    ensures e.reply.ResultReady? ==> s.mode == Written
    ensures e.reply.Closed? ==> s.now == Some(CloseMessage) && (s.mode == Waiting || s.mode == Over(true, s.mode.agreed))
  {
    hide OutcomeState, OutcomeObserved, OutcomePrompt, OutcomeAsk;
  }

  lemma WrittenFrom(s: Stage, e: Event)
    requires s.Stage? && Right(s) && Next(s, e).Stage? && Next(s, e).mode == Written
    ensures e.Stored? && e.ok
  {
    hide Coherent, Complete, AnswerOk, Acceptable, Reviewed, Executable, Demand, Alone, StartOk;
  }

  lemma CleanFrom(s: Stage, e: Event)
    requires s.Stage? && Right(s) && Next(s, e).Stage? && Next(s, e).mode.Over? && Next(s, e).mode.clean
    requires Next(s, e).now == Some(CloseMessage)
    ensures e == Ended(true) && Held(s.mode) && s.now == Next(s, e).now
  {
    hide Coherent, Complete, Adopts, Reviewed, Executable, Demand, Alone, StartOk;
  }

  lemma CloseFrom(s: Stage, e: Event)
    requires s.Stage? && Right(s) && Next(s, e).Stage? && Next(s, e).now == Some(CloseMessage)
    requires Held(Next(s, e).mode)
    ensures e == Received(CloseMessage)
  {
    hide Coherent, Complete, Adopts, Reviewed, Executable, Demand, Alone, StartOk;
  }

  /**
   What a session says last is true: a result is ready right after its file was written, and it is closed right
   after the client asked for that and, where a session was open, the browser closed it cleanly.
   */
  lemma LastWordsAreTrue(log: seq<Event>, k: nat)
    requires Track(log) != Wrong && k < |log| && log[k].Sent?
    ensures log[k].reply.ResultReady? ==> 0 < k && log[k - 1].Stored? && log[k - 1].ok
    ensures log[k].reply.Closed? ==>
              || (0 < k && log[k - 1] == Received(CloseMessage))
              || (1 < k && log[k - 1] == Ended(true) && log[k - 2] == Received(CloseMessage))
  {
    hide Next, Right;
    StageAt(log, k);
    AlwaysRight(log[..k]);
    var t := Track(log[..k]);
    SentNext(t, log[k]);
    FinalNeeds(t, log[k]);
    if log[k].reply.ResultReady? || log[k].reply.Closed? {
      LastStep(log[..k]);
      var s, e := Track(Front(log[..k])), Last(log[..k]);
      if t.mode == Written {
        WrittenFrom(s, e);
      } else if t.mode == Waiting {
        WaitingReceived(log[..k]);
      } else {
        CleanFrom(s, e);
        LastStep(Front(log[..k]));
        CloseFrom(Track(Front(Front(log[..k]))), Last(Front(log[..k])));
      }
    }
  }

  // The document.

  /** The diagnostic codes of the reports that were disclosed. */
  function CodesIn(log: seq<Event>): set<Code> {
    if log == [] then {}
    else CodesIn(log[..|log| - 1]) + if ReportAt(log, |log| - 1) then Elements(log[|log| - 2].raw.value.diagnostics) else {}
  }

  /** The contexts of the reports that were disclosed, and the popups of the executions that were reported as done. */
  function ContextsIn(log: seq<Event>): Table {
    if log == [] then map[]
    else
      var before, n := ContextsIn(log[..|log| - 1]), |log| - 1;
      if ReportAt(log, n) then before + log[n - 1].raw.value.contexts
      else if n > 0 && log[n].Sent? && log[n].reply.State? && log[n - 1].Ran? && log[n - 1].result.Some?
              && log[n - 1].result.value.popup.Some?
      then before[log[n - 1].result.value.popup.value.0 := log[n - 1].result.value.popup.value.1]
      else before
  }

  lemma ObservedKnowledge(s: Stage, o: Observation, ok: bool)
    requires s.Stage? && OnSent(s, Observed(o), ok).Stage?
    ensures Working(s.mode) && s.answer.LookAnswer? && s.answer.raw.Some?
    ensures OnSent(s, Observed(o), ok).f.diagnostics == s.f.diagnostics + Elements(s.answer.raw.value.diagnostics)
    ensures OnSent(s, Observed(o), ok).f.contexts == s.f.contexts + s.answer.raw.value.contexts
  {
    hide ReportOk, SuccessOn, MatchGoal, RecordsOf, Joinable;
  }

  lemma OtherKnowledge(s: Stage, m: ServerMessage, ok: bool)
    requires s.Stage? && OnSent(s, m, ok).Stage? && !m.Observed?
    ensures OnSent(s, m, ok).f.diagnostics == s.f.diagnostics
    ensures !(m.State? && s.answer.RunAnswer?) ==> OnSent(s, m, ok).f.contexts == s.f.contexts
    ensures m.State? ==> Working(s.mode) && s.now.Some?
  {
    hide Adopts, Reviewed, Executable, Demand, Addable, KindFits;
  }

  lemma QuietKnowledge(s: Stage, e: Event)
    requires s.Stage? && Right(s) && Next(s, e).Stage? && !e.Sent?
    ensures Next(s, e).f.diagnostics == s.f.diagnostics && Next(s, e).f.contexts == s.f.contexts
  {
    hide OnSent, Coherent, Complete, AnswerOk, Executable, Demand, Alone, StartOk;
  }

  lemma RunNeeds(s: Stage, e: Event)
    requires s.Stage? && Right(s) && Next(s, e).Stage? && e.Ran?
    ensures Next(s, e).answer.RunAnswer? && Next(s, e).answer.result == Timely(e.call, e.result)
  {
    hide Executable, Demand;
  }

  /** What a session knows of contexts and diagnostics is what was reported to it and disclosed. */
  lemma {:induction false} KnowledgeIsReported(log: seq<Event>)
    requires Track(log) != Wrong
    ensures Track(log).f.diagnostics == CodesIn(log) && Track(log).f.contexts == ContextsIn(log)
    decreases |log|
  {
    hide Next, Right;
    if log != [] {
      LastStep(log);
      KnowledgeIsReported(Front(log));
      var s, e := Track(Front(log)), Last(log);
      if !e.Sent? {
        QuietKnowledge(s, e);
      } else {
        SentNext(s, e);
        SentIs(s, e);
        if e.reply.Observed? {
          ObservedKnowledge(s, e.reply.observation, e.ok);
          LastStep(Front(log));
          AnswerFrom(Track(Front(Front(log))), Last(Front(log)));
        } else {
          OtherKnowledge(s, e.reply, e.ok);
          if e.reply.State? { StateKnowledge(log); }
        }
      }
    }
  }

  lemma SentIs(s: Stage, e: Event)
    requires s.Stage? && e.Sent?
    ensures Next(s, e) == OnSent(s, e.reply, e.ok)
  {
    hide OnSent;
  }

  lemma StateKnowledge(log: seq<Event>)
    requires Track(log) != Wrong && log != [] && Last(log).Sent? && Last(log).reply.State?
    requires Track(Front(log)).Stage? && Working(Track(Front(log)).mode) && Track(Front(log)).now.Some?
    requires !Track(Front(log)).answer.RunAnswer? ==> Track(log).f.contexts == Track(Front(log)).f.contexts
    ensures var n := |log| - 1;
            Track(log).f.contexts
            == if n > 0 && log[n - 1].Ran? && log[n - 1].result.Some? && log[n - 1].result.value.popup.Some?
               then Track(Front(log)).f.contexts[log[n - 1].result.value.popup.value.0 := log[n - 1].result.value.popup.value.1]
               else Track(Front(log)).f.contexts
  {
    hide Next, Right;
    LastStep(log);
    assert Front(log) != [];
    LastStep(Front(log));
    var t, d := Track(Front(Front(log))), Last(Front(log));
    AnswerFrom(t, d);
    if d.Ran? { RunNeeds(t, d); }
    if Track(Front(log)).answer.RunAnswer? { RunOutcome(Track(Front(log)), Last(log)); }
  }

  lemma LookAsks(s: Stage, e: Event)
    requires Next(s, e) != Wrong && e.Looked?
    ensures s.Stage? && Working(s.mode) && s.now.Some? && s.answer == NoAnswer
    ensures s.now.value.Observe? || (s.now.value.HumanComplete? && s.mode == Explore && s.f.proof.Some?)
    ensures match s.now.value
            case Observe(requested) =>
              && e.context == (if requested.Some? then requested.value else Main)
              && (e.context == Main || e.context in s.f.contexts)
              && s.f.observations < s.f.scope.bounds.maxObservations
            case HumanComplete(confirmed, outputs) =>
              confirmed && outputs.Some? && outputs.value != [] && e.context == s.f.proof.value.context
            case _ => true
  {
  }

  /**
   The browser is looked at only when the client just asked for it: at the context requested, known by then and
   within the limit of the start message, or, once it confirmed the goal and named outputs, at the context the goal
   was proved in.
   */
  lemma LooksAreAsked(log: seq<Event>, k: nat) returns (m: ClientMessage, j: nat)
    requires Track(log) != Wrong && k < |log| && log[k].Looked?
    ensures 0 < k && log[k - 1].Received? && StartOf(log[..k]) == Some(m) && m.Start?
    ensures match log[k - 1].message
            case Observe(requested) =>
              && log[k].context == (if requested.Some? then requested.value else Main)
              && (log[k].context == Main || log[k].context in ContextsIn(log[..k]))
              && Looks(log[..k]) < BoundsIn(m).maxObservations
            case HumanComplete(confirmed, outputs) =>
              && confirmed && outputs.Some? && outputs.value != []
              && Newest(log[..k], j) && log[k].context == log[j].reply.observation.context
              && exists n: nat, p: Proof :: ProvesGoal(m.goal, log[j].reply.observation, n, p)
            case _ => false
  {
    hide Next, Right, Fresh, ProvesGoal, SoundStart;
    j := 0;
    StageAt(log, k);
    var s := Track(log[..k]);
    LookAsks(s, log[k]);
    assert log[..k] != [];
    LastStep(log[..k]);
    AlwaysRight(log[..k]);
    ScopeKnown(s);
    ScopeIsStart(log[..k]);
    m := StartOf(log[..k]).value;
    StartIsStart(s.f, StartOf(log[..k]));
    if s.now.value.Observe? {
      NowFrom(Track(Front(log[..k])), Last(log[..k]));
      KnowledgeIsReported(log[..k]);
      CountIsLooks(log[..k]);
    } else {
      ConfirmSilent(Track(Front(log[..k])), Last(log[..k]));
      j := ProofIsFresh(log[..k]);
      FreshNewest(log[..k], j, s.f.scope.goal, s.f.proof.value);
      FreshProves(log[..k], j, s.f.scope.goal, s.f.proof.value);
      var n: nat :| ProvesGoal(m.goal, log[j].reply.observation, n, s.f.proof.value);
    }
  }

  // The selections a document carries are those of its completion.

  lemma SelectionsFrom(s: Stage, e: Event)
    requires s.Stage? && Right(s) && Next(s, e).Stage? && (Next(s, e).mode == Agreed || Next(s, e).mode == Over(true, true))
    ensures e == Sent(State(Completed), true)
            || ((s.mode == Agreed || s.mode == Over(true, true)) && Next(s, e).f.selections == s.f.selections)
  {
    hide Coherent, Complete, AnswerOk, Adopts, Reviewed, Executable, Demand, Alone, StartOk, Selections;
    if e.Sent? && e.reply.Observed? && Adopts(s, e.reply.observation) { AdoptsMeans(s, e.reply.observation); }
  }

  lemma {:induction false} SelectionsSince(log: seq<Event>) returns (c: nat)
    requires Track(log).Stage? && (Track(log).mode == Agreed || Track(log).mode == Over(true, true))
    ensures c < |log| && log[c] == Sent(State(Completed), true)
    ensures Track(log[..c + 1]).Stage? && Track(log[..c + 1]).f.selections == Track(log).f.selections
    decreases |log|
  {
    hide Next, Right;
    assert log != [];
    LastStep(log);
    SelectionsFrom(Track(Front(log)), Last(log));
    if Last(log) == Sent(State(Completed), true) {
      c := |log| - 1;
      assert log[..c + 1] == log;
    } else {
      c := SelectionsSince(Front(log));
      assert Front(log)[..c + 1] == log[..c + 1];
    }
  }

  /**
   What a stored document says is sound, and is what happened: its goal, first page, dashboard and limits are those
   of the start message, its contexts and diagnostics those reported, its goal proof that of the newest observation,
   its authentication proof success evidence on the first one that showed the dashboard, and its selections those
   proved at the completion.
   */
  lemma ResultsSayWhatHappened(log: seq<Event>, k: nat) returns (m: ClientMessage, g: nat, a: nat, c: nat, j: nat)
    requires Track(log) != Wrong && k < |log| && log[k].Stored?
    ensures var d := log[k].document;
            && StartOf(log[..k]) == Some(m) && SoundStart(m) && AuthorProfiles.SoundRequest(d)
            && d.titled && d.initial == m.url && d.dashboard == m.dashboard && d.goal == m.goal && d.bounds == BoundsIn(m)
            && d.origins == Approved(log[..k]) && d.contexts == ContextsIn(log[..k]) && d.diagnostics == CodesIn(log[..k])
            && Newest(log[..k], g) && (exists n: nat :: ProvesGoal(m.goal, log[g].reply.observation, n, d.goalProof))
            && ReportAt(log, a) && OnDashboardPage(m, log[a].reply.observation)
            && ProvesSuccess(m.goal, log[a].reply.observation, d.authentication)
            && c < k && log[c] == Sent(State(Completed), true) && 0 < c && (log[c - 1].Received? || 1 < c)
            && Confirmation(ConfirmationOf(log, c)) && Newest(log[..c], j)
            && SelectionsClaim(d.selections, ConfirmationOf(log, c).message.outputs.value, log[j].reply.observation,
                               log[j - 1].raw.value, log[j - 1].context,
                               if log[c - 1].Looked? then log[c - 1].raw else None, Looks(log[..c]))
  {
    hide Next, Right, Fresh, ProvesSuccess, ProvesGoal, SoundStart, SelectionsClaim, Confirmation, AuthorProfiles.SoundRequest,
         AuthorResult.Buildable;
    StoredIsSound(log, k);
    StageAt(log, k);
    var before := log[..k];
    var s := Track(before);
    StoreNeeds(s, log[k]);
    LastStep(before);
    AlwaysRight(before);
    ScopeKnown(s);
    ScopeIsStart(before);
    m := StartOf(before).value;
    StartIsStart(s.f, StartOf(before));
    OriginsAreApproved(before);
    KnowledgeIsReported(before);
    g := ProofIsFresh(before);
    FreshProves(before, g, s.f.scope.goal, s.f.proof.value);
    var first;
    a, first := ArrivalIsReported(before);
    assert before[..a] == log[..a];
    OneStart(before, a);
    c := SelectionsSince(before);
    assert before[..c + 1] == log[..c + 1] && before[..c] == log[..c];
    j := OutputsAreProved(log, c);
  }

  lemma StoredIsSound(log: seq<Event>, k: nat)
    requires Track(log) != Wrong && k < |log| && log[k].Stored?
    ensures AuthorProfiles.SoundRequest(log[k].document)
  {
    hide Next, Right, AuthorProfiles.SoundRequest, AuthorResult.Buildable;
    StageAt(log, k);
    StoreNeeds(Track(log[..k]), log[k]);
    AuthorProfiles.BuildableIff(log[k].document);
  }

  lemma ScopeKnown(s: Stage)
    requires Right(s) && s.Stage? && (Held(s.mode) || s.mode.Over?)
    ensures s.f.scope != NOWHERE
  {
    hide Forest, CandidatesOk, PendingOk, InputOk, ProofsOk, TraceFit, Complete, AnswerOk;
  }

  lemma {:induction false} StartedPast(log: seq<Event>)
    requires Track(log) != Wrong && StartOf(log).Some?
    ensures Track(log).mode != Silent && Track(log).mode != Waiting
    decreases |log|
  {
    hide Next, Right;
    LastStep(log);
    WaitingBefore(Track(Front(log)), Last(log));
    if Last(log).Opened? && Last(log).ok && InTime(Last(log).call) {
      OpenedIsHeld(Track(Front(log)), Last(log));
    } else {
      StartedPast(Front(log));
    }
  }

  lemma OpenedIsHeld(s: Stage, e: Event)
    requires Next(s, e).Stage? && e.Opened? && e.ok && InTime(e.call)
    ensures Next(s, e).mode == Auth
  {
  }

  /** A run has one start. */
  lemma {:induction false} OneStart(log: seq<Event>, a: nat)
    requires Track(log) != Wrong && a <= |log| && StartOf(log[..a]).Some?
    ensures StartOf(log) == StartOf(log[..a])
    decreases |log|
  {
    hide Next, Right;
    if a == |log| {
      assert log[..a] == log;
    } else {
      LastStep(log);
      assert Front(log)[..a] == log[..a];
      OneStart(Front(log), a);
      StartedPast(Front(log));
      WaitingBefore(Track(Front(log)), Last(log));
    }
  }

  lemma FreshProves(log: seq<Event>, g: nat, goal: Goal, p: Proof)
    requires Fresh(log, g, goal, p)
    ensures Newest(log, g) && exists n: nat :: ProvesGoal(goal, log[g].reply.observation, n, p)
  {
    hide ObservationOf, ProvesGoal, MatchGoal;
    GoalIff(goal, log[g].reply.observation, p);
  }
}
