/**
 What holds of every run of an authenticated author session: approvals come from the client and are
 used once, the trace and the goal proof are what the browser answered, contexts only grow, and a result
 is stored only after a confirmed goal and a clean close. All of it is stated over the log of what
 crossed the session's boundary.
 */
module AuthorTheorems {
  import opened Wrappers
  import opened PageText
  import opened Contexts
  import opened AuthorModel
  import opened AuthorLog
  import opened AuthorInvariant
  import AuthorResult

  function Front(log: seq<Event>): seq<Event>
    requires log != []
  {
    log[..|log| - 1]
  }

  function Last(log: seq<Event>): Event
    requires log != []
  {
    log[|log| - 1]
  }

  /** The last event of an accepted log leads from one right stage to the next. */
  lemma LastStep(log: seq<Event>)
    requires Track(log) != Wrong && log != []
    ensures Track(Front(log)) != Wrong && Right(Track(Front(log))) && Right(Track(log))
    ensures Track(log) == Next(Track(Front(log)), Last(log))
  {
    hide Next, Right;
    AlwaysRight(log);
    AlwaysRight(Front(log));
    WrongStays(Last(log));
  }

  // Where a stage comes from.

  /** An accepted approval is the receipt of its identifier, right after it was asked for. */
  lemma GrantFrom(s: Stage, e: Event)
    requires Right(s) && s.Stage? && Next(s, e).Stage?
    requires Next(s, e).f.granted.Some? && Next(s, e).answer == NoAnswer && Working(Next(s, e).mode)
    ensures s.now.None? && s.mode == Next(s, e).mode && s.f.pending == Next(s, e).f.granted
    ensures e == Received(Approve(s.f.pending.value.id))
  {
    hide Coherent, Complete, AnswerOk, Executable, Demand, Shown, ReportOk, Joinable, SuccessOn, MatchGoal, Reviewed;
  }

  /** A pending approval was shown to the client by the last message sent, and it could be written. */
  lemma PendingFrom(s: Stage, e: Event)
    requires Right(s) && s.Stage? && Next(s, e).Stage?
    requires Next(s, e).now.None? && Next(s, e).f.pending.Some? && Working(Next(s, e).mode)
    ensures e == Sent(Shown(Next(s, e).f.pending.value), true)
  {
    hide Coherent, Complete, AnswerOk, Executable, Shown, Reviewed;
  }

  /** The admission of an origin is the browser's answer to the approval just accepted. */
  lemma AdmissionFrom(s: Stage, e: Event)
    requires Right(s) && s.Stage? && Next(s, e).Stage?
    requires Next(s, e).f.granted.Some? && Next(s, e).answer == OriginAnswer(true) && Working(Next(s, e).mode)
    ensures s.f.granted == Next(s, e).f.granted && s.answer == NoAnswer && s.mode == Next(s, e).mode
    ensures s.f.granted.value.origin.Some? && e == AddedOrigin(s.f.granted.value.origin.value, true)
  {
    hide Coherent, Complete, AnswerOk, Executable, Demand, Shown, ReportOk, Joinable, SuccessOn, MatchGoal, Reviewed;
  }

  lemma AcceptedRecently(log: seq<Event>)
    requires Track(log).Stage? && Track(log).f.granted.Some? && Track(log).answer == NoAnswer && Working(Track(log).mode)
    ensures |log| > 1 && Last(log) == Received(Approve(Track(log).f.granted.value.id))
    ensures log[|log| - 2] == Sent(Shown(Track(log).f.granted.value), true)
  {
    hide Next, Right;
    LastStep(log);
    GrantFrom(Track(Front(log)), Last(log));
    assert Front(log) != [];
    LastStep(Front(log));
    PendingFrom(Track(Front(Front(log))), Last(Front(log)));
  }

  // Approvals.

  /**
   Every click that reaches the browser comes right after the client's acceptance of an action approval
   that was shown right before, for the candidate and budget of the client's last request; and it acts on
   the record the newest observation disclosed under that candidate.
   */
  lemma ClicksAreApproved(log: seq<Event>, k: nat)
    requires Track(log) != Wrong && k < |log| && log[k].Ran? && log[k].request.action == Click
    ensures k > 1 && log[k - 1].Received? && log[k - 1].message.Approve?
    ensures var r := log[k].request;
            log[k - 2] == Sent(ApprovalRequired(log[k - 1].message.id, ActionApproval, None, Click, r.candidate, r.postBudget), true)
            && LastExecute(log[..k]) == Some(r)
            && Track(log[..k]).Stage? && r.candidate in Track(log[..k]).f.candidates
            && log[k].target == Some(Track(log[..k]).f.candidates[r.candidate])
  {
    hide Next, Right;
    StageAt(log, k);
    var s := Track(log[..k]);
    AlwaysRight(log[..k]);
    ClickNeeds(s, log[k]);
    AcceptedRecently(log[..k]);
    AskedByClient(log[..k]);
  }

  lemma ClickNeeds(s: Stage, e: Event)
    requires Right(s) && Next(s, e) != Wrong && e.Ran? && e.request.action == Click
    ensures s.Stage? && s.f.granted.Some? && s.answer == NoAnswer && Working(s.mode)
    ensures e.request == s.f.granted.value.request && e.target == s.f.granted.value.target
    ensures s.f.granted.value.kind == ActionApproval && s.f.granted.value.origin.None?
    ensures e.request.candidate in s.f.candidates && e.target == Some(s.f.candidates[e.request.candidate])
  {
    hide Forest, CandidatesOk, InputOk, ProofsOk, TraceFit, Complete, Sound, Limited, AnswerOk;
  }

  function LastExecute(log: seq<Event>): Option<Request> {
    if log == [] then None
    else if Last(log).Received? && Last(log).message.Execute? then Some(Last(log).message.request)
    else LastExecute(Front(log))
  }

  /** What is asked for is the client's last request. */
  ghost predicate Traced(s: Stage, last: Option<Request>) {
    s.Stage? && Working(s.mode) ==>
      && (s.now.Some? && s.now.value.Execute? ==> last == Some(s.now.value.request))
      && (s.f.granted.Some? ==> last == Some(s.f.granted.value.request))
      && (s.now.None? && s.f.pending.Some? ==> last == Some(s.f.pending.value.request))
  }

  lemma TracedNext(s: Stage, e: Event, last: Option<Request>)
    requires Right(s) && Traced(s, last)
    ensures Traced(Next(s, e), if e.Received? && e.message.Execute? then Some(e.message.request) else last)
  {
    if e.Sent? {
      hide Right, Traced;
      TracedSent(s, e.reply, e.ok, last);
    } else {
      hide OnSent, Coherent, Complete, AnswerOk, Executable, Demand;
    }
  }

  lemma TracedSent(s: Stage, m: ServerMessage, ok: bool, last: Option<Request>)
    requires Right(s) && Traced(s, last)
    ensures Traced(OnSent(s, m, ok), last)
  {
    hide Coherent, Complete, AnswerOk, Shown, ReportOk, Joinable, SuccessOn, MatchGoal, Reviewed;
  }

  lemma {:induction false} AskedByClient(log: seq<Event>)
    requires Track(log) != Wrong
    ensures Traced(Track(log), LastExecute(log))
    decreases |log|
  {
    hide Next, Right, Traced;
    if log == [] {
      FirstTraced();
    } else {
      LastStep(log);
      AskedByClient(Front(log));
      TracedNext(Track(Front(log)), Last(log), LastExecute(Front(log)));
    }
  }

  lemma FirstTraced()
    ensures Traced(FIRST, None)
  {
  }

  /** Approval identifiers only grow. */
  lemma {:induction false} IdsGrow(log: seq<Event>, i: nat)
    requires Track(log).Stage? && i < |log| && log[i].Sent? && log[i].reply.ApprovalRequired?
    ensures log[i].reply.id <= Track(log).f.counter
    ensures i < |log| - 1 ==> Track(Front(log)).Stage? && log[i].reply.id <= Track(Front(log)).f.counter
    decreases |log|
  {
    hide Next, Right;
    LastStep(log);
    CounterFrom(Track(Front(log)), Last(log));
    if i < |log| - 1 {
      IdsGrow(Front(log), i);
    }
  }

  lemma CounterFrom(s: Stage, e: Event)
    requires s.Stage? && Right(s) && Next(s, e).Stage?
    ensures !e.Opened? ==> s.f.counter <= Next(s, e).f.counter
    ensures e.Opened? ==> s.f.counter == 0
    ensures e.Sent? && e.reply.ApprovalRequired? ==> s.f.counter < e.reply.id == Next(s, e).f.counter
  {
    hide Coherent, Complete, AnswerOk, ReportOk, Joinable, SuccessOn, MatchGoal, Reviewed, Executable;
  }

  /** No approval is used twice: two clicks were accepted under different identifiers. */
  lemma ApprovalsAreConsumed(log: seq<Event>, k: nat, l: nat)
    requires Track(log) != Wrong && k < l < |log|
    requires log[k].Ran? && log[k].request.action == Click && log[l].Ran? && log[l].request.action == Click
    ensures k > 0 && log[k - 1].Received? && log[l - 1].Received? && log[k - 1].message.Approve? && log[l - 1].message.Approve?
    ensures log[k - 1].message.id < log[l - 1].message.id
  {
    hide Next, Right, Track;
    ClicksAreApproved(log, k);
    ClicksAreApproved(log, l);
    PrefixRight(log, l - 1);
    IdsDiffer(log, k - 2, l - 2);
  }

  lemma IdsDiffer(log: seq<Event>, i: nat, j: nat)
    requires Track(log) != Wrong && i < j < |log|
    requires log[i].Sent? && log[i].reply.ApprovalRequired? && log[j].Sent? && log[j].reply.ApprovalRequired?
    ensures log[i].reply.id < log[j].reply.id
  {
    hide Next, Right;
    StageAt(log, j);
    IdsGrow(log[..j], i);
    AlwaysRight(log[..j]);
    CounterFrom(Track(log[..j]), log[j]);
  }

  /** An origin is admitted only right after the client accepted a request that showed it. */
  lemma AdmissionsAreApproved(log: seq<Event>, k: nat)
    requires Track(log) != Wrong && k < |log| && log[k].AddedOrigin?
    ensures k > 1 && log[k - 1].Received? && log[k - 1].message.Approve?
    ensures var m := log[k - 2];
            m.Sent? && m.ok && m.reply.ApprovalRequired? && m.reply.id == log[k - 1].message.id
            && m.reply.origin == Some(log[k].origin) && m.reply.kind != ActionApproval
  {
    hide Next, Right;
    StageAt(log, k);
    AdmitNeeds(Track(log[..k]), log[k]);
    AcceptedRecently(log[..k]);
  }

  lemma AdmitNeeds(s: Stage, e: Event)
    requires Next(s, e) != Wrong && e.AddedOrigin?
    ensures s.Stage? && s.f.granted.Some? && s.answer == NoAnswer && Working(s.mode)
    ensures s.f.granted.value.origin == Some(e.origin) && s.f.granted.value.kind != ActionApproval
  {
  }

  /**
   Every navigation was asked for by the client inside the approved origins, or comes right after its
   origin was admitted.
   */
  lemma NavigationsAreAllowed(log: seq<Event>, k: nat)
    requires Track(log) != Wrong && k < |log| && log[k].Ran? && log[k].request.action != Click
    ensures k > 0 && log[k].request.action == NavigateGet && log[k].request.url.Some? && log[k].request.url.value.Url?
    ensures Track(log[..k]).Stage? && log[k].request.url.value.origin in Track(log[..k]).f.origins
    ensures LastExecute(log[..k]) == Some(log[k].request)
    ensures log[k - 1] == Received(Execute(log[k].request)) || log[k - 1] == AddedOrigin(log[k].request.url.value.origin, true)
  {
    hide Next, Right;
    StageAt(log, k);
    var s := Track(log[..k]);
    AlwaysRight(log[..k]);
    NavigationNeeds(s, log[k]);
    AskedByClient(log[..k]);
    LastStep(log[..k]);
    var e := Last(log[..k]);
    if s.now.value.Execute? { ExecuteFrom(Track(Front(log[..k])), e); } else { AdmissionFrom(Track(Front(log[..k])), e); }
  }

  lemma NavigationNeeds(s: Stage, e: Event)
    requires Right(s) && Next(s, e) != Wrong && e.Ran? && e.request.action != Click
    ensures s.Stage? && Working(s.mode) && s.now.Some? && s != FIRST
    ensures e.request.action == NavigateGet && e.request.url.Some? && e.request.url.value.Url?
    ensures e.request.url.value.origin in s.f.origins
    ensures (s.now == Some(Execute(e.request)) && s.answer == NoAnswer && s.f.pending.None?)
            || (s.now.value.Approve? && s.f.granted.Some? && s.answer == OriginAnswer(true)
                && s.f.granted.value.origin == Some(e.request.url.value.origin) && s.f.granted.value.request == e.request)
  {
    hide Forest, CandidatesOk, InputOk, ProofsOk, TraceFit, Complete, Sound, Limited, AnswerOk;
  }

  lemma ExecuteFrom(s: Stage, e: Event)
    requires Right(s) && s.Stage? && Next(s, e).Stage? && Next(s, e).now.Some? && Next(s, e).now.value.Execute?
    requires Working(Next(s, e).mode) && Next(s, e).answer == NoAnswer
    ensures e == Received(Next(s, e).now.value)
  {
    hide Coherent, Complete, AnswerOk, Shown, ReportOk, Joinable, SuccessOn, MatchGoal, Reviewed, Executable;
  }

  // Origins.

  /** The origins of the session that was kept. */
  function StartIn(log: seq<Event>): set<Origin> {
    set e, o | e in log && e.Opened? && e.ok && InTime(e.call) && o in e.origins :: o
  }

  function AdmittedIn(log: seq<Event>): set<Origin> {
    set e | e in log && e.AddedOrigin? && e.ok :: e.origin
  }

  lemma OriginsFrom(s: Stage, e: Event)
    requires s.Stage? && Right(s) && Next(s, e).Stage?
    ensures e.Opened? && e.ok && InTime(e.call) ==> s.f.origins == {} && Next(s, e).f.origins == e.origins
    ensures e.AddedOrigin? && e.ok ==> Next(s, e).f.origins == s.f.origins + {e.origin}
    ensures !(e.Opened? && e.ok && InTime(e.call)) && !(e.AddedOrigin? && e.ok) ==> Next(s, e).f.origins == s.f.origins
  {
    hide Coherent, Complete, AnswerOk, Adopts, Reviewed, Executable, Alone;
  }

  /** The approved origins are always those the session started with and those admitted since. */
  lemma {:induction false} OriginsAreApproved(log: seq<Event>)
    requires Track(log) != Wrong
    ensures Track(log).f.origins == StartIn(log) + AdmittedIn(log)
    decreases |log|
  {
    hide Next, Right;
    if log != [] {
      LastStep(log);
      OriginsFrom(Track(Front(log)), Last(log));
      OriginsAreApproved(Front(log));
      OriginsAppend(log);
    }
  }

  lemma OriginsAppend(log: seq<Event>)
    requires log != []
    ensures var e := Last(log);
            && StartIn(log) == StartIn(Front(log)) + (if e.Opened? && e.ok && InTime(e.call) then e.origins else {})
            && AdmittedIn(log) == AdmittedIn(Front(log)) + (if e.AddedOrigin? && e.ok then {e.origin} else {})
  {
    assert log == Front(log) + [Last(log)];
    assert forall e :: e in log <==> e in Front(log) || e == Last(log);
  }


  /** Whatever runs stays within the origins approved at that moment. */
  lemma RunsStayInside(log: seq<Event>, k: nat)
    requires Track(log) != Wrong && k < |log| && log[k].Ran?
    ensures var allowed := StartIn(log[..k]) + AdmittedIn(log[..k]);
            && (log[k].request.action != Click ==>
                  log[k].request.url.Some? && log[k].request.url.value.Url? && log[k].request.url.value.origin in allowed)
            && (log[k].request.action == Click ==>
                  log[k].target.Some? && (log[k].target.value.target.Some? ==> log[k].target.value.target.value in allowed))
  {
    hide Next, Right;
    StageAt(log, k);
    OriginsAreApproved(log[..k]);
    AlwaysRight(log[..k]);
    if log[k].request.action == Click { ClickInside(Track(log[..k]), log[k]); } else { NavigationsAreAllowed(log, k); }
  }

  lemma ClickInside(s: Stage, e: Event)
    requires Right(s) && Next(s, e) != Wrong && e.Ran? && e.request.action == Click
    ensures s.Stage? && e.target.Some? && (e.target.value.target.Some? ==> e.target.value.target.value in s.f.origins)
  {
    hide Forest, CandidatesOk, InputOk, ProofsOk, TraceFit, Complete, Sound, Limited, AnswerOk;
  }

  // The trace.

  /** The execution or human input that the message at the end of the log reports as done. */
  ghost function StepOf(log: seq<Event>): seq<TraceStep>
    requires log != []
  {
    if |log| > 1 && Last(log).Sent? && Last(log).reply.State? then
      match log[|log| - 2]
      case Ran(r, target, _, result) =>
        if result.Some? then [RunStep(r, target, Last(log).reply.phase, result.value)] else []
      case Received(m) =>
        if m.HumanInputComplete? && Track(Front(log)).Stage? && Track(Front(log)).f.input.Some?
        then [HumanStep(Track(Front(log)).f.input.value, m.challenge)] else []
      case _ => []
    else []
  }

  ghost function StepsOf(log: seq<Event>): seq<TraceStep> {
    if log == [] then [] else StepsOf(Front(log)) + StepOf(log)
  }

  /** An answer is the browser's last one, as far as it came in time. */
  lemma AnswerFrom(s: Stage, e: Event)
    requires Right(s) && s.Stage? && Next(s, e).Stage? && Working(Next(s, e).mode)
    ensures var a := Next(s, e).answer;
            && (a.RunAnswer? ==> e.Ran? && e.request == a.request && e.target == a.target
                                 && a.result == Timely(e.call, e.result))
            && (a.LookAnswer? ==> e.Looked? && a.raw == Timely(e.call, e.raw))
            && (a.FocusAnswer? ==> e.Focused? && a.ok == (e.ok && InTime(e.call)))
  {
    hide Coherent, Complete, AnswerOk, Adopts, Reviewed, Executable, Demand;
  }

  lemma HumanFrom(s: Stage, e: Event)
    requires Right(s) && s.Stage? && Next(s, e).Stage? && Working(Next(s, e).mode)
    requires Next(s, e).now.Some? && Next(s, e).now.value.HumanInputComplete?
    ensures e == Received(Next(s, e).now.value)
  {
    hide Coherent, Complete, AnswerOk, Adopts, Reviewed, Executable, Demand, Alone;
  }

  lemma TraceFrom(s: Stage, e: Event)
    requires Right(s) && s.Stage? && Next(s, e).Stage?
    ensures e.Sent? && e.reply.State? && Succeeds(s) ==>
              Next(s, e).f.trace == s.f.trace + [RunStep(s.answer.request, s.answer.target, e.reply.phase, s.answer.result.value)]
    ensures e.Sent? && e.reply.State? && CompletesInput(s) ==>
              Next(s, e).f.trace == s.f.trace + [HumanStep(s.f.input.value, s.now.value.challenge)]
    ensures !(e.Sent? && e.reply.State? && (Succeeds(s) || CompletesInput(s))) ==> Next(s, e).f.trace == s.f.trace
    ensures e.Sent? && e.reply.State? ==>
              Working(s.mode) && s.now.Some?
              && (s.now.value.HumanInputComplete? ==> CompletesInput(s)) && (s.answer.RunAnswer? ==> Succeeds(s))
              && (!CompletesInput(s) ==> !s.now.value.HumanInputComplete?)
  {
    hide Coherent, Complete, AnswerOk, Adopts, Reviewed, Executable, Demand, Addable, KindFits;
  }

  /** The trace is exactly the executions the browser answered and the inputs the client completed, as reported. */
  lemma {:induction false} TraceIsHistory(log: seq<Event>)
    requires Track(log) != Wrong
    ensures Track(log).f.trace == StepsOf(log)
    decreases |log|
  {
    hide Next, Right;
    if log != [] {
      LastStep(log);
      TraceIsHistory(Front(log));
      StepIs(log);
    }
  }

  lemma StepIs(log: seq<Event>)
    requires Track(log) != Wrong && log != []
    ensures Track(Front(log)).Stage? && Track(log).f.trace == Track(Front(log)).f.trace + StepOf(log)
  {
    hide Next, Right, Succeeds, CompletesInput;
    LastStep(log);
    var s, e := Track(Front(log)), Last(log);
    TraceFrom(s, e);
    if e.Sent? && e.reply.State? {
      StateNeeds(s, e);
      LastStep(Front(log));
      var t, d := Track(Front(Front(log))), Last(Front(log));
      AnswerFrom(t, d);
      if s.now.value.HumanInputComplete? { HumanFrom(t, d); }
      SucceedsMeans(s);
      Recorded(t, d);
    }
  }

  lemma StateNeeds(s: Stage, e: Event)
    requires s.Stage? && Next(s, e).Stage? && e.Sent? && e.reply.State?
    ensures Working(s.mode) && s != FIRST && s.now.Some?
  {
    hide Adopts, Reviewed, Executable, Demand, Addable, KindFits;
  }

  lemma Recorded(s: Stage, e: Event)
    requires s.Stage? && Next(s, e).Stage?
    ensures e.Ran? ==> Next(s, e).answer == RunAnswer(e.request, e.target, Timely(e.call, e.result))
    ensures e.Received? ==> Next(s, e).now == Some(e.message) && Next(s, e).answer == NoAnswer
    ensures e.Looked? ==> Next(s, e).answer == LookAnswer(Timely(e.call, e.raw))
  {
    hide Outcome;
  }

  lemma SucceedsMeans(s: Stage)
    ensures Succeeds(s) ==> s.Stage? && s.answer.RunAnswer? && s.answer.result.Some?
    ensures CompletesInput(s) ==> s.Stage? && s.now.Some? && s.now.value.HumanInputComplete? && s.f.input.Some?
  {
  }

  // Phases.

  lemma StepsFrom(s: Stage, e: Event, n: nat)
    requires s.Stage? && Right(s) && Next(s, e).Stage? && Ordered(s.f.trace, n)
    requires s.mode == Auth ==> n == |s.f.trace|
    ensures var k := if s.mode == Auth then |Next(s, e).f.trace| else n;
            Ordered(Next(s, e).f.trace, k) && (Next(s, e).mode == Auth ==> k == |Next(s, e).f.trace|)
  {
    if e.Sent? {
      hide Right, Ordered;
      StepsSent(s, e.reply, e.ok, n);
    } else {
      hide OnSent, Coherent, Complete, AnswerOk, Alone, Executable, Demand;
    }
  }

  lemma StepsSent(s: Stage, m: ServerMessage, ok: bool, n: nat)
    requires s.Stage? && Right(s) && OnSent(s, m, ok).Stage? && Ordered(s.f.trace, n)
    requires s.mode == Auth ==> n == |s.f.trace|
    ensures var t := OnSent(s, m, ok); var k := if s.mode == Auth then |t.f.trace| else n;
            Ordered(t.f.trace, k) && (t.mode == Auth ==> k == |t.f.trace|)
  {
    hide Coherent, Complete, Adopts, Reviewed, Executable, Demand, Addable, KindFits, Arriving;
    if m.Observed? && Adopts(s, m.observation) { AdoptsMeans(s, m.observation); }
  }

  /** Every authentication step precedes every exploration step, and no human input follows the dashboard. */
  lemma {:induction false} AuthenticationComesFirst(log: seq<Event>) returns (n: nat)
    requires Track(log) != Wrong
    ensures Ordered(Track(log).f.trace, n) && (Track(log).mode == Auth ==> n == |Track(log).f.trace|)
    decreases |log|
  {
    hide Next, Right, Ordered;
    n := 0;
    if log == [] {
      NoSteps();
    } else {
      LastStep(log);
      n := AuthenticationComesFirst(Front(log));
      StepsFrom(Track(Front(log)), Last(log), n);
      if Track(Front(log)).mode == Auth { n := |Track(log).f.trace|; }
    }
  }

  lemma NoSteps()
    ensures Ordered([], 0)
  {
  }

  // Contexts.

  lemma ContextsFrom(s: Stage, e: Event)
    requires s.Stage? && Right(s) && Next(s, e).Stage?
    ensures Within(s.f.contexts, Next(s, e).f.contexts)
  {
    if e.Sent? {
      hide Right, Within;
      ContextsSent(s, e.reply, e.ok);
    } else {
      hide OnSent, Coherent, Complete, AnswerOk, Alone, Executable, Demand;
    }
  }

  lemma ContextsSent(s: Stage, m: ServerMessage, ok: bool)
    requires s.Stage? && Right(s) && OnSent(s, m, ok).Stage?
    ensures Within(s.f.contexts, OnSent(s, m, ok).f.contexts)
  {
    hide Right, Adopts, CompletesInput, Completes, Prompts, Asks, Within;
    WithinItself(s.f.contexts);
    if m.Observed? {
      if Adopts(s, m.observation) { AdoptsJoins(s, m.observation); }
    } else if m.State? && Succeeds(s) {
      SucceedsAdds(s);
    }
  }

  lemma AdoptsJoins(s: Stage, o: Observation)
    requires Adopts(s, o)
    ensures s.Stage? && s.answer.LookAnswer? && s.answer.raw.Some?
    ensures Within(s.f.contexts, s.f.contexts + s.answer.raw.value.contexts)
  {
    hide ReportOk, SuccessOn, ObservationOf, Forest;
  }

  lemma SucceedsAdds(s: Stage)
    requires Succeeds(s)
    ensures s.answer.RunAnswer? && s.answer.result.Some?
    ensures Within(s.f.contexts, WithPopup(s.f.contexts, s.answer.result.value))
  {
    hide ContextOk, Reaches;
  }

  /** A context never changes or disappears once it is known, and the known ones are always a forest. */
  lemma {:induction false} ContextsOnlyGrow(log: seq<Event>, i: nat)
    requires Track(log) != Wrong && i <= |log|
    ensures Track(log[..i]).Stage? && Within(Track(log[..i]).f.contexts, Track(log).f.contexts)
    ensures Track(log).f != NOTHING ==> Forest(Track(log).f.origins, Track(log).f.contexts)
    decreases |log|
  {
    hide Next, Right, Within, Forest;
    AlwaysRight(log);
    RightForest(Track(log));
    if i == |log| {
      assert log[..i] == log;
      WithinItself(Track(log).f.contexts);
    } else {
      LastStep(log);
      ContextsOnlyGrow(Front(log), i);
      assert Front(log)[..i] == log[..i];
      ContextsFrom(Track(Front(log)), Last(log));
      WithinThrough(Track(log[..i]).f.contexts, Track(Front(log)).f.contexts, Track(log).f.contexts);
    }
  }

  lemma RightForest(s: Stage)
    requires Right(s)
    ensures s.Stage? && s.f != NOTHING ==> Forest(s.f.origins, s.f.contexts)
  {
    hide Forest;
  }

  lemma WithinItself(m: Table)
    ensures Within(m, m)
  {
  }

  lemma WithinThrough(a: Table, b: Table, c: Table)
    requires Within(a, b) && Within(b, c)
    ensures Within(a, c)
  {
  }

  // The goal.

  /** The proof is of the last observation sent, which is what the browser then reported in time; nothing ran since. */
  ghost predicate Fresh(log: seq<Event>, k: nat, g: Goal, p: Proof) {
    && 0 < k < |log| && log[k].Sent? && log[k].reply.Observed?
    && log[k - 1].Looked? && InTime(log[k - 1].call) && log[k - 1].raw.Some? && Track(log[..k]).Stage?
    && log[k].reply.observation == ObservationOf(log[k - 1].raw.value, Track(log[..k]).f.observations, log[k - 1].context)
    && MatchGoal(g, log[k].reply.observation) == Some(p)
    && forall j | k < j < |log| :: !log[j].Ran? && !(log[j].Sent? && log[j].reply.Observed?)
  }

  lemma ProofFrom(s: Stage, e: Event)
    requires s.Stage? && Right(s) && Next(s, e).Stage? && Next(s, e).f.proof.Some?
    ensures if e.Sent? && e.reply.Observed?
            then Adopts(s, e.reply.observation) && Next(s, e).f.scope == s.f.scope
                 && Next(s, e).f.proof == MatchGoal(s.f.scope.goal, e.reply.observation)
            else !e.Ran? && Next(s, e).f.proof == s.f.proof && Next(s, e).f.scope == s.f.scope
  {
    if e.Sent? {
      hide Right, OnSent, MatchGoal;
      ProofSent(s, e.reply, e.ok);
    } else {
      hide OnSent, Coherent, Complete, AnswerOk, Executable, Alone, MatchGoal;
    }
  }

  lemma ProofSent(s: Stage, m: ServerMessage, ok: bool)
    requires s.Stage? && Right(s) && OnSent(s, m, ok).Stage? && OnSent(s, m, ok).f.proof.Some?
    ensures OnSent(s, m, ok).f.scope == s.f.scope
    ensures m.Observed? ==> Adopts(s, m.observation) && OnSent(s, m, ok).f.proof == MatchGoal(s.f.scope.goal, m.observation)
    ensures !m.Observed? ==> OnSent(s, m, ok).f.proof == s.f.proof
  {
    hide Coherent, Complete, AnswerOk, Adopts, Adopted, Reviewed, Executable, Alone, MatchGoal;
    if m.Observed? && Adopts(s, m.observation) { AdoptedProof(s, m.observation); }
  }

  lemma AdoptedProof(s: Stage, o: Observation)
    requires Adopts(s, o)
    ensures Handling(s) && s.now.value.Observe? && s.answer.LookAnswer? && s.answer.raw.Some?
    ensures Adopted(s).scope == s.f.scope && Adopted(s).proof == MatchGoal(s.f.scope.goal, o)
  {
    hide Acceptable, MatchGoal;
  }

  lemma LookedFor(s: Stage, e: Event)
    requires s.Stage? && Next(s, e).Stage? && e.Looked?
    ensures Next(s, e).now == s.now && s.now.Some? && (s.now.value.Observe? ==> e.context == Target(s.now.value.context))
  {
  }

  lemma AdoptsMeans(s: Stage, o: Observation)
    requires Adopts(s, o)
    ensures Handling(s) && s.now.value.Observe? && Working(s.mode) && s.answer.LookAnswer? && s.answer.raw.Some?
    ensures o == ObservationOf(s.answer.raw.value, s.f.observations, Target(s.now.value.context))
  {
  }

  /** An observation sent is the reduction of what the browser just reported in time for the context asked for. */
  lemma ObservationsAreReports(log: seq<Event>, k: nat)
    requires Track(log) != Wrong && k < |log| && log[k].Sent? && log[k].reply.Observed?
    ensures k > 0 && log[k - 1].Looked? && InTime(log[k - 1].call) && log[k - 1].raw.Some? && Track(log[..k]).Stage?
    ensures log[k].reply.observation
            == ObservationOf(log[k - 1].raw.value, Track(log[..k]).f.observations, log[k - 1].context)
  {
    hide Next, Right, Adopts;
    StageAt(log, k);
    var s := Track(log[..k]);
    ObservedNeeds(s, log[k]);
    AdoptsMeans(s, log[k].reply.observation);
    LastStep(log[..k]);
    AnswerFrom(Track(Front(log[..k])), Last(log[..k]));
    LookedFor(Track(Front(log[..k])), Last(log[..k]));
  }

  lemma ObservedNeeds(s: Stage, e: Event)
    requires Next(s, e) != Wrong && e.Sent? && e.reply.Observed?
    ensures Adopts(s, e.reply.observation) && s != FIRST
  {
    hide Adopts;
    if Adopts(s, e.reply.observation) { AdoptsMeans(s, e.reply.observation); }
  }

  /** A standing goal proof is that of the newest observation, and nothing ran since. */
  lemma {:induction false} ProofIsFresh(log: seq<Event>) returns (k: nat)
    requires Track(log).Stage? && Track(log).f.proof.Some?
    ensures Fresh(log, k, Track(log).f.scope.goal, Track(log).f.proof.value)
    decreases |log|
  {
    hide Next, Right, Adopts, MatchGoal, ObservationOf;
    assert log != [];
    LastStep(log);
    var s, e := Track(Front(log)), Last(log);
    ProofFrom(s, e);
    if e.Sent? && e.reply.Observed? {
      k := |log| - 1;
      ObservationsAreReports(log, k);
    } else {
      k := ProofIsFresh(Front(log));
      assert Front(log)[..k] == log[..k];
    }
  }

  // The result.

  lemma AgreedFrom(s: Stage, e: Event)
    requires s.Stage? && Right(s) && Next(s, e).Stage? && Next(s, e).mode == Agreed
    ensures s.mode == Agreed || (e == Sent(State(Completed), true) && s.mode == Explore && s.now.Some?
                                 && s.now.value.HumanComplete? && s.now.value.confirmed && s.now.value.outputs.Some?)
  {
    hide Coherent, Complete, AnswerOk, Adopts, Reviewed, Executable, Demand, Alone;
  }

  lemma ConfirmFrom(s: Stage, e: Event)
    requires s.Stage? && Right(s) && Next(s, e).Stage? && Next(s, e).mode == Explore
    requires Next(s, e).now.Some? && Next(s, e).now.value.HumanComplete?
    ensures e == Received(Next(s, e).now.value)
            || (e.Looked? && s.mode == Explore && s.now == Next(s, e).now && s.answer == NoAnswer)
  {
    hide Coherent, Complete, AnswerOk, Adopts, Reviewed, Executable, Demand;
  }

  lemma ConfirmSilent(s: Stage, e: Event)
    requires s.Stage? && Right(s) && Next(s, e).Stage? && Next(s, e).mode == Explore && Next(s, e).answer == NoAnswer
    requires Next(s, e).now.Some? && Next(s, e).now.value.HumanComplete?
    ensures e == Received(Next(s, e).now.value)
  {
    hide Coherent, Complete, AnswerOk, Adopts, Reviewed, Executable, Demand;
  }

  /** Event c reports a completion that the client confirmed in the message just before, or before one more look. */
  predicate ConfirmedAt(log: seq<Event>, c: nat) {
    && 0 < c < |log| && log[c] == Sent(State(Completed), true)
    && (Confirmation(log[c - 1]) || (c > 1 && log[c - 1].Looked? && Confirmation(log[c - 2])))
  }

  predicate Confirmation(e: Event) {
    e.Received? && e.message.HumanComplete? && e.message.confirmed && e.message.outputs.Some?
  }

  lemma {:induction false} AgreementIsConfirmed(log: seq<Event>) returns (c: nat)
    requires Track(log).Stage? && Track(log).mode == Agreed
    ensures ConfirmedAt(log, c)
    decreases |log|
  {
    hide Next, Right;
    LastStep(log);
    AgreedFrom(Track(Front(log)), Last(log));
    if Track(Front(log)).mode == Agreed {
      c := AgreementIsConfirmed(Front(log));
    } else {
      c := |log| - 1;
      var before := Front(log);
      LastStep(before);
      ConfirmFrom(Track(Front(before)), Last(before));
      if Last(before).Looked? {
        LastStep(Front(before));
        ConfirmSilent(Track(Front(Front(before))), Last(Front(before)));
      }
    }
  }

  lemma OverFrom(s: Stage, e: Event)
    requires s.Stage? && Right(s) && Next(s, e).Stage? && Next(s, e).mode == Over(true, true)
    ensures e == Ended(true) && s.mode == Agreed && Next(s, e).now == s.now && Next(s, e).f == s.f
  {
    hide Coherent, Complete, AnswerOk, Adopts, Reviewed, Executable, Demand, Alone;
    if e.Sent? && e.reply.Observed? && Adopts(s, e.reply.observation) { AdoptsMeans(s, e.reply.observation); }
  }

  lemma FinishFrom(s: Stage, e: Event)
    requires s.Stage? && Right(s) && Next(s, e).Stage? && Next(s, e).mode == Agreed && Next(s, e).now == Some(Finish)
    ensures e == Received(Finish)
  {
    hide Coherent, Complete, AnswerOk, Adopts, Reviewed, Executable, Demand, Alone;
  }

  /**
   A result is stored right after a clean close that the client asked for, once the client confirmed the
   goal; it carries the goal proof, and nothing was executed between the observation that proved the goal
   and that close. Trace and origins are those of the log.
   */
  lemma ResultsAreFresh(log: seq<Event>, k: nat) returns (c: nat, j: nat)
    requires Track(log) != Wrong && k < |log| && log[k].Stored?
    ensures k > 1 && log[k - 1] == Ended(true) && log[k - 2] == Received(Finish) && ConfirmedAt(log[..k], c)
    ensures Fresh(log[..k], j, log[k].document.goal, log[k].document.goalProof)
    ensures log[k].document.trace == StepsOf(log[..k]) && log[k].document.origins == StartIn(log[..k]) + AdmittedIn(log[..k])
  {
    hide Next, Right, Fresh;
    StageAt(log, k);
    var before := log[..k];
    StoreNeeds(Track(before), log[k]);
    LastStep(before);
    OverFrom(Track(Front(before)), Last(before));
    LastStep(Front(before));
    FinishFrom(Track(Front(Front(before))), Last(Front(before)));
    c := AgreementIsConfirmed(Front(before));
    j := ProofIsFresh(before);
    TraceIsHistory(before);
    OriginsAreApproved(before);
  }

  lemma StoreNeeds(s: Stage, e: Event)
    requires Next(s, e) != Wrong && e.Stored?
    ensures s.Stage? && s.mode == Over(true, true) && s.now == Some(Finish) && s.f.proof.Some? && s.f.arrival.Some?
    ensures e.document == RequestOf(s.f) && AuthorResult.Buildable(e.document)
  {
    hide AuthorResult.Buildable;
  }
}
