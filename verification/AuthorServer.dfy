/**
 The server of an authenticated author session, handler by handler, and the loop that serves it. World
 stands for everything outside: the client, the browser, the output and the private directory, with one
 log of what crosses the boundary. Every handler keeps that log one the log machine accepts.
 */
module AuthorServer {
  import opened Wrappers
  import opened PageText
  import opened Contexts
  import opened AuthorModel
  import opened AuthorResult
  import opened AuthorLog
  import opened AuthorInvariant
  import opened AuthorTeardown
  import AuthorReports

  function Messages(log: seq<Event>): seq<ClientMessage> {
    if log == [] then []
    else Messages(log[..|log| - 1]) + if log[|log| - 1].Received? then [log[|log| - 1].message] else []
  }

  lemma MessagesNext(log: seq<Event>, e: Event)
    ensures Messages(log + [e]) == Messages(log) + if e.Received? then [e.message] else []
  {
    assert (log + [e])[..|log|] == log;
  }

  /** The outside answers as it likes; it is only ever called where the log machine allows it. */
  class World {
    ghost var log: seq<Event>
    ghost var stage: Stage
    ghost var messages: seq<ClientMessage>

    ghost predicate Orderly()
      reads this
    {
      stage == Track(log) && stage != Wrong && messages == Messages(log)
    }

    constructor ()
      ensures Orderly() && log == []
    {
      log, stage, messages := [], FIRST, [];
    }

    /** A session that comes without an error comes at all. */
    method Open(url: Url, origins: set<Origin>, budget: int) returns (session: bool, ok: bool, elapsed: nat)
      requires Orderly() && MayOpen(stage, url, origins)
      modifies this`log, this`stage
      ensures Orderly() && (ok ==> session)
      ensures stage == OnOpened(old(stage), url, origins, Call(budget, elapsed), session, ok)
      ensures log == old(log) + [Opened(url, origins, Call(budget, elapsed), session, ok)]
    {
      hide Track, MayOpen;
      session, ok, elapsed := *, *, *;
      ok := ok && session;
      ghost var e := Opened(url, origins, Call(budget, elapsed), session, ok);
      TrackNext(log, e);
      MessagesNext(log, e);
      log, stage := log + [e], OnOpened(stage, url, origins, Call(budget, elapsed), session, ok);
    }

    method Observe(context: ContextId, budget: int) returns (raw: Option<RawObservation>, elapsed: nat)
      requires Orderly() && MayLook(stage, context)
      modifies this`log, this`stage
      ensures Orderly() && stage == OnLooked(old(stage), context, Call(budget, elapsed), raw)
      ensures log == old(log) + [Looked(context, Call(budget, elapsed), raw)]
    {
      hide Track, MayLook;
      raw, elapsed := *, *;
      ghost var e := Looked(context, Call(budget, elapsed), raw);
      TrackNext(log, e);
      MessagesNext(log, e);
      log, stage := log + [e], OnLooked(stage, context, Call(budget, elapsed), raw);
    }

    method Focus(target: Record, budget: int) returns (ok: bool, elapsed: nat)
      requires Orderly() && MayFocus(stage, target)
      modifies this`log, this`stage
      ensures Orderly() && stage == OnFocused(old(stage), target, Call(budget, elapsed), ok)
      ensures log == old(log) + [Focused(target, Call(budget, elapsed), ok)]
    {
      hide Track, MayFocus;
      ok, elapsed := *, *;
      ghost var e := Focused(target, Call(budget, elapsed), ok);
      TrackNext(log, e);
      MessagesNext(log, e);
      log, stage := log + [e], OnFocused(stage, target, Call(budget, elapsed), ok);
    }

    method Execute(r: Request, target: Option<Record>, budget: int) returns (result: Option<Execution>, elapsed: nat)
      requires Orderly() && MayRun(stage, r, target)
      modifies this`log, this`stage
      ensures Orderly() && stage == OnRan(old(stage), r, target, Call(budget, elapsed), result)
      ensures log == old(log) + [Ran(r, target, Call(budget, elapsed), result)]
    {
      hide Track, MayRun;
      result, elapsed := *, *;
      ghost var e := Ran(r, target, Call(budget, elapsed), result);
      TrackNext(log, e);
      MessagesNext(log, e);
      log, stage := log + [e], OnRan(stage, r, target, Call(budget, elapsed), result);
    }

    method AddOrigin(o: Origin) returns (ok: bool)
      requires Orderly() && MayAdmit(stage, o)
      modifies this`log, this`stage
      ensures Orderly() && stage == OnAddedOrigin(old(stage), o, ok)
      ensures log == old(log) + [AddedOrigin(o, ok)]
    {
      hide Track, MayAdmit;
      ok := *;
      TrackNext(log, AddedOrigin(o, ok));
      MessagesNext(log, AddedOrigin(o, ok));
      log, stage := log + [AddedOrigin(o, ok)], OnAddedOrigin(stage, o, ok);
    }

    method Close() returns (clean: bool)
      requires Orderly() && MayEnd(stage)
      modifies this`log, this`stage
      ensures Orderly() && stage == OnEnded(old(stage), clean) && log == old(log) + [Ended(clean)]
    {
      hide Track;
      clean := *;
      TrackNext(log, Ended(clean));
      MessagesNext(log, Ended(clean));
      log, stage := log + [Ended(clean)], OnEnded(stage, clean);
    }

    method Store(r: BuildRequest) returns (ok: bool)
      requires Orderly() && MayStore(stage, r)
      modifies this`log, this`stage
      ensures Orderly() && stage == OnStored(old(stage), r, ok) && log == old(log) + [Stored(r, ok)]
    {
      hide Track, MayStore;
      ok := *;
      TrackNext(log, Stored(r, ok));
      MessagesNext(log, Stored(r, ok));
      log, stage := log + [Stored(r, ok)], OnStored(stage, r, ok);
    }

    method Write(m: ServerMessage) returns (ok: bool)
      requires Orderly() && Outcome(stage, m) != Wrong
      modifies this`log, this`stage
      ensures Orderly() && stage == OnSent(old(stage), m, ok) && log == old(log) + [Sent(m, ok)]
      ensures if ok then stage == Outcome(old(stage), m) else stage.mode == Cut
    {
      hide Track, Outcome;
      ok := *;
      TrackNext(log, Sent(m, ok));
      MessagesNext(log, Sent(m, ok));
      log, stage := log + [Sent(m, ok)], OnSent(stage, m, ok);
    }

    ghost method Receive(m: ClientMessage)
      requires Orderly() && MayReceive(stage)
      modifies this
      ensures Orderly() && stage == OnReceived(old(stage), m)
      ensures log == old(log) + [Received(m)] && messages == old(messages) + [m]
    {
      hide Track;
      TrackNext(log, Received(m));
      MessagesNext(log, Received(m));
      log, stage, messages := log + [Received(m)], OnReceived(stage, m), messages + [m];
    }
  }

  /** A longer log, with nothing stored since. */
  predicate Extends(before: seq<Event>, log: seq<Event>) {
    before <= log && forall k | |before| <= k < |log| :: !log[k].Stored?
  }

  lemma LookHeld(s: Stage, context: ContextId)
    requires MayLook(s, context)
    ensures s.Stage? && Held(s.mode) && s.now.Some?
  {
  }

  lemma StartedOutcome(s: Stage)
    requires s.Stage? && s.mode == Auth && s.now.Some? && s.now.value.Start? && s.answer.OpenAnswer?
    ensures Outcome(s, State(Authentication)) == Stage(Auth, None, NoAnswer, s.f)
  {
  }

  class Server {
    const world: World
    var session: bool
    var closed: bool
    var phase: Phase
    var scope: Scope
    var origins: set<Origin>
    var contexts: Table
    var candidates: map<Id, Record>
    var observations: int
    var diagnostics: set<Code>
    var counter: nat
    var pending: Option<Pending>
    var input: Option<Input>
    var trace: seq<TraceStep>
    var goalProof: Option<Proof>
    var authProof: Option<Proof>
    var selections: seq<Selection>
    var remaining: int

    function ModeOf(): Mode
      reads this`phase
    {
      if phase == AwaitingStart then Waiting else if phase == Exploration then Explore
      else if phase == Completed then Agreed else Auth
    }

    ghost function FactsNow(granted: Option<Pending>): Facts
      reads this`scope, this`origins, this`contexts, this`candidates, this`observations, this`diagnostics, this`counter,
            this`pending, this`input, this`trace, this`goalProof, this`authProof, this`selections
    {
      Facts(scope, origins, contexts, candidates, observations, diagnostics, counter, pending, granted, input,
            trace, goalProof, authProof, selections)
    }

    predicate PhaseOk()
      reads this`phase, this`input
    {
      && (phase == AwaitingStart || phase == Authentication || phase == HumanInput || phase == Exploration || phase == Completed)
      && (phase == HumanInput <==> input.Some?)
    }

    /** The fields are what the log says, and a session is held exactly from start to close. */
    ghost predicate At(now: Option<ClientMessage>, answer: Answer, granted: Option<Pending>)
      reads this, world
    {
      && world.Orderly() && !closed && PhaseOk() && (session <==> Held(ModeOf()))
      && world.stage == Stage(ModeOf(), now, answer, FactsNow(granted))
    }

    /** Between messages. */
    ghost predicate Steady()
      reads this, world
    {
      At(None, NoAnswer, None)
    }

    /** The run is complete. */
    ghost predicate Gone()
      reads this, world
    {
      world.Orderly() && Final(world.stage.mode)
    }

    constructor (world: World)
      requires world.Orderly() && world.stage == Stage(Waiting, None, NoAnswer, NOTHING)
      ensures Steady() && this.world == world
    {
      this.world := world;
      session, closed, phase, scope := false, false, AwaitingStart, NOWHERE;
      origins, contexts, candidates, observations, diagnostics := {}, map[], map[], 0, {};
      counter, pending, input, trace := 0, None, None, [];
      goalProof, authProof, selections, remaining := None, None, [], 0;
    }

    /** Fails closed: the session, if any, is closed and nothing follows. */
    method Fail()
      requires world.Orderly() && (session <==> Held(world.stage.mode)) && (session || Ending(world.stage))
      modifies this`session, this`closed, world`log, world`stage
      ensures Extends(old(world.log), world.log)
      ensures Gone() && closed
    {
      hide Outcome, Track;
      if session {
        session := false;
        var clean := world.Close();
      }
      closed := true;
      EndOutcome(world.stage);
      var ok := world.Write(Diagnostic);
    }

    /** Reports the outcome that the fields already show; a report that cannot be written ends the run. */
    method Report(m: ServerMessage) returns (ok: bool)
      requires world.Orderly() && !closed && PhaseOk() && (session <==> Held(ModeOf()))
      requires Outcome(world.stage, m) == Stage(ModeOf(), None, NoAnswer, FactsNow(None))
      modifies world`log, world`stage
      ensures Extends(old(world.log), world.log)
      ensures if ok then Steady() else Gone()
      ensures world.log == old(world.log) + [Sent(m, ok)]
    {
      hide Outcome, Track;
      ok := world.Write(m);
    }

    method BeginActive() returns (ok: bool)
      ensures ok ==> remaining > 0
    {
      var cancelled: bool := *;
      ok := !cancelled && remaining > 0;
    }

    /** Charges a call to the active-time budget; an answer after the deadline does not count. */
    method EndActive(elapsed: nat, done: bool) returns (ok: bool)
      requires remaining > 0
      modifies this`remaining
      ensures ok <==> done && InTime(Call(old(remaining), elapsed))
      ensures remaining == if InTime(Call(old(remaining), elapsed)) then old(remaining) - elapsed else 0
    {
      if elapsed >= remaining {
        remaining := 0;
        ok := false;
      } else {
        remaining := remaining - elapsed;
        ok := done;
      }
    }

    // Start.

    method StartSession(m: ClientMessage) returns (ok: bool)
      requires m.Start? && phase == AwaitingStart && At(Some(m), NoAnswer, None)
      modifies this, world`log, world`stage
      ensures Extends(old(world.log), world.log)
      ensures if ok then Steady() && phase == Authentication && FactsNow(None) == Started(m) else Gone()
      ensures !closed ==> StartOk(m) && |old(world.log)| < |world.log| && Keeps(world.log[|old(world.log)|])
    {
      hide StartOk, Outcome, Track, World.Orderly;
      NothingKnown(m);
      var clock: bool := *;
      if !StartOk(m) || !clock { Fail(); return false; }
      Configure(m);
      ok := OpenSession(m);
      if !ok { Fail(); return false; }
      phase := Authentication;
      StartedOutcome(world.stage);
      ok := Report(State(phase));
    }

    lemma NothingKnown(m: ClientMessage)
      requires phase == AwaitingStart && At(Some(m), NoAnswer, None)
      ensures FactsNow(None) == NOTHING
    {
      hide Track, Right;
      AlwaysRight(world.log);
      WaitingKnowsNothing(world.stage);
    }

    method Configure(m: ClientMessage)
      requires m.Start? && FactsNow(None) == NOTHING
      modifies this`scope, this`origins, this`remaining
      ensures FactsNow(None) == Started(m)
    {
      scope := Scope(m.titled, m.url, m.dashboard, m.goal, BoundsOf(m));
      origins, remaining := Elements(m.origins), scope.bounds.totalTimeoutMS;
    }

    /** A session that comes with an error or too late is forgotten, not closed. */
    method OpenSession(m: ClientMessage) returns (ok: bool)
      requires m.Start? && StartOk(m) && !session && FactsNow(None) == Started(m)
      requires world.Orderly() && world.stage == Stage(Waiting, Some(m), NoAnswer, NOTHING)
      modifies this`session, this`remaining, world`log, world`stage
      ensures Extends(old(world.log), world.log)
      ensures world.Orderly() && session == ok
      ensures if ok then world.stage == Stage(Auth, Some(m), OpenAnswer, Started(m)) else Ending(world.stage)
      ensures ok ==> |old(world.log)| < |world.log| && Keeps(world.log[|old(world.log)|])
    {
      hide StartOk;
      ok := BeginActive();
      if !ok { return; }
      var budget := remaining;
      var came, elapsed;
      came, ok, elapsed := world.Open(scope.initial, origins, budget);
      ok := EndActive(elapsed, ok);
      session := ok;
    }

    // Observation.

    /** Looks at a context within the budget; None is no timely answer. */
    method LookAt(context: ContextId) returns (raw: Option<RawObservation>)
      requires world.Orderly() && MayLook(world.stage, context)
      modifies this`remaining, world`log, world`stage
      ensures Extends(old(world.log), world.log)
      ensures world.Orderly() && Held(world.stage.mode)
      ensures raw.Some? ==> world.stage == AfterLook(old(world.stage), raw)
      ensures raw.Some? ==> old(world.log) < world.log && world.log[|old(world.log)|].Looked?
                            && raw == Timely(world.log[|old(world.log)|].call, world.log[|old(world.log)|].raw)
    {
      hide MayLook;
      LookHeld(world.stage, context);
      raw := None;
      var ok := BeginActive();
      if ok {
        var budget := remaining;
        var elapsed;
        raw, elapsed := world.Observe(context, budget);
        ok := EndActive(elapsed, raw.Some?);
        if !ok { raw := None; }
      }
    }

    /** The reduction of a report: refused unless it is admissible, else each candidate under an identifier of its own. */
    method Reduce(raw: RawObservation, context: ContextId) returns (ok: bool, o: Observation, records: map<Id, Record>)
      ensures ok <==> Admissible(origins, scope.bounds, raw, context)
      ensures ok ==> o == ObservationOf(raw, observations, context)
                     && records == RecordsOf(raw.candidates, observations, context)
      ensures ok ==> AuthorReports.Lists(o, raw, context, observations)
                     && (forall id <- records :: AuthorReports.RecordIs(records[id], id, o, raw, context))
                     && forall n | 0 <= n < |o.candidates| :: o.candidates[n].id in records
    {
      hide AuthorReports.Lists, AuthorReports.RecordIs;
      o, records := Observation(raw.origin, raw.path, context, []), map[];
      if !raw.origin.exact || raw.origin !in origins || !raw.path.disclosable
         || (raw.context.Some? && raw.context.value != context) || |raw.candidates| > scope.bounds.maxCandidates {
        return false, o, records;
      }
      for k := 0 to |raw.candidates|
        invariant o == Observation(raw.origin, raw.path, context, CandidatesOf(raw.candidates[..k], observations, context))
        invariant records == RecordsOf(raw.candidates[..k], observations, context)
        invariant forall j | 0 <= j < k :: Reportable(scope.bounds, raw.candidates[j])
      {
        var c := raw.candidates[k];
        assert raw.candidates[..k + 1][..k] == raw.candidates[..k] && c in raw.candidates;
        if !c.handle || !PortableRole(c.role) || c.matches < 1 || c.matches > scope.bounds.maxCandidates
           || !InputKindOk(c.input) || !ChallengesOk(c.input, c.challenges) {
          return false, o, records;
        }
        var id := CandidateId(observations, context, c.role, c.name, k);
        var candidate := Candidate(id, c.role, c.name, c.matches);
        o := o.(candidates := o.candidates + [candidate]);
        records := records[id := Record(candidate, c.input, Elements(c.challenges), c.target, context)];
      }
      assert raw.candidates[..|raw.candidates|] == raw.candidates;
      AuthorReports.ObservationLists(raw, observations, context);
      AuthorReports.RecordsFit(raw, observations, context);
      ok := true;
    }

    /** A report is reduced and its diagnostics are collected. */
    method ReduceObservation(raw: RawObservation, context: ContextId)
      returns (ok: bool, o: Observation, records: map<Id, Record>)
      requires |diagnostics| <= MAX_DIAGNOSTICS
      modifies this`diagnostics
      ensures ok <==> ReportOk(origins, scope.bounds, raw, context)
                      && |old(diagnostics) + Elements(raw.diagnostics)| <= MAX_DIAGNOSTICS
      ensures ok ==> o == ObservationOf(raw, observations, context)
                     && records == RecordsOf(raw.candidates, observations, context)
                     && diagnostics == old(diagnostics) + Elements(raw.diagnostics)
    {
      hide Admissible, ObservationOf, RecordsOf;
      ok, o, records := Reduce(raw, context);
      if ok { ok := CollectDiagnostics(raw.diagnostics); }
    }

    /** Adds the diagnostic codes of a report, up to the limit. */
    method CollectDiagnostics(codes: seq<Code>) returns (ok: bool)
      requires |diagnostics| <= MAX_DIAGNOSTICS
      modifies this`diagnostics
      ensures ok <==> (forall d <- codes :: d.shaped) && |old(diagnostics) + Elements(codes)| <= MAX_DIAGNOSTICS
      ensures ok ==> diagnostics == old(diagnostics) + Elements(codes)
    {
      hide Elements;
      NoElements(codes);
      for k := 0 to |codes|
        invariant diagnostics == old(diagnostics) + Elements(codes[..k]) && |diagnostics| <= MAX_DIAGNOSTICS
        invariant forall j | 0 <= j < k :: codes[j].shaped
      {
        MoreElements(codes, k);
        if !codes[k].shaped { return false; }
        if codes[k] !in diagnostics {
          if |diagnostics| >= MAX_DIAGNOSTICS {
            TooMany(old(diagnostics), codes, k);
            return false;
          }
          diagnostics := diagnostics + {codes[k]};
        }
      }
      assert codes[..|codes|] == codes;
      ok := true;
    }

    /**
     Success evidence on the dashboard: the goal if it matches, else the best disclosed unique candidate,
     provided no other candidate repeats its role and name.
     */
    method SuccessProof(o: Observation) returns (proof: Option<Proof>)
      ensures proof == SuccessOn(scope.goal, o)
    {
      hide Matching;
      proof := MatchGoal(scope.goal, o);
      if proof.Some? { return; }
      var best := FindBest(o.candidates);
      if best.Some? {
        var c := o.candidates[best.value];
        var matches := 0;
        for i := 0 to |o.candidates|
          invariant matches == Repeats(o.candidates, c, i)
        {
          if o.candidates[i].role == c.role && o.candidates[i].name == c.name {
            matches := matches + o.candidates[i].matches;
          }
        }
        if matches == 1 { proof := Some(Proof(o.origin, o.path, o.context, c.role, c.name)); }
      }
    }

    /**
     Observation of a known context: what the browser reports replaces every candidate, joins the known
     contexts, and decides the goal proof; reaching the dashboard ends authentication.
     */
    method ObserveContext(requested: Option<ContextId>) returns (ok: bool, ghost raw: Option<RawObservation>)
      requires (phase == Authentication || phase == Exploration) && pending.None?
      requires At(Some(Observe(requested)), NoAnswer, None)
      modifies this, world`log, world`stage
      ensures Extends(old(world.log), world.log)
      ensures if ok then Steady() else Gone()
      ensures ok ==> old(world.log) < world.log && world.log[|old(world.log)|].Looked? && raw.Some?
                     && raw == Timely(world.log[|old(world.log)|].call, world.log[|old(world.log)|].raw)
      ensures ok ==> var f := old(FactsNow(None)).(observations := old(observations) + 1);
                     && Acceptable(f, old(phase), raw.value, Target(requested))
                     && FactsNow(None) == Taken(f, old(phase), raw.value, Target(requested))
                     && phase == PhaseAfter(f, old(phase), raw.value, Target(requested))
      ensures !closed <==> raw.Some? && Acceptable(old(FactsNow(None)).(observations := old(observations) + 1), old(phase),
                                                   raw.value, Target(requested))
    {
      hide Outcome, Track, Right, Coherent, Acceptable, Taken, PhaseAfter;
      AlwaysRight(world.log);
      RightFacts(world.stage);
      raw := None;
      var context := Target(requested);
      if !Known(contexts, context) { Fail(); return false, None; }
      observations := observations + 1;
      if observations > scope.bounds.maxObservations { Fail(); return false, None; }
      var look := LookAt(context);
      raw := look;
      if look.None? { Fail(); return false, None; }
      CountedCoherent(old(FactsNow(None)));
      ok := Adopt(requested, look.value);
    }

    /** What has been looked at, with nothing made of it yet. */
    ghost predicate Looking(requested: Option<ContextId>, raw: RawObservation)
      reads this, world
    {
      && At(Some(Observe(requested)), LookAnswer(Some(raw)), None) && Coherent(FactsNow(None))
      && (phase == Authentication || phase == Exploration) && pending.None?
    }

    method Adopt(requested: Option<ContextId>, raw: RawObservation) returns (ok: bool)
      requires Looking(requested, raw)
      modifies this, world`log, world`stage
      ensures Extends(old(world.log), world.log)
      ensures if ok then Steady() else Gone()
      ensures ok ==> old(world.log) < world.log && Acceptable(old(FactsNow(None)), old(phase), raw, Target(requested))
                     && FactsNow(None) == Taken(old(FactsNow(None)), old(phase), raw, Target(requested))
                     && phase == PhaseAfter(old(FactsNow(None)), old(phase), raw, Target(requested))
      ensures !closed <==> Acceptable(old(FactsNow(None)), old(phase), raw, Target(requested))
    {
      hide Outcome, Track, ReportOk, Joinable, SuccessOn, MatchGoal, ObservationOf, OnDashboard, Acceptable, Taken, PhaseAfter;
      ghost var s, f := world.stage, FactsNow(None);
      CoherentParts(f);
      var o;
      ok, o := TakeReport(raw, Target(requested));
      if !ok { Fail(); return; }
      ObservedOutcome(s, old(phase), raw);
      ok := Report(Observed(o));
      if ok && phase == Exploration && goalProof.Some? {
        DueOutcome(world.stage);
        ok := Report(CompletionDue);
      }
    }

    /** Takes a report: everything it changes, or a refusal. */
    method TakeReport(raw: RawObservation, context: ContextId) returns (ok: bool, o: Observation)
      requires (phase == Authentication || phase == Exploration)
      requires |diagnostics| <= MAX_DIAGNOSTICS && Forest(origins, contexts)
      modifies this`contexts, this`candidates, this`diagnostics, this`authProof, this`goalProof, this`phase
      ensures ok <==> Acceptable(old(FactsNow(None)), old(phase), raw, context)
      ensures ok ==> o == ObservationOf(raw, observations, context)
                     && FactsNow(None) == Taken(old(FactsNow(None)), old(phase), raw, context)
                     && phase == PhaseAfter(old(FactsNow(None)), old(phase), raw, context)
      ensures phase == Authentication || phase == Exploration
    {
      hide Joinable, SuccessOn, MatchGoal, ObservationOf, OnDashboard, Forest, RecordsOf, Elements, Acceptable, Arrival;
      ok, o := JoinReport(raw, context);
    }

    method JoinReport(raw: RawObservation, context: ContextId) returns (ok: bool, o: Observation)
      requires (phase == Authentication || phase == Exploration)
      requires |diagnostics| <= MAX_DIAGNOSTICS && Forest(origins, contexts)
      modifies this`contexts, this`candidates, this`diagnostics, this`authProof, this`goalProof, this`phase
      ensures ok <==> Acceptable(old(FactsNow(None)), old(phase), raw, context)
      ensures ok ==> o == ObservationOf(raw, observations, context)
                     && phase == PhaseAfter(old(FactsNow(None)), old(phase), raw, context)
                     && contexts == old(contexts) + raw.contexts
                     && candidates == RecordsOf(raw.candidates, observations, context)
                     && diagnostics == old(diagnostics) + Elements(raw.diagnostics)
                     && goalProof == MatchGoal(scope.goal, o)
                     && authProof == (if Arrival(old(FactsNow(None)), old(phase), raw, context)
                                      then SuccessOn(scope.goal, o) else old(authProof))
      ensures phase == Authentication || phase == Exploration
    {
      hide ReportOk, Joinable, SuccessOn, MatchGoal, ObservationOf, OnDashboard, Forest, RecordsOf;
      var records, added;
      ok, o, records := ReduceObservation(raw, context);
      if !ok { return; }
      ok, added := AddContexts(origins, contexts, raw.contexts);
      if !ok { return; }
      contexts, candidates := added, records;
      ok := Arrive(o);
      if !ok { return; }
      goalProof := MatchGoal(scope.goal, o);
    }

    /** Reaching the dashboard ends authentication, given success evidence. */
    method Arrive(o: Observation) returns (ok: bool)
      requires phase == Authentication || phase == Exploration
      modifies this`authProof, this`phase
      ensures var arriving := old(phase) == Authentication && OnDashboard(scope.dashboard, o);
              && (ok <==> arriving ==> SuccessOn(scope.goal, o).Some?)
              && phase == (if arriving && ok then Exploration else old(phase))
              && authProof == (if arriving && ok then SuccessOn(scope.goal, o) else old(authProof))
    {
      if phase == Authentication && OnDashboard(scope.dashboard, o) {
        var proof := SuccessProof(o);
        if proof.None? { return false; }
        authProof, phase := proof, Exploration;
      }
      ok := true;
    }

    // Human input.

    /** A focused input that only a human may fill; nothing of what is typed reaches the session. */
    method Focus(id: Id) returns (ok: bool)
      requires phase == Authentication && pending.None? && At(Some(FocusHumanInput(id)), NoAnswer, None)
      modifies this, world`log, world`stage
      ensures Extends(old(world.log), world.log)
      ensures if ok then Steady() else Gone()
      ensures ok ==> phase == HumanInput && id in candidates && Typable(candidates[id])
                     && FactsNow(None) == old(FactsNow(None)).(input := Some(InputFor(id, candidates[id])))
      ensures !closed ==> id in candidates && Typable(candidates[id])
      ensures id in candidates && Typable(candidates[id]) && candidates[id].input == MfaInput ==> !closed
    {
      hide Outcome, Track, ChallengeKinds, World.Orderly;
      if id !in candidates || candidates[id].input == NoInput || candidates[id].candidate.matches != 1 {
        Fail();
        return false;
      }
      var record := candidates[id];
      if record.input != MfaInput {
        ok := FocusOn(record);
        if !ok { Fail(); return; }
      }
      ok := Await(id, record);
    }

    /** Waits for the human to fill an input. */
    method Await(id: Id, record: Record) returns (ok: bool)
      requires phase == Authentication && pending.None? && id in candidates && record == candidates[id] && Typable(record)
      requires world.stage.Stage? && (record.input == MfaInput || world.stage.answer == FocusAnswer(true))
      requires At(Some(FocusHumanInput(id)), world.stage.answer, None)
      modifies this`input, this`phase, world`log, world`stage
      ensures Extends(old(world.log), world.log)
      ensures if ok then Steady() else Gone()
      ensures ok ==> phase == HumanInput && input == Some(InputFor(id, record))
      ensures !closed
    {
      hide Outcome, Track, ChallengeKinds, World.Orderly;
      PromptOutcome(world.stage);
      var i := InputFor(id, record);
      input, phase := Some(i), HumanInput;
      ok := Report(PromptOf(i));
    }

    method FocusOn(target: Record) returns (ok: bool)
      requires world.Orderly() && MayFocus(world.stage, target)
      modifies this`remaining, world`log, world`stage
      ensures Extends(old(world.log), world.log)
      ensures world.Orderly() && Held(world.stage.mode)
      ensures ok ==> world.stage == old(world.stage).(answer := FocusAnswer(true))
    {
      ok := BeginActive();
      if ok {
        var budget := remaining;
        var elapsed;
        ok, elapsed := world.Focus(target, budget);
        ok := EndActive(elapsed, ok);
      }
    }

    /** The reviewed challenge kind of the pending input is traced, never a value. */
    method CompleteHumanInput(id: Id, challenge: Challenge) returns (ok: bool)
      requires phase == HumanInput && pending.None? && At(Some(HumanInputComplete(id, challenge)), NoAnswer, None)
      modifies this, world`log, world`stage
      ensures Extends(old(world.log), world.log)
      ensures if ok then Steady() else Gone()
      ensures ok ==> phase == Authentication && old(input).Some? && id == old(input).value.candidate
                     && KindFits(old(input).value, challenge)
                     && FactsNow(None) == old(FactsNow(None)).(
                          trace := old(trace) + [HumanStep(old(input).value, challenge)], input := None)
      ensures !closed <==> old(input).Some? && id != NoId && id == old(input).value.candidate
                           && KindFits(old(input).value, challenge)
    {
      hide Outcome, Track;
      if input.None? || id == NoId || id != input.value.candidate { Fail(); return false; }
      var i := input.value;
      if i.kinds == {} && challenge != NoChallenge { Fail(); return false; }
      if i.kinds != {} && challenge !in i.kinds { Fail(); return false; }
      HumanOutcome(world.stage);
      trace, input, phase := trace + [HumanStep(i, challenge)], None, Authentication;
      ok := Report(State(phase));
    }

    // Execution.

    lemma ForestNow(now: Option<ClientMessage>, answer: Answer, granted: Option<Pending>)
      requires At(now, answer, granted) && session
      ensures Forest(origins, contexts)
    {
      hide Right, Track, Coherent, Alone;
      AlwaysRight(world.log);
      RightFacts(world.stage);
      CoherentParts(world.stage.f);
    }

    /** The browser answered, within the POST budget, and a popup it opened can be added. */
    predicate Kept(f: Facts, r: Request, e: Option<Execution>) {
      && e.Some? && 0 <= e.value.posts <= r.postBudget
      && (e.value.popup.Some? ==> Addable(f.origins, f.contexts, e.value.popup.value.0, e.value.popup.value.1))
    }

    /** An execution that is kept is traced, and its popup known; the goal proof is gone; nothing else changed. */
    ghost predicate Executed(before: Facts, r: Request, target: Option<Record>, e: Option<Execution>)
      reads this
    {
      && Kept(before, r, e)
      && FactsNow(None) == before.(proof := None, trace := before.trace + [RunStep(r, target, phase, e.value)],
                                   contexts := WithPopup(before.contexts, e.value))
    }

    /** Executes what the log machine admits; `e` is the browser's timely answer. Unless it is kept the session closes. */
    method Run(r: Request, target: Option<Record>, ghost now: ClientMessage, ghost answer: Answer,
               ghost granted: Option<Pending>)
      returns (ok: bool, ghost e: Option<Execution>)
      requires (phase == Authentication || phase == Exploration) && pending.None?
      requires At(Some(now), answer, granted) && MayRun(world.stage, r, target)
      modifies this, world`log, world`stage
      ensures Extends(old(world.log), world.log)
      ensures if ok then Steady() else Gone()
      ensures !closed <==> Kept(old(FactsNow(None)), r, e)
      ensures ok ==> phase == old(phase) && Executed(old(FactsNow(None)), r, target, e)
      ensures e.Some? ==> old(world.log) < world.log && RanLast(world.log[|old(world.log)|], r, target, e)
    {
      hide Outcome, Track, MayRun, Addable, Forest, RunStep, WithPopup, World.Orderly, RanLast;
      ForestNow(Some(now), answer, granted);
      RunHeld(world.stage, r, target);
      goalProof := None;
      var answered := ExecuteTimely(r, target);
      e := answered;
      if answered.None? || answered.value.posts < 0 || answered.value.posts > r.postBudget { Fail(); return false, e; }
      ok := Conclude(r, target, answered.value, now);
    }

    /** Traces and reports an execution within its budget. */
    method Conclude(r: Request, target: Option<Record>, e: Execution, ghost now: ClientMessage) returns (ok: bool)
      requires (phase == Authentication || phase == Exploration) && pending.None? && Forest(origins, contexts)
      requires goalProof.None? && 0 <= e.posts <= r.postBudget && (now.Execute? || now.Approve?)
      requires At(Some(now), RunAnswer(r, target, Some(e)), None)
      modifies this, world`log, world`stage
      ensures Extends(old(world.log), world.log)
      ensures if ok then Steady() else Gone()
      ensures !closed <==> Kept(old(FactsNow(None)), r, Some(e))
      ensures ok ==> phase == old(phase) && Executed(old(FactsNow(None)), r, target, Some(e))
    {
      hide Outcome, Track, Addable, Forest, RunStep, WithPopup, World.Orderly;
      ghost var s := world.stage;
      ok := TraceRun(r, target, e);
      if !ok { Fail(); return; }
      RunOutcome(s);
      ok := Report(State(phase));
    }

    predicate RanLast(event: Event, r: Request, target: Option<Record>, e: Option<Execution>) {
      event.Ran? && event.request == r && event.target == target && Timely(event.call, event.result) == e
    }

    method ExecuteTimely(r: Request, target: Option<Record>) returns (e: Option<Execution>)
      requires world.Orderly() && MayRun(world.stage, r, target)
      modifies this`remaining, world`log, world`stage
      ensures Extends(old(world.log), world.log)
      ensures world.Orderly() && world.stage.Stage? && world.stage.mode == old(world.stage).mode
      ensures e.Some? ==> world.stage == Stage(old(world.stage).mode, old(world.stage).now, RunAnswer(r, target, e),
                                               old(world.stage).f.(granted := None, proof := None))
      ensures e.Some? ==> old(world.log) < world.log && RanLast(world.log[|old(world.log)|], r, target, e)
    {
      hide MayRun;
      RunHeld(world.stage, r, target);
      e := None;
      var ok := BeginActive();
      if ok {
        var budget := remaining;
        var elapsed;
        e, elapsed := world.Execute(r, target, budget);
        ok := EndActive(elapsed, e.Some?);
        if !ok { e := None; }
      }
    }

    /** Traces an execution that kept its budget, with the popup it opened, if that can be added. */
    method TraceRun(r: Request, target: Option<Record>, e: Execution) returns (ok: bool)
      requires Forest(origins, contexts)
      modifies this`trace, this`contexts
      ensures ok <==> e.popup.Some? ==> Addable(origins, old(contexts), e.popup.value.0, e.popup.value.1)
      ensures ok ==> contexts == WithPopup(old(contexts), e) && trace == old(trace) + [RunStep(r, target, phase, e)]
    {
      hide Forest, Addable;
      var step := TraceStep(if r.action == Click then ClickKind else NavigateKind, phase, r.candidate, ContextOf(r, target),
                            if target.Some? then target.value.candidate.role else OtherRole(""),
                            if target.Some? then target.value.candidate.name else NoLabel,
                            NoInput, NoChallenge, r.url, r.postBudget, e.posts, None);
      if e.popup.Some? {
        var table;
        ok, table := AddContext(origins, contexts, e.popup.value.0, e.popup.value.1);
        if !ok { return; }
        contexts := table;
        step := step.(opens := Some(e.popup.value.0));
      }
      trace := trace + [step];
      ok := true;
    }

    /**
     A request that passes its checks: a navigation inside the approved origins runs at once; anything else
     is put to the client under a new identifier and nothing is done.
     */
    method RequestExecute(r: Request, ghost now: ClientMessage, ghost answer: Answer, ghost granted: Option<Pending>)
      returns (ok: bool, ghost e: Option<Execution>)
      requires (phase == Authentication || phase == Exploration) && pending.None?
      requires At(Some(now), answer, granted) && AskedFor(world.stage) == Some(r) && (granted.Some? ==> r.action == Click)
      modifies this, world`log, world`stage
      ensures Extends(old(world.log), world.log)
      ensures if ok then Steady() else Gone()
      ensures ok ==> var f := old(FactsNow(None));
                     && phase == old(phase) && Executable(f, r)
                     && if Demand(f, r).None? then Executed(f, r, None, e)
                        else FactsNow(None) == f.(pending := Demand(f, r), counter := f.counter + 1)
      ensures !closed ==> Executable(old(FactsNow(None)), r)
      ensures Executable(old(FactsNow(None)), r) && Demand(old(FactsNow(None)), r).Some? ==>
                (!closed <==> old(counter) < MAX_APPROVALS)
    {
      hide Outcome, Track, World.Orderly, Executed, MayRun;
      e := None;
      match r.action {
        case NavigateGet =>
          if r.candidate != NoId || r.url.None? || r.postBudget != 0 || !Known(contexts, ContextOf(r, None))
             || r.url.value.BadUrl? || !r.url.value.origin.exact {
            Fail();
            return false, e;
          }
          if r.url.value.origin !in origins {
            ok := RequireApproval(OriginApproval, r, Some(r.url.value.origin), None, now, answer, granted);
          } else {
            DirectRun(world.stage, r);
            ok, e := Run(r, None, now, answer, granted);
          }
        case Click =>
          if r.url.Some? || r.candidate !in candidates || candidates[r.candidate].candidate.matches != 1
             || r.postBudget < 0 || r.postBudget > 32
             || (r.context.Some? && r.context.value != candidates[r.candidate].context) {
            Fail();
            return false, e;
          }
          var record := candidates[r.candidate];
          if record.target.Some? && !record.target.value.exact { Fail(); return false, e; }
          if record.target.Some? && record.target.value !in origins {
            ok := RequireApproval(OriginActionApproval, r, record.target, Some(record), now, answer, granted);
          } else {
            ok := RequireApproval(ActionApproval, r, None, Some(record), now, answer, granted);
          }
        case OtherAction(_) =>
          Fail();
          return false, e;
      }
    }

    /** Puts a request to the client under the next identifier. */
    method RequireApproval(kind: Kind, r: Request, origin: Option<Origin>, target: Option<Record>,
                           ghost now: ClientMessage, ghost answer: Answer, ghost granted: Option<Pending>) returns (ok: bool)
      requires (phase == Authentication || phase == Exploration) && pending.None?
      requires At(Some(now), answer, granted) && AskedFor(world.stage) == Some(r) && Executable(FactsNow(None), r)
      requires Demand(FactsNow(None), r) == Some(Pending(counter + 1, kind, r, origin, target))
      modifies this, world`log, world`stage
      ensures Extends(old(world.log), world.log)
      ensures if ok then Steady() else Gone()
      ensures ok ==> phase == old(phase) && FactsNow(None) == old(FactsNow(None)).(
                       pending := Some(Pending(old(counter) + 1, kind, r, origin, target)), counter := old(counter) + 1)
      ensures !closed <==> old(counter) < MAX_APPROVALS
    {
      hide Outcome, Track, World.Orderly, Executable, Demand, AskedFor;
      if counter >= MAX_APPROVALS { Fail(); return false; }
      var p := Pending(counter + 1, kind, r, origin, target);
      DemandSame(FactsNow(granted), FactsNow(None), r);
      AskOutcome(world.stage);
      counter, pending := p.id, Some(p);
      ok := Report(Shown(p));
    }

    /** The message has been received and nothing done about it: accepting an approval consumes it on receipt. */
    ghost predicate Told(m: ClientMessage)
      reads this, world
    {
      && world.Orderly() && !closed && PhaseOk() && (session <==> Held(ModeOf()))
      && world.stage == Stage(ModeOf(), Some(m), NoAnswer, Granted(FactsNow(None), m))
    }

    /** What accepting p leads to, from the facts without it. */
    ghost predicate Approved(p: Pending, f: Facts, e: Option<Execution>)
      reads this
    {
      match p.kind
      case ActionApproval => Executed(f, p.request, p.target, e)
      case OriginApproval =>
        p.origin.Some? && Executed(f.(origins := f.origins + {p.origin.value}), p.request, None, e)
      case OriginActionApproval =>
        && p.origin.Some?
        && FactsNow(None) == f.(origins := f.origins + {p.origin.value}, counter := f.counter + 1,
                                pending := Some(Pending(f.counter + 1, ActionApproval, p.request, None, p.target)))
    }

    /**
     The approval that is pending, and no other, is consumed: its request runs, or a new origin leads to
     the approval of the action itself.
     */
    method ApprovePending(id: nat) returns (ok: bool, ghost e: Option<Execution>)
      requires (phase == Authentication || phase == Exploration) && Told(Approve(id))
      modifies this, world`log, world`stage
      ensures Extends(old(world.log), world.log)
      ensures if ok then Steady() else Gone()
      ensures ok ==> old(pending).Some? && id == old(pending).value.id && phase == old(phase)
                     && Approved(old(pending).value, old(FactsNow(None)).(pending := None), e)
      ensures old(pending).None? || id != old(pending).value.id ==> closed
    {
      hide Outcome, Track, World.Orderly, Approved, Right, Coherent;
      e := None;
      if pending.None? || id != pending.value.id { Fail(); return false, e; }
      var p := pending.value;
      GrantedOk(p, id);
      pending := None;
      ok, e := Perform(p);
    }

    lemma GrantedOk(p: Pending, id: nat)
      requires Told(Approve(id)) && pending == Some(p) && p.id == id && session
      ensures PendingOk(contexts, candidates, origins, counter, p)
    {
      hide Right, Track, PendingOk;
      AlwaysRight(world.log);
      RightFacts(world.stage);
      GrantOk(world.stage.f);
    }

    method Perform(p: Pending) returns (ok: bool, ghost e: Option<Execution>)
      requires (phase == Authentication || phase == Exploration) && pending.None?
      requires At(Some(Approve(p.id)), NoAnswer, Some(p)) && PendingOk(contexts, candidates, origins, counter, p)
      modifies this, world`log, world`stage
      ensures Extends(old(world.log), world.log)
      ensures if ok then Steady() else Gone()
      ensures ok ==> phase == old(phase) && Approved(p, old(FactsNow(None)), e)
    {
      hide Outcome, Track, World.Orderly, Executed, Executable, Demand;
      match p.kind {
        case ActionApproval =>
          ok, e := Run(p.request, Some(candidates[p.request.candidate]), Approve(p.id), NoAnswer, Some(p));
        case OriginApproval => ok, e := Navigate(p);
        case OriginActionApproval =>
          ok := AskAgain(p);
          e := None;
      }
    }

    /** The new origin is admitted and the navigation to it runs. */
    method Navigate(p: Pending) returns (ok: bool, ghost e: Option<Execution>)
      requires (phase == Authentication || phase == Exploration) && pending.None? && p.kind == OriginApproval
      requires At(Some(Approve(p.id)), NoAnswer, Some(p)) && PendingOk(contexts, candidates, origins, counter, p)
      modifies this, world`log, world`stage
      ensures Extends(old(world.log), world.log)
      ensures if ok then Steady() else Gone()
      ensures ok ==> phase == old(phase) && p.origin.Some?
                     && Executed(old(FactsNow(None)).(origins := old(origins) + {p.origin.value}), p.request, None, e)
    {
      hide Outcome, Track, World.Orderly, Executed;
      e := None;
      ok := AdmitOrigin(p, Approve(p.id));
      if !ok { Fail(); return; }
      ok, e := Run(p.request, None, Approve(p.id), OriginAnswer(true), Some(p));
    }

    /** The new origin is admitted; the click that needs it is asked for in turn. */
    method AskAgain(p: Pending) returns (ok: bool)
      requires (phase == Authentication || phase == Exploration) && pending.None? && p.kind == OriginActionApproval
      requires At(Some(Approve(p.id)), NoAnswer, Some(p)) && PendingOk(contexts, candidates, origins, counter, p)
      modifies this, world`log, world`stage
      ensures Extends(old(world.log), world.log)
      ensures if ok then Steady() else Gone()
      ensures ok ==> phase == old(phase) && p.origin.Some?
                     && FactsNow(None) == old(FactsNow(None)).(
                          origins := old(origins) + {p.origin.value}, counter := old(counter) + 1,
                          pending := Some(Pending(old(counter) + 1, ActionApproval, p.request, None, p.target)))
    {
      hide Outcome, Track, World.Orderly, Executed, Executable;
      ok := AdmitOrigin(p, Approve(p.id));
      if !ok { Fail(); return; }
      ghost var e;
      ok, e := RequestExecute(p.request, Approve(p.id), OriginAnswer(true), Some(p));
    }

    method AdmitOrigin(p: Pending, ghost now: ClientMessage) returns (ok: bool)
      requires (phase == Authentication || phase == Exploration) && p.kind != ActionApproval && p.origin.Some?
      requires now.Approve? && At(Some(now), NoAnswer, Some(p))
      modifies this`origins, world`log, world`stage
      ensures Extends(old(world.log), world.log)
      ensures world.Orderly() && Held(world.stage.mode)
      ensures ok ==> origins == old(origins) + {p.origin.value} && At(Some(now), OriginAnswer(true), Some(p))
    {
      hide Track;
      ok := world.AddOrigin(p.origin.value);
      if ok { origins := origins + {p.origin.value}; }
    }

    // Completion.

    /** Human confirmation of a standing goal proof, with outputs proved again on the page of the goal. */
    method Complete(confirmed: bool, outputs: Option<seq<OutputRequest>>)
      returns (ok: bool, ghost page: Option<RawObservation>)
      requires phase == Exploration && pending.None? && At(Some(HumanComplete(confirmed, outputs)), NoAnswer, None)
      modifies this, world`log, world`stage
      ensures Extends(old(world.log), world.log)
      ensures if ok then Steady() else Gone()
      ensures ok ==> phase == Completed && confirmed && goalProof.Some? && outputs.Some?
                     && Reviewed(candidates, goalProof.value, scope.bounds, outputs.value, page)
                     && (forall q <- outputs.value :: q.candidate in candidates)
                     && FactsNow(None) == old(FactsNow(None)).(
                          selections := Selections(candidates, goalProof.value, observations, outputs.value, page))
      ensures ok && outputs.value != [] ==>
                old(world.log) < world.log && world.log[|old(world.log)|].Looked?
                && page == Timely(world.log[|old(world.log)|].call, world.log[|old(world.log)|].raw)
      ensures !closed <==> confirmed && old(goalProof).Some? && outputs.Some?
                           && Reviewed(old(candidates), old(goalProof).value, old(scope).bounds, outputs.value, page)
    {
      hide Outcome, Track, World.Orderly, Reviewed, Selections, OutputsOk;
      if !confirmed || goalProof.None? || outputs.None? { Fail(); return false, None; }
      var chosen;
      ok, chosen, page := ReviewOutputs(outputs.value, confirmed);
      if !ok { Fail(); return; }
      CompleteOutcome(world.stage, page);
      selections, phase := chosen, Completed;
      ok := Report(State(phase));
    }

    /** The requested outputs, each proved again on a fresh look at the goal's page, in the order of their keys. */
    method ReviewOutputs(requests: seq<OutputRequest>, ghost confirmed: bool)
      returns (ok: bool, chosen: seq<Selection>, ghost page: Option<RawObservation>)
      requires phase == Exploration && pending.None? && goalProof.Some? && confirmed
      requires At(Some(HumanComplete(confirmed, Some(requests))), NoAnswer, None)
      modifies this`remaining, world`log, world`stage
      ensures Extends(old(world.log), world.log)
      ensures world.Orderly() && Held(world.stage.mode)
      ensures ok <==> Reviewed(candidates, goalProof.value, scope.bounds, requests, page)
      ensures ok ==> (forall q <- requests :: q.candidate in candidates) && (requests != [] ==> page.Some?)
                     && chosen == Selections(candidates, goalProof.value, observations, requests, page)
      ensures ok ==> world.stage == if requests == [] then old(world.stage) else old(world.stage).(answer := LookAnswer(page))
      ensures requests == [] ==> page.None?
      ensures ok && requests != [] ==>
                old(world.log) < world.log && world.log[|old(world.log)|].Looked?
                && page == Timely(world.log[|old(world.log)|].call, world.log[|old(world.log)|].raw)
    {
      hide OutputOk, SamePage, Proved, Selections, World.Orderly, Track;
      chosen, page := [], None;
      if |requests| > scope.bounds.maxOutputs || |requests| > MAX_SELECTED { return false, chosen, None; }
      ok := DistinctOutputs(requests);
      if !ok { return; }
      Offered(candidates, goalProof.value, requests);
      if requests == [] {
        NoSelections(candidates, goalProof.value, observations);
        return true, chosen, None;
      }
      var raw := LookAt(goalProof.value.context);
      if raw.None? { return false, chosen, None; }
      page := raw;
      ok, chosen := ReviewOn(requests, raw.value);
    }

    method ReviewOn(requests: seq<OutputRequest>, page: RawObservation) returns (ok: bool, chosen: seq<Selection>)
      requires goalProof.Some? && OutputsOk(candidates, goalProof.value, requests)
      ensures ok <==> SamePage(goalProof.value, scope.bounds, page)
                      && forall q <- requests :: q.candidate in candidates
                                                 && Proved(scope.bounds, page, candidates[q.candidate].candidate, q.mode)
      ensures (forall q <- requests :: q.candidate in candidates)
      ensures ok ==> chosen == Selections(candidates, goalProof.value, observations, requests, Some(page))
    {
      hide OutputOk, Proved, SelectionOf, InsertByKey, OutputsOk;
      chosen := [];
      Offered(candidates, goalProof.value, requests);
      if page.origin != goalProof.value.origin || page.path != goalProof.value.path
         || Target(page.context) != goalProof.value.context || |page.candidates| > scope.bounds.maxCandidates {
        return false, chosen;
      }
      for i := 0 to |requests|
        invariant forall j | 0 <= j < i ::
                    Proved(scope.bounds, page, candidates[requests[j].candidate].candidate, requests[j].mode)
        invariant chosen == Selections(candidates, goalProof.value, observations, requests[..i], Some(page))
      {
        var q, c := requests[i], candidates[requests[i].candidate].candidate;
        var proved, s := Select(q, page);
        if !proved { return false, chosen; }
        assert requests[..i + 1][..i] == requests[..i];
        chosen := InsertByKey(s, chosen);
      }
      assert requests[..|requests|] == requests;
      ok := true;
    }

    /** One selection, if the page still proves its candidate. */
    method Select(q: OutputRequest, page: RawObservation) returns (ok: bool, s: Selection)
      requires goalProof.Some? && q.candidate in candidates
      ensures ok <==> Proved(scope.bounds, page, candidates[q.candidate].candidate, q.mode)
      ensures ok ==> s == SelectionOf(candidates, goalProof.value, observations, page, q)
    {
      var c := candidates[q.candidate].candidate;
      var counted, exact, role := CountMatches(page.candidates, c);
      s := Selection(q.candidate, q.key, q.kind, q.mode, observations, goalProof.value.context, c.role,
                     if q.mode == ExactName then c.name else NoLabel, exact, role);
      ok := counted && role <= scope.bounds.maxCandidates && exact == 1 && (q.mode == UniqueRole ==> role == 1);
    }

    method DistinctOutputs(requests: seq<OutputRequest>) returns (ok: bool)
      requires goalProof.Some?
      ensures ok <==> OutputsOk(candidates, goalProof.value, requests)
    {
      hide OutputOk;
      var keys: set<Key>, ids: set<Id> := {}, {};
      for i := 0 to |requests|
        invariant forall j | 0 <= j < i :: OutputOk(candidates, goalProof.value, requests[j])
        invariant forall k :: k in keys <==> exists j :: 0 <= j < i && requests[j].key == k
        invariant forall k :: k in ids <==> exists j :: 0 <= j < i && requests[j].candidate == k
        invariant forall j, k | 0 <= j < k < i ::
                    requests[j].key != requests[k].key && requests[j].candidate != requests[k].candidate
      {
        assert requests[i] in requests;
        if !OutputOk(candidates, goalProof.value, requests[i]) || requests[i].key in keys || requests[i].candidate in ids {
          return false;
        }
        keys, ids := keys + {requests[i].key}, ids + {requests[i].candidate};
      }
      ok := true;
    }

    /** Matches with the role, and with role and disclosed name, over a whole page. */
    method CountMatches(raw: seq<RawCandidate>, c: Candidate) returns (ok: bool, exact: int, role: int)
      ensures ok <==> forall r <- raw :: 1 <= r.matches <= scope.bounds.maxCandidates
      ensures ok ==> exact == Matches(raw, c, true, |raw|) && role == Matches(raw, c, false, |raw|)
    {
      exact, role := 0, 0;
      for i := 0 to |raw|
        invariant forall j | 0 <= j < i :: 1 <= raw[j].matches <= scope.bounds.maxCandidates
        invariant exact == Matches(raw, c, true, i) && role == Matches(raw, c, false, i)
      {
        assert raw[i] in raw;
        if raw[i].matches < 1 || raw[i].matches > scope.bounds.maxCandidates { return false, exact, role; }
        if raw[i].role == c.role {
          role := role + raw[i].matches;
          if raw[i].input == NoInput && raw[i].name == c.name { exact := exact + raw[i].matches; }
        }
      }
      ok := true;
    }

    /**
     Closes first; only after a clean close is the result built, stored and announced. The request it is
     built from carries the session's facts; it is stored only if the builder accepts it.
     */
    method FinishSession() returns (result: Option<BuildRequest>)
      requires phase == Completed && At(Some(Finish), NoAnswer, None)
      modifies this, world`log, world`stage
      ensures Gone() && closed
      ensures old(goalProof).Some? && old(authProof).Some?
      ensures |old(world.log)| + 1 < |world.log| && old(world.log) < world.log && world.log[|old(world.log)|].Ended?
      ensures world.log[|old(world.log)| + 1].Stored? <==>
                world.log[|old(world.log)|].clean && Buildable(RequestOf(old(FactsNow(None))))
      ensures result.Some? ==> result.value == RequestOf(old(FactsNow(None))) && Buildable(result.value)
                               && Stored(result.value, true) in world.log && world.log[|old(world.log)|].clean
      ensures result.None? ==> forall r :: Stored(r, true) in world.log ==> Stored(r, true) in old(world.log)
    {
      hide Outcome, Track, World.Orderly, Buildable, Right, Coherent, SelectionsOk;
      AlwaysProved();
      var r := BuildRequest(scope.titled, origins, contexts, trace, scope.initial, scope.dashboard, scope.goal,
                            goalProof.value, authProof.value, selections, scope.bounds, diagnostics);
      result := None;
      session := false;
      var clean := world.Close();
      closed := true;
      var ok := false;
      if clean {
        var profiles := Build(r);
        if profiles.Some? {
          ok := world.Store(r);
        }
      }
      if ok {
        result := Some(r);
        ReadyOutcome(world.stage);
        ok := world.Write(ResultReady);
      } else {
        EndOutcome(world.stage);
        ok := world.Write(Diagnostic);
      }
    }

    lemma AlwaysProved()
      requires phase == Completed && At(Some(Finish), NoAnswer, None)
      ensures goalProof.Some? && authProof.Some?
    {
      hide Right, Track, Coherent;
      AlwaysRight(world.log);
      AgreedProofs(world.stage);
    }

    /** Closes the session, if there is one, and says so only after a clean close. */
    method CloseWithoutResult()
      requires Told(CloseMessage)
      modifies this, world`log, world`stage
      ensures Extends(old(world.log), world.log)
      ensures Gone() && closed
    {
      hide Outcome, Track;
      var clean := true;
      if session {
        session := false;
        clean := world.Close();
      }
      closed := true;
      var ok;
      if clean {
        ClosedOutcome(world.stage);
        ok := world.Write(Closed);
      } else {
        EndOutcome(world.stage);
        ok := world.Write(Diagnostic);
      }
    }

    /** The input ends, or is interrupted or malformed. */
    method Quit()
      requires Steady()
      modifies this, world`log, world`stage
      ensures Extends(old(world.log), world.log) && Gone()
    {
      hide Outcome, Track;
      Fail();
    }

    predicate Admitted(m: ClientMessage)
      reads this`phase, this`pending
    {
      && (pending.Some? ==> m.Approve? || m.Deny? || m.CloseMessage?)
      && match phase
         case AwaitingStart => m.Start? || m.CloseMessage?
         case Authentication => m.Observe? || m.FocusHumanInput? || m.Execute? || m.Approve? || m.Deny? || m.CloseMessage?
         case HumanInput => m.HumanInputComplete? || m.CloseMessage?
         case Exploration => m.Observe? || m.Execute? || m.Approve? || m.Deny? || m.HumanComplete? || m.CloseMessage?
         case Completed => m.Finish? || m.CloseMessage?
         case _ => false
    }

    /**
     One message of the client. It is the next event of the log, and whatever follows in the log is what
     the machine allows after it; the fields are again what the log says, or the run is over.
     */
    method Handle(m: ClientMessage) returns (result: Option<BuildRequest>, done: bool, ok: bool)
      requires Steady()
      modifies this, world
      ensures if ok && !done then Steady() else Gone()
      ensures old(world.log) + [Received(m)] <= world.log && world.messages == old(world.messages) + [m]
      ensures !old(Admitted(m)) ==> !ok
      ensures result.Some? ==> done && old(phase) == Completed && m == Finish && Stored(result.value, true) in world.log
                               && Buildable(result.value)
      ensures result.None? ==> forall r :: Stored(r, true) in world.log ==> Stored(r, true) in old(world.log)
    {
      result, done, ok := None, false, false;
      world.Receive(m);
      if !Admitted(m) { Fail(); return; }
      match m {
        case Start(_, _, _, _, _, _) => ok := StartSession(m);
        case Observe(context) =>
          ghost var raw;
          ok, raw := ObserveContext(context);
        case FocusHumanInput(id) => ok := Focus(id);
        case HumanInputComplete(id, challenge) => ok := CompleteHumanInput(id, challenge);
        case Execute(request) =>
          ghost var e;
          ok, e := RequestExecute(request, m, NoAnswer, None);
        case Approve(id) =>
          ghost var e;
          ok, e := ApprovePending(id);
        case Deny(_) => Fail();
        case HumanComplete(confirmed, outputs) =>
          ghost var page;
          ok, page := Complete(confirmed, outputs);
        case Finish =>
          result := FinishSession();
          done, ok := true, result.Some?;
        case CloseMessage =>
          CloseWithoutResult();
          done, ok := true, true;
        case Unknown => assert false;
      }
    }
  }

  lemma NoElements(codes: seq<Code>)
    ensures Elements(codes[..0]) == {}
  {
  }

  lemma MoreElements(codes: seq<Code>, k: nat)
    requires k < |codes|
    ensures Elements(codes[..k + 1]) == Elements(codes[..k]) + {codes[k]}
  {


  }

  lemma TooMany(known: set<Code>, codes: seq<Code>, k: nat)
    requires k < |codes| && codes[k] !in known + Elements(codes[..k])
    ensures |known + Elements(codes[..k])| < |known + Elements(codes)|
  {
    var before, all := known + Elements(codes[..k]), known + Elements(codes);
    var rest := all - before;
    assert all == before + rest && codes[k] in rest;
  }

  /** Scans for the best candidate. */
  method FindBest(cs: seq<Candidate>) returns (best: Option<nat>)
    ensures best == BestOf(cs)
  {
    best := None;
    for k := 0 to |cs|
      invariant best == BestOf(cs[..k])
    {
      assert cs[..k + 1][..k] == cs[..k];
      if Eligible(cs[k]) && (best.None? || Priority(cs[k].role) < Priority(cs[best.value].role)) { best := Some(k); }
    }
    assert cs[..|cs|] == cs;
  }

  lemma CoherentParts(f: Facts)
    requires Coherent(f)
    ensures |f.diagnostics| <= MAX_DIAGNOSTICS && Forest(f.origins, f.contexts)
  {
    hide Sound, CandidatesOk, PendingsOk, InputOk, ProofsOk, TraceFit, Forest;
  }

  lemma CountedCoherent(f: Facts)
    requires Coherent(f) && f.observations < f.scope.bounds.maxObservations
    ensures Coherent(f.(observations := f.observations + 1))
  {
    hide Sound, Forest, CandidatesOk, PendingOk, InputOk, TraceFit, Meets, Arrives;
  }

  lemma ObservedOutcome(s: Stage, before: Phase, raw: RawObservation)
    requires Handling(s) && s.now.value.Observe? && Working(s.mode) && s.answer == LookAnswer(Some(raw))
    requires before == PhaseOf(s.mode) && Acceptable(s.f, before, raw, Target(s.now.value.context))
    ensures var context := Target(s.now.value.context);
            && Outcome(s, Observed(ObservationOf(raw, s.f.observations, context)))
               == Stage(if PhaseAfter(s.f, before, raw, context) == Exploration then Explore else Auth, None, NoAnswer,
                        Taken(s.f, before, raw, context))
  {
    hide Joinable, ReportOk, SuccessOn, MatchGoal, OnDashboard;
  }

  lemma DueOutcome(s: Stage)
    requires s.Stage? && s.now.None? && s.mode == Explore && Quiet(s.f) && s.f.proof.Some?
    ensures Outcome(s, CompletionDue) == s
  {
  }

  lemma PromptOutcome(s: Stage)
    requires Handling(s) && s.now.value.FocusHumanInput? && s.mode == Auth && Quiet(s.f)
    requires s.now.value.candidate in s.f.candidates && Typable(s.f.candidates[s.now.value.candidate])
    requires s.f.candidates[s.now.value.candidate].input == MfaInput || s.answer == FocusAnswer(true)
    ensures var i := InputFor(s.now.value.candidate, s.f.candidates[s.now.value.candidate]);
            Outcome(s, PromptOf(i)) == Stage(Auth, None, NoAnswer, s.f.(input := Some(i)))
  {
  }

  lemma HumanOutcome(s: Stage)
    requires CompletesInput(s)
    ensures Outcome(s, State(Authentication))
         == Stage(Auth, None, NoAnswer,
                  s.f.(trace := s.f.trace + [HumanStep(s.f.input.value, s.now.value.challenge)], input := None))
  {
  }

  lemma RunHeld(s: Stage, r: Request, target: Option<Record>)
    requires MayRun(s, r, target)
    ensures s.Stage? && Working(s.mode) && s.now.Some? && (s.now.value.Execute? || s.now.value.Approve?) && s.f.pending.None?
  {
  }

  lemma RunOutcome(s: Stage)
    requires Succeeds(s) && (s.now.value.Execute? || s.now.value.Approve?)
    ensures Outcome(s, State(PhaseOf(s.mode)))
         == Stage(s.mode, None, NoAnswer,
                  s.f.(trace := s.f.trace + [RunStep(s.answer.request, s.answer.target, PhaseOf(s.mode), s.answer.result.value)],
                       contexts := WithPopup(s.f.contexts, s.answer.result.value)))
  {
    hide Addable;
  }

  lemma DirectRun(s: Stage, r: Request)
    requires Handling(s) && Working(s.mode) && AskedFor(s) == Some(r) && s.f.pending.None? && s.f.input.None?
    requires Executable(s.f, r) && Demand(s.f, r).None? && (s.f.granted.Some? ==> r.action == Click)
    ensures MayRun(s, r, None)
  {
  }

  /** Checks and demands are the same whatever has been granted. */
  lemma DemandSame(f: Facts, g: Facts, r: Request)
    requires f == g.(granted := f.granted)
    ensures Executable(f, r) <==> Executable(g, r)
    ensures Executable(f, r) ==> Demand(f, r) == Demand(g, r)
  {
  }

  lemma AskOutcome(s: Stage)
    requires Asks(s)
    ensures var p := Demand(s.f, AskedFor(s).value).value;
            Outcome(s, Shown(p)) == Stage(s.mode, None, NoAnswer, s.f.(pending := Some(p), counter := p.id, granted := None))
  {
    hide Executable, Demand;
  }

  lemma GrantOk(f: Facts)
    requires Coherent(f) && f.granted.Some?
    ensures PendingOk(f.contexts, f.candidates, f.origins, f.counter, f.granted.value)
  {
    hide Sound, Forest, CandidatesOk, PendingOk, InputOk, ProofsOk, TraceFit;
  }

  lemma NoSelections(candidates: map<Id, Record>, goal: Proof, generation: int)
    ensures Selections(candidates, goal, generation, [], None) == []
  {
  }

  lemma CompleteOutcome(s: Stage, page: Option<RawObservation>)
    requires Handling(s) && s.now.value.HumanComplete? && s.mode == Explore && Quiet(s.f)
    requires s.now.value.confirmed && s.f.proof.Some? && s.now.value.outputs.Some? && PageOf(s.answer) == page
    requires Reviewed(s.f.candidates, s.f.proof.value, s.f.scope.bounds, s.now.value.outputs.value, page)
    requires forall q <- s.now.value.outputs.value :: q.candidate in s.f.candidates
    requires s.now.value.outputs.value != [] ==> page.Some?
    ensures Outcome(s, State(Completed))
         == Stage(Agreed, None, NoAnswer,
                  s.f.(selections := Selections(s.f.candidates, s.f.proof.value, s.f.observations,
                                                s.now.value.outputs.value, page)))
  {
    hide OutputsOk, Selections, SamePage, Proved;
  }

  lemma AgreedProofs(s: Stage)
    requires Right(s) && s.Stage? && s.mode == Agreed
    ensures s.f.proof.Some? && s.f.arrival.Some?
  {
    hide Coherent, SelectionsOk, Alone, AnswerOk;
  }

  lemma ReadyOutcome(s: Stage)
    requires s.Stage? && s.mode == Written
    ensures Outcome(s, ResultReady) == s.(mode := Finished)
  {
  }

  lemma EndOutcome(s: Stage)
    requires Ending(s)
    ensures Outcome(s, Diagnostic) == s.(mode := Finished)
  {
  }

  lemma ClosedOutcome(s: Stage)
    requires MayClose(s)
    ensures Outcome(s, Closed) == s.(mode := Finished)
  {
  }

  /** The messages are the first lines of the input, in order. */
  predicate FromInput(messages: seq<ClientMessage>, input: seq<Option<ClientMessage>>) {
    |messages| <= |input| && forall i | 0 <= i < |messages| :: input[i] == Some(messages[i])
  }

  /**
   One session over any input; None is a malformed line. The log of everything that crossed the session's
   boundary is one the machine accepts to its end, the messages in it are the input's, a session stays open
   exactly where Teardown says, and a result is returned exactly when it was stored.
   */
  method Serve(world: World, input: seq<Option<ClientMessage>>) returns (result: Option<BuildRequest>)
    requires world.Orderly() && world.log == []
    modifies world
    ensures Track(world.log).Stage? && Final(Track(world.log).mode)
    ensures FromInput(Messages(world.log), input)
    ensures Unended(world.log) <==> DroppedIn(world.log) || CutOff(world.log)
    ensures result.Some? ==> Stored(result.value, true) in world.log && Buildable(result.value)
    ensures result.None? ==> forall r :: Stored(r, true) !in world.log
  {
    hide Unended, DroppedIn, CutOff, Buildable;
    result := ServeInput(world, input);
    Teardown(world.log);
  }

  method ServeInput(world: World, input: seq<Option<ClientMessage>>) returns (result: Option<BuildRequest>)
    requires world.Orderly() && world.log == []
    modifies world
    ensures world.Orderly() && Final(world.stage.mode) && FromInput(world.messages, input)
    ensures result.Some? ==> Stored(result.value, true) in world.log && Buildable(result.value)
    ensures result.None? ==> forall r :: Stored(r, true) !in world.log
  {
    hide Track, Outcome, Buildable, Server.At;
    result := None;
    HelloOutcome();
    var ok := world.Write(Hello);
    if !ok { return; }
    var s := new Server(world);
    for i := 0 to |input|
      invariant fresh(s) && s.world == world && s.Steady() && result.None?
      invariant |world.messages| == i && FromInput(world.messages, input)
      invariant forall r :: Stored(r, true) !in world.log
    {
      var interrupted: bool := *;
      if interrupted || input[i].None? { break; }
      var done;
      result, done, ok := s.Handle(input[i].value);
      if !ok || done { return; }
    }
    s.Quit();
  }

  lemma HelloOutcome()
    ensures Track([]) == FIRST && Messages([]) == [] && Outcome(FIRST, Hello) == Stage(Waiting, None, NoAnswer, NOTHING)
  {
  }
}
