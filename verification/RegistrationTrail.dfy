/**
 What a live session knows is on the record: every observation, preview and grant it holds is one that the
 browser's log has, in that order.
 */
module RegistrationTrail {
  import opened Wrappers
  import opened PageText
  import opened RegistrationModel
  import opened Evidence
  import opened EvidenceMeaning
  import opened RegistrationLog
  import opened RegistrationSession

  /** Where in the log a session was opened, and where the observations it adopted were made. */
  datatype Trail = Trail(h: nat, start: nat, looks: seq<nat>)

  /** The observation shows exactly what was reported, candidate by candidate, under identifiers of its generation. */
  ghost predicate Pictures(raw: RawObservation, p: Protocol, o: Observation) {
    && o.origin == raw.origin && o.path == raw.path && |o.candidates| == |raw.candidates|
    && (forall k | 0 <= k < |raw.candidates| ::
          && o.candidates[k].id == CandidateId(o.generation, raw.candidates[k].role, raw.candidates[k].name, k)
          && ShownAs(raw, p, o.candidates[k]))
    && forall w :: w in o.diagnostics <==> w in raw.diagnostics
  }

  /** The session was opened for this scope. */
  predicate OpenedFor(e: Event, s: Scope) {
    && e.Opened? && e.ok && e.request.protocol == s.protocol && e.request.origins == s.origins
    && e.request.navigationTimeoutMS == s.bounds.navigationTimeoutMS
    && e.request.totalTimeoutMS == s.bounds.totalTimeoutMS && e.request.maxRequests == s.bounds.maxRequests
    && e.request.maxResponseBytes == s.bounds.maxResponseBytes && e.request.maxCandidates == s.bounds.maxCandidates
  }

  /** The preview was carried out, on the candidate it names, immediately before the observation it leads to. */
  predicate Performed(log: seq<Event>, t: Trail, history: seq<Observation>, q: PreviewRecord) {
    && 2 <= q.nextGeneration <= |t.looks| && 0 < t.looks[q.nextGeneration - 1] <= |log|
    && q.request.generation == q.nextGeneration - 1 <= |history| && q.request.id.CandidateId?
    && q.request.id.ordinal < |history[q.request.generation - 1].candidates|
    && var c := history[q.request.generation - 1].candidates[q.request.id.ordinal];
    && c.id == q.request.id
    && log[t.looks[q.nextGeneration - 1] - 1] == Previewed(t.h, c, q.request, true)
  }

  /** Look i of the trail is an answered observation of the session. */
  predicate Seen(log: seq<Event>, t: Trail, i: nat)
    requires i < |t.looks|
  {
    t.start < t.looks[i] < |log| && log[t.looks[i]].Looked? && log[t.looks[i]].h == t.h && log[t.looks[i]].raw.Some?
  }

  /** Observation i is what look i reported. */
  ghost predicate Filmed(log: seq<Event>, t: Trail, p: Protocol, history: seq<Observation>, i: nat)
    requires i < |history|
  {
    i < |t.looks| && Seen(log, t, i) && Pictures(log[t.looks[i]].raw.value, p, history[i])
  }

  /** Whether the session has been granted verification traffic, and for which authority. */
  ghost predicate GrantedAs(log: seq<Event>, t: Trail, authority: Option<HumanVerification>) {
    match authority
    case None => forall k | t.start < k < |log| :: !(log[k].Granted? && log[k].h == t.h && log[k].ok)
    case Some(v) => exists k | t.start < k < |log| :: log[k] == Granted(t.h, v, true)
  }

  ghost predicate Recorded(log: seq<Event>, t: Trail, s: Scope, generation: int, history: seq<Observation>,
                           previews: seq<PreviewRecord>, authority: Option<HumanVerification>) {
    && t.start < |log| && OpenedFor(log[t.start], s) && log[t.start].h == t.h
    && |t.looks| == generation
    && (forall i | 0 <= i < |t.looks| :: Seen(log, t, i))
    && (forall i, j | 0 <= i < j < |t.looks| :: t.looks[i] < t.looks[j])
    && (forall i | 0 <= i < |history| :: Filmed(log, t, s.protocol, history, i))
    && (forall q <- previews :: Performed(log, t, history, q))
    && GrantedAs(log, t, authority)
  }

  /** The actionable candidates are those of the newest report, and the page still shows them. */
  ghost predicate Current(log: seq<Event>, t: Trail, p: Protocol, candidates: map<Id, Record>) {
    candidates != map[] ==>
      && t.looks != [] && Showing(log, t.h, t.looks[|t.looks| - 1])
      && forall id <- candidates ::
           candidates[id].candidate.id == id && ShownAs(log[t.looks[|t.looks| - 1]].raw.value, p, candidates[id].candidate)
  }

  lemma StaysSeen(log: seq<Event>, e: Event, t: Trail, i: nat)
    requires i < |t.looks| && Seen(log, t, i)
    ensures Seen(log + [e], t, i)
  {
  }

  lemma StaysFilmed(log: seq<Event>, e: Event, t: Trail, p: Protocol, history: seq<Observation>, i: nat)
    requires i < |history| && Filmed(log, t, p, history, i)
    ensures Filmed(log + [e], t, p, history, i)
  {
    hide Pictures;
  }

  lemma StaysPerformed(log: seq<Event>, e: Event, t: Trail, history: seq<Observation>, q: PreviewRecord)
    requires Performed(log, t, history, q)
    ensures Performed(log + [e], t, history, q)
  {
  }

  lemma RestKept(log: seq<Event>, e: Event, t: Trail, s: Scope, generation: int, history: seq<Observation>,
                 previews: seq<PreviewRecord>, authority: Option<HumanVerification>, authority': Option<HumanVerification>)
    requires Recorded(log, t, s, generation, history, previews, authority) && GrantedAs(log + [e], t, authority')
    ensures Recorded(log + [e], t, s, generation, history, previews, authority')
  {
    hide Seen, Filmed, Performed, GrantedAs;
    forall q <- previews ensures Performed(log + [e], t, history, q) { StaysPerformed(log, e, t, history, q); }
    forall i | 0 <= i < |t.looks| ensures Seen(log + [e], t, i) { StaysSeen(log, e, t, i); }
    forall i | 0 <= i < |history| ensures Filmed(log + [e], t, s.protocol, history, i) {
      StaysFilmed(log, e, t, s.protocol, history, i);
    }
  }

  lemma RecordedKept(log: seq<Event>, e: Event, t: Trail, s: Scope, generation: int, history: seq<Observation>,
                     previews: seq<PreviewRecord>, authority: Option<HumanVerification>)
    requires Recorded(log, t, s, generation, history, previews, authority)
    requires e.Granted? && e.h == t.h && e.ok ==> authority.Some?
    ensures Recorded(log + [e], t, s, generation, history, previews, authority)
  {
    hide Seen, Filmed, Performed;
    if authority.Some? {
      var k :| t.start < k < |log| && log[k] == Granted(t.h, authority.value, true);
      assert (log + [e])[k] == log[k];
    }
    RestKept(log, e, t, s, generation, history, previews, authority, authority);
  }

  lemma CurrentKept(log: seq<Event>, e: Event, t: Trail, p: Protocol, candidates: map<Id, Record>)
    requires Current(log, t, p, candidates) && !Moving(e) && !e.Looked?
    ensures Current(log + [e], t, p, candidates)
  {
    hide ShownAs;
  }

  lemma Granting(log: seq<Event>, t: Trail, s: Scope, generation: int, history: seq<Observation>,
                 previews: seq<PreviewRecord>, v: HumanVerification)
    requires Recorded(log, t, s, generation, history, previews, None)
    ensures Recorded(log + [Granted(t.h, v, true)], t, s, generation, history, previews, Some(v))
  {
    hide Seen, Filmed, Performed;
    assert (log + [Granted(t.h, v, true)])[|log|] == Granted(t.h, v, true);
    RestKept(log, Granted(t.h, v, true), t, s, generation, history, previews, None, Some(v));
  }

  lemma Starting(log: seq<Event>, h: nat, r: BrowserRequest, s: Scope)
    requires OpenedFor(Opened(h, r, true), s)
    ensures Recorded(log + [Opened(h, r, true)], Trail(h, |log|, []), s, 0, [], [], None)
  {
  }

  /** The trail after one more observation. */
  function Further(t: Trail, at: nat): Trail { t.(looks := t.looks + [at]) }

  lemma Pictured(s: Scope, raw: RawObservation, o: Observation)
    requires ReducedFrom(s, raw, o)
    ensures Pictures(raw, s.protocol, o)
  {
    forall k | 0 <= k < |raw.candidates|
      ensures o.candidates[k].id == CandidateId(o.generation, raw.candidates[k].role, raw.candidates[k].name, k)
      ensures ShownAs(raw, s.protocol, o.candidates[k])
    {
      assert Reduces(s, o.generation, raw.candidates[k], k, o.candidates[k]);
    }
    forall w ensures w in o.diagnostics <==> w in raw.diagnostics {
      assert w in o.diagnostics <==> w in Elements(o.diagnostics);
      assert w in raw.diagnostics <==> w in Elements(raw.diagnostics);
    }
  }

  lemma Looking(log: seq<Event>, raw: RawObservation, t: Trail, s: Scope, generation: int, history: seq<Observation>,
                previews: seq<PreviewRecord>, authority: Option<HumanVerification>, o: Observation, history': seq<Observation>)
    requires Recorded(log, t, s, generation, history, previews, authority) && ReducedFrom(s, raw, o)
    requires history' == history || (|history| == generation && history' == history + [o])
    ensures Recorded(log + [Looked(t.h, Some(raw))], Further(t, |log|), s, generation + 1, history', previews, authority)
  {
    hide Seen, Filmed, Performed, GrantedAs, ReducedFrom;
    var e, t' := Looked(t.h, Some(raw)), Further(t, |log|);
    var log' := log + [e];
    RecordedKept(log, e, t, s, generation, history, previews, authority);
    forall i | 0 <= i < |t.looks| ensures Seen(log', t', i) && t'.looks[i] < |log| { LooksOn(log, e, t, i); }
    NewLook(log, raw, t, s, history', o);
    forall q <- previews ensures Performed(log', t', history', q) {
      PerformedOn(log', t, |log|, history, history', q);
    }
    forall i | 0 <= i < |history'| ensures Filmed(log', t', s.protocol, history', i) {
      if i < |history| { FilmedOn(log', t, |log|, s.protocol, history, history', i); }
    }
    GrantedOn(log', t, |log|, authority);
  }

  lemma LooksOn(log: seq<Event>, e: Event, t: Trail, i: nat)
    requires i < |t.looks| && Seen(log, t, i)
    ensures Seen(log + [e], Further(t, |log|), i) && Further(t, |log|).looks[i] < |log|
  {
  }

  lemma NewLook(log: seq<Event>, raw: RawObservation, t: Trail, s: Scope, history: seq<Observation>, o: Observation)
    requires ReducedFrom(s, raw, o) && t.start < |log|
    ensures Seen(log + [Looked(t.h, Some(raw))], Further(t, |log|), |t.looks|)
    ensures |history| == |t.looks| + 1 && history[|t.looks|] == o ==>
              Filmed(log + [Looked(t.h, Some(raw))], Further(t, |log|), s.protocol, history, |t.looks|)
  {
    Pictured(s, raw, o);
    hide Pictures;
  }

  lemma PerformedOn(log: seq<Event>, t: Trail, at: nat, history: seq<Observation>, history': seq<Observation>, q: PreviewRecord)
    requires Performed(log, t, history, q) && history <= history'
    ensures Performed(log, Further(t, at), history', q)
  {
  }

  lemma FilmedOn(log: seq<Event>, t: Trail, at: nat, p: Protocol, history: seq<Observation>, history': seq<Observation>, i: nat)
    requires i < |history| && Filmed(log, t, p, history, i) && history <= history'
    ensures Filmed(log, Further(t, at), p, history', i)
  {
    hide Pictures;
  }

  lemma GrantedOn(log: seq<Event>, t: Trail, at: nat, authority: Option<HumanVerification>)
    requires GrantedAs(log, t, authority)
    ensures GrantedAs(log, Further(t, at), authority)
  {
  }

  lemma LooksCurrent(log: seq<Event>, raw: RawObservation, t: Trail, s: Scope, o: Observation, records: map<Id, Record>)
    requires ReducedFrom(s, raw, o) && RecordsOf(records, o)
    ensures Current(log + [Looked(t.h, Some(raw))], Further(t, |log|), s.protocol, records)
  {
    Pictured(s, raw, o);
    hide ShownAs, Reduces, ReducedFrom;
  }

  lemma Previewing(log: seq<Event>, t: Trail, s: Scope, generation: int, history: seq<Observation>,
                   previews: seq<PreviewRecord>, authority: Option<HumanVerification>, q: PreviewRecord)
    requires Recorded(log, t, s, generation, history, previews, authority) && Performed(log, t, history, q)
    ensures Recorded(log, t, s, generation, history, previews + [q], authority)
  {
    hide Pictures, Performed;
  }

  // What the record allows.

  lemma MayOpen(r: BrowserRequest, s: Scope)
    requires BoundsOk(s.bounds) && OriginsOk(s.origins) && CleanUrl(s.protocol, r.url) && r.url.origin in s.origins
    requires OpenedFor(Opened(0, r, true), s)
    ensures OpenLawful(r)
  {
  }

  lemma MayNavigate(log: seq<Event>, t: Trail, s: Scope, generation: int, history: seq<Observation>,
                    previews: seq<PreviewRecord>, authority: Option<HumanVerification>, verb: Verb, url: Url)
    requires Recorded(log, t, s, generation, history, previews, authority)
    requires (verb == Get || verb == Head) && CleanUrl(s.protocol, url) && url.origin in s.origins
    ensures NavigationLawful(log, t.h, verb, url)
  {
    hide Seen, Filmed, Performed, GrantedAs;
    assert OpenedAt(log, t.h, t.start);
  }

  lemma MayPreview(log: seq<Event>, t: Trail, s: Scope, generation: int, history: seq<Observation>,
                   previews: seq<PreviewRecord>, authority: Option<HumanVerification>, candidates: map<Id, Record>,
                   request: PreviewRequest)
    requires Recorded(log, t, s, generation, history, previews, authority) && Current(log, t, s.protocol, candidates)
    requires Typed(s.protocol) && request.id in candidates && PreviewOk(candidates[request.id].candidate, request)
    ensures PreviewLawful(log, t.h, candidates[request.id].candidate, request)
  {
    var c := candidates[request.id].candidate;
    PreviewIff(c, request);
    hide Seen, Filmed, Performed, GrantedAs, SoundPreview, ShownAs;
    assert OpenedAt(log, t.h, t.start);
    assert Showing(log, t.h, t.looks[|t.looks| - 1]);
  }

  lemma MayGrant(log: seq<Event>, t: Trail, s: Scope, generation: int, history: seq<Observation>,
                 previews: seq<PreviewRecord>, candidates: map<Id, Record>, id: Id, v: HumanVerification)
    requires Recorded(log, t, s, generation, history, previews, None) && Current(log, t, s.protocol, candidates)
    requires s.protocol == V4 && AuthorityOk(v, s.origins) && id in candidates
    requires candidates[id].candidate.matches == 1 && MatchesVerification(candidates[id].candidate.verification, v)
    ensures GrantLawful(log, t.h, v)
  {
    hide Seen, Filmed, Performed;
    WidgetIff(WidgetOf(v), s.origins);
    var j := t.looks[|t.looks| - 1];
    assert OpenedAt(log, t.h, t.start) && Showing(log, t.h, j);
    assert HasWidget(log[j].raw.value, id.ordinal, v);
  }

  lemma NothingCurrent(log: seq<Event>, t: Trail, p: Protocol)
    ensures Current(log, t, p, map[])
  {
  }

  /** The candidate was reported at its position by the look of its generation. */
  predicate Reported(log: seq<Event>, t: Trail, r: ReviewedCandidate) {
    && r.id.CandidateId? && 1 <= r.generation <= |t.looks| && Seen(log, t, r.generation - 1)
    && r.id.ordinal < |log[t.looks[r.generation - 1]].raw.value.candidates|
    && var raw := log[t.looks[r.generation - 1]].raw.value.candidates[r.id.ordinal];
       raw.role == r.role && raw.name == r.name && raw.matches == r.matches
  }

  /**
   What a completion says was done is on the record: one session was opened for its protocol, origins and
   bounds; each of its observations is what the browser answered, in order; each preview was carried out,
   immediately before the observation it names; its authority was granted; and each reviewed candidate was
   reported at its position.
   */
  ghost predicate Evidenced(c: Completion, log: seq<Event>) {
    exists t :: EvidencedBy(c, log, t)
  }

  ghost predicate EvidencedBy(c: Completion, log: seq<Event>, t: Trail) {
    && Recorded(log, t, Scope(c.protocol, c.bounds, c.origins), c.observations, c.history, c.previews, c.authority)
    && forall r <- c.reviewed :: Reported(log, t, r)
  }

  lemma ReviewedReported(log: seq<Event>, t: Trail, s: Snapshot, r: Review)
    requires Recorded(log, t, s.scope, s.generation, s.history, s.previews, s.authority)
    requires Current(log, t, s.scope.protocol, s.candidates)
    requires Consistent(s) && ReviewOk(s, r)
    ensures forall c <- r.candidates :: Reported(log, t, c)
  {
    hide GrantedAs, Performed, TypedEvidence, SubmitBound, RetainedNavigation, PreviewsOk, OriginsOk, BoundsOk, SortedIds,
         Distinct, AuthorityOk, ReducedOk;
    forall c | c in r.candidates ensures Reported(log, t, c) {
      assert ReviewedOk(s, c);
      if Typed(s.scope.protocol) {
        assert Filmed(log, t, s.scope.protocol, s.history, c.id.generation - 1);
      } else {
        assert Seen(log, t, |t.looks| - 1);
      }
    }
  }

  lemma ReportedOn(log: seq<Event>, e: Event, t: Trail, r: ReviewedCandidate)
    requires Reported(log, t, r)
    ensures Reported(log + [e], t, r)
  {
  }

  /** The close that ends a session takes nothing off the record. */
  lemma ClosingEvidenced(log: seq<Event>, e: Event, t: Trail, s: Snapshot, profileId: string, r: Review, summary: NetworkSummary)
    requires Recorded(log, t, s.scope, s.generation, s.history, s.previews, s.authority)
    requires Current(log, t, s.scope.protocol, s.candidates)
    requires Consistent(s) && ReviewOk(s, r) && e.Closed?
    ensures Evidenced(Complete(s, profileId, r, summary), log + [e])
  {
    ReviewedReported(log, t, s, r);
    RecordedKept(log, e, t, s.scope, s.generation, s.history, s.previews, s.authority);
    ConsistentFacts(s);
    hide Recorded, Current, Reported, Consistent, ReviewOk;
    var c := Complete(s, profileId, r, summary);
    forall x | x in c.reviewed ensures Reported(log + [e], t, x) { ReportedOn(log, e, t, x); }
    assert EvidencedBy(c, log + [e], t);
  }

  /** The snapshot's facts are on the record, and its candidates are still shown. */
  ghost predicate OnRecord(log: seq<Event>, t: Trail, s: Snapshot) {
    && Recorded(log, t, s.scope, s.generation, s.history, s.previews, s.authority)
    && Current(log, t, s.scope.protocol, s.candidates)
  }

  /** An adopted observation extends the record. */
  lemma Adopting(log: seq<Event>, raw: RawObservation, t: Trail, s: Snapshot, o: Observation, records: map<Id, Record>, s': Snapshot)
    requires OnRecord(log, t, s) && ReducedFrom(s.scope, raw, o) && RecordsOf(records, o)
    requires s'.scope == s.scope && s'.generation == s.generation + 1 && s'.previews == s.previews
    requires s'.authority == s.authority && s'.candidates == records
    requires s'.history == s.history || (|s.history| == s.generation && s'.history == s.history + [o])
    ensures OnRecord(log + [Looked(t.h, Some(raw))], Further(t, |log|), s')
  {
    hide Recorded, Current, ReducedFrom, RecordsOf;
    Looking(log, raw, t, s.scope, s.generation, s.history, s.previews, s.authority, o, s'.history);
    LooksCurrent(log, raw, t, s.scope, o, records);
  }

  /** A preview and the observation after it, recorded. */
  lemma PreviewPerformed(log: seq<Event>, t: Trail, before: Snapshot, s: Snapshot, raw: Option<RawObservation>, request: PreviewRequest)
    requires OnRecord(log, t, before) && Consistent(before) && Typed(before.scope.protocol) && request.id in before.candidates
    requires before.candidates[request.id].generation == request.generation
    requires before.history <= s.history
    requires OnRecord(log + [Previewed(t.h, before.candidates[request.id].candidate, request, true), Looked(t.h, raw)],
                      Further(t, |log| + 1), s)
    requires s.generation == before.generation + 1
    ensures OnRecord(log + [Previewed(t.h, before.candidates[request.id].candidate, request, true), Looked(t.h, raw)],
                     Further(t, |log| + 1), s.(previews := s.previews + [PreviewRecord(request, s.generation)]))
  {
  }

  /** A call that moves the page leaves the record, and takes the candidates away. */
  lemma Moved(log: seq<Event>, e: Event, t: Trail, s: Snapshot)
    requires OnRecord(log, t, s) && Moving(e)
    ensures OnRecord(log + [e], t, s.(candidates := map[]))
  {
    hide Recorded;
    RecordedKept(log, e, t, s.scope, s.generation, s.history, s.previews, s.authority);
  }

  /** A grant is on the record and leaves the candidates where they are. */
  lemma GrantedTo(log: seq<Event>, t: Trail, s: Snapshot, v: HumanVerification)
    requires OnRecord(log, t, s) && s.authority.None?
    ensures OnRecord(log + [Granted(t.h, v, true)], t, s.(authority := Some(v)))
  {
    hide Recorded, Current;
    Granting(log, t, s.scope, s.generation, s.history, s.previews, v);
    CurrentKept(log, Granted(t.h, v, true), t, s.scope.protocol, s.candidates);
  }

  /** A session that has just been opened is on the record. */
  lemma Begun(log: seq<Event>, h: nat, r: BrowserRequest, s: Snapshot)
    requires OpenedFor(Opened(h, r, true), s.scope) && s.generation == 0 && s.history == [] && s.previews == []
    requires s.candidates == map[] && s.authority.None?
    ensures OnRecord(log + [Opened(h, r, true)], Trail(h, |log|, []), s)
  {
    hide Recorded;
    Starting(log, h, r, s.scope);
  }
}
