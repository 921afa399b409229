/**
 When an authenticated author session closes what it opened. A session that came with an error or after
 its time was up is dropped without a close, and a message that cannot be written ends the run with the
 session open; in every other complete run each opened session is ended, once, with nothing called after.
 */
module AuthorTeardown {
  import opened Wrappers
  import opened PageText
  import opened Contexts
  import opened AuthorModel
  import opened AuthorLog
  import opened AuthorInvariant
  import opened AuthorTheorems

  predicate BrowserCall(e: Event) {
    e.Opened? || e.Looked? || e.Focused? || e.Ran? || e.AddedOrigin? || e.Ended?
  }

  /** The browser opened a session that the server keeps. */
  predicate Keeps(e: Event) { e.Opened? && e.session && e.ok && InTime(e.call) }

  /** The browser opened a session, but with an error or too late. */
  predicate Drops(e: Event) { e.Opened? && e.session && !(e.ok && InTime(e.call)) }

  /** Messages that are sent while a session is held. */
  predicate Midway(m: ServerMessage) {
    m.State? || m.Observed? || m.CompletionDue? || m.Prompt? || m.ApprovalRequired?
  }

  /** The run ends with a message that could not be written in the middle of a session. */
  predicate CutOff(log: seq<Event>) {
    log != [] && Last(log).Sent? && !Last(log).ok && Midway(Last(log).reply)
  }

  /** Some session was opened and never ended. */
  predicate Unended(log: seq<Event>) {
    exists i :: 0 <= i < |log| && log[i].Opened? && log[i].session && forall j | i < j < |log| :: !log[j].Ended?
  }

  predicate KeptIn(log: seq<Event>) { exists e <- log :: Keeps(e) }
  predicate DroppedIn(log: seq<Event>) { exists e <- log :: Drops(e) }
  predicate EndedIn(log: seq<Event>) { exists e <- log :: e.Ended? }
  predicate OpenedIn(log: seq<Event>) { exists e <- log :: e.Opened? }

  /** What the log says about its session at each stage. */
  predicate Books(s: Stage, log: seq<Event>) {
    s.Stage? ==>
      && (EndedIn(log) ==> KeptIn(log)) && !(KeptIn(log) && DroppedIn(log)) && (KeptIn(log) || DroppedIn(log) ==> OpenedIn(log))
      && (s.mode == Silent || s.mode == Waiting ==> !OpenedIn(log))
      && (Held(s.mode) ==> KeptIn(log) && !EndedIn(log))
      && (s.mode == Mode.Dropped ==> !KeptIn(log))
      && (s.mode.Over? || s.mode == Written ==> KeptIn(log) && EndedIn(log))
      && (s.mode == Finished ==> (KeptIn(log) ==> EndedIn(log)))
      && (s.mode == Cut ==> if CutOff(log) then KeptIn(log) && !EndedIn(log) else KeptIn(log) ==> EndedIn(log))
      && (s.mode != Cut ==> !CutOff(log))
  }

  lemma Appended(log: seq<Event>)
    requires log != []
    ensures KeptIn(log) <==> KeptIn(Front(log)) || Keeps(Last(log))
    ensures DroppedIn(log) <==> DroppedIn(Front(log)) || Drops(Last(log))
    ensures EndedIn(log) <==> EndedIn(Front(log)) || Last(log).Ended?
    ensures OpenedIn(log) <==> OpenedIn(Front(log)) || Last(log).Opened?
  {
    assert log == Front(log) + [Last(log)];
    assert forall e :: e in log <==> e in Front(log) || e == Last(log);
  }

  /** The modes before and after an event. */
  lemma Modes(s: Stage, e: Event)
    requires s.Stage? && Next(s, e).Stage?
    ensures var t := Next(s, e).mode;
            match e
            case Received(_) => t == s.mode && (s.mode == Waiting || Held(s.mode))
            case Opened(_, _, _, _, _) => s.mode == Waiting && (if Keeps(e) then t == Auth else t == Mode.Dropped)
            case Ended(_) => Held(s.mode) && t.Over?
            case Stored(_, _) => s.mode.Over? && (t.Over? || t == Written)
            case Sent(m, ok) =>
              && !Final(s.mode)
              && (Midway(m) ==> Held(s.mode) && if ok then Held(t) else t == Cut)
              && (!Midway(m) ==> !Held(s.mode) && (ok ==> t == Finished || t == Waiting) && (!ok ==> t == Cut)
                                 && (t == Waiting ==> s.mode == Silent))
            case _ => t == s.mode && Held(s.mode)
  {
    hide ReportOk, Joinable, SuccessOn, MatchGoal, ObservationOf, Reviewed, Executable, Demand, Addable, KindFits;
  }

  lemma {:induction false} BooksKept(log: seq<Event>)
    requires Track(log) != Wrong
    ensures Books(Track(log), log)
    decreases |log|
  {
    hide Next, Right, Track;
    if log == [] {
      NothingBooked();
    } else {
      LastStep(log);
      BooksKept(Front(log));
      Modes(Track(Front(log)), Last(log));
      Appended(log);
      BooksNext(Track(Front(log)), Track(log), log);
    }
  }

  lemma NothingBooked()
    ensures Track([]) == FIRST && Books(FIRST, [])
  {
  }

  lemma BooksNext(s: Stage, t: Stage, log: seq<Event>)
    requires log != [] && s.Stage? && t.Stage? && t == Next(s, Last(log)) && Books(s, Front(log))
    requires KeptIn(log) <==> KeptIn(Front(log)) || Keeps(Last(log))
    requires DroppedIn(log) <==> DroppedIn(Front(log)) || Drops(Last(log))
    requires EndedIn(log) <==> EndedIn(Front(log)) || Last(log).Ended?
    requires OpenedIn(log) <==> OpenedIn(Front(log)) || Last(log).Opened?
    ensures Books(t, log)
  {
    Modes(s, Last(log));
    hide Next, KeptIn, DroppedIn, EndedIn, OpenedIn;
  }

  /** A browser opens at most once, and after an end it is not called again: no end is repeated. */
  lemma NothingAfterEnd(log: seq<Event>, i: nat, j: nat)
    requires Track(log) != Wrong && i < j < |log|
    ensures log[i].Ended? ==> !BrowserCall(log[j])
    ensures log[i].Opened? ==> !log[j].Opened?
  {
    hide Next, Right, Track, Books;
    StageAt(log, j);
    var s := Track(log[..j]);
    BooksKept(log[..j]);
    assert log[i] in log[..j];
    CallsNeed(s, log[..j], log[j]);
  }

  lemma CallsNeed(s: Stage, log: seq<Event>, e: Event)
    requires s.Stage? && Books(s, log) && Next(s, e) != Wrong
    ensures EndedIn(log) ==> !BrowserCall(e)
    ensures OpenedIn(log) ==> !e.Opened?
  {
    Modes(s, e);
    hide Next, KeptIn, DroppedIn, EndedIn, OpenedIn;
  }

  /**
   Teardown. A complete run leaves a session open exactly when the browser opened it with an error or too
   late, or when a message in the middle of the session could not be written.
   */
  lemma Teardown(log: seq<Event>)
    requires Track(log).Stage? && Final(Track(log).mode)
    ensures Unended(log) <==> DroppedIn(log) || CutOff(log)
  {
    hide Next, Right, Track;
    BooksKept(log);
    if DroppedIn(log) {
      DroppedUnended(log);
    } else if CutOff(log) {
      KeptUnended(log);
    } else if Unended(log) {
      var i :| 0 <= i < |log| && log[i].Opened? && log[i].session && forall j | i < j < |log| :: !log[j].Ended?;
      assert log[i] in log;
      assert Keeps(log[i]);
      var e :| e in log && e.Ended?;
      var j :| 0 <= j < |log| && log[j] == e;
      NothingAfterEnd(log, j, i);
    }
  }

  lemma DroppedUnended(log: seq<Event>)
    requires DroppedIn(log) && !EndedIn(log)
    ensures Unended(log)
  {
    var e :| e in log && Drops(e);
    var i :| 0 <= i < |log| && log[i] == e;
    forall j | i < j < |log| ensures !log[j].Ended? { assert log[j] in log; }
  }

  lemma KeptUnended(log: seq<Event>)
    requires KeptIn(log) && !EndedIn(log)
    ensures Unended(log)
  {
    var e :| e in log && Keeps(e);
    var i :| 0 <= i < |log| && log[i] == e;
    forall j | i < j < |log| ensures !log[j].Ended? { assert log[j] in log; }
  }
}
