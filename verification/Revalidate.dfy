/**
 The revalidation gate: an action passes when it has evidence, every locator it declares is in that
 evidence, and every ambiguous one has a reviewed decision.
 */
module Revalidate {
  import opened Wrappers
  import opened Guide

  datatype Wait = OnLocator(locator: Locator) | OnNavigation

  datatype StepKind = Navigate | Click | CheckRadio | Uncheck | TypeText | SelectOption | WaitFor | OtherStep(text: string)

  datatype Step = Step(kind: StepKind, target: string, locator: Option<Locator>, value: string, wait: Option<Wait>)

  datatype ActionOutput = ActionOutput(source: Source, locator: Option<Locator>, rest: string)

  datatype Action = Action(sequence: seq<Step>, outputs: map<string, ActionOutput>)

  predicate Actionable(k: StepKind) {
    k == Click || k == CheckRadio || k == Uncheck || k == TypeText || k == SelectOption
  }

  /** The locator of a step: its target, or what a pure wait waits for. */
  function LocatorOf(s: Step): Option<Locator> {
    if Actionable(s.kind) then s.locator
    else if s.kind == WaitFor && s.wait.Some? && s.wait.value.OnLocator? then Some(s.wait.value.locator)
    else None
  }

  function PostWaitOf(s: Step): Option<Locator> {
    if Actionable(s.kind) && s.wait.Some? && s.wait.value.OnLocator? then Some(s.wait.value.locator) else None
  }

  predicate StepDeclares(s: Step, l: Locator) { LocatorOf(s) == Some(l) || PostWaitOf(s) == Some(l) }

  predicate OutputDeclares(o: ActionOutput, l: Locator) { o.source == A11y && o.locator == Some(l) }

  predicate Declares(a: Action, l: Locator) {
    (exists s <- a.sequence :: StepDeclares(s, l)) || (exists k <- a.outputs :: OutputDeclares(a.outputs[k], l))
  }

  predicate Space(c: char) { c == ' ' || c == '\t' || c == '\n' || c == '\r' }

  predicate Blank(s: string) { forall c <- s :: Space(c) }

  predicate HasEvidence(name: string, records: seq<Evidence>) { exists r <- records :: r.hint == name }

  predicate Supported(name: string, l: Locator, records: seq<Evidence>) {
    exists r <- records :: r.hint == name && Shows(r, l)
  }

  /** Some observation of the locator carries an ambiguity note. */
  predicate Noted(r: Evidence, l: Locator) {
    (exists c <- r.locators :: c.locator == l && Ambiguous(c))
    || (exists o <- r.outputs :: o.locator.Some? && o.locator.value.locator == l && Ambiguous(o.locator.value))
  }

  predicate AmbiguousIn(name: string, l: Locator, records: seq<Evidence>) {
    exists r <- records :: r.hint == name && Noted(r, l)
  }

  predicate Decided(name: string, l: Locator, decisions: seq<Decision>) {
    exists d <- decisions :: d.hint == name && d.locator == l && !Blank(d.rationale)
  }

  ghost predicate Passes(name: string, a: Action, records: seq<Evidence>, decisions: seq<Decision>) {
    && HasEvidence(name, records)
    && forall l | Declares(a, l) ::
         Supported(name, l, records) && (AmbiguousIn(name, l, records) ==> Decided(name, l, decisions))
  }

  datatype Failure = MissingEvidence(name: string) | MissingLocator(name: string, locator: Locator)
                   | AmbiguousLocator(name: string, locator: Locator)

  /** The failures an action deserves. */
  predicate Deserved(name: string, a: Action, records: seq<Evidence>, decisions: seq<Decision>, f: Failure) {
    f.name == name
    && match f
       case MissingEvidence(_) => !HasEvidence(name, records)
       case MissingLocator(_, l) => HasEvidence(name, records) && Declares(a, l) && !Supported(name, l, records)
       case AmbiguousLocator(_, l) =>
         HasEvidence(name, records) && Declares(a, l) && Supported(name, l, records)
         && AmbiguousIn(name, l, records) && !Decided(name, l, decisions)
  }

  /** An action passes exactly when it deserves no failure. */
  lemma PassesMeansNoFailure(name: string, a: Action, records: seq<Evidence>, decisions: seq<Decision>)
    ensures Passes(name, a, records, decisions) <==> forall f :: !Deserved(name, a, records, decisions, f)
  {
    hide Declares, HasEvidence, Supported, AmbiguousIn, Decided;
    if forall f :: !Deserved(name, a, records, decisions, f) {
      assert !Deserved(name, a, records, decisions, MissingEvidence(name));
      forall l | Declares(a, l)
        ensures Supported(name, l, records) && (AmbiguousIn(name, l, records) ==> Decided(name, l, decisions))
      {
        assert !Deserved(name, a, records, decisions, MissingLocator(name, l));
        assert !Deserved(name, a, records, decisions, AmbiguousLocator(name, l));
      }
    }
  }

  // The gate.

  /** The locators an action declares, in order. */
  method ActionLocators(a: Action) returns (ls: seq<Locator>)
    ensures forall l :: l in ls <==> Declares(a, l)
  {
    ls := [];
    for i := 0 to |a.sequence|
      invariant forall l :: l in ls <==> exists j | 0 <= j < i :: StepDeclares(a.sequence[j], l)
    {
      var s := a.sequence[i];
      if LocatorOf(s).Some? { ls := ls + [LocatorOf(s).value]; }
      if PostWaitOf(s).Some? { ls := ls + [PostWaitOf(s).value]; }
    }
    assert forall l :: l in ls <==> exists s <- a.sequence :: StepDeclares(s, l);
    ghost var steps := ls;
    var keys := a.outputs.Keys;
    while keys != {}
      invariant keys <= a.outputs.Keys
      invariant forall l :: l in ls <==> l in steps || exists k <- a.outputs.Keys - keys :: OutputDeclares(a.outputs[k], l)
      decreases |keys|
    {
      var k :| k in keys;
      keys := keys - {k};
      var o := a.outputs[k];
      if o.source == A11y && o.locator.Some? { ls := ls + [o.locator.value]; }
    }
  }

  /** All observations of a locator in the given records. */
  method MatchingCandidates(l: Locator, records: seq<Evidence>) returns (ms: seq<Candidate>)
    ensures ms != [] <==> exists r <- records :: Shows(r, l)
    ensures (exists m <- ms :: Ambiguous(m)) <==> exists r <- records :: Noted(r, l)
  {
    ms := [];
    for i := 0 to |records|
      invariant ms != [] <==> exists j | 0 <= j < i :: Shows(records[j], l)
      invariant (exists m <- ms :: Ambiguous(m)) <==> exists j | 0 <= j < i :: Noted(records[j], l)
    {
      var more := MatchesIn(l, records[i]);
      var before := ms;
      ms := ms + more;
      assert forall m :: m in ms <==> m in before || m in more;
    }
  }

  method MatchesIn(l: Locator, r: Evidence) returns (ms: seq<Candidate>)
    ensures ms != [] <==> Shows(r, l)
    ensures (exists m <- ms :: Ambiguous(m)) <==> Noted(r, l)
  {
    ms := [];
    for i := 0 to |r.locators|
      invariant forall m :: m in ms <==> exists j | 0 <= j < i :: r.locators[j] == m && m.locator == l
    {
      if r.locators[i].locator == l { ms := ms + [r.locators[i]]; }
    }
    ghost var direct := ms;
    assert forall m :: m in direct <==> m in r.locators && m.locator == l;
    for i := 0 to |r.outputs|
      invariant forall m :: m in ms <==> (m in direct
                  || exists j | 0 <= j < i :: r.outputs[j].locator == Some(m) && m.locator == l)
    {
      var o := r.outputs[i];
      if o.locator.Some? && o.locator.value.locator == l { ms := ms + [o.locator.value]; }
    }
    assert forall m :: m in ms <==> m in direct || exists o <- r.outputs :: o.locator == Some(m) && m.locator == l;
    MatchesMean(l, r, ms);
  }

  lemma MatchesMean(l: Locator, r: Evidence, ms: seq<Candidate>)
    requires forall m :: m in ms <==> (m in r.locators && m.locator == l)
                                      || exists o <- r.outputs :: o.locator == Some(m) && m.locator == l
    ensures ms != [] <==> Shows(r, l)
    ensures (exists m <- ms :: Ambiguous(m)) <==> Noted(r, l)
  {
    if ms != [] { assert ms[0] in ms; }
    if Shows(r, l) {
      if exists c <- r.locators :: c.locator == l {
        var c :| c in r.locators && c.locator == l;
        assert c in ms;
      } else {
        var o :| o in r.outputs && o.locator.Some? && o.locator.value.locator == l;
        assert o.locator.value in ms;
      }
    }
    if Noted(r, l) {
      if exists c <- r.locators :: c.locator == l && Ambiguous(c) {
        var c :| c in r.locators && c.locator == l && Ambiguous(c);
        assert c in ms;
      } else {
        var o :| o in r.outputs && o.locator.Some? && o.locator.value.locator == l && Ambiguous(o.locator.value);
        assert o.locator.value in ms;
      }
    }
  }

  method HasDecision(name: string, l: Locator, decisions: seq<Decision>) returns (b: bool)
    ensures b <==> Decided(name, l, decisions)
  {
    for i := 0 to |decisions|
      invariant forall j | 0 <= j < i :: !(decisions[j].hint == name && decisions[j].locator == l && !Blank(decisions[j].rationale))
    {
      var d := decisions[i];
      if !Blank(d.rationale) && d.hint == name && d.locator == l {
        assert d in decisions;
        return true;
      }
    }
    b := false;
  }

  method RecordsOf(name: string, records: seq<Evidence>) returns (mine: seq<Evidence>)
    ensures forall r :: r in mine <==> r in records && r.hint == name
  {
    mine := [];
    for i := 0 to |records|
      invariant forall r :: r in mine <==> r in records[..i] && r.hint == name
    {
      assert records[..i + 1] == records[..i] + [records[i]];
      if records[i].hint == name { mine := mine + [records[i]]; }
    }
    assert records[..|records|] == records;
  }

  method CheckAction(name: string, a: Action, records: seq<Evidence>, decisions: seq<Decision>) returns (fs: seq<Failure>)
    ensures forall f :: f in fs <==> Deserved(name, a, records, decisions, f)
  {
    hide Declares, Decided, Shows, Noted;
    fs := [];
    var mine := RecordsOf(name, records);
    if |mine| == 0 {
      return [MissingEvidence(name)];
    }
    assert mine[0] in mine;
    var ls := ActionLocators(a);
    for i := 0 to |ls|
      invariant forall f :: f in fs <==> f.name == name && !f.MissingEvidence? && f.locator in ls[..i]
                                         && Deserved(name, a, records, decisions, f)
    {
      assert ls[..i + 1] == ls[..i] + [ls[i]] && ls[i] in ls;
      var ms := MatchingCandidates(ls[i], mine);
      assert Supported(name, ls[i], records) <==> ms != [];
      if |ms| == 0 {
        fs := fs + [MissingLocator(name, ls[i])];
      } else {
        var ambiguous := exists m <- ms :: Ambiguous(m);
        assert AmbiguousIn(name, ls[i], records) <==> ambiguous;
        var decided := HasDecision(name, ls[i], decisions);
        if ambiguous && !decided { fs := fs + [AmbiguousLocator(name, ls[i])]; }
      }
    }
    assert ls[..|ls|] == ls;
  }

  /** The gate over all actions reports exactly the deserved failures, so none when every action passes. */
  method CheckEvidence(actions: map<string, Action>, records: seq<Evidence>, decisions: seq<Decision>)
    returns (fs: seq<Failure>)
    ensures forall f :: f in fs <==> f.name in actions && Deserved(f.name, actions[f.name], records, decisions, f)
    ensures fs == [] <==> forall name <- actions :: Passes(name, actions[name], records, decisions)
  {
    hide Deserved, Passes;
    fs := [];
    var names := actions.Keys;
    while names != {}
      invariant names <= actions.Keys
      invariant forall f :: f in fs <==> f.name in actions.Keys - names
                                         && Deserved(f.name, actions[f.name], records, decisions, f)
      decreases |names|
    {
      var name :| name in names;
      names := names - {name};
      var more := CheckAction(name, actions[name], records, decisions);
      forall f | f in more ensures f.name == name { DeservedName(name, actions[name], records, decisions, f); }
      fs := fs + more;
    }
    NoFailures(actions, records, decisions, fs);
  }

  lemma NoFailures(actions: map<string, Action>, records: seq<Evidence>, decisions: seq<Decision>, fs: seq<Failure>)
    requires forall f :: f in fs <==> f.name in actions && Deserved(f.name, actions[f.name], records, decisions, f)
    ensures fs == [] <==> forall name <- actions :: Passes(name, actions[name], records, decisions)
  {
    hide Deserved, Passes;
    forall name <- actions
      ensures Passes(name, actions[name], records, decisions)
              <==> forall f :: !Deserved(name, actions[name], records, decisions, f)
    {
      PassesMeansNoFailure(name, actions[name], records, decisions);
    }
    forall name, f | name in actions && Deserved(name, actions[name], records, decisions, f) ensures f in fs {
      DeservedName(name, actions[name], records, decisions, f);
    }
    if fs != [] {
      assert fs[0] in fs;
      assert !Passes(fs[0].name, actions[fs[0].name], records, decisions);
    } else {
      forall name <- actions ensures Passes(name, actions[name], records, decisions) {
        assert forall f :: Deserved(name, actions[name], records, decisions, f) ==> f in fs;
      }
    }
  }

  lemma DeservedName(name: string, a: Action, records: seq<Evidence>, decisions: seq<Decision>, f: Failure)
    requires Deserved(name, a, records, decisions, f)
    ensures f.name == name
  {
  }
}
