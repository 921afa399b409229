/**
 Guided authoring and the revalidation gate: what the guide builds from saved evidence never fails
 the gate for missing evidence, a missing locator, or an undecided ambiguous locator.
 */
module Guide {
  import opened Wrappers

  // Evidence.

  /** A portable accessibility locator. */
  datatype Locator = Locator(role: string, name: string, text: string, value: string)

  /** An observed locator; a note marks it as ambiguous. */
  datatype Candidate = Candidate(locator: Locator, note: string)

  datatype Source = A11y | JsonLd | Microdata | Css | NoSource | OtherSource(text: string)

  /** `refused` outputs are credential-shaped or use selectors that are not portable. */
  datatype CandidateOutput = CandidateOutput(
    key: string, source: Source, locator: Option<Candidate>, rest: string, refused: bool)

  datatype Evidence = Evidence(origin: string, hint: string, locators: seq<Candidate>, outputs: seq<CandidateOutput>)

  datatype Decision = Decision(hint: string, locator: Locator, rationale: string)

  predicate Ambiguous(c: Candidate) { c.note != "" }

  // Identity of locators: each field is prefixed with its length.

  function Digit(n: nat): char
    requires n < 10
  {
    ('0' as int + n) as char
  }

  function Decimal(n: nat): (s: string)
    ensures |s| > 0 && forall i | 0 <= i < |s| :: '0' <= s[i] <= '9'
  {
    if n < 10 then [Digit(n)] else Decimal(n / 10) + [Digit(n % 10)]
  }

  lemma {:induction false} DecimalInjective(a: nat, b: nat)
    requires Decimal(a) == Decimal(b)
    ensures a == b
    decreases a + b
  {
    if a >= 10 && b >= 10 {
      assert Decimal(a / 10) == Decimal(a)[..|Decimal(a)| - 1];
      assert Decimal(b / 10) == Decimal(b)[..|Decimal(b)| - 1];
      assert Decimal(a)[|Decimal(a)| - 1] == Digit(a % 10) && Decimal(b)[|Decimal(b)| - 1] == Digit(b % 10);
      DecimalInjective(a / 10, b / 10);
    } else if a < 10 && b < 10 {
      assert Decimal(a)[0] == Decimal(b)[0];
    }
  }

  function Field(s: string): string { Decimal(|s|) + [':'] + s }

  lemma FirstColon(s: string, da: string, db: string)
    requires |da| < |s| && |db| < |s| && s[..|da|] == da && s[..|db|] == db && s[|da|] == ':' == s[|db|]
    requires (forall i | 0 <= i < |da| :: '0' <= da[i] <= '9') && (forall i | 0 <= i < |db| :: '0' <= db[i] <= '9')
    ensures |da| == |db|
  {
    assert forall i | 0 <= i < |da| :: s[i] == da[i];
    assert forall i | 0 <= i < |db| :: s[i] == db[i];
  }

  /** The first colon ends the length, so a field can be split off from whatever follows it. */
  lemma FieldSplits(a: string, x: string, b: string, y: string)
    requires Field(a) + x == Field(b) + y
    ensures a == b && x == y
  {
    var s, da, db := Field(a) + x, Decimal(|a|), Decimal(|b|);
    FieldParts(da, a, x);
    FieldParts(db, b, y);
    FirstColon(s, da, db);
    DecimalInjective(|a|, |b|);
    assert a == (a + x)[..|a|] && b == (b + y)[..|b|];
    assert x == (a + x)[|a|..] && y == (b + y)[|b|..];
  }

  lemma FieldParts(digits: string, a: string, x: string)
    ensures var s := (digits + [':'] + a) + x;
            s[..|digits|] == digits && s[|digits|] == ':' && s[|digits| + 1..] == a + x
  {
  }

  function Identity(l: Locator): string {
    Field(l.role) + (Field(l.name) + (Field(l.text) + (Field(l.value) + "")))
  }

  /** Two locators have one identity exactly when they are the same portable locator. */
  lemma IdentityInjective(l: Locator, m: Locator)
    ensures Identity(l) == Identity(m) <==> l == m
  {
    if Identity(l) == Identity(m) {
      FieldSplits(l.role, Field(l.name) + (Field(l.text) + (Field(l.value) + "")),
                  m.role, Field(m.name) + (Field(m.text) + (Field(m.value) + "")));
      FieldSplits(l.name, Field(l.text) + (Field(l.value) + ""), m.name, Field(m.text) + (Field(m.value) + ""));
      FieldSplits(l.text, Field(l.value) + "", m.text, Field(m.value) + "");
      FieldSplits(l.value, "", m.value, "");
    }
  }

  // The catalog.

  type RecordId = nat
  datatype LocatorId = LocatorId(record: RecordId, index: nat)
  datatype OutputId = OutputId(record: RecordId, index: nat)

  datatype LocatorEntry = LocatorEntry(record: RecordId, candidate: Candidate)
  datatype OutputEntry = OutputEntry(record: RecordId, output: CandidateOutput, locator: Option<LocatorId>)

  datatype Catalog = Catalog(
    records: map<RecordId, Evidence>, locators: map<LocatorId, LocatorEntry>, outputs: map<OutputId, OutputEntry>)

  const MAX_RECORDS := 256
  const MAX_LOCATORS := 8192
  const MAX_OUTPUTS := 4096

  /** A record shows a portable locator directly or on one of its outputs. */
  predicate Shows(r: Evidence, l: Locator) {
    (exists c <- r.locators :: c.locator == l) || (exists o <- r.outputs :: o.locator.Some? && o.locator.value.locator == l)
  }

  predicate LocatorsOk(c: Catalog) {
    forall id <- c.locators ::
      c.locators[id].record in c.records && Shows(c.records[c.locators[id].record], c.locators[id].candidate.locator)
  }

  /** An output's locator entry is the very locator of the output, and of the same record. */
  predicate OutputsOk(c: Catalog) {
    forall id <- c.outputs ::
      var o := c.outputs[id];
      && o.record in c.records && !o.output.refused
      && (o.locator.Some? <==> o.output.locator.Some?)
      && (o.locator.Some? ==> o.locator.value in c.locators && c.locators[o.locator.value].record == o.record
                              && c.locators[o.locator.value].candidate.locator == o.output.locator.value.locator)
  }

  predicate CatalogOk(c: Catalog) { LocatorsOk(c) && OutputsOk(c) }

  predicate Contains(cs: seq<Candidate>, l: Locator) { exists c <- cs :: c.locator == l }

  /** The locators of record id are exactly these, each under its position. */
  ghost predicate HasLocators(c: Catalog, id: RecordId, ls: seq<Candidate>) {
    forall k: LocatorId | k.record == id ::
      (k in c.locators <==> k.index < |ls|) && (k in c.locators ==> c.locators[k] == LocatorEntry(id, ls[k.index]))
  }

  /** The outputs of record id are exactly these, each under its position. */
  ghost predicate HasOutputs(c: Catalog, id: RecordId, outputs: seq<CandidateOutput>) {
    forall k: OutputId | k.record == id ::
      (k in c.outputs <==> k.index < |outputs|) && (k in c.outputs ==> EntryOf(c, id, outputs[k.index], c.outputs[k]))
  }

  /** The entry of an output of record id, bound to an entry of the same record with its very locator. */
  ghost predicate EntryOf(c: Catalog, id: RecordId, o: CandidateOutput, e: OutputEntry) {
    && e.record == id && e.output == o && (e.locator.Some? <==> o.locator.Some?)
    && (o.locator.Some? ==>
          e.locator.value.record == id && e.locator.value in c.locators
          && c.locators[e.locator.value].candidate.locator == o.locator.value.locator)
  }

  /** All locators of a record: its own, and those its outputs add. */
  function WithOutputs(ls: seq<Candidate>, outputs: seq<CandidateOutput>): seq<Candidate> {
    if outputs == [] then ls
    else
      var before, o := WithOutputs(ls, outputs[..|outputs| - 1]), outputs[|outputs| - 1];
      if o.locator.Some? && !Contains(before, o.locator.value.locator) then before + [o.locator.value] else before
  }

  function AllLocators(r: Evidence): seq<Candidate> { WithOutputs(r.locators, r.outputs) }

  /** They show nothing the record does not, and everything it does. */
  lemma {:induction false} AllLocatorsAre(r: Evidence, n: nat)
    requires n <= |r.outputs|
    ensures forall c <- WithOutputs(r.locators, r.outputs[..n]) :: Shows(r, c.locator)
    ensures forall c <- r.locators :: Contains(WithOutputs(r.locators, r.outputs[..n]), c.locator)
    ensures forall j | 0 <= j < n && r.outputs[j].locator.Some? ::
              Contains(WithOutputs(r.locators, r.outputs[..n]), r.outputs[j].locator.value.locator)
  {
    var ls := WithOutputs(r.locators, r.outputs[..n]);
    if n == 0 {
      forall c <- r.locators ensures Contains(ls, c.locator) {}
    } else {
      AllLocatorsAre(r, n - 1);
      var before, o := WithOutputs(r.locators, r.outputs[..n - 1]), r.outputs[n - 1];
      assert r.outputs[..n][..n - 1] == r.outputs[..n - 1] && r.outputs[..n][n - 1] == o && o in r.outputs;
      assert forall l :: Contains(before, l) ==> Contains(ls, l) by {
        forall l | Contains(before, l) ensures Contains(ls, l) {
          var c :| c in before && c.locator == l;
          assert c in ls;
        }
      }
      if o.locator.Some? && !Contains(before, o.locator.value.locator) { assert o.locator.value in ls; }
    }
  }

  method CollectLocators(r: Evidence) returns (ls: seq<Candidate>)
    ensures ls == AllLocators(r)
  {
    ls := r.locators;
    for i := 0 to |r.outputs|
      invariant ls == WithOutputs(r.locators, r.outputs[..i])
    {
      var o := r.outputs[i];
      assert r.outputs[..i + 1][..i] == r.outputs[..i];
      if o.locator.Some? && !Contains(ls, o.locator.value.locator) { ls := ls + [o.locator.value]; }
    }
    assert r.outputs[..|r.outputs|] == r.outputs;
  }

  function LocatorCount(records: seq<Evidence>): nat {
    if records == [] then 0 else LocatorCount(records[..|records| - 1]) + |AllLocators(records[|records| - 1])|
  }

  function OutputCount(records: seq<Evidence>): nat {
    if records == [] then 0 else OutputCount(records[..|records| - 1]) + |records[|records| - 1].outputs|
  }

  lemma {:induction false} CountsGrow(records: seq<Evidence>, n: nat)
    requires n <= |records|
    ensures LocatorCount(records[..n]) <= LocatorCount(records) && OutputCount(records[..n]) <= OutputCount(records)
    decreases |records|
  {
    if n == |records| {
      assert records[..n] == records;
    } else {
      CountsGrow(records[..|records| - 1], n);
      assert records[..|records| - 1][..n] == records[..n];
    }
  }

  predicate NothingRefused(r: Evidence) { forall o <- r.outputs :: !o.refused }

  /** Nothing of record id is there yet. */
  ghost predicate NewRecord(c: Catalog, id: RecordId) {
    (forall k <- c.locators :: k.record != id) && forall k <- c.outputs :: k.record != id
  }

  /** The entries of other records are the same ones. */
  ghost predicate SameElsewhere(c: Catalog, c': Catalog, id: RecordId) {
    && (forall k: LocatorId | k.record != id ::
          (k in c'.locators <==> k in c.locators) && (k in c.locators ==> c'.locators[k] == c.locators[k]))
    && forall k: OutputId | k.record != id ::
         (k in c'.outputs <==> k in c.outputs) && (k in c.outputs ==> c'.outputs[k] == c.outputs[k])
  }

  /** Adds the locators of a record under their positions; the identities lead back to entries with the same portable locator. */
  method AddLocators(catalog: Catalog, id: RecordId, ls: seq<Candidate>)
    returns (r: Catalog, byIdentity: map<string, LocatorId>)
    requires NewRecord(catalog, id)
    ensures r.records == catalog.records && r.outputs == catalog.outputs && SameElsewhere(catalog, r, id)
    ensures HasLocators(r, id, ls) && forall c <- ls :: Resolves(r, id, byIdentity, c.locator)
  {
    hide Identity, HasLocators, SameElsewhere;
    NoLocators(catalog, id);
    assert ls[..0] == [];
    r, byIdentity := catalog, map[];
    for i := 0 to |ls|
      invariant r.records == catalog.records && r.outputs == catalog.outputs && SameElsewhere(catalog, r, id)
      invariant HasLocators(r, id, ls[..i])
      invariant forall k <- byIdentity ::
                  byIdentity[k].record == id && byIdentity[k] in r.locators
                  && Identity(r.locators[byIdentity[k]].candidate.locator) == k
      invariant forall j | 0 <= j < i :: Identity(ls[j].locator) in byIdentity
    {
      var key := LocatorId(id, i);
      ghost var before := r;
      r := r.(locators := r.locators[key := LocatorEntry(id, ls[i])]);
      byIdentity := byIdentity[Identity(ls[i].locator) := key];
      OneMoreLocator(catalog, before, r, id, ls, i);
    }
    assert ls[..|ls|] == ls;
    forall c <- ls ensures Resolves(r, id, byIdentity, c.locator) {
      assert Identity(c.locator) in byIdentity;
      IdentityInjective(c.locator, r.locators[byIdentity[Identity(c.locator)]].candidate.locator);
    }
  }

  lemma NoLocators(c: Catalog, id: RecordId)
    requires NewRecord(c, id)
    ensures HasLocators(c, id, []) && SameElsewhere(c, c, id)
  {
  }

  lemma OneMoreLocator(start: Catalog, c: Catalog, c': Catalog, id: RecordId, ls: seq<Candidate>, i: nat)
    requires i < |ls| && HasLocators(c, id, ls[..i]) && SameElsewhere(start, c, id)
    requires c' == c.(locators := c.locators[LocatorId(id, i) := LocatorEntry(id, ls[i])])
    ensures HasLocators(c', id, ls[..i + 1]) && SameElsewhere(start, c', id)
    ensures LocatorId(id, i) !in c.locators
  {
    assert LocatorId(id, i) !in c.locators;
    forall k: LocatorId | k.record == id
      ensures k in c'.locators <==> k.index < i + 1
      ensures k in c'.locators ==> c'.locators[k] == LocatorEntry(id, ls[..i + 1][k.index])
    {
      if k.index == i {
        assert k == LocatorId(id, i);
      } else {
        assert k in c'.locators <==> k in c.locators;
      }
    }
  }

  /** The identity of l leads to an entry of record id with this portable locator. */
  ghost predicate Resolves(c: Catalog, id: RecordId, byIdentity: map<string, LocatorId>, l: Locator) {
    Identity(l) in byIdentity && byIdentity[Identity(l)].record == id && byIdentity[Identity(l)] in c.locators
    && c.locators[byIdentity[Identity(l)]].candidate.locator == l
  }

  /** Adds the outputs of a record under their positions; refused only for a refused output. */
  method AddOutputs(catalog: Catalog, id: RecordId, outputs: seq<CandidateOutput>, byIdentity: map<string, LocatorId>)
    returns (r: Option<Catalog>)
    requires NewOutputs(catalog, id)
    requires forall o <- outputs :: o.locator.Some? ==> Resolves(catalog, id, byIdentity, o.locator.value.locator)
    ensures r.Some? <==> forall o <- outputs :: !o.refused
    ensures r.Some? ==> r.value.records == catalog.records && r.value.locators == catalog.locators
                        && SameElsewhere(catalog, r.value, id) && HasOutputs(r.value, id, outputs)
  {
    hide Identity;
    var c := catalog;
    for i := 0 to |outputs|
      invariant c.records == catalog.records && c.locators == catalog.locators && SameElsewhere(catalog, c, id)
      invariant HasOutputs(c, id, outputs[..i]) && forall j | 0 <= j < i :: !outputs[j].refused
    {
      var o := outputs[i];
      assert o in outputs;
      if o.refused { return None; }
      var locator := if o.locator.Some? then Some(byIdentity[Identity(o.locator.value.locator)]) else None;
      ghost var before := c;
      c := c.(outputs := c.outputs[OutputId(id, i) := OutputEntry(id, o, locator)]);
      OneMoreOutput(before, c, id, outputs, i, locator);
    }
    assert outputs[..|outputs|] == outputs;
    r := Some(c);
  }

  ghost predicate NewOutputs(c: Catalog, id: RecordId) { forall k <- c.outputs :: k.record != id }

  lemma OneMoreOutput(c: Catalog, c': Catalog, id: RecordId, outputs: seq<CandidateOutput>, i: nat, locator: Option<LocatorId>)
    requires i < |outputs| && HasOutputs(c, id, outputs[..i])
    requires c' == c.(outputs := c.outputs[OutputId(id, i) := OutputEntry(id, outputs[i], locator)])
    requires EntryOf(c, id, outputs[i], OutputEntry(id, outputs[i], locator))
    ensures HasOutputs(c', id, outputs[..i + 1])
  {
    forall k: OutputId | k.record == id
      ensures k in c'.outputs <==> k.index < i + 1
      ensures k in c'.outputs ==> EntryOf(c', id, outputs[..i + 1][k.index], c'.outputs[k])
    {
      if k.index == i {
        assert k == OutputId(id, i);
      } else {
        assert k in c'.outputs <==> k in c.outputs;
      }
    }
  }

  /** The catalog is exactly that of these records: every record, each of its locators and outputs, and nothing else. */
  ghost predicate Covers(c: Catalog, records: seq<Evidence>) {
    && (forall id :: id in c.records <==> 1 <= id <= |records|)
    && (forall k <- c.locators :: 1 <= k.record <= |records|) && (forall k <- c.outputs :: 1 <= k.record <= |records|)
    && forall id | 1 <= id <= |records| :: HasRecord(c, records, id)
  }

  /** Record id is the one at its position, with all of its locators and outputs. */
  ghost predicate HasRecord(c: Catalog, records: seq<Evidence>, id: RecordId)
    requires 1 <= id <= |records|
  {
    id in c.records && c.records[id] == records[id - 1] && HasLocators(c, id, AllLocators(records[id - 1]))
    && HasOutputs(c, id, records[id - 1].outputs)
  }

  /** Every entry of such a catalog is backed by the record it names. */
  lemma CoveredIsOk(c: Catalog, records: seq<Evidence>)
    requires Covers(c, records) && forall r <- records :: NothingRefused(r)
    ensures CatalogOk(c)
  {
    hide Shows, AllLocators, HasLocators, HasOutputs;
    forall k <- c.locators
      ensures c.locators[k].record in c.records && Shows(c.records[c.locators[k].record], c.locators[k].candidate.locator)
    {
      RecordOf(c, records, k.record);
      AllShown(records[k.record - 1]);
      LocatorIs(c, k, AllLocators(records[k.record - 1]));
    }
    forall k <- c.outputs
      ensures var o := c.outputs[k];
              && o.record in c.records && !o.output.refused && (o.locator.Some? <==> o.output.locator.Some?)
              && (o.locator.Some? ==> o.locator.value in c.locators && c.locators[o.locator.value].record == o.record
                                      && c.locators[o.locator.value].candidate.locator == o.output.locator.value.locator)
    {
      RecordOf(c, records, k.record);
      OutputIs(c, k, records[k.record - 1].outputs);
      assert records[k.record - 1] in records && c.outputs[k].output in records[k.record - 1].outputs;
      if c.outputs[k].locator.Some? { LocatorIs(c, c.outputs[k].locator.value, AllLocators(records[k.record - 1])); }
    }
  }

  lemma RecordOf(c: Catalog, records: seq<Evidence>, id: RecordId)
    requires Covers(c, records) && 1 <= id <= |records|
    ensures id in c.records && c.records[id] == records[id - 1]
    ensures HasLocators(c, id, AllLocators(records[id - 1])) && HasOutputs(c, id, records[id - 1].outputs)
  {
    hide AllLocators, HasLocators, HasOutputs;
    assert HasRecord(c, records, id);
  }

  lemma LocatorIs(c: Catalog, k: LocatorId, ls: seq<Candidate>)
    requires HasLocators(c, k.record, ls) && k in c.locators
    ensures k.index < |ls| && c.locators[k] == LocatorEntry(k.record, ls[k.index])
  {
  }

  lemma OutputIs(c: Catalog, k: OutputId, outputs: seq<CandidateOutput>)
    requires HasOutputs(c, k.record, outputs) && k in c.outputs
    ensures k.index < |outputs| && EntryOf(c, k.record, outputs[k.index], c.outputs[k])
  {
    hide EntryOf;
  }

  /** The catalog of validated evidence: there is one exactly for records within every limit, and it is exactly theirs. */
  method NewCatalog(records: seq<Evidence>) returns (catalog: Option<Catalog>)
    ensures catalog.Some? <==>
              && 0 < |records| <= 256 && LocatorCount(records) <= 8192 && OutputCount(records) <= 4096
              && forall r <- records, o <- r.outputs :: !o.refused
    ensures catalog.Some? ==> Covers(catalog.value, records) && CatalogOk(catalog.value)
  {
    hide Covers, AllLocators, CatalogOk;
    if |records| == 0 || |records| > MAX_RECORDS { return None; }
    var c, locators, outputs := Catalog(map[], map[], map[]), 0, 0;
    NothingCovered(c);
    assert records[..0] == [];
    for i := 0 to |records|
      invariant Covers(c, records[..i])
      invariant locators == LocatorCount(records[..i]) <= MAX_LOCATORS && outputs == OutputCount(records[..i]) <= MAX_OUTPUTS
      invariant forall j | 0 <= j < i :: NothingRefused(records[j])
    {
      assert records[..i + 1] == records[..i] + [records[i]] && records[..i + 1][..i] == records[..i];
      CountsGrow(records, i + 1);
      var ls := CollectLocators(records[i]);
      if locators + |ls| > MAX_LOCATORS || outputs + |records[i].outputs| > MAX_OUTPUTS { return None; }
      locators, outputs := locators + |ls|, outputs + |records[i].outputs|;
      var added := AddRecord(c, records[..i], i + 1, records[i], ls);
      if added.None? { assert records[i] in records; return None; }
      c := added.value;
    }
    assert records[..|records|] == records;
    CoveredIsOk(c, records);
    catalog := Some(c);
  }

  lemma NothingCovered(c: Catalog)
    requires c == Catalog(map[], map[], map[])
    ensures Covers(c, [])
  {
  }

  /** The next record, with its locators and outputs; refused only for a refused output. */
  method AddRecord(before: Catalog, ghost records: seq<Evidence>, id: RecordId, r: Evidence, ls: seq<Candidate>)
    returns (catalog: Option<Catalog>)
    requires Covers(before, records) && id == |records| + 1
    requires ls == AllLocators(r)
    ensures catalog.Some? ==> Covers(catalog.value, records + [r])
    ensures catalog.Some? <==> NothingRefused(r)
  {
    hide Shows, Identity, AllLocators, HasLocators, HasOutputs, Resolves;
    AllShown(r);
    ghost var count := |records|;
    var c := before.(records := before.records[id := r]);
    var withLocators, byIdentity := AddLocators(c, id, ls);
    forall o <- r.outputs | o.locator.Some? ensures Resolves(withLocators, id, byIdentity, o.locator.value.locator) {
      var l :| l in ls && l.locator == o.locator.value.locator;
    }
    var added := AddOutputs(withLocators, id, r.outputs, byIdentity);
    if added.None? { return None; }
    RecordAdded(before, withLocators, added.value, records, r);
    catalog := added;
  }

  lemma RecordAdded(before: Catalog, between: Catalog, after: Catalog, records: seq<Evidence>, r: Evidence)
    requires Covers(before, records)
    requires var id := |records| + 1;
             && between.records == before.records[id := r] && between.outputs == before.outputs
             && SameElsewhere(before.(records := between.records), between, id) && HasLocators(between, id, AllLocators(r))
             && after.records == between.records && after.locators == between.locators
             && SameElsewhere(between, after, id) && HasOutputs(after, id, r.outputs)
    ensures Covers(after, records + [r])
  {
    hide AllLocators, HasLocators, HasOutputs;
    var n, all := |records|, records + [r];
    forall id ensures id in after.records <==> 1 <= id <= n + 1 {
      assert id in before.records <==> 1 <= id <= n;
    }
    forall k | k in after.locators ensures 1 <= k.record <= |all| {
      assert k.record != n + 1 ==> k in before.locators;
    }
    forall k | k in after.outputs ensures 1 <= k.record <= |all| {
      assert k.record != n + 1 ==> k in before.outputs;
    }
    forall id: nat | 1 <= id <= n + 1
      ensures HasRecord(after, all, id)
    {
      if id <= n {
        assert all[id - 1] == records[id - 1];
        RecordOf(before, records, id);
        EntriesKept(before, after, id, n + 1, AllLocators(records[id - 1]), records[id - 1].outputs);
      } else {
        LocatorsKept(between, after, id, AllLocators(r));
      }
    }
  }

  lemma EntriesKept(c: Catalog, c': Catalog, id: RecordId, other: RecordId, ls: seq<Candidate>, outputs: seq<CandidateOutput>)
    requires id != other && HasLocators(c, id, ls) && HasOutputs(c, id, outputs) && SameElsewhere(c, c', other)
    ensures HasLocators(c', id, ls) && HasOutputs(c', id, outputs)
  {
  }

  lemma LocatorsKept(c: Catalog, c': Catalog, id: RecordId, ls: seq<Candidate>)
    requires HasLocators(c, id, ls) && c'.locators == c.locators
    ensures HasLocators(c', id, ls)
  {
  }

  lemma AllShown(r: Evidence)
    ensures forall c <- AllLocators(r) :: Shows(r, c.locator)
    ensures forall c <- r.locators :: Contains(AllLocators(r), c.locator)
    ensures forall o <- r.outputs :: o.locator.Some? ==> Contains(AllLocators(r), o.locator.value.locator)
  {
    hide Shows, Contains;
    AllLocatorsAre(r, |r.outputs|);
    assert r.outputs[..|r.outputs|] == r.outputs;
  }
}
