/**
 Exactly which of the browser's reports a registration session accepts, and what it discloses of one, condition
 by condition and position by position.
 */
module RegistrationReport {
  import opened Wrappers
  import opened PageText
  import opened RegistrationModel
  import opened Evidence
  import opened EvidenceMeaning
  import opened RegistrationLog
  import opened RegistrationSession

  /** A candidate that may be disclosed: controls are judged only in typed versions and under a name of their own. */
  predicate SoundRaw(s: Scope, raw: RawCandidate) {
    && raw.wellFormed && !raw.role.OtherRole? && !raw.name.Unreduced? && 1 <= raw.matches <= s.bounds.maxCandidates
    && (raw.control.Some? && raw.name.Reduced? && (s.protocol == V3 || s.protocol == V4) ==> SoundControl(raw.control.value))
    && (raw.verification.Some? && s.protocol == V4 ==> SoundWidget(raw.verification.value, s.origins))
  }

  /** A page inside the session's origins, without repeated or unsound candidates, and known warnings only. */
  predicate SoundReport(s: Scope, noted: set<Warning>, raw: RawObservation) {
    && raw.origin.exact && raw.origin in s.origins && raw.path.disclosable
    && |raw.candidates| <= s.bounds.maxCandidates
    && (forall k | 0 <= k < |raw.candidates| :: SoundRaw(s, raw.candidates[k]))
    && (forall i, j | 0 <= i < j < |raw.candidates| ::
          raw.candidates[i].role != raw.candidates[j].role || raw.candidates[i].name != raw.candidates[j].name)
    && |raw.diagnostics| <= 256 && (forall w <- raw.diagnostics :: !w.OtherWarning?)
    && |noted + Elements(raw.diagnostics)| <= 256
  }

  /** Candidate k as it was reported, under an identifier of this generation; typed versions alone have controls. */
  predicate ShowsAs(p: Protocol, generation: int, raw: RawCandidate, k: nat, c: Candidate) {
    && c.id == CandidateId(generation, raw.role, raw.name, k)
    && c.role == raw.role && c.name == raw.name && c.matches == raw.matches
    && c.control == (if raw.name.Reduced? && (p == V3 || p == V4) then raw.control else None)
    && c.verification == (if p == V4 then raw.verification else None)
  }

  /** The observation is the report: page, candidates in their places, each warning once and in order. */
  ghost predicate Lists(p: Protocol, generation: int, raw: RawObservation, o: Observation) {
    && o.generation == generation && o.origin == raw.origin && o.path == raw.path && |o.candidates| == |raw.candidates|
    && (forall k | 0 <= k < |raw.candidates| :: ShowsAs(p, generation, raw.candidates[k], k, o.candidates[k]))
    && (forall w :: w in o.diagnostics <==> w in raw.diagnostics)
    && forall i | 0 < i < |o.diagnostics| :: WarningRank(o.diagnostics[i - 1]) < WarningRank(o.diagnostics[i])
  }

  lemma RawIff(s: Scope, raw: RawCandidate)
    ensures Reducible(s, raw) <==> SoundRaw(s, raw)
  {
    if raw.control.Some? { ControlIff(raw.control.value); }
    if raw.verification.Some? { WidgetIff(raw.verification.value, s.origins); }
    hide ControlOk, SoundControl, VerificationObservationOk, SoundWidget;
  }

  lemma ListsIff(s: Scope, raw: RawObservation, o: Observation)
    requires DiagnosticsOk(o.diagnostics)
    ensures ReducedFrom(s, raw, o) <==> Lists(s.protocol, o.generation, raw, o)
  {
    if Lists(s.protocol, o.generation, raw, o) {
      assert forall w :: w in Elements(o.diagnostics) <==> w in o.diagnostics;
      assert Elements(o.diagnostics) == Elements(raw.diagnostics);
    }
    if ReducedFrom(s, raw, o) {
      forall w ensures w in o.diagnostics <==> w in raw.diagnostics {
        assert w in Elements(o.diagnostics) <==> w in Elements(raw.diagnostics);
      }
    }
  }

  lemma {:induction false} RanksRise(s: seq<Warning>, i: nat, j: nat)
    requires CanonicalWarnings(s) && i < j < |s|
    ensures WarningRank(s[i]) < WarningRank(s[j])
    decreases j
  {
    hide WarningRank, KnownWarning;
    if i + 1 < j { RanksRise(s, i, j - 1); }
  }

  /** Sorted warnings are counted by their set. */
  lemma {:induction false} WarningsCount(s: seq<Warning>)
    requires CanonicalWarnings(s)
    ensures |Elements(s)| == |s|
  {
    hide WarningRank, KnownWarning;
    if s != [] {
      var n := |s| - 1;
      WarningsCount(s[..n]);
      assert s == s[..n] + [s[n]];
      assert Elements(s) == Elements(s[..n]) + {s[n]};
      forall i | 0 <= i < n ensures s[i] != s[n] { RanksRise(s, i, n); }
    }
  }

  lemma MoreWarnings(noted: set<Warning>, some: seq<Warning>, all: seq<Warning>)
    requires some <= all
    ensures |noted + Elements(some)| <= |noted + Elements(all)|
  {
    Subset(noted + Elements(some), noted + Elements(all));
  }

  lemma {:induction false} Subset(a: set<Warning>, b: set<Warning>)
    requires a <= b
    ensures |a| <= |b|
  {
    assert b == a + (b - a);
  }
}
