/**
 What Prune removes: over every interleaving, and undisturbed from start to finish.
 */
module CachePrune {
  import opened Wrappers
  import opened CacheModel
  import opened CacheInvariant
  import opened CacheRuns
  import opened CacheTheorems

  /** Whether what is stored under id is a complete entry that has expired at the time given. */
  predicate StoredExpired(entries: map<Digest, Files>, id: Digest, at: int) {
    && id in entries && entries[id].payload == Some(id.payload)
    && entries[id].manifest.Some? && entries[id].manifest.value.id == id
    && entries[id].manifest.value.expiresAt.Some? && entries[id].manifest.value.expiresAt.value <= at
  }

  /** A caller that has noted digests to remove, with what it read for them. */
  predicate Marks(pc: Pc) { pc.Scanning? || pc.Sweeping? }

  lemma MarkedBefore(c: Config, t: Tree, p: Pid, pc: Pc, x: Choice, id: Digest)
    requires StepEffect(c, t, p, pc, x).Some?
    requires var pc' := StepEffect(c, t, p, pc, x).value.pc; Marks(pc') && id in pc'.marked
    ensures var pc' := StepEffect(c, t, p, pc, x).value.pc;
            !x.Begin? && Marks(pc) && pc.at == pc'.at
            && ((x == Visit(id) && StoredExpired(t.entries, id, pc'.at)
                 && t.entries[id].manifest == Some(pc'.marked[id]))
                || (id in pc.marked && pc.marked[id] == pc'.marked[id]))
  {
    NeverMarks(c, t, p, pc);
  }

  lemma NeverMarks(c: Config, t: Tree, p: Pid, pc: Pc)
    ensures AcquireStep(c, t, pc).Some? ==> !Marks(AcquireStep(c, t, pc).value.pc)
    ensures PutStep(c, t, p, pc).Some? ==> !Marks(PutStep(c, t, p, pc).value.pc)
    ensures DeleteStep(t, pc).Some? ==> !Marks(DeleteStep(t, pc).value.pc)
    ensures ReleaseStep(t, p, pc).Some? ==> !Marks(ReleaseStep(t, p, pc).value.pc)
  {
  }

  /**
   What a Prune has noted for removal. A digest it means to remove was visited earlier in the same call, and
   what was stored under it then was a complete entry with an expiry that is not after the time of the call.
   */
  lemma {:induction false} MarkedWereExpired(c: Config, acts: Schedule, p: Pid, id: Digest) returns (k: nat)
    requires Run(c, INITIAL, acts).Some?
    requires var pc := PcOf(Run(c, INITIAL, acts).value, p); Marks(pc) && id in pc.marked
    ensures k < |acts| && acts[k] == (p, Visit(id)) && Run(c, INITIAL, acts[..k]).Some?
    ensures var pc, entries := PcOf(Run(c, INITIAL, acts).value, p), Run(c, INITIAL, acts[..k]).value.tree.entries;
            id in entries && entries[id] == Files(Some(id.payload), Some(pc.marked[id]))
            && pc.marked[id].id == id && pc.marked[id].expiresAt.Some? && pc.marked[id].expiresAt.value <= pc.at
    ensures forall j | k < j < |acts| :: acts[j].0 == p ==> !acts[j].1.Begin?
    decreases |acts|
  {
    hide StepEffect;
    assert acts != [];
    var n := |acts| - 1;
    var (q, x) := acts[n];
    var before := Run(c, INITIAL, acts[..n]).value;
    var pc, pc' := PcOf(before, p), PcOf(Run(c, INITIAL, acts).value, p);
    if q == p {
      MarkedBefore(c, before.tree, p, pc, x, id);
    }
    if q == p && x == Visit(id) && StoredExpired(before.tree.entries, id, pc'.at)
       && before.tree.entries[id].manifest == Some(pc'.marked[id]) {
      k := n;
    } else {
      k := MarkedWereExpired(c, acts[..n], p, id);
      assert acts[..n][..k] == acts[..k] && acts[..n][k] == acts[k];
      forall j | k < j < |acts| ensures acts[j].0 == p ==> !acts[j].1.Begin? {
        assert j < n ==> acts[..n][j] == acts[j];
      }
    }
  }

  // What a Prune looked at.

  lemma ScanBefore(c: Config, t: Tree, p: Pid, pc: Pc, x: Choice)
    requires StepEffect(c, t, p, pc, x).Some? && Marks(StepEffect(c, t, p, pc, x).value.pc)
    ensures var pc' := StepEffect(c, t, p, pc, x).value.pc;
            || (x == Go && pc.Listing? && |t.entries| <= c.maxItems && pc' == Scanning(pc.at, t.entries.Keys, map[]))
            || (x.Visit? && pc.Scanning? && pc'.Scanning? && pc'.at == pc.at && pc'.todo == pc.todo - {x.id}
                && Loads(t.entries, x.id) && pc.marked.Keys <= pc'.marked.Keys
                && (StoredExpired(t.entries, x.id, pc.at) ==> x.id in pc'.marked))
            || (x == Go && pc.Scanning? && pc.todo == {} && pc' == Sweeping(pc.at, pc.marked.Keys, pc.marked))
            || (x.Sweep? && pc.Sweeping? && pc' == Sweeping(pc.at, pc.todo - {x.id}, pc.marked))
  {
    NeverMarks(c, t, p, pc);
  }

  /** What is stored under id is complete. */
  predicate Loads(entries: map<Digest, Files>, id: Digest) {
    && id in entries && entries[id].payload == Some(id.payload)
    && entries[id].manifest.Some? && entries[id].manifest.value.id == id
  }

  /** Step k of the call found a complete entry under id, and noted it if it had expired. */
  ghost predicate Found(c: Config, acts: Schedule, p: Pid, pc: Pc, k: nat, id: Digest)
    requires Marks(pc)
  {
    && k < |acts| && acts[k] == (p, Visit(id)) && Run(c, INITIAL, acts[..k]).Some?
    && var entries := Run(c, INITIAL, acts[..k]).value.tree.entries;
       Loads(entries, id) && (StoredExpired(entries, id, pc.at) ==> id in pc.marked)
  }

  /** Every digest of a listing is still to be visited or was found after it. */
  ghost predicate Accounted(c: Config, acts: Schedule, p: Pid, pc: Pc, k0: nat, listed: set<Digest>)
    requires Marks(pc)
  {
    forall id <- listed :: (pc.Scanning? && id in pc.todo) || exists k :: k0 < k && Found(c, acts, p, pc, k, id)
  }

  lemma FoundStays(c: Config, acts: Schedule, p: Pid, pc: Pc, pc': Pc, k: nat, id: Digest)
    requires acts != [] && Marks(pc) && Marks(pc') && pc.at == pc'.at && pc.marked.Keys <= pc'.marked.Keys
    requires Found(c, acts[..|acts| - 1], p, pc, k, id)
    ensures Found(c, acts, p, pc', k, id)
  {
    hide Run, Loads, StoredExpired;
    assert acts[..|acts| - 1][..k] == acts[..k];
  }

  lemma AccountedOn(c: Config, acts: Schedule, p: Pid, pc: Pc, pc': Pc, k0: nat, listed: set<Digest>)
    requires acts != [] && k0 < |acts| - 1 && Marks(pc) && Marks(pc') && pc.at == pc'.at && pc.marked.Keys <= pc'.marked.Keys
    requires Accounted(c, acts[..|acts| - 1], p, pc, k0, listed)
    requires pc.Scanning? ==> forall id <- pc.todo ::
               (pc'.Scanning? && id in pc'.todo) || Found(c, acts, p, pc', |acts| - 1, id)
    ensures Accounted(c, acts, p, pc', k0, listed)
  {
    hide Found;
    forall id <- listed | !(pc'.Scanning? && id in pc'.todo) ensures exists k :: k0 < k && Found(c, acts, p, pc', k, id) {
      if pc.Scanning? && id in pc.todo {
        assert Found(c, acts, p, pc', |acts| - 1, id);
      } else {
        var k :| k0 < k && Found(c, acts[..|acts| - 1], p, pc, k, id);
        FoundStays(c, acts, p, pc, pc', k, id);
      }
    }
  }

  /**
   What a Prune has seen before it removes anything. The same call listed a store within its limit, and has
   found a complete entry under every digest of that listing, noting each that had expired; an entry that was
   gone by then would have ended it.
   */
  lemma {:induction false} ListedWereFound(c: Config, acts: Schedule, p: Pid) returns (k0: nat)
    requires Run(c, INITIAL, acts).Some? && Marks(PcOf(Run(c, INITIAL, acts).value, p))
    ensures k0 < |acts| && acts[k0] == (p, Go) && Run(c, INITIAL, acts[..k0]).Some?
    ensures var pc, listing := PcOf(Run(c, INITIAL, acts).value, p), Run(c, INITIAL, acts[..k0]).value;
            && PcOf(listing, p) == Listing(pc.at) && |listing.tree.entries| <= c.maxItems
            && Accounted(c, acts, p, pc, k0, listing.tree.entries.Keys)
    ensures forall j | k0 < j < |acts| && acts[j].0 == p :: acts[j].1 == Go || acts[j].1.Visit? || acts[j].1.Sweep?
    decreases |acts|
  {
    hide StepEffect, Accounted, Found, Loads, StoredExpired;
    assert acts != [];
    var n := |acts| - 1;
    var (q, x) := acts[n];
    var before := Run(c, INITIAL, acts[..n]).value;
    var pc, pc' := PcOf(before, p), PcOf(Run(c, INITIAL, acts).value, p);
    if q == p { ScanBefore(c, before.tree, p, pc, x); }
    if q == p && pc.Listing? {
      k0 := n;
      NothingYet(c, acts, p, pc', k0, before.tree.entries.Keys);
    } else {
      k0 := ListedWereFound(c, acts[..n], p);
      assert acts[..n][..k0] == acts[..k0] && acts[..n][k0] == acts[k0];
      forall j | k0 < j < |acts| && acts[j].0 == p ensures acts[j].1 == Go || acts[j].1.Visit? || acts[j].1.Sweep? {
        assert j < n ==> acts[..n][j] == acts[j];
      }
      if q == p && x.Visit? { FoundNow(c, acts, p, pc', x.id); }
      AccountedOn(c, acts, p, pc, pc', k0, Run(c, INITIAL, acts[..k0]).value.tree.entries.Keys);
    }
  }

  lemma NothingYet(c: Config, acts: Schedule, p: Pid, pc: Pc, k0: nat, listed: set<Digest>)
    requires pc.Scanning? && pc.todo == listed
    ensures Accounted(c, acts, p, pc, k0, listed)
  {
  }

  lemma FoundNow(c: Config, acts: Schedule, p: Pid, pc: Pc, id: Digest)
    requires acts != [] && acts[|acts| - 1] == (p, Visit(id)) && Run(c, INITIAL, acts[..|acts| - 1]).Some? && Marks(pc)
    requires var entries := Run(c, INITIAL, acts[..|acts| - 1]).value.tree.entries;
             Loads(entries, id) && (StoredExpired(entries, id, pc.at) ==> id in pc.marked)
    ensures Found(c, acts, p, pc, |acts| - 1, id)
  {
  }

  /** Every digest noted is still to be removed or was removed by a step of the same call. */
  ghost predicate SweptOrTodo(acts: Schedule, p: Pid, pc: Pc)
    requires pc.Sweeping?
  {
    forall id <- pc.marked :: id in pc.todo || exists k :: RemovedAt(acts, p, k, id)
  }

  ghost predicate RemovedAt(acts: Schedule, p: Pid, k: nat, id: Digest) {
    k < |acts| && acts[k] == (p, Sweep(id)) && forall j | k < j < |acts| && acts[j].0 == p :: acts[j].1.Sweep?
  }

  lemma RemovedStays(acts: Schedule, p: Pid, k: nat, id: Digest)
    requires acts != [] && RemovedAt(acts[..|acts| - 1], p, k, id)
    requires acts[|acts| - 1].0 == p ==> acts[|acts| - 1].1.Sweep?
    ensures RemovedAt(acts, p, k, id)
  {
    forall j | k < j < |acts| && acts[j].0 == p ensures acts[j].1.Sweep? {
      assert j < |acts| - 1 ==> acts[..|acts| - 1][j] == acts[j];
    }
  }

  /** A sweep removes what was noted, one digest after the other. */
  lemma {:induction false} SweepsAll(c: Config, acts: Schedule, p: Pid)
    requires Run(c, INITIAL, acts).Some? && PcOf(Run(c, INITIAL, acts).value, p).Sweeping?
    ensures SweptOrTodo(acts, p, PcOf(Run(c, INITIAL, acts).value, p))
    decreases |acts|
  {
    hide StepEffect, RemovedAt;
    assert acts != [];
    var n := |acts| - 1;
    var (q, x) := acts[n];
    var before := Run(c, INITIAL, acts[..n]).value;
    var pc, pc' := PcOf(before, p), PcOf(Run(c, INITIAL, acts).value, p);
    if q == p { ScanBefore(c, before.tree, p, pc, x); }
    if pc.Sweeping? {
      SweepsAll(c, acts[..n], p);
      forall id <- pc'.marked | id !in pc'.todo ensures exists k :: RemovedAt(acts, p, k, id) {
        if id in pc.todo {
          assert RemovedAt(acts, p, n, id) by { RemovedNow(acts, p, id); }
        } else {
          var k :| RemovedAt(acts[..n], p, k, id);
          RemovedStays(acts, p, k, id);
        }
      }
    }
  }

  lemma RemovedNow(acts: Schedule, p: Pid, id: Digest)
    requires acts != [] && acts[|acts| - 1] == (p, Sweep(id))
    ensures RemovedAt(acts, p, |acts| - 1, id)
  {
  }

  /** Some step of the run takes what is stored under id away. */
  ghost predicate TakenAway(c: Config, s: State, acts: Schedule, id: Digest) {
    exists j | 0 <= j < |acts| ::
      Run(c, s, acts[..j]).Some? && Run(c, s, acts[..j + 1]).Some?
      && id in Run(c, s, acts[..j]).value.tree.entries && id !in Run(c, s, acts[..j + 1]).value.tree.entries
  }

  /** A stored entry stays what it is unless some step takes it away. */
  lemma {:induction false} StaysOrIsTaken(c: Config, s: State, acts: Schedule, id: Digest)
    requires Reachable(c, s) && Run(c, s, acts).Some? && id in s.tree.entries && !TakenAway(c, s, acts, id)
    ensures id in Run(c, s, acts).value.tree.entries
    ensures Run(c, s, acts).value.tree.entries[id] == s.tree.entries[id]
    decreases |acts|
  {
    hide Reachable, Step, OpOf;
    if acts != [] {
      var n := |acts| - 1;
      var before := Run(c, s, acts[..n]).value;
      forall j | 0 <= j <= n ensures acts[..n][..j] == acts[..j] {}
      StaysOrIsTaken(c, s, acts[..n], id);
      ReachesOn(c, s, acts[..n]);
      StepRefines(c, before, acts[n].0, acts[n].1);
      assert acts[..n + 1] == acts;
    }
  }

  /**
   What a Prune removes. The removal of a digest takes away what is stored under it and changes nothing else,
   and the same call had found a complete expired entry there: the very one it removes, unless somebody took
   that one away in between and another was stored.
   */
  lemma SweepIsRightful(c: Config, acts: Schedule, p: Pid, id: Digest) returns (k: nat)
    requires Run(c, INITIAL, acts).Some? && Step(c, Run(c, INITIAL, acts).value, p, Sweep(id)).Some?
    ensures var s, s' := Run(c, INITIAL, acts).value, Step(c, Run(c, INITIAL, acts).value, p, Sweep(id)).value;
            s'.tree == s.tree.(entries := s.tree.entries - {id})
    ensures k < |acts| && acts[k] == (p, Visit(id)) && Run(c, INITIAL, acts[..k]).Some?
    ensures forall j | k < j < |acts| :: acts[j].0 == p ==> !acts[j].1.Begin?
    ensures var s, seen := Run(c, INITIAL, acts).value, Run(c, INITIAL, acts[..k]).value;
            && PcOf(s, p).Sweeping? && StoredExpired(seen.tree.entries, id, PcOf(s, p).at)
            && (!TakenAway(c, seen, acts[k..], id) ==>
                  id in s.tree.entries && s.tree.entries[id] == seen.tree.entries[id])
  {
    var s := Run(c, INITIAL, acts).value;
    SweepNeedsMark(c, acts, p, id);
    k := MarkedWereExpired(c, acts, p, id);
    var seen := Run(c, INITIAL, acts[..k]).value;
    assert Reachable(c, seen);
    assert acts[..k] + acts[k..] == acts;
    RunConcatBack(c, INITIAL, acts[..k], acts[k..]);
    if !TakenAway(c, seen, acts[k..], id) {
      StaysOrIsTaken(c, seen, acts[k..], id);
    }
  }

  lemma SweepNeedsMark(c: Config, acts: Schedule, p: Pid, id: Digest)
    requires Run(c, INITIAL, acts).Some? && Step(c, Run(c, INITIAL, acts).value, p, Sweep(id)).Some?
    ensures var s := Run(c, INITIAL, acts).value; PcOf(s, p).Sweeping? && id in PcOf(s, p).marked
    ensures var s := Run(c, INITIAL, acts).value;
            Step(c, s, p, Sweep(id)).value.tree == s.tree.(entries := s.tree.entries - {id})
  {
    var s := Run(c, INITIAL, acts).value;
    ReachableInv(c, s);
    assert PcInv(c, s.tree, p, PcOf(s, p));
  }

  lemma {:induction false} RunConcatBack(c: Config, s: State, a: Schedule, b: Schedule)
    requires Run(c, s, a + b).Some?
    ensures Run(c, s, a).Some? && Run(c, Run(c, s, a).value, b) == Run(c, s, a + b)
    decreases |b|
  {
    if b == [] {
      assert a + b == a;
    } else {
      assert (a + b)[..|a + b| - 1] == a + b[..|b| - 1];
      RunConcatBack(c, s, a, b[..|b| - 1]);
    }
  }

  // One Prune that nobody disturbs.

  /** What a Prune has noted of a store while it has yet to visit some digests. */
  function Noted(entries: map<Digest, Files>, at: int, todo: set<Digest>): map<Digest, Entry> {
    map id | id in entries && id !in todo && StoredExpired(entries, id, at) :: entries[id].manifest.value
  }

  /** Every entry of a reachable store loads. */
  ghost predicate AllLoad(t: Tree) {
    forall id <- t.entries :: Complete(id, t.entries[id])
  }

  lemma VisitNotes(c: Config, t: Tree, p: Pid, at: int, todo: set<Digest>, id: Digest)
    requires AllLoad(t) && todo <= t.entries.Keys && id in todo
    ensures StepEffect(c, t, p, Scanning(at, todo, Noted(t.entries, at, todo)), Visit(id))
         == Some(Effect(t, Scanning(at, todo - {id}, Noted(t.entries, at, todo - {id}))))
  {
    var e := t.entries[id].manifest.value;
    assert Load(t, id) == Some(e) && (EntryExpired(e, at) <==> StoredExpired(t.entries, id, at));
    var before, after := Noted(t.entries, at, todo), Noted(t.entries, at, todo - {id});
    if EntryExpired(e, at) {
      assert after == before[id := e];
    } else {
      assert after == before;
    }
  }

  /** The rest of a scan in which nobody else moves. */
  lemma {:induction false} ScanRest(c: Config, s: State, p: Pid, at: int, todo: set<Digest>) returns (acts: Schedule)
    requires AllLoad(s.tree) && todo <= s.tree.entries.Keys
    requires PcOf(s, p) == Scanning(at, todo, Noted(s.tree.entries, at, todo))
    ensures Run(c, s, acts) == Some(Goto(s, Effect(s.tree, Scanning(at, {}, Noted(s.tree.entries, at, {}))), p))
    ensures forall a <- acts :: a.0 == p && !a.1.Begin?
    decreases todo
  {
    hide StepEffect;
    var t := s.tree;
    if todo == {} {
      acts := [];
      assert s.procs[p := s.procs[p]] == s.procs;
    } else {
      var id :| id in todo;
      VisitNotes(c, t, p, at, todo, id);
      var e := Effect(t, Scanning(at, todo - {id}, Noted(t.entries, at, todo - {id})));
      var s1 := Goto(s, e, p);
      Append(c, s, [], p, Here(s, p), Visit(id), e);
      var rest := ScanRest(c, s1, p, at, todo - {id});
      RunConcat(c, s, [(p, Visit(id))], rest);
      assert [] + [(p, Visit(id))] == [(p, Visit(id))];
      acts := [(p, Visit(id))] + rest;
      assert s.procs[p := e.pc][p := Scanning(at, {}, Noted(t.entries, at, {}))]
          == s.procs[p := Scanning(at, {}, Noted(t.entries, at, {}))];
    }
  }

  lemma PruneBegins(c: Config, t: Tree, p: Pid, pc: Pc, at: int)
    requires Free(pc)
    ensures StepEffect(c, t, p, pc, Begin(PruneAt(at))) == Some(Effect(t, Listing(at)))
  {
  }

  lemma PruneLists(c: Config, t: Tree, p: Pid, at: int)
    ensures StepEffect(c, t, p, Listing(at), Go)
         == Some(Effect(t, if |t.entries| > c.maxItems then Done(Failed)
                           else Scanning(at, t.entries.Keys, Noted(t.entries, at, t.entries.Keys))))
  {
    assert Noted(t.entries, at, t.entries.Keys) == map[];
  }

  lemma PruneTurns(c: Config, t: Tree, p: Pid, at: int, marked: map<Digest, Entry>)
    ensures StepEffect(c, t, p, Scanning(at, {}, marked), Go) == Some(Effect(t, Sweeping(at, marked.Keys, marked)))
  {
  }

  /** The caller p has been the only one to move, and has begun exactly this call. */
  ghost predicate Alone(p: Pid, at: int, acts: Schedule) {
    && acts != [] && acts[0] == (p, Begin(PruneAt(at)))
    && forall i | 0 < i < |acts| :: acts[i].0 == p && !acts[i].1.Begin?
  }

  /** A Prune that nobody disturbs reads the whole store and notes exactly what has expired. */
  lemma ScanAll(c: Config, s: State, p: Pid, at: int) returns (acts: Schedule, marked: map<Digest, Entry>)
    requires Reachable(c, s) && Free(PcOf(s, p)) && |s.tree.entries| <= c.maxItems
    ensures Run(c, s, acts) == Some(Goto(s, Effect(s.tree, Sweeping(at, marked.Keys, marked)), p))
    ensures marked == Noted(s.tree.entries, at, {})
    ensures forall id :: id in marked <==> StoredExpired(s.tree.entries, id, at)
    ensures Alone(p, at, acts)
  {
    hide StepEffect, Reachable, PcInv, OneHome, DistinctNonces;
    ReachableInv(c, s);
    var t, keys := s.tree, s.tree.entries.Keys;
    marked := Noted(t.entries, at, {});
    var e1, e2 := Effect(t, Listing(at)), Effect(t, Scanning(at, keys, Noted(t.entries, at, keys)));
    PruneBegins(c, t, p, PcOf(s, p), at);
    PruneLists(c, t, p, at);
    PruneTurns(c, t, p, at, marked);
    var first := Path([Here(s, p), e1, e2], [Begin(PruneAt(at)), Go]);
    var begun := Follow(c, s, p, first, e2);
    var rest := ScanRest(c, Goto(s, e2, p), p, at, keys);
    Finishes(c, s, p, begun, e2, rest, Effect(t, Scanning(at, {}, marked)), Effect(t, Sweeping(at, marked.Keys, marked)));
    acts := begun + rest + [(p, Go)];
  }

  lemma Finishes(c: Config, s: State, p: Pid, a: Schedule, mid: Effect, b: Schedule, last: Effect, to: Effect)
    requires Run(c, s, a) == Some(Goto(s, mid, p)) && Run(c, Goto(s, mid, p), b) == Some(Goto(Goto(s, mid, p), last, p))
    requires StepEffect(c, last.tree, p, last.pc, Go) == Some(to)
    ensures Run(c, s, a + b + [(p, Go)]) == Some(Goto(s, to, p))
  {
    hide StepEffect;
    RunConcat(c, s, a, b);
    assert Goto(Goto(s, mid, p), last, p) == Goto(s, last, p);
    Append(c, s, a + b, p, last, Go, to);
  }

  function Without(t: Tree, gone: set<Digest>): Tree {
    t.(entries := t.entries - gone)
  }

  ghost predicate OnlyExpiredGone(t: Tree, at: int, t': Tree) {
    exists gone :: gone <= Noted(t.entries, at, {}).Keys && t' == Without(t, gone)
  }

  /** How far a Prune of store t got when nobody else moved. */
  ghost predicate Progress(c: Config, t: Tree, at: int, cancelled: bool, t': Tree, pc: Pc) {
    match pc
    case Listing(a) => a == at && t' == t
    case Scanning(a, todo, marked) =>
      a == at && t' == t && |t.entries| <= c.maxItems && todo <= t.entries.Keys && marked == Noted(t.entries, at, todo)
    case Sweeping(a, todo, marked) =>
      a == at && |t.entries| <= c.maxItems && marked == Noted(t.entries, at, {}) && todo <= marked.Keys
      && t' == Without(t, marked.Keys - todo)
    case Done(Pruned(removed)) =>
      |t.entries| <= c.maxItems && removed == Noted(t.entries, at, {}) && t' == Without(t, removed.Keys)
    case Done(Failed) =>
      (if |t.entries| > c.maxItems then t' == t else cancelled)
      && OnlyExpiredGone(t, at, t')
    case _ => false
  }

  lemma Vanished(t: Tree, marked: set<Digest>, todo: set<Digest>, id: Digest)
    requires id in todo && todo <= marked
    ensures RemoveEntry(Without(t, marked - todo), id) == Without(t, marked - (todo - {id}))
  {
    assert t.entries - (marked - todo) - {id} == t.entries - (marked - (todo - {id}));
  }

  lemma NothingGone(t: Tree, marked: set<Digest>)
    ensures Without(t, {}) == t && marked - marked == {} && marked - {} == marked
  {
    assert t.entries - {} == t.entries;
  }

  lemma SomeGone(t: Tree, at: int, gone: set<Digest>)
    requires gone <= Noted(t.entries, at, {}).Keys
    ensures OnlyExpiredGone(t, at, Without(t, gone))
  {
  }

  lemma PruneGoes(c: Config, t: Tree, p: Pid, pc: Pc, x: Choice)
    requires (pc.Listing? || Marks(pc) || pc.Done?) && !x.Begin?
    ensures StepEffect(c, t, p, pc, x) == PruneStep(c, t, pc, x)
  {
  }

  lemma SweepProgresses(c: Config, t: Tree, at: int, cancelled: bool, t': Tree, pc: Pc, x: Choice)
    requires pc.Sweeping? && Progress(c, t, at, cancelled, t', pc) && PruneStep(c, t', pc, x).Some?
    ensures var e := PruneStep(c, t', pc, x).value; Progress(c, t, at, cancelled || x.Cancel?, e.tree, e.pc)
  {
    hide Noted, Without, RemoveEntry, OnlyExpiredGone;
    if x.Sweep? {
      Vanished(t, pc.marked.Keys, pc.todo, x.id);
    } else {
      NothingGone(t, pc.marked.Keys);
      SomeGone(t, at, pc.marked.Keys - pc.todo);
    }
  }

  lemma ScanProgresses(c: Config, t: Tree, p: Pid, at: int, cancelled: bool, t': Tree, pc: Pc, x: Choice)
    requires AllLoad(t) && (pc.Scanning? || pc.Listing?) && Progress(c, t, at, cancelled, t', pc)
    requires StepEffect(c, t', p, pc, x).Some? && !x.Begin?
    ensures var e := StepEffect(c, t', p, pc, x).value; Progress(c, t, at, cancelled || x.Cancel?, e.tree, e.pc)
  {
    hide StepEffect, Noted, StoredExpired, Without, OnlyExpiredGone, Load, AllLoad;
    NothingGone(t, Noted(t.entries, at, {}).Keys);
    SomeGone(t, at, {});
    PruneGoes(c, t', p, pc, x);
    if pc.Listing? {
      ListingProgresses(c, t, p, at, cancelled, t', pc, x);
    } else if x.Visit? {
      VisitNotes(c, t, p, at, pc.todo, x.id);
    }
  }

  lemma ListingProgresses(c: Config, t: Tree, p: Pid, at: int, cancelled: bool, t': Tree, pc: Pc, x: Choice)
    requires AllLoad(t) && pc.Listing? && Progress(c, t, at, cancelled, t', pc)
    requires StepEffect(c, t', p, pc, x).Some? && !x.Begin?
    ensures var e := StepEffect(c, t', p, pc, x).value; Progress(c, t, at, cancelled || x.Cancel?, e.tree, e.pc)
  {
    hide StepEffect, Noted, StoredExpired, Without, OnlyExpiredGone, Load, AllLoad;
    NothingGone(t, Noted(t.entries, at, {}).Keys);
    SomeGone(t, at, {});
    PruneGoes(c, t', p, pc, x);
    PruneLists(c, t, p, at);
  }

  lemma Progresses(c: Config, t: Tree, at: int, cancelled: bool, t': Tree, p: Pid, pc: Pc, x: Choice)
    requires AllLoad(t) && Progress(c, t, at, cancelled, t', pc) && StepEffect(c, t', p, pc, x).Some? && !x.Begin?
    ensures var e := StepEffect(c, t', p, pc, x).value; Progress(c, t, at, cancelled || x.Cancel?, e.tree, e.pc)
  {
    hide StepEffect;
    if pc.Scanning? || pc.Listing? {
      ScanProgresses(c, t, p, at, cancelled, t', pc, x);
    } else {
      PruneGoes(c, t', p, pc, x);
      if pc.Sweeping? {
        SweepProgresses(c, t, at, cancelled, t', pc, x);
      }
    }
  }

  lemma {:induction false} ProgressSoFar(c: Config, s: State, p: Pid, at: int, acts: Schedule)
    requires AllLoad(s.tree) && Free(PcOf(s, p)) && Alone(p, at, acts) && Run(c, s, acts).Some?
    ensures var s' := Run(c, s, acts).value;
            Progress(c, s.tree, at, exists i | 0 <= i < |acts| :: acts[i].1 == Cancel, s'.tree, PcOf(s', p))
    decreases |acts|
  {
    hide StepEffect, Progress;
    var n := |acts| - 1;
    var s' := Run(c, s, acts[..n]).value;
    if n == 0 {
      assert acts[..n] == [];
      PruneBegins(c, s.tree, p, PcOf(s, p), at);
      Begun(c, s.tree, at, acts[0].1 == Cancel);
    } else {
      ProgressSoFar(c, s, p, at, acts[..n]);
      var cancelled := exists i | 0 <= i < n :: acts[..n][i].1 == Cancel;
      Progresses(c, s.tree, at, cancelled, s'.tree, p, PcOf(s', p), acts[n].1);
      assert (exists i | 0 <= i < |acts| :: acts[i].1 == Cancel) == (cancelled || acts[n].1.Cancel?) by {
        forall i | 0 <= i < n ensures acts[..n][i] == acts[i] {}
      }
    }
  }

  lemma Begun(c: Config, t: Tree, at: int, cancelled: bool)
    ensures Progress(c, t, at, cancelled, t, Listing(at))
  {
  }

  lemma ProgressMeans(c: Config, t: Tree, at: int, cancelled: bool, t': Tree, pc: Pc)
    requires Progress(c, t, at, cancelled, t', pc)
    ensures (forall id <- t.entries :: !StoredExpired(t.entries, id, at) ==> id in t'.entries)
    ensures forall id <- t'.entries :: id in t.entries && t'.entries[id] == t.entries[id]
    ensures t' == t.(entries := t'.entries)
    ensures pc.Done? ==>
              && (pc.out.Pruned? || pc.out.Failed?)
              && (pc.out.Pruned? ==> |t.entries| <= c.maxItems)
              && (pc.out.Failed? ==> |t.entries| > c.maxItems || cancelled)
              && (|t.entries| > c.maxItems ==> t' == t)
              && (pc.out.Pruned? ==>
                    && (forall id :: id in t'.entries <==> id in t.entries && !StoredExpired(t.entries, id, at))
                    && (forall id :: id in pc.out.removed <==> StoredExpired(t.entries, id, at))
                    && (forall id <- pc.out.removed :: t.entries[id].manifest == Some(pc.out.removed[id])))
  {
  }

  /**
   One Prune that nobody disturbs, whatever order it goes in. If it ends in success, exactly the entries that
   had expired are gone, every other entry and everything else on disk is as it was, and the answer lists the
   manifests of what is gone. Without a cancellation it fails exactly on a store over the limit, and then
   removes nothing; cancelled, it has removed nothing but expired entries.
   */
  lemma UndisturbedPrune(c: Config, s: State, p: Pid, at: int, acts: Schedule)
    requires Reachable(c, s) && Free(PcOf(s, p)) && Alone(p, at, acts) && Run(c, s, acts).Some?
    ensures var s' := Run(c, s, acts).value;
            && (forall id <- s.tree.entries :: !StoredExpired(s.tree.entries, id, at) ==> id in s'.tree.entries)
            && (forall id <- s'.tree.entries :: id in s.tree.entries && s'.tree.entries[id] == s.tree.entries[id])
            && s'.tree == s.tree.(entries := s'.tree.entries)
    ensures var s', out := Run(c, s, acts).value, PcOf(Run(c, s, acts).value, p);
            out.Done? ==>
              && (out.out.Pruned? || out.out.Failed?)
              && (out.out.Pruned? ==> |s.tree.entries| <= c.maxItems)
              && (out.out.Failed? ==> |s.tree.entries| > c.maxItems || exists i | 0 <= i < |acts| :: acts[i].1 == Cancel)
              && (|s.tree.entries| > c.maxItems ==> s'.tree == s.tree)
              && (out.out.Pruned? ==>
                    && (forall id :: id in s'.tree.entries <==>
                                     id in s.tree.entries && !StoredExpired(s.tree.entries, id, at))
                    && (forall id :: id in out.out.removed <==> StoredExpired(s.tree.entries, id, at))
                    && (forall id <- out.out.removed :: s.tree.entries[id].manifest == Some(out.out.removed[id])))
  {
    hide Reachable, Run, Progress, StoredExpired, PcInv, OneHome;
    ReachableInv(c, s);
    ProgressSoFar(c, s, p, at, acts);
    var s' := Run(c, s, acts).value;
    ProgressMeans(c, s.tree, at, exists i | 0 <= i < |acts| :: acts[i].1 == Cancel, s'.tree, PcOf(s', p));
  }

  lemma SweepGoes(c: Config, t: Tree, p: Pid, at: int, todo: set<Digest>, marked: map<Digest, Entry>, id: Digest)
    ensures id in todo ==>
              StepEffect(c, t, p, Sweeping(at, todo, marked), Sweep(id))
              == Some(Effect(RemoveEntry(t, id), Sweeping(at, todo - {id}, marked)))
    ensures todo == {} ==> StepEffect(c, t, p, Sweeping(at, todo, marked), Go) == Some(Effect(t, Done(Pruned(marked))))
  {
  }

  lemma {:induction false} SweepRest(c: Config, s: State, p: Pid, at: int, todo: set<Digest>, marked: map<Digest, Entry>)
    returns (acts: Schedule)
    requires PcOf(s, p) == Sweeping(at, todo, marked)
    ensures Run(c, s, acts).Some? && PcOf(Run(c, s, acts).value, p) == Done(Pruned(marked))
    ensures forall a <- acts :: a.0 == p && !a.1.Begin?
    decreases todo
  {
    hide StepEffect;
    var t := s.tree;
    if todo == {} {
      SweepGoes(c, t, p, at, {}, marked, Sha256([]));
      acts := [(p, Go)];
      Append(c, s, [], p, Here(s, p), Go, Effect(t, Done(Pruned(marked))));
      assert [] + acts == acts;
    } else {
      var id :| id in todo;
      SweepGoes(c, t, p, at, todo, marked, id);
      var e := Effect(RemoveEntry(t, id), Sweeping(at, todo - {id}, marked));
      Append(c, s, [], p, Here(s, p), Sweep(id), e);
      assert [] + [(p, Sweep(id))] == [(p, Sweep(id))];
      var rest := SweepRest(c, Goto(s, e, p), p, at, todo - {id}, marked);
      RunConcat(c, s, [(p, Sweep(id))], rest);
      acts := [(p, Sweep(id))] + rest;
    }
  }

  /** An undisturbed Prune of a store within its limit can always finish, and what it does then is UndisturbedPrune. */
  lemma SoloPrune(c: Config, s: State, p: Pid, at: int) returns (acts: Schedule)
    requires Reachable(c, s) && Free(PcOf(s, p)) && |s.tree.entries| <= c.maxItems
    ensures Alone(p, at, acts) && Run(c, s, acts).Some? && PcOf(Run(c, s, acts).value, p).Done?
    ensures PcOf(Run(c, s, acts).value, p).out.Pruned?
    ensures forall id :: id in Run(c, s, acts).value.tree.entries <==>
                         id in s.tree.entries && !StoredExpired(s.tree.entries, id, at)
  {
    hide Reachable, StoredExpired;
    var scan, marked := ScanAll(c, s, p, at);
    var s1 := Run(c, s, scan).value;
    var rest := SweepRest(c, s1, p, at, marked.Keys, marked);
    acts := scan + rest;
    RunConcat(c, s, scan, rest);
    UndisturbedPrune(c, s, p, at, acts);
  }
}
