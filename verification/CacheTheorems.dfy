/**
 What the put-lease protocol guarantees over every interleaving, and where its limits are.
 */
module CacheTheorems {
  import opened Wrappers
  import opened CacheModel
  import opened CacheInvariant
  import opened CacheRuns

  /**
   Capacity. The number of published entries never exceeds the limit plus the number of leases that
   were displaced, that is renamed off .put-lock by a caller that had inspected another lease; only
   displaced leases that committed afterwards are charged.
   */
  lemma CapacityBound(c: Config, s: State)
    requires Reachable(c, s)
    ensures |s.tree.entries| <= c.maxItems + |s.tree.h.charged|
    ensures s.tree.h.charged <= s.tree.h.displaced && s.tree.h.charged <= s.tree.h.committed
    ensures |s.tree.entries| <= c.maxItems + |s.tree.h.displaced|
    ensures s.tree.h.displaced == {} ==> |s.tree.entries| <= c.maxItems
  {
    ReachableInv(c, s);
    SubsetSize(s.tree.h.charged, s.tree.h.displaced);
  }

  lemma SubsetSize<T>(a: set<T>, b: set<T>)
    requires a <= b
    ensures |a| <= |b|
  {
    assert b == a + (b - a);
  }

  /**
   Fencing. Once stale recovery has removed a lease directory, the commit rename of its writer fails
   in every state, unless that same lease had been displaced before.
   */
  lemma Fencing(c: Config, s: State, p: Pid)
    requires Reachable(c, s) && PcOf(s, p).Commit?
    requires PcOf(s, p).n in s.tree.h.recovered && PcOf(s, p).n !in s.tree.h.displaced
    ensures Step(c, s, p, Go).Some?
    ensures Step(c, s, p, Go).value.tree == s.tree && PcOf(Step(c, s, p, Go).value, p).CommitFailed?
  {
    ReachableInv(c, s);
    assert PcInv(c, s.tree, p, s.procs[p]);
  }

  /** Undisplaced owners exclude each other: at most one caller can be about to commit successfully. */
  lemma CommitExclusion(c: Config, s: State, p: Pid, q: Pid)
    requires Reachable(c, s) && PcOf(s, p).Commit? && PcOf(s, q).Commit?
    requires PcOf(s, p).n !in s.tree.h.displaced && PcOf(s, q).n !in s.tree.h.displaced
    requires Step(c, s, p, Go).Some? && PcOf(Step(c, s, p, Go).value, p).RelInspect?
    requires Step(c, s, q, Go).Some? && PcOf(Step(c, s, q, Go).value, q).RelInspect?
    ensures p == q
  {
    ReachableInv(c, s);
    assert PcInv(c, s.tree, p, s.procs[p]) && PcInv(c, s.tree, q, s.procs[q]);
    assert LockIs(s.tree, PcOf(s, p).n) && LockIs(s.tree, PcOf(s, q).n);
  }

  predicate Exists(t: Tree, n: Nonce) {
    exists a <- t.dirs :: t.dirs[a].owner.nonce == n
  }

  /** Where the directory at `a` is after a rename by `pc`. */
  function Afterwards(t: Tree, pc: Pc, a: Place): Place {
    match pc
    case Steal(_, _, _, n, _) => if a == PutLock then Recovery(n) else a
    case RelRename(_, n, _, _) => if a == PutLock then Release(n) else a
    case Restore(_, n) => if a == Recovery(n) && PutLock !in t.dirs then PutLock else a
    case RelRestore(_, n, _) => if a == Release(n) && PutLock !in t.dirs then PutLock else a
    case _ => a
  }

  ghost predicate RenamesToFreePlace(t: Tree, pc: Pc) {
    (pc.Steal? ==> Recovery(pc.n) !in t.dirs) && (pc.RelRename? ==> Release(pc.n) !in t.dirs)
  }

  lemma AcquireSurvives(c: Config, t: Tree, pc: Pc, a: Place)
    requires AcquireStep(c, t, pc).Some? && RenamesToFreePlace(t, pc) && a in t.dirs
    requires pc.Discard? ==> a != Recovery(pc.n)
    ensures var t' := AcquireStep(c, t, pc).value.tree; var b := Afterwards(t, pc, a);
            b in t'.dirs && t'.dirs[b].owner == t.dirs[a].owner
  {
  }

  lemma ReleaseSurvives(c: Config, t: Tree, p: Pid, pc: Pc, a: Place)
    requires ReleaseStep(t, p, pc).Some? && RenamesToFreePlace(t, pc) && a in t.dirs
    requires pc.RelRemove? ==> a != Release(pc.n)
    ensures var t' := ReleaseStep(t, p, pc).value.tree; var b := Afterwards(t, pc, a);
            b in t'.dirs && t'.dirs[b].owner == t.dirs[a].owner
  {
  }

  lemma StepSurvives(c: Config, t: Tree, p: Pid, pc: Pc, x: Choice, a: Place)
    requires StepEffect(c, t, p, pc, x).Some? && RenamesToFreePlace(t, pc) && a in t.dirs
    requires !(pc.RelRemove? && a == Release(pc.n)) && !(pc.Discard? && a == Recovery(pc.n))
    ensures Exists(StepEffect(c, t, p, pc, x).value.tree, t.dirs[a].owner.nonce)
  {
    var t' := StepEffect(c, t, p, pc, x).value.tree;
    if x == Go && AcquireStep(c, t, pc).Some? {
      AcquireSurvives(c, t, pc, a);
      assert Afterwards(t, pc, a) in t'.dirs;
    } else if x == Go && ReleaseStep(t, p, pc).Some? {
      ReleaseSurvives(c, t, p, pc, a);
      assert Afterwards(t, pc, a) in t'.dirs;
    } else {
      OthersSurvive(c, t, p, pc, x, a);
    }
  }

  lemma PutSurvives(c: Config, t: Tree, p: Pid, pc: Pc, a: Place)
    requires PutStep(c, t, p, pc).Some? && a in t.dirs
    ensures var t' := PutStep(c, t, p, pc).value.tree; a in t'.dirs && t'.dirs[a].owner == t.dirs[a].owner
  {
  }

  lemma RemovalsSurvive(c: Config, t: Tree, pc: Pc, x: Choice)
    ensures DeleteStep(t, pc).Some? ==> DeleteStep(t, pc).value.tree.dirs == t.dirs
    ensures PruneStep(c, t, pc, x).Some? ==> PruneStep(c, t, pc, x).value.tree.dirs == t.dirs
  {
  }

  lemma OthersSurvive(c: Config, t: Tree, p: Pid, pc: Pc, x: Choice, a: Place)
    requires StepEffect(c, t, p, pc, x).Some? && a in t.dirs
    requires x == Go ==> AcquireStep(c, t, pc).None? && ReleaseStep(t, p, pc).None?
    ensures var t' := StepEffect(c, t, p, pc, x).value.tree; a in t'.dirs && t'.dirs[a].owner == t.dirs[a].owner
  {
    if x == Go && PutStep(c, t, p, pc).Some? {
      PutSurvives(c, t, p, pc, a);
    } else {
      RemovalsSurvive(c, t, pc, x);
    }
  }

  /**
   A lease directory disappears in two ways only: its own caller releases it, or a recoverer removes
   it that inspected this very lease and found it expired at its own clock.
   */
  lemma RemovalIsRightful(c: Config, s: State, p: Pid, x: Choice, n: Nonce)
    requires Reachable(c, s) && Step(c, s, p, x).Some?
    requires Exists(s.tree, n) && !Exists(Step(c, s, p, x).value.tree, n)
    ensures var pc := PcOf(s, p);
            (pc.RelRemove? && pc.n == n)
            || (pc.Discard? && pc.seen.nonce == n && n in s.tree.h.stamp
                && s.tree.h.stamp[n] == pc.seen.acquiredAt && s.tree.h.stamp[n] + c.leaseDuration <= pc.at)
  {
    hide StepEffect, Exists, PcInv;
    ReachableInv(c, s);
    assert PcInv(c, s.tree, p, PcOf(s, p)) by { OfCaller(c, s, p); }
    EffectIsRightful(c, s.tree, p, PcOf(s, p), x, n);
  }

  lemma OfCaller(c: Config, s: State, p: Pid)
    requires Inv(c, s)
    ensures PcInv(c, s.tree, p, PcOf(s, p))
  {
  }

  lemma EffectIsRightful(c: Config, t: Tree, p: Pid, pc: Pc, x: Choice, n: Nonce)
    requires PcInv(c, t, p, pc) && StepEffect(c, t, p, pc, x).Some?
    requires Exists(t, n) && !Exists(StepEffect(c, t, p, pc, x).value.tree, n)
    ensures (pc.RelRemove? && pc.n == n)
            || (pc.Discard? && pc.seen.nonce == n && n in t.h.stamp && t.h.stamp[n] == pc.seen.acquiredAt
                && t.h.stamp[n] + c.leaseDuration <= pc.at)
  {
    hide StepEffect;
    var a :| a in t.dirs && t.dirs[a].owner.nonce == n;
    if !(pc.RelRemove? && a == Release(pc.n)) && !(pc.Discard? && a == Recovery(pc.n)) {
      StepSurvives(c, t, p, pc, x, a);
    }
  }

  // The visible store as a write-once map with deletion.

  datatype MapOp = Insert(id: Digest, files: Files) | Delete(id: Digest) | Stutter

  /** The specification: a key is bound once, to a complete entry for that key, until it is deleted. */
  ghost predicate MapStep(m: map<Digest, Files>, op: MapOp, m': map<Digest, Files>) {
    match op
    case Insert(id, files) => id !in m && Complete(id, files) && m' == m[id := files]
    case Delete(id) => id in m && m' == m - {id}
    case Stutter => m' == m
  }

  /** The abstract operation behind the step of a caller at pc. */
  function OpOf(t: Tree, pc: Pc, x: Choice): MapOp {
    match (pc, x)
    case (Commit(Put(e), n), Go) =>
      if PutLock in t.dirs && n in t.dirs[PutLock].staged && e.id !in t.entries
      then Insert(e.id, FilesOf(e)) else Stutter
    case (DelRemove(DeletePrivate(id), _, _), Go) => if id in t.entries then Delete(id) else Stutter
    case (Sweeping(_, _, _), Sweep(id)) => if id in t.entries then Delete(id) else Stutter
    case _ => Stutter
  }

  lemma AbsentEntry(t: Tree, id: Digest)
    requires id !in t.entries
    ensures RemoveEntry(t, id).entries == t.entries
  {
    assert t.entries - {id} == t.entries;
  }

  lemma LeaseStepsKeepEntries(c: Config, t: Tree, p: Pid, pc: Pc)
    ensures AcquireStep(c, t, pc).Some? ==> AcquireStep(c, t, pc).value.tree.entries == t.entries
    ensures ReleaseStep(t, p, pc).Some? ==> ReleaseStep(t, p, pc).value.tree.entries == t.entries
  {
  }

  lemma PutRefines(c: Config, t: Tree, p: Pid, pc: Pc)
    requires PutStep(c, t, p, pc).Some?
    requires pc.Commit? && pc.job.Put? ==> StagedIs(t, pc.n, FilesOf(pc.job.entry))
    ensures MapStep(t.entries, OpOf(t, pc, Go), PutStep(c, t, p, pc).value.tree.entries)
  {
  }

  lemma DeleteRefines(t: Tree, pc: Pc)
    requires DeleteStep(t, pc).Some?
    ensures MapStep(t.entries, OpOf(t, pc, Go), DeleteStep(t, pc).value.tree.entries)
  {
    if pc.DelRemove? && pc.job.DeletePrivate? && pc.job.id !in t.entries {
      AbsentEntry(t, pc.job.id);
    }
  }

  lemma PruneRefines(c: Config, t: Tree, pc: Pc, x: Choice)
    requires PruneStep(c, t, pc, x).Some?
    ensures MapStep(t.entries, OpOf(t, pc, x), PruneStep(c, t, pc, x).value.tree.entries)
  {
    if pc.Sweeping? && x.Sweep? && x.id !in t.entries {
      AbsentEntry(t, x.id);
    }
  }

  lemma EffectRefines(c: Config, t: Tree, p: Pid, pc: Pc, x: Choice)
    requires StepEffect(c, t, p, pc, x).Some?
    requires pc.Commit? && pc.job.Put? ==> StagedIs(t, pc.n, FilesOf(pc.job.entry))
    ensures MapStep(t.entries, OpOf(t, pc, x), StepEffect(c, t, p, pc, x).value.tree.entries)
  {
    if x == Go && PutStep(c, t, p, pc).Some? {
      PutRefines(c, t, p, pc);
    } else {
      LeaseStepsKeepEntries(c, t, p, pc);
      if x == Go && DeleteStep(t, pc).Some? {
        DeleteRefines(t, pc);
      } else if PruneStep(c, t, pc, x).Some? {
        PruneRefines(c, t, pc, x);
      }
    }
  }

  /** Every step of the protocol is one step of the write-once map. */
  lemma StepRefines(c: Config, s: State, p: Pid, x: Choice)
    requires Reachable(c, s) && Step(c, s, p, x).Some?
    ensures MapStep(s.tree.entries, OpOf(s.tree, PcOf(s, p), x), Step(c, s, p, x).value.tree.entries)
  {
    ReachableInv(c, s);
    assert PcInv(c, s.tree, p, PcOf(s, p));
    EffectRefines(c, s.tree, p, PcOf(s, p), x);
  }

  /** The states of an abstract run. */
  ghost predicate MapRun(ms: seq<map<Digest, Files>>, ops: seq<MapOp>) {
    |ms| == |ops| + 1 && ms[0] == map[] && forall i | 0 <= i < |ops| :: MapStep(ms[i], ops[i], ms[i + 1])
  }

  /** Every interleaving from the empty cache is a run of the write-once map with the same entries. */
  lemma {:induction false} RunRefines(c: Config, acts: Schedule) returns (ms: seq<map<Digest, Files>>, ops: seq<MapOp>)
    requires Run(c, INITIAL, acts).Some?
    ensures MapRun(ms, ops) && |ops| == |acts|
    ensures ms[|acts|] == Run(c, INITIAL, acts).value.tree.entries
    decreases |acts|
  {
    if acts == [] {
      ms, ops := [map[]], [];
    } else {
      var before := acts[..|acts| - 1];
      var (p, x) := acts[|acts| - 1];
      ms, ops := RunRefines(c, before);
      var s := Run(c, INITIAL, before).value;
      assert Reachable(c, s);
      StepRefines(c, s, p, x);
      var next := Step(c, s, p, x).value.tree.entries;
      ms, ops := ms + [next], ops + [OpOf(s.tree, PcOf(s, p), x)];
    }
  }

  /** In the write-once map a key that is never deleted keeps the value it was first given. */
  lemma {:induction false} WriteOnce(ms: seq<map<Digest, Files>>, ops: seq<MapOp>, i: nat, j: nat, id: Digest)
    requires MapRun(ms, ops) && i <= j < |ms| && id in ms[i]
    requires forall k | i <= k < j :: ops[k] != Delete(id)
    ensures id in ms[j] && ms[j][id] == ms[i][id]
    decreases j
  {
    if i < j {
      WriteOnce(ms, ops, i, j - 1, id);
      assert MapStep(ms[j - 1], ops[j - 1], ms[j]);
    }
  }

  /**
   Put's answer. When a Put decides to succeed, what it returns is the entry it was given, and that
   entry is what the store holds for its digest, complete and loadable, at that very step.
   */
  lemma StoredIsStored(c: Config, s: State, p: Pid, x: Choice, e: Entry)
    requires Reachable(c, s) && Step(c, s, p, x).Some?
    requires var pc' := PcOf(Step(c, s, p, x).value, p);
             (PcOf(s, p).Commit? || PcOf(s, p).Reuse?)
             && (pc' == Done(Stored(e)) || (pc'.RelInspect? && pc'.out == Stored(e)))
    ensures PcOf(s, p).job == Put(e)
    ensures e.id in Step(c, s, p, x).value.tree.entries
    ensures Step(c, s, p, x).value.tree.entries[e.id] == Files(Some(e.id.payload), Some(e))
  {
    ReachableInv(c, s);
    var pc := PcOf(s, p);
    assert PcInv(c, s.tree, p, pc);
  }

  /** What is stored under the digest of e is e's payload and e's manifest. */
  predicate HoldsEntry(t: Tree, e: Entry) {
    e.id in t.entries && t.entries[e.id] == Files(Some(e.id.payload), Some(e))
  }

  /** The outcome a caller is carrying through its release and clean-up, or has reported. */
  function Carried(pc: Pc): Option<Outcome> {
    match pc
    case RelInspect(_, _, out, _) => Some(out)
    case RelRename(_, _, out, _) => Some(out)
    case RelReread(_, _, out, _) => Some(out)
    case RelRemove(_, _, out, _) => Some(out)
    case Cleanup(_, _, out, _) => Some(out)
    case Done(out) => Some(out)
    case _ => None
  }

  lemma LeaseStepsCarry(c: Config, t: Tree, p: Pid, pc: Pc, e: Entry)
    ensures AcquireStep(c, t, pc).Some? ==> Carried(AcquireStep(c, t, pc).value.pc) != Some(Stored(e))
    ensures ReleaseStep(t, p, pc).Some? && Carried(ReleaseStep(t, p, pc).value.pc) == Some(Stored(e))
            ==> Carried(pc) == Some(Stored(e))
  {
  }

  lemma OtherStepsDecide(c: Config, t: Tree, p: Pid, pc: Pc, x: Choice, e: Entry)
    ensures DeleteStep(t, pc).Some? ==> Carried(DeleteStep(t, pc).value.pc) != Some(Stored(e))
    ensures PruneStep(c, t, pc, x).Some? ==> Carried(PruneStep(c, t, pc, x).value.pc) != Some(Stored(e))
    ensures PutStep(c, t, p, pc).Some? && Carried(PutStep(c, t, p, pc).value.pc) == Some(Stored(e))
            ==> (pc.Commit? || pc.Reuse?) && pc.job == Put(e)
  {
  }

  /**
   A success is decided once, by the commit rename or by the comparison with the stored entry, and
   is only carried from there to the caller; every other path of a Put ends in failure.
   */
  lemma SuccessIsDecidedOnce(c: Config, s: State, p: Pid, x: Choice, e: Entry)
    requires Step(c, s, p, x).Some? && Carried(PcOf(Step(c, s, p, x).value, p)) == Some(Stored(e))
    ensures Carried(PcOf(s, p)) == Some(Stored(e))
            || ((PcOf(s, p).Commit? || PcOf(s, p).Reuse?) && PcOf(s, p).job == Put(e))
  {
    LeaseStepsCarry(c, s.tree, p, PcOf(s, p), e);
    OtherStepsDecide(c, s.tree, p, PcOf(s, p), x, e);
  }

  /**
   Put's answer over a whole run. A caller that did not carry a success at some state and does so later has
   decided it in between, at a state where the store held exactly the entry it reports.
   */
  lemma {:induction false} SuccessWasStored(c: Config, s: State, p: Pid, acts: Schedule, e: Entry) returns (k: nat)
    requires Reachable(c, s) && Carried(PcOf(s, p)) != Some(Stored(e)) && Run(c, s, acts).Some?
    requires Carried(PcOf(Run(c, s, acts).value, p)) == Some(Stored(e))
    ensures k <= |acts| && Run(c, s, acts[..k]).Some? && HoldsEntry(Run(c, s, acts[..k]).value.tree, e)
    decreases |acts|
  {
    hide Step, HoldsEntry;
    assert acts != [];
    var n := |acts| - 1;
    var (q, x) := acts[n];
    var before := Run(c, s, acts[..n]).value;
    if Carried(PcOf(before, p)) == Some(Stored(e)) {
      k := SuccessWasStored(c, s, p, acts[..n], e);
      assert acts[..n][..k] == acts[..k];
    } else {
      k := n + 1;
      assert acts[..k] == acts;
      DecidedStored(c, s, acts[..n], before, p, q, x, e);
    }
  }

  lemma DecidedStored(c: Config, s: State, acts: Schedule, before: State, p: Pid, q: Pid, x: Choice, e: Entry)
    requires Reachable(c, s) && Run(c, s, acts) == Some(before) && Step(c, before, q, x).Some?
    requires Carried(PcOf(before, p)) != Some(Stored(e)) && Carried(PcOf(Step(c, before, q, x).value, p)) == Some(Stored(e))
    ensures HoldsEntry(Step(c, before, q, x).value.tree, e)
  {
    ReachesOn(c, s, acts);
    assert q == p by { hide StepEffect; }
    SuccessIsDecidedOnce(c, before, p, x, e);
    DecidedHow(c, before.tree, p, PcOf(before, p), x, e);
    StoredIsStored(c, before, p, x, e);
  }

  lemma DecidedHow(c: Config, t: Tree, p: Pid, pc: Pc, x: Choice, e: Entry)
    requires (pc.Commit? || pc.Reuse?) && StepEffect(c, t, p, pc, x).Some?
    requires Carried(StepEffect(c, t, p, pc, x).value.pc) == Some(Stored(e))
    ensures var pc' := StepEffect(c, t, p, pc, x).value.pc; pc' == Done(Stored(e)) || (pc'.RelInspect? && pc'.out == Stored(e))
  {
  }

  lemma ReachesOn(c: Config, s: State, acts: Schedule)
    requires Reachable(c, s) && Run(c, s, acts).Some?
    ensures Reachable(c, Run(c, s, acts).value)
  {
    var before: Schedule :| Run(c, INITIAL, before) == Some(s);
    RunConcat(c, INITIAL, before, acts);
    assert Run(c, INITIAL, before + acts) == Run(c, s, acts);
  }

  /**
   A Put whose entry is at no moment of its call what the store holds for its digest, because nothing or an
   entry with other metadata is there, does not succeed.
   */
  lemma ConflictingMetadataFails(c: Config, s: State, p: Pid, acts: Schedule, e: Entry)
    requires Reachable(c, s) && PcOf(s, p) == Lookup(Put(e)) && Run(c, s, acts).Some?
    requires forall k | 0 <= k <= |acts| && Run(c, s, acts[..k]).Some? ::
               !HoldsEntry(Run(c, s, acts[..k]).value.tree, e)
    ensures PcOf(Run(c, s, acts).value, p) != Done(Stored(e))
  {
    hide Reachable, Run, HoldsEntry;
    if PcOf(Run(c, s, acts).value, p) == Done(Stored(e)) {
      var k := SuccessWasStored(c, s, p, acts, e);
    }
  }

  /** A stored entry stays what it is through every run in which nobody removes it. */
  lemma {:induction false} StoredUntilRemoved(c: Config, s: State, acts: Schedule, id: Digest)
    requires Reachable(c, s) && Run(c, s, acts).Some? && id in s.tree.entries
    requires forall k | 0 <= k < |acts| && Run(c, s, acts[..k]).Some? ::
               var s' := Run(c, s, acts[..k]).value; OpOf(s'.tree, PcOf(s', acts[k].0), acts[k].1) != Delete(id)
    ensures id in Run(c, s, acts).value.tree.entries && Run(c, s, acts).value.tree.entries[id] == s.tree.entries[id]
    decreases |acts|
  {
    hide Reachable, Step, OpOf;
    if acts != [] {
      var n := |acts| - 1;
      var before := Run(c, s, acts[..n]).value;
      forall k | 0 <= k < n ensures acts[..n][..k] == acts[..k] && acts[..n][k] == acts[k] {}
      StoredUntilRemoved(c, s, acts[..n], id);
      ReachesOn(c, s, acts[..n]);
      StepRefines(c, before, acts[n].0, acts[n].1);
    }
  }

  /**
   DeletePrivate removes nothing but private raw entries while its lease is still the undisplaced one at the
   lock when it removes.
   */
  lemma DeletesOnlyPrivate(c: Config, s: State, p: Pid, id: Digest)
    requires Reachable(c, s) && PcOf(s, p).DelRemove?
    requires LockIs(s.tree, PcOf(s, p).n) && PcOf(s, p).n !in s.tree.h.displaced
    requires Step(c, s, p, Go).Some?
    requires id in s.tree.entries && id !in Step(c, s, p, Go).value.tree.entries
    ensures PcOf(s, p).job == DeletePrivate(id)
    ensures s.tree.entries[id].manifest.Some? && s.tree.entries[id].manifest.value.kind == PrivateRaw
  {
    ReachableInv(c, s);
    assert PcInv(c, s.tree, p, PcOf(s, p));
  }
}
