/**
 What a caller must have found before each decisive operation of its call, over every interleaving.
 */
module CacheCalls {
  import opened Wrappers
  import opened CacheModel
  import opened CacheInvariant
  import opened CacheRuns
  import opened CacheTheorems
  import opened CachePrune

  /** The state before step k of a run from the empty cache. */
  function Before(c: Config, acts: Schedule, k: nat): State
    requires k <= |acts| && Run(c, INITIAL, acts[..k]).Some?
  {
    Run(c, INITIAL, acts[..k]).value
  }

  /** Step k is the last one of caller p, and took it to where it is now. */
  ghost predicate LastOf(c: Config, acts: Schedule, p: Pid, k: nat) {
    && k < |acts| && Run(c, INITIAL, acts).Some? && Run(c, INITIAL, acts[..k]).Some? && acts[k].0 == p
    && (forall j | k < j < |acts| :: acts[j].0 != p)
    && var s := Before(c, acts, k); var pc' := PcOf(Run(c, INITIAL, acts).value, p);
       var effect := StepEffect(c, s.tree, p, PcOf(s, p), acts[k].1);
       effect.Some? && effect.value.pc == pc'
  }

  /** A caller that is not idle got where it is by some last step. */
  lemma {:induction false} LastMove(c: Config, acts: Schedule, p: Pid) returns (k: nat)
    requires Run(c, INITIAL, acts).Some? && PcOf(Run(c, INITIAL, acts).value, p) != Idle
    ensures LastOf(c, acts, p, k)
    decreases |acts|
  {
    hide StepEffect;
    assert acts != [];
    var n := |acts| - 1;
    if acts[n].0 == p {
      k := n;
    } else {
      k := LastMove(c, acts[..n], p);
      assert acts[..n][..k] == acts[..k] && acts[..n][k] == acts[k];
      forall j | k < j < |acts| ensures acts[j].0 != p {
        assert j < n ==> acts[..n][j] == acts[j];
      }
    }
  }

  // Where each decisive program counter comes from, one step at a time.

  predicate AtLock(t: Tree, n: Nonce) { PutLock in t.dirs && t.dirs[PutLock].owner.nonce == n }

  predicate Setback(pc: Pc) { (pc.Cleanup? || pc.Done?) && pc.out.Failed? }

  lemma AcquireLeadsTo(c: Config, t: Tree, pc: Pc)
    ensures AcquireStep(c, t, pc).Some? ==>
              var to := AcquireStep(c, t, pc).value.pc;
              to.Acquire? || to.Inspect? || to.Steal? || to.Reread? || to.Restore? || to.Discard? || to.Stage?
              || to.DelReload? || Setback(to)
  {
  }

  lemma PutLeadsTo(c: Config, t: Tree, p: Pid, pc: Pc)
    ensures PutStep(c, t, p, pc).Some? ==>
              var to := PutStep(c, t, p, pc).value.pc;
              to.Reuse? || to.MakeTemp? || to.WritePayload? || to.WriteManifest? || to.Ready? || to.AssertOwned?
              || to.Recheck? || to.Capacity? || to.CommitAssert? || to.Commit? || to.CommitFailed? || to.RelInspect?
              || (to.Done? && pc.Reuse?)
  {
  }

  lemma ReleaseLeadsTo(t: Tree, p: Pid, pc: Pc)
    ensures ReleaseStep(t, p, pc).Some? ==>
              var to := ReleaseStep(t, p, pc).value.pc;
              to.RelRename? || to.RelReread? || to.RelProbe? || to.RelRestore? || to.RelRemove? || to.Cleanup? || to.Done?
  {
  }

  lemma OthersLeadTo(c: Config, t: Tree, pc: Pc, x: Choice)
    ensures DeleteStep(t, pc).Some? ==>
              var to := DeleteStep(t, pc).value.pc; to.DelAssert? || to.DelRemove? || to.RelInspect?
    ensures PruneStep(c, t, pc, x).Some? ==>
              var to := PruneStep(c, t, pc, x).value.pc;
              to.Scanning? || to.Sweeping? || (to.Done? && (to.out.Pruned? || to.out.Failed?))
  {
  }

  /** Which part of the protocol a step belongs to. */
  lemma PartOf(c: Config, t: Tree, p: Pid, pc: Pc, x: Choice)
    requires StepEffect(c, t, p, pc, x).Some?
    ensures var effect := StepEffect(c, t, p, pc, x);
            effect == AcquireStep(c, t, pc) || effect == PutStep(c, t, p, pc) || effect == DeleteStep(t, pc)
            || effect == ReleaseStep(t, p, pc) || effect == PruneStep(c, t, pc, x)
            || effect.value.pc.Lookup? || effect.value.pc.FirstLoad? || effect.value.pc.Listing?
            || effect.value.pc.Acquire? || Setback(effect.value.pc)
  {
    hide AcquireStep, PutStep, DeleteStep, ReleaseStep, PruneStep;
  }

  lemma CommitCameFrom(c: Config, t: Tree, p: Pid, pc: Pc, x: Choice)
    requires StepEffect(c, t, p, pc, x).Some?
    ensures var pc' := StepEffect(c, t, p, pc, x).value.pc;
            && (pc'.Commit? ==> pc == CommitAssert(pc'.job, pc'.n) && AtLock(t, pc'.n))
            && (pc'.CommitAssert? ==> pc == Capacity(pc'.job, pc'.n) && |t.entries| < c.maxItems)
            && (pc'.Capacity? ==> pc == Recheck(pc'.job, pc'.n) && pc.job.Put? && pc.job.entry.id !in t.entries)
            && (pc'.Recheck? ==> pc == AssertOwned(pc'.job, pc'.n) && AtLock(t, pc'.n))
  {
    hide StepEffect, AcquireStep, DeleteStep, ReleaseStep, PruneStep;
    PartOf(c, t, p, pc, x);
    AcquireLeadsTo(c, t, pc);
    PutLeadsTo(c, t, p, pc);
    ReleaseLeadsTo(t, p, pc);
    OthersLeadTo(c, t, pc, x);
  }

  lemma RemovalCameFrom(c: Config, t: Tree, p: Pid, pc: Pc, x: Choice)
    requires StepEffect(c, t, p, pc, x).Some?
    ensures var pc' := StepEffect(c, t, p, pc, x).value.pc;
            && (pc'.DelRemove? ==> pc == DelAssert(pc'.job, pc'.n, pc'.entry) && AtLock(t, pc'.n))
            && (pc'.DelAssert? ==>
                  pc == DelReload(pc'.job, pc'.n) && pc.job.DeletePrivate? && pc.job.id in t.entries
                  && t.entries[pc.job.id] == Files(Some(pc.job.id.payload), Some(pc'.entry))
                  && pc'.entry.id == pc.job.id && pc'.entry.kind == PrivateRaw)
  {
    hide StepEffect, AcquireStep, PutStep, ReleaseStep, PruneStep;
    PartOf(c, t, p, pc, x);
    AcquireLeadsTo(c, t, pc);
    PutLeadsTo(c, t, p, pc);
    ReleaseLeadsTo(t, p, pc);
    OthersLeadTo(c, t, pc, x);
  }

  lemma RecoveryCameFrom(c: Config, t: Tree, p: Pid, pc: Pc, x: Choice)
    requires StepEffect(c, t, p, pc, x).Some?
    ensures var pc' := StepEffect(c, t, p, pc, x).value.pc;
            && (pc'.Discard? ==>
                  pc == Reread(pc'.job, pc'.k, pc'.at, pc'.n, pc'.seen) && Recovery(pc'.n) in t.dirs
                  && t.dirs[Recovery(pc'.n)].owner.nonce == pc'.seen.nonce
                  && t.dirs[Recovery(pc'.n)].owner.acquiredAt + c.leaseDuration <= pc'.at)
            && (pc'.Reread? ==> pc == Steal(pc'.job, pc'.k, pc'.at, pc'.n, pc'.seen) && PutLock in t.dirs)
            && (pc'.Steal? ==>
                  pc == Inspect(pc'.job, pc'.k, pc'.at, pc'.n) && PutLock in t.dirs && t.dirs[PutLock].owner == pc'.seen
                  && pc'.seen.acquiredAt + c.leaseDuration <= pc'.at)
  {
    hide StepEffect, PutStep, DeleteStep, ReleaseStep, PruneStep;
    PartOf(c, t, p, pc, x);
    AcquireLeadsTo(c, t, pc);
    PutLeadsTo(c, t, p, pc);
    ReleaseLeadsTo(t, p, pc);
    OthersLeadTo(c, t, pc, x);
  }

  lemma SuccessCameFrom(c: Config, t: Tree, p: Pid, pc: Pc, x: Choice)
    requires StepEffect(c, t, p, pc, x).Some?
    ensures var pc' := StepEffect(c, t, p, pc, x).value.pc;
            && (pc'.Done? && (pc'.out.Stored? || pc'.out.Removed?) ==>
                  (pc.Cleanup? && pc.out == pc'.out)
                  || (pc.Reuse? && pc.lease.None? && pc'.out.Stored? && HoldsEntry(t, pc'.out.entry)))
            && (pc'.Cleanup? && (pc'.out.Stored? || pc'.out.Removed?) ==> pc == RelRemove(pc'.job, pc'.n, pc'.out, pc'.left))
            && (pc'.RelRemove? ==> pc == RelReread(pc'.job, pc'.n, pc'.out, pc'.left)
                                   && Release(pc'.n) in t.dirs && t.dirs[Release(pc'.n)].owner.nonce == pc'.n)
            && (pc'.RelReread? ==> pc == RelRename(pc'.job, pc'.n, pc'.out, pc'.left) && PutLock in t.dirs)
            && (pc'.RelRename? ==> pc == RelInspect(pc'.job, pc'.n, pc'.out, pc'.left) && AtLock(t, pc'.n))
  {
    hide StepEffect, AcquireStep, DeleteStep, PruneStep;
    PartOf(c, t, p, pc, x);
    AcquireLeadsTo(c, t, pc);
    PutLeadsTo(c, t, p, pc);
    ReleaseLeadsTo(t, p, pc);
    OthersLeadTo(c, t, pc, x);
  }

  // The calls, traced back over a run.

  /** k is the step caller p took last before step m, and led to where p was then. */
  ghost predicate StepBefore(c: Config, acts: Schedule, p: Pid, k: nat, m: nat) {
    && k < m <= |acts| && Run(c, INITIAL, acts[..m]).Some? && Run(c, INITIAL, acts[..k]).Some? && acts[k].0 == p
    && (forall j | k < j < m :: acts[j].0 != p)
    && var s := Before(c, acts, k); var effect := StepEffect(c, s.tree, p, PcOf(s, p), acts[k].1);
       effect.Some? && effect.value.pc == PcOf(Before(c, acts, m), p)
  }

  lemma Back(c: Config, acts: Schedule, p: Pid, m: nat) returns (k: nat)
    requires m <= |acts| && Run(c, INITIAL, acts[..m]).Some? && PcOf(Before(c, acts, m), p) != Idle
    ensures StepBefore(c, acts, p, k, m)
  {
    hide StepEffect, Run;
    k := LastMove(c, acts[..m], p);
    assert acts[..m][..k] == acts[..k] && acts[..m][k] == acts[k];
    forall j | k < j < m ensures acts[j].0 != p {
      assert acts[..m][j] == acts[j];
    }
  }

  /**
   A caller about to rename its transaction into the store has taken exactly four steps since it staged it: its
   lease was at the lock, its digest was not stored, the store was below its limit, and its lease was at the
   lock once more.
   */
  lemma CommitWasChecked(c: Config, acts: Schedule, p: Pid) returns (k0: nat, k1: nat, k2: nat, k3: nat)
    requires Run(c, INITIAL, acts).Some? && PcOf(Run(c, INITIAL, acts).value, p).Commit?
    ensures StepBefore(c, acts, p, k0, k1) && StepBefore(c, acts, p, k1, k2) && StepBefore(c, acts, p, k2, k3)
    ensures StepBefore(c, acts, p, k3, |acts|)
    ensures var pc := PcOf(Run(c, INITIAL, acts).value, p);
            && pc.job.Put? && AtLock(Before(c, acts, k0).tree, pc.n)
            && pc.job.entry.id !in Before(c, acts, k1).tree.entries
            && |Before(c, acts, k2).tree.entries| < c.maxItems
            && AtLock(Before(c, acts, k3).tree, pc.n)
  {
    hide StepEffect, Run;
    assert acts[..|acts|] == acts;
    k3 := Back(c, acts, p, |acts|);
    CommitCameFrom(c, Before(c, acts, k3).tree, p, PcOf(Before(c, acts, k3), p), acts[k3].1);
    k2 := Back(c, acts, p, k3);
    CommitCameFrom(c, Before(c, acts, k2).tree, p, PcOf(Before(c, acts, k2), p), acts[k2].1);
    k1 := Back(c, acts, p, k2);
    CommitCameFrom(c, Before(c, acts, k1).tree, p, PcOf(Before(c, acts, k1), p), acts[k1].1);
    k0 := Back(c, acts, p, k1);
    CommitCameFrom(c, Before(c, acts, k0).tree, p, PcOf(Before(c, acts, k0), p), acts[k0].1);
  }

  /**
   A DeletePrivate about to remove has taken exactly two steps under its lease: it found a complete private raw
   entry under its digest, the one it will report, and its lease at the lock.
   */
  lemma RemovalWasChecked(c: Config, acts: Schedule, p: Pid) returns (k0: nat, k1: nat)
    requires Run(c, INITIAL, acts).Some? && PcOf(Run(c, INITIAL, acts).value, p).DelRemove?
    ensures StepBefore(c, acts, p, k0, k1) && StepBefore(c, acts, p, k1, |acts|)
    ensures var pc, entries := PcOf(Run(c, INITIAL, acts).value, p), Before(c, acts, k0).tree.entries;
            && pc.job.DeletePrivate? && pc.job.id in entries
            && entries[pc.job.id] == Files(Some(pc.job.id.payload), Some(pc.entry)) && pc.entry.kind == PrivateRaw
            && AtLock(Before(c, acts, k1).tree, pc.n)
  {
    hide StepEffect, Run;
    assert acts[..|acts|] == acts;
    k1 := Back(c, acts, p, |acts|);
    RemovalCameFrom(c, Before(c, acts, k1).tree, p, PcOf(Before(c, acts, k1), p), acts[k1].1);
    k0 := Back(c, acts, p, k1);
    RemovalCameFrom(c, Before(c, acts, k0).tree, p, PcOf(Before(c, acts, k0), p), acts[k0].1);
  }

  /**
   A recoverer about to remove a lease directory had inspected that lease at the lock and found it expired at
   its own clock, had renamed what was at the lock then, and had read the same lease, still expired, after that.
   */
  lemma RecoveryWasChecked(c: Config, acts: Schedule, p: Pid) returns (k0: nat, k1: nat, k2: nat)
    requires Run(c, INITIAL, acts).Some? && PcOf(Run(c, INITIAL, acts).value, p).Discard?
    ensures StepBefore(c, acts, p, k0, k1) && StepBefore(c, acts, p, k1, k2) && StepBefore(c, acts, p, k2, |acts|)
    ensures var pc := PcOf(Run(c, INITIAL, acts).value, p);
            var inspected, renamed, reread := Before(c, acts, k0).tree, Before(c, acts, k1).tree, Before(c, acts, k2).tree;
            && PutLock in inspected.dirs && inspected.dirs[PutLock].owner == pc.seen
            && pc.seen.acquiredAt + c.leaseDuration <= pc.at
            && PutLock in renamed.dirs && Recovery(pc.n) in reread.dirs
            && reread.dirs[Recovery(pc.n)].owner.nonce == pc.seen.nonce
            && reread.dirs[Recovery(pc.n)].owner.acquiredAt + c.leaseDuration <= pc.at
  {
    hide StepEffect, Run;
    assert acts[..|acts|] == acts;
    k2 := Back(c, acts, p, |acts|);
    RecoveryCameFrom(c, Before(c, acts, k2).tree, p, PcOf(Before(c, acts, k2), p), acts[k2].1);
    k1 := Back(c, acts, p, k2);
    RecoveryCameFrom(c, Before(c, acts, k1).tree, p, PcOf(Before(c, acts, k1), p), acts[k1].1);
    k0 := Back(c, acts, p, k1);
    RecoveryCameFrom(c, Before(c, acts, k0).tree, p, PcOf(Before(c, acts, k0), p), acts[k0].1);
  }

  /** The five steps of a release that keeps its outcome, before step m. */
  ghost predicate Released(c: Config, acts: Schedule, p: Pid, n: Nonce, k0: nat, k1: nat, k2: nat, k3: nat, m: nat) {
    && StepBefore(c, acts, p, k0, k1) && StepBefore(c, acts, p, k1, k2) && StepBefore(c, acts, p, k2, k3)
    && StepBefore(c, acts, p, k3, m)
    && AtLock(Before(c, acts, k0).tree, n) && PutLock in Before(c, acts, k1).tree.dirs
    && Release(n) in Before(c, acts, k2).tree.dirs && Before(c, acts, k2).tree.dirs[Release(n)].owner.nonce == n
    && PcOf(Before(c, acts, k3), p).RelRemove? && PcOf(Before(c, acts, k3), p).n == n
  }

  /**
   A call that answers with a success has released its lease: it found it at the lock, renamed it away, found
   it again under the new name, and removed it. The one exception is a Put that never took a lease, because
   the entry it was given was stored already.
   */
  lemma SuccessWasReleased(c: Config, acts: Schedule, p: Pid)
    returns (k0: nat, k1: nat, k2: nat, k3: nat, k4: nat, n: Nonce)
    requires Run(c, INITIAL, acts).Some? && PcOf(Run(c, INITIAL, acts).value, p).Done?
    requires var out := PcOf(Run(c, INITIAL, acts).value, p).out; out.Stored? || out.Removed?
    ensures StepBefore(c, acts, p, k4, |acts|)
    ensures var out, last := PcOf(Run(c, INITIAL, acts).value, p).out, Before(c, acts, k4);
            || (out.Stored? && PcOf(last, p).Reuse? && PcOf(last, p).lease == None && HoldsEntry(last.tree, out.entry))
            || (PcOf(last, p).Cleanup? && PcOf(last, p).out == out && Released(c, acts, p, n, k0, k1, k2, k3, k4))
  {
    hide StepEffect, Run;
    assert acts[..|acts|] == acts;
    k0, k1, k2, k3, n := 0, 0, 0, 0, 0;
    k4 := Back(c, acts, p, |acts|);
    SuccessCameFrom(c, Before(c, acts, k4).tree, p, PcOf(Before(c, acts, k4), p), acts[k4].1);
    if PcOf(Before(c, acts, k4), p).Cleanup? {
      n := PcOf(Before(c, acts, k4), p).n;
      k3 := Back(c, acts, p, k4);
      SuccessCameFrom(c, Before(c, acts, k3).tree, p, PcOf(Before(c, acts, k3), p), acts[k3].1);
      k2 := Back(c, acts, p, k3);
      SuccessCameFrom(c, Before(c, acts, k2).tree, p, PcOf(Before(c, acts, k2), p), acts[k2].1);
      k1 := Back(c, acts, p, k2);
      SuccessCameFrom(c, Before(c, acts, k1).tree, p, PcOf(Before(c, acts, k1), p), acts[k1].1);
      k0 := Back(c, acts, p, k1);
      SuccessCameFrom(c, Before(c, acts, k0).tree, p, PcOf(Before(c, acts, k0), p), acts[k0].1);
    }
  }

  /** A call that releases a lease does not answer as a Prune. */
  predicate Releasing(pc: Pc) {
    (pc.RelInspect? || pc.RelRename? || pc.RelReread? || pc.RelRemove? || pc.Cleanup?) && pc.out.Pruned?
  }

  lemma ReleasingFrom(c: Config, t: Tree, p: Pid, pc: Pc, x: Choice)
    requires StepEffect(c, t, p, pc, x).Some? && Releasing(StepEffect(c, t, p, pc, x).value.pc)
    ensures Releasing(pc)
  {
    hide StepEffect, AcquireStep, PutStep, DeleteStep, ReleaseStep, PruneStep;
    PartOf(c, t, p, pc, x);
    OthersRelease(c, t, p, pc, x);
    if ReleaseStep(t, p, pc).Some? && Releasing(ReleaseStep(t, p, pc).value.pc) { ReleaseReleases(t, p, pc); }
  }

  lemma OthersRelease(c: Config, t: Tree, p: Pid, pc: Pc, x: Choice)
    ensures AcquireStep(c, t, pc).Some? ==> !Releasing(AcquireStep(c, t, pc).value.pc)
    ensures PutStep(c, t, p, pc).Some? ==> !Releasing(PutStep(c, t, p, pc).value.pc)
    ensures DeleteStep(t, pc).Some? ==> !Releasing(DeleteStep(t, pc).value.pc)
    ensures PruneStep(c, t, pc, x).Some? ==> !Releasing(PruneStep(c, t, pc, x).value.pc)
  {
  }

  lemma ReleaseReleases(t: Tree, p: Pid, pc: Pc)
    requires ReleaseStep(t, p, pc).Some? && Releasing(ReleaseStep(t, p, pc).value.pc)
    ensures Releasing(pc)
  {
  }

  lemma {:induction false} NeverReleasing(c: Config, acts: Schedule, p: Pid)
    requires Run(c, INITIAL, acts).Some?
    ensures !Releasing(PcOf(Run(c, INITIAL, acts).value, p))
    decreases |acts|
  {
    hide StepEffect, Releasing;
    if acts == [] {
      assert !Releasing(Idle) by { NotReleasing(); }
    } else {
      var n := |acts| - 1;
      NeverReleasing(c, acts[..n], p);
      if acts[n].0 == p && Releasing(PcOf(Run(c, INITIAL, acts).value, p)) {
        ReleasingFrom(c, Run(c, INITIAL, acts[..n]).value.tree, p, PcOf(Run(c, INITIAL, acts[..n]).value, p), acts[n].1);
      }
    }
  }

  lemma NotReleasing()
    ensures !Releasing(Idle)
  {
  }

  lemma PrunedCameFrom(c: Config, t: Tree, p: Pid, pc: Pc, x: Choice)
    requires StepEffect(c, t, p, pc, x).Some? && !Releasing(pc)
    requires var pc' := StepEffect(c, t, p, pc, x).value.pc; pc'.Done? && pc'.out.Pruned?
    ensures pc.Sweeping? && pc.todo == {} && pc.marked == StepEffect(c, t, p, pc, x).value.pc.out.removed
  {
    hide StepEffect, AcquireStep, PutStep, DeleteStep, ReleaseStep;
    PartOf(c, t, p, pc, x);
    OthersAnswer(c, t, p, pc);
  }

  lemma OthersAnswer(c: Config, t: Tree, p: Pid, pc: Pc)
    ensures AcquireStep(c, t, pc).Some? && AcquireStep(c, t, pc).value.pc.Done? ==> !AcquireStep(c, t, pc).value.pc.out.Pruned?
    ensures PutStep(c, t, p, pc).Some? && PutStep(c, t, p, pc).value.pc.Done? ==> !PutStep(c, t, p, pc).value.pc.out.Pruned?
    ensures DeleteStep(t, pc).Some? ==> !DeleteStep(t, pc).value.pc.Done?
    ensures ReleaseStep(t, p, pc).Some? && ReleaseStep(t, p, pc).value.pc.Done? && ReleaseStep(t, p, pc).value.pc.out.Pruned? ==>
              Releasing(pc)
  {
  }

  /**
   A Prune that answers has removed, since it listed the store, each digest it answers with, and has found a
   complete entry under every digest of its listing, each expired one among those it answers with.
   */
  lemma PruneAnswers(c: Config, acts: Schedule, p: Pid) returns (k0: nat, k1: nat)
    requires Run(c, INITIAL, acts).Some? && PcOf(Run(c, INITIAL, acts).value, p).Done?
    requires PcOf(Run(c, INITIAL, acts).value, p).out.Pruned?
    ensures StepBefore(c, acts, p, k1, |acts|) && k0 < k1 && acts[k0] == (p, Go) && Run(c, INITIAL, acts[..k0]).Some?
    ensures var pc, listing := PcOf(Before(c, acts, k1), p), Before(c, acts, k0);
            && pc.Sweeping? && PcOf(listing, p) == Listing(pc.at) && pc.marked == PcOf(Run(c, INITIAL, acts).value, p).out.removed
            && Accounted(c, acts[..k1], p, pc, k0, listing.tree.entries.Keys)
            && forall id <- pc.marked :: exists k :: RemovedAt(acts[..k1], p, k, id)
  {
    hide StepEffect, Accounted, RemovedAt, Releasing;
    assert acts[..|acts|] == acts;
    k1 := Back(c, acts, p, |acts|);
    NeverReleasing(c, acts[..k1], p);
    PrunedCameFrom(c, Before(c, acts, k1).tree, p, PcOf(Before(c, acts, k1), p), acts[k1].1);
    k0 := ListedWereFound(c, acts[..k1], p);
    SweepsAll(c, acts[..k1], p);
    assert acts[..k1][..k0] == acts[..k0] && acts[..k1][k0] == acts[k0];
  }

  /**
   An acquisition gives up after four attempts: a caller at its fifth fails without touching the tree, and no
   attempt leads past it.
   */
  lemma FourAttempts(c: Config, s: State, p: Pid)
    requires Reachable(c, s) && PcOf(s, p).Acquire?
    ensures PcOf(s, p).k <= 4 && Step(c, s, p, Go).Some?
    ensures PcOf(s, p).k == 4 ==> Step(c, s, p, Go).value.tree == s.tree && Setback(PcOf(Step(c, s, p, Go).value, p))
    ensures PcOf(s, p).k < 4 ==> !Setback(PcOf(Step(c, s, p, Go).value, p))
  {
    ReachableInv(c, s);
    assert PcInv(c, s.tree, p, PcOf(s, p));
  }

  /** The part of a Put that has a private temporary directory. */
  predicate HasTemporary(pc: Pc) {
    || ((pc.WritePayload? || pc.WriteManifest? || pc.Ready? || pc.Acquire? || pc.Inspect? || pc.Steal? || pc.Reread?
         || pc.Restore? || pc.Discard? || pc.Stage?) && pc.job.Put?)
    || ((pc.RelInspect? || pc.RelRename? || pc.RelReread? || pc.RelProbe? || pc.RelRestore? || pc.RelRemove?
         || pc.Cleanup?) && pc.left == Temporary)
  }

  lemma TemporaryAcquire(c: Config, t: Tree, p: Pid, pc: Pc)
    requires AcquireStep(c, t, pc).Some? && (p in t.tmp ==> HasTemporary(pc))
    ensures var e := AcquireStep(c, t, pc).value; e.tree.tmp == t.tmp && (p in t.tmp ==> HasTemporary(e.pc))
  {
  }

  lemma TemporaryPut(c: Config, t: Tree, p: Pid, pc: Pc)
    requires PutStep(c, t, p, pc).Some? && (p in t.tmp ==> HasTemporary(pc))
    ensures var e := PutStep(c, t, p, pc).value;
            (p in e.tree.tmp ==> HasTemporary(e.pc)) && forall q | q != p && q in e.tree.tmp :: q in t.tmp
  {
  }

  lemma TemporaryRelease(t: Tree, p: Pid, pc: Pc)
    requires ReleaseStep(t, p, pc).Some? && (p in t.tmp ==> HasTemporary(pc))
    ensures var e := ReleaseStep(t, p, pc).value;
            (p in e.tree.tmp ==> HasTemporary(e.pc)) && forall q | q in e.tree.tmp :: q in t.tmp
  {
  }

  lemma TemporaryDelete(t: Tree, pc: Pc)
    ensures DeleteStep(t, pc).Some? ==> DeleteStep(t, pc).value.tree.tmp == t.tmp && !HasTemporary(pc)
  {
    hide Load;
  }

  lemma TemporaryPrune(c: Config, t: Tree, pc: Pc, x: Choice)
    ensures PruneStep(c, t, pc, x).Some? ==> PruneStep(c, t, pc, x).value.tree.tmp == t.tmp && !HasTemporary(pc)
  {
    hide Load, EntryExpired;
  }

  lemma TemporaryOther(c: Config, t: Tree, pc: Pc, x: Choice)
    ensures DeleteStep(t, pc).Some? ==> DeleteStep(t, pc).value.tree.tmp == t.tmp && !HasTemporary(pc)
    ensures PruneStep(c, t, pc, x).Some? ==> PruneStep(c, t, pc, x).value.tree.tmp == t.tmp && !HasTemporary(pc)
  {
    hide DeleteStep, PruneStep, HasTemporary;
    TemporaryDelete(t, pc);
    TemporaryPrune(c, t, pc, x);
  }

  lemma TemporaryStep(c: Config, t: Tree, p: Pid, pc: Pc, x: Choice)
    requires StepEffect(c, t, p, pc, x).Some? && (p in t.tmp ==> HasTemporary(pc))
    ensures var e := StepEffect(c, t, p, pc, x).value;
            (p in e.tree.tmp ==> HasTemporary(e.pc)) && forall q | q != p && q in e.tree.tmp :: q in t.tmp
  {
    hide AcquireStep, PutStep, DeleteStep, ReleaseStep, PruneStep;
    if AcquireStep(c, t, pc).Some? {
      TemporaryAcquire(c, t, p, pc);
    }
    if PutStep(c, t, p, pc).Some? {
      TemporaryPut(c, t, p, pc);
    }
    if ReleaseStep(t, p, pc).Some? {
      TemporaryRelease(t, p, pc);
    }
    TemporaryOther(c, t, pc, x);
  }

  /** A temporary directory belongs to a Put that is still under way: whoever is done, or idle, has left none. */
  lemma {:induction false} NoTemporaryLeft(c: Config, acts: Schedule, p: Pid)
    requires Run(c, INITIAL, acts).Some? && p in Run(c, INITIAL, acts).value.tree.tmp
    ensures HasTemporary(PcOf(Run(c, INITIAL, acts).value, p))
    decreases |acts|
  {
    hide StepEffect, HasTemporary;
    if acts != [] {
      var n := |acts| - 1;
      var s := Run(c, INITIAL, acts[..n]).value;
      forall q | q in s.tree.tmp ensures HasTemporary(PcOf(s, q)) {
        NoTemporaryLeft(c, acts[..n], q);
      }
      TemporaryStep(c, s.tree, acts[n].0, PcOf(s, acts[n].0), acts[n].1);
    }
  }
}
