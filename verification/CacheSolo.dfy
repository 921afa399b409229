/**
 What a caller that nobody disturbs does from wherever it is: an acquisition that fails, a store that is full,
 a lease that has expired, a race that was lost, a lease that was mistaken for another.
 */
module CacheSolo {
  import opened Wrappers
  import opened CacheModel
  import opened CacheRuns

  lemma PutGoes(c: Config, t: Tree, p: Pid, pc: Pc)
    requires PutStep(c, t, p, pc).Some?
    ensures StepEffect(c, t, p, pc, Go) == PutStep(c, t, p, pc)
  {
  }

  /** A path that stays where it is. */
  lemma Stay(c: Config, p: Pid, at: Effect) returns (path: Path)
    ensures Leads(c, p, path, at, at) && path.xs == []
  {
    path := Path([at], []);
  }

  lemma Then(c: Config, p: Pid, a: Path, from: Effect, mid: Effect, to: Effect) returns (path: Path)
    requires Leads(c, p, a, from, mid) && StepEffect(c, mid.tree, p, mid.pc, Go) == Some(to)
    ensures Leads(c, p, path, from, to) && |path.xs| == |a.xs| + 1
  {
    hide StepEffect;
    var b := Path([mid, to], [Go]);
    JoinLeads(c, p, a, b, from, mid, to);
    path := Join(a, b);
  }

  lemma ByAcquire(c: Config, p: Pid, a: Path, from: Effect, mid: Effect, to: Effect) returns (path: Path)
    requires Leads(c, p, a, from, mid) && AcquireStep(c, mid.tree, mid.pc) == Some(to)
    ensures Leads(c, p, path, from, to) && |path.xs| == |a.xs| + 1
  {
    hide Leads, AcquireStep;
    AcquireGoes(c, mid.tree, p, mid.pc);
    path := Then(c, p, a, from, mid, to);
  }

  lemma ByPut(c: Config, p: Pid, a: Path, from: Effect, mid: Effect, to: Effect) returns (path: Path)
    requires Leads(c, p, a, from, mid) && PutStep(c, mid.tree, p, mid.pc) == Some(to)
    ensures Leads(c, p, path, from, to) && |path.xs| == |a.xs| + 1
  {
    hide Leads, PutStep;
    PutGoes(c, mid.tree, p, mid.pc);
    path := Then(c, p, a, from, mid, to);
  }

  lemma ByRelease(c: Config, p: Pid, a: Path, from: Effect, mid: Effect, to: Effect) returns (path: Path)
    requires Leads(c, p, a, from, mid) && ReleaseStep(mid.tree, p, mid.pc) == Some(to)
    ensures Leads(c, p, path, from, to) && |path.xs| == |a.xs| + 1
  {
    hide Leads, ReleaseStep;
    ReleaseGoes(c, mid.tree, p, mid.pc);
    path := Then(c, p, a, from, mid, to);
  }

  lemma Joined(c: Config, p: Pid, a: Path, b: Path, from: Effect, mid: Effect, to: Effect) returns (path: Path)
    requires Leads(c, p, a, from, mid) && Leads(c, p, b, mid, to)
    ensures Leads(c, p, path, from, to) && |path.xs| == |a.xs| + |b.xs|
  {
    JoinLeads(c, p, a, b, from, mid, to);
    path := Join(a, b);
  }

  // Failing.

  /** The last step of a Put that never had a lease. */
  lemma GiveUp(c: Config, t: Tree, p: Pid, e: Entry) returns (path: Path)
    ensures Leads(c, p, path, Effect(t, AcquireFailed(Put(e))), Effect(t.(tmp := t.tmp - {p}), Done(Failed)))
    ensures |path.xs| > 0
  {
    hide Leads, StepEffect;
    var from, to := Effect(t, AcquireFailed(Put(e))), Effect(t.(tmp := t.tmp - {p}), Done(Failed));
    path := Stay(c, p, from);
    path := ByRelease(c, p, path, from, from, to);
  }

  /** A Put of a new digest while somebody holds an unexpired lease fails, and leaves everything as it was. */
  lemma SoloBusy(c: Config, s: State, p: Pid, e: Entry, at: int) returns (acts: Schedule, s': State)
    requires Free(PcOf(s, p)) && e.id !in s.tree.entries
    requires PutLock in s.tree.dirs && at < s.tree.dirs[PutLock].owner.acquiredAt + c.leaseDuration
    ensures Run(c, s, acts) == Some(s') && PcOf(s', p) == Done(Failed)
    ensures s'.tree.entries == s.tree.entries && s'.tree.dirs == s.tree.dirs && s'.tree.tmp == s.tree.tmp - {p}
  {
    hide Leads, StepEffect;
    var t1 := WithTemp(s.tree, p, e);
    var t2 := t1.(next := t1.next + 1);
    var from, e1, e2, e3 := Here(s, p), Effect(t1, Acquire(Put(e), 0, at)), Effect(t2, Inspect(Put(e), 0, at, t1.next)),
                            Effect(t2, AcquireFailed(Put(e)));
    var to := Effect(t2.(tmp := t2.tmp - {p}), Done(Failed));
    var a := Prepare(c, s.tree, p, PcOf(s, p), e, at);
    var b := ByAcquire(c, p, a, from, e1, e2);
    var d := ByAcquire(c, p, b, from, e2, e3);
    var f := GiveUp(c, t2, p, e);
    var path := Joined(c, p, d, f, from, e3, to);
    acts := Follow(c, s, p, path, to);
    s' := Goto(s, to, p);
  }

  // Releasing, whatever is left over.

  /** Release of a held lease removes its directory, with whatever is staged in it. */
  lemma ReleaseAll(c: Config, t: Tree, p: Pid, job: Job, n: Nonce, out: Outcome, left: Leftover) returns (path: Path)
    requires LockIs(t, n) && Release(n) !in t.dirs && left != Temporary
    ensures Leads(c, p, path, Effect(t, RelInspect(job, n, out, left)), Effect(RemoveDir(t, PutLock), Done(out)))
    ensures |path.xs| > 0
  {
    hide Leads, StepEffect;
    var t1, t2 := MoveLock(t, Release(n), n), RemoveDir(t, PutLock);
    MoveThenRemove(t, n);
    var e0, e1 := Effect(t, RelInspect(job, n, out, left)), Effect(t, RelRename(job, n, out, left));
    var e2, e3 := Effect(t1, RelReread(job, n, out, left)), Effect(t1, RelRemove(job, n, out, left));
    var e4, e5 := Effect(t2, Cleanup(job, n, out, left)), Effect(t2, Done(out));
    path := Stay(c, p, e0);
    path := ByRelease(c, p, path, e0, e0, e1);
    path := ByRelease(c, p, path, e0, e1, e2);
    path := ByRelease(c, p, path, e0, e2, e3);
    path := ByRelease(c, p, path, e0, e3, e4);
    path := ByRelease(c, p, path, e0, e4, e5);
  }

  lemma CheckFull(c: Config, t: Tree, p: Pid, e: Entry, n: Nonce) returns (path: Path)
    requires LockIs(t, n) && e.id !in t.entries && |t.entries| >= c.maxItems
    ensures Leads(c, p, path, Effect(t, AssertOwned(Put(e), n)), Effect(t, RelInspect(Put(e), n, Failed, StagedCopy)))
  {
    hide Leads, StepEffect;
    var job := Put(e);
    var e0, e1, e2, e3 := Effect(t, AssertOwned(job, n)), Effect(t, Recheck(job, n)), Effect(t, Capacity(job, n)),
                          Effect(t, RelInspect(job, n, Failed, StagedCopy));
    path := Stay(c, p, e0);
    path := ByPut(c, p, path, e0, e0, e1);
    path := ByPut(c, p, path, e0, e1, e2);
    path := ByPut(c, p, path, e0, e2, e3);
  }

  /** What a lease and a staged entry leave when the lease is gone. */
  lemma LeaseGone(t: Tree, p: Pid, e: Entry, at: int)
    requires PutLock !in t.dirs
    ensures var t1 := WithTemp(t, p, e); var t2 := Leased(t1, p, at, FilesOf(e)); var t3 := RemoveDir(t2, PutLock);
            && LockIs(t2, t.next) && t2.entries == t.entries && (forall place :: place != PutLock ==> (place in t2.dirs <==> place in t.dirs))
            && t3.entries == t.entries && t3.dirs == t.dirs && t3.tmp == t.tmp - {p}
            && t1.next == t.next && t1.dirs == t.dirs && p in t1.tmp && t1.tmp[p] == FilesOf(e) && t1.entries == t.entries
  {
    assert t.tmp[p := FilesOf(e)] - {p} == t.tmp - {p};
  }

  /**
   A Put of a new digest into a full store fails, whatever has expired, and leaves everything as it was.
   */
  lemma SoloFull(c: Config, s: State, p: Pid, e: Entry, at: int) returns (acts: Schedule, s': State)
    requires Free(PcOf(s, p)) && PutLock !in s.tree.dirs && Release(s.tree.next) !in s.tree.dirs
    requires e.id !in s.tree.entries && |s.tree.entries| >= c.maxItems
    ensures Run(c, s, acts) == Some(s') && PcOf(s', p) == Done(Failed)
    ensures s'.tree.entries == s.tree.entries && s'.tree.dirs == s.tree.dirs && s'.tree.tmp == s.tree.tmp - {p}
  {
    hide Leads, Leased, WithTemp, RemoveDir, LockIs, Run;
    var job, n, t1 := Put(e), s.tree.next, WithTemp(s.tree, p, e);
    var t2 := Leased(t1, p, at, FilesOf(e));
    var from, e1, e2 := Here(s, p), Effect(t1, Acquire(job, 0, at)), Effect(t2, AssertOwned(job, n));
    var e3, to := Effect(t2, RelInspect(job, n, Failed, StagedCopy)), Effect(RemoveDir(t2, PutLock), Done(Failed));
    LeaseGone(s.tree, p, e, at);
    var a := Prepare(c, s.tree, p, PcOf(s, p), e, at);
    var b := LeaseAndStage(c, t1, p, e, 0, at);
    var path := Joined(c, p, a, b, from, e1, e2);
    b := CheckFull(c, t2, p, e, n);
    path := Joined(c, p, path, b, from, e2, e3);
    b := ReleaseAll(c, t2, p, job, n, Failed, StagedCopy);
    path := Joined(c, p, path, b, from, e3, to);
    acts := Follow(c, s, p, path, to);
    s' := Goto(s, to, p);
  }

  /**
   A Put that meets its digest stored while it holds the lease, at its own check or after it lost the commit to
   another, succeeds exactly when what is stored is its entry, and releases its lease.
   */
  lemma SoloMeets(c: Config, s: State, p: Pid, e: Entry, n: Nonce) returns (acts: Schedule, s': State)
    requires PcOf(s, p) == Recheck(Put(e), n) || PcOf(s, p) == CommitFailed(Put(e), n)
    requires e.id in s.tree.entries && LockIs(s.tree, n) && Release(n) !in s.tree.dirs
    ensures Run(c, s, acts) == Some(s') && s'.tree == s.tree.(dirs := s.tree.dirs - {PutLock})
    ensures PcOf(s', p) == Done(if s.tree.entries[e.id] == Files(Some(e.id.payload), Some(e)) then Stored(e) else Failed)
  {
    hide Leads, StepEffect;
    var job, t, out := Put(e), s.tree, ReuseOutcome(s.tree, e);
    var from, e1, e2 := Here(s, p), Effect(t, Reuse(job, Some(n), StagedCopy)), Effect(t, RelInspect(job, n, out, StagedCopy));
    var to := Effect(RemoveDir(t, PutLock), Done(out));
    var path := Stay(c, p, from);
    path := ByPut(c, p, path, from, from, e1);
    path := ByPut(c, p, path, from, e1, e2);
    var d := ReleaseAll(c, t, p, job, n, out, StagedCopy);
    path := Joined(c, p, path, d, from, e2, to);
    acts := Follow(c, s, p, path, to);
    s' := Goto(s, to, p);
  }

  // Recovering.

  /** The tree after an expired lease at the lock was recovered by a caller that drew two numbers for it. */
  function Recovered(t: Tree, n: Nonce): Tree
    requires PutLock in t.dirs
  {
    t.(next := n + 1, dirs := t.dirs - {PutLock}, h := t.h.(recovered := t.h.recovered + {t.dirs[PutLock].owner.nonce}))
  }

  lemma RecoverStale(c: Config, t: Tree, p: Pid, job: Job, k: nat, at: int) returns (path: Path)
    requires k < 4 && PutLock in t.dirs && Recovery(t.next) !in t.dirs
    requires t.dirs[PutLock].owner.acquiredAt + c.leaseDuration <= at
    ensures Leads(c, p, path, Effect(t, Acquire(job, k, at)), Effect(Recovered(t, t.next), Acquire(job, k + 1, at)))
    ensures |path.xs| > 0
  {
    hide Leads, StepEffect;
    var n, seen := t.next, t.dirs[PutLock].owner;
    var t1 := t.(next := n + 1);
    var t2 := MoveLock(t1, Recovery(n), seen.nonce);
    var e0, e1, e2 := Effect(t, Acquire(job, k, at)), Effect(t1, Inspect(job, k, at, n)), Effect(t1, Steal(job, k, at, n, seen));
    var e3, e4 := Effect(t2, Reread(job, k, at, n, seen)), Effect(t2, Discard(job, k, at, n, seen));
    var to := Effect(Recovered(t, n), Acquire(job, k + 1, at));
    assert RemoveStale(t2, Recovery(n)).dirs == t.dirs - {PutLock};
    path := Stay(c, p, e0);
    path := ByAcquire(c, p, path, e0, e0, e1);
    path := ByAcquire(c, p, path, e0, e1, e2);
    path := ByAcquire(c, p, path, e0, e2, e3);
    path := ByAcquire(c, p, path, e0, e3, e4);
    path := ByAcquire(c, p, path, e0, e4, to);
  }

  /** The tree after that caller published its entry under its own lease. */
  function Replaced(t: Tree, p: Pid, e: Entry, at: int): Tree
    requires PutLock in t.dirs
  {
    RemoveDir(Publish(Leased(Recovered(t, t.next), p, at, FilesOf(e)), t.next + 1, e.id), PutLock)
  }

  lemma LeaseFacts(t: Tree, p: Pid, e: Entry, at: int)
    requires PutLock in t.dirs && p in t.tmp && t.tmp[p] == FilesOf(e)
    ensures var t2 := Recovered(t, t.next); var t3 := Leased(t2, p, at, FilesOf(e));
            && t2.next == t.next + 1 && PutLock !in t2.dirs && t2.entries == t.entries && p in t2.tmp && t2.tmp[p] == FilesOf(e)
            && t3.entries == t.entries && LockIs(t3, t.next + 1) && PutLock in t3.dirs && t.next + 1 in t3.dirs[PutLock].staged
            && forall place :: place != PutLock ==> (place in t3.dirs <==> place in t.dirs)
  {
  }

  lemma PublishOver(c: Config, t: Tree, p: Pid, e: Entry, at: int) returns (path: Path)
    requires e.id !in t.entries && |t.entries| < c.maxItems && p in t.tmp && t.tmp[p] == FilesOf(e)
    requires PutLock in t.dirs && t.dirs[PutLock].owner.acquiredAt + c.leaseDuration <= at
    requires Recovery(t.next) !in t.dirs && Release(t.next + 1) !in t.dirs
    ensures Leads(c, p, path, Effect(t, Acquire(Put(e), 0, at)), Effect(Replaced(t, p, e, at), Done(Stored(e)))) && |path.xs| > 0
  {
    hide Leads, StepEffect, RemoveDir, Recovered, Leased, Publish, LockIs;
    LeaseFacts(t, p, e, at);
    var job, n, t2 := Put(e), t.next, Recovered(t, t.next);
    var t3 := Leased(t2, p, at, FilesOf(e));
    var e1, e2 := Effect(t, Acquire(job, 0, at)), Effect(t2, Acquire(job, 1, at));
    var e3, to := Effect(t3, Commit(job, n + 1)), Effect(Replaced(t, p, e, at), Done(Stored(e)));
    path := RecoverStale(c, t, p, job, 0, at);
    var b := LeaseAndCheck(c, t2, p, e, 1, at);
    path := Joined(c, p, path, b, e1, e2, e3);
    b := CommitAndRelease(c, t3, p, e, n + 1);
    path := Joined(c, p, path, b, e1, e3, to);
  }

  /**
   A Put of a new digest into a store with room removes an expired lease from the lock, publishes exactly its
   entry under its own, and leaves the lock free.
   */
  lemma SoloRecover(c: Config, s: State, p: Pid, e: Entry, at: int) returns (acts: Schedule, s': State)
    requires Free(PcOf(s, p)) && e.id !in s.tree.entries && |s.tree.entries| < c.maxItems
    requires PutLock in s.tree.dirs && s.tree.dirs[PutLock].owner.acquiredAt + c.leaseDuration <= at
    requires Recovery(s.tree.next) !in s.tree.dirs && Release(s.tree.next + 1) !in s.tree.dirs
    ensures Run(c, s, acts) == Some(s') && PcOf(s', p) == Done(Stored(e))
    ensures s'.tree.entries == s.tree.entries[e.id := Files(Some(e.id.payload), Some(e))]
    ensures s'.tree.dirs == s.tree.dirs - {PutLock} && s'.tree.tmp == s.tree.tmp - {p}
  {
    hide Run, Replaced, WithTemp, Free;
    TempFacts(s.tree, p, e);
    var path, to := RecoverPath(c, s, p, e, at);
    ReplacedFacts(s.tree, p, e, at);
    acts := Follow(c, s, p, path, to);
    s' := Goto(s, to, p);
  }

  lemma RecoverPath(c: Config, s: State, p: Pid, e: Entry, at: int) returns (path: Path, to: Effect)
    requires Free(PcOf(s, p)) && e.id !in s.tree.entries && |s.tree.entries| < c.maxItems
    requires PutLock in s.tree.dirs && s.tree.dirs[PutLock].owner.acquiredAt + c.leaseDuration <= at
    requires Recovery(s.tree.next) !in s.tree.dirs && Release(s.tree.next + 1) !in s.tree.dirs
    ensures to == Effect(Replaced(WithTemp(s.tree, p, e), p, e, at), Done(Stored(e)))
    ensures Leads(c, p, path, Here(s, p), to) && |path.xs| > 0
  {
    hide Leads, StepEffect, Replaced, WithTemp, Free;
    TempFacts(s.tree, p, e);
    var t1 := WithTemp(s.tree, p, e);
    to := Effect(Replaced(t1, p, e, at), Done(Stored(e)));
    var a := Prepare(c, s.tree, p, PcOf(s, p), e, at);
    var b := PublishOver(c, t1, p, e, at);
    path := Joined(c, p, a, b, Here(s, p), Effect(t1, Acquire(Put(e), 0, at)), to);
  }

  lemma TempFacts(t: Tree, p: Pid, e: Entry)
    ensures var t1 := WithTemp(t, p, e);
            t1.dirs == t.dirs && t1.entries == t.entries && t1.next == t.next && p in t1.tmp && t1.tmp[p] == FilesOf(e)
  {
  }

  lemma ReplacedFacts(t: Tree, p: Pid, e: Entry, at: int)
    requires PutLock in t.dirs && e.id !in t.entries
    ensures var t' := Replaced(WithTemp(t, p, e), p, e, at);
            t'.entries == t.entries[e.id := Files(Some(e.id.payload), Some(e))] && t'.dirs == t.dirs - {PutLock} && t'.tmp == t.tmp - {p}
  {
    assert Replaced(WithTemp(t, p, e), p, e, at).dirs == t.dirs - {PutLock};
    assert t.tmp[p := FilesOf(e)] - {p} == t.tmp - {p};
  }

  // Mistaking one lease for another.

  /**
   A caller that renames away another lease than the one it had inspected puts it back when nobody comes in
   between, and fails: every lease is where it was.
   */
  lemma SoloMistakenRecovery(c: Config, s: State, p: Pid, e: Entry, k: nat, at: int, n: Nonce, seen: Owner)
    returns (acts: Schedule, s': State)
    requires PcOf(s, p) == Steal(Put(e), k, at, n, seen) && PutLock in s.tree.dirs && Recovery(n) !in s.tree.dirs
    requires s.tree.dirs[PutLock].owner.nonce != seen.nonce || at < s.tree.dirs[PutLock].owner.acquiredAt + c.leaseDuration
    ensures Run(c, s, acts) == Some(s') && PcOf(s', p) == Done(Failed)
    ensures s'.tree.entries == s.tree.entries && s'.tree.dirs == s.tree.dirs && s'.tree.tmp == s.tree.tmp - {p}
  {
    hide Leads, StepEffect;
    var job, t := Put(e), s.tree;
    var t1 := MoveLock(t, Recovery(n), seen.nonce);
    var t2 := Move(t1, Recovery(n), PutLock);
    var from, e1, e2, e3 := Here(s, p), Effect(t1, Reread(job, k, at, n, seen)), Effect(t1, Restore(job, n)),
                            Effect(t2, AcquireFailed(job));
    var to := Effect(t2.(tmp := t2.tmp - {p}), Done(Failed));
    MovedBack(t, Recovery(n), seen.nonce);
    var path := Stay(c, p, from);
    path := ByAcquire(c, p, path, from, from, e1);
    path := ByAcquire(c, p, path, from, e1, e2);
    path := ByAcquire(c, p, path, from, e2, e3);
    var d := GiveUp(c, t2, p, e);
    path := Joined(c, p, path, d, from, e3, to);
    acts := Follow(c, s, p, path, to);
    s' := Goto(s, to, p);
  }

  lemma MovedBack(t: Tree, place: Place, expected: Nonce)
    requires PutLock in t.dirs && place !in t.dirs && place != PutLock
    ensures var t' := MoveLock(t, place, expected);
            place in t'.dirs && PutLock !in t'.dirs && t'.dirs[place] == t.dirs[PutLock] && Move(t', place, PutLock).dirs == t.dirs
            && t'.entries == t.entries && t'.tmp == t.tmp
  {
  }

  /** The same of a release: a lease that is not its own goes back to the lock, and the call fails. */
  lemma SoloMistakenRelease(c: Config, s: State, p: Pid, job: Job, n: Nonce, out: Outcome) returns (acts: Schedule, s': State)
    requires PcOf(s, p) == RelRename(job, n, out, NoLeftover) && PutLock in s.tree.dirs && Release(n) !in s.tree.dirs
    requires s.tree.dirs[PutLock].owner.nonce != n
    ensures Run(c, s, acts) == Some(s') && PcOf(s', p) == Done(Failed)
    ensures s'.tree.entries == s.tree.entries && s'.tree.dirs == s.tree.dirs && s'.tree.tmp == s.tree.tmp
  {
    hide Leads, StepEffect;
    var t, left := s.tree, NoLeftover;
    var t1 := MoveLock(t, Release(n), n);
    var t2 := Move(t1, Release(n), PutLock);
    var from, e1, e2 := Here(s, p), Effect(t1, RelReread(job, n, out, left)), Effect(t1, RelProbe(job, n, left));
    var e3, e4, to := Effect(t1, RelRestore(job, n, left)), Effect(t2, Cleanup(job, n, Failed, left)), Effect(t2, Done(Failed));
    MovedBack(t, Release(n), n);
    var path := Stay(c, p, from);
    path := ByRelease(c, p, path, from, from, e1);
    path := ByRelease(c, p, path, from, e1, e2);
    path := ByRelease(c, p, path, from, e2, e3);
    path := ByRelease(c, p, path, from, e3, e4);
    path := ByRelease(c, p, path, from, e4, to);
    acts := Follow(c, s, p, path, to);
    s' := Goto(s, to, p);
  }

  /** A lease that is gone by the time it was to be recovered is no obstacle: the next attempt goes ahead. */
  lemma SoloGone(c: Config, s: State, p: Pid, e: Entry, k: nat, at: int, n: Nonce, seen: Owner) returns (acts: Schedule, s': State)
    requires PcOf(s, p) == Steal(Put(e), k, at, n, seen) && k < 3 && PutLock !in s.tree.dirs && Release(s.tree.next) !in s.tree.dirs
    requires p in s.tree.tmp && s.tree.tmp[p] == FilesOf(e) && e.id !in s.tree.entries && |s.tree.entries| < c.maxItems
    ensures Run(c, s, acts) == Some(s') && PcOf(s', p) == Done(Stored(e))
    ensures s'.tree.entries == s.tree.entries[e.id := Files(Some(e.id.payload), Some(e))]
    ensures s'.tree.dirs == s.tree.dirs && s'.tree.tmp == s.tree.tmp - {p}
  {
    hide Leads, Run, Leased, Publish, RemoveDir;
    NextFacts(s.tree, p, e, at);
    var path, to := GonePath(c, s, p, e, k, at, n, seen);
    acts := Follow(c, s, p, path, to);
    s' := Goto(s, to, p);
  }

  lemma Retries(c: Config, t: Tree, job: Job, k: nat, at: int, n: Nonce, seen: Owner)
    requires PutLock !in t.dirs
    ensures AcquireStep(c, t, Steal(job, k, at, n, seen)) == Some(Effect(t, Acquire(job, k + 1, at)))
  {
  }

  lemma GonePath(c: Config, s: State, p: Pid, e: Entry, k: nat, at: int, n: Nonce, seen: Owner) returns (path: Path, to: Effect)
    requires PcOf(s, p) == Steal(Put(e), k, at, n, seen) && k < 3 && PutLock !in s.tree.dirs && Release(s.tree.next) !in s.tree.dirs
    requires p in s.tree.tmp && s.tree.tmp[p] == FilesOf(e) && e.id !in s.tree.entries && |s.tree.entries| < c.maxItems
    ensures var t' := Leased(s.tree, p, at, FilesOf(e));
            && PutLock in t'.dirs && s.tree.next in t'.dirs[PutLock].staged
            && to == Effect(RemoveDir(Publish(t', s.tree.next, e.id), PutLock), Done(Stored(e)))
    ensures Leads(c, p, path, Here(s, p), to) && |path.xs| > 0
  {
    hide Leads, StepEffect, AcquireStep, Leased, Publish, RemoveDir, LockIs;
    Retries(c, s.tree, Put(e), k, at, n, seen);
    var t, t' := s.tree, Leased(s.tree, p, at, FilesOf(e));
    var from, mid, e1 := Here(s, p), Effect(t, Acquire(Put(e), k + 1, at)), Effect(t', Commit(Put(e), t.next));
    NextFacts(t, p, e, at);
    to := Effect(RemoveDir(Publish(t', t.next, e.id), PutLock), Done(Stored(e)));
    path := Stay(c, p, from);
    path := ByAcquire(c, p, path, from, from, mid);
    var b := LeaseAndCheck(c, t, p, e, k + 1, at);
    path := Joined(c, p, path, b, from, mid, e1);
    b := CommitAndRelease(c, t', p, e, t.next);
    path := Joined(c, p, path, b, from, e1, to);
  }

  lemma NextFacts(t: Tree, p: Pid, e: Entry, at: int)
    requires PutLock !in t.dirs
    ensures var t' := Leased(t, p, at, FilesOf(e));
            && LockIs(t', t.next) && PutLock in t'.dirs && t.next in t'.dirs[PutLock].staged && t'.entries == t.entries
            && (forall place :: place != PutLock ==> (place in t'.dirs <==> place in t.dirs))
            && var after := RemoveDir(Publish(t', t.next, e.id), PutLock);
               after.entries == t.entries[e.id := Files(Some(e.id.payload), Some(e))] && after.dirs == t.dirs && after.tmp == t.tmp - {p}
  {
    assert RemoveDir(Publish(Leased(t, p, at, FilesOf(e)), t.next, e.id), PutLock).dirs == t.dirs;
  }

  /** A Put that staged its entry into somebody else's lease takes it out again and fails. */
  lemma SoloMistakenStage(c: Config, s: State, p: Pid, e: Entry, n: Nonce) returns (acts: Schedule, s': State)
    requires PcOf(s, p) == AssertOwned(Put(e), n) && PutLock in s.tree.dirs && s.tree.dirs[PutLock].owner.nonce != n
    ensures Run(c, s, acts) == Some(s') && PcOf(s', p) == Done(Failed)
    ensures s'.tree.entries == s.tree.entries && s'.tree.dirs.Keys == s.tree.dirs.Keys && s'.tree.tmp == s.tree.tmp
    ensures forall place <- s.tree.dirs ::
              && s'.tree.dirs[place].owner == s.tree.dirs[place].owner
              && s'.tree.dirs[place].staged == if place == PutLock then s.tree.dirs[place].staged - {n} else s.tree.dirs[place].staged
  {
    hide Leads, StepEffect;
    var t, job := s.tree, Put(e);
    var from, e1, e2 := Here(s, p), Effect(t, RelInspect(job, n, Failed, StagedCopy)), Effect(t, Cleanup(job, n, Failed, StagedCopy));
    var to := Effect(Unstage(t, n), Done(Failed));
    var path := Stay(c, p, from);
    path := ByPut(c, p, path, from, from, e1);
    path := ByRelease(c, p, path, from, e1, e2);
    path := ByRelease(c, p, path, from, e2, to);
    acts := Follow(c, s, p, path, to);
    s' := Goto(s, to, p);
  }
}
