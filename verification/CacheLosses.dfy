/**
 What a DeletePrivate that has lost its lease can do: the check of its lease and the removal are two
 operations, and the two ways of losing a lease in between each lead to the removal of another entry.
 */
module CacheLosses {
  import opened Wrappers
  import opened CacheModel
  import opened CacheInvariant
  import opened CacheRuns
  import opened CacheLimit
  import opened CachePrune
  import opened CacheTheorems

  /** A DeletePrivate runs up to its removal, past every check. */
  lemma StartDelete(c: Config, s: State, p: Pid, e: Entry) returns (s': State)
    requires Reachable(c, s) && Free(PcOf(s, p)) && PutLock !in s.tree.dirs
    requires Load(s.tree, e.id) == Some(e) && e.kind == PrivateRaw
    ensures Reachable(c, s') && Others(s, s', p) && s'.tree == CreateLock(s.tree, 0)
    ensures PcOf(s', p) == DelRemove(DeletePrivate(e.id), s.tree.next, e)
  {
    var path := UpToRemoval(c, s.tree, p, PcOf(s, p), e, 0);
    s' := Advance(c, s, p, path, Effect(CreateLock(s.tree, 0), DelRemove(DeletePrivate(e.id), s.tree.next, e)));
  }

  /** A Prune removes an expired entry; it needs no lease. */
  lemma PruneOne(c: Config, s: State, p: Pid, e: Entry) returns (s': State)
    requires Reachable(c, s) && Free(PcOf(s, p)) && Load(s.tree, e.id) == Some(e) && EntryExpired(e, 0)
    requires |s.tree.entries| <= c.maxItems
    ensures Reachable(c, s') && Others(s, s', p) && s'.tree == RemoveEntry(s.tree, e.id)
  {
    hide Reachable, StepEffect;
    var acts, marked := ScanAll(c, s, p, 0);
    ReachesOn(c, s, acts);
    var s1 := Run(c, s, acts).value;
    SweepGoes(c, s.tree, p, 0, marked.Keys, marked, e.id);
    var to := Effect(RemoveEntry(s.tree, e.id), Sweeping(0, marked.Keys - {e.id}, marked));
    s' := Advance(c, s1, p, Path([Here(s1, p), to], [Sweep(e.id)]), to);
  }

  /** A Put finds the lease at the lock expired and removes it. */
  lemma ClearLock(c: Config, s: State, e: Entry) returns (s': State)
    requires Reachable(c, s) && Free(PcOf(s, 0)) && PutLock in s.tree.dirs && s.tree.dirs[PutLock].owner.acquiredAt == 0
    requires e.id !in s.tree.entries && s.tree.dirs.Keys == {PutLock}
    ensures Reachable(c, s') && Others(s, s', 0) && PcOf(s', 0) == Acquire(Put(e), 1, c.leaseDuration)
    ensures s'.tree.entries == s.tree.entries && s'.tree.dirs == map[] && s'.tree.h.displaced == s.tree.h.displaced
    ensures 0 in s'.tree.tmp && s'.tree.tmp[0] == FilesOf(e)
  {
    hide Reachable, Leads;
    var at, owner, t0 := c.leaseDuration, s.tree.dirs[PutLock].owner, WithTemp(s.tree, 0, e);
    var prepare := Prepare(c, s.tree, 0, PcOf(s, 0), e, at);
    var s0 := Advance(c, s, 0, prepare, Effect(t0, Acquire(Put(e), 0, at)));
    var judge := JudgeExpired(c, t0, 0, e, at);
    var t1 := t0.(next := t0.next + 1);
    var s1 := Advance(c, s0, 0, judge, Effect(t1, Steal(Put(e), 0, at, t0.next, owner)));
    var recover := RecoverStale(c, t1, 0, e, at, t0.next, owner);
    var t2 := t1.(dirs := t1.dirs - {PutLock}, h := t1.h.(recovered := t1.h.recovered + {owner.nonce}));
    s' := Advance(c, s1, 0, recover, Effect(t2, Acquire(Put(e), 1, at)));
    assert t1.dirs - {PutLock} == map[];
  }

  /** And publishes its entry under its own lease. */
  lemma PutOver(c: Config, s: State, e: Entry) returns (s': State)
    requires Reachable(c, s) && Free(PcOf(s, 0)) && PutLock in s.tree.dirs && s.tree.dirs[PutLock].owner.acquiredAt == 0
    requires e.id !in s.tree.entries && |s.tree.entries| < c.maxItems && s.tree.dirs.Keys == {PutLock}
    ensures Reachable(c, s') && Others(s, s', 0) && s'.tree.entries == s.tree.entries[e.id := FilesOf(e)]
    ensures s'.tree.dirs == map[] && s'.tree.h.displaced == s.tree.h.displaced
  {
    hide Reachable, Leads;
    var at := c.leaseDuration;
    var s2 := ClearLock(c, s, e);
    var lease := LeaseAndCheck(c, s2.tree, 0, e, 1, at);
    var t3 := Leased(s2.tree, 0, at, FilesOf(e));
    var s3 := Advance(c, s2, 0, lease, Effect(t3, Commit(Put(e), s2.tree.next)));
    var commit := CommitAndRelease(c, t3, 0, e, s2.tree.next);
    s' := Advance(c, s3, 0, commit, Effect(RemoveDir(Publish(t3, s2.tree.next, e.id), PutLock), Done(Stored(e))));
    assert s'.tree.dirs == map[];
  }

  /** A private entry that expires at time 0, and another entry for the same payload. */
  function Private(n: nat): Entry { Sample(n).(expiresAt := Some(0)) }
  function Public(n: nat): Entry { Sample(n).(kind := Profile) }

  /** Caller p is about to remove the entry it checked, and what is stored there now is not private. */
  ghost predicate Misled(c: Config, s: State, p: Pid, n: nat) {
    && Reachable(c, s) && PcOf(s, p).DelRemove? && PcOf(s, p).job == DeletePrivate(Public(n).id)
    && Load(s.tree, Public(n).id) == Some(Public(n))
  }

  /** The removal takes place whatever is stored. */
  lemma MisledRemoves(c: Config, s: State, p: Pid, n: nat)
    requires Misled(c, s, p, n)
    ensures Step(c, s, p, Go).Some? && Public(n).id in s.tree.entries
    ensures Public(n).id !in Step(c, s, p, Go).value.tree.entries && Public(n).kind != PrivateRaw
  {
    DeleteGoes(c, s.tree, p, PcOf(s, p));
  }

  /** Caller 2 has checked its lease and is about to remove a private entry; thief 0 believes in an older lease. */
  ghost predicate Underway(c: Config, s: State, n: nat) {
    && Reachable(c, s) && c.maxItems == n + 1 && |s.tree.entries| == n + 1
    && Load(s.tree, Private(n).id) == Some(Private(n)) && Free(PcOf(s, 0)) && Free(PcOf(s, 4)) && s.tree.h.displaced == {}
    && s.tree.dirs.Keys == {PutLock} && s.tree.dirs[PutLock].owner.acquiredAt == 0
    && PcOf(s, 2) == DelRemove(DeletePrivate(Private(n).id), s.tree.dirs[PutLock].owner.nonce, Private(n))
    && PcOf(s, 3).Steal? && PcOf(s, 3).job.Put? && PcOf(s, 3).k == 0
    && PcOf(s, 3).seen.nonce != s.tree.dirs[PutLock].owner.nonce
  }

  lemma Deleting(c: Config, n: nat) returns (s: State)
    requires c.maxItems == n + 1
    ensures Underway(c, s, n)
  {
    hide Reachable, CreateLock;
    var s0, seen := SetUp(c, 2);
    FirstTwo(s0, seen);
    assert |Private(n).id.payload| == n;
    var s1 := PutInTheGap(c, s0, Private(n));
    s := StartDelete(c, s1, 2, Private(n));
    Locked(s1.tree, 0);
  }

  lemma FirstTwo(s: State, seen: Owner)
    requires Poised(s, 2, seen) && WritersFree(s, 2)
    ensures Free(PcOf(s, 0)) && Free(PcOf(s, 2)) && Free(PcOf(s, 4)) && seen.nonce < s.tree.next
    ensures PcOf(s, 3).Steal? && PcOf(s, 3).seen == seen && PcOf(s, 3).job.Put? && PcOf(s, 3).k == 0
  {
    assert Writer(0) == 2 && Writer(1) == 4 && Thief(0) == 3;
  }

  lemma Locked(t: Tree, at: int)
    requires t.dirs == map[]
    ensures CreateLock(t, at).dirs.Keys == {PutLock} && CreateLock(t, at).dirs[PutLock].owner == Owner(t.next, at)
    ensures CreateLock(t, at).entries == t.entries && CreateLock(t, at).h.displaced == t.h.displaced
  {
  }

  /** The private entry is pruned and its place in the store is free. */
  lemma Pruned(c: Config, s: State, n: nat) returns (s': State)
    requires Reachable(c, s) && Free(PcOf(s, 4)) && Load(s.tree, Private(n).id) == Some(Private(n))
    requires |s.tree.entries| == c.maxItems
    ensures Reachable(c, s') && Others(s, s', 4) && s'.tree == RemoveEntry(s.tree, Private(n).id)
    ensures Public(n).id !in s'.tree.entries && |s'.tree.entries| < c.maxItems
  {
    hide Reachable;
    s' := PruneOne(c, s, 4, Private(n));
    var id := Private(n).id;
    assert s'.tree.entries.Keys == s.tree.entries.Keys - {id} && id in s.tree.entries.Keys;
    assert |s'.tree.entries| == |s'.tree.entries.Keys| && |s.tree.entries| == |s.tree.entries.Keys|;
  }

  /**
   The lease expires between the check and the removal: the entry is pruned, another caller recovers the lease
   and publishes an entry that is not private for the same payload, and the removal takes that one.
   */
  lemma ExpiredLeaseDeletes(c: Config) returns (s: State, p: Pid, n: nat)
    requires c.maxItems > 0
    ensures Misled(c, s, p, n) && !LockIs(s.tree, PcOf(s, p).n) && PcOf(s, p).n !in s.tree.h.displaced
  {
    hide Reachable;
    n, p := c.maxItems - 1, 2;
    var s0 := Deleting(c, n);
    var s1 := Pruned(c, s0, n);
    s := PutOver(c, s1, Public(n));
    assert Load(s.tree, Public(n).id) == Some(Public(n));
  }

  /**
   The lease is displaced between the check and the removal by a caller that believes in an older one, and put
   back after the same exchange of entries: at the removal it is at the lock again.
   */
  lemma DisplacedLeaseDeletes(c: Config) returns (s: State, p: Pid, n: nat)
    requires c.maxItems > 0
    ensures Misled(c, s, p, n) && LockIs(s.tree, PcOf(s, p).n) && PcOf(s, p).n in s.tree.h.displaced
  {
    hide Reachable, Run, Step;
    n, p := c.maxItems - 1, 2;
    var s0 := Deleting(c, n);
    ThiefReady(c, s0, 3);
    var s1 := Interfere(c, s0, 3);
    var s2 := Pruned(c, s1, n);
    var s3 := PutInTheGap(c, s2, Public(n));
    s := MakeGood(c, s3, 3);
    assert Load(s.tree, Public(n).id) == Some(Public(n));
  }

  /**
   A displaced lease can leave a store that no Prune helps: it holds one entry more than its limit, so Prune
   refuses to read it, whatever has expired.
   */
  lemma OverfullStays(c: Config) returns (s: State)
    requires c.maxItems > 0
    ensures Reachable(c, s) && |s.tree.entries| == c.maxItems + 1
    ensures forall p: Pid, at: int, acts: Schedule | Free(PcOf(s, p)) && Alone(p, at, acts) && Run(c, s, acts).Some? ::
              var s' := Run(c, s, acts).value;
              PcOf(s', p).Done? ==> PcOf(s', p).out == Failed && s'.tree == s.tree
  {
    hide Reachable;
    s := FlatLimitFails(c);
    forall p: Pid, at: int, acts: Schedule | Free(PcOf(s, p)) && Alone(p, at, acts) && Run(c, s, acts).Some?
      ensures var s' := Run(c, s, acts).value;
              PcOf(s', p).Done? ==> PcOf(s', p).out == Failed && s'.tree == s.tree
    {
      UndisturbedPrune(c, s, p, at, acts);
    }
  }
}
