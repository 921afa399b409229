/**
 The inductive invariant of the put-lease protocol and its preservation by every step.
 */
module CacheInvariant {
  import opened Wrappers
  import opened CacheModel

  /** The nonce a caller currently answers for: its acquisition attempt or its lease. */
  function NonceOf(pc: Pc): Option<Nonce> {
    match pc
    case Inspect(_, _, _, n) => Some(n)
    case Steal(_, _, _, n, _) => Some(n)
    case Reread(_, _, _, n, _) => Some(n)
    case Restore(_, n) => Some(n)
    case Discard(_, _, _, n, _) => Some(n)
    case Reuse(_, lease, _) => lease
    case Stage(_, n) => Some(n)
    case AssertOwned(_, n) => Some(n)
    case Recheck(_, n) => Some(n)
    case Capacity(_, n) => Some(n)
    case CommitAssert(_, n) => Some(n)
    case Commit(_, n) => Some(n)
    case CommitFailed(_, n) => Some(n)
    case DelReload(_, n) => Some(n)
    case DelAssert(_, n, _) => Some(n)
    case DelRemove(_, n, _) => Some(n)
    case RelInspect(_, n, _, _) => Some(n)
    case RelRename(_, n, _, _) => Some(n)
    case RelReread(_, n, _, _) => Some(n)
    case RelProbe(_, n, _) => Some(n)
    case RelRestore(_, n, _) => Some(n)
    case RelRemove(_, n, _, _) => Some(n)
    case _ => None
  }

  ghost predicate Complete(id: Digest, f: Files) {
    f.payload.Some? && f.manifest.Some? && Sha256(f.payload.value) == id && f.manifest.value.id == id
  }

  ghost predicate TreeInv(c: Config, t: Tree) {
    && (forall n <- t.h.stamp :: n < t.next)
    && (forall a <- t.dirs :: t.dirs[a].owner.nonce in t.h.stamp
                              && t.h.stamp[t.dirs[a].owner.nonce] == t.dirs[a].owner.acquiredAt)
    && (forall a <- t.dirs :: t.dirs[a].owner.nonce !in t.h.recovered)
    && (forall a <- t.dirs :: a != PutLock ==> a.attempt < t.next)
    && (forall a, m | a in t.dirs && m in t.dirs[a].staged :: m in t.h.stamp)
    && t.h.displaced <= t.h.stamp.Keys
    && t.h.recovered <= t.h.stamp.Keys && t.h.committed <= t.h.stamp.Keys
    && t.h.charged <= t.h.displaced && t.h.charged <= t.h.committed
    && |t.entries| <= c.maxItems + |t.h.charged|
    && (forall id <- t.entries :: Complete(id, t.entries[id]))
  }

  /** A lease is one directory: no nonce is found at two places. */
  ghost predicate OneHome(dirs: map<Place, Lease>) {
    forall a, b | a in dirs && b in dirs && dirs[a].owner.nonce == dirs[b].owner.nonce :: a == b
  }

  lemma OneHomeInsert(dirs: map<Place, Lease>, place: Place, lease: Lease)
    requires OneHome(dirs) && forall a <- dirs :: dirs[a].owner.nonce != lease.owner.nonce
    ensures OneHome(dirs[place := lease])
  {
  }

  lemma OneHomeMove(dirs: map<Place, Lease>, from: Place, to: Place)
    requires OneHome(dirs) && from in dirs
    ensures OneHome((dirs - {from})[to := dirs[from]])
  {
  }

  lemma OneHomeSub(dirs: map<Place, Lease>, dirs': map<Place, Lease>)
    requires OneHome(dirs) && forall a <- dirs' :: a in dirs && dirs'[a].owner == dirs[a].owner
    ensures OneHome(dirs')
  {
  }

  /** No transaction of nonce n sits in any lease directory. */
  ghost predicate Unstaged(t: Tree, n: Nonce) {
    forall a <- t.dirs :: n !in t.dirs[a].staged
  }

  /** A transaction of nonce n sits in no lease directory but its own. */
  ghost predicate Confined(t: Tree, n: Nonce) {
    forall a <- t.dirs :: n in t.dirs[a].staged ==> t.dirs[a].owner.nonce == n
  }

  ghost predicate StagedIs(t: Tree, n: Nonce, f: Files) {
    forall a <- t.dirs :: n in t.dirs[a].staged ==> t.dirs[a].staged[n] == f
  }

  ghost predicate TempReady(t: Tree, p: Pid, job: Job) {
    match job
    case Put(e) => p in t.tmp && t.tmp[p] == FilesOf(e)
    case DeletePrivate(_) => true
    case PruneAt(_) => false
  }

  /** n names a lease this caller created and has not begun to release. */
  ghost predicate Holds(t: Tree, n: Nonce) {
    n in t.h.stamp && Release(n) !in t.dirs
  }

  ghost predicate Attempt(t: Tree, p: Pid, job: Job, n: Nonce) {
    TempReady(t, p, job) && n < t.next && n !in t.h.stamp
  }

  ghost predicate SeenExpired(c: Config, t: Tree, seen: Owner, at: int) {
    seen.nonce in t.h.stamp && t.h.stamp[seen.nonce] == seen.acquiredAt && LeaseExpired(c, seen, at)
  }

  ghost predicate Undisplaced(t: Tree, n: Nonce) { n !in t.h.displaced }

  /** A transaction of nonce n found in the directory of another lease at the lock: that lease was displaced. */
  ghost predicate Strayed(t: Tree, n: Nonce) {
    PutLock in t.dirs && n in t.dirs[PutLock].staged && !LockIs(t, n) ==> t.dirs[PutLock].owner.nonce in t.h.displaced
  }

  /** The transaction of an owner that has passed its ownership check. */
  ghost predicate Fenced(t: Tree, n: Nonce) { (Undisplaced(t, n) ==> Confined(t, n)) && Strayed(t, n) }

  ghost predicate Staged(t: Tree, job: Job, n: Nonce) {
    job.Put? && Holds(t, n) && n !in t.h.committed && StagedIs(t, n, FilesOf(job.entry))
  }

  ghost predicate HasRoom(c: Config, t: Tree, n: Nonce) {
    Undisplaced(t, n) && LockIs(t, n) ==> |t.entries| < c.maxItems + |t.h.charged|
  }

  /** An undisplaced owner still at the lock sees a private entry or none. */
  ghost predicate PrivateIfOwned(t: Tree, job: Job, n: Nonce) {
    job.DeletePrivate?
    && (Undisplaced(t, n) && LockIs(t, n) && job.id in t.entries
        ==> t.entries[job.id].manifest.Some? && t.entries[job.id].manifest.value.kind == PrivateRaw)
  }

  ghost predicate MovedAside(t: Tree, place: Place, expected: Nonce) {
    place in t.dirs
    && (t.dirs[place].owner.nonce != expected ==> t.dirs[place].owner.nonce in t.h.displaced)
  }

  ghost predicate PcInv(c: Config, t: Tree, p: Pid, pc: Pc) {
    match pc
    case Idle => true
    case Done(_) => true
    case Listing(_) => true
    case Scanning(_, _, _) => true
    case Sweeping(_, todo, marked) => todo <= marked.Keys
    case Lookup(job) => job.Put?
    case MakeTemp(job) => job.Put?
    case WritePayload(job) => job.Put?
    case WriteManifest(job) => job.Put?
    case FirstLoad(job) => job.DeletePrivate?
    case Ready(job) => job.Put? && TempReady(t, p, job)
    case Acquire(job, k, _) => TempReady(t, p, job) && k <= 4
    case Inspect(job, k, _, n) => Attempt(t, p, job, n) && k < 4 && Recovery(n) !in t.dirs
    case Steal(job, k, at, n, seen) =>
      Attempt(t, p, job, n) && k < 4 && Recovery(n) !in t.dirs && SeenExpired(c, t, seen, at)
    case Reread(job, k, at, n, seen) =>
      Attempt(t, p, job, n) && k < 4 && MovedAside(t, Recovery(n), seen.nonce) && SeenExpired(c, t, seen, at)
    case Restore(job, n) =>
      Attempt(t, p, job, n) && Recovery(n) in t.dirs && t.dirs[Recovery(n)].owner.nonce in t.h.displaced
    case Discard(job, k, at, n, seen) =>
      Attempt(t, p, job, n) && k < 4 && Recovery(n) in t.dirs && t.dirs[Recovery(n)].owner == seen
      && SeenExpired(c, t, seen, at)
    case Reuse(job, lease, _) => job.Put? && (lease.Some? ==> Holds(t, lease.value))
    case Stage(job, n) =>
      job.Put? && TempReady(t, p, job) && Holds(t, n) && n !in t.h.committed && Unstaged(t, n)
    case AssertOwned(job, n) =>
      Staged(t, job, n) && (Undisplaced(t, n) && LockIs(t, n) ==> Confined(t, n))
    case Recheck(job, n) => Staged(t, job, n) && Fenced(t, n)
    case Capacity(job, n) => Staged(t, job, n) && Fenced(t, n)
    case CommitAssert(job, n) => Staged(t, job, n) && Fenced(t, n) && HasRoom(c, t, n)
    case Commit(job, n) => Staged(t, job, n) && Fenced(t, n) && HasRoom(c, t, n)
    case CommitFailed(job, n) => job.Put? && Holds(t, n)
    case DelReload(job, n) => job.DeletePrivate? && Holds(t, n)
    case DelAssert(job, n, _) => Holds(t, n) && PrivateIfOwned(t, job, n)
    case DelRemove(job, n, _) => Holds(t, n) && PrivateIfOwned(t, job, n)
    case RelInspect(_, n, _, _) => Holds(t, n)
    case RelRename(_, n, _, _) => Holds(t, n)
    case RelReread(_, n, _, _) => n in t.h.stamp && MovedAside(t, Release(n), n)
    case RelProbe(_, n, _) =>
      n in t.h.stamp && Release(n) in t.dirs && t.dirs[Release(n)].owner.nonce in t.h.displaced
    case RelRestore(_, n, _) =>
      n in t.h.stamp && Release(n) in t.dirs && t.dirs[Release(n)].owner.nonce in t.h.displaced
    case RelRemove(_, n, _, _) =>
      n in t.h.stamp && Release(n) in t.dirs && t.dirs[Release(n)].owner.nonce == n
    case Cleanup(_, _, _, _) => true
  }

  ghost predicate DistinctNonces(procs: map<Pid, Pc>) {
    forall p, q | p in procs && q in procs && p != q ::
      NonceOf(procs[p]).Some? ==> NonceOf(procs[p]) != NonceOf(procs[q])
  }

  ghost predicate Inv(c: Config, s: State) {
    TreeInv(c, s.tree) && OneHome(s.tree.dirs) && DistinctNonces(s.procs) && forall p <- s.procs :: PcInv(c, s.tree, p, s.procs[p])
  }

  /** The lease directories and transactions that matter to a caller answering for nonce m. */
  ghost predicate LeasesFor(t: Tree, t': Tree, m: Nonce) {
    && (Recovery(m) in t'.dirs <==> Recovery(m) in t.dirs)
    && (Release(m) in t'.dirs <==> Release(m) in t.dirs)
    && (Recovery(m) in t.dirs ==> t'.dirs[Recovery(m)] == t.dirs[Recovery(m)])
    && (Release(m) in t.dirs ==> t'.dirs[Release(m)] == t.dirs[Release(m)])
    && (m in t'.h.stamp <==> m in t.h.stamp)
    && (m in t'.h.committed ==> m in t.h.committed)
    && (Unstaged(t, m) ==> Unstaged(t', m))
    && (Confined(t, m) ==> Confined(t', m)) && (Strayed(t, m) ==> Strayed(t', m))
    && (LockIs(t', m) && Undisplaced(t', m) ==> LockIs(t, m))
    && (forall f :: StagedIs(t, m, f) ==> StagedIs(t', m, f))
  }

  /** What a step acting for another nonce leaves alone for a caller answering for nonce m. */
  ghost predicate FrameFor(c: Config, t: Tree, t': Tree, m: Nonce) {
    && LeasesFor(t, t', m)
    // room for an undisplaced owner at the lock is not used up by anybody else
    && (HasRoom(c, t, m) ==> HasRoom(c, t', m))
    && (forall job :: PrivateIfOwned(t, job, m) ==> PrivateIfOwned(t', job, m))
  }

  ghost predicate Frame(c: Config, t: Tree, t': Tree, p: Pid, n: Option<Nonce>) {
    && t.next <= t'.next
    && (forall q <- t.tmp :: q != p ==> q in t'.tmp && t'.tmp[q] == t.tmp[q])
    && (forall m <- t.h.stamp :: m in t'.h.stamp && t'.h.stamp[m] == t.h.stamp[m])
    && t.h.displaced <= t'.h.displaced
    && forall m: Nonce :: m < t.next && Some(m) != n ==> FrameFor(c, t, t', m)
  }

  lemma FrameKeeps(c: Config, t: Tree, t': Tree, p: Pid, n: Option<Nonce>, q: Pid, pc: Pc)
    requires TreeInv(c, t) && PcInv(c, t, q, pc) && Frame(c, t, t', p, n) && q != p
    requires NonceOf(pc).Some? ==> NonceOf(pc) != n && NonceOf(pc).value < t.next
    ensures PcInv(c, t', q, pc)
  {
    if NonceOf(pc).Some? {
      assert FrameFor(c, t, t', NonceOf(pc).value);
    }
  }

  /** The tree facts hold and nobody but the caller acting for nonce n need notice the change. */
  ghost predicate Kept(c: Config, t: Tree, t': Tree, p: Pid, n: Option<Nonce>) {
    TreeInv(c, t') && OneHome(t'.dirs) && Frame(c, t, t', p, n)
  }

  // The moves of the directory tree: each keeps the tree facts and leaves the other callers alone.

  lemma FrameFromFor(c: Config, t: Tree, t': Tree, p: Pid, n: Option<Nonce>)
    requires t.next <= t'.next && t'.tmp - {p} == t.tmp - {p}
    requires t.h.stamp.Keys <= t'.h.stamp.Keys && forall m <- t.h.stamp :: t'.h.stamp[m] == t.h.stamp[m]
    requires t.h.displaced <= t'.h.displaced
    requires forall m: Nonce :: m < t.next && Some(m) != n ==> FrameFor(c, t, t', m)
    ensures Frame(c, t, t', p, n)
  {
    forall q | q in t.tmp && q != p ensures q in t'.tmp && t'.tmp[q] == t.tmp[q] {
      assert q in t.tmp - {p};
    }
  }

  lemma CreateLockTree(c: Config, t: Tree, at: int)
    requires TreeInv(c, t) && PutLock !in t.dirs
    ensures TreeInv(c, CreateLock(t, at))
  {
  }

  lemma CreateLockFor(c: Config, t: Tree, at: int, m: Nonce)
    requires TreeInv(c, t) && PutLock !in t.dirs && m < t.next
    ensures FrameFor(c, t, CreateLock(t, at), m)
  {
  }

  lemma MoveLockTree(c: Config, t: Tree, to: Place, expected: Nonce)
    requires TreeInv(c, t) && PutLock in t.dirs && to != PutLock && to !in t.dirs && to.attempt < t.next
    ensures TreeInv(c, MoveLock(t, to, expected))
  {
  }

  lemma MoveLockFor(c: Config, t: Tree, to: Place, expected: Nonce, m: Nonce)
    requires TreeInv(c, t) && PutLock in t.dirs && to != PutLock && to !in t.dirs && m != to.attempt
    ensures FrameFor(c, t, MoveLock(t, to, expected), m)
  {
  }

  lemma PutBackTree(c: Config, t: Tree, from: Place)
    requires TreeInv(c, t) && from != PutLock && from in t.dirs && PutLock !in t.dirs
    ensures TreeInv(c, Move(t, from, PutLock))
  {
  }

  lemma PutBackFor(c: Config, t: Tree, from: Place, m: Nonce)
    requires TreeInv(c, t) && from != PutLock && from in t.dirs && PutLock !in t.dirs
    requires t.dirs[from].owner.nonce in t.h.displaced && m != from.attempt
    ensures FrameFor(c, t, Move(t, from, PutLock), m)
  {
    hide TreeInv, LeasesFor;
    PutBackLeases(t, from, m);
  }

  lemma PutBackLeases(t: Tree, from: Place, m: Nonce)
    requires from != PutLock && from in t.dirs && PutLock !in t.dirs
    requires t.dirs[from].owner.nonce in t.h.displaced && m != from.attempt
    ensures LeasesFor(t, Move(t, from, PutLock), m)
  {
  }

  lemma RemoveDirTree(c: Config, t: Tree, place: Place)
    requires TreeInv(c, t) && place != PutLock && place in t.dirs
    ensures TreeInv(c, RemoveDir(t, place))
  {
  }

  lemma RemoveStaleTree(c: Config, t: Tree, place: Place)
    requires TreeInv(c, t) && OneHome(t.dirs) && place != PutLock && place in t.dirs
    ensures TreeInv(c, RemoveStale(t, place))
  {
    var t' := RemoveStale(t, place);
    forall a | a in t'.dirs ensures t'.dirs[a].owner.nonce !in t'.h.recovered {
      assert t.dirs[a].owner.nonce == t.dirs[place].owner.nonce ==> a == place;
    }
  }

  lemma RemoveDirFor(c: Config, t: Tree, place: Place, m: Nonce)
    requires TreeInv(c, t) && place != PutLock && place in t.dirs && m != place.attempt
    ensures FrameFor(c, t, RemoveDir(t, place), m)
  {
  }

  lemma RemoveStaleFor(c: Config, t: Tree, place: Place, m: Nonce)
    requires TreeInv(c, t) && place != PutLock && place in t.dirs && m != place.attempt
    ensures FrameFor(c, t, RemoveStale(t, place), m)
  {
  }

  lemma StageInTree(c: Config, t: Tree, p: Pid, n: Nonce)
    requires TreeInv(c, t) && PutLock in t.dirs && p in t.tmp && n in t.h.stamp
    ensures TreeInv(c, StageIn(t, p, n))
  {
  }

  lemma StageInFor(c: Config, t: Tree, p: Pid, n: Nonce, m: Nonce)
    requires TreeInv(c, t) && PutLock in t.dirs && p in t.tmp && m != n
    ensures FrameFor(c, t, StageIn(t, p, n), m)
  {
  }

  lemma UnstageTree(c: Config, t: Tree, n: Nonce)
    requires TreeInv(c, t)
    ensures TreeInv(c, Unstage(t, n))
  {
  }

  lemma UnstageFor(c: Config, t: Tree, n: Nonce, m: Nonce)
    requires TreeInv(c, t)
    ensures FrameFor(c, t, Unstage(t, n), m)
  {
    hide TreeInv, LeasesFor;
    UnstageLeases(t, n, m);
  }

  lemma UnstageLeases(t: Tree, n: Nonce, m: Nonce)
    ensures LeasesFor(t, Unstage(t, n), m)
  {
  }

  lemma PublishTree(c: Config, t: Tree, n: Nonce, e: Entry)
    requires TreeInv(c, t) && PutLock in t.dirs && n in t.dirs[PutLock].staged && e.id !in t.entries
    requires Staged(t, Put(e), n) && Fenced(t, n) && HasRoom(c, t, n)
    ensures TreeInv(c, Publish(t, n, e.id))
  {
  }

  lemma PublishFor(c: Config, t: Tree, n: Nonce, e: Entry, m: Nonce)
    requires TreeInv(c, t) && PutLock in t.dirs && n in t.dirs[PutLock].staged && e.id !in t.entries
    requires Staged(t, Put(e), n) && Fenced(t, n) && HasRoom(c, t, n) && m != n
    ensures FrameFor(c, t, Publish(t, n, e.id), m)
  {
    PublishLeases(t, n, e, m);
    PublishRoom(c, t, n, e, m);
    PublishPrivate(t, n, e, m);
  }

  lemma PublishLeases(t: Tree, n: Nonce, e: Entry, m: Nonce)
    requires PutLock in t.dirs && n in t.dirs[PutLock].staged && m != n
    ensures LeasesFor(t, Publish(t, n, e.id), m)
  {
  }

  lemma PublishRoom(c: Config, t: Tree, n: Nonce, e: Entry, m: Nonce)
    requires TreeInv(c, t) && PutLock in t.dirs && n in t.dirs[PutLock].staged && e.id !in t.entries
    requires Holds(t, n) && n !in t.h.committed && Fenced(t, n) && m != n
    ensures HasRoom(c, t, m) ==> HasRoom(c, Publish(t, n, e.id), m)
  {
  }

  lemma PublishPrivate(t: Tree, n: Nonce, e: Entry, m: Nonce)
    requires PutLock in t.dirs && n in t.dirs[PutLock].staged && e.id !in t.entries
    requires Fenced(t, n) && m != n
    ensures forall job :: PrivateIfOwned(t, job, m) ==> PrivateIfOwned(Publish(t, n, e.id), job, m)
  {
  }

  lemma RemoveEntryTree(c: Config, t: Tree, id: Digest)
    requires TreeInv(c, t)
    ensures TreeInv(c, RemoveEntry(t, id))
  {
  }

  lemma RemoveEntryFor(c: Config, t: Tree, id: Digest, m: Nonce)
    requires TreeInv(c, t)
    ensures FrameFor(c, t, RemoveEntry(t, id), m)
  {
  }

  lemma TempFor(c: Config, t: Tree, t': Tree, m: Nonce)
    requires TreeInv(c, t) && t' == t.(tmp := t'.tmp, next := t'.next)
    ensures FrameFor(c, t, t', m)
  {
  }

  lemma CreateLockKeeps(c: Config, t: Tree, at: int, p: Pid)
    requires TreeInv(c, t) && OneHome(t.dirs)
    requires PutLock !in t.dirs
    ensures Kept(c, t, CreateLock(t, at), p, Some(t.next))
  {
    CreateLockTree(c, t, at);
    OneHomeInsert(t.dirs, PutLock, Lease(Owner(t.next, at), map[]));
    forall m: Nonce | m < t.next && Some(m) != Some(t.next) ensures FrameFor(c, t, CreateLock(t, at), m) {
      CreateLockFor(c, t, at, m);
    }
    FrameFromFor(c, t, CreateLock(t, at), p, Some(t.next));
  }

  lemma MoveLockKeeps(c: Config, t: Tree, to: Place, expected: Nonce, p: Pid)
    requires TreeInv(c, t) && OneHome(t.dirs)
    requires PutLock in t.dirs && to != PutLock && to !in t.dirs && to.attempt < t.next
    ensures Kept(c, t, MoveLock(t, to, expected), p, Some(to.attempt))
  {
    MoveLockTree(c, t, to, expected);
    OneHomeMove(t.dirs, PutLock, to);
    forall m: Nonce | m < t.next && Some(m) != Some(to.attempt) ensures FrameFor(c, t, MoveLock(t, to, expected), m) {
      MoveLockFor(c, t, to, expected, m);
    }
    FrameFromFor(c, t, MoveLock(t, to, expected), p, Some(to.attempt));
  }

  lemma PutBackKeeps(c: Config, t: Tree, from: Place, p: Pid)
    requires TreeInv(c, t) && OneHome(t.dirs)
    requires from != PutLock && from in t.dirs && PutLock !in t.dirs
    requires t.dirs[from].owner.nonce in t.h.displaced
    ensures Kept(c, t, Move(t, from, PutLock), p, Some(from.attempt))
  {
    PutBackTree(c, t, from);
    OneHomeMove(t.dirs, from, PutLock);
    forall m: Nonce | m < t.next && Some(m) != Some(from.attempt) ensures FrameFor(c, t, Move(t, from, PutLock), m) {
      PutBackFor(c, t, from, m);
    }
    FrameFromFor(c, t, Move(t, from, PutLock), p, Some(from.attempt));
  }

  lemma RemoveDirKeeps(c: Config, t: Tree, place: Place, p: Pid)
    requires TreeInv(c, t) && OneHome(t.dirs)
    requires place != PutLock && place in t.dirs
    ensures Kept(c, t, RemoveDir(t, place), p, Some(place.attempt))
  {
    RemoveDirTree(c, t, place);
    OneHomeSub(t.dirs, RemoveDir(t, place).dirs);
    forall m: Nonce | m < t.next && Some(m) != Some(place.attempt) ensures FrameFor(c, t, RemoveDir(t, place), m) {
      RemoveDirFor(c, t, place, m);
    }
    FrameFromFor(c, t, RemoveDir(t, place), p, Some(place.attempt));
  }

  lemma RemoveStaleKeeps(c: Config, t: Tree, place: Place, p: Pid)
    requires TreeInv(c, t) && OneHome(t.dirs)
    requires place != PutLock && place in t.dirs
    ensures Kept(c, t, RemoveStale(t, place), p, Some(place.attempt))
  {
    RemoveStaleTree(c, t, place);
    OneHomeSub(t.dirs, RemoveStale(t, place).dirs);
    forall m: Nonce | m < t.next && Some(m) != Some(place.attempt) ensures FrameFor(c, t, RemoveStale(t, place), m) {
      RemoveStaleFor(c, t, place, m);
    }
    FrameFromFor(c, t, RemoveStale(t, place), p, Some(place.attempt));
  }

  lemma StageInKeeps(c: Config, t: Tree, p: Pid, n: Nonce)
    requires TreeInv(c, t) && OneHome(t.dirs)
    requires PutLock in t.dirs && p in t.tmp && n in t.h.stamp
    ensures Kept(c, t, StageIn(t, p, n), p, Some(n))
  {
    StageInTree(c, t, p, n);
    OneHomeSub(t.dirs, StageIn(t, p, n).dirs);
    forall m: Nonce | m < t.next && Some(m) != Some(n) ensures FrameFor(c, t, StageIn(t, p, n), m) {
      StageInFor(c, t, p, n, m);
    }
    FrameFromFor(c, t, StageIn(t, p, n), p, Some(n));
  }

  lemma UnstageKeeps(c: Config, t: Tree, p: Pid, n: Nonce)
    requires TreeInv(c, t) && OneHome(t.dirs)
    ensures Kept(c, t, Unstage(t, n), p, None)
  {
    UnstageTree(c, t, n);
    OneHomeSub(t.dirs, Unstage(t, n).dirs);
    forall m: Nonce | m < t.next && Some(m) != None ensures FrameFor(c, t, Unstage(t, n), m) {
      UnstageFor(c, t, n, m);
    }
    FrameFromFor(c, t, Unstage(t, n), p, None);
  }

  lemma PublishKeeps(c: Config, t: Tree, p: Pid, n: Nonce, e: Entry)
    requires TreeInv(c, t) && OneHome(t.dirs)
    requires PutLock in t.dirs && n in t.dirs[PutLock].staged && e.id !in t.entries
    requires Staged(t, Put(e), n) && Fenced(t, n) && HasRoom(c, t, n)
    ensures Kept(c, t, Publish(t, n, e.id), p, Some(n))
  {
    PublishTree(c, t, n, e);
    OneHomeSub(t.dirs, Publish(t, n, e.id).dirs);
    forall m: Nonce | m < t.next && Some(m) != Some(n) ensures FrameFor(c, t, Publish(t, n, e.id), m) {
      PublishFor(c, t, n, e, m);
    }
    FrameFromFor(c, t, Publish(t, n, e.id), p, Some(n));
  }

  lemma RemoveEntryKeeps(c: Config, t: Tree, p: Pid, id: Digest)
    requires TreeInv(c, t) && OneHome(t.dirs)
    ensures Kept(c, t, RemoveEntry(t, id), p, None)
  {
    RemoveEntryTree(c, t, id);
    forall m: Nonce | m < t.next && Some(m) != None ensures FrameFor(c, t, RemoveEntry(t, id), m) {
      RemoveEntryFor(c, t, id, m);
    }
    FrameFromFor(c, t, RemoveEntry(t, id), p, None);
  }

  lemma TempKeeps(c: Config, t: Tree, t': Tree, p: Pid, n: Option<Nonce>)
    requires TreeInv(c, t) && OneHome(t.dirs) && t' == t.(tmp := t'.tmp, next := t'.next) && t.next <= t'.next
    requires t'.tmp - {p} == t.tmp - {p}
    ensures Kept(c, t, t', p, n)
  {
    forall m: Nonce | m < t.next ensures FrameFor(c, t, t', m) {
      TempFor(c, t, t', m);
    }
    FrameFromFor(c, t, t', p, n);
  }

  /** The nonce a step acts for: the one its caller answers for, or the one the attempt draws. */
  function ActingNonce(t: Tree, pc: Pc): Option<Nonce> {
    if pc.Acquire? then Some(t.next) else NonceOf(pc)
  }

  lemma KeptWeaken(c: Config, t: Tree, t': Tree, p: Pid, n: Option<Nonce>)
    requires Kept(c, t, t', p, None)
    ensures Kept(c, t, t', p, n)
  {
  }

  lemma AcquireQuiet(c: Config, t: Tree, p: Pid, pc: Pc)
    requires TreeInv(c, t) && OneHome(t.dirs) && PcInv(c, t, p, pc) && AcquireStep(c, t, pc).Some?
    ensures Kept(c, t, AcquireStep(c, t, pc).value.tree, p, ActingNonce(t, pc))
  {
    if pc.Acquire? && pc.k < 4 && PutLock !in t.dirs {
      CreateLockKeeps(c, t, pc.at, p);
    } else if pc.Steal? && PutLock in t.dirs {
      MoveLockKeeps(c, t, Recovery(pc.n), pc.seen.nonce, p);
    } else if pc.Restore? && PutLock !in t.dirs {
      PutBackKeeps(c, t, Recovery(pc.n), p);
    } else if pc.Discard? {
      RemoveStaleKeeps(c, t, Recovery(pc.n), p);
    } else {
      TempKeeps(c, t, AcquireStep(c, t, pc).value.tree, p, ActingNonce(t, pc));
    }
  }

  lemma AttemptPc(c: Config, t: Tree, p: Pid, pc: Pc)
    requires TreeInv(c, t) && PcInv(c, t, p, pc) && pc.Acquire?
    ensures var e := AcquireStep(c, t, pc).value;
            PcInv(c, e.tree, p, e.pc) && (NonceOf(e.pc).Some? ==> NonceOf(e.pc) == ActingNonce(t, pc))
  {
    var t' := CreateLock(t, pc.at);
    if PutLock !in t.dirs {
      assert Unstaged(t', t.next) && t.next !in t.h.committed by {
        assert t.next !in t.h.stamp;
      }
    }
  }

  lemma StealPc(c: Config, t: Tree, p: Pid, pc: Pc)
    requires TreeInv(c, t) && PcInv(c, t, p, pc) && pc.Steal?
    ensures var e := AcquireStep(c, t, pc).value;
            PcInv(c, e.tree, p, e.pc) && (NonceOf(e.pc).Some? ==> NonceOf(e.pc) == ActingNonce(t, pc))
  {
  }

  lemma JudgingPc(c: Config, t: Tree, p: Pid, pc: Pc)
    requires TreeInv(c, t) && PcInv(c, t, p, pc) && (pc.Inspect? || pc.Reread?)
    ensures var e := AcquireStep(c, t, pc).value;
            PcInv(c, e.tree, p, e.pc) && (NonceOf(e.pc).Some? ==> NonceOf(e.pc) == ActingNonce(t, pc))
  {
  }

  lemma AcquirePc(c: Config, t: Tree, p: Pid, pc: Pc)
    requires TreeInv(c, t) && PcInv(c, t, p, pc) && AcquireStep(c, t, pc).Some?
    ensures var e := AcquireStep(c, t, pc).value;
            PcInv(c, e.tree, p, e.pc) && (NonceOf(e.pc).Some? ==> NonceOf(e.pc) == ActingNonce(t, pc))
  {
    if pc.Acquire? {
      AttemptPc(c, t, p, pc);
    } else if pc.Steal? {
      StealPc(c, t, p, pc);
    } else if pc.Inspect? || pc.Reread? {
      JudgingPc(c, t, p, pc);
    }
  }

  lemma PutQuiet(c: Config, t: Tree, p: Pid, pc: Pc)
    requires TreeInv(c, t) && OneHome(t.dirs) && PcInv(c, t, p, pc) && PutStep(c, t, p, pc).Some?
    ensures Kept(c, t, PutStep(c, t, p, pc).value.tree, p, ActingNonce(t, pc))
  {
    if pc.Stage? && PutLock in t.dirs {
      StageInKeeps(c, t, p, pc.n);
    } else if pc.Commit? && PutLock in t.dirs && pc.n in t.dirs[PutLock].staged && pc.job.entry.id !in t.entries {
      PublishKeeps(c, t, p, pc.n, pc.job.entry);
    } else {
      PutElsewhere(c, t, p, pc);
    }
  }

  lemma PutElsewhere(c: Config, t: Tree, p: Pid, pc: Pc)
    requires TreeInv(c, t) && OneHome(t.dirs) && PutStep(c, t, p, pc).Some?
    requires !(pc.Stage? && PutLock in t.dirs && p in t.tmp)
    requires !(pc.Commit? && PutLock in t.dirs && pc.n in t.dirs[PutLock].staged && pc.job.entry.id !in t.entries)
    ensures Kept(c, t, PutStep(c, t, p, pc).value.tree, p, ActingNonce(t, pc))
  {
    PutTemp(c, t, p, pc);
    TempKeeps(c, t, PutStep(c, t, p, pc).value.tree, p, ActingNonce(t, pc));
  }

  lemma PutTemp(c: Config, t: Tree, p: Pid, pc: Pc)
    requires PutStep(c, t, p, pc).Some?
    requires !(pc.Stage? && PutLock in t.dirs && p in t.tmp)
    requires !(pc.Commit? && PutLock in t.dirs && pc.n in t.dirs[PutLock].staged && pc.job.entry.id !in t.entries)
    ensures var t' := PutStep(c, t, p, pc).value.tree; t' == t.(tmp := t'.tmp) && t'.tmp - {p} == t.tmp - {p}
  {
  }

  lemma StagePc(c: Config, t: Tree, p: Pid, pc: Pc)
    requires TreeInv(c, t) && PcInv(c, t, p, pc) && pc.Stage?
    ensures var e := PutStep(c, t, p, pc).value;
            PcInv(c, e.tree, p, e.pc) && (NonceOf(e.pc).Some? ==> NonceOf(e.pc) == ActingNonce(t, pc))
  {
  }

  lemma CheckingPc(c: Config, t: Tree, p: Pid, pc: Pc)
    requires TreeInv(c, t) && PcInv(c, t, p, pc) && (pc.AssertOwned? || pc.Recheck? || pc.Capacity?)
    ensures var e := PutStep(c, t, p, pc).value;
            PcInv(c, e.tree, p, e.pc) && (NonceOf(e.pc).Some? ==> NonceOf(e.pc) == ActingNonce(t, pc))
  {
  }

  lemma CommitPc(c: Config, t: Tree, p: Pid, pc: Pc)
    requires TreeInv(c, t) && PcInv(c, t, p, pc) && (pc.CommitAssert? || pc.Commit? || pc.CommitFailed?)
    ensures var e := PutStep(c, t, p, pc).value;
            PcInv(c, e.tree, p, e.pc) && (NonceOf(e.pc).Some? ==> NonceOf(e.pc) == ActingNonce(t, pc))
  {
  }

  lemma PutPc(c: Config, t: Tree, p: Pid, pc: Pc)
    requires TreeInv(c, t) && PcInv(c, t, p, pc) && PutStep(c, t, p, pc).Some?
    ensures var e := PutStep(c, t, p, pc).value;
            PcInv(c, e.tree, p, e.pc) && (NonceOf(e.pc).Some? ==> NonceOf(e.pc) == ActingNonce(t, pc))
  {
    if pc.Stage? {
      StagePc(c, t, p, pc);
    } else if pc.AssertOwned? || pc.Recheck? || pc.Capacity? {
      CheckingPc(c, t, p, pc);
    } else if pc.CommitAssert? || pc.Commit? || pc.CommitFailed? {
      CommitPc(c, t, p, pc);
    }
  }

  lemma DeleteQuiet(c: Config, t: Tree, p: Pid, pc: Pc)
    requires TreeInv(c, t) && OneHome(t.dirs) && PcInv(c, t, p, pc) && DeleteStep(t, pc).Some?
    ensures Kept(c, t, DeleteStep(t, pc).value.tree, p, ActingNonce(t, pc))
  {
    if pc.DelRemove? {
      RemoveEntryKeeps(c, t, p, pc.job.id);
      KeptWeaken(c, t, RemoveEntry(t, pc.job.id), p, ActingNonce(t, pc));
    } else {
      TempKeeps(c, t, t, p, ActingNonce(t, pc));
    }
  }

  lemma DeletePc(c: Config, t: Tree, p: Pid, pc: Pc)
    requires TreeInv(c, t) && PcInv(c, t, p, pc) && DeleteStep(t, pc).Some?
    ensures var e := DeleteStep(t, pc).value;
            PcInv(c, e.tree, p, e.pc) && (NonceOf(e.pc).Some? ==> NonceOf(e.pc) == ActingNonce(t, pc))
  {
  }

  lemma ReleaseQuiet(c: Config, t: Tree, p: Pid, pc: Pc)
    requires TreeInv(c, t) && OneHome(t.dirs) && PcInv(c, t, p, pc) && ReleaseStep(t, p, pc).Some?
    ensures Kept(c, t, ReleaseStep(t, p, pc).value.tree, p, ActingNonce(t, pc))
  {
    if pc.RelRename? && PutLock in t.dirs {
      MoveLockKeeps(c, t, Release(pc.n), pc.n, p);
    } else if pc.RelRestore? && PutLock !in t.dirs {
      PutBackKeeps(c, t, Release(pc.n), p);
    } else if pc.RelRemove? {
      RemoveDirKeeps(c, t, Release(pc.n), p);
    } else if pc.Cleanup? && pc.left.StagedCopy? {
      UnstageKeeps(c, t, p, pc.n);
    } else {
      ReleaseTemp(t, p, pc);
      TempKeeps(c, t, ReleaseStep(t, p, pc).value.tree, p, ActingNonce(t, pc));
    }
  }

  lemma ReleaseTemp(t: Tree, p: Pid, pc: Pc)
    requires ReleaseStep(t, p, pc).Some? && !pc.RelRemove? && !(pc.Cleanup? && pc.left.StagedCopy?)
    requires !(pc.RelRename? && PutLock in t.dirs) && !(pc.RelRestore? && PutLock !in t.dirs)
    ensures var t' := ReleaseStep(t, p, pc).value.tree; t' == t.(tmp := t'.tmp) && t'.tmp - {p} == t.tmp - {p}
  {
  }

  lemma RenamePc(c: Config, t: Tree, p: Pid, pc: Pc)
    requires TreeInv(c, t) && PcInv(c, t, p, pc) && pc.RelRename?
    ensures var e := ReleaseStep(t, p, pc).value;
            PcInv(c, e.tree, p, e.pc) && (NonceOf(e.pc).Some? ==> NonceOf(e.pc) == ActingNonce(t, pc))
  {
  }

  lemma ReleasePc(c: Config, t: Tree, p: Pid, pc: Pc)
    requires TreeInv(c, t) && PcInv(c, t, p, pc) && ReleaseStep(t, p, pc).Some?
    ensures var e := ReleaseStep(t, p, pc).value;
            PcInv(c, e.tree, p, e.pc) && (NonceOf(e.pc).Some? ==> NonceOf(e.pc) == ActingNonce(t, pc))
  {
    if pc.RelRename? {
      RenamePc(c, t, p, pc);
    }
  }

  lemma PruneQuiet(c: Config, t: Tree, p: Pid, pc: Pc, x: Choice)
    requires TreeInv(c, t) && OneHome(t.dirs) && PruneStep(c, t, pc, x).Some?
    ensures Kept(c, t, PruneStep(c, t, pc, x).value.tree, p, ActingNonce(t, pc))
  {
    if x.Sweep? {
      RemoveEntryKeeps(c, t, p, x.id);
    } else {
      TempKeeps(c, t, t, p, None);
    }
  }

  lemma PrunePc(c: Config, t: Tree, p: Pid, pc: Pc, x: Choice)
    requires PcInv(c, t, p, pc) && PruneStep(c, t, pc, x).Some?
    ensures PcInv(c, t, p, PruneStep(c, t, pc, x).value.pc) && NonceOf(PruneStep(c, t, pc, x).value.pc).None?
    ensures PcInv(c, PruneStep(c, t, pc, x).value.tree, p, PruneStep(c, t, pc, x).value.pc)
  {
  }

  lemma StepQuiet(c: Config, t: Tree, p: Pid, pc: Pc, x: Choice)
    requires TreeInv(c, t) && OneHome(t.dirs) && PcInv(c, t, p, pc) && StepEffect(c, t, p, pc, x).Some?
    ensures Kept(c, t, StepEffect(c, t, p, pc, x).value.tree, p, ActingNonce(t, pc))
  {
    if x == Go && AcquireStep(c, t, pc).Some? {
      AcquireQuiet(c, t, p, pc);
    } else if x == Go && PutStep(c, t, p, pc).Some? {
      PutQuiet(c, t, p, pc);
    } else if x == Go && DeleteStep(t, pc).Some? {
      DeleteQuiet(c, t, p, pc);
    } else if x == Go && ReleaseStep(t, p, pc).Some? {
      ReleaseQuiet(c, t, p, pc);
    } else if x == Go || x.Visit? || x.Sweep? || (x == Cancel && !pc.Ready?) {
      PruneQuiet(c, t, p, pc, x);
    } else {
      TempKeeps(c, t, t, p, ActingNonce(t, pc));
    }
  }

  lemma StepPc(c: Config, t: Tree, p: Pid, pc: Pc, x: Choice)
    requires TreeInv(c, t) && PcInv(c, t, p, pc) && StepEffect(c, t, p, pc, x).Some?
    ensures var e := StepEffect(c, t, p, pc, x).value;
            PcInv(c, e.tree, p, e.pc) && (NonceOf(e.pc).Some? ==> NonceOf(e.pc) == ActingNonce(t, pc))
  {
    hide AcquireStep, PutStep, DeleteStep, ReleaseStep, PruneStep, TreeInv;
    if x == Go {
      if AcquireStep(c, t, pc).Some? {
        AcquirePc(c, t, p, pc);
      } else if PutStep(c, t, p, pc).Some? {
        PutPc(c, t, p, pc);
      } else if DeleteStep(t, pc).Some? {
        DeletePc(c, t, p, pc);
      } else if ReleaseStep(t, p, pc).Some? {
        ReleasePc(c, t, p, pc);
      } else {
        PrunePc(c, t, p, pc, x);
      }
    } else if x.Visit? || x.Sweep? || (x.Cancel? && !pc.Ready?) {
      PrunePc(c, t, p, pc, x);
    }
  }

  lemma NonceBelowNext(c: Config, t: Tree, p: Pid, pc: Pc)
    requires TreeInv(c, t) && PcInv(c, t, p, pc) && NonceOf(pc).Some?
    ensures NonceOf(pc).value < t.next
  {
  }

  lemma OthersKeep(c: Config, t: Tree, t': Tree, p: Pid, pc: Pc, q: Pid, qc: Pc)
    requires TreeInv(c, t) && PcInv(c, t, q, qc) && q != p
    requires NonceOf(pc).Some? ==> NonceOf(pc) != NonceOf(qc)
    requires Frame(c, t, t', p, ActingNonce(t, pc))
    ensures PcInv(c, t', q, qc)
    ensures NonceOf(qc).Some? ==> NonceOf(qc) != ActingNonce(t, pc)
  {
    if NonceOf(qc).Some? {
      NonceBelowNext(c, t, q, qc);
    }
    FrameKeeps(c, t, t', p, ActingNonce(t, pc), q, qc);
  }

  lemma OneMoves(c: Config, procs: map<Pid, Pc>, e: Effect, p: Pid, n: Option<Nonce>)
    requires forall q | q in procs && q != p :: PcInv(c, e.tree, q, procs[q])
    requires forall q | q in procs && q != p :: NonceOf(procs[q]).Some? ==> NonceOf(procs[q]) != n
    requires PcInv(c, e.tree, p, e.pc) && (NonceOf(e.pc).Some? ==> NonceOf(e.pc) == n)
    requires DistinctNonces(procs) && TreeInv(c, e.tree) && OneHome(e.tree.dirs)
    ensures Inv(c, State(e.tree, procs[p := e.pc]))
  {
  }

  /** Every step of every caller keeps the invariant. */
  lemma StepKeepsInv(c: Config, s: State, p: Pid, x: Choice)
    requires Inv(c, s) && Step(c, s, p, x).Some?
    ensures Inv(c, Step(c, s, p, x).value)
  {
    var pc := PcOf(s, p);
    assert PcInv(c, s.tree, p, pc);
    var e := StepEffect(c, s.tree, p, pc, x).value;
    StepQuiet(c, s.tree, p, pc, x);
    StepPc(c, s.tree, p, pc, x);
    forall q | q in s.procs && q != p
      ensures PcInv(c, e.tree, q, s.procs[q])
      ensures NonceOf(s.procs[q]).Some? ==> NonceOf(s.procs[q]) != ActingNonce(s.tree, pc)
    {
      OthersKeep(c, s.tree, e.tree, p, pc, q, s.procs[q]);
    }
    OneMoves(c, s.procs, e, p, ActingNonce(s.tree, pc));
  }

  lemma {:induction false} RunKeepsInv(c: Config, acts: Schedule)
    requires Run(c, INITIAL, acts).Some?
    ensures Inv(c, Run(c, INITIAL, acts).value)
    decreases |acts|
  {
    if acts != [] {
      var before := acts[..|acts| - 1];
      RunKeepsInv(c, before);
      var (p, x) := acts[|acts| - 1];
      StepKeepsInv(c, Run(c, INITIAL, before).value, p, x);
    }
  }

  /** The invariant holds in every state that any interleaving of any number of callers reaches. */
  lemma ReachableInv(c: Config, s: State)
    requires Reachable(c, s)
    ensures Inv(c, s)
  {
    var acts: Schedule :| Run(c, INITIAL, acts) == Some(s);
    RunKeepsInv(c, acts);
  }
}
