/**
 The interleavings in which displaced leases take the cache past its limit, one entry for each of them.
 */
module CacheLimit {
  import opened Wrappers
  import opened CacheModel
  import opened CacheInvariant
  import opened CacheRuns

  /** A prepared caller finds another lease at the lock and judges it expired. */
  lemma JudgeExpired(c: Config, t: Tree, p: Pid, e: Entry, at: int) returns (path: Path)
    requires PutLock in t.dirs && LeaseExpired(c, t.dirs[PutLock].owner, at)
    ensures Leads(c, p, path, Effect(t, Acquire(Put(e), 0, at)),
                  Effect(t.(next := t.next + 1), Steal(Put(e), 0, at, t.next, t.dirs[PutLock].owner)))
    ensures |path.xs| > 0
  {
    var t1 := t.(next := t.next + 1);
    path := Path([Effect(t, Acquire(Put(e), 0, at)), Effect(t1, Inspect(Put(e), 0, at, t.next)),
                  Effect(t1, Steal(Put(e), 0, at, t.next, t.dirs[PutLock].owner))], [Go, Go]);
  }

  /** Recovery of the lease that was inspected: renamed, found unchanged, removed. */
  lemma RecoverStale(c: Config, t: Tree, p: Pid, e: Entry, at: int, n: Nonce, seen: Owner) returns (path: Path)
    requires PutLock in t.dirs && Recovery(n) !in t.dirs && t.dirs[PutLock].owner == seen && LeaseExpired(c, seen, at)
    ensures Leads(c, p, path, Effect(t, Steal(Put(e), 0, at, n, seen)),
                  Effect(t.(dirs := t.dirs - {PutLock}, h := t.h.(recovered := t.h.recovered + {seen.nonce})),
                         Acquire(Put(e), 1, at)))
    ensures |path.xs| > 0
  {
    var t1 := MoveLock(t, Recovery(n), seen.nonce);
    assert t1.dirs - {Recovery(n)} == t.dirs - {PutLock};
    var e0, e1 := Effect(t, Steal(Put(e), 0, at, n, seen)), Effect(t1, Reread(Put(e), 0, at, n, seen));
    var e2 := Effect(t1, Discard(Put(e), 0, at, n, seen));
    var e3 := Effect(RemoveStale(t1, Recovery(n)), Acquire(Put(e), 1, at));
    AcquireGoes(c, t, p, e0.pc);
    AcquireGoes(c, t1, p, e1.pc);
    AcquireGoes(c, t1, p, e2.pc);
    var first := One(c, p, e0, Go, e1);
    var second := One(c, p, e1, Go, e2);
    var third := One(c, p, e2, Go, e3);
    JoinLeads(c, p, first, second, e0, e1, e2);
    JoinLeads(c, p, Join(first, second), third, e0, e2, e3);
    path := Join(Join(first, second), third);
  }

  /** A recoverer that inspected another lease displaces the one at the lock. */
  lemma Displace(c: Config, t: Tree, q: Pid, e: Entry, at: int, n: Nonce, seen: Owner) returns (path: Path)
    requires PutLock in t.dirs
    ensures Leads(c, q, path, Effect(t, Steal(Put(e), 0, at, n, seen)),
                  Effect(MoveLock(t, Recovery(n), seen.nonce), Reread(Put(e), 0, at, n, seen)))
    ensures |path.xs| > 0
  {
    path := Path([Effect(t, Steal(Put(e), 0, at, n, seen)),
                  Effect(MoveLock(t, Recovery(n), seen.nonce), Reread(Put(e), 0, at, n, seen))], [Go]);
  }

  /** It then finds the mistake and puts the lease back while the lock is free. */
  lemma PutBack(c: Config, t: Tree, q: Pid, e: Entry, at: int, n: Nonce, seen: Owner) returns (path: Path)
    requires PutLock !in t.dirs && Recovery(n) in t.dirs && t.dirs[Recovery(n)].owner.nonce != seen.nonce
    ensures Leads(c, q, path, Effect(t, Reread(Put(e), 0, at, n, seen)),
                  Effect(Move(t, Recovery(n), PutLock), AcquireFailed(Put(e))))
    ensures |path.xs| > 0
  {
    path := Path([Effect(t, Reread(Put(e), 0, at, n, seen)), Effect(t, Restore(Put(e), n)),
                  Effect(Move(t, Recovery(n), PutLock), AcquireFailed(Put(e)))], [Go, Go]);
  }

  /** One caller follows a path while the others stand still. */
  lemma Advance(c: Config, s: State, p: Pid, path: Path, to: Effect) returns (s': State)
    requires Reachable(c, s) && |path.xs| > 0 && Leads(c, p, path, Here(s, p), to)
    ensures s' == Goto(s, to, p) && Reachable(c, s')
  {
    s' := Goto(s, to, p);
    var before: Schedule :| Run(c, INITIAL, before) == Some(s);
    var acts := Follow(c, s, p, path, to);
    RunConcat(c, INITIAL, before, acts);
    assert Run(c, INITIAL, before + acts) == Some(s');
  }

  function Sample(n: nat): Entry {
    Entry(Sha256(seq(n, i => 0)), PrivateRaw, None, "")
  }

  /** Nothing was displaced, and only payloads shorter than n are stored. */
  ghost predicate Calm(c: Config, s: State, n: nat) {
    && Reachable(c, s)
    && s.tree.h.displaced == {} && s.tree.h.charged == {}
    && forall id <- s.tree.entries :: |id.payload| < n
  }

  /** A calm cache with n entries, no lease, and nobody but caller 0 ever active. */
  ghost predicate Filled(c: Config, s: State, n: nat) {
    && Calm(c, s, n) && s.tree.dirs == map[] && |s.tree.entries| == n
    && s.procs.Keys <= {0} && Free(PcOf(s, 0))
  }

  lemma {:induction false} Fill(c: Config, n: nat) returns (s: State)
    requires n <= c.maxItems
    ensures Filled(c, s, n)
  {
    if n == 0 {
      s := INITIAL;
      assert Run(c, INITIAL, []) == Some(s);
    } else {
      var s0 := Fill(c, n - 1);
      var e := Sample(n - 1);
      assert |e.id.payload| == n - 1;
      AfterPutFacts(s0.tree, 0, e, 0);
      var path, to := SoloPath(c, s0.tree, 0, PcOf(s0, 0), e, 0);
      s := Advance(c, s0, 0, path, to);
    }
  }

  /** A writer takes the lease at time 0 and stops. */
  lemma Stall(c: Config, s: State, p: Pid, e: Entry, n: nat) returns (s': State)
    requires Calm(c, s, n) && s.tree.dirs == map[] && Free(PcOf(s, p)) && |e.id.payload| == n
    ensures Calm(c, s', n) && s'.tree.entries == s.tree.entries && s'.procs.Keys == s.procs.Keys + {p}
    ensures forall q | q != p :: PcOf(s', q) == PcOf(s, q)
    ensures s'.tree.dirs.Keys == {PutLock} && s'.tree.dirs[PutLock].owner.acquiredAt == 0
  {
    var t := WithTemp(s.tree, p, e);
    var to := Effect(Leased(t, p, 0, FilesOf(e)), AssertOwned(Put(e), t.next));
    var a := Prepare(c, s.tree, p, PcOf(s, p), e, 0);
    var b := LeaseAndStage(c, t, p, e, 0, 0);
    JoinLeads(c, p, a, b, Here(s, p), Effect(t, Acquire(Put(e), 0, 0)), to);
    s' := Advance(c, s, p, Join(a, b), to);
  }

  /** Another writer prepares its entry, finds that lease and judges it expired. */
  lemma Judge(c: Config, s: State, q: Pid, e: Entry, n: nat) returns (s': State)
    requires Calm(c, s, n) && PutLock in s.tree.dirs && s.tree.dirs[PutLock].owner.acquiredAt == 0
    requires Free(PcOf(s, q)) && |e.id.payload| >= n
    ensures Calm(c, s', n) && s'.tree.entries == s.tree.entries && s'.tree.dirs == s.tree.dirs
    ensures forall o | o != q :: PcOf(s', o) == PcOf(s, o)
    ensures s'.procs.Keys == s.procs.Keys + {q} && s'.tree.next == s.tree.next + 1
    ensures PcOf(s', q) == Steal(Put(e), 0, c.leaseDuration, s.tree.next, s.tree.dirs[PutLock].owner)
    ensures s'.tree.tmp == s.tree.tmp[q := FilesOf(e)]
  {
    var t, at := WithTemp(s.tree, q, e), c.leaseDuration;
    var to := Effect(t.(next := t.next + 1), Steal(Put(e), 0, at, t.next, t.dirs[PutLock].owner));
    var a := Prepare(c, s.tree, q, PcOf(s, q), e, at);
    var b := JudgeExpired(c, t, q, e, at);
    JoinLeads(c, q, a, b, Here(s, q), Effect(t, Acquire(Put(e), 0, at)), to);
    s' := Advance(c, s, q, Join(a, b), to);
  }

  function Writer(i: nat): Pid { 2 * i + 2 }
  function Thief(i: nat): Pid { 2 * i + 3 }

  /** The first k thieves have judged the same lease expired and believe it is still at the lock. */
  ghost predicate Poised(s: State, k: nat, seen: Owner) {
    && seen.nonce < s.tree.next
    && forall i: nat :: i < k ==>
         PcOf(s, Thief(i)).Steal? && PcOf(s, Thief(i)).seen == seen && PcOf(s, Thief(i)).job.Put? && PcOf(s, Thief(i)).k == 0
  }

  ghost predicate WritersFree(s: State, k: nat) {
    Free(PcOf(s, 0)) && forall i: nat :: i < k ==> Free(PcOf(s, Writer(i)))
  }

  /** Only payloads shorter than b are stored. */
  ghost predicate Below(s: State, b: nat) { forall id <- s.tree.entries :: |id.payload| < b }

  /** Everybody but the caller p stands where it stood. */
  ghost predicate Others(s: State, s': State, p: Pid) { forall o | o != p :: PcOf(s', o) == PcOf(s, o) }

  lemma {:induction false} JudgeAll(c: Config, s: State, n: nat, k: nat) returns (s': State)
    requires Calm(c, s, n) && s.tree.dirs.Keys == {PutLock} && s.tree.dirs[PutLock].owner.acquiredAt == 0
    requires s.procs.Keys <= {0, 1} && Free(PcOf(s, 0))
    ensures Calm(c, s', n) && s'.tree.entries == s.tree.entries && s'.tree.dirs == s.tree.dirs
    ensures Poised(s', k, s.tree.dirs[PutLock].owner) && Free(PcOf(s', 0))
    ensures forall o :: o >= 2 * k + 2 || (o >= 2 && o % 2 == 0) ==> Free(PcOf(s', o))
    ensures forall i: nat :: i < k ==> PcOf(s', Thief(i)).at == c.leaseDuration
  {
    hide Reachable;
    if k == 0 {
      LockBelowNext(c, s);
      s' := s;
    } else {
      var s1 := JudgeAll(c, s, n, k - 1);
      assert |Sample(n).id.payload| == n;
      s' := Judge(c, s1, Thief(k - 1), Sample(n), n);
    }
  }

  lemma LockBelowNext(c: Config, s: State)
    requires Reachable(c, s) && PutLock in s.tree.dirs
    ensures s.tree.dirs[PutLock].owner.nonce < s.tree.next
  {
    ReachableInv(c, s);
  }

  /** A nonce not drawn yet names no directory. */
  lemma FreshNonce(c: Config, s: State)
    requires Reachable(c, s)
    ensures Release(s.tree.next) !in s.tree.dirs && s.tree.next !in s.tree.h.displaced && s.tree.next !in s.tree.h.charged
  {
    ReachableInv(c, s);
    FreshIn(c, s.tree);
  }

  lemma FreshIn(c: Config, t: Tree)
    requires TreeInv(c, t)
    ensures Release(t.next) !in t.dirs && t.next !in t.h.displaced && t.next !in t.h.charged
  {
  }

  lemma ThiefReady(c: Config, s: State, r: Pid)
    requires Reachable(c, s) && PcOf(s, r).Steal?
    ensures Recovery(PcOf(s, r).n) !in s.tree.dirs
  {
    ReachableInv(c, s);
    hide TreeInv, Step, OneHome, DistinctNonces;
    assert PcInv(c, s.tree, r, s.procs[r]);
  }

  lemma Recover(c: Config, s: State, r: Pid, seen: Owner) returns (s': State)
    requires Reachable(c, s) && s.tree.dirs.Keys == {PutLock} && s.tree.dirs[PutLock].owner == seen
    requires PcOf(s, r).Steal? && PcOf(s, r).seen == seen && PcOf(s, r).job.Put? && PcOf(s, r).k == 0
    requires LeaseExpired(c, seen, PcOf(s, r).at)
    ensures Reachable(c, s') && Others(s, s', r) && s'.tree.dirs == map[] && s'.tree.entries == s.tree.entries
    ensures s'.tree.next == s.tree.next
    ensures s'.tree.h.displaced == s.tree.h.displaced && s'.tree.h.charged == s.tree.h.charged
  {
    var t, pc := s.tree, PcOf(s, r);
    var path := RecoverStale(c, t, r, pc.job.entry, pc.at, pc.n, seen);
    var t' := t.(dirs := t.dirs - {PutLock}, h := t.h.(recovered := t.h.recovered + {seen.nonce}));
    s' := Advance(c, s, r, path, Effect(t', Acquire(pc.job, 1, pc.at)));
    assert t.dirs - {PutLock} == map[];
  }

  /** One more caller that judged the lease expired removes it: the lock is free, the thieves do not know. */
  lemma SetUp(c: Config, k: nat) returns (s: State, seen: Owner)
    requires c.maxItems > 0
    ensures Calm(c, s, c.maxItems - 1) && |s.tree.entries| == c.maxItems - 1 && s.tree.dirs == map[]
    ensures Poised(s, k, seen) && WritersFree(s, k)
  {
    hide Reachable;
    var m := c.maxItems - 1;
    var s0 := Fill(c, m);
    assert |Sample(m).id.payload| == m;
    var s1 := Stall(c, s0, 1, Sample(m), m);
    seen := s1.tree.dirs[PutLock].owner;
    var s2 := JudgeAll(c, s1, m, k + 1);
    s := Recover(c, s2, Thief(k), seen);
    forall i: nat | i < k ensures Free(PcOf(s, Writer(i))) {
      assert PcOf(s, Writer(i)) == PcOf(s2, Writer(i));
    }
    forall i: nat | i < k ensures PcOf(s, Thief(i)) == PcOf(s2, Thief(i)) {
    }
  }

  /** A writer takes the free lock and passes every check. */
  lemma Contend(c: Config, s: State, w: Pid, e: Entry) returns (s': State)
    requires Reachable(c, s) && PutLock !in s.tree.dirs && Free(PcOf(s, w))
    requires e.id !in s.tree.entries && |s.tree.entries| < c.maxItems
    ensures Reachable(c, s') && Others(s, s', w) && PcOf(s', w) == Commit(Put(e), s.tree.next)
    ensures s'.tree.dirs == s.tree.dirs[PutLock := Lease(Owner(s.tree.next, 0), map[s.tree.next := FilesOf(e)])]
    ensures s'.tree.entries == s.tree.entries && s'.tree.next == s.tree.next + 1
    ensures s'.tree.h.displaced == s.tree.h.displaced && s'.tree.h.charged == s.tree.h.charged
  {
    var t := WithTemp(s.tree, w, e);
    var to := Effect(Leased(t, w, 0, FilesOf(e)), Commit(Put(e), t.next));
    var a := Prepare(c, s.tree, w, PcOf(s, w), e, 0);
    var b := LeaseAndCheck(c, t, w, e, 0, 0);
    JoinLeads(c, w, a, b, Here(s, w), Effect(t, Acquire(Put(e), 0, 0)), to);
    s' := Advance(c, s, w, Join(a, b), to);
  }

  /** A thief, still believing in the first lease, displaces the one at the lock. */
  lemma Interfere(c: Config, s: State, r: Pid) returns (s': State)
    requires Reachable(c, s) && PutLock in s.tree.dirs
    requires PcOf(s, r).Steal? && PcOf(s, r).job.Put? && PcOf(s, r).k == 0
    requires PcOf(s, r).seen.nonce != s.tree.dirs[PutLock].owner.nonce
    ensures Reachable(c, s') && Others(s, s', r)
    ensures var pc := PcOf(s, r); PcOf(s', r) == Reread(pc.job, 0, pc.at, pc.n, pc.seen)
                                  && s'.tree == MoveLock(s.tree, Recovery(pc.n), pc.seen.nonce)
  {
    var pc := PcOf(s, r);
    var path := Displace(c, s.tree, r, pc.job.entry, pc.at, pc.n, pc.seen);
    s' := Advance(c, s, r, path, Effect(MoveLock(s.tree, Recovery(pc.n), pc.seen.nonce),
                                        Reread(pc.job, 0, pc.at, pc.n, pc.seen)));
  }

  /** It finds its mistake and puts the lease back. */
  lemma MakeGood(c: Config, s: State, r: Pid) returns (s': State)
    requires Reachable(c, s) && PutLock !in s.tree.dirs
    requires PcOf(s, r).Reread? && PcOf(s, r).job.Put? && PcOf(s, r).k == 0
    requires Recovery(PcOf(s, r).n) in s.tree.dirs
    requires s.tree.dirs[Recovery(PcOf(s, r).n)].owner.nonce != PcOf(s, r).seen.nonce
    ensures Reachable(c, s') && Others(s, s', r) && s'.tree == Move(s.tree, Recovery(PcOf(s, r).n), PutLock)
  {
    var pc := PcOf(s, r);
    var path := PutBack(c, s.tree, r, pc.job.entry, pc.at, pc.n, pc.seen);
    s' := Advance(c, s, r, path, Effect(Move(s.tree, Recovery(pc.n), PutLock), AcquireFailed(pc.job)));
  }

  /** The owner of the lease put back commits: its count of the entries is out of date. */
  lemma CommitLate(c: Config, s: State, w: Pid, e: Entry, n: Nonce) returns (s': State)
    requires Reachable(c, s) && PcOf(s, w) == Commit(Put(e), n) && e.id !in s.tree.entries
    requires LockIs(s.tree, n) && n in s.tree.dirs[PutLock].staged && Release(n) !in s.tree.dirs && n in s.tree.h.displaced
    ensures Reachable(c, s') && Others(s, s', w) && s'.tree.dirs == s.tree.dirs - {PutLock}
    ensures s'.tree.entries.Keys == s.tree.entries.Keys + {e.id}
    ensures s'.tree.h.displaced == s.tree.h.displaced && s'.tree.h.charged == s.tree.h.charged + {n}
  {
    var path := CommitAndRelease(c, s.tree, w, e, n);
    s' := Advance(c, s, w, path, Effect(RemoveDir(Publish(s.tree, n, e.id), PutLock), Done(Stored(e))));
  }

  /** An undisturbed Put fills the store. */
  lemma PutInTheGap(c: Config, s: State, e: Entry) returns (s': State)
    requires Reachable(c, s) && Free(PcOf(s, 0)) && PutLock !in s.tree.dirs
    requires e.id !in s.tree.entries && |s.tree.entries| < c.maxItems
    ensures Reachable(c, s') && Others(s, s', 0) && Free(PcOf(s', 0)) && s'.tree.next == s.tree.next + 1
    ensures s'.tree.entries == s.tree.entries[e.id := FilesOf(e)] && s'.tree.entries.Keys == s.tree.entries.Keys + {e.id}
    ensures s'.tree.dirs == s.tree.dirs && s'.tree.h.displaced == s.tree.h.displaced && s'.tree.h.charged == s.tree.h.charged
  {
    hide Reachable, AfterPut, FilesOf, Leads;
    FreshNonce(c, s);
    AfterPutFacts(s.tree, 0, e, 0);
    var path, to := SoloPath(c, s.tree, 0, PcOf(s, 0), e, 0);
    s' := Advance(c, s, 0, path, to);
  }

  /** What k nested displacements leave: one entry over the limit for each, every lease where it was. */
  ghost predicate Nested(c: Config, s: State, s': State, k: nat, b: nat, extra: set<Nonce>) {
    Reachable(c, s') && NestedTree(s.tree, s'.tree, k, b, extra) && Elsewhere(s, s', k)
  }

  ghost predicate NestedTree(t: Tree, t': Tree, k: nat, b: nat, extra: set<Nonce>) {
    && t'.dirs == t.dirs && |t'.entries| == |t.entries| + k + 1 && (forall id <- t'.entries :: |id.payload| < b + k + 1)
    && t'.h.displaced == t.h.displaced + extra && t'.h.charged == t.h.charged + extra
    && |extra| == k && forall n <- extra :: t.next <= n
  }

  /** Only caller 0, the first k writers and the first k thieves have moved. */
  ghost predicate Elsewhere(s: State, s': State, k: nat) {
    forall o | o >= 2 * k + 2 || o == 1 :: PcOf(s', o) == PcOf(s, o)
  }

  /** A writer passes the capacity check and is displaced. */
  lemma Inwards(c: Config, s: State, w: Pid, r: Pid, e: Entry) returns (s': State, held: Lease)
    requires Reachable(c, s) && PutLock !in s.tree.dirs && Free(PcOf(s, w)) && w != r
    requires e.id !in s.tree.entries && |s.tree.entries| < c.maxItems
    requires PcOf(s, r).Steal? && PcOf(s, r).job.Put? && PcOf(s, r).k == 0 && PcOf(s, r).seen.nonce < s.tree.next
    ensures Reachable(c, s') && (forall o | o != w && o != r :: PcOf(s', o) == PcOf(s, o))
    ensures held == Lease(Owner(s.tree.next, 0), map[s.tree.next := FilesOf(e)]) && PcOf(s', w) == Commit(Put(e), s.tree.next)
    ensures var pc := PcOf(s, r); PcOf(s', r) == Reread(pc.job, 0, pc.at, pc.n, pc.seen)
                                  && Recovery(pc.n) !in s.tree.dirs && s'.tree.dirs == s.tree.dirs[Recovery(pc.n) := held]
    ensures s'.tree.entries == s.tree.entries && s'.tree.next == s.tree.next + 1
    ensures s'.tree.h.displaced == s.tree.h.displaced + {s.tree.next} && s'.tree.h.charged == s.tree.h.charged
    ensures s.tree.next !in s.tree.h.displaced && s.tree.next !in s.tree.h.charged && Release(s.tree.next) !in s.tree.dirs
  {
    hide Reachable;
    FreshNonce(c, s);
    ThiefReady(c, s, r);
    var s1 := Contend(c, s, w, e);
    held := s1.tree.dirs[PutLock];
    s' := Interfere(c, s1, r);
    assert s'.tree.dirs == s.tree.dirs[Recovery(PcOf(s, r).n) := held];
  }

  /** The displaced lease comes back and its writer commits. */
  lemma Outwards(c: Config, s: State, w: Pid, r: Pid, e: Entry, held: Lease) returns (s': State)
    requires Reachable(c, s) && PutLock !in s.tree.dirs && w != r && e.id !in s.tree.entries
    requires PcOf(s, r).Reread? && PcOf(s, r).job.Put? && PcOf(s, r).k == 0 && PcOf(s, r).seen.nonce != held.owner.nonce
    requires Recovery(PcOf(s, r).n) in s.tree.dirs && s.tree.dirs[Recovery(PcOf(s, r).n)] == held
    requires PcOf(s, w) == Commit(Put(e), held.owner.nonce) && held.owner.nonce in held.staged
    requires held.owner.nonce in s.tree.h.displaced && Release(held.owner.nonce) !in s.tree.dirs
    ensures Reachable(c, s') && (forall o | o != w && o != r :: PcOf(s', o) == PcOf(s, o))
    ensures s'.tree.dirs == s.tree.dirs - {Recovery(PcOf(s, r).n)} && s'.tree.entries.Keys == s.tree.entries.Keys + {e.id}
    ensures s'.tree.h.displaced == s.tree.h.displaced && s'.tree.h.charged == s.tree.h.charged + {held.owner.nonce}
  {
    hide Reachable;
    var s1 := MakeGood(c, s, r);
    s' := CommitLate(c, s1, w, e, held.owner.nonce);
    assert s'.tree.dirs == s.tree.dirs - {Recovery(PcOf(s, r).n)};
  }

  /** What a writer displaced and restored adds to the nested ones. */
  lemma WrapTree(t: Tree, t2: Tree, t3: Tree, t': Tree, k: nat, b: nat, a: Place, held: Lease, e: Entry, inner: set<Nonce>)
    requires k > 0 && NestedTree(t2, t3, k - 1, b, inner)
    requires a !in t.dirs && t2.dirs == t.dirs[a := held] && t'.dirs == t3.dirs - {a}
    requires |e.id.payload| == b + k && t'.entries.Keys == t3.entries.Keys + {e.id}
    requires t2.entries == t.entries && t2.next == t.next + 1
    requires t2.h.displaced == t.h.displaced + {t.next} && t2.h.charged == t.h.charged
    requires t'.h.displaced == t3.h.displaced && t'.h.charged == t3.h.charged + {t.next}
    ensures NestedTree(t, t', k, b, inner + {t.next})
  {
    OneMore(t3.entries, t'.entries, e.id, b + k);
    BackAgain(t.dirs, a, held);
    Added(t.h.displaced, inner, t.next);
    Added(t.h.charged, inner, t.next);
  }

  lemma WrapElsewhere(s: State, s2: State, s3: State, s': State, k: nat)
    requires k > 0 && Elsewhere(s2, s3, k - 1)
    requires forall o | o != Writer(k - 1) && o != Thief(k - 1) :: PcOf(s2, o) == PcOf(s, o)
    requires forall o | o != Writer(k - 1) && o != Thief(k - 1) :: PcOf(s', o) == PcOf(s3, o)
    ensures Elsewhere(s, s', k)
  {
    hide PcOf;
    forall o | o >= 2 * k + 2 || o == 1 ensures PcOf(s', o) == PcOf(s, o) {
      assert PcOf(s2, o) == PcOf(s, o) && PcOf(s', o) == PcOf(s3, o) == PcOf(s2, o);
    }
  }

  lemma BackAgain(dirs: map<Place, Lease>, a: Place, held: Lease)
    requires a !in dirs
    ensures dirs[a := held] - {a} == dirs
  {
  }

  lemma Added(known: set<Nonce>, inner: set<Nonce>, n: Nonce)
    requires forall m <- inner :: n < m
    ensures |inner + {n}| == |inner| + 1
    ensures known + {n} + inner == known + (inner + {n}) && known + inner + {n} == known + (inner + {n})
  {
  }

  lemma OneMore(m: map<Digest, Files>, m': map<Digest, Files>, id: Digest, n: nat)
    requires m'.Keys == m.Keys + {id} && |id.payload| == n && forall d <- m :: |d.payload| < n
    ensures |m'| == |m| + 1 && forall d <- m' :: |d.payload| < n + 1
  {
    assert id !in m;
    assert |m'| == |m'.Keys| && |m| == |m.Keys|;
    forall d <- m' ensures |d.payload| < n + 1 { assert d in m'.Keys; }
  }

  lemma FullTree(t: Tree, t': Tree, b: nat, e: Entry)
    requires |e.id.payload| == b && t'.entries.Keys == t.entries.Keys + {e.id} && forall id <- t.entries :: |id.payload| < b
    requires t'.dirs == t.dirs && t'.h.displaced == t.h.displaced && t'.h.charged == t.h.charged
    ensures NestedTree(t, t', 0, b, {})
  {
    OneMore(t.entries, t'.entries, e.id, b);
    NothingAdded(t.h.displaced);
    NothingAdded(t.h.charged);
  }

  lemma NothingAdded(known: set<Nonce>)
    ensures known + {} == known
  {
  }

  lemma Innermost(c: Config, s: State, b: nat) returns (s': State)
    requires Reachable(c, s) && PutLock !in s.tree.dirs && |s.tree.entries| < c.maxItems && Below(s, b) && Free(PcOf(s, 0))
    ensures Nested(c, s, s', 0, b, {})
  {
    hide Reachable, PcOf, NestedTree;
    var e := Sample(b);
    assert |e.id.payload| == b;
    s' := PutInTheGap(c, s, e);
    FullTree(s.tree, s'.tree, b, e);
  }

  /**
   Each writer passes the capacity check and is displaced before the next one looks; when the store is full
   the leases come back, innermost first, and each writer commits.
   */
  lemma {:induction false} Nest(c: Config, s: State, k: nat, b: nat, seen: Owner) returns (s': State, extra: set<Nonce>)
    requires Reachable(c, s) && PutLock !in s.tree.dirs && |s.tree.entries| < c.maxItems && Below(s, b)
    requires Poised(s, k, seen) && WritersFree(s, k)
    ensures Nested(c, s, s', k, b, extra)
    decreases k
  {
    hide Reachable, NestedTree, Elsewhere, Poised, WritersFree;
    FirstFree(c, s, k, seen);
    if k == 0 {
      s' := Innermost(c, s, b);
      extra := {};
    } else {
      var w, r, e := Writer(k - 1), Thief(k - 1), Sample(b + k);
      assert |e.id.payload| == b + k;
      var s2, held := Inwards(c, s, w, r, e);
      StillPoised(s, s2, k, seen);
      var s3, inner := Nest(c, s2, k - 1, b, seen);
      Unchanged(c, s2, s3, k, b, inner);
      s' := Outwards(c, s3, w, r, e, held);
      WrapTree(s.tree, s2.tree, s3.tree, s'.tree, k, b, Recovery(PcOf(s, r).n), held, e, inner);
      WrapElsewhere(s, s2, s3, s', k);
      extra := inner + {s.tree.next};
    }
  }

  /** What the nested ones leave alone. */
  lemma Unchanged(c: Config, s2: State, s3: State, k: nat, b: nat, inner: set<Nonce>)
    requires k > 0 && Nested(c, s2, s3, k - 1, b, inner)
    ensures Reachable(c, s3) && s3.tree.dirs == s2.tree.dirs && s2.tree.h.displaced <= s3.tree.h.displaced
    ensures PcOf(s3, Writer(k - 1)) == PcOf(s2, Writer(k - 1)) && PcOf(s3, Thief(k - 1)) == PcOf(s2, Thief(k - 1))
    ensures forall id <- s3.tree.entries :: |id.payload| < b + k
  {
    hide Reachable;
  }

  lemma FirstFree(c: Config, s: State, k: nat, seen: Owner)
    requires Poised(s, k, seen) && WritersFree(s, k)
    ensures Free(PcOf(s, 0)) && seen.nonce < s.tree.next
    ensures k > 0 ==> Free(PcOf(s, Writer(k - 1))) && PcOf(s, Thief(k - 1)).Steal? && PcOf(s, Thief(k - 1)).seen == seen
                      && PcOf(s, Thief(k - 1)).job.Put? && PcOf(s, Thief(k - 1)).k == 0
  {
  }

  lemma StillPoised(s: State, s2: State, k: nat, seen: Owner)
    requires k > 0 && Poised(s, k, seen) && WritersFree(s, k) && s.tree.next <= s2.tree.next
    requires forall o | o != Writer(k - 1) && o != Thief(k - 1) :: PcOf(s2, o) == PcOf(s, o)
    ensures Poised(s2, k - 1, seen) && WritersFree(s2, k - 1)
  {
  }

  /**
   The bound of CapacityBound is exact: for every number k of displaced leases some interleaving takes a cache
   that admits an entry at all to maxItems + k entries.
   */
  lemma BoundIsExact(c: Config, k: nat) returns (s: State)
    requires c.maxItems > 0
    ensures Reachable(c, s) && |s.tree.entries| == c.maxItems + k
    ensures s.tree.h.charged == s.tree.h.displaced && |s.tree.h.displaced| == k
  {
    var s0, seen := SetUp(c, k);
    var extra;
    s, extra := Nest(c, s0, k, c.maxItems - 1, seen);
    assert {} + extra == extra;
  }

  /** The flat claim "never more than maxItems entries" fails for every configuration that admits an entry at all. */
  lemma FlatLimitFails(c: Config) returns (s: State)
    requires c.maxItems > 0
    ensures Reachable(c, s) && |s.tree.entries| == c.maxItems + 1 && |s.tree.h.displaced| == 1
  {
    s := BoundIsExact(c, 1);
  }
}
