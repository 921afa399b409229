/**
 Runs of the put-lease protocol: what one undisturbed Put does from start to finish.
 */
module CacheRuns {
  import opened Wrappers
  import opened CacheModel

  /** Consecutive steps of one caller, each choice leading from one effect to the next. */
  datatype Path = Path(es: seq<Effect>, xs: seq<Choice>)

  ghost predicate Leads(c: Config, p: Pid, path: Path, from: Effect, to: Effect) {
    && |path.es| == |path.xs| + 1 && path.es[0] == from && path.es[|path.xs|] == to
    && forall i | 0 <= i < |path.xs| ::
         StepEffect(c, path.es[i].tree, p, path.es[i].pc, path.xs[i]) == Some(path.es[i + 1])
  }

  function Join(a: Path, b: Path): Path
    requires |a.es| == |a.xs| + 1 && |b.es| == |b.xs| + 1
  {
    Path(a.es[..|a.xs|] + b.es, a.xs + b.xs)
  }

  lemma JoinLeads(c: Config, p: Pid, a: Path, b: Path, from: Effect, mid: Effect, to: Effect)
    requires Leads(c, p, a, from, mid) && Leads(c, p, b, mid, to)
    ensures Leads(c, p, Join(a, b), from, to)
  {
    hide StepEffect;
    var j := Join(a, b);
    forall i | 0 <= i < |j.xs|
      ensures StepEffect(c, j.es[i].tree, p, j.es[i].pc, j.xs[i]) == Some(j.es[i + 1])
    {
      if i < |a.xs| {
        assert j.es[i] == a.es[i] && j.es[i + 1] == a.es[i + 1] && j.xs[i] == a.xs[i];
      } else {
        assert j.es[i] == b.es[i - |a.xs|] && j.es[i + 1] == b.es[i + 1 - |a.xs|] && j.xs[i] == b.xs[i - |a.xs|];
      }
    }
  }

  /** One enabled step is a path. */
  lemma One(c: Config, p: Pid, from: Effect, x: Choice, to: Effect) returns (path: Path)
    requires StepEffect(c, from.tree, p, from.pc, x) == Some(to)
    ensures Leads(c, p, path, from, to) && |path.xs| > 0
  {
    path := Path([from, to], [x]);
  }

  function Goto(s: State, e: Effect, p: Pid): State {
    State(e.tree, s.procs[p := e.pc])
  }

  function Here(s: State, p: Pid): Effect {
    Effect(s.tree, PcOf(s, p))
  }

  lemma Append(c: Config, s: State, acts: Schedule, p: Pid, from: Effect, x: Choice, to: Effect)
    requires (acts == [] && from == Here(s, p)) || Run(c, s, acts) == Some(Goto(s, from, p))
    requires StepEffect(c, from.tree, p, from.pc, x) == Some(to)
    ensures Run(c, s, acts + [(p, x)]) == Some(Goto(s, to, p))
  {
    assert (acts + [(p, x)])[..|acts|] == acts;
    assert s.procs[p := from.pc][p := to.pc] == s.procs[p := to.pc];
  }

  /** A path of one caller is an interleaving in which nobody else moves. */
  lemma {:induction false} Follow(c: Config, s: State, p: Pid, path: Path, to: Effect) returns (acts: Schedule)
    requires |path.xs| > 0 && Leads(c, p, path, Here(s, p), to)
    ensures Run(c, s, acts) == Some(Goto(s, to, p))
    ensures |acts| == |path.xs| && forall i | 0 <= i < |acts| :: acts[i] == (p, path.xs[i])
    decreases |path.xs|
  {
    var m := |path.xs| - 1;
    acts := [];
    if m > 0 {
      var shorter := Path(path.es[..m + 1], path.xs[..m]);
      assert Leads(c, p, shorter, Here(s, p), path.es[m]);
      acts := Follow(c, s, p, shorter, path.es[m]);
    }
    Append(c, s, acts, p, path.es[m], path.xs[m], to);
    acts := acts + [(p, path.xs[m])];
  }

  lemma {:induction false} RunConcat(c: Config, s: State, a: Schedule, b: Schedule)
    requires Run(c, s, a).Some?
    ensures Run(c, s, a + b) == Run(c, Run(c, s, a).value, b)
    decreases |b|
  {
    if b == [] {
      assert a + b == a;
    } else {
      assert (a + b)[..|a + b| - 1] == a + b[..|b| - 1];
      RunConcat(c, s, a, b[..|b| - 1]);
    }
  }

  predicate Free(pc: Pc) {
    pc.Idle? || pc.Done?
  }

  function WithTemp(t: Tree, p: Pid, e: Entry): Tree {
    t.(tmp := t.tmp[p := FilesOf(e)])
  }

  lemma WriteTemp(c: Config, t: Tree, p: Pid, e: Entry) returns (path: Path)
    ensures Leads(c, p, path, Effect(t, MakeTemp(Put(e))), Effect(WithTemp(t, p, e), Ready(Put(e))))
  {
    var job := Put(e);
    var t1, t2 := t.(tmp := t.tmp[p := Files(None, None)]), t.(tmp := t.tmp[p := Files(Some(e.id.payload), None)]);
    assert t1.(tmp := t1.tmp[p := t2.tmp[p]]) == t2 && WithTemp(t2, p, e) == WithTemp(t, p, e);
    path := Path([Effect(t, MakeTemp(job)), Effect(t1, WritePayload(job)), Effect(t2, WriteManifest(job)),
                  Effect(WithTemp(t, p, e), Ready(job))], [Go, Go, Go]);
  }

  /** Put up to its acquisition attempt: the entry is complete in a private temporary directory. */
  lemma Prepare(c: Config, t: Tree, p: Pid, pc: Pc, e: Entry, at: int) returns (path: Path)
    requires Free(pc) && e.id !in t.entries
    ensures Leads(c, p, path, Effect(t, pc), Effect(WithTemp(t, p, e), Acquire(Put(e), 0, at))) && |path.xs| > 0
  {
    var job := Put(e);
    var first := Path([Effect(t, pc), Effect(t, Lookup(job)), Effect(t, MakeTemp(job))], [Begin(job), Go]);
    var write := WriteTemp(c, t, p, e);
    var ready, to := Effect(WithTemp(t, p, e), Ready(job)), Effect(WithTemp(t, p, e), Acquire(job, 0, at));
    var last := One(c, p, ready, Clock(at), to);
    JoinLeads(c, p, first, write, first.es[0], first.es[2], ready);
    JoinLeads(c, p, Join(first, write), last, first.es[0], ready, to);
    path := Join(Join(first, write), last);
  }

  /** The tree in which caller p holds a fresh lease at the lock with its transaction staged. */
  function Leased(t: Tree, p: Pid, at: int, f: Files): Tree {
    CreateLock(t, at).(tmp := t.tmp - {p},
                       dirs := t.dirs[PutLock := Lease(Owner(t.next, at), map[t.next := f])])
  }

  lemma LeaseThenStage(t: Tree, p: Pid, at: int)
    requires p in t.tmp
    ensures StageIn(CreateLock(t, at), p, t.next) == Leased(t, p, at, t.tmp[p])
  {
    var owner := Owner(t.next, at);
    assert map[][t.next := t.tmp[p]] == map[t.next := t.tmp[p]];
    assert t.dirs[PutLock := Lease(owner, map[])][PutLock := Lease(owner, map[t.next := t.tmp[p]])]
        == t.dirs[PutLock := Lease(owner, map[t.next := t.tmp[p]])];
  }

  lemma LeaseAndStage(c: Config, t: Tree, p: Pid, e: Entry, k: nat, at: int) returns (path: Path)
    requires k < 4 && p in t.tmp && t.tmp[p] == FilesOf(e) && PutLock !in t.dirs
    ensures Leads(c, p, path, Effect(t, Acquire(Put(e), k, at)),
                  Effect(Leased(t, p, at, FilesOf(e)), AssertOwned(Put(e), t.next)))
  {
    LeaseThenStage(t, p, at);
    path := Path([Effect(t, Acquire(Put(e), k, at)), Effect(CreateLock(t, at), Stage(Put(e), t.next)),
                  Effect(Leased(t, p, at, FilesOf(e)), AssertOwned(Put(e), t.next))],
                 [Go, Go]);
  }

  /** The checks between staging and the commit rename change nothing. */
  lemma CheckHeld(c: Config, t: Tree, p: Pid, e: Entry, n: Nonce) returns (path: Path)
    requires LockIs(t, n) && e.id !in t.entries && |t.entries| < c.maxItems
    ensures Leads(c, p, path, Effect(t, AssertOwned(Put(e), n)), Effect(t, Commit(Put(e), n))) && |path.xs| > 0
  {
    var job := Put(e);
    path := Path([Effect(t, AssertOwned(job, n)), Effect(t, Recheck(job, n)), Effect(t, Capacity(job, n)),
                  Effect(t, CommitAssert(job, n)), Effect(t, Commit(job, n))],
                 [Go, Go, Go, Go]);
  }

  /** From a free lock to the verge of the commit rename. */
  lemma LeaseAndCheck(c: Config, t: Tree, p: Pid, e: Entry, k: nat, at: int) returns (path: Path)
    requires k < 4 && p in t.tmp && t.tmp[p] == FilesOf(e)
    requires PutLock !in t.dirs && e.id !in t.entries && |t.entries| < c.maxItems
    ensures Leads(c, p, path, Effect(t, Acquire(Put(e), k, at)), Effect(Leased(t, p, at, FilesOf(e)), Commit(Put(e), t.next)))
    ensures |path.xs| > 0
  {
    var t1 := Leased(t, p, at, FilesOf(e));
    var a := LeaseAndStage(c, t, p, e, k, at);
    var b := CheckHeld(c, t1, p, e, t.next);
    JoinLeads(c, p, a, b, Effect(t, Acquire(Put(e), k, at)), Effect(t1, AssertOwned(Put(e), t.next)),
              Effect(t1, Commit(Put(e), t.next)));
    path := Join(a, b);
  }

  lemma MoveThenRemove(t: Tree, n: Nonce)
    requires LockIs(t, n) && Release(n) !in t.dirs
    ensures RemoveDir(MoveLock(t, Release(n), n), Release(n)) == RemoveDir(t, PutLock)
    ensures Release(n) in MoveLock(t, Release(n), n).dirs
    ensures MoveLock(t, Release(n), n).dirs[Release(n)].owner.nonce == n
  {
    assert RemoveDir(MoveLock(t, Release(n), n), Release(n)).dirs == RemoveDir(t, PutLock).dirs;
  }

  lemma ReleaseGoes(c: Config, t: Tree, p: Pid, pc: Pc)
    requires ReleaseStep(t, p, pc).Some?
    ensures StepEffect(c, t, p, pc, Go) == ReleaseStep(t, p, pc)
  {
  }

  lemma AcquireGoes(c: Config, t: Tree, p: Pid, pc: Pc)
    requires AcquireStep(c, t, pc).Some?
    ensures StepEffect(c, t, p, pc, Go) == AcquireStep(c, t, pc)
  {
  }

  lemma RemoveMoved(c: Config, t: Tree, p: Pid, job: Job, n: Nonce, out: Outcome) returns (path: Path)
    requires Release(n) in t.dirs && t.dirs[Release(n)].owner.nonce == n
    ensures Leads(c, p, path, Effect(t, RelReread(job, n, out, NoLeftover)),
                  Effect(RemoveDir(t, Release(n)), Done(out)))
  {
    var t2 := RemoveDir(t, Release(n));
    var e0, e1 := Effect(t, RelReread(job, n, out, NoLeftover)), Effect(t, RelRemove(job, n, out, NoLeftover));
    var e2, e3 := Effect(t2, Cleanup(job, n, out, NoLeftover)), Effect(t2, Done(out));
    ReleaseGoes(c, t, p, e0.pc);
    ReleaseGoes(c, t, p, e1.pc);
    ReleaseGoes(c, t2, p, e2.pc);
    var first := One(c, p, e0, Go, e1);
    var second := One(c, p, e1, Go, e2);
    var third := One(c, p, e2, Go, e3);
    JoinLeads(c, p, first, second, e0, e1, e2);
    JoinLeads(c, p, Join(first, second), third, e0, e2, e3);
    path := Join(Join(first, second), third);
  }

  /** Release of a lease that is still at the lock removes its directory and keeps the outcome. */
  lemma ReleaseHeld(c: Config, t: Tree, p: Pid, job: Job, n: Nonce, out: Outcome) returns (path: Path)
    requires LockIs(t, n) && Release(n) !in t.dirs
    ensures Leads(c, p, path, Effect(t, RelInspect(job, n, out, NoLeftover)), Effect(RemoveDir(t, PutLock), Done(out)))
  {
    var t1 := MoveLock(t, Release(n), n);
    MoveThenRemove(t, n);
    var a := Path([Effect(t, RelInspect(job, n, out, NoLeftover)), Effect(t, RelRename(job, n, out, NoLeftover)),
                   Effect(t1, RelReread(job, n, out, NoLeftover))], [Go, Go]);
    var b := RemoveMoved(c, t1, p, job, n, out);
    JoinLeads(c, p, a, b, a.es[0], a.es[2], Effect(RemoveDir(t, PutLock), Done(out)));
    path := Join(a, b);
  }

  lemma CommitAndRelease(c: Config, t: Tree, p: Pid, e: Entry, n: Nonce) returns (path: Path)
    requires LockIs(t, n) && e.id !in t.entries && n in t.dirs[PutLock].staged && Release(n) !in t.dirs
    ensures Leads(c, p, path, Effect(t, Commit(Put(e), n)),
                  Effect(RemoveDir(Publish(t, n, e.id), PutLock), Done(Stored(e))))
  {
    var mid := Effect(Publish(t, n, e.id), RelInspect(Put(e), n, Stored(e), NoLeftover));
    var first := Path([Effect(t, Commit(Put(e), n)), mid], [Go]);
    var rest := ReleaseHeld(c, mid.tree, p, Put(e), n, Stored(e));
    path := Join(first, rest);
    JoinLeads(c, p, first, rest, first.es[0], mid, Effect(RemoveDir(mid.tree, PutLock), Done(Stored(e))));
  }

  /** The tree an undisturbed Put leaves behind. */
  function AfterPut(t: Tree, p: Pid, e: Entry, at: int): Tree {
    RemoveDir(Publish(Leased(WithTemp(t, p, e), p, at, FilesOf(e)), t.next, e.id), PutLock)
  }

  lemma AfterPutFacts(t: Tree, p: Pid, e: Entry, at: int)
    requires PutLock !in t.dirs && e.id !in t.entries && t.next !in t.h.displaced
    ensures var t' := AfterPut(t, p, e, at);
            t'.entries == t.entries[e.id := FilesOf(e)] && t'.dirs == t.dirs && t'.next == t.next + 1
            && t'.h.displaced == t.h.displaced && t'.h.charged == t.h.charged && t'.tmp == t.tmp - {p}
  {
    assert t.tmp[p := FilesOf(e)] - {p} == t.tmp - {p};
    assert Publish(Leased(WithTemp(t, p, e), p, at, FilesOf(e)), t.next, e.id).dirs - {PutLock} == t.dirs;
  }

  /**
   An undisturbed Put of a new digest into a store with room and a free lock publishes exactly that
   entry, leaves every lease directory as it was, and succeeds.
   */
  lemma SoloPut(c: Config, s: State, p: Pid, e: Entry, at: int) returns (acts: Schedule)
    requires Free(PcOf(s, p)) && PutLock !in s.tree.dirs && Release(s.tree.next) !in s.tree.dirs
    requires e.id !in s.tree.entries && |s.tree.entries| < c.maxItems && s.tree.next !in s.tree.h.displaced
    ensures Run(c, s, acts) == Some(Goto(s, Effect(AfterPut(s.tree, p, e, at), Done(Stored(e))), p))
    ensures var t' := AfterPut(s.tree, p, e, at);
            t'.entries == s.tree.entries[e.id := Files(Some(e.id.payload), Some(e))] && t'.dirs == s.tree.dirs
            && t'.h.displaced == s.tree.h.displaced && t'.h.charged == s.tree.h.charged
  {
    var t, pc := s.tree, PcOf(s, p);
    AfterPutFacts(t, p, e, at);
    var path, to := SoloPath(c, t, p, pc, e, at);
    acts := Follow(c, s, p, path, to);
  }

  lemma SoloPath(c: Config, t: Tree, p: Pid, pc: Pc, e: Entry, at: int) returns (path: Path, to: Effect)
    requires Free(pc) && PutLock !in t.dirs && Release(t.next) !in t.dirs
    requires e.id !in t.entries && |t.entries| < c.maxItems
    ensures to == Effect(AfterPut(t, p, e, at), Done(Stored(e))) && Leads(c, p, path, Effect(t, pc), to) && |path.xs| > 0
  {
    var t1 := WithTemp(t, p, e);
    var t2 := Leased(t1, p, at, FilesOf(e));
    var e1, e2 := Effect(t1, Acquire(Put(e), 0, at)), Effect(t2, Commit(Put(e), t.next));
    to := Effect(AfterPut(t, p, e, at), Done(Stored(e)));
    var a := Prepare(c, t, p, pc, e, at);
    var b := LeaseAndCheck(c, t1, p, e, 0, at);
    var d := CommitAndRelease(c, t2, p, e, t.next);
    JoinLeads(c, p, a, b, Effect(t, pc), e1, e2);
    JoinLeads(c, p, Join(a, b), d, Effect(t, pc), e2, to);
    path := Join(Join(a, b), d);
  }

  /** An undisturbed Put of a stored digest returns the stored entry, or fails on other metadata. */
  lemma SoloPutAgain(c: Config, s: State, p: Pid, e: Entry) returns (acts: Schedule)
    requires Free(PcOf(s, p)) && e.id in s.tree.entries
    ensures Run(c, s, acts) == Some(Goto(s, Effect(s.tree,
              Done(if s.tree.entries[e.id] == Files(Some(e.id.payload), Some(e)) then Stored(e) else Failed)), p))
  {
    var t, job := s.tree, Put(e);
    var path := Path([Effect(t, PcOf(s, p)), Effect(t, Lookup(job)), Effect(t, Reuse(job, None, NoLeftover)),
                      Effect(t, Done(ReuseOutcome(t, e)))], [Begin(job), Go, Go]);
    acts := Follow(c, s, p, path, path.es[3]);
  }

  lemma DeleteGoes(c: Config, t: Tree, p: Pid, pc: Pc)
    requires DeleteStep(t, pc).Some?
    ensures StepEffect(c, t, p, pc, Go) == DeleteStep(t, pc)
  {
  }

  predicate StoresPrivate(t: Tree, e: Entry) {
    e.id in t.entries && t.entries[e.id] == Files(Some(e.id.payload), Some(e)) && e.kind == PrivateRaw
  }

  /** A DeletePrivate runs up to its removal, past every check. */
  lemma UpToRemoval(c: Config, t: Tree, p: Pid, pc: Pc, e: Entry, at: int) returns (path: Path)
    requires Free(pc) && PutLock !in t.dirs && StoresPrivate(t, e)
    ensures Leads(c, p, path, Effect(t, pc), Effect(CreateLock(t, at), DelRemove(DeletePrivate(e.id), t.next, e)))
    ensures |path.xs| > 0
  {
    var t', job, n := CreateLock(t, at), DeletePrivate(e.id), t.next;
    assert Load(t, e.id) == Some(e) && Load(t', e.id) == Some(e);
    var es := [Effect(t, pc), Effect(t, FirstLoad(job)), Effect(t, Acquire(job, 0, at)), Effect(t', DelReload(job, n)),
               Effect(t', DelAssert(job, n, e)), Effect(t', DelRemove(job, n, e))];
    AcquireGoes(c, t, p, es[2].pc);
    DeleteGoes(c, t', p, es[3].pc);
    DeleteGoes(c, t', p, es[4].pc);
    path := Path(es, [Begin(job), Clock(at), Go, Go, Go]);
  }

  /** The tree an undisturbed DeletePrivate leaves behind. */
  function AfterDelete(t: Tree, id: Digest, at: int): Tree {
    RemoveDir(RemoveEntry(CreateLock(t, at), id), PutLock)
  }

  lemma RemoveAndRelease(c: Config, t: Tree, p: Pid, e: Entry, n: Nonce) returns (path: Path)
    requires LockIs(t, n) && Release(n) !in t.dirs
    ensures Leads(c, p, path, Effect(t, DelRemove(DeletePrivate(e.id), n, e)),
                  Effect(RemoveDir(RemoveEntry(t, e.id), PutLock), Done(Removed(e))))
  {
    var from := Effect(t, DelRemove(DeletePrivate(e.id), n, e));
    var mid := Effect(RemoveEntry(t, e.id), RelInspect(DeletePrivate(e.id), n, Removed(e), NoLeftover));
    DeleteGoes(c, t, p, from.pc);
    var first := One(c, p, from, Go, mid);
    var rest := ReleaseHeld(c, mid.tree, p, DeletePrivate(e.id), n, Removed(e));
    path := Join(first, rest);
    JoinLeads(c, p, first, rest, from, mid, Effect(RemoveDir(mid.tree, PutLock), Done(Removed(e))));
  }

  /**
   An undisturbed DeletePrivate of a private raw entry removes exactly that entry, leaves every lease directory
   as it was, and answers with the entry.
   */
  lemma SoloDelete(c: Config, s: State, p: Pid, e: Entry, at: int) returns (acts: Schedule)
    requires Free(PcOf(s, p)) && PutLock !in s.tree.dirs && Release(s.tree.next) !in s.tree.dirs
    requires StoresPrivate(s.tree, e)
    ensures Run(c, s, acts) == Some(Goto(s, Effect(AfterDelete(s.tree, e.id, at), Done(Removed(e))), p))
    ensures var t' := AfterDelete(s.tree, e.id, at);
            t'.entries == s.tree.entries - {e.id} && t'.dirs == s.tree.dirs && t'.tmp == s.tree.tmp
            && t'.h.displaced == s.tree.h.displaced && t'.h.charged == s.tree.h.charged
  {
    var t, t1 := s.tree, CreateLock(s.tree, at);
    var mid := Effect(t1, DelRemove(DeletePrivate(e.id), t.next, e));
    var to := Effect(AfterDelete(t, e.id, at), Done(Removed(e)));
    var a := UpToRemoval(c, t, p, PcOf(s, p), e, at);
    var b := RemoveAndRelease(c, t1, p, e, t.next);
    JoinLeads(c, p, a, b, Here(s, p), mid, to);
    acts := Follow(c, s, p, Join(a, b), to);
    assert t.dirs[PutLock := t1.dirs[PutLock]] - {PutLock} == t.dirs;
  }

  /** A DeletePrivate of a digest under which no complete private raw entry is stored fails at once and changes nothing. */
  lemma SoloDeleteRefused(c: Config, s: State, p: Pid, id: Digest, at: int) returns (acts: Schedule)
    requires Free(PcOf(s, p))
    requires forall e: Entry :: e.id == id ==> !StoresPrivate(s.tree, e)
    ensures Run(c, s, acts) == Some(Goto(s, Effect(s.tree, Done(Failed)), p))
  {
    var job := DeletePrivate(id);
    if Load(s.tree, id).Some? {
      assert !StoresPrivate(s.tree, Load(s.tree, id).value);
    }
    var path := Path([Here(s, p), Effect(s.tree, FirstLoad(job)), Effect(s.tree, Done(Failed))], [Begin(job), Clock(at)]);
    acts := Follow(c, s, p, path, path.es[2]);
  }
}
