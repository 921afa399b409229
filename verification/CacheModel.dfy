/**
 The private cache as a set of callers that share one directory tree.

 A state holds the tree and the program counter of every caller. One call of `Step` is one
 atomic file-system operation of one caller, so a sequence of (caller, choice) pairs is one
 interleaving of any number of Put, DeletePrivate and Prune calls; a caller that is never
 scheduled again has crashed. Inspecting a lease and renaming it are separate steps.
 */
module CacheModel {
  import opened Wrappers

  type Pid = nat
  type Nonce = nat
  type Payload = seq<bv8>

  /** SHA-256 is taken to be injective: a digest is identified with the payload it hashes. */
  datatype Digest = Sha256(payload: Payload)

  datatype Kind = PrivateRaw | NormalizedEvidence | Profile | ReviewBundle

  /** A manifest: the digest is its identifier, `rest` stands for the other caller-owned metadata. */
  datatype Entry = Entry(id: Digest, kind: Kind, expiresAt: Option<int>, rest: string)

  /** The directory of an entry while it is written and after it is published. */
  datatype Files = Files(payload: Option<Payload>, manifest: Option<Entry>)

  datatype Owner = Owner(nonce: Nonce, acquiredAt: int)

  /** A lease directory: owner.json and the transactions staged inside it, by nonce. */
  datatype Lease = Lease(owner: Owner, staged: map<Nonce, Files>)

  datatype Place = PutLock | Recovery(attempt: Nonce) | Release(attempt: Nonce)

  datatype Job = Put(entry: Entry) | DeletePrivate(id: Digest) | PruneAt(at: int)

  datatype Outcome = Stored(entry: Entry) | Removed(entry: Entry) | Pruned(removed: map<Digest, Entry>) | Failed

  /** What the deferred clean-up of Put removes. */
  datatype Leftover = NoLeftover | Temporary | StagedCopy

  /** `k` counts acquisition attempts, `n` is the nonce of the current attempt or of the held lease. */
  datatype Pc =
    | Idle
    | Lookup(job: Job)
    | Reuse(job: Job, lease: Option<Nonce>, left: Leftover)
    | MakeTemp(job: Job)
    | WritePayload(job: Job)
    | WriteManifest(job: Job)
    | Ready(job: Job)
    | FirstLoad(job: Job)
    | Acquire(job: Job, k: nat, at: int)
    | Inspect(job: Job, k: nat, at: int, n: Nonce)
    | Steal(job: Job, k: nat, at: int, n: Nonce, seen: Owner)
    | Reread(job: Job, k: nat, at: int, n: Nonce, seen: Owner)
    | Restore(job: Job, n: Nonce)
    | Discard(job: Job, k: nat, at: int, n: Nonce, seen: Owner)
    | Stage(job: Job, n: Nonce)
    | AssertOwned(job: Job, n: Nonce)
    | Recheck(job: Job, n: Nonce)
    | Capacity(job: Job, n: Nonce)
    | CommitAssert(job: Job, n: Nonce)
    | Commit(job: Job, n: Nonce)
    | CommitFailed(job: Job, n: Nonce)
    | DelReload(job: Job, n: Nonce)
    | DelAssert(job: Job, n: Nonce, entry: Entry)
    | DelRemove(job: Job, n: Nonce, entry: Entry)
    | RelInspect(job: Job, n: Nonce, out: Outcome, left: Leftover)
    | RelRename(job: Job, n: Nonce, out: Outcome, left: Leftover)
    | RelReread(job: Job, n: Nonce, out: Outcome, left: Leftover)
    | RelProbe(job: Job, n: Nonce, left: Leftover)
    | RelRestore(job: Job, n: Nonce, left: Leftover)
    | RelRemove(job: Job, n: Nonce, out: Outcome, left: Leftover)
    | Cleanup(job: Job, n: Nonce, out: Outcome, left: Leftover)
    | Listing(at: int)
    | Scanning(at: int, todo: set<Digest>, marked: map<Digest, Entry>)
    | Sweeping(at: int, todo: set<Digest>, marked: map<Digest, Entry>)
    | Done(out: Outcome)

  /** Book-keeping that no caller reads: what happened to each lease so far. */
  datatype History = History(
    stamp: map<Nonce, int>,      // every lease ever created and its acquisition time
    displaced: set<Nonce>,       // renamed off .put-lock by a caller that had inspected another lease
    recovered: set<Nonce>,       // directory removed by stale recovery
    committed: set<Nonce>,       // commit rename succeeded
    charged: set<Nonce>)         // committed although already displaced

  /** Everything on disk, the source of fresh nonces, and the book-keeping. */
  datatype Tree = Tree(
    dirs: map<Place, Lease>,
    tmp: map<Pid, Files>,
    entries: map<Digest, Files>,
    next: Nonce,
    h: History)

  datatype State = State(tree: Tree, procs: map<Pid, Pc>)

  datatype Config = Config(maxItems: nat, leaseDuration: int)

  /** The nondeterminism of one step: which call to begin, the clock, cancellation, the entry Prune turns to. */
  datatype Choice = Begin(job: Job) | Clock(at: int) | Cancel | Go | Visit(id: Digest) | Sweep(id: Digest)

  /** What one step does: the new tree and where the caller continues. */
  datatype Effect = Effect(tree: Tree, pc: Pc)

  const EMPTY := Tree(map[], map[], map[], 0, History(map[], {}, {}, {}, {}))
  const INITIAL := State(EMPTY, map[])

  function PcOf(s: State, p: Pid): Pc {
    if p in s.procs then s.procs[p] else Idle
  }

  predicate LockIs(t: Tree, n: Nonce) {
    PutLock in t.dirs && t.dirs[PutLock].owner.nonce == n
  }

  predicate LeaseExpired(c: Config, o: Owner, at: int) {
    o.acquiredAt + c.leaseDuration <= at
  }

  predicate EntryExpired(e: Entry, at: int) {
    e.expiresAt.Some? && e.expiresAt.value <= at
  }

  function FilesOf(e: Entry): Files {
    Files(Some(e.id.payload), Some(e))
  }

  /** `load`: succeeds exactly when manifest and payload are there and agree with the directory name. */
  function Load(t: Tree, id: Digest): Option<Entry> {
    if id in t.entries && t.entries[id].manifest.Some? && t.entries[id].payload.Some?
       && t.entries[id].manifest.value.id == id && Sha256(t.entries[id].payload.value) == id
    then t.entries[id].manifest
    else None
  }

  function ReuseOutcome(t: Tree, e: Entry): Outcome {
    if Load(t, e.id) == Some(e) then Stored(e) else Failed
  }

  /** Renames the directory at `from` to `to`, which does not exist. */
  function Move(t: Tree, from: Place, to: Place): Tree
    requires from in t.dirs
  {
    t.(dirs := (t.dirs - {from})[to := t.dirs[from]])
  }

  /** Renames .put-lock away on behalf of a caller that inspected lease `expected` there. */
  function MoveLock(t: Tree, to: Place, expected: Nonce): Tree
    requires PutLock in t.dirs
  {
    var moved := t.dirs[PutLock].owner.nonce;
    var t' := Move(t, PutLock, to);
    if moved == expected then t' else t'.(h := t'.h.(displaced := t.h.displaced + {moved}))
  }

  /** Mkdir of .put-lock together with its owner.json. */
  function CreateLock(t: Tree, at: int): Tree {
    t.(next := t.next + 1,
       dirs := t.dirs[PutLock := Lease(Owner(t.next, at), map[])],
       h := t.h.(stamp := t.h.stamp[t.next := at]))
  }

  function RemoveDir(t: Tree, place: Place): Tree {
    t.(dirs := t.dirs - {place})
  }

  /** Removal of a stale lease directory by its recoverer. */
  function RemoveStale(t: Tree, place: Place): Tree
    requires place in t.dirs
  {
    RemoveDir(t, place).(h := t.h.(recovered := t.h.recovered + {t.dirs[place].owner.nonce}))
  }

  function StageIn(t: Tree, p: Pid, n: Nonce): Tree
    requires PutLock in t.dirs && p in t.tmp
  {
    var lock := t.dirs[PutLock];
    t.(tmp := t.tmp - {p}, dirs := t.dirs[PutLock := lock.(staged := lock.staged[n := t.tmp[p]])])
  }

  function Unstage(t: Tree, n: Nonce): Tree {
    if PutLock !in t.dirs then t
    else
      var lock := t.dirs[PutLock];
      t.(dirs := t.dirs[PutLock := lock.(staged := lock.staged - {n})])
  }

  /** The commit rename: from the transaction of nonce n under .put-lock to the entry directory. */
  function Publish(t: Tree, n: Nonce, id: Digest): Tree
    requires PutLock in t.dirs && n in t.dirs[PutLock].staged
  {
    Unstage(t, n).(
      entries := t.entries[id := t.dirs[PutLock].staged[n]],
      h := t.h.(committed := t.h.committed + {n},
                charged := if n in t.h.displaced then t.h.charged + {n} else t.h.charged))
  }

  function RemoveEntry(t: Tree, id: Digest): Tree {
    t.(entries := t.entries - {id})
  }

  function Step(c: Config, s: State, p: Pid, x: Choice): Option<State> {
    var effect := StepEffect(c, s.tree, p, PcOf(s, p), x);
    if effect.Some? then Some(State(effect.value.tree, s.procs[p := effect.value.pc])) else None
  }

  function StepEffect(c: Config, t: Tree, p: Pid, pc: Pc, x: Choice): Option<Effect> {
    match x
    case Begin(job) => if pc.Idle? || pc.Done? then Some(Effect(t, FirstPc(job))) else None
    case Visit(_) => PruneStep(c, t, pc, x)
    case Sweep(_) => PruneStep(c, t, pc, x)
    case Cancel =>
      if pc.Ready? then Some(Effect(t, Cleanup(pc.job, 0, Failed, Temporary))) else PruneStep(c, t, pc, x)
    case Clock(at) =>
      if pc.Ready? then Some(Effect(t, Acquire(pc.job, 0, at)))
      else if pc.FirstLoad? && pc.job.DeletePrivate? then
        var e := Load(t, pc.job.id);
        Some(Effect(t, if e.Some? && e.value.kind == PrivateRaw then Acquire(pc.job, 0, at) else Done(Failed)))
      else None
    case Go =>
      var acquire := AcquireStep(c, t, pc);
      var put := PutStep(c, t, p, pc);
      var delete := DeleteStep(t, pc);
      var release := ReleaseStep(t, p, pc);
      if acquire.Some? then acquire
      else if put.Some? then put
      else if delete.Some? then delete
      else if release.Some? then release
      else PruneStep(c, t, pc, x)
  }

  function FirstPc(job: Job): Pc {
    match job
    case Put(_) => Lookup(job)
    case DeletePrivate(_) => FirstLoad(job)
    case PruneAt(at) => Listing(at)
  }

  function AcquireFailed(job: Job): Pc {
    if job.Put? then Cleanup(job, 0, Failed, Temporary) else Done(Failed)
  }

  /** The attempts of `acquirePutLease`; every attempt draws a fresh nonce. */
  function AcquireStep(c: Config, t: Tree, pc: Pc): Option<Effect> {
    match pc
    case Acquire(job, k, at) =>
      if k >= 4 then Some(Effect(t, AcquireFailed(job)))
      else if PutLock in t.dirs then Some(Effect(t.(next := t.next + 1), Inspect(job, k, at, t.next)))
      else Some(Effect(CreateLock(t, at), if job.Put? then Stage(job, t.next) else DelReload(job, t.next)))
    case Inspect(job, k, at, n) =>
      if PutLock !in t.dirs || !LeaseExpired(c, t.dirs[PutLock].owner, at)
      then Some(Effect(t, AcquireFailed(job)))
      else Some(Effect(t, Steal(job, k, at, n, t.dirs[PutLock].owner)))
    case Steal(job, k, at, n, seen) =>
      if PutLock !in t.dirs then Some(Effect(t, Acquire(job, k + 1, at)))
      else Some(Effect(MoveLock(t, Recovery(n), seen.nonce), Reread(job, k, at, n, seen)))
    case Reread(job, k, at, n, seen) =>
      if Recovery(n) in t.dirs && t.dirs[Recovery(n)].owner.nonce == seen.nonce
         && LeaseExpired(c, t.dirs[Recovery(n)].owner, at)
      then Some(Effect(t, Discard(job, k, at, n, seen)))
      else Some(Effect(t, Restore(job, n)))
    case Restore(job, n) =>
      Some(Effect(if Recovery(n) in t.dirs && PutLock !in t.dirs then Move(t, Recovery(n), PutLock) else t,
                  AcquireFailed(job)))
    case Discard(job, k, at, n, seen) =>
      Some(Effect(if Recovery(n) in t.dirs then RemoveStale(t, Recovery(n)) else t, Acquire(job, k + 1, at)))
    case _ => None
  }

  /** Put up to and from the lease: staging, ownership check, capacity check, fenced commit, reuse. */
  function PutStep(c: Config, t: Tree, p: Pid, pc: Pc): Option<Effect> {
    match pc
    case Lookup(Put(e)) =>
      Some(Effect(t, if e.id in t.entries then Reuse(pc.job, None, NoLeftover) else MakeTemp(pc.job)))
    case Reuse(Put(e), lease, left) =>
      var out := ReuseOutcome(t, e);
      Some(Effect(t, if lease.Some? then RelInspect(pc.job, lease.value, out, left) else Done(out)))
    case MakeTemp(Put(e)) => Some(Effect(t.(tmp := t.tmp[p := Files(None, None)]), WritePayload(pc.job)))
    case WritePayload(Put(e)) =>
      Some(Effect(t.(tmp := t.tmp[p := Files(Some(e.id.payload), None)]), WriteManifest(pc.job)))
    case WriteManifest(Put(e)) => Some(Effect(t.(tmp := t.tmp[p := FilesOf(e)]), Ready(pc.job)))
    case Stage(job, n) =>
      if PutLock in t.dirs && p in t.tmp
      then Some(Effect(StageIn(t, p, n), AssertOwned(job, n)))
      else Some(Effect(t, RelInspect(job, n, Failed, Temporary)))
    case AssertOwned(job, n) =>
      Some(Effect(t, if LockIs(t, n) then Recheck(job, n) else RelInspect(job, n, Failed, StagedCopy)))
    case Recheck(Put(e), n) =>
      Some(Effect(t, if e.id in t.entries then Reuse(pc.job, Some(n), StagedCopy) else Capacity(pc.job, n)))
    case Capacity(job, n) =>
      Some(Effect(t, if |t.entries| >= c.maxItems
                     then RelInspect(job, n, Failed, StagedCopy) else CommitAssert(job, n)))
    case CommitAssert(job, n) =>
      Some(Effect(t, if LockIs(t, n) then Commit(job, n) else CommitFailed(job, n)))
    case Commit(Put(e), n) =>
      if PutLock in t.dirs && n in t.dirs[PutLock].staged && e.id !in t.entries
      then Some(Effect(Publish(t, n, e.id), RelInspect(pc.job, n, Stored(e), NoLeftover)))
      else Some(Effect(t, CommitFailed(pc.job, n)))
    case CommitFailed(Put(e), n) =>
      Some(Effect(t, if e.id in t.entries then Reuse(pc.job, Some(n), StagedCopy)
                     else RelInspect(pc.job, n, Failed, StagedCopy)))
    case _ => None
  }

  /** DeletePrivate under its lease: reload, ownership check, removal. */
  function DeleteStep(t: Tree, pc: Pc): Option<Effect> {
    match pc
    case DelReload(DeletePrivate(id), n) =>
      var e := Load(t, id);
      Some(Effect(t, if e.Some? && e.value.kind == PrivateRaw
                     then DelAssert(pc.job, n, e.value)
                     else RelInspect(pc.job, n, Failed, NoLeftover)))
    case DelAssert(job, n, e) =>
      Some(Effect(t, if LockIs(t, n) then DelRemove(job, n, e) else RelInspect(job, n, Failed, NoLeftover)))
    case DelRemove(DeletePrivate(id), n, e) =>
      Some(Effect(RemoveEntry(t, id), RelInspect(pc.job, n, Removed(e), NoLeftover)))
    case _ => None
  }

  /** `releasePutLease` and then Put's deferred removal; a failed release turns success into failure. */
  function ReleaseStep(t: Tree, p: Pid, pc: Pc): Option<Effect> {
    match pc
    case RelInspect(job, n, out, left) =>
      Some(Effect(t, if LockIs(t, n) then RelRename(job, n, out, left) else Cleanup(job, n, Failed, left)))
    case RelRename(job, n, out, left) =>
      if PutLock !in t.dirs then Some(Effect(t, Cleanup(job, n, Failed, left)))
      else Some(Effect(MoveLock(t, Release(n), n), RelReread(job, n, out, left)))
    case RelReread(job, n, out, left) =>
      Some(Effect(t, if Release(n) in t.dirs && t.dirs[Release(n)].owner.nonce == n
                     then RelRemove(job, n, out, left) else RelProbe(job, n, left)))
    case RelProbe(job, n, left) =>
      Some(Effect(t, if PutLock !in t.dirs then RelRestore(job, n, left) else Cleanup(job, n, Failed, left)))
    case RelRestore(job, n, left) =>
      Some(Effect(if Release(n) in t.dirs && PutLock !in t.dirs then Move(t, Release(n), PutLock) else t,
                  Cleanup(job, n, Failed, left)))
    case RelRemove(job, n, out, left) =>
      Some(Effect(RemoveDir(t, Release(n)), Cleanup(job, n, out, left)))
    case Cleanup(job, n, out, left) =>
      Some(Effect(match left
                  case NoLeftover => t
                  case Temporary => t.(tmp := t.tmp - {p})
                  case StagedCopy => Unstage(t, n),
                  Done(out)))
    case _ => None
  }

  /**
   Prune reads the directory, verifies every entry it found there and notes the expired ones, and then removes
   what it noted. An entry that does not load ends it before anything is removed, and so does a store that
   holds more entries than the limit.
   */
  function PruneStep(c: Config, t: Tree, pc: Pc, x: Choice): Option<Effect> {
    match (pc, x)
    case (Listing(at), Go) =>
      Some(Effect(t, if |t.entries| > c.maxItems then Done(Failed) else Scanning(at, t.entries.Keys, map[])))
    case (Scanning(at, todo, marked), Visit(id)) =>
      if id !in todo then None
      else
        var e := Load(t, id);
        Some(Effect(t, if e.None? then Done(Failed)
                       else if EntryExpired(e.value, at) then Scanning(at, todo - {id}, marked[id := e.value])
                       else Scanning(at, todo - {id}, marked)))
    case (Scanning(at, todo, marked), Go) =>
      if todo == {} then Some(Effect(t, Sweeping(at, marked.Keys, marked))) else None
    case (Sweeping(at, todo, marked), Sweep(id)) =>
      if id in todo then Some(Effect(RemoveEntry(t, id), Sweeping(at, todo - {id}, marked))) else None
    case (Sweeping(_, todo, marked), Go) => if todo == {} then Some(Effect(t, Done(Pruned(marked)))) else None
    case (Scanning(_, todo, _), Cancel) => if todo != {} then Some(Effect(t, Done(Failed))) else None
    case (Sweeping(_, todo, _), Cancel) => if todo != {} then Some(Effect(t, Done(Failed))) else None
    case _ => None
  }

  /** One interleaving, and the state it leads to when every step of it is enabled. */
  type Schedule = seq<(Pid, Choice)>

  function Run(c: Config, s: State, acts: Schedule): Option<State>
    decreases |acts|
  {
    if acts == [] then Some(s)
    else
      var s' := Run(c, s, acts[..|acts| - 1]);
      var (p, x) := acts[|acts| - 1];
      if s'.Some? then Step(c, s'.value, p, x) else None
  }

  /** A state some interleaving reaches from the empty cache. */
  ghost predicate Reachable(c: Config, s: State) {
    exists acts: Schedule :: Run(c, INITIAL, acts) == Some(s)
  }
}
