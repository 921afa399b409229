/**
 Popup and frame contexts of an authenticated session: an append-only forest below the main page.
 The session adds contexts one by one or in batches, the result builder validates the forest again
 and selects the part a profile needs.
 */
module Contexts {
  import opened Wrappers
  import opened PageText

  /** `shaped` text is an identifier other than the reserved name of the main page. */
  datatype ContextId = Main | Named(text: string, shaped: bool)

  datatype ContextKind = Popup | Frame | OtherContext(text: string)

  datatype Context = Context(kind: ContextKind, parent: ContextId, origin: Origin, path: Option<Path>, name: Option<Label>)

  type Table = map<ContextId, Context>

  const MAX_CONTEXTS := 64
  const MAX_DEPTH := 4

  /** A context that is valid by itself: identity, kind, approved origin, and metadata of its kind. */
  predicate ContextOk(origins: set<Origin>, id: ContextId, c: Context) {
    && id.Named? && id.shaped && !c.kind.OtherContext?
    && c.origin.exact && c.origin in origins
    && (c.kind == Popup ==> c.path.None? && c.name.None?)
    && (c.kind == Frame ==> c.path.Some? || c.name.Some?)
    && (c.name.Some? ==> PromotableLabel(c.name.value))
    && (c.path.Some? ==> c.path.value.disclosable)
  }

  /** The chain of parents from id ends at the main page after at most n contexts. */
  predicate Reaches(m: Table, id: ContextId, n: nat)
    decreases n
  {
    id == Main || (n > 0 && id in m && Reaches(m, m[id].parent, n - 1))
  }

  predicate Rooted(m: Table) {
    forall id <- m :: Reaches(m, id, MAX_DEPTH)
  }

  /** At most 64 valid contexts, acyclic and at most four deep. */
  predicate Forest(origins: set<Origin>, m: Table) {
    |m| <= MAX_CONTEXTS && Rooted(m) && forall id <- m :: ContextOk(origins, id, m[id])
  }

  ghost predicate Within(m: Table, all: Table) {
    forall id <- m :: id in all && all[id] == m[id]
  }

  lemma {:induction false} ReachesMore(m: Table, id: ContextId, n: nat, k: nat)
    requires Reaches(m, id, n) && n <= k
    ensures Reaches(m, id, k)
    decreases n
  {
    if id != Main {
      ReachesMore(m, m[id].parent, n - 1, k - 1);
    }
  }

  lemma {:induction false} ReachesUp(m: Table, all: Table, id: ContextId, n: nat)
    requires Within(m, all) && Reaches(m, id, n)
    ensures Reaches(all, id, n)
    decreases n
  {
    if id != Main {
      ReachesUp(m, all, m[id].parent, n - 1);
    }
  }

  lemma {:induction false} ReachesDown(m: Table, all: Table, id: ContextId, n: nat)
    requires Within(m, all) && Rooted(m) && (id == Main || id in m) && Reaches(all, id, n)
    ensures Reaches(m, id, n)
    decreases n
  {
    if id != Main {
      ParentKnown(m, id);
      ReachesDown(m, all, m[id].parent, n - 1);
    }
  }

  /** The number of contexts from id up to the main page: the distance that every walk decreases. */
  function Height(m: Table, id: ContextId, n: nat): (h: nat)
    requires Reaches(m, id, n)
    ensures h <= n
    decreases n
  {
    if id == Main then 0 else 1 + Height(m, m[id].parent, n - 1)
  }

  lemma {:induction false} HeightIndependent(m: Table, id: ContextId, n: nat, k: nat)
    requires Reaches(m, id, n) && Reaches(m, id, k)
    ensures Height(m, id, n) == Height(m, id, k)
    decreases n
  {
    if id != Main {
      HeightIndependent(m, m[id].parent, n - 1, k - 1);
    }
  }

  /** A context is strictly higher than its parent, so no chain of parents repeats. */
  lemma ParentLower(m: Table, id: ContextId)
    requires Rooted(m) && id in m && id != Main
    ensures Reaches(m, m[id].parent, MAX_DEPTH)
    ensures Height(m, m[id].parent, MAX_DEPTH) < Height(m, id, MAX_DEPTH)
  {
    assert Reaches(m, id, MAX_DEPTH);
    ReachesMore(m, m[id].parent, MAX_DEPTH - 1, MAX_DEPTH);
    HeightIndependent(m, m[id].parent, MAX_DEPTH - 1, MAX_DEPTH);
  }

  lemma ParentKnown(m: Table, id: ContextId)
    requires Rooted(m) && id in m && id != Main
    ensures Reaches(m, m[id].parent, MAX_DEPTH - 1) && (m[id].parent == Main || m[id].parent in m)
  {
    assert Reaches(m, id, MAX_DEPTH);
  }

  // One context.

  predicate Addable(origins: set<Origin>, m: Table, id: ContextId, c: Context) {
    && ContextOk(origins, id, c)
    && (id in m ==> m[id] == c) && (id !in m ==> |m| < MAX_CONTEXTS)
    && Reaches(m, c.parent, MAX_DEPTH - 1)
  }

  lemma AddKeepsRooted(m: Table, id: ContextId, c: Context)
    requires Rooted(m) && id !in m && Reaches(m, c.parent, MAX_DEPTH - 1)
    ensures Rooted(m[id := c])
  {
    var m' := m[id := c];
    assert Within(m, m');
    ReachesUp(m, m', c.parent, MAX_DEPTH - 1);
    forall k <- m ensures Reaches(m', k, MAX_DEPTH) {
      ReachesUp(m, m', k, MAX_DEPTH);
    }
  }

  lemma AddKeepsForest(origins: set<Origin>, m: Table, id: ContextId, c: Context)
    requires Forest(origins, m) && Addable(origins, m, id, c)
    ensures Forest(origins, m[id := c])
  {
    hide Reaches, ContextOk, Rooted;
    if id in m {
      assert m[id := c] == m;
    } else {
      assert m[id := c].Keys == m.Keys + {id};
      AddKeepsRooted(m, id, c);
    }
  }

  /** Adds one context whose parent is known, or refuses it; known contexts never change. */
  method AddContext(origins: set<Origin>, contexts: Table, id: ContextId, c: Context) returns (ok: bool, r: Table)
    requires Forest(origins, contexts)
    ensures ok <==> Addable(origins, contexts, id, c)
    ensures r == if ok then contexts[id := c] else contexts
    ensures Forest(origins, r)
  {
    r := contexts;
    if !ContextOk(origins, id, c) { return false, r; }
    if c.parent != Main && c.parent !in contexts { return false, r; }
    if id in contexts && contexts[id] != c { return false, r; }
    if id !in contexts && |contexts| >= MAX_CONTEXTS { return false, r; }
    var depth, parent := 1, c.parent;
    if id in contexts { ParentLower(contexts, id); }
    while parent != Main
      invariant 1 <= depth <= MAX_DEPTH
      invariant parent == Main || parent in contexts
      invariant Reaches(contexts, c.parent, MAX_DEPTH - 1) <==> Reaches(contexts, parent, MAX_DEPTH - depth)
      invariant id in contexts ==> Reaches(contexts, parent, MAX_DEPTH) && Reaches(contexts, id, MAX_DEPTH)
                                   && Height(contexts, parent, MAX_DEPTH) < Height(contexts, id, MAX_DEPTH)
      decreases MAX_DEPTH - depth
    {
      if depth >= MAX_DEPTH { return false, r; }
      if parent !in contexts || parent == id { return false, r; }
      assert Reaches(contexts, parent, MAX_DEPTH);
      ParentLower(contexts, parent);
      parent, depth := contexts[parent].parent, depth + 1;
      if parent != Main { assert parent in contexts; }
    }
    AddKeepsForest(origins, contexts, id, c);
    return true, contexts[id := c];
  }

  // Batches.

  /** A batch that agrees with the known contexts and together with them is a forest. */
  predicate Joinable(origins: set<Origin>, m: Table, batch: Table) {
    (forall id <- batch :: id in m ==> m[id] == batch[id]) && Forest(origins, m + batch)
  }

  /** `now` is the known contexts with the part of the batch that no longer remains. */
  ghost predicate Partly(known: Table, batch: Table, now: Table, remaining: Table) {
    && (forall id <- remaining :: id in batch && batch[id] == remaining[id])
    && (forall id :: id in now <==> id in known || (id in batch && id !in remaining))
    && (forall id <- known :: now[id] == known[id])
    && (forall id <- batch :: id !in remaining ==> now[id] == batch[id])
  }

  lemma PartlyWithin(origins: set<Origin>, known: Table, batch: Table, now: Table, remaining: Table)
    requires Partly(known, batch, now, remaining) && Joinable(origins, known, batch)
    ensures Within(now, known + batch)
  {
  }

  /** In a joinable batch whatever is not held back by a pending parent can be added. */
  lemma ReadyIsAddable(origins: set<Origin>, known: Table, batch: Table, now: Table, remaining: Table, id: ContextId)
    requires Forest(origins, now) && Partly(known, batch, now, remaining) && Joinable(origins, known, batch)
    requires id in remaining && !(remaining[id].parent != Main && remaining[id].parent !in now && remaining[id].parent in remaining)
    ensures Addable(origins, now, id, remaining[id])
  {
    hide Reaches, ContextOk;
    var all := known + batch;
    PartlyWithin(origins, known, batch, now, remaining);
    assert id in all && all[id] == remaining[id];
    var parent := remaining[id].parent;
    NamedNotMain(origins, all, id);
    ParentKnown(all, id);
    ReachesDown(now, all, parent, MAX_DEPTH - 1);
    if id !in now {
      assert now.Keys <= all.Keys - {id};
      SmallerSet(now.Keys, all.Keys, id);
    }
  }

  lemma NamedNotMain(origins: set<Origin>, m: Table, id: ContextId)
    requires Forest(origins, m) && id in m
    ensures id != Main && ContextOk(origins, id, m[id])
  {
    hide Reaches;
  }

  lemma SmallerSet(a: set<ContextId>, b: set<ContextId>, x: ContextId)
    requires a <= b - {x} && x in b
    ensures |a| < |b|
  {
    var rest := b - {x} - a;
    assert b == a + rest + {x};
  }

  /** Pending parents cannot hold each other back in a forest: following them reaches the main page. */
  lemma {:induction false} NotAllHeldBack(all: Table, remaining: Table, id: ContextId, n: nat)
    requires id in remaining && Reaches(all, id, n)
    requires forall k <- remaining :: k in all && all[k].parent == remaining[k].parent
    requires forall k <- remaining :: k != Main && remaining[k].parent in remaining
    ensures false
    decreases n
  {
    NotAllHeldBack(all, remaining, remaining[id].parent, n - 1);
  }

  predicate HeldBack(now: Table, remaining: Table, id: ContextId)
    requires id in remaining
  {
    remaining[id].parent != Main && remaining[id].parent !in now && remaining[id].parent in remaining
  }

  lemma StuckIsNotJoinable(origins: set<Origin>, known: Table, batch: Table, now: Table, remaining: Table)
    requires Partly(known, batch, now, remaining) && remaining != map[]
    requires forall id <- remaining :: HeldBack(now, remaining, id)
    ensures !Joinable(origins, known, batch)
  {
    hide Forest, Partly, Reaches;
    if Joinable(origins, known, batch) {
      var id :| id in remaining;
      RemainingNamed(origins, known, batch, now, remaining);
      NotAllHeldBack(known + batch, remaining, id, MAX_DEPTH);
    }
  }

  lemma RemainingNamed(origins: set<Origin>, known: Table, batch: Table, now: Table, remaining: Table)
    requires Partly(known, batch, now, remaining) && Forest(origins, known + batch)
    ensures forall k <- remaining :: k != Main && k in known + batch && (known + batch)[k].parent == remaining[k].parent
    ensures forall k <- remaining :: Reaches(known + batch, k, MAX_DEPTH)
  {
    hide Reaches, ContextOk;
    forall k <- remaining ensures k != Main { NamedNotMain(origins, known + batch, k); }
  }

  /**
   Adds a batch in passes over what remains, in any order; a context waits while its parent is
   pending. Terminates, and accepts exactly the batches that are joinable.
   */
  method AddContexts(origins: set<Origin>, contexts: Table, batch: Table) returns (ok: bool, r: Table)
    requires Forest(origins, contexts)
    ensures ok <==> Joinable(origins, contexts, batch)
    ensures ok ==> r == contexts + batch
    ensures Forest(origins, r)
  {
    hide Forest, Partly, Joinable;
    r := contexts;
    var remaining := batch;
    PartlyStart(contexts, batch);
    while |remaining| > 0
      invariant Forest(origins, r) && Partly(contexts, batch, r, remaining)
      decreases |remaining|
    {
      var progress;
      ok, r, remaining, progress := AddPass(origins, contexts, batch, r, remaining);
      if !ok { return; }
      if !progress {
        StuckIsNotJoinable(origins, contexts, batch, r, remaining);
        return false, r;
      }
    }
    PartlyDone(origins, contexts, batch, r);
    ok := true;
  }

  lemma PartlyStart(known: Table, batch: Table)
    ensures Partly(known, batch, known, batch)
  {
  }

  lemma PartlyDone(origins: set<Origin>, known: Table, batch: Table, now: Table)
    requires Partly(known, batch, now, map[]) && Forest(origins, now)
    ensures now == known + batch && Joinable(origins, known, batch)
  {
    hide Forest;
    assert now == known + batch;
  }

  lemma FewerRemain(remaining: Table, id: ContextId)
    requires id in remaining
    ensures (remaining - {id}).Keys == remaining.Keys - {id} && |remaining - {id}| < |remaining|
  {
    assert (remaining - {id}).Keys == remaining.Keys - {id};
    assert |(remaining - {id}).Keys| == |remaining.Keys| - 1;
  }

  lemma PartlyStep(known: Table, batch: Table, now: Table, remaining: Table, id: ContextId)
    requires Partly(known, batch, now, remaining) && id in remaining && (id in now ==> now[id] == remaining[id])
    ensures Partly(known, batch, now[id := remaining[id]], remaining - {id})
    ensures |remaining - {id}| < |remaining|
  {
    FewerRemain(remaining, id);
  }

  method AddPass(origins: set<Origin>, ghost known: Table, ghost batch: Table, contexts: Table, pending: Table)
    returns (ok: bool, r: Table, remaining: Table, progress: bool)
    requires Forest(origins, contexts) && Partly(known, batch, contexts, pending) && |pending| > 0
    ensures Forest(origins, r)
    ensures !ok ==> !Joinable(origins, known, batch)
    ensures ok ==> Partly(known, batch, r, remaining)
    ensures ok && progress ==> |remaining| < |pending|
    ensures ok && !progress ==> remaining == pending && forall id <- remaining :: HeldBack(r, remaining, id)
  {
    hide Forest, Partly, Joinable;
    r, remaining, progress := contexts, pending, false;
    var ids := pending.Keys;
    while ids != {}
      invariant Forest(origins, r) && Partly(known, batch, r, remaining)
      invariant ids <= remaining.Keys && |remaining| <= |pending| && (progress ==> |remaining| < |pending|)
      invariant !progress ==> r == contexts && remaining == pending
                              && forall id <- remaining :: id !in ids ==> HeldBack(r, remaining, id)
      decreases |ids|
    {
      var id :| id in ids;
      ids := ids - {id};
      if !HeldBack(r, remaining, id) {
        var added;
        ghost var before := r;
        added, r := AddContext(origins, r, id, remaining[id]);
        if !added {
          if Joinable(origins, known, batch) { ReadyIsAddable(origins, known, batch, before, remaining, id); }
          return false, r, remaining, progress;
        }
        PartlyStep(known, batch, before, remaining, id);
        remaining := remaining - {id};
        progress := true;
      }
    }
    ok := true;
  }

  // The result builder's view of the same graph.

  predicate ResultContextOk(origins: set<Origin>, m: Table, id: ContextId) {
    && id in m && id.Named? && id.shaped && !m[id].kind.OtherContext? && (m[id].parent == Main || m[id].parent.shaped)
    && m[id].origin in origins
    && (m[id].kind == Popup ==> m[id].path.None? && m[id].name.None?)
    && (m[id].kind == Frame ==> m[id].path.Some? || m[id].name.Some?)
    && (m[id].path.Some? ==> m[id].path.value.disclosable)
  }

  /** Validates the graph of a build request: every walk to the main page is short and meets no gap or repeat. */
  method ValidateContexts(origins: set<Origin>, contexts: Table) returns (ok: bool)
    ensures ok <==> |contexts| <= MAX_CONTEXTS && Rooted(contexts)
                    && forall id <- contexts :: ResultContextOk(origins, contexts, id)
  {
    if |contexts| > MAX_CONTEXTS { return false; }
    var ids := contexts.Keys;
    while ids != {}
      invariant ids <= contexts.Keys
      invariant forall id <- contexts :: id !in ids ==> ResultContextOk(origins, contexts, id)
    {
      var id :| id in ids;
      if !ResultContextOk(origins, contexts, id) { return false; }
      ids := ids - {id};
    }
    ids := contexts.Keys;
    while ids != {}
      invariant ids <= contexts.Keys
      invariant forall id <- contexts :: id !in ids ==> Reaches(contexts, id, MAX_DEPTH)
    {
      var id :| id in ids;
      var reached := WalkUp(contexts, id);
      if !reached { return false; }
      ids := ids - {id};
    }
    ok := true;
  }

  method WalkUp(contexts: Table, id: ContextId) returns (ok: bool)
    ensures ok <==> Reaches(contexts, id, MAX_DEPTH)
  {
    var depth, current := 0, id;
    var seen: set<ContextId> := {};
    while current != Main
      invariant 0 <= depth <= MAX_DEPTH
      invariant Reaches(contexts, id, MAX_DEPTH) <==> Reaches(contexts, current, MAX_DEPTH - depth)
      invariant Reaches(contexts, current, MAX_DEPTH - depth) ==>
                  forall s <- seen :: s != Main && Reaches(contexts, s, MAX_DEPTH)
                                      && Height(contexts, s, MAX_DEPTH) > Height(contexts, current, MAX_DEPTH - depth)
      decreases MAX_DEPTH - depth
    {
      if current in seen || depth >= MAX_DEPTH {
        if current in seen && Reaches(contexts, current, MAX_DEPTH - depth) {
          HeightIndependent(contexts, current, MAX_DEPTH - depth, MAX_DEPTH);
        }
        return false;
      }
      if Reaches(contexts, current, MAX_DEPTH - depth) {
        ReachesMore(contexts, current, MAX_DEPTH - depth, MAX_DEPTH);
        HeightIndependent(contexts, current, MAX_DEPTH - depth, MAX_DEPTH);
      }
      seen := seen + {current};
      if current !in contexts { return false; }
      current, depth := contexts[current].parent, depth + 1;
    }
    ok := true;
  }

  /** A session's forest always passes the result builder's context checks. */
  lemma ForestValidates(origins: set<Origin>, m: Table)
    requires Forest(origins, m)
    ensures |m| <= MAX_CONTEXTS && Rooted(m) && forall id <- m :: ResultContextOk(origins, m, id)
  {
    forall id <- m ensures ResultContextOk(origins, m, id) {
      ParentKnown(m, id);
      if m[id].parent != Main { assert ContextOk(origins, m[id].parent, m[m[id].parent]); }
    }
  }

  // Selection.

  /** A set of contexts that contains the parents of its members. */
  ghost predicate AncestorClosed(m: Table, s: set<ContextId>) {
    forall id | id in s && id in m :: m[id].parent == Main || m[id].parent in s
  }

  ghost predicate Requests(m: Table, ids: seq<ContextId>, s: set<ContextId>) {
    forall id | id in ids && id in m && id != Main :: id in s
  }

  /** Selects the least ancestor-closed part of the graph that contains the requested contexts. */
  method SelectContexts(contexts: Table, ids: seq<ContextId>) returns (r: Table)
    requires Rooted(contexts) && Main !in contexts
    ensures Within(r, contexts) && Requests(contexts, ids, r.Keys) && AncestorClosed(contexts, r.Keys)
    ensures forall s :: Requests(contexts, ids, s) && AncestorClosed(contexts, s) ==> r.Keys <= s
  {
    r := map[];
    forall k <- contexts ensures contexts[k].parent == Main || contexts[k].parent in contexts { ParentKnown(contexts, k); }
    for i := 0 to |ids|
      invariant Within(r, contexts) && AncestorClosed(contexts, r.Keys)
      invariant Requests(contexts, ids[..i], r.Keys)
      invariant forall s :: Requests(contexts, ids, s) && AncestorClosed(contexts, s) ==> r.Keys <= s
    {
      ghost var before := r;
      var current := ids[i];
      assert ids[i] in ids;
      while current != Main && current in contexts
        invariant Within(r, contexts) && before.Keys <= r.Keys
        invariant current == ids[i] || ids[i] in r || ids[i] !in contexts || ids[i] == Main
        invariant forall k <- r :: contexts[k].parent == Main || contexts[k].parent in r || contexts[k].parent == current
        invariant forall s :: Requests(contexts, ids, s) && AncestorClosed(contexts, s) ==>
                    r.Keys <= s && (current != Main && current in contexts ==> current in s)
        decreases if current != Main && current in contexts then Height(contexts, current, MAX_DEPTH) else 0
      {
        ParentLower(contexts, current);
        ParentKnown(contexts, current);
        var parent := contexts[current].parent;
        r := r[current := contexts[current]];
        current := parent;
      }
      assert ids[..i + 1] == ids[..i] + [ids[i]];
    }
    assert ids[..|ids|] == ids;
  }
}
