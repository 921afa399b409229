/**
 The two guards that admit POST requests inside a window with a budget: headed authentication and
 authenticated authoring. Any interleaving of their calls is a sequence of steps of one abstract
 window machine, about which the run theorems are proved once.
 */
module InteractiveGuards {
  import opened Wrappers
  import opened NetworkGuard

  const MAX_BUDGET := 32

  /** A POST window: whether one is open, its budget, and the POSTs admitted in it. */
  datatype Window = Window(active: bool, budget: int, observed: int)

  const SHUT := Window(false, 0, 0)

  datatype Reply = Admitted(post: bool) | Denied | Armed | Refused | Ended(posts: int) | Noted

  // The abstract machine.

  datatype Guarded = Guarded(core: Core, window: Window)

  predicate WindowOk(w: Window) {
    if w.active then 0 <= w.observed <= w.budget <= MAX_BUDGET else w == SHUT
  }

  predicate GuardedOk(g: Guarded) { CoreOk(g.core) && WindowOk(g.window) }

  /** What one call may do to the accounting and to the window. */
  predicate Transition(g: Guarded, reply: Reply, g': Guarded) {
    && g'.core.maxRequests == g.core.maxRequests && g'.core.maxBytes == g.core.maxBytes
    && CoreOk(g'.core) && g.core.bytes <= g'.core.bytes
    && (g.core.violation.Some? ==> g'.core.violation == g.core.violation)
    && match reply
       case Admitted(post) =>
         && g.core.violation.None? && g'.core.violation.None? && g'.core.requests == g.core.requests + 1
         && (if post then g.window.active && g.window.observed < g.window.budget
                          && g'.window == g.window.(observed := g.window.observed + 1)
             else g'.window == g.window)
       case Armed => g.core.violation.None? && !g.window.active
                     && g'.window.active && g'.window.observed == 0 && 0 <= g'.window.budget <= MAX_BUDGET
       case Ended(posts) => posts == g.window.observed && g'.window == SHUT
       case _ => g'.window == g.window
  }

  /** The states of a run and the replies in between, from an unused guard. */
  predicate IsRun(gs: seq<Guarded>, replies: seq<Reply>) {
    && |gs| == |replies| + 1 && GuardedOk(gs[0]) && gs[0].window == SHUT && gs[0].core.violation.None?
    && forall i | 0 <= i < |replies| :: Transition(gs[i], replies[i], gs[i + 1])
  }

  function AdmittedPosts(replies: seq<Reply>): nat {
    if replies == [] then 0
    else AdmittedPosts(replies[..|replies| - 1]) + if replies[|replies| - 1] == Admitted(true) then 1 else 0
  }

  function EndedSum(replies: seq<Reply>): int {
    if replies == [] then 0
    else
      var last := replies[|replies| - 1];
      EndedSum(replies[..|replies| - 1]) + if last.Ended? then last.posts else 0
  }

  lemma {:induction false} RunOk(gs: seq<Guarded>, replies: seq<Reply>, i: nat)
    requires IsRun(gs, replies) && i < |gs|
    ensures GuardedOk(gs[i])
  {
    if i > 0 {
      RunOk(gs, replies, i - 1);
      assert Transition(gs[i - 1], replies[i - 1], gs[i]);
    }
  }

  lemma RunPrefix(gs: seq<Guarded>, replies: seq<Reply>)
    requires IsRun(gs, replies) && replies != []
    ensures IsRun(gs[..|gs| - 1], replies[..|replies| - 1])
  {
  }

  /** Conservation: the values returned at the ends of windows, and the open window, account for every POST. */
  lemma {:induction false} PostsConserved(gs: seq<Guarded>, replies: seq<Reply>)
    requires IsRun(gs, replies)
    ensures EndedSum(replies) + gs[|replies|].window.observed == AdmittedPosts(replies)
    decreases |replies|
  {
    if replies != [] {
      var n := |replies| - 1;
      RunPrefix(gs, replies);
      RunOk(gs, replies, n);
      PostsConserved(gs[..n + 1], replies[..n]);
      assert Transition(gs[n], replies[n], gs[n + 1]);
    }
  }

  /** A POST is admitted only inside a window that has budget left, and a window never passes its budget. */
  lemma PostsStayInWindows(gs: seq<Guarded>, replies: seq<Reply>, i: nat)
    requires IsRun(gs, replies) && i < |replies|
    ensures replies[i] == Admitted(true) ==> gs[i].window.active && gs[i].window.observed < gs[i].window.budget
    ensures replies[i].Ended? ==> 0 <= replies[i].posts <= MAX_BUDGET && (!gs[i].window.active ==> replies[i].posts == 0)
  {
    RunOk(gs, replies, i);
    assert Transition(gs[i], replies[i], gs[i + 1]);
  }

  /** The first violation is final: it never changes and nothing is admitted or armed after it. */
  lemma {:induction false} ViolationIsFinal(gs: seq<Guarded>, replies: seq<Reply>, i: nat, j: nat)
    requires IsRun(gs, replies) && i <= j < |gs| && gs[i].core.violation.Some?
    ensures gs[j].core.violation == gs[i].core.violation
    ensures forall k | i <= k < j :: !replies[k].Admitted? && !replies[k].Armed?
    decreases j
  {
    if i < j {
      ViolationIsFinal(gs, replies, i, j - 1);
      assert Transition(gs[j - 1], replies[j - 1], gs[j]);
    }
  }

  /** Counted bytes only grow and stay within the limit; admitted requests do too while nothing is violated. */
  lemma {:induction false} BytesBounded(gs: seq<Guarded>, replies: seq<Reply>, i: nat, j: nat)
    requires IsRun(gs, replies) && i <= j < |gs|
    ensures gs[i].core.bytes <= gs[j].core.bytes <= gs[j].core.maxBytes == gs[i].core.maxBytes
    ensures gs[j].core.violation.None? ==> gs[j].core.requests <= gs[j].core.maxRequests
    decreases j
  {
    RunOk(gs, replies, j);
    if i < j {
      BytesBounded(gs, replies, i, j - 1);
      assert Transition(gs[j - 1], replies[j - 1], gs[j]);
    }
  }

  // Headed authentication.

  datatype Method = Safe | Post | Unsupported
  datatype Resource = Loaded | Persistent | Ignored

  datatype AuthState = AuthState(core: Core, window: Window, closing: bool)

  datatype AuthCall =
    | AuthRequest(approved: bool, child: bool, resource: Resource, verb: Method)
    | BeginInteraction(budget: int)
    | EndInteraction
    | AuthLength(length: int)
    | AuthBytes(size: int)
    | AuthBlock(code: Code)
    | AuthPageClosed
    | AuthClose

  function AuthAdmit(s: AuthState, approved: bool, child: bool, resource: Resource, verb: Method): (AuthState, Reply) {
    var (core, ok) := Counted(s.core);
    var t := s.(core := core);
    if !ok then (t, Denied)
    else if !approved then (t.(core := Violated(core, OriginEscape)), Denied)
    else if child then (t.(core := Violated(core, ChildFrame)), Denied)
    else if resource == Persistent then (t.(core := Violated(core, PersistentResource)), Denied)
    else if resource == Ignored then (t, Denied)
    else match verb
      case Safe => (t, Admitted(false))
      case Post =>
        if !s.window.active || s.window.observed >= s.window.budget then (t.(core := Violated(core, PostBudget)), Denied)
        else (t.(window := s.window.(observed := s.window.observed + 1)), Admitted(true))
      case Unsupported => (t.(core := Violated(core, MutationMethod)), Denied)
  }

  function AuthStep(s: AuthState, c: AuthCall): (AuthState, Reply) {
    match c
    case AuthRequest(approved, child, resource, verb) => AuthAdmit(s, approved, child, resource, verb)
    case BeginInteraction(budget) =>
      if s.core.violation.Some? || s.window.active || budget < 0 || budget > MAX_BUDGET then (s, Refused)
      else (s.(window := Window(true, budget, 0)), Armed)
    case EndInteraction =>
      if !s.window.active then (s, Refused) else (s.(window := SHUT), Ended(s.window.observed))
    case AuthLength(length) => (s.(core := ContentLength(s.core, length)), Noted)
    case AuthBytes(size) => (s.(core := FinishResponse(s.core, size)), Noted)
    case AuthBlock(code) => (s.(core := Violated(s.core, code)), Noted)
    case AuthPageClosed => (if s.closing then s else s.(core := Violated(s.core, PageClosed)), Noted)
    case AuthClose => (s.(closing := true), Noted)
  }

  lemma AuthTransition(s: AuthState, c: AuthCall)
    requires GuardedOk(Guarded(s.core, s.window))
    ensures var (s', reply) := AuthStep(s, c); Transition(Guarded(s.core, s.window), reply, Guarded(s'.core, s'.window))
  {
  }

  /**
   Any interleaving of calls of the authentication guard is a run of the window machine. What is admitted goes to
   an approved URL, is no child document and loads; a guard that is clean at the end refused nothing but
   resources of a kind it ignores.
   */
  lemma {:induction false} AuthRuns(maxRequests: nat, maxBytes: nat, calls: seq<AuthCall>)
    returns (ss: seq<AuthState>, gs: seq<Guarded>, replies: seq<Reply>)
    ensures |ss| == |calls| + 1 == |gs| && |replies| == |calls|
    ensures ss[0] == AuthState(NewCore(maxRequests, maxBytes), SHUT, false)
    ensures forall i | 0 <= i < |calls| :: (ss[i + 1], replies[i]) == AuthStep(ss[i], calls[i])
    ensures forall i | 0 <= i < |ss| :: gs[i] == Guarded(ss[i].core, ss[i].window)
    ensures IsRun(gs, replies)
    ensures forall i | 0 <= i < |calls| && replies[i].Admitted? ::
              calls[i].AuthRequest? && calls[i].approved && !calls[i].child && calls[i].resource.Loaded?
              && (if replies[i].post then calls[i].verb.Post? else calls[i].verb.Safe?)
    ensures ss[|calls|].core.violation.None? ==>
              forall i | 0 <= i < |calls| ::
                && !calls[i].AuthBlock?
                && (calls[i].AuthRequest? && !replies[i].Admitted? ==>
                      calls[i].approved && !calls[i].child && calls[i].resource.Ignored?)
    decreases |calls|
  {
    if calls == [] {
      ss, replies := [AuthState(NewCore(maxRequests, maxBytes), SHUT, false)], [];
      gs := [Guarded(ss[0].core, ss[0].window)];
    } else {
      var n := |calls| - 1;
      ss, gs, replies := AuthRuns(maxRequests, maxBytes, calls[..n]);
      RunOk(gs, replies, n);
      AuthTransition(ss[n], calls[n]);
      var (s', reply) := AuthStep(ss[n], calls[n]);
      ss, gs, replies := ss + [s'], gs + [Guarded(s'.core, s'.window)], replies + [reply];
    }
  }

  // Authenticated authoring.

  datatype AuthorState = AuthorState(core: Core, window: Window, navigating: bool, closing: bool)

  datatype AuthorCall =
    | AuthorRequest(matched: bool, approved: bool, navigation: bool, verb: Method)
    | BeginPost(budget: int)
    | EndPost
    | BeginNavigation
    | EndNavigation
    | AuthorLength(length: int)
    | AuthorBytes(size: int)
    | AuthorBlock(code: Code)
    | AuthorClose

  function AuthorAdmit(s: AuthorState, matched: bool, approved: bool, navigation: bool, verb: Method): (AuthorState,
      Reply) {
    if s.closing then (s, Denied)
    else
      var (core, ok) := Counted(s.core);
      var t := s.(core := core);
      if !ok || matched then (t, Denied)
      else if !approved then (t.(core := Violated(core, OriginEscape)), Denied)
      else if navigation && !s.navigating then (t.(core := Violated(core, UnexpectedNavigation)), Denied)
      else match verb
        case Safe => (t, Admitted(false))
        case Post =>
          if !s.window.active || s.window.observed >= s.window.budget then (t.(core := Violated(core, PostBudget)), Denied)
          else (t.(window := s.window.(observed := s.window.observed + 1)), Admitted(true))
        case Unsupported => (t.(core := Violated(core, MutationMethod)), Denied)
  }

  function AuthorStep(s: AuthorState, c: AuthorCall): (AuthorState, Reply) {
    match c
    case AuthorRequest(matched, approved, navigation, verb) => AuthorAdmit(s, matched, approved, navigation, verb)
    case BeginPost(budget) =>
      if s.core.violation.Some? || s.window.active || s.navigating || budget < 0 || budget > MAX_BUDGET then (s, Refused)
      else (s.(window := Window(true, budget, 0), navigating := true), Armed)
    case EndPost => (s.(window := SHUT, navigating := false), Ended(s.window.observed))
    case BeginNavigation =>
      if s.core.violation.Some? || s.navigating then (s, Refused) else (s.(navigating := true), Noted)
    case EndNavigation => (s.(navigating := false), Noted)
    case AuthorLength(length) => (s.(core := ContentLength(s.core, length)), Noted)
    case AuthorBytes(size) => (s.(core := FinishResponse(s.core, size)), Noted)
    case AuthorBlock(code) => (if s.closing then s else s.(core := Violated(s.core, code)), Noted)
    case AuthorClose => (s.(closing := true), Noted)
  }

  lemma AuthorTransition(s: AuthorState, c: AuthorCall)
    requires GuardedOk(Guarded(s.core, s.window))
    ensures var (s', reply) := AuthorStep(s, c); Transition(Guarded(s.core, s.window), reply, Guarded(s'.core, s'.window))
  {
  }

  /**
   Any interleaving of calls of the authoring guard is a run of the window machine. What is admitted goes to an
   approved URL that no local policy matches, and navigates only inside a navigation window; a guard that is
   clean at the end refused nothing but matched requests and what came after its close began.
   */
  lemma {:induction false} AuthorRuns(maxRequests: nat, maxBytes: nat, calls: seq<AuthorCall>)
    returns (ss: seq<AuthorState>, gs: seq<Guarded>, replies: seq<Reply>)
    ensures |ss| == |calls| + 1 == |gs| && |replies| == |calls|
    ensures ss[0] == AuthorState(NewCore(maxRequests, maxBytes), SHUT, false, false)
    ensures forall i | 0 <= i < |calls| :: (ss[i + 1], replies[i]) == AuthorStep(ss[i], calls[i])
    ensures forall i | 0 <= i < |ss| :: gs[i] == Guarded(ss[i].core, ss[i].window)
    ensures IsRun(gs, replies)
    ensures forall i | 0 <= i < |calls| && replies[i].Admitted? ::
              calls[i].AuthorRequest? && !calls[i].matched && calls[i].approved && !ss[i].closing
              && (calls[i].navigation ==> ss[i].navigating)
              && (if replies[i].post then calls[i].verb.Post? else calls[i].verb.Safe?)
    ensures ss[|calls|].core.violation.None? ==>
              forall i | 0 <= i < |calls| && !ss[i].closing ::
                !calls[i].AuthorBlock? && (calls[i].AuthorRequest? && !replies[i].Admitted? ==> calls[i].matched)
    decreases |calls|
  {
    if calls == [] {
      ss, replies := [AuthorState(NewCore(maxRequests, maxBytes), SHUT, false, false)], [];
      gs := [Guarded(ss[0].core, ss[0].window)];
    } else {
      var n := |calls| - 1;
      ss, gs, replies := AuthorRuns(maxRequests, maxBytes, calls[..n]);
      RunOk(gs, replies, n);
      AuthorTransition(ss[n], calls[n]);
      var (s', reply) := AuthorStep(ss[n], calls[n]);
      ss, gs, replies := ss + [s'], gs + [Guarded(s'.core, s'.window)], replies + [reply];
    }
  }

  // The guard objects. Their locks make each method one step.

  class AuthNetworkGuard {
    const core: NetworkGuardCore
    var active: bool
    var postBudget: int
    var postObserved: int
    var closing: bool

    function State(): AuthState
      reads this, core
    {
      AuthState(core.State(), Window(active, postBudget, postObserved), closing)
    }

    constructor (maxRequests: int, maxResponseBytes: Int64)
      requires maxRequests >= 0 && maxResponseBytes >= 0
      ensures core.Valid() && fresh(core)
      ensures State() == AuthState(NewCore(maxRequests, maxResponseBytes as int), SHUT, false)
    {
      core := new NetworkGuardCore(maxRequests, maxResponseBytes);
      active, postBudget, postObserved, closing := false, 0, 0, false;
    }

    method AllowRequest(approved: bool, child: bool, resource: Resource, verb: Method) returns (ok: bool)
      requires core.Valid()
      modifies this`postObserved, core
      ensures core.Valid()
      ensures var (s, reply) := AuthStep(old(State()), AuthRequest(approved, child, resource, verb));
              State() == s && ok == reply.Admitted?
      ensures ok <==> old(core.violation).None? && old(core.requests) < core.maxRequests
                      && approved && !child && resource.Loaded?
                      && (verb.Safe? || (verb.Post? && active && old(postObserved) < postBudget))
      ensures core.requests == old(core.requests) + 1 && core.responseBytes == old(core.responseBytes)
      ensures postObserved == old(postObserved) + if ok && verb.Post? then 1 else 0
      ensures old(core.violation).Some? ==> core.violation == old(core.violation)
      ensures old(core.violation).None? ==>
                if old(core.requests) >= core.maxRequests then core.violation == Some(RequestLimit)
                else if !approved then core.violation == Some(OriginEscape)
                else if child then core.violation == Some(ChildFrame)
                else if resource.Persistent? then core.violation == Some(PersistentResource)
                else if resource.Ignored? || ok then core.violation == None
                else core.violation == Some(if verb.Post? then PostBudget else MutationMethod)
    {
      ok := core.BeginRequest();
      if !ok { return; }
      if !approved { core.Violate(OriginEscape); return false; }
      if child { core.Violate(ChildFrame); return false; }
      match resource {
        case Loaded =>
        case Persistent => core.Violate(PersistentResource); return false;
        case Ignored => return false;
      }
      match verb {
        case Safe => return true;
        case Post =>
          if !active || postObserved >= postBudget { core.Violate(PostBudget); return false; }
          postObserved := postObserved + 1;
          return true;
        case Unsupported => core.Violate(MutationMethod); return false;
      }
    }

    method BeginInteraction(budget: int) returns (ok: bool)
      modifies this
      ensures (State(), if ok then Armed else Refused) == AuthStep(old(State()), AuthCall.BeginInteraction(budget))
      ensures ok <==> core.violation.None? && !old(active) && 0 <= budget <= 32
      ensures ok ==> active && postBudget == budget && postObserved == 0
      ensures !ok ==> active == old(active) && postBudget == old(postBudget) && postObserved == old(postObserved)
      ensures closing == old(closing)
    {
      if core.violation.Some? || active || budget < 0 || budget > MAX_BUDGET { return false; }
      active, postBudget, postObserved := true, budget, 0;
      ok := true;
    }

    /** The posts of the window, with whether the guard is still clean. */
    method EndInteraction() returns (posts: int, armed: bool, clean: bool)
      modifies this
      ensures (State(), if armed then Ended(posts) else Refused) == AuthStep(old(State()), AuthCall.EndInteraction)
      ensures armed == old(active) && !active && posts == (if armed then old(postObserved) else 0)
      ensures armed ==> postBudget == 0 && postObserved == 0
      ensures clean <==> armed && core.violation.None?
      ensures closing == old(closing)
    {
      if !active { return 0, false, false; }
      posts := postObserved;
      active, postBudget, postObserved := false, 0, 0;
      armed, clean := true, core.violation.None?;
    }

    method ObserveResponseContentLength(length: Int64)
      requires core.Valid()
      modifies core
      ensures core.Valid() && State() == AuthStep(old(State()), AuthLength(length as int)).0
      ensures core.violation == if old(core.violation).None? && !(0 <= length <= core.maxResponseBytes)
                                then Some(ResponseLimit) else old(core.violation)
    {
      core.ObserveContentLength(length);
    }

    method ObserveFinishedResponse(size: Int64)
      requires core.Valid()
      modifies core
      ensures core.Valid() && State() == AuthStep(old(State()), AuthBytes(size as int)).0
      ensures var fits := 0 <= size && old(core.responseBytes) as int + size as int <= core.maxResponseBytes as int;
              && core.responseBytes == old(core.responseBytes) + (if fits then size else 0)
              && core.violation == if old(core.violation).None? && !fits then Some(ResponseLimit) else old(core.violation)
    {
      var ok := core.ObserveFinishedResponse(size);
    }

    method Block(code: Code)
      modifies core`violation
      ensures State() == AuthStep(old(State()), AuthBlock(code)).0
      ensures core.violation == if old(core.violation).None? then Some(code) else old(core.violation)
    {
      core.Violate(code);
    }

    method PageClosed()
      modifies core`violation
      ensures State() == AuthStep(old(State()), AuthPageClosed).0
      ensures core.violation == if old(core.violation).None? && !closing then Some(Code.PageClosed)
                                else old(core.violation)
    {
      if !closing { core.Violate(Code.PageClosed); }
    }

    method BeginClose()
      modifies this`closing
      ensures State() == AuthStep(old(State()), AuthClose).0 && closing
    {
      closing := true;
    }
  }

  class AuthorNetworkGuard {
    const core: NetworkGuardCore
    var postActive: bool
    var postBudget: int
    var postObserved: int
    var navigationActive: bool
    var closing: bool

    function State(): AuthorState
      reads this, core
    {
      AuthorState(core.State(), Window(postActive, postBudget, postObserved), navigationActive, closing)
    }

    constructor (maxRequests: int, maxResponseBytes: Int64)
      requires maxRequests >= 0 && maxResponseBytes >= 0
      ensures core.Valid() && fresh(core)
      ensures State() == AuthorState(NewCore(maxRequests, maxResponseBytes as int), SHUT, false, false)
    {
      core := new NetworkGuardCore(maxRequests, maxResponseBytes);
      postActive, postBudget, postObserved, navigationActive, closing := false, 0, 0, false, false;
    }

    method AllowRequest(matched: bool, approved: bool, navigation: bool, verb: Method) returns (ok: bool)
      requires core.Valid()
      modifies this`postObserved, core
      ensures core.Valid()
      ensures var (s, reply) := AuthorStep(old(State()), AuthorRequest(matched, approved, navigation, verb));
              State() == s && ok == reply.Admitted?
      ensures ok <==> !closing && old(core.violation).None? && old(core.requests) < core.maxRequests
                      && !matched && approved && (navigation ==> navigationActive)
                      && (verb.Safe? || (verb.Post? && postActive && old(postObserved) < postBudget))
      ensures core.requests == old(core.requests) + (if closing then 0 else 1)
      ensures core.responseBytes == old(core.responseBytes)
      ensures postObserved == old(postObserved) + if ok && verb.Post? then 1 else 0
      ensures closing || old(core.violation).Some? ==> core.violation == old(core.violation)
      ensures !closing && old(core.violation).None? ==>
                if old(core.requests) >= core.maxRequests then core.violation == Some(RequestLimit)
                else if matched || ok then core.violation == None
                else if !approved then core.violation == Some(OriginEscape)
                else if navigation && !navigationActive then core.violation == Some(UnexpectedNavigation)
                else core.violation == Some(if verb.Post? then PostBudget else MutationMethod)
    {
      if closing { return false; }
      ok := core.BeginRequest();
      if !ok { return; }
      if matched { return false; }
      if !approved { core.Violate(OriginEscape); return false; }
      if navigation && !navigationActive { core.Violate(UnexpectedNavigation); return false; }
      match verb {
        case Safe => return true;
        case Post =>
          if !postActive || postObserved >= postBudget { core.Violate(PostBudget); return false; }
          postObserved := postObserved + 1;
          return true;
        case Unsupported => core.Violate(MutationMethod); return false;
      }
    }

    method BeginPost(budget: int) returns (ok: bool)
      modifies this
      ensures (State(), if ok then Armed else Refused) == AuthorStep(old(State()), AuthorCall.BeginPost(budget))
      ensures ok <==> core.violation.None? && !old(postActive) && !old(navigationActive) && 0 <= budget <= 32
      ensures ok ==> postActive && navigationActive && postBudget == budget && postObserved == 0
      ensures !ok ==> postActive == old(postActive) && navigationActive == old(navigationActive)
                      && postBudget == old(postBudget) && postObserved == old(postObserved)
      ensures closing == old(closing)
    {
      if core.violation.Some? || postActive || navigationActive || budget < 0 || budget > MAX_BUDGET { return false; }
      postActive, postBudget, postObserved, navigationActive := true, budget, 0, true;
      ok := true;
    }

    method EndPost() returns (posts: int, clean: bool)
      modifies this
      ensures (State(), Ended(posts)) == AuthorStep(old(State()), AuthorCall.EndPost)
      ensures posts == old(postObserved) && !postActive && !navigationActive && postBudget == 0 && postObserved == 0
      ensures closing == old(closing)
      ensures clean == core.violation.None?
    {
      posts := postObserved;
      postActive, postBudget, postObserved, navigationActive := false, 0, 0, false;
      clean := core.violation.None?;
    }

    method BeginNavigation() returns (ok: bool)
      modifies this
      ensures (State(), if ok then Noted else Refused) == AuthorStep(old(State()), AuthorCall.BeginNavigation)
      ensures ok <==> core.violation.None? && !old(navigationActive)
      ensures navigationActive == (old(navigationActive) || ok) && postActive == old(postActive)
      ensures postBudget == old(postBudget) && postObserved == old(postObserved) && closing == old(closing)
    {
      if core.violation.Some? || navigationActive { return false; }
      navigationActive := true;
      ok := true;
    }

    method EndNavigation()
      modifies this`navigationActive
      ensures State() == AuthorStep(old(State()), AuthorCall.EndNavigation).0 && !navigationActive
    {
      navigationActive := false;
    }

    method ObserveResponseContentLength(length: Int64)
      requires core.Valid()
      modifies core
      ensures core.Valid() && State() == AuthorStep(old(State()), AuthorLength(length as int)).0
      ensures core.violation == if old(core.violation).None? && !(0 <= length <= core.maxResponseBytes)
                                then Some(ResponseLimit) else old(core.violation)
    {
      core.ObserveContentLength(length);
    }

    method ObserveBytes(size: Int64)
      requires core.Valid()
      modifies core
      ensures core.Valid() && State() == AuthorStep(old(State()), AuthorBytes(size as int)).0
      ensures var fits := 0 <= size && old(core.responseBytes) as int + size as int <= core.maxResponseBytes as int;
              && core.responseBytes == old(core.responseBytes) + (if fits then size else 0)
              && core.violation == if old(core.violation).None? && !fits then Some(ResponseLimit) else old(core.violation)
    {
      var ok := core.ObserveFinishedResponse(size);
    }

    method Block(code: Code)
      modifies core`violation
      ensures State() == AuthorStep(old(State()), AuthorBlock(code)).0
      ensures core.violation == if old(core.violation).None? && !closing then Some(code) else old(core.violation)
    {
      if !closing { core.Violate(code); }
    }

    method BeginClose()
      modifies this`closing
      ensures State() == AuthorStep(old(State()), AuthorClose).0 && closing
    {
      closing := true;
    }
  }
}
