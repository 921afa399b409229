/**
 The guard of a registration browser: application requests by method, navigation windows, and the
 separately reviewed verification traffic. Its summary is what the session and the result check.
 */
module RegistrationGuard {
  import opened Wrappers
  import opened NetworkGuard
  import opened PageText
  import opened RegistrationModel
  import opened RegistrationResult

  datatype Method = MethodGet | MethodHead | MethodOther

  /** Whether a URL fails to parse as a resource, has another origin, or has an approved one. */
  datatype Resource = Unparsed | Elsewhere | Approved

  datatype Guard = Guard(
    protocol: Protocol, origins: seq<Origin>, core: Core, gets: int, heads: int,
    authority: Option<HumanVerification>, providerRequests: int, providerPosts: int, providerBytes: int,
    navigating: bool, closing: bool)

  function NewGuard(protocol: Protocol, origins: seq<Origin>, maxRequests: int, maxBytes: int): Guard {
    Guard(protocol, origins, NewCore(maxRequests, maxBytes), 0, 0, None, 0, 0, 0, false, false)
  }

  datatype Call =
    | Browser(verb: Method, persistent: bool, navigation: bool, navigable: bool, resource: Resource)
    | BeginNavigation(navigable: bool)
    | EndNavigation
    | BeginHead(navigable: bool)
    | Length(bytes: int)
    | Bytes(size: int)
    | Block(code: Code)
    | Approve(authority: HumanVerification)
    | ProviderRequest(permitted: bool, inTime: bool, persistent: bool, bound: bool, post: bool)
    | ProviderBody(length: nat, inTime: bool)
    | BeginClose

  function Refuse(g: Guard, code: Code): (Guard, bool) { (g.(core := Violated(g.core, code)), false) }

  function AdmitBrowser(g: Guard, verb: Method, persistent: bool, navigation: bool, navigable: bool, resource: Resource)
    : (Guard, bool)
  {
    if g.closing then (g, false)
    else
      var (core, ok) := Counted(g.core);
      var t := g.(core := core);
      if !ok then (t, false)
      else if verb == MethodOther then Refuse(t, MutationMethod)
      else
        var u := if verb == MethodGet then t.(gets := t.gets + 1) else t.(heads := t.heads + 1);
        if persistent then Refuse(u, PersistentResource)
        else if navigation then
          if !navigable then Refuse(u, OriginEscape)
          else if !g.navigating then Refuse(u, UnexpectedNavigation)
          else (u, true)
        else if resource == Unparsed then Refuse(u, OriginEscape)
        else (u, resource == Approved)
  }

  /** Provider traffic is admitted within the approved authority, before its deadline, from a bound frame. */
  function AdmitProvider(g: Guard, permitted: bool, inTime: bool, persistent: bool, bound: bool, post: bool): (Guard,
      bool) {
    if g.authority.None? || !permitted then (g, false)
    else if !g.closing && g.core.violation.None? && inTime && !persistent && bound
            && g.providerRequests < g.authority.value.dependencies.maxRequests
    then (g.(providerRequests := g.providerRequests + 1,
             providerPosts := g.providerPosts + if post then 1 else 0), true)
    else Refuse(g, VerificationPolicy)
  }

  function Apply(g: Guard, c: Call): (Guard, bool) {
    match c
    case Browser(verb, persistent, navigation, navigable, resource) =>
      AdmitBrowser(g, verb, persistent, navigation, navigable, resource)
    case BeginNavigation(navigable) =>
      if g.closing || g.navigating || g.core.violation.Some? || !navigable then (g, false) else (g.(navigating := true), true)
    case EndNavigation => (g.(navigating := false), true)
    case BeginHead(navigable) =>
      if g.closing || g.navigating || g.core.violation.Some? || !navigable then (g, false)
      else
        var (core, ok) := Counted(g.core);
        if ok then (g.(core := core, heads := g.heads + 1), true) else (g.(core := core), false)
    case Length(length) => (if g.closing then g else g.(core := ContentLength(g.core, length)), true)
    case Bytes(size) => (if g.closing then g else g.(core := FinishResponse(g.core, size)), true)
    case Block(code) => (if g.closing then g else g.(core := Violated(g.core, code)), true)
    case Approve(v) =>
      if g.protocol != V4 || !AuthorityOk(v, g.origins) || g.authority.Some? then (g, false)
      else (g.(authority := Some(v)), true)
    case ProviderRequest(permitted, inTime, persistent, bound, post) =>
      AdmitProvider(g, permitted, inTime, persistent, bound, post)
    case ProviderBody(length, inTime) =>
      if g.authority.None? || length > g.authority.value.dependencies.maxResponseBytes - g.providerBytes
         || !inTime || g.core.violation.Some?
      then (g, false)
      else (g.(providerBytes := g.providerBytes + length), true)
    case BeginClose => (g.(closing := true), true)
  }

  /** The conservation law of the counters. */
  ghost predicate Conserved(g: Guard) {
    && CoreOk(g.core) && 0 <= g.gets && 0 <= g.heads && g.gets + g.heads <= g.core.requests
    && (g.core.violation.None? ==> g.core.requests == g.gets + g.heads)
    && 0 <= g.providerPosts <= g.providerRequests && 0 <= g.providerBytes
    && match g.authority
       case None => g.providerRequests == 0 && g.providerBytes == 0
       case Some(v) => g.protocol == V4 && AuthorityOk(v, g.origins)
                       && g.providerRequests <= v.dependencies.maxRequests
                       && g.providerBytes <= v.dependencies.maxResponseBytes
  }

  /** What no call changes, and what every call only extends. */
  ghost predicate Extends(g: Guard, g': Guard) {
    && g'.protocol == g.protocol && g'.origins == g.origins
    && g'.core.maxRequests == g.core.maxRequests && g'.core.maxBytes == g.core.maxBytes
    && g.core.requests <= g'.core.requests && g.gets <= g'.gets && g.heads <= g'.heads
    && g.core.bytes <= g'.core.bytes
    && g.providerRequests <= g'.providerRequests && g.providerPosts <= g'.providerPosts && g.providerBytes <= g'.providerBytes
    && (g.core.violation.Some? ==> g'.core.violation == g.core.violation && g'.gets == g.gets && g'.heads == g.heads
                                   && g'.providerRequests == g.providerRequests && g'.providerPosts == g.providerPosts
                                   && g'.providerBytes == g.providerBytes)
    && (g.authority.Some? ==> g'.authority == g.authority)
  }

  lemma BrowserConserves(g: Guard, c: Call)
    requires Conserved(g) && c.Browser?
    ensures Conserved(Apply(g, c).0) && Extends(g, Apply(g, c).0)
  {
    hide AuthorityOk;
  }

  lemma StepConserves(g: Guard, c: Call)
    requires Conserved(g)
    ensures Conserved(Apply(g, c).0) && Extends(g, Apply(g, c).0)
  {
    if c.Browser? {
      BrowserConserves(g, c);
    }
  }

  lemma ConservedCore(g: Guard)
    requires Conserved(g)
    ensures CoreOk(g.core)
  {
  }

  function Run(g: Guard, calls: seq<Call>): Guard
    decreases |calls|
  {
    if calls == [] then g else Apply(Run(g, calls[..|calls| - 1]), calls[|calls| - 1]).0
  }

  /** Every interleaving of guard calls, by any number of callers, keeps the conservation law. */
  lemma {:induction false} RunConserves(protocol: Protocol, origins: seq<Origin>, maxRequests: nat, maxBytes: nat,
      calls: seq<Call>)
    ensures var g := Run(NewGuard(protocol, origins, maxRequests, maxBytes), calls);
            Conserved(g) && g.protocol == protocol && g.core.maxRequests == maxRequests && g.core.maxBytes == maxBytes
    decreases |calls|
  {
    if calls != [] {
      RunConserves(protocol, origins, maxRequests, maxBytes, calls[..|calls| - 1]);
      StepConserves(Run(NewGuard(protocol, origins, maxRequests, maxBytes), calls[..|calls| - 1]), calls[|calls| - 1]);
    }
  }

  /** The first violation is final, and freezes every counter of admitted traffic. */
  lemma {:induction false} ViolationFreezes(g: Guard, calls: seq<Call>)
    requires Conserved(g) && g.core.violation.Some?
    ensures var g' := Run(g, calls);
            Conserved(g') && g'.core.violation == g.core.violation && g'.gets == g.gets && g'.heads == g.heads
            && g'.providerRequests == g.providerRequests && g'.providerPosts == g.providerPosts
            && g'.providerBytes == g.providerBytes
    decreases |calls|
  {
    if calls != [] {
      ViolationFreezes(g, calls[..|calls| - 1]);
      StepConserves(Run(g, calls[..|calls| - 1]), calls[|calls| - 1]);
    }
  }

  function Summary(g: Guard): NetworkSummary {
    NetworkSummary(g.core.requests, g.gets, g.heads, g.providerRequests, g.providerPosts, g.providerBytes)
  }

  /**
   A guard that closes clean, after any run, reports a summary that the session accepts for its own
   protocol, limit and authority.
   */
  lemma CleanSummaryAccepted(protocol: Protocol, origins: seq<Origin>, maxRequests: nat, maxBytes: nat, calls: seq<Call>)
    ensures var g := Run(NewGuard(protocol, origins, maxRequests, maxBytes), calls);
            g.core.violation.None? ==> SummaryOkFor(Summary(g), maxRequests, protocol, g.authority)
  {
    RunConserves(protocol, origins, maxRequests, maxBytes, calls);
  }

  /** The result builder's bounds check accepts the same summary inside a completion with these bounds. */
  lemma CleanSummaryBuilds(c: Completion, maxBytes: nat, calls: seq<Call>)
    requires BoundsOk(c.bounds) && 0 < c.observations <= c.bounds.maxObservations
    requires var g := Run(NewGuard(c.protocol, c.origins, c.bounds.maxRequests, maxBytes), calls);
             g.core.violation.None? && c.network == Summary(g) && c.authority == g.authority
    ensures BoundsHold(c)
  {
    CleanSummaryAccepted(c.protocol, c.origins, c.bounds.maxRequests, maxBytes, calls);
  }

  predicate NoApproval(calls: seq<Call>) { forall c <- calls :: !c.Approve? }

  /** The law, the limits and the authority are those of g. */
  ghost predicate SameTerms(g: Guard, g': Guard) {
    Conserved(g) ==>
      Conserved(g') && g'.protocol == g.protocol && g'.core.maxRequests == g.core.maxRequests && g'.authority == g.authority
  }

  /** Traffic of any length keeps the law, the limits and, without an approval in it, the authority. */
  lemma {:induction false} TrafficKeeps(g: Guard, calls: seq<Call>)
    requires Conserved(g)
    ensures var g' := Run(g, calls);
            Conserved(g') && g'.protocol == g.protocol && g'.core.maxRequests == g.core.maxRequests
            && (NoApproval(calls) ==> g'.authority == g.authority)
    decreases |calls|
  {
    hide Conserved;
    if calls != [] {
      var n := |calls| - 1;
      TrafficKeeps(g, calls[..n]);
      StepConserves(Run(g, calls[..n]), calls[n]);
      AuthorityStays(Run(g, calls[..n]), calls[n]);
      assert NoApproval(calls) ==> NoApproval(calls[..n]) && !calls[n].Approve?;
    }
  }

  lemma AuthorityStays(g: Guard, c: Call)
    ensures !c.Approve? ==> Apply(g, c).0.authority == g.authority
  {
  }

  /** Whose approval it is: an authority a run has was handed to the guard by an approval in that run. */
  lemma {:induction false} AuthorityWasApproved(protocol: Protocol, origins: seq<Origin>, maxRequests: nat, maxBytes: nat,
      calls: seq<Call>)
    ensures var g := Run(NewGuard(protocol, origins, maxRequests, maxBytes), calls);
            g.authority.Some? ==> protocol == V4 && Approve(g.authority.value) in calls
    decreases |calls|
  {
    hide AuthorityOk, Conserved;
    if calls != [] {
      var n := |calls| - 1;
      var g := Run(NewGuard(protocol, origins, maxRequests, maxBytes), calls[..n]);
      AuthorityWasApproved(protocol, origins, maxRequests, maxBytes, calls[..n]);
      RunConserves(protocol, origins, maxRequests, maxBytes, calls[..n]);
      AuthorityStays(g, calls[n]);
      assert calls[n] in calls && forall c <- calls[..n] :: c in calls;
    }
  }

  /**
   What is admitted in a run. A browser request is a GET or HEAD that is not persistent, navigates only to a
   navigable URL inside a navigation window, and otherwise loads an approved resource. A provider request is
   made in time, from the bound frame, under an authority that was approved earlier in the run, and below its
   limit.
   */
  lemma AdmittedTraffic(protocol: Protocol, origins: seq<Origin>, maxRequests: nat, maxBytes: nat, calls: seq<Call>, i: nat)
    requires i < |calls|
    requires Apply(Run(NewGuard(protocol, origins, maxRequests, maxBytes), calls[..i]), calls[i]).1
    ensures var g, c := Run(NewGuard(protocol, origins, maxRequests, maxBytes), calls[..i]), calls[i];
            && (c.Browser? ==>
                  !g.closing && g.core.violation.None? && g.core.requests < maxRequests
                  && !c.verb.MethodOther? && !c.persistent
                  && (if c.navigation then c.navigable && g.navigating else c.resource.Approved?))
            && (c.ProviderRequest? ==>
                  !g.closing && g.core.violation.None? && c.permitted && c.inTime && !c.persistent && c.bound
                  && protocol == V4 && g.authority.Some? && Approve(g.authority.value) in calls[..i]
                  && g.providerRequests < g.authority.value.dependencies.maxRequests)
            && (c.ProviderBody? ==>
                  c.inTime && g.core.violation.None? && g.authority.Some? && Approve(g.authority.value) in calls[..i]
                  && g.providerBytes + c.length <= g.authority.value.dependencies.maxResponseBytes)
  {
    hide AuthorityOk, Conserved;
    AuthorityWasApproved(protocol, origins, maxRequests, maxBytes, calls[..i]);
    RunConserves(protocol, origins, maxRequests, maxBytes, calls[..i]);
  }

  /**
   What a clean guard has refused: resources of origins that were not approved, provider URLs without an
   authority or outside its policy, and what came after the close began. Anything else leaves a violation.
   */
  lemma {:induction false} CleanRefusals(g: Guard, calls: seq<Call>, i: nat)
    requires Conserved(g) && i < |calls| && Run(g, calls).core.violation.None?
    requires !Apply(Run(g, calls[..i]), calls[i]).1
    ensures var s, c := Run(g, calls[..i]), calls[i];
            && (c.Browser? ==> s.closing || (!c.navigation && !c.persistent && c.resource.Elsewhere?))
            && (c.ProviderRequest? ==> s.authority.None? || !c.permitted)
    decreases |calls|
  {
    hide AuthorityOk, Conserved;
    var n := |calls| - 1;
    if i < n {
      TrafficKeeps(g, calls[..n]);
      StepConserves(Run(g, calls[..n]), calls[n]);
      assert calls[..n][..i] == calls[..i];
      CleanRefusals(g, calls[..n], i);
    }
  }

  /** The guard object; its lock makes each method one step. */
  class RegistrationNetworkGuard {
    const core: NetworkGuardCore
    const protocol: Protocol
    const origins: seq<Origin>
    var getRequests: int
    var headRequests: int
    var verification: Option<HumanVerification>
    var providerRequests: int
    var providerPosts: int
    var providerBytes: int
    var navigationActive: bool
    var closing: bool

    function State(): Guard
      reads this, core
    {
      Guard(protocol, origins, core.State(), getRequests, headRequests, verification,
            providerRequests, providerPosts, providerBytes, navigationActive, closing)
    }

    ghost predicate Valid()
      reads this, core
    {
      Conserved(State())
    }

    /** What application requests leave alone: the authority, its traffic, and the two windows. */
    ghost predicate SameBut(g: Guard)
      reads this
    {
      && verification == g.authority && providerRequests == g.providerRequests && providerPosts == g.providerPosts
      && providerBytes == g.providerBytes && navigationActive == g.navigating && closing == g.closing
    }

    constructor (protocol: Protocol, origins: seq<Origin>, maxRequests: int, maxResponseBytes: Int64)
      requires maxRequests >= 0 && maxResponseBytes >= 0
      ensures Valid() && fresh(core)
      ensures State() == NewGuard(protocol, origins, maxRequests, maxResponseBytes as int)
    {
      core := new NetworkGuardCore(maxRequests, maxResponseBytes);
      this.protocol, this.origins := protocol, origins;
      getRequests, headRequests, verification, navigationActive, closing := 0, 0, None, false, false;
      providerRequests, providerPosts, providerBytes := 0, 0, 0;
    }

    method AllowBrowser(verb: Method, persistent: bool, navigation: bool, navigable: bool, resource: Resource)
      returns (ok: bool)
      requires Valid()
      modifies this, core
      ensures Valid() && (State(), ok) == Apply(old(State()), Browser(verb, persistent, navigation, navigable, resource))
      ensures ok <==> !closing && old(core.violation).None? && old(core.requests) < core.maxRequests
                      && !verb.MethodOther? && !persistent
                      && (if navigation then navigable && navigationActive else resource.Approved?)
      ensures core.requests == old(core.requests) + (if closing then 0 else 1)
      ensures core.responseBytes == old(core.responseBytes) && SameBut(old(State()))
      ensures var counted := !closing && old(core.violation).None? && old(core.requests) < core.maxRequests;
              getRequests == old(getRequests) + (if counted && verb.MethodGet? then 1 else 0)
              && headRequests == old(headRequests) + (if counted && verb.MethodHead? then 1 else 0)
      ensures closing || old(core.violation).Some? ==> core.violation == old(core.violation)
      ensures !closing && old(core.violation).None? ==>
                if old(core.requests) >= core.maxRequests then core.violation == Some(RequestLimit)
                else if verb.MethodOther? then core.violation == Some(MutationMethod)
                else if persistent then core.violation == Some(PersistentResource)
                else if navigation then
                  core.violation == if !navigable then Some(OriginEscape)
                                    else if !navigationActive then Some(UnexpectedNavigation) else None
                else core.violation == if resource.Unparsed? then Some(OriginEscape) else None
    {
      hide AuthorityOk, Conserved;
      ConservedCore(State());
      StepConserves(State(), Browser(verb, persistent, navigation, navigable, resource));
      if closing { return false; }
      ok := core.BeginRequest();
      if !ok { return; }
      match verb {
        case MethodGet => getRequests := getRequests + 1;
        case MethodHead => headRequests := headRequests + 1;
        case MethodOther => core.Violate(MutationMethod); return false;
      }
      if persistent { core.Violate(PersistentResource); return false; }
      if navigation {
        if !navigable { core.Violate(OriginEscape); return false; }
        if !navigationActive { core.Violate(UnexpectedNavigation); return false; }
        return core.violation.None?;
      }
      if resource == Unparsed { core.Violate(OriginEscape); return false; }
      if resource == Elsewhere { return false; }
      ok := core.violation.None?;
    }

    method BeginNavigation(navigable: bool) returns (ok: bool)
      requires Valid()
      modifies this
      ensures Valid() && (State(), ok) == Apply(old(State()), Call.BeginNavigation(navigable))
      ensures ok <==> !closing && !old(navigationActive) && core.violation.None? && navigable
      ensures navigationActive == (old(navigationActive) || ok)
      ensures SameBut(old(State()).(navigating := navigationActive))
    {
      if closing || navigationActive || core.violation.Some? || !navigable { return false; }
      navigationActive := true;
      ok := true;
    }

    method EndNavigation()
      requires Valid()
      modifies this
      ensures Valid() && State() == Apply(old(State()), Call.EndNavigation).0 && !navigationActive
    {
      navigationActive := false;
    }

    method BeginHead(navigable: bool) returns (ok: bool)
      requires Valid()
      modifies this, core
      ensures Valid() && (State(), ok) == Apply(old(State()), Call.BeginHead(navigable))
      ensures var free := !closing && !navigationActive && old(core.violation).None? && navigable;
              && ok == (free && old(core.requests) < core.maxRequests)
              && core.requests == old(core.requests) + (if free then 1 else 0)
              && core.violation == if free && !ok then Some(RequestLimit) else old(core.violation)
      ensures headRequests == old(headRequests) + (if ok then 1 else 0) && getRequests == old(getRequests)
      ensures SameBut(old(State()))
    {
      StepConserves(State(), Call.BeginHead(navigable));
      if closing || navigationActive || core.violation.Some? || !navigable { return false; }
      ok := core.BeginRequest();
      if !ok { return; }
      headRequests := headRequests + 1;
    }

    method ObserveResponseContentLength(size: Int64)
      requires Valid()
      modifies core
      ensures Valid() && State() == Apply(old(State()), Length(size as int)).0
      ensures core.violation == if !closing && old(core.violation).None? && !(0 <= size <= core.maxResponseBytes)
                                then Some(ResponseLimit) else old(core.violation)
    {
      StepConserves(State(), Length(size as int));
      if !closing { core.ObserveContentLength(size); }
    }

    method ObserveBytes(size: Int64)
      requires Valid()
      modifies core
      ensures Valid() && State() == Apply(old(State()), Bytes(size as int)).0
      ensures var fits := 0 <= size && old(core.responseBytes) as int + size as int <= core.maxResponseBytes as int;
              && core.responseBytes == old(core.responseBytes) + (if fits && !closing then size else 0)
              && core.violation == if !closing && old(core.violation).None? && !fits then Some(ResponseLimit)
                                   else old(core.violation)
    {
      StepConserves(State(), Bytes(size as int));
      if !closing { var ok := core.ObserveFinishedResponse(size); }
    }

    method Block(code: Code)
      requires Valid()
      modifies core
      ensures Valid() && State() == Apply(old(State()), Call.Block(code)).0
      ensures core.violation == if !closing && old(core.violation).None? then Some(code) else old(core.violation)
    {
      StepConserves(State(), Call.Block(code));
      if !closing { core.Violate(code); }
    }

    /** The health check is a step of its own: what it answers may be out of date when the authority is set. */
    method Health() returns (ok: bool)
      requires Valid()
      ensures ok <==> State().core.violation.None?
    {
      ok := core.violation.None?;
    }

    /** Sets the authority once; a violation since the health check does not matter here. */
    method ApproveVerification(v: HumanVerification) returns (ok: bool)
      requires Valid()
      modifies this
      ensures Valid() && (State(), ok) == Apply(old(State()), Approve(v))
      ensures ok <==> protocol == V4 && AuthorityOk(v, origins) && old(verification).None?
      ensures verification == if ok then Some(v) else old(verification)
    {
      StepConserves(State(), Approve(v));
      if protocol != V4 || !AuthorityOk(v, origins) || verification.Some? { return false; }
      verification := Some(v);
      ok := true;
    }

    /** The admission of a provider request. */
    method AdmitVerification(permitted: bool, inTime: bool, persistent: bool, bound: bool, post: bool) returns (ok: bool)
      requires Valid()
      modifies this, core
      ensures Valid() && (State(), ok) == Apply(old(State()), ProviderRequest(permitted, inTime, persistent, bound, post))
      ensures ok <==> verification.Some? && permitted && !closing && old(core.violation).None? && inTime && !persistent
                      && bound && old(providerRequests) < verification.value.dependencies.maxRequests
      ensures providerRequests == old(providerRequests) + (if ok then 1 else 0)
      ensures providerPosts == old(providerPosts) + (if ok && post then 1 else 0)
      ensures core.violation == if verification.Some? && permitted && !ok && old(core.violation).None?
                                then Some(VerificationPolicy) else old(core.violation)
      ensures verification == old(verification) && core.requests == old(core.requests)
    {
      StepConserves(State(), ProviderRequest(permitted, inTime, persistent, bound, post));
      if verification.None? || !permitted { return false; }
      ok := !closing && core.violation.None? && inTime;
      ok := ok && !persistent;
      ok := ok && bound;
      ok := ok && providerRequests < verification.value.dependencies.maxRequests;
      if ok {
        providerRequests := providerRequests + 1;
        if post { providerPosts := providerPosts + 1; }
      } else {
        core.Violate(VerificationPolicy);
      }
    }

    /** The accounting of a provider response body. */
    method CountVerification(size: nat, inTime: bool) returns (ok: bool)
      requires Valid() && verification.Some?
      modifies this
      ensures Valid() && (State(), ok) == Apply(old(State()), ProviderBody(size, inTime))
      ensures ok <==> old(providerBytes) + size <= verification.value.dependencies.maxResponseBytes && inTime
                      && core.violation.None?
      ensures providerBytes == old(providerBytes) + (if ok then size else 0) && verification == old(verification)
    {
      StepConserves(State(), ProviderBody(size, inTime));
      ok := size <= verification.value.dependencies.maxResponseBytes - providerBytes && inTime && core.violation.None?;
      if ok { providerBytes := providerBytes + size; }
    }

    method BeginClose()
      requires Valid()
      modifies this
      ensures Valid() && State() == Apply(old(State()), Call.BeginClose).0 && closing
    {
      closing := true;
    }

    /** The summary of the close: a clean one passes the session's network check. */
    method Result(closed: bool) returns (summary: NetworkSummary, clean: bool)
      requires Valid()
      ensures summary == Summary(State()) && clean == (closed && core.violation.None?)
      ensures clean ==> SummaryOkFor(summary, core.maxRequests, protocol, verification)
    {
      summary := NetworkSummary(core.requests, getRequests, headRequests, providerRequests, providerPosts, providerBytes);
      clean := closed && core.violation.None?;
    }
  }
}
