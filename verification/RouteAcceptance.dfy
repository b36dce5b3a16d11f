// Does the layer a connection is handed to accept it? The dialer's choice of
// a resource, the stacks' choice of a path, and what the tunnels then look for.
module RouteAcceptance {
  import opened Prelude
  import R = ResourceIndex
  import D = DomainIndex

  type IPResource = R.IPResource
  type DomainResource = D.DomainResource

  // What a context may carry under its domain-resource key: nothing, the
  // resolver's list, or one chosen resource.
  datatype DomainValue = NoDomain | Candidates(list: seq<DomainResource>) | Chosen(resource: DomainResource)

  datatype Context = Context(domain: DomainValue, ip: Option<IPResource>, ignoreTCPPrefL3: bool)

  datatype Decision = Direct | Denied | Vpn(ctx: Context)

  // ---- Matching ----

  predicate NotL3(r: IPResource) {
    !r.enableTCPPrefL3
  }

  predicate PrefersL3(r: IPResource) {
    r.enableTCPPrefL3
  }

  predicate DomainCovers(r: DomainResource, network: string, port: int) {
    (r.protocol == network || r.protocol == "all") && (network == "icmp" || r.portMin <= port <= r.portMax)
  }

  predicate AnyDomain(r: DomainResource) {
    true
  }

  predicate DomainNotL3(r: DomainResource) {
    !r.enableTCPPrefL3
  }

  // The first resource of a list that covers the destination and passes a filter.
  function FirstDomain(list: seq<DomainResource>, network: string, port: int,
                       accept: DomainResource -> bool): Option<DomainResource> {
    if list == [] then None
    else if DomainCovers(list[0], network, port) && accept(list[0]) then Some(list[0])
    else FirstDomain(list[1..], network, port, accept)
  }

  lemma {:induction false} FirstDomainIsFirst(list: seq<DomainResource>, network: string, port: int,
                                              accept: DomainResource -> bool, k: nat)
    requires k <= |list| && forall i :: 0 <= i < k ==> !(DomainCovers(list[i], network, port) && accept(list[i]))
    ensures k == |list| ==> FirstDomain(list, network, port, accept) == None
    ensures k < |list| && DomainCovers(list[k], network, port) && accept(list[k]) ==>
              FirstDomain(list, network, port, accept) == Some(list[k])
  {
    if k > 0 {
      FirstDomainIsFirst(list[1..], network, port, accept, k - 1);
    }
  }

  lemma {:induction false} FirstDomainMatches(list: seq<DomainResource>, network: string, port: int,
                                              accept: DomainResource -> bool)
    ensures FirstDomain(list, network, port, accept).Some? ==>
              var r := FirstDomain(list, network, port, accept).value;
              r in list && DomainCovers(r, network, port) && accept(r)
    ensures FirstDomain(list, network, port, accept) == None ==>
              forall r :: r in list ==> !(DomainCovers(r, network, port) && accept(r))
  {
    if list != [] {
      FirstDomainMatches(list[1..], network, port, accept);
    }
  }

  method MatchDomainResourceWhere(list: seq<DomainResource>, network: string, port: int, accept: DomainResource -> bool)
    returns (found: Option<DomainResource>)
    ensures found == FirstDomain(list, network, port, accept)
  {
    for k := 0 to |list|
      invariant forall i :: 0 <= i < k ==> !(DomainCovers(list[i], network, port) && accept(list[i]))
    {
      if DomainCovers(list[k], network, port) && accept(list[k]) {
        FirstDomainIsFirst(list, network, port, accept, k);
        return Some(list[k]);
      }
    }
    FirstDomainIsFirst(list, network, port, accept, |list|);
    return None;
  }

  // Both matchers prefer, for TCP, a resource that goes through the TCP tunnel.
  function DomainForTunnel(list: seq<DomainResource>, network: string, port: int): Option<DomainResource> {
    if network == "tcp" && FirstDomain(list, network, port, DomainNotL3).Some?
    then FirstDomain(list, network, port, DomainNotL3) else FirstDomain(list, network, port, AnyDomain)
  }

  function IPForTunnel(resources: seq<IPResource>, target: R.Address, network: string, port: int): Option<IPResource> {
    if network == "tcp" && R.Lookup(resources, target, network, port, false, NotL3).Some?
    then R.Lookup(resources, target, network, port, false, NotL3)
    else R.Lookup(resources, target, network, port, false, R.Anything)
  }

  method MatchDomainResourceForTunnel(list: seq<DomainResource>, network: string, port: int)
    returns (found: Option<DomainResource>)
    ensures found == DomainForTunnel(list, network, port)
  {
    if network == "tcp" {
      found := MatchDomainResourceWhere(list, network, port, DomainNotL3);
      if found.Some? {
        return;
      }
    }
    found := MatchDomainResourceWhere(list, network, port, AnyDomain);
  }

  method MatchIPResourceForTunnel(index: R.Index, ghost resources: seq<IPResource>, target: R.Address,
                                  network: string, port: int)
    returns (found: Option<IPResource>)
    requires R.Indexes(index, resources)
    ensures found == IPForTunnel(resources, target, network, port)
  {
    if network == "tcp" {
      found := R.Match(index, resources, target, network, port, false, NotL3);
      if found.Some? {
        return;
      }
    }
    found := R.Match(index, resources, target, network, port, false, R.Anything);
  }

  // ---- The dialer ----

  function DomainChoice(ctx: Context, network: string, port: int): Option<DomainResource> {
    match ctx.domain
    case NoDomain => None
    case Candidates(list) => DomainForTunnel(list, network, port)
    case Chosen(resource) => DomainForTunnel([resource], network, port)
  }

  // Known resources are optional; without them there is nothing to enforce.
  function Decide(ctx: Context, resources: Option<seq<IPResource>>, target: R.Address, network: string, port: int,
                  alwaysUseVPN: bool): Decision {
    var domain := DomainChoice(ctx, network, port);
    var ip := if resources.Some? then IPForTunnel(resources.value, target, network, port) else None;
    if domain.Some? then ThroughVpn(ctx.(domain := Chosen(domain.value)), network)
    else if ip.Some? then ThroughVpn(ctx.(ip := ip), network)
    else if alwaysUseVPN then (if resources.Some? then Denied else ThroughVpn(ctx, network))
    else Direct
  }

  // The VPN carries TCP and UDP; for other networks the dialer connects directly all the same.
  function ThroughVpn(ctx: Context, network: string): Decision {
    if network == "tcp" || network == "udp" then Vpn(ctx) else Direct
  }

  method DialIPPort(c: Context, index: R.Index, resources: Option<seq<IPResource>>, target: R.Address, network: string,
                    port: int, alwaysUseVPN: bool) returns (decision: Decision)
    requires resources.Some? ==> R.Indexes(index, resources.value)
    ensures decision == Decide(c, resources, target, network, port, alwaysUseVPN)
  {
    var ctx := c;
    var useVPN := false;
    if alwaysUseVPN {
      useVPN := true;
    }
    var matchedResource := false;
    if !ctx.domain.NoDomain? {
      var found;
      match ctx.domain {
        case Candidates(list) => found := MatchDomainResourceForTunnel(list, network, port);
        case Chosen(resource) => found := MatchDomainResourceForTunnel([resource], network, port);
      }
      if found.Some? {
        ctx := ctx.(domain := Chosen(found.value));
        useVPN := true;
        matchedResource := true;
      }
    }
    if !matchedResource && resources.Some? {
      var found := MatchIPResourceForTunnel(index, resources.value, target, network, port);
      if found.Some? {
        ctx := ctx.(ip := found);
        useVPN := true;
        matchedResource := true;
      }
    }
    if useVPN && !matchedResource && resources.Some? {
      return Denied;
    }
    if useVPN {
      if network == "tcp" {
        decision := Vpn(ctx);
      } else if network == "udp" {
        decision := Vpn(ctx);
      } else {
        decision := Direct;
      }
    } else {
      decision := Direct;
    }
  }

  // ---- The stacks and the tunnels ----

  predicate TCPPrefersL3(ctx: Context) {
    if ctx.domain.Chosen? then ctx.domain.resource.enableTCPPrefL3
    else ctx.ip.Some? && ctx.ip.value.enableTCPPrefL3
  }

  // The TCP tunnel looks for the last matching resource, by its own index.
  function TunnelIPResource(resources: seq<IPResource>, target: R.Address, port: int,
                            ignoreTCPPrefL3: bool): Option<IPResource> {
    var found := R.Lookup(resources, target, "tcp", port, true, NotL3);
    if found.Some? then found
    else if ignoreTCPPrefL3 then R.Lookup(resources, target, "tcp", port, true, R.Anything) else None
  }

  // The application under which the client's DialTCP opens a tunnel; None when it finds no resource.
  function TunnelAppID(ctx: Context, resources: seq<IPResource>, target: R.Address, port: int): Option<string> {
    if ctx.domain.Chosen? && ctx.domain.resource.enableTCPPrefL3 && !ctx.ignoreTCPPrefL3 then None else
    var appID := if ctx.domain.Chosen? then ctx.domain.resource.appID else "";
    var found := TunnelIPResource(resources, target, port, ctx.ignoreTCPPrefL3);
    if appID != "" then Some(appID)
    else if found.Some? && found.value.appID != "" then Some(found.value.appID)
    else None
  }

  // The resource under which the L3 tunnel sends a packet.
  function L3Resource(resources: seq<IPResource>, target: R.Address, protocol: string, port: int): Option<IPResource> {
    R.Lookup(resources, target, protocol, port, false, if protocol == "tcp" then PrefersL3 else R.Anything)
  }

  // The gVisor stack, and the TUN stack for connections of its own.
  predicate StackAcceptsTCP(ctx: Context, resources: seq<IPResource>, target: R.Address, port: int) {
    if TCPPrefersL3(ctx) then L3Resource(resources, target, "tcp", port).Some?
    else TunnelAppID(ctx, resources, target, port).Some?
  }

  // The stack without a network of its own: everything goes through the TCP tunnel.
  predicate TunnelStackAcceptsTCP(ctx: Context, resources: seq<IPResource>, target: R.Address, port: int) {
    TunnelAppID(ctx.(ignoreTCPPrefL3 := true), resources, target, port).Some?
  }

  ghost predicate Named(resources: seq<IPResource>) {
    forall r :: r in resources ==> r.appID != ""
  }

  ghost predicate DomainsNamed(value: DomainValue) {
    match value
    case NoDomain => true
    case Candidates(list) => forall r :: r in list ==> r.appID != ""
    case Chosen(resource) => resource.appID != ""
  }

  // ---- What the searches have in common ----

  lemma {:induction false} MatchesAreMembers(resources: seq<IPResource>, q: R.Query, accept: IPResource -> bool)
    ensures R.FirstMatch(resources, q, accept).Some? ==>
              R.FirstMatch(resources, q, accept).value in resources
              && R.Matches(R.FirstMatch(resources, q, accept).value, q, accept)
    ensures R.LastMatch(resources, q, accept).Some? ==>
              R.LastMatch(resources, q, accept).value in resources
              && R.Matches(R.LastMatch(resources, q, accept).value, q, accept)
  {
    if resources != [] {
      MatchesAreMembers(resources[1..], q, accept);
      MatchesAreMembers(resources[..|resources| - 1], q, accept);
    }
  }

  // The search from the front finds something exactly when the search from the back does.
  lemma FirstIffLast(resources: seq<IPResource>, target: R.Address, network: string, port: int,
                     accept: IPResource -> bool)
    ensures R.Lookup(resources, target, network, port, false, accept).Some? <==>
            R.Lookup(resources, target, network, port, true, accept).Some?
    ensures forall last :: R.Lookup(resources, target, network, port, last, accept).Some? ==>
              R.Lookup(resources, target, network, port, last, accept).value in resources
              && accept(R.Lookup(resources, target, network, port, last, accept).value)
  {
    if target.V4? {
      R.NoMatch(resources, R.Query(target.value, network, port), accept);
      MatchesAreMembers(resources, R.Query(target.value, network, port), accept);
    }
  }

  // When nothing that matches goes through the TCP tunnel, the search for L3 resources loses nothing.
  lemma {:induction false} OnlyL3Left(resources: seq<IPResource>, q: R.Query)
    requires R.FirstMatch(resources, q, NotL3) == None
    ensures R.FirstMatch(resources, q, PrefersL3) == R.FirstMatch(resources, q, R.Anything)
  {
    if resources != [] {
      OnlyL3Left(resources[1..], q);
    }
  }

  // ---- The theorems ----

  // Chosen by the IP index for TCP: whatever the stack, the layer that gets the connection accepts it;
  // and where that is the L3 tunnel, it sends under the very resource the dialer chose.
  lemma TCPIPChoicesAreAccepted(ctx: Context, resources: seq<IPResource>, target: R.Address, port: int, always: bool)
    requires Named(resources) && !ctx.domain.Chosen? && DomainChoice(ctx, "tcp", port) == None
    requires IPForTunnel(resources, target, "tcp", port).Some?
    ensures var decision := Decide(ctx, Some(resources), target, "tcp", port, always);
            && decision.Vpn? && decision.ctx.ip.Some?
            && StackAcceptsTCP(decision.ctx, resources, target, port)
            && TunnelStackAcceptsTCP(decision.ctx, resources, target, port)
            && (TCPPrefersL3(decision.ctx) ==> L3Resource(resources, target, "tcp", port) == decision.ctx.ip)
  {
    FirstIffLast(resources, target, "tcp", port, NotL3);
    FirstIffLast(resources, target, "tcp", port, PrefersL3);
    FirstIffLast(resources, target, "tcp", port, R.Anything);
    if target.V4? && R.Lookup(resources, target, "tcp", port, false, NotL3) == None {
      OnlyL3Left(resources, R.Query(target.value, "tcp", port));
    }
  }

  // Chosen by the IP index: the L3 tunnel would send under the very resource the dialer chose, unless it is one
  // for the TCP tunnel; of the networks, TCP and UDP go through the VPN.
  lemma IPChoicesAgree(ctx: Context, resources: seq<IPResource>, target: R.Address, network: string, port: int,
                       always: bool)
    requires DomainChoice(ctx, network, port) == None && IPForTunnel(resources, target, network, port).Some?
    ensures var decision := Decide(ctx, Some(resources), target, network, port, always);
            && (decision.Vpn? <==> network == "tcp" || network == "udp") && (!decision.Vpn? ==> decision.Direct?)
            && (L3Resource(resources, target, network, port) == IPForTunnel(resources, target, network, port) <==>
                !(network == "tcp" && R.Lookup(resources, target, "tcp", port, false, NotL3).Some?))
            && (decision.Vpn? ==> decision.ctx.ip == IPForTunnel(resources, target, network, port))
  {
    FirstIffLast(resources, target, network, port, NotL3);
    FirstIffLast(resources, target, network, port, PrefersL3);
    FirstIffLast(resources, target, network, port, R.Anything);
    if network == "tcp" && target.V4? && R.Lookup(resources, target, "tcp", port, false, NotL3) == None {
      OnlyL3Left(resources, R.Query(target.value, "tcp", port));
    }
  }

  // All that the context's domain resources cover of the port is left to the L3 tunnel.
  predicate OnlyL3(domain: DomainValue, port: int) {
    match domain
    case NoDomain => false
    case Candidates(list) =>
      FirstDomain(list, "tcp", port, AnyDomain).Some? && FirstDomain(list, "tcp", port, DomainNotL3).None?
    case Chosen(resource) => resource.enableTCPPrefL3
  }

  // In general: of the TCP connections the dialer sends to a tunnel, those are refused whose domain leaves
  // them to L3 while no L3 resource covers the address the name resolved to, and no others.
  lemma AcceptedUnlessDomainPrefersL3(ctx: Context, resources: seq<IPResource>, target: R.Address, port: int,
                                      always: bool)
    requires Named(resources) && DomainsNamed(ctx.domain)
    requires DomainChoice(ctx, "tcp", port).Some? || IPForTunnel(resources, target, "tcp", port).Some?
    ensures var decision := Decide(ctx, Some(resources), target, "tcp", port, always);
            && decision.Vpn?
            && (StackAcceptsTCP(decision.ctx, resources, target, port) <==>
                !(OnlyL3(ctx.domain, port) && L3Resource(resources, target, "tcp", port) == None))
  {
    var choice := DomainChoice(ctx, "tcp", port);
    if choice.None? && !ctx.domain.Chosen? {
      TCPIPChoicesAreAccepted(ctx, resources, target, port, always);
    } else if choice.Some? {
      ChoiceIsNamed(ctx, port);
      ChoicePrefersL3(ctx, port);
    }
  }

  // The chosen resource prefers L3 only when nothing else was left to choose.
  lemma ChoicePrefersL3(ctx: Context, port: int)
    requires DomainChoice(ctx, "tcp", port).Some?
    ensures DomainChoice(ctx, "tcp", port).value.enableTCPPrefL3 <==> OnlyL3(ctx.domain, port)
  {
    match ctx.domain
    case Candidates(list) =>
      FirstDomainMatches(list, "tcp", port, DomainNotL3);
      if FirstDomain(list, "tcp", port, DomainNotL3) == None {
        OnlyL3Domains(list, port);
      }
    case Chosen(resource) =>
      FirstDomainMatches([resource], "tcp", port, DomainNotL3);
      FirstDomainMatches([resource], "tcp", port, AnyDomain);
  }

  lemma {:induction false} OnlyL3Domains(list: seq<DomainResource>, port: int)
    requires FirstDomain(list, "tcp", port, DomainNotL3) == None
    ensures FirstDomain(list, "tcp", port, AnyDomain).Some? ==>
              FirstDomain(list, "tcp", port, AnyDomain).value.enableTCPPrefL3
  {
    if list != [] {
      OnlyL3Domains(list[1..], port);
    }
  }

  lemma ChoiceIsNamed(ctx: Context, port: int)
    requires DomainsNamed(ctx.domain)
    ensures DomainChoice(ctx, "tcp", port).Some? ==> DomainChoice(ctx, "tcp", port).value.appID != ""
  {
    match ctx.domain
    case NoDomain =>
    case Candidates(list) =>
      FirstDomainMatches(list, "tcp", port, DomainNotL3);
      FirstDomainMatches(list, "tcp", port, AnyDomain);
    case Chosen(resource) =>
      FirstDomainMatches([resource], "tcp", port, DomainNotL3);
      FirstDomainMatches([resource], "tcp", port, AnyDomain);
  }

  // Such a case: the host's only resource prefers L3, and no IP resource covers its address.
  lemma DomainChoiceMayBeRefused()
    ensures var resource := D.DomainResource(1, 65535, "tcp", "app", "group", true, true);
            var decision := Decide(Context(Candidates([resource]), None, false), Some([]), R.V4(1), "tcp", 443, false);
            decision.Vpn? && !StackAcceptsTCP(decision.ctx, [], R.V4(1), 443)
  {
    var resource := D.DomainResource(1, 65535, "tcp", "app", "group", true, true);
    assert FirstDomain([resource], "tcp", 443, AnyDomain) == Some(resource);
    assert FirstDomain([], "tcp", 443, DomainNotL3) == None;
    assert R.FirstMatch([], R.Query(1, "tcp", 443), PrefersL3) == None;
  }

  // ---- Packets from the TUN device ----

  datatype Route = ToTunnel(ctx: Context) | ToL3 | NoRoute

  // What the TUN stack does with a packet for a global unicast address. The pool may know the name
  // behind the address; a connection it takes over is dialled again by handleInboundConn.
  function TunRoute(domain: Option<seq<DomainResource>>, resources: seq<IPResource>, target: R.Address,
                    protocol: string, port: int): Route {
    if domain.Some? && FirstDomain(domain.value, protocol, port, AnyDomain).Some? then
      if protocol == "tcp" && FirstDomain(domain.value, "tcp", port, DomainNotL3).Some?
      then ToTunnel(Inbound(domain, port)) else ToL3
    else if R.Lookup(resources, target, protocol, port, false, R.Anything).Some? then
      if protocol == "tcp" && R.Lookup(resources, target, "tcp", port, false, NotL3).Some?
      then ToTunnel(Inbound(domain, port)) else ToL3
    else NoRoute
  }

  function Inbound(domain: Option<seq<DomainResource>>, port: int): Context {
    var found := if domain.Some? then FirstDomain(domain.value, "tcp", port, DomainNotL3) else None;
    Context(if found.Some? then Chosen(found.value) else NoDomain, None, false)
  }

  // A packet sent to the TCP tunnel is always accepted there. A packet sent to L3 on the strength of
  // the IP index is sent under the very resource that matched; only a name's packets may be refused.
  lemma TunRoutesAreAccepted(domain: Option<seq<DomainResource>>, resources: seq<IPResource>, target: R.Address,
                             protocol: string, port: int)
    requires Named(resources) && (domain.Some? ==> DomainsNamed(Candidates(domain.value)))
    ensures var route := TunRoute(domain, resources, target, protocol, port);
            && (route.ToTunnel? ==> TunnelAppID(route.ctx, resources, target, port).Some?)
            && (route.ToL3? && !(domain.Some? && FirstDomain(domain.value, protocol, port, AnyDomain).Some?) ==>
                  L3Resource(resources, target, protocol, port).Some?
                  && L3Resource(resources, target, protocol, port)
                     == R.Lookup(resources, target, protocol, port, false, R.Anything))
  {
    FirstIffLast(resources, target, protocol, port, NotL3);
    if domain.Some? {
      FirstDomainMatches(domain.value, "tcp", port, DomainNotL3);
    }
    if protocol == "tcp" && target.V4? && R.Lookup(resources, target, "tcp", port, false, NotL3) == None {
      OnlyL3Left(resources, R.Query(target.value, "tcp", port));
    }
  }

  // ---- The decisions on the fields of the resources ----

  function DomainsOf(value: DomainValue): seq<DomainResource> {
    match value
    case NoDomain => []
    case Candidates(list) => list
    case Chosen(resource) => [resource]
  }

  // A domain resource is for this network and port.
  predicate Allows(r: DomainResource, network: string, port: int) {
    && (r.protocol == "all" || r.protocol == network)
    && (network != "icmp" ==> r.portMin <= port && port <= r.portMax)
  }

  ghost predicate AllowedByName(ctx: Context, network: string, port: int) {
    exists r :: r in DomainsOf(ctx.domain) && Allows(r, network, port)
  }

  ghost predicate AllowedByAddress(resources: Option<seq<IPResource>>, target: R.Address, network: string, port: int) {
    resources.Some? && exists k :: 0 <= k < |resources.value| && R.ServedBy(resources.value, k, target, network, port)
  }

  lemma NameDecides(ctx: Context, network: string, port: int)
    ensures DomainChoice(ctx, network, port).Some? <==> AllowedByName(ctx, network, port)
    ensures DomainChoice(ctx, network, port).Some? ==>
              var r := DomainChoice(ctx, network, port).value;
              && r in DomainsOf(ctx.domain) && Allows(r, network, port)
              && (network == "tcp" && r.enableTCPPrefL3 ==>
                    forall other :: other in DomainsOf(ctx.domain) && Allows(other, network, port) ==> other.enableTCPPrefL3)
  {
    var list := DomainsOf(ctx.domain);
    FirstDomainMatches(list, network, port, AnyDomain);
    FirstDomainMatches(list, network, port, DomainNotL3);
    assert forall r: DomainResource :: DomainCovers(r, network, port) <==> Allows(r, network, port);
    assert DomainChoice(ctx, network, port) == DomainForTunnel(list, network, port);
  }

  lemma AddressDecides(resources: seq<IPResource>, target: R.Address, network: string, port: int)
    ensures IPForTunnel(resources, target, network, port).Some? <==> AllowedByAddress(Some(resources), target, network, port)
  {
    R.LookupOnFields(resources, target, network, port, false, R.Anything);
    R.LookupOnFields(resources, target, network, port, false, NotL3);
  }

  // What the dialer decides, by what the resources allow: denied exactly when the VPN is forced and a known list
  // of resources allows the destination neither by name nor by address; through the VPN exactly when TCP or UDP
  // is allowed, or is forced without a list; direct otherwise. A name that allows comes before an address.
  lemma DecisionOnFields(ctx: Context, resources: Option<seq<IPResource>>, target: R.Address, network: string,
                         port: int, always: bool)
    ensures var decision := Decide(ctx, resources, target, network, port, always);
            var byName := AllowedByName(ctx, network, port);
            var byAddress := AllowedByAddress(resources, target, network, port);
            && (decision.Denied? <==> always && resources.Some? && !byName && !byAddress)
            && (decision.Vpn? <==> (network == "tcp" || network == "udp")
                                   && (byName || byAddress || (always && resources.None?)))
            && (decision.Vpn? && byName ==>
                  && decision.ctx == ctx.(domain := decision.ctx.domain) && decision.ctx.domain.Chosen?
                  && decision.ctx.domain.resource in DomainsOf(ctx.domain)
                  && Allows(decision.ctx.domain.resource, network, port))
            && (decision.Vpn? && !byName && byAddress ==>
                  && decision.ctx == ctx.(ip := decision.ctx.ip)
                  && decision.ctx.ip == IPForTunnel(resources.value, target, network, port))
            && (decision.Vpn? && !byName && !byAddress ==> decision.ctx == ctx)
  {
    NameDecides(ctx, network, port);
    if resources.Some? {
      AddressDecides(resources.value, target, network, port);
    }
    hide DomainChoice, IPForTunnel, AllowedByName;
  }

  // Where the TUN stack sends a packet: nowhere exactly when neither the name nor the address allows it; TCP to
  // the TCP tunnel exactly when a resource of the kind that allows it does not leave it to L3.
  lemma TunRouteOnFields(domain: Option<seq<DomainResource>>, resources: seq<IPResource>, target: R.Address,
                         protocol: string, port: int)
    ensures var route := TunRoute(domain, resources, target, protocol, port);
            var list := if domain.Some? then domain.value else [];
            var byName := exists r :: r in list && Allows(r, protocol, port);
            && (route.NoRoute? <==> !byName && !AllowedByAddress(Some(resources), target, protocol, port))
            && (route.ToTunnel? ==> protocol == "tcp")
            && (protocol == "tcp" && byName ==>
                  (route.ToTunnel? <==> exists r :: r in list && Allows(r, protocol, port) && !r.enableTCPPrefL3))
            && (protocol == "tcp" && !byName ==>
                  (route.ToTunnel? <==> exists k :: 0 <= k < |resources| && R.ServedBy(resources, k, target, protocol, port)
                                                    && !resources[k].enableTCPPrefL3))
  {
    var list := if domain.Some? then domain.value else [];
    FirstDomainMatches(list, protocol, port, AnyDomain);
    FirstDomainMatches(list, protocol, port, DomainNotL3);
    assert forall r: DomainResource :: DomainCovers(r, protocol, port) <==> Allows(r, protocol, port);
    R.LookupOnFields(resources, target, protocol, port, false, R.Anything);
    R.LookupOnFields(resources, target, protocol, port, false, NotL3);
    hide FirstDomain, R.Lookup;
  }

  // The application a tunnel is opened under: that of the chosen domain resource if it names one, else that of a
  // resource for the address, the last one in the list that is not left to L3, or the last one at all where that
  // does not matter.
  lemma TunnelAppOnFields(ctx: Context, resources: seq<IPResource>, target: R.Address, port: int, k: nat)
    requires !(ctx.domain.Chosen? && ctx.domain.resource.enableTCPPrefL3 && !ctx.ignoreTCPPrefL3)
    ensures ctx.domain.Chosen? && ctx.domain.resource.appID != "" ==>
              TunnelAppID(ctx, resources, target, port) == Some(ctx.domain.resource.appID)
    ensures !(ctx.domain.Chosen? && ctx.domain.resource.appID != "") && k < |resources| && resources[k].appID != ""
            && (R.Foremost(resources, k, target, "tcp", port, true, NotL3)
                || (ctx.ignoreTCPPrefL3 && R.Lookup(resources, target, "tcp", port, true, NotL3) == None
                    && R.Foremost(resources, k, target, "tcp", port, true, R.Anything))) ==>
              TunnelAppID(ctx, resources, target, port) == Some(resources[k].appID)
  {
    R.LookupOnFields(resources, target, "tcp", port, true, NotL3);
    R.LookupOnFields(resources, target, "tcp", port, true, R.Anything);
    hide R.Lookup, R.Foremost;
  }
}
