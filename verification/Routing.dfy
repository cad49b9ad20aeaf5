// Which way a destination takes: the dialer picks direct, TCP tunnel or L3 tunnel from the rules, and the
// chosen transport looks the rule up again by its own order. The two must agree.
module Routing {
  import opened Bytes
  import opened IpResource

  datatype DomainResource = DomainResource(
    portMin: int, portMax: int, protocol: string, appID: string, nodeGroupID: string, prefersL3: bool)

  // What the dialer leaves in the context for the transports.
  datatype Context = Context(domainResource: Option<DomainResource>, ipResource: Option<IPResource>, ignorePreference: bool)

  datatype Route = BadAddress | Denied | Direct | Tcp(ctx: Context) | Udp(ctx: Context) | Unsupported

  predicate HasPrefix(s: string, prefix: string) {
    prefix <= s
  }

  function ResourceNetwork(network: string): string {
    if HasPrefix(network, "tcp") then "tcp" else if HasPrefix(network, "udp") then "udp" else network
  }

  function MatchDomainResourceWhere(rs: seq<DomainResource>, network: string, port: int,
          accept: DomainResource -> bool): Option<DomainResource> {
    if rs == [] then None
    else if (rs[0].protocol == network || rs[0].protocol == "all")
      && (network == "icmp" || rs[0].portMin <= port <= rs[0].portMax) && accept(rs[0]) then Some(rs[0])
    else MatchDomainResourceWhere(rs[1..], network, port, accept)
  }

  function MatchDomainResourceForTunnel(rs: seq<DomainResource>, network: string, port: int): Option<DomainResource> {
    var preferred := if network == "tcp" then MatchDomainResourceWhere(rs, network, port, (r: DomainResource) => !r.prefersL3) else None;
    if preferred.Some? then preferred else MatchDomainResourceWhere(rs, network, port, (r: DomainResource) => true)
  }

  predicate AvoidsL3(r: IPResource) { !r.prefersL3 }

  function L3Accepts(protocol: string): IPResource -> bool {
    (r: IPResource) => protocol != "tcp" || r.prefersL3
  }

  function MatchIPResourceForTunnel(rs: seq<IPResource>, target: seq<Byte>, network: string,
          port: int): Option<IPResource> {
    var preferred := if network == "tcp" then Scan(rs, target, network, port, false, Some(AvoidsL3)) else None;
    if preferred.Some? then preferred else Scan(rs, target, network, port, false, None)
  }

  // DialIPPort up to the call of the transport; `domain` is the rule set the resolver found for the host.
  function DialIPPort(rs: seq<IPResource>, domain: seq<DomainResource>, alwaysUseVPN: bool, ignorePreference: bool,
                      network: string, ip: Option<seq<Byte>>, port: int): Route
  {
    if ip.None? || !(1 <= port <= 65535) then BadAddress
    else if To4(ip.value).None? then if alwaysUseVPN then Denied else Direct
    else
      var network' := ResourceNetwork(network);
      var byDomain := MatchDomainResourceForTunnel(domain, network', port);
      var byIP := if byDomain.Some? then None else MatchIPResourceForTunnel(rs, ip.value, network', port);
      var ctx := Context(byDomain, byIP, ignorePreference);
      if byDomain.None? && byIP.None? then if alwaysUseVPN then Denied else Direct
      else if network' == "tcp" then Tcp(ctx)
      else if network' == "udp" then Udp(ctx)
      else if alwaysUseVPN then Unsupported
      else Direct
  }

  function TCPPrefersL3(ctx: Context): bool {
    if ctx.domainResource.Some? then ctx.domainResource.value.prefersL3
    else ctx.ipResource.Some? && ctx.ipResource.value.prefersL3
  }

  // ---- The transports.

  function MatchTCPIPResource(rs: seq<IPResource>, target: seq<Byte>, port: int,
          ignorePreference: bool): Option<IPResource> {
    var found := Scan(rs, target, "tcp", port, true, Some(AvoidsL3));
    if found.Some? then found
    else if ignorePreference then Scan(rs, target, "tcp", port, true, None)
    else None
  }

  // The application a TCP tunnel connection is opened for, or none: "not a resource".
  function TcpTunnelApp(rs: seq<IPResource>, ctx: Context, target: seq<Byte>, port: int): Option<string> {
    if ctx.domainResource.Some? && ctx.domainResource.value.prefersL3 && !ctx.ignorePreference then None
    else if ctx.domainResource.Some? && ctx.domainResource.value.appID != "" then Some(ctx.domainResource.value.appID)
    else
      match MatchTCPIPResource(rs, target, port, ctx.ignorePreference)
      case Some(r) => if r.appID == "" then None else Some(r.appID)
      case None => None
  }

  function MatchL3IPResource(rs: seq<IPResource>, target: seq<Byte>, protocol: string, port: int): Option<IPResource> {
    Scan(rs, target, protocol, port, false, Some(L3Accepts(protocol)))
  }

  // ---- Scans with and without a filter.

  lemma {:induction false} FirstMatchFinds(rs: seq<IPResource>, q: Query)
    ensures FirstMatch(rs, q).Some? <==> exists i :: 0 <= i < |rs| && Applies(rs[i], q)
    ensures FirstMatch(rs, q).Some? ==> FirstMatch(rs, q).value in rs && Applies(FirstMatch(rs, q).value, q)
  {
    if rs != [] {
      FirstMatchFinds(rs[1..], q);
      if i :| 0 <= i < |rs| && Applies(rs[i], q) {
        if i > 0 { assert Applies(rs[1..][i - 1], q); }
      }
    }
  }

  lemma {:induction false} LastMatchFinds(rs: seq<IPResource>, q: Query)
    ensures LastMatch(rs, q).Some? <==> exists i :: 0 <= i < |rs| && Applies(rs[i], q)
    ensures LastMatch(rs, q).Some? ==> LastMatch(rs, q).value in rs && Applies(LastMatch(rs, q).value, q)
  {
    if rs != [] {
      var n := |rs| - 1;
      LastMatchFinds(rs[..n], q);
      if i :| 0 <= i < |rs| && Applies(rs[i], q) {
        if i < n { assert Applies(rs[..n][i], q); }
      }
    }
  }

  lemma {:induction false} SameFirst(rs: seq<IPResource>, q: Query, q': Query)
    requires forall i :: 0 <= i < |rs| ==> (Applies(rs[i], q) <==> Applies(rs[i], q'))
    ensures FirstMatch(rs, q) == FirstMatch(rs, q')
  {
    if rs != [] { SameFirst(rs[1..], q, q'); }
  }

  // Some rule with the given preference applies to the destination.
  predicate SomeRule(rs: seq<IPResource>, ip: Uint32, protocol: string, port: int, prefersL3: bool) {
    exists i :: 0 <= i < |rs| && rs[i].prefersL3 == prefersL3 && Applies(rs[i], Query(ip, protocol, port, false, None))
  }

  // The address and port the rules are matched against.
  function Plain(ip: Uint32, protocol: string, port: int): Query {
    Query(ip, protocol, port, false, None)
  }

  lemma ScanFinds(rs: seq<IPResource>, target: seq<Byte>, ip: Uint32, protocol: string, port: int,
                  preferLast: bool, accept: Option<IPResource -> bool>)
    requires IPv4Uint32(target) == Some(ip)
    ensures var found := Scan(rs, target, protocol, port, preferLast, accept);
      && (found.Some? <==> exists i :: 0 <= i < |rs| && Applies(rs[i], Plain(ip, protocol, port)) && Accepts(accept, rs[i]))
      && (found.Some? ==> found.value in rs && Applies(found.value, Plain(ip, protocol, port)) && Accepts(accept, found.value))
  {
    var q := Query(ip, protocol, port, preferLast, accept);
    FirstMatchFinds(rs, q);
    LastMatchFinds(rs, q);
    forall r ensures Applies(r, q) <==> Applies(r, Plain(ip, protocol, port)) && Accepts(accept, r) {}
  }

  predicate Accepts(accept: Option<IPResource -> bool>, r: IPResource) {
    accept.None? || accept.value(r)
  }

  // ---- What each transport accepts, in terms of the rules.

  // The TCP tunnel takes a destination exactly when a rule that does not prefer L3 applies, or, for a
  // caller that ignores the preference, when any rule applies; the L3 tunnel takes TCP exactly when a
  // rule that prefers L3 applies, and anything else when any rule applies.
  lemma WhatTransportsAccept(rs: seq<IPResource>, target: seq<Byte>, ip: Uint32, protocol: string, port: int,
          ignorePreference: bool)
    requires IPv4Uint32(target) == Some(ip)
    ensures MatchTCPIPResource(rs, target, port, ignorePreference).Some? <==>
              SomeRule(rs, ip, "tcp", port, false) || (ignorePreference && SomeRule(rs, ip, "tcp", port, true))
    ensures MatchL3IPResource(rs, target, protocol, port).Some? <==>
              (protocol != "tcp" && SomeRule(rs, ip, protocol, port, false)) || SomeRule(rs, ip, protocol, port, true)
    ensures MatchIPResourceForTunnel(rs, target, protocol, port).Some? <==>
              SomeRule(rs, ip, protocol, port, false) || SomeRule(rs, ip, protocol, port, true)
  {
    ScanFinds(rs, target, ip, "tcp", port, true, Some(AvoidsL3));
    ScanFinds(rs, target, ip, "tcp", port, true, None);
    ScanFinds(rs, target, ip, protocol, port, false, Some(L3Accepts(protocol)));
    ScanFinds(rs, target, ip, protocol, port, false, Some(AvoidsL3));
    ScanFinds(rs, target, ip, protocol, port, false, None);
  }

  ghost predicate AppIDsKnown(rs: seq<IPResource>) {
    forall i :: 0 <= i < |rs| ==> rs[i].appID != ""
  }

  // A TCP destination the dialer sends into the VPN because of an address rule is accepted by the transport
  // the stack then picks: without a preference for L3 the TCP tunnel finds a rule, though by the last
  // match where the dialer went by the first; with one, no rule avoids L3 and the L3 tunnel finds the
  // very rule the dialer chose. A stack that has only the TCP tunnel finds a rule in either case.
  lemma ChosenTransportAccepts(rs: seq<IPResource>, domain: seq<DomainResource>, alwaysUseVPN: bool,
          ignorePreference: bool,
                               network: string, target: seq<Byte>, ip: Uint32, port: int)
    requires AppIDsKnown(rs) && IPv4Uint32(target) == Some(ip)
    requires var route := DialIPPort(rs, domain, alwaysUseVPN, ignorePreference, network, Some(target), port);
      route.Tcp? && route.ctx.domainResource.None?
    ensures var ctx := DialIPPort(rs, domain, alwaysUseVPN, ignorePreference, network, Some(target), port).ctx;
      && ctx.ipResource.Some?
      && (!TCPPrefersL3(ctx) ==> TcpTunnelApp(rs, ctx, target, port).Some?)
      && (TCPPrefersL3(ctx) ==> !SomeRule(rs, ip, "tcp", port, false) && MatchL3IPResource(rs, target, "tcp", port) == ctx.ipResource)
      && TcpTunnelApp(rs, ctx.(ignorePreference := true), target, port).Some?
  {
    var ctx := DialIPPort(rs, domain, alwaysUseVPN, ignorePreference, network, Some(target), port).ctx;
    ScanFinds(rs, target, ip, "tcp", port, true, Some(AvoidsL3));
    ScanFinds(rs, target, ip, "tcp", port, true, None);
    ScanFinds(rs, target, ip, "tcp", port, false, Some(AvoidsL3));
    ScanFinds(rs, target, ip, "tcp", port, false, None);
    if TCPPrefersL3(ctx) {
      SameFirst(rs, Plain(ip, "tcp", port), Query(ip, "tcp", port, false, Some(L3Accepts("tcp"))));
    }
  }

  // A UDP destination goes to the rule the L3 tunnel will find for its packets.
  lemma UdpTakesTheSameRule(rs: seq<IPResource>, domain: seq<DomainResource>, alwaysUseVPN: bool,
          ignorePreference: bool,
                            network: string, target: seq<Byte>, port: int)
    requires var route := DialIPPort(rs, domain, alwaysUseVPN, ignorePreference, network, Some(target), port);
      route.Udp? && route.ctx.domainResource.None?
    ensures var ctx := DialIPPort(rs, domain, alwaysUseVPN, ignorePreference, network, Some(target), port).ctx;
      ctx.ipResource.Some? && MatchL3IPResource(rs, target, "udp", port) == ctx.ipResource
  {
    var ip := IPv4Uint32(target).value;
    SameFirst(rs, Plain(ip, "udp", port), Query(ip, "udp", port, false, Some(L3Accepts("udp"))));
  }

  // A destination goes into the VPN exactly when a domain rule or an address rule applies to it.
  lemma InVpnExactlyByRule(rs: seq<IPResource>, domain: seq<DomainResource>, alwaysUseVPN: bool, ignorePreference: bool,
                           network: string, target: seq<Byte>, ip: Uint32, port: int)
    requires IPv4Uint32(target) == Some(ip) && 1 <= port <= 65535
    requires HasPrefix(network, "tcp") || HasPrefix(network, "udp")
    ensures var route := DialIPPort(rs, domain, alwaysUseVPN, ignorePreference, network, Some(target), port);
      var network' := ResourceNetwork(network);
      && (route.Tcp? || route.Udp? <==>
            || MatchDomainResourceForTunnel(domain, network', port).Some?
            || SomeRule(rs, ip, network', port, false) || SomeRule(rs, ip, network', port, true))
      && (!(route.Tcp? || route.Udp?) ==> route == if alwaysUseVPN then Denied else Direct)
      && (route.Tcp? ==> HasPrefix(network, "tcp")) && (route.Udp? ==> !HasPrefix(network, "tcp"))
  {
    WhatTransportsAccept(rs, target, ip, ResourceNetwork(network), port, ignorePreference);
  }

  // A domain rule is usable for the destination's protocol and port.
  predicate Usable(r: DomainResource, network: string, port: int) {
    (r.protocol == network || r.protocol == "all") && (network == "icmp" || (r.portMin <= port && port <= r.portMax))
  }

  ghost predicate FirstUsable(rs: seq<DomainResource>, network: string, port: int, found: Option<DomainResource>,
                              accept: DomainResource -> bool)
  {
    if found.None? then forall j :: 0 <= j < |rs| ==> !(Usable(rs[j], network, port) && accept(rs[j]))
    else
      exists i :: 0 <= i < |rs| && rs[i] == found.value && Usable(rs[i], network, port) && accept(rs[i])
                  && forall j :: 0 <= j < i ==> !(Usable(rs[j], network, port) && accept(rs[j]))
  }

  lemma {:induction false} DomainMatchIsFirst(rs: seq<DomainResource>, network: string, port: int,
          accept: DomainResource -> bool)
    ensures FirstUsable(rs, network, port, MatchDomainResourceWhere(rs, network, port, accept), accept)
  {
    var found := MatchDomainResourceWhere(rs, network, port, accept);
    if rs != [] && !(Usable(rs[0], network, port) && accept(rs[0])) {
      DomainMatchIsFirst(rs[1..], network, port, accept);
      hide Usable;
      if found.None? {
        forall j | 0 <= j < |rs| ensures !(Usable(rs[j], network, port) && accept(rs[j])) {
          if j > 0 { assert rs[1..][j - 1] == rs[j]; }
        }
      } else {
        var i :| 0 <= i < |rs| - 1 && rs[1..][i] == found.value && Usable(rs[1..][i], network, port) && accept(rs[1..][i])
          && forall j :: 0 <= j < i ==> !(Usable(rs[1..][j], network, port) && accept(rs[1..][j]));
        forall j | 0 <= j < i + 1 ensures !(Usable(rs[j], network, port) && accept(rs[j])) {
          if j > 0 { assert rs[1..][j - 1] == rs[j]; }
        }
        assert rs[i + 1] == found.value;
      }
    }
  }

  // The dialer takes the first usable domain rule, but for TCP the first one that does not prefer L3 as long
  // as there is one.
  lemma DomainRuleTaken(rs: seq<DomainResource>, network: string, port: int)
    ensures var found := MatchDomainResourceForTunnel(rs, network, port);
      if network == "tcp" && exists i :: 0 <= i < |rs| && Usable(rs[i], network, port) && !rs[i].prefersL3
      then FirstUsable(rs, network, port, found, (r: DomainResource) => !r.prefersL3)
      else FirstUsable(rs, network, port, found, (r: DomainResource) => true)
  {
    DomainMatchIsFirst(rs, network, port, (r: DomainResource) => !r.prefersL3);
    DomainMatchIsFirst(rs, network, port, (r: DomainResource) => true);
    hide MatchDomainResourceWhere, Usable;
  }

  // Where the way does not lead into the VPN: a bad address or port, an address that is not IPv4, a
  // destination no rule is for, and a protocol the VPN does not carry. A rule for the domain settles the
  // matter before any for the address is looked at.
  lemma NotIntoVpn(rs: seq<IPResource>, domain: seq<DomainResource>, alwaysUseVPN: bool, ignorePreference: bool,
                   network: string, ip: Option<seq<Byte>>, port: int)
    ensures var route := DialIPPort(rs, domain, alwaysUseVPN, ignorePreference, network, ip, port);
      && (route.BadAddress? <==> ip.None? || port < 1 || port > 65535)
      && (!route.BadAddress? && To4(ip.value).None? ==> route == if alwaysUseVPN then Denied else Direct)
      && (!route.BadAddress? && To4(ip.value).Some? && !HasPrefix(network, "tcp") && !HasPrefix(network, "udp") ==>
            var ruled := MatchDomainResourceForTunnel(domain, network, port).Some?
                         || MatchIPResourceForTunnel(rs, ip.value, network, port).Some?;
            route == if !alwaysUseVPN then Direct else if ruled then Unsupported else Denied)
      && (route.Tcp? || route.Udp? ==>
            && route.ctx.ignorePreference == ignorePreference
            && route.ctx.domainResource == MatchDomainResourceForTunnel(domain, ResourceNetwork(network), port)
            && (route.ctx.domainResource.Some? ==> route.ctx.ipResource.None?))
  {
    assert HasPrefix("tcp", "tcp") && HasPrefix("udp", "udp");
    hide MatchDomainResourceForTunnel, MatchIPResourceForTunnel;
  }

  // The application a TCP tunnel connection is opened for, when no domain rule names one, is that of the
  // last rule for the address that does not prefer L3, or of the last of all for a caller that ignores it.
  lemma AppOfLastRule(rs: seq<IPResource>, ctx: Context, target: seq<Byte>, ip: Uint32, port: int)
    requires AppIDsKnown(rs) && IPv4Uint32(target) == Some(ip) && ctx.domainResource.None?
    ensures var app := TcpTunnelApp(rs, ctx, target, port);
      app.Some? ==>
        exists i :: 0 <= i < |rs| && app == Some(rs[i].appID) && IsFor(rs[i], ip, "tcp", port, None)
                    && (rs[i].prefersL3 ==> ctx.ignorePreference)
                    && forall j :: i < j < |rs| && IsFor(rs[j], ip, "tcp", port, None) ==> rs[j].prefersL3 && !rs[i].prefersL3
  {
    ScanMeans(rs, target, "tcp", port, true, Some(AvoidsL3));
    ScanMeans(rs, target, "tcp", port, true, None);
    forall r ensures IsFor(r, ip, "tcp", port, Some(AvoidsL3)) <==> IsFor(r, ip, "tcp", port, None) && !r.prefersL3 {}
    hide IsFor, Scan;
  }

  // A TCP destination chosen by a domain rule with an application of its own that does not prefer L3 is
  // carried for that application; the dialer takes such a rule whenever there is one.
  lemma DomainRuleAccepted(rs: seq<IPResource>, domain: seq<DomainResource>, alwaysUseVPN: bool, ignorePreference: bool,
                           network: string, target: seq<Byte>, port: int)
    requires var route := DialIPPort(rs, domain, alwaysUseVPN, ignorePreference, network, Some(target), port);
      route.Tcp? && route.ctx.domainResource.Some? && route.ctx.domainResource.value.appID != ""
    ensures var ctx := DialIPPort(rs, domain, alwaysUseVPN, ignorePreference, network, Some(target), port).ctx;
      && (!TCPPrefersL3(ctx) || ignorePreference ==> TcpTunnelApp(rs, ctx, target, port) == Some(ctx.domainResource.value.appID))
      && (TCPPrefersL3(ctx) ==> MatchDomainResourceWhere(domain, "tcp", port, (r: DomainResource) => !r.prefersL3).None?)
  {
    DomainMatchAccepted(domain, "tcp", port, (r: DomainResource) => !r.prefersL3);
  }

  // A destination that a domain rule sends to the L3 tunnel has only its address there. The L3 tunnel takes
  // it exactly when an address rule applies that, for TCP, prefers L3 as well; the TCP tunnel would not.
  lemma DomainRuleOnL3(rs: seq<IPResource>, domain: seq<DomainResource>, alwaysUseVPN: bool, ignorePreference: bool,
                       network: string, target: seq<Byte>, ip: Uint32, port: int)
    requires IPv4Uint32(target) == Some(ip)
    requires var route := DialIPPort(rs, domain, alwaysUseVPN, ignorePreference, network, Some(target), port);
      (route.Tcp? || route.Udp?) && route.ctx.domainResource.Some?
    ensures var route := DialIPPort(rs, domain, alwaysUseVPN, ignorePreference, network, Some(target), port);
      && (route.Tcp? && TCPPrefersL3(route.ctx) ==>
            && (MatchL3IPResource(rs, target, "tcp", port).Some? <==> SomeRule(rs, ip, "tcp", port, true))
            && (!ignorePreference ==> TcpTunnelApp(rs, route.ctx, target, port).None?))
      && (route.Udp? ==>
            (MatchL3IPResource(rs, target, "udp", port).Some? <==>
               SomeRule(rs, ip, "udp", port, false) || SomeRule(rs, ip, "udp", port, true)))
  {
    WhatTransportsAccept(rs, target, ip, "tcp", port, ignorePreference);
    WhatTransportsAccept(rs, target, ip, "udp", port, ignorePreference);
  }

  // So a domain rule alone, with no rule for the address, sends a connection where nothing takes it.
  lemma DomainRuleAloneIsRefused()
    ensures var r := DomainResource(1, 65535, "tcp", "app", "group", true);
      var target := [10, 0, 0, 1];
      var route := DialIPPort([], [r], false, false, "tcp4", Some(target), 443);
      && route == Tcp(Context(Some(r), None, false)) && TCPPrefersL3(route.ctx)
      && MatchL3IPResource([], target, "tcp", 443).None? && TcpTunnelApp([], route.ctx, target, 443).None?
  {
    var r := DomainResource(1, 65535, "tcp", "app", "group", true);
    assert "tcp4"[..3] == "tcp";
    assert HasPrefix("tcp4", "tcp");
    assert MatchDomainResourceWhere([r][1..], "tcp", 443, (r: DomainResource) => !r.prefersL3).None?;
    var route := DialIPPort([], [r], false, false, "tcp4", Some([10, 0, 0, 1]), 443);
    DomainRuleOnL3([], [r], false, false, "tcp4", [10, 0, 0, 1], 0x0a00_0001, 443);
  }

  lemma {:induction false} DomainMatchAccepted(rs: seq<DomainResource>, network: string, port: int,
          accept: DomainResource -> bool)
    ensures var found := MatchDomainResourceWhere(rs, network, port, accept); found.Some? ==> found.value in rs && accept(found.value)
  {
    if rs != [] { DomainMatchAccepted(rs[1..], network, port, accept); }
  }
}
