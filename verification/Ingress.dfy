/** Where a hostname's traffic goes through the Cloudflare tunnel, and where the
    endpoints report says it goes (internal/cloudflare/tunnel.go,
    internal/bootstrap/cloudflare.go, internal/commands/endpoints_cloudflare.go,
    internal/commands/endpoints_collect.go). */
module Ingress {
  import opened Prelude

  datatype Service = Service(hostname: string, service: string, noTLSVerify: bool)

  datatype Config = Config(services: seq<Service>, sshHostname: string, sshOrigin: string,
                           appsDomain: string, systemDomain: string, origin: string)

  datatype OriginRequest = OriginRequest(noTLSVerify: bool, serverName: string)

  datatype Rule = Rule(hostname: string, service: string, request: Option<OriginRequest>)

  // ----- The rules and how they are matched -----

  function ServiceRule(s: Service): Rule {
    Rule(s.hostname, s.service, if s.noTLSVerify then Some(OriginRequest(true, "")) else None)
  }

  function ServiceRules(services: seq<Service>): seq<Rule> {
    seq(|services|, i requires 0 <= i < |services| => ServiceRule(services[i]))
  }

  method BuildServiceIngress(services: seq<Service>) returns (rules: seq<Rule>)
    ensures rules == ServiceRules(services)
  {
    rules := [];
    var i := 0;
    while i < |services|
      invariant i <= |services| && rules == ServiceRules(services)[..i]
    {
      var rule := Rule(services[i].hostname, services[i].service, None);
      if services[i].noTLSVerify { rule := rule.(request := Some(OriginRequest(true, ""))); }
      rules := rules + [rule];
      i := i + 1;
    }
  }

  function SSHRules(c: Config): seq<Rule> {
    if c.sshHostname != "" && c.sshOrigin != "" then [Rule(c.sshHostname, c.sshOrigin, None)] else []
  }

  function AppsRule(c: Config): Rule { Rule("*." + c.appsDomain, c.origin, Some(OriginRequest(true, ""))) }

  function SystemRule(c: Config, serverName: string, noTLSVerify: bool): Rule {
    Rule("*." + c.systemDomain, c.origin,
         Some(if noTLSVerify then OriginRequest(true, "") else OriginRequest(false, serverName)))
  }

  const CATCH_ALL := Rule("", "http_status:404", None)

  /** Services, SSH, apps, system, and the rest gets a 404. */
  function BuildIngress(c: Config, serverName: string, noTLSVerify: bool): seq<Rule> {
    ServiceRules(c.services) + SSHRules(c) + [AppsRule(c), SystemRule(c, serverName, noTLSVerify), CATCH_ALL]
  }

  predicate IsWildcard(hostname: string) { |hostname| >= 2 && hostname[..2] == "*." }

  /** cloudflared's matching: no hostname or "*" takes anything, "*.d" whatever ends
      in ".d". */
  predicate Matches(hostname: string, h: string) {
    hostname == "" || hostname == "*" || hostname == h || (IsWildcard(hostname) && EndsWith(h, hostname[1..]))
  }

  /** The first rule that matches. */
  function Route(rules: seq<Rule>, h: string): (r: Option<Rule>)
    ensures r.Some? ==> r.value in rules && Matches(r.value.hostname, h)
  {
    if rules == [] then None
    else if Matches(rules[0].hostname, h) then Some(rules[0])
    else Route(rules[1..], h)
  }

  // ----- What is reported -----

  /** The host part of a URL, with "" for "" and for what is none. */
  type HostOf = f: string -> string | f("") == "" witness (s: string) => ""

  function FirstService(services: seq<Service>, h: string): Option<Service> {
    if services == [] then None
    else if services[0].hostname == h then Some(services[0])
    else FirstService(services[1..], h)
  }

  /** The reported origin of a hostname configured as such. */
  function ExactOrigin(host: HostOf, c: Config, h: string): Option<string> {
    if h == "" then None
    else if FirstService(c.services, h).Some? then Some(host(FirstService(c.services, h).value.service))
    else if h == c.sshHostname then Some(host(c.sshOrigin))
    else None
  }

  /** The map holds the exact origins and nothing else. */
  ghost predicate IsExactMap(host: HostOf, c: Config, origins: map<string, string>) {
    && (forall h :: h in origins <==> ExactOrigin(host, c, h).Some?)
    && (forall h | h in origins :: ExactOrigin(host, c, h) == Some(origins[h]))
  }

  lemma {:induction false} FirstServiceOf(services: seq<Service>, h: string)
    ensures FirstService(services, h).Some? <==> exists s :: s in services && s.hostname == h
    ensures FirstService(services, h).Some? ==>
              FirstService(services, h).value in services && FirstService(services, h).value.hostname == h
  {
    if services != [] { FirstServiceOf(services[1..], h); }
  }

  lemma {:induction false} FirstServiceOfMore(services: seq<Service>, s: Service, h: string)
    ensures FirstService(services + [s], h) ==
            if FirstService(services, h).Some? then FirstService(services, h)
            else if s.hostname == h then Some(s) else None
  {
    if services == [] {
      assert [s][1..] == [];
    } else {
      assert (services + [s])[1..] == services[1..] + [s];
      FirstServiceOfMore(services[1..], s, h);
    }
  }

  /** The map has exactly the hostnames that have an exact origin. */
  method CfExactHostnameOrigins(host: HostOf, cf: Option<Config>) returns (origins: map<string, string>)
    ensures cf.None? ==> origins == map[]
    ensures cf.Some? ==> IsExactMap(host, cf.value, origins)
  {
    origins := map[];
    if cf.None? { return; }
    var c := cf.value;
    var i := 0;
    while i < |c.services|
      invariant i <= |c.services|
      invariant forall h :: h in origins <==> h != "" && FirstService(c.services[..i], h).Some?
      invariant forall h | h in origins :: origins[h] == host(FirstService(c.services[..i], h).value.service)
    {
      var svc := c.services[i];
      forall h ensures FirstService(c.services[..i + 1], h) ==
                       if FirstService(c.services[..i], h).Some? then FirstService(c.services[..i], h)
                       else if svc.hostname == h then Some(svc) else None
      {
        assert c.services[..i + 1] == c.services[..i] + [svc];
        FirstServiceOfMore(c.services[..i], svc, h);
      }
      if svc.hostname != "" && svc.hostname !in origins {
        origins := origins[svc.hostname := host(svc.service)];
      }
      i := i + 1;
    }
    assert c.services[..i] == c.services;
    if c.sshHostname !in origins && c.sshHostname != "" {
      origins := origins[c.sshHostname := host(c.sshOrigin)];
    }
  }

  predicate Under(h: string, domain: string) { EndsWith(h, "." + domain) }

  /** originForService; `ocf` is the tier. */
  function OriginForService(host: HostOf, ocf: bool, fqdn: string, exact: map<string, string>, cf: Option<Config>): string {
    if fqdn == "" then ""
    else if fqdn in exact then exact[fqdn]
    else if !ocf || cf.None? || cf.value.origin == "" then ""
    else if (cf.value.appsDomain != "" && Under(fqdn, cf.value.appsDomain))
         || (cf.value.systemDomain != "" && Under(fqdn, cf.value.systemDomain)) then host(cf.value.origin)
    else ""
  }

  // ----- They agree -----

  /** A hostname that only stands for itself. */
  predicate IsPlain(hostname: string) { hostname != "" && hostname != "*" && !IsWildcard(hostname) }

  predicate PlainServices(c: Config) { forall s | s in c.services :: IsPlain(s.hostname) }

  lemma {:induction false} RouteJoined(first: seq<Rule>, second: seq<Rule>, h: string)
    ensures Route(first + second, h) == if Route(first, h).Some? then Route(first, h) else Route(second, h)
  {
    if first == [] {
      assert first + second == second;
    } else {
      assert (first + second)[1..] == first[1..] + second;
      RouteJoined(first[1..], second, h);
    }
  }

  /** Among plain services the first match is the first of that name. */
  lemma {:induction false} ServicesRoute(services: seq<Service>, h: string)
    requires forall s | s in services :: IsPlain(s.hostname)
    ensures Route(ServiceRules(services), h) ==
            if FirstService(services, h).Some? then Some(ServiceRule(FirstService(services, h).value)) else None
  {
    if services != [] {
      assert services[0] in services;
      ServicesRoute(services[1..], h);
      assert ServiceRules(services)[1..] == ServiceRules(services[1..]);
    }
  }

  lemma WildcardMatches(domain: string, h: string)
    ensures Matches("*." + domain, h) <==> h == "*." + domain || Under(h, domain)
  {
    var w := "*." + domain;
    assert w[..2] == "*." && w[1..] == "." + domain;
  }

  lemma WildcardIsUnderItself(domain: string)
    ensures Under("*." + domain, domain)
  {
    var w := "*." + domain;
    assert w[|w| - |"." + domain|..] == "." + domain;
  }

  /** Where a hostname's traffic terminates: "" when it gets the closing 404. */
  function Routed(host: HostOf, rules: seq<Rule>, h: string): string {
    match Route(rules, h)
    case None => ""
    case Some(rule) => if rule.hostname == "" then "" else host(rule.service)
  }

  lemma RuleOf(first: Rule, rest: seq<Rule>, h: string)
    ensures Route([first] + rest, h) == if Matches(first.hostname, h) then Some(first) else Route(rest, h)
  {
    assert ([first] + rest)[1..] == rest;
  }

  /** Where the closing rules send a hostname. */
  lemma ClosingRoute(c: Config, h: string, serverName: string, noTLSVerify: bool)
    ensures var system := SystemRule(c, serverName, noTLSVerify);
            Route([AppsRule(c), system, CATCH_ALL], h) ==
            Some(if Under(h, c.appsDomain) then AppsRule(c) else if Under(h, c.systemDomain) then system else CATCH_ALL)
  {
    var system := SystemRule(c, serverName, noTLSVerify);
    assert [AppsRule(c), system, CATCH_ALL] == [AppsRule(c)] + ([system] + ([CATCH_ALL] + []));
    RuleOf(AppsRule(c), [system] + ([CATCH_ALL] + []), h);
    RuleOf(system, [CATCH_ALL] + [], h);
    RuleOf(CATCH_ALL, [], h);
    WildcardMatches(c.appsDomain, h);
    WildcardMatches(c.systemDomain, h);
    WildcardIsUnderItself(c.appsDomain);
    WildcardIsUnderItself(c.systemDomain);
  }

  lemma SSHRoute(c: Config, h: string)
    requires h != "" && (c.sshHostname != "" ==> IsPlain(c.sshHostname))
    ensures Route(SSHRules(c), h) ==
            if h == c.sshHostname && c.sshOrigin != "" then Some(Rule(c.sshHostname, c.sshOrigin, None)) else None
  {
    if SSHRules(c) != [] {
      var rule := Rule(c.sshHostname, c.sshOrigin, None);
      assert SSHRules(c) == [rule] + [];
      RuleOf(rule, [], h);
    }
  }

  /** The routing of plain configurations, in closed form. */
  lemma RoutedTo(host: HostOf, c: Config, h: string, serverName: string, noTLSVerify: bool)
    requires PlainServices(c) && IsPlain(h)
    requires c.sshHostname != "" ==> IsPlain(c.sshHostname)
    ensures Routed(host, BuildIngress(c, serverName, noTLSVerify), h) ==
            if FirstService(c.services, h).Some? then host(FirstService(c.services, h).value.service)
            else if h == c.sshHostname && c.sshOrigin != "" then host(c.sshOrigin)
            else if Under(h, c.appsDomain) || Under(h, c.systemDomain) then host(c.origin)
            else ""
  {
    RouteJoined(ServiceRules(c.services) + SSHRules(c),
                [AppsRule(c), SystemRule(c, serverName, noTLSVerify), CATCH_ALL], h);
    RouteJoined(ServiceRules(c.services), SSHRules(c), h);
    ServicesRoute(c.services, h);
    SSHRoute(c, h);
    ClosingRoute(c, h, serverName, noTLSVerify);
    FirstServiceOf(c.services, h);
  }

  /** An SSH hostname without an origin, under a wildcard: the report says nothing,
      the wildcard takes it. */
  predicate HalfConfiguredSSH(host: HostOf, c: Config, h: string) {
    && h == c.sshHostname && c.sshOrigin == "" && FirstService(c.services, h).None?
    && (Under(h, c.appsDomain) || Under(h, c.systemDomain)) && host(c.origin) != ""
  }

  /** A mgmt-tier name is only ever reported where it is configured itself. */
  lemma MgmtTierIsExactOnly(host: HostOf, c: Config, exact: map<string, string>, h: string)
    requires IsExactMap(host, c, exact)
    ensures OriginForService(host, false, h, exact, Some(c)) ==
            if ExactOrigin(host, c, h).Some? then ExactOrigin(host, c, h).value else ""
  {
  }

  /** For every hostname, services repeated or not, the report of an ocf-tier name
      is where the first matching rule sends it, but for a half-configured SSH
      hostname. */
  lemma ReportIsRightExactlyWhen(host: HostOf, c: Config, exact: map<string, string>, h: string,
                                 serverName: string, noTLSVerify: bool)
    requires IsExactMap(host, c, exact)
    requires PlainServices(c) && (c.sshHostname != "" ==> IsPlain(c.sshHostname)) && IsPlain(h)
    requires EndsWith(h, ".") ==> c.appsDomain != "" && c.systemDomain != ""
    ensures OriginForService(host, true, h, exact, Some(c)) == Routed(host, BuildIngress(c, serverName, noTLSVerify), h)
       <==> !HalfConfiguredSSH(host, c, h)
  {
    RoutedTo(host, c, h, serverName, noTLSVerify);
    if !EndsWith(h, ".") {
      assert c.appsDomain == "" ==> "." + c.appsDomain == "." && !Under(h, c.appsDomain);
      assert c.systemDomain == "" ==> "." + c.systemDomain == "." && !Under(h, c.systemDomain);
    }
  }

  /** The map of exact hostnames alone is right under the same condition. */
  lemma ExactMapIsRightExactlyWhen(host: HostOf, c: Config, h: string, serverName: string, noTLSVerify: bool)
    requires PlainServices(c) && (c.sshHostname != "" ==> IsPlain(c.sshHostname)) && IsPlain(h)
    requires ExactOrigin(host, c, h).Some?
    ensures ExactOrigin(host, c, h) == Some(Routed(host, BuildIngress(c, serverName, noTLSVerify), h))
       <==> !HalfConfiguredSSH(host, c, h)
  {
    RoutedTo(host, c, h, serverName, noTLSVerify);
  }

  /** A service without a hostname takes the traffic of every hostname that comes
      after it, while the report leaves it out. */
  lemma NamelessServiceTakesAll(host: HostOf, c: Config, h: string, serverName: string, noTLSVerify: bool)
    requires c.services != [] && c.services[0].hostname == ""
    ensures Route(BuildIngress(c, serverName, noTLSVerify), h) == Some(ServiceRule(c.services[0]))
    ensures ExactOrigin(host, c, h) == ExactOrigin(host, c.(services := c.services[1..]), h)
  {
    assert BuildIngress(c, serverName, noTLSVerify)[0] == ServiceRule(c.services[0]);
  }
}
