/** What a browser is shown for a name, given the zone and NPM: the outside world the final check
    looks at. */
module Visitors {
  import opened Common
  import opened NpmServer
  import opened NpmClient
  import opened ProxyHosts
  import opened Store
  import opened Hosts
  import opened Agreement
  import Cloudflare
  import Coverage
  import Health
  import Names

  // ---------------------------------------------------------------- DNS

  ghost predicate HasA(z: Cloudflare.Zone, name: string) {
    exists i :: 0 <= i < |z.records| && Cloudflare.IsA(z.records[i], name)
  }

  /** Record `i` answers for `domain`: one of its own A records, or the wildcard's if it has none. */
  ghost predicate AnswersFor(z: Cloudflare.Zone, zone: string, domain: string, i: int) {
    && 0 <= i < |z.records|
    && (Cloudflare.IsA(z.records[i], domain) || (!HasA(z, domain) && Cloudflare.IsA(z.records[i], "*." + zone)))
  }

  /** Every record that answers for the name points at this server, behind the proxy or not. */
  ghost predicate AllHere(z: Cloudflare.Zone, zone: string, domain: string, ip: string, proxied: bool) {
    forall i | AnswersFor(z, zone, domain, i) :: z.records[i].content == ip && z.records[i].proxied == proxied
  }

  /** An address public DNS gives for the name: one of Cloudflare's own for a proxied record, the
      record's content otherwise. */
  ghost predicate Resolves(z: Cloudflare.Zone, zone: string, domain: string, edge: set<string>, address: string) {
    exists i :: AnswersFor(z, zone, domain, i) && if z.records[i].proxied then address in edge else address == z.records[i].content
  }

  // ---------------------------------------------------------------- the certificate shown

  /** A browser that reaches NPM is shown the certificate of a host with that name: a Let's Encrypt
      certificate is trusted for the names it covers, an Origin certificate by no browser. */
  ghost predicate ShownBy(t: Tables, domain: string, p: Health.Probe) {
    exists h :: Lists(t, h, domain) && CertOf(t.hosts[h]) in t.certs && ShownCert(t.certs[CertOf(t.hosts[h])], domain, p)
  }

  ghost predicate ShownCert(c: Cert, domain: string, p: Health.Probe) {
    match c.provider
    case LetsEncrypt => p.trusted == Some(Coverage.Covers(c.domains, domain)) && !Health.ShowsOrigin(p)
    case Custom => p.trusted == Some(false) && Health.ShowsOrigin(p)
  }

  /** A probe that was given addresses, all of them what public DNS answers for the name. */
  ghost predicate Resolved(p: Health.Probe, z: Cloudflare.Zone, zone: string, domain: string, edge: set<string>) {
    && p.domain == domain && p.addresses != []
    && forall i | 0 <= i < |p.addresses| :: Resolves(z, zone, domain, edge, p.addresses[i])
  }

  /** A probe that got as far as a certificate: Cloudflare's own, which browsers trust, when it was
      sent to Cloudflare; NPM's when it was sent here. */
  ghost predicate Sees(p: Health.Probe, z: Cloudflare.Zone, t: Tables, zone: string, domain: string, edge: set<string>) {
    && Resolved(p, z, zone, domain, edge) && p.trusted.Some?
    && if p.addresses[0] in edge then p.trusted.value else ShownBy(t, domain, p)
  }

  // ---------------------------------------------------------------- what is reported

  /** The certificate and the path were right; only the answer itself is left to judge. */
  predicate PathWasRight(f: Health.Finding) {
    f.Http525? || f.Http526? || f.NoResponse? || f.ServerError? || f.Fine?
  }

  /** A certificate that is right for browsers that come straight here. */
  ghost predicate FitForBrowsers(t: Tables, domain: string) {
    forall h | Lists(t, h, domain) ::
      var c := CertOf(t.hosts[h]);
      c in t.certs && t.certs[c].provider.LetsEncrypt? && Coverage.Covers(t.certs[c].domains, domain)
  }

  lemma WhereItWent(p: Health.Probe, z: Cloudflare.Zone, t: Tables, zone: string, domain: string, edge: set<string>,
                    ip: string, proxied: bool)
    requires Sees(p, z, t, zone, domain, edge) && ip != "" && ip !in edge && AllHere(z, zone, domain, ip, proxied)
    ensures Health.PointsHere(p, ip) <==> !proxied
    ensures p.addresses[0] in edge <==> proxied
  {
    assert Resolves(z, zone, domain, edge, p.addresses[0]);
    forall k | 0 <= k < |p.addresses|
      ensures proxied ==> p.addresses[k] != ip
    {
      assert Resolves(z, zone, domain, edge, p.addresses[k]);
    }
  }

  /** The check tells agreement from disagreement: for a name whose records all point at this
      server with one proxy status, a certificate or path problem is reported if and only if that
      status is not the mode's, or browsers come straight to a certificate not fit for them. */
  lemma ReportedExactly(p: Health.Probe, z: Cloudflare.Zone, t: Tables, zone: string, domain: string, edge: set<string>,
                        ip: string, proxied: bool, mode: bool)
    requires Sees(p, z, t, zone, domain, edge) && ip != "" && ip !in edge && AllHere(z, zone, domain, ip, proxied)
    requires OneHostPerDomain(t)
    ensures PathWasRight(Health.AssessPublic(p, mode, ip).finding) <==> proxied == mode && (!proxied ==> FitForBrowsers(t, domain))
    ensures !proxied && !FitForBrowsers(t, domain) ==> Health.AssessPublic(p, mode, ip).level.FAIL?
  {
    WhereItWent(p, z, t, zone, domain, edge, ip, proxied);
    if !proxied {
      TrustedIfFit(t, domain, p);
    }
  }

  /** The one host with the name decides. */
  lemma TrustedIfFit(t: Tables, domain: string, p: Health.Probe)
    requires ShownBy(t, domain, p) && OneHostPerDomain(t)
    ensures p.trusted == Some(FitForBrowsers(t, domain))
  {
    var h :| Lists(t, h, domain) && CertOf(t.hosts[h]) in t.certs && ShownCert(t.certs[CertOf(t.hosts[h])], domain, p);
    assert forall k | Lists(t, k, domain) :: k == h;
  }

  // ---------------------------------------------------------------- after a run

  /** Cloudflare can proxy every record at the address. */
  ghost predicate AllProxiable(z: Cloudflare.Zone, ip: string) {
    forall i | 0 <= i < |z.records| && z.records[i].kind.A? && z.records[i].content == ip :: z.records[i].proxiable
  }

  ghost predicate NoneElsewhere(z: Cloudflare.Zone, zone: string, domain: string, ip: string) {
    forall i | AnswersFor(z, zone, domain, i) :: z.records[i].content == ip
  }

  /** The names of a certificate matter up to case and order only. */
  lemma CoversByLowerSet(a: seq<string>, b: seq<string>, hostname: string)
    requires Names.LowerSet(a) == Names.LowerSet(b) && Coverage.Covers(a, hostname)
    ensures Coverage.Covers(b, hostname)
  {
    var i :| 0 <= i < |a| && Coverage.NameMatches(Names.Lower(a[i]), Coverage.Norm(hostname));
    assert a[i] in a && Names.Lower(a[i]) in Names.LowerSet(b);
    var d :| d in b && Names.Lower(d) == Names.Lower(a[i]);
    var j :| 0 <= j < |b| && b[j] == d;
  }

  lemma AgreedIsHere(z: Cloudflare.Zone, zone: string, domain: string, ip: string, proxied: bool)
    requires Cloudflare.Agreed(z, ip, proxied) && AllProxiable(z, ip) && NoneElsewhere(z, zone, domain, ip)
    ensures AllHere(z, zone, domain, ip, proxied)
  {
  }

  /** Once the zone is published some record always answers, if only the wildcard. */
  lemma SomethingAnswers(z: Cloudflare.Zone, cfg: Config, domain: string)
    requires DnsRight(z, cfg)
    ensures exists i :: AnswersFor(z, cfg.zone, domain, i)
    ensures Cloudflare.Published(z, cfg.zone, cfg.ip, cfg.proxied) && Cloudflare.Published(z, "*." + cfg.zone, cfg.ip, cfg.proxied)
  {
    assert Cloudflare.Published(z, ZoneNames(cfg.zone)[0], cfg.ip, cfg.proxied);
    assert Cloudflare.Published(z, ZoneNames(cfg.zone)[1], cfg.ip, cfg.proxied);
    if HasA(z, domain) {
      var i :| 0 <= i < |z.records| && Cloudflare.IsA(z.records[i], domain);
      assert AnswersFor(z, cfg.zone, domain, i);
    } else {
      var k := Cloudflare.FirstA(z.records, "*." + cfg.zone).value;
      assert AnswersFor(z, cfg.zone, domain, k);
    }
  }

  lemma DirectIsFit(z: Cloudflare.Zone, t: Tables, s: State, cfg: Config, i: nat)
    requires Agrees(z, t, s, cfg) && !cfg.proxied && i < |s.rows|
    requires Coverage.Covers(Coverage.CertificateHostnames(cfg.zone), s.rows[i].domain)
    ensures FitForBrowsers(t, s.rows[i].domain)
  {
    assert InStep(t, s.rows[i], s.cert.id);
    CoversByLowerSet(Coverage.CertificateHostnames(cfg.zone), t.certs[s.cert.id.value].domains, s.rows[i].domain);
  }

  /** Agreement, for one name. */
  lemma AgreedName(z: Cloudflare.Zone, t: Tables, s: State, cfg: Config, i: nat)
    requires Agrees(z, t, s, cfg) && i < |s.rows|
    requires AllProxiable(z, cfg.ip) && NoneElsewhere(z, cfg.zone, s.rows[i].domain, cfg.ip)
    requires !cfg.proxied ==> Coverage.Covers(Coverage.CertificateHostnames(cfg.zone), s.rows[i].domain)
    ensures AllHere(z, cfg.zone, s.rows[i].domain, cfg.ip, cfg.proxied)
    ensures !cfg.proxied ==> FitForBrowsers(t, s.rows[i].domain)
  {
    AgreedIsHere(z, cfg.zone, s.rows[i].domain, cfg.ip, cfg.proxied);
    if !cfg.proxied {
      DirectIsFit(z, t, s, cfg, i);
    }
  }

  lemma LevelOfFinding(p: Health.Probe, mode: bool, ip: string)
    ensures var v := Health.AssessPublic(p, mode, ip);
            && (p.trusted.None? && p.addresses != [] ==> v.finding.NoConnection? && v.level.WARN?)
            && (PathWasRight(v.finding) ==> (v.level.FAIL? <==> v.finding.Http525? || v.finding.Http526?))
  {
  }

  /** After a run that ends in agreement no browser is shown the Origin certificate or takes the wrong
      path to a name edgekit serves, whether or not the probe gets as far as a certificate: the check
      can fail only for what Cloudflare itself answers. */
  lemma AgreementIsSeen(z: Cloudflare.Zone, t: Tables, s: State, cfg: Config, edge: set<string>, i: nat, p: Health.Probe)
    requires Agrees(z, t, s, cfg) && OneHostPerDomain(t) && i < |s.rows|
    requires cfg.ip != "" && cfg.ip !in edge
    requires AllProxiable(z, cfg.ip) && NoneElsewhere(z, cfg.zone, s.rows[i].domain, cfg.ip)
    requires !cfg.proxied ==> Coverage.Covers(Coverage.CertificateHostnames(cfg.zone), s.rows[i].domain)
    requires Resolved(p, z, cfg.zone, s.rows[i].domain, edge)
    requires p.trusted.Some? ==> Sees(p, z, t, cfg.zone, s.rows[i].domain, edge)
    ensures var v := Health.AssessPublic(p, cfg.proxied, cfg.ip);
            && (if p.trusted.Some? then PathWasRight(v.finding) else v.finding.NoConnection?)
            && (v.level.FAIL? <==> v.finding.Http525? || v.finding.Http526?)
  {
    LevelOfFinding(p, cfg.proxied, cfg.ip);
    if p.trusted.Some? {
      AgreedName(z, t, s, cfg, i);
      ReportedExactly(p, z, t, cfg.zone, s.rows[i].domain, edge, cfg.ip, cfg.proxied, cfg.proxied);
    }
  }
}
