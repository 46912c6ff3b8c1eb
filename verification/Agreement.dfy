/** The TLS mode and everything that has to agree with it: proxy status, SSL mode, the installed
    certificate, and what every host serves. */
module Agreement {
  import opened Common
  import opened NpmServer
  import opened NpmClient
  import opened ProxyHosts
  import opened Store
  import opened Certificates
  import opened Hosts
  import opened Recovery
  import opened InstallRuns
  import Cloudflare
  import Coverage

  /** The part of the configuration the TLS steps read. `zoneKnown` is whether a zone id is stored;
      `panelName` is the public panel domain, `panelHost` its normal form if it is a valid hostname. */
  datatype Config = Config(
    skipDocker: bool, skipCloudflare: bool, npmEnabled: bool,
    cfEnabled: bool, token: bool, zone: string, zoneKnown: bool, ip: string,
    proxied: bool, supplied: Option<Pem>, certName: string, emailUsable: bool,
    panelName: Option<string>, panelHost: Option<string>, panelBind: string, panelPort: nat)

  function ZoneNames(zone: string): seq<string> {
    [zone, "*." + zone]
  }

  /** The recorded certificate is in NPM and is of the mode's kind: Let's Encrypt for the wildcard
      and the apex in direct mode, in proxied mode an Origin certificate, and the supplied one when
      there is one. */
  ghost predicate CertRight(t: Tables, c: Recorded, cfg: Config) {
    && c.id.Some? && c.id.value in t.certs
    && var cert := t.certs[c.id.value];
    && cert.pem.Some?
    && if cfg.proxied then
         OriginHeld(t, c) && (cfg.supplied.Some? ==> cert.pem.value.der == cfg.supplied.value.der)
       else
         IssuedFor(cert, Coverage.CertificateHostnames(cfg.zone)) && c.kind.LetsEncrypted?
  }

  ghost predicate AllInStep(t: Tables, s: State) {
    forall i | 0 <= i < |s.rows| :: InStep(t, s.rows[i], s.cert.id)
  }

  /** DNS is as the mode wants it. */
  ghost predicate DnsRight(z: Cloudflare.Zone, cfg: Config) {
    && Cloudflare.AllPublished(z, ZoneNames(cfg.zone), cfg.ip, cfg.proxied)
    && Cloudflare.Agreed(z, cfg.ip, cfg.proxied)
  }

  ghost predicate Agrees(z: Cloudflare.Zone, t: Tables, s: State, cfg: Config) {
    && DnsRight(z, cfg) && (cfg.proxied ==> z.ssl == Cloudflare.STRICT)
    && CertRight(t, s.cert, cfg) && AllInStep(t, s)
  }

  // ---------------------------------------------------------------- before a run

  /** Where the rows name a certificate, NPM serves it. */
  ghost predicate LocalIdsAgree(t: Tables, rows: seq<Row>) {
    forall i | 0 <= i < |rows| && rows[i].npmHost.Some? && rows[i].npmCert.Some? :: Serves(t, rows[i].domain, rows[i].npmCert)
  }

  /** NPM still holds the recorded Origin certificate. */
  ghost predicate RecordHeld(t: Tables, c: Recorded) {
    c.ForOrigin() && c.id.Some? ==> OriginHeld(t, c)
  }

  /** What every operation keeps: rows name only ids handed out before, and a recorded fingerprint is
      that of the certificate NPM holds. */
  ghost predicate Lasting(t: Tables, s: State) {
    RowsOld(t, s.rows) && Truthful(World(s.cert, t))
  }

  /** The recorded certificate had not been created yet. */
  ghost predicate NewSince(t: Tables, c: Recorded) {
    c.id.Some? && c.id.value >= t.nextCert
  }

  /** What a run that ends up recording `c` takes on trust of the settings: where Cloudflare issues the
      certificates and none was issued, that NPM holds the one it was skipped for. */
  ghost predicate Sound(t: Tables, s: State, cfg: Config, c: Recorded) {
    && Lasting(t, s)
    && (cfg.proxied && cfg.supplied.None? && !NewSince(t, c) ==> RecordHeld(t, s.cert))
  }

  /** What a run that ends up recording `c` may start from: the records are those of earlier installs,
      and where `c` is not new the rows tell the truth. */
  ghost predicate Trusted(t: Tables, s: State, cfg: Config, c: Recorded) {
    Sound(t, s, cfg, c) && (NewSince(t, c) || LocalIdsAgree(t, s.rows))
  }

  // ---------------------------------------------------------------- the certificate step

  /** What a successful certificate step leaves for the attach step. */
  ghost predicate ReadyToAttach(t0: Tables, s0: State, t1: Tables, s1: State, cfg: Config) {
    && CertRight(t1, s1.cert, cfg)
    && (NewSince(t0, s1.cert) || LocalIdsAgree(t0, s0.rows) ==> UpToDateRowsServe(t1, s1))
  }

  lemma FreshReady(t0: Tables, s0: State, t1: Tables, s1: State, cfg: Config)
    requires CertRight(t1, s1.cert, cfg) && s1.rows == s0.rows && RowsOld(t0, s0.rows)
    requires NewSince(t0, s1.cert)
    ensures ReadyToAttach(t0, s0, t1, s1, cfg)
  {
    FreshIdSkipsNothing(t0, s1);
  }

  /** A certificate that was there already: hosts are only ever moved onto it. */
  lemma ReusedReady(t0: Tables, s0: State, t1: Tables, s1: State, cfg: Config, olds: set<nat>)
    requires CertRight(t1, s1.cert, cfg) && s1.rows == s0.rows && !NewSince(t0, s1.cert)
    requires PartlyMoved(t0.hosts, t1.hosts, olds, s1.cert.id.value)
    ensures ReadyToAttach(t0, s0, t1, s1, cfg)
  {
    if LocalIdsAgree(t0, s0.rows) {
      forall i | 0 <= i < |s1.rows| && UpToDate(s1.rows[i], s1.cert.id)
        ensures Serves(t1, s1.rows[i].domain, s1.cert.id)
      {
        StillServes(t0, t1, s0.rows[i].domain, olds, s1.cert.id.value);
      }
    }
  }

  lemma StillServes(t0: Tables, t1: Tables, domain: string, olds: set<nat>, id: nat)
    requires Serves(t0, domain, Some(id)) && PartlyMoved(t0.hosts, t1.hosts, olds, id)
    ensures Serves(t1, domain, Some(id))
  {
    MovesKeepDomains(t0, t1, olds, id);
    var h :| Lists(t0, h, domain);
    assert Lists(t1, h, domain);
    forall k | Lists(t1, k, domain)
      ensures CertOf(t1.hosts[k]) == id
    {
      assert Lists(t0, k, domain);
    }
  }

  lemma NothingMoved(hosts: map<nat, Fields>, to: nat)
    ensures PartlyMoved(hosts, hosts, {}, to)
  {
  }

  lemma ManualReady(s0: State, t0: Tables, cfg: Config, name: string, pem: Pem, evs: seq<Event>,
                    s1: State, t1: Tables, a: Answer)
    requires WellFormed(t0) && Sound(t0, s0, cfg, s1.cert) && cfg.proxied && cfg.supplied == Some(pem) && s1.rows == s0.rows
    requires ManualPost(s0.cert, t0, name, pem, false, evs, s1.cert, t1, Ok(a))
    ensures ReadyToAttach(t0, s0, t1, s1, cfg)
  {
    if a.Unchanged? {
      NothingMoved(t0.hosts, a.id);
      ReusedReady(t0, s0, t1, s1, cfg, {});
    } else {
      FreshReady(t0, s0, t1, s1, cfg);
    }
  }

  lemma IssueReady(s0: State, t0: Tables, cfg: Config, name: string, issued: Option<Pem>, now: int, evs: seq<Event>,
                   s1: State, t1: Tables, a: Answer)
    requires WellFormed(t0) && Sound(t0, s0, cfg, s1.cert) && cfg.proxied && cfg.supplied.None? && s1.rows == s0.rows
    requires IssuePost(s0.cert, t0, name, issued, now, false, evs, s1.cert, t1, Ok(a))
    ensures ReadyToAttach(t0, s0, t1, s1, cfg)
  {
    if a.Skipped? {
      NothingMoved(t0.hosts, a.id);
      ReusedReady(t0, s0, t1, s1, cfg, {});
    } else {
      FreshReady(t0, s0, t1, s1, cfg);
    }
  }

  lemma LetsEncryptReady(s0: State, t0: Tables, cfg: Config, name: string, now: int, evs: seq<Event>,
                         s1: State, t1: Tables, a: Answer)
    requires WellFormed(t0) && Sound(t0, s0, cfg, s1.cert) && !cfg.proxied && s1.rows == s0.rows && WellFormed(t1)
    requires LetsEncryptPost(s0.cert, t0, name, Coverage.CertificateHostnames(cfg.zone), now, false, evs, s1.cert, t1, Ok(a))
    ensures ReadyToAttach(t0, s0, t1, s1, cfg)
  {
    if a.Reused? {
      ReusedReady(t0, s0, t1, s1, cfg, Previous(s0.cert.id, a.id));
    } else {
      FreshReady(t0, s0, t1, s1, cfg);
    }
  }

  // ---------------------------------------------------------------- tidiness through an install

  /** Which hosts there are and what they are called is not an install's business. */
  ghost predicate SameDomains(t0: Tables, t1: Tables) {
    t1.hosts.Keys == t0.hosts.Keys && forall h | h in t0.hosts :: DomainsOf(t1.hosts[h]) == DomainsOf(t0.hosts[h])
  }

  lemma SameDomainsKeepTidy(t0: Tables, t1: Tables, rows: seq<Row>, managed: set<string>)
    requires Tidy(t0, rows, managed) && WellFormed(t1) && SameDomains(t0, t1)
    ensures Tidy(t1, rows, managed)
  {
    assert forall h, d :: Lists(t1, h, d) <==> Lists(t0, h, d);
  }

  lemma ManualKeepsDomains(c0: Recorded, t0: Tables, name: string, pem: Pem, force: bool, evs: seq<Event>,
                           c1: Recorded, t1: Tables, r: Result<Answer, CertError>)
    requires ManualPost(c0, t0, name, pem, force, evs, c1, t1, r)
    ensures SameDomains(t0, t1)
  {
    if t1 != t0 {
      MovesKeepNames(t0, t1, Replaced(t0, name, c0.id), t0.nextCert);
    }
  }

  lemma IssueKeepsDomains(c0: Recorded, t0: Tables, name: string, issued: Option<Pem>, now: int, force: bool, evs: seq<Event>,
                          c1: Recorded, t1: Tables, r: Result<Answer, CertError>)
    requires IssuePost(c0, t0, name, issued, now, force, evs, c1, t1, r)
    ensures SameDomains(t0, t1)
  {
    if t1 != t0 {
      MovesKeepNames(t0, t1, Replaced(t0, name, c0.id), t0.nextCert);
    }
  }

  lemma MovesKeepNames(t0: Tables, t1: Tables, olds: set<nat>, to: nat)
    requires PartlyMoved(t0.hosts, t1.hosts, olds, to)
    ensures SameDomains(t0, t1)
  {
  }

  lemma LetsEncryptKeepsDomains(c0: Recorded, t0: Tables, name: string, domains: seq<string>, now: int, force: bool,
                                evs: seq<Event>, c1: Recorded, t1: Tables, r: Result<Answer, CertError>)
    requires LetsEncryptPost(c0, t0, name, domains, now, force, evs, c1, t1, r)
    ensures SameDomains(t0, t1)
  {
  }

  // ---------------------------------------------------------------- what lasts

  lemma InstallLasts(s0: State, t0: Tables, turn: Turn, s1: State)
    requires Lasting(t0, s0) && Step(World(s0.cert, t0), turn)
    requires s1.rows == s0.rows && s1.cert == turn.after.c && turn.after.t.nextCert >= t0.nextCert
    ensures Lasting(turn.after.t, s1)
  {
    StepKeepsTruth(World(s0.cert, t0), turn);
  }

  lemma ManualLasts(s0: State, t0: Tables, name: string, pem: Pem, evs: seq<Event>, s1: State, t1: Tables, r: Result<Answer, CertError>)
    requires Lasting(t0, s0) && WellFormed(t1) && s1.rows == s0.rows
    requires ManualPost(s0.cert, t0, name, pem, false, evs, s1.cert, t1, r)
    ensures Lasting(t1, s1)
  {
    InstallLasts(s0, t0, Turn(Manual(name, pem, false), evs, r, World(s1.cert, t1)), s1);
  }

  lemma IssueLasts(s0: State, t0: Tables, name: string, issued: Option<Pem>, now: int, evs: seq<Event>, s1: State, t1: Tables,
                   r: Result<Answer, CertError>)
    requires Lasting(t0, s0) && WellFormed(t1) && s1.rows == s0.rows
    requires IssuePost(s0.cert, t0, name, issued, now, false, evs, s1.cert, t1, r)
    ensures Lasting(t1, s1)
  {
    InstallLasts(s0, t0, Turn(Issue(name, issued, now, false), evs, r, World(s1.cert, t1)), s1);
  }

  lemma LetsEncryptLasts(s0: State, t0: Tables, name: string, domains: seq<string>, now: int, evs: seq<Event>, s1: State, t1: Tables,
                         r: Result<Answer, CertError>)
    requires Lasting(t0, s0) && WellFormed(t1) && s1.rows == s0.rows
    requires LetsEncryptPost(s0.cert, t0, name, domains, now, false, evs, s1.cert, t1, r)
    ensures Lasting(t1, s1)
  {
    InstallLasts(s0, t0, Turn(LetsEncryptOp(name, domains, now, false), evs, r, World(s1.cert, t1)), s1);
  }

  /** Pushing changes no certificate, and the only id it writes into a row is the recorded one. */
  lemma PushLasts(s0: State, t0: Tables, s1: State, t1: Tables)
    requires Lasting(t0, s0) && t1.certs == t0.certs && t1.nextCert == t0.nextCert && s1.cert == s0.cert
    requires forall i | 0 <= i < |s1.rows| ::
               s1.rows[i].npmCert in {None, s0.cert.id} || (i < |s0.rows| && s1.rows[i].npmCert == s0.rows[i].npmCert)
    ensures Lasting(t1, s1)
  {
  }

  // ---------------------------------------------------------------- attaching

  lemma AttachedInStep(s0: State, t0: Tables, managed: set<string>, s1: State, t1: Tables, moved: seq<string>, cfg: Config)
    requires AttachPost(s0, t0, managed, s1, t1, Ok(moved))
    requires CertRight(t0, s0.cert, cfg) && UpToDateRowsServe(t0, s0)
    ensures CertRight(t1, s1.cert, cfg) && AllInStep(t1, s1)
  {
    AttachIsExact(s0, t0, managed, s1, t1, moved);
  }

  // ---------------------------------------------------------------- one more push

  /** A push of row `i` leaves the other rows in step, and brings that one into step. */
  lemma PushKeepsInStep(s: State, t: Tables, managed: set<string>, i: nat, verdict: Option<bool>, t1: Tables, h: nat, cfg: Config)
    requires Tidy(t, s.rows, managed) && i < |s.rows| && WellFormed(t1)
    requires PushPost(t, s.rows[i].domain, Body(s.rows[i], s.cert.id), verdict, t1, Ok(h))
    requires PushState(t, s.rows[i].domain, Body(s.rows[i], s.cert.id), t1)
    requires CertRight(t, s.cert, cfg) && forall j | 0 <= j < |s.rows| && j != i :: InStep(t, s.rows[j], s.cert.id)
    ensures var s1 := s.(rows := s.rows[i := Attached(s.rows[i], h, s.cert.id)]);
            CertRight(t1, s1.cert, cfg) && AllInStep(t1, s1)
  {
    PushKeepsTables(t, s.rows, managed, i, s.cert.id, t1);
    PushedServes(t, s.rows[i], s.cert.id, t1, h);
    forall j | 0 <= j < |s.rows| && j != i
      ensures InStep(t1, s.rows[j], s.cert.id)
    {
      SameForServes(t, t1, s.rows[j].domain, s.cert.id);
    }
  }

  /** Publishing one more name the way the mode wants it disturbs nothing. */
  lemma UpsertKeepsDns(z0: Cloudflare.Zone, z1: Cloudflare.Zone, cfg: Config, name: string, id: nat)
    requires DnsRight(z0, cfg) && Cloudflare.Upserted(z0, z1, name, cfg.ip, cfg.proxied, id)
    ensures DnsRight(z1, cfg) && z1.ssl == z0.ssl
  {
    Cloudflare.UpsertKeepsAgreed(z0, z1, name, cfg.ip, cfg.proxied, id);
    Cloudflare.UpsertPublishes(z0, z1, name, cfg.ip, cfg.proxied, id);
    var names := ZoneNames(cfg.zone);
    forall i | 0 <= i < |names|
      ensures Cloudflare.Published(z1, names[i], cfg.ip, cfg.proxied)
    {
      assert Cloudflare.Published(z0, names[i], cfg.ip, cfg.proxied);
    }
  }

  lemma ZoneNamesDiffer(zone: string)
    ensures var n := ZoneNames(zone); forall i, j | 0 <= i < j < |n| :: n[i] != n[j]
  {
    assert |ZoneNames(zone)[0]| != |ZoneNames(zone)[1]|;
  }

  // ---------------------------------------------------------------- switching modes

  /** An edge in agreement with one mode is a sound start for any other. */
  lemma AgreementIsTrusted(z: Cloudflare.Zone, t: Tables, s: State, cfg: Config, next: Config, c: Recorded)
    requires Agrees(z, t, s, cfg) && Lasting(t, s)
    ensures Trusted(t, s, next, c)
  {
    forall i | 0 <= i < |s.rows|
      ensures Serves(t, s.rows[i].domain, s.rows[i].npmCert)
    {
      assert InStep(t, s.rows[i], s.cert.id);
    }
  }
}
