/** The steps that decide what browsers get over HTTPS, run in order. */
module Provision {
  import opened Common
  import opened NpmServer
  import NpmClient
  import opened ProxyHosts
  import opened Store
  import opened Certificates
  import opened Hosts
  import opened Recovery
  import opened Agreement
  import Cloudflare
  import Coverage
  import Health

  datatype Status = StepDone | StepSkipped | StepFailed

  datatype Key = CloudflareZone | CloudflareDns | CloudflareSsl | OriginCert | AttachCert | PanelHost | VerifyHttps | Persist

  datatype StepResult = StepResult(key: Key, status: Status)

  const TLS_STEPS := [CloudflareZone, CloudflareDns, CloudflareSsl, OriginCert, AttachCert, PanelHost, VerifyHttps, Persist]

  predicate StepsOk(results: seq<StepResult>) {
    forall i | 0 <= i < |results| :: !results[i].status.StepFailed?
  }

  function KeysOf(results: seq<StepResult>): seq<Key> {
    seq(|results|, i requires 0 <= i < |results| => results[i].key)
  }

  /** Nothing is skipped on purpose, and there is a domain. */
  ghost predicate Intended(cfg: Config) {
    !cfg.skipDocker && !cfg.skipCloudflare && cfg.npmEnabled && cfg.zone != ""
  }

  ghost predicate PanelManaged(cfg: Config, managed: set<string>) {
    && (cfg.panelName.Some? ==> cfg.panelName.value in managed)
    && (cfg.panelHost.Some? ==> cfg.panelHost.value in managed)
  }

  // ---------------------------------------------------------------- the token

  /** One permission, and whether the token has it. */
  datatype Capability = Capability(required: bool, ok: bool)

  /** What Cloudflare answers about the token, the zone and the permissions on it. */
  datatype ZoneAnswers = ZoneAnswers(tokenValid: bool, zoneFound: bool, report: seq<Capability>)

  ghost predicate Permitted(a: ZoneAnswers) {
    a.tokenValid && a.zoneFound && forall i | 0 <= i < |a.report| && a.report[i].required :: a.report[i].ok
  }

  // ---------------------------------------------------------------- the world outside

  /** What the rest of the world says during one run: the time, Cloudflare about the token, whether the
      supplied pair parses and belongs together, what Cloudflare's authority issues, and whether the
      configuration file can be written. */
  datatype Outside = Outside(now: int, zone: ZoneAnswers, pairMatches: bool, issued: Option<Pem>, writable: bool)

  /** A certificate of the mode's kind can be had. */
  ghost predicate CertAvailable(cfg: Config, o: Outside) {
    if !cfg.proxied then !cfg.skipCloudflare && cfg.token && cfg.zone != "" && cfg.emailUsable
    else if cfg.supplied.Some? then o.pairMatches && cfg.supplied.value.der.expires >= o.now
    else cfg.cfEnabled && cfg.token && cfg.zone != "" && o.issued.Some?
  }

  /** What a certificate step records is not expired, as far as edgekit can tell: in proxied mode it has
      an end that is not past, provided an issued one has not expired already; in direct mode what is
      reused has more than thirty days left or no known end. */
  ghost predicate InDate(t0: Tables, c: Recorded, cfg: Config, o: Outside) {
    && (cfg.proxied && (cfg.supplied.None? && o.issued.Some? ==> o.issued.value.der.expires >= o.now) ==>
          c.expires.Some? && c.expires.value >= o.now)
    && (!cfg.proxied && !NewSince(t0, c) && c.expires.Some? ==> c.expires.value - o.now > 30 * 86400)
  }

  /** The label recorded with a certificate that was not recorded before. */
  ghost predicate NameRight(c0: Recorded, c: Recorded, cfg: Config) {
    c != c0 ==>
      c.name == if !cfg.proxied then "Let's Encrypt - " + cfg.zone
                else if cfg.supplied.Some? then cfg.certName
                else "Cloudflare Origin - " + cfg.zone
  }

  // ---------------------------------------------------------------- the panel's row

  function FindRow(rows: seq<Row>, domain: string): (r: Option<nat>)
    ensures r.Some? ==> r.value < |rows| && rows[r.value].domain == domain
    ensures r.None? ==> forall i | 0 <= i < |rows| :: rows[i].domain != domain
  {
    if rows == [] then None
    else if rows[0].domain == domain then Some(0)
    else match FindRow(rows[1..], domain)
      case None => None
      case Some(k) => Some(k + 1)
  }

  function PanelRow(domain: string, bind: string, port: nat): Row {
    Row(domain, bind, port, "http", true, true, true, true, None, None, None)
  }

  /** The panel is published under one of its names and points at the panel. */
  ghost predicate PanelPublished(s: State, cfg: Config) {
    exists i :: 0 <= i < |s.rows| && (Some(s.rows[i].domain) == cfg.panelName || Some(s.rows[i].domain) == cfg.panelHost)
                && s.rows[i].forwardHost == cfg.panelBind && s.rows[i].forwardPort == cfg.panelPort
  }

  /** And NPM serves it under the host the row names, from there. */
  ghost predicate PanelServed(t: Tables, s: State, cfg: Config) {
    exists i :: 0 <= i < |s.rows| && PanelHostIs(t, s.rows[i], cfg)
  }

  ghost predicate PanelHostIs(t: Tables, row: Row, cfg: Config) {
    && (Some(row.domain) == cfg.panelName || Some(row.domain) == cfg.panelHost)
    && OnHost(t, row)
    && HasField(t.hosts[row.npmHost.value], ForwardHost, Text(cfg.panelBind))
    && HasField(t.hosts[row.npmHost.value], ForwardPort, Num(cfg.panelPort))
  }

  /** The panel's row can be put in place: it is there, or there is room for a valid new one. */
  ghost predicate Placeable(cfg: Config, rows: seq<Row>) {
    && 0 < cfg.panelPort < 65536 && cfg.panelName.Some?
    && ((exists i :: 0 <= i < |rows| && rows[i].domain == cfg.panelName.value)
        || (cfg.panelHost.Some? && cfg.panelBind != "" && forall i | 0 <= i < |rows| :: rows[i].domain != cfg.panelHost.value))
  }

  ghost predicate SameNames(a: seq<Row>, b: seq<Row>) {
    |a| == |b| && forall i | 0 <= i < |a| :: a[i].domain == b[i].domain
  }

  lemma PlaceableSame(cfg: Config, a: seq<Row>, b: seq<Row>)
    requires SameNames(a, b)
    ensures Placeable(cfg, a) <==> Placeable(cfg, b)
  {
    if i :| 0 <= i < |a| && cfg.panelName.Some? && a[i].domain == cfg.panelName.value {
      assert b[i].domain == a[i].domain;
    }
    if i :| 0 <= i < |b| && cfg.panelName.Some? && b[i].domain == cfg.panelName.value {
      assert a[i].domain == b[i].domain;
    }
  }

  /** Nothing is to be published: it is switched off, or the panel listens on loopback only. */
  ghost predicate NoPanel(cfg: Config) {
    cfg.skipDocker || !cfg.npmEnabled || cfg.panelName.None? || cfg.panelBind == "127.0.0.1" || cfg.panelBind == "localhost"
  }

  /** The state with the panel's row put in place, and where it is. */
  ghost predicate PanelPlaced(s0: State, s: State, i: nat, cfg: Config) {
    && s.cert == s0.cert && i < |s.rows|
    && (Some(s.rows[i].domain) == cfg.panelName || Some(s.rows[i].domain) == cfg.panelHost)
    && s.rows[i].forwardHost == cfg.panelBind && s.rows[i].forwardPort == cfg.panelPort
    && (forall j | 0 <= j < |s.rows| && j != i :: j < |s0.rows| && s.rows[j] == s0.rows[j])
  }

  /** Row `i` is the one that was there with another target, or a new one that forces SSL, speaks
      HTTP/2, passes websockets and blocks exploits, on no NPM host yet. */
  ghost predicate RowPlaced(s0: State, s: State, i: nat, cfg: Config) {
    && s.cert == s0.cert && i < |s.rows| && cfg.panelName.Some?
    && (forall j | 0 <= j < |s.rows| && j != i :: j < |s0.rows| && s.rows[j] == s0.rows[j])
    && if i < |s0.rows| then
         && |s.rows| == |s0.rows| && s0.rows[i].domain == cfg.panelName.value
         && s.rows[i] == s0.rows[i].(forwardHost := s.rows[i].forwardHost, forwardPort := cfg.panelPort)
         && s.rows[i].forwardHost == (if cfg.panelBind != "" then cfg.panelBind else s0.rows[i].forwardHost)
       else
         && i == |s0.rows| && Some(s.rows[i].domain) == cfg.panelHost
         && s.rows[i] == Row(s.rows[i].domain, cfg.panelBind, cfg.panelPort, "http", true, true, true, true, None, None, None)
  }

  lemma PlacedKeepsTidy(t: Tables, s0: State, s: State, i: nat, cfg: Config, managed: set<string>)
    requires Tidy(t, s0.rows, managed) && PanelManaged(cfg, managed) && PanelPlaced(s0, s, i, cfg)
    requires forall j | 0 <= j < |s0.rows| && j != i :: s0.rows[j].domain != s.rows[i].domain
    ensures Tidy(t, s.rows, managed)
  {
  }

  ghost predicate OthersInStep(t: Tables, s: State, i: nat) {
    forall j | 0 <= j < |s.rows| && j != i :: InStep(t, s.rows[j], s.cert.id)
  }

  /** Row `i` carries what NPM and Cloudflare answered; nothing else changed. */
  ghost predicate RowPushed(s: State, s1: State, i: nat) {
    && s1.cert == s.cert && |s1.rows| == |s.rows| && i < |s.rows|
    && s1.rows[i] == s.rows[i].(npmHost := s1.rows[i].npmHost, npmCert := s.cert.id, dnsRecord := s1.rows[i].dnsRecord)
    && forall j | 0 <= j < |s.rows| && j != i :: s1.rows[j] == s.rows[j]
  }

  // ---------------------------------------------------------------- what a run brings about

  /** Everything that has to agree: the zone, NPM and the committed database. */
  datatype Edge = Edge(z: Cloudflare.Zone, t: Tables, s: State)

  /** One run of the TLS steps, whether no step failed, and what it left. */
  datatype TlsRun = TlsRun(cfg: Config, ok: bool, after: Edge)

  ghost predicate InAgreement(e: Edge, cfg: Config) { Agrees(e.z, e.t, e.s, cfg) }

  /** Whatever fails, the database keeps naming only what NPM handed out. When no step fails and nothing
      was skipped on purpose, everything agrees with the mode, provided a new certificate was installed
      or the rows told the truth about NPM beforehand. */
  ghost predicate RanTls(e: Edge, run: TlsRun) {
    && (Lasting(e.t, e.s) ==> Lasting(run.after.t, run.after.s))
    && (run.ok && Intended(run.cfg) && Trusted(e.t, e.s, run.cfg, run.after.s.cert) ==> InAgreement(run.after, run.cfg))
  }

  /** Runs one after the other, each with whatever mode and configuration is wanted then. */
  ghost predicate History(e: Edge, runs: seq<TlsRun>)
    decreases |runs|
  {
    runs != [] ==> RanTls(e, runs[0]) && History(runs[0].after, runs[1..])
  }

  /** The edge before run `i`. */
  function EdgeBefore(e: Edge, runs: seq<TlsRun>, i: nat): Edge
    requires i <= |runs|
  {
    if i == 0 then e else runs[i - 1].after
  }

  lemma {:induction false} RunAt(e: Edge, runs: seq<TlsRun>, i: nat)
    requires History(e, runs) && Lasting(e.t, e.s) && i < |runs|
    ensures RanTls(EdgeBefore(e, runs, i), runs[i])
    ensures Lasting(EdgeBefore(e, runs, i).t, EdgeBefore(e, runs, i).s)
    decreases i
  {
    if i > 0 {
      RunAt(runs[0].after, runs[1..], i - 1);
      assert EdgeBefore(e, runs, i) == EdgeBefore(runs[0].after, runs[1..], i - 1);
    }
  }

  /** After any history of runs, with whatever failures, a run in which no step fails and which ends on
      a certificate that was not there when it began brings everything into agreement. */
  lemma FreshRunAgrees(e: Edge, runs: seq<TlsRun>, i: nat)
    requires History(e, runs) && Lasting(e.t, e.s) && i < |runs|
    requires runs[i].ok && Intended(runs[i].cfg)
    requires NewSince(EdgeBefore(e, runs, i).t, runs[i].after.s.cert)
    ensures InAgreement(runs[i].after, runs[i].cfg)
  {
    RunAt(e, runs, i);
  }

  /** And over any sequence of mode switches in which no step fails, agreement with one mode is
      followed by agreement with the next, whether certificates are new or reused. */
  lemma {:induction false} ModeSwitchesAgree(e: Edge, cfg: Config, runs: seq<TlsRun>, i: nat)
    requires History(e, runs) && Lasting(e.t, e.s) && InAgreement(e, cfg) && i < |runs|
    requires forall k | 0 <= k <= i :: runs[k].ok && Intended(runs[k].cfg)
    ensures InAgreement(runs[i].after, runs[i].cfg)
    decreases i
  {
    RunAt(e, runs, i);
    var before := EdgeBefore(e, runs, i);
    if i == 0 {
      AgreementIsTrusted(before.z, before.t, before.s, cfg, runs[i].cfg, runs[i].after.s.cert);
    } else {
      ModeSwitchesAgree(e, cfg, runs, i - 1);
      AgreementIsTrusted(before.z, before.t, before.s, runs[i - 1].cfg, runs[i].cfg, runs[i].after.s.cert);
    }
  }

  // ---------------------------------------------------------------- what a run reports

  /** How each of the six steps that change something ended. */
  datatype Report = Report(zone: Status, dns: Status, ssl: Status, cert: Status, attach: Status, panel: Status)

  ghost function Recorded6(r: Report): seq<StepResult> {
    [StepResult(CloudflareZone, r.zone), StepResult(CloudflareDns, r.dns), StepResult(CloudflareSsl, r.ssl),
     StepResult(OriginCert, r.cert), StepResult(AttachCert, r.attach), StepResult(PanelHost, r.panel)]
  }

  lemma InOrder(r: Report)
    ensures [] + [StepResult(CloudflareZone, r.zone), StepResult(CloudflareDns, r.dns), StepResult(CloudflareSsl, r.ssl)]
            + [StepResult(OriginCert, r.cert), StepResult(AttachCert, r.attach)] + [StepResult(PanelHost, r.panel)] == Recorded6(r)
  {
  }

  ghost function ReportOf(results: seq<StepResult>): Report
    requires |results| >= 6
  {
    Report(results[0].status, results[1].status, results[2].status, results[3].status, results[4].status, results[5].status)
  }

  /** edgekit does not manage this zone. */
  ghost predicate ZoneOff(cfg: Config) {
    cfg.skipCloudflare || !cfg.cfEnabled || !cfg.zoneKnown
  }

  ghost predicate ZoneReport(zone: Status, dns: Status, ssl: Status, cfg: Config, answers: ZoneAnswers, z: Cloudflare.Zone) {
    && (zone.StepSkipped? <==> cfg.skipCloudflare || cfg.zone == "")
    && (zone.StepDone? <==> !cfg.skipCloudflare && cfg.zone != "" && cfg.cfEnabled && cfg.token && Permitted(answers))
    && (zone.StepDone? ==> cfg.zoneKnown)
    && (dns.StepSkipped? <==> ZoneOff(cfg)) && (dns.StepDone? ==> DnsRight(z, cfg))
    && (ssl.StepSkipped? <==> ZoneOff(cfg) || !cfg.proxied) && (ssl.StepDone? ==> z.ssl == "strict")
  }

  /** When none of the three fails, and nothing was to be skipped, the zone is as the mode wants it. */
  lemma ZoneSettled(zone: Status, dns: Status, ssl: Status, cfg: Config, answers: ZoneAnswers, z: Cloudflare.Zone)
    requires ZoneReport(zone, dns, ssl, cfg, answers, z)
    ensures !zone.StepFailed? && !dns.StepFailed? && !ssl.StepFailed? && Intended(cfg) ==>
              && !ZoneOff(cfg) && dns.StepDone? && Permitted(answers)
              && DnsRight(z, cfg) && (cfg.proxied ==> z.ssl == Cloudflare.STRICT)
    ensures Intended(cfg) && cfg.cfEnabled && cfg.token && Permitted(answers) ==> zone.StepDone? && !ZoneOff(cfg)
  {
  }

  ghost predicate CertificateReport(cert: Status, attach: Status, cfg: Config, s: State) {
    && (cert.StepSkipped? <==> cfg.skipDocker || (cfg.proxied && cfg.supplied.None? && ZoneOff(cfg)))
    && (attach.StepSkipped? <==> cfg.skipDocker || !cfg.npmEnabled || s.cert.id.None?)
  }

  ghost predicate CheckReport(verify: Status, persist: Status, cfg: Config, s: State, verdicts: map<string, Health.Verdict>, writable: bool) {
    && (verify.StepSkipped? <==> cfg.skipDocker || !cfg.npmEnabled || s.rows == [])
    && (verify.StepFailed? <==> exists d :: d in verdicts && verdicts[d].level == Health.FAIL)
    && persist == if writable then StepDone else StepFailed
  }

  /** Each step is reported under its own name: skipped exactly when there is nothing for it to do, and
      those on the zone done only when their part holds at the end of the run. */
  ghost predicate Reported(r: Report, cfg: Config, o: Outside, z: Cloudflare.Zone, s: State) {
    && ZoneReport(r.zone, r.dns, r.ssl, cfg, o.zone, z)
    && CertificateReport(r.cert, r.attach, cfg, s)
    && (r.panel.StepSkipped? <==> NoPanel(cfg))
  }

  // ---------------------------------------------------------------- the run

  class Provisioner {
    var config: Config
    var dnsApplied: bool
    var cloudflare525: bool
    var results: seq<StepResult>
    var persisted: Option<Config>
    const session: Session
    const npm: Npm
    const cf: Cloudflare.Server
    const clock: Health.Clock

    constructor (config: Config, session: Session, npm: Npm, cf: Cloudflare.Server, clock: Health.Clock)
      ensures this.config == config && this.session == session && this.npm == npm && this.cf == cf && this.clock == clock
      ensures !dnsApplied && !cloudflare525 && results == [] && persisted == None
    {
      this.config, this.session, this.npm, this.cf, this.clock := config, session, npm, cf, clock;
      dnsApplied, cloudflare525, results, persisted := false, false, [], None;
    }

    ghost predicate Ready(managed: set<string>)
      reads this, session, npm, cf
    {
      && npm.Valid() && cf.Valid() && session.live == session.saved
      && Tidy(npm.t, session.live.rows, managed) && PanelManaged(config, managed)
    }

    method Record(key: Key, status: Status)
      modifies `results
      ensures results == old(results) + [StepResult(key, status)]
      ensures KeysOf(results) == KeysOf(old(results)) + [key]
      ensures StepsOk(results) <==> StepsOk(old(results)) && !status.StepFailed?
    {
      var before := results;
      results := results + [StepResult(key, status)];
      assert results[|before|].status == status;
      assert forall i | 0 <= i < |before| :: results[i] == before[i];
    }

    /** Verify the token, look the zone up and check the permissions on it. */
    method StepZone(answers: ZoneAnswers) returns (st: Status)
      modifies `config
      ensures config == old(config).(zoneKnown := old(config).zoneKnown || config.zoneKnown)
      ensures st.StepSkipped? <==> config.skipCloudflare || config.zone == ""
      ensures st.StepDone? <==> !st.StepSkipped? && config.cfEnabled && config.token && Permitted(answers)
      ensures st.StepDone? ==> config.zoneKnown
      ensures config.zoneKnown && !old(config).zoneKnown ==> answers.tokenValid && answers.zoneFound
    {
      if config.skipCloudflare || config.zone == "" {
        return StepSkipped;
      }
      if !(config.cfEnabled && config.token) {
        return StepFailed;
      }
      if !answers.tokenValid || !answers.zoneFound {
        return StepFailed;
      }
      config := config.(zoneKnown := true);
      var missing := exists i | 0 <= i < |answers.report| :: answers.report[i].required && !answers.report[i].ok;
      st := if missing then StepFailed else StepDone;
    }

    ghost predicate CloudflareOff()
      reads `config
    {
      config.skipCloudflare || !(config.cfEnabled && config.zoneKnown)
    }

    method StepDns() returns (st: Status, ghost evs: seq<Cloudflare.Event>)
      requires cf.Valid()
      modifies `dnsApplied, cf
      ensures cf.Valid() && cf.z.ssl == old(cf.z).ssl && cf.log == old(cf.log) + evs
      ensures st.StepSkipped? <==> CloudflareOff()
      ensures st.StepSkipped? ==> cf.z == old(cf.z) && evs == []
      ensures st.StepDone? <==> !CloudflareOff() && Cloudflare.AllDone(evs)
      ensures st.StepDone? ==>
                && DnsRight(cf.z, config)
                && Cloudflare.Published(cf.z, config.zone, config.ip, config.proxied)
                && Cloudflare.Published(cf.z, "*." + config.zone, config.ip, config.proxied)
      ensures dnsApplied == (old(dnsApplied) || st.StepDone?)
    {
      if config.skipCloudflare || !(config.cfEnabled && config.zoneKnown) {
        return StepSkipped, [];
      }
      var names := ZoneNames(config.zone);
      ZoneNamesDiffer(config.zone);
      var r;
      r, evs := Cloudflare.PublishZone(cf, names, config.ip, config.proxied);
      if r.Err? {
        return StepFailed, evs;
      }
      assert Cloudflare.Published(cf.z, names[0], config.ip, config.proxied) && Cloudflare.Published(cf.z, names[1], config.ip, config.proxied);
      dnsApplied := true;
      st := StepDone;
    }

    method StepSsl() returns (st: Status, ghost evs: seq<Cloudflare.Event>)
      requires cf.Valid()
      modifies cf
      ensures cf.Valid() && cf.z == old(cf.z).(ssl := cf.z.ssl) && cf.log == old(cf.log) + evs
      ensures st.StepSkipped? <==> CloudflareOff() || !config.proxied
      ensures st.StepSkipped? ==> cf.z == old(cf.z) && evs == []
      ensures st.StepDone? <==> !CloudflareOff() && config.proxied && Cloudflare.AllDone(evs)
      ensures st.StepDone? ==> cf.z.ssl == "strict"
    {
      if config.skipCloudflare || !(config.cfEnabled && config.zoneKnown) || !config.proxied {
        return StepSkipped, [];
      }
      var r;
      r, evs := Cloudflare.SetSslMode(cf, Cloudflare.STRICT);
      st := if r.Ok? then StepDone else StepFailed;
    }

    /** Leave the session scope: commit, or roll back on an error. */
    method Leave(ok: bool)
      modifies session
      ensures session.live == session.saved == if ok then old(session.live) else old(session.saved)
    {
      if ok {
        session.Commit();
      } else {
        session.Rollback();
      }
    }

    /** Install the certificate the TLS mode calls for. */
    method StepCertificate(o: Outside) returns (st: Status, ghost evs: seq<Event>)
      requires npm.Valid() && session.live == session.saved
      modifies session, npm
      ensures npm.Valid() && session.live == session.saved && SameDomains(old(npm.t), npm.t)
      ensures npm.log == old(npm.log) + evs && NoWorse(old(npm.t), npm.t)
      ensures Lasting(old(npm.t), old(session.live)) ==> Lasting(npm.t, session.live)
      ensures session.live.rows == old(session.live).rows
      ensures !st.StepDone? ==> session.live == old(session.live)
      ensures st.StepSkipped? <==> config.skipDocker || (config.proxied && config.supplied.None? && CloudflareOff())
      ensures !st.StepSkipped? && CertAvailable(config, o) && AllDone(evs) ==> st.StepDone?
      ensures st.StepDone? && Sound(old(npm.t), old(session.live), config, session.live.cert) ==>
                ReadyToAttach(old(npm.t), old(session.live), npm.t, session.live, config)
      ensures st.StepDone? && Lasting(old(npm.t), old(session.live)) ==> InDate(old(npm.t), session.live.cert, config, o)
      ensures NameRight(old(session.live).cert, session.live.cert, config)
    {
      if config.skipDocker {
        return StepSkipped, [];
      }
      if !config.proxied {
        st, evs := LetsEncryptStep(o);
      } else if config.supplied.Some? {
        st, evs := SuppliedStep(o);
      } else if config.skipCloudflare || !(config.cfEnabled && config.zoneKnown) {
        st, evs := StepSkipped, [];
      } else {
        st, evs := IssuedStep(o);
      }
    }

    method LetsEncryptStep(o: Outside) returns (st: Status, ghost evs: seq<Event>)
      requires npm.Valid() && session.live == session.saved && !config.proxied
      modifies session, npm
      ensures npm.Valid() && session.live == session.saved && SameDomains(old(npm.t), npm.t)
      ensures npm.log == old(npm.log) + evs && NoWorse(old(npm.t), npm.t)
      ensures Lasting(old(npm.t), old(session.live)) ==> Lasting(npm.t, session.live)
      ensures session.live.rows == old(session.live).rows && !st.StepSkipped?
      ensures st.StepFailed? ==> session.live == old(session.live)
      ensures CertAvailable(config, o) && AllDone(evs) ==> st.StepDone?
      ensures !CertAvailable(config, o) ==> st.StepFailed?
      ensures st.StepDone? && Sound(old(npm.t), old(session.live), config, session.live.cert) ==>
                ReadyToAttach(old(npm.t), old(session.live), npm.t, session.live, config)
      ensures st.StepDone? && Lasting(old(npm.t), old(session.live)) ==> InDate(old(npm.t), session.live.cert, config, o)
      ensures NameRight(old(session.live).cert, session.live.cert, config)
    {
      if config.skipCloudflare {
        return StepFailed, [];
      }
      ghost var t0, s0 := npm.t, session.live;
      var names, name := Coverage.CertificateHostnames(config.zone), "Let's Encrypt - " + config.zone;
      var r;
      r, evs := InstallLetsEncrypt(session, npm, config.token && config.zone != "", config.emailUsable, name, names, o.now, false);
      LetsEncryptKeepsDomains(s0.cert, t0, name, names, o.now, false, evs, session.live.cert, npm.t, r);
      if Lasting(t0, s0) {
        LetsEncryptLasts(s0, t0, name, names, o.now, evs, session.live, npm.t, r);
      }
      if r.Ok? {
        ReusedInDate(s0.cert, t0, name, names, evs, session.live.cert, npm.t, r.value, config, o);
        if Sound(t0, s0, config, session.live.cert) {
          LetsEncryptReady(s0, t0, config, name, o.now, evs, session.live, npm.t, r.value);
        }
      }
      Leave(r.Ok?);
      st := if r.Ok? then StepDone else StepFailed;
    }

    /** The supplied pair is checked first: it must parse, belong together and not have expired. */
    method SuppliedStep(o: Outside) returns (st: Status, ghost evs: seq<Event>)
      requires npm.Valid() && session.live == session.saved && config.proxied && config.supplied.Some?
      modifies session, npm
      ensures npm.Valid() && session.live == session.saved && SameDomains(old(npm.t), npm.t)
      ensures npm.log == old(npm.log) + evs && NoWorse(old(npm.t), npm.t)
      ensures Lasting(old(npm.t), old(session.live)) ==> Lasting(npm.t, session.live)
      ensures session.live.rows == old(session.live).rows && !st.StepSkipped?
      ensures st.StepFailed? ==> session.live == old(session.live)
      ensures CertAvailable(config, o) && AllDone(evs) ==> st.StepDone?
      ensures !CertAvailable(config, o) ==> st.StepFailed? && evs == [] && npm.t == old(npm.t)
      ensures st.StepDone? && Sound(old(npm.t), old(session.live), config, session.live.cert) ==>
                ReadyToAttach(old(npm.t), old(session.live), npm.t, session.live, config)
      ensures st.StepDone? && Lasting(old(npm.t), old(session.live)) ==> InDate(old(npm.t), session.live.cert, config, o)
      ensures NameRight(old(session.live).cert, session.live.cert, config)
    {
      var pem := config.supplied.value;
      if !o.pairMatches || pem.der.expires < o.now {
        return StepFailed, [];
      }
      ghost var t0, s0 := npm.t, session.live;
      var r;
      r, evs := InstallManual(session, npm, config.certName, pem, false);
      ManualKeepsDomains(s0.cert, t0, config.certName, pem, false, evs, session.live.cert, npm.t, r);
      if Lasting(t0, s0) {
        ManualLasts(s0, t0, config.certName, pem, evs, session.live, npm.t, r);
      }
      if r.Ok? && Sound(t0, s0, config, session.live.cert) {
        ManualReady(s0, t0, config, config.certName, pem, evs, session.live, npm.t, r.value);
      }
      Leave(r.Ok?);
      st := if r.Ok? then StepDone else StepFailed;
    }

    method IssuedStep(o: Outside) returns (st: Status, ghost evs: seq<Event>)
      requires npm.Valid() && session.live == session.saved && config.proxied && config.supplied.None?
      modifies session, npm
      ensures npm.Valid() && session.live == session.saved && SameDomains(old(npm.t), npm.t)
      ensures npm.log == old(npm.log) + evs && NoWorse(old(npm.t), npm.t)
      ensures Lasting(old(npm.t), old(session.live)) ==> Lasting(npm.t, session.live)
      ensures session.live.rows == old(session.live).rows && !st.StepSkipped?
      ensures st.StepFailed? ==> session.live == old(session.live)
      ensures CertAvailable(config, o) && AllDone(evs) ==> st.StepDone?
      ensures !(config.cfEnabled && config.token && config.zone != "") ==> st.StepFailed?
      ensures st.StepDone? && Sound(old(npm.t), old(session.live), config, session.live.cert) ==>
                ReadyToAttach(old(npm.t), old(session.live), npm.t, session.live, config)
      ensures st.StepDone? && Lasting(old(npm.t), old(session.live)) ==> InDate(old(npm.t), session.live.cert, config, o)
      ensures NameRight(old(session.live).cert, session.live.cert, config)
    {
      ghost var t0, s0 := npm.t, session.live;
      var name := "Cloudflare Origin - " + config.zone;
      var r;
      r, evs := IssueAndInstall(session, npm, config.cfEnabled && config.token && config.zone != "", name, o.issued, o.now, false);
      IssueKeepsDomains(s0.cert, t0, name, o.issued, o.now, false, evs, session.live.cert, npm.t, r);
      if Lasting(t0, s0) {
        IssueLasts(s0, t0, name, o.issued, o.now, evs, session.live, npm.t, r);
      }
      if r.Ok? {
        SkippedHasThirtyDays(s0.cert, t0, name, o.issued, o.now, false, evs, session.live.cert, npm.t, r.value);
        if Sound(t0, s0, config, session.live.cert) {
          IssueReady(s0, t0, config, name, o.issued, o.now, evs, session.live, npm.t, r.value);
        }
      }
      Leave(r.Ok?);
      st := if r.Ok? then StepDone else StepFailed;
    }

    method StepAttach(ghost managed: set<string>) returns (st: Status, ghost evs: seq<Event>)
      requires Ready(managed)
      modifies session, npm
      ensures Ready(managed) && npm.log == old(npm.log) + evs
      ensures session.live.cert == old(session.live).cert && SameNames(session.live.rows, old(session.live).rows)
      ensures Lasting(old(npm.t), old(session.live)) ==> Lasting(npm.t, session.live)
      ensures st.StepSkipped? <==> config.skipDocker || !config.npmEnabled || old(session.live).cert.id.None?
      ensures !st.StepDone? ==> session.live == old(session.live)
      ensures st.StepSkipped? ==> npm.t == old(npm.t) && evs == []
      ensures CanServe(old(npm.t), old(session.live).cert.id) ==> CanServe(npm.t, session.live.cert.id)
      ensures !st.StepSkipped? && AllDone(evs) && CanServe(old(npm.t), old(session.live).cert.id) ==> st.StepDone?
      ensures st.StepDone? && CertRight(old(npm.t), old(session.live).cert, config) && UpToDateRowsServe(old(npm.t), old(session.live)) ==>
                CertRight(npm.t, session.live.cert, config) && AllInStep(npm.t, session.live)
    {
      if config.skipDocker || !config.npmEnabled || session.live.cert.id.None? {
        return StepSkipped, [];
      }
      ghost var t0, s0 := npm.t, session.live;
      var r;
      ghost var rejected;
      r, rejected, evs := AttachCertificate(session, npm, managed);
      if Lasting(t0, s0) {
        AttachLasts(s0, t0, managed, session.live, npm.t, r);
      }
      AttachKeepsTidy(s0, t0, managed, session.live, npm.t, r);
      if r.Ok? && CertRight(t0, s0.cert, config) && UpToDateRowsServe(t0, s0) {
        AttachedInStep(s0, t0, managed, session.live, npm.t, r.value, config);
      }
      Leave(r.Ok?);
      st := if r.Ok? then StepDone else StepFailed;
    }

    /** Put the panel's row in place: the existing one with its target corrected, or a new one. None
        when a new one is refused: an invalid hostname or port, no target, or a row already there. */
    method PlacePanel(ghost managed: set<string>) returns (i: Option<nat>)
      requires Ready(managed) && config.panelName.Some?
      modifies session`live
      ensures npm.Valid() && cf.Valid() && Tidy(npm.t, session.live.rows, managed)
      ensures i.Some? <==> Placeable(config, old(session.live).rows)
      ensures i.Some? && config.panelBind != "" ==> PanelPlaced(old(session.live), session.live, i.value, config)
      ensures i.Some? ==> RowPlaced(old(session.live), session.live, i.value, config)
      ensures i.None? ==> session.live == old(session.live)
    {
      var s0, domain := session.live, config.panelName.value;
      var existing := FindRow(s0.rows, domain);
      if existing.Some? {
        var row := s0.rows[existing.value];
        var target := if config.panelBind != "" then config.panelBind else row.forwardHost;
        if !(0 < config.panelPort < 65536) {
          return None;
        }
        session.live := s0.(rows := s0.rows[existing.value := row.(forwardHost := target, forwardPort := config.panelPort)]);
        return existing;
      }
      if config.panelHost.None? || !(0 < config.panelPort < 65536) || config.panelBind == "" {
        return None;
      }
      var name := config.panelHost.value;
      var taken := FindRow(s0.rows, name);
      if taken.Some? {
        assert s0.rows[taken.value].domain == name;
        return None;
      }
      session.live := s0.(rows := s0.rows + [PanelRow(name, config.panelBind, config.panelPort)]);
      PlacedKeepsTidy(npm.t, s0, session.live, |s0.rows|, config, managed);
      i := Some(|s0.rows|);
    }

    /** The panel's row is there and points at the panel. */
    ghost predicate PanelCurrent()
      reads `config, session
    {
      && config.panelName.Some?
      && exists i :: 0 <= i < |session.live.rows| && session.live.rows[i].domain == config.panelName.value
                     && session.live.rows[i].forwardHost == config.panelBind && session.live.rows[i].forwardPort == config.panelPort
    }

    /** Push the placed row. */
    method PushRow(i: nat, ghost managed: set<string>)
      returns (ok: bool, ghost dnsEvs: seq<Cloudflare.Event>, ghost evs: seq<Event>)
      requires npm.Valid() && cf.Valid() && i < |session.live.rows|
      requires Tidy(npm.t, session.live.rows, managed) && Tidy(npm.t, session.saved.rows, managed)
      modifies session`live, npm, cf
      ensures npm.Valid() && cf.Valid() && cf.log == old(cf.log) + dnsEvs && npm.log == old(npm.log) + evs
      ensures Tidy(npm.t, session.live.rows, managed) && Tidy(npm.t, session.saved.rows, managed)
      ensures ZoneKept(old(cf.z), cf.z, config)
      ensures config.cfEnabled && config.token && config.zoneKnown && Cloudflare.AllDone(dnsEvs) ==>
                Cloudflare.Published(cf.z, old(session.live).rows[i].domain, config.ip, config.proxied)
      ensures ok ==> RowPushed(old(session.live), session.live, i) && OnHost(npm.t, session.live.rows[i])
      ensures Cloudflare.AllDone(dnsEvs) && AllDone(evs) && CanServe(old(npm.t), old(session.live).cert.id) ==> ok
      ensures PanelKept(old(npm.t), old(session.live), i, npm.t, session.live, ok, config)
    {
      ghost var t0, s, z0 := npm.t, session.live, cf.z;
      var r;
      ghost var verdict, mid;
      r, verdict, mid, dnsEvs, evs := Push(session, i, npm, cf, config.cfEnabled && config.token && config.zoneKnown, config.ip, config.proxied);
      if cf.z != z0 {
        UpsertedKeeps(z0, cf.z, config, s.rows[i].domain);
      }
      PanelPushed(t0, s, mid, i, verdict, npm.t, r, session.live, session.saved.rows, managed, config);
      ok := r.Ok?;
    }

    /** Put the panel's row in place, push it, and commit it if NPM took it. */
    method PublishRow(ghost managed: set<string>)
      returns (ok: bool, ghost dnsEvs: seq<Cloudflare.Event>, ghost evs: seq<Event>)
      requires Ready(managed) && config.panelName.Some?
      modifies session, npm, cf
      ensures Ready(managed) && cf.log == old(cf.log) + dnsEvs && npm.log == old(npm.log) + evs
      ensures session.live.cert == old(session.live).cert
      ensures Lasting(old(npm.t), old(session.live)) ==> Lasting(npm.t, session.live)
      ensures !ok ==> session.live == old(session.live)
      ensures ZoneKept(old(cf.z), cf.z, config)
      ensures ok && config.panelBind != "" ==> PanelServed(npm.t, session.live, config) && PanelPublished(session.live, config)
      ensures (&& Placeable(config, old(session.live).rows) && Cloudflare.AllDone(dnsEvs) && AllDone(evs)
               && CanServe(old(npm.t), old(session.live).cert.id))
              ==> ok
      ensures ok && old(HostsRight()) ==> HostsRight()
    {
      ghost var t0, s0 := npm.t, session.live;
      var placed := PlacePanel(managed);
      if placed.None? {
        return false, [], [];
      }
      var i := placed.value;
      ghost var s := session.live;
      ok, dnsEvs, evs := PushRow(i, managed);
      PlacedAndPushed(t0, s0, s, i, npm.t, session.live, ok, config);
      if !ok {
        LastsUnpushed(t0, s0, npm.t);
      }
      Leave(ok);
    }

    /** Publish the management panel at its public name. */
    method StepPanel(ghost managed: set<string>)
      returns (st: Status, ghost dnsEvs: seq<Cloudflare.Event>, ghost evs: seq<Event>)
      requires Ready(managed)
      modifies session, npm, cf
      ensures Ready(managed) && cf.log == old(cf.log) + dnsEvs && npm.log == old(npm.log) + evs
      ensures session.live.cert == old(session.live).cert
      ensures Lasting(old(npm.t), old(session.live)) ==> Lasting(npm.t, session.live)
      ensures st.StepSkipped? <==> NoPanel(config)
      ensures !st.StepDone? ==> session.live == old(session.live)
      ensures st.StepSkipped? || old(PanelCurrent()) ==> npm.t == old(npm.t) && cf.z == old(cf.z) && dnsEvs == [] && evs == []
      ensures ZoneKept(old(cf.z), cf.z, config)
      ensures st.StepDone? && config.panelBind != "" ==> PanelPublished(session.live, config)
      ensures st.StepDone? && config.panelBind != "" && !old(PanelCurrent()) ==> PanelServed(npm.t, session.live, config)
      ensures (&& !NoPanel(config) && (old(PanelCurrent()) || Placeable(config, old(session.live).rows))
               && Cloudflare.AllDone(dnsEvs) && AllDone(evs) && CanServe(old(npm.t), old(session.live).cert.id))
              ==> st.StepDone?
      ensures !st.StepFailed? && old(HostsRight()) ==> HostsRight()
    {
      if config.skipDocker || !config.npmEnabled || config.panelName.None? || config.panelBind in {"127.0.0.1", "localhost"} {
        return StepSkipped, [], [];
      }
      var existing := FindRow(session.live.rows, config.panelName.value);
      if existing.Some? {
        var row := session.live.rows[existing.value];
        if row.forwardHost == config.panelBind && row.forwardPort == config.panelPort {
          assert PanelCurrent();
          return StepDone, [], [];
        }
      }
      NotCurrent(session.live.rows, config, existing);
      var ok;
      ok, dnsEvs, evs := PublishRow(managed);
      st := if ok then StepDone else StepFailed;
    }

    /** Look at every published name as a browser would. */
    method StepVerify() returns (st: Status, verdicts: map<string, Health.Verdict>, ghost history: seq<seq<Health.Probe>>)
      modifies `cloudflare525, clock
      ensures st.StepSkipped? <==> config.skipDocker || !config.npmEnabled || session.live.rows == []
      ensures st.StepSkipped? ==> cloudflare525 == old(cloudflare525) && verdicts == map[]
      ensures !st.StepSkipped? ==> history != [] && var last := Health.LastProbes(history);
                && (st.StepFailed? <==> exists d :: d in last && Health.Rejected(last[d], config.proxied, config.ip))
                && (cloudflare525 <==> config.proxied && exists d :: d in last && last[d].status == Some(525))
                && Health.JudgedAs(verdicts, last, Health.Rules(config.proxied, config.ip, dnsApplied))
                && (forall i | 0 <= i < |session.live.rows| :: session.live.rows[i].domain in last)
                && (!dnsApplied ==> |history| == 1)
                && Health.Rounds(DomainsOfRows(session.live.rows), history, Health.Rules(config.proxied, config.ip, dnsApplied))
                && (|| Health.ToRetry(history[|history| - 1], Health.Rules(config.proxied, config.ip, dnsApplied)) == []
                    || clock.now + 10.0 > old(clock.now) + 120.0)
      ensures !st.StepFailed? && !config.skipDocker && config.npmEnabled ==> AllPassed(session.live, verdicts)
    {
      verdicts, history := map[], [];
      if config.skipDocker || !config.npmEnabled || session.live.rows == [] {
        return StepSkipped, verdicts, history;
      }
      var rows := session.live.rows;
      var rules := Health.Rules(config.proxied, config.ip, dnsApplied);
      var domains := seq(|rows|, i requires 0 <= i < |rows| => rows[i].domain);
      var failed, at525;
      failed, at525, verdicts, history := Health.VerifyHttps(domains, rules, clock);
      Health.EveryDomainJudged(domains, history, rules);
      forall i | 0 <= i < |rows|
        ensures rows[i].domain in verdicts
      {
        assert domains[i] in domains;
      }
      cloudflare525 := at525;
      st := if failed then StepFailed else StepDone;
    }

    method StepPersist(writable: bool) returns (st: Status)
      modifies `persisted
      ensures st == if writable then StepDone else StepFailed
      ensures persisted == if writable then Some(config) else old(persisted)
    {
      if !writable {
        return StepFailed;
      }
      persisted := Some(config);
      st := StepDone;
    }

    /** Cloudflare is as the mode wants it. */
    ghost predicate ZoneRight()
      reads `config, cf
    {
      DnsRight(cf.z, config) && (config.proxied ==> cf.z.ssl == Cloudflare.STRICT)
    }

    /** NPM and the rows are as the mode wants them. */
    ghost predicate HostsRight()
      reads `config, npm, session
    {
      CertRight(npm.t, session.live.cert, config) && AllInStep(npm.t, session.live)
    }

    method ZoneSteps(answers: ZoneAnswers)
      returns (ghost zone: Status, ghost dns: Status, ghost ssl: Status, ghost evs: seq<Cloudflare.Event>)
      requires cf.Valid()
      modifies `config, `dnsApplied, `results, cf
      ensures cf.Valid() && config == old(config).(zoneKnown := config.zoneKnown) && cf.log == old(cf.log) + evs
      ensures results == old(results) + [StepResult(CloudflareZone, zone), StepResult(CloudflareDns, dns), StepResult(CloudflareSsl, ssl)]
      ensures ZoneReport(zone, dns, ssl, config, answers, cf.z)
      ensures dnsApplied == (old(dnsApplied) || dns.StepDone?)
      ensures StepsOk(results) <==> StepsOk(old(results)) && !zone.StepFailed? && !dns.StepFailed? && !ssl.StepFailed?
      ensures Cloudflare.AllDone(evs) ==> !dns.StepFailed? && !ssl.StepFailed?
    {
      var st := StepZone(answers);
      Record(CloudflareZone, st);
      zone := st;
      ghost var more;
      st, evs := StepDns();
      Record(CloudflareDns, st);
      dns := st;
      ghost var z := cf.z;
      st, more := StepSsl();
      Record(CloudflareSsl, st);
      ssl := st;
      SslKeepsDns(z, cf.z, config);
      Cloudflare.Joined(evs, more);
      evs := evs + more;
    }

    method CertificateSteps(o: Outside, ghost managed: set<string>)
      returns (ghost cert: Status, ghost attach: Status, ghost evs: seq<Event>)
      requires Ready(managed)
      modifies `results, session, npm
      ensures Ready(managed) && npm.log == old(npm.log) + evs
      ensures SameNames(session.live.rows, old(session.live).rows)
      ensures Lasting(old(npm.t), old(session.live)) ==> Lasting(npm.t, session.live)
      ensures results == old(results) + [StepResult(OriginCert, cert), StepResult(AttachCert, attach)]
      ensures CertificateReport(cert, attach, config, session.live)
      ensures StepsOk(results) <==> StepsOk(old(results)) && !cert.StepFailed? && !attach.StepFailed?
      ensures CertificatesDid(config, o, old(npm.t), old(session.live), cert, attach, evs, npm.t, session.live)
    {
      ghost var t0, s0 := npm.t, session.live;
      var st;
      ghost var more;
      st, evs := StepCertificate(o);
      Record(OriginCert, st);
      cert := st;
      ghost var t1, s1 := npm.t, session.live;
      SameDomainsKeepTidy(t0, t1, s0.rows, managed);
      st, more := StepAttach(managed);
      Record(AttachCert, st);
      attach := st;
      CertificateThenAttach(config, o, t0, s0, cert, evs, t1, s1, attach, more, npm.t, session.live);
      NpmClient.Joined(evs, more);
      evs := evs + more;
    }

    method CheckSteps(writable: bool)
      returns (verdicts: map<string, Health.Verdict>, ghost verify: Status, ghost persist: Status)
      modifies `results, `cloudflare525, `persisted, clock
      ensures results == old(results) + [StepResult(VerifyHttps, verify), StepResult(Persist, persist)]
      ensures CheckReport(verify, persist, config, session.live, verdicts, writable)
      ensures StepsOk(results) ==> persisted == Some(config)
      ensures StepsOk(results) && Intended(config) ==> AllPassed(session.live, verdicts)
    {
      var st;
      ghost var history;
      st, verdicts, history := StepVerify();
      Record(VerifyHttps, st);
      verify := st;
      st := StepPersist(writable);
      Record(Persist, st);
      persist := st;
    }

    /** The six steps that change something. */
    method SettlingSteps(o: Outside, ghost managed: set<string>)
      returns (ghost report: Report, ghost cfEvs: seq<Cloudflare.Event>, ghost evs: seq<Event>)
      requires Ready(managed) && results == []
      modifies `config, `dnsApplied, `results, session, npm, cf
      ensures Ready(managed) && config == old(config).(zoneKnown := config.zoneKnown)
      ensures cf.log == old(cf.log) + cfEvs && npm.log == old(npm.log) + evs
      ensures results == Recorded6(report)
      ensures Reported(report, config, o, cf.z, session.live) && dnsApplied == (old(dnsApplied) || report.dns.StepDone?)
      ensures Lasting(old(npm.t), old(session.live)) ==> Lasting(npm.t, session.live)
      ensures StepsOk(results) && Intended(config) && Trusted(old(npm.t), old(session.live), config, session.live.cert) ==>
                ZoneRight() && HostsRight()
      ensures (&& Able(config, o, old(session.live).rows) && Cloudflare.AllDone(cfEvs) && AllDone(evs)
               && Loadable(old(npm.t)) && Sound(old(npm.t), old(session.live), config, session.live.cert))
              ==> StepsOk(results)
      ensures StepsOk(results) && Intended(config) && Lasting(old(npm.t), old(session.live)) ==>
                InDate(old(npm.t), session.live.cert, config, o)
      ensures StepsOk(results) && !NoPanel(config) && config.panelBind != "" ==> PanelPublished(session.live, config)
      ensures StepsOk(results) && Intended(config) ==> Permitted(o.zone) && dnsApplied
    {
      ghost var rows0 := session.live.rows;
      ghost var zone, dns, ssl, cert, attach;
      zone, dns, ssl, cfEvs := ZoneSteps(o.zone);
      ZoneSettled(zone, dns, ssl, config, o.zone, cf.z);
      cert, attach, evs := CertificateSteps(o, managed);
      PlaceableSame(config, session.live.rows, rows0);
      var st;
      ghost var moreCf, more;
      st, moreCf, more := StepPanel(managed);
      Record(PanelHost, st);
      report := Report(zone, dns, ssl, cert, attach, st);
      InOrder(report);
      Cloudflare.Joined(cfEvs, moreCf);
      NpmClient.Joined(evs, more);
      cfEvs, evs := cfEvs + moreCf, evs + more;
    }

    /** Run the TLS steps in order; none of them stops the run. When none of the steps that change
        something fails, DNS, the SSL mode, the certificate and every host agree with the mode, in NPM
        and in the committed rows; and when the outside world allows it and every request is done none
        of them does fail. */
    method RunTls(o: Outside, ghost managed: set<string>)
      returns (verdicts: map<string, Health.Verdict>, ghost cfEvs: seq<Cloudflare.Event>, ghost evs: seq<Event>)
      requires Ready(managed) && results == []
      modifies this, session, npm, cf, clock
      ensures Ready(managed) && config == old(config).(zoneKnown := config.zoneKnown)
      ensures cf.log == old(cf.log) + cfEvs && npm.log == old(npm.log) + evs
      ensures KeysOf(results) == TLS_STEPS && |results| == 8
      ensures Reported(ReportOf(results), config, o, cf.z, session.saved)
      ensures CheckReport(results[6].status, results[7].status, config, session.saved, verdicts, o.writable)
      ensures dnsApplied == (old(dnsApplied) || results[1].status.StepDone?)
      ensures RanTls(old(Edge(cf.z, npm.t, session.saved)),
                     TlsRun(config, StepsOk(results[..6]), Edge(cf.z, npm.t, session.saved)))
      ensures (&& Able(config, o, old(session.live).rows) && Cloudflare.AllDone(cfEvs) && AllDone(evs)
               && Loadable(old(npm.t)) && Sound(old(npm.t), old(session.live), config, session.live.cert))
              ==> StepsOk(results[..6])
      ensures (&& Able(config, o, old(session.live).rows) && Cloudflare.AllDone(cfEvs) && AllDone(evs)
               && Loadable(old(npm.t)) && Trusted(old(npm.t), old(session.live), config, session.live.cert))
              ==> Agrees(cf.z, npm.t, session.saved, config)
      ensures StepsOk(results[..6]) && Intended(config) && Lasting(old(npm.t), old(session.live)) ==>
                InDate(old(npm.t), session.saved.cert, config, o)
      ensures StepsOk(results[..6]) && !NoPanel(config) && config.panelBind != "" ==> PanelPublished(session.saved, config)
      ensures StepsOk(results[..6]) && Intended(config) ==> Permitted(o.zone) && dnsApplied
      ensures StepsOk(results) ==> persisted == Some(config)
      ensures StepsOk(results) && Intended(config) ==> AllPassed(session.saved, verdicts)
    {
      ghost var report, verify, persist;
      report, cfEvs, evs := SettlingSteps(o, managed);
      verdicts, verify, persist := CheckSteps(o.writable);
      assert results[..6] == Recorded6(report) && ReportOf(results) == report;
    }
  }

  /** The mode is intended and the outside world allows every step up to publishing the panel. */
  ghost predicate Able(cfg: Config, o: Outside, rows: seq<Row>) {
    && Intended(cfg) && cfg.cfEnabled && cfg.token && Permitted(o.zone) && CertAvailable(cfg, o)
    && (NoPanel(cfg) || Placeable(cfg, rows))
  }

  /** What the certificate step did, from one state to the next. */
  ghost predicate CertificateDid(cfg: Config, o: Outside, t0: Tables, s0: State, st: Status, evs: seq<Event>, t1: Tables, s1: State) {
    && NoWorse(t0, t1) && s1.rows == s0.rows
    && (st.StepSkipped? ==> cfg.skipDocker || (cfg.proxied && cfg.supplied.None? && ZoneOff(cfg)))
    && (!st.StepSkipped? && CertAvailable(cfg, o) && AllDone(evs) ==> st.StepDone?)
    && (st.StepDone? && Sound(t0, s0, cfg, s1.cert) ==> ReadyToAttach(t0, s0, t1, s1, cfg))
    && (st.StepDone? && Lasting(t0, s0) ==> InDate(t0, s1.cert, cfg, o))
  }

  ghost predicate AttachDid(cfg: Config, t1: Tables, s1: State, st: Status, evs: seq<Event>, t2: Tables, s2: State) {
    && s2.cert == s1.cert
    && (st.StepSkipped? ==> cfg.skipDocker || !cfg.npmEnabled || s1.cert.id.None?)
    && (CanServe(t1, s1.cert.id) ==> CanServe(t2, s2.cert.id))
    && (!st.StepSkipped? && AllDone(evs) && CanServe(t1, s1.cert.id) ==> st.StepDone?)
    && (st.StepDone? && CertRight(t1, s1.cert, cfg) && UpToDateRowsServe(t1, s1) ==> CertRight(t2, s2.cert, cfg) && AllInStep(t2, s2))
  }

  /** What the two did together: when neither failed NPM and the rows are as the mode wants them, and
      when a certificate can be had and every request is done neither does fail. */
  ghost predicate CertificatesDid(cfg: Config, o: Outside, t0: Tables, s0: State, cert: Status, attach: Status, evs: seq<Event>,
                                  t2: Tables, s2: State) {
    && (!cert.StepFailed? && !attach.StepFailed? && Intended(cfg) && !ZoneOff(cfg) ==>
          && (Trusted(t0, s0, cfg, s2.cert) ==> CertRight(t2, s2.cert, cfg) && AllInStep(t2, s2))
          && (Lasting(t0, s0) ==> InDate(t0, s2.cert, cfg, o)))
    && (&& Intended(cfg) && !ZoneOff(cfg) && CertAvailable(cfg, o) && AllDone(evs) && Loadable(t0) && Sound(t0, s0, cfg, s2.cert)
        ==> !cert.StepFailed? && !attach.StepFailed? && CanServe(t2, s2.cert.id))
  }

  lemma CertificateThenAttach(cfg: Config, o: Outside, t0: Tables, s0: State, cert: Status, evs: seq<Event>, t1: Tables, s1: State,
                              attach: Status, more: seq<Event>, t2: Tables, s2: State)
    requires CertificateDid(cfg, o, t0, s0, cert, evs, t1, s1) && AttachDid(cfg, t1, s1, attach, more, t2, s2)
    ensures CertificatesDid(cfg, o, t0, s0, cert, attach, evs + more, t2, s2)
  {
    NpmClient.Joined(evs, more);
    if Loadable(t0) && CertRight(t1, s1.cert, cfg) {
      RightCanServe(t0, t1, s1.cert, cfg);
    }
  }

  /** Installing strands no host, and the certificate of the mode is one nginx can load. */
  lemma RightCanServe(t0: Tables, t1: Tables, c: Recorded, cfg: Config)
    requires Loadable(t0) && NoWorse(t0, t1) && CertRight(t1, c, cfg)
    ensures CanServe(t1, c.id)
  {
    NoWorseKeepsLoadable(t0, t1);
  }

  ghost function DomainsOfRows(rows: seq<Row>): seq<string> {
    seq(|rows|, i requires 0 <= i < |rows| => rows[i].domain)
  }

  /** Every published name was judged, and none failed. */
  ghost predicate AllPassed(s: State, verdicts: map<string, Health.Verdict>) {
    && !Health.AnyFailed(verdicts)
    && forall i | 0 <= i < |s.rows| :: s.rows[i].domain in verdicts
  }

  lemma ReusedInDate(c0: Recorded, t0: Tables, name: string, domains: seq<string>, evs: seq<Event>, c1: Recorded, t1: Tables,
                     a: Answer, cfg: Config, o: Outside)
    requires LetsEncryptPost(c0, t0, name, domains, o.now, false, evs, c1, t1, Ok(a)) && !cfg.proxied
    ensures InDate(t0, c1, cfg, o)
  {
    ReusedHasThirtyDays(c0, t0, name, domains, o.now, false, evs, c1, t1, a, a.id);
  }

  /** Rows are unique by domain, so the first with the name is the only one. */
  lemma NotCurrent(rows: seq<Row>, cfg: Config, found: Option<nat>)
    requires UniqueDomains(rows) && cfg.panelName.Some? && found == FindRow(rows, cfg.panelName.value)
    requires found.Some? ==> rows[found.value].forwardHost != cfg.panelBind || rows[found.value].forwardPort != cfg.panelPort
    ensures forall i | 0 <= i < |rows| && rows[i].domain == cfg.panelName.value ::
              rows[i].forwardHost != cfg.panelBind || rows[i].forwardPort != cfg.panelPort
  {
    forall i | 0 <= i < |rows| && rows[i].domain == cfg.panelName.value
      ensures Some(i) == found
    {
      assert rows[found.value].domain == rows[i].domain;
    }
  }

  /** The mode's DNS is not disturbed. */
  ghost predicate ZoneKept(z0: Cloudflare.Zone, z1: Cloudflare.Zone, cfg: Config) {
    z1.ssl == z0.ssl && (DnsRight(z0, cfg) ==> DnsRight(z1, cfg))
  }

  /** Neither are certificates nor, when the push took hold, any other host. */
  ghost predicate PanelKept(t0: Tables, s: State, i: nat, t1: Tables, s1: State, ok: bool, cfg: Config) {
    && t1.certs == t0.certs && t1.nextCert == t0.nextCert
    && (ok && CertRight(t0, s.cert, cfg) && OthersInStep(t0, s, i) ==> CertRight(t1, s1.cert, cfg) && AllInStep(t1, s1))
  }

  lemma PlacedAndPushed(t0: Tables, s0: State, s: State, i: nat, t1: Tables, s1: State, ok: bool, cfg: Config)
    requires RowPlaced(s0, s, i, cfg) && (cfg.panelBind != "" ==> PanelPlaced(s0, s, i, cfg))
    requires PanelKept(t0, s, i, t1, s1, ok, cfg) && (ok ==> RowPushed(s, s1, i) && OnHost(t1, s1.rows[i]))
    ensures ok && cfg.panelBind != "" ==> PanelServed(t1, s1, cfg) && PanelPublished(s1, cfg)
    ensures ok && Lasting(t0, s0) ==> Lasting(t1, s1)
    ensures ok && CertRight(t0, s0.cert, cfg) && AllInStep(t0, s0) ==> CertRight(t1, s1.cert, cfg) && AllInStep(t1, s1)
    ensures ok ==> s1.cert == s0.cert
  {
    if ok && cfg.panelBind != "" {
      assert PanelHostIs(t1, s1.rows[i], cfg);
    }
    if ok && Lasting(t0, s0) {
      PushLasts(s0, t0, s1, t1);
    }
  }

  lemma LastsUnpushed(t0: Tables, s0: State, t1: Tables)
    requires t1.certs == t0.certs && t1.nextCert == t0.nextCert
    ensures Lasting(t0, s0) ==> Lasting(t1, s0)
  {
    if Lasting(t0, s0) {
      PushLasts(s0, t0, s0, t1);
    }
  }

  lemma SslKeepsDns(z0: Cloudflare.Zone, z1: Cloudflare.Zone, cfg: Config)
    requires z1 == z0.(ssl := z1.ssl)
    ensures DnsRight(z1, cfg) <==> DnsRight(z0, cfg)
  {
  }

  lemma AttachKeepsTidy(s0: State, t0: Tables, managed: set<string>, s1: State, t1: Tables, r: Result<seq<string>, AttachError>)
    requires AttachPost(s0, t0, managed, s1, t1, r)
    ensures Tidy(t1, s0.rows, managed) && Tidy(t1, s1.rows, managed) && SameNames(s1.rows, s0.rows)
  {
    assert forall j | 0 <= j < |s0.rows| :: RowKept(s0.rows[j], s1.rows[j], s0.cert.id);
  }

  lemma AttachLasts(s0: State, t0: Tables, managed: set<string>, s1: State, t1: Tables, r: Result<seq<string>, AttachError>)
    requires Lasting(t0, s0) && AttachPost(s0, t0, managed, s1, t1, r)
    ensures Lasting(t1, s1) && Lasting(t1, s0)
  {
    assert forall j | 0 <= j < |s0.rows| :: RowKept(s0.rows[j], s1.rows[j], s0.cert.id);
    PushLasts(s0, t0, s1, t1);
    PushLasts(s0, t0, s0, t1);
  }

  lemma UpsertedKeeps(z0: Cloudflare.Zone, z1: Cloudflare.Zone, cfg: Config, name: string)
    requires exists id :: Cloudflare.Upserted(z0, z1, name, cfg.ip, cfg.proxied, id)
    ensures ZoneKept(z0, z1, cfg)
  {
    var id :| Cloudflare.Upserted(z0, z1, name, cfg.ip, cfg.proxied, id);
    if DnsRight(z0, cfg) {
      UpsertKeepsDns(z0, z1, cfg, name, id);
    }
  }

  /** Tidiness looks at the rows' domains only. */
  lemma RowsTidy(t: Tables, rows: seq<Row>, rows1: seq<Row>, managed: set<string>)
    requires Tidy(t, rows, managed) && |rows1| == |rows|
    requires forall j | 0 <= j < |rows| :: rows1[j].domain == rows[j].domain
    ensures Tidy(t, rows1, managed)
  {
  }

  lemma SavedTidy(t: Tables, rows: seq<Row>, t1: Tables, saved: seq<Row>, managed: set<string>)
    requires Tidy(t1, rows, managed) && Tidy(t, saved, managed)
    ensures Tidy(t1, saved, managed)
  {
  }

  ghost predicate PushResult(s: State, r: Result<nat, HostError>, i: nat, s1: State) {
    i < |s.rows| && s1 == if r.Ok? then s.(rows := s.rows[i := Attached(s.rows[i], r.value, s.cert.id)]) else s
  }

  lemma PanelPushed(t0: Tables, s: State, mid: State, i: nat, verdict: Option<bool>, t1: Tables, r: Result<nat, HostError>,
                    s1: State, saved: seq<Row>, managed: set<string>, cfg: Config)
    requires Tidy(t0, s.rows, managed) && Tidy(t0, saved, managed) && WellFormed(t1) && i < |s.rows| == |mid.rows|
    requires mid == s.(rows := s.rows[i := Renumbered(s.rows[i], mid.rows[i].dnsRecord)])
    requires PushPost(t0, mid.rows[i].domain, Body(mid.rows[i], mid.cert.id), verdict, t1, r)
    requires PushState(t0, mid.rows[i].domain, Body(mid.rows[i], mid.cert.id), t1)
    requires PushResult(mid, r, i, s1)
    ensures Tidy(t1, s1.rows, managed) && Tidy(t1, saved, managed)
    ensures r.Ok? ==> RowPushed(s, s1, i)
    ensures CanServe(t0, s.cert.id) ==> r.Ok? || r.error.NpmFailed? || r.error.DnsCut?
    ensures PanelKept(t0, s, i, t1, s1, r.Ok?, cfg)
  {
    if CanServe(t0, s.cert.id) {
      NeverRefused(t0, mid.rows[i], mid.cert.id, verdict, t1, r);
    }
    RowsTidy(t0, s.rows, mid.rows, managed);
    PushKeepsTables(t0, mid.rows, managed, i, mid.cert.id, t1);
    RowsTidy(t1, mid.rows, s1.rows, managed);
    SavedTidy(t0, mid.rows, t1, saved, managed);
    if r.Ok? && CertRight(t0, s.cert, cfg) && OthersInStep(t0, s, i) {
      PushKeepsInStep(mid, t0, managed, i, verdict, t1, r.value, cfg);
    }
  }
}
