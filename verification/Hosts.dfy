/** The host service: pushing a row to DNS and NPM, and putting every host on the current
    certificate. */
module Hosts {
  import opened Common
  import opened NpmServer
  import opened NpmClient
  import opened ProxyHosts
  import opened Store
  import Cloudflare

  // ---------------------------------------------------------------- pushing one row

  /** DNS first; an error Cloudflare answers is only logged, because the operator may manage DNS
      elsewhere. A request that gets no answer is not caught, and `ok` is false. */
  method PushDns(session: Session, i: nat, cf: Cloudflare.Server, ip: string, proxied: bool)
    returns (ok: bool, ghost evs: seq<Cloudflare.Event>)
    requires cf.Valid() && i < |session.live.rows|
    modifies session`live, cf
    ensures cf.Valid() && cf.log == old(cf.log) + evs && evs != []
    ensures ok <==> Cloudflare.AllDone(evs) || !evs[|evs| - 1].outcome.Cut()
    ensures cf.z == old(cf.z) || exists id :: Cloudflare.Upserted(old(cf.z), cf.z, old(session.live.rows)[i].domain, ip, proxied, id)
    ensures |session.live.rows| == |old(session.live.rows)|
    ensures session.live == old(session.live).(rows :=
              old(session.live.rows)[i := old(session.live.rows)[i].(dnsRecord := session.live.rows[i].dnsRecord)])
    ensures Cloudflare.AllDone(evs) ==>
              && Cloudflare.Published(cf.z, old(session.live.rows)[i].domain, ip, proxied) && ok
              && exists id: nat :: Cloudflare.Upserted(old(cf.z), cf.z, old(session.live.rows)[i].domain, ip, proxied, id)
                              && session.live.rows[i].dnsRecord == Some(id)
    ensures !Cloudflare.AllDone(evs) ==> session.live == old(session.live)
  {
    var row := session.live.rows[i];
    var r;
    r, evs := Cloudflare.UpsertA(cf, row.domain, ip, proxied);
    if r.Ok? {
      Cloudflare.UpsertPublishes(old(cf.z), cf.z, row.domain, ip, proxied, r.value);
      session.live := session.live.(rows := session.live.rows[i := row.(dnsRecord := Some(r.value))]);
    } else {
      assert old(session.live.rows)[i := row.(dnsRecord := row.dnsRecord)] == old(session.live.rows);
    }
    ok := r.Ok? || !r.error.Cut();
  }

  /** The row names the NPM host that lists its domain, and that host is as the row says. */
  ghost predicate OnHost(t: Tables, row: Row) {
    row.npmHost.Some? && Lists(t, row.npmHost.value, row.domain) && Carries(t.hosts[row.npmHost.value], row)
  }

  ghost function Attached(row: Row, host: nat, cert: Option<nat>): Row {
    row.(npmHost := Some(host), npmCert := cert)
  }

  lemma PushedOnHost(t0: Tables, row: Row, cert: Option<nat>, verdict: Option<bool>, t1: Tables, h: nat)
    requires PushPost(t0, row.domain, Body(row, cert), verdict, t1, Ok(h))
    ensures OnHost(t1, Attached(row, h, cert))
  {
    PushedCarries(t0, row, cert, verdict, t1, h);
  }

  /** Apply a row to NPM with the current certificate; the row records what NPM now has. */
  method PushNpm(session: Session, i: nat, npm: Npm)
    returns (r: Result<nat, HostError>, ghost verdict: Option<bool>, ghost evs: seq<Event>)
    requires npm.Valid() && OneHostPerDomain(npm.t) && i < |session.live.rows|
    modifies session`live, npm
    ensures npm.Valid() && npm.log == old(npm.log) + evs
    ensures var row, cert := old(session.live.rows)[i], old(session.live.cert).id;
            && PushPost(old(npm.t), row.domain, Body(row, cert), verdict, npm.t, r)
            && PushStates(old(npm.t), row.domain, Body(row, cert), evs)
            && PushState(old(npm.t), row.domain, Body(row, cert), npm.t)
            && session.live == if r.Ok? then old(session.live).(rows := old(session.live.rows)[i := Attached(row, r.value, cert)])
                               else old(session.live)
    ensures AllDone(evs) ==> r.Ok? || r.error.RolledBack?
    ensures r.Err? && r.error.Escapes() <==> !NoneCut(evs)
    ensures r.Ok? ==> OnHost(npm.t, session.live.rows[i])
  {
    ghost var t0 := npm.t;
    var row, cert := session.live.rows[i], session.live.cert.id;
    r, verdict, evs := PushHost(npm, row.domain, Body(row, cert));
    if r.Ok? {
      session.live := session.live.(rows := session.live.rows[i := row.(npmHost := Some(r.value), npmCert := cert)]);
      PushedOnHost(t0, row, cert, verdict, npm.t, r.value);
    }
  }

  /** The row apart from its DNS record id. */
  ghost function Renumbered(row: Row, record: Option<nat>): Row {
    row.(dnsRecord := record)
  }

  /** Apply a row to Cloudflare, where edgekit manages DNS, and to NPM. `mid` is the state between. */
  method Push(session: Session, i: nat, npm: Npm, cf: Cloudflare.Server, dns: bool, ip: string, proxied: bool)
    returns (r: Result<nat, HostError>, ghost verdict: Option<bool>, ghost mid: State, ghost dnsEvs: seq<Cloudflare.Event>, ghost evs: seq<Event>)
    requires npm.Valid() && cf.Valid() && OneHostPerDomain(npm.t) && i < |session.live.rows|
    modifies session`live, npm, cf
    ensures npm.Valid() && cf.Valid()
    ensures cf.z == old(cf.z) || exists id :: Cloudflare.Upserted(old(cf.z), cf.z, old(session.live.rows)[i].domain, ip, proxied, id)
    ensures npm.log == old(npm.log) + evs
    ensures cf.log == old(cf.log) + dnsEvs && (dns <==> dnsEvs != [])
    ensures Cloudflare.AllDone(dnsEvs) && AllDone(evs) ==> r.Ok? || r.error.RolledBack?
    ensures dns && Cloudflare.AllDone(dnsEvs) ==> Cloudflare.Published(cf.z, old(session.live.rows)[i].domain, ip, proxied)
    ensures |mid.rows| == |old(session.live.rows)|
    ensures mid == old(session.live).(rows := old(session.live.rows)[i := Renumbered(old(session.live.rows)[i], mid.rows[i].dnsRecord)])
    ensures PushPost(old(npm.t), mid.rows[i].domain, Body(mid.rows[i], mid.cert.id), verdict, npm.t, r)
    ensures PushState(old(npm.t), mid.rows[i].domain, Body(mid.rows[i], mid.cert.id), npm.t)
    ensures session.live == if r.Ok? then mid.(rows := mid.rows[i := Attached(mid.rows[i], r.value, mid.cert.id)]) else mid
    ensures r.Ok? ==> OnHost(npm.t, session.live.rows[i])
  {
    verdict, dnsEvs, evs := None, [], [];
    if dns {
      var ok;
      ok, dnsEvs := PushDns(session, i, cf, ip, proxied);
      if !ok {
        return Err(DnsCut), verdict, session.live, dnsEvs, evs;
      }
    } else {
      assert session.live.rows[i := Renumbered(session.live.rows[i], session.live.rows[i].dnsRecord)] == session.live.rows;
    }
    mid := session.live;
    r, verdict, evs := PushNpm(session, i, npm);
  }

  // ---------------------------------------------------------------- what a host serves

  function IdOf(cert: Option<nat>): nat {
    if cert.Some? then cert.value else 0
  }

  /** NPM has this domain on a host, and serves this certificate for it. */
  ghost predicate Serves(t: Tables, domain: string, cert: Option<nat>) {
    && (exists h :: Lists(t, h, domain))
    && (forall h | Lists(t, h, domain) :: CertOf(t.hosts[h]) == IdOf(cert))
  }

  /** Nothing about this domain changed. */
  ghost predicate SameFor(t0: Tables, t1: Tables, domain: string) {
    forall h :: (Lists(t0, h, domain) <==> Lists(t1, h, domain)) && (Lists(t0, h, domain) ==> t1.hosts[h] == t0.hosts[h])
  }

  /** No host carries two of the domains edgekit manages. */
  ghost predicate Separate(t: Tables, managed: set<string>) {
    forall h, c, d | c in managed && d in managed && Lists(t, h, c) && Lists(t, h, d) :: c == d
  }

  ghost predicate Managed(rows: seq<Row>, managed: set<string>) {
    forall i | 0 <= i < |rows| :: rows[i].domain in managed
  }

  /** The conditions under which rows and hosts can be matched up at all. */
  ghost predicate Tidy(t: Tables, rows: seq<Row>, managed: set<string>) {
    && WellFormed(t) && OneHostPerDomain(t) && Separate(t, managed)
    && UniqueDomains(rows) && Managed(rows, managed)
  }

  lemma SameForServes(t0: Tables, t1: Tables, domain: string, cert: Option<nat>)
    requires SameFor(t0, t1, domain)
    ensures Serves(t0, domain, cert) <==> Serves(t1, domain, cert)
  {
    if h :| Lists(t0, h, domain) {
      assert Lists(t1, h, domain);
    }
    if h :| Lists(t1, h, domain) {
      assert Lists(t0, h, domain);
    }
  }

  lemma PushedLeavesOthers(t0: Tables, row: Row, cert: Option<nat>, t: Tables, h: nat, domain: string)
    requires WellFormed(t0) && Pushed(t0, row.domain, Body(row, cert), t, h)
    requires domain != row.domain && !(Lists(t0, h, domain) && Lists(t0, h, row.domain))
    ensures SameFor(t0, t, domain)
  {
    RollbackCoversPush(row, cert);
    assert DomainsOf(t.hosts[h]) == [row.domain];
  }

  lemma UndoneLeavesOthers(t0: Tables, row: Row, cert: Option<nat>, t: Tables, h: nat, domain: string)
    requires WellFormed(t0) && Undone(t0, Body(row, cert), h, t)
    requires Lists(t0, h, row.domain) && !Lists(t0, h, domain)
    ensures SameFor(t0, t, domain)
  {
    UndoneHost(t0, row.domain, Body(row, cert), h, t);
  }

  lemma PushLeavesOthers(t0: Tables, row: Row, cert: Option<nat>, t: Tables, domain: string)
    requires WellFormed(t0) && PushState(t0, row.domain, Body(row, cert), t)
    requires domain != row.domain && forall h | Lists(t0, h, domain) :: !Lists(t0, h, row.domain)
    ensures SameFor(t0, t, domain)
  {
    if t != t0 {
      if h :| Pushed(t0, row.domain, Body(row, cert), t, h) {
        PushedLeavesOthers(t0, row, cert, t, h, domain);
      } else {
        var h :| (Lists(t0, h, row.domain) || (NoneLists(t0, row.domain) && h == t0.nextHost)) && Undone(t0, Body(row, cert), h, t);
        if h in t0.hosts {
          UndoneLeavesOthers(t0, row, cert, t, h, domain);
        }
      }
    }
  }

  lemma PushedServes(t0: Tables, row: Row, cert: Option<nat>, t: Tables, h: nat)
    requires WellFormed(t0) && OneHostPerDomain(t0) && Pushed(t0, row.domain, Body(row, cert), t, h)
    ensures Serves(t, row.domain, cert)
  {
    RollbackCoversPush(row, cert);
    PushKeepsOneHostPerDomain(t0, row.domain, Body(row, cert), t, h);
    assert Lists(t, h, row.domain);
    assert CertOf(t.hosts[h]) == IdOf(cert);
  }

  lemma PushKeepsSeparate(t0: Tables, row: Row, cert: Option<nat>, managed: set<string>, t: Tables)
    requires WellFormed(t0) && Separate(t0, managed) && row.domain in managed
    requires PushState(t0, row.domain, Body(row, cert), t)
    ensures Separate(t, managed)
  {
    forall h, c, d | c in managed && d in managed && Lists(t, h, c) && Lists(t, h, d)
      ensures c == d
    {
      if c != row.domain && d != row.domain {
        PushLeavesOthers(t0, row, cert, t, c);
        PushLeavesOthers(t0, row, cert, t, d);
      } else if c != d {
        var e := if c == row.domain then d else c;
        PushLeavesOthers(t0, row, cert, t, e);
        assert Lists(t0, h, e) && !Lists(t0, h, row.domain);
        PushOnlyOnItsHost(t0, row, cert, t, h);
      }
    }
  }

  lemma PushOnlyOnItsHost(t0: Tables, row: Row, cert: Option<nat>, t: Tables, h: nat)
    requires WellFormed(t0) && PushState(t0, row.domain, Body(row, cert), t)
    requires h in t0.hosts && !Lists(t0, h, row.domain)
    ensures !Lists(t, h, row.domain)
  {
    if t != t0 {
      if k :| Pushed(t0, row.domain, Body(row, cert), t, k) {
      } else {
        var k :| (Lists(t0, k, row.domain) || (NoneLists(t0, row.domain) && k == t0.nextHost)) && Undone(t0, Body(row, cert), k, t);
      }
    }
  }

  /** Nginx can load everything, and this certificate. */
  ghost predicate CanServe(t: Tables, cert: Option<nat>) {
    Loadable(t) && Servable(t, IdOf(cert))
  }

  /** Where nginx can load everything and the certificate is on disk, every state of a push can be
      loaded too. */
  lemma PushStaysLoadable(t0: Tables, row: Row, cert: Option<nat>, t: Tables)
    requires CanServe(t0, cert) && PushState(t0, row.domain, Body(row, cert), t)
    ensures CanServe(t, cert) && t.certs == t0.certs
  {
    BodyValues(row, cert);
    if t != t0 {
      if h :| Pushed(t0, row.domain, Body(row, cert), t, h) {
        PushedIsLoadable(t0, row, cert, t, h);
      } else {
        var h :| (Lists(t0, h, row.domain) || (NoneLists(t0, row.domain) && h == t0.nextHost)) && Undone(t0, Body(row, cert), h, t);
        UndoneIsLoadable(t0, row, cert, t, h);
      }
    }
  }

  lemma PushedIsLoadable(t0: Tables, row: Row, cert: Option<nat>, t: Tables, h: nat)
    requires CanServe(t0, cert) && Pushed(t0, row.domain, Body(row, cert), t, h)
    ensures CanServe(t, cert) && t.certs == t0.certs
  {
    BodyValues(row, cert);
    forall k | k in t.hosts
      ensures Servable(t, CertOf(t.hosts[k]))
    {
      if k != h {
        assert t.hosts[k] == t0.hosts[k];
      } else {
        assert CertOf(t.hosts[h]) == IdOf(cert);
      }
    }
  }

  lemma UndoneIsLoadable(t0: Tables, row: Row, cert: Option<nat>, t: Tables, h: nat)
    requires CanServe(t0, cert) && Undone(t0, Body(row, cert), h, t)
    ensures CanServe(t, cert) && t.certs == t0.certs
  {
    BodyValues(row, cert);
    forall k | k in t.hosts
      ensures Servable(t, CertOf(t.hosts[k]))
    {
      if k != h {
        assert t.hosts[k] == t0.hosts[k];
      } else if h in t0.hosts && CertificateId in t0.hosts[h] {
        assert CertOf(t.hosts[h]) == CertOf(t0.hosts[h]);
      } else if h in t0.hosts {
        assert CertOf(t.hosts[h]) == IdOf(cert);
      }
    }
  }

  /** And so nginx never refuses it. */
  lemma NeverRefused(t0: Tables, row: Row, cert: Option<nat>, verdict: Option<bool>, t: Tables, r: Result<nat, HostError>)
    requires CanServe(t0, cert)
    requires PushPost(t0, row.domain, Body(row, cert), verdict, t, r)
    ensures r.Ok? || r.error.NpmFailed? || r.error.DnsCut?
  {
    if r.Err? && (r.error.RolledBack? || r.error.RollbackFailed?) {
      var m, h :| Pushed(t0, row.domain, Body(row, cert), m, h) && !Loadable(m);
      PushedIsLoadable(t0, row, cert, m, h);
      assert false;
    }
  }

  lemma PushServes(t0: Tables, row: Row, cert: Option<nat>, verdict: Option<bool>, t: Tables, r: Result<nat, HostError>)
    requires CanServe(t0, cert)
    requires PushPost(t0, row.domain, Body(row, cert), verdict, t, r) && PushState(t0, row.domain, Body(row, cert), t)
    ensures CanServe(t, cert) && (r.Ok? || r.error.NpmFailed? || r.error.DnsCut?)
  {
    PushStaysLoadable(t0, row, cert, t);
    NeverRefused(t0, row, cert, verdict, t, r);
  }

  // ---------------------------------------------------------------- attaching the current certificate

  /** Which domains could not be attached, or that a transport error cut the attempt short. */
  datatype AttachError = CouldNotAttach(domains: seq<string>) | Aborted

  /** The rows `attach_certificate` passes over. */
  ghost predicate UpToDate(row: Row, cert: Option<nat>) {
    row.npmHost.Some? && row.npmHost.value != 0 && row.npmCert == cert
  }

  /** The domains of the rows that are not passed over, in order. */
  ghost function Stale(rows: seq<Row>, cert: Option<nat>): seq<string> {
    if rows == [] then []
    else
      var n := |rows| - 1;
      Stale(rows[..n], cert) + if UpToDate(rows[n], cert) then [] else [rows[n].domain]
  }

  lemma StaleStep(rows: seq<Row>, cert: Option<nat>, i: nat)
    requires i < |rows|
    ensures Stale(rows[..i + 1], cert) == Stale(rows[..i], cert) + if UpToDate(rows[i], cert) then [] else [rows[i].domain]
  {
    assert rows[..i + 1][..i] == rows[..i];
  }

  /** A row's host serves the current certificate, and the row says so. */
  ghost predicate InStep(t: Tables, row: Row, cert: Option<nat>) {
    row.npmHost.Some? && row.npmCert == cert && Serves(t, row.domain, cert)
  }

  ghost predicate RowKept(r0: Row, r1: Row, cert: Option<nat>) {
    r1 == r0 || (r1.npmHost.Some? && r1 == r0.(npmHost := r1.npmHost, npmCert := cert))
  }

  /** The effect on rows up to `n`, with every row from `n` on and every row passed over untouched. */
  ghost predicate AttachedUpTo(s0: State, t0: Tables, s: State, t: Tables, n: nat, managed: set<string>) {
    && s == s0.(rows := s.rows) && |s.rows| == |s0.rows|
    && Tidy(t, s0.rows, managed) && t.certs == t0.certs && t.nextCert == t0.nextCert
    && (forall j | 0 <= j < |s0.rows| :: RowKept(s0.rows[j], s.rows[j], s0.cert.id))
    && (forall j | 0 <= j < |s0.rows| && (n <= j || UpToDate(s0.rows[j], s0.cert.id)) ::
          s.rows[j] == s0.rows[j] && SameFor(t0, t, s0.rows[j].domain))
  }

  /** Row `j` was passed over, or is now in step and names the host it is on. */
  ghost predicate Handled(s0: State, s: State, t: Tables, j: nat)
    requires j < |s0.rows| && j < |s.rows|
  {
    UpToDate(s0.rows[j], s0.cert.id) || (InStep(t, s.rows[j], s0.cert.id) && OnHost(t, s.rows[j]))
  }

  ghost predicate HandledUpTo(s0: State, s: State, t: Tables, i: nat, failed: seq<string>) {
    && i <= |s0.rows| == |s.rows|
    && forall j | 0 <= j < i :: Handled(s0, s, t, j) || s0.rows[j].domain in failed
  }

  /** Each of the first `i` rows was dealt with or is listed as failed, and only those. */
  ghost predicate Accounted(s0: State, s: State, t: Tables, i: nat, failed: seq<string>) {
    HandledUpTo(s0, s, t, i, failed) && FailedUpTo(s0, s, i, failed)
  }

  /** Of the first `i` rows, those listed are exactly those that still are not up to date. */
  ghost predicate FailedUpTo(s0: State, s: State, i: nat, failed: seq<string>) {
    && i <= |s0.rows| == |s.rows|
    && (forall d | d in failed :: exists j :: 0 <= j < i && s0.rows[j].domain == d)
    && (forall j | 0 <= j < i :: s0.rows[j].domain in failed <==> !UpToDate(s.rows[j], s0.cert.id))
  }

  lemma FailedSkip(s0: State, s: State, i: nat, failed: seq<string>)
    requires UniqueDomains(s0.rows) && FailedUpTo(s0, s, i, failed) && i < |s0.rows| && UpToDate(s.rows[i], s0.cert.id)
    ensures FailedUpTo(s0, s, i + 1, failed)
  {
  }

  lemma FailedStep(s0: State, s: State, i: nat, failed: seq<string>, t: Tables, t': Tables, verdict: Option<bool>,
                   r: Result<nat, HostError>, s': State)
    requires UniqueDomains(s0.rows) && FailedUpTo(s0, s, i, failed) && i < |s0.rows|
    requires s.rows[i] == s0.rows[i] && s.cert == s0.cert && !UpToDate(s0.rows[i], s0.cert.id)
    requires PushAt(s, t, i, t', verdict, r, s')
    ensures FailedUpTo(s0, s', i + 1, if r.Ok? then failed else failed + [s0.rows[i].domain])
  {
    if r.Ok? {
      assert r.value in t'.hosts;
    }
  }

  lemma SkipStep(s0: State, t0: Tables, s: State, t: Tables, i: nat, managed: set<string>, failed: seq<string>)
    requires AttachedUpTo(s0, t0, s, t, i, managed) && i < |s0.rows| && UpToDate(s0.rows[i], s0.cert.id)
    ensures AttachedUpTo(s0, t0, s, t, i + 1, managed)
    ensures Accounted(s0, s, t, i, failed) ==> Accounted(s0, s, t, i + 1, failed)
  {
    if Accounted(s0, s, t, i, failed) {
      FailedSkip(s0, s, i, failed);
    }
  }

  ghost predicate AttachPost(s0: State, t0: Tables, managed: set<string>, s1: State, t1: Tables,
                             r: Result<seq<string>, AttachError>) {
    && AttachedUpTo(s0, t0, s1, t1, |s0.rows|, managed)
    && (r.Err? && r.error.CouldNotAttach? ==> r.error.domains != [] && Accounted(s0, s1, t1, |s0.rows|, r.error.domains))
    && (r.Ok? ==> Accounted(s0, s1, t1, |s0.rows|, []) && r.value == Stale(s0.rows, s0.cert.id))
  }

  lemma PushKeepsTables(t: Tables, rows: seq<Row>, managed: set<string>, i: nat, cert: Option<nat>, t': Tables)
    requires Tidy(t, rows, managed) && i < |rows| && WellFormed(t')
    requires PushState(t, rows[i].domain, Body(rows[i], cert), t')
    ensures Tidy(t', rows, managed) && t'.certs == t.certs && t'.nextCert == t.nextCert
    ensures forall j | 0 <= j < |rows| && j != i :: SameFor(t, t', rows[j].domain)
  {
    RollbackCoversPush(rows[i], cert);
    PushStateKeepsOneHostPerDomain(t, rows[i].domain, Body(rows[i], cert), t');
    PushKeepsSeparate(t, rows[i], cert, managed, t');
    PushKeepsCerts(t, rows[i], cert, t');
    forall j | 0 <= j < |rows| && j != i
      ensures SameFor(t, t', rows[j].domain)
    {
      PushLeavesOthers(t, rows[i], cert, t', rows[j].domain);
    }
  }

  /** The push of row `i` at its place in an attach, and the live state it leaves. */
  ghost predicate PushAt(s: State, t: Tables, i: nat, t': Tables, verdict: Option<bool>, r: Result<nat, HostError>, s': State) {
    && i < |s.rows| && WellFormed(t')
    && PushPost(t, s.rows[i].domain, Body(s.rows[i], s.cert.id), verdict, t', r)
    && PushState(t, s.rows[i].domain, Body(s.rows[i], s.cert.id), t')
    && s' == if r.Ok? then s.(rows := s.rows[i := Attached(s.rows[i], r.value, s.cert.id)]) else s
  }

  lemma PushKeepsAttached(s0: State, t0: Tables, managed: set<string>, s: State, t: Tables, i: nat, t': Tables,
                          verdict: Option<bool>, r: Result<nat, HostError>, s': State)
    requires AttachedUpTo(s0, t0, s, t, i, managed) && i < |s0.rows| && !UpToDate(s0.rows[i], s0.cert.id)
    requires PushAt(s, t, i, t', verdict, r, s')
    ensures AttachedUpTo(s0, t0, s', t', i + 1, managed)
    ensures forall j | 0 <= j < |s0.rows| && j != i :: SameFor(t, t', s0.rows[j].domain)
  {
    var cert := s0.cert.id;
    PushKeepsTables(t, s0.rows, managed, i, cert, t');
    forall j | 0 <= j < |s0.rows| && (i + 1 <= j || UpToDate(s0.rows[j], cert))
      ensures s'.rows[j] == s0.rows[j] && SameFor(t0, t', s0.rows[j].domain)
    {
      SameForTransitive(t0, t, t', s0.rows[j].domain);
    }
  }

  lemma PushIsOneStep(s0: State, t0: Tables, managed: set<string>, s: State, t: Tables, i: nat, t': Tables,
                      verdict: Option<bool>, r: Result<nat, HostError>, s': State, failed: seq<string>)
    requires AttachedUpTo(s0, t0, s, t, i, managed) && i < |s0.rows| && !UpToDate(s0.rows[i], s0.cert.id)
    requires PushAt(s, t, i, t', verdict, r, s') && Accounted(s0, s, t, i, failed)
    ensures AttachedUpTo(s0, t0, s', t', i + 1, managed)
    ensures Accounted(s0, s', t', i + 1, if r.Ok? then failed else failed + [s0.rows[i].domain])
  {
    PushKeepsAttached(s0, t0, managed, s, t, i, t', verdict, r, s');
    HandledKept(s0, s, t, s', t', i);
    FailedStep(s0, s, i, failed, t, t', verdict, r, s');
    if r.Ok? {
      PushedServes(t, s0.rows[i], s0.cert.id, t', r.value);
      PushedOnHost(t, s.rows[i], s.cert.id, verdict, t', r.value);
    }
  }

  lemma SameForTransitive(a: Tables, b: Tables, c: Tables, domain: string)
    requires SameFor(a, b, domain) && SameFor(b, c, domain)
    ensures SameFor(a, c, domain)
  {
  }

  lemma PushKeepsCerts(t0: Tables, row: Row, cert: Option<nat>, t: Tables)
    requires PushState(t0, row.domain, Body(row, cert), t)
    ensures t.certs == t0.certs && t.nextCert == t0.nextCert
  {
  }

  /** So far every request was answered, and rows failed only for a reason: a request that was not
      done, or nginx, which refuses nothing it can serve. */
  ghost predicate Went(evs: seq<Event>, rejected: bool, failed: seq<string>, t0: Tables, t: Tables, cert: Option<nat>) {
    && NoneCut(evs) && (AllDone(evs) && !rejected ==> failed == [])
    && (CanServe(t0, cert) ==> !rejected && CanServe(t, cert))
  }

  lemma WentStep(before: seq<Event>, more: seq<Event>, rejected: bool, failed: seq<string>, t0: Tables,
                 s: State, t: Tables, i: nat, t': Tables, verdict: Option<bool>, r: Result<nat, HostError>, s': State)
    requires Went(before, rejected, failed, t0, t, s.cert.id) && PushAt(s, t, i, t', verdict, r, s')
    requires AllDone(more) ==> r.Ok? || r.error.RolledBack?
    requires r.Err? && r.error.Escapes() <==> !NoneCut(more)
    ensures r.Err? && r.error.Escapes() ==>
              && !NoneCut(before + more) && !AllDone(before + more)
              && (CanServe(t0, s.cert.id) ==> !rejected && CanServe(t', s.cert.id))
    ensures !(r.Err? && r.error.Escapes()) ==>
              Went(before + more, rejected || (r.Err? && r.error.RolledBack?),
                   if r.Ok? then failed else failed + [s.rows[i].domain], t0, t', s.cert.id)
  {
    Joined(before, more);
    if CanServe(t0, s.cert.id) {
      PushServes(t, s.rows[i], s.cert.id, verdict, t', r);
    }
  }

  /** Where the loop over the rows stands. */
  ghost predicate Going(s0: State, t0: Tables, managed: set<string>, s: State, t: Tables, i: nat,
                        failed: seq<string>, rejected: bool, evs: seq<Event>) {
    && AttachedUpTo(s0, t0, s, t, i, managed) && Accounted(s0, s, t, i, failed)
    && Went(evs, rejected, failed, t0, t, s0.cert.id)
  }

  /** As long as none failed, the rows moved are those that were not to be passed over. */
  ghost predicate ListsMoved(s0: State, i: nat, moved: seq<string>, failed: seq<string>) {
    i <= |s0.rows| && (failed == [] ==> moved == Stale(s0.rows[..i], s0.cert.id))
  }

  lemma ListsMovedStep(s0: State, i: nat, moved: seq<string>, failed: seq<string>)
    requires i < |s0.rows| && ListsMoved(s0, i, moved, failed)
    ensures UpToDate(s0.rows[i], s0.cert.id) ==> ListsMoved(s0, i + 1, moved, failed)
    ensures !UpToDate(s0.rows[i], s0.cert.id) ==> ListsMoved(s0, i + 1, moved + [s0.rows[i].domain], failed)
    ensures ListsMoved(s0, i + 1, moved, failed + [s0.rows[i].domain])
  {
    StaleStep(s0.rows, s0.cert.id, i);
  }

  /** The turn of row `i`, which is not passed over. */
  method AttachRow(session: Session, npm: Npm, i: nat, ghost s0: State, ghost t0: Tables, ghost managed: set<string>,
                   ghost failed: seq<string>, ghost rejected: bool, ghost before: seq<Event>)
    returns (r: Result<nat, HostError>, ghost rejected': bool, ghost more: seq<Event>)
    requires npm.Valid() && i < |s0.rows| && !UpToDate(s0.rows[i], s0.cert.id)
    requires Going(s0, t0, managed, session.live, npm.t, i, failed, rejected, before)
    modifies session`live, npm
    ensures npm.Valid() && npm.log == old(npm.log) + more
    ensures AttachedUpTo(s0, t0, session.live, npm.t, i + 1, managed)
    ensures r.Err? && r.error.Escapes() ==>
              && !NoneCut(before + more) && !AllDone(before + more)
              && (CanServe(t0, s0.cert.id) ==> !rejected' && CanServe(npm.t, s0.cert.id))
    ensures !(r.Err? && r.error.Escapes()) ==>
              Going(s0, t0, managed, session.live, npm.t, i + 1, if r.Ok? then failed else failed + [s0.rows[i].domain],
                    rejected', before + more)
  {
    ghost var s, t := session.live, npm.t;
    ghost var verdict;
    r, verdict, more := PushNpm(session, i, npm);
    WentStep(before, more, rejected, failed, t0, s, t, i, npm.t, verdict, r, session.live);
    PushIsOneStep(s0, t0, managed, s, t, i, npm.t, verdict, r, session.live, failed);
    rejected' := rejected || (r.Err? && r.error.RolledBack?);
  }

  /** Re-push every host not yet serving the current certificate; a failure that was answered does
      not stop the rest. Ok lists the domains moved, Err those that failed. */
  method AttachCertificate(session: Session, npm: Npm, ghost managed: set<string>)
    returns (r: Result<seq<string>, AttachError>, ghost rejected: bool, ghost evs: seq<Event>)
    requires npm.Valid() && Tidy(npm.t, session.live.rows, managed)
    modifies session`live, npm
    ensures npm.Valid() && npm.log == old(npm.log) + evs
    ensures AttachPost(old(session.live), old(npm.t), managed, session.live, npm.t, r)
    ensures AllDone(evs) && !rejected ==> r.Ok?
    ensures r == Err(Aborted) <==> !NoneCut(evs)
    ensures CanServe(old(npm.t), old(session.live).cert.id) ==> !rejected && CanServe(npm.t, session.live.cert.id)
  {
    ghost var s0, t0 := session.live, npm.t;
    var current := session.live.cert.id;
    var moved: seq<string>, failures: seq<string> := [], [];
    rejected, evs := false, [];
    for i := 0 to |session.live.rows|
      invariant npm.Valid() && npm.log == old(npm.log) + evs
      invariant Going(s0, t0, managed, session.live, npm.t, i, failures, rejected, evs)
      invariant ListsMoved(s0, i, moved, failures)
    {
      ListsMovedStep(s0, i, moved, failures);
      var row := session.live.rows[i];
      if row.npmHost.Some? && row.npmHost.value != 0 && row.npmCert == current {
        SkipStep(s0, t0, session.live, npm.t, i, managed, failures);
        continue;
      }
      ghost var before := evs;
      var pushed;
      ghost var more;
      pushed, rejected, more := AttachRow(session, npm, i, s0, t0, managed, failures, rejected, before);
      Joined(before, more);
      evs := before + more;
      if pushed.Err? && pushed.error.Escapes() {
        AttachAborted(s0, t0, managed, session.live, npm.t, i + 1);
        return Err(Aborted), rejected, evs;
      }
      if pushed.Err? {
        failures := failures + [row.domain];
      } else {
        moved := moved + [row.domain];
      }
    }
    AttachFinished(s0, t0, managed, session.live, npm.t, moved, failures, rejected, evs);
    r := if failures == [] then Ok(moved) else Err(CouldNotAttach(failures));
  }

  lemma AttachAborted(s0: State, t0: Tables, managed: set<string>, s: State, t: Tables, n: nat)
    requires AttachedUpTo(s0, t0, s, t, n, managed) && n <= |s0.rows|
    ensures AttachPost(s0, t0, managed, s, t, Err(Aborted))
  {
  }

  lemma AttachFinished(s0: State, t0: Tables, managed: set<string>, s: State, t: Tables, moved: seq<string>,
                       failed: seq<string>, rejected: bool, evs: seq<Event>)
    requires Going(s0, t0, managed, s, t, |s0.rows|, failed, rejected, evs)
    requires ListsMoved(s0, |s0.rows|, moved, failed)
    ensures AttachPost(s0, t0, managed, s, t, if failed == [] then Ok(moved) else Err(CouldNotAttach(failed)))
    ensures NoneCut(evs) && (AllDone(evs) && !rejected ==> failed == [])
    ensures CanServe(t0, s0.cert.id) ==> !rejected && CanServe(t, s.cert.id)
  {
    Cloudflare.TakeAll(s0.rows);
  }

  lemma HandledKept(s0: State, s: State, t: Tables, s': State, t': Tables, i: nat)
    requires i < |s0.rows| == |s.rows| == |s'.rows|
    requires forall j | 0 <= j < |s0.rows| && j != i :: s'.rows[j] == s.rows[j]
    requires forall j | 0 <= j < |s0.rows| && j != i :: SameFor(t, t', s0.rows[j].domain)
    requires forall j | 0 <= j < |s0.rows| :: s.rows[j].domain == s0.rows[j].domain && s'.rows[j].domain == s0.rows[j].domain
    ensures forall j | 0 <= j < |s0.rows| && j != i && Handled(s0, s, t, j) :: Handled(s0, s', t', j)
  {
    forall j | 0 <= j < |s0.rows| && j != i && Handled(s0, s, t, j)
      ensures Handled(s0, s', t', j)
    {
      SameForServes(t, t', s0.rows[j].domain, s0.cert.id);
    }
  }
}
