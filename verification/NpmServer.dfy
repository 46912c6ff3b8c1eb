/** Nginx Proxy Manager as its API client sees it: two tables and one kind of request at a
    time, any of which may fail. The server is the only party that changes the tables, ids are
    never handed out twice, and a request that is reported failed may still have taken effect.
 */
module NpmServer {
  import opened Common

  // ---------------------------------------------------------------- certificates

  datatype Provider = Custom | LetsEncrypt

  /** A certificate: its DER content, which a fingerprint identifies, in one of its PEM spellings. */
  datatype Pem = Pem(der: Der, spelling: string)

  /** A certificate record. `pem` is None between creation and a successful upload. */
  datatype Cert = Cert(name: string, provider: Provider, pem: Option<Pem>,
                       domains: seq<string>, expires: Option<int>)

  // ---------------------------------------------------------------- proxy hosts

  datatype Key =
    | DomainNames | ForwardScheme | ForwardHost | ForwardPort | CertificateId | SslForced
    | Http2Support | HstsEnabled | HstsSubdomains | BlockExploits | CachingEnabled
    | AllowWebsocketUpgrade | AccessListId | AdvancedConfig | Locations
    | Meta | CreatedOn | ModifiedOn | Enabled

  /** `Challenge` is the two flags of `meta` a push writes. */
  datatype Value =
    | Text(text: string) | Num(num: nat) | Flag(flag: bool) | Names(names: seq<string>)
    | Challenge(agreed: bool, dns: bool)

  /** The JSON body of a proxy host, without its id. */
  type Fields = map<Key, Value>

  /** `int(host.get("certificate_id") or 0)` */
  function CertOf(f: Fields): nat {
    if CertificateId in f && f[CertificateId].Num? then f[CertificateId].num else 0
  }

  /** `host.get("domain_names") or []` */
  function DomainsOf(f: Fields): seq<string> {
    if DomainNames in f && f[DomainNames].Names? then f[DomainNames].names else []
  }

  // ---------------------------------------------------------------- tables

  datatype Tables = Tables(certs: map<nat, Cert>, hosts: map<nat, Fields>,
                           nextCert: nat, nextHost: nat)

  /** Ids are positive and allocated in increasing order; a Let's Encrypt record exists only
      together with the certificate that was issued for it. */
  ghost predicate WellFormed(t: Tables) {
    && 0 < t.nextCert && 0 < t.nextHost
    && (forall c | c in t.certs :: 0 < c < t.nextCert)
    && (forall h | h in t.hosts :: 0 < h < t.nextHost)
    && (forall c | c in t.certs :: t.certs[c].provider.LetsEncrypt? ==> t.certs[c].pem.Some?)
  }

  /** Nginx can load a vhost with this certificate id: no certificate, or one on disk. */
  predicate Servable(t: Tables, c: nat) {
    c == 0 || (c in t.certs && t.certs[c].pem.Some?)
  }

  /** The configurations `nginx -t` accepts. */
  predicate Loadable(t: Tables) {
    forall h | h in t.hosts :: Servable(t, CertOf(t.hosts[h]))
  }

  /** Every host that refers to a missing or empty certificate in `after` already referred to
      that same unusable certificate in `before`. */
  ghost predicate NoWorse(before: Tables, after: Tables) {
    forall h | h in after.hosts ::
      || Servable(after, CertOf(after.hosts[h]))
      || (&& h in before.hosts
          && CertOf(before.hosts[h]) == CertOf(after.hosts[h])
          && !Servable(before, CertOf(before.hosts[h])))
  }

  /** No domain is configured on two hosts. */
  ghost predicate OneHostPerDomain(t: Tables) {
    forall h, k, d | h in t.hosts && k in t.hosts && d in DomainsOf(t.hosts[h]) && d in DomainsOf(t.hosts[k]) :: h == k
  }

  ghost function HostsOn(t: Tables, c: nat): set<nat> {
    set h | h in t.hosts && CertOf(t.hosts[h]) == c
  }

  ghost function Labelled(t: Tables, name: string): set<nat> {
    set c | c in t.certs && t.certs[c].name == name
  }

  // ---------------------------------------------------------------- requests

  datatype Request =
    | GetCerts
    | GetHosts
    | CreateCert(name: string)
    | UploadCert(cert: nat, pem: Pem)
    | IssueCert(name: string, domains: seq<string>, issued: Pem, expires: Option<int>)
    | DeleteCert(cert: nat)
    | Repoint(host: nat, to: nat)
    | PutHost(host: nat, fields: Fields)
    | PostHost(fields: Fields)
    | DeleteHost(host: nat)

  /** How a request ended. `Ignored` answers 200 and changes nothing, `Refused` is a 400 with
      no effect, the two `Lost` outcomes are answered with some other error, and the two `Cut` ones
      are not answered at all: the client gets a transport error, which it catches in fewer places. */
  datatype Outcome = Done | Ignored | Refused | LostBefore | LostAfter | CutBefore | CutAfter {
    predicate Cut() { CutBefore? || CutAfter? }
    predicate Failed() { Refused? || LostBefore? || LostAfter? || Cut() }
    predicate TookEffect() { Done? || LostAfter? || CutAfter? }
  }

  predicate Accepts(t: Tables, req: Request) {
    match req
    case UploadCert(c, _) => c in t.certs
    case DeleteCert(c) => c in t.certs
    case Repoint(h, _) => h in t.hosts
    case PutHost(h, _) => h in t.hosts
    case DeleteHost(h) => h in t.hosts
    case _ => true
  }

  function Effect(t: Tables, req: Request): Tables
    requires Accepts(t, req)
  {
    match req
    case GetCerts => t
    case GetHosts => t
    case CreateCert(name) =>
      t.(certs := t.certs[t.nextCert := Cert(name, Custom, None, [], None)], nextCert := t.nextCert + 1)
    case UploadCert(c, pem) =>
      t.(certs := t.certs[c := t.certs[c].(pem := Some(pem))])
    case IssueCert(name, domains, issued, expires) =>
      t.(certs := t.certs[t.nextCert := Cert(name, LetsEncrypt, Some(issued), domains, expires)],
         nextCert := t.nextCert + 1)
    case DeleteCert(c) => t.(certs := t.certs - {c})
    case Repoint(h, c) => t.(hosts := t.hosts[h := t.hosts[h][CertificateId := Num(c)]])
    case PutHost(h, fields) => t.(hosts := t.hosts[h := t.hosts[h] + fields])
    case PostHost(fields) => t.(hosts := t.hosts[t.nextHost := fields], nextHost := t.nextHost + 1)
    case DeleteHost(h) => t.(hosts := t.hosts - {h})
  }

  /** One request, how it ended, and the tables it left. */
  datatype Event = Event(req: Request, outcome: Outcome, after: Tables)

  /** `after` is what the outcome allows: the whole effect or none of it. Only a re-point may
      be silently ignored. */
  ghost predicate Legal(before: Tables, e: Event) {
    && (e.outcome.TookEffect() ==> Accepts(before, e.req) && e.after == Effect(before, e.req))
    && (!e.outcome.TookEffect() ==> e.after == before)
    && (e.outcome.Ignored? ==> e.req.Repoint?)
  }

  ghost predicate AllDone(evs: seq<Event>) {
    forall i | 0 <= i < |evs| :: evs[i].outcome.Done?
  }

  ghost predicate NoneFailed(evs: seq<Event>) {
    forall i | 0 <= i < |evs| :: !evs[i].outcome.Failed()
  }

  /** Every request was answered. */
  ghost predicate NoneCut(evs: seq<Event>) {
    forall i | 0 <= i < |evs| :: !evs[i].outcome.Cut()
  }

  /** At every intermediate state the hosts are no worse off than in `before`. */
  ghost predicate SafeThroughout(before: Tables, evs: seq<Event>) {
    forall i | 0 <= i < |evs| :: NoWorse(before, evs[i].after)
  }

  ghost predicate OnlyReads(evs: seq<Event>) {
    forall i | 0 <= i < |evs| :: evs[i].req.GetCerts? || evs[i].req.GetHosts?
  }

  // ---------------------------------------------------------------- listings

  datatype CertRec = CertRec(id: nat, cert: Cert)
  datatype HostRec = HostRec(id: nat, fields: Fields)

  ghost predicate ListsCerts(s: seq<CertRec>, certs: map<nat, Cert>) {
    && (forall i, j | 0 <= i < j < |s| :: s[i].id != s[j].id)
    && (forall i | 0 <= i < |s| :: s[i].id in certs && certs[s[i].id] == s[i].cert)
    && (forall c | c in certs :: CertRec(c, certs[c]) in s)
  }

  ghost predicate ListsHosts(s: seq<HostRec>, hosts: map<nat, Fields>) {
    && (forall i, j | 0 <= i < j < |s| :: s[i].id != s[j].id)
    && (forall i | 0 <= i < |s| :: s[i].id in hosts && hosts[s[i].id] == s[i].fields)
    && (forall h | h in hosts :: HostRec(h, hosts[h]) in s)
  }

  /** The records of a table in some order the server chooses. */
  method CertListing(certs: map<nat, Cert>) returns (s: seq<CertRec>)
    ensures ListsCerts(s, certs)
  {
    s := [];
    var left := certs.Keys;
    while left != {}
      invariant left <= certs.Keys
      invariant forall i, j | 0 <= i < j < |s| :: s[i].id != s[j].id
      invariant forall i | 0 <= i < |s| :: s[i].id in certs && s[i].id !in left && certs[s[i].id] == s[i].cert
      invariant forall c | c in certs :: c in left || CertRec(c, certs[c]) in s
      decreases left
    {
      var c :| c in left;
      s := s + [CertRec(c, certs[c])];
      left := left - {c};
    }
  }

  method HostListing(hosts: map<nat, Fields>) returns (s: seq<HostRec>)
    ensures ListsHosts(s, hosts)
  {
    s := [];
    var left := hosts.Keys;
    while left != {}
      invariant left <= hosts.Keys
      invariant forall i, j | 0 <= i < j < |s| :: s[i].id != s[j].id
      invariant forall i | 0 <= i < |s| :: s[i].id in hosts && s[i].id !in left && hosts[s[i].id] == s[i].fields
      invariant forall h | h in hosts :: h in left || HostRec(h, hosts[h]) in s
      decreases left
    {
      var h :| h in left;
      s := s + [HostRec(h, hosts[h])];
      left := left - {h};
    }
  }

  // ---------------------------------------------------------------- the server

  class Npm {
    var t: Tables
    ghost var log: seq<Event>

    ghost predicate Valid()
      reads this
    {
      WellFormed(t)
    }

    /** One API request. What happens to it is not under the client's control. */
    method Send(req: Request) returns (o: Outcome)
      requires Valid()
      modifies this
      ensures Valid()
      ensures log == old(log) + [Event(req, o, t)]
      ensures Legal(old(t), Event(req, o, t))
    {
      o := *;
      if o.TookEffect() && !Accepts(t, req) {
        o := Refused;
      }
      if o.Ignored? && !req.Repoint? {
        o := LostBefore;
      }
      if o.TookEffect() {
        t := Effect(t, req);
      }
      log := log + [Event(req, o, t)];
    }
  }

  // ---------------------------------------------------------------- facts about the relation

  lemma NoWorseTransitive(a: Tables, b: Tables, c: Tables)
    requires NoWorse(a, b) && NoWorse(b, c)
    ensures NoWorse(a, c)
  {
    forall h | h in c.hosts && !Servable(c, CertOf(c.hosts[h]))
      ensures h in a.hosts && CertOf(a.hosts[h]) == CertOf(c.hosts[h]) && !Servable(a, CertOf(a.hosts[h]))
    {
      assert h in b.hosts && !Servable(b, CertOf(b.hosts[h]));
    }
  }

  /** What safety buys: a loadable configuration stays loadable, so every host that has a certificate
      has one NPM holds, with its content. */
  lemma NoWorseKeepsLoadable(a: Tables, b: Tables)
    requires NoWorse(a, b) && Loadable(a)
    ensures Loadable(b)
    ensures forall h | h in b.hosts && CertOf(b.hosts[h]) != 0 ::
              CertOf(b.hosts[h]) in b.certs && b.certs[CertOf(b.hosts[h])].pem.Some?
  {
    forall h | h in b.hosts
      ensures Servable(b, CertOf(b.hosts[h]))
    {
      if h in a.hosts {
        assert Servable(a, CertOf(a.hosts[h]));
      }
    }
  }
}
