/** Proxy hosts in NPM: the payload of a push, upsert, and a push that nginx must accept or that is
    rolled back. */
module ProxyHosts {
  import opened Common
  import opened NpmServer
  import opened NpmClient
  import opened Store

  predicate WasCut(e: NpmError) { e.RequestFailed? && e.outcome.Cut() }

  datatype HostError =
    | NpmFailed(error: NpmError)
    | RolledBack
    | RollbackFailed(error: NpmError)
    | DnsCut
  {
    /** A transport error, which callers that go on after NPM's and the host service's own errors do
        not catch. */
    predicate Escapes() {
      DnsCut? || ((NpmFailed? || RollbackFailed?) && WasCut(error))
    }
  }

  /** The fields replayed from a snapshot when a push is undone. */
  const WRITABLE: set<Key> := {
    DomainNames, ForwardScheme, ForwardHost, ForwardPort, CertificateId, SslForced, Http2Support,
    HstsEnabled, HstsSubdomains, BlockExploits, CachingEnabled, AllowWebsocketUpgrade, AccessListId,
    AdvancedConfig, Locations
  }

  function Body(row: Row, cert: Option<nat>): Fields {
    var id := if cert.Some? then cert.value else 0;
    var ssl := id != 0;
    map[
      DomainNames := Names([row.domain]),
      ForwardScheme := Text(row.scheme),
      ForwardHost := Text(row.forwardHost),
      ForwardPort := Num(row.forwardPort),
      CertificateId := Num(id),
      SslForced := Flag(row.forceSsl && ssl),
      Http2Support := Flag(row.http2 && ssl),
      HstsEnabled := Flag(false),
      HstsSubdomains := Flag(false),
      BlockExploits := Flag(row.blockExploits),
      CachingEnabled := Flag(false),
      AllowWebsocketUpgrade := Flag(row.websockets),
      AccessListId := Num(0),
      AdvancedConfig := Text(""),
      Locations := Names([]),
      Meta := Challenge(false, false)
    ]
  }

  lemma BodyKeys(row: Row, cert: Option<nat>)
    ensures Body(row, cert).Keys == WRITABLE + {Meta}
  {
  }

  lemma BodyValues(row: Row, cert: Option<nat>)
    ensures DomainsOf(Body(row, cert)) == [row.domain]
    ensures CertOf(Body(row, cert)) == if cert.Some? then cert.value else 0
  {
  }

  /** A rollback replays every field a push writes, except the challenge flags in `meta`. */
  lemma RollbackCoversPush(row: Row, cert: Option<nat>)
    ensures Body(row, cert).Keys == WRITABLE + {Meta}
    ensures DomainsOf(Body(row, cert)) == [row.domain]
    ensures CertOf(Body(row, cert)) == if cert.Some? then cert.value else 0
  {
    BodyKeys(row, cert);
    BodyValues(row, cert);
  }

  // ---------------------------------------------------------------- upsert

  ghost predicate Lists(t: Tables, h: nat, domain: string) {
    h in t.hosts && domain in DomainsOf(t.hosts[h])
  }

  ghost predicate NoneLists(t: Tables, domain: string) {
    forall h | h in t.hosts :: !Lists(t, h, domain)
  }

  method FindProxyHost(npm: Npm, domain: string)
    returns (r: Result<Option<HostRec>, NpmError>, ghost evs: seq<Event>)
    requires npm.Valid()
    modifies npm
    ensures npm.Valid() && npm.t == old(npm.t)
    ensures npm.log == old(npm.log) + evs
    ensures |evs| == 1 && evs[0].req.GetHosts? && evs[0].after == npm.t
    ensures r.Ok? == evs[0].outcome.Done? && r.Err? == evs[0].outcome.Failed()
    ensures r.Err? ==> r.error == RequestFailed(evs[0].outcome)
    ensures r.Ok? && r.value.None? ==> NoneLists(npm.t, domain)
    ensures r.Ok? && r.value.Some? ==>
              Lists(npm.t, r.value.value.id, domain) && npm.t.hosts[r.value.value.id] == r.value.value.fields
  {
    var listing;
    listing, evs := ListHosts(npm);
    if listing.Err? {
      return Err(listing.error), evs;
    }
    var all := listing.value;
    for i := 0 to |all|
      invariant forall j | 0 <= j < i :: domain !in DomainsOf(all[j].fields)
    {
      if domain in DomainsOf(all[i].fields) {
        return Ok(Some(all[i])), evs;
      }
    }
    forall h | h in npm.t.hosts
      ensures !Lists(npm.t, h, domain)
    {
      assert HostRec(h, npm.t.hosts[h]) in all;
    }
    r := Ok(None);
  }

  /** `body` was written to host `h`: the one that listed the domain, or a new one if none did. */
  ghost predicate Pushed(t0: Tables, domain: string, body: Fields, t1: Tables, h: nat) {
    || (Lists(t0, h, domain) && t1 == t0.(hosts := t0.hosts[h := t0.hosts[h] + body]))
    || (&& NoneLists(t0, domain) && h == t0.nextHost
        && t1 == t0.(hosts := t0.hosts[h := body], nextHost := h + 1))
  }

  lemma PushKeepsOneHostPerDomain(t0: Tables, domain: string, body: Fields, t1: Tables, h: nat)
    requires WellFormed(t0) && OneHostPerDomain(t0) && Pushed(t0, domain, body, t1, h)
    requires DomainsOf(body) == [domain] && DomainNames in body
    ensures OneHostPerDomain(t1) && DomainsOf(t1.hosts[h]) == [domain]
  {
  }

  method UpsertProxyHost(npm: Npm, domain: string, body: Fields)
    returns (r: Result<nat, NpmError>, ghost evs: seq<Event>)
    requires npm.Valid()
    modifies npm
    ensures npm.Valid() && npm.log == old(npm.log) + evs
    ensures r.Ok? <==> AllDone(evs)
    ensures r.Err? ==> (WasCut(r.error) <==> !NoneCut(evs))
    ensures r.Ok? ==> Pushed(old(npm.t), domain, body, npm.t, r.value)
    ensures r.Err? ==> npm.t == old(npm.t) || exists h :: Pushed(old(npm.t), domain, body, npm.t, h)
    ensures forall i | 0 <= i < |evs| ::
              evs[i].after == old(npm.t) || exists h :: Pushed(old(npm.t), domain, body, evs[i].after, h)
  {
    ghost var log0 := npm.log;
    var existing;
    existing, evs := FindProxyHost(npm, domain);
    if existing.Err? {
      return Err(existing.error), evs;
    }
    var h, req;
    if existing.value.Some? {
      h, req := existing.value.value.id, PutHost(existing.value.value.id, body);
    } else {
      h, req := npm.t.nextHost, PostHost(body);
    }
    ghost var t0 := npm.t;
    var o := npm.Send(req);
    ghost var e := Event(req, o, npm.t);
    assert o.TookEffect() ==> Pushed(t0, domain, body, npm.t, h);
    LogExtends(log0, evs, e);
    evs := Extend(evs, e);
    r := if o.Failed() then Err(RequestFailed(o)) else Ok(h);
  }

  // ---------------------------------------------------------------- push, test, roll back

  function Snapshot(f: Fields): Fields {
    map k | k in f && k in WRITABLE :: f[k]
  }

  /** `nginx -t` accepts exactly the loadable configurations; None when it could not be run. */
  method NginxTest(npm: Npm) returns (v: Option<bool>)
    ensures v.Some? ==> v.value == Loadable(npm.t)
  {
    var runnable: bool := *;
    v := if runnable then Some(Loadable(npm.t)) else None;
  }

  /** A push undone: the snapshot replayed over the host that was updated, or the host that was
      created deleted. */
  ghost predicate Undone(t0: Tables, body: Fields, h: nat, t1: Tables) {
    if h in t0.hosts then t1 == t0.(hosts := t0.hosts[h := t0.hosts[h] + body + Snapshot(t0.hosts[h])])
    else t1 == t0.(nextHost := t0.nextHost + 1)
  }

  ghost predicate PushPost(t0: Tables, domain: string, body: Fields, verdict: Option<bool>,
                           t1: Tables, r: Result<nat, HostError>) {
    match r
    case Ok(h) =>
      && Pushed(t0, domain, body, t1, h) && verdict != Some(false)
      && (verdict.Some? ==> Loadable(t1))
    case Err(NpmFailed(_)) =>
      verdict.None? && (t1 == t0 || exists h :: Pushed(t0, domain, body, t1, h))
    case Err(DnsCut) => verdict.None? && t1 == t0
    case Err(RolledBack) =>
      verdict == Some(false)
      && exists m, h :: Pushed(t0, domain, body, m, h) && !Loadable(m) && Undone(t0, body, h, t1)
    case Err(RollbackFailed(_)) =>
      verdict == Some(false)
      && exists m, h :: Pushed(t0, domain, body, m, h) && !Loadable(m) && (t1 == m || Undone(t0, body, h, t1))
  }

  /** Confirm nginx accepts the configuration `m` a push produced, or undo the push. */
  method VerifyOrRollback(npm: Npm, ghost t0: Tables, domain: string, body: Fields, previous: Option<HostRec>, h: nat)
    returns (r: Result<nat, HostError>, ghost verdict: Option<bool>, ghost evs: seq<Event>)
    requires npm.Valid() && WellFormed(t0)
    requires Pushed(t0, domain, body, npm.t, h)
    requires previous.Some? <==> h in t0.hosts
    requires previous.Some? ==> previous.value == HostRec(h, t0.hosts[h])
    modifies npm
    ensures npm.Valid() && npm.log == old(npm.log) + evs
    ensures PushPost(t0, domain, body, verdict, npm.t, r)
    ensures verdict.None? ==> evs == [] && npm.t == old(npm.t) && r == Ok(h)
    ensures verdict == Some(false) ==> r.Err? && (r.error.RolledBack? <==> AllDone(evs))
    ensures r.Err? && r.error.Escapes() <==> !NoneCut(evs)
    ensures forall i | 0 <= i < |evs| :: evs[i].after == old(npm.t) || Undone(t0, body, h, evs[i].after)
    ensures forall i | 0 <= i < |evs| && evs[i].req.PutHost? :: evs[i].req.fields.Keys <= WRITABLE
  {
    ghost var m := npm.t;
    var ok := NginxTest(npm);
    verdict := ok;
    if ok != Some(false) {
      return Ok(h), verdict, [];
    }
    var req := if previous.Some? then PutHost(h, Snapshot(previous.value.fields)) else DeleteHost(h);
    var o := npm.Send(req);
    evs := [Event(req, o, npm.t)];
    assert evs[0].outcome == o;
    if o.TookEffect() && h in t0.hosts {
      assert npm.t.hosts == t0.hosts[h := t0.hosts[h] + body + Snapshot(t0.hosts[h])];
    } else if o.TookEffect() {
      assert npm.t.hosts == t0.hosts;
    }
    r := Err(if o.Failed() then RollbackFailed(RequestFailed(o)) else RolledBack);
  }

  /** A state a push can leave behind at any moment. */
  ghost predicate PushState(t0: Tables, domain: string, body: Fields, t: Tables) {
    || t == t0
    || (exists h :: Pushed(t0, domain, body, t, h))
    || (exists h :: (Lists(t0, h, domain) || (NoneLists(t0, domain) && h == t0.nextHost)) && Undone(t0, body, h, t))
  }

  ghost predicate PushStates(t0: Tables, domain: string, body: Fields, evs: seq<Event>) {
    forall i | 0 <= i < |evs| :: PushState(t0, domain, body, evs[i].after)
  }

  /** Apply a host to NPM: snapshot, upsert, test, and roll back what nginx refuses. */
  method PushHost(npm: Npm, domain: string, body: Fields)
    returns (r: Result<nat, HostError>, ghost verdict: Option<bool>, ghost evs: seq<Event>)
    requires npm.Valid() && OneHostPerDomain(npm.t)
    modifies npm
    ensures npm.Valid() && npm.log == old(npm.log) + evs
    ensures PushPost(old(npm.t), domain, body, verdict, npm.t, r)
    ensures PushStates(old(npm.t), domain, body, evs) && PushState(old(npm.t), domain, body, npm.t)
    ensures AllDone(evs) ==> r.Ok? || r.error.RolledBack?
    ensures r.Err? && r.error.Escapes() <==> !NoneCut(evs)
  {
    ghost var t0, log0 := npm.t, npm.log;
    var previous;
    ghost var find;
    previous, find := FindProxyHost(npm, domain);
    verdict := None;
    if previous.Err? {
      return Err(NpmFailed(previous.error)), verdict, find;
    }
    var upserted;
    ghost var write;
    upserted, write := UpsertProxyHost(npm, domain, body);
    Joined(find, write);
    evs := find + write;
    assert forall i | 0 <= i < |evs| :: evs[i] == if i == 0 then find[0] else write[i - 1];
    if upserted.Err? {
      return Err(NpmFailed(upserted.error)), verdict, evs;
    }
    var h := upserted.value;
    ghost var m := npm.t;
    assert previous.value.Some? <==> h in t0.hosts;
    ghost var undo;
    r, verdict, undo := VerifyOrRollback(npm, t0, domain, body, previous.value, h);
    Joined(evs, undo);
    UndoStates(t0, domain, body, m, h, evs, undo);
    evs := evs + undo;
  }

  lemma UndoStates(t0: Tables, domain: string, body: Fields, m: Tables, h: nat, evs: seq<Event>, undo: seq<Event>)
    requires PushStates(t0, domain, body, evs) && Pushed(t0, domain, body, m, h)
    requires forall i | 0 <= i < |undo| :: undo[i].after == m || Undone(t0, body, h, undo[i].after)
    ensures PushStates(t0, domain, body, evs + undo)
  {
    forall i | 0 <= i < |evs + undo|
      ensures PushState(t0, domain, body, (evs + undo)[i].after)
    {
      assert (evs + undo)[i] == if i < |evs| then evs[i] else undo[i - |evs|];
    }
  }

  // ---------------------------------------------------------------- what a push means

  /** The host forwards and is protected as the row says; SSL and HTTP/2 are asked for only on a host
      that has a certificate to serve. */
  ghost predicate Carries(f: Fields, row: Row) {
    Forwards(f, row) && Protects(f, row) && LeavesOff(f)
  }

  ghost predicate Forwards(f: Fields, row: Row) {
    && HasField(f, ForwardHost, Text(row.forwardHost)) && HasField(f, ForwardPort, Num(row.forwardPort))
    && HasField(f, ForwardScheme, Text(row.scheme)) && HasField(f, AllowWebsocketUpgrade, Flag(row.websockets))
  }

  ghost predicate Protects(f: Fields, row: Row) {
    && HasField(f, SslForced, Flag(row.forceSsl && CertOf(f) != 0))
    && HasField(f, Http2Support, Flag(row.http2 && CertOf(f) != 0))
    && HasField(f, BlockExploits, Flag(row.blockExploits))
  }

  /** What edgekit never turns on. */
  ghost predicate LeavesOff(f: Fields) {
    && HasField(f, HstsEnabled, Flag(false)) && HasField(f, HstsSubdomains, Flag(false))
    && HasField(f, CachingEnabled, Flag(false)) && HasField(f, AccessListId, Num(0))
    && HasField(f, AdvancedConfig, Text("")) && HasField(f, Locations, Names([]))
    && HasField(f, Meta, Challenge(false, false))
  }

  ghost predicate HasField(f: Fields, k: Key, v: Value) { k in f && f[k] == v }

  /** After a push that took hold NPM's host under the answered id has the row's domain alone, the
      certificate, and everything the row says. */
  lemma PushedCarries(t0: Tables, row: Row, cert: Option<nat>, verdict: Option<bool>, t1: Tables, h: nat)
    requires PushPost(t0, row.domain, Body(row, cert), verdict, t1, Ok(h))
    ensures h in t1.hosts && DomainsOf(t1.hosts[h]) == [row.domain]
    ensures CertOf(t1.hosts[h]) == if cert.Some? then cert.value else 0
    ensures Carries(t1.hosts[h], row)
    ensures HasField(t1.hosts[h], SslForced, Flag(true)) <==> row.forceSsl && CertOf(t1.hosts[h]) != 0
    ensures HasField(t1.hosts[h], Http2Support, Flag(true)) <==> row.http2 && CertOf(t1.hosts[h]) != 0
  {
    BodyKeys(row, cert);
    BodyValues(row, cert);
    BodyCarries(row, cert);
    SameFields(t1.hosts[h], Body(row, cert), row);
  }

  lemma SameFields(f: Fields, body: Fields, row: Row)
    requires body.Keys == WRITABLE + {Meta} && body.Keys <= f.Keys && forall k | k in body :: f[k] == body[k]
    requires Carries(body, row)
    ensures Carries(f, row) && CertOf(f) == CertOf(body) && DomainsOf(f) == DomainsOf(body)
  {
  }

  lemma BodyCarries(row: Row, cert: Option<nat>)
    ensures Carries(Body(row, cert), row)
  {
    BodyForwards(row, cert);
    BodyProtects(row, cert);
    BodyLeavesOff(row, cert);
  }

  lemma BodyForwards(row: Row, cert: Option<nat>)
    ensures Forwards(Body(row, cert), row)
  {
  }

  lemma BodyProtects(row: Row, cert: Option<nat>)
    ensures Protects(Body(row, cert), row)
  {
    BodyValues(row, cert);
  }

  lemma BodyLeavesOff(row: Row, cert: Option<nat>)
    ensures LeavesOff(Body(row, cert))
  {
  }

  /** At most one host per domain is kept at every moment of a push. */
  lemma PushStateKeepsOneHostPerDomain(t0: Tables, domain: string, body: Fields, t: Tables)
    requires WellFormed(t0) && OneHostPerDomain(t0) && PushState(t0, domain, body, t)
    requires DomainsOf(body) == [domain] && DomainNames in body
    ensures OneHostPerDomain(t)
  {
    if t != t0 {
      if h :| Pushed(t0, domain, body, t, h) {
        PushKeepsOneHostPerDomain(t0, domain, body, t, h);
      } else {
        var h :| (Lists(t0, h, domain) || (NoneLists(t0, domain) && h == t0.nextHost)) && Undone(t0, body, h, t);
        if h in t0.hosts {
          UndoneHost(t0, domain, body, h, t);
        }
      }
    }
  }

  lemma UndoneHost(t0: Tables, domain: string, body: Fields, h: nat, t: Tables)
    requires Lists(t0, h, domain) && Undone(t0, body, h, t)
    ensures t.hosts.Keys == t0.hosts.Keys && t.certs == t0.certs
    ensures DomainsOf(t.hosts[h]) == DomainsOf(t0.hosts[h])
    ensures forall k | k in t0.hosts && k != h :: t.hosts[k] == t0.hosts[k]
  {
    assert DomainNames in t0.hosts[h] && DomainNames in Snapshot(t0.hosts[h]);
  }

  /** The writable part of a host is the same on both sides. */
  ghost predicate SameWritable(f: Fields, g: Fields) {
    forall k | k in WRITABLE :: (k in f <==> k in g) && (k in f ==> f[k] == g[k])
  }

  /** A rolled-back update leaves every other host alone, and restores every writable field of the
      updated one exactly when the server reported all of them in the first place. */
  lemma RollbackRestores(t0: Tables, row: Row, cert: Option<nat>, h: nat, t1: Tables)
    requires Lists(t0, h, row.domain) && Undone(t0, Body(row, cert), h, t1)
    ensures t1.hosts.Keys == t0.hosts.Keys && t1.certs == t0.certs
    ensures forall k | k in t0.hosts && k != h :: t1.hosts[k] == t0.hosts[k]
    ensures SameWritable(t0.hosts[h], t1.hosts[h]) <==> WRITABLE <= t0.hosts[h].Keys
    ensures CertificateId in t0.hosts[h] ==> (Loadable(t1) <==> Loadable(t0))
  {
    RollbackCoversPush(row, cert);
    UndoneHost(t0, row.domain, Body(row, cert), h, t1);
    RestoredFields(t0.hosts[h], Body(row, cert), t1.hosts[h]);
    if CertificateId in t0.hosts[h] {
      LoadableSame(t0, t1, h);
    }
  }

  lemma RestoredFields(f: Fields, body: Fields, g: Fields)
    requires g == f + body + Snapshot(f) && WRITABLE <= body.Keys
    ensures SameWritable(f, g) <==> WRITABLE <= f.Keys
    ensures CertificateId in f ==> CertOf(g) == CertOf(f)
  {
    assert forall k | k in WRITABLE && k in f :: g[k] == f[k];
    assert forall k | k in WRITABLE :: k in g;
  }

  lemma LoadableSame(t0: Tables, t1: Tables, h: nat)
    requires h in t0.hosts && t1.hosts.Keys == t0.hosts.Keys && t1.certs == t0.certs
    requires forall k | k in t0.hosts && k != h :: t1.hosts[k] == t0.hosts[k]
    requires CertOf(t1.hosts[h]) == CertOf(t0.hosts[h])
    ensures Loadable(t1) <==> Loadable(t0)
  {
    assert forall k | k in t0.hosts :: CertOf(t1.hosts[k]) == CertOf(t0.hosts[k]);
  }

  /** A rolled-back creation leaves the table of hosts exactly as it was. */
  lemma RollbackRemovesNewHost(t0: Tables, row: Row, cert: Option<nat>, h: nat, t1: Tables)
    requires h !in t0.hosts && Undone(t0, Body(row, cert), h, t1)
    ensures t1.hosts == t0.hosts && t1.certs == t0.certs
  {
  }

  /** On a server that answers every request and whose hosts carry all writable fields, a push that
      is tested either takes hold and leaves nginx loadable, or leaves every host's writable fields
      and the set of hosts as they were. */
  lemma PushIsTransactional(t0: Tables, row: Row, cert: Option<nat>, verdict: Option<bool>,
                            t1: Tables, r: Result<nat, HostError>)
    requires WellFormed(t0) && OneHostPerDomain(t0)
    requires PushPost(t0, row.domain, Body(row, cert), verdict, t1, r)
    requires verdict.Some? && (r.Ok? || r.error.RolledBack?)
    requires forall h | Lists(t0, h, row.domain) :: WRITABLE <= t0.hosts[h].Keys
    ensures r.Ok? <==> verdict.value
    ensures r.Ok? ==> Loadable(t1) && Pushed(t0, row.domain, Body(row, cert), t1, r.value)
    ensures r.Err? ==>
              && t1.hosts.Keys == t0.hosts.Keys && t1.certs == t0.certs
              && forall h | h in t0.hosts :: SameWritable(t0.hosts[h], t1.hosts[h])
    ensures r.Err? ==> (Loadable(t1) <==> Loadable(t0))
  {
    if r.Err? {
      var m, h :| Pushed(t0, row.domain, Body(row, cert), m, h) && !Loadable(m) && Undone(t0, Body(row, cert), h, t1);
      if h in t0.hosts {
        RollbackRestores(t0, row, cert, h, t1);
        forall k | k in t0.hosts
          ensures SameWritable(t0.hosts[k], t1.hosts[k])
        {
          if k != h {
            assert t1.hosts[k] == t0.hosts[k];
          }
        }
      } else {
        RollbackRemovesNewHost(t0, row, cert, h, t1);
      }
    }
  }
}
