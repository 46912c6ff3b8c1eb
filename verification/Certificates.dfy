/** Installing certificates: what is uploaded, which hosts move, and what is recorded. */
module Certificates {
  import opened Common
  import opened NpmServer
  import opened NpmClient
  import opened Store

  datatype Answer = Unchanged(id: nat) | Skipped(id: nat) | Installed(id: nat) | Reused(id: nat) | Issued(id: nat)

  datatype CertError = NpmFailed(error: NpmError) | NotConfigured | BadEmail | IssueFailed

  const DAY := 86400

  // ---------------------------------------------------------------- moving off the recorded one

  ghost function Previous(prev: Option<nat>, id: nat): set<nat> {
    if prev.Some? && prev.value != id then {prev.value} else {}
  }

  /** Move NPM's hosts off the certificate recorded before. */
  method MoveHosts(npm: Npm, prev: Option<nat>, id: nat) returns (r: Result<(), NpmError>, ghost evs: seq<Event>)
    requires npm.Valid()
    modifies npm
    ensures npm.Valid() && npm.log == old(npm.log) + evs
    ensures r.Ok? <==> NoneFailed(evs)
    ensures MovedBy(old(npm.t), evs, npm.t, Previous(prev, id), id)
  {
    if prev.Some? && prev.value != id {
      r, evs := RepointHosts(npm, prev.value, id);
    } else {
      r, evs := Ok(()), [];
      assert npm.t.hosts == Moved(npm.t.hosts, {}, id);
    }
  }

  // ---------------------------------------------------------------- uploads

  /** The records an upload replaces the hosts of. */
  ghost function Replaced(t0: Tables, name: string, prev: Option<nat>): set<nat> {
    Labelled(t0, name) + Previous(prev, t0.nextCert)
  }

  /** An upload followed by a move off the recorded certificate. */
  ghost predicate CustomPost(t0: Tables, name: string, pem: Pem, prev: Option<nat>, evs: seq<Event>,
                             t1: Tables, r: Result<nat, NpmError>) {
    var id := t0.nextCert;
    && SafeThroughout(t0, evs) && NoWorse(t0, t1)
    && PartlyMoved(t0.hosts, t1.hosts, Replaced(t0, name, prev), id)
    && CertFootprint(t0, t1, name, pem)
    && (r.Ok? ==>
          && r.value == id && NoneFailed(evs) && t1.nextCert == id + 1
          && id in t1.certs && t1.certs[id] == Cert(name, Custom, Some(pem), [], None))
    && (AllDone(evs) ==>
          && r.Ok?
          && t1.hosts == Moved(t0.hosts, Replaced(t0, name, prev), id)
          && t1.certs == (t0.certs - Labelled(t0, name))[id := Cert(name, Custom, Some(pem), [], None)])
  }

  lemma UploadThenMove(t0: Tables, m: Tables, t1: Tables, name: string, pem: Pem, prev: Option<nat>,
                       up: seq<Event>, moves: seq<Event>, r: Result<nat, NpmError>)
    requires WellFormed(t0) && UploadPost(t0, name, pem, up, m, Ok(t0.nextCert))
    requires MovedBy(m, moves, t1, Previous(prev, t0.nextCert), t0.nextCert)
    requires r.Ok? <==> NoneFailed(moves)
    requires r.Ok? ==> r.value == t0.nextCert
    ensures CustomPost(t0, name, pem, prev, up + moves, t1, r)
  {
    var id, a, b := t0.nextCert, Labelled(t0, name), Previous(prev, t0.nextCert);
    OnlyMovesSafe(m, moves, b, id);
    SafeFrom(t0, m, moves);
    SafeConcat(t0, up, moves);
    MovingToServableIsSafe(m, t1, b, id);
    NoWorseTransitive(t0, m, t1);
    PartlyMovedCompose(t0.hosts, m.hosts, t1.hosts, a, b, id);
    Joined(up, moves);
    if AllDone(up + moves) {
      HonestUpload(t0, name, pem, up, m, Ok(id));
      MovedCompose(t0.hosts, a, b, id);
    }
  }

  lemma UploadFailed(t0: Tables, t1: Tables, name: string, pem: Pem, prev: Option<nat>,
                     up: seq<Event>, error: NpmError)
    requires WellFormed(t0) && UploadPost(t0, name, pem, up, t1, Err(error))
    ensures CustomPost(t0, name, pem, prev, up, t1, Err(error))
  {
  }

  method UploadAndMove(npm: Npm, name: string, pem: Pem, prev: Option<nat>)
    returns (r: Result<nat, NpmError>, ghost evs: seq<Event>)
    requires npm.Valid()
    modifies npm
    ensures npm.Valid() && npm.log == old(npm.log) + evs
    ensures CustomPost(old(npm.t), name, pem, prev, evs, npm.t, r)
  {
    ghost var t0 := npm.t;
    r, evs := UploadCustomCertificate(npm, name, pem);
    if r.Err? {
      UploadFailed(t0, npm.t, name, pem, prev, evs, r.error);
      return;
    }
    ghost var m, up := npm.t, evs;
    var moved;
    ghost var moves;
    moved, moves := MoveHosts(npm, prev, r.value);
    Joined(up, moves);
    evs := up + moves;
    if moved.Err? {
      r := Err(moved.error);
    }
    UploadThenMove(t0, m, npm.t, name, pem, prev, up, moves, r);
  }

  // ---------------------------------------------------------------- operator-supplied certificate

  ghost function RecordOf(id: nat, name: string, pem: Pem): Recorded {
    Recorded(Some(id), name, Some(pem.der.expires), Some(pem.der), Origin)
  }

  /** The settings say this exact certificate is the installed one. */
  ghost predicate RecordMatches(c: Recorded, pem: Pem) {
    c.id.Some? && c.fingerprint == Some(pem.der) && c.ForOrigin()
  }

  /** The NPM id already serving this exact certificate, if there is one. */
  method AlreadyInstalled(c: Recorded, npm: Npm, pem: Pem)
    returns (r: Result<Option<nat>, NpmError>, ghost evs: seq<Event>)
    requires npm.Valid()
    modifies npm
    ensures npm.Valid() && npm.log == old(npm.log) + evs && npm.t == old(npm.t)
    ensures |evs| <= 1 && OnlyReads(evs) && SafeThroughout(npm.t, evs)
    ensures r.Ok? <==> NoneFailed(evs)
    ensures r.Ok? <==> AllDone(evs)
    ensures r.Ok? ==> r.value == if RecordMatches(c, pem) && c.id.value in npm.t.certs then c.id else None
  {
    if c.id.None? || c.fingerprint.None? || c.kind.LetsEncrypted? || c.fingerprint.value != pem.der {
      return Ok(None), [];
    }
    var found;
    found, evs := CertificateExists(npm, c.id.value);
    r := if found.Err? then Err(found.error) else Ok(if found.value then c.id else None);
  }

  ghost predicate ManualPost(c0: Recorded, t0: Tables, name: string, pem: Pem, force: bool, evs: seq<Event>,
                             c1: Recorded, t1: Tables, r: Result<Answer, CertError>) {
    && SafeThroughout(t0, evs) && NoWorse(t0, t1)
    && (r.Err? ==> c1 == c0)
    && (r.Ok? ==> r.value.Unchanged? || r.value.Installed?)
    && (r.Ok? && r.value.Unchanged? ==>
          && !force && RecordMatches(c0, pem) && c0.id.value in t0.certs && r.value.id == c0.id.value
          && OnlyReads(evs) && t1 == t0 && c1 == c0)
    && (!force && RecordMatches(c0, pem) && c0.id.value in t0.certs && AllDone(evs) ==>
          r == Ok(Unchanged(c0.id.value)))
    && (r.Ok? && r.value.Installed? ==>
          CustomPost(t0, name, pem, c0.id, evs, t1, Ok(r.value.id)) && c1 == RecordOf(r.value.id, name, pem))
    && (r.Err? ==> t1 == t0 || exists e :: CustomPost(t0, name, pem, c0.id, evs, t1, Err(e)))
    && (AllDone(evs) ==> r.Ok?)
  }

  lemma ReadThenUpload(t0: Tables, x: seq<Event>, name: string, pem: Pem, prev: Option<nat>, evs: seq<Event>,
                       t1: Tables, r: Result<nat, NpmError>)
    requires CustomPost(t0, name, pem, prev, evs, t1, r)
    requires SafeThroughout(t0, x) && AllDone(x)
    ensures CustomPost(t0, name, pem, prev, x + evs, t1, r)
  {
    SafeConcat(t0, x, evs);
    Joined(x, evs);
  }

  /** Install an operator-supplied certificate. Installing the installed one changes nothing. */
  method InstallManual(session: Session, npm: Npm, name: string, pem: Pem, force: bool)
    returns (r: Result<Answer, CertError>, ghost evs: seq<Event>)
    requires npm.Valid()
    modifies session`live, npm
    ensures npm.Valid() && npm.log == old(npm.log) + evs
    ensures session.live == old(session.live).(cert := session.live.cert)
    ensures ManualPost(old(session.live.cert), old(npm.t), name, pem, force, evs, session.live.cert, npm.t, r)
  {
    ghost var t0 := npm.t;
    var c0 := session.live.cert;
    ghost var head: seq<Event> := [];
    if !force {
      var same;
      same, head := AlreadyInstalled(c0, npm, pem);
      if same.Err? {
        return Err(NpmFailed(same.error)), head;
      }
      if same.value.Some? {
        return Ok(Unchanged(same.value.value)), head;
      }
    }
    var uploaded;
    ghost var rest;
    uploaded, rest := UploadAndMove(npm, name, pem, c0.id);
    ReadThenUpload(t0, head, name, pem, c0.id, rest, npm.t, uploaded);
    Joined(head, rest);
    evs := head + rest;
    if uploaded.Err? {
      return Err(NpmFailed(uploaded.error)), evs;
    }
    session.live := session.live.(cert := Recorded(Some(uploaded.value), name, Some(pem.der.expires), Some(pem.der), Origin));
    r := Ok(Installed(uploaded.value));
  }

  // ---------------------------------------------------------------- certificate issued by Cloudflare

  /** A recorded Origin certificate good for more than thirty days. */
  ghost predicate StillGood(c: Recorded, now: int) {
    c.ForOrigin() && c.id.Some? && c.expires.Some? && c.expires.value > now + 30 * DAY
  }

  ghost predicate IssuePost(c0: Recorded, t0: Tables, name: string, issued: Option<Pem>, now: int, force: bool,
                            evs: seq<Event>, c1: Recorded, t1: Tables, r: Result<Answer, CertError>) {
    && SafeThroughout(t0, evs) && NoWorse(t0, t1)
    && (r.Err? ==> c1 == c0)
    && (r.Ok? ==> r.value.Skipped? || r.value.Installed?)
    && (r.Ok? && r.value.Skipped? ==>
          !force && StillGood(c0, now) && r.value.id == c0.id.value && evs == [] && t1 == t0 && c1 == c0)
    && (r.Ok? && r.value.Installed? ==>
          && (force || !StillGood(c0, now)) && issued.Some?
          && CustomPost(t0, name, issued.value, c0.id, evs, t1, Ok(r.value.id))
          && c1 == RecordOf(r.value.id, name, issued.value))
    && (r.Err? ==> t1 == t0 || (issued.Some? && exists e :: CustomPost(t0, name, issued.value, c0.id, evs, t1, Err(e))))
  }

  /** Issue an Origin certificate and install it, unless a good one is recorded. `issued` is what
      Cloudflare's certificate authority answers, None when it fails. */
  method IssueAndInstall(session: Session, npm: Npm, configured: bool, name: string, issued: Option<Pem>,
                         now: int, force: bool)
    returns (r: Result<Answer, CertError>, ghost evs: seq<Event>)
    requires npm.Valid()
    modifies session`live, npm
    ensures npm.Valid() && npm.log == old(npm.log) + evs
    ensures session.live == old(session.live).(cert := session.live.cert)
    ensures IssuePost(old(session.live.cert), old(npm.t), name, issued, now, force, evs, session.live.cert, npm.t, r)
    ensures !configured ==> r.Err?
    ensures configured && !force && StillGood(old(session.live.cert), now) ==> r.Ok?
    ensures configured && issued.Some? && AllDone(evs) ==> r.Ok?
  {
    if !configured {
      return Err(NotConfigured), [];
    }
    var c0 := session.live.cert;
    if !force && !c0.kind.LetsEncrypted? && c0.id.Some? && c0.expires.Some? {
      if c0.expires.value > now + 30 * DAY {
        return Ok(Skipped(c0.id.value)), [];
      }
    }
    if issued.None? {
      return Err(IssueFailed), [];
    }
    var uploaded;
    uploaded, evs := UploadAndMove(npm, name, issued.value, c0.id);
    if uploaded.Err? {
      return Err(NpmFailed(uploaded.error)), evs;
    }
    var der := issued.value.der;
    session.live := session.live.(cert := Recorded(Some(uploaded.value), name, Some(der.expires), Some(der), Origin));
    r := Ok(Installed(uploaded.value));
  }

  // ---------------------------------------------------------------- Let's Encrypt

  ghost predicate NotDue(expires: Option<int>, now: int) {
    expires.None? || expires.value - now > 30 * DAY
  }

  ghost predicate Newest(t: Tables, b: nat, domains: seq<string>) {
    b in t.certs && forall c | c in t.certs && IssuedFor(t.certs[c], domains) :: NotLater(t.certs[c].expires, t.certs[b].expires)
  }

  /** The newest certificate for these names is due for renewal, or there is none. */
  ghost predicate RenewalDue(t: Tables, domains: seq<string>, now: int) {
    || (forall c | c in t.certs :: !IssuedFor(t.certs[c], domains))
    || exists b :: && b in t.certs && IssuedFor(t.certs[b], domains) && !NotDue(t.certs[b].expires, now)
                   && Newest(t, b, domains)
  }

  /** Every host is as it was, or was on the recorded certificate and differs in its certificate only. */
  ghost predicate OnlyLeft(h0: map<nat, Fields>, h1: map<nat, Fields>, prev: Option<nat>) {
    && h0.Keys == h1.Keys
    && forall h | h in h0 ::
         || h1[h] == h0[h]
         || (Some(CertOf(h0[h])) == prev && h1[h] == h0[h][CertificateId := Num(CertOf(h1[h]))])
  }

  ghost predicate LetsEncryptPost(c0: Recorded, t0: Tables, name: string, domains: seq<string>, now: int, force: bool,
                                  evs: seq<Event>, c1: Recorded, t1: Tables, r: Result<Answer, CertError>) {
    && SafeThroughout(t0, evs) && NoWorse(t0, t1)
    && MaybeIssued(t0, t1.(hosts := t0.hosts), name, domains)
    && OnlyLeft(t0.hosts, t1.hosts, c0.id)
    && (r.Err? ==> c1 == c0)
    && (r.Ok? ==>
          var id := r.value.id;
          && (r.value.Reused? || r.value.Issued?)
          && id in t1.certs && IssuedFor(t1.certs[id], domains)
          && c1 == Recorded(Some(id), name, t1.certs[id].expires, None, LetsEncrypted)
          && PartlyMoved(t0.hosts, t1.hosts, Previous(c0.id, id), id)
          && (NoneIgnored(evs) ==> t1.hosts == Moved(t0.hosts, Previous(c0.id, id), id))
          && (r.value.Reused? ==>
                !force && t1.certs == t0.certs && NotDue(t1.certs[id].expires, now) && Newest(t1, id, domains))
          && (r.value.Issued? ==> id == t0.nextCert && t1.nextCert == id + 1 && (force || RenewalDue(t0, domains, now))))
  }

  lemma NoneFailedNoneIgnored(evs: seq<Event>)
    requires NoneFailed(evs) && NoneIgnored(evs)
    ensures AllDone(evs)
  {
    forall i | 0 <= i < |evs|
      ensures evs[i].outcome.Done?
    {
      assert !evs[i].outcome.Failed() && !evs[i].outcome.Ignored?;
    }
  }

  lemma IssueThenMove(c0: Recorded, t0: Tables, m: Tables, t1: Tables, name: string, domains: seq<string>,
                      now: int, force: bool, head: seq<Event>, moves: seq<Event>, c1: Recorded,
                      a: Answer, r: Result<Answer, CertError>)
    requires WellFormed(t0) && SafeThroughout(t0, head) && MaybeIssued(t0, m, name, domains)
    requires MovedBy(m, moves, t1, Previous(c0.id, a.id), a.id)
    requires a.id in m.certs && IssuedFor(m.certs[a.id], domains) && m.certs[a.id].pem.Some?
    requires a.Reused? ==> !force && m == t0 && NotDue(m.certs[a.id].expires, now) && Newest(m, a.id, domains)
    requires a.Issued? ==> a.id == t0.nextCert && m.nextCert == a.id + 1 && (force || RenewalDue(t0, domains, now))
    requires a.Reused? || a.Issued?
    requires r.Ok? <==> NoneFailed(moves)
    requires r.Ok? ==> r.value == a && c1 == Recorded(Some(a.id), name, m.certs[a.id].expires, None, LetsEncrypted)
    requires r.Err? ==> c1 == c0
    ensures LetsEncryptPost(c0, t0, name, domains, now, force, head + moves, c1, t1, r)
  {
    var b := Previous(c0.id, a.id);
    IssuingIsSafe(t0, m, name, domains);
    OnlyMovesSafe(m, moves, b, a.id);
    SafeFrom(t0, m, moves);
    SafeConcat(t0, head, moves);
    MovingToServableIsSafe(m, t1, b, a.id);
    NoWorseTransitive(t0, m, t1);
    NoneIgnoredConcat(head, moves);
    assert t1.(hosts := t0.hosts) == m;
    if NoneFailed(moves) && NoneIgnored(moves) {
      NoneFailedNoneIgnored(moves);
    }
  }

  /** The certificate direct mode serves: one NPM already holds for these names and will renew, or
      a new one. */
  method ObtainLetsEncrypt(npm: Npm, name: string, domains: seq<string>, now: int, force: bool)
    returns (r: Result<(Answer, Option<int>), CertError>, ghost evs: seq<Event>)
    requires npm.Valid()
    modifies npm
    ensures npm.Valid() && npm.log == old(npm.log) + evs
    ensures SafeThroughout(old(npm.t), evs) && NoneIgnored(evs)
    ensures MaybeIssued(old(npm.t), npm.t, name, domains)
    ensures r.Ok? ==>
              var a := r.value.0;
              && a.id in npm.t.certs && IssuedFor(npm.t.certs[a.id], domains)
              && npm.t.certs[a.id].expires == r.value.1
              && (a.Reused? ==>
                    !force && npm.t == old(npm.t) && NotDue(npm.t.certs[a.id].expires, now) && Newest(npm.t, a.id, domains))
              && (a.Issued? ==> a.id == old(npm.t).nextCert && npm.t.nextCert == a.id + 1
                                && (force || RenewalDue(old(npm.t), domains, now)))
              && (a.Reused? || a.Issued?)
    ensures AllDone(evs) ==> r.Ok?
  {
    ghost var t0, head: seq<Event> := npm.t, [];
    if !force {
      var found;
      found, head := FindLetsEncrypt(npm, domains);
      if found.Err? {
        return Err(NpmFailed(found.error)), head;
      }
      if found.value.Some? {
        var best := found.value.value;
        var due := best.cert.expires;
        if due.None? || due.value - now > 30 * DAY {
          return Ok((Reused(best.id), best.cert.expires)), head;
        }
        assert npm.t.certs[best.id] == best.cert;
      }
      assert RenewalDue(t0, domains, now);
    }
    var created;
    ghost var made;
    created, made := CreateLetsEncrypt(npm, name, domains);
    Joined(head, made);
    NoneIgnoredConcat(head, made);
    SafeConcat(t0, head, made);
    evs := head + made;
    r := if created.Err? then Err(IssueFailed) else Ok((Issued(created.value.0), created.value.1));
  }

  method InstallLetsEncrypt(session: Session, npm: Npm, configured: bool, emailUsable: bool, name: string,
                            domains: seq<string>, now: int, force: bool)
    returns (r: Result<Answer, CertError>, ghost evs: seq<Event>)
    requires npm.Valid()
    modifies session`live, npm
    ensures npm.Valid() && npm.log == old(npm.log) + evs
    ensures session.live == old(session.live).(cert := session.live.cert)
    ensures LetsEncryptPost(old(session.live.cert), old(npm.t), name, domains, now, force, evs,
                            session.live.cert, npm.t, r)
    ensures !configured || !emailUsable ==> r.Err?
    ensures configured && emailUsable && AllDone(evs) ==> r.Ok?
  {
    if !configured {
      return Err(NotConfigured), [];
    }
    if !emailUsable {
      return Err(BadEmail), [];
    }
    ghost var t0 := npm.t;
    var c0 := session.live.cert;
    var obtained;
    ghost var head;
    obtained, head := ObtainLetsEncrypt(npm, name, domains, now, force);
    IssuingIsSafe(t0, npm.t, name, domains);
    if obtained.Err? {
      return Err(obtained.error), head;
    }
    ghost var m := npm.t;
    var (answer, expires) := obtained.value;
    var moved;
    ghost var moves;
    moved, moves := MoveHosts(npm, c0.id, answer.id);
    Joined(head, moves);
    evs := head + moves;
    if moved.Err? {
      r := Err(NpmFailed(moved.error));
    } else {
      session.live := session.live.(cert := Recorded(Some(answer.id), name, expires, None, LetsEncrypted));
      r := Ok(answer);
    }
    IssueThenMove(c0, t0, m, npm.t, name, domains, now, force, head, moves, session.live.cert, answer, r);
  }

  // ---------------------------------------------------------------- in days

  /** An issue answers without error only if it installed a certificate or the recorded one has more
      than thirty days left; so a certificate with thirty days or less is always replaced. */
  lemma SkippedHasThirtyDays(c0: Recorded, t0: Tables, name: string, issued: Option<Pem>, now: int, force: bool,
                             evs: seq<Event>, c1: Recorded, t1: Tables, a: Answer)
    requires IssuePost(c0, t0, name, issued, now, force, evs, c1, t1, Ok(a))
    ensures a.Installed? ==> issued.Some? && c1.expires == Some(issued.value.der.expires) && c1.id == Some(a.id)
    ensures !a.Installed? ==> c1.expires.Some? && c1.expires.value - now > 30 * 86400
    ensures c0.expires.Some? && c0.expires.value - now <= 30 * 86400 ==> a.Installed?
    ensures !force && c0.id.Some? && c0.expires.Some? && c0.expires.value - now > 30 * 86400 && (c0.kind == Unset || c0.kind == Origin) ==>
              a == Skipped(c0.id.value)
  {
  }

  /** Direct mode reuses the longest-lived certificate for its names, and only while it has more than
      thirty days left or no known end. */
  lemma ReusedHasThirtyDays(c0: Recorded, t0: Tables, name: string, domains: seq<string>, now: int, force: bool,
                            evs: seq<Event>, c1: Recorded, t1: Tables, a: Answer, c: nat)
    requires LetsEncryptPost(c0, t0, name, domains, now, force, evs, c1, t1, Ok(a))
    ensures a.Reused? && c1.expires.Some? ==> c1.expires.value - now > 30 * 86400
    ensures a.Reused? && c in t0.certs && IssuedFor(t0.certs[c], domains) && t0.certs[c].expires.Some? ==>
              c1.expires.Some? && t0.certs[c].expires.value <= c1.expires.value
    ensures (&& !force && c in t0.certs && IssuedFor(t0.certs[c], domains)
             && t0.certs[c].expires.Some? && t0.certs[c].expires.value - now > 30 * 86400)
            ==> a.Reused?
  {
  }

  /** "Unchanged" is what a re-install of the recorded certificate answers when NPM still holds it,
      also where an older release recorded no kind. */
  lemma UnchangedExactly(c0: Recorded, t0: Tables, name: string, pem: Pem, evs: seq<Event>, c1: Recorded, t1: Tables,
                         r: Result<Answer, CertError>)
    requires ManualPost(c0, t0, name, pem, false, evs, c1, t1, r) && AllDone(evs)
    ensures r.Ok? && (r.value.Unchanged? <==>
              c0.id.Some? && c0.id.value in t0.certs && c0.fingerprint == Some(pem.der) && (c0.kind == Unset || c0.kind == Origin))
  {
  }
}
