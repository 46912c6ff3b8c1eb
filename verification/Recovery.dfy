/** What an install followed by an attach brings about, from whatever earlier attempts left. */
module Recovery {
  import opened Common
  import opened NpmServer
  import opened NpmClient
  import opened ProxyHosts
  import opened Store
  import opened Certificates
  import opened Hosts

  // ---------------------------------------------------------------- installs and tidiness

  lemma MovesKeepDomains(t0: Tables, t1: Tables, olds: set<nat>, to: nat)
    requires PartlyMoved(t0.hosts, t1.hosts, olds, to)
    ensures forall h, d :: Lists(t1, h, d) <==> Lists(t0, h, d)
    ensures OneHostPerDomain(t0) ==> OneHostPerDomain(t1)
  {
    assert forall h | h in t0.hosts :: DomainsOf(t1.hosts[h]) == DomainsOf(t0.hosts[h]);
  }

  /** The ids in the rows were handed out before now. */
  ghost predicate RowsOld(t: Tables, rows: seq<Row>) {
    forall i | 0 <= i < |rows| && rows[i].npmCert.Some? :: rows[i].npmCert.value < t.nextCert
  }

  // ---------------------------------------------------------------- attaching, exactly

  /** Every row's host serves the current certificate. */
  ghost predicate AllServe(t: Tables, s: State) {
    forall i | 0 <= i < |s.rows| :: Serves(t, s.rows[i].domain, s.cert.id)
  }

  /** The rows that claim to be up to date are. */
  ghost predicate UpToDateRowsServe(t: Tables, s: State) {
    forall i | 0 <= i < |s.rows| && UpToDate(s.rows[i], s.cert.id) :: Serves(t, s.rows[i].domain, s.cert.id)
  }

  /** An attach that reports no failure puts every host on the current certificate if and only if
      the rows it passed over were telling the truth. */
  lemma AttachIsExact(s0: State, t0: Tables, managed: set<string>, s1: State, t1: Tables, moved: seq<string>)
    requires AttachPost(s0, t0, managed, s1, t1, Ok(moved))
    ensures AllServe(t1, s1) <==> UpToDateRowsServe(t0, s0)
    ensures s1.cert == s0.cert
    ensures forall i | 0 <= i < |s1.rows| :: s1.rows[i].npmHost.Some? && s1.rows[i].npmHost.value != 0 && s1.rows[i].npmCert == s1.cert.id
    ensures forall i | 0 <= i < |s1.rows| && !UpToDate(s0.rows[i], s0.cert.id) :: OnHost(t1, s1.rows[i])
  {
    forall i | 0 <= i < |s0.rows|
      ensures s1.rows[i].npmHost.Some? && s1.rows[i].npmHost.value != 0 && s1.rows[i].npmCert == s1.cert.id
      ensures UpToDate(s0.rows[i], s0.cert.id) || OnHost(t1, s1.rows[i])
      ensures s1.rows[i].domain == s0.rows[i].domain
      ensures Serves(t1, s1.rows[i].domain, s1.cert.id) <==>
              (UpToDate(s0.rows[i], s0.cert.id) ==> Serves(t0, s0.rows[i].domain, s0.cert.id))
    {
      OneRow(s0, t0, managed, s1, t1, moved, i);
    }
  }

  lemma OneRow(s0: State, t0: Tables, managed: set<string>, s1: State, t1: Tables, moved: seq<string>, i: nat)
    requires AttachPost(s0, t0, managed, s1, t1, Ok(moved)) && i < |s0.rows|
    ensures s1.rows[i].domain == s0.rows[i].domain
    ensures s1.rows[i].npmHost.Some? && s1.rows[i].npmHost.value != 0 && s1.rows[i].npmCert == s1.cert.id
    ensures UpToDate(s0.rows[i], s0.cert.id) || OnHost(t1, s1.rows[i])
    ensures Serves(t1, s1.rows[i].domain, s1.cert.id) <==>
            (UpToDate(s0.rows[i], s0.cert.id) ==> Serves(t0, s0.rows[i].domain, s0.cert.id))
  {
    var r0, r1, cert := s0.rows[i], s1.rows[i], s0.cert.id;
    assert RowKept(r0, r1, cert) && Handled(s0, s1, t1, i);
    if UpToDate(r0, cert) {
      SameForServes(t0, t1, r0.domain, cert);
    }
  }

  /** A new id is in no row yet, so an attach passes over nothing. */
  lemma FreshIdSkipsNothing(t: Tables, s: State)
    requires RowsOld(t, s.rows) && s.cert.id.Some? && s.cert.id.value >= t.nextCert
    ensures forall i | 0 <= i < |s.rows| :: !UpToDate(s.rows[i], s.cert.id)
  {
  }

  // ---------------------------------------------------------------- recovery

  /** From any state earlier installs can have left, with duplicate labels, hosts split over several
      records and stale ids in the rows, an install that succeeds followed by an attach that reports
      no failure leaves every managed host on the new certificate, in NPM and in its row, even when
      re-points were ignored. When the server did everything it answered, no older record is left
      under the label and no host was on one. */
  lemma InstallRecovers(c0: Recorded, rows: seq<Row>, t0: Tables, managed: set<string>, name: string, pem: Pem, force: bool,
                        evs: seq<Event>, c1: Recorded, t1: Tables, id: nat, s2: State, t2: Tables, moved: seq<string>)
    requires Tidy(t0, rows, managed) && RowsOld(t0, rows) && WellFormed(t1)
    requires ManualPost(c0, t0, name, pem, force, evs, c1, t1, Ok(Installed(id)))
    requires AttachPost(State(c1, rows), t1, managed, s2, t2, Ok(moved))
    ensures AllServe(t2, s2) && s2.cert.id == Some(id)
    ensures forall i | 0 <= i < |s2.rows| :: OnHost(t2, s2.rows[i]) && s2.rows[i].npmCert == Some(id)
    ensures id in t2.certs && t2.certs[id].pem == Some(pem)
    ensures AllDone(evs) ==>
              && Labelled(t2, name) == {id}
              && forall h | h in t1.hosts :: CertOf(t1.hosts[h]) !in Labelled(t0, name)
  {
    FreshIdSkipsNothing(t0, State(c1, rows));
    AttachIsExact(State(c1, rows), t1, managed, s2, t2, moved);
    if AllDone(evs) {
      LabelIsSwept(c0, t0, name, pem, force, evs, c1, t1, id);
    }
  }

  lemma LabelIsSwept(c0: Recorded, t0: Tables, name: string, pem: Pem, force: bool, evs: seq<Event>,
                     c1: Recorded, t1: Tables, id: nat)
    requires WellFormed(t0) && ManualPost(c0, t0, name, pem, force, evs, c1, t1, Ok(Installed(id))) && AllDone(evs)
    ensures Labelled(t1, name) == {id}
    ensures forall h | h in t1.hosts :: CertOf(t1.hosts[h]) !in Labelled(t0, name)
  {
    forall h | h in t1.hosts
      ensures CertOf(t1.hosts[h]) !in Labelled(t0, name)
    {
      assert t1.hosts[h] == Moved(t0.hosts, Replaced(t0, name, c0.id), id)[h];
    }
  }

  /** NPM has this domain on a host, and serves one of these certificates for it. */
  ghost predicate ServesOneOf(t: Tables, domain: string, ids: set<nat>) {
    && (exists h :: Lists(t, h, domain))
    && (forall h | Lists(t, h, domain) :: CertOf(t.hosts[h]) in ids)
  }

  lemma MovedServes(t0: Tables, t1: Tables, domain: string, olds: set<nat>, to: nat)
    requires t1.hosts == Moved(t0.hosts, olds, to)
    ensures Serves(t1, domain, Some(to)) <==> ServesOneOf(t0, domain, olds + {to})
  {
    MovesKeepDomains(t0, t1, olds, to);
    assert forall h | h in t0.hosts :: CertOf(t1.hosts[h]) == to <==> CertOf(t0.hosts[h]) in olds + {to};
    if h :| Lists(t0, h, domain) {
      assert Lists(t1, h, domain);
    }
    if h :| Lists(t1, h, domain) {
      assert Lists(t0, h, domain);
    }
  }

  /** Reusing a certificate NPM already holds recovers exactly when every row that already names it
      has its host on it, or on the certificate recorded before: those hosts are moved, and the
      hosts of all other rows are pushed. */
  lemma ReuseIsExact(c0: Recorded, rows: seq<Row>, t0: Tables, managed: set<string>, name: string, domains: seq<string>,
                     now: int, evs: seq<Event>, c1: Recorded, t1: Tables, id: nat, s2: State, t2: Tables, moved: seq<string>)
    requires LetsEncryptPost(c0, t0, name, domains, now, false, evs, c1, t1, Ok(Reused(id))) && NoneIgnored(evs)
    requires AttachPost(State(c1, rows), t1, managed, s2, t2, Ok(moved))
    ensures AllServe(t2, s2) <==>
            forall i | 0 <= i < |rows| && UpToDate(rows[i], Some(id)) :: ServesOneOf(t0, rows[i].domain, Previous(c0.id, id) + {id})
  {
    AttachIsExact(State(c1, rows), t1, managed, s2, t2, moved);
    forall i | 0 <= i < |rows|
      ensures Serves(t1, rows[i].domain, Some(id)) <==> ServesOneOf(t0, rows[i].domain, Previous(c0.id, id) + {id})
    {
      MovedServes(t0, t1, rows[i].domain, Previous(c0.id, id), id);
    }
  }

  // ---------------------------------------------------------------- a switch that half-fails

  // Direct mode with one host on Let's Encrypt certificate 5; an Origin install whose re-point takes
  // effect but is reported lost; then a switch back, which reuses certificate 5.

  const LE := Cert("Let's Encrypt - z", LetsEncrypt, Some(Pem(Der(1, 0), "le")), ["*.z", "z"], None)
  const ORIGIN := Pem(Der(2, 9), "origin")
  const RECORD := Recorded(Some(5), "Let's Encrypt - z", None, None, LetsEncrypted)
  const ROW := Row("a", "10.50.0.2", 80, "http", true, true, true, true, Some(1), Some(5), None)

  function OneHost(cert: nat): map<nat, Fields> {
    map[1 := map[DomainNames := Names(["a"]), CertificateId := Num(cert)]]
  }

  function BothCerts(pem: Option<Pem>): map<nat, Cert> {
    map[5 := LE, 6 := Cert("o", Custom, pem, [], None)]
  }

  const BEFORE := Tables(map[5 := LE], OneHost(5), 6, 2)
  const CREATED := Tables(BothCerts(None), OneHost(5), 7, 2)
  const UPLOADED := Tables(BothCerts(Some(ORIGIN)), OneHost(5), 7, 2)
  const WRECK := Tables(BothCerts(Some(ORIGIN)), OneHost(6), 7, 2)

  const HALF_SWITCH := [
    Event(GetCerts, Done, BEFORE),
    Event(CreateCert("o"), Done, CREATED),
    Event(UploadCert(6, ORIGIN), Done, UPLOADED),
    Event(GetHosts, Done, UPLOADED),
    Event(Repoint(1, 6), LostAfter, WRECK)
  ]

  lemma OnlyHostServes(t: Tables, cert: nat)
    requires t.hosts == OneHost(cert)
    ensures Serves(t, "a", Some(5)) <==> cert == 5
  {
    assert Lists(t, 1, "a") && CertOf(t.hosts[1]) == cert;
  }

  lemma TablesFollow()
    ensures CREATED.certs == BEFORE.certs[6 := Cert("o", Custom, None, [], None)]
    ensures UPLOADED.certs == CREATED.certs[6 := CREATED.certs[6].(pem := Some(ORIGIN))]
    ensures WRECK.hosts == UPLOADED.hosts[1 := UPLOADED.hosts[1][CertificateId := Num(6)]]
  {
    assert OneHost(5)[1][CertificateId := Num(6)] == OneHost(6)[1];
  }

  /** The server can answer the requests of such an install like that. */
  lemma HalfSwitchIsLegal()
    ensures WellFormed(BEFORE) && WellFormed(WRECK)
    ensures forall i | 0 <= i < |HALF_SWITCH| :: Legal(if i == 0 then BEFORE else HALF_SWITCH[i - 1].after, HALF_SWITCH[i])
  {
    TablesFollow();
    assert Legal(BEFORE, HALF_SWITCH[0]);
    assert Legal(BEFORE, HALF_SWITCH[1]);
    assert Legal(CREATED, HALF_SWITCH[2]);
    assert Legal(UPLOADED, HALF_SWITCH[3]);
    assert Legal(UPLOADED, HALF_SWITCH[4]);
  }

  lemma HalfSwitchIsSafe()
    ensures SafeThroughout(BEFORE, HALF_SWITCH) && NoWorse(BEFORE, WRECK) && !AllDone(HALF_SWITCH)
  {
    assert !HALF_SWITCH[4].outcome.Done?;
    assert NoWorse(BEFORE, CREATED);
    assert NoWorse(BEFORE, UPLOADED);
    assert NoWorse(BEFORE, WRECK);
  }

  /** The install then fails as specified: the record still names certificate 5 and so does the row,
      while NPM serves the host from 6. */
  lemma SwitchCanHalfFail()
    ensures ManualPost(RECORD, BEFORE, "o", ORIGIN, false, HALF_SWITCH, RECORD, WRECK, Err(CertError.NpmFailed(MovesFailed([1]))))
    ensures Serves(BEFORE, "a", RECORD.id) && UpToDate(ROW, RECORD.id) && !Serves(WRECK, "a", RECORD.id)
  {
    TablesFollow();
    HalfSwitchIsSafe();
    OnlyHostServes(BEFORE, 5);
    OnlyHostServes(WRECK, 6);
    assert PartlyMoved(BEFORE.hosts, WRECK.hosts, Replaced(BEFORE, "o", RECORD.id), 6);
    assert CertFootprint(BEFORE, WRECK, "o", ORIGIN);
    assert CustomPost(BEFORE, "o", ORIGIN, RECORD.id, HALF_SWITCH, WRECK, Err(MovesFailed([1])));
  }

  /** Switching back reuses certificate 5: nothing is moved, and an attach that reports no failure
      leaves the host on the Origin certificate. */
  lemma SwitchBackStrandsHost(now: int, evs: seq<Event>, c1: Recorded, t1: Tables, answer: Answer,
                              managed: set<string>, s2: State, t2: Tables, moved: seq<string>)
    requires LetsEncryptPost(RECORD, WRECK, "Let's Encrypt - z", ["*.z", "z"], now, false, evs, c1, t1, Ok(answer))
    requires answer == Reused(5)
    requires AttachPost(State(c1, [ROW]), t1, managed, s2, t2, Ok(moved))
    ensures moved == [] && !AllServe(t2, s2)
  {
    assert t1.hosts == WRECK.hosts;
    OnlyHostServes(t1, 6);
    AttachIsExact(State(c1, [ROW]), t1, managed, s2, t2, moved);
    var s := State(c1, [ROW]);
    assert s.rows[0] == ROW && UpToDate(ROW, Some(5)) && !Serves(t1, s.rows[0].domain, s.cert.id);
    assert s.rows[..0] == [] && Stale(s.rows[..0], Some(5)) == [];
    assert Stale(s.rows, Some(5)) == Stale(s.rows[..0], Some(5)) + [];
  }

  // ---------------------------------------------------------------- a skip that is not true

  /** The recorded certificate is an Origin certificate NPM holds. */
  ghost predicate OriginHeld(t: Tables, c: Recorded) {
    && c.ForOrigin() && c.id.Some? && c.id.value in t.certs
    && t.certs[c.id.value].provider.Custom? && t.certs[c.id.value].pem.Some?
  }

  /** An issue that answers without error leaves an Origin certificate in NPM exactly when it had to
      issue one, or the one it skips for is still there: it never asks. */
  lemma IssueIsExact(c0: Recorded, t0: Tables, name: string, issued: Option<Pem>, now: int, force: bool, evs: seq<Event>,
                     c1: Recorded, t1: Tables, a: Answer)
    requires IssuePost(c0, t0, name, issued, now, force, evs, c1, t1, Ok(a))
    ensures OriginHeld(t1, c1) <==> force || !StillGood(c0, now) || OriginHeld(t0, c0)
  {
  }

  // Proxied mode with one host on issued certificate 3; a forced re-issue creates certificate 4, moves
  // the host, and deletes certificate 3, which takes effect but is reported lost.

  const FIRST := Pem(Der(1, 100 * DAY), "first")
  const SECOND := Pem(Der(2, 100 * DAY), "second")
  const ISSUED := Recorded(Some(3), "o", Some(100 * DAY), Some(Der(1, 100 * DAY)), Origin)
  const ISSUED_ROW := ROW.(npmCert := Some(3))

  function Old(pem: Pem): Cert { Cert("o", Custom, Some(pem), [], None) }

  function ThreeAndFour(pem: Option<Pem>): map<nat, Cert> {
    map[3 := Old(FIRST), 4 := Cert("o", Custom, pem, [], None)]
  }

  const HELD := Tables(map[3 := Old(FIRST)], OneHost(3), 4, 2)
  const MADE := Tables(ThreeAndFour(None), OneHost(3), 5, 2)
  const FILLED := Tables(ThreeAndFour(Some(SECOND)), OneHost(3), 5, 2)
  const MOVED := Tables(ThreeAndFour(Some(SECOND)), OneHost(4), 5, 2)
  const GONE := Tables(map[4 := Old(SECOND)], OneHost(4), 5, 2)

  const HALF_ISSUE := [
    Event(GetCerts, Done, HELD),
    Event(CreateCert("o"), Done, MADE),
    Event(UploadCert(4, SECOND), Done, FILLED),
    Event(GetHosts, Done, FILLED),
    Event(Repoint(1, 4), Done, MOVED),
    Event(GetHosts, Done, MOVED),
    Event(DeleteCert(3), LostAfter, GONE)
  ]

  lemma IssueTablesFollow()
    ensures MADE.certs == HELD.certs[4 := Cert("o", Custom, None, [], None)]
    ensures FILLED.certs == MADE.certs[4 := MADE.certs[4].(pem := Some(SECOND))]
    ensures MOVED.hosts == FILLED.hosts[1 := FILLED.hosts[1][CertificateId := Num(4)]]
    ensures GONE.certs == MOVED.certs - {3}
  {
    assert OneHost(3)[1][CertificateId := Num(4)] == OneHost(4)[1];
  }

  /** The server can answer the requests of such an install like that. */
  lemma HalfIssueIsLegal()
    ensures WellFormed(HELD) && WellFormed(GONE)
    ensures forall i | 0 <= i < |HALF_ISSUE| :: Legal(if i == 0 then HELD else HALF_ISSUE[i - 1].after, HALF_ISSUE[i])
  {
    IssueTablesFollow();
    assert Legal(HELD, HALF_ISSUE[0]);
    assert Legal(HELD, HALF_ISSUE[1]);
    assert Legal(MADE, HALF_ISSUE[2]);
    assert Legal(FILLED, HALF_ISSUE[3]);
    assert Legal(FILLED, HALF_ISSUE[4]);
    assert Legal(MOVED, HALF_ISSUE[5]);
    assert Legal(MOVED, HALF_ISSUE[6]);
  }

  lemma HalfIssueIsSafe()
    ensures SafeThroughout(HELD, HALF_ISSUE) && NoWorse(HELD, GONE) && !AllDone(HALF_ISSUE)
  {
    assert !HALF_ISSUE[6].outcome.Done?;
    assert NoWorse(HELD, MADE);
    assert NoWorse(HELD, FILLED);
    assert NoWorse(HELD, MOVED);
    assert NoWorse(HELD, GONE);
  }

  /** The forced re-issue then fails as specified: the record still names certificate 3, good for a
      long time yet, and NPM no longer holds it. */
  lemma ReissueCanHalfFail()
    ensures IssuePost(ISSUED, HELD, "o", Some(SECOND), 0, true, HALF_ISSUE, ISSUED, GONE,
                      Err(CertError.NpmFailed(RequestFailed(LostAfter))))
    ensures OriginHeld(HELD, ISSUED) && StillGood(ISSUED, 0) && !OriginHeld(GONE, ISSUED)
  {
    IssueTablesFollow();
    HalfIssueIsSafe();
    assert PartlyMoved(HELD.hosts, GONE.hosts, Replaced(HELD, "o", ISSUED.id), 4);
    assert CertFootprint(HELD, GONE, "o", SECOND);
    assert CustomPost(HELD, "o", SECOND, ISSUED.id, HALF_ISSUE, GONE, Err(RequestFailed(LostAfter)));
  }

  /** The next issue answers "skipped" for the certificate that is gone, and an attach that reports no
      failure leaves the row naming it. */
  lemma SkippedThoughGone(issued: Option<Pem>, evs: seq<Event>, c1: Recorded, t1: Tables, a: Answer,
                          managed: set<string>, s2: State, t2: Tables, moved: seq<string>)
    requires IssuePost(ISSUED, GONE, "o", issued, 0, false, evs, c1, t1, Ok(a))
    requires AttachPost(State(c1, [ISSUED_ROW]), t1, managed, s2, t2, Ok(moved))
    ensures a == Skipped(3) && 3 !in t1.certs
    ensures s2.rows == [ISSUED_ROW] && !AllServe(t2, s2)
  {
    var s := State(c1, [ISSUED_ROW]);
    assert UpToDate(s.rows[0], s.cert.id);
    assert s2.rows[0] == s.rows[0];
    assert Lists(t1, 1, "a") && CertOf(t1.hosts[1]) == 4;
    AttachIsExact(s, t1, managed, s2, t2, moved);
    assert !Serves(t1, s.rows[0].domain, s.cert.id);
  }
}
