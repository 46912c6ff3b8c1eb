/** The Cloudflare zone and its API client: A records, proxy status, SSL mode, and removal of the
    records edgekit created. */
module Cloudflare {
  import opened Common

  const MANAGED_COMMENT := "Managed by edgekit"
  const STRICT := "strict"

  datatype RecordType = A | OtherType

  /** `proxiable` is Cloudflare's own verdict on whether its proxy can stand in front. */
  datatype Record = Record(id: nat, kind: RecordType, name: string, content: string,
                           proxied: bool, proxiable: bool, comment: string)

  /** The zone, with its records in the order Cloudflare lists them. */
  datatype Zone = Zone(records: seq<Record>, ssl: string, nextId: nat)

  ghost predicate ValidZone(z: Zone) {
    && (forall i, j | 0 <= i < j < |z.records| :: z.records[i].id != z.records[j].id)
    && (forall i | 0 <= i < |z.records| :: z.records[i].id < z.nextId)
    && (forall i | 0 <= i < |z.records| :: z.records[i].proxied ==> z.records[i].proxiable)
  }

  // ---------------------------------------------------------------- requests

  datatype Payload = Payload(name: string, content: string, proxied: bool, comment: string)

  datatype Request =
    | GetRecords
    | GetSsl
    | PutRecord(id: nat, payload: Payload)
    | PostRecord(payload: Payload)
    | PatchRecord(id: nat, proxied: bool)
    | DeleteRecord(id: nat)
    | PatchSsl(mode: string)

  /** A request that fails may still have taken effect. The `Lost` outcomes are answered with an
      error, the `Cut` ones not at all. */
  datatype Outcome = Done | LostBefore | LostAfter | CutBefore | CutAfter {
    predicate Cut() { CutBefore? || CutAfter? }
    predicate TookEffect() { Done? || LostAfter? || CutAfter? }
  }

  datatype Event = Event(req: Request, outcome: Outcome, after: Zone)

  function IndexOf(records: seq<Record>, id: nat): (r: Option<nat>)
    ensures r.Some? ==> r.value < |records| && records[r.value].id == id
    ensures r.None? ==> forall i | 0 <= i < |records| :: records[i].id != id
  {
    if records == [] then None
    else if records[0].id == id then Some(0)
    else match IndexOf(records[1..], id)
      case None => None
      case Some(k) => Some(k + 1)
  }

  /** The A record a payload describes; whether it can be proxied is the server's to say. */
  function Written(id: nat, p: Payload, proxiable: bool): Record {
    Record(id, A, p.name, p.content, p.proxied, proxiable, p.comment)
  }

  predicate Accepts(z: Zone, req: Request) {
    match req
    case PutRecord(id, _) => IndexOf(z.records, id).Some?
    case PatchRecord(id, p) =>
      IndexOf(z.records, id).Some? && (p ==> z.records[IndexOf(z.records, id).value].proxiable)
    case DeleteRecord(id) => IndexOf(z.records, id).Some?
    case _ => true
  }

  /** The zone after a request took effect; `proxiable` matters only for a written record. */
  function Effect(z: Zone, req: Request, proxiable: bool): Zone
    requires Accepts(z, req)
  {
    match req
    case GetRecords => z
    case GetSsl => z
    case PutRecord(id, p) => z.(records := z.records[IndexOf(z.records, id).value := Written(id, p, p.proxied || proxiable)])
    case PostRecord(p) => z.(records := z.records + [Written(z.nextId, p, p.proxied || proxiable)], nextId := z.nextId + 1)
    case PatchRecord(id, p) =>
      var k := IndexOf(z.records, id).value;
      z.(records := z.records[k := z.records[k].(proxied := p)])
    case DeleteRecord(id) =>
      var k := IndexOf(z.records, id).value;
      z.(records := z.records[..k] + z.records[k + 1..])
    case PatchSsl(mode) => z.(ssl := mode)
  }

  lemma EffectKeepsValid(z: Zone, req: Request, proxiable: bool)
    requires ValidZone(z) && Accepts(z, req)
    ensures ValidZone(Effect(z, req, proxiable))
  {
    match req
    case DeleteRecord(id) =>
      var k := IndexOf(z.records, id).value;
      var rest := z.records[..k] + z.records[k + 1..];
      forall i | 0 <= i < |rest|
        ensures rest[i] == z.records[if i < k then i else i + 1]
      {
      }
    case _ =>
  }

  ghost predicate Legal(before: Zone, e: Event) {
    if e.outcome.TookEffect() then
      Accepts(before, e.req) && (e.after == Effect(before, e.req, true) || e.after == Effect(before, e.req, false))
    else
      e.after == before
  }

  ghost predicate AllDone(evs: seq<Event>) {
    forall i | 0 <= i < |evs| :: evs[i].outcome.Done?
  }

  ghost predicate OnlyReads(evs: seq<Event>) {
    forall i | 0 <= i < |evs| :: evs[i].req.GetRecords? || evs[i].req.GetSsl?
  }

  class Server {
    var z: Zone
    ghost var log: seq<Event>

    ghost predicate Valid()
      reads this
    {
      ValidZone(z)
    }

    method Send(req: Request) returns (o: Outcome)
      requires Valid()
      modifies this
      ensures Valid()
      ensures log == old(log) + [Event(req, o, z)]
      ensures Legal(old(z), Event(req, o, z))
    {
      o := *;
      var proxiable: bool := *;
      if !Accepts(z, req) {
        o := LostBefore;
      }
      if o.TookEffect() {
        EffectKeepsValid(z, req, proxiable);
        z := Effect(z, req, proxiable);
      }
      log := log + [Event(req, o, z)];
    }
  }

  /** Appending one event, with what that does to the summaries of the whole sequence. */
  ghost function Extend(evs: seq<Event>, e: Event): (r: seq<Event>)
    ensures |r| == |evs| + 1 && r[|evs|] == e && forall i | 0 <= i < |evs| :: r[i] == evs[i]
    ensures AllDone(r) <==> AllDone(evs) && e.outcome.Done?
    ensures OnlyReads(r) <==> OnlyReads(evs) && (e.req.GetRecords? || e.req.GetSsl?)
    ensures forall log: seq<Event> {:trigger log + evs} :: (log + evs) + [e] == log + r
    ensures evs == [] ==> r == [e]
  {
    var r := evs + [e];
    assert r[|evs|] == e;
    assert forall i | 0 <= i < |evs| :: r[i] == evs[i];
    r
  }

  lemma Joined(x: seq<Event>, y: seq<Event>)
    ensures AllDone(x + y) <==> AllDone(x) && AllDone(y)
    ensures OnlyReads(x + y) <==> OnlyReads(x) && OnlyReads(y)
    ensures forall log: seq<Event> {:trigger log + x} :: (log + x) + y == log + (x + y)
  {
    assert forall i | 0 <= i < |x| :: (x + y)[i] == x[i];
    assert forall i | 0 <= i < |y| :: (x + y)[|x| + i] == y[i];
  }

  /** `evs` happened one after the other, starting from `z`. */
  ghost predicate Happened(z: Zone, evs: seq<Event>)
    decreases |evs|
  {
    evs != [] ==> Legal(z, evs[0]) && Happened(evs[0].after, evs[1..])
  }

  ghost function Last(z: Zone, evs: seq<Event>): Zone {
    if evs == [] then z else evs[|evs| - 1].after
  }

  /** The requests upserts, reconciliations and SSL changes make: every written record carries the
      comment and nothing is deleted. */
  ghost predicate EdgekitWrites(evs: seq<Event>) {
    forall i | 0 <= i < |evs| ::
      && (evs[i].req.PutRecord? || evs[i].req.PostRecord? ==> evs[i].req.payload.comment == "Managed by edgekit")
      && !evs[i].req.DeleteRecord?
  }

  /** A run of edgekit's requests from `z` to `z1`. */
  ghost predicate Traced(z: Zone, evs: seq<Event>, z1: Zone) {
    Happened(z, evs) && Last(z, evs) == z1 && EdgekitWrites(evs)
  }

  lemma {:induction false} HappenedConcat(z: Zone, x: seq<Event>, y: seq<Event>)
    requires Happened(z, x) && Happened(Last(z, x), y)
    ensures Happened(z, x + y)
    decreases |x|
  {
    if x == [] {
      assert x + y == y;
    } else {
      assert (x + y)[0] == x[0] && (x + y)[1..] == x[1..] + y;
      HappenedConcat(x[0].after, x[1..], y);
    }
  }

  lemma WritesConcat(x: seq<Event>, y: seq<Event>)
    requires EdgekitWrites(x) && EdgekitWrites(y)
    ensures EdgekitWrites(x + y)
  {
  }

  lemma TracedConcat(z: Zone, x: seq<Event>, m: Zone, y: seq<Event>, z1: Zone)
    requires Traced(z, x, m) && Traced(m, y, z1)
    ensures Traced(z, x + y, z1)
  {
    HappenedConcat(z, x, y);
    WritesConcat(x, y);
  }

  lemma TracedExtend(z: Zone, evs: seq<Event>, m: Zone, e: Event)
    requires Traced(z, evs, m) && Legal(m, e) && EdgekitWrites([e])
    ensures Traced(z, Extend(evs, e), e.after)
  {
    assert [e][1..] == [] && [e][0] == e;
    assert Happened(m, [e]);
    assert Extend(evs, e) == evs + [e];
    TracedConcat(z, evs, m, [e], e.after);
  }

  lemma PatchTraced(z: Zone, evs: seq<Event>, m: Zone, e: Event)
    requires Traced(z, evs, m) && Legal(m, e) && e.req.PatchRecord?
    ensures Traced(z, Extend(evs, e), e.after)
  {
    TracedExtend(z, evs, m, e);
  }

  // ---------------------------------------------------------------- one name

  predicate IsA(r: Record, name: string) { r.kind.A? && r.name == name }

  /** The position of the first A record for `name`. */
  function FirstA(records: seq<Record>, name: string): (r: Option<nat>)
    ensures r.Some? ==> r.value < |records| && IsA(records[r.value], name) && forall i | 0 <= i < r.value :: !IsA(records[i], name)
    ensures r.None? ==> forall i | 0 <= i < |records| :: !IsA(records[i], name)
  {
    if records == [] then None
    else if IsA(records[0], name) then Some(0)
    else match FirstA(records[1..], name)
      case None => None
      case Some(k) =>
        assert forall i | 0 < i < k + 1 :: records[i] == records[1..][i - 1];
        Some(k + 1)
  }

  predicate Right(r: Record, ip: string, proxied: bool) { r.content == ip && r.proxied == proxied }

  /** The name's first A record is the one wanted. */
  ghost predicate Published(z: Zone, name: string, ip: string, proxied: bool) {
    exists k: nat ::
      && k < |z.records| && z.records[k].kind.A? && z.records[k].name == name
      && z.records[k].content == ip && z.records[k].proxied == proxied
      && forall i | 0 <= i < k :: !(z.records[i].kind.A? && z.records[i].name == name)
  }

  lemma PublishedIsRight(z: Zone, name: string, ip: string, proxied: bool)
    ensures Published(z, name, ip, proxied) <==>
            FirstA(z.records, name).Some? && Right(z.records[FirstA(z.records, name).value], ip, proxied)
  {
    var first := FirstA(z.records, name);
    if k: nat :|
      && k < |z.records| && z.records[k].kind.A? && z.records[k].name == name
      && z.records[k].content == ip && z.records[k].proxied == proxied
      && forall i | 0 <= i < k :: !(z.records[i].kind.A? && z.records[i].name == name)
    {
      assert IsA(z.records[k], name);
      assert first.Some? && IsA(z.records[first.value], name);
    }
    if first.Some? {
      assert IsA(z.records[first.value], name);
      assert forall i | 0 <= i < first.value :: !IsA(z.records[i], name);
    }
  }

  /** Only the name's first A record is rewritten, or one is added if there is none; a record that
      is already right is left alone. */
  ghost predicate Upserted(z0: Zone, z1: Zone, name: string, ip: string, proxied: bool, id: nat) {
    var k := FirstA(z0.records, name);
    var p := Payload(name, ip, proxied, MANAGED_COMMENT);
    if k.Some? then
      && id == z0.records[k.value].id
      && (if Right(z0.records[k.value], ip, proxied) then z1 == z0
          else exists b :: z1 == z0.(records := z0.records[k.value := Written(id, p, b)]))
    else
      && id == z0.nextId
      && exists b :: z1 == z0.(records := z0.records + [Written(id, p, b)], nextId := id + 1)
  }

  lemma OtherStaysPublished(z0: Zone, z1: Zone, name: string, ip: string, proxied: bool, id: nat, other: string)
    requires Upserted(z0, z1, name, ip, proxied, id) && other != name && Published(z0, other, ip, proxied)
    ensures Published(z1, other, ip, proxied)
  {
    var k := FirstA(z0.records, other).value;
    assert z1.records[k] == z0.records[k];
    var k1 := FirstA(z1.records, other);
    assert k1.Some?;
    if k1.value < |z0.records| {
      assert IsA(z1.records[k1.value], other);
      assert z1.records[k1.value] == z0.records[k1.value];
    }
  }

  lemma UpsertPublishes(z0: Zone, z1: Zone, name: string, ip: string, proxied: bool, id: nat)
    requires Upserted(z0, z1, name, ip, proxied, id)
    ensures Published(z1, name, ip, proxied)
    ensures forall other | other != name :: Published(z0, other, ip, proxied) ==> Published(z1, other, ip, proxied)
  {
    forall other | other != name && Published(z0, other, ip, proxied)
      ensures Published(z1, other, ip, proxied)
    {
      OtherStaysPublished(z0, z1, name, ip, proxied, id, other);
    }
    var k := FirstA(z0.records, name);
    var k1 := FirstA(z1.records, name);
    var w := if k.Some? then k.value else |z0.records|;
    assert IsA(z1.records[w], name);
    assert forall i | 0 <= i < w :: z1.records[i] == z0.records[i];
  }

  /** Create or update the A record for `name`, and return its id. */
  method UpsertA(cf: Server, name: string, ip: string, proxied: bool)
    returns (r: Result<nat, Outcome>, ghost evs: seq<Event>)
    requires cf.Valid()
    modifies cf
    ensures cf.Valid() && cf.log == old(cf.log) + evs
    ensures Traced(old(cf.z), evs, cf.z)
    ensures r.Ok? <==> AllDone(evs)
    ensures r.Ok? ==> Upserted(old(cf.z), cf.z, name, ip, proxied, r.value)
    ensures r.Err? ==> cf.z == old(cf.z) || exists id :: Upserted(old(cf.z), cf.z, name, ip, proxied, id)
    ensures Published(old(cf.z), name, ip, proxied) ==> OnlyReads(evs) && cf.z == old(cf.z)
    ensures evs != [] && (r.Err? ==> r.error == evs[|evs| - 1].outcome)
  {
    ghost var z0, log0 := cf.z, cf.log;
    var o := cf.Send(GetRecords);
    evs := Extend([], Event(GetRecords, o, cf.z));
    TracedExtend(z0, [], z0, Event(GetRecords, o, cf.z));
    if !o.Done? {
      return Err(o), evs;
    }
    PublishedIsRight(z0, name, ip, proxied);
    var first := FirstA(cf.z.records, name);
    var p := Payload(name, ip, proxied, MANAGED_COMMENT);
    var id, req;
    if first.Some? {
      var record := cf.z.records[first.value];
      if Right(record, ip, proxied) {
        return Ok(record.id), evs;
      }
      id, req := record.id, PutRecord(record.id, p);
      IndexIs(z0.records, first.value);
    } else {
      id, req := cf.z.nextId, PostRecord(p);
    }
    o := cf.Send(req);
    ghost var e := Event(req, o, cf.z);
    WrittenIsUpserted(z0, name, ip, proxied, id, e);
    WriteTraced(z0, evs, name, ip, proxied, id, e);
    evs := Extend(evs, e);
    r := if o.Done? then Ok(id) else Err(o);
  }

  /** The request that writes the record: over the name's first A record, or a new one. */
  ghost predicate WritesFor(z0: Zone, name: string, ip: string, proxied: bool, id: nat, req: Request) {
    var k, p := FirstA(z0.records, name), Payload(name, ip, proxied, MANAGED_COMMENT);
    if k.Some? then id == z0.records[k.value].id && req == PutRecord(id, p) && IndexOf(z0.records, id) == k
    else id == z0.nextId && req == PostRecord(p)
  }

  lemma WriteTraced(z: Zone, evs: seq<Event>, name: string, ip: string, proxied: bool, id: nat, e: Event)
    requires Traced(z, evs, z) && Legal(z, e) && WritesFor(z, name, ip, proxied, id, e.req)
    ensures Traced(z, Extend(evs, e), e.after)
  {
    TracedExtend(z, evs, z, e);
  }

  lemma WrittenIsUpserted(z0: Zone, name: string, ip: string, proxied: bool, id: nat, e: Event)
    requires Legal(z0, e) && !Published(z0, name, ip, proxied) && WritesFor(z0, name, ip, proxied, id, e.req)
    ensures e.outcome.TookEffect() ==> Upserted(z0, e.after, name, ip, proxied, id)
  {
    PublishedIsRight(z0, name, ip, proxied);
    var p := Payload(name, ip, proxied, MANAGED_COMMENT);
    if e.outcome.TookEffect() {
      if e.after == Effect(z0, e.req, true) {
        assert Written(id, p, p.proxied || true) == Written(id, p, true);
      } else {
        assert Written(id, p, p.proxied || false) == Written(id, p, p.proxied);
      }
    }
  }

  // ---------------------------------------------------------------- every record at this address

  predicate NeedsPatch(r: Record, ip: string, proxied: bool) {
    r.kind.A? && r.content == ip && r.proxied != proxied && !(proxied && !r.proxiable)
  }

  /** The record with the wanted proxy status, if it is one of ours to switch. */
  function Settle(r: Record, ip: string, proxied: bool): Record {
    if NeedsPatch(r, ip, proxied) then r.(proxied := proxied) else r
  }

  function Reconciled(records: seq<Record>, ip: string, proxied: bool): seq<Record> {
    seq(|records|, i requires 0 <= i < |records| => Settle(records[i], ip, proxied))
  }

  /** The names of the records to switch, in listing order. */
  function Misfits(records: seq<Record>, ip: string, proxied: bool): seq<string> {
    if records == [] then []
    else Misfits(records[..|records| - 1], ip, proxied)
         + if NeedsPatch(records[|records| - 1], ip, proxied) then [records[|records| - 1].name] else []
  }

  /** Every A record at the address has the wanted status, unless it cannot be proxied. */
  ghost predicate Agreed(z: Zone, ip: string, proxied: bool) {
    forall i | 0 <= i < |z.records| && z.records[i].kind.A? && z.records[i].content == ip ::
      z.records[i].proxied == proxied || (proxied && !z.records[i].proxiable)
  }

  /** Some records were switched and no other field of any record changed. */
  ghost predicate PartlyReconciled(z0: Zone, z1: Zone, ip: string, proxied: bool) {
    && z1 == z0.(records := z1.records) && |z1.records| == |z0.records|
    && forall i | 0 <= i < |z0.records| ::
         z1.records[i] == z0.records[i] || z1.records[i] == Settle(z0.records[i], ip, proxied)
  }

  lemma ReconciledAgrees(z0: Zone, z1: Zone, ip: string, proxied: bool)
    requires z1 == z0.(records := Reconciled(z0.records, ip, proxied))
    ensures Agreed(z1, ip, proxied)
  {
  }

  lemma {:induction false} NoMisfits(records: seq<Record>, ip: string, proxied: bool)
    ensures Misfits(records, ip, proxied) == [] <==> forall i | 0 <= i < |records| :: !NeedsPatch(records[i], ip, proxied)
  {
    if records != [] {
      var n := |records| - 1;
      NoMisfits(records[..n], ip, proxied);
      assert forall i | 0 <= i < n :: records[..n][i] == records[i];
      assert NeedsPatch(records[n], ip, proxied) ==> Misfits(records, ip, proxied) != [];
    }
  }

  /** The first `i` records are settled, the others as they were. */
  ghost predicate SettledUpTo(z0: Zone, z: Zone, ip: string, proxied: bool, i: nat) {
    && z == z0.(records := z.records) && |z.records| == |z0.records|
    && (forall j | 0 <= j < i && j < |z0.records| :: z.records[j] == Settle(z0.records[j], ip, proxied))
    && (forall j | i <= j < |z0.records| :: z.records[j] == z0.records[j])
  }

  lemma TakeAll<T>(s: seq<T>)
    ensures s[..|s|] == s
  {
  }

  lemma SettledAll(z0: Zone, z: Zone, ip: string, proxied: bool)
    requires SettledUpTo(z0, z, ip, proxied, |z0.records|)
    ensures z == z0.(records := Reconciled(z0.records, ip, proxied))
    ensures PartlyReconciled(z0, z, ip, proxied)
    ensures Misfits(z0.records, ip, proxied) == [] ==> z == z0
  {
    assert z.records == Reconciled(z0.records, ip, proxied);
    NoMisfits(z0.records, ip, proxied);
    if Misfits(z0.records, ip, proxied) == [] {
      assert z.records == z0.records;
    }
  }

  lemma IndexIs(records: seq<Record>, i: nat)
    requires i < |records| && forall j, k | 0 <= j < k < |records| :: records[j].id != records[k].id
    ensures IndexOf(records, records[i].id) == Some(i)
  {
  }

  lemma PatchStep(z0: Zone, z: Zone, e: Event, ip: string, proxied: bool, i: nat)
    requires ValidZone(z) && SettledUpTo(z0, z, ip, proxied, i)
    requires i < |z0.records| && NeedsPatch(z0.records[i], ip, proxied)
    requires Legal(z, e) && e.req == PatchRecord(z0.records[i].id, proxied)
    ensures PartlyReconciled(z0, e.after, ip, proxied)
    ensures e.outcome.Done? ==> SettledUpTo(z0, e.after, ip, proxied, i + 1)
    ensures Misfits(z0.records, ip, proxied) != []
  {
    NoMisfits(z0.records, ip, proxied);
    IndexIs(z.records, i);
  }

  lemma MisfitStep(records: seq<Record>, ip: string, proxied: bool, i: nat)
    requires i < |records|
    ensures Misfits(records[..i + 1], ip, proxied) ==
            Misfits(records[..i], ip, proxied) + if NeedsPatch(records[i], ip, proxied) then [records[i].name] else []
  {
    assert records[..i + 1][..i] == records[..i];
  }

  /** Give every A record pointing at `ip` the proxy status; the names switched are returned. */
  method ReconcileProxyStatus(cf: Server, ip: string, proxied: bool)
    returns (r: Result<seq<string>, Outcome>, ghost evs: seq<Event>)
    requires cf.Valid()
    modifies cf
    ensures cf.Valid() && cf.log == old(cf.log) + evs
    ensures Traced(old(cf.z), evs, cf.z)
    ensures r.Ok? <==> AllDone(evs)
    ensures r.Ok? ==>
              && cf.z == old(cf.z).(records := Reconciled(old(cf.z).records, ip, proxied))
              && r.value == Misfits(old(cf.z).records, ip, proxied)
    ensures PartlyReconciled(old(cf.z), cf.z, ip, proxied)
    ensures Misfits(old(cf.z).records, ip, proxied) == [] ==> OnlyReads(evs) && cf.z == old(cf.z)
  {
    ghost var z0, log0 := cf.z, cf.log;
    var o := cf.Send(GetRecords);
    evs := Extend([], Event(GetRecords, o, cf.z));
    TracedExtend(z0, [], z0, Event(GetRecords, o, cf.z));
    if !o.Done? {
      return Err(o), evs;
    }
    var records := cf.z.records;
    assert records == z0.records;
    var changed: seq<string> := [];
    for i := 0 to |records|
      invariant cf.Valid() && cf.log == log0 + evs && AllDone(evs)
      invariant Traced(z0, evs, cf.z)
      invariant SettledUpTo(z0, cf.z, ip, proxied, i)
      invariant changed == Misfits(records[..i], ip, proxied)
      invariant OnlyReads(evs) || Misfits(records, ip, proxied) != []
    {
      ghost var z := cf.z;
      MisfitStep(records, ip, proxied, i);
      if NeedsPatch(records[i], ip, proxied) {
        o := cf.Send(PatchRecord(records[i].id, proxied));
        ghost var e := Event(PatchRecord(records[i].id, proxied), o, cf.z);
        PatchStep(z0, z, e, ip, proxied, i);
        PatchTraced(z0, evs, z, e);
        evs := Extend(evs, e);
        if !o.Done? {
          return Err(o), evs;
        }
        changed := changed + [records[i].name];
      }
    }
    SettledAll(z0, cf.z, ip, proxied);
    TakeAll(records);
    r := Ok(changed);
  }

  // ---------------------------------------------------------------- SSL mode

  /** Set the zone's SSL mode, unless it is already set. */
  method SetSslMode(cf: Server, mode: string) returns (r: Result<string, Outcome>, ghost evs: seq<Event>)
    requires cf.Valid()
    modifies cf
    ensures cf.Valid() && cf.log == old(cf.log) + evs
    ensures Traced(old(cf.z), evs, cf.z)
    ensures r.Ok? <==> AllDone(evs)
    ensures r.Ok? ==> r.value == mode && cf.z == old(cf.z).(ssl := mode)
    ensures r.Err? ==> cf.z == old(cf.z) || cf.z == old(cf.z).(ssl := mode)
    ensures old(cf.z).ssl == mode ==> OnlyReads(evs)
  {
    var o := cf.Send(GetSsl);
    ghost var z0 := cf.z;
    evs := Extend([], Event(GetSsl, o, cf.z));
    TracedExtend(z0, [], z0, Event(GetSsl, o, cf.z));
    if !o.Done? {
      return Err(o), evs;
    }
    if cf.z.ssl == mode {
      return Ok(mode), evs;
    }
    o := cf.Send(PatchSsl(mode));
    TracedExtend(z0, evs, z0, Event(PatchSsl(mode), o, cf.z));
    evs := Extend(evs, Event(PatchSsl(mode), o, cf.z));
    r := if o.Done? then Ok(mode) else Err(o);
  }

  // ---------------------------------------------------------------- publishing the zone

  lemma UpsertKeepsAgreed(z0: Zone, z1: Zone, name: string, ip: string, proxied: bool, id: nat)
    requires Agreed(z0, ip, proxied) && Upserted(z0, z1, name, ip, proxied, id)
    ensures Agreed(z1, ip, proxied)
  {
  }

  lemma ReconcileKeepsPublished(z0: Zone, z1: Zone, name: string, ip: string, proxied: bool)
    requires Published(z0, name, ip, proxied) && z1 == z0.(records := Reconciled(z0.records, ip, proxied))
    ensures Published(z1, name, ip, proxied)
  {
    assert forall i | 0 <= i < |z0.records| :: IsA(z1.records[i], name) <==> IsA(z0.records[i], name);
    var k := FirstA(z0.records, name).value;
    assert IsA(z1.records[k], name);
  }

  ghost predicate AllPublished(z: Zone, names: seq<string>, ip: string, proxied: bool) {
    forall i | 0 <= i < |names| :: Published(z, names[i], ip, proxied)
  }

  lemma PublishStep(z: Zone, z1: Zone, names: seq<string>, i: nat, ip: string, proxied: bool, id: nat)
    requires i < |names| && forall j, k | 0 <= j < k < |names| :: names[j] != names[k]
    requires AllPublished(z, names[..i], ip, proxied) && Upserted(z, z1, names[i], ip, proxied, id)
    ensures AllPublished(z1, names[..i + 1], ip, proxied)
  {
    UpsertPublishes(z, z1, names[i], ip, proxied, id);
    var done := names[..i + 1];
    forall j | 0 <= j < |done|
      ensures Published(z1, done[j], ip, proxied)
    {
      if j < i {
        assert names[..i][j] == done[j] == names[j] != names[i];
      }
    }
  }

  /** Records under other names that point elsewhere are untouched. */
  ghost predicate OthersKept(z0: Zone, z1: Zone, names: seq<string>, ip: string) {
    && z1.ssl == z0.ssl && |z0.records| <= |z1.records|
    && (forall i | 0 <= i < |z0.records| && z0.records[i].name !in names && (z0.records[i].content != ip || !z0.records[i].kind.A?) ::
          z1.records[i] == z0.records[i])
  }

  lemma UpsertKeepsOthers(z0: Zone, z: Zone, z1: Zone, names: seq<string>, name: string, ip: string, proxied: bool, id: nat)
    requires OthersKept(z0, z, names, ip) && name in names && Upserted(z, z1, name, ip, proxied, id)
    ensures OthersKept(z0, z1, names, ip)
  {
  }

  lemma ReconcileKeepsOthers(z0: Zone, z: Zone, z1: Zone, names: seq<string>, ip: string, proxied: bool)
    requires OthersKept(z0, z, names, ip) && PartlyReconciled(z, z1, ip, proxied)
    ensures OthersKept(z0, z1, names, ip)
  {
  }

  /** Publish `names` and give every other record at the address the same proxy status. */
  method PublishZone(cf: Server, names: seq<string>, ip: string, proxied: bool)
    returns (r: Result<seq<string>, Outcome>, ghost evs: seq<Event>)
    requires cf.Valid()
    requires forall i, j | 0 <= i < j < |names| :: names[i] != names[j]
    modifies cf
    ensures cf.Valid() && cf.log == old(cf.log) + evs
    ensures Traced(old(cf.z), evs, cf.z)
    ensures r.Ok? <==> AllDone(evs)
    ensures r.Ok? ==> AllPublished(cf.z, names, ip, proxied) && Agreed(cf.z, ip, proxied)
    ensures OthersKept(old(cf.z), cf.z, names, ip)
    ensures AllPublished(old(cf.z), names, ip, proxied) && Agreed(old(cf.z), ip, proxied) ==>
              OnlyReads(evs) && cf.z == old(cf.z) && (r.Ok? ==> r.value == [])
  {
    ghost var z0 := cf.z;
    ghost var settled := AllPublished(z0, names, ip, proxied) && Agreed(z0, ip, proxied);
    evs := [];
    for i := 0 to |names|
      invariant cf.Valid() && cf.log == old(cf.log) + evs && AllDone(evs)
      invariant Traced(z0, evs, cf.z)
      invariant AllPublished(cf.z, names[..i], ip, proxied)
      invariant OthersKept(z0, cf.z, names, ip)
      invariant settled ==> OnlyReads(evs) && cf.z == z0
    {
      ghost var z, before := cf.z, evs;
      var id;
      ghost var more;
      id, more := UpsertA(cf, names[i], ip, proxied);
      Joined(before, more);
      TracedConcat(z0, before, z, more, cf.z);
      evs := before + more;
      if cf.z != z {
        ghost var k :| Upserted(z, cf.z, names[i], ip, proxied, k);
        UpsertKeepsOthers(z0, z, cf.z, names, names[i], ip, proxied, k);
      }
      if id.Err? {
        return Err(id.error), evs;
      }
      PublishStep(z, cf.z, names, i, ip, proxied, id.value);
    }
    ghost var z, before := cf.z, evs;
    ghost var more;
    NoMisfits(z.records, ip, proxied);
    r, more := ReconcileProxyStatus(cf, ip, proxied);
    Joined(before, more);
    TracedConcat(z0, before, z, more, cf.z);
    evs := before + more;
    TakeAll(names);
    ReconcileKeepsOthers(z0, z, cf.z, names, ip, proxied);
    if r.Ok? {
      ReconciledAgrees(z, cf.z, ip, proxied);
      forall i | 0 <= i < |names|
        ensures Published(cf.z, names[i], ip, proxied)
      {
        ReconcileKeepsPublished(z, cf.z, names[i], ip, proxied);
      }
    }
  }

  // ---------------------------------------------------------------- what uninstalling deletes

  function TaggedIn(records: seq<Record>): set<nat> {
    set r | r in records && r.comment == MANAGED_COMMENT :: r.id
  }

  function Tagged(z: Zone): set<nat> { TaggedIn(z.records) }

  /** The ids written by a PUT or a POST that took effect. */
  ghost function WrittenIds(z: Zone, evs: seq<Event>): set<nat>
    decreases |evs|
  {
    if evs == [] then {}
    else
      var e := evs[0];
      var own := if !e.outcome.TookEffect() then {}
                 else if e.req.PutRecord? then {e.req.id}
                 else if e.req.PostRecord? then {z.nextId}
                 else {};
      own + WrittenIds(e.after, evs[1..])
  }

  lemma TaggedSame(a: seq<Record>, b: seq<Record>)
    requires |a| == |b| && forall i | 0 <= i < |a| :: a[i].id == b[i].id && a[i].comment == b[i].comment
    ensures TaggedIn(a) == TaggedIn(b)
  {
    forall id | id in TaggedIn(a)
      ensures id in TaggedIn(b)
    {
      var i :| 0 <= i < |a| && a[i].id == id && a[i].comment == MANAGED_COMMENT;
      assert b[i] in b;
    }
    forall id | id in TaggedIn(b)
      ensures id in TaggedIn(a)
    {
      var i :| 0 <= i < |b| && b[i].id == id && b[i].comment == MANAGED_COMMENT;
      assert a[i] in a;
    }
  }

  lemma TaggedAppend(a: seq<Record>, r: Record)
    requires r.comment == MANAGED_COMMENT
    ensures TaggedIn(a + [r]) == TaggedIn(a) + {r.id}
  {
    assert (a + [r])[|a|] == r;
  }

  lemma TaggedReplace(a: seq<Record>, k: nat, r: Record)
    requires k < |a| && r.id == a[k].id && r.comment == MANAGED_COMMENT
    ensures TaggedIn(a[k := r]) == TaggedIn(a) + {r.id}
  {
    var b := a[k := r];
    assert b[k] == r && r in b;
    forall id | id in TaggedIn(a)
      ensures id in TaggedIn(b)
    {
      var i :| 0 <= i < |a| && a[i].id == id && a[i].comment == MANAGED_COMMENT;
      assert b[i] in b;
    }
  }

  lemma TaggedByOne(z: Zone, e: Event)
    requires Legal(z, e) && EdgekitWrites([e])
    ensures Tagged(e.after) == Tagged(z) + WrittenIds(z, [e])
  {
    assert [e][0] == e;
    if e.outcome.TookEffect() {
      match e.req
      case PutRecord(id, p) =>
        var k := IndexOf(z.records, id).value;
        TaggedReplace(z.records, k, e.after.records[k]);
      case PostRecord(p) =>
        TaggedAppend(z.records, e.after.records[|z.records|]);
      case _ =>
        TaggedSame(z.records, e.after.records);
    }
  }

  /** After any run of upserts, reconciliations and SSL changes, with any failures, the tagged
      records are those that were tagged before and those edgekit wrote itself. A record it only
      found correct, or only switched with a PATCH, is not among them unless it already was. */
  lemma {:induction false} TaggedAreWritten(z: Zone, evs: seq<Event>, z1: Zone)
    requires ValidZone(z) && Traced(z, evs, z1)
    ensures Tagged(z1) == Tagged(z) + WrittenIds(z, evs)
    decreases |evs|
  {
    if evs == [] {
    } else {
      var e := evs[0];
      assert [e][0] == e && [e][1..] == [];
      TaggedByOne(z, e);
      LegalKeepsValid(z, e);
      assert Last(e.after, evs[1..]) == z1;
      TaggedAreWritten(e.after, evs[1..], z1);
      assert WrittenIds(z, [e]) + WrittenIds(e.after, evs[1..]) == WrittenIds(z, evs);
    }
  }

  lemma LegalKeepsValid(z: Zone, e: Event)
    requires ValidZone(z) && Legal(z, e)
    ensures ValidZone(e.after)
  {
    if e.outcome.TookEffect() {
      EffectKeepsValid(z, e.req, e.after == Effect(z, e.req, true));
    }
  }

  function Kept(r: Record): seq<Record> {
    if r.comment == MANAGED_COMMENT then [] else [r]
  }

  function Untagged(records: seq<Record>): seq<Record> {
    if records == [] then []
    else Kept(records[0]) + Untagged(records[1..])
  }

  lemma UntaggedCons(r: Record, rest: seq<Record>)
    ensures Untagged([r] + rest) == Kept(r) + Untagged(rest)
  {
    assert ([r] + rest)[1..] == rest;
  }

  lemma Assoc(a: seq<Record>, b: seq<Record>, c: seq<Record>)
    ensures (a + b) + c == a + (b + c)
  {
  }

  lemma {:induction false} UntaggedConcat(x: seq<Record>, y: seq<Record>)
    ensures Untagged(x + y) == Untagged(x) + Untagged(y)
  {
    if x == [] {
      assert x + y == y;
    } else {
      var r, rest := x[0], x[1..];
      assert x == [r] + rest;
      Assoc([r], rest, y);
      UntaggedCons(r, rest);
      UntaggedCons(r, rest + y);
      UntaggedConcat(rest, y);
      Assoc(Kept(r), Untagged(rest), Untagged(y));
    }
  }

  /** What is left while the tagged records are deleted in order: those before `i` that carry no
      comment, and all those from `i` on. */
  ghost predicate DeletedUpTo(z0: Zone, z: Zone, i: nat) {
    i <= |z0.records| && z == z0.(records := Untagged(z0.records[..i]) + z0.records[i..])
  }

  lemma DeletedNone(z0: Zone)
    ensures DeletedUpTo(z0, z0, 0)
  {
    assert z0.records[..0] == [] && z0.records[0..] == z0.records;
  }

  lemma DeletedAll(z0: Zone, z: Zone)
    requires DeletedUpTo(z0, z, |z0.records|)
    ensures z == z0.(records := Untagged(z0.records))
  {
    assert z0.records[..|z0.records|] == z0.records;
  }

  lemma RemoveFirstOfRest(pre: seq<Record>, rest: seq<Record>)
    requires rest != []
    ensures (pre + rest)[|pre|] == rest[0]
    ensures (pre + rest)[..|pre|] + (pre + rest)[|pre| + 1..] == pre + rest[1..]
  {
    assert (pre + rest)[..|pre|] == pre;
    assert (pre + rest)[|pre| + 1..] == rest[1..];
  }

  lemma UntaggedStep(records: seq<Record>, i: nat)
    requires i < |records|
    ensures Untagged(records[..i + 1]) ==
            Untagged(records[..i]) + if records[i].comment == MANAGED_COMMENT then [] else [records[i]]
  {
    assert records[..i + 1] == records[..i] + [records[i]];
    UntaggedConcat(records[..i], [records[i]]);
  }

  lemma DeleteStep(z0: Zone, z: Zone, e: Event, i: nat)
    requires ValidZone(z) && DeletedUpTo(z0, z, i) && i < |z0.records|
    requires z0.records[i].comment == MANAGED_COMMENT
    requires Legal(z, e) && e.req == DeleteRecord(z0.records[i].id)
    ensures DeletedUpTo(z0, e.after, if e.outcome.TookEffect() then i + 1 else i)
  {
    var pre, rest := Untagged(z0.records[..i]), z0.records[i..];
    RemoveFirstOfRest(pre, rest);
    IndexIs(z.records, |pre|);
    UntaggedStep(z0.records, i);
    RestOfRest(z0.records, i);
    if e.outcome.TookEffect() {
      assert e.after.records == pre + z0.records[i + 1..];
      assert Kept(z0.records[i]) == [] && Untagged(z0.records[..i + 1]) == pre;
    }
  }

  lemma RestOfRest(records: seq<Record>, i: nat)
    requires i < |records|
    ensures records[i..][0] == records[i] && records[i..][1..] == records[i + 1..]
  {
  }

  lemma KeepStep(z0: Zone, z: Zone, i: nat)
    requires DeletedUpTo(z0, z, i) && i < |z0.records| && z0.records[i].comment != MANAGED_COMMENT
    ensures DeletedUpTo(z0, z, i + 1)
  {
    UntaggedStep(z0.records, i);
    assert [z0.records[i]] + z0.records[i + 1..] == z0.records[i..];
    assert Untagged(z0.records[..i]) + [z0.records[i]] + z0.records[i + 1..] == Untagged(z0.records[..i]) + z0.records[i..];
  }

  /** Delete every record edgekit created in the zone, whatever its type. */
  method DeleteManaged(cf: Server) returns (r: Result<(), Outcome>, ghost evs: seq<Event>)
    requires cf.Valid()
    modifies cf
    ensures cf.Valid() && cf.log == old(cf.log) + evs
    ensures r.Ok? <==> AllDone(evs)
    ensures r.Ok? ==> cf.z == old(cf.z).(records := Untagged(old(cf.z).records))
    ensures r.Err? ==> exists i :: DeletedUpTo(old(cf.z), cf.z, i)
  {
    ghost var z0, log0 := cf.z, cf.log;
    DeletedNone(z0);
    var o := cf.Send(GetRecords);
    evs := Extend([], Event(GetRecords, o, cf.z));
    if !o.Done? {
      return Err(o), evs;
    }
    var records := cf.z.records;
    for i := 0 to |records|
      invariant cf.Valid() && DeletedUpTo(z0, cf.z, i)
      invariant cf.log == log0 + evs && AllDone(evs)
    {
      if records[i].comment == MANAGED_COMMENT {
        ghost var z := cf.z;
        o := cf.Send(DeleteRecord(records[i].id));
        ghost var e := Event(DeleteRecord(records[i].id), o, cf.z);
        DeleteStep(z0, z, e, i);
        evs := Extend(evs, e);
        if !o.Done? {
          return Err(o), evs;
        }
      } else {
        KeepStep(z0, cf.z, i);
      }
    }
    DeletedAll(z0, cf.z);
    r := Ok(());
  }

  /** Uninstalling, after any run of edgekit's own writes, deletes exactly the records that were
      tagged before the run or written during it. */
  lemma UninstallDeletesOwn(z: Zone, evs: seq<Event>, z1: Zone, rec: Record)
    requires ValidZone(z) && Traced(z, evs, z1) && rec in z1.records
    ensures rec !in Untagged(z1.records) <==> rec.id in Tagged(z) + WrittenIds(z, evs)
  {
    TaggedAreWritten(z, evs, z1);
    TracedKeepsValid(z, evs, z1);
    UntaggedHolds(z1.records, rec);
  }

  lemma {:induction false} TracedKeepsValid(z: Zone, evs: seq<Event>, z1: Zone)
    requires ValidZone(z) && Traced(z, evs, z1)
    ensures ValidZone(z1)
    decreases |evs|
  {
    if evs != [] {
      LegalKeepsValid(z, evs[0]);
      assert Last(evs[0].after, evs[1..]) == z1;
      TracedKeepsValid(evs[0].after, evs[1..], z1);
    }
  }

  lemma {:induction false} UntaggedHolds(records: seq<Record>, rec: Record)
    ensures rec in Untagged(records) <==> rec in records && rec.comment != MANAGED_COMMENT
  {
    if records != [] {
      UntaggedHolds(records[1..], rec);
    }
  }
}
