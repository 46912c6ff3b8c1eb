/** Properties of whole runs of certificate installs, in any order and with any failures. */
module InstallRuns {
  import opened Common
  import opened NpmServer
  import opened NpmClient
  import opened Store
  import opened Certificates

  datatype World = World(c: Recorded, t: Tables)

  datatype Op =
    | Manual(name: string, pem: Pem, force: bool)
    | Issue(name: string, issued: Option<Pem>, now: int, force: bool)
    | LetsEncryptOp(name: string, domains: seq<string>, now: int, force: bool)
    | Outside

  /** One operation, the requests it made, its answer and the world it left. */
  datatype Turn = Turn(op: Op, evs: seq<Event>, answer: Result<Answer, CertError>, after: World)

  /** What may happen to NPM between two operations: hosts and certificates come and go, Let's
      Encrypt certificates are renewed, everything may be wiped. An uploaded certificate is never
      edited in place and no id comes back. */
  ghost predicate OutsideStep(w: World, w1: World) {
    && w1.c == w.c && w.t.nextCert <= w1.t.nextCert
    && forall c | c in w1.t.certs && c < w.t.nextCert ::
         && c in w.t.certs && w1.t.certs[c].provider == w.t.certs[c].provider
         && (w.t.certs[c].provider.Custom? ==> w1.t.certs[c] == w.t.certs[c])
  }

  ghost predicate Step(w: World, turn: Turn) {
    && WellFormed(turn.after.t)
    && match turn.op
       case Manual(name, pem, force) =>
         ManualPost(w.c, w.t, name, pem, force, turn.evs, turn.after.c, turn.after.t, turn.answer)
       case Issue(name, issued, now, force) =>
         IssuePost(w.c, w.t, name, issued, now, force, turn.evs, turn.after.c, turn.after.t, turn.answer)
       case LetsEncryptOp(name, domains, now, force) =>
         LetsEncryptPost(w.c, w.t, name, domains, now, force, turn.evs, turn.after.c, turn.after.t, turn.answer)
       case Outside => turn.evs == [] && OutsideStep(w, turn.after)
  }

  /** Every turn follows from the world the one before it left. */
  ghost predicate IsRun(w: World, turns: seq<Turn>)
    decreases |turns|
  {
    && WellFormed(w.t)
    && (turns != [] ==> Step(w, turns[0]) && IsRun(turns[0].after, turns[1..]))
  }

  /** The world before turn `i`. */
  function Before(w: World, turns: seq<Turn>, i: nat): World
    requires i <= |turns|
    decreases i
  {
    if i == 0 then w else Before(turns[0].after, turns[1..], i - 1)
  }

  lemma {:induction false} StepAt(w: World, turns: seq<Turn>, i: nat)
    requires IsRun(w, turns) && i < |turns|
    ensures Step(Before(w, turns, i), turns[i])
    ensures i + 1 <= |turns| && Before(w, turns, i + 1) == turns[i].after
    decreases i
  {
    if i == 0 {
    } else {
      StepAt(turns[0].after, turns[1..], i - 1);
    }
  }

  // ---------------------------------------------------------------- hosts stay servable

  lemma StepIsSafe(w: World, turn: Turn)
    requires Step(w, turn) && !turn.op.Outside?
    ensures SafeThroughout(w.t, turn.evs) && NoWorse(w.t, turn.after.t)
  {
  }

  /** At every intermediate state of any sequence of installs no host refers to a certificate that
      is missing or was never uploaded, unless it referred to that same one at the start. */
  lemma {:induction false} InstallsNeverStrandAHost(w: World, turns: seq<Turn>, i: nat)
    requires IsRun(w, turns) && i < |turns|
    requires forall j | 0 <= j <= i :: !turns[j].op.Outside?
    ensures SafeThroughout(w.t, turns[i].evs) && NoWorse(w.t, turns[i].after.t)
    decreases i
  {
    if i == 0 {
      StepIsSafe(w, turns[0]);
    } else {
      assert !turns[0].op.Outside?;
      StepIsSafe(w, turns[0]);
      var w1, rest := turns[0].after, turns[1..];
      forall j | 0 <= j <= i - 1
        ensures !rest[j].op.Outside?
      {
        assert !turns[j + 1].op.Outside?;
      }
      InstallsNeverStrandAHost(w1, rest, i - 1);
      SafeFrom(w.t, w1.t, turns[i].evs);
      NoWorseTransitive(w.t, w1.t, turns[i].after.t);
    }
  }

  // ---------------------------------------------------------------- the answer "unchanged"

  /** The recorded expiry is that of the recorded fingerprint, which, while it counts, is that of the
      certificate NPM holds under the recorded id, if it still holds one. */
  ghost predicate Truthful(w: World) {
    && (w.c.id.Some? ==> w.c.id.value < w.t.nextCert)
    && (w.c.fingerprint.Some? ==> w.c.expires == Some(w.c.fingerprint.value.expires))
    && (w.c.id.Some? && w.c.fingerprint.Some? && w.c.ForOrigin() && w.c.id.value in w.t.certs ==>
          var cert := w.t.certs[w.c.id.value];
          cert.provider.Custom? && cert.pem.Some? && cert.pem.value.der == w.c.fingerprint.value)
  }

  lemma CustomKeepsTruth(w: World, name: string, pem: Pem, evs: seq<Event>, t1: Tables, r: Result<nat, NpmError>)
    requires Truthful(w) && CustomPost(w.t, name, pem, w.c.id, evs, t1, r)
    ensures Truthful(World(w.c, t1))
    ensures r.Ok? ==> Truthful(World(RecordOf(r.value, name, pem), t1))
  {
  }

  lemma StepKeepsTruth(w: World, turn: Turn)
    requires Step(w, turn) && Truthful(w)
    ensures Truthful(turn.after)
  {
    match turn.op
    case Manual(name, pem, force) =>
      if turn.answer.Ok? && turn.answer.value.Installed? {
        CustomKeepsTruth(w, name, pem, turn.evs, turn.after.t, Ok(turn.answer.value.id));
      } else if turn.answer.Err? && turn.after.t != w.t {
        var e :| CustomPost(w.t, name, pem, w.c.id, turn.evs, turn.after.t, Err(e));
        CustomKeepsTruth(w, name, pem, turn.evs, turn.after.t, Err(e));
      }
    case Issue(name, issued, now, force) =>
      if turn.answer.Ok? && turn.answer.value.Installed? {
        CustomKeepsTruth(w, name, issued.value, turn.evs, turn.after.t, Ok(turn.answer.value.id));
      } else if turn.answer.Err? && turn.after.t != w.t {
        var e :| CustomPost(w.t, name, issued.value, w.c.id, turn.evs, turn.after.t, Err(e));
        CustomKeepsTruth(w, name, issued.value, turn.evs, turn.after.t, Err(e));
      }
    case LetsEncryptOp(name, domains, now, force) =>
    case Outside =>
  }

  lemma {:induction false} RunKeepsTruth(w: World, turns: seq<Turn>, i: nat)
    requires IsRun(w, turns) && Truthful(w) && i <= |turns|
    ensures Truthful(Before(w, turns, i))
    decreases i
  {
    if i == 0 {
    } else {
      StepKeepsTruth(w, turns[0]);
      RunKeepsTruth(turns[0].after, turns[1..], i - 1);
    }
  }

  /** "Unchanged" is answered only when NPM holds that exact certificate under the recorded id, and
      then nothing was written anywhere. */
  lemma UnchangedIsTrue(w: World, turns: seq<Turn>, i: nat)
    requires IsRun(w, turns) && Truthful(w) && i < |turns|
    requires turns[i].op.Manual? && turns[i].answer.Ok? && turns[i].answer.value.Unchanged?
    ensures var b, id := Before(w, turns, i), turns[i].answer.value.id;
            && b.c.id == Some(id) && id in b.t.certs && b.t.certs[id].pem.Some?
            && b.t.certs[id].pem.value.der == turns[i].op.pem.der
    ensures turns[i].after == Before(w, turns, i) && OnlyReads(turns[i].evs)
  {
    RunKeepsTruth(w, turns, i);
    StepAt(w, turns, i);
  }

  /** Installing a certificate twice: when the first install succeeded and every request of the
      second is answered, the second answers "unchanged" with the id of the first. */
  lemma SecondInstallIsUnchanged(w: World, first: Turn, second: Turn)
    requires Step(w, first) && Step(first.after, second)
    requires first.op.Manual? && second.op == Manual(first.op.name, first.op.pem, false)
    requires first.answer.Ok? && first.answer.value.Installed?
    requires AllDone(second.evs)
    ensures second.answer == Ok(Unchanged(first.answer.value.id))
    ensures second.after == first.after
  {
  }

  // ---------------------------------------------------------------- after a mode switch

  /** Since a Let's Encrypt install, no origin install has succeeded. */
  ghost predicate NoOriginSince(turns: seq<Turn>, j: nat, i: nat)
    requires i <= |turns|
  {
    forall k | j < k < i :: !(turns[k].answer.Ok? && turns[k].answer.value.Installed?)
  }

  lemma {:induction false} RecordStaysLetsEncrypt(w: World, turns: seq<Turn>, j: nat, i: nat)
    requires IsRun(w, turns) && j < i <= |turns|
    requires turns[j].op.LetsEncryptOp? && turns[j].answer.Ok?
    requires NoOriginSince(turns, j, i)
    ensures Before(w, turns, i).c.kind.LetsEncrypted? && Before(w, turns, i).c.fingerprint.None?
    decreases i
  {
    StepAt(w, turns, i - 1);
    if i - 1 == j {
    } else {
      RecordStaysLetsEncrypt(w, turns, j, i - 1);
    }
  }

  /** After a Let's Encrypt install, switching back never believes the Origin certificate is still
      installed: the answer is an upload or an error. */
  lemma LetsEncryptForcesReupload(w: World, turns: seq<Turn>, j: nat, i: nat)
    requires IsRun(w, turns) && j < i < |turns|
    requires turns[j].op.LetsEncryptOp? && turns[j].answer.Ok?
    requires NoOriginSince(turns, j, i)
    requires turns[i].op.Manual? || turns[i].op.Issue?
    ensures turns[i].answer.Err? || turns[i].answer.value.Installed?
  {
    RecordStaysLetsEncrypt(w, turns, j, i);
    StepAt(w, turns, i);
  }
}
