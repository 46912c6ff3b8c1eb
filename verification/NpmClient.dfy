/** The NPM API client: certificate replacement and proxy-host reconciliation. */
module NpmClient {
  import opened Common
  import opened NpmServer
  import Names

  datatype NpmError =
    | RequestFailed(outcome: Outcome)
    | MovesFailed(hosts: seq<nat>)

  // ---------------------------------------------------------------- listings

  method ListHosts(npm: Npm) returns (r: Result<seq<HostRec>, NpmError>, ghost evs: seq<Event>)
    requires npm.Valid()
    modifies npm
    ensures npm.Valid() && npm.t == old(npm.t)
    ensures npm.log == old(npm.log) + evs
    ensures |evs| == 1 && evs[0].req.GetHosts? && evs[0].after == npm.t
    ensures r.Ok? == evs[0].outcome.Done? && r.Err? == evs[0].outcome.Failed()
    ensures r.Err? ==> r.error == RequestFailed(evs[0].outcome)
    ensures r.Ok? ==> ListsHosts(r.value, npm.t.hosts)
  {
    var o := npm.Send(GetHosts);
    evs := [Event(GetHosts, o, npm.t)];
    if o.Failed() {
      return Err(RequestFailed(o)), evs;
    }
    var s := HostListing(npm.t.hosts);
    r := Ok(s);
  }

  method ListCerts(npm: Npm) returns (r: Result<seq<CertRec>, NpmError>, ghost evs: seq<Event>)
    requires npm.Valid()
    modifies npm
    ensures npm.Valid() && npm.t == old(npm.t)
    ensures npm.log == old(npm.log) + evs
    ensures |evs| == 1 && evs[0].req.GetCerts? && evs[0].after == npm.t
    ensures r.Ok? == evs[0].outcome.Done? && r.Err? == evs[0].outcome.Failed()
    ensures r.Ok? ==> ListsCerts(r.value, npm.t.certs)
  {
    var o := npm.Send(GetCerts);
    evs := [Event(GetCerts, o, npm.t)];
    if o.Failed() {
      return Err(RequestFailed(o)), evs;
    }
    var s := CertListing(npm.t.certs);
    r := Ok(s);
  }

  /** Appending one event, with what that does to the summaries of the whole sequence. */
  ghost function Extend(evs: seq<Event>, e: Event): (r: seq<Event>)
    ensures |r| == |evs| + 1 && r[|evs|] == e && r[..|evs|] == evs
    ensures forall i | 0 <= i < |evs| :: r[i] == evs[i]
    ensures AllDone(r) <==> AllDone(evs) && e.outcome.Done?
    ensures NoneFailed(r) <==> NoneFailed(evs) && !e.outcome.Failed()
    ensures NoneCut(r) <==> NoneCut(evs) && !e.outcome.Cut()
  {
    var r := evs + [e];
    assert r[|evs|] == e;
    assert forall i | 0 <= i < |evs| :: r[i] == evs[i];
    r
  }

  lemma LogExtends(log: seq<Event>, evs: seq<Event>, e: Event)
    ensures (log + evs) + [e] == log + Extend(evs, e)
  {
  }

  // ---------------------------------------------------------------- moving hosts

  /** `s` names exactly the members of `ids`, each once. */
  ghost predicate Enumerates(s: seq<nat>, ids: set<nat>) {
    && (forall i, j | 0 <= i < j < |s| :: s[i] != s[j])
    && (forall i | 0 <= i < |s| :: s[i] in ids)
    && (forall x | x in ids :: x in s)
  }

  /** Every host is as it was, or was on one of `olds` and is now on `to`. */
  ghost predicate PartlyMoved(h0: map<nat, Fields>, h1: map<nat, Fields>, olds: set<nat>, to: nat) {
    && h0.Keys == h1.Keys
    && forall h | h in h0 ::
         h1[h] == h0[h] || (CertOf(h0[h]) in olds && h1[h] == h0[h][CertificateId := Num(to)])
  }

  /** The host table with every host on one of `olds` moved to `to` and nothing else changed. */
  ghost function Moved(hosts: map<nat, Fields>, olds: set<nat>, to: nat): map<nat, Fields> {
    map h | h in hosts :: if CertOf(hosts[h]) in olds then hosts[h][CertificateId := Num(to)] else hosts[h]
  }

  lemma MovingToServableIsSafe(t0: Tables, t1: Tables, olds: set<nat>, to: nat)
    requires t1.certs == t0.certs && PartlyMoved(t0.hosts, t1.hosts, olds, to) && Servable(t0, to)
    ensures NoWorse(t0, t1)
  {
  }

  lemma PartlyMovedCompose(h0: map<nat, Fields>, h1: map<nat, Fields>, h2: map<nat, Fields>,
                           a: set<nat>, b: set<nat>, to: nat)
    requires PartlyMoved(h0, h1, a, to) && PartlyMoved(h1, h2, b, to)
    ensures PartlyMoved(h0, h2, a + b, to)
  {
  }

  lemma MovedCompose(h0: map<nat, Fields>, a: set<nat>, b: set<nat>, to: nat)
    requires to !in a && to !in b
    ensures Moved(Moved(h0, a, to), b, to) == Moved(h0, a + b, to)
  {
  }

  method HostsUsing(npm: Npm, cert: nat) returns (r: Result<seq<nat>, NpmError>, ghost evs: seq<Event>)
    requires npm.Valid()
    modifies npm
    ensures npm.Valid() && npm.t == old(npm.t)
    ensures npm.log == old(npm.log) + evs
    ensures |evs| == 1 && evs[0].req.GetHosts? && evs[0].after == npm.t
    ensures r.Ok? == evs[0].outcome.Done? && r.Err? == evs[0].outcome.Failed()
    ensures r.Err? ==> r.error == RequestFailed(evs[0].outcome)
    ensures r.Ok? ==> Enumerates(r.value, HostsOn(npm.t, cert))
  {
    var listing;
    listing, evs := ListHosts(npm);
    if listing.Err? {
      return Err(listing.error), evs;
    }
    var all := listing.value;
    var users: seq<nat> := [];
    for i := 0 to |all|
      invariant forall k, j | 0 <= k < j < |users| :: users[k] != users[j]
      invariant forall k | 0 <= k < |users| :: users[k] in HostsOn(npm.t, cert)
      invariant forall k | 0 <= k < |users| :: exists j | 0 <= j < i :: all[j].id == users[k]
      invariant forall j | 0 <= j < i && CertOf(all[j].fields) == cert :: all[j].id in users
    {
      if CertOf(all[i].fields) == cert {
        users := users + [all[i].id];
      }
    }
    forall h | h in HostsOn(npm.t, cert)
      ensures h in users
    {
      assert HostRec(h, npm.t.hosts[h]) in all;
    }
    r := Ok(users);
  }

  /** The requests of a re-point: one listing, then one PUT for each host that was listed, whatever
      was answered to the earlier ones; only a PUT that is not answered at all ends them early. */
  ghost predicate RepointsEach(evs: seq<Event>, users: set<nat>, to: nat) {
    && 1 <= |evs| && evs[0].req.GetHosts?
    && (forall i | 1 <= i < |evs| :: evs[i].req.Repoint? && evs[i].req.to == to && evs[i].req.host in users)
    && (forall i, j | 1 <= i < j < |evs| :: evs[i].req != evs[j].req)
    && (evs[0].outcome.Failed() ==> |evs| == 1)
    && (forall i | 0 <= i < |evs| - 1 :: !evs[i].outcome.Cut())
    && (!evs[0].outcome.Failed() && !evs[|evs| - 1].outcome.Cut() ==>
          forall h | h in users :: exists i :: 1 <= i < |evs| && evs[i].req == Repoint(h, to))
  }

  /** A listing or a re-point, after which some hosts of `t0` are moved and nothing else changed. */
  ghost predicate MoveEvent(t0: Tables, e: Event, olds: set<nat>, to: nat) {
    && (e.req.GetHosts? || e.req.Repoint?)
    && e.after == t0.(hosts := e.after.hosts)
    && PartlyMoved(t0.hosts, e.after.hosts, olds, to)
  }

  ghost predicate OnlyMoves(t0: Tables, evs: seq<Event>, olds: set<nat>, to: nat) {
    forall i | 0 <= i < |evs| :: MoveEvent(t0, evs[i], olds, to)
  }

  /** What a run of re-points did: from `t0` to `t1` some hosts on `olds` went to `to` and nothing
      else changed, at any point; and if nothing went wrong, all of them did. */
  ghost predicate MovedBy(t0: Tables, evs: seq<Event>, t1: Tables, olds: set<nat>, to: nat) {
    && t1 == t0.(hosts := t1.hosts)
    && PartlyMoved(t0.hosts, t1.hosts, olds, to)
    && OnlyMoves(t0, evs, olds, to)
    && (AllDone(evs) ==> t1.hosts == Moved(t0.hosts, olds, to))
  }

  lemma OnlyMovesExtend(t0: Tables, evs: seq<Event>, e: Event, olds: set<nat>, to: nat)
    requires OnlyMoves(t0, evs, olds, to) && MoveEvent(t0, e, olds, to)
    ensures OnlyMoves(t0, Extend(evs, e), olds, to)
  {
  }

  /** Where the loop over `users` stands after `i` of them. */
  ghost predicate MovedSoFar(t0: Tables, t: Tables, users: seq<nat>, i: nat, oldId: nat, newId: nat) {
    && t == t0.(hosts := t.hosts)
    && PartlyMoved(t0.hosts, t.hosts, {oldId}, newId)
    && (forall j | i <= j < |users| :: users[j] in t0.hosts && t.hosts[users[j]] == t0.hosts[users[j]])
  }

  ghost predicate AllMovedSoFar(t0: Tables, t: Tables, users: seq<nat>, i: nat, newId: nat) {
    forall j | 0 <= j < i && j < |users| ::
      users[j] in t0.hosts && users[j] in t.hosts && t.hosts[users[j]] == t0.hosts[users[j]][CertificateId := Num(newId)]
  }

  lemma MoveStep(t0: Tables, t: Tables, e: Event, users: seq<nat>, i: nat, oldId: nat, newId: nat)
    requires MovedSoFar(t0, t, users, i, oldId, newId) && i < |users|
    requires Enumerates(users, HostsOn(t0, oldId))
    requires Legal(t, e) && e.req == Repoint(users[i], newId)
    ensures MovedSoFar(t0, e.after, users, i + 1, oldId, newId)
    ensures AllMovedSoFar(t0, t, users, i, newId) && e.outcome.Done? ==> AllMovedSoFar(t0, e.after, users, i + 1, newId)
  {
  }

  lemma AllMovedIsMoved(t0: Tables, t: Tables, users: seq<nat>, oldId: nat, newId: nat)
    requires MovedSoFar(t0, t, users, |users|, oldId, newId)
    requires Enumerates(users, HostsOn(t0, oldId))
    requires AllMovedSoFar(t0, t, users, |users|, newId)
    ensures t.hosts == Moved(t0.hosts, {oldId}, newId)
  {
    forall h | h in t0.hosts
      ensures t.hosts[h] == Moved(t0.hosts, {oldId}, newId)[h]
    {
      if h in HostsOn(t0, oldId) {
        var k :| 0 <= k < |users| && users[k] == h;
      }
    }
  }

  /** A listing that worked, then one re-point for each of the first `i` users. */
  ghost predicate TriedSoFar(evs: seq<Event>, users: seq<nat>, i: nat, to: nat) {
    && i <= |users| && |evs| == i + 1
    && evs[0].req.GetHosts? && !evs[0].outcome.Failed()
    && (forall j | 0 <= j < i :: evs[j + 1].req == Repoint(users[j], to))
    && (forall j | 0 <= j < i :: !evs[j].outcome.Cut())
  }

  lemma TryStep(evs: seq<Event>, e: Event, users: seq<nat>, i: nat, to: nat)
    requires TriedSoFar(evs, users, i, to) && i < |users| && e.req == Repoint(users[i], to)
    requires !evs[i].outcome.Cut()
    ensures TriedSoFar(Extend(evs, e), users, i + 1, to)
  {
  }

  lemma RepointsEachOf(evs: seq<Event>, users: seq<nat>, i: nat, ids: set<nat>, to: nat)
    requires Enumerates(users, ids) && TriedSoFar(evs, users, i, to)
    requires i == |users| || evs[i].outcome.Cut()
    ensures RepointsEach(evs, ids, to)
  {
    if i == |users| {
      forall h | h in ids
        ensures exists i :: 1 <= i < |evs| && evs[i].req == Repoint(h, to)
      {
        var k :| 0 <= k < |users| && users[k] == h;
        assert evs[k + 1].req == Repoint(h, to);
      }
    }
    forall i | 1 <= i < |evs|
      ensures evs[i].req == Repoint(users[i - 1], to)
    {
      var k := i - 1;
      assert evs[k + 1].req == Repoint(users[k], to);
    }
  }

  ghost predicate AllTried(evs: seq<Event>, users: set<nat>, to: nat) {
    forall h | h in users :: exists i :: 1 <= i < |evs| && evs[i].req == Repoint(h, to)
  }

  ghost function TriedIn(evs: seq<Event>, n: nat): set<nat> {
    set i | 1 <= i < n && i < |evs| && evs[i].req.Repoint? :: evs[i].req.host
  }

  lemma TriedStep(evs: seq<Event>, users: set<nat>, to: nat, n: nat)
    requires RepointsEach(evs, users, to) && 2 <= n <= |evs|
    ensures TriedIn(evs, n) == TriedIn(evs, n - 1) + {evs[n - 1].req.host}
    ensures evs[n - 1].req.host in users && evs[n - 1].req.host !in TriedIn(evs, n - 1)
  {
    forall i | 1 <= i < n - 1
      ensures evs[i].req.host != evs[n - 1].req.host
    {
      assert evs[i].req != evs[n - 1].req;
    }
  }

  lemma {:induction false} TriedCount(evs: seq<Event>, users: set<nat>, to: nat, n: nat)
    requires RepointsEach(evs, users, to) && 1 <= n <= |evs|
    ensures |TriedIn(evs, n)| == n - 1 && TriedIn(evs, n) <= users
  {
    if n == 1 {
      assert TriedIn(evs, 1) == {};
    } else {
      TriedCount(evs, users, to, n - 1);
      TriedStep(evs, users, to, n);
    }
  }

  lemma SubsetOfSameSize(a: set<nat>, b: set<nat>)
    requires a <= b && |a| == |b|
    ensures a == b
  {
    assert b == a + (b - a);
  }

  /** The documented promise that one failure does not abandon the rest is kept exactly when no
      request went unanswered, or only the one for the last host. */
  lemma AllTriedExactly(evs: seq<Event>, users: set<nat>, to: nat)
    requires RepointsEach(evs, users, to) && !evs[0].outcome.Failed()
    ensures AllTried(evs, users, to) <==> !evs[|evs| - 1].outcome.Cut() || |evs| == |users| + 1
  {
    TriedCount(evs, users, to, |evs|);
    if |evs| == |users| + 1 {
      SubsetOfSameSize(TriedIn(evs, |evs|), users);
    }
    if AllTried(evs, users, to) {
      assert TriedIn(evs, |evs|) == users;
    }
  }

  /** A server that refuses every re-point before the `k`th without an effect, and does not answer
      that one. */
  ghost function CutRun(t: Tables, users: seq<nat>, k: nat, to: nat): seq<Event>
    requires k < |users|
  {
    [Event(GetHosts, Done, t)]
    + seq(k + 1, i requires 0 <= i <= k => Event(Repoint(users[i], to), if i < k then LostBefore else CutBefore, t))
  }

  /** Whichever re-point is cut off, the hosts after it are never tried. */
  lemma CutAbandonsTheRest(t: Tables, cert: nat, users: seq<nat>, k: nat, to: nat)
    requires Enumerates(users, HostsOn(t, cert)) && k < |users|
    ensures var evs := CutRun(t, users, k, to);
            && (forall i | 0 <= i < |evs| :: Legal(t, evs[i]) && evs[i].after == t)
            && RepointsEach(evs, HostsOn(t, cert), to)
            && forall i, j | 0 <= i < |evs| && k < j < |users| :: evs[i].req != Repoint(users[j], to)
  {
    var evs := CutRun(t, users, k, to);
    forall i | 0 <= i < k + 1
      ensures evs[i + 1].req == Repoint(users[i], to) && !evs[i].outcome.Cut()
    {
    }
    RepointsEachOf(evs, users, k + 1, HostsOn(t, cert), to);
    forall i | 0 <= i < |evs|
      ensures Legal(t, evs[i]) && evs[i].after == t
      ensures forall j | k < j < |users| :: evs[i].req != Repoint(users[j], to)
    {
      CutRunAt(t, users, k, to, i);
    }
  }

  lemma CutRunAt(t: Tables, users: seq<nat>, k: nat, to: nat, i: nat)
    requires k < |users| && i <= k + 1 && forall j | 0 <= j < |users| && j != i - 1 && 1 <= i :: users[j] != users[i - 1]
    ensures var evs := CutRun(t, users, k, to);
            && |evs| == k + 2 && Legal(t, evs[i]) && evs[i].after == t
            && forall j | k < j < |users| :: evs[i].req != Repoint(users[j], to)
  {
  }

  /** `hosts` are those a re-point of which was answered with an error. */
  ghost predicate FailedMoves(evs: seq<Event>, hosts: seq<nat>) {
    forall h :: h in hosts <==> exists i :: 0 <= i < |evs| && evs[i].req.Repoint? && evs[i].req.host == h && evs[i].outcome.Failed()
  }

  lemma FailedMovesStep(evs: seq<Event>, e: Event, hosts: seq<nat>, h: nat)
    requires FailedMoves(evs, hosts) && e.req.Repoint? && e.req.host == h
    ensures FailedMoves(Extend(evs, e), if e.outcome.Failed() then hosts + [h] else hosts)
  {
    var all, failed := Extend(evs, e), if e.outcome.Failed() then hosts + [h] else hosts;
    forall k
      ensures k in failed <==> exists i :: 0 <= i < |all| && all[i].req.Repoint? && all[i].req.host == k && all[i].outcome.Failed()
    {
      if k in hosts {
        var i :| 0 <= i < |evs| && evs[i].req.Repoint? && evs[i].req.host == k && evs[i].outcome.Failed();
        assert all[i] == evs[i];
      }
      if k == h && e.outcome.Failed() {
        assert all[|evs|] == e;
      }
    }
  }

  /** Move every host off `oldId`. A failure that was answered does not abandon the rest, and is
      reported. */
  method RepointHosts(npm: Npm, oldId: nat, newId: nat) returns (r: Result<(), NpmError>, ghost evs: seq<Event>)
    requires npm.Valid()
    modifies npm
    ensures npm.Valid() && npm.log == old(npm.log) + evs
    ensures RepointsEach(evs, HostsOn(old(npm.t), oldId), newId) && evs[0].after == old(npm.t)
    ensures r.Ok? <==> NoneFailed(evs)
    ensures r.Err? && r.error.MovesFailed? ==> FailedMoves(evs, r.error.hosts)
    ensures MovedBy(old(npm.t), evs, npm.t, {oldId}, newId)
  {
    ghost var t0 := npm.t;
    var listing;
    listing, evs := HostsUsing(npm, oldId);
    if listing.Err? {
      return Err(listing.error), evs;
    }
    var users := listing.value;
    var failures: seq<nat> := [];
    for i := 0 to |users|
      invariant npm.Valid() && npm.log == old(npm.log) + evs
      invariant TriedSoFar(evs, users, i, newId) && !evs[i].outcome.Cut() && evs[0].after == t0
      invariant (failures == [] <==> NoneFailed(evs)) && FailedMoves(evs, failures)
      invariant MovedSoFar(t0, npm.t, users, i, oldId, newId)
      invariant OnlyMoves(t0, evs, {oldId}, newId)
      invariant AllDone(evs) ==> AllMovedSoFar(t0, npm.t, users, i, newId)
    {
      ghost var t := npm.t;
      var o := npm.Send(Repoint(users[i], newId));
      ghost var e := Event(Repoint(users[i], newId), o, npm.t);
      MoveStep(t0, t, e, users, i, oldId, newId);
      TryStep(evs, e, users, i, newId);
      OnlyMovesExtend(t0, evs, e, {oldId}, newId);
      LogExtends(old(npm.log), evs, e);
      FailedMovesStep(evs, e, failures, users[i]);
      evs := Extend(evs, e);
      if o.Cut() {
        RepointsEachOf(evs, users, i + 1, HostsOn(t0, oldId), newId);
        return Err(RequestFailed(o)), evs;
      }
      if o.Failed() {
        failures := failures + [users[i]];
      }
    }
    RepointsEachOf(evs, users, |users|, HostsOn(t0, oldId), newId);
    if AllDone(evs) {
      AllMovedIsMoved(t0, npm.t, users, oldId, newId);
    }
    r := if failures == [] then Ok(()) else Err(MovesFailed(failures));
  }

  // ---------------------------------------------------------------- replacing a certificate

  lemma OnlyMovesWiden(t0: Tables, t: Tables, evs: seq<Event>, a: set<nat>, b: set<nat>, to: nat)
    requires t == t0.(hosts := t.hosts) && PartlyMoved(t0.hosts, t.hosts, a, to)
    requires OnlyMoves(t, evs, b, to)
    ensures OnlyMoves(t0, evs, a + b, to)
  {
    forall i | 0 <= i < |evs|
      ensures MoveEvent(t0, evs[i], a + b, to)
    {
      assert MoveEvent(t, evs[i], b, to);
      PartlyMovedCompose(t0.hosts, t.hosts, evs[i].after.hosts, a, b, to);
    }
  }

  lemma OnlyMovesMono(t0: Tables, evs: seq<Event>, a: set<nat>, b: set<nat>, to: nat)
    requires OnlyMoves(t0, evs, a, to) && a <= b
    ensures OnlyMoves(t0, evs, b, to)
  {
    forall i | 0 <= i < |evs|
      ensures MoveEvent(t0, evs[i], b, to)
    {
      assert MoveEvent(t0, evs[i], a, to);
    }
  }

  ghost predicate NoDeletes(evs: seq<Event>) {
    forall i | 0 <= i < |evs| :: !evs[i].req.DeleteCert?
  }

  ghost predicate NoRepoints(evs: seq<Event>) {
    forall i | 0 <= i < |evs| :: !evs[i].req.Repoint?
  }

  /** How two runs of events combine. */
  lemma Joined(x: seq<Event>, y: seq<Event>)
    ensures AllDone(x + y) <==> AllDone(x) && AllDone(y)
    ensures NoneFailed(x + y) <==> NoneFailed(x) && NoneFailed(y)
    ensures NoneCut(x + y) <==> NoneCut(x) && NoneCut(y)
    ensures NoDeletes(x + y) <==> NoDeletes(x) && NoDeletes(y)
    ensures NoRepoints(x + y) <==> NoRepoints(x) && NoRepoints(y)
    ensures forall log: seq<Event> {:trigger log + x} :: (log + x) + y == log + (x + y)
  {
    assert forall i | 0 <= i < |x| :: (x + y)[i] == x[i];
    assert forall i | 0 <= i < |y| :: (x + y)[|x| + i] == y[i];
  }

  /** Re-points of one record after those of others. */
  lemma MovedByCompose(t0: Tables, x: seq<Event>, t: Tables, y: seq<Event>, t1: Tables,
                       a: set<nat>, b: set<nat>, to: nat)
    requires to !in a + b
    requires MovedBy(t0, x, t, a, to) && MovedBy(t, y, t1, b, to)
    ensures MovedBy(t0, x + y, t1, a + b, to)
  {
    PartlyMovedCompose(t0.hosts, t.hosts, t1.hosts, a, b, to);
    OnlyMovesWiden(t0, t, y, a, b, to);
    OnlyMovesMono(t0, x, a, a + b, to);
    MovedCompose(t0.hosts, a, b, to);
    Joined(x, y);
    forall i | 0 <= i < |x + y|
      ensures MoveEvent(t0, (x + y)[i], a + b, to)
    {
      assert (x + y)[i] == if i < |x| then x[i] else y[i - |x|];
    }
  }

  /** An incomplete run of re-points is also one over a larger set of records. */
  lemma MovedByWiden(t0: Tables, evs: seq<Event>, t1: Tables, a: set<nat>, b: set<nat>, to: nat)
    requires MovedBy(t0, evs, t1, a, to) && a <= b && !AllDone(evs)
    ensures MovedBy(t0, evs, t1, b, to)
  {
    OnlyMovesMono(t0, evs, a, b, to);
  }

  lemma SafeConcat(t0: Tables, x: seq<Event>, y: seq<Event>)
    requires SafeThroughout(t0, x) && SafeThroughout(t0, y)
    ensures SafeThroughout(t0, x + y)
  {
  }

  lemma SafeFrom(t0: Tables, t: Tables, evs: seq<Event>)
    requires NoWorse(t0, t) && SafeThroughout(t, evs)
    ensures SafeThroughout(t0, evs)
  {
    forall i | 0 <= i < |evs|
      ensures NoWorse(t0, evs[i].after)
    {
      NoWorseTransitive(t0, t, evs[i].after);
    }
  }

  lemma OnlyMovesSafe(t0: Tables, evs: seq<Event>, olds: set<nat>, to: nat)
    requires OnlyMoves(t0, evs, olds, to) && Servable(t0, to)
    ensures SafeThroughout(t0, evs)
  {
    forall i | 0 <= i < |evs|
      ensures NoWorse(t0, evs[i].after)
    {
      assert MoveEvent(t0, evs[i], olds, to);
      MovingToServableIsSafe(t0, evs[i].after, olds, to);
    }
  }

  ghost function Members(s: seq<nat>): set<nat> { set x | x in s }

  lemma MembersStep(s: seq<nat>, i: nat)
    requires i < |s|
    ensures Members(s[..i + 1]) == Members(s[..i]) + {s[i]}
    ensures Members(s[..i + 1]) <= Members(s) && s[i] in Members(s)
    ensures forall x | x !in s :: x !in Members(s[..i + 1])
  {
    assert s[..i + 1] == s[..i] + [s[i]];
    assert forall x | x in s[..i + 1] :: x in s;
  }

  lemma FailedIsNotDone(evs: seq<Event>)
    requires !NoneFailed(evs)
    ensures !AllDone(evs)
  {
  }

  /** The events end with a complete re-point of one of `olds`. */
  ghost predicate EndsWithFullMove(evs: seq<Event>, olds: set<nat>, to: nat) {
    exists k, c :: 0 <= k < |evs| && c in olds && RepointsEach(evs[k..], HostsOn(evs[k].after, c), to)
  }

  lemma FullMoveAtEnd(x: seq<Event>, y: seq<Event>, c: nat, olds: set<nat>, to: nat)
    requires 1 <= |y| && c in olds && RepointsEach(y, HostsOn(y[0].after, c), to)
    ensures EndsWithFullMove(x + y, olds, to)
  {
    assert (x + y)[|x|..] == y && (x + y)[|x|] == y[0];
  }

  lemma FullMoveKept(x: seq<Event>, y: seq<Event>, olds: set<nat>, to: nat)
    requires EndsWithFullMove(y, olds, to)
    ensures EndsWithFullMove(x + y, olds, to)
  {
    var k, c :| 0 <= k < |y| && c in olds && RepointsEach(y[k..], HostsOn(y[k].after, c), to);
    assert (x + y)[|x| + k..] == y[k..] && (x + y)[|x| + k] == y[k];
  }

  /** Re-point the hosts of each superseded record in turn, stopping at the first record some
      host of which could not be moved. */
  method MoveAll(npm: Npm, olds: seq<nat>, to: nat) returns (r: Result<(), NpmError>, ghost evs: seq<Event>)
    requires npm.Valid() && to !in olds
    modifies npm
    ensures npm.Valid() && npm.log == old(npm.log) + evs
    ensures r.Ok? <==> NoneFailed(evs)
    ensures MovedBy(old(npm.t), evs, npm.t, Members(olds), to)
    ensures r.Err? ==> EndsWithFullMove(evs, Members(olds), to)
  {
    ghost var t0 := npm.t;
    evs := [];
    for i := 0 to |olds|
      invariant npm.Valid() && npm.log == old(npm.log) + evs
      invariant NoneFailed(evs)
      invariant MovedBy(t0, evs, npm.t, Members(olds[..i]), to)
    {
      ghost var before, t, a := evs, npm.t, Members(olds[..i]);
      ghost var more;
      r, more := RepointHosts(npm, olds[i], to);
      evs := before + more;
      Joined(before, more);
      MembersStep(olds, i);
      MovedByCompose(t0, before, t, more, npm.t, a, {olds[i]}, to);
      if r.Err? {
        FailedIsNotDone(more);
        MovedByWiden(t0, evs, npm.t, Members(olds[..i + 1]), Members(olds), to);
        FullMoveAtEnd(before, more, olds[i], Members(olds), to);
        return r, evs;
      }
    }
    assert olds[..|olds|] == olds;
    r := Ok(());
  }

  // ---------------------------------------------------------------- sweeping superseded records

  /** Some of `olds` that no host uses are gone, and nothing else changed. */
  ghost predicate PartlySwept(t0: Tables, t1: Tables, olds: set<nat>) {
    && t1 == t0.(certs := t1.certs)
    && (forall c | c in t1.certs :: c in t0.certs && t1.certs[c] == t0.certs[c])
    && (forall c | c in t0.certs && c !in t1.certs :: c in olds && HostsOn(t0, c) == {})
  }

  ghost predicate SweepEvent(t0: Tables, e: Event, olds: set<nat>) {
    && (e.req.GetHosts? || e.req.DeleteCert?)
    && PartlySwept(t0, e.after, olds)
  }

  ghost predicate OnlySweeps(t0: Tables, evs: seq<Event>, olds: set<nat>) {
    forall i | 0 <= i < |evs| :: SweepEvent(t0, evs[i], olds)
  }

  /** Of `olds`, exactly those still in use remain. */
  ghost predicate Swept(t0: Tables, t1: Tables, olds: set<nat>) {
    forall c | c in olds && c in t0.certs :: c in t1.certs <==> HostsOn(t0, c) != {}
  }

  lemma OnlySweepsExtend(t0: Tables, evs: seq<Event>, e: Event, olds: set<nat>)
    requires OnlySweeps(t0, evs, olds) && SweepEvent(t0, e, olds)
    ensures OnlySweeps(t0, Extend(evs, e), olds)
  {
  }

  lemma SweptIsSafe(t0: Tables, t1: Tables, olds: set<nat>)
    requires PartlySwept(t0, t1, olds)
    ensures NoWorse(t0, t1)
  {
    forall h | h in t1.hosts && !Servable(t1, CertOf(t1.hosts[h]))
      ensures !Servable(t0, CertOf(t0.hosts[h]))
    {
      assert h in HostsOn(t0, CertOf(t0.hosts[h]));
    }
  }

  lemma OnlySweepsSafe(t0: Tables, evs: seq<Event>, olds: set<nat>)
    requires OnlySweeps(t0, evs, olds)
    ensures SafeThroughout(t0, evs)
  {
    forall i | 0 <= i < |evs|
      ensures NoWorse(t0, evs[i].after)
    {
      assert SweepEvent(t0, evs[i], olds);
      SweptIsSafe(t0, evs[i].after, olds);
    }
  }

  lemma DeleteStep(t0: Tables, t: Tables, e: Event, olds: seq<nat>, i: nat)
    requires i < |olds| && PartlySwept(t0, t, Members(olds)) && Swept(t0, t, Members(olds[..i]))
    requires Legal(t, e) && e.req == DeleteCert(olds[i]) && HostsOn(t, olds[i]) == {}
    ensures PartlySwept(t0, e.after, Members(olds))
    ensures e.outcome.Done? ==> Swept(t0, e.after, Members(olds[..i + 1]))
  {
    assert HostsOn(t0, olds[i]) == HostsOn(t, olds[i]);
    assert Members(olds[..i + 1]) == Members(olds[..i]) + {olds[i]};
  }

  lemma KeepStep(t0: Tables, t: Tables, olds: seq<nat>, i: nat)
    requires i < |olds| && PartlySwept(t0, t, Members(olds)) && Swept(t0, t, Members(olds[..i]))
    requires HostsOn(t, olds[i]) != {}
    ensures Swept(t0, t, Members(olds[..i + 1]))
  {
    assert HostsOn(t0, olds[i]) == HostsOn(t, olds[i]);
    assert Members(olds[..i + 1]) == Members(olds[..i]) + {olds[i]};
  }

  /** Delete each superseded record that no host uses any more. */
  method SweepAll(npm: Npm, olds: seq<nat>) returns (r: Result<(), NpmError>, ghost evs: seq<Event>)
    requires npm.Valid()
    modifies npm
    ensures npm.Valid() && npm.log == old(npm.log) + evs
    ensures r.Ok? <==> NoneFailed(evs)
    ensures PartlySwept(old(npm.t), npm.t, Members(olds))
    ensures OnlySweeps(old(npm.t), evs, Members(olds))
    ensures r.Ok? ==> Swept(old(npm.t), npm.t, Members(olds))
  {
    ghost var t0 := npm.t;
    evs := [];
    for i := 0 to |olds|
      invariant npm.Valid() && npm.log == old(npm.log) + evs
      invariant NoneFailed(evs)
      invariant PartlySwept(t0, npm.t, Members(olds))
      invariant OnlySweeps(t0, evs, Members(olds))
      invariant Swept(t0, npm.t, Members(olds[..i]))
    {
      ghost var t := npm.t;
      var users;
      ghost var listing;
      users, listing := HostsUsing(npm, olds[i]);
      OnlySweepsExtend(t0, evs, listing[0], Members(olds));
      LogExtends(old(npm.log), evs, listing[0]);
      assert listing == [listing[0]];
      evs := Extend(evs, listing[0]);
      if users.Err? {
        return Err(users.error), evs;
      }
      if users.value != [] {
        assert users.value[0] in HostsOn(npm.t, olds[i]);
        KeepStep(t0, npm.t, olds, i);
        continue;
      }
      assert HostsOn(npm.t, olds[i]) == {};
      var o := npm.Send(DeleteCert(olds[i]));
      ghost var e := Event(DeleteCert(olds[i]), o, npm.t);
      DeleteStep(t0, t, e, olds, i);
      OnlySweepsExtend(t0, evs, e, Members(olds));
      LogExtends(old(npm.log), evs, e);
      evs := Extend(evs, e);
      if o.Failed() {
        return Err(RequestFailed(o)), evs;
      }
    }
    assert olds[..|olds|] == olds;
    r := Ok(());
  }

  // ---------------------------------------------------------------- upload

  method FindCertificates(npm: Npm, name: string) returns (r: Result<seq<nat>, NpmError>, ghost evs: seq<Event>)
    requires npm.Valid()
    modifies npm
    ensures npm.Valid() && npm.t == old(npm.t)
    ensures npm.log == old(npm.log) + evs
    ensures |evs| == 1 && evs[0].req.GetCerts? && evs[0].after == npm.t
    ensures r.Ok? == evs[0].outcome.Done? && r.Err? == evs[0].outcome.Failed()
    ensures r.Ok? ==> Enumerates(r.value, Labelled(npm.t, name))
  {
    var listing;
    listing, evs := ListCerts(npm);
    if listing.Err? {
      return Err(listing.error), evs;
    }
    var all := listing.value;
    var found: seq<nat> := [];
    for i := 0 to |all|
      invariant forall k, j | 0 <= k < j < |found| :: found[k] != found[j]
      invariant forall k | 0 <= k < |found| :: found[k] in Labelled(npm.t, name)
      invariant forall k | 0 <= k < |found| :: exists j | 0 <= j < i :: all[j].id == found[k]
      invariant forall j | 0 <= j < i && all[j].cert.name == name :: all[j].id in found
    {
      if all[i].cert.name == name {
        found := found + [all[i].id];
      }
    }
    forall c | c in Labelled(npm.t, name)
      ensures c in found
    {
      assert CertRec(c, npm.t.certs[c]) in all;
    }
    r := Ok(found);
  }

  /** What an upload may do to certificates, whatever fails: a record with its label may be gone,
      and the new record may be there. */
  ghost predicate CertFootprint(t0: Tables, t1: Tables, name: string, pem: Pem) {
    var id := t0.nextCert;
    && t1.nextHost == t0.nextHost && t0.nextCert <= t1.nextCert <= t0.nextCert + 1
    && (forall c | c in t1.certs && c != id :: c in t0.certs && t1.certs[c] == t0.certs[c])
    && (forall c | c in t0.certs && c !in t1.certs :: t0.certs[c].name == name)
    && (id in t1.certs ==>
          && id < t1.nextCert
          && (t1.certs[id] == Cert(name, Custom, None, [], None) || t1.certs[id] == Cert(name, Custom, Some(pem), [], None)))
  }

  /** And to hosts: those on a record with its label may be on the new record. */
  ghost predicate UploadFootprint(t0: Tables, t1: Tables, name: string, pem: Pem) {
    && PartlyMoved(t0.hosts, t1.hosts, Labelled(t0, name), t0.nextCert)
    && CertFootprint(t0, t1, name, pem)
  }

  /** The outcome of a successful upload: the new record holds the certificate, and a record that
      had the label is still there exactly when a host still uses it. */
  ghost predicate UploadSucceeded(t0: Tables, t1: Tables, name: string, pem: Pem) {
    var id := t0.nextCert;
    && t1.nextCert == id + 1
    && id in t1.certs && t1.certs[id] == Cert(name, Custom, Some(pem), [], None)
    && forall c | c in Labelled(t0, name) :: c in t1.certs <==> HostsOn(t1, c) != {}
  }

  ghost predicate SomeMoveFailed(evs: seq<Event>) {
    exists i :: 0 <= i < |evs| && evs[i].req.Repoint? && evs[i].outcome.Failed()
  }

  /** Every record that is gone has no host on it. */
  ghost predicate GoneUnused(t0: Tables, t1: Tables) {
    forall h | h in t1.hosts && CertOf(t1.hosts[h]) in t0.certs :: CertOf(t1.hosts[h]) in t1.certs
  }

  ghost predicate UploadPost(t0: Tables, name: string, pem: Pem, evs: seq<Event>, t1: Tables,
                             r: Result<nat, NpmError>) {
    var olds := Labelled(t0, name);
    && UploadFootprint(t0, t1, name, pem)
    && SafeThroughout(t0, evs) && NoWorse(t0, t1)
    && GoneUnused(t0, t1)
    && (r.Ok? ==> r.value == t0.nextCert && NoneFailed(evs) && UploadSucceeded(t0, t1, name, pem))
    && (AllDone(evs) ==> r.Ok? && t1.hosts == Moved(t0.hosts, olds, t0.nextCert))
    && (SomeMoveFailed(evs) ==> r.Err? && NoDeletes(evs) && EndsWithFullMove(evs, olds, t0.nextCert))
  }

  /** Before any host moves, adding the new record changes nothing a host uses. */
  lemma FreshRecordIsSafe(t0: Tables, name: string, pem: Pem)
    requires WellFormed(t0)
    ensures NoWorse(t0, WithNewRecord(t0, name, Some(pem)))
  {
  }

  /** The record was created and filled without incident. */
  ghost predicate Started(t0: Tables, head: seq<Event>) {
    SafeThroughout(t0, head) && AllDone(head) && NoRepoints(head) && NoDeletes(head)
  }

  /** Moving hosts to the filled record is safe from where the upload began. */
  lemma MovingSafe(t0: Tables, m: Tables, name: string, pem: Pem, head: seq<Event>, moves: seq<Event>)
    requires WellFormed(t0) && Started(t0, head)
    requires MovedBy(WithNewRecord(t0, name, Some(pem)), moves, m, Labelled(t0, name), t0.nextCert)
    ensures SafeThroughout(t0, head + moves) && NoWorse(t0, m)
  {
    var t, olds := WithNewRecord(t0, name, Some(pem)), Labelled(t0, name);
    FreshRecordIsSafe(t0, name, pem);
    MovingToServableIsSafe(t, m, olds, t0.nextCert);
    NoWorseTransitive(t0, t, m);
    OnlyMovesSafe(t, moves, olds, t0.nextCert);
    SafeFrom(t0, t, moves);
    SafeConcat(t0, head, moves);
  }

  lemma UploadSafe(t0: Tables, m: Tables, t1: Tables, name: string, pem: Pem,
                   head: seq<Event>, moves: seq<Event>, sweeps: seq<Event>)
    requires WellFormed(t0) && Started(t0, head)
    requires MovedBy(WithNewRecord(t0, name, Some(pem)), moves, m, Labelled(t0, name), t0.nextCert)
    requires PartlySwept(m, t1, Labelled(t0, name)) && OnlySweeps(m, sweeps, Labelled(t0, name))
    ensures SafeThroughout(t0, head + moves + sweeps) && NoWorse(t0, t1)
  {
    MovingSafe(t0, m, name, pem, head, moves);
    OnlySweepsSafe(m, sweeps, Labelled(t0, name));
    SafeFrom(t0, m, sweeps);
    SafeConcat(t0, head + moves, sweeps);
    SweptIsSafe(m, t1, Labelled(t0, name));
    NoWorseTransitive(t0, m, t1);
  }

  lemma NoMoveFailed(x: seq<Event>, moves: seq<Event>, y: seq<Event>)
    requires NoRepoints(x) && NoneFailed(moves) && NoRepoints(y)
    ensures !SomeMoveFailed(x + moves + y)
  {
  }

  lemma SweepsDoNotMove(m: Tables, sweeps: seq<Event>, olds: set<nat>)
    requires OnlySweeps(m, sweeps, olds)
    ensures NoRepoints(sweeps)
  {
    forall i | 0 <= i < |sweeps|
      ensures !sweeps[i].req.Repoint?
    {
      assert SweepEvent(m, sweeps[i], olds);
    }
  }

  lemma UploadTables(t0: Tables, m: Tables, t1: Tables, name: string, pem: Pem)
    requires WellFormed(t0)
    requires var t := WithNewRecord(t0, name, Some(pem));
             m == t.(hosts := m.hosts) && PartlyMoved(t.hosts, m.hosts, Labelled(t0, name), t0.nextCert)
    requires PartlySwept(m, t1, Labelled(t0, name))
    ensures UploadFootprint(t0, t1, name, pem) && GoneUnused(t0, t1)
    ensures Swept(m, t1, Labelled(t0, name)) ==> UploadSucceeded(t0, t1, name, pem)
  {
    forall c | c in Labelled(t0, name)
      ensures HostsOn(m, c) == HostsOn(t1, c)
    {
    }
    forall h | h in t1.hosts && CertOf(t1.hosts[h]) in t0.certs
      ensures CertOf(t1.hosts[h]) in t1.certs
    {
      assert h in HostsOn(m, CertOf(t1.hosts[h]));
    }
  }

  lemma UploadDone(t0: Tables, m: Tables, t1: Tables, name: string, pem: Pem,
                   head: seq<Event>, moves: seq<Event>, sweeps: seq<Event>, r: Result<nat, NpmError>)
    requires WellFormed(t0) && Started(t0, head) && NoneFailed(moves)
    requires MovedBy(WithNewRecord(t0, name, Some(pem)), moves, m, Labelled(t0, name), t0.nextCert)
    requires PartlySwept(m, t1, Labelled(t0, name)) && OnlySweeps(m, sweeps, Labelled(t0, name))
    requires r.Ok? <==> NoneFailed(sweeps)
    requires r.Ok? ==> r.value == t0.nextCert && Swept(m, t1, Labelled(t0, name))
    ensures UploadPost(t0, name, pem, head + moves + sweeps, t1, r)
  {
    UploadSafe(t0, m, t1, name, pem, head, moves, sweeps);
    UploadTables(t0, m, t1, name, pem);
    SweepsDoNotMove(m, sweeps, Labelled(t0, name));
    NoMoveFailed(head, moves, sweeps);
    Joined(head, moves);
    Joined(head + moves, sweeps);
  }

  lemma UploadStopped(t0: Tables, m: Tables, name: string, pem: Pem,
                      head: seq<Event>, moves: seq<Event>, error: NpmError)
    requires WellFormed(t0) && Started(t0, head)
    requires MovedBy(WithNewRecord(t0, name, Some(pem)), moves, m, Labelled(t0, name), t0.nextCert)
    requires !NoneFailed(moves) && EndsWithFullMove(moves, Labelled(t0, name), t0.nextCert)
    ensures UploadPost(t0, name, pem, head + moves, m, Err(error))
  {
    MovingSafe(t0, m, name, pem, head, moves);
    UploadTables(t0, m, m, name, pem);
    Joined(head, moves);
    FailedIsNotDone(moves);
    FullMoveKept(head, moves, Labelled(t0, name), t0.nextCert);
    MovesDoNotDelete(WithNewRecord(t0, name, Some(pem)), moves, Labelled(t0, name), t0.nextCert);
  }

  lemma MovesDoNotDelete(t: Tables, moves: seq<Event>, olds: set<nat>, to: nat)
    requires OnlyMoves(t, moves, olds, to)
    ensures NoDeletes(moves)
  {
    forall i | 0 <= i < |moves|
      ensures !moves[i].req.DeleteCert?
    {
      assert MoveEvent(t, moves[i], olds, to);
    }
  }

  /** Nothing but the first requests, one of which failed. */
  lemma UploadNeverMoved(t0: Tables, name: string, pem: Pem, evs: seq<Event>, t1: Tables, error: NpmError)
    requires Prepared(t0, evs, t1, name, pem) && !AllDone(evs)
    ensures UploadPost(t0, name, pem, evs, t1, Err(error))
  {
  }

  /** The table right after the new record was created, with or without its certificate. */
  ghost function WithNewRecord(t0: Tables, name: string, pem: Option<Pem>): Tables {
    t0.(certs := t0.certs[t0.nextCert := Cert(name, Custom, pem, [], None)], nextCert := t0.nextCert + 1)
  }

  lemma NewRecordFootprint(t0: Tables, t1: Tables, name: string, pem: Pem)
    requires WellFormed(t0)
    requires t1 == t0 || t1 == WithNewRecord(t0, name, None) || t1 == WithNewRecord(t0, name, Some(pem))
          || t1 == t0.(nextCert := t0.nextCert + 1)
    ensures UploadFootprint(t0, t1, name, pem) && NoWorse(t0, t1) && GoneUnused(t0, t1)
  {
  }

  /** What the first requests of an upload can have done, whatever became of them. */
  ghost predicate Prepared(t0: Tables, evs: seq<Event>, t: Tables, name: string, pem: Pem) {
    SafeThroughout(t0, evs) && NoRepoints(evs) && NoWorse(t0, t) && GoneUnused(t0, t) && UploadFootprint(t0, t, name, pem)
  }

  lemma NothingPrepared(t0: Tables, name: string, pem: Pem)
    requires WellFormed(t0)
    ensures Prepared(t0, [], t0, name, pem)
  {
    NewRecordFootprint(t0, t0, name, pem);
  }

  lemma PrepareStep(t0: Tables, evs: seq<Event>, t: Tables, e: Event, name: string, pem: Pem)
    requires WellFormed(t0) && Prepared(t0, evs, t, name, pem) && !e.req.Repoint?
    requires e.after == t0 || e.after == WithNewRecord(t0, name, None) || e.after == WithNewRecord(t0, name, Some(pem))
          || e.after == t0.(nextCert := t0.nextCert + 1)
    ensures Prepared(t0, Extend(evs, e), e.after, name, pem)
    ensures NoDeletes(Extend(evs, e)) <==> NoDeletes(evs) && !e.req.DeleteCert?
  {
    NewRecordFootprint(t0, e.after, name, pem);
    assert Extend(evs, e)[|evs|] == e;
  }

  lemma UndoneRecord(t0: Tables, t: Tables, e: Event, name: string, pem: Option<Pem>)
    requires WellFormed(t0) && t == WithNewRecord(t0, name, pem)
    requires Legal(t, e) && e.req == DeleteCert(t0.nextCert)
    ensures e.after == t || e.after == t0.(nextCert := t0.nextCert + 1)
  {
    assert t.certs - {t0.nextCert} == t0.certs;
  }

  /** Create the new record and upload into it; an upload answered with an error removes it again. */
  method CreateRecord(npm: Npm, name: string, pem: Pem) returns (r: Result<nat, NpmError>, ghost evs: seq<Event>)
    requires npm.Valid()
    modifies npm
    ensures npm.Valid() && npm.log == old(npm.log) + evs
    ensures Prepared(old(npm.t), evs, npm.t, name, pem)
    ensures r.Ok? <==> AllDone(evs)
    ensures r.Ok? ==>
              && r.value == old(npm.t).nextCert
              && npm.t == WithNewRecord(old(npm.t), name, Some(pem))
              && NoDeletes(evs)
    ensures 1 <= |evs| <= 3 && (|evs| == 3 <==> 2 <= |evs| && evs[1].outcome.Failed() && !evs[1].outcome.Cut())
    ensures |evs| == 3 ==>
              && evs[2].req == DeleteCert(old(npm.t).nextCert)
              && (npm.t.certs == old(npm.t).certs <==> evs[2].outcome.TookEffect())
  {
    ghost var t0, log0 := npm.t, npm.log;
    var id := npm.t.nextCert;
    var o := npm.Send(CreateCert(name));
    ghost var e := Event(CreateCert(name), o, npm.t);
    evs := Extend([], e);
    LogExtends(log0, [], e);
    assert log0 + [] == log0;
    NothingPrepared(t0, name, pem);
    PrepareStep(t0, [], t0, e, name, pem);
    if o.Failed() {
      return Err(RequestFailed(o)), evs;
    }

    o := npm.Send(UploadCert(id, pem));
    e := Event(UploadCert(id, pem), o, npm.t);
    assert npm.t == WithNewRecord(t0, name, if o.TookEffect() then Some(pem) else None);
    PrepareStep(t0, evs, WithNewRecord(t0, name, None), e, name, pem);
    LogExtends(log0, evs, e);
    evs := Extend(evs, e);
    if o.Cut() {
      return Err(RequestFailed(o)), evs;
    }
    if o.Failed() {
      var error := RequestFailed(o);
      ghost var t := npm.t;
      o := npm.Send(DeleteCert(id));
      e := Event(DeleteCert(id), o, npm.t);
      UndoneRecord(t0, t, e, name, t.certs[id].pem);
      PrepareStep(t0, evs, t, e, name, pem);
      LogExtends(log0, evs, e);
      evs := Extend(evs, e);
      return Err(if o.Failed() then RequestFailed(o) else error), evs;
    }
    r := Ok(id);
  }

  /** Create (or replace) the custom certificate with this label and return its id. */
  method UploadCustomCertificate(npm: Npm, name: string, pem: Pem)
    returns (r: Result<nat, NpmError>, ghost evs: seq<Event>)
    requires npm.Valid()
    modifies npm
    ensures npm.Valid() && npm.log == old(npm.log) + evs
    ensures UploadPost(old(npm.t), name, pem, evs, npm.t, r)
  {
    ghost var t0 := npm.t;
    var superseded;
    ghost var listing;
    superseded, listing := FindCertificates(npm, name);
    NewRecordFootprint(t0, npm.t, name, pem);
    if superseded.Err? {
      UploadNeverMoved(t0, name, pem, listing, npm.t, superseded.error);
      return Err(superseded.error), listing;
    }
    assert Members(superseded.value) == Labelled(t0, name);

    var created;
    ghost var head;
    created, head := CreateRecord(npm, name, pem);
    Joined(listing, head);
    SafeConcat(t0, listing, head);
    head := listing + head;
    if created.Err? {
      UploadNeverMoved(t0, name, pem, head, npm.t, created.error);
      return created, head;
    }
    assert Started(t0, head);

    // Ids are never reused, so the new record is not among those listed before it was created.
    var moved;
    ghost var moves;
    moved, moves := MoveAll(npm, superseded.value, created.value);
    ghost var m := npm.t;
    Joined(head, moves);
    if moved.Err? {
      UploadStopped(t0, m, name, pem, head, moves, moved.error);
      return Err(moved.error), head + moves;
    }

    var swept;
    ghost var sweeps;
    swept, sweeps := SweepAll(npm, superseded.value);
    Joined(head + moves, sweeps);
    r := if swept.Ok? then created else Err(swept.error);
    evs := head + moves + sweeps;
    UploadDone(t0, m, npm.t, name, pem, head, moves, sweeps, r);
  }

  // ---------------------------------------------------------------- what an upload means

  /** On a server that does everything it is asked, an upload leaves exactly one record under the
      label, moves exactly the hosts that were on the label's records, and changes nothing else. */
  lemma HonestUpload(t0: Tables, name: string, pem: Pem, evs: seq<Event>, t1: Tables, r: Result<nat, NpmError>)
    requires WellFormed(t0) && UploadPost(t0, name, pem, evs, t1, r) && AllDone(evs)
    ensures r == Ok(t0.nextCert)
    ensures Labelled(t1, name) == {t0.nextCert}
    ensures t1.certs == (t0.certs - Labelled(t0, name))[t0.nextCert := Cert(name, Custom, Some(pem), [], None)]
    ensures t1.hosts == Moved(t0.hosts, Labelled(t0, name), t0.nextCert)
  {
    var olds, id := Labelled(t0, name), t0.nextCert;
    forall c | c in olds
      ensures HostsOn(t1, c) == {}
    {
      forall h | h in t1.hosts
        ensures CertOf(t1.hosts[h]) != c
      {
        assert t1.hosts[h] == Moved(t0.hosts, olds, id)[h];
      }
    }
    forall c
      ensures c in t1.certs <==> c == id || (c in t0.certs && c !in olds)
    {
    }
  }

  /** A record some host still uses is never deleted, by an upload that succeeds or one that fails,
      even when a re-point was answered with success and ignored. */
  lemma UsedRecordIsKept(t0: Tables, name: string, pem: Pem, evs: seq<Event>, t1: Tables,
                         r: Result<nat, NpmError>, h: nat)
    requires WellFormed(t0) && UploadPost(t0, name, pem, evs, t1, r)
    requires h in t1.hosts && CertOf(t1.hosts[h]) in t0.certs
    ensures CertOf(t1.hosts[h]) in t1.certs
  {
  }

  /** Whether NPM still holds this record. */
  method CertificateExists(npm: Npm, id: nat) returns (r: Result<bool, NpmError>, ghost evs: seq<Event>)
    requires npm.Valid()
    modifies npm
    ensures npm.Valid() && npm.t == old(npm.t)
    ensures npm.log == old(npm.log) + evs
    ensures |evs| == 1 && evs[0].req.GetCerts? && evs[0].after == npm.t
    ensures r.Ok? == evs[0].outcome.Done? && r.Err? == evs[0].outcome.Failed()
    ensures r.Ok? ==> r.value == (id in npm.t.certs)
  {
    var listing;
    listing, evs := ListCerts(npm);
    if listing.Err? {
      return Err(listing.error), evs;
    }
    if id in npm.t.certs {
      assert CertRec(id, npm.t.certs[id]) in listing.value;
    }
    r := Ok(exists i | 0 <= i < |listing.value| :: listing.value[i].id == id);
  }

  // ---------------------------------------------------------------- Let's Encrypt records

  ghost predicate IssuedFor(c: Cert, domains: seq<string>) {
    c.provider.LetsEncrypt? && Names.LowerSet(c.domains) == Names.LowerSet(domains)
  }

  /** Order of `str(expires_on or "")`: no date sorts first. */
  ghost predicate NotLater(a: Option<int>, b: Option<int>) {
    a.None? || (b.Some? && a.value <= b.value)
  }

  /** The newest Let's Encrypt certificate covering exactly `domains`, if there is one. */
  method FindLetsEncrypt(npm: Npm, domains: seq<string>)
    returns (r: Result<Option<CertRec>, NpmError>, ghost evs: seq<Event>)
    requires npm.Valid()
    modifies npm
    ensures npm.Valid() && npm.t == old(npm.t)
    ensures npm.log == old(npm.log) + evs
    ensures |evs| == 1 && evs[0].req.GetCerts? && evs[0].after == npm.t
    ensures r.Ok? == evs[0].outcome.Done? && r.Err? == evs[0].outcome.Failed()
    ensures r.Ok? && r.value.Some? ==>
              && r.value.value.id in npm.t.certs && npm.t.certs[r.value.value.id] == r.value.value.cert
              && IssuedFor(r.value.value.cert, domains)
    ensures r.Ok? && r.value.Some? ==> forall c | c in npm.t.certs && IssuedFor(npm.t.certs[c], domains) && npm.t.certs[c].expires.Some? ::
              r.value.value.cert.expires.Some? && npm.t.certs[c].expires.value <= r.value.value.cert.expires.value
    ensures r.Ok? ==> forall c | c in npm.t.certs && IssuedFor(npm.t.certs[c], domains) ::
              r.value.Some? && NotLater(npm.t.certs[c].expires, r.value.value.cert.expires)
  {
    var listing;
    listing, evs := ListCerts(npm);
    if listing.Err? {
      return Err(listing.error), evs;
    }
    var all := listing.value;
    var wanted := Names.LowerSet(domains);
    var best: Option<CertRec> := None;
    for i := 0 to |all|
      invariant best.Some? ==> best.value in all && IssuedFor(best.value.cert, domains)
      invariant forall j | 0 <= j < i && IssuedFor(all[j].cert, domains) ::
                  best.Some? && NotLater(all[j].cert.expires, best.value.cert.expires)
    {
      var c := all[i].cert;
      if c.provider.LetsEncrypt? && Names.LowerSet(c.domains) == wanted {
        var e := if best.Some? then best.value.cert.expires else None;
        if best.None? || (c.expires.Some? && (e.None? || c.expires.value > e.value)) {
          best := Some(all[i]);
        }
      }
    }
    forall c | c in npm.t.certs && IssuedFor(npm.t.certs[c], domains)
      ensures best.Some? && NotLater(npm.t.certs[c].expires, best.value.cert.expires)
    {
      assert CertRec(c, npm.t.certs[c]) in all;
    }
    r := Ok(best);
  }

  ghost predicate NoneIgnored(evs: seq<Event>) {
    forall i | 0 <= i < |evs| :: !evs[i].outcome.Ignored?
  }

  lemma NoneIgnoredConcat(x: seq<Event>, y: seq<Event>)
    ensures NoneIgnored(x + y) <==> NoneIgnored(x) && NoneIgnored(y)
  {
    assert forall i | 0 <= i < |x| :: (x + y)[i] == x[i];
    assert forall i | 0 <= i < |y| :: (x + y)[|x| + i] == y[i];
  }

  ghost predicate IssuedRecord(t0: Tables, t1: Tables, name: string, domains: seq<string>, expires: Option<int>) {
    && t0.nextCert in t1.certs
    && var c := t1.certs[t0.nextCert];
    && c == Cert(name, LetsEncrypt, c.pem, domains, expires) && c.pem.Some?
    && t1 == t0.(certs := t0.certs[t0.nextCert := c], nextCert := t0.nextCert + 1)
  }

  /** Nothing, or one new Let's Encrypt record. */
  ghost predicate MaybeIssued(t0: Tables, t1: Tables, name: string, domains: seq<string>) {
    t1 == t0 || (t0.nextCert in t1.certs && IssuedRecord(t0, t1, name, domains, t1.certs[t0.nextCert].expires))
  }

  lemma IssuingIsSafe(t0: Tables, t1: Tables, name: string, domains: seq<string>)
    requires WellFormed(t0) && MaybeIssued(t0, t1, name, domains)
    ensures NoWorse(t0, t1)
  {
  }

  /** Ask for a certificate in the older request shape, and in the current one if that is refused.
      What the authority issues, and until when, is not edgekit's choice. */
  method CreateLetsEncrypt(npm: Npm, name: string, domains: seq<string>)
    returns (r: Result<(nat, Option<int>), NpmError>, ghost evs: seq<Event>)
    requires npm.Valid()
    modifies npm
    ensures npm.Valid() && npm.log == old(npm.log) + evs
    ensures SafeThroughout(old(npm.t), evs) && NoneIgnored(evs)
    ensures MaybeIssued(old(npm.t), npm.t, name, domains)
    ensures r.Ok? ==>
              && r.value.0 == old(npm.t).nextCert
              && IssuedRecord(old(npm.t), npm.t, name, domains, r.value.1)
    ensures 1 <= |evs| <= 2 && (|evs| == 2 <==> evs[0].outcome.Refused?)
    ensures r.Ok? <==> !evs[|evs| - 1].outcome.Failed()
  {
    ghost var t0 := npm.t;
    var id := npm.t.nextCert;
    var pem: Pem, expires: Option<int> := *, *;
    var o := npm.Send(IssueCert(name, domains, pem, expires));
    IssuingIsSafe(t0, npm.t, name, domains);
    evs := [Event(IssueCert(name, domains, pem, expires), o, npm.t)];
    if o.Refused? {
      o := npm.Send(IssueCert(name, domains, pem, expires));
      IssuingIsSafe(t0, npm.t, name, domains);
      evs := evs + [Event(IssueCert(name, domains, pem, expires), o, npm.t)];
    }
    r := if o.Failed() then Err(RequestFailed(o)) else Ok((id, expires));
  }
}
