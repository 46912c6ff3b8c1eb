/** Judging what a browser gets for one hostname, and the timed loop that waits for it to settle. */
module Health {
  import opened Common
  import Names

  datatype Level = OK | WARN | FAIL

  /** Where DNS sent the browser and what it was shown. `trusted` is None when TLS never got that far. */
  datatype Probe = Probe(domain: string, addresses: seq<string>, byServer: bool,
                         trusted: Option<bool>, issuer: string, status: Option<nat>)

  /** Which sentence the operator reads. */
  datatype Finding =
    | CannotSeeDns | NoRecord | NoConnection
    | OriginCertificate | UntrustedCertificate
    | BypassesProxy | StillProxied
    | Http525 | Http526 | NoResponse | ServerError | Fine

  datatype Verdict = Verdict(level: Level, finding: Finding, retry: bool)

  const ORIGIN_CA_ISSUER := "cloudflare origin"

  predicate OccursAt(needle: string, s: string, i: nat) {
    i + |needle| <= |s| && s[i..i + |needle|] == needle
  }

  /** `needle in s` */
  predicate Occurs(needle: string, s: string) {
    exists i | 0 <= i <= |s| :: OccursAt(needle, s, i)
  }

  predicate ShowsOrigin(p: Probe) {
    Occurs(ORIGIN_CA_ISSUER, Names.Lower(p.issuer))
  }

  predicate PointsHere(p: Probe, ip: string) {
    ip != "" && ip in p.addresses
  }

  /** Judge a probe against the TLS mode and this server's address. */
  function AssessPublic(p: Probe, proxied: bool, ip: string): Verdict {
    var pointsHere := PointsHere(p, ip);
    if p.trusted.None? then
      if p.addresses == [] && p.byServer then Verdict(WARN, CannotSeeDns, false)
      else if p.addresses == [] then Verdict(FAIL, NoRecord, true)
      else Verdict(WARN, NoConnection, false)
    else if !p.trusted.value then
      if ShowsOrigin(p) && proxied then Verdict(FAIL, OriginCertificate, pointsHere)
      else if ShowsOrigin(p) then Verdict(FAIL, OriginCertificate, false)
      else Verdict(FAIL, UntrustedCertificate, false)
    else if proxied && pointsHere then Verdict(WARN, BypassesProxy, true)
    else if !proxied && ip != "" && !pointsHere then Verdict(WARN, StillProxied, true)
    else
      match p.status
      case Some(525) => Verdict(FAIL, Http525, true)
      case Some(526) => Verdict(FAIL, Http526, false)
      case None => Verdict(WARN, NoResponse, false)
      case Some(code) =>
        if code >= 500 then Verdict(WARN, ServerError, false) else Verdict(Level.OK, Fine, false)
  }

  /** DNS sends the browser where the mode wants it, as far as this server's address is known. */
  ghost predicate PathMatches(p: Probe, proxied: bool, ip: string) {
    ip == "" || (proxied <==> ip !in p.addresses)
  }

  /** OK means exactly: a trusted certificate, over the path the mode calls for, and an answer below
      500. It is final: nothing is asked to be retried. */
  lemma OkExactly(p: Probe, proxied: bool, ip: string)
    ensures AssessPublic(p, proxied, ip).level.OK? <==>
              p.trusted == Some(true) && PathMatches(p, proxied, ip) && p.status.Some? && p.status.value < 500
    ensures AssessPublic(p, proxied, ip).level.OK? ==> !AssessPublic(p, proxied, ip).retry
  {
  }

  /** What fails a name: public DNS was asked and has no address for it, or browsers are shown a
      certificate they reject, or over the right path Cloudflare answers that it cannot reach this
      server or will not accept its certificate. */
  ghost predicate Rejected(p: Probe, proxied: bool, ip: string) {
    || (p.trusted == None && !p.byServer && p.addresses == [])
    || p.trusted == Some(false)
    || (p.trusted == Some(true) && PathMatches(p, proxied, ip) && (p.status == Some(525) || p.status == Some(526)))
  }

  lemma FailExactly(p: Probe, proxied: bool, ip: string)
    ensures AssessPublic(p, proxied, ip).level.FAIL? <==> Rejected(p, proxied, ip)
  {
  }

  lemma OriginIssuer(p: Probe)
    ensures ShowsOrigin(p) <==>
            exists i, j :: 0 <= i <= j <= |p.issuer| && Names.Lower(p.issuer)[i..j] == "cloudflare origin"
  {
    var s := Names.Lower(p.issuer);
    if ShowsOrigin(p) {
      var i :| 0 <= i <= |s| && OccursAt(ORIGIN_CA_ISSUER, s, i);
      assert s[i..i + 17] == "cloudflare origin";
    }
    if i, j :| 0 <= i <= j <= |p.issuer| && s[i..j] == "cloudflare origin" {
      assert OccursAt(ORIGIN_CA_ISSUER, s, i);
    }
  }

  /** Which sentence the operator reads: each cause has its own. */
  lemma FindingNamesCause(p: Probe, proxied: bool, ip: string)
    ensures var f, path := AssessPublic(p, proxied, ip).finding, PathMatches(p, proxied, ip);
            && (f.CannotSeeDns? <==> p.trusted.None? && p.addresses == [] && p.byServer)
            && (f.NoRecord? <==> p.trusted.None? && p.addresses == [] && !p.byServer)
            && (f.NoConnection? <==> p.trusted.None? && p.addresses != [])
            && (f.OriginCertificate? <==> p.trusted == Some(false) && ShowsOrigin(p))
            && (f.UntrustedCertificate? <==> p.trusted == Some(false) && !ShowsOrigin(p))
            && (f.BypassesProxy? <==> p.trusted == Some(true) && !path && proxied)
            && (f.StillProxied? <==> p.trusted == Some(true) && !path && !proxied)
            && (f.Http525? <==> p.trusted == Some(true) && path && p.status == Some(525))
            && (f.Http526? <==> p.trusted == Some(true) && path && p.status == Some(526))
            && (f.NoResponse? <==> p.trusted == Some(true) && path && p.status == None)
  {
  }

  /** A retry is worth it exactly for what a DNS change explains: no record yet, the wrong path, or
      Cloudflare not reaching this server. */
  lemma RetryExactly(p: Probe, proxied: bool, ip: string)
    ensures AssessPublic(p, proxied, ip).retry <==>
              || (p.trusted.None? && p.addresses == [] && !p.byServer)
              || (p.trusted == Some(false) && ShowsOrigin(p) && proxied && ip != "" && ip in p.addresses)
              || (p.trusted == Some(true) && !PathMatches(p, proxied, ip))
              || (p.trusted == Some(true) && PathMatches(p, proxied, ip) && p.status == Some(525))
  {
  }

  // ---------------------------------------------------------------- waiting for DNS to settle

  const WINDOW := 120.0
  const INTERVAL := 10.0
  const MAX_ROUNDS := 13

  class Clock {
    var now: real

    /** Any amount of time goes by. */
    method Pass()
      modifies this
      ensures now >= old(now)
    {
      var d: real := *;
      now := if d >= 0.0 then now + d else now;
    }

    /** At least `d` goes by. */
    method Sleep(d: real)
      requires d >= 0.0
      modifies this
      ensures now >= old(now) + d
    {
      now := now + d;
      Pass();
    }
  }

  /** Probe each domain; what comes back is the outside world's. */
  method ProbeAll(domains: seq<string>, clock: Clock) returns (probes: seq<Probe>)
    modifies clock
    ensures |probes| == |domains| && forall i | 0 <= i < |domains| :: probes[i].domain == domains[i]
    ensures clock.now >= old(clock.now)
  {
    probes := [];
    for i := 0 to |domains|
      invariant |probes| == i && forall j | 0 <= j < i :: probes[j].domain == domains[j]
      invariant clock.now >= old(clock.now)
    {
      clock.Pass();
      var probe: Probe := *;
      probes := probes + [probe.(domain := domains[i])];
    }
  }

  /** The rules of one wait: the mode, this server's address, and whether DNS was changed. */
  datatype Rules = Rules(proxied: bool, ip: string, dnsApplied: bool)

  ghost predicate WantsRetry(p: Probe, rules: Rules) {
    var v := AssessPublic(p, rules.proxied, rules.ip);
    v.retry && rules.dnsApplied && !v.level.OK?
  }

  /** The domains of a round to ask again, in order. */
  ghost function ToRetry(probes: seq<Probe>, rules: Rules): seq<string> {
    if probes == [] then []
    else
      var n := |probes| - 1;
      ToRetry(probes[..n], rules) + if WantsRetry(probes[n], rules) then [probes[n].domain] else []
  }

  ghost function DomainsIn(probes: seq<Probe>): seq<string> {
    seq(|probes|, i requires 0 <= i < |probes| => probes[i].domain)
  }

  /** The first round asks about every domain, each later one about those the round before left open. */
  ghost predicate Rounds(domains: seq<string>, history: seq<seq<Probe>>, rules: Rules) {
    && (history != [] ==> DomainsIn(history[0]) == domains)
    && forall k | 1 <= k < |history| :: DomainsIn(history[k]) == ToRetry(history[k - 1], rules) && history[k] != []
  }

  /** `seen` holds the probes of a round over those before it. */
  ghost function Update(seen: map<string, Probe>, probes: seq<Probe>): map<string, Probe> {
    if probes == [] then seen
    else Update(seen, probes[..|probes| - 1])[probes[|probes| - 1].domain := probes[|probes| - 1]]
  }

  /** The last probe of each domain. */
  ghost function LastProbes(history: seq<seq<Probe>>): map<string, Probe> {
    if history == [] then map[]
    else Update(LastProbes(history[..|history| - 1]), history[|history| - 1])
  }

  lemma UpdateStep(seen: map<string, Probe>, probes: seq<Probe>, i: nat)
    requires i < |probes|
    ensures Update(seen, probes[..i + 1]) == Update(seen, probes[..i])[probes[i].domain := probes[i]]
  {
    assert probes[..i + 1][..i] == probes[..i];
  }

  lemma RetryStep(probes: seq<Probe>, rules: Rules, i: nat)
    requires i < |probes|
    ensures ToRetry(probes[..i + 1], rules) ==
            ToRetry(probes[..i], rules) + if WantsRetry(probes[i], rules) then [probes[i].domain] else []
  {
    assert probes[..i + 1][..i] == probes[..i];
  }

  lemma {:induction false} RetriedWereProbed(probes: seq<Probe>, rules: Rules)
    ensures forall d | d in ToRetry(probes, rules) :: d in DomainsIn(probes)
    ensures !rules.dnsApplied ==> ToRetry(probes, rules) == []
    ensures |ToRetry(probes, rules)| <= |probes|
  {
    if probes != [] {
      var n := |probes| - 1;
      RetriedWereProbed(probes[..n], rules);
      assert DomainsIn(probes) == DomainsIn(probes[..n]) + [probes[n].domain];
    }
  }

  /** A domain is asked again exactly when DNS was changed by this run and its answer wants a retry. */
  lemma {:induction false} RetriedExactly(probes: seq<Probe>, rules: Rules, d: string)
    ensures d in ToRetry(probes, rules) <==>
            exists i :: 0 <= i < |probes| && probes[i].domain == d && rules.dnsApplied
                        && AssessPublic(probes[i], rules.proxied, rules.ip).retry
  {
    if probes != [] {
      var n := |probes| - 1;
      RetriedExactly(probes[..n], rules, d);
      OkExactly(probes[n], rules.proxied, rules.ip);
      assert forall i | 0 <= i < n :: probes[..n][i] == probes[i];
    }
  }

  ghost predicate JudgedAs(results: map<string, Verdict>, seen: map<string, Probe>, rules: Rules) {
    && results.Keys == seen.Keys
    && forall d | d in seen :: results[d] == AssessPublic(seen[d], rules.proxied, rules.ip)
  }

  /** One round: assess each probe, record it, and collect the domains worth another try. */
  method AssessRound(probes: seq<Probe>, rules: Rules, results: map<string, Verdict>, seen: map<string, Probe>)
    returns (results': map<string, Verdict>, seen': map<string, Probe>, retry: seq<string>)
    requires JudgedAs(results, seen, rules)
    ensures JudgedAs(results', seen', rules)
    ensures seen' == Update(seen, probes) && retry == ToRetry(probes, rules)
  {
    results', seen', retry := results, seen, [];
    for i := 0 to |probes|
      invariant JudgedAs(results', seen', rules)
      invariant seen' == Update(seen, probes[..i]) && retry == ToRetry(probes[..i], rules)
    {
      UpdateStep(seen, probes, i);
      RetryStep(probes, rules, i);
      var probe := probes[i];
      var v := AssessPublic(probe, rules.proxied, rules.ip);
      results' := results'[probe.domain := v];
      seen' := seen'[probe.domain := probe];
      if v.retry && rules.dnsApplied && !v.level.OK? {
        retry := retry + [probe.domain];
      }
    }
    assert probes[..|probes|] == probes;
  }

  lemma RoundStep(domains: seq<string>, history: seq<seq<Probe>>, probes: seq<Probe>, rules: Rules)
    requires Rounds(domains, history, rules) && probes != []
    requires DomainsIn(probes) == if history == [] then domains else ToRetry(history[|history| - 1], rules)
    ensures Rounds(domains, history + [probes], rules)
    ensures LastProbes(history + [probes]) == Update(LastProbes(history), probes)
    ensures (history + [probes])[|history|] == probes
  {
    assert (history + [probes])[..|history|] == history;
  }

  predicate Any525(seen: map<string, Probe>) {
    exists d | d in seen :: seen[d].status == Some(525)
  }

  predicate AnyFailed(results: map<string, Verdict>) {
    exists d | d in results :: results[d].level.FAIL?
  }

  lemma FailedIfRejected(results: map<string, Verdict>, seen: map<string, Probe>, rules: Rules)
    requires JudgedAs(results, seen, rules)
    ensures AnyFailed(results) <==> exists d :: d in seen && Rejected(seen[d], rules.proxied, rules.ip)
  {
    forall d | d in seen
      ensures results[d].level.FAIL? <==> Rejected(seen[d], rules.proxied, rules.ip)
    {
      FailExactly(seen[d], rules.proxied, rules.ip);
    }
  }

  /** Connect to every hostname as a browser would, for as long as a DNS change could still explain
      what is seen. `failed` is whether the step fails, `cloudflare525` what the report is told. */
  method VerifyHttps(domains: seq<string>, rules: Rules, clock: Clock)
    returns (failed: bool, cloudflare525: bool, results: map<string, Verdict>, ghost history: seq<seq<Probe>>)
    requires domains != []
    modifies clock
    ensures 1 <= |history| <= MAX_ROUNDS && Rounds(domains, history, rules)
    ensures JudgedAs(results, LastProbes(history), rules)
    ensures failed <==> AnyFailed(results)
    ensures failed <==> exists d :: d in LastProbes(history) && Rejected(LastProbes(history)[d], rules.proxied, rules.ip)
    ensures cloudflare525 <==> rules.proxied && exists d :: d in LastProbes(history) && LastProbes(history)[d].status == Some(525)
    ensures ToRetry(history[|history| - 1], rules) == [] || clock.now + 10.0 > old(clock.now) + 120.0
    ensures !rules.dnsApplied ==> |history| == 1
  {
    var deadline := clock.now + WINDOW;
    var pending := domains;
    var seen: map<string, Probe>;
    results, seen, history := map[], map[], [];
    while true
      invariant |history| <= 12 && Rounds(domains, history, rules)
      invariant pending != [] && pending == if history == [] then domains else ToRetry(history[|history| - 1], rules)
      invariant JudgedAs(results, seen, rules) && seen == LastProbes(history)
      invariant clock.now >= old(clock.now) + INTERVAL * (|history| as real)
      invariant !rules.dnsApplied ==> history == []
      decreases 12 - |history|
    {
      var probes := ProbeAll(pending, clock);
      assert DomainsIn(probes) == pending;
      var retry;
      results, seen, retry := AssessRound(probes, rules, results, seen);
      RoundStep(domains, history, probes, rules);
      history := history + [probes];
      RetriedWereProbed(probes, rules);
      if retry == [] || clock.now + INTERVAL > deadline {
        break;
      }
      clock.Sleep(INTERVAL);
      pending := retry;
    }
    failed := AnyFailed(results);
    FailedIfRejected(results, seen, rules);
    cloudflare525 := rules.proxied && Any525(seen);
  }

  /** The pending set only shrinks, and every domain ends up judged. */
  lemma {:induction false} PendingShrinks(domains: seq<string>, history: seq<seq<Probe>>, rules: Rules, k: nat)
    requires Rounds(domains, history, rules) && k < |history|
    ensures forall d | d in DomainsIn(history[k]) :: d in domains
    ensures 1 <= k ==> |history[k]| <= |history[k - 1]| && forall d | d in DomainsIn(history[k]) :: d in DomainsIn(history[k - 1])
  {
    if k == 0 {
    } else {
      PendingShrinks(domains, history, rules, k - 1);
      RetriedWereProbed(history[k - 1], rules);
      assert |DomainsIn(history[k])| == |history[k]|;
    }
  }

  lemma {:induction false} UpdateKeys(seen: map<string, Probe>, probes: seq<Probe>)
    ensures forall d :: d in Update(seen, probes) <==> d in seen || d in DomainsIn(probes)
  {
    if probes != [] {
      var n := |probes| - 1;
      UpdateKeys(seen, probes[..n]);
      assert DomainsIn(probes) == DomainsIn(probes[..n]) + [probes[n].domain];
    }
  }

  lemma {:induction false} EveryDomainJudged(domains: seq<string>, history: seq<seq<Probe>>, rules: Rules)
    requires Rounds(domains, history, rules) && history != []
    ensures forall d :: d in LastProbes(history) <==> d in domains
  {
    var n := |history| - 1;
    PendingShrinks(domains, history, rules, n);
    UpdateKeys(LastProbes(history[..n]), history[n]);
    if n > 0 {
      var shorter := history[..n];
      assert forall k | 0 <= k < n :: shorter[k] == history[k];
      EveryDomainJudged(domains, shorter, rules);
    }
  }

  lemma {:induction false} UpdateIsLatest(seen: map<string, Probe>, probes: seq<Probe>, d: string)
    ensures (forall i | 0 <= i < |probes| :: probes[i].domain != d) ==>
              (d in Update(seen, probes) <==> d in seen) && (d in seen ==> Update(seen, probes)[d] == seen[d])
    ensures (exists i :: 0 <= i < |probes| && probes[i].domain == d) ==>
              d in Update(seen, probes)
              && exists i :: 0 <= i < |probes| && probes[i].domain == d && probes[i] == Update(seen, probes)[d]
  {
    if probes != [] {
      var n := |probes| - 1;
      UpdateIsLatest(seen, probes[..n], d);
      assert forall i | 0 <= i < n :: probes[..n][i] == probes[i];
    }
  }

  /** `p` is a probe of `d` in the last round that asked about it. */
  ghost predicate IsLatest(history: seq<seq<Probe>>, d: string, p: Probe) {
    exists k, i ::
      && 0 <= k < |history| && 0 <= i < |history[k]| && history[k][i] == p && p.domain == d
      && forall k', j | k < k' < |history| && 0 <= j < |history[k']| :: history[k'][j].domain != d
  }

  /** The probe a domain is judged on is its latest. */
  lemma {:induction false} JudgedOnLatest(history: seq<seq<Probe>>, d: string)
    requires d in LastProbes(history)
    ensures IsLatest(history, d, LastProbes(history)[d])
  {
    var n := |history| - 1;
    var earlier, last := history[..n], history[n];
    UpdateIsLatest(LastProbes(earlier), last, d);
    if i :| 0 <= i < |last| && last[i].domain == d && last[i] == LastProbes(history)[d] {
    } else {
      JudgedOnLatest(earlier, d);
      var p := LastProbes(earlier)[d];
      var k, i :|
        && 0 <= k < |earlier| && 0 <= i < |earlier[k]| && earlier[k][i] == p && p.domain == d
        && forall k', j | k < k' < |earlier| && 0 <= j < |earlier[k']| :: earlier[k'][j].domain != d;
      assert history[k][i] == p;
      forall k', j | k < k' < |history| && 0 <= j < |history[k']|
        ensures history[k'][j].domain != d
      {
        if k' < n {
          assert earlier[k'] == history[k'];
        }
      }
    }
  }
}
