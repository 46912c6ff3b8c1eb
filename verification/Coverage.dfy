/** Which hostnames a certificate names, and the warnings about those it does not. */
module Coverage {
  import opened Names

  /** A hostname as `covers` compares it. */
  function Norm(hostname: string): (r: string)
    ensures r == "" || r[|r| - 1] != '.'
  {
    RStripDots(Lower(hostname))
  }

  function FirstDot(s: string): (k: nat)
    ensures k <= |s| && (forall i | 0 <= i < k :: s[i] != '.') && (k < |s| ==> s[k] == '.')
  {
    if s == "" || s[0] == '.' then 0 else 1 + FirstDot(s[1..])
  }

  /** One name of the certificate against one hostname, both normalised. */
  predicate NameMatches(pattern: string, host: string) {
    || pattern == host
    || ("*." <= pattern && FirstDot(host) < |host| && host[FirstDot(host) + 1..] == pattern[2..])
  }

  predicate Covers(names: seq<string>, hostname: string) {
    exists i | 0 <= i < |names| :: NameMatches(Lower(names[i]), Norm(hostname))
  }

  function CertificateHostnames(zone: string): seq<string> {
    ["*." + zone, zone]
  }

  // ---------------------------------------------------------------- labels

  /** The labels of a name, left to right. */
  function Labels(s: string): (r: seq<string>)
    ensures r != []
    decreases |s|
  {
    var k := FirstDot(s);
    if k == |s| then [s] else [s[..k]] + Labels(s[k + 1..])
  }

  function Dotted(labels: seq<string>): string
    requires labels != []
  {
    if |labels| == 1 then labels[0] else labels[0] + "." + Dotted(labels[1..])
  }

  lemma {:induction false} DottedLabels(s: string)
    ensures Dotted(Labels(s)) == s
    decreases |s|
  {
    var k := FirstDot(s);
    if k < |s| {
      LabelsSplit(s, k);
      DottedLabels(s[k + 1..]);
      SplitAt(s, k);
    }
  }

  lemma LabelsSplit(s: string, k: nat)
    requires k == FirstDot(s) < |s|
    ensures Labels(s) == [s[..k]] + Labels(s[k + 1..]) && Labels(s)[1..] == Labels(s[k + 1..])
  {
    LabelsUnfold(s, k);
    TailOfCons(s[..k], Labels(s[k + 1..]));
  }

  lemma {:induction false} LabelsHaveNoDots(s: string, i: nat)
    requires i < |Labels(s)|
    ensures '.' !in Labels(s)[i]
    decreases |s|
  {
    var k := FirstDot(s);
    if k < |s| && i > 0 {
      LabelsUnfold(s, k);
      LabelsHaveNoDots(s[k + 1..], i - 1);
    }
  }

  lemma LabelsUnfold(s: string, k: nat)
    requires k == FirstDot(s) < |s|
    ensures Labels(s) == [s[..k]] + Labels(s[k + 1..])
  {
  }

  lemma TailOfCons(first: string, rest: seq<string>)
    ensures ([first] + rest)[1..] == rest
  {
  }

  lemma SplitAt(s: string, k: nat)
    requires k < |s| && s[k] == '.'
    ensures s == s[..k] + "." + s[k + 1..]
  {
  }

  lemma {:induction false} FirstDotAfter(first: string, rest: string)
    requires '.' !in first
    ensures FirstDot(first + "." + rest) == |first|
  {
    var s := first + "." + rest;
    if first == "" {
      assert s[0] == '.';
    } else {
      assert s[0] == first[0] && s[1..] == first[1..] + "." + rest;
      FirstDotAfter(first[1..], rest);
    }
  }

  lemma LabelsCons(first: string, rest: string)
    requires '.' !in first
    ensures Labels(first + "." + rest) == [first] + Labels(rest)
  {
    var s := first + "." + rest;
    FirstDotAfter(first, rest);
    assert s[..|first|] == first && s[|first| + 1..] == rest;
  }

  /** The matching rule of section 6.4.3 of RFC 6125: the same labels, except that a whole left-most
      label `*` stands for any one label. */
  ghost predicate MatchesByLabel(pattern: seq<string>, host: seq<string>) {
    || pattern == host
    || (|pattern| == |host| > 1 && pattern[0] == "*" && pattern[1..] == host[1..])
  }

  /** The wildcard part of the rule, for a name known to begin `*.`. */
  lemma WildcardIsOneLabel(zone: string, host: string)
    ensures NameMatches("*." + zone, host) <==> Labels(host)[1..] == Labels(zone)
    ensures Labels("*." + zone) == ["*"] + Labels(zone)
  {
    LabelsCons("*", zone);
    assert "*" + "." + zone == "*." + zone;
    assert ("*." + zone)[2..] == zone;
    var k := FirstDot(host);
    if k < |host| {
      LabelsSplit(host, k);
      DottedLabels(host[k + 1..]);
      DottedLabels(zone);
    }
  }

  lemma BareWildcard(pattern: string)
    ensures "*." <= pattern <==> |Labels(pattern)| > 1 && Labels(pattern)[0] == "*"
  {
    var j := FirstDot(pattern);
    if "*." <= pattern {
      assert pattern == "*." + pattern[2..];
      WildcardIsOneLabel(pattern[2..], pattern);
    } else if j == 1 {
      assert pattern[..1] == [pattern[0]];
    }
  }

  lemma LabelsDecide(a: string, b: string)
    ensures Labels(a) == Labels(b) <==> a == b
  {
    DottedLabels(a);
    DottedLabels(b);
  }

  /** A certificate name matches exactly as the rule says, label by label. */
  lemma MatchingIsByLabel(pattern: string, host: string)
    ensures NameMatches(pattern, host) <==> MatchesByLabel(Labels(pattern), Labels(host))
  {
    LabelsDecide(pattern, host);
    BareWildcard(pattern);
    if "*." <= pattern {
      assert pattern == "*." + pattern[2..];
      WildcardIsOneLabel(pattern[2..], host);
    }
  }

  // ---------------------------------------------------------------- the wildcard-and-apex pair

  lemma LowerConcat(a: string, b: string)
    ensures Lower(a + b) == Lower(a) + Lower(b)
  {
  }

  lemma LowerPair(zone: string)
    ensures Lower(CertificateHostnames(zone)[0]) == "*." + Lower(zone)
    ensures Lower(CertificateHostnames(zone)[1]) == Lower(zone)
  {
    LowerConcat("*.", zone);
    assert Lower("*.") == "*.";
  }

  lemma LowerKeepsWildcard(zone: string)
    ensures "*." <= Lower(zone) <==> "*." <= zone
  {
    if |zone| > 1 {
      assert Lower(zone)[0] == LowerChar(zone[0]) && Lower(zone)[1] == LowerChar(zone[1]);
    }
  }

  lemma CoversPair(zone: string, hostname: string)
    ensures Covers(CertificateHostnames(zone), hostname) <==>
            NameMatches("*." + Lower(zone), Norm(hostname)) || NameMatches(Lower(zone), Norm(hostname))
  {
    var names := CertificateHostnames(zone);
    LowerPair(zone);
    if NameMatches("*." + Lower(zone), Norm(hostname)) {
      assert NameMatches(Lower(names[0]), Norm(hostname));
    }
    if NameMatches(Lower(zone), Norm(hostname)) {
      assert NameMatches(Lower(names[1]), Norm(hostname));
    }
  }

  /** The pair covers exactly the zone itself and the names one label below it, whatever the case
      and however many trailing dots the hostname has. */
  lemma PairCoversExactly(zone: string, hostname: string)
    requires !("*." <= zone)
    ensures Covers(CertificateHostnames(zone), hostname) <==>
            Labels(Norm(hostname)) == Labels(Lower(zone)) || Labels(Norm(hostname))[1..] == Labels(Lower(zone))
  {
    CoversPair(zone, hostname);
    WildcardIsOneLabel(Lower(zone), Norm(hostname));
    MatchingIsByLabel(Lower(zone), Norm(hostname));
    BareWildcard(Lower(zone));
    LowerKeepsWildcard(zone);
  }

  lemma NormKeeps(s: string)
    requires s != "" && s[|s| - 1] != '.'
    ensures Norm(s) == Lower(s)
  {
    assert Lower(s)[|s| - 1] == LowerChar(s[|s| - 1]);
  }

  /** A name that ends in a dot matches no normalised hostname. */
  lemma DotEndedMatchesNothing(pattern: string, host: string)
    requires pattern != "" && pattern[|pattern| - 1] == '.' && (host == "" || host[|host| - 1] != '.')
    ensures !NameMatches(pattern, host)
  {
    var k := FirstDot(host);
    if k < |host| {
      LastOfRest(host, k);
    }
    if 1 < |pattern| {
      LastOfRest(pattern, 1);
    }
  }

  lemma LastOfRest(s: string, k: nat)
    requires k < |s|
    ensures s[k + 1..] == "" <==> k == |s| - 1
    ensures s[k + 1..] != "" ==> s[k + 1..][|s[k + 1..]| - 1] == s[|s| - 1]
  {
  }

  /** Only the hostname is stripped of trailing dots: the pair of a zone written with one covers
      nothing at all. */
  lemma TrailingDotCoversNothing(zone: string, hostname: string)
    requires zone != "" && zone[|zone| - 1] == '.'
    ensures !Covers(CertificateHostnames(zone), hostname)
  {
    CoversPair(zone, hostname);
    LowerKeepsDot(zone);
    DotEndedPairMatchesNothing(Lower(zone), Norm(hostname));
  }

  lemma LowerKeepsDot(zone: string)
    requires zone != "" && zone[|zone| - 1] == '.'
    ensures Lower(zone) != "" && Lower(zone)[|Lower(zone)| - 1] == '.'
  {
    LowerCharFolds('.');
  }

  lemma DotEndedPairMatchesNothing(z: string, host: string)
    requires z != "" && z[|z| - 1] == '.' && (host == "" || host[|host| - 1] != '.')
    ensures !NameMatches("*." + z, host) && !NameMatches(z, host)
  {
    DotEndedMatchesNothing(z, host);
    assert ("*." + z)[|"*." + z| - 1] == '.';
    DotEndedMatchesNothing("*." + z, host);
  }

  /** So the pair covers its own zone exactly when the zone has no trailing dot. */
  lemma PairCoversItself(zone: string)
    ensures Covers(CertificateHostnames(zone), zone) <==> zone == "" || zone[|zone| - 1] != '.'
  {
    if zone != "" && zone[|zone| - 1] == '.' {
      TrailingDotCoversNothing(zone, zone);
    } else {
      if zone != "" {
        NormKeeps(zone);
      }
      CoversPair(zone, zone);
    }
  }

  /** In particular nothing two or more labels below the zone is covered. */
  lemma TwoBelowIsNotCovered(zone: string, hostname: string)
    ensures !("*." <= zone) && |Labels(Norm(hostname))| > |Labels(Lower(zone))| + 1 ==> !Covers(CertificateHostnames(zone), hostname)
  {
    if !("*." <= zone) {
      PairCoversExactly(zone, hostname);
    }
  }

  // ---------------------------------------------------------------- spelling

  lemma {:induction false} StripDotsEnd(s: string, dots: string)
    requires forall i | 0 <= i < |dots| :: dots[i] == '.'
    ensures RStripDots(s + dots) == RStripDots(s)
  {
    if dots == "" {
      assert s + dots == s;
    } else {
      var n := |dots| - 1;
      assert (s + dots)[..|s + dots| - 1] == s + dots[..n];
      StripDotsEnd(s, dots[..n]);
    }
  }

  /** Case and trailing dots of the hostname make no difference. */
  lemma SpellingDoesNotMatter(names: seq<string>, a: string, b: string, dots: string)
    requires Lower(a) == Lower(b) && forall i | 0 <= i < |dots| :: dots[i] == '.'
    ensures Covers(names, a + dots) <==> Covers(names, b)
  {
    LowerConcat(a, dots);
    assert Lower(dots) == dots;
    StripDotsEnd(Lower(a), dots);
    assert Norm(a + dots) == Norm(b);
  }

  // ---------------------------------------------------------------- warnings

  datatype Warning = NoWildcard(zone: string) | Uncovered(domains: seq<string>)

  function UncoveredBy(names: seq<string>, domains: seq<string>): (r: seq<string>)
    ensures forall d :: d in r <==> d in domains && !Covers(names, d)
  {
    if domains == [] then []
    else (if Covers(names, domains[0]) then [] else [domains[0]]) + UncoveredBy(names, domains[1..])
  }

  /** `zone.strip().rstrip(".")` */
  function Trimmed(zone: string): string {
    RStripDots(RStrip(LStrip(zone)))
  }

  predicate AllSpace(s: string) {
    forall i | 0 <= i < |s| :: IsSpace(s[i])
  }

  lemma {:induction false} StripSpaceEnd(s: string, spaces: string)
    requires AllSpace(spaces)
    ensures RStrip(s + spaces) == RStrip(s)
  {
    if spaces == "" {
      assert s + spaces == s;
    } else {
      var n := |spaces| - 1;
      assert (s + spaces)[..|s + spaces| - 1] == s + spaces[..n];
      StripSpaceEnd(s, spaces[..n]);
    }
  }

  lemma {:induction false} StripSpaceStart(spaces: string, s: string)
    requires AllSpace(spaces)
    ensures LStrip(spaces + s) == LStrip(s)
  {
    if spaces == "" {
      assert spaces + s == s;
    } else {
      assert (spaces + s)[0] == spaces[0] && (spaces + s)[1..] == spaces[1..] + s;
      StripSpaceStart(spaces[1..], s);
    }
  }

  /** Neither end is whitespace. */
  predicate Tight(s: string) {
    s != "" && !IsSpace(s[0]) && !IsSpace(s[|s| - 1])
  }

  lemma TrimSpaces(before: string, s: string, after: string)
    requires AllSpace(before) && Tight(s) && AllSpace(after)
    ensures RStrip(LStrip(before + (s + after))) == s
  {
    StripSpaceStart(before, s + after);
    assert (s + after)[0] == s[0];
    StripSpaceEnd(s, after);
  }

  lemma DotsStayTight(z: string, dots: string)
    requires Tight(z) && forall i | 0 <= i < |dots| :: dots[i] == '.'
    ensures Tight(z + dots)
  {
    assert (z + dots)[|z + dots| - 1] == if dots == "" then z[|z| - 1] else '.';
    assert (z + dots)[0] == z[0];
  }

  /** Trimming takes off exactly the whitespace around a name and the dots that end it. */
  lemma TrimmedName(before: string, z: string, dots: string, after: string)
    requires AllSpace(before) && Tight(z) && z[|z| - 1] != '.' && AllSpace(after)
    requires forall i | 0 <= i < |dots| :: dots[i] == '.'
    ensures Trimmed(before + (z + dots + after)) == z
  {
    var name := z + dots;
    DotsStayTight(z, dots);
    TrimSpaces(before, name, after);
    StripDotsEnd(z, dots);
    NoDotsToStrip(z);
  }

  lemma NoDotsToStrip(z: string)
    requires z != "" && z[|z| - 1] != '.'
    ensures RStripDots(z) == z
  {
  }

  function CoverageWarnings(names: seq<string>, zone: string, domains: seq<string>): seq<Warning> {
    var z, left := Trimmed(zone), UncoveredBy(names, domains);
    (if z != "" && !Covers(names, "any." + z) then [NoWildcard(z)] else [])
    + (if left != [] then [Uncovered(left)] else [])
  }

  lemma ProbePrefix()
    ensures Lower("any.") == "any" + "."
  {
  }

  lemma ProbeIsCovered(zone: string)
    requires zone != "" && zone[|zone| - 1] != '.'
    ensures Covers(CertificateHostnames(zone), "any." + zone)
  {
    NormKeeps("any." + zone);
    LowerConcat("any.", zone);
    ProbePrefix();
    LabelsCons("any", Lower(zone));
    TailOfCons("any", Labels(Lower(zone)));
    CoversPair(zone, "any." + zone);
    WildcardIsOneLabel(Lower(zone), Norm("any." + zone));
  }

  /** However the zone is written, for the pair of the name that is left when it is trimmed there is
      no warning exactly when every served domain is the apex or one label below it. */
  lemma PairWarnings(zone: string, domains: seq<string>)
    requires !("*." <= Trimmed(zone))
    ensures var z := Trimmed(zone);
            CoverageWarnings(CertificateHostnames(z), zone, domains) == [] <==>
            forall d | d in domains :: Labels(Norm(d)) == Labels(Lower(z)) || Labels(Norm(d))[1..] == Labels(Lower(z))
  {
    var z := Trimmed(zone);
    var names := CertificateHostnames(z);
    if z != "" {
      ProbeIsCovered(z);
    }
    forall d | d in domains
      ensures Covers(names, d) <==> Labels(Norm(d)) == Labels(Lower(z)) || Labels(Norm(d))[1..] == Labels(Lower(z))
    {
      PairCoversExactly(z, d);
    }
    NoWarnings(names, zone, domains);
  }

  lemma NoWarnings(names: seq<string>, zone: string, domains: seq<string>)
    ensures CoverageWarnings(names, zone, domains) == [] <==>
            (Trimmed(zone) == "" || Covers(names, "any." + Trimmed(zone))) && forall d | d in domains :: Covers(names, d)
  {
    EmptyHasNone(UncoveredBy(names, domains));
  }

  /** The uncovered domains are listed in the order they are given in. */
  lemma {:induction false} UncoveredInOrder(names: seq<string>, a: seq<string>, b: seq<string>, d: string)
    ensures UncoveredBy(names, a + b) == UncoveredBy(names, a) + UncoveredBy(names, b)
    ensures UncoveredBy(names, [d]) == if Covers(names, d) then [] else [d]
  {
    if a == [] {
      assert a + b == b;
    } else {
      assert (a + b)[1..] == a[1..] + b;
      UncoveredInOrder(names, a[1..], b, d);
    }
  }

  /** There are at most two warnings: one names the trimmed zone, when a subdomain of it would not be
      covered, and one lists the uncovered domains, when there are any. */
  lemma WarningLists(names: seq<string>, zone: string, domains: seq<string>)
    ensures var ws, z, left := CoverageWarnings(names, zone, domains), Trimmed(zone), UncoveredBy(names, domains);
            && (forall w | w in ws :: w == NoWildcard(z) || w == Uncovered(left))
            && (NoWildcard(z) in ws <==> z != "" && !Covers(names, "any." + z))
            && (Uncovered(left) in ws <==> left != [])
  {
    EitherWarning(NoWildcard(Trimmed(zone)), Uncovered(UncoveredBy(names, domains)),
                  Trimmed(zone) != "" && !Covers(names, "any." + Trimmed(zone)), UncoveredBy(names, domains) != []);
  }

  lemma EitherWarning(u: Warning, v: Warning, a: bool, b: bool)
    requires u != v
    ensures var ws := (if a then [u] else []) + (if b then [v] else []);
            (forall w | w in ws :: w == u || w == v) && (u in ws <==> a) && (v in ws <==> b)
  {
  }

  lemma EmptyHasNone<T>(s: seq<T>)
    ensures s == [] <==> forall x :: x !in s
  {
    if s != [] {
      assert s[0] in s;
    }
  }

  /** The one probe the warning makes stands for every new subdomain: unless the certificate lists
      the probe's own name, covering it means covering every name one label below the zone. */
  lemma ProbeStandsForAll(names: seq<string>, zone: string, hostname: string)
    ensures var probe, host := Norm("any." + zone), Norm(hostname);
            && Covers(names, "any." + zone) && (forall i | 0 <= i < |names| :: Lower(names[i]) != probe)
            && |Labels(host)| > 1 && Labels(host)[1..] == Labels(probe)[1..]
            ==> Covers(names, hostname)
  {
    var probe, host := Norm("any." + zone), Norm(hostname);
    DottedLabels(probe);
    forall i | 0 <= i < |names| && NameMatches(Lower(names[i]), probe) && Lower(names[i]) != probe
               && |Labels(host)| > 1 && Labels(host)[1..] == Labels(probe)[1..]
      ensures NameMatches(Lower(names[i]), host)
    {
      DottedLabels(Lower(names[i]));
      MatchingIsByLabel(Lower(names[i]), probe);
      MatchingIsByLabel(Lower(names[i]), host);
    }
  }
}
