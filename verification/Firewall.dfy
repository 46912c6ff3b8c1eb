/** The iptables rules that join Docker to the tunnel: replayed by an idempotent script, and removed
    on uninstall. */
module Firewall {

  datatype Chain = Chain(table: string, name: string)

  /** A rule: the chain it lives in and what `iptables` is given after the chain's name. */
  datatype Rule = Rule(chain: Chain, match_: seq<string>)

  type Ruleset = map<Chain, seq<seq<string>>>

  const FORWARD := Chain("filter", "FORWARD")
  const POSTROUTING := Chain("nat", "POSTROUTING")

  function In(t: Ruleset, c: Chain): seq<seq<string>> {
    if c in t then t[c] else []
  }

  predicate Has(t: Ruleset, r: Rule) { r.match_ in In(t, r.chain) }

  /** The same rules in the same order in every chain. */
  ghost predicate Same(t: Ruleset, u: Ruleset) {
    forall c :: In(t, c) == In(u, c)
  }

  /** Container to peer, replies from peer to container, and masquerading behind the hub. */
  function EdgekitRules(dockerSubnet: string, wgSubnet: string, wgIf: string, dockerIf: string): seq<Rule> {
    [
      Rule(FORWARD, ["-i", dockerIf, "-o", wgIf, "-d", wgSubnet, "-j", "ACCEPT"]),
      Rule(FORWARD, ["-i", wgIf, "-o", dockerIf, "-s", wgSubnet,
                     "-m", "conntrack", "--ctstate", "ESTABLISHED,RELATED", "-j", "ACCEPT"]),
      Rule(POSTROUTING, ["-s", dockerSubnet, "-d", wgSubnet, "-o", wgIf, "-j", "MASQUERADE"])
    ]
  }

  ghost predicate Distinct(rs: seq<Rule>) {
    forall i, j | 0 <= i < j < |rs| :: rs[i] != rs[j]
  }

  lemma EdgekitRulesDistinct(dockerSubnet: string, wgSubnet: string, wgIf: string, dockerIf: string)
    ensures Distinct(EdgekitRules(dockerSubnet, wgSubnet, wgIf, dockerIf))
  {
    var rs := EdgekitRules(dockerSubnet, wgSubnet, wgIf, dockerIf);
    assert |rs[0].match_| == 8 && |rs[1].match_| == 12;
    assert |FORWARD.table| != |POSTROUTING.table|;
  }

  /** The arguments of the script's three calls of `add`, as the shell splits them. */
  function ScriptCalls(dockerIf: string, dockerSubnet: string, wgIf: string, wgSubnet: string): seq<seq<string>> {
    [
      ["filter", "FORWARD", "-i", dockerIf, "-o", wgIf, "-d", wgSubnet, "-j", "ACCEPT"],
      ["filter", "FORWARD", "-i", wgIf, "-o", dockerIf, "-s", wgSubnet,
       "-m", "conntrack", "--ctstate", "ESTABLISHED,RELATED", "-j", "ACCEPT"],
      ["nat", "POSTROUTING", "-s", dockerSubnet, "-d", wgSubnet, "-o", wgIf, "-j", "MASQUERADE"]
    ]
  }

  /** What `add` does with its arguments: the table, the chain, and the rest. */
  function Called(args: seq<string>): Rule
    requires 2 <= |args|
  {
    Rule(Chain(args[0], args[1]), args[2..])
  }

  /** The rules checked and removed are those the script adds, call by call. */
  lemma RulesAreTheScripts(dockerSubnet: string, wgSubnet: string, wgIf: string, dockerIf: string)
    ensures var rs, calls := EdgekitRules(dockerSubnet, wgSubnet, wgIf, dockerIf), ScriptCalls(dockerIf, dockerSubnet, wgIf, wgSubnet);
            |rs| == |calls| == 3 && forall i | 0 <= i < 3 :: |calls[i]| >= 2 && rs[i] == Called(calls[i])
  {
    var rs, calls := EdgekitRules(dockerSubnet, wgSubnet, wgIf, dockerIf), ScriptCalls(dockerIf, dockerSubnet, wgIf, wgSubnet);
    assert calls[0][2..] == rs[0].match_;
    assert calls[1][2..] == rs[1].match_;
    assert calls[2][2..] == rs[2].match_;
  }

  // ---------------------------------------------------------------- the kernel

  function Without(s: seq<seq<string>>, m: seq<string>): seq<seq<string>> {
    if s == [] then []
    else (if s[0] == m then [] else [s[0]]) + Without(s[1..], m)
  }

  function Copies(s: seq<seq<string>>, m: seq<string>): nat {
    if s == [] then 0 else (if s[0] == m then 1 else 0) + Copies(s[1..], m)
  }

  /** `iptables -D`: the first match goes. */
  function DeleteFirst(s: seq<seq<string>>, m: seq<string>): seq<seq<string>> {
    if s == [] then []
    else if s[0] == m then s[1..]
    else [s[0]] + DeleteFirst(s[1..], m)
  }

  lemma {:induction false} DeleteFirstFacts(s: seq<seq<string>>, m: seq<string>)
    ensures Without(DeleteFirst(s, m), m) == Without(s, m)
    ensures m in s ==> Copies(DeleteFirst(s, m), m) == Copies(s, m) - 1
    ensures forall x | x != m :: Copies(DeleteFirst(s, m), x) == Copies(s, x)
  {
    if s != [] && s[0] != m {
      DeleteFirstFacts(s[1..], m);
      var d := DeleteFirst(s, m);
      assert d[0] == s[0] && d[1..] == DeleteFirst(s[1..], m);
    }
  }

  lemma {:induction false} CopiesFacts(s: seq<seq<string>>, m: seq<string>)
    ensures Copies(s, m) > 0 <==> m in s
    ensures Copies(s, m) == 0 <==> Without(s, m) == s
    ensures Copies(s, m) == 0 || |Without(s, m)| < |s|
  {
    if s != [] {
      CopiesFacts(s[1..], m);
      if s[0] != m {
        assert Without(s, m)[1..] == Without(s[1..], m);
      } else {
        assert |Without(s, m)| < |s|;
      }
    }
  }

  class Kernel {
    var t: Ruleset
    /** How many commands have failed. */
    ghost var failures: nat

    /** `iptables -C` */
    method Check(r: Rule) returns (ok: bool)
      ensures ok <==> Has(t, r)
    {
      ok := Has(t, r);
    }

    /** `iptables -A`; it may fail. */
    method Append(r: Rule) returns (ok: bool)
      modifies this
      ensures t == if ok then Appended(old(t), r) else old(t)
      ensures failures == old(failures) + if ok then 0 else 1
    {
      ok := *;
      if ok {
        t := Appended(t, r);
      } else {
        failures := failures + 1;
      }
    }

    /** `iptables -D`; it may fail, and does when there is no such rule. */
    method Delete(r: Rule) returns (ok: bool)
      modifies this
      ensures t == if ok then Deleted(old(t), r) else old(t)
      ensures ok ==> Has(old(t), r)
      ensures failures == old(failures) + if ok then 0 else 1
    {
      ok := *;
      ok := ok && Has(t, r);
      if ok {
        t := Deleted(t, r);
      } else {
        failures := failures + 1;
      }
    }
  }

  function Appended(t: Ruleset, r: Rule): Ruleset {
    t[r.chain := In(t, r.chain) + [r.match_]]
  }

  function Deleted(t: Ruleset, r: Rule): Ruleset {
    t[r.chain := DeleteFirst(In(t, r.chain), r.match_)]
  }

  // ---------------------------------------------------------------- applying

  /** Append each rule that is absent. */
  function Applied(t: Ruleset, rs: seq<Rule>): Ruleset
    decreases |rs|
  {
    if rs == [] then t
    else Applied(if Has(t, rs[0]) then t else Appended(t, rs[0]), rs[1..])
  }

  /** The script: `add` for each rule, stopping at the first `iptables` that fails. */
  method RunScript(kernel: Kernel, rs: seq<Rule>) returns (ok: bool)
    modifies kernel
    ensures ok <==> kernel.failures == old(kernel.failures)
    ensures ok ==> kernel.t == Applied(old(kernel.t), rs)
    ensures !ok ==> exists k :: 0 <= k < |rs| && kernel.t == Applied(old(kernel.t), rs[..k])
  {
    ghost var t0 := kernel.t;
    assert rs[..0] == [];
    for i := 0 to |rs|
      invariant kernel.t == Applied(t0, rs[..i]) && kernel.failures == old(kernel.failures)
    {
      AppliedStep(t0, rs, i);
      var present := kernel.Check(rs[i]);
      if !present {
        var appended := kernel.Append(rs[i]);
        if !appended {
          return false;
        }
      }
    }
    assert rs[..|rs|] == rs;
    ok := true;
  }

  lemma {:induction false} AppliedStep(t: Ruleset, rs: seq<Rule>, i: nat)
    requires i < |rs|
    ensures Applied(t, rs[..i + 1]) ==
            var u := Applied(t, rs[..i]); if Has(u, rs[i]) then u else Appended(u, rs[i])
    decreases i
  {
    if i == 0 {
      assert rs[..1] == [rs[0]] && rs[..0] == [] && [rs[0]][1..] == [];
    } else {
      var t1 := if Has(t, rs[0]) then t else Appended(t, rs[0]);
      assert rs[..i + 1][1..] == rs[1..][..i] && rs[..i][1..] == rs[1..][..i - 1];
      AppliedStep(t1, rs[1..], i - 1);
    }
  }

  /** Chains only grow at the end, and only by rules of the script. */
  lemma {:induction false} AppliedGrows(t: Ruleset, rs: seq<Rule>)
    ensures forall c :: In(t, c) <= In(Applied(t, rs), c)
    ensures forall c, k | |In(t, c)| <= k < |In(Applied(t, rs), c)| :: Rule(c, In(Applied(t, rs), c)[k]) in rs
    ensures forall r | r in rs :: Has(Applied(t, rs), r)
    decreases |rs|
  {
    if rs != [] {
      var t1 := if Has(t, rs[0]) then t else Appended(t, rs[0]);
      AppliedGrows(t1, rs[1..]);
      assert Has(t1, rs[0]);
      var k :| 0 <= k < |In(t1, rs[0].chain)| && In(t1, rs[0].chain)[k] == rs[0].match_;
      assert In(Applied(t, rs), rs[0].chain)[k] == rs[0].match_;
      forall c
        ensures In(t, c) <= In(t1, c)
      {
      }
      forall c, k | |In(t, c)| <= k < |In(Applied(t, rs), c)|
        ensures Rule(c, In(Applied(t, rs), c)[k]) in rs
      {
        if k < |In(t1, c)| {
          assert In(Applied(t, rs), c)[k] == In(t1, c)[k];
        }
      }
    }
  }

  lemma {:induction false} NothingToApply(t: Ruleset, rs: seq<Rule>)
    requires forall r | r in rs :: Has(t, r)
    ensures Applied(t, rs) == t
  {
    if rs != [] {
      NothingToApply(t, rs[1..]);
    }
  }

  function ApplyTimes(t: Ruleset, rs: seq<Rule>, n: nat): Ruleset {
    if n == 0 then t else Applied(ApplyTimes(t, rs, n - 1), rs)
  }

  /** What `rules_present` asks the kernel about each rule in turn. */
  predicate RulesPresent(t: Ruleset, rs: seq<Rule>) {
    forall r | r in rs :: Has(t, r)
  }

  /** The rules count as present exactly when the script would change nothing. */
  lemma PresentMeansNothingToDo(t: Ruleset, rs: seq<Rule>)
    ensures RulesPresent(t, rs) <==> Applied(t, rs) == t
  {
    AppliedGrows(t, rs);
    if RulesPresent(t, rs) {
      NothingToApply(t, rs);
    }
  }

  /** Running the script any number of times equals running it once, leaves every rule in place, and
      keeps the rules that were there, in order, ahead of what it added. */
  lemma {:induction false} ReplayConverges(t: Ruleset, rs: seq<Rule>, n: nat)
    requires 1 <= n
    ensures ApplyTimes(t, rs, n) == Applied(t, rs)
    ensures RulesPresent(ApplyTimes(t, rs, n), rs)
    ensures forall c :: In(t, c) <= In(ApplyTimes(t, rs, n), c)
  {
    AppliedGrows(t, rs);
    if n == 1 {
      assert ApplyTimes(t, rs, 0) == t;
    } else {
      ReplayConverges(t, rs, n - 1);
      NothingToApply(Applied(t, rs), rs);
    }
  }

  // ---------------------------------------------------------------- removing

  function Stripped(t: Ruleset, r: Rule): Ruleset {
    t[r.chain := Without(In(t, r.chain), r.match_)]
  }

  function Total(t: Ruleset, rs: seq<Rule>): nat {
    if rs == [] then 0 else Copies(In(t, rs[0].chain), rs[0].match_) + Total(t, rs[1..])
  }

  /** How many copies of one rule the tables hold. */
  function CopiesOf(t: Ruleset, r: Rule): nat { Copies(In(t, r.chain), r.match_) }

  /** `n` copies of the rule went, and no other rule. */
  ghost predicate CopiesGone(t: Ruleset, u: Ruleset, r: Rule, n: nat) {
    && (forall c | c != r.chain :: In(u, c) == In(t, c))
    && CopiesOf(u, r) + n == CopiesOf(t, r)
    && (forall m | m != r.match_ :: Copies(In(u, r.chain), m) == Copies(In(t, r.chain), m))
  }

  /** Delete every copy of one rule; `stuck` when an `iptables -D` failed first. */
  method RemoveRule(kernel: Kernel, r: Rule) returns (deleted: nat, ghost stuck: bool)
    modifies kernel
    ensures CopiesGone(old(kernel.t), kernel.t, r, deleted)
    ensures kernel.failures == old(kernel.failures) + if stuck then 1 else 0
    ensures !stuck ==> Same(kernel.t, Stripped(old(kernel.t), r))
  {
    ghost var t0 := kernel.t;
    deleted, stuck := 0, false;
    while true
      invariant CopiesGone(t0, kernel.t, r, deleted)
      invariant kernel.failures == old(kernel.failures) && !stuck
      invariant Without(In(kernel.t, r.chain), r.match_) == Without(In(t0, r.chain), r.match_)
      decreases Copies(In(kernel.t, r.chain), r.match_)
    {
      CopiesFacts(In(kernel.t, r.chain), r.match_);
      DeleteFirstFacts(In(kernel.t, r.chain), r.match_);
      var present := kernel.Check(r);
      if !present {
        break;
      }
      var gone := kernel.Delete(r);
      if !gone {
        stuck := true;
        break;
      }
      deleted := deleted + 1;
    }
  }

  lemma {:induction false} TotalDrop(t: Ruleset, u: Ruleset, rs: seq<Rule>, r: Rule, n: nat)
    requires Distinct(rs)
    requires forall x | x in rs && x != r :: CopiesOf(u, x) == CopiesOf(t, x)
    requires CopiesOf(t, r) == CopiesOf(u, r) + n
    ensures Total(t, rs) == Total(u, rs) + if r in rs then n else 0
  {
    if rs != [] {
      assert rs[0] in rs;
      assert rs == [rs[0]] + rs[1..];
      TotalDrop(t, u, rs[1..], r, n);
      if r == rs[0] {
        assert r !in rs[1..];
      }
    }
  }

  lemma CopiesGoneTotal(t: Ruleset, u: Ruleset, rs: seq<Rule>, i: nat, n: nat)
    requires Distinct(rs) && i < |rs| && CopiesGone(t, u, rs[i], n)
    ensures Total(t, rs) == Total(u, rs) + n
  {
    TotalDrop(t, u, rs, rs[i], n);
  }

  /** What is left of a chain when every rule of `rs` is taken out of it. */
  function Others(s: seq<seq<string>>, c: Chain, rs: seq<Rule>): seq<seq<string>> {
    if s == [] then []
    else (if Rule(c, s[0]) in rs then [] else [s[0]]) + Others(s[1..], c, rs)
  }

  lemma {:induction false} OthersConcat(s: seq<seq<string>>, u: seq<seq<string>>, c: Chain, rs: seq<Rule>)
    ensures Others(s + u, c, rs) == Others(s, c, rs) + Others(u, c, rs)
  {
    if s == [] {
      assert s + u == u;
    } else {
      assert (s + u)[0] == s[0] && (s + u)[1..] == s[1..] + u;
      OthersConcat(s[1..], u, c, rs);
    }
  }

  lemma {:induction false} OthersFacts(s: seq<seq<string>>, c: Chain, rs: seq<Rule>)
    ensures forall m | m in Others(s, c, rs) :: m in s && Rule(c, m) !in rs
    ensures (forall m | m in s :: Rule(c, m) !in rs) ==> Others(s, c, rs) == s
    ensures (forall m | m in s :: Rule(c, m) in rs) ==> Others(s, c, rs) == []
  {
    if s != [] {
      assert s[0] in s && forall m | m in s[1..] :: m in s;
      OthersFacts(s[1..], c, rs);
    }
  }

  /** Taking out one more rule. */
  lemma {:induction false} OthersStep(s: seq<seq<string>>, c: Chain, rs: seq<Rule>, r: Rule)
    ensures Others(s, c, rs + [r]) == if c == r.chain then Without(Others(s, c, rs), r.match_) else Others(s, c, rs)
  {
    if s != [] {
      OthersStep(s[1..], c, rs, r);
      var rest, all := Others(s[1..], c, rs), Others(s, c, rs);
      if Rule(c, s[0]) in rs {
        assert all == rest;
      } else {
        assert all[0] == s[0] && all[1..] == rest;
        assert Without(all, r.match_) == (if s[0] == r.match_ then [] else [s[0]]) + Without(rest, r.match_);
      }
      assert Rule(c, s[0]) in rs + [r] <==> Rule(c, s[0]) in rs || Rule(c, s[0]) == r;
      assert Others(s, c, rs + [r]) == (if Rule(c, s[0]) in rs + [r] then [] else [s[0]]) + Others(s[1..], c, rs + [r]);
    }
  }

  /** Every rule of `rs` is gone from `u`, and what else `t` had is there in the same order. */
  ghost predicate TakenOut(t: Ruleset, u: Ruleset, rs: seq<Rule>) {
    forall c :: In(u, c) == Others(In(t, c), c, rs)
  }

  lemma TakenOutHasNone(t: Ruleset, u: Ruleset, rs: seq<Rule>)
    requires TakenOut(t, u, rs)
    ensures forall r | r in rs :: !Has(u, r)
    ensures Total(u, rs) == 0
  {
    forall r | r in rs
      ensures !Has(u, r)
    {
      OthersFacts(In(t, r.chain), r.chain, rs);
    }
    NoneHasNone(u, rs);
  }

  lemma {:induction false} NoneHasNone(u: Ruleset, rs: seq<Rule>)
    requires forall r | r in rs :: !Has(u, r)
    ensures Total(u, rs) == 0
  {
    if rs != [] {
      assert rs[0] in rs;
      CopiesFacts(In(u, rs[0].chain), rs[0].match_);
      NoneHasNone(u, rs[1..]);
    }
  }

  lemma NothingTakenOut(t: Ruleset, rs: seq<Rule>)
    ensures TakenOut(t, t, rs[..0])
  {
    assert rs[..0] == [];
    forall c
      ensures In(t, c) == Others(In(t, c), c, [])
    {
      OthersFacts(In(t, c), c, []);
    }
  }

  lemma TakenOutStep(t0: Ruleset, t: Ruleset, u: Ruleset, rs: seq<Rule>, i: nat)
    requires i < |rs| && TakenOut(t0, t, rs[..i]) && Same(u, Stripped(t, rs[i]))
    ensures TakenOut(t0, u, rs[..i + 1])
  {
    assert rs[..i + 1] == rs[..i] + [rs[i]];
    forall c
      ensures In(u, c) == Others(In(t0, c), c, rs[..i + 1])
    {
      OthersStep(In(t0, c), c, rs[..i], rs[i]);
      assert In(u, c) == In(Stripped(t, rs[i]), c);
    }
  }

  lemma TakenOutAll(t: Ruleset, u: Ruleset, rs: seq<Rule>)
    requires TakenOut(t, u, rs[..|rs|])
    ensures TakenOut(t, u, rs) && Total(u, rs) == 0
  {
    assert rs[..|rs|] == rs;
    TakenOutHasNone(t, u, rs);
  }

  /** Remove every copy of each rule. The count is exact whatever fails; when nothing fails no copy
      is left, and every other rule is where it was. */
  method RemoveRules(kernel: Kernel, rs: seq<Rule>) returns (deleted: nat, ghost stuck: bool)
    requires Distinct(rs)
    modifies kernel
    ensures deleted + Total(kernel.t, rs) == Total(old(kernel.t), rs)
    ensures stuck <==> kernel.failures > old(kernel.failures)
    ensures !stuck ==> TakenOut(old(kernel.t), kernel.t, rs) && deleted == Total(old(kernel.t), rs)
  {
    ghost var t0 := kernel.t;
    deleted, stuck := 0, false;
    NothingTakenOut(t0, rs);
    for i := 0 to |rs|
      invariant deleted + Total(kernel.t, rs) == Total(t0, rs)
      invariant kernel.failures >= old(kernel.failures) && (stuck <==> kernel.failures > old(kernel.failures))
      invariant !stuck ==> TakenOut(t0, kernel.t, rs[..i])
    {
      ghost var t := kernel.t;
      var n;
      ghost var failed;
      n, failed := RemoveRule(kernel, rs[i]);
      CopiesGoneTotal(t, kernel.t, rs, i, n);
      deleted, stuck := deleted + n, stuck || failed;
      if !stuck {
        TakenOutStep(t0, t, kernel.t, rs, i);
      }
    }
    if !stuck {
      TakenOutAll(t0, kernel.t, rs);
    }
  }

  lemma AddedIsTakenOut(t: Ruleset, rs: seq<Rule>, c: Chain)
    requires forall r | r in rs :: !Has(t, r)
    ensures Others(In(Applied(t, rs), c), c, rs) == In(t, c)
  {
    AppliedGrows(t, rs);
    var s, all := In(t, c), In(Applied(t, rs), c);
    var added := all[|s|..];
    assert all == s + added;
    OthersConcat(s, added, c, rs);
    forall m | m in s
      ensures Rule(c, m) !in rs
    {
      assert Has(t, Rule(c, m));
    }
    OthersFacts(s, c, rs);
    forall k | 0 <= k < |added|
      ensures Rule(c, added[k]) in rs
    {
      assert added[k] == all[|s| + k];
    }
    OthersFacts(added, c, rs);
  }

  /** Removal undoes the script exactly on tables that had none of its rules. */
  lemma RemovalUndoesScript(t: Ruleset, rs: seq<Rule>, u: Ruleset)
    requires TakenOut(Applied(t, rs), u, rs)
    ensures Same(u, t) <==> forall r | r in rs :: !Has(t, r)
  {
    AppliedGrows(t, rs);
    TakenOutHasNone(Applied(t, rs), u, rs);
    if forall r | r in rs :: !Has(t, r) {
      forall c
        ensures In(u, c) == In(t, c)
      {
        AddedIsTakenOut(t, rs, c);
      }
    } else {
      var r :| r in rs && Has(t, r);
      assert In(u, r.chain) != In(t, r.chain);
    }
  }
}
