/** The login throttle, and the rate at which it lets failed attempts through. */
module Throttle {
  import opened Common

  datatype Bucket = Bucket(failures: nat, lockedUntil: real)

  type Buckets = map<string, Bucket>

  /** `max_failures` and `lockout_seconds`. */
  datatype Policy = Policy(maxFailures: nat, lockout: real)

  ghost predicate Sensible(p: Policy) {
    p.maxFailures >= 1 && p.lockout > 0.0
  }

  /** Attempts before any were made, or after a success. */
  const CLEAN := Bucket(0, 0.0)

  function BucketOf(b: Buckets, key: string): Bucket {
    if key in b then b[key] else CLEAN
  }

  predicate Locked(b: Buckets, key: string, now: real) {
    key in b && b[key].lockedUntil > now
  }

  function Failed(p: Policy, bucket: Bucket, now: real): Bucket {
    if bucket.failures + 1 >= p.maxFailures then Bucket(0, now + p.lockout)
    else bucket.(failures := bucket.failures + 1)
  }

  class LoginThrottle {
    const policy: Policy
    var buckets: Buckets

    constructor (policy: Policy)
      ensures this.policy == policy && buckets == map[]
    {
      this.policy := policy;
      buckets := map[];
    }

    /** Whether an attempt may go on to have its password looked at. */
    method Check(key: string, now: real) returns (allowed: bool)
      ensures allowed <==> !(key in buckets && buckets[key].lockedUntil > now)
    {
      allowed := !(key in buckets && buckets[key].lockedUntil > now);
    }

    method RecordFailure(key: string, now: real)
      modifies this
      ensures key in buckets && buckets == old(buckets)[key := buckets[key]]
      ensures var was := if key in old(buckets) then old(buckets)[key] else Bucket(0, 0.0);
              buckets[key] == if was.failures + 1 < policy.maxFailures then Bucket(was.failures + 1, was.lockedUntil)
                              else Bucket(0, now + policy.lockout)
    {
      var bucket := if key in buckets then buckets[key] else CLEAN;
      bucket := bucket.(failures := bucket.failures + 1);
      if bucket.failures >= policy.maxFailures {
        bucket := Bucket(0, now + policy.lockout);
      }
      buckets := buckets[key := bucket];
    }

    method RecordSuccess(key: string)
      modifies this
      ensures buckets == old(buckets) - {key}
    {
      buckets := buckets - {key};
    }

    /** One login request, as the route handles it. */
    method Login(a: Attempt) returns (o: Outcome)
      modifies this
      ensures o == Verdict(old(buckets), a)
      ensures buckets == After(policy, old(buckets), a)
      ensures o.Rejected? <==> a.key in old(buckets) && old(buckets)[a.key].lockedUntil > a.checkedAt
      ensures o.Admitted? <==> !o.Rejected? && a.good
      ensures o.Rejected? ==> buckets == old(buckets)
      ensures o.Admitted? ==> buckets == old(buckets) - {a.key}
    {
      var allowed := Check(a.key, a.checkedAt);
      if !allowed {
        return Rejected;
      }
      if !a.good {
        RecordFailure(a.key, a.recordedAt);
        return Refused;
      }
      RecordSuccess(a.key);
      o := Admitted;
    }
  }

  // ---------------------------------------------------------------- runs of attempts

  /** The throttle is consulted at `checkedAt`; the password is then verified, which takes time. */
  datatype Attempt = Attempt(key: string, checkedAt: real, recordedAt: real, good: bool)

  datatype Outcome = Rejected | Refused | Admitted

  function Verdict(b: Buckets, a: Attempt): Outcome {
    if Locked(b, a.key, a.checkedAt) then Rejected else if a.good then Admitted else Refused
  }

  function After(p: Policy, b: Buckets, a: Attempt): Buckets {
    match Verdict(b, a)
    case Rejected => b
    case Refused => b[a.key := Failed(p, BucketOf(b, a.key), a.recordedAt)]
    case Admitted => b - {a.key}
  }

  /** The clock never goes back, and attempts are handled one after the other. */
  ghost predicate InOrder(h: seq<Attempt>) {
    && (forall i | 0 <= i < |h| :: h[i].checkedAt <= h[i].recordedAt)
    && (forall i, j | 0 <= i < j < |h| :: h[i].recordedAt <= h[j].checkedAt)
  }

  /** Failed attempts of `key` let through to a password check within [from, to]. */
  ghost function Refusals(p: Policy, b: Buckets, h: seq<Attempt>, key: string, from: real, to: real): nat
    decreases |h|
  {
    if h == [] then 0
    else
      (if h[0].key == key && Verdict(b, h[0]).Refused? && from <= h[0].recordedAt <= to then 1 else 0)
      + Refusals(p, After(p, b, h[0]), h[1..], key, from, to)
  }

  /** `key` does not log in within [from, to]. */
  ghost predicate NoSuccess(p: Policy, b: Buckets, h: seq<Attempt>, key: string, from: real, to: real)
    decreases |h|
  {
    h != [] ==>
      && !(h[0].key == key && Verdict(b, h[0]).Admitted? && from <= h[0].recordedAt <= to)
      && NoSuccess(p, After(p, b, h[0]), h[1..], key, from, to)
  }

  ghost predicate CountsBelow(p: Policy, b: Buckets) {
    forall k | k in b :: b[k].failures < p.maxFailures
  }

  // ---------------------------------------------------------------- the rate bound

  function Times(n: nat, x: real): real { n as real * x }

  lemma TimesStep(n: nat, x: real)
    ensures Times(n + 1, x) == Times(n, x) + x && Times(0, x) == 0.0
  {
  }

  lemma ScaleOrder(q: real, s: real, x: real)
    requires x > 0.0
    ensures q < s <==> q * x < s * x
  {
    assert (s - q) * x == s * x - q * x;
    if q < s {
      assert (s - q) * x > 0.0;
    } else {
      assert (q - s) * x >= 0.0;
    }
  }

  lemma TimesOrder(m: nat, n: nat, x: real)
    requires x > 0.0 && Times(m, x) < Times(n, x)
    ensures m < n
  {
    ScaleOrder(m as real, n as real, x);
  }

  /** What is known after `c` failures in the interval, `m` of which locked the key. */
  ghost predicate Tally(p: Policy, bucket: Bucket, from: real, to: real, m: nat, c: nat) {
    && bucket.failures < p.maxFailures
    && c <= m * p.maxFailures + bucket.failures
    && (m >= 1 ==> bucket.lockedUntil >= from + Times(m, p.lockout) && from + Times(m - 1, p.lockout) <= to)
    && (c > m * p.maxFailures ==> from + Times(m, p.lockout) <= to)
  }

  lemma ScaleNat(a: nat, b: nat, x: nat)
    requires a <= b
    ensures a * x <= b * x
    ensures (a + 1) * x == a * x + x
  {
  }

  lemma TallyBound(p: Policy, bucket: Bucket, from: real, to: real, m: nat, c: nat, n: nat)
    requires Sensible(p) && Tally(p, bucket, from, to, m, c)
    requires to - from < Times(n + 1, p.lockout)
    ensures c <= p.maxFailures * (n + 1)
  {
    if c > m * p.maxFailures {
      TimesOrder(m, n + 1, p.lockout);
      ScaleNat(m, n, p.maxFailures);
      ScaleNat(n, n, p.maxFailures);
    } else if m >= 1 {
      TimesOrder(m - 1, n + 1, p.lockout);
      ScaleNat(m, n + 1, p.maxFailures);
    }
  }

  /** One failure inside the interval keeps the tally. */
  lemma TallyStep(p: Policy, b: Buckets, a: Attempt, from: real, to: real, m: nat, c: nat) returns (m': nat)
    requires Sensible(p) && Tally(p, BucketOf(b, a.key), from, to, m, c)
    requires m >= 1 ==> a.key in b
    requires a.checkedAt <= a.recordedAt && Verdict(b, a).Refused? && from <= a.recordedAt <= to
    ensures Tally(p, BucketOf(After(p, b, a), a.key), from, to, m', c + 1)
  {
    var bucket := BucketOf(b, a.key);
    TimesStep(m, p.lockout);
    m' := if bucket.failures + 1 >= p.maxFailures then m + 1 else m;
    ScaleNat(m, m, p.maxFailures);
  }

  lemma {:induction false} NoneAfter(p: Policy, b: Buckets, h: seq<Attempt>, key: string, from: real, to: real)
    requires forall i | 0 <= i < |h| :: h[i].recordedAt > to
    ensures Refusals(p, b, h, key, from, to) == 0
    decreases |h|
  {
    if h != [] {
      NoneAfter(p, After(p, b, h[0]), h[1..], key, from, to);
    }
  }

  lemma {:induction false} TallyRun(p: Policy, b: Buckets, h: seq<Attempt>, key: string, from: real, to: real,
                                    m: nat, c: nat, n: nat)
    requires Sensible(p) && CountsBelow(p, b) && InOrder(h) && NoSuccess(p, b, h, key, from, to)
    requires Tally(p, BucketOf(b, key), from, to, m, c) && (m >= 1 ==> key in b)
    requires (c == 0 && m == 0) || forall i | 0 <= i < |h| :: h[i].recordedAt >= from
    requires to - from < Times(n + 1, p.lockout)
    ensures c + Refusals(p, b, h, key, from, to) <= p.maxFailures * (n + 1)
    decreases |h|
  {
    if h == [] {
      TallyBound(p, BucketOf(b, key), from, to, m, c, n);
    } else if h[0].recordedAt > to {
      assert forall i | 0 <= i < |h| :: h[i].recordedAt > to;
      NoneAfter(p, b, h, key, from, to);
      TallyBound(p, BucketOf(b, key), from, to, m, c, n);
    } else {
      var b' := After(p, b, h[0]);
      if h[0].recordedAt < from || h[0].key != key || Verdict(b, h[0]).Rejected? {
        TallyRun(p, b', h[1..], key, from, to, m, c, n);
      } else {
        assert Verdict(b, h[0]).Refused?;
        var m' := TallyStep(p, b, h[0], from, to, m, c);
        TallyRun(p, b', h[1..], key, from, to, m', c + 1, n);
      }
    }
  }

  /** For a key with no successful login, any interval admits at most `max_failures` failed attempts
      for each lockout period begun in it, over any clock that does not go back and whatever other
      keys do. */
  lemma LoginRateBound(p: Policy, b: Buckets, h: seq<Attempt>, key: string, from: real, to: real)
    requires Sensible(p) && CountsBelow(p, b) && InOrder(h) && from <= to
    requires NoSuccess(p, b, h, key, from, to)
    ensures Refusals(p, b, h, key, from, to) <= p.maxFailures * (((to - from) / p.lockout).Floor + 1)
  {
    var n := ((to - from) / p.lockout).Floor;
    assert (to - from) / p.lockout >= 0.0;
    assert (to - from) / p.lockout < (n + 1) as real;
    ScaleOrder((to - from) / p.lockout, (n + 1) as real, p.lockout);
    assert to - from == (to - from) / p.lockout * p.lockout;
    assert to - from < Times(n + 1, p.lockout);
    TallyRun(p, b, h, key, from, to, 0, 0, n);
  }

  ghost function Run(p: Policy, b: Buckets, h: seq<Attempt>): Buckets
    decreases |h|
  {
    if h == [] then b else Run(p, After(p, b, h[0]), h[1..])
  }

  /** Every attempt of `h` is one by `key`, and is let through to fail. */
  ghost predicate FailsEachTime(p: Policy, b: Buckets, h: seq<Attempt>, key: string)
    decreases |h|
  {
    h != [] ==> h[0].key == key && Verdict(b, h[0]).Refused? && FailsEachTime(p, After(p, b, h[0]), h[1..], key)
  }

  /** A key is not locked before its last allowed failure, and that failure locks it for the whole
      lockout from then on, with a clean count after it. */
  lemma {:induction false} LocksAtTheLimit(p: Policy, b: Buckets, h: seq<Attempt>, key: string)
    requires CountsBelow(p, b) && FailsEachTime(p, b, h, key) && h != []
    requires BucketOf(b, key).failures + |h| <= p.maxFailures
    ensures var last := BucketOf(Run(p, b, h), key);
            if BucketOf(b, key).failures + |h| < p.maxFailures then
              last.lockedUntil == BucketOf(b, key).lockedUntil && last.failures == BucketOf(b, key).failures + |h|
            else
              last == Bucket(0, h[|h| - 1].recordedAt + p.lockout)
    decreases |h|
  {
    var b1, rest := After(p, b, h[0]), h[1..];
    if rest == [] {
      assert Run(p, b1, rest) == b1;
    } else {
      assert rest[|rest| - 1] == h[|h| - 1];
      LocksAtTheLimit(p, b1, rest, key);
    }
  }

  /** Every failure let through inside the interval is counted. */
  lemma {:induction false} EveryFailureCounts(p: Policy, b: Buckets, h: seq<Attempt>, key: string, from: real, to: real)
    requires FailsEachTime(p, b, h, key) && forall i | 0 <= i < |h| :: from <= h[i].recordedAt <= to
    ensures Refusals(p, b, h, key, from, to) == |h|
    decreases |h|
  {
    if h != [] {
      EveryFailureCounts(p, After(p, b, h[0]), h[1..], key, from, to);
    }
  }

  // ---------------------------------------------------------------- keys are independent

  ghost function Only(h: seq<Attempt>, key: string): seq<Attempt> {
    if h == [] then [] else (if h[0].key == key then [h[0]] else []) + Only(h[1..], key)
  }

  /** A key fares as if it were alone: its bucket depends on its own attempts only. */
  lemma {:induction false} KeysAreIndependent(p: Policy, b: Buckets, c: Buckets, h: seq<Attempt>, key: string)
    requires (key in b <==> key in c) && (key in b ==> b[key] == c[key])
    ensures key in Run(p, b, h) <==> key in Run(p, c, Only(h, key))
    ensures key in Run(p, b, h) ==> Run(p, b, h)[key] == Run(p, c, Only(h, key))[key]
    ensures forall from, to :: Refusals(p, b, h, key, from, to) == Refusals(p, c, Only(h, key), key, from, to)
    decreases |h|
  {
    if h != [] {
      if h[0].key == key {
        assert Only(h, key)[0] == h[0] && Only(h, key)[1..] == Only(h[1..], key);
        KeysAreIndependent(p, After(p, b, h[0]), After(p, c, h[0]), h[1..], key);
      } else {
        assert Only(h, key) == Only(h[1..], key);
        KeysAreIndependent(p, After(p, b, h[0]), c, h[1..], key);
      }
    }
  }
}
