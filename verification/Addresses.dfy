/** The tunnel subnet and the allocation of its lowest free address. Addresses are the 32-bit
    numbers their dotted forms stand for. */
module Addresses {
  import opened Common

  function Pow2(n: nat): (r: nat)
    ensures r >= 1
  {
    if n == 0 then 1 else 2 * Pow2(n - 1)
  }

  /** An IPv4 subnet as written, possibly with host bits set. */
  datatype Subnet = Subnet(address: nat, prefix: nat)

  /** What the configuration accepts: a /30 or larger. */
  predicate Valid(s: Subnet) {
    s.prefix <= 30 && s.address < Pow2(32)
  }

  function Size(s: Subnet): nat
    requires s.prefix <= 30
  {
    Pow2(32 - s.prefix)
  }

  /** The multiple of `z` at or below `a`. */
  function MaskDown(a: nat, z: nat): (r: nat)
    requires z > 0
    ensures r <= a < r + z
  {
    a - a % z
  }

  /** The network address: the host bits cleared. */
  function Base(s: Subnet): nat
    requires s.prefix <= 30
  {
    MaskDown(s.address, Size(s))
  }

  function Hub(s: Subnet): nat
    requires s.prefix <= 30
  {
    Base(s) + 1
  }

  predicate Within(s: Subnet, a: int)
    requires s.prefix <= 30
  {
    Base(s) <= a < Base(s) + Size(s)
  }

  /** An address a peer can be given: not the network, the broadcast or the hub address. */
  predicate Assignable(s: Subnet, a: int)
    requires s.prefix <= 30
  {
    Base(s) + 1 < a < Base(s) + Size(s) - 1
  }

  lemma {:induction false} SizeAtLeastFour(s: Subnet)
    requires s.prefix <= 30
    ensures Size(s) >= 4
  {
    assert Pow2(32 - s.prefix) == 2 * Pow2(31 - s.prefix) == 4 * Pow2(30 - s.prefix);
  }

  /** The lowest assignable address that is not taken. */
  method NextFreeAddress(s: Subnet, taken: set<nat>) returns (r: Option<nat>)
    requires Valid(s)
    ensures r.Some? ==>
              && Assignable(s, r.value) && r.value !in taken
              && forall a: nat | Assignable(s, a) && a < r.value :: a in taken
    ensures r.None? <==> forall a: nat | Assignable(s, a) :: a in taken
  {
    SizeAtLeastFour(s);
    var reserved := taken + {Hub(s)};
    var candidate := Base(s) + 2;
    while candidate < Base(s) + Size(s) - 1
      invariant Base(s) + 2 <= candidate <= Base(s) + Size(s) - 1
      invariant forall a: nat | Assignable(s, a) && a < candidate :: a in taken
    {
      if candidate !in reserved {
        return Some(candidate);
      }
      candidate := candidate + 1;
    }
    r := None;
  }

  // ---------------------------------------------------------------- counting

  function Interval(lo: nat, n: nat): set<nat> {
    if n == 0 then {} else Interval(lo, n - 1) + {lo + n - 1}
  }

  lemma {:induction false} IntervalFacts(lo: nat, n: nat)
    ensures |Interval(lo, n)| == n
    ensures forall a: nat :: a in Interval(lo, n) <==> lo <= a < lo + n
  {
    if n > 0 {
      IntervalFacts(lo, n - 1);
    }
  }

  lemma SubsetSize(a: set<nat>, b: set<nat>)
    requires a <= b
    ensures |a| <= |b|
  {
    assert b == a + (b - a);
  }

  /** The addresses peers can have. */
  function PeerAddresses(s: Subnet): set<nat>
    requires Valid(s)
  {
    SizeAtLeastFour(s);
    Interval(Base(s) + 2, Size(s) - 3)
  }

  /** A subnet holds 2^(32-p) - 3 peers. */
  lemma Capacity(s: Subnet)
    requires Valid(s)
    ensures forall a: nat :: a in PeerAddresses(s) <==> Assignable(s, a)
    ensures |PeerAddresses(s)| == Pow2(32 - s.prefix) - 3
  {
    SizeAtLeastFour(s);
    IntervalFacts(Base(s) + 2, Size(s) - 3);
  }

  /** As long as fewer addresses than that are taken, one is free. */
  lemma RoomMeansFree(s: Subnet, taken: set<nat>)
    requires Valid(s) && |taken| < Pow2(32 - s.prefix) - 3
    ensures exists a: nat :: Assignable(s, a) && a !in taken
  {
    Capacity(s);
    var all := PeerAddresses(s);
    if all <= taken {
      SubsetSize(all, taken);
    }
    var a :| a in all && a !in taken;
    assert Assignable(s, a);
  }

  /** The subnet contains the address it was written with, and all of it fits in 32 bits. */
  lemma SubnetFits(s: Subnet)
    requires Valid(s)
    ensures Within(s, s.address)
    ensures Base(s) + Size(s) <= Pow2(32)
  {
    Pow2Sum(s.prefix, 32 - s.prefix);
    AlignedBelow(s.address, Size(s), Pow2(s.prefix));
  }

  lemma DivBetween(a: nat, q: nat, z: nat)
    requires z > 0
    ensures q * z <= a < q * z + z <==> a / z == q
  {
    var k := a / z;
    assert a == k * z + a % z;
    if k < q {
      TimesOrder(k + 1, q, z);
      assert (k + 1) * z == k * z + z;
    } else if k > q {
      TimesOrder(q + 1, k, z);
      assert (q + 1) * z == q * z + z;
    }
  }

  /** The addresses of the subnet are those with its prefix; the hub has the first one after the
      network address. */
  lemma PrefixDecides(s: Subnet, a: nat)
    requires Valid(s)
    ensures Within(s, a) <==> a / Pow2(32 - s.prefix) == s.address / Pow2(32 - s.prefix)
    ensures Hub(s) == s.address / Pow2(32 - s.prefix) * Pow2(32 - s.prefix) + 1
  {
    BlockOf(s.address, a, Size(s));
  }

  lemma BlockOf(x: nat, a: nat, z: nat)
    requires z > 0
    ensures MaskDown(x, z) == x / z * z
    ensures MaskDown(x, z) <= a < MaskDown(x, z) + z <==> a / z == x / z
  {
    MaskDownIs(x, z);
    DivBetween(a, x / z, z);
  }

  lemma MaskDownIs(x: nat, z: nat)
    requires z > 0
    ensures MaskDown(x, z) == x / z * z
  {
    assert x == z * (x / z) + x % z;
  }

  lemma {:induction false} Pow2Sum(m: nat, n: nat)
    ensures Pow2(m + n) == Pow2(m) * Pow2(n)
  {
    if m > 0 {
      Pow2Sum(m - 1, n);
      assert Pow2(m + n) == 2 * Pow2(m + n - 1);
    }
  }

  lemma TimesOrder(x: nat, y: nat, z: nat)
    ensures x <= y ==> x * z <= y * z
    ensures x * z < y * z ==> x < y
  {
    if x <= y {
      assert y * z - x * z == (y - x) * z;
    } else {
      assert x * z - y * z == (x - y) * z;
    }
  }

  lemma AlignedBelow(a: nat, z: nat, k: nat)
    requires z > 0 && a < k * z
    ensures MaskDown(a, z) + z <= k * z
  {
    var q := a / z;
    assert MaskDown(a, z) == q * z;
    TimesOrder(q, k, z);
    TimesOrder(q + 1, k, z);
    assert (q + 1) * z == q * z + z;
  }
}
