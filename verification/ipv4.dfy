/** IPv4 addresses, CIDR blocks and the longest-prefix-match classifier the
    router's `ByDestSubnet`/`BySrcSubnet` stages apply.

    An address is a 32-bit value.  A CIDR block is a network address and a
    prefix length; an address belongs to it when its first `len` bits equal
    those of the network (section 3.1 of RFC 4632).  The limited broadcast
    address is all ones, and a block's directed broadcast is its last
    address, the network with every host bit set (section 3.2.1.3 of
    RFC 1122). */
module Ipv4 {
  import opened Wrappers

  type Addr = bv32

  type PrefixLen = l: nat | l <= 32

  /** 255.255.255.255 */
  const LimitedBroadcast: Addr := 0xFFFF_FFFF

  /** The address with the first `len` bits set. */
  function Mask(len: PrefixLen): Addr
  {
    if len == 0 then 0 else 0xFFFF_FFFF << (32 - len)
  }

  datatype Cidr = Cidr(network: Addr, len: PrefixLen)

  /** A block whose network address has no host bits set, as the `cidr`
      crate's constructor demands. */
  predicate WellFormed(c: Cidr)
  {
    c.network & Mask(c.len) == c.network
  }

  /** The block of length `len` that holds `a`. */
  function Probe(a: Addr, len: PrefixLen): Cidr
  {
    Cidr(a & Mask(len), len)
  }

  /** `a` belongs to `c`: its first `c.len` bits are those of the network. */
  predicate Contains(c: Cidr, a: Addr)
  {
    a & Mask(c.len) == c.network
  }

  lemma AndIdempotent(x: Addr, m: Addr)
    ensures (x & m) & m == x & m
  {
  }

  /** The probe of length `len` holds the address probed... */
  lemma ProbeContains(a: Addr, len: PrefixLen)
    ensures Contains(Probe(a, len), a)
  {
    AndIdempotent(a, Mask(len));
  }

  /** ...and is the only block of that length that does. */
  lemma ProbeIsBlock(c: Cidr, a: Addr)
    requires Contains(c, a)
    ensures Probe(a, c.len) == c
  {
  }

  lemma MaskFull()
    ensures Mask(32) == 0xFFFF_FFFF
  {
  }

  /** The block of prefix length 32 holding one address
      (`Ipv4Cidr::new(a, 32).unwrap()`). */
  function HostBlock(a: Addr): Cidr
  {
    Cidr(a, 32)
  }

  lemma HostBlockWellFormed(a: Addr)
    ensures WellFormed(HostBlock(a))
  {
    MaskFull();
  }

  /** A host block holds its one address and no other. */
  lemma InHostBlock(a: Addr, x: Addr)
    ensures Contains(HostBlock(a), x) <==> x == a
  {
    MaskFull();
  }

  /** The directed broadcast address of a block: its network with every host
      bit set. */
  function LastAddress(c: Cidr): Addr
  {
    c.network | !Mask(c.len)
  }

  lemma LastInBlock(n: Addr, m: Addr)
    requires n & m == n
    ensures (n | !m) & m == n
  {
  }

  lemma BelowLast(n: Addr, m: Addr, x: Addr)
    requires x & m == n
    ensures x <= n | !m
  {
    assert x == n | (x & !m);
  }

  /** The last address belongs to its block... */
  lemma LastAddressInBlock(c: Cidr)
    requires WellFormed(c)
    ensures Contains(c, LastAddress(c))
  {
    LastInBlock(c.network, Mask(c.len));
    assert LastAddress(c) & Mask(c.len) == c.network;
  }

  /** ...and is the greatest address that does. */
  lemma LastIsGreatest(c: Cidr, x: Addr)
    requires Contains(c, x)
    ensures x <= LastAddress(c)
  {
    var m := Mask(c.len);
    assert x & m == c.network;
    BelowLast(c.network, m, x);
  }

  /** A host block's last address is its one address. */
  lemma HostBlockLast(a: Addr)
    ensures LastAddress(HostBlock(a)) == a
  {
    HostBlockWellFormed(a);
    LastAddressInBlock(HostBlock(a));
    InHostBlock(a, LastAddress(HostBlock(a)));
  }

  // ---------------------------------------------------------------------------
  // Longest-prefix match
  // ---------------------------------------------------------------------------

  /** The longest block of `table` of prefix length at most `len` that holds
      `a`, probing lengths from `len` down to 0. */
  function MatchFrom<C>(table: map<Cidr, C>, a: Addr, len: PrefixLen): (r: Option<Cidr>)
    ensures r.Some? ==> r.value in table && Contains(r.value, a) && r.value.len <= len
    decreases len
  {
    ProbeContains(a, len);
    if Probe(a, len) in table then Some(Probe(a, len))
    else if len == 0 then None
    else MatchFrom(table, a, len - 1)
  }

  /** The most specific block of `table` that holds `a`, if any. */
  function LongestBlock<C>(table: map<Cidr, C>, a: Addr): (r: Option<Cidr>)
    ensures r.Some? ==> r.value in table && Contains(r.value, a)
  {
    MatchFrom(table, a, 32)
  }

  /** The entry of the most specific block of `table` that holds `a`. */
  function LongestMatch<C>(table: map<Cidr, C>, a: Addr): (r: Option<C>)
    ensures r.Some? ==> exists k :: k in table && Contains(k, a) && table[k] == r.value
  {
    match LongestBlock(table, a)
    case Some(k) => Some(table[k])
    case None => None
  }

  /** `k` is a block of `table` holding `a`, and no block of the table that
      holds `a` has a longer prefix. */
  ghost predicate IsLongestMatch<C>(table: map<Cidr, C>, a: Addr, k: Cidr)
  {
    && k in table
    && Contains(k, a)
    && forall k' :: k' in table && Contains(k', a) ==> k'.len <= k.len
  }

  lemma {:induction false} MatchFromIsLongest<C>(table: map<Cidr, C>, a: Addr, len: PrefixLen)
    ensures MatchFrom(table, a, len).None? <==>
              forall k :: k in table && Contains(k, a) ==> len < k.len
    ensures MatchFrom(table, a, len).Some? ==>
              forall k :: k in table && Contains(k, a) && k.len <= len ==> k.len <= MatchFrom(table, a, len).value.len
    decreases len
  {
    forall k | k in table && Contains(k, a) && k.len == len
      ensures Probe(a, len) in table
    {
      ProbeIsBlock(k, a);
    }
    if Probe(a, len) !in table && len > 0 {
      MatchFromIsLongest(table, a, len - 1);
    }
  }

  /** `LongestBlock` finds nothing exactly when no block of the table holds the
      address, and otherwise finds a block no other matching block is longer
      than. */
  lemma LongestBlockSpec<C>(table: map<Cidr, C>, a: Addr)
    ensures LongestBlock(table, a).None? <==> forall k :: k in table ==> !Contains(k, a)
    ensures LongestBlock(table, a).Some? ==> IsLongestMatch(table, a, LongestBlock(table, a).value)
  {
    MatchFromIsLongest(table, a, 32);
  }

  /** Conversely, any longest matching block is the one `LongestBlock` finds
      (two longest matching blocks are the same block). */
  lemma LongestBlockOf<C>(table: map<Cidr, C>, a: Addr, k: Cidr)
    requires IsLongestMatch(table, a, k)
    ensures LongestBlock(table, a) == Some(k)
    ensures LongestMatch(table, a) == Some(table[k])
  {
    LongestBlockSpec(table, a);
  }

  /** A table holding the host block of `a` classifies `a` by that entry:
      no block is longer than /32. */
  lemma HostBlockLongest<C>(table: map<Cidr, C>, a: Addr)
    requires HostBlock(a) in table
    ensures LongestMatch(table, a) == Some(table[HostBlock(a)])
  {
    InHostBlock(a, a);
    LongestBlockOf(table, a, HostBlock(a));
  }

  /** A table in which exactly one block `k` holds `a` classifies `a` by `k`'s
      entry. */
  lemma OnlyMatch<C>(table: map<Cidr, C>, a: Addr, k: Cidr)
    requires k in table && Contains(k, a)
    requires forall k' :: k' in table && Contains(k', a) ==> k' == k
    ensures LongestMatch(table, a) == Some(table[k])
  {
    LongestBlockOf(table, a, k);
  }

  /** A subnet classifier: the category of the most specific block of `table`
      holding `a`, or `default` when none does. */
  function SubnetClass<C(==)>(table: map<Cidr, C>, default: C, a: Addr): (r: C)
    ensures r != default ==> exists k :: k in table && Contains(k, a) && table[k] == r
  {
    match LongestMatch(table, a)
    case Some(c) => c
    case None => default
  }
}
