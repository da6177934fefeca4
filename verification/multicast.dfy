/**
 * The E1.31 (ANSI E1.31, sACN) multicast group of a universe: 239.255.UHB.ULB,
 * where UHB and ULB are the high and low bytes of the universe number
 * (section 9.3.1 of ANSI E1.31).
 */
module Multicast {

  /**
   * `(u >> 8) & 0xFF` and `u & 0xFF` for a Python integer. Python's shift floors
   * and its `&` works on the infinite two's-complement form, so for every
   * integer they equal the floor quotient by 256 and the non-negative
   * remainders modulo 256, which Dafny's Euclidean `/` and `%` compute for a
   * positive divisor.
   */
  function UniverseOctets(u: int): (o: (int, int))
    ensures 0 <= o.0 <= 255 && 0 <= o.1 <= 255
  {
    ((u / 256) % 256, u % 256)
  }

  /** The four octets of the group address. */
  function GroupAddress(u: int): (a: seq<int>)
    ensures |a| == 4 && a[0] == 239 && a[1] == 255
    ensures 0 <= a[2] <= 255 && 0 <= a[3] <= 255
    ensures a[2] * 256 + a[3] == u % 65536
  {
    OctetsRecompose(u);
    var (hi, lo) := UniverseOctets(u);
    [239, 255, hi, lo]
  }

  /** The two octets recompose the universe modulo 65536, for every integer. */
  lemma OctetsRecompose(u: int)
    ensures UniverseOctets(u).0 * 256 + UniverseOctets(u).1 == u % 65536
  {
    var q := u / 256;
    var lo := u % 256;
    var hi := q % 256;
    assert u == q * 256 + lo;
    assert q == (q / 256) * 256 + hi;
    assert u == (q / 256) * 65536 + (hi * 256 + lo);
    assert 0 <= hi * 256 + lo < 65536;
  }

  /** For a 16-bit universe the octets are a round trip back to the universe. */
  lemma OctetsRoundTrip(u: int)
    requires 0 <= u < 65536
    ensures UniverseOctets(u).0 * 256 + UniverseOctets(u).1 == u
  {
    OctetsRecompose(u);
  }

  /** Distinct 16-bit universes join distinct multicast groups. */
  lemma GroupAddressInjective(u: int, v: int)
    requires 0 <= u < 65536 && 0 <= v < 65536
    requires GroupAddress(u) == GroupAddress(v)
    ensures u == v
  {
    OctetsRoundTrip(u);
    OctetsRoundTrip(v);
    assert UniverseOctets(u) == (GroupAddress(u)[2], GroupAddress(u)[3]);
    assert UniverseOctets(v) == (GroupAddress(v)[2], GroupAddress(v)[3]);
  }
}
