/** The signed storage of a simhash (crawler/frontier.py complete) and the lookup over it (crawler/db.py). */
module NearDuplicate {
  import opened Base
  import opened Bits
  import opened Tables

  const CANDIDATE_LIMIT: nat := 500

  function ToSigned(x: int): int {
    if x >= TWO63 then x - TWO64 else x
  }

  function ToUnsigned(y: int): int {
    if y < 0 then y + TWO64 else y
  }

  /** The conversion is a bijection from unsigned 64-bit numbers to int64. */
  lemma SignedBijection(x: int, y: int)
    ensures 0 <= x < TWO64 ==> -TWO63 <= ToSigned(x) < TWO63 && ToUnsigned(ToSigned(x)) == x
    ensures -TWO63 <= y < TWO63 ==> 0 <= ToUnsigned(y) < TWO64 && ToSigned(ToUnsigned(y)) == y
  {
  }

  lemma BitMinus(x: int, i: nat)
    requires i < 64
    ensures Bit(x - Pow2(64), i) == Bit(x, i)
  {
    ShrMinusPow2(x, i, 64);
    var half := Pow2(63 - i);
    assert Pow2(64 - i) == half + half;
    EvenShift(Shr(x, i), half);
  }

  lemma EvenShift(a: int, half: int)
    ensures (a - (half + half)) % 2 == a % 2
  {
  }

  lemma SignedBit(x: int, i: nat)
    requires i < 64
    ensures Bit(ToSigned(x), i) == Bit(x, i)
  {
    Pow2Of64();
    BitMinus(x, i);
  }

  /** Distances between stored values are distances between hashes. */
  lemma SignedHamming(a: int, b: int)
    ensures Hamming(ToSigned(a), ToSigned(b)) == Hamming(a, b)
  {
    forall i: nat | i < 64 ensures Bit(ToSigned(a), i) == Bit(a, i) && Bit(ToSigned(b), i) == Bit(b, i) {
      SignedBit(a, i);
      SignedBit(b, i);
    }
    assert DifferingBits(ToSigned(a), ToSigned(b)) == DifferingBits(a, b);
  }

  lemma TopOfLow(x: int)
    requires 0 <= x < Pow2(63)
    ensures 0 <= Shr(x, 56) < Pow2(7)
  {
    ShrRange(x, 56, 63);
  }

  lemma TopOfHigh(x: int)
    requires Pow2(63) <= x < Pow2(64)
    ensures Pow2(7) <= Shr(x, 56) < Pow2(8) && Shr(x - Pow2(64), 56) == Shr(x, 56) - Pow2(8)
  {
    assert Pow2(64) == 2 * Pow2(63) && Pow2(8) == 2 * Pow2(7);
    ShrMinusPow2(x, 56, 64);
    ShrMinusPow2(x, 56, 63);
    ShrRange(x - Pow2(63), 56, 63);
  }

  lemma SignedTop(x: int)
    requires 0 <= x < TWO64
    ensures 0 <= Shr(x, 56) < 256
    ensures Shr(ToSigned(x), 56) == if x >= TWO63 then Shr(x, 56) - 256 else Shr(x, 56)
    ensures Shr(x, 56) >= 128 <==> x >= TWO63
  {
    Pow2Of64();
    if x >= TWO63 {
      TopOfHigh(x);
    } else {
      TopOfLow(x);
    }
  }

  /** The arithmetic-shift test on stored values is agreement of the hashes on their top eight bits. */
  lemma BucketIsTopByte(a: int, b: int)
    requires 0 <= a < TWO64 && 0 <= b < TWO64
    ensures Shr(ToSigned(a), 56) == Shr(ToSigned(b), 56) <==> forall i: nat | 56 <= i < 64 :: Bit(a, i) == Bit(b, i)
  {
    SignedTop(a);
    SignedTop(b);
    if forall i: nat | 56 <= i < 64 :: Bit(a, i) == Bit(b, i) {
      forall i: nat | i < 8 ensures Bit(Shr(a, 56), i) == Bit(Shr(b, 56), i) {
        BitShr(a, i, 56);
        BitShr(b, i, 56);
      }
      Pow2Of64();
      BitsDetermine(Shr(a, 56), Shr(b, 56), 8);
    }
    if Shr(ToSigned(a), 56) == Shr(ToSigned(b), 56) {
      forall i: nat | 56 <= i < 64 ensures Bit(a, i) == Bit(b, i) {
        BitShr(a, i - 56, 56);
        BitShr(b, i - 56, 56);
      }
    }
  }

  // ---------------------------------------------------------------- the lookup

  /** The rows the query ranges over; comparing with NULL selects nothing. */
  predicate InBucket(urls: map<nat, UrlRow>, simhash: Option<int>, self: nat, id: nat) {
    && id in urls && id != self && urls[id].simhash.Some? && simhash.Some?
    && Shr(urls[id].simhash.value, 56) == Shr(simhash.value, 56)
  }

  predicate IsNear(urls: map<nat, UrlRow>, simhash: Option<int>, self: nat, id: nat, maxDistance: int) {
    InBucket(urls, simhash, self, id) && Hamming(urls[id].simhash.value, simhash.value) <= maxDistance
  }

  function Bucket(urls: map<nat, UrlRow>, simhash: Option<int>, self: nat): set<nat> {
    set id | id in urls && InBucket(urls, simhash, self, id)
  }

  /** The query with its LIMIT; `scan` is the order in which the rows of urls are read. */
  method FetchCandidates(urls: map<nat, UrlRow>, scan: seq<nat>, simhash: Option<int>, self: nat)
    returns (order: seq<nat>)
    requires forall id :: id in scan <==> id in urls
    requires forall i, j | 0 <= i < j < |scan| :: scan[i] != scan[j]
    ensures |order| <= CANDIDATE_LIMIT && forall id | id in order :: InBucket(urls, simhash, self, id)
    ensures |Bucket(urls, simhash, self)| <= CANDIDATE_LIMIT ==>
              forall id | id in Bucket(urls, simhash, self) :: id in order
  {
    ghost var fetched: set<nat> := {};
    order := [];
    var i := 0;
    while i < |scan| && |order| < CANDIDATE_LIMIT
      invariant i <= |scan| && |order| <= CANDIDATE_LIMIT
      invariant fetched == (set id | id in scan[..i] && InBucket(urls, simhash, self, id))
      invariant |fetched| == |order| && forall id :: id in order <==> id in fetched
      decreases |scan| - i
    {
      assert scan[..i + 1] == scan[..i] + [scan[i]];
      if InBucket(urls, simhash, self, scan[i]) {
        assert scan[i] !in fetched;
        fetched, order := fetched + {scan[i]}, order + [scan[i]];
      }
      i := i + 1;
    }
    if |Bucket(urls, simhash, self)| <= CANDIDATE_LIMIT {
      WholeBucket(urls, scan, simhash, self, fetched, i);
    }
  }

  method FindNearDuplicate(urls: map<nat, UrlRow>, scan: seq<nat>, simhash: Option<int>, self: nat, maxDistance: int)
    returns (found: Option<nat>)
    requires forall id :: id in scan <==> id in urls
    requires forall i, j | 0 <= i < j < |scan| :: scan[i] != scan[j]
    ensures found.Some? ==> IsNear(urls, simhash, self, found.value, maxDistance)
    ensures |Bucket(urls, simhash, self)| <= CANDIDATE_LIMIT ==>
              (found.None? <==> forall id | id in urls :: !IsNear(urls, simhash, self, id, maxDistance))
  {
    var order := FetchCandidates(urls, scan, simhash, self);
    for k := 0 to |order|
      invariant forall j | 0 <= j < k :: !IsNear(urls, simhash, self, order[j], maxDistance)
    {
      assert InBucket(urls, simhash, self, order[k]);
      if Hamming(urls[order[k]].simhash.value, simhash.value) <= maxDistance {
        return Some(order[k]);
      }
    }
    if |Bucket(urls, simhash, self)| <= CANDIDATE_LIMIT {
      forall id | id in urls ensures !IsNear(urls, simhash, self, id, maxDistance) {
        assert id in Bucket(urls, simhash, self) ==> id in order;
      }
    }
    return None;
  }

  /** A bucket that is not larger than the limit is fetched whole. */
  lemma WholeBucket(urls: map<nat, UrlRow>, scan: seq<nat>, simhash: Option<int>, self: nat,
                    candidates: set<nat>, i: nat)
    requires forall id :: id in scan <==> id in urls
    requires i <= |scan| && candidates == (set id | id in scan[..i] && InBucket(urls, simhash, self, id))
    requires i == |scan| || |candidates| >= CANDIDATE_LIMIT
    requires |Bucket(urls, simhash, self)| <= CANDIDATE_LIMIT
    ensures candidates == Bucket(urls, simhash, self)
  {
    assert candidates <= Bucket(urls, simhash, self);
    SubsetSize(candidates, Bucket(urls, simhash, self));
    if i == |scan| {
      assert scan[..i] == scan;
    }
  }

  /** The lookup over stored values is a scan for hashes that agree on the top byte and are close. */
  lemma LookupMeansTopByteAndDistance(urls: map<nat, UrlRow>, hash: int, self: nat, id: nat, other: int, d: int)
    requires 0 <= hash < TWO64 && 0 <= other < TWO64
    requires id in urls && urls[id].simhash == Some(ToSigned(other))
    ensures IsNear(urls, Some(ToSigned(hash)), self, id, d) <==>
            && id != self && (forall i: nat | 56 <= i < 64 :: Bit(other, i) == Bit(hash, i))
            && Hamming(other, hash) <= d
  {
    BucketIsTopByte(other, hash);
    SignedHamming(other, hash);
  }

  /** Two hashes one bit apart are not found when the bit is in the top byte. */
  lemma TopByteFlipIsMissed(urls: map<nat, UrlRow>, self: nat, id: nat)
    requires id in urls && urls[id].simhash == Some(ToSigned(TWO63))
    ensures Hamming(TWO63, 0) == 1 && !IsNear(urls, Some(ToSigned(0)), self, id, 3)
  {
    forall i: nat | i < 64 ensures Bit(TWO63, i) <==> i == 63 {
      TopBitOnly(i);
    }
    forall i: nat | i < 64 ensures !Bit(0, i) {
      ShrOfZero(i);
    }
    assert DifferingBits(TWO63, 0) == {63};
    SignedHamming(TWO63, 0);
    BucketIsTopByte(TWO63, 0);
  }

  lemma TopBitOnly(i: nat)
    requires i < 64
    ensures Bit(TWO63, i) <==> i == 63
  {
    Pow2Of64();
    assert Pow2(63) - Pow2(63) == 0;
    ShrOfZero(i);
    if i < 63 {
      ShrMinusPow2(TWO63, i, 63);
      assert Pow2(63 - i) == 2 * Pow2(62 - i);
    } else {
      ShrMinusPow2(TWO63, i, 63);
    }
  }
}
