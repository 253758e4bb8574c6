/** crawler/extract.py simhash(): 64 counters over token shingles, for any digest function. */
module SimHash {
  import opened Base
  import opened Bits

  type Digest = string -> int

  function Join(tokens: seq<string>): string {
    if tokens == [] then "" else tokens[0] + Join(tokens[1..])
  }

  function Shingles(tokens: seq<string>, n: nat): seq<string> {
    if |tokens| < n then (if tokens == [] then [] else [Join(tokens)])
    else seq(|tokens| - n + 1, i requires 0 <= i <= |tokens| - n => Join(tokens[i..i + n]))
  }

  // ---------------------------------------------------------------- what is computed

  function Vote(digest: Digest, shingle: string, b: nat): int {
    if Bit(digest(shingle), b) then 1 else -1
  }

  /** One vote for every occurrence of every shingle. */
  function Tally(digest: Digest, shingles: seq<string>, b: nat): int
    decreases |shingles|
  {
    if shingles == [] then 0
    else Tally(digest, shingles[..|shingles| - 1], b) + Vote(digest, shingles[|shingles| - 1], b)
  }

  function Vector(digest: Digest, shingles: seq<string>): (v: seq<int>)
    ensures |v| == 64
  {
    seq(64, b requires 0 <= b => Tally(digest, shingles, b))
  }

  /** The number whose k-th bit, k counted from `from`, says whether entry k is positive. */
  function Signs(v: seq<int>, from: nat): (r: nat)
    requires from <= |v|
    decreases |v| - from
  {
    if from == |v| then 0 else (if v[from] > 0 then 1 else 0) + 2 * Signs(v, from + 1)
  }

  function SimHashOf(digest: Digest, tokens: seq<string>, n: nat): nat {
    Signs(Vector(digest, Shingles(tokens, n)), 0)
  }

  lemma {:induction false} SignsBit(v: seq<int>, from: nat, i: nat)
    requires from + i < |v|
    ensures Bit(Signs(v, from), i) <==> v[from + i] > 0
    decreases i
  {
    if i > 0 {
      assert Signs(v, from) / 2 == Signs(v, from + 1);
      SignsBit(v, from + 1, i - 1);
    }
  }

  lemma {:induction false} SignsRange(v: seq<int>, from: nat)
    requires from <= |v|
    ensures Signs(v, from) < Pow2(|v| - from)
    decreases |v| - from
  {
    if from < |v| {
      SignsRange(v, from + 1);
    }
  }

  /** Bit b of the hash is set exactly when the votes of all shingle occurrences for it are in the majority. */
  lemma SimHashBit(digest: Digest, tokens: seq<string>, n: nat, b: nat)
    requires b < 64
    ensures Bit(SimHashOf(digest, tokens, n), b) <==> Tally(digest, Shingles(tokens, n), b) > 0
    ensures SimHashOf(digest, tokens, n) < TWO64
  {
    SignsBit(Vector(digest, Shingles(tokens, n)), 0, b);
    SignsRange(Vector(digest, Shingles(tokens, n)), 0);
    Pow2Of64();
  }

  // ---------------------------------------------------------------- the counter loop

  /** The weighted sum over distinct shingles. */
  function Weighted(digest: Digest, keys: seq<string>, counts: multiset<string>, b: nat): int
    decreases |keys|
  {
    if keys == [] then 0
    else Weighted(digest, keys[..|keys| - 1], counts, b)
         + counts[keys[|keys| - 1]] * Vote(digest, keys[|keys| - 1], b)
  }

  ghost predicate Distinct(keys: seq<string>) {
    forall i, j | 0 <= i < j < |keys| :: keys[i] != keys[j]
  }

  lemma {:induction false} OneMoreVote(digest: Digest, keys: seq<string>, counts: multiset<string>, x: string, b: nat)
    requires Distinct(keys)
    ensures Weighted(digest, keys, counts + multiset{x}, b) ==
            Weighted(digest, keys, counts, b) + if x in keys then Vote(digest, x, b) else 0
    decreases |keys|
  {
    if keys != [] {
      var front, last := keys[..|keys| - 1], keys[|keys| - 1];
      OneMoreVote(digest, front, counts, x, b);
      assert keys == front + [last];
      assert last !in front;
    }
  }

  lemma {:induction false} NoVotes(digest: Digest, keys: seq<string>, b: nat)
    ensures Weighted(digest, keys, multiset{}, b) == 0
    decreases |keys|
  {
    if keys != [] {
      NoVotes(digest, keys[..|keys| - 1], b);
    }
  }

  /** Weighting the distinct shingles by their counts is voting once for every occurrence. */
  lemma {:induction false} WeightedIsTally(digest: Digest, keys: seq<string>, shingles: seq<string>, b: nat)
    requires Distinct(keys) && forall s | s in shingles :: s in keys
    ensures Weighted(digest, keys, multiset(shingles), b) == Tally(digest, shingles, b)
    decreases |shingles|
  {
    if shingles == [] {
      NoVotes(digest, keys, b);
    } else {
      var front, last := shingles[..|shingles| - 1], shingles[|shingles| - 1];
      assert shingles == front + [last];
      WeightedIsTally(digest, keys, front, b);
      OneMoreVote(digest, keys, multiset(front), last, b);
    }
  }

  /** collections.Counter: the distinct elements in order of first occurrence, and their counts. */
  method Counter(shingles: seq<string>) returns (keys: seq<string>, counts: map<string, nat>)
    ensures Distinct(keys) && (forall s :: s in keys <==> s in shingles)
    ensures forall s :: s in counts <==> s in keys
    ensures forall s | s in keys :: counts[s] == multiset(shingles)[s]
  {
    keys, counts := [], map[];
    for i := 0 to |shingles|
      invariant Distinct(keys) && (forall s :: s in keys <==> s in shingles[..i])
      invariant forall s :: s in counts <==> s in keys
      invariant forall s | s in keys :: counts[s] == multiset(shingles[..i])[s]
    {
      var s := shingles[i];
      assert shingles[..i + 1] == shingles[..i] + [s];
      if s in counts {
        counts := counts[s := counts[s] + 1];
      } else {
        keys := keys + [s];
        counts := counts[s := 1];
      }
    }
    assert shingles[..|shingles|] == shingles;
  }

  lemma PartialSum(digest: Digest, keys: seq<string>, k: nat, counts: multiset<string>, b: nat)
    requires k < |keys|
    ensures Weighted(digest, keys[..k + 1], counts, b) ==
            Weighted(digest, keys[..k], counts, b) + counts[keys[k]] * Vote(digest, keys[k], b)
  {
    assert keys[..k + 1][..k] == keys[..k];
  }

  /** One pass of the inner loop: 64 counters moved by one shingle's weight. */
  method AddVotes(vector: array<int>, digest: Digest, shingle: string, weight: int)
    requires vector.Length == 64
    modifies vector
    ensures forall b | 0 <= b < 64 :: vector[b] == old(vector[b]) + weight * Vote(digest, shingle, b)
  {
    var h := digest(shingle);
    for b := 0 to 64
      invariant forall c | 0 <= c < b :: vector[c] == old(vector[c]) + weight * Vote(digest, shingle, c)
      invariant forall c | b <= c < 64 :: vector[c] == old(vector[c])
    {
      vector[b] := vector[b] + if Bit(h, b) then weight else -weight;
    }
  }

  /** The counter loop. */
  method CountVotes(digest: Digest, shingles: seq<string>) returns (v: seq<int>)
    ensures v == Vector(digest, shingles)
  {
    var keys, counts := Counter(shingles);
    var vector := new int[64](_ => 0);
    for k := 0 to |keys|
      invariant forall b | 0 <= b < 64 :: vector[b] == Weighted(digest, keys[..k], multiset(shingles), b)
    {
      AddVotes(vector, digest, keys[k], counts[keys[k]]);
      forall b | 0 <= b < 64
        ensures vector[b] == Weighted(digest, keys[..k + 1], multiset(shingles), b)
      {
        PartialSum(digest, keys, k, multiset(shingles), b);
      }
    }
    assert keys[..|keys|] == keys;
    forall b | 0 <= b < 64 ensures vector[b] == Tally(digest, shingles, b) {
      WeightedIsTally(digest, keys, shingles, b);
    }
    v := vector[..];
  }

  lemma ShiftOut(v: seq<int>, bit: nat)
    requires bit < |v|
    ensures Pow2(bit) * Signs(v, bit) == (if v[bit] > 0 then Pow2(bit) else 0) + Pow2(bit + 1) * Signs(v, bit + 1)
  {
  }

  /** The loop that sets the bits of `out`. */
  method Pack(v: seq<int>) returns (out: nat)
    ensures out == Signs(v, 0)
  {
    out := 0;
    for bit := 0 to |v|
      invariant out + Pow2(bit) * Signs(v, bit) == Signs(v, 0)
    {
      ShiftOut(v, bit);
      if v[bit] > 0 {
        out := out + Pow2(bit);  // out |= 1 << bit, and out < 1 << bit before it
      }
    }
  }

  /** simhash(). A bit is set exactly when more than half of the runs of n tokens have it in their digests; a text of at
      most n tokens hashes to its digest, and no text to 0. */
  method Compute(digest: Digest, tokens: seq<string>, n: nat) returns (out: nat)
    ensures out == SimHashOf(digest, tokens, n) && out < TWO64
    ensures forall b | 0 <= b < 64 && n <= |tokens| ::
              Bit(out, b) <==> 2 * |RunsWith(digest, tokens, n, b)| > |tokens| - n + 1
    ensures 0 < |tokens| <= n && 0 <= digest(Join(tokens)) < TWO64 ==> out == digest(Join(tokens))
    ensures tokens == [] && n > 0 ==> out == 0
  {
    var v := CountVotes(digest, Shingles(tokens, n));
    out := Pack(v);
    SimHashBit(digest, tokens, n, 0);
    forall b | 0 <= b < 64 && n <= |tokens|
      ensures Bit(out, b) <==> 2 * |RunsWith(digest, tokens, n, b)| > |tokens| - n + 1
    {
      BitIsMajority(digest, tokens, n, b);
    }
    if |tokens| <= n {
      ShortText(digest, tokens, n);
    }
  }

  // ---------------------------------------------------------------- in terms of the text alone

  /** The digest of the run of n tokens from i on has bit b. */
  predicate RunHas(digest: Digest, tokens: seq<string>, n: nat, b: nat, i: nat)
    requires i + n <= |tokens|
  {
    Bit(digest(Join(tokens[i..i + n])), b)
  }

  /** Where the runs of n tokens start whose digest has bit b. */
  function RunsWith(digest: Digest, tokens: seq<string>, n: nat, b: nat): set<int> {
    set i | 0 <= i <= |tokens| - n && RunHas(digest, tokens, n, b, i)
  }

  function Voters(digest: Digest, shingles: seq<string>, b: nat): set<int> {
    set i | 0 <= i < |shingles| && Bit(digest(shingles[i]), b)
  }

  lemma {:induction false} TallyCountsVoters(digest: Digest, shingles: seq<string>, b: nat)
    ensures Tally(digest, shingles, b) == 2 * |Voters(digest, shingles, b)| - |shingles|
    decreases |shingles|
  {
    if shingles == [] {
      assert Voters(digest, shingles, b) == {};
    } else {
      var k := |shingles| - 1;
      TallyCountsVoters(digest, shingles[..k], b);
      assert Voters(digest, shingles, b)
             == Voters(digest, shingles[..k], b) + if Bit(digest(shingles[k]), b) then {k} else {};
    }
  }

  /** A bit of the hash is the vote of the majority of the runs of n tokens. */
  lemma BitIsMajority(digest: Digest, tokens: seq<string>, n: nat, b: nat)
    requires n <= |tokens| && b < 64
    ensures Bit(SimHashOf(digest, tokens, n), b) <==> 2 * |RunsWith(digest, tokens, n, b)| > |tokens| - n + 1
  {
    SimHashBit(digest, tokens, n, b);
    TallyCountsVoters(digest, Shingles(tokens, n), b);
    assert Voters(digest, Shingles(tokens, n), b) == RunsWith(digest, tokens, n, b);
  }

  /** The hash of at most n tokens. */
  lemma ShortText(digest: Digest, tokens: seq<string>, n: nat)
    requires |tokens| <= n
    ensures tokens != [] && 0 <= digest(Join(tokens)) < TWO64 ==> SimHashOf(digest, tokens, n) == digest(Join(tokens))
    ensures tokens == [] && n > 0 ==> SimHashOf(digest, tokens, n) == 0
  {
    var out := SimHashOf(digest, tokens, n);
    SimHashBit(digest, tokens, n, 0);
    Pow2Of64();
    if tokens != [] {
      assert tokens[0..|tokens|] == tokens;
      assert Shingles(tokens, n) == [Join(tokens)];
      OneShingle(digest, tokens, n, Join(tokens));
    } else if n > 0 {
      forall b: nat | b < 64 ensures Bit(out, b) == Bit(0, b) {
        SimHashBit(digest, tokens, n, b);
        ShrOfZero(b);
      }
      BitsDetermine(out, 0, 64);
    }
  }

  lemma OneShingle(digest: Digest, tokens: seq<string>, n: nat, shingle: string)
    requires Shingles(tokens, n) == [shingle]
    ensures 0 <= digest(shingle) < TWO64 ==> SimHashOf(digest, tokens, n) == digest(shingle)
  {
    var out := SimHashOf(digest, tokens, n);
    Pow2Of64();
    forall b: nat | b < 64 ensures Bit(out, b) == Bit(digest(shingle), b) {
      SimHashBit(digest, tokens, n, b);
      assert [shingle][..0] == [];
      assert Tally(digest, [shingle], b) == Vote(digest, shingle, b);
    }
    SimHashBit(digest, tokens, n, 0);
    if 0 <= digest(shingle) < TWO64 {
      BitsDetermine(out, digest(shingle), 64);
    }
  }

  /** Joining puts the tokens one after the other, with nothing between them. */
  lemma {:induction false} JoinConcatenates(a: seq<string>, b: seq<string>, token: string)
    ensures Join(a + b) == Join(a) + Join(b) && Join([token]) == token && Join([]) == ""
  {
    assert [token][1..] == [];
    if a == [] {
      assert a + b == b;
    } else {
      JoinConcatenates(a[1..], b, token);
      assert (a + b)[1..] == a[1..] + b;
    }
  }

  // ---------------------------------------------------------------- order and edits

  function Dedup(s: seq<string>): (keys: seq<string>)
    ensures Distinct(keys) && forall x :: x in keys <==> x in s
  {
    if s == [] then [] else var rest := Dedup(s[1..]); if s[0] in rest then rest else [s[0]] + rest
  }

  /** The hash depends only on the multiset of shingles. */
  lemma OrderIrrelevant(digest: Digest, s: seq<string>, t: seq<string>)
    requires multiset(s) == multiset(t)
    ensures Vector(digest, s) == Vector(digest, t)
  {
    var keys := Dedup(s);
    forall x | x in t ensures x in keys {
      assert x in multiset(t);
    }
    forall b: nat | b < 64 ensures Tally(digest, s, b) == Tally(digest, t, b) {
      WeightedIsTally(digest, keys, s, b);
      WeightedIsTally(digest, keys, t, b);
    }
  }

  function Abs(x: int): nat { if x < 0 then -x else x }

  /** Shingle lists that differ only between lo and hi have tallies at most 2 (hi - lo) apart. */
  lemma {:induction false} TallyMoves(digest: Digest, s: seq<string>, t: seq<string>, lo: nat, hi: nat, b: nat)
    requires |s| == |t| && lo <= hi
    requires forall i | 0 <= i < |s| && !(lo <= i < hi) :: s[i] == t[i]
    ensures Abs(Tally(digest, s, b) - Tally(digest, t, b)) <= 2 * Clip(lo, hi, |s|)
    decreases |s|
  {
    if s != [] {
      TallyMoves(digest, s[..|s| - 1], t[..|t| - 1], lo, hi, b);
    }
  }

  /** How many of the indices lo .. hi - 1 are below n. */
  function Clip(lo: nat, hi: nat, n: nat): nat
    requires lo <= hi
  {
    Min(hi, n) - Min(lo, n)
  }

  ghost predicate OneTokenApart(t: seq<string>, u: seq<string>, p: nat) {
    |t| == |u| && p < |t| && forall i | 0 <= i < |t| && i != p :: t[i] == u[i]
  }

  /** Replacing one token moves every counter by at most twice the shingle length. */
  lemma VectorMoves(digest: Digest, t: seq<string>, u: seq<string>, p: nat, n: nat, b: nat)
    requires OneTokenApart(t, u, p)
    ensures Abs(Tally(digest, Shingles(t, n), b) - Tally(digest, Shingles(u, n), b)) <= 2 * n
  {
    var s, r := Shingles(t, n), Shingles(u, n);
    if |t| < n {
      TallyMoves(digest, s, r, 0, 1, b);
    } else {
      var lo := if p < n then 0 else p - n + 1;
      var hi := if n == 0 then lo else p + 1;
      forall i | 0 <= i < |s| && !(lo <= i < hi) ensures s[i] == r[i] {
        assert t[i..i + n] == u[i..i + n];
      }
      TallyMoves(digest, s, r, lo, hi, b);
    }
  }

  /** The bits whose counter is close enough to zero to flip when one token changes. */
  function Fragile(digest: Digest, tokens: seq<string>, n: nat): set<int> {
    set b | 0 <= b < 64 && Abs(Tally(digest, Shingles(tokens, n), b)) <= 2 * n
  }

  /** Edit stability: one replaced token flips only fragile bits. */
  lemma EditStability(digest: Digest, t: seq<string>, u: seq<string>, p: nat, n: nat)
    requires OneTokenApart(t, u, p)
    ensures DifferingBits(SimHashOf(digest, t, n), SimHashOf(digest, u, n)) <= Fragile(digest, t, n)
    ensures Hamming(SimHashOf(digest, t, n), SimHashOf(digest, u, n)) <= |Fragile(digest, t, n)|
  {
    forall b | b in DifferingBits(SimHashOf(digest, t, n), SimHashOf(digest, u, n))
      ensures b in Fragile(digest, t, n)
    {
      SimHashBit(digest, t, n, b);
      SimHashBit(digest, u, n, b);
      VectorMoves(digest, t, u, p, n, b);
    }
    SubsetSize(DifferingBits(SimHashOf(digest, t, n), SimHashOf(digest, u, n)), Fragile(digest, t, n));
  }
}
