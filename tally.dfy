/**
 * The per-tier grain counts the game keeps beside its grains (a map from
 * tier to count, absent keys meaning 0), with their total and their
 * selling worth.
 */
module Tally {
  import opened Particles

  type Counts = map<SandParticle, nat>

  /** `*particles.get(&p).unwrap_or(&0)`. */
  function Count(c: Counts, p: SandParticle): nat {
    if p in c then c[p] else 0
  }

  /** Sum of the counts of the tiers with ordinal below `k`. */
  function CountBelow(c: Counts, k: nat): nat
    requires k <= |AllTiers|
  {
    if k == 0 then 0 else CountBelow(c, k - 1) + Count(c, AllTiers[k - 1])
  }

  /** Number of tiers, as a bound for the sums below. */
  function TierCount(): (n: nat)
    ensures n == |AllTiers|
  {
    |AllTiers|
  }

  /** Number of grains the counts account for. */
  function Total(c: Counts): nat {
    CountBelow(c, TierCount())
  }

  /** Sum of count × value over the tiers with ordinal below `k`. */
  function WorthBelow(c: Counts, k: nat): nat
    requires k <= |AllTiers|
  {
    if k == 0 then 0 else WorthBelow(c, k - 1) + TierWorth(c, AllTiers[k - 1])
  }

  /** What the grains of tier `p` sell for. */
  function TierWorth(c: Counts, p: SandParticle): nat {
    Count(c, p) * Value(p)
  }

  /** What selling every counted grain earns. */
  function Worth(c: Counts): nat {
    WorthBelow(c, TierCount())
  }

  /** One more grain of tier `p` (`entry(p).and_modify(+1).or_insert(1)`). */
  function Bump(c: Counts, p: SandParticle): (d: Counts)
    ensures Count(d, p) == Count(c, p) + 1
    ensures forall q :: q != p ==> Count(d, q) == Count(c, q)
  {
    c[p := Count(c, p) + 1]
  }

  /** The counts after recording the first `n` tiers of `ps`, in order. */
  function TallyFirst(c: Counts, ps: seq<SandParticle>, n: nat): Counts
    requires n <= |ps|
  {
    if n == 0 then c else Bump(TallyFirst(c, ps, n - 1), ps[n - 1])
  }

  /** The counts after recording the tiers `ps`, first to last. */
  function TallyAll(c: Counts, ps: seq<SandParticle>): Counts {
    TallyFirst(c, ps, |ps|)
  }

  /** Total value of the first `n` tiers of `ps`. */
  function ValueFirst(ps: seq<SandParticle>, n: nat): nat
    requires n <= |ps|
  {
    if n == 0 then 0 else ValueFirst(ps, n - 1) + Value(ps[n - 1])
  }

  /** Total value of the tiers `ps`. */
  function ValueSum(ps: seq<SandParticle>): nat {
    ValueFirst(ps, |ps|)
  }

  lemma OrdinalOfListed(k: nat)
    requires k < |AllTiers|
    ensures Ordinal(AllTiers[k]) == k
  {
  }

  lemma ListedAtOrdinal(p: SandParticle)
    ensures Ordinal(p) < |AllTiers| && AllTiers[Ordinal(p)] == p
  {
  }

  lemma {:induction false} BumpCountBelow(c: Counts, p: SandParticle, k: nat)
    requires k <= |AllTiers|
    ensures CountBelow(Bump(c, p), k) == CountBelow(c, k) + (if Ordinal(p) < k then 1 else 0)
  {
    if k > 0 {
      BumpCountBelow(c, p, k - 1);
      OrdinalOfListed(k - 1);
      ListedAtOrdinal(p);
    }
  }

  lemma {:induction false} BumpWorthBelow(c: Counts, p: SandParticle, k: nat)
    requires k <= |AllTiers|
    ensures WorthBelow(Bump(c, p), k) == WorthBelow(c, k) + (if Ordinal(p) < k then Value(p) else 0)
  {
    if k > 0 {
      BumpWorthBelow(c, p, k - 1);
      OrdinalOfListed(k - 1);
      ListedAtOrdinal(p);
      BumpWorthTerm(c, p, AllTiers[k - 1]);
    }
  }

  /** What a bump of `p` adds to the worth of tier `q`'s grains. */
  lemma BumpWorthTerm(c: Counts, p: SandParticle, q: SandParticle)
    ensures TierWorth(Bump(c, p), q) == TierWorth(c, q) + (if q == p then Value(p) else 0)
  {
    if q == p {
      var n := Count(c, p);
      assert (n + 1) * Value(p) == n * Value(p) + Value(p);
    }
  }

  /** One more grain adds one to the total and its value to the worth. */
  lemma BumpTotals(c: Counts, p: SandParticle)
    ensures Total(Bump(c, p)) == Total(c) + 1
    ensures Worth(Bump(c, p)) == Worth(c) + Value(p)
  {
    BumpCountBelow(c, p, TierCount());
    BumpWorthBelow(c, p, TierCount());
  }

  lemma {:induction false} TallyFirstTotal(c: Counts, ps: seq<SandParticle>, n: nat)
    requires n <= |ps|
    ensures Total(TallyFirst(c, ps, n)) == Total(c) + n
  {
    if n > 0 {
      TallyFirstTotal(c, ps, n - 1);
      BumpCountBelow(TallyFirst(c, ps, n - 1), ps[n - 1], TierCount());
    }
  }

  lemma {:induction false} TallyFirstWorth(c: Counts, ps: seq<SandParticle>, n: nat)
    requires n <= |ps|
    ensures Worth(TallyFirst(c, ps, n)) == Worth(c) + ValueFirst(ps, n)
  {
    if n > 0 {
      TallyFirstWorth(c, ps, n - 1);
      BumpWorthBelow(TallyFirst(c, ps, n - 1), ps[n - 1], TierCount());
    }
  }

  /** Recording a batch of tiers adds its length to the total. */
  lemma TallyTotal(c: Counts, ps: seq<SandParticle>)
    ensures Total(TallyAll(c, ps)) == Total(c) + |ps|
  {
    TallyFirstTotal(c, ps, |ps|);
  }

  /**
   * Recording a batch of tiers adds its value to the worth: selling
   * afterwards credits exactly what was recorded.
   */
  lemma TallyWorth(c: Counts, ps: seq<SandParticle>)
    ensures Worth(TallyAll(c, ps)) == Worth(c) + ValueSum(ps)
  {
    TallyFirstWorth(c, ps, |ps|);
  }

  /** Extending the sequence does not change the tally of a prefix. */
  lemma {:induction false} TallyFirstExtend(c: Counts, ps: seq<SandParticle>, p: SandParticle, n: nat)
    requires n <= |ps|
    ensures TallyFirst(c, ps + [p], n) == TallyFirst(c, ps, n)
  {
    if n > 0 {
      TallyFirstExtend(c, ps, p, n - 1);
      assert (ps + [p])[n - 1] == ps[n - 1];
    }
  }

  /** Recording one more tier extends the tally by one bump. */
  lemma TallySnoc(c: Counts, ps: seq<SandParticle>, p: SandParticle)
    ensures TallyAll(c, ps + [p]) == Bump(TallyAll(c, ps), p)
  {
    TallyFirstExtend(c, ps, p, |ps|);
  }

  lemma {:induction false} ZeroBelow(c: Counts, k: nat)
    requires k <= |AllTiers|
    requires forall p :: Count(c, p) == 0
    ensures CountBelow(c, k) == 0 && WorthBelow(c, k) == 0
  {
    if k > 0 {
      ZeroBelow(c, k - 1);
    }
  }

  /** Counts that are all zero account for no grain and are worth nothing. */
  lemma EmptiedIsWorthless(c: Counts)
    requires forall p :: Count(c, p) == 0
    ensures Total(c) == 0 && Worth(c) == 0
  {
    ZeroBelow(c, TierCount());
  }

  lemma {:induction false} CountBelowMonotone(c: Counts, a: nat, b: nat)
    requires a <= b <= |AllTiers|
    ensures CountBelow(c, a) <= CountBelow(c, b)
  {
    if a < b {
      CountBelowMonotone(c, a, b - 1);
    }
  }

  /** The count of a tier at ordinal a or beyond comes on top of the tiers below a. */
  lemma {:induction false} CountBelowGrows(c: Counts, a: nat, p: SandParticle, b: nat)
    requires a <= Ordinal(p) < b <= |AllTiers|
    ensures CountBelow(c, a) + Count(c, p) <= CountBelow(c, b)
  {
    if Ordinal(p) == b - 1 {
      ListedAtOrdinal(p);
      CountBelowMonotone(c, a, b - 1);
    } else {
      CountBelowGrows(c, a, p, b - 1);
    }
  }

  /**
   * When the tiers below `level` account for every grain, so do the tiers
   * below `level + 1`.
   */
  lemma ExtendUnlocked(c: Counts, level: nat)
    requires level < |AllTiers| && CountBelow(c, level) == Total(c)
    ensures CountBelow(c, level + 1) == Total(c)
  {
    var q := AllTiers[level];
    OrdinalOfListed(level);
    CountBelowGrows(c, level, q, TierCount());
  }

  /** When the tiers below `level` account for every grain, no other tier has any. */
  lemma OnlyBelowHeld(c: Counts, level: nat, p: SandParticle)
    requires level <= |AllTiers| && CountBelow(c, level) == Total(c) && Count(c, p) > 0
    ensures Ordinal(p) < level
  {
    if Ordinal(p) >= level {
      CountBelowGrows(c, level, p, TierCount());
    }
  }
}
