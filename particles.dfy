/**
 * The particle-tier catalogue: twelve kinds of sand, each with a selling
 * value, an unlock cost and a display colour. Everything here is a fixed table.
 */
module Particles {
  import opened Wrappers

  /** The tiers, declared in ordinal order (Sand is ordinal 0, Diamond 11). */
  datatype SandParticle =
    | Sand | Quartz | Shell | Coral | Pinksand | Volcanic
    | Glauconite | Gemstones | Iron | Starsand | Gold | Diamond

  /** An RGB display colour (`Color::from_rgb`). */
  datatype Color = FromRgb(r: nat, g: nat, b: nat)

  /** Every tier once, in declaration order (what iterating the enum yields). */
  const AllTiers: seq<SandParticle> :=
    [Sand, Quartz, Shell, Coral, Pinksand, Volcanic,
     Glauconite, Gemstones, Iron, Starsand, Gold, Diamond]

  /** The position of a tier in the declaration order. */
  function Ordinal(p: SandParticle): (o: nat)
    ensures o < |AllTiers|
  {
    match p
    case Sand => 0
    case Quartz => 1
    case Shell => 2
    case Coral => 3
    case Pinksand => 4
    case Volcanic => 5
    case Glauconite => 6
    case Gemstones => 7
    case Iron => 8
    case Starsand => 9
    case Gold => 10
    case Diamond => 11
  }

  function Pow2(k: nat): (r: nat)
    ensures r >= 1
  {
    if k == 0 then 1 else 2 * Pow2(k - 1)
  }

  /** The first twelve powers of two, step by step. */
  lemma Pow2Table()
    ensures Pow2(0) == 1 && Pow2(1) == 2 && Pow2(2) == 4 && Pow2(3) == 8
    ensures Pow2(4) == 16 && Pow2(5) == 32 && Pow2(6) == 64 && Pow2(7) == 128
    ensures Pow2(8) == 256 && Pow2(9) == 512 && Pow2(10) == 1024 && Pow2(11) == 2048
  {
    assert Pow2(4) == 16;
    assert Pow2(8) == 256;
  }

  /** Number of tiers: the length of the enumeration. */
  function MaxLevel(): (n: nat)
    ensures n == 12
    ensures forall p :: Ordinal(p) < n && AllTiers[Ordinal(p)] == p
  {
    |AllTiers|
  }

  /** Selling price of one grain of tier `p` (see ValueIsPowerOfTwo). */
  function Value(p: SandParticle): (v: nat)
    ensures v >= 1
  {
    match p
    case Sand => 1
    case Quartz => 2
    case Shell => 4
    case Coral => 8
    case Pinksand => 16
    case Volcanic => 32
    case Glauconite => 64
    case Gemstones => 128
    case Iron => 256
    case Starsand => 512
    case Gold => 1024
    case Diamond => 2048
  }

  /** A grain of the tier with ordinal k sells for 2^k: the price doubles with every tier. */
  lemma ValueIsPowerOfTwo(p: SandParticle)
    ensures Value(p) == Pow2(Ordinal(p))
  {
    Pow2Table();
  }

  /** Display colour of tier `p`. */
  function ColorOf(p: SandParticle): Color {
    match p
    case Sand => FromRgb(243, 213, 103)
    case Quartz => FromRgb(169, 170, 171)
    case Shell => FromRgb(255, 241, 231)
    case Coral => FromRgb(248, 131, 121)
    case Pinksand => FromRgb(246, 196, 193)
    case Volcanic => FromRgb(162, 151, 158)
    case Glauconite => FromRgb(46, 111, 64)
    case Gemstones => FromRgb(153, 102, 204)
    case Iron => FromRgb(133, 81, 65)
    case Starsand => FromRgb(255, 250, 134)
    case Gold => FromRgb(211, 175, 55)
    case Diamond => FromRgb(154, 197, 219)
  }

  /** Every tier has its own colour, so the tiers can be told apart on screen. */
  lemma ColorsDistinct(p: SandParticle, q: SandParticle)
    requires p != q
    ensures ColorOf(p) != ColorOf(q)
  {
  }

  /** The tier with ordinal `num`, or None when there is no such tier. */
  function FromU32(num: nat): (r: Option<SandParticle>)
    ensures r.Some? <==> num < MaxLevel()
    ensures r.Some? ==> Ordinal(r.value) == num
  {
    match num
    case 0 => Some(Sand)
    case 1 => Some(Quartz)
    case 2 => Some(Shell)
    case 3 => Some(Coral)
    case 4 => Some(Pinksand)
    case 5 => Some(Volcanic)
    case 6 => Some(Glauconite)
    case 7 => Some(Gemstones)
    case 8 => Some(Iron)
    case 9 => Some(Starsand)
    case 10 => Some(Gold)
    case 11 => Some(Diamond)
    case _ => None
  }

  /** Looking up a tier's own ordinal gives the tier back. */
  lemma FromU32RoundTrip(p: SandParticle)
    ensures FromU32(Ordinal(p)) == Some(p)
  {
  }

  /**
   * Price of unlocking the tier with ordinal `num`; out-of-range ordinals
   * cost nothing.
   */
  function Cost(num: nat): (c: nat)
    ensures num == 0 || num >= MaxLevel() ==> c == 0
    ensures 0 < num < MaxLevel() ==> c >= 100
  {
    match FromU32(num)
    case Some(particle) => (
      match particle
      case Sand => 0
      case Quartz => 100
      case Shell => 500
      case Coral => 2000
      case Pinksand => 8000
      case Volcanic => 10000
      case Glauconite => 50000
      case Gemstones => 100000
      case Iron => 500000
      case Starsand => 1000000
      case Gold => 5000000
      case Diamond => 10000000)
    case None => 0
  }

  /** Each tier costs more to unlock than the one before it. */
  lemma CostIncreasesByOne(k: nat)
    requires k + 1 < MaxLevel()
    ensures Cost(k) < Cost(k + 1)
  {
    var p, q := FromU32(k).value, FromU32(k + 1).value;
    assert Ordinal(p) == k && Ordinal(q) == k + 1;
  }

  /** The unlock cost is strictly increasing over the whole catalogue. */
  lemma {:induction false} CostStrictlyIncreasing(i: nat, j: nat)
    requires i < j < MaxLevel()
    ensures Cost(i) < Cost(j)
  {
    CostIncreasesByOne(j - 1);
    if i < j - 1 {
      CostStrictlyIncreasing(i, j - 1);
    }
  }

  /** The values the catalogue promises for a few sample tiers. */
  lemma CatalogueSamples()
    ensures Value(Gold) == 1024
    ensures ColorOf(Coral) == FromRgb(248, 131, 121)
    ensures Cost(0) == 0 && Cost(1) == 100 && Cost(11) == 10000000
    ensures FromU32(0) == Some(Sand) && FromU32(5) == Some(Volcanic) && FromU32(12) == None
    ensures MaxLevel() == 12
  {
  }
}
