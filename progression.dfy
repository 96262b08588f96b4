/**
 * The two pure rules of the progression store (src/store.ts): the rank
 * step function over total XP and the level-up arithmetic of a skill.
 */
module Progression {
  import opened Wrappers
  import opened Types

  /** Position of a rank in the order E < D < C < B < A < S < SS < SSS. */
  function RankIndex(r: Rank): (i: nat)
    ensures i < 8
  {
    match r
    case E => 0
    case D => 1
    case C => 2
    case B => 3
    case A => 4
    case S => 5
    case SS => 6
    case SSS => 7
  }

  predicate RankLe(a: Rank, b: Rank) {
    RankIndex(a) <= RankIndex(b)
  }

  /** The least total XP at which each rank is reached: the threshold table. */
  function Threshold(r: Rank): int {
    match r
    case E => 0
    case D => 250
    case C => 750
    case B => 1500
    case A => 3000
    case S => 5000
    case SS => 7500
    case SSS => 10000
  }

  /**
   * `calculateRankFromXp`: E for a non-number, NaN or negative input;
   * otherwise the highest rank whose threshold does not exceed `xp`.
   */
  function CalculateRankFromXp(xp: Numeric): (r: Rank)
    ensures !xp.Int? || xp.value < 0 ==> r == E
    ensures xp.Int? && xp.value >= 0 ==> Threshold(r) <= xp.value
    ensures xp.Int? ==> forall q :: RankIndex(q) > RankIndex(r) ==> xp.value < Threshold(q)
  {
    if !xp.Int? || xp.value < 0 then E
    else if xp.value >= 10000 then SSS
    else if xp.value >= 7500 then SS
    else if xp.value >= 5000 then S
    else if xp.value >= 3000 then A
    else if xp.value >= 1500 then B
    else if xp.value >= 750 then C
    else if xp.value >= 250 then D
    else E
  }

  /** The rank of a finite total. */
  function RankOf(xp: int): Rank {
    CalculateRankFromXp(Int(xp))
  }

  /** Thresholds grow strictly with the rank. */
  lemma ThresholdStrictlyIncreasing(a: Rank, b: Rank)
    ensures RankIndex(a) < RankIndex(b) <==> Threshold(a) < Threshold(b)
  {
  }

  /** More XP never gives a lower rank. */
  lemma RankMonotone(x: int, y: int)
    requires x <= y
    ensures RankLe(RankOf(x), RankOf(y))
  {
    var rx, ry := RankOf(x), RankOf(y);
    if RankIndex(ry) < RankIndex(rx) {
      ThresholdStrictlyIncreasing(ry, rx);
    }
  }

  /** Each threshold is exactly where its rank starts. */
  lemma RankAtThreshold(r: Rank)
    ensures RankOf(Threshold(r)) == r
    ensures r != E ==> RankIndex(RankOf(Threshold(r) - 1)) < RankIndex(r)
  {
  }

  /** Boundary cases of the rank table. */
  lemma RankBoundaries()
    ensures RankOf(249) == E && RankOf(250) == D
    ensures RankOf(9999) == SS && RankOf(10000) == SSS
    ensures CalculateRankFromXp(NaN) == E && CalculateRankFromXp(NotNumber) == E
    ensures RankOf(-1) == E
  {
  }

  /** The result of `calculateLevelProgression`. */
  datatype LevelProgress = LevelProgress(level: int, remainingXp: int, newXpToNext: int)

  function Pow(b: nat, k: nat): nat
    decreases k
  {
    if k == 0 then 1 else b * Pow(b, k - 1)
  }

  lemma {:induction false} PowPositive(b: nat, k: nat)
    requires b >= 1
    ensures Pow(b, k) >= 1
    decreases k
  {
    if k > 0 {
      PowPositive(b, k - 1);
    }
  }

  lemma {:induction false} PowBaseMonotone(a: nat, b: nat, k: nat)
    requires a <= b
    ensures Pow(a, k) <= Pow(b, k)
    decreases k
  {
    if k > 0 {
      PowBaseMonotone(a, b, k - 1);
      assert a * Pow(a, k - 1) <= b * Pow(a, k - 1) <= b * Pow(b, k - 1);
    }
  }

  /**
   * `Math.floor(t * Math.pow(1.2, k))`, computed exactly as
   * floor(t * 6^k / 5^k).
   */
  function GrownThreshold(t: nat, k: nat): int {
    PowPositive(5, k);
    t * Pow(6, k) / Pow(5, k)
  }

  /** Growing the threshold by 1.2 per level-up never makes it smaller. */
  lemma GrownThresholdAtLeast(t: nat, k: nat)
    ensures GrownThreshold(t, k) >= t
    ensures k == 0 ==> GrownThreshold(t, k) == t
  {
    PowPositive(5, k);
    PowBaseMonotone(5, 6, k);
    var p5, p6 := Pow(5, k), Pow(6, k);
    MulLe(p5, p6, t);
    var q := (t * p6) / p5;
    if q < t {
      MulLe(q + 1, t, p5);
      assert false;
    }
  }

  lemma MulLe(a: int, b: int, c: nat)
    requires a <= b
    ensures a * c <= b * c
  {
    assert b * c - a * c == (b - a) * c;
  }

  /**
   * `calculateLevelProgression(xp, level, t)` for a threshold t >= 1:
   * a negative `xp` leaves level and threshold as they are with nothing
   * remaining; otherwise `xp` is split into whole thresholds, each a
   * level-up, and a remainder below `t`, and the threshold grows by the
   * factor 1.2 once per level gained.
   */
  function CalculateLevelProgression(currentXp: int, currentLevel: int, xpToNext: int): (r: LevelProgress)
    requires xpToNext >= 1
    ensures currentXp < 0 ==> r == LevelProgress(currentLevel, 0, xpToNext)
    ensures currentXp >= 0 ==>
      && r.level >= currentLevel
      && currentXp == (r.level - currentLevel) * xpToNext + r.remainingXp
      && 0 <= r.remainingXp < xpToNext
      && r.newXpToNext == GrownThreshold(xpToNext, r.level - currentLevel)
    ensures r.newXpToNext >= xpToNext
    ensures 0 <= r.remainingXp < r.newXpToNext
  {
    if currentXp < 0 then LevelProgress(currentLevel, 0, xpToNext)
    else
      var levelUps := currentXp / xpToNext;
      GrownThresholdAtLeast(xpToNext, levelUps);
      LevelProgress(currentLevel + levelUps, currentXp % xpToNext, GrownThreshold(xpToNext, levelUps))
  }

  /** The split into level-ups and remainder is the only one possible. */
  lemma LevelProgressionUnique(xp: nat, level: int, t: int, k: nat, rem: int)
    requires t >= 1
    requires xp == k * t + rem && 0 <= rem < t
    ensures CalculateLevelProgression(xp, level, t) == LevelProgress(level + k, rem, GrownThreshold(t, k))
  {
    var r := CalculateLevelProgression(xp, level, t);
    var k' := r.level - level;
    if k' < k {
      MulLe(k' + 1, k, t);
      assert false;
    } else if k' > k {
      MulLe(k + 1, k', t);
      assert false;
    }
  }
}
