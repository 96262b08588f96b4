/**
 * The streak badge (src/components/StreakCounter.tsx): the next unclaimed
 * milestone, the days left to it, and the colour and flame tiers.
 */
module StreakCounter {
  import opened Wrappers
  import opened Types
  import opened Seqs

  function IsNextCandidate(current: int): Milestone -> bool {
    (m: Milestone) => !m.claimed && m.days > current
  }

  /** `getNextMilestone`: the first unclaimed milestone, in list order, beyond the current streak. */
  function NextMilestone(streak: StreakData): (r: Option<Milestone>)
    ensures r.Some? ==> exists i :: (0 <= i < |streak.milestones| && streak.milestones[i] == r.value
      && forall j :: 0 <= j < i ==> !IsNextCandidate(streak.current)(streak.milestones[j]))
    ensures r.Some? ==> !r.value.claimed && r.value.days > streak.current
    ensures r.None? <==> forall j :: 0 <= j < |streak.milestones| ==> !IsNextCandidate(streak.current)(streak.milestones[j])
  {
    match FindIndex(streak.milestones, IsNextCandidate(streak.current))
    case None => None
    case Some(i) => Some(streak.milestones[i])
  }

  /** `daysToNext`. */
  function DaysToNext(streak: StreakData): (d: int)
    ensures NextMilestone(streak).Some? ==> d > 0
    ensures NextMilestone(streak).None? ==> d == 0
  {
    match NextMilestone(streak)
    case None => 0
    case Some(m) => m.days - streak.current
  }

  /** The tier both styling rules share: 3 from 100 days, 2 from 30, 1 from 7, else 0. */
  function StreakTier(current: int): (t: nat)
    ensures t <= 3
  {
    if current >= 100 then 3 else if current >= 30 then 2 else if current >= 7 then 1 else 0
  }

  /** `getStreakColor`. */
  function StreakColor(current: int): string {
    if current >= 100 then "text-purple-400"
    else if current >= 30 then "text-yellow-400"
    else if current >= 7 then "text-orange-400"
    else "text-red-400"
  }

  /** `getFlameIntensity`. */
  function FlameIntensity(current: int): string {
    if current >= 100 then "animate-pulse drop-shadow-lg"
    else if current >= 30 then "animate-pulse"
    else if current >= 7 then ""
    else "opacity-75"
  }

  function ColorOfTier(t: nat): string {
    if t == 3 then "text-purple-400" else if t == 2 then "text-yellow-400" else if t == 1 then "text-orange-400" else "text-red-400"
  }

  function FlameOfTier(t: nat): string {
    if t == 3 then "animate-pulse drop-shadow-lg" else if t == 2 then "animate-pulse" else if t == 1 then "" else "opacity-75"
  }

  /**
   * Both rules are functions of the tier, distinct tiers give distinct
   * styles, and so colour and flame always agree on the tier.
   */
  lemma StylesFollowTier(a: int, b: int)
    ensures StreakColor(a) == ColorOfTier(StreakTier(a)) && FlameIntensity(a) == FlameOfTier(StreakTier(a))
    ensures StreakColor(a) == StreakColor(b) <==> StreakTier(a) == StreakTier(b)
    ensures FlameIntensity(a) == FlameIntensity(b) <==> StreakTier(a) == StreakTier(b)
  {
  }

  /** A longer streak never has a lower tier. */
  lemma TierMonotone(a: int, b: int)
    requires a <= b
    ensures StreakTier(a) <= StreakTier(b)
  {
  }
}
