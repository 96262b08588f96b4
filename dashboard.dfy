/**
 * The decision rules of the dashboard page (src/pages/Dashboard.tsx): the
 * next-rank tables, the once-a-day streak rollover, the quest and skill
 * selections shown, the countdown to the daily reset, and the mount
 * effect that seeds sample skills and rolls the streak over.
 */
module Dashboard {
  import opened Wrappers
  import opened Types
  import opened Seqs
  import opened Progression
  import opened Time
  import opened StoreModel
  import opened Store

  // ---------------------------------------------------------------------
  // Next rank

  /** The rank after the user's, or `MAX` past SSS. */
  datatype NextRank = Next(rank: Rank) | Max

  function NextRankOf(r: Rank): (n: NextRank)
    ensures r == SSS <==> n == Max
    ensures n.Next? ==> RankIndex(n.rank) == RankIndex(r) + 1
  {
    match r
    case E => Next(D)
    case D => Next(C)
    case C => Next(B)
    case B => Next(A)
    case A => Next(S)
    case S => Next(SS)
    case SS => Next(SSS)
    case SSS => Max
  }

  /** `xpForNextRank`: the next rank's threshold, or the current total past SSS. */
  function XpForNextRank(n: NextRank, totalXp: int): int {
    if n == Next(D) then 250
    else if n == Next(C) then 750
    else if n == Next(B) then 1500
    else if n == Next(A) then 3000
    else if n == Next(S) then 5000
    else if n == Next(SS) then 7500
    else if n == Next(SSS) then 10000
    else totalXp
  }

  /**
   * The target shown is the least total at which the rank function gives
   * the next rank: that total reaches it and every smaller one stays below.
   */
  lemma XpForNextRankIsLeast(r: Rank, totalXp: int)
    ensures var n := NextRankOf(r);
      n.Next? ==>
        && RankOf(XpForNextRank(n, totalXp)) == n.rank
        && forall x :: x < XpForNextRank(n, totalXp) ==> RankIndex(RankOf(x)) < RankIndex(n.rank)
    ensures NextRankOf(r) == Max ==> XpForNextRank(NextRankOf(r), totalXp) == totalXp
  {
    var n := NextRankOf(r);
    if n.Next? {
      RankAtThreshold(n.rank);
      forall x | x < XpForNextRank(n, totalXp)
        ensures RankIndex(RankOf(x)) < RankIndex(n.rank)
      {
        RankMonotone(x, Threshold(n.rank) - 1);
      }
    }
  }

  // ---------------------------------------------------------------------
  // Streak rollover

  /**
   * The new-day streak update: on a day other than that of `lastActive`
   * the streak grows by one if `lastActive` was yesterday and restarts at 1
   * otherwise, and `lastActive` and the streak's `lastUpdated` become `now`.
   */
  function StreakRollover(u: UserProfile, now: int): UserProfile {
    if DayOf(now) == DayOf(u.lastActive) then u
    else
      var wasYesterday := DayOf(now) - 1 == DayOf(u.lastActive);
      MergeUser(u, NoUserChange.(
        lastActive := Some(now),
        streak := Some(u.streak.(current := if wasYesterday then u.streak.current + 1 else 1, lastUpdated := now))))
  }

  lemma StreakRolloverSpec(u: UserProfile, now: int)
    ensures DayOf(now) == DayOf(u.lastActive) ==> StreakRollover(u, now) == u
    ensures DayOf(now) - 1 == DayOf(u.lastActive) ==> StreakRollover(u, now).streak.current == u.streak.current + 1
    ensures DayOf(now) != DayOf(u.lastActive) && DayOf(now) - 1 != DayOf(u.lastActive) ==>
      StreakRollover(u, now).streak.current == 1
    ensures DayOf(now) != DayOf(u.lastActive) ==>
      && StreakRollover(u, now).lastActive == now
      && StreakRollover(u, now).streak.lastUpdated == now
      && StreakRollover(u, now).(lastActive := u.lastActive, streak := u.streak) == u
      && StreakRollover(u, now).streak.(current := u.streak.current, lastUpdated := u.streak.lastUpdated) == u.streak
  {
  }

  /** A second rollover on the same day as the first changes nothing. */
  lemma StreakRolloverOncePerDay(u: UserProfile, now: int, later: int)
    requires DayOf(later) == DayOf(now)
    ensures StreakRollover(StreakRollover(u, now), later) == StreakRollover(u, now)
  {
  }

  // ---------------------------------------------------------------------
  // Today's quests

  predicate IsTodayQuest(q: Quest) {
    q.questType == Some(Daily) && q.status == Some(Active) && !q.completed
  }

  /** `todayQuests`: the active, uncompleted daily quests, in order. */
  function TodayQuests(quests: seq<Quest>): (r: seq<Quest>)
    ensures forall q :: q in r ==> IsTodayQuest(q)
  {
    Filter(quests, IsTodayQuest)
  }

  /** Exactly the quests of type daily, status active and not completed, each as often as in the list, in order. */
  lemma TodayQuestsSpec(quests: seq<Quest>)
    ensures forall q :: multiset(TodayQuests(quests))[q] == if IsTodayQuest(q) then multiset(quests)[q] else 0
    ensures IsSubsequence(TodayQuests(quests), quests)
  {
    forall q {
      FilterCount(quests, IsTodayQuest, q);
    }
    FilterIsSubsequence(quests, IsTodayQuest);
  }

  // ---------------------------------------------------------------------
  // Top skills

  /** Levels do not increase along the list. */
  predicate SortedByLevel(s: seq<Skill>) {
    forall i, j :: 0 <= i < j < |s| ==> s[i].level >= s[j].level
  }

  /** Inserts `x` after every element of at least its level, as a stable sort places a later element. */
  function InsertByLevel(s: seq<Skill>, x: Skill): seq<Skill>
    decreases |s|
  {
    if s == [] then [x]
    else if s[0].level >= x.level then [s[0]] + InsertByLevel(s[1..], x)
    else [x] + s
  }

  /** `[...skills].sort((a, b) => b.level - a.level)`: a stable sort by descending level. */
  function SortByLevel(s: seq<Skill>): seq<Skill>
    decreases |s|
  {
    if s == [] then [] else InsertByLevel(SortByLevel(s[..|s| - 1]), s[|s| - 1])
  }

  predicate LevelsAtMost(s: seq<Skill>, v: int) {
    forall i :: 0 <= i < |s| ==> s[i].level <= v
  }

  lemma {:induction false} InsertByLevelAtMost(s: seq<Skill>, x: Skill, v: int)
    requires LevelsAtMost(s, v) && x.level <= v
    ensures LevelsAtMost(InsertByLevel(s, x), v)
    decreases |s|
  {
    if s != [] && s[0].level >= x.level {
      InsertByLevelAtMost(s[1..], x, v);
    }
  }

  lemma {:induction false} InsertByLevelSorted(s: seq<Skill>, x: Skill)
    requires SortedByLevel(s)
    ensures SortedByLevel(InsertByLevel(s, x))
    decreases |s|
  {
    if s != [] {
      if s[0].level >= x.level {
        InsertByLevelSorted(s[1..], x);
        InsertByLevelAtMost(s[1..], x, s[0].level);
        var r := InsertByLevel(s[1..], x);
        assert InsertByLevel(s, x) == [s[0]] + r;
      } else {
        assert InsertByLevel(s, x) == [x] + s;
      }
    }
  }

  lemma {:induction false} InsertByLevelMultiset(s: seq<Skill>, x: Skill)
    ensures multiset(InsertByLevel(s, x)) == multiset(s) + multiset{x}
    decreases |s|
  {
    if s != [] && s[0].level >= x.level {
      InsertByLevelMultiset(s[1..], x);
      assert s == [s[0]] + s[1..];
    }
  }

  lemma {:induction false} SortByLevelSpec(s: seq<Skill>)
    ensures SortedByLevel(SortByLevel(s))
    ensures multiset(SortByLevel(s)) == multiset(s)
    decreases |s|
  {
    if s != [] {
      SortByLevelSpec(s[..|s| - 1]);
      InsertByLevelSorted(SortByLevel(s[..|s| - 1]), s[|s| - 1]);
      InsertByLevelMultiset(SortByLevel(s[..|s| - 1]), s[|s| - 1]);
      assert s == s[..|s| - 1] + [s[|s| - 1]];
    }
  }

  /** `.slice(0, 4)` of the sorted list. */
  function TopSkills(skills: seq<Skill>): seq<Skill> {
    var sorted := SortByLevel(skills);
    if |sorted| <= 4 then sorted else sorted[..4]
  }

  /** In a sorted list, what follows position k - 1 is no higher than it. */
  lemma SortedSplit(s: seq<Skill>, k: nat)
    requires SortedByLevel(s) && 0 < k < |s|
    ensures multiset(s) - multiset(s[..k]) == multiset(s[k..])
    ensures forall x :: x in multiset(s[k..]) ==> x.level <= s[k - 1].level
  {
    assert s == s[..k] + s[k..];
    forall x | x in multiset(s[k..])
      ensures x.level <= s[k - 1].level
    {
      var j :| 0 <= j < |s[k..]| && s[k..][j] == x;
      assert s[k + j] == x;
    }
  }

  /**
   * topSkills holds min(4, |skills|) of the skills, by non-increasing
   * level, and no skill left out has a higher level than the last shown.
   */
  lemma TopSkillsSpec(skills: seq<Skill>)
    ensures var r := TopSkills(skills);
      && |r| == (if |skills| < 4 then |skills| else 4)
      && SortedByLevel(r)
      && multiset(r) <= multiset(skills)
      && (|skills| > 4 ==> forall x :: x in multiset(skills) - multiset(r) ==> x.level <= r[3].level)
  {
    var sorted := SortByLevel(skills);
    SortByLevelSpec(skills);
    assert |sorted| == |multiset(sorted)| == |skills|;
    if |sorted| > 4 {
      SortedSplit(sorted, 4);
      assert sorted == sorted[..4] + sorted[4..];
    }
  }

  // ---------------------------------------------------------------------
  // Reset countdown

  datatype Countdown = Countdown(hours: int, minutes: int)

  /** Milliseconds from `now` to the next midnight: the first later instant that starts a day. */
  function MsUntilReset(now: int): (t: int)
    ensures 0 < t <= MsPerDay
    ensures (now + t) % MsPerDay == 0
  {
    DayBounds(now);
    (DayOf(now) + 1) * MsPerDay - now
  }

  /** `hoursUntilReset` and `minutesUntilReset`. */
  function ResetCountdown(now: int): Countdown {
    var t := MsUntilReset(now);
    Countdown(t / MsPerHour, (t % MsPerHour) / MsPerMinute)
  }

  /** The countdown never overstates the time left, the minutes stay below 60 and it is off by under a minute. */
  lemma ResetCountdownSpec(now: int)
    ensures var c, t := ResetCountdown(now), MsUntilReset(now);
      && 0 <= c.minutes < 60
      && 0 <= c.hours <= 24
      && c.hours * MsPerHour + c.minutes * MsPerMinute <= t < c.hours * MsPerHour + c.minutes * MsPerMinute + MsPerMinute
  {
  }

  // ---------------------------------------------------------------------
  // The mount effect

  /** The four sample skills the dashboard seeds an empty store with; `ids` stands for the generated uuids. */
  function SampleSkills(ids: seq<string>): (r: seq<Skill>)
    requires |ids| == 4
    ensures |r| == 4 && SkillsWellFormed(r)
    ensures forall i :: 0 <= i < 4 ==> r[i].id == ids[i] && r[i].metrics.None?
  {
    [ Skill(ids[0], "Strength Training", Physical, 1, 50, 100, None),
      Skill(ids[1], "Meditation", Mental, 2, 75, 150, None),
      Skill(ids[2], "React Development", Technical, 3, 120, 200, None),
      Skill(ids[3], "Digital Art", Creative, 1, 30, 100, None) ]
  }

  /** The store after the mount effect: sample skills if there were none, then the streak rollover. */
  function MountTransition(st: StoreState, ids: seq<string>, now: int): StoreState
    requires |ids| == 4
  {
    var seeded := if |st.skills| == 0 then st.(skills := SampleSkills(ids)) else st;
    seeded.(user := StreakRollover(st.user, now))
  }

  /**
   * The mount effect seeds skills only into an empty list, keeps the store
   * invariant, touches neither quests nor achievements nor ranks, and
   * running it again on the same day changes nothing.
   */
  lemma MountTransitionSpec(st: StoreState, ids: seq<string>, ids2: seq<string>, now: int, later: int)
    requires |ids| == 4 && |ids2| == 4
    requires DayOf(later) == DayOf(now)
    ensures |st.skills| > 0 ==> MountTransition(st, ids, now).skills == st.skills
    ensures |st.skills| == 0 ==> MountTransition(st, ids, now).skills == SampleSkills(ids)
    ensures ValidState(st) ==> ValidState(MountTransition(st, ids, now))
    ensures MountTransition(st, ids, now).(skills := st.skills, user := st.user) == st
    ensures MountTransition(MountTransition(st, ids, now), ids2, later) == MountTransition(st, ids, now)
  {
    StreakRolloverOncePerDay(st.user, now, later);
  }

  /**
   * The effect itself, from the skill check on: `addSkill` four times when
   * there are no skills, then `updateUser` on a new day.
   */
  method MountEffect(store: ProdigyStore, ids: seq<string>, now: int)
    requires |ids| == 4
    modifies store
    ensures store.State() == MountTransition(old(store.State()), ids, now)
  {
    var user := store.user;
    if |store.skills| == 0 {
      var samples := SampleSkills(ids);
      store.AddSkill(samples[0]);
      store.AddSkill(samples[1]);
      store.AddSkill(samples[2]);
      store.AddSkill(samples[3]);
      assert store.skills == samples;
    }
    if DayOf(now) != DayOf(user.lastActive) {
      var wasYesterday := DayOf(now) - 1 == DayOf(user.lastActive);
      store.UpdateUser(NoUserChange.(
        lastActive := Some(now),
        streak := Some(user.streak.(current := if wasYesterday then user.streak.current + 1 else 1, lastUpdated := now))));
    }
  }
}
