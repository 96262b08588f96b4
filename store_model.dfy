/**
 * The state of the progression store (src/store.ts) as a value, and each
 * store action as a function from the old state to the new one. The class
 * in module Store performs the same updates field by field and is proved
 * to agree with these functions; the lemmas below state what the actions
 * promise.
 */
module StoreModel {
  import opened Wrappers
  import opened Types
  import opened Seqs
  import opened Strings
  import opened Progression

  datatype StoreState = StoreState(
    user: UserProfile,
    skills: seq<Skill>,
    quests: seq<Quest>,
    achievements: seq<Achievement>,
    domainRanks: map<Domain, Rank>)

  /** Every skill has a positive threshold, so level arithmetic never divides by zero. */
  predicate SkillsWellFormed(skills: seq<Skill>) {
    forall i :: 0 <= i < |skills| ==> skills[i].xpToNextLevel >= 1
  }

  /** The invariant the store keeps: well-formed skills and a rank for every domain. */
  predicate ValidState(st: StoreState) {
    SkillsWellFormed(st.skills)
    && Physical in st.domainRanks && Mental in st.domainRanks
    && Technical in st.domainRanks && Creative in st.domainRanks
  }

  /** The store's initial value, created at time `now`. */
  function InitialState(now: int): (st: StoreState)
    ensures ValidState(st)
    ensures st.skills == [] && st.quests == [] && st.achievements == []
    ensures forall d :: d in st.domainRanks ==> st.domainRanks[d] == E
    ensures st.user.rank == E && st.user.totalXp == 0
  {
    StoreState(
      UserProfile("Hunter", "Novice Explorer", E, 0, now, StreakData(0, 0, now, false, None, []), now, []),
      [], [], [],
      map[Physical := E, Mental := E, Technical := E, Creative := E])
  }

  // ---------------------------------------------------------------------
  // updateUser: a shallow merge of the given fields into the user.

  /** A `Partial<UserProfile>`: the fields present in the update. */
  datatype UserUpdate = UserUpdate(
    name: Option<string>,
    title: Option<string>,
    rank: Option<Rank>,
    totalXp: Option<int>,
    joinDate: Option<int>,
    streak: Option<StreakData>,
    lastActive: Option<int>,
    progressHistory: Option<seq<UserProgress>>)

  const NoUserChange: UserUpdate := UserUpdate(None, None, None, None, None, None, None, None)

  /** `{ ...user, ...updates }`. */
  function MergeUser(u: UserProfile, p: UserUpdate): UserProfile {
    UserProfile(
      p.name.GetOr(u.name),
      p.title.GetOr(u.title),
      p.rank.GetOr(u.rank),
      p.totalXp.GetOr(u.totalXp),
      p.joinDate.GetOr(u.joinDate),
      p.streak.GetOr(u.streak),
      p.lastActive.GetOr(u.lastActive),
      p.progressHistory.GetOr(u.progressHistory))
  }

  function UpdateUserIn(st: StoreState, p: UserUpdate): StoreState {
    st.(user := MergeUser(st.user, p))
  }

  /** The spread law for one field: a given value wins, an absent one keeps the old value. */
  predicate Spread<T(==)>(given: Option<T>, before: T, after: T) {
    (given.Some? ==> after == given.value) && (given.None? ==> after == before)
  }

  /** A present field wins, an absent one keeps the old value, and merging is idempotent. */
  lemma MergeUserSpec(u: UserProfile, p: UserUpdate)
    ensures MergeUser(u, NoUserChange) == u
    ensures MergeUser(MergeUser(u, p), p) == MergeUser(u, p)
    ensures var r := MergeUser(u, p);
      && Spread(p.name, u.name, r.name)
      && Spread(p.title, u.title, r.title)
      && Spread(p.rank, u.rank, r.rank)
      && Spread(p.totalXp, u.totalXp, r.totalXp)
      && Spread(p.joinDate, u.joinDate, r.joinDate)
      && Spread(p.streak, u.streak, r.streak)
      && Spread(p.lastActive, u.lastActive, r.lastActive)
      && Spread(p.progressHistory, u.progressHistory, r.progressHistory)
  {
  }

  // ---------------------------------------------------------------------
  // addProgressEntry

  function AddProgressEntryTo(st: StoreState, metrics: map<string, int>, notes: string, now: int): StoreState {
    st.(user := st.user.(progressHistory := st.user.progressHistory + [UserProgress(now, metrics, notes)]))
  }

  // ---------------------------------------------------------------------
  // addSkill, updateSkill, removeSkill

  function AddSkillTo(st: StoreState, skill: Skill): StoreState {
    st.(skills := st.skills + [skill])
  }

  /** A `Partial<Skill>`; `metrics` is `Some(None)` when the update clears it. */
  datatype SkillUpdate = SkillUpdate(
    id: Option<string>,
    name: Option<string>,
    domain: Option<Domain>,
    level: Option<int>,
    xp: Option<int>,
    xpToNextLevel: Option<int>,
    metrics: Option<Option<SkillMetrics>>)

  /** `{ ...skill, ...updates }`. */
  function MergeSkill(s: Skill, u: SkillUpdate): Skill {
    Skill(
      u.id.GetOr(s.id),
      u.name.GetOr(s.name),
      u.domain.GetOr(s.domain),
      u.level.GetOr(s.level),
      u.xp.GetOr(s.xp),
      u.xpToNextLevel.GetOr(s.xpToNextLevel),
      u.metrics.GetOr(s.metrics))
  }

  /** `skills.map(s => s.id === id ? { ...s, ...updates } : s)`. */
  function UpdateSkillIn(skills: seq<Skill>, id: string, u: SkillUpdate): (r: seq<Skill>)
    ensures |r| == |skills|
  {
    seq(|skills|, i requires 0 <= i < |skills| =>
      if skills[i].id == id then MergeSkill(skills[i], u) else skills[i])
  }

  function UpdateSkillInState(st: StoreState, id: string, u: SkillUpdate): StoreState {
    st.(skills := UpdateSkillIn(st.skills, id, u))
  }

  const NoSkillChange: SkillUpdate := SkillUpdate(None, None, None, None, None, None, None)

  /** The spread law on every field of a skill. */
  predicate SpreadSkill(s: Skill, u: SkillUpdate, r: Skill) {
    && Spread(u.id, s.id, r.id)
    && Spread(u.name, s.name, r.name)
    && Spread(u.domain, s.domain, r.domain)
    && Spread(u.level, s.level, r.level)
    && Spread(u.xp, s.xp, r.xp)
    && Spread(u.xpToNextLevel, s.xpToNextLevel, r.xpToNextLevel)
    && Spread(u.metrics, s.metrics, r.metrics)
  }

  /**
   * updateSkill changes only the skills with that id, which take the given
   * fields and keep the others, an empty update
   * changes nothing, applying the same update twice is the same as once,
   * and an update that leaves the threshold positive keeps skills well formed.
   */
  lemma UpdateSkillSpec(skills: seq<Skill>, id: string, u: SkillUpdate)
    ensures forall j :: 0 <= j < |skills| && skills[j].id != id ==> UpdateSkillIn(skills, id, u)[j] == skills[j]
    ensures forall j :: 0 <= j < |skills| && skills[j].id == id ==> SpreadSkill(skills[j], u, UpdateSkillIn(skills, id, u)[j])
    ensures UpdateSkillIn(skills, id, NoSkillChange) == skills
    ensures UpdateSkillIn(UpdateSkillIn(skills, id, u), id, u) == UpdateSkillIn(skills, id, u)
    ensures SkillsWellFormed(skills) && (u.xpToNextLevel.None? || u.xpToNextLevel.value >= 1) ==>
      SkillsWellFormed(UpdateSkillIn(skills, id, u))
  {
  }

  function SkillIdIs(id: string): Skill -> bool {
    (s: Skill) => s.id == id
  }

  function SkillIdIsNot(id: string): Skill -> bool {
    (s: Skill) => s.id != id
  }

  function InDomain(d: Domain): Skill -> bool {
    (s: Skill) => s.domain == d
  }

  function RemoveSkillFrom(st: StoreState, id: string): StoreState {
    st.(skills := Filter(st.skills, SkillIdIsNot(id)))
  }

  /**
   * removeSkill drops exactly the skills with that id: none is left, every
   * other skill keeps its multiplicity, and the order is preserved.
   */
  lemma RemoveSkillSpec(st: StoreState, id: string)
    ensures forall x :: x in RemoveSkillFrom(st, id).skills ==> x.id != id
    ensures forall x: Skill :: x.id != id ==> multiset(RemoveSkillFrom(st, id).skills)[x] == multiset(st.skills)[x]
    ensures IsSubsequence(RemoveSkillFrom(st, id).skills, st.skills)
    ensures RemoveSkillFrom(st, id).(skills := st.skills) == st
  {
    forall x: Skill | x.id != id
      ensures multiset(RemoveSkillFrom(st, id).skills)[x] == multiset(st.skills)[x]
    {
      FilterCount(st.skills, SkillIdIsNot(id), x);
    }
    FilterIsSubsequence(st.skills, SkillIdIsNot(id));
  }

  /** removeSkill keeps the store invariant. */
  lemma RemoveSkillKeepsValid(st: StoreState, id: string)
    requires ValidState(st)
    ensures ValidState(RemoveSkillFrom(st, id))
  {
    var r := RemoveSkillFrom(st, id).skills;
    forall i | 0 <= i < |r|
      ensures r[i].xpToNextLevel >= 1
    {
      assert r[i] in st.skills;
    }
  }

  // ---------------------------------------------------------------------
  // addXp

  /**
   * The early return of `addXp` as the source writes it,
   * `typeof amount !== 'number' || amount <= 0`: NaN has type 'number' and
   * `NaN <= 0` is false, so NaN is not rejected.
   */
  predicate AmountRejectedAsWritten(amount: Numeric) {
    amount.NotNumber? || (amount.Int? && amount.value <= 0)
  }

  /** The intended guard: anything but a positive finite number is a no-op. */
  predicate AmountRejected(amount: Numeric) {
    !(amount.Int? && amount.value > 0)
  }

  /** The guard as written lets NaN through; the intended one stops it, and they agree elsewhere. */
  lemma GuardAdmitsNaN(amount: Numeric)
    ensures !AmountRejectedAsWritten(NaN) && AmountRejected(NaN)
    ensures !amount.NaN? ==> (AmountRejectedAsWritten(amount) <==> AmountRejected(amount))
  {
  }

  function HistoryOf(m: Option<SkillMetrics>): seq<SkillProgress> {
    if m.Some? then m.value.progressHistory else []
  }

  /** The history note `addXp` writes: `Gained ${amount} XP`. */
  function GainedNote(amount: int): string {
    "Gained " + IntToString(amount) + " XP"
  }

  /** The metrics record `addXp` stores: one more history entry, start date and related quests kept. */
  function GainedMetrics(m: Option<SkillMetrics>, value: int, amount: int, now: int): SkillMetrics {
    SkillMetrics(
      if m.Some? then m.value.startDate else now,
      now,
      HistoryOf(m) + [SkillProgress(now, value, GainedNote(amount))],
      if m.Some? then m.value.relatedQuests else [])
  }

  /** The skill update `addXp` passes to `updateSkill`. */
  function XpUpdate(p: LevelProgress, m: SkillMetrics): SkillUpdate {
    SkillUpdate(None, None, None, Some(p.level), Some(p.remainingXp), Some(p.newXpToNext), Some(Some(m)))
  }

  function SkillXp(s: Skill): int {
    s.xp
  }

  /** Sum of the xp of the skills in domain `d`. */
  function DomainXp(skills: seq<Skill>, d: Domain): int {
    Sum(Filter(skills, InDomain(d)), SkillXp)
  }

  /** `skills.map(s => s.id === id ? { ...s, xp, level } : s)`, the list `addXp` sums a domain over. */
  function Relevel(skills: seq<Skill>, id: string, p: LevelProgress): (r: seq<Skill>)
    ensures |r| == |skills|
  {
    seq(|skills|, j requires 0 <= j < |skills| =>
      if skills[j].id == id then skills[j].(xp := p.remainingXp, level := p.level) else skills[j])
  }

  /**
   * `addXp(skillId, amount)`: level the first skill with that id, add
   * `amount` to the user's total and rank, and re-rank the skill's domain.
   */
  function AddXpTo(st: StoreState, skillId: string, amount: Numeric, now: int): StoreState
    requires SkillsWellFormed(st.skills)
  {
    if AmountRejected(amount) then st
    else
      match FindIndex(st.skills, SkillIdIs(skillId))
      case None => st
      case Some(i) =>
        var skill := st.skills[i];
        var a := amount.value;
        var p := CalculateLevelProgression(skill.xp + a, skill.level, skill.xpToNextLevel);
        var skills' := UpdateSkillIn(st.skills, skillId, XpUpdate(p, GainedMetrics(skill.metrics, skill.xp + a, a, now)));
        var total := st.user.totalXp + a;
        var user' := MergeUser(st.user, NoUserChange.(totalXp := Some(total), rank := Some(RankOf(total))));
        var domainXp := DomainXp(Relevel(st.skills, skillId, p), skill.domain) + a;
        st.(skills := skills', user := user', domainRanks := st.domainRanks[skill.domain := RankOf(domainXp)])
  }

  /** `i` is the index `find` returns for id `id`. */
  predicate FirstWithId(skills: seq<Skill>, id: string, i: int) {
    0 <= i < |skills| && skills[i].id == id && forall j :: 0 <= j < i ==> skills[j].id != id
  }

  lemma FindIndexIsFirst(skills: seq<Skill>, id: string, i: int)
    requires FirstWithId(skills, id, i)
    ensures FindIndex(skills, SkillIdIs(id)) == Some(i)
  {
    assert SkillIdIs(id)(skills[i]);
  }

  /** addXp is a no-op for anything but a positive number, and for an unknown skill id. */
  lemma AddXpNoOp(st: StoreState, skillId: string, amount: Numeric, now: int)
    requires SkillsWellFormed(st.skills)
    requires AmountRejected(amount) || forall j :: 0 <= j < |st.skills| ==> st.skills[j].id != skillId
    ensures AddXpTo(st, skillId, amount, now) == st
  {
    if !AmountRejected(amount) {
      var r := FindIndex(st.skills, SkillIdIs(skillId));
      if r.Some? {
        assert false;
      }
    }
  }

  /**
   * After addXp the target skill has not lost a level, keeps its remainder
   * below its (never smaller) threshold, gained exactly one history entry
   * recording old xp + amount, and keeps its id, name and domain; when the
   * sum is non-negative no XP is lost in the level-ups.
   */
  lemma AddXpTargetSkill(st: StoreState, skillId: string, a: int, now: int, i: int)
    requires SkillsWellFormed(st.skills) && a > 0
    requires FirstWithId(st.skills, skillId, i)
    ensures var s, s' := st.skills[i], AddXpTo(st, skillId, Int(a), now).skills[i];
      && |AddXpTo(st, skillId, Int(a), now).skills| == |st.skills|
      && s'.id == s.id && s'.name == s.name && s'.domain == s.domain
      && s'.level >= s.level
      && 0 <= s'.xp < s'.xpToNextLevel
      && s'.xpToNextLevel >= s.xpToNextLevel
      && HistoryOf(s'.metrics) == HistoryOf(s.metrics) + [SkillProgress(now, s.xp + a, GainedNote(a))]
      && (s.xp + a >= 0 ==> (s'.level - s.level) * s.xpToNextLevel + s'.xp == s.xp + a)
  {
    FindIndexIsFirst(st.skills, skillId, i);
  }

  /** addXp leaves every skill with another id as it was. */
  lemma AddXpOtherSkills(st: StoreState, skillId: string, amount: Numeric, now: int)
    requires SkillsWellFormed(st.skills)
    ensures |AddXpTo(st, skillId, amount, now).skills| == |st.skills|
    ensures forall j :: 0 <= j < |st.skills| && st.skills[j].id != skillId ==>
      AddXpTo(st, skillId, amount, now).skills[j] == st.skills[j]
    ensures AddXpTo(st, skillId, amount, now).quests == st.quests
    ensures AddXpTo(st, skillId, amount, now).achievements == st.achievements
  {
  }

  /** addXp raises the total by exactly `amount` and re-derives the user rank; nothing else of the user changes. */
  lemma AddXpUser(st: StoreState, skillId: string, a: int, now: int, i: int)
    requires SkillsWellFormed(st.skills) && a > 0
    requires FirstWithId(st.skills, skillId, i)
    ensures AddXpTo(st, skillId, Int(a), now).user
      == st.user.(totalXp := st.user.totalXp + a, rank := RankOf(st.user.totalXp + a))
  {
    FindIndexIsFirst(st.skills, skillId, i);
  }

  /** Domain sums agree for two lists that agree on every skill's domain and xp. */
  lemma {:induction false} DomainXpPointwise(s: seq<Skill>, t: seq<Skill>, d: Domain)
    requires |s| == |t|
    requires forall i :: 0 <= i < |s| ==> s[i].domain == t[i].domain && s[i].xp == t[i].xp
    ensures DomainXp(s, d) == DomainXp(t, d)
    decreases |s|
  {
    if s != [] {
      DomainXpPointwise(s[1..], t[1..], d);
      assert InDomain(d)(s[0]) == InDomain(d)(t[0]);
    }
  }

  /**
   * addXp re-ranks only the skill's domain, to the rank of that domain's
   * xp after the update plus `amount`; the other domains keep their rank.
   */
  lemma AddXpDomainRanks(st: StoreState, skillId: string, a: int, now: int, i: int)
    requires SkillsWellFormed(st.skills) && a > 0
    requires FirstWithId(st.skills, skillId, i)
    ensures var st' := AddXpTo(st, skillId, Int(a), now); var d := st.skills[i].domain;
      st'.domainRanks == st.domainRanks[d := RankOf(DomainXp(st'.skills, d) + a)]
  {
    FindIndexIsFirst(st.skills, skillId, i);
    var skill := st.skills[i];
    var p := CalculateLevelProgression(skill.xp + a, skill.level, skill.xpToNextLevel);
    var st' := AddXpTo(st, skillId, Int(a), now);
    DomainXpPointwise(Relevel(st.skills, skillId, p), st'.skills, skill.domain);
  }

  /** `calculateRank(domain)`: the rank of the domain's summed skill xp. */
  function CalculateRank(st: StoreState, d: Domain): Rank {
    RankOf(DomainXp(st.skills, d))
  }

  /** The rank addXp stores for the domain is never below the on-demand `calculateRank`. */
  lemma AddXpDomainRankAtLeastCalculated(st: StoreState, skillId: string, a: int, now: int, i: int)
    requires SkillsWellFormed(st.skills) && a > 0
    requires FirstWithId(st.skills, skillId, i)
    ensures var st' := AddXpTo(st, skillId, Int(a), now); var d := st.skills[i].domain;
      RankLe(CalculateRank(st', d), st'.domainRanks[d])
  {
    AddXpDomainRanks(st, skillId, a, now, i);
    var st' := AddXpTo(st, skillId, Int(a), now);
    var d := st.skills[i].domain;
    RankMonotone(DomainXp(st'.skills, d), DomainXp(st'.skills, d) + a);
  }

  /** addXp keeps the store invariant. */
  lemma AddXpKeepsValid(st: StoreState, skillId: string, amount: Numeric, now: int)
    requires ValidState(st)
    ensures ValidState(AddXpTo(st, skillId, amount, now))
  {
  }

  // ---------------------------------------------------------------------
  // addQuest, completeQuest, removeQuest

  function CheckpointsOf(m: Option<QuestMetrics>): seq<Checkpoint> {
    if m.Some? then m.value.checkpoints else []
  }

  function ConsequencesOf(m: Option<QuestMetrics>): Option<Consequence> {
    if m.Some? then m.value.consequences else None
  }

  /** `addQuest(quest)`: append the quest with fresh metrics that keep only its consequences. */
  function AddQuestTo(st: StoreState, q: Quest, now: int): StoreState {
    st.(quests := st.quests + [q.(metrics := Some(QuestMetrics(now, [], ConsequencesOf(q.metrics))))])
  }

  /** addQuest appends exactly one quest: the given one with no checkpoints and its consequences kept. */
  lemma AddQuestSpec(st: StoreState, q: Quest, now: int)
    ensures var qs := AddQuestTo(st, q, now).quests;
      && |qs| == |st.quests| + 1
      && qs[..|st.quests|] == st.quests
      && qs[|st.quests|].(metrics := q.metrics) == q
      && CheckpointsOf(qs[|st.quests|].metrics) == []
      && ConsequencesOf(qs[|st.quests|].metrics) == ConsequencesOf(q.metrics)
    ensures AddQuestTo(st, q, now).(quests := st.quests) == st
  {
  }

  function QuestIdIs(id: string): Quest -> bool {
    (q: Quest) => q.id == id
  }

  function QuestIdIsNot(id: string): Quest -> bool {
    (q: Quest) => q.id != id
  }

  /** The quest `completeQuest` stores: completed, with one 'Quest completed' checkpoint appended. */
  function MarkCompleted(q: Quest, now: int): Quest {
    q.(completed := true,
       metrics := Some(QuestMetrics(
         if q.metrics.Some? then q.metrics.value.startDate else now,
         CheckpointsOf(q.metrics) + [Checkpoint(now, "Quest completed", true)],
         ConsequencesOf(q.metrics))))
  }

  function MarkCompletedIn(quests: seq<Quest>, id: string, now: int): (r: seq<Quest>)
    ensures |r| == |quests|
  {
    seq(|quests|, j requires 0 <= j < |quests| =>
      if quests[j].id == id then MarkCompleted(quests[j], now) else quests[j])
  }

  /**
   * `completeQuest(id)`: unless the quest is unknown or already completed,
   * mark it completed and award its XP to the first skill of its domain.
   */
  function CompleteQuestIn(st: StoreState, id: string, now: int): StoreState
    requires SkillsWellFormed(st.skills)
  {
    match FindIndex(st.quests, QuestIdIs(id))
    case None => st
    case Some(i) =>
      var quest := st.quests[i];
      if quest.completed then st
      else
        var marked := st.(quests := MarkCompletedIn(st.quests, id, now));
        var domainSkills := Filter(st.skills, InDomain(quest.domain));
        if |domainSkills| > 0 then AddXpTo(marked, domainSkills[0].id, Int(quest.xpReward), now)
        else marked
  }

  /** The first quest with id `id` is completed (or none has that id). */
  predicate QuestDone(quests: seq<Quest>, id: string) {
    match FindIndex(quests, QuestIdIs(id))
    case None => true
    case Some(i) => quests[i].completed
  }

  /** completeQuest is a no-op for an unknown id or an already-completed quest. */
  lemma CompleteQuestNoOp(st: StoreState, id: string, now: int)
    requires SkillsWellFormed(st.skills)
    requires QuestDone(st.quests, id)
    ensures CompleteQuestIn(st, id, now) == st
  {
  }

  /** After completeQuest the quest with that id is done. */
  lemma {:induction false} CompleteQuestMakesDone(st: StoreState, id: string, now: int)
    requires SkillsWellFormed(st.skills)
    ensures QuestDone(CompleteQuestIn(st, id, now).quests, id)
  {
    match FindIndex(st.quests, QuestIdIs(id))
    case None =>
    case Some(i) =>
      if !st.quests[i].completed {
        var marked := MarkCompletedIn(st.quests, id, now);
        var st' := CompleteQuestIn(st, id, now);
        var domainSkills := Filter(st.skills, InDomain(st.quests[i].domain));
        if |domainSkills| > 0 {
          AddXpOtherSkills(st.(quests := marked), domainSkills[0].id, Int(st.quests[i].xpReward), now);
        }
        assert st'.quests == marked;
        var r := FindIndex(marked, QuestIdIs(id));
        assert QuestIdIs(id)(marked[i]);
        assert r.Some?;
        assert marked[r.value].id == id;
      }
  }

  /** completeQuest is idempotent: a second call changes nothing, so rewards are credited once. */
  lemma CompleteQuestIdempotent(st: StoreState, id: string, now: int, later: int)
    requires ValidState(st)
    ensures SkillsWellFormed(CompleteQuestIn(st, id, now).skills)
    ensures CompleteQuestIn(CompleteQuestIn(st, id, now), id, later) == CompleteQuestIn(st, id, now)
  {
    var st' := CompleteQuestIn(st, id, now);
    match FindIndex(st.quests, QuestIdIs(id))
    case None =>
    case Some(i) =>
      if !st.quests[i].completed {
        var domainSkills := Filter(st.skills, InDomain(st.quests[i].domain));
        if |domainSkills| > 0 {
          AddXpKeepsValid(st.(quests := MarkCompletedIn(st.quests, id, now)), domainSkills[0].id, Int(st.quests[i].xpReward), now);
        }
      }
    CompleteQuestMakesDone(st, id, now);
    CompleteQuestNoOp(st', id, later);
  }

  /**
   * When completeQuest acts, every quest with that id is marked completed
   * with exactly one more checkpoint, and every other quest is unchanged.
   */
  lemma CompleteQuestMarks(st: StoreState, id: string, now: int)
    requires SkillsWellFormed(st.skills)
    requires !QuestDone(st.quests, id)
    ensures var qs := CompleteQuestIn(st, id, now).quests;
      && |qs| == |st.quests|
      && (forall j :: 0 <= j < |qs| && st.quests[j].id != id ==> qs[j] == st.quests[j])
      && (forall j :: 0 <= j < |qs| && st.quests[j].id == id ==>
            && qs[j].completed
            && |CheckpointsOf(qs[j].metrics)| == |CheckpointsOf(st.quests[j].metrics)| + 1
            && qs[j].(completed := false, metrics := None) == st.quests[j].(completed := false, metrics := None))
  {
    var i := FindIndex(st.quests, QuestIdIs(id)).value;
    var marked := st.(quests := MarkCompletedIn(st.quests, id, now));
    var domainSkills := Filter(st.skills, InDomain(st.quests[i].domain));
    if |domainSkills| > 0 {
      AddXpOtherSkills(marked, domainSkills[0].id, Int(st.quests[i].xpReward), now);
    }
  }

  /**
   * completeQuest credits the quest's xpReward to the user's total exactly
   * when some skill is in the quest's domain and the reward is positive.
   */
  lemma CompleteQuestAwardsXp(st: StoreState, id: string, now: int)
    requires SkillsWellFormed(st.skills)
    requires !QuestDone(st.quests, id)
    ensures var q := st.quests[FindIndex(st.quests, QuestIdIs(id)).value];
      var awarded := q.xpReward > 0 && exists j :: 0 <= j < |st.skills| && st.skills[j].domain == q.domain;
      CompleteQuestIn(st, id, now).user.totalXp == st.user.totalXp + (if awarded then q.xpReward else 0)
  {
    var i := FindIndex(st.quests, QuestIdIs(id)).value;
    var q := st.quests[i];
    var marked := st.(quests := MarkCompletedIn(st.quests, id, now));
    var domainSkills := Filter(st.skills, InDomain(q.domain));
    if |domainSkills| > 0 {
      var target := domainSkills[0];
      assert target in st.skills;
      var k :| 0 <= k < |st.skills| && st.skills[k] == target;
      assert exists j :: 0 <= j < |st.skills| && st.skills[j].domain == q.domain;
      if q.xpReward > 0 {
        var f := FindIndex(marked.skills, SkillIdIs(target.id));
        assert SkillIdIs(target.id)(marked.skills[k]);
        assert f.Some?;
        AddXpUser(marked, target.id, q.xpReward, now, f.value);
      } else {
        AddXpNoOp(marked, target.id, Int(q.xpReward), now);
      }
    } else {
      forall j | 0 <= j < |st.skills|
        ensures st.skills[j].domain != q.domain
      {
        if st.skills[j].domain == q.domain {
          FilterCount(st.skills, InDomain(q.domain), st.skills[j]);
          assert false;
        }
      }
    }
  }

  /** addXp does not read the quests: it acts on the other fields alike whatever they are. */
  lemma AddXpIgnoresQuests(st: StoreState, qs: seq<Quest>, skillId: string, amount: Numeric, now: int)
    requires SkillsWellFormed(st.skills)
    ensures AddXpTo(st.(quests := qs), skillId, amount, now) == AddXpTo(st, skillId, amount, now).(quests := qs)
  {
  }

  /**
   * completeQuest pays the reward through addXp to the first skill of the
   * quest's domain: skills and domain ranks end up exactly as that addXp
   * leaves them, and without a skill in the domain they are unchanged.
   */
  lemma CompleteQuestCreditsFirstDomainSkill(st: StoreState, id: string, now: int)
    requires SkillsWellFormed(st.skills)
    requires !QuestDone(st.quests, id)
    ensures var q := st.quests[FindIndex(st.quests, QuestIdIs(id)).value];
      var ds := Filter(st.skills, InDomain(q.domain));
      var st' := CompleteQuestIn(st, id, now);
      && (|ds| > 0 ==>
            && ds[0].domain == q.domain
            && st'.skills == AddXpTo(st, ds[0].id, Int(q.xpReward), now).skills
            && st'.domainRanks == AddXpTo(st, ds[0].id, Int(q.xpReward), now).domainRanks
            && st'.user == AddXpTo(st, ds[0].id, Int(q.xpReward), now).user)
      && (|ds| == 0 ==> st'.skills == st.skills && st'.domainRanks == st.domainRanks && st'.user == st.user)
  {
    var q := st.quests[FindIndex(st.quests, QuestIdIs(id)).value];
    var ds := Filter(st.skills, InDomain(q.domain));
    var marked := MarkCompletedIn(st.quests, id, now);
    if |ds| > 0 {
      assert ds[0] in ds;
      AddXpIgnoresQuests(st, marked, ds[0].id, Int(q.xpReward), now);
    }
  }

  function RemoveQuestFrom(st: StoreState, id: string): StoreState {
    st.(quests := Filter(st.quests, QuestIdIsNot(id)))
  }

  /**
   * removeQuest drops exactly the quests with that id: none is left, every
   * other quest keeps its multiplicity, and the order is preserved.
   */
  lemma RemoveQuestSpec(st: StoreState, id: string)
    ensures forall x :: x in RemoveQuestFrom(st, id).quests ==> x.id != id
    ensures forall x: Quest :: x.id != id ==> multiset(RemoveQuestFrom(st, id).quests)[x] == multiset(st.quests)[x]
    ensures IsSubsequence(RemoveQuestFrom(st, id).quests, st.quests)
    ensures RemoveQuestFrom(st, id).(quests := st.quests) == st
  {
    forall x: Quest | x.id != id
      ensures multiset(RemoveQuestFrom(st, id).quests)[x] == multiset(st.quests)[x]
    {
      FilterCount(st.quests, QuestIdIsNot(id), x);
    }
    FilterIsSubsequence(st.quests, QuestIdIsNot(id));
  }

  // ---------------------------------------------------------------------
  // unlockAchievement

  /** `achievements.map(a => a.id === id && !a.dateUnlocked ? { ...a, dateUnlocked: now } : a)`. */
  function UnlockIn(achievements: seq<Achievement>, id: string, now: int): (r: seq<Achievement>)
    ensures |r| == |achievements|
  {
    seq(|achievements|, j requires 0 <= j < |achievements| =>
      if achievements[j].id == id && achievements[j].dateUnlocked.None?
      then achievements[j].(dateUnlocked := Some(now))
      else achievements[j])
  }

  function UnlockAchievementIn(st: StoreState, id: string, now: int): StoreState {
    st.(achievements := UnlockIn(st.achievements, id, now))
  }

  /**
   * unlockAchievement sets the date only of the matching achievements that
   * have none; an unlock date, once set, is never replaced, so a second
   * call changes nothing.
   */
  lemma UnlockSpec(achievements: seq<Achievement>, id: string, now: int, later: int)
    ensures var r := UnlockIn(achievements, id, now);
      forall j :: 0 <= j < |r| ==>
        && r[j].(dateUnlocked := None) == achievements[j].(dateUnlocked := None)
        && (achievements[j].dateUnlocked.Some? ==> r[j] == achievements[j])
        && (achievements[j].id != id ==> r[j] == achievements[j])
        && (achievements[j].id == id && achievements[j].dateUnlocked.None? ==> r[j].dateUnlocked == Some(now))
    ensures UnlockIn(UnlockIn(achievements, id, now), id, later) == UnlockIn(achievements, id, now)
  {
  }

  // ---------------------------------------------------------------------
  // The persisted-state migration.

  /** The user as it comes out of storage: old snapshots may lack `progressHistory`. */
  datatype PersistedUser = PersistedUser(
    name: string,
    title: string,
    rank: Rank,
    totalXp: int,
    joinDate: int,
    streak: StreakData,
    lastActive: int,
    progressHistory: Option<seq<UserProgress>>)

  /** A persisted snapshot; `user` is absent when the stored blob has none. */
  datatype Snapshot = Snapshot(
    user: Option<PersistedUser>,
    skills: seq<Skill>,
    quests: seq<Quest>,
    achievements: seq<Achievement>,
    domainRanks: map<Domain, Rank>)

  /** Reading `persistedState.user.progressHistory` of a missing user throws a TypeError. */
  datatype MigrateError = UserMissing

  /**
   * `migrate(persistedState, version)`: a version-0 snapshot gets an empty
   * progress history when it has none; every other version is returned as is.
   */
  function Migrate(persisted: Snapshot, version: int): (r: Result<Snapshot, MigrateError>)
    ensures version != 0 ==> r == Success(persisted)
    ensures version == 0 && persisted.user.None? ==> r == Failure(UserMissing)
    ensures version == 0 && persisted.user.Some? ==>
      && r.Success? && r.value.user.Some?
      && r.value.(user := persisted.user) == persisted
      && r.value.user.value.(progressHistory := persisted.user.value.progressHistory) == persisted.user.value
      && r.value.user.value.progressHistory.Some?
      && (persisted.user.value.progressHistory.None? ==> r.value.user.value.progressHistory == Some([]))
      && (persisted.user.value.progressHistory.Some? ==> r.value == persisted)
  {
    if version == 0 then
      match persisted.user
      case None => Failure(UserMissing)
      case Some(u) =>
        Success(persisted.(user := Some(u.(progressHistory := Some(u.progressHistory.GetOr([]))))))
    else Success(persisted)
  }

  /** Migrating a migrated version-0 snapshot again changes nothing. */
  lemma MigrateIdempotent(persisted: Snapshot)
    requires Migrate(persisted, 0).Success?
    ensures Migrate(Migrate(persisted, 0).value, 0) == Migrate(persisted, 0)
  {
  }
}
