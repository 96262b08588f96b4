/**
 * The entities of the progression store (src/types.ts). Dates are
 * integer timestamps in milliseconds. A field the source declares optional,
 * or that some caller leaves out, is an `Option`.
 */
module Types {
  import opened Wrappers

  /** Ordered tiers E < D < C < B < A < S < SS < SSS. */
  datatype Rank = E | D | C | B | A | S | SS | SSS

  datatype Domain = Physical | Mental | Technical | Creative

  datatype QuestDifficulty = Easy | Medium | Hard

  datatype QuestStatus = Active | Completed | Failed | Expired

  datatype QuestType = Daily | Weekly | Monthly | Chain

  /** The name the source spells each domain with. */
  function DomainName(d: Domain): string {
    match d
    case Physical => "Physical"
    case Mental => "Mental"
    case Technical => "Technical"
    case Creative => "Creative"
  }

  /** One entry of a skill's progress history. */
  datatype SkillProgress = SkillProgress(date: int, value: int, notes: string)

  datatype SkillMetrics = SkillMetrics(
    startDate: int,
    lastUpdated: int,
    progressHistory: seq<SkillProgress>,
    relatedQuests: seq<string>)

  datatype Skill = Skill(
    id: string,
    name: string,
    domain: Domain,
    level: int,
    xp: int,
    xpToNextLevel: int,
    metrics: Option<SkillMetrics>)

  datatype Checkpoint = Checkpoint(date: int, description: string, completed: bool)

  /** The consequence kinds; `PhysicalTask` is the source's 'Physical'. */
  datatype ConsequenceKind = Financial | Assignment | Social | PhysicalTask | Custom

  datatype Consequence = Consequence(kind: ConsequenceKind, details: string)

  datatype QuestMetrics = QuestMetrics(
    startDate: int,
    checkpoints: seq<Checkpoint>,
    consequences: Option<Consequence>)

  /**
   * A quest. `questType`, `status`, `createdAt` and `completionCriteria`
   * are declared required, but the quest form creates quests without them,
   * so they are optional here.
   */
  datatype Quest = Quest(
    id: string,
    title: string,
    description: string,
    domain: Domain,
    difficulty: QuestDifficulty,
    questType: Option<QuestType>,
    xpReward: int,
    coinReward: int,
    completed: bool,
    status: Option<QuestStatus>,
    deadline: Option<int>,
    createdAt: Option<int>,
    completedAt: Option<int>,
    chainId: Option<string>,
    chainPosition: Option<int>,
    completionCriteria: Option<seq<string>>,
    timeLimit: Option<int>,
    metrics: Option<QuestMetrics>)

  datatype Achievement = Achievement(
    id: string,
    title: string,
    description: string,
    icon: string,
    dateUnlocked: Option<int>,
    requirements: string)

  datatype MilestoneReward = MilestoneReward(coins: int, items: Option<seq<string>>)

  datatype Milestone = Milestone(days: int, reward: MilestoneReward, claimed: bool)

  datatype StreakData = StreakData(
    current: int,
    longest: int,
    lastUpdated: int,
    freezeActive: bool,
    freezeExpiresAt: Option<int>,
    milestones: seq<Milestone>)

  /** One entry of the user's own progress history. */
  datatype UserProgress = UserProgress(date: int, metrics: map<string, int>, notes: string)

  /** The user fields the store initialises and updates. */
  datatype UserProfile = UserProfile(
    name: string,
    title: string,
    rank: Rank,
    totalXp: int,
    joinDate: int,
    streak: StreakData,
    lastActive: int,
    progressHistory: seq<UserProgress>)
}
