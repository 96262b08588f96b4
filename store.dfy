/**
 * The progression store (src/store.ts) as an object whose fields the
 * actions update in place. Each action is proved to produce exactly the
 * state its counterpart in StoreModel describes; the properties of those
 * transitions are the lemmas of StoreModel. `now` stands for `new Date()`.
 */
module Store {
  import opened Wrappers
  import opened Types
  import opened Seqs
  import opened Progression
  import opened StoreModel

  class ProdigyStore {
    var user: UserProfile
    var skills: seq<Skill>
    var quests: seq<Quest>
    var achievements: seq<Achievement>
    var domainRanks: map<Domain, Rank>

    /** The store's data as a value. */
    function State(): StoreState
      reads this
    {
      StoreState(user, skills, quests, achievements, domainRanks)
    }

    ghost predicate Valid()
      reads this
    {
      ValidState(State())
    }

    /** The initial store: a rank-E 'Hunter' with no skills, quests or achievements. */
    constructor (now: int)
      ensures State() == InitialState(now)
      ensures Valid()
    {
      user := UserProfile("Hunter", "Novice Explorer", E, 0, now, StreakData(0, 0, now, false, None, []), now, []);
      skills := [];
      quests := [];
      achievements := [];
      domainRanks := map[Physical := E, Mental := E, Technical := E, Creative := E];
    }

    /** `updateUser(updates)`. */
    method UpdateUser(updates: UserUpdate)
      modifies this
      ensures State() == UpdateUserIn(old(State()), updates)
    {
      user := MergeUser(user, updates);
    }

    /** `addProgressEntry(metrics, notes)`. */
    method AddProgressEntry(metrics: map<string, int>, notes: string, now: int)
      modifies this
      ensures State() == AddProgressEntryTo(old(State()), metrics, notes, now)
    {
      user := user.(progressHistory := user.progressHistory + [UserProgress(now, metrics, notes)]);
    }

    /** `addSkill(skill)`. */
    method AddSkill(skill: Skill)
      modifies this
      ensures State() == AddSkillTo(old(State()), skill)
      ensures old(Valid()) && skill.xpToNextLevel >= 1 ==> Valid()
    {
      skills := skills + [skill];
    }

    /** `updateSkill(id, updates)`. */
    method UpdateSkill(id: string, updates: SkillUpdate)
      modifies this
      ensures State() == UpdateSkillInState(old(State()), id, updates)
    {
      skills := UpdateSkillIn(skills, id, updates);
    }

    /**
     * `addXp(skillId, amount)`: reads the state once, then updates the
     * skill, the user and the domain rank in that order.
     */
    method AddXp(skillId: string, amount: Numeric, now: int)
      requires SkillsWellFormed(skills)
      modifies this
      ensures State() == AddXpTo(old(State()), skillId, amount, now)
      ensures old(Valid()) ==> Valid()
    {
      if Valid() {
        AddXpKeepsValid(State(), skillId, amount, now);
      }
      if AmountRejected(amount) {
        return;
      }
      var state := State();
      var found := FindIndex(state.skills, SkillIdIs(skillId));
      if found.None? {
        return;
      }
      var skill := state.skills[found.value];
      var a := amount.value;
      var p := CalculateLevelProgression(skill.xp + a, skill.level, skill.xpToNextLevel);
      var updatedMetrics := GainedMetrics(skill.metrics, skill.xp + a, a, now);
      UpdateSkill(skillId, XpUpdate(p, updatedMetrics));
      var newTotalXp := state.user.totalXp + a;
      UpdateUser(NoUserChange.(totalXp := Some(newTotalXp), rank := Some(RankOf(newTotalXp))));
      var domainXp := DomainXp(Relevel(state.skills, skillId, p), skill.domain) + a;
      domainRanks := domainRanks[skill.domain := RankOf(domainXp)];
    }

    /** `addQuest(quest)`. */
    method AddQuest(quest: Quest, now: int)
      modifies this
      ensures State() == AddQuestTo(old(State()), quest, now)
    {
      var metrics := QuestMetrics(now, [], ConsequencesOf(quest.metrics));
      quests := quests + [quest.(metrics := Some(metrics))];
    }

    /**
     * `completeQuest(id)`: marks the quest, then awards its XP through
     * `addXp` to the first skill of its domain.
     */
    method CompleteQuest(id: string, now: int)
      requires SkillsWellFormed(skills)
      modifies this
      ensures State() == CompleteQuestIn(old(State()), id, now)
      ensures old(Valid()) ==> Valid()
    {
      var state := State();
      var found := FindIndex(state.quests, QuestIdIs(id));
      if found.None? || state.quests[found.value].completed {
        return;
      }
      var quest := state.quests[found.value];
      quests := MarkCompletedIn(quests, id, now);
      var domainSkills := Filter(state.skills, InDomain(quest.domain));
      if |domainSkills| > 0 {
        AddXp(domainSkills[0].id, Int(quest.xpReward), now);
      }
    }

    /** `unlockAchievement(id)`. */
    method UnlockAchievement(id: string, now: int)
      modifies this
      ensures State() == UnlockAchievementIn(old(State()), id, now)
    {
      achievements := UnlockIn(achievements, id, now);
    }

    /** `calculateRank(domain)`: reads the store, changes nothing. */
    method CalculateRank(domain: Domain) returns (r: Rank)
      ensures r == StoreModel.CalculateRank(State(), domain)
      ensures Threshold(r) <= DomainXp(skills, domain) || (DomainXp(skills, domain) < 0 && r == E)
    {
      var domainSkills := Filter(skills, InDomain(domain));
      var domainXp := Sum(domainSkills, SkillXp);
      r := RankOf(domainXp);
    }

    /** `removeSkill(id)`. */
    method RemoveSkill(id: string)
      modifies this
      ensures State() == RemoveSkillFrom(old(State()), id)
      ensures old(Valid()) ==> Valid()
    {
      if Valid() {
        RemoveSkillKeepsValid(State(), id);
      }
      skills := Filter(skills, SkillIdIsNot(id));
    }

    /** `removeQuest(id)`. */
    method RemoveQuest(id: string)
      modifies this
      ensures State() == RemoveQuestFrom(old(State()), id)
    {
      quests := Filter(quests, QuestIdIsNot(id));
    }
  }
}
