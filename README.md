# Prodigy Protocol progression core in Dafny

Prodigy Protocol is a gamified self-improvement app. A user levels up
skills in four domains (Physical, Mental, Technical, Creative), completes
quests for XP and climbs a rank ladder from E to SSS. This project models
three parts of it:

- the app's progression store (`src/store.ts`);
- the decision rules the pages and components run over that store;
- role-based access control.

**The store** is the class `Store.ProdigyStore`. Its fields are `user`,
`skills`, `quests`, `achievements` and `domainRanks`, and its methods update
them as the store's actions do.

- Each method is proved to leave exactly the state that a pure transition
  in `StoreModel` describes.
- The properties the store promises are lemmas about those transitions.
  Among them: `addXp` is a no-op on a rejected amount or an unknown skill;
  it levels the skill up, raises the total XP and re-ranks a single domain.
  `completeQuest` runs at most once per quest. Adding a skill or a quest
  appends exactly one entry, removal drops every entry with that id, and
  nothing else changes.
- An achievement is unlocked only once.
- The persisted-state migration fills in a missing progress history.

**The rank and level rules** are in `Progression`:

- the step function from XP to rank;
- the split of XP into level-ups and a remainder below the threshold;
- the threshold's growth by 1.2 per level, computed exactly.

**The page and component rules** each have their own module, named after
the file they come from:

- the role hierarchy (`Auth`);
- the route guard (`ProtectedRoute`);
- on the dashboard: the next-rank table, the daily streak rollover,
  today's quests, the top four skills, the reset countdown and the mount
  effect that seeds sample skills (`Dashboard`);
- the quest form and the quest filters (`QuestsPage`);
- the streak milestones and tiers (`StreakCounter`);
- in the shop: the category filter, the active-item rule, the boost time
  left and the purchase effect (`Shop`);
- the completion-criteria checklist of a quest card (`EnhancedQuestCard`),
  a class over a boolean `array`;
- the domain page's name normalisation, statistics and "add skill" action
  (`DomainView`);
- the active-link rule (`NavigationLink`);
- the sign-in form validator and query-parameter effect (`AuthPage`).

**Conventions:**

- Timestamps are integer milliseconds. A calendar day is `t / 86400000`.
- JavaScript values that can be NaN or non-numbers are the datatype
  `Numeric`.
- A property that JavaScript may leave out is an `Option`.
- `new Date()` and `uuidv4()` are parameters (`now`, `id`).
- The answer to `prompt` is a parameter, and so is the boolean result of
  the store's `purchaseItem`.

The shared helpers are in three modules:

- `Wrappers`: `Option`, `Result`, `Numeric`;
- `Seqs`: filter, first-index, sums, the maximum, subsequences;
- `Strings`: ASCII case conversion, `trim`, `startsWith`, `includes`,
  decimal rendering.

## Model

| member | source | states |
|---|---|---|
| `Progression.CalculateRankFromXp` | src/store.ts:46-56 | E for a non-number, NaN or negative input; otherwise the rank's threshold is at most xp and every higher rank's threshold exceeds it |
| `Progression.ThresholdStrictlyIncreasing` | src/store.ts:48-54 | the thresholds 0/250/750/1500/3000/5000/7500/10000 grow strictly with the rank order |
| `Progression.RankMonotone` | src/store.ts:46-56 | more XP never gives a lower rank |
| `Progression.RankAtThreshold` | src/store.ts:48-55 | each threshold maps to its own rank, and one XP less maps to a lower rank |
| `Progression.RankBoundaries` | src/store.ts:47-55 | 249→E, 250→D, 9999→SS, 10000→SSS; NaN, a non-number and -1 give E |
| `Progression.CalculateLevelProgression` | src/store.ts:59-68 | negative xp keeps level and threshold and leaves 0 remaining; otherwise xp = levelUps·t + remaining with 0 ≤ remaining < t, and the new threshold is ⌊t·1.2^levelUps⌋ ≥ t |
| `Progression.GrownThresholdAtLeast` | src/store.ts:65 | growing a threshold by 1.2 per level-up never makes it smaller, and zero level-ups keep it |
| `Progression.LevelProgressionUnique` | src/store.ts:62-64 | the split of xp into level-ups and a remainder below t is the only one possible |
| `StoreModel.InitialState` | src/store.ts:72-90 | the initial store is valid, has no skills, quests or achievements, ranks every domain E and gives the user rank E with 0 XP |
| `StoreModel.MergeUser` | src/store.ts:92-95 | the spread `{ ...user, ...updates }`; its field laws are stated by `StoreModel.MergeUserSpec` |
| `StoreModel.MergeUserSpec` | src/store.ts:92-95 | the spread update takes each field given and keeps each one left out; an empty update changes nothing, and applying one twice equals applying it once |
| `StoreModel.UpdateSkillIn` | src/store.ts:147-152 | the map over the skills keeps the list's length; the per-skill laws are stated by `StoreModel.UpdateSkillSpec` |
| `StoreModel.UpdateSkillSpec` | src/store.ts:147-152 | only skills with that id change; they take the given fields and keep the others; an empty update is the identity; updating twice equals updating once; a positive threshold keeps skills well formed |
| `StoreModel.RemoveSkillFrom` | src/store.ts:278-281 | the filter by id; specified by `StoreModel.RemoveSkillSpec` |
| `StoreModel.RemoveSkillSpec` | src/store.ts:278-281 | no skill with the id remains, every other skill keeps its multiplicity and order, and the rest of the state is unchanged |
| `StoreModel.RemoveSkillKeepsValid` | src/store.ts:278-281 | removing skills keeps the store's invariant |
| `StoreModel.GuardAdmitsNaN` | src/store.ts:154 | the guard as written lets NaN through, while the corrected guard rejects it; the two agree on every other input |
| `StoreModel.AddXpNoOp` | src/store.ts:154-160 | a rejected amount, or a skill id that no skill has, leaves the whole state unchanged |
| `StoreModel.AddXpTo` | src/store.ts:154-212 | the addXp transition; specified by `StoreModel.AddXpNoOp`, `StoreModel.AddXpTargetSkill`, `StoreModel.AddXpOtherSkills`, `StoreModel.AddXpUser`, `StoreModel.AddXpDomainRanks` and `StoreModel.AddXpKeepsValid` |
| `StoreModel.AddXpTargetSkill` | src/store.ts:162-188 | the first skill with the id keeps its identity, its level does not decrease, 0 ≤ xp < xpToNextLevel, the threshold does not shrink, it gains exactly one history entry with value oldXp+amount, and the level-ups times the old threshold plus the new xp equal oldXp+amount |
| `StoreModel.AddXpOtherSkills` | src/store.ts:183-188 | every skill with another id, the quests and the achievements are unchanged |
| `StoreModel.AddXpUser` | src/store.ts:190-195 | totalXp rises by exactly amount, the rank becomes the rank of the new total, and no other user field changes |
| `StoreModel.AddXpDomainRanks` | src/store.ts:197-211 | only the skill's domain is re-ranked, to the rank of that domain's XP after the update plus amount |
| `StoreModel.CalculateRank` | src/store.ts:271-276 | the rank of the domain's XP sum; related to addXp by `StoreModel.AddXpDomainRankAtLeastCalculated` |
| `StoreModel.AddXpDomainRankAtLeastCalculated` | src/store.ts:198-211 | the stored domain rank after addXp is at least what calculateRank gives for that domain |
| `StoreModel.AddXpKeepsValid` | src/store.ts:154-212 | addXp keeps the store's invariant: positive thresholds and a rank for each of the four domains |
| `StoreModel.AddQuestTo` | src/store.ts:214-224 | the addQuest transition; specified by `StoreModel.AddQuestSpec` |
| `StoreModel.AddQuestSpec` | src/store.ts:214-224 | appends exactly one quest, equal to the given one except for its metrics; the metrics carry no checkpoints but keep the consequences; nothing else changes |
| `StoreModel.CompleteQuestIn` | src/store.ts:226-260 | the completeQuest transition; specified by the `StoreModel.CompleteQuest…` lemmas |
| `StoreModel.CompleteQuestNoOp` | src/store.ts:227-230 | an unknown id or an already-completed quest leaves the state unchanged |
| `StoreModel.CompleteQuestMakesDone` | src/store.ts:226-260 | after completeQuest the first quest with that id, if there is one, is completed |
| `StoreModel.CompleteQuestIdempotent` | src/store.ts:226-260 | a second completeQuest with the same id changes nothing |
| `StoreModel.CompleteQuestMarks` | src/store.ts:233-252 | the quests with the id become completed and gain exactly one checkpoint, and keep every other field; all other quests are unchanged |
| `StoreModel.CompleteQuestAwardsXp` | src/store.ts:254-259 | the user's totalXp rises by the first matching quest's xpReward exactly when the reward is positive and some skill is in the quest's domain; otherwise it is unchanged |
| `StoreModel.CompleteQuestCreditsFirstDomainSkill` | src/store.ts:254-258 | the reward goes through addXp to the first skill of the quest's domain: skills, domain ranks and user end up exactly as that addXp leaves them; with no skill in the domain they are unchanged |
| `StoreModel.RemoveQuestFrom` | src/store.ts:283-286 | the filter by id; specified by `StoreModel.RemoveQuestSpec` |
| `StoreModel.RemoveQuestSpec` | src/store.ts:283-286 | no quest with the id remains, every other quest keeps its multiplicity and order, and the rest of the state is unchanged |
| `StoreModel.UnlockIn` | src/store.ts:262-269 | the map over the achievements keeps the list's length; specified by `StoreModel.UnlockSpec` |
| `StoreModel.UnlockSpec` | src/store.ts:262-269 | only a matching achievement without an unlock date gets one, and nothing else in any achievement changes; a second unlock changes nothing |
| `StoreModel.Migrate` | src/store.ts:291-303 | a version other than 0 returns the state unchanged; version 0 fails without a user, and otherwise only the user's progressHistory changes, set to [] when missing and kept when present |
| `StoreModel.MigrateIdempotent` | src/store.ts:291-303 | migrating a migrated state again gives the same state |
| `Store.ProdigyStore.constructor` | src/store.ts:72-90 | the new store holds exactly the initial state and satisfies the invariant |
| `Store.ProdigyStore.UpdateUser` | src/store.ts:92-95 | the new state is the spread update of the user |
| `Store.ProdigyStore.AddProgressEntry` | src/store.ts:127-140 | the new state appends one dated entry to the user's progress history |
| `Store.ProdigyStore.AddSkill` | src/store.ts:142-145 | the new state appends the skill, and the invariant holds afterwards when the skill's threshold is positive |
| `Store.ProdigyStore.UpdateSkill` | src/store.ts:147-152 | the new state is updateSkill's transition |
| `Store.ProdigyStore.AddXp` | src/store.ts:154-212 | the skill, user and domain-rank updates run in sequence and leave exactly addXp's transition, with the invariant kept |
| `Store.ProdigyStore.AddQuest` | src/store.ts:214-224 | the new state is addQuest's transition |
| `Store.ProdigyStore.CompleteQuest` | src/store.ts:226-260 | marking the quest and then the nested addXp leave exactly completeQuest's transition, with the invariant kept |
| `Store.ProdigyStore.UnlockAchievement` | src/store.ts:262-269 | the new state is unlockAchievement's transition |
| `Store.ProdigyStore.CalculateRank` | src/store.ts:271-276 | changes nothing and returns the rank of the domain's XP sum, whose threshold that sum reaches when it is non-negative |
| `Store.ProdigyStore.RemoveSkill` | src/store.ts:278-281 | the new state is removeSkill's transition, with the invariant kept |
| `Store.ProdigyStore.RemoveQuest` | src/store.ts:283-286 | the new state is removeQuest's transition |
| `Auth.IndexOf` | src/lib/auth.ts:268-269 | returns the first position of the role in the hierarchy, or -1 exactly when the role is absent |
| `Auth.HasPermission` | src/lib/auth.ts:266-272 | the level comparison; specified by the `Auth` lemmas below |
| `Auth.RoleLevels` | src/lib/auth.ts:267-269 | guest/user/premium/admin sit at levels 0..3, and a role is known exactly when its level is non-negative |
| `Auth.PermissionReflexive` | src/lib/auth.ts:266-272 | every role is permitted for itself |
| `Auth.AdminAndGuest` | src/lib/auth.ts:267-271 | admin is permitted for every role; for a known role, guest is permitted only for guest |
| `Auth.PermissionMonotone` | src/lib/auth.ts:267-271 | a role at or above a permitted role is permitted too |
| `Auth.UnknownRoles` | src/lib/auth.ts:268-271 | an unknown required role is always permitted; an unknown user role is denied every known required role |
| `Auth.PermissionTotalOrder` | src/lib/auth.ts:267-271 | between two known roles at least one direction holds, and both hold only for equal roles |
| `ProtectedRoute.Decide` | src/components/ProtectedRoute.tsx:17-57 | the four-way outcome of the guard; specified by the `ProtectedRoute` lemmas below |
| `ProtectedRoute.SignedOutRedirects` | src/components/ProtectedRoute.tsx:20-23 | when signed out and without a profile role, the user is redirected to /auth whatever the required role and fallback |
| `ProtectedRoute.RendersChildrenIffPermitted` | src/components/ProtectedRoute.tsx:25-57 | past the sign-in check, the children are rendered exactly when hasPermission holds |
| `ProtectedRoute.DeniedOutcome` | src/components/ProtectedRoute.tsx:29-54 | without permission: the fallback is shown if given; otherwise a guest goes to /auth and any other role sees the access-denied view |
| `ProtectedRoute.Defaults` | src/components/ProtectedRoute.tsx:14-27 | the required role defaults to 'user', and a missing profile role acts as 'guest' |
| `Dashboard.NextRankOf` | src/pages/Dashboard.tsx:104-112 | the next rank is the successor in E<…<SSS, and only SSS maps to MAX |
| `Dashboard.XpForNextRank` | src/pages/Dashboard.tsx:114-121 | the threshold table of the next rank; specified by `Dashboard.XpForNextRankIsLeast` |
| `Dashboard.XpForNextRankIsLeast` | src/pages/Dashboard.tsx:114-121 | for a real next rank, the value is the least XP the rank function maps to that rank; for MAX it is the user's totalXp |
| `Dashboard.StreakRollover` | src/pages/Dashboard.tsx:74-90 | the new-day streak update; specified by `Dashboard.StreakRolloverSpec` and `Dashboard.StreakRolloverOncePerDay` |
| `Dashboard.StreakRolloverSpec` | src/pages/Dashboard.tsx:74-90 | on the same day nothing changes; the day after, the streak grows by one; later it resets to 1; lastActive and lastUpdated become now, and no other field changes |
| `Dashboard.StreakRolloverOncePerDay` | src/pages/Dashboard.tsx:74-90 | a second rollover on the same calendar day changes nothing |
| `Dashboard.TodayQuests` | src/pages/Dashboard.tsx:94-98 | only daily, active, uncompleted quests are kept |
| `Dashboard.TodayQuestsSpec` | src/pages/Dashboard.tsx:94-98 | exactly the daily, active, uncompleted quests, with their multiplicities, in their original order |
| `Dashboard.SortByLevel` | src/pages/Dashboard.tsx:101 | a stable insertion sort by descending level; specified by `Dashboard.SortByLevelSpec` |
| `Dashboard.SortByLevelSpec` | src/pages/Dashboard.tsx:101 | the sort orders skills by non-increasing level and is a permutation |
| `Dashboard.TopSkills` | src/pages/Dashboard.tsx:101 | the first four of the sorted skills; specified by `Dashboard.TopSkillsSpec` |
| `Dashboard.TopSkillsSpec` | src/pages/Dashboard.tsx:101 | at most 4 skills, drawn from the skills, in non-increasing level, with no skill left out that has a higher level than the fourth |
| `Dashboard.MsUntilReset` | src/pages/Dashboard.tsx:124-128 | the time to the next midnight: positive, at most one day, and `now` plus it is the start of a day, which pins it to the next midnight |
| `Dashboard.ResetCountdown` | src/pages/Dashboard.tsx:124-130 | the hours and minutes until the reset; specified by `Dashboard.ResetCountdownSpec` |
| `Dashboard.ResetCountdownSpec` | src/pages/Dashboard.tsx:128-130 | minutes < 60, hours ≤ 24, and hours and minutes are the whole hours and minutes of the time to midnight |
| `Dashboard.SampleSkills` | src/pages/Dashboard.tsx:36-70 | four well-formed sample skills with the given ids |
| `Dashboard.MountTransition` | src/pages/Dashboard.tsx:34-90 | the seeding and the rollover as one transition; specified by `Dashboard.MountTransitionSpec` |
| `Dashboard.MountTransitionSpec` | src/pages/Dashboard.tsx:34-90 | sample skills are seeded only into an empty list; the invariant is kept; only skills and user change; mounting again on the same day changes nothing |
| `Dashboard.MountEffect` | src/pages/Dashboard.tsx:34-90 | the addSkill and updateUser calls leave exactly the mount transition's state |
| `QuestsPage.CoinReward` | src/pages/Quests.tsx:28-31 | every difficulty earns a positive number of coins |
| `QuestsPage.CoinRewardIncreasing` | src/pages/Quests.tsx:29 | Easy < Medium < Hard |
| `QuestsPage.XpRewardOf` | src/pages/Quests.tsx:39 | the reward is never zero, and a non-zero number is kept |
| `QuestsPage.XpRewardDefault` | src/pages/Quests.tsx:39 | zero, NaN and a missing reward become 50, as does the form's initial value, and defaulting a defaulted reward changes nothing |
| `QuestsPage.NewQuest` | src/pages/Quests.tsx:26-42 | no quest when the title or the description is empty; otherwise an uncompleted quest with the form's fields, the difficulty's coins and the defaulted XP |
| `QuestsPage.QuestBoard.constructor` | src/pages/Quests.tsx:14-23 | the form starts at its defaults and is hidden |
| `QuestsPage.QuestBoard.HandleAddQuest` | src/pages/Quests.tsx:25-53 | an incomplete form changes nothing; otherwise the quest is added and the form is reset and hidden |
| `QuestsPage.QuestMatches` | src/pages/Quests.tsx:56-68 | the three filters of the quest list; specified by `QuestsPage.QuestMatchesSpec` |
| `QuestsPage.FilteredQuests` | src/pages/Quests.tsx:56-68 | every quest kept is one of the quests and passes all three filters |
| `QuestsPage.FilteredQuestsSpec` | src/pages/Quests.tsx:56-68 | an order-preserving subsequence holding exactly the matching quests with their multiplicities |
| `QuestsPage.QuestMatchesSpec` | src/pages/Quests.tsx:57-67 | active excludes completed and completed keeps only completed; 'all' applies no condition; a domain filter keeps only its domain; search is substring containment of the lower-cased term in the lower-cased title, and the empty term matches all; the three filters combine by conjunction |
| `QuestsPage.SearchIgnoresCase` | src/pages/Quests.tsx:65 | the match does not depend on the case of the term or of the title |
| `StreakCounter.NextMilestone` | src/components/StreakCounter.tsx:11-13 | the first unclaimed milestone with more days than the current streak, in list order, or none exactly when no milestone qualifies |
| `StreakCounter.DaysToNext` | src/components/StreakCounter.tsx:15-16 | positive when a next milestone exists, 0 otherwise |
| `StreakCounter.StylesFollowTier` | src/components/StreakCounter.tsx:18-30 | the color and the flame intensity are both determined by the tier of thresholds 100/30/7, and each tells tiers apart |
| `StreakCounter.TierMonotone` | src/components/StreakCounter.tsx:18-30 | a longer streak never has a lower tier |
| `Shop.FilteredItems` | src/pages/Shop.tsx:53-55 | the category filter; specified by `Shop.FilteredItemsSpec` |
| `Shop.FilteredItemsSpec` | src/pages/Shop.tsx:53-55 | 'all' returns every item; another category returns exactly the items of that type, in order |
| `Shop.IsItemActive` | src/pages/Shop.tsx:94-110 | the per-type activity rule; specified by `Shop.ExpiredBoostsNeverCount` and `Shop.OtherItemTypes` |
| `Shop.ExpiredBoostsNeverCount` | src/pages/Shop.tsx:94-99 | dropping boosts that have expired changes no item's active status, and an item active now was active at every earlier time |
| `Shop.OtherItemTypes` | src/pages/Shop.tsx:100-109 | streak_freezer follows the freeze flag, frame the equipped frame, badge the equipped badges, and any other type is never active |
| `Shop.ActiveBoostTimeLeft` | src/pages/Shop.tsx:112-123 | none without a boost of that id, or when the first such boost's remaining ms ≤ 0; otherwise the whole hours and the minutes (< 60) of the remaining time |
| `Shop.TimeLeftImpliesActive` | src/pages/Shop.tsx:94-123 | a boost item showing time left is active |
| `Shop.TimeLeftFirstBoostOnly` | src/pages/Shop.tsx:112-117 | an expired first boost with the id hides a live second one: the item is active yet shows no time left |
| `Shop.CanAfford` | src/pages/Shop.tsx:218 | coins at least the cost; specified by `Shop.CanAffordMonotone` and `Shop.ItemCardActionsSpec` |
| `Shop.CanAffordMonotone` | src/pages/Shop.tsx:218 | more coins or a lower price never make an affordable item unaffordable |
| `Shop.ItemCardActions` | src/pages/Shop.tsx:283-310 | the action area of an item card; specified by `Shop.ItemCardActionsSpec` |
| `Shop.ItemCardActionsSpec` | src/pages/Shop.tsx:283-310 | an item not owned gets a purchase button, enabled and captioned "Purchase" exactly when the user can afford it; an owned frame or badge offers Equip exactly while it is not active |
| `Shop.HandlePurchase` | src/pages/Shop.tsx:57-66 | a failed purchase has no effect; a successful one starts and later clears the purchase animation |
| `Shop.AutoActivateIff` | src/pages/Shop.tsx:62-65 | auto-activation of this item is scheduled exactly when the purchase succeeded and it is an xp_booster, coin_multiplier or streak_freezer |
| `EnhancedQuestCard.Toggled` | src/components/EnhancedQuestCard.tsx:19-22 | the copy keeps the length, flips slot i and keeps every other slot |
| `EnhancedQuestCard.ToggleTwice` | src/components/EnhancedQuestCard.tsx:19-22 | toggling the same slot twice restores the checklist |
| `EnhancedQuestCard.IsExpired` | src/components/EnhancedQuestCard.tsx:66 | status expired or failed; used by `EnhancedQuestCard.CompleteButtonSpec` |
| `EnhancedQuestCard.CompleteButtonSpec` | src/components/EnhancedQuestCard.tsx:156-159 | the button is shown only for a quest neither completed nor expired/failed; it is enabled vacuously for no criteria and disabled while any criterion is unchecked; an expired quest also disables the toggles |
| `EnhancedQuestCard.Card.constructor` | src/components/EnhancedQuestCard.tsx:14-17 | one unchecked slot per completion criterion, with no coin animation |
| `EnhancedQuestCard.Card.HandleComplete` | src/components/EnhancedQuestCard.tsx:30-33 | the coin animation starts and the store completes the quest |
| `EnhancedQuestCard.Card.HandleCriteriaToggle` | src/components/EnhancedQuestCard.tsx:19-28 | a fresh copy of the array with exactly slot i flipped; the quest is completed exactly when every slot is now true, and otherwise nothing else changes |
| `DomainView.Capitalize` | src/pages/DomainView.tsx:15 | first character upper-cased, the rest lower-cased, keeping the length; specified by the lemmas below |
| `DomainView.FormattedDomain` | src/pages/DomainView.tsx:12-15 | the route parameter, defaulted to 'physical', then capitalised; specified by `DomainView.DefaultDomain` and `DomainView.FormattedDomainSpec` |
| `DomainView.CapitalizeIgnoresCase` | src/pages/DomainView.tsx:15 | the formatted name does not depend on the case of the route parameter |
| `DomainView.CapitalizeIdempotent` | src/pages/DomainView.tsx:15 | formatting a formatted name changes nothing |
| `DomainView.DefaultDomain` | src/pages/DomainView.tsx:12-15 | a missing parameter formats to 'Physical' |
| `DomainView.FormattedDomainSpec` | src/pages/DomainView.tsx:12-15 | any casing of a domain's name formats to that domain |
| `DomainView.ParseDomain` | src/pages/DomainView.tsx:58 | a name is a domain exactly when it spells one of the four domain names |
| `DomainView.ViewDomain` | src/pages/DomainView.tsx:20-28 | the page's domain statistics, or none when the page cannot render; specified by `DomainView.ViewDomainSpec` and `DomainView.ViewDomainUnknown` |
| `DomainView.ViewDomainSpec` | src/pages/DomainView.tsx:20-28 | the skills of the domain and its open quests, in order; totalXp ranks like calculateRank; highestLevel is ≥ 0, ≥ every shown level, and is one of them unless it is 0 |
| `DomainView.ViewDomainUnknown` | src/pages/DomainView.tsx:15-58 | the page renders exactly when the formatted parameter names a domain, and with no parameter it shows Physical |
| `DomainView.PromptedSkill` | src/pages/DomainView.tsx:62-71 | no skill exactly for an empty or cancelled prompt; otherwise a well-formed skill with the generated id, the prompted non-empty name and the page's domain, starting at level 1 with 0 of 100 XP and no metrics |
| `DomainView.HandleAddSkill` | src/pages/DomainView.tsx:61-73 | an empty or cancelled prompt leaves the store unchanged; otherwise the skill is added, with the invariant kept |
| `NavigationLink.IsActive` | src/components/NavigationLink.tsx:26-27 | the active-link rule; specified by `NavigationLink.IsActiveSpec` |
| `NavigationLink.IsActiveSpec` | src/components/NavigationLink.tsx:26-27 | a link is active on its own path; '/' only on exactly '/'; any other target exactly on paths beginning with it |
| `NavigationLink.PrefixNotSegment` | src/components/NavigationLink.tsx:27 | '/quest' is active on '/quests', while '/' is not |
| `NavigationLink.HandleClick` | src/components/NavigationLink.tsx:29-33 | the default is prevented first, onClick runs exactly when given, and navigation to the target is the last effect and happens once |
| `AuthPage.ValidateForm` | src/pages/AuthPage.tsx:61-84 | the form validates exactly when there is no error message |
| `AuthPage.ValidateFormIsFirstFailure` | src/pages/AuthPage.tsx:61-83 | the message is that of the first failing rule, and validation succeeds exactly when no rule fails |
| `AuthPage.ValidateFormByMode` | src/pages/AuthPage.tsx:62-81 | reset always validates; guest needs only an email; sign-up checks a blank full name before the password match; sign-in needs an email and a password of at least 6 characters |
| `AuthPage.QueryParamEffect` | src/pages/AuthPage.tsx:40-52 | the first effect's writes to mode and message; specified by `AuthPage.QueryParamEffectSpec` |
| `AuthPage.QueryParamEffectSpec` | src/pages/AuthPage.tsx:40-52 | an error parameter sets an error message from error_description or else error, and takes precedence; otherwise type=recovery switches to reset with the info message; otherwise nothing changes; applying the effect twice equals applying it once |

## Left out

- The store actions whose code is not part of the shown store: coins, boosts, streak milestones, penalties, `failQuest`, `purchaseItem`, `activateItem`, `refreshDailyQuests`, `getDomainProgress`, `initializeShop`, `setAuthUser` and `clearAuth`. Pages call them, but their bodies do not exist. The Dashboard mount effect is therefore modelled from its sample-skill seeding on. The outcome of `purchaseItem` is a parameter of `Shop.HandlePurchase`, and `activateItem` appears only as a scheduled effect.
- `updatePersonalProfile`, `updateHealthMetrics`, `updateProfessionalGoals`, `updateLearningPreferences`, `updateAccountabilitySettings` and `updateCommunicationPreferences` are left out. Each stores an opaque payload in one user field, and nothing reads it back in the core.
- Progression.CalculateRankFromXp: JavaScript numbers are modelled as integers plus NaN and non-numbers. Fractional XP, Infinity and the loss of precision above 2^53 are not represented.
- Progression.CalculateLevelProgression: takes integer XP only. With Infinity (which passes the addXp guard, since `Infinity <= 0` is false) the source computes Infinity level-ups; with a fraction it keeps a fractional remainder. The model represents neither.
- StoreModel.AddXpTo: the amount is an integer. `addXp(id, 2.5)` and `addXp(id, Infinity)` pass the source guard but cannot be expressed, so fractional totals and infinite levels are not modelled.
- `Progression.CalculateLevelProgression`: `Math.floor(t * Math.pow(1.2, k))` is computed exactly as ⌊t·6^k/5^k⌋. In floating point, JavaScript can land one below the exact value when the exact product is an integer.
- `Progression.CalculateLevelProgression` and `StoreModel.AddXpTo` require a positive threshold. The source divides by `xpToNextLevel`; with 0 it produces Infinity and NaN values, which the model does not represent. The store invariant (positive thresholds) is proved to be kept by every action.
- `Store.ProdigyStore.AddXp` and `Store.ProdigyStore.CompleteQuest` require well-formed skills for the same reason.
- `StoreModel.AddXpTo` models the corrected amount guard; see Findings. The NaN path that the guard as written admits is not followed further. It would leave NaN in the skill, the total XP and the rank inputs.
- The initial `user.streak` is the number 0, not a streak record. The model stores a zero `StreakData`. In the source, the Dashboard rollover would then read `.current` of a number and build a streak of `NaN + 1` or 1.
- `completeQuest` sets neither `status` nor `completedAt`. The model follows the code, so `Dashboard.TodayQuests` still checks `completed` separately.
- Calendar days are UTC-like (`t / 86400000`), and the reset countdown runs to the next multiple of a day. Local time zones, daylight saving and `setDate` month arithmetic are left out.
- One `now` stands for all the `new Date()` calls inside one action. In the source they can differ by a few milliseconds.
- Case conversion is ASCII only. Lengths count code points, where JavaScript counts UTF-16 units; this matters only for the length-6 password rule.
- A spread over an explicitly `undefined` field overwrites the field in the source. The model's `Option` does not distinguish "absent" from "present but undefined".
- `streak.longest` is not updated by the Dashboard rollover, in the source or the model.
- `Dashboard.TopSkillsSpec` does not state the stability of the sort. The model's insertion sort is stable, as `Array.prototype.sort` is.
- `StoreModel.Migrate`: a progress history that is present but falsy (for example `null` or `0`) is replaced by `[]` in the source. The model treats every present history as kept.
- `EnhancedQuestCard.Card.constructor` requires `completionCriteria`, because the card reads its length and throws on a quest without it. Quests created from the quest form have none.
- `DomainView.ViewDomain` returns `None` for a route parameter naming no domain, because the page crashes rendering `colors.light` of undefined.
- React rendering: a falsy fallback node (for example `0` or `''`) counts as no fallback in `ProtectedRoute`, and the model's `Option` fallback does not capture this.
- The Shop page's items use the fields `type` and `cost`, while the `ShopItem` of `src/types.ts` declares `price` and `effect.type`. The model follows the page.
- The expired-boost cleanup effect in the Shop page computes the expired boosts and then does nothing. `Shop.ExpiredBoostsNeverCount` shows that dropping them would change no active status.
- Timers (`setTimeout` delays), the completion sound, DOM events, display labels, percentages, geometry, network and Supabase calls, persistence middleware and the reactive subscription are left out.

## Findings

| source | as written | input that shows it | evidently intended | confidence | as-written member | corrected member |
|---|---|---|---|---|---|---|
| src/store.ts:154 | `typeof amount !== 'number' \|\| amount <= 0` rejects non-numbers and non-positive numbers, but `NaN <= 0` is false, so NaN passes | `addXp(id, NaN)` for an existing skill | reject NaN like any other invalid amount, leaving the state unchanged | not executed | `StoreModel.AmountRejectedAsWritten` (shown by `StoreModel.GuardAdmitsNaN`) | `StoreModel.AmountRejected` (used by `StoreModel.AddXpTo`; `StoreModel.AddXpNoOp` proves the no-op) |
