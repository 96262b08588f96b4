/**
 * The quest board (src/pages/Quests.tsx): the coin table by difficulty,
 * the add-quest form handler and the list filter over status, domain and
 * a case-insensitive title search.
 */
module QuestsPage {
  import opened Wrappers
  import opened Types
  import opened Seqs
  import opened Strings
  import opened StoreModel
  import opened Store

  /** `getCoinReward`. */
  function CoinReward(d: QuestDifficulty): (c: int)
    ensures c > 0
  {
    match d
    case Easy => 15
    case Medium => 35
    case Hard => 75
  }

  /** Harder quests pay more coins. */
  lemma CoinRewardIncreasing()
    ensures CoinReward(Easy) < CoinReward(Medium) < CoinReward(Hard)
  {
  }

  /** The form's fields; `xpReward` holds `parseInt` of the input, NaN for a non-number. */
  datatype QuestForm = QuestForm(
    title: string,
    description: string,
    domain: Domain,
    difficulty: QuestDifficulty,
    xpReward: Numeric)

  const EmptyForm: QuestForm := QuestForm("", "", Physical, Medium, Int(50))

  /** `newQuest.xpReward || 50`: zero, NaN and a missing value all mean 50. */
  function XpRewardOf(x: Numeric): (r: int)
    ensures r != 0
    ensures x.Int? && x.value != 0 ==> r == x.value
  {
    if x.Int? && x.value != 0 then x.value else 50
  }

  /**
   * Every falsy reward (zero, NaN, a missing value) becomes 50, as does the
   * form's initial value, and defaulting a defaulted reward changes nothing.
   */
  lemma XpRewardDefault(x: Numeric)
    ensures XpRewardOf(Int(0)) == 50 && XpRewardOf(NaN) == 50 && XpRewardOf(NotNumber) == 50
    ensures XpRewardOf(EmptyForm.xpReward) == 50
    ensures XpRewardOf(Int(XpRewardOf(x))) == XpRewardOf(x)
  {
  }

  /** The quest the form submits, or None when the title or description is empty; `id` is the generated uuid. */
  function NewQuest(form: QuestForm, id: string): (r: Option<Quest>)
    ensures r.None? <==> form.title == "" || form.description == ""
    ensures r.Some? ==>
      && r.value.id == id && r.value.title == form.title && r.value.description == form.description
      && r.value.domain == form.domain && r.value.difficulty == form.difficulty
      && !r.value.completed
      && r.value.xpReward == XpRewardOf(form.xpReward)
      && r.value.coinReward == CoinReward(form.difficulty)
      && r.value.questType.None? && r.value.status.None? && r.value.metrics.None?
  {
    if form.title == "" || form.description == "" then None
    else
      Some(Quest(id, form.title, form.description, form.domain, form.difficulty, None,
        XpRewardOf(form.xpReward), CoinReward(form.difficulty), false, None,
        None, None, None, None, None, None, None, None))
  }

  /** The page's form state. */
  class QuestBoard {
    var newQuest: QuestForm
    var showAddForm: bool

    constructor ()
      ensures newQuest == EmptyForm && !showAddForm
    {
      newQuest := EmptyForm;
      showAddForm := false;
    }

    /**
     * `handleAddQuest`: with an empty title or description nothing
     * happens; otherwise the quest is added to the store, the form is
     * reset and closed.
     */
    method HandleAddQuest(store: ProdigyStore, id: string, now: int)
      modifies this, store
      ensures NewQuest(old(newQuest), id).None? ==>
        store.State() == old(store.State()) && newQuest == old(newQuest) && showAddForm == old(showAddForm)
      ensures NewQuest(old(newQuest), id).Some? ==>
        && store.State() == AddQuestTo(old(store.State()), NewQuest(old(newQuest), id).value, now)
        && newQuest == EmptyForm && !showAddForm
    {
      var quest := NewQuest(newQuest, id);
      if quest.None? {
        return;
      }
      store.AddQuest(quest.value, now);
      newQuest := EmptyForm;
      showAddForm := false;
    }
  }

  // ---------------------------------------------------------------------
  // filteredQuests

  datatype StatusFilter = AllQuests | ActiveOnly | CompletedOnly

  datatype DomainFilter = AllDomains | OnlyDomain(domain: Domain)

  /** The filter callback: status, then domain, then the search term. */
  predicate QuestMatches(q: Quest, status: StatusFilter, domainFilter: DomainFilter, searchTerm: string) {
    && !(status == ActiveOnly && q.completed)
    && !(status == CompletedOnly && !q.completed)
    && !(domainFilter.OnlyDomain? && q.domain != domainFilter.domain)
    && !(searchTerm != "" && !Includes(ToLower(q.title), ToLower(searchTerm)))
  }

  function Matcher(status: StatusFilter, domainFilter: DomainFilter, searchTerm: string): Quest -> bool {
    (q: Quest) => QuestMatches(q, status, domainFilter, searchTerm)
  }

  /** `filteredQuests`. */
  function FilteredQuests(quests: seq<Quest>, status: StatusFilter, domainFilter: DomainFilter, searchTerm: string): (r: seq<Quest>)
    ensures forall q :: q in r ==> q in quests && QuestMatches(q, status, domainFilter, searchTerm)
  {
    Filter(quests, Matcher(status, domainFilter, searchTerm))
  }

  /** The filter keeps exactly the matching quests, each as often as in the list and in list order. */
  lemma FilteredQuestsSpec(quests: seq<Quest>, status: StatusFilter, domainFilter: DomainFilter, searchTerm: string)
    ensures var r := FilteredQuests(quests, status, domainFilter, searchTerm);
      && IsSubsequence(r, quests)
      && forall q :: multiset(r)[q] == if QuestMatches(q, status, domainFilter, searchTerm) then multiset(quests)[q] else 0
  {
    var f := Matcher(status, domainFilter, searchTerm);
    forall q {
      FilterCount(quests, f, q);
    }
    FilterIsSubsequence(quests, f);
  }

  /**
   * Each condition on its own: 'active' drops completed quests,
   * 'completed' keeps only completed ones, 'all' and an empty search
   * impose nothing, a domain keeps only that domain, and the search is a
   * substring test on the lower-cased title. The filter is their conjunction.
   */
  lemma QuestMatchesSpec(q: Quest, status: StatusFilter, domainFilter: DomainFilter, searchTerm: string)
    ensures QuestMatches(q, ActiveOnly, AllDomains, "") <==> !q.completed
    ensures QuestMatches(q, CompletedOnly, AllDomains, "") <==> q.completed
    ensures QuestMatches(q, AllQuests, AllDomains, "")
    ensures QuestMatches(q, AllQuests, OnlyDomain(q.domain), "")
    ensures domainFilter.OnlyDomain? && QuestMatches(q, status, domainFilter, searchTerm) ==> q.domain == domainFilter.domain
    ensures QuestMatches(q, AllQuests, AllDomains, searchTerm)
      <==> searchTerm == "" || exists k :: OccursAt(ToLower(q.title), ToLower(searchTerm), k)
    ensures QuestMatches(q, status, domainFilter, searchTerm)
      <==> (QuestMatches(q, status, AllDomains, "") && QuestMatches(q, AllQuests, domainFilter, "")
            && QuestMatches(q, AllQuests, AllDomains, searchTerm))
  {
    IncludesAt(ToLower(q.title), ToLower(searchTerm));
  }

  lemma LowerOfUpper(s: string)
    ensures ToLower(ToUpper(s)) == ToLower(s)
    ensures ToLower(ToLower(s)) == ToLower(s)
  {
  }

  /** Changing the case of the search term or of the title never changes the result. */
  lemma SearchIgnoresCase(q: Quest, status: StatusFilter, domainFilter: DomainFilter, searchTerm: string)
    ensures QuestMatches(q, status, domainFilter, ToUpper(searchTerm)) == QuestMatches(q, status, domainFilter, searchTerm)
    ensures QuestMatches(q, status, domainFilter, ToLower(searchTerm)) == QuestMatches(q, status, domainFilter, searchTerm)
    ensures QuestMatches(q.(title := ToUpper(q.title)), status, domainFilter, searchTerm) == QuestMatches(q, status, domainFilter, searchTerm)
  {
    LowerOfUpper(searchTerm);
    LowerOfUpper(q.title);
  }
}
