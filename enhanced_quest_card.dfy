/**
 * The quest card (src/components/EnhancedQuestCard.tsx): a checklist of
 * completion criteria whose last tick completes the quest in the store,
 * and the rules for when the card counts as expired and shows or enables
 * its complete button.
 */
module EnhancedQuestCard {
  import opened Wrappers
  import opened Types
  import opened Seqs
  import opened StoreModel
  import opened Store

  /** The checklist after flipping slot `i`. */
  function Toggled(s: seq<bool>, i: int): (r: seq<bool>)
    requires 0 <= i < |s|
    ensures |r| == |s| && r[i] == !s[i]
    ensures forall j :: 0 <= j < |s| && j != i ==> r[j] == s[j]
  {
    s[i := !s[i]]
  }

  /** Flipping the same slot twice restores the checklist. */
  lemma ToggleTwice(s: seq<bool>, i: int)
    requires 0 <= i < |s|
    ensures Toggled(Toggled(s, i), i) == s
  {
  }

  /** `isExpired`. */
  predicate IsExpired(q: Quest) {
    q.status == Some(Expired) || q.status == Some(Failed)
  }

  /** The complete button is rendered only for an open quest. */
  predicate CompleteButtonShown(q: Quest) {
    !q.completed && !IsExpired(q)
  }

  /** The checkboxes are disabled once the quest is completed or expired. */
  predicate CriteriaTogglesEnabled(q: Quest) {
    !q.completed && !IsExpired(q)
  }

  /** `allCriteriaCompleted`, which enables the complete button. */
  predicate CompleteButtonEnabled(criteria: seq<bool>) {
    AllTrue(criteria)
  }

  /**
   * The button needs every box ticked, which an empty checklist
   * satisfies; a single unticked box disables it.
   */
  lemma CompleteButtonSpec(q: Quest, criteria: seq<bool>, i: int)
    ensures CompleteButtonShown(q) <==> !q.completed && q.status != Some(Expired) && q.status != Some(Failed)
    ensures CompleteButtonEnabled([])
    ensures 0 <= i < |criteria| && !criteria[i] ==> !CompleteButtonEnabled(criteria)
    ensures IsExpired(q) ==> !CompleteButtonShown(q) && !CriteriaTogglesEnabled(q)
  {
  }

  class Card {
    const quest: Quest
    var completedCriteria: array<bool>
    var showCoinAnimation: bool

    /** One unticked box per completion criterion. */
    constructor (quest: Quest)
      requires quest.completionCriteria.Some?
      ensures this.quest == quest && !showCoinAnimation
      ensures completedCriteria.Length == |quest.completionCriteria.value|
      ensures forall j :: 0 <= j < completedCriteria.Length ==> !completedCriteria[j]
    {
      this.quest := quest;
      completedCriteria := new bool[|quest.completionCriteria.value|](_ => false);
      showCoinAnimation := false;
    }

    /** `handleComplete`: start the coin animation and complete the quest in the store. */
    method HandleComplete(store: ProdigyStore, now: int)
      requires SkillsWellFormed(store.skills)
      modifies this, store
      ensures showCoinAnimation && completedCriteria == old(completedCriteria)
      ensures store.State() == CompleteQuestIn(old(store.State()), quest.id, now)
    {
      showCoinAnimation := true;
      store.CompleteQuest(quest.id, now);
    }

    /**
     * `handleCriteriaToggle(index)`: copy the checklist, flip one slot,
     * store the copy, and complete the quest when every slot is now ticked.
     */
    method HandleCriteriaToggle(index: int, store: ProdigyStore, now: int)
      requires 0 <= index < completedCriteria.Length
      requires SkillsWellFormed(store.skills)
      modifies this, store
      ensures fresh(completedCriteria)
      ensures completedCriteria[..] == Toggled(old(completedCriteria[..]), index)
      ensures AllTrue(completedCriteria[..]) ==>
        showCoinAnimation && store.State() == CompleteQuestIn(old(store.State()), quest.id, now)
      ensures !AllTrue(completedCriteria[..]) ==>
        showCoinAnimation == old(showCoinAnimation) && store.State() == old(store.State())
    {
      var current := completedCriteria;
      var n := current.Length;
      var newCompleted := new bool[n];
      var k := 0;
      while k < n
        modifies newCompleted
        invariant 0 <= k <= n
        invariant forall j :: 0 <= j < k ==> newCompleted[j] == current[j]
      {
        newCompleted[k] := current[k];
        k := k + 1;
      }
      newCompleted[index] := !newCompleted[index];
      assert newCompleted[..] == Toggled(current[..], index);
      completedCriteria := newCompleted;

      var every := true;
      k := 0;
      while k < n && every
        invariant 0 <= k <= n
        invariant every <==> forall j :: 0 <= j < k ==> newCompleted[j]
      {
        every := newCompleted[k];
        k := k + 1;
      }
      assert every <==> AllTrue(newCompleted[..]);
      if every {
        HandleComplete(store, now);
      }
    }
  }
}
