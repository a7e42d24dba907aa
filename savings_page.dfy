/**
 * The savings page of one plan as an object: its id, objective and box
 * amounts are fixed when it opens; the marked set grows with each click; the
 * celebrations it raises are appended to a log; and each progress
 * computation also rewrites the plan's entry in the saved-plan list.
 */
module Savings {
  import opened Wrappers
  import opened Storage
  import opened Progress
  import opened Milestones

  /** The celebrations a step raises: none, or the one for its milestone. */
  function Celebrations(fired: Option<Milestone>): seq<Achievement> {
    if fired.Some? then [AchievementOf(fired.value)] else []
  }

  class SavingsPage {
    const savingsId: string
    const objective: real
    const centAmounts: seq<real>
    const storage: LocalStorage
    var markedBoxes: set<int>
    var celebrations: seq<Achievement>

    /**
     * Opens the page with the objective and marked set loaded for the plan;
     * `generated` is what the amount generator returns for the objective,
     * used only when the objective is positive.
     */
    constructor (savingsId: string, objective: real, generated: seq<real>, markedBoxes: set<int>, storage: LocalStorage)
      ensures this.savingsId == savingsId && this.objective == objective && this.storage == storage
      ensures centAmounts == (if objective > 0.0 then generated else [])
      ensures this.markedBoxes == markedBoxes && celebrations == []
    {
      this.savingsId := savingsId;
      this.objective := objective;
      this.centAmounts := if objective > 0.0 then generated else [];
      this.storage := storage;
      this.markedBoxes := markedBoxes;
      this.celebrations := [];
    }

    /** The progress record of the current marked set. */
    function CurrentProgress(): Snapshot
      reads this
    {
      SnapshotOf(centAmounts, markedBoxes, objective)
    }

    /**
     * Computes the progress record and writes its summary into every entry
     * of the saved-plan list whose id is this page's, leaving the rest of
     * the list and every other key as they were.
     */
    method RecordProgress() returns (p: Snapshot)
      requires SavedSavingsKey in storage.items ==> storage.items[SavedSavingsKey].PlanList?
      modifies storage
      ensures p == CurrentProgress()
      ensures storage.items ==
        old(storage.items)[SavedSavingsKey := PlanList(WithProgress(SavedList(old(storage.items)), savingsId, ToSummary(p)))]
    {
      var completed := SumMarked(centAmounts, markedBoxes);
      p := Snapshot(completed, objective, Percentage(completed, objective), |markedBoxes|, |centAmounts|);
      var saved := SavedList(storage.items);
      storage.SetItem(SavedSavingsKey, PlanList(WithProgress(saved, savingsId, ToSummary(p))));
    }

    /**
     * A click on box `index`.  A marked box is left alone.  Otherwise the
     * index is added, and at most one celebration is raised: for the lowest
     * threshold between the percentage before the click and the one after.
     */
    method ToggleBox(index: int)
      modifies this
      ensures index in old(markedBoxes) ==> markedBoxes == old(markedBoxes) && celebrations == old(celebrations)
      ensures index !in old(markedBoxes) ==> markedBoxes == old(markedBoxes) + {index}
      ensures |celebrations| <= |old(celebrations)| + 1
      ensures markedBoxes == Mark(centAmounts, objective, old(markedBoxes), index).marked
      ensures celebrations == old(celebrations) + Celebrations(Mark(centAmounts, objective, old(markedBoxes), index).fired)
    {
      if index in markedBoxes {
        return;
      }
      var previous := CurrentProgress().percentage;
      var newMarkedBoxes := markedBoxes + {index};
      markedBoxes := newMarkedBoxes;
      var newCompleted := SumMarked(centAmounts, newMarkedBoxes);
      var newPercentage := Percentage(newCompleted, objective);
      if newPercentage >= 25.0 && previous < 25.0 {
        celebrations := celebrations + [AchievementOf(Quarter)];
      } else if newPercentage >= 50.0 && previous < 50.0 {
        celebrations := celebrations + [AchievementOf(Half)];
      } else if newPercentage >= 75.0 && previous < 75.0 {
        celebrations := celebrations + [AchievementOf(ThreeQuarters)];
      } else if newPercentage >= 100.0 && previous < 100.0 {
        celebrations := celebrations + [AchievementOf(Goal)];
      }
    }
  }

  /**
   * A 10-euro plan with boxes of 1, 1.5, 2.5 and 5 euros: the first click
   * reaches 10% and raises nothing, the second reaches 25% and raises the
   * quarter celebration, and clicking that box again raises nothing more.
   */
  method TenEuroPlan() returns (log: seq<Achievement>)
    ensures log == [AchievementOf(Quarter)]
  {
    var amounts := [1.0, 1.5, 2.5, 5.0];
    var storage := new LocalStorage(map[]);
    var page := new SavingsPage("plan", 10.0, amounts, {}, storage);
    MarkedSumEmpty(amounts);
    MarkedSumInsert(amounts, {}, 0);
    MarkedSumInsert(amounts, {0}, 1);
    assert {} + {0} == {0} && {0} + {1} == {0, 1};
    assert MarkedPercentage(amounts, 10.0, {0}) == 10.0;
    assert MarkedPercentage(amounts, 10.0, {0, 1}) == 25.0;
    page.ToggleBox(0);
    assert page.celebrations == [];
    page.ToggleBox(1);
    assert page.celebrations == [AchievementOf(Quarter)];
    page.ToggleBox(1);
    log := page.celebrations;
  }
}
