/**
 * The home page as an object: the list of saved plans, plan creation (append
 * an entry and seed the two per-plan keys) and plan deletion (drop the
 * entries with that id and remove the two keys), and the width of each
 * plan's progress bar.
 */
module Home {
  import opened Storage
  import opened Progress

  /**
   * The entry a new plan gets: its id, objective and creation time, and the
   * progress of a plan with no boxes and nothing marked.
   */
  function NewSaving(id: string, objective: real, createdAt: string): (r: SavedSaving)
    ensures r.id == id && r.objective == objective && r.createdAt == createdAt
    ensures r.progress == ToSummary(SnapshotOf([], {}, objective))
  {
    SavedSaving(id, objective, createdAt, Summary(0.0, 0.0, 0, 0))
  }

  /** The store after a plan is created: its objective and an empty marked list under its two keys. */
  function SeededStore(items: map<string, Value>, id: string, objective: real): (r: map<string, Value>)
    ensures r.Keys == items.Keys + PlanKeys(id)
    ensures r[ObjectiveKey(id)] == Num(objective) && r[MarkedBoxesKey(id)] == IndexList([])
    ensures forall k :: k in items && k !in PlanKeys(id) ==> r[k] == items[k]
  {
    PlanKeysDistinct(id, id);
    items[ObjectiveKey(id) := Num(objective)][MarkedBoxesKey(id) := IndexList([])]
  }

  /**
   * The list without the plan `id`: exactly the entries with another id
   * remain, in their original relative order.
   */
  function WithoutPlan(saved: seq<SavedSaving>, id: string): (r: seq<SavedSaving>)
    ensures forall e :: e in r <==> e in saved && e.id != id
    ensures |r| <= |saved|
    ensures (exists k :: 0 <= k < |saved| && saved[k].id == id) ==> |r| < |saved|
  {
    if saved == [] then []
    else
      assert forall k :: 1 <= k < |saved| ==> saved[k] == saved[1..][k - 1];
      (if saved[0].id == id then [] else [saved[0]]) + WithoutPlan(saved[1..], id)
  }

  /** Removing a plan works piecewise on a split list, which is what keeps the survivors in order. */
  lemma {:induction false} WithoutPlanConcat(xs: seq<SavedSaving>, ys: seq<SavedSaving>, id: string)
    ensures WithoutPlan(xs + ys, id) == WithoutPlan(xs, id) + WithoutPlan(ys, id)
  {
    if xs == [] {
      assert xs + ys == ys;
    } else {
      assert (xs + ys)[1..] == xs[1..] + ys;
      WithoutPlanConcat(xs[1..], ys, id);
    }
  }

  /** Removing a plan that is not in the list changes nothing. */
  lemma {:induction false} WithoutAbsentPlan(saved: seq<SavedSaving>, id: string)
    requires forall k :: 0 <= k < |saved| ==> saved[k].id != id
    ensures WithoutPlan(saved, id) == saved
  {
    if saved != [] {
      WithoutAbsentPlan(saved[1..], id);
      assert saved == [saved[0]] + saved[1..];
    }
  }

  /** Creating a plan with an id not yet in the list and then deleting it gives back the original list. */
  lemma CreateThenDeleteRestoresList(saved: seq<SavedSaving>, id: string, objective: real, createdAt: string)
    requires forall k :: 0 <= k < |saved| ==> saved[k].id != id
    ensures WithoutPlan(saved + [NewSaving(id, objective, createdAt)], id) == saved
  {
    WithoutPlanConcat(saved, [NewSaving(id, objective, createdAt)], id);
    WithoutAbsentPlan(saved, id);
  }

  /** Seeding the keys of a plan whose keys are absent and then removing them gives back the original store. */
  lemma CreateThenDeleteRestoresStore(items: map<string, Value>, id: string, objective: real)
    requires ObjectiveKey(id) !in items && MarkedBoxesKey(id) !in items
    ensures SeededStore(items, id, objective) - PlanKeys(id) == items
  {
  }

  /**
   * The store after plan `id` is deleted holds the shortened list under the
   * plan-list key, and keeps the theme key and both keys of every other plan,
   * with their values.
   */
  lemma DeleteKeepsOtherKeys(items: map<string, Value>, saved: seq<SavedSaving>, id: string, other: string)
    requires other != id
    ensures var r := items[SavedSavingsKey := PlanList(WithoutPlan(saved, id))] - PlanKeys(id);
      SavedList(r) == WithoutPlan(saved, id) &&
      (DarkModeKey in items ==> DarkModeKey in r && r[DarkModeKey] == items[DarkModeKey]) &&
      (ObjectiveKey(other) in items ==> ObjectiveKey(other) in r && r[ObjectiveKey(other)] == items[ObjectiveKey(other)]) &&
      (MarkedBoxesKey(other) in items ==> MarkedBoxesKey(other) in r && r[MarkedBoxesKey(other)] == items[MarkedBoxesKey(other)])
  {
    PlanKeysDistinct(id, other);
    PlanKeysDistinct(other, id);
  }

  /**
   * A progress write for a plan and the plan's later deletion give the same
   * list as deleting it outright: the write never keeps a deleted plan alive.
   */
  lemma {:induction false} DeleteAfterProgressWrite(saved: seq<SavedSaving>, id: string, summary: Summary)
    ensures WithoutPlan(WithProgress(saved, id, summary), id) == WithoutPlan(saved, id)
  {
    if saved != [] {
      var written := WithProgress(saved, id, summary);
      assert written[1..] == WithProgress(saved[1..], id, summary);
      DeleteAfterProgressWrite(saved[1..], id, summary);
    }
  }

  /** The width of a plan's progress bar, in percent: the stored percentage, capped at 100. */
  function BarWidth(percentage: real): (w: real)
    ensures w <= 100.0 && w <= percentage
    ensures w == percentage || w == 100.0
  {
    if percentage < 100.0 then percentage else 100.0
  }

  class HomePage {
    var savedSavings: seq<SavedSaving>
    const storage: LocalStorage

    /** Opens the page with the plan list loaded from the store, or an empty list when there is none. */
    constructor (storage: LocalStorage)
      ensures savedSavings == SavedList(storage.items) && this.storage == storage
    {
      savedSavings := SavedList(storage.items);
      this.storage := storage;
    }

    /** Sets the plan list and writes it back under the plan-list key. */
    method SetSavedSavings(plans: seq<SavedSaving>)
      modifies this, storage
      ensures savedSavings == plans
      ensures storage.items == old(storage.items)[SavedSavingsKey := PlanList(plans)]
    {
      savedSavings := plans;
      storage.SetItem(SavedSavingsKey, PlanList(plans));
    }

    /**
     * Creates plan `id`: stores its objective and an empty marked list under
     * its two keys, then appends its entry to the list and stores the list.
     * The id comes from the caller; nothing checks that it is new.
     */
    method CreateSaving(id: string, objective: real, createdAt: string)
      modifies this, storage
      ensures savedSavings == old(savedSavings) + [NewSaving(id, objective, createdAt)]
      ensures storage.items == SeededStore(old(storage.items), id, objective)[SavedSavingsKey := PlanList(savedSavings)]
    {
      storage.SetItem(ObjectiveKey(id), Num(objective));
      storage.SetItem(MarkedBoxesKey(id), IndexList([]));
      SetSavedSavings(savedSavings + [NewSaving(id, objective, createdAt)]);
    }

    /**
     * Deletes plan `id`: drops its entries from the list and stores the list,
     * then removes the plan's two keys.
     */
    method DeleteSaving(id: string)
      modifies this, storage
      ensures savedSavings == WithoutPlan(old(savedSavings), id)
      ensures storage.items == old(storage.items)[SavedSavingsKey := PlanList(savedSavings)] - PlanKeys(id)
    {
      SetSavedSavings(WithoutPlan(savedSavings, id));
      storage.RemoveItem(MarkedBoxesKey(id));
      storage.RemoveItem(ObjectiveKey(id));
    }
  }

  /**
   * Creating a plan under a new id and deleting it again leaves the page's
   * list as it was, and the store as it was apart from the plan-list key,
   * which then holds that list; a store whose plan-list key already held the
   * page's list is left exactly as it was.
   */
  method CreateThenDelete(page: HomePage, id: string, objective: real, createdAt: string)
    requires forall k :: 0 <= k < |page.savedSavings| ==> page.savedSavings[k].id != id
    requires ObjectiveKey(id) !in page.storage.items && MarkedBoxesKey(id) !in page.storage.items
    modifies page, page.storage
    ensures page.savedSavings == old(page.savedSavings)
    ensures page.storage.items == old(page.storage.items)[SavedSavingsKey := PlanList(old(page.savedSavings))]
    ensures old(SavedSavingsKey in page.storage.items && page.storage.items[SavedSavingsKey] == PlanList(page.savedSavings)) ==>
      page.storage.items == old(page.storage.items)
  {
    ghost var items, saved := page.storage.items, page.savedSavings;
    page.CreateSaving(id, objective, createdAt);
    page.DeleteSaving(id);
    CreateThenDeleteRestoresList(saved, id, objective, createdAt);
    CreateThenDeleteRestoresStore(items[SavedSavingsKey := PlanList(saved)], id, objective);
    PlanKeysDistinct(id, id);
    assert page.storage.items == SeededStore(items[SavedSavingsKey := PlanList(saved)], id, objective) - PlanKeys(id);
  }
}
