/**
 * The browser's local storage as the two pages use it: a key-value store,
 * the saved-plan record it holds under "savedSavings", and the names of the
 * two per-plan keys.  Values are kept as the data they encode rather than
 * as JSON text.
 */
module Storage {

  /** The `progress` part of a saved plan, with the fields its record type declares. */
  datatype Summary = Summary(completed: real, percentage: real, completedBoxes: nat, totalBoxes: nat)

  /** One entry of the "savedSavings" list. */
  datatype SavedSaving = SavedSaving(id: string, objective: real, createdAt: string, progress: Summary)

  /** What a key of the store holds: a plan objective, a list of marked box indices, the plan list, or the theme flag. */
  datatype Value =
    | Flag(flag: bool)
    | Num(number: real)
    | IndexList(indices: seq<int>)
    | PlanList(plans: seq<SavedSaving>)

  const SavedSavingsKey: string := "savedSavings"
  const DarkModeKey: string := "darkMode"

  const KeyPrefix: string := "savings_"
  const ObjectiveSuffix: string := "_objective"
  const MarkedBoxesSuffix: string := "_markedBoxes"

  /** `savings_<id>_objective` */
  function ObjectiveKey(id: string): (k: string)
    ensures |k| == |id| + 18
    ensures k[..8] == KeyPrefix && k[8..8 + |id|] == id && k[8 + |id|..] == ObjectiveSuffix
  {
    KeyPrefix + id + ObjectiveSuffix
  }

  /** `savings_<id>_markedBoxes` */
  function MarkedBoxesKey(id: string): (k: string)
    ensures |k| == |id| + 20
    ensures k[..8] == KeyPrefix && k[8..8 + |id|] == id && k[8 + |id|..] == MarkedBoxesSuffix
  {
    KeyPrefix + id + MarkedBoxesSuffix
  }

  /** The keys a plan owns besides its entry in the plan list. */
  function PlanKeys(id: string): set<string> {
    {ObjectiveKey(id), MarkedBoxesKey(id)}
  }

  /**
   * The per-plan key names never collide: the two keys of one plan differ,
   * keys of different plans differ, and no per-plan key is the plan list's
   * key or the theme key.
   */
  lemma {:induction false} PlanKeysDistinct(a: string, b: string)
    ensures ObjectiveKey(a) != MarkedBoxesKey(b)
    ensures a != b ==> ObjectiveKey(a) != ObjectiveKey(b) && MarkedBoxesKey(a) != MarkedBoxesKey(b)
    ensures SavedSavingsKey !in PlanKeys(a) && DarkModeKey !in PlanKeys(a)
  {
    // the two suffixes end in different letters
    var oa, mb := ObjectiveKey(a), MarkedBoxesKey(b);
    assert oa[|oa| - 1] == 'e' && mb[|mb| - 1] == 's';
  }

  /**
   * The plan list as both pages read it: the stored list, or an empty list
   * when the key is missing.  It never yields entries the store does not hold.
   */
  function SavedList(items: map<string, Value>): (r: seq<SavedSaving>)
    ensures SavedSavingsKey !in items ==> r == []
    ensures r == [] || (SavedSavingsKey in items && items[SavedSavingsKey] == PlanList(r))
  {
    if SavedSavingsKey in items && items[SavedSavingsKey].PlanList? then items[SavedSavingsKey].plans else []
  }

  /** A list written under the plan-list key reads back unchanged, whatever else the store holds. */
  lemma SavedListReadsBack(items: map<string, Value>, plans: seq<SavedSaving>)
    ensures SavedList(items[SavedSavingsKey := PlanList(plans)]) == plans
  {
  }

  /** The store itself; the pages read and write `items` through the two calls below. */
  class LocalStorage {
    var items: map<string, Value>

    constructor (items: map<string, Value>)
      ensures this.items == items
    {
      this.items := items;
    }

    method SetItem(key: string, value: Value)
      modifies this
      ensures items == old(items)[key := value]
    {
      items := items[key := value];
    }

    method RemoveItem(key: string)
      modifies this
      ensures items == old(items) - {key}
    {
      items := items - {key};
    }
  }
}
