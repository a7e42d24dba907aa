# Savings-plan bookkeeping of AHORRO DEL CÉNTIMO, in Dafny

AHORRO DEL CÉNTIMO is a browser app for "cent box" savings plans. A plan has an
objective in euros, split into a sequence of box amounts. The user marks boxes as
saved, one at a time, and can never unmark them. The app shows the completed sum
and percentage, raises a celebration at 25, 50, 75 and 100 percent, and can filter
the boxes by status or by amount band. Plans are kept in the browser's local
storage: a list of plan summaries under `savedSavings`, and per plan the keys
`savings_<id>_objective` and `savings_<id>_markedBoxes`.

This project models that bookkeeping:

- `storage.dfy` (module `Storage`): the saved-plan record, the stored values, the
  per-plan key names, how the plan list is read, and a `LocalStorage` object
  holding a `map<string, Value>`.
- `progress.dfy` (module `Progress`): the completed sum, the percentage and the
  progress record of the savings page. It also holds the rewrite of the plan's
  entry in the saved-plan list.
- `filtering.dfy` (module `Filtering`): the four filters and the four amount bands.
- `milestones.dfy` (module `Milestones`): one-way marking, the celebration chosen
  by a mark, and whole sequences of marks.
- `savings_page.dfy` (module `Savings`): the savings page as a class. It has the
  marked set, the celebration log, the progress write and the click handler.
- `home_page.dfy` (module `Home`): the home page as a class. It has the plan list,
  plan creation and deletion, and the progress-bar width.

Amounts, objectives and percentages are exact `real`s (euros). Percentage
thresholds are related to the sums by cross-multiplication
(`Progress.PercentageReaches`). The box amounts come from a generator that is not
part of this model, so they are an input. Where a property needs them to be
non-negative, or to add up to the objective, the lemma says so in its `requires`.

Three behaviours of the code are worth knowing before reading the contracts:

- The `if / else if` chain (src/pages/SavingsPage.tsx:99-107) raises at most one
  celebration per click, for the lowest threshold crossed. A click that crosses
  several thresholds never celebrates the higher ones.
  `Milestones.TwoBoxPlanSkipsMilestones` shows this on a plan of two 50-euro
  boxes: it reaches 100% with only the 25% and 75% celebrations.
- The percentage is never clamped in the data. In the modelled files the only
  cap is the home page's progress bar (src/pages/HomePage.tsx:142,
  `Home.BarWidth`). The savings page's `ProgressStats` display is not modelled.
- The "plan not found" screen appears only for an objective of exactly 0. A
  negative objective gives a page with no boxes.

## Model

| member | source | states |
|---|---|---|
| `Storage.ObjectiveKey` | src/pages/HomePage.tsx:35 | the objective key is `savings_` then the plan id, at a fixed place, then `_objective` |
| `Storage.MarkedBoxesKey` | src/pages/HomePage.tsx:36 | the marked-boxes key is `savings_` then the plan id, at a fixed place, then `_markedBoxes` |
| `Storage.PlanKeysDistinct` | src/pages/HomePage.tsx:35-36 | per-plan keys never collide: a plan's two keys differ, different plans have different keys, and no per-plan key is `savedSavings` or `darkMode` |
| `Storage.SavedList` | src/pages/SavingsPage.tsx:48 | the plan list read from the store is the stored list or empty, never anything else, and empty when the key is missing (the `'[]'` default) |
| `Storage.SavedListReadsBack` | src/pages/SavingsPage.tsx:48-54 | a list written under `savedSavings` reads back unchanged, whatever the other keys hold |
| `Progress.MarkedSumEmpty` | src/pages/SavingsPage.tsx:35-37 | no marked box gives a completed sum of 0 |
| `Progress.MarkedSumInsert` | src/pages/SavingsPage.tsx:35-37 | marking one more index adds exactly that box's amount, and 0 for an out-of-range index |
| `Progress.MarkedSumIgnoresOutOfRange` | src/pages/SavingsPage.tsx:36 | out-of-range indices in the marked set do not change the completed sum |
| `Progress.MarkedSumMonotone` | src/pages/SavingsPage.tsx:35-37 | with non-negative amounts, a larger marked set never has a smaller completed sum |
| `Progress.MarkedSumBounds` | src/pages/SavingsPage.tsx:35-37 | with non-negative amounts, the completed sum is between 0 and the sum of all amounts, and equals that sum once every box is marked |
| `Progress.SumMarked` | src/pages/SavingsPage.tsx:35-37 | the fold over the marked set, taking elements in any order, gives the sum of the amounts at the marked in-range indices |
| `Progress.Percentage` | src/pages/SavingsPage.tsx:42 | 0 without a positive objective; otherwise percentage × objective = 100 × completed |
| `Progress.PercentageReaches` | src/pages/SavingsPage.tsx:42 | for a positive objective, the percentage is at least (at most) t exactly when 100 × completed is at least (at most) t × objective |
| `Progress.PercentageMonotone` | src/pages/SavingsPage.tsx:42 | a larger completed sum never gives a smaller percentage |
| `Progress.SnapshotOf` | src/pages/SavingsPage.tsx:39-45 | the progress record: completed is the marked sum, total is the objective, percentage as above, `completedBoxes` is the size of the marked set (out-of-range indices included), `totalBoxes` is the number of boxes; an empty marked set gives 0 and 0% |
| `Progress.SnapshotPercentageInRange` | src/pages/SavingsPage.tsx:42 | with non-negative amounts that add up to a positive objective, the percentage lies in [0, 100] and is 100 once every box is marked |
| `Progress.WithProgress` | src/pages/SavingsPage.tsx:48-54 | the summary write: length, order, ids, objectives and creation times are kept; entries with the page's id get the new summary; every other entry is unchanged |
| `Progress.WithProgressIdempotent` | src/pages/SavingsPage.tsx:48-54 | writing the same summary twice equals writing it once |
| `Progress.WithProgressAbsent` | src/pages/SavingsPage.tsx:48-54 | when no entry has the page's id, the write leaves the list unchanged and never adds an entry |
| `Filtering.InBand` | src/pages/SavingsPage.tsx:73-78 | each band is the half-open interval (lower, upper] of its bounds: `0-10` has no lower bound, `100+` no upper one, and a boundary amount such as 10 belongs to the band below it |
| `Filtering.BandOf` | src/pages/SavingsPage.tsx:73-79 | every amount lies in one band and in no other: the bands `<= 10`, `(10, 50]`, `(50, 100]`, `> 100` are disjoint and cover all amounts |
| `Filtering.Select` | src/pages/SavingsPage.tsx:60-81 | the kept indices below n are strictly increasing, and an index is in the result exactly when it is below n and the filter keeps it |
| `Filtering.FilteredBoxes` | src/pages/SavingsPage.tsx:59-84 | the result is strictly increasing; `all` gives every index 0 .. n-1 in order; `completed`, `pending` and `range` give exactly the in-range indices that are marked, unmarked, or whose amount is in the band |
| `Filtering.IncreasingUnique` | src/pages/SavingsPage.tsx:59-84 | two strictly increasing index lists with the same elements are equal, so membership and order fix each filter's result |
| `Filtering.SelectCompletedPendingCount` | src/pages/SavingsPage.tsx:62-68 | below any n, the marked and unmarked selections together hold n indices |
| `Filtering.CompletedPendingPartition` | src/pages/SavingsPage.tsx:62-68 | the `completed` and `pending` views are disjoint, cover every box index, and their sizes add up to the number of boxes |
| `Filtering.SelectBandsCount` | src/pages/SavingsPage.tsx:70-80 | below any n, the four band selections together hold n indices |
| `Filtering.RangePartition` | src/pages/SavingsPage.tsx:70-80 | each box is shown under its amount's band and no other, and the four band views' sizes add up to the number of boxes |
| `Filtering.SmallBandExample` | src/pages/SavingsPage.tsx:74 | band `0-10` over amounts 5, 8, 12, 50 shows boxes 0 and 1 |
| `Filtering.LargeBandExample` | src/pages/SavingsPage.tsx:77 | band `100+` over amounts 5, 8, 120 shows box 2 only |
| `Milestones.AchievementOf` | src/pages/SavingsPage.tsx:100-106 | the four celebration payloads of the chain; the emoji of each identifies its milestone, so different milestones raise different celebrations |
| `Milestones.Crossed` | src/pages/SavingsPage.tsx:99-107 | the chain picks a milestone only if the threshold is crossed upwards (prev < t <= new). It picks the lowest one crossed, and none when no threshold lies in (prev, new] |
| `Milestones.Mark` | src/pages/SavingsPage.tsx:86-107 | a click only grows the marked set, and only by the clicked index; a marked index changes nothing and fires nothing; for a new mark the celebration is exactly `Milestones.Crossed` of the percentages before and after, so it fires exactly when a threshold is crossed and names the lowest one |
| `Milestones.Run` | src/pages/SavingsPage.tsx:86-91 | after a sequence of clicks the marked set is the start set plus every clicked index, and the log holds no more celebrations than there were clicks |
| `Milestones.MarkedPercentageMonotone` | src/pages/SavingsPage.tsx:93-97 | with non-negative amounts, marking more never lowers the percentage |
| `Milestones.RunCelebratesEachMilestoneOnce` | src/pages/SavingsPage.tsx:99-107 | over any sequence of clicks with non-negative amounts, celebrated thresholds strictly increase (no milestone twice), each above the starting percentage and at most the final one |
| `Milestones.NothingAfterGoal` | src/pages/SavingsPage.tsx:105-107 | once the percentage is at least 100, no further click celebrates anything |
| `Milestones.TwoBoxPlanSkipsMilestones` | src/pages/SavingsPage.tsx:99-107 | two 50-euro boxes of a 100-euro plan, clicked in turn, celebrate only 25% and 75%, yet reach 100% |
| `Savings.SavingsPage.constructor` | src/pages/SavingsPage.tsx:21-32 | the page keeps its id, objective and store; its boxes are the generated amounts when the objective is positive and none otherwise; no celebration yet |
| `Savings.SavingsPage.RecordProgress` | src/pages/SavingsPage.tsx:34-57 | returns the progress record of the current marked set and rewrites the `savedSavings` key with that summary on this plan's entries; a missing key reads as an empty list; no other key changes |
| `Savings.SavingsPage.ToggleBox` | src/pages/SavingsPage.tsx:86-108 | a marked index changes nothing; otherwise the marked set becomes old ∪ {index}, and the log gains at most one celebration, the one `Milestones.Mark` picks |
| `Savings.TenEuroPlan` | src/pages/SavingsPage.tsx:99-100 | in a 10-euro plan, reaching 2.50 euros raises the 25% celebration once, and re-clicking a box raises nothing |
| `Home.NewSaving` | src/pages/HomePage.tsx:38-48 | the new entry keeps the given id, objective and creation time, and its progress is the one the progress computation gives for no boxes and nothing marked |
| `Home.SeededStore` | src/pages/HomePage.tsx:35-36 | creation adds exactly the plan's two keys, holding the objective and an empty marked list, and keeps every other key's value |
| `Home.WithoutPlan` | src/pages/HomePage.tsx:55 | exactly the entries with another id remain; the list shrinks when the id was present |
| `Home.WithoutPlanConcat` | src/pages/HomePage.tsx:55 | deletion works piecewise on a split list, so the survivors keep their relative order |
| `Home.WithoutAbsentPlan` | src/pages/HomePage.tsx:55 | deleting an id that no entry has leaves the list unchanged |
| `Home.CreateThenDeleteRestoresList` | src/pages/HomePage.tsx:50-55 | creating a plan under a new id and then deleting it restores the original list |
| `Home.CreateThenDeleteRestoresStore` | src/pages/HomePage.tsx:35-58 | when the plan's keys were absent, seeding and then removing them restores the original store |
| `Home.DeleteKeepsOtherKeys` | src/pages/HomePage.tsx:54-58 | after a deletion the `savedSavings` key reads back as the shortened list, and `darkMode` and both keys of every other plan keep their values |
| `Home.DeleteAfterProgressWrite` | src/pages/HomePage.tsx:55 | a summary write for a plan followed by its deletion gives the same list as deleting it outright |
| `Home.BarWidth` | src/pages/HomePage.tsx:142 | the bar width is the stored percentage capped at 100: never above 100 or above the percentage, and one of the two |
| `Home.HomePage.constructor` | src/pages/HomePage.tsx:23 | the page's plan list is the one stored under `savedSavings`, or empty when there is none |
| `Home.HomePage.SetSavedSavings` | src/pages/HomePage.tsx:23 | the list setter: the page's list becomes the new list and the same list is stored under `savedSavings`; no other key changes |
| `Home.HomePage.CreateSaving` | src/pages/HomePage.tsx:31-52 | appends exactly one entry at the end (the given id and objective, zero progress) and keeps all earlier entries; the store gains the plan's two seeded keys and holds the new list under `savedSavings` |
| `Home.HomePage.DeleteSaving` | src/pages/HomePage.tsx:54-59 | the list becomes `Home.WithoutPlan` of the old one and is stored under `savedSavings`; then exactly the plan's two keys are removed from the store |
| `Home.CreateThenDelete` | src/pages/HomePage.tsx:31-59 | creating a plan under an unused id and deleting it restores the page's list; the store is as before except that `savedSavings` holds that list, so a store already holding it is restored exactly |

## Left out

- The amount generator `generateCentAmounts` is not part of this model, because src/utils/calculations is not among the modelled files. The amounts are an input. A `requires` states the generator's promise (non-negative amounts that add up to the objective) where a lemma needs it.
- `generateSavingsId` depends on the clock and on randomness. The plan id is a parameter of `Home.HomePage.CreateSaving`. Nothing checks that it is unused, and neither does the app. The round-trip results assume an unused id.
- `createdAt` comes from the clock. It is a parameter.
- The `useLocalStorage` and `useCelebrations` hooks are not part of this model. `useLocalStorage` is taken to load the stored value, or the default when the key is missing, and to store every value its setter is given. The home page does both for `savedSavings` (`Home.HomePage.constructor`, `Home.HomePage.SetSavedSavings`). The savings page receives its objective and marked set as constructor arguments. The model does not persist the marked set under `savings_<id>_markedBoxes` after a click. `celebrations` stands for `triggerCelebration`. Showing and closing the modal is left out.
- JSON encoding is left out. Stored values are kept as data. `Savings.SavingsPage.RecordProgress` requires that `savedSavings`, if present, holds a plan list, which every writer in the app stores; a value that is not an array makes `JSON.parse(...).map` throw.
- Savings.SavingsPage.RecordProgress: the JSON entry it writes also carries the record's `total` field. The plan record type does not declare that field, and nothing reads it. The modelled entry keeps only the declared fields.
- React's re-rendering is not modelled. The progress computation and its write to the plan list are a separate call, `RecordProgress`. The model does not say that it runs after each click.
- Floating-point rounding is not modelled. Sums are exact, so the order in which the marked set is folded does not matter.
- The filter and band are datatypes with no "unknown" value. The switch's unreachable `default` branch is therefore not modelled.
- Sharing links (`handleShare`, `copyShareLink`, `formatSavingsUrl`), navigation, routing, the theme toggle, and all rendering are browser glue and are left out. This includes the "plan not found" screen, `toFixed` and date formatting.
