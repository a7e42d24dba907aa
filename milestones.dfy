/**
 * One-way marking of boxes and the milestone celebrations it fires.
 *
 * Marking is a step on a monotone set: a marked box stays marked, marking it
 * again does nothing.  After a new mark the page compares the percentage
 * before and after and fires at most one celebration, for the lowest of the
 * thresholds 25, 50, 75 and 100 that the mark crossed.
 */
module Milestones {
  import opened Wrappers
  import opened Progress

  datatype Milestone = Quarter | Half | ThreeQuarters | Goal {
    function Threshold(): real {
      match this
      case Quarter => 25.0
      case Half => 50.0
      case ThreeQuarters => 75.0
      case Goal => 100.0
    }
  }

  /** The celebration the page raises: a title, a message and an emoji. */
  datatype Achievement = Achievement(title: string, message: string, emoji: string)

  /** The milestone a celebration's emoji stands for. */
  function MilestoneOf(a: Achievement): Option<Milestone> {
    if a.emoji == "\U{1F389}" then Some(Quarter)
    else if a.emoji == "\U{1F525}" then Some(Half)
    else if a.emoji == "\U{2B50}" then Some(ThreeQuarters)
    else if a.emoji == "\U{1F3C6}" then Some(Goal)
    else None
  }

  /** The celebration a milestone raises; its emoji alone tells which milestone it is. */
  function AchievementOf(m: Milestone): (r: Achievement)
    ensures MilestoneOf(r) == Some(m)
  {
    match m
    case Quarter =>
      Achievement("\U{A1}25% alcanzado!",
        "Has completado un cuarto de tu objetivo. \U{A1}Sigue as\U{ED}!", "\U{1F389}")
    case Half =>
      Achievement("\U{A1}Mitad del camino!",
        "Has alcanzado el 50% de tu objetivo. \U{A1}Incre\U{ED}ble progreso!", "\U{1F525}")
    case ThreeQuarters =>
      Achievement("\U{A1}75% completado!",
        "Solo te queda un \U{FA}ltimo empuj\U{F3}n. \U{A1}Ya casi lo tienes!", "\U{2B50}")
    case Goal =>
      Achievement("\U{A1}OBJETIVO CUMPLIDO!",
        "\U{A1}Felicidades! Has alcanzado tu meta de ahorro. \U{A1}Eres incre\U{ED}ble!", "\U{1F3C6}")
  }

  /** Whether going from percentage `prev` to `next` crosses milestone `m` upwards. */
  predicate Crosses(prev: real, next: real, m: Milestone) {
    prev < m.Threshold() <= next
  }

  /**
   * The milestone the `if / else if` chain celebrates: the lowest threshold
   * crossed, or none when no threshold lies in (prev, next].
   */
  function Crossed(prev: real, next: real): (r: Option<Milestone>)
    ensures r.Some? ==> Crosses(prev, next, r.value)
    ensures r.Some? ==> forall m: Milestone :: m.Threshold() < r.value.Threshold() ==> !Crosses(prev, next, m)
    ensures r.None? ==> forall m: Milestone :: !Crosses(prev, next, m)
  {
    if next >= 25.0 && prev < 25.0 then Some(Quarter)
    else if next >= 50.0 && prev < 50.0 then Some(Half)
    else if next >= 75.0 && prev < 75.0 then Some(ThreeQuarters)
    else if next >= 100.0 && prev < 100.0 then Some(Goal)
    else None
  }

  /** The marked set after a mark, and the milestone it celebrated if any. */
  datatype Step = Step(marked: set<int>, fired: Option<Milestone>)

  /**
   * One click on box `index`: a marked box changes nothing and fires nothing;
   * an unmarked one is added, and the celebration is chosen from the
   * percentages before and after.
   */
  function Mark(amounts: seq<real>, objective: real, marked: set<int>, index: int): (r: Step)
    ensures marked <= r.marked && r.marked <= marked + {index} && index in r.marked
    ensures index in marked ==> r == Step(marked, None)
    ensures r.fired.Some? ==>
      index !in marked &&
      Crosses(MarkedPercentage(amounts, objective, marked), MarkedPercentage(amounts, objective, r.marked), r.fired.value)
    ensures index !in marked ==>
      r.fired == Crossed(MarkedPercentage(amounts, objective, marked), MarkedPercentage(amounts, objective, r.marked))
  {
    if index in marked then Step(marked, None)
    else
      var grown := marked + {index};
      Step(grown, Crossed(MarkedPercentage(amounts, objective, marked), MarkedPercentage(amounts, objective, grown)))
  }

  /** What a sequence of clicks leaves behind: the marked set and the milestones celebrated, in order. */
  datatype Session = Session(marked: set<int>, log: seq<Milestone>)

  function Run(amounts: seq<real>, objective: real, marked: set<int>, taps: seq<int>): (r: Session)
    ensures r.marked == marked + (set i | i in taps)
    ensures |r.log| <= |taps|
    decreases |taps|
  {
    if taps == [] then Session(marked, [])
    else
      var step := Mark(amounts, objective, marked, taps[0]);
      var rest := Run(amounts, objective, step.marked, taps[1..]);
      assert (set i | i in taps) == {taps[0]} + (set i | i in taps[1..]);
      Session(rest.marked, (if step.fired.Some? then [step.fired.value] else []) + rest.log)
  }

  /** With no negative amount, marking more never lowers the percentage. */
  lemma MarkedPercentageMonotone(amounts: seq<real>, objective: real, small: set<int>, large: set<int>)
    requires NonNegative(amounts) && small <= large
    ensures MarkedPercentage(amounts, objective, small) <= MarkedPercentage(amounts, objective, large)
  {
    MarkedSumMonotone(amounts, small, large);
    PercentageMonotone(MarkedSum(amounts, small), MarkedSum(amounts, large), objective);
  }

  /**
   * Over any sequence of clicks, with no negative amount, the celebrated
   * thresholds strictly increase, so no milestone is celebrated twice; and
   * each lies above the starting percentage and at most the final one.
   */
  lemma {:induction false} RunCelebratesEachMilestoneOnce(amounts: seq<real>, objective: real, marked: set<int>, taps: seq<int>)
    requires NonNegative(amounts)
    ensures forall j, k :: 0 <= j < k < |Run(amounts, objective, marked, taps).log| ==>
      Run(amounts, objective, marked, taps).log[j].Threshold() < Run(amounts, objective, marked, taps).log[k].Threshold()
    ensures forall k :: 0 <= k < |Run(amounts, objective, marked, taps).log| ==>
      MarkedPercentage(amounts, objective, marked) < Run(amounts, objective, marked, taps).log[k].Threshold()
        <= MarkedPercentage(amounts, objective, Run(amounts, objective, marked, taps).marked)
    decreases |taps|
  {
    if taps != [] {
      var step := Mark(amounts, objective, marked, taps[0]);
      var rest := Run(amounts, objective, step.marked, taps[1..]);
      RunCelebratesEachMilestoneOnce(amounts, objective, step.marked, taps[1..]);
      MarkedPercentageMonotone(amounts, objective, marked, step.marked);
      MarkedPercentageMonotone(amounts, objective, step.marked, rest.marked);
      var r := Run(amounts, objective, marked, taps);
      assert r.log == (if step.fired.Some? then [step.fired.value] else []) + rest.log;
    }
  }

  /** Once the plan is at 100% or more, further clicks celebrate nothing. */
  lemma {:induction false} NothingAfterGoal(amounts: seq<real>, objective: real, marked: set<int>, taps: seq<int>)
    requires NonNegative(amounts)
    requires MarkedPercentage(amounts, objective, marked) >= 100.0
    ensures Run(amounts, objective, marked, taps).log == []
    decreases |taps|
  {
    if taps != [] {
      var step := Mark(amounts, objective, marked, taps[0]);
      MarkedPercentageMonotone(amounts, objective, marked, step.marked);
      NothingAfterGoal(amounts, objective, step.marked, taps[1..]);
    }
  }

  /**
   * A plan of two 50-euro boxes: the first mark crosses 25 and 50 but only
   * the 25% celebration fires; the second crosses 75 and 100 but only the
   * 75% one fires.  The plan reaches 100% without the 50% or the goal
   * celebration ever firing.
   */
  lemma TwoBoxPlanSkipsMilestones()
    ensures Run([50.0, 50.0], 100.0, {}, [0, 1]).log == [Quarter, ThreeQuarters]
    ensures MarkedPercentage([50.0, 50.0], 100.0, Run([50.0, 50.0], 100.0, {}, [0, 1]).marked) == 100.0
  {
    var a := [50.0, 50.0];
    MarkedSumEmpty(a);
    MarkedSumInsert(a, {}, 0);
    MarkedSumInsert(a, {0}, 1);
    assert {} + {0} == {0} && {0} + {1} == {0, 1};
    assert MarkedSum(a, {0}) == 50.0;
    assert MarkedSum(a, {0, 1}) == 100.0;
    assert MarkedPercentage(a, 100.0, {0}) == 50.0;
    assert MarkedPercentage(a, 100.0, {0, 1}) == 100.0;
    var s1 := Mark(a, 100.0, {}, 0);
    assert s1 == Step({0}, Some(Quarter));
    var s2 := Mark(a, 100.0, {0}, 1);
    assert s2 == Step({0, 1}, Some(ThreeQuarters));
    assert [0, 1][1..] == [1];
  }
}
