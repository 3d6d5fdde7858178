/**
 * The alert stage classifier `get_wait_progress` (app.py): the number of
 * tables still ahead of the user is mapped to a stage by scanning the alert
 * thresholds in order.
 */
module Alerts {

  /** `ALERT_LIST`: when to trigger each queue alert, in descending order. */
  const AlertList: seq<int> := [10, 5, 2]

  predicate StrictlyDescending(thresholds: seq<int>) {
    forall i, j :: 0 <= i < j < |thresholds| ==> thresholds[i] > thresholds[j]
  }

  /**
   * The index of the first threshold that `tablesLeft` strictly exceeds, or
   * the number of thresholds when it exceeds none. A count equal to a
   * threshold therefore counts as having reached that threshold's stage.
   */
  function Stage(tablesLeft: int, thresholds: seq<int>): (r: nat)
    ensures r <= |thresholds|
    ensures forall j :: 0 <= j < r ==> tablesLeft <= thresholds[j]
    ensures r < |thresholds| ==> tablesLeft > thresholds[r]
  {
    if thresholds == [] || tablesLeft > thresholds[0] then 0
    else 1 + Stage(tablesLeft, thresholds[1..])
  }

  /** `get_wait_progress`, as the source writes it: a loop with an early return. */
  method GetWaitProgress(tablesLeft: int) returns (progress: nat)
    ensures progress <= |AlertList|
    ensures progress == Stage(tablesLeft, AlertList)
  {
    for i := 0 to |AlertList|
      invariant forall j :: 0 <= j < i ==> tablesLeft <= AlertList[j]
    {
      if tablesLeft > AlertList[i] {
        return i;
      }
    }
    return |AlertList|;
  }

  /** Fewer tables left never gives a lower stage (whatever the thresholds). */
  lemma {:induction false} StageMonotone(fewer: int, more: int, thresholds: seq<int>)
    requires fewer <= more
    ensures Stage(more, thresholds) <= Stage(fewer, thresholds)
  {
    if thresholds != [] && more <= thresholds[0] {
      StageMonotone(fewer, more, thresholds[1..]);
    }
  }

  /**
   * With strictly descending thresholds, stage `i` is exactly the band
   * between two neighbouring thresholds: above every threshold is stage 0,
   * at or below the smallest is the last stage.
   */
  lemma StageBands(tablesLeft: int, thresholds: seq<int>, i: nat)
    requires StrictlyDescending(thresholds) && i <= |thresholds|
    ensures Stage(tablesLeft, thresholds) == i <==>
      && (i < |thresholds| ==> tablesLeft > thresholds[i])
      && (0 < i ==> tablesLeft <= thresholds[i - 1])
  {
  }

  /** The configured list gives stages 0 to 3, with inclusive boundaries. */
  lemma AlertListStages(tablesLeft: int)
    ensures 0 <= Stage(tablesLeft, AlertList) <= 3
    ensures Stage(11, AlertList) == 0 && Stage(10, AlertList) == 1 && Stage(9, AlertList) == 1
    ensures Stage(5, AlertList) == 2 && Stage(2, AlertList) == 3 && Stage(-4, AlertList) == 3
  {
  }
}
