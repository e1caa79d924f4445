/**
 * The alert ladder: a water level is in alert class 3, 2 or 1 when it reaches
 * (>=) the corresponding threshold, tried from the top down, and in class 0
 * otherwise.  The loader of combined data, the crawler's report and the
 * GUI's input form all use this ladder, each with its own thresholds.
 */
module Levels {

  function AlertClass(level: real, a1: real, a2: real, a3: real): (k: int)
    ensures 0 <= k <= 3
    ensures k == 3 <==> level >= a3
    ensures k >= 2 <==> (level >= a2 || level >= a3)
    ensures k >= 1 <==> (level >= a1 || level >= a2 || level >= a3)
  {
    if level >= a3 then 3
    else if level >= a2 then 2
    else if level >= a1 then 1
    else 0
  }

  /** The class never drops as the level rises, whatever the thresholds. */
  lemma AlertClassMonotone(w: real, w': real, a1: real, a2: real, a3: real)
    requires w <= w'
    ensures AlertClass(w, a1, a2, a3) <= AlertClass(w', a1, a2, a3)
  {
  }

  /** With ordered thresholds the class is the number of thresholds reached. */
  lemma AlertClassCountsThresholds(w: real, a1: real, a2: real, a3: real)
    requires a1 <= a2 <= a3
    ensures AlertClass(w, a1, a2, a3)
         == (if w >= a1 then 1 else 0) + (if w >= a2 then 1 else 0) + (if w >= a3 then 1 else 0)
  {
  }
}
