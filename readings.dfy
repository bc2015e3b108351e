/**
 The reading classifier: a numeric reading and a pair of integer thresholds give the CSS
 severity class of a gauge ("low", "warning" or none), and the class-set edit that puts that
 class on an element.
 */
module Readings {

  const LOW := "low"
  const WARNING := "warning"
  /** The empty class: the reading is in the normal band and no severity class is added. */
  const NORMAL := ""

  /** The configured thresholds of one gauge. Nothing requires low <= warning. */
  datatype Thresholds = Thresholds(warning: int, low: int)

  /**
   The band rule: at or below `low` is "low", else at or below `warning` is "warning", else none.
   `low` is compared first, so a reading equal to both thresholds, or any reading when the
   thresholds are misconfigured with low > warning, favours "low".
   */
  function BandClass(per: real, t: Thresholds): (cls: string)
    ensures cls == LOW <==> per <= t.low as real
    ensures cls == WARNING <==> t.low as real < per <= t.warning as real
    ensures cls == NORMAL <==> t.low as real < per && t.warning as real < per
  {
    if per <= t.low as real then LOW
    else if per <= t.warning as real then WARNING
    else NORMAL
  }

  /** The heater's reading is capped at 100 before it is classified, formatted and shown. */
  function ClampHeater(per: real): (r: real)
    ensures r <= 100.0
    ensures per <= 100.0 ==> r == per
    ensures 100.0 < per ==> r == 100.0
  {
    if per > 100.0 then 100.0 else per
  }

  /**
   The class-set edit: remove "low", remove "warning", then add the computed class unless it
   is the empty class.
   */
  function EditClasses(classes: set<string>, cls: string): (r: set<string>)
    ensures !(LOW in r && WARNING in r)
    ensures LOW in r <==> cls == LOW
    ensures WARNING in r <==> cls == WARNING
    ensures forall c :: c != LOW && c != WARNING && c != NORMAL ==> (c in r <==> c in classes || c == cls)
    ensures cls == NORMAL ==> r == classes - {LOW, WARNING}
    ensures cls != NORMAL ==> r == classes - {LOW, WARNING} + {cls}
  {
    var kept := classes - {LOW} - {WARNING};
    if cls != NORMAL then kept + {cls} else kept
  }

  /** Only the last edit matters: the edit discards every severity class the previous one left. */
  lemma EditClassesLastWins(classes: set<string>, first: string, second: string)
    requires first in {LOW, WARNING, NORMAL}
    ensures EditClasses(EditClasses(classes, first), second) == EditClasses(classes, second)
  {
  }
}
