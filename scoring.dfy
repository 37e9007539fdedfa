/**
  The trial's result: the correctness rule applied to a key press, and the
  data record handed to the experiment runner when the trial ends.
*/
module Scoring {
  import opened Js
  import opened TrialConfig
  import opened Layout

  /**
    The `correct` field: a boolean after a key press, the number 0 after a
    timeout.
  */
  datatype CorrectValue = BoolValue(b: bool) | NumberZero

  /** The data record of one trial. */
  datatype TrialData = TrialData(
    correct: CorrectValue,
    rt: int,
    response: Nullable<Key>,
    locations: seq<Loc>,
    targetImage: Image,
    setSize: int,
    flankerImage: Image)

  lemma Target2ImageNeverNumeric()
    ensures NeverNumeric(Target2Image)
  {
    assert OutsideNumericLiterals(Target2Image[1]);
  }

  /**
    The correctness rule, in the source's own form:
    `(key matches target_1_key && target == 'img/target1.png')
     || (key matches target_2_key && (!target) == 'img/target2.png')`.
    `!target` is a boolean and a boolean loosely equals no non-numeric string,
    so the second disjunct never holds: a response is correct exactly when the
    key matches `target_1_key` and the target is `img/target1.png`.
  */
  function Correct(c: Config, keysMatch: (Key, Key) -> bool, key: Key): (r: bool)
    ensures r <==> keysMatch(key, c.target1Key) && c.target == Target1Image
  {
    Target2ImageNeverNumeric();
    (keysMatch(key, c.target1Key) && c.target == Target1Image)
    || (keysMatch(key, c.target2Key) && LooselyEqualsBoolString(NotString(c.target), Target2Image))
  }

  /**
    The asymmetry of the rule: pressing the target-2 key is never scored
    correct unless the same key also matches the target-1 key and the target
    is target 1, even when the target is `img/target2.png`.
  */
  lemma Target2KeyNeverCorrect(c: Config, keysMatch: (Key, Key) -> bool, key: Key)
    requires keysMatch(key, c.target2Key) && !keysMatch(key, c.target1Key)
    ensures !Correct(c, keysMatch, key)
  {
  }

  /**
    The record `end_trial` builds: the recorded `rt` is the raw `rt` plus
    `search_array_duration`, computed with JavaScript's `+`, so a `null` raw
    time records the duration itself; the locations are the slot locations;
    target image, set size and flanker image are copied from the parameters.
  */
  function EndTrialData(c: Config, locs: seq<Loc>, rt: Nullable<int>, correct: CorrectValue, response: Nullable<Key>): (d: TrialData)
    ensures d.correct == correct && d.response == response && d.locations == locs
    ensures rt.Null? ==> d.rt == c.searchArrayDuration
    ensures rt.Value? ==> d.rt == rt.value + c.searchArrayDuration
    ensures d.targetImage == c.target && d.setSize == c.setSize && d.flankerImage == c.flankerImage
  {
    TrialData(correct, PlusNullable(rt, c.searchArrayDuration), response, locs, c.target, c.setSize, c.flankerImage)
  }
}
