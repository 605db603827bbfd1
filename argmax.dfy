/** The "first best" choice the analyzers make in their candidate loops:
    start from a score of 0 and replace the held candidate only when a later
    one scores strictly more. */
module Argmax {

  function ScoreAt(scores: seq<real>, k: int): real
    requires k < |scores|
  {
    if k < 0 then 0.0 else scores[k]
  }

  /** The candidate whose result `best` holds, -1 for the initial one. */
  ghost function BestIdx(scores: seq<real>): (k: int)
    ensures -1 <= k < |scores|
    decreases |scores|
  {
    if |scores| == 0 then -1
    else
      var k := BestIdx(scores[..|scores| - 1]);
      if scores[|scores| - 1] > ScoreAt(scores, k) then |scores| - 1 else k
  }

  /** `k` is the first candidate with the greatest score. */
  ghost predicate FirstBest(scores: seq<real>, k: nat)
  {
    && k < |scores|
    && (forall j :: 0 <= j < |scores| ==> scores[j] <= scores[k])
    && (forall j :: 0 <= j < k ==> scores[j] < scores[k])
  }

  /** No candidate is held exactly when none scores above 0; otherwise the
      held one is the first with the greatest score, and that score is
      positive. */
  lemma {:induction false} BestIdxFirst(scores: seq<real>)
    ensures var k := BestIdx(scores);
            (k < 0 <==> forall j :: 0 <= j < |scores| ==> scores[j] <= 0.0) &&
            (k >= 0 ==> FirstBest(scores, k) && scores[k] > 0.0)
    decreases |scores|
  {
    if |scores| > 0 {
      var pre, last := scores[..|scores| - 1], |scores| - 1;
      BestIdxFirst(pre);
      assert forall j :: 0 <= j < |pre| ==> pre[j] == scores[j];
      var k := BestIdx(pre);
      if k >= 0 {
        assert FirstBest(pre, k);
        if scores[last] > scores[k] {
          assert FirstBest(scores, last);
        } else {
          assert FirstBest(scores, k);
        }
      } else if scores[last] > 0.0 {
        assert FirstBest(scores, last);
      }
    }
  }
}
