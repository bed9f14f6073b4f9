/**
 The greedy allocation strategy (src/optimizer/strategies/greedy.ts): a hill climber that
 spends one point at a time on the attribute whose increment gives the strictly highest
 score, never raising an attribute that is already at the cap of 99, and stops as soon as no
 increment strictly improves the score.
 */
module Greedy {
  import opened Wrappers
  import opened AttributeKeys

  /** The hard cap of every attribute during allocation. */
  const Cap: int := 99

  /** The state of the inner loop: `bestAttributeToIncrease` and `maxScoreIncrease`. */
  datatype Choice = Choice(best: Option<Attribute>, maxScore: real)

  /** `attribute` may still be raised: it is below the cap. */
  predicate Raisable(x: Attributes, a: Attribute) {
    x.Get(a) < Cap
  }

  /**
   The inner loop after the first `n` keys of `allAttributes`, starting from `baseline`: the
   best key so far, and its score. A key replaces the current choice only when its score is
   strictly greater, so `best` is the FIRST raisable key of maximal score, and it is chosen
   only when that score beats the baseline.
   */
  function Scan(x: Attributes, score: Attributes -> real, baseline: real, n: nat): Choice
    requires n <= |AllAttributes|
  {
    if n == 0 then Choice(None, baseline)
    else
      var prev := Scan(x, score, baseline, n - 1);
      var a := AllAttributes[n - 1];
      if !Raisable(x, a) then prev
      else
        var s := score(x.Inc(a));
        if s > prev.maxScore then Choice(Some(a), s) else prev
  }

  /**
   What the scan finds: nothing, when no raisable key beats the baseline; otherwise a
   raisable key whose score beats the baseline and every other raisable key's score, and
   strictly beats the scores of all raisable keys before it (the first one wins ties).
   */
  lemma {:induction false} ScanFindsFirstBest(x: Attributes, score: Attributes -> real, baseline: real, n: nat)
    requires n <= |AllAttributes|
    ensures var c := Scan(x, score, baseline, n);
      && c.maxScore >= baseline
      && (c.best.None? ==> c.maxScore == baseline)
      && (c.best.None? ==> forall i :: 0 <= i < n && Raisable(x, AllAttributes[i]) ==> score(x.Inc(AllAttributes[i])) <= baseline)
      && (c.best.Some? ==> IndexOf(c.best.value) < n && Raisable(x, c.best.value))
      && (c.best.Some? ==> score(x.Inc(c.best.value)) == c.maxScore > baseline)
      && (c.best.Some? ==> forall i :: 0 <= i < n && Raisable(x, AllAttributes[i]) ==> score(x.Inc(AllAttributes[i])) <= c.maxScore)
      && (c.best.Some? ==> forall i :: 0 <= i < IndexOf(c.best.value) && Raisable(x, AllAttributes[i]) ==> score(x.Inc(AllAttributes[i])) < c.maxScore)
  {
    if n > 0 {
      ScanFindsFirstBest(x, score, baseline, n - 1);
    }
  }

  /** One pass of the outer loop: the chosen key, if any increment strictly improves on `score(x)`. */
  function Step(x: Attributes, score: Attributes -> real): Choice {
    Scan(x, score, score(x), |AllAttributes|)
  }

  /**
   The attributes the strategy returns from `x` with `pointsLeft` points still to spend.
   It never lowers an attribute, never raises one at or above the cap or past the cap, spends
   at most the budget, never lowers the score, and when it stops before the budget is spent,
   no increment would have improved the score.
   */
  function Allocate(x: Attributes, pointsLeft: int, score: Attributes -> real): Attributes
    decreases pointsLeft
  {
    if pointsLeft <= 0 then x
    else
      match Step(x, score).best
      case None => x
      case Some(a) => Allocate(x.Inc(a), pointsLeft - 1, score)
  }

  /**
   One step either finds a raisable key whose increment strictly improves the score, or
   certifies that no increment of a raisable key does.
   */
  lemma StepChoice(x: Attributes, score: Attributes -> real)
    ensures Step(x, score).best.Some? ==>
      Raisable(x, Step(x, score).best.value) && score(x.Inc(Step(x, score).best.value)) > score(x)
    ensures Step(x, score).best.None? ==> forall a :: Raisable(x, a) ==> score(x.Inc(a)) <= score(x)
  {
    ScanFindsFirstBest(x, score, score(x), |AllAttributes|);
    if Step(x, score).best.None? {
      forall a | Raisable(x, a) ensures score(x.Inc(a)) <= score(x) {
        var i := IndexOf(a);
      }
    }
  }

  /**
   The allocation never lowers an attribute, never raises one at or above the cap, never
   raises one past the cap, and spends at most the budget (nothing when it is not positive).
   */
  lemma {:induction false} AllocateBounds(x: Attributes, pointsLeft: int, score: Attributes -> real)
    decreases pointsLeft
    ensures var r := Allocate(x, pointsLeft, score);
      && r.AtLeast(x)
      && (forall a :: x.Get(a) >= Cap ==> r.Get(a) == x.Get(a))
      && (forall a :: x.Get(a) <= Cap ==> r.Get(a) <= Cap)
      && 0 <= r.Sum() - x.Sum() <= (if pointsLeft > 0 then pointsLeft else 0)
  {
    if pointsLeft > 0 {
      StepChoice(x, score);
      match Step(x, score).best
      case None =>
      case Some(a) =>
        AllocateBounds(x.Inc(a), pointsLeft - 1, score);
    }
  }

  /** The allocation never lowers the score, and raises it strictly whenever it spends a point. */
  lemma {:induction false} AllocateImproves(x: Attributes, pointsLeft: int, score: Attributes -> real)
    decreases pointsLeft
    ensures var r := Allocate(x, pointsLeft, score);
      && score(r) >= score(x)
      && (r.Sum() > x.Sum() ==> score(r) > score(x))
  {
    if pointsLeft > 0 {
      StepChoice(x, score);
      match Step(x, score).best
      case None =>
      case Some(a) =>
        AllocateImproves(x.Inc(a), pointsLeft - 1, score);
    }
  }

  /**
   When the allocation stops before the budget is spent, it has reached a local optimum: no
   +1 on an attribute below the cap improves the score.
   */
  lemma {:induction false} AllocateStopsAtLocalOptimum(x: Attributes, pointsLeft: int, score: Attributes -> real)
    decreases pointsLeft
    ensures var r := Allocate(x, pointsLeft, score);
      r.Sum() - x.Sum() < pointsLeft ==> forall a :: Raisable(r, a) ==> score(r.Inc(a)) <= score(r)
  {
    if pointsLeft > 0 {
      match Step(x, score).best
      case None =>
        StepChoice(x, score);
      case Some(a) =>
        AllocateStopsAtLocalOptimum(x.Inc(a), pointsLeft - 1, score);
    }
  }

  /**
   The inner `for` loop of one allocation step: try +1 on every key below the cap, in
   `allAttributes` order, and keep a key only when its score strictly beats the best so far.
   */
  method ChooseIncrement(currentAttributes: Attributes, bestScore: real, evaluateScore: Attributes -> real)
    returns (bestAttributeToIncrease: Option<Attribute>, maxScoreIncrease: real, foundImprovement: bool, ghost evaluations: nat)
    ensures Choice(bestAttributeToIncrease, maxScoreIncrease) == Scan(currentAttributes, evaluateScore, bestScore, |AllAttributes|)
    ensures foundImprovement == bestAttributeToIncrease.Some?
    ensures bestAttributeToIncrease.Some? ==> evaluateScore(currentAttributes.Inc(bestAttributeToIncrease.value)) == maxScoreIncrease
    ensures evaluations <= |AllAttributes|
  {
    bestAttributeToIncrease := None;
    maxScoreIncrease := bestScore;
    foundImprovement := false;
    evaluations := 0;
    for i := 0 to |AllAttributes|
      invariant Choice(bestAttributeToIncrease, maxScoreIncrease) == Scan(currentAttributes, evaluateScore, bestScore, i)
      invariant foundImprovement == bestAttributeToIncrease.Some?
      invariant bestAttributeToIncrease.Some? ==> evaluateScore(currentAttributes.Inc(bestAttributeToIncrease.value)) == maxScoreIncrease
      invariant evaluations <= i
    {
      var attribute := AllAttributes[i];
      if currentAttributes.Get(attribute) >= Cap {
        continue;
      }
      var tempAttributes := currentAttributes.Inc(attribute);
      var currentScore := evaluateScore(tempAttributes);
      evaluations := evaluations + 1;
      if currentScore > maxScoreIncrease {
        maxScoreIncrease := currentScore;
        bestAttributeToIncrease := Some(attribute);
        foundImprovement := true;
      }
    }
  }

  /**
   `greedyAllocateStrategy`. `minimumAttributes` is accepted and ignored, as in the source.
   The ghost `evaluations` counts the calls of `evaluateScore`.
   */
  method GreedyAllocateStrategy(
    initialAttributes: Attributes,
    pointsToAllocate: int,
    minimumAttributes: PartialAttributes,
    evaluateScore: Attributes -> real)
    returns (currentAttributes: Attributes, ghost evaluations: nat)
    ensures currentAttributes == Allocate(initialAttributes, pointsToAllocate, evaluateScore)
    ensures evaluations <= 1 + 8 * (if pointsToAllocate > 0 then pointsToAllocate else 0)
  {
    currentAttributes := initialAttributes;
    var pointsLeft := pointsToAllocate;
    var bestScore := evaluateScore(currentAttributes);
    evaluations := 1;
    while pointsLeft > 0
      invariant Allocate(currentAttributes, pointsLeft, evaluateScore) == Allocate(initialAttributes, pointsToAllocate, evaluateScore)
      invariant bestScore == evaluateScore(currentAttributes)
      invariant pointsToAllocate > 0 ==> 0 <= pointsLeft <= pointsToAllocate
      invariant evaluations <= 1 + 8 * (if pointsToAllocate > 0 then pointsToAllocate - pointsLeft else 0)
      decreases pointsLeft
    {
      var bestAttributeToIncrease, maxScoreIncrease, foundImprovement, scanEvaluations := ChooseIncrement(currentAttributes, bestScore, evaluateScore);
      evaluations := evaluations + scanEvaluations;
      assert Choice(bestAttributeToIncrease, maxScoreIncrease) == Step(currentAttributes, evaluateScore);
      if !foundImprovement || bestAttributeToIncrease.None? {
        assert Allocate(currentAttributes, pointsLeft, evaluateScore) == currentAttributes;
        break;
      }
      var chosen := bestAttributeToIncrease.value;
      assert Allocate(currentAttributes, pointsLeft, evaluateScore) == Allocate(currentAttributes.Inc(chosen), pointsLeft - 1, evaluateScore);
      currentAttributes := currentAttributes.Inc(chosen);
      bestScore := maxScoreIncrease;
      pointsLeft := pointsLeft - 1;
    }
  }

  /** Attributes within the cap stay within the cap. */
  lemma AllocateWithinCap(x: Attributes, pointsToAllocate: int, score: Attributes -> real)
    requires forall a :: x.Get(a) <= Cap
    ensures forall a :: Allocate(x, pointsToAllocate, score).Get(a) <= Cap
  {
    AllocateBounds(x, pointsToAllocate, score);
  }

  /** A budget of zero or less allocates nothing. */
  lemma NoBudgetNoChange(x: Attributes, pointsToAllocate: int, score: Attributes -> real)
    requires pointsToAllocate <= 0
    ensures Allocate(x, pointsToAllocate, score) == x
  {
  }

  /**
   One accepted step: when some increment strictly improves the score, the strategy raises
   exactly the first key of maximal score by one, and continues from there with one point less.
   */
  lemma AcceptedStep(x: Attributes, pointsLeft: int, score: Attributes -> real, a: Attribute)
    requires pointsLeft > 0
    requires Raisable(x, a)
    requires forall b :: Raisable(x, b) ==> score(x.Inc(b)) <= score(x.Inc(a))
    requires forall b :: Raisable(x, b) && IndexOf(b) < IndexOf(a) ==> score(x.Inc(b)) < score(x.Inc(a))
    requires score(x.Inc(a)) > score(x)
    ensures Allocate(x, pointsLeft, score) == Allocate(x.Inc(a), pointsLeft - 1, score)
  {
    var c := Step(x, score);
    ScanFindsFirstBest(x, score, score(x), |AllAttributes|);
    assert c.best.Some? by {
      assert Raisable(x, AllAttributes[IndexOf(a)]);
    }
    var b := c.best.value;
    assert score(x.Inc(AllAttributes[IndexOf(a)])) <= c.maxScore;
    assert score(x.Inc(AllAttributes[IndexOf(b)])) <= score(x.Inc(a));
    assert b == a;
  }
}
