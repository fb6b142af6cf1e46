/** The end screen: a rating of the NIRD score and the dependence, the victory or
    defeat banner, five stars, a closing message, and two counters that count up
    to the final values. It reads the session's indicators as they are, unclamped. */
module GameEnd {
  import opened Common

  datatype NirdRating = Champion | Excellent | Reussi | Partiel | AAmeliorer

  /** `getNIRDRating`: the first tier whose thresholds both indicators meet. */
  function GetNIRDRating(scoreNIRD: int, dependance: int): (r: NirdRating)
    ensures r == Champion <==> scoreNIRD >= 80 && dependance <= 20
    ensures r == Excellent <==> !(scoreNIRD >= 80 && dependance <= 20) && scoreNIRD >= 60 && dependance <= 40
    ensures r == Reussi <==> !(scoreNIRD >= 60 && dependance <= 40) && scoreNIRD >= 40 && dependance <= 60
    ensures r == Partiel <==> !(scoreNIRD >= 40 && dependance <= 60) && scoreNIRD >= 20
    ensures r == AAmeliorer <==> scoreNIRD < 20
  {
    if scoreNIRD >= 80 && dependance <= 20 then Champion
    else if scoreNIRD >= 60 && dependance <= 40 then Excellent
    else if scoreNIRD >= 40 && dependance <= 60 then Reussi
    else if scoreNIRD >= 20 then Partiel
    else AAmeliorer
  }

  /** The victory image and title. */
  predicate IsVictory(scoreNIRD: int, dependance: int)
  {
    scoreNIRD >= 60 && dependance <= 40
  }

  /** Victory is shown exactly for the two best ratings. */
  lemma VictoryIffTopRating(scoreNIRD: int, dependance: int)
    ensures IsVictory(scoreNIRD, dependance) <==> GetNIRDRating(scoreNIRD, dependance) in {Champion, Excellent}
  {
  }

  /** The five stars, left to right: star i is filled when i < ceil(scoreNIRD / 20). */
  function Stars(scoreNIRD: int): (stars: seq<bool>)
    ensures |stars| == 5
    ensures forall i :: 0 <= i < 5 ==> (stars[i] <==> i < CeilDiv(scoreNIRD, 20))
  {
    seq(5, i => i < CeilDiv(scoreNIRD, 20))
  }

  function CountFilled(stars: seq<bool>): (n: nat)
    ensures n <= |stars|
  {
    if stars == [] then 0 else (if stars[0] then 1 else 0) + CountFilled(stars[1..])
  }

  /** A sequence of stars whose first k are filled and the rest empty has k filled stars. */
  lemma {:induction false} CountFilledPrefix(stars: seq<bool>, k: nat)
    requires k <= |stars|
    requires forall i :: 0 <= i < |stars| ==> (stars[i] <==> i < k)
    ensures CountFilled(stars) == k
  {
    if stars != [] {
      var k' := if k == 0 then 0 else k - 1;
      forall i | 0 <= i < |stars[1..]| ensures stars[1..][i] <==> i < k' {
        assert stars[1..][i] == stars[i + 1];
      }
      CountFilledPrefix(stars[1..], k');
    }
  }

  /** The filled stars come first and number ceil(scoreNIRD / 20), between 0 and 5:
      a score of 80 fills four, 81 to 100 fill five, 0 or less fills none. */
  lemma FilledStarsCount(scoreNIRD: int)
    ensures CountFilled(Stars(scoreNIRD)) == Clamp(CeilDiv(scoreNIRD, 20), 0, 5)
    ensures forall i, j :: 0 <= i < j < 5 && Stars(scoreNIRD)[j] ==> Stars(scoreNIRD)[i]
    ensures CountFilled(Stars(80)) == 4 && CountFilled(Stars(81)) == 5 && CountFilled(Stars(0)) == 0
  {
    CountFilledPrefix(Stars(scoreNIRD), Clamp(CeilDiv(scoreNIRD, 20), 0, 5));
    CountFilledPrefix(Stars(80), 4);
    CountFilledPrefix(Stars(81), 5);
    CountFilledPrefix(Stars(0), 0);
  }

  /** The closing sentence under the stars. */
  datatype ClosingMessage = ModelOfExcellence | ExcellentWork | GoodStart | NeedsOverhaul

  function GetClosingMessage(scoreNIRD: int, dependance: int): (m: ClosingMessage)
    ensures m == ModelOfExcellence <==> scoreNIRD >= 80 && dependance <= 20
    ensures m == ExcellentWork <==> !(scoreNIRD >= 80 && dependance <= 20) && scoreNIRD >= 60 && dependance <= 40
    ensures m == GoodStart <==> !(scoreNIRD >= 60 && dependance <= 40) && scoreNIRD >= 40
    ensures m == NeedsOverhaul <==> scoreNIRD < 40
  {
    if scoreNIRD >= 80 && dependance <= 20 then ModelOfExcellence
    else if scoreNIRD >= 60 && dependance <= 40 then ExcellentWork
    else if scoreNIRD >= 40 then GoodStart
    else NeedsOverhaul
  }

  /** The message follows the rating for its two best tiers and for RÉUSSI ... */
  lemma MessageFollowsRating(scoreNIRD: int, dependance: int)
    ensures GetClosingMessage(scoreNIRD, dependance) == ModelOfExcellence <==> GetNIRDRating(scoreNIRD, dependance) == Champion
    ensures GetClosingMessage(scoreNIRD, dependance) == ExcellentWork <==> GetNIRDRating(scoreNIRD, dependance) == Excellent
    ensures GetNIRDRating(scoreNIRD, dependance) == Reussi ==> GetClosingMessage(scoreNIRD, dependance) == GoodStart
  {
  }

  /** ... but its third tier tests the NIRD score alone: with 50 points and a
      dependence of 80, the rating is PARTIEL and the message is the RÉUSSI one. */
  lemma MessageThirdTierIgnoresDependance()
    ensures GetNIRDRating(50, 80) == Partiel && GetClosingMessage(50, 80) == GoodStart
  {
  }

  /** One interval tick of a counter: `Math.min(prev + 5, target)`, run only while the counter is below the target. */
  function CounterStep(prev: int, target: int): (r: int)
    ensures prev < target ==> prev < r <= target && r <= prev + 5
    ensures prev < target && target - prev >= 5 ==> r == prev + 5
    ensures prev >= target ==> r == prev
  {
    if prev < target then (if prev + 5 < target then prev + 5 else target) else prev
  }

  /** The counter after n ticks. */
  function CounterAfter(start: int, target: int, n: nat): int
  {
    if n == 0 then start else CounterStep(CounterAfter(start, target, n - 1), target)
  }

  /** Counting up from 0 reaches a non-negative target in ceil(target / 5) ticks, and
      never passes it; a negative target is never reached: the counter stays at 0. */
  lemma {:induction false} CounterReachesTarget(target: int, n: nat)
    ensures target >= 0 ==> CounterAfter(0, target, n) == if 5 * n < target then 5 * n else target
    ensures target < 0 ==> CounterAfter(0, target, n) == 0
  {
    if n > 0 {
      CounterReachesTarget(target, n - 1);
    }
  }

  lemma CounterTicksNeeded(target: int)
    requires target >= 0
    ensures CounterAfter(0, target, CeilDiv(target, 5) as nat) == target
    ensures CeilDiv(target, 5) > 0 ==> CounterAfter(0, target, (CeilDiv(target, 5) - 1) as nat) < target
  {
    CounterReachesTarget(target, CeilDiv(target, 5) as nat);
    if CeilDiv(target, 5) > 0 {
      CounterReachesTarget(target, (CeilDiv(target, 5) - 1) as nat);
    }
  }

  /** An animated counter of the end screen (the displayed NIRD score or dependence). */
  class ScoreCounter {
    var displayed: int
    const target: int

    /** A counter starts at 0 and never leaves [0, max(0, target)]. */
    ghost predicate Valid()
      reads this
    {
      0 <= displayed && (displayed <= target || displayed == 0)
    }

    constructor (target: int)
      ensures Valid() && this.target == target && displayed == 0
    {
      this.target := target;
      displayed := 0;
    }

    /** One interval callback. */
    method Tick()
      requires Valid()
      modifies this`displayed
      ensures Valid()
      ensures displayed == CounterStep(old(displayed), target)
      ensures old(displayed) <= displayed
    {
      if displayed < target {
        displayed := if displayed + 5 < target then displayed + 5 else target;
      }
    }

    /** The interval runs until the counter shows its target (or forever shows 0 below a negative target). */
    method Run()
      requires Valid()
      modifies this`displayed
      ensures Valid()
      ensures displayed == if target >= 0 then target else 0
    {
      while displayed < target
        invariant Valid()
        decreases target - displayed
      {
        Tick();
      }
    }
  }
}
