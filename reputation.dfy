/** The satisfaction of the four stakeholder groups of the school (students,
    teachers, parents, the education authority): each a score in [0, 100],
    moved by a table of impacts per scenario step and choice. */
module Reputation {
  import opened Common
  import opened Text

  datatype Group = Eleves | Enseignants | Parents | Academie

  /** The groups in the order the game lists them. */
  const GROUPS: seq<Group> := [Eleves, Enseignants, Parents, Academie]

  datatype ReputationState = ReputationState(eleves: int, enseignants: int, parents: int, academie: int)
  {
    function Get(g: Group): int
    {
      match g
      case Eleves => eleves
      case Enseignants => enseignants
      case Parents => parents
      case Academie => academie
    }

    predicate InRange()
    {
      forall g: Group :: 0 <= Get(g) <= 100
    }
  }

  /** A partial impact: a group absent from the map is not moved. */
  type ReputationImpact = map<Group, int>

  /** `impact[group] || 0`. */
  function Delta(impact: ReputationImpact, g: Group): int
  {
    if g in impact then impact[g] else 0
  }

  /** Every group starts neutral, at 50. */
  const INITIAL_REPUTATION: ReputationState := ReputationState(50, 50, 50, 50)

  lemma InitialReputation()
    ensures forall g: Group :: INITIAL_REPUTATION.Get(g) == 50
    ensures INITIAL_REPUTATION.InRange()
  {
  }

  /** Moves every group by its delta and clamps the result to [0, 100]. */
  function ApplyReputationImpact(current: ReputationState, impact: ReputationImpact): (r: ReputationState)
    ensures r.InRange()
    ensures forall g: Group :: 0 <= current.Get(g) + Delta(impact, g) <= 100 ==> r.Get(g) == current.Get(g) + Delta(impact, g)
    ensures forall g: Group :: current.Get(g) + Delta(impact, g) < 0 ==> r.Get(g) == 0
    ensures forall g: Group :: current.Get(g) + Delta(impact, g) > 100 ==> r.Get(g) == 100
    ensures forall g: Group :: g !in impact && 0 <= current.Get(g) <= 100 ==> r.Get(g) == current.Get(g)
  {
    ReputationState(
      Clamp(current.eleves + Delta(impact, Eleves), 0, 100),
      Clamp(current.enseignants + Delta(impact, Enseignants), 0, 100),
      Clamp(current.parents + Delta(impact, Parents), 0, 100),
      Clamp(current.academie + Delta(impact, Academie), 0, 100))
  }

  /** An empty impact leaves an in-range reputation as it is. */
  lemma EmptyImpactIdentity(current: ReputationState)
    requires current.InRange()
    ensures ApplyReputationImpact(current, map[]) == current
  {
    var r := ApplyReputationImpact(current, map[]);
    assert r.Get(Eleves) == current.Get(Eleves) && r.Get(Enseignants) == current.Get(Enseignants);
    assert r.Get(Parents) == current.Get(Parents) && r.Get(Academie) == current.Get(Academie);
  }

  function Sum(rep: ReputationState): int
  {
    rep.eleves + rep.enseignants + rep.parents + rep.academie
  }

  /** The mean of the four groups, rounded half up as `Math.round` does. */
  function OverallReputation(rep: ReputationState): (r: int)
    ensures 8 * r - 4 <= 2 * Sum(rep) < 8 * r + 4
    ensures rep.InRange() ==> 0 <= r <= 100
  {
    var r := RoundDiv(Sum(rep), 4);
    assert rep.InRange() ==> 0 <= Sum(rep) <= 400 by {
      if rep.InRange() {
        assert 0 <= rep.Get(Eleves) <= 100 && 0 <= rep.Get(Enseignants) <= 100;
        assert 0 <= rep.Get(Parents) <= 100 && 0 <= rep.Get(Academie) <= 100;
      }
    }
    r
  }

  /** The mean is exact when the sum is a multiple of 4, and x.5 rounds up. */
  lemma OverallReputationExamples()
    ensures OverallReputation(INITIAL_REPUTATION) == 50
    ensures OverallReputation(ReputationState(50, 50, 50, 52)) == 51
    ensures OverallReputation(ReputationState(50, 50, 50, 51)) == 50
    ensures OverallReputation(ReputationState(50, 50, 50, 53)) == 51
  {
    RoundDivUnique(200, 4, 50);
    RoundDivUnique(202, 4, 51);
    RoundDivUnique(201, 4, 50);
    RoundDivUnique(203, 4, 51);
  }

  /** The five reputation bands, from best to worst. */
  datatype ReputationLabel = Excellent | TresBon | Satisfaisant | Mefiant | Hostile

  /** The band of a score; each band's lower bound is inclusive. */
  function GetReputationLabel(score: int): (l: ReputationLabel)
    ensures l == Excellent <==> score >= 80
    ensures l == TresBon <==> 65 <= score < 80
    ensures l == Satisfaisant <==> 50 <= score < 65
    ensures l == Mefiant <==> 35 <= score < 50
    ensures l == Hostile <==> score < 35
  {
    if score >= 80 then Excellent
    else if score >= 65 then TresBon
    else if score >= 50 then Satisfaisant
    else if score >= 35 then Mefiant
    else Hostile
  }

  /** The text shown for each band. */
  function LabelText(l: ReputationLabel): (s: string)
    ensures |s| > 0
  {
    match l
    case Excellent => "Excellent"
    case TresBon => "Tr\U{E8}s bon"
    case Satisfaisant => "Satisfaisant"
    case Mefiant => "M\U{E9}fiant"
    case Hostile => "Hostile"
  }

  /** Position of a band, 0 for the worst. */
  function Rank(l: ReputationLabel): (k: nat)
    ensures k <= 4
    ensures k == 4 <==> l == Excellent
    ensures k == 0 <==> l == Hostile
  {
    match l
    case Hostile => 0
    case Mefiant => 1
    case Satisfaisant => 2
    case TresBon => 3
    case Excellent => 4
  }

  /** A higher score never gets a worse band, and the bands show distinct texts. */
  lemma LabelMonotone(a: int, b: int)
    requires a <= b
    ensures Rank(GetReputationLabel(a)) <= Rank(GetReputationLabel(b))
  {
  }

  lemma LabelTextsDistinct(l1: ReputationLabel, l2: ReputationLabel)
    requires l1 != l2
    ensures LabelText(l1) != LabelText(l2)
  {
  }

  /** The lower bounds are inclusive: 80 is Excellent, 79 is not. */
  lemma LabelBoundaries()
    ensures GetReputationLabel(80) == Excellent && GetReputationLabel(79) == TresBon
    ensures GetReputationLabel(65) == TresBon && GetReputationLabel(64) == Satisfaisant
    ensures GetReputationLabel(50) == Satisfaisant && GetReputationLabel(49) == Mefiant
    ensures GetReputationLabel(35) == Mefiant && GetReputationLabel(34) == Hostile
  {
  }

  /** A table entry, which names all four groups: students, teachers, parents, authority. */
  datatype GroupDeltas = GroupDeltas(e: int, t: int, p: int, a: int)
  {
    function AsImpact(): (m: ReputationImpact)
      ensures m.Keys == {Eleves, Enseignants, Parents, Academie}
      ensures Delta(m, Eleves) == e && Delta(m, Enseignants) == t
      ensures Delta(m, Parents) == p && Delta(m, Academie) == a
    {
      map[Eleves := e, Enseignants := t, Parents := p, Academie := a]
    }
  }

  /** The reputation impact of the choices 'a', 'b', 'c' (columns) of the scenario
      steps '1' to '10' (rows). */
  const REPUTATION_IMPACTS: seq<seq<GroupDeltas>> := [
    [GroupDeltas(15, 10, -5, 5), GroupDeltas(-5, 5, 15, 15), GroupDeltas(5, 0, 5, -5)],
    [GroupDeltas(10, 15, 5, -10), GroupDeltas(-10, -5, 10, 20), GroupDeltas(0, 5, 10, 10)],
    [GroupDeltas(5, 10, 0, -10), GroupDeltas(0, -10, 5, 20), GroupDeltas(-5, 5, 0, 5)],
    [GroupDeltas(5, 5, 15, -5), GroupDeltas(0, 10, 5, 5), GroupDeltas(-5, -5, -5, 20)],
    [GroupDeltas(5, 15, 5, -5), GroupDeltas(10, 10, 10, 15), GroupDeltas(0, -5, -5, 5)],
    [GroupDeltas(-5, -5, 10, 20), GroupDeltas(0, 5, 10, 15), GroupDeltas(0, 5, -10, -15)],
    [GroupDeltas(20, 10, 10, 5), GroupDeltas(5, 15, 5, 15), GroupDeltas(15, 5, -5, -10)],
    [GroupDeltas(5, -5, 15, 5), GroupDeltas(0, 0, 10, 5), GroupDeltas(20, 15, 5, 20)],
    [GroupDeltas(5, 5, 15, 20), GroupDeltas(0, 5, 10, 10), GroupDeltas(0, 0, -10, -15)],
    [GroupDeltas(5, 10, 15, 25), GroupDeltas(10, -5, -10, -20), GroupDeltas(5, 15, 10, 20)]
  ]

  const CHOICE_IDS: seq<string> := ["a", "b", "c"]

  /** The row of a step key: the keys are the numerals "1" to "10". */
  function StepRow(key: string): (i: Option<nat>)
    ensures i.Some? ==> i.value < 10 && key == IntToString(i.value + 1)
  {
    if |key| == 1 && '1' <= key[0] <= '9' then
      var d := key[0] as int - '0' as int;
      assert key == [DigitChar(d)];
      Some(d - 1)
    else if key == "10" then
      assert IntToString(10) == NatToString(1) + [DigitChar(0)];
      Some(9)
    else None
  }

  /** The column of a choice id. */
  function ChoiceColumn(id: string): (j: Option<nat>)
    ensures j.Some? ==> j.value < 3 && id == CHOICE_IDS[j.value]
    ensures j.None? <==> id !in CHOICE_IDS
  {
    if id == "a" then Some(0) else if id == "b" then Some(1) else if id == "c" then Some(2) else None
  }

  /** `REPUTATION_IMPACTS[stepKey]?.[choiceId]`. */
  function LookupImpact(stepKey: string, choiceId: string): (r: Option<ReputationImpact>)
    ensures r.Some? <==> StepRow(stepKey).Some? && choiceId in CHOICE_IDS
  {
    match (StepRow(stepKey), ChoiceColumn(choiceId))
    case (Some(i), Some(j)) => Some(REPUTATION_IMPACTS[i][j].AsImpact())
    case _ => None
  }

  /** The table has an entry exactly for the numerals of the steps 1 to 10 and the choices 'a', 'b', 'c'. */
  lemma ImpactTableShape(n: int, choiceId: string)
    ensures LookupImpact(IntToString(n), choiceId).Some? <==> 1 <= n <= 10 && choiceId in CHOICE_IDS
  {
    var key := IntToString(n);
    if 1 <= n <= 9 {
      assert key == [DigitChar(n)];
    } else if n == 10 {
      assert key == NatToString(1) + [DigitChar(0)];
    } else if StepRow(key).Some? {
      var i := StepRow(key).value;
      IntToStringInjective(n, i + 1);
    }
  }

  /** Every entry moves all four groups, each by a delta in [-20, 25]. */
  lemma ImpactTableDeltas(stepKey: string, choiceId: string, g: Group)
    requires LookupImpact(stepKey, choiceId).Some?
    ensures LookupImpact(stepKey, choiceId).value.Keys == {Eleves, Enseignants, Parents, Academie}
    ensures -20 <= Delta(LookupImpact(stepKey, choiceId).value, g) <= 25
  {
    var i := StepRow(stepKey).value;
    var j := ChoiceColumn(choiceId).value;
    assert i in {0, 1, 2, 3, 4, 5, 6, 7, 8, 9} && j in {0, 1, 2};
  }
}
