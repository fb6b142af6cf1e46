/** The scenario screen: the choice buttons of the current step, the transition
    screen that narrates a choice before its effect is committed, and the score
    sheet shown once no scenario step is left. */
module ScenarioStep {
  import opened Common
  import opened Text
  import opened Scenario
  import opened Reputation
  import opened Page
  import opened RandomEvents

  /** A narration: the scripted text of a (step, choice) pair, or a plain text. The
      prose itself is not modelled, only which of the two is shown. */
  datatype Narration = Scripted(stepKey: string, choiceId: string) | Plain(text: string)

  /** Both narration tables script the choices 'a', 'b', 'c' of the steps '1' to '10'. */
  predicate HasScript(stepId: int, choiceId: string)
  {
    StepRow(IntToString(stepId)).Some? && choiceId in CHOICE_IDS
  }

  lemma HasScriptIff(stepId: int, choiceId: string)
    ensures HasScript(stepId, choiceId) <==> 1 <= stepId <= LAST_STEP && choiceId in CHOICE_IDS
  {
    ImpactTableShape(stepId, choiceId);
  }

  /** The narration of a choice: the scripted text, else the choice's own consequence text. */
  function GetNarration(stepId: int, choiceId: string, fallback: string): (n: Narration)
    ensures n.Scripted? <==> 1 <= stepId <= LAST_STEP && choiceId in CHOICE_IDS
    ensures n.Scripted? ==> n.stepKey == IntToString(stepId) && n.choiceId == choiceId
    ensures n.Plain? ==> n.text == fallback
  {
    HasScriptIff(stepId, choiceId);
    if HasScript(stepId, choiceId) then Scripted(IntToString(stepId), choiceId) else Plain(fallback)
  }

  const DEFAULT_AFTER_NARRATION: string := "Le temps passe, les cons\U{E9}quences de vos choix se font sentir..."

  /** The "what happens next" narration: the scripted text, else a fixed sentence. */
  function GetAfterNarration(stepId: int, choiceId: string): (n: Narration)
    ensures n.Scripted? <==> 1 <= stepId <= LAST_STEP && choiceId in CHOICE_IDS
    ensures n.Scripted? ==> n.stepKey == IntToString(stepId) && n.choiceId == choiceId
    ensures n.Plain? ==> n.text == DEFAULT_AFTER_NARRATION
  {
    HasScriptIff(stepId, choiceId);
    if HasScript(stepId, choiceId) then Scripted(IntToString(stepId), choiceId) else Plain(DEFAULT_AFTER_NARRATION)
  }

  /** The badges of the transition screen, one per non-zero effect of the choice. */
  datatype ImpactIcon =
    | Expense(amount: int)       // a cost below zero
    | Income(amount: int)        // a cost above zero
    | NirdGain(delta: int)
    | NirdLoss(delta: int)
    | DependanceGain(delta: int)
    | Liberty(amount: int)       // a dependence drop, shown as its absolute value

  function Sign(x: int): (s: nat)
    ensures s <= 1 && (s == 1 <==> x != 0)
  {
    if x != 0 then 1 else 0
  }

  /** `getImpactIcons`: at most one badge per dimension (budget, NIRD, dependence), in
      that order, and none for a dimension the choice leaves alone. */
  method GetImpactIcons(choice: Choice) returns (icons: seq<ImpactIcon>)
    ensures |icons| == Sign(choice.cost) + Sign(choice.scoreNIRD) + Sign(choice.dependance)
    ensures Expense(choice.cost) in icons <==> choice.cost < 0
    ensures Income(choice.cost) in icons <==> choice.cost > 0
    ensures NirdGain(choice.scoreNIRD) in icons <==> choice.scoreNIRD > 0
    ensures NirdLoss(choice.scoreNIRD) in icons <==> choice.scoreNIRD < 0
    ensures DependanceGain(choice.dependance) in icons <==> choice.dependance > 0
    ensures Liberty(-choice.dependance) in icons <==> choice.dependance < 0
    ensures forall i :: 0 <= i < |icons| ==> (icons[i].Expense? || icons[i].Income?) ==> i == 0
  {
    icons := [];
    if choice.cost < 0 {
      icons := icons + [Expense(choice.cost)];
    }
    if choice.cost > 0 {
      icons := icons + [Income(choice.cost)];
    }
    if choice.scoreNIRD > 0 {
      icons := icons + [NirdGain(choice.scoreNIRD)];
    }
    if choice.scoreNIRD < 0 {
      icons := icons + [NirdLoss(choice.scoreNIRD)];
    }
    if choice.dependance > 0 {
      icons := icons + [DependanceGain(choice.dependance)];
    }
    if choice.dependance < 0 {
      icons := icons + [Liberty(-choice.dependance)];
    }
  }

  /** The commit of a narrated choice: its deltas are added as they are, without any
      clamping, and the step becomes the choice's `nextId`, taken verbatim. */
  function CommitChoice(state: GameState, choice: Choice, nextStepId: Option<int>): (r: GameState)
    ensures r.budget - state.budget == choice.cost
    ensures r.scoreNIRD - state.scoreNIRD == choice.scoreNIRD
    ensures r.dependance - state.dependance == choice.dependance
    ensures r.currentStepId == nextStepId
  {
    GameState(state.budget + choice.cost, state.scoreNIRD + choice.scoreNIRD,
              state.dependance + choice.dependance, nextStepId)
  }

  /** The two ways the indicators move disagree on bounds: the same +10 of NIRD at 95
      gives 105 when a scenario choice commits it, 100 when a random event applies it. */
  lemma ScenarioUnclampedEventClamped()
    ensures var s := GameState(50000, 95, 50, Some(3));
      && CommitChoice(s, Choice("a", 0, 10, 0, Some(4)), Some(4)).scoreNIRD == 105
      && EventOutcome(s, RandomEventChoice("x", 0, 10, 0, map[])).scoreNIRD == 100
  {
  }

  /** Without a `nextId`, the page moves on to the following step (for the end-of-game
      check and the event draw) while the scenario screen moves to no step at all. */
  lemma NullNextIdDisagreement(state: GameState, choice: Choice, k: int)
    requires state.currentStepId == Some(k) && k != 0 && choice.nextId.None?
    ensures NextStep(choice.nextId, state.currentStepId) == k + 1
    ensures CommitChoice(state, choice, choice.nextId).currentStepId.None?
  {
  }

  /** The normalisation of the score sheet: `clamp(Math.round(x), 0, 100)` (the model's indicators are integers). */
  function Normalized(x: int): (r: int)
    ensures 0 <= r <= 100
    ensures 0 <= x <= 100 ==> r == x
  {
    Clamp(x, 0, 100)
  }

  /** `clamp(round(budget / 50000 * 50 + 50), 0, 100)`, in exact arithmetic: half the
      initial budget spent is worth 25 points, each 1000 of budget one point. */
  function BudgetScore(budget: int): (s: int)
    ensures 0 <= s <= 100
    ensures -50000 <= budget <= 50000 ==> 2000 * s - 1000 <= 2 * (budget + 50000) < 2000 * s + 1000
    ensures budget <= -50000 ==> s == 0
    ensures budget >= 50000 ==> s == 100
  {
    Clamp(RoundDiv(budget + 50000, 1000), 0, 100)
  }

  lemma BudgetScoreExamples()
    ensures BudgetScore(50000) == 100 && BudgetScore(0) == 50 && BudgetScore(-50000) == 0
    ensures BudgetScore(-25000) == 25 && BudgetScore(-500) == 50 && BudgetScore(-501) == 49
  {
    RoundDivUnique(50000, 1000, 50);
    RoundDivUnique(25000, 1000, 25);
    RoundDivUnique(49500, 1000, 50);
    RoundDivUnique(49499, 1000, 49);
  }

  lemma BudgetScoreMonotone(b1: int, b2: int)
    requires b1 <= b2
    ensures BudgetScore(b1) <= BudgetScore(b2)
  {
    var q1, q2 := RoundDiv(b1 + 50000, 1000), RoundDiv(b2 + 50000, 1000);
    assert q1 <= q2;
  }

  /** `Math.round(0.40 * nird + 0.35 * independance + 0.25 * budget)`, in exact arithmetic. */
  function ScoreGlobal(nird: int, independance: int, budgetScore: int): (s: int)
    requires 0 <= nird <= 100 && 0 <= independance <= 100 && 0 <= budgetScore <= 100
    ensures 0 <= s <= 100
    ensures 200 * s - 100 <= 2 * (40 * nird + 35 * independance + 25 * budgetScore) < 200 * s + 100
  {
    RoundDiv(40 * nird + 35 * independance + 25 * budgetScore, 100)
  }

  datatype Grade = S | A | B | C | D | F

  function GetGrade(scoreGlobal: int): (g: Grade)
    ensures g == S <==> scoreGlobal >= 85
    ensures g == A <==> 70 <= scoreGlobal < 85
    ensures g == B <==> 55 <= scoreGlobal < 70
    ensures g == C <==> 40 <= scoreGlobal < 55
    ensures g == D <==> 25 <= scoreGlobal < 40
    ensures g == F <==> scoreGlobal < 25
  {
    if scoreGlobal >= 85 then S
    else if scoreGlobal >= 70 then A
    else if scoreGlobal >= 55 then B
    else if scoreGlobal >= 40 then C
    else if scoreGlobal >= 25 then D
    else F
  }

  function GradeRank(g: Grade): (k: nat)
    ensures k <= 5 && (k == 5 <==> g == S) && (k == 0 <==> g == F)
  {
    match g
    case F => 0
    case D => 1
    case C => 2
    case B => 3
    case A => 4
    case S => 5
  }

  /** A higher global score never gets a lower grade. */
  lemma GradeMonotone(s1: int, s2: int)
    requires s1 <= s2
    ensures GradeRank(GetGrade(s1)) <= GradeRank(GetGrade(s2))
  {
  }

  /** The score sheet of the end of the scenario. */
  datatype EndGameScores = EndGameScores(
    scoreNIRD: int, dependance: int, budgetScore: int, independanceScore: int,
    scoreGlobal: int, grade: Grade)

  /** Every score on the sheet is in [0, 100] whatever the (unclamped) indicators, and
      the independence is the complement of the normalised dependence. */
  function GetEndGameScores(state: GameState): (r: EndGameScores)
    ensures 0 <= r.scoreNIRD <= 100 && 0 <= r.dependance <= 100 && 0 <= r.budgetScore <= 100
    ensures 0 <= r.independanceScore <= 100 && r.independanceScore + r.dependance == 100
    ensures 0 <= r.scoreGlobal <= 100
    ensures 0 <= state.scoreNIRD <= 100 ==> r.scoreNIRD == state.scoreNIRD
    ensures r.scoreNIRD == Normalized(state.scoreNIRD) && r.dependance == Normalized(state.dependance)
    ensures r.budgetScore == BudgetScore(state.budget)
    ensures r.scoreGlobal == ScoreGlobal(r.scoreNIRD, r.independanceScore, r.budgetScore)
    ensures r.grade == GetGrade(r.scoreGlobal)
  {
    var nird := Normalized(state.scoreNIRD);
    var dep := Normalized(state.dependance);
    var budgetScore := BudgetScore(state.budget);
    var independance := 100 - dep;
    var global := ScoreGlobal(nird, independance, budgetScore);
    EndGameScores(nird, dep, budgetScore, independance, global, GetGrade(global))
  }

  /** The best sheet scores 100 and gets S. */
  lemma EndGameBest()
    ensures GetEndGameScores(GameState(50000, 100, 0, None)).scoreGlobal == 100
    ensures GetEndGameScores(GameState(50000, 100, 0, None)).grade == S
  {
    var r := GetEndGameScores(GameState(50000, 100, 0, None));
    RoundDivUnique(100000, 1000, 100);
    assert r.budgetScore == 100;
    assert r.scoreNIRD == 100 && r.independanceScore == 100;
    RoundDivUnique(10000, 100, 100);
    assert r.scoreGlobal == ScoreGlobal(100, 100, 100);
  }

  /** Indicators beyond [0, 100] score as their bound: only the normalised values count. */
  lemma EndGameNormalizes(state: GameState)
    ensures GetEndGameScores(state)
         == GetEndGameScores(state.(scoreNIRD := Normalized(state.scoreNIRD), dependance := Normalized(state.dependance)))
  {
  }

  /** No NIRD score, full dependence and the initial budget all spent: 12.5, rounded up to 13, an F. */
  lemma EndGameWorst()
    ensures GetEndGameScores(GameState(0, 0, 100, None)).scoreGlobal == 13
    ensures GetEndGameScores(GameState(0, 0, 100, None)).grade == F
  {
    var r := GetEndGameScores(GameState(0, 0, 100, None));
    RoundDivUnique(50000, 1000, 50);
    assert r.scoreNIRD == 0 && r.independanceScore == 0 && r.budgetScore == 50;
    assert r.scoreGlobal == ScoreGlobal(0, 0, 50);
    RoundDivUnique(1250, 100, 13);
  }

  /** A narrated choice waiting to be committed. */
  datatype Transition = Transition(choice: Choice, nextStepId: Option<int>, currentStep: int)

  class ScenarioScreen {
    /** The page that owns the indicators this screen shows and commits. */
    const home: Home
    /** The ids of the scenario's steps. */
    const stepIds: set<int>
    var transition: Option<Transition>

    ghost predicate Valid()
      reads this, home
    {
      home.Valid()
    }

    constructor (home: Home, stepIds: set<int>)
      ensures this.home == home && this.stepIds == stepIds && transition.None?
    {
      this.home := home;
      this.stepIds := stepIds;
      transition := None;
    }

    /** `SCENARIO.find(s => s.id === currentStepId)`. */
    function CurrentStep(): (r: Option<int>)
      reads this, home
      ensures r.Some? <==> home.gameState.currentStepId.Some? && home.gameState.currentStepId.value in stepIds
      ensures r.Some? ==> home.gameState.currentStepId == r
    {
      if home.gameState.currentStepId.Some? && home.gameState.currentStepId.value in stepIds
      then home.gameState.currentStepId else None
    }

    /** A click on a choice: without a current step nothing happens; otherwise the page
        is told (reputation, completed steps, scheduled check) and the transition
        screen starts, carrying the choice's `nextId` as it is. */
    method HandleChoice(choice: Choice)
      requires Valid()
      modifies this`transition
      modifies home`lastChoice, home`reputation, home`reputationChanges, home`completedSteps, home`pendingChecks
      ensures Valid()
      ensures home.gameState == old(home.gameState)
      ensures old(CurrentStep()).None? ==>
        && transition == old(transition) && home.pendingChecks == old(home.pendingChecks)
        && home.lastChoice == old(home.lastChoice) && home.reputation == old(home.reputation)
        && home.reputationChanges == old(home.reputationChanges)
        && home.completedSteps == old(home.completedSteps)
      ensures old(CurrentStep()).Some? ==>
        && transition == Some(Transition(choice, choice.nextId, old(CurrentStep()).value))
        && home.lastChoice == Some(choice)
        && var impact := LookupImpact(StepKey(home.gameState.currentStepId), choice.id);
        && home.reputation == (if impact.Some? then ApplyReputationImpact(old(home.reputation), impact.value)
                               else old(home.reputation))
        && home.reputationChanges
             == (if impact.Some? && ChangesOver(GROUPS, old(home.reputation), home.reputation, impact.value) != []
                 then ChangesOver(GROUPS, old(home.reputation), home.reputation, impact.value)
                 else old(home.reputationChanges))
        && home.completedSteps == RecordCompleted(old(home.completedSteps), home.gameState.currentStepId)
        && home.pendingChecks == old(home.pendingChecks)
             + [PendingCheck(NextStep(choice.nextId, home.gameState.currentStepId), old(home.triggeredEvents))]
    {
      var step := CurrentStep();
      if step.None? {
        return;
      }
      home.HandleChoiceMade(choice);
      transition := Some(Transition(choice, choice.nextId, step.value));
    }

    /** The end of the transition screen (its 11.5 s timer, the Space key or the skip
        button): the pending choice is committed, unclamped, and the transition closes. */
    method HandleTransitionComplete()
      requires Valid()
      modifies this`transition, home`gameState
      ensures Valid()
      ensures transition.None?
      ensures old(transition).Some? ==>
        home.gameState == CommitChoice(old(home.gameState), old(transition).value.choice, old(transition).value.nextStepId)
      ensures old(transition).None? ==> home.gameState == old(home.gameState)
    {
      if transition.Some? {
        home.gameState := CommitChoice(home.gameState, transition.value.choice, transition.value.nextStepId);
        transition := None;
      }
    }

    /** Leaving the playing phase removes the screen: its timers are cleared and a
        pending transition is discarded without being committed. */
    method Unmount()
      requires home.phase != Playing
      modifies this`transition
      ensures transition.None?
    {
      transition := None;
    }

    /** The last choice in the order the timers run: the 500 ms check fires before the
        11.5 s transition, ends the game and so removes the scenario screen, and the
        choice's budget, NIRD and dependence deltas are never committed. The end
        screen shows the indicators as they were before the last choice. */
    method LastChoiceAsScheduled(choice: Choice, rolls: seq<real>, pick: real)
      requires Valid() && home.pendingChecks == []
      requires home.gameState.currentStepId == Some(LAST_STEP) && LAST_STEP in stepIds
      requires NextStep(choice.nextId, Some(LAST_STEP)) > LAST_STEP
      requires |rolls| >= |RANDOM_EVENTS| && 0.0 <= pick < 1.0
      modifies this`transition
      modifies home`lastChoice, home`reputation, home`reputationChanges, home`completedSteps, home`pendingChecks
      modifies home`phase, home`retroSequence, home`currentEvent, home`triggeredEvents
      ensures Valid()
      ensures home.phase == GameEnd && transition.None? && home.pendingChecks == []
      ensures home.gameState == old(home.gameState)
      ensures LAST_STEP in home.completedSteps
    {
      HandleChoice(choice);
      home.ChoiceTimerFires(rolls, pick);
      Unmount();
    }
  }
}
