/** The game session held by the home page: the current screen, the player's
    names, the indicators, the stakeholders' reputation, the completed steps,
    the random events, and the hidden "RETRO" keyboard code. */
module Page {
  import opened Common
  import opened Text
  import opened Scenario
  import opened Reputation
  import opened RandomEvents

  datatype GamePhase = Title | NameInput | Loading | Intro | Playing | GameEnd | RetroGaming

  /** The indicators a new game starts from: 50000 of budget, no NIRD score, half dependence, step 1. */
  const INITIAL_GAME_STATE: GameState := GameState(50000, 0, 50, Some(1))

  /** A line of the reputation notification. */
  datatype ReputationChange = ReputationChange(group: Group, oldValue: int, newValue: int)

  /** The check a choice schedules for 500 ms later: the step it leads to and the
      list of triggered events as it was when the choice was made. */
  datatype PendingCheck = PendingCheck(nextStep: int, triggeredSeen: seq<string>)

  /** `n || 0` for a nullable step number: null and 0 are both falsy. */
  function StepOrZero(id: Option<int>): int
  {
    if id.Some? then id.value else 0
  }

  /** `choice.nextId || (currentStepId || 0) + 1`: the step a choice leads to, by
      the page's reckoning. A missing (or zero) `nextId` means the following step. */
  function NextStep(nextId: Option<int>, currentStepId: Option<int>): (n: int)
    ensures nextId.Some? && nextId.value != 0 ==> n == nextId.value
    ensures nextId.None? || nextId.value == 0 ==> n == StepOrZero(currentStepId) + 1
  {
    if nextId.Some? && nextId.value != 0 then nextId.value else StepOrZero(currentStepId) + 1
  }

  /** Without a `nextId`, the tenth step leads past the last step, and each earlier step to the following one. */
  lemma NextStepAdvances(k: int)
    requires 1 <= k <= LAST_STEP
    ensures NextStep(None, Some(k)) == k + 1
    ensures NextStep(None, Some(k)) > LAST_STEP <==> k == LAST_STEP
    ensures NextStep(None, None) == 1
  {
  }

  /** `currentStepId?.toString() || '1'`: the key of the current step in the impact table. */
  function StepKey(currentStepId: Option<int>): (key: string)
    ensures currentStepId.Some? ==> key == IntToString(currentStepId.value)
    ensures currentStepId.None? ==> key == "1"
  {
    match currentStepId
    case Some(n) => IntToString(n)
    case None => "1"
  }

  /** A missing step is looked up as step 1; a step 0 is looked up as "0" (a non-empty, so truthy, string) and finds nothing. */
  lemma StepKeyCases(choiceId: string)
    ensures LookupImpact(StepKey(None), choiceId) == LookupImpact(StepKey(Some(1)), choiceId)
    ensures LookupImpact(StepKey(Some(0)), choiceId).None?
  {
    assert StepKey(Some(1)) == [DigitChar(1)];
    ImpactTableShape(0, choiceId);
  }

  /** Records the current step as completed unless it is already recorded (or is null or 0). */
  function RecordCompleted(completed: seq<int>, currentStepId: Option<int>): (r: seq<int>)
    ensures NoDup(completed) ==> NoDup(r)
    ensures forall x :: x in r <==> x in completed || (currentStepId == Some(x) && x != 0)
    ensures |completed| <= |r| <= |completed| + 1 && r[..|completed|] == completed
  {
    if currentStepId.Some? && currentStepId.value != 0 && currentStepId.value !in completed then
      completed + [currentStepId.value]
    else
      completed
  }

  /** Completing the same step twice records it once. */
  lemma RecordCompletedIdempotent(completed: seq<int>, currentStepId: Option<int>)
    ensures RecordCompleted(RecordCompleted(completed, currentStepId), currentStepId) == RecordCompleted(completed, currentStepId)
  {
  }

  /** The notification lines for the groups `gs`, in their order: one per group the impact moves. */
  function ChangesOver(gs: seq<Group>, before: ReputationState, after: ReputationState, impact: ReputationImpact): seq<ReputationChange>
  {
    if gs == [] then []
    else
      var g := gs[|gs| - 1];
      ChangesOver(gs[..|gs| - 1], before, after, impact)
        + (if Delta(impact, g) != 0 then [ReputationChange(g, before.Get(g), after.Get(g))] else [])
  }

  function GroupsOf(changes: seq<ReputationChange>): (gs: seq<Group>)
    ensures |gs| == |changes|
    ensures forall i :: 0 <= i < |changes| ==> gs[i] == changes[i].group
  {
    if changes == [] then [] else [changes[0].group] + GroupsOf(changes[1..])
  }

  /** The notification lists exactly the groups with a non-zero delta, in the order of
      `gs`, each with its value before and after the update. */
  lemma {:induction false} ChangesOverSpec(gs: seq<Group>, before: ReputationState, after: ReputationState, impact: ReputationImpact)
    ensures var cs := ChangesOver(gs, before, after, impact);
      && (forall c :: c in cs ==> (c.group in gs && Delta(impact, c.group) != 0
                                   && c.oldValue == before.Get(c.group) && c.newValue == after.Get(c.group)))
      && (forall g :: g in gs && Delta(impact, g) != 0 ==> g in GroupsOf(cs))
      && IsSubsequence(GroupsOf(cs), gs)
  {
    if gs != [] {
      var init, g := gs[..|gs| - 1], gs[|gs| - 1];
      ChangesOverSpec(init, before, after, impact);
      var cs0 := ChangesOver(init, before, after, impact);
      var extra := if Delta(impact, g) != 0 then [ReputationChange(g, before.Get(g), after.Get(g))] else [];
      var cs := cs0 + extra;
      assert gs == init + [g];
      GroupsOfAppend(cs0, extra);
      SubsequenceAppend(GroupsOf(cs0), init, GroupsOf(extra), [g]);
      forall h | h in gs && Delta(impact, h) != 0 ensures h in GroupsOf(cs) {
        if h != g {
          assert h in init;
        } else {
          assert GroupsOf(cs)[|cs| - 1] == g;
        }
      }
    }
  }

  lemma GroupsOfAppend(a: seq<ReputationChange>, b: seq<ReputationChange>)
    ensures GroupsOf(a + b) == GroupsOf(a) + GroupsOf(b)
  {
    var l, r := GroupsOf(a + b), GroupsOf(a) + GroupsOf(b);
    assert forall i :: 0 <= i < |l| ==> l[i] == r[i] by {
      forall i | 0 <= i < |l| ensures l[i] == r[i] {
        if i < |a| {
          assert (a + b)[i] == a[i];
        } else {
          assert (a + b)[i] == b[i - |a|];
        }
      }
    }
  }

  /** Subsequences of two parts make a subsequence of the whole, when the second is at most one element. */
  lemma {:induction false} SubsequenceAppend<T>(a: seq<T>, b: seq<T>, c: seq<T>, d: seq<T>)
    requires IsSubsequence(a, b) && IsSubsequence(c, d) && |d| <= 1
    ensures IsSubsequence(a + c, b + d)
    decreases |b|
  {
    if a == [] {
      SubsequenceSuffix(c, d, b);
      assert a + c == c;
    } else if a[0] == b[0] {
      assert (a + c)[1..] == a[1..] + c && (b + d)[1..] == b[1..] + d;
      SubsequenceAppend(a[1..], b[1..], c, d);
    } else {
      assert (b + d)[1..] == b[1..] + d && (a + c)[0] == a[0] && (b + d)[0] == b[0];
      SubsequenceAppend(a, b[1..], c, d);
    }
  }

  /** A subsequence of a list's end is a subsequence of the list. */
  lemma {:induction false} SubsequenceSuffix<T>(c: seq<T>, d: seq<T>, b: seq<T>)
    requires IsSubsequence(c, d)
    ensures IsSubsequence(c, b + d)
    decreases |b|
  {
    if b == [] {
      assert b + d == d;
    } else {
      SubsequenceSuffix(c, d, b[1..]);
      SubsequenceCons(c, b[0], b[1..] + d);
      assert [b[0]] + (b[1..] + d) == b + d;
    }
  }

  /** The `forEach` over the four groups that builds the notification. */
  method CollectChanges(before: ReputationState, after: ReputationState, impact: ReputationImpact) returns (changes: seq<ReputationChange>)
    ensures changes == ChangesOver(GROUPS, before, after, impact)
  {
    changes := [];
    for i := 0 to |GROUPS|
      invariant changes == ChangesOver(GROUPS[..i], before, after, impact)
    {
      var g := GROUPS[i];
      if Delta(impact, g) != 0 {
        changes := changes + [ReputationChange(g, before.Get(g), after.Get(g))];
      }
      assert GROUPS[..i + 1][..i] == GROUPS[..i];
    }
    assert GROUPS[..|GROUPS|] == GROUPS;
  }

  /** The effect of answering a random event: the budget moves freely, the NIRD score
      and the dependence are clamped to [0, 100], and the step does not change. */
  function EventOutcome(state: GameState, c: RandomEventChoice): (r: GameState)
    ensures r.budget == state.budget + c.budgetImpact
    ensures 0 <= r.scoreNIRD <= 100 && 0 <= r.dependance <= 100
    ensures 0 <= state.scoreNIRD + c.scoreNIRDImpact <= 100 ==> r.scoreNIRD == state.scoreNIRD + c.scoreNIRDImpact
    ensures 0 <= state.dependance + c.dependanceImpact <= 100 ==> r.dependance == state.dependance + c.dependanceImpact
    ensures r.currentStepId == state.currentStepId
  {
    state.(budget := state.budget + c.budgetImpact,
           scoreNIRD := Clamp(state.scoreNIRD + c.scoreNIRDImpact, 0, 100),
           dependance := Clamp(state.dependance + c.dependanceImpact, 0, 100))
  }

  /** The last five characters of the typed key names. */
  function LastFive(s: string): (r: string)
    ensures |r| == if |s| > 5 then 5 else |s|
    ensures s == s[..|s| - |r|] + r
  {
    if |s| > 5 then s[|s| - 5..] else s
  }

  /** One key press seen by the "RETRO" detector, given the upper-cased key name: the
      name is appended, the buffer keeps its last five characters, and when they spell
      RETRO the retro mode toggles and the buffer empties. */
  function RetroAppend(buffer: string, name: string): (r: (string, bool))
    ensures |r.0| <= 5
    ensures r.1 <==> LastFive(buffer + name) == "RETRO"
    ensures r.1 ==> r.0 == []
    ensures !r.1 ==> r.0 == LastFive(buffer + name)
  {
    var kept := LastFive(buffer + name);
    if kept == "RETRO" then ([], true) else (kept, false)
  }

  predicate EndsWith(s: string, t: string)
  {
    |t| <= |s| && s[|s| - |t|..] == t
  }

  /** One letter of the code appended to a buffer that ends with the code's previous
      letters; any letter but the last O leaves the mode alone. */
  lemma RetroLetter(buffer: string, done: string, letter: char) returns (next: string)
    requires EndsWith(buffer, done) && |done| < 5
    ensures next == done + [letter]
    ensures EndsWith(LastFive(buffer + [letter]), next)
    ensures letter != 'O' ==> RetroAppend(buffer, [letter]) == (LastFive(buffer + [letter]), false)
  {
    next := done + [letter];
    var s := buffer + [letter];
    assert s[|s| - |next|..] == next;
    var r := LastFive(s);
    assert r[|r| - |next|..] == s[|s| - |next|..];
    assert r[|r| - 1] == letter;
  }

  lemma TypedRET(buffer: string)
    ensures var b1 := RetroAppend(buffer, "R");
      var b2 := RetroAppend(b1.0, "E");
      var b3 := RetroAppend(b2.0, "T");
      !b1.1 && !b2.1 && !b3.1 && EndsWith(b3.0, "RET")
  {
    assert EndsWith(buffer, []);
    var d1 := RetroLetter(buffer, [], 'R');
    var b1 := LastFive(buffer + "R");
    var d2 := RetroLetter(b1, d1, 'E');
    var b2 := LastFive(b1 + "E");
    var d3 := RetroLetter(b2, d2, 'T');
    assert d3 == "RET";
  }

  lemma TypedRO(buffer: string)
    requires EndsWith(buffer, "RET")
    ensures var b4 := RetroAppend(buffer, "R");
      var b5 := RetroAppend(b4.0, "O");
      !b4.1 && b5.1 && b5.0 == []
  {
    var d4 := RetroLetter(buffer, "RET", 'R');
    var b4 := LastFive(buffer + "R");
    var d5 := RetroLetter(b4, d4, 'O');
    assert d5 == "RETRO";
  }

  /** Typing R, E, T, R, O toggles the retro mode on the last key and on no earlier
      one, whatever was typed before. */
  lemma TypingRetroToggles(buffer: string)
    ensures var b1 := RetroAppend(buffer, "R");
      var b2 := RetroAppend(b1.0, "E");
      var b3 := RetroAppend(b2.0, "T");
      var b4 := RetroAppend(b3.0, "R");
      var b5 := RetroAppend(b4.0, "O");
      !b1.1 && !b2.1 && !b3.1 && !b4.1 && b5.1 && b5.0 == []
  {
    TypedRET(buffer);
    var b3 := RetroAppend(RetroAppend(RetroAppend(buffer, "R").0, "E").0, "T");
    TypedRO(b3.0);
  }

  /** The letter keys give their upper-case letter: pressing r, e, t, r, o (as `e.key` names them) types the code. */
  lemma LowerCaseRetroKeys()
    ensures ToUpperCase("r") == "R" && ToUpperCase("e") == "E" && ToUpperCase("t") == "T" && ToUpperCase("o") == "O"
  {
    assert ToUpperCase("r") == [UpperChar('r')] + ToUpperCase([]);
    assert ToUpperCase("e") == [UpperChar('e')] + ToUpperCase([]);
    assert ToUpperCase("t") == [UpperChar('t')] + ToUpperCase([]);
    assert ToUpperCase("o") == [UpperChar('o')] + ToUpperCase([]);
  }

  /** The "RETRO" buffer is a local of the key listener, which is registered afresh
      (with an empty buffer) whenever the phase changes. */
  function KeyBufferAfter(from: GamePhase, to: GamePhase, buffer: string): (r: string)
    ensures from == to ==> r == buffer
    ensures from != to ==> r == []
  {
    if from == to then buffer else []
  }

  class Home {
    var phase: GamePhase
    var isPaused: bool
    var showMap: bool
    var directorName: string
    var schoolName: string
    var lastChoice: Option<Choice>
    var completedSteps: seq<int>
    var isRetroMode: bool
    var gameState: GameState
    var reputation: ReputationState
    var reputationChanges: seq<ReputationChange>
    var currentEvent: Option<RandomEvent>
    var triggeredEvents: seq<string>
    var retroSequence: string
    /** The 500 ms checks scheduled by choices and not yet run, oldest first. */
    var pendingChecks: seq<PendingCheck>

    /** Every group's reputation is in [0, 100], no step is recorded twice, and the
        key buffer holds at most five characters. */
    ghost predicate Valid()
      reads this
    {
      reputation.InRange() && NoDup(completedSteps) && |retroSequence| <= 5
    }

    constructor ()
      ensures Valid()
      ensures phase == Title && !isPaused && !showMap && directorName == [] && schoolName == []
      ensures lastChoice.None? && completedSteps == [] && !isRetroMode
      ensures gameState == INITIAL_GAME_STATE && reputation == INITIAL_REPUTATION
      ensures reputationChanges == [] && currentEvent.None? && triggeredEvents == []
      ensures retroSequence == [] && pendingChecks == []
    {
      phase := Title;
      isPaused, showMap := false, false;
      directorName, schoolName := [], [];
      lastChoice := None;
      completedSteps := [];
      isRetroMode := false;
      gameState := INITIAL_GAME_STATE;
      reputation := INITIAL_REPUTATION;
      reputationChanges := [];
      currentEvent := None;
      triggeredEvents := [];
      retroSequence := [];
      pendingChecks := [];
    }

    method SetPhase(p: GamePhase)
      requires Valid()
      modifies this`phase, this`retroSequence
      ensures Valid()
      ensures phase == p && retroSequence == KeyBufferAfter(old(phase), p, old(retroSequence))
    {
      retroSequence := KeyBufferAfter(phase, p, retroSequence);
      phase := p;
    }

    /** "Nouvelle Partie" on the title screen opens the name form. */
    method HandleStart()
      requires Valid()
      modifies this`phase, this`retroSequence
      ensures Valid()
      ensures phase == NameInput && retroSequence == KeyBufferAfter(old(phase), NameInput, old(retroSequence))
    {
      SetPhase(NameInput);
    }

    /** The name form's submission stores both names and shows the loading screen. */
    method HandleNameSubmit(director: string, school: string)
      requires Valid()
      modifies this`phase, this`retroSequence, this`directorName, this`schoolName
      ensures Valid()
      ensures directorName == director && schoolName == school
      ensures phase == Loading && retroSequence == KeyBufferAfter(old(phase), Loading, old(retroSequence))
    {
      directorName, schoolName := director, school;
      SetPhase(Loading);
    }

    /** The end of the 2 s loading screen: the introduction (whatever the phase is by then). */
    method LoadingDone()
      requires Valid()
      modifies this`phase, this`retroSequence
      ensures Valid()
      ensures phase == Intro && retroSequence == KeyBufferAfter(old(phase), Intro, old(retroSequence))
    {
      SetPhase(Intro);
    }

    method HandleIntroComplete()
      requires Valid()
      modifies this`phase, this`retroSequence
      ensures Valid()
      ensures phase == Playing && retroSequence == KeyBufferAfter(old(phase), Playing, old(retroSequence))
    {
      SetPhase(Playing);
    }

    /** The pause menu's restart: back to the introduction; indicators, reputation, completed steps and
        triggered events are reset; the names and the event on screen are kept. */
    method HandleRestart()
      requires Valid()
      modifies this`gameState, this`reputation, this`completedSteps, this`triggeredEvents
      modifies this`phase, this`retroSequence, this`isPaused, this`showMap
      ensures Valid()
      ensures gameState == INITIAL_GAME_STATE && reputation == INITIAL_REPUTATION
      ensures completedSteps == [] && triggeredEvents == []
      ensures phase == Intro && retroSequence == KeyBufferAfter(old(phase), Intro, old(retroSequence))
      ensures !isPaused && !showMap
    {
      gameState := INITIAL_GAME_STATE;
      reputation := INITIAL_REPUTATION;
      completedSteps := [];
      triggeredEvents := [];
      SetPhase(Intro);
      isPaused := false;
      showMap := false;
    }

    /** Back to the title screen: as a restart, and the names are forgotten too. */
    method HandleQuit()
      requires Valid()
      modifies this`gameState, this`reputation, this`completedSteps, this`triggeredEvents
      modifies this`directorName, this`schoolName
      modifies this`phase, this`retroSequence, this`isPaused, this`showMap
      ensures Valid()
      ensures gameState == INITIAL_GAME_STATE && reputation == INITIAL_REPUTATION
      ensures completedSteps == [] && triggeredEvents == []
      ensures directorName == [] && schoolName == []
      ensures phase == Title && retroSequence == KeyBufferAfter(old(phase), Title, old(retroSequence))
      ensures !isPaused && !showMap
    {
      gameState := INITIAL_GAME_STATE;
      reputation := INITIAL_REPUTATION;
      completedSteps := [];
      triggeredEvents := [];
      directorName, schoolName := [], [];
      SetPhase(Title);
      isPaused := false;
      showMap := false;
    }

    /** The map button of the indicators, and the map's close button. */
    method OpenMap()
      requires Valid()
      modifies this`showMap
      ensures Valid()
      ensures showMap
    {
      showMap := true;
    }

    method CloseMap()
      requires Valid()
      modifies this`showMap
      ensures Valid()
      ensures !showMap
    {
      showMap := false;
    }

    /** The arcade button of the end screen. */
    method StartRetroGame()
      requires Valid()
      modifies this`phase, this`retroSequence
      ensures Valid()
      ensures phase == RetroGaming && retroSequence == KeyBufferAfter(old(phase), RetroGaming, old(retroSequence))
    {
      SetPhase(RetroGaming);
    }

    /** Pause toggles only while playing. */
    method TogglePause()
      requires Valid()
      modifies this`isPaused
      ensures Valid()
      ensures isPaused == if phase == Playing then !old(isPaused) else old(isPaused)
    {
      if phase == Playing {
        isPaused := !isPaused;
      }
    }

    /** What a scenario choice does on the page at once: the stakeholders react as the
        impact table says for the current step, the notification lists the groups that
        moved, the current step is recorded as completed, and the check for the end of
        the game or a random event is scheduled for later. The indicators themselves
        are not touched here (the scenario screen commits them later). */
    method HandleChoiceMade(choice: Choice)
      requires Valid()
      modifies this`lastChoice, this`reputation, this`reputationChanges, this`completedSteps, this`pendingChecks
      ensures Valid()
      ensures lastChoice == Some(choice)
      ensures var impact := LookupImpact(StepKey(gameState.currentStepId), choice.id);
        && reputation == (if impact.Some? then ApplyReputationImpact(old(reputation), impact.value) else old(reputation))
        && reputationChanges == (if impact.Some? && ChangesOver(GROUPS, old(reputation), reputation, impact.value) != []
                                 then ChangesOver(GROUPS, old(reputation), reputation, impact.value)
                                 else old(reputationChanges))
      ensures completedSteps == RecordCompleted(old(completedSteps), gameState.currentStepId)
      ensures pendingChecks == old(pendingChecks) + [PendingCheck(NextStep(choice.nextId, gameState.currentStepId), triggeredEvents)]
    {
      lastChoice := Some(choice);
      var impact := LookupImpact(StepKey(gameState.currentStepId), choice.id);
      if impact.Some? {
        var before := reputation;
        reputation := ApplyReputationImpact(reputation, impact.value);
        var changes := CollectChanges(before, reputation, impact.value);
        if |changes| > 0 {
          reputationChanges := changes;
        }
      }
      completedSteps := RecordCompleted(completedSteps, gameState.currentStepId);
      pendingChecks := pendingChecks + [PendingCheck(NextStep(choice.nextId, gameState.currentStepId), triggeredEvents)];
    }

    /** The oldest scheduled check runs, with the values it captured: past the last
        step the game ends and no event is drawn; otherwise an event may be drawn for
        the next step, and is then shown and recorded as triggered at once. `rolls`
        and `pick` stand for the calls to `Math.random`. */
    method ChoiceTimerFires(rolls: seq<real>, pick: real)
      requires Valid() && pendingChecks != []
      requires |rolls| >= |RANDOM_EVENTS| && 0.0 <= pick < 1.0
      modifies this`pendingChecks, this`phase, this`retroSequence, this`currentEvent, this`triggeredEvents
      ensures Valid()
      ensures pendingChecks == old(pendingChecks)[1..]
      ensures var check := old(pendingChecks)[0];
        if check.nextStep > LAST_STEP then
          && phase == GameEnd && retroSequence == KeyBufferAfter(old(phase), GameEnd, old(retroSequence))
          && currentEvent == old(currentEvent) && triggeredEvents == old(triggeredEvents)
        else
          var drawn := GetRandomEvent(RANDOM_EVENTS, check.nextStep, check.triggeredSeen, rolls, pick);
          && phase == old(phase) && retroSequence == old(retroSequence)
          && currentEvent == (if drawn.Some? then drawn else old(currentEvent))
          && triggeredEvents == (if drawn.Some? then old(triggeredEvents) + [drawn.value.id] else old(triggeredEvents))
      ensures old(pendingChecks)[0].triggeredSeen == old(triggeredEvents) && NoDup(old(triggeredEvents)) ==> NoDup(triggeredEvents)
    {
      var check := pendingChecks[0];
      pendingChecks := pendingChecks[1..];
      if check.nextStep > LAST_STEP {
        SetPhase(GameEnd);
        return;
      }
      var drawn := GetRandomEvent(RANDOM_EVENTS, check.nextStep, check.triggeredSeen, rolls, pick);
      ShowEvent(drawn, check.triggeredSeen);
    }

    /** A drawn event, if any, goes on screen and is recorded as triggered. */
    method ShowEvent(drawn: Option<RandomEvent>, seen: seq<string>)
      requires drawn.Some? ==> drawn.value.id !in seen
      modifies this`currentEvent, this`triggeredEvents
      ensures currentEvent == (if drawn.Some? then drawn else old(currentEvent))
      ensures triggeredEvents == (if drawn.Some? then old(triggeredEvents) + [drawn.value.id] else old(triggeredEvents))
      ensures seen == old(triggeredEvents) && NoDup(old(triggeredEvents)) ==> NoDup(triggeredEvents)
    {
      if drawn.Some? {
        currentEvent := drawn;
        if seen == triggeredEvents && NoDup(triggeredEvents) {
          NoDupAppend(triggeredEvents, drawn.value.id);
        }
        triggeredEvents := triggeredEvents + [drawn.value.id];
      }
    }

    /** An answer to the event on screen: its budget, NIRD and dependence impacts
        (the last two clamped) and its reputation impact apply, and the event closes. */
    method ResolveEvent(c: RandomEventChoice)
      requires Valid() && currentEvent.Some? && c in currentEvent.value.choices
      modifies this`gameState, this`reputation, this`currentEvent
      ensures Valid()
      ensures gameState == EventOutcome(old(gameState), c)
      ensures reputation == ApplyReputationImpact(old(reputation), c.reputationImpact)
      ensures currentEvent.None?
    {
      gameState := EventOutcome(gameState, c);
      reputation := ApplyReputationImpact(reputation, c.reputationImpact);
      currentEvent := None;
    }

    /** A key press: Escape pauses or resumes the game while playing, and every key
        feeds the "RETRO" detector. */
    method HandleKeyDown(key: string)
      requires Valid()
      modifies this`isPaused, this`retroSequence, this`isRetroMode
      ensures Valid()
      ensures isPaused == if key == "Escape" && phase == Playing then !old(isPaused) else old(isPaused)
      ensures var r := RetroAppend(old(retroSequence), ToUpperCase(key));
        retroSequence == r.0 && isRetroMode == (old(isRetroMode) != r.1)
    {
      if key == "Escape" && phase == Playing {
        TogglePause();
      }
      var r := RetroAppend(retroSequence, ToUpperCase(key));
      retroSequence := r.0;
      if r.1 {
        isRetroMode := !isRetroMode;
      }
    }
  }
}
