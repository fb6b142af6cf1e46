/** The records the game engine shares with its scenario data: a choice offered
    at a scenario step, and the four numbers the session carries from step to
    step. The scenario steps themselves are data that this model does not fix:
    a choice is any record of this shape. */
module Scenario {
  import opened Common

  /** A scenario choice: its letter, its budget, NIRD and dependence deltas, and
      the step it leads to (`null` at the end of the scenario). */
  datatype Choice = Choice(id: string, cost: int, scoreNIRD: int, dependance: int, nextId: Option<int>)

  /** The session's indicators and current step (`null` once the scenario is over). */
  datatype GameState = GameState(budget: int, scoreNIRD: int, dependance: int, currentStepId: Option<int>)

  /** The number of scenario steps: a next step above this ends the game. */
  const LAST_STEP: int := 10
}
