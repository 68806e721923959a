/**
 * The data shapes of the simulator (types.ts): a team's four business
 * metrics, a choice with its impact, a scenario with its ordered choices,
 * a team as a value, and the five phases of a session.
 *
 * Every metric and impact is a whole number in the catalogue, so metrics are
 * unbounded mathematical integers. `infrastructure` and `brandAwareness` are
 * documented as 0-100 scores, but nothing bounds them: they are plain `int`s.
 */
module GameTypes {

  datatype Option<T> = None | Some(value: T)

  /** The four metrics of a team; a choice's impact has the same four fields. */
  datatype Metrics = Metrics(revenue: int, customers: int, infrastructure: int, brandAwareness: int)

  /** One answer to a scenario (its `label` is called `caption` here, `label` being a Dafny keyword); `impact` is added field by field to the team's metrics. */
  datatype Choice = Choice(id: string, caption: string, description: string, impact: Metrics, feedback: string)

  /** One round of the game: a situation and its ordered list of choices. */
  datatype Scenario = Scenario(id: int, title: string, unit: string, description: string, choices: seq<Choice>)

  /** A team as a value: what the dashboard and the leaderboard receive. */
  datatype Team = Team(id: int, name: string, color: string, metrics: Metrics, badges: seq<string>, history: seq<string>)

  /** SETUP, SCENARIO_INTRO, TEAM_TURN, ROUND_SUMMARY and GAME_OVER. */
  datatype GamePhase = Setup | ScenarioIntro | TeamTurn | RoundSummary | GameOver

  /** No string occurs twice in `s`. */
  predicate NoDuplicates(s: seq<string>)
  {
    forall i, j :: 0 <= i < j < |s| ==> s[i] != s[j]
  }

  /** No two teams of `s` share an id. */
  predicate DistinctIds(s: seq<Team>)
  {
    forall i, j :: 0 <= i < j < |s| ==> s[i].id != s[j].id
  }
}
