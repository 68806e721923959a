/**
 * The game session of App.tsx: the phase, the team records, the round and
 * team indices, the result card of the last choice and the pending market
 * analysis, with the operations the buttons of each screen trigger.
 *
 * The source mutates the active team record in place and replaces the
 * other session fields through setters; here the team records are objects
 * of class `TeamObject` and the session is an object of class `Session`.
 * Which operation is reachable from which screen is stated as `requires`.
 * Sounds are returned as values; the market analysis text arrives through
 * `ReceiveAnalysis`, as the continuation of the request `EndRound` starts.
 */
module Game {
  import opened GameTypes
  import opened Catalogue
  import opened Leaderboard
  import opened Rules
  import Dashboard

  /** A team record, whose metrics, badges and history a choice updates in place. */
  class TeamObject {
    const id: int
    const name: string
    const color: string
    var metrics: Metrics
    var badges: seq<string>
    var history: seq<string>

    /** The record as a value. */
    function Value(): Team
      reads this
    {
      Team(id, name, color, metrics, badges, history)
    }

    /** A team with the starting metrics and no badges or history. */
    constructor(id: int, name: string, color: string)
      ensures Value() == Team(id, name, color, InitialMetrics(), [], [])
    {
      this.id := id;
      this.name := name;
      this.color := color;
      metrics := InitialMetrics();
      badges := [];
      history := [];
    }

    /**
     * Applies a choice in place: adds the impact to each metric, appends the
     * choice's label to the history, then appends the badges now earned,
     * which it returns.
     */
    method Apply(choice: Choice) returns (unlocked: seq<string>)
      modifies this
      ensures Value() == ApplyChoice(old(Value()), choice)
      ensures unlocked == NewBadges(old(Value()), choice)
    {
      metrics := metrics.(revenue := metrics.revenue + choice.impact.revenue);
      metrics := metrics.(customers := metrics.customers + choice.impact.customers);
      metrics := metrics.(infrastructure := metrics.infrastructure + choice.impact.infrastructure);
      metrics := metrics.(brandAwareness := metrics.brandAwareness + choice.impact.brandAwareness);
      history := history + [choice.caption];
      unlocked := CheckForBadges(Value());
      if |unlocked| > 0 {
        badges := badges + unlocked;
      }
    }
  }

  /** `n` new team records, record `i` being team `i` of a new game. */
  method CreateTeams(n: nat) returns (ts: seq<TeamObject>)
    requires n <= |TeamConfigs()|
    ensures |ts| == n
    ensures forall i :: 0 <= i < n ==> fresh(ts[i]) && ts[i].Value() == InitialTeam(i)
    ensures forall i, j :: 0 <= i < j < n ==> ts[i] != ts[j]
    ensures Values(ts) == InitialTeams(n)
  {
    ts := [];
    var i := 0;
    while i < n
      invariant 0 <= i <= n && |ts| == i
      invariant forall k :: 0 <= k < i ==> fresh(ts[k]) && ts[k].Value() == InitialTeam(k)
      invariant forall k, l :: 0 <= k < l < i ==> ts[k] != ts[l]
    {
      var t := new TeamObject(i, TeamConfigs()[i].name, TeamConfigs()[i].color);
      ts := ts + [t];
      i := i + 1;
    }
    assert Values(ts) == InitialTeams(n);
  }

  /**
   * Team `i` of `ts` has id `i` and the name and colour of roster entry `i`,
   * and holds a duplicate-free list of known badges.
   */
  predicate RosterOk(ts: seq<Team>)
  {
    |ts| <= |TeamConfigs()| &&
    forall i :: 0 <= i < |ts| ==>
      ts[i].id == i && ts[i].name == TeamConfigs()[i].name && ts[i].color == TeamConfigs()[i].color &&
      NoDuplicates(ts[i].badges) && forall b | b in ts[i].badges :: b in BadgeOrder()
  }

  /** The first `chosen` teams of `ts` have made `round + 1` choices, the others `round`. */
  predicate HistoriesOk(ts: seq<Team>, round: nat, chosen: nat)
  {
    forall i :: 0 <= i < |ts| ==> |ts[i].history| == round + (if i < chosen then 1 else 0)
  }

  /** The teams of a new game fit the roster and have made no choice. */
  lemma NewGameOk(n: nat)
    requires n <= |TeamConfigs()|
    ensures RosterOk(InitialTeams(n)) && HistoriesOk(InitialTeams(n), 0, 0)
    ensures Progressed(ScenarioIntro, InitialTeams(n), 0, 0, n, None, 0, 0)
  {
    InitialTeamsShape(n);
  }

  /** A choice by team `k` keeps every team fitting the roster. */
  lemma ChoiceKeepsRoster(ts: seq<Team>, k: nat, choice: Choice)
    requires RosterOk(ts) && k < |ts|
    ensures RosterOk(ts[k := ApplyChoice(ts[k], choice)])
  {
    ApplyChoiceKeepsBadges(ts[k], choice);
  }

  /** After teams `0` to `k - 1`, a choice by team `k` makes teams `0` to `k` the ones ahead. */
  lemma ChoiceAdvancesHistories(ts: seq<Team>, round: nat, k: nat, choice: Choice)
    requires HistoriesOk(ts, round, k) && k < |ts|
    ensures HistoriesOk(ts[k := ApplyChoice(ts[k], choice)], round, k + 1)
  {
    ApplyChoiceEffect(ts[k], choice);
  }

  /** How many teams have chosen in the current round, read off the phase, the team index and the result card. */
  function ChosenCount(phase: GamePhase, index: nat, numTeams: nat, result: Option<TurnResult>): nat
  {
    match phase
    case TeamTurn => index + (if result.Some? then 1 else 0)
    case RoundSummary => numTeams
    case GameOver => numTeams
    case _ => 0
  }

  /**
   * The progress of a game in play: the teams that have chosen this round
   * (the ones before the current team, and the current team once its result
   * card is up) have made one more choice than the round index; the intro has
   * no result card and starts at team 0; the summary and the final screen come
   * after the last team; the counters of summaries and choices match; a
   * result card names the current team.
   */
  predicate Progressed(phase: GamePhase, ts: seq<Team>, round: nat, index: nat, numTeams: nat,
                       result: Option<TurnResult>, summaries: nat, choicesMade: nat)
  {
    var chosen := ChosenCount(phase, index, numTeams, result);
    (phase == ScenarioIntro ==> index == 0 && result == None) &&
    ((phase == RoundSummary || phase == GameOver) ==> index + 1 == numTeams && result == None) &&
    (phase == GameOver ==> round + 1 == ScenarioCount) &&
    HistoriesOk(ts, round, chosen) &&
    summaries == round + (if phase == RoundSummary || phase == GameOver then 1 else 0) &&
    choicesMade == round * numTeams + chosen &&
    (result.Some? && index < |ts| ==> result.value.teamName == ts[index].name)
  }

  /** A choice by the current team while no result card is up moves the game on by one choice. */
  lemma ChoiceProgresses(ts: seq<Team>, round: nat, index: nat, numTeams: nat, summaries: nat, choicesMade: nat,
                         choice: Choice, card: TurnResult)
    requires Progressed(TeamTurn, ts, round, index, numTeams, None, summaries, choicesMade)
    requires index < |ts| && card.teamName == ts[index].name
    ensures Progressed(TeamTurn, ts[index := ApplyChoice(ts[index], choice)], round, index, numTeams,
                       Some(card), summaries, choicesMade + 1)
  {
    ChoiceAdvancesHistories(ts, round, index, choice);
  }

  /**
   * The button of a result card: the next team is up with no card, or,
   * after the last team, the round summary comes with one more summary.
   */
  lemma ProceedProgresses(ts: seq<Team>, round: nat, index: nat, numTeams: nat, summaries: nat, choicesMade: nat,
                          card: TurnResult)
    requires Progressed(TeamTurn, ts, round, index, numTeams, Some(card), summaries, choicesMade)
    requires index < numTeams
    ensures index + 1 < numTeams ==>
      Progressed(TeamTurn, ts, round, index + 1, numTeams, None, summaries, choicesMade)
    ensures index + 1 >= numTeams ==>
      Progressed(RoundSummary, ts, round, index, numTeams, None, summaries + 1, choicesMade)
  {
  }

  /**
   * The button of a round summary: the next round starts at team 0 with
   * every team one choice further, or, after the last scenario, the game is
   * over with every team having chosen once per scenario.
   */
  lemma NextRoundProgresses(ts: seq<Team>, round: nat, index: nat, numTeams: nat, summaries: nat, choicesMade: nat)
    requires Progressed(RoundSummary, ts, round, index, numTeams, None, summaries, choicesMade)
    requires |ts| == numTeams && round < ScenarioCount
    ensures round + 1 < ScenarioCount ==>
      Progressed(ScenarioIntro, ts, round + 1, 0, numTeams, None, summaries, choicesMade)
    ensures round + 1 >= ScenarioCount ==>
      Progressed(GameOver, ts, round, index, numTeams, None, summaries, choicesMade)
  {
    assert (round + 1) * numTeams == round * numTeams + numTeams;
  }

  /** The values of the records `ts`, in order. */
  function Values(ts: seq<TeamObject>): (r: seq<Team>)
    reads ts
    ensures |r| == |ts|
  {
    seq(|ts|, i requires 0 <= i < |ts| reads ts => ts[i].Value())
  }

  /** Value `i` is the value of record `i`. */
  lemma ValueAt(ts: seq<TeamObject>, i: nat)
    requires i < |ts|
    ensures Values(ts)[i] == ts[i].Value()
  {
  }

  class Session {
    var phase: GamePhase
    var teams: seq<TeamObject>
    /** The index of the current round's scenario. */
    var currentRound: nat
    var currentTeamIndex: nat
    var numTeams: nat
    var marketAnalysis: string
    /** Whether a market analysis has been requested and has not arrived yet. */
    var isAnalyzing: bool
    /** The result card of the last choice, shown instead of the choices while present. */
    var turnResult: Option<TurnResult>
    /** How many times the current game has entered the round summary. */
    ghost var summaries: nat
    /** How many choices the current game has applied. */
    ghost var choicesMade: nat

    /** The team records as values, in team order. */
    function Snapshot(): seq<Team>
      reads this`teams, teams
    {
      Values(teams)
    }

    /**
     * The shape of the session: outside setup there is one distinct record
     * per team, team `i` has id `i` and roster entry `i`, the indices are in
     * range, and every badge list is duplicate-free and holds known badges.
     */
    predicate Inv()
      reads this, teams
    {
      2 <= numTeams <= 4 &&
      (phase == Setup ==> teams == []) &&
      (phase != Setup ==>
        |teams| == numTeams &&
        (forall i, j :: 0 <= i < j < |teams| ==> teams[i] != teams[j]) &&
        currentRound < ScenarioCount && currentTeamIndex < numTeams &&
        RosterOk(Snapshot()))
    }

    /** The progress of the game in play, on the values of the fields. */
    ghost predicate Progress()
      reads this, teams
    {
      phase != Setup ==>
        Progressed(phase, Snapshot(), currentRound, currentTeamIndex, numTeams, turnResult, summaries, choicesMade)
    }

    ghost predicate Valid()
      reads this, teams
    {
      Inv() && Progress()
    }

    /** The session a page load starts with. */
    constructor()
      ensures Valid()
      ensures phase == Setup && teams == [] && numTeams == 2
      ensures currentRound == 0 && currentTeamIndex == 0
      ensures marketAnalysis == "" && !isAnalyzing && turnResult == None
    {
      phase := Setup;
      teams := [];
      currentRound := 0;
      currentTeamIndex := 0;
      numTeams := 2;
      marketAnalysis := "";
      isAnalyzing := false;
      turnResult := None;
      summaries := 0;
      choicesMade := 0;
    }

    /** One of the team-count buttons of the setup screen. */
    method SetNumTeams(n: nat)
      requires Valid() && phase == Setup && n in OfferedTeamCounts()
      modifies this
      ensures Valid() && numTeams == n
      ensures phase == Setup && teams == [] && currentRound == old(currentRound)
      ensures currentTeamIndex == old(currentTeamIndex) && turnResult == old(turnResult)
      ensures marketAnalysis == old(marketAnalysis) && isAnalyzing == old(isAnalyzing)
    {
      numTeams := n;
    }

    /**
     * Starts a game with `numTeams` new teams at round 0, team 0, on the
     * scenario intro, with no result card.
     */
    method StartGame()
      requires Valid() && phase == Setup
      modifies this
      ensures Valid()
      ensures phase == ScenarioIntro && currentRound == 0 && currentTeamIndex == 0 && turnResult == None
      ensures Snapshot() == InitialTeams(numTeams)
      ensures forall i :: 0 <= i < |teams| ==> fresh(teams[i])
      ensures numTeams == old(numTeams) && marketAnalysis == old(marketAnalysis) && isAnalyzing == old(isAnalyzing)
      ensures summaries == 0 && choicesMade == 0
    {
      TeamConfigsShape();
      teams := CreateTeams(numTeams);
      currentRound := 0;
      currentTeamIndex := 0;
      turnResult := None;
      phase := ScenarioIntro;
      summaries := 0;
      choicesMade := 0;
      NewGameValid();
    }

    /**
     * `StartGame` as App.tsx:31-50 writes it: `turnResult` is not cleared,
     * so a result card left over from a game reset on that card survives
     * into the new game, and the session then breaks `Progress`.
     */
    method StartGameAsWritten()
      requires Valid() && phase == Setup
      modifies this
      ensures Inv()
      ensures phase == ScenarioIntro && currentRound == 0 && currentTeamIndex == 0 && turnResult == old(turnResult)
      ensures Snapshot() == InitialTeams(numTeams)
      ensures forall i :: 0 <= i < |teams| ==> fresh(teams[i])
      ensures numTeams == old(numTeams) && marketAnalysis == old(marketAnalysis) && isAnalyzing == old(isAnalyzing)
      ensures Progress() <==> old(turnResult) == None
    {
      TeamConfigsShape();
      teams := CreateTeams(numTeams);
      currentRound := 0;
      currentTeamIndex := 0;
      phase := ScenarioIntro;
      summaries := 0;
      choicesMade := 0;
      NewGameValid();
    }

    /**
     * A session on the intro of round 0 with new teams satisfies the
     * invariants, and is in a consistent state exactly when no result card
     * is up.
     */
    lemma NewGameValid()
      requires 2 <= numTeams <= 4 && phase == ScenarioIntro && currentRound == 0 && currentTeamIndex == 0
      requires |teams| == numTeams && forall i, j :: 0 <= i < j < |teams| ==> teams[i] != teams[j]
      requires Snapshot() == InitialTeams(numTeams)
      requires summaries == 0 && choicesMade == 0
      ensures Inv()
      ensures Progress() <==> turnResult == None
    {
      TeamConfigsShape();
      NewGameOk(numTeams);
    }

    /** The "Begin Decision Phase" button of the scenario intro (App.tsx:206). */
    method BeginDecisionPhase()
      requires Inv() && phase == ScenarioIntro
      modifies this
      ensures Inv() && phase == TeamTurn
      ensures teams == old(teams) && currentRound == old(currentRound) && currentTeamIndex == old(currentTeamIndex)
      ensures numTeams == old(numTeams) && turnResult == old(turnResult)
      ensures marketAnalysis == old(marketAnalysis) && isAnalyzing == old(isAnalyzing)
      ensures summaries == old(summaries) && choicesMade == old(choicesMade)
      ensures old(Progress()) ==> Progress()
    {
      phase := TeamTurn;
    }

    /**
     * The current team picks `choice` while no result card is up (the
     * screen offers the current scenario's choices; the handler itself
     * takes any choice): its record is updated in place,
     * every other record is left alone, and the result card shows the team,
     * the choice, its impact and the badges it unlocked.
     */
    method HandleChoice(choice: Choice) returns (sound: Sound)
      requires Valid() && phase == TeamTurn && turnResult == None
      modifies this, teams[currentTeamIndex]
      ensures Valid()
      ensures teams == old(teams) && phase == TeamTurn && currentRound == old(currentRound)
      ensures currentTeamIndex == old(currentTeamIndex) && numTeams == old(numTeams)
      ensures Snapshot() == old(Snapshot())[currentTeamIndex := ApplyChoice(old(Snapshot())[currentTeamIndex], choice)]
      ensures turnResult == Some(TurnResult(
        teams[currentTeamIndex].name, teams[currentTeamIndex].color, choice.caption, choice.feedback,
        choice.impact, NewBadges(old(Snapshot())[currentTeamIndex], choice)))
      ensures sound == SoundFor(NewBadges(old(Snapshot())[currentTeamIndex], choice), choice.impact)
      ensures marketAnalysis == old(marketAnalysis) && isAnalyzing == old(isAnalyzing)
      ensures summaries == old(summaries) && choicesMade == old(choicesMade) + 1
    {
      ghost var before := Snapshot();
      var team := teams[currentTeamIndex];
      var unlocked := ApplyToCurrent(choice);
      sound := SoundFor(unlocked, choice.impact);
      turnResult := Some(TurnResult(team.name, team.color, choice.caption, choice.feedback, choice.impact, unlocked));
      choicesMade := choicesMade + 1;
      ValidAfterChoice(before, choice);
    }

    /**
     * The invariants hold again once the current team's choice has been
     * applied to `before`, the records as they were, and its result card is up.
     */
    lemma ValidAfterChoice(before: seq<Team>, choice: Choice)
      requires 2 <= numTeams <= 4 && phase == TeamTurn && currentRound < ScenarioCount && currentTeamIndex < numTeams
      requires |teams| == numTeams && forall i, j :: 0 <= i < j < |teams| ==> teams[i] != teams[j]
      requires |before| == |teams| && RosterOk(before) && choicesMade > 0
      requires Progressed(TeamTurn, before, currentRound, currentTeamIndex, numTeams, None, summaries, choicesMade - 1)
      requires Snapshot() == before[currentTeamIndex := ApplyChoice(before[currentTeamIndex], choice)]
      requires turnResult.Some? && turnResult.value.teamName == teams[currentTeamIndex].name
      ensures Valid()
    {
      ChoiceKeepsRoster(before, currentTeamIndex, choice);
      ChoiceProgresses(before, currentRound, currentTeamIndex, numTeams, summaries, choicesMade - 1, choice, turnResult.value);
    }

    /** Applies `choice` to the current team's record and to no other. */
    method ApplyToCurrent(choice: Choice) returns (unlocked: seq<string>)
      requires currentTeamIndex < |teams|
      requires forall i, j :: 0 <= i < j < |teams| ==> teams[i] != teams[j]
      modifies teams[currentTeamIndex]
      ensures Snapshot() == old(Snapshot())[currentTeamIndex := ApplyChoice(old(Snapshot())[currentTeamIndex], choice)]
      ensures unlocked == NewBadges(old(Snapshot())[currentTeamIndex], choice)
    {
      ghost var before := Snapshot();
      unlocked := teams[currentTeamIndex].Apply(choice);
      assert Snapshot() == before[currentTeamIndex := ApplyChoice(before[currentTeamIndex], choice)];
    }

    /**
     * The button of the result card: the card goes away and the next team
     * is up, or, after the last team, the round ends.
     */
    method HandleProceed()
      requires Inv() && phase == TeamTurn && turnResult.Some?
      modifies this
      ensures Inv() && turnResult == None
      ensures old(currentTeamIndex) + 1 < numTeams ==>
        phase == TeamTurn && currentTeamIndex == old(currentTeamIndex) + 1 &&
        isAnalyzing == old(isAnalyzing) && summaries == old(summaries)
      ensures old(currentTeamIndex) + 1 >= numTeams ==>
        phase == RoundSummary && isAnalyzing && currentTeamIndex == old(currentTeamIndex) &&
        summaries == old(summaries) + 1
      ensures teams == old(teams) && currentRound == old(currentRound) && numTeams == old(numTeams)
      ensures marketAnalysis == old(marketAnalysis) && choicesMade == old(choicesMade)
      ensures old(Progress()) ==> Progress()
    {
      if Progress() {
        ProceedProgresses(Snapshot(), currentRound, currentTeamIndex, numTeams, summaries, choicesMade, turnResult.value);
      }
      turnResult := None;
      if currentTeamIndex + 1 < numTeams {
        NextTeam();
      } else {
        EndRound();
      }
    }

    /** Hands the turn to the next team. */
    method NextTeam()
      requires Inv() && phase == TeamTurn && currentTeamIndex + 1 < numTeams
      modifies this
      ensures Inv() && phase == TeamTurn && currentTeamIndex == old(currentTeamIndex) + 1
      ensures teams == old(teams) && currentRound == old(currentRound) && numTeams == old(numTeams)
      ensures turnResult == old(turnResult) && marketAnalysis == old(marketAnalysis) && isAnalyzing == old(isAnalyzing)
      ensures summaries == old(summaries) && choicesMade == old(choicesMade)
    {
      currentTeamIndex := currentTeamIndex + 1;
    }

    /** Ends the round: the summary screen, with a market analysis requested. */
    method EndRound()
      requires Inv() && phase == TeamTurn
      modifies this
      ensures Inv() && phase == RoundSummary && isAnalyzing && summaries == old(summaries) + 1
      ensures teams == old(teams) && currentRound == old(currentRound) && currentTeamIndex == old(currentTeamIndex)
      ensures numTeams == old(numTeams) && turnResult == old(turnResult)
      ensures marketAnalysis == old(marketAnalysis) && choicesMade == old(choicesMade)
    {
      phase := RoundSummary;
      isAnalyzing := true;
      summaries := summaries + 1;
    }

    /** The requested market analysis arrives: its text is stored and nothing is pending. */
    method ReceiveAnalysis(text: string)
      requires Valid() && isAnalyzing
      modifies this
      ensures Valid() && marketAnalysis == text && !isAnalyzing
      ensures phase == old(phase) && teams == old(teams) && currentRound == old(currentRound)
      ensures currentTeamIndex == old(currentTeamIndex) && numTeams == old(numTeams)
      ensures turnResult == old(turnResult) && summaries == old(summaries) && choicesMade == old(choicesMade)
    {
      marketAnalysis := text;
      isAnalyzing := false;
    }

    /**
     * The button of the round summary: the next round's intro at team 0, or,
     * after the last scenario, the final screen with the round unchanged.
     */
    method NextRound()
      requires Valid() && phase == RoundSummary
      modifies this
      ensures Valid()
      ensures old(currentRound) + 1 < ScenarioCount ==>
        phase == ScenarioIntro && currentRound == old(currentRound) + 1 && currentTeamIndex == 0
      ensures old(currentRound) + 1 >= ScenarioCount ==>
        phase == GameOver && currentRound == old(currentRound) && currentTeamIndex == old(currentTeamIndex)
      ensures teams == old(teams) && numTeams == old(numTeams) && turnResult == old(turnResult)
      ensures marketAnalysis == old(marketAnalysis) && isAnalyzing == old(isAnalyzing)
      ensures summaries == old(summaries) && choicesMade == old(choicesMade)
    {
      NextRoundProgresses(Snapshot(), currentRound, currentTeamIndex, numTeams, summaries, choicesMade);
      if currentRound + 1 < ScenarioCount {
        StartRound(currentRound + 1);
      } else {
        phase := GameOver;
      }
    }

    /** Moves on to the intro of round `round`, at team 0. */
    method StartRound(round: nat)
      requires Inv() && phase != Setup && round < ScenarioCount
      requires Progressed(ScenarioIntro, Snapshot(), round, 0, numTeams, turnResult, summaries, choicesMade)
      modifies this
      ensures Valid() && phase == ScenarioIntro && currentRound == round && currentTeamIndex == 0
      ensures teams == old(teams) && numTeams == old(numTeams) && turnResult == old(turnResult)
      ensures marketAnalysis == old(marketAnalysis) && isAnalyzing == old(isAnalyzing)
      ensures summaries == old(summaries) && choicesMade == old(choicesMade)
    {
      currentRound := round;
      currentTeamIndex := 0;
      phase := ScenarioIntro;
    }

    /** The reset buttons: back to setup with no teams; nothing else changes. */
    method ResetGame()
      requires Inv() && phase != Setup
      modifies this
      ensures Valid() && phase == Setup && teams == []
      ensures currentRound == old(currentRound) && currentTeamIndex == old(currentTeamIndex)
      ensures numTeams == old(numTeams) && turnResult == old(turnResult)
      ensures marketAnalysis == old(marketAnalysis) && isAnalyzing == old(isAnalyzing)
    {
      phase := Setup;
      teams := [];
    }

    /** The id the dashboard highlights: the current team's during a team turn, none otherwise. */
    function CurrentTeamId(): Option<int>
      requires Inv()
      reads this, teams
    {
      if phase == TeamTurn then Some(teams[currentTeamIndex].id) else None
    }

    /** During a team turn the dashboard highlights exactly the current team's card, otherwise none. */
    lemma OnlyCurrentTeamHighlighted()
      requires Inv()
      ensures var cards := Dashboard.Cards(Snapshot(), CurrentTeamId());
        |cards| == |teams| &&
        forall i :: 0 <= i < |cards| ==> (cards[i].isTurn <==> phase == TeamTurn && i == currentTeamIndex)
    {
      if phase == TeamTurn {
        ValueAt(teams, currentTeamIndex);
      }
      assert DistinctIds(Snapshot());
      Dashboard.CardsFollowTeams(Snapshot(), CurrentTeamId());
    }

    /** On the summary and final screens there is a leader, and no team has more revenue. */
    lemma StandingsHaveLeader()
      requires Inv() && (phase == RoundSummary || phase == GameOver)
      ensures |Snapshot()| == numTeams > 0
      ensures Leader(Snapshot()) in Snapshot()
      ensures forall t | t in Snapshot() :: t.metrics.revenue <= Leader(Snapshot()).metrics.revenue
    {
      LeaderIsTop(Snapshot());
    }

    /**
     * A finished game has passed through the round summary once per
     * scenario and applied one choice per team and scenario; every team
     * has made one choice per scenario.
     */
    lemma GameOverCounts()
      requires Valid() && phase == GameOver
      ensures summaries == |Scenarios()|
      ensures choicesMade == |Scenarios()| * numTeams
      ensures forall i :: 0 <= i < |teams| ==> |teams[i].history| == |Scenarios()|
    {
      assert |Scenarios()| == ScenarioCount;
      assert choicesMade == (currentRound + 1) * numTeams;
      forall i | 0 <= i < |teams| ensures |teams[i].history| == |Scenarios()| {
        ValueAt(teams, i);
      }
    }
  }

  /**
   * A new two-team game in which team 0 picks `choice` and the game is reset
   * while its result card is up: back on the setup screen, the card is still
   * held.
   */
  method ResetOnResultCard(choice: Choice) returns (s: Session)
    ensures fresh(s) && s.Valid() && s.phase == Setup && s.numTeams == 2 && s.turnResult.Some?
  {
    s := new Session();
    s.StartGame();
    s.BeginDecisionPhase();
    var chosen := s.HandleChoice(choice);
    s.ResetGame();
  }

  /**
   * A game reset on a result card and started again with `StartGameAsWritten`
   * shows the old result card on its first team turn; its button then hands
   * the turn to team 1, so team 0 never chooses in the first round and the
   * session is no longer consistent.
   */
  method StaleResultAfterReset(choice: Choice) returns (s: Session)
    ensures s.phase == TeamTurn && s.currentRound == 0 && s.currentTeamIndex == 1
    ensures |s.teams| == 2 && s.teams[0].history == []
    ensures s.Inv() && !s.Progress()
  {
    s := ResetOnResultCard(choice);
    s.StartGameAsWritten();
    s.BeginDecisionPhase();
    s.HandleProceed();
    ValueAt(s.teams, 0);
  }

  /**
   * The same steps with `StartGame`: the first team turn of the new game
   * offers the choices to team 0.
   */
  method FreshTurnAfterReset(choice: Choice) returns (s: Session)
    ensures s.Valid() && s.phase == TeamTurn && s.currentTeamIndex == 0 && s.turnResult == None
    ensures |s.teams| == 2 && s.teams[0].history == []
  {
    s := ResetOnResultCard(choice);
    s.StartGame();
    s.BeginDecisionPhase();
    ValueAt(s.teams, 0);
  }
}
