# E-Com Tycoon game engine in Dafny

This project models the game engine of E-Com Tycoon, a turn-based classroom
business simulator. Two to four teams run competing online shops over ten
rounds. In each round every team in turn answers the same scenario by picking
one of three choices. A choice adds its impact to the team's revenue,
customers, infrastructure and brand awareness, appends the choice to the team's
history and may unlock badges. After the last team of a round, a round summary
ranks the teams by revenue. After the tenth round the final standings name the
winner.

The project has one Dafny file per part of the engine:

- `types.dfy` (module `GameTypes`): the records of `types.ts` (metrics,
  choice, scenario, team) and the five game phases, as datatypes.
- `catalogue.dfy` (module `Catalogue`): the constant data of `constants.ts`.
  It holds the starting metrics, the roster of four team names and colours,
  the badge table and the ten scenarios with three choices each, plus lemmas
  that check the facts the engine relies on.
- `leaderboard.dfy` (module `Leaderboard`): the revenue ranking that the round
  summary, the final standings and the dashboard compute. It is a stable sort
  by descending revenue, proved sorted, a permutation and stable. The leader is
  proved to be the first team with the highest revenue.
- `dashboard.dfy` (module `Dashboard`): the team cards of
  `components/Dashboard.tsx`. Each card has a rank from the sorted copy and
  `findIndex`, the turn highlight, the award for rank 1, progress bars clamped
  at 100 and the badges that have a table entry.
- `rules.dfy` (module `Rules`): the pure rules of `App.tsx`, proved against
  reference definitions.
  - `checkForBadges`: which badges a team earns.
  - What a choice does to a team.
  - Which sound a choice triggers.
  - The teams a new game starts with.
- `game.dfy` (module `Game`): the session of `App.tsx` as two classes.
  - `TeamObject` is a team record that a choice updates in place.
  - `Session` holds the phase, the team records, the round and team indices,
    the team count, the result card and the pending market analysis.
  - Its methods are the handlers of `App.tsx`. Each is proved against the
    pure rules, and each preserves the session invariant `Inv` (indices in
    range, one distinct record per team, duplicate-free badge lists of known
    badges).
  - The ghost predicate `Progress` ties the team histories to the round and
    team indices. It says that the teams that have chosen this round have one
    more history entry than the round index, and that the two ghost counters
    (round summaries entered, choices applied) match.
  - From `Progress` it follows that a finished game has applied exactly
    `|Scenarios()| * numTeams` choices. This holds for games started with
    `StartGame`, the corrected startGame, which clears the result card (see
    "## Findings"). `StartGameAsWritten` is startGame as App.tsx:31-50
    writes it, and it leaves the card in place. When a result card is left
    over from a reset, a game started that way does not satisfy `Progress`.
    It ends with one choice fewer, and team 0 is one history entry short.

The screen that is showing decides which buttons exist. So the condition under
which the UI offers an operation is stated as that method's `requires`. For
example, `HandleProceed` needs a result card, and `NextRound` needs the round
summary.

A reset is evidently meant to discard the session. `resetGame`
(App.tsx:146-149) only sets the phase and empties the team list, and
`ResetGame` models exactly that. The stale result card in the finding below
comes from this.

## Model

| member | source | states |
|---|---|---|
| Catalogue.InitialMetricsValues | constants.ts:4-7 | every team starts with revenue 10000, customers 0, infrastructure 10 and brand awareness 10 |
| Catalogue.TeamConfigsShape | constants.ts:9-14 | the roster has four entries with pairwise distinct names |
| Catalogue.ScenarioShape | constants.ts:49-340 | there are ten scenarios, scenario `i` has id `i + 1` (play order), and each offers exactly three choices |
| Catalogue.ScenariosByPosition | constants.ts:49-340 | every choice of the scenario list is the entry of the positional tables at its scenario and choice position |
| Catalogue.ChoiceIdPosition | constants.ts:55-338 | the choice id found at a position maps back to that position, so each id names exactly one choice |
| Catalogue.ChoiceIdsDistinct | constants.ts:55-338 | the 30 choice ids of the catalogue are pairwise distinct |
| Catalogue.NegativeImpactPositions | constants.ts:258-338 | exactly five positions of the impact table have a field below zero |
| Catalogue.NegativeImpacts | constants.ts:258-338 | a choice of the catalogue has a negative impact field if and only if it is one of those five |
| Catalogue.NegativeChoices | constants.ts:258-338 | the five are Price War (brand -10), Hyper-Niche Branding (customers -100), Smart Service Bots (brand -10), Full Security Audit (revenue -2000) and Cyber Insurance & 3rd Party (revenue -500) |
| Leaderboard.Insert | App.tsx:331 | inserting a team into a ranking adds exactly that team to the multiset of teams |
| Leaderboard.InsertKeepsOrder | App.tsx:331 | inserting into a ranking ordered by non-increasing revenue keeps it ordered |
| Leaderboard.SortByRevenue | App.tsx:331 | the ranking is a permutation of the teams, ordered by non-increasing revenue |
| Leaderboard.InsertWithRevenue | App.tsx:331 | insertion puts a team ahead of the teams with equal revenue and leaves their relative order alone |
| Leaderboard.SortIsStable | App.tsx:384 | for every revenue value, the teams with that revenue appear in the ranking in their team-list order |
| Leaderboard.LeaderIsTop | App.tsx:331-332 | the leader (first in the ranking) is one of the teams, and no team has more revenue |
| Leaderboard.FirstWithRevenue | App.tsx:384 | every team before the first team with a given revenue has a different revenue |
| Leaderboard.LeaderIsFirstTop | App.tsx:405 | ties go to the earlier team: the leader is a team of the list and every team before it has strictly less revenue |
| Dashboard.FindIndexById | components/Dashboard.tsx:19 | `findIndex` gives the first position holding the id, or -1 exactly when no team has it |
| Dashboard.BarWidth | components/Dashboard.tsx:60-77 | a progress bar is never wider than 100 or than the score, and equals one of the two |
| Dashboard.VisibleBadges | components/Dashboard.tsx:85-89 | a card shows exactly the team's badges that have an entry in the badge table, and never more badges than the team holds |
| Dashboard.RankIsPosition | components/Dashboard.tsx:13-19 | with distinct ids, a team's rank lies between 1 and the number of teams, and the team sits at that position of the ranking |
| Dashboard.SortedHoldsTeam | components/Dashboard.tsx:13 | a team is in the sorted copy exactly when it is in the team list |
| Dashboard.SameIdSameTeam | components/Dashboard.tsx:19 | with distinct ids, two teams of the list with the same id are the same team |
| Dashboard.RankOneIsLeader | components/Dashboard.tsx:37 | with distinct ids, a team has rank 1 (the award) exactly when it is the leader, and then no team has more revenue |
| Dashboard.CardsFollowTeams | components/Dashboard.tsx:13-89 | cards follow the team list: each shows its own team's id, name, the four raw metrics, infrastructure and brand bars of `min(100, score)`, the badges that have a table entry and a rank in range; a card is highlighted exactly when its id is the current id, and with distinct ids at most one card is highlighted and exactly one carries the award |
| Rules.EarnedMembers | App.tsx:54-66 | the reference list holds exactly the badges of the order whose threshold is met and that are not held, and is duplicate-free when the order is |
| Rules.EarnedCons | App.tsx:59-63 | the reference list of a badge followed by more badges is that badge's result followed by theirs |
| Rules.CheckForBadgesIsEarned | App.tsx:54-66 | `checkForBadges` returns the reference list for the fixed order UNICORN, VIRAL_SENSATION, TECH_TITAN, BRAND_ICON, SCALABLE |
| Rules.CheckForBadgesSpec | App.tsx:54-66 | `checkForBadges` returns exactly the badges whose threshold holds (revenue 40000, customers 2500, infrastructure 80, brand 80, infrastructure 60) and that the team does not hold, each once |
| Rules.BadgeTableCoversRules | constants.ts:16-47 | the badge table has an entry for exactly the five badges `checkForBadges` can award, so every lookup of an awarded badge finds one |
| Rules.OfferedCountsFitRoster | App.tsx:166 | every team count the setup screen offers (2, 3, 4) has a roster entry for each team |
| Rules.ApplyChoiceEffect | App.tsx:68-85 | a choice keeps the team's id, name and colour, changes each metric by exactly its impact field with no clamping, appends the label to the history, and afterwards the team holds a badge exactly when it held it or meets its threshold now |
| Rules.ApplyChoiceKeepsBadges | App.tsx:81-85 | the old badge list is a prefix of the new one, and a duplicate-free list of known badges stays so |
| Rules.HeldBadgeNotReAdded | App.tsx:59-63 | a badge the team holds is never added again, whatever its metrics did in between |
| Rules.ApplyChoicesKeepsBadges | App.tsx:68-85 | over any run of choices the history grows by one entry per choice, the badge list only grows, and it stays duplicate-free with known badges |
| Rules.SoundPriority | App.tsx:90-98 | a new badge sounds the milestone; otherwise a revenue loss sounds the loss; otherwise a gain over 2000 revenue or 300 customers sounds money; otherwise a click (each as an if-and-only-if) |
| Rules.InitialTeamsShape | App.tsx:33-45 | a new game has `n` teams; team `i` has id `i`, the roster entry `i`'s name and colour, the starting metrics and no badges or history; ids and names are distinct |
| Rules.JoinMarketplaceExample | constants.ts:56-60 | choosing Join a Marketplace from the starting metrics gives (15000, 500, 15, 20), unlocks no badge and sounds money |
| Rules.UnicornOnce | App.tsx:59 | a team crossing 40000 revenue earns UNICORN, and the same choice again does not award it a second time |
| Game.TeamObject.constructor | App.tsx:33-45 | a new record has the given id, name and colour, the starting metrics and empty badge and history lists |
| Game.TeamObject.Apply | App.tsx:72-85 | the record in place becomes the team after the choice, and the returned list is the badges it unlocked |
| Game.CreateTeams | App.tsx:33-45 | `n` fresh, distinct records, record `i` holding team `i` of a new game |
| Game.NewGameOk | App.tsx:31-50 | the teams of a new game fit the roster, have made no choice and are at the start of round 0 |
| Game.ChoiceKeepsRoster | App.tsx:68-85 | a choice by one team keeps every team's id, name, colour and badge-list invariant |
| Game.ChoiceAdvancesHistories | App.tsx:79 | after teams `0` to `k - 1`, a choice by team `k` puts teams `0` to `k` one history entry ahead of the rest |
| Game.ChoiceProgresses | App.tsx:68-107 | a choice by the current team with no result card up moves the game on by exactly one choice, with a card naming that team |
| Game.ProceedProgresses | App.tsx:112-128 | the result-card button leads to the next team's turn with no card or, after the last team, to the round summary with one more summary |
| Game.NextRoundProgresses | App.tsx:135-144 | the summary button leads to the next round's intro at team 0 or, after the last scenario, to the final screen with every team at one choice per scenario |
| Game.Session.constructor | App.tsx:20-27 | a page load starts on the setup screen with no teams, two teams selected, round and team 0, no analysis and no result card |
| Game.Session.SetNumTeams | App.tsx:166-169 | a team-count button sets the count to 2, 3 or 4 and changes nothing else |
| Game.Session.StartGame | App.tsx:31-50 | startGame as corrected: it also clears the result card, which the source's startGame does not (see Findings). A new game has `numTeams` fresh records holding the teams of a new game, round 0, team 0, the scenario intro and no result card, and is consistent |
| Game.Session.StartGameAsWritten | App.tsx:31-50 | startGame as the source writes it: the same new teams, round 0, team 0 and scenario intro, keeping the old result card; the session is consistent exactly when no card was left over |
| Game.Session.NewGameValid | App.tsx:31-50 | a session on the intro of round 0 with new teams meets the invariant, and is consistent exactly when no result card is up |
| Game.Session.BeginDecisionPhase | App.tsx:206 | the intro button switches to the team turn and changes nothing else |
| Game.Session.HandleChoice | App.tsx:68-110 | only the current team's record changes, to the team after the choice; the result card shows that team, the choice, its impact and the badges unlocked; the sound follows the priority rule; one more choice is counted |
| Game.Session.ValidAfterChoice | App.tsx:68-110 | once the choice is applied to the current record and its card is up, the invariants hold again |
| Game.Session.ApplyToCurrent | App.tsx:69-85 | the choice is applied to the current team's record and to no other |
| Game.Session.HandleProceed | App.tsx:112-120 | the result card is cleared; the next team is up, or after the last team the round summary comes with the analysis pending; a consistent session stays consistent |
| Game.Session.NextTeam | App.tsx:115-116 | the turn passes to the next team and nothing else changes |
| Game.Session.EndRound | App.tsx:122-133 | the round summary comes with the analysis pending; the teams, indices and result card are untouched |
| Game.Session.ReceiveAnalysis | App.tsx:130-132 | the analysis text is stored and nothing is pending any more; nothing else changes |
| Game.Session.NextRound | App.tsx:135-144 | the next round's intro at team 0, or after the last scenario the final screen with the round unchanged |
| Game.Session.StartRound | App.tsx:137-140 | moving to the intro of a later round at team 0 keeps the session consistent |
| Game.Session.ResetGame | App.tsx:146-149 | back to setup with no teams; the round, team index, team count, result card and analysis keep their values |
| Game.Session.OnlyCurrentTeamHighlighted | App.tsx:519 | during a team turn the dashboard highlights exactly the current team's card, and in every other phase no card |
| Game.Session.StandingsHaveLeader | App.tsx:331-332 | on the summary and final screens there is a leader, and no team has more revenue |
| Game.Session.GameOverCounts | App.tsx:112-144 | a finished game has entered the round summary once per scenario and applied `|Scenarios()| * numTeams` choices, one per team and scenario (for a game started with the corrected `StartGame`) |
| Game.ResetOnResultCard | App.tsx:100-149 | a game reset while its first result card is up is back on setup and still holds that card |
| Game.StaleResultAfterReset | App.tsx:31-50 | after such a reset, the next game as written shows the old card on its first turn; its button hands the turn to team 1 while team 0 has not chosen, and the session is inconsistent |
| Game.FreshTurnAfterReset | App.tsx:31-50 | with the card cleared at game start, the first turn of the next game offers the choices to team 0 |

## Left out

- Sound playback (`playStartSound`, `playClickSound`, the money, loss and milestone sounds) is left out. The sound a choice triggers is returned as a `Sound` value by `HandleChoice`. The start and click sounds of the buttons and the end-of-round milestone sound (App.tsx:123-126) are not modelled, because they change no state.
- The market analysis request (App.tsx:129-132) is a network call to a generative-AI service. `EndRound` sets the pending flag, and the text arrives through `ReceiveAnalysis` as a parameter.
- Interleaving of the analysis reply with later button presses is not modelled. `ReceiveAnalysis` may be called in any phase while the flag is set.
- The JSX render functions and `StatsCard` are presentation and are left out. So are the icons and colour classes of the badge table and the unused `MarketEvent` type.
- Metrics are unbounded integers. The catalogue holds only whole numbers and the engine only adds them, so JavaScript number semantics never differ here.
- Infrastructure and brand awareness are documented as 0-100 scores. Nothing enforces that, and the model does not either.
- Game.Session.HandleChoice: its `requires` does not restrict `choice` to the current scenario's choices, as the screen does (App.tsx:305-308). The handler itself takes any choice, and every property holds for any choice.
- Game.Session: the counters `summaries` and `choicesMade` are ghost bookkeeping, not part of the source's state. They exist only to state how many round summaries and choices a game has gone through.
- Game.Session: the team records of a session are distinct objects. The source creates a fresh object per team at game start, and nothing else shares them.

## Findings

| source | as written | input that shows it | evidently intended | confidence | as-written member | corrected member |
|---|---|---|---|---|---|---|
| App.tsx:31-50 | `resetGame` (App.tsx:146-149) keeps `turnResult`, and `startGame` does not clear it | Start a two-team game. Team 0 picks any choice, then reset from its result card and start a new game. Its first team turn shows the old result card, and "Proceed" hands the turn to team 1, so team 0 never chooses in round 1. | a new game starts with no result card, so team 0 chooses first | not executed | Game.StaleResultAfterReset | Game.FreshTurnAfterReset |
