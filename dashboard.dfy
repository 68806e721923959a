/**
 * The team cards of the dashboard (components/Dashboard.tsx): one card per
 * team, in the order of the team list, each showing whether it is that
 * team's turn, its rank in the revenue ranking (with an award for rank 1),
 * its metrics with two progress bars clamped at 100, and its known badges.
 *
 * Colours, icons, number formatting and tooltips are presentation and are
 * not modelled.
 */
module Dashboard {
  import opened GameTypes
  import opened Catalogue
  import opened Leaderboard

  /** The position of the first team of `s` with id `id`, or -1 when there is none. */
  function FindIndexById(s: seq<Team>, id: int): (r: int)
    ensures -1 <= r < |s|
    ensures r >= 0 ==> s[r].id == id && forall j :: 0 <= j < r ==> s[j].id != id
    ensures r == -1 ==> forall j :: 0 <= j < |s| ==> s[j].id != id
  {
    if s == [] then -1
    else if s[0].id == id then 0
    else
      var r := FindIndexById(s[1..], id);
      if r == -1 then -1 else r + 1
  }

  /** The rank shown on a team's card: one more than its position in the ranking. */
  function Rank(teams: seq<Team>, team: Team): int
  {
    FindIndexById(SortByRevenue(teams), team.id) + 1
  }

  /** A card is highlighted when its team's id is the current team id, if any. */
  predicate IsTurn(team: Team, currentTeamId: Option<int>)
  {
    currentTeamId == Some(team.id)
  }

  /** The width, in percent, of a progress bar for a score. */
  function BarWidth(score: int): (w: int)
    ensures w <= 100 && w <= score
    ensures w == score || w == 100
  {
    if score < 100 then score else 100
  }

  /** The badges of a card: those with an entry in the badge table, in the team's order. */
  function VisibleBadges(badges: seq<string>): (r: seq<string>)
    ensures forall b :: b in r <==> b in badges && b in Badges()
    ensures |r| <= |badges|
  {
    if badges == [] then []
    else (if badges[0] in Badges() then [badges[0]] else []) + VisibleBadges(badges[1..])
  }

  /** What one card shows. The metrics are shown as they are; only the bars are clamped. */
  datatype Card = Card(
    teamId: int, name: string, isTurn: bool, rank: int, award: bool,
    revenue: int, customers: int,
    infrastructure: int, infrastructureBar: int,
    brandAwareness: int, brandBar: int,
    badges: seq<string>)

  function CardOf(teams: seq<Team>, team: Team, currentTeamId: Option<int>): Card
  {
    var rank := Rank(teams, team);
    var m := team.metrics;
    Card(team.id, team.name, IsTurn(team, currentTeamId), rank, rank == 1,
      m.revenue, m.customers,
      m.infrastructure, BarWidth(m.infrastructure),
      m.brandAwareness, BarWidth(m.brandAwareness),
      VisibleBadges(team.badges))
  }

  /** The cards of the dashboard, in the order of `teams`. */
  function Cards(teams: seq<Team>, currentTeamId: Option<int>): seq<Card>
  {
    seq(|teams|, i requires 0 <= i < |teams| => CardOf(teams, teams[i], currentTeamId))
  }

  /**
   * With distinct ids, the rank of a team is one more than its position in
   * the ranking: it lies between 1 and the number of teams.
   */
  lemma RankIsPosition(teams: seq<Team>, team: Team)
    requires DistinctIds(teams) && team in teams
    ensures 1 <= Rank(teams, team) <= |teams|
    ensures SortByRevenue(teams)[Rank(teams, team) - 1] == team
  {
    var sorted := SortByRevenue(teams);
    SortedHoldsTeam(teams, team);
    var r := FindIndexById(sorted, team.id);
    SortedHoldsTeam(teams, sorted[r]);
    SameIdSameTeam(teams, sorted[r], team);
  }

  /** A team is in the ranking exactly when it is in the team list. */
  lemma SortedHoldsTeam(teams: seq<Team>, t: Team)
    ensures t in SortByRevenue(teams) <==> t in teams
  {
    assert t in SortByRevenue(teams) <==> t in multiset(SortByRevenue(teams));
  }

  /** With distinct ids, two teams of the list with the same id are the same team. */
  lemma SameIdSameTeam(teams: seq<Team>, a: Team, b: Team)
    requires DistinctIds(teams) && a in teams && b in teams && a.id == b.id
    ensures a == b
  {
    var i :| 0 <= i < |teams| && teams[i] == a;
    var k :| 0 <= k < |teams| && teams[k] == b;
    assert !(i < k) && !(k < i);
  }

  /**
   * With distinct ids, exactly the leader has rank 1, so the award goes to a
   * team whose revenue is at least every other team's.
   */
  lemma RankOneIsLeader(teams: seq<Team>, team: Team)
    requires DistinctIds(teams) && team in teams
    ensures Rank(teams, team) == 1 <==> team == Leader(teams)
    ensures Rank(teams, team) == 1 ==> forall t | t in teams :: t.metrics.revenue <= team.metrics.revenue
  {
    RankIsPosition(teams, team);
    LeaderIsTop(teams);
    if team == Leader(teams) {
      assert FindIndexById(SortByRevenue(teams), team.id) == 0;
    }
  }

  /**
   * The cards follow the team list, not the ranking; each shows its own
   * team's rank, its highlight and award as stated above, its raw metrics
   * and clamped bars; with distinct ids at most one card is highlighted and
   * exactly one card carries the award.
   */
  lemma CardsFollowTeams(teams: seq<Team>, currentTeamId: Option<int>)
    requires DistinctIds(teams)
    ensures |Cards(teams, currentTeamId)| == |teams|
    ensures forall i :: 0 <= i < |teams| ==>
      var c := Cards(teams, currentTeamId)[i];
      c.teamId == teams[i].id && c.name == teams[i].name &&
      c.revenue == teams[i].metrics.revenue && c.customers == teams[i].metrics.customers &&
      c.infrastructure == teams[i].metrics.infrastructure &&
      c.infrastructureBar == BarWidth(teams[i].metrics.infrastructure) && c.infrastructureBar <= 100 &&
      c.brandAwareness == teams[i].metrics.brandAwareness &&
      c.brandBar == BarWidth(teams[i].metrics.brandAwareness) && c.brandBar <= 100 &&
      c.badges == VisibleBadges(teams[i].badges) &&
      (c.isTurn <==> currentTeamId == Some(teams[i].id)) &&
      1 <= c.rank <= |teams| &&
      (c.award <==> teams[i] == Leader(teams))
    ensures forall i, j ::
      (0 <= i < |teams| && 0 <= j < |teams| &&
       Cards(teams, currentTeamId)[i].isTurn && Cards(teams, currentTeamId)[j].isTurn) ==> i == j
    ensures |teams| > 0 ==> exists i :: 0 <= i < |teams| && Cards(teams, currentTeamId)[i].award
    ensures forall i, j ::
      (0 <= i < |teams| && 0 <= j < |teams| &&
       Cards(teams, currentTeamId)[i].award && Cards(teams, currentTeamId)[j].award) ==> i == j
  {
    var cards := Cards(teams, currentTeamId);
    forall i | 0 <= i < |teams|
      ensures 1 <= cards[i].rank <= |teams|
      ensures cards[i].award <==> teams[i] == Leader(teams)
    {
      RankIsPosition(teams, teams[i]);
      RankOneIsLeader(teams, teams[i]);
    }
    if |teams| > 0 {
      LeaderIsTop(teams);
      var i :| 0 <= i < |teams| && teams[i] == Leader(teams);
      assert cards[i].award;
    }
  }
}
