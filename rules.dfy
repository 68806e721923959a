/**
 * The pure rules of the game engine (App.tsx): which badges a team earns,
 * what choosing an answer does to a team, which sound a choice triggers and
 * the teams a new game starts with. The session that applies them in place
 * is in module Game.
 */
module Rules {
  import opened GameTypes
  import opened Catalogue

  /** The team counts the setup screen offers (App.tsx:166). */
  function OfferedTeamCounts(): seq<nat>
  {
    [2, 3, 4]
  }

  /** The badges `CheckForBadges` can award, in the order it tests them. */
  function BadgeOrder(): seq<string>
  {
    ["UNICORN", "VIRAL_SENSATION", "TECH_TITAN", "BRAND_ICON", "SCALABLE"]
  }

  /** The threshold a team's metrics must reach for each badge. */
  predicate Qualifies(badge: string, m: Metrics)
  {
    if badge == "UNICORN" then m.revenue >= 40000
    else if badge == "TECH_TITAN" then m.infrastructure >= 80
    else if badge == "VIRAL_SENSATION" then m.customers >= 2500
    else if badge == "BRAND_ICON" then m.brandAwareness >= 80
    else if badge == "SCALABLE" then m.infrastructure >= 60
    else false
  }

  /** The badges a team newly earns, tested one by one in a fixed order. */
  function CheckForBadges(team: Team): seq<string>
  {
    var m := team.metrics;
    var held := team.badges;
    (if m.revenue >= 40000 && "UNICORN" !in held then ["UNICORN"] else []) +
    ((if m.customers >= 2500 && "VIRAL_SENSATION" !in held then ["VIRAL_SENSATION"] else []) +
    ((if m.infrastructure >= 80 && "TECH_TITAN" !in held then ["TECH_TITAN"] else []) +
    ((if m.brandAwareness >= 80 && "BRAND_ICON" !in held then ["BRAND_ICON"] else []) +
    (if m.infrastructure >= 60 && "SCALABLE" !in held then ["SCALABLE"] else []))))
  }

  /** Reference definition: the badges of `order` that `team` qualifies for and does not hold. */
  function Earned(order: seq<string>, team: Team): seq<string>
  {
    if order == [] then [] else EarnedOne(order[0], team) + Earned(order[1..], team)
  }

  /** `[badge]` when `team` qualifies for `badge` and does not hold it, else nothing. */
  function EarnedOne(badge: string, team: Team): seq<string>
  {
    if Qualifies(badge, team.metrics) && badge !in team.badges then [badge] else []
  }

  lemma {:induction false} EarnedMembers(order: seq<string>, team: Team)
    ensures forall b :: b in Earned(order, team) <==> b in order && Qualifies(b, team.metrics) && b !in team.badges
    ensures NoDuplicates(order) ==> NoDuplicates(Earned(order, team))
  {
    if order != [] {
      EarnedMembers(order[1..], team);
      assert order == [order[0]] + order[1..];
      var head := EarnedOne(order[0], team);
      var tail := Earned(order[1..], team);
      if NoDuplicates(order) {
        assert NoDuplicates(order[1..]) by {
          forall i, j | 0 <= i < j < |order[1..]| ensures order[1..][i] != order[1..][j] {
            assert order[1..][i] == order[i + 1] && order[1..][j] == order[j + 1];
          }
        }
        assert order[0] !in order[1..] by {
          forall i | 0 <= i < |order[1..]| ensures order[1..][i] != order[0] {
            assert order[1..][i] == order[i + 1];
          }
        }
        forall i, j | 0 <= i < j < |head + tail| ensures (head + tail)[i] != (head + tail)[j] {
          if i < |head| {
            assert (head + tail)[j] in tail;
          } else {
            assert (head + tail)[i] == tail[i - |head|] && (head + tail)[j] == tail[j - |head|];
          }
        }
      }
    }
  }

  lemma CheckForBadgesIsEarned(team: Team)
    ensures CheckForBadges(team) == Earned(BadgeOrder(), team)
  {
    var o := BadgeOrder();
    assert o == ["UNICORN"] + (["VIRAL_SENSATION"] + (["TECH_TITAN"] + (["BRAND_ICON"] + (["SCALABLE"] + []))));
    EarnedCons("UNICORN", ["VIRAL_SENSATION"] + (["TECH_TITAN"] + (["BRAND_ICON"] + (["SCALABLE"] + []))), team);
    EarnedCons("VIRAL_SENSATION", ["TECH_TITAN"] + (["BRAND_ICON"] + (["SCALABLE"] + [])), team);
    EarnedCons("TECH_TITAN", ["BRAND_ICON"] + (["SCALABLE"] + []), team);
    EarnedCons("BRAND_ICON", ["SCALABLE"] + [], team);
    EarnedCons("SCALABLE", [], team);
    assert EarnedOne("SCALABLE", team) + [] == EarnedOne("SCALABLE", team);
  }

  lemma EarnedCons(b: string, rest: seq<string>, team: Team)
    ensures Earned([b] + rest, team) == EarnedOne(b, team) + Earned(rest, team)
  {
    assert ([b] + rest)[1..] == rest;
  }

  /**
   * `CheckForBadges` returns exactly the badges whose threshold the team
   * meets and that it does not already hold, each once; so none of them is
   * already in `team.badges`.
   */
  lemma CheckForBadgesSpec(team: Team)
    ensures forall b :: b in CheckForBadges(team) <==>
      b in BadgeOrder() && Qualifies(b, team.metrics) && b !in team.badges
    ensures NoDuplicates(CheckForBadges(team))
  {
    CheckForBadgesIsEarned(team);
    EarnedMembers(BadgeOrder(), team);
  }

  /**
   * The badge table has an entry for exactly the badges `CheckForBadges` can
   * award, so looking up an awarded badge always finds one.
   */
  lemma BadgeTableCoversRules()
    ensures forall b :: b in Badges() <==> b in BadgeOrder()
    ensures NoDuplicates(BadgeOrder())
  {
  }

  /** Every offered team count has a roster entry for each team. */
  lemma OfferedCountsFitRoster()
    ensures forall n | n in OfferedTeamCounts() :: 2 <= n <= |TeamConfigs()|
  {
    TeamConfigsShape();
  }

  /** Adds an impact to metrics, field by field, with no clamping. */
  function AddImpact(m: Metrics, impact: Metrics): Metrics
  {
    Metrics(m.revenue + impact.revenue, m.customers + impact.customers,
      m.infrastructure + impact.infrastructure, m.brandAwareness + impact.brandAwareness)
  }

  /** The badges a team unlocks by making `choice`: tested on the metrics after the impact. */
  function NewBadges(team: Team, choice: Choice): seq<string>
  {
    CheckForBadges(team.(metrics := AddImpact(team.metrics, choice.impact)))
  }

  /** The active team after making `choice`. */
  function ApplyChoice(team: Team, choice: Choice): Team
  {
    team.(metrics := AddImpact(team.metrics, choice.impact),
          badges := team.badges + NewBadges(team, choice),
          history := team.history + [choice.caption])
  }

  /**
   * Making a choice adds each impact field to the matching metric exactly,
   * appends the choice's label to the history, and leaves the team holding
   * exactly its old badges and every badge whose threshold it now meets.
   */
  lemma ApplyChoiceEffect(team: Team, choice: Choice)
    ensures var r := ApplyChoice(team, choice);
      r.id == team.id && r.name == team.name && r.color == team.color &&
      r.metrics.revenue - team.metrics.revenue == choice.impact.revenue &&
      r.metrics.customers - team.metrics.customers == choice.impact.customers &&
      r.metrics.infrastructure - team.metrics.infrastructure == choice.impact.infrastructure &&
      r.metrics.brandAwareness - team.metrics.brandAwareness == choice.impact.brandAwareness
    ensures var r := ApplyChoice(team, choice);
      |r.history| == |team.history| + 1 && r.history[..|team.history|] == team.history &&
      r.history[|team.history|] == choice.caption
    ensures var r := ApplyChoice(team, choice);
      forall b :: b in r.badges <==> b in team.badges || (b in BadgeOrder() && Qualifies(b, r.metrics))
  {
    CheckForBadgesSpec(team.(metrics := AddImpact(team.metrics, choice.impact)));
  }

  /**
   * Making a choice keeps the old badges as a prefix of the new list, and a
   * duplicate-free list of known badges stays so.
   */
  lemma ApplyChoiceKeepsBadges(team: Team, choice: Choice)
    ensures var r := ApplyChoice(team, choice);
      |team.badges| <= |r.badges| && r.badges[..|team.badges|] == team.badges
    ensures NoDuplicates(team.badges) ==> NoDuplicates(ApplyChoice(team, choice).badges)
    ensures (forall b | b in team.badges :: b in BadgeOrder()) ==>
      forall b | b in ApplyChoice(team, choice).badges :: b in BadgeOrder()
  {
    var r := ApplyChoice(team, choice);
    var added := NewBadges(team, choice);
    CheckForBadgesSpec(team.(metrics := AddImpact(team.metrics, choice.impact)));
    assert r.badges == team.badges + added;
    assert r.badges[..|team.badges|] == team.badges;
    if NoDuplicates(team.badges) {
      forall i, j | 0 <= i < j < |r.badges| ensures r.badges[i] != r.badges[j] {
        if j >= |team.badges| {
          assert r.badges[j] == added[j - |team.badges|];
          if i >= |team.badges| {
            assert r.badges[i] == added[i - |team.badges|];
          } else {
            assert r.badges[i] in team.badges;
          }
        }
      }
    }
  }

  /** A badge the team holds is never added again, whatever its metrics do. */
  lemma HeldBadgeNotReAdded(team: Team, choice: Choice, b: string)
    requires b in team.badges
    ensures multiset(ApplyChoice(team, choice).badges)[b] == multiset(team.badges)[b]
  {
    CheckForBadgesSpec(team.(metrics := AddImpact(team.metrics, choice.impact)));
    assert b !in multiset(NewBadges(team, choice));
  }

  /** The team after making each of `choices` in turn. */
  function ApplyChoices(team: Team, choices: seq<Choice>): Team
    decreases choices
  {
    if choices == [] then team else ApplyChoices(ApplyChoice(team, choices[0]), choices[1..])
  }

  /**
   * Over any run of choices the history grows by one label per choice, the
   * badge list only grows, and a duplicate-free list of known badges stays so.
   */
  lemma {:induction false} ApplyChoicesKeepsBadges(team: Team, choices: seq<Choice>)
    requires NoDuplicates(team.badges) && forall b | b in team.badges :: b in BadgeOrder()
    decreases choices
    ensures var r := ApplyChoices(team, choices);
      |r.history| == |team.history| + |choices| &&
      |team.badges| <= |r.badges| && r.badges[..|team.badges|] == team.badges &&
      NoDuplicates(r.badges) && forall b | b in r.badges :: b in BadgeOrder()
  {
    if choices != [] {
      var next := ApplyChoice(team, choices[0]);
      ApplyChoiceKeepsBadges(team, choices[0]);
      assert |next.history| == |team.history| + 1;
      ApplyChoicesKeepsBadges(next, choices[1..]);
      var r := ApplyChoices(next, choices[1..]);
      assert r.badges[..|team.badges|] == r.badges[..|next.badges|][..|team.badges|];
    }
  }

  /** The sound a choice triggers (App.tsx:90-98). */
  datatype Sound = Milestone | Loss | Money | Click

  function SoundFor(unlocked: seq<string>, impact: Metrics): Sound
  {
    if |unlocked| > 0 then Milestone
    else if impact.revenue < 0 then Loss
    else if impact.revenue > 2000 || impact.customers > 300 then Money
    else Click
  }

  /**
   * A new badge always sounds the milestone; otherwise a revenue loss sounds
   * the loss; a gain of more than 2000 revenue or 300 customers sounds money.
   */
  lemma SoundPriority(unlocked: seq<string>, impact: Metrics)
    ensures SoundFor(unlocked, impact) == Milestone <==> unlocked != []
    ensures SoundFor(unlocked, impact) == Loss <==> unlocked == [] && impact.revenue < 0
    ensures SoundFor(unlocked, impact) == Money <==>
      unlocked == [] && impact.revenue >= 0 && (impact.revenue > 2000 || impact.customers > 300)
    ensures SoundFor(unlocked, impact) == Click <==>
      unlocked == [] && 0 <= impact.revenue <= 2000 && impact.customers <= 300
  {
  }

  /** Team `i` of a new game. */
  function InitialTeam(i: nat): Team
    requires i < |TeamConfigs()|
  {
    Team(i, TeamConfigs()[i].name, TeamConfigs()[i].color, InitialMetrics(), [], [])
  }

  /** The teams of a new game with `n` teams. */
  function InitialTeams(n: nat): seq<Team>
    requires n <= |TeamConfigs()|
  {
    seq(n, i requires 0 <= i < n => InitialTeam(i))
  }

  /**
   * A new game has `n` teams; team `i` has id `i`, the name and colour of
   * roster entry `i`, metrics (10000, 0, 10, 10) and no badges or history.
   * Ids and names are distinct.
   */
  lemma InitialTeamsShape(n: nat)
    requires n <= |TeamConfigs()|
    ensures |InitialTeams(n)| == n
    ensures forall i :: 0 <= i < n ==>
      var t := InitialTeams(n)[i];
      t.id == i && t.name == TeamConfigs()[i].name && t.color == TeamConfigs()[i].color &&
      t.metrics == Metrics(10000, 0, 10, 10) && t.badges == [] && t.history == []
    ensures DistinctIds(InitialTeams(n))
    ensures forall i, j :: 0 <= i < j < n ==> InitialTeams(n)[i].name != InitialTeams(n)[j].name
  {
    TeamConfigsShape();
    InitialMetricsValues();
  }

  /** What the result card shows after a choice (App.tsx:10-17, 100-107). */
  datatype TurnResult = TurnResult(
    teamName: string, teamColor: string, choiceLabel: string, feedback: string,
    impact: Metrics, unlockedBadges: seq<string>)

  /**
   * Choosing "Join a Marketplace", the first choice of the first round, from
   * the starting metrics gives (15000, 500, 15, 20), unlocks no badge and
   * sounds money.
   */
  lemma JoinMarketplaceExample(c: Choice)
    requires c.caption == ChoiceCaptionAt(0, 0) && c.impact == ImpactAt(0, 0)
    ensures c.caption == "Join a Marketplace"
    ensures ApplyChoice(InitialTeam(0), c).metrics == Metrics(15000, 500, 15, 20)
    ensures NewBadges(InitialTeam(0), c) == []
    ensures SoundFor(NewBadges(InitialTeam(0), c), c.impact) == Money
  {
    assert c.impact == Metrics(5000, 500, 5, 10);
    InitialMetricsValues();
  }

  /** A team one choice short of 40000 revenue earns the Unicorn badge, and only once. */
  lemma UnicornOnce(team: Team, choice: Choice)
    requires team.metrics.revenue < 40000 <= team.metrics.revenue + choice.impact.revenue
    requires "UNICORN" !in team.badges
    ensures "UNICORN" in NewBadges(team, choice)
    ensures "UNICORN" !in NewBadges(ApplyChoice(team, choice), choice)
  {
    CheckForBadgesSpec(team.(metrics := AddImpact(team.metrics, choice.impact)));
    var next := ApplyChoice(team, choice);
    CheckForBadgesSpec(next.(metrics := AddImpact(next.metrics, choice.impact)));
  }
}
