/**
 * The revenue ranking shared by the round summary, the final standings and
 * the dashboard (App.tsx:331, App.tsx:384, components/Dashboard.tsx:13):
 * a copy of the team list sorted by descending revenue with a stable sort,
 * so that teams with equal revenue keep their order in the team list.
 *
 * The sort is modelled as an insertion sort; what the source relies on is
 * its result, which any stable sort with the same key determines uniquely.
 */
module Leaderboard {
  import opened GameTypes

  /** Revenue never increases from one position of `s` to a later one. */
  predicate NonIncreasing(s: seq<Team>)
  {
    forall i, j :: 0 <= i < j < |s| ==> s[i].metrics.revenue >= s[j].metrics.revenue
  }

  /** The teams of `s` whose revenue is `v`, in their order in `s`. */
  function WithRevenue(s: seq<Team>, v: int): seq<Team>
  {
    if s == [] then []
    else (if s[0].metrics.revenue == v then [s[0]] else []) + WithRevenue(s[1..], v)
  }

  /**
   * Places `x` into the ranking `t`, ahead of every team whose revenue is
   * not above its own.
   */
  function Insert(x: Team, t: seq<Team>): (r: seq<Team>)
    ensures multiset(r) == multiset(t) + multiset{x}
  {
    if t == [] || x.metrics.revenue >= t[0].metrics.revenue then
      [x] + t
    else
      assert t == [t[0]] + t[1..];
      [t[0]] + Insert(x, t[1..])
  }

  /** Inserting into a ranking gives a ranking. */
  lemma {:induction false} InsertKeepsOrder(x: Team, t: seq<Team>)
    requires NonIncreasing(t)
    ensures NonIncreasing(Insert(x, t))
  {
    if t != [] && x.metrics.revenue < t[0].metrics.revenue {
      var top := t[0].metrics.revenue;
      var rest := Insert(x, t[1..]);
      InsertKeepsOrder(x, t[1..]);
      forall k | 0 <= k < |rest| ensures rest[k].metrics.revenue <= top {
        assert rest[k] in multiset(rest);
        if rest[k] != x {
          var j :| 0 <= j < |t[1..]| && t[1..][j] == rest[k];
          assert t[j + 1] == rest[k];
        }
      }
      assert Insert(x, t) == [t[0]] + rest;
    }
  }

  /** The ranking: `teams` sorted by descending revenue, ties in list order. */
  function SortByRevenue(teams: seq<Team>): (r: seq<Team>)
    ensures NonIncreasing(r)
    ensures multiset(r) == multiset(teams)
    ensures |r| == |teams|
  {
    if teams == [] then []
    else
      assert teams == [teams[0]] + teams[1..];
      InsertKeepsOrder(teams[0], SortByRevenue(teams[1..]));
      Insert(teams[0], SortByRevenue(teams[1..]))
  }

  /** The team shown first in the ranking. */
  function Leader(teams: seq<Team>): Team
    requires |teams| > 0
  {
    SortByRevenue(teams)[0]
  }

  /** Inserting `x` puts it ahead of the teams of equal revenue and leaves their order alone. */
  lemma {:induction false} InsertWithRevenue(x: Team, t: seq<Team>, v: int)
    requires NonIncreasing(t)
    ensures WithRevenue(Insert(x, t), v) ==
      if x.metrics.revenue == v then [x] + WithRevenue(t, v) else WithRevenue(t, v)
  {
    if t == [] || x.metrics.revenue >= t[0].metrics.revenue {
      assert ([x] + t)[1..] == t;
    } else {
      InsertWithRevenue(x, t[1..], v);
      assert ([t[0]] + Insert(x, t[1..]))[1..] == Insert(x, t[1..]);
      assert NonIncreasing(t[1..]);
    }
  }

  /**
   * The sort is stable: for every revenue, the teams with that revenue
   * appear in the ranking in the same order as in `teams`.
   */
  lemma {:induction false} SortIsStable(teams: seq<Team>, v: int)
    ensures WithRevenue(SortByRevenue(teams), v) == WithRevenue(teams, v)
  {
    if teams != [] {
      SortIsStable(teams[1..], v);
      InsertWithRevenue(teams[0], SortByRevenue(teams[1..]), v);
    }
  }

  /** The leader is one of the teams and no team has more revenue. */
  lemma LeaderIsTop(teams: seq<Team>)
    requires |teams| > 0
    ensures Leader(teams) in teams
    ensures forall t | t in teams :: t.metrics.revenue <= Leader(teams).metrics.revenue
  {
    var r := SortByRevenue(teams);
    assert r[0] in multiset(r);
    forall t | t in teams ensures t.metrics.revenue <= r[0].metrics.revenue {
      assert t in multiset(teams);
      var j :| 0 <= j < |r| && r[j] == t;
    }
  }

  /** Every team before the first one with revenue `v` has another revenue. */
  lemma {:induction false} FirstWithRevenue(s: seq<Team>, v: int)
    requires WithRevenue(s, v) != []
    ensures exists i ::
      0 <= i < |s| && s[i] == WithRevenue(s, v)[0] && (forall j :: 0 <= j < i ==> s[j].metrics.revenue != v)
  {
    if s[0].metrics.revenue != v {
      FirstWithRevenue(s[1..], v);
      var i :| 0 <= i < |s[1..]| && s[1..][i] == WithRevenue(s[1..], v)[0] &&
        forall j :: 0 <= j < i ==> s[1..][j].metrics.revenue != v;
      assert s[i + 1] == WithRevenue(s, v)[0];
      forall j | 0 <= j < i + 1 ensures s[j].metrics.revenue != v {
        if j > 0 {
          assert s[j] == s[1..][j - 1];
        }
      }
    } else {
      assert s[0] == WithRevenue(s, v)[0];
    }
  }

  /**
   * Ties go to the earlier team: the leader is the first team of the list
   * with the highest revenue, and every team before it earns strictly less.
   */
  lemma LeaderIsFirstTop(teams: seq<Team>)
    requires |teams| > 0
    ensures exists i ::
      0 <= i < |teams| && teams[i] == Leader(teams) &&
      (forall j :: 0 <= j < i ==> teams[j].metrics.revenue < Leader(teams).metrics.revenue)
  {
    var r := SortByRevenue(teams);
    var v := r[0].metrics.revenue;
    LeaderIsTop(teams);
    SortIsStable(teams, v);
    assert WithRevenue(r, v) == [r[0]] + WithRevenue(r[1..], v);
    FirstWithRevenue(teams, v);
    var i :| 0 <= i < |teams| && teams[i] == WithRevenue(teams, v)[0] &&
      forall j :: 0 <= j < i ==> teams[j].metrics.revenue != v;
    forall j | 0 <= j < i ensures teams[j].metrics.revenue < v {
      assert teams[j] in teams;
    }
  }
}
