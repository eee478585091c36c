/** Squad overview: aggregates, position histogram, threshold-based
    strengths and weaknesses, tactical advice and a TSI-ranked lineup. */
module TeamSnapshot {

  import opened Common
  import opened Players
  import opened Sorting

  // ----- aggregates -----

  /** Mean age, 0.0 for an empty squad. */
  function AverageAge(ps: seq<Player>): (r: real)
    ensures |ps| == 0 ==> r == 0.0
    ensures |ps| > 0 ==> r * |ps| as real == AgeSum(ps) as real
  {
    if |ps| == 0 then 0.0 else AgeSum(ps) as real / |ps| as real
  }

  function TotalSalary(ps: seq<Player>): (r: real)
    ensures (forall i :: 0 <= i < |ps| ==> ps[i].salary >= 0.0) ==> r >= 0.0
  {
    if |ps| == 0 then 0.0 else ps[0].salary + TotalSalary(ps[1..])
  }

  function TotalTsi(ps: seq<Player>): (r: int)
    ensures (forall i :: 0 <= i < |ps| ==> ps[i].tsi >= 0) ==> r >= 0
  {
    if |ps| == 0 then 0 else ps[0].tsi + TotalTsi(ps[1..])
  }

  /** The totals split over a concatenation, so they do not depend on how
      the squad is ordered or partitioned. */
  lemma {:induction false} TotalsAdditive(a: seq<Player>, b: seq<Player>)
    ensures TotalTsi(a + b) == TotalTsi(a) + TotalTsi(b)
    ensures TotalSalary(a + b) == TotalSalary(a) + TotalSalary(b)
    ensures AgeSum(a + b) == AgeSum(a) + AgeSum(b)
  {
    if |a| == 0 {
      assert a + b == b;
    } else {
      assert (a + b)[1..] == a[1..] + b;
      TotalsAdditive(a[1..], b);
    }
  }

  // ----- position histogram -----

  function Labels(ps: seq<Player>): set<string> {
    set i | 0 <= i < |ps| :: ps[i].position.Label()
  }

  /** Number of players whose position label is `label`. */
  function LabelCount(ps: seq<Player>, tag: string): (n: nat)
    ensures n <= |ps|
    ensures n > 0 <==> tag in Labels(ps)
  {
    if |ps| == 0 then 0
    else
      assert Labels(ps) == {ps[0].position.Label()} + Labels(ps[1..]) by {
        assert forall i :: 0 < i < |ps| ==> ps[i] == ps[1..][i - 1];
      }
      (if ps[0].position.Label() == tag then 1 else 0) + LabelCount(ps[1..], tag)
  }

  function Get(h: map<string, nat>, key: string): nat {
    if key in h then h[key] else 0
  }

  /** `defaultdict(int)` counting players per position label. */
  function PositionHistogram(ps: seq<Player>): (h: map<string, nat>)
    ensures h.Keys == Labels(ps)
    ensures forall l :: Get(h, l) == LabelCount(ps, l)
  {
    HistogramCounts(ps);
    Histogram(ps)
  }

  /** The counting loop itself: each player adds one to its label's count. */
  function Histogram(ps: seq<Player>): map<string, nat> {
    if |ps| == 0 then map[]
    else
      var h := Histogram(ps[1..]);
      var l := ps[0].position.Label();
      h[l := Get(h, l) + 1]
  }

  lemma {:induction false} HistogramCounts(ps: seq<Player>)
    ensures Histogram(ps).Keys == Labels(ps)
    ensures forall l :: Get(Histogram(ps), l) == LabelCount(ps, l)
  {
    if |ps| > 0 {
      HistogramCounts(ps[1..]);
      assert Labels(ps) == {ps[0].position.Label()} + Labels(ps[1..]) by {
        assert forall i :: 0 < i < |ps| ==> ps[i] == ps[1..][i - 1];
      }
    }
  }

  /** The histogram's counts over the six position labels. */
  function Tally(h: map<string, nat>): int {
    Get(h, "Goalkeeper") + Get(h, "Central Defender") + Get(h, "Wing Back")
    + Get(h, "Inner Midfielder") + Get(h, "Winger") + Get(h, "Forward")
  }

  /** Every player is counted exactly once: the counts over the six labels
      add up to the squad size (the keys are labels of players, by
      `PositionHistogram`'s own contract). */
  lemma {:induction false} HistogramCountsEveryPlayer(ps: seq<Player>)
    ensures Tally(PositionHistogram(ps)) == |ps|
  {
    TallyHistogram(ps);
  }

  lemma {:induction false} TallyHistogram(ps: seq<Player>)
    ensures Tally(Histogram(ps)) == |ps|
  {
    if |ps| > 0 {
      TallyHistogram(ps[1..]);
      TallyBump(Histogram(ps[1..]), ps[0].position);
    }
  }

  /** Counting one more player of a position raises the tally by one. */
  lemma TallyBump(t: map<string, nat>, pos: Position)
    ensures Tally(t[pos.Label() := Get(t, pos.Label()) + 1]) == Tally(t) + 1
  {
    var h := t[pos.Label() := Get(t, pos.Label()) + 1];
    forall k | k in ["Goalkeeper", "Central Defender", "Wing Back", "Inner Midfielder", "Winger", "Forward"]
      ensures Get(h, k) == if k == pos.Label() then Get(t, k) + 1 else Get(t, k)
    {
    }
  }

  lemma NoGoalkeeperIffNoGoalkeeperLabel(ps: seq<Player>)
    ensures Get(PositionHistogram(ps), "Goalkeeper") == 0
      <==> forall i :: 0 <= i < |ps| ==> ps[i].position != Goalkeeper
  {
    if Get(PositionHistogram(ps), "Goalkeeper") != 0 {
      var i :| 0 <= i < |ps| && ps[i].position.Label() == "Goalkeeper";
      LabelInjective(ps[i].position, Goalkeeper);
    }
  }

  // ----- skill averages -----

  function SkillKeys(ps: seq<Player>): set<string> {
    if |ps| == 0 then {} else ps[0].skills.Keys + SkillKeys(ps[1..])
  }

  /** Sum of `k` over the players that have `k`. */
  function SkillTotal(ps: seq<Player>, k: string): int {
    if |ps| == 0 then 0 else Skill(ps[0], k) + SkillTotal(ps[1..], k)
  }

  /** Number of players that have `k`. */
  function SkillHolders(ps: seq<Player>, k: string): (n: nat)
    ensures n > 0 <==> k in SkillKeys(ps)
  {
    if |ps| == 0 then 0
    else (if k in ps[0].skills then 1 else 0) + SkillHolders(ps[1..], k)
  }

  /** Per-skill mean over the players that have that skill. */
  function AverageSkills(ps: seq<Player>): (r: map<string, real>)
    ensures r.Keys == SkillKeys(ps)
  {
    map k | k in SkillKeys(ps) :: SkillTotal(ps, k) as real / SkillHolders(ps, k) as real
  }

  /** Each average, times its holder count, gives the skill total. */
  lemma {:induction false} AverageSkillIsMean(ps: seq<Player>, k: string)
    requires k in SkillKeys(ps)
    ensures AverageSkills(ps)[k] * SkillHolders(ps, k) as real == SkillTotal(ps, k) as real
  {
    var t, h := SkillTotal(ps, k) as real, SkillHolders(ps, k) as real;
    QuotientTimesDivisor(AverageSkills(ps)[k], t, h);
  }

  lemma QuotientTimesDivisor(q: real, a: real, b: real)
    requires b != 0.0 && q == a / b
    ensures q * b == a
  {
  }

  /** `avg_skills.get(k, 0)`. */
  function AverageSkill(ps: seq<Player>, k: string): real {
    var m := AverageSkills(ps);
    if k in m then m[k] else 0.0
  }

  /** A player without skill `k` does not pull `k`'s average down. */
  lemma AverageIgnoresPlayersWithoutSkill(p: Player, ps: seq<Player>, k: string)
    requires k !in p.skills
    ensures AverageSkill([p] + ps, k) == AverageSkill(ps, k)
  {
    assert ([p] + ps)[1..] == ps;
  }

  // ----- strengths, weaknesses, advice -----

  /** The position of message `m` among the four, in listing order. */
  function Slot<T(==)>(m: T, ma: T, mb: T, mc: T, md: T): int {
    if m == ma then 0 else if m == mb then 1 else if m == mc then 2 else 3
  }

  /** Messages listed in strictly increasing slot order: each message's slot
      is below the next one's, so no message repeats. */
  predicate InSlotOrder<T(==)>(r: seq<T>, ma: T, mb: T, mc: T, md: T) {
    |r| <= 1 || (Slot(r[0], ma, mb, mc, md) < Slot(r[1], ma, mb, mc, md) && InSlotOrder(r[1..], ma, mb, mc, md))
  }

  function Flag<T>(raised: bool, m: T): (r: seq<T>)
    ensures |r| == (if raised then 1 else 0)
    ensures forall i :: 0 <= i < |r| ==> r[i] == m
  {
    if raised then [m] else []
  }

  /** Putting a raised flag of slot `k` before messages of higher slots keeps
      the order. */
  lemma PrependFlag<T>(raised: bool, m: T, y: seq<T>, k: int, ma: T, mb: T, mc: T, md: T)
    requires InSlotOrder(y, ma, mb, mc, md) && Slot(m, ma, mb, mc, md) == k
    requires |y| == 0 || Slot(y[0], ma, mb, mc, md) > k
    ensures InSlotOrder(Flag(raised, m) + y, ma, mb, mc, md)
    ensures var r := Flag(raised, m) + y; |r| == 0 || Slot(r[0], ma, mb, mc, md) >= k
  {
    if raised {
      var r := [m] + y;
      assert Flag(raised, m) + y == r;
      assert r[1..] == y;
    } else {
      assert Flag(raised, m) + y == y;
    }
  }

  /** The messages whose flags are raised: each raised one once and nothing
      else. */
  function FourFlags<T(==)>(a: bool, b: bool, c: bool, d: bool, ma: T, mb: T, mc: T, md: T): (r: seq<T>)
    requires ma != mb && ma != mc && ma != md && mb != mc && mb != md && mc != md
    ensures ma in r <==> a
    ensures mb in r <==> b
    ensures mc in r <==> c
    ensures md in r <==> d
    ensures forall i :: 0 <= i < |r| ==> r[i] == ma || r[i] == mb || r[i] == mc || r[i] == md
    ensures |r| == 0 <==> !a && !b && !c && !d
  {
    Flag(a, ma) + (Flag(b, mb) + (Flag(c, mc) + Flag(d, md)))
  }

  /** ... and they come in the order the flags are tested. */
  lemma FourFlagsInOrder<T>(a: bool, b: bool, c: bool, d: bool, ma: T, mb: T, mc: T, md: T)
    requires ma != mb && ma != mc && ma != md && mb != mc && mb != md && mc != md
    ensures InSlotOrder(FourFlags(a, b, c, d, ma, mb, mc, md), ma, mb, mc, md)
  {
    assert Slot(ma, ma, mb, mc, md) == 0 && Slot(mb, ma, mb, mc, md) == 1;
    assert Slot(mc, ma, mb, mc, md) == 2 && Slot(md, ma, mb, mc, md) == 3;
    var cd := Flag(c, mc) + Flag(d, md);
    PrependFlag(c, mc, Flag(d, md), 2, ma, mb, mc, md);
    var bcd := Flag(b, mb) + cd;
    PrependFlag(b, mb, cd, 1, ma, mb, mc, md);
    PrependFlag(a, ma, bcd, 0, ma, mb, mc, md);
  }

  const StrongDefence := "Strong defense"
  const StrongMidfield := "Good midfield control"
  const StrongAttack := "Strong attack"
  const YoungSquad := "Young squad with potential"
  const Balanced := "Balanced team"

  /** Flags raised by skill averages above 12 and a mean age under 24, in
      that order; "Balanced team" alone when nothing is raised. */
  function Strengths(ps: seq<Player>): (r: seq<string>)
    ensures |r| > 0
    ensures StrongDefence in r <==> AverageSkill(ps, "defending") > 12.0
    ensures StrongMidfield in r <==> AverageSkill(ps, "playmaking") > 12.0
    ensures StrongAttack in r <==> AverageSkill(ps, "scoring") > 12.0
    ensures YoungSquad in r <==> AverageAge(ps) < 24.0
    ensures Balanced in r ==> r == [Balanced]
    ensures r == [Balanced] <==>
      AverageSkill(ps, "defending") <= 12.0 && AverageSkill(ps, "playmaking") <= 12.0
      && AverageSkill(ps, "scoring") <= 12.0 && AverageAge(ps) >= 24.0
    ensures r != [Balanced] ==>
      (forall m :: m in r ==> m in {StrongDefence, StrongMidfield, StrongAttack, YoungSquad})
      && InSlotOrder(r, StrongDefence, StrongMidfield, StrongAttack, YoungSquad)
  {
    var d, m, a, y := AverageSkill(ps, "defending") > 12.0, AverageSkill(ps, "playmaking") > 12.0,
                      AverageSkill(ps, "scoring") > 12.0, AverageAge(ps) < 24.0;
    var s := FourFlags(d, m, a, y, StrongDefence, StrongMidfield, StrongAttack, YoungSquad);
    FourFlagsInOrder(d, m, a, y, StrongDefence, StrongMidfield, StrongAttack, YoungSquad);
    if |s| == 0 then [Balanced] else s
  }

  const WeakDefence := "Weak defense"
  const WeakMidfield := "Weak midfield"
  const WeakAttack := "Weak attack"
  const MissingKeeper := "Missing goalkeeper"

  /** Flags raised by skill averages below 10 and by an empty goalkeeper
      slot in the histogram, in that order and nothing else. */
  function Weaknesses(ps: seq<Player>): (r: seq<string>)
    ensures WeakDefence in r <==> AverageSkill(ps, "defending") < 10.0
    ensures WeakMidfield in r <==> AverageSkill(ps, "playmaking") < 10.0
    ensures WeakAttack in r <==> AverageSkill(ps, "scoring") < 10.0
    ensures MissingKeeper in r <==> forall i :: 0 <= i < |ps| ==> ps[i].position != Goalkeeper
    ensures forall m :: m in r ==> m in {WeakDefence, WeakMidfield, WeakAttack, MissingKeeper}
    ensures InSlotOrder(r, WeakDefence, WeakMidfield, WeakAttack, MissingKeeper)
  {
    var noKeeper := Get(PositionHistogram(ps), "Goalkeeper") == 0;
    NoGoalkeeperIffNoGoalkeeperLabel(ps);
    var d, m, a := AverageSkill(ps, "defending") < 10.0, AverageSkill(ps, "playmaking") < 10.0,
                   AverageSkill(ps, "scoring") < 10.0;
    FourFlagsInOrder(d, m, a, noKeeper, WeakDefence, WeakMidfield, WeakAttack, MissingKeeper);
    FourFlags(d, m, a, noKeeper, WeakDefence, WeakMidfield, WeakAttack, MissingKeeper)
  }

  /** A skill is never both a strength and a weakness. */
  lemma StrengthExcludesWeakness(ps: seq<Player>)
    ensures !(StrongDefence in Strengths(ps) && WeakDefence in Weaknesses(ps))
    ensures !(StrongMidfield in Strengths(ps) && WeakMidfield in Weaknesses(ps))
    ensures !(StrongAttack in Strengths(ps) && WeakAttack in Weaknesses(ps))
  {
  }

  /** An empty squad averages 0 in every skill and in age: it is "young"
      and weak everywhere. */
  lemma EmptySquadFlags()
    ensures Strengths([]) == [YoungSquad]
    ensures Weaknesses([]) == [WeakDefence, WeakMidfield, WeakAttack, MissingKeeper]
  {
    assert AverageSkills([]) == map[] && AverageAge([]) == 0.0;
  }

  const DefenceAdvice := "Consider training defending or buying defenders"
  const MidfieldAdvice := "Focus on playmaking training"
  const AttackAdvice := "Train scoring or invest in forwards"
  const BalancedAdvice := "Team is well balanced - focus on maintaining form"

  /** One advice line per skill weakness, in the order of the weaknesses,
      and the "well balanced" line only when there is no weakness at all (a
      missing goalkeeper suppresses it but adds no line of its own). */
  function TacticalRecommendations(ps: seq<Player>): (r: seq<string>)
    ensures DefenceAdvice in r <==> WeakDefence in Weaknesses(ps)
    ensures MidfieldAdvice in r <==> WeakMidfield in Weaknesses(ps)
    ensures AttackAdvice in r <==> WeakAttack in Weaknesses(ps)
    ensures BalancedAdvice in r <==> |Weaknesses(ps)| == 0
    ensures forall m :: m in r ==> m in {DefenceAdvice, MidfieldAdvice, AttackAdvice, BalancedAdvice}
    ensures InSlotOrder(r, DefenceAdvice, MidfieldAdvice, AttackAdvice, BalancedAdvice)
  {
    Advice(Weaknesses(ps))
  }

  /** The advice for a given list of weaknesses. */
  function Advice(w: seq<string>): (r: seq<string>)
    ensures DefenceAdvice in r <==> WeakDefence in w
    ensures MidfieldAdvice in r <==> WeakMidfield in w
    ensures AttackAdvice in r <==> WeakAttack in w
    ensures BalancedAdvice in r <==> |w| == 0
    ensures forall m :: m in r ==> m in {DefenceAdvice, MidfieldAdvice, AttackAdvice, BalancedAdvice}
    ensures InSlotOrder(r, DefenceAdvice, MidfieldAdvice, AttackAdvice, BalancedAdvice)
  {
    var d, m, a, b := WeakDefence in w, WeakMidfield in w, WeakAttack in w, |w| == 0;
    FourFlagsInOrder(d, m, a, b, DefenceAdvice, MidfieldAdvice, AttackAdvice, BalancedAdvice);
    FourFlags(d, m, a, b, DefenceAdvice, MidfieldAdvice, AttackAdvice, BalancedAdvice)
  }

  // ----- lineup -----

  function TsiKey(p: Player): real { p.tsi as real }

  /** The first `k` players of a TSI-descending permutation of `f` are
      members of `f`, in TSI order, and no member of `f` left out has a
      higher TSI than one taken. */
  lemma SortedPrefixIsTop(f: seq<Player>, g: seq<Player>, k: nat)
    requires multiset(g) == multiset(f) && Descending(g, TsiKey) && k <= |g|
    ensures forall i :: 0 <= i < k ==> g[i] in f
    ensures forall i, j :: 0 <= i < j < k ==> g[i].tsi >= g[j].tsi
    ensures forall y, x :: y in f && y !in g[..k] && x in g[..k] ==> y.tsi <= x.tsi
  {
    forall i | 0 <= i < k
      ensures g[i] in f
    {
      assert g[i] in multiset(g);
    }
    forall i, j | 0 <= i < j < k
      ensures g[i].tsi >= g[j].tsi
    {
      assert TsiKey(g[i]) >= TsiKey(g[j]);
    }
    forall y, x | y in f && y !in g[..k] && x in g[..k]
      ensures y.tsi <= x.tsi
    {
      assert y in multiset(f);
      assert g == g[..k] + g[k..];
      assert y in g[k..];
      var j :| 0 <= j < |g| - k && g[k..][j] == y;
      var i :| 0 <= i < k && g[..k][i] == x;
      assert TsiKey(g[i]) >= TsiKey(g[k + j]);
    }
  }

  /** The first `n` players of group `keep`, by non-increasing TSI; players
      of equal TSI are taken in squad order. */
  function TopByTsi(ps: seq<Player>, keep: Player -> bool, n: nat): (r: seq<Player>)
    ensures |r| == Min(n, |Filter(ps, keep)|)
    ensures forall i :: 0 <= i < |r| ==> r[i] in ps && keep(r[i])
    ensures forall i, j :: 0 <= i < j < |r| ==> r[i].tsi >= r[j].tsi
    ensures forall y, x :: y in Filter(ps, keep) && y !in r && x in r ==> y.tsi <= x.tsi
    ensures forall t :: Filter(r, KeyIs(TsiKey, t)) <= Filter(Filter(ps, keep), KeyIs(TsiKey, t))
  {
    var f := Filter(ps, keep);
    var g := SortDescending(f, TsiKey);
    var m := Min(n, |g|);
    SortedPrefixIsTop(f, g, m);
    FilterMembers(ps, keep);
    forall t
      ensures Filter(g[..m], KeyIs(TsiKey, t)) <= Filter(f, KeyIs(TsiKey, t))
    {
      FilterOfPrefix(g, m, KeyIs(TsiKey, t));
    }
    g[..m]
  }

  datatype Lineup = Lineup(
    goalkeeper: string,
    defenders: seq<string>,
    midfielders: seq<string>,
    forwards: seq<string>)

  function Names(ps: seq<Player>): (r: seq<string>)
    ensures |r| == |ps| && forall i :: 0 <= i < |ps| ==> r[i] == ps[i].name
  {
    seq(|ps|, i requires 0 <= i < |ps| => ps[i].name)
  }

  ghost predicate NamedAs(ps: seq<Player>, pos: Position, n: string) {
    exists i :: 0 <= i < |ps| && ps[i].position == pos && ps[i].name == n
  }

  lemma NamesFromGroup(ps: seq<Player>, top: seq<Player>, keep: Player -> bool, pos: Position)
    requires forall i :: 0 <= i < |top| ==> top[i] in ps && keep(top[i])
    requires forall p :: keep(p) ==> p.position == pos
    ensures forall n :: n in Names(top) ==> NamedAs(ps, pos, n)
  {
    forall n | n in Names(top)
      ensures NamedAs(ps, pos, n)
    {
      var i :| 0 <= i < |top| && Names(top)[i] == n;
      var j :| 0 <= j < |ps| && ps[j] == top[i];
      assert ps[j].position == pos && ps[j].name == n;
    }
  }

  /** The top goalkeeper by TSI, when there is one. */
  lemma GoalkeeperChoice(ps: seq<Player>, gk: seq<Player>)
    requires gk == TopByTsi(ps, IsGoalkeeper, 1)
    ensures (forall i :: 0 <= i < |ps| ==> ps[i].position != Goalkeeper) ==> |gk| == 0
    ensures (exists i :: 0 <= i < |ps| && ps[i].position == Goalkeeper) ==>
      (|gk| == 1 && NamedAs(ps, Goalkeeper, gk[0].name)
       && forall j :: 0 <= j < |ps| && ps[j].position == Goalkeeper ==> ps[j].tsi <= gk[0].tsi)
  {
    forall i | 0 <= i < |ps|
      ensures IsGoalkeeper(ps[i]) <==> ps[i].position == Goalkeeper
    {
      PositionGroups(ps[i]);
    }
    if exists i :: 0 <= i < |ps| && ps[i].position == Goalkeeper {
      FilterMembers(ps, IsGoalkeeper);
      var i :| 0 <= i < |ps| && ps[i].position == Goalkeeper;
      assert ps[i] in Filter(ps, IsGoalkeeper);
      var k :| 0 <= k < |ps| && ps[k] == gk[0];
      assert ps[k].position == Goalkeeper;
      forall j | 0 <= j < |ps| && ps[j].position == Goalkeeper
        ensures ps[j].tsi <= gk[0].tsi
      {
        assert ps[j] in Filter(ps, IsGoalkeeper);
        if ps[j] != gk[0] {
          assert ps[j] !in gk;
        }
      }
    }
  }

  /** One goalkeeper, four defenders, four midfielders and two forwards by
      TSI; a group with fewer players yields fewer names, and the goalkeeper
      slot reads "None" when there is no goalkeeper. */
  function SuggestBestLineup(ps: seq<Player>): (r: Lineup)
    ensures r.defenders == Names(TopByTsi(ps, IsDefender, 4))
    ensures r.midfielders == Names(TopByTsi(ps, IsMidfielder, 4))
    ensures r.forwards == Names(TopByTsi(ps, IsForward, 2))
    ensures (exists i :: 0 <= i < |ps| && ps[i].position == Goalkeeper) ==>
      |TopByTsi(ps, IsGoalkeeper, 1)| == 1 && r.goalkeeper == TopByTsi(ps, IsGoalkeeper, 1)[0].name
    ensures |r.defenders| == Min(4, |Filter(ps, IsDefender)|)
    ensures |r.midfielders| == Min(4, |Filter(ps, IsMidfielder)|)
    ensures |r.forwards| == Min(2, |Filter(ps, IsForward)|)
    ensures forall n :: n in r.defenders ==> NamedAs(ps, CentralDefender, n)
    ensures forall n :: n in r.midfielders ==> NamedAs(ps, InnerMidfielder, n)
    ensures forall n :: n in r.forwards ==> NamedAs(ps, Forward, n)
    ensures (forall i :: 0 <= i < |ps| ==> ps[i].position != Goalkeeper) ==> r.goalkeeper == "None"
    ensures (exists i :: 0 <= i < |ps| && ps[i].position == Goalkeeper) ==>
      NamedAs(ps, Goalkeeper, r.goalkeeper)
  {
    var gk := TopByTsi(ps, IsGoalkeeper, 1);
    var d := TopByTsi(ps, IsDefender, 4);
    var m := TopByTsi(ps, IsMidfielder, 4);
    var f := TopByTsi(ps, IsForward, 2);
    GroupsArePositions();
    NamesFromGroup(ps, d, IsDefender, CentralDefender);
    NamesFromGroup(ps, m, IsMidfielder, InnerMidfielder);
    NamesFromGroup(ps, f, IsForward, Forward);
    GoalkeeperChoice(ps, gk);
    Lineup(if |gk| > 0 then gk[0].name else "None", Names(d), Names(m), Names(f))
  }

  // ----- the whole snapshot -----

  datatype Snapshot = Snapshot(
    totalPlayers: nat,
    averageAge: real,
    totalSalary: real,
    totalTsi: int,
    positionDistribution: map<string, nat>,
    strengths: seq<string>,
    weaknesses: seq<string>,
    tacticalRecommendations: seq<string>,
    bestLineup: Lineup)

  function GenerateSnapshot(ps: seq<Player>): (r: Snapshot)
    ensures r.totalPlayers == |ps|
    ensures Tally(r.positionDistribution) == |ps|
    ensures r.averageAge == AverageAge(ps) && r.totalSalary == TotalSalary(ps)
    ensures r.totalTsi == TotalTsi(ps) && r.positionDistribution == PositionHistogram(ps)
    ensures r.strengths == Strengths(ps) && r.weaknesses == Weaknesses(ps)
    ensures r.tacticalRecommendations == TacticalRecommendations(ps)
    ensures r.bestLineup == SuggestBestLineup(ps)
    ensures |r.strengths| > 0
    ensures MissingKeeper in r.weaknesses ==> r.bestLineup.goalkeeper == "None"
    ensures MissingKeeper !in r.weaknesses ==> NamedAs(ps, Goalkeeper, r.bestLineup.goalkeeper)
  {
    HistogramCountsEveryPlayer(ps);
    Snapshot(|ps|, AverageAge(ps), TotalSalary(ps), TotalTsi(ps), PositionHistogram(ps),
             Strengths(ps), Weaknesses(ps), TacticalRecommendations(ps), SuggestBestLineup(ps))
  }
}
