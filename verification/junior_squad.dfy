/** Junior squad: an additive 0-100 potential score, promotion bands and
    value, promotion candidates, training simulation and the comparison of
    four formations over the juniors' position headcounts. */
module JuniorSquad {

  import opened Common
  import opened Players
  import opened Sorting

  // ----- potential score -----

  /** Ten points for each year under 19, at most thirty. */
  function AgeBonus(age: int): (r: int)
    ensures r == 10 * Max(0, Min(3, 19 - age))
  {
    if age < 17 then 30 else if age < 18 then 20 else if age < 19 then 10 else 0
  }

  /** Ten points for each of the TSI thresholds 500 and 1000 passed. */
  function TsiBonus(tsi: int): (r: int)
    ensures r == 10 * ((if tsi > 500 then 1 else 0) + (if tsi > 1000 then 1 else 0))
  {
    if tsi > 1000 then 20 else if tsi > 500 then 10 else 0
  }

  /** Every finite non-empty set of integers has a largest element. */
  lemma {:induction false} MaxExists(s: set<int>)
    requires s != {}
    ensures exists m :: m in s && forall y :: y in s ==> y <= m
    decreases |s|
  {
    assert exists y :: y in s by {
      if forall y :: y !in s {
        assert false;
      }
    }
    var x :| x in s;
    if s != {x} {
      MaxExists(s - {x});
      var m :| m in s - {x} && forall y :: y in s - {x} ==> y <= m;
      if x > m {
        assert forall y :: y in s ==> y == x || y in s - {x};
        assert m in s && x in s;
      } else {
        assert forall y :: y in s ==> y == x || y in s - {x};
        assert m in s;
      }
    } else {
      assert forall y :: y in s ==> y == x;
    }
  }

  /** `max(skills.values()) if skills else 0`. */
  function MaxSkill(skills: map<string, int>): (r: int)
    ensures |skills| == 0 ==> r == 0
    ensures |skills| > 0 ==> r in skills.Values && forall k :: k in skills ==> skills[k] <= r
  {
    if |skills| == 0 then 0
    else
      assert skills.Values != {} by {
        var k :| k in skills;
        assert skills[k] in skills.Values;
      }
      MaxExists(skills.Values);
      var m :| m in skills.Values && forall y :: y in skills.Values ==> y <= m;
      assert forall k :: k in skills ==> skills[k] in skills.Values;
      m
  }

  /** The score from its four inputs: age bonus, five points per level of
      the best skill up to 40, TSI bonus, twice the form, capped at 100. */
  function ScoreOf(age: int, maxSkill: int, tsi: int, form: int): (r: real)
    ensures r <= 100.0
    ensures maxSkill >= 0 && form >= 0 ==> r >= 0.0
  {
    var score := AgeBonus(age) + Min(maxSkill * 5, 40) + TsiBonus(tsi) + form * 2;
    MinReal(score as real, 100.0)
  }

  function PotentialScore(j: Player): (r: real)
    ensures r <= 100.0
    ensures j.form >= 0 && (forall k :: k in j.skills ==> j.skills[k] >= 0) ==> r >= 0.0
  {
    ScoreOf(j.age, MaxSkill(j.skills), j.tsi, j.form)
  }

  /** Younger, more skilled, higher-TSI and in-better-form never scores
      lower. */
  lemma ScoreMonotone(age1: int, skill1: int, tsi1: int, form1: int,
                      age2: int, skill2: int, tsi2: int, form2: int)
    requires age2 <= age1 && skill1 <= skill2 && tsi1 <= tsi2 && form1 <= form2
    ensures ScoreOf(age1, skill1, tsi1, form1) <= ScoreOf(age2, skill2, tsi2, form2)
  {
  }

  /** The skill term saturates: beyond level 8 more skill adds nothing. */
  lemma SkillTermSaturates(age: int, skill: int, tsi: int, form: int)
    requires skill >= 8
    ensures ScoreOf(age, skill, tsi, form) == ScoreOf(age, 8, tsi, form)
  {
  }

  // ----- recommendation and value -----

  datatype Action = PromoteAndTrain | Promote | Train | Release {
    function Label(): string {
      match this
      case PromoteAndTrain => "Promote and Train"
      case Promote => "Promote"
      case Train => "Train"
      case Release => "Release"
    }
    function Rank(): nat {
      match this
      case PromoteAndTrain => 3
      case Promote => 2
      case Train => 1
      case Release => 0
    }
  }

  /** Exclusive bands: at least 70, at least 50, at least 30, below 30. */
  function RecommendAction(score: real): (r: Action)
    ensures r == PromoteAndTrain <==> score >= 70.0
    ensures r == Promote <==> 50.0 <= score < 70.0
    ensures r == Train <==> 30.0 <= score < 50.0
    ensures r == Release <==> score < 30.0
  {
    if score >= 70.0 then PromoteAndTrain
    else if score >= 50.0 then Promote
    else if score >= 30.0 then Train
    else Release
  }

  /** A higher score never gets a weaker recommendation. */
  lemma RecommendationMonotone(s1: real, s2: real)
    requires s1 <= s2
    ensures RecommendAction(s1).Rank() <= RecommendAction(s2).Rank()
  {
  }

  /** The value multiplier: 2.0 above 70, 1.5 above 50, 1.0 otherwise. */
  function PromotionMultiplier(score: real): (m: real)
    ensures m == 2.0 <==> score > 70.0
    ensures m == 1.5 <==> 50.0 < score <= 70.0
    ensures m == 1.0 <==> score <= 50.0
  {
    if score > 70.0 then 2.0 else if score > 50.0 then 1.5 else 1.0
  }

  function EstimatePromotionValue(j: Player): (r: real)
    ensures r == j.tsi as real * 10.0 * PromotionMultiplier(PotentialScore(j))
    ensures j.tsi >= 0 ==> j.tsi as real * 10.0 <= r <= j.tsi as real * 20.0
  {
    var base := j.tsi as real * 10.0;
    base * PromotionMultiplier(PotentialScore(j))
  }

  /** The value multiplier uses strict comparisons while the recommendation
      bands are inclusive: a junior scoring exactly 70 is "Promote and
      Train" but valued at the 1.5 multiplier of "Promote". */
  lemma ScoreSeventyBandsDisagree()
    ensures var j := Player("7", "Youth", 16, Forward, map["scoring" := 8], 0.0, 100, 0, 0, 0, 0);
      PotentialScore(j) == 70.0
      && RecommendAction(PotentialScore(j)) == PromoteAndTrain
      && EstimatePromotionValue(j) == 1500.0
  {
    var j := Player("7", "Youth", 16, Forward, map["scoring" := 8], 0.0, 100, 0, 0, 0, 0);
    assert MaxSkill(j.skills) == 8 by {
      assert j.skills.Values == {8};
    }
  }

  // ----- analysis and promotions -----

  datatype JuniorReport = JuniorReport(
    playerId: string,
    name: string,
    age: int,
    potentialScore: real,
    bestPosition: Position,
    currentSkills: map<string, int>,
    recommendation: Action,
    promotionValue: real)

  function Report(j: Player): (r: JuniorReport)
    ensures r.playerId == j.id && r.name == j.name && r.age == j.age && r.currentSkills == j.skills
    ensures r.potentialScore == PotentialScore(j)
    ensures r.recommendation == RecommendAction(r.potentialScore)
    ensures r.bestPosition == BestPosition(j)
    ensures r.promotionValue == EstimatePromotionValue(j)
  {
    var score := PotentialScore(j);
    JuniorReport(j.id, j.name, j.age, score, BestPosition(j), j.skills,
                 RecommendAction(score), EstimatePromotionValue(j))
  }

  function Reports(js: seq<Player>): (r: seq<JuniorReport>)
    ensures |r| == |js| && forall i :: 0 <= i < |js| ==> r[i] == Report(js[i])
  {
    seq(|js|, i requires 0 <= i < |js| => Report(js[i]))
  }

  function ScoreKey(r: JuniorReport): real { r.potentialScore }

  /** Every junior's report, by non-increasing potential score (ties keep
      input order). */
  function AnalyzePotential(js: seq<Player>): (r: seq<JuniorReport>)
    ensures |r| == |js|
    ensures multiset(r) == multiset(Reports(js))
    ensures forall s :: Filter(r, KeyIs(ScoreKey, s)) == Filter(Reports(js), KeyIs(ScoreKey, s))
    ensures forall i, j :: 0 <= i < j < |r| ==> r[i].potentialScore >= r[j].potentialScore
    ensures forall i :: 0 <= i < |r| ==> r[i].recommendation == RecommendAction(r[i].potentialScore)
  {
    var r := SortDescending(Reports(js), ScoreKey);
    SortedReports(Reports(js), r);
    r
  }

  /** A score-descending permutation of reports is ranked, and each report in
      it still carries the recommendation its score gives. */
  lemma SortedReports(rs: seq<JuniorReport>, r: seq<JuniorReport>)
    requires multiset(r) == multiset(rs) && Descending(r, ScoreKey)
    requires forall i :: 0 <= i < |rs| ==> rs[i].recommendation == RecommendAction(rs[i].potentialScore)
    ensures forall i, j :: 0 <= i < j < |r| ==> r[i].potentialScore >= r[j].potentialScore
    ensures forall i :: 0 <= i < |r| ==> r[i].recommendation == RecommendAction(r[i].potentialScore)
  {
    forall i, j | 0 <= i < j < |r|
      ensures r[i].potentialScore >= r[j].potentialScore
    {
      assert ScoreKey(r[i]) >= ScoreKey(r[j]);
    }
    forall i | 0 <= i < |r|
      ensures r[i].recommendation == RecommendAction(r[i].potentialScore)
    {
      assert r[i] in multiset(rs);
    }
  }

  predicate IsPromotion(r: JuniorReport) {
    r.recommendation == Promote || r.recommendation == PromoteAndTrain
  }

  /** Non-increasing potential score. */
  predicate Ranked(rs: seq<JuniorReport>) {
    forall i, j :: 0 <= i < j < |rs| ==> rs[i].potentialScore >= rs[j].potentialScore
  }

  /** Recommended for promotion, with the score that band needs. */
  predicate Promotable(rs: seq<JuniorReport>) {
    forall i :: 0 <= i < |rs| ==> IsPromotion(rs[i]) && rs[i].potentialScore >= 50.0
  }

  /** Filtering a ranking keeps it ranked. */
  lemma FilteredStaysRanked(ranked: seq<JuniorReport>)
    requires Ranked(ranked)
    ensures Ranked(Filter(ranked, IsPromotion))
  {
    assert Descending(ranked, ScoreKey) by {
      forall i, j | 0 <= i < j < |ranked|
        ensures ScoreKey(ranked[i]) >= ScoreKey(ranked[j])
      {
      }
    }
    FilterKeepsDescending(ranked, IsPromotion, ScoreKey);
    var c := Filter(ranked, IsPromotion);
    forall i, j | 0 <= i < j < |c|
      ensures c[i].potentialScore >= c[j].potentialScore
    {
      assert ScoreKey(c[i]) >= ScoreKey(c[j]);
    }
  }

  /** Reports whose recommendation is read from their score keep, after the
      promotion filter, only scores of at least 50. */
  lemma PromotableScoresFifty(ranked: seq<JuniorReport>)
    requires forall i :: 0 <= i < |ranked| ==> ranked[i].recommendation == RecommendAction(ranked[i].potentialScore)
    ensures Promotable(Filter(ranked, IsPromotion))
  {
    var c := Filter(ranked, IsPromotion);
    FilterMembers(ranked, IsPromotion);
    forall i | 0 <= i < |c|
      ensures IsPromotion(c[i]) && c[i].potentialScore >= 50.0
    {
      var k :| 0 <= k < |ranked| && ranked[k] == c[i];
    }
  }

  lemma AnalysisFacts(js: seq<Player>)
    ensures Ranked(AnalyzePotential(js))
    ensures Ranked(Filter(AnalyzePotential(js), IsPromotion))
    ensures Promotable(Filter(AnalyzePotential(js), IsPromotion))
  {
    FilteredStaysRanked(AnalyzePotential(js));
    PromotableScoresFifty(AnalyzePotential(js));
  }

  /** The promotable reports of the ranking, still ranked: every promotable
      report once, and nothing else; candidates with equal scores keep the
      juniors' input order. */
  function PromotionCandidates(js: seq<Player>): (c: seq<JuniorReport>)
    ensures Promotable(c) && Ranked(c)
    ensures forall i :: 0 <= i < |AnalyzePotential(js)| && IsPromotion(AnalyzePotential(js)[i]) ==> AnalyzePotential(js)[i] in c
    ensures forall i :: 0 <= i < |c| ==> c[i] in AnalyzePotential(js)
    ensures |c| == Count(AnalyzePotential(js), IsPromotion)
    ensures forall s :: Filter(c, KeyIs(ScoreKey, s)) == Filter(Filter(Reports(js), IsPromotion), KeyIs(ScoreKey, s))
  {
    var a := AnalyzePotential(js);
    AnalysisFacts(js);
    FilterMembers(a, IsPromotion);
    CountIsFilterLength(a, IsPromotion);
    forall s
      ensures Filter(Filter(a, IsPromotion), KeyIs(ScoreKey, s))
           == Filter(Filter(Reports(js), IsPromotion), KeyIs(ScoreKey, s))
    {
      FilterCommute(a, IsPromotion, KeyIs(ScoreKey, s));
      FilterCommute(Reports(js), IsPromotion, KeyIs(ScoreKey, s));
    }
    Filter(a, IsPromotion)
  }

  /** Taking a prefix keeps both properties. */
  lemma TakeKeeps(c: seq<JuniorReport>, n: int)
    requires Promotable(c) && Ranked(c)
    ensures Promotable(Take(c, n)) && Ranked(Take(c, n))
  {
    var r := Take(c, n);
    assert forall i :: 0 <= i < |r| ==> r[i] == c[i];
  }

  /** The first `maxPromotions` promotable juniors of the ranked analysis
      (Python slicing: a negative cap drops that many from the end); among
      equal scores, the juniors cut are the later ones in input order. */
  function RecommendPromotions(js: seq<Player>, maxPromotions: int): (r: seq<JuniorReport>)
    ensures |r| <= |PromotionCandidates(js)| && r == PromotionCandidates(js)[..|r|]
    ensures 0 <= maxPromotions ==> |r| == Min(maxPromotions, |PromotionCandidates(js)|)
    ensures maxPromotions < 0 ==> |r| == Max(0, |PromotionCandidates(js)| + maxPromotions)
    ensures Promotable(r) && Ranked(r)
    ensures forall s :: Filter(r, KeyIs(ScoreKey, s)) <= Filter(Filter(Reports(js), IsPromotion), KeyIs(ScoreKey, s))
  {
    var c := PromotionCandidates(js);
    TakeKeeps(c, maxPromotions);
    var r := Take(c, maxPromotions);
    assert r == c[..|r|];
    forall s
      ensures Filter(r, KeyIs(ScoreKey, s)) <= Filter(Filter(Reports(js), IsPromotion), KeyIs(ScoreKey, s))
    {
      FilterOfPrefix(c, |r|, KeyIs(ScoreKey, s));
    }
    r
  }

  // ----- training simulation -----

  /** Juniors gain one point per half week: `int(weeks / 0.5)` points. */
  function ProjectJuniorSkill(j: Player, trainingType: string, weeks: int): (r: int)
    ensures r - Skill(j, trainingType) == 2 * weeks
  {
    Skill(j, trainingType) + TruncToInt(weeks as real / 0.5)
  }

  datatype JuniorProjection = JuniorProjection(
    playerId: string,
    name: string,
    currentSkill: int,
    projectedSkill: int,
    improvement: int)

  datatype TrainingSimulation = TrainingSimulation(
    trainingType: string,
    weeks: int,
    projections: seq<JuniorProjection>)

  function SimulateTrainingImpact(js: seq<Player>, trainingType: string, weeks: int): (r: TrainingSimulation)
    ensures r.trainingType == trainingType && r.weeks == weeks
    ensures |r.projections| == |js|
    ensures forall i :: 0 <= i < |js| ==>
      r.projections[i].playerId == js[i].id && r.projections[i].name == js[i].name
      && r.projections[i].currentSkill == Skill(js[i], trainingType)
      && r.projections[i].projectedSkill == ProjectJuniorSkill(js[i], trainingType, weeks)
      && r.projections[i].improvement == 2 * weeks
  {
    TrainingSimulation(trainingType, weeks,
      seq(|js|, i requires 0 <= i < |js| =>
        var current := Skill(js[i], trainingType);
        var projected := ProjectJuniorSkill(js[i], trainingType, weeks);
        JuniorProjection(js[i].id, js[i].name, current, projected, projected - current)))
  }

  // ----- formations -----

  datatype Formation = Formation(name: string, defenders: nat, midfielders: nat, forwards: nat)

  const Formations: seq<Formation> := [
    Formation("4-4-2", 4, 4, 2),
    Formation("3-5-2", 3, 5, 2),
    Formation("4-3-3", 4, 3, 3),
    Formation("5-3-2", 5, 3, 2)
  ]

  function DefenderCount(js: seq<Player>): nat { |Filter(js, IsDefender)| }

  function MidfielderCount(js: seq<Player>): nat { |Filter(js, IsMidfielder)| }

  function ForwardCount(js: seq<Player>): nat { |Filter(js, IsForward)| }

  function HasPosition(pos: Position): Player -> bool {
    (p: Player) => p.position == pos
  }

  /** The substring-selected group is exactly the players of one position. */
  lemma GroupCount(js: seq<Player>, keep: Player -> bool, pos: Position)
    requires forall p :: keep(p) <==> p.position == pos
    ensures |Filter(js, keep)| == Count(js, HasPosition(pos))
  {
    FilterSameCondition(js, keep, HasPosition(pos));
    CountIsFilterLength(js, HasPosition(pos));
  }

  /** `_can_field_formation`: there are enough Central Defenders, Inner
      Midfielders and Forwards for the formation. */
  function CanFieldFormation(js: seq<Player>, f: Formation): (r: bool)
    ensures r <==> (Count(js, HasPosition(CentralDefender)) >= f.defenders
                    && Count(js, HasPosition(InnerMidfielder)) >= f.midfielders
                    && Count(js, HasPosition(Forward)) >= f.forwards)
  {
    GroupsArePositions();
    GroupCount(js, IsDefender, CentralDefender);
    GroupCount(js, IsMidfielder, InnerMidfielder);
    GroupCount(js, IsForward, Forward);
    DefenderCount(js) >= f.defenders
    && MidfielderCount(js) >= f.midfielders
    && ForwardCount(js) >= f.forwards
  }

  /** Signing one more junior never makes a fieldable formation
      unfieldable, and a Wing Back or Winger adds to no headcount. */
  lemma ExtraJuniorKeepsFieldable(js: seq<Player>, j: Player, f: Formation)
    ensures CanFieldFormation(js, f) ==> CanFieldFormation(js + [j], f)
    ensures j.position in {WingBack, Winger} ==>
      DefenderCount(js + [j]) == DefenderCount(js)
      && MidfielderCount(js + [j]) == MidfielderCount(js)
      && ForwardCount(js + [j]) == ForwardCount(js)
  {
    FilterAppendOne(js, j, IsDefender);
    FilterAppendOne(js, j, IsMidfielder);
    FilterAppendOne(js, j, IsForward);
    PositionGroups(j);
  }

  function DefendingTotal(ds: seq<Player>): int {
    if |ds| == 0 then 0 else Skill(ds[0], "defending") + DefendingTotal(ds[1..])
  }

  lemma {:induction false} DefendingTotalNonNegative(ds: seq<Player>)
    requires forall i :: 0 <= i < |ds| ==> Skill(ds[i], "defending") >= 0
    ensures DefendingTotal(ds) >= 0
  {
    if |ds| > 0 {
      DefendingTotalNonNegative(ds[1..]);
    }
  }

  /** Bonus of up to 10 from twice the defenders' mean defending. */
  function QualityBonus(js: seq<Player>): (b: real)
    ensures b <= 10.0
    ensures (forall i :: 0 <= i < |js| ==> Skill(js[i], "defending") >= 0) ==> b >= 0.0
  {
    var ds := Filter(js, IsDefender);
    FilterMembers(js, IsDefender);
    if |ds| == 0 then 0.0
    else
      assert (forall i :: 0 <= i < |js| ==> Skill(js[i], "defending") >= 0) ==> DefendingTotal(ds) >= 0 by {
        if forall i :: 0 <= i < |js| ==> Skill(js[i], "defending") >= 0 {
          forall i | 0 <= i < |ds|
            ensures Skill(ds[i], "defending") >= 0
          {
            var k :| 0 <= k < |js| && js[k] == ds[i];
          }
          DefendingTotalNonNegative(ds);
        }
      }
      MinReal(DefendingTotal(ds) as real / |ds| as real * 2.0, 10.0)
  }

  /** 30 points per position group whose headcount is met, plus the quality
      bonus. */
  function FormationSuitability(js: seq<Player>, f: Formation): (r: real)
    ensures r <= 100.0
    ensures !CanFieldFormation(js, f) ==> r <= 70.0
    ensures CanFieldFormation(js, f) && (forall i :: 0 <= i < |js| ==> Skill(js[i], "defending") >= 0) ==> r >= 90.0
  {
    (if DefenderCount(js) >= f.defenders then 30.0 else 0.0)
    + (if MidfielderCount(js) >= f.midfielders then 30.0 else 0.0)
    + (if ForwardCount(js) >= f.forwards then 30.0 else 0.0)
    + QualityBonus(js)
  }

  /** With non-negative defending skills, a formation can be fielded
      exactly when it scores at least 90. */
  lemma FieldableIffHighSuitability(js: seq<Player>, f: Formation)
    requires forall i :: 0 <= i < |js| ==> Skill(js[i], "defending") >= 0
    ensures CanFieldFormation(js, f) <==> FormationSuitability(js, f) >= 90.0
  {
  }

  datatype FormationReport = FormationReport(name: string, suitability: real, canField: bool)

  datatype FormationComparison = FormationComparison(reports: seq<FormationReport>, recommendation: string)

  /** All four formations in their fixed order, and the first one with the
      highest suitability. */
  function CompareFormations(js: seq<Player>): (r: FormationComparison)
    ensures |r.reports| == |Formations|
    ensures forall i :: 0 <= i < |Formations| ==>
      r.reports[i].name == Formations[i].name
      && r.reports[i].suitability == FormationSuitability(js, Formations[i])
      && r.reports[i].canField == CanFieldFormation(js, Formations[i])
    ensures exists k :: (0 <= k < |Formations| && r.recommendation == Formations[k].name
      && (forall i :: 0 <= i < |Formations| ==> r.reports[i].suitability <= r.reports[k].suitability)
      && (forall i :: 0 <= i < k ==> r.reports[i].suitability < r.reports[k].suitability))
  {
    var reports := seq(|Formations|, i requires 0 <= i < |Formations| =>
      FormationReport(Formations[i].name, FormationSuitability(js, Formations[i]),
                      CanFieldFormation(js, Formations[i])));
    var scores := seq(|reports|, i requires 0 <= i < |reports| => reports[i].suitability);
    var best := ArgMaxFirst(scores);
    assert forall i :: 0 <= i < |Formations| ==> scores[i] == reports[i].suitability;
    FormationComparison(reports, Formations[best].name)
  }
}
