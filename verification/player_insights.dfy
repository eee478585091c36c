/** Per-player insight: best position, cost-benefit, potential, training
    impact and a Sell/Train/Keep decision. */
module PlayerInsights {

  import opened Players

  datatype Decision = Sell | Train | Keep {
    function Label(): string {
      match this
      case Sell => "Sell"
      case Train => "Train"
      case Keep => "Keep"
    }
  }

  datatype TrainingImpact = TrainingImpact(timeToImprove: string, impact: Tier)

  /** Training impact uses the same age cut-offs (20 and 25) as potential. */
  function EstimateTrainingImpact(p: Player): (r: TrainingImpact)
    ensures r.impact == EstimatePotential(p)
    ensures r.timeToImprove == "1-2 weeks" <==> p.age < 20
    ensures r.timeToImprove == "2-4 weeks" <==> 20 <= p.age < 25
    ensures r.timeToImprove == "4+ weeks" <==> 25 <= p.age
  {
    if p.age < 20 then TrainingImpact("1-2 weeks", High)
    else if p.age < 25 then TrainingImpact("2-4 weeks", Medium)
    else TrainingImpact("4+ weeks", Low)
  }

  /** The decision table; the first rule whose guard holds decides:
      (1) over 30 and cost-benefit below 100: Sell;
      (2) High potential and under 22: Train;
      (3) cost-benefit above 200: Keep;
      (4) Low potential and cost-benefit below 150: Sell;
      (5) otherwise Keep. */
  function RecommendDecision(p: Player, costBenefit: real, potential: Tier): (r: Decision)
    ensures p.age > 30 && costBenefit < 100.0 ==> r == Sell
    ensures r == Train <==> !(p.age > 30 && costBenefit < 100.0) && potential == High && p.age < 22
    ensures r == Sell <==>
      (p.age > 30 && costBenefit < 100.0)
      || (!(potential == High && p.age < 22) && costBenefit <= 200.0
          && potential == Low && costBenefit < 150.0)
  {
    if p.age > 30 && costBenefit < 100.0 then Sell
    else if potential == High && p.age < 22 then Train
    else if costBenefit > 200.0 then Keep
    else if potential == Low && costBenefit < 150.0 then Sell
    else Keep
  }

  /** The decision for a player, with its own cost-benefit and potential.
      Since potential follows age, the table collapses to: Train under 20,
      Sell from 25 with cost-benefit below 150 (rule (1) only ever fires
      inside that region), and Keep otherwise. */
  function Decide(p: Player): (r: Decision)
    ensures r == Train <==> p.age < 20
    ensures r == Sell <==> p.age >= 25 && CostBenefit(p) < 150.0
    ensures r == Keep <==> (20 <= p.age < 25) || (p.age >= 25 && CostBenefit(p) >= 150.0)
  {
    RecommendDecision(p, CostBenefit(p), EstimatePotential(p))
  }

  /** With potential from age, "Train" is exactly the under-20s: rule (2)
      asks for High potential, which already means under 20, and rule (1)
      cannot fire that young. */
  lemma TrainIffUnderTwenty(p: Player)
    ensures Decide(p) == Train <==> p.age < 20
  {
  }

  /** An unpaid player (cost-benefit 0) aged 25 or more is always sold:
      by rule (1) when over 30, by rule (4) otherwise. */
  lemma UnpaidSeniorIsSold(p: Player)
    requires p.salary == 0.0 && p.age >= 25
    ensures Decide(p) == Sell
  {
  }

  /** A player between 22 and 30 with cost-benefit above 200 is kept. */
  lemma ValuablePrimeIsKept(p: Player)
    requires 22 <= p.age <= 30 && CostBenefit(p) > 200.0
    ensures Decide(p) == Keep
  {
  }

  datatype Insight = Insight(
    playerId: string,
    name: string,
    age: int,
    bestPosition: string,
    currentPosition: string,
    costBenefit: real,
    potential: Tier,
    trainingImpact: TrainingImpact,
    recommendation: Decision,
    tsi: int,
    salary: real)

  function AnalyzePlayer(p: Player): (r: Insight)
    ensures r.playerId == p.id && r.name == p.name && r.age == p.age
    ensures r.tsi == p.tsi && r.salary == p.salary
    ensures r.currentPosition == p.position.Label()
    ensures r.bestPosition == BestPosition(p).Label() && r.bestPosition != "Wing Back"
    ensures r.costBenefit == CostBenefit(p)
    ensures p.salary == 0.0 ==> r.costBenefit == 0.0
    ensures p.salary != 0.0 ==> r.costBenefit * p.salary == p.tsi as real
    ensures r.potential == EstimatePotential(p)
    ensures r.trainingImpact == EstimateTrainingImpact(p) && r.trainingImpact.impact == r.potential
    ensures r.recommendation == Decide(p)
    ensures r.recommendation == Train <==> p.age < 20
    ensures r.recommendation == Sell <==> p.age >= 25 && r.costBenefit < 150.0
  {
    Insight(p.id, p.name, p.age, BestPosition(p).Label(), p.position.Label(),
            CostBenefit(p), EstimatePotential(p), EstimateTrainingImpact(p),
            Decide(p), p.tsi, p.salary)
  }

  /** One insight per player, in input order. */
  function AnalyzeAll(ps: seq<Player>): (r: seq<Insight>)
    ensures |r| == |ps|
    ensures forall i :: 0 <= i < |ps| ==> r[i] == AnalyzePlayer(ps[i]) && r[i].playerId == ps[i].id
  {
    seq(|ps|, i requires 0 <= i < |ps| => AnalyzePlayer(ps[i]))
  }
}
