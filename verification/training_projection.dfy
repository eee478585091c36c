/** Training projection: skill-ups by age band, the TSI-based value
    heuristic, the comparison of training types, and the players close to a
    skill-up. The projection keeps one training type (`current`) fixed, as
    the source object does. */
module TrainingProjection {

  import opened Common
  import opened Players
  import opened Sorting

  const TrainingTypes: seq<string> := ["playmaking", "defending", "scoring", "winger", "goalkeeping"]

  function Lookup(m: map<string, int>, k: string): Option<int> {
    if k in m then Some(m[k]) else None
  }

  /** The value of the skill being trained: `skills.get(...)` for one of the
      five trainable skills, None for a missing key or any other name. */
  function CurrentTrainingSkill(p: Player, current: string): (r: Option<int>)
    ensures current !in TrainingTypes ==> r == None
    ensures current in TrainingTypes ==> (r.Some? <==> current in p.skills)
    ensures r.Some? ==> current in p.skills && r.value == p.skills[current]
  {
    if current == "playmaking" then Lookup(p.skills, "playmaking")
    else if current == "defending" then Lookup(p.skills, "defending")
    else if current == "scoring" then Lookup(p.skills, "scoring")
    else if current == "winger" then Lookup(p.skills, "winger")
    else if current == "goalkeeping" then Lookup(p.skills, "goalkeeping")
    else None
  }

  /** `tsi * 0.15 * (new_skill - (current or 0)) * 0.1`. */
  function EstimateValueIncrease(p: Player, current: string, newSkill: int): (r: real)
    ensures newSkill == CurrentTrainingSkill(p, current).GetOr(0) ==> r == 0.0
    ensures p.tsi > 0 ==>
      (r > 0.0 <==> newSkill > CurrentTrainingSkill(p, current).GetOr(0))
      && (r < 0.0 <==> newSkill < CurrentTrainingSkill(p, current).GetOr(0))
  {
    var gain := newSkill - CurrentTrainingSkill(p, current).GetOr(0);
    p.tsi as real * 0.15 * gain as real * 0.1
  }

  /** Each extra skill point is worth 1.5% of TSI. */
  lemma ValueIncreasePerPoint(p: Player, current: string, newSkill: int)
    ensures EstimateValueIncrease(p, current, newSkill + 1)
            == EstimateValueIncrease(p, current, newSkill) + p.tsi as real * 0.015
  {
  }

  /** Weeks per skill point by age band. */
  function SkillupRate(age: int): real {
    if age < 20 then 0.5 else if age < 25 then 1.0 else 2.0
  }

  datatype Projection = Projection(projectedSkill: Option<int>, weeksToImprove: Option<int>, valueIncrease: real)

  /** Projection for one player over `weeks`. The divisor is `int(rate)`,
      which is 0 for the under-20 rate of 0.5, so an under-20 player with a
      trained skill raises ZeroDivisionError. `weeks // d` is floor division;
      for the positive divisors reached here Dafny's `/` agrees with it. */
  function ProjectPlayerSkillUp(p: Player, current: string, weeks: int): (r: Result<Projection>)
    ensures CurrentTrainingSkill(p, current).None? ==> r == Ok(Projection(None, None, 0.0))
    ensures CurrentTrainingSkill(p, current).Some? && p.age < 20 ==> r == Err(ZeroDivision)
    ensures CurrentTrainingSkill(p, current).Some? && p.age >= 20 ==>
      r.Ok? && r.value.weeksToImprove.Some? && r.value.projectedSkill.Some?
      && (r.value.weeksToImprove.value == 1 <==> p.age < 25)
      && (r.value.weeksToImprove.value == 2 <==> p.age >= 25)
      && var w := r.value.weeksToImprove.value;
         var gain := r.value.projectedSkill.value - CurrentTrainingSkill(p, current).value;
         gain * w <= weeks < (gain + 1) * w
         && r.value.valueIncrease == p.tsi as real * 0.015 * gain as real
  {
    match CurrentTrainingSkill(p, current)
    case None => Ok(Projection(None, None, 0.0))
    case Some(skill) =>
      var divisor := TruncToInt(SkillupRate(p.age));
      if divisor == 0 then Err(ZeroDivision)
      else
        var projected := skill + weeks / divisor;
        Ok(Projection(Some(projected), Some(divisor), EstimateValueIncrease(p, current, projected)))
  }

  /** A concrete 19-year-old playmaker makes the projection fail. */
  lemma UnderTwentyProjectionFails()
    ensures ProjectPlayerSkillUp(
      Player("1", "Junior", 19, InnerMidfielder, map["playmaking" := 5], 100.0, 1000, 5, 0, 0, 0),
      "playmaking", 4) == Err(ZeroDivision)
  {
  }

  datatype SkillUpEntry = SkillUpEntry(
    playerId: string,
    name: string,
    currentSkill: Option<int>,
    projectedSkill: Option<int>,
    weeksToImprove: Option<int>,
    valueIncrease: real)

  /** The entry listed for a player whose projection is `pr`. */
  function SkillUpEntryOf(p: Player, current: string, pr: Projection): SkillUpEntry {
    SkillUpEntry(p.id, p.name, CurrentTrainingSkill(p, current), pr.projectedSkill, pr.weeksToImprove, pr.valueIncrease)
  }

  /** `project_skill_ups`: one entry per player, in squad order, carrying
      that player's projection, unless some player's projection raises,
      which aborts the whole list. */
  function ProjectSkillUps(ps: seq<Player>, current: string, weeks: int): (r: Result<seq<SkillUpEntry>>)
    ensures r.Ok? <==> forall i :: 0 <= i < |ps| ==>
      !(CurrentTrainingSkill(ps[i], current).Some? && ps[i].age < 20)
    ensures r.Err? ==> r == Err(ZeroDivision)
    ensures r.Ok? ==> |r.value| == |ps|
    ensures r.Ok? ==> forall i :: 0 <= i < |ps| ==>
      ProjectPlayerSkillUp(ps[i], current, weeks).Ok?
      && r.value[i] == SkillUpEntryOf(ps[i], current, ProjectPlayerSkillUp(ps[i], current, weeks).value)
  {
    if |ps| == 0 then Ok([])
    else
      match ProjectPlayerSkillUp(ps[0], current, weeks)
      case Err(e) => Err(e)
      case Ok(pr) =>
        match ProjectSkillUps(ps[1..], current, weeks)
        case Err(e) => Err(e)
        case Ok(rest) =>
          assert forall i :: 1 <= i < |ps| ==> ps[i] == ps[1..][i - 1];
          Ok([SkillUpEntryOf(ps[0], current, pr)] + rest)
  }

  /** Sum of the value increases the ROI averages: each one compares the
      current skill with itself. */
  function SumValueIncrease(ps: seq<Player>, current: string): (r: real)
    ensures r == 0.0
  {
    if |ps| == 0 then 0.0
    else
      EstimateValueIncrease(ps[0], current, CurrentTrainingSkill(ps[0], current).GetOr(0))
      + SumValueIncrease(ps[1..], current)
  }

  /** Mean value increase for `trainingType`. The source evaluates it with
      the object's current training, not with `trainingType`, and with the
      current skill as the "new" skill, so the ROI is 0 for every type. */
  function TrainingRoi(ps: seq<Player>, current: string, trainingType: string): (r: real)
    ensures r == 0.0
  {
    if |ps| == 0 then 0.0 else SumValueIncrease(ps, current) / |ps| as real
  }

  /** 999 for nobody; otherwise 1, 2 or 4 weeks by mean age under 20, under
      25, or older. */
  function WeeksToSkillup(ps: seq<Player>): (r: int)
    ensures |ps| == 0 ==> r == 999
    ensures |ps| > 0 ==>
      (r == 1 <==> AgeSum(ps) < 20 * |ps|)
      && (r == 2 <==> 20 * |ps| <= AgeSum(ps) < 25 * |ps|)
      && (r == 4 <==> 25 * |ps| <= AgeSum(ps))
  {
    if |ps| == 0 then 999
    else
      var mean := AgeSum(ps) as real / |ps| as real;
      MeanBelow(AgeSum(ps), |ps|, 20);
      MeanBelow(AgeSum(ps), |ps|, 25);
      if mean < 20.0 then 1
      else if mean < 25.0 then 2
      else 4
  }

  /** A mean is below `c` exactly when the sum is below `c` times the count. */
  lemma MeanBelow(sum: int, n: int, c: int)
    requires n > 0
    ensures sum as real / n as real < c as real <==> sum < c * n
  {
    var m := sum as real / n as real;
    assert m * n as real == sum as real;
    if m < c as real {
      assert m * n as real < c as real * n as real;
    } else {
      assert m * n as real >= c as real * n as real;
    }
  }

  datatype TypeReport = TypeReport(
    trainingType: string,
    affectedPlayers: nat,
    estimatedRoi: real,
    weeksToFirstSkillup: int)

  datatype TrainingComparison = TrainingComparison(entries: seq<TypeReport>, bestTraining: string)

  /** One report per training type (every player counts as affected), and
      the first type with the highest ROI; as every ROI is 0 that is always
      "playmaking". */
  function CompareTrainingTypes(ps: seq<Player>, current: string): (r: TrainingComparison)
    ensures |r.entries| == |TrainingTypes|
    ensures forall i :: 0 <= i < |TrainingTypes| ==>
      r.entries[i].trainingType == TrainingTypes[i]
      && r.entries[i].affectedPlayers == |ps|
      && r.entries[i].estimatedRoi == 0.0
      && r.entries[i].weeksToFirstSkillup == WeeksToSkillup(ps)
    ensures r.bestTraining == "playmaking"
  {
    var entries := seq(|TrainingTypes|, i requires 0 <= i < |TrainingTypes| =>
      TypeReport(TrainingTypes[i], |ps|, TrainingRoi(ps, current, TrainingTypes[i]), WeeksToSkillup(ps)));
    var rois := seq(|entries|, i requires 0 <= i < |entries| => entries[i].estimatedRoi);
    var best := ArgMaxFirst(rois);
    assert rois[0] == rois[best];
    TrainingComparison(entries, TrainingTypes[best])
  }

  datatype NearEntry = NearEntry(
    playerId: string,
    name: string,
    currentSkill: int,
    weeksToSkillup: int,
    valueIncrease: real)

  predicate NearSkillup(p: Player, current: string) {
    CurrentTrainingSkill(p, current).Some? && WeeksToSkillup([p]) <= 2
  }

  /** The entry reported for a player near a skill-up. */
  function NearEntryFor(p: Player, current: string): NearEntry {
    var skill := CurrentTrainingSkill(p, current).GetOr(0);
    NearEntry(p.id, p.name, skill, WeeksToSkillup([p]), EstimateValueIncrease(p, current, skill))
  }

  /** For one player the weeks estimate is 1, 2 or 4 by the player's own age. */
  lemma SinglePlayerWeeks(p: Player)
    ensures WeeksToSkillup([p]) == (if p.age < 20 then 1 else if p.age < 25 then 2 else 4)
  {
    assert AgeSum([p]) == p.age + AgeSum([p][1..]);
  }

  function NearFilter(current: string): Player -> bool {
    p => NearSkillup(p, current)
  }

  /** The near-skill-up entries in input order, before sorting. */
  function NearCandidates(ps: seq<Player>, current: string): (r: seq<NearEntry>)
    ensures |r| == |Filter(ps, NearFilter(current))|
    ensures forall i :: 0 <= i < |r| ==> r[i] == NearEntryFor(Filter(ps, NearFilter(current))[i], current)
  {
    var f := Filter(ps, NearFilter(current));
    seq(|f|, i requires 0 <= i < |f| => NearEntryFor(f[i], current))
  }

  /** Every player near a skill-up has an entry, and every entry is such a
      player's. */
  lemma NearCandidatesMembers(ps: seq<Player>, current: string)
    ensures forall i :: 0 <= i < |ps| && NearSkillup(ps[i], current) ==> NearEntryFor(ps[i], current) in NearCandidates(ps, current)
    ensures forall e :: e in NearCandidates(ps, current) ==>
      exists i :: 0 <= i < |ps| && NearSkillup(ps[i], current) && e == NearEntryFor(ps[i], current)
  {
    var f, r := Filter(ps, NearFilter(current)), NearCandidates(ps, current);
    FilterMembers(ps, NearFilter(current));
    forall i | 0 <= i < |ps| && NearSkillup(ps[i], current)
      ensures NearEntryFor(ps[i], current) in r
    {
      assert NearFilter(current)(ps[i]);
      var k :| 0 <= k < |f| && f[k] == ps[i];
      assert r[k] == NearEntryFor(ps[i], current);
    }
    forall e | e in r
      ensures exists i :: 0 <= i < |ps| && NearSkillup(ps[i], current) && e == NearEntryFor(ps[i], current)
    {
      var k :| 0 <= k < |r| && r[k] == e;
      assert NearFilter(current)(f[k]);
      var i :| 0 <= i < |ps| && ps[i] == f[k];
      assert NearSkillup(ps[i], current) && e == NearEntryFor(ps[i], current);
    }
  }

  function WeeksKey(e: NearEntry): real { e.weeksToSkillup as real }

  /** The source's "weeks <= 2" filter selects exactly the players under 25,
      and each entry it keeps has 1 or 2 weeks and no value increase. */
  lemma NearSkillupFacts(p: Player, current: string)
    ensures NearSkillup(p, current) <==> CurrentTrainingSkill(p, current).Some? && p.age < 25
    ensures NearSkillup(p, current) ==>
      NearEntryFor(p, current).weeksToSkillup in {1, 2} && NearEntryFor(p, current).valueIncrease == 0.0
  {
    SinglePlayerWeeks(p);
  }

  /** Sorting keeps exactly the candidates, each with 1 or 2 weeks and no value increase. */
  lemma SortedCandidates(ps: seq<Player>, current: string, r: seq<NearEntry>)
    requires multiset(r) == multiset(NearCandidates(ps, current))
    ensures forall e :: e in r <==> e in NearCandidates(ps, current)
    ensures forall i :: 0 <= i < |r| ==> r[i].weeksToSkillup in {1, 2} && r[i].valueIncrease == 0.0
  {
    var c := NearCandidates(ps, current);
    NearCandidatesMembers(ps, current);
    forall e | e in r ensures e in c {
      assert e in multiset(r);
    }
    forall e | e in c ensures e in r {
      assert e in multiset(c);
    }
    forall i | 0 <= i < |r|
      ensures r[i].weeksToSkillup in {1, 2} && r[i].valueIncrease == 0.0
    {
      assert r[i] in c;
      var k :| 0 <= k < |ps| && NearSkillup(ps[k], current) && r[i] == NearEntryFor(ps[k], current);
      NearSkillupFacts(ps[k], current);
    }
  }

  /** The candidates are the entries of exactly the players with a trained
      skill who are under 25. */
  lemma CandidatesByAge(ps: seq<Player>, current: string)
    ensures forall i :: 0 <= i < |ps| && CurrentTrainingSkill(ps[i], current).Some? && ps[i].age < 25 ==>
      NearEntryFor(ps[i], current) in NearCandidates(ps, current)
    ensures forall e :: e in NearCandidates(ps, current) ==>
      exists i :: 0 <= i < |ps| && CurrentTrainingSkill(ps[i], current).Some? && ps[i].age < 25
        && e == NearEntryFor(ps[i], current)
  {
    NearCandidatesMembers(ps, current);
    forall i | 0 <= i < |ps| {
      NearSkillupFacts(ps[i], current);
    }
  }

  /** Players with a trained skill and under 25 (weeks 1 or 2), sorted by
      ascending weeks; each value increase is 0, because the "new" skill
      passed in is the current one. */
  function FindPlayersNearSkillup(ps: seq<Player>, current: string): (r: seq<NearEntry>)
    ensures |r| == |Filter(ps, NearFilter(current))|
    ensures forall i :: 0 <= i < |ps| && CurrentTrainingSkill(ps[i], current).Some? && ps[i].age < 25 ==>
      NearEntryFor(ps[i], current) in r
    ensures forall e :: e in r ==>
      exists i :: 0 <= i < |ps| && CurrentTrainingSkill(ps[i], current).Some? && ps[i].age < 25
        && e == NearEntryFor(ps[i], current)
    ensures forall i :: 0 <= i < |r| ==> r[i].weeksToSkillup in {1, 2} && r[i].valueIncrease == 0.0
    ensures forall i, j :: 0 <= i < j < |r| ==> r[i].weeksToSkillup <= r[j].weeksToSkillup
    ensures forall w :: Filter(r, KeyIs(WeeksKey, w)) == Filter(NearCandidates(ps, current), KeyIs(WeeksKey, w))
  {
    var r := SortAscending(NearCandidates(ps, current), WeeksKey);
    SortedCandidates(ps, current, r);
    CandidatesByAge(ps, current);
    forall i, j | 0 <= i < j < |r|
      ensures r[i].weeksToSkillup <= r[j].weeksToSkillup
    {
      assert WeeksKey(r[i]) <= WeeksKey(r[j]);
    }
    r
  }
}
