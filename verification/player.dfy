/** The player record every analysis reads, and the three per-player
    heuristics defined on it: best position, cost-benefit and potential. */
module Players {

  import opened Common

  /** The six Hattrick positions; `Label` is the enum's display value. */
  datatype Position = Goalkeeper | CentralDefender | WingBack | InnerMidfielder | Winger | Forward {
    function Label(): string {
      match this
      case Goalkeeper => "Goalkeeper"
      case CentralDefender => "Central Defender"
      case WingBack => "Wing Back"
      case InnerMidfielder => "Inner Midfielder"
      case Winger => "Winger"
      case Forward => "Forward"
    }
  }

  /** A player as loaded from the squad file. Skills are keyed by name
      ("goalkeeping", "defending", "playmaking", "winger", "scoring", ...);
      the loader does not range-check any field, so neither does the model. */
  datatype Player = Player(
    id: string,
    name: string,
    age: int,
    position: Position,
    skills: map<string, int>,
    salary: real,
    tsi: int,
    form: int,
    stamina: int,
    experience: int,
    leadership: int)

  /** `skills.get(name, 0)`. */
  function Skill(p: Player, name: string): (r: int)
    ensures name in p.skills ==> r == p.skills[name]
    ensures name !in p.skills ==> r == 0
  {
    if name in p.skills then p.skills[name] else 0
  }

  function Max3(a: int, b: int, c: int): int {
    Max(a, Max(b, c))
  }

  /** Best position: a goalkeeping skill above 10 wins outright; otherwise
      scoring, defending and winger are tried in that order, each needing to
      beat the remaining outfield skills strictly, and Inner Midfielder takes
      every tie that is left. */
  function BestPosition(p: Player): (r: Position)
    ensures r != WingBack
    ensures r == Goalkeeper <==> Skill(p, "goalkeeping") > 10
    ensures r == Forward <==>
      Skill(p, "goalkeeping") <= 10
      && Skill(p, "scoring") > Skill(p, "defending")
      && Skill(p, "scoring") > Skill(p, "playmaking")
      && Skill(p, "scoring") > Skill(p, "winger")
    ensures r == CentralDefender <==>
      Skill(p, "goalkeeping") <= 10
      && Skill(p, "scoring") <= Skill(p, "defending")
      && Skill(p, "defending") > Skill(p, "playmaking")
      && Skill(p, "defending") > Skill(p, "winger")
    ensures r == InnerMidfielder <==>
      Skill(p, "goalkeeping") <= 10
      && Skill(p, "winger") <= Skill(p, "playmaking")
      && Skill(p, "defending") <= Skill(p, "playmaking")
      && Skill(p, "scoring") <= Skill(p, "playmaking")
  {
    if Skill(p, "goalkeeping") > 10 then Goalkeeper
    else
      var defending := Skill(p, "defending");
      var playmaking := Skill(p, "playmaking");
      var winger := Skill(p, "winger");
      var scoring := Skill(p, "scoring");
      if scoring > Max3(defending, playmaking, winger) then Forward
      else if defending > Max(playmaking, winger) then CentralDefender
      else if winger > playmaking then Winger
      else InnerMidfielder
  }

  /** The outfield skill a position is chosen for. */
  function PositionSkill(p: Player, pos: Position): int {
    match pos
    case Forward => Skill(p, "scoring")
    case CentralDefender => Skill(p, "defending")
    case Winger => Skill(p, "winger")
    case _ => Skill(p, "playmaking")
  }

  /** Whatever outfield position is chosen, its skill is a maximum of the four
      outfield skills: the fall-through order only decides among ties. */
  lemma BestPositionHasTopSkill(p: Player)
    requires BestPosition(p) != Goalkeeper
    ensures PositionSkill(p, BestPosition(p)) >= Skill(p, "scoring")
    ensures PositionSkill(p, BestPosition(p)) >= Skill(p, "defending")
    ensures PositionSkill(p, BestPosition(p)) >= Skill(p, "playmaking")
    ensures PositionSkill(p, BestPosition(p)) >= Skill(p, "winger")
  {
  }

  /** A missing skill key behaves exactly like a key holding 0. */
  lemma MissingSkillReadsAsZero(p: Player, key: string)
    requires key !in p.skills
    ensures BestPosition(p.(skills := p.skills[key := 0])) == BestPosition(p)
  {
    var q := p.(skills := p.skills[key := 0]);
    forall k | k in {"goalkeeping", "defending", "playmaking", "winger", "scoring"}
      ensures Skill(q, k) == Skill(p, k)
    {
    }
  }

  /** TSI per unit of salary, with an unpaid player rated 0 rather than
      dividing by zero. */
  function CostBenefit(p: Player): (r: real)
    ensures p.salary == 0.0 ==> r == 0.0
    ensures p.salary != 0.0 ==> r * p.salary == p.tsi as real
  {
    if p.salary == 0.0 then 0.0 else p.tsi as real / p.salary
  }

  /** The three potential tiers (also used for training impact). */
  datatype Tier = High | Medium | Low {
    function Label(): string {
      match this
      case High => "High"
      case Medium => "Medium"
      case Low => "Low"
    }
    function Rank(): nat {
      match this
      case High => 2
      case Medium => 1
      case Low => 0
    }
  }

  /** Potential from age alone: under 20 High, under 25 Medium, else Low. */
  function EstimatePotential(p: Player): (r: Tier)
    ensures r == High <==> p.age < 20
    ensures r == Medium <==> 20 <= p.age < 25
    ensures r == Low <==> 25 <= p.age
  {
    if p.age < 20 then High
    else if p.age < 25 then Medium
    else Low
  }

  /** An older player never has a higher potential tier. */
  lemma PotentialNonIncreasingInAge(p: Player, q: Player)
    requires p.age <= q.age
    ensures EstimatePotential(q).Rank() <= EstimatePotential(p).Rank()
  {
  }

  /** Python's `needle in haystack` on strings. */
  predicate Contains(haystack: string, needle: string) {
    |needle| <= |haystack| &&
    (haystack[..|needle|] == needle || Contains(haystack[1..], needle))
  }

  lemma {:induction false} ContainsAt(haystack: string, needle: string, i: nat)
    requires i + |needle| <= |haystack| && haystack[i..i + |needle|] == needle
    ensures Contains(haystack, needle)
  {
    if i > 0 {
      assert haystack[1..][i - 1..i - 1 + |needle|] == needle;
      ContainsAt(haystack[1..], needle, i - 1);
    }
  }

  lemma {:induction false} NotContainsWithoutFirstChar(haystack: string, needle: string)
    requires |needle| > 0 && needle[0] !in haystack
    ensures !Contains(haystack, needle)
  {
    if |needle| <= |haystack| {
      assert haystack[..|needle|][0] == haystack[0];
      NotContainsWithoutFirstChar(haystack[1..], needle);
    }
  }

  /** The lineup and formation code's "defender": `"Defender" in label`. */
  predicate IsDefender(p: Player) {
    Contains(p.position.Label(), "Defender")
  }

  /** The lineup and formation code's "midfielder": `"Midfielder" in label`. */
  predicate IsMidfielder(p: Player) {
    Contains(p.position.Label(), "Midfielder")
  }

  predicate IsForward(p: Player) {
    p.position.Label() == "Forward"
  }

  predicate IsGoalkeeper(p: Player) {
    p.position.Label() == "Goalkeeper"
  }

  lemma CentralDefenderLabel()
    ensures Contains("Central Defender", "Defender") && !Contains("Central Defender", "Midfielder")
  {
    var cd := "Central Defender";
    assert cd[8..16] == "Defender" by {
      assert forall k :: 0 <= k < 8 ==> cd[8..16][k] == "Defender"[k];
    }
    ContainsAt(cd, "Defender", 8);
    NotContainsWithoutFirstChar(cd, "Midfielder");
  }

  lemma InnerMidfielderLabel()
    ensures Contains("Inner Midfielder", "Midfielder") && !Contains("Inner Midfielder", "Defender")
  {
    var im := "Inner Midfielder";
    assert im[6..16] == "Midfielder" by {
      assert forall k :: 0 <= k < 10 ==> im[6..16][k] == "Midfielder"[k];
    }
    ContainsAt(im, "Midfielder", 6);
    NotContainsWithoutFirstChar(im, "Defender");
  }

  /** The other four labels contain neither word. */
  lemma OtherLabel(pos: Position)
    requires pos != CentralDefender && pos != InnerMidfielder
    ensures !Contains(pos.Label(), "Defender") && !Contains(pos.Label(), "Midfielder")
  {
    NotContainsWithoutFirstChar(pos.Label(), "Defender");
    NotContainsWithoutFirstChar(pos.Label(), "Midfielder");
  }

  /** The substring tests select exactly one position each: Wing Back is never
      a defender and Winger is never a midfielder. */
  lemma PositionGroups(p: Player)
    ensures IsDefender(p) <==> p.position == CentralDefender
    ensures IsMidfielder(p) <==> p.position == InnerMidfielder
    ensures IsForward(p) <==> p.position == Forward
    ensures IsGoalkeeper(p) <==> p.position == Goalkeeper
  {
    LabelInjective(p.position, Forward);
    LabelInjective(p.position, Goalkeeper);
    if p.position == CentralDefender {
      CentralDefenderLabel();
    } else if p.position == InnerMidfielder {
      InnerMidfielderLabel();
    } else {
      OtherLabel(p.position);
    }
  }

  /** `PositionGroups` for every player at once. */
  lemma GroupsArePositions()
    ensures forall p :: IsGoalkeeper(p) <==> p.position == Goalkeeper
    ensures forall p :: IsDefender(p) <==> p.position == CentralDefender
    ensures forall p :: IsMidfielder(p) <==> p.position == InnerMidfielder
    ensures forall p :: IsForward(p) <==> p.position == Forward
  {
    forall p: Player
      ensures IsGoalkeeper(p) <==> p.position == Goalkeeper
      ensures IsDefender(p) <==> p.position == CentralDefender
      ensures IsMidfielder(p) <==> p.position == InnerMidfielder
      ensures IsForward(p) <==> p.position == Forward
    {
      PositionGroups(p);
    }
  }

  /** Labels are distinct, so a label identifies its position. */
  lemma LabelInjective(a: Position, b: Position)
    ensures a.Label() == b.Label() <==> a == b
  {
  }

  function AgeSum(ps: seq<Player>): int {
    if |ps| == 0 then 0 else ps[0].age + AgeSum(ps[1..])
  }
}
