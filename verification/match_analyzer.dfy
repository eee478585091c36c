/** Match-result analytics: reading "home-away" result strings as a win, a
    draw or a loss, goals and points; recent form and its trend; and the
    possession, attack and defence sub-analyses. */
module MatchAnalyzer {

  import opened Common

  /** A past match. `None` stands for a key absent from the match record.
      The date, opponent, tactics and formation fields are never read. */
  datatype Match = Match(result: string, possession: Option<real>, chances: Option<int>)

  // ----- splitting and digits -----

  /** Python's `s.split(sep)`: at least one part, parts may be empty. */
  function Split(s: string, sep: char): (parts: seq<string>)
    ensures |parts| >= 1
    ensures forall i :: 0 <= i < |parts| ==> sep !in parts[i]
    decreases |s|
  {
    if |s| == 0 then [""]
    else
      var rest := Split(s[1..], sep);
      if s[0] == sep then [""] + rest
      else
        assert forall i :: 1 <= i < |rest| ==> rest[1..][i - 1] == rest[i];
        [[s[0]] + rest[0]] + rest[1..]
  }

  /** `sep.join(parts)`. */
  function Join(parts: seq<string>, sep: char): string
    requires |parts| >= 1
    decreases |parts|
  {
    if |parts| == 1 then parts[0] else parts[0] + [sep] + Join(parts[1..], sep)
  }

  /** Joining the parts back gives the string that was split. */
  lemma {:induction false} SplitJoin(s: string, sep: char)
    ensures Join(Split(s, sep), sep) == s
    decreases |s|
  {
    if |s| > 0 {
      var rest := Split(s[1..], sep);
      SplitJoin(s[1..], sep);
      if s[0] == sep {
        assert ([""] + rest)[1..] == rest;
        assert s == [sep] + s[1..];
      } else if |rest| == 1 {
        assert s == [s[0]] + s[1..];
      } else {
        var parts := [[s[0]] + rest[0]] + rest[1..];
        assert parts[1..] == rest[1..];
        assert s == [s[0]] + s[1..];
      }
    }
  }

  /** A string without the separator is a single part. */
  lemma {:induction false} SplitWithoutSep(s: string, sep: char)
    requires sep !in s
    ensures Split(s, sep) == [s]
    decreases |s|
  {
    if |s| > 0 {
      assert sep !in s[1..] by {
        forall i | 0 <= i < |s[1..]|
          ensures s[1..][i] != sep
        {
          assert s[1..][i] == s[i + 1];
        }
      }
      SplitWithoutSep(s[1..], sep);
      assert s == [s[0]] + s[1..];
    }
  }

  /** Two separator-free strings joined by one separator split back apart. */
  lemma {:induction false} SplitPair(x: string, y: string, sep: char)
    requires sep !in x && sep !in y
    ensures Split(x + [sep] + y, sep) == [x, y]
    decreases |x|
  {
    var s := x + [sep] + y;
    if |x| == 0 {
      assert s[1..] == y;
      SplitWithoutSep(y, sep);
    } else {
      assert s[1..] == x[1..] + [sep] + y;
      assert sep !in x[1..] by {
        forall i | 0 <= i < |x[1..]|
          ensures x[1..][i] != sep
        {
          assert x[1..][i] == x[i + 1];
        }
      }
      SplitPair(x[1..], y, sep);
      assert [s[0]] + x[1..] == x;
    }
  }

  predicate IsDigit(c: char) {
    '0' <= c <= '9'
  }

  /** The digits-only grammar accepted for each side of a result. */
  predicate IsDigits(s: string) {
    |s| > 0 && forall i :: 0 <= i < |s| ==> IsDigit(s[i])
  }

  /** The decimal value of a digit string (leading zeros allowed). */
  function DigitsValue(s: string): nat
    requires forall i :: 0 <= i < |s| ==> IsDigit(s[i])
    decreases |s|
  {
    if |s| == 0 then 0
    else
      assert IsDigit(s[|s| - 1]);
      10 * DigitsValue(s[..|s| - 1]) + (s[|s| - 1] as int - '0' as int)
  }

  /** The decimal rendering of `n`, without leading zeros. */
  function NatToDigits(n: nat): (s: string)
    ensures IsDigits(s)
    ensures '-' !in s
  {
    if n < 10 then [('0' as int + n) as char]
    else NatToDigits(n / 10) + [('0' as int + n % 10) as char]
  }

  lemma {:induction false} DigitsRoundTrip(n: nat)
    ensures DigitsValue(NatToDigits(n)) == n
  {
    if n >= 10 {
      var s := NatToDigits(n);
      assert s[..|s| - 1] == NatToDigits(n / 10);
      DigitsRoundTrip(n / 10);
    }
  }

  // ----- result strings -----

  datatype Score = Score(home: nat, away: nat)

  /** One side of `home, away = result.split("-")` read with `int()`: None
      where Python raises (not exactly two parts, or that side not digits). */
  function Side(result: string, i: nat): (r: Option<nat>)
    requires i < 2
    ensures r.Some? <==> |Split(result, '-')| == 2 && IsDigits(Split(result, '-')[i])
    ensures r.Some? ==> r.value == DigitsValue(Split(result, '-')[i])
  {
    var parts := Split(result, '-');
    if |parts| == 2 && IsDigits(parts[i]) then Some(DigitsValue(parts[i])) else None
  }

  /** Both sides read, or None where any of the three comparisons raises. */
  function ParseScore(result: string): (r: Option<Score>)
    ensures r.Some? <==> Side(result, 0).Some? && Side(result, 1).Some?
    ensures r.Some? ==> r.value == Score(Side(result, 0).value, Side(result, 1).value)
  {
    match (Side(result, 0), Side(result, 1))
    case (Some(h), Some(a)) => Some(Score(h, a))
    case _ => None
  }

  /** The canonical result string for a score. */
  function FormatScore(sc: Score): string {
    NatToDigits(sc.home) + "-" + NatToDigits(sc.away)
  }

  /** Every score read back from its own rendering is that score. */
  lemma ScoreRoundTrip(sc: Score)
    ensures ParseScore(FormatScore(sc)) == Some(sc)
  {
    var h := NatToDigits(sc.home);
    var a := NatToDigits(sc.away);
    assert FormatScore(sc) == h + ['-'] + a;
    SplitPair(h, a, '-');
    DigitsRoundTrip(sc.home);
    DigitsRoundTrip(sc.away);
  }

  /** `_is_win`: false on any string that does not read as a score. */
  function IsWin(result: string): (r: bool)
    ensures r <==> ParseScore(result).Some? && GoalsScored(result) > GoalsConceded(result)
  {
    ParseScore(result).Some? && ParseScore(result).value.home > ParseScore(result).value.away
  }

  /** `_is_draw`: false on any string that does not read as a score. */
  function IsDraw(result: string): (r: bool)
    ensures r <==> ParseScore(result).Some? && GoalsScored(result) == GoalsConceded(result)
  {
    ParseScore(result).Some? && ParseScore(result).value.home == ParseScore(result).value.away
  }

  /** `_is_loss`: false on any string that does not read as a score. */
  function IsLoss(result: string): (r: bool)
    ensures r <==> ParseScore(result).Some? && GoalsScored(result) < GoalsConceded(result)
  {
    ParseScore(result).Some? && ParseScore(result).value.home < ParseScore(result).value.away
  }

  /** At most one of win, draw and loss holds, and one does exactly when
      the string reads as a score. */
  lemma ResultExclusive(result: string)
    ensures !(IsWin(result) && IsDraw(result))
    ensures !(IsWin(result) && IsLoss(result))
    ensures !(IsDraw(result) && IsLoss(result))
    ensures IsWin(result) || IsDraw(result) || IsLoss(result) <==> ParseScore(result).Some?
  {
  }

  /** On a rendered score, win, draw and loss are the goal comparisons. */
  lemma FormattedOutcome(sc: Score)
    ensures IsWin(FormatScore(sc)) <==> sc.home > sc.away
    ensures IsDraw(FormatScore(sc)) <==> sc.home == sc.away
    ensures IsLoss(FormatScore(sc)) <==> sc.home < sc.away
  {
    ScoreRoundTrip(sc);
  }

  /** `_get_goals_scored`: the home side, or 0 where it does not read. */
  function GoalsScored(result: string): (n: nat)
    ensures Side(result, 0).Some? ==> n == Side(result, 0).value
    ensures Side(result, 0).None? ==> n == 0
  {
    Side(result, 0).GetOr(0)
  }

  /** `_get_goals_conceded`: the away side, or 0 where it does not read. */
  function GoalsConceded(result: string): (n: nat)
    ensures Side(result, 1).Some? ==> n == Side(result, 1).value
    ensures Side(result, 1).None? ==> n == 0
  {
    Side(result, 1).GetOr(0)
  }

  /** For a result that reads as a score, winning is scoring more than
      conceding (and likewise for draws and losses). */
  lemma OutcomeFromGoals(result: string)
    requires ParseScore(result).Some?
    ensures IsWin(result) <==> GoalsScored(result) > GoalsConceded(result)
    ensures IsDraw(result) <==> GoalsScored(result) == GoalsConceded(result)
    ensures IsLoss(result) <==> GoalsScored(result) < GoalsConceded(result)
  {
  }

  /** A string that is not two parts around one "-" is no outcome and has
      no goals. */
  lemma MalformedResult(result: string)
    requires |Split(result, '-')| != 2
    ensures !IsWin(result) && !IsDraw(result) && !IsLoss(result)
    ensures GoalsScored(result) == 0 && GoalsConceded(result) == 0
  {
  }

  /** Each goal count reads its own side only: "3-x" scores 3 yet is no
      outcome, and "x-2" concedes 2. */
  lemma OneSidedResults()
    ensures GoalsScored("3-x") == 3 && GoalsConceded("3-x") == 0
    ensures !IsWin("3-x") && !IsDraw("3-x") && !IsLoss("3-x")
    ensures GoalsScored("x-2") == 0 && GoalsConceded("x-2") == 2
  {
    assert "3-x" == "3" + ['-'] + "x";
    SplitPair("3", "x", '-');
    assert "x-2" == "x" + ['-'] + "2";
    SplitPair("x", "2", '-');
    assert DigitsValue("3") == 3 by {
      assert "3"[..0] == "";
    }
    assert DigitsValue("2") == 2 by {
      assert "2"[..0] == "";
    }
    assert !IsDigits("x") by {
      assert !IsDigit("x"[0]);
    }
  }

  /** `_get_match_points`: 3 for a win, 1 for a draw, 0 otherwise. */
  function MatchPoints(result: string): (r: real)
    ensures r == 3.0 <==> IsWin(result)
    ensures r == 1.0 <==> IsDraw(result)
    ensures r == 0.0 <==> !IsWin(result) && !IsDraw(result)
  {
    if IsWin(result) then 3.0 else if IsDraw(result) then 1.0 else 0.0
  }

  // ----- form trend -----

  datatype Trend = InsufficientData | Improving | Declining | Stable {
    function Label(): string {
      match this
      case InsufficientData => "insufficient_data"
      case Improving => "improving"
      case Declining => "declining"
      case Stable => "stable"
    }
  }

  function Points(ms: seq<Match>): (r: seq<real>)
    ensures |r| == |ms|
    ensures forall i :: 0 <= i < |ms| ==> r[i] == MatchPoints(ms[i].result)
  {
    seq(|ms|, i requires 0 <= i < |ms| => MatchPoints(ms[i].result))
  }

  /** The arithmetic mean. */
  function Mean(xs: seq<real>): real
    requires |xs| > 0
  {
    SumReal(xs) / |xs| as real
  }

  /** The mean is the value that, times the count, is the sum. */
  lemma MeanTimesCount(xs: seq<real>)
    requires |xs| > 0
    ensures Mean(xs) * |xs| as real == SumReal(xs)
  {
    var q, n := Mean(xs), |xs| as real;
    assert q == SumReal(xs) / n;
  }

  /** `rate` is `k` out of `n` as a percentage, 0 when `n` is 0. */
  predicate IsPercentOf(rate: real, k: nat, n: nat) {
    if n == 0 then rate == 0.0 else rate * n as real == 100.0 * k as real
  }

  /** `k / n * 100`, or 0 for nothing counted. */
  function Percent(k: nat, n: nat): (r: real)
    ensures IsPercentOf(r, k, n)
    ensures k <= n ==> 0.0 <= r <= 100.0
  {
    if n == 0 then 0.0 else k as real / n as real * 100.0
  }

  lemma {:induction false} SumWithin(xs: seq<real>, lo: real, hi: real)
    requires forall i :: 0 <= i < |xs| ==> lo <= xs[i] <= hi
    ensures |xs| as real * lo <= SumReal(xs) <= |xs| as real * hi
  {
    if |xs| > 0 {
      SumWithin(xs[1..], lo, hi);
    }
  }

  /** A mean lies within any bounds its entries lie within. */
  lemma MeanWithin(xs: seq<real>, lo: real, hi: real)
    requires |xs| > 0
    requires forall i :: 0 <= i < |xs| ==> lo <= xs[i] <= hi
    ensures lo <= Mean(xs) <= hi
  {
    SumWithin(xs, lo, hi);
    MeanTimesCount(xs);
  }

  /** Points over the first three matches. */
  function RecentPoints(ms: seq<Match>): seq<real> {
    Points(Take(ms, 3))
  }

  /** Points over the fourth to sixth matches (none for three or fewer). */
  function OlderPoints(ms: seq<Match>): seq<real> {
    if |ms| > 3 then Points(ms[3..Min(6, |ms|)]) else []
  }

  /** `_calculate_form_trend`: fewer than two matches is insufficient; a
      trend needs a fourth match; then the mean points of the first three
      are compared with those of the next (up to) three, with a margin of
      half a point. */
  function FormTrend(ms: seq<Match>): (t: Trend)
    ensures t == InsufficientData <==> |ms| < 2
    ensures 2 <= |ms| <= 3 ==> t == Stable
    ensures t == Improving <==>
      |ms| > 3 && Mean(RecentPoints(ms)) > Mean(OlderPoints(ms)) + 0.5
    ensures t == Declining <==>
      |ms| > 3 && Mean(RecentPoints(ms)) < Mean(OlderPoints(ms)) - 0.5
  {
    if |ms| < 2 then InsufficientData
    else
      var recent := RecentPoints(ms);
      var older := OlderPoints(ms);
      if |older| == 0 then Stable
      else
        var recentAvg := Mean(recent);
        var olderAvg := Mean(older);
        if recentAvg > olderAvg + 0.5 then Improving
        else if recentAvg < olderAvg - 0.5 then Declining
        else Stable
  }

  /** Matches beyond the sixth never change the trend. */
  lemma FirstSixDecideTrend(ms: seq<Match>)
    requires |ms| > 6
    ensures FormTrend(ms) == FormTrend(ms[..6])
  {
    assert Take(ms, 3) == Take(ms[..6], 3);
    assert ms[3..6] == ms[..6][3..6];
  }

  lemma PointsWithin(ms: seq<Match>)
    requires |ms| > 0
    ensures 0.0 <= Mean(Points(ms)) <= 3.0
  {
    MeanWithin(Points(ms), 0.0, 3.0);
  }

  /** Three wins in a row at the top never read as declining form, and
      three points-less matches never read as improving. */
  lemma StartDecidesDirection(ms: seq<Match>)
    requires |ms| >= 3
    ensures (forall i :: 0 <= i < 3 ==> IsWin(ms[i].result)) ==> FormTrend(ms) != Declining
    ensures (forall i :: 0 <= i < 3 ==> MatchPoints(ms[i].result) == 0.0) ==> FormTrend(ms) != Improving
  {
    if |ms| > 3 {
      var older := ms[3..Min(6, |ms|)];
      PointsWithin(older);
      if forall i :: 0 <= i < 3 ==> IsWin(ms[i].result) {
        MeanWithin(RecentPoints(ms), 3.0, 3.0);
      }
      if forall i :: 0 <= i < 3 ==> MatchPoints(ms[i].result) == 0.0 {
        MeanWithin(RecentPoints(ms), 0.0, 0.0);
      }
    }
  }

  // ----- recent form -----

  predicate Won(m: Match) { IsWin(m.result) }
  predicate Drawn(m: Match) { IsDraw(m.result) }
  predicate Lost(m: Match) { IsLoss(m.result) }

  /** A match's possession, reading an absent one as 50. */
  function PossessionOrDefault(m: Match): real {
    m.possession.GetOr(50.0)
  }

  /** A match's chances, reading absent ones as 0. */
  function ChancesOrDefault(m: Match): real {
    m.chances.GetOr(0) as real
  }

  /** Counting three predicates that never hold together counts each
      element at most once. */
  lemma {:induction false} CountExclusive<T>(s: seq<T>, a: T -> bool, b: T -> bool, c: T -> bool)
    requires forall i :: 0 <= i < |s| ==> !(a(s[i]) && b(s[i])) && !(a(s[i]) && c(s[i])) && !(b(s[i]) && c(s[i]))
    ensures Count(s, a) + Count(s, b) + Count(s, c) <= |s|
  {
    if |s| > 0 {
      CountExclusive(s[1..], a, b, c);
    }
  }

  lemma OutcomesCountedOnce(ms: seq<Match>)
    ensures Count(ms, Won) + Count(ms, Drawn) + Count(ms, Lost) <= |ms|
  {
    forall i | 0 <= i < |ms|
      ensures !(Won(ms[i]) && Drawn(ms[i])) && !(Won(ms[i]) && Lost(ms[i])) && !(Drawn(ms[i]) && Lost(ms[i]))
    {
      ResultExclusive(ms[i].result);
    }
    CountExclusive(ms, Won, Drawn, Lost);
  }

  /** Mean possession with absent values read as 50; 50 for no matches. */
  function AveragePossession(ms: seq<Match>): (r: real)
    ensures |ms| == 0 ==> r == 50.0
    ensures |ms| > 0 ==> r == Mean(seq(|ms|, i requires 0 <= i < |ms| => PossessionOrDefault(ms[i])))
  {
    if |ms| > 0 then Mean(seq(|ms|, i requires 0 <= i < |ms| => PossessionOrDefault(ms[i]))) else 50.0
  }

  /** Mean chances with absent values read as 0; 0 for no matches. */
  function AverageChances(ms: seq<Match>): (r: real)
    ensures |ms| == 0 ==> r == 0.0
    ensures |ms| > 0 ==> r == Mean(seq(|ms|, i requires 0 <= i < |ms| => ChancesOrDefault(ms[i])))
  {
    if |ms| > 0 then Mean(seq(|ms|, i requires 0 <= i < |ms| => ChancesOrDefault(ms[i]))) else 0.0
  }

  /** Possessions that are percentages average to a percentage. */
  lemma AveragePossessionWithin(ms: seq<Match>)
    requires forall i :: 0 <= i < |ms| && ms[i].possession.Some? ==> 0.0 <= ms[i].possession.value <= 100.0
    ensures 0.0 <= AveragePossession(ms) <= 100.0
  {
    if |ms| > 0 {
      MeanWithin(seq(|ms|, i requires 0 <= i < |ms| => PossessionOrDefault(ms[i])), 0.0, 100.0);
    }
  }

  datatype FormReport = FormReport(
    matchesAnalyzed: nat,
    wins: nat,
    draws: nat,
    losses: nat,
    winRate: real,
    averagePossession: real,
    averageChances: real,
    formTrend: Trend)

  /** The most recent `lastN` matches: `matches[:last_n]` unless there are
      fewer than `lastN`. */
  function RecentMatches(ms: seq<Match>, lastN: int): (r: seq<Match>)
    ensures |r| <= |ms| && r == ms[..|r|]
    ensures 0 <= lastN ==> |r| == Min(lastN, |ms|)
    ensures lastN < 0 ==> |r| == Max(0, |ms| + lastN)
  {
    if |ms| >= lastN then Take(ms, lastN) else ms
  }

  datatype Tally = Tally(wins: nat, draws: nat, losses: nat)

  /** Wins, draws and losses among the matches; no match is counted twice. */
  function TallyOutcomes(ms: seq<Match>): (t: Tally)
    ensures t.wins == Count(ms, Won) && t.draws == Count(ms, Drawn) && t.losses == Count(ms, Lost)
    ensures t.wins + t.draws + t.losses <= |ms|
  {
    OutcomesCountedOnce(ms);
    Tally(Count(ms, Won), Count(ms, Drawn), Count(ms, Lost))
  }

  /** The form report over a list of matches: outcome counts, win rate,
      mean possession and chances (absent values read as 50 and 0) and the
      form trend. */
  function FormOf(recent: seq<Match>): (r: FormReport)
    ensures r.matchesAnalyzed == |recent|
    ensures Tally(r.wins, r.draws, r.losses) == TallyOutcomes(recent)
    ensures r.wins + r.draws + r.losses <= r.matchesAnalyzed
    ensures 0.0 <= r.winRate <= 100.0
    ensures IsPercentOf(r.winRate, r.wins, r.matchesAnalyzed)
    ensures r.averagePossession == AveragePossession(recent) && r.averageChances == AverageChances(recent)
    ensures r.formTrend == FormTrend(recent)
  {
    var t := TallyOutcomes(recent);
    FormReport(|recent|, t.wins, t.draws, t.losses, Percent(t.wins, |recent|),
               AveragePossession(recent), AverageChances(recent), FormTrend(recent))
  }

  /** `analyze_recent_form`: the form report over the most recent `lastN`
      matches. */
  function AnalyzeRecentForm(ms: seq<Match>, lastN: int): (r: FormReport)
    ensures 0 <= lastN ==> r.matchesAnalyzed == Min(lastN, |ms|)
    ensures lastN < 0 ==> r.matchesAnalyzed == Max(0, |ms| + lastN)
    ensures r.matchesAnalyzed <= |ms| && r == FormOf(ms[..r.matchesAnalyzed])
  {
    var recent := RecentMatches(ms, lastN);
    FormOf(recent)
  }

  // ----- possession -----

  /** `if m.get("possession")`: present and non-zero. */
  predicate HasPossession(m: Match) {
    m.possession.Some? && m.possession.value != 0.0
  }

  /** The recorded, non-zero possessions, in match order. */
  function Possessions(ms: seq<Match>): (r: seq<real>)
    ensures |r| == |Filter(ms, HasPossession)|
    ensures forall i :: 0 <= i < |r| ==> Filter(ms, HasPossession)[i].possession == Some(r[i])
    ensures forall i :: 0 <= i < |r| ==> r[i] != 0.0
  {
    var kept := Filter(ms, HasPossession);
    FilterMembers(ms, HasPossession);
    seq(|kept|, i requires 0 <= i < |kept| => kept[i].possession.value)
  }

  /** Every recorded possession is listed, and nothing else is. */
  lemma PossessionsMembers(ms: seq<Match>)
    ensures forall j :: 0 <= j < |ms| && HasPossession(ms[j]) ==> ms[j].possession.value in Possessions(ms)
    ensures forall i :: 0 <= i < |Possessions(ms)| ==>
      exists j :: 0 <= j < |ms| && HasPossession(ms[j]) && ms[j].possession.value == Possessions(ms)[i]
  {
    var kept, r := Filter(ms, HasPossession), Possessions(ms);
    FilterMembers(ms, HasPossession);
    forall i | 0 <= i < |r|
      ensures exists j :: 0 <= j < |ms| && HasPossession(ms[j]) && ms[j].possession.value == r[i]
    {
      var j :| 0 <= j < |ms| && ms[j] == kept[i];
    }
    forall j | 0 <= j < |ms| && HasPossession(ms[j])
      ensures ms[j].possession.value in r
    {
      var k :| 0 <= k < |kept| && kept[k] == ms[j];
      assert r[k] == ms[j].possession.value;
    }
  }

  datatype PossessionReport = PossessionReport(average: real, trend: Trend, recommendation: Option<string>)

  /** `_analyze_possession`: the mean recorded possession, a trend from the
      first five against the rest with a five-point margin, and a playmaking
      recommendation below 45. With nothing recorded: 50, stable, and no
      recommendation at all. */
  function AnalyzePossession(ms: seq<Match>): (r: PossessionReport)
    ensures |Possessions(ms)| == 0 ==> r == PossessionReport(50.0, Stable, None)
    ensures |Possessions(ms)| <= 5 ==> r.trend == Stable
    ensures r.trend != InsufficientData
    ensures |Possessions(ms)| > 0 ==> r.average == Mean(Possessions(ms))
    ensures |Possessions(ms)| > 5 ==>
      var first, rest := Mean(Possessions(ms)[..5]), Mean(Possessions(ms)[5..]);
      (r.trend == Improving <==> first > rest + 5.0) && (r.trend == Declining <==> first < rest - 5.0)
    ensures r.recommendation.None? <==> |Possessions(ms)| == 0
    ensures r.recommendation == Some("Train playmaking") <==> |Possessions(ms)| > 0 && r.average < 45.0
    ensures r.recommendation == Some("Maintain") <==> |Possessions(ms)| > 0 && r.average >= 45.0
  {
    var ps := Possessions(ms);
    if |ps| == 0 then PossessionReport(50.0, Stable, None)
    else
      var avg := Mean(ps);
      // `min(5, n)` is the length of the first five and, past five,
      // `max(1, n - 5)` is the length of the rest.
      var recentAvg := Mean(Take(ps, 5));
      var olderAvg := if |ps| > 5 then Mean(ps[5..]) else avg;
      assert |ps| <= 5 ==> Take(ps, 5) == ps;
      assert |ps| > 5 ==> Take(ps, 5) == ps[..5];
      var trend :=
        if recentAvg > olderAvg + 5.0 then Improving
        else if recentAvg < olderAvg - 5.0 then Declining
        else Stable;
      PossessionReport(avg, trend, Some(if avg < 45.0 then "Train playmaking" else "Maintain"))
  }

  /** A team whose every recorded possession is the same value shows no
      possession trend, and that value is the average. */
  lemma SteadyPossessionIsStable(ms: seq<Match>, c: real)
    requires forall j :: 0 <= j < |ms| && HasPossession(ms[j]) ==> ms[j].possession.value == c
    ensures AnalyzePossession(ms).trend == Stable
    ensures |Possessions(ms)| > 0 ==> AnalyzePossession(ms).average == c
  {
    var ps := Possessions(ms);
    PossessionsMembers(ms);
    if |ps| > 0 {
      assert forall i :: 0 <= i < |ps| ==> ps[i] == c;
      MeanWithin(ps, c, c);
      MeanWithin(Take(ps, 5), c, c);
      if |ps| > 5 {
        MeanWithin(ps[5..], c, c);
      }
    }
  }

  // ----- attack -----

  /** `if m.get("chances")`: present and non-zero. */
  predicate HasChances(m: Match) {
    m.chances.Some? && m.chances.value != 0
  }

  /** The recorded, non-zero chance counts, in match order. */
  function Chances(ms: seq<Match>): (r: seq<int>)
    ensures |r| == |Filter(ms, HasChances)|
    ensures forall i :: 0 <= i < |r| ==> Filter(ms, HasChances)[i].chances == Some(r[i])
    ensures forall i :: 0 <= i < |r| ==> r[i] != 0
  {
    var kept := Filter(ms, HasChances);
    FilterMembers(ms, HasChances);
    seq(|kept|, i requires 0 <= i < |kept| => kept[i].chances.value)
  }

  /** Every recorded chance count is listed, and nothing else is. */
  lemma ChancesMembers(ms: seq<Match>)
    ensures forall j :: 0 <= j < |ms| && HasChances(ms[j]) ==> ms[j].chances.value in Chances(ms)
    ensures forall i :: 0 <= i < |Chances(ms)| ==>
      exists j :: 0 <= j < |ms| && HasChances(ms[j]) && ms[j].chances.value == Chances(ms)[i]
  {
    var kept, r := Filter(ms, HasChances), Chances(ms);
    FilterMembers(ms, HasChances);
    forall i | 0 <= i < |r|
      ensures exists j :: 0 <= j < |ms| && HasChances(ms[j]) && ms[j].chances.value == r[i]
    {
      var j :| 0 <= j < |ms| && ms[j] == kept[i];
    }
    forall j | 0 <= j < |ms| && HasChances(ms[j])
      ensures ms[j].chances.value in r
    {
      var k :| 0 <= k < |kept| && kept[k] == ms[j];
      assert r[k] == ms[j].chances.value;
    }
  }

  /** Goals scored in every match, read results included. */
  function Goals(ms: seq<Match>): (r: seq<int>)
    ensures |r| == |ms|
    ensures forall i :: 0 <= i < |ms| ==> r[i] == GoalsScored(ms[i].result) && r[i] >= 0
  {
    seq(|ms|, i requires 0 <= i < |ms| => GoalsScored(ms[i].result))
  }

  /** `_calculate_conversion_rate`: goals per hundred chances, 0 when there
      are no chances or they sum to 0. */
  function ConversionRate(chances: seq<int>, goals: seq<int>): (r: real)
    ensures |chances| == 0 || SumInt(chances) == 0 ==> r == 0.0
    ensures |chances| > 0 && SumInt(chances) != 0 ==>
      r * SumInt(chances) as real == 100.0 * SumInt(goals) as real
  {
    if |chances| == 0 || SumInt(chances) == 0 then 0.0
    else SumInt(goals) as real / SumInt(chances) as real * 100.0
  }

  datatype AttackReport = AttackReport(averageChances: real, averageGoals: real, conversionRate: real)

  function IntMean(xs: seq<int>): (r: real)
    requires |xs| > 0
    ensures r * |xs| as real == SumInt(xs) as real
    ensures r < 1.0 <==> SumInt(xs) < |xs|
  {
    QuotientBelowOne(SumInt(xs) as real, |xs| as real);
    SumInt(xs) as real / |xs| as real
  }

  lemma QuotientBelowOne(s: real, n: real)
    requires n > 0.0
    ensures (s / n) * n == s
    ensures s / n < 1.0 <==> s < n
  {
    var q := s / n;
    assert q * n == s;
    if q < 1.0 {
      assert q * n < 1.0 * n;
    } else {
      assert q * n >= 1.0 * n;
    }
  }

  /** `avg` is the mean of `xs`, with 0 standing for the mean of nothing. */
  predicate IsMeanOf(avg: real, xs: seq<int>) {
    if |xs| == 0 then avg == 0.0 else avg * |xs| as real == SumInt(xs) as real
  }

  /** The mean of a list of counts, 0 for an empty list. */
  function IntAverage(xs: seq<int>): (r: real)
    ensures IsMeanOf(r, xs)
    ensures |xs| > 0 ==> (r < 1.0 <==> SumInt(xs) < |xs|)
  {
    if |xs| > 0 then IntMean(xs) else 0.0
  }

  /** `_analyze_attack`: mean recorded chances, mean goals over every match,
      and the conversion of the recorded chances into those goals. */
  function AnalyzeAttack(ms: seq<Match>): (r: AttackReport)
    ensures IsMeanOf(r.averageChances, Chances(ms))
    ensures IsMeanOf(r.averageGoals, Goals(ms))
    ensures |Chances(ms)| == 0 ==> r.conversionRate == 0.0
    ensures r.conversionRate == ConversionRate(Chances(ms), Goals(ms))
  {
    var chances := Chances(ms);
    var goals := Goals(ms);
    AttackReport(IntAverage(chances), IntAverage(goals), ConversionRate(chances, goals))
  }

  /** Goals count from every match but chances only from matches that
      record them, so the conversion rate can exceed 100: 2 goals from 4
      chances plus 3 goals with no chances recorded make 125. */
  lemma ConversionCanExceedHundred()
    ensures var ms := [Match("2-0", None, Some(4)), Match("3-0", None, None)];
      ConversionRate(Chances(ms), Goals(ms)) == 125.0
  {
    var ms := [Match("2-0", None, Some(4)), Match("3-0", None, None)];
    ScoreRoundTrip(Score(2, 0));
    ScoreRoundTrip(Score(3, 0));
    assert FormatScore(Score(2, 0)) == "2-0";
    assert FormatScore(Score(3, 0)) == "3-0";
    assert Filter(ms, HasChances) == [ms[0]] by {
      assert ms[1..] == [ms[1]];
      assert Filter(ms[1..], HasChances) == [];
    }
    assert Chances(ms) == [4];
    assert Goals(ms) == [2, 3];
  }

  // ----- defence -----

  datatype Strength = Strong | Weak {
    function Label(): string {
      match this
      case Strong => "Strong"
      case Weak => "Weak"
    }
  }

  /** Goals conceded in every match. */
  function Conceded(ms: seq<Match>): (r: seq<int>)
    ensures |r| == |ms|
    ensures forall i :: 0 <= i < |ms| ==> r[i] == GoalsConceded(ms[i].result) && r[i] >= 0
  {
    seq(|ms|, i requires 0 <= i < |ms| => GoalsConceded(ms[i].result))
  }

  /** A match whose result yields 0 goals conceded. */
  predicate CleanSheet(m: Match) {
    GoalsConceded(m.result) == 0
  }

  datatype DefenceReport = DefenceReport(goalsConcededAvg: real, cleanSheets: nat, strength: Strength)

  /** `_analyze_defense`: mean goals conceded, clean sheets, and "Strong"
      below one goal a match. The strength divides by the number of matches
      without a guard, so no matches is a division by zero. */
  function AnalyzeDefense(ms: seq<Match>): (r: Result<DefenceReport>)
    ensures r.Err? <==> |ms| == 0
    ensures r.Ok? ==> r.value.cleanSheets == Count(ms, CleanSheet)
    ensures r.Ok? ==> IsMeanOf(r.value.goalsConcededAvg, Conceded(ms))
    ensures r.Ok? ==> (r.value.strength == Strong <==> SumInt(Conceded(ms)) < |ms|)
  {
    var conceded := Conceded(ms);
    if |conceded| == 0 then Err(ZeroDivision)
    else
      var avg := IntAverage(conceded);
      CleanSheetsCounted(ms);
      Ok(DefenceReport(avg, Count(ms, CleanSheet), if avg < 1.0 then Strong else Weak))
  }

  /** Counting clean-sheet matches is counting zero entries of the conceded
      list, which is what the source counts. */
  lemma {:induction false} CleanSheetsCounted(ms: seq<Match>)
    ensures Count(ms, CleanSheet) == Count(Conceded(ms), IsZero)
  {
    if |ms| > 0 {
      CleanSheetsCounted(ms[1..]);
      assert Conceded(ms)[1..] == Conceded(ms[1..]);
    }
  }

  predicate IsZero(n: int) { n == 0 }

  /** A result that does not split into two parts counts as a clean sheet;
      "x-2", also unreadable as a score, does not. */
  lemma MalformedCountsAsCleanSheet(m: Match)
    requires |Split(m.result, '-')| != 2
    ensures CleanSheet(m)
    ensures !CleanSheet(Match("x-2", m.possession, m.chances))
  {
    OneSidedResults();
  }

  lemma {:induction false} AllZeroSum(ms: seq<Match>)
    requires Count(ms, CleanSheet) == |ms|
    ensures SumInt(Conceded(ms)) == 0
  {
    if |ms| > 0 {
      assert Conceded(ms)[1..] == Conceded(ms[1..]);
      AllZeroSum(ms[1..]);
    }
  }

  /** Keeping a clean sheet in every match makes the defence strong. */
  lemma AllCleanSheetsIsStrong(ms: seq<Match>)
    requires |ms| > 0 && Count(ms, CleanSheet) == |ms|
    ensures AnalyzeDefense(ms).Ok? && AnalyzeDefense(ms).value.strength == Strong
    ensures AnalyzeDefense(ms).value.cleanSheets == |ms|
  {
    AllZeroSum(ms);
  }
}
