# Scouty heuristics in Dafny

Scouty is a Hattrick squad-analysis tool. This project models its pure scoring and decision logic as immutable datatypes and pure functions over sequences, and proves properties about them:

- the `Player` record with its best-position, cost-benefit and potential heuristics;
- the per-player insight and Sell/Train/Keep decision table;
- the team snapshot: aggregates, position histogram, strength and weakness flags, tactical advice and the top-by-TSI lineup;
- the training projection: skill-up arithmetic, value increase, training-type ROI comparison and the "near skill-up" filter;
- the junior squad: potential score, recommendation bands, promotion value, promotion candidates, training simulation and formation comparison;
- the match analyzer: "home-away" result parsing, points, recent form, form trend, and the possession, attack and defence sub-analyses.

Python floats are modelled as exact `real`s and integers as unbounded `int`s. Python's `None` is `Option.None`. An exception the code does not catch is a `Result.Err`.

One module per source file, plus two shared modules:

- `Common`: Option/Result, Python slicing `s[:n]` (`Take`), list comprehension with a filter (`Filter`), `Count`, sums, `int()` truncation, and `max` keeping the first maximum (`ArgMaxFirst`).
- `Sorting`: a stable insertion sort, used as the model of `sorted`/`list.sort` with a numeric key.

## Model

| member | source | states |
|---|---|---|
| Common.Take | scouty/modules/junior_squad.py:47 | `s[:n]` is a prefix of `s`; its length is `min(n, len)` for `n >= 0`, and drops `-n` elements from the end for negative `n` |
| Common.Filter | scouty/modules/junior_squad.py:42-45 | a comprehension with a condition never yields more elements than it reads |
| Common.FilterMembers | scouty/modules/junior_squad.py:42-45 | every element kept is an input element satisfying the condition, and every input element satisfying it is kept |
| Common.FilterSubMultiset | scouty/modules/junior_squad.py:42-45 | the kept elements, with multiplicity, are a sub-multiset of the input |
| Common.FilterAppendOne | scouty/modules/junior_squad.py:160-162 | filtering a list with one more element adds that element exactly when it is kept |
| Common.FilterCons | scouty/modules/junior_squad.py:42-45 | filtering a list with one more element in front puts that element first exactly when it is kept, followed by the filtered rest |
| Common.FilterSameCondition | scouty/modules/team_snapshot.py:128-131 | two conditions that agree on every element of a list keep the same elements in the same order |
| Common.FilterCommute | scouty/modules/junior_squad.py:35-45 | filtering by one condition and then another gives the same list as the other way round |
| Common.FilterOfPrefix | scouty/modules/team_snapshot.py:144 | the elements kept from a prefix of a list are a prefix of the elements kept from the whole list |
| Common.PrefixTransitive | scouty/modules/team_snapshot.py:144 | a prefix of a prefix of a list is a prefix of that list |
| Common.Count | scouty/modules/match_analyzer.py:44-46 | `sum(1 for x in s if ...)` never exceeds the length |
| Common.CountIsFilterLength | scouty/modules/match_analyzer.py:44-46 | counting with a condition equals the length of the filtered list |
| Common.TruncToInt | scouty/modules/training_projection.py:93 | `int(x)` truncates toward zero: floor for non-negative and ceiling for negative values |
| Common.ArgMaxFirst | scouty/modules/junior_squad.py:89 | `max` over a non-empty list returns a maximum, and no earlier element attains it |
| Sorting.Insert | scouty/modules/junior_squad.py:35 | insertion adds exactly one element, which becomes the head unless the old head stays in front |
| Sorting.InsertPermutes | scouty/modules/junior_squad.py:35 | insertion adds exactly the new element to the multiset and loses nothing |
| Sorting.InsertAscending | scouty/modules/training_projection.py:79 | inserting into a list ordered by non-decreasing key keeps it ordered |
| Sorting.InsertKeepsClassOrder | scouty/modules/training_projection.py:79 | among elements with one key value, insertion puts the new element before the old ones and keeps their relative order |
| Sorting.SortAscending | scouty/modules/training_projection.py:79 | the result is a permutation of the input, ordered by non-decreasing key, and elements with equal keys keep their input order, as Python's stable `sorted` does |
| Sorting.SortDescending | scouty/modules/junior_squad.py:35 | with `reverse=True`, the result is a permutation ordered by non-increasing key, and elements with equal keys keep their input order |
| Sorting.FilterKeepsDescending | scouty/modules/junior_squad.py:42-45 | filtering a list that is ordered by non-increasing key keeps it ordered |
| Players.BestPosition | scouty/core/player.py:35-53 | goalkeeping above 10 always gives Goalkeeper; Forward, Central Defender and Inner Midfielder each hold exactly under their strict-comparison conditions; Wing Back is never chosen |
| Players.BestPositionHasTopSkill | scouty/core/player.py:41-53 | the outfield position chosen has a maximal skill among scoring, defending, playmaking and winger |
| Players.MissingSkillReadsAsZero | scouty/core/player.py:38-44 | a missing skill key gives the same best position as the key set to 0 |
| Players.Skill | scouty/core/player.py:38-44 | a skill present in the player's skills reads as its value; a missing one reads as 0 |
| Players.CostBenefit | scouty/core/player.py:55-59 | cost-benefit is 0 for an unpaid player; otherwise, multiplied by the salary, it gives the TSI |
| Players.EstimatePotential | scouty/core/player.py:61-68 | High holds exactly under 20, Medium exactly from 20 to 24, and Low from 25 |
| Players.PotentialNonIncreasingInAge | scouty/core/player.py:61-68 | an older player never has a higher potential tier |
| Players.ContainsAt | scouty/modules/team_snapshot.py:130 | a substring occurring at any offset satisfies Python's `in` |
| Players.NotContainsWithoutFirstChar | scouty/modules/team_snapshot.py:130-131 | a needle whose first character is absent from the label is not `in` it |
| Players.PositionGroups | scouty/modules/team_snapshot.py:128-131 | `"Defender" in label` holds only for Central Defender and `"Midfielder" in label` only for Inner Midfielder, so Wing Back and Winger belong to no group; Forward and Goalkeeper are label equalities |
| Players.CentralDefenderLabel | scouty/modules/team_snapshot.py:130 | "Defender" occurs in "Central Defender" and "Midfielder" does not |
| Players.InnerMidfielderLabel | scouty/modules/team_snapshot.py:131 | "Midfielder" occurs in "Inner Midfielder" and "Defender" does not |
| Players.OtherLabel | scouty/modules/team_snapshot.py:130-131 | no other position's display value contains "Defender" or "Midfielder" |
| Players.LabelInjective | scouty/core/player.py:10-17 | different positions have different display values |
| PlayerInsights.EstimateTrainingImpact | scouty/modules/player_insights.py:46-61 | the impact tier is the potential tier; "1-2 weeks", "2-4 weeks" and "4+ weeks" hold exactly for the age bands under 20, 20 to 24, and 25 or over |
| PlayerInsights.RecommendDecision | scouty/modules/player_insights.py:63-74 | over 30 with cost-benefit below 100 is always Sell; Train holds exactly when rule 1 does not fire and potential is High under 22; Sell holds exactly when rule 1 fires, or rule 4 fires after rules 2 and 3 fail |
| PlayerInsights.Decide | scouty/modules/player_insights.py:63-74 | with potential from age, the table amounts to: Train exactly under 20; Sell exactly from 25 with cost-benefit below 150; Keep exactly from 20 to 24, or from 25 with cost-benefit at least 150 |
| PlayerInsights.TrainIffUnderTwenty | scouty/modules/player_insights.py:67-68 | with potential from age, the decision is Train exactly for players under 20 |
| PlayerInsights.UnpaidSeniorIsSold | scouty/modules/player_insights.py:65-72 | an unpaid player aged 25 or more is sold |
| PlayerInsights.ValuablePrimeIsKept | scouty/modules/player_insights.py:69-70 | a player aged 22 to 30 with cost-benefit above 200 is kept |
| PlayerInsights.AnalyzePlayer | scouty/modules/player_insights.py:16-39 | the insight carries the player's id, name, age, TSI, salary and current position; its best position, cost-benefit, potential, training impact and recommendation are those of the player (so Train exactly under 20, Sell exactly from 25 below a cost-benefit of 150); best position is never Wing Back, and cost-benefit times a paid player's salary is the TSI |
| PlayerInsights.AnalyzeAll | scouty/modules/player_insights.py:42-44 | one insight per player, in input order, each with the input player's id |
| TeamSnapshot.AverageAge | scouty/modules/team_snapshot.py:31-35 | 0 for an empty squad; otherwise the mean, which times the squad size gives the sum of ages |
| TeamSnapshot.TotalSalary | scouty/modules/team_snapshot.py:37-39 | the total of non-negative salaries is non-negative |
| TeamSnapshot.TotalTsi | scouty/modules/team_snapshot.py:41-43 | the total of non-negative TSIs is non-negative |
| TeamSnapshot.TotalsAdditive | scouty/modules/team_snapshot.py:35-43 | the TSI, salary and age totals of two squads together are the sums of their totals |
| TeamSnapshot.LabelCount | scouty/modules/team_snapshot.py:45-51 | a label's count is positive exactly when some player has that position |
| TeamSnapshot.PositionHistogram | scouty/modules/team_snapshot.py:45-51 | the keys are exactly the labels present, and each count is the number of players with that label |
| TeamSnapshot.HistogramCounts | scouty/modules/team_snapshot.py:45-51 | the counting loop produces exactly the labels present as keys, each with the number of players holding that label |
| TeamSnapshot.HistogramCountsEveryPlayer | scouty/modules/team_snapshot.py:45-51 | the histogram's counts add up to the number of players |
| TeamSnapshot.TallyHistogram | scouty/modules/team_snapshot.py:45-51 | each player raises the counting loop's tally by one, so it ends at the squad size |
| TeamSnapshot.TallyBump | scouty/modules/team_snapshot.py:49 | incrementing one position's count increments the total by one |
| TeamSnapshot.NoGoalkeeperIffNoGoalkeeperLabel | scouty/modules/team_snapshot.py:45-51 | the histogram has no goalkeeper count exactly when no player is a Goalkeeper |
| TeamSnapshot.SkillHolders | scouty/modules/team_snapshot.py:91-104 | a skill has holders exactly when some player's skills contain that key |
| TeamSnapshot.AverageSkills | scouty/modules/team_snapshot.py:91-104 | the averaged skills are exactly the keys some player has |
| TeamSnapshot.AverageSkillIsMean | scouty/modules/team_snapshot.py:91-104 | each average times its holder count gives the skill total, so it is the mean over the players holding that skill |
| TeamSnapshot.AverageIgnoresPlayersWithoutSkill | scouty/modules/team_snapshot.py:95-102 | adding a player without a skill key does not change that skill's average |
| TeamSnapshot.FourFlags | scouty/modules/team_snapshot.py:53-89 | each of four distinct messages is listed exactly when its condition holds, nothing else is listed, and the list is empty exactly when no condition holds |
| TeamSnapshot.PrependFlag | scouty/modules/team_snapshot.py:53-89 | a message checked before all those already listed keeps the list in check order, without repeats |
| TeamSnapshot.FourFlagsInOrder | scouty/modules/team_snapshot.py:53-89 | the raised messages appear in the order their conditions are checked, each once |
| TeamSnapshot.Strengths | scouty/modules/team_snapshot.py:53-70 | each strength is listed exactly when its threshold (average above 12, or mean age below 24) holds; the list is never empty; "Balanced team" appears only alone, and exactly when no threshold holds; otherwise only the four strength messages appear, in check order, each once |
| TeamSnapshot.Weaknesses | scouty/modules/team_snapshot.py:72-89 | each skill weakness is listed exactly when its average is below 10; "Missing goalkeeper" is listed exactly when no player is a Goalkeeper; nothing else appears, and the messages come in check order, each once |
| TeamSnapshot.StrengthExcludesWeakness | scouty/modules/team_snapshot.py:60-84 | no skill is flagged both strong and weak |
| TeamSnapshot.EmptySquadFlags | scouty/modules/team_snapshot.py:53-89 | an empty squad is "young" and has every weakness, because missing skills average 0 |
| TeamSnapshot.TacticalRecommendations | scouty/modules/team_snapshot.py:106-121 | each advice line appears exactly when its weakness does, and the "well balanced" line exactly when there are no weaknesses; nothing else appears, in check order, each once |
| TeamSnapshot.Advice | scouty/modules/team_snapshot.py:106-121 | for any list of weaknesses, each advice line appears exactly when its weakness is listed, and the "well balanced" line exactly when the list is empty; nothing else appears, in check order, each once |
| TeamSnapshot.SortedPrefixIsTop | scouty/modules/team_snapshot.py:134-144 | a prefix of a TSI-descending permutation is drawn from the group, is ordered, and outranks every member left out |
| TeamSnapshot.TopByTsi | scouty/modules/team_snapshot.py:128-144 | the top-n of a group has size `min(n, group size)`, contains only group members, is TSI-descending, and no member left out has a higher TSI than one taken; among players of equal TSI, the ones taken are the earliest in squad order, in that order |
| TeamSnapshot.Names | scouty/modules/team_snapshot.py:141-143 | one name per player, in order |
| Players.GroupsArePositions | scouty/modules/team_snapshot.py:128-131 | the four lineup groups select exactly Goalkeeper, Central Defender, Inner Midfielder and Forward |
| TeamSnapshot.NamesFromGroup | scouty/modules/team_snapshot.py:141-143 | every name listed belongs to a squad player of the group's position |
| TeamSnapshot.GoalkeeperChoice | scouty/modules/team_snapshot.py:128-140 | with no Goalkeeper nobody is chosen; otherwise the one chosen is a Goalkeeper of the squad |
| TeamSnapshot.SuggestBestLineup | scouty/modules/team_snapshot.py:123-144 | the defenders, midfielders and forwards are the names of the TSI top 4, 4 and 2 of their groups (so at most that many, fewer only when the group is smaller, each a player of that position); "None" when there is no Goalkeeper, otherwise the name of the top Goalkeeper by TSI |
| TeamSnapshot.GenerateSnapshot | scouty/modules/team_snapshot.py:17-29 | the player count is the squad size; average age, totals, position histogram, strengths, weaknesses, advice and lineup are those of the squad; strengths are non-empty; a "Missing goalkeeper" weakness comes with a "None" goalkeeper, and otherwise the lineup names a Goalkeeper |
| TrainingProjection.CurrentTrainingSkill | scouty/modules/training_projection.py:109-121 | None for any training name outside the five; for one of the five, present exactly when the player has that skill key, with its value |
| TrainingProjection.EstimateValueIncrease | scouty/modules/training_projection.py:155-164 | 0 when the new skill equals the current one; for positive TSI, positive exactly for a gain and negative exactly for a loss |
| TrainingProjection.ValueIncreasePerPoint | scouty/modules/training_projection.py:161-164 | every extra skill point adds 1.5% of TSI |
| TrainingProjection.ProjectPlayerSkillUp | scouty/modules/training_projection.py:81-107 | with no current skill: no projection and value 0; under 20 with a skill: a ZeroDivisionError, as `int(0.5)` is 0; otherwise 1 week per point under 25 and 2 from 25, and the skill gain is weeks divided by that, rounded down |
| TrainingProjection.UnderTwentyProjectionFails | scouty/modules/training_projection.py:92-100 | a 19-year-old with the trained skill makes the projection raise |
| TrainingProjection.ProjectSkillUps | scouty/modules/training_projection.py:17-32 | fails with ZeroDivisionError exactly when some player under 20 has the trained skill; otherwise one entry per player, in squad order, carrying that player's id, name, current skill and the projected skill, weeks and value increase of that player's projection |
| TrainingProjection.SumValueIncrease | scouty/modules/training_projection.py:130-137 | the value increases summed for the ROI are all 0, because the current skill is passed as the new one |
| TrainingProjection.TrainingRoi | scouty/modules/training_projection.py:128-139 | the training ROI is 0 for every type and every squad |
| TrainingProjection.WeeksToSkillup | scouty/modules/training_projection.py:141-153 | 999 for nobody; otherwise 1, 2 or 4 exactly when the age sum is below 20 times the count, between 20 and 25 times it, or at least 25 times it |
| TrainingProjection.MeanBelow | scouty/modules/training_projection.py:146-151 | a mean is below a bound exactly when the sum is below the bound times the count |
| TrainingProjection.CompareTrainingTypes | scouty/modules/training_projection.py:34-56 | one report per training type, in order, each affecting the whole squad with ROI 0; the recommended type is always "playmaking" |
| TrainingProjection.SinglePlayerWeeks | scouty/modules/training_projection.py:67 | the weeks estimate for one player is 1, 2 or 4 by that player's age band |
| TrainingProjection.NearCandidates | scouty/modules/training_projection.py:62-77 | the candidates, in squad order, are the entries of exactly the players that pass the "at most 2 weeks" test |
| TrainingProjection.NearCandidatesMembers | scouty/modules/training_projection.py:62-77 | every player passing the test has an entry among the candidates, and every candidate is the entry of such a player |
| TrainingProjection.NearSkillupFacts | scouty/modules/training_projection.py:62-77 | the "at most 2 weeks" filter selects exactly the players with the skill who are under 25, and each entry kept has 1 or 2 weeks and no value increase |
| TrainingProjection.CandidatesByAge | scouty/modules/training_projection.py:62-77 | the candidates are exactly the entries of players who have the trained skill and are under 25 |
| TrainingProjection.SortedCandidates | scouty/modules/training_projection.py:77-79 | sorting the entries keeps exactly the candidates, each with 1 or 2 weeks and a value increase of 0 |
| TrainingProjection.FindPlayersNearSkillup | scouty/modules/training_projection.py:58-79 | contains exactly the players with the trained skill who are under 25; sorted by ascending weeks, entries with equal weeks keeping squad order; every entry's weeks are 1 or 2 and its value increase is 0 |
| JuniorSquad.MaxSkill | scouty/modules/junior_squad.py:106 | 0 with no skills; otherwise a skill value no other skill exceeds |
| JuniorSquad.AgeBonus | scouty/modules/junior_squad.py:99-105 | 30 under 17, 20 at 17, 10 at 18, and 0 from 19 |
| JuniorSquad.TsiBonus | scouty/modules/junior_squad.py:111-115 | 10 above 500 TSI and 10 more above 1000 |
| JuniorSquad.ScoreOf | scouty/modules/junior_squad.py:95-120 | the score never exceeds 100, and is non-negative when skill and form are |
| JuniorSquad.PotentialScore | scouty/modules/junior_squad.py:95-120 | a junior's score is at most 100, and at least 0 when form and all skills are non-negative |
| JuniorSquad.ScoreMonotone | scouty/modules/junior_squad.py:99-118 | the score never decreases with best skill, TSI or form, and never increases with age |
| JuniorSquad.SkillTermSaturates | scouty/modules/junior_squad.py:106-107 | skill beyond level 8 adds nothing |
| JuniorSquad.RecommendAction | scouty/modules/junior_squad.py:122-131 | four exclusive bands: at least 70, 50 to 70, 30 to 50, below 30 |
| JuniorSquad.RecommendationMonotone | scouty/modules/junior_squad.py:122-131 | a higher score never gets a weaker recommendation |
| JuniorSquad.PromotionMultiplier | scouty/modules/junior_squad.py:138-143 | 2.0 exactly above 70, 1.5 exactly for 50 < score <= 70, and 1.0 exactly at or below 50 |
| JuniorSquad.EstimatePromotionValue | scouty/modules/junior_squad.py:133-146 | the value is ten times TSI times the multiplier, so between 10 and 20 times a non-negative TSI |
| JuniorSquad.ScoreSeventyBandsDisagree | scouty/modules/junior_squad.py:122-141 | a junior scoring exactly 70 is "Promote and Train" but valued at the 1.5 multiplier |
| JuniorSquad.Report | scouty/modules/junior_squad.py:21-33 | a report carries the junior's id, name, age and skills, the junior's potential score, the recommendation for that score, the junior's best position and promotion value |
| JuniorSquad.Reports | scouty/modules/junior_squad.py:20-33 | one report per junior, in input order |
| JuniorSquad.AnalyzePotential | scouty/modules/junior_squad.py:16-35 | a permutation of the juniors' reports, ordered by non-increasing score, reports with equal scores keeping input order, each with the recommendation for its score |
| JuniorSquad.SortedReports | scouty/modules/junior_squad.py:35 | a score-descending permutation of reports is ranked and keeps each report's recommendation for its score |
| JuniorSquad.FilteredStaysRanked | scouty/modules/junior_squad.py:42-45 | keeping only promotion reports preserves the ranking |
| JuniorSquad.PromotableScoresFifty | scouty/modules/junior_squad.py:42-45 | every report kept as a promotion scores at least 50 |
| JuniorSquad.AnalysisFacts | scouty/modules/junior_squad.py:37-45 | the analysis is ranked, and so is its list of promotion candidates, which are all promotable |
| JuniorSquad.PromotionCandidates | scouty/modules/junior_squad.py:39-45 | exactly the "Promote" and "Promote and Train" reports of the analysis, as many as it has: all score at least 50 and stay ranked, every such report is among them, none comes from elsewhere, and candidates with equal scores keep the juniors' input order |
| JuniorSquad.TakeKeeps | scouty/modules/junior_squad.py:47 | a slice of the candidates is still promotable and ranked |
| JuniorSquad.RecommendPromotions | scouty/modules/junior_squad.py:37-47 | a prefix of the candidates with at most `max` entries (exactly `min(max, candidates)` for `max >= 0`, Python slicing for negative `max`), all promotable and ranked; among equal scores the juniors kept are the earliest in input order, in that order |
| JuniorSquad.ProjectJuniorSkill | scouty/modules/junior_squad.py:148-156 | the projected skill gains exactly two points per week |
| JuniorSquad.SimulateTrainingImpact | scouty/modules/junior_squad.py:49-69 | one projection per junior, in order, with the junior's id, name and current skill, the projected skill of that junior, and an improvement of 2 times weeks; the training type and weeks are echoed |
| JuniorSquad.ExtraJuniorKeepsFieldable | scouty/modules/junior_squad.py:181-191 | one more junior never makes a fieldable formation unfieldable, and a Wing Back or Winger changes no headcount |
| JuniorSquad.GroupCount | scouty/modules/junior_squad.py:183-185 | a group selected by a test equivalent to one position has as many members as the squad has players of that position |
| JuniorSquad.CanFieldFormation | scouty/modules/junior_squad.py:181-191 | a formation can be fielded exactly when the squad has at least its number of Central Defenders, Inner Midfielders and Forwards |
| JuniorSquad.DefendingTotalNonNegative | scouty/modules/junior_squad.py:175-176 | non-negative defending skills sum to a non-negative total |
| JuniorSquad.QualityBonus | scouty/modules/junior_squad.py:174-177 | the quality bonus is at most 10, and non-negative for non-negative defending |
| JuniorSquad.FormationSuitability | scouty/modules/junior_squad.py:158-179 | suitability is at most 100; at most 70 when the formation cannot be fielded, and at least 90 when it can be (for non-negative defending) |
| JuniorSquad.FieldableIffHighSuitability | scouty/modules/junior_squad.py:158-191 | for non-negative defending, a formation can be fielded exactly when its suitability is at least 90 |
| JuniorSquad.CompareFormations | scouty/modules/junior_squad.py:71-93 | the four formations are reported in order with their suitability and fieldability; the recommendation is the first formation with the highest suitability |
| MatchAnalyzer.Split | scouty/modules/match_analyzer.py:169 | `split("-")` yields at least one part, and no part contains the separator |
| MatchAnalyzer.SplitJoin | scouty/modules/match_analyzer.py:169 | joining the parts with the separator gives back the string |
| MatchAnalyzer.SplitWithoutSep | scouty/modules/match_analyzer.py:169 | a string without the separator is a single part |
| MatchAnalyzer.SplitPair | scouty/modules/match_analyzer.py:169 | two separator-free strings joined by one separator split back into those two |
| MatchAnalyzer.NatToDigits | scouty/modules/match_analyzer.py:170 | a number's decimal rendering is non-empty digits only |
| MatchAnalyzer.DigitsRoundTrip | scouty/modules/match_analyzer.py:170 | reading a rendered number with `int()` gives that number |
| MatchAnalyzer.Side | scouty/modules/match_analyzer.py:190-204 | a side reads exactly when the string splits into two parts and that side is digits only, and then its value is those digits' decimal value |
| MatchAnalyzer.IsWin | scouty/modules/match_analyzer.py:166-172 | a win exactly when the result reads as a score with more goals scored than conceded |
| MatchAnalyzer.IsDraw | scouty/modules/match_analyzer.py:174-180 | a draw exactly when the result reads as a score with equal goals |
| MatchAnalyzer.IsLoss | scouty/modules/match_analyzer.py:182-188 | a loss exactly when the result reads as a score with fewer goals scored than conceded |
| MatchAnalyzer.ParseScore | scouty/modules/match_analyzer.py:166-188 | a score reads exactly when both sides read, and it holds the two sides' values |
| MatchAnalyzer.ScoreRoundTrip | scouty/modules/match_analyzer.py:166-188 | every score, rendered as "home-away", reads back as that score |
| MatchAnalyzer.ResultExclusive | scouty/modules/match_analyzer.py:166-188 | at most one of win, draw and loss holds, and one holds exactly when the string reads as a score |
| MatchAnalyzer.FormattedOutcome | scouty/modules/match_analyzer.py:166-188 | on a rendered score, win, draw and loss are the comparisons of the goals |
| MatchAnalyzer.GoalsScored | scouty/modules/match_analyzer.py:190-196 | the home side when it reads, 0 otherwise |
| MatchAnalyzer.GoalsConceded | scouty/modules/match_analyzer.py:198-204 | the away side when it reads, 0 otherwise |
| MatchAnalyzer.OutcomeFromGoals | scouty/modules/match_analyzer.py:166-204 | for a well-formed result, win, draw and loss are exactly more, equal and fewer goals scored than conceded |
| MatchAnalyzer.MalformedResult | scouty/modules/match_analyzer.py:166-204 | a string that does not split into two parts is no win, draw or loss, and has 0 goals both ways |
| MatchAnalyzer.OneSidedResults | scouty/modules/match_analyzer.py:190-204 | "3-x" scores 3 yet is no outcome, and "x-2" concedes 2: each goal count reads only its own side |
| MatchAnalyzer.MatchPoints | scouty/modules/match_analyzer.py:233-240 | 3 exactly for a win, 1 exactly for a draw, and 0 for anything else, malformed strings included |
| MatchAnalyzer.Points | scouty/modules/match_analyzer.py:217-218 | one points value per match, in order |
| MatchAnalyzer.MeanTimesCount | scouty/modules/match_analyzer.py:223-224 | the mean of a non-empty list times its length is its sum |
| MatchAnalyzer.Percent | scouty/modules/match_analyzer.py:56 | `k / n * 100` is 0 for `n = 0`, and in [0, 100] when `k <= n` |
| MatchAnalyzer.SumWithin | scouty/modules/match_analyzer.py:223-224 | a sum of bounded entries is bounded by the count times the bounds |
| MatchAnalyzer.MeanWithin | scouty/modules/match_analyzer.py:223-224 | a mean lies within any bounds its entries lie within |
| MatchAnalyzer.FormTrend | scouty/modules/match_analyzer.py:212-231 | "insufficient_data" exactly below 2 matches; "stable" for 2 or 3; "improving" and "declining" exactly when the first three average more than half a point above or below the next three |
| MatchAnalyzer.FirstSixDecideTrend | scouty/modules/match_analyzer.py:217-218 | matches after the sixth never change the trend |
| MatchAnalyzer.PointsWithin | scouty/modules/match_analyzer.py:217-224 | average points lie between 0 and 3 |
| MatchAnalyzer.StartDecidesDirection | scouty/modules/match_analyzer.py:223-231 | three opening wins never read as declining, and three opening matches with no points never read as improving |
| MatchAnalyzer.CountExclusive | scouty/modules/match_analyzer.py:44-46 | three conditions that never hold together count no element twice |
| MatchAnalyzer.OutcomesCountedOnce | scouty/modules/match_analyzer.py:44-46 | wins, draws and losses together never exceed the number of matches |
| MatchAnalyzer.AveragePossession | scouty/modules/match_analyzer.py:48 | 50 for no matches; otherwise the mean with an absent possession read as 50 |
| MatchAnalyzer.AverageChances | scouty/modules/match_analyzer.py:49 | 0 for no matches; otherwise the mean with absent chances read as 0 |
| MatchAnalyzer.AveragePossessionWithin | scouty/modules/match_analyzer.py:48 | percentages of possession average to a percentage |
| MatchAnalyzer.RecentMatches | scouty/modules/match_analyzer.py:42 | the recent matches are a prefix of length `min(last_n, len)` for `last_n >= 0` |
| MatchAnalyzer.TallyOutcomes | scouty/modules/match_analyzer.py:44-46 | win, draw and loss counts, which together never exceed the number of matches |
| MatchAnalyzer.FormOf | scouty/modules/match_analyzer.py:44-59 | the counts never exceed the matches analysed; the win rate is wins as a percentage of matches (0 for none) and lies in [0, 100]; the trend is the form trend of those matches |
| MatchAnalyzer.AnalyzeRecentForm | scouty/modules/match_analyzer.py:40-60 | analyses `min(last_n, len)` matches (for `last_n >= 0`), which are the first ones |
| MatchAnalyzer.Possessions | scouty/modules/match_analyzer.py:86 | the possessions are read, in match order, from exactly the matches with a non-zero recorded possession, and none is 0 |
| MatchAnalyzer.PossessionsMembers | scouty/modules/match_analyzer.py:86 | every non-zero recorded possession is listed, and every listed value is some match's recorded possession |
| MatchAnalyzer.AnalyzePossession | scouty/modules/match_analyzer.py:84-108 | with none recorded: average 50, "stable" and no recommendation; otherwise the average is the mean of the recorded possessions; with at most 5: "stable"; with more: "improving" exactly when the first five average more than 5 above the rest and "declining" exactly when more than 5 below; "Train playmaking" exactly below 45 and "Maintain" otherwise |
| MatchAnalyzer.SteadyPossessionIsStable | scouty/modules/match_analyzer.py:91-102 | a constant recorded possession is the average and gives a "stable" trend |
| MatchAnalyzer.Chances | scouty/modules/match_analyzer.py:112 | the chance counts are read, in match order, from exactly the matches with non-zero recorded chances, and none is 0 |
| MatchAnalyzer.ChancesMembers | scouty/modules/match_analyzer.py:112 | every non-zero recorded chance count is listed, and every listed value is some match's recorded chances |
| MatchAnalyzer.Goals | scouty/modules/match_analyzer.py:113 | goals scored for every match, each non-negative |
| MatchAnalyzer.ConversionRate | scouty/modules/match_analyzer.py:206-210 | 0 with no chances or a zero chance sum; otherwise, times the chance sum, it gives 100 times the goal sum |
| MatchAnalyzer.IntMean | scouty/modules/match_analyzer.py:116-117 | the mean times the count is the sum, and it is below 1 exactly when the sum is below the count |
| MatchAnalyzer.QuotientBelowOne | scouty/modules/match_analyzer.py:128 | for a positive count, the quotient times the count gives back the total, and the quotient is below 1 exactly when the total is below the count |
| MatchAnalyzer.IntAverage | scouty/modules/match_analyzer.py:116-117 | the mean of a list of counts, 0 for an empty list, and below 1 exactly when the sum is below the length |
| MatchAnalyzer.AnalyzeAttack | scouty/modules/match_analyzer.py:110-119 | the averages are the means of recorded chances and of goals over every match; the conversion rate is 0 without recorded chances |
| MatchAnalyzer.ConversionCanExceedHundred | scouty/modules/match_analyzer.py:112-118 | goals without recorded chances still count, so 2 goals from 4 chances plus 3 more goals make a rate of 125 |
| MatchAnalyzer.Conceded | scouty/modules/match_analyzer.py:123 | goals conceded for every match, each non-negative |
| MatchAnalyzer.AnalyzeDefense | scouty/modules/match_analyzer.py:121-129 | a ZeroDivisionError exactly when there are no matches; otherwise clean sheets count the matches with nothing conceded, the average is the mean of goals conceded, and "Strong" holds exactly when fewer goals are conceded than matches played |
| MatchAnalyzer.CleanSheetsCounted | scouty/modules/match_analyzer.py:127 | clean sheets counted per match equal the zero entries of the conceded list |
| MatchAnalyzer.MalformedCountsAsCleanSheet | scouty/modules/match_analyzer.py:198-204 | a result that does not split into two parts is a clean sheet, while "x-2" is not |
| MatchAnalyzer.AllZeroSum | scouty/modules/match_analyzer.py:126-128 | all clean sheets means nothing conceded in total |
| MatchAnalyzer.AllCleanSheetsIsStrong | scouty/modules/match_analyzer.py:121-129 | a clean sheet in every match gives a "Strong" defence with a clean sheet per match |

## Left out

- scouty/cli/main.py and scouty/core/parser.py: argument handling, file reading, CSV/JSON decoding and output are I/O and are not part of this model. Players and matches are taken as already-decoded values, with no range checks, as the loader applies none.
- `round(..., 1)` and `round(..., 2)` on reported averages, rates and a player's cost-benefit: presentation only. Averages and ratios are exact `real`s, not IEEE floats.
- The f-string "reason" of `compare_training_types` is presentation text and is left out.
- Python dictionaries' insertion order and key names of the output dicts: reports are datatypes with named fields. Sequence order is modelled where the code sorts or iterates.
- `extract_patterns`, `suggest_tactical_changes`, `_generate_tactical_recommendations` and `_identify_weak_points` (match_analyzer.py:27-38, 62-82, 131-164) are left out. They call each other without end on non-empty input, and on empty input `suggest_tactical_changes` compares `None < 45`. The three sub-analyses they combine are modelled on their own.
- MatchAnalyzer.Side: reads each side of a result with an ASCII-digits-only grammar of any length. Python's `int()` also accepts surrounding whitespace, a leading `+`, digit-group underscores and any Unicode decimal digit (such as "٣-١"), which this model rejects. On CPython 3.11 and later, and on the 3.8 to 3.10 security releases that setup.py admits, `int()` also rejects a string of more than 4300 digits, which this model reads.
- MatchAnalyzer.Match: the date, opponent, tactics and formation fields are never read by the modelled code and are not part of the record. A JSON `null` for possession or chances is not modelled: `None` stands only for an absent key. A null would make only `analyze_recent_form` raise (match_analyzer.py:48-49), where `get` returns the null and the sum fails; `_analyze_possession` (match_analyzer.py:86) and `_analyze_attack` (match_analyzer.py:112) skip it through their truthiness test, as they skip a 0. A null result string behaves like any malformed string.
- JuniorSquad.ProjectJuniorSkill: `int(weeks / 0.5)` is computed exactly. In IEEE arithmetic the division by 0.5 is also exact for integer weeks in range, so nothing is lost.
- TeamSnapshot.SuggestBestLineup: the source's goalkeeper is "None" exactly when there is no goalkeeper only if no goalkeeper is literally named "None". The contract therefore states the two implications, not an if-and-only-if.
- TrainingProjection.ProjectPlayerSkillUp: the under-20 division by zero is modelled as an error result. The Python exception would also abort `project_skill_ups`, and ProjectSkillUps does the same.
- MatchAnalyzer.AnalyzeDefense: `_analyze_defense` guards its average against an empty list but divides by the length again for the strength (match_analyzer.py:128), so an empty match list raises. The model returns an error there.
- Goals scored and conceded read one side each: "3-x" scores 3 although it is no outcome. Only a string that does not split into exactly two parts, or whose away side does not read, counts as a clean sheet.
