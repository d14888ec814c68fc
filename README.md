# Retirement projection engine and store derivations, in Dafny

This project models the core of a retirement-planning web app.

**The compound-growth projection engine** (`src/composeables/useProjections.ts`) has two parts:

- The **stage projector** runs a yearly loop over one stage. Each year it escalates the annual flow, adds it to the balance, applies growth, and emits one record holding the start balance, end balance, flow and growth.
- The **assembler** chains the stages: each stage is entered with the end balance of the stage before. It concatenates their records into the `raw` run. It then derives the `inflation-adjusted` run by dividing the four figures of the record at position `i` by `1 + i * inflation / 100`.

**The pure derivations of the Pinia store** (`src/stores/useRetirementStore.ts`) cover:

- the split of the retirement years into the Go-Go, Slow-Go and No-Go phases;
- income at retirement and the monthly contributions and withdrawals;
- the fixed four-stage plan handed to the engine;
- the graph series, the per-stage summaries and the average monthly withdrawal read back from the engine's output;
- the watch that drops a phase-boundary override once it is out of range.

Files:

- `wrappers.dfy`: the `Option` type, used for the nullable slots of a `FullProjection` and for the optional override.
- `projections.dfy` (module `Projections`): the engine.
  - `GenerateGenericGrowthProjection` and `PrepareGrowthProjection` are methods with the source's loops.
  - Each is proved equal to a recursive specification function: `GrowthProjection` and `Assemble`.
  - Their properties are lemmas about those functions:
    - a per-record law (closed form for the flow, a year-to-year recurrence for the balances), which characterises the projector's output exactly;
    - the record counts;
    - how the stages chain;
    - what deflation does.
- `retirement_store.dfy` (module `RetirementStore`): every `computed` is a function of a `Params` record holding the store's refs.
  - The boundary setter and the watch are functions from one `Params` to the next.
  - Lemmas connect the summaries back to the engine, by way of the stage segments of the raw run.

Numbers are `real`. The engine never rounds, so exact arithmetic is the meaning of its floating-point code. Ages and year counts are `int`. The loop `for (year = 1; year <= years; year++)` runs `YearCount(years) = max(0, years)` times.

Three behaviours of the engine shape the model:

- **Year numbering restarts in every stage.** The loop counter `year` is local to each call of `generateGenericGrowthProjection` (src/composeables/useProjections.ts:63, 79), so every stage numbers its records from 1 (`StageRecord`).
- **An empty stage hands on a balance of 0.** `getEndBalance` of an empty projection is 0 (src/composeables/useProjections.ts:38-42), and `prepareGrowthProjection` chains each stage from that value (src/composeables/useProjections.ts:114). A stage with `years <= 0` therefore starts the next stage at 0 (`EmptyStageResetsBalance`, `ChainedStart`).
- **Deflation is linear and post-hoc.** The only inflation adjustment copies the record at index `i` and divides its four figures (start and end balance, flow, growth) by `1 + i * annualInflation / 100` (src/composeables/useProjections.ts:119-129).

## Model

| member | source | states |
|---|---|---|
| Projections.YearCount | src/composeables/useProjections.ts:63 | the yearly loop runs `years` times when `years` is positive and never otherwise |
| Projections.ProjectYears | src/composeables/useProjections.ts:63-86 | the yearly recurrence from a given year, balance and flow yields exactly `n` records |
| Projections.ProjectYearsHead | src/composeables/useProjections.ts:63-86 | the first record is one pass of the loop body, and the rest is the loop continued from that record's end balance and flow |
| Projections.NextYearBalances | src/composeables/useProjections.ts:68-84 | one pass escalates the flow once, sets end = (start + flow) * (1 + rate/100) and growth = end - start - flow |
| Projections.ProjectYearsAt | src/composeables/useProjections.ts:63-86 | record k is numbered year + k and carries the stage name and consistent balances; the first starts from the entry balance; each next one starts from the previous end balance with its flow escalated once more |
| Projections.EscalatedFlows | src/composeables/useProjections.ts:61-68 | in any chain of yearly escalations by q from `flow`, record k holds flow * q^(k+1) |
| Projections.ProjectYearsEscalate | src/composeables/useProjections.ts:61-68 | the projector's records form such a chain of escalations |
| Projections.ProjectYearsFlow | src/composeables/useProjections.ts:61-68 | record k's flow is the entry flow escalated k + 1 times, so escalation already applies in year 1 |
| Projections.LawFixesStartBalance | src/composeables/useProjections.ts:55-76 | two runs obeying the per-record law agree on every start balance |
| Projections.GrowthProjectionObeysLaw | src/composeables/useProjections.ts:53-88 | the projector's output obeys the law: max(0, years) records, years 1..n in order, the stage name on each, flow monthly*12*(1+increase/100)^k, the balance recurrence, year 1 starting at currentBalance, each later year starting at the previous end balance |
| Projections.LawDeterminesProjection | src/composeables/useProjections.ts:53-88 | any run obeying that law is the projector's output |
| Projections.GrowthProjectionCharacterized | src/composeables/useProjections.ts:44-89 | a run obeys the law if and only if it is the projector's output |
| Projections.GenerateGenericGrowthProjection | src/composeables/useProjections.ts:44-89 | the loop returns exactly the specified projection, which obeys the law |
| Projections.WorkedExample | src/composeables/useProjections.ts:55-85 | start 1000, growth 10%, 100 a month, no escalation: year 1 ends at 2420 and year 2 at 3982, with growth 220 and 362 |
| Projections.PowOne | src/composeables/useProjections.ts:68 | an escalation factor of 1 leaves the flow unchanged after any number of years |
| Projections.WithdrawalDepletes | src/composeables/useProjections.ts:68-74 | a withdrawal with no growth and no escalation lowers the balance strictly every year |
| Projections.RawPrefixLength | src/composeables/useProjections.ts:103-115 | the first k stages contribute the sum of their year counts in records |
| Projections.RawLength | src/composeables/useProjections.ts:101-117 | `raw` holds one record per year of every stage, and is empty but set for an empty stage list |
| Projections.RawPrefixExtends | src/composeables/useProjections.ts:113 | each pass only appends: a longer prefix of the chain starts with a shorter one |
| Projections.StageSegment | src/composeables/useProjections.ts:103-115 | `raw` is the concatenation in stage order: stage k's projection sits at positions Offset(k) to Offset(k+1) |
| Projections.StageRecord | src/composeables/useProjections.ts:103-115 | record j of stage k in `raw` is numbered j + 1, restarting in every stage, and carries stage k's name |
| Projections.FirstStageStart | src/composeables/useProjections.ts:101-106 | the first stage starts from the run's starting balance |
| Projections.ChainedStart | src/composeables/useProjections.ts:101-115 | a later stage starts from the last end balance of the stage before, or from 0 when that stage produced no records |
| Projections.EmptyStageResetsBalance | src/composeables/useProjections.ts:38-42 | a stage with years <= 0 hands the next stage a balance of 0, not its own entry balance |
| Projections.Deflate | src/composeables/useProjections.ts:119-129 | the adjusted run has the raw run's length, year and stage at every position |
| Projections.NonnegativeInflationIsSafe | src/composeables/useProjections.ts:120 | with inflation >= 0 no deflation factor is zero |
| Projections.InflatedDeflated | src/composeables/useProjections.ts:122-128 | multiplying a deflated record's four figures back by the factor restores the record |
| Projections.ReinflateDeflate | src/composeables/useProjections.ts:119-129 | inflation-adjusted[i] is raw[i] with each figure divided by 1 + i*inflation/100: multiplying back recovers `raw` exactly |
| Projections.DeflateFirstUnchanged | src/composeables/useProjections.ts:120 | the first adjusted record equals the first raw record, since its factor is 1 |
| Projections.DividedShrinks | src/composeables/useProjections.ts:124-127 | dividing a nonzero figure by a factor above 1 strictly lowers its magnitude |
| Projections.DeflateShrinks | src/composeables/useProjections.ts:119-129 | with inflation > 0 every nonzero figure after the first record is strictly smaller in magnitude once adjusted |
| Projections.AssembleShape | src/composeables/useProjections.ts:96-133 | both slots are set, have equal length (the total year count) and carry the same year and stage at every position |
| Projections.PrepareGrowthProjection | src/composeables/useProjections.ts:91-134 | the forEach chain and the map return exactly the specified full projection |
| RetirementStore.SetRetirementBoundaries | src/stores/useRetirementStore.ts:57-59 | after the setter the getter returns the new value, and nothing else changes |
| RetirementStore.PhasesSumToRetirementSpan | src/stores/useRetirementStore.ts:38-74 | Go-Go + Slow-Go + No-Go equals lifeExpectancy - ageRetirement for any boundaries, including missing entries |
| RetirementStore.DefaultBoundaries | src/stores/useRetirementStore.ts:42-74 | without an override the boundaries are [R+F, R+2F] with F = floor(2*span/5); Go-Go and Slow-Go are F years; No-Go is the rest, at least a fifth of a nonnegative span |
| RetirementStore.OrderedBoundariesGiveNonnegativePhases | src/stores/useRetirementStore.ts:62-74 | boundaries ordered within [ageRetirement, lifeExpectancy] give no negative phase |
| RetirementStore.WatchRetirementAges | src/stores/useRetirementStore.ts:330-347 | only the override can change; it is cleared exactly when set and its first boundary (0 if missing) is below ageRetirement or its second (0 if missing) is above lifeExpectancy; otherwise the state is unchanged |
| RetirementStore.WatchSettles | src/stores/useRetirementStore.ts:330-347 | after the watch any override left is in range, and a second run of the watch changes nothing |
| RetirementStore.FirstMonthlyContribution | src/stores/useRetirementStore.ts:90-92 | twelve first contributions are savingsRate percent of the annual income |
| RetirementStore.RaisesAreSimple | src/stores/useRetirementStore.ts:86-96 | income at retirement is annualIncome * (1 + years*raises/100), a simple raise: retiring one year later always adds the same amount |
| RetirementStore.MonthlyWithdrawal | src/stores/useRetirementStore.ts:98-121 | twelve withdrawals are minus `replacement` percent of the annual income at retirement, so a withdrawal is never positive for nonnegative inputs |
| RetirementStore.FutureStages | src/stores/useRetirementStore.ts:123-153 | exactly four distinctly named stages in the order Pre-retirement, Go-Go, Slow-Go, No-Go; only the first escalates (by annualRaises) and the others use 0 |
| RetirementStore.SelectedProjectionChoice | src/stores/useRetirementStore.ts:155-163 | the views read the deflated run exactly when inflationAdjChoice is set and the raw run otherwise, with one record per planned year |
| RetirementStore.PlanSpansLifetime | src/stores/useRetirementStore.ts:123-153 | with no negative phase, the plan has one year for every age from today to life expectancy |
| RetirementStore.Graph | src/stores/useRetirementStore.ts:162-171 | no data gives no points; otherwise one point per record, the i-th at age ageToday + i with the record's stage and end balance |
| RetirementStore.GraphCoversLifetime | src/stores/useRetirementStore.ts:162-171 | for a plan with no negative phase the graph covers ages ageToday to lifeExpectancy - 1 |
| RetirementStore.OfStage | src/stores/useRetirementStore.ts:193 | filtering by stage never lengthens the run |
| RetirementStore.OutsideStage | src/stores/useRetirementStore.ts:223 | dropping a stage never lengthens the run |
| RetirementStore.StageResults | src/stores/useRetirementStore.ts:192-199 | on the raw run, filtering by stage k's name and taking the last end balance, the flow total and the growth total gives the end balance and the two totals of the projection the engine computes for stage k alone |
| RetirementStore.PlanSummaries | src/stores/useRetirementStore.ts:173-215 | on the raw run, each of the twelve summaries is the end balance, flow total or growth total of its phase's own stage projection, for an empty run as well as a nonempty one |
| RetirementStore.OfStageAppend | src/stores/useRetirementStore.ts:193 | filtering distributes over concatenation |
| RetirementStore.OutsideStageAppend | src/stores/useRetirementStore.ts:223 | dropping a stage distributes over concatenation |
| RetirementStore.FilterUniform | src/stores/useRetirementStore.ts:193-223 | a run whose records all carry one tag is kept whole or dropped whole |
| RetirementStore.SumAppend | src/stores/useRetirementStore.ts:196-199 | the reduce-sum of a concatenation is the sum of the sums |
| RetirementStore.SumOfConstantFlow | src/stores/useRetirementStore.ts:196 | a run of equal flows sums to its length times the flow |
| RetirementStore.FinalBalanceIsLastTagged | src/stores/useRetirementStore.ts:192-193 | finalBalance is the end balance of the last record carrying the stage name |
| RetirementStore.FinalBalanceUntagged | src/stores/useRetirementStore.ts:192-193 | with no record carrying the name, the filter is empty and finalBalance is 0 |
| RetirementStore.StageProjectionFacts | src/composeables/useProjections.ts:63-86 | a stage's segment has one record per year, all tagged with its name; with no escalation its flows add up to years * 12 * monthly |
| RetirementStore.OfStageConcat | src/stores/useRetirementStore.ts:193 | filtering concatenated, distinctly tagged runs by one tag returns that run alone |
| RetirementStore.OutsideFirstIsLater | src/stores/useRetirementStore.ts:223 | dropping the first tag from concatenated, distinctly tagged runs leaves the later runs |
| RetirementStore.LaterMeasures | src/stores/useRetirementStore.ts:224 | the later runs' combined length and flow are the sums of their lengths and flows |
| RetirementStore.OutsideFirstConcat | src/stores/useRetirementStore.ts:223-224 | the records outside the first run number the later runs' lengths, and their flows sum to the later runs' flows |
| RetirementStore.RawPrefixIsConcat | src/composeables/useProjections.ts:103-115 | the raw chain is the concatenation of the stage segments |
| RetirementStore.StagesRunsTagged | src/composeables/useProjections.ts:78-80 | the segments of distinctly named stages are distinctly tagged |
| RetirementStore.OfStageOfRun | src/stores/useRetirementStore.ts:193 | filtering the raw run by a stage's name gives back exactly that stage's projection |
| RetirementStore.LaterLengthOfRuns | src/stores/useRetirementStore.ts:224 | the later segments' lengths add up to the later stages' year counts |
| RetirementStore.LaterFlowOfRuns | src/stores/useRetirementStore.ts:224 | the later segments' flows add up to the later stages' yearly flows |
| RetirementStore.RetirementOfRun | src/stores/useRetirementStore.ts:223-224 | with flat later stages, the records outside the first stage number their years and their flows add up to years * 12 * monthly over those stages |
| RetirementStore.PrefixTelescopes | src/composeables/useProjections.ts:71-84 | over any nonempty prefix of a stage, total flow plus total growth is the last end balance minus the entry balance |
| RetirementStore.StageTelescopes | src/composeables/useProjections.ts:71-84 | over a whole nonempty stage, total flow plus total growth is its end balance minus its entry balance |
| RetirementStore.StageSummaryBalances | src/stores/useRetirementStore.ts:192-199 | on the raw run each nonempty stage's finalBalance is its entry balance plus totalFlow plus totalGrowth |
| RetirementStore.FlatStageTotalFlow | src/stores/useRetirementStore.ts:195-196 | on the raw run, a retirement stage's totalFlow is its year count times twelve monthly values |
| RetirementStore.PhaseTotalFlows | src/stores/useRetirementStore.ts:195-212 | on the raw run, totalGoGoFlow, totalSlowGoFlow and totalNoGoFlow are each the phase's year count times twelve of its monthly withdrawals |
| RetirementStore.FlatStageFlow | src/composeables/useProjections.ts:61-68 | a stage with no escalation has a flow of monthly * 12 every year, adding up to years * 12 * monthly |
| RetirementStore.MonthlyMean | src/stores/useRetirementStore.ts:224 | the mean times the count times 12 gives back the total |
| RetirementStore.AvgMonthlyWithdrawal | src/stores/useRetirementStore.ts:217-225 | 0 for a missing or empty run; otherwise the value times the count of non-pre-retirement records times 12 is their total flow |
| RetirementStore.WeightedMeanArithmetic | src/stores/useRetirementStore.ts:224 | spreading c1*12*m1 + c2*12*m2 + c3*12*m3 over c1 + c2 + c3 records of 12 months gives the c-weighted mean of m1, m2, m3 |
| RetirementStore.LaterOfFour | src/stores/useRetirementStore.ts:123-153 | for the four-stage plan, the later years and flows are the sums over the three retirement stages |
| RetirementStore.MeanOfFour | src/stores/useRetirementStore.ts:224 | for four stages, the monthly mean of the later flows is the year-weighted mean of the three later monthly values |
| RetirementStore.AvgWithdrawalOfRun | src/stores/useRetirementStore.ts:217-225 | with a "Pre-retirement" first stage and flat later stages, avgMonthlyWithdrawal is the later stages' flow spread over their years and months |
| RetirementStore.AvgWithdrawalOfFour | src/stores/useRetirementStore.ts:217-225 | for four such stages, avgMonthlyWithdrawal is the year-weighted mean of the three later monthly values |
| RetirementStore.AvgWithdrawalIsWeightedMean | src/stores/useRetirementStore.ts:217-225 | on the raw run, with at least one retirement year, avgMonthlyWithdrawal is the mean of the Go-Go, Slow-Go and No-Go monthly withdrawals weighted by each phase's year count |

## Left out

- Vue and Pinia machinery is not modelled: `defineStore`, `ref`, `computed` caching, and when `watch` fires. Every computed value is a function of a `Params` record. The watch is one transition, `WatchRetirementAges`, applied whenever its sources change.
- `recommendations` (src/stores/useRetirementStore.ts:266-328) is left out. It is advisory threshold glue that builds strings through d3-format and `formatRange`, which are foreign presentation calls.
- `src/composeables/useHelpers.ts` (`formatRange`) and `src/main.ts` (app bootstrap) are not part of this model.
- `monthlyIncome` and `totalInflationPreRetirement`/`totalInflationIntraRetirement` are left out. They are single divisions and products (src/stores/useRetirementStore.ts:76-84) that nothing in the core reads. The twelve per-field computed getters (227-264) are left out as well; each only reads one field of `Summaries`.
- IEEE-754 rounding, NaN and Infinity are not modelled, because numbers are `real`. The code's two divisions by zero become preconditions:
  - `NonzeroFactors` covers a zero deflation factor (src/composeables/useProjections.ts:120);
  - `AvgMonthlyWithdrawal` requires at least one retirement record when the run is nonempty. With none, the code divides 0 by 0 (src/stores/useRetirementStore.ts:224).
- The `?? 0` fallbacks on record fields (src/stores/useRetirementStore.ts:169, 196, 199) are not modelled. The records are typed, so those fields are always present.
- Ages and year counts are integers. JavaScript also allows fractional ones; a positive fractional `years` runs the loop `floor(years)` times.
- `GenerateGenericGrowthProjection` and `PrepareGrowthProjection` build immutable sequences. The source pushes into, or spreads into, fresh local arrays that no other code can see. Aliasing is therefore not a concern.
- AvgWithdrawalIsWeightedMean: stated for the raw run only. On the inflation-adjusted run each record is divided by its own factor, so the mean is no longer weighted by year counts alone.
- StageSummaryBalances: stated for the raw run only, for the same reason.
- PhaseTotalFlows: stated for the raw run only, for the same reason.
- StageResults: stated for the raw run only, for the same reason.
- PlanSummaries: stated for the raw run only, for the same reason.
