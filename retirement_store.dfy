/**
  The derived values of the retirement planner's store.

  Every value the store computes from the user's inputs is a function of a
  `Params` record: the split of the retirement years into the Go-Go, Slow-Go
  and No-Go phases, the income and flow amounts, the four stages handed to the
  projection engine, and the summaries and graph series read back from the
  engine's output. The boundary setter and the watch that drops an override
  gone out of range are functions from one `Params` to the next.
*/
module RetirementStore {

  import opened Wrappers
  import opened Projections

  /** The user's inputs, and the optional override of the phase boundaries. */
  datatype Params = Params(
    ageToday: int,
    ageRetirement: int,
    lifeExpectancy: int,
    annualIncome: real,
    incomeReplacementGoGo: real,    // percent of the income at retirement
    incomeReplacementSlowGo: real,
    incomeReplacementNoGo: real,
    currentBalance: real,
    annualRaises: real,             // percent per year
    savingsRate: real,              // percent of income
    growthRatePreRetirement: real,
    growthRateIntraRetirement: real,
    annualInflation: real,
    inflationAdjChoice: bool,
    overrideRetirementBoundaries: Option<seq<int>>
  )

  /** Which slot of the full projection the views read. */
  datatype Perspective = Raw | InflationAdjusted

  const PreRetirementName: string := "Pre-retirement"
  const GoGoName: string := "Go-Go Years"
  const SlowGoName: string := "Slow-Go Years"
  const NoGoName: string := "No-Go Years"

  function InflationPerspective(p: Params): Perspective
  {
    if p.inflationAdjChoice then InflationAdjusted else Raw
  }

  /** Reading a slot of the full projection by its key. */
  function Select(fp: FullProjection, perspective: Perspective): Option<seq<AnnualProjection>>
  {
    match perspective
    case Raw => fp.raw
    case InflationAdjusted => fp.inflationAdjusted
  }

  // ---------------------------------------------------------------------------
  // Years and phase boundaries
  // ---------------------------------------------------------------------------

  function YearsUntilRetirement(p: Params): int
  {
    p.ageRetirement - p.ageToday
  }

  function YearsInRetirement(p: Params): int
  {
    p.lifeExpectancy - p.ageRetirement
  }

  /**
    floor(2 * yearsInRetirement / 5): the default length of the Go-Go and of
    the Slow-Go phase. Dafny's `/` on `int` by a positive divisor rounds down,
    as `Math.floor` does, also for a negative span.
  */
  function DefaultPhaseYears(p: Params): int
  {
    (YearsInRetirement(p) * 2) / 5
  }

  /** The ages at which Slow-Go and No-Go begin: the override when one is set. */
  function RetirementBoundaries(p: Params): seq<int>
  {
    match p.overrideRetirementBoundaries
    case Some(bs) => bs
    case None =>
      [p.ageRetirement + DefaultPhaseYears(p), p.ageRetirement + DefaultPhaseYears(p) * 2]
  }

  /** The boundaries' setter: it stores the new value as the override. */
  function SetRetirementBoundaries(p: Params, newValue: seq<int>): (q: Params)
    ensures RetirementBoundaries(q) == newValue
    ensures q.(overrideRetirementBoundaries := p.overrideRetirementBoundaries) == p
  {
    p.(overrideRetirementBoundaries := Some(newValue))
  }

  /** `bs[i] ?? default`: element i, or `default` when the sequence is too short. */
  function Boundary(bs: seq<int>, i: nat, default: int): int
  {
    if i < |bs| then bs[i] else default
  }

  function YearsInGoGo(p: Params): int
  {
    var def := p.ageRetirement;
    Boundary(RetirementBoundaries(p), 0, def) - def
  }

  function YearsInSlowGo(p: Params): int
  {
    var def := YearsInGoGo(p) + p.ageRetirement;
    Boundary(RetirementBoundaries(p), 1, def) - def
  }

  function YearsInNoGo(p: Params): int
  {
    YearsInRetirement(p) - YearsInSlowGo(p) - YearsInGoGo(p)
  }

  /** The three phases always make up the retirement span, whatever the boundaries. */
  lemma PhasesSumToRetirementSpan(p: Params)
    ensures YearsInGoGo(p) + YearsInSlowGo(p) + YearsInNoGo(p) == p.lifeExpectancy - p.ageRetirement
  {
  }

  /**
    Without an override the boundaries sit F and 2F years after retirement,
    F = floor(2 * span / 5): Go-Go and Slow-Go last F years each and, for a
    span of zero or more, No-Go is left at least a fifth of the span.
  */
  lemma DefaultBoundaries(p: Params)
    requires p.overrideRetirementBoundaries.None?
    ensures var f := DefaultPhaseYears(p);
      && RetirementBoundaries(p) == [p.ageRetirement + f, p.ageRetirement + 2 * f]
      && YearsInGoGo(p) == f
      && YearsInSlowGo(p) == f
      && YearsInNoGo(p) == YearsInRetirement(p) - 2 * f
      && (YearsInRetirement(p) >= 0 ==> 0 <= f && 5 * YearsInNoGo(p) >= YearsInRetirement(p))
  {
    var y := YearsInRetirement(p);
    var f := DefaultPhaseYears(p);
    if y >= 0 {
      assert 5 * f <= 2 * y;
    }
  }

  /** With ordered boundaries inside [ageRetirement, lifeExpectancy] no phase is negative. */
  lemma OrderedBoundariesGiveNonnegativePhases(p: Params)
    requires |RetirementBoundaries(p)| >= 2
    requires p.ageRetirement <= RetirementBoundaries(p)[0] <= RetirementBoundaries(p)[1] <= p.lifeExpectancy
    ensures YearsInGoGo(p) >= 0 && YearsInSlowGo(p) >= 0 && YearsInNoGo(p) >= 0
  {
  }

  // ---------------------------------------------------------------------------
  // The watch on the retirement ages
  // ---------------------------------------------------------------------------

  /** An override whose first boundary (0 if missing) is before retirement or whose second (0 if missing) is after life expectancy. */
  predicate OutOfRange(bs: seq<int>, ageRetirement: int, lifeExpectancy: int)
  {
    Boundary(bs, 0, 0) < ageRetirement || Boundary(bs, 1, 0) > lifeExpectancy
  }

  /** What the watch does when the span, the retirement age or life expectancy changes. */
  function WatchRetirementAges(p: Params): (q: Params)
    ensures q.(overrideRetirementBoundaries := p.overrideRetirementBoundaries) == p
    ensures q.overrideRetirementBoundaries.None? <==>
      (p.overrideRetirementBoundaries.None?
       || OutOfRange(p.overrideRetirementBoundaries.value, p.ageRetirement, p.lifeExpectancy))
    ensures q.overrideRetirementBoundaries.Some? ==> q == p
  {
    match p.overrideRetirementBoundaries
    case None => p
    case Some(bs) =>
      if OutOfRange(bs, p.ageRetirement, p.lifeExpectancy) then p.(overrideRetirementBoundaries := None)
      else p
  }

  /** After the watch any override left in place is in range, and a second run changes nothing. */
  lemma WatchSettles(p: Params)
    ensures var q := WatchRetirementAges(p);
      && (q.overrideRetirementBoundaries.Some? ==>
            && Boundary(q.overrideRetirementBoundaries.value, 0, 0) >= q.ageRetirement
            && Boundary(q.overrideRetirementBoundaries.value, 1, 0) <= q.lifeExpectancy)
      && WatchRetirementAges(q) == q
  {
  }

  // ---------------------------------------------------------------------------
  // Income and flows
  // ---------------------------------------------------------------------------

  function TotalRaises(p: Params): real
  {
    (YearsUntilRetirement(p) as real) * p.annualRaises
  }

  /** The first monthly contribution: a twelfth of savingsRate percent of the annual income. */
  function FirstMonthlyContribution(p: Params): (r: real)
    ensures r * 12.0 == p.annualIncome * p.savingsRate / 100.0
  {
    (p.annualIncome * (p.savingsRate / 100.0)) / 12.0
  }

  function AnnualIncomeAtRetirement(p: Params): real
  {
    p.annualIncome * (1.0 + TotalRaises(p) / 100.0)
  }

  /**
    Raises are simple, not compounded: the income at retirement is the income
    today plus annualRaises percent of it for every working year left, so
    retiring a year later always adds the same amount.
  */
  lemma RaisesAreSimple(p: Params)
    ensures AnnualIncomeAtRetirement(p) ==
      p.annualIncome + (YearsUntilRetirement(p) as real) * (p.annualIncome * p.annualRaises / 100.0)
    ensures AnnualIncomeAtRetirement(p.(ageRetirement := p.ageRetirement + 1))
      == AnnualIncomeAtRetirement(p) + p.annualIncome * p.annualRaises / 100.0
  {
    var n := YearsUntilRetirement(p) as real;
    var a := p.annualIncome;
    var r := p.annualRaises;
    assert AnnualIncomeAtRetirement(p) == a * (1.0 + n * r / 100.0);
    assert a * (1.0 + n * r / 100.0) == a + n * (a * r / 100.0);
    assert AnnualIncomeAtRetirement(p.(ageRetirement := p.ageRetirement + 1))
      == a * (1.0 + (n + 1.0) * r / 100.0);
    assert a * (1.0 + (n + 1.0) * r / 100.0) == a + n * (a * r / 100.0) + a * r / 100.0;
  }

  function MonthlyIncomeAtRetirement(p: Params): real
  {
    AnnualIncomeAtRetirement(p) / 12.0
  }

  /**
    A phase's monthly withdrawal: a twelfth of `replacement` percent of the
    income at retirement, as a negative flow.
  */
  function MonthlyWithdrawal(p: Params, replacement: real): (r: real)
    ensures -r * 12.0 == AnnualIncomeAtRetirement(p) * replacement / 100.0
    ensures AnnualIncomeAtRetirement(p) >= 0.0 && replacement >= 0.0 ==> r <= 0.0
  {
    (MonthlyIncomeAtRetirement(p) * (replacement / 100.0)) * -1.0
  }

  function MonthlyGoGoWithdrawal(p: Params): real
  {
    MonthlyWithdrawal(p, p.incomeReplacementGoGo)
  }

  function MonthlySlowGoWithdrawal(p: Params): real
  {
    MonthlyWithdrawal(p, p.incomeReplacementSlowGo)
  }

  function MonthlyNoGoWithdrawal(p: Params): real
  {
    MonthlyWithdrawal(p, p.incomeReplacementNoGo)
  }

  // ---------------------------------------------------------------------------
  // The stages handed to the engine, and its output
  // ---------------------------------------------------------------------------

  predicate DistinctNames(stages: seq<Stage>)
  {
    forall i, j :: 0 <= i < j < |stages| ==> stages[i].name != stages[j].name
  }

  /**
    The fixed plan: pre-retirement saving, then the three retirement phases.
    Only the first stage escalates its flow; the withdrawals stay flat.
  */
  function FutureStages(p: Params): (stages: seq<Stage>)
    ensures |stages| == 4 && DistinctNames(stages)
    ensures stages[0].name == PreRetirementName && stages[1].name == GoGoName
    ensures stages[2].name == SlowGoName && stages[3].name == NoGoName
    ensures stages[0].annualIncrease == p.annualRaises
    ensures forall k :: 1 <= k < 4 ==> stages[k].annualIncrease == 0.0
  {
    assert PreRetirementName[0] == 'P' && GoGoName[0] == 'G' && SlowGoName[0] == 'S' && NoGoName[0] == 'N';
    [ Stage(PreRetirementName, p.growthRatePreRetirement, YearsUntilRetirement(p),
            FirstMonthlyContribution(p), p.annualRaises),
      Stage(GoGoName, p.growthRateIntraRetirement, YearsInGoGo(p), MonthlyGoGoWithdrawal(p), 0.0),
      Stage(SlowGoName, p.growthRateIntraRetirement, YearsInSlowGo(p), MonthlySlowGoWithdrawal(p), 0.0),
      Stage(NoGoName, p.growthRateIntraRetirement, YearsInNoGo(p), MonthlyNoGoWithdrawal(p), 0.0) ]
  }

  /** The engine can deflate every record of the plan (no zero inflation factor). */
  predicate ProjectionDefined(p: Params)
  {
    NonzeroFactors(p.annualInflation, TotalYears(FutureStages(p)))
  }

  function FutureProjection(p: Params): FullProjection
    requires ProjectionDefined(p)
  {
    Assemble(GrowthFactors(p.currentBalance, p.annualInflation, FutureStages(p)))
  }

  /** The run the views read: the inflation-adjusted one exactly when the user asks for it. */
  function SelectedProjection(p: Params): Option<seq<AnnualProjection>>
    requires ProjectionDefined(p)
  {
    Select(FutureProjection(p), InflationPerspective(p))
  }

  lemma SelectedProjectionChoice(p: Params)
    requires ProjectionDefined(p)
    ensures |RawProjection(FutureStages(p), p.currentBalance)| == TotalYears(FutureStages(p))
    ensures p.inflationAdjChoice ==>
      SelectedProjection(p) == Some(Deflate(RawProjection(FutureStages(p), p.currentBalance), p.annualInflation))
    ensures !p.inflationAdjChoice ==> SelectedProjection(p) == Some(RawProjection(FutureStages(p), p.currentBalance))
  {
    RawLength(FutureStages(p), p.currentBalance);
  }

  /**
    When no phase is negative and retirement is not in the past, the plan
    runs one year for every age from today up to life expectancy.
  */
  lemma PlanSpansLifetime(p: Params)
    requires YearsUntilRetirement(p) >= 0
    requires YearsInGoGo(p) >= 0 && YearsInSlowGo(p) >= 0 && YearsInNoGo(p) >= 0
    ensures TotalYears(FutureStages(p)) == p.lifeExpectancy - p.ageToday
  {
    var stages := FutureStages(p);
    assert Offset(stages, 4) == YearCount(stages[0].years) + YearCount(stages[1].years)
                                + YearCount(stages[2].years) + YearCount(stages[3].years);
  }

  // ---------------------------------------------------------------------------
  // Graph series
  // ---------------------------------------------------------------------------

  datatype GraphPoint = GraphPoint(age: int, stage: string, balance: real)

  /** One point per record: the i-th at age ageToday + i, plotting the end balance. */
  function Graph(data: Option<seq<AnnualProjection>>, ageToday: int): (points: seq<GraphPoint>)
    ensures data.None? ==> points == []
    ensures data.Some? ==> |points| == |data.value|
    ensures data.Some? ==> forall i :: 0 <= i < |points| ==>
      points[i].age == ageToday + i && points[i].stage == data.value[i].stage
      && points[i].balance == data.value[i].endBalance
  {
    match data
    case None => []
    case Some(arr) =>
      seq(|arr|, i requires 0 <= i < |arr| => GraphPoint(i + ageToday, arr[i].stage, arr[i].endBalance))
  }

  function ProjectionGraph(p: Params): seq<GraphPoint>
    requires ProjectionDefined(p)
  {
    Graph(SelectedProjection(p), p.ageToday)
  }

  /**
    For a plan without negative phases the graph has one point per age from
    today to the year before life expectancy.
  */
  lemma GraphCoversLifetime(p: Params)
    requires ProjectionDefined(p)
    requires YearsUntilRetirement(p) >= 0
    requires YearsInGoGo(p) >= 0 && YearsInSlowGo(p) >= 0 && YearsInNoGo(p) >= 0
    ensures |ProjectionGraph(p)| == p.lifeExpectancy - p.ageToday
    ensures |ProjectionGraph(p)| > 0 ==> ProjectionGraph(p)[|ProjectionGraph(p)| - 1].age == p.lifeExpectancy - 1
  {
    PlanSpansLifetime(p);
    SelectedProjectionChoice(p);
  }

  // ---------------------------------------------------------------------------
  // Per-stage summaries
  // ---------------------------------------------------------------------------

  /** `arr.filter(a => a.stage === name)`. */
  function OfStage(arr: seq<AnnualProjection>, name: string): (r: seq<AnnualProjection>)
    ensures |r| <= |arr|
    decreases |arr|
  {
    if arr == [] then []
    else OfStage(arr[..|arr| - 1], name) + (if arr[|arr| - 1].stage == name then [arr[|arr| - 1]] else [])
  }

  /** `arr.filter(a => a.stage !== name)`. */
  function OutsideStage(arr: seq<AnnualProjection>, name: string): (r: seq<AnnualProjection>)
    ensures |r| <= |arr|
    decreases |arr|
  {
    if arr == [] then []
    else OutsideStage(arr[..|arr| - 1], name) + (if arr[|arr| - 1].stage != name then [arr[|arr| - 1]] else [])
  }

  function Flow(a: AnnualProjection): real { a.annualFlow }

  function Growth(a: AnnualProjection): real { a.totalGrowth }

  /** `rs.reduce((sum, a) => sum + field(a), 0)`: a left fold. */
  function Sum(rs: seq<AnnualProjection>, field: AnnualProjection -> real): real
    decreases |rs|
  {
    if rs == [] then 0.0 else Sum(rs[..|rs| - 1], field) + field(rs[|rs| - 1])
  }

  /** The end balance of the last record tagged `name`, or 0 if none is. */
  function FinalBalance(arr: seq<AnnualProjection>, name: string): real
  {
    var tagged := OfStage(arr, name);
    if |tagged| == 0 then 0.0 else tagged[|tagged| - 1].endBalance
  }

  function TotalFlow(arr: seq<AnnualProjection>, name: string): real
  {
    Sum(OfStage(arr, name), Flow)
  }

  function TotalGrowth(arr: seq<AnnualProjection>, name: string): real
  {
    Sum(OfStage(arr, name), Growth)
  }

  datatype ProjectionResults = ProjectionResults(
    finalPreRetirementBalance: real,
    finalGoGoBalance: real,
    finalSlowGoBalance: real,
    finalNoGoBalance: real,
    totalPreRetirementFlow: real,
    totalPreRetirementGrowth: real,
    totalGoGoFlow: real,
    totalGoGoGrowth: real,
    totalSlowGoFlow: real,
    totalSlowGoGrowth: real,
    totalNoGoFlow: real,
    totalNoGoGrowth: real
  )

  /**
    The stage summaries: all zero for a missing or empty run; otherwise each
    stage's final balance, total flow and total growth.
  */
  function Summaries(data: Option<seq<AnnualProjection>>): (r: ProjectionResults)
    ensures (data.None? || |data.value| == 0) ==>
      r == ProjectionResults(0.0, 0.0, 0.0, 0.0, 0.0, 0.0, 0.0, 0.0, 0.0, 0.0, 0.0, 0.0)
    ensures data.Some? && |data.value| > 0 ==>
      && r.finalPreRetirementBalance == FinalBalance(data.value, PreRetirementName)
      && r.finalGoGoBalance == FinalBalance(data.value, GoGoName)
      && r.finalSlowGoBalance == FinalBalance(data.value, SlowGoName)
      && r.finalNoGoBalance == FinalBalance(data.value, NoGoName)
      && r.totalPreRetirementFlow == TotalFlow(data.value, PreRetirementName)
      && r.totalPreRetirementGrowth == TotalGrowth(data.value, PreRetirementName)
      && r.totalGoGoFlow == TotalFlow(data.value, GoGoName)
      && r.totalGoGoGrowth == TotalGrowth(data.value, GoGoName)
      && r.totalSlowGoFlow == TotalFlow(data.value, SlowGoName)
      && r.totalSlowGoGrowth == TotalGrowth(data.value, SlowGoName)
      && r.totalNoGoFlow == TotalFlow(data.value, NoGoName)
      && r.totalNoGoGrowth == TotalGrowth(data.value, NoGoName)
  {
    if data.None? || |data.value| == 0 then
      ProjectionResults(0.0, 0.0, 0.0, 0.0, 0.0, 0.0, 0.0, 0.0, 0.0, 0.0, 0.0, 0.0)
    else
      var arr := data.value;
      ProjectionResults(
        finalPreRetirementBalance := FinalBalance(arr, PreRetirementName),
        finalGoGoBalance := FinalBalance(arr, GoGoName),
        finalSlowGoBalance := FinalBalance(arr, SlowGoName),
        finalNoGoBalance := FinalBalance(arr, NoGoName),
        totalPreRetirementFlow := TotalFlow(arr, PreRetirementName),
        totalPreRetirementGrowth := TotalGrowth(arr, PreRetirementName),
        totalGoGoFlow := TotalFlow(arr, GoGoName),
        totalGoGoGrowth := TotalGrowth(arr, GoGoName),
        totalSlowGoFlow := TotalFlow(arr, SlowGoName),
        totalSlowGoGrowth := TotalGrowth(arr, SlowGoName),
        totalNoGoFlow := TotalFlow(arr, NoGoName),
        totalNoGoGrowth := TotalGrowth(arr, NoGoName))
  }

  /** The store's `futureProjectionResults`. */
  function FutureProjectionResults(p: Params): ProjectionResults
    requires ProjectionDefined(p)
  {
    Summaries(SelectedProjection(p))
  }

  /** A monthly mean: `total` spread over `count` records of twelve months each. */
  function MonthlyMean(total: real, count: nat): (m: real)
    requires count > 0
    ensures m * (count as real) * 12.0 == total
  {
    total / (count as real) / 12.0
  }

  /**
    The average monthly flow over the retirement records: 0 for a missing or
    empty run, otherwise their flows summed, per record, per month.
  */
  function AvgMonthlyWithdrawal(data: Option<seq<AnnualProjection>>): (r: real)
    requires data.Some? && |data.value| > 0 ==> |OutsideStage(data.value, PreRetirementName)| > 0
    ensures (data.None? || |data.value| == 0) ==> r == 0.0
    ensures data.Some? && |data.value| > 0 ==>
      r * (|OutsideStage(data.value, PreRetirementName)| as real) * 12.0
        == Sum(OutsideStage(data.value, PreRetirementName), Flow)
  {
    if data.None? || |data.value| == 0 then 0.0
    else
      var retirement := OutsideStage(data.value, PreRetirementName);
      var count := |retirement|;
      var total := Sum(retirement, Flow);
      var mean := MonthlyMean(total, count);
      assert mean * (count as real) * 12.0 == total;
      mean
  }

  // ---------------------------------------------------------------------------
  // Lemmas about filters and sums
  // ---------------------------------------------------------------------------

  lemma {:induction false} OfStageAppend(a: seq<AnnualProjection>, b: seq<AnnualProjection>, name: string)
    ensures OfStage(a + b, name) == OfStage(a, name) + OfStage(b, name)
    decreases |b|
  {
    if b == [] {
      assert a + b == a;
    } else {
      var b' := b[..|b| - 1];
      var x := b[|b| - 1];
      var t := if x.stage == name then [x] else [];
      OfStageAppend(a, b', name);
      assert (a + b)[..|a + b| - 1] == a + b';
      assert (a + b)[|a + b| - 1] == x;
      assert OfStage(a + b, name) == OfStage(a + b', name) + t;
      assert OfStage(b, name) == OfStage(b', name) + t;
      assert (OfStage(a, name) + OfStage(b', name)) + t == OfStage(a, name) + (OfStage(b', name) + t);
    }
  }

  lemma {:induction false} OutsideStageAppend(a: seq<AnnualProjection>, b: seq<AnnualProjection>, name: string)
    ensures OutsideStage(a + b, name) == OutsideStage(a, name) + OutsideStage(b, name)
    decreases |b|
  {
    if b == [] {
      assert a + b == a;
    } else {
      var b' := b[..|b| - 1];
      var x := b[|b| - 1];
      var t := if x.stage != name then [x] else [];
      OutsideStageAppend(a, b', name);
      assert (a + b)[..|a + b| - 1] == a + b';
      assert (a + b)[|a + b| - 1] == x;
      assert OutsideStage(a + b, name) == OutsideStage(a + b', name) + t;
      assert OutsideStage(b, name) == OutsideStage(b', name) + t;
      assert (OutsideStage(a, name) + OutsideStage(b', name)) + t == OutsideStage(a, name) + (OutsideStage(b', name) + t);
    }
  }

  /** Every record of `rs` carries the tag `tag`. */
  predicate TaggedAll(rs: seq<AnnualProjection>, tag: string)
  {
    forall i :: 0 <= i < |rs| ==> rs[i].stage == tag
  }

  /** Filtering a run whose records all carry one tag keeps all of it or none of it. */
  lemma {:induction false} FilterUniform(rs: seq<AnnualProjection>, tag: string, name: string)
    requires TaggedAll(rs, tag)
    ensures OfStage(rs, name) == if tag == name then rs else []
    ensures OutsideStage(rs, name) == if tag == name then [] else rs
    decreases |rs|
  {
    if rs != [] {
      FilterUniform(rs[..|rs| - 1], tag, name);
      assert rs[..|rs| - 1] + [rs[|rs| - 1]] == rs;
    }
  }

  lemma {:induction false} SumAppend(a: seq<AnnualProjection>, b: seq<AnnualProjection>, field: AnnualProjection -> real)
    ensures Sum(a + b, field) == Sum(a, field) + Sum(b, field)
    decreases |b|
  {
    if b == [] {
      assert a + b == a;
    } else {
      var b' := b[..|b| - 1];
      SumAppend(a, b', field);
      assert (a + b)[..|a + b| - 1] == a + b';
    }
  }

  /** A run whose every flow is `c` sums to its length times `c`. */
  lemma {:induction false} SumOfConstantFlow(rs: seq<AnnualProjection>, c: real)
    requires forall i :: 0 <= i < |rs| ==> rs[i].annualFlow == c
    ensures Sum(rs, Flow) == (|rs| as real) * c
    decreases |rs|
  {
    if rs != [] {
      SumOfConstantFlow(rs[..|rs| - 1], c);
    }
  }

  /** The last record of `arr` tagged `name` is the last record of the filtered run. */
  lemma {:induction false} FinalBalanceIsLastTagged(arr: seq<AnnualProjection>, name: string, i: nat)
    requires i < |arr| && arr[i].stage == name
    requires forall j :: i < j < |arr| ==> arr[j].stage != name
    ensures FinalBalance(arr, name) == arr[i].endBalance
    decreases |arr|
  {
    if i < |arr| - 1 {
      FinalBalanceIsLastTagged(arr[..|arr| - 1], name, i);
    }
  }

  /** With no record tagged `name` the final balance is 0. */
  lemma {:induction false} FinalBalanceUntagged(arr: seq<AnnualProjection>, name: string)
    requires forall j :: 0 <= j < |arr| ==> arr[j].stage != name
    ensures FinalBalance(arr, name) == 0.0
    ensures OfStage(arr, name) == []
    decreases |arr|
  {
    if arr != [] {
      FinalBalanceUntagged(arr[..|arr| - 1], name);
    }
  }

  // ---------------------------------------------------------------------------
  // Lemmas tying the summaries to the engine
  // ---------------------------------------------------------------------------

  /**
    A stage's projection has one record per year of the stage, each carrying
    the stage's name; with a flat flow its flows add up to the year count
    times twelve monthly values.
  */
  lemma StageProjectionFacts(stages: seq<Stage>, balance: real, k: nat)
    requires k < |stages|
    ensures |StageProjection(stages, balance, k)| == YearCount(stages[k].years)
    ensures TaggedAll(StageProjection(stages, balance, k), stages[k].name)
    ensures stages[k].annualIncrease == 0.0 ==> Sum(StageProjection(stages, balance, k), Flow) == YearlyFlow(stages[k])
  {
    var s := StageInput(stages[k], StageStart(stages, balance, k));
    var gp := GrowthProjection(s);
    assert gp == StageProjection(stages, balance, k);
    GrowthProjectionObeysLaw(s);
    forall i | 0 <= i < |gp| ensures gp[i].stage == stages[k].name {
      assert LawAt(s, gp, i);
    }
    if stages[k].annualIncrease == 0.0 {
      FlatStageFlow(s);
    }
  }

  /** The runs of the first m entries of `runs`, one after the other. */
  function Concat(runs: seq<seq<AnnualProjection>>, m: nat): seq<AnnualProjection>
    requires m <= |runs|
  {
    if m == 0 then [] else Concat(runs, m - 1) + runs[m - 1]
  }

  /** Run j carries the tag names[j], and no two tags are equal. */
  predicate RunsTagged(runs: seq<seq<AnnualProjection>>, names: seq<string>)
  {
    && |runs| == |names|
    && (forall j :: 0 <= j < |runs| ==> TaggedAll(runs[j], names[j]))
    && (forall i, j :: 0 <= i < j < |names| ==> names[i] != names[j])
  }

  /** Appending a run tagged `tag` to `prev` and keeping `name` adds all of the run or none of it. */
  lemma OfStageStep(prev: seq<AnnualProjection>, last: seq<AnnualProjection>, tag: string, name: string)
    requires TaggedAll(last, tag)
    ensures OfStage(prev + last, name) == OfStage(prev, name) + (if tag == name then last else [])
  {
    OfStageAppend(prev, last, name);
    FilterUniform(last, tag, name);
  }

  /** Filtering the first m runs by the k-th tag keeps run k if it is among them, and nothing else. */
  lemma {:induction false} OfStageConcat(runs: seq<seq<AnnualProjection>>, names: seq<string>, k: nat, m: nat)
    requires RunsTagged(runs, names) && k < |runs| && m <= |runs|
    ensures OfStage(Concat(runs, m), names[k]) == if k < m then runs[k] else []
    decreases m
  {
    var name := names[k];
    if m > 0 {
      var prev := Concat(runs, m - 1);
      var last := runs[m - 1];
      var tag := names[m - 1];
      assert Concat(runs, m) == prev + last;
      assert TaggedAll(last, tag);
      OfStageConcat(runs, names, k, m - 1);
      OfStageStep(prev, last, tag, name);
      if k == m - 1 {
        assert OfStage(prev, name) == [];
        assert [] + last == last;
      } else {
        assert tag != name;
        assert OfStage(prev, name) + [] == OfStage(prev, name);
      }
    }
  }

  /** Total length of runs 1 .. m-1. */
  function LaterLength(runs: seq<seq<AnnualProjection>>, m: nat): nat
    requires m <= |runs|
  {
    if m <= 1 then 0 else LaterLength(runs, m - 1) + |runs[m - 1]|
  }

  /** Total flow of runs 1 .. m-1. */
  function LaterRunsFlow(runs: seq<seq<AnnualProjection>>, m: nat): real
    requires m <= |runs|
  {
    if m <= 1 then 0.0 else LaterRunsFlow(runs, m - 1) + Sum(runs[m - 1], Flow)
  }

  /** Runs 1 .. m-1, one after the other. */
  function Later(runs: seq<seq<AnnualProjection>>, m: nat): seq<AnnualProjection>
    requires m <= |runs|
  {
    if m <= 1 then [] else Later(runs, m - 1) + runs[m - 1]
  }

  /** Appending a run tagged `tag` to `prev` and dropping `name` adds all of the run or none of it. */
  lemma OutsideStep(prev: seq<AnnualProjection>, last: seq<AnnualProjection>, tag: string, name: string)
    requires TaggedAll(last, tag)
    ensures OutsideStage(prev + last, name) == OutsideStage(prev, name) + (if tag == name then [] else last)
  {
    OutsideStageAppend(prev, last, name);
    FilterUniform(last, tag, name);
  }

  /** Dropping the first tag from the first m runs leaves exactly runs 1 .. m-1. */
  lemma {:induction false} OutsideFirstIsLater(runs: seq<seq<AnnualProjection>>, names: seq<string>, m: nat)
    requires RunsTagged(runs, names) && 1 <= m <= |runs|
    ensures OutsideStage(Concat(runs, m), names[0]) == Later(runs, m)
    decreases m
  {
    var prev := Concat(runs, m - 1);
    var last := runs[m - 1];
    assert Concat(runs, m) == prev + last;
    OutsideStep(prev, last, names[m - 1], names[0]);
    if m == 1 {
      assert prev == [];
      assert OutsideStage(prev, names[0]) + [] == [];
    } else {
      OutsideFirstIsLater(runs, names, m - 1);
      assert names[0] != names[m - 1];
    }
  }

  /** Length and flow of runs 1 .. m-1 laid end to end. */
  lemma {:induction false} LaterMeasures(runs: seq<seq<AnnualProjection>>, m: nat)
    requires m <= |runs|
    ensures |Later(runs, m)| == LaterLength(runs, m)
    ensures Sum(Later(runs, m), Flow) == LaterRunsFlow(runs, m)
    decreases m
  {
    if m > 1 {
      LaterMeasures(runs, m - 1);
      SumAppend(Later(runs, m - 1), runs[m - 1], Flow);
    }
  }

  /** Dropping the first tag from the first m runs leaves runs 1 .. m-1, with their length and flow. */
  lemma OutsideFirstConcat(runs: seq<seq<AnnualProjection>>, names: seq<string>, m: nat)
    requires RunsTagged(runs, names) && 1 <= m <= |runs|
    ensures |OutsideStage(Concat(runs, m), names[0])| == LaterLength(runs, m)
    ensures Sum(OutsideStage(Concat(runs, m), names[0]), Flow) == LaterRunsFlow(runs, m)
  {
    OutsideFirstIsLater(runs, names, m);
    LaterMeasures(runs, m);
  }

  /** The stage projections of a run of stages, one per stage. */
  function Runs(stages: seq<Stage>, balance: real): (runs: seq<seq<AnnualProjection>>)
    ensures |runs| == |stages|
    ensures forall j :: 0 <= j < |stages| ==> runs[j] == StageProjection(stages, balance, j)
  {
    seq(|stages|, j requires 0 <= j < |stages| => StageProjection(stages, balance, j))
  }

  function Names(stages: seq<Stage>): (names: seq<string>)
    ensures |names| == |stages| && forall j :: 0 <= j < |stages| ==> names[j] == stages[j].name
  {
    seq(|stages|, j requires 0 <= j < |stages| => stages[j].name)
  }

  lemma {:induction false} RawPrefixIsConcat(stages: seq<Stage>, balance: real, m: nat)
    requires m <= |stages|
    ensures RawPrefix(stages, balance, m) == Concat(Runs(stages, balance), m)
    decreases m
  {
    if m > 0 {
      RawPrefixIsConcat(stages, balance, m - 1);
    }
  }

  lemma StagesRunsTagged(stages: seq<Stage>, balance: real)
    requires DistinctNames(stages)
    ensures RunsTagged(Runs(stages, balance), Names(stages))
  {
    var runs := Runs(stages, balance);
    forall j | 0 <= j < |stages| ensures TaggedAll(runs[j], stages[j].name) {
      StageProjectionFacts(stages, balance, j);
    }
  }

  /** Filtering the raw run of distinctly named stages by stage k's name gives back stage k's projection. */
  lemma OfStageOfRun(stages: seq<Stage>, balance: real, k: nat)
    requires DistinctNames(stages) && k < |stages|
    ensures OfStage(RawProjection(stages, balance), stages[k].name) == StageProjection(stages, balance, k)
  {
    RawPrefixIsConcat(stages, balance, |stages|);
    StagesRunsTagged(stages, balance);
    OfStageConcat(Runs(stages, balance), Names(stages), k, |stages|);
  }

  /** Year count of stages 1 .. m-1: the records that follow the first stage. */
  function LaterYears(stages: seq<Stage>, m: nat): nat
    requires m <= |stages|
  {
    if m <= 1 then 0 else LaterYears(stages, m - 1) + YearCount(stages[m - 1].years)
  }

  /** The total flow of a flat run of `years` years paying `monthly` a month. */
  function FlatFlow(years: int, monthly: real): real
  {
    (YearCount(years) as real) * (monthly * 12.0)
  }

  /** A flat stage's total flow: its year count times twelve monthly values. */
  function YearlyFlow(s: Stage): real
  {
    FlatFlow(s.years, s.monthlyValue)
  }

  /** Total of YearlyFlow over stages 1 .. m-1. */
  function LaterFlow(stages: seq<Stage>, m: nat): real
    requires m <= |stages|
  {
    if m <= 1 then 0.0 else LaterFlow(stages, m - 1) + YearlyFlow(stages[m - 1])
  }

  /** Runs after the first whose lengths are their stages' year counts add up to LaterYears. */
  lemma {:induction false} LaterLengthOfRuns(runs: seq<seq<AnnualProjection>>, stages: seq<Stage>, m: nat)
    requires |runs| == |stages| && m <= |stages|
    requires forall j :: 1 <= j < |runs| ==> |runs[j]| == YearCount(stages[j].years)
    ensures LaterLength(runs, m) == LaterYears(stages, m)
    decreases m
  {
    if m > 1 {
      LaterLengthOfRuns(runs, stages, m - 1);
    }
  }

  /** Runs after the first whose flows add up to their stages' yearly flows add up to LaterFlow. */
  lemma {:induction false} LaterFlowOfRuns(runs: seq<seq<AnnualProjection>>, stages: seq<Stage>, m: nat)
    requires |runs| == |stages| && m <= |stages|
    requires forall j :: 1 <= j < |runs| ==> Sum(runs[j], Flow) == YearlyFlow(stages[j])
    ensures LaterRunsFlow(runs, m) == LaterFlow(stages, m)
    decreases m
  {
    if m > 1 {
      LaterFlowOfRuns(runs, stages, m - 1);
    }
  }

  /**
    When every stage after the first keeps a flat flow, the records of the raw
    run outside the first stage number LaterYears and their flows add up to
    LaterFlow.
  */
  lemma RetirementOfRun(stages: seq<Stage>, balance: real)
    requires DistinctNames(stages) && |stages| >= 1
    requires forall k :: 1 <= k < |stages| ==> stages[k].annualIncrease == 0.0
    ensures |OutsideStage(RawProjection(stages, balance), stages[0].name)| == LaterYears(stages, |stages|)
    ensures Sum(OutsideStage(RawProjection(stages, balance), stages[0].name), Flow) == LaterFlow(stages, |stages|)
  {
    RawPrefixIsConcat(stages, balance, |stages|);
    StagesRunsTagged(stages, balance);
    OutsideFirstConcat(Runs(stages, balance), Names(stages), |stages|);
    var runs := Runs(stages, balance);
    forall j | 1 <= j < |runs|
      ensures |runs[j]| == YearCount(stages[j].years) && Sum(runs[j], Flow) == YearlyFlow(stages[j])
    {
      StageProjectionFacts(stages, balance, j);
    }
    LaterLengthOfRuns(runs, stages, |stages|);
    LaterFlowOfRuns(runs, stages, |stages|);
  }

  /** Over a nonempty prefix of a stage's projection, flow plus growth is the change in balance. */
  lemma {:induction false} PrefixTelescopes(input: GenericGrowthInput, m: nat)
    requires 0 < m <= |GrowthProjection(input)|
    ensures var gp := GrowthProjection(input);
      Sum(gp[..m], Flow) + Sum(gp[..m], Growth) == gp[m - 1].endBalance - input.currentBalance
    decreases m
  {
    var gp := GrowthProjection(input);
    GrowthProjectionObeysLaw(input);
    assert LawAt(input, gp, m - 1);
    assert gp[..m][..m - 1] == gp[..m - 1];
    if m > 1 {
      PrefixTelescopes(input, m - 1);
      assert LawAt(input, gp, m - 2);
    } else {
      assert gp[..m][..m - 1] == [];
    }
  }

  /**
    Over a whole stage, total flow plus total growth is the stage's end balance
    minus the balance it was entered with.
  */
  lemma StageTelescopes(input: GenericGrowthInput)
    requires input.years > 0
    ensures var gp := GrowthProjection(input);
      Sum(gp, Flow) + Sum(gp, Growth) == EndBalance(gp) - input.currentBalance
  {
    var gp := GrowthProjection(input);
    assert gp[..|gp|] == gp;
    PrefixTelescopes(input, |gp|);
  }

  /**
    On the raw run, each non-empty stage's final balance is the balance it was
    entered with plus its total flow and its total growth.
  */
  lemma StageSummaryBalances(p: Params, k: nat)
    requires ProjectionDefined(p) && !p.inflationAdjChoice
    requires k < 4 && FutureStages(p)[k].years > 0
    ensures var arr := SelectedProjection(p).value;
      var name := FutureStages(p)[k].name;
      FinalBalance(arr, name) ==
        StageStart(FutureStages(p), p.currentBalance, k) + TotalFlow(arr, name) + TotalGrowth(arr, name)
  {
    var stages := FutureStages(p);
    SelectedProjectionChoice(p);
    OfStageOfRun(stages, p.currentBalance, k);
    StageTelescopes(StageInput(stages[k], StageStart(stages, p.currentBalance, k)));
  }

  /** On the raw run, a flat stage's total flow is its year count times twelve monthly values. */
  lemma FlatStageTotalFlow(p: Params, k: nat)
    requires ProjectionDefined(p) && !p.inflationAdjChoice
    requires 1 <= k < 4
    ensures TotalFlow(SelectedProjection(p).value, FutureStages(p)[k].name) == YearlyFlow(FutureStages(p)[k])
  {
    var stages := FutureStages(p);
    SelectedProjectionChoice(p);
    OfStageOfRun(stages, p.currentBalance, k);
    StageProjectionFacts(stages, p.currentBalance, k);
  }

  /** On any run, the summaries read the stage filters, empty or not. */
  lemma SummariesOfRun(arr: seq<AnnualProjection>, name: string)
    ensures FinalBalance(arr, name) == EndBalance(OfStage(arr, name))
    ensures |arr| == 0 ==> Summaries(Some(arr)) == Summaries(None)
  {
    if |arr| == 0 {
      assert OfStage(arr, name) == [];
    }
  }

  /**
    On the raw run, stage k's final balance, total flow and total growth are
    those of the projection the engine computes for stage k alone.
  */
  lemma StageResults(p: Params, k: nat)
    requires ProjectionDefined(p) && !p.inflationAdjChoice && k < 4
    ensures FinalBalance(SelectedProjection(p).value, FutureStages(p)[k].name)
      == EndBalance(StageProjection(FutureStages(p), p.currentBalance, k))
    ensures TotalFlow(SelectedProjection(p).value, FutureStages(p)[k].name)
      == Sum(StageProjection(FutureStages(p), p.currentBalance, k), Flow)
    ensures TotalGrowth(SelectedProjection(p).value, FutureStages(p)[k].name)
      == Sum(StageProjection(FutureStages(p), p.currentBalance, k), Growth)
  {
    var stages := FutureStages(p);
    SelectedProjectionChoice(p);
    OfStageOfRun(stages, p.currentBalance, k);
    SummariesOfRun(SelectedProjection(p).value, stages[k].name);
  }

  /**
    On the raw run, the twelve summaries are the end balances and the flow and
    growth totals of the four stage projections the engine chains together.
  */
  lemma PlanSummaries(p: Params)
    requires ProjectionDefined(p) && !p.inflationAdjChoice
    ensures FutureProjectionResults(p).finalPreRetirementBalance == EndBalance(StageProjection(FutureStages(p), p.currentBalance, 0))
    ensures FutureProjectionResults(p).totalPreRetirementFlow == Sum(StageProjection(FutureStages(p), p.currentBalance, 0), Flow)
    ensures FutureProjectionResults(p).totalPreRetirementGrowth == Sum(StageProjection(FutureStages(p), p.currentBalance, 0), Growth)
    ensures FutureProjectionResults(p).finalGoGoBalance == EndBalance(StageProjection(FutureStages(p), p.currentBalance, 1))
    ensures FutureProjectionResults(p).totalGoGoFlow == Sum(StageProjection(FutureStages(p), p.currentBalance, 1), Flow)
    ensures FutureProjectionResults(p).totalGoGoGrowth == Sum(StageProjection(FutureStages(p), p.currentBalance, 1), Growth)
    ensures FutureProjectionResults(p).finalSlowGoBalance == EndBalance(StageProjection(FutureStages(p), p.currentBalance, 2))
    ensures FutureProjectionResults(p).totalSlowGoFlow == Sum(StageProjection(FutureStages(p), p.currentBalance, 2), Flow)
    ensures FutureProjectionResults(p).totalSlowGoGrowth == Sum(StageProjection(FutureStages(p), p.currentBalance, 2), Growth)
    ensures FutureProjectionResults(p).finalNoGoBalance == EndBalance(StageProjection(FutureStages(p), p.currentBalance, 3))
    ensures FutureProjectionResults(p).totalNoGoFlow == Sum(StageProjection(FutureStages(p), p.currentBalance, 3), Flow)
    ensures FutureProjectionResults(p).totalNoGoGrowth == Sum(StageProjection(FutureStages(p), p.currentBalance, 3), Growth)
  {
    var stages := FutureStages(p);
    var arr := SelectedProjection(p).value;
    SelectedProjectionChoice(p);
    assert FutureProjectionResults(p) == Summaries(Some(arr));
    assert stages[0].name == PreRetirementName && stages[1].name == GoGoName;
    assert stages[2].name == SlowGoName && stages[3].name == NoGoName;
    StageResults(p, 0);
    StageResults(p, 1);
    StageResults(p, 2);
    StageResults(p, 3);
    SummariesOfRun(arr, PreRetirementName);
  }

  /**
    On the raw run, each retirement phase's total flow is its year count (0
    for a negative phase) times twelve of its monthly withdrawals.
  */
  lemma PhaseTotalFlows(p: Params)
    requires ProjectionDefined(p) && !p.inflationAdjChoice
    ensures FutureProjectionResults(p).totalGoGoFlow == FlatFlow(YearsInGoGo(p), MonthlyGoGoWithdrawal(p))
    ensures FutureProjectionResults(p).totalSlowGoFlow == FlatFlow(YearsInSlowGo(p), MonthlySlowGoWithdrawal(p))
    ensures FutureProjectionResults(p).totalNoGoFlow == FlatFlow(YearsInNoGo(p), MonthlyNoGoWithdrawal(p))
  {
    SelectedProjectionChoice(p);
    var arr := SelectedProjection(p).value;
    var r := FutureProjectionResults(p);
    assert r == Summaries(Some(arr));
    assert r.totalGoGoFlow == TotalFlow(arr, GoGoName) by {
      if |arr| == 0 { assert OfStage(arr, GoGoName) == []; }
    }
    assert r.totalSlowGoFlow == TotalFlow(arr, SlowGoName) by {
      if |arr| == 0 { assert OfStage(arr, SlowGoName) == []; }
    }
    assert r.totalNoGoFlow == TotalFlow(arr, NoGoName) by {
      if |arr| == 0 { assert OfStage(arr, NoGoName) == []; }
    }
    var stages := FutureStages(p);
    FlatStageTotalFlow(p, 1);
    FlatStageTotalFlow(p, 2);
    FlatStageTotalFlow(p, 3);
    assert stages[1].years == YearsInGoGo(p) && stages[1].monthlyValue == MonthlyGoGoWithdrawal(p);
    assert stages[2].years == YearsInSlowGo(p) && stages[2].monthlyValue == MonthlySlowGoWithdrawal(p);
    assert stages[3].years == YearsInNoGo(p) && stages[3].monthlyValue == MonthlyNoGoWithdrawal(p);
  }

  /** A flat stage's flows add up to the year count times 12 times the monthly value. */
  lemma FlatStageFlow(input: GenericGrowthInput)
    requires input.increase == 0.0
    ensures Sum(GrowthProjection(input), Flow) == (YearCount(input.years) as real) * (input.monthlyValue * 12.0)
  {
    var gp := GrowthProjection(input);
    GrowthProjectionObeysLaw(input);
    forall i | 0 <= i < |gp| ensures gp[i].annualFlow == input.monthlyValue * 12.0 {
      assert LawAt(input, gp, i);
      PowOne(i + 1);
    }
    SumOfConstantFlow(gp, input.monthlyValue * 12.0);
  }

  lemma WeightedMeanArithmetic(total: real, count: nat, c1: real, c2: real, c3: real, m1: real, m2: real, m3: real)
    requires count > 0 && count as real == c1 + c2 + c3
    requires total == c1 * (m1 * 12.0) + c2 * (m2 * 12.0) + c3 * (m3 * 12.0)
    ensures MonthlyMean(total, count) == (c1 * m1 + c2 * m2 + c3 * m3) / (c1 + c2 + c3)
  {
    var m := MonthlyMean(total, count);
    var n := c1 + c2 + c3;
    var x := c1 * m1 + c2 * m2 + c3 * m3;
    assert total == 12.0 * x;
    assert m * n == x;
  }

  /** LaterYears and LaterFlow of four stages, written out. */
  lemma LaterOfFour(stages: seq<Stage>)
    requires |stages| == 4
    ensures LaterYears(stages, 4) as real ==
      (YearCount(stages[1].years) as real) + (YearCount(stages[2].years) as real) + (YearCount(stages[3].years) as real)
    ensures LaterFlow(stages, 4) == YearlyFlow(stages[1]) + YearlyFlow(stages[2]) + YearlyFlow(stages[3])
  {
    assert LaterFlow(stages, 2) == YearlyFlow(stages[1]);
    assert LaterYears(stages, 2) == YearCount(stages[1].years);
  }

  /** The mean of three monthly values weighted by the year counts of three phases. */
  function WeightedMean(y1: int, y2: int, y3: int, m1: real, m2: real, m3: real): real
    requires YearCount(y1) + YearCount(y2) + YearCount(y3) > 0
  {
    var c1 := YearCount(y1) as real;
    var c2 := YearCount(y2) as real;
    var c3 := YearCount(y3) as real;
    (c1 * m1 + c2 * m2 + c3 * m3) / (c1 + c2 + c3)
  }

  /** Spreading LaterFlow of four stages over LaterYears is the year-weighted mean of the last three monthly values. */
  lemma MeanOfFour(stages: seq<Stage>)
    requires |stages| == 4
    requires YearCount(stages[1].years) + YearCount(stages[2].years) + YearCount(stages[3].years) > 0
    ensures LaterYears(stages, 4) > 0
    ensures MonthlyMean(LaterFlow(stages, 4), LaterYears(stages, 4)) ==
      WeightedMean(stages[1].years, stages[2].years, stages[3].years,
                   stages[1].monthlyValue, stages[2].monthlyValue, stages[3].monthlyValue)
  {
    LaterOfFour(stages);
    WeightedMeanArithmetic(LaterFlow(stages, 4), LaterYears(stages, 4),
      YearCount(stages[1].years) as real, YearCount(stages[2].years) as real, YearCount(stages[3].years) as real,
      stages[1].monthlyValue, stages[2].monthlyValue, stages[3].monthlyValue);
  }

  /**
    For distinctly named stages, the first called "Pre-retirement" and the
    others flat, the average monthly withdrawal of the raw run spreads
    LaterFlow over LaterYears.
  */
  lemma AvgWithdrawalOfRun(stages: seq<Stage>, balance: real)
    requires |stages| > 0 && DistinctNames(stages) && stages[0].name == PreRetirementName
    requires forall k :: 1 <= k < |stages| ==> stages[k].annualIncrease == 0.0
    requires LaterYears(stages, |stages|) > 0
    ensures |RawProjection(stages, balance)| > 0
    ensures |OutsideStage(RawProjection(stages, balance), PreRetirementName)| > 0
    ensures AvgMonthlyWithdrawal(Some(RawProjection(stages, balance)))
      == MonthlyMean(LaterFlow(stages, |stages|), LaterYears(stages, |stages|))
  {
    RetirementOfRun(stages, balance);
    assert |RawProjection(stages, balance)| >= |OutsideStage(RawProjection(stages, balance), PreRetirementName)|;
  }

  /**
    For four distinctly named stages, the first called "Pre-retirement" and the
    others flat, with years y1, y2, y3 and monthly values m1, m2, m3, the
    average monthly withdrawal of the raw run is the mean of m1, m2, m3
    weighted by the year counts.
  */
  lemma AvgWithdrawalOfFour(stages: seq<Stage>, balance: real, y1: int, y2: int, y3: int, m1: real, m2: real, m3: real)
    requires |stages| == 4 && DistinctNames(stages) && stages[0].name == PreRetirementName
    requires forall k :: 1 <= k < 4 ==> stages[k].annualIncrease == 0.0
    requires stages[1].years == y1 && stages[2].years == y2 && stages[3].years == y3
    requires stages[1].monthlyValue == m1 && stages[2].monthlyValue == m2 && stages[3].monthlyValue == m3
    requires YearCount(y1) + YearCount(y2) + YearCount(y3) > 0
    ensures |RawProjection(stages, balance)| > 0
    ensures |OutsideStage(RawProjection(stages, balance), PreRetirementName)| > 0
    ensures AvgMonthlyWithdrawal(Some(RawProjection(stages, balance))) == WeightedMean(y1, y2, y3, m1, m2, m3)
  {
    MeanOfFour(stages);
    AvgWithdrawalOfRun(stages, balance);
    var raw := RawProjection(stages, balance);
    assert AvgMonthlyWithdrawal(Some(raw)) == MonthlyMean(LaterFlow(stages, 4), LaterYears(stages, 4));
  }

  /**
    On the raw run, the average monthly withdrawal is the mean of the three
    phases' monthly withdrawals weighted by their year counts.
  */
  lemma AvgWithdrawalIsWeightedMean(p: Params)
    requires ProjectionDefined(p) && !p.inflationAdjChoice
    requires YearCount(YearsInGoGo(p)) + YearCount(YearsInSlowGo(p)) + YearCount(YearsInNoGo(p)) > 0
    ensures SelectedProjection(p).Some? && |SelectedProjection(p).value| > 0
    ensures |OutsideStage(SelectedProjection(p).value, PreRetirementName)| > 0
    ensures AvgMonthlyWithdrawal(SelectedProjection(p)) ==
      WeightedMean(YearsInGoGo(p), YearsInSlowGo(p), YearsInNoGo(p),
                   MonthlyGoGoWithdrawal(p), MonthlySlowGoWithdrawal(p), MonthlyNoGoWithdrawal(p))
  {
    var stages := FutureStages(p);
    SelectedProjectionChoice(p);
    AvgWithdrawalOfFour(stages, p.currentBalance, YearsInGoGo(p), YearsInSlowGo(p), YearsInNoGo(p),
      MonthlyGoGoWithdrawal(p), MonthlySlowGoWithdrawal(p), MonthlyNoGoWithdrawal(p));
  }
}
