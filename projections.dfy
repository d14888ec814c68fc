/**
  The compound-growth projection engine.

  A stage projector turns one stage (a growth rate, a number of years, a monthly
  flow and a yearly escalation of that flow) into one record per year; the
  assembler chains the stages, each starting from the end balance of the one
  before, and derives an inflation-adjusted copy of the whole run by dividing
  every figure of the record at position i by 1 + i * inflation / 100.

  Numbers are `real`: the engine never rounds, so exact arithmetic is the
  intended meaning of its floating-point code.
*/
module Projections {

  import opened Wrappers

  /** One stage of the plan, as handed to the assembler. */
  datatype Stage = Stage(
    name: string,
    growth: real,          // percent per year, e.g. 7.0 for 7%
    years: int,
    monthlyValue: real,    // positive: contribution, negative: withdrawal
    annualIncrease: real   // percent per year by which the flow escalates
  )

  /** The assembler's input. */
  datatype GrowthFactors = GrowthFactors(
    currentBalance: real,
    annualInflation: real, // percent per year
    stages: seq<Stage>
  )

  /** The stage projector's input. */
  datatype GenericGrowthInput = GenericGrowthInput(
    stage: string,
    currentBalance: real,
    growthRate: real,
    years: int,
    monthlyValue: real,
    increase: real
  )

  /** One year of a projection. */
  datatype AnnualProjection = AnnualProjection(
    year: int,
    stage: string,
    startBalance: real,
    endBalance: real,
    annualFlow: real,
    totalGrowth: real
  )

  /** The assembler's output: two slots that may be unset. */
  datatype FullProjection = FullProjection(
    raw: Option<seq<AnnualProjection>>,
    inflationAdjusted: Option<seq<AnnualProjection>>
  )

  // ---------------------------------------------------------------------------
  // Stage projector
  // ---------------------------------------------------------------------------

  /** How many times `for (year = 1; year <= years; year++)` runs. */
  function YearCount(years: int): (n: nat)
    ensures years <= 0 ==> n == 0
    ensures years > 0 ==> n == years
  {
    if years <= 0 then 0 else years
  }

  function Pow(x: real, n: nat): real
    decreases n
  {
    if n == 0 then 1.0 else x * Pow(x, n - 1)
  }

  /** Factor applied to the balance each year. */
  function GrowthMultiplier(input: GenericGrowthInput): real
  {
    1.0 + input.growthRate / 100.0
  }

  /** Factor applied to the annual flow each year, before it is added. */
  function EscalationMultiplier(input: GenericGrowthInput): real
  {
    1.0 + input.increase / 100.0
  }

  /**
    One pass of the yearly loop, entered with `balance` and with last year's
    flow `previousFlow`: escalate the flow, add it, then apply growth.
  */
  function NextYear(input: GenericGrowthInput, year: int, balance: real, previousFlow: real): AnnualProjection
  {
    var annualFlow := previousFlow * EscalationMultiplier(input);
    var endBalance := (balance + annualFlow) * GrowthMultiplier(input);
    AnnualProjection(year, input.stage, balance, endBalance, annualFlow, endBalance - balance - annualFlow)
  }

  /**
    The records of `n` consecutive years numbered from `year`, the first entered
    with `balance` and with last year's flow equal to `flow`.
  */
  function ProjectYears(input: GenericGrowthInput, year: int, n: nat, balance: real, flow: real)
    : (rs: seq<AnnualProjection>)
    ensures |rs| == n
    decreases n
  {
    if n == 0 then []
    else
      var r := NextYear(input, year, balance, flow);
      [r] + ProjectYears(input, year + 1, n - 1, r.endBalance, r.annualFlow)
  }

  /** What the stage projector returns for `input`. */
  function GrowthProjection(input: GenericGrowthInput): seq<AnnualProjection>
  {
    ProjectYears(input, 1, YearCount(input.years), input.currentBalance, input.monthlyValue * 12.0)
  }

  /**
    A year's balances: the end balance is the start plus the flow, grown once,
    and growth is what the change in balance holds beyond the flow.
  */
  predicate YearBalances(input: GenericGrowthInput, r: AnnualProjection)
  {
    && r.endBalance == (r.startBalance + r.annualFlow) * GrowthMultiplier(input)
    && r.totalGrowth == r.endBalance - r.startBalance - r.annualFlow
  }

  /**
    The projector's law, stated record by record: as many records as the loop
    runs; record k is numbered k + 1 and tagged with the stage; its flow is the
    monthly value times 12 escalated k + 1 times; its balances obey
    `YearBalances`; the first year starts from the input balance and every later
    year from the end of the year before.
  */
  ghost predicate IsGrowthProjection(input: GenericGrowthInput, rs: seq<AnnualProjection>)
  {
    |rs| == YearCount(input.years) && forall k :: 0 <= k < |rs| ==> LawAt(input, rs, k)
  }

  /** The law's demands on record k of `rs`. */
  ghost predicate LawAt(input: GenericGrowthInput, rs: seq<AnnualProjection>, k: nat)
    requires k < |rs|
  {
    && rs[k].year == k + 1
    && rs[k].stage == input.stage
    && rs[k].annualFlow == input.monthlyValue * 12.0 * Pow(EscalationMultiplier(input), k + 1)
    && YearBalances(input, rs[k])
    && (k == 0 ==> rs[k].startBalance == input.currentBalance)
    && (k + 1 < |rs| ==> rs[k + 1].startBalance == rs[k].endBalance)
  }

  /** A year's flow is the flow of the year before, escalated once. */
  predicate Escalated(input: GenericGrowthInput, previousFlow: real, r: AnnualProjection)
  {
    r.annualFlow == previousFlow * EscalationMultiplier(input)
  }

  /** The first record of `ProjectYears` and the run that follows it. */
  lemma ProjectYearsHead(input: GenericGrowthInput, year: int, n: nat, balance: real, flow: real)
    requires n > 0
    ensures var rs := ProjectYears(input, year, n, balance, flow);
      && rs[0] == NextYear(input, year, balance, flow)
      && rs[1..] == ProjectYears(input, year + 1, n - 1, rs[0].endBalance, rs[0].annualFlow)
  {
  }

  /** Every pass of the loop escalates the flow once and keeps a year's balances consistent. */
  lemma NextYearBalances(input: GenericGrowthInput, year: int, balance: real, previousFlow: real)
    ensures Escalated(input, previousFlow, NextYear(input, year, balance, previousFlow))
    ensures YearBalances(input, NextYear(input, year, balance, previousFlow))
  {
  }

  /** Record k of `ProjectYears`: its number, its tag, its balances and where its balance comes from. */
  lemma {:induction false} ProjectYearsAt(input: GenericGrowthInput, year: int, n: nat, balance: real,
                                          flow: real, k: nat)
    requires k < n
    ensures var rs := ProjectYears(input, year, n, balance, flow);
      && rs[k].year == year + k
      && rs[k].stage == input.stage
      && YearBalances(input, rs[k])
      && (k == 0 ==> rs[k].startBalance == balance && Escalated(input, flow, rs[k]))
      && (k + 1 < n ==> rs[k + 1].startBalance == rs[k].endBalance
                        && Escalated(input, rs[k].annualFlow, rs[k + 1]))
    decreases n
  {
    var rs := ProjectYears(input, year, n, balance, flow);
    ProjectYearsHead(input, year, n, balance, flow);
    var tail := rs[1..];
    if k == 0 {
      NextYearBalances(input, year, balance, flow);
      if 1 < n {
        ProjectYearsHead(input, year + 1, n - 1, rs[0].endBalance, rs[0].annualFlow);
        NextYearBalances(input, year + 1, rs[0].endBalance, rs[0].annualFlow);
        assert rs[1] == tail[0];
      }
    } else {
      ProjectYearsAt(input, year + 1, n - 1, rs[0].endBalance, rs[0].annualFlow, k - 1);
      assert rs[k] == tail[k - 1];
      if k + 1 < n {
        assert rs[k + 1] == tail[k];
      }
    }
  }

  /** A flow escalated once, then k more times, is escalated k + 1 times. */
  lemma PowStep(flow: real, q: real, k: nat, first: real, later: real)
    requires first == flow * q
    requires later == first * Pow(q, k)
    ensures later == flow * Pow(q, k + 1)
  {
    assert Pow(q, k + 1) == q * Pow(q, k);
    assert later == flow * (q * Pow(q, k));
  }

  /** Every record's flow is the flow before it (`flow` for the first) times `q`. */
  predicate EscalatesFrom(rs: seq<AnnualProjection>, flow: real, q: real)
    decreases |rs|
  {
    |rs| > 0 ==> rs[0].annualFlow == flow * q && EscalatesFrom(rs[1..], rs[0].annualFlow, q)
  }

  /** A chain of escalations from `flow` puts `flow` escalated k + 1 times in record k. */
  lemma {:induction false} EscalatedFlows(rs: seq<AnnualProjection>, flow: real, q: real, k: nat)
    requires EscalatesFrom(rs, flow, q) && k < |rs|
    ensures rs[k].annualFlow == flow * Pow(q, k + 1)
    decreases k
  {
    var first := rs[0].annualFlow;
    if k == 0 {
      PowStep(flow, q, 0, first, first);
    } else {
      EscalatedFlows(rs[1..], first, q, k - 1);
      assert rs[k] == rs[1..][k - 1];
      PowStep(flow, q, k, first, rs[k].annualFlow);
    }
  }

  /** The records of `ProjectYears` form a chain of escalations from `flow`. */
  lemma {:induction false} ProjectYearsEscalate(input: GenericGrowthInput, year: int, n: nat, balance: real,
                                                flow: real)
    ensures EscalatesFrom(ProjectYears(input, year, n, balance, flow), flow, EscalationMultiplier(input))
    decreases n
  {
    if n > 0 {
      var rs := ProjectYears(input, year, n, balance, flow);
      ProjectYearsHead(input, year, n, balance, flow);
      ProjectYearsEscalate(input, year + 1, n - 1, rs[0].endBalance, rs[0].annualFlow);
    }
  }

  /** The flow of record k of `ProjectYears`: the entry flow escalated k + 1 times. */
  lemma ProjectYearsFlow(input: GenericGrowthInput, year: int, n: nat, balance: real, flow: real, k: nat)
    requires k < n
    ensures ProjectYears(input, year, n, balance, flow)[k].annualFlow
            == flow * Pow(EscalationMultiplier(input), k + 1)
  {
    ProjectYearsEscalate(input, year, n, balance, flow);
    EscalatedFlows(ProjectYears(input, year, n, balance, flow), flow, EscalationMultiplier(input), k);
  }

  /** Any two sequences obeying the law agree on every start balance. */
  lemma {:induction false} LawFixesStartBalance(input: GenericGrowthInput, a: seq<AnnualProjection>,
                                                b: seq<AnnualProjection>, k: nat)
    requires IsGrowthProjection(input, a) && IsGrowthProjection(input, b)
    requires k < |a|
    ensures a[k].startBalance == b[k].startBalance
    decreases k
  {
    if k > 0 {
      LawFixesStartBalance(input, a, b, k - 1);
      assert LawAt(input, a, k - 1) && LawAt(input, b, k - 1);
    } else {
      assert LawAt(input, a, 0) && LawAt(input, b, 0);
    }
  }

  /** The projector's output obeys the law. */
  lemma GrowthProjectionObeysLaw(input: GenericGrowthInput)
    ensures IsGrowthProjection(input, GrowthProjection(input))
  {
    var gp := GrowthProjection(input);
    var flow := input.monthlyValue * 12.0;
    forall k | 0 <= k < |gp| ensures LawAt(input, gp, k) {
      ProjectYearsAt(input, 1, YearCount(input.years), input.currentBalance, flow, k);
      ProjectYearsFlow(input, 1, YearCount(input.years), input.currentBalance, flow, k);
    }
  }

  /** A sequence that obeys the law is the projector's output. */
  lemma LawDeterminesProjection(input: GenericGrowthInput, rs: seq<AnnualProjection>)
    requires IsGrowthProjection(input, rs)
    ensures rs == GrowthProjection(input)
  {
    var gp := GrowthProjection(input);
    GrowthProjectionObeysLaw(input);
    forall k | 0 <= k < |rs| ensures rs[k] == gp[k] {
      LawFixesStartBalance(input, rs, gp, k);
      assert LawAt(input, rs, k) && LawAt(input, gp, k);
    }
  }

  /**
    The law characterises the projector's output: a sequence obeys it exactly
    when it is what the projector returns.
  */
  lemma GrowthProjectionCharacterized(input: GenericGrowthInput, rs: seq<AnnualProjection>)
    ensures IsGrowthProjection(input, rs) <==> rs == GrowthProjection(input)
  {
    GrowthProjectionObeysLaw(input);
    if IsGrowthProjection(input, rs) {
      LawDeterminesProjection(input, rs);
    }
  }

  /** The stage projector: a yearly loop carrying the balance and the flow. */
  method GenerateGenericGrowthProjection(input: GenericGrowthInput) returns (results: seq<AnnualProjection>)
    ensures results == GrowthProjection(input)
    ensures IsGrowthProjection(input, results)
  {
    results := [];
    var balance := input.currentBalance;
    var annualRate := input.growthRate / 100.0;
    var increaseDecimal := input.increase / 100.0;
    // monthly flows to annual flows
    var annualFlow := input.monthlyValue * 12.0;
    var year := 1;
    while year <= input.years
      invariant 1 <= year <= YearCount(input.years) + 1
      invariant results + ProjectYears(input, year, YearCount(input.years) - (year - 1), balance, annualFlow)
                == GrowthProjection(input)
      decreases input.years - year
    {
      ghost var remaining := YearCount(input.years) - (year - 1);
      ghost var previousFlow := annualFlow;
      var startBalance := balance;
      // flow adjustment: raise contributions or inflation-adjust withdrawals
      annualFlow := annualFlow * (1.0 + increaseDecimal);
      // apply the year's contribution or withdrawal, then growth
      balance := balance + annualFlow;
      balance := balance * (1.0 + annualRate);
      var endBalance := balance;
      var record := AnnualProjection(year, input.stage, startBalance, endBalance, annualFlow,
                                     endBalance - startBalance - annualFlow);
      assert record == NextYear(input, year, startBalance, previousFlow);
      ProjectYearsHead(input, year, remaining, startBalance, previousFlow);
      ghost var rest := ProjectYears(input, year, remaining, startBalance, previousFlow);
      ghost var tail := ProjectYears(input, year + 1, remaining - 1, balance, annualFlow);
      assert rest == [record] + tail;
      assert results + rest == (results + [record]) + tail;
      results := results + [record];
      year := year + 1;
    }
    GrowthProjectionCharacterized(input, results);
  }

  /**
    A worked example: start 1000, growth 10%, 100 a month, no
    escalation gives 2420 after year 1 and 3982 after year 2.
  */
  lemma WorkedExample()
    ensures GrowthProjection(GenericGrowthInput("s", 1000.0, 10.0, 2, 100.0, 0.0)) ==
      [ AnnualProjection(1, "s", 1000.0, 2420.0, 1200.0, 220.0),
        AnnualProjection(2, "s", 2420.0, 3982.0, 1200.0, 362.0) ]
  {
    var input := GenericGrowthInput("s", 1000.0, 10.0, 2, 100.0, 0.0);
    assert EscalationMultiplier(input) == 1.0;
    assert GrowthMultiplier(input) == 1.1;
    assert ProjectYears(input, 3, 0, 3982.0, 1200.0) == [];
  }

  lemma {:induction false} PowOne(n: nat)
    ensures Pow(1.0, n) == 1.0
    decreases n
  {
    if n > 0 { PowOne(n - 1); }
  }

  /**
    A withdrawal with no growth and no escalation lowers the balance strictly
    every year.
  */
  lemma WithdrawalDepletes(input: GenericGrowthInput, k: nat)
    requires input.growthRate == 0.0 && input.increase == 0.0 && input.monthlyValue < 0.0
    requires k < |GrowthProjection(input)|
    ensures GrowthProjection(input)[k].endBalance < GrowthProjection(input)[k].startBalance
  {
    GrowthProjectionObeysLaw(input);
    assert LawAt(input, GrowthProjection(input), k);
    PowOne(k + 1);
  }

  // ---------------------------------------------------------------------------
  // Projection assembler
  // ---------------------------------------------------------------------------

  /** The end balance of a stage's last record, or 0 when it has none. */
  function EndBalance(projections: seq<AnnualProjection>): real
  {
    if |projections| > 0 then projections[|projections| - 1].endBalance else 0.0
  }

  /** The projector input the assembler builds for stage `s` entered with `balance`. */
  function StageInput(s: Stage, balance: real): GenericGrowthInput
  {
    GenericGrowthInput(s.name, balance, s.growth, s.years, s.monthlyValue, s.annualIncrease)
  }

  /** The balance stage `k` is entered with: the run's start for stage 0, else the end of stage k - 1. */
  function StageStart(stages: seq<Stage>, balance: real, k: nat): real
    requires k <= |stages|
    decreases k, 0
  {
    if k == 0 then balance else EndBalance(StageProjection(stages, balance, k - 1))
  }

  /** The records stage `k` contributes to the raw run. */
  function StageProjection(stages: seq<Stage>, balance: real, k: nat): seq<AnnualProjection>
    requires k < |stages|
    decreases k, 1
  {
    GrowthProjection(StageInput(stages[k], StageStart(stages, balance, k)))
  }

  /** The raw records of the first `k` stages, in stage order. */
  function RawPrefix(stages: seq<Stage>, balance: real, k: nat): seq<AnnualProjection>
    requires k <= |stages|
    decreases k
  {
    if k == 0 then [] else RawPrefix(stages, balance, k - 1) + StageProjection(stages, balance, k - 1)
  }

  /** The raw run over all stages. */
  function RawProjection(stages: seq<Stage>, balance: real): seq<AnnualProjection>
  {
    RawPrefix(stages, balance, |stages|)
  }

  /** How many records the first `k` stages produce: the sum of their year counts. */
  function Offset(stages: seq<Stage>, k: nat): nat
    requires k <= |stages|
    decreases k
  {
    if k == 0 then 0 else Offset(stages, k - 1) + YearCount(stages[k - 1].years)
  }

  function TotalYears(stages: seq<Stage>): nat
  {
    Offset(stages, |stages|)
  }

  /** The divisor applied to the record at position `i` of the run. */
  function InflationFactor(i: nat, annualInflation: real): real
  {
    1.0 + (i as real) * (annualInflation / 100.0)
  }

  /** No record among the first `n` would be divided by zero. */
  predicate NonzeroFactors(annualInflation: real, n: nat)
  {
    forall i: nat :: i < n ==> InflationFactor(i, annualInflation) != 0.0
  }

  /** Record `p` with its four figures divided by `factor`; year and stage kept. */
  function Deflated(p: AnnualProjection, factor: real): AnnualProjection
    requires factor != 0.0
  {
    p.(startBalance := p.startBalance / factor,
       endBalance := p.endBalance / factor,
       annualFlow := p.annualFlow / factor,
       totalGrowth := p.totalGrowth / factor)
  }

  /** Record `p` with its four figures multiplied by `factor`. */
  function Inflated(p: AnnualProjection, factor: real): AnnualProjection
  {
    p.(startBalance := p.startBalance * factor,
       endBalance := p.endBalance * factor,
       annualFlow := p.annualFlow * factor,
       totalGrowth := p.totalGrowth * factor)
  }

  /** The inflation-adjusted copy of a raw run. */
  function Deflate(raw: seq<AnnualProjection>, annualInflation: real): (adjusted: seq<AnnualProjection>)
    requires NonzeroFactors(annualInflation, |raw|)
    ensures |adjusted| == |raw|
    ensures forall i :: 0 <= i < |raw| ==>
      adjusted[i].year == raw[i].year && adjusted[i].stage == raw[i].stage
  {
    seq(|raw|, i requires 0 <= i < |raw| => Deflated(raw[i], InflationFactor(i, annualInflation)))
  }

  /** Back from the inflation-adjusted run to nominal figures. */
  function Reinflate(adjusted: seq<AnnualProjection>, annualInflation: real): seq<AnnualProjection>
  {
    seq(|adjusted|, i requires 0 <= i < |adjusted| => Inflated(adjusted[i], InflationFactor(i, annualInflation)))
  }

  /** What the assembler returns for `factors`. */
  function Assemble(factors: GrowthFactors): FullProjection
    requires NonzeroFactors(factors.annualInflation, TotalYears(factors.stages))
  {
    var raw := RawProjection(factors.stages, factors.currentBalance);
    RawPrefixLength(factors.stages, factors.currentBalance, |factors.stages|);
    FullProjection(Some(raw), Some(Deflate(raw, factors.annualInflation)))
  }

  lemma {:induction false} RawPrefixLength(stages: seq<Stage>, balance: real, k: nat)
    requires k <= |stages|
    ensures |RawPrefix(stages, balance, k)| == Offset(stages, k)
    decreases k
  {
    if k > 0 {
      RawPrefixLength(stages, balance, k - 1);
      var s := StageInput(stages[k - 1], StageStart(stages, balance, k - 1));
      GrowthProjectionCharacterized(s, GrowthProjection(s));
    }
  }

  /** The raw run has one record per year of every stage, so none for an empty stage list. */
  lemma RawLength(stages: seq<Stage>, balance: real)
    ensures |RawProjection(stages, balance)| == TotalYears(stages)
    ensures stages == [] ==> RawProjection(stages, balance) == []
  {
    RawPrefixLength(stages, balance, |stages|);
  }

  /** A longer prefix of the run starts with a shorter one. */
  lemma {:induction false} RawPrefixExtends(stages: seq<Stage>, balance: real, k: nat, m: nat)
    requires k <= m <= |stages|
    ensures Offset(stages, k) <= |RawPrefix(stages, balance, m)|
    ensures RawPrefix(stages, balance, m)[..Offset(stages, k)] == RawPrefix(stages, balance, k)
    decreases m
  {
    RawPrefixLength(stages, balance, k);
    RawPrefixLength(stages, balance, m);
    if k < m {
      RawPrefixExtends(stages, balance, k, m - 1);
      RawPrefixLength(stages, balance, m - 1);
      var prev := RawPrefix(stages, balance, m - 1);
      assert RawPrefix(stages, balance, m)[..|prev|] == prev;
      assert RawPrefix(stages, balance, m)[..Offset(stages, k)] == prev[..Offset(stages, k)];
    } else {
      assert RawPrefix(stages, balance, m)[..|RawPrefix(stages, balance, m)|] == RawPrefix(stages, balance, m);
    }
  }

  /**
    The raw run is the concatenation, in stage order, of each stage's
    projection: stage k's records occupy positions Offset(k) up to Offset(k + 1).
  */
  lemma StageSegment(stages: seq<Stage>, balance: real, k: nat)
    requires k < |stages|
    ensures Offset(stages, k + 1) <= |RawProjection(stages, balance)|
    ensures RawProjection(stages, balance)[Offset(stages, k)..Offset(stages, k + 1)]
            == StageProjection(stages, balance, k)
  {
    RawPrefixExtends(stages, balance, k + 1, |stages|);
    RawPrefixLength(stages, balance, k);
    var raw := RawProjection(stages, balance);
    var upTo := RawPrefix(stages, balance, k + 1);
    assert raw[Offset(stages, k)..Offset(stages, k + 1)] == upTo[Offset(stages, k)..];
  }

  /**
    Record j of stage k in the raw run: numbered j + 1 (numbering restarts in
    every stage), tagged with the stage's name, and equal to the stage's own
    projection at j.
  */
  lemma StageRecord(stages: seq<Stage>, balance: real, k: nat, j: nat)
    requires k < |stages| && j < YearCount(stages[k].years)
    ensures Offset(stages, k) + j < |RawProjection(stages, balance)|
    ensures RawProjection(stages, balance)[Offset(stages, k) + j] == StageProjection(stages, balance, k)[j]
    ensures RawProjection(stages, balance)[Offset(stages, k) + j].year == j + 1
    ensures RawProjection(stages, balance)[Offset(stages, k) + j].stage == stages[k].name
  {
    StageSegment(stages, balance, k);
    var s := StageInput(stages[k], StageStart(stages, balance, k));
    GrowthProjectionObeysLaw(s);
    assert LawAt(s, GrowthProjection(s), j);
    var raw := RawProjection(stages, balance);
    assert raw[Offset(stages, k) + j] == raw[Offset(stages, k)..Offset(stages, k + 1)][j];
  }

  /** The first stage starts from the run's starting balance. */
  lemma FirstStageStart(stages: seq<Stage>, balance: real)
    requires |stages| > 0 && stages[0].years > 0
    ensures |RawProjection(stages, balance)| > 0
    ensures RawProjection(stages, balance)[0].startBalance == balance
  {
    StageRecord(stages, balance, 0, 0);
    var s := StageInput(stages[0], balance);
    GrowthProjectionCharacterized(s, GrowthProjection(s));
  }

  /**
    Stage chaining: a later stage starts from the last end balance of the stage
    before it, or from 0 when that stage produced no records.
  */
  lemma ChainedStart(stages: seq<Stage>, balance: real, k: nat)
    requires 0 < k < |stages| && stages[k].years > 0
    ensures Offset(stages, k) < |RawProjection(stages, balance)|
    ensures var raw := RawProjection(stages, balance);
      raw[Offset(stages, k)].startBalance ==
        if stages[k - 1].years > 0 then raw[Offset(stages, k) - 1].endBalance else 0.0
  {
    StageRecord(stages, balance, k, 0);
    var s := StageInput(stages[k], StageStart(stages, balance, k));
    GrowthProjectionCharacterized(s, GrowthProjection(s));
    if stages[k - 1].years > 0 {
      StageRecord(stages, balance, k - 1, YearCount(stages[k - 1].years) - 1);
      var prev := StageInput(stages[k - 1], StageStart(stages, balance, k - 1));
      GrowthProjectionCharacterized(prev, GrowthProjection(prev));
    } else {
      EmptyStageResetsBalance(stages, balance, k - 1);
    }
  }

  /** An empty stage does not pass the balance through: the next stage is entered with 0. */
  lemma EmptyStageResetsBalance(stages: seq<Stage>, balance: real, k: nat)
    requires k + 1 < |stages| && stages[k].years <= 0
    ensures StageStart(stages, balance, k + 1) == 0.0
  {
    var s := StageInput(stages[k], StageStart(stages, balance, k));
    GrowthProjectionCharacterized(s, GrowthProjection(s));
  }

  /** Inflation of zero or more never makes a factor vanish. */
  lemma NonnegativeInflationIsSafe(annualInflation: real, n: nat)
    requires annualInflation >= 0.0
    ensures NonzeroFactors(annualInflation, n)
  {
    forall i: nat | i < n ensures InflationFactor(i, annualInflation) >= 1.0 {
      assert (i as real) * (annualInflation / 100.0) >= 0.0;
    }
  }

  lemma InflatedDeflated(p: AnnualProjection, factor: real)
    requires factor != 0.0
    ensures Inflated(Deflated(p, factor), factor) == p
  {
    assert p.startBalance / factor * factor == p.startBalance;
    assert p.endBalance / factor * factor == p.endBalance;
    assert p.annualFlow / factor * factor == p.annualFlow;
    assert p.totalGrowth / factor * factor == p.totalGrowth;
  }

  /** Multiplying each adjusted record back by its factor gives the raw run again. */
  lemma ReinflateDeflate(raw: seq<AnnualProjection>, annualInflation: real)
    requires NonzeroFactors(annualInflation, |raw|)
    ensures Reinflate(Deflate(raw, annualInflation), annualInflation) == raw
  {
    var back := Reinflate(Deflate(raw, annualInflation), annualInflation);
    forall i | 0 <= i < |raw| ensures back[i] == raw[i] {
      InflatedDeflated(raw[i], InflationFactor(i, annualInflation));
    }
  }

  /** The first adjusted record is the first raw record: its factor is 1. */
  lemma DeflateFirstUnchanged(raw: seq<AnnualProjection>, annualInflation: real)
    requires |raw| > 0 && NonzeroFactors(annualInflation, |raw|)
    ensures Deflate(raw, annualInflation)[0] == raw[0]
  {
    assert InflationFactor(0, annualInflation) == 1.0;
  }

  function Abs(x: real): real { if x < 0.0 then -x else x }

  /** |x / f| < |x| for a nonzero x and a factor above 1. */
  lemma DividedShrinks(x: real, f: real)
    requires f > 1.0 && x != 0.0
    ensures Abs(x / f) < Abs(x)
  {
    var y := x / f;
    var d := f - 1.0;
    assert x == y * f;
    assert y * f == y + y * d;
    if x > 0.0 {
      assert y > 0.0;
      assert y * d > 0.0;
    } else {
      assert y < 0.0;
      assert y * d < 0.0;
    }
  }

  /**
    With positive inflation, every nonzero figure after the first year is
    strictly smaller in magnitude once adjusted.
  */
  lemma DeflateShrinks(raw: seq<AnnualProjection>, annualInflation: real, i: nat)
    requires annualInflation > 0.0 && 0 < i < |raw|
    requires NonzeroFactors(annualInflation, |raw|)
    ensures var adj := Deflate(raw, annualInflation)[i];
      && (raw[i].startBalance != 0.0 ==> Abs(adj.startBalance) < Abs(raw[i].startBalance))
      && (raw[i].endBalance != 0.0 ==> Abs(adj.endBalance) < Abs(raw[i].endBalance))
      && (raw[i].annualFlow != 0.0 ==> Abs(adj.annualFlow) < Abs(raw[i].annualFlow))
      && (raw[i].totalGrowth != 0.0 ==> Abs(adj.totalGrowth) < Abs(raw[i].totalGrowth))
  {
    var f := InflationFactor(i, annualInflation);
    assert (i as real) * (annualInflation / 100.0) > 0.0;
    assert f > 1.0;
    var p := raw[i];
    if p.startBalance != 0.0 { DividedShrinks(p.startBalance, f); }
    if p.endBalance != 0.0 { DividedShrinks(p.endBalance, f); }
    if p.annualFlow != 0.0 { DividedShrinks(p.annualFlow, f); }
    if p.totalGrowth != 0.0 { DividedShrinks(p.totalGrowth, f); }
  }

  /**
    Both slots of the assembled projection are set, hold one record per year of
    every stage, and agree on the year and stage at every position.
  */
  lemma AssembleShape(factors: GrowthFactors)
    requires NonzeroFactors(factors.annualInflation, TotalYears(factors.stages))
    ensures var fp := Assemble(factors);
      && fp.raw.Some? && fp.inflationAdjusted.Some?
      && |fp.raw.value| == |fp.inflationAdjusted.value| == TotalYears(factors.stages)
      && (forall i :: 0 <= i < |fp.raw.value| ==>
            fp.inflationAdjusted.value[i].year == fp.raw.value[i].year
            && fp.inflationAdjusted.value[i].stage == fp.raw.value[i].stage)
  {
    RawLength(factors.stages, factors.currentBalance);
  }

  /** The assembler: chains the stages, then derives the inflation-adjusted copy. */
  method PrepareGrowthProjection(factors: GrowthFactors) returns (completeProjection: FullProjection)
    requires NonzeroFactors(factors.annualInflation, TotalYears(factors.stages))
    ensures completeProjection == Assemble(factors)
  {
    completeProjection := FullProjection(None, None);

    // raw projection
    var balance := factors.currentBalance;
    var rawProjection: seq<AnnualProjection> := [];
    var i := 0;
    while i < |factors.stages|
      invariant 0 <= i <= |factors.stages|
      invariant balance == StageStart(factors.stages, factors.currentBalance, i)
      invariant rawProjection == RawPrefix(factors.stages, factors.currentBalance, i)
    {
      var s := factors.stages[i];
      var proj := GenerateGenericGrowthProjection(StageInput(s, balance));
      rawProjection := rawProjection + proj;
      balance := EndBalance(proj);
      i := i + 1;
    }
    completeProjection := completeProjection.(raw := Some(rawProjection));

    RawLength(factors.stages, factors.currentBalance);
    var inflAdjProjection := Deflate(rawProjection, factors.annualInflation);
    completeProjection := completeProjection.(inflationAdjusted := Some(inflAdjProjection));
  }
}
