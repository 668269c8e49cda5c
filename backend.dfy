/** The prediction service: the banding of a model score, the fallback used
    when the model fails, the derived fields of a customer record, and the
    in-memory customer table with its lookup, insert and two summaries. The
    trained model itself is a parameter. */
module Backend {

  import opened Wrappers
  import opened Text

  /** The 23 model inputs of a customer (`CustomerData`). */
  datatype Features = Features(
    limitBal: real, sex: int, education: int, marriage: int, age: int,
    pay0: int, pay2: int, pay3: int, pay4: int, pay5: int, pay6: int,
    billAmt1: real, billAmt2: real, billAmt3: real, billAmt4: real, billAmt5: real, billAmt6: real,
    payAmt1: real, payAmt2: real, payAmt3: real, payAmt4: real, payAmt5: real, payAmt6: real)

  /** A row of `CUSTOMERS_DB`. */
  datatype CustomerRecord = CustomerRecord(id: int, name: string, accountNumber: string, features: Features)

  /** The body of `POST /customers`. */
  datatype NewCustomer = NewCustomer(name: string, accountNumber: string, features: Features)

  /** The trained model: the probability of default it gives a customer, or
      `None` when `compute_prediction` raises (model not loaded, bad input). */
  type Scorer = Features -> Option<real>

  /** `(risk_score, level, action, reason)`. */
  datatype Assessment = Assessment(riskScore: real, riskLevel: string, recommendedAction: string, reason: string)

  /** An HTTP answer: a JSON body with a status, or an `{"error": ...}` body. */
  datatype Response<T> = Success(status: nat, value: T) | Failure(status: nat, message: string)

  const RiskSuffix: string := " RISK"
  const LowLevel: string := "LOW" + RiskSuffix
  const MediumLevel: string := "MEDIUM" + RiskSuffix
  const HighLevel: string := "HIGH" + RiskSuffix

  /** The banding at the end of `compute_prediction`: below 0.3 low, below 0.7
      medium, high from 0.7 on, each with its own action and reason. */
  function Band(score: real): (a: Assessment)
    ensures a.riskScore == score
    ensures a.riskLevel == LowLevel <==> score < 0.3
    ensures a.riskLevel == MediumLevel <==> 0.3 <= score < 0.7
    ensures a.riskLevel == HighLevel <==> score >= 0.7
    ensures a.riskLevel == LowLevel ==>
      a.recommendedAction == "Approve normally" && a.reason == "Customer shows stable repayment behaviour"
    ensures a.riskLevel == MediumLevel ==>
      a.recommendedAction == "Approve with caution" && a.reason == "Customer has moderate risk indicators"
    ensures a.riskLevel == HighLevel ==>
      a.recommendedAction == "Manual review required" && a.reason == "Customer shows strong default signals"
  {
    if score < 0.3 then
      Assessment(score, LowLevel, "Approve normally", "Customer shows stable repayment behaviour")
    else if score < 0.7 then
      Assessment(score, MediumLevel, "Approve with caution", "Customer has moderate risk indicators")
    else
      Assessment(score, HighLevel, "Manual review required", "Customer shows strong default signals")
  }

  /** The band never falls as the score rises. */
  lemma BandMonotone(s: real, t: real)
    requires s <= t
    ensures Band(s).riskLevel == HighLevel ==> Band(t).riskLevel == HighLevel
    ensures Band(t).riskLevel == LowLevel ==> Band(s).riskLevel == LowLevel
  {
  }

  /** `compute_prediction`: the model's score, banded. */
  function ComputePrediction(scorer: Scorer, f: Features): (r: Option<Assessment>)
    ensures r.None? <==> scorer(f).None?
    ensures r.Some? ==> r.value == Band(scorer(f).value)
  {
    match scorer(f)
    case None => None
    case Some(score) => Some(Band(score))
  }

  /** What `predict_customer_risk` returns when the model raises. */
  const Fallback: Assessment :=
    Assessment(0.5, MediumLevel, "Review required", "Prediction failed, using default")

  /** `predict_customer_risk`: never fails; a failed prediction becomes the
      medium-risk fallback. */
  function PredictCustomerRisk(scorer: Scorer, f: Features): (a: Assessment)
    ensures scorer(f).None? ==> a == Fallback
    ensures scorer(f).Some? ==> a == Band(scorer(f).value)
    ensures a.riskLevel in {LowLevel, MediumLevel, HighLevel}
  {
    match ComputePrediction(scorer, f)
    case None => Fallback
    case Some(a) => a
  }

  /** The fallback's score lies in the band its level names, but its action
      and reason are not that band's. */
  lemma FallbackInMediumBand()
    ensures Band(Fallback.riskScore).riskLevel == Fallback.riskLevel
    ensures Band(Fallback.riskScore).recommendedAction != Fallback.recommendedAction
  {
  }

  /** `(column == value).astype(int)` for `value` in `1..n`, in that order. */
  function OneHot(value: int, n: nat): (bits: seq<int>)
    ensures |bits| == n
    ensures forall i :: 0 <= i < n ==> bits[i] == (if value == i + 1 then 1 else 0)
  {
    if n == 0 then [] else OneHot(value, n - 1) + [if value == n then 1 else 0]
  }

  function Sum(s: seq<int>): int
  {
    if s == [] then 0 else Sum(s[..|s| - 1]) + s[|s| - 1]
  }

  /** Exactly one indicator is set for a value in range, none outside it. */
  lemma {:induction false} OneHotSum(value: int, n: nat)
    ensures Sum(OneHot(value, n)) == if 1 <= value <= n then 1 else 0
  {
    if n > 0 {
      OneHotSum(value, n - 1);
      var bits := OneHot(value, n);
      assert bits[..n - 1] == OneHot(value, n - 1);
    }
  }

  /** The sum of the six repayment statuses. */
  function PaySum(f: Features): int
  {
    f.pay0 + f.pay2 + f.pay3 + f.pay4 + f.pay5 + f.pay6
  }

  /** The engineered inputs that are not floating-point ratios. */
  datatype Engineered = Engineered(
    avgDelay: real, delayTrend: int, sex2: int, education: seq<int>, marriage: seq<int>)

  /** Feature engineering of `compute_prediction`: the mean delay, the delay
      trend and the one-hot columns for sex, education (1-6) and marriage (1-3). */
  function Engineer(f: Features): (e: Engineered)
    ensures 6.0 * e.avgDelay == PaySum(f) as real
    ensures e.delayTrend == f.pay6 - f.pay0
    ensures e.sex2 == (if f.sex == 2 then 1 else 0)
    ensures |e.education| == 6 && |e.marriage| == 3
    ensures Sum(e.education) == (if 1 <= f.education <= 6 then 1 else 0)
    ensures Sum(e.marriage) == (if 1 <= f.marriage <= 3 then 1 else 0)
    ensures forall i :: 0 <= i < 6 ==> (e.education[i] == 1 <==> f.education == i + 1)
    ensures forall i :: 0 <= i < 3 ==> (e.marriage[i] == 1 <==> f.marriage == i + 1)
  {
    OneHotSum(f.education, 6);
    OneHotSum(f.marriage, 3);
    Engineered(PaySum(f) as real / 6.0, f.pay6 - f.pay0, if f.sex == 2 then 1 else 0,
               OneHot(f.education, 6), OneHot(f.marriage, 3))
  }

  /** Python's `int(a / d)`: division truncated toward zero. */
  function TruncDiv(a: int, d: int): (q: int)
    requires d > 0
    ensures a >= 0 ==> 0 <= a - q * d < d
    ensures a < 0 ==> -d < a - q * d <= 0
  {
    if a >= 0 then a / d else -((-a) / d)
  }

  /** The `trend` of an enriched record. */
  function Trend(score: real): (t: string)
    ensures t == "down" <==> score < 0.4
    ensures t == "up" <==> score > 0.6
    ensures t == "stable" <==> 0.4 <= score <= 0.6
  {
    if score < 0.4 then "down" else if score > 0.6 then "up" else "stable"
  }

  /** The `utilizationRate` before rounding: last bill over the limit, or 0 for
      a limit that is not positive. */
  function Utilization(f: Features): (u: real)
    ensures f.limitBal > 0.0 ==> u * f.limitBal == f.billAmt6
    ensures f.limitBal <= 0.0 ==> u == 0.0
  {
    if f.limitBal > 0.0 then f.billAmt6 / f.limitBal else 0.0
  }

  /** The `behaviorFlags`: one flag when the mean delay exceeds one month. */
  function Flags(f: Features): (flags: seq<string>)
    ensures flags == [] || flags == ["Late payment history"]
    ensures flags != [] <==> PaySum(f) as real / 6.0 > 1.0
  {
    if PaySum(f) > 6 then ["Late payment history"] else []
  }

  /** The JSON of an enriched customer, without the two random fields. */
  datatype Enriched = Enriched(
    id: int, name: string, accountNumber: string, riskScore: real, riskBucket: string,
    riskLevel: string, utilizationRate: real, currentBalance: real, creditLimit: real,
    averagePaymentDelay: int, trend: string, behaviorFlags: seq<string>,
    recommendedAction: string, reason: string)

  /** A level with " RISK" removed: the bare band name. */
  function BucketName(level: string): string
  {
    RemoveAll(level, RiskSuffix)
  }

  lemma BucketNames()
    ensures BucketName(LowLevel) == "LOW"
    ensures BucketName(MediumLevel) == "MEDIUM"
    ensures BucketName(HighLevel) == "HIGH"
  {
    RemoveTrailing("LOW", RiskSuffix);
    RemoveTrailing("MEDIUM", RiskSuffix);
    RemoveTrailing("HIGH", RiskSuffix);
  }

  /** `enrich_customer_with_risk`: the record's identity, the prediction (or
      its fallback), and the fields derived from the features. */
  function Enrich(scorer: Scorer, c: CustomerRecord): (e: Enriched)
    ensures var a := PredictCustomerRisk(scorer, c.features);
      && e.riskScore == a.riskScore && e.riskLevel == a.riskLevel
      && e.recommendedAction == a.recommendedAction && e.reason == a.reason
      && e.trend == Trend(a.riskScore)
    ensures e.id == c.id && e.name == c.name && e.accountNumber == c.accountNumber
    ensures e.riskBucket in {"LOW", "MEDIUM", "HIGH"} && e.riskBucket + RiskSuffix == e.riskLevel
    ensures e.currentBalance == c.features.billAmt6 && e.creditLimit == c.features.limitBal
    ensures e.utilizationRate == Utilization(c.features)
    ensures e.averagePaymentDelay == TruncDiv(PaySum(c.features), 6)
    ensures e.behaviorFlags == Flags(c.features)
  {
    var a := PredictCustomerRisk(scorer, c.features);
    BucketNames();
    Enriched(c.id, c.name, c.accountNumber, a.riskScore, BucketName(a.riskLevel), a.riskLevel,
             Utilization(c.features), c.features.billAmt6, c.features.limitBal,
             TruncDiv(PaySum(c.features), 6), Trend(a.riskScore), Flags(c.features),
             a.recommendedAction, a.reason)
  }

  /** `POST /predict`: 503 before the model is loaded, 500 with the exception's
      text when the prediction raises, the banded prediction otherwise. */
  function Predict(modelLoaded: bool, scorer: Scorer, f: Features, raised: string): (r: Response<Assessment>)
    ensures r.Success? <==> modelLoaded && scorer(f).Some?
    ensures r.Success? ==> r == Success(200, Band(scorer(f).value))
    ensures !modelLoaded ==> r == Failure(503, "Model not loaded")
    ensures modelLoaded && scorer(f).None? ==> r == Failure(500, raised)
  {
    if !modelLoaded then Failure(503, "Model not loaded")
    else match ComputePrediction(scorer, f)
      case None => Failure(500, raised)
      case Some(a) => Success(200, a)
  }

  /** The band names the dashboard counts under. */
  datatype Level = Low | Medium | High

  /** The dashboard's test of a level: "LOW" in it, else "MEDIUM" in it, else high. */
  function Classify(level: string): Level
  {
    if Contains(level, "LOW") then Low else if Contains(level, "MEDIUM") then Medium else High
  }

  function LevelName(l: Level): string
  {
    match l
    case Low => "LOW"
    case Medium => "MEDIUM"
    case High => "HIGH"
  }

  lemma ClassifyLow(level: string)
    requires level == LowLevel
    ensures Classify(level) == Low
  {
    assert level[..3] == "LOW";
    assert OccursAt(level, "LOW", 0);
  }

  lemma ClassifyMedium(level: string)
    requires level == MediumLevel
    ensures Classify(level) == Medium
  {
    assert 'L' !in level;
    AbsentFirstChar(level, "LOW");
    assert level[..6] == "MEDIUM";
    assert OccursAt(level, "MEDIUM", 0);
  }

  lemma ClassifyHigh(level: string)
    requires level == HighLevel
    ensures Classify(level) == High
  {
    assert 'L' !in level && 'M' !in level;
    AbsentFirstChar(level, "LOW");
    AbsentFirstChar(level, "MEDIUM");
  }

  /** On every level a prediction can have, the dashboard's substring test and
      the summary's " RISK" removal name the same band. */
  lemma ClassifyAgreesWithBucketName(level: string)
    requires level in {LowLevel, MediumLevel, HighLevel}
    ensures LevelName(Classify(level)) == BucketName(level)
  {
    BucketNames();
    if level == LowLevel {
      ClassifyLow(level);
    } else if level == MediumLevel {
      ClassifyMedium(level);
    } else {
      ClassifyHigh(level);
    }
  }

  /** The levels predicted for a list of records, in order. */
  function Levels(scorer: Scorer, records: seq<CustomerRecord>): (levels: seq<string>)
    ensures |levels| == |records|
    ensures forall i :: 0 <= i < |records| ==> levels[i] == PredictCustomerRisk(scorer, records[i].features).riskLevel
  {
    if records == [] then []
    else Levels(scorer, records[..|records| - 1]) + [PredictCustomerRisk(scorer, records[|records| - 1].features).riskLevel]
  }

  /** How many of `levels` the dashboard counts under `l`. */
  function CountOf(levels: seq<string>, l: Level): nat
  {
    if levels == [] then 0
    else CountOf(levels[..|levels| - 1], l) + (if Classify(levels[|levels| - 1]) == l then 1 else 0)
  }

  /** Every level is counted under exactly one band. */
  lemma {:induction false} CountsPartition(levels: seq<string>)
    ensures CountOf(levels, Low) + CountOf(levels, Medium) + CountOf(levels, High) == |levels|
  {
    if levels != [] {
      CountsPartition(levels[..|levels| - 1]);
    }
  }

  /** Counting one more record adds one to its band and nothing to the others. */
  lemma CountStep(scorer: Scorer, records: seq<CustomerRecord>, i: nat, l: Level)
    requires i < |records|
    ensures CountOf(Levels(scorer, records[..i + 1]), l) ==
      CountOf(Levels(scorer, records[..i]), l)
      + (if Classify(PredictCustomerRisk(scorer, records[i].features).riskLevel) == l then 1 else 0)
  {
    assert records[..i + 1][..i] == records[..i];
    var levels := Levels(scorer, records[..i + 1]);
    assert levels[..|levels| - 1] == Levels(scorer, records[..i]);
  }

  /** One row of `riskDistribution` (its rounded percentage is not modelled). */
  datatype BucketCount = BucketCount(bucket: string, count: nat)

  /** The counted part of `dashboard_metrics`. */
  datatype Dashboard = Dashboard(
    totalAccounts: nat, atRiskAccounts: nat, estimatedSavings: nat, riskDistribution: seq<BucketCount>)

  /** The body of `GET /analytics/risk-summary`, without the rounded average
      and the timestamp. */
  datatype Summary = Summary(totalCustomers: nat, riskDistribution: map<string, nat>)

  /** The records the service starts with. */
  const Customer1: CustomerRecord :=
    CustomerRecord(1, "Rohan Sharma", "ACC-10021", Features(
      200000.0, 2, 2, 1, 35, 0, 0, 1, 0, 0, 0,
      50000.0, 48000.0, 47000.0, 46000.0, 45000.0, 44000.0,
      5000.0, 6000.0, 7000.0, 6000.0, 6000.0, 8000.0))
  const Customer2: CustomerRecord :=
    CustomerRecord(2, "Priya Patel", "ACC-10022", Features(
      150000.0, 2, 3, 2, 28, 1, 0, 0, 1, 0, 0,
      35000.0, 34000.0, 33000.0, 32000.0, 31000.0, 30000.0,
      3000.0, 3000.0, 4000.0, 3000.0, 3000.0, 3500.0))
  const Customer3: CustomerRecord :=
    CustomerRecord(3, "Amit Kumar", "ACC-10023", Features(
      75000.0, 1, 1, 1, 42, 2, 1, 2, 1, 0, 1,
      25000.0, 26000.0, 27000.0, 28000.0, 29000.0, 30000.0,
      1000.0, 1200.0, 800.0, 900.0, 1000.0, 1100.0))
  const Customer4: CustomerRecord :=
    CustomerRecord(4, "Neha Singh", "ACC-10024", Features(
      300000.0, 2, 4, 1, 31, -1, -1, 0, 0, -1, 0,
      80000.0, 78000.0, 76000.0, 74000.0, 72000.0, 70000.0,
      10000.0, 10000.0, 9000.0, 9000.0, 8000.0, 8000.0))
  const Customer5: CustomerRecord :=
    CustomerRecord(5, "Vikram Mehta", "ACC-10025", Features(
      50000.0, 1, 2, 2, 24, 3, 2, 3, 2, 2, 1,
      45000.0, 46000.0, 47000.0, 48000.0, 49000.0, 50000.0,
      500.0, 400.0, 300.0, 200.0, 100.0, 500.0))

  const Seed: seq<CustomerRecord> := [Customer1, Customer2, Customer3, Customer4, Customer5]

  /** The largest id in the table: `max(c["id"] for c in CUSTOMERS_DB)`. */
  function MaxId(records: seq<CustomerRecord>): (m: int)
    requires records != []
    ensures exists i :: 0 <= i < |records| && records[i].id == m
    ensures forall i :: 0 <= i < |records| ==> records[i].id <= m
  {
    if |records| == 1 then records[0].id
    else
      var rest := MaxId(records[1..]);
      assert forall i :: 1 <= i < |records| ==> records[i] == records[1..][i - 1];
      if records[0].id >= rest then records[0].id else rest
  }

  ghost predicate DistinctIds(records: seq<CustomerRecord>)
  {
    forall i, j :: 0 <= i < j < |records| ==> records[i].id != records[j].id
  }

  /** Appending a record whose id exceeds every existing id keeps the ids
      distinct and makes it the largest. */
  lemma AppendLargerId(records: seq<CustomerRecord>, rec: CustomerRecord)
    requires records != [] && rec.id == MaxId(records) + 1
    ensures forall i :: 0 <= i < |records| ==> records[i].id < rec.id
    ensures DistinctIds(records) ==> DistinctIds(records + [rec])
  {
  }

  /** `CUSTOMERS_DB` and the endpoints that read or extend it. */
  class CustomerDb {
    var records: seq<CustomerRecord>

    /** No two records share an id. */
    ghost predicate UniqueIds()
      reads this
    {
      DistinctIds(records)
    }

    constructor ()
      ensures records == Seed && UniqueIds()
    {
      records := Seed;
    }

    /** `GET /customers`: every record, enriched, in table order. */
    method GetCustomers(scorer: Scorer) returns (enriched: seq<Enriched>)
      ensures |enriched| == |records|
      ensures forall i :: 0 <= i < |records| ==> enriched[i] == Enrich(scorer, records[i])
    {
      enriched := [];
      for i := 0 to |records|
        invariant |enriched| == i
        invariant forall k :: 0 <= k < i ==> enriched[k] == Enrich(scorer, records[k])
      {
        enriched := enriched + [Enrich(scorer, records[i])];
      }
    }

    /** `GET /customers/{id}`: the first record with that id, enriched, or 404. */
    method GetCustomer(scorer: Scorer, customerId: int) returns (r: Response<Enriched>)
      ensures r.Failure? <==> forall i :: 0 <= i < |records| ==> records[i].id != customerId
      ensures r.Failure? ==> r == Failure(404, "Customer not found")
      ensures r.Success? ==> r.status == 200 && exists i :: (0 <= i < |records| && records[i].id == customerId
        && (forall k :: 0 <= k < i ==> records[k].id != customerId)
        && r.value == Enrich(scorer, records[i]))
    {
      var i := 0;
      while i < |records|
        invariant i <= |records|
        invariant forall k :: 0 <= k < i ==> records[k].id != customerId
      {
        if records[i].id == customerId {
          return Success(200, Enrich(scorer, records[i]));
        }
        i := i + 1;
      }
      return Failure(404, "Customer not found");
    }

    /** `POST /customers`: the new record gets the next id after the largest
        and is appended; on an empty table `max` raises and nothing is added. */
    method AddCustomer(scorer: Scorer, c: NewCustomer) returns (r: Response<Enriched>)
      modifies this
      ensures old(records) == [] ==> records == [] && r == Failure(500, "Internal Server Error")
      ensures old(records) != [] ==>
        && records == old(records) + [CustomerRecord(MaxId(old(records)) + 1, c.name, c.accountNumber, c.features)]
        && r == Success(201, Enrich(scorer, records[|records| - 1]))
      ensures old(records) != [] ==> forall i :: 0 <= i < |old(records)| ==> old(records)[i].id < records[|records| - 1].id
      ensures old(UniqueIds()) ==> UniqueIds()
    {
      if records == [] {
        return Failure(500, "Internal Server Error");
      }
      var rec := CustomerRecord(MaxId(records) + 1, c.name, c.accountNumber, c.features);
      AppendLargerId(records, rec);
      records := records + [rec];
      r := Success(201, Enrich(scorer, rec));
    }

    /** The counted part of `GET /dashboard-metrics`: zeros and no rows on an
        empty table; otherwise one count per band, by the substring test. */
    method DashboardMetrics(scorer: Scorer) returns (m: Dashboard)
      ensures records == [] ==> m == Dashboard(0, 0, 0, [])
      ensures records != [] ==> var levels := Levels(scorer, records);
        && m.totalAccounts == |records|
        && m.riskDistribution == [BucketCount("Low", CountOf(levels, Low)),
                                  BucketCount("Medium", CountOf(levels, Medium)),
                                  BucketCount("High", CountOf(levels, High))]
        && m.atRiskAccounts == CountOf(levels, Medium) + CountOf(levels, High)
        && m.estimatedSavings == m.atRiskAccounts * 1500
        && m.riskDistribution[0].count + m.atRiskAccounts == m.totalAccounts
    {
      if records == [] {
        return Dashboard(0, 0, 0, []);
      }
      var low, medium, high := 0, 0, 0;
      for i := 0 to |records|
        invariant low == CountOf(Levels(scorer, records[..i]), Low)
        invariant medium == CountOf(Levels(scorer, records[..i]), Medium)
        invariant high == CountOf(Levels(scorer, records[..i]), High)
      {
        var level := PredictCustomerRisk(scorer, records[i].features).riskLevel;
        CountStep(scorer, records, i, Low);
        CountStep(scorer, records, i, Medium);
        CountStep(scorer, records, i, High);
        match Classify(level) {
          case Low => low := low + 1;
          case Medium => medium := medium + 1;
          case High => high := high + 1;
        }
      }
      assert records[..|records|] == records;
      CountsPartition(Levels(scorer, records));
      var atRisk := medium + high;
      m := Dashboard(|records|, atRisk, atRisk * 1500,
                     [BucketCount("Low", low), BucketCount("Medium", medium), BucketCount("High", high)]);
    }

    /** The counted part of `GET /analytics/risk-summary`: 404 on an empty
        table; otherwise a count per bare band name that agrees with the
        dashboard's counts and adds up to the number of records. */
    method RiskSummary(scorer: Scorer) returns (r: Response<Summary>)
      ensures records == [] ==> r == Failure(404, "No customers")
      ensures records != [] ==> r.Success? && r.status == 200
      ensures r.Success? ==> var levels := Levels(scorer, records);
        && r.value.totalCustomers == |records|
        && r.value.riskDistribution.Keys == {"LOW", "MEDIUM", "HIGH"}
        && r.value.riskDistribution["LOW"] == CountOf(levels, Low)
        && r.value.riskDistribution["MEDIUM"] == CountOf(levels, Medium)
        && r.value.riskDistribution["HIGH"] == CountOf(levels, High)
        && r.value.riskDistribution["LOW"] + r.value.riskDistribution["MEDIUM"]
           + r.value.riskDistribution["HIGH"] == |records|
    {
      if records == [] {
        return Failure(404, "No customers");
      }
      var counts: map<string, nat> := map["LOW" := 0, "MEDIUM" := 0, "HIGH" := 0];
      for i := 0 to |records|
        invariant counts.Keys == {"LOW", "MEDIUM", "HIGH"}
        invariant counts["LOW"] == CountOf(Levels(scorer, records[..i]), Low)
        invariant counts["MEDIUM"] == CountOf(Levels(scorer, records[..i]), Medium)
        invariant counts["HIGH"] == CountOf(Levels(scorer, records[..i]), High)
      {
        var level := PredictCustomerRisk(scorer, records[i].features).riskLevel;
        var key := BucketName(level);
        ClassifyAgreesWithBucketName(level);
        CountStep(scorer, records, i, Low);
        CountStep(scorer, records, i, Medium);
        CountStep(scorer, records, i, High);
        assert key == LevelName(Classify(level));
        counts := counts[key := counts[key] + 1];
      }
      assert records[..|records|] == records;
      CountsPartition(Levels(scorer, records));
      r := Success(200, Summary(|records|, counts));
    }
  }

  /** The seed ids are 1 to 5, so the first insert gets id 6. */
  lemma SeedIds()
    ensures forall i :: 0 <= i < |Seed| ==> Seed[i].id == i + 1
    ensures MaxId(Seed) == 5
  {
    assert Seed[4].id == 5;
    var m := MaxId(Seed);
    assert exists i :: 0 <= i < |Seed| && Seed[i].id == m;
  }

  /** Of the seed customers only Amit Kumar and Vikram Mehta average more than
      a month of delay; Neha Singh's mean of -0.5 truncates to 0, not -1; and
      Vikram Mehta's last bill equals his limit. */
  lemma SeedDerived()
    ensures [Flags(Seed[0].features), Flags(Seed[1].features), Flags(Seed[2].features),
             Flags(Seed[3].features), Flags(Seed[4].features)]
         == [[], [], ["Late payment history"], [], ["Late payment history"]]
    ensures PaySum(Seed[3].features) == -3 && TruncDiv(PaySum(Seed[3].features), 6) == 0
    ensures TruncDiv(PaySum(Seed[4].features), 6) == 2
    ensures Utilization(Seed[4].features) == 1.0
  {
    assert PaySum(Customer1.features) == 1 && PaySum(Customer2.features) == 2;
    assert PaySum(Customer3.features) == 7 && PaySum(Customer4.features) == -3;
    assert PaySum(Customer5.features) == 13;
  }
}
