/** The front end's mock portfolio: customer records, the risk distribution,
    the portfolio metrics, per-customer timelines and the intervention policy
    table that maps a risk score to recommended actions. */
module MockData {

  import opened Wrappers

  /** `riskBucket`: the coarse risk class shown on badges and used by the list filter. */
  datatype Bucket = Low | Medium | High

  /** The kinds of intervention the policy table can recommend. */
  datatype InterventionType = Reminder | PaymentHoliday | ProactiveOutreach | CreditCounseling | Restructure
  {
    /** The wire name of the kind, as it appears in the `type` field. */
    function Name(): string
    {
      match this
      case Reminder => "reminder"
      case PaymentHoliday => "payment_holiday"
      case ProactiveOutreach => "proactive_outreach"
      case CreditCounseling => "credit_counseling"
      case Restructure => "restructure"
    }
  }

  /** The urgency of a recommendation; `Name` is its lower-case wire name. */
  datatype Priority = Low | Medium | High
  {
    function Name(): string
    {
      match this
      case Low => "low"
      case Medium => "medium"
      case High => "high"
    }
  }

  datatype Recommendation = Recommendation(
    kind: InterventionType,
    priority: Priority,
    description: string,
    expectedImpact: string,
    requiresApproval: bool)

  /** What a recommendation asks for, without its prose: kind, priority, approval flag. */
  datatype Plan = Plan(kind: InterventionType, priority: Priority, requiresApproval: bool)

  function PlanOf(r: Recommendation): Plan
  {
    Plan(r.kind, r.priority, r.requiresApproval)
  }

  function Plans(rs: seq<Recommendation>): (ps: seq<Plan>)
    ensures |ps| == |rs|
    ensures forall i :: 0 <= i < |rs| ==> ps[i] == PlanOf(rs[i])
  {
    if rs == [] then [] else [PlanOf(rs[0])] + Plans(rs[1..])
  }

  datatype Customer = Customer(
    id: string,
    name: string,
    accountNumber: string,
    riskScore: real,
    riskBucket: Bucket,
    trend: string,
    creditLimit: int,
    currentBalance: int,
    utilizationRate: real,
    lastPaymentDate: string,
    daysSinceLastPayment: int,
    averagePaymentDelay: int,
    paymentCoverageRatio: real,
    behaviorFlags: seq<string>)

  datatype EventType = Payment | Delay | Balance | Alert

  datatype TimelineEvent = TimelineEvent(date: string, event: string, kind: EventType, value: Option<string>)

  datatype DistributionRow = DistributionRow(bucket: string, count: int, percentage: real)

  datatype PortfolioMetrics = PortfolioMetrics(
    totalAccounts: int,
    atRiskAccounts: int,
    interventionsActive: int,
    avgRiskScore: real,
    portfolioUtilization: real,
    preventedDefaults30d: int,
    estimatedSavings: int)

  /** The banding every front-end surface applies to a score: 0.7 and above is
      High, 0.4 and above is Medium, anything lower is Low; a score on a
      cut-point belongs to the higher band. */
  function ScoreBucket(score: real): (b: Bucket)
    ensures b == Bucket.High <==> score >= 0.7
    ensures b == Bucket.Medium <==> 0.4 <= score < 0.7
    ensures b == Bucket.Low <==> score < 0.4
  {
    if score >= 0.7 then Bucket.High else if score >= 0.4 then Bucket.Medium else Bucket.Low
  }

  // The prose of the policy table.
  const OutreachText: string := "Immediate phone call from customer success team to understand financial situation and offer assistance."
  const OutreachImpact: string := "45% reduction in default probability within 30 days"
  const HolidayText: string := "Offer 30-day payment holiday with interest freeze to provide immediate relief."
  const HolidayImpact: string := "60% reduction in near-term delinquency risk"
  const RestructureText: string := "Propose debt restructuring with extended payment terms and reduced monthly obligations."
  const RestructureImpact: string := "70% improvement in long-term payment sustainability"
  const PersonalReminderText: string := "Send personalized SMS/email reminder 3 days before payment due date with balance summary."
  const PersonalReminderImpact: string := "25% reduction in payment delays"
  const CounselingText: string := "Offer free financial counseling session to help with budgeting and payment planning."
  const CounselingImpact: string := "35% improvement in payment consistency"
  const StandardReminderText: string := "Standard automated payment reminder via preferred channel."
  const StandardReminderImpact: string := "15% reduction in accidental late payments"

  /** `getInterventionRecommendations`: a fixed, ordered list per score band. */
  function InterventionRecommendations(customer: Customer): (recs: seq<Recommendation>)
    ensures customer.riskScore >= 0.7 ==> Plans(recs) == [
      Plan(ProactiveOutreach, Priority.High, false),
      Plan(PaymentHoliday, Priority.High, true),
      Plan(Restructure, Priority.Medium, true)]
    ensures 0.4 <= customer.riskScore < 0.7 ==> Plans(recs) == [
      Plan(Reminder, Priority.Medium, false),
      Plan(CreditCounseling, Priority.Low, false)]
    ensures customer.riskScore < 0.4 ==> Plans(recs) == [Plan(Reminder, Priority.Low, false)]
  {
    if customer.riskScore >= 0.7 then
      [ Recommendation(ProactiveOutreach, Priority.High, OutreachText, OutreachImpact, false),
        Recommendation(PaymentHoliday, Priority.High, HolidayText, HolidayImpact, true),
        Recommendation(Restructure, Priority.Medium, RestructureText, RestructureImpact, true) ]
    else if customer.riskScore >= 0.4 then
      [ Recommendation(Reminder, Priority.Medium, PersonalReminderText, PersonalReminderImpact, false),
        Recommendation(CreditCounseling, Priority.Low, CounselingText, CounselingImpact, false) ]
    else
      [ Recommendation(Reminder, Priority.Low, StandardReminderText, StandardReminderImpact, false) ]
  }

  /** The number of recommendations is 3, 2 or 1 for the High, Medium and Low
      band: never empty, and never fewer for a higher score. */
  lemma RecommendationCount(c: Customer, d: Customer)
    ensures |InterventionRecommendations(c)| ==
      match ScoreBucket(c.riskScore) case High => 3 case Medium => 2 case Low => 1
    ensures c.riskScore <= d.riskScore ==>
      |InterventionRecommendations(c)| <= |InterventionRecommendations(d)|
  {
    assert |Plans(InterventionRecommendations(c))| == |InterventionRecommendations(c)|;
    assert |Plans(InterventionRecommendations(d))| == |InterventionRecommendations(d)|;
  }

  /** The recommendations depend on the risk score alone. */
  lemma RecommendationsDependOnScoreOnly(c: Customer, d: Customer)
    requires c.riskScore == d.riskScore
    ensures InterventionRecommendations(c) == InterventionRecommendations(d)
  {
  }

  /** Approval is required exactly for the payment holiday and the restructure,
      and those are only offered in the High band. */
  lemma ApprovalOnlyInHighBand(c: Customer, i: nat)
    requires i < |InterventionRecommendations(c)|
    ensures InterventionRecommendations(c)[i].requiresApproval <==>
      c.riskScore >= 0.7 && InterventionRecommendations(c)[i].kind in {PaymentHoliday, Restructure}
  {
    var recs := InterventionRecommendations(c);
    assert Plans(recs)[i] == PlanOf(recs[i]);
  }

  /** `getCustomerTimeline`: the recorded events of C001 and C002, oldest first;
      every other id has none. */
  function CustomerTimeline(customerId: string): (events: seq<TimelineEvent>)
    ensures |events| == if customerId == "C001" then 10 else if customerId == "C002" then 7 else 0
  {
    if customerId == "C001" then
      [ TimelineEvent("2025-09-01", "Payment received - $450", Payment, Some("$450")),
        TimelineEvent("2025-10-08", "Payment delayed by 7 days", Delay, Some("7 days")),
        TimelineEvent("2025-10-15", "Payment received - $350", Payment, Some("$350")),
        TimelineEvent("2025-11-12", "Payment delayed by 11 days", Delay, Some("11 days")),
        TimelineEvent("2025-11-20", "Payment received - $300", Payment, Some("$300")),
        TimelineEvent("2025-12-18", "Balance increased by $2,000", Balance, Some("+$2,000")),
        TimelineEvent("2026-01-14", "Payment delayed by 13 days", Delay, Some("13 days")),
        TimelineEvent("2026-01-22", "Payment received - $250", Payment, Some("$250")),
        TimelineEvent("2026-02-05", "Reduced payment received - $200", Payment, Some("$200")),
        TimelineEvent("2026-02-10", "Risk score elevated to 0.78", Alert, Some("0.78")) ]
    else if customerId == "C002" then
      [ TimelineEvent("2025-08-15", "Payment received - $300", Payment, None),
        TimelineEvent("2025-09-18", "Payment delayed by 5 days", Delay, None),
        TimelineEvent("2025-10-20", "Payment received - $300", Payment, None),
        TimelineEvent("2025-11-22", "Payment delayed by 7 days", Delay, None),
        TimelineEvent("2025-12-19", "Payment received - $300", Payment, None),
        TimelineEvent("2026-01-23", "Payment delayed by 8 days", Delay, None),
        TimelineEvent("2026-02-10", "Payment received - $300", Payment, None) ]
    else
      []
  }

  /** The eight mock customers. */
  const Customers: seq<Customer> := [
    Customer("C001", "Sarah Mitchell", "4532-****-****-8912", 0.78, Bucket.High, "worsening",
      15000, 13500, 0.90, "2026-02-05", 9, 12, 0.35,
      ["Rising balance", "Payment delays increasing", "Near credit limit", "Reduced repayment amounts"]),
    Customer("C002", "James Rodriguez", "4532-****-****-2341", 0.62, Bucket.Medium, "stable",
      10000, 5800, 0.58, "2026-02-10", 4, 7, 0.55,
      ["Consistent late payments", "Moderate utilization"]),
    Customer("C003", "Emily Chen", "4532-****-****-7823", 0.23, Bucket.Low, "improving",
      20000, 3200, 0.16, "2026-02-12", 2, 1, 0.95,
      ["On-time payments", "Low utilization"]),
    Customer("C004", "Marcus Thompson", "4532-****-****-4521", 0.71, Bucket.High, "worsening",
      8000, 7200, 0.90, "2026-01-28", 17, 15, 0.28,
      ["Maximum utilization", "Payment missed last month", "Balance growing"]),
    Customer("C005", "Priya Sharma", "4532-****-****-9012", 0.41, Bucket.Medium, "improving",
      12000, 4800, 0.40, "2026-02-11", 3, 4, 0.72,
      ["Decreasing balance", "Improving payment timing"]),
    Customer("C006", "David Kim", "4532-****-****-3456", 0.18, Bucket.Low, "stable",
      25000, 2100, 0.08, "2026-02-13", 1, 0, 1.0,
      ["Excellent payment history", "Low utilization"]),
    Customer("C007", "Angela Martinez", "4532-****-****-7890", 0.55, Bucket.Medium, "worsening",
      9000, 6300, 0.70, "2026-02-07", 7, 9, 0.48,
      ["Increasing utilization", "Payment delays starting"]),
    Customer("C008", "Robert Johnson", "4532-****-****-1234", 0.85, Bucket.High, "worsening",
      5000, 4900, 0.98, "2026-01-20", 25, 22, 0.15,
      ["Critical: Near default", "Multiple missed payments", "Maximum credit used"])
  ]

  const RiskDistribution: seq<DistributionRow> := [
    DistributionRow("Low", 1250, 62.5),
    DistributionRow("Medium", 520, 26.0),
    DistributionRow("High", 230, 11.5)
  ]

  const Portfolio: PortfolioMetrics := PortfolioMetrics(2000, 750, 145, 0.42, 0.58, 23, 340000)

  /** Every mock customer's stored bucket is the one its score falls in, and
      its utilisation is its balance over its limit to within 0.01. */
  lemma MockCustomersConsistent()
    ensures forall i :: 0 <= i < |Customers| ==> Customers[i].riskBucket == ScoreBucket(Customers[i].riskScore)
    ensures forall i :: 0 <= i < |Customers| ==>
      -0.01 <= Customers[i].utilizationRate - Customers[i].currentBalance as real / Customers[i].creditLimit as real <= 0.01
  {
  }

  /** Mock customer ids are pairwise distinct. */
  lemma MockIdsDistinct()
    ensures forall i, j :: 0 <= i < j < |Customers| ==> Customers[i].id != Customers[j].id
  {
  }

  /** The distribution covers the whole portfolio: the counts add up to the
      total account number, the percentages add up to 100, and the Medium and
      High buckets together are the at-risk accounts. */
  lemma DistributionMatchesPortfolio()
    ensures RiskDistribution[0].count + RiskDistribution[1].count + RiskDistribution[2].count == Portfolio.totalAccounts == 2000
    ensures RiskDistribution[0].percentage + RiskDistribution[1].percentage + RiskDistribution[2].percentage == 100.0
    ensures RiskDistribution[1].count + RiskDistribution[2].count == Portfolio.atRiskAccounts
    ensures forall i :: 0 <= i < 3 ==>
      RiskDistribution[i].percentage * Portfolio.totalAccounts as real == RiskDistribution[i].count as real * 100.0
  {
  }
}
