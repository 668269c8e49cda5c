/** Where the service's answers meet the pages that show them: the two band
    definitions side by side, the trend strings, the result banner and the
    round trip of a prediction request. */
module Integration {

  import opened Wrappers
  import opened Text
  import MockData
  import TrendIndicator
  import ManualAssessment
  import Backend

  /** The service's band as the pages' bucket. */
  function BucketOf(level: Backend.Level): MockData.Bucket
  {
    match level
    case Low => MockData.Bucket.Low
    case Medium => MockData.Bucket.Medium
    case High => MockData.Bucket.High
  }

  /** The band the dashboard counts a service prediction under. */
  function ServiceBucket(score: real): MockData.Bucket
  {
    BucketOf(Backend.Classify(Backend.Band(score).riskLevel))
  }

  /** The service cuts at 0.3 and 0.7, the pages at 0.4 and 0.7: the two name
      different bands exactly for scores from 0.3 up to 0.4, which the service
      calls medium and the pages call low. */
  lemma BandsDisagree(score: real)
    ensures ServiceBucket(score) != MockData.ScoreBucket(score) <==> 0.3 <= score < 0.4
    ensures 0.3 <= score < 0.4 ==>
      ServiceBucket(score) == MockData.Bucket.Medium && MockData.ScoreBucket(score) == MockData.Bucket.Low
  {
    var level := Backend.Band(score).riskLevel;
    if score < 0.3 {
      Backend.ClassifyLow(level);
    } else if score < 0.7 {
      Backend.ClassifyMedium(level);
    } else {
      Backend.ClassifyHigh(level);
    }
  }

  lemma DisagreementAt035()
    ensures ServiceBucket(0.35) == MockData.Bucket.Medium
    ensures MockData.ScoreBucket(0.35) == MockData.Bucket.Low
  {
    BandsDisagree(0.35);
  }

  /** The trend indicator knows none of "down" and "up", so every trend the
      service emits is shown as stable. */
  lemma ServiceTrendsShowStable(score: real)
    ensures TrendIndicator.SafeTrend(Backend.Trend(score)) == "stable"
    ensures Backend.Trend(score) != "stable" ==> Backend.Trend(score) !in TrendIndicator.KnownTrends
  {
  }

  /** The page's reading of a service prediction. */
  function ToResult(a: Backend.Assessment): (p: ManualAssessment.PredictionResult)
    ensures p.riskScore == a.riskScore && p.riskLevel == a.riskLevel
    ensures p.recommendedAction == a.recommendedAction && p.reason == a.reason
  {
    ManualAssessment.PredictionResult(a.riskScore, a.riskLevel, a.recommendedAction, a.reason)
  }

  /** A prediction field missing from an error body. */
  const Missing: ManualAssessment.PredictionResult := ManualAssessment.PredictionResult(0.0, "", "", "")

  /** What the page receives for an answer of `POST /predict`. */
  function ToOutcome(r: Backend.Response<Backend.Assessment>): (o: ManualAssessment.Outcome)
    ensures o.Responded? && o.status == r.status && o.body.Json?
    ensures r.Success? ==> o.body.errorField == [] && o.body.prediction == ToResult(r.value)
    ensures r.Failure? ==> o.body.errorField == r.message
  {
    match r
    case Success(status, a) => ManualAssessment.Responded(status, ManualAssessment.Json([], ToResult(a)))
    case Failure(status, message) =>
      ManualAssessment.Responded(status, ManualAssessment.Json(message, Missing))
  }

  /** The words each of the service's levels contains. */
  lemma LevelWords(level: string)
    requires level in {Backend.LowLevel, Backend.MediumLevel, Backend.HighLevel}
    ensures Contains(level, "LOW") <==> level == Backend.LowLevel
    ensures Contains(level, "MEDIUM") <==> level == Backend.MediumLevel
    ensures Contains(level, "HIGH") <==> level == Backend.HighLevel
  {
    if level == Backend.LowLevel {
      Backend.ClassifyLow(level);
      assert 'M' !in level && 'H' !in level;
      AbsentFirstChar(level, "MEDIUM");
      AbsentFirstChar(level, "HIGH");
    } else if level == Backend.MediumLevel {
      Backend.ClassifyMedium(level);
      assert 'H' !in level;
      AbsentFirstChar(level, "HIGH");
    } else {
      Backend.ClassifyHigh(level);
      assert level[..4] == "HIGH";
      assert OccursAt(level, "HIGH", 0);
    }
  }

  /** The result banner for a service prediction: emerald below 0.3, amber
      below 0.7, rose from 0.7, with the one heading icon of that band. */
  lemma BannerFollowsServiceBand(score: real)
    ensures var style := ManualAssessment.RiskStyle(Some(ToResult(Backend.Band(score))));
      && (style == ManualAssessment.EmeraldStyle <==> score < 0.3)
      && (style == ManualAssessment.AmberStyle <==> 0.3 <= score < 0.7)
      && (style == ManualAssessment.RoseStyle <==> score >= 0.7)
    ensures |ManualAssessment.LevelIcons(Backend.Band(score).riskLevel)| == 1
  {
    LevelWords(Backend.Band(score).riskLevel);
  }

  /** A prediction request end to end: a scored customer shows the banded
      result; a failure shows only the status, because the page tests
      `res.ok` before it reads the body, so the service's error text never
      reaches the screen. */
  lemma PredictRoundTrip(modelLoaded: bool, scorer: Backend.Scorer, f: Backend.Features, raised: string)
    ensures var settled := ManualAssessment.Settle(ToOutcome(Backend.Predict(modelLoaded, scorer, f, raised)));
      && (modelLoaded && scorer(f).Some? ==> settled == ManualAssessment.Succeeded(ToResult(Backend.Band(scorer(f).value))))
      && (!modelLoaded ==> settled == ManualAssessment.Failed("Server responded with 503"))
      && (modelLoaded && scorer(f).None? ==> settled == ManualAssessment.Failed("Server responded with 500"))
  {
    assert NatToString(503) == "503" by {
      assert NatToString(5) == "5" && NatToString(50) == "50";
    }
    assert NatToString(500) == "500" by {
      assert NatToString(5) == "5" && NatToString(50) == "50";
    }
  }
}
