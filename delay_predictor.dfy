/**
 * The delay predictor around the trained classifier: the twelve-value feature
 * vector built from a shipment, the reading of the classifier's answer, the
 * rule-based risk factors and the banded recommendation.
 *
 * The classifier itself, the label encoders loaded from disk and the clock
 * are inputs: encoders are maps from known labels to codes, the classifier is
 * a function from a feature vector to its answer, and "now" is a
 * (month, weekday) pair.
 */
module DelayPredictor {
  import opened Common

  const FeatureCount: nat := 12
  const ReliabilityIndex: nat := 3
  const MonthIndex: nat := 4
  const WeekdayIndex: nat := 5
  const TransitIndex: nat := 6
  const RiskFlagIndex: nat := 8
  const BaseRateIndex: nat := 9
  const SeasonalIndex: nat := 10
  const WeekdayFactorIndex: nat := 11

  const DefaultReliability: real := 0.88
  const DefaultTransitDays: real := 20.0
  const DefaultBaseDelayRate: real := 0.20
  const PeakSeasonThreshold: real := 0.08
  const WeekendThreshold: real := 0.03
  const LongHaulDays: real := 30.0
  const LowReliability: real := 0.85

  const FlaggedText := "High-risk shipment flagged"
  const PeakText := "Peak shipping season (higher congestion)"
  const WeekendText := "Weekend port operations (slower processing)"
  const LongHaulText := "Long-haul route (higher delay risk)"
  const ReliabilityText := "Carrier with lower reliability score"
  const GenericText := "Historical route performance analysis"

  /** The fitted label encoders, one per categorical column; a label outside a map is one `transform` rejects. */
  datatype Encoders = Encoders(
    originPort: map<string, int>,
    destinationPort: map<string, int>,
    carrierName: map<string, int>,
    containerType: map<string, int>)

  /** The `etd` entry: missing, present but rejected by the date parser, or a parsed date's month and weekday (Monday is 0). */
  datatype Etd = NoEtd | Unparsed | Parsed(month: int, weekday: int)

  /** Today's month and weekday, standing in for `datetime.now()`. */
  datatype Clock = Clock(month: int, weekday: int)

  /**
   * The `risk_flag` entry: missing (read as `False`), a value `int()`
   * accepts, with that integer and the value's own truthiness, or a value
   * `int()` rejects.
   */
  datatype RiskFlag = Unset | Convertible(asInt: int, truthy: bool) | Unconvertible

  /** The entries of the shipment dictionary the predictor reads; `None` marks a missing key. */
  datatype ShipmentData = ShipmentData(
    originPort: Option<string>,
    destinationPort: Option<string>,
    vesselName: Option<string>,
    containerType: Option<string>,
    etd: Etd,
    riskFlag: RiskFlag)

  /** `encoder.transform([label])[0]`, or 0 when the encoder rejects the label. */
  function Encode(encoder: map<string, int>, name: string): (code: int)
    ensures name !in encoder ==> code == 0
    ensures name in encoder ==> code == encoder[name]
  {
    if name in encoder then encoder[name] else 0
  }

  /** `dict.get(key, default)` for a string entry. */
  function GetOr(entry: Option<string>, fallback: string): (s: string)
    ensures entry.None? ==> s == fallback
    ensures entry.Some? ==> s == entry.value
  {
    match entry
    case Some(v) => v
    case None => fallback
  }

  /** The seasonal congestion table keyed by month, 0.0 for any other key. */
  function SeasonalFactor(month: int): real
  {
    match month
    case 1 => 0.05
    case 2 => 0.15
    case 3 => 0.10
    case 4 => 0.02
    case 5 => 0.00
    case 6 => 0.00
    case 7 => 0.03
    case 8 => 0.05
    case 9 => 0.08
    case 10 => 0.12
    case 11 => 0.10
    case 12 => 0.08
    case _ => 0.0
  }

  /** The weekday table keyed by `weekday()` (Monday 0), 0.0 for any other key. */
  function WeekdayFactor(weekday: int): real
  {
    match weekday
    case 0 => 0.02
    case 1 => 0.01
    case 2 => 0.00
    case 3 => 0.01
    case 4 => 0.03
    case 5 => 0.05
    case 6 => 0.05
    case _ => 0.0
  }

  /** The month and weekday the features use: the parsed `etd` when there is one, today's otherwise. */
  function TravelDate(etd: Etd, now: Clock): (date: (int, int))
    ensures etd.Parsed? ==> date == (etd.month, etd.weekday)
    ensures !etd.Parsed? ==> date == (now.month, now.weekday)
  {
    match etd
    case Parsed(m, w) => (m, w)
    case _ => (now.month, now.weekday)
  }

  /** `int(shipment_data.get("risk_flag", False))`, or `None` when `int()` raises. */
  function RiskFlagCode(flag: RiskFlag): (code: Option<int>)
    ensures code.None? <==> flag.Unconvertible?
    ensures flag.Unset? ==> code == Some(0)
  {
    match flag
    case Unset => Some(0)
    case Convertible(n, _) => Some(n)
    case Unconvertible => None
  }

  /** Python truthiness of `shipment_data.get("risk_flag")`. */
  predicate RiskFlagTruthy(flag: RiskFlag)
  {
    flag.Convertible? && flag.truthy
  }

  /**
   * `extract_features`: the feature vector in the order origin, destination,
   * carrier, reliability, month, weekday, transit days, container, risk flag,
   * base rate, seasonal factor, weekday factor; `None` when building it
   * raises, which only the `risk_flag` conversion can do.
   */
  function ExtractFeatures(d: ShipmentData, enc: Encoders, now: Clock): (features: Option<seq<real>>)
    ensures features.None? <==> d.riskFlag.Unconvertible?
    ensures features.Some? ==> |features.value| == FeatureCount
  {
    match RiskFlagCode(d.riskFlag)
    case None => None
    case Some(flag) =>
      var (month, weekday) := TravelDate(d.etd, now);
      Some([
        Encode(enc.originPort, GetOr(d.originPort, "Unknown")) as real,
        Encode(enc.destinationPort, GetOr(d.destinationPort, "Unknown")) as real,
        Encode(enc.carrierName, GetOr(d.vesselName, "Unknown")) as real,
        DefaultReliability,
        month as real,
        weekday as real,
        DefaultTransitDays,
        Encode(enc.containerType, GetOr(d.containerType, "40HC")) as real,
        flag as real,
        DefaultBaseDelayRate,
        SeasonalFactor(month),
        WeekdayFactor(weekday)
      ])
  }

  /**
   * Every slot of an extracted vector: a known origin, destination, carrier
   * (keyed on the vessel name) or container type takes its encoder's code,
   * then reliability 0.88, transit 20 days, base rate 0.20, the travel date
   * and its two table factors, and the risk flag as an integer.
   */
  lemma ExtractedSlots(d: ShipmentData, enc: Encoders, now: Clock)
    requires !d.riskFlag.Unconvertible?
    ensures var f := ExtractFeatures(d, enc, now).value;
      var (month, weekday) := TravelDate(d.etd, now);
      && (GetOr(d.originPort, "Unknown") in enc.originPort ==>
            f[0] == enc.originPort[GetOr(d.originPort, "Unknown")] as real)
      && (GetOr(d.destinationPort, "Unknown") in enc.destinationPort ==>
            f[1] == enc.destinationPort[GetOr(d.destinationPort, "Unknown")] as real)
      && (GetOr(d.vesselName, "Unknown") in enc.carrierName ==>
            f[2] == enc.carrierName[GetOr(d.vesselName, "Unknown")] as real)
      && (GetOr(d.containerType, "40HC") in enc.containerType ==>
            f[7] == enc.containerType[GetOr(d.containerType, "40HC")] as real)
      && f[ReliabilityIndex] == 0.88
      && f[TransitIndex] == 20.0
      && f[BaseRateIndex] == 0.20
      && f[MonthIndex] == month as real
      && f[WeekdayIndex] == weekday as real
      && f[SeasonalIndex] == SeasonalFactor(month)
      && f[WeekdayFactorIndex] == WeekdayFactor(weekday)
      && f[RiskFlagIndex] == RiskFlagCode(d.riskFlag).value as real
  {
  }

  /**
   * A label no encoder knows, a missing encoder entry or a missing key never
   * refuses a prediction: the slot becomes 0 (or the default label's code),
   * and whether a vector is produced depends only on the risk flag.
   */
  lemma UnknownLabelsEncodeToZero(d: ShipmentData, enc: Encoders, now: Clock)
    requires !d.riskFlag.Unconvertible?
    ensures var f := ExtractFeatures(d, enc, now).value;
      && (GetOr(d.originPort, "Unknown") !in enc.originPort ==> f[0] == 0.0)
      && (GetOr(d.destinationPort, "Unknown") !in enc.destinationPort ==> f[1] == 0.0)
      && (GetOr(d.vesselName, "Unknown") !in enc.carrierName ==> f[2] == 0.0)
      && (GetOr(d.containerType, "40HC") !in enc.containerType ==> f[7] == 0.0)
    ensures forall other: Encoders :: ExtractFeatures(d, other, now).Some?
  {
  }

  /** The seasonal factor exceeds the peak threshold exactly in February, March, October and November. */
  lemma PeakSeasonMonths(month: int)
    ensures SeasonalFactor(month) > PeakSeasonThreshold <==> month in {2, 3, 10, 11}
  {
  }

  /** The weekday factor exceeds the weekend threshold exactly on Saturday and Sunday. */
  lemma WeekendDays(weekday: int)
    ensures WeekdayFactor(weekday) > WeekendThreshold <==> weekday in {5, 6}
  {
  }

  /** One rule of `_analyze_risk_factors`: whether it fires and the text it adds. */
  datatype Rule = Rule(fires: bool, text: string)

  /** The five rules in the order they are tried. */
  function Rules(flag: RiskFlag, features: seq<real>): (rules: seq<Rule>)
    requires |features| == FeatureCount
    ensures |rules| == 5
  {
    [ Rule(RiskFlagTruthy(flag), FlaggedText),
      Rule(features[SeasonalIndex] > PeakSeasonThreshold, PeakText),
      Rule(features[WeekdayFactorIndex] > WeekendThreshold, WeekendText),
      Rule(features[TransitIndex] > LongHaulDays, LongHaulText),
      Rule(features[ReliabilityIndex] < LowReliability, ReliabilityText) ]
  }

  /** The texts of the rules that fire, in rule order. */
  function FiredTexts(rules: seq<Rule>): (texts: seq<string>)
    ensures |texts| <= |rules|
  {
    if rules == [] then []
    else
      var last := rules[|rules| - 1];
      FiredTexts(rules[..|rules| - 1]) + Fired(last)
  }

  /** The risk factors of a shipment: the texts of the firing rules, or the generic text alone when none fires. */
  function RiskFactors(flag: RiskFlag, features: seq<real>): (factors: seq<string>)
    requires |features| == FeatureCount
    ensures 1 <= |factors| <= 5
  {
    var fired := FiredTexts(Rules(flag, features));
    if fired == [] then [GenericText] else fired
  }

  /** `_analyze_risk_factors`: appends the text of each firing rule in turn, then the generic text if nothing was added. */
  method AnalyzeRiskFactors(flag: RiskFlag, features: seq<real>) returns (factors: seq<string>)
    requires |features| == FeatureCount
    ensures factors == RiskFactors(flag, features)
  {
    ghost var rules := Rules(flag, features);
    factors := [];
    assert rules[..1][..0] == [];
    if RiskFlagTruthy(flag) {
      factors := factors + [FlaggedText];
    }
    assert factors == FiredTexts(rules[..1]);
    assert rules[..2][..1] == rules[..1];
    if features[SeasonalIndex] > PeakSeasonThreshold {
      factors := factors + [PeakText];
    }
    assert factors == FiredTexts(rules[..2]);
    assert rules[..3][..2] == rules[..2];
    if features[WeekdayFactorIndex] > WeekendThreshold {
      factors := factors + [WeekendText];
    }
    assert factors == FiredTexts(rules[..3]);
    assert rules[..4][..3] == rules[..3];
    if features[TransitIndex] > LongHaulDays {
      factors := factors + [LongHaulText];
    }
    assert factors == FiredTexts(rules[..4]);
    assert rules[..4] == rules[..|rules| - 1];
    if features[ReliabilityIndex] < LowReliability {
      factors := factors + [ReliabilityText];
    }
    assert factors == FiredTexts(rules);
    if factors == [] {
      factors := factors + [GenericText];
    }
  }

  /** A text is among the fired texts exactly when a rule carrying it fires. */
  lemma {:induction false} FiredTextsMembers(rules: seq<Rule>, t: string)
    ensures t in FiredTexts(rules) <==> exists i :: 0 <= i < |rules| && rules[i].fires && rules[i].text == t
  {
    if rules != [] {
      var n := |rules| - 1;
      var init := rules[..n];
      FiredTextsMembers(init, t);
      if t in FiredTexts(init) {
        var i :| 0 <= i < |init| && init[i].fires && init[i].text == t;
        assert rules[i] == init[i];
      }
      if exists i :: 0 <= i < |rules| && rules[i].fires && rules[i].text == t {
        var i :| 0 <= i < |rules| && rules[i].fires && rules[i].text == t;
        if i < n {
          assert init[i] == rules[i];
        }
      }
    }
  }

  /** With five rules, the fired texts are each rule's contribution in turn. */
  lemma FiredTextsOfFive(rules: seq<Rule>)
    requires |rules| == 5
    ensures FiredTexts(rules) ==
      Fired(rules[0]) + Fired(rules[1]) + Fired(rules[2]) + Fired(rules[3]) + Fired(rules[4])
  {
    assert rules[..1][..0] == [];
    assert FiredTexts(rules[..1]) == Fired(rules[0]);
    assert rules[..2][..1] == rules[..1];
    assert FiredTexts(rules[..2]) == Fired(rules[0]) + Fired(rules[1]);
    assert rules[..3][..2] == rules[..2];
    assert FiredTexts(rules[..3]) == Fired(rules[0]) + Fired(rules[1]) + Fired(rules[2]);
    assert rules[..4][..3] == rules[..3];
    assert FiredTexts(rules[..4]) == Fired(rules[0]) + Fired(rules[1]) + Fired(rules[2]) + Fired(rules[3]);
    assert rules[..4] == rules[..|rules| - 1];
  }

  /** What one rule contributes: its text when it fires. */
  function Fired(rule: Rule): seq<string>
  {
    if rule.fires then [rule.text] else []
  }

  /** The six texts differ from one another (their lengths already do). */
  lemma TextsDistinct()
    ensures |FlaggedText| == 26 && |PeakText| == 40 && |WeekendText| == 43
    ensures |LongHaulText| == 35 && |ReliabilityText| == 36 && |GenericText| == 37
  {
  }

  /**
   * Each rule's text is listed exactly when that rule fires, and the generic
   * text is listed exactly when no rule fires (then it is the only entry).
   */
  lemma RiskFactorsMembers(flag: RiskFlag, features: seq<real>)
    requires |features| == FeatureCount
    ensures var rules := Rules(flag, features);
      var factors := RiskFactors(flag, features);
      && (forall i :: 0 <= i < 5 ==> (rules[i].text in factors <==> rules[i].fires))
      && (GenericText in factors <==> forall i :: 0 <= i < 5 ==> !rules[i].fires)
      && (GenericText in factors ==> factors == [GenericText])
  {
    var rules := Rules(flag, features);
    TextsDistinct();
    FactorsOfDistinctRules(rules, GenericText);
  }

  /** The same for any five rules whose texts differ from one another and from the fallback text. */
  lemma FactorsOfDistinctRules(rules: seq<Rule>, generic: string)
    requires |rules| == 5
    requires forall i, j :: 0 <= i < j < 5 ==> rules[i].text != rules[j].text
    requires forall i :: 0 <= i < 5 ==> rules[i].text != generic
    ensures var fired := FiredTexts(rules);
      var factors := if fired == [] then [generic] else fired;
      && (forall i :: 0 <= i < 5 ==> (rules[i].text in factors <==> rules[i].fires))
      && (generic in factors <==> forall i :: 0 <= i < 5 ==> !rules[i].fires)
      && (generic in factors ==> factors == [generic])
  {
    var fired := FiredTexts(rules);
    forall i | 0 <= i < 5
      ensures rules[i].text in fired <==> rules[i].fires
    {
      FiredTextsMembers(rules, rules[i].text);
    }
    FiredTextsMembers(rules, generic);
    if fired != [] {
      FiredTextsMembers(rules, fired[0]);
    }
  }

  /**
   * For a vector built by `extract_features`, the factors are exactly:
   * the flag text when the flag is truthy, the peak-season text in February,
   * March, October and November, the weekend text on Saturday and Sunday, in
   * that order; long-haul and low-reliability never fire, and the generic
   * text stands alone when none of the three applies.
   */
  lemma RiskFactorsOfExtracted(d: ShipmentData, enc: Encoders, now: Clock)
    requires !d.riskFlag.Unconvertible?
    ensures var (month, weekday) := TravelDate(d.etd, now);
      var fired :=
        (if RiskFlagTruthy(d.riskFlag) then [FlaggedText] else [])
        + (if month in {2, 3, 10, 11} then [PeakText] else [])
        + (if weekday in {5, 6} then [WeekendText] else []);
      RiskFactors(d.riskFlag, ExtractFeatures(d, enc, now).value) == if fired == [] then [GenericText] else fired
  {
    var features := ExtractFeatures(d, enc, now).value;
    var (month, weekday) := TravelDate(d.etd, now);
    ExtractedSlots(d, enc, now);
    PeakSeasonMonths(month);
    WeekendDays(weekday);
    var rules := Rules(d.riskFlag, features);
    FiredTextsOfFive(rules);
  }

  /** A banded recommendation; the delay bands carry the probability quoted in their text. */
  datatype Recommendation =
    | HighRisk(delayProbability: real)
    | ModerateRisk(delayProbability: real)
    | PossibleDelay(delayProbability: real)
    | OnTrack
    | KeepMonitoring

  /** `_generate_recommendation`: a total function of the verdict and the confidence. */
  function GenerateRecommendation(willDelay: bool, confidence: real, delayProbability: real): (r: Recommendation)
    ensures r.HighRisk? <==> willDelay && confidence > 0.80
    ensures r.ModerateRisk? <==> willDelay && 0.60 < confidence <= 0.80
    ensures r.PossibleDelay? <==> willDelay && confidence <= 0.60
    ensures r.OnTrack? <==> !willDelay && confidence > 0.90
    ensures r.KeepMonitoring? <==> !willDelay && confidence <= 0.90
    ensures willDelay ==> r.delayProbability == delayProbability
  {
    if willDelay then
      if confidence > 0.80 then HighRisk(delayProbability)
      else if confidence > 0.60 then ModerateRisk(delayProbability)
      else PossibleDelay(delayProbability)
    else if confidence > 0.90 then OnTrack
    else KeepMonitoring
  }

  /** How alarming a recommendation is: possible delay 1, moderate 2, high 3 (0 for the on-time ones). */
  function Alarm(r: Recommendation): nat
  {
    match r
    case HighRisk(_) => 3
    case ModerateRisk(_) => 2
    case PossibleDelay(_) => 1
    case _ => 0
  }

  /** For a delay verdict, more confidence never yields a milder band. */
  lemma AlarmMonotone(c1: real, c2: real, p: real)
    requires c1 <= c2
    ensures Alarm(GenerateRecommendation(true, c1, p)) <= Alarm(GenerateRecommendation(true, c2, p))
    ensures Alarm(GenerateRecommendation(true, c1, p)) >= 1
  {
  }

  /**
   * The recommendation text; `percent` is `f"{delay_probability*100:.0f}"`,
   * whose formatting is not part of this model.
   */
  function RecommendationText(r: Recommendation, percent: string): (text: string)
    ensures r.OnTrack? ==> text == "Low delay risk - shipment on track for on-time delivery."
    ensures r.KeepMonitoring? ==> text == "Moderate confidence in on-time delivery - continue monitoring."
  {
    match r
    case HighRisk(_) =>
      "HIGH RISK: " + percent + "% chance of delay. "
      + "Consider: (1) Notify customer proactively, (2) Explore alternative routing, "
      + "(3) Monitor closely for early intervention."
    case ModerateRisk(_) =>
      "MODERATE RISK: " + percent + "% chance of delay. "
      + "Recommend increased monitoring and customer communication."
    case PossibleDelay(_) =>
      "POSSIBLE DELAY: " + percent + "% chance. " + "Continue normal monitoring."
    case OnTrack => "Low delay risk - shipment on track for on-time delivery."
    case KeepMonitoring => "Moderate confidence in on-time delivery - continue monitoring."
  }

  /** The largest of a non-empty list of probabilities, Python's `max`. */
  function Max(xs: seq<real>): (m: real)
    requires xs != []
    ensures m in xs
    ensures forall x :: x in xs ==> x <= m
  {
    if |xs| == 1 then xs[0]
    else
      var rest := Max(xs[1..]);
      assert forall x :: x in xs ==> x == xs[0] || x in xs[1..];
      if xs[0] >= rest then xs[0] else rest
  }

  /** The classifier's answer for one vector: a class and per-class probabilities, or an exception. */
  datatype ClassifierReply = Output(predictedClass: int, probabilities: seq<real>) | Raised

  /** Why `predict` reported failure. */
  datatype PredictError = NoFeatures | ClassifierFault

  /** The dictionary `predict` returns. */
  datatype Prediction =
    | Failed(error: PredictError)
    | Predicted(
        willDelay: bool,
        confidence: real,
        delayProbability: real,
        riskFactors: seq<string>,
        recommendation: Recommendation,
        modelAccuracy: real)

  /**
   * `predict`: extract the features, ask the classifier, and read its answer.
   * Indexing `probabilities[1]` or taking `max` of too short a list raises,
   * which `predict` reports as a failure like a classifier exception.
   */
  function Predict(d: ShipmentData, enc: Encoders, now: Clock, classify: seq<real> -> ClassifierReply, accuracy: real): (p: Prediction)
    ensures ExtractFeatures(d, enc, now).None? ==> p == Failed(NoFeatures)
    ensures p.Failed? <==>
      ExtractFeatures(d, enc, now).None?
      || classify(ExtractFeatures(d, enc, now).value).Raised?
      || |classify(ExtractFeatures(d, enc, now).value).probabilities| < 2
    ensures p.Predicted? ==>
      var out := classify(ExtractFeatures(d, enc, now).value);
      && (p.willDelay <==> out.predictedClass == 1)
      && p.delayProbability == out.probabilities[1]
      && p.confidence in out.probabilities
      && (forall q :: q in out.probabilities ==> q <= p.confidence)
      && p.delayProbability <= p.confidence
      && p.riskFactors == RiskFactors(d.riskFlag, ExtractFeatures(d, enc, now).value)
      && p.recommendation == GenerateRecommendation(p.willDelay, p.confidence, p.delayProbability)
      && p.modelAccuracy == accuracy
  {
    match ExtractFeatures(d, enc, now)
    case None => Failed(NoFeatures)
    case Some(features) =>
      match classify(features)
      case Raised => Failed(ClassifierFault)
      case Output(cls, probs) =>
        if |probs| < 2 then Failed(ClassifierFault)
        else
          var willDelay := cls == 1;
          var delayProbability := probs[1];
          assert delayProbability in probs;
          var confidence := Max(probs);
          Predicted(
            willDelay, confidence, delayProbability,
            RiskFactors(d.riskFlag, features),
            GenerateRecommendation(willDelay, confidence, delayProbability),
            accuracy)
  }

  /** A successful prediction always carries at least one risk factor and a recommendation agreeing with its verdict. */
  lemma PredictionConsistent(d: ShipmentData, enc: Encoders, now: Clock, classify: seq<real> -> ClassifierReply, accuracy: real)
    requires Predict(d, enc, now, classify, accuracy).Predicted?
    ensures var p := Predict(d, enc, now, classify, accuracy);
      && p.riskFactors != []
      && (p.willDelay <==> Alarm(p.recommendation) >= 1)
  {
  }

  /** A shipment in March flagged as high risk, on a Saturday. */
  lemma FlaggedPeakWeekendScenario(enc: Encoders, now: Clock)
    ensures var d := ShipmentData(None, None, None, None, Parsed(3, 5), Convertible(1, true));
      RiskFactors(d.riskFlag, ExtractFeatures(d, enc, now).value) == [FlaggedText, PeakText, WeekendText]
  {
    var d := ShipmentData(None, None, None, None, Parsed(3, 5), Convertible(1, true));
    RiskFactorsOfExtracted(d, enc, now);
  }
}
