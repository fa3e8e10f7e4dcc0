/** Confidence bands: from a suggestion and two risk scores to a verdict and a review flag. */
module Thresholds {
  import opened Domain

  datatype ThresholdConfig = ThresholdConfig(
    autoAllow: real, autoBlock: real,
    nsfwBlock: real, nsfwFlag: real, violenceBlock: real, violenceFlag: real)

  const DEFAULT: ThresholdConfig := ThresholdConfig(0.85, 0.90, 0.85, 0.45, 0.80, 0.40)

  datatype Route = Route(verdict: Decision, review: bool, reasons: seq<string>)

  predicate Hard(t: ThresholdConfig, nsfw: real, violence: real) {
    nsfw >= t.nsfwBlock || violence >= t.violenceBlock
  }

  /** In the flag band: soft risk without hard risk. */
  predicate Soft(t: ThresholdConfig, nsfw: real, violence: real) {
    !Hard(t, nsfw, violence) && (nsfw >= t.nsfwFlag || violence >= t.violenceFlag)
  }

  /** route_decision. */
  function RouteDecision(t: ThresholdConfig, suggested: Decision, confidence: real, nsfw: real, violence: real): Route {
    if nsfw >= t.nsfwBlock || violence >= t.violenceBlock then
      if confidence >= t.autoBlock then Route(BLOCK, false, ["hard_signal_block_threshold"])
      else Route(BLOCK, true, ["hard_signal_block_threshold", "low_confidence_block_needs_review"])
    else if nsfw >= t.nsfwFlag || violence >= t.violenceFlag then
      Route(FLAG, true, ["soft_signal_flag_band"])
    else
      match suggested
      case BLOCK =>
        if confidence >= t.autoBlock then Route(BLOCK, false, [])
        else Route(FLAG, true, ["block_below_auto_threshold"])
      case ALLOW =>
        if confidence >= t.autoAllow then Route(ALLOW, false, [])
        else Route(FLAG, true, ["allow_below_auto_threshold"])
      case FLAG => Route(FLAG, true, ["classifier_flagged"])
  }

  function Severity(d: Decision): int {
    match d case ALLOW => 0 case FLAG => 1 case BLOCK => 2
  }

  /**
   Higher risk scores lower the verdict in one case only, and exactly then: the classifier
   suggests a block confidently enough to block alone, and the scores enter the flag band.
   */
  lemma SeverityDropsIff(t: ThresholdConfig, suggested: Decision, confidence: real,
                         nsfw: real, violence: real, nsfw': real, violence': real)
    requires nsfw <= nsfw' && violence <= violence'
    ensures Severity(RouteDecision(t, suggested, confidence, nsfw', violence').verdict)
              < Severity(RouteDecision(t, suggested, confidence, nsfw, violence).verdict)
            <==> suggested == BLOCK && confidence >= t.autoBlock
                 && !Hard(t, nsfw, violence) && !Soft(t, nsfw, violence) && Soft(t, nsfw', violence')
  {
    if Hard(t, nsfw, violence) { assert Hard(t, nsfw', violence'); }
  }

  /** Unless a block was suggested, severity is monotone in both scores. */
  lemma SeverityIsMonotone(t: ThresholdConfig, suggested: Decision, confidence: real,
                           nsfw: real, violence: real, nsfw': real, violence': real)
    requires nsfw <= nsfw' && violence <= violence' && suggested != BLOCK
    ensures Severity(RouteDecision(t, suggested, confidence, nsfw, violence).verdict)
              <= Severity(RouteDecision(t, suggested, confidence, nsfw', violence').verdict)
  {
    SeverityDropsIff(t, suggested, confidence, nsfw, violence, nsfw', violence');
  }

  /** More confidence never adds a review, and never weakens a block or an allow already given. */
  lemma ConfidenceNeverAddsReview(t: ThresholdConfig, suggested: Decision, low: real, high: real,
                                  nsfw: real, violence: real)
    requires low <= high
    ensures var a := RouteDecision(t, suggested, low, nsfw, violence);
            var b := RouteDecision(t, suggested, high, nsfw, violence);
            && (b.review ==> a.review)
            && (!a.review ==> b == a)
  {
  }

  /** A verdict goes out without a human exactly when it is a confident block or a confident, riskless allow. */
  lemma UnreviewedIff(t: ThresholdConfig, suggested: Decision, confidence: real, nsfw: real, violence: real)
    ensures var r := RouteDecision(t, suggested, confidence, nsfw, violence);
            && (r.verdict == FLAG ==> r.review)
            && (!r.review <==>
                  || (confidence >= t.autoBlock
                      && (Hard(t, nsfw, violence) || (suggested == BLOCK && !Soft(t, nsfw, violence))))
                  || (confidence >= t.autoAllow && suggested == ALLOW
                      && !Hard(t, nsfw, violence) && !Soft(t, nsfw, violence)))
  {
  }

  /** Exactly when each verdict comes out, for all bands. */
  lemma VerdictIff(t: ThresholdConfig, suggested: Decision, confidence: real, nsfw: real, violence: real)
    ensures var v := RouteDecision(t, suggested, confidence, nsfw, violence).verdict;
            && (v == BLOCK <==>
                  || nsfw >= t.nsfwBlock || violence >= t.violenceBlock
                  || (suggested == BLOCK && confidence >= t.autoBlock
                      && nsfw < t.nsfwFlag && violence < t.violenceFlag))
            && (v == ALLOW <==>
                  && suggested == ALLOW && confidence >= t.autoAllow
                  && nsfw < t.nsfwBlock && violence < t.violenceBlock
                  && nsfw < t.nsfwFlag && violence < t.violenceFlag)
  {
  }

  /** The reasons say which rule decided, and every review has its reason. */
  lemma ReasonsTell(t: ThresholdConfig, suggested: Decision, confidence: real, nsfw: real, violence: real)
    ensures var r := RouteDecision(t, suggested, confidence, nsfw, violence);
            var calm := !Hard(t, nsfw, violence) && !Soft(t, nsfw, violence);
            && ("hard_signal_block_threshold" in r.reasons <==> Hard(t, nsfw, violence))
            && ("low_confidence_block_needs_review" in r.reasons <==>
                  Hard(t, nsfw, violence) && confidence < t.autoBlock)
            && ("soft_signal_flag_band" in r.reasons <==> Soft(t, nsfw, violence))
            && ("block_below_auto_threshold" in r.reasons <==>
                  calm && suggested == BLOCK && confidence < t.autoBlock)
            && ("allow_below_auto_threshold" in r.reasons <==>
                  calm && suggested == ALLOW && confidence < t.autoAllow)
            && ("classifier_flagged" in r.reasons <==> calm && suggested == FLAG)
            && (r.review <==> r.reasons != [] && r.reasons != ["hard_signal_block_threshold"])
  {
    Distinct();
  }

  lemma Distinct()
    ensures |"hard_signal_block_threshold"| == 27 && |"low_confidence_block_needs_review"| == 33
    ensures |"soft_signal_flag_band"| == 21 && |"block_below_auto_threshold"| == 26
    ensures |"allow_below_auto_threshold"| == 26 && |"classifier_flagged"| == 18
    ensures "block_below_auto_threshold"[0] != "allow_below_auto_threshold"[0]
  {
  }

  /** The bands in force by default. */
  lemma DefaultBands(suggested: Decision, confidence: real, nsfw: real, violence: real)
    ensures var r := RouteDecision(DEFAULT, suggested, confidence, nsfw, violence);
            && (r.verdict == BLOCK <==>
                  nsfw >= 0.85 || violence >= 0.80
                  || (suggested == BLOCK && confidence >= 0.90 && nsfw < 0.45 && violence < 0.40))
            && (r.verdict == ALLOW <==> suggested == ALLOW && confidence >= 0.85 && nsfw < 0.45 && violence < 0.40)
            && (r.review <==> r.verdict == FLAG || (r.verdict == BLOCK && confidence < 0.90))
  {
    VerdictIff(DEFAULT, suggested, confidence, nsfw, violence);
  }
}
