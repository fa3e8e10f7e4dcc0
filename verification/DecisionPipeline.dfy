/**
 The decision path of process_job: vision, classification, routing. Under the default
 bands the outcome depends on the caption alone once the image is readable; the exact
 condition on the bands for this is PixelBlind.
 */
module DecisionPipeline {
  import opened Domain
  import opened Text
  import opened Thresholds
  import opened Vision
  import opened RulesClassifier

  /** What the pipeline decides, leaving out the labels it quotes. */
  datatype Judgement = Judgement(verdict: Decision, confidence: real, review: bool, routeReasons: seq<string>)

  // ---------------------------------------------------------------- specification

  function FirstFive(labels: seq<string>): seq<string> { if |labels| <= 5 then labels else labels[..5] }

  /** The reasons an envelope lists: the router's, the classifier's, and at most five labels. */
  function Quoted(route: seq<string>, rationale: string, labels: seq<string>): seq<string> {
    route + (if rationale != "" then [rationale] else []) + FirstFive(labels)
  }

  function Judged(px: Pixels, caption: string, lex: Lexicon, t: ThresholdConfig): Judgement {
    var v := LocalSignals(px, lex.lower(caption));
    var s := Suggested(v, caption, lex);
    var r := RouteDecision(t, s.verdict, s.score, v.nsfw, v.violence);
    Judgement(r.verdict, s.score, r.review, r.reasons)
  }

  /** The analysis part of process_job, with its extra review test and its list of reasons. */
  method Decide(px: Pixels, caption: string, lex: Lexicon, t: ThresholdConfig)
    returns (j: Judgement, reasons: seq<string>)
    ensures j == Judged(px, caption, lex, t)
    ensures var v := LocalSignals(px, lex.lower(caption));
            reasons == Quoted(j.routeReasons, Suggested(v, caption, lex).rationale, v.labels)
  {
    var vision := Analyze(px, caption, lex.lower);
    var suggested, llm := Classify(caption, vision, lex);
    var route := RouteDecision(t, suggested, llm.score, vision.nsfw, vision.violence);
    reasons := route.reasons;
    if llm.rationale != "" { reasons := reasons + [llm.rationale]; }
    reasons := reasons + FirstFive(vision.labels);
    ExtraReviewTestIsRedundant(t, suggested, llm.score, vision.nsfw, vision.violence);
    j := Judgement(route.verdict, llm.score, route.review || route.verdict == FLAG, route.reasons);
  }

  // ---------------------------------------------------------------- pixel independence

  /** No band separates two violence scores that pixels alone can produce. */
  predicate PixelBlind(t: ThresholdConfig) {
    || t.nsfwBlock <= 0.05
    || t.violenceBlock <= 0.05
    || (0.35 < t.violenceBlock
        && (t.nsfwFlag <= 0.05 || t.violenceFlag <= 0.05 || 0.35 < t.violenceFlag))
  }

  ghost predicate IgnoresPixels(lex: Lexicon, t: ThresholdConfig) {
    forall caption: string, px: Pixels, px': Pixels | px.Readable? && px'.Readable? ::
      Judged(px, caption, lex, t) == Judged(px', caption, lex, t)
  }

  /** Pixels move the violence score within [0.05, 0.35] or not at all. */
  lemma PixelRange(px: Pixels, px': Pixels, c: Cues)
    requires px.Readable? && px'.Readable?
    ensures var a, b := ViolenceScore(PixelViolence(px), c), ViolenceScore(PixelViolence(px'), c);
            a == b || (0.05 <= a <= 0.35 && 0.05 <= b <= 0.35)
  {
  }

  lemma SameSuggestion(px: Pixels, px': Pixels, caption: string, lex: Lexicon)
    requires px.Readable? && px'.Readable?
    ensures var cap := lex.lower(caption);
            Suggested(LocalSignals(px, cap), caption, lex) == Suggested(LocalSignals(px', cap), caption, lex)
  {
    PixelRange(px, px', CuesOf(lex.lower(caption)));
  }

  lemma SameRoute(t: ThresholdConfig, d: Decision, conf: real, c: Cues, px: Pixels, px': Pixels)
    requires px.Readable? && px'.Readable? && PixelBlind(t)
    ensures RouteDecision(t, d, conf, NsfwScore(c), ViolenceScore(PixelViolence(px), c))
            == RouteDecision(t, d, conf, NsfwScore(c), ViolenceScore(PixelViolence(px'), c))
  {
    PixelRange(px, px', c);
  }

  lemma BlindImpliesIgnores(px: Pixels, px': Pixels, caption: string, lex: Lexicon, t: ThresholdConfig)
    requires px.Readable? && px'.Readable? && PixelBlind(t)
    ensures Judged(px, caption, lex, t) == Judged(px', caption, lex, t)
  {
    var cap := lex.lower(caption);
    SameSuggestion(px, px', caption, lex);
    var s := Suggested(LocalSignals(px, cap), caption, lex);
    SameRoute(t, s.verdict, s.score, CuesOf(cap), px, px');
  }

  lemma NoCues()
    ensures CuesOf("") == Cues(false, false, false, false, false)
  {
  }

  /** Two pictures under an empty caption that bands without PixelBlind tell apart. */
  lemma SightedDistinguishes(lex: Lexicon, t: ThresholdConfig)
    requires lex.lower("") == "" && !PixelBlind(t)
    ensures !IgnoresPixels(lex, t)
  {
    var plain := Readable("resolution:1x1", false, false, false, false);
    var dark := Readable("resolution:1x1", false, true, false, false);
    NoCues();
    SameSuggestion(plain, dark, "", lex);
    var s := Suggested(LocalSignals(plain, ""), "", lex);
    assert RouteDecision(t, s.verdict, s.score, 0.05, 0.05).reasons
           != RouteDecision(t, s.verdict, s.score, 0.05, 0.35).reasons;
    assert Judged(plain, "", lex, t) != Judged(dark, "", lex, t);
  }

  /** The outcome ignores the pixels of readable images exactly when the bands are PixelBlind. */
  lemma IgnoresPixelsIff(lex: Lexicon, t: ThresholdConfig)
    requires lex.lower("") == ""
    ensures IgnoresPixels(lex, t) <==> PixelBlind(t)
  {
    if PixelBlind(t) {
      forall caption: string, px: Pixels, px': Pixels | px.Readable? && px'.Readable?
        ensures Judged(px, caption, lex, t) == Judged(px', caption, lex, t)
      {
        BlindImpliesIgnores(px, px', caption, lex, t);
      }
    } else {
      SightedDistinguishes(lex, t);
    }
  }

  /** In particular under the default bands, whatever str.lower does. */
  lemma DefaultIgnoresPixels(lex: Lexicon)
    ensures IgnoresPixels(lex, DEFAULT)
  {
    forall caption: string, px: Pixels, px': Pixels | px.Readable? && px'.Readable?
      ensures Judged(px, caption, lex, DEFAULT) == Judged(px', caption, lex, DEFAULT)
    {
      BlindImpliesIgnores(px, px', caption, lex, DEFAULT);
    }
  }

  // ---------------------------------------------------------------- forced outcomes

  /** Under any bands, an unreadable image is flagged, and then always reviewed, exactly when this holds. */
  lemma UnreadableIsFlaggedIff(seen: seq<string>, caption: string, lex: Lexicon, t: ThresholdConfig)
    ensures var j := Judged(Unreadable(seen), caption, lex, t);
            && (j.verdict == FLAG <==>
                  && !Hard(t, 0.5, 0.5)
                  && (Soft(t, 0.5, 0.5) || t.autoBlock > 0.97
                      || !AnyHit(lex, BLOCK_PATTERNS, lex.lower(caption + "\n"))))
            && (j.verdict == FLAG ==> j.review)
  {
    assert caption + "\n" + "" == caption + "\n";
  }

  /** Under the default bands that is every unreadable image, whatever its caption says. */
  lemma UnreadableIsFlagged(seen: seq<string>, caption: string, lex: Lexicon)
    ensures Judged(Unreadable(seen), caption, lex, DEFAULT).verdict == FLAG
    ensures Judged(Unreadable(seen), caption, lex, DEFAULT).review
    ensures Judged(Unreadable(seen), caption, lex, DEFAULT).routeReasons == ["soft_signal_flag_band"]
  {
    UnreadableIsFlaggedIff(seen, caption, lex, DEFAULT);
  }

  /** A caption that holds a forcing word. */
  predicate Forced(cap: string) { Contains(cap, "force_nsfw") || Contains(cap, "force_violence") }

  /** What the classifier makes of a forced caption: flag patterns outrank the forced risk, block patterns agree. */
  lemma ForcedSuggestion(px: Pixels, caption: string, lex: Lexicon)
    requires px.Readable? && Forced(lex.lower(caption))
    ensures var v := LocalSignals(px, lex.lower(caption));
            var s, text := Suggested(v, caption, lex), lex.lower(caption + "\n" + v.ocrText);
            if AnyHit(lex, BLOCK_PATTERNS, text) then s.verdict == BLOCK && s.score == 0.97
            else if AnyHit(lex, FLAG_PATTERNS, text) then s.verdict == FLAG
            else s.verdict == BLOCK && s.score == 0.7 + Max(v.nsfw, v.violence) * 0.25
  {
    var c := CuesOf(lex.lower(caption));
    var nsfw, violence := NsfwScore(c), ViolenceScore(PixelViolence(px), c);
    assert nsfw <= 0.95 && violence <= 0.93 && (nsfw == 0.95 || violence == 0.93);
  }

  /** Under any bands, exactly when a forcing word on a readable image ends in BLOCK; otherwise a human sees it. */
  lemma ForcedIsBlockedIff(px: Pixels, caption: string, lex: Lexicon, t: ThresholdConfig)
    requires px.Readable? && Forced(lex.lower(caption))
    ensures var v, j := LocalSignals(px, lex.lower(caption)), Judged(px, caption, lex, t);
            var text := lex.lower(caption + "\n" + v.ocrText);
            && (j.verdict == BLOCK <==>
                  || Hard(t, v.nsfw, v.violence)
                  || (!Soft(t, v.nsfw, v.violence)
                      && if AnyHit(lex, BLOCK_PATTERNS, text) then t.autoBlock <= 0.97
                         else !AnyHit(lex, FLAG_PATTERNS, text)
                              && t.autoBlock <= 0.7 + Max(v.nsfw, v.violence) * 0.25))
            && (j.verdict != BLOCK ==> j.verdict == FLAG && j.review)
  {
    ForcedSuggestion(px, caption, lex);
  }

  /** Under the default bands that is every forced caption, safe words or not. */
  lemma ForcedIsBlocked(px: Pixels, caption: string, lex: Lexicon)
    requires px.Readable? && Forced(lex.lower(caption))
    ensures Judged(px, caption, lex, DEFAULT).verdict == BLOCK
  {
    var c := CuesOf(lex.lower(caption));
    assert NsfwScore(c) >= DEFAULT.nsfwBlock || ViolenceScore(PixelViolence(px), c) >= DEFAULT.violenceBlock;
    ForcedIsBlockedIff(px, caption, lex, DEFAULT);
  }

  // ---------------------------------------------------------------- the one milder verdict, on real input

  /**
   * A caption without cues that matches a block pattern: blocked while the image can be read, flagged once it cannot,
   * although both scores are then higher.
   */
  lemma UnreadableSoftensBlock(px: Pixels, seen: seq<string>, caption: string, lex: Lexicon)
    requires px.Readable? && CuesOf(lex.lower(caption)) == Cues(false, false, false, false, false)
    requires !Contains(lex.lower(caption), "ocr:") && AnyHit(lex, BLOCK_PATTERNS, lex.lower(caption + "\n"))
    ensures var a, b := LocalSignals(px, lex.lower(caption)), LocalSignals(Unreadable(seen), lex.lower(caption));
            a.nsfw <= b.nsfw && a.violence <= b.violence
    ensures Judged(px, caption, lex, DEFAULT).verdict == BLOCK && !Judged(px, caption, lex, DEFAULT).review
    ensures Judged(Unreadable(seen), caption, lex, DEFAULT).verdict == FLAG
  {
    assert caption + "\n" + "" == caption + "\n";
    UnreadableIsFlagged(seen, caption, lex);
  }

  predicate NotKys(t: string) { |t| >= 3 && (|t| > 3 || t[0] != 'k') }

  lemma NotInKys(t: string)
    requires NotKys(t)
    ensures !Contains("kys", t)
  {
  }

  lemma NoneInKys(terms: seq<string>)
    requires forall t | t in terms :: NotKys(t)
    ensures !AnyIn(terms, "kys")
  {
    forall t | t in terms ensures !Contains("kys", t) { NotInKys(t); }
  }

  lemma NoCuesInKys()
    ensures CuesOf("kys") == Cues(false, false, false, false, false) && !Contains("kys", "ocr:")
  {
    NoneInKys(NSFW_TERMS);
    NoneInKys(VIOLENCE_TERMS);
    NoneInKys(SAFE_TERMS);
    NotInKys("force_nsfw");
    NotInKys("force_violence");
    NotInKys("ocr:");
  }

  /** The first block pattern read as Python does, as far as the caption below goes; lower leaves that caption alone. */
  const KYS_LEXICON := Lexicon(s => s, (p, text) => p == BLOCK_PATTERNS[0] && text == "kys\n")

  /** Such a caption: "kys". */
  lemma SeverityDropsOnRealInput()
    ensures Judged(Readable("resolution:1x1", false, false, false, false), "kys", KYS_LEXICON, DEFAULT).verdict == BLOCK
    ensures Judged(Unreadable([]), "kys", KYS_LEXICON, DEFAULT).verdict == FLAG
  {
    NoCuesInKys();
    assert "kys" + "\n" == "kys\n";
    assert KYS_LEXICON.matches(BLOCK_PATTERNS[0], "kys\n");
    UnreadableSoftensBlock(Readable("resolution:1x1", false, false, false, false), [], "kys", KYS_LEXICON);
  }

  /** The envelope's extra FLAG test never changes the review flag the router set. */
  lemma ExtraReviewTestIsRedundant(t: ThresholdConfig, suggested: Decision, confidence: real,
                                   nsfw: real, violence: real)
    ensures var r := RouteDecision(t, suggested, confidence, nsfw, violence);
            (r.review || r.verdict == FLAG) == r.review
  {
  }
}
