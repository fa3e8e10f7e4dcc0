/** The rules classifier: hard patterns, then soft patterns, then fused vision risk. */
module RulesClassifier {
  import opened Domain
  import opened Text
  import opened Vision

  /** str.lower and re.search(pattern, text, re.I), which lie outside the model. */
  datatype Lexicon = Lexicon(lower: string -> string, matches: (string, string) -> bool)

  const BLOCK_PATTERNS: seq<string> := [
    "\\b(kill yourself|kys)\\b", "\\b(nazi|white power)\\b", "\\b(child porn|csam)\\b"]

  const FLAG_PATTERNS: seq<string> := [
    "\\b(hate|racist|slur)\\b", "\\b(threat|bomb|terror)\\b", "\\b(drugs? for sale|buy cocaine)\\b"]

  /** The suggestion with its score; reasons names the pattern that fired, if any. */
  datatype LlmSignals = LlmSignals(verdict: Decision, score: real, rationale: string, reasons: seq<string>)

  /** p is the first of the patterns found in the text. */
  predicate FirstHit(lex: Lexicon, patterns: seq<string>, text: string, p: string) {
    exists i | 0 <= i < |patterns| ::
      patterns[i] == p && lex.matches(p, text) && forall k | 0 <= k < i :: !lex.matches(patterns[k], text)
  }

  predicate AnyHit(lex: Lexicon, patterns: seq<string>, text: string) {
    exists i | 0 <= i < |patterns| :: lex.matches(patterns[i], text)
  }

  /** The suggestion when no pattern fires. */
  function Fused(risk: real, caption: string, text: string): LlmSignals {
    if risk >= 0.85 then LlmSignals(BLOCK, Min(0.99, 0.7 + risk * 0.25), "High vision risk fused into block", [])
    else if risk >= 0.45 then LlmSignals(FLAG, 0.55 + risk * 0.2, "Elevated vision risk needs human review", [])
    else if Contains(text, "uncertain") || Contains(text, "maybe") then
      LlmSignals(FLAG, 0.62, "Ambiguous language — route to human", [])
    else
      LlmSignals(ALLOW, if |Strip(caption)| > 8 then 0.91 else 0.78, "No policy hits; vision risk low", [])
  }

  datatype Suggestion = Suggestion(verdict: Decision, score: real, rationale: string)

  /** What the classifier answers, apart from the pattern it quotes. */
  function Suggested(v: VisionSignals, caption: string, lex: Lexicon): Suggestion {
    var text := lex.lower(caption + "\n" + v.ocrText);
    if AnyHit(lex, BLOCK_PATTERNS, text) then Suggestion(BLOCK, 0.97, "Matched hard policy block pattern")
    else if AnyHit(lex, FLAG_PATTERNS, text) then Suggestion(FLAG, 0.72, "Matched soft policy flag pattern")
    else
      var llm := Fused(Max(v.nsfw, v.violence), caption, text);
      Suggestion(llm.verdict, llm.score, llm.rationale)
  }

  /** RulesPolicyClassifier.classify: two searches with early return, then arithmetic. */
  method Classify(caption: string, vision: VisionSignals, lex: Lexicon) returns (suggested: Decision, llm: LlmSignals)
    ensures suggested == llm.verdict
    ensures Suggestion(llm.verdict, llm.score, llm.rationale) == Suggested(vision, caption, lex)
    ensures var text := lex.lower(caption + "\n" + vision.ocrText);
            || (exists p :: FirstHit(lex, BLOCK_PATTERNS, text, p) && llm.reasons == ["block_pattern:" + p])
            || (!AnyHit(lex, BLOCK_PATTERNS, text)
                && exists p :: FirstHit(lex, FLAG_PATTERNS, text, p) && llm.reasons == ["flag_pattern:" + p])
            || (!AnyHit(lex, BLOCK_PATTERNS, text) && !AnyHit(lex, FLAG_PATTERNS, text) && llm.reasons == [])
  {
    var text := lex.lower(caption + "\n" + vision.ocrText);
    var reasons: seq<string> := [];
    for i := 0 to |BLOCK_PATTERNS|
      invariant reasons == []
      invariant forall k | 0 <= k < i :: !lex.matches(BLOCK_PATTERNS[k], text)
    {
      if lex.matches(BLOCK_PATTERNS[i], text) {
        reasons := reasons + ["block_pattern:" + BLOCK_PATTERNS[i]];
        llm := LlmSignals(BLOCK, 0.97, "Matched hard policy block pattern", reasons);
        assert FirstHit(lex, BLOCK_PATTERNS, text, BLOCK_PATTERNS[i]);
        return BLOCK, llm;
      }
    }
    for i := 0 to |FLAG_PATTERNS|
      invariant reasons == []
      invariant forall k | 0 <= k < i :: !lex.matches(FLAG_PATTERNS[k], text)
    {
      if lex.matches(FLAG_PATTERNS[i], text) {
        reasons := reasons + ["flag_pattern:" + FLAG_PATTERNS[i]];
        llm := LlmSignals(FLAG, 0.72, "Matched soft policy flag pattern", reasons);
        assert FirstHit(lex, FLAG_PATTERNS, text, FLAG_PATTERNS[i]);
        return FLAG, llm;
      }
    }
    var risk := Max(vision.nsfw, vision.violence);
    if risk >= 0.85 {
      llm := LlmSignals(BLOCK, Min(0.99, 0.7 + risk * 0.25), "High vision risk fused into block", []);
      return BLOCK, llm;
    }
    if risk >= 0.45 {
      llm := LlmSignals(FLAG, 0.55 + risk * 0.2, "Elevated vision risk needs human review", []);
      return FLAG, llm;
    }
    var confidence := if |Strip(caption)| > 8 then 0.91 else 0.78;
    if Contains(text, "uncertain") || Contains(text, "maybe") {
      confidence := 0.62;
      llm := LlmSignals(FLAG, confidence, "Ambiguous language — route to human", []);
      return FLAG, llm;
    }
    llm := LlmSignals(ALLOW, confidence, "No policy hits; vision risk low", []);
    return ALLOW, llm;
  }
}
