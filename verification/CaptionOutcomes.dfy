/**
 What the default bands make of a caption, in the caption's own words: the whole table of
 verdicts, reviews and confidences for readable and unreadable images.
 */
module CaptionOutcomes {
  import opened Domain
  import opened Text
  import opened Thresholds
  import opened Vision
  import opened RulesClassifier
  import opened DecisionPipeline

  // ---------------------------------------------------------------- words and patterns

  predicate Explicit(cap: string) {
    Contains(cap, "nsfw") || Contains(cap, "nude") || Contains(cap, "explicit") || Contains(cap, "porn")
    || Contains(cap, "xxx")
  }

  predicate Violent(cap: string) {
    Contains(cap, "violence") || Contains(cap, "blood") || Contains(cap, "weapon") || Contains(cap, "gun")
    || Contains(cap, "kill") || Contains(cap, "fight")
  }

  predicate Safe(cap: string) {
    Contains(cap, "nature") || Contains(cap, "landscape") || Contains(cap, "food") || Contains(cap, "cat")
    || Contains(cap, "dog") || Contains(cap, "family") || Contains(cap, "sunset")
  }

  lemma WordsAre(cap: string)
    ensures AnyIn(NSFW_TERMS, cap) <==> Explicit(cap)
    ensures AnyIn(VIOLENCE_TERMS, cap) <==> Violent(cap)
    ensures AnyIn(SAFE_TERMS, cap) <==> Safe(cap)
  {
    assert NSFW_TERMS[0] == "nsfw" && NSFW_TERMS[1] == "nude" && NSFW_TERMS[2] == "explicit";
    assert NSFW_TERMS[3] == "porn" && NSFW_TERMS[4] == "xxx";
    assert VIOLENCE_TERMS[0] == "violence" && VIOLENCE_TERMS[1] == "blood" && VIOLENCE_TERMS[2] == "weapon";
    assert VIOLENCE_TERMS[3] == "gun" && VIOLENCE_TERMS[4] == "kill" && VIOLENCE_TERMS[5] == "fight";
    assert SAFE_TERMS[0] == "nature" && SAFE_TERMS[1] == "landscape" && SAFE_TERMS[2] == "food";
    assert SAFE_TERMS[3] == "cat" && SAFE_TERMS[4] == "dog" && SAFE_TERMS[5] == "family" && SAFE_TERMS[6] == "sunset";
  }

  predicate Banned(lex: Lexicon, text: string) {
    lex.matches("\\b(kill yourself|kys)\\b", text) || lex.matches("\\b(nazi|white power)\\b", text)
    || lex.matches("\\b(child porn|csam)\\b", text)
  }

  predicate Suspect(lex: Lexicon, text: string) {
    lex.matches("\\b(hate|racist|slur)\\b", text) || lex.matches("\\b(threat|bomb|terror)\\b", text)
    || lex.matches("\\b(drugs? for sale|buy cocaine)\\b", text)
  }

  lemma HitsAre(lex: Lexicon, text: string)
    ensures AnyHit(lex, BLOCK_PATTERNS, text) <==> Banned(lex, text)
    ensures AnyHit(lex, FLAG_PATTERNS, text) <==> Suspect(lex, text)
  {
    assert BLOCK_PATTERNS[0] == "\\b(kill yourself|kys)\\b" && BLOCK_PATTERNS[1] == "\\b(nazi|white power)\\b";
    assert BLOCK_PATTERNS[2] == "\\b(child porn|csam)\\b";
    assert FLAG_PATTERNS[0] == "\\b(hate|racist|slur)\\b" && FLAG_PATTERNS[1] == "\\b(threat|bomb|terror)\\b";
    assert FLAG_PATTERNS[2] == "\\b(drugs? for sale|buy cocaine)\\b";
  }

  // ---------------------------------------------------------------- scores and text

  /** The two scores of a readable image, by pixels and words. */
  lemma ScoresTell(px: Pixels, cap: string)
    requires px.Readable?
    ensures var v := LocalSignals(px, cap);
            && v.nsfw == (if Contains(cap, "force_nsfw") then 0.95
                          else if Explicit(cap) then (if Safe(cap) then 0.08 else 0.92) else 0.05)
            && v.violence == (if Contains(cap, "force_violence") then 0.93
                              else if Safe(cap) then (if Violent(cap) || px.dark || px.warm then 0.08 else 0.05)
                              else if Violent(cap) then 0.88
                              else if px.dark then 0.35 else if px.warm then 0.25 else 0.05)
  {
    WordsAre(cap);
  }

  /** What stands behind the first "ocr:" of the caption, stripped and cut to 500 characters, is the text read. */
  lemma OcrTells(cap: string, before: string, behind: string) returns (front: string, text: string, back: string)
    requires cap == before + "ocr:" + behind && forall k | 0 <= k < |before| :: !OccursAt(cap, "ocr:", k)
    ensures behind == front + text + back && Blank(front) && Blank(back) && Trimmed(text)
    ensures OcrText(cap) == if |text| <= 500 then text else text[..500]
  {
    assert OccursAt(cap, "ocr:", |before|);
    assert Find(cap, "ocr:", 0) == |before| && After(cap, "ocr:") == behind;
    text := Strip(behind);
    front, back := StripCuts(behind);
  }

  /** The text the patterns are matched against. */
  function Read(caption: string, lex: Lexicon): string { lex.lower(caption + "\n" + OcrText(lex.lower(caption))) }

  predicate Ambiguous(text: string) { Contains(text, "uncertain") || Contains(text, "maybe") }

  /** A word that no safe word excuses, or a forcing word. */
  predicate Risky(cap: string) { Forced(cap) || (!Safe(cap) && (Explicit(cap) || Violent(cap))) }

  // ---------------------------------------------------------------- the table

  function ConfidenceOf(cap: string, banned: bool, suspect: bool, ambiguous: bool, long: bool): real {
    if banned then 0.97
    else if suspect then 0.72
    else if Contains(cap, "force_nsfw") then 0.9375
    else if Contains(cap, "force_violence") then 0.9325
    else if !Safe(cap) && Explicit(cap) then 0.93
    else if !Safe(cap) && Violent(cap) then 0.92
    else if ambiguous then 0.62
    else if long then 0.91 else 0.78
  }

  function RationaleOf(banned: bool, suspect: bool, risky: bool, ambiguous: bool): string {
    if banned then "Matched hard policy block pattern"
    else if suspect then "Matched soft policy flag pattern"
    else if risky then "High vision risk fused into block"
    else if ambiguous then "Ambiguous language — route to human"
    else "No policy hits; vision risk low"
  }

  /** What the classifier makes of a readable image. */
  lemma SuggestionTells(px: Pixels, caption: string, lex: Lexicon)
    requires px.Readable?
    ensures var cap, text := lex.lower(caption), Read(caption, lex);
            var s := Suggested(LocalSignals(px, cap), caption, lex);
            && s.score == ConfidenceOf(cap, Banned(lex, text), Suspect(lex, text), Ambiguous(text),
                                       |Strip(caption)| > 8)
            && (s.verdict == BLOCK <==> Banned(lex, text) || (!Suspect(lex, text) && Risky(cap)))
            && (s.verdict == ALLOW <==>
                  !Banned(lex, text) && !Suspect(lex, text) && !Risky(cap) && !Ambiguous(text))
  {
    ScoresTell(px, lex.lower(caption));
    HitsAre(lex, Read(caption, lex));
  }

  /** And what it says about it. */
  lemma RationaleTells(px: Pixels, caption: string, lex: Lexicon)
    requires px.Readable?
    ensures var cap, text := lex.lower(caption), Read(caption, lex);
            Suggested(LocalSignals(px, cap), caption, lex).rationale
            == RationaleOf(Banned(lex, text), Suspect(lex, text), Risky(cap), Ambiguous(text))
  {
    ScoresTell(px, lex.lower(caption));
    HitsAre(lex, Read(caption, lex));
  }

  /** Under the default bands, for a readable image: the verdict, the review and the confidence of every caption. */
  lemma ReadableOutcome(px: Pixels, caption: string, lex: Lexicon)
    requires px.Readable?
    ensures var cap, text := lex.lower(caption), Read(caption, lex);
            var j, banned, suspect := Judged(px, caption, lex, DEFAULT), Banned(lex, text), Suspect(lex, text);
            && (j.verdict == BLOCK <==> Risky(cap) || banned)
            && (j.verdict == ALLOW <==>
                  !Risky(cap) && !banned && !suspect && !Ambiguous(text) && |Strip(caption)| > 8)
            && (j.review <==> j.verdict == FLAG || (Risky(cap) && suspect && !banned))
            && j.confidence == ConfidenceOf(cap, banned, suspect, Ambiguous(text), |Strip(caption)| > 8)
  {
    ScoresTell(px, lex.lower(caption));
    SuggestionTells(px, caption, lex);
  }

  /** Exactly when an image that can be read goes out with nobody looking. */
  lemma AllowedIff(px: Pixels, caption: string, lex: Lexicon)
    requires px.Readable?
    ensures var cap, text, j := lex.lower(caption), Read(caption, lex), Judged(px, caption, lex, DEFAULT);
            j.verdict == ALLOW && !j.review <==>
              && !Banned(lex, text) && !Suspect(lex, text) && !Forced(cap)
              && (Safe(cap) || (!Explicit(cap) && !Violent(cap)))
              && !Ambiguous(text) && |Strip(caption)| > 8
  {
    ReadableOutcome(px, caption, lex);
  }

  /** An explicit or violent word that no safe word excuses always blocks. */
  lemma CueIsBlocked(px: Pixels, caption: string, lex: Lexicon)
    requires px.Readable? && !Safe(lex.lower(caption))
    requires Explicit(lex.lower(caption)) || Violent(lex.lower(caption))
    ensures Judged(px, caption, lex, DEFAULT).verdict == BLOCK
  {
    ReadableOutcome(px, caption, lex);
  }

  /** And for an unreadable image, whose caption is searched for patterns alone. */
  lemma UnreadableOutcome(seen: seq<string>, caption: string, lex: Lexicon)
    ensures var j, text := Judged(Unreadable(seen), caption, lex, DEFAULT), lex.lower(caption + "\n");
            && LocalSignals(Unreadable(seen), lex.lower(caption))
               == VisionSignals(seen + ["unreadable_image"], 0.5, 0.5, "")
            && j.verdict == FLAG && j.review
            && j.confidence == if Banned(lex, text) then 0.97 else if Suspect(lex, text) then 0.72 else 0.65
  {
    assert caption + "\n" + "" == caption + "\n";
    HitsAre(lex, lex.lower(caption + "\n"));
  }

  // ---------------------------------------------------------------- the reasons listed

  /** The reasons are the router's, the classifier's if it gave one, and the first five labels, in this order. */
  lemma QuotedTells(route: seq<string>, rationale: string, labels: seq<string>)
    ensures var q, n := Quoted(route, rationale, labels), if rationale == "" then 0 else 1;
            && route <= q && (n == 1 ==> |q| > |route| && q[|route|] == rationale)
            && |q| == |route| + n + (if |labels| < 5 then |labels| else 5)
            && forall k | 0 <= k < 5 && k < |labels| :: q[|route| + n + k] == labels[k]
  {
  }

  lemma TaggedHas(c: bool, tag: string, labels: seq<string>, word: string)
    ensures word in labels + Tagged(c, tag) <==> word in labels || (c && word == tag)
  {
  }

  /** Behind the size of a readable image, each label says what it names, and there is no other. */
  lemma LabelsTell(px: Pixels, cap: string, word: string)
    requires px.Readable?
    ensures var ls := LocalSignals(px, cap).labels;
            && ls != [] && ls[0] == px.resolution
            && (word in ls[1..] <==>
                  || (px.warm && word == "warm_tones") || (px.dark && word == "dark_scene")
                  || (px.bright && word == "bright_scene") || (px.contrast && word == "high_contrast")
                  || (Explicit(cap) && word == "caption_nsfw_cue") || (Violent(cap) && word == "caption_violence_cue")
                  || (Safe(cap) && word == "caption_safe_cue")
                  || (Contains(cap, "force_nsfw") && word == "force_nsfw")
                  || (Contains(cap, "force_violence") && word == "force_violence"))
  {
    WordsAre(cap);
    var c := CuesOf(cap);
    PixelTags(px, word);
    CaptionTags(c, word);
    BehindFirst(PixelLabels(px), CaptionLabels(c), word);
  }

  lemma BehindFirst(a: seq<string>, b: seq<string>, word: string)
    requires a != []
    ensures word in (a + b)[1..] <==> word in a[1..] || word in b
  {
    assert (a + b)[1..] == a[1..] + b;
  }

  lemma PixelTags(px: Pixels, word: string)
    requires px.Readable?
    ensures |PixelLabels(px)| > 0 && PixelLabels(px)[0] == px.resolution
    ensures word in PixelLabels(px)[1..] <==>
              || (px.warm && word == "warm_tones") || (px.dark && word == "dark_scene")
              || (px.bright && word == "bright_scene") || (px.contrast && word == "high_contrast")
  {
    var none: seq<string> := [];
    var one := none + Tagged(px.warm, "warm_tones");
    var two := one + Tagged(px.dark, "dark_scene");
    var three := two + Tagged(px.bright, "bright_scene");
    TaggedHas(px.warm, "warm_tones", none, word);
    TaggedHas(px.dark, "dark_scene", one, word);
    TaggedHas(px.bright, "bright_scene", two, word);
    TaggedHas(px.contrast, "high_contrast", three, word);
    assert PixelLabels(px)[1..] == three + Tagged(px.contrast, "high_contrast");
  }

  lemma CaptionTags(c: Cues, word: string)
    ensures word in CaptionLabels(c) <==>
              || (c.nsfw && word == "caption_nsfw_cue") || (c.violence && word == "caption_violence_cue")
              || (c.safe && word == "caption_safe_cue")
              || (c.forceNsfw && word == "force_nsfw") || (c.forceViolence && word == "force_violence")
  {
    var one := Tagged(c.nsfw, "caption_nsfw_cue");
    var two := one + Tagged(c.violence, "caption_violence_cue");
    var three := two + Tagged(c.safe, "caption_safe_cue");
    var four := three + Tagged(c.forceNsfw, "force_nsfw");
    TaggedHas(c.violence, "caption_violence_cue", one, word);
    TaggedHas(c.safe, "caption_safe_cue", two, word);
    TaggedHas(c.forceNsfw, "force_nsfw", three, word);
    TaggedHas(c.forceViolence, "force_violence", four, word);
  }
}
