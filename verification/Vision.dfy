/**
 The local vision heuristic: pixel statistics nudge the violence score, caption words set
 both scores. What PIL measures is taken as given; text handling is real.
 */
module Vision {
  import opened Text

  /** What PIL reports: an exception, after the labels it got to, or a label for the size and four yes/no statistics. */
  datatype Pixels =
    | Unreadable(seen: seq<string>)
    | Readable(resolution: string, warm: bool, dark: bool, bright: bool, contrast: bool)

  datatype VisionSignals = VisionSignals(labels: seq<string>, nsfw: real, violence: real, ocrText: string)

  const NSFW_TERMS: seq<string> := ["nsfw", "nude", "explicit", "porn", "xxx"]
  const VIOLENCE_TERMS: seq<string> := ["violence", "blood", "weapon", "gun", "kill", "fight"]
  const SAFE_TERMS: seq<string> := ["nature", "landscape", "food", "cat", "dog", "family", "sunset"]

  predicate AnyIn(terms: seq<string>, cap: string) { exists t | t in terms :: Contains(cap, t) }

  function Max(a: real, b: real): real { if a < b then b else a }

  function Min(a: real, b: real): real { if b < a then b else a }

  /** The caption words that carry a meaning for the heuristic. */
  datatype Cues = Cues(nsfw: bool, violence: bool, safe: bool, forceNsfw: bool, forceViolence: bool)

  function CuesOf(cap: string): Cues {
    Cues(AnyIn(NSFW_TERMS, cap), AnyIn(VIOLENCE_TERMS, cap), AnyIn(SAFE_TERMS, cap),
         Contains(cap, "force_nsfw"), Contains(cap, "force_violence"))
  }

  // ---------------------------------------------------------------- what the scores mean

  /** The nsfw score depends on the caption alone. */
  function NsfwScore(c: Cues): real {
    if c.forceNsfw then 0.95
    else if c.safe then (if c.nsfw then 0.08 else 0.05)
    else if c.nsfw then 0.92
    else 0.05
  }

  /** The violence suggested by the picture: 0.05, 0.25 or 0.35. */
  function PixelViolence(px: Pixels): real
    requires px.Readable?
  {
    if px.dark then 0.35 else if px.warm then 0.25 else 0.05
  }

  /** The picture matters for the violence score only when no caption word does. */
  function ViolenceScore(pixels: real, c: Cues): real {
    if c.forceViolence then 0.93
    else
      var cued := if c.violence then Max(pixels, 0.88) else pixels;
      if c.safe then Min(cued, 0.08) else cued
  }

  function OcrText(cap: string): string {
    if Contains(cap, "ocr:") then
      var t := Strip(After(cap, "ocr:"));
      if |t| <= 500 then t else t[..500]
    else ""
  }

  function Tagged(c: bool, tag: string): seq<string> { if c then [tag] else [] }

  function PixelLabels(px: Pixels): seq<string>
    requires px.Readable?
  {
    [px.resolution] + Tagged(px.warm, "warm_tones") + Tagged(px.dark, "dark_scene") + Tagged(px.bright, "bright_scene")
    + Tagged(px.contrast, "high_contrast")
  }

  function WordLabels(c: Cues): seq<string> {
    Tagged(c.nsfw, "caption_nsfw_cue") + Tagged(c.violence, "caption_violence_cue") + Tagged(c.safe, "caption_safe_cue")
  }

  function CaptionLabels(c: Cues): seq<string> {
    WordLabels(c) + Tagged(c.forceNsfw, "force_nsfw") + Tagged(c.forceViolence, "force_violence")
  }

  function LocalSignals(px: Pixels, cap: string): VisionSignals {
    match px
    case Unreadable(seen) => VisionSignals(seen + ["unreadable_image"], 0.5, 0.5, "")
    case Readable(_, _, _, _, _) =>
      var c := CuesOf(cap);
      VisionSignals(PixelLabels(px) + CaptionLabels(c), NsfwScore(c), ViolenceScore(PixelViolence(px), c), OcrText(cap))
  }

  // ---------------------------------------------------------------- how they are computed

  /** The caption half of analyze: word cues (WordCues), then the forced bands. */
  method CaptionCues(c: Cues, labels0: seq<string>, violence0: real)
    returns (labels: seq<string>, nsfw: real, violence: real)
    ensures labels == labels0 + CaptionLabels(c)
    ensures nsfw == NsfwScore(c) && violence == ViolenceScore(violence0, c)
  {
    labels, nsfw, violence := WordCues(c, labels0, violence0);
    ghost var added := WordLabels(c);
    if c.forceNsfw {
      nsfw := 0.95;
      labels := labels + ["force_nsfw"];
    }
    added := added + Tagged(c.forceNsfw, "force_nsfw");
    assert labels == labels0 + added;
    if c.forceViolence {
      violence := 0.93;
      labels := labels + ["force_violence"];
    }
    added := added + Tagged(c.forceViolence, "force_violence");
    assert labels == labels0 + added && added == CaptionLabels(c);
  }

  method WordCues(c: Cues, labels0: seq<string>, violence0: real)
    returns (labels: seq<string>, nsfw: real, violence: real)
    ensures labels == labels0 + WordLabels(c)
    ensures nsfw == NsfwScore(c.(forceNsfw := false))
    ensures violence == ViolenceScore(violence0, c.(forceViolence := false))
  {
    labels, nsfw, violence := labels0, 0.05, violence0;
    ghost var added: seq<string> := [];
    if c.nsfw {
      nsfw := Max(nsfw, 0.92);
      labels := labels + ["caption_nsfw_cue"];
    }
    added := added + Tagged(c.nsfw, "caption_nsfw_cue");
    assert labels == labels0 + added;
    if c.violence {
      violence := Max(violence, 0.88);
      labels := labels + ["caption_violence_cue"];
    }
    added := added + Tagged(c.violence, "caption_violence_cue");
    assert labels == labels0 + added;
    if c.safe {
      labels := labels + ["caption_safe_cue"];
      nsfw := Min(nsfw, 0.08);
      violence := Min(violence, 0.08);
    }
    added := added + Tagged(c.safe, "caption_safe_cue");
    assert labels == labels0 + added && added == WordLabels(c);
  }

  /** The pixel half of analyze: five statistics, two of which raise the violence score. */
  method PixelCues(px: Pixels) returns (labels: seq<string>, violence: real)
    requires px.Readable?
    ensures labels == PixelLabels(px) && violence == PixelViolence(px)
  {
    labels, violence := [px.resolution], 0.05;
    ghost var seen := [px.resolution];
    if px.warm {
      labels := labels + ["warm_tones"];
      violence := Max(violence, 0.25);
    }
    seen := seen + Tagged(px.warm, "warm_tones");
    assert labels == seen;
    if px.dark {
      labels := labels + ["dark_scene"];
      violence := Max(violence, 0.35);
    }
    seen := seen + Tagged(px.dark, "dark_scene");
    assert labels == seen;
    if px.bright { labels := labels + ["bright_scene"]; }
    seen := seen + Tagged(px.bright, "bright_scene");
    assert labels == seen;
    if px.contrast { labels := labels + ["high_contrast"]; }
    seen := seen + Tagged(px.contrast, "high_contrast");
    assert labels == seen;
  }

  /** LocalHeuristicVision.analyze, step by step. */
  method Analyze(px: Pixels, caption: string, lower: string -> string) returns (v: VisionSignals)
    ensures v == LocalSignals(px, lower(caption))
  {
    if px.Unreadable? { return VisionSignals(px.seen + ["unreadable_image"], 0.5, 0.5, ""); }
    var labels, violence := PixelCues(px);
    var cap := lower(caption);
    var ocrText := "";
    if Contains(cap, "ocr:") {
      ocrText := Strip(After(cap, "ocr:"));
      if |ocrText| > 500 { ocrText := ocrText[..500]; }
    }
    var nsfw;
    labels, nsfw, violence := CaptionCues(CuesOf(cap), labels, violence);
    v := VisionSignals(labels, nsfw, violence, ocrText);
  }
}
