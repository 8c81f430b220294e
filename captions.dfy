/** The Caption Studio of app.py: `fallback_captions` and the non-I/O part
    of `generate_captions` (input check, count cap, completion split,
    template fallback and markdown). */
module Captions {
  import opened PyStr
  import opened Knowledge
  import opened Completion
  import opened Markdown

  /** Captions shown without Pro. */
  const FreeCaptionLimit := 3
  const MissingSourceMessage := "Paste a seed, article, or notes" + " to generate captions."
  const DefaultHeadline := "Your story"
  const DefaultToneHint := "warm storyteller"
  const CaptionCta := "Close with a save/share CTA that promises an immediate win."
  /** The arrow after "CTA", stored as the three characters its UTF-8 bytes
      become when read as Windows-1252, as in the source text. */
  const Arrow := "\U{E2}\U{2020}\U{2019}"

  /** `seed or (article[:60] + "..." if article else "Your story")`. */
  function CaptionHeadline(seed: string, article: string): (h: string)
    ensures h != ""
    ensures seed != "" ==> h == seed
    ensures seed == "" && article != "" ==>
      h == article[..Min(|article|, 60)] + "..."
    ensures seed == "" && article == "" ==> h == DefaultHeadline
  {
    if seed != "" then seed
    else if article != "" then
      SliceTo(article, 60) + "..."
    else DefaultHeadline
  }

  /** `tone.lower() if tone else "warm storyteller"`. */
  function ToneHint(tone: string): (hint: string)
    ensures tone != "" ==> |hint| == |tone| && forall i :: 0 <= i < |tone| ==> hint[i] == LowerChar(tone[i])
    ensures tone == "" ==> hint == DefaultToneHint
  {
    if tone != "" then Lower(tone) else DefaultToneHint
  }

  /** Leaving the tone blank gives the hint the tone picker's default
      ("Warm storyteller") would give. */
  lemma DefaultToneIsListed()
    ensures ToneHint("") == ToneHint(Tones[0])
  {
  }

  /** The hook line every template caption opens with. */
  function CaptionHook(headline: string, persona: string): (hook: string)
    ensures StartsWith(hook, headline + ": ")
    ensures |hook| == |headline| + |persona| + 18
  {
    assert (headline + ": " + Lower(persona) + " deserve better.")[..|headline| + 2] == headline + ": ";
    headline + ": " + Lower(persona) + " deserve better."
  }

  /** The context paragraph of a template caption. */
  function CaptionContext(persona: string, keywords: string): string {
    "Pull one proof point or micro-lesson from the article. Translate it into "
    + Lower(persona) + " language, sprinkling phrases like "
    + (if keywords != "" then keywords else "their daily life") + " to ground it."
  }

  /** One template caption: hook, context, and the call to action with the
      tone; it opens with the hook (so with the headline) and names the tone. */
  function CaptionText(headline: string, persona: string, keywords: string, toneHint: string): (c: string)
    ensures StartsWith(c, CaptionHook(headline, persona))
    ensures StartsWith(c, headline)
    ensures Contains(c, toneHint)
  {
    var hook := CaptionHook(headline, persona);
    var middle := "\n\n" + CaptionContext(persona, keywords) + "\n\nCTA " + Arrow + " " + CaptionCta + " (Tone: ";
    var c := hook + middle + toneHint + ").";
    assert c[..|hook|] == hook;
    assert hook[..|headline|] == headline;
    assert c[..|headline|] == hook[..|headline|];
    ContainsMiddle(hook + middle, toneHint, ").");
    c
  }

  /** The captions the loop of `fallback_captions` produces for `range(total)`:
      the loop index is not used, so they are all the same text. */
  function CaptionSeq(headline: string, persona: string, keywords: string, toneHint: string, total: int)
    : (captions: seq<string>)
    ensures |captions| == Max(0, total)
  {
    seq(Max(0, total), i requires 0 <= i < Max(0, total) => CaptionText(headline, persona, keywords, toneHint))
  }

  /** The loop of `fallback_captions`. */
  method AppendCaptions(headline: string, persona: string, keywords: string, toneHint: string, total: int)
    returns (captions: seq<string>)
    ensures captions == CaptionSeq(headline, persona, keywords, toneHint, total)
  {
    captions := [];
    var idx := 0;
    while idx < total
      invariant 0 <= idx <= Max(0, total)
      invariant |captions| == idx
      invariant forall k :: 0 <= k < idx ==> captions[k] == CaptionText(headline, persona, keywords, toneHint)
    {
      var hook := CaptionHook(headline, persona);
      var context := CaptionContext(persona, keywords);
      var caption := hook + ("\n\n" + context + "\n\nCTA " + Arrow + " " + CaptionCta + " (Tone: ")
        + toneHint + ").";
      captions := captions + [caption];
      idx := idx + 1;
    }
    assert captions == CaptionSeq(headline, persona, keywords, toneHint, total);
  }

  /** `fallback_captions(seed, article, persona, tone, platform, total)` as a
      value; the platform is not used. */
  function FallbackCaptionList(seed: string, article: string, persona: string, tone: string, platform: string,
                               total: int): (captions: seq<string>)
    ensures |captions| == Max(0, total)
  {
    CaptionSeq(CaptionHeadline(seed, article), persona, KeywordPhrase(persona), ToneHint(tone), total)
  }

  /** `fallback_captions`: headline, tone hint and keywords, then the loop. */
  method FallbackCaptions(seed: string, article: string, persona: string, tone: string, platform: string,
                          total: int) returns (captions: seq<string>)
    ensures captions == FallbackCaptionList(seed, article, persona, tone, platform, total)
  {
    var headline := CaptionHeadline(seed, article);
    var toneHint := ToneHint(tone);
    var keywords := KeywordPhrase(persona);
    captions := AppendCaptions(headline, persona, keywords, toneHint, total);
  }

  /** Every template caption is the same text; each opens with the headline
      (the seed, else the article's first 60 characters and "...", else
      "Your story") and names the tone hint. */
  lemma CaptionSeqShape(headline: string, persona: string, keywords: string, toneHint: string, total: int,
                        i: int, j: int)
    requires 0 <= i < Max(0, total) && 0 <= j < Max(0, total)
    ensures var captions := CaptionSeq(headline, persona, keywords, toneHint, total);
      captions[i] == captions[j]
      && StartsWith(captions[i], headline + ": " + Lower(persona) + " deserve better.")
      && StartsWith(captions[i], headline)
      && Contains(captions[i], toneHint)
  {
    var captions := CaptionSeq(headline, persona, keywords, toneHint, total);
    var c := CaptionText(headline, persona, keywords, toneHint);
    assert captions[i] == c && captions[j] == c;
  }

  /** The captions `generate_captions` renders for stripped inputs that are
      not both empty: the completion's items when there are any, otherwise
      the template ones, never more than the free limit without Pro. */
  function CaptionList(seed: string, article: string, persona: string, tone: string, platform: string, total: int,
                       useLlm: bool, isPro: bool, tokenPresent: bool, raw: string): (captions: seq<string>)
    ensures !isPro && 0 <= total ==> |captions| <= FreeCaptionLimit
    ensures 0 <= total ==> |captions| <= total
    ensures var items := ModelItems(useLlm, tokenPresent, raw, EffectiveCount(total, isPro, FreeCaptionLimit));
      (items != [] ==> captions == items)
      && (items == [] ==>
            captions == FallbackCaptionList(seed, article, persona, tone, platform,
                                            EffectiveCount(total, isPro, FreeCaptionLimit)))
  {
    var cap := EffectiveCount(total, isPro, FreeCaptionLimit);
    var items := ModelItems(useLlm, tokenPresent, raw, cap);
    if items != [] then items else FallbackCaptionList(seed, article, persona, tone, platform, cap)
  }

  /** `generate_captions`: the "paste something" message exactly when both the
      seed and the article are blank, otherwise the numbered caption blocks. */
  function GenerateCaptions(seed: string, article: string, persona: string, tone: string, platform: string,
                            total: int, useLlm: bool, isPro: bool, tokenPresent: bool, raw: string): (md: string)
    ensures AllSpace(seed) && AllSpace(article) ==> md == MissingSourceMessage
    ensures !(AllSpace(seed) && AllSpace(article)) ==>
      md == NumberedBlocks("Caption", CaptionList(Strip(seed), Strip(article), persona, tone, platform, total,
                                                  useLlm, isPro, tokenPresent, raw))
  {
    StripFacts(seed);
    StripFacts(article);
    var a := Strip(article);
    var s := Strip(seed);
    if s == "" && a == "" then MissingSourceMessage
    else NumberedBlocks("Caption", CaptionList(s, a, persona, tone, platform, total, useLlm, isPro, tokenPresent, raw))
  }

  /** The message is shown if and only if both inputs are blank: rendered
      captions always open with a "### Caption 1" heading (or are empty). */
  lemma GenerateCaptionsMessage(seed: string, article: string, persona: string, tone: string, platform: string,
                                total: int, useLlm: bool, isPro: bool, tokenPresent: bool, raw: string)
    ensures GenerateCaptions(seed, article, persona, tone, platform, total, useLlm, isPro, tokenPresent, raw)
              == MissingSourceMessage
            <==> AllSpace(seed) && AllSpace(article)
  {
    StripFacts(seed);
    StripFacts(article);
    NumberedBlocksNotMessage("Caption", CaptionList(Strip(seed), Strip(article), persona, tone, platform, total,
                                                    useLlm, isPro, tokenPresent, raw), MissingSourceMessage);
  }

  /** With the model off or silent and a non-blank seed, every rendered
      caption opens with the stripped seed, and there are as many as the
      effective count allows. */
  lemma GenerateCaptionsFallback(seed: string, article: string, persona: string, tone: string, platform: string,
                                 total: int, useLlm: bool, isPro: bool, tokenPresent: bool, raw: string, i: int)
    requires !AllSpace(seed)
    requires !(useLlm && tokenPresent) || raw == ""
    requires 0 <= i < Max(0, EffectiveCount(total, isPro, FreeCaptionLimit))
    ensures var captions := CaptionList(Strip(seed), Strip(article), persona, tone, platform, total,
                                        useLlm, isPro, tokenPresent, raw);
      |captions| == Max(0, EffectiveCount(total, isPro, FreeCaptionLimit))
      && StartsWith(captions[i], Strip(seed))
      && Contains(GenerateCaptions(seed, article, persona, tone, platform, total, useLlm, isPro, tokenPresent, raw),
                  captions[i])
  {
    StripFacts(seed);
    var cap := EffectiveCount(total, isPro, FreeCaptionLimit);
    assert ModelItems(useLlm, tokenPresent, raw, cap) == [];
    var captions := CaptionList(Strip(seed), Strip(article), persona, tone, platform, total,
                                useLlm, isPro, tokenPresent, raw);
    CaptionSeqShape(Strip(seed), persona, KeywordPhrase(persona), ToneHint(tone), cap, i, i);
    NumberedBlocksShow("Caption", captions, i);
  }
}
