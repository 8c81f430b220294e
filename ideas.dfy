/** The Idea Expander of app.py: `fallback_ideas` and the non-I/O part of
    `generate_ideas` (seed check, count cap, completion split, template
    fallback, table rows and markdown). */
module Ideas {
  import opened PyStr
  import opened Knowledge
  import opened Completion
  import opened Markdown

  /** Ideas shown without Pro. */
  const FreeIdeaLimit := 4
  const DefaultMood := "cozy"
  const MissingSeedMessage := "Please enter a seed idea to expand."
  const SocialProof := "Use a quick stat or testimonial to anchor trust."
  /** The em dash after each headline, stored as the three characters its
      UTF-8 bytes become when read as Windows-1252, as in the source text. */
  const Dash := "\U{E2}\U{20AC}\U{201D}"

  /** `moods or ["cozy"]`. */
  function ActiveMoods(moods: seq<string>): (active: seq<string>)
    ensures |active| > 0
  {
    if |moods| > 0 then moods else [DefaultMood]
  }

  /** The default mood is the first of the mood picker's choices. */
  lemma DefaultMoodIsListed()
    ensures DefaultMood == Moods[0] && DefaultMood in Moods
  {
  }

  /** `", ".join(moods) if moods else "cozy"`: the moods column of a row. */
  function MoodsLabel(moods: seq<string>): (shown: string)
    ensures |moods| == 0 ==> shown == DefaultMood
    ensures |moods| > 0 ==> StartsWith(shown, moods[0])
    ensures forall k :: 0 <= k < |moods| ==> Contains(shown, moods[k])
  {
    JoinContainsAll(moods, ", ");
    if |moods| > 0 then Join(moods, ", ") else DefaultMood
  }

  /** The bold headline each template idea opens with:
      "<Mood> take: <seed> for <persona>". */
  function IdeaHeadline(seed: string, persona: string, mood: string): (h: string)
    ensures StartsWith(h, "**" + Title(mood) + " take: ")
    ensures Contains(h, seed)
    ensures |h| == |mood| + |seed| + |persona| + 14
  {
    ContainsMiddle("**" + Title(mood) + " take: ", seed, " for " + Lower(persona));
    ("**" + Title(mood) + " take: ") + seed + (" for " + Lower(persona))
  }

  /** What follows the headline, up to the platform's hint. */
  function IdeaBody(persona: string, keywords: string): string {
    "** " + Dash
    + " Lead with a one-line story, ladder into a transformation, and nod to "
    + Lower(persona) + " priorities. Frame it around "
    + (if keywords != "" then keywords else "their daily rhythm") + "; finish with "
  }

  /** The template text of one fallback idea: headline, body, the lower-cased
      hint and the social-proof line. It opens with the headline and quotes
      the seed and the lower-cased hint verbatim. */
  function IdeaText(seed: string, persona: string, mood: string, keywords: string, hint: string): (idea: string)
    ensures StartsWith(idea, IdeaHeadline(seed, persona, mood))
    ensures Contains(idea, seed) && Contains(idea, Lower(hint))
  {
    Layout("**" + Title(mood) + " take: ", seed, " for " + Lower(persona),
           IdeaBody(persona, keywords), Lower(hint), ". " + SocialProof);
    IdeaHeadline(seed, persona, mood) + (IdeaBody(persona, keywords) + Lower(hint) + (". " + SocialProof))
  }

  /** Idea number `i` of the template fallback: the moods are taken round-robin. */
  function FallbackIdea(seed: string, persona: string, moods: seq<string>, keywords: string, hint: string, i: nat)
    : (idea: string)
    ensures |moods| > 0 ==> StartsWith(idea, IdeaHeadline(seed, persona, moods[i % |moods|]))
    ensures |moods| == 0 ==> StartsWith(idea, IdeaHeadline(seed, persona, DefaultMood))
  {
    var active := ActiveMoods(moods);
    IdeaText(seed, persona, active[i % |active|], keywords, hint)
  }

  /** The ideas the loop of `fallback_ideas` produces for `range(total)`. */
  function IdeaSeq(seed: string, persona: string, moods: seq<string>, keywords: string, hint: string, total: int)
    : (ideas: seq<string>)
    ensures |ideas| == Max(0, total)
  {
    seq(Max(0, total), i requires 0 <= i < Max(0, total) => FallbackIdea(seed, persona, moods, keywords, hint, i))
  }

  /** `fallback_ideas(seed, platform, moods, persona, total)` as a value: the
      hint lookup fails for a platform outside the table; otherwise there are
      exactly `total` ideas (none for a negative `total`). */
  function FallbackIdeaList(seed: string, platform: string, moods: seq<string>, persona: string, total: int)
    : (r: Lookup<seq<string>>)
    ensures r.KeyError? <==> platform !in Platforms
    ensures r.KeyError? ==> r.key == platform
    ensures r.Ok? ==> |r.value| == Max(0, total)
  {
    match HintFor(platform)
    case KeyError(k) => KeyError(k)
    case Ok(hint) => Ok(IdeaSeq(seed, persona, moods, KeywordPhrase(persona), hint, total))
  }

  /** The loop of `fallback_ideas`: one template idea appended per index of
      `range(total)`, the mood taken round-robin. */
  method AppendIdeas(seed: string, persona: string, moods: seq<string>, keywords: string, hint: string, total: int)
    returns (ideas: seq<string>)
    ensures ideas == IdeaSeq(seed, persona, moods, keywords, hint, total)
  {
    ideas := [];
    var activeMoods := ActiveMoods(moods);
    var i := 0;
    while i < total
      invariant 0 <= i <= Max(0, total)
      invariant |ideas| == i
      invariant forall k :: 0 <= k < i ==> ideas[k] == IdeaText(seed, persona, activeMoods[k % |activeMoods|], keywords, hint)
    {
      var mood := activeMoods[i % |activeMoods|];
      ideas := ideas + [IdeaText(seed, persona, mood, keywords, hint)];
      i := i + 1;
    }
    var spec := IdeaSeq(seed, persona, moods, keywords, hint, total);
    forall k | 0 <= k < |ideas|
      ensures ideas[k] == spec[k]
    {
      assert spec[k] == FallbackIdea(seed, persona, moods, keywords, hint, k);
    }
  }

  /** `fallback_ideas`: the persona's keywords and the platform's hint (a
      `KeyError` for an unknown platform), then the loop. */
  method FallbackIdeas(seed: string, platform: string, moods: seq<string>, persona: string, total: int)
    returns (r: Lookup<seq<string>>)
    ensures r == FallbackIdeaList(seed, platform, moods, persona, total)
  {
    var keywords := KeywordPhrase(persona);
    var hint := HintFor(platform);
    if hint.KeyError? {
      return KeyError(platform);
    }
    var ideas := AppendIdeas(seed, persona, moods, keywords, hint.value, total);
    return Ok(ideas);
  }

  /** Idea `i` of the fallback is written in mood `i mod |moods|` (the default
      "cozy" when none is chosen), names the seed, and ends on the lower-cased
      platform hint. */
  lemma IdeaSeqShape(seed: string, persona: string, moods: seq<string>, keywords: string, hint: string,
                     total: int, i: int)
    requires 0 <= i < Max(0, total)
    ensures var idea := IdeaSeq(seed, persona, moods, keywords, hint, total)[i];
      var mood := if |moods| > 0 then moods[i % |moods|] else DefaultMood;
      StartsWith(idea, IdeaHeadline(seed, persona, mood))
      && Contains(idea, seed)
      && Contains(idea, Lower(hint))
  {
    var ideas := IdeaSeq(seed, persona, moods, keywords, hint, total);
    assert ideas[i] == FallbackIdea(seed, persona, moods, keywords, hint, i);
  }

  /** Moods repeat with period `|moods|`: ideas `i` and `i + |moods|` are the
      same text (with no mood chosen, all ideas are the same). */
  lemma IdeaSeqMoodsRepeat(seed: string, persona: string, moods: seq<string>, keywords: string, hint: string,
                           total: int, i: int)
    requires 0 <= i && i + |ActiveMoods(moods)| < Max(0, total)
    ensures var ideas := IdeaSeq(seed, persona, moods, keywords, hint, total);
      ideas[i] == ideas[i + |ActiveMoods(moods)|]
  {
    var active := ActiveMoods(moods);
    ModPeriod(i, |active|);
    var ideas := IdeaSeq(seed, persona, moods, keywords, hint, total);
    assert ideas[i] == IdeaText(seed, persona, active[i % |active|], keywords, hint);
    assert ideas[i + |active|] == IdeaText(seed, persona, active[(i + |active|) % |active|], keywords, hint);
  }

  /** One row of the idea table. */
  datatype IdeaRow = IdeaRow(platform: string, persona: string, moods: string, idea: string)

  /** What `generate_ideas` shows: the markdown and the table rows. */
  datatype IdeasView = IdeasView(markdown: string, rows: seq<IdeaRow>)

  /** The row list comprehension of `generate_ideas`. */
  function IdeaRows(platform: string, persona: string, moods: seq<string>, ideas: seq<string>): (rows: seq<IdeaRow>)
    ensures |rows| == |ideas|
    ensures forall i :: 0 <= i < |rows| ==>
      rows[i].idea == ideas[i] && rows[i].platform == platform
      && rows[i].persona == persona && rows[i].moods == MoodsLabel(moods)
  {
    seq(|ideas|, i requires 0 <= i < |ideas| => IdeaRow(platform, persona, MoodsLabel(moods), ideas[i]))
  }

  /** The ideas `generate_ideas` shows for a non-blank (already stripped)
      seed: the completion's items when there are any, otherwise the
      template ideas, and never more than the free limit without Pro. */
  function IdeaList(seed: string, platform: string, moods: seq<string>, persona: string, total: int,
                    useLlm: bool, isPro: bool, tokenPresent: bool, raw: string): (r: Lookup<seq<string>>)
    ensures r.Ok? && !isPro && 0 <= total ==> |r.value| <= FreeIdeaLimit
    ensures r.Ok? && 0 <= total ==> |r.value| <= total
    ensures r.KeyError? ==> platform !in Platforms && r.key == platform
    ensures var items := ModelItems(useLlm, tokenPresent, raw, EffectiveCount(total, isPro, FreeIdeaLimit));
      items != [] ==> r == Ok(items)
    ensures var items := ModelItems(useLlm, tokenPresent, raw, EffectiveCount(total, isPro, FreeIdeaLimit));
      items == [] ==> r == FallbackIdeaList(seed, platform, moods, persona, EffectiveCount(total, isPro, FreeIdeaLimit))
    ensures r.Ok? && isPro && ModelItems(useLlm, tokenPresent, raw, total) == [] ==> |r.value| == Max(0, total)
  {
    var cap := EffectiveCount(total, isPro, FreeIdeaLimit);
    var items := ModelItems(useLlm, tokenPresent, raw, cap);
    if items != [] then Ok(items) else FallbackIdeaList(seed, platform, moods, persona, cap)
  }

  /** `generate_ideas` without its file exports: the "enter a seed" message
      and no rows for a blank seed, the lookup error of the fallback, or the
      markdown and one row per idea. */
  function GenerateIdeas(seed: string, platform: string, moods: seq<string>, persona: string, total: int,
                         useLlm: bool, isPro: bool, tokenPresent: bool, raw: string): (r: Lookup<IdeasView>)
    ensures AllSpace(seed) ==> r == Ok(IdeasView(MissingSeedMessage, []))
    ensures !AllSpace(seed) ==>
      var ideas := IdeaList(Strip(seed), platform, moods, persona, total, useLlm, isPro, tokenPresent, raw);
      (r.Ok? <==> ideas.Ok?)
      && (r.Ok? ==> r.value.rows == IdeaRows(platform, persona, moods, ideas.value)
                    && r.value.markdown == NumberedBlocks("Idea", ideas.value))
    ensures r.KeyError? ==> platform !in Platforms
    ensures r.Ok? && !isPro && 0 <= total ==> |r.value.rows| <= FreeIdeaLimit
  {
    StripFacts(seed);
    var s := Strip(seed);
    if s == "" then Ok(IdeasView(MissingSeedMessage, []))
    else
      match IdeaList(s, platform, moods, persona, total, useLlm, isPro, tokenPresent, raw)
      case KeyError(k) => KeyError(k)
      case Ok(ideas) =>
        Ok(IdeasView(NumberedBlocks("Idea", ideas), IdeaRows(platform, persona, moods, ideas)))
  }

  /** With the model switched off or silent, the ideas are the template ones
      for the stripped seed: each names the seed, and there are exactly as
      many as the effective count allows. */
  lemma GenerateIdeasFallback(seed: string, platform: string, moods: seq<string>, persona: string, total: int,
                              useLlm: bool, isPro: bool, tokenPresent: bool, raw: string)
    requires !AllSpace(seed) && platform in Platforms
    requires !(useLlm && tokenPresent) || raw == ""
    ensures var r := GenerateIdeas(seed, platform, moods, persona, total, useLlm, isPro, tokenPresent, raw);
      r.Ok?
      && |r.value.rows| == Max(0, EffectiveCount(total, isPro, FreeIdeaLimit))
      && forall i :: 0 <= i < |r.value.rows| ==>
           Contains(r.value.rows[i].idea, Strip(seed)) && r.value.rows[i].moods == MoodsLabel(moods)
  {
    var cap := EffectiveCount(total, isPro, FreeIdeaLimit);
    assert ModelItems(useLlm, tokenPresent, raw, cap) == [];
    var fallback := FallbackIdeaList(Strip(seed), platform, moods, persona, cap);
    assert IdeaList(Strip(seed), platform, moods, persona, total, useLlm, isPro, tokenPresent, raw) == fallback;
    var r := GenerateIdeas(seed, platform, moods, persona, total, useLlm, isPro, tokenPresent, raw);
    forall i | 0 <= i < |r.value.rows|
      ensures Contains(r.value.rows[i].idea, Strip(seed))
    {
      IdeaSeqShape(Strip(seed), persona, moods, KeywordPhrase(persona), DeliverableHints[platform], cap, i);
    }
  }

  /** The template fallback is the only step that looks the platform up: with
      the model silent, an unknown platform raises the `KeyError`. */
  lemma GenerateIdeasUnknownPlatform(seed: string, platform: string, moods: seq<string>, persona: string, total: int,
                                     useLlm: bool, isPro: bool, tokenPresent: bool, raw: string)
    requires !AllSpace(seed) && platform !in Platforms
    requires ModelItems(useLlm, tokenPresent, raw, EffectiveCount(total, isPro, FreeIdeaLimit)) == []
    ensures GenerateIdeas(seed, platform, moods, persona, total, useLlm, isPro, tokenPresent, raw) == KeyError(platform)
  {
  }

  /** The markdown of a successful `generate_ideas` shows every row's idea. */
  lemma GenerateIdeasShowsRows(seed: string, platform: string, moods: seq<string>, persona: string, total: int,
                               useLlm: bool, isPro: bool, tokenPresent: bool, raw: string, i: int)
    requires GenerateIdeas(seed, platform, moods, persona, total, useLlm, isPro, tokenPresent, raw).Ok?
    requires 0 <= i < |GenerateIdeas(seed, platform, moods, persona, total, useLlm, isPro, tokenPresent, raw).value.rows|
    ensures var v := GenerateIdeas(seed, platform, moods, persona, total, useLlm, isPro, tokenPresent, raw).value;
      Contains(v.markdown, v.rows[i].idea)
  {
    var v := GenerateIdeas(seed, platform, moods, persona, total, useLlm, isPro, tokenPresent, raw).value;
    StripFacts(seed);
    assert !AllSpace(seed);
    var ideas := IdeaList(Strip(seed), platform, moods, persona, total, useLlm, isPro, tokenPresent, raw).value;
    NumberedBlocksShow("Idea", ideas, i);
  }
}
