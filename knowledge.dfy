/** The static knowledge base of app.py: platforms, moods, tones, personas
    and the per-platform deliverable hints, plus the lookups the generators
    make into them. */
module Knowledge {
  import opened PyStr

  /** A dictionary lookup with `d[key]`: the value, or Python's `KeyError`. */
  datatype Lookup<T> = Ok(value: T) | KeyError(key: string)

  const Platforms: seq<string> := [
    "Instagram Reel",
    "Instagram Carousel",
    "TikTok",
    "Pinterest Pin",
    "YouTube Shorts",
    "LinkedIn",
    "Blog/Post",
    "Newsletter"
  ]

  const Moods: seq<string> := [
    "cozy", "dreamy", "minimalist", "bold", "poetic",
    "witty", "cinematic", "vintage", "kawaii", "zen"
  ]

  const Tones: seq<string> := [
    "Warm storyteller",
    "Data-backed expert",
    "Hype friend",
    "Luxury concierge",
    "Playful mentor",
    "Direct-to-consumer pitch"
  ]

  /** What the knowledge base records about one audience persona. */
  datatype PersonaFacts = PersonaFacts(painPoints: seq<string>, desires: seq<string>, keywords: seq<string>)

  const Personas: map<string, PersonaFacts> := map[
    "Wellness Consumers" := PersonaFacts(
      ["Burnout from fast routines", "Seeking calm rituals", "Overloaded by wellness jargon"],
      ["Simple self-nurture", "Proof-backed benefits", "Products that feel like a hug"],
      ["grounding", "slow rituals", "mind-body reset"]),
    "Busy Parents" := PersonaFacts(
      ["Juggling family and self-time", "Limited attention spans", "Need bite-sized wins"],
      ["Quick wins that feel meaningful", "Flexible schedules", "Relatable stories"],
      ["five-minute reset", "family-first", "real-life demo"]),
    "Gen Z Creators" := PersonaFacts(
      ["Scroll fatigue", "Skeptical of brand speak", "Need authenticity"],
      ["Playful experimentation", "Share-worthy hooks", "Community-first energy"],
      ["duet this", "lofi chaos", "main-character energy"]),
    "Premium Shoppers" := PersonaFacts(
      ["Tired of mass-market feel", "Need elevated proof", "Guarded with trust"],
      ["Luxury cues", "White-glove service", "Testimonials"],
      ["artisan", "limited release", "concierge-level"])
  ]

  /** The deliverable hint `fallback_ideas` looks up for each platform. */
  const DeliverableHints: map<string, string> := map[
    "Instagram Reel" := "Storyboard the first 3 shots, keep them under 2s each.",
    "Instagram Carousel" := "Plan 5 slides with headline, proof, takeaway, CTA, reminder.",
    "TikTok" := "Lean on pattern interrupts at second 1.5 and 3.",
    "Pinterest Pin" := "Design vertical graphics with layered typography.",
    "YouTube Shorts" := "Use kinetic text and ASMR-lite audio cues.",
    "LinkedIn" := "Anchor your hook on a metric, close with a reflective question.",
    "Blog/Post" := "Break into intro, 3 insights, closing action.",
    "Newsletter" := "Segment into letter, resource trio, and micro-challenge."
  ]

  /** The hint table has exactly one entry per platform. */
  lemma HintsCoverPlatforms()
    ensures forall p :: p in DeliverableHints <==> p in Platforms
  {
  }

  /** `d[platform]` on the hint table. */
  function HintFor(platform: string): (r: Lookup<string>)
    ensures r.Ok? <==> platform in Platforms
    ensures r.Ok? ==> r.value == DeliverableHints[platform]
    ensures r.KeyError? ==> r.key == platform
  {
    HintsCoverPlatforms();
    if platform in DeliverableHints then Ok(DeliverableHints[platform]) else KeyError(platform)
  }

  /** `PERSONAS.get(persona, {}).get("keywords", [])`. */
  function PersonaKeywords(persona: string): (keywords: seq<string>)
    ensures persona in Personas ==> keywords == Personas[persona].keywords && |keywords| == 3
    ensures persona !in Personas ==> keywords == []
  {
    if persona in Personas then Personas[persona].keywords else []
  }

  /** `PERSONAS.get(persona, {}).get("desires", [])`. */
  function PersonaDesires(persona: string): (desires: seq<string>)
    ensures persona in Personas ==> desires == Personas[persona].desires && |desires| == 3
    ensures persona !in Personas ==> desires == []
  {
    if persona in Personas then Personas[persona].desires else []
  }

  /** `", ".join(keywords[:2])`: the persona's first two keywords, or "" for an
      unknown persona. */
  function KeywordPhrase(persona: string): (r: string)
    ensures persona !in Personas ==> r == ""
    ensures persona in Personas ==>
      r == Personas[persona].keywords[0] + ", " + Personas[persona].keywords[1]
  {
    var first := SliceTo(PersonaKeywords(persona), 2);
    if persona in Personas then
      var kws := Personas[persona].keywords;
      assert |kws| == 3;
      assert first == [kws[0], kws[1]];
      assert first[1..] == [kws[1]];
      assert Join(first[1..], ", ") == kws[1];
      Join(first, ", ")
    else
      Join(first, ", ")
  }
}
