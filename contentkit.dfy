/** The Content Kit of app.py: the non-I/O part of `build_content_kit`, a
    five-section markdown kit assembled from the persona's desires and
    keywords when the model is off or silent. */
module ContentKit {
  import opened PyStr
  import opened Knowledge
  import opened Markdown

  const MissingKitSeedMessage := "Provide a seed to craft the content kit."
  const DefaultHook := "Start with a transformation hook tied to their daily life."

  /** The apostrophe of "I'll" is stored as the three characters a UTF-8
      right quote becomes when read as Windows-1252, as in the source text. */
  const CtaSwaps: seq<string> := [
    "Send me a DM with 'READY' and I\U{E2}\U{20AC}\U{2122}ll forward the checklist.",
    "Tap shop now and claim your first-order upgrade.",
    "Save this for your reset routine and share with a friend who needs it."
  ]

  /** The last tag is a plain string in the source, not an f-string, so it is
      shown with its braces rather than filled in with the platform. */
  const Hashtags: seq<string> := [
    "#contentthatconverts",
    "#brandstory",
    "#aestheticstrategy",
    "#consumerinsights",
    "#{platform.replace(' ', '').lower()}tips"
  ]

  /** The dashes are stored as the three characters a UTF-8 em dash becomes
      when read as Windows-1252, as in the source text. */
  const NurtureFlow :=
    "1. **Problem Post** \U{E2}\U{20AC}\U{201D} spotlight a common frustration and agitate it gently.\n"
    + "2. **Proof Post** \U{E2}\U{20AC}\U{201D} share a demo, testimonial, or data-backed transformation.\n"
    + "3. **Purchase Post** \U{E2}\U{20AC}\U{201D} unveil the offer with urgency anchored in persona desires."

  /** One hook for a persona's desire. */
  function DesireHook(persona: string, desire: string): (hook: string)
    ensures StartsWith(hook, "What if " + Lower(persona) + " could ")
    ensures Contains(hook, Lower(desire))
  {
    var opening := "What if " + Lower(persona) + " could ";
    var hook := opening + Lower(desire) + " starting this week?";
    assert hook[..|opening|] == opening;
    ContainsMiddle(opening, Lower(desire), " starting this week?");
    hook
  }

  /** The hook headlines: one per desire, in order, or the stock hook when the
      persona records none. */
  function HookLines(persona: string, desires: seq<string>): (hooks: seq<string>)
    ensures |hooks| == Max(1, |desires|)
    ensures |desires| == 0 ==> hooks == [DefaultHook]
    ensures forall i :: 0 <= i < |desires| ==>
      StartsWith(hooks[i], "What if " + Lower(persona) + " could ") && Contains(hooks[i], Lower(desires[i]))
  {
    var hooks := seq(|desires|, i requires 0 <= i < |desires| => DesireHook(persona, desires[i]));
    if |hooks| > 0 then hooks else [DefaultHook]
  }

  /** The visual direction: the platform's native cues echoing the persona's
      first keyword, or, with no keywords, visuals mirroring the seed. */
  function VisualDirection(seed: string, platform: string, keywords: seq<string>): (v: string)
    ensures |keywords| > 0 ==> Contains(v, "'" + keywords[0] + "'") && Contains(v, Lower(platform))
    ensures |keywords| == 0 ==> Contains(v, "'" + seed + "'")
  {
    if |keywords| > 0 then
      var before := "Lean into " + Lower(platform)
        + " native cues: mix close-up texture shots with overlay text that echoes ";
      var v := before + ("'" + keywords[0] + "'");
      ContainsMiddle("Lean into ", Lower(platform),
                     " native cues: mix close-up texture shots with overlay text that echoes " + ("'" + keywords[0] + "'"));
      assert "Lean into " + Lower(platform)
             + (" native cues: mix close-up texture shots with overlay text that echoes " + ("'" + keywords[0] + "'")) == v;
      ContainsMiddle(before, "'" + keywords[0] + "'", "");
      assert before + ("'" + keywords[0] + "'") + "" == v;
      v
    else
      var v := "Use platform-first visuals that mirror the seed " + ("'" + seed + "'") + ".";
      ContainsMiddle("Use platform-first visuals that mirror the seed ", "'" + seed + "'", ".");
      v
  }

  /** `hashtags[: (8 if is_pro else 5)]`. */
  function HashtagStack(isPro: bool): (tags: seq<string>)
    ensures tags == Hashtags
  {
    SliceTo(Hashtags, if isPro then 8 else 5)
  }

  /** One section of the kit: a heading line and its body. */
  function KitSection(heading: string, body: string): string {
    "### " + heading + "\n" + body
  }

  /** The five sections of the kit, in order. */
  function KitSections(seed: string, platform: string, persona: string, desires: seq<string>,
                       keywords: seq<string>, isPro: bool): (sections: seq<string>)
    ensures |sections| == 5
  {
    [ KitSection("Hook Headlines", Bullets(HookLines(persona, desires))),
      KitSection("Visual Direction", VisualDirection(seed, platform, keywords)),
      KitSection("CTA Swaps", Bullets(CtaSwaps)),
      KitSection("Hashtag Stack", Join(HashtagStack(isPro), " ")),
      KitSection("3-Post Nurture Flow", NurtureFlow) ]
  }

  /** The template kit: the sections separated by blank lines. */
  function KitText(seed: string, platform: string, persona: string, desires: seq<string>,
                   keywords: seq<string>, isPro: bool): (kit: string)
    ensures StartsWith(kit, KitSection("Hook Headlines", Bullets(HookLines(persona, desires))))
  {
    Join(KitSections(seed, platform, persona, desires, keywords, isPro), "\n\n")
  }

  /** A section's body appears in the kit. */
  lemma KitShowsSection(seed: string, platform: string, persona: string, desires: seq<string>,
                        keywords: seq<string>, isPro: bool, k: int, heading: string, body: string)
    requires 0 <= k < 5
    requires KitSections(seed, platform, persona, desires, keywords, isPro)[k] == KitSection(heading, body)
    ensures Contains(KitText(seed, platform, persona, desires, keywords, isPro), body)
  {
    var sections := KitSections(seed, platform, persona, desires, keywords, isPro);
    JoinContains(sections, "\n\n", k);
    ContainsMiddle("### " + heading + "\n", body, "");
    assert "### " + heading + "\n" + body + "" == sections[k];
    ContainsTrans(KitText(seed, platform, persona, desires, keywords, isPro), sections[k], body);
  }

  /** Every hook headline is a bullet of the kit: one per desire, or the
      stock hook when there are none. */
  lemma KitListsHooks(seed: string, platform: string, persona: string, desires: seq<string>,
                      keywords: seq<string>, isPro: bool, i: int)
    requires 0 <= i < Max(1, |desires|)
    ensures Contains(KitText(seed, platform, persona, desires, keywords, isPro), "- " + HookLines(persona, desires)[i])
  {
    var hooks := HookLines(persona, desires);
    KitShowsSection(seed, platform, persona, desires, keywords, isPro, 0, "Hook Headlines", Bullets(hooks));
    BulletsShow(hooks, i);
    ContainsTrans(KitText(seed, platform, persona, desires, keywords, isPro), Bullets(hooks), "- " + hooks[i]);
  }

  /** The hashtag stack is the same five tags with or without Pro: the Pro
      bound of 8 is past the end of the list. */
  lemma KitIgnoresPro(seed: string, platform: string, persona: string, desires: seq<string>,
                      keywords: seq<string>)
    ensures KitText(seed, platform, persona, desires, keywords, true)
            == KitText(seed, platform, persona, desires, keywords, false)
    ensures Contains(KitText(seed, platform, persona, desires, keywords, true), Join(Hashtags, " "))
  {
    assert KitSections(seed, platform, persona, desires, keywords, true)
           == KitSections(seed, platform, persona, desires, keywords, false);
    KitShowsSection(seed, platform, persona, desires, keywords, true, 3, "Hashtag Stack", Join(Hashtags, " "));
  }

  /** `build_content_kit(seed, platform, persona, is_pro, use_llm)`: the
      "provide a seed" message for a blank seed; the completion verbatim when
      the model was asked and answered; otherwise the template kit for the
      stripped seed and the persona's recorded desires and keywords. */
  function BuildContentKit(seed: string, platform: string, persona: string, isPro: bool, useLlm: bool,
                           tokenPresent: bool, raw: string): (md: string)
    ensures AllSpace(seed) ==> md == MissingKitSeedMessage
    ensures !AllSpace(seed) && useLlm && tokenPresent && raw != "" ==> md == raw
    ensures !AllSpace(seed) && !(useLlm && tokenPresent && raw != "") ==>
      md == KitText(Strip(seed), platform, persona, PersonaDesires(persona), PersonaKeywords(persona), isPro)
  {
    StripFacts(seed);
    var s := Strip(seed);
    if s == "" then MissingKitSeedMessage
    else if useLlm && tokenPresent && raw != "" then raw
    else KitText(s, platform, persona, PersonaDesires(persona), PersonaKeywords(persona), isPro)
  }

  /** For a persona the knowledge base lacks, the template kit falls back to
      the stock hook and to visuals that quote the stripped seed. */
  lemma BuildContentKitUnknownPersona(seed: string, platform: string, persona: string, isPro: bool, useLlm: bool,
                                      tokenPresent: bool, raw: string)
    requires !AllSpace(seed) && persona !in Personas
    requires !(useLlm && tokenPresent && raw != "")
    ensures var md := BuildContentKit(seed, platform, persona, isPro, useLlm, tokenPresent, raw);
      Contains(md, "- " + DefaultHook) && Contains(md, "'" + Strip(seed) + "'")
  {
    var s := Strip(seed);
    assert PersonaDesires(persona) == [] && PersonaKeywords(persona) == [];
    KitListsHooks(s, platform, persona, [], [], isPro, 0);
    KitShowsSection(s, platform, persona, [], [], isPro, 1, "Visual Direction", VisualDirection(s, platform, []));
    ContainsTrans(KitText(s, platform, persona, [], [], isPro), VisualDirection(s, platform, []), "'" + s + "'");
  }

  /** For a persona the knowledge base knows, the template kit has exactly one
      hook bullet per recorded desire, each naming that desire. */
  lemma BuildContentKitHooks(seed: string, platform: string, persona: string, isPro: bool, useLlm: bool,
                             tokenPresent: bool, raw: string, i: int)
    requires !AllSpace(seed) && !(useLlm && tokenPresent && raw != "")
    requires 0 <= i < |PersonaDesires(persona)|
    ensures var hooks := HookLines(persona, PersonaDesires(persona));
      |hooks| == |PersonaDesires(persona)|
      && Contains(hooks[i], Lower(PersonaDesires(persona)[i]))
      && Contains(BuildContentKit(seed, platform, persona, isPro, useLlm, tokenPresent, raw), "- " + hooks[i])
  {
    KitListsHooks(Strip(seed), platform, persona, PersonaDesires(persona), PersonaKeywords(persona), isPro, i);
  }
}
