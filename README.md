# Loomvale content studio: a Dafny model of its generators

`app.py` is a single-file content-marketing assistant. It keeps a small
knowledge base of platforms, moods, tones and audience personas. On top of
that it offers:

- an **Idea Expander**, `generate_ideas`;
- a **Caption Studio**, `generate_captions`;
- a **Persona Deep Dive**, `persona_deep_dive`;
- a **Content Kit**, `build_content_kit`;
- a **Pro unlock gate**, `unlock_pro`.

The idea, caption and content-kit generators can ask a hosted text model for
their output. When the model is off, unconfigured or silent, they fall back to
a deterministic template. The persona deep dive never calls the model: it is a
plain lookup in the knowledge base.

This project models the part of those generators that is not I/O:

- the knowledge base as constants;
- the unlock gate;
- prompt assembly;
- the splitting and capping of a completion into items;
- the template fallbacks `fallback_ideas` and `fallback_captions`, as loops proved against functions;
- the markdown the generators render.

The text the model returns is an input: `raw`, where `""` stands for "no
answer". Whether `HF_TOKEN` is set is the input `tokenPresent`.

Modules:

- `PyStr` (`pystr.dfy`) models the Python built-ins the code relies on:
  - `str.strip()`, with the full `str.isspace` set;
  - `str.lower()` and `str.title()`, on ASCII letters;
  - `sep.join`;
  - `str.split(sep)`, with its leftmost non-overlapping cuts;
  - `xs[:n]` for any integer `n`, a negative `n` counting from the end;
  - `str(n)` for a natural number.
- `Knowledge` (`knowledge.dfy`) holds the tables and the lookups made into them. `d[k]` on a missing key is the `KeyError` case of `Lookup`.
- `Unlock` (`unlock.dfy`) is `unlock_pro`, with the configured secret as a parameter.
- `Completion` (`completion.dfy`) holds three things:
  - `build_prompt`;
  - the effective count `total if is_pro else min(total, limit)`;
  - the clean-split-and-cap of a completion.
- `Markdown` (`markdown.dfy`) holds the bullet lists and the numbered, rule-separated blocks.
- `Ideas`, `Captions` and `ContentKit` hold the three generators that can use the model; `Personas` holds the deep-dive lookup.

Some literals in the source are UTF-8 punctuation that was re-read as
Windows-1252: "â€”", "â†’" and "â€™". They are kept as those exact three
characters, written as `\U{..}` escapes.

The last hashtag of the content kit is a plain string, not an f-string. It is
therefore kept verbatim as `#{platform.replace(' ', '').lower()}tips`, braces
included.

Three behaviours of the code are worth knowing, because the model keeps them
as written:

- The generators ask the model for items separated by "a line containing
  exactly '---'" (app.py:195), but the code cuts the completion at every
  occurrence of `---` (app.py:199), even inside a line.
- `build_prompt` (app.py:128-129) strips only the whole joined prompt, not
  each directive.
- The content kit's hashtag stack has five tags with or without Pro: the Pro
  bound `[:8]` (app.py:376) runs past the end of a five-element list.

## Model

| member | source | states |
|---|---|---|
| PyStr.Strip | app.py:16-17 | `str.strip()` gives a string with no leading or trailing whitespace, no longer than its input |
| PyStr.StripFacts | app.py:134-139 | a string strips to "" exactly when it is all whitespace; an already stripped string is unchanged |
| PyStr.StripStart | app.py:129 | removing leading whitespace never lengthens a string |
| PyStr.StripStartFacts | app.py:129 | the left strip ends at the first non-space character and drops only whitespace |
| PyStr.StripEnd | app.py:129 | removing trailing whitespace never lengthens a string |
| PyStr.StripEndFacts | app.py:129 | the right strip ends at the last non-space character and drops only whitespace |
| PyStr.StripIsInfix | app.py:129 | the stripped text is a contiguous piece of the original |
| PyStr.StripStartSpaces | app.py:199 | the left strip removes exactly a whitespace prefix that precedes a non-space character |
| PyStr.StripEndSpaces | app.py:199 | the right strip removes exactly a whitespace suffix that follows a non-space character |
| PyStr.StripPadded | app.py:199 | stripping whitespace-padded, stripped, non-empty text gives that text back |
| PyStr.Lower | app.py:133 | `str.lower()` keeps the length and lowers each ASCII letter in place |
| PyStr.TitleFrom | app.py:168 | title-casing keeps the length |
| PyStr.Title | app.py:168 | `mood.title()` keeps the length |
| PyStr.Join | app.py:215-216 | `sep.join` of no parts is ""; otherwise the joined text starts with the first part |
| PyStr.JoinOccurs | app.py:215-216 | gives the position where each part sits in `sep.join(parts)` |
| PyStr.JoinContains | app.py:215-216 | every part appears verbatim in the joined text |
| PyStr.JoinContainsAll | app.py:209 | all parts at once appear verbatim in the joined text |
| PyStr.SplitAcc | app.py:199 | the split scan always yields at least one segment |
| PyStr.Split | app.py:199 | `raw.split("---")` always yields at least one segment |
| PyStr.SplitAccJoin | app.py:199 | re-joining the segments of a split with the separator gives back the scanned text |
| PyStr.SplitAccLeftmost | app.py:199 | each cut is at the leftmost occurrence of the separator; no segment but the last is followed by one inside it |
| PyStr.SplitCharacterization | app.py:199 | `split` is the inverse of `join`, with cuts at leftmost occurrences |
| PyStr.NoSepExtend | app.py:199 | an item with no separator inside it, followed by a separator, is cut right after the item |
| PyStr.SplitAccSkip | app.py:199 | splitting `x + sep + y`, with no separator inside `x`, gives `x` and then the split of `y` |
| PyStr.SplitAccLast | app.py:199 | splitting a text with no separator inside gives that text alone |
| PyStr.SplitJoinInverse | app.py:199 | splitting the join of items that contain no separator gives the items back |
| PyStr.SliceTo | app.py:200 | `xs[:n]` is a prefix of `xs`, of length `min(n, len)` for `n >= 0` and of length `max(0, len + n)` for a negative `n` |
| PyStr.NatToString | app.py:215 | `str(idx + 1)` is non-empty, all decimal digits, with no leading zero |
| PyStr.ParseNatToString | app.py:215 | reading the digits of `str(n)` gives `n` back: each heading number is exact |
| Knowledge.HintsCoverPlatforms | app.py:19-28 | the deliverable-hint table has an entry exactly for each platform of `PLATFORMS` |
| Knowledge.HintFor | app.py:153-162 | the hint lookup succeeds exactly for the eight platforms, with that platform's hint; otherwise it is a `KeyError` naming the platform |
| Knowledge.PersonaKeywords | app.py:342-345 | the persona's recorded keywords (three for each known persona), or none for an unknown persona |
| Knowledge.PersonaDesires | app.py:336-339 | the persona's recorded desires (three for each known persona), or none for an unknown persona |
| Knowledge.KeywordPhrase | app.py:151-152 | the keyword phrase is the persona's first two keywords joined by ", ", or "" for an unknown persona |
| Unlock.Normalize | app.py:133 | the normalised code is the stripped code with each character lower-cased in place. So it has no surrounding whitespace and no upper-case letter, and it is "" exactly when the code is blank |
| Unlock.ProUnlockCode | app.py:17 | the configured secret is the stripped variable value with each character lower-cased; it has no upper-case letter and is "" exactly when the value is blank |
| Unlock.UnlockPro | app.py:132-147 | Pro unlocks if and only if the normalised code is non-empty and equals the secret. The unlocked message shows exactly then. "Enter your code" shows exactly for a blank code. "Didn't match" shows exactly for a non-blank wrong code |
| Unlock.UnlockAcceptsVariants | app.py:132-139 | any code that matches a non-blank configured value after trimming both and ignoring ASCII case unlocks Pro |
| Unlock.UnlockNeverWithBlankSecret | app.py:132-147 | with a blank configured value no code unlocks Pro |
| Unlock.DefaultSecret | app.py:17 | with the variable unset, the secret is "loomvale-pro" |
| Unlock.NormalizeShouted | app.py:133 | "LOOMVALE-PRO " normalises to the default secret |
| Unlock.UnlockAcceptsShoutedCode | app.py:132-139 | the default code typed in upper case with a trailing space unlocks Pro |
| Unlock.UnlockRejectsEmptyCode | app.py:139-143 | an empty code gets the "enter your code" message and no Pro |
| Unlock.UnlockRejectsWrongCode | app.py:144-147 | a wrong code gets the mismatch message and no Pro |
| Completion.BuildPrompt | app.py:128-129 | the prompt is stripped and never longer than the two directives plus the blank line. For stripped, non-empty directives it is exactly system directive, blank line, user directive |
| Completion.Kept | app.py:199 | a blank part keeps nothing; any other part keeps exactly one item, its stripped text |
| Completion.EffectiveCount | app.py:182 | with Pro the count is `total`. Without Pro it is at most the free limit and at most `total`, and equal to one of them |
| Completion.Segments | app.py:199 | the cleaned items are trimmed and non-empty, and never more than the parts |
| Completion.SegmentsSingle | app.py:199 | one part is cleaned to exactly what that part keeps |
| Completion.SegmentsAppend | app.py:199 | cleaning keeps the completion's order: it distributes over concatenation |
| Completion.SegmentsEmpty | app.py:199-203 | nothing survives the cleaning exactly when every piece is blank, which is when the fallback runs |
| Completion.SegmentsOfClean | app.py:199 | already trimmed, non-empty items pass through the cleaning unchanged |
| Completion.SplitResponse | app.py:198-200 | the items taken from a completion are the first of the cleaned pieces, in order, each trimmed and non-empty. There are `min(cap, pieces)` of them for `cap >= 0` and `max(0, pieces + cap)` for a negative `cap` |
| Completion.SplitResponseEmpty | app.py:198-203 | with a positive cap, the split is empty exactly when every piece is blank; an empty completion always gives no items |
| Completion.SeparableNoSep | app.py:199 | an item with no `---` and no trailing `-` is never cut |
| Completion.AllSeparableNoSep | app.py:199 | the same holds for every item of a list |
| Completion.SplitResponseOfJoin | app.py:198-200 | separable, trimmed, non-empty items glued by a bare `---`, with no line breaks, are parsed back to those items, cut to the cap |
| Completion.LinePieces | app.py:194-199 | the requested layout has one `---`-separated piece per item |
| Completion.JoinLines | app.py:194-199 | items separated by lines of `---` are their line pieces joined by a bare `---` |
| Completion.PieceNoSep | app.py:194-199 | a piece whose item holds no `---` contains no cut: the line breaks keep the item's dashes apart from the delimiter's |
| Completion.SegmentsOfPadded | app.py:199 | parts that each strip to a non-empty item are cleaned to exactly those items |
| Completion.LinePiecesFacts | app.py:194-199 | no piece of the requested layout holds a cut, and each piece strips to its item |
| Completion.SplitResponseOfLines | app.py:194-200 | a completion in the requested layout is parsed back to its items, cut to the cap. The layout is trimmed, non-empty items with no `---` inside, each separated by a line containing exactly `---` |
| Completion.ModelItems | app.py:185-200 | no items unless the model was asked and answered; otherwise exactly the split and capped completion, trimmed, non-empty and at most `cap` of them |
| Markdown.Bullets | app.py:304-306 | no items give ""; otherwise the list opens with the first item's bullet |
| Markdown.BulletsShow | app.py:304-306 | every item is shown as its own `- item` bullet |
| Markdown.NumberedBlocksShow | app.py:215-216 | every body appears in the rendering together with its heading numbered `k + 1` |
| Markdown.NumberedBlock | app.py:215 | a block opens with its heading numbered `index + 1` and ends with its body |
| Markdown.NumberedBlocks | app.py:215-216 | the rendering is "" for no bodies, and otherwise opens with the heading numbered 1 |
| Markdown.NumberedBlocksNotMessage | app.py:294-296 | a rendering never equals a plain message that does not start with `#` |
| Ideas.ActiveMoods | app.py:165 | the moods used are never empty: the chosen ones, or "cozy" |
| Ideas.DefaultMoodIsListed | app.py:30-31 | the default mood "cozy" is the first entry of `MOODS` |
| Ideas.MoodsLabel | app.py:209 | the moods column is "cozy" when no mood is chosen; otherwise it opens with the first mood and names every chosen mood |
| Ideas.IdeaHeadline | app.py:168 | the headline opens with "<Mood> take: ", contains the seed, and is 14 characters longer than mood, seed and persona together |
| Ideas.IdeaText | app.py:168-172 | built from `IdeaHeadline` and the `IdeaBody` helper (app.py:169-172); each template idea opens with the bold headline "<Mood> take: <seed> for <persona>" and contains the seed and the lower-cased platform hint |
| Ideas.FallbackIdea | app.py:167-172 | idea `i` opens with the headline in mood `moods[i % len(moods)]`, or in "cozy" when none is chosen |
| Ideas.IdeaSeq | app.py:166 | the loop produces exactly `max(0, total)` ideas |
| Ideas.FallbackIdeaList | app.py:150-174 | an unknown platform is a `KeyError` naming it, and so is nothing else; otherwise there are exactly `max(0, total)` ideas |
| Ideas.AppendIdeas | app.py:164-173 | the append loop builds exactly the specified idea sequence: idea `i` uses mood `active[i % len(active)]` |
| Ideas.FallbackIdeas | app.py:150-174 | `fallback_ideas` returns exactly the specified result: the lookup error or the ideas |
| Ideas.IdeaSeqShape | app.py:165-172 | idea `i` is written in mood `moods[i % len(moods)]`, or "cozy" when none is chosen; its headline names the seed, and it contains the seed and the lower-cased hint |
| Ideas.IdeaSeqMoodsRepeat | app.py:167 | moods repeat with period `len(moods)`: ideas `i` and `i + len(moods)` are the same text |
| Ideas.IdeaRows | app.py:205-213 | one row per idea in order, each with the platform, the persona, the moods label and that idea |
| Ideas.IdeaList | app.py:182-203 | the model's items are used when there are any, otherwise the fallback for the capped count. Without Pro there are never more than 4 ideas; there are never more than `total`; a `KeyError` only for an unknown platform. With Pro and a silent model there are exactly `total` ideas |
| Ideas.GenerateIdeas | app.py:177-216 | a blank seed gives the "enter a seed" message and no rows. Otherwise there is one row per idea of the stripped seed, the markdown shows those ideas as numbered blocks, and nothing beyond the free limit without Pro |
| Ideas.GenerateIdeasFallback | app.py:177-213 | with the model off or silent and a known platform, there are exactly `max(0, capped_total)` rows. Each names the stripped seed and carries the moods label |
| Ideas.GenerateIdeasUnknownPlatform | app.py:202-203 | with the model silent, an unknown platform raises the `KeyError` |
| Ideas.GenerateIdeasShowsRows | app.py:215-216 | the markdown of a successful call contains every row's idea |
| Captions.CaptionHeadline | app.py:235 | the headline is never empty. It is the seed if there is one, else exactly the article's first 60 characters followed by "...", else "Your story" |
| Captions.ToneHint | app.py:236 | the tone hint is the lower-cased tone, or "warm storyteller" for no tone |
| Captions.DefaultToneIsListed | app.py:236 | a blank tone gives the same hint as the first entry of `TONES`, the picker's default |
| Captions.CaptionHook | app.py:241 | the hook opens with "<headline>: " and is 18 characters longer than headline and persona together |
| Captions.CaptionText | app.py:241-248 | built from `CaptionHook` and the `CaptionContext` helper (app.py:242-245); each template caption opens with its hook, so with the headline, and names the tone hint |
| Captions.CaptionSeq | app.py:240 | the loop produces exactly `max(0, total)` captions |
| Captions.AppendCaptions | app.py:239-249 | the append loop builds exactly the specified caption sequence |
| Captions.FallbackCaptionList | app.py:233-250 | `fallback_captions` gives exactly `max(0, total)` captions |
| Captions.FallbackCaptions | app.py:233-250 | the method returns exactly the specified captions |
| Captions.CaptionSeqShape | app.py:235-249 | all template captions are the same text; each starts with the headline and its hook, and names the tone |
| Captions.CaptionList | app.py:268-292 | the model's items are used when there are any, otherwise the fallback for the capped count. Never more than 3 without Pro, never more than `total` |
| Captions.GenerateCaptions | app.py:253-296 | both inputs blank gives the "paste something" message; otherwise the captions are shown as numbered blocks |
| Captions.GenerateCaptionsMessage | app.py:263-266 | the message is shown if and only if both the seed and the article are blank |
| Captions.GenerateCaptionsFallback | app.py:263-296 | with the model off or silent and a seed, there are exactly `max(0, capped_total)` captions. Each starts with the stripped seed and is shown in the output |
| Personas.Section | app.py:304-312 | a section opens with its bold heading and ends with a blank line |
| Personas.SectionShows | app.py:304-312 | every item of a section is one of its bullets |
| Personas.DeepDiveText | app.py:308-313 | the briefing opens with "### <persona> Deep Dive" and ends with the closing advice line |
| Personas.DeepDiveTextShape | app.py:304-313 | the briefing opens with "### <persona> Deep Dive" and lists every pain point, desire and keyword as a bullet |
| Personas.PersonaDeepDive | app.py:299-314 | an unknown persona gets the fixed "select a persona" message; a known one gets its briefing |
| Personas.PersonaDeepDiveMessage | app.py:300-302 | the fixed message is shown if and only if the persona is not in the knowledge base |
| Personas.PersonaDeepDiveListsFacts | app.py:304-314 | for a known persona, every recorded pain point, desire and keyword is a bullet of the briefing |
| ContentKit.DesireHook | app.py:338 | a hook opens with "What if <persona> could " and names the desire, lower-cased |
| ContentKit.HookLines | app.py:337-340 | one hook per desire, in order, each "What if <persona> could ..." naming that desire; the stock hook when there are none |
| ContentKit.VisualDirection | app.py:342-346 | with keywords, the visual direction quotes the first keyword and names the platform; without, it quotes the seed |
| ContentKit.HashtagStack | app.py:354-376 | the hashtag stack is the whole five-tag list with or without Pro |
| ContentKit.KitSections | app.py:368-379 | the kit has exactly five sections, each a `KitSection` helper value: a "### " heading line followed by its body |
| ContentKit.KitText | app.py:368-370 | the template kit opens with the hook headlines section |
| ContentKit.KitShowsSection | app.py:368-379 | every section's body appears in the kit |
| ContentKit.KitListsHooks | app.py:368-370 | every hook headline is a bullet of the kit |
| ContentKit.KitIgnoresPro | app.py:354-376 | the template kit is the same text with or without Pro, and shows all five hashtags |
| ContentKit.BuildContentKit | app.py:317-379 | a blank seed gives the "provide a seed" message. When the model was asked and answered, its text is used verbatim. Otherwise the template kit is built for the stripped seed and the persona's recorded desires and keywords |
| ContentKit.BuildContentKitUnknownPersona | app.py:336-346 | for an unknown persona the template kit has the stock hook and quotes the stripped seed |
| ContentKit.BuildContentKitHooks | app.py:336-370 | for a known persona there is exactly one hook per desire; each names its desire and is a bullet of the kit |

## Left out

- The Gradio interface (app.py:382-489): layout, widgets, event wiring and the Pro state that the interface keeps.
- `call_llm` (app.py:111-125): the hosted model is not modelled. Its answer is the parameter `raw`, with "" for no answer, an error, or a missing client. Temperature and token limits are left out with it.
- The prompt texts the generators build for the model (system and user directives, the content kit's "depth" label). They only feed `call_llm`, so only `build_prompt` itself is modelled.
- CSV and JSON exports, their timestamped file names and the temporary directory (app.py:107-108, 218-230). `generate_ideas` is modelled as returning the markdown and the rows.
- Environment reads (app.py:15-17). `HF_TOKEN` becomes the flag `tokenPresent`. `PRO_UNLOCK_CODE` becomes the `secret` parameter, with `ProUnlockCode` normalising the variable's value. The model name is not used by the modelled code.
- `None` inputs (`code or ""`, `seed or ""`): callers pass strings, and `None` is modelled as "".
- Unicode case mapping: `Lower` and `Title` change only ASCII letters.
- Ideas.IdeaList: the free-limit bound is stated for `total >= 0` only. For a negative `total` the capped count is negative, and the completion's items are then cut from the end as `xs[:n]` does. The interface's slider never sends a negative count.
- Ideas.GenerateIdeas: the free-limit bound on rows is stated for `total >= 0` only, for the same reason.
- Captions.CaptionList: the free-limit bound is stated for `total >= 0` only, for the same reason.
- Ideas.FallbackIdeas: the seed is used as given. `generate_ideas` strips it before the call, as the source does.
