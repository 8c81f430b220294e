/** The Persona Deep Dive of app.py: the markdown briefing for one persona
    of the knowledge base. */
module Personas {
  import opened PyStr
  import opened Knowledge
  import opened Markdown

  const SelectPersonaMessage := "Select a persona to view insights."
  const DeepDiveClosing := "Use these cues to align visuals, ad copy, and landing page messaging."

  /** A bold heading over a bullet list, followed by a blank line. */
  function Section(heading: string, items: seq<string>): (section: string)
    ensures StartsWith(section, "**" + heading + "**\n")
    ensures EndsWith(section, "\n\n")
  {
    var head, body := "**" + heading + "**\n", Bullets(items);
    assert (head + body + "\n\n")[..|head|] == head;
    assert (head + body + "\n\n")[|head + body|..] == "\n\n";
    head + body + "\n\n"
  }

  /** Every item of a section is one of its bullets. */
  lemma SectionShows(heading: string, items: seq<string>, k: int)
    requires 0 <= k < |items|
    ensures Contains(Section(heading, items), "- " + items[k])
  {
    BulletsShow(items, k);
    ContainsMiddle("**" + heading + "**\n", Bullets(items), "\n\n");
    ContainsTrans(Section(heading, items), Bullets(items), "- " + items[k]);
  }

  /** The briefing for a persona the knowledge base knows: its pain points,
      desires and keywords as three bullet lists under bold headings. */
  function DeepDiveText(persona: string, facts: PersonaFacts): (text: string)
    ensures StartsWith(text, "### " + persona + " Deep Dive\n\n")
    ensures EndsWith(text, DeepDiveClosing)
  {
    var head := "### " + persona + " Deep Dive\n\n";
    var text := head + Section("Pain points", facts.painPoints)
      + Section("Desired outcomes", facts.desires)
      + Section("Sticky keywords & phrases", facts.keywords)
      + DeepDiveClosing;
    assert text[..|head|] == head;
    assert text[|text| - |DeepDiveClosing|..] == DeepDiveClosing;
    text
  }

  /** The briefing opens with the persona's heading and lists every pain
      point, desire and keyword as a bullet of its own. */
  lemma DeepDiveTextShape(persona: string, facts: PersonaFacts)
    ensures StartsWith(DeepDiveText(persona, facts), "### " + persona + " Deep Dive\n\n")
    ensures forall k :: 0 <= k < |facts.painPoints| ==> Contains(DeepDiveText(persona, facts), "- " + facts.painPoints[k])
    ensures forall k :: 0 <= k < |facts.desires| ==> Contains(DeepDiveText(persona, facts), "- " + facts.desires[k])
    ensures forall k :: 0 <= k < |facts.keywords| ==> Contains(DeepDiveText(persona, facts), "- " + facts.keywords[k])
  {
    var text := DeepDiveText(persona, facts);
    assert text == "### " + persona + " Deep Dive\n\n" + Section("Pain points", facts.painPoints)
      + Section("Desired outcomes", facts.desires) + Section("Sticky keywords & phrases", facts.keywords)
      + DeepDiveClosing;
    Pieces("### " + persona + " Deep Dive\n\n", Section("Pain points", facts.painPoints),
           Section("Desired outcomes", facts.desires), Section("Sticky keywords & phrases", facts.keywords),
           DeepDiveClosing);
    forall k | 0 <= k < |facts.painPoints|
      ensures Contains(text, "- " + facts.painPoints[k])
    {
      SectionShows("Pain points", facts.painPoints, k);
      ContainsTrans(text, Section("Pain points", facts.painPoints), "- " + facts.painPoints[k]);
    }
    forall k | 0 <= k < |facts.desires|
      ensures Contains(text, "- " + facts.desires[k])
    {
      SectionShows("Desired outcomes", facts.desires, k);
      ContainsTrans(text, Section("Desired outcomes", facts.desires), "- " + facts.desires[k]);
    }
    forall k | 0 <= k < |facts.keywords|
      ensures Contains(text, "- " + facts.keywords[k])
    {
      SectionShows("Sticky keywords & phrases", facts.keywords, k);
      ContainsTrans(text, Section("Sticky keywords & phrases", facts.keywords), "- " + facts.keywords[k]);
    }
  }

  /** `persona_deep_dive(persona)`: the fixed prompt for a persona the
      knowledge base lacks, otherwise its briefing. */
  function PersonaDeepDive(persona: string): (md: string)
    ensures persona !in Personas ==> md == SelectPersonaMessage
    ensures persona in Personas ==> md == DeepDiveText(persona, Personas[persona])
  {
    if persona in Personas then DeepDiveText(persona, Personas[persona]) else SelectPersonaMessage
  }

  /** The fixed prompt is shown if and only if the persona is unknown: a
      briefing always opens with "### ". */
  lemma PersonaDeepDiveMessage(persona: string)
    ensures PersonaDeepDive(persona) == SelectPersonaMessage <==> persona !in Personas
  {
  }

  /** For a known persona every recorded pain point, desire and keyword is
      in the briefing as a bullet. */
  lemma PersonaDeepDiveListsFacts(persona: string)
    requires persona in Personas
    ensures var md := PersonaDeepDive(persona);
      var facts := Personas[persona];
      StartsWith(md, "### " + persona + " Deep Dive\n\n")
      && (forall k :: 0 <= k < |facts.painPoints| ==> Contains(md, "- " + facts.painPoints[k]))
      && (forall k :: 0 <= k < |facts.desires| ==> Contains(md, "- " + facts.desires[k]))
      && (forall k :: 0 <= k < |facts.keywords| ==> Contains(md, "- " + facts.keywords[k]))
  {
    DeepDiveTextShape(persona, Personas[persona]);
  }
}
