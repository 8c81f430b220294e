/** The two steps app.py wraps around every text-completion call: composing
    the prompt, and cutting the completion into trimmed, non-empty,
    `---`-separated items capped at the requested count. The completion
    itself is an input: `raw`, where "" stands for an unavailable service. */
module Completion {
  import opened PyStr

  /** The separator `split` cuts at. */
  const Delimiter := "---"

  /** The layout the prompts request: each item separated by a line
      containing exactly `---`. */
  const LineDelimiter := "\n" + Delimiter + "\n"

  /** `build_prompt(system_directive, user_directive)`: the two directives with
      a blank line between them, and only the whole result stripped. */
  function BuildPrompt(systemDirective: string, userDirective: string): (prompt: string)
    ensures IsStripped(prompt)
    ensures |prompt| <= |systemDirective| + 2 + |userDirective|
    ensures IsStripped(systemDirective) && IsStripped(userDirective)
            && systemDirective != "" && userDirective != ""
            ==> prompt == systemDirective + "\n\n" + userDirective
  {
    var joined := systemDirective + "\n\n" + userDirective;
    assert systemDirective != "" && userDirective != "" ==>
      joined[0] == systemDirective[0] && joined[|joined| - 1] == userDirective[|userDirective| - 1];
    Strip(joined)
  }

  /** What one part contributes after cleaning: its stripped text, unless blank. */
  function Kept(part: string): (kept: seq<string>)
    ensures |kept| <= 1
    ensures kept == [] <==> AllSpace(part)
    ensures kept != [] ==> kept[0] == Strip(part)
    ensures forall k :: 0 <= k < |kept| ==> kept[k] != "" && IsStripped(kept[k])
  {
    StripFacts(part);
    var t := Strip(part);
    if t == "" then [] else [t]
  }

  /** The effective count: what the caller asked for with Pro, otherwise at
      most the free tier's limit (`total if is_pro else min(total, limit)`). */
  function EffectiveCount(total: int, isPro: bool, freeLimit: int): (count: int)
    ensures isPro ==> count == total
    ensures !isPro ==> count <= freeLimit && count <= total
    ensures !isPro ==> (count == total || count == freeLimit)
  {
    if isPro then total else Min(total, freeLimit)
  }

  /** `[item.strip() for item in parts if item.strip()]`. */
  function Segments(parts: seq<string>): (items: seq<string>)
    ensures |items| <= |parts|
    ensures forall k :: 0 <= k < |items| ==> items[k] != "" && IsStripped(items[k])
    decreases |parts|
  {
    if |parts| == 0 then [] else Kept(parts[0]) + Segments(parts[1..])
  }

  /** A single part is cleaned to exactly what that part contributes. */
  lemma SegmentsSingle(part: string)
    ensures Segments([part]) == Kept(part)
  {
    assert [part][1..] == [];
  }

  /** Cleaning keeps the source order: it commutes with concatenation. */
  lemma {:induction false} SegmentsAppend(a: seq<string>, b: seq<string>)
    ensures Segments(a + b) == Segments(a) + Segments(b)
    decreases |a|
  {
    if |a| == 0 {
      assert a + b == b;
    } else {
      var first, rest := Kept(a[0]), Segments(a[1..]);
      assert (a + b)[0] == a[0];
      assert (a + b)[1..] == a[1..] + b;
      SegmentsAppend(a[1..], b);
      assert first + (rest + Segments(b)) == (first + rest) + Segments(b);
    }
  }

  /** Nothing survives cleaning exactly when every part is blank. */
  lemma {:induction false} SegmentsEmpty(parts: seq<string>)
    ensures Segments(parts) == [] <==> forall k :: 0 <= k < |parts| ==> AllSpace(parts[k])
    decreases |parts|
  {
    if |parts| > 0 {
      StripFacts(parts[0]);
      SegmentsEmpty(parts[1..]);
      assert forall k :: 1 <= k < |parts| ==> parts[k] == parts[1..][k - 1];
    }
  }

  /** Items already trimmed and non-empty pass through cleaning unchanged. */
  lemma {:induction false} SegmentsOfClean(items: seq<string>)
    requires forall k :: 0 <= k < |items| ==> items[k] != "" && IsStripped(items[k])
    ensures Segments(items) == items
    decreases |items|
  {
    if |items| > 0 {
      StripFacts(items[0]);
      SegmentsOfClean(items[1..]);
      assert items == [items[0]] + items[1..];
    }
  }

  /** `[item.strip() for item in raw.split("---") if item.strip()][:cap]`:
      trimmed, non-empty items, in the order of the completion, at most `cap`
      of them. */
  function SplitResponse(raw: string, cap: int): (items: seq<string>)
    ensures forall k :: 0 <= k < |items| ==> items[k] != "" && IsStripped(items[k])
    ensures 0 <= cap ==> |items| == Min(cap, |Segments(Split(raw, Delimiter))|)
    ensures cap < 0 ==> |items| == Max(0, |Segments(Split(raw, Delimiter))| + cap)
    ensures items == Segments(Split(raw, Delimiter))[..|items|]
  {
    SliceTo(Segments(Split(raw, Delimiter)), cap)
  }

  /** With a positive cap the split yields nothing exactly when every
      `---`-separated piece of the completion is blank; the empty completion
      (the unavailable service) always yields nothing. */
  lemma SplitResponseEmpty(raw: string, cap: int)
    ensures 0 < cap ==>
      (SplitResponse(raw, cap) == [] <==>
       forall k :: 0 <= k < |Split(raw, Delimiter)| ==> AllSpace(Split(raw, Delimiter)[k]))
    ensures raw == "" ==> SplitResponse(raw, cap) == []
  {
    SegmentsEmpty(Split(raw, Delimiter));
    if raw == "" {
      assert Split(raw, Delimiter) == [""];
      assert AllSpace("");
    }
  }

  /** An item the model can put between delimiters without being cut: it
      holds no `---` and does not end in `-` (which would merge with the
      following delimiter). */
  ghost predicate Separable(item: string) {
    !Contains(item, Delimiter) && (|item| == 0 || item[|item| - 1] != '-')
  }

  lemma SeparableNoSep(x: string)
    requires Separable(x)
    ensures NoSepWithin(x, Delimiter, Delimiter)
    ensures NoSepWithin(x, "", Delimiter)
  {
    var sep := Delimiter;
    assert x + "" == x;
    forall i | 0 <= i < |x|
      ensures !OccursAt(sep, x + sep, i)
    {
      assert !OccursAt(sep, x, i);
      if i + |sep| <= |x| {
        assert (x + sep)[i..i + |sep|] == x[i..i + |sep|];
      } else {
        var j := |x| - 1 - i;
        assert 0 <= j < |sep|;
        assert (x + sep)[i..i + |sep|][j] == x[|x| - 1];
        assert sep[j] == '-';
      }
    }
  }

  lemma AllSeparableNoSep(items: seq<string>)
    requires |items| >= 1
    requires forall k :: 0 <= k < |items| ==> Separable(items[k])
    ensures forall k :: 0 <= k < |items| - 1 ==> NoSepWithin(items[k], Delimiter, Delimiter)
    ensures NoSepWithin(items[|items| - 1], "", Delimiter)
  {
    forall k | 0 <= k < |items|
      ensures NoSepWithin(items[k], Delimiter, Delimiter) && NoSepWithin(items[k], "", Delimiter)
    {
      SeparableNoSep(items[k]);
    }
  }

  /** Separable, trimmed, non-empty items glued by a bare `---` (no line
      breaks) are parsed back to those items, cut to the cap. */
  lemma SplitResponseOfJoin(items: seq<string>, cap: int)
    requires forall k :: 0 <= k < |items| ==> items[k] != "" && IsStripped(items[k]) && Separable(items[k])
    ensures SplitResponse(Join(items, Delimiter), cap) == SliceTo(items, cap)
  {
    if |items| == 0 {
      SplitResponseEmpty("", cap);
    } else {
      AllSeparableNoSep(items);
      SplitJoinInverse(items, Delimiter);
      SegmentsOfClean(items);
    }
  }

  /** The `---`-separated pieces of a completion in the requested layout:
      each item with the line breaks around the delimiter lines attached,
      the first piece opening with `lead`. */
  function LinePieces(items: seq<string>, lead: string): (pieces: seq<string>)
    ensures |pieces| == |items|
  {
    seq(|items|, k requires 0 <= k < |items| =>
      (if k == 0 then lead else "\n") + items[k] + (if k < |items| - 1 then "\n" else ""))
  }

  /** Joining with delimiter lines is joining the line pieces with a bare `---`. */
  lemma {:induction false} JoinLines(items: seq<string>, lead: string)
    requires |items| >= 1
    ensures lead + Join(items, LineDelimiter) == Join(LinePieces(items, lead), Delimiter)
    decreases |items|
  {
    var pieces := LinePieces(items, lead);
    if |items| == 1 {
      assert pieces[0] == lead + items[0] + "";
      assert lead + items[0] + "" == lead + items[0];
      assert pieces == [lead + items[0]];
    } else {
      var rest := LinePieces(items[1..], "\n");
      assert pieces[1..] == rest;
      JoinLines(items[1..], "\n");
      var tail := Join(items[1..], LineDelimiter);
      assert Join(pieces, Delimiter) == (lead + items[0] + "\n") + Delimiter + ("\n" + tail);
      assert lead + Join(items, LineDelimiter) == lead + (items[0] + LineDelimiter + tail);
    }
  }

  /** A piece holding an item with no `---` has no cut inside it: the line
      breaks keep the item's dashes apart from the delimiter's. */
  lemma PieceNoSep(lead: string, item: string, trail: string, next: string)
    requires lead == "" || lead == "\n"
    requires (trail == "\n" && next == Delimiter) || (trail == "" && next == "")
    requires !Contains(item, Delimiter)
    ensures NoSepWithin(lead + item + trail, next, Delimiter)
  {
    var p := lead + item + trail;
    var s := p + next;
    forall i | 0 <= i < |p|
      ensures !OccursAt(Delimiter, s, i)
    {
      if i + |Delimiter| <= |s| {
        var window := s[i..i + |Delimiter|];
        if i < |lead| {
          assert window[0] == s[i] == '\n';
        } else if i + |Delimiter| <= |lead| + |item| {
          assert window == item[i - |lead|..i - |lead| + |Delimiter|];
          assert !OccursAt(Delimiter, item, i - |lead|);
        } else {
          var j := |lead| + |item|;
          assert window[j - i] == s[j] == '\n';
        }
      }
    }
  }

  /** Items that are trimmed and non-empty survive as themselves when each
      part strips to the matching item. */
  lemma {:induction false} SegmentsOfPadded(parts: seq<string>, items: seq<string>)
    requires |parts| == |items|
    requires forall k :: 0 <= k < |items| ==> items[k] != "" && Strip(parts[k]) == items[k]
    ensures Segments(parts) == items
    decreases |parts|
  {
    if |parts| > 0 {
      StripFacts(parts[0]);
      assert Kept(parts[0]) == [items[0]];
      SegmentsOfPadded(parts[1..], items[1..]);
      assert items == [items[0]] + items[1..];
    }
  }

  /** No piece of the requested layout holds a cut, and each strips to its item. */
  lemma LinePiecesFacts(items: seq<string>)
    requires |items| >= 1
    requires forall k :: 0 <= k < |items| ==>
      items[k] != "" && IsStripped(items[k]) && !Contains(items[k], Delimiter)
    ensures var pieces := LinePieces(items, "");
      (forall k :: 0 <= k < |items| - 1 ==> NoSepWithin(pieces[k], Delimiter, Delimiter))
      && NoSepWithin(pieces[|items| - 1], "", Delimiter)
      && (forall k :: 0 <= k < |items| ==> Strip(pieces[k]) == items[k])
  {
    var pieces := LinePieces(items, "");
    forall k | 0 <= k < |items|
      ensures k < |items| - 1 ==> NoSepWithin(pieces[k], Delimiter, Delimiter)
      ensures k == |items| - 1 ==> NoSepWithin(pieces[k], "", Delimiter)
      ensures Strip(pieces[k]) == items[k]
    {
      var lead := if k == 0 then "" else "\n";
      var trail := if k < |items| - 1 then "\n" else "";
      assert pieces[k] == lead + items[k] + trail;
      PieceNoSep(lead, items[k], trail, if k < |items| - 1 then Delimiter else "");
      StripPadded(lead, items[k], trail);
    }
  }

  /** A completion in the requested layout — trimmed, non-empty items with no
      `---` inside, each separated by a line containing exactly `---` — is
      parsed back to those items, cut to the cap. */
  lemma SplitResponseOfLines(items: seq<string>, cap: int)
    requires forall k :: 0 <= k < |items| ==>
      items[k] != "" && IsStripped(items[k]) && !Contains(items[k], Delimiter)
    ensures SplitResponse(Join(items, LineDelimiter), cap) == SliceTo(items, cap)
  {
    if |items| == 0 {
      SplitResponseEmpty("", cap);
    } else {
      var pieces := LinePieces(items, "");
      JoinLines(items, "");
      assert "" + Join(items, LineDelimiter) == Join(items, LineDelimiter);
      LinePiecesFacts(items);
      SplitJoinInverse(pieces, Delimiter);
      SegmentsOfPadded(pieces, items);
    }
  }

  /** The items a generator takes from the model: none unless the model was
      asked (`use_llm and HF_TOKEN`) and answered (`if raw:`), else the split
      and capped completion. */
  function ModelItems(useLlm: bool, tokenPresent: bool, raw: string, cap: int): (items: seq<string>)
    ensures forall k :: 0 <= k < |items| ==> items[k] != "" && IsStripped(items[k])
    ensures 0 <= cap ==> |items| <= cap
    ensures !(useLlm && tokenPresent) || raw == "" ==> items == []
    ensures useLlm && tokenPresent && raw != "" ==> items == SplitResponse(raw, cap)
  {
    if useLlm && tokenPresent && raw != "" then SplitResponse(raw, cap) else []
  }
}
