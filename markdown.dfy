/** The two markdown shapes the generators render: bullet lists
    (`"\n".join(f"- {item}" for item in items)`) and numbered blocks joined by
    a horizontal rule (`"\n\n---\n\n".join(f"### Idea {idx + 1}\n\n{x}" ...)`). */
module Markdown {
  import opened PyStr

  /** The rule between numbered blocks. */
  const BlockSeparator := "\n\n---\n\n"

  /** One bulleted line per item, in order. */
  function Bullets(items: seq<string>): (text: string)
    ensures |items| == 0 ==> text == ""
    ensures |items| > 0 ==> StartsWith(text, "- " + items[0])
  {
    Join(seq(|items|, i requires 0 <= i < |items| => "- " + items[i]), "\n")
  }

  /** Every item shows up as its own bullet. */
  lemma BulletsShow(items: seq<string>, k: int)
    requires 0 <= k < |items|
    ensures Contains(Bullets(items), "- " + items[k])
  {
    var lines := seq(|items|, i requires 0 <= i < |items| => "- " + items[i]);
    JoinContains(lines, "\n", k);
  }

  /** `f"### {kind} {index + 1}\n\n{body}"`: a block numbered from 1. */
  function NumberedBlock(kind: string, index: nat, body: string): (block: string)
    ensures StartsWith(block, "### " + kind + " " + NatToString(index + 1) + "\n\n")
    ensures EndsWith(block, body)
  {
    var head := "### " + kind + " " + NatToString(index + 1) + "\n\n";
    assert (head + body)[..|head|] == head;
    assert (head + body)[|head|..] == body;
    head + body
  }

  /** The blocks for `bodies`, numbered from 1 and joined by the rule: empty
      for no bodies, and otherwise opening with the heading numbered 1. */
  function NumberedBlocks(kind: string, bodies: seq<string>): (md: string)
    ensures |bodies| == 0 ==> md == ""
    ensures |bodies| > 0 ==> StartsWith(md, "### " + kind + " 1\n\n")
  {
    var blocks := seq(|bodies|, i requires 0 <= i < |bodies| => NumberedBlock(kind, i, bodies[i]));
    assert |bodies| > 0 ==> blocks[0] == NumberedBlock(kind, 0, bodies[0]) && NatToString(0 + 1) == "1";
    Join(blocks, BlockSeparator)
  }

  /** Body `k` appears in the rendering, and so does its heading numbered `k + 1`. */
  lemma NumberedBlocksShow(kind: string, bodies: seq<string>, k: int)
    requires 0 <= k < |bodies|
    ensures Contains(NumberedBlocks(kind, bodies), bodies[k])
    ensures Contains(NumberedBlocks(kind, bodies), "### " + kind + " " + NatToString(k + 1) + "\n\n")
  {
    var blocks := seq(|bodies|, i requires 0 <= i < |bodies| => NumberedBlock(kind, i, bodies[i]));
    var head := "### " + kind + " " + NatToString(k + 1) + "\n\n";
    JoinContains(blocks, BlockSeparator, k);
    assert blocks[k] == head + bodies[k];
    ContainsMiddle(head, bodies[k], "");
    assert head + bodies[k] + "" == blocks[k];
    ContainsTrans(NumberedBlocks(kind, bodies), blocks[k], bodies[k]);
    ContainsMiddle("", head, bodies[k]);
    assert "" + head + bodies[k] == blocks[k];
    ContainsTrans(NumberedBlocks(kind, bodies), blocks[k], head);
  }

  /** A rendering is never a plain message that does not open with `#`. */
  lemma NumberedBlocksNotMessage(kind: string, bodies: seq<string>, message: string)
    requires |message| > 0 && message[0] != '#'
    ensures NumberedBlocks(kind, bodies) != message
  {
  }
}
