/**
 The evaluation request sent to the language model: a fixed instruction
 block, the draft verbatim, and a JSON skeleton listing all fifteen items
 with the four axes set to 0.
 */
module Prompt {
  import opened Rubric

  /** The decimal spelling of n, as str(n) gives for a non-negative integer. */
  function Decimal(n: nat): (s: string)
    ensures |s| >= 1
    ensures forall k | 0 <= k < |s| :: '0' <= s[k] <= '9'
  {
    if n < 10 then [Digit(n)] else Decimal(n / 10) + [Digit(n % 10)]
  }

  function Digit(d: nat): char
    requires d < 10
  {
    ['0', '1', '2', '3', '4', '5', '6', '7', '8', '9'][d]
  }

  /** The text before the draft: a blank first line and the two instruction lines. */
  const Preamble: string :=
    "\nあなたは地方議会の一般質問を評価する専門家です。\nJSON以外は絶対に出力しないでください。\n\n"

  /** The text between the draft and the item lines. */
  const FormatHeader: string := "\n\n出力形式：\n{\n \"scores\": {\n"

  /** The text after the item lines. */
  const FormatFooter: string := " }\n}\n"

  /** The quoted key of item i in the reply's "scores" object. */
  function ItemKey(i: nat): string {
    "\"" + Decimal(i) + "\""
  }

  /** The skeleton entry of item i: its key and the four axes at 0. */
  function ItemEntry(i: nat): string {
    ItemKey(i) + ": {\"A\":0,\"B\":0,\"C\":0,\"D\":0}"
  }

  /** One indented skeleton line; every line but the last ends with a comma. */
  function SkeletonLine(i: nat): string {
    "   " + ItemEntry(i) + (if i < ItemCount then "," else "") + "\n"
  }

  /** The skeleton lines of the items ids, in the order given. */
  function SkeletonOf(ids: seq<nat>): string {
    if ids == [] then "" else SkeletonOf(ids[..|ids| - 1]) + SkeletonLine(ids[|ids| - 1])
  }

  /** build_prompt: the draft is embedded verbatim, without escaping. */
  function BuildPrompt(text: string): string {
    Preamble + text + FormatHeader + SkeletonOf(ItemOrder()) + FormatFooter
  }

  /** Everything after the draft. */
  function Suffix(): string {
    FormatHeader + SkeletonOf(ItemOrder()) + FormatFooter
  }

  /** The part of a prompt where build_prompt puts the draft. */
  function DraftOf(p: string): string
    requires |p| >= |Preamble| + |Suffix()|
  {
    p[|Preamble| .. |p| - |Suffix()|]
  }

  /** w occurs in s starting at position j. */
  predicate OccursAt(w: string, s: string, j: int) {
    0 <= j && j + |w| <= |s| && s[j .. j + |w|] == w
  }

  /** The draft stands verbatim right after the preamble and can be read back from the prompt unchanged. */
  lemma PromptKeepsDraft(text: string)
    ensures |BuildPrompt(text)| == |Preamble| + |text| + |Suffix()|
    ensures OccursAt(text, BuildPrompt(text), |Preamble|)
    ensures DraftOf(BuildPrompt(text)) == text
  {
  }

  /** Different drafts give different prompts. */
  lemma PromptInjective(t1: string, t2: string)
    requires BuildPrompt(t1) == BuildPrompt(t2)
    ensures t1 == t2
  {
    PromptKeepsDraft(t1);
    PromptKeepsDraft(t2);
  }

  /** An occurrence in b is one in b + c at the same position. */
  lemma OccursBefore(w: string, b: string, c: string, j: int)
    requires OccursAt(w, b, j)
    ensures OccursAt(w, b + c, j)
  {
  }

  /** An occurrence in b is one in a + b, shifted by the length of a. */
  lemma OccursAfter(w: string, a: string, b: string, j: int)
    requires OccursAt(w, b, j)
    ensures OccursAt(w, a + b, |a| + j)
  {
  }

  /** An occurrence in b is one in a + b + c, shifted by the length of a. */
  lemma OccursInMiddle(w: string, a: string, b: string, c: string, j: int)
    requires OccursAt(w, b, j)
    ensures OccursAt(w, a + b + c, |a| + j)
  {
  }

  /** Item i's entry stands in its own skeleton line after the three-space indent. */
  lemma EntryInLine(i: nat)
    ensures OccursAt(ItemEntry(i), SkeletonLine(i), 3)
  {
  }

  /** The entry of the k-th listed item stands in the skeleton, after the lines of the items before it. */
  lemma {:induction false} EntryInSkeleton(ids: seq<nat>, k: nat)
    requires k < |ids|
    ensures OccursAt(ItemEntry(ids[k]), SkeletonOf(ids), |SkeletonOf(ids[..k])| + 3)
  {
    var init, last := ids[..|ids| - 1], ids[|ids| - 1];
    assert SkeletonOf(ids) == SkeletonOf(init) + SkeletonLine(last);
    if k == |ids| - 1 {
      assert init == ids[..k];
      EntryInLine(last);
      OccursAfter(ItemEntry(last), SkeletonOf(init), SkeletonLine(last), 3);
    } else {
      assert init[k] == ids[k] && init[..k] == ids[..k];
      EntryInSkeleton(init, k);
      OccursBefore(ItemEntry(ids[k]), SkeletonOf(init), SkeletonLine(last), |SkeletonOf(ids[..k])| + 3);
    }
  }

  /** Every item 1..15 has its entry, with its quoted key and the four axes at 0, in the prompt. */
  lemma PromptListsItem(text: string, i: nat)
    requires IsItem(i)
    ensures OccursAt(ItemEntry(i), BuildPrompt(text),
      |Preamble| + |text| + |FormatHeader| + |SkeletonOf(ItemOrder()[..i - 1])| + 3)
  {
    var lines := SkeletonOf(ItemOrder());
    EntryInSkeleton(ItemOrder(), i - 1);
    OccursInMiddle(ItemEntry(i), Preamble + text + FormatHeader, lines, FormatFooter,
      |SkeletonOf(ItemOrder()[..i - 1])| + 3);
  }
}
