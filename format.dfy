/** The memory formatter: labeled memory blocks rendered as a text block for a system prompt. */
module MemoryFormat {
  import opened Text

  /** A memory block as the memory service holds it; `name` is the block's label. */
  datatype MemoryBlock = MemoryBlock(name: string, value: string)

  /** The two header lines written before the first block. */
  const Header := "\n\n--- Agent Memory Context ---\n"
    + "The following is context from your persistent memory. Use it to maintain continuity:\n\n"

  /** The marker written after the last block. */
  const Footer := "--- End Memory Context ---\n"

  /** The sub-section of one block: its label in brackets, then its value. */
  function Section(b: MemoryBlock): string {
    "[" + b.name + "]\n" + b.value + "\n\n"
  }

  /** What one block adds to the rendering: its sub-section, or nothing when its value is empty. */
  function Contribution(b: MemoryBlock): string {
    if b.value == "" then "" else Section(b)
  }

  /** The sub-sections of the blocks with a non-empty value, in input order. */
  function Sections(blocks: seq<MemoryBlock>): string
    decreases |blocks|
  {
    if |blocks| == 0 then "" else Contribution(blocks[0]) + Sections(blocks[1..])
  }

  /**
   * The rendering of a block list: "" for no blocks; otherwise always the header and the
   * footer, even when every value is empty.
   */
  function Formatted(blocks: seq<MemoryBlock>): (r: string)
    ensures r == "" <==> |blocks| == 0
    ensures |blocks| > 0 ==> HasPrefix(r, Header) && |r| >= |Header| + |Footer| && r[|r| - |Footer|..] == Footer
  {
    if |blocks| == 0 then "" else Header + Sections(blocks) + Footer
  }

  /** `FormatMemoryForInjection`: a string builder that the loop appends to. */
  method FormatMemoryForInjection(blocks: seq<MemoryBlock>) returns (text: string)
    ensures text == Formatted(blocks)
  {
    if |blocks| == 0 {
      return "";
    }
    var sb := Header;
    for i := 0 to |blocks|
      invariant sb == Header + Sections(blocks[..i])
    {
      assert Sections(blocks[..i + 1]) == Sections(blocks[..i]) + Contribution(blocks[i]) by {
        assert blocks[..i + 1] == blocks[..i] + [blocks[i]];
        SectionsAppend(blocks[..i], [blocks[i]]);
      }
      ConcatAssoc(Header, Sections(blocks[..i]), Contribution(blocks[i]));
      if blocks[i].value != "" {
        sb := sb + Section(blocks[i]);
      }
    }
    assert blocks[..|blocks|] == blocks;
    sb := sb + Footer;
    text := sb;
  }

  /** Rendering distributes over concatenation of block lists. */
  lemma {:induction false} SectionsAppend(a: seq<MemoryBlock>, b: seq<MemoryBlock>)
    ensures Sections(a + b) == Sections(a) + Sections(b)
    decreases |a|
  {
    if |a| == 0 {
      assert a + b == b;
    } else {
      assert (a + b)[1..] == a[1..] + b;
      SectionsAppend(a[1..], b);
    }
  }

  /** The blocks of a list are rendered in input order, between header and footer. */
  lemma FormattedInOrder(a: seq<MemoryBlock>, b: seq<MemoryBlock>)
    requires |a| + |b| > 0
    ensures Formatted(a + b) == Header + Sections(a) + Sections(b) + Footer
  {
    SectionsAppend(a, b);
    ConcatAssoc(Header, Sections(a), Sections(b));
  }

  /** A block with an empty value contributes nothing: removing it leaves the rendering as it is. */
  lemma FormattedSkipsEmptyValue(a: seq<MemoryBlock>, blk: MemoryBlock, b: seq<MemoryBlock>)
    requires blk.value == "" && |a| + |b| > 0
    ensures Formatted(a + [blk] + b) == Formatted(a + b)
  {
    assert Sections([blk]) == "" by {
      assert [blk][1..] == [];
    }
    calc {
      Sections(a + [blk] + b);
      == { SectionsAppend(a + [blk], b); }
      Sections(a + [blk]) + Sections(b);
      == { SectionsAppend(a, [blk]); }
      Sections(a) + Sections(b);
      == { SectionsAppend(a, b); }
      Sections(a + b);
    }
  }

  /** A non-empty list whose values are all empty renders as exactly the header and the footer. */
  lemma {:induction false} FormattedAllValuesEmpty(blocks: seq<MemoryBlock>)
    requires |blocks| > 0
    requires forall i :: 0 <= i < |blocks| ==> blocks[i].value == ""
    ensures Formatted(blocks) == Header + Footer
  {
    SectionsOfEmptyValues(blocks);
  }

  lemma {:induction false} SectionsOfEmptyValues(blocks: seq<MemoryBlock>)
    requires forall i :: 0 <= i < |blocks| ==> blocks[i].value == ""
    ensures Sections(blocks) == ""
    decreases |blocks|
  {
    if |blocks| > 0 {
      SectionsOfEmptyValues(blocks[1..]);
    }
  }
}
