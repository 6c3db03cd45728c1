/**
 * What the block dispatch promises: document order, the per-tag outcome of
 * every recognised tag, the drop of unknown subtrees and the transparency of
 * the `head` wrapper.
 */
module ChannelArticlesProperties {
  import opened ChannelArticles

  /** Siblings are rendered one after the other: the blocks of a sequence
      split anywhere are the blocks of its two halves, in that order. */
  lemma {:induction false} RenderAllAppend(a: seq<Node>, b: seq<Node>)
    ensures RenderAll(a + b) == RenderAll(a) + RenderAll(b)
  {
    if a == [] {
      assert a + b == b;
    } else {
      assert (a + b)[1..] == a[1..] + b;
      RenderAllAppend(a[1..], b);
    }
  }

  /** A single element contributes exactly its own blocks. */
  lemma RenderAllSingle(n: Node)
    ensures RenderAll([n]) == RenderBlock(n)
  {
  }

  /** Document order: the blocks of body child i come after those of every
      earlier child and before those of every later one; the body itself adds
      nothing. */
  lemma DocumentOrder(body: Node, i: nat)
    requires i < |body.children|
    ensures RenderHtml(body) ==
      RenderAll(body.children[..i]) + RenderBlock(body.children[i]) + RenderAll(body.children[i + 1..])
  {
    var cs := body.children;
    assert cs == cs[..i] + ([cs[i]] + cs[i + 1..]);
    RenderAllAppend(cs[..i], [cs[i]] + cs[i + 1..]);
    RenderAllAppend([cs[i]], cs[i + 1..]);
    RenderAllSingle(cs[i]);
  }

  /** The root is transparent: two bodies with the same children render the
      same, whatever the root's own tag and text. */
  lemma RootNeverClassified(body: Node, tag: string, ownText: string, wholeText: string)
    ensures RenderHtml(Node(tag, ownText, wholeText, body.children)) == RenderHtml(body)
    ensures body.children == [] ==> RenderHtml(body) == []
  {
  }

  /** `h1` .. `h6` yield exactly one heading of the tag's level carrying the
      element's own text, empty or not. */
  lemma HeadingBlock(n: Node, level: int)
    requires 1 <= level <= 6 && n.tag == HeadingTag(level)
    ensures RenderBlock(n) == [Heading(level, n.ownText)]
  {
  }

  /** Conversely, a heading comes only from a heading tag of its level. */
  lemma HeadingOrigin(n: Node)
    requires n.tag != "head"
    requires RenderBlock(n) != [] && RenderBlock(n)[0].Heading?
    ensures 1 <= RenderBlock(n)[0].level <= 6
    ensures n.tag == HeadingTag(RenderBlock(n)[0].level)
    ensures RenderBlock(n)[0].text == n.ownText
  {
  }

  /** A `p` yields one paragraph with the element's whole text. */
  lemma ParagraphBlock(n: Node)
    requires n.tag == "p"
    ensures RenderBlock(n) == [Paragraph(n.wholeText)]
  {
  }

  /** A `ul` yields one bullet list of the own texts of its `li` children. */
  lemma BulletListBlock(n: Node)
    requires n.tag == "ul"
    ensures RenderBlock(n) == [BulletList(ListItems(n.children))]
    ensures (forall i :: 0 <= i < |n.children| ==> n.children[i].tag != "li") ==>
              RenderBlock(n) == [BulletList([])]
  {
  }

  /** The items of a list split anywhere are the items of its two halves. */
  lemma {:induction false} ListItemsAppend(a: seq<Node>, b: seq<Node>)
    ensures ListItems(a + b) == ListItems(a) + ListItems(b)
  {
    if a == [] {
      assert a + b == b;
    } else {
      assert (a + b)[1..] == a[1..] + b;
      ListItemsAppend(a[1..], b);
    }
  }

  /** One child contributes its own text when it is an `li`, nothing otherwise. */
  lemma ListItemsSingle(c: Node)
    ensures ListItems([c]) == if c.tag == "li" then [c.ownText] else []
  {
  }

  /** Only the tag and own text of the direct children matter: grandchildren
      and whole texts are ignored. */
  lemma {:induction false} ListItemsIgnoresGrandchildren(a: seq<Node>, b: seq<Node>)
    requires |a| == |b|
    requires forall i :: 0 <= i < |a| ==> a[i].tag == b[i].tag && a[i].ownText == b[i].ownText
    ensures ListItems(a) == ListItems(b)
  {
    if a != [] {
      ListItemsIgnoresGrandchildren(a[1..], b[1..]);
    }
  }

  /** An unrecognised tag yields nothing, and since its children are never
      visited, no subtree hung under it changes that. */
  lemma UnknownTagDropped(n: Node, children: seq<Node>)
    requires !Recognized(n.tag)
    ensures RenderBlock(n) == []
    ensures RenderBlock(n.(children := children)) == []
  {
  }

  /** A `head` wrapper is spliced away: replacing it by its children, in
      place, leaves the output unchanged. */
  lemma HeadFlattening(a: seq<Node>, head: Node, b: seq<Node>)
    requires head.tag == "head"
    ensures RenderAll(a + [head] + b) == RenderAll(a + head.children + b)
  {
    RenderAllAppend(a + [head], b);
    RenderAllAppend(a, [head]);
    RenderAllSingle(head);
    RenderAllAppend(a + head.children, b);
    RenderAllAppend(a, head.children);
  }

  /** `[h1 "A", p "B", ul [li "C", li "D"]]` gives the three blocks in order. */
  lemma OrderExample()
    ensures RenderAll([Node("h1", "A", "A", []), Node("p", "B", "B", []),
                       Node("ul", "", "CD", [Node("li", "C", "C", []), Node("li", "D", "D", [])])])
         == [Heading(1, "A"), Paragraph("B"), BulletList(["C", "D"])]
  {
    var c, d := Node("li", "C", "C", []), Node("li", "D", "D", []);
    ListItemsAppend([c], [d]);
    ListItemsSingle(c);
    ListItemsSingle(d);
    assert [c] + [d] == [c, d];
    var h, p, ul := Node("h1", "A", "A", []), Node("p", "B", "B", []), Node("ul", "", "CD", [c, d]);
    RenderAllAppend([h, p], [ul]);
    RenderAllSingle(ul);
    assert [h, p] + [ul] == [h, p, ul];
    assert ListItems([c, d]) == ["C", "D"];
    assert RenderBlock(ul) == [BulletList(["C", "D"])];
    RenderAllAppend([h], [p]);
    RenderAllSingle(h);
    RenderAllSingle(p);
    assert [h] + [p] == [h, p];
    assert RenderAll([h, p]) == [Heading(1, "A"), Paragraph("B")];
  }

  /** `[div [h1 "X"], h2 "Y"]`: the heading under the dropped `div` is lost. */
  lemma DropExample()
    ensures RenderAll([Node("div", "", "X", [Node("h1", "X", "X", [])]), Node("h2", "Y", "Y", [])])
         == [Heading(2, "Y")]
  {
  }

  /** `[head [h1 "A", p "B"]]` renders as the two blocks, and `[ul []]` as an
      empty list. */
  lemma WrapperAndEmptyListExample()
    ensures RenderAll([Node("head", "", "AB", [Node("h1", "A", "A", []), Node("p", "B", "B", [])])])
         == [Heading(1, "A"), Paragraph("B")]
    ensures RenderAll([Node("ul", "", "", [])]) == [BulletList([])]
  {
  }
}
