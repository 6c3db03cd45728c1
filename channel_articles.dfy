/**
 * The block dispatch of the article screen: an already-parsed HTML tree is
 * walked from the children of <body>, and every element becomes zero or more
 * typed content blocks. The Compose layout around each block is not modelled;
 * what remains is a total function from tree to block sequence.
 */
module ChannelArticles {

  /** An element of the parsed tree. `ownText` is the text directly inside the
      element, `wholeText` the text of the element and all its descendants,
      both as the HTML parser extracted them; `children` are the child
      elements in document order. */
  datatype Node = Node(tag: string, ownText: string, wholeText: string, children: seq<Node>)

  /** What the renderer draws: the closed set of block kinds. */
  datatype Block =
    | Heading(level: int, text: string)
    | Paragraph(text: string)
    | BulletList(items: seq<string>)

  /** A heading's level is one of the six HTML heading levels. */
  predicate WellFormed(b: Block) {
    b.Heading? ==> 1 <= b.level <= 6
  }

  /** The tag name `h1` .. `h6` of heading level `level`. */
  function HeadingTag(level: int): (t: string)
    requires 1 <= level <= 6
    ensures |t| == 2 && t[0] == 'h' && '1' <= t[1] <= '6'
    ensures t[1] as int - '0' as int == level
  {
    ['h', ('0' as int + level) as char]
  }

  /** The tags the dispatch recognises; every other tag is dropped. */
  predicate Recognized(tag: string) {
    tag == "head" || tag == "p" || tag == "ul" ||
    tag == "h1" || tag == "h2" || tag == "h3" || tag == "h4" || tag == "h5" || tag == "h6"
  }

  /** Number of elements in a tree, and in a sequence of trees. */
  function Size(n: Node): (k: nat)
    ensures k >= 1
  {
    1 + SizeAll(n.children)
  }

  function SizeAll(ns: seq<Node>): nat
  {
    if ns == [] then 0 else Size(ns[0]) + SizeAll(ns[1..])
  }

  /** The whole screen: only the children of the body are dispatched, the body
      element itself is never classified. */
  function RenderHtml(body: Node): (r: seq<Block>)
    ensures |r| < Size(body)
    ensures forall i :: 0 <= i < |r| ==> WellFormed(r[i])
  {
    RenderAll(body.children)
  }

  /** The blocks of a sequence of sibling elements, one element after the
      other (the `for` loops over `children()`). */
  function RenderAll(ns: seq<Node>): (r: seq<Block>)
    ensures |r| <= SizeAll(ns)
    ensures forall i :: 0 <= i < |r| ==> WellFormed(r[i])
  {
    if ns == [] then [] else RenderBlock(ns[0]) + RenderAll(ns[1..])
  }

  /** Dispatch on the tag name. An unrecognised tag yields nothing and its
      subtree is never visited. */
  function RenderBlock(block: Node): (r: seq<Block>)
    ensures |r| <= Size(block)
    ensures block.tag != "head" ==> |r| == (if Recognized(block.tag) then 1 else 0)
    ensures forall i :: 0 <= i < |r| ==> WellFormed(r[i])
    decreases block, 1
  {
    if block.tag == "head" then RenderHtmlHeadTag(block)
    else if block.tag == "p" then RenderHtmlPTag(block)
    else if block.tag == "h1" then RenderHtmlHeadingTag(block, 1)
    else if block.tag == "h2" then RenderHtmlHeadingTag(block, 2)
    else if block.tag == "h3" then RenderHtmlHeadingTag(block, 3)
    else if block.tag == "h4" then RenderHtmlHeadingTag(block, 4)
    else if block.tag == "h5" then RenderHtmlHeadingTag(block, 5)
    else if block.tag == "h6" then RenderHtmlHeadingTag(block, 6)
    else if block.tag == "ul" then RenderHtmlUlTag(block)
    else []
  }

  /** A `ul` is one bullet list, whatever its children. */
  function RenderHtmlUlTag(block: Node): (r: seq<Block>)
    ensures |r| == 1 && r[0].BulletList?
    ensures |r[0].items| <= |block.children|
  {
    [BulletList(ListItems(block.children))]
  }

  /** The own text of every child tagged `li`, in order; other children and
      all grandchildren are ignored. */
  function ListItems(children: seq<Node>): (items: seq<string>)
    ensures |items| <= |children|
    ensures items == [] <==> forall i :: 0 <= i < |children| ==> children[i].tag != "li"
  {
    if children == [] then []
    else if children[0].tag == "li" then [children[0].ownText] + ListItems(children[1..])
    else ListItems(children[1..])
  }

  /** A heading of level `headingFactor`; a factor outside 1..6 draws nothing. */
  function RenderHtmlHeadingTag(heading: Node, headingFactor: int): (r: seq<Block>)
    ensures r != [] <==> 1 <= headingFactor <= 6
    ensures forall i :: 0 <= i < |r| ==> WellFormed(r[i])
  {
    if 1 <= headingFactor <= 6 then [Heading(headingFactor, heading.ownText)] else []
  }

  /** A paragraph carries the whole text of the element, the text of inline
      children included. */
  function RenderHtmlPTag(p: Node): (r: seq<Block>)
    ensures |r| == 1 && r[0].Paragraph?
  {
    [Paragraph(p.wholeText)]
  }

  /** A `head` wrapper draws nothing of its own: its children go through the
      same dispatch. */
  function RenderHtmlHeadTag(head: Node): (r: seq<Block>)
    ensures |r| < Size(head)
    ensures forall i :: 0 <= i < |r| ==> WellFormed(r[i])
    decreases head, 0
  {
    RenderAll(head.children)
  }
}
