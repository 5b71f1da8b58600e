/** The markdown syntax-tree node as the convertor table reads it: the node's
    own fields and the types (and literals) of its immediate neighbours. */
module Markdown {
  import opened Wrappers

  /** The `type` tag of a markdown node. Every tag the convertor table has a
      handler for is a constructor; any other tag (`document`, front matter,
      …) is `OtherType`. */
  datatype NodeType =
    | Text | Paragraph | Heading | CodeBlock | List | Item | BlockQuote
    | Image | ThematicBreak | Strong | Emph | Link | Softbreak | Linebreak
    | HtmlInline | HtmlBlock | Table | TableHead | TableBody | TableRow
    | TableCell | Strike | Code | CustomBlock
    | OtherType(name: string)

  /** True for the tags the convertor table has a handler for. */
  predicate HasHandler(t: NodeType) {
    !t.OtherType?
  }

  /** The `type` strings of the tags the convertor table has a handler for. */
  const HandledTags: set<string> := {
    "text", "paragraph", "heading", "codeBlock", "list", "item", "blockQuote",
    "image", "thematicBreak", "strong", "emph", "link", "softbreak", "linebreak",
    "htmlInline", "htmlBlock", "table", "tableHead", "tableBody", "tableRow",
    "tableCell", "strike", "code", "customBlock"}

  /** The `type` string a tag stands for. */
  function TagName(t: Kind): (name: string)
    ensures HasHandler(t) <==> name in HandledTags
  {
    match t
    case Text => "text"
    case Paragraph => "paragraph"
    case Heading => "heading"
    case CodeBlock => "codeBlock"
    case List => "list"
    case Item => "item"
    case BlockQuote => "blockQuote"
    case Image => "image"
    case ThematicBreak => "thematicBreak"
    case Strong => "strong"
    case Emph => "emph"
    case Link => "link"
    case Softbreak => "softbreak"
    case Linebreak => "linebreak"
    case HtmlInline => "htmlInline"
    case HtmlBlock => "htmlBlock"
    case Table => "table"
    case TableHead => "tableHead"
    case TableBody => "tableBody"
    case TableRow => "tableRow"
    case TableCell => "tableCell"
    case Strike => "strike"
    case Code => "code"
    case CustomBlock => "customBlock"
    case OtherType(name) => name
  }

  /** A tag is written one way only: `OtherType` never carries a handled name. */
  predicate Canonical(t: NodeType) {
    t.OtherType? ==> t.name !in HandledTags
  }

  /** The tag of a node in a tree, in its one canonical form. */
  type Kind = t: NodeType | Canonical(t) witness Text

  /** The canonical tag a `type` string stands for. */
  function FromTagName(name: string): (t: Kind)
    ensures name !in HandledTags ==> t == OtherType(name)
  {
    if name == "text" then Text
    else if name == "paragraph" then Paragraph
    else if name == "heading" then Heading
    else if name == "codeBlock" then CodeBlock
    else if name == "list" then List
    else if name == "item" then Item
    else if name == "blockQuote" then BlockQuote
    else if name == "image" then Image
    else if name == "thematicBreak" then ThematicBreak
    else if name == "strong" then Strong
    else if name == "emph" then Emph
    else if name == "link" then Link
    else if name == "softbreak" then Softbreak
    else if name == "linebreak" then Linebreak
    else if name == "htmlInline" then HtmlInline
    else if name == "htmlBlock" then HtmlBlock
    else if name == "table" then Table
    else if name == "tableHead" then TableHead
    else if name == "tableBody" then TableBody
    else if name == "tableRow" then TableRow
    else if name == "tableCell" then TableCell
    else if name == "strike" then Strike
    else if name == "code" then Code
    else if name == "customBlock" then CustomBlock
    else OtherType(name)
  }

  /** Writing a canonical tag as its `type` string and reading it back gives the tag. */
  lemma TagNameTag(t: Kind)
    ensures FromTagName(TagName(t)) == t
  {
    if t.OtherType? {
    } else if t in {Text, Image, ThematicBreak, Softbreak, Linebreak, Code} {
      LeafTagNameTag(t);
    } else if t in {Paragraph, Heading, CodeBlock, List, Item, BlockQuote, CustomBlock} {
      BlockTagNameTag(t);
    } else if t in {Strong, Emph, Link, Strike} {
      MarkTagNameTag(t);
    } else if t in {HtmlInline, HtmlBlock} {
      HtmlTagNameTag(t);
    } else {
      TableTagNameTag(t);
    }
  }

  /** `TagNameTag` for the leaf nodes: text, image, breaks and inline code. */
  lemma LeafTagNameTag(t: Kind)
    requires t in {Text, Image, ThematicBreak, Softbreak, Linebreak, Code}
    ensures FromTagName(TagName(t)) == t
  {
  }

  /** `TagNameTag` for the block containers and code-like blocks. */
  lemma BlockTagNameTag(t: Kind)
    requires t in {Paragraph, Heading, CodeBlock, List, Item, BlockQuote, CustomBlock}
    ensures FromTagName(TagName(t)) == t
  {
  }

  /** `TagNameTag` for the nodes that become marks. */
  lemma MarkTagNameTag(t: Kind)
    requires t in {Strong, Emph, Link, Strike}
    ensures FromTagName(TagName(t)) == t
  {
  }

  /** `TagNameTag` for the two raw HTML tags. */
  lemma HtmlTagNameTag(t: Kind)
    requires t in {HtmlInline, HtmlBlock}
    ensures FromTagName(TagName(t)) == t
  {
  }

  /** `TagNameTag` for the table parts. */
  lemma TableTagNameTag(t: Kind)
    requires t in {Table, TableHead, TableBody, TableRow, TableCell}
    ensures FromTagName(TagName(t)) == t
  {
  }

  /** Comparing canonical tags is comparing the source's `type` strings, so a
      test such as `type === 'tableHead'` is a test on the tag. */
  lemma SameTagIffSameName(t: Kind, u: Kind)
    ensures TagName(t) == TagName(u) <==> t == u
  {
    TagNameTag(t);
    TagNameTag(u);
  }

  /** `listData` of a list or list item: `type` is `'bullet'` or `'ordered'`;
      `task` and `checked` are optional booleans. */
  datatype ListData = ListData(
    listType: string,
    start: int,
    task: Option<bool>,
    checked: Option<bool>)

  /** A sibling or child node, as far as a handler looks at it. */
  datatype Neighbour = Neighbour(kind: Kind, literal: Option<string>)

  /** The parent node: its type and, when it has one, its own parent's type. */
  datatype Parent = Parent(kind: Kind, parent: Option<Kind>)

  /** A markdown node. `kind` is the source's `type`; `None` stands for a
      `null` field. Fields a node type does not carry are ignored by its
      handler. */
  datatype MdNode = MdNode(
    kind: Kind,
    literal: Option<string>,
    level: int,
    info: Option<string>,
    listData: ListData,
    destination: Option<string>,
    title: Option<string>,
    firstChild: Option<Neighbour>,
    prev: Option<Neighbour>,
    next: Option<Neighbour>,
    parent: Option<Parent>)
}
