/** The markdown-to-WYSIWYG convertor table: one handler per markdown node
    type, each returning the builder calls it makes for one event of the
    tree walk. */
module ToWwConvertors {
  import opened Wrappers
  import opened JsValue
  import opened Markdown
  import opened Builder

  /** What the tree walk hands a handler besides the node. `skipChildren` says
      whether the walk offered its `skipChildren` callback. */
  datatype Context = Context(entering: bool, skipChildren: bool)

  /** What the HTML tag resolver reports for a recognised tag: the tag's name,
      the schema type it maps to, and whether that type is a mark. */
  datatype TagInfo = TagInfo(tagName: string, nodeType: string, mark: bool)

  /** The HTML tag resolver `getTagInfo`, applied to a node's `literal`
      (`None` for `null`). Its mapping table is not part of this model, so
      the convertor is stated for every resolver. */
  type TagResolver = Option<string> -> Option<TagInfo>

  // ---------------------------------------------------------------------
  // String helpers

  /** JavaScript `s[i]`: the character at `i`, or `undefined` out of range. */
  function CharAt(s: string, i: int): (c: Option<char>)
    ensures c.Some? <==> 0 <= i < |s|
    ensures c.Some? ==> c.value == s[i]
  {
    if 0 <= i < |s| then Some(s[i]) else None
  }

  /** The text's final character is a line feed. */
  predicate EndsWithNewline(text: string) {
    |text| > 0 && text[|text| - 1] == '\n'
  }

  /** `getTextWithoutTrailingNewline`: drops one final line feed, if any. */
  function GetTextWithoutTrailingNewline(text: string): (r: string)
    ensures r <= text
    ensures |text| - 1 <= |r| <= |text|
    ensures EndsWithNewline(text) ==> r + "\n" == text
    ensures !EndsWithNewline(text) ==> r == text
  {
    if CharAt(text, |text| - 1) == Some('\n') then text[..|text| - 1] else text
  }

  /** The four spellings the line-break pattern can match. */
  const BrTags: set<string> := {"<br>", "<br >", "<br/>", "<br />"}

  /** `tag` occurs in `s` at index `i`. */
  predicate OccursAt(s: string, i: int, tag: string) {
    0 <= i && i + |tag| <= |s| && s[i..i + |tag|] == tag
  }

  /** `s` contains one of the line-break spellings somewhere, at or after `from`. */
  ghost predicate ContainsBrTagFrom(s: string, from: int) {
    exists i, tag :: from <= i && tag in BrTags && OccursAt(s, i, tag)
  }

  /** The tail ` ?\/?>` of the pattern, matched at `j`: an optional space,
      then an optional slash, then `>`. Each optional atom is tried present
      and absent, as the regular-expression engine backtracks. */
  predicate TailAt(s: string, j: int) {
    (OccursAt(s, j, " ") && SlashGtAt(s, j + 1)) || SlashGtAt(s, j)
  }

  /** The part `\/?>` of the pattern, matched at `j`. */
  predicate SlashGtAt(s: string, j: int) {
    (OccursAt(s, j, "/") && OccursAt(s, j + 1, ">")) || OccursAt(s, j, ">")
  }

  /** The pattern `<br ?\/?>` matches at index `i`. */
  predicate BrPatternAt(s: string, i: int) {
    OccursAt(s, i, "<br") && TailAt(s, i + 3)
  }

  lemma OccursAtSplit(s: string, i: int, a: string, b: string)
    ensures OccursAt(s, i, a + b) <==> OccursAt(s, i, a) && OccursAt(s, i + |a|, b)
  {
    if OccursAt(s, i, a) && OccursAt(s, i + |a|, b) {
      assert s[i..i + |a + b|] == s[i..i + |a|] + s[i + |a|..i + |a| + |b|];
    }
    if OccursAt(s, i, a + b) {
      assert s[i..i + |a|] == (a + b)[..|a|];
      assert s[i + |a|..i + |a| + |b|] == (a + b)[|a|..];
    }
  }

  /** The pattern matches at `i` exactly when one of the four spellings occurs there. */
  lemma BrPatternAtIff(s: string, i: int)
    ensures BrPatternAt(s, i) <==> exists tag :: tag in BrTags && OccursAt(s, i, tag)
  {
    OccursAtSplit(s, i, "<br", ">");
    OccursAtSplit(s, i, "<br", " >");
    OccursAtSplit(s, i, "<br", "/>");
    OccursAtSplit(s, i, "<br", " />");
    OccursAtSplit(s, i + 3, " ", ">");
    OccursAtSplit(s, i + 3, " ", "/>");
    OccursAtSplit(s, i + 3, "/", ">");
    OccursAtSplit(s, i + 4, "/", ">");
    assert "<br" + ">" == "<br>";
    assert "<br" + " >" == "<br >";
    assert "<br" + "/>" == "<br/>";
    assert "<br" + " />" == "<br />";
    assert " " + ">" == " >";
    assert " " + "/>" == " />";
    assert "/" + ">" == "/>";
  }

  /** Unanchored search for the pattern, trying each start index from `from` on. */
  function SearchBrFrom(s: string, from: nat): (found: bool)
    requires from <= |s|
    ensures found <==> ContainsBrTagFrom(s, from)
    decreases |s| - from
  {
    BrPatternAtIff(s, from);
    if from == |s| then false
    else BrPatternAt(s, from) || SearchBrFrom(s, from + 1)
  }

  /** `isBrHtml`: the case-sensitive, unanchored test `/<br ?\/?>/`. */
  function IsBrHtml(html: string): (r: bool)
    ensures r <==> exists i, tag :: tag in BrTags && OccursAt(html, i, tag)
  {
    SearchBrFrom(html, 0)
  }

  /** `isBrHtml(x.literal!)`: the regular expression's `test` turns a `null`
      literal into the string `"null"`. */
  function IsBrLiteral(literal: Option<string>): bool {
    match literal
    case Some(s) => IsBrHtml(s)
    case None => IsBrHtml("null")
  }

  /** `node.literal || ''`. */
  function LiteralOrEmpty(literal: Option<string>): (r: string)
    ensures r == literal.GetOr("")
  {
    if literal.Some? && Truthy(Str(literal.value)) then literal.value else ""
  }

  // ---------------------------------------------------------------------
  // Attribute objects built with conditional spreads

  /** `{ ...(task && { task }), ...(checked && { checked }) }` */
  function ItemAttrs(data: ListData): (attrs: Attrs)
    ensures "task" in attrs <==> data.task == Some(true)
    ensures "checked" in attrs <==> data.checked == Some(true)
    ensures forall k :: k in attrs ==> attrs[k] == Bool(true)
    ensures attrs.Keys <= {"task", "checked"}
  {
    var withTask: Attrs := if data.task == Some(true) then map["task" := Bool(true)] else map[];
    if data.checked == Some(true) then withTask["checked" := Bool(true)] else withTask
  }

  /** `{ imageUrl: destination, ...(firstChild && { altText: firstChild.literal }) }` */
  function ImageAttrs(node: MdNode): (attrs: Attrs)
    ensures "imageUrl" in attrs && attrs["imageUrl"] == OrNull(node.destination)
    ensures "altText" in attrs <==> node.firstChild.Some?
    ensures node.firstChild.Some? ==> attrs["altText"] == OrNull(node.firstChild.value.literal)
    ensures attrs.Keys <= {"imageUrl", "altText"}
  {
    var url: Attrs := map["imageUrl" := OrNull(node.destination)];
    match node.firstChild
    case Some(child) => url["altText" := OrNull(child.literal)]
    case None => url
  }

  /** `{ linkUrl: destination, ...(title && { linkText: title }) }` */
  function LinkAttrs(node: MdNode): (attrs: Attrs)
    ensures "linkUrl" in attrs && attrs["linkUrl"] == OrNull(node.destination)
    ensures "linkText" in attrs <==> Truthy(OrNull(node.title))
    ensures "linkText" in attrs ==> attrs["linkText"] == Str(node.title.value)
    ensures attrs.Keys <= {"linkUrl", "linkText"}
  {
    var url: Attrs := map["linkUrl" := OrNull(node.destination)];
    var title := OrNull(node.title);
    if Truthy(title) then url["linkText" := title] else url
  }

  // ---------------------------------------------------------------------
  // Handlers

  /** Opens `open` on entering and makes the matching close on exit. */
  function EnterExit(entering: bool, open: Op): seq<Op>
    requires open.OpenNode? || open.OpenMark?
  {
    if entering then [open] else [Closer(open)]
  }

  function ConvertText(node: MdNode): seq<Op> {
    [AddText(LiteralOrEmpty(node.literal))]
  }

  function ConvertParagraph(ctx: Context): seq<Op> {
    EnterExit(ctx.entering, OpenNode("paragraph", map[]))
  }

  function ConvertHeading(node: MdNode, ctx: Context): seq<Op> {
    EnterExit(ctx.entering, OpenNode("heading", map["level" := Num(node.level)]))
  }

  function ConvertCodeBlock(node: MdNode): seq<Op> {
    [ OpenNode("codeBlock", map["language" := OrNull(node.info)]),
      AddText(GetTextWithoutTrailingNewline(LiteralOrEmpty(node.literal))),
      CloseNode ]
  }

  function ConvertList(node: MdNode, ctx: Context): seq<Op> {
    if ctx.entering then
      if node.listData.listType == "bullet" then [OpenNode("bulletList", map[])]
      else [OpenNode("orderedList", map["order" := Num(node.listData.start)])]
    else [CloseNode]
  }

  function ConvertItem(node: MdNode, ctx: Context): seq<Op> {
    EnterExit(ctx.entering, OpenNode("listItem", ItemAttrs(node.listData)))
  }

  function ConvertBlockQuote(ctx: Context): seq<Op> {
    EnterExit(ctx.entering, OpenNode("blockQuote", map[]))
  }

  /** The image node is added on every call; `skipChildren` runs first when
      entering and offered. */
  function ConvertImage(node: MdNode, ctx: Context): seq<Op> {
    (if ctx.entering && ctx.skipChildren then [SkipChildren] else [])
      + [AddNode(NodeOf("image"), ImageAttrs(node))]
  }

  function ConvertThematicBreak(): seq<Op> {
    [AddNode(NodeOf("thematicBreak"), map[])]
  }

  function ConvertStrong(ctx: Context): seq<Op> {
    EnterExit(ctx.entering, OpenMark(MarkOf("strong"), map[]))
  }

  function ConvertEmph(ctx: Context): seq<Op> {
    EnterExit(ctx.entering, OpenMark(MarkOf("emph"), map[]))
  }

  function ConvertLink(node: MdNode, ctx: Context): seq<Op> {
    EnterExit(ctx.entering, OpenMark(MarkOf("link"), LinkAttrs(node)))
  }

  /** A previous or next sibling that is inline HTML matching the line-break pattern. */
  predicate IsBrSibling(sibling: Option<Neighbour>) {
    sibling.Some? && sibling.value.kind == HtmlInline && IsBrLiteral(sibling.value.literal)
  }

  function ConvertSoftbreak(node: MdNode): seq<Op> {
    var prevBr := IsBrSibling(node.prev);
    var nextBr := IsBrSibling(node.next);
    if !prevBr && !nextBr then [AddText("\n")] else []
  }

  function ConvertLinebreak(): seq<Op> {
    [AddNode(NodeOf("hardBreak"), map[])]
  }

  /** The registry entry `htmlInline` picks: marks or nodes, by the resolver's flag. */
  function InlineHtmlType(info: TagInfo): SchemaType {
    if info.mark then MarkOf(info.nodeType) else NodeOf(info.nodeType)
  }

  /** What `htmlInline` dereferences: the parent, for an entering `br` tag. */
  predicate HtmlInlineNeedsParent(node: MdNode, ctx: Context, resolve: TagResolver) {
    ctx.entering && resolve(node.literal).Some? && resolve(node.literal).value.tagName == "br"
  }

  /** On exit, `closeMark` is called with the resolved type even for `br`. */
  function ConvertHtmlInline(node: MdNode, ctx: Context, resolve: TagResolver): seq<Op>
    requires HtmlInlineNeedsParent(node, ctx, resolve) ==> node.parent.Some?
  {
    match resolve(node.literal)
    case None => []
    case Some(info) =>
      var t := InlineHtmlType(info);
      if ctx.entering then
        if info.tagName == "br" then
          var inCell := node.parent.value.kind == TableCell;
          [AddNode(t, map["htmlString" := Bool(true), "inCell" := Bool(inCell)])]
        else [OpenMark(t, map["htmlString" := Str(info.tagName)])]
      else [CloseMark(t)]
  }

  function ConvertHtmlBlock(node: MdNode, ctx: Context, resolve: TagResolver): seq<Op> {
    match resolve(node.literal)
    case None => []
    case Some(info) =>
      EnterExit(ctx.entering, OpenNode(info.nodeType, map["htmlString" := Bool(true)]))
  }

  function ConvertTable(ctx: Context): seq<Op> {
    EnterExit(ctx.entering, OpenNode("table", map[]))
  }

  function ConvertTableHead(ctx: Context): seq<Op> {
    EnterExit(ctx.entering, OpenNode("tableHead", map[]))
  }

  function ConvertTableBody(ctx: Context): seq<Op> {
    EnterExit(ctx.entering, OpenNode("tableBody", map[]))
  }

  function ConvertTableRow(ctx: Context): seq<Op> {
    EnterExit(ctx.entering, OpenNode("tableRow", map[]))
  }

  /** What `tableCell` dereferences: its parent and grandparent. */
  predicate HasGrandparent(node: MdNode) {
    node.parent.Some? && node.parent.value.parent.Some?
  }

  function ConvertTableCell(node: MdNode, ctx: Context): seq<Op>
    requires HasGrandparent(node)
  {
    var tablePart := node.parent.value.parent.value;
    var cell := if tablePart == TableHead then "tableHeadCell" else "tableBodyCell";
    if ctx.entering then [OpenNode(cell, map[]), OpenNode("paragraph", map[])]
    else [CloseNode, CloseNode]
  }

  function ConvertStrike(ctx: Context): seq<Op> {
    EnterExit(ctx.entering, OpenMark(MarkOf("strike"), map[]))
  }

  function ConvertCode(node: MdNode): seq<Op> {
    [ OpenMark(MarkOf("code"), map[]),
      AddText(GetTextWithoutTrailingNewline(LiteralOrEmpty(node.literal))),
      CloseMark(MarkOf("code")) ]
  }

  /** After the block, an empty paragraph is added when the node is last
      among its siblings, so there is a line to edit after it. */
  function ConvertCustomBlock(node: MdNode): seq<Op> {
    [ OpenNode("customBlock", map["info" := OrNull(node.info)]),
      AddText(GetTextWithoutTrailingNewline(LiteralOrEmpty(node.literal))),
      CloseNode ]
    + (if node.next.None? then [OpenNode("paragraph", map[]), CloseNode] else [])
  }

  /** Everything a handler dereferences without checking is present. */
  predicate Demands(node: MdNode, ctx: Context, resolve: TagResolver) {
    && HasHandler(node.kind)
    && (node.kind == TableCell ==> HasGrandparent(node))
    && (node.kind == HtmlInline && HtmlInlineNeedsParent(node, ctx, resolve) ==> node.parent.Some?)
  }

  /** Dispatch on the node's type to its handler. */
  function Convert(node: MdNode, ctx: Context, resolve: TagResolver): (ops: seq<Op>)
    requires Demands(node, ctx, resolve)
    ensures SkipChildren in ops <==> node.kind == Image && ctx.entering && ctx.skipChildren
  {
    match node.kind
    case Text => ConvertText(node)
    case Paragraph => ConvertParagraph(ctx)
    case Heading => ConvertHeading(node, ctx)
    case CodeBlock => ConvertCodeBlock(node)
    case List => ConvertList(node, ctx)
    case Item => ConvertItem(node, ctx)
    case BlockQuote => ConvertBlockQuote(ctx)
    case Image => ConvertImage(node, ctx)
    case ThematicBreak => ConvertThematicBreak()
    case Strong => ConvertStrong(ctx)
    case Emph => ConvertEmph(ctx)
    case Link => ConvertLink(node, ctx)
    case Softbreak => ConvertSoftbreak(node)
    case Linebreak => ConvertLinebreak()
    case HtmlInline => ConvertHtmlInline(node, ctx, resolve)
    case HtmlBlock => ConvertHtmlBlock(node, ctx, resolve)
    case Table => ConvertTable(ctx)
    case TableHead => ConvertTableHead(ctx)
    case TableBody => ConvertTableBody(ctx)
    case TableRow => ConvertTableRow(ctx)
    case TableCell => ConvertTableCell(node, ctx)
    case Strike => ConvertStrike(ctx)
    case Code => ConvertCode(node)
    case CustomBlock => ConvertCustomBlock(node)
  }
}
