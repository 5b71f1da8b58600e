/** Properties of the convertor table: what each handler emits, which
    attributes it sets, and that the calls made on entering a node and on
    leaving it open and close in matching pairs. */
module ConvertorProperties {
  import opened Wrappers
  import opened JsValue
  import opened Markdown
  import opened Builder
  import opened ToWwConvertors
  import CodeMark

  /** Block node types whose handler opens one document node on entering
      and closes it on exit. */
  const BlockContainers: set<NodeType> := {Paragraph, Heading, List, Item, BlockQuote}

  /** Table parts other than cells: one node opened on entering, closed on exit. */
  const TableContainers: set<NodeType> := {Table, TableHead, TableBody, TableRow}

  /** Node types whose handler opens one mark on entering and closes it on exit. */
  const MarkContainers: set<NodeType> := {Strong, Emph, Link, Strike}

  /** Containers that open, without attributes, the document node named by
      their own `type` string. */
  const PlainContainers: set<NodeType> := {Paragraph, BlockQuote, Table, TableHead, TableBody, TableRow}

  /** The document node a plain container opens: the schema node whose name
      is the container's own type string. */
  function ContainerNode(kind: Kind): string
    requires kind in PlainContainers
  {
    TagName(kind)
  }

  /** Node types whose handler does the same whether entering or not. */
  const SingleShot: set<NodeType> :=
    {Text, CodeBlock, ThematicBreak, Softbreak, Linebreak, Code, CustomBlock}

  /** The mark a mark container opens. */
  function MarkOfContainer(kind: NodeType): SchemaType
    requires kind in MarkContainers
  {
    match kind
    case Strong => MarkOf("strong")
    case Emph => MarkOf("emph")
    case Link => MarkOf("link")
    case Strike => MarkOf("strike")
  }

  /** An open call followed by its closer is balanced, and the open call
      alone leaves one node or one mark open. */
  lemma PairBalanced(open: Op)
    requires open.OpenNode? || open.OpenMark?
    ensures Balanced([open, Closer(open)])
    ensures open.OpenNode? ==> Run(Empty, [open]) == Some(Frame(1, multiset{}))
    ensures open.OpenMark? ==> Run(Empty, [open]) == Some(Frame(0, multiset{open.target}))
  {
    assert Balanced([]);
    BalancedWrap(open, []);
    assert [open] + [] + [Closer(open)] == [open, Closer(open)];
    RunOpen(open);
  }

  /** An open call, one text and the closer are balanced. */
  lemma VerbatimBalanced(open: Op, text: string)
    requires open.OpenNode? || open.OpenMark?
    ensures Balanced([open, AddText(text), Closer(open)])
  {
    BalancedNeutral(AddText(text));
    BalancedWrap(open, [AddText(text)]);
    assert [open] + [AddText(text)] + [Closer(open)] == [open, AddText(text), Closer(open)];
  }

  // ---------------------------------------------------------------------
  // getTextWithoutTrailingNewline

  /** Appending a line feed and stripping it gives the text back, whatever
      the text ends with: only one line feed is ever removed. */
  lemma StripUndoesAppendedNewline(s: string)
    ensures GetTextWithoutTrailingNewline(s + "\n") == s
    ensures GetTextWithoutTrailingNewline(s + "\n\n") == s + "\n"
  {
    assert (s + "\n\n") == (s + "\n") + "\n";
  }

  /** A text without a final line feed, the empty text included, is left as it is. */
  lemma StripKeepsTextWithoutNewline(s: string)
    requires |s| == 0 || s[|s| - 1] != '\n'
    ensures GetTextWithoutTrailingNewline(s) == s
    ensures GetTextWithoutTrailingNewline("") == ""
  {
  }

  // ---------------------------------------------------------------------
  // isBrHtml

  /** Each line-break spelling is recognised, also inside other text. */
  lemma IsBrHtmlSpellings()
    ensures IsBrHtml("<br>") && IsBrHtml("<br >") && IsBrHtml("<br/>") && IsBrHtml("<br />")
    ensures IsBrHtml("a<br/>b")
  {
    assert OccursAt("<br>", 0, "<br>");
    assert OccursAt("<br >", 0, "<br >");
    assert OccursAt("<br/>", 0, "<br/>");
    assert OccursAt("<br />", 0, "<br />");
    assert OccursAt("a<br/>b", 1, "<br/>");
  }

  /** The test is case-sensitive, and a `null` literal (read as `"null"`) is no line break. */
  lemma IsBrHtmlCaseSensitive()
    ensures !IsBrHtml("<BR>") && !IsBrHtml("<Br>")
    ensures !IsBrLiteral(None)
  {
    NoBrTagIn("<BR>");
    NoBrTagIn("<Br>");
    NoBrTagIn("null");
  }

  /** A text in which no `<` is followed by `b` contains no line-break spelling. */
  lemma NoBrTagIn(s: string)
    requires forall i :: 0 <= i < |s| - 1 ==> !(s[i] == '<' && s[i + 1] == 'b')
    ensures !IsBrHtml(s)
  {
    NoBrFrom(s, 0);
  }

  /** The search from any index finds nothing in such a text. */
  lemma {:induction false} NoBrFrom(s: string, from: nat)
    requires from <= |s|
    requires forall i :: 0 <= i < |s| - 1 ==> !(s[i] == '<' && s[i + 1] == 'b')
    ensures !SearchBrFrom(s, from)
    decreases |s| - from
  {
    if from < |s| {
      assert !OccursAt(s, from, "<br") by {
        if from + 3 <= |s| {
          assert s[from..from + 3][0] == s[from] && s[from..from + 3][1] == s[from + 1];
        }
      }
      NoBrFrom(s, from + 1);
    }
  }

  // ---------------------------------------------------------------------
  // Leaf handlers

  /** `text` adds its literal, or the empty text when the literal is missing. */
  lemma TextAddsLiteral(node: MdNode, ctx: Context, resolve: TagResolver)
    requires node.kind == Text
    ensures Convert(node, ctx, resolve) == [AddText(node.literal.GetOr(""))]
  {
  }

  /** Single-shot handlers ignore the `entering` flag and `skipChildren`. */
  lemma SingleShotIgnoresContext(node: MdNode, c1: Context, c2: Context, resolve: TagResolver)
    requires node.kind in SingleShot
    ensures Convert(node, c1, resolve) == Convert(node, c2, resolve)
  {
  }

  /** `thematicBreak` adds one thematic-break node without attributes. */
  lemma ThematicBreakAddsNode(node: MdNode, ctx: Context, resolve: TagResolver)
    requires node.kind == ThematicBreak
    ensures Convert(node, ctx, resolve) == [AddNode(NodeOf("thematicBreak"), map[])]
  {
  }

  /** `linebreak` adds one hard-break node without attributes. */
  lemma LinebreakAddsHardBreak(node: MdNode, ctx: Context, resolve: TagResolver)
    requires node.kind == Linebreak
    ensures Convert(node, ctx, resolve) == [AddNode(NodeOf("hardBreak"), map[])]
  {
  }

  /** Every single-shot handler's calls are balanced on their own. */
  lemma SingleShotBalanced(node: MdNode, ctx: Context, resolve: TagResolver)
    requires node.kind in SingleShot
    ensures Balanced(Convert(node, ctx, resolve))
  {
    var ops := Convert(node, ctx, resolve);
    match node.kind
    case Text => BalancedNeutral(ops[0]);
    case ThematicBreak => BalancedNeutral(ops[0]);
    case Linebreak => BalancedNeutral(ops[0]);
    case Softbreak =>
      if ops != [] {
        BalancedNeutral(ops[0]);
      }
    case CodeBlock => VerbatimBalanced(ops[0], ops[1].text);
    case Code => VerbatimBalanced(ops[0], ops[1].text);
    case CustomBlock =>
      VerbatimBalanced(ops[0], ops[1].text);
      if node.next.None? {
        PairBalanced(OpenNode("paragraph", map[]));
        BalancedConcat(ops[..3], ops[3..]);
        assert ops[..3] + ops[3..] == ops;
      } else {
        assert ops == ops[..3];
      }
  }

  /** `codeBlock` opens a code block with the info string as `language`, adds
      its literal without one trailing line feed, and closes the block. */
  lemma CodeBlockEmitsStrippedLiteral(node: MdNode, ctx: Context, resolve: TagResolver)
    requires node.kind == CodeBlock
    ensures var ops := Convert(node, ctx, resolve);
      && ops == [ OpenNode("codeBlock", map["language" := OrNull(node.info)]),
                  AddText(GetTextWithoutTrailingNewline(node.literal.GetOr(""))),
                  CloseNode ]
      && Balanced(ops)
  {
    SingleShotBalanced(node, ctx, resolve);
  }

  /** Inline `code` opens the code mark, adds its literal without one
      trailing line feed, and closes the same mark. */
  lemma CodeEmitsStrippedLiteral(node: MdNode, ctx: Context, resolve: TagResolver)
    requires node.kind == Code
    ensures var ops := Convert(node, ctx, resolve);
      && ops == [ OpenMark(MarkOf("code"), map[]),
                  AddText(GetTextWithoutTrailingNewline(node.literal.GetOr(""))),
                  CloseMark(MarkOf("code")) ]
      && Balanced(ops)
  {
    SingleShotBalanced(node, ctx, resolve);
  }

  /** `customBlock` emits its block (info attribute, stripped literal,
      close), then one empty paragraph exactly when the node has no next
      sibling. */
  lemma CustomBlockTrailingParagraph(node: MdNode, ctx: Context, resolve: TagResolver)
    requires node.kind == CustomBlock
    ensures var ops := Convert(node, ctx, resolve);
      && |ops| >= 3
      && ops[..3] == [ OpenNode("customBlock", map["info" := OrNull(node.info)]),
                       AddText(GetTextWithoutTrailingNewline(node.literal.GetOr(""))),
                       CloseNode ]
      && (node.next.None? <==> |ops| > 3)
      && (node.next.None? ==> ops[3..] == [OpenNode("paragraph", map[]), CloseNode])
      && (node.next.Some? ==> |ops| == 3)
      && Balanced(ops)
  {
    SingleShotBalanced(node, ctx, resolve);
  }

  /** `image` adds one image node on every call, entering or not; `skipChildren`
      is called first exactly when entering and offered. */
  lemma ImageAddedOnEveryCall(node: MdNode, ctx: Context, resolve: TagResolver)
    requires node.kind == Image
    ensures var ops := Convert(node, ctx, resolve);
      && |ops| >= 1
      && ops[|ops| - 1] == AddNode(NodeOf("image"), ImageAttrs(node))
      && (ops[0] == SkipChildren <==> ctx.entering && ctx.skipChildren)
      && |ops| == (if ctx.entering && ctx.skipChildren then 2 else 1)
  {
  }

  /** The sibling test as the source writes it: a sibling whose `type`
      string is `htmlInline` and whose literal matches the line-break pattern. */
  predicate NamedBrSibling(sibling: Option<Neighbour>) {
    sibling.Some? && TagName(sibling.value.kind) == "htmlInline" && IsBrLiteral(sibling.value.literal)
  }

  /** `softbreak` adds a line feed unless the previous or the next sibling
      is inline HTML whose literal contains a line-break tag; only those two
      siblings are looked at. */
  lemma SoftbreakSuppression(node: MdNode, ctx: Context, resolve: TagResolver)
    requires node.kind == Softbreak
    ensures var ops := Convert(node, ctx, resolve);
      && (ops == [] || ops == [AddText("\n")])
      && (ops == [] <==> IsBrSibling(node.prev) || IsBrSibling(node.next))
      && (ops == [] <==> NamedBrSibling(node.prev) || NamedBrSibling(node.next))
  {
    if node.prev.Some? {
      SameTagIffSameName(node.prev.value.kind, HtmlInline);
    }
    if node.next.Some? {
      SameTagIffSameName(node.next.value.kind, HtmlInline);
    }
  }

  // ---------------------------------------------------------------------
  // Container handlers: entering and exiting

  /** Block containers open one node on entering, which the exit call
      closes; a paragraph or block quote opens its own node without
      attributes (heading, list and item attributes are stated below). */
  lemma BlockContainerEnterExit(node: MdNode, enter: Context, exit: Context, resolve: TagResolver)
    requires node.kind in BlockContainers
    requires enter.entering && !exit.entering
    ensures var entered := Convert(node, enter, resolve);
      && |entered| == 1 && entered[0].OpenNode?
      && (node.kind in PlainContainers ==> entered == [OpenNode(ContainerNode(node.kind), map[])])
      && Run(Empty, entered) == Some(Frame(1, multiset{}))
      && Convert(node, exit, resolve) == [CloseNode]
      && Balanced(entered + Convert(node, exit, resolve))
  {
    var entered := Convert(node, enter, resolve);
    PairBalanced(entered[0]);
    assert entered + Convert(node, exit, resolve) == [entered[0], Closer(entered[0])];
  }

  /** Table, table head, table body and table row open their own node,
      without attributes, on entering, which the exit call closes. */
  lemma TableContainerEnterExit(node: MdNode, enter: Context, exit: Context, resolve: TagResolver)
    requires node.kind in TableContainers
    requires enter.entering && !exit.entering
    ensures var entered := Convert(node, enter, resolve);
      && entered == [OpenNode(ContainerNode(node.kind), map[])]
      && Run(Empty, entered) == Some(Frame(1, multiset{}))
      && Convert(node, exit, resolve) == [CloseNode]
      && Balanced(entered + Convert(node, exit, resolve))
  {
    var entered := Convert(node, enter, resolve);
    PairBalanced(entered[0]);
    assert entered + Convert(node, exit, resolve) == [entered[0], Closer(entered[0])];
  }

  /** Mark containers open one mark on entering, which the exit call closes
      by the same type; only a link passes attributes. */
  lemma MarkContainerEnterExit(node: MdNode, enter: Context, exit: Context, resolve: TagResolver)
    requires node.kind in MarkContainers
    requires enter.entering && !exit.entering
    ensures var entered := Convert(node, enter, resolve);
      && entered == [OpenMark(MarkOfContainer(node.kind), if node.kind == Link then LinkAttrs(node) else map[])]
      && Run(Empty, entered) == Some(Frame(0, multiset{MarkOfContainer(node.kind)}))
      && Convert(node, exit, resolve) == [CloseMark(MarkOfContainer(node.kind))]
      && Balanced(entered + Convert(node, exit, resolve))
  {
    var entered := Convert(node, enter, resolve);
    PairBalanced(entered[0]);
    assert entered + Convert(node, exit, resolve) == [entered[0], Closer(entered[0])];
  }

  /** A table cell opens two nodes, the cell and a paragraph in it, and the
      exit call closes both. */
  lemma TableCellEnterExit(node: MdNode, enter: Context, exit: Context, resolve: TagResolver)
    requires node.kind == TableCell && HasGrandparent(node)
    requires enter.entering && !exit.entering
    ensures var entered := Convert(node, enter, resolve);
      && Run(Empty, entered) == Some(Frame(2, multiset{}))
      && NodeOpens(entered) == 2
      && NodeCloses(Convert(node, exit, resolve)) == 2
      && Convert(node, exit, resolve) == [CloseNode, CloseNode]
      && Balanced(entered + Convert(node, exit, resolve))
  {
    var entered := Convert(node, enter, resolve);
    var cell, para := entered[0], entered[1];
    PairBalanced(para);
    BalancedWrap(cell, [para, CloseNode]);
    assert entered + Convert(node, exit, resolve) == [cell] + [para, CloseNode] + [CloseNode];
    RunOpen(cell);
    RunAppend(Empty, [cell], [para]);
    RunOne(Frame(1, multiset{}), para);
    assert entered == [cell] + [para];
    assert NodeOpens(entered) == 1 + NodeOpens([para]);
    assert NodeCloses([CloseNode, CloseNode]) == 1 + NodeCloses([CloseNode]);
  }

  /** The cell type is the head cell exactly when the grandparent is the
      table head, and the cell content is wrapped in a paragraph either way. */
  lemma TableCellKind(node: MdNode, ctx: Context, resolve: TagResolver)
    requires node.kind == TableCell && HasGrandparent(node) && ctx.entering
    ensures var ops := Convert(node, ctx, resolve);
      && |ops| == 2
      && ops[0].OpenNode? && ops[0].attrs == map[]
      && (ops[0].node == "tableHeadCell" <==> node.parent.value.parent.value == TableHead)
      && (ops[0].node == "tableBodyCell" <==> node.parent.value.parent.value != TableHead)
      && (ops[0].node == "tableHeadCell" <==> TagName(node.parent.value.parent.value) == "tableHead")
      && ops[1] == OpenNode("paragraph", map[])
  {
    SameTagIffSameName(node.parent.value.parent.value, TableHead);
  }

  /** Exit calls of container handlers open nothing. */
  lemma ExitOpensNothing(node: MdNode, ctx: Context, resolve: TagResolver)
    requires node.kind in EnterExitKinds
    requires Demands(node, ctx, resolve) && !ctx.entering
    ensures forall op :: op in Convert(node, ctx, resolve) ==> !op.OpenNode? && !op.OpenMark?
  {
    var enter := Context(true, ctx.skipChildren);
    if node.kind in BlockContainers {
      BlockContainerEnterExit(node, enter, ctx, resolve);
    } else if node.kind in TableContainers {
      TableContainerEnterExit(node, enter, ctx, resolve);
    } else if node.kind in MarkContainers {
      MarkContainerEnterExit(node, enter, ctx, resolve);
    } else if node.kind == TableCell {
      assert Convert(node, ctx, resolve) == [CloseNode, CloseNode];
    } else {
      HtmlExitOpensNothing(node, ctx, resolve);
    }
  }

  /** The exit call of either HTML handler is one close call, or nothing
      for an unresolved fragment, so it opens nothing. */
  lemma HtmlExitOpensNothing(node: MdNode, ctx: Context, resolve: TagResolver)
    requires node.kind == HtmlBlock || node.kind == HtmlInline
    requires !ctx.entering
    ensures resolve(node.literal).None? ==> Convert(node, ctx, resolve) == []
    ensures resolve(node.literal).Some? && node.kind == HtmlBlock ==>
      Convert(node, ctx, resolve) == [CloseNode]
    ensures resolve(node.literal).Some? && node.kind == HtmlInline ==>
      Convert(node, ctx, resolve) == [CloseMark(InlineHtmlType(resolve(node.literal).value))]
    ensures forall op :: op in Convert(node, ctx, resolve) ==> !op.OpenNode? && !op.OpenMark?
  {
    if resolve(node.literal).Some? {
      var t := InlineHtmlType(resolve(node.literal).value);
      assert Convert(node, ctx, resolve) == [CloseNode] || Convert(node, ctx, resolve) == [CloseMark(t)];
    }
  }

  // ---------------------------------------------------------------------
  // Attributes

  /** `heading` copies the level as is. */
  lemma HeadingCopiesLevel(node: MdNode, ctx: Context, resolve: TagResolver)
    requires node.kind == Heading && ctx.entering
    ensures Convert(node, ctx, resolve) == [OpenNode("heading", map["level" := Num(node.level)])]
  {
  }

  /** `list` opens a bullet list without attributes exactly when the list
      type is `'bullet'`; any other type opens an ordered list whose `order`
      is the start number. */
  lemma ListOpensByType(node: MdNode, ctx: Context, resolve: TagResolver)
    requires node.kind == List && ctx.entering
    ensures var ops := Convert(node, ctx, resolve);
      && |ops| == 1 && ops[0].OpenNode?
      && (ops[0].node == "bulletList" <==> node.listData.listType == "bullet")
      && (ops[0].node == "bulletList" ==> ops[0].attrs == map[])
      && (ops[0].node != "bulletList" ==>
            ops[0].node == "orderedList" && ops[0].attrs == map["order" := Num(node.listData.start)])
  {
  }

  /** A list item opens `listItem` with the attribute object `ItemAttrs`
      builds: `task` and `checked` only when they are true, so a false or
      missing flag never appears as a key. */
  lemma ItemFlagsOnlyWhenTrue(node: MdNode, ctx: Context, resolve: TagResolver)
    requires node.kind == Item && ctx.entering
    ensures var ops := Convert(node, ctx, resolve);
      && ops == [OpenNode("listItem", ItemAttrs(node.listData))]
      && ops[0].attrs.Keys <= {"task", "checked"}
      && ("task" in ops[0].attrs <==> node.listData.task == Some(true))
      && ("checked" in ops[0].attrs <==> node.listData.checked == Some(true))
      && (forall k :: k in ops[0].attrs ==> Truthy(ops[0].attrs[k]))
  {
  }

  /** A link opens the link mark with its attribute object: the destination
      as `linkUrl`, the title as `linkText` exactly when the title is a
      non-empty text, and nothing else. */
  lemma LinkTextOnlyWithTitle(node: MdNode, ctx: Context, resolve: TagResolver)
    requires node.kind == Link && ctx.entering
    ensures var ops := Convert(node, ctx, resolve);
      && ops == [OpenMark(MarkOf("link"), LinkAttrs(node))]
      && ops[0].attrs.Keys <= {"linkUrl", "linkText"}
      && ops[0].attrs["linkUrl"] == OrNull(node.destination)
      && ("linkText" in ops[0].attrs <==> node.title.Some? && node.title.value != "")
      && ("linkText" in ops[0].attrs ==> ops[0].attrs["linkText"] == Str(node.title.value))
  {
  }

  // ---------------------------------------------------------------------
  // Raw HTML

  /** An HTML fragment the resolver does not recognise is dropped. */
  lemma UnresolvedHtmlDropped(node: MdNode, ctx: Context, resolve: TagResolver)
    requires node.kind == HtmlInline || node.kind == HtmlBlock
    requires resolve(node.literal).None?
    ensures Convert(node, ctx, resolve) == []
  {
  }

  /** Entering inline HTML: a `br` tag adds one node flagged as HTML and as
      being in a table cell when the parent is one; any other tag opens a
      mark that remembers the tag name. */
  lemma HtmlInlineEntering(node: MdNode, ctx: Context, resolve: TagResolver, info: TagInfo)
    requires node.kind == HtmlInline && ctx.entering
    requires resolve(node.literal) == Some(info)
    requires info.tagName == "br" ==> node.parent.Some?
    ensures var ops := Convert(node, ctx, resolve);
      && |ops| == 1
      && (info.tagName == "br" ==>
            ops[0] == AddNode(InlineHtmlType(info),
                              map["htmlString" := Bool(true),
                                  "inCell" := Bool(node.parent.value.kind == TableCell)]))
      && (info.tagName != "br" ==>
            ops[0] == OpenMark(InlineHtmlType(info), map["htmlString" := Str(info.tagName)]))
      && (InlineHtmlType(info).MarkOf? <==> info.mark)
  {
  }

  /** Inline HTML entered and exited is balanced exactly when the tag is not
      `br`: the exit call closes a mark even after a `br` added a node. */
  lemma HtmlInlineBalancedUnlessBr(node: MdNode, enter: Context, exit: Context, resolve: TagResolver, info: TagInfo)
    requires node.kind == HtmlInline && enter.entering && !exit.entering
    requires resolve(node.literal) == Some(info)
    requires info.tagName == "br" ==> node.parent.Some?
    ensures Convert(node, exit, resolve) == [CloseMark(InlineHtmlType(info))]
    ensures Balanced(Convert(node, enter, resolve) + Convert(node, exit, resolve)) <==> info.tagName != "br"
  {
    var entered := Convert(node, enter, resolve);
    var t := InlineHtmlType(info);
    if info.tagName == "br" {
      RunAppend(Empty, entered, [CloseMark(t)]);
      RunOne(Empty, entered[0]);
      RunOne(Empty, CloseMark(t));
    } else {
      PairBalanced(entered[0]);
      assert entered + [CloseMark(t)] == [entered[0], Closer(entered[0])];
    }
  }

  /** A recognised HTML block opens a node of the resolved type flagged as
      HTML, always from the node registry, and the exit call closes it. */
  lemma HtmlBlockEnterExit(node: MdNode, enter: Context, exit: Context, resolve: TagResolver, info: TagInfo)
    requires node.kind == HtmlBlock && enter.entering && !exit.entering
    requires resolve(node.literal) == Some(info)
    ensures Convert(node, enter, resolve) == [OpenNode(info.nodeType, map["htmlString" := Bool(true)])]
    ensures Convert(node, exit, resolve) == [CloseNode]
    ensures Balanced(Convert(node, enter, resolve) + Convert(node, exit, resolve))
  {
    PairBalanced(OpenNode(info.nodeType, map["htmlString" := Bool(true)]));
  }

  /** Raw inline HTML resolved to the code mark opens it with `htmlString`
      set to the tag name, but the code mark declares and renders
      `htmlToken`, so such a mark renders as `<code>` whatever the tag. */
  lemma HtmlInlineCodeTagNotRendered(node: MdNode, ctx: Context, resolve: TagResolver, tagName: string)
    requires node.kind == HtmlInline && ctx.entering && tagName != "br"
    requires resolve(node.literal) == Some(TagInfo(tagName, CodeMark.Name, true))
    ensures var ops := Convert(node, ctx, resolve);
      && ops == [OpenMark(MarkOf(CodeMark.Name), map["htmlString" := Str(tagName)])]
      && CodeMark.ToDom(ops[0].attrs).tag == Str("code")
      && "htmlToken" !in ops[0].attrs
  {
  }

  /** Node types whose handler splits into an entering call that opens and
      an exit call that closes. */
  const EnterExitKinds: set<NodeType> :=
    BlockContainers + TableContainers + MarkContainers + {TableCell, HtmlBlock, HtmlInline}

  /** Inline HTML that the resolver does not read as a `br` tag. */
  predicate NotBrHtml(node: MdNode, resolve: TagResolver) {
    resolve(node.literal).None? || resolve(node.literal).value.tagName != "br"
  }

  /** Whatever balanced calls the children produce between a container's
      entering and exit calls, the whole is balanced: the handlers nest.
      Inline `br` is the one exception, see `BrNeverWrapsBalanced`. */
  lemma ContainerWrapsBalancedChildren(node: MdNode, enter: Context, exit: Context, resolve: TagResolver, children: seq<Op>)
    requires node.kind in EnterExitKinds
    requires node.kind == TableCell ==> HasGrandparent(node)
    requires node.kind == HtmlInline ==> NotBrHtml(node, resolve)
    requires enter.entering && !exit.entering
    requires Balanced(children)
    ensures Balanced(Convert(node, enter, resolve) + children + Convert(node, exit, resolve))
  {
    if node.kind == TableCell {
      TableCellWrapsBalancedChildren(node, enter, exit, resolve, children);
    } else if node.kind == HtmlInline || node.kind == HtmlBlock {
      HtmlWrapsBalancedChildren(node, enter, exit, resolve, children);
    } else {
      if node.kind in BlockContainers {
        BlockContainerEnterExit(node, enter, exit, resolve);
      } else if node.kind in TableContainers {
        TableContainerEnterExit(node, enter, exit, resolve);
      } else {
        MarkContainerEnterExit(node, enter, exit, resolve);
      }
      OnePairWrapsBalanced(Convert(node, enter, resolve), Convert(node, exit, resolve), children);
    }
  }

  /** An HTML block, and inline HTML other than `br`, nest around balanced
      children; an unresolved fragment contributes no calls at all. */
  lemma HtmlWrapsBalancedChildren(node: MdNode, enter: Context, exit: Context, resolve: TagResolver, children: seq<Op>)
    requires node.kind == HtmlBlock || (node.kind == HtmlInline && NotBrHtml(node, resolve))
    requires enter.entering && !exit.entering
    requires Balanced(children)
    ensures Balanced(Convert(node, enter, resolve) + children + Convert(node, exit, resolve))
  {
    var entered := Convert(node, enter, resolve);
    var exited := Convert(node, exit, resolve);
    if resolve(node.literal).None? {
      assert entered + children + exited == children;
    } else {
      OnePairWrapsBalanced(entered, exited, children);
    }
  }

  /** Inline `br` does not nest: its entering call adds a node and its exit
      call closes a mark that nothing opened, whatever balanced children lie
      between. */
  lemma BrNeverWrapsBalanced(node: MdNode, enter: Context, exit: Context, resolve: TagResolver, children: seq<Op>)
    requires node.kind == HtmlInline && enter.entering && !exit.entering
    requires resolve(node.literal).Some? && resolve(node.literal).value.tagName == "br"
    requires node.parent.Some?
    requires Balanced(children)
    ensures !Balanced(Convert(node, enter, resolve) + children + Convert(node, exit, resolve))
  {
    var entered := Convert(node, enter, resolve);
    var t := InlineHtmlType(resolve(node.literal).value);
    assert Convert(node, exit, resolve) == [CloseMark(t)];
    RunOne(Empty, entered[0]);
    assert entered == [entered[0]];
    RunAppend(Empty, entered, children);
    RunAppend(Empty, entered + children, [CloseMark(t)]);
    RunOne(Empty, CloseMark(t));
  }

  /** An image's calls open and close nothing, so they are balanced on every call. */
  lemma ImageBalanced(node: MdNode, ctx: Context, resolve: TagResolver)
    requires node.kind == Image
    ensures var ops := Convert(node, ctx, resolve);
      && Balanced(ops)
      && NodeOpens(ops) == 0 && MarkOpens(ops) == multiset{}
  {
    var ops := Convert(node, ctx, resolve);
    var add := AddNode(NodeOf("image"), ImageAttrs(node));
    BalancedNeutral(add);
    assert [add][1..] == [];
    assert NodeOpens([add]) == 0 && MarkOpens([add]) == multiset{};
    if ctx.entering && ctx.skipChildren {
      BalancedNeutral(SkipChildren);
      BalancedConcat([SkipChildren], [add]);
      assert ops == [SkipChildren] + [add];
      assert ops[1..] == [add];
    }
  }

  /** One open call and its closer around a balanced log are balanced. */
  lemma OnePairWrapsBalanced(entered: seq<Op>, exited: seq<Op>, children: seq<Op>)
    requires |entered| == 1 && (entered[0].OpenNode? || entered[0].OpenMark?)
    requires exited == [Closer(entered[0])]
    requires Balanced(children)
    ensures Balanced(entered + children + exited)
  {
    BalancedWrap(entered[0], children);
    assert entered == [entered[0]];
  }

  /** A table cell's two opens and two closes around a balanced log are balanced. */
  lemma TableCellWrapsBalancedChildren(node: MdNode, enter: Context, exit: Context, resolve: TagResolver, children: seq<Op>)
    requires node.kind == TableCell && HasGrandparent(node)
    requires enter.entering && !exit.entering
    requires Balanced(children)
    ensures Balanced(Convert(node, enter, resolve) + children + Convert(node, exit, resolve))
  {
    var entered := Convert(node, enter, resolve);
    var exited := Convert(node, exit, resolve);
    TableCellKind(node, enter, resolve);
    var cell, para := entered[0], entered[1];
    assert exited == [CloseNode, CloseNode];
    BalancedWrap(para, children);
    BalancedWrap(cell, [para] + children + [CloseNode]);
    assert entered + children + exited == [cell] + ([para] + children + [CloseNode]) + [CloseNode];
  }

  /** A level-2 heading around the text `Hi` yields: open heading (level 2),
      add `Hi`, close heading, and the three calls are balanced. */
  lemma HeadingExample(heading: MdNode, text: MdNode, resolve: TagResolver)
    requires heading.kind == Heading && heading.level == 2
    requires text.kind == Text && text.literal == Some("Hi")
    ensures var ops := Convert(heading, Context(true, true), resolve)
                       + Convert(text, Context(true, false), resolve)
                       + Convert(heading, Context(false, false), resolve);
      && ops == [OpenNode("heading", map["level" := Num(2)]), AddText("Hi"), CloseNode]
      && Balanced(ops)
  {
    BalancedNeutral(AddText("Hi"));
    ContainerWrapsBalancedChildren(heading, Context(true, true), Context(false, false), resolve, [AddText("Hi")]);
  }

  /** A soft break right after inline `<br>` adds nothing; one between two
      texts adds a line feed, so `a`, `\n`, `b` are added in that order. */
  lemma SoftbreakExamples(brThenBreak: MdNode, between: MdNode, a: MdNode, b: MdNode, resolve: TagResolver)
    requires brThenBreak.kind == Softbreak && between.kind == Softbreak
    requires brThenBreak.prev == Some(Neighbour(HtmlInline, Some("<br>")))
    requires brThenBreak.next == Some(Neighbour(Text, Some("x")))
    requires between.prev == Some(Neighbour(Text, Some("a")))
    requires between.next == Some(Neighbour(Text, Some("b")))
    requires a.kind == Text && a.literal == Some("a") && b.kind == Text && b.literal == Some("b")
    ensures Convert(brThenBreak, Context(true, false), resolve) == []
    ensures Convert(a, Context(true, false), resolve) + Convert(between, Context(true, false), resolve)
            + Convert(b, Context(true, false), resolve)
            == [AddText("a"), AddText("\n"), AddText("b")]
  {
    IsBrHtmlSpellings();
    NoBrTagIn("a");
    NoBrTagIn("b");
    SoftbreakSuppression(brThenBreak, Context(true, false), resolve);
    SoftbreakSuppression(between, Context(true, false), resolve);
    TextAddsLiteral(a, Context(true, false), resolve);
    TextAddsLiteral(b, Context(true, false), resolve);
  }
}
