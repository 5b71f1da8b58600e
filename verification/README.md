# Markdown-to-WYSIWYG convertors and inline marks, in Dafny

This project models two parts of a WYSIWYG markdown editor:

- The convertor table. It turns each node of a markdown syntax tree into
  calls on a document builder (`openNode`, `closeNode`, `addNode`,
  `addText`, `openMark`, `closeMark`, and the walk's `skipChildren`).
- The declarative parts of three inline marks: `strong`, `strike` and `code`.
  These are each mark's name, attribute defaults, parse rules, render rule
  and key bindings.

Each handler is a pure function. It takes a markdown node, the walk's
context and the HTML tag resolver, and returns the builder calls as a
sequence of `Op`. The context is the `entering` flag and whether
`skipChildren` was offered. The node also carries the type and literal of
its previous and next siblings, its parent's type and its grandparent's
type.

Modules, one per concern:

- `Wrappers`: `Option`, used for JavaScript `null`.
- `JsValue`: the JavaScript values that appear in attribute objects, with
  truthiness, property lookup and `||`.
- `Markdown`: the markdown node as the handlers read it. A node's `type`
  string is a `Kind`: one constructor per handled type, and `OtherType` only
  for names no handler has. Each type string therefore has exactly one
  tag, and the handlers' string tests (`type === 'tableHead'`) are tests
  on the tag.
- `Builder`: the builder calls (`Op`), plus what it means for a log of
  them to be balanced. `Run` tracks how many nodes are open and which mark
  types are open, and fails on a close with nothing matching open.
  `Balanced` means running from empty returns to empty.
- `ToWwConvertors`: `getTextWithoutTrailingNewline`, `isBrHtml`, the
  conditional attribute objects, one function per handler, and the
  dispatcher `Convert`.
- `ConvertorProperties`: what each handler emits, and that entering and
  exit calls pair up and nest.
- `MarkSchema`, `StrongMark`, `StrikeMark`, `CodeMark`: the mark definitions.

Behaviour kept exactly as the code has it:

- The line-break test is the unanchored, case-sensitive pattern
  `<br ?\/?>`. It is true exactly when the text contains one of `<br>`,
  `<br >`, `<br/>` or `<br />`.
- A `null` literal given to that test is read as the text `"null"`.
- `htmlInline` calls `closeMark` on exit even when the tag is `br`, which
  added a node on entering. So entering plus exit is balanced exactly when
  the tag is not `br`.
- `list` gives every non-bullet list `{order: start}`.
- `image` adds its node on every call, not only when entering.
- The `code` mark declares and renders `htmlToken`, but raw inline HTML
  creates marks with `htmlString`. A code mark made from raw HTML therefore
  renders as `<code>` whatever the tag was.

## Model

| member | source | states |
|---|---|---|
| ToWwConvertors.GetTextWithoutTrailingNewline | apps/editor/src/convertors/toWwConvertors.ts:15-17 | The result is a prefix of the text and at most one character shorter. When the text ends in a line feed, the result plus that line feed is the text. Otherwise, the empty text included, the text comes back unchanged. |
| ConvertorProperties.StripUndoesAppendedNewline | apps/editor/src/convertors/toWwConvertors.ts:15-17 | For every text `s`, stripping `s + "\n"` gives back `s`, and stripping `s + "\n\n"` keeps one line feed. So only one line feed is ever removed. |
| ConvertorProperties.StripKeepsTextWithoutNewline | apps/editor/src/convertors/toWwConvertors.ts:15-17 | A text without a final line feed is a fixed point, and the empty text maps to the empty text. |
| ToWwConvertors.BrPatternAtIff | apps/editor/src/convertors/toWwConvertors.ts:20 | The pattern `<br ?\/?>`, with each optional atom tried present and absent, matches at an index exactly when one of the four spellings `<br>`, `<br >`, `<br/>`, `<br />` starts there. |
| ToWwConvertors.SearchBrFrom | apps/editor/src/convertors/toWwConvertors.ts:19-21 | Trying the pattern at each start index from `from` on succeeds exactly when a line-break spelling occurs at or after `from`. |
| ToWwConvertors.IsBrHtml | apps/editor/src/convertors/toWwConvertors.ts:19-21 | `isBrHtml` is true exactly when one of the four spellings occurs anywhere in the text. |
| ConvertorProperties.IsBrHtmlSpellings | apps/editor/src/convertors/toWwConvertors.ts:19-21 | Each of the four spellings is recognised on its own and inside other text. |
| ConvertorProperties.IsBrHtmlCaseSensitive | apps/editor/src/convertors/toWwConvertors.ts:19-21 | `<BR>` and `<Br>` are not recognised, because the test is case-sensitive. A missing literal is read as the text `"null"`, which is not a line break. |
| ConvertorProperties.NoBrTagIn | apps/editor/src/convertors/toWwConvertors.ts:19-21 | A text in which no `<` is directly followed by `b` is never a line break. |
| ToWwConvertors.LiteralOrEmpty | apps/editor/src/convertors/toWwConvertors.ts:25 | `literal \|\| ''` is the literal, or the empty text when the literal is missing. |
| ConvertorProperties.TextAddsLiteral | apps/editor/src/convertors/toWwConvertors.ts:24-26 | `text` adds exactly its literal, or the empty text when there is none. |
| ConvertorProperties.BlockContainerEnterExit | apps/editor/src/convertors/toWwConvertors.ts:28-97 | For paragraph, heading, list, item and block quote, the entering call opens one node and leaves exactly one node open. Paragraph and block quote open the schema node named by their own type string (`paragraph`, `blockQuote`), with no attributes. The exit call is a single `closeNode`, and entering followed by exit is balanced. |
| ConvertorProperties.HeadingCopiesLevel | apps/editor/src/convertors/toWwConvertors.ts:38-46 | Entering a heading opens a heading node whose `level` is the markdown level, unchanged. |
| ConvertorProperties.CodeBlockEmitsStrippedLiteral | apps/editor/src/convertors/toWwConvertors.ts:48-55 | `codeBlock` opens a code block with `language` set to the info string, adds the literal without one trailing line feed (`''` when missing), closes the block, and is balanced. |
| ConvertorProperties.ListOpensByType | apps/editor/src/convertors/toWwConvertors.ts:57-71 | Entering a list opens `bulletList` with no attributes exactly when the list type is `'bullet'`. Any other type opens `orderedList` with `order` set to the start number. |
| ToWwConvertors.ItemAttrs | apps/editor/src/convertors/toWwConvertors.ts:78-81 | The attribute object has `task` exactly when `task` is true and `checked` exactly when `checked` is true. It has no other keys, and every value present is `true`. |
| ConvertorProperties.ItemFlagsOnlyWhenTrue | apps/editor/src/convertors/toWwConvertors.ts:73-87 | Entering an item opens `listItem` with exactly the attribute object `ItemAttrs` builds. Its keys are at most `task` and `checked`, each present exactly when the flag is true, so a false or missing flag never appears as a key. |
| ToWwConvertors.ImageAttrs | apps/editor/src/convertors/toWwConvertors.ts:107-110 | `imageUrl` is always the destination. `altText` is present exactly when there is a first child, and is then that child's literal. |
| ConvertorProperties.ImageAddedOnEveryCall | apps/editor/src/convertors/toWwConvertors.ts:99-111 | Every call ends with one image node carrying those attributes. It is preceded by `skipChildren` exactly when entering with `skipChildren` offered. |
| ConvertorProperties.ThematicBreakAddsNode | apps/editor/src/convertors/toWwConvertors.ts:113-115 | `thematicBreak` adds one thematic-break node without attributes. |
| ConvertorProperties.MarkContainerEnterExit | apps/editor/src/convertors/toWwConvertors.ts:117-151 | For strong, emph, link and strike (lines 260-268 for strike), the entering call opens exactly one mark of its own type and leaves exactly that mark open. Link passes its attribute object `LinkAttrs`; the others pass none. The exit call closes that same type, and the pair is balanced. |
| ToWwConvertors.LinkAttrs | apps/editor/src/convertors/toWwConvertors.ts:142-145 | `linkUrl` is always the destination. `linkText` is present exactly when the title is truthy, and is then the title. |
| ConvertorProperties.LinkTextOnlyWithTitle | apps/editor/src/convertors/toWwConvertors.ts:137-151 | Entering a link makes exactly one call: it opens the link mark with that attribute object. The object's keys are at most `linkUrl` and `linkText`. `linkUrl` is the destination. `linkText` appears exactly for a non-empty title, and its value is then the title. |
| ConvertorProperties.SoftbreakSuppression | apps/editor/src/convertors/toWwConvertors.ts:153-161 | `softbreak` emits either nothing or exactly one `addText("\n")`. It emits nothing exactly when the previous or the next sibling is inline HTML whose literal passes `isBrHtml`. This holds both with inline HTML as a tag and with the sibling's `type` string compared to `'htmlInline'`, as lines 155-156 do. |
| ConvertorProperties.SoftbreakExamples | apps/editor/src/convertors/toWwConvertors.ts:153-161 | A soft break right after inline `<br>` adds nothing. Between the texts `a` and `b`, it adds a line feed, so the texts come out as `a`, `\n`, `b`. |
| ConvertorProperties.LinebreakAddsHardBreak | apps/editor/src/convertors/toWwConvertors.ts:163-165 | `linebreak` adds one hard-break node without attributes. |
| ConvertorProperties.UnresolvedHtmlDropped | apps/editor/src/convertors/toWwConvertors.ts:167-203 | Inline or block HTML that the resolver does not recognise produces no calls, entering or not. |
| ConvertorProperties.HtmlInlineEntering | apps/editor/src/convertors/toWwConvertors.ts:167-183 | Entering a `br` tag adds one node of the resolved type with `htmlString: true` and `inCell` true exactly when the parent is a table cell. Any other tag opens a mark with `htmlString` set to the tag name. The type comes from the mark registry exactly when the resolver says `mark`. |
| ConvertorProperties.HtmlInlineBalancedUnlessBr | apps/editor/src/convertors/toWwConvertors.ts:167-188 | The exit call is always `closeMark` of the resolved type. So entering plus exit is balanced exactly when the tag is not `br`. |
| ConvertorProperties.HtmlBlockEnterExit | apps/editor/src/convertors/toWwConvertors.ts:190-203 | A recognised block opens a node of the resolved type from the node registry, with `htmlString: true`. The exit call closes it, and the pair is balanced. |
| ConvertorProperties.TableContainerEnterExit | apps/editor/src/convertors/toWwConvertors.ts:206-244 | Table, table head, table body and table row each open, on entering, the schema node named by their own type string, with no attributes. The exit call is a single `closeNode` that closes it, and the pair is balanced. |
| ConvertorProperties.TableCellKind | apps/editor/src/convertors/toWwConvertors.ts:246-258 | Entering a cell opens `tableHeadCell` exactly when the grandparent's type string is `'tableHead'`, which is the same as its tag being the table head, as line 249 compares. Otherwise it opens `tableBodyCell`. In both cases it then opens a paragraph. |
| ConvertorProperties.TableCellEnterExit | apps/editor/src/convertors/toWwConvertors.ts:246-258 | Entering a cell opens two nodes and leaves two open. The exit call is exactly two `closeNode` calls, and the pair is balanced. |
| ConvertorProperties.TableCellWrapsBalancedChildren | apps/editor/src/convertors/toWwConvertors.ts:246-258 | A cell's entering and exit calls around any balanced log of children form a balanced log. |
| ConvertorProperties.CodeEmitsStrippedLiteral | apps/editor/src/convertors/toWwConvertors.ts:270-276 | Inline code opens the code mark, adds the literal without one trailing line feed, closes the same mark, and is balanced. |
| ConvertorProperties.CustomBlockTrailingParagraph | apps/editor/src/convertors/toWwConvertors.ts:278-290 | A custom block opens a block with `info`, adds the stripped literal and closes it. It then opens and closes one empty paragraph exactly when the node has no next sibling, and adds nothing otherwise. The whole is balanced. |
| ToWwConvertors.Convert | apps/editor/src/convertors/toWwConvertors.ts:23-291 | Dispatch covers every node type with a handler. `skipChildren` is called exactly for an image being entered with `skipChildren` offered. |
| ConvertorProperties.SingleShotIgnoresContext | apps/editor/src/convertors/toWwConvertors.ts:23-291 | The handlers for text, code block, thematic break, soft break, line break, inline code and custom block give the same calls whatever the context. |
| ConvertorProperties.SingleShotBalanced | apps/editor/src/convertors/toWwConvertors.ts:23-291 | Each of those handlers' calls is balanced on its own. |
| ConvertorProperties.ExitOpensNothing | apps/editor/src/convertors/toWwConvertors.ts:23-291 | No exit call of a container handler, or of either HTML handler, opens a node or a mark. |
| ConvertorProperties.HtmlExitOpensNothing | apps/editor/src/convertors/toWwConvertors.ts:167-203 | The exit call of an unresolved fragment is empty. For a resolved `htmlBlock` it is exactly one `closeNode`, and for resolved `htmlInline` it is exactly one `closeMark` of the resolved type. So neither opens anything. |
| ConvertorProperties.ImageBalanced | apps/editor/src/convertors/toWwConvertors.ts:99-111 | Every `image` call opens no node and no mark, and its calls are balanced on their own. |
| ConvertorProperties.ContainerWrapsBalancedChildren | apps/editor/src/convertors/toWwConvertors.ts:23-291 | The entering and exit calls around any balanced log of children form a balanced log, so nested handlers compose. This covers paragraph, heading, list, item, block quote, the table, its head, body, rows and cells, strong, emph, link, strike, `htmlBlock`, and `htmlInline` with any tag but `br`. |
| ConvertorProperties.HtmlWrapsBalancedChildren | apps/editor/src/convertors/toWwConvertors.ts:167-203 | A resolved HTML block, and inline HTML other than `br`, open on entering what their exit call closes, around any balanced children. An unresolved fragment adds no calls at all. |
| ConvertorProperties.BrNeverWrapsBalanced | apps/editor/src/convertors/toWwConvertors.ts:176-186 | Inline `br` does not nest. Its entering call adds a node, and its exit call closes a mark that nothing opened. So the calls around any balanced children are not balanced. |
| ConvertorProperties.HeadingExample | apps/editor/src/convertors/toWwConvertors.ts:38-46 | A level-2 heading around the text `Hi` yields open heading (level 2), add `Hi`, close, and the log is balanced. |
| ConvertorProperties.HtmlInlineCodeTagNotRendered | apps/editor/src/convertors/toWwConvertors.ts:176-183 | Raw inline HTML resolved to the code mark opens it with `htmlString` and no `htmlToken`, so the code mark renders it as `<code>` whatever the tag. |
| StrongMark.ConvertorUsesThisMark | apps/editor/src/wysiwyg/marks/strong.ts:9-11 | The mark is registered as `strong`. The `strong` handler opens that mark with no attributes on entry and closes it on exit. |
| StrongMark.DefaultSchema | apps/editor/src/wysiwyg/marks/strong.ts:13-18 | `htmlString` defaults to `false`. The parse rules accept exactly the tags `b` and `strong`, and the tag rendered for the default attributes is accepted by them. |
| StrongMark.ToDom | apps/editor/src/wysiwyg/marks/strong.ts:19-28 | The rendered tag is always the mark's name, `strong`. `data-pass: "true"` is present exactly when `htmlString` is truthy, and there are no other attributes. |
| StrongMark.RenderedTagParses | apps/editor/src/wysiwyg/marks/strong.ts:18-28 | For every attribute object, the rendered tag is one the parse rules accept. |
| StrongMark.Keymaps | apps/editor/src/wysiwyg/marks/strong.ts:40-47 | Exactly `Mod-b` and `Mod-B` are bound, both to the command toggling `strong`. |
| StrikeMark.ConvertorUsesThisMark | apps/editor/src/wysiwyg/marks/strike.ts:9-11 | The mark is registered as `strike`. The `strike` handler opens that mark with no attributes on entry and closes it on exit. |
| StrikeMark.DefaultSchema | apps/editor/src/wysiwyg/marks/strike.ts:13-18 | `htmlString` defaults to `null`. The parse rules accept exactly `s` and `del`, and the default render is accepted by them. |
| StrikeMark.ToDom | apps/editor/src/wysiwyg/marks/strike.ts:19-21 | The rendered tag is always truthy. It is `htmlString` when that is truthy and `del` otherwise, with no attributes. |
| StrikeMark.RenderedTagParsesIff | apps/editor/src/wysiwyg/marks/strike.ts:18-21 | The rendered tag is accepted by the parse rules exactly when `htmlString` is falsy, `s` or `del`. |
| StrikeMark.Keymaps | apps/editor/src/wysiwyg/marks/strike.ts:29-36 | Exactly `Mod-s` and `Mod-S` are bound, both to the command toggling `strike`. |
| CodeMark.ConvertorUsesThisMark | apps/editor/src/wysiwyg/marks/code.ts:9-11 | The mark is registered as `code`. The inline `code` handler opens and closes that mark with no attributes, so the mark renders as `<code>`. |
| CodeMark.DefaultSchema | apps/editor/src/wysiwyg/marks/code.ts:13-18 | `htmlToken` defaults to `null`. The parse rules accept exactly `code`, and the default attributes render `code`, which they accept. |
| CodeMark.ToDom | apps/editor/src/wysiwyg/marks/code.ts:19-21 | The rendered tag is always truthy. It is `htmlToken` when that is truthy and `code` otherwise, with no attributes. |
| CodeMark.RenderedTagParsesIff | apps/editor/src/wysiwyg/marks/code.ts:18-21 | The rendered tag is accepted by the parse rules exactly when `htmlToken` is falsy or `code`. |
| CodeMark.ToDomIgnoresHtmlString | apps/editor/src/wysiwyg/marks/code.ts:15-21 | Rendering never depends on `htmlString`, and `{htmlString: tag}` renders `code` for every tag. |
| Markdown.TagNameTag | apps/editor/src/convertors/toWwConvertors.ts:249 | Writing a tag as its type string and reading the string back gives the same tag. |
| Markdown.SameTagIffSameName | apps/editor/src/convertors/toWwConvertors.ts:249 | Two tags have the same type string exactly when they are the same tag. So a string comparison such as `tablePart.type === 'tableHead'` is a comparison of tags. |
| CodeMark.Keymaps | apps/editor/src/wysiwyg/marks/code.ts:29-36 | Exactly `Shift-Mod-c` and `Shift-Mod-C` are bound, both to the command toggling `code`. |

## Left out

- The HTML tag resolver `getTagInfo` and its mapping table are not part of
  this model. The resolver is a parameter, and every statement holds for
  every resolver. Its argument is the node's literal, with `None` for `null`.
- The tree walk is not modelled. That covers how often each handler is
  called and how `skipChildren` is honoured. The walk's context is an input,
  and balance is stated per entering/exit pair and for nesting around any
  balanced children.
- The builder's internal stack and the schema registries are not modelled.
  Calls are logged as `Op` values, and types are their schema names.
  A name missing from the registry (an `undefined` type) is not modelled.
- `MarkType.create` and attribute defaulting are not modelled. `OpenMark`
  carries the attribute object the handler passes. A missing attribute
  object and `{}` are both the empty map.
- The `commands()` bodies are not modelled: they wrap a toggle command from
  an external library. A bound command is the opaque token
  `ToggleMark(name)`. `Strong`'s `commands()` map, naming the same command
  `bold`, is left out with them.
- DOM rendering is not modelled beyond the tag and the attribute map. Parse
  rules are matched by tag name equality, not by CSS selectors. Keyboard
  dispatch and editor-state changes are left out.
- Numbers (`level`, `start`) are integers. Floating point and `NaN` are not
  modelled.
- `task` and `checked` are optional booleans, as their declared type says.
  Other truthy values are not modelled.
- `node.parent!` and `node.parent!.parent!` are assertions, not checks.
  `Convert` requires that the parent exists for an entering `br` in inline
  HTML, and that the parent and grandparent exist for a table cell.
- ConvertorProperties.ContainerWrapsBalancedChildren: inline HTML resolved to
  `br` is not covered, because it does not nest. `BrNeverWrapsBalanced`
  proves the opposite for it. What the real builder does with a
  `closeMark` whose mark is not open is not modelled. `Balanced` counts
  such a call as unmatched.
- `OtherType` cannot carry the name of a handled type. A tree in which a
  handled type is spelled as some other tag is not modelled. The source
  compares type strings, and on canonical tags this is the same as
  comparing tags.
