/** The `code` mark: inline code, rendered as `<code>` unless a token tag
    was captured in `htmlToken`. */
module CodeMark {
  import opened JsValue
  import opened MarkSchema
  import Markdown
  import Builder
  import ToWwConvertors

  /** The mark's name, under which the schema registers it. */
  const Name: string := "code"

  /** `htmlToken` defaults to `null`; only `<code>` parses as this mark. */
  function DefaultSchema(): (spec: MarkSpec)
    ensures DefaultAttrs(spec.attrs) == map["htmlToken" := Null]
    ensures ParseTags(spec.parseDom) == {"code"}
    ensures ToDom(DefaultAttrs(spec.attrs)).tag == Str("code")
    ensures ParseAccepts(spec.parseDom, ToDom(DefaultAttrs(spec.attrs)).tag)
  {
    var spec := MarkSpec([AttrSpec("htmlToken", Null)], [ParseRule("code")]);
    assert ParseTags(spec.parseDom) == {"code"} by {
      assert spec.parseDom[0].tag == "code";
    }
    spec
  }

  /** `[attrs.htmlToken || 'code']`: the captured token tag when there is one, else `<code>`. */
  function ToDom(attrs: map<string, Value>): (out: DomSpec)
    ensures Truthy(out.tag)
    ensures Truthy(Prop(attrs, "htmlToken")) ==> out.tag == Prop(attrs, "htmlToken")
    ensures !Truthy(Prop(attrs, "htmlToken")) ==> out.tag == Str("code")
    ensures out.attrs == map[]
  {
    DomSpec(Or(Prop(attrs, "htmlToken"), Str("code")), map[])
  }

  /** `Shift-Mod-c` and `Shift-Mod-C` both toggle code, and nothing else is bound. */
  function Keymaps(): (km: Keymap)
    ensures CaseVariantBinding(km, "Shift-Mod-c", ToggleMark(Name))
  {
    var code := ToggleMark("code");
    assert ShiftedKey("Shift-Mod-c") == "Shift-Mod-C";
    map["Shift-Mod-c" := code, "Shift-Mod-C" := code]
  }

  /** The rendered tag parses back as this mark exactly when no token was
      captured or the token is `code` itself. */
  lemma RenderedTagParsesIff(attrs: map<string, Value>)
    ensures ParseAccepts(DefaultSchema().parseDom, ToDom(attrs).tag)
      <==> (var t := Prop(attrs, "htmlToken"); !Truthy(t) || t == Str("code"))
  {
  }

  /** Rendering never reads `htmlString`, the attribute raw inline HTML
      supplies: a code mark made from `{ htmlString: tag }` renders `<code>`
      whatever the tag. */
  lemma ToDomIgnoresHtmlString(attrs: map<string, Value>, v: Value, tag: string)
    ensures ToDom(attrs["htmlString" := v]) == ToDom(attrs)
    ensures ToDom(map["htmlString" := Str(tag)]).tag == Str("code")
  {
  }

  /** The convertor's inline `code` handler opens and closes the mark
      registered under this name, without attributes, so it renders as `<code>`. */
  lemma ConvertorUsesThisMark(node: Markdown.MdNode, ctx: ToWwConvertors.Context, resolve: ToWwConvertors.TagResolver)
    requires node.kind == Markdown.Code
    ensures var ops := ToWwConvertors.Convert(node, ctx, resolve);
      && |ops| == 3
      && ops[0] == Builder.OpenMark(Builder.MarkOf(Name), map[])
      && ops[2] == Builder.CloseMark(Builder.MarkOf(Name))
      && ToDom(ops[0].attrs).tag == Str(Name)
  {
  }
}
