/** The `strike` mark: struck-through text, rendered as `<del>` unless raw
    HTML supplied another tag. */
module StrikeMark {
  import opened JsValue
  import opened MarkSchema
  import Markdown
  import Builder
  import ToWwConvertors

  /** The mark's name, under which the schema registers it. */
  const Name: string := "strike"

  /** `htmlString` defaults to `null`; `<s>` and `<del>` parse as this mark. */
  function DefaultSchema(): (spec: MarkSpec)
    ensures DefaultAttrs(spec.attrs) == map["htmlString" := Null]
    ensures ParseTags(spec.parseDom) == {"s", "del"}
    ensures ParseAccepts(spec.parseDom, ToDom(DefaultAttrs(spec.attrs)).tag)
  {
    var spec := MarkSpec([AttrSpec("htmlString", Null)], [ParseRule("s"), ParseRule("del")]);
    assert ParseTags(spec.parseDom) == {"s", "del"} by {
      assert spec.parseDom[0].tag == "s" && spec.parseDom[1].tag == "del";
    }
    spec
  }

  /** `[attrs.htmlString || 'del']`: the captured tag when there is one, else `<del>`. */
  function ToDom(attrs: map<string, Value>): (out: DomSpec)
    ensures Truthy(out.tag)
    ensures Truthy(Prop(attrs, "htmlString")) ==> out.tag == Prop(attrs, "htmlString")
    ensures !Truthy(Prop(attrs, "htmlString")) ==> out.tag == Str("del")
    ensures out.attrs == map[]
  {
    DomSpec(Or(Prop(attrs, "htmlString"), Str("del")), map[])
  }

  /** `Mod-s` and `Mod-S` both toggle strike, and nothing else is bound. */
  function Keymaps(): (km: Keymap)
    ensures CaseVariantBinding(km, "Mod-s", ToggleMark(Name))
  {
    var strike := ToggleMark("strike");
    assert ShiftedKey("Mod-s") == "Mod-S";
    map["Mod-s" := strike, "Mod-S" := strike]
  }

  /** The rendered tag parses back as this mark exactly when no tag was
      captured or the captured tag is `s` or `del`. */
  lemma RenderedTagParsesIff(attrs: map<string, Value>)
    ensures ParseAccepts(DefaultSchema().parseDom, ToDom(attrs).tag)
      <==> (var h := Prop(attrs, "htmlString"); !Truthy(h) || h == Str("s") || h == Str("del"))
  {
  }

  /** The `strike` handler of the convertor table opens and closes the mark
      registered under this name, without attributes. */
  lemma ConvertorUsesThisMark(node: Markdown.MdNode, ctx: ToWwConvertors.Context, resolve: ToWwConvertors.TagResolver)
    requires node.kind == Markdown.Strike
    ensures ctx.entering ==>
      ToWwConvertors.Convert(node, ctx, resolve) == [Builder.OpenMark(Builder.MarkOf(Name), map[])]
    ensures !ctx.entering ==>
      ToWwConvertors.Convert(node, ctx, resolve) == [Builder.CloseMark(Builder.MarkOf(Name))]
  {
  }
}
