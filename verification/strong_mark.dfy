/** The `strong` mark: bold text, rendered as `<strong>`. */
module StrongMark {
  import opened JsValue
  import opened MarkSchema
  import Markdown
  import Builder
  import ToWwConvertors

  /** The mark's name, under which the schema registers it. */
  const Name: string := "strong"

  /** `htmlString` defaults to `false`; `<b>` and `<strong>` parse as this mark. */
  function DefaultSchema(): (spec: MarkSpec)
    ensures DefaultAttrs(spec.attrs) == map["htmlString" := Bool(false)]
    ensures ParseTags(spec.parseDom) == {"b", "strong"}
    ensures ParseAccepts(spec.parseDom, ToDom(DefaultAttrs(spec.attrs)).tag)
  {
    var spec := MarkSpec([AttrSpec("htmlString", Bool(false))], [ParseRule("b"), ParseRule("strong")]);
    assert ParseTags(spec.parseDom) == {"b", "strong"} by {
      assert spec.parseDom[0].tag == "b" && spec.parseDom[1].tag == "strong";
    }
    spec
  }

  /** Always `<strong>`; marked `data-pass="true"` exactly when the mark came from raw HTML. */
  function ToDom(attrs: map<string, Value>): (out: DomSpec)
    ensures out.tag == Str(Name)
    ensures "data-pass" in out.attrs <==> Truthy(Prop(attrs, "htmlString"))
    ensures forall k :: k in out.attrs ==> k == "data-pass" && out.attrs[k] == "true"
  {
    DomSpec(Str("strong"), if Truthy(Prop(attrs, "htmlString")) then map["data-pass" := "true"] else map[])
  }

  /** `Mod-b` and `Mod-B` both toggle bold, and nothing else is bound. */
  function Keymaps(): (km: Keymap)
    ensures CaseVariantBinding(km, "Mod-b", ToggleMark(Name))
  {
    var bold := ToggleMark("strong");
    assert ShiftedKey("Mod-b") == "Mod-B";
    map["Mod-b" := bold, "Mod-B" := bold]
  }

  /** Whatever the attributes, the rendered tag is one the parse rules accept. */
  lemma RenderedTagParses(attrs: map<string, Value>)
    ensures ParseAccepts(DefaultSchema().parseDom, ToDom(attrs).tag)
  {
  }

  /** The `strong` handler of the convertor table opens and closes the mark
      registered under this name, without attributes. */
  lemma ConvertorUsesThisMark(node: Markdown.MdNode, ctx: ToWwConvertors.Context, resolve: ToWwConvertors.TagResolver)
    requires node.kind == Markdown.Strong
    ensures ctx.entering ==>
      ToWwConvertors.Convert(node, ctx, resolve) == [Builder.OpenMark(Builder.MarkOf(Name), map[])]
    ensures !ctx.entering ==>
      ToWwConvertors.Convert(node, ctx, resolve) == [Builder.CloseMark(Builder.MarkOf(Name))]
  {
  }
}
