/** The declarative part of a mark definition: its attributes with their
    defaults, the DOM tags it is parsed from, what it renders to, and the
    key bindings for its commands. */
module MarkSchema {
  import opened JsValue

  /** One entry `name: { default }` of a schema's `attrs`. */
  datatype AttrSpec = AttrSpec(name: string, default: Value)

  /** One `parseDOM` rule `{ tag }`. */
  datatype ParseRule = ParseRule(tag: string)

  /** The attributes and parse rules of a `defaultSchema`. */
  datatype MarkSpec = MarkSpec(attrs: seq<AttrSpec>, parseDom: seq<ParseRule>)

  /** What `toDOM` returns, `[tag, attrs]`: the first element is whatever
      value the render rule put there; no attribute object is an empty map. */
  datatype DomSpec = DomSpec(tag: Value, attrs: map<string, string>)

  /** A command bound to a key, kept opaque: it toggles the named mark. */
  datatype Command = ToggleMark(mark: string)

  /** A `keymaps()` table from key combination to command. */
  type Keymap = map<string, Command>

  /** The attribute object with every declared attribute at its default. */
  function DefaultAttrs(specs: seq<AttrSpec>): (attrs: map<string, Value>)
    ensures forall i :: 0 <= i < |specs| ==> specs[i].name in attrs
    ensures forall k :: k in attrs ==> exists i :: 0 <= i < |specs| && specs[i].name == k
  {
    if specs == [] then map[]
    else DefaultAttrs(specs[1..])[specs[0].name := specs[0].default]
  }

  /** The tags the parse rules name. */
  function ParseTags(rules: seq<ParseRule>): set<string> {
    set i | 0 <= i < |rules| :: rules[i].tag
  }

  /** Some parse rule matches an element whose tag is `tag`. */
  predicate ParseAccepts(rules: seq<ParseRule>, tag: Value) {
    tag.Str? && tag.s in ParseTags(rules)
  }

  /** The upper-case form of an ASCII lower-case letter. */
  function UpperAscii(c: char): (u: char)
    requires 'a' <= c <= 'z'
    ensures 'A' <= u <= 'Z'
    ensures u as int - 'A' as int == c as int - 'a' as int
  {
    (c as int - 'a' as int + 'A' as int) as char
  }

  /** `key` with its final letter upper-cased, the binding used when Shift
      changes the reported key. */
  function ShiftedKey(key: string): (shifted: string)
    requires |key| > 0 && 'a' <= key[|key| - 1] <= 'z'
    ensures |shifted| == |key| && shifted[..|key| - 1] == key[..|key| - 1]
    ensures shifted != key
  {
    key[..|key| - 1] + [UpperAscii(key[|key| - 1])]
  }

  /** The keymap binds exactly `key` and its upper-case variant, both to `cmd`. */
  predicate CaseVariantBinding(km: Keymap, key: string, cmd: Command) {
    && |key| > 0 && 'a' <= key[|key| - 1] <= 'z'
    && km.Keys == {key, ShiftedKey(key)}
    && km[key] == cmd && km[ShiftedKey(key)] == cmd
  }
}
