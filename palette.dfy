/** Theme records and their colour palettes. */
module Palette {
  import opened Wrappers

  /**
   * A theme's `colors` object. Every field may be missing (`undefined` in JavaScript);
   * `stickyHeader` and `userBubble` are the optional extras, the others are the roles
   * every preset and custom theme fills in.
   */
  datatype Colors = Colors(
    primary: Option<string>,
    sidebar: Option<string>,
    header: Option<string>,
    chatBg: Option<string>,
    chatText: Option<string>,
    inputBg: Option<string>,
    inputBorder: Option<string>,
    accent: Option<string>,
    stickyHeader: Option<string>,
    userBubble: Option<string>)

  /** A palette with every field missing: what property reads on a non-palette value yield. */
  const NoColors := Colors(None, None, None, None, None, None, None, None, None, None)

  /** A palette with the eight required roles filled in and no extras. */
  function FullColors(primary: string, sidebar: string, header: string, chatBg: string,
                      chatText: string, inputBg: string, inputBorder: string, accent: string): Colors
  {
    Colors(Some(primary), Some(sidebar), Some(header), Some(chatBg), Some(chatText),
           Some(inputBg), Some(inputBorder), Some(accent), None, None)
  }

  /**
   * A stored theme. Identity is `id`. A theme may lack `colors` (a malformed stored or
   * received value); `isCustom` is false for presets.
   */
  datatype Theme = Theme(id: string, name: string, description: string,
                         colors: Option<Colors>, isCustom: bool)

  /** JavaScript truthiness of an optional string: present and not empty. */
  predicate Truthy(v: Option<string>) {
    v.Some? && v.value != ""
  }

  /** The text a template literal writes for `${v}`. */
  function Show(v: Option<string>): (r: string)
    ensures v.Some? ==> r == v.value
    ensures v.None? ==> r == "undefined"
  {
    match v
    case Some(s) => s
    case None => "undefined"
  }

  /** `v || fallback` for an optional string. */
  function OrElse(v: Option<string>, fallback: string): (r: string)
    ensures Truthy(v) ==> r == v.value
    ensures !Truthy(v) ==> r == fallback
  {
    if Truthy(v) then v.value else fallback
  }
}
