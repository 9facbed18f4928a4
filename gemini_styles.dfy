/** The Gemini style module: one template over the palette (the light flag is unused). */
module GeminiStyles {
  import opened Palette
  import opened Css

  /** The rules of `generateStyles(colors, isLight)`, in template order. */
  function Sheet(c: Colors, isLight: bool): Css.Sheet {
    [ Rule("body, html, main, .chat-container",
           [Important("background-color", Show(c.chatBg)), Important("color", Show(c.chatText))]),
      Rule("main *, .chat-container *", [Important("color", "inherit")]),
      Rule("nav, .navigation", [Important("background-color", Show(c.sidebar))]),
      Rule("header", [Important("background-color", Show(c.header))]),
      Rule("textarea, [contenteditable=\"true\"]",
           [Important("background-color", Show(c.inputBg)), Important("color", Show(c.chatText))]),
      Rule(".user-message, [data-role=\"user\"]", [Important("background-color", OrElse(c.userBubble, "transparent"))])
    ]
  }

  /** `generateStyles(colors, isLight)`: the template's text. */
  function GenerateStyles(c: Colors, isLight: bool): (css: string)
    ensures css != []
  {
    RenderNonEmpty(Sheet(c, isLight));
    Render(Sheet(c, isLight))
  }

  /** The output does not depend on the light flag. */
  lemma IgnoresLightFlag(c: Colors)
    ensures GenerateStyles(c, true) == GenerateStyles(c, false)
  {
  }

  /** The input border colour (and `primary`, `accent`, `stickyHeader`) play no part in the output. */
  lemma IgnoresInputBorder(c: Colors, d: Colors, isLight: bool)
    requires c.chatBg == d.chatBg && c.chatText == d.chatText && c.sidebar == d.sidebar
    requires c.header == d.header && c.inputBg == d.inputBg && c.userBubble == d.userBubble
    ensures GenerateStyles(c, isLight) == GenerateStyles(d, isLight)
  {
  }

  /** Page, header, sidebar and input rules use the corresponding palette roles. */
  lemma RegionColours(c: Colors, isLight: bool)
    ensures HasRule(GenerateStyles(c, isLight), Rule("body, html, main, .chat-container",
              [Important("background-color", Show(c.chatBg)), Important("color", Show(c.chatText))]))
    ensures HasRule(GenerateStyles(c, isLight), Rule("nav, .navigation", [Important("background-color", Show(c.sidebar))]))
    ensures HasRule(GenerateStyles(c, isLight), Rule("header", [Important("background-color", Show(c.header))]))
    ensures HasRule(GenerateStyles(c, isLight), Rule("textarea, [contenteditable=\"true\"]",
              [Important("background-color", Show(c.inputBg)), Important("color", Show(c.chatText))]))
  {
    var s := Sheet(c, isLight);
    RenderContainsRule(s, 0);
    RenderContainsRule(s, 2);
    RenderContainsRule(s, 3);
    RenderContainsRule(s, 4);
  }

  /** The user message takes `userBubble` when it is set, and is transparent otherwise. */
  lemma UserBubbleFallback(c: Colors, isLight: bool)
    ensures Truthy(c.userBubble) ==> HasRule(GenerateStyles(c, isLight),
              Rule(".user-message, [data-role=\"user\"]", [Important("background-color", c.userBubble.value)]))
    ensures !Truthy(c.userBubble) ==> HasRule(GenerateStyles(c, isLight),
              Rule(".user-message, [data-role=\"user\"]", [Important("background-color", "transparent")]))
  {
    RenderContainsRule(Sheet(c, isLight), 5);
  }
}
