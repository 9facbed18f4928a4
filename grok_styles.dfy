/** The Grok style module: one template over four palette roles (the light flag is unused). */
module GrokStyles {
  import opened Palette
  import opened Css

  /** The rules of `generateStyles(colors, isLight)`, in template order. */
  function Sheet(c: Colors, isLight: bool): Css.Sheet {
    [ Rule("body, html, main", [Important("background-color", Show(c.chatBg)), Important("color", Show(c.chatText))]),
      Rule("main *", [Important("color", "inherit")]),
      Rule("nav, aside", [Important("background-color", Show(c.sidebar))]),
      Rule("textarea", [Important("background-color", Show(c.inputBg)), Important("color", Show(c.chatText))])
    ]
  }

  /** `generateStyles(colors, isLight)`: the template's text. */
  function GenerateStyles(c: Colors, isLight: bool): (css: string)
    ensures css != []
  {
    RenderNonEmpty(Sheet(c, isLight));
    Render(Sheet(c, isLight))
  }

  /** The output does not depend on the light flag. */
  lemma IgnoresLightFlag(c: Colors)
    ensures GenerateStyles(c, true) == GenerateStyles(c, false)
  {
  }

  /** Only `chatBg`, `chatText`, `sidebar` and `inputBg` reach the output; `header`, `accent` and `userBubble` never do. */
  lemma DependsOnFourRoles(c: Colors, d: Colors, isLight: bool)
    requires c.chatBg == d.chatBg && c.chatText == d.chatText && c.sidebar == d.sidebar && c.inputBg == d.inputBg
    ensures GenerateStyles(c, isLight) == GenerateStyles(d, isLight)
  {
  }

  /** Page, sidebar and input rules use the corresponding palette roles. */
  lemma RegionColours(c: Colors, isLight: bool)
    ensures HasRule(GenerateStyles(c, isLight),
              Rule("body, html, main", [Important("background-color", Show(c.chatBg)), Important("color", Show(c.chatText))]))
    ensures HasRule(GenerateStyles(c, isLight), Rule("nav, aside", [Important("background-color", Show(c.sidebar))]))
    ensures HasRule(GenerateStyles(c, isLight),
              Rule("textarea", [Important("background-color", Show(c.inputBg)), Important("color", Show(c.chatText))]))
  {
    var s := Sheet(c, isLight);
    RenderContainsRule(s, 0);
    RenderContainsRule(s, 2);
    RenderContainsRule(s, 3);
  }
}
