/**
 * The style injector: the textual lightness test, the generic style template, and the two
 * ways styles reach a page (one `<style>` element with a fixed id, and inline properties).
 */
module StyleInjector {
  import opened Wrappers
  import opened Strings
  import opened Palette
  import opened Css

  // ---------------------------------------------------------------------------------------
  // Lightness test
  // ---------------------------------------------------------------------------------------

  /** The regular-expression class `[F-f]`: every character from 'F' (0x46) to 'f' (0x66). */
  predicate InLightClass(ch: char) {
    'F' <= ch <= 'f'
  }

  /** `s` starts with `#`, one character of `[F-f]`, then five hexadecimal digits. */
  predicate LightHexPrefix(s: string) {
    |s| >= 7 && s[0] == '#' && InLightClass(s[1])
    && IsHexDigit(s[2]) && IsHexDigit(s[3]) && IsHexDigit(s[4]) && IsHexDigit(s[5]) && IsHexDigit(s[6])
  }

  /** The unanchored search `s.match(/#[F-f][A-Fa-f0-9]{5}/)`. */
  function HasLightHex(s: string): bool
    decreases |s|
  {
    if |s| < 7 then false else LightHexPrefix(s) || HasLightHex(s[1..])
  }

  /** The search succeeds exactly when the pattern occurs at some position. */
  lemma {:induction false} HasLightHexIff(s: string)
    ensures HasLightHex(s) <==> exists i :: 0 <= i <= |s| - 7 && LightHexPrefix(s[i..])
    decreases |s|
  {
    if |s| >= 7 {
      HasLightHexIff(s[1..]);
      if LightHexPrefix(s) {
        assert s[0..] == s;
      } else if HasLightHex(s[1..]) {
        var i :| 0 <= i <= |s| - 8 && LightHexPrefix(s[1..][i..]);
        assert s[1..][i..] == s[i + 1..];
      } else {
        forall i | 0 <= i <= |s| - 7 ensures !LightHexPrefix(s[i..]) {
          if i > 0 { assert s[1..][i - 1..] == s[i..]; }
        }
      }
    }
  }

  /** `isLightTheme(bgColor)`: a textual heuristic, not a luminance computation. */
  function IsLightTheme(bgColor: Option<string>): (light: bool)
    ensures !Truthy(bgColor) ==> !light
    ensures Truthy(bgColor) && (Contains(bgColor.value, "255") || Contains(ToLower(bgColor.value), "white")) ==> light
    ensures Truthy(bgColor) && HasLightHex(bgColor.value) ==> light
  {
    Truthy(bgColor)
    && (HasLightHex(bgColor.value) || Contains(bgColor.value, "255") || Contains(ToLower(bgColor.value), "white"))
  }

  /** For a colour without "255" and "white", lightness is exactly an occurrence of the hex pattern. */
  lemma LightIffPattern(bg: string)
    requires bg != "" && !Contains(bg, "255") && !Contains(ToLower(bg), "white")
    ensures IsLightTheme(Some(bg)) <==> exists i :: 0 <= i <= |bg| - 7 && LightHexPrefix(bg[i..])
  {
    HasLightHexIff(bg);
  }

  /** Worked cases: the class is an ASCII range, so lower-case letters after '#' count. */
  lemma LightExamples()
    ensures IsLightTheme(Some("#FAF9FA")) && IsLightTheme(Some("#abcdef")) && IsLightTheme(Some("#a0a0a0"))
    ensures IsLightTheme(Some("#FFFFFF"))
  {
    assert LightHexPrefix("#FAF9FA");
    assert LightHexPrefix("#abcdef");
    assert LightHexPrefix("#a0a0a0");
    assert LightHexPrefix("#FFFFFF");
  }

  /** "255" anywhere makes a colour light. */
  lemma ChannelExample()
    ensures IsLightTheme(Some("rgb(10,10,255)"))
  {
    ContainsMiddle("rgb(10,10,", "255", ")");
    assert "rgb(10,10," + "255" + ")" == "rgb(10,10,255)";
  }

  /** "white" in any letter case makes a colour light. */
  lemma WhiteExample()
    ensures IsLightTheme(Some("White"))
  {
    assert ToLower("White") == "white" + "";
    ContainsOwnPrefix("white", "");
  }

  /** Upper-case 'A'..'E' and digits after '#' are outside the class, so these count as dark. */
  lemma DarkExamples()
    ensures !IsLightTheme(Some("#A0A0A0")) && !IsLightTheme(Some("#002B36"))
  {
    NotLight("#A0A0A0");
    NotLight("#002B36");
  }

  /** Black and a dark grey are dark; an empty or missing colour is never light. */
  lemma MoreDarkExamples()
    ensures !IsLightTheme(Some("#000000")) && !IsLightTheme(Some("#0D1117"))
    ensures !IsLightTheme(Some("")) && !IsLightTheme(None)
  {
    NotLight("#000000");
    NotLight("#0D1117");
  }

  /** A seven-character colour whose second character is outside `[F-f]` and that has no '5' or 'w'/'W' is dark. */
  lemma NotLight(s: string)
    requires |s| == 7 && !InLightClass(s[1])
    requires forall k :: 0 <= k < 7 ==> s[k] != '5' && s[k] != 'w' && s[k] != 'W'
    ensures !IsLightTheme(Some(s))
  {
    assert !LightHexPrefix(s);
    assert !HasLightHex(s[1..]);
    MissingChar(s, "255", 1);
    MissingChar(ToLower(s), "white", 0);
  }

  /** Changing only the case of the letters changes the verdict on `#a0a0a0`. */
  lemma CaseChangesLightness()
    ensures ToUpper("#a0a0a0") == "#A0A0A0"
    ensures IsLightTheme(Some("#a0a0a0")) && !IsLightTheme(Some(ToUpper("#a0a0a0")))
  {
    LightExamples();
    DarkExamples();
  }

  // The evidently intended test reads the class as `[Ff]`, that is 'F' in either case.

  /** The class `[Ff]`. */
  predicate IntendedLightChar(ch: char) {
    ch == 'F' || ch == 'f'
  }

  /** `s` starts with `#`, 'F' or 'f', then five hexadecimal digits. */
  predicate IntendedLightHexPrefix(s: string) {
    |s| >= 7 && s[0] == '#' && IntendedLightChar(s[1])
    && IsHexDigit(s[2]) && IsHexDigit(s[3]) && IsHexDigit(s[4]) && IsHexDigit(s[5]) && IsHexDigit(s[6])
  }

  /** The unanchored search for `#[Ff][A-Fa-f0-9]{5}`. */
  function IntendedHasLightHex(s: string): bool
    decreases |s|
  {
    if |s| < 7 then false else IntendedLightHexPrefix(s) || IntendedHasLightHex(s[1..])
  }

  /** `isLightTheme` with the class `[Ff]`. */
  function IntendedIsLightTheme(bgColor: Option<string>): (light: bool)
    ensures !Truthy(bgColor) ==> !light
    ensures Truthy(bgColor) && (Contains(bgColor.value, "255") || Contains(ToLower(bgColor.value), "white")) ==> light
    ensures Truthy(bgColor) && IntendedHasLightHex(bgColor.value) ==> light
  {
    Truthy(bgColor)
    && (IntendedHasLightHex(bgColor.value) || Contains(bgColor.value, "255") || Contains(ToLower(bgColor.value), "white"))
  }

  /** Upper-casing keeps a character hexadecimal or not, and keeps it in `[Ff]` or not. */
  lemma UpperCharClasses(c: char)
    ensures IsHexDigit(UpperChar(c)) <==> IsHexDigit(c)
    ensures IntendedLightChar(UpperChar(c)) <==> IntendedLightChar(c)
  {
  }

  /** The corrected hex search does not depend on the case of the letters. */
  lemma {:induction false} IntendedHexIgnoresCase(s: string)
    ensures IntendedHasLightHex(ToUpper(s)) == IntendedHasLightHex(s)
    decreases |s|
  {
    var u := ToUpper(s);
    if |s| >= 7 {
      forall k | 0 <= k < 7
        ensures IsHexDigit(u[k]) <==> IsHexDigit(s[k])
        ensures IntendedLightChar(u[k]) <==> IntendedLightChar(s[k])
      {
        UpperCharClasses(s[k]);
      }
      assert IntendedLightHexPrefix(u) == IntendedLightHexPrefix(s);
      assert u[1..] == ToUpper(s[1..]);
      IntendedHexIgnoresCase(s[1..]);
    }
  }

  /** The corrected test only narrows the as-written one. */
  lemma {:induction false} IntendedNarrower(s: string)
    ensures IntendedHasLightHex(s) ==> HasLightHex(s)
    ensures IntendedIsLightTheme(Some(s)) ==> IsLightTheme(Some(s))
    decreases |s|
  {
    if |s| >= 7 {
      IntendedNarrower(s[1..]);
    }
  }

  /** Under the corrected test `#a0a0a0` and `#A0A0A0` agree, while white in either case is light. */
  lemma IntendedExamples()
    ensures !IntendedIsLightTheme(Some("#a0a0a0")) && !IntendedIsLightTheme(Some("#A0A0A0"))
    ensures IntendedIsLightTheme(Some("#ffffff")) && IntendedIsLightTheme(Some("#FFFFFF"))
  {
    NotIntendedLight("#a0a0a0");
    NotIntendedLight("#A0A0A0");
    assert IntendedLightHexPrefix("#ffffff");
    assert IntendedLightHexPrefix("#FFFFFF");
  }

  /** A seven-character colour whose second character is not 'F' or 'f' and that has no '5' or 'w'/'W'. */
  lemma NotIntendedLight(s: string)
    requires |s| == 7 && !IntendedLightChar(s[1])
    requires forall k :: 0 <= k < 7 ==> s[k] != '5' && s[k] != 'w' && s[k] != 'W'
    ensures !IntendedIsLightTheme(Some(s))
  {
    assert !IntendedLightHexPrefix(s);
    assert !IntendedHasLightHex(s[1..]);
    MissingChar(s, "255", 1);
    MissingChar(ToLower(s), "white", 0);
  }

  // ---------------------------------------------------------------------------------------
  // The generic template of injectGlobalStyles
  // ---------------------------------------------------------------------------------------

  /** What `injectGlobalStyles` receives: a palette object, or (as the applier passes it) a CSS string. */
  datatype StyleArg = FromPalette(colors: Colors) | FromText(css: string)

  /** `colors.field` on the argument: a string has none of the palette's properties. */
  function ArgColors(arg: StyleArg): (c: Colors)
    ensures arg.FromText? ==> c == NoColors
  {
    match arg
    case FromPalette(c) => c
    case FromText(_) => NoColors
  }

  /**
   * The code-block colours chosen by the light/dark branch. The border colour is computed
   * but the template never writes it into the text.
   */
  datatype CodeBlockColors = CodeBlockColors(bg: string, border: string, text: string)

  function CodeBlockColorsFor(c: Colors, light: bool): CodeBlockColors {
    if light then CodeBlockColors("rgba(0, 0, 0, 0.05)", OrElse(c.accent, "#CCCCCC"), "#1A1A1A")
    else CodeBlockColors("rgba(255, 255, 255, 0.05)", OrElse(c.accent, "#444444"), Show(c.chatText))
  }

  /** Page, header, sidebar, list and message backgrounds. */
  function PageRules(c: Colors): Sheet {
    [ Rule("body", [Important("background-color", Show(c.chatBg)), Important("color", Show(c.chatText)), Important("opacity", "1")]),
      Rule("header", [Important("background-color", Show(c.header)), Important("color", Show(c.chatText))]),
      Rule("nav, aside, .sidebar, .navigation", [Important("background-color", Show(c.sidebar)), Important("color", Show(c.chatText))]),
      Rule("main, [role=\"main\"], .chat-container",
           [Important("background-color", Show(c.chatBg)), Important("color", Show(c.chatText)), Important("opacity", "1")]),
      Rule(".message, [data-message-author-role], [role=\"article\"]",
           [Important("background-color", Show(c.chatBg)), Important("color", Show(c.chatText)), Important("opacity", "1")])
    ]
  }

  /** The input box, its container and its buttons. */
  function InputRules(c: Colors, light: bool): Sheet {
    [ Rule("textarea, [contenteditable=\"true\"], #prompt-textarea",
           [Important("background-color", Show(c.sidebar)), Important("color", Show(c.chatText)),
            Important("border", "1px solid " + Show(c.inputBorder)), Important("caret-color", Show(c.chatText)),
            Important("border-radius", "8px"), Important("padding", "12px"), Important("opacity", "1")]),
      Rule("textarea:focus, [contenteditable=\"true\"]:focus, #prompt-textarea:focus",
           [Important("outline", "2px solid " + Show(c.accent)), Important("outline-offset", "2px"),
            Important("border-color", Show(c.accent))]),
      Rule("textarea::placeholder, #prompt-textarea::placeholder", [Important("color", Show(c.chatText)), Important("opacity", "0.5")]),
      Rule("form, [class*=\"input-container\"], [class*=\"composer\"], [class*=\"prompt\"]",
           [Important("background-color", Show(c.sidebar)), Important("opacity", "1"), Important("border-color", Show(c.inputBorder))]),
      Rule("form button, [class*=\"input-container\"] button, [class*=\"composer\"] button",
           [Important("color", Show(c.chatText)), Important("opacity", "0.8")]),
      Rule("form button:hover, [class*=\"input-container\"] button:hover, [class*=\"composer\"] button:hover",
           [Important("opacity", "1"),
            Important("background-color", if light then "rgba(0, 0, 0, 0.05)" else "rgba(255, 255, 255, 0.1)")]),
      Rule(".box-content, [class*=\"box-content\"], [class~=\"bg-bg-000\"]",
           [Important("background-color", Show(c.sidebar)), Important("opacity", "1")])
    ]
  }

  /** Opacity of the chat area, links, and code blocks. */
  function ContentRules(c: Colors, light: bool): Sheet {
    var code := CodeBlockColorsFor(c, light);
    [ Rule("main *, [role=\"main\"] *, .chat-container *", [Important("opacity", "1")]),
      Rule("a, [role=\"link\"]", [Important("color", Show(c.accent))]),
      Rule("div[class*=\"group\"], div.relative.group, div[class*=\"bg-bg\"], div[class*=\"code-block\"]",
           [Important("background-color", code.bg), Important("border", "none"), Important("border-radius", "8px")]),
      Rule("pre", [Important("background-color", code.bg), Important("border-radius", "6px"),
                   Important("padding", "1em"), Important("overflow-x", "auto")]),
      Rule("code", [Important("background-color", code.bg), Important("color", code.text),
                    Important("font-family", "'Consolas', 'Monaco', 'Courier New', monospace")]),
      Rule("p code, li code, span code",
           [Important("background-color", code.bg), Important("color", code.text), Important("padding", "2px 6px"),
            Important("border-radius", "4px"), Important("font-size", "0.9em")]),
      Rule("pre code", [Important("background-color", "transparent"), Important("padding", "0"),
                        Important("border-radius", "0"), Important("display", "block")])
    ]
  }

  /** The syntax-token colour rules, emitted only for light backgrounds. */
  const TokenRules: Sheet := [
    Rule("pre code .token", [Important("background-color", "transparent")]),
    Rule("pre code .token.comment, pre code .token.prolog, pre code .token.doctype", [Important("color", "#6A737D")]),
    Rule("pre code .token.keyword, pre code .token.control-flow", [Important("color", "#D73A49")]),
    Rule("pre code .token.string, pre code .token.template-string", [Important("color", "#032F62")]),
    Rule("pre code .token.function, pre code .token.maybe-class-name", [Important("color", "#6F42C1")]),
    Rule("pre code .token.number, pre code .token.boolean", [Important("color", "#005CC5")]),
    Rule("pre code .token.operator, pre code .token.arrow", [Important("color", "#D73A49")]),
    Rule("pre code .token.property, pre code .token.property-access", [Important("color", "#005CC5")])
  ]

  /** Tables and headings. */
  function TableRules(c: Colors, light: bool): Sheet {
    [ Rule("table", [Important("background-color", Show(c.chatBg)), Important("color", Show(c.chatText)),
                     Important("border-collapse", "collapse"), Important("width", "100%")]),
      Rule("th, td", [Important("background-color", Show(c.chatBg)), Important("color", Show(c.chatText)),
                      Important("padding", "8px 12px"),
                      Important("border", "1px solid " + (if light then "rgba(0, 0, 0, 0.1)" else "rgba(255, 255, 255, 0.1)"))]),
      Rule("th", [Important("font-weight", "600"),
                  Important("background-color", if light then "rgba(0, 0, 0, 0.03)" else "rgba(255, 255, 255, 0.03)")]),
      Rule("tr:hover", [Important("background-color", if light then "rgba(0, 0, 0, 0.02)" else "rgba(255, 255, 255, 0.02)")]),
      Rule("h1, h2, h3, h4, h5, h6", [Important("color", Show(c.chatText))]),
      Rule("h1", [Important("font-weight", "700")]),
      Rule("h2", [Important("font-weight", "600")]),
      Rule("h3, h4, h5, h6", [Important("font-weight", "600")])
    ]
  }

  /** Code-block headers, copy buttons and scrollbars. */
  function ChromeRules(c: Colors): Sheet {
    [ Rule("div[class*=\"text-text\"]", [Important("color", Show(c.chatText)), Plain("opacity", "0.7")]),
      Rule("button[aria-label*=\"복사\"], button[aria-label*=\"copy\"]",
           [Important("opacity", "0.6"), Important("transition", "opacity 0.2s")]),
      Rule("button[aria-label*=\"복사\"]:hover, button[aria-label*=\"copy\"]:hover", [Important("opacity", "1")]),
      Rule("::-webkit-scrollbar", [Plain("width", "12px")]),
      Rule("::-webkit-scrollbar-track", [Important("background", Show(c.chatBg))]),
      Rule("::-webkit-scrollbar-thumb", [Important("background", Show(c.accent)), Plain("border-radius", "6px")])
    ]
  }

  /** The template's groups in order; the token group is empty unless the background is light. */
  function Groups(c: Colors, light: bool): seq<Sheet> {
    [PageRules(c), InputRules(c, light), ContentRules(c, light), if light then TokenRules else [],
     TableRules(c, light), ChromeRules(c)]
  }

  /** The generic template's rules for a palette; lightness is judged from `chatBg`. */
  function GlobalSheet(c: Colors): Sheet {
    Flatten(Groups(c, IsLightTheme(c.chatBg)))
  }

  /** The text `injectGlobalStyles` writes into the style element. */
  function GlobalCss(c: Colors): string {
    Render(GlobalSheet(c))
  }

  /** A rule of the syntax-token group. */
  predicate IsTokenRule(r: Rule) {
    r in TokenRules
  }

  /** No rule of the sheet belongs to the token group. */
  predicate NoTokenRules(sheet: Sheet) {
    forall r :: r in sheet ==> !IsTokenRule(r)
  }

  lemma NoTokenPageRules(c: Colors) ensures forall r :: r in PageRules(c) ==> r !in TokenRules { }
  lemma NoTokenInputRules(c: Colors, light: bool) ensures forall r :: r in InputRules(c, light) ==> r !in TokenRules { }
  lemma NoTokenContentRules(c: Colors, light: bool) ensures forall r :: r in ContentRules(c, light) ==> r !in TokenRules { }
  lemma NoTokenTableRules(c: Colors, light: bool) ensures forall r :: r in TableRules(c, light) ==> r !in TokenRules { }
  lemma NoTokenChromeRules(c: Colors) ensures forall r :: r in ChromeRules(c) ==> r !in TokenRules { }

  /** No rule outside the token group is a token rule. */
  lemma NoTokenRulesAround(c: Colors, light: bool)
    ensures forall g :: 0 <= g < 6 && g != 3 ==> NoTokenRules(Groups(c, light)[g])
  {
    NoTokenPageRules(c);
    NoTokenInputRules(c, light);
    NoTokenContentRules(c, light);
    NoTokenTableRules(c, light);
    NoTokenChromeRules(c);
  }

  /** Every rule of every group appears in the injected text. */
  lemma GroupRuleShown(c: Colors, g: nat, i: nat)
    requires g < 6 && i < |Groups(c, IsLightTheme(c.chatBg))[g]|
    ensures HasRule(GlobalCss(c), Groups(c, IsLightTheme(c.chatBg))[g][i])
  {
    RuleInFlatten(Groups(c, IsLightTheme(c.chatBg)), g, i);
  }

  /**
   * The syntax-token rules are emitted exactly for light backgrounds: each appears in the text
   * when `chatBg` is light, and the sheet holds no token rule at all otherwise.
   */
  lemma TokenRulesOnlyWhenLight(c: Colors)
    ensures IsLightTheme(c.chatBg) ==> forall i :: 0 <= i < |TokenRules| ==> HasRule(GlobalCss(c), TokenRules[i])
    ensures !IsLightTheme(c.chatBg) ==> NoTokenRules(GlobalSheet(c))
    ensures IsLightTheme(c.chatBg) <==> exists r :: r in GlobalSheet(c) && IsTokenRule(r)
  {
    var light := IsLightTheme(c.chatBg);
    var groups := Groups(c, light);
    NoTokenRulesAround(c, light);
    if light {
      forall i | 0 <= i < |TokenRules| ensures HasRule(GlobalCss(c), TokenRules[i]) {
        GroupRuleShown(c, 3, i);
      }
      assert IsTokenRule(TokenRules[0]);
      FlattenMember(groups, TokenRules[0]);
      assert TokenRules[0] in groups[3];
    } else {
      forall r | r in GlobalSheet(c) ensures !IsTokenRule(r) {
        FlattenMember(groups, r);
        var g :| 0 <= g < |groups| && r in groups[g];
        assert NoTokenRules(groups[g]);
      }
    }
  }

  /** The code rule sits fifth in the content group and takes the branch's colours. */
  lemma CodeRuleAt(c: Colors, light: bool)
    ensures var code := CodeBlockColorsFor(c, light);
            Groups(c, light)[2][4] == Rule("code", [Important("background-color", code.bg), Important("color", code.text),
                                        Important("font-family", "'Consolas', 'Monaco', 'Courier New', monospace")])
  {
  }

  /**
   * Code-block colours follow the branch: light backgrounds get a dark tint and `#1A1A1A` text,
   * dark ones a light tint and `chatText`; the border colour is `accent` or a fixed default.
   */
  lemma CodeBlockColoursByBranch(c: Colors)
    ensures IsLightTheme(c.chatBg) ==> CodeBlockColorsFor(c, true) == CodeBlockColors("rgba(0, 0, 0, 0.05)", OrElse(c.accent, "#CCCCCC"), "#1A1A1A")
    ensures !IsLightTheme(c.chatBg) ==> CodeBlockColorsFor(c, false) == CodeBlockColors("rgba(255, 255, 255, 0.05)", OrElse(c.accent, "#444444"), Show(c.chatText))
  {
  }

  /** The `code` rule of the injected text carries the code-block background and text colour. */
  lemma CodeRuleShown(c: Colors)
    ensures var code := CodeBlockColorsFor(c, IsLightTheme(c.chatBg));
            HasRule(GlobalCss(c), Rule("code", [Important("background-color", code.bg), Important("color", code.text),
                      Important("font-family", "'Consolas', 'Monaco', 'Courier New', monospace")]))
  {
    CodeRuleAt(c, IsLightTheme(c.chatBg));
    GroupRuleShown(c, 2, 4);
  }

  /**
   * Code blocks get a faint black wash and near-black text on a light background, and a
   * faint white wash with the palette's own text colour otherwise.
   */
  lemma CodeRuleLiterals(c: Colors)
    ensures IsLightTheme(c.chatBg) ==>
              HasRule(GlobalCss(c), Rule("code", [Important("background-color", "rgba(0, 0, 0, 0.05)"), Important("color", "#1A1A1A"),
                        Important("font-family", "'Consolas', 'Monaco', 'Courier New', monospace")]))
    ensures !IsLightTheme(c.chatBg) ==>
              HasRule(GlobalCss(c), Rule("code", [Important("background-color", "rgba(255, 255, 255, 0.05)"), Important("color", Show(c.chatText)),
                        Important("font-family", "'Consolas', 'Monaco', 'Courier New', monospace")]))
  {
    CodeRuleShown(c);
    CodeBlockColoursByBranch(c);
  }

  /** Where the body, sidebar, link and scrollbar rules sit in their groups. */
  lemma RegionRulesAt(c: Colors, light: bool)
    ensures Groups(c, light)[0][0] == Rule("body", [Important("background-color", Show(c.chatBg)),
              Important("color", Show(c.chatText)), Important("opacity", "1")])
    ensures Groups(c, light)[0][2] == Rule("nav, aside, .sidebar, .navigation",
              [Important("background-color", Show(c.sidebar)), Important("color", Show(c.chatText))])
    ensures Groups(c, light)[2][1] == Rule("a, [role=\"link\"]", [Important("color", Show(c.accent))])
    ensures Groups(c, light)[5][5] == Rule("::-webkit-scrollbar-thumb", [Important("background", Show(c.accent)), Plain("border-radius", "6px")])
  {
  }

  /** The page background and text of the generic template are `chatBg` and `chatText`. */
  lemma GlobalBodyColours(c: Colors)
    ensures HasRule(GlobalCss(c), Rule("body", [Important("background-color", Show(c.chatBg)),
              Important("color", Show(c.chatText)), Important("opacity", "1")]))
  {
    RegionRulesAt(c, IsLightTheme(c.chatBg));
    GroupRuleShown(c, 0, 0);
  }

  /** Sidebars use `sidebar`; links and the scrollbar thumb use `accent`. */
  lemma GlobalRegionColours(c: Colors)
    ensures HasRule(GlobalCss(c), Rule("nav, aside, .sidebar, .navigation",
              [Important("background-color", Show(c.sidebar)), Important("color", Show(c.chatText))]))
    ensures HasRule(GlobalCss(c), Rule("a, [role=\"link\"]", [Important("color", Show(c.accent))]))
    ensures HasRule(GlobalCss(c), Rule("::-webkit-scrollbar-thumb", [Important("background", Show(c.accent)), Plain("border-radius", "6px")]))
  {
    RegionRulesAt(c, IsLightTheme(c.chatBg));
    GroupRuleShown(c, 0, 2);
    GroupRuleShown(c, 2, 1);
    GroupRuleShown(c, 5, 5);
  }

  /**
   * Given a CSS string instead of a palette, every palette read is `undefined`: the template is
   * the dark one with "undefined" in each palette slot, the same whatever the string says.
   */
  lemma TextArgumentRendersUndefined(css: string, other: string)
    ensures GlobalCss(ArgColors(FromText(css))) == GlobalCss(ArgColors(FromText(other)))
    ensures !IsLightTheme(ArgColors(FromText(css)).chatBg)
    ensures HasRule(GlobalCss(ArgColors(FromText(css))), Rule("body", [Important("background-color", "undefined"),
              Important("color", "undefined"), Important("opacity", "1")]))
    ensures CodeBlockColorsFor(NoColors, false) == CodeBlockColors("rgba(255, 255, 255, 0.05)", "#444444", "undefined")
  {
    GlobalBodyColours(NoColors);
  }

  // ---------------------------------------------------------------------------------------
  // The document
  // ---------------------------------------------------------------------------------------

  /** The id of the one style element the extension owns. */
  const StyleId := "i-look-theme-styles"

  /** A child of `document.head`. */
  datatype HeadElement = HeadElement(tag: string, id: string, text: string)

  /** An inline style property's value and priority. */
  datatype StyleValue = StyleValue(value: string, priority: string)

  /** A page element: the selectors it matches, and its inline style. */
  datatype PageElement = PageElement(matches: set<string>, style: map<string, StyleValue>)

  /** The selector of elements that inline styling leaves alone. */
  const EditableSelector := "textarea, [contenteditable=\"true\"], #prompt-textarea"

  /** The index of the first head element with the given id. */
  function FindId(head: seq<HeadElement>, id: string): Option<nat> {
    if head == [] then None
    else if head[0].id == id then Some(0)
    else match FindId(head[1..], id)
         case None => None
         case Some(k) => Some(k + 1)
  }

  /** `FindId` finds the first element with the id, and nothing when there is none. */
  lemma {:induction false} FindIdSpec(head: seq<HeadElement>, id: string)
    ensures FindId(head, id).None? <==> forall k :: 0 <= k < |head| ==> head[k].id != id
    ensures FindId(head, id).Some? ==>
              (FindId(head, id).value < |head| && head[FindId(head, id).value].id == id
               && forall k :: 0 <= k < FindId(head, id).value ==> head[k].id != id)
  {
    if head != [] && head[0].id != id {
      FindIdSpec(head[1..], id);
      assert forall k :: 1 <= k < |head| ==> head[k] == head[1..][k - 1];
    }
  }

  /** How many head elements carry the id. */
  function CountId(head: seq<HeadElement>, id: string): nat {
    if head == [] then 0 else (if head[0].id == id then 1 else 0) + CountId(head[1..], id)
  }

  /** The head after the style element has been found or created and its text set. */
  function WithStyleText(head: seq<HeadElement>, text: string): seq<HeadElement> {
    match FindId(head, StyleId)
    case None => head + [HeadElement("style", StyleId, text)]
    case Some(k) => if k < |head| then head[k := head[k].(text := text)] else head
  }

  lemma {:induction false} CountIdAppend(head: seq<HeadElement>, e: HeadElement, id: string)
    ensures CountId(head + [e], id) == CountId(head, id) + (if e.id == id then 1 else 0)
  {
    if head != [] {
      assert (head + [e])[1..] == head[1..] + [e];
      CountIdAppend(head[1..], e, id);
    } else {
      assert [e][1..] == [];
    }
  }

  lemma {:induction false} CountIdUpdate(head: seq<HeadElement>, k: nat, e: HeadElement, id: string)
    requires k < |head| && head[k].id == e.id
    ensures CountId(head[k := e], id) == CountId(head, id)
  {
    if k > 0 {
      assert head[k := e][1..] == head[1..][k - 1 := e];
      CountIdUpdate(head[1..], k - 1, e, id);
    }
  }

  /**
   * Writing the style text leaves exactly one element with the style id when there was none
   * (and never adds a second), gives the element the lookup finds exactly the new text, and
   * touches no other head element.
   */
  lemma WithStyleTextSpec(head: seq<HeadElement>, text: string)
    ensures CountId(WithStyleText(head, text), StyleId) == if CountId(head, StyleId) == 0 then 1 else CountId(head, StyleId)
    ensures var k := FindId(WithStyleText(head, text), StyleId);
            k.Some? && k.value < |WithStyleText(head, text)| && WithStyleText(head, text)[k.value].text == text
    ensures |WithStyleText(head, text)| == if FindId(head, StyleId).None? then |head| + 1 else |head|
    ensures forall i :: 0 <= i < |head| && Some(i) != FindId(head, StyleId) ==> WithStyleText(head, text)[i] == head[i]
  {
    FindIdSpec(head, StyleId);
    CountIdNone(head, StyleId);
    var w := WithStyleText(head, text);
    FindIdSpec(w, StyleId);
    match FindId(head, StyleId)
    case None =>
      CountIdAppend(head, HeadElement("style", StyleId, text), StyleId);
      assert w[|head|].id == StyleId;
    case Some(k) =>
      CountIdUpdate(head, k, head[k].(text := text), StyleId);
      assert w[k].id == StyleId;
  }

  lemma {:induction false} CountIdNone(head: seq<HeadElement>, id: string)
    ensures CountId(head, id) == 0 <==> forall k :: 0 <= k < |head| ==> head[k].id != id
  {
    if head != [] {
      CountIdNone(head[1..], id);
      assert forall k :: 1 <= k < |head| ==> head[k] == head[1..][k - 1];
    }
  }

  /** The text is replaced, never appended: a later write wins outright, and repeating a write changes nothing. */
  lemma WithStyleTextOverwrites(head: seq<HeadElement>, first: string, second: string)
    ensures WithStyleText(WithStyleText(head, first), second) == WithStyleText(head, second)
  {
    FindIdSpec(head, StyleId);
    var w := WithStyleText(head, first);
    FindIdSpec(w, StyleId);
    match FindId(head, StyleId)
    case None =>
      assert w[|head|].id == StyleId;
      assert FindId(w, StyleId) == Some(|head|);
    case Some(k) =>
      assert w[k].id == StyleId;
      assert forall j :: 0 <= j < k ==> w[j] == head[j];
      assert FindId(w, StyleId) == Some(k);
  }

  /** The set of inline styles after `style.setProperty(p, v, "important")` for each entry in order. */
  function SetAll(style: map<string, StyleValue>, entries: seq<(string, string)>): map<string, StyleValue>
    decreases |entries|
  {
    if entries == [] then style
    else SetAll(style[entries[0].0 := StyleValue(entries[0].1, "important")], entries[1..])
  }

  /** The value the last entry for `p` gives, if any entry names it. */
  function LastValue(entries: seq<(string, string)>, p: string): Option<string>
    decreases |entries|
  {
    if entries == [] then None
    else if entries[|entries| - 1].0 == p then Some(entries[|entries| - 1].1)
    else LastValue(entries[..|entries| - 1], p)
  }

  lemma {:induction false} SetAllSnoc(style: map<string, StyleValue>, entries: seq<(string, string)>, e: (string, string))
    ensures SetAll(style, entries + [e]) == SetAll(style, entries)[e.0 := StyleValue(e.1, "important")]
    decreases |entries|
  {
    if entries == [] {
      assert [e][1..] == [];
    } else {
      assert (entries + [e])[1..] == entries[1..] + [e];
      SetAllSnoc(style[entries[0].0 := StyleValue(entries[0].1, "important")], entries[1..], e);
    }
  }

  /**
   * Each named property ends with the last value given for it and priority "important";
   * every other property keeps what it had.
   */
  lemma {:induction false} SetAllSpec(style: map<string, StyleValue>, entries: seq<(string, string)>, p: string)
    ensures LastValue(entries, p).Some? ==>
              (p in SetAll(style, entries) && SetAll(style, entries)[p] == StyleValue(LastValue(entries, p).value, "important"))
    ensures LastValue(entries, p).None? ==>
              ((p in SetAll(style, entries) <==> p in style) && (p in style ==> SetAll(style, entries)[p] == style[p]))
    decreases |entries|
  {
    if entries != [] {
      var init := entries[..|entries| - 1];
      var e := entries[|entries| - 1];
      assert entries == init + [e];
      SetAllSnoc(style, init, e);
      SetAllSpec(style, init, p);
    }
  }

  /** A document: the children of its head and the elements of its body. */
  class Document {
    var head: seq<HeadElement>
    var body: seq<PageElement>

    constructor (head: seq<HeadElement>, body: seq<PageElement>)
      ensures this.head == head && this.body == body
    {
      this.head := head;
      this.body := body;
    }

    /** `document.getElementById(id)`, looking among the head's children. */
    method GetElementById(id: string) returns (k: Option<nat>)
      ensures k == FindId(head, id)
      ensures k.None? <==> forall i :: 0 <= i < |head| ==> head[i].id != id
      ensures k.Some? ==> k.value < |head| && head[k.value].id == id && forall i :: 0 <= i < k.value ==> head[i].id != id
    {
      FindIdSpec(head, id);
      var i := 0;
      while i < |head|
        invariant 0 <= i <= |head|
        invariant forall j :: 0 <= j < i ==> head[j].id != id
      {
        if head[i].id == id {
          return Some(i);
        }
        i := i + 1;
      }
      return None;
    }

    /** Find or create the style element, then replace its whole text. */
    method WriteStyleTag(text: string)
      modifies this`head
      ensures head == WithStyleText(old(head), text)
    {
      var k := GetElementById(StyleId);
      if k.None? {
        head := head + [HeadElement("style", StyleId, "")];
        k := Some(|head| - 1);
        FindIdSpec(old(head), StyleId);
        FindIdSpec(head, StyleId);
      }
      head := head[k.value := head[k.value].(text := text)];
    }

    /** `injectGlobalStyles(colors)`: the generic template for whatever `colors` turns out to be. */
    method InjectGlobalStyles(arg: StyleArg)
      modifies this`head
      ensures head == WithStyleText(old(head), GlobalCss(ArgColors(arg)))
    {
      var colors := ArgColors(arg);
      WriteStyleTag(GlobalCss(colors));
    }

    /**
     * `applyStylesToElements(selector, styles)`. `selectorValid` says whether the browser parses
     * `selector`; when it does not, the error is caught and nothing changes. Otherwise every
     * matched element that is not editable gets every entry as an important inline property.
     */
    method ApplyStylesToElements(selector: string, selectorValid: bool, styles: seq<(string, string)>)
      modifies this`body
      ensures |body| == |old(body)|
      ensures forall i :: 0 <= i < |body| ==>
                body[i] == (if selectorValid && selector in old(body)[i].matches && EditableSelector !in old(body)[i].matches
                            then old(body)[i].(style := SetAll(old(body)[i].style, styles))
                            else old(body)[i])
    {
      if !selectorValid {
        return;
      }
      var i := 0;
      while i < |body|
        invariant 0 <= i <= |body| == |old(body)|
        invariant forall j :: i <= j < |body| ==> body[j] == old(body)[j]
        invariant forall j :: 0 <= j < i ==>
                    body[j] == (if selector in old(body)[j].matches && EditableSelector !in old(body)[j].matches
                                then old(body)[j].(style := SetAll(old(body)[j].style, styles))
                                else old(body)[j])
      {
        var element := body[i];
        if selector in element.matches && EditableSelector !in element.matches {
          var style := SetProperties(element.style, styles);
          body := body[i := element.(style := style)];
        }
        i := i + 1;
      }
    }
  }

  /** The inner loop of `applyStylesToElements`: one `setProperty` per entry. */
  method SetProperties(style: map<string, StyleValue>, entries: seq<(string, string)>) returns (r: map<string, StyleValue>)
    ensures r == SetAll(style, entries)
    ensures forall p :: LastValue(entries, p).Some? ==> p in r && r[p] == StyleValue(LastValue(entries, p).value, "important")
    ensures forall p :: LastValue(entries, p).None? ==> (p in r <==> p in style) && (p in style ==> r[p] == style[p])
  {
    r := style;
    var j := 0;
    while j < |entries|
      invariant 0 <= j <= |entries|
      invariant SetAll(r, entries[j..]) == SetAll(style, entries)
    {
      assert entries[j..][1..] == entries[j + 1..];
      r := r[entries[j].0 := StyleValue(entries[j].1, "important")];
      j := j + 1;
    }
    assert entries[j..] == [];
    forall p ensures LastValue(entries, p).Some? ==> p in r && r[p] == StyleValue(LastValue(entries, p).value, "important")
      ensures LastValue(entries, p).None? ==> (p in r <==> p in style) && (p in style ==> r[p] == style[p]) {
      SetAllSpec(style, entries, p);
    }
  }
}
