/**
 * Style sheets as lists of rules, and the text they render to. Every template of the
 * extension is one such list; its text is what ends up in a `<style>` element.
 */
module Css {
  import opened Strings

  /** `property: value` with or without `!important`. */
  datatype Decl = Decl(property: string, value: string, important: bool)

  /** `selector { declarations }` */
  datatype Rule = Rule(selector: string, decls: seq<Decl>)

  type Sheet = seq<Rule>

  function Important(property: string, value: string): Decl {
    Decl(property, value, true)
  }

  function Plain(property: string, value: string): Decl {
    Decl(property, value, false)
  }

  function RenderDecl(d: Decl): string {
    "  " + d.property + ": " + d.value + (if d.important then " !important" else "") + ";\n"
  }

  function RenderDecls(ds: seq<Decl>): string {
    if ds == [] then "" else RenderDecl(ds[0]) + RenderDecls(ds[1..])
  }

  function RenderRule(r: Rule): string {
    r.selector + " {\n" + RenderDecls(r.decls) + "}\n"
  }

  /** The text of a sheet: its rules in order. */
  function Render(sheet: Sheet): string {
    if sheet == [] then "" else RenderRule(sheet[0]) + Render(sheet[1..])
  }

  /** The style text `css` contains rule `r`, written out. */
  predicate HasRule(css: string, r: Rule) {
    Contains(css, RenderRule(r))
  }

  /** Every rule of a sheet appears, as text, in the sheet's rendering. */
  lemma {:induction false} RenderContainsRule(sheet: Sheet, i: nat)
    requires i < |sheet|
    ensures HasRule(Render(sheet), sheet[i])
  {
    if i == 0 {
      ContainsOwnPrefix(RenderRule(sheet[0]), Render(sheet[1..]));
    } else {
      RenderContainsRule(sheet[1..], i - 1);
      ContainsAfter(RenderRule(sheet[0]), Render(sheet[1..]), RenderRule(sheet[i]));
    }
  }

  /** Rendering distributes over concatenation of sheets. */
  lemma {:induction false} RenderAppend(a: Sheet, b: Sheet)
    ensures Render(a + b) == Render(a) + Render(b)
  {
    if a == [] {
      assert a + b == b;
    } else {
      assert (a + b)[1..] == a[1..] + b;
      RenderAppend(a[1..], b);
    }
  }

  /** A rule's text is never empty, so neither is a non-empty sheet's. */
  lemma RenderNonEmpty(sheet: Sheet)
    requires sheet != []
    ensures Render(sheet) != []
  {
    assert |RenderRule(sheet[0])| > 0;
  }

  /** A rule the first sheet shows is shown by any sheet that extends it. */
  lemma HasRuleBefore(a: Sheet, b: Sheet, r: Rule)
    requires HasRule(Render(a), r)
    ensures HasRule(Render(a + b), r)
  {
    RenderAppend(a, b);
    ContainsBefore(Render(a), Render(b), RenderRule(r));
  }

  /** A rule the second sheet shows is shown after any prefix is put before it. */
  lemma HasRuleAfter(a: Sheet, b: Sheet, r: Rule)
    requires HasRule(Render(b), r)
    ensures HasRule(Render(a + b), r)
  {
    RenderAppend(a, b);
    ContainsAfter(Render(a), Render(b), RenderRule(r));
  }

  /** The groups of a sheet, one after another. */
  function Flatten(groups: seq<Sheet>): Sheet {
    if groups == [] then [] else groups[0] + Flatten(groups[1..])
  }

  /** Every rule of every group appears in the rendering of the whole sheet. */
  lemma {:induction false} RuleInFlatten(groups: seq<Sheet>, g: nat, i: nat)
    requires g < |groups| && i < |groups[g]|
    ensures HasRule(Render(Flatten(groups)), groups[g][i])
  {
    if g == 0 {
      RenderContainsRule(groups[0], i);
      HasRuleBefore(groups[0], Flatten(groups[1..]), groups[0][i]);
    } else {
      RuleInFlatten(groups[1..], g - 1, i);
      HasRuleAfter(groups[0], Flatten(groups[1..]), groups[g][i]);
    }
  }

  /** A rule is in the whole sheet exactly when it is in one of the groups. */
  lemma {:induction false} FlattenMember(groups: seq<Sheet>, r: Rule)
    ensures r in Flatten(groups) <==> exists g :: 0 <= g < |groups| && r in groups[g]
  {
    if groups != [] {
      FlattenMember(groups[1..], r);
      if r in Flatten(groups[1..]) {
        var g :| 0 <= g < |groups[1..]| && r in groups[1..][g];
        assert r in groups[g + 1];
      }
      if exists g :: 0 <= g < |groups| && r in groups[g] {
        var g :| 0 <= g < |groups| && r in groups[g];
        if g > 0 { assert r in groups[1..][g - 1]; }
      }
    }
  }
}
