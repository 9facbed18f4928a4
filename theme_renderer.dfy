/** The preset list in the popup: pagination, the active card and the current-theme label. */
module ThemeRenderer {
  import opened Wrappers
  import opened Palette

  /** Cards per page. */
  const ThemesPerPage := 6

  /** `Math.ceil(n / 6)`. */
  function TotalPages(n: nat): (t: nat)
    ensures t * ThemesPerPage >= n
    ensures n > 0 ==> (t - 1) * ThemesPerPage < n
    ensures n == 0 <==> t == 0
  {
    (n + ThemesPerPage - 1) / ThemesPerPage
  }

  /** An index given to `Array.prototype.slice`: counted from the end when negative, then clamped. */
  function SliceIndex(i: int, len: nat): (k: nat)
    ensures k <= len
  {
    if i < 0 then (if len + i < 0 then 0 else len + i) else if i > len then len else i
  }

  /** `list.slice(start, end)`. */
  function Slice<T>(list: seq<T>, start: int, end: int): (r: seq<T>)
    ensures 0 <= start <= end ==> r == list[SliceIndex(start, |list|)..SliceIndex(end, |list|)]
  {
    var s, e := SliceIndex(start, |list|), SliceIndex(end, |list|);
    if s < e then list[s..e] else []
  }

  /** The themes page `page` shows: from `(page - 1) * 6` up to six further. */
  function PageSlice(themes: seq<Theme>, page: int): seq<Theme> {
    var start := (page - 1) * ThemesPerPage;
    Slice(themes, start, start + ThemesPerPage)
  }

  /** A card is highlighted when there is a current theme with the card's id. */
  predicate IsActive(current: Option<Theme>, theme: Theme) {
    current.Some? && current.value.id == theme.id
  }

  /** One card: the theme and whether it is highlighted. */
  datatype Card = Card(theme: Theme, active: bool)

  /** What `renderThemes` puts on screen, or nothing when the presets are not loaded. */
  datatype View = NotRendered
                | Rendered(totalPages: nat, cards: seq<Card>, prevDisabled: bool, nextDisabled: bool, page: int)

  /** The cards for a list of themes. */
  function Cards(themes: seq<Theme>, current: Option<Theme>): (cs: seq<Card>)
    ensures |cs| == |themes|
    ensures forall i :: 0 <= i < |themes| ==> cs[i] == Card(themes[i], IsActive(current, themes[i]))
  {
    if themes == [] then [] else [Card(themes[0], IsActive(current, themes[0]))] + Cards(themes[1..], current)
  }

  /** `renderThemes(currentPage, currentTheme)` over the preset list, `None` when it is undefined. */
  function RenderThemes(presets: Option<seq<Theme>>, page: int, current: Option<Theme>): (v: View)
    ensures presets.None? <==> v.NotRendered?
    ensures presets.Some? ==>
              && v.totalPages == TotalPages(|presets.value|)
              && |v.cards| <= ThemesPerPage
              && (forall i :: 0 <= i < |v.cards| ==> v.cards[i].theme in presets.value)
              && (forall i :: 0 <= i < |v.cards| ==>
                    (v.cards[i].active <==> current.Some? && current.value.id == v.cards[i].theme.id))
              && (v.prevDisabled <==> page == 1)
              && (v.nextDisabled <==> page == TotalPages(|presets.value|))
              && v.cards == Cards(PageSlice(presets.value, page), current)
  {
    if presets.None? then NotRendered
    else
      var themes := presets.value;
      var shown := PageSlice(themes, page);
      PageSliceBounds(themes, page);
      var total := TotalPages(|themes|);
      Rendered(total, Cards(shown, current), page == 1, page == total, page)
  }

  /** Every page holds at most six themes, all of them from the list. */
  lemma PageSliceBounds(themes: seq<Theme>, page: int)
    ensures |PageSlice(themes, page)| <= ThemesPerPage
    ensures forall t :: t in PageSlice(themes, page) ==> t in themes
  {
  }

  /** On a page from 1 to the last, the page shows the slice `[(p - 1) * 6, p * 6)` clamped to the list. */
  lemma PageSliceOfPage(themes: seq<Theme>, page: int)
    requires 1 <= page <= TotalPages(|themes|)
    ensures var start := (page - 1) * ThemesPerPage;
            var end := if page * ThemesPerPage <= |themes| then page * ThemesPerPage else |themes|;
            start < end && PageSlice(themes, page) == themes[start..end]
  {
  }

  /** Pages 1 to `k` one after the other. */
  function PagesUpTo(themes: seq<Theme>, k: nat): seq<Theme> {
    if k == 0 then [] else PagesUpTo(themes, k - 1) + PageSlice(themes, k)
  }

  /** Where page `k` ends: after `6 * k` themes, or at the end of the list. */
  function PagesEnd(n: nat, k: nat): (e: nat)
    ensures e <= n
  {
    if k * ThemesPerPage <= n then k * ThemesPerPage else n
  }

  /** The first `k` pages are the first `6 * k` themes, or all of them. */
  lemma {:induction false} PagesUpToPrefix(themes: seq<Theme>, k: nat)
    ensures PagesUpTo(themes, k) == themes[..PagesEnd(|themes|, k)]
  {
    if k > 0 {
      PagesUpToPrefix(themes, k - 1);
      var a, b := PagesEnd(|themes|, k - 1), PagesEnd(|themes|, k);
      assert PageSlice(themes, k) == themes[a..b];
      assert themes[..a] + themes[a..b] == themes[..b];
    }
  }

  /** All pages together list every theme exactly once, in order. */
  lemma PagesCoverList(themes: seq<Theme>)
    ensures PagesUpTo(themes, TotalPages(|themes|)) == themes
  {
    PagesUpToPrefix(themes, TotalPages(|themes|));
    assert themes[..|themes|] == themes;
  }

  /** On any page from 1 to the last at least one card is shown. */
  lemma PagesNotEmpty(themes: seq<Theme>, page: int)
    requires 1 <= page <= TotalPages(|themes|)
    ensures PageSlice(themes, page) != []
  {
    PageSliceOfPage(themes, page);
  }

  /**
   * On a page from 1 to the last, the cards are the themes from position `(page - 1) * 6`
   * on, in list order, up to the page's end.
   */
  lemma RenderedPage(presets: seq<Theme>, page: int, current: Option<Theme>)
    requires 1 <= page <= TotalPages(|presets|)
    ensures var v := RenderThemes(Some(presets), page, current);
            var start := (page - 1) * ThemesPerPage;
            && |v.cards| == PagesEnd(|presets|, page) - start
            && forall i :: 0 <= i < |v.cards| ==> v.cards[i].theme == presets[start + i]
  {
    PageSliceOfPage(presets, page);
  }

  /** A page past the last shows no cards. */
  lemma PastLastPage(presets: seq<Theme>, page: int, current: Option<Theme>)
    requires page > TotalPages(|presets|)
    ensures RenderThemes(Some(presets), page, current).cards == []
  {
  }

  /** The label beside "current theme": the theme's name, or "없음" when there is none. */
  function CurrentThemeLabel(theme: Option<Theme>): (text: string)
    ensures theme.Some? ==> text == theme.value.name
    ensures theme.None? ==> text == "없음"
  {
    if theme.Some? then theme.value.name else "없음"
  }
}
