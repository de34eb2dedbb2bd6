/** The four colour themes and the toggle that steps through them. */
module Themes {
  import opened Lists

  const ThemeList: seq<string> := ["default", "dark", "pastel", "minimal"]

  const DefaultTheme: string := "default"

  /** `cycleTheme`'s choice: the theme after the current one in the list,
      wrapping from the last to the first; a current theme that is not in
      the list (`indexOf` gives -1) is followed by the first. */
  function NextTheme(current: string): (r: string)
    ensures r in ThemeList
    ensures current !in ThemeList ==> r == DefaultTheme
    ensures current in ThemeList ==>
      IndexOf(ThemeList, r) == (IndexOf(ThemeList, current) + 1) % |ThemeList|
  {
    var currentIndex := IndexOf(ThemeList, current);
    var nextIndex := (currentIndex + 1) % |ThemeList|;
    ThemeIndices(nextIndex);
    ThemeList[nextIndex]
  }

  /** The list has no repeats, so a theme's position finds it again. */
  lemma ThemeIndices(k: int)
    requires 0 <= k < |ThemeList|
    ensures IndexOf(ThemeList, ThemeList[k]) == k
  {
    assert ThemeList[1..] == ["dark", "pastel", "minimal"];
    assert ThemeList[1..][1..] == ["pastel", "minimal"];
    assert ThemeList[1..][1..][1..] == ["minimal"];
  }

  /** The toggle's order: from the theme at position `k` it goes to the
      one after it (default, dark, pastel, minimal), and from the last one
      back to the first. */
  lemma NextThemeAt(k: int)
    requires 0 <= k < |ThemeList|
    ensures NextTheme(ThemeList[k]) == ThemeList[(k + 1) % |ThemeList|]
  {
    ThemeIndices(k);
  }
}
