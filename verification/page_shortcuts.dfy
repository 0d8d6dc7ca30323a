/** The page shortcut hook (src/hooks/usePageShortcuts.ts): one keydown
    handler that ignores keys typed into text fields, cycles through the
    page's tabs on Tab, and otherwise looks the lowered key up in a fixed
    map of theme and navigation actions. The handler's effect is returned
    as a value. */
module PageShortcuts {
  import opened Common
  import ThemeStore

  /** What a key press does: nothing, select a tab, set the theme or go to
      a path. */
  datatype Action = NoAction | SelectTab(tab: string) | SetTheme(theme: ThemeStore.Theme) | Navigate(path: string)

  /** The tab after `activeTab`, or `None` when it is not one of `tabs`
      (`indexOf` returns -1). */
  function NextTab(tabs: seq<string>, activeTab: string): (r: Option<string>)
    ensures r.None? <==> activeTab !in tabs
    ensures r.Some? ==> r.value in tabs
    ensures r.Some? ==> r.value == tabs[(FirstIndex(tabs, activeTab) + 1) % |tabs|]
  {
    if activeTab in tabs then Some(tabs[(FirstIndex(tabs, activeTab) + 1) % |tabs|]) else None
  }

  /** The `t` key: light when either dark flag is on, else dark. */
  function ThemeToggle(isDarkMode: bool, isDeepDarkMode: bool): (r: ThemeStore.Theme)
    ensures r == ThemeStore.Light <==> isDarkMode || isDeepDarkMode
    ensures r == ThemeStore.Dark <==> !isDarkMode && !isDeepDarkMode
  {
    if isDarkMode || isDeepDarkMode then ThemeStore.Light else ThemeStore.Dark
  }

  /** The page shortcut map, after lowering. */
  function Lookup(key: string, isDarkMode: bool, isDeepDarkMode: bool): (r: Action)
    ensures r.NoAction? <==> key !in {"t", "m", ",", ".", "/", "?", "escape"}
    ensures r.SetTheme? <==> key == "t"
    ensures key == "t" ==> r == SetTheme(ThemeToggle(isDarkMode, isDeepDarkMode))
    ensures key == "m" ==> r == Navigate("/dashboard/myPage?tab=profile")
    ensures key == "," ==> r == Navigate("/dashboard/myPage?tab=activity")
    ensures key == "." ==> r == Navigate("/dashboard/myPage?tab=settings")
    ensures key == "/" || key == "?" ==> r == Navigate("/dashboard/help?tab=overview")
    ensures key == "escape" ==> r == Navigate("/dashboard")
  {
    if key == "t" then SetTheme(ThemeToggle(isDarkMode, isDeepDarkMode))
    else if key == "m" then Navigate("/dashboard/myPage?tab=profile")
    else if key == "," then Navigate("/dashboard/myPage?tab=activity")
    else if key == "." then Navigate("/dashboard/myPage?tab=settings")
    else if key == "/" || key == "?" then Navigate("/dashboard/help?tab=overview")
    else if key == "escape" then Navigate("/dashboard")
    else NoAction
  }

  /** `handleKeyboardShortcuts`: `inTextField` is true when the target is
      an input, a textarea or an editable element. */
  function HandleKey(key: string, inTextField: bool, activeTab: string, tabs: seq<string>,
                     isDarkMode: bool, isDeepDarkMode: bool): (r: Action)
    ensures inTextField ==> r == NoAction
    ensures !inTextField && Lower(key) == "tab" ==>
              (activeTab !in tabs ==> r == NoAction)
              && (activeTab in tabs ==> r == SelectTab(NextTab(tabs, activeTab).value))
    ensures !inTextField && Lower(key) != "tab" ==> r == Lookup(Lower(key), isDarkMode, isDeepDarkMode)
    ensures r.SelectTab? ==> r.tab in tabs
  {
    if inTextField then NoAction
    else
      var k := Lower(key);
      if k == "tab" then
        match NextTab(tabs, activeTab)
        case Some(next) => SelectTab(next)
        case None => NoAction
      else Lookup(k, isDarkMode, isDeepDarkMode)
  }

  /** The lowered key is looked up, so a key and its upper-case form do
      the same thing. */
  lemma CaseInsensitive(key: string, inTextField: bool, activeTab: string, tabs: seq<string>,
                        isDarkMode: bool, isDeepDarkMode: bool)
    ensures HandleKey(Lower(key), inTextField, activeTab, tabs, isDarkMode, isDeepDarkMode)
            == HandleKey(key, inTextField, activeTab, tabs, isDarkMode, isDeepDarkMode)
  {
    LowerIdempotent(key);
  }

  /** The tab reached from `activeTab` after `n` Tab presses. */
  function Pressed(tabs: seq<string>, activeTab: string, n: nat): (r: string)
    requires activeTab in tabs
    ensures r in tabs
  {
    if n == 0 then activeTab else NextTab(tabs, Pressed(tabs, activeTab, n - 1)).value
  }

  /** With distinct tabs, one Tab press from the tab at index `j` reaches
      the next index, or the first after the last. */
  lemma PressStep(tabs: seq<string>, j: nat)
    requires NoDups(tabs) && j < |tabs|
    ensures NextTab(tabs, tabs[j]) == Some(tabs[if j + 1 < |tabs| then j + 1 else 0])
  {
    assert FirstIndex(tabs, tabs[j]) == j;
    assert (j + 1) % |tabs| == if j + 1 < |tabs| then j + 1 else 0;
  }

  /** One more press from a tab reached at index `j` moves to the next
      index, or to the first after the last. */
  lemma PressedStep(tabs: seq<string>, activeTab: string, k: nat, j: nat)
    requires NoDups(tabs) && activeTab in tabs && k > 0 && j < |tabs|
    requires Pressed(tabs, activeTab, k - 1) == tabs[j]
    ensures Pressed(tabs, activeTab, k) == tabs[if j + 1 < |tabs| then j + 1 else 0]
  {
    PressStep(tabs, j);
  }

  /** With distinct tabs, `k <= n` presses from the tab at index `i` reach
      the tab `k` places on, wrapping round once past the end. */
  lemma {:induction false} PressedIndex(tabs: seq<string>, i: nat, k: nat)
    requires NoDups(tabs) && i < |tabs| && k <= |tabs|
    ensures Pressed(tabs, tabs[i], k) == tabs[if i + k < |tabs| then i + k else i + k - |tabs|]
  {
    if k > 0 {
      PressedIndex(tabs, i, k - 1);
      var n := |tabs|;
      var j := if i + k - 1 < n then i + k - 1 else i + k - 1 - n;
      PressedStep(tabs, tabs[i], k, j);
      assert (if j + 1 < n then j + 1 else 0) == (if i + k < n then i + k else i + k - n);
    }
  }

  /** With distinct tabs, pressing Tab once per tab returns to the start. */
  lemma FullCycle(tabs: seq<string>, activeTab: string)
    requires NoDups(tabs) && activeTab in tabs
    ensures Pressed(tabs, activeTab, |tabs|) == activeTab
  {
    PressedIndex(tabs, FirstIndex(tabs, activeTab), |tabs|);
  }
}
