/** The help centre (src/pages/dashboard/help.tsx): the `tab` query
    parameter picks one of four tabs, the keyboard handler shares the page
    shortcut map and cycles the four tabs on Tab, and a search box narrows
    the two shortcut tables. */
module HelpPage {
  import opened Common
  import PageShortcuts

  const Tabs: seq<string> := ["overview", "guide", "shortcuts", "faq"]

  /** `searchParams.get('tab') || 'overview'`: a missing or empty parameter
      means the overview. */
  function ActiveTab(tabParam: Option<string>): (r: string)
    ensures tabParam.Some? && tabParam.value != [] ==> r == tabParam.value
    ensures tabParam.None? || tabParam.value == [] ==> r == "overview"
  {
    if tabParam.Some? && tabParam.value != [] then tabParam.value else "overview"
  }

  /** `tabs[(tabs.indexOf(activeTab) + 1) % 4]`: an unknown tab has index
      -1, so it moves to the first tab. */
  function NextTab(activeTab: string): (r: string)
    ensures r in Tabs
    ensures activeTab !in Tabs ==> r == "overview"
    ensures activeTab in Tabs ==> r == Tabs[(FirstIndex(Tabs, activeTab) + 1) % 4]
  {
    var index := if activeTab in Tabs then FirstIndex(Tabs, activeTab) else -1;
    Tabs[(index + 1) % 4]
  }

  /** The four tabs follow one another in a cycle. */
  lemma TabCycle()
    ensures NextTab("overview") == "guide" && NextTab("guide") == "shortcuts"
    ensures NextTab("shortcuts") == "faq" && NextTab("faq") == "overview"
  {
    assert FirstIndex(Tabs, "overview") == 0;
    assert FirstIndex(Tabs, "guide") == 1;
    assert FirstIndex(Tabs, "shortcuts") == 2;
    assert FirstIndex(Tabs, "faq") == 3;
  }

  /** Four presses return to any listed tab; an unlisted tab gets there
      after its first press. */
  lemma FourPresses(activeTab: string)
    ensures activeTab in Tabs ==> NextTab(NextTab(NextTab(NextTab(activeTab)))) == activeTab
    ensures NextTab(activeTab) in Tabs
  {
    TabCycle();
  }

  /** The help page's handler: text fields are ignored; Tab always moves
      (there is no not-found case here); any other key is looked up in the
      page shortcut map after lowering. */
  function HandleKey(key: string, inTextField: bool, activeTab: string,
                     isDarkMode: bool, isDeepDarkMode: bool): (r: PageShortcuts.Action)
    ensures inTextField ==> r.NoAction?
    ensures !inTextField && Lower(key) == "tab" ==> r == PageShortcuts.SelectTab(NextTab(activeTab))
    ensures !inTextField && Lower(key) != "tab" ==>
              r == PageShortcuts.Lookup(Lower(key), isDarkMode, isDeepDarkMode)
  {
    if inTextField then PageShortcuts.NoAction
    else if Lower(key) == "tab" then PageShortcuts.SelectTab(NextTab(activeTab))
    else PageShortcuts.Lookup(Lower(key), isDarkMode, isDeepDarkMode)
  }

  datatype Shortcut = Shortcut(key: string, description: string)

  datatype MarkdownShortcut = MarkdownShortcut(md: string, desc: string)

  const Shortcuts: seq<Shortcut> := [
    Shortcut("N", "노트 생성"),
    Shortcut("Ctrl + S", "노트 저장"),
    Shortcut("D or Del", "노트 삭제"),
    Shortcut("Tab", "탭 전환"),
    Shortcut("T", "테마 전환"),
    Shortcut("B", "사이드바 토글"),
    Shortcut("M", "마이페이지 열기"),
    Shortcut(", or <", "활동 열기"),
    Shortcut(". or >", "설정 열기"),
    Shortcut("/ or ?", "도움말 열기"),
    Shortcut("ESC", "메인 화면"),
    Shortcut("Alt + F4", "쌈@뽕한 종료")
  ]

  const MarkdownShortcuts: seq<MarkdownShortcut> := [
    MarkdownShortcut("# 제목", "헤딩 1"),
    MarkdownShortcut("## 부제목", "헤딩 2"),
    MarkdownShortcut("### 소제목", "헤딩 3"),
    MarkdownShortcut("**굵게**", "볼드"),
    MarkdownShortcut("*기울임*", "이탤릭"),
    MarkdownShortcut("`코드`", "인라인"),
    MarkdownShortcut("```코드블록```", "블록"),
    MarkdownShortcut("- 목록", "불릿"),
    MarkdownShortcut("1. 순서목록", "번호"),
    MarkdownShortcut("- [ ] 체크박스", "할 일"),
    MarkdownShortcut("[링크](url)", "링크"),
    MarkdownShortcut("![이미지](url)", "이미지"),
    MarkdownShortcut("> 인용", "인용문"),
    MarkdownShortcut("---", "구분선")
  ]

  predicate ShortcutMatches(s: Shortcut, lowered: string) {
    Mentions(s.description, lowered) || Mentions(s.key, lowered)
  }

  predicate MarkdownMatches(s: MarkdownShortcut, lowered: string) {
    Mentions(s.desc, lowered) || Mentions(s.md, lowered)
  }

  function ShortcutFilter(lowered: string): Shortcut -> bool {
    (s: Shortcut) => ShortcutMatches(s, lowered)
  }

  function MarkdownFilter(lowered: string): MarkdownShortcut -> bool {
    (s: MarkdownShortcut) => MarkdownMatches(s, lowered)
  }

  /** `filteredShortcuts`: the whole table for an empty term, otherwise the
      entries whose description or key contains the lowered term, in table
      order. */
  function FilteredShortcuts(searchTerm: string): (r: seq<Shortcut>)
    ensures searchTerm == [] ==> r == Shortcuts
    ensures searchTerm != [] ==> forall s :: s in r <==> s in Shortcuts && ShortcutMatches(s, Lower(searchTerm))
    ensures IsSubseq(r, Shortcuts)
  {
    var lowerCaseSearch := Lower(searchTerm);
    if lowerCaseSearch == [] then
      SubseqRefl(Shortcuts);
      Shortcuts
    else
      FilterSubseq(Shortcuts, ShortcutFilter(lowerCaseSearch));
      Filter(Shortcuts, ShortcutFilter(lowerCaseSearch))
  }

  /** `filteredMarkdownShortcuts`, the same over the markdown table. */
  function FilteredMarkdownShortcuts(searchTerm: string): (r: seq<MarkdownShortcut>)
    ensures searchTerm == [] ==> r == MarkdownShortcuts
    ensures searchTerm != [] ==>
              forall s :: s in r <==> s in MarkdownShortcuts && MarkdownMatches(s, Lower(searchTerm))
    ensures IsSubseq(r, MarkdownShortcuts)
  {
    var lowerCaseSearch := Lower(searchTerm);
    if lowerCaseSearch == [] then
      SubseqRefl(MarkdownShortcuts);
      MarkdownShortcuts
    else
      FilterSubseq(MarkdownShortcuts, MarkdownFilter(lowerCaseSearch));
      Filter(MarkdownShortcuts, MarkdownFilter(lowerCaseSearch))
  }

  /** Typing more narrows both lists: whatever a longer term finds, the
      term it extends finds too. */
  lemma TypingMoreNarrows(term: string, more: string)
    requires term != []
    ensures forall s :: s in FilteredShortcuts(term + more) ==> s in FilteredShortcuts(term)
    ensures forall s :: s in FilteredMarkdownShortcuts(term + more) ==> s in FilteredMarkdownShortcuts(term)
  {
    assert Lower(term + more) == Lower(term) + Lower(more);
    forall s: Shortcut | s in FilteredShortcuts(term + more)
      ensures s in FilteredShortcuts(term)
    {
      if Mentions(s.description, Lower(term + more)) {
        ContainsShorter(Lower(s.description), Lower(term), Lower(more));
      } else {
        ContainsShorter(Lower(s.key), Lower(term), Lower(more));
      }
    }
    forall s: MarkdownShortcut | s in FilteredMarkdownShortcuts(term + more)
      ensures s in FilteredMarkdownShortcuts(term)
    {
      if Mentions(s.desc, Lower(term + more)) {
        ContainsShorter(Lower(s.desc), Lower(term), Lower(more));
      } else {
        ContainsShorter(Lower(s.md), Lower(term), Lower(more));
      }
    }
  }
}
