/** The bottom menu: its five items, the catalog search that names the Juriflix
    item's target, the click handler, and the mobile left/centre/right layout. */
module FooterMenu {
  import opened Optional
  import opened Text
  import opened Seqs
  import opened Catalog
  import Navigation

  /** `func.funcao.toLowerCase().includes(searchTerm.toLowerCase())` */
  predicate Matches(f: FunctionRecord, term: string) {
    Contains(Lower(f.funcao), Lower(term))
  }

  /** The position `functions.find` stops at: the first matching entry, or
      `|functions|` when none matches. */
  function FindIndex(functions: seq<FunctionRecord>, term: string): (i: nat)
    ensures i <= |functions|
    ensures i < |functions| ==> Matches(functions[i], term)
    ensures forall j | 0 <= j < i :: !Matches(functions[j], term)
  {
    if functions == [] then 0
    else if Matches(functions[0], term) then 0
    else 1 + FindIndex(functions[1..], term)
  }

  /** When `find` runs off the end, no entry matches. */
  lemma NothingFoundNoMatch(functions: seq<FunctionRecord>, term: string)
    requires FindIndex(functions, term) == |functions|
    ensures forall f | f in functions :: !Matches(f, term)
  {
    forall f | f in functions ensures !Matches(f, term) {
      var j :| 0 <= j < |functions| && functions[j] == f;
    }
  }

  /** `findFunction(term)`: nothing exactly when no entry matches, and
      otherwise a matching catalog entry. */
  function FindFunction(functions: seq<FunctionRecord>, term: string): (r: Option<FunctionRecord>)
    ensures r.None? <==> forall f | f in functions :: !Matches(f, term)
    ensures r.Some? ==> r.value in functions && Matches(r.value, term)
  {
    var i := FindIndex(functions, term);
    if i < |functions| then Some(functions[i])
    else NothingFoundNoMatch(functions, term); None
  }

  /** The search finds nothing exactly when no entry matches, and otherwise
      the first matching entry in catalog order. */
  lemma FindFunctionIsFirstMatch(functions: seq<FunctionRecord>, term: string)
    ensures FindFunction(functions, term).None? <==> forall f | f in functions :: !Matches(f, term)
    ensures FindFunction(functions, term).Some? ==>
      exists i | 0 <= i < |functions| ::
        functions[i] == FindFunction(functions, term).value && Matches(functions[i], term)
        && forall j | 0 <= j < i :: !Matches(functions[j], term)
  {
  }

  /** The search ignores case on both sides. */
  lemma FindFunctionIgnoresCase(functions: seq<FunctionRecord>, a: string, b: string)
    requires Lower(a) == Lower(b)
    ensures FindFunction(functions, a) == FindFunction(functions, b)
  {
  }

  /** One menu entry: its id, label, target function, colour key and whether it
      is the highlighted one. */
  datatype MenuItem = MenuItem(id: string, title: string, target: string, color: string, special: bool)

  const AssistantId := "assistenteia"

  /** `findFunction('juriflix')?.funcao || 'Juriflix'` */
  function JuriflixTarget(functions: seq<FunctionRecord>): string {
    var found := FindFunction(functions, "juriflix");
    if found.Some? && found.value.funcao != "" then found.value.funcao else "Juriflix"
  }

  /** `menuItems`, built from the loaded catalog. */
  function MenuItems(functions: seq<FunctionRecord>): (items: seq<MenuItem>)
    ensures |items| == 5
    ensures items[3].id == AssistantId && items[3].special
    ensures forall i | 0 <= i < |items| :: items[i].target != ""
  {
    [
      MenuItem("home", "Cursos", "Cursos Preparatórios", "primary", false),
      MenuItem("vademecum", "Vade Mecum", "Vade Mecum Digital", "info", false),
      MenuItem("biblioteca", "Biblioteca", "Biblioteca Clássicos", "library", false),
      MenuItem(AssistantId, "Professora IA", "Assistente IA Jurídica", "special-ai", true),
      MenuItem("juriflix", "Juriflix", JuriflixTarget(functions), "community", false)
    ]
  }

  /** The Juriflix item opens the first catalog entry whose name mentions
      "juriflix" in any case, and the literal "Juriflix" when there is none. */
  lemma JuriflixItemTarget(functions: seq<FunctionRecord>)
    ensures MenuItems(functions)[4].target ==
      if exists f | f in functions :: Matches(f, "juriflix") then
        (if FindFunction(functions, "juriflix").value.funcao != "" then FindFunction(functions, "juriflix").value.funcao else "Juriflix")
      else "Juriflix"
    ensures MenuItems(functions)[4].target != ""
  {
    FindFunctionIsFirstMatch(functions, "juriflix");
  }

  /** Five items with distinct ids, exactly one of them special (the assistant). */
  lemma MenuShape(functions: seq<FunctionRecord>)
    ensures |MenuItems(functions)| == 5
    ensures forall i, j | 0 <= i < j < 5 :: MenuItems(functions)[i].id != MenuItems(functions)[j].id
    ensures forall i | 0 <= i < 5 :: MenuItems(functions)[i].special <==> i == 3
    ensures MenuItems(functions)[3].id == AssistantId
  {
  }

  predicate NotAssistant(item: MenuItem) {
    item.id != AssistantId
  }

  /** The mobile layout's three places. The left place is the first two items,
      which the remaining three complete to the whole menu. */
  function MobileLeft(items: seq<MenuItem>): (left: seq<MenuItem>)
    requires |items| == 5
    ensures |left| == 2 && left + items[2..] == items
  {
    items[..2]
  }

  /** The centre: the fourth item; when it is the assistant, the right place
      does not draw it again. */
  function MobileCentre(items: seq<MenuItem>): (centre: MenuItem)
    requires |items| == 5
    ensures items[3].id == AssistantId ==> centre.id == AssistantId && centre !in MobileRight(items)
  {
    items[3]
  }

  /** The right place: the last three items other than the assistant. */
  function MobileRight(items: seq<MenuItem>): (right: seq<MenuItem>)
    requires |items| == 5
    ensures |right| <= 3
    ensures forall item | item in right :: item in items[2..] && item.id != AssistantId
    ensures forall item | item in items[2..] && item.id != AssistantId :: item in right
  {
    FilterFacts(items[2..5], NotAssistant);
    assert items[2..5] == items[2..];
    Filter(items[2..5], NotAssistant)
  }

  /** On mobile, for five items of which only the fourth is the assistant, the
      right group is the third item followed by the fifth. */
  lemma MobileRightSkipsAssistant(items: seq<MenuItem>)
    requires |items| == 5
    requires forall i | 0 <= i < 5 :: items[i].id == AssistantId <==> i == 3
    ensures MobileRight(items) == [items[2], items[4]]
  {
    var p := NotAssistant;
    var tail := items[2..5];
    assert tail[1..][1..] == [items[4]];
    assert Filter(tail[1..][1..], p) == [items[4]];
    assert Filter(tail[1..], p) == [items[4]];
  }

  /** Every item is then drawn exactly once: the first two items, the fourth,
      and the third and fifth together are all five. */
  lemma MobilePlacesCoverItems(items: seq<MenuItem>)
    requires |items| == 5
    ensures multiset(MobileLeft(items)) + multiset{MobileCentre(items)} + multiset([items[2], items[4]]) == multiset(items)
  {
    assert items == MobileLeft(items) + [items[2], items[3], items[4]];
  }

  /** The menu itself has that shape: on mobile the library and Juriflix sit on
      the right and each item is drawn once. */
  lemma MobileLayoutOfMenu(functions: seq<FunctionRecord>)
    ensures var items := MenuItems(functions);
      && MobileLeft(items) == [items[0], items[1]]
      && MobileCentre(items).id == AssistantId
      && MobileRight(items) == [items[2], items[4]]
      && multiset(MobileLeft(items)) + multiset{MobileCentre(items)} + multiset(MobileRight(items)) == multiset(items)
  {
    MenuShape(functions);
    MobileRightSkipsAssistant(MenuItems(functions));
    MobilePlacesCoverItems(MenuItems(functions));
  }

  /** The menu's state: the highlighted item, whether the document analyser is
      open, and the shared navigation state. */
  class FooterMenuState {
    var activeItem: string
    var aiDocumentOpen: bool
    const nav: Navigation.NavigationState

    constructor (nav: Navigation.NavigationState)
      ensures activeItem == "home" && !aiDocumentOpen && this.nav == nav
    {
      activeItem := "home";
      aiDocumentOpen := false;
      this.nav := nav;
    }

    /** `isActive` for an item. */
    predicate IsActive(item: MenuItem)
      reads this
    {
      activeItem == item.id
    }

    /** `handleItemClick`: highlight the item; the assistant opens the document
        analyser and leaves the selection alone, any other item selects its
        target function. */
    method HandleItemClick(item: MenuItem)
      modifies this, nav
      ensures activeItem == item.id && IsActive(item)
      ensures item.id == AssistantId ==> aiDocumentOpen && nav.currentFunction == old(nav.currentFunction)
      ensures item.id != AssistantId ==>
        nav.currentFunction == Some(item.target) && aiDocumentOpen == old(aiDocumentOpen)
    {
      activeItem := item.id;
      if item.id == AssistantId {
        aiDocumentOpen := true;
      } else {
        nav.SetCurrentFunction(Some(item.target));
      }
    }

    /** The analyser's back button. */
    method CloseDocumentAnalyzer()
      modifies this
      ensures !aiDocumentOpen && activeItem == old(activeItem)
    {
      aiDocumentOpen := false;
    }
  }

  /** Since ids are distinct, at most one menu item is highlighted at a time. */
  lemma AtMostOneActive(menu: FooterMenuState, functions: seq<FunctionRecord>, i: int, j: int)
    requires 0 <= i < 5 && 0 <= j < 5
    requires menu.IsActive(MenuItems(functions)[i]) && menu.IsActive(MenuItems(functions)[j])
    ensures i == j
  {
    MenuShape(functions);
  }
}
