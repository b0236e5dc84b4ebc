/** The function router: which screen to show for the selected function name
    and the catalog record found for it. */
module AppFunction {
  import opened Optional
  import opened Text
  import opened Catalog
  import opened Rules
  import Navigation

  /** The internal screens the router can choose. */
  datatype Component =
    | Downloads | PlataformaDesktop | Videoaulas | NoticiasJuridicas
    | BancoQuestoes | Flashcards | BibliotecaClassicos | Loja
    | AssistenteIA | PlanoEstudo | Redacao

  /** What the router renders. */
  datatype View =
    | Loading                             // the catalog is still loading
    | Nothing                             // no selection: render nothing
    | Internal(component: Component)      // a bundled feature screen
    | Embedded(link: string, title: string) // the record's link in a frame
    | Placeholder(title: string)          // "Funcionalidade em Desenvolvimento"

  // The four rules checked before the link: each tests the lower-cased name
  // for a substring, or the original name for an exact literal.

  predicate IsDownloads(name: string) {
    Contains(Lower(name), "downloads") || name == "Downloads"
  }

  predicate IsPlataformaDesktop(name: string) {
    Contains(Lower(name), "plataforma desktop") || name == "Plataforma Desktop"
  }

  predicate IsVideoaulas(name: string) {
    Contains(Lower(name), "videoaulas") || Contains(Lower(name), "vídeoaulas") || name == "Videoaulas"
  }

  predicate IsNoticias(name: string) {
    var low := Lower(name);
    || Contains(low, "notícias jurídicas") || Contains(low, "portais jurídicos")
    || Contains(low, "noticias juridicas") || Contains(low, "portais juridicos")
    || name == "Notícias Jurídicas" || name == "Portais Jurídicos"
  }

  predicate AlwaysInternalName(name: string) {
    IsDownloads(name) || IsPlataformaDesktop(name) || IsVideoaulas(name) || IsNoticias(name)
  }

  /** `functionData?.link && functionData.link.trim() !== ''` */
  predicate HasUsableLink(record: Option<FunctionRecord>) {
    record.Some? && record.value.link.Some? && !IsBlank(record.value.link.value)
  }

  /** `functionData.funcao || currentFunction` */
  function EmbeddedTitle(record: FunctionRecord, name: string): string {
    if record.funcao != "" then record.funcao else name
  }

  // The rules checked only when there is no usable link.

  predicate IsBancoQuestoes(name: string) {
    Contains(Lower(name), "banco de questões") || Contains(Lower(name), "banco questoes")
  }

  predicate IsFlashcards(name: string) {
    Contains(Lower(name), "flashcards")
  }

  predicate IsBibliotecaClassicos(name: string) {
    Contains(Lower(name), "biblioteca") && Contains(Lower(name), "clássicos")
  }

  predicate IsLoja(name: string) {
    Contains(Lower(name), "loja")
  }

  predicate IsAssistente(name: string) {
    Contains(Lower(name), "assistente") || name == "Assistente IA Jurídica" || name == "Assistente IA"
  }

  predicate IsPlano(name: string) {
    Contains(Lower(name), "plano") || name == "Plano de Estudo"
  }

  predicate IsRedacao(name: string) {
    Contains(Lower(name), "redação") || Contains(Lower(name), "redacao") || name == "Redação"
  }

  /** The screens that are shown whether or not the record has a link. */
  predicate AlwaysInternalComponent(c: Component) {
    c == Downloads || c == PlataformaDesktop || c == Videoaulas || c == NoticiasJuridicas
  }

  /** The first four rules, checked before the record's link. */
  function AlwaysInternalScreen(name: string): (r: Option<Component>)
    ensures r.Some? <==> AlwaysInternalName(name)
    ensures r.Some? ==> AlwaysInternalComponent(r.value)
  {
    if IsDownloads(name) then Some(Downloads)
    else if IsPlataformaDesktop(name) then Some(PlataformaDesktop)
    else if IsVideoaulas(name) then Some(Videoaulas)
    else if IsNoticias(name) then Some(NoticiasJuridicas)
    else None
  }

  /** The rules after the link, ending in the placeholder. */
  function LinkLessScreen(name: string): (v: View)
    ensures v.Internal? || v == Placeholder(name)
    ensures v.Internal? ==> !AlwaysInternalComponent(v.component)
    ensures v.Placeholder? <==>
      && !IsBancoQuestoes(name) && !IsFlashcards(name) && !IsBibliotecaClassicos(name)
      && !IsLoja(name) && !IsAssistente(name) && !IsPlano(name) && !IsRedacao(name)
  {
    if IsBancoQuestoes(name) then Internal(BancoQuestoes)
    else if IsFlashcards(name) then Internal(Flashcards)
    else if IsBibliotecaClassicos(name) then Internal(BibliotecaClassicos)
    else if IsLoja(name) then Internal(Loja)
    else if IsAssistente(name) then Internal(AssistenteIA)
    else if IsPlano(name) then Internal(PlanoEstudo)
    else if IsRedacao(name) then Internal(Redacao)
    else Placeholder(name)
  }

  /** The router: `loading` is the catalog hook's flag, `selection` the navigation
      state's current function, `record` what the catalog lookup found for it. */
  function Resolve(loading: bool, selection: Option<string>, record: Option<FunctionRecord>): (v: View)
    ensures v == Loading <==> loading
    ensures v == Nothing <==> !loading && (selection.None? || selection.value == "")
    ensures v.Embedded? ==> HasUsableLink(record) && v.link == record.value.link.value
    ensures v.Internal? && HasUsableLink(record) ==> AlwaysInternalComponent(v.component)
    ensures v.Placeholder? ==> selection == Some(v.title) && !HasUsableLink(record)
  {
    if loading then Loading
    else if selection.None? || selection.value == "" then Nothing
    else
      var name := selection.value;
      match AlwaysInternalScreen(name)
      case Some(c) => Internal(c)
      case None =>
        if HasUsableLink(record) then Embedded(record.value.link.value, EmbeddedTitle(record.value, name))
        else LinkLessScreen(name)
  }

  /** `handleBack`: the back button clears the navigation selection. */
  method HandleBack(nav: Navigation.NavigationState)
    modifies nav
    ensures nav.currentFunction == None
  {
    nav.SetCurrentFunction(None);
  }

  // ---------------------------------------------------------------------
  // The same policy as data: an ordered rule table over the lower-cased name
  // alone, with the link rule between its two halves.

  const AlwaysInternalRules: seq<Rule<Component>> := [
    Rule([], [["downloads"]], Downloads),
    Rule([], [["plataforma desktop"]], PlataformaDesktop),
    Rule([], [["videoaulas"], ["vídeoaulas"]], Videoaulas),
    Rule([], [["notícias jurídicas"], ["portais jurídicos"], ["noticias juridicas"], ["portais juridicos"]], NoticiasJuridicas)
  ]

  const LinkLessRules: seq<Rule<Component>> := [
    Rule([], [["banco de questões"], ["banco questoes"]], BancoQuestoes),
    Rule([], [["flashcards"]], Flashcards),
    Rule([], [["biblioteca", "clássicos"]], BibliotecaClassicos),
    Rule([], [["loja"]], Loja),
    Rule([], [["assistente"]], AssistenteIA),
    Rule([], [["plano"]], PlanoEstudo),
    Rule([], [["redação"], ["redacao"]], Redacao)
  ]

  /** The reference router: first-match over the two rule tables. */
  function ResolveByTable(loading: bool, selection: Option<string>, record: Option<FunctionRecord>): (v: View)
    ensures v == Loading <==> loading
    ensures v == Nothing <==> !loading && (selection.None? || selection.value == "")
    ensures v.Embedded? ==> HasUsableLink(record) && v.link == record.value.link.value
    ensures v.Internal? && HasUsableLink(record) ==> AlwaysInternalComponent(v.component)
    ensures v.Placeholder? ==> selection == Some(v.title) && !HasUsableLink(record)
  {
    if loading then Loading
    else if selection.None? || selection.value == "" then Nothing
    else
      var name := selection.value;
      var low := Lower(name);
      var k := FirstFiring(AlwaysInternalRules, 0, low);
      if k < |AlwaysInternalRules| then Internal(AlwaysInternalRules[k].target)
      else if HasUsableLink(record) then Embedded(record.value.link.value, EmbeddedTitle(record.value, name))
      else
        var j := FirstFiring(LinkLessRules, 0, low);
        if j < |LinkLessRules| then Internal(LinkLessRules[j].target) else Placeholder(name)
  }

  /** Every exact-equality disjunct of the first four rules is implied by
      the substring test on the lower-cased name beside it. */
  lemma ExactLiteralsRedundantBeforeLink()
    ensures Contains(Lower("Downloads"), "downloads")
    ensures Contains(Lower("Plataforma Desktop"), "plataforma desktop")
    ensures Contains(Lower("Videoaulas"), "videoaulas")
    ensures Contains(Lower("Notícias Jurídicas"), "notícias jurídicas")
    ensures Contains(Lower("Portais Jurídicos"), "portais jurídicos")
  {
    assert OccursAt(Lower("Downloads"), "downloads", 0);
    assert OccursAt(Lower("Plataforma Desktop"), "plataforma desktop", 0);
    assert OccursAt(Lower("Videoaulas"), "videoaulas", 0);
    assert OccursAt(Lower("Notícias Jurídicas"), "notícias jurídicas", 0);
    assert OccursAt(Lower("Portais Jurídicos"), "portais jurídicos", 0);
  }

  /** The same for the exact literals of the rules after the link. */
  lemma ExactLiteralsRedundantAfterLink()
    ensures Contains(Lower("Assistente IA Jurídica"), "assistente")
    ensures Contains(Lower("Assistente IA"), "assistente")
    ensures Contains(Lower("Plano de Estudo"), "plano")
    ensures Contains(Lower("Redação"), "redação")
  {
    assert OccursAt(Lower("Assistente IA Jurídica"), "assistente", 0);
    assert OccursAt(Lower("Assistente IA"), "assistente", 0);
    assert OccursAt(Lower("Plano de Estudo"), "plano", 0);
    assert OccursAt(Lower("Redação"), "redação", 0);
  }

  /** Each rule of the first table fires on the lower-cased name exactly
      when the cascade's test for the same screen holds. */
  lemma AlwaysInternalRulesMatchTests(name: string)
    ensures Fires(AlwaysInternalRules[0], 0, Lower(name)) <==> IsDownloads(name)
    ensures Fires(AlwaysInternalRules[1], 0, Lower(name)) <==> IsPlataformaDesktop(name)
    ensures Fires(AlwaysInternalRules[2], 0, Lower(name)) <==> IsVideoaulas(name)
    ensures Fires(AlwaysInternalRules[3], 0, Lower(name)) <==> IsNoticias(name)
  {
    var low := Lower(name);
    ExactLiteralsRedundantBeforeLink();
    FiresUnfolded(AlwaysInternalRules[0], 0, low);
    FiresUnfolded(AlwaysInternalRules[1], 0, low);
    FiresUnfolded(AlwaysInternalRules[2], 0, low);
    FiresUnfolded(AlwaysInternalRules[3], 0, low);
  }

  /** The same for the second table. */
  lemma LinkLessRulesMatchTests(name: string)
    ensures Fires(LinkLessRules[0], 0, Lower(name)) <==> IsBancoQuestoes(name)
    ensures Fires(LinkLessRules[1], 0, Lower(name)) <==> IsFlashcards(name)
    ensures Fires(LinkLessRules[2], 0, Lower(name)) <==> IsBibliotecaClassicos(name)
    ensures Fires(LinkLessRules[3], 0, Lower(name)) <==> IsLoja(name)
    ensures Fires(LinkLessRules[4], 0, Lower(name)) <==> IsAssistente(name)
    ensures Fires(LinkLessRules[5], 0, Lower(name)) <==> IsPlano(name)
    ensures Fires(LinkLessRules[6], 0, Lower(name)) <==> IsRedacao(name)
  {
    var low := Lower(name);
    ExactLiteralsRedundantAfterLink();
    FiresUnfolded(LinkLessRules[0], 0, low);
    FiresUnfolded(LinkLessRules[1], 0, low);
    FiresUnfolded(LinkLessRules[2], 0, low);
    FiresUnfolded(LinkLessRules[3], 0, low);
    FiresUnfolded(LinkLessRules[4], 0, low);
    FiresUnfolded(LinkLessRules[5], 0, low);
    FiresUnfolded(LinkLessRules[6], 0, low);
  }

  /** The cascade is exactly the rule tables: same decision on every input. */
  lemma ResolveAgreesWithTable(loading: bool, selection: Option<string>, record: Option<FunctionRecord>)
    ensures Resolve(loading, selection, record) == ResolveByTable(loading, selection, record)
  {
    if !loading && selection.Some? && selection.value != "" {
      AlwaysInternalRulesMatchTests(selection.value);
      LinkLessRulesMatchTests(selection.value);
    }
  }

  // ---------------------------------------------------------------------
  // Properties of the router.

  /** While the catalog loads nothing else matters; without a selection
      (null or the empty string) nothing is rendered. */
  lemma LoadingAndEmptySelection(loading: bool, selection: Option<string>, record: Option<FunctionRecord>)
    ensures loading ==> Resolve(loading, selection, record) == Loading
    ensures !loading && (selection.None? || selection.value == "") ==> Resolve(loading, selection, record) == Nothing
    ensures !loading && selection.Some? && selection.value != "" ==>
      var v := Resolve(loading, selection, record); v.Internal? || v.Embedded? || v.Placeholder?
  {
  }

  /** The four always-internal screens win whatever record the catalog holds,
      including one with a usable link. */
  lemma AlwaysInternalIgnoresRecord(name: string, r1: Option<FunctionRecord>, r2: Option<FunctionRecord>)
    requires name != "" && AlwaysInternalName(name)
    ensures Resolve(false, Some(name), r1).Internal?
    ensures Resolve(false, Some(name), r1) == Resolve(false, Some(name), r2)
  {
  }

  /** Once the four always-internal rules fail, a usable link wins over every
      later rule; the title is the record's name, or the selection when that is empty. */
  lemma LinkPrecedence(name: string, record: Option<FunctionRecord>)
    requires name != "" && !AlwaysInternalName(name) && HasUsableLink(record)
    ensures Resolve(false, Some(name), record)
      == Embedded(record.value.link.value, if record.value.funcao == "" then name else record.value.funcao)
  {
  }

  /** A link that is absent, empty or only whitespace is treated as no record at all. */
  lemma BlankLinkIsIgnored(name: string, f: FunctionRecord)
    requires f.link.None? || AllWhitespace(f.link.value)
    ensures Resolve(false, Some(name), Some(f)) == Resolve(false, Some(name), None)
  {
    if f.link.Some? {
      BlankIffAllWhitespace(f.link.value);
    }
  }

  /** Order among the link-less rules: "assistente" outranks "plano" and
      "redação", "plano" outranks "redação", and the classics library needs
      both of its keywords. */
  lemma LinkLessOrdering(name: string, record: Option<FunctionRecord>)
    ensures Contains(Lower(name), "assistente") ==>
      Resolve(false, Some(name), record) != Internal(PlanoEstudo) && Resolve(false, Some(name), record) != Internal(Redacao)
    ensures Contains(Lower(name), "plano") ==> Resolve(false, Some(name), record) != Internal(Redacao)
    ensures Resolve(false, Some(name), record) == Internal(BibliotecaClassicos) ==>
      Contains(Lower(name), "biblioteca") && Contains(Lower(name), "clássicos")
  {
  }

  /** The fallback keeps the selected name exactly as written. */
  lemma PlaceholderKeepsName(name: string, record: Option<FunctionRecord>)
    requires Resolve(false, Some(name), record).Placeholder?
    ensures Resolve(false, Some(name), record).title == name
    ensures !HasUsableLink(record)
  {
  }

  /** Routing depends on the name only through its lower-cased form: names
      that lower-case alike reach the same internal screen or the same link,
      or both fall back. */
  lemma RoutingIsCaseInsensitive(a: string, b: string, record: Option<FunctionRecord>)
    requires a != "" && b != "" && Lower(a) == Lower(b)
    ensures Resolve(false, Some(a), record).Internal? ==> Resolve(false, Some(a), record) == Resolve(false, Some(b), record)
    ensures Resolve(false, Some(a), record).Embedded? <==> Resolve(false, Some(b), record).Embedded?
    ensures Resolve(false, Some(a), record).Placeholder? <==> Resolve(false, Some(b), record).Placeholder?
  {
    ResolveAgreesWithTable(false, Some(a), record);
    ResolveAgreesWithTable(false, Some(b), record);
  }

  // Worked examples.

  /** "Downloads" stays internal even when its record carries a link. */
  lemma DownloadsIgnoresItsLink()
    ensures Resolve(false, Some("Downloads"), Some(FunctionRecord(2, "Downloads", None, Some("https://example.com"))))
      == Internal(Downloads)
  {
  }

  lemma LowerVadeMecum() ensures Lower("Vade Mecum Digital") == "vade mecum digital" { }

  lemma VadeMecumIsOrdinary()
    ensures !AlwaysInternalName("Vade Mecum Digital")
  {
    var low := "vade mecum digital";
    LowerVadeMecum();
    assert 'o' !in low;
    MissingCharNotContained(low, "downloads", 'o');
    MissingCharNotContained(low, "plataforma desktop", 'o');
    MissingCharNotContained(low, "videoaulas", 'o');
    MissingCharNotContained(low, "vídeoaulas", 'o');
    MissingCharNotContained(low, "notícias jurídicas", 'o');
    MissingCharNotContained(low, "portais jurídicos", 'o');
    MissingCharNotContained(low, "noticias juridicas", 'o');
    MissingCharNotContained(low, "portais juridicos", 'o');
  }

  /** An ordinary catalog entry with a link opens that link, titled by its name. */
  lemma VadeMecumOpensItsLink()
    ensures Resolve(false, Some("Vade Mecum Digital"),
                    Some(FunctionRecord(1, "Vade Mecum Digital", None, Some("https://vademecum.example.com"))))
      == Embedded("https://vademecum.example.com", "Vade Mecum Digital")
  {
    var link := "https://vademecum.example.com";
    VadeMecumIsOrdinary();
    VisibleStartNotBlank(link);
    LinkPrecedence("Vade Mecum Digital", Some(FunctionRecord(1, "Vade Mecum Digital", None, Some(link))));
  }

  lemma LowerPlanoDeEstudo() ensures Lower("Plano de Estudo") == "plano de estudo" { }

  lemma PlanoDeEstudoIsNotDownloadsOrDesktop()
    ensures !IsDownloads("Plano de Estudo") && !IsPlataformaDesktop("Plano de Estudo")
  {
    var low := "plano de estudo";
    LowerPlanoDeEstudo();
    assert 'w' !in low && 'r' !in low;
    MissingCharNotContained(low, "downloads", 'w');
    MissingCharNotContained(low, "plataforma desktop", 'r');
  }

  lemma PlanoDeEstudoIsNotVideoOrNews()
    ensures !IsVideoaulas("Plano de Estudo") && !IsNoticias("Plano de Estudo")
  {
    var low := "plano de estudo";
    LowerPlanoDeEstudo();
    assert 'r' !in low && 'v' !in low;
    MissingCharNotContained(low, "videoaulas", 'v');
    MissingCharNotContained(low, "vídeoaulas", 'v');
    MissingCharNotContained(low, "notícias jurídicas", 'r');
    MissingCharNotContained(low, "portais jurídicos", 'r');
    MissingCharNotContained(low, "noticias juridicas", 'r');
    MissingCharNotContained(low, "portais juridicos", 'r');
  }

  lemma PlanoDeEstudoIsOrdinary()
    ensures !AlwaysInternalName("Plano de Estudo")
  {
    PlanoDeEstudoIsNotDownloadsOrDesktop();
    PlanoDeEstudoIsNotVideoOrNews();
  }

  lemma PlanoDeEstudoPassesEarlierRules()
    ensures !IsBancoQuestoes("Plano de Estudo") && !IsFlashcards("Plano de Estudo")
    ensures !IsBibliotecaClassicos("Plano de Estudo") && !IsLoja("Plano de Estudo")
  {
    var low := "plano de estudo";
    LowerPlanoDeEstudo();
    assert 'b' !in low && 'f' !in low && 'j' !in low;
    MissingCharNotContained(low, "banco de questões", 'b');
    MissingCharNotContained(low, "banco questoes", 'b');
    MissingCharNotContained(low, "flashcards", 'f');
    MissingCharNotContained(low, "biblioteca", 'b');
    MissingCharNotContained(low, "loja", 'j');
  }

  lemma PlanoDeEstudoIsPlano()
    ensures LinkLessScreen("Plano de Estudo") == Internal(PlanoEstudo)
  {
    var low := "plano de estudo";
    PlanoDeEstudoPassesEarlierRules();
    LowerPlanoDeEstudo();
    assert 'i' !in low;
    MissingCharNotContained(low, "assistente", 'i');
    assert OccursAt(low, "plano", 0);
  }

  /** "Plano de Estudo" without a record reaches the study-plan screen. */
  lemma PlanoDeEstudoRoutes()
    ensures Resolve(false, Some("Plano de Estudo"), None) == Internal(PlanoEstudo)
  {
    PlanoDeEstudoIsOrdinary();
    PlanoDeEstudoIsPlano();
  }

  lemma LowerUnknownName() ensures Lower("Quiz") == "quiz" { }

  lemma UnknownNameIsNotDownloadsOrDesktop()
    ensures !IsDownloads("Quiz") && !IsPlataformaDesktop("Quiz")
  {
    var low := "quiz";
    LowerUnknownName();
    assert 'd' !in low && 'p' !in low;
    MissingCharNotContained(low, "downloads", 'd');
    MissingCharNotContained(low, "plataforma desktop", 'p');
  }

  lemma UnknownNameIsNotVideoOrNews()
    ensures !IsVideoaulas("Quiz") && !IsNoticias("Quiz")
  {
    var low := "quiz";
    LowerUnknownName();
    assert 'p' !in low && 'v' !in low && 'n' !in low;
    MissingCharNotContained(low, "videoaulas", 'v');
    MissingCharNotContained(low, "vídeoaulas", 'v');
    MissingCharNotContained(low, "notícias jurídicas", 'n');
    MissingCharNotContained(low, "portais jurídicos", 'p');
    MissingCharNotContained(low, "noticias juridicas", 'n');
    MissingCharNotContained(low, "portais juridicos", 'p');
  }

  lemma UnknownNameIsOrdinary()
    ensures !AlwaysInternalName("Quiz")
  {
    UnknownNameIsNotDownloadsOrDesktop();
    UnknownNameIsNotVideoOrNews();
  }

  lemma UnknownNameNotBeforeAssistente()
    ensures !IsBancoQuestoes("Quiz") && !IsFlashcards("Quiz")
    ensures !IsBibliotecaClassicos("Quiz") && !IsLoja("Quiz")
  {
    var low := "quiz";
    LowerUnknownName();
    assert 'b' !in low && 'l' !in low;
    MissingCharNotContained(low, "banco de questões", 'b');
    MissingCharNotContained(low, "banco questoes", 'b');
    MissingCharNotContained(low, "flashcards", 'l');
    MissingCharNotContained(low, "biblioteca", 'b');
    MissingCharNotContained(low, "loja", 'l');
  }

  lemma UnknownNameNotFromAssistente()
    ensures !IsAssistente("Quiz") && !IsPlano("Quiz") && !IsRedacao("Quiz")
  {
    var low := "quiz";
    LowerUnknownName();
    assert 'a' !in low && 'p' !in low && 'r' !in low;
    MissingCharNotContained(low, "assistente", 'a');
    MissingCharNotContained(low, "plano", 'p');
    MissingCharNotContained(low, "redação", 'r');
    MissingCharNotContained(low, "redacao", 'r');
  }

  /** A name no rule knows falls back to the placeholder with its own title. */
  lemma UnknownNameFallsBack()
    ensures Resolve(false, Some("Quiz"), None) == Placeholder("Quiz")
  {
    UnknownNameIsOrdinary();
    UnknownNameNotBeforeAssistente();
    UnknownNameNotFromAssistente();
  }
}
