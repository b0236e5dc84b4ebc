/** The categorised catalog grid: the icon chosen for each entry, the grouping
    of catalog entries into the five configured categories, and which parts of
    the grid are shown. */
module FeaturesGrid {
  import opened Optional
  import opened Text
  import opened Rules
  import opened Seqs
  import opened Catalog

  /** The icons the grid draws (names of the icon set's components). */
  datatype Icon =
    | Scale | Bot | BookOpen | Headphones | Brain | Monitor | Zap | FileText | Play
    | Folder | Newspaper | Film | Target | GraduationCap | Search | Download | Star

  /** The icon cascade as data, in the order it is tested: a line fires when the
      entry's id is the one listed or the lower-cased name contains every
      keyword of one of its clauses (`&&` binds tighter than `||`). */
  const IconRules: seq<Rule<Icon>> := [
    Rule([1], [["vade"], ["mecum"]], Scale),
    Rule([12], [["assistente", "ia"]], Bot),
    Rule([3], [["biblioteca", "jurídica"]], BookOpen),
    Rule([4], [["audio"], ["áudio"]], Headphones),
    Rule([13], [["mapa", "mental"]], Brain),
    Rule([18], [["plataforma", "desktop"]], Monitor),
    Rule([9], [["flashcard"], ["flash card"]], Zap),
    Rule([5], [["resumo"]], FileText),
    Rule([8], [["video"], ["vídeo"], ["aula"]], Play),
    Rule([10], [["petições"], ["peticoes"], ["petição"]], Folder),
    Rule([17], [["noticia"], ["notícia"], ["juridica"]], Newspaper),
    Rule([16], [["juriflix"], ["filme"], ["cinema"]], Film),
    Rule([22], [["questões"], ["questao"], ["questão"]], Target),
    Rule([7], [["simulado"], ["prova"], ["oab"]], Scale),
    Rule([11], [["curso"]], GraduationCap),
    Rule([15], [["dicionário"], ["dicionario"]], Search),
    Rule([2], [["download"], ["baixar"]], Download),
    Rule([20], [["biblioteca", "clássicos"]], BookOpen),
    Rule([24], [["indicações"], ["indicacao"], ["livros"]], Star)
  ]

  /** `getIconForFunction(funcao, id)`: the icon of the first line that fires,
      `BookOpen` when none does. */
  function IconFor(funcao: string, id: int): (icon: Icon)
    ensures forall k | 0 <= k < |IconRules| && Fires(IconRules[k], id, Lower(funcao))
      && (forall j | 0 <= j < k :: !Fires(IconRules[j], id, Lower(funcao))) :: icon == IconRules[k].target
    ensures (forall k | 0 <= k < |IconRules| :: !Fires(IconRules[k], id, Lower(funcao))) ==> icon == BookOpen
  {
    var text := Lower(funcao);
    assert forall k | 0 <= k < |IconRules| && Fires(IconRules[k], id, text)
      && (forall j | 0 <= j < k :: !Fires(IconRules[j], id, text)) :: FirstFiring(IconRules, id, text) == k by {
      forall k | 0 <= k < |IconRules| && Fires(IconRules[k], id, text)
        && (forall j | 0 <= j < k :: !Fires(IconRules[j], id, text))
        ensures FirstFiring(IconRules, id, text) == k
      {
        FirstFiringUnique(IconRules, id, text, k);
      }
    }
    Select(IconRules, id, text, BookOpen)
  }

  /** Id 1 is drawn with the scale whatever its name. */
  lemma IconForIdOne(funcao: string)
    ensures IconFor(funcao, 1) == Scale
  {
    assert Fires(IconRules[0], 1, Lower(funcao));
  }

  /** The first line is a name rule as well: a name mentioning "vade" gets the
      scale whatever its id, so an earlier name rule beats a later id rule. */
  lemma NameRuleBeatsLaterIdRule(funcao: string, id: int)
    requires Contains(Lower(funcao), "vade")
    ensures IconFor(funcao, id) == Scale
  {
    assert AllContained(Lower(funcao), IconRules[0].anyOf[0]);
    assert Fires(IconRules[0], id, Lower(funcao));
  }

  /** The entry "Vade Mecum" filed under the video lessons' id 8 is drawn with
      the scale, not the play icon. */
  lemma VadeMecumWithVideoId()
    ensures IconFor("Vade Mecum", 8) == Scale
  {
    assert Lower("Vade Mecum") == "vade mecum";
    assert OccursAt(Lower("Vade Mecum"), "vade", 0);
    NameRuleBeatsLaterIdRule("Vade Mecum", 8);
  }

  /** The second line reads `id === 12 || (has "assistente" && has "ia")`. */
  lemma AssistenteLineGrouping(funcao: string, id: int)
    ensures Fires(IconRules[1], id, Lower(funcao)) <==>
      id == 12 || (Contains(Lower(funcao), "assistente") && Contains(Lower(funcao), "ia"))
  {
    FiresUnfolded(IconRules[1], id, Lower(funcao));
  }

  /** Past the first line, the second one decides whether the robot is drawn. */
  lemma BotIconWhenSecondLineFires(funcao: string, id: int)
    requires !Fires(IconRules[0], id, Lower(funcao))
    requires id == 12 || (Contains(Lower(funcao), "assistente") && Contains(Lower(funcao), "ia"))
    ensures IconFor(funcao, id) == Bot
  {
    AssistenteLineGrouping(funcao, id);
  }

  /** When no line fires (for instance a name holding only "mapa" of the
      "mapa"-and-"mental" line, under an id no line lists) the default is drawn. */
  lemma IconDefault(funcao: string, id: int)
    requires forall k | 0 <= k < |IconRules| :: !Fires(IconRules[k], id, Lower(funcao))
    ensures IconFor(funcao, id) == BookOpen
  {
    NoneFires(IconRules, id, Lower(funcao), BookOpen);
  }

  /** A category of the grid: its title, colour, listed ids and gradient. */
  datatype CategoryConfig = CategoryConfig(name: string, color: string, ids: seq<int>, gradient: string)

  /** `categoriesConfig`, in declaration order. */
  const CategoriesConfig: seq<CategoryConfig> := [
    CategoryConfig("Biblioteca e Leitura", "emerald", [1, 3, 2, 20, 24], "from-emerald-500 to-green-600"),
    CategoryConfig("Estudos e Aprendizado", "blue", [11, 5, 15], "from-blue-500 to-sky-600"),
    CategoryConfig("Minhas Ferramentas", "amber", [1, 12, 18, 9, 8, 4, 13], "from-amber-500 to-yellow-600"),
    CategoryConfig("Preparação para Provas", "purple", [22, 7], "from-purple-500 to-violet-600"),
    CategoryConfig("Atualizações e Informações", "cyan", [17, 16], "from-cyan-500 to-teal-600")
  ]

  /** The id filtered out of every category as a known duplicate. */
  const DuplicateId := 14

  /** The catalog entries filed under one category. */
  datatype Group = Group(name: string, members: seq<FunctionRecord>)

  /** The filter of one category: listed id, and not the duplicate id. */
  function Keep(config: CategoryConfig): FunctionRecord -> bool {
    (f: FunctionRecord) => f.id in config.ids && f.id != DuplicateId
  }

  function GroupFor(functions: seq<FunctionRecord>, config: CategoryConfig): (g: Group)
    ensures g.name == config.name
    ensures Subsequence(g.members, functions)
    ensures forall f :: f in g.members <==> f in functions && f.id in config.ids && f.id != DuplicateId
  {
    FilterFacts(functions, Keep(config));
    Group(config.name, Filter(functions, Keep(config)))
  }

  /** The grouping, one group per configured category, in configuration order. */
  function Grouping(functions: seq<FunctionRecord>): (groups: seq<Group>)
    ensures |groups| == |CategoriesConfig|
    ensures forall i | 0 <= i < |groups| :: groups[i].name == CategoriesConfig[i].name
    ensures forall i, f | 0 <= i < |groups| ::
      f in groups[i].members <==> f in functions && f.id in CategoriesConfig[i].ids && f.id != DuplicateId
  {
    seq(|CategoriesConfig|, i requires 0 <= i < |CategoriesConfig| => GroupFor(functions, CategoriesConfig[i]))
  }

  /** `groupFunctionsByCategory`: fills the groups category by category. */
  method GroupFunctionsByCategory(functions: seq<FunctionRecord>) returns (grouped: seq<Group>)
    ensures grouped == Grouping(functions)
  {
    grouped := [];
    var i := 0;
    while i < |CategoriesConfig|
      invariant 0 <= i <= |CategoriesConfig|
      invariant grouped == Grouping(functions)[..i]
    {
      grouped := grouped + [GroupFor(functions, CategoriesConfig[i])];
      i := i + 1;
    }
  }

  /** Each group is exactly the catalog entries listed under its category,
      other than the duplicate id, in catalog order and with their multiplicity. */
  lemma GroupIsFilteredCatalog(functions: seq<FunctionRecord>, i: int)
    requires 0 <= i < |CategoriesConfig|
    ensures Grouping(functions)[i].name == CategoriesConfig[i].name
    ensures Subsequence(Grouping(functions)[i].members, functions)
    ensures forall f :: multiset(Grouping(functions)[i].members)[f] ==
                        if f.id in CategoriesConfig[i].ids && f.id != DuplicateId then multiset(functions)[f] else 0
  {
    FilterFacts(functions, Keep(CategoriesConfig[i]));
  }

  /** The entry with id 14 never appears in any group. */
  lemma DuplicateNeverGrouped(functions: seq<FunctionRecord>, i: int, f: FunctionRecord)
    requires 0 <= i < |CategoriesConfig|
    requires f in Grouping(functions)[i].members
    ensures f.id != 14
  {
  }

  /** An entry with id 1 appears both in the library group and in the tools group. */
  lemma IdOneInTwoGroups(functions: seq<FunctionRecord>, f: FunctionRecord)
    requires f in functions && f.id == 1
    ensures f in Grouping(functions)[0].members && f in Grouping(functions)[2].members
  {
    assert 1 in CategoriesConfig[0].ids && 1 in CategoriesConfig[2].ids;
  }

  /** Id 1 is the only id listed under two categories. */
  lemma OnlyIdOneIsShared(i: int, j: int, x: int)
    requires 0 <= i < j < |CategoriesConfig|
    requires x in CategoriesConfig[i].ids && x in CategoriesConfig[j].ids
    ensures x == 1 && i == 0 && j == 2
  {
  }

  /** One card of the grid. */
  datatype Card = Card(id: int, title: string, icon: Icon, description: string)

  /** A rendered category: its title and its cards. */
  datatype Section = Section(name: string, cards: seq<Card>)

  /** What the grid shows: eight pulsing placeholder cards while loading, or
      the non-empty categories and, for an empty catalog, the notice. */
  datatype GridView = Skeleton(cards: nat) | Grid(sections: seq<Section>, emptyNotice: bool)

  const DefaultCardDescription := "Funcionalidade especializada para estudos jurídicos"

  /** The card of a catalog entry: `func.descricao || <default>`. */
  function CardFor(f: FunctionRecord): (c: Card)
    ensures c.id == f.id && c.title == f.funcao && c.icon == IconFor(f.funcao, f.id)
    ensures f.descricao.Some? && f.descricao.value != "" ==> c.description == f.descricao.value
    ensures c.description == DefaultCardDescription <==>
      f.descricao.None? || f.descricao.value == "" || f.descricao.value == DefaultCardDescription
  {
    var d := if f.descricao.Some? && f.descricao.value != "" then f.descricao.value else DefaultCardDescription;
    Card(f.id, f.funcao, IconFor(f.funcao, f.id), d)
  }

  function CardsFor(members: seq<FunctionRecord>): (cards: seq<Card>)
    ensures |cards| == |members|
    ensures forall k | 0 <= k < |members| :: cards[k] == CardFor(members[k])
  {
    seq(|members|, k requires 0 <= k < |members| => CardFor(members[k]))
  }

  predicate NonEmpty(g: Group) {
    |g.members| > 0
  }

  function Sections(groups: seq<Group>): (sections: seq<Section>)
    ensures |sections| == |groups|
    ensures forall k | 0 <= k < |groups| ::
      sections[k].name == groups[k].name && sections[k].cards == CardsFor(groups[k].members)
  {
    seq(|groups|, k requires 0 <= k < |groups| => Section(groups[k].name, CardsFor(groups[k].members)))
  }

  /** The grid as rendered for the loading flag and the loaded catalog. */
  function Render(loading: bool, functions: seq<FunctionRecord>): GridView {
    if loading then Skeleton(8)
    else Grid(Sections(Filter(Grouping(functions), NonEmpty)), |functions| == 0)
  }

  /** While loading only the eight placeholder cards are shown. */
  lemma RenderWhileLoading(functions: seq<FunctionRecord>)
    ensures Render(true, functions) == Skeleton(8)
  {
  }

  /** Once loaded, no rendered category is empty. */
  lemma RenderedSectionsAreNonEmpty(functions: seq<FunctionRecord>)
    ensures Render(false, functions).Grid?
    ensures forall s | s in Render(false, functions).sections :: |s.cards| > 0
  {
    var visible := Filter(Grouping(functions), NonEmpty);
    var sections := Sections(visible);
    FilterFacts(Grouping(functions), NonEmpty);
    forall s | s in sections ensures |s.cards| > 0 {
      var k :| 0 <= k < |sections| && sections[k] == s;
      assert visible[k] in visible;
    }
  }

  /** Among any groups, one is rendered as a section exactly when it has a member. */
  lemma SectionShownIffNonEmpty(groups: seq<Group>, g: Group)
    requires g in groups
    ensures |g.members| > 0 <==> Section(g.name, CardsFor(g.members)) in Sections(Filter(groups, NonEmpty))
  {
    var visible := Filter(groups, NonEmpty);
    var sections := Sections(visible);
    var s := Section(g.name, CardsFor(g.members));
    FilterFacts(groups, NonEmpty);
    if |g.members| > 0 {
      var k :| 0 <= k < |visible| && visible[k] == g;
      assert sections[k] == s;
    }
    if s in sections {
      var k :| 0 <= k < |sections| && sections[k] == s;
      assert visible[k] in visible;
      assert |CardsFor(visible[k].members)| == |CardsFor(g.members)|;
    }
  }

  /** A category is rendered, with one card per member, exactly when its group
      has a member. */
  lemma NonEmptyGroupsAreRendered(functions: seq<FunctionRecord>, i: int)
    requires 0 <= i < |CategoriesConfig|
    ensures Render(false, functions).Grid?
    ensures |Grouping(functions)[i].members| > 0 <==>
      Section(CategoriesConfig[i].name, CardsFor(Grouping(functions)[i].members)) in Render(false, functions).sections
  {
    var groups := Grouping(functions);
    assert groups[i] in groups;
    SectionShownIffNonEmpty(groups, groups[i]);
  }

  /** The "no functions found" notice appears exactly for an empty loaded
      catalog, and then no category is rendered. */
  lemma EmptyCatalogNotice(functions: seq<FunctionRecord>)
    ensures Render(false, functions).Grid?
    ensures Render(false, functions).emptyNotice <==> functions == []
    ensures functions == [] ==> Render(false, functions).sections == []
  {
    if functions == [] {
      var visible := Filter(Grouping(functions), NonEmpty);
      FilterFacts(Grouping(functions), NonEmpty);
      if visible != [] {
        assert visible[0] in visible;
      }
    }
  }
}
