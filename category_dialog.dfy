/** The full-screen dialog that lists one category's functions: the fixed
    description of each function, the dialog's colours, and which callbacks
    its buttons raise. */
module CategoryDialog {
  import opened Optional

  /** A category card's data as the dialog receives it. */
  datatype Category = Category(id: int, title: string, description: string, color: string, functions: seq<string>)

  /** The description table of `getFunctionDescription`. */
  const Descriptions: map<string, string> := map[
    "Videoaulas" := "Aprenda com professores especializados através de vídeos didáticos",
    "Cursos Preparatórios" := "Trilhas organizadas de aprendizado para sua preparação",
    "Áudio-aulas" := "Estude enquanto se desloca com conteúdo em áudio",
    "Mapas Mentais" := "Visualize conexões entre conceitos de forma clara",
    "Biblioteca Clássicos" := "Livros fundamentais e clássicos do direito",
    "Biblioteca de Estudos" := "Acervo completo de obras jurídicas especializadas",
    "Indicações de Livros" := "Sugestões personalizadas para seus estudos",
    "Artigos Comentados" := "Análises detalhadas de artigos relevantes",
    "Vade Mecum Digital" := "Legislação sempre atualizada em formato digital",
    "Assistente IA Jurídica" := "Tire dúvidas instantaneamente com inteligência artificial",
    "Plataforma Desktop" := "Ambiente completo de estudos para desktop",
    "Flashcards" := "Sistema de memorização eficiente e inteligente",
    "Banco de Questões" := "Pratique com milhares de exercícios comentados",
    "Simulados OAB" := "Prepare-se para a prova da OAB com simulados reais",
    "Notícias Comentadas" := "Analise casos atuais e jurisprudências",
    "Exercícios Práticos" := "Aplique o conhecimento com casos práticos"
  ]

  const DefaultDescription := "Explore esta funcionalidade especializada"

  /** `descriptions[functionName] || <default>`: an exact, case-sensitive lookup. */
  function FunctionDescription(name: string): (d: string)
    ensures d != ""
    ensures name in Descriptions ==> d == Descriptions[name]
  {
    DescriptionTableShape();
    if name in Descriptions && Descriptions[name] != "" then Descriptions[name] else DefaultDescription
  }

  /** None of the table's texts is empty or the default. */
  lemma DescriptionTableShape()
    ensures forall name | name in Descriptions :: Descriptions[name] != "" && Descriptions[name] != DefaultDescription
  {
  }

  /** A name gets the default text exactly when the table does not list it, and
      a listed name gets its own text. */
  lemma DescriptionLookup(name: string)
    ensures FunctionDescription(name) == DefaultDescription <==> name !in Descriptions
    ensures name in Descriptions ==> FunctionDescription(name) == Descriptions[name]
  {
    DescriptionTableShape();
  }

  /** Lookup does not fold case: the lower-case spelling of a listed name gets
      the default. */
  lemma LookupIsCaseSensitive()
    ensures "Videoaulas" in Descriptions
    ensures FunctionDescription("videoaulas") == DefaultDescription
  {
  }

  /** `getDialogGradient`: the same red gradient whatever the colour. */
  function DialogGradient(color: string): string {
    "from-red-700 to-red-900"
  }

  lemma GradientIgnoresColour(c1: string, c2: string)
    ensures DialogGradient(c1) == DialogGradient(c2) == "from-red-700 to-red-900"
  {
  }

  /** The title under which the featured-books carousel is shown. */
  const LibraryTitle := "Biblioteca e Leituras"

  /** One row of the dialog's list. */
  datatype Item = Item(name: string, description: string)

  /** What the dialog renders: nothing for a null category, otherwise its
      open flag, title, gradient, carousel flag and one row per function. */
  datatype DialogView =
    | NoDialog
    | Shown(open: bool, title: string, gradient: string, carousel: bool, items: seq<Item>)

  function Items(names: seq<string>): (items: seq<Item>)
    ensures |items| == |names|
    ensures forall k | 0 <= k < |names| :: items[k] == Item(names[k], FunctionDescription(names[k]))
  {
    seq(|names|, k requires 0 <= k < |names| => Item(names[k], FunctionDescription(names[k])))
  }

  function Render(category: Option<Category>, open: bool): DialogView {
    if category.None? then NoDialog
    else
      var c := category.value;
      Shown(open, c.title, DialogGradient(c.color), c.title == LibraryTitle, Items(c.functions))
  }

  /** A null category renders nothing; otherwise the carousel appears exactly
      for the library category and the rows follow the category's functions. */
  lemma RenderShape(category: Option<Category>, open: bool)
    ensures category.None? <==> Render(category, open).NoDialog?
    ensures category.Some? ==>
      && Render(category, open).carousel == (category.value.title == LibraryTitle)
      && |Render(category, open).items| == |category.value.functions|
      && forall k | 0 <= k < |category.value.functions| :: Render(category, open).items[k].name == category.value.functions[k]
  {
  }

  /** What the user can do inside the dialog. */
  datatype Action =
    | ClickFunction(index: int) // the row at that position
    | Back                      // the back arrow in the header
    | Dismiss                   // the dialog's own close request (overlay, Escape)

  /** The callbacks the dialog's props provide. */
  datatype Callback = FunctionSelected(name: string) | OpenChanged(open: bool)

  /** The callback an action raises; `None` when there is no such control (a
      null category renders no controls at all). */
  function Raise(category: Option<Category>, action: Action): (r: Option<Callback>)
    ensures category.None? ==> r.None?
    ensures r.Some? && r.value.FunctionSelected? ==> r.value.name in category.value.functions
    ensures !action.ClickFunction? ==> (r.Some? <==> category.Some?) && (r.Some? ==> r.value == OpenChanged(false))
  {
    if category.None? then None
    else match action
      case ClickFunction(i) =>
        if 0 <= i < |category.value.functions| then Some(FunctionSelected(category.value.functions[i])) else None
      case Back => Some(OpenChanged(false))
      case Dismiss => Some(OpenChanged(false))
  }

  /** Clicking a row forwards exactly the name shown on it; Back only ever asks
      to close; a null category raises nothing. */
  lemma RaiseForwardsShownName(category: Option<Category>, open: bool, i: int)
    requires category.Some? && 0 <= i < |category.value.functions|
    ensures Raise(category, ClickFunction(i)) == Some(FunctionSelected(Render(category, open).items[i].name))
    ensures Raise(category, Back) == Some(OpenChanged(false))
    ensures forall a :: Raise(None, a) == None
  {
  }
}
