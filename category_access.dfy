/** The four category cards of the home screen and the selection state behind
    the category dialog. */
module CategoryAccess {
  import opened Optional
  import opened CategoryDialog
  import Navigation

  /** The `categories` table (icons and background image left out). */
  const Categories: seq<Category> := [
    Category(1, "Estudar Agora", "Comece seus estudos de forma prática", "from-red-700 to-red-900",
      ["Cursos Preparatórios", "Resumos Jurídicos", "Flashcards"]),
    Category(2, "Biblioteca e Leituras", "Acesse conteúdos e materiais completos", "from-red-600 to-red-800",
      ["Biblioteca Clássicos", "Biblioteca de Estudos", "Indicações de Livros", "Artigos Comentados"]),
    Category(3, "Minhas Ferramentas", "Utilize recursos para organizar e facilitar", "from-red-500 to-red-700",
      ["Vade Mecum Digital", "Plataforma Desktop", "Notícias Comentadas", "Videoaulas", "Áudio-aulas", "Mapas Mentais"]),
    Category(4, "Simulado e Questões", "Treine e avalie seu conhecimento adquirido", "from-red-800 to-red-950",
      ["Banco de Questões", "Simulados OAB"])
  ]

  /** Four categories with ids 1 to 4 in order, each listing some function. */
  lemma CategoriesShape()
    ensures |Categories| == 4
    ensures forall k | 0 <= k < |Categories| :: Categories[k].id == k + 1 && |Categories[k].functions| > 0
  {
  }

  /** Of the four cards, only the library opens a dialog with the carousel. */
  lemma OnlyLibraryHasCarousel(k: int, open: bool)
    requires 0 <= k < |Categories|
    ensures Render(Some(Categories[k]), open).carousel <==> k == 1
  {
  }

  /** The name not found in the dialog's description table. */
  const UndescribedName := "Resumos Jurídicos"

  /** Every function the first two cards list has its own description, except
      the summaries. */
  lemma FirstCardsDescribed(k: int, n: string)
    requires 0 <= k < 2 && n in Categories[k].functions
    ensures n in Descriptions <==> n != UndescribedName
  {
  }

  /** Every function the last two cards list has its own description. */
  lemma LastCardsDescribed(k: int, n: string)
    requires 2 <= k < 4 && n in Categories[k].functions
    ensures n in Descriptions && n != UndescribedName
  {
  }

  /** How a card title is laid out. */
  datatype TitleLayout = OneLine(text: string) | TwoLines(first: string, second: string)

  /** `renderCategoryTitle`. */
  function RenderCategoryTitle(title: string): (layout: TitleLayout)
    ensures Joined(layout) == title
    ensures layout.TwoLines? <==> title == "Minhas Ferramentas" || title == "Biblioteca e Leituras"
  {
    if title == "Minhas Ferramentas" then TwoLines("Minhas", "Ferramentas")
    else if title == "Biblioteca e Leituras" then TwoLines("Biblioteca e", "Leituras")
    else OneLine(title)
  }

  /** The lines of a title, joined by a space, give the title back: splitting
      never changes the words, only where the line breaks. */
  function Joined(layout: TitleLayout): string {
    match layout
    case OneLine(t) => t
    case TwoLines(a, b) => a + " " + b
  }

  /** Among the cards, exactly the second and the third break their title. */
  lemma WhichCardTitlesBreak(k: int)
    requires 0 <= k < |Categories|
    ensures RenderCategoryTitle(Categories[k].title).TwoLines? <==> k == 1 || k == 2
  {
  }

  /** The section's state: the category whose dialog is open, if any, and the
      shared navigation state its selections go to. */
  class CategorySection {
    var selectedCategory: Option<Category>
    const nav: Navigation.NavigationState

    constructor (nav: Navigation.NavigationState)
      ensures selectedCategory == None && this.nav == nav
    {
      selectedCategory := None;
      this.nav := nav;
    }

    /** The dialog's `open` prop. */
    predicate DialogOpen()
      reads this
    {
      selectedCategory != None
    }

    /** `handleCategoryClick`. */
    method ClickCategory(c: Category)
      modifies this
      ensures selectedCategory == Some(c) && DialogOpen()
    {
      selectedCategory := Some(c);
    }

    /** `handleFunctionSelect`: navigate to the function and close the dialog. */
    method SelectFunction(name: string)
      modifies this, nav
      ensures nav.currentFunction == Some(name)
      ensures selectedCategory == None && !DialogOpen()
    {
      nav.SetCurrentFunction(Some(name));
      selectedCategory := None;
    }

    /** `open => !open && setSelectedCategory(null)`: closing clears the
      selection, opening changes nothing. */
    method OpenChange(open: bool)
      modifies this
      ensures open ==> selectedCategory == old(selectedCategory)
      ensures !open ==> selectedCategory == None
    {
      if !open {
        selectedCategory := None;
      }
    }

    /** An action inside the dialog, routed through the callbacks it raises. */
    method DialogAction(action: Action)
      modifies this, nav
      ensures old(selectedCategory).None? ==> selectedCategory == None && nav.currentFunction == old(nav.currentFunction)
      ensures match Raise(old(selectedCategory), action)
        case None => selectedCategory == old(selectedCategory) && nav.currentFunction == old(nav.currentFunction)
        case Some(FunctionSelected(n)) => nav.currentFunction == Some(n) && selectedCategory == None
        case Some(OpenChanged(o)) => selectedCategory == None && nav.currentFunction == old(nav.currentFunction)
    {
      match Raise(selectedCategory, action)
      case None =>
      case Some(FunctionSelected(n)) => SelectFunction(n);
      case Some(OpenChanged(o)) => OpenChange(o);
    }
  }
}
