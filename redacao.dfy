/** The essay-analysis screen: the grade badge, the character and word counts
    under the text box, and the tab the screen shows. */
module Redacao {
  import opened Optional
  import opened Text
  import opened Seqs
  import Navigation

  // ---------------------------------------------------------------- grade badge

  /** A badge: its colour class and its label. */
  datatype Grade = Grade(cor: string, texto: string)

  const Excelente := Grade("bg-green-500", "Excelente")
  const Bom := Grade("bg-blue-500", "Bom")
  const Regular := Grade("bg-yellow-500", "Regular")
  const PrecisaMelhorar := Grade("bg-red-500", "Precisa melhorar")

  /** `getNota()`: `nota` is the analysis' grade text, `parsed` what
      `parseFloat` made of it (`None` for NaN, which fails every comparison). */
  function GetNota(nota: Option<string>, parsed: Option<real>): (g: Option<Grade>)
    ensures g.None? <==> nota.None? || nota.value == ""
    ensures g.Some? && parsed.None? ==> g.value == PrecisaMelhorar
  {
    if nota.None? || nota.value == "" then None
    else if parsed.Some? && parsed.value >= 9.0 then Some(Excelente)
    else if parsed.Some? && parsed.value >= 7.0 then Some(Bom)
    else if parsed.Some? && parsed.value >= 5.0 then Some(Regular)
    else Some(PrecisaMelhorar)
  }

  /** The band's position from worst (0) to best (3). */
  function Rank(g: Grade): int {
    if g == Excelente then 3 else if g == Bom then 2 else if g == Regular then 1 else 0
  }

  /** No badge without a grade text; with one, each band holds exactly on its
      half-open interval and an unparsable grade counts as the worst. */
  lemma GradeBands(nota: Option<string>, parsed: Option<real>)
    ensures GetNota(nota, parsed).None? <==> nota.None? || nota.value == ""
    ensures GetNota(nota, parsed).Some? && parsed.None? ==> GetNota(nota, parsed).value == PrecisaMelhorar
    ensures GetNota(nota, parsed).Some? && parsed.Some? ==>
      var n := parsed.value;
      && (GetNota(nota, parsed).value == Excelente <==> n >= 9.0)
      && (GetNota(nota, parsed).value == Bom <==> 7.0 <= n < 9.0)
      && (GetNota(nota, parsed).value == Regular <==> 5.0 <= n < 7.0)
      && (GetNota(nota, parsed).value == PrecisaMelhorar <==> n < 5.0)
  {
  }

  /** A higher grade never gets a worse badge. */
  lemma GradeMonotone(nota: string, a: real, b: real)
    requires nota != "" && a <= b
    ensures Rank(GetNota(Some(nota), Some(a)).value) <= Rank(GetNota(Some(nota), Some(b)).value)
  {
  }

  // ---------------------------------------------------------------- word count

  /** Length of the longest prefix without whitespace. */
  function WordPrefix(s: string): (n: nat)
    ensures n <= |s|
    ensures forall i | 0 <= i < n :: !IsWhitespace(s[i])
    ensures n < |s| ==> IsWhitespace(s[n])
  {
    if s == [] || IsWhitespace(s[0]) then 0 else 1 + WordPrefix(s[1..])
  }

  /** Length of the longest prefix of whitespace. */
  function SpacePrefix(s: string): (n: nat)
    ensures n <= |s|
    ensures forall i | 0 <= i < n :: IsWhitespace(s[i])
    ensures n < |s| ==> !IsWhitespace(s[n])
  {
    if s != [] && IsWhitespace(s[0]) then 1 + SpacePrefix(s[1..]) else 0
  }

  /** `s.split(/\s+/)`: the pieces between maximal whitespace runs, including
      the empty piece before a leading run and after a trailing one. */
  function SplitOnSpaces(s: string): (pieces: seq<string>)
    ensures |pieces| > 0
    ensures forall k | 0 <= k < |pieces| :: forall i | 0 <= i < |pieces[k]| :: !IsWhitespace(pieces[k][i])
    decreases |s|
  {
    var n := WordPrefix(s);
    if n == |s| then [s]
    else
      var m := SpacePrefix(s[n..]);
      [s[..n]] + SplitOnSpaces(s[n + m..])
  }

  predicate NonEmptyWord(w: string) {
    |w| > 0
  }

  /** `s.split(/\s+/).filter(word => word.length > 0)` */
  function Words(s: string): seq<string> {
    Filter(SplitOnSpaces(s), NonEmptyWord)
  }

  /** The reference count, read left to right: how many times a character that
      is not whitespace follows whitespace or the start of the text. */
  function RunStarts(s: string, afterSpace: bool): nat {
    if s == [] then 0
    else (if afterSpace && !IsWhitespace(s[0]) then 1 else 0) + RunStarts(s[1..], IsWhitespace(s[0]))
  }

  /** Reading characters that are not whitespace, right after one that is
      not either, finds no new run. */
  lemma {:induction false} NoStartsInsideWord(s: string, n: nat)
    requires n <= |s| && forall i | 0 <= i < n :: !IsWhitespace(s[i])
    ensures RunStarts(s, false) == RunStarts(s[n..], false)
    decreases n
  {
    if n > 0 {
      assert !IsWhitespace(s[0]);
      NoStartsInsideWord(s[1..], n - 1);
      assert s[1..][n - 1..] == s[n..];
    }
  }

  /** Reading whitespace finds no run and leaves the reader after a space. */
  lemma {:induction false} NoStartsInsideSpace(s: string, m: nat, afterSpace: bool)
    requires 0 < m <= |s| && forall i | 0 <= i < m :: IsWhitespace(s[i])
    ensures RunStarts(s, afterSpace) == RunStarts(s[m..], true)
    decreases m
  {
    assert IsWhitespace(s[0]);
    if m > 1 {
      NoStartsInsideSpace(s[1..], m - 1, true);
      assert s[1..][m - 1..] == s[m..];
    }
  }

  /** The split's first piece, then the split of what follows the whitespace
      after it. */
  lemma SplitUnfold(s: string, n: nat, m: nat)
    requires n == WordPrefix(s) < |s| && m == SpacePrefix(s[n..])
    ensures SplitOnSpaces(s) == [s[..n]] + SplitOnSpaces(s[n + m..])
  {
  }

  /** Filtering a piece in front counts it when it is not empty. */
  lemma CountCons(w: string, tail: seq<string>)
    ensures |Filter([w] + tail, NonEmptyWord)| == (if |w| > 0 then 1 else 0) + |Filter(tail, NonEmptyWord)|
  {
    FilterAppend([w], tail, NonEmptyWord);
    assert [w][1..] == [];
    assert Filter([w], NonEmptyWord) == if |w| > 0 then [w] else [];
  }

  /** One step of the split: a piece without whitespace, counted when it is
      not empty, and the split of what follows the whitespace after it. */
  lemma SplitStep(s: string, n: nat, m: nat)
    requires n == WordPrefix(s) < |s| && m == SpacePrefix(s[n..])
    ensures |Words(s)| == (if n > 0 then 1 else 0) + |Words(s[n + m..])|
  {
    SplitUnfold(s, n, m);
    CountCons(s[..n], SplitOnSpaces(s[n + m..]));
  }

  /** The same step for the reference count. */
  lemma RunStep(s: string, n: nat, m: nat)
    requires n == WordPrefix(s) < |s| && m == SpacePrefix(s[n..])
    ensures RunStarts(s, true) == (if n > 0 then 1 else 0) + RunStarts(s[n + m..], true)
  {
    assert s[n..][m..] == s[n + m..];
    if n == 0 {
      NoStartsInsideSpace(s, m, true);
    } else {
      NoStartsInsideWord(s[1..], n - 1);
      assert s[1..][n - 1..] == s[n..];
      NoStartsInsideSpace(s[n..], m, false);
    }
  }

  /** Counting the non-empty pieces of the split gives the run count. */
  lemma {:induction false} WordsAreRuns(s: string)
    ensures |Words(s)| == RunStarts(s, true)
    decreases |s|
  {
    var n := WordPrefix(s);
    if n == |s| {
      if s != [] {
        NoStartsInsideWord(s[1..], n - 1);
      }
    } else {
      var m := SpacePrefix(s[n..]);
      SplitStep(s, n, m);
      RunStep(s, n, m);
      WordsAreRuns(s[n + m..]);
    }
  }

  /** Whitespace alone starts no run. */
  lemma {:induction false} AllSpaceNoStarts(s: string, afterSpace: bool)
    requires AllWhitespace(s)
    ensures RunStarts(s, afterSpace) == 0
    decreases |s|
  {
    if s != [] {
      AllSpaceNoStarts(s[1..], true);
    }
  }

  /** A text has no words exactly when it is all whitespace, that is, exactly
      when it is blank after trimming. */
  lemma NoWordsIffBlank(s: string)
    ensures |Words(s)| == 0 <==> IsBlank(s)
  {
    WordsAreRuns(s);
    BlankIffAllWhitespace(s);
    if AllWhitespace(s) {
      AllSpaceNoStarts(s, true);
    } else {
      var i := SpacePrefix(s);
      assert i < |s|;
      if i > 0 {
        NoStartsInsideSpace(s, i, true);
      }
      assert RunStarts(s[i..], true) > 0;
    }
  }

  /** `.length` of the words: the number of whitespace-delimited runs, zero
      exactly for a blank text. */
  function WordCount(s: string): (n: nat)
    ensures n == RunStarts(s, true)
    ensures n == 0 <==> IsBlank(s)
  {
    WordsAreRuns(s);
    NoWordsIffBlank(s);
    |Words(s)|
  }

  // ---------------------------------------------------------------- screen state

  /** The three tabs. */
  datatype Tab = Escrever | Dicas | Analise

  /** The essay kinds offered. */
  datatype Kind = Dissertativa | Parecer | Peca

  /** The toast shown when analysis is asked of a blank text. */
  datatype Toast = Toast(title: string, description: string, destructive: bool)

  const TextRequired := Toast("Texto necessário", "Por favor, escreva sua redação antes de solicitar análise.", true)

  class EssayScreen {
    var texto: string
    var tipo: Kind
    var activeTab: Tab
    /** Whether the analysis hook holds a result (the result itself comes from
        the remote analyser). */
    var hasAnalysis: bool
    const nav: Navigation.NavigationState

    constructor (nav: Navigation.NavigationState)
      ensures texto == "" && tipo == Dissertativa && activeTab == Escrever && !hasAnalysis && this.nav == nav
    {
      texto := "";
      tipo := Dissertativa;
      activeTab := Escrever;
      hasAnalysis := false;
      this.nav := nav;
    }

    /** The Analyse button's `disabled`. */
    predicate AnalyseDisabled(loading: bool)
      reads this
    {
      loading || IsBlank(texto)
    }

    /** The counts under the text box. */
    function Counts(): (c: (int, nat))
      reads this
      ensures c.0 == |texto| && c.1 == RunStarts(texto, true)
      ensures c.1 == 0 <==> IsBlank(texto)
    {
      (|texto|, WordCount(texto))
    }

    method Edit(t: string)
      modifies this
      ensures texto == t && tipo == old(tipo) && activeTab == old(activeTab) && hasAnalysis == old(hasAnalysis)
    {
      texto := t;
    }

    /** `handleAnalise`: a blank text is refused with a toast and nothing else
        happens; otherwise the analysis is requested (its outcome, `produced`,
        comes from the remote analyser) and the analysis tab is shown. */
    method HandleAnalise(produced: bool) returns (requested: bool, toast: Option<Toast>)
      modifies this
      ensures requested <==> !IsBlank(texto)
      ensures texto == old(texto) && tipo == old(tipo)
      ensures !requested ==> toast == Some(TextRequired) && activeTab == old(activeTab) && hasAnalysis == old(hasAnalysis)
      ensures requested ==> toast == None && activeTab == Analise && hasAnalysis == produced
    {
      var blank := IsBlank(texto);
      if blank {
        requested, toast := false, Some(TextRequired);
      } else {
        hasAnalysis := produced;
        activeTab := Analise;
        requested, toast := true, None;
      }
    }

    /** `handleBuscarDicas`: fetch tips, then show the tips tab. */
    method HandleBuscarDicas()
      modifies this
      ensures activeTab == Dicas && texto == old(texto) && tipo == old(tipo) && hasAnalysis == old(hasAnalysis)
    {
      activeTab := Dicas;
    }

    /** "Nova Análise": drop the analysis and go back to writing. */
    method NovaAnalise()
      modifies this
      ensures activeTab == Escrever && !hasAnalysis && texto == old(texto) && tipo == old(tipo)
    {
      hasAnalysis := false;
      activeTab := Escrever;
    }

    /** "Voltar para Escrita" and the tab triggers. */
    method SelectTab(t: Tab)
      modifies this
      ensures activeTab == t && texto == old(texto) && tipo == old(tipo) && hasAnalysis == old(hasAnalysis)
    {
      activeTab := t;
    }

    /** Clicking one of the three kind cards: only the chosen kind changes. */
    method SelectTipo(k: Kind)
      modifies this
      ensures tipo == k && texto == old(texto) && activeTab == old(activeTab) && hasAnalysis == old(hasAnalysis)
    {
      tipo := k;
    }

    /** `handleBack`. */
    method HandleBack()
      modifies nav
      ensures nav.currentFunction == None
    {
      nav.SetCurrentFunction(None);
    }
  }

  /** The Analyse button is disabled exactly while loading or while the text
      has no word. */
  lemma AnalyseDisabledIffNoWords(screen: EssayScreen, loading: bool)
    ensures screen.AnalyseDisabled(loading) <==> loading || WordCount(screen.texto) == 0
  {
  }
}
