/** The confirmation card shown after a study material has been analysed: the
    confidence badge, the file icon and the two buttons. */
module ConfirmacaoAnalise {

  /** The three confidence bands, worst first. */
  datatype Band = Low | Medium | High

  function BandOf(confianca: real): (b: Band)
    ensures b == High <==> confianca >= 80.0
    ensures b == Low <==> confianca < 60.0
  {
    if confianca >= 80.0 then High else if confianca >= 60.0 then Medium else Low
  }

  function BandRank(b: Band): int {
    match b
    case Low => 0
    case Medium => 1
    case High => 2
  }

  /** `getConfiancaColor` */
  function ConfidenceColor(confianca: real): (c: string)
    ensures c == "bg-" + BandColor(BandOf(confianca))
  {
    if confianca >= 80.0 then "bg-green-500"
    else if confianca >= 60.0 then "bg-yellow-500"
    else "bg-red-500"
  }

  datatype StatusIcon = CheckCircle | AlertCircle | XCircle

  /** `getConfiancaIcon`, with the colour of its text class. */
  function ConfidenceIcon(confianca: real): (r: (StatusIcon, string))
    ensures r.1 == "text-" + BandColor(BandOf(confianca))
    ensures r.0 == CheckCircle <==> BandOf(confianca) == High
    ensures r.0 == XCircle <==> BandOf(confianca) == Low
  {
    if confianca >= 80.0 then (CheckCircle, "text-green-500")
    else if confianca >= 60.0 then (AlertCircle, "text-yellow-500")
    else (XCircle, "text-red-500")
  }

  function BandColor(b: Band): string {
    match b
    case High => "green-500"
    case Medium => "yellow-500"
    case Low => "red-500"
  }

  /** The badge colour and the icon always show the same band: each is that
      band's colour, and each band holds on its half-open interval, 80 and 60
      belonging to the upper one. */
  lemma ColorAndIconAgree(confianca: real)
    ensures ConfidenceColor(confianca) == "bg-" + BandColor(BandOf(confianca))
    ensures ConfidenceIcon(confianca).1 == "text-" + BandColor(BandOf(confianca))
    ensures ConfidenceIcon(confianca).0 == match BandOf(confianca)
      case High => CheckCircle
      case Medium => AlertCircle
      case Low => XCircle
    ensures BandOf(confianca) == High <==> confianca >= 80.0
    ensures BandOf(confianca) == Medium <==> 60.0 <= confianca < 80.0
    ensures BandOf(confianca) == Low <==> confianca < 60.0
  {
  }

  /** A higher confidence never shows a worse band. */
  lemma BandMonotone(a: real, b: real)
    requires a <= b
    ensures BandRank(BandOf(a)) <= BandRank(BandOf(b))
  {
  }

  datatype FileIcon = FileText | Image

  /** Both file icons: a PDF shows a document, anything else a picture. */
  function FileIconFor(mimeType: string): (icon: FileIcon)
    ensures icon == FileText <==> mimeType == "application/pdf"
  {
    if mimeType == "application/pdf" then FileText else Image
  }

  /** The two buttons. */
  datatype Buttons = Buttons(refuseDisabled: bool, confirmDisabled: bool, confirmLabel: string)

  /** Both buttons are disabled exactly while the plan is being generated,
      and the confirm label says so exactly then. */
  function RenderButtons(loading: bool): (b: Buttons)
    ensures b.refuseDisabled == loading && b.confirmDisabled == loading
    ensures b.confirmLabel == "Gerando plano..." <==> loading
  {
    Buttons(loading, loading, if loading then "Gerando plano..." else "Sim, gerar plano")
  }

  /** What a click does: the callback it reaches, or nothing while loading. */
  datatype Choice = Confirm | Refuse

  function Click(loading: bool, choice: Choice): (reached: bool)
    ensures reached <==> !loading
  {
    var b := RenderButtons(loading);
    match choice
    case Confirm => !b.confirmDisabled
    case Refuse => !b.refuseDisabled
  }
}
