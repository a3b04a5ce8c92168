/** The buyer's digital ticket: link, badge, QR dimming, and the export decisions. */
module DigitalTicket {
  import opened Wrappers
  import opened TicketModel
  import TicketCard

  const Host: string := "https://event-tickets-seven.vercel.app"

  /** The URL encoded in the QR code. */
  function TicketUrl(id: string): (u: string)
    ensures u == Host + TicketPath(id)
  {
    "https://event-tickets-seven.vercel.app/ingresso/" + id
  }

  /** Different tickets never share a QR code. */
  lemma TicketUrlInjective(a: string, b: string)
    requires TicketUrl(a) == TicketUrl(b)
    ensures a == b
  {
    assert TicketPath(a) == TicketUrl(a)[|Host|..];
    TicketPathInjective(a, b);
  }

  datatype TicketBadge = IngressoUtilizado | PagamentoConfirmado | AguardandoPagamento

  function BadgeLabel(b: TicketBadge): string
  {
    match b
    case IngressoUtilizado => "Ingresso Utilizado"
    case PagamentoConfirmado => "Pagamento Confirmado"
    case AguardandoPagamento => "Aguardando Pagamento"
  }

  function Badge(t: Ticket): (b: TicketBadge)
    ensures b == IngressoUtilizado <==> t.usado
    ensures b == PagamentoConfirmado <==> !t.usado && t.statusPagamento == Confirmado
    ensures b == AguardandoPagamento <==> !t.usado && t.statusPagamento != Confirmado
  {
    if t.usado then IngressoUtilizado
    else if t.statusPagamento == Confirmado then PagamentoConfirmado
    else AguardandoPagamento
  }

  /** The buyer's badge and the administrator's badge always tell the same state. */
  lemma BadgeAgreesWithCard(t: Ticket)
    ensures Badge(t) == IngressoUtilizado <==> TicketCard.Badge(t) == TicketCard.Utilizado
    ensures Badge(t) == PagamentoConfirmado <==> TicketCard.Badge(t) == TicketCard.Pago
    ensures Badge(t) == AguardandoPagamento <==> TicketCard.Badge(t) == TicketCard.Pendente
  {
  }

  /** The QR block is drawn at half opacity. */
  predicate QrDimmed(t: Ticket) { t.usado }

  /** A dimmed code is exactly one whose badge says it has been used. */
  lemma DimmedIffUsedBadge(t: Ticket)
    ensures QrDimmed(t) <==> Badge(t) == IngressoUtilizado
  {
  }

  datatype ExportKind = Png | Pdf

  function Extension(k: ExportKind): string
  {
    match k
    case Png => ".png"
    case Pdf => ".pdf"
  }

  /** `ingresso-<nome>-<id>.png` or `.pdf`. */
  function DownloadName(t: Ticket, k: ExportKind): (f: string)
    ensures |f| == |"ingresso-"| + |t.nome| + 1 + |t.id| + 4
    ensures f[..|"ingresso-"|] == "ingresso-"
    ensures f[|f| - 4..] == Extension(k)
    ensures f[9..9 + |t.nome|] == t.nome && f[9 + |t.nome|] == '-'
    ensures f[10 + |t.nome|..|f| - 4] == t.id
  {
    var stem := "ingresso-" + t.nome;
    assert (stem + "-" + t.id + Extension(k))[|stem|] == '-';
    stem + "-" + t.id + Extension(k)
  }

  /** The two downloads share their stem and differ only in the extension. */
  lemma DownloadNamesDiffer(t: Ticket)
    ensures DownloadName(t, Png) != DownloadName(t, Pdf)
    ensures var n := |DownloadName(t, Png)|;
      DownloadName(t, Png)[..n - 4] == DownloadName(t, Pdf)[..n - 4]
  {
    var n := |DownloadName(t, Png)|;
    assert DownloadName(t, Png)[n - 4..][2] == 'n' && DownloadName(t, Pdf)[n - 4..][2] == 'd';
  }

  datatype Orientation = Landscape | Portrait

  /** The jsPDF page: landscape only for a wider-than-tall capture, sized to the capture. */
  datatype PdfPage = PdfPage(orientation: Orientation, width: int, height: int)

  function PageFor(width: int, height: int): (p: PdfPage)
    ensures p.orientation == Landscape <==> width > height
    ensures p.width == width && p.height == height
  {
    PdfPage(if width > height then Landscape else Portrait, width, height)
  }

  /** Turning a non-square capture on its side flips the orientation; a square one is portrait. */
  lemma OrientationFlips(w: int, h: int)
    ensures w != h ==> PageFor(w, h).orientation != PageFor(h, w).orientation
    ensures w == h ==> PageFor(w, h).orientation == Portrait
  {
  }

  /** What `handleDownload` ended in. */
  datatype DownloadOutcome =
    | NotMounted
    | SavedPng(name: string)
    | SavedPdf(name: string, page: PdfPage)
    | ExportFailed

  /** The size of the canvas `html2canvas` produced. */
  datatype Canvas = Canvas(width: int, height: int)

  class TicketExporter {
    var isExporting: bool

    constructor ()
      ensures !isExporting
    {
      isExporting := false;
    }

    /**
     * `handleDownload`: with no mounted ticket element nothing happens; otherwise
     * the flag is raised for the export and cleared in `finally`, whether the
     * capture (`None` when `html2canvas` fails) succeeded or not.
     */
    method HandleDownload(t: Ticket, k: ExportKind, mounted: bool, capture: Option<Canvas>)
      returns (out: DownloadOutcome)
      modifies this
      ensures !mounted ==> out == NotMounted && isExporting == old(isExporting)
      ensures mounted ==> !isExporting
      ensures mounted && capture.None? ==> out == ExportFailed
      ensures mounted && capture.Some? && k == Png ==> out == SavedPng(DownloadName(t, Png))
      ensures mounted && capture.Some? && k == Pdf ==>
                out == SavedPdf(DownloadName(t, Pdf), PageFor(capture.value.width, capture.value.height))
    {
      if !mounted {
        return NotMounted;
      }
      isExporting := true;
      match capture {
        case None =>
          out := ExportFailed;
        case Some(canvas) =>
          if k == Png {
            out := SavedPng(DownloadName(t, Png));
          } else {
            out := SavedPdf(DownloadName(t, Pdf), PageFor(canvas.width, canvas.height));
          }
      }
      isExporting := false;
    }
  }
}
