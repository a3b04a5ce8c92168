/** The dashboard's card for one ticket: status badge, card style, action menu, quantity. */
module TicketCard {
  import opened Wrappers
  import opened TicketModel
  import TicketService

  predicate IsPaid(t: Ticket) { t.statusPagamento == Confirmado }

  predicate IsUsed(t: Ticket) { t.usado }

  datatype CardBadge = Utilizado | Pago | Pendente

  function BadgeLabel(b: CardBadge): string
  {
    match b
    case Utilizado => "Utilizado"
    case Pago => "Pago"
    case Pendente => "Pendente"
  }

  /** Used wins over paid, which wins over pending. */
  function Badge(t: Ticket): (b: CardBadge)
    ensures b == Utilizado <==> t.usado
    ensures b == Pago <==> !t.usado && IsPaid(t)
    ensures b == Pendente <==> !t.usado && !IsPaid(t)
  {
    if IsUsed(t) then Utilizado else if IsPaid(t) then Pago else Pendente
  }

  /** The card's three looks: dimmed, success border, warning border. */
  datatype CardStyle = Muted | SuccessBorder | WarningBorder

  function Style(t: Ticket): CardStyle
  {
    if IsUsed(t) then Muted else if IsPaid(t) then SuccessBorder else WarningBorder
  }

  /** The card style follows the badge: one look per badge, and each badge its own look. */
  lemma StyleFollowsBadge(t: Ticket, u: Ticket)
    ensures Style(t) == Muted <==> Badge(t) == Utilizado
    ensures Style(t) == SuccessBorder <==> Badge(t) == Pago
    ensures Style(t) == Style(u) <==> Badge(t) == Badge(u)
  {
  }

  datatype AdminAction = ConfirmPaymentAction | MarkAsUsedAction | RevertUsedAction

  /** The dropdown's entries, in display order. */
  function Menu(t: Ticket): (m: seq<AdminAction>)
    ensures ConfirmPaymentAction in m <==> !IsPaid(t)
    ensures MarkAsUsedAction in m <==> IsPaid(t) && !t.usado
    ensures RevertUsedAction in m <==> t.usado
  {
    (if !IsPaid(t) then [ConfirmPaymentAction] else [])
    + (if IsPaid(t) && !IsUsed(t) then [MarkAsUsedAction] else [])
    + (if IsUsed(t) then [RevertUsedAction] else [])
  }

  /** A paid ticket offers exactly one of mark-used and revert; no ticket has an empty menu. */
  lemma MenuForPaidTicket(t: Ticket)
    ensures IsPaid(t) ==> (MarkAsUsedAction in Menu(t) <==> RevertUsedAction !in Menu(t))
    ensures IsPaid(t) ==> |Menu(t)| == 1
    ensures Menu(t) != []
  {
  }

  /**
   * `ticket.quantidade || 1`: a missing or zero quantity shows as 1; any other
   * value (negative ones included) shows as it is.
   */
  function ShownQuantity(t: Ticket): (n: int)
    ensures n != 0
    ensures t.quantidade.Some? && t.quantidade.value != 0 ==> n == t.quantidade.value
    ensures t.quantidade.None? || t.quantidade.value == 0 ==> n == 1
  {
    match t.quantidade
    case Some(q) => if q != 0 then q else 1
    case None => 1
  }

  function QuantityNoun(t: Ticket): (r: string)
    ensures r == "Ingressos" <==> ShownQuantity(t) > 1
    ensures r == "Ingresso" <==> ShownQuantity(t) <= 1
  {
    if ShownQuantity(t) > 1 then "Ingressos" else "Ingresso"
  }

  /** The store update each menu entry triggers. */
  function ChangeFor(a: AdminAction): TicketService.Change
  {
    match a
    case ConfirmPaymentAction => TicketService.ConfirmPaymentChange
    case MarkAsUsedAction => TicketService.MarkAsUsedChange
    case RevertUsedAction => TicketService.RevertUsedChange
  }

  /**
   * Every entry offered leads to a ticket on which it is no longer offered:
   * confirming retires "confirm", marking used brings up "revert", and reverting a
   * paid ticket brings back "mark as used".
   */
  lemma OfferedActionRetires(t: Ticket, a: AdminAction)
    requires a in Menu(t)
    ensures a !in Menu(TicketService.Apply(t, ChangeFor(a)))
    ensures a == MarkAsUsedAction ==> RevertUsedAction in Menu(TicketService.Apply(t, ChangeFor(a)))
    ensures a == RevertUsedAction && IsPaid(t) ==> MarkAsUsedAction in Menu(TicketService.Apply(t, ChangeFor(a)))
  {
  }
}
