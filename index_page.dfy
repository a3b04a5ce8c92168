/** The purchase page: submitting the form, the redirect or payment step, and "view my ticket". */
module IndexPage {
  import opened Wrappers
  import opened Text
  import opened TicketModel
  import opened TicketService
  import TicketForm

  /** `{...data, valor_total: data.quantidade * 30}`: what the page asks the store to create. */
  function TicketData(data: TicketForm.FormData): (d: CreateTicketData)
    ensures d.nome == data.nome && d.telefone == data.telefone && d.quantidade == data.quantidade
    ensures d.valorTotal == data.quantidade * 30
  {
    CreateTicketData(data.nome, data.telefone, data.quantidade, data.quantidade * 30)
  }

  /** The amount the payment step asks for. */
  function PixAmount(quantity: int): int
  {
    quantity * 30
  }

  /** The stored total, the form's displayed total and the Pix amount agree for the submitted quantity. */
  lemma TotalsAgree(data: TicketForm.FormData)
    ensures TicketData(data).valorTotal == TicketForm.Total(data.quantidade) == PixAmount(data.quantidade)
  {
  }

  /**
   * A repeat purchase from a phone that already has a ticket: the store returns the
   * earlier ticket untouched, with its earlier total, while the payment step asks
   * for the amount of the quantity just submitted.
   */
  lemma RepeatPurchaseAmountDiffers(st: TableState, data: TicketForm.FormData, insertOk: bool, newId: string, k: nat)
    requires OneTicketPerPhone(st.rows)
    requires k < |st.rows| && st.rows[k].telefone == data.telefone
    requires st.rows[k].valorTotal != Some(PixAmount(data.quantidade))
    ensures Created(st, TicketData(data), true, insertOk, newId) == Step(st, Ok(st.rows[k]))
    ensures Created(st, TicketData(data), true, insertOk, newId).result.value.valorTotal
            != Some(PixAmount(data.quantidade))
  {
    var m := LatestWithPhone(st.rows, data.telefone).value;
    assert m == k;
  }

  /**
   * The store's `search` has no blank-query rule: a query of one space matches the
   * space after `(dd)` in every phone the form formatted from three or more digits.
   */
  lemma SpaceQueryMatchesFormattedPhone(t: Ticket, v: string)
    requires t.telefone == TicketForm.FormatPhone(v) && |Digits(v)| > 2
    ensures IlikeMatch(t, " ")
    ensures t in SearchResult([t], " ")
  {
    TicketForm.FormatPhoneShape(v);
    assert Lower(" ") == " ";
    assert Lower(t.telefone)[4] == ' ';
    assert OccursAt(Lower(t.telefone), Lower(" "), 4);
    assert NewestFirst([t]) == [t];
  }

  class PurchasePage {
    var isLoading: bool
    var showPayment: bool
    var ticketId: Option<string>
    var quantity: int

    constructor ()
      ensures !isLoading && !showPayment && ticketId == None && quantity == 1
    {
      isLoading, showPayment, ticketId, quantity := false, false, None, 1;
    }

    /**
     * `handleSubmit`: create the ticket; a confirmed ticket redirects to its page
     * without entering the payment step; any other ticket enters the payment step
     * with its id and the submitted quantity; a failure changes nothing but a toast.
     * The loading flag is cleared in every case.
     */
    method HandleSubmit(table: TicketTable, data: TicketForm.FormData, lookupOk: bool, insertOk: bool, newId: string)
      returns (nav: Option<string>)
      requires table.Valid()
      modifies this, table
      ensures table.Valid() && !isLoading
      ensures var s := Created(old(table.State()), TicketData(data), lookupOk, insertOk, newId);
        && table.State() == s.state
        && (s.result.Ok? && s.result.value.statusPagamento == Confirmado ==>
              && nav == Some(TicketPath(s.result.value.id))
              && showPayment == old(showPayment) && ticketId == old(ticketId) && quantity == old(quantity))
        && (s.result.Ok? && s.result.value.statusPagamento != Confirmado ==>
              nav == None && showPayment && ticketId == Some(s.result.value.id) && quantity == data.quantidade)
        && (s.result.Err? ==>
              nav == None && showPayment == old(showPayment) && ticketId == old(ticketId) && quantity == old(quantity))
    {
      isLoading := true;
      nav := None;
      var r := table.Create(TicketData(data), lookupOk, insertOk, newId);
      if r.Ok? {
        if r.value.statusPagamento == Confirmado {
          nav := Some(TicketPath(r.value.id));
        } else {
          ticketId := Some(r.value.id);
          quantity := data.quantidade;
          showPayment := true;
        }
      }
      isLoading := false;
    }

    /** `handleViewTicket`: navigate only when an id is held; an empty id is falsy and does nothing. */
    method HandleViewTicket() returns (nav: Option<string>)
      ensures nav.Some? <==> ticketId.Some? && ticketId.value != ""
      ensures nav.Some? ==> nav.value == TicketPath(ticketId.value)
    {
      if ticketId.Some? && ticketId.value != "" {
        nav := Some(TicketPath(ticketId.value));
      } else {
        nav := None;
      }
    }
  }
}
