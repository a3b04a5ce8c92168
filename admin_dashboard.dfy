/**
 * The administrator's dashboard: the client-side search filter, the four stat
 * counters, the WhatsApp number built on payment confirmation, and the component
 * state its handlers update.
 */
module AdminDashboard {
  import opened Wrappers
  import opened Text
  import opened Seqs
  import opened TicketModel
  import opened TicketService
  import TicketForm

  // ----- search filter -----

  /** Name matched ignoring (ASCII) case; phone matched as typed. */
  predicate Matches(t: Ticket, search: string)
  {
    Contains(Lower(t.nome), Lower(search)) || Contains(t.telefone, search)
  }

  /** The list shown: everything for a blank search, else the matching tickets in list order. */
  function Filtered(tickets: seq<Ticket>, search: string): seq<Ticket>
  {
    if !IsBlank(search) then Filter(tickets, t => Matches(t, search)) else tickets
  }

  /** An empty or whitespace-only search shows the full list unchanged. */
  lemma BlankSearchShowsAll(tickets: seq<Ticket>, search: string)
    requires forall i :: 0 <= i < |search| ==> IsWhitespace(search[i])
    ensures Filtered(tickets, search) == tickets
  {
    BlankIffAllWhitespace(search);
  }

  /** A non-blank search keeps exactly the matching tickets, using the untrimmed query. */
  lemma FilteredExactly(tickets: seq<Ticket>, search: string)
    requires !IsBlank(search)
    ensures forall t :: t in Filtered(tickets, search) <==> t in tickets && Matches(t, search)
  {
    var r := Filtered(tickets, search);
    forall t ensures t in r <==> t in tickets && Matches(t, search) {
      if t in tickets && Matches(t, search) {
        var i :| 0 <= i < |tickets| && tickets[i] == t;
      }
      if t in r {
        var i :| 0 <= i < |r| && r[i] == t;
      }
    }
  }

  /** The shown list is an order-preserving selection of the loaded tickets. */
  lemma FilteredIsSubsequence(tickets: seq<Ticket>, search: string)
    ensures IsSubsequence(Filtered(tickets, search), tickets)
  {
    if IsBlank(search) {
      SubsequenceReflexive(tickets);
    } else {
      FilterIsSubsequence(tickets, t => Matches(t, search));
    }
  }

  /** Only the name is case-insensitive: a loaded ticket whose phone contains the query as typed is shown. */
  lemma PhoneMatchIsVerbatim(tickets: seq<Ticket>, k: nat, search: string)
    requires k < |tickets| && Contains(tickets[k].telefone, search) && !IsBlank(search)
    ensures tickets[k] in Filtered(tickets, search)
  {
  }

  // ----- stats -----

  datatype Stats = Stats(total: nat, paid: nat, pending: nat, used: nat)

  function StatsOf(tickets: seq<Ticket>): Stats
  {
    Stats(|tickets|,
          |Filter(tickets, (t: Ticket) => t.statusPagamento == Confirmado)|,
          |Filter(tickets, (t: Ticket) => t.statusPagamento == Pendente)|,
          |Filter(tickets, (t: Ticket) => t.usado)|)
  }

  /** Paid and pending never add up to more than the total, and used never exceeds it. */
  lemma StatsBounds(tickets: seq<Ticket>)
    ensures StatsOf(tickets).paid + StatsOf(tickets).pending <= StatsOf(tickets).total
    ensures StatsOf(tickets).used <= StatsOf(tickets).total
  {
    assert Confirmado != Pendente;
    DisjointFiltersBound(tickets, (t: Ticket) => t.statusPagamento == Confirmado, (t: Ticket) => t.statusPagamento == Pendente);
  }

  /** Every ticket the store writes is pending or confirmed, so there paid + pending is the total. */
  lemma {:induction false} StatsPartitionOfStoreRows(tickets: seq<Ticket>)
    requires forall i :: 0 <= i < |tickets| ==>
               tickets[i].statusPagamento == Confirmado || tickets[i].statusPagamento == Pendente
    ensures StatsOf(tickets).paid + StatsOf(tickets).pending == StatsOf(tickets).total
  {
    if tickets != [] {
      StatsPartitionOfStoreRows(tickets[1..]);
      assert Confirmado != Pendente;
    }
  }

  // ----- WhatsApp number -----

  /**
   * `handleConfirmPayment`'s phone: strip the non-digits, then prefix Brazil's
   * country code 55 when there are 11 digits or fewer.
   */
  method WhatsAppPhone(telefone: string) returns (phone: string)
    ensures AllDigits(phone)
    ensures |Digits(telefone)| <= 11 ==> phone == "55" + Digits(telefone)
    ensures |Digits(telefone)| > 11 ==> phone == Digits(telefone)
  {
    phone := Digits(telefone);
    if |phone| <= 11 {
      phone := "55" + phone;
    }
  }

  /** A phone entered through the form has at most 11 digits, so it always gets the 55 prefix. */
  lemma FormPhonesGetCountryCode(value: string)
    ensures |Digits(TicketForm.FormatPhone(value))| <= 11
  {
    TicketForm.FormatPhoneDigits(value);
  }

  /** The message sent to the buyer after confirmation. */
  function ConfirmationText(nome: string, link: string): string
  {
    "Olá " + nome + ", seu pagamento foi confirmado! \U{1F39F}\U{FE0F}\n\nAcesse seu ingresso aqui: " + link
  }

  datatype WhatsAppMessage = WhatsAppMessage(phone: string, text: string)

  // ----- component state -----

  class Dashboard {
    var tickets: seq<Ticket>
    var filtered: seq<Ticket>
    var search: string
    var loading: bool
    var refreshing: bool

    /** Once the filter effect has run, the shown list is the filter of the loaded list. */
    ghost predicate Valid()
      reads this
    {
      filtered == Filtered(tickets, search)
    }

    constructor ()
      ensures Valid() && tickets == [] && search == "" && loading && !refreshing
    {
      tickets, filtered, search := [], [], "";
      loading, refreshing := true, false;
    }

    /** Typing in the search bar; the filter effect re-runs. */
    method SearchChange(q: string)
      modifies this
      ensures Valid() && search == q && tickets == old(tickets)
      ensures loading == old(loading) && refreshing == old(refreshing)
    {
      search := q;
      filtered := Filtered(tickets, search);
    }

    /** `handleRefresh`: raise the refresh spinner, then reload with `fetchTickets`, which lowers it. */
    method HandleRefresh(table: TicketTable, fetchOk: bool)
      requires table.Valid()
      modifies this
      ensures Valid() && !loading && !refreshing && search == old(search)
      ensures fetchOk ==> tickets == NewestFirst(table.rows)
      ensures !fetchOk ==> tickets == old(tickets)
    {
      refreshing := true;
      FetchTickets(table, fetchOk);
    }

    /**
     * `fetchTickets`: on success the loaded list is `getAll`'s (and the filter effect
     * re-runs on it); on failure the list is kept. Either way both spinners stop.
     */
    method FetchTickets(table: TicketTable, ok: bool)
      requires table.Valid()
      modifies this
      ensures Valid() && !loading && !refreshing && search == old(search)
      ensures ok ==> tickets == NewestFirst(table.rows)
      ensures !ok ==> tickets == old(tickets)
    {
      var r := table.GetAll(ok);
      if r.Ok? {
        tickets := r.value;
      }
      filtered := Filtered(tickets, search);
      loading, refreshing := false, false;
    }

    /**
     * `handleConfirmPayment`: confirm in the store; on success, when the ticket is in
     * the loaded list, prepare the WhatsApp message to its buyer, then reload.
     * On failure only an error toast is shown.
     */
    method HandleConfirmPayment(table: TicketTable, id: string, origin: string, ok: bool, fetchOk: bool)
      returns (msg: Option<WhatsAppMessage>)
      requires Valid() && table.Valid()
      modifies this, table
      ensures Valid() && table.Valid()
      ensures table.State() == Updating(old(table.State()), id, ConfirmPaymentChange, ok).state
      ensures var confirmed := Updating(old(table.State()), id, ConfirmPaymentChange, ok).result.Ok?;
              var local := Lookup(old(tickets), id);
        && (msg.Some? <==> confirmed && local.Some?)
        && (msg.Some? ==> AllDigits(msg.value.phone)
                          && msg.value.text == ConfirmationText(local.value.nome, origin + TicketPath(local.value.id))
                          && (|Digits(local.value.telefone)| <= 11 ==>
                                msg.value.phone == "55" + Digits(local.value.telefone))
                          && (|Digits(local.value.telefone)| > 11 ==>
                                msg.value.phone == Digits(local.value.telefone)))
        && (confirmed && fetchOk ==> tickets == NewestFirst(table.rows))
        && (!confirmed || !fetchOk ==> tickets == old(tickets))
        && (confirmed ==> !loading && !refreshing)
        && (!confirmed ==> loading == old(loading) && refreshing == old(refreshing))
      ensures search == old(search)
    {
      var local := Lookup(tickets, id);
      var r := table.ConfirmPayment(id, ok);
      msg := None;
      if r.Err? {
        return;
      }
      if local.Some? {
        var phone := WhatsAppPhone(local.value.telefone);
        msg := Some(WhatsAppMessage(phone, ConfirmationText(local.value.nome, origin + TicketPath(local.value.id))));
      }
      FetchTickets(table, fetchOk);
    }

    /** `handleMarkAsUsed` and `handleRevertUsed`: update in the store, reload on success. */
    method HandleUsage(table: TicketTable, id: string, c: Change, ok: bool, fetchOk: bool)
      requires c == MarkAsUsedChange || c == RevertUsedChange
      requires Valid() && table.Valid()
      modifies this, table
      ensures Valid() && table.Valid()
      ensures table.State() == Updating(old(table.State()), id, c, ok).state
      ensures var done := Updating(old(table.State()), id, c, ok).result.Ok?;
        && (done && fetchOk ==> tickets == NewestFirst(table.rows))
        && (!done || !fetchOk ==> tickets == old(tickets))
        && (done ==> !loading && !refreshing)
        && (!done ==> loading == old(loading) && refreshing == old(refreshing))
      ensures search == old(search)
    {
      var r: Result<Ticket, StoreError>;
      if c == MarkAsUsedChange {
        r := table.MarkAsUsed(id, ok);
      } else {
        r := table.RevertUsed(id, ok);
      }
      if r.Ok? {
        FetchTickets(table, fetchOk);
      }
    }
  }
}
