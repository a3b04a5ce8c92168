/** The one entity of the system: a row of the hosted `tickets` table. */
module TicketModel {
  import opened Wrappers

  /** The two payment states the application writes and tests for. */
  const Pendente: string := "pendente"
  const Confirmado: string := "confirmado"

  /**
   * A ticket row. `statusPagamento` is free text in the table; only `Pendente` and
   * `Confirmado` are ever written. `criadoEm` is the server's creation stamp, a number
   * that grows with every insert. `quantidade` and `valorTotal` are optional columns.
   */
  datatype Ticket = Ticket(
    id: string,
    nome: string,
    telefone: string,
    statusPagamento: string,
    usado: bool,
    criadoEm: nat,
    quantidade: Option<int>,
    valorTotal: Option<int>)

  /** What a caller hands to the store to create a ticket. */
  datatype CreateTicketData = CreateTicketData(nome: string, telefone: string, quantidade: int, valorTotal: int)

  /** The application route of a ticket's page, `/ingresso/<id>`. */
  function TicketPath(id: string): (p: string)
    ensures |p| == |"/ingresso/"| + |id|
    ensures p[..|"/ingresso/"|] == "/ingresso/" && p[|"/ingresso/"|..] == id
  {
    "/ingresso/" + id
  }

  /** Distinct tickets have distinct pages. */
  lemma TicketPathInjective(a: string, b: string)
    requires TicketPath(a) == TicketPath(b)
    ensures a == b
  {
    assert a == TicketPath(a)[|"/ingresso/"|..];
  }
}
