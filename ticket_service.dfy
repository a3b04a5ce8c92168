/**
 * The ticket store: the hosted `tickets` table and the seven operations the
 * application performs on it. The table is a sequence of rows in insertion
 * order (newest last); the collaborator's failures and the identifier it
 * generates for a new row are parameters of the operations.
 */
module TicketService {
  import opened Wrappers
  import opened Text
  import opened Seqs
  import opened TicketModel

  /** A failed request to the collaborator, or an update whose id matched no row. */
  datatype StoreError = PersistenceError | NotFound

  /** The table's rows, oldest first, and the clock that stamps `criado_em` on insert. */
  datatype TableState = TableState(rows: seq<Ticket>, clock: nat)

  /** The table after an operation, and what the operation returned. */
  datatype Step = Step(state: TableState, result: Result<Ticket, StoreError>)

  /** Ids are unique and creation stamps increase along the rows, all below the clock. */
  ghost predicate WellFormed(st: TableState)
  {
    && (forall i, j :: 0 <= i < j < |st.rows| ==>
          st.rows[i].id != st.rows[j].id && st.rows[i].criadoEm < st.rows[j].criadoEm)
    && (forall i :: 0 <= i < |st.rows| ==> st.rows[i].criadoEm < st.clock)
  }

  /** The duplicate-prevention rule: no two rows share a `telefone`. */
  ghost predicate OneTicketPerPhone(rows: seq<Ticket>)
  {
    forall i, j :: 0 <= i < j < |rows| ==> rows[i].telefone != rows[j].telefone
  }

  // ----- queries -----

  /** `.eq("id", id).single()`: the row with that id, if any. */
  function Lookup(rows: seq<Ticket>, id: string): (r: Option<Ticket>)
    ensures r.Some? ==> r.value in rows && r.value.id == id
    ensures r.None? <==> forall i :: 0 <= i < |rows| ==> rows[i].id != id
  {
    if rows == [] then None
    else if rows[0].id == id then Some(rows[0])
    else Lookup(rows[1..], id)
  }

  /** With unique ids, the row found is the one row carrying that id. */
  lemma LookupFindsRow(st: TableState, k: nat)
    requires WellFormed(st) && k < |st.rows|
    ensures Lookup(st.rows, st.rows[k].id) == Some(st.rows[k])
  {
    var r := Lookup(st.rows, st.rows[k].id);
    var j :| 0 <= j < |st.rows| && st.rows[j] == r.value;
    assert j == k;
  }

  /**
   * `.eq("telefone", phone).order("criado_em", {ascending: false}).limit(1)`:
   * the index of the most recently inserted row with that phone, if any.
   */
  function LatestWithPhone(rows: seq<Ticket>, phone: string): (k: Option<nat>)
    ensures k.Some? ==> k.value < |rows| && rows[k.value].telefone == phone
                        && forall j :: k.value < j < |rows| ==> rows[j].telefone != phone
    ensures k.None? <==> forall j :: 0 <= j < |rows| ==> rows[j].telefone != phone
  {
    if rows == [] then None
    else if rows[|rows| - 1].telefone == phone then Some(|rows| - 1)
    else LatestWithPhone(rows[..|rows| - 1], phone)
  }

  /** `getAll`: every row, newest first. */
  function NewestFirst(rows: seq<Ticket>): seq<Ticket>
  {
    Reverse(rows)
  }

  /** `ilike '%q%'` on `nome` or on `telefone`. */
  predicate IlikeMatch(t: Ticket, q: string)
  {
    Contains(Lower(t.nome), Lower(q)) || Contains(Lower(t.telefone), Lower(q))
  }

  /** `search(q)`: the rows matching `q`, newest first. */
  function SearchResult(rows: seq<Ticket>, q: string): seq<Ticket>
  {
    Filter(NewestFirst(rows), t => IlikeMatch(t, q))
  }

  ghost predicate NewestFirstOrder(ts: seq<Ticket>)
  {
    forall i, j :: 0 <= i < j < |ts| ==> ts[i].criadoEm > ts[j].criadoEm
  }

  /** `getAll` lists every row exactly once, ordered by `criado_em` descending. */
  lemma GetAllOrdered(st: TableState)
    requires WellFormed(st)
    ensures NewestFirstOrder(NewestFirst(st.rows))
    ensures multiset(NewestFirst(st.rows)) == multiset(st.rows)
  {
    ReversePermutes(st.rows);
  }

  lemma {:induction false} SubsequenceKeepsOrder(a: seq<Ticket>, b: seq<Ticket>)
    requires IsSubsequence(a, b) && NewestFirstOrder(b)
    ensures NewestFirstOrder(a)
    decreases |b|
  {
    if a != [] && b != [] {
      if a[0] == b[0] && IsSubsequence(a[1..], b[1..]) {
        SubsequenceKeepsOrder(a[1..], b[1..]);
        SubsequenceHead(a[1..], b[1..]);
        forall i, j | 0 <= i < j < |a| ensures a[i].criadoEm > a[j].criadoEm {
          if i == 0 {
            var m :| 0 <= m < |b[1..]| && b[1..][m] == a[j];
          } else {
            assert a[i] == a[1..][i - 1] && a[j] == a[1..][j - 1];
          }
        }
      } else {
        SubsequenceKeepsOrder(a, b[1..]);
      }
    }
  }

  /**
   * `search(q)` returns exactly the rows whose name or phone contains `q` ignoring
   * case, as an order-preserving selection of `getAll`, so newest first.
   */
  lemma SearchIsSelectionOfGetAll(st: TableState, q: string)
    requires WellFormed(st)
    ensures forall t :: t in SearchResult(st.rows, q) <==> t in st.rows && IlikeMatch(t, q)
    ensures IsSubsequence(SearchResult(st.rows, q), NewestFirst(st.rows))
    ensures NewestFirstOrder(SearchResult(st.rows, q))
  {
    var all := NewestFirst(st.rows);
    var p := t => IlikeMatch(t, q);
    GetAllOrdered(st);
    assert forall t :: t in all <==> t in st.rows by {
      ReversePermutes(st.rows);
      assert forall t :: t in all <==> t in multiset(all);
    }
    forall t ensures t in SearchResult(st.rows, q) <==> t in st.rows && IlikeMatch(t, q) {
      if t in all && p(t) {
        var i :| 0 <= i < |all| && all[i] == t;
      }
      if t in SearchResult(st.rows, q) {
        var i :| 0 <= i < |SearchResult(st.rows, q)| && SearchResult(st.rows, q)[i] == t;
      }
    }
    FilterIsSubsequence(all, p);
    SubsequenceKeepsOrder(SearchResult(st.rows, q), all);
  }

  /** An empty pattern `%%` matches every row, so `search("")` is `getAll`. */
  lemma SearchEmptyIsGetAll(rows: seq<Ticket>)
    ensures SearchResult(rows, "") == NewestFirst(rows)
  {
    var all := NewestFirst(rows);
    forall i | 0 <= i < |all| ensures IlikeMatch(all[i], "") {
      assert Lower("") == [];
      ContainsEmpty(Lower(all[i].nome));
    }
    FilterAll(all, t => IlikeMatch(t, ""));
  }

  // ----- create -----

  /** The row `insert({...data, status_pagamento: 'pendente', usado: false})` adds. */
  function NewRow(data: CreateTicketData, id: string, stamp: nat): Ticket
  {
    Ticket(id, data.nome, data.telefone, Pendente, false, stamp, Some(data.quantidade), Some(data.valorTotal))
  }

  /**
   * `create`: look up the newest row with the caller's phone; when the lookup
   * succeeds and finds one, return it untouched. Otherwise (none found, or the
   * lookup failed, which is only logged) insert a new row, which fails when the
   * collaborator rejects the insert or the generated id is already taken.
   */
  function Created(st: TableState, data: CreateTicketData, lookupOk: bool, insertOk: bool, newId: string): Step
  {
    var found := if lookupOk then LatestWithPhone(st.rows, data.telefone) else None;
    if found.Some? then Step(st, Ok(st.rows[found.value]))
    else if !insertOk || Lookup(st.rows, newId).Some? then Step(st, Err(PersistenceError))
    else
      var t := NewRow(data, newId, st.clock);
      Step(TableState(st.rows + [t], st.clock + 1), Ok(t))
  }

  /** A phone that already has a ticket gets back the newest such ticket; the table is unchanged. */
  lemma CreateReturnsExisting(st: TableState, data: CreateTicketData, insertOk: bool, newId: string, k: nat)
    requires k < |st.rows| && st.rows[k].telefone == data.telefone
    ensures var s := Created(st, data, true, insertOk, newId);
      && s.state == st
      && s.result.Ok? && s.result.value.telefone == data.telefone
      && (exists m :: k <= m < |st.rows| && st.rows[m] == s.result.value
                      && forall j :: m < j < |st.rows| ==> st.rows[j].telefone != data.telefone)
  {
    var m := LatestWithPhone(st.rows, data.telefone).value;
    assert k <= m;
  }

  /**
   * With no ticket for the phone (or a failed lookup), a successful insert appends
   * exactly one row: pending, unused, carrying the caller's fields and the new id.
   */
  lemma CreateInsertsPendingRow(st: TableState, data: CreateTicketData, lookupOk: bool, newId: string)
    requires WellFormed(st)
    requires lookupOk ==> forall i :: 0 <= i < |st.rows| ==> st.rows[i].telefone != data.telefone
    requires forall i :: 0 <= i < |st.rows| ==> st.rows[i].id != newId
    ensures var s := Created(st, data, lookupOk, true, newId);
      && s.result.Ok?
      && s.state.rows == st.rows + [s.result.value]
      && s.result.value.id == newId
      && s.result.value.statusPagamento == Pendente && !s.result.value.usado
      && s.result.value.nome == data.nome && s.result.value.telefone == data.telefone
      && s.result.value.quantidade == Some(data.quantidade)
      && s.result.value.valorTotal == Some(data.valorTotal)
      && WellFormed(s.state)
  {
  }

  /** A rejected insert is an error and leaves the table as it was. */
  lemma CreateInsertFailure(st: TableState, data: CreateTicketData, lookupOk: bool, newId: string)
    requires lookupOk ==> forall i :: 0 <= i < |st.rows| ==> st.rows[i].telefone != data.telefone
    ensures Created(st, data, lookupOk, false, newId) == Step(st, Err(PersistenceError))
  {
  }

  /**
   * The lookup error is swallowed: `create` then inserts even when the phone already
   * has a ticket, and the table ends up with two tickets for one phone.
   */
  lemma FailedLookupDuplicatesPhone(st: TableState, data: CreateTicketData, newId: string, k: nat)
    requires k < |st.rows| && st.rows[k].telefone == data.telefone
    requires forall i :: 0 <= i < |st.rows| ==> st.rows[i].id != newId
    ensures Created(st, data, false, true, newId).result.Ok?
    ensures !OneTicketPerPhone(Created(st, data, false, true, newId).state.rows)
  {
    var rows' := Created(st, data, false, true, newId).state.rows;
    assert rows'[k].telefone == rows'[|st.rows|].telefone;
  }

  /** Every outcome of `create` keeps ids unique and creation stamps ordered. */
  lemma CreatePreservesWellFormed(st: TableState, data: CreateTicketData, lookupOk: bool, insertOk: bool, newId: string)
    requires WellFormed(st)
    ensures WellFormed(Created(st, data, lookupOk, insertOk, newId).state)
  {
  }

  /** When its lookup succeeds, `create` keeps at most one ticket per phone. */
  lemma CreatePreservesOneTicketPerPhone(st: TableState, data: CreateTicketData, insertOk: bool, newId: string)
    requires OneTicketPerPhone(st.rows)
    ensures OneTicketPerPhone(Created(st, data, true, insertOk, newId).state.rows)
  {
    var found := LatestWithPhone(st.rows, data.telefone);
    if found.None? && insertOk && Lookup(st.rows, newId).None? {
      var rows' := Created(st, data, true, insertOk, newId).state.rows;
      forall i, j | 0 <= i < j < |rows'| ensures rows'[i].telefone != rows'[j].telefone {
        if j == |st.rows| {
          assert rows'[i] == st.rows[i];
        } else {
          assert rows'[i] == st.rows[i] && rows'[j] == st.rows[j];
        }
      }
    }
  }

  /**
   * Creating twice with the same phone gives back the same ticket (same `id`) and
   * changes nothing the second time, whatever the second call's name and quantity.
   */
  lemma CreateTwiceSameTicket(st: TableState, d1: CreateTicketData, d2: CreateTicketData,
                              lookupOk: bool, insertOk1: bool, insertOk2: bool, id1: string, id2: string)
    requires d2.telefone == d1.telefone
    requires Created(st, d1, lookupOk, insertOk1, id1).result.Ok?
    ensures var s1 := Created(st, d1, lookupOk, insertOk1, id1);
            var s2 := Created(s1.state, d2, true, insertOk2, id2);
            s2 == Step(s1.state, s1.result) && s2.result.value.id == s1.result.value.id
  {
    var s1 := Created(st, d1, lookupOk, insertOk1, id1);
    var found := if lookupOk then LatestWithPhone(st.rows, d1.telefone) else None;
    if found.Some? {
      assert s1.state == st;
    } else {
      var rows' := s1.state.rows;
      assert rows'[|rows'| - 1] == s1.result.value;
    }
  }

  /** `getById` of the id a fresh `create` returned finds that pending, unused row. */
  lemma GetByIdAfterCreate(st: TableState, data: CreateTicketData, lookupOk: bool, newId: string)
    requires WellFormed(st)
    requires lookupOk ==> forall i :: 0 <= i < |st.rows| ==> st.rows[i].telefone != data.telefone
    requires forall i :: 0 <= i < |st.rows| ==> st.rows[i].id != newId
    ensures var s := Created(st, data, lookupOk, true, newId);
      && s.result.Ok?
      && Lookup(s.state.rows, s.result.value.id) == Some(s.result.value)
      && s.result.value.statusPagamento == Pendente && !s.result.value.usado
  {
    CreateInsertsPendingRow(st, data, lookupOk, newId);
    var s := Created(st, data, lookupOk, true, newId);
    LookupFindsRow(s.state, |st.rows|);
  }

  // ----- confirmPayment, markAsUsed, revertUsed -----

  /** The single column an update writes. */
  datatype Change = SetStatus(status: string) | SetUsado(usado: bool)

  const ConfirmPaymentChange: Change := SetStatus(Confirmado)
  const MarkAsUsedChange: Change := SetUsado(true)
  const RevertUsedChange: Change := SetUsado(false)

  function Apply(t: Ticket, c: Change): Ticket
  {
    match c
    case SetStatus(s) => t.(statusPagamento := s)
    case SetUsado(u) => t.(usado := u)
  }

  /** `.update(change).eq("id", id)`: every row with that id gets the change. */
  function Updated(rows: seq<Ticket>, id: string, c: Change): seq<Ticket>
  {
    seq(|rows|, i requires 0 <= i < |rows| => if rows[i].id == id then Apply(rows[i], c) else rows[i])
  }

  /**
   * An update operation: a failed request is a persistence error; an id that
   * matches no row makes `.single()` fail (not found); otherwise the row is
   * changed and returned.
   */
  function Updating(st: TableState, id: string, c: Change, ok: bool): Step
  {
    if !ok then Step(st, Err(PersistenceError))
    else match Lookup(st.rows, id)
      case None => Step(st, Err(NotFound))
      case Some(t) => Step(st.(rows := Updated(st.rows, id, c)), Ok(Apply(t, c)))
  }

  /** Each change writes exactly one column and leaves every other field as it was. */
  lemma ApplyWritesOneField(t: Ticket, c: Change)
    ensures c.SetStatus? ==> Apply(t, c).statusPagamento == c.status
                             && Apply(t, c).(statusPagamento := t.statusPagamento) == t
    ensures c.SetUsado? ==> Apply(t, c).usado == c.usado && Apply(t, c).(usado := t.usado) == t
  {
  }

  /** The target row gets the change; every other row is unchanged; ids are preserved. */
  lemma UpdateTouchesOneRow(st: TableState, id: string, c: Change, k: nat)
    requires WellFormed(st) && k < |st.rows| && st.rows[k].id == id
    ensures var s := Updating(st, id, c, true);
      && s.result == Ok(Apply(st.rows[k], c))
      && |s.state.rows| == |st.rows| && s.state.clock == st.clock
      && s.state.rows[k] == Apply(st.rows[k], c)
      && forall j :: 0 <= j < |st.rows| && j != k ==> s.state.rows[j] == st.rows[j]
  {
    LookupFindsRow(st, k);
  }

  /** An update of an absent id is `NotFound` and changes nothing. */
  lemma UpdateAbsentIsNotFound(st: TableState, id: string, c: Change)
    requires forall i :: 0 <= i < |st.rows| ==> st.rows[i].id != id
    ensures Updating(st, id, c, true) == Step(st, Err(NotFound))
  {
  }

  lemma {:induction false} LookupUpdated(rows: seq<Ticket>, id: string, c: Change)
    ensures Lookup(Updated(rows, id, c), id) ==
            (match Lookup(rows, id) case None => None case Some(t) => Some(Apply(t, c)))
  {
    if rows != [] {
      LookupUpdated(rows[1..], id, c);
      assert Updated(rows, id, c)[1..] == Updated(rows[1..], id, c);
    }
  }

  /** Repeating an update returns the same row and leaves the same table. */
  lemma UpdateIdempotent(st: TableState, id: string, c: Change)
    ensures var s1 := Updating(st, id, c, true);
            Updating(s1.state, id, c, true) == s1
  {
    LookupUpdated(st.rows, id, c);
    var s1 := Updating(st, id, c, true);
    if Lookup(st.rows, id).Some? {
      assert Updated(Updated(st.rows, id, c), id, c) == Updated(st.rows, id, c);
    }
  }

  /**
   * `markAsUsed` then `revertUsed` leaves `statusPagamento` alone, and on a ticket
   * that was not used it restores the table exactly.
   */
  lemma MarkThenRevert(st: TableState, id: string, k: nat)
    requires WellFormed(st) && k < |st.rows| && st.rows[k].id == id
    ensures var s1 := Updating(st, id, MarkAsUsedChange, true);
            var s2 := Updating(s1.state, id, RevertUsedChange, true);
      && s2.result.Ok? && !s2.result.value.usado
      && s2.result.value.statusPagamento == st.rows[k].statusPagamento
      && (!st.rows[k].usado ==> s2.state == st)
  {
    LookupFindsRow(st, k);
    LookupUpdated(st.rows, id, MarkAsUsedChange);
    var s1 := Updating(st, id, MarkAsUsedChange, true);
    var s2 := Updating(s1.state, id, RevertUsedChange, true);
    if !st.rows[k].usado {
      forall j | 0 <= j < |st.rows| ensures s2.state.rows[j] == st.rows[j] {
        if j != k { assert st.rows[j].id != id; }
      }
    }
  }

  /** `markAsUsed` does not look at the payment status: a pending ticket can be marked used. */
  lemma MarkAsUsedIgnoresPayment(st: TableState, k: nat)
    requires WellFormed(st) && k < |st.rows| && st.rows[k].statusPagamento == Pendente
    ensures var s := Updating(st, st.rows[k].id, MarkAsUsedChange, true);
      s.result.Ok? && s.result.value.usado && s.result.value.statusPagamento == Pendente
  {
    LookupFindsRow(st, k);
  }

  /** Updates keep ids unique, stamps ordered, and phones unique. */
  lemma UpdatePreservesInvariants(st: TableState, id: string, c: Change, ok: bool)
    requires WellFormed(st)
    ensures WellFormed(Updating(st, id, c, ok).state)
    ensures OneTicketPerPhone(st.rows) ==> OneTicketPerPhone(Updating(st, id, c, ok).state.rows)
  {
  }

  /** Every row's payment status is one of the two the application writes. */
  ghost predicate KnownStatuses(rows: seq<Ticket>)
  {
    forall i :: 0 <= i < |rows| ==> rows[i].statusPagamento == Pendente || rows[i].statusPagamento == Confirmado
  }

  /** `create` and the three updates only ever write "pendente" or "confirmado". */
  lemma OperationsKeepKnownStatuses(st: TableState, data: CreateTicketData, lookupOk: bool, insertOk: bool,
                                   newId: string, id: string, c: Change, ok: bool)
    requires KnownStatuses(st.rows)
    requires c == ConfirmPaymentChange || c == MarkAsUsedChange || c == RevertUsedChange
    ensures KnownStatuses(Created(st, data, lookupOk, insertOk, newId).state.rows)
    ensures KnownStatuses(Updating(st, id, c, ok).state.rows)
  {
  }

  /** After an update, `getById` sees the updated row. */
  lemma GetByIdAfterUpdate(st: TableState, id: string, c: Change)
    requires Updating(st, id, c, true).result.Ok?
    ensures Lookup(Updating(st, id, c, true).state.rows, id) == Some(Updating(st, id, c, true).result.value)
  {
    LookupUpdated(st.rows, id, c);
  }

  /** The example purchase: "Ana Silva", phone "(11) 91234-5678", two seats. */
  const AnaData: CreateTicketData := CreateTicketData("Ana Silva", "(11) 91234-5678", 2, 2 * 30)

  /**
   * Create on an empty table, create again, confirm, mark used, revert: the repeat
   * returns the first id, and each step shows the expected status.
   */
  lemma AnaSilvaLifecycle()
    ensures var s1 := Created(TableState([], 0), AnaData, true, true, "a1");
            var s2 := Created(s1.state, AnaData, true, true, "a2");
            var s3 := Updating(s2.state, "a1", ConfirmPaymentChange, true);
            var s4 := Updating(s3.state, "a1", MarkAsUsedChange, true);
            var s5 := Updating(s4.state, "a1", RevertUsedChange, true);
      && s1.result.Ok? && s1.result.value.valorTotal == Some(60)
      && s1.result.value.statusPagamento == Pendente && !s1.result.value.usado
      && s2.result.Ok? && s2.result.value.id == "a1" && |s2.state.rows| == 1
      && Lookup(s3.state.rows, "a1").Some? && Lookup(s3.state.rows, "a1").value.statusPagamento == Confirmado
      && s4.result.Ok? && s4.result.value.usado
      && s5.result.Ok? && !s5.result.value.usado && s5.result.value.statusPagamento == Confirmado
  {
    var s1 := Created(TableState([], 0), AnaData, true, true, "a1");
    var t := s1.result.value;
    assert s1.state.rows == [t];
    var s2 := Created(s1.state, AnaData, true, true, "a2");
    assert s2 == s1;
    var s3 := Updating(s2.state, "a1", ConfirmPaymentChange, true);
    assert s3.state.rows == [Apply(t, ConfirmPaymentChange)];
    var s4 := Updating(s3.state, "a1", MarkAsUsedChange, true);
    assert s4.state.rows == [Apply(Apply(t, ConfirmPaymentChange), MarkAsUsedChange)];
  }

  /** "ana", "SILVA" and "1234" each find the example ticket. */
  lemma AnaSilvaSearch(t: Ticket)
    requires t.nome == AnaData.nome && t.telefone == AnaData.telefone
    ensures SearchResult([t], "ana") == [t]
    ensures SearchResult([t], "SILVA") == [t]
    ensures SearchResult([t], "1234") == [t]
  {
    assert Lower(t.nome) == "ana silva";
    assert Lower("ana") == "ana" && Lower("SILVA") == "silva" && Lower("1234") == "1234";
    assert OccursAt(Lower(t.nome), "ana", 0);
    assert OccursAt(Lower(t.nome), "silva", 4);
    assert Lower(t.telefone) == t.telefone;
    assert OccursAt(t.telefone, "1234", 6);
    assert NewestFirst([t]) == [t];
  }

  /** The table object the service talks to. */
  class TicketTable {
    var rows: seq<Ticket>
    var clock: nat

    function State(): TableState
      reads this
    {
      TableState(rows, clock)
    }

    ghost predicate Valid()
      reads this
    {
      WellFormed(State())
    }

    constructor ()
      ensures Valid() && rows == [] && clock == 0
    {
      rows, clock := [], 0;
    }

    method Create(data: CreateTicketData, lookupOk: bool, insertOk: bool, newId: string)
      returns (r: Result<Ticket, StoreError>)
      requires Valid()
      modifies this
      ensures Valid()
      ensures Step(State(), r) == Created(old(State()), data, lookupOk, insertOk, newId)
    {
      var found: Option<nat> := None;
      if lookupOk {
        found := LatestWithPhone(rows, data.telefone);
      }
      if found.Some? {
        return Ok(rows[found.value]);
      }
      if !insertOk || Lookup(rows, newId).Some? {
        return Err(PersistenceError);
      }
      var t := NewRow(data, newId, clock);
      rows, clock := rows + [t], clock + 1;
      r := Ok(t);
    }

    /** `getById`: a missing id is a normal `None`; only a failed request is an error. */
    method GetById(id: string, ok: bool) returns (r: Result<Option<Ticket>, StoreError>)
      requires Valid()
      ensures !ok ==> r == Err(PersistenceError)
      ensures ok ==> r.Ok?
      ensures ok ==> (r.value.None? <==> forall i :: 0 <= i < |rows| ==> rows[i].id != id)
      ensures ok ==> forall i :: 0 <= i < |rows| && rows[i].id == id ==> r.value == Some(rows[i])
    {
      if !ok {
        return Err(PersistenceError);
      }
      r := Ok(Lookup(rows, id));
      forall i | 0 <= i < |rows| && rows[i].id == id ensures r.value == Some(rows[i]) {
        LookupFindsRow(State(), i);
      }
    }

    /** `getAll`: every row once, ordered by `criado_em` descending. */
    method GetAll(ok: bool) returns (r: Result<seq<Ticket>, StoreError>)
      requires Valid()
      ensures !ok ==> r == Err(PersistenceError)
      ensures ok ==> r.Ok? && r.value == NewestFirst(rows)
      ensures ok ==> NewestFirstOrder(r.value) && multiset(r.value) == multiset(rows)
    {
      if !ok {
        return Err(PersistenceError);
      }
      GetAllOrdered(State());
      r := Ok(NewestFirst(rows));
    }

    /** `search(q)`: exactly the rows whose name or phone contains `q` ignoring case, newest first. */
    method Search(q: string, ok: bool) returns (r: Result<seq<Ticket>, StoreError>)
      requires Valid()
      ensures !ok ==> r == Err(PersistenceError)
      ensures ok ==> r.Ok? && NewestFirstOrder(r.value)
      ensures ok ==> forall t :: t in r.value <==> t in rows && IlikeMatch(t, q)
    {
      if !ok {
        return Err(PersistenceError);
      }
      SearchIsSelectionOfGetAll(State(), q);
      r := Ok(SearchResult(rows, q));
    }

    method Update(id: string, c: Change, ok: bool) returns (r: Result<Ticket, StoreError>)
      requires Valid()
      modifies this
      ensures Valid()
      ensures Step(State(), r) == Updating(old(State()), id, c, ok)
    {
      UpdatePreservesInvariants(State(), id, c, ok);
      if !ok {
        return Err(PersistenceError);
      }
      var found := Lookup(rows, id);
      if found.None? {
        return Err(NotFound);
      }
      rows := Updated(rows, id, c);
      r := Ok(Apply(found.value, c));
    }

    /** `confirmPayment`: sets `status_pagamento` to "confirmado" on the row with that id. */
    method ConfirmPayment(id: string, ok: bool) returns (r: Result<Ticket, StoreError>)
      requires Valid()
      modifies this
      ensures Valid()
      ensures Step(State(), r) == Updating(old(State()), id, ConfirmPaymentChange, ok)
    {
      r := Update(id, ConfirmPaymentChange, ok);
    }

    /** `markAsUsed`: sets `usado`, with no check on the payment status. */
    method MarkAsUsed(id: string, ok: bool) returns (r: Result<Ticket, StoreError>)
      requires Valid()
      modifies this
      ensures Valid()
      ensures Step(State(), r) == Updating(old(State()), id, MarkAsUsedChange, ok)
    {
      r := Update(id, MarkAsUsedChange, ok);
    }

    /** `revertUsed`: clears `usado`. */
    method RevertUsed(id: string, ok: bool) returns (r: Result<Ticket, StoreError>)
      requires Valid()
      modifies this
      ensures Valid()
      ensures Step(State(), r) == Updating(old(State()), id, RevertUsedChange, ok)
    {
      r := Update(id, RevertUsedChange, ok);
    }
  }
}
