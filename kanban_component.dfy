/**
 * The board component: how it derives a ticket's `order` from the elements
 * shown on a board, and what it asks of the service when a ticket is added,
 * edited, dragged, dropped or removed.
 */
module KanbanComponent {
  import opened Values
  import opened Records
  import opened TicketModule
  import opened KanbanDb
  import opened KanbanService

  // ---------------------------------------------------------------------------
  // The boards on the page
  // ---------------------------------------------------------------------------

  /**
   * The elements of every board, by column key, in page order. An element is
   * given by its `data-eid`; the load-more button has none and shows as `Absent`.
   */
  type Board = map<nat, seq<Key>>

  /** `columnId` designates a board on the page (looking up any other throws). */
  predicate OnBoard(board: Board, columnId: Key)
  {
    KeyOf(columnId).Some? && KeyOf(columnId).value in board
  }

  /** `getBoardElements(columnId)`: the load-more button included. */
  function Elements(board: Board, columnId: Key): seq<Key>
    requires OnBoard(board, columnId)
  {
    board[KeyOf(columnId).value]
  }

  /**
   * A column's load-more button is on the page (`document.getElementById(columnId)`);
   * with the button kept last, that is when the board ends with it.
   */
  predicate HasButton(board: Board, columnId: Key)
    requires OnBoard(board, columnId)
    ensures ButtonLast(Elements(board, columnId)) ==>
      (HasButton(board, columnId) <==>
         |Elements(board, columnId)| > 0 && Elements(board, columnId)[|Elements(board, columnId)| - 1] == Absent)
  {
    Absent in Elements(board, columnId)
  }

  /** The button, if any, is the last element of the board and the only one without a `data-eid`. */
  predicate ButtonLast(els: seq<Key>)
  {
    forall i | 0 <= i < |els| - 1 :: els[i] != Absent
  }

  /** `addElement`: the element goes after every element already there (the button included). */
  function AddElement(els: seq<Key>, id: Key): seq<Key>
  {
    els + [id]
  }

  /** The service calls whose bodies are not part of this model, as the component issues them. */
  datatype Request =
    | RegenerateByIncrement(columnId: Key, ticket: Option<Ticket>)
    | RegenerateByDecrement(columnId: Key, ticket: Option<Ticket>)
    | FetchColumnWithTickets(columnId: Key, offset: int)

  // ---------------------------------------------------------------------------
  // Order from the board
  // ---------------------------------------------------------------------------

  /**
   * `getTicketOrderOnElementAdded`: the number of elements on the board, which
   * is the position at which an element appended to the board is found.
   */
  function GetTicketOrderOnElementAdded(board: Board, columnId: Key): (n: nat)
    requires OnBoard(board, columnId)
    ensures forall e | e !in Elements(board, columnId) :: Position(AddElement(Elements(board, columnId), e), e) == n
  {
    |Elements(board, columnId)|
  }

  /** The index of the last element equal to `e`, or -1 when there is none. */
  function LastIndex(els: seq<Key>, e: Key): (r: int)
    ensures -1 <= r < |els|
    ensures r == -1 <==> e !in els
    ensures r >= 0 ==> els[r] == e && forall j | r < j < |els| :: els[j] != e
  {
    if |els| == 0 then -1
    else if els[|els| - 1] == e then |els| - 1
    else LastIndex(els[..|els| - 1], e)
  }

  /**
   * The order `getOrderOfAnElementInBoard` finds: the index of the last
   * element with that id, and 0 when there is none.
   */
  function Position(els: seq<Key>, e: Key): (p: nat)
    ensures e in els ==> p < |els| && els[p] == e && forall j | p < j < |els| :: els[j] != e
    ensures e !in els ==> p == 0
  {
    var r := LastIndex(els, e);
    if r < 0 then 0 else r
  }

  /** `getOrderOfAnElementInBoard`: scans the whole board, keeping the index of every match. */
  method GetOrderOfAnElementInBoard(board: Board, columnId: Key, elementId: Key) returns (order: nat)
    requires OnBoard(board, columnId)
    ensures order == Position(Elements(board, columnId), elementId)
  {
    order := 0;
    var allEl := Elements(board, columnId);
    var index := 0;
    while index < |allEl|
      invariant 0 <= index <= |allEl|
      invariant order == Position(allEl[..index], elementId)
    {
      assert allEl[..index + 1][..index] == allEl[..index];
      if allEl[index] == elementId {
        order := index;
      }
      index := index + 1;
    }
    assert allEl[..index] == allEl;
  }

  /**
   * `getParentBoardID(id)`: the key, as text, of a board holding an element
   * with that `data-eid`, or null when no board does.
   */
  method GetParentBoardId(board: Board, id: Key) returns (r: Key)
    ensures r == Null <==> forall k | k in board :: id !in board[k]
    ensures r != Null ==> r.Str? && r.n in board && id in board[r.n]
  {
    if k :| k in board && id in board[k] {
      r := Str(k);
    } else {
      r := Null;
    }
  }

  /** A missing element gets the same order as one in first place: the two cannot be told apart. */
  lemma MissLooksLikeFirst(els: seq<Key>, e: Key)
    requires e !in els
    ensures Position([e] + els, e) == Position(els, e) == 0
  {
  }

  /** An element appended to a board is found at the index the board's length gave before. */
  lemma AppendedAtCount(els: seq<Key>, e: Key)
    requires e !in els
    ensures Position(AddElement(els, e), e) == |els|
  {
  }

  /**
   * `addTicket`'s rendering: the button comes off, the ticket is added, the
   * button goes back, so the ticket lands where its `order` says.
   */
  function AddBehindButton(els: seq<Key>, id: Key): (r: seq<Key>)
    requires ButtonLast(els)
    ensures id != Absent ==> ButtonLast(r) && (Absent in r <==> Absent in els)
    ensures id != Absent ==> WithoutButton(r) == WithoutButton(els) + [id]
  {
    ButtonPutBack(els, id);
    if Absent in els then AddElement(els[..|els| - 1], id) + [Absent] else AddElement(els, id)
  }

  /** Taking the button off, adding an element and putting the button back keeps the button last. */
  lemma ButtonPutBack(els: seq<Key>, id: Key)
    requires ButtonLast(els)
    ensures var r := if Absent in els then AddElement(els[..|els| - 1], id) + [Absent] else AddElement(els, id);
      id != Absent ==> ButtonLast(r) && (Absent in r <==> Absent in els) && WithoutButton(r) == WithoutButton(els) + [id]
  {
    ButtonLastWithout(els);
    if id != Absent {
      WithoutButtonAppend(if Absent in els then els[..|els| - 1] else els, id);
      if Absent in els {
        var e := els[..|els| - 1] + [id];
        WithoutButtonAppend(e, Absent);
        assert ButtonLast(e + [Absent]) by {
          forall i | 0 <= i < |e + [Absent]| - 1 ensures (e + [Absent])[i] != Absent {
            if i < |els| - 1 {
              assert (e + [Absent])[i] == els[i];
            }
          }
        }
      }
    }
  }

  /**
   * The order `addTicket` gives: the element count, less one when the
   * load-more button is there, that is, the number of tickets shown.
   */
  function AddedOrder(els: seq<Key>): (n: nat)
    ensures ButtonLast(els) ==> n == |WithoutButton(els)|
  {
    ButtonLastWithout(els);
    if Absent in els then |els| - 1 else |els|
  }

  /** The order `addTicket` assigns is the position at which the new ticket is shown. */
  lemma AddedTicketShownAtOrder(els: seq<Key>, id: Key)
    requires ButtonLast(els)
    requires id != Absent && id !in els
    ensures Position(AddBehindButton(els, id), id) == AddedOrder(els)
  {
  }

  // ---------------------------------------------------------------------------
  // Loading more tickets into a board
  // ---------------------------------------------------------------------------

  /** `item.totalTicketsLeft > 0` (an unset count is not greater than 0). */
  predicate HasTicketsLeft(c: Column)
  {
    c.totalTicketsLeft.Some? && c.totalTicketsLeft.value > 0
  }

  /** The `data-eid` of each ticket, in order. */
  function TicketIds(ts: seq<Ticket>): (ids: seq<Key>)
    ensures |ids| == |ts|
    ensures forall i | 0 <= i < |ts| :: ids[i] == ts[i].id
  {
    seq(|ts|, i requires 0 <= i < |ts| => ts[i].id)
  }

  /** The elements a fetched column starts with: its tickets, then the button if tickets are left. */
  function ColumnElements(c: Column): seq<Key>
  {
    (if c.item.Some? then TicketIds(c.item.value) else []) + (if HasTicketsLeft(c) then [Absent] else [])
  }

  /**
   * The request a click on a column's load-more button sends: the column as
   * a number and, as offset, the elements shown less the button.
   */
  function LoadMoreRequest(board: Board, columnId: Key): (r: Request)
    requires OnBoard(board, columnId)
    ensures r.FetchColumnWithTickets? && r.columnId == ToNumber(columnId)
    ensures ButtonLast(Elements(board, columnId)) && HasButton(board, columnId) ==>
      r.offset == |WithoutButton(Elements(board, columnId))|
  {
    ButtonLastWithout(Elements(board, columnId));
    FetchColumnWithTickets(ToNumber(columnId), |Elements(board, columnId)| - 1)
  }

  /** The elements other than the button. */
  function WithoutButton(els: seq<Key>): (r: seq<Key>)
    ensures forall x :: x in r <==> x in els && x != Absent
    ensures Absent !in els ==> r == els
  {
    if els == [] then []
    else WithoutButton(els[..|els| - 1]) + (if els[|els| - 1] == Absent then [] else [els[|els| - 1]])
  }

  /** Appending an element to a board: the button is dropped, anything else is kept. */
  lemma WithoutButtonAppend(els: seq<Key>, e: Key)
    ensures WithoutButton(els + [e]) == WithoutButton(els) + (if e == Absent then [] else [e])
  {
    assert (els + [e])[..|els + [e]| - 1] == els;
  }

  /** With the button last, the elements without it are the board less its last element when the button is there. */
  lemma ButtonLastWithout(els: seq<Key>)
    ensures ButtonLast(els) && Absent in els ==> |els| > 0 && els[|els| - 1] == Absent && Absent !in els[..|els| - 1]
    ensures ButtonLast(els) ==> WithoutButton(els) == if Absent in els then els[..|els| - 1] else els
  {
    if ButtonLast(els) && Absent in els {
      var i :| 0 <= i < |els| && els[i] == Absent;
      var init := els[..|els| - 1];
      assert forall j | 0 <= j < |init| :: init[j] == els[j];
      assert Absent !in init;
      assert WithoutButton(els) == WithoutButton(init);
    }
  }

  /** The tickets shown, a page of tickets after them, and the button only if more are left. */
  lemma Refill(els: seq<Key>, ids: seq<Key>, left: bool)
    ensures var r := WithoutButton(els) + ids + (if left then [Absent] else []);
      Absent !in ids ==>
      && ButtonLast(r)
      && (Absent in r <==> left)
      && WithoutButton(r) == WithoutButton(els) + ids
  {
    var shown := WithoutButton(els) + ids;
    if Absent !in ids && left {
      WithoutButtonAppend(shown, Absent);
    }
  }

  /**
   * A board after a page of tickets came back: the button removed, the page's
   * tickets added, and the button put back only if tickets are still left.
   */
  function AfterLoadMore(els: seq<Key>, page: Column): (r: seq<Key>)
    requires page.item.Some?
    ensures Absent !in TicketIds(page.item.value) ==>
      && ButtonLast(r)
      && (Absent in r <==> HasTicketsLeft(page))
      && WithoutButton(r) == WithoutButton(els) + TicketIds(page.item.value)
  {
    Refill(els, TicketIds(page.item.value), HasTicketsLeft(page));
    WithoutButton(els) + TicketIds(page.item.value) + (if HasTicketsLeft(page) then [Absent] else [])
  }

  /**
   * Loading more from a board of tickets followed by its button asks for the
   * tickets after those shown; afterwards the button is last and present
   * exactly when tickets are left, and the next click asks for the tickets
   * after the new page.
   */
  lemma LoadMorePages(board: Board, c: nat, ids: seq<Key>, page: Column)
    requires c in board && board[c] == ids + [Absent] && Absent !in ids
    requires page.item.Some? && Absent !in TicketIds(page.item.value)
    ensures LoadMoreRequest(board, Str(c)) == FetchColumnWithTickets(Num(c), |ids|)
    ensures var after := board[c := AfterLoadMore(board[c], page)];
      && after[c] == ids + TicketIds(page.item.value) + (if HasTicketsLeft(page) then [Absent] else [])
      && ButtonLast(after[c])
      && (HasButton(after, Str(c)) <==> HasTicketsLeft(page))
      && (HasTicketsLeft(page) ==>
            LoadMoreRequest(after, Str(c)) == FetchColumnWithTickets(Num(c), |ids| + |page.item.value|))
  {
    WithoutButtonAppend(ids, Absent);
    assert WithoutButton(ids + [Absent]) == ids;
    assert LoadMoreRequest(board, Str(c)) == FetchColumnWithTickets(Num(c), |ids + [Absent]| - 1);
    var pageIds := TicketIds(page.item.value);
    var els := AfterLoadMore(board[c], page);
    assert els == ids + pageIds + (if HasTicketsLeft(page) then [Absent] else []);
    var after := board[c := els];
    assert after[c] == els;
    assert Elements(after, Str(c)) == els;
    assert HasButton(after, Str(c)) <==> Absent in els;
    if HasTicketsLeft(page) {
      assert |els| == |ids| + |page.item.value| + 1;
      assert LoadMoreRequest(after, Str(c)) == FetchColumnWithTickets(Num(c), |els| - 1);
    }
  }

  /** The boards `ngOnInit` builds from the fetched columns, by column key. */
  function InitialBoard(cols: seq<Column>): (board: Board)
    ensures forall k :: k in board <==> k in KeysOf(cols)
  {
    if cols == [] then map[]
    else
      var init := cols[..|cols| - 1];
      assert forall k | k in KeysOf(init) :: k in KeysOf(cols) by {
        forall k | k in KeysOf(init) ensures k in KeysOf(cols) {
          var i :| 0 <= i < |init| && KeysOf(init)[i] == k;
          assert KeysOf(cols)[i] == k;
        }
      }
      assert forall k | k in KeysOf(cols) :: k in KeysOf(init) || k == KeyNumber(cols[|cols| - 1].id) by {
        forall k | k in KeysOf(cols) ensures k in KeysOf(init) || k == KeyNumber(cols[|cols| - 1].id) {
          var i :| 0 <= i < |cols| && KeysOf(cols)[i] == k;
          if i < |init| {
            assert KeysOf(init)[i] == k;
          }
        }
      }
      InitialBoard(init)[KeyNumber(cols[|cols| - 1].id) := ColumnElements(cols[|cols| - 1])]
  }

  /** With distinct keys, each column's board holds exactly that column's elements. */
  lemma {:induction false} InitialBoardColumns(cols: seq<Column>)
    requires forall i, j | 0 <= i < j < |cols| :: KeyNumber(cols[i].id) < KeyNumber(cols[j].id)
    ensures forall i | 0 <= i < |cols| ::
      KeyNumber(cols[i].id) in InitialBoard(cols)
      && InitialBoard(cols)[KeyNumber(cols[i].id)] == ColumnElements(cols[i])
  {
    if cols != [] {
      var init, last := cols[..|cols| - 1], cols[|cols| - 1];
      assert forall i | 0 <= i < |init| :: init[i] == cols[i];
      InitialBoardColumns(init);
      var b := InitialBoard(cols);
      assert b == InitialBoard(init)[KeyNumber(last.id) := ColumnElements(last)];
      forall i | 0 <= i < |cols| ensures KeyNumber(cols[i].id) in b && b[KeyNumber(cols[i].id)] == ColumnElements(cols[i])
      {
        if i < |init| {
          assert KeyNumber(cols[i].id) < KeyNumber(last.id);
          assert KeyNumber(init[i].id) in InitialBoard(init);
        }
      }
    }
  }

  /** The tickets of a fetched column all carry a `data-eid`: their key as text. */
  lemma FetchedTicketsHaveIds(ts: seq<Ticket>, tickets: map<Key, Ticket>, columnId: Key)
    requires ListsColumnTickets(ts, tickets, columnId)
    requires forall k | k in tickets :: IsKey(k) && tickets[k].id == k
    ensures Absent !in TicketIds(ts)
  {
    var rs :| ListsColumnRecords(rs, tickets, columnId) && ts == Shown(rs);
    forall i | 0 <= i < |ts| ensures ts[i].id != Absent {
      assert rs[i] in rs;
    }
  }

  /**
   * The boards laid out from fetched columns: one per stored column, holding
   * that column's tickets in order, and no load-more button anywhere.
   */
  lemma FetchedBoard(cols: seq<Column>, columns: map<nat, Column>, tickets: map<Key, Ticket>)
    requires ListsColumns(cols, columns)
    requires forall i | 0 <= i < |cols| :: Filled(cols[i], tickets) && cols[i].totalTicketsLeft == None
    requires forall k | k in tickets :: IsKey(k) && tickets[k].id == k
    ensures forall k :: k in InitialBoard(cols) <==> k in columns
    ensures forall i | 0 <= i < |cols| ::
      && KeyNumber(cols[i].id) in InitialBoard(cols)
      && cols[i].item.Some?
      && InitialBoard(cols)[KeyNumber(cols[i].id)] == TicketIds(cols[i].item.value)
    ensures forall k | k in InitialBoard(cols) :: Absent !in InitialBoard(cols)[k]
  {
    var board := InitialBoard(cols);
    InitialBoardColumns(cols);
    forall k ensures k in board <==> k in columns {
      if k in board {
        var i :| 0 <= i < |cols| && KeysOf(cols)[i] == k;
      }
    }
    forall k | k in board ensures Absent !in board[k] {
      var i :| 0 <= i < |cols| && KeysOf(cols)[i] == k;
      FetchedTicketsHaveIds(cols[i].item.value, tickets, Num(k));
    }
  }

  // ---------------------------------------------------------------------------
  // The component
  // ---------------------------------------------------------------------------

  /** The component's state: the ticket being added or edited, the fetched columns, the dragged ticket. */
  class Component {
    var newTicket: TicketObject
    var columns: seq<Column>
    var draggedElement: Option<Ticket>

    /** The constructor starts from a ticket with no property set. */
    constructor ()
      ensures fresh(newTicket) && newTicket.Value() == NoFields
      ensures columns == [] && draggedElement == None
    {
      newTicket := new TicketObject(NewTicket(None));
      columns := [];
      draggedElement := None;
    }

    /** `onTicketAdd`: a clicked add button starts a new ticket that carries only the button's column. */
    method OnTicketAdd(columnId: Key)
      modifies this`newTicket
      ensures fresh(newTicket)
      ensures newTicket.Value() == NoFields.(columnId := columnId)
    {
      newTicket := new TicketObject(NewTicket(None));
      newTicket.columnId := columnId;
    }

    /** `onTicketEdit`: a clicked ticket is fetched, and the read copy becomes the ticket being edited. */
    method OnTicketEdit(db: KanbanDatabase, ticketId: Key) returns (response: Option<Ticket>)
      requires db.Valid()
      modifies this`newTicket
      ensures response.Some? <==> ToNumber(ticketId) in db.tickets
      ensures response.Some? ==> fresh(newTicket) && newTicket.Value() == Displayed(db.tickets[ToNumber(ticketId)])
      ensures response.None? ==> newTicket == old(newTicket)
    {
      response := FetchTicket(db, ticketId);
      if response.Some? {
        newTicket := new TicketObject(response.value);
      }
    }

    /**
     * `ngOnInit`: fetches the columns and lays out one board per column, with
     * a load-more button after the tickets of every column that has tickets
     * left, which no fetched column has.
     */
    method NgOnInit(db: KanbanDatabase) returns (board: Board)
      requires db.Valid()
      modifies this`columns
      ensures ListsColumns(columns, db.columns)
      ensures forall i | 0 <= i < |columns| :: Filled(columns[i], db.tickets) && !HasTicketsLeft(columns[i])
      ensures board == InitialBoard(columns)
      ensures forall k | k in board :: Absent !in board[k]
    {
      columns := FetchColumns(db);
      board := InitialBoard(columns);
      FetchedBoard(columns, db.columns, db.tickets);
    }

    /**
     * `addTicket`: the new ticket's order is the element count of its board,
     * less the load-more button if there is one; the component's own ticket
     * is stored, which the `creating` hook rewrites in place and which
     * receives its key, and the column's orders are regenerated from it.
     */
    method AddTicket(board: Board, db: KanbanDatabase) returns (response: Result<Option<Ticket>>, calls: seq<Request>)
      requires db.Valid()
      requires OnBoard(board, newTicket.columnId)
      modifies newTicket, db`tickets, db`nextTicketId
      ensures db.Valid()
      ensures var sent := old(newTicket.Value()).(order := Some(AddedOrder(Elements(board, old(newTicket.columnId)))));
        && (response.Ok? <==> !IsKey(sent.id) || sent.id !in old(db.tickets))
        && (response.Err? ==> db.tickets == old(db.tickets) && db.nextTicketId == old(db.nextTicketId) &&
                                 newTicket.Value() == Created(sent) && calls == [])
        && (response.Ok? ==>
              var k := TargetKey(sent, old(db.nextTicketId));
              && db.tickets == old(db.tickets)[k := Created(sent).(id := k)]
              && newTicket.Value() == db.tickets[k]
              && db.nextTicketId == CounterAfter(sent, old(db.nextTicketId))
              && (!sent.id.Str? ==> response.value == Some(Displayed(db.tickets[k])))
              && (response.value.Some? ==>
                    calls == [RegenerateByIncrement(ToNumber(old(newTicket.columnId)), Some(db.tickets[k]))])
              && (response.value.None? ==> calls == []))
    {
      var existingLoadMoreButton := HasButton(board, newTicket.columnId);
      var order := GetTicketOrderOnElementAdded(board, newTicket.columnId);
      if existingLoadMoreButton {
        order := order - 1;
      }
      newTicket.order := Some(order);
      response := StoreTicket(db, newTicket);
      if response.Ok? && response.value.Some? {
        calls := [RegenerateByIncrement(newTicket.columnId, Some(newTicket.Value()))];
      } else {
        calls := [];
      }
    }

    /**
     * `updateTicket`: the ticket's old column is the board its element is on;
     * when the ticket moves to another column its order becomes the element
     * count of the new board, otherwise it keeps its order. The service turns
     * its id into a number and saves it.
     */
    method UpdateTicket(board: Board, db: KanbanDatabase) returns (oldColumnId: Key, response: Option<Ticket>)
      requires db.Valid()
      requires OnBoard(board, newTicket.columnId)
      modifies newTicket`order, newTicket`id, db`tickets
      ensures db.Valid()
      ensures oldColumnId == Null <==> forall k | k in board :: old(newTicket.id) !in board[k]
      ensures oldColumnId != Null ==> oldColumnId.Str? && oldColumnId.n in board && old(newTicket.id) in board[oldColumnId.n]
      ensures oldColumnId != newTicket.columnId ==>
        newTicket.order == Some(GetTicketOrderOnElementAdded(board, newTicket.columnId))
      ensures oldColumnId == newTicket.columnId ==> newTicket.order == old(newTicket.order)
      ensures newTicket.Value() == old(newTicket.Value()).(id := ToNumber(old(newTicket.id)), order := newTicket.order)
      ensures db.tickets == Updated(old(db.tickets), newTicket.id, newTicket.Value())
      ensures response.Some? <==> newTicket.id in old(db.tickets)
      ensures response.Some? ==> response.value == Displayed(db.tickets[newTicket.id])
    {
      oldColumnId := GetParentBoardId(board, newTicket.id);
      if oldColumnId != newTicket.columnId {
        newTicket.order := Some(GetTicketOrderOnElementAdded(board, newTicket.columnId));
      }
      response := KanbanService.UpdateTicket(db, newTicket);
    }

    /** `onDragElement`: remembers the dragged ticket, its order being its position on the source board. */
    method OnDragElement(board: Board, eid: Key, sourceColumn: Key, innerText: string)
      requires OnBoard(board, sourceColumn)
      modifies this`draggedElement
      ensures draggedElement ==
        Some(NewTicket(Some(Ticket(eid, sourceColumn, Some(innerText),
                                   Some(Position(Elements(board, sourceColumn), eid)), None, None))))
      ensures eid in Elements(board, sourceColumn) ==>
        Elements(board, sourceColumn)[draggedElement.value.order.value] == eid
    {
      var order := GetOrderOfAnElementInBoard(board, sourceColumn, eid);
      draggedElement := Some(NewTicket(Some(Ticket(eid, sourceColumn, Some(innerText), Some(order), None, None))));
    }

    /**
     * `onElementDropped`: the dropped ticket is saved with the target column
     * and its position there as order; then the target column's orders are
     * regenerated, and the source column's too when it is another column.
     */
    method OnElementDropped(board: Board, db: KanbanDatabase, ticketId: Key, newColumn: Key, oldColumn: Key,
                            innerText: string)
      returns (sent: Ticket, updated: Option<Ticket>, calls: seq<Request>)
      requires db.Valid()
      requires OnBoard(board, newColumn)
      modifies db`tickets
      ensures db.Valid()
      ensures sent.id == (if Truthy(ToNumber(ticketId)) then ToNumber(ticketId) else Num(0))
      ensures sent.columnId == ToNumber(newColumn)
      ensures sent.order == Some(Position(Elements(board, newColumn), ticketId))
      ensures sent.title == Some(innerText) && sent.image == None && sent.originalTitle == None
      ensures db.tickets == Updated(old(db.tickets), sent.id, sent)
      ensures updated.Some? <==> sent.id in old(db.tickets)
      ensures updated.Some? ==> updated.value == Displayed(db.tickets[sent.id])
      ensures calls ==
        [RegenerateByIncrement(ToNumber(newColumn), updated)]
        + (if oldColumn != newColumn then [RegenerateByDecrement(ToNumber(oldColumn), draggedElement)] else [])
    {
      var ord := GetOrderOfAnElementInBoard(board, newColumn, ticketId);
      var ticket := new TicketObject(NewTicket(Some(Ticket(ToNumber(ticketId), ToNumber(newColumn),
                                                           Some(innerText), Some(ord), None, None))));
      updated := KanbanService.UpdateTicket(db, ticket);
      sent := ticket.Value();
      calls := [RegenerateByIncrement(ToNumber(newColumn), updated)];
      if oldColumn != newColumn {
        calls := calls + [RegenerateByDecrement(ToNumber(oldColumn), draggedElement)];
      }
    }

    /** `removeTicket`: deletes the ticket, then regenerates its column's orders from it. */
    method RemoveTicket(db: KanbanDatabase) returns (calls: seq<Request>)
      requires db.Valid()
      modifies db`tickets
      ensures db.Valid()
      ensures db.tickets == old(db.tickets) - {ToNumber(newTicket.id)}
      ensures calls == [RegenerateByDecrement(ToNumber(newTicket.columnId), Some(newTicket.Value()))]
    {
      var id := DestroyElement(db, newTicket.id);
      calls := [RegenerateByDecrement(ToNumber(newTicket.columnId), Some(newTicket.Value()))];
    }
  }

  /**
   * A drop saves the ticket's new column and position, and keeps the stored
   * title: the element's text is not written, since the dropped ticket
   * carries no `originalTitle`.
   */
  lemma DropKeepsStoredTitle(tickets: map<Key, Ticket>, k: nat, sent: Ticket)
    requires Num(k) in tickets
    requires sent.originalTitle == None && sent.image == None && sent.columnId.Num? && sent.order.Some?
    ensures Updated(tickets, Num(k), sent)[Num(k)].title == tickets[Num(k)].title
    ensures Updated(tickets, Num(k), sent)[Num(k)].columnId == sent.columnId
    ensures Updated(tickets, Num(k), sent)[Num(k)].order == sent.order
    ensures Updated(tickets, Num(k), sent)[Num(k)].image == tickets[Num(k)].image
  {
  }
}
