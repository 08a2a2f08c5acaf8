/**
 * The service the board uses to reach the database: each operation is one or
 * two table calls in sequence.
 */
module KanbanService {
  import opened Values
  import opened Records
  import opened KanbanDb

  /**
   * `fetchColumns`: every stored column, in key order, each with `item` set
   * to the tickets of that column sorted by `order`.
   */
  method FetchColumns(db: KanbanDatabase) returns (cols: seq<Column>)
    requires db.Valid()
    ensures ListsColumns(cols, db.columns)
    ensures forall i | 0 <= i < |cols| :: cols[i].id == Str(KeyNumber(cols[i].id)) && Filled(cols[i], db.tickets)
  {
    var fetched := db.ColumnsToArray();
    cols := [];
    var i := 0;
    while i < |fetched|
      invariant 0 <= i <= |fetched|
      invariant |cols| == i
      invariant forall j | 0 <= j < i :: Header(cols[j]) == Header(fetched[j]) && Filled(cols[j], db.tickets)
    {
      var col := new ColumnObject(fetched[i]);
      var item := db.TicketsOfColumnSortedByOrder(ToNumber(col.id));
      ColumnKeysAreText(fetched, db.columns);
      col.item := Some(item);
      cols := cols + [col.Value()];
      i := i + 1;
    }
    ListingIgnoresItems(fetched, cols, db.columns);
    ColumnKeysAreText(cols, db.columns);
  }

  /**
   * A fetched column: its `item` holds the tickets whose column is the one the
   * column's key designates, read through the hook, sorted by `order`.
   */
  ghost predicate Filled(c: Column, tickets: map<Key, Ticket>)
  {
    c.item.Some? && ListsColumnTickets(c.item.value, tickets, Num(KeyNumber(c.id)))
  }

  /** Whether a listing holds depends on the column headers only, not on their tickets. */
  lemma ListingIgnoresItems(fetched: seq<Column>, cols: seq<Column>, columns: map<nat, Column>)
    requires ListsColumns(fetched, columns)
    requires |cols| == |fetched|
    requires forall j | 0 <= j < |cols| :: Header(cols[j]) == Header(fetched[j])
    ensures ListsColumns(cols, columns)
  {
  }

  /** Every listed column carries its key as text. */
  lemma ColumnKeysAreText(cols: seq<Column>, columns: map<nat, Column>)
    requires ListsColumns(cols, columns)
    requires forall k | k in columns :: columns[k] == StoredColumn(k, columns[k].title)
    ensures forall i | 0 <= i < |cols| :: cols[i].id == Str(KeyNumber(cols[i].id))
  {
  }

  /** `fetchTicket(id)`: the ticket under the number `id` designates, as the `reading` hook returns it. */
  method FetchTicket(db: KanbanDatabase, id: Key) returns (r: Option<Ticket>)
    requires db.Valid()
    ensures r.Some? <==> ToNumber(id) in db.tickets
    ensures r.Some? ==> r.value == Displayed(db.tickets[ToNumber(id)])
  {
    r := db.TicketsGet(ToNumber(id));
  }

  /**
   * `storeTicket(ticket)`: adds the caller's ticket, which the `creating`
   * hook rewrites in place and which receives its key, and reads back the
   * number of that key. The add fails when the ticket names a key already
   * taken; a ticket filed under a string key is read back from the number,
   * which finds another record or none.
   */
  method StoreTicket(db: KanbanDatabase, ticket: TicketObject) returns (r: Result<Option<Ticket>>)
    requires db.Valid()
    modifies db`tickets, db`nextTicketId, ticket
    ensures db.Valid()
    ensures r.Ok? <==> !IsKey(old(ticket.id)) || old(ticket.id) !in old(db.tickets)
    ensures r.Err? ==> db.tickets == old(db.tickets) && db.nextTicketId == old(db.nextTicketId)
    ensures r.Err? ==> ticket.Value() == Created(old(ticket.Value()))
    ensures r.Ok? ==>
      var k := TargetKey(old(ticket.Value()), old(db.nextTicketId));
      && k !in old(db.tickets)
      && db.tickets == old(db.tickets)[k := Created(old(ticket.Value())).(id := k)]
      && ticket.Value() == db.tickets[k]
      && db.nextTicketId == CounterAfter(old(ticket.Value()), old(db.nextTicketId))
      && (r.value.Some? <==> ToNumber(k) in db.tickets)
      && (r.value.Some? ==> r.value.value == Displayed(db.tickets[ToNumber(k)]))
    ensures r.Ok? && !old(ticket.id).Str? ==>
      && r.value.Some?
      && r.value.value.id == Str(TargetKey(old(ticket.Value()), old(db.nextTicketId)).n)
      && r.value.value.originalTitle == old(ticket.originalTitle)
  {
    var added := db.TicketsAdd(ticket);
    match added
    case Err(e) =>
      r := Err(e);
    case Ok(k) =>
      var fetched := FetchTicket(db, k);
      r := Ok(fetched);
  }

  /**
   * `updateTicket(ticket)`: turns the caller's `ticket.id` into a number in
   * place, updates the record under it and reads it back.
   */
  method UpdateTicket(db: KanbanDatabase, ticket: TicketObject) returns (r: Option<Ticket>)
    requires db.Valid()
    modifies db`tickets, ticket`id
    ensures db.Valid()
    ensures ticket.id == ToNumber(old(ticket.id))
    ensures db.tickets == Updated(old(db.tickets), ticket.id, ticket.Value())
    ensures r.Some? <==> ticket.id in old(db.tickets)
    ensures r.Some? ==> r.value == Displayed(db.tickets[ticket.id])
  {
    ticket.id := ToNumber(ticket.id);
    var count := db.TicketsUpdate(ticket.id, ticket.Value());
    r := FetchTicket(db, ticket.id);
  }

  /** `destroyElement(id)`: deletes the ticket under the number `id` designates and hands `id` back. */
  method DestroyElement(db: KanbanDatabase, id: Key) returns (r: Key)
    requires db.Valid()
    modifies db`tickets
    ensures db.Valid()
    ensures r == id
    ensures db.tickets == old(db.tickets) - {ToNumber(id)}
  {
    var count := db.TicketsDeleteWhereId(ToNumber(id));
    r := id;
  }

  /** `batchUpdate(tickets)`: a `bulkPut` of the whole batch, which is handed back as it came. */
  method BatchUpdate(db: KanbanDatabase, tickets: seq<Ticket>) returns (r: seq<Ticket>)
    requires db.Valid()
    modifies db`tickets, db`nextTicketId
    ensures db.Valid()
    ensures r == tickets
    ensures (db.tickets, db.nextTicketId) == PutAll(old(db.tickets), old(db.nextTicketId), tickets)
  {
    db.TicketsBulkPut(tickets);
    r := tickets;
  }

  /** Saving an unedited ticket the way `updateTicket` does, its id made a number again, leaves the table as it was. */
  lemma SaveReadTicketIsNoOp(tickets: map<Key, Ticket>, k: nat)
    requires Num(k) in tickets && tickets[Num(k)].id == Num(k) && IsStored(tickets[Num(k)])
    ensures Updated(tickets, ToNumber(Displayed(tickets[Num(k)]).id), Displayed(tickets[Num(k)]).(id := Num(k))) == tickets
  {
  }

  /** Putting back a read copy of a stored ticket, its id made a number again, leaves the table as it was. */
  lemma PutNumberedCopyIsNoOp(tickets: map<Key, Ticket>, next: nat, k: nat)
    requires Num(k) in tickets && tickets[Num(k)].id == Num(k) && IsStored(tickets[Num(k)])
    ensures Put(tickets, next, Displayed(tickets[Num(k)]).(id := Num(k))) == (tickets, next)
  {
    var s := tickets[Num(k)];
    ReadWriteRoundTrip(s);
    assert Modifications(Displayed(s).(id := Num(k)), s) == s;
    assert tickets[Num(k) := s] == tickets;
  }

  /** A batch of read copies put back unedited, each id made a number again, leaves the table as it was. */
  lemma {:induction false} BatchOfNumberedCopiesIsNoOp(tickets: map<Key, Ticket>, next: nat, ts: seq<Ticket>)
    requires forall k | k in tickets :: tickets[k].id == k && IsStored(tickets[k])
    requires forall t | t in ts :: t.id.Num? && t.id in tickets && t == Displayed(tickets[t.id]).(id := t.id)
    ensures PutAll(tickets, next, ts) == (tickets, next)
  {
    if ts != [] {
      var init, t := ts[..|ts| - 1], ts[|ts| - 1];
      assert forall x | x in init :: x in ts;
      BatchOfNumberedCopiesIsNoOp(tickets, next, init);
      assert t in ts;
      PutNumberedCopyIsNoOp(tickets, next, t.id.n);
    }
  }

  /**
   * Putting back a read copy as read, its id still the string: the string is
   * a key of its own, so the `creating` hook files a second record, equal to
   * the stored one but for its key.
   */
  lemma PutReadCopyAddsDuplicate(tickets: map<Key, Ticket>, next: nat, k: nat)
    requires Num(k) in tickets && tickets[Num(k)].id == Num(k) && IsStored(tickets[Num(k)])
    requires Str(k) !in tickets
    ensures Put(tickets, next, Displayed(tickets[Num(k)])) ==
      (tickets[Str(k) := tickets[Num(k)].(id := Str(k))], next)
  {
  }

  /** `m` holds every record of `tickets` and, besides, only copies of them under string keys. */
  ghost predicate HoldsCopies(m: map<Key, Ticket>, tickets: map<Key, Ticket>)
  {
    && (forall k | k in tickets :: k in m && m[k] == tickets[k])
    && (forall k | k in m && k !in tickets :: k.Str? && Num(k.n) in tickets && m[k] == tickets[Num(k.n)].(id := k))
  }

  /** Putting one more read copy as read keeps a table of originals and string-keyed copies so. */
  lemma PutReadCopyStep(m: map<Key, Ticket>, next: nat, tickets: map<Key, Ticket>, t: Ticket)
    requires forall k | k in tickets :: k.Num? && tickets[k].id == k && IsStored(tickets[k])
    requires HoldsCopies(m, tickets)
    requires t.id.Str? && Num(t.id.n) in tickets && t == Displayed(tickets[Num(t.id.n)])
    ensures HoldsCopies(Put(m, next, t).0, tickets)
    ensures Put(m, next, t).1 == next && t.id in Put(m, next, t).0
  {
    var s := tickets[Num(t.id.n)];
    assert t.id !in tickets;
    if t.id in m {
      assert Modifications(t, m[t.id]) == s.(id := t.id);
    } else {
      assert Created(t) == s.(id := t.id);
    }
  }

  /**
   * A batch of read copies as read, over a table keyed by numbers: the
   * counter and every stored record stay, and each copy adds one record
   * under its string key, equal to the original but for its key.
   */
  lemma {:induction false} BatchOfReadCopiesAddsCopies(tickets: map<Key, Ticket>, next: nat, ts: seq<Ticket>)
    requires forall k | k in tickets :: k.Num? && tickets[k].id == k && IsStored(tickets[k])
    requires forall t | t in ts :: t.id.Str? && Num(t.id.n) in tickets && t == Displayed(tickets[Num(t.id.n)])
    ensures PutAll(tickets, next, ts).1 == next
    ensures forall k | k in tickets :: k in PutAll(tickets, next, ts).0 && PutAll(tickets, next, ts).0[k] == tickets[k]
    ensures forall t | t in ts :: t.id in PutAll(tickets, next, ts).0
    ensures forall k | k in PutAll(tickets, next, ts).0 && k !in tickets ::
      k.Str? && Num(k.n) in tickets && PutAll(tickets, next, ts).0[k] == tickets[Num(k.n)].(id := k)
  {
    if ts != [] {
      var init, t := ts[..|ts| - 1], ts[|ts| - 1];
      assert forall x | x in init :: x in ts;
      BatchOfReadCopiesAddsCopies(tickets, next, init);
      assert t in ts;
      var m := PutAll(tickets, next, init).0;
      assert HoldsCopies(m, tickets);
      PutReadCopyStep(m, next, tickets, t);
    }
  }

  /**
   * After such a put, listing the ticket's column shows the ticket twice:
   * both records read back as the same ticket.
   */
  lemma DuplicateListedTwice(tickets: map<Key, Ticket>, k: nat, ts: seq<Ticket>, columnId: Key)
    requires forall k' | k' in tickets :: tickets[k'].id == k'
    requires Num(k) in tickets && Str(k) in tickets
    requires tickets[Str(k)] == tickets[Num(k)].(id := Str(k))
    requires InColumn(tickets[Num(k)], columnId)
    requires ListsColumnTickets(ts, tickets, columnId)
    ensures exists i, j | 0 <= i < j < |ts| :: ts[i] == ts[j] == Displayed(tickets[Num(k)])
  {
    var rs :| ListsColumnRecords(rs, tickets, columnId) && ts == Shown(rs);
    var a, b := tickets[Num(k)], tickets[Str(k)];
    assert a in rs && b in rs;
    var i :| 0 <= i < |rs| && rs[i] == a;
    var j :| 0 <= j < |rs| && rs[j] == b;
    assert Displayed(a) == Displayed(b);
    if i < j {
      assert ts[i] == ts[j] == Displayed(a);
    } else {
      assert ts[j] == ts[i] == Displayed(a);
    }
  }
}
