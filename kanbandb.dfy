/**
 * The board's database: two auto-incremented tables (columns and tickets),
 * the hooks that rewrite ticket and column records as they are created, read
 * and updated, and the seed written when the database is first created.
 */
module KanbanDb {
  import opened Values
  import opened Records

  // ---------------------------------------------------------------------------
  // What each hook does to a record
  // ---------------------------------------------------------------------------

  /** The markup the ticket `reading` hook puts in front of the stored title. */
  function ImageTag(image: Option<string>): string
  {
    "<img src='" + Interpolate(image) + "' class=\"img-fluid\"> "
  }

  /** The columns `reading` hook: the key is handed out as a string. */
  function ReadColumn(c: Column): Column
  {
    c.(id := ToText(c.id))
  }

  /** The tickets `creating` hook: the raw title is the one carried in `originalTitle`. */
  function Created(t: Ticket): Ticket
  {
    t.(columnId := ToNumber(t.columnId), title := t.originalTitle, originalTitle := None)
  }

  /** The tickets `reading` hook: keys as strings, raw title kept aside, display title shown. */
  function Displayed(t: Ticket): Ticket
  {
    t.(id := ToText(t.id), columnId := ToText(t.columnId), originalTitle := t.title,
       title := Some(ImageTag(t.image) + Interpolate(t.title)))
  }

  /** The modifications the tickets `updating` hook leaves, given the stored record. */
  function Modifications(mods: Ticket, stored: Ticket): Ticket
  {
    mods.(columnId := ToNumber(mods.columnId), title := Or(mods.originalTitle, stored.title),
          originalTitle := None)
  }

  /** `update`: every property the modifications carry replaces the stored one; the key stays. */
  function Patched(stored: Ticket, mods: Ticket): (r: Ticket)
    ensures r.id == stored.id
    ensures IsStored(stored) && IsStored(mods) ==> IsStored(r)
    ensures mods == Ticket(mods.id, Absent, None, None, None, None) ==> r == stored
    ensures mods == stored.(id := mods.id) ==> r == stored
    ensures (mods.columnId != Absent && mods.title.Some? && mods.order.Some? && mods.image.Some? &&
             mods.originalTitle.Some?) ==> r == mods.(id := stored.id)
  {
    Ticket(stored.id,
           if mods.columnId == Absent then stored.columnId else mods.columnId,
           if mods.title.Some? then mods.title else stored.title,
           if mods.order.Some? then mods.order else stored.order,
           if mods.image.Some? then mods.image else stored.image,
           if mods.originalTitle.Some? then mods.originalTitle else stored.originalTitle)
  }

  /** A ticket as the table keeps it: no display copy of the title, a numeric (or no) column. */
  predicate IsStored(t: Ticket)
  {
    t.originalTitle == None && (t.columnId.Num? || t.columnId == Absent)
  }

  /** The hooks only ever store what `IsStored` allows. */
  lemma HooksStoreRawRecords(t: Ticket, stored: Ticket)
    requires IsStored(stored)
    ensures IsStored(Created(t))
    ensures IsStored(Modifications(t, stored))
    ensures IsStored(Patched(stored, Modifications(t, stored)))
  {
  }

  /** The display title is the image tag followed by the raw title, which is kept in `originalTitle`. */
  lemma DisplayedTitle(s: Ticket)
    ensures Displayed(s).originalTitle == s.title
    ensures Displayed(s).title.Some?
    ensures Displayed(s).title.value[..|ImageTag(s.image)|] == ImageTag(s.image)
    ensures Displayed(s).title.value[|ImageTag(s.image)|..] == Interpolate(s.title)
    ensures |Displayed(s).title.value| > |Interpolate(s.title)|
  {
  }

  /** Writing a read ticket back through the `updating` hook leaves the stored record as it was. */
  lemma ReadWriteRoundTrip(s: Ticket)
    requires IsStored(s)
    ensures Patched(s, Modifications(Displayed(s), s)) == s
  {
  }

  /** A title edited in `originalTitle` is the one stored; an emptied one keeps the stored title. */
  lemma EditedTitleIsStored(s: Ticket, edited: string)
    requires IsStored(s)
    ensures edited != "" ==> Patched(s, Modifications(Displayed(s).(originalTitle := Some(edited)), s)).title == Some(edited)
    ensures edited == "" ==> Patched(s, Modifications(Displayed(s).(originalTitle := Some(edited)), s)).title == s.title
  {
  }

  /** Adding a copy of a read ticket stores its raw title, not the display title. */
  lemma CreateFromReadCopy(s: Ticket)
    ensures Created(Displayed(s)).title == s.title
  {
  }

  // ---------------------------------------------------------------------------
  // The records the hooks receive, and the hooks themselves
  // ---------------------------------------------------------------------------

  /** A ticket object handed to a hook, which changes it in place. */
  class TicketObject {
    var id: Key
    var columnId: Key
    var title: Option<string>
    var order: Option<int>
    var image: Option<string>
    var originalTitle: Option<string>

    constructor (t: Ticket)
      ensures Value() == t
    {
      id, columnId, title, order, image, originalTitle :=
        t.id, t.columnId, t.title, t.order, t.image, t.originalTitle;
    }

    /** The object's properties as a record. */
    function Value(): Ticket
      reads this
    {
      Ticket(id, columnId, title, order, image, originalTitle)
    }
  }

  /** A column object handed to the columns `reading` hook. */
  class ColumnObject {
    var id: Key
    var title: string
    var item: Option<seq<Ticket>>
    var totalTicketsLeft: Option<int>

    constructor (c: Column)
      ensures Value() == c
    {
      id, title, item, totalTicketsLeft := c.id, c.title, c.item, c.totalTicketsLeft;
    }

    /** The object's properties as a record. */
    function Value(): Column
      reads this
    {
      Column(id, title, item, totalTicketsLeft)
    }
  }

  /** The columns `reading` hook. */
  method ColumnsReading(obj: ColumnObject)
    modifies obj
    ensures obj.Value() == ReadColumn(old(obj.Value()))
  {
    obj.id := ToText(obj.id);
  }

  /** The tickets `creating` hook. */
  method TicketsCreating(obj: TicketObject)
    modifies obj
    ensures obj.Value() == Created(old(obj.Value()))
  {
    obj.columnId := ToNumber(obj.columnId);
    obj.title := obj.originalTitle;
    obj.originalTitle := None;
  }

  /** The tickets `reading` hook. */
  method TicketsReading(obj: TicketObject)
    modifies obj
    ensures obj.Value() == Displayed(old(obj.Value()))
  {
    obj.id := ToText(obj.id);
    obj.columnId := ToText(obj.columnId);
    obj.originalTitle := obj.title;
    obj.title := Some(ImageTag(obj.image) + Interpolate(obj.title));
  }

  /** The tickets `updating` hook, given the modifications and the stored record. */
  method TicketsUpdating(modifications: TicketObject, obj: TicketObject)
    requires modifications != obj
    modifies modifications, obj
    ensures modifications.Value() == Modifications(old(modifications.Value()), old(obj.Value()))
    ensures obj.Value() == old(obj.Value()).(originalTitle := None)
  {
    modifications.columnId := ToNumber(modifications.columnId);
    modifications.title := Or(modifications.originalTitle, obj.title);
    modifications.originalTitle := None;
    obj.originalTitle := None;
  }


  // ---------------------------------------------------------------------------
  // The tables
  // ---------------------------------------------------------------------------

  datatype DbError = ConstraintError  // `add` of a key that is already stored

  datatype Result<T> = Ok(value: T) | Err(error: DbError)

  /** The column key an identifier designates, if it designates one. */
  function KeyOf(id: Key): Option<nat>
  {
    match id
    case Num(n) => Some(n)
    case Str(n) => Some(n)
    case _ => None
  }

  /** A column as the `populate` hook adds it: a title, and the key the table gives it. */
  function StoredColumn(k: nat, title: string): Column
  {
    Column(Num(k), title, None, None)
  }

  /** The titles the `populate` hook adds, in the order it adds them. */
  const SeedTitles: seq<string> := ["No Status", "First Call", "Negotiation", "Win-Closed", "Lost-Closed"]

  /** The five seeded columns when the column key counter stands at `base`. */
  function Seeded(base: nat): map<nat, Column>
  {
    map[base := StoredColumn(base, SeedTitles[0]),
        base + 1 := StoredColumn(base + 1, SeedTitles[1]),
        base + 2 := StoredColumn(base + 2, SeedTitles[2]),
        base + 3 := StoredColumn(base + 3, SeedTitles[3]),
        base + 4 := StoredColumn(base + 4, SeedTitles[4])]
  }

  /** Seeding is five single additions under consecutive keys. */
  lemma SeededIsFiveAdds(m: map<nat, Column>, base: nat)
    ensures m + Seeded(base) ==
      m[base := StoredColumn(base, "No Status")][base + 1 := StoredColumn(base + 1, "First Call")]
       [base + 2 := StoredColumn(base + 2, "Negotiation")][base + 3 := StoredColumn(base + 3, "Win-Closed")]
       [base + 4 := StoredColumn(base + 4, "Lost-Closed")]
  {
  }

  /** Every numeric ticket key lies below the counter, so the counter is always fresh; string keys leave it alone. */
  ghost predicate KeysBelow(tickets: map<Key, Ticket>, next: nat)
  {
    forall k | k in tickets && k.Num? :: k.n < next
  }

  /** The key a ticket is filed under: its own id when that is a number or a string, else the counter's. */
  function TargetKey(t: Ticket, next: nat): (k: Key)
    ensures IsKey(k)
    ensures !IsKey(t.id) ==> k == Num(next)
  {
    if IsKey(t.id) then t.id else Num(next)
  }

  /**
   * The counter after a ticket is filed: past the fresh key it was given, or
   * past its own numeric key when that is not below the counter.
   */
  function CounterAfter(t: Ticket, next: nat): (n: nat)
    ensures next <= n
    ensures TargetKey(t, next).Num? ==> TargetKey(t, next).n < n
    ensures n == next || n == TargetKey(t, next).n + 1
  {
    if !IsKey(t.id) then next + 1
    else if t.id.Num? && next <= t.id.n then t.id.n + 1
    else next
  }

  /**
   * The ticket table after `put` of one ticket: the `updating` hook and a
   * replacement when its key is stored, else the `creating` hook and a new
   * record. A string id is a key of its own, apart from the number.
   */
  function Put(tickets: map<Key, Ticket>, next: nat, t: Ticket): (r: (map<Key, Ticket>, nat))
    ensures r.0.Keys == tickets.Keys + {TargetKey(t, next)}
    ensures forall k | k in tickets && k != TargetKey(t, next) :: r.0[k] == tickets[k]
    ensures next <= r.1
    ensures KeysBelow(tickets, next) ==> KeysBelow(r.0, r.1)
  {
    if IsKey(t.id) then
      if t.id in tickets then (tickets[t.id := Modifications(t, tickets[t.id])], next)
      else (tickets[t.id := Created(t)], if t.id.Num? && next <= t.id.n then t.id.n + 1 else next)
    else (tickets[Num(next) := Created(t).(id := Num(next))], next + 1)
  }

  /** The ticket table after `bulkPut` of a sequence of tickets, one `put` after another. */
  function PutAll(tickets: map<Key, Ticket>, next: nat, ts: seq<Ticket>): (r: (map<Key, Ticket>, nat))
    ensures tickets.Keys <= r.0.Keys
    ensures next <= r.1
    ensures KeysBelow(tickets, next) ==> KeysBelow(r.0, r.1)
  {
    if ts == [] then (tickets, next)
    else
      var (m, n) := PutAll(tickets, next, ts[..|ts| - 1]);
      Put(m, n, ts[|ts| - 1])
  }

  /** The ids a batch of tickets carries. */
  function Named(ts: seq<Ticket>): set<Key>
  {
    set t | t in ts :: t.id
  }

  /** `bulkPut` leaves alone every stored record the batch does not name. */
  lemma {:induction false} PutAllKeepsUnnamed(tickets: map<Key, Ticket>, next: nat, ts: seq<Ticket>)
    requires KeysBelow(tickets, next)
    ensures forall k | k in tickets && k !in Named(ts) :: PutAll(tickets, next, ts).0[k] == tickets[k]
  {
    if ts != [] {
      var init, last := ts[..|ts| - 1], ts[|ts| - 1];
      PutAllKeepsUnnamed(tickets, next, init);
      var (m, n) := PutAll(tickets, next, init);
      assert PutAll(tickets, next, ts) == Put(m, n, last);
      assert Named(ts) == Named(init) + {last.id} by {
        assert ts == init + [last];
      }
      forall k | k in tickets && k !in Named(ts) ensures Put(m, n, last).0[k] == tickets[k] {
        assert k != TargetKey(last, n) by {
          if IsKey(last.id) {
            assert last.id in Named(ts);
          } else {
            assert KeysBelow(m, n);
          }
        }
      }
    }
  }

  /** Every key `bulkPut` adds is one the batch names or a number at or above the counter. */
  lemma {:induction false} PutAllNewKeys(tickets: map<Key, Ticket>, next: nat, ts: seq<Ticket>)
    ensures forall k | k in PutAll(tickets, next, ts).0 :: k in tickets || k in Named(ts) || (k.Num? && next <= k.n)
  {
    if ts != [] {
      var init, last := ts[..|ts| - 1], ts[|ts| - 1];
      PutAllNewKeys(tickets, next, init);
      var (m, n) := PutAll(tickets, next, init);
      assert PutAll(tickets, next, ts) == Put(m, n, last);
      assert next <= n;
      assert Named(ts) == Named(init) + {last.id} by {
        assert ts == init + [last];
      }
    }
  }

  /**
   * After `bulkPut`, every ticket of the batch that names a key is stored
   * under it, every record no ticket of the batch names is unchanged, and
   * every other key is a fresh number at or above the counter.
   */
  lemma {:induction false} PutAllUpserts(tickets: map<Key, Ticket>, next: nat, ts: seq<Ticket>)
    requires KeysBelow(tickets, next)
    ensures forall i | 0 <= i < |ts| && IsKey(ts[i].id) :: ts[i].id in PutAll(tickets, next, ts).0
    ensures forall k | k in tickets && k !in Named(ts) :: PutAll(tickets, next, ts).0[k] == tickets[k]
    ensures forall k | k in PutAll(tickets, next, ts).0 ::
      k in tickets || k in Named(ts) || (k.Num? && next <= k.n)
  {
    PutAllKeepsUnnamed(tickets, next, ts);
    PutAllNewKeys(tickets, next, ts);
    if ts != [] {
      var init, last := ts[..|ts| - 1], ts[|ts| - 1];
      PutAllUpserts(tickets, next, init);
      var (m, n) := PutAll(tickets, next, init);
      assert PutAll(tickets, next, ts) == Put(m, n, last);
      assert forall i | 0 <= i < |init| :: init[i] == ts[i];
    }
  }

  /**
   * After `bulkPut`, the record under a key the batch names is what the last
   * ticket naming it made of the record before it: the `updating` hook on
   * that record, or the `creating` hook when there was none.
   */
  lemma {:induction false} PutAllLastWins(tickets: map<Key, Ticket>, next: nat, ts: seq<Ticket>, i: nat)
    requires KeysBelow(tickets, next)
    requires i < |ts| && IsKey(ts[i].id)
    requires forall j | i < j < |ts| :: ts[j].id != ts[i].id
    ensures var prior := PutAll(tickets, next, ts[..i]).0;
      && ts[i].id in PutAll(tickets, next, ts).0
      && PutAll(tickets, next, ts).0[ts[i].id] ==
        if ts[i].id in prior then Modifications(ts[i], prior[ts[i].id]) else Created(ts[i])
  {
    var init := ts[..|ts| - 1];
    if i == |ts| - 1 {
      assert ts[..i] == init;
    } else {
      PutAllLastWins(tickets, next, init, i);
      assert init[..i] == ts[..i];
      var (m, n) := PutAll(tickets, next, init);
      var k := ts[i].id;
      assert k in m;
      assert k.Num? ==> k.n < n;
    }
  }

  /**
   * After `bulkPut`, a ticket named only once in the batch, by a key that is
   * stored or a string or below the counter, is put over the stored record.
   */
  lemma PutAllNamedOnce(tickets: map<Key, Ticket>, next: nat, ts: seq<Ticket>, i: nat)
    requires KeysBelow(tickets, next)
    requires i < |ts| && IsKey(ts[i].id)
    requires forall j | 0 <= j < |ts| && j != i :: ts[j].id != ts[i].id
    requires ts[i].id.Num? ==> ts[i].id.n < next
    ensures ts[i].id in PutAll(tickets, next, ts).0
    ensures PutAll(tickets, next, ts).0[ts[i].id] ==
      if ts[i].id in tickets then Modifications(ts[i], tickets[ts[i].id]) else Created(ts[i])
  {
    PutAllLastWins(tickets, next, ts, i);
    var pre := ts[..i];
    PutAllUpserts(tickets, next, pre);
    assert ts[i].id !in Named(pre);
  }

  /**
   * After `bulkPut`, each ticket with no key of its own got a fresh numeric
   * key at or above the counter, and keeps it unless a later ticket names it.
   */
  lemma {:induction false} PutAllFreshKeys(tickets: map<Key, Ticket>, next: nat, ts: seq<Ticket>, i: nat)
    requires KeysBelow(tickets, next)
    requires i < |ts| && !IsKey(ts[i].id)
    ensures var c := PutAll(tickets, next, ts[..i]).1;
      && next <= c && Num(c) !in tickets
      && Num(c) in PutAll(tickets, next, ts).0
      && c < PutAll(tickets, next, ts).1
      && ((forall j | i < j < |ts| :: ts[j].id != Num(c)) ==>
            PutAll(tickets, next, ts).0[Num(c)] == Created(ts[i]).(id := Num(c)))
  {
    var init := ts[..|ts| - 1];
    if i == |ts| - 1 {
      assert ts[..i] == init;
    } else {
      PutAllFreshKeys(tickets, next, init, i);
      assert init[..i] == ts[..i];
    }
  }

  /**
   * The ticket table after `update(key, changes)`: the `updating` hook's
   * modifications patch the record under `key`, if any; nothing else changes.
   */
  function Updated(tickets: map<Key, Ticket>, key: Key, changes: Ticket): (r: map<Key, Ticket>)
    ensures r.Keys == tickets.Keys
    ensures forall k | k in tickets && k != key :: r[k] == tickets[k]
    ensures key in tickets && IsStored(tickets[key]) ==> IsStored(r[key]) && r[key].id == tickets[key].id
  {
    if key in tickets then tickets[key := Patched(tickets[key], Modifications(changes, tickets[key]))] else tickets
  }

  /** Saving a ticket exactly as it was read changes nothing in the table. */
  lemma SaveUneditedIsNoOp(tickets: map<Key, Ticket>, k: Key)
    requires k in tickets && IsStored(tickets[k])
    ensures Updated(tickets, k, Displayed(tickets[k])) == tickets
  {
  }

  // ---------------------------------------------------------------------------
  // The `updating` hook as Dexie runs it
  // ---------------------------------------------------------------------------

  /**
   * `update(key, changes)` with the `updating` hook as written: Dexie takes
   * further changes only from the hook's return value and ignores edits to
   * its arguments, and the hook returns nothing, so the changes are applied
   * exactly as the caller gave them.
   */
  function UpdatedAsWritten(tickets: map<Key, Ticket>, key: Key, changes: Ticket): (r: map<Key, Ticket>)
    ensures r.Keys == tickets.Keys
    ensures forall k | k in tickets && k != key :: r[k] == tickets[k]
  {
    if key in tickets then tickets[key := Patched(tickets[key], changes)] else tickets
  }

  /**
   * Saving a ticket exactly as read, with the hook as written: the display
   * title is stored, image tag included, and the column is stored as text,
   * which the numeric column query no longer matches.
   */
  lemma UneditedSaveAsWritten(tickets: map<Key, Ticket>, k: Key)
    requires k in tickets && IsStored(tickets[k]) && tickets[k].columnId.Num?
    ensures var s := tickets[k]; var u := UpdatedAsWritten(tickets, k, Displayed(s));
      && u[k].title == Some(ImageTag(s.image) + Interpolate(s.title))
      && u[k].title != s.title
      && u[k].columnId == ToText(s.columnId)
      && !InColumn(u[k], s.columnId)
      && !IsStored(u[k])
  {
    var s := tickets[k];
    assert |ImageTag(s.image)| > 0;
    if s.title.Some? {
      assert |ImageTag(s.image) + Interpolate(s.title)| > |s.title.value|;
    }
  }

  /** The stored ticket after `n` rounds of reading it and saving the read copy unedited, with the hook as written. */
  function SavedAsWritten(s: Ticket, n: nat): Ticket
  {
    if n == 0 then s
    else
      var prev := SavedAsWritten(s, n - 1);
      Patched(prev, Displayed(prev))
  }

  /** `n` image tags in a row. */
  function Tags(image: Option<string>, n: nat): string
  {
    if n == 0 then "" else ImageTag(image) + Tags(image, n - 1)
  }

  /** With the hook as written, every unedited save puts one more image tag in front of the stored title. */
  lemma {:induction false} TagsPileUpAsWritten(s: Ticket, n: nat)
    requires n >= 1
    ensures SavedAsWritten(s, n).image == s.image
    ensures SavedAsWritten(s, n).title == Some(Tags(s.image, n) + Interpolate(s.title))
  {
    if n == 1 {
      assert Tags(s.image, 1) == ImageTag(s.image);
    } else {
      TagsPileUpAsWritten(s, n - 1);
      assert Tags(s.image, n) + Interpolate(s.title) ==
        ImageTag(s.image) + (Tags(s.image, n - 1) + Interpolate(s.title));
    }
  }

  // ---------------------------------------------------------------------------
  // Listings
  // ---------------------------------------------------------------------------

  /** A ticket belongs to the column `anyOf(columnId)` selects: only a valid key matches. */
  predicate InColumn(t: Ticket, columnId: Key)
  {
    IsKey(columnId) && t.columnId == columnId
  }

  /** `a` comes before `b` when sorted by `order`, equal orders in primary-key order. */
  predicate Precedes(a: Ticket, b: Ticket)
  {
    OrderKey(a) < OrderKey(b) || (OrderKey(a) == OrderKey(b) && KeyBefore(a.id, b.id))
  }

  /** Sorting by order, ties by key, is a strict total order on records with distinct keys. */
  lemma PrecedesIsStrictTotal(a: Ticket, b: Ticket, c: Ticket)
    ensures !Precedes(a, a)
    ensures Precedes(a, b) && Precedes(b, c) ==> Precedes(a, c)
    ensures IsKey(a.id) && IsKey(b.id) && a.id != b.id ==> Precedes(a, b) || Precedes(b, a)
  {
    KeyBeforeIsStrictTotal(a.id, b.id, c.id);
  }

  /** Stored records sorted by `order`, equal orders in key order (what a stable sort of an index scan gives). */
  ghost predicate SortedByOrder(rs: seq<Ticket>)
  {
    forall i, j | 0 <= i < j < |rs| :: Precedes(rs[i], rs[j])
  }

  /** `rs` holds every stored record of the column, each once, sorted. */
  ghost predicate ListsColumnRecords(rs: seq<Ticket>, tickets: map<Key, Ticket>, columnId: Key)
  {
    && SortedByOrder(rs)
    && (forall r | r in rs :: r.id in tickets && tickets[r.id] == r && InColumn(r, columnId))
    && (forall k | k in tickets && InColumn(tickets[k], columnId) :: tickets[k] in rs)
  }

  /** Records as the `reading` hook hands them out, in the same order. */
  function Shown(rs: seq<Ticket>): (ts: seq<Ticket>)
    ensures |ts| == |rs|
    ensures forall i | 0 <= i < |rs| :: ts[i] == Displayed(rs[i])
  {
    seq(|rs|, i requires 0 <= i < |rs| => Displayed(rs[i]))
  }

  /**
   * `ts` is what `where('columnId').anyOf(columnId).sortBy('order')` returns:
   * the column's stored records, sorted, each read through the hook.
   */
  ghost predicate ListsColumnTickets(ts: seq<Ticket>, tickets: map<Key, Ticket>, columnId: Key)
  {
    exists rs :: ListsColumnRecords(rs, tickets, columnId) && ts == Shown(rs)
  }

  /** A column without its fetched tickets. */
  function Header(c: Column): Column
  {
    c.(item := None)
  }

  /** The keys of a sequence of columns, in sequence order. */
  function KeysOf(cols: seq<Column>): (ks: seq<nat>)
    ensures |ks| == |cols|
    ensures forall i | 0 <= i < |cols| :: ks[i] == KeyNumber(cols[i].id)
  {
    seq(|cols|, i requires 0 <= i < |cols| => KeyNumber(cols[i].id))
  }

  /**
   * `cols` is what `columns.toArray()` returns: every stored column read
   * through the hook, one each, in key order (tickets aside).
   */
  ghost predicate ListsColumns(cols: seq<Column>, columns: map<nat, Column>)
  {
    && (forall i | 0 <= i < |cols| ::
          KeyNumber(cols[i].id) in columns && Header(cols[i]) == ReadColumn(columns[KeyNumber(cols[i].id)]))
    && (forall i, j | 0 <= i < j < |cols| :: KeyNumber(cols[i].id) < KeyNumber(cols[j].id))
    && (forall k | k in columns :: k in KeysOf(cols))
  }

  /** `cols` lists, in key order, the columns stored under keys below `k`. */
  ghost predicate ListedBelow(cols: seq<Column>, columns: map<nat, Column>, k: nat)
  {
    && (forall i | 0 <= i < |cols| ::
          KeyNumber(cols[i].id) < k && KeyNumber(cols[i].id) in columns
          && Header(cols[i]) == ReadColumn(columns[KeyNumber(cols[i].id)]))
    && (forall i, j | 0 <= i < j < |cols| :: KeyNumber(cols[i].id) < KeyNumber(cols[j].id))
    && (forall k' | k' in columns && k' < k :: k' in KeysOf(cols))
  }

  /** Reading the column under key `k` (if any) extends the listing to the keys below `k + 1`. */
  lemma ListingStep(cols: seq<Column>, columns: map<nat, Column>, k: nat)
    requires ListedBelow(cols, columns, k)
    requires forall k' | k' in columns :: columns[k'] == StoredColumn(k', columns[k'].title)
    ensures k in columns ==> ListedBelow(cols + [ReadColumn(columns[k])], columns, k + 1)
    ensures k !in columns ==> ListedBelow(cols, columns, k + 1)
  {
    if k in columns {
      var c := ReadColumn(columns[k]);
      assert KeysOf(cols + [c]) == KeysOf(cols) + [KeyNumber(c.id)];
    }
  }

  /** A listing of every key below the counter is the full listing. */
  lemma ListedBelowAll(cols: seq<Column>, columns: map<nat, Column>, next: nat)
    requires ListedBelow(cols, columns, next)
    requires forall k | k in columns :: k < next
    ensures ListsColumns(cols, columns)
  {
  }

  /** A strictly increasing sequence that covers exactly `lo..hi-1` is that range. */
  lemma {:induction false} IncreasingCover(ks: seq<nat>, lo: nat, hi: nat)
    requires lo <= hi
    requires forall i, j | 0 <= i < j < |ks| :: ks[i] < ks[j]
    requires forall i | 0 <= i < |ks| :: lo <= ks[i] < hi
    requires forall k | lo <= k < hi :: k in ks
    ensures |ks| == hi - lo
    ensures forall i | 0 <= i < |ks| :: ks[i] == lo + i
  {
    if |ks| > 0 {
      assert lo <= ks[0] < hi;
    }
    if lo < hi {
      assert lo in ks;
      assert ks[0] == lo;
      var rest := ks[1..];
      forall k | lo + 1 <= k < hi ensures k in rest {
        assert k in ks;
        var i :| 0 <= i < |ks| && ks[i] == k;
        assert i != 0;
        assert rest[i - 1] == k;
      }
      IncreasingCover(rest, lo + 1, hi);
    }
  }

  /** Listing a freshly seeded column table gives the five columns, in seeding order. */
  lemma SeededListing(cols: seq<Column>)
    requires ListsColumns(cols, Seeded(1))
    ensures |cols| == |SeedTitles|
    ensures forall i | 0 <= i < |cols| :: cols[i].id == Str(i + 1) && cols[i].title == SeedTitles[i]
  {
    var ks := KeysOf(cols);
    SeededEntries(1);
    IncreasingCover(ks, 1, 6);
    forall i | 0 <= i < |cols| ensures cols[i].id == Str(i + 1) && cols[i].title == SeedTitles[i] {
      assert KeyNumber(cols[i].id) == i + 1;
    }
  }

  /** The keys and entries of the seed. */
  lemma SeededEntries(base: nat)
    ensures forall k :: k in Seeded(base) <==> base <= k < base + 5
    ensures forall i | 0 <= i < 5 :: Seeded(base)[base + i] == StoredColumn(base + i, SeedTitles[i])
  {
  }

  /** Joining two sorted runs around `t` keeps them sorted when `t` falls between them. */
  lemma SortedSplice(a: seq<Ticket>, t: Ticket, b: seq<Ticket>)
    requires SortedByOrder(a) && SortedByOrder(b)
    requires forall x | x in a :: Precedes(x, t)
    requires forall y | y in b :: Precedes(t, y)
    ensures SortedByOrder(a + [t] + b)
  {
    var r := a + [t] + b;
    forall i, j | 0 <= i < j < |r| ensures Precedes(r[i], r[j]) {
      if j < |a| {
        assert r[i] == a[i] && r[j] == a[j];
      } else if i >= |a| + 1 {
        assert r[i] == b[i - |a| - 1] && r[j] == b[j - |a| - 1];
      } else if i == |a| {
        assert r[i] == t && r[j] in b;
      } else if j == |a| {
        assert r[i] in a && r[j] == t;
      } else {
        assert r[i] in a && r[j] in b;
        PrecedesIsStrictTotal(r[i], t, r[j]);
      }
    }
  }

  /** The two halves of a sorted sequence are sorted. */
  lemma SortedHalves(s: seq<Ticket>, p: nat)
    requires SortedByOrder(s) && p <= |s|
    ensures SortedByOrder(s[..p]) && SortedByOrder(s[p..])
  {
    var a, b := s[..p], s[p..];
    forall i, j | 0 <= i < j < |a| ensures Precedes(a[i], a[j]) {
      assert a[i] == s[i] && a[j] == s[j];
    }
    forall i, j | 0 <= i < j < |b| ensures Precedes(b[i], b[j]) {
      assert b[i] == s[p + i] && b[j] == s[p + j];
    }
  }

  /** In a sorted sequence, the first record that does not precede `t` and every one after it follow `t`. */
  lemma InsertionPoint(s: seq<Ticket>, t: Ticket, p: nat)
    requires SortedByOrder(s) && p <= |s|
    requires IsKey(t.id) && forall x | x in s :: IsKey(x.id) && x.id != t.id
    requires forall j | 0 <= j < p :: Precedes(s[j], t)
    requires p < |s| ==> !Precedes(s[p], t)
    ensures forall x | x in s[..p] :: Precedes(x, t)
    ensures forall y | y in s[p..] :: Precedes(t, y)
  {
    if p < |s| {
      PrecedesIsStrictTotal(s[p], t, t);
    }
    forall y | y in s[p..] ensures Precedes(t, y) {
      var j :| p <= j < |s| && s[j] == y;
      if j > p {
        PrecedesIsStrictTotal(t, s[p], s[j]);
      }
    }
    forall x | x in s[..p] ensures Precedes(x, t) {
      var j :| 0 <= j < p && s[j] == x;
    }
  }

  /** Inserts `t` into sorted `s` after every record that precedes it (where a stable sort places it). */
  method InsertByOrder(s: seq<Ticket>, t: Ticket) returns (r: seq<Ticket>)
    requires SortedByOrder(s)
    requires IsKey(t.id)
    requires forall x | x in s :: IsKey(x.id) && x.id != t.id
    ensures SortedByOrder(r)
    ensures multiset(r) == multiset(s) + multiset{t}
    ensures forall x :: x in r <==> x in s || x == t
  {
    var p := 0;
    while p < |s| && Precedes(s[p], t)
      invariant 0 <= p <= |s|
      invariant forall j | 0 <= j < p :: Precedes(s[j], t)
    {
      p := p + 1;
    }
    InsertionPoint(s, t, p);
    SortedHalves(s, p);
    SortedSplice(s[..p], t, s[p..]);
    r := s[..p] + [t] + s[p..];
    assert s == s[..p] + s[p..];
  }

  /** `rs` holds, sorted, every record of the column whose key has been scanned (is not `unread`), each once. */
  ghost predicate ScannedColumn(rs: seq<Ticket>, tickets: map<Key, Ticket>, columnId: Key, unread: set<Key>)
  {
    && SortedByOrder(rs)
    && (forall r | r in rs :: r.id in tickets && r.id !in unread && tickets[r.id] == r && InColumn(r, columnId))
    && (forall k | k in tickets && k !in unread && InColumn(tickets[k], columnId) :: tickets[k] in rs)
  }

  /** An unscanned record can be inserted: its key is apart from every key already listed. */
  lemma ScanInsertable(rs: seq<Ticket>, tickets: map<Key, Ticket>, columnId: Key, unread: set<Key>, k: Key)
    requires ScannedColumn(rs, tickets, columnId, unread)
    requires forall k' | k' in tickets :: IsKey(k') && tickets[k'].id == k'
    requires k in unread && k in tickets
    ensures IsKey(tickets[k].id)
    ensures forall x | x in rs :: IsKey(x.id) && x.id != tickets[k].id
  {
  }

  /** Scanning key `k` (and inserting its record when it is in the column) extends the scan. */
  lemma ScanStep(rs: seq<Ticket>, rs': seq<Ticket>, tickets: map<Key, Ticket>, columnId: Key, unread: set<Key>, k: Key)
    requires ScannedColumn(rs, tickets, columnId, unread)
    requires forall k' | k' in tickets :: tickets[k'].id == k'
    requires k in unread && k in tickets
    requires SortedByOrder(rs')
    requires forall x :: x in rs' <==> x in rs || (x == tickets[k] && InColumn(tickets[k], columnId))
    ensures ScannedColumn(rs', tickets, columnId, unread - {k})
  {
  }

  /** Records handed out one by one through the tickets `reading` hook, in the same order. */
  method ReadAll(rs: seq<Ticket>) returns (ts: seq<Ticket>)
    ensures ts == Shown(rs)
  {
    ts := [];
    var i := 0;
    while i < |rs|
      invariant 0 <= i <= |rs|
      invariant ts == Shown(rs[..i])
    {
      var obj := new TicketObject(rs[i]);
      TicketsReading(obj);
      ts := ts + [obj.Value()];
      i := i + 1;
    }
    assert rs[..|rs|] == rs;
  }

  /** Every column key lies below the counter and every column carries its own key. */
  ghost predicate ColumnsKeyed(columns: map<nat, Column>, next: nat)
  {
    && 1 <= next
    && (forall k | k in columns :: 1 <= k < next && columns[k] == StoredColumn(k, columns[k].title))
  }

  /** The database: two tables kept as maps from primary key to record, each with its key counter. */
  class KanbanDatabase {
    var columns: map<nat, Column>
    var tickets: map<Key, Ticket>
    var nextColumnId: nat
    var nextTicketId: nat

    /** Every numeric key lies below its table's counter, records carry their own key, and tickets are stored raw. */
    ghost predicate Valid()
      reads this
    {
      && ColumnsKeyed(columns, nextColumnId)
      && KeysBelow(tickets, nextTicketId)
      && (forall k | k in tickets :: IsKey(k) && tickets[k].id == k && IsStored(tickets[k]))
    }

    /** Opens the database for the first time: both tables empty, then the `populate` hook. */
    constructor Open()
      ensures Valid()
      ensures columns == Seeded(1) && nextColumnId == 6
      ensures tickets == map[] && nextTicketId == 1
    {
      columns, tickets := map[], map[];
      nextColumnId, nextTicketId := 1, 1;
      new;
      Populate();
      SeededIsFiveAdds(map[], 1);
    }

    /** `columns.add({title})`: the column is stored under a fresh key. */
    method ColumnsAdd(title: string) returns (k: nat)
      requires ColumnsKeyed(columns, nextColumnId)
      modifies this`columns, this`nextColumnId
      ensures ColumnsKeyed(columns, nextColumnId)
      ensures k == old(nextColumnId) && k !in old(columns)
      ensures columns == old(columns)[k := StoredColumn(k, title)] && nextColumnId == k + 1
    {
      k := nextColumnId;
      columns := columns[k := StoredColumn(k, title)];
      nextColumnId := k + 1;
    }

    /** The `populate` hook: five columns added one after another. */
    method Populate()
      requires ColumnsKeyed(columns, nextColumnId)
      modifies this`columns, this`nextColumnId
      ensures ColumnsKeyed(columns, nextColumnId)
      ensures columns ==
        old(columns)[old(nextColumnId) := StoredColumn(old(nextColumnId), "No Status")]
          [old(nextColumnId) + 1 := StoredColumn(old(nextColumnId) + 1, "First Call")]
          [old(nextColumnId) + 2 := StoredColumn(old(nextColumnId) + 2, "Negotiation")]
          [old(nextColumnId) + 3 := StoredColumn(old(nextColumnId) + 3, "Win-Closed")]
          [old(nextColumnId) + 4 := StoredColumn(old(nextColumnId) + 4, "Lost-Closed")]
      ensures nextColumnId == old(nextColumnId) + 5
    {
      var k0 := ColumnsAdd("No Status");
      assert k0 == old(nextColumnId);
      var k1 := ColumnsAdd("First Call");
      assert k1 == old(nextColumnId) + 1;
      var k2 := ColumnsAdd("Negotiation");
      assert k2 == old(nextColumnId) + 2;
      var k3 := ColumnsAdd("Win-Closed");
      assert k3 == old(nextColumnId) + 3;
      var k4 := ColumnsAdd("Lost-Closed");
      assert k4 == old(nextColumnId) + 4;
    }

    /**
     * `tickets.add(obj)`: the `creating` hook rewrites the caller's object in
     * place, the record goes under its own key (a number or a string) or under
     * a fresh numeric one, and that key is written back into the object.
     */
    method TicketsAdd(obj: TicketObject) returns (r: Result<Key>)
      requires Valid()
      modifies this`tickets, this`nextTicketId, obj
      ensures Valid()
      ensures r.Ok? <==> !IsKey(old(obj.id)) || old(obj.id) !in old(tickets)
      ensures r.Ok? ==> r.value == TargetKey(old(obj.Value()), old(nextTicketId)) && r.value !in old(tickets)
      ensures r.Ok? ==> tickets == old(tickets)[r.value := Created(old(obj.Value())).(id := r.value)]
      ensures r.Ok? ==> obj.Value() == tickets[r.value]
      ensures r.Ok? ==> nextTicketId == CounterAfter(old(obj.Value()), old(nextTicketId))
      ensures r.Err? ==> tickets == old(tickets) && nextTicketId == old(nextTicketId)
      ensures r.Err? ==> obj.Value() == Created(old(obj.Value()))
    {
      TicketsCreating(obj);
      var v := obj.Value();
      if IsKey(v.id) {
        if v.id in tickets {
          r := Err(ConstraintError);
        } else {
          tickets := tickets[v.id := v];
          if v.id.Num? && nextTicketId <= v.id.n {
            nextTicketId := v.id.n + 1;
          }
          r := Ok(v.id);
        }
      } else {
        var k := Num(nextTicketId);
        tickets := tickets[k := v.(id := k)];
        nextTicketId := nextTicketId + 1;
        obj.id := k;
        r := Ok(k);
      }
    }

    /** `tickets.get(key)`: the record under the key, read through the `reading` hook. */
    method TicketsGet(key: Key) returns (r: Option<Ticket>)
      requires Valid()
      ensures r.Some? <==> key in tickets
      ensures r.Some? ==> r.value == Displayed(tickets[key])
      ensures r.Some? ==> r.value.id == ToText(key) && r.value.originalTitle == tickets[key].title
    {
      if key in tickets {
        var obj := new TicketObject(tickets[key]);
        TicketsReading(obj);
        r := Some(obj.Value());
      } else {
        r := None;
      }
    }

    /** `tickets.update(key, changes)`: the `updating` hook runs, then its modifications are applied. */
    method TicketsUpdate(key: Key, changes: Ticket) returns (count: nat)
      requires Valid()
      modifies this`tickets
      ensures Valid()
      ensures tickets == Updated(old(tickets), key, changes)
      ensures count == if key in old(tickets) then 1 else 0
    {
      if key in tickets {
        var stored := tickets[key];
        var mods := new TicketObject(changes);
        var obj := new TicketObject(stored);
        TicketsUpdating(mods, obj);
        tickets := tickets[key := Patched(stored, mods.Value())];
        count := 1;
      } else {
        count := 0;
      }
    }

    /** `tickets.where('id').anyOf(key).delete()`: removes the record under the key, if any. */
    method TicketsDeleteWhereId(key: Key) returns (count: nat)
      requires Valid()
      modifies this`tickets
      ensures Valid()
      ensures tickets == old(tickets) - {key}
      ensures count == if key in old(tickets) then 1 else 0
    {
      if key in tickets {
        tickets := tickets - {key};
        count := 1;
      } else {
        count := 0;
      }
    }

    /** `tickets.put(t)`: the `updating` hook and a replacement for a stored key, else as `add`. */
    method TicketsPut(t: Ticket)
      requires Valid()
      modifies this`tickets, this`nextTicketId
      ensures Valid()
      ensures (tickets, nextTicketId) == Put(old(tickets), old(nextTicketId), t)
    {
      var obj := new TicketObject(t);
      if IsKey(t.id) {
        if t.id in tickets {
          var existing := new TicketObject(tickets[t.id]);
          TicketsUpdating(obj, existing);
          tickets := tickets[t.id := obj.Value()];
        } else {
          TicketsCreating(obj);
          tickets := tickets[t.id := obj.Value()];
          if t.id.Num? && nextTicketId <= t.id.n {
            nextTicketId := t.id.n + 1;
          }
        }
      } else {
        TicketsCreating(obj);
        var k := Num(nextTicketId);
        tickets := tickets[k := obj.Value().(id := k)];
        nextTicketId := nextTicketId + 1;
      }
    }

    /** `tickets.bulkPut(ts)`: one `put` after another. */
    method TicketsBulkPut(ts: seq<Ticket>)
      requires Valid()
      modifies this`tickets, this`nextTicketId
      ensures Valid()
      ensures (tickets, nextTicketId) == PutAll(old(tickets), old(nextTicketId), ts)
    {
      var i := 0;
      while i < |ts|
        invariant 0 <= i <= |ts|
        invariant Valid()
        invariant (tickets, nextTicketId) == PutAll(old(tickets), old(nextTicketId), ts[..i])
      {
        TicketsPut(ts[i]);
        assert ts[..i + 1][..i] == ts[..i];
        i := i + 1;
      }
      assert ts[..|ts|] == ts;
    }

    /** `columns.toArray()`: every column in key order, read through the columns `reading` hook. */
    method ColumnsToArray() returns (cols: seq<Column>)
      requires Valid()
      ensures ListsColumns(cols, columns)
      ensures forall i | 0 <= i < |cols| :: cols[i].item == None && cols[i].totalTicketsLeft == None
    {
      cols := [];
      var k := 0;
      while k < nextColumnId
        invariant 0 <= k <= nextColumnId
        invariant ListedBelow(cols, columns, k)
        invariant forall i | 0 <= i < |cols| :: cols[i] == ReadColumn(columns[KeyNumber(cols[i].id)])
      {
        var before := cols;
        if k in columns {
          var obj := new ColumnObject(columns[k]);
          ColumnsReading(obj);
          cols := cols + [obj.Value()];
        }
        ListingStep(before, columns, k);
        k := k + 1;
      }
      ListedBelowAll(cols, columns, nextColumnId);
    }

    /**
     * The scan behind `where('columnId').anyOf(columnId).sortBy('order')`:
     * every stored key is visited once, and the column's records are kept
     * sorted by order, then key.
     */
    method ScanColumn(columnId: Key) returns (rs: seq<Ticket>)
      requires Valid()
      ensures ListsColumnRecords(rs, tickets, columnId)
    {
      rs := [];
      var unread := tickets.Keys;
      while unread != {}
        invariant unread <= tickets.Keys
        invariant ScannedColumn(rs, tickets, columnId, unread)
        decreases |unread|
      {
        var k :| k in unread;
        var before := rs;
        if InColumn(tickets[k], columnId) {
          ScanInsertable(rs, tickets, columnId, unread, k);
          rs := InsertByOrder(rs, tickets[k]);
        }
        ScanStep(before, rs, tickets, columnId, unread, k);
        unread := unread - {k};
      }
    }

    /** `where('columnId').anyOf(columnId).sortBy('order')`: the column's records, sorted, read through the hook. */
    method TicketsOfColumnSortedByOrder(columnId: Key) returns (ts: seq<Ticket>)
      requires Valid()
      ensures ListsColumnTickets(ts, tickets, columnId)
    {
      var rs := ScanColumn(columnId);
      ts := ReadAll(rs);
    }
  }
}
