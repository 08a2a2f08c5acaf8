# Kanban board: ticket ordering and record handling

A model of the bookkeeping core of a small kanban board kept in the browser's
IndexedDB through Dexie. The board shows columns ("No Status", "First Call", …)
holding tickets, and each ticket carries an integer `order`. Four pieces of the
program are modelled:

- **The database** (`kanbandb.dfy`, module `KanbanDb`). There are two
  auto-incremented tables, `columns` and `tickets`. Each is modelled as a map
  from primary key to record, with a key counter, in the class
  `KanbanDatabase`. The hooks rewrite records in place: the columns `reading`
  hook and the tickets `creating`, `reading` and `updating` hooks. They are
  methods on record objects (`TicketObject`, `ColumnObject`), and each is
  specified by a function on record values (`ReadColumn`, `Created`,
  `Displayed`, `Modifications`). The `populate` hook seeds five columns when
  the database is first created. The table calls the service makes (`add`,
  `get`, `update`, `where('id').anyOf().delete()`, `bulkPut`, `toArray`,
  `where('columnId').anyOf().sortBy('order')`) are methods of the class,
  proved against the table state. `TicketsPut` is the per-ticket step of
  `bulkPut`; the service never calls `put` on its own.
- **The service** (`kanban_service.dfy`, module `KanbanService`). It covers
  `fetchColumns` (every column, each with its tickets sorted by `order`),
  `fetchTicket`, `storeTicket`, `updateTicket` (which turns the caller's id
  into a number in place), `destroyElement` and `batchUpdate`.
- **The component** (`kanban_component.dfy`, module `KanbanComponent`). This
  part derives a ticket's `order` from the elements shown on a board. The
  board is modelled as a map from column key to the sequence of the elements'
  `data-eid`s. The load-more button has no `data-eid` and shows as `Absent`.
  The component's fields `newTicket`, `columns` and `draggedElement` are
  updated in place by `ngOnInit`, `onTicketAdd`, `onTicketEdit`,
  `addTicket`, `updateTicket` and `onDragElement`. `onTicketAdd` and
  `onTicketEdit` set `newTicket`, the ticket that `addTicket`, `updateTicket`
  and `removeTicket` then act on; those three take `newTicket` as it is on
  entry. `onElementDropped` and `removeTicket` only read the fields. Three service calls
  are made but never defined in the service: `regenerateByIncrement`,
  `regenerateByDecrement` and `fetchColumnWithTickets`. They are returned as
  `Request` values, in the order the component issues them, and never
  executed.
- **The `Ticket` constructor** (`ticket.dfy`, module `TicketModule`). This is
  a function that copies four fields.

Identifiers travel both as numbers and as their decimal strings, and strict
equality tells the two forms apart. So a key is `Absent | Null | Num(n) |
Str(n)` (`values.dfy`). Unary plus (`ToNumber`) and `String()` (`ToText`) are
written out on that type.

The code keeps no column's orders dense and has no page size of its own.
Each operation assigns a ticket's order from the elements on the board, and
the only renumbering the code could do is in the three service calls above,
whose bodies are not defined. So the model proves which order each operation
assigns and which renumbering request it issues, and nothing about dense
orders.

Ticket keys follow IndexedDB: a number and the string of its digits are two
different keys, and numbers come before strings in key order. The
behaviour modelled is what the code does, with the departures listed under
"## Left out". The largest is the tickets `updating` hook: it edits its
arguments in place, and Dexie ignores such edits (this rests on Dexie's
documented contract for the hook from version 3 on; these files do not pin
a Dexie version). The model applies those
edits, which is what the code evidently intends. The hook as Dexie actually
runs it is modelled beside it, under "## Findings".

## Model

| member | source | states |
|---|---|---|
| Values.ToNumber | src/app/kanban/kanbandb.ts:29 | unary plus gives the number itself for a numeric key, the number a decimal string spells for a text key, 0 for null, and no number for a missing value |
| Values.ToText | src/app/kanban/kanbandb.ts:36-37 | `String` turns a numeric key into the text of the same number and leaves other keys alone |
| Values.NumberTextRoundTrip | src/app/kanban/kanbandb.ts:36-37 | a numeric key turned into text and back by unary plus is the same key |
| Values.Or | src/app/kanban/kanbandb.ts:46 | `a \|\| b` is `a` when `a` is a non-empty string and `b` otherwise |
| Values.KeyBeforeIsStrictTotal | src/app/kanban/kanban.service.ts:20-23 | the key order the ticket index is scanned in (numbers ascending, then strings by code units) is irreflexive, transitive and total on keys |
| TicketModule.NewTicket | src/app/kanban/ticket.module.ts:10-16 | with no source nothing is set; otherwise a truthy id is copied and a falsy one becomes null; order, columnId and title are copied; image and originalTitle are never set |
| TicketModule.NewTicketIdempotent | src/app/kanban/ticket.module.ts:10-16 | building a ticket from a built ticket gives the same ticket |
| TicketModule.NewTicketIgnoresOtherFields | src/app/kanban/ticket.module.ts:3-16 | a source's image and originalTitle have no effect on the result |
| KanbanDb.Patched | src/app/kanban/kanban.service.ts:55 | an update keeps the record's key; changes that set nothing leave the record as it was, changes equal to the record give the record, changes that set every property replace them all; stored records stay stored |
| KanbanDb.ColumnsReading | src/app/kanban/kanbandb.ts:22-25 | the columns reading hook changes only the column's id, to its text form |
| KanbanDb.TicketsCreating | src/app/kanban/kanbandb.ts:28-32 | the creating hook stores originalTitle as the title, drops originalTitle and makes columnId a number |
| KanbanDb.TicketsReading | src/app/kanban/kanbandb.ts:35-41 | the reading hook gives id and columnId as text, keeps the stored title in originalTitle and shows the image tag followed by the title |
| KanbanDb.TicketsUpdating | src/app/kanban/kanbandb.ts:44-49 | the updating hook's edits: columnId made a number, the title set to originalTitle when that is non-empty, else to the stored title, and originalTitle dropped from both objects |
| KanbanDb.DisplayedTitle | src/app/kanban/kanbandb.ts:35-41 | the displayed title is the image tag (present even without an image) followed by the stored title, which is kept in originalTitle |
| KanbanDb.HooksStoreRawRecords | src/app/kanban/kanbandb.ts:28-49 | whatever the creating and updating hooks store has no originalTitle and a numeric or missing columnId |
| KanbanDb.ReadWriteRoundTrip | src/app/kanban/kanbandb.ts:35-49 | with the hook's edits applied, writing a read ticket back through the updating hook leaves the stored record unchanged |
| KanbanDb.EditedTitleIsStored | src/app/kanban/kanbandb.ts:44-49 | with the hook's edits applied, a non-empty title edited in originalTitle is stored as the title; an emptied one keeps the stored title |
| KanbanDb.CreateFromReadCopy | src/app/kanban/kanbandb.ts:28-41 | adding a copy of a read ticket stores its raw title, not the display title |
| KanbanDb.Updated | src/app/kanban/kanban.service.ts:55 | update with the hook's edits applied keeps the table's keys and every other record, and a stored record stays stored under its own id |
| KanbanDb.SaveUneditedIsNoOp | src/app/kanban/kanbandb.ts:44-49 | with the hook's edits applied, updating a ticket with its unedited read copy leaves the ticket table unchanged |
| KanbanDb.UpdatedAsWritten | src/app/kanban/kanbandb.ts:44-49 | update with the hook as Dexie runs it (its in-place edits ignored) keeps the table's keys and every other record |
| KanbanDb.UneditedSaveAsWritten | src/app/kanban/kanbandb.ts:44-49 | with the hook as Dexie runs it, saving an unedited read copy stores the display title, a text columnId the column query no longer matches, and a record that is no longer raw |
| KanbanDb.TagsPileUpAsWritten | src/app/kanban/kanbandb.ts:35-49 | with the hook as Dexie runs it, n unedited read-and-save rounds leave n image tags in front of the stored title |
| KanbanDb.SeededIsFiveAdds | src/app/kanban/kanbandb.ts:52-58 | the seed is five single adds, in order, of the five titles under consecutive keys |
| KanbanDb.SeededListing | src/app/kanban/kanbandb.ts:52-58 | listing a freshly seeded column table gives exactly five columns, keys "1" to "5", titled in seeding order |
| KanbanDb.Put | src/app/kanban/kanban.service.ts:73 | one put files the ticket under its own key, number or string, or under the counter's; every other record stays and the counter stays above every numeric key |
| KanbanDb.PutAll | src/app/kanban/kanban.service.ts:73 | bulkPut only adds keys, never lowers the counter, and keeps it above every numeric key |
| KanbanDb.PutAllUpserts | src/app/kanban/kanban.service.ts:73 | after bulkPut every keyed ticket of the batch is stored under its key, records the batch does not name are unchanged, and every other key is a new number at or above the counter |
| KanbanDb.PutAllKeepsUnnamed | src/app/kanban/kanban.service.ts:73 | bulkPut leaves every stored record the batch does not name as it was |
| KanbanDb.PutAllNewKeys | src/app/kanban/kanban.service.ts:73 | every key bulkPut adds is named by the batch or is a number at or above the counter |
| KanbanDb.PutAllLastWins | src/app/kanban/kanban.service.ts:73 | the record under a key the batch names is the updating hook's result of the last ticket naming it on the record before it, or the creating hook's when there was none |
| KanbanDb.PutAllNamedOnce | src/app/kanban/kanban.service.ts:73 | a key named once in the batch holds that ticket put over the stored record: the updating hook's result, or the creating hook's for a new key |
| KanbanDb.PutAllFreshKeys | src/app/kanban/kanban.service.ts:73 | each keyless ticket gets a numeric key at or above the counter that was unused, the counter moves past it, and the created record stays there unless a later ticket names that key |
| KanbanDb.PrecedesIsStrictTotal | src/app/kanban/kanban.service.ts:20-23 | ordering tickets by order, then by key, is irreflexive, transitive and total on tickets with distinct keys |
| KanbanDb.InsertByOrder | src/app/kanban/kanban.service.ts:23 | inserting a ticket into a list sorted by order (ties by key) keeps it sorted and holds exactly the old tickets plus the new one |
| KanbanDb.KanbanDatabase.Open | src/app/kanban/kanbandb.ts:51-60 | a first open leaves no tickets and exactly the five seeded columns under keys 1 to 5, with the counters at 6 and 1 |
| KanbanDb.KanbanDatabase.ColumnsAdd | src/app/kanban/kanbandb.ts:16-19 | a column added gets the counter's key, which was unused, and the counter moves past it |
| KanbanDb.KanbanDatabase.Populate | src/app/kanban/kanbandb.ts:52-58 | populate adds the five titles, in order, under the next five keys and changes nothing else |
| KanbanDb.KanbanDatabase.TicketsAdd | src/app/kanban/kanban.service.ts:43 | add runs the creating hook on the caller's object, stores that record under its own unused key (number or string) or under the fresh counter key, writes the key back into the object and returns it, and moves the counter past the key it gave, or past a numeric key the ticket named at or above it; a key already taken fails, leaves the table alone and the object rewritten by the hook |
| KanbanDb.KanbanDatabase.TicketsGet | src/app/kanban/kanban.service.ts:34 | get returns the stored record read through the hook exactly when the key is stored, its id as text |
| KanbanDb.KanbanDatabase.TicketsUpdate | src/app/kanban/kanban.service.ts:55 | update patches the stored record with the hook's modifications and counts one record; a missing key changes nothing |
| KanbanDb.KanbanDatabase.TicketsDeleteWhereId | src/app/kanban/kanban.service.ts:64 | the delete removes the record under the key and no other |
| KanbanDb.KanbanDatabase.TicketsPut | src/app/kanban/kanban.service.ts:73 | put replaces a stored record through the updating hook or adds a new one through the creating hook, a string id being a key of its own |
| KanbanDb.KanbanDatabase.TicketsBulkPut | src/app/kanban/kanban.service.ts:73 | bulkPut is one put per ticket, in batch order |
| KanbanDb.KanbanDatabase.ColumnsToArray | src/app/kanban/kanban.service.ts:17 | toArray lists every stored column once, in key order, read through the hook, with no tickets attached |
| KanbanDb.ReadAll | src/app/kanban/kanbandb.ts:35-41 | records handed out one by one through the reading hook come out read, in the same order |
| KanbanDb.KanbanDatabase.ScanColumn | src/app/kanban/kanban.service.ts:20-23 | the scan visits every stored key once and keeps exactly the column's records, sorted by order and then key order |
| KanbanDb.KanbanDatabase.TicketsOfColumnSortedByOrder | src/app/kanban/kanban.service.ts:20-23 | the query returns every stored record of the given column once, read through the hook, sorted by order and then key order |
| KanbanService.FetchColumns | src/app/kanban/kanban.service.ts:16-26 | one entry per stored column in key order, each holding exactly the tickets whose columnId is that column's number, sorted by order |
| KanbanService.FetchTicket | src/app/kanban/kanban.service.ts:33-35 | the ticket under the number the id designates, read through the hook, or nothing when none is stored |
| KanbanService.StoreTicket | src/app/kanban/kanban.service.ts:42-45 | the caller's ticket becomes the created record, stored under a key that was unused (the counter's, unless it names its own) and written back into it, with the counter moved past it; the read-back by number is returned, and for a ticket without a text id it is that record, with the title given as originalTitle |
| KanbanService.UpdateTicket | src/app/kanban/kanban.service.ts:53-57 | the caller's id becomes a number in place, that record is patched, and it is returned as read back |
| KanbanService.DestroyElement | src/app/kanban/kanban.service.ts:63-66 | only the ticket under the number the id designates is removed, and the given id is returned whether or not a ticket was deleted |
| KanbanService.BatchUpdate | src/app/kanban/kanban.service.ts:72-75 | the batch is bulk-put and returned unchanged |
| KanbanService.SaveReadTicketIsNoOp | src/app/kanban/kanban.service.ts:53-57 | saving an unedited read ticket through updateTicket, which makes its id a number, leaves the table unchanged |
| KanbanService.PutNumberedCopyIsNoOp | src/app/kanban/kanban.service.ts:73 | putting back a read ticket whose id was made a number again leaves the table and its counter unchanged |
| KanbanService.BatchOfNumberedCopiesIsNoOp | src/app/kanban/kanban.service.ts:72-75 | a batch of unedited read tickets whose ids were made numbers again leaves the table and its counter unchanged |
| KanbanService.PutReadCopyAddsDuplicate | src/app/kanban/kanban.service.ts:73 | putting back a read ticket with its text id adds a second record under the string key, equal to the stored one but for its key |
| KanbanService.BatchOfReadCopiesAddsCopies | src/app/kanban/kanban.service.ts:72-75 | a batch of read tickets with text ids keeps every stored record and the counter, and adds one string-keyed copy per ticket and nothing else |
| KanbanService.DuplicateListedTwice | src/app/kanban/kanban.service.ts:20-23 | once such a copy exists, the column query shows the ticket twice |
| KanbanComponent.HasButton | src/app/kanban/kanban.component.ts:254 | with the button kept last, a column has its load-more button exactly when its board ends with it |
| KanbanComponent.GetTicketOrderOnElementAdded | src/app/kanban/kanban.component.ts:313-316 | the element count is the position at which an element appended to the board is found |
| KanbanComponent.LastIndex | src/app/kanban/kanban.component.ts:323-332 | the index of the last matching element, and -1 exactly when none matches |
| KanbanComponent.Position | src/app/kanban/kanban.component.ts:323-332 | when some element matches, an index below the board length holding the last match; when none does, 0 |
| KanbanComponent.GetOrderOfAnElementInBoard | src/app/kanban/kanban.component.ts:323-332 | the loop that keeps overwriting the order with each matching index computes that position |
| KanbanComponent.MissLooksLikeFirst | src/app/kanban/kanban.component.ts:324-331 | an element not on the board gets order 0, the same as one in first place |
| KanbanComponent.AppendedAtCount | src/app/kanban/kanban.component.ts:313-316 | the element count a new ticket gets as its order is the index at which an appended element is later found |
| KanbanComponent.AddBehindButton | src/app/kanban/kanban.component.ts:260-266 | taking the button off, adding the ticket and putting the button back keeps the button last, present as before, with the ticket after every ticket shown |
| KanbanComponent.AddedOrder | src/app/kanban/kanban.component.ts:254-258 | the order addTicket gives is the number of tickets shown, the button not counted |
| KanbanComponent.AddedTicketShownAtOrder | src/app/kanban/kanban.component.ts:254-266 | the order addTicket gives is the position where the ticket is shown, behind which the button is put back |
| KanbanComponent.LoadMoreRequest | src/app/kanban/kanban.component.ts:73-75 | a click asks for the column by number, from the number of tickets shown (the button not counted) |
| KanbanComponent.AfterLoadMore | src/app/kanban/kanban.component.ts:76-80 | after a page comes back the shown tickets are followed by the page's, and the button is last and present exactly when tickets are left |
| KanbanComponent.LoadMorePages | src/app/kanban/kanban.component.ts:73-80 | from a board of tickets and its button, the request's offset is the ticket count; afterwards the button is there exactly when tickets are left, and the next request's offset also counts the new page |
| KanbanComponent.InitialBoard | src/app/kanban/kanban.component.ts:52-84 | the boards laid out at start are one per fetched column key |
| KanbanComponent.InitialBoardColumns | src/app/kanban/kanban.component.ts:52-84 | each fetched column's board holds its tickets, followed by a button only when tickets are left |
| KanbanComponent.FetchedBoard | src/app/kanban/kanban.component.ts:61-62 | the boards built from fetched columns are one per stored column, hold that column's tickets, and never have a load-more button |
| KanbanComponent.Component.constructor | src/app/kanban/kanban.component.ts:31-33 | the component starts with a ticket that has no property set |
| KanbanComponent.Component.OnTicketAdd | src/app/kanban/kanban.component.ts:211-216 | a new ticket object replaces `newTicket`, with no property set but the clicked board's column |
| KanbanComponent.Component.OnTicketEdit | src/app/kanban/kanban.component.ts:225-232 | the clicked ticket is fetched by number and, when stored, a new object holding its read copy replaces `newTicket` |
| KanbanComponent.Component.NgOnInit | src/app/kanban/kanban.component.ts:40-88 | the component keeps the fetched columns and lays out their boards, with no load-more button anywhere |
| KanbanComponent.Component.AddTicket | src/app/kanban/kanban.component.ts:253-270 | the new ticket's order is the element count less one exactly when the button exists; the component's ticket is stored and becomes the created record with its key, the counter moving past it, and when it is read back the increment request carries the numeric column and that record |
| KanbanComponent.GetParentBoardId | src/app/kanban/kanban.component.ts:278 | the old column is the text key of a board holding the ticket's element, and null exactly when no board holds it |
| KanbanComponent.Component.UpdateTicket | src/app/kanban/kanban.component.ts:277-293 | the old column is looked up on the board; the order becomes the new board's element count only when the column differs from it, else it is kept; the ticket is saved under its numeric id |
| KanbanComponent.Component.OnDragElement | src/app/kanban/kanban.component.ts:162-174 | the dragged ticket is remembered with its position on the source board as its order |
| KanbanComponent.Component.OnElementDropped | src/app/kanban/kanban.component.ts:183-203 | the dropped ticket is saved with the target column and its index there; the target is regenerated by increment, and the source by decrement only when it is another column |
| KanbanComponent.Component.RemoveTicket | src/app/kanban/kanban.component.ts:300-306 | the ticket under the number its id designates is deleted, then its column is regenerated by decrement |
| KanbanComponent.DropKeepsStoredTitle | src/app/kanban/kanban.component.ts:189-196 | with the updating hook's edits applied, a drop stores the new column and order but keeps the stored title and image |

## Left out

- `horizantalScroll` is not modelled. It is floating-point edge arithmetic that scrolls the window.
- jKanban rendering is not modelled. This covers board construction, callbacks, `addElement`, `removeElement`, `replaceElement`, `addForm`, button creation and event listeners. The board is an input to each operation. Only `addTicket`'s button handling and the load-more refill are written out, as functions on element sequences.
- The modal and click flags are not modelled: `whichModal`, `showModal`, `addClicked`, `deleteClicked`, `addTicketOrUpdateTicket` and `closeModal`. They are UI state only. `onTicketAdd` and `onTicketEdit` are modelled for what they do to `newTicket`, without the flags they also set.
- KanbanComponent.Component.OnTicketEdit: when no ticket is stored under the clicked id, `newTicket` is left as it was. The program sets it to `undefined`, after which the next add, update or remove throws.
- `onImageSelected` (FileReader) and `throwAnError` (console logging) are left out as I/O. A failed `storeTicket` is modelled as an error result that issues no further request.
- The bodies of `regenerateByIncrement`, `regenerateByDecrement` and `fetchColumnWithTickets` are not defined in the service. The model only records each call and its arguments.
- KanbanComponent.AfterLoadMore: assumes that the column returned by `fetchColumnWithTickets` is the column whose button was clicked. Only that service could say otherwise.
- Asynchrony is not modelled. Promises, un-awaited calls and Dexie transactions are taken as sequential steps, in program order.
- Dexie's schema versioning and secondary indexes are left out. So is the rule that `populate` runs only when the database is created: `KanbanDatabase.Open` models that first creation, and reopening an existing database is not modelled.
- KanbanDb.TicketsUpdating: the model applies the hook's in-place edits to `modifications`, which is what the code evidently intends. Dexie, from version 3 on, ignores such edits and takes further changes only from the hook's return value, which here is nothing (see "## Findings"). These files do not pin a Dexie version; under one that applied the hook's edits to the changes, the intended model is what runs. So `ReadWriteRoundTrip`, `EditedTitleIsStored`, `SaveUneditedIsNoOp`, `KanbanService.SaveReadTicketIsNoOp`, `KanbanService.PutNumberedCopyIsNoOp`, `KanbanService.BatchOfNumberedCopiesIsNoOp`, `KanbanService.UpdateTicket` and `KanbanComponent.DropKeepsStoredTitle` state the intended behaviour, not what the program as written stores.
- KanbanService.BatchUpdate: the batch's tickets are taken as values. Whether Dexie's bulk put runs the creating hook on the caller's objects and writes generated keys into them is library behaviour not modelled here, so the batch is returned as given even where the program may hand back new tickets rewritten by the hook.
- KanbanComponent.GetParentBoardId: when several boards hold the same `data-eid`, which one is returned is left open (jKanban returns the first in page order). A non-string id, which jKanban would take for an element and fail on, is looked up like a string.
- Values.ToNumber: unary plus on a missing value stays missing here, where JavaScript gives NaN. So a create or update without `columnId` keeps the stored column instead of writing NaN.
- Values.ToText: `String(null)` and `String(undefined)` stay null and undefined here, not the strings "null" and "undefined". Stored records always carry a number or a string as id.
- KanbanDb.TargetKey: an id of `null` is treated like a missing one and gets the counter's key. IndexedDB's handling of a `null` in-line key under the library is not modelled.
- KanbanDb.InsertByOrder: a ticket without an `order` sorts as order 0. Equal orders keep primary-key order, which is what a stable sort of the index scan gives.
- `ticket.interface.ts` is not part of this model. The ticket fields are the ones the code reads and writes.
- The `class` field of the column interface is left out, because no core code uses it.

## Findings

| source | as written | input that shows it | evidently intended | confidence | as-written member | corrected member |
|---|---|---|---|---|---|---|
| src/app/kanban/kanbandb.ts:44-49 | the `updating` hook edits `modifications` and `obj` in place and returns nothing, so Dexie (version 3 on, by its documented hook contract) applies the caller's changes unaltered | a ticket read through `fetchTicket` and saved unedited through `updateTicket` (kanban.service.ts:53-57) | the stored title stays raw, `columnId` stays a number and no `originalTitle` is stored, so an unedited save changes nothing | not executed | KanbanDb.UneditedSaveAsWritten, KanbanDb.TagsPileUpAsWritten | KanbanDb.ReadWriteRoundTrip, KanbanDb.SaveUneditedIsNoOp |
