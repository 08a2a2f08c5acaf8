/**
 * The two record kinds of the board. The ticket fields are the ones the core
 * reads and writes (its interface file is not part of this model); the column
 * fields follow the column interface.
 */
module Records {
  import opened Values

  /**
   * A ticket. `title` is the raw title in the store and the display title
   * (with an image tag in front) once read; `originalTitle` carries the raw
   * title next to the display one. A `None` field is a property that is not set.
   */
  datatype Ticket = Ticket(
    id: Key,
    columnId: Key,
    title: Option<string>,
    order: Option<int>,
    image: Option<string>,
    originalTitle: Option<string>)

  /** A ticket object with no property set. */
  const NoFields: Ticket := Ticket(Absent, Absent, None, None, None, None)

  /** A column (a board lane); `item` holds its tickets once they are fetched. */
  datatype Column = Column(
    id: Key,
    title: string,
    item: Option<seq<Ticket>>,
    totalTicketsLeft: Option<int>)

  /** The sort key of a ticket: its `order`, with a missing one taken as 0. */
  function OrderKey(t: Ticket): int
  {
    if t.order.Some? then t.order.value else 0
  }
}
