/** The `Ticket` class, whose constructor builds a ticket by copying fields. */
module TicketModule {
  import opened Values
  import opened Records

  /**
   * `new Ticket(source)`: without a source no property is set; with one,
   * `id`, `order`, `columnId` and `title` are copied, a falsy `id` becoming
   * null, and every other property of the source is dropped.
   */
  function NewTicket(source: Option<Ticket>): (t: Ticket)
    ensures source.None? ==> t == NoFields
    ensures source.Some? ==> Truthy(t.id) == Truthy(source.value.id)
    ensures source.Some? && Truthy(source.value.id) ==> t.id == source.value.id
    ensures source.Some? && !Truthy(source.value.id) ==> t.id == Null
    ensures source.Some? ==>
      && t.order == source.value.order
      && t.columnId == source.value.columnId
      && t.title == source.value.title
    ensures t.image == None && t.originalTitle == None
  {
    match source
    case None => NoFields
    case Some(s) =>
      Ticket(if Truthy(s.id) then s.id else Null, s.columnId, s.title, s.order, None, None)
  }

  /** Copying a copy changes nothing: the constructor is a projection. */
  lemma NewTicketIdempotent(s: Ticket)
    ensures NewTicket(Some(NewTicket(Some(s)))) == NewTicket(Some(s))
  {
  }

  /** Only the four copied fields of the source matter. */
  lemma NewTicketIgnoresOtherFields(s: Ticket, image: Option<string>, originalTitle: Option<string>)
    ensures NewTicket(Some(s.(image := image, originalTitle := originalTitle))) == NewTicket(Some(s))
  {
  }
}
