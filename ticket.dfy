/** The ticket record that a comment updates in place. */
module CommentTicket {
  import opened CommentTypes

  /**
   * A ticket: its identity, its author and whether a staff member opened it,
   * its optional owner, the two unread flags, its events in order, and the
   * state the ticket store last saved.
   */
  class Ticket {
    var ticketNumber: string
    var title: string
    var author: Person
    var authorIsStaff: bool
    var owner: Option<Person>
    var unread: bool
    var unreadStaff: bool
    var events: seq<Event>
    var persisted: TicketState

    /** The flags and events, as one value. */
    function State(): TicketState
      reads this
    {
      TicketState(unread, unreadStaff, events)
    }

    /** The whole ticket, as one value. */
    function View(): TicketView
      reads this
    {
      TicketView(ticketNumber, title, author, authorIsStaff, owner, State())
    }

    /** `addEvent`: the event goes at the end, everything else stays. */
    method AddEvent(e: Event)
      modifies this`events
      ensures events == old(events) + [e]
    {
      events := events + [e];
    }

    /** `store`: the ticket store now holds the current flags and events. */
    method Store()
      modifies this`persisted
      ensures persisted == State()
    {
      persisted := State();
    }
  }
}
