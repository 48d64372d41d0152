/** Values shared by the comment-submission workflow of the ticket controller. */
module CommentTypes {

  datatype Option<+T> = None | Some(value: T)

  /** The errors the "comment ticket" endpoint reports to its caller. */
  datatype Error = NoPermission | InvalidContent | InvalidTicket | InvalidToken | InvalidFile

  /** The result of one check or of a sequence of checks. */
  datatype Outcome = Pass | Fail(error: Error)

  /** Identity of the logged-in account (a staff member or a user). */
  type UserId = nat

  /** The e-mail address and name of a ticket's author or owner. */
  datatype Person = Person(email: string, name: string)

  /** Who wrote an event: at most one of the two authorship fields is set. */
  datatype Authorship = AuthorStaff(staff: UserId) | AuthorUser(user: UserId) | NoAuthor

  /** The kind of a ticket event; this workflow only builds COMMENT events. */
  datatype EventKind = CommentEvent

  /** A ticket event. `private` is 0 or 1. */
  datatype Event = Event(kind: EventKind, content: string, file: Option<string>, date: nat,
                         private: nat, author: Authorship)

  /** The part of a ticket that a comment changes. */
  datatype TicketState = TicketState(unread: bool, unreadStaff: bool, events: seq<Event>)

  /**
   * A ticket as the workflow sees it: identity, people and the mutable state.
   * `authorIsStaff` is the `staff` entry of the ticket's author record: set
   * when a staff member opened the ticket.
   */
  datatype TicketView = TicketView(ticketNumber: string, title: string, author: Person,
                                   authorIsStaff: bool, owner: Option<Person>, state: TicketState)

  /**
   * What the controller learns from the session, the settings and the ticket
   * store for one request. The booleans stand for calls whose code lies
   * outside the controller: `ticket.isAuthor(user)`, `ticket.isOwner(user)`,
   * `user.canManageTicket(ticket)` and `Session::isTicketSession()`.
   */
  datatype Context = Context(
    userSystemEnabled: bool,
    staffLogged: bool,
    loggedIn: bool,
    ticketSession: bool,
    sessionTicketNumber: string,
    sessionToken: string,
    loggedUser: UserId,
    isAuthorOfTicket: bool,
    isOwnerOfTicket: bool,
    canManageTicket: bool,
    baseUrl: string,
    now: nat)

  /**
   * The request parameters of the endpoint as they are validated; `private`
   * is its truth value.
   */
  datatype Request = Request(content: string, ticketNumber: string, private: bool, csrfToken: string)

  /** What the upload helpers return: image paths and an optional file name, or a rejection. */
  datatype Upload = Uploaded(imagePaths: seq<string>, fileName: Option<string>) | UploadRejected

  /**
   * The collaborators of the controller whose code lies elsewhere: the
   * `validTicketNumber` validator, the secure read of a request parameter
   * (`request('content', true)`) and the image-path substitution
   * (`replaceWithImagePaths`).
   */
  datatype Collaborators = Collaborators(
    validTicketNumber: string -> bool,
    secureContent: string -> string,
    replaceWithImagePaths: (seq<string>, string) -> string)

  /** A "ticket responded" mail. */
  datatype Mail = Mail(to: string, name: string, title: string, ticketNumber: string,
                       content: string, url: string)

  datatype LogEntry = LogEntry(kind: string, subject: string)

  datatype Status = Success | Failed(error: Error)

  /** Everything one request produces: its status, the ticket's new state, mails and log lines. */
  datatype Reply = Reply(status: Status, after: TicketState, mails: seq<Mail>, log: seq<LogEntry>)
}
