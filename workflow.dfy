/**
 * The comment workflow of the ticket controller: validation, the two
 * permission gates, recording the COMMENT event, the notification and the
 * log line. `Submit` says what one request does, as a function of values;
 * `SubmitComment` does it to a `Ticket` object and is proved to agree.
 */
module CommentWorkflow {
  import opened CommentTypes
  import opened CommentValidation
  import opened CommentMail
  import opened CommentTicket

  /** The actor counts as the author when it wrote the ticket or holds the ticket's session. */
  predicate IsAuthor(ctx: Context): (b: bool)
    ensures ctx.isAuthorOfTicket ==> b
    ensures ctx.ticketSession ==> b
    ensures b ==> ctx.isAuthorOfTicket || ctx.ticketSession
  {
    ctx.isAuthorOfTicket || ctx.ticketSession
  }

  /**
   * The two permission gates of the handler: under an enabled user system a
   * non-staff actor must be the author, and every actor must be allowed to
   * manage the ticket.
   */
  function Authorize(ctx: Context): (o: Outcome)
    ensures o.Pass? <==> (ctx.staffLogged || !ctx.userSystemEnabled || IsAuthor(ctx)) && ctx.canManageTicket
    ensures o.Fail? ==> o.error == NoPermission
  {
    if !ctx.staffLogged && ctx.userSystemEnabled && !IsAuthor(ctx) then Fail(NoPermission)
    else if !ctx.canManageTicket then Fail(NoPermission)
    else Pass
  }

  /** The `private` bit of the stored event: only staff can make a comment private. */
  function PrivateBit(ctx: Context, req: Request): (b: nat)
    ensures b <= 1
    ensures b == 1 <==> ctx.staffLogged && req.private
  {
    if ctx.staffLogged && req.private then 1 else 0
  }

  /** Staff comments carry `authorStaff`, user comments `authorUser`, guest comments neither. */
  function CommentAuthor(ctx: Context): (a: Authorship)
    ensures a.AuthorStaff? <==> ctx.staffLogged
    ensures a.AuthorUser? <==> !ctx.staffLogged && ctx.userSystemEnabled
    ensures a.NoAuthor? <==> GuestMode(ctx)
    ensures a == AuthorStaff(ctx.loggedUser) || a == AuthorUser(ctx.loggedUser) || a == NoAuthor
  {
    if ctx.staffLogged then AuthorStaff(ctx.loggedUser)
    else if ctx.userSystemEnabled then AuthorUser(ctx.loggedUser)
    else NoAuthor
  }

  /**
   * The COMMENT event: its content is the securely read request content with
   * image placeholders replaced by the uploaded paths.
   */
  function NewComment(ctx: Context, req: Request, imagePaths: seq<string>, fileName: Option<string>,
                      env: Collaborators): (e: Event)
    ensures e.kind == CommentEvent && e.file == fileName && e.date == ctx.now
    ensures e.content == env.replaceWithImagePaths(imagePaths, env.secureContent(req.content))
    ensures e.private <= 1 && (e.private == 1 <==> ctx.staffLogged && req.private)
    ensures e.author.NoAuthor? <==> GuestMode(ctx)
  {
    Event(CommentEvent, env.replaceWithImagePaths(imagePaths, env.secureContent(req.content)), fileName,
          ctx.now, PrivateBit(ctx, req), CommentAuthor(ctx))
  }

  /**
   * The ticket after the comment: the event is appended; staff sets `unread`
   * to "not the author" and `unreadStaff` to "not the owner"; a user under an
   * enabled user system sets `unreadStaff`; a guest changes neither flag.
   */
  function Record(ctx: Context, s: TicketState, e: Event): (r: TicketState)
    ensures r.events == s.events + [e]
    ensures ctx.staffLogged ==> r.unread == !ctx.isAuthorOfTicket && r.unreadStaff == !ctx.isOwnerOfTicket
    ensures !ctx.staffLogged ==> r.unread == s.unread
    ensures !ctx.staffLogged && ctx.userSystemEnabled ==> r.unreadStaff
    ensures GuestMode(ctx) ==> r.unreadStaff == s.unreadStaff
  {
    if ctx.staffLogged then TicketState(!ctx.isAuthorOfTicket, !ctx.isOwnerOfTicket, s.events + [e])
    else if ctx.userSystemEnabled then TicketState(s.unread, true, s.events + [e])
    else TicketState(s.unread, s.unreadStaff, s.events + [e])
  }

  /**
   * The mails of a recorded comment: none when the decision table names no
   * recipient, otherwise one to that recipient, with the securely read
   * request content.
   */
  function Notify(ctx: Context, req: Request, t: TicketView, env: Collaborators): (ms: seq<Mail>)
    ensures |ms| <= 1
    ensures var rcp := MailRecipient(IsAuthor(ctx), ctx.isOwnerOfTicket, req.private, t.owner, t.author, t.authorIsStaff);
            && (ms == [] <==> rcp.None?)
            && (rcp.Some? ==> ms == [MailFor(ctx.userSystemEnabled, ctx.baseUrl, t, rcp.value, env.secureContent(req.content))])
    ensures forall m | m in ms ::
              && m.content == env.secureContent(req.content) && m.title == t.title && m.ticketNumber == t.ticketNumber
              && (m.url == ctx.baseUrl <==> ctx.userSystemEnabled || (IsAuthor(ctx) && t.owner.Some?) || t.authorIsStaff)
  {
    match MailRecipient(IsAuthor(ctx), ctx.isOwnerOfTicket, req.private, t.owner, t.author, t.authorIsStaff)
    case None => []
    case Some(rcp) => [MailFor(ctx.userSystemEnabled, ctx.baseUrl, t, rcp, env.secureContent(req.content))]
  }

  /** The log line of a comment: kind `COMMENT`, subject the ticket's number. */
  function CommentLog(t: TicketView): (l: LogEntry)
    ensures l.kind == "COMMENT" && l.subject == t.ticketNumber
  {
    LogEntry("COMMENT", t.ticketNumber)
  }

  /** What the handler does once validation has passed. */
  function Handle(ctx: Context, req: Request, t: TicketView, upload: Upload, env: Collaborators): (r: Reply)
    ensures r.status.Success? <==> Authorize(ctx).Pass? && upload.Uploaded?
    ensures r.status.Failed? ==> r.after == t.state && r.mails == [] && r.log == []
    ensures r.status.Success? ==> r.log == [CommentLog(t)] && |r.mails| <= 1
    ensures r.status.Success? ==>
              r.after.events == t.state.events + [NewComment(ctx, req, upload.imagePaths, upload.fileName, env)]
  {
    var gate := Authorize(ctx);
    if gate.Fail? then Reply(Failed(gate.error), t.state, [], [])
    else match upload
      case UploadRejected => Reply(Failed(InvalidFile), t.state, [], [])
      case Uploaded(paths, fileName) =>
        var comment := NewComment(ctx, req, paths, fileName, env);
        Reply(Success, Record(ctx, t.state, comment), Notify(ctx, req, t, env), [CommentLog(t)])
  }

  /**
   * One "comment ticket" request, from validation to the log line: it
   * succeeds exactly when validation, both permission gates and the upload
   * pass, and a failure changes nothing, sends nothing and logs nothing.
   */
  function Submit(ctx: Context, req: Request, t: TicketView, upload: Upload, env: Collaborators): (r: Reply)
    ensures r.status.Success? <==>
              && ValidateRequest(ctx, req, env.validTicketNumber).Pass?
              && (ctx.staffLogged || !ctx.userSystemEnabled || IsAuthor(ctx))
              && ctx.canManageTicket
              && upload.Uploaded?
    ensures r.status.Failed? ==> r.after == t.state && r.mails == [] && r.log == []
  {
    var v := ValidateRequest(ctx, req, env.validTicketNumber);
    if v.Fail? then Reply(Failed(v.error), t.state, [], [])
    else Handle(ctx, req, t, upload, env)
  }

  /** `storeComment()`: upload, build the event, update the flags and authorship, append, store. */
  method StoreComment(ticket: Ticket, ctx: Context, req: Request, upload: Upload, env: Collaborators)
    returns (status: Status)
    modifies ticket
    ensures upload.UploadRejected? ==> status == Failed(InvalidFile) && unchanged(ticket)
    ensures upload.Uploaded? ==> status == Success
    ensures upload.Uploaded? ==>
              ticket.State() == Record(ctx, old(ticket.State()),
                                       NewComment(ctx, req, upload.imagePaths, upload.fileName, env))
    ensures upload.Uploaded? ==> ticket.persisted == ticket.State()
    ensures ticket.View() == old(ticket.View()).(state := ticket.State())
  {
    if upload.UploadRejected? {
      return Failed(InvalidFile);
    }
    var content := env.secureContent(req.content);
    var comment := Event(CommentEvent, env.replaceWithImagePaths(upload.imagePaths, content), upload.fileName,
                         ctx.now, if ctx.staffLogged && req.private then 1 else 0, NoAuthor);
    if ctx.staffLogged {
      ticket.unread := !ctx.isAuthorOfTicket;
      ticket.unreadStaff := !ctx.isOwnerOfTicket;
      comment := comment.(author := AuthorStaff(ctx.loggedUser));
    } else if ctx.userSystemEnabled {
      ticket.unreadStaff := true;
      comment := comment.(author := AuthorUser(ctx.loggedUser));
    }
    ticket.AddEvent(comment);
    ticket.Store();
    status := Success;
  }

  /** `handler()`: the permission gates, the comment, the notification and the log line. */
  method Handler(ticket: Ticket, ctx: Context, req: Request, upload: Upload, env: Collaborators)
    returns (status: Status, mails: seq<Mail>, log: seq<LogEntry>)
    modifies ticket
    ensures Reply(status, ticket.State(), mails, log) == Handle(ctx, req, old(ticket.View()), upload, env)
    ensures ticket.View() == old(ticket.View()).(state := ticket.State())
    ensures status.Failed? ==> unchanged(ticket)
    ensures status.Success? ==> ticket.persisted == ticket.State()
  {
    var content := env.secureContent(req.content);
    var ticketAuthor := Recipient(ticket.author.email, ticket.author.name, ticket.authorIsStaff);
    var isAuthor := ctx.isAuthorOfTicket || ctx.ticketSession;
    var isOwner := ctx.isOwnerOfTicket;
    mails, log := [], [];

    if !ctx.staffLogged && ctx.userSystemEnabled && !isAuthor {
      return Failed(NoPermission), mails, log;
    }
    if !ctx.canManageTicket {
      return Failed(NoPermission), mails, log;
    }

    status := StoreComment(ticket, ctx, req, upload, env);
    if status.Failed? {
      return;
    }

    var view := ticket.View();
    if isAuthor && ticket.owner.Some? {
      var mail := SendMail(ctx, view, Recipient(ticket.owner.value.email, ticket.owner.value.name, true), content);
      mails := [mail];
    } else if isOwner {
      if !req.private {
        var mail := SendMail(ctx, view, ticketAuthor, content);
        mails := [mail];
      }
    }

    log := [LogEntry("COMMENT", ticket.ticketNumber)];
  }

  /**
   * The endpoint: the framework's validation with `validations()`'s table, then
   * the handler. `ticket` is the ticket the handler looks up by the request's
   * ticket number.
   */
  method SubmitComment(ticket: Ticket, ctx: Context, req: Request, upload: Upload, env: Collaborators)
    returns (status: Status, mails: seq<Mail>, log: seq<LogEntry>)
    requires ticket.ticketNumber == req.ticketNumber
    modifies ticket
    ensures Reply(status, ticket.State(), mails, log) == Submit(ctx, req, old(ticket.View()), upload, env)
    ensures ticket.View() == old(ticket.View()).(state := ticket.State())
    ensures status.Failed? ==> unchanged(ticket)
    ensures status.Success? ==> ticket.persisted == ticket.State()
  {
    var v := Validate(ValidationsFor(ctx), ctx, req, env.validTicketNumber);
    if v.Fail? {
      return Failed(v.error), [], [];
    }
    status, mails, log := Handler(ticket, ctx, req, upload, env);
  }

  // ---------------------------------------------------------------------------
  // Properties of one request

  /** Content outside 20..5000 characters is refused with INVALID_CONTENT, in both regimes. */
  lemma ContentLengthRule(ctx: Context, req: Request, t: TicketView, upload: Upload, env: Collaborators)
    ensures Submit(ctx, req, t, upload, env).status.Success? ==> ContentInBounds(req)
    ensures PermissionGranted(ValidationsFor(ctx).permission, ctx) && !ContentInBounds(req) ==>
              Submit(ctx, req, t, upload, env) == Reply(Failed(InvalidContent), t.state, [], [])
  {
    AcceptedContentInBounds(ctx, req, env.validTicketNumber);
    if PermissionGranted(ValidationsFor(ctx).permission, ctx) && !ContentInBounds(req) {
      ContentOutOfBounds(ctx, req, env.validTicketNumber);
    }
  }

  /**
   * A guest request goes through only when it names the ticket of its session
   * and carries the session's token, so the ticket it is looked up by and
   * commented on is the session's ticket; a wrong ticket number gives
   * INVALID_TICKET, a wrong token INVALID_TOKEN.
   */
  lemma GuestSessionBinding(ctx: Context, req: Request, t: TicketView, upload: Upload, env: Collaborators)
    requires GuestMode(ctx)
    ensures Submit(ctx, req, t, upload, env).status.Success? ==>
              req.ticketNumber == ctx.sessionTicketNumber && req.csrfToken == ctx.sessionToken
    ensures t.ticketNumber == req.ticketNumber && Submit(ctx, req, t, upload, env).status.Success? ==>
              t.ticketNumber == ctx.sessionTicketNumber
    ensures ContentInBounds(req) && req.ticketNumber != ctx.sessionTicketNumber ==>
              Submit(ctx, req, t, upload, env) == Reply(Failed(InvalidTicket), t.state, [], [])
    ensures ContentInBounds(req) && req.ticketNumber == ctx.sessionTicketNumber && req.csrfToken != ctx.sessionToken ==>
              Submit(ctx, req, t, upload, env) == Reply(Failed(InvalidToken), t.state, [], [])
  {
    GuestRegime(ctx, req, env.validTicketNumber);
  }

  /**
   * After validation, a non-staff actor who is not the author under an enabled
   * user system, or an actor who may not manage the ticket, gets NO_PERMISSION
   * and the ticket is left as it was.
   */
  lemma NoPermissionGates(ctx: Context, req: Request, t: TicketView, upload: Upload, env: Collaborators)
    requires ValidateRequest(ctx, req, env.validTicketNumber).Pass?
    requires (!ctx.staffLogged && ctx.userSystemEnabled && !IsAuthor(ctx)) || !ctx.canManageTicket
    ensures Submit(ctx, req, t, upload, env) == Reply(Failed(NoPermission), t.state, [], [])
  {
  }

  /**
   * A successful request appends exactly one COMMENT event, leaves the earlier
   * events as they were and writes one COMMENT log line for the ticket.
   */
  lemma CommentAppended(ctx: Context, req: Request, t: TicketView, upload: Upload, env: Collaborators)
    requires Submit(ctx, req, t, upload, env).status.Success?
    ensures var r := Submit(ctx, req, t, upload, env);
            && upload.Uploaded?
            && |r.after.events| == |t.state.events| + 1
            && r.after.events[..|t.state.events|] == t.state.events
            && r.after.events[|t.state.events|].kind == CommentEvent
            && r.after.events[|t.state.events|].content ==
                 env.replaceWithImagePaths(upload.imagePaths, env.secureContent(req.content))
            && r.after.events[|t.state.events|].file == upload.fileName
            && r.after.events[|t.state.events|].date == ctx.now
            && r.log == [LogEntry("COMMENT", t.ticketNumber)]
  {
  }

  /** The ticket's events after a successful request: the old ones, then the new comment. */
  lemma SuccessAppendsComment(ctx: Context, req: Request, t: TicketView, upload: Upload, env: Collaborators)
    requires Submit(ctx, req, t, upload, env).status.Success?
    ensures upload.Uploaded?
    ensures Submit(ctx, req, t, upload, env).after.events ==
              t.state.events + [NewComment(ctx, req, upload.imagePaths, upload.fileName, env)]
  {
  }

  /** The stored event is private exactly when staff is logged in and asked for privacy. */
  lemma PrivateOnlyFromStaff(ctx: Context, req: Request, t: TicketView, upload: Upload, env: Collaborators)
    requires Submit(ctx, req, t, upload, env).status.Success?
    ensures var e := Submit(ctx, req, t, upload, env).after.events[|t.state.events|];
            (e.private == 1 <==> ctx.staffLogged && req.private) && (e.private == 0 || e.private == 1)
  {
  }

  /**
   * A staff comment marks the ticket unread for the author unless the staff
   * member is the author, unread for staff unless the staff member is the
   * owner, and carries `authorStaff`.
   */
  lemma StaffCommentFlags(ctx: Context, req: Request, t: TicketView, upload: Upload, env: Collaborators)
    requires ctx.staffLogged
    requires Submit(ctx, req, t, upload, env).status.Success?
    ensures var r := Submit(ctx, req, t, upload, env);
            && r.after.unread == !ctx.isAuthorOfTicket
            && r.after.unreadStaff == !ctx.isOwnerOfTicket
            && r.after.events[|t.state.events|].author == AuthorStaff(ctx.loggedUser)
  {
  }

  /**
   * A user comment under an enabled user system marks the ticket unread for
   * staff, keeps the author's flag and carries `authorUser`; a guest comment
   * keeps both flags and carries no author.
   */
  lemma NonStaffCommentFlags(ctx: Context, req: Request, t: TicketView, upload: Upload, env: Collaborators)
    requires !ctx.staffLogged
    requires Submit(ctx, req, t, upload, env).status.Success?
    ensures var r := Submit(ctx, req, t, upload, env);
            && r.after.unread == t.state.unread
            && (ctx.userSystemEnabled ==> r.after.unreadStaff && r.after.events[|t.state.events|].author == AuthorUser(ctx.loggedUser))
            && (!ctx.userSystemEnabled ==> r.after.unreadStaff == t.state.unreadStaff && r.after.events[|t.state.events|].author == NoAuthor)
  {
  }

  /**
   * When the author comments on a ticket that has an owner, one mail goes to
   * the owner as staff, with the plain base URL, whether or not the actor is
   * also the owner.
   */
  lemma MailToOwner(ctx: Context, req: Request, t: TicketView, upload: Upload, env: Collaborators)
    requires Submit(ctx, req, t, upload, env).status.Success?
    requires IsAuthor(ctx) && t.owner.Some?
    ensures var r := Submit(ctx, req, t, upload, env);
            && |r.mails| == 1
            && r.mails[0].to == t.owner.value.email
            && r.mails[0].name == t.owner.value.name
            && r.mails[0].url == ctx.baseUrl
  {
  }

  /**
   * When the owner posts a non-private comment (and the first rule does not
   * apply), one mail goes to the author; it carries the guest link for the
   * ticket and the author's e-mail when no user system is enabled and the
   * author is not staff, and the plain base URL otherwise.
   */
  lemma MailToAuthor(ctx: Context, req: Request, t: TicketView, upload: Upload, env: Collaborators)
    requires Submit(ctx, req, t, upload, env).status.Success?
    requires !(IsAuthor(ctx) && t.owner.Some?) && ctx.isOwnerOfTicket && !req.private
    ensures var r := Submit(ctx, req, t, upload, env);
            && |r.mails| == 1
            && r.mails[0].to == t.author.email
            && r.mails[0].name == t.author.name
            && r.mails[0].url == (if ctx.userSystemEnabled || t.authorIsStaff then ctx.baseUrl
                                  else CheckTicketUrl(ctx.baseUrl, t.ticketNumber, t.author.email))
  {
  }

  /** In every other case, and in particular for a private comment by the owner, no mail is sent. */
  lemma NoMailOtherwise(ctx: Context, req: Request, t: TicketView, upload: Upload, env: Collaborators)
    requires !(IsAuthor(ctx) && t.owner.Some?) && !(ctx.isOwnerOfTicket && !req.private)
    ensures Submit(ctx, req, t, upload, env).mails == []
  {
  }

  /**
   * At most one mail is sent; it is about this ticket and carries the
   * securely read request content, before image paths are substituted.
   */
  lemma MailContent(ctx: Context, req: Request, t: TicketView, upload: Upload, env: Collaborators)
    ensures var r := Submit(ctx, req, t, upload, env);
            && |r.mails| <= 1
            && (forall m | m in r.mails ::
                  m.content == env.secureContent(req.content) && m.title == t.title && m.ticketNumber == t.ticketNumber)
  {
  }
}
