# Comment submission workflow of the OpenSupports ticket controller

This project models, in Dafny, the `CommentController` of OpenSupports
(`server/controllers/ticket/comment.php`): the endpoint by which a staff member,
a registered user or a guest holding a ticket session adds a comment to a
support ticket. One request goes through five steps:

1. **validation**: `validations()` picks one of two rule tables. The logged-in
   table is used when the user system is on or staff is logged in. The guest
   table is used otherwise and compares the ticket number and CSRF token with
   the session's values;
2. **authorization**: the handler's two NO_PERMISSION gates;
3. **recording**: `storeComment()` builds the COMMENT event, sets its
   `private` bit, recomputes `unread`/`unreadStaff`, sets its authorship,
   appends it and stores the ticket;
4. **notification**: at most one "ticket responded" mail, to the owner or the
   author;
5. **log**: one `COMMENT` log line for the ticket.

Modules:

- `CommentTypes` (types.dfy): errors, events with their authorship variant
  (`AuthorStaff` / `AuthorUser` / `NoAuthor`), the ticket as a value, the
  request, the per-request context, mails and log lines.
- `CommentValidation` (validation.dfy): the two rule tables, and how a rule
  table judges a request (first failing rule wins).
- `CommentMail` (mail.dfy): the recipient decision table, the deep link, the
  imperative `SendMail`, and a reading of the guest link that inverts its
  construction, used to show that the link carries the ticket number and
  e-mail.
- `CommentTicket` (ticket.dfy): the `Ticket` class whose fields the workflow
  updates in place.
- `CommentWorkflow` (workflow.dfy): `Submit` is the whole request as a
  function of values. `StoreComment`, `Handler` and `SubmitComment` do the
  same work on a `Ticket` object and are proved equal to it. Lemmas about
  `Submit` state the workflow's guarantees.
- `CommentHistory` (history.dfy): several requests on one ticket, one after
  the other.

Collaborators whose code lies outside the controller are inputs:

- `ticket.isAuthor(user)`, `ticket.isOwner(user)`, `user.canManageTicket(ticket)`
  and `Session::isTicketSession()` are booleans of `Context`;
- the session's ticket number and token, the `url` setting and the current
  date are fields of `Context`;
- the `staff` entry of the array `authorToArray()` returns (comment.php:81) is
  the `authorIsStaff` field of the ticket; it decides the kind of link the
  author's mail carries (comment.php:149);
- the `Collaborators` value holds three functions: the `validTicketNumber`
  validator, the secure read of the `content` parameter
  (`Controller::request('content', true)`, comment.php:114) and
  `replaceWithImagePaths`;
- the result of the image and file upload is the `Upload` value.

Some consequences of the code's order of work:

- Content length is checked on the raw `content` parameter, before the secure
  read and before image paths are substituted (comment.php:48-51, 62-65).
- The mail carries the securely read content without image substitution
  (comment.php:114, 163), while the stored event carries it with image paths
  substituted (comment.php:125).
- For a staff comment, `unread` is computed from `ticket.isAuthor(user)`
  alone, without the ticket-session part of the handler's `$isAuthor`
  (comment.php:82, 132).
- The "not private" test of the mail rule reads the request's `private`
  parameter, not the stored bit (comment.php:103).

## Model

| member | source | states |
|---|---|---|
| CommentValidation.ValidationsFor | server/controllers/ticket/comment.php:41-77 | the logged-in table (permission `user`, content length 20..5000, valid ticket number) is chosen exactly when the user system is on or staff is logged in; otherwise the guest table (permission `any`, content length, ticket number and token equal to the session's), each rule with its error |
| CommentValidation.FirstFailure | server/controllers/ticket/comment.php:45-75 | a rule table lets a request through exactly when every rule holds; a failure reports the error of a rule that fails |
| CommentValidation.FirstFailureIsFirst | server/controllers/ticket/comment.php:45-75 | the error reported is that of the first failing rule in table order |
| CommentValidation.ContentOutOfBounds | server/controllers/ticket/comment.php:44-76 | in both regimes, once the permission level is met, content shorter than 20 or longer than 5000 characters fails with INVALID_CONTENT |
| CommentValidation.AcceptedContentInBounds | server/controllers/ticket/comment.php:48-51 | whatever the regime, validated content has 20..5000 characters |
| CommentValidation.GuestRegime | server/controllers/ticket/comment.php:58-75 | in guest mode a request passes exactly when the content is within bounds and both the ticket number and the token equal the session's; a wrong ticket number gives INVALID_TICKET, then a wrong token gives INVALID_TOKEN |
| CommentValidation.UserRegime | server/controllers/ticket/comment.php:44-57 | with the user system on or staff logged in, a request passes exactly when a session is logged in, the content is within bounds and the ticket number is valid; no token is checked; a bad number gives INVALID_TICKET |
| CommentMail.MailRecipient | server/controllers/ticket/comment.php:96-104 | a recipient exists exactly when the author comments on a ticket with an owner, or the owner comments without `private`; the first case wins and names the owner as staff, the second names the ticket's author with the author's own `staff` entry |
| CommentMail.MailUrl | server/controllers/ticket/comment.php:149-156 | the URL starts with the base URL, and equals it exactly when the user system is on or the recipient is staff |
| CommentMail.MailFor | server/controllers/ticket/comment.php:144-165 | the mail goes to the recipient's address and name, holds the ticket's title and number and the given content, and its URL is the plain base URL exactly when the user system is on or the recipient is staff |
| CommentMail.SendMail | server/controllers/ticket/comment.php:144-168 | the mail goes to the recipient and holds the ticket's title and number and the given content; its URL is the base URL plus `/check-ticket/<number>/<email>` when the user system is off and the recipient is not staff, and the base URL otherwise |
| CommentMail.CheckTicketUrlRoundTrip | server/controllers/ticket/comment.php:153-156 | the guest link reads back into the ticket number and e-mail it was built from, for ticket numbers without `/` |
| CommentMail.MailUrlRule | server/controllers/ticket/comment.php:149-156 | when the user system is off and the recipient is not staff, the URL reads back into the ticket number and the recipient's e-mail |
| CommentTicket.Ticket.AddEvent | server/controllers/ticket/comment.php:140 | the event is appended at the end, nothing else of the ticket changes |
| CommentTicket.Ticket.Store | server/controllers/ticket/comment.php:141 | the stored copy of the ticket equals its current flags and events |
| CommentWorkflow.IsAuthor | server/controllers/ticket/comment.php:82 | the actor counts as the author exactly when it wrote the ticket or holds a ticket session |
| CommentWorkflow.Authorize | server/controllers/ticket/comment.php:86-92 | the handler's gates pass exactly when the actor is staff, or the user system is off, or the actor is the author, and the actor may manage the ticket; any failure is NO_PERMISSION |
| CommentWorkflow.PrivateBit | server/controllers/ticket/comment.php:128 | the bit is 0 or 1, and 1 exactly when staff is logged in and the request asks for privacy |
| CommentWorkflow.CommentAuthor | server/controllers/ticket/comment.php:131-138 | the event carries `authorStaff` exactly when staff is logged in, `authorUser` exactly when a non-staff actor comments under an enabled user system, and no author exactly in guest mode, always naming the logged-in account |
| CommentWorkflow.NewComment | server/controllers/ticket/comment.php:123-138 | the event is a COMMENT with the securely read content after image substitution, the uploaded file name, the current date, the private bit only for staff, and no author exactly in guest mode |
| CommentWorkflow.Record | server/controllers/ticket/comment.php:131-140 | the event is appended; a staff comment sets `unread` to "not the author" and `unreadStaff` to "not the owner"; a non-staff comment keeps `unread`; a user comment sets `unreadStaff`; a guest comment keeps it |
| CommentWorkflow.Notify | server/controllers/ticket/comment.php:96-104 | no mail exactly when the decision table names no recipient; otherwise one mail to that recipient, about this ticket, with the securely read content (line 163); its URL is the plain base URL exactly when the user system is on, the mail goes to the owner, or the author is staff (lines 81, 149-156) |
| CommentWorkflow.CommentLog | server/controllers/ticket/comment.php:106 | the log line has kind `COMMENT` and names the ticket's number |
| CommentWorkflow.Handle | server/controllers/ticket/comment.php:79-109 | after validation, the handler succeeds exactly when both gates pass and the upload is accepted; a failure leaves the ticket, sends nothing and logs nothing; a success appends the new comment, sends at most one mail and logs one COMMENT line |
| CommentWorkflow.Submit | server/controllers/ticket/comment.php:41-109 | a request succeeds exactly when it passes validation, the user-system author gate, the manage gate and the upload; a failure leaves the ticket's flags and events as they were, sends no mail and writes no log line |
| CommentWorkflow.StoreComment | server/controllers/ticket/comment.php:117-142 | a rejected upload gives INVALID_FILE and leaves the ticket untouched; otherwise the ticket's new flags and events are those of `Record` with the new COMMENT event, and the stored copy equals them |
| CommentWorkflow.Handler | server/controllers/ticket/comment.php:79-109 | status, new ticket state, mails and log lines are those of the handler step of `Submit`; a failure leaves the ticket untouched; a success leaves it stored |
| CommentWorkflow.SubmitComment | server/controllers/ticket/comment.php:41-115 | on the ticket looked up by the request's number (line 113), validation with the chosen rule table, then the handler; the result equals `Submit` on the ticket's old value; identity, author and owner are kept |
| CommentWorkflow.ContentLengthRule | server/controllers/ticket/comment.php:48-51 | a successful request has content of 20..5000 characters; out-of-bounds content, once the permission level is met, fails with INVALID_CONTENT and changes nothing |
| CommentWorkflow.GuestSessionBinding | server/controllers/ticket/comment.php:58-75 | in guest mode a successful request names the session's ticket and token, so the ticket looked up by that number (line 113) is the session's ticket; a different ticket number fails with INVALID_TICKET and a different token with INVALID_TOKEN, leaving the ticket unchanged |
| CommentWorkflow.NoPermissionGates | server/controllers/ticket/comment.php:86-94 | after validation, a non-staff non-author under an enabled user system, or an actor who may not manage the ticket, gets NO_PERMISSION before anything is stored |
| CommentWorkflow.CommentAppended | server/controllers/ticket/comment.php:123-141 | a success appends exactly one COMMENT event, with the securely read content after image substitution, the file name and the date, after the unchanged earlier events; it logs `COMMENT` for the ticket number (line 106) |
| CommentWorkflow.SuccessAppendsComment | server/controllers/ticket/comment.php:123-140 | after a success the events are the old events followed by the new COMMENT event |
| CommentWorkflow.PrivateOnlyFromStaff | server/controllers/ticket/comment.php:128 | the stored event's `private` is 1 exactly when staff is logged in and the request asks for privacy, and 0 otherwise |
| CommentWorkflow.StaffCommentFlags | server/controllers/ticket/comment.php:131-134 | after a staff comment `unread` is "staff member is not the author", `unreadStaff` is "staff member is not the owner", and the event carries `authorStaff` |
| CommentWorkflow.NonStaffCommentFlags | server/controllers/ticket/comment.php:135-138 | a non-staff comment keeps `unread`. With the user system on it sets `unreadStaff` and the event carries `authorUser`. In guest mode `unreadStaff` is kept and the event carries no author |
| CommentWorkflow.MailToOwner | server/controllers/ticket/comment.php:96-101 | when the author comments on a ticket with an owner, exactly one mail goes to the owner as staff with the plain base URL, even if the actor is also the owner |
| CommentWorkflow.MailToAuthor | server/controllers/ticket/comment.php:102-103 | otherwise, when the owner comments without `private`, exactly one mail goes to the author; its URL is the check-ticket link for the ticket and the author's e-mail when the user system is off and the author is not staff, and the plain base URL otherwise |
| CommentWorkflow.NoMailOtherwise | server/controllers/ticket/comment.php:96-104 | in every other case, including a private comment by the owner, no mail is sent |
| CommentWorkflow.MailContent | server/controllers/ticket/comment.php:158-165 | at most one mail is sent; it carries the ticket's title and number and the securely read content, before image substitution (line 114) |
| CommentHistory.AppendOnly | server/controllers/ticket/comment.php:140-141 | over any run of requests the earlier events stay a prefix, one event is added per successful request, and identity, author and owner stay |
| CommentHistory.TwoCommentsInOrder | server/controllers/ticket/comment.php:140 | two successful comments in a row add their two events in submission order |
| CommentHistory.NonStaffKeepsUnreadStaff | server/controllers/ticket/comment.php:135-138 | requests by non-staff actors never clear `unreadStaff` |
| CommentHistory.OtherSessionsChangeNothing | server/controllers/ticket/comment.php:66-69 | a run of guest requests that name a ticket, from sessions that belong to other tickets, leaves that ticket exactly as it was |
| CommentHistory.NonStaffKeepsUnread | server/controllers/ticket/comment.php:131-138 | requests by non-staff actors never change `unread` |

## Left out

- File and image upload (`FileUploader`, `uploadImages`, `uploadFile`, `setPermission`): these are storage I/O defined outside the controller and are not part of this model. Their result is the input `Upload`: image paths and a file name or none, or a rejection. The model assumes a rejection means INVALID_FILE and happens before the event is built.
- `replaceWithImagePaths` and `Controller::request` (with its secure-read flag) are defined in the parent controller and are not part of this model. They are the uninterpreted functions `replaceWithImagePaths` and `secureContent` of `Collaborators`.
- `Ticket::authorToArray` is not part of this model. Only the author's e-mail, name and `staff` entry are used, as fields of the ticket.
- The Respect validation library is not part of this model: `length` is sequence length, and `validTicketNumber` is a function parameter. `equals` is exact string equality, so PHP's loose comparison (for example a missing token against an empty one) is not modelled.
- The enforcement of the `permission` entry lies in the parent framework and is not part of this model. The model assumes that the `user` level admits any logged-in user or staff session and that `any` admits everyone, and that the rules run in table order, the first failure being reported.
- `Ticket::getByTicketNumber` is not modelled as a search of the ticket store. `SubmitComment` requires that the ticket it is given carries the request's ticket number, which is what that lookup (comment.php:113) returns. A failed lookup is covered only through the validators.
- `Ticket::isAuthor`, `Ticket::isOwner` and `canManageTicket` are role policies outside the controller. The booleans of `Context` stand for their answers.
- The mechanics of `store()` are reduced to the stored copy `persisted`.
- `MailSender` transport and templating, the `Setting` lookup, `Log` persistence and the `Session` singleton are I/O or global state. Their values are inputs, and mails and log lines are outputs. A failure of mail delivery is not modelled.
- `Date::getCurrentDate()` is the input `now`.
- The check-ticket page that receives the guest link is not part of this model. `ParseCheckTicketUrl` is the model's own reading of the link, chosen to invert `CheckTicketUrl`; that the page splits the link the same way is assumed.
- Per-ticket locking or other concurrency control is not modelled. The controller has none: requests are modelled one after the other, as `CommentHistory` does.
- `Response::respondSuccess()` and the exception mechanism are not modelled as such. They are reduced to the `Status` of the reply.
