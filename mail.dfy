/**
 * The "ticket responded" notification: who receives it and the deep link it
 * carries, and a reading of the guest link that inverts its construction.
 */
module CommentMail {
  import opened CommentTypes

  /** A mail recipient; `staff` marks a staff member, and decides the kind of link. */
  datatype Recipient = Recipient(email: string, name: string, staff: bool)

  const CheckTicketPath: string := "/check-ticket/"

  /**
   * The decision table of the handler: the owner (as staff) when the actor is
   * the author and the ticket has an owner; otherwise the author, staff or
   * not as the author record says, when the actor is the owner and the
   * request is not private; otherwise nobody.
   */
  function MailRecipient(isAuthor: bool, isOwner: bool, requestPrivate: bool,
                         owner: Option<Person>, author: Person, authorIsStaff: bool): (r: Option<Recipient>)
    ensures r.Some? <==> (isAuthor && owner.Some?) || (isOwner && !requestPrivate)
    ensures isAuthor && owner.Some? ==> r == Some(Recipient(owner.value.email, owner.value.name, true))
    ensures !(isAuthor && owner.Some?) && isOwner && !requestPrivate ==>
              r == Some(Recipient(author.email, author.name, authorIsStaff))
  {
    if isAuthor && owner.Some? then Some(Recipient(owner.value.email, owner.value.name, true))
    else if isOwner && !requestPrivate then Some(Recipient(author.email, author.name, authorIsStaff))
    else None
  }

  /** The guest link to a ticket: base URL, `/check-ticket/`, ticket number, `/`, e-mail. */
  function CheckTicketUrl(baseUrl: string, ticketNumber: string, email: string): string
  {
    baseUrl + CheckTicketPath + ticketNumber + "/" + email
  }

  /** The link a mail carries: the guest link for a non-staff recipient without a user system. */
  function MailUrl(userSystemEnabled: bool, baseUrl: string, ticketNumber: string, rcp: Recipient): (url: string)
    ensures |baseUrl| <= |url| && url[..|baseUrl|] == baseUrl
    ensures url == baseUrl <==> userSystemEnabled || rcp.staff
  {
    if !userSystemEnabled && !rcp.staff then CheckTicketUrl(baseUrl, ticketNumber, rcp.email) else baseUrl
  }

  /** The mail sent to `rcp` about ticket `t` with the given content. */
  function MailFor(userSystemEnabled: bool, baseUrl: string, t: TicketView, rcp: Recipient, content: string): (m: Mail)
    ensures m.to == rcp.email && m.name == rcp.name && m.content == content
    ensures m.title == t.title && m.ticketNumber == t.ticketNumber
    ensures m.url == baseUrl <==> userSystemEnabled || rcp.staff
  {
    Mail(rcp.email, rcp.name, t.title, t.ticketNumber, content, MailUrl(userSystemEnabled, baseUrl, t.ticketNumber, rcp))
  }

  /** `sendMail()`: builds the link by appending to the base URL and fills in the template. */
  method SendMail(ctx: Context, t: TicketView, rcp: Recipient, content: string) returns (mail: Mail)
    ensures mail == MailFor(ctx.userSystemEnabled, ctx.baseUrl, t, rcp, content)
    ensures mail.to == rcp.email && mail.name == rcp.name && mail.content == content
    ensures mail.title == t.title && mail.ticketNumber == t.ticketNumber
    ensures !ctx.userSystemEnabled && !rcp.staff ==>
              mail.url == CheckTicketUrl(ctx.baseUrl, t.ticketNumber, rcp.email)
    ensures ctx.userSystemEnabled || rcp.staff ==> mail.url == ctx.baseUrl
  {
    var isStaff := rcp.staff;
    var url := ctx.baseUrl;
    if !ctx.userSystemEnabled && !isStaff {
      url := url + "/check-ticket/" + t.ticketNumber;
      url := url + "/" + rcp.email;
    }
    mail := Mail(rcp.email, rcp.name, t.title, t.ticketNumber, content, url);
  }

  /** Position of the first `c` in `s`, or `|s|` when there is none. */
  function IndexOf(s: string, c: char): (k: nat)
    ensures k <= |s|
    ensures k < |s| ==> s[k] == c
    ensures forall i :: 0 <= i < k ==> s[i] != c
  {
    if s == [] then 0
    else if s[0] == c then 0
    else 1 + IndexOf(s[1..], c)
  }

  /**
   * A reading of a link that inverts `CheckTicketUrl`: strip the base URL and
   * the path, then split the rest at its first `/` into ticket number and
   * e-mail. It is the model's own reference reading, not the check-ticket
   * page's code.
   */
  function ParseCheckTicketUrl(baseUrl: string, url: string): Option<(string, string)>
  {
    var prefix := baseUrl + CheckTicketPath;
    if |prefix| <= |url| && url[..|prefix|] == prefix then
      var rest := url[|prefix|..];
      var k := IndexOf(rest, '/');
      if k < |rest| then Some((rest[..k], rest[k + 1..])) else None
    else None
  }

  /** A guest link gives back the ticket number and e-mail it was built from. */
  lemma CheckTicketUrlRoundTrip(baseUrl: string, ticketNumber: string, email: string)
    requires '/' !in ticketNumber
    ensures ParseCheckTicketUrl(baseUrl, CheckTicketUrl(baseUrl, ticketNumber, email)) == Some((ticketNumber, email))
  {
    var prefix := baseUrl + CheckTicketPath;
    var url := CheckTicketUrl(baseUrl, ticketNumber, email);
    assert url == prefix + (ticketNumber + "/" + email);
    var rest := url[|prefix|..];
    assert rest == ticketNumber + "/" + email;
    assert rest[|ticketNumber|] == '/';
    assert forall i :: 0 <= i < |ticketNumber| ==> rest[i] == ticketNumber[i];
    var k := IndexOf(rest, '/');
    assert k == |ticketNumber|;
    assert rest[..k] == ticketNumber;
    assert rest[k + 1..] == email;
  }

  /**
   * The guest link of a mail to a non-staff recipient without a user system
   * reads back into the ticket number and the recipient's e-mail.
   */
  lemma MailUrlRule(userSystemEnabled: bool, baseUrl: string, ticketNumber: string, rcp: Recipient)
    requires '/' !in ticketNumber
    ensures !userSystemEnabled && !rcp.staff ==>
              ParseCheckTicketUrl(baseUrl, MailUrl(userSystemEnabled, baseUrl, ticketNumber, rcp)) == Some((ticketNumber, rcp.email))
  {
    if !userSystemEnabled && !rcp.staff {
      CheckTicketUrlRoundTrip(baseUrl, ticketNumber, rcp.email);
    }
  }
}
