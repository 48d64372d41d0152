/**
 * The request checks of the "comment ticket" endpoint: the two rule tables
 * that `validations()` chooses between, and how a rule table judges a request.
 */
module CommentValidation {
  import opened CommentTypes

  /** The permission level a rule table asks for. */
  datatype Permission = UserPermission | AnyPermission

  datatype Field = ContentField | TicketNumberField | CsrfTokenField

  /** The validators used by the endpoint: a length range, a well-formed ticket number, equality. */
  datatype Check = Length(min: nat, max: nat) | ValidTicketNumber | EqualTo(expected: string)

  /** One entry of `requestData`: which field, which validator, which error on failure. */
  datatype Rule = Rule(field: Field, check: Check, error: Error)

  datatype Validations = Validations(permission: Permission, requestData: seq<Rule>)

  const MinContent: nat := 20
  const MaxContent: nat := 5000

  /** The rule table of `validations()`: a logged-in regime and a guest (ticket session) regime. */
  function ValidationsFor(ctx: Context): (v: Validations)
    ensures v.permission == UserPermission <==> !GuestMode(ctx)
    ensures |v.requestData| >= 2
    ensures v.requestData[0] == Rule(ContentField, Length(MinContent, MaxContent), InvalidContent)
    ensures !GuestMode(ctx) ==> v.requestData[1..] == [Rule(TicketNumberField, ValidTicketNumber, InvalidTicket)]
    ensures GuestMode(ctx) ==> v.requestData[1..] == [Rule(TicketNumberField, EqualTo(ctx.sessionTicketNumber), InvalidTicket),
                                                       Rule(CsrfTokenField, EqualTo(ctx.sessionToken), InvalidToken)]
  {
    if ctx.userSystemEnabled || ctx.staffLogged then
      Validations(UserPermission, [
        Rule(ContentField, Length(MinContent, MaxContent), InvalidContent),
        Rule(TicketNumberField, ValidTicketNumber, InvalidTicket)])
    else
      Validations(AnyPermission, [
        Rule(ContentField, Length(MinContent, MaxContent), InvalidContent),
        Rule(TicketNumberField, EqualTo(ctx.sessionTicketNumber), InvalidTicket),
        Rule(CsrfTokenField, EqualTo(ctx.sessionToken), InvalidToken)])
  }

  function FieldValue(req: Request, f: Field): string
  {
    match f
    case ContentField => req.content
    case TicketNumberField => req.ticketNumber
    case CsrfTokenField => req.csrfToken
  }

  /** Whether the request's field passes the rule's validator; `validTicketNumber` is the store's notion. */
  predicate Holds(rule: Rule, req: Request, validTicketNumber: string -> bool)
  {
    var value := FieldValue(req, rule.field);
    match rule.check
    case Length(lo, hi) => lo <= |value| <= hi
    case ValidTicketNumber => validTicketNumber(value)
    case EqualTo(expected) => value == expected
  }

  /** Runs the rules in table order and reports the error of the first one that fails. */
  function FirstFailure(rules: seq<Rule>, req: Request, validTicketNumber: string -> bool): (o: Outcome)
    ensures o.Pass? <==> forall i :: 0 <= i < |rules| ==> Holds(rules[i], req, validTicketNumber)
    ensures o.Fail? ==> exists i :: 0 <= i < |rules| && !Holds(rules[i], req, validTicketNumber) && o.error == rules[i].error
  {
    if rules == [] then Pass
    else if !Holds(rules[0], req, validTicketNumber) then Fail(rules[0].error)
    else
      var o := FirstFailure(rules[1..], req, validTicketNumber);
      assert forall i :: 1 <= i < |rules| ==> rules[i] == rules[1..][i - 1];
      o
  }

  /** The error reported is that of the first failing rule: every earlier rule holds. */
  lemma {:induction false} FirstFailureIsFirst(rules: seq<Rule>, req: Request, validTicketNumber: string -> bool, k: nat)
    requires k < |rules|
    requires !Holds(rules[k], req, validTicketNumber)
    requires forall i :: 0 <= i < k ==> Holds(rules[i], req, validTicketNumber)
    ensures FirstFailure(rules, req, validTicketNumber) == Fail(rules[k].error)
  {
    if k > 0 {
      assert Holds(rules[0], req, validTicketNumber);
      assert forall i :: 0 <= i < k - 1 ==> rules[1..][i] == rules[i + 1];
      FirstFailureIsFirst(rules[1..], req, validTicketNumber, k - 1);
    }
  }

  /**
   * The 'user' permission level admits any authenticated session, of a user
   * or of a staff member; 'any' admits everyone.
   */
  predicate PermissionGranted(p: Permission, ctx: Context)
  {
    p == AnyPermission || ctx.loggedIn || ctx.staffLogged
  }

  /** The check the framework runs before the handler: permission level first, then the rules. */
  function Validate(v: Validations, ctx: Context, req: Request, validTicketNumber: string -> bool): Outcome
  {
    if !PermissionGranted(v.permission, ctx) then Fail(NoPermission)
    else FirstFailure(v.requestData, req, validTicketNumber)
  }

  /** The validation the endpoint performs for a request in a given context. */
  function ValidateRequest(ctx: Context, req: Request, validTicketNumber: string -> bool): Outcome
  {
    Validate(ValidationsFor(ctx), ctx, req, validTicketNumber)
  }

  predicate GuestMode(ctx: Context)
  {
    !ctx.userSystemEnabled && !ctx.staffLogged
  }

  predicate ContentInBounds(req: Request)
  {
    MinContent <= |req.content| <= MaxContent
  }

  /** Both regimes reject content outside 20..5000 characters with INVALID_CONTENT. */
  lemma ContentOutOfBounds(ctx: Context, req: Request, validTicketNumber: string -> bool)
    requires PermissionGranted(ValidationsFor(ctx).permission, ctx)
    requires !ContentInBounds(req)
    ensures ValidateRequest(ctx, req, validTicketNumber) == Fail(InvalidContent)
  {
  }

  /** The guest regime lets a request through exactly when it matches the session's ticket and token. */
  lemma GuestRegime(ctx: Context, req: Request, validTicketNumber: string -> bool)
    requires GuestMode(ctx)
    ensures ValidateRequest(ctx, req, validTicketNumber).Pass? <==>
              ContentInBounds(req) && req.ticketNumber == ctx.sessionTicketNumber && req.csrfToken == ctx.sessionToken
    ensures ContentInBounds(req) && req.ticketNumber != ctx.sessionTicketNumber ==>
              ValidateRequest(ctx, req, validTicketNumber) == Fail(InvalidTicket)
    ensures ContentInBounds(req) && req.ticketNumber == ctx.sessionTicketNumber && req.csrfToken != ctx.sessionToken ==>
              ValidateRequest(ctx, req, validTicketNumber) == Fail(InvalidToken)
  {
    var rules := ValidationsFor(ctx).requestData;
    assert Holds(rules[0], req, validTicketNumber) <==> ContentInBounds(req);
    if ContentInBounds(req) && req.ticketNumber != ctx.sessionTicketNumber {
      FirstFailureIsFirst(rules, req, validTicketNumber, 1);
    }
    if ContentInBounds(req) && req.ticketNumber == ctx.sessionTicketNumber && req.csrfToken != ctx.sessionToken {
      FirstFailureIsFirst(rules, req, validTicketNumber, 2);
    }
  }

  /**
   * The logged-in regime asks for a logged-in session, content within bounds
   * and a valid ticket number, and does not look at the token.
   */
  lemma UserRegime(ctx: Context, req: Request, validTicketNumber: string -> bool)
    requires !GuestMode(ctx)
    ensures ValidateRequest(ctx, req, validTicketNumber).Pass? <==>
              (ctx.loggedIn || ctx.staffLogged) && ContentInBounds(req) && validTicketNumber(req.ticketNumber)
    ensures !ctx.loggedIn && !ctx.staffLogged ==> ValidateRequest(ctx, req, validTicketNumber) == Fail(NoPermission)
    ensures (ctx.loggedIn || ctx.staffLogged) && ContentInBounds(req) && !validTicketNumber(req.ticketNumber) ==>
              ValidateRequest(ctx, req, validTicketNumber) == Fail(InvalidTicket)
  {
    var rules := ValidationsFor(ctx).requestData;
    assert Holds(rules[0], req, validTicketNumber) <==> ContentInBounds(req);
    if (ctx.loggedIn || ctx.staffLogged) && ContentInBounds(req) && !validTicketNumber(req.ticketNumber) {
      FirstFailureIsFirst(rules, req, validTicketNumber, 1);
    }
  }

  /** Whatever the regime, a request that passes validation has content of 20..5000 characters. */
  lemma AcceptedContentInBounds(ctx: Context, req: Request, validTicketNumber: string -> bool)
    ensures ValidateRequest(ctx, req, validTicketNumber).Pass? ==> ContentInBounds(req)
  {
  }
}
