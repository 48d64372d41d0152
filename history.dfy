/**
 * Several comment requests on one ticket, one after the other: each request
 * sees the ticket as the previous one left it.
 */
module CommentHistory {
  import opened CommentTypes
  import opened CommentValidation
  import opened CommentWorkflow

  /** One request with the context it arrives in and the upload it carries. */
  datatype Submission = Submission(ctx: Context, req: Request, upload: Upload)

  /** The ticket after the submissions, in order. */
  function SubmitAll(t: TicketView, subs: seq<Submission>, env: Collaborators): TicketView
    decreases |subs|
  {
    if subs == [] then t
    else SubmitAll(t.(state := Submit(subs[0].ctx, subs[0].req, t, subs[0].upload, env).after), subs[1..], env)
  }

  /** How many of the submissions succeed. */
  function Accepted(t: TicketView, subs: seq<Submission>, env: Collaborators): nat
    decreases |subs|
  {
    if subs == [] then 0
    else
      var r := Submit(subs[0].ctx, subs[0].req, t, subs[0].upload, env);
      (if r.status.Success? then 1 else 0) + Accepted(t.(state := r.after), subs[1..], env)
  }

  /**
   * Events are only ever appended: after any run of submissions the old
   * events are a prefix, one new event per successful submission follows,
   * and the ticket's identity, author and owner stay.
   */
  lemma {:induction false} AppendOnly(t: TicketView, subs: seq<Submission>, env: Collaborators)
    ensures var t' := SubmitAll(t, subs, env);
            && |t'.state.events| == |t.state.events| + Accepted(t, subs, env)
            && t'.state.events[..|t.state.events|] == t.state.events
            && t'.(state := t.state) == t
    decreases |subs|
  {
    if subs != [] {
      var r := Submit(subs[0].ctx, subs[0].req, t, subs[0].upload, env);
      var t1 := t.(state := r.after);
      if r.status.Success? {
        CommentAppended(subs[0].ctx, subs[0].req, t, subs[0].upload, env);
      }
      AppendOnly(t1, subs[1..], env);
      var t' := SubmitAll(t1, subs[1..], env);
      assert t'.state.events[..|t.state.events|] == t'.state.events[..|t1.state.events|][..|t.state.events|];
    }
  }

  /** Two successful comments in a row add their two events in submission order. */
  lemma TwoCommentsInOrder(t: TicketView, s1: Submission, s2: Submission, env: Collaborators)
    requires Submit(s1.ctx, s1.req, t, s1.upload, env).status.Success?
    requires Submit(s2.ctx, s2.req, t.(state := Submit(s1.ctx, s1.req, t, s1.upload, env).after), s2.upload, env).status.Success?
    ensures Submit(s2.ctx, s2.req, t.(state := Submit(s1.ctx, s1.req, t, s1.upload, env).after), s2.upload, env).after.events ==
              t.state.events
              + [NewComment(s1.ctx, s1.req, s1.upload.imagePaths, s1.upload.fileName, env)]
              + [NewComment(s2.ctx, s2.req, s2.upload.imagePaths, s2.upload.fileName, env)]
  {
  }

  /** Requests by non-staff actors never clear the staff's unread flag. */
  lemma {:induction false} NonStaffKeepsUnreadStaff(t: TicketView, subs: seq<Submission>, env: Collaborators)
    requires forall i :: 0 <= i < |subs| ==> !subs[i].ctx.staffLogged
    requires t.state.unreadStaff
    ensures SubmitAll(t, subs, env).state.unreadStaff
    decreases |subs|
  {
    if subs != [] {
      var r := Submit(subs[0].ctx, subs[0].req, t, subs[0].upload, env);
      if r.status.Success? {
        NonStaffCommentFlags(subs[0].ctx, subs[0].req, t, subs[0].upload, env);
      }
      assert forall i :: 0 <= i < |subs| - 1 ==> subs[1..][i] == subs[i + 1];
      NonStaffKeepsUnreadStaff(t.(state := r.after), subs[1..], env);
    }
  }

  /** Requests by non-staff actors never change the author's unread flag. */
  lemma {:induction false} NonStaffKeepsUnread(t: TicketView, subs: seq<Submission>, env: Collaborators)
    requires forall i :: 0 <= i < |subs| ==> !subs[i].ctx.staffLogged
    ensures SubmitAll(t, subs, env).state.unread == t.state.unread
    decreases |subs|
  {
    if subs != [] {
      var r := Submit(subs[0].ctx, subs[0].req, t, subs[0].upload, env);
      if r.status.Success? {
        NonStaffCommentFlags(subs[0].ctx, subs[0].req, t, subs[0].upload, env);
      }
      assert forall i :: 0 <= i < |subs| - 1 ==> subs[1..][i] == subs[i + 1];
      NonStaffKeepsUnread(t.(state := r.after), subs[1..], env);
    }
  }

  /**
   * Guests whose sessions belong to other tickets cannot change a ticket, even
   * when their requests name it: the whole run leaves it as it was.
   */
  lemma {:induction false} OtherSessionsChangeNothing(t: TicketView, subs: seq<Submission>, env: Collaborators)
    requires forall i :: 0 <= i < |subs| ==>
               && GuestMode(subs[i].ctx)
               && subs[i].req.ticketNumber == t.ticketNumber
               && subs[i].ctx.sessionTicketNumber != t.ticketNumber
    ensures SubmitAll(t, subs, env) == t
    decreases |subs|
  {
    if subs != [] {
      GuestSessionBinding(subs[0].ctx, subs[0].req, t, subs[0].upload, env);
      assert t.(state := Submit(subs[0].ctx, subs[0].req, t, subs[0].upload, env).after) == t;
      assert forall i :: 0 <= i < |subs| - 1 ==> subs[1..][i] == subs[i + 1];
      OtherSessionsChangeNothing(t, subs[1..], env);
    }
  }
}
