/** The request handlers of the submission review workflow: the `nitpick`,
    `approve` and `toggle_opinions` helpers, the `respond` and opinion routes
    that call them, the argue route and the nit/comment edit routes.

    Every handler is a pure function of the world, the capability answers
    for the request, the acting user and the request parameters. It returns
    a `Reply`: the caller-visible outcome and the plan of steps that
    `World.Commit` carries out. A rejected request has an empty plan.
    Whatever the handler cannot decide itself (whether the save of a nitpick
    recorded it, whether an email was delivered) arrives as a `Luck`. */
module Submissions {
  import opened Capabilities
  import opened World
  import opened RubyText

  /** Where a redirect goes: the dashboard, a submission's page, the login page. */
  datatype Path = Root | SubmissionPage(id: SubmissionId) | LoginPage

  /** The flash messages the handlers set, by meaning. */
  datatype Note = Nominated | NoPermission | NoNitpickAccess | OpinionsRequested | OpinionsDisabled | LoggedOut | NeedToKnow

  datatype Flash = NoFlash | Success(note: Note) | Error(note: Note) | Notice(note: Note)

  /** What the caller sees: a 403 halt with its message, a redirect, a
      completed request (a helper that returned, or a rendered page), or the
      hard failure of a lookup that found nothing. */
  datatype Outcome =
    | Halt403(message: string)
    | Redirect(to: Path, flash: Flash)
    | Ok(flash: Flash)
    | NotFound

  datatype Reply = Reply(outcome: Outcome, steps: seq<Step>)

  /** `saved` is what `nitpick.nitpicked?` answers after the save;
      `mailDelivered` is false when shipping the email raised. */
  datatype Luck = Luck(saved: bool, mailDelivered: bool)

  /** The two opinion routes: `enable_opinions!` or `disable_opinions!`. */
  datatype OpinionState = Enable | Disable

  const NotLoggedInToNitpick: string :=
    "You're not logged in right now. Go back, copy the text, log in, and try again. Sorry about that."
  const NoNitpickPermission: string := "You do not have permission to nitpick that exercise."
  const NotLoggedInToApprove: string := "You're not logged in right now, so I can't let you do that. Sorry."
  const NoApprovePermission: string := "You do not have permission to approve that exercise."

  /** The `nitpick` helper. The submission is looked up before anything
      else, so a missing one fails even for a guest. A guest is halted
      before the permission check. A permitted nitpick is saved; only if the
      save recorded it is everyone notified and, unless the nitpicker is the
      submission's own user, the owner emailed. A failed email is swallowed. */
  function SubmitNitpick(w: State, caps: Caps, actor: UserId, sid: SubmissionId,
                         comment: string, approvable: bool, luck: Luck): (r: Reply)
    ensures sid !in w.submissions ==> r == Reply(NotFound, [])
    ensures sid in w.submissions && IsGuest(caps, actor) ==>
      r == Reply(Halt403(NotLoggedInToNitpick), [])
    ensures sid in w.submissions && !IsGuest(caps, actor) &&
            !NitpickAllowed(w, caps, Nitpick(sid, actor, comment, approvable)) ==>
      r == Reply(Halt403(NoNitpickPermission), [])
    ensures r.outcome.Ok? <==> NitpickAllowed(w, caps, Nitpick(sid, actor, comment, approvable))
    ensures r.outcome.Ok? ==>
      Commit(w, r.steps) == w.(nitpicks := w.nitpicks + (if luck.saved then [Nitpick(sid, actor, comment, approvable)] else []),
                               effects := w.effects + Effects(r.steps))
    ensures r.outcome.Ok? ==> r.outcome.flash == (if luck.saved && approvable then Success(Nominated) else NoFlash)
    ensures !(r.outcome.Ok? && luck.saved) ==> r.steps == []
    ensures r.outcome.Ok? && luck.saved ==>
      0 < |r.steps| && r.steps[0] == StoreNitpick(Nitpick(sid, actor, comment, approvable))
    ensures r.outcome.Ok? && luck.saved ==>
      Effects(r.steps) == [Notification(Everyone, sid, actor, NitpickKind)] +
        (if actor != w.submissions[sid].owner && luck.mailDelivered then [NitpickEmail(actor, sid)] else [])
  {
    if sid !in w.submissions then Reply(NotFound, [])
    else if IsGuest(caps, actor) then Reply(Halt403(NotLoggedInToNitpick), [])
    else if !(Owns(caps, actor, sid) || MayNitpick(caps, actor, w.submissions[sid].exercise)) then
      Reply(Halt403(NoNitpickPermission), [])
    else if !luck.saved then Reply(Ok(NoFlash), [])
    else Reply(Ok(if approvable then Success(Nominated) else NoFlash),
               RecordNitpick(w, actor, sid, comment, approvable, luck.mailDelivered))
  }

  /** The plan once a nitpick is recorded: store it, notify everyone, and
      email the owner if the nitpicker is someone else and delivery works. */
  function RecordNitpick(w: State, actor: UserId, sid: SubmissionId, comment: string,
                         approvable: bool, mailDelivered: bool): (plan: seq<Step>)
    requires sid in w.submissions
    ensures 0 < |plan| && plan[0] == StoreNitpick(Nitpick(sid, actor, comment, approvable))
    ensures Commit(w, plan) == w.(nitpicks := w.nitpicks + [Nitpick(sid, actor, comment, approvable)],
                                  effects := w.effects + Effects(plan))
    ensures Effects(plan) == [Notification(Everyone, sid, actor, NitpickKind)] +
      (if actor != w.submissions[sid].owner && mailDelivered then [NitpickEmail(actor, sid)] else [])
  {
    var email := if actor != w.submissions[sid].owner && mailDelivered
                 then [Emit(NitpickEmail(actor, sid))] else [];
    var store := StoreNitpick(Nitpick(sid, actor, comment, approvable));
    var tail := [Emit(Notification(Everyone, sid, actor, NitpickKind))] + email;
    CommitCons(w, store, tail);
    CommitEmits(Apply(w, store), tail);
    EffectsConcat([store], tail);
    [store] + tail
  }

  /** The `approve` helper. A guest is halted before the submission is even
      looked up; then only `unlocks?` on the exercise lets the user through
      (owning the submission does not). The `source` notification and the
      email attempt come first and the approval is saved last. */
  function SubmitApproval(w: State, caps: Caps, actor: UserId, sid: SubmissionId,
                          comment: string, luck: Luck): (r: Reply)
    ensures IsGuest(caps, actor) ==> r == Reply(Halt403(NotLoggedInToApprove), [])
    ensures !IsGuest(caps, actor) && sid !in w.submissions ==> r == Reply(NotFound, [])
    ensures !IsGuest(caps, actor) && sid in w.submissions && !Unlocks(caps, actor, w.submissions[sid].exercise) ==>
      r == Reply(Halt403(NoApprovePermission), [])
    ensures r.outcome.Ok? <==>
      !IsGuest(caps, actor) && sid in w.submissions && Unlocks(caps, actor, w.submissions[sid].exercise)
    ensures r.outcome.Ok? <==> ApprovalAllowed(w, caps, Approval(sid, actor, comment))
    ensures r.outcome.Ok? ==>
      && r.outcome.flash == NoFlash
      && 2 <= |r.steps|
      && r.steps[0] == Emit(Notification(Source, sid, actor, ApprovalKind))
      && r.steps[|r.steps| - 1] == StoreApproval(Approval(sid, actor, comment))
      && Commit(w, r.steps) == w.(approvals := w.approvals + [Approval(sid, actor, comment)],
                                  effects := w.effects + Effects(r.steps))
    ensures !r.outcome.Ok? ==> r.steps == []
    ensures r.outcome.Ok? ==>
      Effects(r.steps) == [Notification(Source, sid, actor, ApprovalKind)] +
        (if actor != w.submissions[sid].owner && luck.mailDelivered then [ApprovalEmail(actor, sid)] else [])
  {
    if IsGuest(caps, actor) then Reply(Halt403(NotLoggedInToApprove), [])
    else if sid !in w.submissions then Reply(NotFound, [])
    else if !Unlocks(caps, actor, w.submissions[sid].exercise) then Reply(Halt403(NoApprovePermission), [])
    else
      var email := if actor != w.submissions[sid].owner && luck.mailDelivered
                   then [Emit(ApprovalEmail(actor, sid))] else [];
      var emits := [Emit(Notification(Source, sid, actor, ApprovalKind))] + email;
      var store := StoreApproval(Approval(sid, actor, comment));
      CommitConcat(w, emits, [store]);
      CommitEmits(w, emits);
      CommitCons(Commit(w, emits), store, []);
      EffectsConcat(emits, [store]);
      Reply(Ok(NoFlash), emits + [store])
  }

  /** The `toggle_opinions` helper: only an owner gets through (anyone else
      is sent to the dashboard with an error); the flag is then set or
      cleared and the notice reports the flag as it now stands. */
  function ToggleOpinions(w: State, caps: Caps, actor: UserId, sid: SubmissionId,
                          state: OpinionState): (r: Reply)
    ensures sid !in w.submissions ==> r == Reply(NotFound, [])
    ensures sid in w.submissions && !Owns(caps, actor, sid) ==>
      r == Reply(Redirect(Root, Error(NoPermission)), [])
    ensures sid in w.submissions && Owns(caps, actor, sid) ==>
      && r.outcome.Ok?
      && Commit(w, r.steps) == w.(submissions := w.submissions[sid := w.submissions[sid].(wantsOpinions := state == Enable)])
      && r.outcome.flash ==
           Notice(if Commit(w, r.steps).submissions[sid].wantsOpinions then OpinionsRequested else OpinionsDisabled)
  {
    if sid !in w.submissions then Reply(NotFound, [])
    else if !Owns(caps, actor, sid) then Reply(Redirect(Root, Error(NoPermission)), [])
    else
      var on := state == Enable;
      Reply(Ok(Notice(if on then OpinionsRequested else OpinionsDisabled)), [SetWantsOpinions(sid, on)])
  }

  /** What a route does after its helper returned normally: redirect to
      `to`, keeping the flash the helper set. Halts and failed lookups pass
      through unchanged, and the plan is never touched. */
  function RedirectAfter(r: Reply, to: Path): (r': Reply)
    ensures r'.steps == r.steps
    ensures r.outcome.Ok? ==> r'.outcome == Redirect(to, r.outcome.flash)
    ensures !r.outcome.Ok? ==> r'.outcome == r.outcome
  {
    if r.outcome.Ok? then Reply(Redirect(to, r.outcome.flash), r.steps) else r
  }

  /** POST /submissions/:id/nitpick */
  function NitpickRoute(w: State, caps: Caps, actor: UserId, sid: SubmissionId,
                        comment: string, approvable: bool, luck: Luck): (r: Reply)
    ensures r.steps == SubmitNitpick(w, caps, actor, sid, comment, approvable, luck).steps
    ensures var h := SubmitNitpick(w, caps, actor, sid, comment, approvable, luck).outcome;
      r.outcome == (if h.Ok? then Redirect(Root, h.flash) else h)
    ensures !r.outcome.Ok?
    ensures r.outcome.Redirect? ==> r.outcome.to == Root
  {
    RedirectAfter(SubmitNitpick(w, caps, actor, sid, comment, approvable, luck), Root)
  }

  /** POST /submissions/:id/approve */
  function ApproveRoute(w: State, caps: Caps, actor: UserId, sid: SubmissionId,
                        comment: string, luck: Luck): (r: Reply)
    ensures r.steps == SubmitApproval(w, caps, actor, sid, comment, luck).steps
    ensures var h := SubmitApproval(w, caps, actor, sid, comment, luck).outcome;
      r.outcome == (if h.Ok? then Redirect(Root, h.flash) else h)
    ensures !r.outcome.Ok?
    ensures r.outcome.Redirect? ==> r.outcome.to == Root
  {
    RedirectAfter(SubmitApproval(w, caps, actor, sid, comment, luck), Root)
  }

  /** POST /submissions/:id/respond: the approve helper when the `approve`
      parameter is present, the nitpick helper otherwise; then back to the
      submission's page. */
  function Respond(w: State, caps: Caps, actor: UserId, sid: SubmissionId, approve: bool,
                   comment: string, approvable: bool, luck: Luck): (r: Reply)
    ensures approve ==> r.steps == SubmitApproval(w, caps, actor, sid, comment, luck).steps
    ensures !approve ==> r.steps == SubmitNitpick(w, caps, actor, sid, comment, approvable, luck).steps
    ensures var h := if approve then SubmitApproval(w, caps, actor, sid, comment, luck).outcome
                     else SubmitNitpick(w, caps, actor, sid, comment, approvable, luck).outcome;
      r.outcome == (if h.Ok? then Redirect(SubmissionPage(sid), h.flash) else h)
    ensures r.outcome.Redirect? ==> r.outcome.to == SubmissionPage(sid)
    ensures !r.outcome.Ok?
  {
    var helper := if approve then SubmitApproval(w, caps, actor, sid, comment, luck)
                  else SubmitNitpick(w, caps, actor, sid, comment, approvable, luck);
    RedirectAfter(helper, SubmissionPage(sid))
  }

  /** POST /submissions/:id/opinions/enable and .../disable. `please_login`
      is treated as a guard that sends a guest to the login page. */
  function OpinionsRoute(w: State, caps: Caps, actor: UserId, sid: SubmissionId,
                         state: OpinionState): (r: Reply)
    ensures IsGuest(caps, actor) ==> r == Reply(Redirect(LoginPage, NoFlash), [])
    ensures !IsGuest(caps, actor) ==> r.steps == ToggleOpinions(w, caps, actor, sid, state).steps
    ensures !IsGuest(caps, actor) ==>
      var h := ToggleOpinions(w, caps, actor, sid, state).outcome;
      r.outcome == (if h.Ok? then Redirect(SubmissionPage(sid), h.flash) else h)
    ensures !IsGuest(caps, actor) && sid in w.submissions ==> r.outcome.Redirect?
    ensures !r.outcome.Ok? && !r.outcome.Halt403?
  {
    if IsGuest(caps, actor) then Reply(Redirect(LoginPage, NoFlash), [])
    else RedirectAfter(ToggleOpinions(w, caps, actor, sid, state), SubmissionPage(sid))
  }

  /** POST /submissions/:id/nits/:nit_id/argue. A guest gets an error flash
      and is stopped by `please_login`. An empty comment only looks the
      submission up; otherwise one argument is stored and everyone on the
      thread is notified. */
  function Argue(w: State, caps: Caps, actor: UserId, sid: SubmissionId, nit: nat,
                 comment: string): (r: Reply)
    ensures IsGuest(caps, actor) ==> r == Reply(Redirect(LoginPage, Error(LoggedOut)), [])
    ensures !IsGuest(caps, actor) && sid !in w.submissions ==> r == Reply(NotFound, [])
    ensures !IsGuest(caps, actor) && sid in w.submissions && comment == [] ==>
      r == Reply(Redirect(SubmissionPage(sid), NoFlash), [])
    ensures !IsGuest(caps, actor) && comment != [] && sid in w.submissions && !NitOf(w, sid, nit) ==>
      r == Reply(NotFound, [])
    ensures !IsGuest(caps, actor) && comment != [] && NitOf(w, sid, nit) ==>
      && r.outcome == Redirect(SubmissionPage(sid), NoFlash)
      && 0 < |r.steps| && r.steps[0] == StoreComment(Comment(sid, nit, actor, comment))
      && Commit(w, r.steps) == w.(comments := w.comments + [Comment(sid, nit, actor, comment)],
                                  effects := w.effects + [Notification(Everyone, sid, actor, CommentKind)])
  {
    if IsGuest(caps, actor) then Reply(Redirect(LoginPage, Error(LoggedOut)), [])
    else if sid !in w.submissions then Reply(NotFound, [])
    else if comment == [] then Reply(Redirect(SubmissionPage(sid), NoFlash), [])
    else if !NitOf(w, sid, nit) then Reply(NotFound, [])
    else
      var store := StoreComment(Comment(sid, nit, actor, comment));
      var tail := [Emit(Notification(Everyone, sid, actor, CommentKind))];
      CommitCons(w, store, tail);
      CommitEmits(Apply(w, store), tail);
      Reply(Redirect(SubmissionPage(sid), NoFlash), [store] + tail)
  }

  /** GET /submissions/:submission_id/nits/:nit_id/edit: only the nit's
      author sees the form; anyone else is sent back to the submission. */
  function EditNitView(w: State, actor: UserId, sid: SubmissionId, nit: nat): (r: Outcome)
    ensures !NitOf(w, sid, nit) ==> r == NotFound
    ensures NitOf(w, sid, nit) ==>
      (r == Ok(NoFlash) <==> actor == w.nitpicks[nit].nitpicker) &&
      (r == Ok(NoFlash) || r == Redirect(SubmissionPage(sid), NoFlash))
  {
    if !NitOf(w, sid, nit) then NotFound
    else if actor != w.nitpicks[nit].nitpicker then Redirect(SubmissionPage(sid), NoFlash)
    else Ok(NoFlash)
  }

  /** POST /submissions/:id/nits/:nit_id/edit: the nit's comment becomes the
      given text. There is no authorship check here; the acting user plays
      no part. */
  function EditNit(w: State, actor: UserId, sid: SubmissionId, nit: nat, text: string): (r: Reply)
    ensures !NitOf(w, sid, nit) ==> r == Reply(NotFound, [])
    ensures NitOf(w, sid, nit) ==>
      && r.outcome == Redirect(SubmissionPage(sid), NoFlash)
      && Commit(w, r.steps) == w.(nitpicks := w.nitpicks[nit := w.nitpicks[nit].(comment := text)])
  {
    if !NitOf(w, sid, nit) then Reply(NotFound, [])
    else Reply(Redirect(SubmissionPage(sid), NoFlash), [SetNitText(nit, text)])
  }

  /** GET /submissions/:submission_id/nits/:nit_id/comments/:comment_id/edit:
      only the comment's author sees the form. */
  function EditCommentView(w: State, actor: UserId, sid: SubmissionId, nit: nat, cid: nat): (r: Outcome)
    ensures !CommentOf(w, sid, nit, cid) ==> r == NotFound
    ensures CommentOf(w, sid, nit, cid) ==>
      (r == Ok(NoFlash) <==> actor == w.comments[cid].author) &&
      (r == Ok(NoFlash) || r == Redirect(SubmissionPage(sid), NoFlash))
  {
    if !CommentOf(w, sid, nit, cid) then NotFound
    else if actor != w.comments[cid].author then Redirect(SubmissionPage(sid), NoFlash)
    else Ok(NoFlash)
  }

  /** POST .../comments/:comment_id/edit: the body is stripped first; a
      body that strips to nothing is dropped without even looking the
      comment up. Otherwise the comment's body becomes the stripped text.
      There is no authorship check here either. */
  function EditComment(w: State, actor: UserId, sid: SubmissionId, nit: nat, cid: nat,
                       body: string): (r: Reply)
    ensures AllBlank(body) ==> r == Reply(Redirect(SubmissionPage(sid), NoFlash), [])
    ensures !AllBlank(body) && !CommentOf(w, sid, nit, cid) ==> r == Reply(NotFound, [])
    ensures !AllBlank(body) && CommentOf(w, sid, nit, cid) ==>
      && r.outcome == Redirect(SubmissionPage(sid), NoFlash)
      && Commit(w, r.steps) == w.(comments := w.comments[cid := w.comments[cid].(body := Strip(body))])
      && Commit(w, r.steps).comments[cid].body != []
  {
    var edited := Strip(body);
    if edited == [] then Reply(Redirect(SubmissionPage(sid), NoFlash), [])
    else if !CommentOf(w, sid, nit, cid) then Reply(NotFound, [])
    else Reply(Redirect(SubmissionPage(sid), NoFlash), ReplaceBody(w, cid, edited))
  }

  /** The plan that replaces the body of an existing comment. */
  function ReplaceBody(w: State, cid: nat, body: string): (plan: seq<Step>)
    requires cid < |w.comments|
    ensures Commit(w, plan) == w.(comments := w.comments[cid := w.comments[cid].(body := body)])
  {
    CommitCons(w, SetCommentBody(cid, body), []);
    [SetCommentBody(cid, body)]
  }

  /** GET /submissions/:id, up to rendering: guests are sent to log in, a
      missing submission fails lookup, and anyone who neither owns the
      submission nor may nitpick its exercise is sent to the dashboard with
      an error. */
  function SubmissionPageGuard(w: State, caps: Caps, actor: UserId, sid: SubmissionId): (r: Outcome)
    ensures IsGuest(caps, actor) ==> r == Redirect(LoginPage, NoFlash)
    ensures !IsGuest(caps, actor) && sid !in w.submissions ==> r == NotFound
    ensures r.Ok? <==>
      && !IsGuest(caps, actor) && sid in w.submissions
      && (Owns(caps, actor, sid) || MayNitpick(caps, actor, w.submissions[sid].exercise))
    ensures !IsGuest(caps, actor) && sid in w.submissions && !r.Ok? ==> r == Redirect(Root, Error(NoNitpickAccess))
  {
    if IsGuest(caps, actor) then Redirect(LoginPage, NoFlash)
    else if sid !in w.submissions then NotFound
    else if !(Owns(caps, actor, sid) || MayNitpick(caps, actor, w.submissions[sid].exercise)) then
      Redirect(Root, Error(NoNitpickAccess))
    else Ok(NoFlash)
  }

  /** GET /submissions/:language/:assignment, up to the listing query:
      guests are sent to log in and anyone but a locksmith is turned away. */
  function ListingGuard(caps: Caps, actor: UserId): (r: Outcome)
    ensures r.Ok? <==> !IsGuest(caps, actor) && Locksmith(caps, actor)
    ensures IsGuest(caps, actor) ==> r == Redirect(LoginPage, NoFlash)
    ensures !IsGuest(caps, actor) && !Locksmith(caps, actor) ==> r == Redirect(Root, Notice(NeedToKnow))
  {
    if IsGuest(caps, actor) then Redirect(LoginPage, NoFlash)
    else if !Locksmith(caps, actor) then Redirect(Root, Notice(NeedToKnow))
    else Ok(NoFlash)
  }

  /** A state-changing request, as the POST routes receive it. */
  datatype Request =
    | PostNitpick(sid: SubmissionId, comment: string, approvable: bool)
    | PostApprove(sid: SubmissionId, comment: string)
    | PostRespond(sid: SubmissionId, approve: bool, comment: string, approvable: bool)
    | PostOpinions(sid: SubmissionId, state: OpinionState)
    | PostArgue(sid: SubmissionId, nit: nat, comment: string)
    | PostEditNit(sid: SubmissionId, nit: nat, text: string)
    | PostEditComment(sid: SubmissionId, nit: nat, cid: nat, body: string)

  /** Routes a request to its handler. */
  function Serve(w: State, caps: Caps, actor: UserId, req: Request, luck: Luck): Reply {
    match req
    case PostNitpick(sid, comment, approvable) => NitpickRoute(w, caps, actor, sid, comment, approvable, luck)
    case PostApprove(sid, comment) => ApproveRoute(w, caps, actor, sid, comment, luck)
    case PostRespond(sid, approve, comment, approvable) =>
      Respond(w, caps, actor, sid, approve, comment, approvable, luck)
    case PostOpinions(sid, state) => OpinionsRoute(w, caps, actor, sid, state)
    case PostArgue(sid, nit, comment) => Argue(w, caps, actor, sid, nit, comment)
    case PostEditNit(sid, nit, text) => EditNit(w, actor, sid, nit, text)
    case PostEditComment(sid, nit, cid, body) => EditComment(w, actor, sid, nit, cid, body)
  }
}
