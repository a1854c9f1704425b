/** Properties that relate several handler calls, or a handler call and the
    world invariants of `World`: the email channel cannot disturb the
    workflow, `respond` runs exactly one helper, every request keeps the
    world valid, and the edit routes behave alike for every user. */
module Properties {
  import opened Capabilities
  import opened World
  import opened RubyText
  import opened Submissions

  /** A nitpick whose email failed leaves the same outcome, the same
      records and the same notification as one whose email went out; the
      only difference is the email itself. */
  lemma NitpickEmailIsolated(w: State, caps: Caps, actor: UserId, sid: SubmissionId,
                             comment: string, approvable: bool, saved: bool)
    ensures
      var sent := SubmitNitpick(w, caps, actor, sid, comment, approvable, Luck(saved, true));
      var failed := SubmitNitpick(w, caps, actor, sid, comment, approvable, Luck(saved, false));
      && failed.outcome == sent.outcome
      && Commit(w, failed.steps).(effects := []) == Commit(w, sent.steps).(effects := [])
      && Effects(sent.steps) == Effects(failed.steps) +
           (if sent.outcome.Ok? && saved && actor != w.submissions[sid].owner then [NitpickEmail(actor, sid)] else [])
  {
    var sent := SubmitNitpick(w, caps, actor, sid, comment, approvable, Luck(saved, true));
    var failed := SubmitNitpick(w, caps, actor, sid, comment, approvable, Luck(saved, false));
    if !(sent.outcome.Ok? && saved) {
      assert sent.steps == [] && failed.steps == [];
    }
  }

  /** Likewise for an approval: a failed email still stores exactly the one
      approval and logs the `source` notification. */
  lemma ApprovalEmailIsolated(w: State, caps: Caps, actor: UserId, sid: SubmissionId, comment: string)
    ensures
      var sent := SubmitApproval(w, caps, actor, sid, comment, Luck(true, true));
      var failed := SubmitApproval(w, caps, actor, sid, comment, Luck(true, false));
      && failed.outcome == sent.outcome
      && Commit(w, failed.steps).(effects := []) == Commit(w, sent.steps).(effects := [])
      && Effects(sent.steps) == Effects(failed.steps) +
           (if sent.outcome.Ok? && actor != w.submissions[sid].owner then [ApprovalEmail(actor, sid)] else [])
  {
    var sent := SubmitApproval(w, caps, actor, sid, comment, Luck(true, true));
    var failed := SubmitApproval(w, caps, actor, sid, comment, Luck(true, false));
    if !sent.outcome.Ok? {
      assert sent.steps == [] && failed.steps == [];
    }
  }

  /** The submission page lets in exactly the users whose nitpick on it the
      nitpick helper would accept. */
  lemma PageAdmitsExactlyNitpickers(w: State, caps: Caps, actor: UserId, sid: SubmissionId,
                                    comment: string, approvable: bool, luck: Luck)
    ensures SubmissionPageGuard(w, caps, actor, sid).Ok? <==>
      SubmitNitpick(w, caps, actor, sid, comment, approvable, luck).outcome.Ok?
  {
  }

  /** Owning a submission neither grants nor blocks its approval: the
      approve helper answers the same whatever the ownership relation is. */
  lemma ApprovalIgnoresOwnership(w: State, caps: Caps, ownership: set<(UserId, SubmissionId)>,
                                 actor: UserId, sid: SubmissionId, comment: string, luck: Luck)
    ensures SubmitApproval(w, caps, actor, sid, comment, luck) ==
            SubmitApproval(w, caps.(ownership := ownership), actor, sid, comment, luck)
  {
  }

  /** `respond` never runs both helpers: with `approve` it stores no
      nitpick, without it no approval. */
  lemma RespondRunsOneHelper(w: State, caps: Caps, actor: UserId, sid: SubmissionId, approve: bool,
                             comment: string, approvable: bool, luck: Luck)
    ensures
      var r := Respond(w, caps, actor, sid, approve, comment, approvable, luck);
      && |Commit(w, r.steps).nitpicks| == |w.nitpicks| + (if !approve && r.outcome.Redirect? && luck.saved then 1 else 0)
      && |Commit(w, r.steps).approvals| == |w.approvals| + (if approve && r.outcome.Redirect? then 1 else 0)
  {
    var r := Respond(w, caps, actor, sid, approve, comment, approvable, luck);
    if approve {
      var h := SubmitApproval(w, caps, actor, sid, comment, luck);
      if !h.outcome.Ok? { assert h.steps == []; }
    } else {
      var h := SubmitNitpick(w, caps, actor, sid, comment, approvable, luck);
      if !h.outcome.Ok? { assert h.steps == []; }
    }
  }

  /** The owner turns opinions on and then off again: the flag ends up
      false, the notices follow the flag, and nothing else changes. */
  lemma OpinionsOnThenOff(w: State, caps: Caps, owner: UserId, sid: SubmissionId)
    requires sid in w.submissions && Owns(caps, owner, sid)
    ensures
      var on := ToggleOpinions(w, caps, owner, sid, Enable);
      var w1 := Commit(w, on.steps);
      var off := ToggleOpinions(w1, caps, owner, sid, Disable);
      var w2 := Commit(w1, off.steps);
      && on.outcome == Ok(Notice(OpinionsRequested))
      && off.outcome == Ok(Notice(OpinionsDisabled))
      && w2 == w.(submissions := w.submissions[sid := w.submissions[sid].(wantsOpinions := false)])
  {
  }

  /** Changing the flag to where it already stands changes nothing. */
  lemma ToggleIdempotent(w: State, caps: Caps, actor: UserId, sid: SubmissionId, state: OpinionState)
    ensures
      var w1 := Commit(w, ToggleOpinions(w, caps, actor, sid, state).steps);
      Commit(w1, ToggleOpinions(w1, caps, actor, sid, state).steps) == w1
  {
    var w1 := Commit(w, ToggleOpinions(w, caps, actor, sid, state).steps);
    if sid in w.submissions && Owns(caps, actor, sid) {
      assert w1.submissions[sid := w1.submissions[sid].(wantsOpinions := state == Enable)] == w1.submissions;
    }
  }

  /** The nit edit route answers the same for every user: the author and
      anyone else get the same outcome and the same change. */
  lemma EditNitIgnoresActor(w: State, a: UserId, b: UserId, sid: SubmissionId, nit: nat, text: string)
    ensures EditNit(w, a, sid, nit, text) == EditNit(w, b, sid, nit, text)
  {
  }

  /** The comment edit route answers the same for every user too. */
  lemma EditCommentIgnoresActor(w: State, a: UserId, b: UserId, sid: SubmissionId, nit: nat, cid: nat, body: string)
    ensures EditComment(w, a, sid, nit, cid, body) == EditComment(w, b, sid, nit, cid, body)
  {
  }

  /** A user who is not the nit's author is turned away by the edit view
      yet still changes the nit through the POST route. */
  lemma NonAuthorChangesNit()
    ensures
      var w := State(map[0 := Submission(1, Exercise("ruby", "bob"), false)],
                     [Nitpick(0, 2, "indent", false)], [], [], []);
      && EditNitView(w, 3, 0, 0) == Redirect(SubmissionPage(0), NoFlash)
      && Commit(w, EditNit(w, 3, 0, 0, "spam").steps).nitpicks[0].comment == "spam"
  {
    var w := State(map[0 := Submission(1, Exercise("ruby", "bob"), false)],
                   [Nitpick(0, 2, "indent", false)], [], [], []);
    assert NitOf(w, 0, 0);
  }

  /** On every world, a user who is not a nit's author is turned away by
      the edit view, yet the POST route still sets the nit's text. */
  lemma NonAuthorEditsNit(w: State, actor: UserId, sid: SubmissionId, nit: nat, text: string)
    requires NitOf(w, sid, nit) && actor != w.nitpicks[nit].nitpicker
    ensures EditNitView(w, actor, sid, nit) == Redirect(SubmissionPage(sid), NoFlash)
    ensures Commit(w, EditNit(w, actor, sid, nit, text).steps).nitpicks[nit].comment == text
  {
  }

  /** Likewise for arguments: the edit view turns a non-author away, yet a
      body that is not all blanks replaces the comment's body, stripped. */
  lemma NonAuthorEditsComment(w: State, actor: UserId, sid: SubmissionId, nit: nat, cid: nat, body: string)
    requires CommentOf(w, sid, nit, cid) && actor != w.comments[cid].author && !AllBlank(body)
    ensures EditCommentView(w, actor, sid, nit, cid) == Redirect(SubmissionPage(sid), NoFlash)
    ensures Commit(w, EditComment(w, actor, sid, nit, cid, body).steps).comments[cid].body == Strip(body)
  {
  }

  /** Sending the same nit edit twice has the effect of sending it once. */
  lemma EditNitIdempotent(w: State, actor: UserId, sid: SubmissionId, nit: nat, text: string)
    ensures
      var w1 := Commit(w, EditNit(w, actor, sid, nit, text).steps);
      Commit(w1, EditNit(w1, actor, sid, nit, text).steps) == w1
  {
    var w1 := Commit(w, EditNit(w, actor, sid, nit, text).steps);
    if NitOf(w, sid, nit) {
      assert NitOf(w1, sid, nit);
      assert w1.nitpicks[nit := w1.nitpicks[nit].(comment := text)] == w1.nitpicks;
    }
  }

  /** Sending the same comment edit twice has the effect of sending it once. */
  lemma EditCommentIdempotent(w: State, actor: UserId, sid: SubmissionId, nit: nat, cid: nat, body: string)
    ensures
      var w1 := Commit(w, EditComment(w, actor, sid, nit, cid, body).steps);
      Commit(w1, EditComment(w1, actor, sid, nit, cid, body).steps) == w1
  {
    var w1 := Commit(w, EditComment(w, actor, sid, nit, cid, body).steps);
    if !AllBlank(body) && CommentOf(w, sid, nit, cid) {
      assert CommentOf(w1, sid, nit, cid);
      assert w1.comments[cid := w1.comments[cid].(body := Strip(body))] == w1.comments;
    }
  }

  /** A reviewer's nitpick followed by an approver's approval, both through
      `respond`, leaves exactly one new approval and the nitpick (if its save
      recorded it). */
  lemma NitpickThenApprove(w: State, caps: Caps, reviewer: UserId, approver: UserId, sid: SubmissionId,
                           nitText: string, approvalText: string, luck1: Luck, luck2: Luck)
    requires sid in w.submissions
    requires !IsGuest(caps, reviewer) && MayNitpick(caps, reviewer, w.submissions[sid].exercise)
    requires !IsGuest(caps, approver) && Unlocks(caps, approver, w.submissions[sid].exercise)
    ensures
      var w1 := Commit(w, Respond(w, caps, reviewer, sid, false, nitText, true, luck1).steps);
      var w2 := Commit(w1, Respond(w1, caps, approver, sid, true, approvalText, false, luck2).steps);
      && w2.approvals == w.approvals + [Approval(sid, approver, approvalText)]
      && w2.nitpicks == w.nitpicks + (if luck1.saved then [Nitpick(sid, reviewer, nitText, true)] else [])
      && w2.submissions == w.submissions
  {
  }

  /** Appending authorized records, and effects whose emails were all
      instigated by someone other than the submission's user, keeps a world
      valid. */
  lemma ExtendKeepsValid(w: State, caps: Caps, ns: seq<Nitpick>, aps: seq<Approval>, effs: seq<Effect>)
    requires Valid(w, caps)
    requires forall n :: n in ns ==> NitpickAllowed(w, caps, n)
    requires forall a :: a in aps ==> ApprovalAllowed(w, caps, a)
    requires EmailsByOthers(w, effs)
    ensures Valid(w.(nitpicks := w.nitpicks + ns, approvals := w.approvals + aps, effects := w.effects + effs), caps)
  {
    var w' := w.(nitpicks := w.nitpicks + ns, approvals := w.approvals + aps, effects := w.effects + effs);
    forall i | 0 <= i < |w'.effects| && w'.effects[i].IsEmail()
      ensures w'.effects[i].submission in w'.submissions
      ensures w'.effects[i].instigator != w'.submissions[w'.effects[i].submission].owner
    {
      if |w.effects| <= i {
        assert w'.effects[i] == effs[i - |w.effects|];
      }
    }
    forall i | 0 <= i < |w'.nitpicks|
      ensures NitpickAllowed(w', caps, w'.nitpicks[i])
    {
      if |w.nitpicks| <= i {
        assert w'.nitpicks[i] in ns;
        assert NitpickAllowed(w, caps, w'.nitpicks[i]);
      } else {
        assert NitpickAllowed(w, caps, w.nitpicks[i]);
      }
    }
    forall i | 0 <= i < |w'.approvals|
      ensures ApprovalAllowed(w', caps, w'.approvals[i])
    {
      if |w.approvals| <= i {
        assert w'.approvals[i] in aps;
        assert ApprovalAllowed(w, caps, w'.approvals[i]);
      } else {
        assert ApprovalAllowed(w, caps, w.approvals[i]);
      }
    }
    forall i | 0 <= i < |w'.comments|
      ensures NitOf(w', w'.comments[i].submission, w'.comments[i].nit)
    {
      assert NitOf(w, w.comments[i].submission, w.comments[i].nit);
      assert w'.nitpicks[w.comments[i].nit] == w.nitpicks[w.comments[i].nit];
    }
  }

  /** A nitpick keeps the world valid: only a permitted nitpick is stored,
      and its email (if any) was not instigated by the submission's own user. */
  lemma NitpickKeepsValid(w: State, caps: Caps, actor: UserId, sid: SubmissionId,
                          comment: string, approvable: bool, luck: Luck)
    requires Valid(w, caps)
    ensures Valid(Commit(w, SubmitNitpick(w, caps, actor, sid, comment, approvable, luck).steps), caps)
  {
    var r := SubmitNitpick(w, caps, actor, sid, comment, approvable, luck);
    if !r.outcome.Ok? {
      assert r.steps == [];
    } else {
      var ns := if luck.saved then [Nitpick(sid, actor, comment, approvable)] else [];
      assert w.approvals + [] == w.approvals;
      ExtendKeepsValid(w, caps, ns, [], Effects(r.steps));
    }
  }

  /** An approval keeps the world valid: only a user who unlocks the
      exercise gets one stored, and no email is instigated by the owner. */
  lemma ApprovalKeepsValid(w: State, caps: Caps, actor: UserId, sid: SubmissionId, comment: string, luck: Luck)
    requires Valid(w, caps)
    ensures Valid(Commit(w, SubmitApproval(w, caps, actor, sid, comment, luck).steps), caps)
  {
    var r := SubmitApproval(w, caps, actor, sid, comment, luck);
    if !r.outcome.Ok? {
      assert r.steps == [];
    } else {
      assert w.nitpicks + [] == w.nitpicks;
      ExtendKeepsValid(w, caps, [], [Approval(sid, actor, comment)], Effects(r.steps));
    }
  }

  lemma ToggleKeepsValid(w: State, caps: Caps, actor: UserId, sid: SubmissionId, state: OpinionState)
    requires Valid(w, caps)
    ensures Valid(Commit(w, ToggleOpinions(w, caps, actor, sid, state).steps), caps)
  {
    var r := ToggleOpinions(w, caps, actor, sid, state);
    if !(sid in w.submissions && Owns(caps, actor, sid)) {
      assert r.steps == [];
    }
  }

  lemma ArgueKeepsValid(w: State, caps: Caps, actor: UserId, sid: SubmissionId, nit: nat, comment: string)
    requires Valid(w, caps)
    ensures Valid(Commit(w, Argue(w, caps, actor, sid, nit, comment).steps), caps)
  {
    var r := Argue(w, caps, actor, sid, nit, comment);
    if r.steps == [] {
    } else {
      var w' := Commit(w, r.steps);
      assert w'.effects == w.effects + [Notification(Everyone, sid, actor, CommentKind)];
      assert forall i :: 0 <= i < |w.comments| ==> w'.comments[i] == w.comments[i];
    }
  }

  /** Changing a nitpick's text keeps the world valid. */
  lemma NitTextKeepsValid(w: State, caps: Caps, nit: nat, text: string)
    requires Valid(w, caps) && nit < |w.nitpicks|
    ensures Valid(w.(nitpicks := w.nitpicks[nit := w.nitpicks[nit].(comment := text)]), caps)
  {
    var w' := w.(nitpicks := w.nitpicks[nit := w.nitpicks[nit].(comment := text)]);
    forall i | 0 <= i < |w'.nitpicks|
      ensures NitpickAllowed(w', caps, w'.nitpicks[i])
    {
      assert NitpickAllowed(w, caps, w.nitpicks[i]);
    }
    forall i | 0 <= i < |w'.comments|
      ensures NitOf(w', w'.comments[i].submission, w'.comments[i].nit)
    {
      assert NitOf(w, w.comments[i].submission, w.comments[i].nit);
    }
  }

  /** Changing an argument's body keeps the world valid. */
  lemma CommentBodyKeepsValid(w: State, caps: Caps, cid: nat, body: string)
    requires Valid(w, caps) && cid < |w.comments|
    ensures Valid(w.(comments := w.comments[cid := w.comments[cid].(body := body)]), caps)
  {
    var w' := w.(comments := w.comments[cid := w.comments[cid].(body := body)]);
    forall i | 0 <= i < |w'.comments|
      ensures NitOf(w', w'.comments[i].submission, w'.comments[i].nit)
      ensures !IsGuest(caps, w'.comments[i].author)
    {
      assert NitOf(w, w.comments[i].submission, w.comments[i].nit);
    }
  }

  lemma EditNitKeepsValid(w: State, caps: Caps, actor: UserId, sid: SubmissionId, nit: nat, text: string)
    requires Valid(w, caps)
    ensures Valid(Commit(w, EditNit(w, actor, sid, nit, text).steps), caps)
  {
    if NitOf(w, sid, nit) {
      NitTextKeepsValid(w, caps, nit, text);
    }
  }

  lemma EditCommentKeepsValid(w: State, caps: Caps, actor: UserId, sid: SubmissionId, nit: nat, cid: nat, body: string)
    requires Valid(w, caps)
    ensures Valid(Commit(w, EditComment(w, actor, sid, nit, cid, body).steps), caps)
  {
    if !AllBlank(body) && CommentOf(w, sid, nit, cid) {
      CommentBodyKeepsValid(w, caps, cid, Strip(body));
    }
  }

  /** Every request, whoever sends it and however its save and email turn
      out, keeps the world valid. */
  lemma ServeKeepsValid(w: State, caps: Caps, actor: UserId, req: Request, luck: Luck)
    requires Valid(w, caps)
    ensures Valid(Commit(w, Serve(w, caps, actor, req, luck).steps), caps)
  {
    match req
    case PostNitpick(sid, comment, approvable) => NitpickKeepsValid(w, caps, actor, sid, comment, approvable, luck);
    case PostApprove(sid, comment) => ApprovalKeepsValid(w, caps, actor, sid, comment, luck);
    case PostRespond(sid, approve, comment, approvable) =>
      if approve {
        ApprovalKeepsValid(w, caps, actor, sid, comment, luck);
      } else {
        NitpickKeepsValid(w, caps, actor, sid, comment, approvable, luck);
      }
    case PostOpinions(sid, state) =>
      if !IsGuest(caps, actor) {
        ToggleKeepsValid(w, caps, actor, sid, state);
      }
    case PostArgue(sid, nit, comment) => ArgueKeepsValid(w, caps, actor, sid, nit, comment);
    case PostEditNit(sid, nit, text) => EditNitKeepsValid(w, caps, actor, sid, nit, text);
    case PostEditComment(sid, nit, cid, body) => EditCommentKeepsValid(w, caps, actor, sid, nit, cid, body);
  }

  /** One request of a session: who sent it, what it was, how its save and
      email turned out. */
  datatype Event = Event(actor: UserId, req: Request, luck: Luck)

  /** The world after serving a session of requests in order. */
  function Run(w: State, caps: Caps, events: seq<Event>): State
    decreases |events|
  {
    if events == [] then w
    else
      var e := events[0];
      Run(Commit(w, Serve(w, caps, e.actor, e.req, e.luck).steps), caps, events[1..])
  }

  /** Over any session the world stays valid, the effects log and the
      approvals are only ever appended to, and no submission appears,
      disappears or changes owner or exercise. */
  lemma {:induction false} RunKeepsValid(w: State, caps: Caps, events: seq<Event>)
    requires Valid(w, caps)
    ensures Valid(Run(w, caps, events), caps)
    ensures w.effects <= Run(w, caps, events).effects
    ensures w.approvals <= Run(w, caps, events).approvals
    ensures Run(w, caps, events).submissions.Keys == w.submissions.Keys
    ensures forall s :: s in w.submissions ==>
      Run(w, caps, events).submissions[s].owner == w.submissions[s].owner &&
      Run(w, caps, events).submissions[s].exercise == w.submissions[s].exercise
    decreases |events|
  {
    if events != [] {
      var e := events[0];
      var steps := Serve(w, caps, e.actor, e.req, e.luck).steps;
      var w1 := Commit(w, steps);
      ServeKeepsValid(w, caps, e.actor, e.req, e.luck);
      CommitEffects(w, steps);
      CommitGrows(w, steps);
      CommitKeepsSubmissions(w, steps);
      RunKeepsValid(w1, caps, events[1..]);
    }
  }
}
