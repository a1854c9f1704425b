/** The abstract world the review handlers act on: submissions, the records
    the handlers create (nitpicks, approvals, argument comments) and a log
    of outward effects (notifications and emails).

    A handler does not build the next world itself; it returns a plan, a
    sequence of `Step`s, and `Commit` carries the plan out in order. Keeping
    the plan visible makes the order of side effects and saves observable. */
module World {
  import opened Capabilities

  /** A learner's solution. Its owner and exercise never change here. */
  datatype Submission = Submission(owner: UserId, exercise: Exercise, wantsOpinions: bool)

  /** A reviewer's comment on a submission. */
  datatype Nitpick = Nitpick(submission: SubmissionId, nitpicker: UserId, comment: string, approvable: bool)

  /** A privileged sign-off. */
  datatype Approval = Approval(submission: SubmissionId, approver: UserId, comment: string)

  /** An argument: a reply to nitpick number `nit` of a submission, kept in
      the comment store and addressed there by its index. */
  datatype Comment = Comment(submission: SubmissionId, nit: nat, author: UserId, body: string)

  /** `Notify.everyone` goes to everyone on the thread, `Notify.source` to
      the submission's side only. */
  datatype Audience = Everyone | Source

  /** The notification kinds the handlers use: 'nitpick', 'comment', 'approval'. */
  datatype Kind = NitpickKind | CommentKind | ApprovalKind

  /** An outward effect: an in-app notification, or a delivered email
      (`NitpickMessage.ship`, `ApprovalMessage.ship`). */
  datatype Effect =
    | Notification(audience: Audience, submission: SubmissionId, actor: UserId, kind: Kind)
    | NitpickEmail(instigator: UserId, submission: SubmissionId)
    | ApprovalEmail(instigator: UserId, submission: SubmissionId)
  {
    predicate IsEmail() {
      NitpickEmail? || ApprovalEmail?
    }
  }

  /** One step of a handler's plan. Nitpick number i is `nitpicks[i]`,
      comment number i is `comments[i]`. */
  datatype Step =
    | StoreNitpick(nitpick: Nitpick)
    | StoreApproval(approval: Approval)
    | StoreComment(comment: Comment)
    | SetWantsOpinions(target: SubmissionId, on: bool)
    | SetNitText(nit: nat, text: string)
    | SetCommentBody(index: nat, body: string)
    | Emit(effect: Effect)

  /** Everything the handlers read and write: the stores and the effects log. */
  datatype State = State(
    submissions: map<SubmissionId, Submission>,
    nitpicks: seq<Nitpick>,
    approvals: seq<Approval>,
    comments: seq<Comment>,
    effects: seq<Effect>)

  /** Nitpick `nit` exists and belongs to submission `s`. */
  predicate NitOf(w: State, s: SubmissionId, nit: nat) {
    s in w.submissions && nit < |w.nitpicks| && w.nitpicks[nit].submission == s
  }

  /** Comment `c` exists and replies to nitpick `nit` of submission `s`. */
  predicate CommentOf(w: State, s: SubmissionId, nit: nat, c: nat) {
    NitOf(w, s, nit) && c < |w.comments| && w.comments[c].submission == s && w.comments[c].nit == nit
  }

  /** Carries out one step. An update aimed at a missing target changes nothing. */
  function Apply(w: State, step: Step): State {
    match step
    case StoreNitpick(n) => w.(nitpicks := w.nitpicks + [n])
    case StoreApproval(a) => w.(approvals := w.approvals + [a])
    case StoreComment(c) => w.(comments := w.comments + [c])
    case SetWantsOpinions(s, on) =>
      if s in w.submissions
      then w.(submissions := w.submissions[s := w.submissions[s].(wantsOpinions := on)])
      else w
    case SetNitText(i, t) =>
      if i < |w.nitpicks| then w.(nitpicks := w.nitpicks[i := w.nitpicks[i].(comment := t)]) else w
    case SetCommentBody(i, b) =>
      if i < |w.comments| then w.(comments := w.comments[i := w.comments[i].(body := b)]) else w
    case Emit(e) => w.(effects := w.effects + [e])
  }

  /** Carries out a plan, first step first. */
  function Commit(w: State, steps: seq<Step>): State
    decreases |steps|
  {
    if steps == [] then w else Commit(Apply(w, steps[0]), steps[1..])
  }

  /** The effects a plan emits, in order. */
  function Effects(steps: seq<Step>): (r: seq<Effect>)
    ensures |r| <= |steps|
    ensures forall e :: e in r ==> Emit(e) in steps
    ensures forall e :: Emit(e) in steps ==> e in r
    decreases |steps|
  {
    if steps == [] then []
    else (if steps[0].Emit? then [steps[0].effect] else []) + Effects(steps[1..])
  }

  /** The effects of a concatenated plan are the effects of its parts. */
  lemma {:induction false} EffectsConcat(a: seq<Step>, b: seq<Step>)
    ensures Effects(a + b) == Effects(a) + Effects(b)
    decreases |a|
  {
    if a == [] {
      assert a + b == b;
    } else {
      assert (a + b)[0] == a[0];
      assert (a + b)[1..] == a[1..] + b;
      EffectsConcat(a[1..], b);
    }
  }

  /** The effects log is append-only: a plan adds exactly its own effects. */
  lemma {:induction false} CommitEffects(w: State, steps: seq<Step>)
    ensures Commit(w, steps).effects == w.effects + Effects(steps)
    decreases |steps|
  {
    if steps != [] {
      CommitEffects(Apply(w, steps[0]), steps[1..]);
    }
  }

  /** A plan is carried out from its first step. */
  lemma CommitCons(w: State, step: Step, rest: seq<Step>)
    ensures Commit(w, [step] + rest) == Commit(Apply(w, step), rest)
  {
    assert ([step] + rest)[1..] == rest;
  }

  /** A plan that only emits effects changes nothing but the effects log. */
  lemma {:induction false} CommitEmits(w: State, steps: seq<Step>)
    requires forall i :: 0 <= i < |steps| ==> steps[i].Emit?
    ensures Commit(w, steps) == w.(effects := w.effects + Effects(steps))
    decreases |steps|
  {
    if steps == [] {
      assert w.effects + [] == w.effects;
    } else {
      CommitEmits(Apply(w, steps[0]), steps[1..]);
    }
  }

  /** Running two plans one after the other is running their concatenation. */
  lemma {:induction false} CommitConcat(w: State, a: seq<Step>, b: seq<Step>)
    ensures Commit(w, a + b) == Commit(Commit(w, a), b)
    decreases |a|
  {
    if a != [] {
      assert (a + b)[0] == a[0];
      assert (a + b)[1..] == a[1..] + b;
      CommitConcat(Apply(w, a[0]), a[1..], b);
    } else {
      assert a + b == b;
    }
  }

  /** No plan creates or removes a submission or changes who owns it or
      which exercise it is for; only the `wants_opinions` flag can move. */
  lemma {:induction false} CommitKeepsSubmissions(w: State, steps: seq<Step>)
    ensures Commit(w, steps).submissions.Keys == w.submissions.Keys
    ensures forall s :: s in w.submissions ==>
      Commit(w, steps).submissions[s].owner == w.submissions[s].owner &&
      Commit(w, steps).submissions[s].exercise == w.submissions[s].exercise
    decreases |steps|
  {
    if steps != [] {
      CommitKeepsSubmissions(Apply(w, steps[0]), steps[1..]);
    }
  }

  /** Records are never removed: approvals are only appended to, and the
      nitpick and comment stores never shrink (edits change text in place). */
  lemma {:induction false} CommitGrows(w: State, steps: seq<Step>)
    ensures w.approvals <= Commit(w, steps).approvals
    ensures |w.nitpicks| <= |Commit(w, steps).nitpicks|
    ensures |w.comments| <= |Commit(w, steps).comments|
    decreases |steps|
  {
    if steps != [] {
      CommitGrows(Apply(w, steps[0]), steps[1..]);
    }
  }

  /** Every record points at something that exists. */
  predicate WellFormed(w: State) {
    && (forall i :: 0 <= i < |w.nitpicks| ==> w.nitpicks[i].submission in w.submissions)
    && (forall i :: 0 <= i < |w.approvals| ==> w.approvals[i].submission in w.submissions)
    && (forall i :: 0 <= i < |w.comments| ==> NitOf(w, w.comments[i].submission, w.comments[i].nit))
  }

  /** A nitpick the permission checks let through: by a non-guest who owns
      the submission or may nitpick its exercise. */
  predicate NitpickAllowed(w: State, caps: Caps, n: Nitpick) {
    && n.submission in w.submissions
    && !IsGuest(caps, n.nitpicker)
    && (Owns(caps, n.nitpicker, n.submission) ||
        MayNitpick(caps, n.nitpicker, w.submissions[n.submission].exercise))
  }

  /** An approval the permission checks let through: by a non-guest who
      unlocks the exercise. */
  predicate ApprovalAllowed(w: State, caps: Caps, a: Approval) {
    && a.submission in w.submissions
    && !IsGuest(caps, a.approver)
    && Unlocks(caps, a.approver, w.submissions[a.submission].exercise)
  }

  /** Every stored record was made by someone the permission checks let
      through; arguments only by non-guests. */
  predicate Authorized(w: State, caps: Caps) {
    && (forall i :: 0 <= i < |w.nitpicks| ==> NitpickAllowed(w, caps, w.nitpicks[i]))
    && (forall i :: 0 <= i < |w.approvals| ==> ApprovalAllowed(w, caps, w.approvals[i]))
    && (forall i :: 0 <= i < |w.comments| ==> !IsGuest(caps, w.comments[i].author))
  }

  /** No email in `effs` was instigated by the submission's own user. */
  predicate EmailsByOthers(w: State, effs: seq<Effect>) {
    forall e :: e in effs && e.IsEmail() ==>
      e.submission in w.submissions && e.instigator != w.submissions[e.submission].owner
  }

  /** No logged email was ever instigated by a submission's own user. */
  predicate NoSelfEmail(w: State) {
    EmailsByOthers(w, w.effects)
  }

  predicate Valid(w: State, caps: Caps) {
    WellFormed(w) && Authorized(w, caps) && NoSelfEmail(w)
  }
}
