# Submission review workflow — a Dafny model

This project models the review workflow of the exercism.io web application
as its Sinatra handlers in `lib/app/submissions.rb` implement it. Mentors
nitpick learners' submissions. A privileged user approves them. The owner
asks for more opinions or turns that off. Anyone logged in argues with a
nitpick. The edit routes rewrite a nitpick's text or an argument's body.

Each handler is a pure function. It takes the world, the capability answers
for the request, the acting user and the request parameters. It returns a
`Reply`: an outcome and a plan of steps. The outcome is a 403 halt with its
message, a redirect with a flash tag, a normal return, or a failed lookup.
`World.Commit` carries the plan out. Because the plan is an explicit
sequence, the order of notifications, emails and saves can be observed.

Modules:

- `Capabilities` (`capabilities.dfy`): users, submissions and exercises, and
  the answers to `guest?`, `owns?`, `may_nitpick?`, `unlocks?` and
  `locksmith?`. Each answer is an arbitrary relation held in a `Caps` value.
  Every theorem holds for all `Caps`, so the predicates are uninterpreted.
  `owns?` is its own relation. The email guards compare users with `==`
  against the submission's stored user instead, and the model keeps that
  difference.
- `World` (`world.dfy`): submissions, nitpicks, approvals, the comment store
  that holds arguments, and the effects log. It also holds the plan
  interpreter `Commit` and the world invariant `Valid` over a `State`.
  `Valid` says that records point at existing things, that every stored
  record passes the permission checks under the session's capability
  answers, and that no email was instigated by a submission's own user.
- `RubyText` (`ruby_text.dfy`): Ruby 2 `String#strip`, which the comment
  edit route uses.
- `Submissions` (`submissions.dfy`): the handlers and the POST route table
  `Serve`.
- `Properties` (`properties.dfy`): properties that span several calls.
  These cover isolation of email failures, the `respond` dispatch, the edit
  routes' indifference to who sends them, idempotence, and preservation of
  `Valid` by every request and by every session of requests.

Two things the surrounding code cannot decide become parameters in a
`Luck` value. `saved` is the answer of `nitpick.nitpicked?` after the save.
`mailDelivered` is false when shipping an email raised. A failed email
appends nothing to the effects log. The failure is swallowed, and its
console line is output that is not modelled.

Where the code may surprise a reader, the model follows the code:

- The `nitpick` helper looks the submission up before it checks for a guest
  (line 5 before line 7). A missing submission therefore fails even for a
  guest. The `approve` helper checks for a guest first (lines 36-40).
- Owning a submission is enough to nitpick it (line 11).
- The approval's `source` notification and the email attempt happen before
  the approval is saved (lines 45-58).
- The POST edit routes check no authorship (lines 166-174, 183-192). Only
  the GET edit views send non-authors back (lines 162, 179).
  `Properties.NonAuthorEditsNit` and `Properties.NonAuthorEditsComment`
  show, on every world, that a non-author whom the edit view turns away
  still changes the nit's text or the argument's body through the POST.

## Model

| member | source | states |
|---|---|---|
| Submissions.SubmitNitpick | lib/app/submissions.rb:4-33 | A missing submission fails first, even for a guest. A guest then gets the "not logged in" 403. A non-guest passes exactly when they own the submission or may nitpick its exercise, and otherwise gets the permission 403. A rejection has an empty plan. A permitted nitpick that the save did not record changes nothing. A recorded nitpick is stored as the plan's first step, ahead of its notification, and then one `everyone`/nitpick notification is logged, and a nitpick email is logged only when the nitpicker is not the submission's user and delivery worked. The flash nominates for approval only when the recorded nitpick is approvable. |
| Submissions.RecordNitpick | lib/app/submissions.rb:15-31 | The plan for a recorded nitpick stores the nitpick first, before any notification, and adds exactly that nitpick to the world. Its effects are the `everyone` notification, followed by the email when the nitpicker is someone other than the owner and delivery worked. |
| Submissions.SubmitApproval | lib/app/submissions.rb:35-59 | A guest gets the 403 before any lookup. Otherwise only `unlocks?` on the exercise lets the user through; ownership plays no part. A rejection has an empty plan. A permitted plan starts with the `source`/approval notification and ends by storing the approval. It appends exactly one approval and changes nothing else. An email is logged only when the approver is not the submission's user and delivery worked. |
| Submissions.ToggleOpinions | lib/app/submissions.rb:61-76 | A non-owner is redirected to the dashboard with an error, and nothing changes. For the owner, `wants_opinions` becomes true on enable and false on disable, and nothing else in the world changes. The notice names the flag's resulting value. |
| Submissions.NitpickRoute | lib/app/submissions.rb:100-103 | The route runs the nitpick helper's plan unchanged. A normal return becomes a redirect to the dashboard carrying the helper's flash; a 403 halt or a failed lookup passes through unchanged. |
| Submissions.ApproveRoute | lib/app/submissions.rb:106-109 | The route runs the approve helper's plan unchanged. A normal return becomes a redirect to the dashboard carrying the helper's flash; a 403 halt or a failed lookup passes through unchanged. |
| Submissions.Respond | lib/app/submissions.rb:115-122 | With the `approve` parameter the route runs the approve helper's plan. Without it, the route runs the nitpick helper's plan. The chosen helper's normal return becomes a redirect to the submission's page with the helper's flash; its 403 halt or failed lookup passes through unchanged. |
| Submissions.OpinionsRoute | lib/app/submissions.rb:124-134 | A guest is sent to log in and nothing changes. Anyone else gets the toggle helper's plan. The owner is redirected to the submission with the helper's notice; a non-owner keeps the helper's redirect to the dashboard with the error. The request never halts with a 403. |
| Submissions.Argue | lib/app/submissions.rb:136-157 | A guest gets the error flash and is sent to log in. An empty comment changes nothing and only redirects, though a missing submission still fails. A non-empty comment on an existing nit stores exactly one argument for (submission, nit, user, comment) as the plan's first step, before it logs exactly one `everyone`/comment notification. Nothing else changes. |
| Submissions.EditNitView | lib/app/submissions.rb:159-164 | The edit form renders exactly when the user is the nit's nitpicker. Anyone else is redirected to the submission. |
| Submissions.EditNit | lib/app/submissions.rb:166-174 | On an existing nit the comment text is replaced by the given text unconditionally. Every other part of the world stays as it was. |
| Submissions.EditCommentView | lib/app/submissions.rb:176-181 | The edit form renders exactly when the user is the comment's author. Anyone else is redirected to the submission. |
| Submissions.EditComment | lib/app/submissions.rb:183-193 | A body that is empty or only blanks changes nothing, and the comment is not even looked up. Otherwise the comment's body becomes the stripped, non-empty text, and nothing else changes. |
| Submissions.SubmissionPageGuard | lib/app/submissions.rb:83-97 | A guest is sent to log in. A missing submission fails lookup. The page is shown exactly to a non-guest who owns the submission or may nitpick its exercise; anyone else is redirected to the dashboard with the "no permission to nitpick" error. |
| Submissions.ListingGuard | lib/app/submissions.rb:195-201 | The listing is reached exactly by a logged-in locksmith. A guest is sent to log in. Anyone else is redirected with the need-to-know notice. |
| RubyText.LeadingSpaces | lib/app/submissions.rb:190 | Every character before the count is whitespace, and the character at the count, if any, is not. The count is the length of the run that `lstrip` removes. |
| RubyText.TrailingStart | lib/app/submissions.rb:190 | Every character from the position on is whitespace or NUL, and the character just before it, if any, is neither. The position is where the run that `rstrip` removes begins. |
| RubyText.LStrip | lib/app/submissions.rb:190 | The result is a suffix of the input. Everything removed is whitespace, and the result does not start with whitespace. |
| RubyText.RStrip | lib/app/submissions.rb:190 | The result is a prefix of the input. Everything removed is whitespace or NUL, and the result does not end with either. |
| RubyText.Strip | lib/app/submissions.rb:190 | The result is a prefix of the left-stripped body, which is a suffix of the input, and everything cut from the end is whitespace or NUL, so no character inside the body is lost or changed. It has no removable character at either end. It is empty exactly when every character of the body is whitespace or NUL. |
| RubyText.StripIdempotent | lib/app/submissions.rb:190 | Stripping an already stripped body changes nothing. |
| Properties.NitpickEmailIsolated | lib/app/submissions.rb:17-31 | A failed nitpick email gives the same outcome, the same stored records and the same notification as a delivered one. Only the email is missing. |
| Properties.ApprovalEmailIsolated | lib/app/submissions.rb:45-58 | A failed approval email still stores the one approval and logs the `source` notification. Only the email is missing. |
| Properties.PageAdmitsExactlyNitpickers | lib/app/submissions.rb:91-94 | The submission page lets a user in exactly when the nitpick helper would accept that user's nitpick on it, whatever the comment, flag and luck. |
| Properties.ApprovalIgnoresOwnership | lib/app/submissions.rb:36-43 | The approve helper answers the same whatever the ownership relation is. Owning a submission neither lets a user approve it nor stops them. |
| Properties.RespondRunsOneHelper | lib/app/submissions.rb:115-122 | With `approve`, `respond` adds one approval on success and no nitpick. Without it, `respond` adds no approval and adds one nitpick only when one is recorded. |
| Properties.OpinionsOnThenOff | lib/app/submissions.rb:61-75 | When the owner enables and then disables opinions, the notices are "requested" and then "disabled". The flag ends false, and no other part of the world changes, including the effects log. |
| Properties.ToggleIdempotent | lib/app/submissions.rb:64-69 | Repeating the same toggle request leaves the world as the first one left it. |
| Properties.EditNitIgnoresActor | lib/app/submissions.rb:166-174 | The nit edit route gives the same reply to every user, whether author or not. |
| Properties.EditCommentIgnoresActor | lib/app/submissions.rb:183-193 | The comment edit route gives the same reply to every user, whether author or not. |
| Properties.NonAuthorChangesNit | lib/app/submissions.rb:159-174 | In a concrete world, a user who is not the nit's author is redirected by the edit view. The same user's POST still changes the nit's text. |
| Properties.NonAuthorEditsNit | lib/app/submissions.rb:159-174 | On every world, a user who is not a nit's author is redirected by the edit view (line 162), yet the same user's POST sets the nit's text (line 172). |
| Properties.NonAuthorEditsComment | lib/app/submissions.rb:176-193 | On every world, a user who is not an argument's author is redirected by the edit view (line 179), yet the same user's POST of a body that is not all blanks replaces the argument's body with the stripped text (lines 190-191). |
| Properties.EditNitIdempotent | lib/app/submissions.rb:172 | Sending the same nit edit twice leaves the world as sending it once. |
| Properties.EditCommentIdempotent | lib/app/submissions.rb:190-191 | Sending the same comment edit twice leaves the world as sending it once. |
| Properties.NitpickThenApprove | lib/app/submissions.rb:115-122 | A reviewer's approvable nitpick followed by an approver's approval, both through `respond`, leaves exactly one new approval. It also leaves the nitpick if its save recorded it, and the submissions unchanged. |
| Properties.NitpickKeepsValid | lib/app/submissions.rb:7-31 | From a valid world, the nitpick helper leaves a valid world. It stores only permitted nitpicks, and no email it logs was instigated by the submission's own user. |
| Properties.ApprovalKeepsValid | lib/app/submissions.rb:36-58 | From a valid world, the approve helper leaves a valid world. Only users who unlock the exercise get an approval stored. |
| Properties.ToggleKeepsValid | lib/app/submissions.rb:61-69 | From a valid world, toggling opinions leaves a valid world. |
| Properties.ArgueKeepsValid | lib/app/submissions.rb:136-154 | From a valid world, arguing leaves a valid world. Arguments attach to an existing nit of the same submission and are never by guests. |
| Properties.EditNitKeepsValid | lib/app/submissions.rb:166-174 | From a valid world, the nit edit route leaves a valid world. |
| Properties.EditCommentKeepsValid | lib/app/submissions.rb:183-193 | From a valid world, the comment edit route leaves a valid world. |
| Properties.ServeKeepsValid | lib/app/submissions.rb:100-193 | From a valid world, every POST request leaves a valid world, whatever its sender and whatever the save and email outcomes. |
| Properties.RunKeepsValid | lib/app/submissions.rb:100-193 | Over any session of requests, with the capability answers fixed for the session, the world stays valid. The effects log and the approvals are only appended to. No submission appears or disappears, and none changes owner or exercise. |

## Left out

- Rendering (`erb`, `title`) on every GET route, and the redirect alias `/user/submissions/:id` (lines 79-81). Both are presentation. The GET submission page's guard (lines 84-95) is modelled as `SubmissionPageGuard`.
- Flash texts: the model keeps a success, error or notice tag with the message's meaning. The four 403 messages are kept verbatim.
- `please_login`: its definition is not part of this model. It is treated as a guard that sends a guest to the login page (lines 84, 125, 131, 140, 196).
- The internals of `Notify.everyone`, `Notify.source`, `NitpickMessage.ship` and `ApprovalMessage.ship`. They are external delivery, and each becomes one logged effect. Recipients are not modelled.
- The review-state progression (pending, nitpicked, approvable, approved) and the meaning of `nitpicked?` and `approvable?`. They live in the `Submission` and `Nitpick` models, which are not part of this model. `nitpicked?` is the opaque `saved` bit.
- The locksmith listing query and its ordering (lines 203-210). It is a database query; only its guard is modelled.
- The `puts` of an email failure. It is console output.
- Failures of `Approval#save`, `Argument#save` and `update_attributes`. These are persistence, so each is assumed to succeed.
- Missing request parameters, such as a `nil` comment raising on `.empty?` or `.strip`. Parameters are always strings here. The truthiness of `params[:approve]` and `params[:approvable]` is a `bool`.
- `Argument` and its nit lookup are defined outside `lib/app/submissions.rb`. A non-empty argument on a nit that does not belong to the submission is modelled as a failed lookup, and so is an edit of a missing nit or comment. A missing submission fails lookup in both argue branches (`Submission.find_by` raises).
- Nit and comment identifiers are their positions in the stores, in place of database ids.
- Capability answers are fixed for a session: `RunKeepsValid` evaluates every request, and `Valid`'s permission clause, against one `Caps` value. A user who loses a capability later leaves records that `Authorized` would no longer accept; the model does not cover that.
- `Notify.everyone` and `Notify.source` (lines 19, 45, 153) are assumed never to raise. They sit outside the `begin/rescue`, so in the code a raise there aborts the request; at line 45 that would happen before the approval is saved (line 58), leaving no approval. `Luck` covers only email delivery.
- Concurrency between requests: each request runs alone, and a session is a sequence of requests.
