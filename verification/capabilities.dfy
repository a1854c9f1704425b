/** The permission oracle: what the application asks of the acting user.
    The user model that answers `guest?`, `owns?`, `may_nitpick?`,
    `unlocks?` and `locksmith?` is not part of this model, so each answer is
    an arbitrary relation held in a `Caps` value; every property proved
    about the handlers holds for every `Caps`, which makes the predicates
    uninterpreted. */
module Capabilities {

  type UserId = nat
  type SubmissionId = nat

  /** An exercise: a language and an assignment slug. */
  datatype Exercise = Exercise(language: string, slug: string)

  /** The capability relations, as looked up for the current request. */
  datatype Caps = Caps(
    guests: set<UserId>,
    ownership: set<(UserId, SubmissionId)>,
    nitpickers: set<(UserId, Exercise)>,
    unlockers: set<(UserId, Exercise)>,
    locksmiths: set<UserId>)

  /** `current_user.guest?` */
  predicate IsGuest(caps: Caps, u: UserId) {
    u in caps.guests
  }

  /** `current_user.owns?(submission)`: a relation of its own, not the same
      test as comparing a user with the submission's stored user. */
  predicate Owns(caps: Caps, u: UserId, s: SubmissionId) {
    (u, s) in caps.ownership
  }

  /** `current_user.may_nitpick?(exercise)` */
  predicate MayNitpick(caps: Caps, u: UserId, e: Exercise) {
    (u, e) in caps.nitpickers
  }

  /** `current_user.unlocks?(exercise)` */
  predicate Unlocks(caps: Caps, u: UserId, e: Exercise) {
    (u, e) in caps.unlockers
  }

  /** `current_user.locksmith?` */
  predicate Locksmith(caps: Caps, u: UserId) {
    u in caps.locksmiths
  }
}
