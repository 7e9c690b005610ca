/** The frontend's records: a guest `User` and an admin-side `Participant`. */
module ClientTypes {
  import opened Options

  /** `"male" | "female"`. */
  datatype Gender = Male | Female

  datatype User = User(
    id: string,
    name: string,
    gender: Gender,
    photo: Option<string>,
    description: string,
    tableId: Option<int>)

  /** `Omit<User, "id">`: what a guest submits. */
  datatype NewUser = NewUser(
    name: string,
    gender: Gender,
    photo: Option<string>,
    description: string,
    tableId: Option<int>)

  /** A JavaScript `Date`: a moment in milliseconds, or an invalid date. */
  datatype Moment = At(ms: int) | InvalidDate

  datatype Participant = Participant(
    id: string,
    name: string,
    gender: Gender,
    registeredAt: Moment,
    paid: bool,
    ready: Option<bool>)

  /** `Partial<Participant>`: an absent field is `None`. */
  datatype ParticipantPatch = ParticipantPatch(
    id: Option<string>,
    name: Option<string>,
    gender: Option<Gender>,
    registeredAt: Option<Moment>,
    paid: Option<bool>,
    ready: Option<bool>)

  /** `{ ...p, ...updates }`. */
  function MergeParticipant(p: Participant, u: ParticipantPatch): Participant {
    Participant(
      u.id.GetOr(p.id),
      u.name.GetOr(p.name),
      u.gender.GetOr(p.gender),
      u.registeredAt.GetOr(p.registeredAt),
      u.paid.GetOr(p.paid),
      if u.ready.Some? then u.ready else p.ready)
  }

  /** `ready` is optional; a missing flag reads as not ready. */
  predicate IsReady(p: Participant) {
    p.ready == Some(true)
  }

  function HasId(id: string): Participant -> bool {
    (p: Participant) => p.id == id
  }

  function HasOtherId(id: string): Participant -> bool {
    (p: Participant) => p.id != id
  }
}
