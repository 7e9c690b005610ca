/** The guest's four-step registration wizard (name and event, gender,
    photo, description) with its submit in flight. */
module GuestRegistration {
  import opened Options
  import opened RegistrationSteps
  import ClientTypes

  datatype EventOption = EventOption(id: string, title: Option<string>, eventDate: string, eventTime: string)

  /** What `onComplete` receives; an empty event choice is sent as undefined. */
  datatype Submission = Submission(
    name: string,
    gender: ClientTypes.Gender,
    photo: string,
    description: string,
    eventId: Option<string>)

  /** `formData.eventId || undefined`. */
  function EventChoice(eventId: string): (r: Option<string>)
    ensures r.None? <==> eventId == ""
    ensures r.Some? ==> r.value == eventId
  {
    if eventId == "" then None else Some(eventId)
  }

  class Form {
    var name: string
    var gender: GenderChoice
    /** No control sets the photo; it stays empty. */
    var photo: string
    var description: string
    var eventId: string
    var submitting: bool
    var events: seq<EventOption>
    var step: int

    ghost predicate Valid()
      reads this
    {
      StepsPassed(step, name, gender) && photo == ""
    }

    constructor()
      ensures Valid()
      ensures name == "" && gender == NoGender && photo == "" && description == "" && eventId == ""
      ensures !submitting && events == [] && step == 1
    {
      name := "";
      gender := NoGender;
      photo := "";
      description := "";
      eventId := "";
      submitting := false;
      events := [];
      step := 1;
    }

    function CanProceedNow(): bool
      reads this
    {
      CanProceed(step, name, gender, description)
    }

    /** The mount effect's answers: the list when it is an array, and the
        next event's id. The emptiness test reads the form as it was at
        mount, when the event was always empty, so a non-empty next id is
        written whatever the guest has chosen since. */
    method Loaded(list: Option<seq<EventOption>>, nextId: Option<string>)
      requires Valid()
      modifies this
      ensures Valid()
      ensures events == if list.Some? then list.value else old(events)
      ensures eventId == if nextId.Some? && nextId.value != "" then nextId.value else old(eventId)
      ensures name == old(name) && gender == old(gender) && description == old(description)
      ensures step == old(step) && submitting == old(submitting)
    {
      if list.Some? {
        events := list.value;
      }
      if nextId.Some? && nextId.value != "" {
        eventId := nextId.value;
      }
    }

    /** The name input, on step 1. */
    method SetName(value: string)
      requires Valid() && step == 1
      modifies this`name
      ensures Valid() && name == value
    {
      name := value;
    }

    /** The event select, on step 1; "" is "Ближайшее". */
    method SelectEvent(id: string)
      requires Valid() && step == 1
      requires id == "" || exists k :: 0 <= k < |events| && events[k].id == id
      modifies this`eventId
      ensures Valid() && eventId == id
    {
      eventId := id;
    }

    /** The gender radio, on step 2. */
    method SetGender(g: ClientTypes.Gender)
      requires Valid() && step == 2
      modifies this`gender
      ensures Valid() && gender == Chosen(g)
    {
      gender := Chosen(g);
    }

    /** The description area, on step 4. */
    method SetDescription(value: string)
      requires Valid() && step == 4
      modifies this`description
      ensures Valid() && description == value
    {
      description := value;
    }

    /** "Назад", shown after the first step. */
    method Back()
      requires Valid() && step > 1
      modifies this`step
      ensures Valid() && step == old(step) - 1
    {
      step := step - 1;
    }

    /** "Далее", shown before the last step and enabled only when the step's rule holds. */
    method Next()
      requires Valid() && step < TotalSteps && CanProceedNow()
      modifies this`step
      ensures Valid() && step == old(step) + 1
    {
      step := step + 1;
    }

    /** The start of `handleSubmit`: nothing unless name, gender and
        description are all non-empty (untrimmed); otherwise the form is
        marked as submitting and `onComplete` is called. The enabled button
        (last step, rule holds, not submitting) always gets through. */
    method BeginSubmit() returns (call: Option<Submission>)
      requires Valid()
      modifies this`submitting
      ensures Valid()
      ensures call.Some? <==> name != "" && gender.Chosen? && description != ""
      ensures call.Some? ==> submitting && call.value == Submission(name, gender.g, photo, description, EventChoice(eventId))
      ensures call.None? ==> submitting == old(submitting)
      ensures step == TotalSteps && CanProceedNow() ==> call.Some?
    {
      if name != "" && gender.Chosen? && description != "" {
        submitting := true;
        call := Some(Submission(name, gender.g, photo, description, EventChoice(eventId)));
      } else {
        call := None;
      }
    }

    /** The `finally` of `handleSubmit`: the flag drops whether `onComplete`
        resolved or threw, and a throw goes on to the caller. */
    method FinishSubmit(threw: bool) returns (rethrown: bool)
      requires Valid()
      modifies this`submitting
      ensures Valid() && !submitting && rethrown == threw
    {
      submitting := false;
      rethrown := threw;
    }
  }
}
