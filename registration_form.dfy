/** The older four-step registration wizard: the same step rule, no event
    choice and no submit in flight. */
module RegistrationWizard {
  import opened Options
  import opened RegistrationSteps
  import ClientTypes

  /** What `onComplete` receives: exactly the form's four fields. */
  datatype UserData = UserData(name: string, gender: ClientTypes.Gender, photo: string, description: string)

  class Wizard {
    var name: string
    var gender: GenderChoice
    /** No control sets the photo; it stays empty. */
    var photo: string
    var description: string
    var step: int

    ghost predicate Valid()
      reads this
    {
      StepsPassed(step, name, gender) && photo == ""
    }

    constructor()
      ensures Valid()
      ensures name == "" && gender == NoGender && photo == "" && description == "" && step == 1
    {
      name := "";
      gender := NoGender;
      photo := "";
      description := "";
      step := 1;
    }

    function CanProceedNow(): bool
      reads this
    {
      CanProceed(step, name, gender, description)
    }

    method SetName(value: string)
      requires Valid() && step == 1
      modifies this`name
      ensures Valid() && name == value
    {
      name := value;
    }

    method SetGender(g: ClientTypes.Gender)
      requires Valid() && step == 2
      modifies this`gender
      ensures Valid() && gender == Chosen(g)
    {
      gender := Chosen(g);
    }

    method SetDescription(value: string)
      requires Valid() && step == 4
      modifies this`description
      ensures Valid() && description == value
    {
      description := value;
    }

    method Back()
      requires Valid() && step > 1
      modifies this`step
      ensures Valid() && step == old(step) - 1
    {
      step := step - 1;
    }

    method Next()
      requires Valid() && step < TotalSteps && CanProceedNow()
      modifies this`step
      ensures Valid() && step == old(step) + 1
    {
      step := step + 1;
    }

    /** `handleSubmit`: `onComplete` is called, with the form's name, gender,
        photo and description, iff none of them but the photo is empty; from
        the enabled button on the last step it always is. */
    method Submit() returns (call: Option<UserData>)
      requires Valid()
      ensures call.Some? <==> name != "" && gender.Chosen? && description != ""
      ensures call.Some? ==> call.value == UserData(name, gender.g, photo, description)
      ensures step == TotalSteps && CanProceedNow() ==> call.Some?
    {
      if name != "" && gender.Chosen? && description != "" {
        call := Some(UserData(name, gender.g, photo, description));
      } else {
        call := None;
      }
    }
  }
}
