/** The step rule the two registration wizards share: which step may move
    on, and JavaScript's `trim` that it uses. */
module RegistrationSteps {
  import ClientTypes

  const TotalSteps: int := 4

  /** The characters `String.prototype.trim` removes: white space and line terminators. */
  predicate IsJsSpace(c: char) {
    || ('\U{9}' <= c <= '\U{D}')
    || c == ' ' || c == '\U{A0}' || c == '\U{1680}'
    || ('\U{2000}' <= c <= '\U{200A}')
    || c == '\U{2028}' || c == '\U{2029}' || c == '\U{202F}' || c == '\U{205F}'
    || c == '\U{3000}' || c == '\U{FEFF}'
  }

  predicate AllSpace(s: string) {
    forall i :: 0 <= i < |s| ==> IsJsSpace(s[i])
  }

  function TrimStart(s: string): string
    decreases |s|
  {
    if |s| > 0 && IsJsSpace(s[0]) then TrimStart(s[1..]) else s
  }

  function TrimEnd(s: string): string
    decreases |s|
  {
    if |s| > 0 && IsJsSpace(s[|s| - 1]) then TrimEnd(s[..|s| - 1]) else s
  }

  /** `s.trim()`. */
  function Trim(s: string): string {
    TrimEnd(TrimStart(s))
  }

  /** Dropping leading white space leaves a text all white space iff it was. */
  lemma {:induction false} TrimStartAllSpace(s: string)
    ensures AllSpace(TrimStart(s)) <==> AllSpace(s)
    decreases |s|
  {
    if |s| > 0 && IsJsSpace(s[0]) {
      TrimStartAllSpace(s[1..]);
      assert AllSpace(s) <==> AllSpace(s[1..]) by {
        assert forall i :: 0 < i < |s| ==> s[i] == s[1..][i - 1];
      }
    }
  }

  lemma {:induction false} TrimEndEmpty(s: string)
    ensures TrimEnd(s) == "" <==> AllSpace(s)
    decreases |s|
  {
    if |s| > 0 && IsJsSpace(s[|s| - 1]) {
      TrimEndEmpty(s[..|s| - 1]);
      assert AllSpace(s) <==> AllSpace(s[..|s| - 1]) by {
        assert forall i :: 0 <= i < |s| - 1 ==> s[i] == s[..|s| - 1][i];
      }
    }
  }

  /** A trimmed text is empty iff the text is all white space. */
  lemma TrimEmpty(s: string)
    ensures Trim(s) == "" <==> AllSpace(s)
  {
    TrimStartAllSpace(s);
    TrimEndEmpty(TrimStart(s));
  }

  /** The gender radio: nothing chosen yet, or a choice. */
  datatype GenderChoice = NoGender | Chosen(g: ClientTypes.Gender)

  /** `canProceed` for the current step. */
  function CanProceed(step: int, name: string, gender: GenderChoice, description: string): (ok: bool)
    ensures ok <==>
      || (step == 1 && !AllSpace(name))
      || (step == 2 && gender.Chosen?)
      || step == 3
      || (step == 4 && !AllSpace(description))
  {
    TrimEmpty(name);
    TrimEmpty(description);
    match step
    case 1 => Trim(name) != ""
    case 2 => gender != NoGender
    case 3 => true
    case 4 => Trim(description) != ""
    case _ => false
  }

  /** What the wizard state must satisfy for the step it is on: every
      earlier step's rule held when it was left, and its field cannot be
      edited from a later step. */
  predicate StepsPassed(step: int, name: string, gender: GenderChoice) {
    && 1 <= step <= TotalSteps
    && (step > 1 ==> !AllSpace(name))
    && (step > 2 ==> gender.Chosen?)
  }
}
