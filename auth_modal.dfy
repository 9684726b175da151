/** The sign-in / sign-up dialog: the order in which a submit is checked,
    the call it makes, and how the error line is cleared. */
module AuthModal {
  import opened Wrappers
  import opened Text

  datatype Mode = SignIn | SignUp

  datatype Field = Email | Password | Name | Role

  datatype FormData = FormData(email: string, password: string, name: string, role: string)

  const EmptyForm: FormData := FormData("", "", "", "user")

  /** The call a submit hands to the application. */
  datatype Call =
    | NoCall
    | SignInCall(email: string, password: string)
    | SignUpCall(email: string, password: string, name: string, role: string)

  /** How the application's sign-in or sign-up call ended: normally, or by
      throwing an error with the given message. */
  datatype Outcome = Succeeded | Threw(message: string)

  const TermsError: string := "YOU MUST AGREE TO THE PRIVACY TERMS & CONDITIONS!"
  const NameError: string := "NAME IS REQUIRED!"
  const FallbackError: string := "AN ERROR OCCURRED!"

  /** The checks made before any call, in their order: terms first, then (on
      sign-up) a name that is not blank. */
  function Validate(mode: Mode, form: FormData, agreed: bool): (r: Option<string>)
    ensures r == Some(TermsError) <==> !agreed
    ensures r == Some(NameError) <==> agreed && mode == SignUp && IsBlank(form.name)
    ensures r.None? <==> agreed && (mode == SignUp ==> !IsBlank(form.name))
  {
    if !agreed then Some(TermsError)
    else if mode == SignUp && IsBlank(form.name) then Some(NameError)
    else None
  }

  /** `err.message || 'AN ERROR OCCURRED!'`. */
  function ErrorText(message: string): (r: string)
    ensures r != ""
    ensures message != "" ==> r == message
  {
    if message != "" then message else FallbackError
  }

  /** The call a submit that passed validation makes: the name is passed as
      typed, not trimmed. */
  function CallFor(mode: Mode, form: FormData): (c: Call)
    ensures c != NoCall
    ensures mode == SignIn <==> c.SignInCall?
    ensures c.SignInCall? ==> c.email == form.email && c.password == form.password
    ensures c.SignUpCall? ==> c == SignUpCall(form.email, form.password, form.name, form.role)
  {
    match mode
    case SignIn => SignInCall(form.email, form.password)
    case SignUp => SignUpCall(form.email, form.password, form.name, form.role)
  }

  function SetField(form: FormData, field: Field, value: string): (r: FormData)
    ensures field == Email ==> r == form.(email := value)
    ensures field == Password ==> r == form.(password := value)
    ensures field == Name ==> r == form.(name := value)
    ensures field == Role ==> r == form.(role := value)
  {
    match field
    case Email => form.(email := value)
    case Password => form.(password := value)
    case Name => form.(name := value)
    case Role => form.(role := value)
  }

  class Dialog {
    var mode: Mode
    var form: FormData
    var isLoading: bool
    var error: string
    var agreedToTerms: bool

    constructor ()
      ensures mode == SignIn && form == EmptyForm && !isLoading && error == "" && !agreedToTerms
    {
      mode := SignIn;
      form := EmptyForm;
      isLoading := false;
      error := "";
      agreedToTerms := false;
    }

    /** `handleSubmit`, with `outcome` standing for how the awaited call ends.
        A failed check makes no call and shows its message; otherwise the call
        is made and its error, if any, is shown. Loading is over either way,
        and the form, mode and terms box are untouched. */
    method Submit(outcome: Outcome) returns (call: Call)
      modifies this`isLoading, this`error
      ensures var check := Validate(mode, form, agreedToTerms);
        && (check.Some? ==> call == NoCall && error == check.value)
        && (check.None? ==> call == CallFor(mode, form))
        && (check.None? && outcome == Succeeded ==> error == "")
        && (check.None? && outcome.Threw? ==> error == ErrorText(outcome.message))
      ensures !isLoading
    {
      isLoading := true;
      error := "";
      var check := Validate(mode, form, agreedToTerms);
      if check.Some? {
        call := NoCall;
        error := check.value;
      } else {
        call := CallFor(mode, form);
        if outcome.Threw? {
          error := ErrorText(outcome.message);
        }
      }
      isLoading := false;
    }

    /** `handleInputChange(field, value)`: the field takes the value and the
        error line is cleared. */
    method InputChange(field: Field, value: string)
      modifies this`form, this`error
      ensures form == SetField(old(form), field, value)
      ensures error == ""
    {
      form := SetField(form, field, value);
      if error != "" {
        error := "";
      }
    }

    /** `handleModeChange(newMode)`: the error is cleared and the terms box
        unticked; the form keeps what was typed. */
    method ModeChange(newMode: Mode)
      modifies this`mode, this`error, this`agreedToTerms
      ensures mode == newMode && error == "" && !agreedToTerms
    {
      mode := newMode;
      error := "";
      agreedToTerms := false;
    }

    /** The terms box: ticking it clears the error; unticking keeps it. */
    method SetAgreed(checked: bool)
      modifies this`agreedToTerms, this`error
      ensures agreedToTerms == checked
      ensures error == if checked then "" else old(error)
    {
      agreedToTerms := checked;
      if error != "" && checked {
        error := "";
      }
    }
  }
}
