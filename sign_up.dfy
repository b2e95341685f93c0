/**
  The registration form of frontend/finsrisk/src/pages/Auth/SignUp.jsx:
  its two own validators, the validity test that enables the submit
  button, and the three handlers that update the component's state
  records (`formData`, `fieldErrors`, `touched`, `error`, `success`,
  `isLoading`).
*/
module SignUp {
  import opened Wrappers
  import opened ApiClient
  import Validators

  const NameRequired := "Name is required."
  const NameTooShort := "Name must be at least 2 characters long."
  const NameTooLong := "Name must be less than 50 characters."
  const ConfirmMismatch := "Please confirm your password correctly."
  /** The second mismatch message, behind a test the first one already answered. */
  const PasswordsDiffer := "Passwords do not match."
  const RegistrationSuccessful := "Registration successful"
  const RegistrationFailed := "Registration failed. Please try again."

  /** The status the registration endpoint answers a created account with. */
  const Created := 201

  /** The `name` attribute of the form's inputs. */
  datatype Field = Name | Email | Password | ConfirmPassword

  /** One entry per input, the shape of each of the component's state records. */
  datatype Fields<T> = Fields(name: T, email: T, password: T, confirmPassword: T)
  {
    function Get(f: Field): T
    {
      match f
      case Name => name
      case Email => email
      case Password => password
      case ConfirmPassword => confirmPassword
    }

    /** `{ ...prev, [f]: v }`. */
    function Set(f: Field, v: T): (r: Fields<T>)
      ensures r.Get(f) == v
      ensures forall g :: g != f ==> r.Get(g) == Get(g)
    {
      match f
      case Name => this.(name := v)
      case Email => this.(email := v)
      case Password => this.(password := v)
      case ConfirmPassword => this.(confirmPassword := v)
    }
  }

  const Blank := Fields("", "", "", "")
  const Untouched := Fields(false, false, false, false)
  const AllTouched := Fields(true, true, true, true)

  /** `validateName`: required, then between 2 and 50 characters. */
  function ValidateName(name: string): (r: string)
    ensures r == NameRequired <==> name == ""
    ensures r == NameTooShort <==> |name| == 1
    ensures r == NameTooLong <==> |name| > 50
    ensures r == "" <==> 2 <= |name| <= 50
  {
    if name == "" then NameRequired
    else if |name| < 2 then NameTooShort
    else if |name| > 50 then NameTooLong
    else ""
  }

  /**
    `validateConfirmPassword`: the empty string exactly when the two match;
    every mismatch is reported by the first test, so the second message is
    never produced.
  */
  function ValidateConfirmPassword(confirmPassword: string, password: string): (r: string)
    ensures r == "" <==> confirmPassword == password
    ensures r == ConfirmMismatch <==> confirmPassword != password
    ensures r != PasswordsDiffer
  {
    if confirmPassword != password then ConfirmMismatch
    else if confirmPassword != password then PasswordsDiffer
    else ""
  }

  /** The validator the form applies to field `f` of `data`. */
  function Validate(f: Field, data: Fields<string>): (r: string)
    ensures f == Name ==> (r == "" <==> 2 <= |data.name| <= 50)
    ensures f == Email ==> (r == "" <==> data.email != "" && Validators.MatchesEmailPattern(data.email))
    ensures f == Password ==> (r == "" <==> |data.password| >= Validators.MinPasswordLength)
    ensures f == ConfirmPassword ==> (r == "" <==> data.confirmPassword == data.password)
  {
    match f
    case Name => ValidateName(data.name)
    case Email => Validators.ValidatedEmail(data.email)
    case Password => Validators.ValidatedPassword(data.password)
    case ConfirmPassword => ValidateConfirmPassword(data.confirmPassword, data.password)
  }

  /** The four validators' messages for `data`, in the shape of `fieldErrors`. */
  function ErrorsOf(data: Fields<string>): (e: Fields<string>)
    ensures forall f :: e.Get(f) == Validate(f, data)
  {
    Fields(Validate(Name, data), Validate(Email, data), Validate(Password, data), Validate(ConfirmPassword, data))
  }

  /**
    `isFormValid`: no validator objects and no field is empty. A valid form
    is one with a 2 to 50 character name, an address of the form
    `local@domain.tld`, a password of at least six characters and a matching
    confirmation; the emptiness tests add nothing to the validators.
  */
  function IsFormValid(data: Fields<string>): (b: bool)
    ensures b <==> forall f :: Validate(f, data) == ""
    ensures b <==>
      && 2 <= |data.name| <= 50
      && data.email != "" && Validators.MatchesEmailPattern(data.email)
      && |data.password| >= Validators.MinPasswordLength
      && data.confirmPassword == data.password
  {
    var ok := ValidateName(data.name) == "" && Validators.ValidatedEmail(data.email) == ""
      && Validators.ValidatedPassword(data.password) == ""
      && ValidateConfirmPassword(data.confirmPassword, data.password) == ""
      && data.name != "" && data.email != "" && data.password != "" && data.confirmPassword != "";
    assert (forall f :: Validate(f, data) == "") <==>
      Validate(Name, data) == "" && Validate(Email, data) == "" && Validate(Password, data) == ""
      && Validate(ConfirmPassword, data) == "";
    ok
  }

  /** The component's state between events. */
  datatype FormState = FormState(
    formData: Fields<string>,
    fieldErrors: Fields<string>,
    touched: Fields<bool>,
    error: string,
    success: string,
    isLoading: bool)

  /** The state of a freshly mounted form. */
  const Initial := FormState(Blank, Blank, Untouched, "", "", false)

  /**
    `handleInputChange`: stores the new value; only a touched field is
    revalidated, against the new value; editing a touched password also
    revalidates a touched confirmation against the new password; the form
    level error is cleared; nothing else changes.
  */
  function InputChange(s: FormState, f: Field, value: string): (t: FormState)
    ensures t.formData == s.formData.Set(f, value)
    ensures t.touched == s.touched && t.success == s.success && t.isLoading == s.isLoading
    ensures t.error == ""
    ensures s.touched.Get(f) ==> t.fieldErrors.Get(f) == Validate(f, t.formData)
    ensures f == Password && s.touched.password && s.touched.confirmPassword ==>
      t.fieldErrors.confirmPassword == Validate(ConfirmPassword, t.formData)
    ensures forall g ::
      && (g != f || !s.touched.Get(f))
      && !(f == Password && g == ConfirmPassword && s.touched.password && s.touched.confirmPassword)
      ==> t.fieldErrors.Get(g) == s.fieldErrors.Get(g)
  {
    var errors :=
      if !s.touched.Get(f) then s.fieldErrors
      else match f
        case Name => s.fieldErrors.(name := ValidateName(value))
        case Email => s.fieldErrors.(email := Validators.ValidatedEmail(value))
        case Password =>
          var e := s.fieldErrors.(password := Validators.ValidatedPassword(value));
          if s.touched.confirmPassword then e.(confirmPassword := ValidateConfirmPassword(s.formData.confirmPassword, value))
          else e
        case ConfirmPassword => s.fieldErrors.(confirmPassword := ValidateConfirmPassword(value, s.formData.password));
    s.(formData := s.formData.Set(f, value), fieldErrors := errors, error := "")
  }

  /** `handleBlur`: marks the field touched and shows its validator's message for the stored value. */
  function Blur(s: FormState, f: Field): (t: FormState)
    ensures t.touched == s.touched.Set(f, true)
    ensures t.fieldErrors == s.fieldErrors.Set(f, Validate(f, s.formData))
    ensures t.formData == s.formData && t.error == s.error && t.success == s.success && t.isLoading == s.isLoading
  {
    s.(touched := s.touched.Set(f, true), fieldErrors := s.fieldErrors.Set(f, Validate(f, s.formData)))
  }

  /** The body posted to the registration endpoint. */
  datatype Registration = Registration(username: string, email: string, password: string)

  datatype SubmitOutcome = SubmitOutcome(state: FormState, sent: Option<Registration>)

  /**
    `handleSubmit`, with `response` standing for what the client delivers if
    a request is made. An invalid form shows every validator's message,
    touches every field and sends nothing. A valid form posts the name,
    address and password; a resolved request clears the form and its
    touched flags, and reports success exactly for status 201; a rejected
    one keeps the form and shows the server's message or a fallback. The
    loading flag is down again at the end.
  */
  function Submit(s: FormState, response: Response): (o: SubmitOutcome)
    ensures o.sent.Some? <==> IsFormValid(s.formData)
    ensures o.sent.None? ==>
      o.state == s.(fieldErrors := ErrorsOf(s.formData), touched := AllTouched)
    ensures o.sent.Some? ==>
      && o.sent.value == Registration(s.formData.name, s.formData.email, s.formData.password)
      && o.state.fieldErrors == s.fieldErrors
      && !o.state.isLoading
      && (o.state.success == RegistrationSuccessful <==> response.Answer? && response.status == Created)
      && (o.state.success != RegistrationSuccessful ==> o.state.success == "")
    ensures o.sent.Some? && response.Answer? ==>
      o.state.formData == Blank && o.state.touched == Untouched && o.state.error == ""
    ensures o.sent.Some? && response.Thrown? ==>
      && o.state.formData == s.formData && o.state.touched == s.touched
      && o.state.error == MessageOr(response.message, RegistrationFailed) && o.state.error != ""
  {
    var data := s.formData;
    var errors := Fields(ValidateName(data.name), Validators.ValidatedEmail(data.email),
                         Validators.ValidatedPassword(data.password),
                         ValidateConfirmPassword(data.confirmPassword, data.password));
    assert errors == ErrorsOf(data);
    if errors.name != "" || errors.email != "" || errors.password != "" || errors.confirmPassword != "" then
      SubmitOutcome(s.(fieldErrors := errors, touched := AllTouched), None)
    else
      var sent := Registration(data.name, data.email, data.password);
      match response
      case Answer(status, _, _) =>
        var success := if status == Created then RegistrationSuccessful else "";
        SubmitOutcome(s.(formData := Blank, touched := Untouched, error := "", success := success, isLoading := false),
                      Some(sent))
      case Thrown(message) =>
        SubmitOutcome(s.(error := MessageOr(message, RegistrationFailed), success := "", isLoading := false), Some(sent))
  }

  /** Every message the form shows (a touched field's error) is the validator's verdict on the field's current value. */
  predicate Consistent(s: FormState)
  {
    forall f :: s.touched.Get(f) ==> s.fieldErrors.Get(f) == Validate(f, s.formData)
  }

  lemma InitialConsistent()
    ensures Consistent(Initial)
  {
  }

  /** Leaving a field keeps the shown messages current. */
  lemma BlurKeepsConsistent(s: FormState, f: Field)
    requires Consistent(s)
    ensures Consistent(Blur(s, f))
  {
    var t := Blur(s, f);
    forall g | t.touched.Get(g) ensures t.fieldErrors.Get(g) == Validate(g, t.formData) {
      if g != f {
        assert s.touched.Get(g);
      }
    }
  }

  /** Submitting keeps the shown messages current, whatever the response. */
  lemma SubmitKeepsConsistent(s: FormState, response: Response)
    requires Consistent(s)
    ensures Consistent(Submit(s, response).state)
  {
  }

  /**
    Typing keeps the shown messages current in every case but one: a new
    password typed while the password is untouched leaves a touched
    confirmation's message as it was (`StaleConfirmation` shows it).
  */
  lemma InputChangeKeepsConsistent(s: FormState, f: Field, value: string)
    requires Consistent(s)
    requires !(f == Password && !s.touched.password && s.touched.confirmPassword)
    ensures Consistent(InputChange(s, f, value))
  {
    var t := InputChange(s, f, value);
    forall g | t.touched.Get(g) ensures t.fieldErrors.Get(g) == Validate(g, t.formData) {
      assert s.touched.Get(g);
      if g != f && !(f == Password && g == ConfirmPassword) {
        assert t.formData.Get(g) == s.formData.Get(g);
        assert Validate(g, t.formData) == Validate(g, s.formData) by {
          if g == ConfirmPassword {
            assert f != Password && f != ConfirmPassword;
          }
        }
      }
    }
  }

  /**
    The one case `InputChangeKeepsConsistent` excludes does lose currency:
    after blurring only the confirmation, typing a new password leaves the
    confirmation showing no error although it no longer matches.
  */
  lemma StaleConfirmation()
    ensures var s := Blur(Initial, ConfirmPassword);
      && Consistent(s)
      && !Consistent(InputChange(s, Password, "secret1"))
  {
    var s := Blur(Initial, ConfirmPassword);
    var t := InputChange(s, Password, "secret1");
    assert t.touched.Get(ConfirmPassword);
    assert t.fieldErrors.confirmPassword == "";
    assert Validate(ConfirmPassword, t.formData) == ConfirmMismatch;
  }

  /** A successful registration leaves a blank, untouched form showing no messages. */
  lemma RegisteredFormIsBlank(s: FormState, status: int, token: Option<string>, message: Option<string>)
    requires IsFormValid(s.formData)
    ensures var t := Submit(s, Answer(status, token, message)).state;
      t.formData == Blank && t.touched == Untouched && Consistent(t) && !IsFormValid(t.formData)
  {
  }

  /** The component, with one field per state record and one method per handler. */
  class SignUpForm {
    var formData: Fields<string>
    var fieldErrors: Fields<string>
    var touched: Fields<bool>
    var error: string
    var success: string
    var isLoading: bool

    function State(): FormState
      reads this
    {
      FormState(formData, fieldErrors, touched, error, success, isLoading)
    }

    /** The `useState` initial values. */
    constructor()
      ensures State() == Initial
    {
      formData := Blank;
      fieldErrors := Blank;
      touched := Untouched;
      error := "";
      success := "";
      isLoading := false;
    }

    method HandleInputChange(name: Field, value: string)
      modifies this
      ensures State() == InputChange(old(State()), name, value)
    {
      var rendered := formData;      // the values the handler's closure saw
      formData := formData.Set(name, value);
      if touched.Get(name) {
        var newFieldErrors := fieldErrors;
        if name == Name {
          newFieldErrors := newFieldErrors.(name := ValidateName(value));
        } else if name == Email {
          newFieldErrors := newFieldErrors.(email := Validators.ValidatedEmail(value));
        } else if name == Password {
          newFieldErrors := newFieldErrors.(password := Validators.ValidatedPassword(value));
          if touched.confirmPassword {
            newFieldErrors := newFieldErrors.(confirmPassword := ValidateConfirmPassword(rendered.confirmPassword, value));
          }
        } else {
          newFieldErrors := newFieldErrors.(confirmPassword := ValidateConfirmPassword(value, rendered.password));
        }
        fieldErrors := newFieldErrors;
      }
      if error != "" {
        error := "";
      }
    }

    method HandleBlur(name: Field)
      modifies this
      ensures State() == Blur(old(State()), name)
    {
      touched := touched.Set(name, true);
      var newFieldErrors := fieldErrors;
      if name == Name {
        newFieldErrors := newFieldErrors.(name := ValidateName(formData.name));
      } else if name == Email {
        newFieldErrors := newFieldErrors.(email := Validators.ValidatedEmail(formData.email));
      } else if name == Password {
        newFieldErrors := newFieldErrors.(password := Validators.ValidatedPassword(formData.password));
      } else {
        newFieldErrors := newFieldErrors.(confirmPassword := ValidateConfirmPassword(formData.confirmPassword, formData.password));
      }
      fieldErrors := newFieldErrors;
    }

    method HandleSubmit(response: Response) returns (sent: Option<Registration>)
      modifies this
      ensures State() == Submit(old(State()), response).state
      ensures sent == Submit(old(State()), response).sent
    {
      var nameError := ValidateName(formData.name);
      var emailError := Validators.ValidatedEmail(formData.email);
      var passwordError := Validators.ValidatedPassword(formData.password);
      var confirmPasswordError := ValidateConfirmPassword(formData.confirmPassword, formData.password);
      if nameError != "" || emailError != "" || passwordError != "" || confirmPasswordError != "" {
        fieldErrors := Fields(nameError, emailError, passwordError, confirmPasswordError);
        touched := AllTouched;
        return None;
      }
      isLoading := true;
      error := "";
      success := "";
      sent := Some(Registration(formData.name, formData.email, formData.password));
      match response {
        case Answer(status, _, _) =>
          if status == Created {
            success := RegistrationSuccessful;
          }
          formData := Blank;
          touched := Untouched;
        case Thrown(message) =>
          error := MessageOr(message, RegistrationFailed);
      }
      isLoading := false;
    }
  }
}
