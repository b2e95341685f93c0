/**
  The sign-in form of frontend/finsrisk/src/pages/Auth/Login.jsx: the
  validity test that enables the submit button and the three handlers that
  update the component's state records.
*/
module Login {
  import opened Wrappers
  import opened ApiClient
  import Validators

  const LoginSuccessful := "Login successful"
  const InvalidCredentials := "Invalid Credentials. Please try again."
  const LoginFailed := "An error occurred. Please try again."

  /** The status the sign-in endpoint answers accepted credentials with. */
  const Accepted := 200

  /** The `name` attribute of the form's inputs. */
  datatype Field = Email | Password

  /** One entry per input, the shape of each of the component's state records. */
  datatype Pair<T> = Pair(email: T, password: T)
  {
    function Get(f: Field): T
    {
      match f
      case Email => email
      case Password => password
    }

    /** `{ ...prev, [f]: v }`. */
    function Set(f: Field, v: T): (r: Pair<T>)
      ensures r.Get(f) == v
      ensures forall g :: g != f ==> r.Get(g) == Get(g)
    {
      match f
      case Email => this.(email := v)
      case Password => this.(password := v)
    }
  }

  const Blank := Pair("", "")
  const Untouched := Pair(false, false)
  const AllTouched := Pair(true, true)

  /** The validator the form applies to field `f` of `data`. */
  function Validate(f: Field, data: Pair<string>): (r: string)
    ensures f == Email ==> (r == "" <==> data.email != "" && Validators.MatchesEmailPattern(data.email))
    ensures f == Password ==> (r == "" <==> |data.password| >= Validators.MinPasswordLength)
  {
    match f
    case Email => Validators.ValidatedEmail(data.email)
    case Password => Validators.ValidatedPassword(data.password)
  }

  /** Both validators' messages for `data`, in the shape of `fieldErrors`. */
  function ErrorsOf(data: Pair<string>): (e: Pair<string>)
    ensures forall f :: e.Get(f) == Validate(f, data)
  {
    Pair(Validate(Email, data), Validate(Password, data))
  }

  /**
    `isFormValid`: neither validator objects and neither field is empty,
    which is to say an address of the form `local@domain.tld` and a password
    of at least six characters.
  */
  function IsFormValid(data: Pair<string>): (b: bool)
    ensures b <==> forall f :: Validate(f, data) == ""
    ensures b <==>
      && data.email != "" && Validators.MatchesEmailPattern(data.email)
      && |data.password| >= Validators.MinPasswordLength
  {
    var ok := Validators.ValidatedEmail(data.email) == "" && Validators.ValidatedPassword(data.password) == ""
      && data.email != "" && data.password != "";
    assert (forall f :: Validate(f, data) == "") <==> Validate(Email, data) == "" && Validate(Password, data) == "";
    ok
  }

  /** The component's state between events. */
  datatype FormState = FormState(
    formData: Pair<string>,
    fieldErrors: Pair<string>,
    touched: Pair<bool>,
    error: string,
    success: string,
    isLoading: bool)

  /** The state of a freshly mounted form. */
  const Initial := FormState(Blank, Blank, Untouched, "", "", false)

  /**
    `handleInputChange`: stores the new value, revalidates the field
    against it only when the field is touched, and clears the form level
    error; nothing else changes.
  */
  function InputChange(s: FormState, f: Field, value: string): (t: FormState)
    ensures t.formData == s.formData.Set(f, value)
    ensures t.touched == s.touched && t.success == s.success && t.isLoading == s.isLoading
    ensures t.error == ""
    ensures s.touched.Get(f) ==> t.fieldErrors == s.fieldErrors.Set(f, Validate(f, t.formData))
    ensures !s.touched.Get(f) ==> t.fieldErrors == s.fieldErrors
  {
    var errors :=
      if !s.touched.Get(f) then s.fieldErrors
      else match f
        case Email => s.fieldErrors.(email := Validators.ValidatedEmail(value))
        case Password => s.fieldErrors.(password := Validators.ValidatedPassword(value));
    s.(formData := s.formData.Set(f, value), fieldErrors := errors, error := "")
  }

  /** `handleBlur`: marks the field touched and shows its validator's message for the stored value. */
  function Blur(s: FormState, f: Field): (t: FormState)
    ensures t.touched == s.touched.Set(f, true)
    ensures t.fieldErrors == s.fieldErrors.Set(f, Validate(f, s.formData))
    ensures t.formData == s.formData && t.error == s.error && t.success == s.success && t.isLoading == s.isLoading
  {
    s.(touched := s.touched.Set(f, true), fieldErrors := s.fieldErrors.Set(f, Validate(f, s.formData)))
  }

  datatype SubmitOutcome = SubmitOutcome(state: FormState, sent: Option<Pair<string>>)

  /**
    `handleSubmit`, with `response` standing for what the client delivers if
    a request is made. An invalid form shows both messages, touches both
    fields and sends nothing. A valid form posts its data unchanged and
    keeps it; success is reported exactly for status 200 with a token;
    status 200 without a token reports nothing; any other resolved status
    shows the server's message or the credentials fallback, and a rejection
    the server's message or the generic fallback. The loading flag is down
    again at the end.
  */
  function Submit(s: FormState, response: Response): (o: SubmitOutcome)
    ensures o.sent.Some? <==> IsFormValid(s.formData)
    ensures o.sent.None? ==>
      o.state == s.(fieldErrors := ErrorsOf(s.formData), touched := AllTouched)
    ensures o.sent.Some? ==>
      && o.sent.value == s.formData
      && o.state.formData == s.formData && o.state.fieldErrors == s.fieldErrors && o.state.touched == s.touched
      && !o.state.isLoading
      && (o.state.success == LoginSuccessful <==> response.Answer? && response.status == Accepted && Present(response.token))
      && (o.state.success != LoginSuccessful ==> o.state.success == "")
      && (o.state.error == "" <==> response.Answer? && response.status == Accepted)
    ensures o.sent.Some? && response.Answer? && response.status != Accepted ==>
      o.state.error == MessageOr(response.message, InvalidCredentials)
    ensures o.sent.Some? && response.Thrown? ==>
      o.state.error == MessageOr(response.message, LoginFailed)
  {
    var emailError := Validators.ValidatedEmail(s.formData.email);
    var passwordError := Validators.ValidatedPassword(s.formData.password);
    assert Pair(emailError, passwordError) == ErrorsOf(s.formData);
    if emailError != "" || passwordError != "" then
      SubmitOutcome(s.(fieldErrors := Pair(emailError, passwordError), touched := AllTouched), None)
    else
      var loading := s.(isLoading := true, error := "", success := "");
      var settled :=
        match response
        case Answer(status, token, message) =>
          if status == Accepted then
            if Present(token) then loading.(success := LoginSuccessful) else loading
          else loading.(error := MessageOr(message, InvalidCredentials))
        case Thrown(message) => loading.(error := MessageOr(message, LoginFailed));
      SubmitOutcome(settled.(isLoading := false), Some(s.formData))
  }

  /** Every message the form shows (a touched field's error) is the validator's verdict on the field's current value. */
  predicate Consistent(s: FormState)
  {
    forall f :: s.touched.Get(f) ==> s.fieldErrors.Get(f) == Validate(f, s.formData)
  }

  lemma InitialConsistent()
    ensures Consistent(Initial)
  {
  }

  /** Typing keeps the shown messages current. */
  lemma InputChangeKeepsConsistent(s: FormState, f: Field, value: string)
    requires Consistent(s)
    ensures Consistent(InputChange(s, f, value))
  {
    var t := InputChange(s, f, value);
    forall g | t.touched.Get(g) ensures t.fieldErrors.Get(g) == Validate(g, t.formData) {
      assert s.touched.Get(g);
      if g != f {
        assert t.formData.Get(g) == s.formData.Get(g);
        assert Validate(g, t.formData) == Validate(g, s.formData);
      }
    }
  }

  /** Leaving a field keeps the shown messages current. */
  lemma BlurKeepsConsistent(s: FormState, f: Field)
    requires Consistent(s)
    ensures Consistent(Blur(s, f))
  {
    var t := Blur(s, f);
    forall g | t.touched.Get(g) ensures t.fieldErrors.Get(g) == Validate(g, t.formData) {
      if g != f {
        assert s.touched.Get(g);
      }
    }
  }

  /** Submitting keeps the shown messages current, whatever the response. */
  lemma SubmitKeepsConsistent(s: FormState, response: Response)
    requires Consistent(s)
    ensures Consistent(Submit(s, response).state)
  {
  }

  /** A valid form stays valid after a submit, so the same credentials can be sent again. */
  lemma SubmitKeepsForm(s: FormState, response: Response)
    requires IsFormValid(s.formData)
    ensures Submit(s, response).state.formData == s.formData
    ensures Submit(Submit(s, response).state, response).sent == Some(s.formData)
  {
  }

  /** The component, with one field per state record and one method per handler. */
  class LoginForm {
    var formData: Pair<string>
    var fieldErrors: Pair<string>
    var touched: Pair<bool>
    var error: string
    var success: string
    var isLoading: bool

    function State(): FormState
      reads this
    {
      FormState(formData, fieldErrors, touched, error, success, isLoading)
    }

    /** The `useState` initial values. */
    constructor()
      ensures State() == Initial
    {
      formData := Blank;
      fieldErrors := Blank;
      touched := Untouched;
      error := "";
      success := "";
      isLoading := false;
    }

    method HandleInputChange(name: Field, value: string)
      modifies this
      ensures State() == InputChange(old(State()), name, value)
    {
      formData := formData.Set(name, value);
      if touched.Get(name) {
        var newFieldErrors := fieldErrors;
        if name == Email {
          newFieldErrors := newFieldErrors.(email := Validators.ValidatedEmail(value));
        } else {
          newFieldErrors := newFieldErrors.(password := Validators.ValidatedPassword(value));
        }
        fieldErrors := newFieldErrors;
      }
      if error != "" {
        error := "";
      }
    }

    method HandleBlur(name: Field)
      modifies this
      ensures State() == Blur(old(State()), name)
    {
      touched := touched.Set(name, true);
      var newFieldErrors := fieldErrors;
      if name == Email {
        newFieldErrors := newFieldErrors.(email := Validators.ValidatedEmail(formData.email));
      } else {
        newFieldErrors := newFieldErrors.(password := Validators.ValidatedPassword(formData.password));
      }
      fieldErrors := newFieldErrors;
    }

    method HandleSubmit(response: Response) returns (sent: Option<Pair<string>>)
      modifies this
      ensures State() == Submit(old(State()), response).state
      ensures sent == Submit(old(State()), response).sent
    {
      var emailError := Validators.ValidatedEmail(formData.email);
      var passwordError := Validators.ValidatedPassword(formData.password);
      if emailError != "" || passwordError != "" {
        fieldErrors := Pair(emailError, passwordError);
        touched := AllTouched;
        return None;
      }
      isLoading := true;
      error := "";
      success := "";
      sent := Some(formData);
      match response {
        case Answer(status, token, message) =>
          if status == Accepted {
            if Present(token) {
              success := LoginSuccessful;
            }
          } else {
            error := MessageOr(message, InvalidCredentials);
          }
        case Thrown(message) =>
          error := MessageOr(message, LoginFailed);
      }
      isLoading := false;
    }
  }
}
