/** The login page of `src/pages/Login.jsx`: the two required fields,
    where a successful login goes, and what a failed one shows. */
module LoginPage {
  import opened Text
  import opened Domain

  /** The login form, sent to the session context as typed. */
  datatype Credentials = Credentials(username: string, password: string)

  const UsernameRequired: string := "Username is required"
  const PasswordRequired: string := "Password is required"
  const DefaultTarget: string := "/dashboard"
  const InvalidCredentials: string := "Invalid username or password"
  const UnexpectedError: string := "An unexpected error occurred. Please try again."

  /** The errors `validateForm` returns: the username is required after
      trimming, the password is required as typed. */
  function FormErrors(c: Credentials): (r: Errors)
    ensures "username" in r <==> IsBlank(c.username)
    ensures "password" in r <==> c.password == ""
    ensures r.Keys <= {"username", "password"}
    ensures "username" in r ==> r["username"] == UsernameRequired
    ensures "password" in r ==> r["password"] == PasswordRequired
  {
    var e1: Errors := if IsBlank(c.username) then map["username" := UsernameRequired] else map[];
    if c.password == "" then e1["password" := PasswordRequired] else e1
  }

  /** A form passes iff the username has a non-space character and the
      password is non-empty; a password of spaces alone passes, while a
      username of spaces alone does not. */
  lemma FormErrorsEmpty(c: Credentials)
    ensures FormErrors(c) == map[] <==> !IsBlank(c.username) && c.password != ""
    ensures c.password != "" && AllSpace(c.password) && !IsBlank(c.username) ==> FormErrors(c) == map[]
    ensures c.username != "" && AllSpace(c.username) ==> "username" in FormErrors(c)
  {
    if FormErrors(c) != map[] {
      var k :| k in FormErrors(c);
    }
  }

  /** Where a successful login goes: the page the user was sent away
      from, `location.state?.from?.pathname`, or the dashboard when it is
      missing or empty. */
  function RedirectTarget(fromPath: Option<string>): (r: string)
    ensures fromPath.Some? && fromPath.value != "" ==> r == fromPath.value
    ensures fromPath.None? || fromPath.value == "" ==> r == DefaultTarget
    ensures r != ""
  {
    if fromPath.Some? then Or(fromPath.value, DefaultTarget) else DefaultTarget
  }

  /** `{ ...prev, [name]: value }` on the login form. */
  function SetField(c: Credentials, name: string, value: string): (r: Credentials)
    ensures name == "username" ==> r == c.(username := value)
    ensures name == "password" ==> r == c.(password := value)
    ensures name != "username" && name != "password" ==> r == c
  {
    if name == "username" then c.(username := value)
    else if name == "password" then c.(password := value)
    else c
  }

  class LoginPage {
    var formData: Credentials
    var errors: Errors
    var generalError: string

    constructor ()
      ensures formData == Credentials("", "") && errors == map[] && generalError == ""
    {
      formData := Credentials("", "");
      errors := map[];
      generalError := "";
    }

    /** `handleChange`: the field is stored and its error alone cleared. */
    method HandleChange(name: string, value: string)
      modifies this
      ensures formData == SetField(old(formData), name, value)
      ensures errors == ClearFieldError(old(errors), name)
      ensures generalError == old(generalError)
    {
      formData := SetField(formData, name, value);
      if name in errors && errors[name] != "" {
        errors := errors[name := ""];
      }
    }

    /** `validateForm`: each rule adds its message to `newErrors`. */
    method ValidateForm() returns (newErrors: Errors)
      ensures newErrors == FormErrors(formData)
    {
      newErrors := map[];
      if Trim(formData.username) == "" {
        newErrors := newErrors["username" := UsernameRequired];
      }
      if formData.password == "" {
        newErrors := newErrors["password" := PasswordRequired];
      }
    }

    /** `handleSubmit`: any validation error stops the login; otherwise
        the form is sent as typed, and the reply either navigates to the
        redirect target or shows the reply's error, or a fallback. */
    method HandleSubmit(fromPath: Option<string>, reply: Reply)
      returns (sent: Option<Credentials>, navigated: Option<string>)
      modifies this
      ensures sent.Some? <==> FormErrors(old(formData)) == map[]
      ensures sent.None? ==> errors == FormErrors(old(formData)) && generalError == old(generalError) && navigated.None?
      ensures sent.Some? ==> sent.value == old(formData) && errors == old(errors)
      ensures sent.Some? && reply.Accepted? ==> navigated == Some(RedirectTarget(fromPath)) && generalError == ""
      ensures sent.Some? && reply.Refused? ==> navigated.None? && generalError == Or(reply.error, InvalidCredentials)
      ensures sent.Some? && reply.Threw? ==> navigated.None? && generalError == UnexpectedError
      ensures formData == old(formData)
    {
      var validationErrors := ValidateForm();
      if validationErrors != map[] {
        errors := validationErrors;
        return None, None;
      }
      generalError := "";
      sent := Some(formData);
      navigated := None;
      match reply {
        case Accepted(_) =>
          generalError := "";
          navigated := Some(RedirectTarget(fromPath));
        case Refused(e) =>
          generalError := Or(e, InvalidCredentials);
        case Threw =>
          generalError := UnexpectedError;
      }
    }
  }
}
