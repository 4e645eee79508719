/** The profile page of `src/pages/Profile.jsx`: the profile form and its
    e-mail pattern, the change-password form, cancelling an edit, and what
    the two submissions send. */
module ProfilePage {
  import opened Text
  import opened Domain

  // ---------------------------------------------------------------------
  // The e-mail pattern /^[^\s@]+@[^\s@]+\.[^\s@]+$/
  // ---------------------------------------------------------------------

  /** The character class `[^\s@]`. */
  predicate Plain(c: char)
  {
    !IsSpace(c) && c != '@'
  }

  /** `[^\s@]*`: every character of `s` is in the class. */
  predicate AllPlain(s: string)
  {
    forall i :: 0 <= i < |s| ==> Plain(s[i])
  }

  /** The strings the regular expression matches, as a language: an `@` at
      `k` and a `.` at `j` cut `s` into three non-empty runs of the class. */
  ghost predicate MatchesEmailPattern(s: string)
  {
    exists k, j :: 0 < k && k + 1 < j && j + 1 < |s| && s[k] == '@' && s[j] == '.' &&
      AllPlain(s[..k]) && AllPlain(s[k + 1..j]) && AllPlain(s[j + 1..])
  }

  /** The index of the first `@` of `s`, or `|s|` when there is none. */
  function FirstAt(s: string): (k: nat)
    ensures k <= |s|
    ensures k < |s| ==> s[k] == '@'
    ensures forall i :: 0 <= i < k ==> s[i] != '@'
  {
    if s == [] || s[0] == '@' then 0 else 1 + FirstAt(s[1..])
  }

  /** A `.` with at least one character on each side. */
  predicate HasInnerDot(d: string)
  {
    exists j :: 0 < j < |d| - 1 && d[j] == '.'
  }

  /** The test of the pattern: a non-empty local part before the first
      `@`, and a domain after it with no `@` and no white space holding an
      inner `.`. */
  predicate EmailShape(s: string)
  {
    var k := FirstAt(s);
    0 < k < |s| && AllPlain(s[..k]) && AllPlain(s[k + 1..]) && HasInnerDot(s[k + 1..])
  }

  /** `AllPlain` of a slice, read on the indices of the whole string. */
  lemma PlainSlice(s: string, lo: nat, hi: nat)
    requires lo <= hi <= |s|
    ensures AllPlain(s[lo..hi]) <==> forall i :: lo <= i < hi ==> Plain(s[i])
  {
    if AllPlain(s[lo..hi]) {
      forall i | lo <= i < hi ensures Plain(s[i]) {
        assert s[lo..hi][i - lo] == s[i];
      }
    }
    if forall i :: lo <= i < hi ==> Plain(s[i]) {
      forall i | 0 <= i < hi - lo ensures Plain(s[lo..hi][i]) {
        assert s[lo..hi][i] == s[lo + i];
      }
    }
  }

  /** The test agrees with the regular expression on every string. */
  lemma EmailShapeMatches(s: string)
    ensures EmailShape(s) <==> MatchesEmailPattern(s)
  {
    if EmailShape(s) {
      EmailShapeSound(s);
    }
    if MatchesEmailPattern(s) {
      EmailShapeComplete(s);
    }
  }

  /** Every address the test accepts matches the regular expression. */
  lemma EmailShapeSound(s: string)
    requires EmailShape(s)
    ensures MatchesEmailPattern(s)
  {
    var k := FirstAt(s);
    var d := s[k + 1..];
    var j' :| 0 < j' < |d| - 1 && d[j'] == '.';
    var j := k + 1 + j';
    assert s[j] == d[j'];
    assert s[..k] == s[0..k] && d == s[k + 1..|s|] && s[j + 1..] == s[j + 1..|s|];
    PlainSlice(s, k + 1, |s|);
    PlainSlice(s, k + 1, j);
    PlainSlice(s, j + 1, |s|);
  }

  /** Every string the regular expression matches passes the test: the
      `@` it splits on is the first one, since the local part has none. */
  lemma EmailShapeComplete(s: string)
    requires MatchesEmailPattern(s)
    ensures EmailShape(s)
  {
    var k, j :| 0 < k && k + 1 < j && j + 1 < |s| && s[k] == '@' && s[j] == '.' &&
      AllPlain(s[..k]) && AllPlain(s[k + 1..j]) && AllPlain(s[j + 1..]);
    assert s[..k] == s[0..k] && s[j + 1..] == s[j + 1..|s|];
    assert FirstAt(s) == k by {
      PlainSlice(s, 0, k);
    }
    var d := s[k + 1..];
    assert d == s[k + 1..|s|];
    PlainSlice(s, k + 1, j);
    PlainSlice(s, j + 1, |s|);
    assert Plain('.');
    forall i | k + 1 <= i < |s| ensures Plain(s[i]) {
      if i == j {
        assert s[i] == '.';
      }
    }
    PlainSlice(s, k + 1, |s|);
    assert AllPlain(d);
    assert HasInnerDot(d) by {
      assert d[j - k - 1] == '.';
    }
  }

  /** A matching address has no white space anywhere and exactly one `@`,
      after a non-empty local part; so trimming leaves it unchanged. */
  lemma EmailShapeProperties(s: string)
    requires EmailShape(s)
    ensures forall i :: 0 <= i < |s| ==> !IsSpace(s[i])
    ensures forall i :: 0 <= i < |s| && s[i] == '@' ==> i == FirstAt(s)
    ensures FirstAt(s) > 0
    ensures Trim(s) == s
  {
    var k := FirstAt(s);
    PlainOutsideAt(s);
    forall i | 0 <= i < |s| ensures !IsSpace(s[i]) {
      if i != k {
        assert Plain(s[i]);
      }
    }
    TrimOfUnspaced(s);
  }

  /** In an accepted address every character but the first `@` is in the
      class `[^\s@]`. */
  lemma PlainOutsideAt(s: string)
    requires EmailShape(s)
    ensures forall i :: 0 <= i < |s| && i != FirstAt(s) ==> Plain(s[i])
  {
    var k := FirstAt(s);
    assert s[..k] == s[0..k] && s[k + 1..] == s[k + 1..|s|];
    PlainSlice(s, 0, k);
    PlainSlice(s, k + 1, |s|);
  }

  /** A string without white space is its own trim. */
  lemma TrimOfUnspaced(s: string)
    requires forall i :: 0 <= i < |s| ==> !IsSpace(s[i])
    ensures Trim(s) == s
  {
    var a := LeadingSpace(s);
    var b := TrailingSpace(s);
    assert a == 0;
    assert s[0..] == s;
    if s != [] {
      assert b == 0;
    }
  }

  // ---------------------------------------------------------------------
  // validateForm
  // ---------------------------------------------------------------------

  /** The profile form; `username` is shown but never edited or sent. */
  datatype ProfileForm = ProfileForm(firstName: string, lastName: string, email: string, username: string)

  const FirstNameRequired: string := "First name is required"
  const LastNameRequired: string := "Last name is required"
  const EmailRequired: string := "Email is required"
  const EmailInvalid: string := "Please enter a valid email address"

  /** A field required after trimming. */
  function RequiredError(value: string, message: string): (r: Option<string>)
    ensures r.None? <==> !IsBlank(value)
    ensures r.Some? ==> r.value == message
  {
    if IsBlank(value) then Some(message) else None
  }

  /** The e-mail rule: required after trimming, then the pattern, matched
      on the address as typed. */
  function EmailError(email: string): (r: Option<string>)
    ensures r.None? <==> EmailShape(email)
    ensures IsBlank(email) ==> r == Some(EmailRequired)
    ensures !IsBlank(email) && !EmailShape(email) ==> r == Some(EmailInvalid)
  {
    if IsBlank(email) then
      assert !EmailShape(email) by {
        if EmailShape(email) {
          EmailShapeProperties(email);
        }
      }
      Some(EmailRequired)
    else if !EmailShape(email) then Some(EmailInvalid)
    else None
  }

  /** The errors `validateForm` returns. */
  function FormErrors(d: ProfileForm): (r: Errors)
    ensures r.Keys <= {"first_name", "last_name", "email"}
  {
    var e1 := Put(map[], "first_name", RequiredError(d.firstName, FirstNameRequired));
    var e2 := Put(e1, "last_name", RequiredError(d.lastName, LastNameRequired));
    Put(e2, "email", EmailError(d.email))
  }

  /** The profile form is valid iff both names are non-blank and the
      address matches the pattern. */
  lemma FormErrorsEmpty(d: ProfileForm)
    ensures FormErrors(d) == map[] <==> !IsBlank(d.firstName) && !IsBlank(d.lastName) && EmailShape(d.email)
  {
    var e1 := Put(map[], "first_name", RequiredError(d.firstName, FirstNameRequired));
    var e2 := Put(e1, "last_name", RequiredError(d.lastName, LastNameRequired));
    assert "first_name" in e1 ==> "first_name" in FormErrors(d);
    assert "last_name" in e2 ==> "last_name" in FormErrors(d);
  }

  // ---------------------------------------------------------------------
  // validatePasswordForm
  // ---------------------------------------------------------------------

  /** The change-password form. */
  datatype PasswordForm = PasswordForm(currentPassword: string, newPassword: string, confirmPassword: string)

  const EmptyPasswords: PasswordForm := PasswordForm("", "", "")

  const CurrentRequired: string := "Current password is required"
  const NewRequired: string := "New password is required"
  const NewTooShort: string := "Password must be at least 8 characters"
  const ConfirmRequired: string := "Please confirm your new password"
  const ConfirmMismatch: string := "Passwords do not match"

  /** The current password is required, untrimmed. */
  function CurrentError(p: string): (r: Option<string>)
    ensures r.None? <==> p != ""
    ensures r.Some? ==> r.value == CurrentRequired
  {
    if p == "" then Some(CurrentRequired) else None
  }

  /** The new password is required and at least eight characters long. */
  function NewError(p: string): (r: Option<string>)
    ensures r.None? <==> |p| >= 8
    ensures p == "" ==> r == Some(NewRequired)
    ensures 0 < |p| < 8 ==> r == Some(NewTooShort)
  {
    if p == "" then Some(NewRequired)
    else if |p| < 8 then Some(NewTooShort)
    else None
  }

  /** The confirmation is required and must equal the new password. */
  function ConfirmError(newPassword: string, confirm: string): (r: Option<string>)
    ensures r.None? <==> confirm != "" && confirm == newPassword
    ensures confirm == "" ==> r == Some(ConfirmRequired)
    ensures confirm != "" && confirm != newPassword ==> r == Some(ConfirmMismatch)
  {
    if confirm == "" then Some(ConfirmRequired)
    else if newPassword != confirm then Some(ConfirmMismatch)
    else None
  }

  /** The errors `validatePasswordForm` returns. */
  function PasswordErrors(p: PasswordForm): (r: Errors)
    ensures r.Keys <= {"current_password", "new_password", "confirm_password"}
  {
    var e1 := Put(map[], "current_password", CurrentError(p.currentPassword));
    var e2 := Put(e1, "new_password", NewError(p.newPassword));
    Put(e2, "confirm_password", ConfirmError(p.newPassword, p.confirmPassword))
  }

  /** The password form is valid iff the current password is given and
      the new one has at least eight characters and is confirmed exactly;
      a mismatch is reported on the confirmation only. */
  lemma PasswordErrorsEmpty(p: PasswordForm)
    ensures PasswordErrors(p) == map[] <==> p.currentPassword != "" && |p.newPassword| >= 8 && p.confirmPassword == p.newPassword
    ensures |p.newPassword| >= 8 && p.confirmPassword != "" && p.confirmPassword != p.newPassword ==>
      PasswordErrors(p) == PasswordErrors(p.(confirmPassword := p.newPassword))["confirm_password" := ConfirmMismatch]
  {
    var e1 := Put(map[], "current_password", CurrentError(p.currentPassword));
    var e2 := Put(e1, "new_password", NewError(p.newPassword));
    assert "current_password" in e1 ==> "current_password" in PasswordErrors(p);
    assert "new_password" in e2 ==> "new_password" in PasswordErrors(p);
  }

  // ---------------------------------------------------------------------
  // The stored profile and the submissions
  // ---------------------------------------------------------------------

  /** The profile the server returns; any field may be missing. */
  datatype StoredProfile = StoredProfile(
    firstName: Option<string>, lastName: Option<string>, email: Option<string>, username: Option<string>)

  /** `field || ''`. */
  function OrEmpty(o: Option<string>): (r: string)
    ensures o.Some? ==> r == o.value
    ensures o.None? ==> r == ""
  {
    if o.Some? then o.value else ""
  }

  /** The form filled from a stored profile, a missing field as `''`. */
  function FormOf(p: StoredProfile): (r: ProfileForm)
    ensures r.firstName == OrEmpty(p.firstName) && r.lastName == OrEmpty(p.lastName)
    ensures r.email == OrEmpty(p.email) && r.username == OrEmpty(p.username)
  {
    ProfileForm(OrEmpty(p.firstName), OrEmpty(p.lastName), OrEmpty(p.email), OrEmpty(p.username))
  }

  /** What `updateProfile` is sent: names and address, with no username. */
  datatype ProfileUpdate = ProfileUpdate(firstName: string, lastName: string, email: string)

  /** The submitted profile: the three fields trimmed. */
  function SubmitData(d: ProfileForm): (u: ProfileUpdate)
    ensures u.firstName == Trim(d.firstName) && u.lastName == Trim(d.lastName) && u.email == Trim(d.email)
  {
    ProfileUpdate(Trim(d.firstName), Trim(d.lastName), Trim(d.email))
  }

  /** A valid form sends non-empty names without surrounding white space,
      and the address exactly as typed, which matches the pattern. */
  lemma ValidProfileUpdate(d: ProfileForm)
    requires FormErrors(d) == map[]
    ensures var u := SubmitData(d);
      u.firstName != "" && u.lastName != "" &&
      !IsSpace(u.firstName[0]) && !IsSpace(u.firstName[|u.firstName| - 1]) &&
      u.email == d.email && EmailShape(u.email)
  {
    FormErrorsEmpty(d);
    EmailShapeProperties(d.email);
    TrimEnds(d.firstName);
  }

  /** `{ ...prev, [name]: value }` on the profile form; any other name adds
      nothing the page reads. */
  function SetField(d: ProfileForm, name: string, value: string): (r: ProfileForm)
    ensures name == "first_name" ==> r == d.(firstName := value)
    ensures name == "last_name" ==> r == d.(lastName := value)
    ensures name == "email" ==> r == d.(email := value)
    ensures name == "username" ==> r == d.(username := value)
    ensures name !in {"first_name", "last_name", "email", "username"} ==> r == d
  {
    if name == "first_name" then d.(firstName := value)
    else if name == "last_name" then d.(lastName := value)
    else if name == "email" then d.(email := value)
    else if name == "username" then d.(username := value)
    else d
  }

  /** `{ ...prev, [name]: value }` on the password form. */
  function SetPassword(p: PasswordForm, name: string, value: string): (r: PasswordForm)
    ensures name == "current_password" ==> r == p.(currentPassword := value)
    ensures name == "new_password" ==> r == p.(newPassword := value)
    ensures name == "confirm_password" ==> r == p.(confirmPassword := value)
    ensures name !in {"current_password", "new_password", "confirm_password"} ==> r == p
  {
    if name == "current_password" then p.(currentPassword := value)
    else if name == "new_password" then p.(newPassword := value)
    else if name == "confirm_password" then p.(confirmPassword := value)
    else p
  }

  const LoadFailed: string := "Failed to load profile data"
  const ProfileUpdated: string := "Profile updated successfully"
  const UpdateFailed: string := "Failed to update profile"
  const UpdateThrew: string := "An error occurred while updating profile"
  const PasswordChanged: string := "Password changed successfully"
  const ChangeFailed: string := "Failed to change password"
  const ChangeThrew: string := "An error occurred while changing password"

  /** One required-after-trimming rule of `validateForm`. */
  method CheckRequired(errs: Errors, key: string, value: string, message: string) returns (newErrors: Errors)
    ensures newErrors == Put(errs, key, RequiredError(value, message))
  {
    newErrors := errs;
    if Trim(value) == "" {
      newErrors := newErrors[key := message];
    }
  }

  /** The e-mail rule of `validateForm`. */
  method CheckEmail(errs: Errors, email: string) returns (newErrors: Errors)
    ensures newErrors == Put(errs, "email", EmailError(email))
  {
    newErrors := errs;
    if Trim(email) == "" {
      newErrors := newErrors["email" := EmailRequired];
    } else if !EmailShape(email) {
      newErrors := newErrors["email" := EmailInvalid];
    }
  }

  /** `validatePasswordForm`: each rule adds its message to `newErrors`. */
  method ValidatePasswords(p: PasswordForm) returns (newErrors: Errors)
    ensures newErrors == PasswordErrors(p)
  {
    newErrors := map[];
    if p.currentPassword == "" {
      newErrors := newErrors["current_password" := CurrentRequired];
    }
    if p.newPassword == "" {
      newErrors := newErrors["new_password" := NewRequired];
    } else if |p.newPassword| < 8 {
      newErrors := newErrors["new_password" := NewTooShort];
    }
    if p.confirmPassword == "" {
      newErrors := newErrors["confirm_password" := ConfirmRequired];
    } else if p.newPassword != p.confirmPassword {
      newErrors := newErrors["confirm_password" := ConfirmMismatch];
    }
  }

  // ---------------------------------------------------------------------
  // The page
  // ---------------------------------------------------------------------

  class ProfilePage {
    var profileData: Option<StoredProfile>
    var isEditing: bool
    var changingPassword: bool
    var formData: ProfileForm
    var passwordData: PasswordForm
    var errors: Errors
    var error: Option<string>
    var successMessage: string

    constructor ()
      ensures profileData.None? && !isEditing && !changingPassword
      ensures formData == ProfileForm("", "", "", "") && passwordData == EmptyPasswords
      ensures errors == map[] && error.None? && successMessage == ""
    {
      profileData := None;
      isEditing := false;
      changingPassword := false;
      formData := ProfileForm("", "", "", "");
      passwordData := EmptyPasswords;
      errors := map[];
      error := None;
      successMessage := "";
    }

    /** The end of `fetchProfileData`: a loaded profile is kept and fills
        the form; a failed load shows an error and leaves the form. */
    method ShowProfile(data: Option<StoredProfile>)
      modifies this
      ensures data.Some? ==> profileData == data && formData == FormOf(data.value) && error == old(error)
      ensures data.None? ==> profileData == old(profileData) && formData == old(formData) && error == Some(LoadFailed)
      ensures isEditing == old(isEditing) && errors == old(errors) && passwordData == old(passwordData)
      ensures changingPassword == old(changingPassword) && successMessage == old(successMessage)
    {
      if data.Some? {
        profileData := data;
        formData := FormOf(data.value);
      } else {
        error := Some(LoadFailed);
      }
    }

    /** `handleEditToggle`: leaving edit mode puts the stored profile back
        in the form and clears every error. With no profile loaded the
        reset throws, and nothing changes. */
    method HandleEditToggle() returns (thrown: bool)
      modifies this
      ensures thrown <==> old(isEditing) && old(profileData).None?
      ensures thrown ==> isEditing == old(isEditing) && formData == old(formData) && errors == old(errors)
      ensures !thrown ==> isEditing == !old(isEditing)
      ensures !thrown && old(isEditing) ==> profileData.Some? && formData == FormOf(profileData.value) && errors == map[]
      ensures !old(isEditing) ==> formData == old(formData) && errors == old(errors)
      ensures profileData == old(profileData) && passwordData == old(passwordData) && error == old(error)
      ensures changingPassword == old(changingPassword) && successMessage == old(successMessage)
    {
      if isEditing {
        if profileData.None? {
          return true;
        }
        formData := FormOf(profileData.value);
        errors := map[];
      }
      isEditing := !isEditing;
      thrown := false;
    }

    /** `handleChange`: the field is stored and its error alone cleared. */
    method HandleChange(name: string, value: string)
      modifies this
      ensures formData == SetField(old(formData), name, value)
      ensures errors == ClearFieldError(old(errors), name)
      ensures passwordData == old(passwordData) && isEditing == old(isEditing) && error == old(error)
      ensures profileData == old(profileData) && changingPassword == old(changingPassword) && successMessage == old(successMessage)
    {
      formData := SetField(formData, name, value);
      if name in errors && errors[name] != "" {
        errors := errors[name := ""];
      }
    }

    /** `handlePasswordChange`: the same on the password form. */
    method HandlePasswordChange(name: string, value: string)
      modifies this
      ensures passwordData == SetPassword(old(passwordData), name, value)
      ensures errors == ClearFieldError(old(errors), name)
      ensures formData == old(formData) && isEditing == old(isEditing) && error == old(error)
      ensures profileData == old(profileData) && changingPassword == old(changingPassword) && successMessage == old(successMessage)
    {
      passwordData := SetPassword(passwordData, name, value);
      if name in errors && errors[name] != "" {
        errors := errors[name := ""];
      }
    }

    /** `validateForm`: each rule adds its message to `newErrors`. */
    method ValidateForm() returns (newErrors: Errors)
      ensures newErrors == FormErrors(formData)
    {
      newErrors := CheckRequired(map[], "first_name", formData.firstName, FirstNameRequired);
      newErrors := CheckRequired(newErrors, "last_name", formData.lastName, LastNameRequired);
      newErrors := CheckEmail(newErrors, formData.email);
    }

    /** `handleSubmit`: an invalid form only shows its errors; a valid one
        sends the trimmed fields, and the reply leaves edit mode with a
        success message or shows an error. */
    method HandleSubmit(reply: Reply) returns (sent: Option<ProfileUpdate>)
      modifies this
      ensures sent.Some? <==> FormErrors(old(formData)) == map[]
      ensures sent.None? ==> errors == FormErrors(old(formData)) && isEditing == old(isEditing) &&
                             error == old(error) && successMessage == old(successMessage)
      ensures sent.Some? ==> sent.value == SubmitData(old(formData)) && errors == old(errors)
      ensures sent.Some? && reply.Accepted? ==>
        successMessage == ProfileUpdated && !isEditing && error == old(error)
      ensures sent.Some? && reply.Refused? ==>
        error == Some(Or(reply.error, UpdateFailed)) && isEditing == old(isEditing) && successMessage == old(successMessage)
      ensures sent.Some? && reply.Threw? ==>
        error == Some(UpdateThrew) && isEditing == old(isEditing) && successMessage == old(successMessage)
      ensures formData == old(formData) && passwordData == old(passwordData) && profileData == old(profileData)
      ensures changingPassword == old(changingPassword)
    {
      var validationErrors := ValidateForm();
      if validationErrors != map[] {
        errors := validationErrors;
        return None;
      }
      sent := Some(SubmitData(formData));
      ShowUpdateReply(reply);
    }

    /** The reply to `updateProfile`: success leaves edit mode with a
        message, a refusal shows its error or a fallback. */
    method ShowUpdateReply(reply: Reply)
      modifies this
      ensures reply.Accepted? ==> successMessage == ProfileUpdated && !isEditing && error == old(error)
      ensures reply.Refused? ==>
        error == Some(Or(reply.error, UpdateFailed)) && isEditing == old(isEditing) && successMessage == old(successMessage)
      ensures reply.Threw? ==>
        error == Some(UpdateThrew) && isEditing == old(isEditing) && successMessage == old(successMessage)
      ensures formData == old(formData) && passwordData == old(passwordData) && profileData == old(profileData)
      ensures errors == old(errors) && changingPassword == old(changingPassword)
    {
      match reply {
        case Accepted(_) =>
          successMessage := ProfileUpdated;
          isEditing := false;
        case Refused(e) =>
          error := Some(Or(e, UpdateFailed));
        case Threw =>
          error := Some(UpdateThrew);
      }
    }

    /** `handlePasswordSubmit`: an invalid form only shows its errors; a
        valid one sends the current and new passwords, and success closes
        the form and empties all three fields. */
    method HandlePasswordSubmit(reply: Reply) returns (sent: Option<(string, string)>)
      modifies this
      ensures sent.Some? <==> PasswordErrors(old(passwordData)) == map[]
      ensures sent.None? ==> errors == PasswordErrors(old(passwordData)) && passwordData == old(passwordData) &&
                             error == old(error) && changingPassword == old(changingPassword) &&
                             successMessage == old(successMessage)
      ensures sent.Some? ==> sent.value == (old(passwordData).currentPassword, old(passwordData).newPassword) && errors == old(errors)
      ensures sent.Some? && reply.Accepted? ==>
        successMessage == Or(reply.message, PasswordChanged) && !changingPassword &&
        passwordData == EmptyPasswords && error == old(error)
      ensures sent.Some? && reply.Refused? ==>
        error == Some(Or(reply.error, ChangeFailed)) && passwordData == old(passwordData) &&
        changingPassword == old(changingPassword) && successMessage == old(successMessage)
      ensures sent.Some? && reply.Threw? ==>
        error == Some(ChangeThrew) && passwordData == old(passwordData) && changingPassword == old(changingPassword) &&
        successMessage == old(successMessage)
      ensures formData == old(formData) && isEditing == old(isEditing) && profileData == old(profileData)
    {
      var validationErrors := ValidatePasswords(passwordData);
      if validationErrors != map[] {
        errors := validationErrors;
        return None;
      }
      sent := Some((passwordData.currentPassword, passwordData.newPassword));
      match reply {
        case Accepted(m) =>
          successMessage := Or(m, PasswordChanged);
          changingPassword := false;
          passwordData := EmptyPasswords;
        case Refused(e) =>
          error := Some(Or(e, ChangeFailed));
        case Threw =>
          error := Some(ChangeThrew);
      }
    }

    /** The password form's Cancel: the form closes, its fields are emptied
        and every error is cleared. */
    method CancelPasswordChange()
      modifies this
      ensures !changingPassword && passwordData == EmptyPasswords && errors == map[]
      ensures formData == old(formData) && isEditing == old(isEditing) && error == old(error)
      ensures profileData == old(profileData) && successMessage == old(successMessage)
    {
      changingPassword := false;
      passwordData := EmptyPasswords;
      errors := map[];
    }
  }
}
