/** The login form component: two text fields, a "remember me" checkbox and a
    submit button. It validates locally, keeps one inline error per field, and
    hands the entered values to its `onSubmit` callback only when both fields
    are filled in. */
module LoginFormModel {
  import opened Session
  import opened Text

  const UsernameRequired: string := "Vui lòng nhập tài khoản!"
  const PasswordRequired: string := "Vui lòng nhập mật khẩu!"

  /** The form's error map `{ username?, password? }`: `None` is an absent key or a
      key set to `undefined` (as an edit leaves it); only truthiness is ever read. */
  datatype FieldErrors = FieldErrors(username: Option<string>, password: Option<string>)

  const NoErrors: FieldErrors := FieldErrors(None, None)

  /** What the form passes to `onSubmit`. */
  datatype LoginFormValues = LoginFormValues(username: string, password: string, remember: bool)

  /** The number of keys set in a freshly built error map (`Object.keys(newErrors).length`). */
  function KeyCount(e: FieldErrors): (n: nat)
    ensures n <= 2
    ensures n == 0 <==> e == NoErrors
  {
    (if e.username.Some? then 1 else 0) + (if e.password.Some? then 1 else 0)
  }

  /** The error map a submission of `username` and `password` produces. Each field
      is checked on its own: a field gets its "required" message exactly when it is
      blank, so both messages can be present at once, and the map is empty exactly
      when neither field is blank. */
  function Validate(username: string, password: string): (e: FieldErrors)
    ensures e.username == (if IsBlank(username) then Some(UsernameRequired) else None)
    ensures e.password == (if IsBlank(password) then Some(PasswordRequired) else None)
    ensures e == NoErrors <==> !IsBlank(username) && !IsBlank(password)
  {
    TrimEmptyIffBlank(username);
    TrimEmptyIffBlank(password);
    FieldErrors(
      if Trim(username) == [] then Some(UsernameRequired) else None,
      if Trim(password) == [] then Some(PasswordRequired) else None)
  }

  /** Whether the submit button is disabled for the optional `loading` property:
      only an explicit `true` disables it; an omitted property leaves it enabled. */
  function SubmitDisabled(loading: Option<bool>): (disabled: bool)
    ensures disabled <==> loading == Some(true)
  {
    match loading
    case Some(b) => b
    case None => false
  }

  class LoginForm {
    var username: string
    var password: string
    var remember: bool
    var errors: FieldErrors

    /** An inline error is only ever the "required" message of its own field, and
        it is shown only while that field is blank. */
    ghost predicate Valid()
      reads this
    {
      && (errors.username.Some? ==> errors.username.value == UsernameRequired && IsBlank(username))
      && (errors.password.Some? ==> errors.password.value == PasswordRequired && IsBlank(password))
    }

    /** A freshly mounted form: empty fields, "remember me" ticked, no errors. */
    constructor ()
      ensures Valid()
      ensures username == "" && password == "" && remember && errors == NoErrors
    {
      username, password := "", "";
      remember := true;
      errors := NoErrors;
    }

    /** The form's submit handler. It builds the new error map field by field; if
        any key was set, that map replaces the errors and the callback is not
        called. Otherwise the errors are cleared and, when a callback is present
        (`hasOnSubmit`), it is called once with the untrimmed field values and the
        current "remember me" flag, which `submitted` returns. Field values and the
        flag never change. */
    method Submit(hasOnSubmit: bool) returns (submitted: Option<LoginFormValues>)
      requires Valid()
      modifies this
      ensures Valid()
      ensures username == old(username) && password == old(password) && remember == old(remember)
      ensures errors == Validate(username, password)
      ensures submitted.Some? <==> hasOnSubmit && !IsBlank(username) && !IsBlank(password)
      ensures submitted.Some? ==> submitted.value == LoginFormValues(username, password, remember)
    {
      var newErrors := NoErrors;
      if Trim(username) == [] {
        newErrors := newErrors.(username := Some(UsernameRequired));
      }
      if Trim(password) == [] {
        newErrors := newErrors.(password := Some(PasswordRequired));
      }
      TrimEmptyIffBlank(username);
      TrimEmptyIffBlank(password);

      if KeyCount(newErrors) > 0 {
        errors := newErrors;
        return None;
      }

      errors := NoErrors;
      if hasOnSubmit {
        submitted := Some(LoginFormValues(username, password, remember));
      } else {
        submitted := None;
      }
    }

    /** Typing in the username field: the field takes the new value and its own
        error, if shown, is cleared; the password error is left as it was. */
    method EditUsername(value: string)
      requires Valid()
      modifies this
      ensures Valid()
      ensures username == value
      ensures errors == old(errors).(username := None)
      ensures password == old(password) && remember == old(remember)
    {
      username := value;
      if errors.username.Some? {
        errors := errors.(username := None);
      }
    }

    /** Typing in the password field: the field takes the new value and its own
        error, if shown, is cleared; the username error is left as it was. */
    method EditPassword(value: string)
      requires Valid()
      modifies this
      ensures Valid()
      ensures password == value
      ensures errors == old(errors).(password := None)
      ensures username == old(username) && remember == old(remember)
    {
      password := value;
      if errors.password.Some? {
        errors := errors.(password := None);
      }
    }

    /** Ticking or clearing the "remember me" checkbox; nothing else changes. */
    method SetRemember(checked: bool)
      requires Valid()
      modifies this
      ensures Valid()
      ensures remember == checked
      ensures username == old(username) && password == old(password) && errors == old(errors)
    {
      remember := checked;
    }
  }
}
