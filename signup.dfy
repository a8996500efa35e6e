/**
 * Signup validation: the three `SignupData` field validators (backend/api/endpoints/schemas.py, repeated
 * word for word in backend/db_service/models.py), the error list Pydantic builds from them, and the
 * German texts the signup page shows for their messages (frontend/src/scripts/signup.js).
 */
module Signup {
  import opened Util

  // ---------------------------------------------------------------- character classes (ASCII)

  predicate IsUpper(c: char) { 'A' <= c <= 'Z' }

  predicate IsLower(c: char) { 'a' <= c <= 'z' }

  predicate IsAlnumChar(c: char) { IsUpper(c) || IsLower(c) || IsDigit(c) }

  /** `str.isalnum()`: at least one character, and every character a letter or a digit. */
  predicate IsAlnum(s: string)
  {
    |s| > 0 && forall i :: 0 <= i < |s| ==> IsAlnumChar(s[i])
  }

  /** The password validator's `special_characters` set. */
  const SpecialCharacters: string := "!@#$%^&*()-_+=~`[]{}|;:'\",.<>/?\\"

  predicate HasUpper(s: string) { exists i :: 0 <= i < |s| && IsUpper(s[i]) }
  predicate HasLower(s: string) { exists i :: 0 <= i < |s| && IsLower(s[i]) }
  predicate HasDigit(s: string) { exists i :: 0 <= i < |s| && IsDigit(s[i]) }
  predicate HasSpecial(s: string) { exists i :: 0 <= i < |s| && s[i] in SpecialCharacters }

  // ---------------------------------------------------------------- validators

  const UsernameNotAlnum: string := "Username must be alphanumeric"
  const UsernameTaken: string := "Username already exists"
  const EmailTaken: string := "Email already exists"
  const PasswordTooShort: string := "Password must be at least 8 characters long"
  const PasswordTooWeak: string :=
    "Password must have at least one uppercase letter, one lowercase letter, one digit and a special character"

  /**
   * `username_validator`: the value, or the message of the ValueError it raises. `taken` is the
   * answer of the store's `username_exists` for `v`.
   */
  function ValidateUsername(v: string, taken: bool): (r: Result<string, string>)
    ensures !IsAlnum(v) ==> r == Err(UsernameNotAlnum)
    ensures IsAlnum(v) && taken ==> r == Err(UsernameTaken)
    ensures r.Ok? <==> IsAlnum(v) && !taken
    ensures r.Ok? ==> r.value == v
  {
    if !IsAlnum(v) then Err(UsernameNotAlnum)
    else if taken then Err(UsernameTaken)
    else Ok(v)
  }

  /** `email_validator`, run after the address format was accepted. */
  function ValidateEmail(v: string, taken: bool): (r: Result<string, string>)
    ensures r.Ok? <==> !taken
    ensures r.Err? ==> r.error == EmailTaken
    ensures r.Ok? ==> r.value == v
  {
    if taken then Err(EmailTaken) else Ok(v)
  }

  /** `password_validator`: the length check first, then the four character classes. */
  function ValidatePassword(v: string): (r: Result<string, string>)
    ensures |v| < 8 ==> r == Err(PasswordTooShort)
    ensures |v| >= 8 && !(HasUpper(v) && HasLower(v) && HasDigit(v) && HasSpecial(v)) ==> r == Err(PasswordTooWeak)
    ensures r.Ok? <==> |v| >= 8 && HasUpper(v) && HasLower(v) && HasDigit(v) && HasSpecial(v)
    ensures r.Ok? ==> r.value == v
  {
    if |v| < 8 then Err(PasswordTooShort)
    else if !HasUpper(v) || !HasLower(v) || !HasDigit(v) || !HasSpecial(v) then Err(PasswordTooWeak)
    else Ok(v)
  }

  /** The empty username is rejected as not alphanumeric, whether or not it is taken. */
  lemma EmptyUsernameRejected(taken: bool)
    ensures ValidateUsername("", taken) == Err(UsernameNotAlnum)
  {
  }

  /** A short password gets the length message whatever characters it holds. */
  lemma ShortPasswordMessage(v: string)
    requires |v| < 8
    ensures ValidatePassword(v) == Err(PasswordTooShort)
  {
  }

  /**
   * Any password of at least 8 characters with an upper-case letter, a lower-case letter, a digit
   * and a listed special character somewhere (at positions `u`, `l`, `d`, `x`) is accepted unchanged.
   */
  lemma StrongPasswordAccepted(v: string, u: int, l: int, d: int, x: int)
    requires |v| >= 8
    requires 0 <= u < |v| && IsUpper(v[u]) && 0 <= l < |v| && IsLower(v[l])
    requires 0 <= d < |v| && IsDigit(v[d]) && 0 <= x < |v| && v[x] in SpecialCharacters
    ensures ValidatePassword(v) == Ok(v)
  {
    assert HasUpper(v) && HasLower(v) && HasDigit(v) && HasSpecial(v);
  }

  /** A witness that `StrongPasswordAccepted` is not vacuous: "Abcdef1!" is accepted. */
  lemma StrongPasswordExample()
    ensures ValidatePassword("Abcdef1!") == Ok("Abcdef1!")
  {
    StrongPasswordAccepted("Abcdef1!", 0, 1, 6, 7);
  }

  /** Appending characters to an accepted password keeps it accepted. */
  lemma StrongPasswordExtended(v: string, w: string)
    requires ValidatePassword(v).Ok?
    ensures ValidatePassword(v + w) == Ok(v + w)
  {
    var u :| 0 <= u < |v| && IsUpper(v[u]);
    var l :| 0 <= l < |v| && IsLower(v[l]);
    var d :| 0 <= d < |v| && IsDigit(v[d]);
    var x :| 0 <= x < |v| && v[x] in SpecialCharacters;
    assert (v + w)[u] == v[u] && (v + w)[l] == v[l] && (v + w)[d] == v[d] && (v + w)[x] == v[x];
    StrongPasswordAccepted(v + w, u, l, d, x);
  }

  // ---------------------------------------------------------------- the 422 body

  /** One entry of the `detail` list of a 422 response: the field and its `msg`. */
  datatype FieldError = FieldError(field: string, msg: string)

  /** Pydantic's wording for a ValueError raised inside a validator. */
  function ValueErrorMsg(message: string): string
  {
    "Value error, " + message
  }

  function ErrorsOf(field: string, r: Result<string, string>): seq<FieldError>
  {
    if r.Ok? then [] else [FieldError(field, ValueErrorMsg(r.error))]
  }

  /**
   * The `detail` list for one signup body: the fields in declaration order, each with at most one
   * error. `emailFormatError` is the message of the address-format check, which runs before the
   * email validator and replaces it when it fails.
   */
  function SignupErrors(username: string, email: string, password: string, emailFormatError: Option<string>,
                        usernameTaken: bool, emailTaken: bool): (errors: seq<FieldError>)
    ensures |errors| <= 3
    ensures errors == [] <==>
      ValidateUsername(username, usernameTaken).Ok? && emailFormatError.None?
      && ValidateEmail(email, emailTaken).Ok? && ValidatePassword(password).Ok?
    ensures ValidateUsername(username, usernameTaken).Err? ==>
      errors[0] == FieldError("username", ValueErrorMsg(ValidateUsername(username, usernameTaken).error))
  {
    var emailErrors :=
      if emailFormatError.Some? then [FieldError("email", emailFormatError.value)]
      else ErrorsOf("email", ValidateEmail(email, emailTaken));
    ErrorsOf("username", ValidateUsername(username, usernameTaken)) + emailErrors
      + ErrorsOf("password", ValidatePassword(password))
  }

  // ---------------------------------------------------------------- the client's translations

  /** The address-format message the client knows. */
  const EmailFormatMsg: string :=
    "value is not a valid email address: The email address is not valid. It must have exactly one @-sign."

  /** The generic text shown for any failure other than 422. */
  const GenericError: string := "Ein Fehler ist aufgetreten. Bitte versuchen Sie es später erneut."

  /** The six messages `displayErrorMessage` translates, each with its German text. */
  const Translations: seq<(string, string)> := [
    (ValueErrorMsg(UsernameNotAlnum), "Der Benutzername darf nur aus Buchstaben und Zahlen bestehen."),
    (ValueErrorMsg(UsernameTaken), "Der Benutzername existiert bereits."),
    (EmailFormatMsg, "Die E-Mail-Adresse hat kein gültiges Format."),
    (ValueErrorMsg(EmailTaken), "Die E-Mail-Adresse existiert bereits."),
    (ValueErrorMsg(PasswordTooShort), "Das Passwort muss mindestens 8 Zeichen lang sein."),
    (ValueErrorMsg(PasswordTooWeak),
     "Das Passwort muss mindestens einen Großbuchstaben, einen Kleinbuchstaben, eine Zahl und ein Sonderzeichen enthalten.")
  ]

  /** The German text of a message at or after position `from` of the table, if any. */
  function TranslateFrom(msg: string, from: nat): (r: Option<string>)
    requires from <= |Translations|
    ensures r.Some? <==> exists k :: from <= k < |Translations| && Translations[k].0 == msg
    ensures r.Some? ==> exists k :: from <= k < |Translations| && Translations[k] == (msg, r.value)
    decreases |Translations| - from
  {
    if from == |Translations| then None
    else if Translations[from].0 == msg then Some(Translations[from].1)
    else TranslateFrom(msg, from + 1)
  }

  /** The `switch` of `displayErrorMessage`: a known message becomes its German text, any other stays as it is. */
  function Translate(msg: string): (text: string)
    ensures (forall k :: 0 <= k < |Translations| ==> Translations[k].0 != msg) ==> text == msg
    ensures forall k :: 0 <= k < |Translations| && Translations[k].0 == msg ==> text == Translations[k].1
  {
    TranslationsDistinct();
    match TranslateFrom(msg, 0)
    case None => msg
    case Some(t) => t
  }

  /** The six keys of the table are different, so a case label can match only once. */
  lemma TranslationsDistinct()
    ensures forall j, k :: 0 <= j < k < |Translations| ==> Translations[j].0 != Translations[k].0
  {
    assert |Translations[0].0| == 42 && |Translations[1].0| == 36 && |Translations[2].0| == 100;
    assert |Translations[3].0| == 33 && |Translations[4].0| == 56 && |Translations[5].0| == 118;
  }

  /** Every message the validators raise reaches the user in German: it has an entry in the table. */
  lemma EveryValidatorMessageTranslated(message: string)
    requires message in {UsernameNotAlnum, UsernameTaken, EmailTaken, PasswordTooShort, PasswordTooWeak}
    ensures Translate(ValueErrorMsg(message)) != ValueErrorMsg(message)
    ensures exists k :: 0 <= k < |Translations| && Translations[k].0 == ValueErrorMsg(message)
  {
    var k := if message == UsernameNotAlnum then 0 else if message == UsernameTaken then 1
             else if message == EmailTaken then 3 else if message == PasswordTooShort then 4 else 5;
    assert Translations[k].0 == ValueErrorMsg(message);
    assert |Translations[k].1| != |Translations[k].0| by {
      TranslationsDistinct();
      assert |Translations[0].1| == 61 && |Translations[1].1| == 35 && |Translations[3].1| == 37;
      assert |Translations[4].1| == 49 && |Translations[5].1| == 116;
    }
  }
}
