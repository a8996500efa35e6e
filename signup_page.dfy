/**
 * The signup page (frontend/src/scripts/signup.js): what the page does with the answer to its
 * signup request, and the German text it shows for the first error of a 422 answer. Joined with
 * the backend's validation, it shows which text a user sees for which form input.
 */
module SignupPage {
  import opened Util
  import opened Signup
  import opened Http

  /** What the page ends up doing after a submission. */
  datatype Outcome =
    | Redirect
    | Shown(text: string)
    /** The script threw: a failed answer whose body is not JSON, or a 422 answer with an empty `detail` list. */
    | ScriptFailed

  /**
   * The page's reaction to an answer: redirect when ok; otherwise the body is read as JSON first
   * (`jsonBody` says whether it is JSON, which an unhandled server error's plain-text 500 body is
   * not), then a 422 shows its translated first message and anything else the generic text.
   */
  function OutcomeOf(status: int, jsonBody: bool, detail: seq<FieldError>): (o: Outcome)
    ensures o == Redirect <==> IsOk(status)
    ensures o == ScriptFailed <==> !IsOk(status) && (!jsonBody || (status == 422 && detail == []))
    ensures jsonBody && status == 422 && detail != [] ==> o == Shown(Translate(detail[0].msg))
    ensures jsonBody && !IsOk(status) && status != 422 ==> o == Shown(GenericError)
  {
    if IsOk(status) then Redirect
    else if !jsonBody then ScriptFailed
    else if status == 422 then (if detail == [] then ScriptFailed else Shown(Translate(detail[0].msg)))
    else Shown(GenericError)
  }

  /**
   * The backend's answer to a signup body: FastAPI refuses a body whose validation fails with 422
   * and the error list, as JSON; a valid body is stored and answered with 200.
   */
  function SignupReply(errors: seq<FieldError>): (int, seq<FieldError>)
  {
    if errors == [] then (200, []) else (422, errors)
  }

  /** The page's outcome for a form input, given the answers of the store's existence checks. */
  function Submitted(username: string, email: string, password: string, emailFormatError: Option<string>,
                     usernameTaken: bool, emailTaken: bool): Outcome
  {
    var reply := SignupReply(SignupErrors(username, email, password, emailFormatError, usernameTaken, emailTaken));
    OutcomeOf(reply.0, true, reply.1)
  }

  /** A valid form leads to the login page; an invalid one shows a text and never crashes the script. */
  lemma ValidFormRedirects(username: string, email: string, password: string, emailFormatError: Option<string>,
                           usernameTaken: bool, emailTaken: bool)
    ensures Submitted(username, email, password, emailFormatError, usernameTaken, emailTaken) == Redirect
      <==> SignupErrors(username, email, password, emailFormatError, usernameTaken, emailTaken) == []
    ensures Submitted(username, email, password, emailFormatError, usernameTaken, emailTaken) != ScriptFailed
  {
  }

  /** A username with a character other than a letter or digit is reported first, in German. */
  lemma NonAlphanumericUsernameShown(username: string, email: string, password: string,
                                     emailFormatError: Option<string>, usernameTaken: bool, emailTaken: bool)
    requires !IsAlnum(username)
    ensures Submitted(username, email, password, emailFormatError, usernameTaken, emailTaken)
         == Shown("Der Benutzername darf nur aus Buchstaben und Zahlen bestehen.")
  {
    var errors := SignupErrors(username, email, password, emailFormatError, usernameTaken, emailTaken);
    assert errors[0].msg == Translations[0].0;
  }

  /** With the other fields in order, a short password is reported with its German length message. */
  lemma ShortPasswordShown(username: string, email: string, password: string)
    requires IsAlnum(username) && |password| < 8
    ensures Submitted(username, email, password, None, false, false)
         == Shown("Das Passwort muss mindestens 8 Zeichen lang sein.")
  {
    var errors := SignupErrors(username, email, password, None, false, false);
    assert errors == [FieldError("password", ValueErrorMsg(PasswordTooShort))];
    assert errors[0].msg == Translations[4].0;
  }

  /** The page's error display and where it was sent. */
  class SignupForm {
    var errorText: string
    var errorShown: bool
    var location: Option<string>

    constructor ()
      ensures errorText == "" && !errorShown && location.None?
    {
      errorText, errorShown, location := "", false, None;
    }

    /** `displayErrorMessage`: each of the six known messages becomes its German text, any other is shown as it is. */
    method DisplayErrorMessage(message: string)
      modifies this`errorText, this`errorShown
      ensures errorText == Translate(message) && errorShown
    {
      var text := message;
      if message == Translations[0].0 {
        text := Translations[0].1;
      } else if message == Translations[1].0 {
        text := Translations[1].1;
      } else if message == Translations[2].0 {
        text := Translations[2].1;
      } else if message == Translations[3].0 {
        text := Translations[3].1;
      } else if message == Translations[4].0 {
        text := Translations[4].1;
      } else if message == Translations[5].0 {
        text := Translations[5].1;
      }
      errorText := text;
      errorShown := true;
    }

    /**
     * `submitSignupForm` with the server's answer (`status`, whether its body is JSON, `detail`):
     * returns the body it posted; then the page goes to the login page, or shows an error, or the
     * script throws.
     */
    method SubmitSignupForm(username: string, email: string, password: string, status: int, jsonBody: bool,
                            detail: seq<FieldError>)
      returns (body: (string, string, string))
      modifies this
      ensures body == (username, email, password)
      ensures OutcomeOf(status, jsonBody, detail) == Redirect ==>
        location == Some("/frontend/public/login.html") && errorText == old(errorText) && errorShown == old(errorShown)
      ensures OutcomeOf(status, jsonBody, detail) == ScriptFailed ==>
        location == old(location) && errorText == old(errorText) && errorShown == old(errorShown)
      ensures OutcomeOf(status, jsonBody, detail).Shown? ==>
        location == old(location) && errorText == OutcomeOf(status, jsonBody, detail).text && errorShown
    {
      body := (username, email, password);
      if IsOk(status) {
        location := Some("/frontend/public/login.html");
        return;
      }
      if !jsonBody {
        return;
      }
      if status == 422 {
        if |detail| == 0 {
          return;
        }
        DisplayErrorMessage(detail[0].msg);
      } else {
        DisplayErrorMessage(GenericError);
        assert Translate(GenericError) == GenericError by {
          assert forall k :: 0 <= k < |Translations| ==> |Translations[k].0| != |GenericError|;
        }
      }
    }
  }
}
