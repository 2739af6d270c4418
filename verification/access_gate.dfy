/** streamlit_app.py: the access-key gate in front of `app.main`. With no key
    configured the main page opens at once; otherwise it opens only once an
    entry has matched the key. This script's session holds only the gate's two
    keys: `app.main` draws a title and a welcome line, and the wizard is a
    different script (test.py, `SessionModel`) with no gate. */
module AccessGate {
  import opened Wrappers

  /** What a run of the script shows. */
  datatype Screen =
    | AccessPrompt(showError: bool) // the key field, with the error line after a wrong entry
    | MainPage                      // `check_password` returned True and `app.main` runs

  /** `check_password` and the branch on its result (lines 26-63).
      `accessKey` is the environment variable (None when unset) and
      `passwordCorrect` the session flag (None when the key is absent). */
  function AccessScreen(accessKey: Option<string>, passwordCorrect: Option<bool>): (r: Screen)
    ensures r == MainPage <==> accessKey.GetOr("") == "" || passwordCorrect == Some(true)
    ensures r == AccessPrompt(false) <==> accessKey.GetOr("") != "" && passwordCorrect.None?
    ensures r == AccessPrompt(true) <==> accessKey.GetOr("") != "" && passwordCorrect == Some(false)
  {
    if accessKey.GetOr("") == "" then MainPage
    else if passwordCorrect.None? then AccessPrompt(false)
    else if !passwordCorrect.value then AccessPrompt(true)
    else MainPage
  }

  /** `check_password()`: True exactly when the main page is shown. */
  predicate CheckPassword(accessKey: Option<string>, passwordCorrect: Option<bool>) {
    AccessScreen(accessKey, passwordCorrect) == MainPage
  }

  /** The session of streamlit_app.py: the flag `password_correct` and the
      key field's value `password`, each None while absent. */
  class GateSession {
    var passwordCorrect: Option<bool>
    var password: Option<string>

    /** A new session: neither key exists, so with a key configured the
        prompt is shown without an error. */
    constructor ()
      ensures passwordCorrect.None? && password.None?
      ensures forall k :: k != "" ==> AccessScreen(Some(k), passwordCorrect) == AccessPrompt(false)
    {
      passwordCorrect := None;
      password := None;
    }

    /** `password_entered` (lines 34-40), the key field's callback, which
        exists only when a key is configured: a match records True and
        deletes the entry, which opens the main page; a mismatch records
        False and keeps the entry, which shows the error. */
    method PasswordEntered(accessKey: string, typed: string)
      requires accessKey != ""
      modifies this
      ensures passwordCorrect == Some(typed == accessKey)
      ensures password == (if typed == accessKey then None else Some(typed))
      ensures AccessScreen(Some(accessKey), passwordCorrect) ==
        (if typed == accessKey then MainPage else AccessPrompt(true))
    {
      // Streamlit stores the field's new value before the callback runs.
      password := Some(typed);
      if typed == accessKey {
        passwordCorrect := Some(true);
        password := None;
      } else {
        passwordCorrect := Some(false);
      }
    }
  }
}
