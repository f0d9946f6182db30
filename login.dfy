/**
 * The login gate in front of the tracker: a partner picked from a fixed
 * roster and a shared password. Submitting checks the two fields in a fixed
 * order and, when both are filled in, schedules the password comparison for
 * later; the scheduled step captures the name and password as they were at
 * submission.
 */
module LandingPage {

  datatype Option<T> = None | Some(value: T)

  /** A submission waiting for its deferred password comparison. */
  datatype Attempt = Attempt(partner: string, password: string)

  /** The names the partner drop-down offers. */
  const Roster: seq<string> := [
    "Juanny Smit",
    "Lezmond Dayhee",
    "RickDa Stick",
    "HoganHoss Bierwirth",
    "Buff Wocket Warner"
  ]

  /** The shared password. */
  const Password: string := "wheaton"

  const SelectNameError: string := "Please select your name"
  const EnterPasswordError: string := "Please enter your password"
  const WrongPasswordError: string := "Incorrect password. Please try again."

  class LoginForm {
    var selectedPartner: string
    var password: string
    var error: string
    var isLoading: bool
    /** The name handed to the login callback, once a login has happened. */
    var loggedInAs: Option<string>
    /** The deferred comparisons not yet run, oldest first. */
    var pending: seq<Attempt>

    /**
     * The drop-down only ever yields a roster name or nothing, and a
     * comparison is only scheduled with both fields filled in; so a login
     * is always for a roster name. The submit button is disabled while
     * loading, so at most one comparison is ever outstanding, and after a
     * login the form stays in its loading state.
     */
    ghost predicate Valid()
      reads this
    {
      && (selectedPartner == "" || selectedPartner in Roster)
      && (forall a :: a in pending ==> a.partner in Roster && a.password != "")
      && |pending| <= 1
      && (pending != [] ==> isLoading && loggedInAs == None)
      && (loggedInAs.Some? ==> loggedInAs.value in Roster && isLoading)
    }

    constructor ()
      ensures Valid()
      ensures selectedPartner == "" && password == "" && error == ""
      ensures !isLoading && loggedInAs == None && pending == []
    {
      selectedPartner, password, error := "", "", "";
      isLoading, loggedInAs, pending := false, None, [];
    }

    /** Choosing a name in the drop-down (or its empty entry) also clears the error. */
    method SelectPartner(name: string)
      requires Valid()
      requires name == "" || name in Roster
      modifies this
      ensures Valid()
      ensures selectedPartner == name && error == ""
      ensures password == old(password) && isLoading == old(isLoading)
      ensures loggedInAs == old(loggedInAs) && pending == old(pending)
    {
      selectedPartner := name;
      error := "";
    }

    /** Typing in the password field also clears the error. */
    method EnterPassword(text: string)
      requires Valid()
      modifies this
      ensures Valid()
      ensures password == text && error == ""
      ensures selectedPartner == old(selectedPartner) && isLoading == old(isLoading)
      ensures loggedInAs == old(loggedInAs) && pending == old(pending)
    {
      password := text;
      error := "";
    }

    /**
     * Submitting the form. The error is cleared first; a missing name is
     * reported before a missing password, and either stops the submission
     * without loading. With both present the form starts
     * loading and schedules one comparison of the current name and password.
     * Submitting never logs in by itself. The button is disabled while
     * loading, so a submission only happens when not loading.
     */
    method Submit()
      requires Valid()
      requires !isLoading
      modifies this
      ensures Valid()
      ensures selectedPartner == old(selectedPartner) && password == old(password)
      ensures loggedInAs == old(loggedInAs)
      ensures old(selectedPartner) == "" ==>
                error == SelectNameError && !isLoading && pending == old(pending)
      ensures old(selectedPartner) != "" && old(password) == "" ==>
                error == EnterPasswordError && !isLoading && pending == old(pending)
      ensures old(selectedPartner) != "" && old(password) != "" ==>
                && error == "" && isLoading
                && pending == old(pending) + [Attempt(old(selectedPartner), old(password))]
    {
      error := "";
      if selectedPartner == "" {
        error := SelectNameError;
        return;
      }
      if password == "" {
        error := EnterPasswordError;
        return;
      }
      isLoading := true;
      pending := pending + [Attempt(selectedPartner, password)];
    }

    /**
     * The oldest scheduled comparison runs. With the right password the
     * login callback receives exactly the name captured at submission;
     * otherwise the wrong-password error is shown, loading stops and nobody
     * is logged in. The name and password currently in the form play no part.
     */
    method TimerFires()
      requires Valid()
      requires pending != []
      modifies this
      ensures Valid()
      ensures pending == old(pending)[1..]
      ensures selectedPartner == old(selectedPartner) && password == old(password)
      ensures old(pending)[0].password == Password ==>
                && loggedInAs == Some(old(pending)[0].partner)
                && error == old(error) && isLoading == old(isLoading)
      ensures old(pending)[0].password != Password ==>
                && loggedInAs == old(loggedInAs)
                && error == WrongPasswordError && !isLoading
    {
      var attempt := pending[0];
      pending := pending[1..];
      if attempt.password == Password {
        loggedInAs := Some(attempt.partner);
      } else {
        error := WrongPasswordError;
        isLoading := false;
      }
    }
  }

  /**
   * A full round from a fresh form: picking a roster name, typing the shared
   * password, submitting and letting the scheduled comparison run logs that
   * partner in; any other password leaves nobody logged in and shows the
   * wrong-password error.
   */
  method LoginRound(name: string, text: string) returns (form: LoginForm)
    requires name in Roster
    ensures text == Password ==> form.loggedInAs == Some(name)
    ensures text != "" && text != Password ==>
              form.loggedInAs == None && form.error == WrongPasswordError && !form.isLoading
    ensures text == "" ==> form.loggedInAs == None && form.error == EnterPasswordError
  {
    form := new LoginForm();
    form.SelectPartner(name);
    form.EnterPassword(text);
    form.Submit();
    if form.pending != [] {
      form.TimerFires();
    }
  }
}
