/** The driver sign-in form: blank-field check, then one demo credential
    pair. */
module DriverLogin {
  import opened Common

  /** The characters ECMAScript's String.prototype.trim removes: WhiteSpace
      (tab, vertical tab, form feed, no-break space, byte order mark and the
      space separators of Unicode category Zs) and LineTerminator. */
  predicate IsWhitespace(c: char) {
    || c == '\t' || c == '\U{000B}' || c == '\U{000C}' || c == ' '
    || c == '\U{00A0}' || c == '\U{FEFF}'
    || c == '\U{1680}' || ('\U{2000}' <= c <= '\U{200A}')
    || c == '\U{202F}' || c == '\U{205F}' || c == '\U{3000}'
    || c == '\n' || c == '\r' || c == '\U{2028}' || c == '\U{2029}'
  }

  /** Drops leading whitespace: the result is the suffix of `s` that starts
      at its first non-whitespace character. */
  function TrimStart(s: string): (r: string)
    ensures |r| <= |s|
    ensures forall i :: 0 <= i < |r| ==> r[i] == s[|s| - |r| + i]
    ensures forall i :: 0 <= i < |s| - |r| ==> IsWhitespace(s[i])
    ensures r != [] ==> !IsWhitespace(r[0])
    decreases |s|
  {
    if s != [] && IsWhitespace(s[0]) then TrimStart(s[1..]) else s
  }

  /** Drops trailing whitespace: the result is the prefix of `s` that ends at
      its last non-whitespace character. */
  function TrimEnd(s: string): (r: string)
    ensures |r| <= |s|
    ensures forall i :: 0 <= i < |r| ==> r[i] == s[i]
    ensures forall i :: |r| <= i < |s| ==> IsWhitespace(s[i])
    ensures r != [] ==> !IsWhitespace(r[|r| - 1])
    decreases |s|
  {
    if s != [] && IsWhitespace(s[|s| - 1]) then TrimEnd(s[..|s| - 1]) else s
  }

  /** String.prototype.trim: drops whitespace at both ends, never adding a
      character. */
  function Trim(s: string): (r: string)
    ensures |r| <= |s|
  {
    TrimEnd(TrimStart(s))
  }

  /** What is left after trimming starts and ends with a visible character. */
  lemma TrimmedEndsVisible(s: string)
    ensures Trim(s) != [] ==> !IsWhitespace(Trim(s)[0]) && !IsWhitespace(Trim(s)[|Trim(s)| - 1])
  {
  }

  /** A field is blank when every character in it is whitespace. */
  predicate Blank(s: string) {
    forall i :: 0 <= i < |s| ==> IsWhitespace(s[i])
  }

  /** `!s.trim()` holds exactly for the blank fields. */
  lemma TrimEmptyIffBlank(s: string)
    ensures Trim(s) == "" <==> Blank(s)
  {
  }

  const DEMO_ID := "DRV001"
  const DEMO_PASSWORD := "password123"
  const BLANK_MESSAGE := "Please enter both Driver ID and Password"
  const INVALID_MESSAGE := "Invalid Driver ID or Password. Try DRV001 / password123"

  /** What a submission leads to: onLogin called with an id, or an error. */
  datatype LoginResult = Accepted(driverId: string) | Rejected(message: string)

  /** The decision handleLogin takes. Blank fields are refused with one
      message; otherwise only the exact, untrimmed demo pair is accepted, and
      every other pair gets the same second message. */
  function Authenticate(driverId: string, password: string): (r: LoginResult)
    ensures r.Accepted? <==> driverId == DEMO_ID && password == DEMO_PASSWORD
    ensures r.Accepted? ==> r.driverId == driverId
    ensures r == Rejected(BLANK_MESSAGE) <==> Blank(driverId) || Blank(password)
    ensures r == Rejected(INVALID_MESSAGE) <==>
      !Blank(driverId) && !Blank(password) && !(driverId == DEMO_ID && password == DEMO_PASSWORD)
  {
    DemoCredentialsNotBlank();
    if Blank(driverId) || Blank(password) then Rejected(BLANK_MESSAGE)
    else if driverId == DEMO_ID && password == DEMO_PASSWORD then Accepted(driverId)
    else Rejected(INVALID_MESSAGE)
  }

  lemma DemoCredentialsNotBlank()
    ensures !Blank(DEMO_ID) && !Blank(DEMO_PASSWORD)
  {
    assert !IsWhitespace(DEMO_ID[0]) && !IsWhitespace(DEMO_PASSWORD[0]);
  }

  /** A padded id passes the blank check but is not the demo id. */
  lemma PaddedIdRejected()
    ensures Trim(" DRV001") != ""
    ensures Authenticate(" DRV001", DEMO_PASSWORD) == Rejected(INVALID_MESSAGE)
  {
    assert !IsWhitespace(" DRV001"[1]);
    TrimEmptyIffBlank(" DRV001");
    DemoCredentialsNotBlank();
    assert " DRV001" != DEMO_ID by { assert " DRV001"[0] != DEMO_ID[0]; }
  }

  /** The form's state fields. The onLogin callback is the returned id. */
  class LoginForm {
    var driverId: string
    var password: string
    var isLoading: bool
    var error: string

    constructor ()
      ensures driverId == "" && password == "" && !isLoading && error == ""
    {
      driverId, password, isLoading, error := "", "", false, "";
    }

    /** handleLogin. The submit button is disabled while loading. `loggedInAs`
        is the id passed to onLogin, if it is called; `awaited` says whether
        the form went into its loading state for the simulated wait. */
    method HandleLogin() returns (loggedInAs: Option<string>, awaited: bool)
      requires !isLoading
      modifies this`error, this`isLoading
      ensures awaited <==> !Blank(driverId) && !Blank(password)
      ensures Authenticate(driverId, password) ==
        if loggedInAs.Some? then Accepted(loggedInAs.value) else Rejected(error)
      ensures loggedInAs.Some? ==> error == ""
      ensures !isLoading
    {
      var id, pw := driverId, password;
      ghost var outcome := Authenticate(id, pw);
      error := "";
      if Blank(id) || Blank(pw) {
        assert outcome == Rejected(BLANK_MESSAGE);
        error := BLANK_MESSAGE;
        return None, false;
      }
      isLoading := true;
      awaited := true;
      if id == DEMO_ID && pw == DEMO_PASSWORD {
        assert outcome == Accepted(id);
        loggedInAs := Some(id);
      } else {
        assert outcome == Rejected(INVALID_MESSAGE);
        loggedInAs := None;
        error := INVALID_MESSAGE;
      }
      isLoading := false;
    }
  }
}
