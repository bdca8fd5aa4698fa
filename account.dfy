/** The website's account-creation form: `createAccount` checks the username, password
    and confirmation in a fixed order, shows the first failure, and only then posts the
    credentials to the registration server and maps its reply to a message. */
module AccountForm {
  import opened Common

  const USERNAME_LENGTH_MESSAGE := "Username must be between 5 and 12 characters long"
  const USERNAME_CHARS_MESSAGE := "Username may only contain letters, numbers, and underscores"
  const PASSWORD_LENGTH_MESSAGE := "Password must be between 5 and 20 characters long"
  const MISMATCH_MESSAGE := "Passwords do not match"
  const TAKEN_MESSAGE := "Username is already taken"
  const FAILURE_MESSAGE := "Something went wrong. Please try again later."

  /** A character the pattern `^[a-zA-Z0-9_]*$` accepts. */
  predicate UsernameChar(c: char) {
    ('a' <= c <= 'z') || ('A' <= c <= 'Z') || ('0' <= c <= '9') || c == '_'
  }

  /** A character outside the Basic Multilingual Plane, which a JavaScript string holds
      as a surrogate pair of two code units. */
  predicate Astral(c: char) {
    c as int > 0xFFFF
  }

  /** JavaScript's `length`: the number of UTF-16 code units, two for each astral
      character and one for every other. */
  function JsLength(s: string): (n: nat)
    ensures |s| <= n <= 2 * |s|
    ensures n == |s| <==> forall i :: 0 <= i < |s| ==> !Astral(s[i])
  {
    if |s| == 0 then 0 else (if Astral(s[0]) then 2 else 1) + JsLength(s[1..])
  }

  /** The reference reading of the form's rules, one conjunct per rule, with lengths
      counted in code units. */
  predicate Acceptable(username: string, password: string, confirm: string) {
    && 5 <= JsLength(username) <= 12
    && (forall i :: 0 <= i < |username| ==> UsernameChar(username[i]))
    && 5 <= JsLength(password) <= 20
    && password == confirm
  }

  /** Whether the regular expression matches: every character is allowed. */
  function MatchesUsernamePattern(username: string): (ok: bool)
    ensures ok <==> forall i :: 0 <= i < |username| ==> UsernameChar(username[i])
  {
    if |username| == 0 then true
    else UsernameChar(username[0]) && MatchesUsernamePattern(username[1..])
  }

  /** The guard chain of `createAccount`: the message of the first failing check, or
      `None` when the credentials may be sent. */
  function Validate(username: string, password: string, confirm: string): (error: Option<string>)
    ensures error == None <==> Acceptable(username, password, confirm)
    ensures (JsLength(username) < 5 || JsLength(username) > 12) <==> error == Some(USERNAME_LENGTH_MESSAGE)
    ensures error == Some(USERNAME_CHARS_MESSAGE) <==>
      5 <= JsLength(username) <= 12 && exists i :: 0 <= i < |username| && !UsernameChar(username[i])
    ensures error == Some(PASSWORD_LENGTH_MESSAGE) <==>
      5 <= JsLength(username) <= 12 && MatchesUsernamePattern(username)
      && (JsLength(password) < 5 || JsLength(password) > 20)
    ensures error == Some(MISMATCH_MESSAGE) <==>
      5 <= JsLength(username) <= 12 && MatchesUsernamePattern(username) && 5 <= JsLength(password) <= 20
      && password != confirm
  {
    if JsLength(username) < 5 || JsLength(username) > 12 then Some(USERNAME_LENGTH_MESSAGE)
    else if !MatchesUsernamePattern(username) then Some(USERNAME_CHARS_MESSAGE)
    else if JsLength(password) < 5 || JsLength(password) > 20 then Some(PASSWORD_LENGTH_MESSAGE)
    else if password != confirm then Some(MISMATCH_MESSAGE)
    else None
  }

  /** A password of four characters, one of them astral, has length 5 and passes the
      length rule; a username of that shape is refused for its characters, not its
      length. */
  lemma AstralCountsTwice()
    ensures JsLength("abc\U{1F600}") == 5
    ensures Validate("player", "abc\U{1F600}", "abc\U{1F600}") == None
    ensures Validate("abc\U{1F600}", "secret", "secret") == Some(USERNAME_CHARS_MESSAGE)
  {
    assert !UsernameChar('\U{1F600}');
    assert "abc\U{1F600}"[3] == '\U{1F600}';
  }

  /** `ERROR_MESSAGES[code]`: only code 2 has a message; any other lookup is `undefined`. */
  function ErrorMessage(code: int): (message: Option<string>)
    ensures message.Some? <==> code == 2
    ensures message.Some? ==> message.value == TAKEN_MESSAGE
  {
    if code == 2 then Some(TAKEN_MESSAGE) else None
  }

  /** What the registration server does with the post: a reply, or a thrown request. */
  datatype Reply = Answered(success: bool, error: int) | RequestFailed

  /** The React state the handler writes. `error` is `None` after `setError(undefined)`. */
  datatype FormState = FormState(error: Option<string>, accountCreated: bool, isCreatingAccount: bool)

  /** The state after the handler, and the credentials it posted, if it posted. */
  datatype Submission = Submission(state: FormState, posted: Option<(string, string)>)

  /** `createAccount`. The server's behaviour is the parameter `reply`, consulted only when
      the credentials are posted. */
  function CreateAccount(s: FormState, username: string, password: string, confirm: string, reply: Reply)
    : (out: Submission)
    ensures out.posted.Some? <==> Acceptable(username, password, confirm)
    ensures out.posted.Some? ==> out.posted.value == (username, password)
    ensures !Acceptable(username, password, confirm) ==>
      out.state == s.(error := Validate(username, password, confirm))
    ensures out.state.accountCreated != s.accountCreated ==>
      Acceptable(username, password, confirm) && reply.Answered? && reply.success
    ensures Acceptable(username, password, confirm) && reply.Answered? && reply.success ==>
      out.state == s.(accountCreated := true, isCreatingAccount := false)
    ensures Acceptable(username, password, confirm) && reply.Answered? && !reply.success ==>
      out.state == s.(error := ErrorMessage(reply.error))
    ensures Acceptable(username, password, confirm) && reply.RequestFailed? ==>
      out.state == s.(error := Some(FAILURE_MESSAGE))
  {
    match Validate(username, password, confirm)
    case Some(message) => Submission(s.(error := Some(message)), None)
    case None =>
      var posted := Some((username, password));
      match reply
      case RequestFailed => Submission(s.(error := Some(FAILURE_MESSAGE)), posted)
      case Answered(success, code) =>
        if !success then Submission(s.(error := ErrorMessage(code)), posted)
        else Submission(s.(accountCreated := true, isCreatingAccount := false), posted)
  }
}
