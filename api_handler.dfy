/** The request-side validation of the serverless handler. */
module ApiHandler {
  import opened Wrappers
  import opened Handles

  const RequiredMessage: string := "Username is required"
  const LengthMessage: string := "Username must be 2-30 chars"
  const CharsetMessage: string := "Username may contain letters, numbers, underscore, dot"

  /**
   * `_validate_username`: no message exactly for a valid handle; otherwise the
   * first failing test names the problem: empty, then length, then characters.
   */
  method ValidateUsername(username: string) returns (error: Option<string>)
    ensures error == None <==> ValidHandle(username)
    ensures error == Some(RequiredMessage) <==> username == []
    ensures error == Some(LengthMessage) <==> username != [] && !(MinLength <= |username| <= MaxLength)
    ensures error == Some(CharsetMessage) <==> MinLength <= |username| <= MaxLength && !ValidHandle(username)
  {
    if username == [] {
      return Some(RequiredMessage);
    }
    if !(MinLength <= |username| <= MaxLength) {
      return Some(LengthMessage);
    }
    for i := 0 to |username|
      invariant forall k :: 0 <= k < i ==> IsHandleChar(username[k])
    {
      if !(IsAlnum(username[i]) || username[i] in {'_', '.'}) {
        return Some(CharsetMessage);
      }
    }
    return None;
  }
}
