/**
 * The command/state dispatch chain of the webhook handler: given a chat's
 * current record, the message text and the outcome each remote call would
 * have, it decides the one store operation, the remote call made (if any)
 * and the reply text.
 */
module Dispatch {
  import opened Session

  /** The result of a remote call: resolved with a value, or rejected. */
  datatype Outcome<T> = Ok(value: T) | Fail

  /** What the login, OTP-verification and search services answer, should
      the handler call them while processing this message. */
  datatype Outcomes = Outcomes(
    login: Outcome<LoginResponse>,
    verifyOtp: Outcome<OtpResponse>,
    search: Outcome<string>)

  /** The remote call a message causes, with its arguments. */
  datatype Call =
    | NoCall
    | LoginCall(phoneNumber: string)
    | VerifyOtpCall(phoneNumber: string, loginResponse: LoginResponse, otp: string)
    | SearchCall(number: string, countryCode: string, installationId: string)

  /** The decision for one message. */
  datatype Transition = Transition(op: StoreOp, call: Call, reply: string)

  const START_REPLY := "Use /login to login with your Truecaller account."
  const PHONE_PROMPT := "Enter phone number in +91 format:"
  const PHONE_FORMAT_REPLY := "Phone must start with +"
  const LOGIN_FAILED_REPLY := "Login failed. Try later."
  const OTP_PROMPT := "Enter OTP:"
  const OTP_FAILED_REPLY := "OTP verification failed."
  const INVALID_OTP_REPLY := "Invalid OTP or login failed."
  const LOGIN_SUCCESS_REPLY := "Login successful."
  const LOGOUT_REPLY := "Logged out."
  const PLEASE_LOGIN_REPLY := "Please /login first."
  const SEARCH_FAILED_REPLY := "Search failed."
  const NO_RESULT_REPLY := "No result found."

  /** The three recognised commands, matched exactly. */
  predicate IsCommand(text: string)
  {
    text == "/start" || text == "/login" || text == "/logout"
  }

  /**
   * The guard chain, in the handler's order: /start, /login, the phone step,
   * the OTP step, /logout, the "please login" fallback, and the search.
   */
  function Step(s: KvValue, text: string, oc: Outcomes): (r: Transition)
    // the commands never reach a remote service, whatever the state
    ensures IsCommand(text) ==> r.call == NoCall
    ensures r.op.Delete? <==> text == "/logout"
    ensures text == "/start" ==> r.op == Keep
    // the login service is called exactly for '+' text while a phone is awaited
    ensures r.call.LoginCall? <==> s.AwaitingPhoneNo? && StartsWith(text, '+')
    ensures r.call.LoginCall? ==> r.call.phoneNumber == text
    // OTP verification: exactly for non-'/' text while an OTP is awaited,
    // with the stored phone number and login response
    ensures r.call.VerifyOtpCall? <==> s.AwaitingOtp? && !StartsWith(text, '/')
    ensures r.call.VerifyOtpCall? ==>
      r.call == VerifyOtpCall(s.phoneNumber, s.loginResponse, text)
    // search: exactly for non-command text once logged in, with the stored credentials
    ensures r.call.SearchCall? <==> s.LoggedIn? && !IsCommand(text)
    ensures r.call.SearchCall? ==>
      r.call == SearchCall(text, s.countryCode, s.installationId) && r.op == Keep
    // the records that get written, and the only ways to write them
    ensures r.op == Set(AwaitingPhoneNo) <==> text == "/login"
    ensures r.op.Set? && r.op.value.AwaitingOtp? ==>
      && s.AwaitingPhoneNo? && oc.login == Ok(r.op.value.loginResponse)
      && r.op.value.phoneNumber == text && StartsWith(text, '+')
    ensures r.op.Set? && r.op.value.LoggedIn? ==>
      && s.AwaitingOtp? && !StartsWith(text, '/')
      && oc.verifyOtp == Ok(OtpResponse(r.op.value.installationId))
      && r.op.value.installationId != ""
      && r.op.value.countryCode == s.loginResponse.parsedCountryCode
    ensures r.op.Set? ==> ValidSession(r.op.value)
    // a remote failure never advances the state
    ensures r.call.LoginCall? && oc.login.Fail? ==> r.op == Keep
    ensures r.call.VerifyOtpCall? && oc.verifyOtp.Fail? ==> r.op == Keep
  {
    if text == "/start" then
      Transition(Keep, NoCall, START_REPLY)
    else if text == "/login" then
      Transition(Set(AwaitingPhoneNo), NoCall, PHONE_PROMPT)
    else if s.AwaitingPhoneNo? && !StartsWith(text, '/') then
      if !StartsWith(text, '+') then
        Transition(Keep, NoCall, PHONE_FORMAT_REPLY)
      else
        match oc.login
        case Fail => Transition(Keep, LoginCall(text), LOGIN_FAILED_REPLY)
        case Ok(response) =>
          Transition(Set(AwaitingOtp(text, response)), LoginCall(text), OTP_PROMPT)
    else if s.AwaitingOtp? && !StartsWith(text, '/') then
      var call := VerifyOtpCall(s.phoneNumber, s.loginResponse, text);
      match oc.verifyOtp
      case Fail => Transition(Keep, call, OTP_FAILED_REPLY)
      case Ok(otp) =>
        if otp.installationId == "" then
          Transition(Keep, call, INVALID_OTP_REPLY)
        else
          Transition(
            Set(LoggedIn(otp.installationId, s.loginResponse.parsedCountryCode)),
            call, LOGIN_SUCCESS_REPLY)
    else if text == "/logout" then
      Transition(Delete, NoCall, LOGOUT_REPLY)
    else if !s.LoggedIn? then
      Transition(Keep, NoCall, PLEASE_LOGIN_REPLY)
    else
      var call := SearchCall(text, s.countryCode, s.installationId);
      match oc.search
      case Fail => Transition(Keep, call, SEARCH_FAILED_REPLY)
      case Ok(name) => Transition(Keep, call, if name == "" then NO_RESULT_REPLY else name)
  }
}
