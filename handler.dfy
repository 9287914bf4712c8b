/**
 * One webhook request, end to end: the early returns for requests that
 * carry no message text, the load of the chat's record, the dispatch step,
 * the single store operation, and the reply addressed to the chat.
 */
module Handler {
  import opened Session
  import opened Dispatch

  /** The parts of a Telegram update the handler looks at. An absent text
      is `None`; a message without a chat is not modelled. */
  datatype Message = Message(chatId: int, text: Option<string>)
  datatype Update = Update(message: Option<Message>)

  /** A request body: not JSON at all, or JSON that may hold an update. */
  datatype Body = InvalidJson | Json(update: Option<Update>)

  /** `verb` is the HTTP method. */
  datatype Request = Request(verb: string, body: Body)

  /** What the handler answers: a plain response body, or a sendMessage
      call addressed to a chat. */
  datatype Response = Plain(body: string) | SendMessage(chatId: int, text: string)

  /** The outcome of the early guards: a response that ends the request,
      or the chat id and (non-empty) text of a message to process. */
  datatype Envelope = Early(response: string) | Text(chatId: int, text: string)

  /** The guards before the store is opened. An empty text counts as no text. */
  function Inbound(req: Request): (r: Envelope)
    ensures r.Text? <==>
      && req.verb == "POST" && req.body.Json? && req.body.update.Some?
      && req.body.update.value.message.Some?
      && req.body.update.value.message.value.text.Some?
      && req.body.update.value.message.value.text.value != ""
    ensures r.Text? ==>
      && r.chatId == req.body.update.value.message.value.chatId
      && r.text == req.body.update.value.message.value.text.value
    ensures req.verb != "POST" ==> r == Early("OK")
    ensures req.verb == "POST" && req.body.InvalidJson? ==> r == Early("Invalid JSON")
    ensures r.Early? && req.verb == "POST" && req.body.Json? ==> r == Early("No message")
  {
    if req.verb != "POST" then Early("OK")
    else match req.body
      case InvalidJson => Early("Invalid JSON")
      case Json(update) =>
        if update.None? || update.value.message.None? then Early("No message")
        else
          var message := update.value.message.value;
          if message.text.None? || message.text.value == "" then Early("No message")
          else Text(message.chatId, message.text.value)
  }

  /** The chat a request would be processed for, if it carries text. */
  function ChatOf(req: Request): Option<int>
  {
    match Inbound(req)
    case Early(_) => None
    case Text(c, _) => Some(c)
  }

  /** Replies to the chat with `text`; a chat id of 0 gets a plain "OK". */
  function SendTgMessage(chatId: int, text: string): (r: Response)
    ensures chatId != 0 ==> r.SendMessage? && r.chatId == chatId && r.text == text
    ensures chatId == 0 ==> r == Plain("OK")
  {
    if chatId == 0 then Plain("OK") else SendMessage(chatId, text)
  }

  /** The store after a request, the response, and the remote call made. */
  datatype Handled = Handled(store: Store, response: Response, call: Call)

  /** The whole handler, on a store value. */
  function Handle(m: Store, req: Request, oc: Outcomes): (r: Handled)
    // requests without message text neither touch the store nor call out
    ensures Inbound(req).Early? ==>
      r.store == m && r.call == NoCall && r.response == Plain(Inbound(req).response)
    // a message changes at most its own chat's record
    ensures Inbound(req).Text? ==> OnlyKeyChanged(m, r.store, ChatKey(Inbound(req).chatId))
    ensures ValidStore(m) ==> ValidStore(r.store)
  {
    match Inbound(req)
    case Early(response) => Handled(m, Plain(response), NoCall)
    case Text(chatId, text) =>
      var key := ChatKey(chatId);
      var t := Step(Load(m, key), text, oc);
      Handled(Apply(m, key, t.op), SendTgMessage(chatId, t.reply), t.call)
  }

  /** /start answers the help text and changes nothing, in every state. */
  lemma StartKeepsStore(m: Store, req: Request, oc: Outcomes, c: int)
    requires Inbound(req) == Text(c, "/start")
    ensures Handle(m, req, oc) == Handled(m, SendTgMessage(c, START_REPLY), NoCall)
  {
  }

  /** /login stores AwaitingPhoneNo from every state and calls nothing. */
  lemma LoginAwaitsPhone(m: Store, req: Request, oc: Outcomes, c: int)
    requires Inbound(req) == Text(c, "/login")
    ensures Handle(m, req, oc) ==
      Handled(m[ChatKey(c) := AwaitingPhoneNo], SendTgMessage(c, PHONE_PROMPT), NoCall)
  {
  }

  /** A phone number without a leading '+' is refused before any login call. */
  lemma PhoneNeedsPlus(m: Store, req: Request, oc: Outcomes, c: int, text: string)
    requires Inbound(req) == Text(c, text)
    requires Load(m, ChatKey(c)) == AwaitingPhoneNo
    requires !StartsWith(text, '/') && !StartsWith(text, '+')
    ensures Handle(m, req, oc) == Handled(m, SendTgMessage(c, PHONE_FORMAT_REPLY), NoCall)
  {
  }

  /** A '+' phone number is sent to the login service; on success the exact
      text and the unmodified login response are stored, on failure nothing
      changes. */
  lemma PhoneStep(m: Store, req: Request, oc: Outcomes, c: int, text: string)
    requires Inbound(req) == Text(c, text)
    requires Load(m, ChatKey(c)) == AwaitingPhoneNo
    requires StartsWith(text, '+')
    ensures Handle(m, req, oc).call == LoginCall(text)
    ensures oc.login.Ok? ==>
      Handle(m, req, oc) ==
        Handled(m[ChatKey(c) := AwaitingOtp(text, oc.login.value)],
                SendTgMessage(c, OTP_PROMPT), LoginCall(text))
    ensures oc.login.Fail? ==>
      Handle(m, req, oc) == Handled(m, SendTgMessage(c, LOGIN_FAILED_REPLY), LoginCall(text))
  {
  }

  /** Non-'/' text while an OTP is awaited goes to OTP verification with the
      stored phone number and login response; a rejected call or an empty
      installation id keeps the record as it was. */
  lemma OtpFailureKeepsState(m: Store, req: Request, oc: Outcomes, c: int, text: string,
                             phone: string, login: LoginResponse)
    requires Inbound(req) == Text(c, text)
    requires Load(m, ChatKey(c)) == AwaitingOtp(phone, login)
    requires !StartsWith(text, '/')
    ensures Handle(m, req, oc).call == VerifyOtpCall(phone, login, text)
    ensures oc.verifyOtp.Fail? ==>
      Handle(m, req, oc).store == m && Handle(m, req, oc).response == SendTgMessage(c, OTP_FAILED_REPLY)
    ensures oc.verifyOtp == Ok(OtpResponse("")) ==>
      Handle(m, req, oc).store == m && Handle(m, req, oc).response == SendTgMessage(c, INVALID_OTP_REPLY)
  {
  }

  /** A successful verification logs the chat in with the returned
      installation id and the country code of the STORED login response. */
  lemma OtpSuccessLogsIn(m: Store, req: Request, oc: Outcomes, c: int, text: string,
                         phone: string, login: LoginResponse, id: string)
    requires Inbound(req) == Text(c, text)
    requires Load(m, ChatKey(c)) == AwaitingOtp(phone, login)
    requires !StartsWith(text, '/')
    requires oc.verifyOtp == Ok(OtpResponse(id)) && id != ""
    ensures Handle(m, req, oc) ==
      Handled(m[ChatKey(c) := LoggedIn(id, login.parsedCountryCode)],
              SendTgMessage(c, LOGIN_SUCCESS_REPLY), VerifyOtpCall(phone, login, text))
  {
  }

  /** /logout removes the record in every state without calling out, so the
      next load of the chat reads LoggedOut. */
  lemma LogoutDeletes(m: Store, req: Request, oc: Outcomes, c: int)
    requires Inbound(req) == Text(c, "/logout")
    ensures Handle(m, req, oc) == Handled(m - {ChatKey(c)}, SendTgMessage(c, LOGOUT_REPLY), NoCall)
    ensures Load(Handle(m, req, oc).store, ChatKey(c)) == LoggedOut
  {
  }

  /** Any other text outside LoggedIn (including unknown '/' text while a
      phone or OTP is awaited, and a chat with no record) gets the "please
      login" reply and changes nothing. */
  lemma PleaseLoginFallback(m: Store, req: Request, oc: Outcomes, c: int, text: string)
    requires Inbound(req) == Text(c, text)
    requires !IsCommand(text)
    requires Load(m, ChatKey(c)).LoggedOut? ||
             (!Load(m, ChatKey(c)).LoggedIn? && StartsWith(text, '/'))
    ensures Handle(m, req, oc) == Handled(m, SendTgMessage(c, PLEASE_LOGIN_REPLY), NoCall)
  {
  }

  /** When logged in, all text but the three commands, unknown '/' text
      included, is a search query with the stored credentials; the store is
      not modified and the reply is the name, "No result found." or
      "Search failed.". */
  lemma SearchStep(m: Store, req: Request, oc: Outcomes, c: int, text: string,
                   id: string, country: string)
    requires Inbound(req) == Text(c, text)
    requires Load(m, ChatKey(c)) == LoggedIn(id, country)
    requires !IsCommand(text)
    ensures Handle(m, req, oc).store == m
    ensures Handle(m, req, oc).call == SearchCall(text, country, id)
    ensures Handle(m, req, oc).response == SendTgMessage(c,
      match oc.search
      case Fail => SEARCH_FAILED_REPLY
      case Ok(name) => if name == "" then NO_RESULT_REPLY else name)
  {
  }
}
