/**
 * The handler as the program runs it: an object-backed key-value store that
 * the request handler reads once and then writes or deletes at most once,
 * with the same early returns, in the same order, as the source.
 */
module Kv {
  import opened Session
  import opened Dispatch
  import opened Handler

  /** One access to the store, as recorded in its ghost log. */
  datatype Access = Read(key: Key) | Write(key: Key) | Remove(key: Key)

  /** The key-value store. `log` is a ghost record of every access made. */
  class KvStore {
    var entries: Store
    ghost var log: seq<Access>

    constructor (initial: Store)
      ensures entries == initial && log == []
    {
      entries := initial;
      log := [];
    }

    /** `get`: the value under `key`, if any. */
    method Get(key: Key) returns (v: Option<KvValue>)
      modifies this`log
      ensures v == if key in entries then Some(entries[key]) else None
      ensures entries == old(entries) && log == old(log) + [Read(key)]
    {
      v := if key in entries then Some(entries[key]) else None;
      log := log + [Read(key)];
    }

    /** `set`: stores `value` under `key`, replacing what was there. */
    method Set(key: Key, value: KvValue)
      modifies this
      ensures entries == old(entries)[key := value] && log == old(log) + [Write(key)]
    {
      entries := entries[key := value];
      log := log + [Write(key)];
    }

    /** `delete`: removes `key`; nothing happens if it is absent. */
    method Delete(key: Key)
      modifies this
      ensures entries == old(entries) - {key} && log == old(log) + [Remove(key)]
    {
      entries := entries - {key};
      log := log + [Remove(key)];
    }
  }

  /** The accesses one request makes: none without message text; otherwise
      one read of the chat's key, then at most one write or delete of it. */
  function Accesses(m: Store, req: Request, oc: Outcomes): (r: seq<Access>)
    ensures Inbound(req).Early? ==> r == []
    ensures Inbound(req).Text? ==>
      && 1 <= |r| <= 2 && r[0] == Read(ChatKey(Inbound(req).chatId))
      && forall i :: 1 <= i < |r| ==> !r[i].Read? && r[i].key == ChatKey(Inbound(req).chatId)
    ensures |r| == 2 <==> Inbound(req).Text? && !Step(Load(m, ChatKey(Inbound(req).chatId)),
                                                      Inbound(req).text, oc).op.Keep?
    ensures |r| == 2 ==> (r[1].Remove? <==> Inbound(req).text == "/logout")
  {
    match Inbound(req)
    case Early(_) => []
    case Text(chatId, text) =>
      var key := ChatKey(chatId);
      [Read(key)] +
        match Step(Load(m, key), text, oc).op
        case Keep => []
        case Set(_) => [Write(key)]
        case Delete => [Remove(key)]
  }

  /**
   * The request handler. `oc` gives the answer of each remote service;
   * `call` reports which one was called and with what.
   */
  method Serve(kv: KvStore, req: Request, oc: Outcomes) returns (resp: Response, call: Call)
    modifies kv
    ensures Handled(kv.entries, resp, call) == Handle(old(kv.entries), req, oc)
    ensures kv.log == old(kv.log) + Accesses(old(kv.entries), req, oc)
  {
    call := NoCall;
    if req.verb != "POST" {
      return Plain("OK"), call;
    }
    if req.body.InvalidJson? {
      return Plain("Invalid JSON"), call;
    }
    var update := req.body.update;
    if update.None? || update.value.message.None?
       || update.value.message.value.text.None? || update.value.message.value.text.value == "" {
      return Plain("No message"), call;
    }
    var message := update.value.message.value;
    var text := message.text.value;
    var chatId := message.chatId;
    var key := ChatKey(chatId);

    var stored := kv.Get(key);
    var kvValue := if stored.Some? then stored.value else LoggedOut;

    if text == "/start" {
      return SendTgMessage(chatId, START_REPLY), call;
    }

    if text == "/login" {
      kv.Set(key, AwaitingPhoneNo);
      return SendTgMessage(chatId, PHONE_PROMPT), call;
    }

    if kvValue.AwaitingPhoneNo? && !StartsWith(text, '/') {
      if !StartsWith(text, '+') {
        return SendTgMessage(chatId, PHONE_FORMAT_REPLY), call;
      }
      call := LoginCall(text);
      match oc.login
      case Fail =>
        return SendTgMessage(chatId, LOGIN_FAILED_REPLY), call;
      case Ok(response) =>
        kv.Set(key, AwaitingOtp(text, response));
        return SendTgMessage(chatId, OTP_PROMPT), call;
    }

    if kvValue.AwaitingOtp? && !StartsWith(text, '/') {
      call := VerifyOtpCall(kvValue.phoneNumber, kvValue.loginResponse, text);
      match oc.verifyOtp
      case Fail =>
        return SendTgMessage(chatId, OTP_FAILED_REPLY), call;
      case Ok(otp) =>
        if otp.installationId == "" {
          return SendTgMessage(chatId, INVALID_OTP_REPLY), call;
        }
        kv.Set(key, LoggedIn(otp.installationId, kvValue.loginResponse.parsedCountryCode));
        return SendTgMessage(chatId, LOGIN_SUCCESS_REPLY), call;
    }

    if text == "/logout" {
      kv.Delete(key);
      return SendTgMessage(chatId, LOGOUT_REPLY), call;
    }

    if !kvValue.LoggedIn? {
      return SendTgMessage(chatId, PLEASE_LOGIN_REPLY), call;
    }

    call := SearchCall(text, kvValue.countryCode, kvValue.installationId);
    match oc.search
    case Fail =>
      return SendTgMessage(chatId, SEARCH_FAILED_REPLY), call;
    case Ok(name) =>
      return SendTgMessage(chatId, if name == "" then NO_RESULT_REPLY else name), call;
  }
}
