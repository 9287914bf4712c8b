/**
 * Successive webhook deliveries against one store: each is handled against
 * the store that the previous ones left. These lemmas state what holds of
 * every run: the store stays valid, other chats are never disturbed, and a
 * login or a pending OTP can only come from a successful remote call.
 */
module Traces {
  import opened Session
  import opened Dispatch
  import opened Handler

  /** One delivery: the request and what the remote services answer to it. */
  datatype Delivery = Delivery(req: Request, oc: Outcomes)

  /** The store after handling `ds` in order, starting from `m`. */
  function Run(m: Store, ds: seq<Delivery>): Store
    decreases |ds|
  {
    if ds == [] then m
    else
      var last := ds[|ds| - 1];
      Handle(Run(m, ds[..|ds| - 1]), last.req, last.oc).store
  }

  /** Every stored record stays one the handler could have written. */
  lemma {:induction false} RunPreservesValid(m: Store, ds: seq<Delivery>)
    requires ValidStore(m)
    ensures ValidStore(Run(m, ds))
    decreases |ds|
  {
    if ds != [] {
      RunPreservesValid(m, ds[..|ds| - 1]);
    }
  }

  /** Messages for other chats never change a chat's record. */
  lemma {:induction false} RunIsolation(m: Store, ds: seq<Delivery>, c: int)
    requires forall i :: 0 <= i < |ds| ==> ChatOf(ds[i].req) != Some(c)
    ensures EqualAt(m, Run(m, ds), ChatKey(c))
    decreases |ds|
  {
    if ds != [] {
      var pre := ds[..|ds| - 1];
      RunIsolation(m, pre, c);
      var last := ds[|ds| - 1];
      assert ChatOf(last.req) != Some(c);
      var before := Run(m, pre);
      var after := Handle(before, last.req, last.oc).store;
      if Inbound(last.req).Text? {
        assert ChatKey(Inbound(last.req).chatId) != ChatKey(c);
        assert EqualAt(before, after, ChatKey(c));
      }
    }
  }

  /** Delivery `i` of `ds` is a successful OTP step for chat `c`: the chat
      was awaiting an OTP, the service was asked with the stored phone number
      and login response, it returned installation id `id`, and the chat is
      left logged in with `id` and the stored response's country code `cc`. */
  ghost predicate OtpLoginAt(m: Store, ds: seq<Delivery>, i: int, c: int, id: string, cc: string)
    requires 0 <= i < |ds|
  {
    var before := Load(Run(m, ds[..i]), ChatKey(c));
    var h := Handle(Run(m, ds[..i]), ds[i].req, ds[i].oc);
    && Inbound(ds[i].req).Text? && Inbound(ds[i].req).chatId == c
    && before.AwaitingOtp?
    && h.call == VerifyOtpCall(before.phoneNumber, before.loginResponse, Inbound(ds[i].req).text)
    && ds[i].oc.verifyOtp == Ok(OtpResponse(id)) && id != ""
    && cc == before.loginResponse.parsedCountryCode
    && Load(h.store, ChatKey(c)) == LoggedIn(id, cc)
  }

  /** Delivery `i` of `ds` is a successful phone step for chat `c`: the chat
      was awaiting a phone number, the login service was asked with the
      message text `phone`, returned `response`, and both were stored. */
  ghost predicate PhoneLoginAt(m: Store, ds: seq<Delivery>, i: int, c: int,
                               phone: string, response: LoginResponse)
    requires 0 <= i < |ds|
  {
    var before := Load(Run(m, ds[..i]), ChatKey(c));
    var h := Handle(Run(m, ds[..i]), ds[i].req, ds[i].oc);
    && Inbound(ds[i].req) == Text(c, phone)
    && before == AwaitingPhoneNo
    && h.call == LoginCall(phone)
    && ds[i].oc.login == Ok(response)
    && Load(h.store, ChatKey(c)) == AwaitingOtp(phone, response)
  }

  /** The record after one delivery, for the delivery's own chat or another. */
  lemma StepAt(before: Store, d: Delivery, c: int)
    ensures var after := Handle(before, d.req, d.oc).store;
      Load(after, ChatKey(c)) == Load(before, ChatKey(c)) ||
      (Inbound(d.req).Text? && Inbound(d.req).chatId == c &&
       Load(after, ChatKey(c)) ==
         Load(Apply(before, ChatKey(c), Step(Load(before, ChatKey(c)), Inbound(d.req).text, d.oc).op),
              ChatKey(c)))
  {
  }

  /** There is no way into LoggedIn except a successful OTP verification. */
  lemma {:induction false} LoggedInNeedsOtp(m: Store, ds: seq<Delivery>, c: int,
                                           id: string, cc: string)
    requires !Load(m, ChatKey(c)).LoggedIn?
    requires Load(Run(m, ds), ChatKey(c)) == LoggedIn(id, cc)
    ensures exists i :: 0 <= i < |ds| && OtpLoginAt(m, ds, i, c, id, cc)
    decreases |ds|
  {
    if ds != [] {
      var n := |ds| - 1;
      var pre := ds[..n];
      assert pre == ds[..n];
      var before := Run(m, pre);
      StepAt(before, ds[n], c);
      if Load(before, ChatKey(c)) == LoggedIn(id, cc) {
        LoggedInNeedsOtp(m, pre, c, id, cc);
        var i :| 0 <= i < |pre| && OtpLoginAt(m, pre, i, c, id, cc);
        assert pre[..i] == ds[..i];
        assert OtpLoginAt(m, ds, i, c, id, cc);
      } else {
        assert OtpLoginAt(m, ds, n, c, id, cc);
      }
    }
  }

  /** There is no way into AwaitingOtp except a successful login call with
      the very phone number and login response that are stored. */
  lemma {:induction false} AwaitingOtpNeedsLogin(m: Store, ds: seq<Delivery>, c: int,
                                                phone: string, response: LoginResponse)
    requires !Load(m, ChatKey(c)).AwaitingOtp?
    requires Load(Run(m, ds), ChatKey(c)) == AwaitingOtp(phone, response)
    ensures exists i :: 0 <= i < |ds| && PhoneLoginAt(m, ds, i, c, phone, response)
    decreases |ds|
  {
    if ds != [] {
      var n := |ds| - 1;
      var pre := ds[..n];
      var before := Run(m, pre);
      StepAt(before, ds[n], c);
      if Load(before, ChatKey(c)) == AwaitingOtp(phone, response) {
        AwaitingOtpNeedsLogin(m, pre, c, phone, response);
        var i :| 0 <= i < |pre| && PhoneLoginAt(m, pre, i, c, phone, response);
        assert pre[..i] == ds[..i];
        assert PhoneLoginAt(m, ds, i, c, phone, response);
      } else {
        assert PhoneLoginAt(m, ds, n, c, phone, response);
      }
    }
  }

  /** From a chat that is neither awaiting an OTP nor logged in, reaching
      LoggedIn(id, cc) takes a successful login call that returned some
      response, followed later by a successful OTP verification presented
      with that same, unmodified response; `cc` is that response's
      parsedCountryCode. */
  lemma LoginChain(m: Store, ds: seq<Delivery>, c: int, id: string, cc: string)
    requires !Load(m, ChatKey(c)).LoggedIn? && !Load(m, ChatKey(c)).AwaitingOtp?
    requires Load(Run(m, ds), ChatKey(c)) == LoggedIn(id, cc)
    ensures exists j, i, phone, response ::
      0 <= j < i < |ds| && PhoneLoginAt(m, ds, j, c, phone, response) &&
      OtpLoginAt(m, ds, i, c, id, cc) &&
      Handle(Run(m, ds[..i]), ds[i].req, ds[i].oc).call.loginResponse == response &&
      cc == response.parsedCountryCode
  {
    LoggedInNeedsOtp(m, ds, c, id, cc);
    var i :| 0 <= i < |ds| && OtpLoginAt(m, ds, i, c, id, cc);
    var pre := ds[..i];
    var before := Load(Run(m, pre), ChatKey(c));
    AwaitingOtpNeedsLogin(m, pre, c, before.phoneNumber, before.loginResponse);
    var j :| 0 <= j < |pre| && PhoneLoginAt(m, pre, j, c, before.phoneNumber, before.loginResponse);
    assert pre[..j] == ds[..j];
    assert PhoneLoginAt(m, ds, j, c, before.phoneNumber, before.loginResponse);
  }

  /** "/logout" followed by "/start" leaves the chat logged out, whatever
      state it was in. */
  lemma LogoutThenStart(m: Store, logout: Delivery, start: Delivery, c: int)
    requires Inbound(logout.req) == Text(c, "/logout")
    requires Inbound(start.req) == Text(c, "/start")
    ensures Load(Run(m, [logout, start]), ChatKey(c)) == LoggedOut
  {
  }
}
