/**
 * The per-chat session record and the key-value store that holds it.
 *
 * Each chat's record lives under the key ["users", chatId]; a missing
 * record reads as `LoggedOut`. The store is a plain map: durability and
 * consistency of the real key-value service are not modelled.
 */
module Session {

  datatype Option<T> = None | Some(value: T)

  /** The login service's answer to a login request. The handler reads only
      `parsedCountryCode`; every other field is carried along untouched and
      stands here as the opaque `challenge`. */
  datatype LoginResponse = LoginResponse(parsedCountryCode: string, challenge: string)

  /** The OTP service's answer; an absent installation id is the empty string. */
  datatype OtpResponse = OtpResponse(installationId: string)

  /** The stored record of one chat: a closed four-way union. */
  datatype KvValue =
    | AwaitingPhoneNo
    | AwaitingOtp(phoneNumber: string, loginResponse: LoginResponse)
    | LoggedIn(installationId: string, countryCode: string)
    | LoggedOut

  /** A store key: a namespace and a chat id. */
  type Key = (string, int)

  type Store = map<Key, KvValue>

  /** The key a chat's record is stored under. */
  function ChatKey(chatId: int): Key
  {
    ("users", chatId)
  }

  /** Reads a chat's record, defaulting to `LoggedOut` when there is none. */
  function Load(m: Store, k: Key): (v: KvValue)
    ensures k in m ==> v == m[k]
    ensures k !in m ==> v == LoggedOut
  {
    if k in m then m[k] else LoggedOut
  }

  /** What one message does to the store: nothing, a write or a delete, on one key. */
  datatype StoreOp = Keep | Set(value: KvValue) | Delete

  /** `m` and `m'` agree at `k`: absent from both, or present with one value. */
  ghost predicate EqualAt(m: Store, m': Store, k: Key)
  {
    (k in m <==> k in m') && (k in m ==> m[k] == m'[k])
  }

  /** `m'` differs from `m` at most at `key`. */
  ghost predicate OnlyKeyChanged(m: Store, m': Store, key: Key)
  {
    forall k :: k != key ==> EqualAt(m, m', k)
  }

  /** Performs a store operation on one key. */
  function Apply(m: Store, key: Key, op: StoreOp): (r: Store)
    ensures OnlyKeyChanged(m, r, key)
    ensures op.Keep? ==> r == m
    ensures op.Set? ==> key in r && r[key] == op.value
    ensures op.Delete? ==> key !in r && Load(r, key) == LoggedOut
  {
    match op
    case Keep => m
    case Set(v) => m[key := v]
    case Delete => m - {key}
  }

  function StartsWith(s: string, c: char): bool
  {
    |s| > 0 && s[0] == c
  }

  /** What every record the handler writes satisfies: a pending OTP belongs
      to a phone number that starts with '+', and a login has a non-empty
      installation id. */
  ghost predicate ValidSession(v: KvValue)
  {
    match v
    case AwaitingPhoneNo => true
    case AwaitingOtp(phone, _) => StartsWith(phone, '+')
    case LoggedIn(id, _) => id != ""
    case LoggedOut => false
  }

  /** Every stored record is one the handler could have written; in
      particular a `LoggedOut` record is never stored (absence stands for it). */
  ghost predicate ValidStore(m: Store)
  {
    forall k :: k in m ==> ValidSession(m[k])
  }
}
