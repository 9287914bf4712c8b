# truecallerjs_bot: the per-chat login and lookup state machine

This project models the Telegram webhook handler of a bot. The bot logs a user in to a caller-id service by phone number and one-time passcode (OTP), then looks up numbers for them.
Each chat has one record in a key-value store, under the key `["users", chatId]`. The record is one of four values:

- `awaiting_phone_no`;
- `awaiting_otp`, holding a phone number and a login response;
- `logged_in`, holding an installation id and a country code;
- `logged_out`. A missing record also reads as `logged_out`.

Each inbound message goes through a fixed chain of early-return guards, in this order: `/start`, `/login`, the phone step, the OTP step, `/logout`, the "please login" fallback, and the search.
Handling one message makes at most one write or delete, on the chat's own key, and produces one reply. This holds when deliveries are handled one after another (see the `tgChatId` line under "## Left out").

Modules:

- `Session` (session.dfy) holds the record type `KvValue`, the store as a `map`, the defaulting load `Load`, the single-key store operation `Apply`, and the validity predicates.
- `Dispatch` (dispatch.dfy) holds the pure guard chain `Step`. It takes the current record, the message text and the answer each remote service would give. It returns the store operation, the remote call made with its arguments, and the reply text.
- `Handler` (handler.dfy) holds the early returns for requests with no message text (`Inbound`), the reply builder (`SendTgMessage`), and the whole request as a function (`Handle`). It also holds one lemma per branch of the guard chain.
- `Kv` (kv.dfy) holds the imperative handler `Serve`, which mirrors the source statement by statement. It runs over a `KvStore` object whose `Get`, `Set` and `Delete` methods update a map field and a ghost access log. `Serve` is proved to agree with `Handle`, and its accesses are exactly `Accesses`.
- `Traces` (traces.dfy) holds `Run`, which applies a sequence of deliveries to one store, and lemmas that hold for every run. Validity is preserved. Other chats are isolated. `LoggedIn` and `AwaitingOtp` can only be reached through successful remote calls, and those calls pass the login response through unchanged.

The login service, OTP verification and search are foreign network calls. They are parameters: an `Outcomes` value gives each one's answer, `Ok(value)` or `Fail` (the promise was rejected). The recorded `Call` says which service was called and with what arguments.
JavaScript truthiness is written out:

- an empty message text counts as no text ("No message");
- an empty `installationId` is an invalid OTP;
- an empty `getName()` result replies "No result found.".

In these places the code is easy to misread; the model follows the code:

- Unrecognised `/` text in `logged_in` is used as a search query (index.ts:124-135). In the other states it gets "Please /login first.".
- The `logged_in` country code comes from the stored login response's `parsedCountryCode` (index.ts:113), not from the OTP service's answer.
- `/logout` is tested after the phone and OTP steps (index.ts:119). It still takes effect in every state, because those steps only accept text that does not start with `/`.
- No failure deletes a record. Only `/logout` deletes.

## Model

| member | source | states |
|---|---|---|
| `Session.Load` | index.ts:51-52 | a stored record is returned as is; a missing record reads as LoggedOut |
| `Session.Apply` | index.ts:63-120 | a set or delete changes only the chat's key: a set stores exactly the given record, a delete makes the key absent and read as LoggedOut, and Keep leaves the store equal |
| `Dispatch.Step` | index.ts:54-141 | the commands never call a remote service; the result deletes exactly for "/logout"; login is called exactly for '+' text while a phone is awaited; OTP verification is called exactly for non-'/' text while an OTP is awaited, with the stored phone and login response; search is called exactly for non-command text when logged in, with the stored credentials, and keeps the store; AwaitingPhoneNo is written exactly for "/login"; AwaitingOtp is written only from AwaitingPhoneNo, with the exact text and the unmodified login result; LoggedIn is written only after a successful verification with a non-empty id, taking the country code of the stored login response; every written record is valid; a failed login or verification keeps the record |
| `Handler.Inbound` | index.ts:22-38 | a message is processed exactly for a POST whose JSON update has a message with non-empty text, and then with that message's chat id and text; otherwise the response is "OK", "Invalid JSON" or "No message", in the source's order |
| `Handler.SendTgMessage` | index.ts:148-159 | the reply is a sendMessage to the chat with the given text; a chat id of 0 gets a plain "OK" |
| `Handler.Handle` | index.ts:22-43 | a request without message text leaves the store equal and calls no service; a message changes no key but its own chat's; a valid store stays valid |
| `Handler.StartKeepsStore` | index.ts:54-59 | "/start" leaves the store equal in every state, calls nothing, and replies the help text |
| `Handler.LoginAwaitsPhone` | index.ts:61-65 | "/login" stores AwaitingPhoneNo from every state, calls nothing, and prompts for the phone number |
| `Handler.PhoneNeedsPlus` | index.ts:67-73 | while a phone is awaited, non-'/' text without a leading '+' gets "Phone must start with +", with no call and no store change |
| `Handler.PhoneStep` | index.ts:75-89 | a '+' text calls login with that text; on success the exact text and the unmodified login response are stored as AwaitingOtp, and on failure the store is unchanged and the reply is "Login failed. Try later." |
| `Handler.OtpFailureKeepsState` | index.ts:92-108 | while an OTP is awaited, non-'/' text calls verification with the stored phone, the stored login response and the text; a rejection or an empty installation id leave the store unchanged, with "OTP verification failed." or "Invalid OTP or login failed." |
| `Handler.OtpSuccessLogsIn` | index.ts:110-116 | a verification with a non-empty id stores LoggedIn with that id and the stored response's parsedCountryCode, and replies "Login successful." |
| `Handler.LogoutDeletes` | index.ts:119-122 | "/logout" deletes the chat's record in every state and calls nothing, so the next load reads LoggedOut |
| `Handler.PleaseLoginFallback` | index.ts:124-126 | outside LoggedIn, non-command text that no step claims gets "Please /login first." with no call and no change: any such text with no record, and unknown '/' text while a phone or OTP is awaited |
| `Handler.SearchStep` | index.ts:128-141 | when logged in, any text but the three commands (unknown '/' text included) is searched with the stored country code and installation id; the store is unchanged; the reply is the name, "No result found." for an empty name, or "Search failed." |
| `Kv.KvStore.constructor` | index.ts:42 | the opened store holds the given records and has no recorded accesses |
| `Kv.KvStore.Get` | index.ts:51 | returns the record under the key if there is one; records one read and changes no entry |
| `Kv.KvStore.Set` | index.ts:63 | the key now maps to the value and every other entry is as before; records one write |
| `Kv.KvStore.Delete` | index.ts:120 | the key is removed and every other entry is as before; records one removal |
| `Kv.Accesses` | index.ts:42-120 | a request without text makes no access; a message reads its chat's key once, then writes or deletes that key at most once, and does so exactly when the step's operation is not Keep; that second access is a delete exactly for "/logout" and a write otherwise |
| `Kv.Serve` | index.ts:20-141 | the imperative handler leaves the store, the response and the call exactly as `Handle` says, and its accesses are exactly `Accesses` |
| `Traces.RunPreservesValid` | index.ts:45-49 | over any sequence of deliveries, a valid store stays valid: a pending OTP's phone starts with '+', a login has a non-empty installation id, and no LoggedOut record is ever stored |
| `Traces.RunIsolation` | index.ts:43 | deliveries for other chats leave a chat's record exactly as it was |
| `Traces.LoggedInNeedsOtp` | index.ts:92-116 | a chat that was not logged in and ends LoggedIn(id, cc) had a delivery that verified an OTP with the stored phone and login response, got `id` back, and took `cc` from the stored response |
| `Traces.AwaitingOtpNeedsLogin` | index.ts:67-89 | a chat that ends AwaitingOtp(phone, response) without having started so had a delivery of text `phone` while a phone was awaited, whose login call returned exactly `response` |
| `Traces.LoginChain` | index.ts:83-113 | from a chat neither awaiting an OTP nor logged in, reaching LoggedIn(id, cc) needs a successful login that returned some response, and a later successful verification presented with that same response, whose parsedCountryCode is `cc` |
| `Traces.LogoutThenStart` | index.ts:54-122 | "/logout" followed by "/start" leaves the chat logged out, in every prior state |

## Left out

- HTTP serving, building `Response` objects, JSON parsing, and the sendMessage payload (index.ts:20-38, 148-159). The request is a datatype holding only the fields the handler reads. The response is a plain body or a sendMessage addressed to a chat.
- Updates whose JSON has a message without a `chat`, or fields of unexpected types (a numeric `text`, a string chat id), are not modelled. Depending on the state, the source either throws into the outer catch or carries on with them.
- The outer catch-all that answers "OK" after an unexpected fault, such as a store write that fails or a `getName()` that throws (index.ts:142-145). Store operations and the answer of `getName()` are modelled as always succeeding.
- `console.error` logging (index.ts:79, 102, 137, 143). It has no effect on state or replies.
- The login, OTP verification and search services (index.ts:77, 96, 131, 141). Each is modelled only by its answer, which is an input to the step. The login response is modelled as its `parsedCountryCode` plus one opaque field that stands for all the others.
- Deno KV persistence, durability and consistency beyond a map (index.ts:42).
- The module-level `tgChatId` (index.ts:18, 40). The chat id is passed explicitly, so two concurrent requests overwriting each other's chat id is not modelled. Because index.ts:43 reads `tgChatId` after the `await Deno.openKv()` at index.ts:42, under concurrent deliveries one chat's message can write or delete another chat's key and reply to another chat; the single-key guarantee of `Handler.Handle`, `Kv.Accesses` and `Traces.RunIsolation` holds only for deliveries handled one after another. Lost updates under duplicate or concurrent deliveries are not modelled either.
