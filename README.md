# SteamBot gift flow, modelled in Dafny

`SteamBot` (steambot/index.js) wraps a Steam client and a Steam store
session. It fills default options in at construction. It tracks a login
status driven by the client's `loggedOn` and `error` events. It answers
friend lookups and removes friends. Its one substantial operation is
`sendGift`, which:

- forgets any cart, adds every truthy product id and then every truthy
  bundle id (each add's reply replaces the local cart);
- refuses a falsy cart with 'Cart Error';
- checks the cart out as a gift, initiates and finalizes the transaction,
  waits 2000 ms and polls the transaction status;
- returns true only for a status object whose own `success` is 1 or 22;
  a null or undefined status, or one with its own `hasOwnProperty`, throws a
  TypeError; any other status makes it forget the cart, wait 500 ms and
  throw 'Gift Error';
- on any throw, forgets the cart once more and rethrows the same error.

The project has these modules:

- `JsValues` (js_values.dfy): the JavaScript values the bot inspects, with
  ToBoolean (`Truthy`) and objects updated in place (`JsObject`).
- `BotOptions` (bot_options.dfy): the default options, as a map function
  (`WithDefaults`) and as the constructor's in-place loop (`FillDefaults`),
  which is proved to compute it.
- `Session` (session.dfy): the status machine `Initialed` / `LoggedOn` /
  `LoggedError` and the replay of client events.
- `Store` (store.dfy): the store as a `Gateway`. It records every call in a
  trace and answers each awaited call through a `Responder`. A `Responder` is
  any function from the earlier calls and the current call to a resolved or
  rejected reply. So every proof about `sendGift` holds for every store
  whose awaited calls settle and whose `forgetCart` does not throw.
- `GiftFlow` (gift_flow.dfy): `sendGift` as a function from the store's
  behaviour to the completion (returned value or thrown error) and the full
  call trace. The lemmas cover the cart phase, each way a run can end, and one
  concrete run.
- `Bot` (steam_bot.dfy): the `SteamBot` class, with its constructor, event
  handlers, `getFriendRelationship`, `removeFriends` and `sendGift`. `sendGift`
  is imperative: its two add loops and the awaited steps are proved to produce
  exactly the outcome and trace of `GiftFlow.SendGift`. So every lemma of
  `GiftFlow` applies to it.

Some details of the code that the model keeps as they are:

- `sendGift` has no `country` parameter, so `initTransaction` always
  receives an undefined country.
- The `catch` block covers the cart phase too. A rejected add, and 'Cart
  Error' with no truthy ids at all, are both followed by a second
  `forgetCart`. An empty request therefore makes two store calls.
- The bot emits 'steamConnected' and 'clientError'. The option keys are
  `loginTimeout` and `loginCheckInterval`, in milliseconds.

## Model

| member | source | states |
|---|---|---|
| BotOptions.WithDefaults | steambot/index.js:13-28 | the result has the caller's keys plus the four default keys; no default key is left undefined; a missing or undefined default key gets its default; a key the caller set to anything but undefined (null included) keeps its value; non-default keys are unchanged |
| BotOptions.WithDefaultsIdempotent | steambot/index.js:20-28 | filling the defaults twice gives the same options as filling them once |
| BotOptions.FillDefaults | steambot/index.js:20-28 | the in-place loop over the default keys leaves the options object equal to `WithDefaults` of its old contents |
| Session.LastLogon | steambot/index.js:44-46 | the id found is that of a 'loggedOn' event with no 'loggedOn' event after it; there is none exactly when no 'loggedOn' event occurred |
| Session.ReplayDecided | steambot/index.js:43-54 | after any event sequence, the status is decided by the last event alone ('loggedOn' gives `LoggedOn`, 'error' gives `LoggedError`); the id is the last 'loggedOn' id, or the earlier id if there was none |
| Session.FromInitial | steambot/index.js:30-54 | from construction, the status is `Initialed` exactly while no event has occurred; `LoggedOn` always comes with the id of some 'loggedOn' event; with no 'loggedOn' the id stays null |
| Store.Gateway.Call | steambot/index.js:89-127 | an awaited store call is appended to the trace and answered by the store's behaviour, given the calls before it |
| Store.Gateway.Forget | steambot/index.js:129-131 | `forgetCart` is appended to the trace and not awaited |
| Store.Gateway.Sleep | steambot/index.js:185 | a delay is appended to the trace with its length in milliseconds |
| Bot.Client.RemoveFriend | steambot/index.js:77 | one `removeFriend` call is appended to the client's calls |
| Bot.SteamBot.constructor | steambot/index.js:10-41 | a given options object is kept (aliased) and has its defaults filled in place; a falsy one is replaced by a fresh object holding only the defaults; account and password come from the options; persona name and id are null; status is `Initialed` |
| Bot.SteamBot.OnLoggedOn | steambot/index.js:44-49 | the 'loggedOn' handler stores the client's id, sets `LoggedOn` and emits 'steamConnected' with that id (`Emitted` of the new state); the state stays the replay of the handled events |
| Bot.SteamBot.OnError | steambot/index.js:51-54 | the 'error' handler sets `LoggedError`, keeps the id and emits 'clientError' with the error (`Emitted` of the new state); the state stays the replay of the handled events |
| Bot.SteamBot.GetFriendRelationship | steambot/index.js:133-138 | the client's own friends-list entry for the id when there is one (even a falsy one), otherwise null |
| Bot.SteamBot.RemoveFriends | steambot/index.js:75-79 | one `removeFriend` per id, in list order, falsy ids included; earlier client calls are kept |
| GiftFlow.AddCallsAreTruthyIds | steambot/index.js:160-169 | a loop adds only truthy ids from its list, with its own add call (products with `addToCart`, bundles with `addBundleToCart`); it adds every truthy id; it adds nothing exactly when no id is truthy |
| GiftFlow.AddCallsInOrder | steambot/index.js:160-169 | when every id is truthy, the loop adds each one, in list order |
| GiftFlow.AddAllPrefix | steambot/index.js:160-169 | an add loop only appends to the trace |
| GiftFlow.AddAllBuilt | steambot/index.js:160-169 | an add loop that meets no rejection makes exactly its add calls |
| GiftFlow.AddAllCart | steambot/index.js:160-169 | after a loop without rejection, the cart is the reply to its last add call, or is unchanged when it added nothing |
| GiftFlow.AddAllRejected | steambot/index.js:160-169 | a loop that was aborted ended with a rejected add, and that rejection's reason is the one reported |
| GiftFlow.AddAllResolved | steambot/index.js:160-169 | an add loop makes no call after a rejected one: every add it made resolved, except the last one when the loop was aborted |
| GiftFlow.AddAllAborted | steambot/index.js:160-169 | the calls of a rejected loop are a prefix of its add calls: nothing after the rejected add |
| GiftFlow.BuildCalls | steambot/index.js:157-169 | cart building starts with `forgetCart`; without a rejection it makes all product adds and then all bundle adds |
| GiftFlow.BuildCart | steambot/index.js:157-169 | the resulting cart is the reply to the last add made, or null when nothing was added |
| GiftFlow.BuildEndsWithBundle | steambot/index.js:165-169 | when some bundle id is truthy, the last add is a bundle add, so a bundle reply overrides the products' cart |
| GiftFlow.BuildAborted | steambot/index.js:157-169 | when cart building aborted, the calls after the reset are a prefix of the adds, and the last of them was rejected with the reported reason |
| GiftFlow.BuildResolved | steambot/index.js:157-169 | cart building makes no call after a rejected add: every awaited call after the reset resolved, except the last one when building aborted |
| GiftFlow.BuildRejectedAdd | steambot/index.js:157-169 | when cart building aborted, its last call is an awaited add made after the reset, rejected with the reported reason |
| GiftFlow.PolledTraceResetOnce | steambot/index.js:159-192 | a run that reaches the poll starts with one `forgetCart` and makes no other |
| GiftFlow.PolledRun | steambot/index.js:174-199 | once the poll is reached, a null or undefined status, or one with its own `hasOwnProperty`, throws a TypeError, followed by one `forgetCart`. Any other status returns true exactly when its own `success` is 1 or 22; otherwise the run forgets the cart, waits 500 ms, throws 'Gift Error' and forgets again |
| GiftFlow.PollReached | steambot/index.js:170-193 | a run that returns, throws 'Gift Error' or throws the status TypeError got a truthy cart and had checkout, initiate, finalize and the poll all resolve |
| GiftFlow.CartErrorPath | steambot/index.js:170-199 | 'Cart Error' is thrown exactly when cart building ends with a falsy cart; then no checkout happens, and the run is the reset, the adds and the catch's reset |
| GiftFlow.EmptyCart | steambot/index.js:157-199 | with no truthy product or bundle id, the run throws 'Cart Error' after exactly two `forgetCart` calls |
| GiftFlow.SuccessPath | steambot/index.js:157-193 | a run that returns, returns true. Its calls are exactly the reset, the adds, checkout, initiate (undefined country), finalize, the 2000 ms wait and the poll. The status carried code 1 or 22, and the cart is not forgotten again |
| GiftFlow.GiftErrorPath | steambot/index.js:188-199 | a 'Gift Error' run polled a status without code 1 or 22; it ends with `forgetCart`, the 500 ms wait and the catch's `forgetCart` |
| GiftFlow.StatusTypeErrorPath | steambot/index.js:186-199 | a run that throws the status TypeError polled a null or undefined status, or an object with its own `hasOwnProperty`, and ends with the catch's `forgetCart` |
| GiftFlow.TransactRejection | steambot/index.js:174-186 | when the transaction steps rethrow a rejection, the rejected call is the last call made and the steps only appended to the trace |
| GiftFlow.TransactResolved | steambot/index.js:174-196 | the transaction steps make no call after a rejected one: every awaited call resolved, except the last one when a rejection is rethrown |
| GiftFlow.TryRejection | steambot/index.js:158-186 | when the `try` block rethrows a rejection, the rejected call is its last call, made after the opening reset |
| GiftFlow.RejectionPath | steambot/index.js:158-200 | a run that rethrows a rejection began with the reset and ends with the rejected awaited call followed only by the catch's `forgetCart`; the rejection reason is rethrown unwrapped |
| GiftFlow.RunResolved | steambot/index.js:157-200 | a run makes no awaited call after a rejected one: every awaited call resolved, except the one before the catch's reset when a rejection is rethrown |
| GiftFlow.RejectedCallEndsRun | steambot/index.js:158-200 | if any awaited store call of a run is rejected, the run rethrows exactly that rejection, that call is the last before the catch's `forgetCart`, and nothing else follows |
| GiftFlow.SingleProductScenario | steambot/index.js:148-193 | gifting product 100 through a store that reports success code 1 returns true with exactly the expected seven calls |
| Bot.SteamBot.TryGift | steambot/index.js:157-196 | the two add loops and the transaction steps produce exactly the completion and trace that `GiftFlow.TryBlock` describes |
| Bot.SteamBot.Transact | steambot/index.js:174-196 | checkout, initiate, finalize, wait, poll and the success check produce exactly the completion and trace that `GiftFlow.Transact` describes |
| Bot.SteamBot.SendGift | steambot/index.js:148-201 | `sendGift` settles and calls the store exactly as `GiftFlow.SendGift` describes, so all the path lemmas above hold of it |

## Left out

- The Steam client and store themselves: the store is any `Responder`, and the client is reduced to its friends list and the calls made on it.
- The one-line delegations `logOn`, `logOff`, `addFriend`, `checkoutR6Pay`, `payOrder`, `getFinalPrice` and `changeWalletCountry` (lines 57-73, 81-87, 117-119, 144-146). Each only forwards to the client or store, and none is used by `sendGift`.
- Bot.SteamBot.constructor: the client and store are given to it. As written, line 40 calls `_bindClientHandler`, whose `on` calls at lines 44 and 51 go to a bare `new Object()`, which has no such method. The model assumes real client and store objects.
- Bot.SteamBot.constructor: a truthy non-object `options`, such as a number, is not modelled. Assigning defaults to it throws a TypeError in strict mode.
- Bot.SteamBot.OnLoggedOn: the `setPersona` call on line 47 is not modelled. It depends on `SteamUser`, which this file never imports. The model assumes that call succeeds and changes nothing the bot reads.
- Bot.SteamBot.OnLoggedOn: reading the id from the client's `steamID` object is reduced to the id string passed to the handler.
- Bot.SteamBot.GetFriendRelationship: the key is taken as a string. JavaScript's conversion of other keys to strings, and a friends list that overrides `hasOwnProperty`, are not modelled.
- `ESteamBotStatus` is not part of this model: only the three statuses the bot uses are modelled.
- Event emission and asynchronous interleaving: handlers run one at a time and return what they emit. Two `sendGift` runs overlapping on one store session are not modelled.
- Timing: `Promise.delay` is a `Delay` entry in the trace. Nothing measures time.
- A `forgetCart` promise that rejects: it is never awaited, so its rejection is unhandled and outside the run.
- Store.Gateway.Forget: never fails. A `store.forgetCart()` that throws synchronously is not modelled. At line 159 or 194 it would jump to the catch, skipping the 500 ms wait at line 195. At line 198 it would replace the error being rethrown.
- GiftFlow.CheckStatus: an own `hasOwnProperty` property is taken to throw a TypeError. That is exact for a value that is not a function. An own `hasOwnProperty` function that answers, and a `success` getter, are not modelled.
- BotOptions.WithDefaults: only own properties of the options are read. An option inherited through the prototype chain counts as present for `typeof` at line 25 and for the reads at lines 31-32; the model treats it as missing.
- Bot.SteamBot.RemoveFriends: the ids are a sequence. A non-array argument at line 76 is not modelled.
- Number details: numbers are reals plus NaN. `-0`, infinities and BigInt are not distinguished, and `===` on numbers is equality of reals.
- `subids` and `bundles` are sequences. A non-array argument, such as a missing one whose `length` read throws, is not modelled.
- The order of keys in the options object after the defaults are filled is not modelled; only its contents are.
