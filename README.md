# youtrack_pm: the `/youtrack` slash command, modelled in Dafny

The repository provides one Rocket.Chat slash command, `/youtrack`. It lets a
user tell a remote status service that they start or stop work, ask for their
status, or set their access token. It keeps per-user away records in the
app's persistence store and answers the user with one private notification.

This project models one invocation of the command in two forms:

- `Router` (router.dfy) is the pure form. `Invoke` maps the context, the
  store and the remote's answer to an `Outcome`. The context holds the sender,
  the room and the arguments. The outcome holds the new store, the request
  issued (if any) and the notification.
- `Command` (command.dfy) is the imperative form. The class
  `YoutrackPmAppCommand` has the source's `hostYoutrackPM` and `res` fields.
  The bodies of its handlers do the store operations, the request and the
  `res` assignment in the source's order, on a `PersistenceStore` object. The
  contracts give the end state: the store, request and notification of the
  matching `Router` function, and the new `res`. The order of the steps is
  not visible in the contracts.

Supporting modules:

- `Persistence` (persistence.dfy): the store is a `map<UserId,
  seq<StorageRecord>>`. `createWithAssociation` appends a record under the
  user's key. `readByAssociation` returns the list. `removeByAssociation`
  clears it.
- `Remote` (remote.dfy): the host, the four endpoints, the `Request` and
  `Response` values and the URL templates. The host literal ends in `/` and the
  template adds another, so every path begins with `//`. A parser reads a GET
  URL back into its endpoint and user id, and a round-trip lemma relates the
  two.
- `Text` (text.dfy): ASCII lowering, `join` and a split helper.

Three facts the code shows that its description does not:

- The custom-message block (YoutrackPmAppCommand.ts:92-111) is dead. The
  first test at line 84 accepts `token`, so the `else if (action !== 'token')`
  at line 86 holds whenever it is reached. Any multi-argument input with a
  non-keyword first word gets the reply naming only `start`, `stop` and
  `status`, and nothing is stored. The model follows the code:
  `CustomMessageBlockUnreachable` and `OnlyEmptyAwayRecordsCreated` prove it.
  The pure model keeps the block as `CustomMessageBlock`, which shows what it
  would do if reached: it drops the first argument before joining. The
  imperative handler has `assert false` in its place.
- Records are appended, not replaced. `stop` adds a `{out: true, message: ""}`
  record after any earlier ones, so repeated `stop`s pile up records. The
  model keeps the list, not one record per user.
- `token` with no second argument posts an absent token (`undefined`).

## Model

| member | source | states |
|---|---|---|
| Router.InvalidUsage | YoutrackPmAppCommand.ts:27-30 | the usage text goes to the sender, with no request and the store unchanged |
| Router.ArgOnly | YoutrackPmAppCommand.ts:33-78 | the reply goes to the sender; only the sender's records change; a request goes out exactly when the lowered first argument is one of the four keywords; every GET reads back as one of the three GET endpoints with the sender's id, and the POST carries the sender's id |
| Router.RemoteReply | YoutrackPmAppCommand.ts:45-50 | on status 200 the massage followed by `, <username>!`, on any other status the bot error text; either way the text ends with `, <username>!` |
| Router.Notify | YoutrackPmAppCommand.ts:114-120 | the message carries the given text, alias `Youtrack`, avatar `:calendar:`, the room and the sender, and goes to the sender |
| Router.Tail | YoutrackPmAppCommand.ts:92-93 | removing the first element of a copy: empty for an empty list, otherwise every element but the first, in order |
| Router.WithCustomMessage | YoutrackPmAppCommand.ts:81-112 | the outcome is the single-argument handling when the lowered first word is a keyword and the three-keyword error reply otherwise; the third branch contributes nothing |
| Router.Invoke | YoutrackPmAppCommand.ts:16-25 | every invocation yields exactly one notification, addressed to the sender and sent as the sender, with alias `Youtrack`, avatar `:calendar:` and the invoking room; no other user's records change |
| Router.NoArguments | YoutrackPmAppCommand.ts:17-19 | zero arguments: the fixed invalid-usage text, no request, the store unchanged |
| Router.UnknownSingleArgument | YoutrackPmAppCommand.ts:73-76 | a single argument that is no keyword after lowering: the reply listing `start`, `stop`, `status` and `token`, no request, the store unchanged |
| Router.StartClears | YoutrackPmAppCommand.ts:42-50 | `start` removes all of the sender's records, whatever the response; the others are untouched; one GET `<host>/youtrack_start?id=<id>` |
| Router.StopAppends | YoutrackPmAppCommand.ts:51-59 | `stop` appends exactly one `{out: true, message: ""}` after the sender's earlier records, whatever the response; one GET to the stop endpoint |
| Router.StatusReadOnly | YoutrackPmAppCommand.ts:60-67 | `status` leaves the store unchanged; one GET to the status endpoint |
| Router.RemoteActionReply | YoutrackPmAppCommand.ts:45-50 | for `start`, `stop` and `status` the reply is `<massage>, <username>!` when the status code is 200 and `Bot @bot_youtrack is error, <username>!` otherwise |
| Router.TokenPosts | YoutrackPmAppCommand.ts:68-72 | `token` posts `{token: args[1], id}` (token absent with one argument) to `<host>/set_youtrack_token`, replies with the fixed confirmation and leaves the store unchanged |
| Router.OutcomeIgnoresResponse | YoutrackPmAppCommand.ts:42-72 | the new store and the request never depend on the response, so no store change is rolled back; the whole `token` outcome is independent of it |
| Router.OnlyEmptyAwayRecordsCreated | YoutrackPmAppCommand.ts:33-111 | the sender's list is unchanged, cleared, or extended by one `{out: true, message: ""}`; no custom message is ever stored |
| Router.MultiArgumentKeyword | YoutrackPmAppCommand.ts:84-85 | several arguments with a keyword first: the outcome equals that of the first argument alone, except that `token` sends `args[1]` as the token |
| Router.MultiArgumentNonKeyword | YoutrackPmAppCommand.ts:86-90 | several arguments with a non-keyword first: the reply naming only `start`, `stop` and `status`, no request, the store unchanged |
| Router.CustomMessageBlockUnreachable | YoutrackPmAppCommand.ts:84-111 | every multi-argument invocation ends as the keyword branch or the three-keyword error reply does, and never as the custom-message block would end it |
| Router.CustomMessageBlock | YoutrackPmAppCommand.ts:92-111 | if it were reached, the block would leave the sender exactly one record `{out: true, message: join(args[1..], " ")}`, dropping the first argument, and would send no request |
| Router.CustomMessageRejected | YoutrackPmAppCommand.ts:86-90 | `/youtrack brb lunch` stores nothing, sends no request and gets the error reply |
| Router.CaseInsensitive | YoutrackPmAppCommand.ts:41 | changing the case of letters in the first argument does not change the outcome |
| Router.AnyCaseKeyword | YoutrackPmAppCommand.ts:82 | a word that spells a lower-case keyword letter by letter, each letter in either case (`START`, `sTaRt`), lowers to that keyword |
| Text.Lower | YoutrackPmAppCommand.ts:41 | lowering keeps the length and lowers each character on its own |
| Text.LowerIsLower | YoutrackPmAppCommand.ts:82 | the lowered string has no upper-case letter, and a lower-case string is its own lowering |
| Text.LowerMatches | YoutrackPmAppCommand.ts:41 | the lowered argument equals a lower-case keyword exactly when it spells that keyword letter by letter in either case |
| Text.Join | YoutrackPmAppCommand.ts:97 | the join of no arguments is empty, and the join starts with the first argument |
| Text.JoinAppend | YoutrackPmAppCommand.ts:97 | appending an argument to a non-empty list appends one separator and that argument to the join |
| Text.JoinLength | YoutrackPmAppCommand.ts:97 | the join's length is the total length of the arguments plus one separator between each pair of neighbours |
| Text.LowerChar | YoutrackPmAppCommand.ts:41 | an ASCII capital becomes the letter 32 code points on; every other character stays; the result is never a capital |
| Remote.EndpointUrl | YoutrackPmAppCommand.ts:69 | the URL is the host, one more `/`, then the endpoint, with nothing else |
| Remote.QueryUrl | YoutrackPmAppCommand.ts:44 | the URL is the endpoint URL, then `?id=`, then the user id, with nothing else |
| Remote.DoubleSlash | YoutrackPmAppCommand.ts:12 | every request URL begins `https://youtrack-pm.theinvaders.pro//` |
| Remote.ParseQueryUrl | YoutrackPmAppCommand.ts:44 | an endpoint and id read from a URL rebuild that URL exactly |
| Remote.QueryUrlRoundTrip | YoutrackPmAppCommand.ts:53 | every GET URL built from an endpoint and user id reads back as that endpoint and id |
| Remote.QueryUrlInjective | YoutrackPmAppCommand.ts:61 | two GET URLs are equal exactly when their endpoints and ids are |
| Remote.GetEndpointsDistinct | YoutrackPmAppCommand.ts:44-61 | the three GET endpoints are distinct and contain no `?` |
| Persistence.Read | YoutrackPmAppCommand.ts:101 | a user with no key has no records |
| Persistence.Remove | YoutrackPmAppCommand.ts:43 | removal empties the user's list and leaves every other key as it was |
| Persistence.Create | YoutrackPmAppCommand.ts:52 | creation appends one record after the user's earlier ones and leaves every other key as it was |
| Persistence.PersistenceStore.RemoveByAssociation | YoutrackPmAppCommand.ts:103 | the store field becomes the store with the user's records removed |
| Persistence.PersistenceStore.CreateWithAssociation | YoutrackPmAppCommand.ts:106 | the store field becomes the store with the record appended under the user |
| Command.YoutrackPmAppCommand.constructor | YoutrackPmAppCommand.ts:12-13 | `res` starts empty (no response yet) |
| Command.YoutrackPmAppCommand.Executor | YoutrackPmAppCommand.ts:16-25 | the store, the request and the notification are those of `Router.Invoke`; `res` becomes the response exactly when a GET was issued |
| Command.YoutrackPmAppCommand.InvalidUsageHandler | YoutrackPmAppCommand.ts:27-30 | sends the invalid-usage text to the sender |
| Command.YoutrackPmAppCommand.HandleStatusArgOnly | YoutrackPmAppCommand.ts:33-78 | the new store, the request and the notification are those of `Router.ArgOnly` on the store as it was; `res` becomes the response on each GET and stays as it was after the token POST or no request |
| Command.YoutrackPmAppCommand.SendRemoteReply | YoutrackPmAppCommand.ts:45-50 | the notification sent is `Router.Notify` of `Router.RemoteReply`: the massage text on status 200, the bot error text otherwise |
| Command.YoutrackPmAppCommand.HandleWithCustomMessage | YoutrackPmAppCommand.ts:81-112 | delegates on a keyword, rejects anything else, and the custom-message block is unreachable (checked at `assert false`) |
| Command.YoutrackPmAppCommand.SendNotifyMessage | YoutrackPmAppCommand.ts:114-120 | the message built and delivered is `Router.Notify` of the text: alias `Youtrack`, avatar `:calendar:`, the room, sent as and to the sender |
| Command.StopThenStart | YoutrackPmAppCommand.ts:42-59 | `stop` and then `start` by one user leave that user with no records, whatever either response was, and nobody else's change |

## Left out

- The Rocket.Chat accessors (`IRead`, `IModify`, `IHttp`, `IPersistence`) and the message-builder chain. The store is a map, the request a value, the notification a record.
- The HTTP transport. The remote's answer is an input of the invocation, and the token POST's answer is not read.
- `JSON.parse(res.content)["data"]["massage"]` is not modelled. The extracted text is an opaque string. A malformed body, which would throw, is not modelled.
- `async`/`await` and concurrent invocations by different users. One invocation runs its steps in sequence.
- The command's name, i18n strings and preview flag. They carry no behaviour.
- How an absent token is encoded in the POST parameters. The model records only that it is absent.
- Text.Lower: ASCII letters only. JavaScript's `toLowerCase` lowers all of Unicode, so a non-ASCII spelling such as the Kelvin sign in `toKen` would also match a keyword there.
- `res` keeps the whole HTTP response in the source. The model keeps only its status code and extracted text.
