/** One invocation of the `/youtrack` slash command as a function: from the
    invocation context (sender, room, arguments), the sender's records in the
    store and the remote's response, to the new store, the request issued (if
    any) and the one notification sent back. The class in module Command
    performs the same steps in order on a mutable store; its contracts are
    stated with the functions here. */
module Router {
  import opened Text
  import opened Remote
  import opened Persistence

  type RoomId = string

  datatype Sender = Sender(id: UserId, username: string)

  /** The slash-command context: who sent it, from which room, with which
      (whitespace-separated) arguments. */
  datatype Context = Context(sender: Sender, room: RoomId, args: seq<string>)

  /** The message handed to the notifier. `recipient` is the user it is
      delivered to; `sender` is the sender set on the message itself. */
  datatype Notification = Notification(
    text: string, alias: string, avatar: string,
    room: RoomId, sender: Sender, recipient: Sender)

  /** Everything one invocation produces. */
  datatype Outcome = Outcome(store: Store, request: Option<Request>, reply: Notification)

  const Alias: string := "Youtrack"
  const Avatar: string := ":calendar:"

  const InvalidUsageText: string :=
    "Invalid usage of the Youtrack command. "
    + "Please provide whether you are `start` or `stop`, with the message optional if you are away."

  /** The reply to an unknown single argument: it lists all four keywords. */
  const UnknownActionText: string :=
    "No idea what you are talking about. "
    + "Only `start`, `stop`, `status` and `token` are accepted options for the first argument."

  /** The reply to an unknown first word among several: it leaves out `token`. */
  const UnknownMultiActionText: string :=
    "No idea what you are talking about. "
    + "Only `start`, `stop` and `status` are accepted options for the first argument."

  function TokenSetText(username: string): string {
    "Bot @bot_youtrack token is set, " + username + "!"
  }

  function BotErrorText(username: string): string {
    "Bot @bot_youtrack is error" + ", " + username + "!"
  }

  function MarkedAwayText(message: string): string {
    "You are marked as *Youtrack*, " + "we will see you when you get back. "
    + "The message being sent to others " + "when they contact you is: \"" + message + "\""
  }

  predicate IsKeyword(action: string) {
    action == "start" || action == "stop" || action == "status" || action == "token"
  }

  /** The notification `sendNotifyMessage` builds and delivers. */
  function Notify(ctx: Context, text: string): (n: Notification)
    ensures n.text == text && n.recipient == ctx.sender && n.sender == ctx.sender
    ensures n.alias == "Youtrack" && n.avatar == ":calendar:" && n.room == ctx.room
  {
    Notification(text, Alias, Avatar, ctx.room, ctx.sender, ctx.sender)
  }

  /** The reply after a GET to the remote: the `data.massage` text on status
      200, the bot error text on any other status. */
  function RemoteReply(remote: Response, username: string): (text: string)
    ensures remote.statusCode == 200 ==> text == remote.massage + ", " + username + "!"
    ensures remote.statusCode != 200 ==> text == "Bot @bot_youtrack is error, " + username + "!"
    ensures var greeting := ", " + username + "!";
      |greeting| <= |text| && text[|text| - |greeting|..] == greeting
  {
    if remote.statusCode == SuccessStatus then remote.massage + ", " + username + "!"
    else BotErrorText(username)
  }

  /** `invalidUsageHandler`. */
  function InvalidUsage(ctx: Context, store: Store): (o: Outcome)
    ensures o.store == store && o.request == None && o.reply.text == InvalidUsageText
    ensures o.reply.recipient == ctx.sender
  {
    Outcome(store, None, Notify(ctx, InvalidUsageText))
  }

  /** `handleStatusArgOnly`: the first argument, lowered, chooses the branch.
      A request goes out exactly for the four keywords; each GET names one of
      the three endpoints and the sender's id, and the POST carries that id. */
  function ArgOnly(ctx: Context, store: Store, remote: Response): (o: Outcome)
    requires |ctx.args| > 0
    ensures o.reply == Notify(ctx, o.reply.text)
    ensures o.store - {ctx.sender.id} == store - {ctx.sender.id}
    ensures o.request.None? <==> !IsKeyword(Lower(ctx.args[0]))
    ensures o.request.Some? && o.request.value.Get? ==>
      var parsed := ParseQueryUrl(Host, o.request.value.url);
      && parsed.Some? && parsed.value.1 == ctx.sender.id
      && parsed.value.0 in {StartEndpoint, StopEndpoint, StatusEndpoint}
    ensures o.request.Some? && o.request.value.Post? ==> o.request.value.id == ctx.sender.id
  {
    GetEndpointsDistinct();
    QueryUrlRoundTrip(Host, StartEndpoint, ctx.sender.id);
    QueryUrlRoundTrip(Host, StopEndpoint, ctx.sender.id);
    QueryUrlRoundTrip(Host, StatusEndpoint, ctx.sender.id);
    var id := ctx.sender.id;
    var name := ctx.sender.username;
    var action := Lower(ctx.args[0]);
    if action == "start" then
      Outcome(Remove(store, id), Some(Get(QueryUrl(Host, StartEndpoint, id))),
              Notify(ctx, RemoteReply(remote, name)))
    else if action == "stop" then
      Outcome(Create(store, id, StorageRecord(true, "")), Some(Get(QueryUrl(Host, StopEndpoint, id))),
              Notify(ctx, RemoteReply(remote, name)))
    else if action == "status" then
      Outcome(store, Some(Get(QueryUrl(Host, StatusEndpoint, id))),
              Notify(ctx, RemoteReply(remote, name)))
    else if action == "token" then
      var token := if |ctx.args| > 1 then Some(ctx.args[1]) else None;
      Outcome(store, Some(Post(EndpointUrl(Host, TokenEndpoint), token, id)),
              Notify(ctx, TokenSetText(name)))
    else
      Outcome(store, None, Notify(ctx, UnknownActionText))
  }

  /** The block that would store a custom away message: it drops the first
      argument, joins the rest with spaces, replaces the sender's records by
      one record carrying that text and echoes it. It is never reached (see
      CustomMessageBlockUnreachable). */
  function CustomMessageBlock(ctx: Context, store: Store): (o: Outcome)
    ensures Read(o.store, ctx.sender.id) == [StorageRecord(true, Join(Tail(ctx.args), " "))]
    ensures o.store - {ctx.sender.id} == store - {ctx.sender.id}
    ensures o.request == None
  {
    var id := ctx.sender.id;
    var data := StorageRecord(true, Join(Tail(ctx.args), " "));
    var existing := Read(store, id);
    var cleared := if |existing| > 0 then Remove(store, id) else store;
    Outcome(Create(cleared, id, data), None, Notify(ctx, MarkedAwayText(data.message)))
  }

  /** `args.splice(0, 1)` on a copy: everything but the first argument. */
  function Tail(args: seq<string>): (rest: seq<string>)
    ensures |args| == 0 ==> rest == []
    ensures |args| > 0 ==> |rest| == |args| - 1
    ensures forall i :: 0 <= i < |rest| ==> rest[i] == args[i + 1]
  {
    if |args| == 0 then [] else args[1..]
  }

  /** `handleWithCustomMessage`, with its conditions as written: the second
      test can only fail when the first has succeeded, so the outcome is that
      of the first two branches alone. */
  function WithCustomMessage(ctx: Context, store: Store, remote: Response): (o: Outcome)
    requires |ctx.args| > 0
    ensures o == if IsKeyword(Lower(ctx.args[0])) then ArgOnly(ctx, store, remote)
                 else Outcome(store, None, Notify(ctx, UnknownMultiActionText))
  {
    var action := Lower(ctx.args[0]);
    if action == "start" || action == "stop" || action == "status" || action == "token" then
      ArgOnly(ctx, store, remote)
    else if action != "token" then
      Outcome(store, None, Notify(ctx, UnknownMultiActionText))
    else
      CustomMessageBlock(ctx, store)
  }

  /** `executor`: dispatch on the number of arguments. Whatever the input,
      exactly one notification goes to the sender alone, under the alias
      `Youtrack` with the `:calendar:` avatar, and only the sender's records
      can change. */
  function Invoke(ctx: Context, store: Store, remote: Response): (o: Outcome)
    ensures o.reply.recipient == ctx.sender && o.reply.sender == ctx.sender
    ensures o.reply.alias == "Youtrack" && o.reply.avatar == ":calendar:" && o.reply.room == ctx.room
    ensures o.store - {ctx.sender.id} == store - {ctx.sender.id}
  {
    if |ctx.args| == 0 then InvalidUsage(ctx, store)
    else if |ctx.args| == 1 then ArgOnly(ctx, store, remote)
    else WithCustomMessage(ctx, store, remote)
  }

  // ---------------------------------------------------------------------
  // What one invocation does, branch by branch

  /** No arguments: the usage text, no request, the store as it was. */
  lemma NoArguments(ctx: Context, store: Store, remote: Response)
    requires |ctx.args| == 0
    ensures Invoke(ctx, store, remote) == Outcome(store, None, Notify(ctx, InvalidUsageText))
  {
  }

  /** One argument that is no keyword in any case: the reply listing the four
      keywords, no request, the store as it was. */
  lemma UnknownSingleArgument(ctx: Context, store: Store, remote: Response)
    requires |ctx.args| == 1 && !IsKeyword(Lower(ctx.args[0]))
    ensures Invoke(ctx, store, remote) == Outcome(store, None, Notify(ctx, UnknownActionText))
  {
  }

  /** `start`: every record of the sender is gone, whatever the remote
      answers; one GET to the start endpoint with the sender's id. */
  lemma StartClears(ctx: Context, store: Store, remote: Response)
    requires |ctx.args| > 0 && Lower(ctx.args[0]) == "start"
    ensures var o := Invoke(ctx, store, remote);
      && Read(o.store, ctx.sender.id) == [] && ctx.sender.id !in o.store
      && o.store - {ctx.sender.id} == store - {ctx.sender.id}
      && o.request == Some(Get(QueryUrl(Host, StartEndpoint, ctx.sender.id)))
      && o.reply.text == RemoteReply(remote, ctx.sender.username)
  {
  }

  /** `stop`: exactly one record `{out: true, message: ""}` is added after the
      sender's earlier ones, whatever the remote answers; one GET to the stop
      endpoint. */
  lemma StopAppends(ctx: Context, store: Store, remote: Response)
    requires |ctx.args| > 0 && Lower(ctx.args[0]) == "stop"
    ensures var o := Invoke(ctx, store, remote);
      && Read(o.store, ctx.sender.id) == Read(store, ctx.sender.id) + [StorageRecord(true, "")]
      && o.store - {ctx.sender.id} == store - {ctx.sender.id}
      && o.request == Some(Get(QueryUrl(Host, StopEndpoint, ctx.sender.id)))
      && o.reply.text == RemoteReply(remote, ctx.sender.username)
  {
  }

  /** `status`: the store is not touched; one GET to the status endpoint. */
  lemma StatusReadOnly(ctx: Context, store: Store, remote: Response)
    requires |ctx.args| > 0 && Lower(ctx.args[0]) == "status"
    ensures var o := Invoke(ctx, store, remote);
      && o.store == store
      && o.request == Some(Get(QueryUrl(Host, StatusEndpoint, ctx.sender.id)))
      && o.reply.text == RemoteReply(remote, ctx.sender.username)
  {
  }

  /** After `start`, `stop` or `status` the reply is `<massage>, <username>!`
      on status 200 and the bot error text on every other status. */
  lemma RemoteActionReply(ctx: Context, store: Store, remote: Response)
    requires |ctx.args| > 0
    requires var a := Lower(ctx.args[0]); a == "start" || a == "stop" || a == "status"
    ensures var o := Invoke(ctx, store, remote);
      && (remote.statusCode == 200 ==>
            o.reply.text == remote.massage + ", " + ctx.sender.username + "!")
      && (remote.statusCode != 200 ==>
            o.reply.text == "Bot @bot_youtrack is error, " + ctx.sender.username + "!")
  {
  }

  /** `token`: one POST to the token endpoint carrying the second argument
      (absent when there is none) and the sender's id; the fixed confirmation,
      whatever the remote answers; the store is not touched. */
  lemma TokenPosts(ctx: Context, store: Store, remote: Response)
    requires |ctx.args| > 0 && Lower(ctx.args[0]) == "token"
    ensures var o := Invoke(ctx, store, remote);
      && o.store == store
      && o.request == Some(Post(Host + "/" + TokenEndpoint,
                                if |ctx.args| > 1 then Some(ctx.args[1]) else None,
                                ctx.sender.id))
      && o.reply.text == "Bot @bot_youtrack token is set, " + ctx.sender.username + "!"
  {
  }

  /** The store and the request never depend on the remote's answer: what a
      branch removes or adds stays so when the call fails. The reply of the
      `token` branch does not depend on it either. */
  lemma OutcomeIgnoresResponse(ctx: Context, store: Store, r1: Response, r2: Response)
    ensures Invoke(ctx, store, r1).store == Invoke(ctx, store, r2).store
    ensures Invoke(ctx, store, r1).request == Invoke(ctx, store, r2).request
    ensures |ctx.args| > 0 && Lower(ctx.args[0]) == "token" ==>
      Invoke(ctx, store, r1) == Invoke(ctx, store, r2)
  {
  }

  /** The sender's records change in one of three ways only: not at all,
      cleared, or one `{out: true, message: ""}` appended. In particular no
      invocation ever stores a custom message. */
  lemma OnlyEmptyAwayRecordsCreated(ctx: Context, store: Store, remote: Response)
    ensures var after := Read(Invoke(ctx, store, remote).store, ctx.sender.id);
      var before := Read(store, ctx.sender.id);
      after == before || after == [] || after == before + [StorageRecord(true, "")]
  {
  }

  // ---------------------------------------------------------------------
  // Several arguments

  /** A keyword first word among several: the same outcome as that word
      alone, except that `token` sends the second argument as the token. */
  lemma MultiArgumentKeyword(ctx: Context, store: Store, remote: Response)
    requires |ctx.args| > 1 && IsKeyword(Lower(ctx.args[0]))
    ensures var alone := Invoke(ctx.(args := ctx.args[..1]), store, remote);
      var o := Invoke(ctx, store, remote);
      && o.store == alone.store && o.reply == alone.reply
      && (Lower(ctx.args[0]) != "token" ==> o == alone)
      && (Lower(ctx.args[0]) == "token" ==>
            o.request == Some(Post(EndpointUrl(Host, TokenEndpoint), Some(ctx.args[1]), ctx.sender.id))
            && alone.request == Some(Post(EndpointUrl(Host, TokenEndpoint), None, ctx.sender.id)))
  {
    var alone := ctx.(args := ctx.args[..1]);
    assert alone.args[0] == ctx.args[0];
  }

  /** Any other first word among several: the reply naming only `start`,
      `stop` and `status`, no request, the store as it was. */
  lemma MultiArgumentNonKeyword(ctx: Context, store: Store, remote: Response)
    requires |ctx.args| > 1 && !IsKeyword(Lower(ctx.args[0]))
    ensures Invoke(ctx, store, remote) == Outcome(store, None, Notify(ctx, UnknownMultiActionText))
  {
  }

  /** The custom-message block is dead: no multi-argument invocation ever
      ends the way that block would end it. */
  lemma CustomMessageBlockUnreachable(ctx: Context, store: Store, remote: Response)
    requires |ctx.args| > 1
    ensures Invoke(ctx, store, remote) ==
      if IsKeyword(Lower(ctx.args[0])) then ArgOnly(ctx, store, remote)
      else Outcome(store, None, Notify(ctx, UnknownMultiActionText))
    ensures Invoke(ctx, store, remote) != CustomMessageBlock(ctx, store)
  {
    var o := Invoke(ctx, store, remote);
    var dead := CustomMessageBlock(ctx, store);
    var action := Lower(ctx.args[0]);
    if action == "start" {
      assert ctx.sender.id !in o.store && ctx.sender.id in dead.store;
    } else if IsKeyword(action) {
      assert o.request.Some? && dead.request == None;
    } else {
      var message := Join(Tail(ctx.args), " ");
      assert dead.reply.text == MarkedAwayText(message);
      assert MarkedAwayText(message)[0] == 'Y';
      assert o.reply.text == UnknownMultiActionText;
    }
  }

  /** A message such as `/youtrack brb lunch` is not stored: the sender gets
      the error reply and keeps the records they had. */
  lemma CustomMessageRejected(ctx: Context, store: Store, remote: Response)
    requires ctx.args == ["brb", "lunch"]
    ensures Invoke(ctx, store, remote).store == store
    ensures Invoke(ctx, store, remote).request == None
    ensures Invoke(ctx, store, remote).reply.text == UnknownMultiActionText
  {
    assert |Lower(ctx.args[0])| == 3;
  }

  // ---------------------------------------------------------------------
  // Case-insensitive matching

  /** Changing the case of letters in the first argument changes nothing. */
  lemma CaseInsensitive(ctx: Context, first: string, store: Store, remote: Response)
    requires |ctx.args| > 0 && |first| == |ctx.args[0]|
    requires forall i :: 0 <= i < |first| ==> LowerChar(first[i]) == LowerChar(ctx.args[0][i])
    ensures Invoke(ctx.(args := [first] + ctx.args[1..]), store, remote) == Invoke(ctx, store, remote)
  {
    var other := ctx.(args := [first] + ctx.args[1..]);
    assert other.args[0] == first && other.args[1..] == ctx.args[1..];
    assert Lower(first) == Lower(ctx.args[0]);
  }

  /** `START`, `Start` or `sTaRt` are `start`: a word spelled letter by
      letter as a lower-case keyword, each letter in either case, lowers to
      that keyword. */
  lemma AnyCaseKeyword(s: string, k: string)
    requires IsLower(k)
    requires |s| == |k|
    requires forall i :: 0 <= i < |s| ==>
      s[i] == k[i] || ('A' <= s[i] <= 'Z' && s[i] as int + 32 == k[i] as int)
    ensures Lower(s) == k
  {
    LowerMatches(s, k);
  }
}
