/** The command object itself. The bodies of its handlers perform, in the
    order of the source, the store operations, the request to the remote (whose
    answer is the parameter `remote`) with its assignment to the shared `res`
    field, and the one notification. Their contracts state the end state: the
    store, request and notification of the matching function of module Router
    applied to the store as it was on entry, and the new `res`. */
module Command {
  import opened Text
  import opened Remote
  import opened Persistence
  import opened Router

  class YoutrackPmAppCommand {
    const hostYoutrackPM: string := Host

    /** The last response of a GET, shared by every invocation; nothing
        before the first GET. */
    var res: Option<Response>

    constructor ()
      ensures res == None
    {
      res := None;
    }

    /** `executor`: dispatch on the number of arguments. */
    method Executor(ctx: Context, persis: PersistenceStore, remote: Response)
      returns (request: Option<Request>, reply: Notification)
      modifies this, persis
      ensures var o := Invoke(ctx, old(persis.records), remote);
        persis.records == o.store && request == o.request && reply == o.reply
      ensures res == if request.Some? && request.value.Get? then Some(remote) else old(res)
    {
      if |ctx.args| == 0 {
        reply := InvalidUsageHandler(ctx);
        request := None;
      } else if |ctx.args| == 1 {
        request, reply := HandleStatusArgOnly(ctx, persis, remote);
      } else {
        request, reply := HandleWithCustomMessage(ctx, persis, remote);
      }
    }

    method InvalidUsageHandler(ctx: Context) returns (reply: Notification)
      ensures reply == Notify(ctx, InvalidUsageText)
    {
      reply := SendNotifyMessage(ctx, InvalidUsageText);
    }

    /** `handleStatusArgOnly`: `start` removes the sender's records before the
        GET, `stop` adds its record before the GET, `status` only asks, `token`
        posts without touching `res`. */
    method HandleStatusArgOnly(ctx: Context, persis: PersistenceStore, remote: Response)
      returns (request: Option<Request>, reply: Notification)
      requires |ctx.args| > 0
      modifies this, persis
      ensures var o := ArgOnly(ctx, old(persis.records), remote);
        persis.records == o.store && request == o.request && reply == o.reply
      ensures res == if request.Some? && request.value.Get? then Some(remote) else old(res)
    {
      var id := ctx.sender.id;
      var name := ctx.sender.username;
      var data := StorageRecord(true, "");
      var action := Lower(ctx.args[0]);
      if action == "start" {
        persis.RemoveByAssociation(id);
        request := Some(Get(QueryUrl(hostYoutrackPM, StartEndpoint, id)));
        res := Some(remote);
        reply := SendRemoteReply(ctx, remote);
      } else if action == "stop" {
        persis.CreateWithAssociation(data, id);
        request := Some(Get(QueryUrl(hostYoutrackPM, StopEndpoint, id)));
        res := Some(remote);
        reply := SendRemoteReply(ctx, remote);
      } else if action == "status" {
        request := Some(Get(QueryUrl(hostYoutrackPM, StatusEndpoint, id)));
        res := Some(remote);
        reply := SendRemoteReply(ctx, remote);
      } else if action == "token" {
        var token := if |ctx.args| > 1 then Some(ctx.args[1]) else None;
        request := Some(Post(EndpointUrl(hostYoutrackPM, TokenEndpoint), token, id));
        reply := SendNotifyMessage(ctx, TokenSetText(name));
      } else {
        request := None;
        reply := SendNotifyMessage(ctx, UnknownActionText);
      }
    }

    /** The status check on `res` shared by `start`, `stop` and `status`. */
    method SendRemoteReply(ctx: Context, remote: Response) returns (reply: Notification)
      ensures reply == Notify(ctx, RemoteReply(remote, ctx.sender.username))
    {
      if remote.statusCode == SuccessStatus {
        reply := SendNotifyMessage(ctx, remote.massage + ", " + ctx.sender.username + "!");
      } else {
        reply := SendNotifyMessage(ctx, BotErrorText(ctx.sender.username));
      }
    }

    /** `handleWithCustomMessage`. The custom-message block after the two
        tests is not there: it cannot be reached, which the verifier checks
        at the `assert false`. */
    method HandleWithCustomMessage(ctx: Context, persis: PersistenceStore, remote: Response)
      returns (request: Option<Request>, reply: Notification)
      requires |ctx.args| > 0
      modifies this, persis
      ensures var o := WithCustomMessage(ctx, old(persis.records), remote);
        persis.records == o.store && request == o.request && reply == o.reply
      ensures res == if request.Some? && request.value.Get? then Some(remote) else old(res)
    {
      var action := Lower(ctx.args[0]);
      if action == "start" || action == "stop" || action == "status" || action == "token" {
        request, reply := HandleStatusArgOnly(ctx, persis, remote);
        return;
      } else if action != "token" {
        request := None;
        reply := SendNotifyMessage(ctx, UnknownMultiActionText);
        return;
      }
      assert false;
    }

    /** `sendNotifyMessage`: the text goes to the sender only, under the alias
        `Youtrack` with the `:calendar:` avatar. */
    method SendNotifyMessage(ctx: Context, text: string) returns (msg: Notification)
      ensures msg == Notify(ctx, text)
    {
      msg := Notification(text, Alias, Avatar, ctx.room, ctx.sender, ctx.sender);
    }
  }

  /** Two invocations by one user: `stop` then `start` leave that user with no
      records, whatever the remote answers either time. */
  method StopThenStart(persis: PersistenceStore, user: Sender, room: RoomId, r1: Response, r2: Response)
    modifies persis
    ensures Read(persis.records, user.id) == []
    ensures persis.records - {user.id} == old(persis.records) - {user.id}
  {
    var app := new YoutrackPmAppCommand();
    var request, reply := app.Executor(Context(user, room, ["stop"]), persis, r1);
    assert Lower("stop") == "stop" by { LowerIsLower("stop"); }
    assert Lower("start") == "start" by { LowerIsLower("start"); }
    request, reply := app.Executor(Context(user, room, ["start"]), persis, r2);
  }
}
