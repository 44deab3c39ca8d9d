/** The LINE messaging client as the controller uses it: four calls, each
    recorded in an effect log, with the platform's answer to each call
    given by an abstract `Platform`. */
module LineClient {
  import opened JavaString
  import opened Messages

  /** A call the controller issues to the messaging platform. */
  datatype Effect =
    | ReplyMessage(replyToken: JString, messages: seq<Message>)
    | GetProfile(userId: JString)
    | LeaveGroup(groupId: JString)
    | LeaveRoom(roomId: JString)

  /** Why waiting on a call's future with `get()` failed: the call completed
      exceptionally (`ExecutionException`) or the wait was interrupted
      (`InterruptedException`). */
  datatype CallFailure = ExecutionFailure(message: JString) | Interrupted

  /** The outcome of a blocking call. */
  datatype CallResult = Success | Failure(failure: CallFailure)

  /** The outcome of a profile lookup: the profile, or the exception the
      lookup completed with, by its message. */
  datatype ProfileResult =
    | UserProfile(displayName: JString, statusMessage: JString)
    | ProfileFailure(message: JString)

  /** How the platform answers each call. */
  datatype Platform = Platform(
    replyMessage: (JString, seq<Message>) -> CallResult,
    getProfile: JString -> ProfileResult,
    leaveGroup: JString -> CallResult,
    leaveRoom: JString -> CallResult)

  /** The client: each call appends its effect to `log` and returns the
      platform's answer. */
  class MessagingClient {
    var log: seq<Effect>
    const platform: Platform

    constructor (platform: Platform)
      ensures this.platform == platform && log == []
    {
      this.platform := platform;
      log := [];
    }

    method ReplyMessage(replyToken: JString, messages: seq<Message>) returns (r: CallResult)
      modifies this
      ensures log == old(log) + [Effect.ReplyMessage(replyToken, messages)]
      ensures r == platform.replyMessage(replyToken, messages)
    {
      log := log + [Effect.ReplyMessage(replyToken, messages)];
      r := platform.replyMessage(replyToken, messages);
    }

    method GetProfile(userId: JString) returns (r: ProfileResult)
      modifies this
      ensures log == old(log) + [Effect.GetProfile(userId)]
      ensures r == platform.getProfile(userId)
    {
      log := log + [Effect.GetProfile(userId)];
      r := platform.getProfile(userId);
    }

    method LeaveGroup(groupId: JString) returns (r: CallResult)
      modifies this
      ensures log == old(log) + [Effect.LeaveGroup(groupId)]
      ensures r == platform.leaveGroup(groupId)
    {
      log := log + [Effect.LeaveGroup(groupId)];
      r := platform.leaveGroup(groupId);
    }

    method LeaveRoom(roomId: JString) returns (r: CallResult)
      modifies this
      ensures log == old(log) + [Effect.LeaveRoom(roomId)]
      ensures r == platform.leaveRoom(roomId)
    {
      log := log + [Effect.LeaveRoom(roomId)];
      r := platform.leaveRoom(roomId);
    }
  }
}
