/** The controller of the ticket bot: the reply helpers and the text-command
    dispatcher. `Dispatch` says, as a function of the event and of the
    platform's answers, which calls the controller makes and how it ends;
    the class `TicketBotController` performs those calls one by one on the
    client and is proved to make exactly them. */
module TicketBot {
  import opened JavaString
  import opened Messages
  import opened LineClient

  /** Where an event came from, with the sender's user ID when the platform
      gave one. Every source that is neither a group nor a room is handled
      as a one-to-one chat. */
  datatype Source =
    | UserSource(userId: Option<JString>)
    | GroupSource(groupId: JString, userId: Option<JString>)
    | RoomSource(roomId: JString, userId: Option<JString>)

  /** The exceptions the controller can end with: the empty-token check
      (`IllegalArgumentException`), a failed reply wrapped in a
      `RuntimeException`, and a failed leave call's `ExecutionException` or
      `InterruptedException`, which propagates as it is. */
  datatype Exception =
    | IllegalArgument(message: JString)
    | RuntimeWrapping(cause: CallFailure)
    | Checked(cause: CallFailure)

  /** How an operation of the controller ends. */
  datatype Outcome = Normal | Threw(exception: Exception)

  /** The calls an operation makes, in order, and how it ends. */
  datatype Run = Run(effects: seq<Effect>, outcome: Outcome)

  /** The longest text `replyText` sends unchanged. */
  const MaxTextLength := 1000

  /** The two-character marker that ends a truncated text. */
  const Ellipsis := Lit("……")

  const EmptyTokenMessage := Lit("replyToken must not be empty")

  /** The text `replyText` sends for `message`: unchanged up to 1000 code
      units, otherwise its first 998 code units followed by the ellipsis. */
  function Truncate(message: JString): (r: JString)
    ensures |r| <= MaxTextLength
    ensures |message| <= MaxTextLength ==> r == message
    ensures |message| > MaxTextLength ==>
      |r| == MaxTextLength && r[..MaxTextLength - 2] == message[..MaxTextLength - 2] && r[MaxTextLength - 2..] == Ellipsis
  {
    if |message| > MaxTextLength then message[..MaxTextLength - 2] + Ellipsis else message
  }

  /** `reply(replyToken, messages)`: one reply call; a failed call ends the
      operation with a `RuntimeException` wrapping the failure. */
  function ReplyRun(p: Platform, replyToken: JString, messages: seq<Message>): (r: Run)
    ensures r.effects == [ReplyMessage(replyToken, messages)]
    ensures r.outcome.Normal? <==> p.replyMessage(replyToken, messages).Success?
    ensures p.replyMessage(replyToken, messages).Failure? ==>
      r.outcome == Threw(RuntimeWrapping(p.replyMessage(replyToken, messages).failure))
  {
    var result := p.replyMessage(replyToken, messages);
    Run([ReplyMessage(replyToken, messages)],
        if result.Success? then Normal else Threw(RuntimeWrapping(result.failure)))
  }

  /** `replyText(replyToken, message)`: refuse an empty token before any
      call, otherwise reply with the one truncated text. Every text it sends
      is at most 1000 code units long. */
  function ReplyTextRun(p: Platform, replyToken: JString, message: JString): (r: Run)
    ensures replyToken == [] <==> r.effects == []
    ensures replyToken == [] ==> r.outcome == Threw(IllegalArgument(EmptyTokenMessage))
    ensures replyToken != [] ==> r.effects == [ReplyMessage(replyToken, [TextMessage(Truncate(message))])]
    ensures replyToken != [] ==> r == ReplyRun(p, replyToken, [TextMessage(Truncate(message))])
    ensures forall e <- r.effects, m <- e.messages :: m.TextMessage? && |m.text| <= MaxTextLength
  {
    if replyToken == [] then Run([], Threw(IllegalArgument(EmptyTokenMessage)))
    else ReplyRun(p, replyToken, [TextMessage(Truncate(message))])
  }

  /** Run `first`, then `second` unless `first` threw. */
  function Then(first: Run, second: Run): Run {
    if first.outcome.Threw? then first
    else Run(first.effects + second.effects, second.outcome)
  }

  /** A leave call awaited with `get()`: its failure propagates unwrapped. */
  function LeaveRun(call: Effect, result: CallResult): Run {
    Run([call], if result.Success? then Normal else Threw(Checked(result.failure)))
  }

  /** The two lines the "profile" command sends for a fetched profile. */
  function ProfileLines(displayName: JString, statusMessage: JString): seq<Message> {
    [TextMessage(Lit("Display name: ") + displayName), TextMessage(Lit("Status message: ") + statusMessage)]
  }

  /** The continuation run when the profile lookup completes: relay the
      failure's message through `replyText`, or send the two profile lines. */
  function ProfileCompletion(p: Platform, replyToken: JString, result: ProfileResult): (r: Run)
    ensures |r.effects| <= 1
    ensures forall e <- r.effects :: e.ReplyMessage? && e.replyToken == replyToken
    ensures result.UserProfile? ==>
      r.effects == [ReplyMessage(replyToken, ProfileLines(result.displayName, result.statusMessage))]
    ensures result.ProfileFailure? ==>
      (r.effects == [] <==> replyToken == []) &&
      (replyToken != [] ==> r.effects[0].messages == [TextMessage(Truncate(result.message))])
  {
    match result
    case ProfileFailure(message) => ReplyTextRun(p, replyToken, message)
    case UserProfile(displayName, statusMessage) => ReplyRun(p, replyToken, ProfileLines(displayName, statusMessage))
  }

  const ProfileCommand := Lit("profile")
  const ByeCommand := Lit("bye")
  const ConfirmCommand := Lit("confirm")
  const ButtonsCommand := Lit("buttons")
  const CarouselCommand := Lit("carousel")
  const ImagemapCommand := Lit("imagemap")

  /** The texts the dispatcher treats as commands. */
  function Commands(): set<JString> {
    {ProfileCommand, ByeCommand, ConfirmCommand, ButtonsCommand, CarouselCommand, ImagemapCommand}
  }

  /** The six command texts are pairwise different, so the order in which
      the switch tries them does not matter. */
  lemma CommandsDistinct()
    ensures |Commands()| == 6
  {
    assert ProfileCommand[0] != ByeCommand[0] && ProfileCommand[0] != ConfirmCommand[0];
    assert ProfileCommand[0] != ButtonsCommand[0] && ProfileCommand[0] != CarouselCommand[0];
    assert ProfileCommand[0] != ImagemapCommand[0] && ByeCommand[0] != ConfirmCommand[0];
    assert ByeCommand[1] != ButtonsCommand[1] && ByeCommand[0] != CarouselCommand[0];
    assert ByeCommand[0] != ImagemapCommand[0] && ConfirmCommand[0] != ButtonsCommand[0];
    assert ConfirmCommand[1] != CarouselCommand[1] && ConfirmCommand[0] != ImagemapCommand[0];
    assert ButtonsCommand[0] != CarouselCommand[0] && ButtonsCommand[0] != ImagemapCommand[0];
    assert CarouselCommand[0] != ImagemapCommand[0];
  }

  const NoUserIdText := Lit("Bot can't use profile API without user ID")
  const LeavingGroupText := Lit("Leaving group")
  const LeavingRoomText := Lit("Leaving room")
  const OneToOneText := Lit("Bot can't leave from 1:1 chat")

  /** The "profile" command: look the sender up and run the continuation,
      or explain that there is no user ID. Whatever the continuation throws
      is captured by `whenComplete` and never reaches the handler. */
  function ProfileRun(p: Platform, replyToken: JString, userId: Option<JString>): (r: Run)
    ensures userId.Some? ==> r.outcome == Normal && 1 <= |r.effects| <= 2 && r.effects[0] == GetProfile(userId.value)
    ensures userId.Some? ==> forall i :: 1 <= i < |r.effects| ==> r.effects[i].ReplyMessage? && r.effects[i].replyToken == replyToken
    ensures userId.None? ==> (forall e <- r.effects :: !e.GetProfile?) && (r.effects == [] <==> replyToken == [])
  {
    match userId
    case Some(id) => Run([GetProfile(id)] + ProfileCompletion(p, replyToken, p.getProfile(id)).effects, Normal)
    case None => ReplyTextRun(p, replyToken, NoUserIdText)
  }

  /** The "bye" command: announce, then leave the group or room; a
      one-to-one chat cannot be left. */
  function ByeRun(p: Platform, replyToken: JString, source: Source): (r: Run)
    ensures |r.effects| <= 2
    ensures r.effects != [] ==> r.effects[0].ReplyMessage? && r.effects[0].replyToken == replyToken
    ensures |r.effects| == 2 ==>
      || (source.GroupSource? && r.effects[0].messages == [TextMessage(LeavingGroupText)] && r.effects[1] == LeaveGroup(source.groupId))
      || (source.RoomSource? && r.effects[0].messages == [TextMessage(LeavingRoomText)] && r.effects[1] == LeaveRoom(source.roomId))
    ensures source.UserSource? ==> |r.effects| <= 1
    ensures r.outcome.Threw? && r.outcome.exception.Checked? ==> |r.effects| == 2
    ensures |r.effects| == 2 ==>
      (r.outcome.Normal? <==> (if r.effects[1].LeaveGroup? then p.leaveGroup(r.effects[1].groupId) else p.leaveRoom(r.effects[1].roomId)).Success?)
    ensures |r.effects| == 2 && r.effects[1].LeaveGroup? && p.leaveGroup(r.effects[1].groupId).Failure? ==>
      r.outcome == Threw(Checked(p.leaveGroup(r.effects[1].groupId).failure))
    ensures |r.effects| == 2 && r.effects[1].LeaveRoom? && p.leaveRoom(r.effects[1].roomId).Failure? ==>
      r.outcome == Threw(Checked(p.leaveRoom(r.effects[1].roomId).failure))
    ensures !source.UserSource? && |r.effects| == 1 ==>
      p.replyMessage(replyToken, r.effects[0].messages).Failure? &&
      r.outcome == Threw(RuntimeWrapping(p.replyMessage(replyToken, r.effects[0].messages).failure))
  {
    match source
    case GroupSource(groupId, _) =>
      Then(ReplyTextRun(p, replyToken, LeavingGroupText), LeaveRun(LeaveGroup(groupId), p.leaveGroup(groupId)))
    case RoomSource(roomId, _) =>
      Then(ReplyTextRun(p, replyToken, LeavingRoomText), LeaveRun(LeaveRoom(roomId), p.leaveRoom(roomId)))
    case UserSource(_) => ReplyTextRun(p, replyToken, OneToOneText)
  }

  const ButtonsImagePath := Lit("/static/buttons/1040.jpg")
  const ImagemapBasePath := Lit("/static/rich")

  /** `handleTextContent`: the calls made for a text event and how the
      handler ends. `createUri` resolves a path against the current request.
      An event leads to at most two calls, and every reply uses the event's
      own token. */
  function Dispatch(p: Platform, createUri: JString -> JString, replyToken: JString, source: Source, text: JString): (r: Run)
    ensures |r.effects| <= 2
    ensures forall e <- r.effects :: e.ReplyMessage? ==> e.replyToken == replyToken
  {
    if text == ProfileCommand then ProfileRun(p, replyToken, source.userId)
    else if text == ByeCommand then ByeRun(p, replyToken, source)
    else if text == ConfirmCommand then ReplyRun(p, replyToken, [ConfirmPayload()])
    else if text == ButtonsCommand then ReplyRun(p, replyToken, [ButtonsPayload(createUri(ButtonsImagePath))])
    else if text == CarouselCommand then ReplyRun(p, replyToken, [CarouselPayload(createUri(ButtonsImagePath))])
    else if text == ImagemapCommand then ReplyRun(p, replyToken, [ImagemapPayload(createUri(ImagemapBasePath))])
    else ReplyTextRun(p, replyToken, text)
  }

  /** The controller: its one field is the messaging client. */
  class TicketBotController {
    const lineMessagingClient: MessagingClient

    constructor (client: MessagingClient)
      ensures lineMessagingClient == client
    {
      lineMessagingClient := client;
    }

    /** `reply(replyToken, message)`: the list reply with a one-element list. */
    method Reply(replyToken: JString, message: Message) returns (o: Outcome)
      modifies lineMessagingClient
      ensures lineMessagingClient.log == old(lineMessagingClient.log) + ReplyRun(lineMessagingClient.platform, replyToken, [message]).effects
      ensures o == ReplyRun(lineMessagingClient.platform, replyToken, [message]).outcome
    {
      o := ReplyMessages(replyToken, [message]);
    }

    /** `reply(replyToken, messages)`. */
    method ReplyMessages(replyToken: JString, messages: seq<Message>) returns (o: Outcome)
      modifies lineMessagingClient
      ensures lineMessagingClient.log == old(lineMessagingClient.log) + ReplyRun(lineMessagingClient.platform, replyToken, messages).effects
      ensures o == ReplyRun(lineMessagingClient.platform, replyToken, messages).outcome
    {
      var result := lineMessagingClient.ReplyMessage(replyToken, messages);
      if result.Failure? {
        o := Threw(RuntimeWrapping(result.failure));
      } else {
        o := Normal;
      }
    }

    /** `replyText(replyToken, message)`. */
    method ReplyText(replyToken: JString, message: JString) returns (o: Outcome)
      modifies lineMessagingClient
      ensures lineMessagingClient.log == old(lineMessagingClient.log) + ReplyTextRun(lineMessagingClient.platform, replyToken, message).effects
      ensures o == ReplyTextRun(lineMessagingClient.platform, replyToken, message).outcome
    {
      if replyToken == [] {
        return Threw(IllegalArgument(EmptyTokenMessage));
      }
      var text := message;
      if |text| > MaxTextLength {
        text := text[..MaxTextLength - 2] + Ellipsis;
      }
      o := Reply(replyToken, TextMessage(text));
    }

    /** The `whenComplete` continuation of the profile lookup. */
    method ProfileCompleted(replyToken: JString, result: ProfileResult) returns (o: Outcome)
      modifies lineMessagingClient
      ensures lineMessagingClient.log == old(lineMessagingClient.log) + ProfileCompletion(lineMessagingClient.platform, replyToken, result).effects
      ensures o == ProfileCompletion(lineMessagingClient.platform, replyToken, result).outcome
    {
      match result
      case ProfileFailure(message) =>
        o := ReplyText(replyToken, message);
      case UserProfile(displayName, statusMessage) =>
        o := ReplyMessages(replyToken, ProfileLines(displayName, statusMessage));
    }

    /** The "profile" case of `handleTextContent`. */
    method HandleProfile(replyToken: JString, userId: Option<JString>) returns (o: Outcome)
      modifies lineMessagingClient
      ensures lineMessagingClient.log == old(lineMessagingClient.log) + ProfileRun(lineMessagingClient.platform, replyToken, userId).effects
      ensures o == ProfileRun(lineMessagingClient.platform, replyToken, userId).outcome
    {
      if userId.Some? {
        var profile := lineMessagingClient.GetProfile(userId.value);
        var swallowed := ProfileCompleted(replyToken, profile);
        o := Normal;
      } else {
        o := ReplyText(replyToken, NoUserIdText);
      }
    }

    /** The "bye" case of `handleTextContent`. */
    method HandleBye(replyToken: JString, source: Source) returns (o: Outcome)
      modifies lineMessagingClient
      ensures lineMessagingClient.log == old(lineMessagingClient.log) + ByeRun(lineMessagingClient.platform, replyToken, source).effects
      ensures o == ByeRun(lineMessagingClient.platform, replyToken, source).outcome
    {
      match source
      case GroupSource(groupId, _) =>
        o := ReplyText(replyToken, LeavingGroupText);
        if o.Normal? {
          var left := lineMessagingClient.LeaveGroup(groupId);
          if left.Failure? {
            o := Threw(Checked(left.failure));
          }
        }
      case RoomSource(roomId, _) =>
        o := ReplyText(replyToken, LeavingRoomText);
        if o.Normal? {
          var left := lineMessagingClient.LeaveRoom(roomId);
          if left.Failure? {
            o := Threw(Checked(left.failure));
          }
        }
      case UserSource(_) =>
        o := ReplyText(replyToken, OneToOneText);
    }

    /** `handleTextContent`: dispatch on the exact text of the message. */
    method HandleTextContent(replyToken: JString, source: Source, text: JString, createUri: JString -> JString) returns (o: Outcome)
      modifies lineMessagingClient
      ensures lineMessagingClient.log == old(lineMessagingClient.log) + Dispatch(lineMessagingClient.platform, createUri, replyToken, source, text).effects
      ensures o == Dispatch(lineMessagingClient.platform, createUri, replyToken, source, text).outcome
    {
      if text == ProfileCommand {
        o := HandleProfile(replyToken, source.userId);
      } else if text == ByeCommand {
        o := HandleBye(replyToken, source);
      } else if text == ConfirmCommand {
        o := Reply(replyToken, ConfirmPayload());
      } else if text == ButtonsCommand {
        var imageUrl := createUri(ButtonsImagePath);
        o := Reply(replyToken, ButtonsPayload(imageUrl));
      } else if text == CarouselCommand {
        var imageUrl := createUri(ButtonsImagePath);
        o := Reply(replyToken, CarouselPayload(imageUrl));
      } else if text == ImagemapCommand {
        o := Reply(replyToken, ImagemapPayload(createUri(ImagemapBasePath)));
      } else {
        o := ReplyText(replyToken, text);
      }
    }
  }
}
