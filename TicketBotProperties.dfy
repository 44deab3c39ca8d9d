/** What the controller promises, stated about `TicketBot.Dispatch` and the
    reply helpers that `TicketBotController` is proved to follow. */
module TicketBotProperties {
  import opened JavaString
  import opened Messages
  import opened LineClient
  import opened TicketBot

  // ---------------------------------------------------------------------
  // replyText and reply

  /** Truncation is a no-op on what it produces. */
  lemma TruncateIdempotent(message: JString)
    ensures Truncate(Truncate(message)) == Truncate(message)
  {
  }

  // ---------------------------------------------------------------------
  // the default branch

  /** A text that is no command is echoed through `replyText`: with a token,
      exactly one reply holding the truncated text. */
  lemma EchoForOtherText(p: Platform, createUri: JString -> JString, replyToken: JString, source: Source, text: JString)
    requires text !in Commands()
    ensures Dispatch(p, createUri, replyToken, source, text) == ReplyTextRun(p, replyToken, text)
    ensures replyToken != [] ==>
      Dispatch(p, createUri, replyToken, source, text).effects == [ReplyMessage(replyToken, [TextMessage(Truncate(text))])]
  {
  }

  /** `e` is the echo of `text`: the reply the default branch would send. */
  predicate IsEcho(e: Effect, replyToken: JString, text: JString) {
    e == ReplyMessage(replyToken, [TextMessage(Truncate(text))])
  }

  /** A command is never echoed back. The one exception the hypothesis rules
      out: a profile lookup that fails with the message "profile" itself,
      which the profile branch relays verbatim. */
  lemma CommandsAreNotEchoed(p: Platform, createUri: JString -> JString, replyToken: JString, source: Source, text: JString)
    requires text in Commands()
    requires text == ProfileCommand && source.userId.Some? && p.getProfile(source.userId.value).ProfileFailure? ==>
      p.getProfile(source.userId.value).message != text
    ensures forall e <- Dispatch(p, createUri, replyToken, source, text).effects :: !IsEcho(e, replyToken, text)
  {
  }

  /** Only "bye" leaves a group or room, and only "profile" looks a user up. */
  lemma SideCallsOnlyForTheirCommand(p: Platform, createUri: JString -> JString, replyToken: JString, source: Source, text: JString)
    ensures (exists e <- Dispatch(p, createUri, replyToken, source, text).effects :: e.LeaveGroup? || e.LeaveRoom?) ==> text == ByeCommand
    ensures (exists e <- Dispatch(p, createUri, replyToken, source, text).effects :: e.GetProfile?) ==> text == ProfileCommand
  {
  }

  // ---------------------------------------------------------------------
  // "profile"

  /** Without a user ID: the fixed explanation through `replyText`, and no
      profile lookup. */
  lemma ProfileWithoutUserId(p: Platform, createUri: JString -> JString, replyToken: JString, source: Source)
    requires source.userId.None?
    ensures Dispatch(p, createUri, replyToken, source, ProfileCommand) == ReplyTextRun(p, replyToken, NoUserIdText)
    ensures forall e <- Dispatch(p, createUri, replyToken, source, ProfileCommand).effects :: !e.GetProfile?
  {
  }

  /** With a user ID and a fetched profile: the lookup, then one reply
      holding the display-name line and the status-message line, in that
      order. */
  lemma ProfileFetched(p: Platform, createUri: JString -> JString, replyToken: JString, source: Source)
    requires source.userId.Some? && p.getProfile(source.userId.value).UserProfile?
    ensures var profile := p.getProfile(source.userId.value);
      Dispatch(p, createUri, replyToken, source, ProfileCommand).effects ==
        [ GetProfile(source.userId.value),
          ReplyMessage(replyToken,
            [ TextMessage(Lit("Display name: ") + profile.displayName),
              TextMessage(Lit("Status message: ") + profile.statusMessage) ]) ]
    ensures Dispatch(p, createUri, replyToken, source, ProfileCommand).outcome == Normal
  {
  }

  /** With a user ID and a failed lookup: the lookup, then the failure's
      message through `replyText`; the handler itself still ends normally,
      even when the token is empty or the reply fails. */
  lemma ProfileLookupFailed(p: Platform, createUri: JString -> JString, replyToken: JString, source: Source)
    requires source.userId.Some? && p.getProfile(source.userId.value).ProfileFailure?
    ensures Dispatch(p, createUri, replyToken, source, ProfileCommand).effects ==
      [GetProfile(source.userId.value)] + ReplyTextRun(p, replyToken, p.getProfile(source.userId.value).message).effects
    ensures Dispatch(p, createUri, replyToken, source, ProfileCommand).outcome == Normal
  {
  }

  // ---------------------------------------------------------------------
  // "bye"

  /** The calls among `effects` that leave a group or a room. */
  function Leaves(effects: seq<Effect>): (r: seq<Effect>)
    ensures |r| <= |effects|
    ensures forall e <- r :: e in effects && (e.LeaveGroup? || e.LeaveRoom?)
    ensures forall e <- effects :: e.LeaveGroup? || e.LeaveRoom? ==> e in r
  {
    if effects == [] then []
    else (if effects[0].LeaveGroup? || effects[0].LeaveRoom? then [effects[0]] else []) + Leaves(effects[1..])
  }

  /** In a group: "Leaving group" is sent first, then exactly one call
      leaves that group, whose failure the handler rethrows unwrapped. A
      failed announcement ends in `reply`'s RuntimeException, with no leave
      call. */
  lemma ByeInGroup(p: Platform, createUri: JString -> JString, replyToken: JString, groupId: JString, userId: Option<JString>)
    requires replyToken != []
    ensures var run := Dispatch(p, createUri, replyToken, GroupSource(groupId, userId), ByeCommand);
      var announce := ReplyMessage(replyToken, [TextMessage(LeavingGroupText)]);
      && (p.replyMessage(replyToken, [TextMessage(LeavingGroupText)]).Success? ==>
            && run.effects == [announce, LeaveGroup(groupId)]
            && Leaves(run.effects) == [LeaveGroup(groupId)]
            && (run.outcome.Normal? <==> p.leaveGroup(groupId).Success?)
            && (p.leaveGroup(groupId).Failure? ==> run.outcome == Threw(Checked(p.leaveGroup(groupId).failure))))
      && (p.replyMessage(replyToken, [TextMessage(LeavingGroupText)]).Failure? ==>
            && run.effects == [announce] && Leaves(run.effects) == []
            && run.outcome == Threw(RuntimeWrapping(p.replyMessage(replyToken, [TextMessage(LeavingGroupText)]).failure)))
  {
  }

  /** In a room: "Leaving room" is sent first, then exactly one call
      leaves that room, whose failure the handler rethrows unwrapped. A
      failed announcement ends in `reply`'s RuntimeException, with no leave
      call. */
  lemma ByeInRoom(p: Platform, createUri: JString -> JString, replyToken: JString, roomId: JString, userId: Option<JString>)
    requires replyToken != []
    ensures var run := Dispatch(p, createUri, replyToken, RoomSource(roomId, userId), ByeCommand);
      var announce := ReplyMessage(replyToken, [TextMessage(LeavingRoomText)]);
      && (p.replyMessage(replyToken, [TextMessage(LeavingRoomText)]).Success? ==>
            && run.effects == [announce, LeaveRoom(roomId)]
            && Leaves(run.effects) == [LeaveRoom(roomId)]
            && (run.outcome.Normal? <==> p.leaveRoom(roomId).Success?)
            && (p.leaveRoom(roomId).Failure? ==> run.outcome == Threw(Checked(p.leaveRoom(roomId).failure))))
      && (p.replyMessage(replyToken, [TextMessage(LeavingRoomText)]).Failure? ==>
            && run.effects == [announce] && Leaves(run.effects) == []
            && run.outcome == Threw(RuntimeWrapping(p.replyMessage(replyToken, [TextMessage(LeavingRoomText)]).failure)))
  {
  }

  /** In a one-to-one chat: only the fixed explanation, and no leave call. */
  lemma ByeInOneToOneChat(p: Platform, createUri: JString -> JString, replyToken: JString, userId: Option<JString>)
    ensures Dispatch(p, createUri, replyToken, UserSource(userId), ByeCommand) == ReplyTextRun(p, replyToken, OneToOneText)
    ensures Leaves(Dispatch(p, createUri, replyToken, UserSource(userId), ByeCommand).effects) == []
  {
  }

  // ---------------------------------------------------------------------
  // the template commands

  /** "confirm": exactly one reply call, carrying the confirm template,
      whatever the source and the token. */
  lemma ConfirmReply(p: Platform, createUri: JString -> JString, replyToken: JString, source: Source)
    ensures Dispatch(p, createUri, replyToken, source, ConfirmCommand) == ReplyRun(p, replyToken, [ConfirmPayload()])
    ensures ConfirmPayload().template.left == MessageAction(Lit("Yes"), Lit("Yes!"))
    ensures ConfirmPayload().template.right == MessageAction(Lit("No"), Lit("No!"))
  {
    CommandsDistinct();
  }

  /** "buttons": exactly one reply call, carrying the buttons template on
      the image at "/static/buttons/1040.jpg". */
  lemma ButtonsReply(p: Platform, createUri: JString -> JString, replyToken: JString, source: Source)
    ensures Dispatch(p, createUri, replyToken, source, ButtonsCommand)
      == ReplyRun(p, replyToken, [ButtonsPayload(createUri(ButtonsImagePath))])
  {
    CommandsDistinct();
  }

  /** "carousel": exactly one reply call, carrying the two-column carousel
      on the image at "/static/buttons/1040.jpg". */
  lemma CarouselReply(p: Platform, createUri: JString -> JString, replyToken: JString, source: Source)
    ensures Dispatch(p, createUri, replyToken, source, CarouselCommand)
      == ReplyRun(p, replyToken, [CarouselPayload(createUri(ButtonsImagePath))])
  {
  }

  /** "imagemap": exactly one reply call, carrying the imagemap on the base
      image "/static/rich" (whose areas tile the canvas: ImagemapTilesCanvas). */
  lemma ImagemapReply(p: Platform, createUri: JString -> JString, replyToken: JString, source: Source)
    ensures Dispatch(p, createUri, replyToken, source, ImagemapCommand)
      == ReplyRun(p, replyToken, [ImagemapPayload(createUri(ImagemapBasePath))])
  {
    CommandsDistinct();
  }

  /** The four areas of the imagemap tile its canvas: inside it, pairwise
      disjoint, and covering every pixel. */
  lemma ImagemapTilesCanvas(baseUrl: JString)
    ensures var m := ImagemapPayload(baseUrl); m.ImagemapMessage? && Tiles(Areas(m.actions), m.baseSize)
  {
    var m := ImagemapPayload(baseUrl);
    var areas := Areas(m.actions);
    assert areas == [ImagemapArea(0, 0, 520, 520), ImagemapArea(520, 0, 520, 520),
                     ImagemapArea(0, 520, 520, 520), ImagemapArea(520, 520, 520, 520)];
    forall px, py | 0 <= px < m.baseSize.width && 0 <= py < m.baseSize.height
      ensures Covered(areas, px, py)
    {
      var i := (if px < 520 then 0 else 1) + (if py < 520 then 0 else 2);
      assert Contains(areas[i], px, py);
    }
  }

  // ---------------------------------------------------------------------
  // the empty-token guard and the single reply

  /** Only the branches that go through `replyText` check the token: with
      an empty token, the template commands still make their reply call,
      while "bye", "profile" without a user ID and the echo make no call and
      throw `IllegalArgumentException`. */
  lemma EmptyTokenGuardByBranch(p: Platform, createUri: JString -> JString, source: Source, text: JString)
    ensures text in {ConfirmCommand, ButtonsCommand, CarouselCommand, ImagemapCommand} ==>
      |Dispatch(p, createUri, [], source, text).effects| == 1 &&
      Dispatch(p, createUri, [], source, text).effects[0].ReplyMessage?
    ensures text == ByeCommand || (text == ProfileCommand && source.userId.None?) || text !in Commands() ==>
      Dispatch(p, createUri, [], source, text) == Run([], Threw(IllegalArgument(EmptyTokenMessage)))
  {
    CommandsDistinct();
  }

  /** The number of reply calls among `effects`. */
  function ReplyCount(effects: seq<Effect>): (n: nat)
    ensures n <= |effects|
  {
    if effects == [] then 0
    else (if effects[0].ReplyMessage? then 1 else 0) + ReplyCount(effects[1..])
  }

  /** The reply token is used at most once per event, and only for the
      event's own token: every branch makes at most one reply call. */
  lemma AtMostOneReply(p: Platform, createUri: JString -> JString, replyToken: JString, source: Source, text: JString)
    ensures ReplyCount(Dispatch(p, createUri, replyToken, source, text).effects) <= 1
    ensures forall e <- Dispatch(p, createUri, replyToken, source, text).effects :: e.ReplyMessage? ==> e.replyToken == replyToken
  {
  }
}
