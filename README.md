# LINE ticket bot controller — a Dafny model

This project models `TicketBotController`, the webhook controller of a LINE
chat bot. For each text message it receives, the controller compares the
text with six literal commands ("profile", "bye", "confirm", "buttons",
"carousel", "imagemap"). It then calls the LINE messaging client: a reply
with plain text or a fixed template, a profile lookup, or leaving a group or
room. Any other text is echoed back through `replyText`, which refuses an
empty reply token and cuts texts longer than 1000 code units to 998 code
units plus "……".

Layout:

- `JavaString.dfy`: a Java `String` as a sequence of UTF-16 code units
  (`JString`), so `|s|` is `length()`. `Lit` writes the source's string
  literals, and `LitIsUtf16` proves that it is their UTF-16 encoding.
- `Messages.dfy`: the SDK payloads the controller builds (`Action`,
  `ImagemapArea`, `CarouselColumn`, `Template`, `Message`), with the
  constructor arguments in source order. It also holds the four fixed
  payloads and the geometry predicates for imagemap areas.
- `LineClient.dfy`: the messaging client. The class `MessagingClient`
  appends every call to an effect log (`Effect`). A `Platform` value gives
  the abstract answer to each call: success, or a failure of the future.
- `TicketBot.dfy`: the reply helpers and the dispatcher as specification
  functions (`ReplyRun`, `ReplyTextRun`, `ProfileRun`, `ByeRun`,
  `Dispatch`). Each returns the ordered calls and how the handler ends: a
  normal return, or an exception. The class `TicketBotController` issues
  those calls on the client one by one. Each of its methods is proved to
  append exactly its function's calls to the log and to end the same way.
- `TicketBotProperties.dfy`: the properties of the dispatcher, as lemmas
  about `Dispatch` and the reply helpers.

Exceptions are values (`Outcome = Normal | Threw(Exception)`):

- `IllegalArgument` is the empty-token check.
- `RuntimeWrapping` is a failed reply call, wrapped by `reply`.
- `Checked` is the `ExecutionException` or `InterruptedException` of a
  leave call awaited with `get()`, which `handleTextContent` rethrows
  unwrapped.

The profile lookup's `whenComplete` continuation runs after the lookup.
Its calls go into the log after the lookup. Whatever it throws stays in the
discarded future, so the "profile" branch with a user ID always returns
normally.

Three points of the controller's behaviour:

- Only `replyText` checks for an empty reply token. `reply` does not, so
  the four template commands send their reply call even with an empty
  token (`EmptyTokenGuardByBranch`).
- A failed leave call rethrows the future's own checked exception.
- The profile lines ("Display name: …", "Status message: …") are sent with
  `reply`, not `replyText`, so they are not truncated to 1000 code units.

## Model

| member | source | states |
|---|---|---|
| JavaString.LitIsUtf16 | src/main/java/com/suhyunkim/ticket/controller/TicketBotController.java:79 | a string literal of Basic Multilingual Plane characters, as the model writes it, is exactly its UTF-16 encoding, so `length()` counts one unit per character of the literals ("……" is two units) |
| TicketBot.Truncate | src/main/java/com/suhyunkim/ticket/controller/TicketBotController.java:78-80 | the text sent is at most 1000 code units; a message of at most 1000 is unchanged; a longer one becomes exactly 1000 units, its first 998 followed by the ellipsis |
| TicketBot.CommandsDistinct | src/main/java/com/suhyunkim/ticket/controller/TicketBotController.java:88-143 | the six case labels of the switch are pairwise different |
| Messages.ConfirmPayload | src/main/java/com/suhyunkim/ticket/controller/TicketBotController.java:120-121 | the confirm template message whose two actions are message actions, each sending its own label followed by "!" |
| Messages.ButtonsPayload | src/main/java/com/suhyunkim/ticket/controller/TicketBotController.java:126-128 | a buttons template on the given image with exactly four actions: a link, a postback without display text, a postback whose display text equals its data, a message |
| Messages.CarouselPayload | src/main/java/com/suhyunkim/ticket/controller/TicketBotController.java:133-135 | a carousel of exactly two columns on the given image, two actions each, which together are the buttons template's four actions in order |
| Messages.ImagemapPayload | src/main/java/com/suhyunkim/ticket/controller/TicketBotController.java:140-141 | an imagemap on the given base URL with a 1040x1040 canvas and exactly four 520x520 areas inside it; three links, then the message "URANAI!" |
| TicketBot.ReplyRun | src/main/java/com/suhyunkim/ticket/controller/TicketBotController.java:65-72 | `reply` makes one call with the token and messages as given, returns normally exactly when the call succeeds, and otherwise throws a RuntimeException wrapping the failure |
| TicketBot.ReplyTextRun | src/main/java/com/suhyunkim/ticket/controller/TicketBotController.java:74-82 | no call is made if and only if the token is empty, in which case IllegalArgumentException is thrown; otherwise it is `reply` of the one truncated text, so a failed call ends in reply's RuntimeException; every text sent is at most 1000 code units |
| TicketBot.ProfileCompletion | src/main/java/com/suhyunkim/ticket/controller/TicketBotController.java:92-100 | the continuation makes at most one call, a reply with the event's token: the two profile lines for a fetched profile; for a failure, the truncated failure message, and no call at all when the token is empty |
| TicketBot.ProfileRun | src/main/java/com/suhyunkim/ticket/controller/TicketBotController.java:89-104 | with a user ID: the lookup first, then at most a reply with the event's token, and a normal return; without: no lookup, and no call exactly when the token is empty |
| TicketBot.ByeRun | src/main/java/com/suhyunkim/ticket/controller/TicketBotController.java:106-117 | at most two calls, the first a reply with the event's token; a second call is the leave of this group with "Leaving group" announced, or of this room with "Leaving room"; a one-to-one chat gets at most one call; after a leave call the handler returns normally exactly when it succeeded, and otherwise rethrows its own failure unwrapped; a group or room with only the announcement ends in reply's RuntimeException |
| TicketBot.Dispatch | src/main/java/com/suhyunkim/ticket/controller/TicketBotController.java:84-148 | an event leads to at most two calls, and every reply uses the event's own token |
| TicketBot.TicketBotController.Reply | src/main/java/com/suhyunkim/ticket/controller/TicketBotController.java:61-63 | the single-message reply makes exactly the calls of the list reply with a one-element list, and ends the same way |
| TicketBot.TicketBotController.ReplyMessages | src/main/java/com/suhyunkim/ticket/controller/TicketBotController.java:65-72 | one reply call carrying the token and messages; a failed call ends in a RuntimeException wrapping the failure |
| TicketBot.TicketBotController.ReplyText | src/main/java/com/suhyunkim/ticket/controller/TicketBotController.java:74-82 | an empty token throws before any call; otherwise one reply call with the one truncated text message |
| TicketBot.TicketBotController.ProfileCompleted | src/main/java/com/suhyunkim/ticket/controller/TicketBotController.java:92-100 | a failed lookup relays the failure's message through replyText; a fetched profile sends the two profile lines in one reply |
| TicketBot.TicketBotController.HandleProfile | src/main/java/com/suhyunkim/ticket/controller/TicketBotController.java:89-104 | with a user ID: the lookup, then the continuation's calls, and a normal return whatever the continuation does; without: the fixed explanation through replyText |
| TicketBot.TicketBotController.HandleBye | src/main/java/com/suhyunkim/ticket/controller/TicketBotController.java:106-117 | group or room: the announcement through replyText, then, only if that returned, the leave call, whose failure is rethrown; otherwise the fixed explanation |
| TicketBot.TicketBotController.HandleTextContent | src/main/java/com/suhyunkim/ticket/controller/TicketBotController.java:84-148 | the calls made on the client are exactly those of `Dispatch` for the event, in order, and the handler ends as `Dispatch` says |
| TicketBotProperties.TruncateIdempotent | src/main/java/com/suhyunkim/ticket/controller/TicketBotController.java:78-80 | truncating an already truncated text changes nothing |
| TicketBotProperties.SideCallsOnlyForTheirCommand | src/main/java/com/suhyunkim/ticket/controller/TicketBotController.java:88-117 | a leave call is made only for "bye" and a profile lookup only for "profile" |
| TicketBotProperties.EchoForOtherText | src/main/java/com/suhyunkim/ticket/controller/TicketBotController.java:143-146 | a text that is no command is handled by replyText on that text: with a token, exactly one reply holding the truncated text |
| TicketBotProperties.CommandsAreNotEchoed | src/main/java/com/suhyunkim/ticket/controller/TicketBotController.java:88-142 | no call made for a command text is the echo of that text |
| TicketBotProperties.ProfileWithoutUserId | src/main/java/com/suhyunkim/ticket/controller/TicketBotController.java:101-103 | without a user ID, "profile" sends the fixed explanation through replyText and makes no profile lookup |
| TicketBotProperties.ProfileFetched | src/main/java/com/suhyunkim/ticket/controller/TicketBotController.java:90-98 | with a fetched profile: the lookup, then one reply with "Display name: " + name and "Status message: " + status, in that order, and a normal return |
| TicketBotProperties.ProfileLookupFailed | src/main/java/com/suhyunkim/ticket/controller/TicketBotController.java:92-96 | with a failed lookup: the lookup, then the failure's message through replyText, and a normal return |
| TicketBotProperties.ByeInGroup | src/main/java/com/suhyunkim/ticket/controller/TicketBotController.java:108-110 | in a group: "Leaving group" first; if it was delivered, exactly one leave call for that group, and the handler returns normally exactly when leaving succeeds, otherwise rethrows that call's own failure unwrapped; if the announcement failed, no leave call and reply's RuntimeException |
| TicketBotProperties.ByeInRoom | src/main/java/com/suhyunkim/ticket/controller/TicketBotController.java:111-113 | in a room: "Leaving room" first; if it was delivered, exactly one leave call for that room, and the handler returns normally exactly when leaving succeeds, otherwise rethrows that call's own failure unwrapped; if the announcement failed, no leave call and reply's RuntimeException |
| TicketBotProperties.ByeInOneToOneChat | src/main/java/com/suhyunkim/ticket/controller/TicketBotController.java:114-116 | in a one-to-one chat: only the fixed explanation, and no leave call |
| TicketBotProperties.ConfirmReply | src/main/java/com/suhyunkim/ticket/controller/TicketBotController.java:119-123 | exactly one reply call, carrying the confirm template, for any source and token; its two actions are the message actions Yes/"Yes!" and No/"No!" |
| TicketBotProperties.ButtonsReply | src/main/java/com/suhyunkim/ticket/controller/TicketBotController.java:125-130 | exactly one reply call, carrying the buttons template on the image at /static/buttons/1040.jpg, for any source and token |
| TicketBotProperties.CarouselReply | src/main/java/com/suhyunkim/ticket/controller/TicketBotController.java:132-137 | exactly one reply call, carrying the carousel on the image at /static/buttons/1040.jpg, for any source and token |
| TicketBotProperties.ImagemapReply | src/main/java/com/suhyunkim/ticket/controller/TicketBotController.java:139-142 | exactly one reply call, carrying the imagemap on the base image /static/rich, for any source and token |
| TicketBotProperties.ImagemapTilesCanvas | src/main/java/com/suhyunkim/ticket/controller/TicketBotController.java:140-141 | the four areas lie inside the canvas, are pairwise disjoint, and cover every pixel of it |
| TicketBotProperties.EmptyTokenGuardByBranch | src/main/java/com/suhyunkim/ticket/controller/TicketBotController.java:74-146 | with an empty token, the template commands still make their one reply call, while "bye", "profile" without a user ID and the echo make no call and throw IllegalArgumentException |
| TicketBotProperties.AtMostOneReply | src/main/java/com/suhyunkim/ticket/controller/TicketBotController.java:84-148 | every event gets at most one reply call, always with its own reply token |

## Left out

- `handleTextMessageEvent`, the `@LineMessageHandler`/`@EventMapping`
  annotations and `@Autowired` injection: Spring wiring. The model starts
  at `handleTextContent` with the token, the event's source and the text.
- `createUri`: it resolves a path against the current servlet request. It
  is a parameter `createUri: JString -> JString`, applied to the two paths
  the source passes.
- The client's network calls: the `Platform` answers stand for them. The
  `BotApiResponse` of a successful reply is ignored, as in the source.
- The timing of the profile continuation: the model fixes its calls right
  after the lookup. This is the only order possible within one event,
  because the handler makes no call after the lookup.
- The null checks Lombok generates for `@NonNull` parameters, and null
  strings in general. A null failure message, a null display name or
  status message ("null" in the text) and a null text are not modelled.
- Source kinds other than group and room (user and unknown sources) are
  one `UserSource` case, since the source treats all of them alike.
- JSON serialisation and the SDK's template validation: library behaviour.
- Logging: commented out in the source.
- CommandsAreNotEchoed: assumes that a failed profile lookup's message is
  not the text "profile" itself, because the source relays that message
  verbatim and would then send the same reply as an echo.
