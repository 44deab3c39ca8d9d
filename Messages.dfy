/** The LINE message payloads the controller builds, one constructor per SDK
    class it calls, with the constructor arguments in the order the
    controller passes them, and the four fixed template payloads. */
module Messages {
  import opened JavaString

  datatype Option<T> = None | Some(value: T)

  /** Template actions: `URIAction(label, uri)`, `PostbackAction(label, data)`
      or `PostbackAction(label, data, text)`, `MessageAction(label, text)`.
      The two-argument postback has no display text. */
  datatype Action =
    | URIAction(labelText: JString, uri: JString)
    | PostbackAction(labelText: JString, data: JString, displayText: Option<JString>)
    | MessageAction(labelText: JString, text: JString)

  /** A rectangle of an imagemap, in the canvas's pixel coordinates. */
  datatype ImagemapArea = ImagemapArea(x: int, y: int, width: int, height: int)

  /** The declared canvas size of an imagemap. */
  datatype ImagemapBaseSize = ImagemapBaseSize(height: int, width: int)

  /** A clickable imagemap region: open a link, or send a message. */
  datatype ImagemapAction =
    | URIImagemapAction(linkUri: JString, area: ImagemapArea)
    | MessageImagemapAction(text: JString, area: ImagemapArea)

  datatype CarouselColumn =
    CarouselColumn(thumbnailImageUrl: JString, title: JString, text: JString, actions: seq<Action>)

  datatype Template =
    | ConfirmTemplate(text: JString, left: Action, right: Action)
    | ButtonsTemplate(thumbnailImageUrl: JString, title: JString, text: JString, actions: seq<Action>)
    | CarouselTemplate(columns: seq<CarouselColumn>)

  /** The message kinds the controller sends. */
  datatype Message =
    | TextMessage(text: JString)
    | TemplateMessage(altText: JString, template: Template)
    | ImagemapMessage(baseUrl: JString, altText: JString, baseSize: ImagemapBaseSize, actions: seq<ImagemapAction>)

  /** The confirm dialog of the "confirm" command. */
  function ConfirmPayload(): (r: Message)
    ensures r.TemplateMessage? && r.template.ConfirmTemplate?
    ensures r.template.left.MessageAction? && r.template.right.MessageAction?
    ensures r.template.left.labelText + Lit("!") == r.template.left.text
    ensures r.template.right.labelText + Lit("!") == r.template.right.text
  {
    TemplateMessage(Lit("Confirm alt text"),
      ConfirmTemplate(Lit("Do it?"),
        MessageAction(Lit("Yes"), Lit("Yes!")),
        MessageAction(Lit("No"), Lit("No!"))))
  }

  /** The postback shown as "言 hello2", whose display text equals its data. */
  function DisplayedPostback(): Action {
    PostbackAction(Lit("言 hello2"), Lit("hello こんにちは"), Some(Lit("hello こんにちは")))
  }

  /** The buttons template of the "buttons" command, with `imageUrl` the
      absolute address of "/static/buttons/1040.jpg". */
  function ButtonsPayload(imageUrl: JString): (r: Message)
    ensures r.TemplateMessage? && r.template.ButtonsTemplate?
    ensures r.template.thumbnailImageUrl == imageUrl
    ensures |r.template.actions| == 4
    ensures r.template.actions[0].URIAction? && r.template.actions[3].MessageAction?
    ensures r.template.actions[1].PostbackAction? && r.template.actions[1].displayText.None?
    ensures r.template.actions[2].PostbackAction? && r.template.actions[2].displayText == Some(r.template.actions[2].data)
  {
    TemplateMessage(Lit("Button alt text"),
      ButtonsTemplate(imageUrl, Lit("My button sample"), Lit("Hello, my button"),
        [ URIAction(Lit("Go to line.me"), Lit("https://line.me")),
          PostbackAction(Lit("Say hello1"), Lit("hello こんにちは"), None),
          DisplayedPostback(),
          MessageAction(Lit("Say message"), Lit("Rice=米")) ]))
  }

  /** The two-column carousel of the "carousel" command. */
  function CarouselPayload(imageUrl: JString): (r: Message)
    ensures r.TemplateMessage? && r.template.CarouselTemplate?
    ensures |r.template.columns| == 2
    ensures forall c <- r.template.columns :: c.thumbnailImageUrl == imageUrl && |c.actions| == 2
    ensures r.template.columns[0].actions + r.template.columns[1].actions == ButtonsPayload(imageUrl).template.actions
  {
    TemplateMessage(Lit("Carousel alt text"),
      CarouselTemplate(
        [ CarouselColumn(imageUrl, Lit("hoge"), Lit("fuga"),
            [ URIAction(Lit("Go to line.me"), Lit("https://line.me")),
              PostbackAction(Lit("Say hello1"), Lit("hello こんにちは"), None) ]),
          CarouselColumn(imageUrl, Lit("hoge"), Lit("fuga"),
            [ DisplayedPostback(),
              MessageAction(Lit("Say message"), Lit("Rice=米")) ]) ]))
  }

  /** The side of the imagemap canvas and of each of its four areas. */
  const Canvas := 1040
  const Half := 520

  const MangaUri := Lit("https://store.line.me/family/manga/en")
  const MusicUri := Lit("https://store.line.me/family/music/en")
  const PlayUri := Lit("https://store.line.me/family/play/en")

  /** The imagemap of the "imagemap" command, with `baseUrl` the absolute
      address of "/static/rich". */
  function ImagemapPayload(baseUrl: JString): (r: Message)
    ensures r.ImagemapMessage? && r.baseUrl == baseUrl
    ensures r.baseSize == ImagemapBaseSize(Canvas, Canvas)
    ensures |r.actions| == 4
    ensures forall a <- r.actions :: a.area.width == Half && a.area.height == Half && WithinCanvas(a.area, r.baseSize)
    ensures r.actions[0].URIImagemapAction? && r.actions[1].URIImagemapAction? && r.actions[2].URIImagemapAction?
    ensures r.actions[3].MessageImagemapAction? && r.actions[3].text == Lit("URANAI!")
  {
    ImagemapMessage(baseUrl, Lit("This is alt text"), ImagemapBaseSize(Canvas, Canvas),
      [ URIImagemapAction(MangaUri, ImagemapArea(0, 0, Half, Half)),
        URIImagemapAction(MusicUri, ImagemapArea(Half, 0, Half, Half)),
        URIImagemapAction(PlayUri, ImagemapArea(0, Half, Half, Half)),
        MessageImagemapAction(Lit("URANAI!"), ImagemapArea(Half, Half, Half, Half)) ])
  }

  /** The pixel (px, py) lies in `area`. */
  predicate Contains(area: ImagemapArea, px: int, py: int) {
    area.x <= px < area.x + area.width && area.y <= py < area.y + area.height
  }

  /** `area` lies inside a canvas of the given size. */
  predicate WithinCanvas(area: ImagemapArea, size: ImagemapBaseSize) {
    0 <= area.x && 0 <= area.y && area.x + area.width <= size.width && area.y + area.height <= size.height
  }

  /** Two areas share no pixel. */
  predicate Disjoint(a: ImagemapArea, b: ImagemapArea) {
    a.x + a.width <= b.x || b.x + b.width <= a.x || a.y + a.height <= b.y || b.y + b.height <= a.y
  }

  /** The areas of an imagemap's actions, in order. */
  function Areas(actions: seq<ImagemapAction>): (r: seq<ImagemapArea>)
    ensures |r| == |actions|
    ensures forall i :: 0 <= i < |actions| ==> r[i] == actions[i].area
  {
    if actions == [] then [] else [actions[0].area] + Areas(actions[1..])
  }

  /** Some area holds the pixel (px, py). */
  predicate Covered(areas: seq<ImagemapArea>, px: int, py: int) {
    exists i :: 0 <= i < |areas| && Contains(areas[i], px, py)
  }

  /** The areas tile the canvas: each lies inside it, no two overlap, and
      every pixel of the canvas lies in one of them. */
  predicate Tiles(areas: seq<ImagemapArea>, size: ImagemapBaseSize) {
    && (forall i :: 0 <= i < |areas| ==> WithinCanvas(areas[i], size))
    && (forall i, j :: 0 <= i < j < |areas| ==> Disjoint(areas[i], areas[j]))
    && (forall px, py :: 0 <= px < size.width && 0 <= py < size.height ==> Covered(areas, px, py))
  }
}
