/** The `TodoWidgetType` helpers shared by the widget views: the colour shown
    for a priority and the deep link that opens one item in the app. */
module WidgetType {
  import opened Wrappers
  import opened Uuids
  import opened Todo

  datatype Color = Red | Yellow | Green

  /** The priority a colour stands for; the inverse of `MakePriorityColor`. */
  function ColorPriority(c: Color): Priority
  {
    match c
    case Red => High
    case Yellow => Medium
    case Green => Low
  }

  /** `makePriorityColor(priority:)`: high is red, medium yellow, low green. */
  function MakePriorityColor(priority: Priority): (c: Color)
    ensures ColorPriority(c) == priority
  {
    match priority
    case High => Red
    case Medium => Yellow
    case Low => Green
  }

  /** The three priorities get three different colours, and every colour is used. */
  lemma PriorityColorBijective(p: Priority, q: Priority, c: Color)
    ensures MakePriorityColor(p) == MakePriorityColor(q) <==> p == q
    ensures MakePriorityColor(ColorPriority(c)) == c
  {
  }

  /** The fixed colour table. */
  lemma PriorityColorTable()
    ensures MakePriorityColor(High) == Red
    ensures MakePriorityColor(Medium) == Yellow
    ensures MakePriorityColor(Low) == Green
  {
  }

  /** One `URLQueryItem`. */
  datatype QueryItem = QueryItem(name: string, value: string)

  /** A URL as its structured parts, before percent-encoding and rendering. */
  datatype DeepLink = DeepLink(scheme: string, host: string, query: seq<QueryItem>)

  const DetailScheme: string := "todolist"
  const DetailHost: string := "detail"
  const IdQueryName: string := "id"

  /** `makeURLScheme(id:)`: `todolist://detail` with the single query item
      `id=<uuidString>`. */
  function MakeURLScheme(id: Uuid): (link: DeepLink)
    ensures link.scheme == DetailScheme && link.host == DetailHost
    ensures |link.query| == 1 && link.query[0].name == IdQueryName
    ensures ParseUuidString(link.query[0].value) == Some(id)
  {
    UuidStringRoundTrip(id);
    DeepLink(DetailScheme, DetailHost, [QueryItem(IdQueryName, UuidString(id))])
  }

  /** The item id a detail link carries: the inverse of `MakeURLScheme`, used to
      state its round trip. */
  function DetailId(link: DeepLink): Option<Uuid>
  {
    if link.scheme == DetailScheme && link.host == DetailHost
       && |link.query| == 1 && link.query[0].name == IdQueryName
    then ParseUuidString(link.query[0].value)
    else None
  }

  /** The link built for an item leads back to that item. */
  lemma DeepLinkRoundTrip(id: Uuid)
    ensures DetailId(MakeURLScheme(id)) == Some(id)
  {
  }

  /** Different items get different links. */
  lemma DeepLinkInjective(a: Uuid, b: Uuid)
    ensures MakeURLScheme(a) == MakeURLScheme(b) <==> a == b
  {
    DeepLinkRoundTrip(a);
    DeepLinkRoundTrip(b);
  }
}
