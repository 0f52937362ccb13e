/**
 * The message protocol between content scripts or the popup and the
 * background coordinator: an action name with its payload, routed to one of
 * nine handlers, and the request each forwarding handler sends.
 */
module Dispatch {
  import opened Wrappers
  import opened Remote
  import Article

  /** A routed request: one variant per recognised action name, and `Unknown` for any other name. */
  datatype Action =
    | Query(word: string)
    | GetMeets
    | AddScene(scene: Scene)
    | ForgetScene(sceneId: int)
    | ToggleKnown(wordId: int)
    | GetArticleStatePopup
    | AddCollection
    | DeleteCollection(collectionId: int)
    | UpdateBadge
    | Unknown(name: string)

  /** A message as sent: the action name and the payload fields the handlers read. */
  datatype Message = Message(action: string, word: string, id: int, scene: Scene)

  const ActionNames: set<string> := {
    "query", "getMeets", "addScene", "forgetScene", "toggleKnown",
    "getArticleStatePopup", "addCollection", "deleteCollection", "updateBadge"
  }

  /** The action name a request travels under. */
  function NameOf(a: Action): (n: string)
    ensures a.Unknown? ==> n == a.name
    ensures !a.Unknown? ==> n in ActionNames
  {
    match a
    case Query(_) => "query"
    case GetMeets => "getMeets"
    case AddScene(_) => "addScene"
    case ForgetScene(_) => "forgetScene"
    case ToggleKnown(_) => "toggleKnown"
    case GetArticleStatePopup => "getArticleStatePopup"
    case AddCollection => "addCollection"
    case DeleteCollection(_) => "deleteCollection"
    case UpdateBadge => "updateBadge"
    case Unknown(name) => name
  }

  /** The `switch (msg.action)` of the message listener. */
  function Route(msg: Message): (a: Action)
    ensures a.Unknown? <==> msg.action !in ActionNames
    ensures NameOf(a) == msg.action
    ensures a.Query? ==> a.word == msg.word
    ensures a.AddScene? ==> a.scene == msg.scene
    ensures a.ForgetScene? ==> a.sceneId == msg.id
    ensures a.ToggleKnown? ==> a.wordId == msg.id
    ensures a.DeleteCollection? ==> a.collectionId == msg.id
  {
    match msg.action
    case "query" => Query(msg.word)
    case "getMeets" => GetMeets
    case "addScene" => AddScene(msg.scene)
    case "forgetScene" => ForgetScene(msg.id)
    case "toggleKnown" => ToggleKnown(msg.id)
    case "getArticleStatePopup" => GetArticleStatePopup
    case "addCollection" => AddCollection
    case "deleteCollection" => DeleteCollection(msg.id)
    case "updateBadge" => UpdateBadge
    case _ => Unknown(msg.action)
  }

  /** A request the protocol can carry: an unknown action must not use a recognised name. */
  predicate Carried(a: Action) {
    a.Unknown? ==> a.name !in ActionNames
  }

  /** The message a sender writes for a request; unused payload fields are left at neutral values. */
  function Encode(a: Action): (msg: Message)
    ensures msg.action == NameOf(a)
  {
    var blank := Message(NameOf(a), "", 0, Scene(0, "", ""));
    match a
    case Query(word) => blank.(word := word)
    case AddScene(scene) => blank.(scene := scene)
    case ForgetScene(id) => blank.(id := id)
    case ToggleKnown(id) => blank.(id := id)
    case DeleteCollection(id) => blank.(id := id)
    case _ => blank
  }

  /** Routing recovers every request from its message, payload included. */
  lemma RouteEncode(a: Action)
    requires Carried(a)
    ensures Route(Encode(a)) == a
  {
  }

  /** Which remote endpoint a forwarding handler addresses; the configured base URLs are not modelled. */
  datatype Endpoint =
    | QueryUrl(word: string)
    | AddSceneUrl
    | ForgetSceneUrl(sceneId: int)
    | KnowUrl(wordId: int)
    | CollectionUrl

  datatype Request = Request(endpoint: Endpoint, init: RequestInit)

  /**
   * The request a handler hands to `fetchData`, before defaults are applied;
   * None for handlers that do not go through `fetchData`, and for
   * `addCollection` when the page cannot be queried.
   */
  function RequestFor(a: Action, page: Article.PageQuery): (r: Option<Request>)
    ensures r.Some? <==> a.Query? || a.AddScene? || a.ForgetScene? || a.ToggleKnown? || a.DeleteCollection?
                         || (a.AddCollection? && page.Page?)
    ensures r.Some? ==> r.value.init.headers.None?
    ensures a.AddCollection? && r.Some? ==> r.value.init.body == Article.CollectionBodyFor(page)
  {
    match a
    case Query(word) => Some(Request(QueryUrl(word), RequestInit(None, None, None)))
    case AddScene(scene) => Some(Request(AddSceneUrl, RequestInit(Some("POST"), Some(SceneBody(scene)), None)))
    case ForgetScene(id) => Some(Request(ForgetSceneUrl(id), RequestInit(Some("DELETE"), None, None)))
    case ToggleKnown(id) => Some(Request(KnowUrl(id), RequestInit(Some("POST"), None, None)))
    case DeleteCollection(id) => Some(Request(CollectionUrl, RequestInit(Some("DELETE"), Some(IdBody(id)), None)))
    case AddCollection =>
      if page.Unreachable? then None
      else Some(Request(CollectionUrl, RequestInit(Some("POST"), Article.CollectionBodyFor(page), None)))
    case _ => None
  }

  /** No handler sets headers, so every request `fetchData` sends carries the JSON defaults. */
  lemma SentRequestsCarryJsonHeaders(a: Action, page: Article.PageQuery)
    requires RequestFor(a, page).Some?
    ensures Prepared(RequestFor(a, page).value.init).headers == Some(JsonHeaders)
  {
  }
}
