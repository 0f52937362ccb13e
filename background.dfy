/**
 * The background coordinator: the two module-level caches of the extension's
 * background script, the handlers that read and invalidate them, and the
 * message listener that routes requests to those handlers. Each handler runs
 * as one atomic step; what the browser and the network answer during it is
 * passed in.
 */
module Background {
  import opened Wrappers
  import opened Remote
  import opened CacheSpec
  import opened Article
  import Anchor
  import Dispatch

  /**
   * What the outside world answers during one handler: the `fetchData`
   * outcome, and for each of (at most) two article-state resolutions the page
   * query and the collections fetch. A `getMeets` reads its list from `listing`.
   */
  datatype World = World(
    remote: Response,
    page: PageQuery,
    listing: Fetched,
    laterPage: PageQuery,
    laterListing: Fetched)

  /** What the listener replies; `Nothing` is `undefined`. */
  datatype Reply =
    | Nothing
    | Result(result: FetchResult)
    | Meets(meets: map<string, int>)
    | State(state: ArticleState)

  /** A request with the JSON defaults applied, as `fetchData` sends it. */
  function Sent(req: Dispatch.Request): Dispatch.Request {
    req.(init := Prepared(req.init))
  }

  class Coordinator {
    var meetsCacheValid: bool
    var meets: map<string, int>
    var collectionCacheValid: bool
    var collections: map<string, int>

    function MeetsCache(): Cache
      reads this
    {
      Cache(meetsCacheValid, meets)
    }

    function CollectionsCache(): Cache
      reads this
    {
      Cache(collectionCacheValid, collections)
    }

    /** Both caches start invalid and empty. */
    constructor ()
      ensures MeetsCache() == Initial && CollectionsCache() == Initial
    {
      meetsCacheValid := false;
      meets := map[];
      collectionCacheValid := false;
      collections := map[];
    }

    /** `getMeets`: serve the cached counts while valid, otherwise fetch them; `fetched` tells whether the network was asked. */
    method GetMeets(resp: Fetched) returns (m: map<string, int>, fetched: bool)
      modifies this`meetsCacheValid, this`meets
      ensures fetched == !old(meetsCacheValid)
      ensures MeetsCache() == Read(old(MeetsCache()), resp)
      ensures m == meets
    {
      fetched := !meetsCacheValid;
      if meetsCacheValid {
        return meets, fetched;
      }
      match resp {
        case Received(data) =>
          meets := data.GetOr(map[]);
          meetsCacheValid := true;
        case Failed =>
          meets := map[];
          meetsCacheValid := false;
      }
      m := meets;
    }

    /** `getCollections`: the same pattern over the page collections. */
    method GetCollections(resp: Fetched) returns (c: map<string, int>, fetched: bool)
      modifies this`collectionCacheValid, this`collections
      ensures fetched == !old(collectionCacheValid)
      ensures CollectionsCache() == Read(old(CollectionsCache()), resp)
      ensures c == collections
    {
      fetched := !collectionCacheValid;
      if collectionCacheValid {
        return collections, fetched;
      }
      match resp {
        case Received(data) =>
          collections := data.GetOr(map[]);
          collectionCacheValid := true;
        case Failed =>
          collections := map[];
          collectionCacheValid := false;
      }
      c := collections;
    }

    /** `queryWord`: a word query invalidates the meets cache, whatever the query's own outcome, and forwards `fetchData`'s result. */
    method QueryWord(word: string, resp: Response) returns (r: FetchResult, sent: Dispatch.Request)
      modifies this`meetsCacheValid
      ensures MeetsCache() == Invalidated(old(MeetsCache()))
      ensures sent == Sent(Dispatch.RequestFor(Dispatch.Query(word), Unreachable).value)
      ensures r == Normalise(resp)
    {
      meetsCacheValid := false;
      sent := Sent(Dispatch.Request(Dispatch.QueryUrl(word), RequestInit(None, None, None)));
      r := Normalise(resp);
    }

    /** `getArticleState`: resolve the canonical URL and look it up in the collections cache. */
    method GetArticleState(page: PageQuery, resp: Fetched) returns (s: ArticleState)
      modifies this`collectionCacheValid, this`collections
      ensures (s, CollectionsCache()) == Resolve(old(CollectionsCache()), page, resp)
    {
      if page.Unreachable? {
        return NotInCollection;
      }
      var url := page.meta.url;
      if !Anchor.Truthy(url) {
        url := Anchor.ClearAnchor(page.tab.url);
      }
      if !Anchor.Truthy(url) {
        return NotInCollection;
      }
      var cached, _ := GetCollections(resp);
      s := StateFor(cached, url.value);
    }

    /** `updateBadge` (also run on every tab switch): resolve the state and emit its badge. */
    method UpdateBadge(page: PageQuery, resp: Fetched) returns (badge: BadgeUpdate)
      modifies this`collectionCacheValid, this`collections
      ensures var (s, c) := Resolve(old(CollectionsCache()), page, resp);
        badge == BadgeFor(s) && CollectionsCache() == c
    {
      var s := GetArticleState(page, resp);
      badge := BadgeFor(s);
    }

    /**
     * `getArticleStatePopup`: invalidate the collections cache, refresh the
     * badge, then resolve the state again for the reply.
     */
    method GetArticleStatePopup(page: PageQuery, resp: Fetched, laterPage: PageQuery, laterResp: Fetched)
      returns (s: ArticleState, badge: BadgeUpdate)
      modifies this`collectionCacheValid, this`collections
      ensures var (s1, c1) := Resolve(Invalidated(old(CollectionsCache())), page, resp);
        badge == BadgeFor(s1) && (s, CollectionsCache()) == Resolve(c1, laterPage, laterResp)
    {
      collectionCacheValid := false;
      badge := UpdateBadge(page, resp);
      s := GetArticleState(laterPage, laterResp);
    }

    /**
     * `addCollection`: post the page's canonical URL and title; a page that
     * cannot be queried yields the unsupported-input message and sends nothing.
     * Neither cache is touched.
     */
    method AddCollection(page: PageQuery, resp: Response) returns (r: FetchResult, sent: Option<Dispatch.Request>)
      ensures page.Unreachable? ==> r == FetchResult(None, Some(UnsupportedInput)) && sent.None?
      ensures page.Page? ==> r == Normalise(resp) && sent == Some(Sent(Dispatch.RequestFor(Dispatch.AddCollection, page).value))
    {
      if page.Unreachable? {
        return FetchResult(None, Some(UnsupportedInput)), None;
      }
      var url := page.meta.url;
      if !Anchor.Truthy(url) {
        url := Anchor.ClearAnchor(page.tab.url);
      }
      var title := page.meta.title;
      if !Anchor.Truthy(title) {
        title := page.tab.title;
      }
      var req := Dispatch.Request(Dispatch.CollectionUrl, RequestInit(Some("POST"), Some(CollectionBody(url, title)), None));
      sent := Some(Sent(req));
      r := Normalise(resp);
    }

    /**
     * The message listener: route the action, run its handler, and reply with
     * the handler's result; `updateBadge` and unknown actions reply `undefined`.
     * Only a word query and `getMeets` touch the meets cache, only the two
     * badge-refreshing actions touch the collections cache.
     */
    method OnMessage(msg: Dispatch.Message, world: World)
      returns (reply: Reply, badge: Option<BadgeUpdate>, sent: Option<Dispatch.Request>)
      modifies this
      ensures var a := Dispatch.Route(msg);
        && (reply.Nothing? <==> a.Unknown? || a.UpdateBadge?)
        && (badge.Some? <==> a.GetArticleStatePopup? || a.UpdateBadge?)
        && (sent.Some? <==> Dispatch.RequestFor(a, world.page).Some?)
        && (sent.Some? ==> sent.value == Sent(Dispatch.RequestFor(a, world.page).value))
      ensures var a := Dispatch.Route(msg);
        MeetsCache() ==
          if a.Query? then Invalidated(old(MeetsCache()))
          else if a.GetMeets? then Read(old(MeetsCache()), world.listing)
          else old(MeetsCache())
      ensures var a := Dispatch.Route(msg);
        !(a.GetArticleStatePopup? || a.UpdateBadge?) ==> CollectionsCache() == old(CollectionsCache())
      ensures var a := Dispatch.Route(msg);
        && (a.Query? || a.AddScene? || a.ForgetScene? || a.ToggleKnown? || a.DeleteCollection? ==>
              reply == Result(Normalise(world.remote)))
        && (a.AddCollection? ==>
              reply == Result(if world.page.Unreachable? then FetchResult(None, Some(UnsupportedInput))
                              else Normalise(world.remote)))
        && (a.GetMeets? ==> reply == Meets(meets))
      ensures var a := Dispatch.Route(msg);
        a.UpdateBadge? ==>
          var (s, c) := Resolve(old(CollectionsCache()), world.page, world.listing);
          badge == Some(BadgeFor(s)) && CollectionsCache() == c
      ensures var a := Dispatch.Route(msg);
        a.GetArticleStatePopup? ==>
          var (s1, c1) := Resolve(Invalidated(old(CollectionsCache())), world.page, world.listing);
          var (s2, c2) := Resolve(c1, world.laterPage, world.laterListing);
          badge == Some(BadgeFor(s1)) && reply == State(s2) && CollectionsCache() == c2
    {
      var a := Dispatch.Route(msg);
      reply, badge, sent := Nothing, None, None;
      match a
      case Query(word) =>
        var r, req := QueryWord(word, world.remote);
        reply, sent := Result(r), Some(req);
      case GetMeets =>
        var m, _ := GetMeets(world.listing);
        reply := Meets(m);
      case AddScene(_) =>
        sent := Some(Sent(Dispatch.RequestFor(a, world.page).value));
        reply := Result(Normalise(world.remote));
      case ForgetScene(_) =>
        sent := Some(Sent(Dispatch.RequestFor(a, world.page).value));
        reply := Result(Normalise(world.remote));
      case ToggleKnown(_) =>
        sent := Some(Sent(Dispatch.RequestFor(a, world.page).value));
        reply := Result(Normalise(world.remote));
      case GetArticleStatePopup =>
        var s, b := GetArticleStatePopup(world.page, world.listing, world.laterPage, world.laterListing);
        reply, badge := State(s), Some(b);
      case AddCollection =>
        var r, req := AddCollection(world.page, world.remote);
        reply, sent := Result(r), req;
      case DeleteCollection(_) =>
        sent := Some(Sent(Dispatch.RequestFor(a, world.page).value));
        reply := Result(Normalise(world.remote));
      case UpdateBadge =>
        var b := UpdateBadge(world.page, world.listing);
        badge := Some(b);
      case Unknown(_) =>
    }

    /** The tab-activation listener: refresh the badge for the newly active tab. */
    method OnTabActivated(page: PageQuery, resp: Fetched) returns (badge: BadgeUpdate)
      modifies this`collectionCacheValid, this`collections
      ensures var (s, c) := Resolve(old(CollectionsCache()), page, resp);
        badge == BadgeFor(s) && CollectionsCache() == c
    {
      badge := UpdateBadge(page, resp);
    }
  }
}
