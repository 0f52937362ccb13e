/**
 * Whether the active page is in the user's collection, and the badge shown
 * for it. The browser's answers (the active tab, and the page metadata its
 * content script reports) are inputs; any failure to obtain them collapses to
 * "not in collection".
 */
module Article {
  import opened Wrappers
  import Anchor
  import Remote
  import opened CacheSpec

  /** The active tab as the browser reports it. */
  datatype Tab = Tab(url: Option<string>, title: Option<string>)

  /** What the content script reports about its page. */
  datatype PageMetadata = PageMetadata(url: Option<string>, title: Option<string>)

  /**
   * Querying the active tab and its content script: either some step threw
   * (no active tab, no content script injected, unsupported page) or both answered.
   */
  datatype PageQuery = Unreachable | Page(tab: Tab, meta: PageMetadata)

  /** `{inCollection, id?}`. */
  datatype ArticleState = ArticleState(inCollection: bool, id: Option<int>)

  const NotInCollection: ArticleState := ArticleState(false, None)

  /** The canonical URL: the page's own URL when truthy, otherwise the tab URL without its anchor. */
  function CanonicalUrl(page: PageQuery): (r: Option<string>)
    requires page.Page?
    ensures r.Some? ==> r.value != ""
    ensures Anchor.Truthy(page.meta.url) ==> r == page.meta.url
    ensures !Anchor.Truthy(page.meta.url) ==> r == Anchor.Cleared(page.tab.url)
    ensures r.None? <==> !Anchor.Truthy(page.meta.url) && !Anchor.Truthy(page.tab.url)
  {
    if Anchor.Truthy(page.meta.url) then page.meta.url else Anchor.Cleared(page.tab.url)
  }

  /** The state for a URL found in a collections map: in the collection exactly under a truthy (nonzero) id. */
  function StateFor(collections: map<string, int>, url: string): (s: ArticleState)
    ensures s.inCollection <==> s.id.Some?
    ensures s.inCollection <==> url in collections && collections[url] != 0
    ensures s.id.Some? ==> s.id.value == collections[url] && s.id.value != 0
  {
    if url in collections && collections[url] != 0 then ArticleState(true, Some(collections[url]))
    else NotInCollection
  }

  /**
   * One resolution of the article state against the collections cache `c`:
   * the state reported and the cache afterwards. The cache is read (and
   * refetched with `resp` if invalid) only once a URL has been resolved.
   */
  function Resolve(c: Cache, page: PageQuery, resp: Fetched): (r: (ArticleState, Cache))
    ensures r.0.inCollection <==> r.0.id.Some?
    ensures r.0.id.Some? ==> r.0.id.value != 0
    ensures page.Unreachable? ==> r == (NotInCollection, c)
    ensures page.Page? && CanonicalUrl(page).None? ==> r == (NotInCollection, c)
    ensures page.Page? && CanonicalUrl(page).Some? ==>
      r.1 == Read(c, resp) && r.0 == StateFor(r.1.entries, CanonicalUrl(page).value)
  {
    if page.Unreachable? then (NotInCollection, c)
    else match CanonicalUrl(page)
      case None => (NotInCollection, c)
      case Some(url) =>
        var c' := Read(c, resp);
        (StateFor(c'.entries, url), c')
  }

  /** In the collection exactly when the page resolves to a URL whose cached id (after the read) is nonzero. */
  lemma InCollectionExactly(c: Cache, page: PageQuery, resp: Fetched)
    ensures var (s, c') := Resolve(c, page, resp);
      s.inCollection <==>
        page.Page? && CanonicalUrl(page).Some? &&
        CanonicalUrl(page).value in c'.entries && c'.entries[CanonicalUrl(page).value] != 0
  {
  }

  /** A failed list fetch on an invalid cache never reports the page as collected. */
  lemma FailedFetchMeansNotInCollection(c: Cache, page: PageQuery)
    requires !c.valid
    ensures Resolve(c, page, Failed).0 == NotInCollection
  {
  }

  /** The collections `{"http://a": 5}`: page `http://a` is in with id 5, page `http://b` is not. */
  lemma ExampleLookup(tab: Tab)
    ensures var c := Cache(true, map["http://a" := 5]);
      Resolve(c, Page(tab, PageMetadata(Some("http://a"), None)), Failed).0 == ArticleState(true, Some(5)) &&
      Resolve(c, Page(tab, PageMetadata(Some("http://b"), None)), Failed).0 == NotInCollection
  {
  }

  /**
   * Opening the popup invalidates the collections cache before resolving: the
   * state then reported never depends on what was cached before.
   */
  lemma PopupIgnoresStaleEntries(c: Cache, other: Cache, page: PageQuery, resp: Fetched)
    ensures Resolve(Invalidated(c), page, resp).0 == Resolve(Invalidated(other), page, resp).0
  {
  }

  /**
   * The popup resolves twice: once for the badge, once for its reply. When
   * both see the same page and the first did not leave the cache invalid after
   * a fetch, the second is served from the cache and agrees with the badge.
   */
  lemma PopupBadgeAgreesWithReply(c: Cache, page: PageQuery, first: Fetched, second: Fetched)
    requires first.Received?
    ensures var (s1, c1) := Resolve(Invalidated(c), page, first);
      Resolve(c1, page, second).0 == s1
  {
  }

  /** The badge update emitted: its text, and its background colour when one is set. */
  datatype BadgeUpdate = BadgeUpdate(text: string, color: Option<string>)

  const Checkmark: string := " ✓"

  /** The badge for an article state: the checkmark on cyan when collected, the empty text (colour untouched) otherwise. */
  function BadgeFor(s: ArticleState): (b: BadgeUpdate)
    ensures b.text == Checkmark <==> s.inCollection
    ensures b.text == "" <==> !s.inCollection
    ensures b.color.Some? <==> s.inCollection
    ensures b.color.Some? ==> b.color.value == "cyan"
  {
    if s.inCollection then BadgeUpdate(Checkmark, Some("cyan")) else BadgeUpdate("", None)
  }

  /** The message `addCollection` reports when the tab or its content script cannot be queried ("unsupported input"). */
  const UnsupportedInput: string := "不支持的输入"

  /**
   * The body `addCollection` posts: the canonical URL, and the page title when
   * truthy, otherwise the tab title. None when the page cannot be queried.
   */
  function CollectionBodyFor(page: PageQuery): (b: Option<Remote.Body>)
    ensures b.Some? <==> page.Page?
    ensures b.Some? ==> b.value.CollectionBody? && b.value.url == CanonicalUrl(page)
    ensures b.Some? ==> b.value.title == if Anchor.Truthy(page.meta.title) then page.meta.title else page.tab.title
  {
    match page
    case Unreachable => None
    case Page(tab, meta) =>
      Some(Remote.CollectionBody(CanonicalUrl(page), if Anchor.Truthy(meta.title) then meta.title else tab.title))
  }
}
