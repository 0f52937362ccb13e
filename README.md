# Background coordinator of the word-extension, in Dafny

This project models the background script of a vocabulary-tracking browser
extension (`src/background_scripts/index.ts`). The background script sits
between the per-page content scripts and the remote backend:

- it normalises the answer to every request made through `fetchData` into
  `{data, errMessage}`. The two list fetches of the caches call `fetch`
  directly and never take that shape;
- it keeps two invalidate-by-flag caches, the word "meets" counts and the page
  "collections" (`getMeets`, `getCollections`). A word query clears the first
  flag; opening the popup clears the second;
- it decides whether the active page is in the collection (`getArticleState`).
  The lookup uses the page's canonical URL, or else the tab URL with its anchor
  stripped (`clearAnchor`);
- it derives the toolbar badge from that state (`updateBadge`);
- it routes the nine message actions to their handlers (`onMessage`).

The browser and the network are inputs. A `PageQuery` is what the tab query
and the content script answered, or `Unreachable` when either threw. A
`Fetched` is what a list fetch yielded, or `Failed` when the fetch or the
JSON parse threw. A `Response` is what `fetch` plus `res.json()` yielded, or
`Threw`. A `World` bundles what one handler sees. Each handler runs as one
atomic step.

Files, one module each:

- `wrappers.dfy`: `Option`.
- `anchor.dfy`: `clearAnchor`. `ClearAnchor` is the source's backward loop.
  It is proved equal to the specification `Cleared`, which is characterised
  by `TrailingAnchor`.
- `remote.dfy`: `fetchData`'s result shaping (`Normalise`) and its default
  headers (`Prepared`).
- `cache.dfy`: the cache pattern as values (`Read`, `Invalidated`), and
  lemmas over runs of reads and invalidations.
- `article.dfy`: canonical URL, article-state resolution, badge, and the body
  `addCollection` posts.
- `dispatch.dfy`: the action switch, and the request each forwarding handler
  sends.
- `background.dfy`: class `Coordinator`. It has the four module-level
  variables as fields. The handlers that touch the caches, `addCollection`,
  the listener and the tab-switch listener are its methods. The four
  forwarding handlers (`addScene`, `forgetScene`, `toggleKnown`,
  `deleteCollection`) are branches of `OnMessage`: each sends its
  `RequestFor` request and replies with `fetchData`'s result. Each method's
  contract ties the new state to the functions above.

In some places the code does not do what one might expect, and the model
follows the code:

- The article is "in the collection" when its id is truthy, i.e. nonzero
  (`if (id)`, index.ts:185). A negative id therefore counts, where one
  might expect only a positive id to.
- The `updateBadge` action replies `undefined`, just like an unknown action,
  because `updateBadge()` returns nothing (index.ts:30-31, 259-267). One might
  expect every recognised action to reply with a defined value.
- `fetchData` turns a falsy `data` (`0`, `""`, `false`), not only an absent
  one, into `null` (index.ts:69).
- `getMeets` and `getCollections` call `fetch` directly (index.ts:123, 140).
  So they send no JSON headers; only requests made through `fetchData` get
  them.

## Model

| member | source | states |
|---|---|---|
| Anchor.ScanBack | src/background_scripts/index.ts:244-252 | the backward scan looks only at indices 1..i, and whatever index it reports holds a `#` |
| Anchor.ScanBackSound | src/background_scripts/index.ts:244-252 | a reported index is a `#` with no `#`, `!` or `/` between it and the scan start |
| Anchor.ScanBackComplete | src/background_scripts/index.ts:244-252 | a `#` at index ≥ 1 with no stop character after it is exactly what the scan reports |
| Anchor.TrailingAnchorUnique | src/background_scripts/index.ts:244-252 | a URL has at most one trailing anchor, so the cut position is determined |
| Anchor.Cleared | src/background_scripts/index.ts:241-256 | a result exists iff the input is present and non-empty; it is then a non-empty prefix of the input |
| Anchor.CutAtTrailingAnchor | src/background_scripts/index.ts:243-254 | when a `#` at i ≥ 1 comes before any `!` or `/` in the backward scan, the result is `url[..i]`; the converse is `CutOnlyAtTrailingAnchor` |
| Anchor.CutOnlyAtTrailingAnchor | src/background_scripts/index.ts:253-256 | whenever the URL is changed, it was cut exactly at its trailing anchor |
| Anchor.KeptWithoutTrailingAnchor | src/background_scripts/index.ts:253-256 | without a trailing anchor the URL comes back unchanged |
| Anchor.KeptWhenRouteMarkerFirst | src/background_scripts/index.ts:249-251 | a `!` or `/` met first stops the scan and keeps the URL |
| Anchor.KeptWithoutHashPastStart | src/background_scripts/index.ts:244 | with no `#` past index 0 the URL is kept, so a `#` at index 0 is never cut |
| Anchor.ExamplePageAnchor | src/background_scripts/index.ts:240-257 | `http://x/path#frag` becomes `http://x/path` |
| Anchor.ExampleHashBangRoute | src/background_scripts/index.ts:240-257 | `http://x/#!/y` is kept |
| Anchor.ClearAnchor | src/background_scripts/index.ts:241-257 | the source's loop, with `index` and early `break`, computes exactly `Cleared` |
| Remote.Normalise | src/background_scripts/index.ts:64-77 | `data` is null unless truthy, and is then the backend's `data`; `errMessage` is false iff the response decoded with an absent or empty message, and is otherwise the message; a thrown fetch gives `{null, network error}` |
| Remote.NormaliseIsStable | src/background_scripts/index.ts:67-71 | an envelope that already went through normalisation comes back unchanged: the result is in canonical form, so handlers that forward it as is lose nothing (nothing re-normalises) |
| Remote.ThrownLooksLikeBackendError | src/background_scripts/index.ts:72-77 | callers cannot tell a transport failure from a backend error carrying the network-error text |
| Remote.Prepared | src/background_scripts/index.ts:55-62 | JSON headers are installed only when the caller gave none; caller headers pass through unmerged; method and body are untouched |
| Remote.PreparedIdempotent | src/background_scripts/index.ts:60-62 | installing defaults twice changes nothing more: once installed, the defaults count as the caller's headers and are never merged (nothing prepares twice) |
| CacheSpec.Read | src/background_scripts/index.ts:118-132 | a valid cache is served unchanged; otherwise the cache is valid afterwards iff the fetch succeeded, holding `data` or `{}`; a cache left invalid is empty |
| CacheSpec.Invalidated | src/background_scripts/index.ts:112 | invalidation clears the flag and keeps the map |
| CacheSpec.SecondReadIsServedFromCache | src/background_scripts/index.ts:118-121 | after a read leaves the cache valid, a second read returns the same map without using the network |
| CacheSpec.InvalidationForcesRefetch | src/background_scripts/index.ts:122-131 | after invalidation, the next read's outcome depends only on the fetch, never on the old map or flag |
| CacheSpec.ValidMeansLastFetch | src/background_scripts/index.ts:118-131 | after any run of reads and invalidations, a valid cache holds the data of the run's last fetch, which succeeded; if nothing was fetched, the map is the one it started with |
| CacheSpec.ValidFromStartHoldsFetchedData | src/background_scripts/index.ts:39-40 | from the start-up state, a valid cache always holds the data of a successful fetch |
| CacheSpec.ReadsFetchUntilSuccess | src/background_scripts/index.ts:118-131 | without invalidations, reads stop fetching after the first successful fetch; a valid cache fetches nothing |
| CacheSpec.FailedFetchLeavesCacheEmpty | src/background_scripts/index.ts:127-130 | a failed fetch leaves the cache invalid and empty |
| Article.CanonicalUrl | src/background_scripts/index.ts:173-181 | the metadata URL when truthy, else `clearAnchor` of the tab URL; unresolved exactly when both are absent or empty; a resolved URL is never empty |
| Article.StateFor | src/background_scripts/index.ts:184-188 | `inCollection` iff the URL maps to a nonzero id, `id` present iff `inCollection`, and then equal to that entry |
| Article.Resolve | src/background_scripts/index.ts:169-192 | a thrown page query or an unresolved URL gives `{inCollection:false}` and leaves the cache alone; otherwise the cache is read once and the state looked up in what the read left |
| Article.InCollectionExactly | src/background_scripts/index.ts:175-188 | the page is in the collection exactly when it resolves to a URL whose entry after the read is nonzero |
| Article.FailedFetchMeansNotInCollection | src/background_scripts/index.ts:139-148 | a failed fetch on an invalid cache always gives `{inCollection:false}` |
| Article.ExampleLookup | src/background_scripts/index.ts:183-188 | with `{"http://a": 5}`, `http://a` gives `{true, 5}` and `http://b` gives `{false}` |
| Article.PopupIgnoresStaleEntries | src/background_scripts/index.ts:161-166 | after the popup's invalidation, the reported state never depends on the previously cached map |
| Article.PopupBadgeAgreesWithReply | src/background_scripts/index.ts:161-166 | when the badge's resolution fetched successfully and the page is the same, the popup's reply equals the state the badge shows |
| Article.BadgeFor | src/background_scripts/index.ts:259-267 | text `" ✓"` with colour cyan exactly when `inCollection`; otherwise text `""` and no colour set |
| Article.CollectionBodyFor | src/background_scripts/index.ts:198-213 | `addCollection` posts the canonical URL and the metadata title when truthy, else the tab title; nothing when the page cannot be queried |
| Dispatch.NameOf | src/background_scripts/index.ts:13-32 | every recognised request travels under one of the nine action names |
| Dispatch.Route | src/background_scripts/index.ts:12-33 | a message routes to `Unknown` exactly when its action is not one of the nine names, and otherwise to the request of that name, carrying the message's `word`, `id` or `scene` as its payload |
| Dispatch.RouteEncode | src/background_scripts/index.ts:12-33 | routing recovers every request, payload included, from the message a sender writes for it |
| Dispatch.RequestFor | src/background_scripts/index.ts:80-238 | exactly the five forwarding handlers (and `addCollection` on a reachable page) call `fetchData`, none of them with headers; `addCollection` posts `CollectionBodyFor` |
| Dispatch.SentRequestsCarryJsonHeaders | src/background_scripts/index.ts:55-62 | every request sent through `fetchData` carries the JSON headers |
| Background.Coordinator.constructor | src/background_scripts/index.ts:39-46 | both caches start invalid and empty |
| Background.Coordinator.GetMeets | src/background_scripts/index.ts:118-132 | the network is asked iff the cache was invalid; the new meets cache is `Read` of the old one; the returned map is the stored one |
| Background.Coordinator.GetCollections | src/background_scripts/index.ts:134-149 | the same for the collections cache |
| Background.Coordinator.QueryWord | src/background_scripts/index.ts:110-116 | only the meets flag changes, to false, whatever the outcome; the reply is the normalised response |
| Background.Coordinator.GetArticleState | src/background_scripts/index.ts:169-192 | the state and the new collections cache are exactly `Resolve` of the old cache |
| Background.Coordinator.UpdateBadge | src/background_scripts/index.ts:259-267 | emits `BadgeFor` of the resolved state |
| Background.Coordinator.GetArticleStatePopup | src/background_scripts/index.ts:161-167 | invalidate the collections cache, resolve for the badge, then resolve again for the reply, against the cache the first left |
| Background.Coordinator.AddCollection | src/background_scripts/index.ts:198-226 | an unqueryable page gives `{null, unsupported input}` and sends nothing; otherwise it posts `CollectionBodyFor` with JSON headers and replies with the normalised response |
| Background.Coordinator.OnMessage | src/background_scripts/index.ts:12-33 | each action runs its handler; `updateBadge` and unknown actions reply `undefined`; unknown actions change nothing; only a query or `getMeets` touches the meets cache; only the two badge-refreshing actions touch the collections cache |
| Background.Coordinator.OnTabActivated | src/background_scripts/index.ts:269-274 | a tab switch refreshes the badge as `updateBadge` does |

## Left out

- Concurrency. Handlers are atomic steps, so the model does not capture two interleaved `getMeets`/`getCollections` calls that both fetch. It also does not capture that `queryWord` clears the flag before, not after, its fetch; that order only matters under interleaving.
- Foreign calls are inputs: `fetch`, `res.json()`/`JSON.parse`, `JSON.stringify`, `encodeURI`, `browser.tabs.query`, `browser.tabs.sendMessage`, and the badge setters. The badge is emitted as a `BadgeUpdate`, not kept as the browser's badge state. So the model does not capture that an empty badge keeps its previous background colour.
- `src/config` (the endpoint base URLs) is not part of this model. Endpoints appear as an `Endpoint` tag with the id or word appended, and URL concatenation is not modelled.
- Background.Coordinator.GetMeets: a `data` field that is truthy but not an object (a number, a string) would be stored as is by the source. `Fetched` carries only an object or nothing, and the same holds for GetCollections.
- Article.StateFor: the lookup `collections[url]` on a JavaScript object also finds inherited names such as `constructor`; the model looks in the map only.
- Numbers are integers: floating-point ids and `NaN` (falsy) are not modelled, and JSON numbers in `data` are integers.
- Remote.Normalise: the backend `message` is taken to be a string. A non-string truthy message would be passed through by the source.
- A message lacking its payload fields is not modelled: a `Message` always carries `word`, `id` and `scene`. The source behaves differently per action when they are missing:
  - `query`, `forgetScene` and `toggleKnown` concatenate `undefined` into the URL;
  - `addScene` reads `scene.id` and throws a TypeError that nothing catches, so the listener rejects and no request goes out (index.ts:81-85);
  - `deleteCollection` posts `{}`, because `JSON.stringify` drops an undefined `id` (index.ts:229-236).
- `fetchData` writes the default headers into the caller's `init` object. The model returns a new `init`; since every caller passes a fresh literal, no aliasing is lost.
- `console.log` calls, and the wording of the two localised messages, which are opaque constants.
- The content script `src/content_scripts/Word.tsx` is not modelled. The `"plusOne"` action it sends routes to `Unknown` and gets `undefined`.
