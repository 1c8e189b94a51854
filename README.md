# discord-lattice in Dafny

discord-lattice is a browser extension that reads a Discord user's friends
and, for every friend, that friend's own relationships (the mutual friends),
and draws the result as a graph. This project models the two pieces of
sequential logic in it and proves what they promise.

1. **The friend scan**, in its three copies: the service worker's
   `scanFriends` (background.js), the content script's `scanFriends`
   (content.js), and the page script's `DISCORD_LATTICE_SCAN` handler
   (inject.js). Each copy keeps the type-1 relationships in order, builds
   a record `{username, avatarUrl, id, connections}` per friend in an object
   keyed by id, asks for each friend's relationships, publishes progress
   `(i + 1, n)` after each friend, and waits one second between friends. The
   copies differ in the key field, in when the map reaches storage, and in
   how failures are handled.
2. **The graph page** (graph.js): the display helpers (name and profile
   fallbacks, connection count, server-nickname line), the nodes and the
   deduplicated edge set that `loadGraph` builds, and the node and edge
   updates of `highlightConnections` and `resetHighlight`.

The files:

- `js_values.dfy` holds the JavaScript behaviour the code relies on:
  - truthiness of null-or-string values;
  - `String(n)`;
  - `join`, and `split` on one character;
  - the default order of `sort`;
  - the first-occurrence order of `new Set(xs)`.
- `ordered_map.dfy` models a plain object used as a dictionary. Its keys
  come in insertion order, and assigning to an existing key keeps its
  place. JavaScript orders keys that way only when none of them is an
  array index; the ids here are assumed not to be.
- `scan.dfy` holds what the three scans share:
  - the Discord answers, which are inputs;
  - the per-friend record and the map after i friends (`DataAfter`);
  - an `EffectLog` class that records every request, storage write, posted
    message and wait;
  - one specification of the loop's effects, `LoopEvents`, written once for
    all three variants, with lemmas about it.
- `background.dfy`, `content.dfy` and `inject.dfy` hold the three scans as
  imperative methods over the `EffectLog`. Each method is proved to issue
  exactly the trace its `Trace` function describes and to return what its
  `ReplyOf`/`OutcomeOf`/`ResultOf` function describes. The `...Properties`
  module in each file proves what those traces and results mean.
- `graph_format.dfy` holds the display helpers.
- `graph.dfy` holds the `loadGraph` loops, the update loops, and a
  `GraphPage` class for the module-level state: `connectionsData`,
  `network` and the loading text.
- `graph_properties.dfy` proves what the drawn graph and a selection
  promise.

The Discord answers are inputs. A `ScanInput` holds:

- the root answer: ok with a relationship list, a non-2xx status, or a
  rejected request;
- one answer per type-1 friend for that friend's relationships: ok with
  ids, non-2xx, or rejected;
- the default-avatar index formula.

The token is an `Option<string>` parameter.

## Model

| member | source | states |
|---|---|---|
| JsValues.NatToString | graph.js:79 | `${count}`: at least one decimal digit, a single digit exactly for numbers below 10, and a leading '0' only for 0 |
| JsValues.NatToStringValue | graph.js:79 | reading the printed digits back from left to right gives the number |
| JsValues.NatToStringInjective | graph.js:79 | different counts print differently |
| JsValues.SplitOnJoined | graph.js:157 | splitting `a + "-" + b` at '-' gives back exactly `[a, b]` when neither contains '-' |
| JsValues.StrLeTotal | graph.js:144 | the default `sort` order compares any two ids |
| JsValues.StrLeAntisymmetric | graph.js:144 | two ids that sort both ways are equal |
| JsValues.SortedPairSymmetric | graph.js:144 | sorting `[a, b]` and `[b, a]` gives the same pair, so a–b has one edge key whichever side lists the other |
| JsValues.Distinct | graph.js:86-90 | `[...new Set(xs)]`: every element of xs once, nothing else |
| JsValues.DistinctKeepsFirstOccurrenceOrder | graph.js:86-90 | the Set's elements come in the order of their first occurrence |
| OrderedMap.Get | background.js:163 | `d[k]` is defined exactly for the keys of the object |
| OrderedMap.GetAt | background.js:151-156 | in an object, each key looks up its own entry |
| OrderedMap.PutSpec | background.js:151-156 | `d[k] = v`: a new key goes last and an existing key keeps its place; k now maps to v and other keys are unchanged |
| OrderedMap.PutTwice | background.js:151-163 | assigning to a key twice leaves the second value |
| OrderedMap.PutAllKeys | background.js:145-156 | after a series of assignments the keys are the assigned keys, each once, in order of first assignment |
| OrderedMap.PutAllValues | background.js:145-163 | each key holds the value assigned to it last |
| Scan.Friends | background.js:140 | the filter keeps no more relationships than it is given |
| Scan.FriendsMembers | background.js:140 | the friends are exactly the relationships of type 1 |
| Scan.FriendsKeepOrder | background.js:140 | filtering keeps source order: the filter of a concatenation is the concatenation of the filters |
| Scan.ScanStep | background.js:151-163 | storing the blank record and then overwriting it with the mutual ids gives the map after i + 1 friends; so does the blank record alone when the mutual request failed |
| Scan.DataAfterKeys | background.js:143-163 | after i friends the map has the first i friends' keys, each once, in first-met order |
| Scan.DataAfterValues | background.js:151-163 | under a friend's key lies that friend's record, unless a later friend had the same key |
| Scan.FirstThrow | content.js:113 | the index of the first rejected mutual request: every earlier request did not reject |
| Scan.EffectLog.Fetch | background.js:121-124 | a request is appended to the log |
| Scan.EffectLog.Store | background.js:170-172 | a `chrome.storage.local.set` call is appended to the log |
| Scan.EffectLog.PostMessage | inject.js:78-82 | a `window.postMessage` call is appended to the log |
| Scan.EffectLog.Sleep | background.js:175-177 | the one-second wait is appended to the log |
| Scan.LoopWaits | background.js:174-177 | k iterations out of n wait k times, or n - 1 times when all n ran: never after the last friend |
| Scan.LoopStoredProgress | background.js:169-172 | background.js and content.js store `scanProgress` (1, n), (2, n), ..., (k, n), with the total fixed at n; inject.js stores none |
| Scan.LoopPostedProgress | inject.js:77-82 | inject.js posts PROGRESS (1, n), (2, n), ..., (k, n); the other two post none |
| Scan.LoopChannels | inject.js:57-88 | inside the loop inject.js writes nothing to storage, and background.js and content.js post no message |
| Scan.LoopClears | background.js:169-172 | no iteration sets the progress to null |
| Scan.LoopFetches | background.js:158-162 | the mutual requests go out one per friend, for that friend's key, in friend order |
| Scan.LoopStoresNoMap | background.js:169-172 | in background.js and inject.js no iteration writes the map |
| Scan.LoopStoresEachMap | content.js:119-123 | in content.js iteration j writes the map holding exactly the first j + 1 friends |
| Scan.LoopResults | inject.js:77-82 | no iteration posts a RESULT message |
| Background.ScanFriends | background.js:130-187 | the effects issued are exactly `Trace(token, input)` and the answer is `ReplyOf(token, input)` |
| Background.FriendLoop | background.js:143-178 | the loop builds the map after all friends and issues exactly `LoopEvents` |
| Background.VisitFriend | background.js:146-177 | one iteration: a caught mutual failure leaves the blank record; the map grows by one friend and one step's events are issued |
| Background.HandleMessage | background.js:190-201 | only `scan` is answered; with no Discord tab it answers 'Open Discord first' at once, otherwise it answers the scan's reply after the scan's effects |
| BackgroundProperties.ScanFetches | background.js:131-162 | no token means no request; a failed root request is the only request; otherwise the own relationships are followed by one request per friend, for `friend.user.id`, in order |
| BackgroundProperties.ScanWaits | background.js:174-177 | a scan of n friends waits max(n - 1, 0) times; a scan that stops early never waits |
| BackgroundProperties.ScanProgress | background.js:169-172 | the `scanProgress` values written to storage are (1, n), ..., (n, n), and none is written when the scan stops early |
| BackgroundProperties.NothingPosted | background.js:130-187 | the service worker posts no message; its progress goes only to storage |
| BackgroundProperties.ScanStoresOnce | background.js:180-186 | the map is stored exactly once, in the last write, together with `scanProgress: null`; an early stop writes nothing at all |
| BackgroundProperties.ScanReply | background.js:130-186 | the reply carries data exactly when a token was found and the root request succeeded; the map then has one record per distinct `friend.user.id` in first-met order, each the last one built for that id |
| Content.ScanFriends | content.js:82-135 | the effects issued are exactly `Trace(input)` and the call settles as `OutcomeOf(input)` |
| Content.FriendLoop | content.js:99-129 | either the loop reaches the first rejected mutual request, issues the loop's events up to it plus that request, and reports its message; or it finishes with the map after all friends |
| Content.VisitFriend | content.js:100-128 | one iteration: a rejected request ends the scan after the request; otherwise the map grows by one friend and is stored together with the progress |
| Content.HandleMessage | content.js:48-79 | `getToken` is answered with the token the page gave and issues nothing; `scan` with no token is answered 'Not logged into Discord' and issues nothing, otherwise with the scan's data or error after the scan's effects; any other action gets no answer |
| ContentProperties.ScanFetches | content.js:87-113 | the own relationships come first, then one request per friend for `friend.id`, in order, up to and including the one that rejected |
| ContentProperties.ScanWaits | content.js:125-128 | waits number n - 1 for a full scan of n friends, and k when the request after the k-th friend rejected |
| ContentProperties.ScanStoresEachMap | content.js:119-123 | the maps stored are the map after 1, 2, ..., k friends, with `scanProgress` (1, n), ..., (k, n) written to storage; nothing is stored when no friend finished |
| ContentProperties.NothingPosted | content.js:82-135 | the content script posts no message; its progress goes only to storage |
| ContentProperties.ScanClearsProgress | content.js:131-132 | the progress is cleared at most once, exactly when the scan returns, and by the last write |
| ContentProperties.ScanOutcome | content.js:82-135 | the scan returns exactly when the root request succeeded and no mutual request rejected; the map then has one record per distinct `friend.id` in first-met order, each the last one built |
| Inject.HandleMessage | inject.js:26-96 | a `DISCORD_LATTICE_SCAN` message issues exactly `Trace(token, input)`; any other message issues nothing |
| Inject.FriendLoop | inject.js:57-88 | like the content script's loop, with PROGRESS messages instead of storage writes |
| Inject.VisitFriend | inject.js:58-87 | one iteration: a rejected request ends the loop after it; otherwise the map grows by one friend and a PROGRESS message is posted |
| InjectProperties.OneResultLast | inject.js:30-94 | every scan request gets exactly one RESULT message, `ResultOf(token, input)`, and it is the last thing posted |
| InjectProperties.ResultCarriesData | inject.js:46-90 | the RESULT carries data exactly when there is a token, the root request succeeded and no mutual request rejected; the map then has one record per distinct `friend.id`, each the last one built |
| InjectProperties.ProgressAndWaits | inject.js:77-87 | the PROGRESS messages posted are (1, n), ..., (k, n) over the finished friends; k waits when the scan stopped after k friends, max(n - 1, 0) when all n finished |
| InjectProperties.ScanFetches | inject.js:30-71 | no token means no request; otherwise the own relationships come first, then one request per friend up to and including the one that rejected |
| InjectProperties.NothingStored | inject.js:26-96 | the page script issues no storage write at all: no map, no progress, no clear |
| GraphFormat.FirstTruthy | graph.js:67 | `a \|\| b \|\| ... \|\| fallback`: the first non-empty value, else the fallback |
| GraphFormat.GetDisplayName | graph.js:66-68 | the first non-empty of `displayName`, `globalName`, `global_name`, `username`, else 'Unknown User'; never empty |
| GraphFormat.GetProfileUrl | graph.js:70-72 | the stored link when non-empty, else the profile page URL ending in the id |
| GraphFormat.ConnectionCountPlural | graph.js:78-80 | the text is the count's decimal digits, which read back as the count, followed by " connection" for 1 and " connections" for any other count |
| GraphFormat.ConnectionCountInjective | graph.js:78-80 | different counts give different texts |
| GraphFormat.Nicks | graph.js:87-89 | the nicks kept are exactly the non-empty string nicks of the entries |
| GraphFormat.FormatServerNicknames | graph.js:82-97 | a non-empty line is the label, the listed nicks joined by ", ", and " +k more" exactly when k nicks are not listed |
| GraphFormat.SummarizeNicknames | graph.js:86-95 | at most 3 distinct nicks are listed, as a prefix of the distinct nicks; listed plus hidden is the number of distinct nicks; a nick is hidden only when 3 are listed |
| GraphFormat.NicknamesEmpty | graph.js:83-92 | the line is empty exactly when no entry has a non-empty nick |
| GraphFormat.NicksAppend | graph.js:87-89 | the nicks of two runs of entries are the first run's nicks followed by the second's: the filter keeps the order of the entries |
| GraphFormat.NicksFirstOrder | graph.js:86-89 | of two nicks, the one whose first entry comes earlier also comes earlier among the nicks |
| GraphFormat.NicksOrderBack | graph.js:86-89 | of two nicks, the one that comes earlier among the nicks also has the earlier first entry |
| GraphFormat.NicknamesInOrder | graph.js:86-94 | the listed nicks come in the order of their first entries in `serverNicknames`, which is also the order of their first occurrence among the nicks |
| Graph.InMap | graph.js:129-131 | the connections that are keys of the map, in order and with duplicates: as many as the connections exactly when all are keys |
| Graph.EdgeKey | graph.js:144 | an edge key always contains '-' |
| Graph.NodesUpTo | graph.js:125-138 | the first k nodes, one per key, in key order |
| Graph.BuildNodesAndLinks | graph.js:119-152 | the loop pushes exactly the nodes of all keys, in key order, and leaves `links` as the distinct edge keys in order of first addition |
| Graph.VisitKey | graph.js:126-147 | one iteration adds the key's node and its edge keys |
| Graph.AddLinks | graph.js:141-147 | the `forEach` adds to the Set the edge key of each connection that is a key of the map, in order |
| Graph.BuildEdges | graph.js:154-159 | one edge per edge key, in order, its ends read back by splitting |
| Graph.NodeHighlights | graph.js:251-258 | one update per key, in key order: full opacity for the selected id and the ids it lists, dimmed otherwise |
| Graph.EdgeHighlights | graph.js:263-272 | one update per edge: emphasised when an end is the selected id, faded otherwise |
| Graph.NodeResets | graph.js:279-282 | one full-opacity update per key |
| Graph.EdgeResets | graph.js:285-289 | one plain-style update per edge |
| Graph.ApplyKeepsRestyled | graph.js:260-273 | `nodes.update` and `edges.update` change only node opacities and edge styles |
| Graph.HighlightNetwork | graph.js:247-273 | selecting a key yields the highlighted network, which is still the drawing up to opacities and styles |
| Graph.RestoreNetwork | graph.js:278-290 | deselecting yields the restored network, which is still the drawing up to opacities and styles |
| Graph.GraphPage.constructor | graph.js:60-61 | the page starts with no data and no network, in a valid state |
| Graph.GraphPage.LoadGraph | graph.js:107-161 | no data, or an empty object, only sets 'No data. Scan friends first.'; otherwise the data is kept and the network drawn from it, with its node and edge counts shown; the page stays valid (keys distinct, the network the drawing up to opacities and styles) |
| Graph.GraphPage.HighlightConnections | graph.js:242-274 | an id that is not a key changes nothing; otherwise the node and edge updates are applied to the network; data, drawing and validity are kept |
| Graph.GraphPage.ResetHighlight | graph.js:276-291 | without data or network nothing changes; otherwise every node is set to full opacity and every edge to plain; data, drawing and validity are kept |
| GraphProperties.RenderedNodes | graph.js:121-138 | one node per key, in key order, each built from the record its key looks up; no two nodes share an id |
| GraphProperties.InMapAppend | graph.js:129-131 | the count is taken entry by entry: the entries of a concatenation that are keys are those of each part |
| GraphProperties.InMapSnoc | graph.js:129-131 | one more connection adds one to the count exactly when it is a key |
| GraphProperties.LinksOfSound | graph.js:141-147 | every edge key a friend adds comes from one of its connections that is a key |
| GraphProperties.LinksOfComplete | graph.js:141-147 | every connection that is a key adds its edge key |
| GraphProperties.AllLinksSound | graph.js:125-147 | every edge key comes from some friend and one of its connections that is a key |
| GraphProperties.AllLinksComplete | graph.js:125-147 | every friend and connection that is a key gives an edge key |
| GraphProperties.AllLinksMember | graph.js:125-147 | an edge key is added if and only if some friend lists a key of the map |
| GraphProperties.EdgeKeySplit | graph.js:144-157 | splitting the edge key of two dash-free ids recovers their sorted pair |
| GraphProperties.EdgeEnds | graph.js:141-159 | both ends of every edge are keys, in sorted order, and one of them lists the other |
| GraphProperties.EdgeComplete | graph.js:141-159 | every connection that is a key is drawn as an edge |
| GraphProperties.EdgesDistinct | graph.js:145-159 | no two edges join the same pair |
| GraphProperties.EdgeSplitsBack | graph.js:144-157 | an edge key is its two split parts joined by '-' |
| GraphProperties.EdgeOncePerPair | graph.js:140-159 | two keys one of which lists the other are joined by exactly one edge |
| GraphProperties.RenderedShaped | graph.js:133-158 | the node ids are the keys in order and the edges are numbered by position |
| GraphProperties.LatestUnique | graph.js:260 | an update takes effect when no other update in the same batch has its id |
| GraphProperties.HighlightEffect | graph.js:242-274 | after selecting, a node is at full opacity exactly when it is the selection or listed by it, and an edge is emphasised exactly when an end is the selection; nothing else changes |
| GraphProperties.RestoreEffect | graph.js:276-291 | after deselecting, every node is at full opacity and every edge plain; nothing else changes |
| GraphProperties.RenderedPlain | graph.js:133-158 | the drawn network starts with every node at full opacity and every edge plain |
| GraphProperties.HighlightThenRestore | graph.js:242-291 | deselecting after selecting gives back any network that was all full opacity and plain |
| GraphProperties.ResetUndoesHighlight | graph.js:242-291 | deselecting after selecting gives back the network as first drawn |
| GraphProperties.EmphasisedEdgesJoinFullNodes | graph.js:247-272 | when connections are symmetric, both ends of every emphasised edge stay at full opacity |

## Left out

- Token acquisition (`extractToken`, and the `getToken` functions of content.js and inject.js) reads page storage and webpack internals, or waits up to a second for the page's answer. The token is an `Option<string>` parameter; the content script's listener answers `getToken` with it.
- `fetch`, `res.json()` and `setTimeout` are not modelled as operations. Their answers are inputs (`ScanInput`), and each wait is a logged `Waited` event with no timing.
- The default-avatar index is an opaque function of the user: `(parseInt(id) >> 22) % 6` in background.js and `discriminator % 5` in the other two. These formulas depend on double precision, 32-bit truncation and string coercion. The index is modelled as an integer, so the NaN that `discriminator % 5` gives for a missing discriminator, and the avatar URL ending in `NaN.png` that follows, are not represented.
- Storage writes are assumed to succeed. background.js awaits `chrome.storage.local.set` (background.js:170, 181) inside its `try`, so a rejected write (a full quota, say) would end the scan with `{error}` instead of `{data}`; Background.ScanFriends and BackgroundProperties.ScanReply do not cover that case. content.js does not await its writes, so a rejection there does not change its answer.
- `chrome.storage` and runtime messaging are not modelled as asynchronous. content.js does not await its writes, so the model records only the order in which writes are issued. How scan calls interleave with each other is not modelled either.
- Console logging is not modelled.
- The rendering and UI parts of graph.js are not modelled: vis options, drawing, stabilisation percentages, event wiring, the info card and the DOM.
- The intermediate loading texts of `loadGraph` are not modelled; only the text it leaves ('Rendering graph... n nodes, m edges', or the no-data text) is.
- Opacity 1.0/0.15 and the edge colours and widths are three symbolic styles.
- The `try`/`catch` around `loadGraph` is not modelled. The stored data is assumed to have the shape the scans write: `connections` is an array of strings.
- `normalizeId` is the identity, because all ids are strings here and `String(s)` is `s`.
- The vis data sets are modelled only as updates to existing ids. vis would add an item for an unknown id, but the update lists only ever name existing nodes and edges.
- vis edge ids are generated by vis; here edges are numbered by position.
- popup.js is not part of this model.
- Ids are assumed to be numeric Discord snowflake strings of 17 to 20 digits. So no id is an array-index string ("0" to "4294967294"), `__proto__`, or the name of an inherited property such as `constructor` or `toString`.
  - JavaScript lists array-index keys first, in ascending numeric order, whatever order they were assigned in; the model keeps every key in assignment order. This affects the key orders stated by OrderedMap.PutAllKeys, Scan.DataAfterKeys, BackgroundProperties.ScanReply, ContentProperties.ScanOutcome, InjectProperties.ResultCarriesData and GraphProperties.RenderedNodes.
  - A lookup `d[k]` also finds inherited properties, and `d["__proto__"] = v` sets the prototype instead of adding a key. OrderedMap.Get, OrderedMap.PutSpec, Graph.InMap and GraphProperties.EdgeEnds treat every string as an own key, which matches JavaScript only for such ids.
- Graph.GraphPage.HighlightConnections requires `connectionsData` and `network` to be set, because its only caller, the network's click handler, exists only after both are.
- GraphProperties.EdgeKeySplit, EdgeEnds, EdgeComplete, EdgesDistinct, EdgeSplitsBack, EdgeOncePerPair and EmphasisedEdgesJoinFullNodes require that no id contains '-'. Discord ids are numeric. An id containing '-' would make `split('-')` return the wrong ends.
- GraphProperties.EmphasisedEdgesJoinFullNodes requires symmetric connections. Stored data need not be symmetric: a friend whose mutual request failed lists nobody, yet other friends list it, so edges to it are drawn. Selecting that friend emphasises those edges but dims the friends at their other ends, because it lists none of them.
- content.js leaves the last `scanProgress` in storage when a mutual request rejects; ContentProperties.ScanClearsProgress states that the progress is cleared only when the scan returns.
- Every scan rebuilds the whole map from the root list and assigns again to a key met twice. No stored entry is kept or skipped.
