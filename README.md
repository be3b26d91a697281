# Mastodon transport: link and action routing

This project models the routing core of a transport plugin that carries
messages over Mastodon. A *link* is a logical channel identified by a
hashtag. The plugin stages encoded content per action, commits it as a
status posting tagged with the link's hashtag, and fetches by searching for
that hashtag. Every text item found is delivered before every image item.

The model has these parts:

- **Staging** (`staging.dfy`). A link's staging table maps action ids to an
  entry holding text bytes, image bytes and a flag for each.
- **Links** (`link.dfy`). The `Link` class holds its fixed id and address
  and a mutable staging table. Its methods are enqueue, dequeue, post,
  fetch, and the per-handle package-status report.
- **Registry** (`link_map.dfy`). The `LinkMap` class holds the map from link
  id to link, with add, get, remove, size, clear and snapshot.
- **Actions** (`actions.dfy`). The pure part of the router:
  - parsed action payloads, and the encoding parameters an action asks for;
  - wildcard (`"*"`) resolution;
  - the status policy of a fetch from every link;
  - the link-creation guard;
  - the generated hashtags `"pqrstuv" + n`.
  The digits come from `decimal.dfy`.
- **Plugin** (`plugin.dfy`). The `PluginMastodon` class owns:
  - the registry;
  - the action-to-link bindings and the per-action content types;
  - the hashtag counter;
  - the two-input set-up state that builds the remote client.
  Its methods are the routing entry points and the link lifecycle.
- **Hash queue** (`message_hash_queue.dfy`). The `MessageHashQueue` class
  is a bounded record of recent message hashes, with evict-oldest,
  remove-one and remove-through-match.

The abstractions:

- **The remote service** is a parameter. A `Remote` value gives the
  service's verdict on each posting call and the search results for each
  hashtag.
- **SDK callbacks** are returned, not logged. Each method returns the
  sequence of callbacks it makes, in order: package status, receive, link
  status and state updates. `GetActionParams` is a function and instead
  returns a `stateFailed` flag that stands for its call setting the
  component state to FAILED (source/transport/PluginMastodon.cpp:432 and 488).
- **JSON payloads** arrive already parsed. A payload that does not parse is
  the variant `Malformed` for actions and `BadAddress` for link addresses.

Three behaviours of the code worth noting, modelled as written:

- a rejected post reports every handle as failed and keeps the staged entry
  (source/transport/Link.cpp:111-114);
- posting an action with nothing staged reports every handle as failed but
  returns OK (source/transport/Link.cpp:77-80);
- enqueueing any non-empty content records the action's link binding and
  content type, for concrete link ids and fetch actions too
  (source/transport/PluginMastodon.cpp:529-532).

## Model

| member | source | states |
|---|---|---|
| Staging.EntryOf | source/transport/Link.cpp:54 | The entry that indexing the table default-constructs: the staged entry when present, otherwise one with nothing flagged (the same default is built at line 58). |
| Staging.Enqueue | source/transport/Link.cpp:52-66 | OK exactly for text/plain and image/jpeg. Text sets the text bytes and flag and keeps the entry's image part; an image does the reverse; other actions' entries are kept. Any other type is an error with the table unchanged. |
| Staging.Dequeue | source/transport/Link.cpp:68-71 | The action's key is gone; every other key and its entry stay. |
| Staging.EnqueueKeepsEntriesNonEmpty | source/transport/Link.cpp:53-60 | Staging only creates entries that flag text or an image, so post's no-content branch is unreachable through staging. |
| Staging.EnqueueTwiceKeepsSecond | source/transport/Link.cpp:53-60 | Staging the same kind twice for an action equals staging only the second. |
| Staging.TextThenImageHoldsBoth | source/transport/Link.h:32-37 | Text then an image for one action gives one entry carrying both. |
| Staging.DequeueIdempotent | source/transport/Link.cpp:68-71 | Dequeueing twice is dequeueing once. |
| Links.StatusEvents | source/transport/Link.cpp:157-161 | One PackageStatusChanged callback per handle, in handle order, all with the same status; proved to have one element per handle, the i-th for the i-th handle. |
| Links.CallFor | source/transport/Link.cpp:87-105 | The posting call for a staged entry, tagged with the given hashtag: image-with-text when both parts are flagged, else image, else text; none for an entry with nothing flagged. |
| Links.PostOutcome | source/transport/Link.cpp:76-114 | The status, the call, the callbacks and the new table of committing an action. No entry: OK, no call, FAILED per handle. Nothing flagged: ERROR, FAILED per handle. Accepted call: OK, SENT per handle, entry erased. Rejected call: ERROR, FAILED per handle, entry kept. |
| Links.OfType | source/transport/Link.cpp:131-137 | The items of a search result with one MIME type, in retrieval order (the two push_back filters). |
| Links.Deliveries | source/transport/Link.cpp:143-152 | One receive callback per item, in order, tagged with the link id and the item's MIME type. |
| Links.FetchEvents | source/transport/Link.cpp:127-152 | The callbacks of one fetch: the deliveries of the text items followed by those of the image items. |
| Links.OfTypeMembers | source/transport/Link.cpp:131-137 | An item is kept by the type filter exactly when it is in the input with that type. |
| Links.OfTypeConcat | source/transport/Link.cpp:131-137 | Filtering distributes over concatenation. |
| Links.OfTypeAllOfType | source/transport/Link.cpp:131-137 | A sequence whose items all have the filtered type is its own filter: the filter keeps every item, in order. |
| Links.OfTypePartition | source/transport/Link.cpp:127-138 | For a result holding only text and images, the text items plus the image items are a permutation of it. |
| Links.DeliveriesAt | source/transport/Link.cpp:143-152 | The i-th receive callback carries the i-th item's bytes and MIME type, tagged with the link id. |
| Links.OfTypeTyped | source/transport/Link.cpp:131-137 | The i-th kept item has the filtered type. |
| Links.FetchTextBeforeImage | source/transport/Link.cpp:127-154 | A fetch delivers exactly the text items, then exactly the image items, each in retrieval order; other types are dropped. |
| Links.FetchInterleavedExample | source/transport/Link.cpp:127-154 | Results [image, text, image, text] are delivered as [text, text, image, image]. |
| Links.MixedCommitIsOneCombinedPost | source/transport/Link.cpp:87-114 | Staging text and then an image and committing makes the combined image-with-text call. On success the entry is gone and every handle is SENT. |
| Links.Link.constructor | source/transport/Link.cpp:21-33 | The id and address are set; they are constants, so no method changes them. The staging table starts empty. |
| Links.Link.EnqueueContent | source/transport/Link.cpp:52-66 | The status and new table are those of `Enqueue` on the old table. The non-empty-entry invariant is preserved. |
| Links.Link.DequeueContent | source/transport/Link.cpp:68-71 | Always OK; the new table is `Dequeue` of the old. |
| Links.Link.UpdatePackageStatus | source/transport/Link.cpp:157-161 | One package-status callback per handle, in handle order, all with the given status. |
| Links.Link.Post | source/transport/Link.cpp:73-115 | No entry: no call, FAILED per handle, OK. Otherwise one call, tagged `"#" + hashtag`: image-with-text when both parts are present, else image, else text. Accepted: SENT per handle, entry erased, OK. Rejected: FAILED per handle, entry kept, ERROR. Under the invariant a call is always made. |
| Links.Link.Hashtag | source/transport/Link.cpp:84 | The tag a post carries and a fetch searches for (the same expression at line 120): `#` followed by the address's hashtag. |
| Links.Link.Fetch | source/transport/Link.cpp:117-155 | Always OK. The callbacks are the deliveries of the text items and then the image items of the hashtag's search results. |
| Registry.LinkMap.constructor | source/transport/PluginMastodon.cpp:79-82 | The registry starts empty (the plugin's `links` member is default-constructed, since the initializer list does not name it). |
| Registry.LinkMap.Size | source/transport/LinkMap.cpp:28-31 | The number of registered ids. |
| Registry.LinkMap.Clear | source/transport/LinkMap.cpp:39-42 | The registry is empty. |
| Registry.LinkMap.Add | source/transport/LinkMap.cpp:54-57 | The link is filed under its id, replacing any earlier link there; the one-id-per-link invariant is kept. |
| Registry.LinkMap.Get | source/transport/LinkMap.cpp:71-74 | Returns the link filed under the id, which must be present. |
| Registry.LinkMap.GetMap | source/transport/LinkMap.cpp:87-90 | Returns a copy equal to the registry and changes nothing. |
| Registry.LinkMap.Remove | source/transport/LinkMap.cpp:104-113 | Present id: returns that link and deletes only its key. Absent id: returns null and leaves the registry unchanged. |
| Decimal.NatToString | source/transport/PluginMastodon.cpp:279 | The counter's decimal rendering is a non-empty string of digits with no leading zero: it starts with '0' exactly for zero, which renders as "0". |
| Decimal.NatToStringRoundTrip | source/transport/PluginMastodon.cpp:279 | Reading the rendering back gives the counter. |
| Decimal.NatToStringInjective | source/transport/PluginMastodon.cpp:279 | Distinct counters render distinctly. |
| Actions.IsImageHint | source/transport/PluginMastodon.cpp:443 | The hints "image", "jpg" and "jpeg" ask for an image; "text" is not among them. |
| Actions.IsMixedHint | source/transport/PluginMastodon.cpp:449 | The hints "mixed" and "text+image" ask for text and an image together; neither is an image hint or "text", so the branch order at lines 443-449 decides nothing. |
| Actions.HintedType | source/transport/PluginMastodon.cpp:438-447 | The type of a single-part post: always text/plain or image/jpeg; image/jpeg for an image hint, text/plain by default, for no hint and for the "text" hint. |
| Actions.GetActionParams | source/transport/PluginMastodon.cpp:425-490 | Empty payload: nothing, and state FAILED. Parse error: nothing, state kept. Fetch: nothing. Mixed post: text then image parameters. Image-hinted post: one image parameter. Other posts: one text parameter. Unknown type: nothing, and state FAILED. |
| Actions.ParamsAreStageable | source/transport/PluginMastodon.cpp:440-476 | Every parameter asked for has a type a link stages successfully. |
| Actions.MixedPostOrderMatchesFetch | source/transport/PluginMastodon.cpp:449-463 | Whichever order the service returns a mixed post's two parts in, the i-th delivery has the i-th parameter's type. |
| Actions.ResolveLink | source/transport/PluginMastodon.cpp:582-583 | A concrete target resolves to itself; `"*"` resolves to the recorded binding, or to nothing when there is none. |
| Actions.FanOutStep | source/transport/PluginMastodon.cpp:657-663 | One link's status folded into the running status: FATAL wins, any other non-OK status replaces the running one, OK keeps it. |
| Actions.FanOut | source/transport/PluginMastodon.cpp:650-665 | The status of fetching from links with the given statuses in turn: OK to start, each status folded in until FATAL, which then stays. |
| Actions.FanOutFatal | source/transport/PluginMastodon.cpp:650-665 | The all-links fetch is FATAL exactly when some link's fetch is FATAL. |
| Actions.FanOutAbsorbs | source/transport/PluginMastodon.cpp:655-659 | Once FATAL, later links cannot change the outcome, so stopping at the first FATAL is sound. |
| Actions.FanOutAllOk | source/transport/PluginMastodon.cpp:650-665 | All links OK gives OK. |
| Actions.FanOutLastFailure | source/transport/PluginMastodon.cpp:660-663 | Without FATAL, the outcome is the last non-OK status. |
| Actions.CanCreateLink | source/transport/PluginMastodon.cpp:181-198 | Creation is allowed when a positive link limit is not reached and the role side is neither undefined nor the side that may not make this call. |
| Actions.GeneratedHashtag | source/transport/PluginMastodon.cpp:279 | The hashtag createLink generates from counter value n: the prefix `pqrstuv` followed by the decimal digits of n. |
| Actions.GeneratedHashtagsDistinct | source/transport/PluginMastodon.cpp:279 | Distinct counter values give distinct `"pqrstuv" + n` hashtags. |
| Plugin.FetchAll | source/transport/PluginMastodon.cpp:653-664 | The callbacks of fetching, in the given order, from each link of a registry snapshot: each link's fetch callbacks concatenated. |
| Plugin.PluginMastodon.constructor | source/transport/PluginMastodon.cpp:79-96 | Empty registry, no bindings, neither input received, no client. |
| Plugin.PluginMastodon.OnUserInputReceived | source/transport/PluginMastodon.cpp:98-126 | Unanswered or unknown handle: ERROR, nothing changes. Otherwise the matching input and flag are set, OK. The client is built from both inputs, and STARTED reported, the first time both flags hold, and never again. |
| Plugin.PluginMastodon.PreLinkCreate | source/transport/PluginMastodon.cpp:178-199 | Accepts exactly when the guard holds; a refusal reports LINK_DESTROYED. |
| Plugin.PluginMastodon.PostLinkCreate | source/transport/PluginMastodon.cpp:217-232 | Null link: LINK_DESTROYED, ERROR, registry unchanged. Otherwise the link is added and its status reported, OK. |
| Plugin.PluginMastodon.AddKeepsWithinLimit | source/transport/PluginMastodon.cpp:181-185 | Adding one link to a registry under a positive limit stays within it. |
| Plugin.PluginMastodon.CreateLink | source/transport/PluginMastodon.cpp:271-289 | Refused: ERROR, nothing changes. Otherwise a fresh, empty link with hashtag `"pqrstuv" + counter` is added, the counter advances, LINK_CREATED is reported, and the tag differs from every tag generated earlier. The link limit is kept. |
| Plugin.PluginMastodon.LoadLinkAddress | source/transport/PluginMastodon.cpp:303-320 | Always OK. Refused (creator side): LINK_DESTROYED, registry unchanged. Otherwise a link with the given address is added and LINK_LOADED reported. |
| Plugin.PluginMastodon.LoadLinkAddresses | source/transport/PluginMastodon.cpp:333-340 | Not supported: LINK_DESTROYED and ERROR. |
| Plugin.PluginMastodon.CreateLinkFromAddress | source/transport/PluginMastodon.cpp:358-370 | Always OK. Refused (loader side): LINK_DESTROYED, registry unchanged. Otherwise a link with the given address is added and LINK_CREATED reported. |
| Plugin.PluginMastodon.DestroyLink | source/transport/PluginMastodon.cpp:384-397 | Known id: removed, OK. Unknown id: ERROR, registry unchanged. |
| Plugin.PluginMastodon.EnqueueContent | source/transport/PluginMastodon.cpp:510-553 | Empty content: OK, nothing changes. Empty or malformed payload: ERROR, nothing changes. Otherwise the binding and content type are recorded. Fetch: OK. Unknown type: ERROR, no staging. Post: that link's staging result, other links untouched. |
| Plugin.PluginMastodon.DequeueContent | source/transport/PluginMastodon.cpp:570-602 | Bad payload, or `"*"` without a binding: ERROR, nothing changes. Otherwise both tracking entries go. A post dequeues on the resolved link (unknown link: ERROR); other types are OK. |
| Plugin.PluginMastodon.FetchFromAllLinks | source/transport/PluginMastodon.cpp:650-665 | Visits every link of the snapshot once. The status follows the fan-out policy (OK, since each fetch is OK). The callbacks are each link's deliveries in visiting order. |
| Plugin.PluginMastodon.DoFetch | source/transport/PluginMastodon.cpp:641-669 | Erases both tracking entries. `"*"` fetches from every link; a known link delivers its fetch; an unknown link is ERROR. |
| Plugin.PluginMastodon.DoPost | source/transport/PluginMastodon.cpp:671-689 | `"*"` without a binding: OK, no call, only the content-type entry erased. Otherwise both entries are erased and the resolved link's post outcome is returned (unknown link: ERROR). |
| Plugin.PluginMastodon.PostOnLink | source/transport/PluginMastodon.cpp:684-689 | Both tracking entries are erased. A known link returns its post outcome, with a call made whenever something is staged, and other links untouched. An unknown link is ERROR with nothing posted. |
| Plugin.PluginMastodon.DoAction | source/transport/PluginMastodon.cpp:625-701 | Dispatches to the fetch or post case above. An empty or malformed payload, or an unknown action type, is ERROR and changes nothing. |
| HashQueue.Added | source/transport/MessageHashQueue.cpp:43-50 | The queue after one addition: the front is dropped only when the queue holds more than `max`, then the hash is appended. |
| HashQueue.RemoveFirst | source/transport/MessageHashQueue.cpp:60-65 | The queue with the first occurrence of the hash erased, keeping the order of the rest; unchanged when the hash is absent. |
| HashQueue.MessageHashQueue.constructor | source/transport/MessageHashQueue.cpp:33-35 | The queue starts empty, with the fixed hash function these lines define and the bound `max` that addMessage reads at line 45; MessageHashQueue.h, where they are declared, is not part of this model. |
| HashQueue.Find | source/transport/MessageHashQueue.cpp:62 | The first index holding the hash, or the length when absent; below the length exactly when the hash is present. |
| HashQueue.FindCharacterized | source/transport/MessageHashQueue.cpp:78 | Any index with the search's three properties is the search result. |
| HashQueue.RemoveFirstCount | source/transport/MessageHashQueue.cpp:60-65 | Removing the first occurrence takes out exactly one copy when present and leaves the queue unchanged when absent. |
| HashQueue.AddedKeepsNewest | source/transport/MessageHashQueue.cpp:43-50 | After an addition the queue holds at most `max + 1` hashes, ends with the new one, and keeps the newest earlier ones in order. |
| HashQueue.AddedThenFound | source/transport/MessageHashQueue.cpp:43-83 | A just-added hash that was not already queued is found at the back, and finding it empties the queue. (When an older copy is queued, the search stops at that copy instead.) |
| HashQueue.MessageHashQueue.IndexOf | source/transport/MessageHashQueue.cpp:62 | The linear search returns `Find` of the queue. |
| HashQueue.MessageHashQueue.AddMessage | source/transport/MessageHashQueue.cpp:43-50 | Returns the message's hash. The front is dropped only when the queue holds more than `max`, then the hash is appended; the `max + 1` bound is kept. |
| HashQueue.MessageHashQueue.RemoveHash | source/transport/MessageHashQueue.cpp:60-65 | Deletes only the first occurrence of the hash, keeping the order of the rest; nothing changes when it is absent. |
| HashQueue.MessageHashQueue.FindAndRemoveMessage | source/transport/MessageHashQueue.cpp:76-83 | True exactly when the message's hash is present. When found, the queue becomes everything after the first match; otherwise it is unchanged. |

## Left out

- HTTP, TLS, multipart upload and HTML stripping in `MastodonClient` are not modelled. Posting and searching are the `Remote` parameter's verdicts and results. MastodonClient.cpp is not part of this model.
- JSON parsing of actions and link addresses is not modelled. Payloads arrive parsed; a payload that does not parse is a dedicated variant.
- Plugin.PluginMastodon.LoadLinkAddress and Plugin.PluginMastodon.CreateLinkFromAddress require a parsable address when the guard accepts. The source parses outside any handler, so a bad address there escapes the call.
- Plugin.PluginMastodon.EnqueueContent requires the link to exist for a non-empty post. The source's lookup throws an exception its handler does not catch.
- The mutex in the registry is not modelled, nor any concurrent use; the model is sequential.
- The clock reading stored as an address timestamp is a `now` parameter. `maxTries` for a generated address is a constructor parameter, because LinkAddress.h is not part of this model.
- The initial counter value, the channel properties and the two input handles are constructor parameters. PluginMastodon.h is not part of this model.
- `std::hash` is a function-valued field. Hashes and counters are unbounded: `size_t` and counter wrap-around are not modelled.
- Logging, tracing, the plugin factory, `createDefaultLinkProperties`, the transport and link property getters, and Link `start`/`shutdown` (empty bodies) are not modelled.
- A link created before the client exists holds a null client pointer in the source. The model does not tie links to the client at all.
- Plugin.PluginMastodon.FetchFromAllLinks: every link's fetch returns OK, so its FATAL early exit and error propagation cannot be reached. The policy is stated and proved on `Actions.FanOut`, which the loop follows step by step.
- The order in which the unordered registry is visited is not modelled. The model takes any order that visits every link once, and states the result for that order.
- The user-input requests the constructor makes to the SDK are not modelled.
- `Remote.search` is one fixed function of the hashtag. Within one wildcard fetch, two links that share a hashtag therefore get the same results. The source runs a separate search per link (source/transport/Link.cpp:121, called once per link at source/transport/PluginMastodon.cpp:655-657), and those searches may return different statuses.
