# Subscriptions page controller

This project models the controller behind the subscriptions page of a browser client. The client lists a
user's video-platform subscriptions through a backend proxy API. The page keeps the displayed
subscriptions, their total, the set of selected ids, a draft and an applied channel-name filter, a sort
order and a page number (25 items per page). It reacts to these events:

- typing in the filter box, applying the filter and clearing it;
- ticking a check box, and selecting or deselecting every visible item;
- the previous and next page buttons;
- the sort toggle;
- the answer to a bulk unsubscribe;
- the arrival of the response to a subscriptions request.

Whenever the query `(appliedFilter, page, itemsPerPage, sortOrder)` changes, the page aborts the request
in flight and issues a new one. The model numbers requests with a generation counter. A response is
applied only when it carries the latest number and succeeded. Cancelling a request therefore just makes
its number stale.

The files:

- `options.dfy` (module `Options`): `Option`, which stands for a JSON field that may be missing or null.
- `text.dfy` (module `Text`): ECMAScript `String.prototype.trim`, applied to the draft filter.
- `payload.dfy` (module `Payload`): the loosely typed response body, the typed `Subscription` record and
  the total mapping between them. Every optional path has its default, and the channel link is derived
  from the channel id. The module also has the fallback chain for the total.
- `selection.dfy` (module `Selection`): the ids of a list, and the list filter that a successful
  unsubscribe applies.
- `page_state.dfy` (module `PageState`): the page state as a value `View`, with one transition per event.
  `Step`/`Run` replay a sequence of events, and the lemmas state what the transitions guarantee.
- `page.dfy` (module `Page`): the class `SubscriptionsPage`. Its fields are the page state, plus a ghost log
  of the query each request was issued with. It has one method per handler, and each handler's
  postcondition is the matching `View` transition (`HandleCheck` is `Check`, `HandleUnsubscribe` is
  `Unsubscribe`, the others share their names). `Refetch` is the re-run of the fetch effect and
  `CurrentRequest` reads the request in flight. The select-all and deselect-all methods keep the
  `forEach` loops of the source.

Behaviour of the source worth knowing:

- A request that fails leaves the previous list in place.
- `handleCheck` does not check that its id belongs to a displayed item. On the page every check
  box belongs to a displayed item, but the model's `Checked` event accepts any id, which
  over-approximates what the page can do.
- After a successful unsubscribe, the total keeps its old value until the next response arrives, because
  the handler does not touch it.

## Model

| member | source | states |
|---|---|---|
| `Text.IsSpace` | src/pages/SubscriptionsPage.tsx:72 | the characters `trim` removes: ECMAScript WhiteSpace (tab, vertical tab, form feed, space, no-break space, byte order mark, the Zs separators) and LineTerminator (line feed, carriage return, U+2028, U+2029) |
| `Text.Trim` | src/pages/SubscriptionsPage.tsx:72 | the trimmed filter is no longer than the draft and has no whitespace at either end |
| `Text.TrimIsCore` | src/pages/SubscriptionsPage.tsx:72 | trimming yields exactly the slice whose surroundings are all whitespace and whose ends are not (JS whitespace and line terminators) |
| `Text.TrimIdempotent` | src/pages/SubscriptionsPage.tsx:72 | trimming an already applied filter again changes nothing |
| `Payload.ChannelUrl` | src/pages/SubscriptionsPage.tsx:50 | the link is empty exactly when the channel id is empty; otherwise it is the channel-page prefix followed by the id |
| `Payload.NormalizeItem` | src/pages/SubscriptionsPage.tsx:40-53 | normalising an item always succeeds, keeps its id and gives a record whose link agrees with its channel id |
| `Payload.NormalizeAll` | src/pages/SubscriptionsPage.tsx:40-53 | the `.map` keeps the length and order of `items`, element by element |
| `Payload.ItemsOf` | src/pages/SubscriptionsPage.tsx:40 | a missing `items` gives an empty list; a present one is normalised element-wise |
| `Payload.TotalOf` | src/pages/SubscriptionsPage.tsx:56 | `totalResults` wins, then `pageInfo.totalResults`, and the result is 0 only if neither is present or the present one is 0 |
| `Payload.NormalizeItemFields` | src/pages/SubscriptionsPage.tsx:41-51 | each field takes the value at the end of its path when every step is present, and its default ("" or null) as soon as any step is missing, including partly present paths |
| `Payload.NormalizeEmbed` | src/pages/SubscriptionsPage.tsx:44-52 | for a fully populated item, normalisation returns every field unchanged (left inverse of `Embed`) |
| `Payload.NormalizeAllEmbed` | src/pages/SubscriptionsPage.tsx:40-53 | the same round trip holds for a whole list of well-formed records |
| `Payload.NormalizeBare` | src/pages/SubscriptionsPage.tsx:41-51 | an item with only an id gets empty title, channel title, thumbnail, channel id and link, and a null item count |
| `Payload.NoChannelNoLink` | src/pages/SubscriptionsPage.tsx:41-50 | a missing or empty channel id yields an empty channel link |
| `Selection.Ids` | src/pages/SubscriptionsPage.tsx:112-122 | an id is in the result exactly when some displayed item has it |
| `Selection.Without` | src/pages/SubscriptionsPage.tsx:102 | the filter never lengthens the list; an item is kept exactly when it was there and its id is not removed |
| `Selection.WithoutConcat` | src/pages/SubscriptionsPage.tsx:102 | filtering distributes over concatenation, so the relative order of kept items is preserved |
| `Selection.WithoutCount` | src/pages/SubscriptionsPage.tsx:102 | each kept item keeps its number of occurrences; removed ones occur zero times |
| `Selection.WithoutNothing` | src/pages/SubscriptionsPage.tsx:102 | when no displayed id is removed, the list is unchanged |
| `Selection.WithoutRemovesIds` | src/pages/SubscriptionsPage.tsx:102 | the ids displayed after the filter are the old ids minus the removed ones |
| `Selection.WithoutIdempotent` | src/pages/SubscriptionsPage.tsx:102 | filtering twice by the same ids equals filtering once |
| `PageState.ApplyFilterResets` | src/pages/SubscriptionsPage.tsx:70-74 | applying goes to page 1, empties the selection, applies the trimmed draft, keeps list, sort and draft; a request is issued iff the query changed |
| `PageState.ClearFilterResets` | src/pages/SubscriptionsPage.tsx:76-81 | clearing empties draft and applied filter, goes to page 1, empties the selection; sort, list and total are kept; a request is issued iff the query changed |
| `PageState.ReapplyOnlyClearsSelection` | src/pages/SubscriptionsPage.tsx:70-74 | re-applying the filter already in force on page 1 only empties the selection and issues no request |
| `PageState.CheckLaws` | src/pages/SubscriptionsPage.tsx:83-89 | ticking adds the id and unticking removes it; both are idempotent; no other id and no other field changes |
| `PageState.VisibleSelectionLaws` | src/pages/SubscriptionsPage.tsx:112-122 | select-all-visible is a union with the visible ids and deselect-all is a difference; ids not displayed are unaffected |
| `PageState.SelectThenDeselect` | src/pages/SubscriptionsPage.tsx:112-122 | select then deselect leaves the prior selection minus the visible ids; this is a no-op iff no visible id was selected |
| `PageState.UnsubscribeSucceeded` | src/pages/SubscriptionsPage.tsx:101-103 | success with any posted id set empties the selection and leaves no posted id displayed, even if the selection changed while the request was in flight; other items keep their multiplicity and relative order; no other field changes |
| `PageState.UnsubscribeFailed` | src/pages/SubscriptionsPage.tsx:104-106 | a non-ok answer leaves list, selection and everything else unchanged |
| `PageState.View.CanGoPrev` | src/pages/SubscriptionsPage.tsx:124 | on a page >= 1, "previous" is enabled exactly when pressing it would change the page |
| `PageState.View.CanGoNext` | src/pages/SubscriptionsPage.tsx:125 | "next" is enabled exactly when the first item of the page that "next" moves to, at offset (page) * 25, lies below the total |
| `PageState.PagingLaws` | src/pages/SubscriptionsPage.tsx:124-125 | previous is enabled iff page > 1 and next iff page*25 < total; next adds 1 and previous gives max(1, page-1); both keep selection, filter and sort |
| `PageState.PrevAtFirstPage` | src/pages/SubscriptionsPage.tsx:164 | where previous is disabled, the handler would change nothing and issue no request |
| `PageState.ToggleSortTwice` | src/pages/SubscriptionsPage.tsx:152 | the toggle flips the order and leaves page, filter and selection alone; twice restores everything except the request counter, which has advanced by 2 |
| `PageState.DeliverIgnored` | src/pages/SubscriptionsPage.tsx:57-63 | a failed, aborted or superseded response changes nothing |
| `PageState.DeliverLatest` | src/pages/SubscriptionsPage.tsx:55-56 | the response to the latest request replaces the list and total with its normalised contents and changes nothing else |
| `PageState.SupersededResponseDropped` | src/pages/SubscriptionsPage.tsx:66 | once an event has issued a new request, the response to the previous one is dropped |
| `PageState.StepKeeps` | src/pages/SubscriptionsPage.tsx:24 | every event keeps page >= 1 and advances the request counter by at most one |
| `PageState.RunKeeps` | src/pages/SubscriptionsPage.tsx:24 | any sequence of events keeps page >= 1 and never moves the request counter back |
| `PageState.StepLogs` | src/pages/SubscriptionsPage.tsx:27-67 | one event bumps the generation, issuing a request and logging its query, exactly when the query changes (both directions), so the last logged query is always the one in force |
| `PageState.HistoryTracksLatest` | src/pages/SubscriptionsPage.tsx:27-67 | after any sequence of events the log holds one query per request number, the latest number was issued with the query now in force, and earlier entries are never rewritten |
| `PageState.AppliedResponseMatchesQuery` | src/pages/SubscriptionsPage.tsx:55-56 | a response that changes anything answers the most recently issued request, which was issued with the query now in force |
| `PageState.OnlyLatestResponsesMatter` | src/pages/SubscriptionsPage.tsx:27-67 | removing every response that was stale (or failed) when it arrived does not change the outcome of any event sequence |
| `Page.SubscriptionsPage.constructor` | src/pages/SubscriptionsPage.tsx:11-25 | initial state: empty list and selection, total 0, empty filters, descending order, page 1; request 0 is logged with that query |
| `Page.SubscriptionsPage.CurrentRequest` | src/pages/SubscriptionsPage.tsx:33-35 | the request in flight is the last one logged; its parameters are the applied filter, the page, limit 25 and the sort order |
| `Page.SubscriptionsPage.Refetch` | src/pages/SubscriptionsPage.tsx:66-67 | the effect re-runs (a new request number, its query appended to the log) exactly when the query differs from before the event |
| `Page.SubscriptionsPage.EditDraft` | src/pages/SubscriptionsPage.tsx:137 | the new state is the old one with only the draft replaced |
| `Page.SubscriptionsPage.ApplyFilter` | src/pages/SubscriptionsPage.tsx:70-74 | the new state is `ApplyFilter` of the old one, and page >= 1 is kept |
| `Page.SubscriptionsPage.ClearFilter` | src/pages/SubscriptionsPage.tsx:76-81 | the new state is `ClearFilter` of the old one |
| `Page.SubscriptionsPage.HandleCheck` | src/pages/SubscriptionsPage.tsx:83-89 | the new state is `Check(id, checked)` of the old one |
| `Page.SubscriptionsPage.SelectAllVisible` | src/pages/SubscriptionsPage.tsx:112-116 | the `forEach` loop yields the old selection united with the visible ids |
| `Page.SubscriptionsPage.DeselectAllVisible` | src/pages/SubscriptionsPage.tsx:118-122 | the `forEach` loop yields the old selection minus the visible ids |
| `Page.SubscriptionsPage.PrevPage` | src/pages/SubscriptionsPage.tsx:164 | the new state is `PrevPage` of the old one |
| `Page.SubscriptionsPage.NextPage` | src/pages/SubscriptionsPage.tsx:167 | the new state is `NextPage` of the old one |
| `Page.SubscriptionsPage.ToggleSort` | src/pages/SubscriptionsPage.tsx:152 | the new state is `ToggleSort` of the old one |
| `Page.SubscriptionsPage.HandleUnsubscribe` | src/pages/SubscriptionsPage.tsx:91-110 | on success the current list loses the posted ids and the selection empties; otherwise nothing changes |
| `Page.SubscriptionsPage.Deliver` | src/pages/SubscriptionsPage.tsx:37-60 | only a successful response to the latest request replaces list and total, and a response that does was issued with the query now in force |

## Left out

- The `loading` flag is not modelled. It is set and cleared around both requests, and the `finally` also
  runs for aborted requests. Its timing across overlapping callbacks is a matter of asynchronous scheduling.
- The enable conditions of the apply, clear, select-all, deselect-all and delete buttons are not modelled.
  They are rendering only. The previous and next conditions are modelled as `CanGoPrev`/`CanGoNext`.
- The network is not modelled: `fetch`, the `/api/unsubscribe` POST, JSON parsing and
  `encodeURIComponent`. Each request's outcome is an input to the model, given as a `Response` or the
  `ok` flag. The same goes for `alert` and `console.error`.
- The invariant that every selected id belonged to an item displayed at some point since the selection
  was last cleared is not modelled. The model's `Checked` event takes any id, while the page only renders
  check boxes for displayed items. (The selection does survive paging, sorting and a new list.)
- The ids are posted as a set. The order in which `Array.from` lists them is not modelled.
- Bodies that make the mapping throw are not modelled as bodies: a `null` body, a `null` or `undefined`
  element of `items`, or an `items` that is not an array. The source catches these like any other failure,
  so the model's `NetworkError` stands for them. A body that is a non-null primitive reads as having no
  fields, which is `RawPayload(None, None, None)`: an empty list and a total of 0.
- `Payload.NormalizeItem`: an element without an `id` is displayed by the source with an undefined id.
  The model's raw item always has a string id, so that case is not represented.
- `Payload.NormalizeItem`: present fields are assumed to have the schema's type. The `??` operator passes a
  value of another type (say a numeric `title`) through unchanged, and the model cannot represent that.
- JSON numbers (`totalResults`, `totalItemCount`) are modelled as integers.
- React applies the state updates of one handler together. Each handler is therefore one transition.
- Unmounting the page, which also aborts the request, is not modelled.
- `src/components/SubscriptionCard.tsx` and `src/App.tsx` are not part of this model. The first is markup
  that forwards `onChange(item.id, checked)`. The second is a login link.
