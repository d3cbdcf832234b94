# Subscription store of the product-availability notifier

This project models the client-side core of a page that lists a vendor's
product catalog and lets the user ask to be emailed when an out-of-stock
product comes back. The core is the **subscription store**: a JavaScript
object mapping product name to `{email, subscribedAt, productName}`. Beside it
sit a set of subscribed names kept in step with the store's keys and a cached
`userEmail`, and both are persisted in the browser's local storage. The
subscribe and unsubscribe handlers change the store only after the
notification service answers ok. The model also covers the statistics over
the records and the catalog view, which picks a tab and filters it by a
case-insensitive search term.

Modules:

- `JsObject` (js_object.dfy): a plain JS object as its list of entries in
  iteration order, with distinct keys. Covers read, assign (overwrite in place
  or append) and `delete`, with the lemmas that pin them down.
- `Subscriptions` (subscriptions.dfy): the record type, and local storage as a
  map from key to stored item. Covers loading the store from storage and the
  storage write done by a save.
- `Stats` (stats.dfy): the per-email counts as the `forEach` loop builds them,
  the oldest record as the `reduce` picks it, and the statistics method.
- `Catalog` (catalog.dfy): products, lower-casing, `includes`, and the search
  filter.
- `Gateway` (gateway.dfy), `Notice` (notice.dfy), `Wrappers` (wrappers.dfy):
  the request and its outcome, toast notices, and `Option`.
- `Page` (page.dfy): the page state as one class, `SubscriptionPage`. Its
  methods are the store mutations, the save and load, the two remote handlers
  and the view. `Valid()` says the subscribed-name set equals the store's key
  set. Every mutating method re-establishes it.
- `Examples` (examples.dfy): client walks through the end-to-end scenarios:
  accepted and rejected subscribe, an empty email, a failed unsubscribe, clear,
  add-then-remove, and an empty search.

Boundaries are parameters:

- The remote call is an `Outcome`: `Ok`, `Rejected(body)` or
  `TransportError`. The handlers return the `Request` they would post, or
  `None` when no call is made.
- A timestamp is an integer `now` passed by the caller.
- The fetched catalogs arrive as an optional pair.
- Toasts are returned values.

Three behaviours differ from what the code's comments or a reader might expect. The model follows the code:

- `clearAllSubscriptions` removes `productSubscriptions` and the legacy
  `subscribedProducts` key, but keeps `userEmail` (app/page.tsx:115-116).
- The cached email is the email of the *first* record in iteration order
  (`emails[0]`, app/page.tsx:75-77). It is neither the most recent record's
  nor the last writer's. `CachedEmailIsFirstRecord` proves that after adding a
  new product the cached email is still the first record's.
- `handleUnsubscribe` does not check for an empty email. It always sends the
  request with the current email (app/page.tsx:242-253).

## Model

| member | source | states |
|---|---|---|
| JsObject.KeySet | app/page.tsx:71 | `new Set(Object.keys(obj))`; a definition with no contract of its own, whose meaning `KeySetIndex` states |
| JsObject.KeySetIndex | app/page.tsx:71 | a name is in the key set exactly when some entry of the object has that key |
| JsObject.Get | app/page.tsx:105-107 | the lookup finds a value exactly when the key is among the object's keys, and the found value is stored under that key |
| JsObject.Put | app/page.tsx:90-95 | assigning on a copy leaves the key set as before plus the assigned key, and keys stay distinct |
| JsObject.Delete | app/page.tsx:100-101 | deleting on a copy leaves the key set as before minus the deleted key |
| JsObject.Values | app/page.tsx:109-111 | `Object.values` has one value per entry, position by position |
| JsObject.KeyCount | app/page.tsx:71-72 | an object has as many distinct keys as entries, so the name set's size is the record count |
| JsObject.KeysUnique | app/page.tsx:31-33 | two entries with the same key are the same entry: at most one record per product |
| JsObject.GetPut | app/page.tsx:89-97 | after an assignment the key reads back as the new value and every other key reads as before |
| JsObject.PutExisting | app/page.tsx:91-95 | assigning to a present key overwrites its record in place: same length, same key order |
| JsObject.PutNew | app/page.tsx:90-95 | assigning to an absent key appends exactly one entry at the end |
| JsObject.GetDelete | app/page.tsx:99-103 | after a delete the key is absent and every other key reads as before |
| JsObject.DeleteAbsent | app/page.tsx:100-101 | deleting an absent key leaves the object unchanged |
| JsObject.DeleteOrder | app/page.tsx:100-101 | a delete keeps exactly the other entries, in their original order |
| JsObject.DeleteUndoesPut | app/page.tsx:89-103 | adding a product the store lacked and then removing it gives back the original store |
| Subscriptions.LoadSubscriptions | app/page.tsx:48-63 | loading gives the saved store; a missing or empty value gives the empty store silently; unparsable text gives the empty store with the "Storage Error" warning, and only then is there a warning |
| Subscriptions.WriteSubscriptions | app/page.tsx:65-78 | loading after a save returns exactly the saved store (round trip); a non-empty store caches its first record's email; an empty store leaves the cached email as it was; no other key changes |
| Subscriptions.CachedEmailIsFirstRecord | app/page.tsx:75-77 | saving after adding a new product to a non-empty store caches the first record's email, not the new one's |
| Stats.SumPut | app/page.tsx:138 | overwriting one count changes the sum of the counts by the difference |
| Stats.EmailSetIndex | app/page.tsx:143 | an email is among the distinct emails exactly when some record uses it |
| Stats.Tally | app/page.tsx:135-139 | the counts the `forEach` loop builds have as keys exactly the distinct emails of the records |
| Stats.TallySnoc | app/page.tsx:137-139 | counting one more record increments that record's email's count, starting from 0 when absent |
| Stats.TallyCount | app/page.tsx:135-139 | the counting loop maps every email used by k records to k, and emails nobody uses are not counted |
| Stats.UniqueEmailsBound | app/page.tsx:142-143 | there are never more distinct emails than records |
| Stats.TallySum | app/page.tsx:137-142 | the per-email counts add up to the number of records |
| Stats.Older | app/page.tsx:146-147 | the reducer keeps one of its two records, never a later one, and keeps the accumulated record on a tie |
| Stats.Reduce | app/page.tsx:146-148 | the reduce ends at one of the records it saw, no later than the start or any record after it |
| Stats.ReduceFindsEarliest | app/page.tsx:146-148 | a reduce that starts from the first earliest record of a prefix ends at the first earliest record of the whole list |
| Stats.Oldest | app/page.tsx:145-149 | the oldest record is absent exactly when there are no records; otherwise it is a record no later than any other, and every record before it is strictly later |
| Stats.SubscriptionStats | app/page.tsx:133-151 | the total is the record count; the breakdown counts each email exactly and sums to the total; the unique-email count is the number of distinct emails and at most the total; the oldest record is as the reduce picks it |
| Catalog.LowerChar | app/page.tsx:284 | letters A to Z map to a to z and every other character is kept |
| Catalog.Lower | app/page.tsx:284 | lower-casing keeps the length and maps each character independently |
| Catalog.Includes | app/page.tsx:284 | `includes` holds exactly when the term occurs at some offset of the name |
| Catalog.Matches | app/page.tsx:284 | a name matches exactly when the lower-cased term occurs in the lower-cased name; the empty term matches every name |
| Catalog.Filter | app/page.tsx:283-285 | the filter keeps exactly the entries that match the term, in their original order, and all of them when the term is empty |
| Catalog.FilterIgnoresCase | app/page.tsx:283-285 | two terms that lower-case alike give the same filtered list |
| Catalog.FilterMilkExample | app/page.tsx:283-285 | searching "milk" and "MILK" shows the same products |
| Page.SubscriptionPage.constructor | app/page.tsx:36-44 | the initial state: empty catalogs, store and name set, empty search term and email, the "all" tab, and storage as the browser holds it |
| Page.SubscriptionPage.RestoreFromStorage | app/page.tsx:154-167 | the mount effect sets the store to what loading gives and the name set to its keys, and takes the cached email only when it is a non-empty string |
| Page.SubscriptionPage.SaveSubscriptionsToStorage | app/page.tsx:65-87 | saving makes the given store current, sets the name set to its keys and writes storage so that loading gives the store back |
| Page.SubscriptionPage.AddSubscription | app/page.tsx:89-97 | the product maps to a record with the given email, time and the product's own name, overwriting any old record; every other product keeps its record; the name set gains the product; the result is persisted |
| Page.SubscriptionPage.RemoveSubscription | app/page.tsx:99-103 | the product is absent afterwards; every other product keeps its record; an absent product leaves the store unchanged; the name set loses the product; the result is persisted |
| Page.SubscriptionPage.GetSubscriptionInfo | app/page.tsx:105-107 | a record is returned exactly for subscribed names, and it is the one stored under that name |
| Page.SubscriptionPage.IsSubscribed | app/page.tsx:288 | a card shows as subscribed exactly when the store holds a record for it |
| Page.SubscriptionPage.GetAllSubscriptions | app/page.tsx:109-111 | all records in iteration order, one per subscribed name |
| Page.SubscriptionPage.ClearAllSubscriptions | app/page.tsx:113-131 | store and name set become empty; the subscriptions and legacy keys are removed from storage; the cached email and every other key survive; the "Cleared" notice is shown |
| Page.SubscriptionPage.GetSubscriptionStats | app/page.tsx:133-151 | the total is the number of subscribed names and the counts sum to it; unique emails are the distinct emails, at most the total; there is an oldest record exactly when something is subscribed |
| Page.SubscriptionPage.HandleSubscribe | app/page.tsx:196-240 | an empty email sends no request and changes nothing; otherwise it posts `{email, product}` to the notify route; on ok the store gains exactly that record, persisted; on a rejection (its body shown) or a transport error, store, name set and storage are unchanged |
| Page.SubscriptionPage.HandleUnsubscribe | app/page.tsx:242-277 | it always posts the current email and product to the remove route; on ok exactly that product's record is removed, persisted; on a rejection or transport error nothing local changes |
| Page.SubscriptionPage.ReceiveProducts | app/page.tsx:172-194 | both catalogs are set together when both were read; otherwise neither changes and "Failed to fetch products" is shown |
| Page.SubscriptionPage.SetEmail | app/page.tsx:309 | the email state becomes the given email |
| Page.SubscriptionPage.SetSearchTerm | app/page.tsx:39 | the search term becomes the given text |
| Page.SubscriptionPage.SetActiveTab | app/page.tsx:44 | the active tab becomes the given tab |
| Page.SubscriptionPage.GetCurrentProducts | app/page.tsx:279-281 | the "all" tab shows the whole catalog; any other tab shows the available products |
| Page.SubscriptionPage.FilteredProducts | app/page.tsx:283-285 | the shown entries are exactly the active catalog's entries that match the search term, in catalog order, and they are all of them when the term is empty |

## Left out

- Catalog.Lower, Catalog.LowerChar: model `toLowerCase` only on the letters A to Z. Full Unicode case mapping is not modelled, so the filter's case-insensitivity is proved for ASCII letters only.
- JSON encoding and decoding are not modelled. A stored `Document(s)` stands for the text `JSON.stringify(s)`. Any `Text` under the subscriptions key counts as text that fails to parse. JSON that parses to something other than an object (such as `null`) is not modelled.
- Page.SubscriptionPage.RestoreFromStorage: a cached email held as a `Document` item is ignored. The page itself only ever writes plain text under that key.
- Exceptions thrown by `localStorage.setItem` or `removeItem` are not modelled: a full quota or disabled storage. Neither are the "Storage Error" and "Error" toasts their catch blocks show (app/page.tsx:79-86, 123-130). Save and clear always succeed in the model.
- Timestamps are integers supplied by the caller. ISO date strings, `new Date()` parsing, and comparisons of invalid dates (NaN) are not modelled.
- JavaScript puts integer-like keys (such as "42") first, in ascending order, before insertion order. The model uses insertion order for every key.
- Keys inherited from `Object.prototype` are not modelled. With an email such as "constructor", `emailCounts[sub.email] || 0` reads an inherited member instead of 0.
- React state updates are taken to apply immediately and in sequence. Batched updates and stale closures are not modelled, e.g. `handleSubscribe` reading the `email` of the render before `setEmail` at app/page.tsx:309-310.
- The fetch layer is not modelled: `Promise.all`, the order in which the two catalog fetches finish, and the four API route files that forward requests to the remote hosts. The routes appear only as the request and its `Outcome`. When upstream fails, the catalog route answers `{error: ...}` and the page would show it as a catalog. The model receives that case as a failed fetch.
- All rendering is left out as UI: product cards, dialogs, the local email field, toast display, the `loading` flag and `selectedProduct`. That includes the subscriptions dialog's Remove button (app/page.tsx:463), which calls `removeSubscription` without asking the notification service. The model's `RemoveSubscription` can be called on its own for that reason.
- Duplicate in-flight subscribe or unsubscribe calls for one product are not modelled; the code has no lock against them.
