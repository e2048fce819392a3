# ShopManage product page, modelled in Dafny

The product page of ShopManage (`script.js`) keeps two views of one product
list: a card grid and a table. Each view has an empty-state placeholder. A
loading spinner covers a list fetch, and the card grid can hold a
load-failure panel instead of cards. Three handlers talk to the remote
product API and then patch the page:

- the product form's submit handler, which creates or updates a product;
- the delete handler;
- the list fetch.

The model covers:

- the page's state machine, as pure transitions on a `Page` value
  (`Views.AfterRender`, `Views.AfterAdd`, `Views.AfterUpdate`,
  `Views.AfterRemove`, …);
- the class `Views.ProductViews`, whose methods update the page in place
  and are each proved to perform their transition;
- the per-record rules the drawing applies: field fallbacks, the derived
  SKU, title truncation and the stock badge;
- the error classification shared by the three catch blocks;
- the three handlers, with the network's answer, `navigator.onLine`, the
  form's validity and the user's confirmation as inputs.

Modules:

- `Common`: `Option` and `Result`.
- `Text`: substring containment (JavaScript `includes`), decimal numerals
  and `padStart`.
- `Catalog`: product records, truthiness, the fallback object of the full
  render, the list and save transforms, and the SKU.
- `Display`: truncation, the stock tier, and a drawn card or row (`Unit`).
- `Failures`: the classification chain and the notices and panel it
  produces.
- `Views`: lookup, replace and remove by key; the `Page` transitions; and
  the `ProductViews` class.
- `Sync`: the fetch outcomes, the form (`Form`, an array of `disabled`
  flags) and the three handlers.

A card or a row is abstracted to a `Unit`. It holds the key the page finds
it by (the number inside its `editProduct(...)` handler) and what it
displays. A key of `None` stands for the `Math.random()` id that the full
render invents when a record has no truthy id. No lookup by a product id
matches such a key. The card and the row of such a record draw two different
random numbers; the model gives both the same key `None`.

The invariant `Views.InStep` holds after every operation:

- both views have the same keys in the same order;
- an empty state is shown only over an empty view.

Where the code's behaviour may surprise a reader, the model follows the
code:

- The delete succeeds on status exactly 200 and a readable body. It does not
  look at any acknowledgement in the body.
- The badge is `bg-success` above 10, `bg-warning` above 0, and `bg-danger`
  otherwise, so a negative stock shows as danger.
- An update redraws the card only while the card grid is shown. The table
  row is always redrawn.
- The list transform takes the image from `thumbnail || images[0]`. The save
  transform takes it from `image`, with the card placeholder as fallback.
- The full render's SKU fallback is `SKU-` followed by the unpadded id, or
  `SKU-000`. Only the two transforms pad the id to three digits.
- Removing or updating an id that no unit carries changes nothing and
  reports nothing. There is no not-found error.

## Model

| member | source | states |
|---|---|---|
| Text.Contains | script.js:145 | `includes` as substring containment; closed under extension on either side (`Text.ContainsExtended`, `Text.ContainsPrepended`) |
| Text.ContainsExtended | script.js:148 | a message that contains a marker still contains it with text appended |
| Text.ContainsPrepended | script.js:743 | a message that contains a marker still contains it with text in front |
| Text.NoPairExcludes | script.js:145 | text in which no 'f' is followed by 'e' cannot contain "fetch" |
| Text.NoPairAppend | script.js:145 | joining two texts free of "fe" with no 'f' at the seam stays free of "fe" |
| Text.DecimalString | script.js:859 | `id.toString()` for a non-negative integer below 2^53: non-empty, all digits, no leading zero, at least three digits exactly when the id is at least 100 |
| Text.ParseDecimalString | script.js:859 | the decimal numeral of an id reads back as the id (ids below 2^53, where `toString` is exact) |
| Text.PadStart | script.js:859 | `padStart(width, c)`: length is the larger of the text's length and the width, the text is kept as the suffix, and only `c` is added in front |
| Text.ParseZeroPadded | script.js:859 | zero padding does not change the value a numeral reads as |
| Catalog.TextOr | script.js:477 | `v \|\| fallback` for a text field: a present, non-empty value passes, otherwise the fallback |
| Catalog.Sku | script.js:1020 | the derived SKU is `SKU-` followed by the id's digits left-padded with '0' to three |
| Catalog.SkuOfWideId | script.js:859 | an id of three or more digits appears in the SKU unchanged, never truncated |
| Catalog.SkuDigitsReadBack | script.js:984 | the digits after `SKU-` read back as the id (ids below 2^53) |
| Catalog.SkuInjective | script.js:1020 | different ids below 2^53 never share a derived SKU |
| Catalog.Normalize | script.js:475-483 | the fallback object, field by field: each truthy field is kept, otherwise title `Untitled Product`, category `Uncategorized`, stock 0, sku `SKU-`+id or `SKU-000`, image the placeholder; a falsy id gives the unmatched key |
| Catalog.NormalizeIdempotent | script.js:537-545 | filling in an already filled-in record changes nothing |
| Catalog.FromListing | script.js:853-861 | the list transform: fields copied, SKU derived from the id, image from the thumbnail, else the first image, else none |
| Catalog.ListingOf | script.js:853 | the transformed list has one record per fetched product, in order |
| Catalog.ListedSkuIsDerived | script.js:859 | a fetched product is drawn with its padded derived SKU; the render's SKU fallback never applies to it |
| Catalog.FromSaved | script.js:1014-1022 | the save transform: key is the returned id, no title/category/stock fallback, SKU derived, image or the card placeholder |
| Display.Truncate | script.js:1068-1071 | a title longer than the limit shows as its first `limit` characters plus `...`; a shorter one is shown unchanged |
| Display.HeadingsAgree | script.js:1115-1118 | the card heading and the row heading agree with the title on every character the row keeps |
| Display.StockTier | script.js:1082-1083 | in stock exactly above 10, low exactly in 1..10, out exactly at 0 or below |
| Display.StockTierMonotone | script.js:1128-1129 | more stock never shows a worse badge |
| Display.Draw | script.js:1058-1099 | a drawn unit keeps the full title (tooltip and alt text), the heading truncated at the limit, the badge given by the tier rule, and the product's key, category, SKU, stock and image |
| Display.Card | script.js:1058-1099 | a card keeps the product's key, full title and tier, with the heading cut at 30 characters (at most 33 shown) |
| Display.Row | script.js:1103-1145 | a row keeps the product's key, full title and tier, with the heading cut at 25 characters (at most 28 shown) |
| Display.CardAndRowAgree | script.js:1103-1145 | a card and a row of one product differ only in the heading: the card is the row with the 30-character heading in place of the 25-character one |
| Display.BadgeClassOfStock | script.js:1082-1083 | the badge class (`Display.TierClass` of the tier) is `bg-success` exactly above 10, `bg-warning` exactly in 1..10, `bg-danger` exactly at 0 or below |
| Failures.Classify | script.js:142-153 | Connection exactly when offline; otherwise a `TypeError` or a message containing `fetch` gives Network; otherwise `HTTP error` (and, for delete, `status`) gives Server; otherwise unclassified |
| Failures.DeleteClassifiesAtLeastAsServer | script.js:737-748 | the delete handler's extra `status` marker only turns an unclassified error into a server error |
| Failures.SubmitFailure | script.js:138-153 | title from the category, `Error` when unclassified; the offline, network and server messages as written, and the raw message when unclassified |
| Failures.DeleteFailure | script.js:733-748 | title from the category, `Delete Error` when unclassified; the offline, network and server messages as written, and the raw message when unclassified |
| Failures.LoadFailureFor | script.js:878-919 | the panel shows the error message beneath the explanation; the offline, network and server explanations as written; an unclassified error gets the fixed "unknown" text, not the raw message; the alternative retry only while online |
| Failures.HttpError | script.js:69-71 | the error thrown for a response that is not `ok`: named `Error`, its message is `HTTP error! status: ` followed by the status's digits, which read back as the status |
| Failures.DeleteStatusError | script.js:726-727 | the error thrown for a delete status other than 200: named `Error`, its message is `Delete failed with status: ` followed by the status's digits, which read back as the status |
| Failures.StatusMessageAvoidsFetch | script.js:145 | a status number appended to text free of "fe" cannot make the message look like a network failure |
| Failures.HttpTextIsServer | script.js:145-148 | while online, the text `HTTP error! status: N` is classified as Server for every status N |
| Failures.HttpErrorIsServer | script.js:69-71 | while online, the error thrown for a response that is not `ok` is classified as Server, never as Network |
| Failures.DeletePrefixAvoidsFe | script.js:726 | the delete status error's fixed text has no "fe" in it |
| Failures.DeletePrefixNamesStatus | script.js:726 | the delete status error's fixed text contains `status` |
| Failures.DeleteStatusTextIsServer | script.js:740-743 | while online, the text `Delete failed with status: N` is classified as Server for every status N |
| Failures.DeleteStatusIsServer | script.js:713-727 | while online, a delete answered with any status but 200 is classified as Server |
| Views.Ids | script.js:763 | the keys of a view, one per unit, in document order |
| Views.IndexOf | script.js:763 | the `editProduct(id)` lookup finds the first unit in document order keyed by the id, or nothing |
| Views.IndexOfByIds | script.js:778 | two views with the same keys find the same position for every id |
| Views.ReplaceFirst | script.js:993-997 | `outerHTML` replacement: same length, the found unit replaced, every other unit unchanged |
| Views.ReplaceFirstKeepsIds | script.js:1002-1005 | redrawing a unit under its own key leaves the keys unchanged |
| Views.RemoveFirst | script.js:763-773 | removal: nothing changes when the id is absent; otherwise exactly the found unit is cut out and the rest keep their order |
| Views.RemoveFirstTakesOne | script.js:769 | removal takes one copy of the found unit out of the view's contents and nothing else |
| Views.IdsOfCut | script.js:784 | the keys after cutting out a unit are the old keys with that key cut out |
| Views.RemoveFirstKeepsStep | script.js:759-788 | two views with the same keys still have the same keys after the same removal |
| Views.IdsOfPrepended | script.js:1036 | the keys after an insertion at the front are the new key followed by the old keys |
| Views.RemoveUndoesInsert | script.js:1051 | a unit inserted first and then removed by its key leaves the view as it was |
| Views.FindUnit | script.js:763 | the document-order search loop returns the first position keyed by the id, or -1 when no unit carries it |
| Views.CardsOf | script.js:470-529 | the full render draws one card per record, in order, from its fallback object |
| Views.RowsOf | script.js:532-595 | the full render draws one row per record, in order, from its fallback object |
| Views.FullRenderInStep | script.js:438-467 | the cards and the rows of a full render carry the same keys in the same order |
| Views.InStep | script.js:759-816 | the invariant every operation keeps: both views carry the same keys in the same order, and an empty state is shown only over an empty view |
| Views.AfterLoading | script.js:824-837 | `showLoading`: both views cleared, both empty states hidden, the failure panel gone, the spinner shown, the selected view kept |
| Views.AfterEmptyState | script.js:598-616 | `renderEmptyState`: both views cleared and both empty states shown |
| Views.AfterRender | script.js:438-467 | `renderProducts`: one card and one row per record; the spinner and any failure panel gone; the selected view kept |
| Views.AfterLoadFailure | script.js:875-919 | the catch block of the list fetch: the spinner hidden and the card grid's content replaced by the failure panel, so no card remains; the table and the empty states untouched |
| Views.AfterAdd | script.js:1012-1055 | `addProductToUI`: each view grows by one unit, whose key is the saved id and whose title is the saved title |
| Views.AfterUpdate | script.js:976-1009 | `updateProductInUI`: both views keep their size; empty states, spinner and failure panel untouched |
| Views.AfterEmptyCheck | script.js:794-816 | `checkIfEmpty`: views untouched; each empty state shown exactly when it already was or its view is empty |
| Views.AfterCardRemoval | script.js:761-774 | the card half of `removeProductFromUI`: the cards lose the first unit keyed by the id, the rows are untouched, and an absent id changes nothing |
| Views.AfterRowRemoval | script.js:777-788 | the row half: the rows lose the first unit keyed by the id, the cards are untouched, and an absent id changes nothing |
| Views.AfterRemove | script.js:759-791 | `removeProductFromUI`: both views lose the first unit keyed by the id; spinner and failure panel untouched |
| Views.RenderInStep | script.js:438-467 | `renderProducts`: one unit per record in each view, both empty states shown exactly when the list is empty, the spinner and any failure panel gone |
| Views.AddInStep | script.js:1012-1055 | `addProductToUI`: the new unit first in both views under the saved id, the old units after it in their order, both empty states hidden, views still in step |
| Views.UpdateInStep | script.js:976-1009 | `updateProductInUI`: keys and order unchanged, every unit not keyed by the saved id unchanged, views still in step |
| Views.UpdateLeavesHiddenCardsStale | script.js:989-990 | with the card grid hidden, an update leaves every card as it was and redraws only the row |
| Views.EmptyCheckShowsExactly | script.js:794-816 | `checkIfEmpty` over views in step: each empty state is shown exactly when its view has no unit |
| Views.RemoveInStep | script.js:759-791 | `removeProductFromUI`: the unit keyed by the id leaves both views or neither; each empty state is shown afterwards exactly when it already was or a unit was removed and none is left; nothing else changes |
| Views.RemoveUndoesAdd | script.js:1028-1052 | removing by its key the product just added restores both views |
| Views.ProductViews.ShowCardView | script.js:203-206 | only the card grid's visibility changes |
| Views.ProductViews.ShowTableView | script.js:208-211 | only the card grid's visibility changes |
| Views.ProductViews.ShowLoading | script.js:824-837 | performs the loading transition and keeps the views in step |
| Views.ProductViews.RenderEmptyState | script.js:598-616 | performs the empty-state transition and keeps the views in step |
| Views.ProductViews.RenderProducts | script.js:438-467 | performs the full-render transition and keeps the views in step |
| Views.ProductViews.ShowLoadFailure | script.js:875-919 | the spinner hidden and the card grid's content replaced by the failure panel (no card remains); nothing else changes |
| Views.ProductViews.AddProduct | script.js:1012-1055 | performs the add transition and keeps the views in step |
| Views.ProductViews.UpdateProduct | script.js:976-1009 | performs the update transition, card grid only while shown, and keeps the views in step |
| Views.ProductViews.RedrawCard | script.js:989-998 | the card keyed by the id is replaced in place, if there is one |
| Views.ProductViews.RedrawRow | script.js:1001-1006 | the row keyed by the id is replaced in place, if there is one |
| Views.ProductViews.CheckIfEmpty | script.js:794-816 | each empty state is shown when its view is empty and never hidden; the views are untouched |
| Views.ProductViews.RemoveCard | script.js:761-774 | the card removed when found, then the empty check |
| Views.ProductViews.RemoveRow | script.js:777-788 | the row removed when found, then the empty check |
| Views.ProductViews.RemoveProduct | script.js:759-791 | performs the removal transition (card first, then row) and keeps the views in step |
| Sync.OkBody | script.js:69-73 | a rejected fetch yields its error; a status outside 200-299 yields the `HTTP error! status: N` error; a status in 200-299 yields the parsed body, or the error `response.json()` throws |
| Sync.DeleteBody | script.js:712-727 | status 200 goes on to the body, and only status 200 does; any other status yields `Delete failed with status: N` |
| Sync.SavedNotice | script.js:81-112 | the success toast: titled `Success!`, its message starts with the quoted title and, for a create, ends with the new id |
| Sync.SubmitRejectedStatusIsServerError | script.js:69-71 | while online, a create or update answered with a status that is not `ok` is titled Server Error |
| Sync.DeleteRejectedStatusIsServerError | script.js:713-727 | a delete answered with any status but 200 fails and, while online, is titled Server Error |
| Sync.ListRejectedStatusIsServerError | script.js:846-848 | while online, a list fetch answered with a status that is not `ok` shows the server-error panel with the status message |
| Sync.Form.SetDisabled | script.js:50-51 | the `forEach` loop sets every control's `disabled` flag to the value |
| Sync.Submit | script.js:17-171 | an invalid form changes nothing; a valid one ends with every control enabled; a good response performs the add transition or, in edit mode with a product id, the update transition and restores the button label; a failure leaves the page as it was, reports the classified notice and sets the label from the edit mode |
| Sync.DeleteProduct | script.js:689-756 | no confirmation, no request and no change; a request performs the removal transition only for status 200 with a readable body, otherwise the page is unchanged and the classified notice is reported |
| Sync.FetchProducts | script.js:840-921 | the loading transition, then either the full render of the transformed list or the failure panel; the views stay in step |
| Sync.FailedFetchShowsPanel | script.js:868-919 | after a failed fetch both views are empty, neither empty state is shown, the spinner is hidden and the panel is in the card grid |
| Sync.FetchedListInStep | script.js:850-864 | a fetched list of N products draws N cards and N rows with the same keys, each showing its product's derived SKU |

## Left out

- Text.DecimalString: ids and statuses are modelled as unbounded naturals; a JavaScript number prints in exponent notation from 1e21 and loses exact digits above 2^53, so this function, Catalog.Sku and the read-back lemmas (Text.ParseDecimalString, Catalog.SkuDigitsReadBack, Catalog.SkuInjective) describe `toString` only for ids below 2^53.
- Price: the `toFixed(2)` and `parseFloat` formatting is floating point and is not modelled; no unit carries a price.
- The `Math.random()` id is modelled as a key (`None`) that no lookup matches. Its value, and a delete or edit invoked with it, are not modelled.
- HTML, CSS classes other than the badge tier, icons, colours, `alt`/`onerror` image handling and the fade animation are not modelled.
- The 300 ms `setTimeout` before each removal is modelled as an immediate removal, in the order the timers fire (card, then row). An interleaving with other events during the delay is not modelled.
- The awaits are modelled as atomic. Events that interleave with a pending request are not modelled.
- Every container the code looks up (`cardContainer`, `productTableBody`, both empty-state elements, the spinner) is assumed present.
- The card empty-state element is moved into the card grid by `renderEmptyState` and `checkIfEmpty`. A later `innerHTML` reset detaches it, and the empty check then finds no element to show. This is not modelled: the flag is shown as the code intends.
- `alert` and toast texts are not modelled beyond the title and message they carry. The toast's `Failed to … product:` prefix is not modelled either.
- The request payload (`FormData`, `parseInt`, the description text and the placeholder image) is not modelled, because it only goes to the network.
- Closing the modal after a save and the delayed `resetProductForm` are not modelled.
- A thrown error after a successful response is not modelled. Examples are `toFixed` on a missing price, or a fetched product without `images`. API fields are assumed present and well typed.
- `editProduct`, `populateProductForm`, `resetProductForm`, `initializeFormEventListeners`, `fetchProductsWithCatch`, `isValidUrl`, the image preview, `showToast`, `initNetworkMonitoring`, `enhanceFormValidation` and the catch of the first load are not modelled. They are form-filling, retry or UI plumbing with no state the views depend on.
- String length counts characters, not UTF-16 code units. Titles with characters outside the Basic Multilingual Plane are therefore cut at a different place than in a browser.
- Sync.Submit: the label shown while the request is pending (`Adding...`/`Updating...`) is not stated in the contract. Only the label after the request settles is stated.
- A record without a truthy id gets one random key for its card and another for its row. The model gives both the key `None`, so `Views.InStep`'s "same keys" holds there only up to that abstraction; no lookup by id reaches either unit in the program or in the model.
