# Crocs by Dero: order, rider and catalogue core in Dafny

This project models the data core of the Crocs by Dero shop in Dafny and proves properties of that model. It covers four parts:

- **Order service** (`src/firebase/ordersService.js`). It writes orders and riders into two document collections. It reads single orders and riders back. It builds a customer's order history from two equality queries, one by phone and one by email, merged and sorted newest first. It builds a rider's order list.
- **Rider authorisation service** (`src/firebase/riderAuthService.js`). It keeps a collection of lower-cased rider emails that gates the rider dashboard.
- **Product catalogue state** (`src/context/ProductContext.jsx`). It loads and migrates the saved product list and adds, updates and deletes products. It also provides the storefront filters: featured, by category, charms and search.
- **Admin product editor** (`src/pages/Admin.jsx`). It converts a product into the edit form and the form back into a product. It edits the colour list and has one-click status and visibility toggles.

Modules and files:

- `Documents` (`documents.dfy`): a document is a map from field names to values.
  - `updateDoc` is map union (`Merge`).
  - A record read back is `{ id: key, ...data }` (`WithId`).
- `Orders` (`orders.dfy`): the two collections and the "configured" flag.
  - They are fields of the class `OrderStore`, whose methods are the service's writes.
  - The key `addDoc` generates is a parameter, required to be unused.
  - `now` stands for `Timestamp.now()`.
- `OrderQueries` (`order_queries.dfy`): the sorted queries.
  - The store's answer to a query is an input: either a list of documents or a rejection.
  - The predicate `Answers` states when that list is the collection's true answer.
- `RiderAuth` (`rider_auth.dfy`): the authorisation collection and the class `AuthorizationStore`.
- `Catalogue` (`catalogue.dfy`): the product record, the migration, the add, update and delete operations, and the filters.
  - The class `ProductCatalogue` holds the `products` list that every change replaces.
  - The product's `type` field is called `kind`, because `type` is a keyword in Dafny.
- `Admin` (`admin.dfy`): the editor form and the class `AdminPanel`, which holds the form, the id under edit and the catalogue it writes to.
- `Text`, `Lists` and `Wrappers`: the string operations of JavaScript that the core uses, a list filter, and `Option`, `Result` and `Outcome`.
  - The string operations are `toLowerCase`, `includes`, `trim`, `split` and `join`.

## Model

| member | source | states |
|---|---|---|
| Documents.Merge | src/firebase/ordersService.js:61-66 | `updateDoc` keeps every field, adds the patch's fields, and the patch wins every clash |
| Documents.Truthy | src/firebase/ordersService.js:289 | the values a `||` default replaces are exactly `null`, `false`, `0` and the empty string |
| Documents.WithId | src/firebase/ordersService.js:49-51 | a record read back has all stored fields plus `id`; the document key is `id` unless the data holds its own `id` |
| Orders.Placed | src/firebase/ordersService.js:26-34 | a new order is the caller's data plus status `placed`, both timestamps `now`, and null rider, rider location and delivery estimate; the fixed fields override the caller's, and every other field is the caller's |
| Orders.OrderStore.CreateOrder | src/firebase/ordersService.js:21-38 | unconfigured: fails and stores nothing; otherwise stores the placed order under the fresh key and returns it with that key as `id` |
| Orders.Lookup | src/firebase/ordersService.js:41-53 | `getOrder` (and `getRider`, lines 265-277, on the riders collection): a record exists exactly when the store is configured and the key is present; it holds every stored field, and `id` is the key unless stored otherwise |
| Orders.StatusUpdated | src/firebase/ordersService.js:61-65 | status and `updatedAt` are written, then `additionalData`, which wins even over the status; all other fields are kept |
| Orders.UpdateOutcome | src/firebase/ordersService.js:57-59 | an update succeeds exactly when the store is configured and the document exists |
| Orders.OrderStore.UpdateOrderStatus | src/firebase/ordersService.js:56-67 | on success only that order changes, to `StatusUpdated`; on failure nothing changes |
| Orders.AnyStatusCanBeWritten | src/firebase/ordersService.js:56-81 | no transition guard: any status can be written over any status, and assigning a rider always yields `dispatched` |
| Orders.RiderAssigned | src/firebase/ordersService.js:75-79 | the rider id is set and the status becomes `dispatched` whatever it was; other fields except `updatedAt` are kept |
| Orders.OrderStore.AssignRider | src/firebase/ordersService.js:70-81 | on success only that order changes, to `RiderAssigned`; on failure nothing changes |
| Orders.RiderLocated | src/firebase/ordersService.js:89-92 | only `location` and `lastUpdate` change on the rider |
| Orders.OrderStore.UpdateRiderLocation | src/firebase/ordersService.js:84-94 | on success only that rider changes, to `RiderLocated`; on failure nothing changes |
| Orders.OrderLocated | src/firebase/ordersService.js:102-105 | only `riderLocation` and `updatedAt` change; in particular the order's status is untouched |
| Orders.OrderStore.UpdateOrderRiderLocation | src/firebase/ordersService.js:97-107 | on success only that order changes, to `OrderLocated`; on failure nothing changes |
| Orders.RiderRefreshed | src/firebase/ordersService.js:249-253 | an existing rider gets the caller's data merged in and `lastUpdate = now`, which beats a `lastUpdate` in the data |
| Orders.NewRider | src/firebase/ordersService.js:255-260 | a new rider document holds `id = riderId` unless the data overrides it, the caller's data, and both stamps `now` |
| Orders.Upserted | src/firebase/ordersService.js:246-261 | a known key is updated in place; an unknown one adds a document under a fresh key, so the rider id never becomes a key |
| Orders.OrderStore.CreateOrUpdateRider | src/firebase/ordersService.js:241-262 | configured: the riders collection becomes `Upserted`; otherwise it fails and nothing changes |
| Orders.UpsertsKeepInserting | src/firebase/ordersService.js:246-260 | repeated calls for a rider id that is not a key insert a new document every time: after n calls there are n more documents and the key is still absent |
| Orders.LocationUpdate | src/firebase/ordersService.js:280-294 | no callback when unconfigured; otherwise the stored location when it is truthy and `null` in every other case |
| OrderQueries.Records | src/firebase/ordersService.js:141-144 | one record per returned document, in order, each the document's data with its key as `id` |
| OrderQueries.CreatedMillis | src/firebase/ordersService.js:177-178 | the sort key is a Timestamp's milliseconds or a number as stored, and 0 when `createdAt` is missing or falsy |
| OrderQueries.SortNewestFirst | src/firebase/ordersService.js:176-180 | the result is ordered by creation time, newest first, and is a permutation of the input |
| OrderQueries.SortKeepsIds | src/firebase/ordersService.js:176-180 | sorting neither loses nor invents an order id |
| OrderQueries.PermutationKeepsDistinctIds | src/firebase/ordersService.js:176-180 | reordering keeps a list free of duplicate ids |
| OrderQueries.AddMissing | src/firebase/ordersService.js:165-169 | the email pass pushes at most one record per email match |
| OrderQueries.AddMissingAddsOnlyNewIds | src/firebase/ordersService.js:166-167 | every record the email pass pushes has an id the phone matches do not hold |
| OrderQueries.AddMissingKeepsPrefix | src/firebase/ordersService.js:145-169 | the orders found by phone stay at the front, unchanged |
| OrderQueries.AddMissingCoversIds | src/firebase/ordersService.js:165-169 | after the merge, every email match's id is present |
| OrderQueries.AddMissingAddsNothingElse | src/firebase/ordersService.js:165-169 | the merge adds only orders from the email matches |
| OrderQueries.AddMissingKeepsIdsDistinct | src/firebase/ordersService.js:165-169 | the merge never adds a second order with an id already present |
| OrderQueries.CustomerOrders | src/firebase/ordersService.js:125-181 | empty when unconfigured or for an empty id; otherwise newest first, holding every phone match and an order for every email id, with nothing from elsewhere and no duplicate ids when the phone matches have none |
| OrderQueries.GetCustomerOrders | src/firebase/ordersService.js:125-181 | the accumulate, de-duplicate and sort loop returns exactly `CustomerOrders` |
| OrderQueries.EmailCopiesAreDropped | src/firebase/ordersService.js:165-169 | a record of the history whose id the phone query returned is always a phone record: the email query's copy of such an order never appears |
| OrderQueries.PhoneVersionWins | src/firebase/ordersService.js:165-169 | when both queries return an order id, the phone query's copy is returned and is the only record with that id |
| OrderQueries.PhoneMatchesAreReturned | src/firebase/ordersService.js:133-146 | every stored order whose `customerPhone` equals the id appears in the history |
| OrderQueries.RiderOrders | src/firebase/ordersService.js:184-206 | empty when unconfigured; fails when the query rejects; otherwise exactly the returned records, newest first |
| OrderQueries.AssignedOrderIsListed | src/firebase/ordersService.js:184-206 | after `assignRider`, the order is in that rider's list with status `dispatched` |
| RiderAuth.Matching | src/firebase/riderAuthService.js:96-100 | the query finds exactly the documents whose email equals the lower-cased address |
| RiderAuth.IsRiderAuthorized | src/firebase/riderAuthService.js:8-37 | fails closed when unconfigured, for an empty email or a rejected query; otherwise true exactly when some document holds the lower-cased email |
| RiderAuth.AuthorizedRiders | src/firebase/riderAuthService.js:40-56 | nothing when unconfigured or the query rejects; otherwise every document with its key, and nothing else |
| RiderAuth.NewAuthorization | src/firebase/riderAuthService.js:77-81 | the stored email is the lower-cased address, the name defaults to the address as given, and the creation date is kept |
| RiderAuth.AuthorizationStore.AddAuthorizedRider | src/firebase/riderAuthService.js:59-87 | fails when unconfigured or when the address in any casing is already listed; otherwise adds exactly the new document and returns its key, keeping all emails lower-case |
| RiderAuth.AddedRiderIsAuthorized | src/firebase/riderAuthService.js:59-87 | after an add, the address is authorised in any casing |
| RiderAuth.SecondAddIsRejected | src/firebase/riderAuthService.js:66-74 | after an add, adding the same address in any casing finds a match and is rejected |
| RiderAuth.StoredRiderIsAuthorized | src/firebase/riderAuthService.js:8-37 | with all stored emails lower-case, every stored non-empty email is authorised in any casing |
| RiderAuth.RemoveAsWritten | src/firebase/riderAuthService.js:90-114 | the removal always fails; the failure comes from the missing `delete` method exactly when the store is configured and the address is listed |
| RiderAuth.AsWrittenRemovalNeverRevokes | src/firebase/riderAuthService.js:107-110 | removing a listed address fails and leaves it authorised |
| RiderAuth.AsWrittenRemovalExample | src/firebase/riderAuthService.js:107-110 | concrete case: removing `Rider@Shop.ke` fails and leaves `rider@shop.ke` authorised, although deleting its document would revoke it |
| RiderAuth.WithoutEmail | src/firebase/riderAuthService.js:106-110 | deleting all matches removes exactly the matching documents and keeps the others unchanged |
| RiderAuth.AuthorizationStore.RemoveAuthorizedRider | src/firebase/riderAuthService.js:90-114 | fails when unconfigured or when nothing matches; otherwise deletes every matching document and nothing else |
| RiderAuth.RemovedRiderIsNotAuthorized | src/firebase/riderAuthService.js:90-114 | after removal the address is authorised in no casing, and every other address keeps its status |
| Text.Lower | src/firebase/riderAuthService.js:15 | lower-casing keeps the length and leaves no upper-case letter |
| Text.LowerIdempotent | src/firebase/riderAuthService.js:15 | lower-casing twice equals lower-casing once |
| Text.Contains | src/context/ProductContext.jsx:323-325 | `includes` holds exactly when the text occurs at some position |
| Text.Trim | src/pages/Admin.jsx:126-127 | `trim` leaves no whitespace at either end and never lengthens the string |
| Text.TrimIsPiece | src/pages/Admin.jsx:126 | a trimmed string is a contiguous piece of the original, and every character before and after that piece is white space, so only surrounding white space is removed |
| Text.Split | src/pages/Admin.jsx:126 | `split` gives at least one piece, and no piece holds the separator |
| Text.Join | src/pages/Admin.jsx:81 | joining nothing gives "" and joining one string gives that string |
| Text.SplitJoin | src/pages/Admin.jsx:81 | splitting a join by its separator gives the pieces back when none of them holds the separator |
| Text.JoinSplit | src/pages/Admin.jsx:126 | joining a split with the separator gives back the original string |
| Lists.Filter | src/context/ProductContext.jsx:296 | `filter` keeps exactly the elements that pass, with their multiplicities |
| Catalogue.Normalised | src/context/ProductContext.jsx:271 | a bare colour name becomes an available colour of that name, and a record is kept |
| Catalogue.NormaliseAll | src/context/ProductContext.jsx:283-285 | every entry becomes a record equal to its normal form, and the length is kept |
| Catalogue.NormaliseCurrent | src/context/ProductContext.jsx:283-285 | normalising a list already in the current format changes nothing |
| Catalogue.MigrateColors | src/context/ProductContext.jsx:237-243 | a non-empty list whose first entry is a bare name is converted entry by entry; every other list is kept |
| Catalogue.Migrate | src/context/ProductContext.jsx:236-245 | after migration the type is set ("crocs" when missing, kept otherwise), colours are migrated, and no other field changes |
| Catalogue.MigrateAll | src/context/ProductContext.jsx:236-245 | each stored product is migrated, in place |
| Catalogue.MigrateIdempotent | src/context/ProductContext.jsx:236-245 | migrating twice equals migrating once, so reloading migrated data changes nothing |
| Catalogue.DefaultsAreCurrent | src/context/ProductContext.jsx:14-223 | the default products are already in the current format, have distinct ids, and are all visible |
| Catalogue.ProductCatalogue.constructor | src/context/ProductContext.jsx:229-257 | loading yields the migrated saved list, or the defaults when nothing readable is saved |
| Catalogue.NewProduct | src/context/ProductContext.jsx:265-272 | the new product takes the clock as id; images default to `[image]`, the type to "crocs", and colours are normalised (a missing list becomes []); every other field is the draft's |
| Catalogue.ProductCatalogue.AddProduct | src/context/ProductContext.jsx:264-276 | exactly one product, `NewProduct`, is appended at the end and returned |
| Catalogue.Merged | src/context/ProductContext.jsx:280-288 | every field the update carries wins and every field it leaves out keeps the product's value; a carried colour list is normalised, the id is kept, and an empty update changes nothing |
| Catalogue.MergeIdempotent | src/context/ProductContext.jsx:280-288 | applying the same update twice equals applying it once |
| Catalogue.UpdatedById | src/context/ProductContext.jsx:278-293 | the list keeps its length and ids; products with the id are merged and the rest are unchanged |
| Catalogue.UpdateOfMissingId | src/context/ProductContext.jsx:278-293 | updating an absent id leaves the list as it was |
| Catalogue.ProductCatalogue.UpdateProduct | src/context/ProductContext.jsx:278-293 | the products become `UpdatedById` of the old list |
| Catalogue.WithoutId | src/context/ProductContext.jsx:295-298 | exactly the products with another id remain, with their multiplicities |
| Catalogue.DeleteUndoesAdd | src/context/ProductContext.jsx:264-298 | deleting the product just added restores the list when its clock id was unused |
| Catalogue.ProductCatalogue.DeleteProduct | src/context/ProductContext.jsx:295-298 | the products become `WithoutId` of the old list |
| Catalogue.Featured | src/context/ProductContext.jsx:304-306 | exactly the featured visible products, with their multiplicities |
| Catalogue.Charms | src/context/ProductContext.jsx:314-316 | exactly the visible charms, with their multiplicities |
| Catalogue.ByCategory | src/context/ProductContext.jsx:308-312 | no category or "All" gives every visible product, "Accessories" the charms, and any other category the visible crocs in it; nothing hidden is ever listed |
| Catalogue.Search | src/context/ProductContext.jsx:318-328 | an empty query gives every visible product; otherwise the visible products whose name, description or category contains the query, ignoring case |
| Catalogue.SearchIgnoresCase | src/context/ProductContext.jsx:320 | searching for a query equals searching for its lower-cased form |
| Catalogue.SearchWithinCatalogue | src/context/ProductContext.jsx:318-328 | search results are always among the visible products, and an empty query returns all of them |
| Admin.AdminPanel.constructor | src/pages/Admin.jsx:12-27 | the editor opens with the blank form and no product under edit |
| Admin.SavedSizes | src/pages/Admin.jsx:126 | a product that is not crocs saves no sizes; every saved size is non-empty, comma-free and trimmed |
| Admin.SizePieces | src/pages/Admin.jsx:126 | splitting, trimming and dropping empties yields only non-empty, comma-free, trimmed sizes |
| Admin.SizesRoundTrip | src/pages/Admin.jsx:81-126 | saving the text the editor shows (sizes joined by ", ") gives back exactly those sizes |
| Admin.SavedColors | src/pages/Admin.jsx:127 | exactly the colours whose trimmed name is non-empty are saved, with their multiplicities |
| Admin.EditColors | src/pages/Admin.jsx:68-73 | the editor's colour list is the product's colours normalised one for one, or [] when missing |
| Admin.ColorsRoundTrip | src/pages/Admin.jsx:68-127 | a current-format list with named colours comes back unchanged through edit and save |
| Admin.ColorChanged | src/pages/Admin.jsx:92-100 | only the entry at the index changes, and only in the named field; any other field name changes nothing |
| Admin.AdminPanel.ChangeColor | src/pages/Admin.jsx:92-100 | the form's colours become `ColorChanged` and nothing else in the form changes |
| Admin.AdminPanel.AddColor | src/pages/Admin.jsx:102-107 | one blank, available colour is appended to the form and nothing else changes |
| Admin.WithoutIndex | src/pages/Admin.jsx:109-112 | exactly the entry at the index is removed and the rest keep their order; an index outside the list removes nothing |
| Admin.AdminPanel.RemoveColor | src/pages/Admin.jsx:109-112 | the form's colours become `WithoutIndex` and nothing else in the form changes |
| Admin.RemoveUndoesAdd | src/pages/Admin.jsx:102-112 | removing the colour just added restores the list |
| Admin.BlankColorIsNotSaved | src/pages/Admin.jsx:102-127 | a colour just added and left blank is dropped on save |
| Admin.EditForm | src/pages/Admin.jsx:75-88 | the form shows the sizes joined by ", ", normalised colours, the original price or "", and the type defaulted to "crocs" |
| Admin.AdminPanel.Edit | src/pages/Admin.jsx:65-90 | the product's id is under edit and the form is `EditForm` |
| Admin.ProductData | src/pages/Admin.jsx:120-134 | the saved product has no original price when the field is blank, the cleaned sizes, the named colours, and `[image]` as images |
| Admin.AsUpdate | src/pages/Admin.jsx:120-137 | the update sent for a saved form turns any product into the form's product under that product's id, with colours normalised and a missing image list keeping the old one |
| Admin.FullUpdateReplaces | src/pages/Admin.jsx:136-138 | an update carrying the whole form replaces every field of the edited product except its id |
| Admin.EditThenSaveRestores | src/pages/Admin.jsx:65-138 | for a product in the shape the editor saves, editing and then saving without changes restores it exactly |
| Admin.AdminPanel.Save | src/pages/Admin.jsx:114-144 | without a name or a price nothing changes; otherwise the edited product is updated and the edit ends, or a new product is appended when no truthy id is under edit, and the form is reset |
| Admin.Updating | src/pages/Admin.jsx:136 | a save updates exactly when an id is under edit and that id is truthy as a number (not 0) |
| Admin.Toggled | src/pages/Admin.jsx:172-174 | `available` becomes `sold-out` and anything else becomes `available`, so a known status always flips |
| Admin.ToggleTwice | src/pages/Admin.jsx:172-174 | toggling a known status twice restores it |
| Admin.StatusUpdate | src/pages/Admin.jsx:173 | applied to any product, the status toggle's update sets the status and changes nothing else |
| Admin.VisibilityUpdate | src/pages/Admin.jsx:177 | applied to any product, the visibility toggle's update sets the visibility and changes nothing else |
| Admin.ToggleChangesOnlyStatus | src/pages/Admin.jsx:172-174 | a status toggle changes the status of products with that id and nothing else |
| Admin.AdminPanel.ToggleStatus | src/pages/Admin.jsx:172-174 | the catalogue becomes the old list with that id's status toggled |
| Admin.AdminPanel.ToggleVisibility | src/pages/Admin.jsx:176-178 | the catalogue becomes the old list with that id's visibility negated |

## Left out

- Network and asynchrony are not modelled.
  - Every service call is one atomic step on the collections.
  - The check-then-act race in `createOrUpdateRider` and `addAuthorizedRider` is not modelled: two concurrent adds can both pass the duplicate check.
  - Rejections of writes for permission or network reasons are not modelled. `updateDoc` on a missing document is modelled (`Orders.UpdateOutcome`).
  - Read rejections are modelled only where the source handles them: caught in the customer history, authorisation check and rider list, and propagated in the rider's orders.
- `subscribeToOrder` and `subscribeToAllOrders` are not part of this model: they only forward snapshots to a callback. The unsubscribe handles are out as well. For `subscribeToRiderLocation` only the value handed to the callback is modelled (`Orders.LocationUpdate`).
- `getAllOrders` is not part of this model: its order comes from the store's server-side `orderBy('createdAt', 'desc')`, and the client only maps the documents to records.
- `getAllRiders` is not part of this model: it is a plain listing of the riders collection in the store's order, with no client logic beyond the record mapping (`OrderQueries.Records`).
- The clock is a parameter `now`.
  - One value stands for both `Timestamp.now()` calls of a write.
  - `new Date().toISOString()` is a caller-supplied string.
- Keys the store generates are a parameter required to be unused in the collection.
- `OrderQueries.CreatedMillis` treats every string, every object without `toMillis` and a missing `createdAt` as 0.
  - In JavaScript, a numeric string such as "200" takes part in `bTime - aTime` as its number. The model sorts it as 0 instead.
  - A non-numeric string or a plain object makes the comparator return NaN, so the resulting order is not modelled.
  - A timestamp of exactly 0 milliseconds falls back to the Timestamp object, which the model also does not cover.
- `OrderQueries.SortNewestFirst` states the order and the permutation, but not the stability of `Array.prototype.sort` between orders with the same time.
- `RiderAuth.AuthorizedRiders`: the store's order of the list is not modelled, so the result is a set.
- `Text.Lower` lower-cases ASCII letters only.
  - JavaScript's `toLowerCase` also maps other Unicode letters.
  - Addresses outside ASCII are therefore not modelled.
- Document paths, field-path dots and the store's value types are not modelled. `Geo` and `Other` stand for values the core only copies.
- Prices are kept as their decimal text.
  - `parseFloat` on save and `toString` on edit are not modelled.
  - `formatPrice` (currency formatting) is not part of this model.
- Persistence to `localStorage` is a constructor parameter: `None` stands for nothing saved or unreadable JSON. Writing the list back on each change is not modelled.
- `getProduct` is not part of this model: it parses the route parameter with `parseInt`.
- Catalogue.MigrateColors: differs from the source on a stored list that mixes bare names and records and starts with a name.
  - The source wraps every entry, so a record becomes a colour whose `name` is that record object.
  - The model keeps each record as it is, because a typed `Color` cannot hold an object as its name.
- Catalogue.Merged: an `updates` object carrying its own `id` is not modelled; the admin panel never sends one.
- Admin panel parts not modelled:
  - login with the fixed password, logout and image upload (file reading);
  - alerts and the confirmation dialog;
  - the `showAddForm` and `handleCancel` view state.
- `handleDelete` is `Catalogue.ProductCatalogue.DeleteProduct` once the dialog is confirmed.

## Findings

| source | as written | input that shows it | evidently intended | confidence | as-written member | corrected member |
|---|---|---|---|---|---|---|
| src/firebase/riderAuthService.js:107-110 | each matching document is deleted with `doc.ref.delete()`, but a modular-SDK `DocumentReference` has no `delete` method (the imported `deleteDoc` is unused), so the first match throws and nothing is deleted | collection `{a1: rider@shop.ke}`, `removeAuthorizedRider("Rider@Shop.ke")`: the call fails and the rider stays authorised | every document holding the lower-cased address is deleted, so the rider is no longer authorised in any casing | not executed | RiderAuth.RemoveAsWritten (with RiderAuth.AsWrittenRemovalExample) | RiderAuth.AuthorizationStore.RemoveAuthorizedRider (with RiderAuth.RemovedRiderIsNotAuthorized) |
