# QUIC-GEAR2 admin and auction client: a Dafny model

This project models the rules inside the QUIC-GEAR2 Next.js client: the auction
status lifecycle, the auction scheduling rules, the query-string filter forms
and their chips, the admin list operations on products, users and auctions,
two string helpers, and the access-control and session flow. Each rule is
written as a pure Dafny function. The effects the client performs are passed
in as parameters:

- Every network call becomes a `Net<T>` outcome (`Ok(value)` or `Failed`).
- Every confirmation dialog becomes a `bool`.
- `new Date()` becomes a `now` value.
- Environment variables and browser state (`localStorage`,
  `window.location`, the router) become plain parameters or plain fields of a
  state record.

Query strings follow section 6.2 of the WHATWG URL Standard (`URLSearchParams`).
They are modelled as a sequence of `(key, value)` pairs:

- `get` returns the first match.
- `set` replaces the first match and removes the rest, or appends a new pair.
- `delete` removes every match.

The modules:

| module | what it models |
|---|---|
| `Wrappers`, `Text`, `Words`, `Lists` | shared helpers: options, network outcomes, decimal printing, the whitespace tokeniser behind `trim().split(/\s+/)`, and remove-by-id / update-by-id on lists |
| `QueryParams`, `FilterSync` | URLSearchParams, and the `updateURL` loop that sets non-empty filter values and deletes empty ones |
| `ProductOptions`, `ProductFilterFields` | the option catalogues and the product filter keys and labels |
| `ProductFilters`, `AuctionFilters`, `FilterChips` | the two admin filter forms and their chip bars |
| `Pagination` | `PaginationAdmin` |
| `AuctionStatus`, `AuctionStyle`, `AdminAuctionActions` | the status lifecycle, its CSS classes, and the admin's status update |
| `AuctionValidation`, `AuctionCreate` | the date validators and the create-auction pipeline |
| `CountdownDisplay`, `AuctionCard`, `AuctionList`, `ListingQuery` | the countdown text, the card timer, the public listing and its query |
| `Entities`, `ProductEditor`, `ProductActions`, `AdminProductsPage`, `ProductCreate` | product records, the edit form, the product hooks and pages |
| `UserActions`, `AdminUsersPage`, `ImageUrl` | user deletion, `truncateWords`, and `getPublicImageUrl` |
| `Middleware`, `AuthToken`, `AuthContext`, `SignIn`, `SignUp` | the route guard, the token register, the interceptors, and the sign-in and sign-up forms |

Some behaviour of the source is modelled as written, even where it is
surprising:

- The middleware compares the profile's role with the literal `'ROLE.ADMIN'`.
  The `Role` enum value is `"ADMIN"`, so a user whose role is that enum value
  is sent to `/` from every `/admin` path (`Middleware.EnumAdminRefused`).
- The sign-in page calls a `setUser` that the auth context does not provide.
  So a successful login stores the token and then throws, and the page shows
  "Login Failed" without storing the user or navigating (`SignIn.HandleSubmit`).
  The handler with a working `setUser` is modelled as well, under
  `## Findings` below.
- The create-auction page imports its validators from
  `utils/auction/auctionValidation`. The model uses
  `src/utils/auctionValidation.ts`.
- The create-product page never registers its description textarea. So the
  payload description is always `""` (`ProductCreate.DescriptionAlwaysEmpty`).
- The admin status update writes any status. It never consults the transition
  table (`AdminAuctionActions.ForbiddenTransitionIsWritten`).
- The admin products page's `onSubmit` clears `editing` but does not reset the
  form. The hook version calls `closeModal`, which does both
  (`AdminProductsPage.SaveMatchesHook`).
- A retried request passes through the request interceptor again. That
  interceptor holds the access token of the render that installed it, which
  may be stale. The model makes that token the parameter `interceptorToken`.

## Model

| member | source | states |
|---|---|---|
| AuctionStatus.Parse | src/constants/auction/auctionStatus.ts:1 | a name parses to a status exactly when it is that status's wire name; any other string parses to nothing |
| AuctionStatus.NamesRoundTrip | src/constants/auction/auctionStatus.ts:1 | every status's wire name parses back to that status and is listed in `AUCTION_STATUS` |
| AuctionStatus.TableIsOverStatuses | src/constants/auction/auctionStatus.ts:1-8 | the transition table has an entry for exactly the four statuses, and every target is one of them |
| AuctionStatus.Successors | src/constants/auction/auctionStatus.ts:4-7 | CANCELED and END are terminal; IN_PROGRESS may only become CANCELED; WAITING_APPROVED may become IN_PROGRESS or CANCELED |
| AuctionStatus.CanTransition | src/constants/auction/auctionStatus.ts:3-8 | a status offered as next differs from the current one and is neither WAITING_APPROVED nor END |
| AuctionStatus.NoSelfOrEntryTransitions | src/constants/auction/auctionStatus.ts:3-8 | no status follows itself, and nothing leads into WAITING_APPROVED or END |
| AuctionStatus.TransitionsMoveForward | src/constants/auction/auctionStatus.ts:3-8 | each allowed transition strictly increases the lifecycle rank, so the relation has no cycle |
| AuctionStatus.ChainRankGrows | src/constants/auction/auctionStatus.ts:3-8 | along a chain of allowed transitions, the last status's rank is at least the number of steps |
| AuctionStatus.ChainRanksIncrease | src/constants/auction/auctionStatus.ts:3-8 | along a chain, a later status always has a higher rank than an earlier one |
| AuctionStatus.ChainsAreShort | src/constants/auction/auctionStatus.ts:3-8 | every chain of transitions has at most two steps and visits no status twice |
| AuctionStyle.StatusClass | src/utils/auction/auctionStyle.ts:3-16 | each of the four statuses gets its fixed class string; any other value gets the gray default; the result is never empty |
| AuctionStyle.StatusClassesDistinct | src/utils/auction/auctionStyle.ts:5-12 | two different statuses never share a class string |
| AdminAuctionActions.UpdateAuctionStatus | src/hooks/admin/auctions/useAdminAuctionActions.ts:7-22 | a failed PATCH leaves the list as it was; otherwise every auction with the id gets the new status with all other fields kept, and the other auctions, the length and the order are untouched |
| AdminAuctionActions.UpdateIdempotent | src/hooks/admin/auctions/useAdminAuctionActions.ts:13-15 | applying the same status update twice equals applying it once |
| AdminAuctionActions.ForbiddenTransitionIsWritten | src/hooks/admin/auctions/useAdminAuctionActions.ts:7-15 | an END auction can be set back to WAITING_APPROVED although the transition table forbids it |
| AuctionValidation.ValidateStartDate | src/utils/auctionValidation.ts:4-12 | a start at or before now is rejected as past, whatever the end; a later start on or after a set end is rejected as not before the end; the date is accepted iff it is after now and before the end, if any |
| AuctionValidation.ValidateEndDate | src/utils/auctionValidation.ts:14-22 | an end at or before now is rejected as past; an end at or before a set start is rejected as not after the start; the date is accepted iff it is after now and after the start, if any |
| AuctionValidation.SameOrderingsRejected | src/utils/auctionValidation.ts:9-19 | for two future dates, each validator rejects exactly when start is at or after end, so they reject the same orderings |
| AuctionValidation.BothAcceptOrdersDates | src/utils/auctionValidation.ts:4-22 | when both validators accept, now < start < end |
| AuctionValidation.OrderedFutureDatesAccepted | src/utils/auctionValidation.ts:4-22 | conversely, now < start < end makes both validators accept |
| AuctionCreate.BuildProductPayload | src/app/auction/create/page.tsx:48-57 | the flags are true iff their radio strings are "true"; `imgPath` is the uploaded URLs; a missing description becomes ""; the text fields are copied |
| AuctionCreate.BuildAuctionPayload | src/app/auction/create/page.tsx:64-74 | `productId` is the id product creation returned; the seller id is present iff a user is signed in; the prices and dates are copied |
| AuctionCreate.Submit | src/app/auction/create/page.tsx:29-93 | an invalid form sends nothing; otherwise upload, product and auction are requested in that order, each only after the previous one succeeded; the form resets iff all three succeed, and any failure shows the error alert |
| AuctionCreate.FailureStopsPipeline | src/app/auction/create/page.tsx:29-93 | a failed upload stops after one request; a failed product creation stops after two; otherwise all three requests are sent |
| AuctionCreate.FormValid | src/app/auction/create/page.tsx:102-229 | a form that passes the rules has both dates, with now < start < end |
| AuctionCreate.SubmittedFormIsSane | src/app/auction/create/page.tsx:161-229 | a form that passes validation has non-negative prices, at least one image, and now < start < end |
| CountdownDisplay.Pad | src/utils/auction/displayCountDownDate.ts:2 | a value from 0 to 9 gets exactly one leading '0'; values of 10 or more print unchanged; a negative value prints as "0-…" |
| CountdownDisplay.DisplayCountDown | src/utils/auction/displayCountDownDate.ts:1-3 | with h, m and s between 0 and 99, the text is the unpadded days plus exactly 14 characters |
| CountdownDisplay.FieldWidth | src/utils/auction/displayCountDownDate.ts:2 | a field from 0 to 99 prints as exactly two digits, which read back as the same value |
| CountdownDisplay.ParseCountDown | src/utils/auction/displayCountDownDate.ts:2 | the parser accepts only text with " days " before an hh:mm:ss tail, and returns fields of at most 99 |
| CountdownDisplay.TwoDigitsBelowHundred | src/utils/auction/displayCountDownDate.ts:2 | two decimal digits denote at most 99 |
| CountdownDisplay.Layout | src/utils/auction/displayCountDownDate.ts:2 | the text is laid out as days, " days ", then three two-character fields separated by ':' |
| CountdownDisplay.RoundTrip | src/utils/auction/displayCountDownDate.ts:2 | for naturals with h, m and s at most 99, the text parses back to the same (d, h, m, s) |
| CountdownDisplay.NegativeFieldShowsZeroMinus | src/utils/auction/displayCountDownDate.ts:2 | a negative field is below 10, so it is prefixed with '0' and shows as "0-…" |
| AuctionCard.Clamp | src/components/auction/AuctionCard.tsx:23-29 | every clamped field is non-negative; a field already non-negative is unchanged; the clamped total is at most 0 iff the reading's is |
| AuctionCard.Mount | src/components/auction/AuctionCard.tsx:18-20 | a new card shows the unclamped initial reading and its timer is running |
| AuctionCard.Tick | src/components/auction/AuctionCard.tsx:21-37 | a stopped card ignores ticks; a running card shows the clamped reading; it calls `onExpire` with its own id iff the reading's total is at most 0, and then stops |
| AuctionCard.ExpiresAtMostOnce | src/components/auction/AuctionCard.tsx:33-36 | over any run of ticks, `onExpire` is called at most once, always with the card's id, and it is called iff the card was running and some reading had expired |
| AuctionCard.StoppedCardStaysQuiet | src/components/auction/AuctionCard.tsx:34-39 | once the interval is cleared, no tick changes the card or calls `onExpire` |
| AuctionList.Load | src/app/auction/page.tsx:11-27 | loading ends; a failed fetch leaves the list at its initial empty value; otherwise the list is the fetched auctions |
| AuctionList.HandleAuctionExpire | src/app/auction/page.tsx:31-34 | no auction with the expired id remains; every other auction remains with its multiplicity |
| AuctionList.ExpireKeepsOrder | src/app/auction/page.tsx:32 | removal distributes over concatenation, so the survivors keep their order |
| AuctionList.ExpireAbsentId | src/app/auction/page.tsx:32 | expiring an id no auction carries leaves the list unchanged |
| AuctionList.ExpireTwice | src/app/auction/page.tsx:32 | expiring the same id twice equals expiring it once |
| ListingQuery.BuildQuery | src/hooks/auction/useAuctions.ts:14-29 | `page`, `limit`, `auctionStatus=IN_PROGRESS`, `startDateTo=now` and `endDateFrom=now` each appear exactly once; every other key keeps its values and position |
| ListingQuery.StatusAlwaysInProgress | src/hooks/auction/useAuctions.ts:21-29 | whatever the incoming params, the status read back is IN_PROGRESS, and both date bounds read back as the same instant |
| ListingQuery.Fetch | src/hooks/auction/useAuctions.ts:31-38 | a failed request gives an empty list and one page; otherwise the response's list and page count |
| Pagination.GoToPage | src/components/paginations/PaginationAdmin.tsx:11-13 | the page changes to the request iff 1 ≤ request ≤ totalPages, and stays otherwise |
| Pagination.ClickPrev | src/components/paginations/PaginationAdmin.tsx:11-17 | a click on "previous" either leaves the page or moves to the page before it, which is then in range; it moves iff the page is not 1 and the page before is in range |
| Pagination.ClickNext | src/components/paginations/PaginationAdmin.tsx:11-21 | a click on "next" either leaves the page or moves to the page after it, which is then in range; it moves iff the page is not the last and the page after is in range |
| Pagination.StaysInRange | src/components/paginations/PaginationAdmin.tsx:12-21 | from a page in [1, totalPages], either click leaves the page in that range |
| Pagination.EnabledClickMovesByOne | src/components/paginations/PaginationAdmin.tsx:17-21 | previous is disabled iff page is 1 and next iff page is totalPages; an enabled click moves by exactly one, and a disabled one leaves the page alone |
| Pagination.PrevThenNext | src/components/paginations/PaginationAdmin.tsx:12-21 | for 1 < page ≤ totalPages, previous then next returns to the same page |
| Pagination.OutOfRangeIgnored | src/components/paginations/PaginationAdmin.tsx:12 | an out-of-range request leaves the page unchanged |
| QueryParams.Get | src/components/filter/AdminProductFilters.tsx:15-21 | `get` returns the first value under the key, or nothing when there is none |
| QueryParams.Delete | src/components/filter/AdminProductFilters.tsx:28 | after `delete`, the key has no value, every other key's values are unchanged, and the other pairs keep their order |
| QueryParams.FirstIndex | src/components/filter/AdminProductFilters.tsx:27 | the position of the first pair with the key: that pair has the key and no earlier pair does |
| QueryParams.SetFirst | src/components/filter/AdminProductFilters.tsx:27 | on a present key, `set` leaves exactly the new value under it, every other key's values unchanged, and the pairs with other keys in their order |
| QueryParams.Set | src/components/filter/AdminProductFilters.tsx:27 | after `set`, the key has exactly the new value and the pairs with other keys keep their order; a present key's first pair is overwritten in its place, with the pairs before it unchanged and the later pairs with the key removed; an absent key is appended at the end |
| QueryParams.ValuesAppend | src/components/filter/AdminProductFilters.tsx:25 | the values under a key of a concatenation are those of each part, in turn |
| QueryParams.WithoutAppend | src/components/filter/AdminProductFilters.tsx:25 | dropping a key set distributes over concatenation |
| QueryParams.WithoutWithout | src/components/filter/AdminProductFilters.tsx:25 | dropping one key set and then another equals dropping their union |
| QueryParams.SetKeepsOthers | src/components/filter/AdminProductFilters.tsx:25-27 | `set` of a key in a set leaves the pairs outside the set untouched |
| QueryParams.DeleteKeepsOthers | src/components/filter/AdminProductFilters.tsx:25-28 | `delete` of a key in a set leaves the pairs outside the set untouched |
| QueryParams.SetNoop | src/components/filter/AdminProductFilters.tsx:27 | setting a key to the only value it already has changes nothing |
| QueryParams.DeleteNoop | src/components/filter/AdminProductFilters.tsx:28 | deleting an absent key changes nothing |
| FilterSync.Step | src/components/filter/AdminProductFilters.tsx:26-29 | one `forEach` step leaves the key holding just its value when that value is non-empty, and nothing when it is empty; other keys are unchanged |
| FilterSync.Field | src/components/filter/AdminProductFilters.tsx:15-21 | `searchParams.get(key) ?? ''` is the first value under the key, or "" when there is none |
| FilterSync.ApplyOtherKey | src/components/filter/AdminProductFilters.tsx:26-29 | the loop leaves a key it never visits unchanged |
| FilterSync.ApplyAgrees | src/components/filter/AdminProductFilters.tsx:26-29 | with distinct keys, after the loop each non-empty value is the key's only value and each empty one is absent |
| FilterSync.ApplyKeepsOthers | src/components/filter/AdminProductFilters.tsx:25-29 | the loop keeps every pair whose key is not a filter key, in order |
| FilterSync.ApplyNoop | src/components/filter/AdminProductFilters.tsx:24-31 | params that already agree with the filters are not changed by the loop |
| FilterSync.ApplyIdempotent | src/components/filter/AdminProductFilters.tsx:24-31 | running the loop on its own output changes nothing |
| FilterSync.ReadBack | src/components/filter/AdminProductFilters.tsx:24-48 | after the loop, reading any filter key gives back that filter's value |
| ProductFilters.EntriesShape | src/components/filter/AdminProductFilters.tsx:14-22 | the state has seven distinct keys, exactly the product filter keys |
| ProductFilters.Read | src/components/filter/AdminProductFilters.tsx:14-48 | each of the seven values is the key's first param value, or "" when the key is absent |
| ProductFilters.UpdateUrl | src/components/filter/AdminProductFilters.tsx:24-31 | each non-empty filter value is the only value of its key, each empty one is absent, and pairs with other keys are kept in order |
| ProductFilters.ChangeType | src/components/filter/AdminProductFilters.tsx:55 | choosing a type sets it, resets the sub-type to "", and leaves the other five values unchanged |
| ProductFilters.RoundTrip | src/components/filter/AdminProductFilters.tsx:24-48 | reading back the params that `updateURL` produces gives the same filter record |
| ProductFilters.UpdateIdempotent | src/components/filter/AdminProductFilters.tsx:24-31 | `updateURL` applied to its own output changes nothing |
| ProductFilters.SyncSettles | src/components/filter/AdminProductFilters.tsx:33-49 | after one rewrite of the URL from the state read off it, reading and writing again change nothing |
| ProductFilters.KeysMatchChipKeys | src/constants/product/productFilterFields.ts:1-9 | the form's seven state fields are exactly the chip bar's filter keys |
| AuctionFilters.Entries | src/components/filter/AdminAuctionFilters.tsx:15-30 | the entries are the fourteen keys, in declaration order, each with its field's value |
| AuctionFilters.KeysDistinct | src/components/filter/AdminAuctionFilters.tsx:15-30 | there are exactly fourteen pairwise distinct keys |
| AuctionFilters.EntriesShape | src/components/filter/AdminAuctionFilters.tsx:15-30 | the entries have distinct keys, exactly the auction filter keys |
| AuctionFilters.Read | src/components/filter/AdminAuctionFilters.tsx:15-63 | each of the fourteen values is the key's first param value, or "" when the key is absent |
| AuctionFilters.UpdateUrl | src/components/filter/AdminAuctionFilters.tsx:32-39 | non-empty values are set, empty ones deleted, and pairs with other keys kept in order |
| AuctionFilters.ChangeType | src/components/filter/AdminAuctionFilters.tsx:69 | choosing a type sets it, resets the sub-type, and leaves the other twelve values unchanged |
| AuctionFilters.PickStartDateFrom | src/components/filter/AdminAuctionFilters.tsx:142-146 | clearing the start-from picker stores ""; a picked date stores its text; nothing else changes |
| AuctionFilters.RoundTrip | src/components/filter/AdminAuctionFilters.tsx:32-63 | filters to params to filters gives the same record |
| AuctionFilters.UpdateIdempotent | src/components/filter/AdminAuctionFilters.tsx:32-39 | `updateURL` applied to its own output changes nothing |
| AuctionFilters.SyncSettles | src/components/filter/AdminAuctionFilters.tsx:41-63 | after one rewrite of the URL from the state read off it, reading and writing again change nothing |
| FilterChips.ActiveFilters | src/components/filter/AdminProductFilterChips.tsx:21-23 | a chip is listed iff its key is one of the keys and its first param value is non-empty, and it carries that value |
| FilterChips.ActiveFiltersInKeyOrder | src/components/filter/AdminProductFilterChips.tsx:21-23 | the active filters of concatenated key lists are those of each list, in turn, so chips follow key order |
| FilterChips.NothingRenderedWhenInactive | src/components/filter/AdminProductFilterChips.tsx:37 | the active list is empty iff no key has a non-empty value |
| FilterChips.ClearFilter | src/components/filter/AdminProductFilterChips.tsx:25-29 | clearing a chip keeps the path, removes every pair with that key, and keeps all other pairs in order |
| FilterChips.DeleteEach | src/components/filter/AdminProductFilterChips.tsx:32-33 | deleting each key in turn removes exactly those keys and keeps every other pair in order |
| FilterChips.DisplayValue | src/components/filter/AdminProductFilterChips.tsx:42-52 | "true" shows as Yes and "false" as No; other numeric values show as currency; anything else shows raw |
| FilterChips.Label | src/components/filter/AdminProductFilterChips.tsx:60 | a chip's label is the key's label when it has a non-empty one, and the raw key otherwise |
| FilterChips.ProductChips | src/components/filter/AdminProductFilterChips.tsx:21-70 | nothing is rendered iff no product filter is active; otherwise there is one chip per active filter, in key order, with its label and display value |
| FilterChips.ClearAllProducts | src/components/filter/AdminProductFilterChips.tsx:31-35 | "Clear all" navigates to /admin/products with no query |
| FilterChips.ClearAllDropsUnmanagedParams | src/components/filter/AdminProductFilterChips.tsx:31-35 | "Clear all" drops params no chip manages, although the params it computes first would have kept them |
| FilterChips.AuctionChipKeysMatchForm | src/components/filter/AdminAuctionFilterChips.tsx:9-13 | the auction chip keys are the fourteen keys the auction filter form manages, in the same order |
| FilterChips.AuctionChips | src/components/filter/AdminAuctionFilterChips.tsx:22-41 | nothing is rendered iff no auction filter is active; otherwise the active key–value pairs in key order |
| FilterChips.ClearAllAuctions | src/components/filter/AdminAuctionFilterChips.tsx:43 | "Clear all" navigates to /admin/auctions with no query |
| ProductFilterFields.KeysDistinct | src/constants/product/productFilterFields.ts:1-9 | there are exactly seven pairwise distinct filter keys |
| ProductFilterFields.LabelsCoverKeys | src/constants/product/productFilterFields.ts:11-19 | the label map's domain is exactly the key set, and every label is non-empty |
| ProductOptions.ListsAreDistinct | src/constants/productOptions.ts:3-10 | there are ten distinct brands and five distinct types |
| ProductOptions.SubTypeMapCoversTypes | src/constants/productOptions.ts:8-18 | the sub-type map's keys are exactly the five types |
| ProductOptions.SubTypeListsWellFormed | src/constants/productOptions.ts:12-18 | every sub-type list is non-empty and duplicate-free |
| ProductOptions.SubTypeIsShared | src/constants/productOptions.ts:13-17 | "Accessory" is a sub-type of Headphone, Mouse and Streaming, so a sub-type does not determine its type |
| Lists.RemoveKey | src/app/auction/page.tsx:32 | removal by id keeps exactly the elements with another id, each with its multiplicity |
| Lists.RemoveKeyKeepsOrder | src/hooks/admin/users/useAdminUserActions.ts:22 | removal by id distributes over concatenation, so survivors keep their order |
| Lists.RemoveAbsentKey | src/hooks/admin/users/useAdminUserActions.ts:22 | removing an id no element carries changes nothing |
| Lists.RemoveKeyIdempotent | src/app/auction/page.tsx:32 | removing an id twice equals removing it once |
| Lists.UpdateKey | src/hooks/admin/useAdminProductActions.ts:95-97 | update by id keeps length and order, changes every element with the id, and leaves the others alone |
| Lists.UpdateKeyIdempotent | src/hooks/admin/auctions/useAdminAuctionActions.ts:13-15 | an idempotent, id-preserving change applied twice by id equals applying it once |
| ProductEditor.EncodeBool | src/hooks/admin/useAdminProductEditor.ts:34-35 | `toString` of a boolean is "true" for true and "false" for false |
| ProductEditor.DecodeBool | src/app/admin/products/page.tsx:103-104 | `=== 'true'` holds exactly for the string "true"; every submit handler reads its radio flags this way |
| ProductEditor.BoolRoundTrip | src/app/admin/products/page.tsx:86-104 | decoding an encoded boolean gives it back |
| ProductEditor.EditForm | src/hooks/admin/useAdminProductEditor.ts:28-38 | name, price, type, sub-type, brand, stock and description are copied; the flags are encoded as "true"/"false"; no files are selected |
| ProductEditor.OpenEdit | src/hooks/admin/useAdminProductEditor.ts:26-39 | opening the editor sets `editing` to the product and fills the form from it |
| ProductEditor.CloseModal | src/hooks/admin/useAdminProductEditor.ts:21-24 | closing clears `editing` and puts the form back to its default values, which are the values of the last `reset(values)` and stay the defaults |
| ProductEditor.OpenEditDecodes | src/hooks/admin/useAdminProductEditor.ts:34-35 | decoding the form's flags recovers the product's booleans |
| ProductEditor.CloseModalKeepsOpenedValues | src/hooks/admin/useAdminProductEditor.ts:21-39 | closing after opening a product leaves that product's values in the form, since `reset(values)` made them the defaults; closing twice equals closing once; the next `openEdit` overwrites whatever a closed modal holds |
| ProductActions.HandleDeleteProduct | src/hooks/admin/useAdminProductActions.ts:8-39 | declining sends nothing and keeps the list; the image delete is sent iff confirmed and the product has images, and first; the product delete follows only if that succeeded; on success exactly the products with the id go |
| ProductActions.DeleteKeepsOrder | src/hooks/admin/useAdminProductActions.ts:34 | a successful delete distributes over concatenation, so the other products keep their order |
| ProductActions.BasePayload | src/hooks/admin/useAdminProductActions.ts:45-55 | the flags are true iff their strings are "true"; a missing description becomes ""; the other fields are copied; there is no `imgPath` |
| ProductActions.UpdatePayload | src/hooks/admin/useAdminProductActions.ts:58-86 | `imgPath` is present iff files were chosen, and is then the uploaded URLs or []; everything else is the base payload |
| ProductActions.Merge | src/hooks/admin/useAdminProductActions.ts:96 | the payload's fields overwrite the product's; id, rating and total orders survive, and so do the images when the payload has none |
| ProductActions.HandleUpdateProduct | src/hooks/admin/useAdminProductActions.ts:41-105 | nothing happens without an edited product; the modal closes iff every request succeeds; on failure the list is unchanged; on success only products with the edited id are merged; uploads happen only when files were chosen, and come first; the old images are deleted iff files were chosen and the upload succeeded; the PATCH of the edited id with the update payload is sent iff there is an edited product and either no files were chosen or the upload and the old-image delete both succeeded, and it is then the last request |
| ProductActions.UpdateWithoutFilesKeepsImages | src/hooks/admin/useAdminProductActions.ts:45-96 | an update without new files keeps the edited product's images |
| ProductActions.UnchangedFormRewritesProduct | src/hooks/admin/useAdminProductActions.ts:96 | merging a payload equal to the product's own fields gives the product back |
| AdminProductsPage.Load | src/app/admin/products/page.tsx:35-48 | loading ends; a failed fetch leaves the list empty; otherwise the list is the fetched products |
| AdminProductsPage.HandleDelete | src/app/admin/products/page.tsx:51-76 | declining does nothing; the image delete is sent iff confirmed and the product has images; on success only products with the id are removed; the editor is untouched |
| AdminProductsPage.OpenEdit | src/app/admin/products/page.tsx:78-91 | opening sets `editing` and fills the form from the product; the list is unchanged |
| AdminProductsPage.FormValid | src/app/admin/products/page.tsx:202-281 | a form that passes the modal's rules has a non-negative price and stock |
| AdminProductsPage.OpenedProductValid | src/app/admin/products/page.tsx:78-91 | the form `openEdit` fills passes the rules iff the product has a name, type, sub-type and brand and a non-negative price and stock |
| AdminProductsPage.Save | src/app/admin/products/page.tsx:93-154 | an invalid form or no edited product does nothing; the form is never reset; `editing` is cleared iff every request succeeds; otherwise the list is unchanged |
| AdminProductsPage.SaveMatchesHook | src/app/admin/products/page.tsx:93-154 | the page's save sends requests to the same endpoints with the same payloads, in the same order, and produces the same list as the hook's update; on success it clears `editing` but keeps the form |
| AdminProductsPage.NegativeValuesRejected | src/app/admin/products/page.tsx:210-267 | a negative price or stock blocks the save: no request and no change |
| AdminProductsPage.EditRoundTripFlags | src/app/admin/products/page.tsx:86-104 | opening a product and saving its untouched form without new files keeps the product's wireless and RGB flags, because the string encoding decodes back |
| ProductCreate.FormValid | src/app/product/create/page.tsx:77-150 | the create form's rules are exactly the edit modal's rules plus at least one chosen image |
| ProductCreate.Submitted | src/app/product/create/page.tsx:159 | the submitted form has no description, because the textarea is not registered; every other field is as entered |
| ProductCreate.BuildPayload | src/app/product/create/page.tsx:40-51 | the flags are true iff their strings are "true"; `imgPath` is the uploaded URLs; price and stock are copied as numbers; a missing description becomes "" |
| ProductCreate.Submit | src/app/product/create/page.tsx:23-69 | an invalid form sends nothing; the upload comes first; creation is requested iff the upload succeeded, with the uploaded URLs; the form resets iff both succeed |
| ProductCreate.DescriptionAlwaysEmpty | src/app/product/create/page.tsx:50-159 | whatever was typed, the created product's description is "" |
| UserActions.HandleUserDelete | src/hooks/admin/users/useAdminUserActions.ts:7-40 | declining sends nothing and keeps the list; a failed request keeps the list; on success exactly the users with the id are removed |
| UserActions.DeleteKeepsOrder | src/hooks/admin/users/useAdminUserActions.ts:22 | a successful delete distributes over concatenation, so the other users keep their order |
| UserActions.DeleteAbsentId | src/hooks/admin/users/useAdminUserActions.ts:22 | deleting an id not in the list leaves it unchanged |
| AdminUsersPage.SliceTo | src/app/admin/users/page.tsx:31 | `slice(0, n)` keeps the first n words, all of them when n is too large, and counts from the end when n is negative |
| AdminUsersPage.TruncateWords | src/app/admin/users/page.tsx:27-32 | null or "" gives ""; text with at most `maxWords` words is returned untrimmed; longer text becomes its first words joined by single spaces, then "..." |
| AdminUsersPage.TruncatedHasMaxWords | src/app/admin/users/page.tsx:29-31 | in the truncated case, the result ends in "..." and the part before it has exactly `maxWords` words, the text's first ones |
| AdminUsersPage.ShortTextUnchanged | src/app/admin/users/page.tsx:29-30 | text with at most `maxWords` words comes back exactly as given |
| AdminUsersPage.LocalPublicImageUrl | src/app/admin/users/page.tsx:49-53 | a missing or empty path gives the default picture |
| AdminUsersPage.LocalMatchesShared | src/app/admin/users/page.tsx:49-53 | the page's own `getPublicImageUrl` agrees with the shared one on every input |
| AdminUsersPage.HandleDelete | src/app/admin/users/page.tsx:55-88 | declining does nothing; a failed request keeps the list; on success exactly the users with the id are removed |
| ImageUrl.PublicHost | src/utils/getPublicImageUrl.ts:2 | the host is the environment value when set and non-empty, and http://localhost:9001 otherwise |
| ImageUrl.ReplaceFirst | src/utils/getPublicImageUrl.ts:4 | without an occurrence of the pattern the text is unchanged; otherwise the first occurrence, and only it, is replaced, and the text before and after it is kept |
| ImageUrl.GetPublicImageUrl | src/utils/getPublicImageUrl.ts:1-5 | a missing or empty path gives /default-user.png; otherwise the first "minio:9001" is replaced by the public host |
| ImageUrl.NoInternalHostUnchanged | src/utils/getPublicImageUrl.ts:4 | a path without "minio:9001" is returned unchanged |
| ImageUrl.FirstOccurrenceReplaced | src/utils/getPublicImageUrl.ts:4 | in a + "minio:9001" + b, where the occurrence is the first, the result is a + host + b, so later occurrences in b survive |
| Middleware.IsPublic | src/middleware.ts:11-15 | no path starting with /admin is public, and neither is /auction/create |
| Middleware.ProtectedPrefixes | src/middleware.ts:11-15 | a path starting with /admin starts with none of /auth, /product and /auction; /auction/create starts with neither /auth nor /product |
| Middleware.Decide | src/middleware.ts:4-56 | paths starting with /auth, /product or /auction, other than /auction/create, pass; otherwise no cookie or a failed profile check goes to /auth/sign-in, an /admin path whose role is not 'ROLE.ADMIN' goes to /, and everything else passes |
| Middleware.PublicIgnoresSession | src/middleware.ts:11-17 | on a public path the decision does not depend on the cookie or the profile |
| Middleware.EnumAdminRefused | src/middleware.ts:42-44 | a user whose role is the enum value "ADMIN" is sent to / from every /admin path |
| Middleware.Matched | src/middleware.ts:58-66 | every path under /admin, and /auction/create, is matched; every matched path starts with /admin, /auth, /product or /auction |
| Middleware.Handle | src/middleware.ts:58-66 | paths outside the matcher pass untouched; matched paths get the route decision |
| Middleware.ProtectedRoutes | src/middleware.ts:11-66 | the only matched paths that are not public are under /admin or exactly /auction/create |
| Middleware.UnderIsPrefix | src/middleware.ts:58-66 | a path under a matcher segment starts with that segment |
| AuthToken.SetAccessToken | src/lib/authToken.ts:6-8 | after a set, the register holds that token |
| AuthToken.GetAccessToken | src/lib/authToken.ts:10-12 | reading returns the held token and does not change the register |
| AuthToken.InitiallyNull | src/lib/authToken.ts:4 | the token starts out null |
| AuthToken.SetThenGet | src/lib/authToken.ts:4-12 | a read after a set returns the set token; a later set overwrites an earlier one; reading twice equals reading once |
| AuthContext.RefreshAndLoadUser | src/context/AuthContext.tsx:26-51 | when both calls succeed, the token and user are set from them; if either fails, both become null; a user is never held without a token |
| AuthContext.AttachToken | src/context/AuthContext.tsx:61-66 | a request carries "Bearer <token>" iff the held token is non-empty; otherwise its header is unchanged |
| AuthContext.OnResponseError | src/context/AuthContext.tsx:68-104 | only a 401 on a request not yet retried triggers a refresh; on success the token is updated and a retry carries "Bearer <new token>"; on failure the session is cleared, the location is stored, and the app goes to /auth/sign-in; everything else is rejected unchanged |
| AuthContext.Send | src/context/AuthContext.tsx:61-102 | each sending consumes one server reply; the first sending is the request with the interceptor's header; every reply but the last consumed is a 401 that led to a retry; the call resolves only on a success reply, rejects only on an error reply, and stays pending only when the replies ran out |
| AuthContext.RetryAtMostOnce | src/context/AuthContext.tsx:73-89 | whatever the server replies, a request is sent at most twice, at most once if already retried, and a second sending is marked as retried |
| AuthContext.SecondSendingFinal | src/context/AuthContext.tsx:73-102 | a request already marked as retried is sent at most once more, still marked |
| AuthContext.RetryCarriesToken | src/context/AuthContext.tsx:81-89 | after a 401 and a successful refresh the request is sent again; the retry carries the new token when the request interceptor holds none or the same one, and the interceptor's older non-empty token otherwise |
| AuthContext.FailedRefreshLogsOut | src/context/AuthContext.tsx:90-102 | a 401 with a failed refresh sends nothing more, clears token and user, stores the location, navigates to /auth/sign-in, and rejects |
| SignIn.RedirectTarget | src/app/auth/sign-in/page.tsx:53-55 | the target is the stored path when it is non-empty, and "/" otherwise |
| SignIn.HandleSubmit | src/app/auth/sign-in/page.tsx:12-63 | as written: the alert is always "Login Failed"; a failed login or profile call changes nothing; when both succeed only the token is stored, because the call to the missing `setUser` throws; the user, the stored path and the navigation history never change |
| SignIn.HandleSubmitWithSetUser | src/app/auth/sign-in/page.tsx:18-65 | with `setUser` provided: a failed call changes nothing and shows the failure alert; success sets token and user, shows the success alert, navigates to the target and removes the stored path |
| SignIn.AsWrittenKeepsOnlyToken | src/app/auth/sign-in/page.tsx:39-42 | the handler as written leaves the session as it was except for the token, which it sets exactly as the handler with `setUser` does |
| SignIn.StoredPathSurvivesLogin | src/app/auth/sign-in/page.tsx:39-55 | a successful login with a stored path keeps the path stored, navigates nowhere and reports failure, where the handler with `setUser` navigates to the path and removes it |
| SignIn.SecondLoginGoesHome | src/app/auth/sign-in/page.tsx:53-55 | with `setUser` provided, the stored path is used once: a second login goes to "/" |
| SignIn.StoredPathNeverRemoved | src/app/auth/sign-in/page.tsx:42-55 | as written, two successful logins leave the stored path and the navigation history as they were |
| SignIn.ReturnsToInterruptedPage | src/context/AuthContext.tsx:90-98 | with `setUser` provided, after a failed refresh logs the user out, the next login returns to the page that was interrupted |
| SignIn.InterruptedPageNotRestored | src/context/AuthContext.tsx:90-98 | as written, after a failed refresh and a successful sign-in the user is still at /auth/sign-in with no user loaded, and the interrupted location is still stored |
| SignUp.Entries | src/app/auth/sign-up/page.tsx:55-94 | the form data has ten entries whose keys come in registration order (username, email, password, confirmPassword, imgPath, address, phone, bank, account_number, account_name); `imgPath` holds the chosen files and every other entry holds text |
| SignUp.Required | src/app/auth/sign-up/page.tsx:55-86 | a form that passes the `required` rules contributes a file, not "undefined", for `imgPath` |
| SignUp.PartOf | src/app/auth/sign-up/page.tsx:35-38 | `imgPath` contributes its first file, or the string "undefined" when no file was chosen; every other entry contributes its text |
| SignUp.Submit | src/app/auth/sign-up/page.tsx:27-44 | a missing required field blocks submission; mismatched passwords abort before any form data is built; otherwise each entry contributes one part, in entry order |
| SignUp.EachKeyOnceFirstFileOnly | src/app/auth/sign-up/page.tsx:34-40 | each key appears exactly once in the form data, the image entry is the first chosen file, and no other entry is a file |
| Text.OrEmpty | src/components/filter/AdminProductFilters.tsx:15 | `?? ''` gives the value when present, and "" otherwise |
| Text.IndexOfFrom | src/utils/getPublicImageUrl.ts:4 | the result is the first occurrence at or after the start position, if there is one |
| Text.IndexOf | src/utils/getPublicImageUrl.ts:4 | the result is the first occurrence of the pattern; there is none iff it occurs nowhere |
| Text.DigitChar | src/utils/auction/displayCountDownDate.ts:2 | a value below ten prints as a decimal digit |
| Text.DigitValue | src/utils/auction/displayCountDownDate.ts:2 | a decimal digit denotes a value below ten |
| Text.NatToString | src/utils/auction/displayCountDownDate.ts:2 | a natural prints as one or more digits, a single one iff it is below ten, two from 10 to 99 |
| Text.IntToString | src/utils/auction/displayCountDownDate.ts:2 | a non-negative number prints as digits; a negative one as '-' followed by digits |
| Text.DigitRoundTrip | src/utils/auction/displayCountDownDate.ts:2 | a printed digit reads back as its value |
| Text.NatToStringRoundTrip | src/utils/auction/displayCountDownDate.ts:2 | a printed natural reads back as itself |
| Words.TrimStart | src/app/admin/users/page.tsx:29 | the result is a suffix of the text, only whitespace is removed, and it does not start with whitespace |
| Words.TrimEnd | src/app/admin/users/page.tsx:29 | the result is a prefix of the text, only whitespace is removed, and it does not end with whitespace |
| Words.Trim | src/app/admin/users/page.tsx:29 | the trimmed text neither starts nor ends with whitespace and is no longer than the text |
| Words.TrimKeepsTokens | src/app/admin/users/page.tsx:29 | trimming does not change the words of a text |
| Words.LeadingSpaceSkipped | src/app/admin/users/page.tsx:29 | removing leading whitespace does not change the words |
| Words.TrailingSpaceDropped | src/app/admin/users/page.tsx:29 | removing trailing whitespace does not change the words |
| Words.TrailingSpace | src/app/admin/users/page.tsx:29 | appending one whitespace character does not change the words |
| Words.RunLengthExtends | src/app/admin/users/page.tsx:29 | appending whitespace does not lengthen the leading run of non-whitespace |
| Words.RunLength | src/app/admin/users/page.tsx:29 | the leading run has no whitespace and ends at the first whitespace character or at the end |
| Words.Tokens | src/app/admin/users/page.tsx:29 | every token is a non-empty run without whitespace |
| Words.SplitWords | src/app/admin/users/page.tsx:29 | `trim().split(/\s+/)` gives [""] for blank text and the text's words otherwise, so it is never empty |
| Words.NonEmptyHasToken | src/app/admin/users/page.tsx:29-30 | text starting with a non-whitespace character has at least one word |
| Words.Join | src/app/admin/users/page.tsx:31 | joining no words gives "" |
| Words.TokensJoin | src/app/admin/users/page.tsx:31 | splitting words joined by single spaces gives the same words back |
| Words.RunOfWord | src/app/admin/users/page.tsx:29 | a word followed by whitespace or the end is read as one token, followed by the tokens of the rest |

## Left out

- Rendering: JSX, Tailwind classes, the sweetalert2 dialogs, react-hook-form internals and the DatePicker widget. A dialog's answer is a `bool`, and validation is a predicate over the submitted values.
- Network I/O: every axios and fetch call is a `Net<T>` outcome given as a parameter. The hooks' `withCredentials` flags and the request URLs are not modelled.
- The two HTTP clients: the admin pages call plain `axios`, while the hooks call `api` from `src/lib/axios.ts`, which carries the auth context's interceptors (the Bearer header and one refresh-and-retry on a 401). Both are folded into the `Net<T>` outcome. So `AdminProductsPage.SaveMatchesHook` and `AdminUsersPage.HandleDelete` compare endpoints, payloads and list changes, not headers or retries.
- The 300 ms debounce in both filter forms. `updateURL` is modelled as immediate, because the debounce helper is not part of this model.
- `setInterval` and `clearInterval`. The card timer is a sequence of ticks, and each reading of `calculateTimeRemaining` is given as input, because `utils/auction/countdown` is not part of this model.
- AuctionCard: the effect depends on `onExpire`, so a parent re-render that passes a new callback restarts the interval. The model mounts one card with one interval.
- `new Date()` is a `now` parameter. Dates are integer timestamps in the validators and ISO strings in the query, where the conversion `toISOString` is left to the caller.
- Locale formatting: `toLocaleString`, the ฿ currency text of numeric chips (only the choice to show a value as currency is modelled), and `src/utils/formatDate.ts`.
- JavaScript numbers are integers here: no NaN, no fractions and no exponent notation. `isNaN(Number(value))` in the chip bar is a predicate given as a parameter.
- `URLSearchParams.toString()` and percent-encoding. Params are pairs of strings, and `router.push('?' + params)` carries them unencoded.
- `localStorage`, `window.location`, cookies and the router are fields of the session record or parameters.
- The error messages shown in alerts are not modelled, except the four validator messages.
- The sign-up page never calls a register API. The model stops at the assembled form data, as the page does.
- `profile_default_imgPath` in `src/app/admin/users/page.tsx:6` is the picture the users table shows when a user has no `imgPath` (line 124). It is used only in rendering, which is left out, and its module is not part of this model.
- The fetch-only hooks, `src/app/admin/auctions/page.tsx`, `src/components/navbar/Navbar.tsx` and `src/lib/axios.ts` only wire, fetch, render or configure. Type-only files become the records in `Entities` and the `Status` datatype.
- ImageUrl.GetPublicImageUrl: does not expand `$` patterns (`$&`, `$1`, …) in the replacement host, because it assumes the host contains no `$`.
- ImageUrl.ReplaceFirst: the same assumption; the replacement text is inserted literally.
- AuthContext.Send: the retry machine is a recursive function over the sequence of server replies; concurrent requests that share one refresh are not modelled.

## Findings

| source | as written | input that shows it | evidently intended | confidence | as-written member | corrected member |
|---|---|---|---|---|---|---|
| src/app/auth/sign-in/page.tsx:12-55 | `setUser` is read from `useAuth()`, whose value holds only `accessToken`, `setAccessToken` and `user` (src/context/AuthContext.tsx:9-13, 114); calling it throws after the token is set, so a successful login shows "Login Failed", keeps `redirectAfterLogin` and never navigates | a stored path "/admin/products", login and profile both succeed: the path stays stored and nothing is pushed (`SignIn.StoredPathSurvivesLogin`) | the context provides `setUser`; the user is stored, the success alert shows, the stored path is removed and the router goes to it | high, not executed | SignIn.HandleSubmit | SignIn.HandleSubmitWithSetUser |
