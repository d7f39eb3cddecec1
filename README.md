# RentEase request guards and dashboard state, in Dafny

RentEase is a rental marketplace. Tenants book properties, landlords list properties and answer booking requests, and admins moderate properties and users. This project models the logic behind that:

- the API handlers for bookings, reviews, users, admin property moderation, property search and creation, and the landlord summary;
- the gate that keeps each dashboard to its role, and the navigation bar's dashboard link;
- the list state of the tenant, landlord and admin dashboards, the add-property image editor, and the public listing page.

How it is modelled:

- The database is an in-memory store (`store.dfy`). Each table is a class with a `seq` of rows. The booking, property and review tables also hold the next id they hand out. The user table is given its rows, because users are created outside this model.
- A handler that writes is a method on those tables. Most handlers that only read (`ListReviews`, `ListUsers`, `ListAll`, `Figures`, and the listing of `GET /api/bookings`) are functions over the rows. `GET /api/properties` is the exception: `PropertiesRoute.Search` is a method, because it builds its `where` object by conditional assignments in the method `BuildWhere`. Every handler takes the session and request body as values and returns `Ok(value)` or `Err(Failure(status, message))`, with the handler's own status codes and messages.
- The guard chains of `POST /api/bookings`, `POST /api/reviews`, `PUT /api/users` and `PUT /api/admin/properties` are also written as functions `Refusal(...)`. Each method is proved to refuse exactly when, and with exactly the failure that, this function names. The other handlers state their single guard in their own contract.
- The dashboards are classes holding the page's state fields. Their handlers are methods, and the network answers are parameters.
- `Array.prototype.sort` is an in-place insertion sort on an `array`.
- Dates, prices and ids are integers, and the current time is a parameter `now`.
- `toLowerCase` lowers ASCII letters only.

Modules follow the source files:

- `bookings_route.dfy`, `reviews_route.dfy`, `users_route.dfy`, `admin_properties_route.dfy`, `properties_route.dfy` and `landlord_summary.dfy` model the handlers.
- `middleware.dfy` and `navbar.dfy` model routing.
- `tenant_dashboard.dfy`, `landlord_dashboard.dfy`, `admin_dashboard.dfy`, `add_property.dfy` and `properties_page.dfy` model the pages.
- `domain.dfy`, `lists.dfy`, `sorting.dfy`, `text.dfy` and `store.dfy` hold the shared entities and list, sort and string operations.

Two behaviours of the handlers are worth knowing:

- `POST /api/bookings` answers 401 with no session and 403 for a non-tenant. Its duplicate-pending check (409) runs before the property lookup (404).
- `GET /api/properties` counts all reviews of a property in `totalReviews` and `averageRating`, approved or not.

## Model

| member | source | states |
|---|---|---|
| BookingsRoute.Swept | src/app/api/bookings/route.ts:11-19 | a booking changes exactly when it is APPROVED and ended strictly before now; it becomes COMPLETED and nothing else about it changes; afterwards no booking is APPROVED and ended |
| BookingsRoute.SweepIdempotent | src/app/api/bookings/route.ts:11-19 | sweeping twice at the same time is sweeping once |
| BookingsRoute.SweepSparesEndingNow | src/app/api/bookings/route.ts:11-19 | a booking that ends exactly now is left as it is |
| BookingsRoute.CompleteExpired | src/app/api/bookings/route.ts:11-19 | the bulk update, done row by row in place, leaves the table equal to the swept table, ids unique |
| BookingsRoute.Listing | src/app/api/bookings/route.ts:32-94 | a landlord gets exactly the bookings on properties they own; every other role, admin included, gets exactly its own bookings as tenant; a status narrows either set; newest first |
| BookingsRoute.List | src/app/api/bookings/route.ts:11-25 | the sweep happens before the session check, so an unauthenticated request still completes ended bookings and then gets 401 |
| BookingsRoute.OverlapIsIntersection | src/app/api/bookings/route.ts:169-188 | for ranges with start not after end, the three OR'd clauses hold exactly when the closed intervals intersect |
| BookingsRoute.StartOnEndDateOverlaps | src/app/api/bookings/route.ts:169-188 | bounds are inclusive: a request starting on an existing booking's end date overlaps it |
| BookingsRoute.ConflictsComeFromBlockingRows | src/app/api/bookings/route.ts:163-168 | only APPROVED and COMPLETED bookings decide the overlap check: dropping all others does not change it |
| BookingsRoute.NonBlockingRowAddsNoConflict | src/app/api/bookings/route.ts:163-168 | a PENDING, REJECTED or CANCELLED booking never causes a conflict |
| BookingsRoute.Requested | src/app/api/bookings/route.ts:200-207 | the inserted booking is PENDING, belongs to the caller, has the requested property and dates, and has a null message when none or an empty one was sent |
| BookingsRoute.Refusal | src/app/api/bookings/route.ts:110-197 | a request passes every guard only when the caller is a tenant with no pending booking on the property, the property exists and is approved and available, and no approved or completed booking overlaps; a refusal is one of the six failures |
| BookingsRoute.Create | src/app/api/bookings/route.ts:110-207 | the guards run in the code's order (session 401, tenant 403, duplicate pending 409, property 404, bookable 400, overlap 409) and the first failure is the answer with nothing written; otherwise exactly one booking is appended with a fresh id; at most one pending booking per tenant and property is kept |
| BookingsRoute.AcceptedKeepsOnePending | src/app/api/bookings/route.ts:126-139 | a request the guards accept never adds a second pending booking for the same tenant and property |
| BookingsRoute.SweepKeepsOnePending | src/app/api/bookings/route.ts:11-19 | the sweep keeps at most one pending booking per tenant and property |
| BookingsRoute.TouchingApprovedBookingIsRefused | src/app/api/bookings/route.ts:163-197 | a request sharing only its first day with an approved booking's last day is refused with 409 |
| BookingsRoute.PendingBookingDoesNotBlock | src/app/api/bookings/route.ts:163-168 | the same request is accepted while the other booking is only pending |
| BookingsRoute.ReversedRangeIsNotRejected | src/app/api/bookings/route.ts:163-197 | a request whose end precedes its start is not refused even though the span between its dates covers an approved booking, because start/end order is never checked |
| ReviewsRoute.ListReviews | src/app/api/reviews/route.ts:9-35 | no property id gives 400; otherwise exactly the approved reviews of that property, newest first |
| ReviewsRoute.RatingAcceptedRange | src/app/api/reviews/route.ts:66-71 | the rating guard accepts exactly a present rating from 1 to 5 inclusive |
| ReviewsRoute.StoredRating | src/app/api/reviews/route.ts:107-113 | the stored rating is the truncated integer part of an accepted rating, from 1 to 5 |
| ReviewsRoute.AdminCannotReview | src/app/api/reviews/route.ts:52-61 | an admin is refused with 401 whatever the request holds |
| ReviewsRoute.Refusal | src/app/api/reviews/route.ts:48-105 | a review passes every guard only from a signed-in landlord or tenant with a rating from 1 to 5, a booking on the property and no earlier review of it; an admin is always refused with 401 |
| ReviewsRoute.Create | src/app/api/reviews/route.ts:48-113 | role 401, rating 400 (before any lookup), no booking 403, already reviewed 409, in that order, with nothing written; otherwise one review with the truncated rating, null empty comment and the caller as tenant; at most one review per tenant and property is kept |
| UsersRoute.ListUsers | src/app/api/users/route.ts:7-28 | non-admins get 401; an admin gets every user, newest first |
| UsersRoute.ParseRole | src/app/api/users/route.ts:63-67 | exactly ADMIN, LANDLORD and TENANT are accepted, each reading back as its own name |
| UsersRoute.ParseRoleName | src/app/api/users/route.ts:63-68 | every role's written name parses back to that role |
| UsersRoute.Patched | src/app/api/users/route.ts:62-76 | the role changes only when given, blocked only when given; id, name, email and creation time never change |
| UsersRoute.Refusal | src/app/api/users/route.ts:41-73 | an update passes every guard only from an admin, with a non-zero user id, at least one field, a known role name if a role is given, and a stored user with that id |
| UsersRoute.Update | src/app/api/users/route.ts:41-78 | admin 401, missing id or fields 400, invalid role 400, unknown user 500, in that order, with nothing written; otherwise only the addressed row is replaced by its patched form |
| AdminPropertiesRoute.ListAll | src/app/api/admin/properties/route.ts:8-37 | non-admins get 401; an admin gets every property whatever its approval state, newest first |
| AdminPropertiesRoute.Decision | src/app/api/admin/properties/route.ts:71 | true maps to APPROVED and false to REJECTED; a decision is never PENDING |
| AdminPropertiesRoute.Refusal | src/app/api/admin/properties/route.ts:50-72 | a decision passes every guard only from an admin, with a non-zero property id, a boolean status and a stored property with that id |
| AdminPropertiesRoute.Decide | src/app/api/admin/properties/route.ts:50-76 | admin 401, missing id or non-boolean status 400, unknown property 500; otherwise only the `approved` column of the addressed property changes |
| PropertiesRoute.BuildWhere | src/app/api/properties/route.ts:33-68 | the `where` object built by conditional assignments selects exactly the properties the query admits: requested state (APPROVED by default), available, search text in title, description or location, location text, inclusive price bounds when given, exact type, bedrooms and bathrooms unless absent or zero |
| PropertiesRoute.DefaultQueryListsApprovedOnly | src/app/api/properties/route.ts:33-37 | without a status parameter only approved, available properties are admitted |
| PropertiesRoute.EmptySearchKeepsAll | src/app/api/properties/route.ts:33-68 | with no filter given, the query admits exactly the available properties in the requested state |
| PropertiesRoute.ParseSortColumn | src/app/api/properties/route.ts:29 | an absent sort column means createdAt |
| PropertiesRoute.OnlyLiteralDescIsDescending | src/app/api/properties/route.ts:30 | only the exact text "desc" sorts descending; "DESC" and an absent order sort ascending |
| PropertiesRoute.BuiltWhereAgrees | src/app/api/properties/route.ts:33-68 | a `where` object whose fields were set from a query selects exactly what the query admits |
| PropertiesRoute.Mean | src/app/api/properties/route.ts:96-98 | the average times the number of reviews is the sum of their ratings |
| PropertiesRoute.WithRating | src/app/api/properties/route.ts:93-101 | totalReviews is the number of the property's reviews and averageRating their mean, 0 when there are none |
| PropertiesRoute.Search | src/app/api/properties/route.ts:8-110 | a sort column outside the modelled integer columns gives 500; otherwise the admitted properties, each once, ordered by the column in the requested direction, each with its review statistics |
| PropertiesRoute.SearchListsExactlyAdmitted | src/app/api/properties/route.ts:33-90 | a property is in the result exactly when it is stored and the query admits it |
| PropertiesRoute.StoredImages | src/app/api/properties/route.ts:155-160 | the given images in order with their urls, a missing alt stored as ""; no images when none are given |
| PropertiesRoute.StoredArea | src/app/api/properties/route.ts:149 | for a numeric body, an absent or zero area is stored as null, any other area kept |
| PropertiesRoute.Create | src/app/api/properties/route.ts:113-168 | non-landlords get 401 with nothing written; otherwise one property is appended that is PENDING, owned by the caller, carries the request's fields and the stored images |
| LandlordSummary.Figures | src/app/api/landlord/summary/route.ts:6-39 | no session gives 401 with no role check; counts of the caller's properties and approved properties (approved never above total), of pending bookings on them, and the revenue |
| LandlordSummary.RevenueOfAppended | src/app/api/landlord/summary/route.ts:25-32 | a booking adds its property's rent to revenue exactly when it is APPROVED and on the caller's property; COMPLETED and every other state add nothing |
| LandlordSummary.Revenue | src/app/api/landlord/summary/route.ts:25-32 | the `reduce` over the caller's approved bookings of their property's rent (0 when missing); with non-negative rents it is non-negative |
| LandlordSummary.SweepNeverRaisesRevenue | src/app/api/landlord/summary/route.ts:25-32 | completing ended bookings never raises the revenue |
| Middleware.Gate | middleware.ts:5-39 | unmatched paths pass; a matched path without a token goes to sign-in; with a token it is redirected to /unauthorized exactly when it lies in the landlord, admin or tenant area and the token's role is not that area's |
| Middleware.AreasAreMatched | middleware.ts:11-39 | each area lies under the matcher |
| Middleware.AreasAreExclusive | middleware.ts:10-29 | no path lies in two areas, so at most one role rule applies |
| Middleware.AreaNeedsItsRole | middleware.ts:10-29 | inside an area a token passes exactly when it carries that area's role |
| Middleware.OtherDashboardPathsNeedOnlyAToken | middleware.ts:10-39 | other dashboard paths pass with any token and ask for sign-in without one |
| Middleware.PrefixGatesLookalikePaths | middleware.ts:11 | /dashboard/landlord-x is gated as a landlord path |
| Navbar.DashboardLink | src/components/Navbar.tsx:16-29 | no session gives /dashboard; admin, landlord and tenant get their own dashboards |
| Navbar.LinkPassesGateForOwnRoleOnly | src/components/Navbar.tsx:19-25 | each role's link passes the gate for that role and redirects every other role |
| Navbar.SignedOutLinkAsksForSignIn | src/components/Navbar.tsx:17 | the signed-out link leads to sign-in |
| TenantDashboard.Page.constructor | src/app/dashboard/tenant/page.tsx:19-23 | the page starts with no bookings, loading, with no error and nothing being updated |
| TenantDashboard.Page.FetchBookings | src/app/dashboard/tenant/page.tsx:59-80 | a fetched list is shown with its pending bookings in order; a failure empties both lists and sets the error |
| TenantDashboard.Page.CancelBooking | src/app/dashboard/tenant/page.tsx:82-122 | a declined confirm or failed request changes neither list; success cancels only that id and drops it from the pending list; the busy marker ends cleared; the pending list stays exactly the pending bookings |
| TenantDashboard.CancelDropsOnePending | src/app/dashboard/tenant/page.tsx:111-113 | with unique ids, cancelling removes exactly that position and keeps the others in order |
| TenantDashboard.StatusCountsSum | src/app/dashboard/tenant/page.tsx:125-132 | the five status counts add up to the total |
| TenantDashboard.Stats | src/app/dashboard/tenant/page.tsx:125-132 | one count per status, summing to the number of bookings |
| LandlordDashboard.Page.constructor | src/app/dashboard/landlord/page.tsx:18-21 | the page starts with no properties or bookings, loading, with nothing being updated |
| LandlordDashboard.Page.FetchDashboard | src/app/dashboard/landlord/page.tsx:42-58 | both lists are shown when both requests succeed; if either fails both are emptied |
| LandlordDashboard.Page.BookingAction | src/app/dashboard/landlord/page.tsx:71-94 | success sets the status of only that id, length unchanged; failure changes no booking; the busy marker ends cleared |
| LandlordDashboard.Summary | src/app/dashboard/landlord/page.tsx:97-110 | pending plus approved properties never exceed the total, and likewise for bookings |
| LandlordDashboard.ApprovingMovesOneCount | src/app/dashboard/landlord/page.tsx:77-82 | approving a pending booking with a unique id moves one from the pending count to the approved count |
| AdminDashboard.Page.constructor | src/app/dashboard/admin/page.tsx:16-22 | the page starts with empty lists, loading, not refreshing, with no error and nothing being updated |
| AdminDashboard.Page.FetchDashboard | src/app/dashboard/admin/page.tsx:48-78 | approved, pending and rejected lists are concatenated in that order and the pending one kept; failure empties all three lists and sets the error |
| AdminDashboard.Page.RefreshPending | src/app/dashboard/admin/page.tsx:81-95 | the pending list becomes the fetched PENDING entries; failure leaves both lists as they were; users, error, loading and the updating marker never change, and the refresh flag ends cleared |
| AdminDashboard.Decided | src/app/dashboard/admin/page.tsx:105-109 | the properties with the decided id take the new approval state, every other property and the length are unchanged |
| AdminDashboard.Page.UpdateStatus | src/app/dashboard/admin/page.tsx:97-126 | success changes `approved` on that id only and drops it from the pending list; failure changes neither; the pending list stays exactly the pending properties; users, error, loading and the refresh flag never change, and the updating marker ends cleared |
| AdminDashboard.PendingOfConcatenation | src/app/dashboard/admin/page.tsx:60-67 | when each answer holds only its own state, the pending properties of the concatenation are the pending answer |
| AdminDashboard.RefreshFromDefaultSearchFindsNoPending | src/app/dashboard/admin/page.tsx:84-89 | refreshing from the parameterless search, which lists only approved properties, always yields an empty pending list |
| AdminDashboard.Summary | src/app/dashboard/admin/page.tsx:148-158 | approved plus rejected never exceed all properties; the three role counts add up to the number of users |
| AddProperty.Render | src/app/dashboard/landlord/add-property/page.tsx:35-41 | anyone but a signed-in landlord sees only the refusal text |
| AddProperty.RemoveAt | src/app/dashboard/landlord/add-property/page.tsx:44-45 | an index in range removes exactly that position, keeping the others in order; any other index changes nothing |
| AddProperty.SetField | src/app/dashboard/landlord/add-property/page.tsx:46-54 | the addressed field takes the value and the other field is kept |
| AddProperty.ImageList.constructor | src/app/dashboard/landlord/add-property/page.tsx:26 | the list starts with one entry with empty url and alt |
| AddProperty.ImageList.AddImage | src/app/dashboard/landlord/add-property/page.tsx:43 | one blank entry is appended; earlier entries are kept |
| AddProperty.ImageList.RemoveImage | src/app/dashboard/landlord/add-property/page.tsx:44-45 | the entry at the index goes and the list shortens by one |
| AddProperty.ImageList.ImageChange | src/app/dashboard/landlord/add-property/page.tsx:46-54 | the copy-then-write-in-place changes one field of one entry; length and every other entry are unchanged |
| AddProperty.OfferedRemoveKeepsOne | src/app/dashboard/landlord/add-property/page.tsx:218-227 | remove is offered only with two or more entries, so the list never empties |
| AddProperty.RemoveUndoesAdd | src/app/dashboard/landlord/add-property/page.tsx:43-45 | removing the entry just added restores the list |
| PropertiesPage.ToCard | src/app/properties/page.tsx:30-43 | city is the location, reviews the review count, rating the mean rounded to nearest, 0 without reviews |
| PropertiesPage.CardRatingInRange | src/app/properties/page.tsx:31-40 | with ratings from 1 to 5 a reviewed card shows 1 to 5 |
| PropertiesPage.EmptySearchKeepsAll | src/app/properties/page.tsx:51-55 | an empty search keeps every card |
| PropertiesPage.SearchIgnoresCase | src/app/properties/page.tsx:51-55 | lowering the search text does not change what is found |
| PropertiesPage.SelectedOption | src/app/properties/page.tsx:76-77 | the option whose value is the sort mode, otherwise the first option |
| PropertiesPage.SortModesAreMenuValues | src/app/properties/page.tsx:8-14 | the known sort modes are exactly the menu's values |
| PropertiesPage.Page.constructor | src/app/properties/page.tsx:17-21 | the page starts with no cards, an empty search, the newest-first sort, nothing shown and loading |
| PropertiesPage.Page.Recompute | src/app/properties/page.tsx:50-74 | the shown list is a permutation of the found cards, ordered per mode (newest and priceHigh and rating non-increasing, oldest and priceLow non-decreasing); an unknown mode keeps the found order |
| PropertiesPage.Page.FetchProperties | src/app/properties/page.tsx:25-48 | the fetched entries become cards, loading ends, and the shown list is recomputed for the unchanged search and sort; a failed fetch leaves loading set and the cards and shown list as they were |
| PropertiesPage.Page.SetSearch | src/app/properties/page.tsx:50-74 | a new search text recomputes the shown list; cards, sort and loading are unchanged |
| PropertiesPage.Page.SetSort | src/app/properties/page.tsx:50-74 | a new sort mode recomputes the shown list; cards, search and loading are unchanged |
| Sorting.SortInPlace | src/app/properties/page.tsx:56-72 | the array is sorted by the key and is a permutation of what it held |
| Sorting.OrderByDesc | src/app/api/users/route.ts:27 | the database's `orderBy desc`: sorted and a permutation of the input |
| Store.BookingTable.Insert | src/app/api/bookings/route.ts:200-207 | `booking.create` appends the row under the next id and keeps ids unique |
| Store.PropertyTable.Insert | src/app/api/properties/route.ts:141-166 | `property.create` appends the row under the next id and keeps ids unique |
| Store.ReviewTable.Insert | src/app/api/reviews/route.ts:107-113 | `review.create` appends the row under the next id and keeps ids unique |
| Store.IndexOf | src/app/api/admin/properties/route.ts:73-76 | the row an update `where: { id }` addresses: the first row with that id, or none exactly when no row has it |
| Domain.NullIfEmpty | src/app/api/bookings/route.ts:206 | an absent or empty text is stored as null, any other kept |

## Left out

- The `PUT` and `DELETE` handlers for a single booking, and the booking status transitions they perform, are not part of this model. The dashboards' cancel and approve actions take their outcome as a parameter.
- There is no global "no two approved bookings overlap" invariant. The overlap check and the insert in `POST /api/bookings` are not atomic, and approval happens in a handler outside this model.
- `handleToggleBlockUser` on the admin page is not modelled. It only re-fetches the user list after a `PUT`.
- Number and date parsing is not modelled: `parseFloat`, `parseInt` of request strings, `new Date(...)` and `Number(...)`. Integers are passed directly, and a status or type string that the database rejects is not modelled.
- PropertiesRoute.Search: the model orders by the non-null integer columns only (id, landlordId, createdAt, rent, bedrooms, bathrooms and availableDate). Sorting by any other existing column (title, description, location, area, propertyType, amenities, available, approved, updatedAt) is answered 500 in the model, while the source sorts by it. Text collation, boolean order and the position of nulls are database-specific.
- Revenue and spend on the dashboards are not modelled, because they use `Math.ceil` over millisecond date differences in floating point. Rating averages are exact reals, not IEEE doubles.
- Prisma, next-auth, fetch/axios, toasts, `confirm`, `window.location` redirects and the loading spinners are parameters or are not modelled.
- The property table's `available` default and the review table's `approved` default come from the database schema, which is not part of this model. Each is a constant of its table, fixed when the table is created.
- Sorting.SortInPlace: stability is not stated. `Array.prototype.sort` is stable, so cards with equal keys keep their order in the source; the model proves only sortedness and permutation.
- AddProperty.ImageList.ImageChange: the source copies the array shallowly, so writing a field also changes the entry object shared with the previous state. The model treats entries as values, and the index must be in range as the page guarantees.
- Navbar.DashboardLink: the switch's default case is not modelled. Roles form a closed set, so that case cannot occur.
- PropertiesRoute.StoredArea: the model takes the area as a number. The add-property form sends it as text, and the source stores a text "0" as 0, not null.
- UsersRoute.Update: a JSON `null` role or blocked flag is not modelled, because the request's fields are `Option`s where `None` means absent. In the source, `role: null` passes the missing-field check (`null === undefined` is false) and is answered 400 "Invalid role", and `blocked: null` is passed on to the database update.
- Marketing components, table components, layout, the profile and unauthorized pages, and `my-properties` are presentation or thin pass-throughs.
