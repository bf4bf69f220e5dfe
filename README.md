# Kostmate order ledger and identity store, in Dafny

Kostmate is a browser application that lets boarding-house residents book small
services (laundry, gallon delivery, lamp replacement, room cleaning, shopping)
from local partners. There is no backend. Two client-side stores hold all the
state:

- the **order ledger** (`OrderContext`), a list of orders that every mutation replaces wholesale;
- the **identity store** (`AuthContext`), a directory of accounts, the current user and a copy of that user in browser storage.

The pages read both stores and issue the mutations. They also enforce the order
lifecycle rules that the ledger itself does not enforce:

- the administrator may set any status, and assigning also marks the order paid;
- the partner may move only the orders shown with a status control;
- the owner may review a completed order once, with 1 to 5 stars.

This project models both stores and those page rules, and proves properties about them.

Layout, one module per source file:

| file | module | models |
|---|---|---|
| `wrappers.dfy` | `Wrappers` | `Option`, for `undefined`/`null` and optional fields |
| `routes.dfy` | `Routes` | the router's declared paths, the catch-all, and the render/redirect outcome of a page guard |
| `order_context.dfy` | `OrderContext` | `Order` and its status domains, `find`/`filter`/`map` over the ledger, and the `OrderStore` class with its four mutators |
| `order_stats.dfy` | `OrderStats` | the folds the dashboards share: price sums, percentage shares, mean rating |
| `auth_context.dfy` | `AuthContext` | `User`, the seeded directory, the credential lookup, and the `IdentityStore` class (`Login`, `Register`, `Logout`, `Restore`) |
| `dashboard_admin.dfy` | `DashboardAdmin` | admin guard, status control, statistics |
| `partner_dashboard.dfy` | `PartnerDashboard` | partner guard, partner order list, restricted status control, statistics |
| `review_page.dfy` | `ReviewPage` | review eligibility guards, and the review form as a class |
| `order_tracking.dfy` | `OrderTracking` | the user's orders newest first, plus the review-button condition and the label functions |
| `dashboard_page.dfy` | `DashboardPage` | user dashboard guard, first-three list, counts, mean rating |
| `service_booking.dfy` | `ServiceBooking` | catalogue, booking form, the order data handed to the ledger |
| `login_page.dfy` | `LoginPage` | submit handler and the role-to-destination switch |
| `lifecycle.dfy` | `Lifecycle` | every ledger-changing view action as one step, and what all steps together keep true |

Modelling choices:

- **Shape of the state.** The ledger and the identity store are classes whose methods reassign a `seq` field, as the source replaces its state.
- **Order ids.** Ids come from the clock, so duplicates are possible. Ids and instants are therefore method parameters, and duplicates are not excluded. Mutators rewrite every order carrying the id; lookups return the first. The lemmas that need unique ids take `UniqueIds` as a hypothesis.
- **Numbers.** Prices and ratings are integers. The 20% and 80% shares and the means are exact reals.
- **Creation time.** `createdAt` is the creation instant in milliseconds. The source stores it as ISO text and parses it back before comparing.
- **Stored user.** The stored copy of the user is an `Option<User>`, not JSON text.
- **Filters.** The views' filters are a small first-order `Criterion` datatype rather than closures.

## Model

| member | source | states |
|---|---|---|
| `Routes.Resolve` | src/App.tsx:21-32 | a path equal to a declared path renders that page; every other path falls to the catch-all (matching is exact, see Left out) |
| `OrderContext.ParseStatus` | src/context/OrderContext.tsx:11 | a status string names exactly one of the five statuses, or none |
| `OrderContext.StatusNameRoundTrip` | src/context/OrderContext.tsx:11 | parsing a status's name gives back that status |
| `OrderContext.FindById` | src/context/OrderContext.tsx:75-77 | `getOrderById` is absent exactly when no order carries the id; otherwise it returns a ledger order that carries the id |
| `OrderContext.FindByIdIsFirst` | src/context/OrderContext.tsx:75-77 | the lookup returns the FIRST order carrying the id, even when ids repeat |
| `OrderContext.Filter` | src/context/OrderContext.tsx:79-81 | `filter` keeps exactly the ledger orders satisfying the criterion, and never more orders than the ledger has |
| `OrderContext.FilterAppend` | src/context/OrderContext.tsx:79-81 | filtering distributes over concatenation, so the result is in ledger order |
| `OrderContext.FilterKeepsAll` | src/context/OrderContext.tsx:79-81 | when every order satisfies the criterion, `filter` returns the list unchanged |
| `OrderContext.CountDisjointStatuses` | src/pages/DashboardAdmin.tsx:83-86 | counts for disjoint sets of statuses add up to the count for their union |
| `OrderContext.CountAllStatuses` | src/pages/DashboardAdmin.tsx:83-86 | every order has one of the five statuses, so the five counts cover the whole ledger |
| `OrderContext.FindByIdAppend` | src/context/OrderContext.tsx:75-77 | after an append, an earlier order with the id still wins the lookup over the new one |
| `OrderContext.Apply` | src/context/OrderContext.tsx:51-73 | no mutator changes an order's id, owner, price, creation instant, service, details, address, date or time |
| `OrderContext.Rewrite` | src/context/OrderContext.tsx:51-73 | the `map` rewrite keeps the ledger's length and order, rewrites every order carrying the id, and keeps every other order |
| `OrderContext.RewriteKeepsIds` | src/context/OrderContext.tsx:51-73 | a rewrite leaves every id in place, so unique ids stay unique |
| `OrderContext.FindAfterRewrite` | src/context/OrderContext.tsx:51-77 | a lookup after a rewrite finds the same order, changed only if it carries the rewritten id |
| `OrderContext.ReviewLastWriteWins` | src/context/OrderContext.tsx:67-73 | a second `addReview` replaces the first review (last write wins, nothing is appended) |
| `OrderContext.RewriteTouchesOneOrder` | src/context/OrderContext.tsx:51-73 | with unique ids a rewrite changes at most one order |
| `OrderContext.CreatedOrderIsFound` | src/context/OrderContext.tsx:38-49 | an order created with a fresh id is found by that id, pending and unpaid, and ids stay unique |
| `OrderContext.UserOrdersAfterCreate` | src/context/OrderContext.tsx:79-81 | after `createOrder` the owner's list gains the new order at its end, and every other user's list is unchanged |
| `OrderContext.OrderStore.constructor` | src/context/OrderContext.tsx:36 | the ledger starts empty |
| `OrderContext.OrderStore.CreateOrder` | src/context/OrderContext.tsx:38-49 | appends exactly one order and keeps every earlier one; the new order is pending, unpaid and unreviewed, has no partner, copies the caller's fields, and its id is returned |
| `OrderContext.OrderStore.UpdateOrderStatus` | src/context/OrderContext.tsx:51-57 | matching orders get the status and both partner fields (an omitted partner argument clears the field); nothing else changes; no match means no change |
| `OrderContext.OrderStore.UpdatePaymentStatus` | src/context/OrderContext.tsx:59-65 | only the payment status of matching orders changes |
| `OrderContext.OrderStore.AddReview` | src/context/OrderContext.tsx:67-73 | matching orders get `{rating, comment}` whatever their status or existing review; the rating is not range-checked |
| `OrderStats.ShareOfSum` | src/pages/DashboardAdmin.tsx:87 | summing `price * rate` order by order equals `rate` times the total price |
| `OrderStats.RatingSumBounds` | src/pages/DashboardAdmin.tsx:88-90 | n reviews rated 1..5 sum to between n and 5n |
| `OrderStats.AverageRating` | src/pages/DashboardAdmin.tsx:88-90 | the mean rating is 0 when nothing is reviewed, and lies in 1..5 when every review is rated 1..5 |
| `AuthContext.FindAccount` | src/context/AuthContext.tsx:64 | the credential lookup fails exactly when no entry matches both email and password; otherwise it returns a matching directory entry |
| `AuthContext.FindAccountIsFirst` | src/context/AuthContext.tsx:64 | the lookup returns the FIRST entry matching both email and password |
| `AuthContext.FindAccountAppend` | src/context/AuthContext.tsx:85 | after the directory grows, an earlier matching entry still wins over the appended one |
| `AuthContext.RegisterThenLogin` | src/context/AuthContext.tsx:74-89 | after registering (e, p), logging in with (e, p) succeeds and yields the earliest entry for (e, p) |
| `AuthContext.SeedLogins` | src/context/AuthContext.tsx:23-51 | each seeded account logs in with its own credentials and has its own role; a wrong password fails |
| `AuthContext.IdentityStore.constructor` | src/context/AuthContext.tsx:54 | a session starts with the seeded directory, no current user, and whatever storage held |
| `AuthContext.IdentityStore.Restore` | src/context/AuthContext.tsx:56-61 | a stored user becomes current without any directory check; the session is authenticated iff a user is stored or already was |
| `AuthContext.IdentityStore.Login` | src/context/AuthContext.tsx:63-72 | succeeds iff some entry matches both exactly; on success the current and the stored user become the first match without its password; on failure nothing changes |
| `AuthContext.IdentityStore.Register` | src/context/AuthContext.tsx:74-89 | always succeeds; appends one entry with role `user` and the given profile and password, with no duplicate-email check; makes the new user current and stored |
| `AuthContext.IdentityStore.IsAuthenticated` | src/context/AuthContext.tsx:102 | `isAuthenticated` is true exactly when a current user is present |
| `AuthContext.IdentityStore.Logout` | src/context/AuthContext.tsx:91-94 | no current user, nothing stored, not authenticated; the directory is kept |
| `DashboardAdmin.Guard` | src/pages/DashboardAdmin.tsx:32-40 | the page renders iff the user is an administrator, and otherwise goes to `/login` |
| `DashboardAdmin.HandleStatusChange` | src/pages/DashboardAdmin.tsx:69-80 | the handler's two ledger mutations, in sequence, yield the admin change |
| `DashboardAdmin.AdminChangeEffect` | src/pages/DashboardAdmin.tsx:69-80 | any status is accepted for any order; matching orders get it, with partner `partner-1`, the partner name only on assignment (`''` otherwise), and payment `paid` only on assignment; nothing else changes |
| `DashboardAdmin.AssignThenLookup` | src/pages/DashboardAdmin.tsx:69-80 | after assignment, the order is found assigned and paid, with the partner's name |
| `DashboardAdmin.Revenue` | src/pages/DashboardAdmin.tsx:87 | revenue is 0.2 times the price total of paid orders, and 0 when none is paid |
| `DashboardAdmin.Stats` | src/pages/DashboardAdmin.tsx:82-91 | the pending, in-progress and completed figures are at most the total and, with the cancelled orders, make up the total; revenue and mean rating are those of the whole ledger |
| `PartnerDashboard.Guard` | src/pages/PartnerDashboard.tsx:35-38 | the page renders iff the user is a partner, and otherwise goes to `/login` |
| `PartnerDashboard.PartnerOrders` | src/pages/PartnerDashboard.tsx:46-48 | lists exactly the orders with partner `partner-1` or in status assigned |
| `PartnerDashboard.PartnerOrdersInLedgerOrder` | src/pages/PartnerDashboard.tsx:46-48 | the partner's list keeps ledger order |
| `PartnerDashboard.StatusTargets` | src/pages/PartnerDashboard.tsx:293-306 | the control exists iff the order is assigned or in progress; its only targets are assigned, in progress and completed |
| `PartnerDashboard.HandleStatusChange` | src/pages/PartnerDashboard.tsx:72-74 | one status update naming partner `partner-1` / `Mitra Express Jakarta` |
| `PartnerDashboard.PartnerChangeEffect` | src/pages/PartnerDashboard.tsx:72-74 | payment and review are never touched, and every changed order stays on the partner's list |
| `PartnerDashboard.WorkCountsWithinTotal` | src/pages/PartnerDashboard.tsx:77-80 | the assigned, in-progress and completed counts sum to at most the list length |
| `PartnerDashboard.Earnings` | src/pages/PartnerDashboard.tsx:81 | earnings are 0.8 times the price total of completed orders, whatever their payment status |
| `PartnerDashboard.Stats` | src/pages/PartnerDashboard.tsx:76-85 | all figures are taken over the partner's list; the three counts sum to at most its total |
| `ReviewPage.Guard` | src/pages/ReviewPage.tsx:18-33 | no user or no id goes to `/login`; the form shows iff the first order with the id exists, is the user's, is completed and is unreviewed |
| `ReviewPage.NoSecondReview` | src/pages/ReviewPage.tsx:30-33 | once a review is attached, the page never shows the form for that id again |
| `ReviewPage.ReviewForm.constructor` | src/pages/ReviewPage.tsx:13-16 | no star chosen, empty comment, not loading |
| `ReviewPage.ReviewForm.SelectStar` | src/pages/ReviewPage.tsx:106-110 | the chosen rating is the clicked star, one of 1..5 |
| `ReviewPage.ReviewForm.SetComment` | src/pages/ReviewPage.tsx:150 | only the comment changes |
| `ReviewPage.ReviewForm.SubmitEnabled` | src/pages/ReviewPage.tsx:164-166 | the submit button is enabled exactly when a star is chosen and nothing is loading, so an enabled submit always carries a rating in 1..5 |
| `ReviewPage.ReviewForm.Submit` | src/pages/ReviewPage.tsx:35-48 | with rating 0 it returns at once: no navigation, ledger and loading flag untouched; otherwise `addReview` gets exactly the chosen 1..5 rating and comment, then goes to `/track-order`, and loading ends off |
| `OrderTracking.Guard` | src/pages/OrderTrackingPage.tsx:34-37 | the page renders iff a user is present, and otherwise goes to `/login` |
| `OrderTracking.Insert` | src/pages/OrderTrackingPage.tsx:39-41 | inserting into a newest-first list keeps it newest first and adds exactly one order |
| `OrderTracking.SortNewestFirst` | src/pages/OrderTrackingPage.tsx:39-41 | the result is a permutation of the input, ordered newest first |
| `OrderTracking.TrackedOrders` | src/pages/OrderTrackingPage.tsx:39-41 | shows a permutation of exactly the user's orders, newest first |
| `OrderTracking.ShowReviewAction` | src/pages/OrderTrackingPage.tsx:208-216 | the review action shows iff the order is completed and unreviewed |
| `OrderTracking.PaymentLabel` | src/pages/OrderTrackingPage.tsx:198-204 | `Dibayar` iff paid, otherwise `Menunggu Pembayaran` |
| `OrderTracking.StatusText` | src/pages/OrderTrackingPage.tsx:54-63 | a string naming one of the five statuses is replaced by a label; any other string is shown as it is |
| `OrderTracking.StatusDescription` | src/pages/OrderTrackingPage.tsx:76-85 | the description is empty exactly for a string that names no status |
| `DashboardPage.Guard` | src/pages/DashboardPage.tsx:23-61 | no user goes to `/login`, an administrator goes to `/admin`, and everyone else sees the page |
| `DashboardPage.RecentOrders` | src/pages/DashboardPage.tsx:28-29 | the first min(3, n) of the user's n orders, in ledger order |
| `DashboardPage.FilterKeepsOldestFirst` | src/pages/DashboardPage.tsx:28 | filtering an oldest-first ledger gives an oldest-first list |
| `DashboardPage.RecentAreOldest` | src/pages/DashboardPage.tsx:28-29 | on an oldest-first ledger the "recent" orders are the user's oldest: none is newer than any order left out |
| `DashboardPage.RecentOmitsNewest` | src/pages/DashboardPage.tsx:28-29 | for four orders of one user booked one after another, the panel shows the first three and leaves out the newest |
| `DashboardPage.LatestOrders` | src/pages/DashboardPage.tsx:206-208 | corrected panel: min(3, n) of the user's orders, newest first, drawn from the user's orders, none left out newer than any shown |
| `DashboardPage.Figures` | src/pages/DashboardPage.tsx:112-157 | in-process (pending, assigned, in progress) plus completed is at most the user's total; the rating is the mean over the user's reviewed orders |
| `DashboardPage.StatusText` | src/pages/DashboardPage.tsx:47-56 | a string naming one of the five statuses is replaced by a label; any other string is shown as it is |
| `ServiceBooking.FindService` | src/pages/ServiceBookingPage.tsx:48 | `find` returns a listed service with the id, and is absent exactly when none has it |
| `ServiceBooking.SelectedService` | src/pages/ServiceBookingPage.tsx:31-48 | exactly the five catalogue ids select a service, priced between 10000 and 40000 |
| `ServiceBooking.TimeSlotsHourly` | src/pages/ServiceBookingPage.tsx:39-41 | the form offers ten slots on the hour, 08:00 to 18:00 in increasing order (so none twice), none at 12:00 |
| `ServiceBooking.CatalogueEntries` | src/pages/ServiceBookingPage.tsx:31-37 | each of the five catalogue entries is what its own id selects: the ids are distinct, so no entry shadows another |
| `ServiceBooking.InitialForm` | src/pages/ServiceBookingPage.tsx:14-21 | the form starts empty except for the address, which is the user's own (`''` without a user) |
| `ServiceBooking.Guard` | src/pages/ServiceBookingPage.tsx:43-46 | the page renders iff a user is present, and otherwise goes to `/login` |
| `ServiceBooking.SubmitDisabled` | src/pages/ServiceBookingPage.tsx:263 | submit is enabled iff a service is chosen and nothing is loading |
| `ServiceBooking.OrderDataFor` | src/pages/ServiceBookingPage.tsx:55-63 | the order carries the user's id and the form's details, address, date and time, with the selected service's name and price or `''` and 0 |
| `ServiceBooking.NotesIgnored` | src/pages/ServiceBookingPage.tsx:55-63 | the notes field never reaches the ledger |
| `ServiceBooking.HandleSubmit` | src/pages/ServiceBookingPage.tsx:50-74 | appends exactly one order built from the form, then goes to the tracking page highlighting its id |
| `LoginPage.PartnerDestinationNotDeclared` | src/pages/LoginPage.tsx:26-36 | as written, a partner is sent to a path the router does not declare (not-found page); every other role's destination is declared |
| `LoginPage.Destination` | src/pages/LoginPage.tsx:26-36 | admin goes to `/admin`, partner to `/partner`, anything else to `/dashboard`; every destination is a declared route |
| `LoginPage.DestinationCorrectsOnlyPartner` | src/pages/LoginPage.tsx:31-32 | the corrected switch differs from the original for partners only |
| `LoginPage.LoginForm.constructor` | src/pages/LoginPage.tsx:14-15 | no error, not loading |
| `LoginPage.LoginForm.Submit` | src/pages/LoginPage.tsx:17-46 | success clears the error, makes the first matching user both current and stored, and navigates by the stored user's role (corrected switch); failure shows `Email atau password salah`, stays, and changes no user state; loading ends off |
| `Lifecycle.StepKeepsRatingsInRange` | src/pages/ReviewPage.tsx:106-110 | no action the views allow puts a rating outside 1..5 into the ledger |
| `Lifecycle.StepKeepsPaid` | src/pages/DashboardAdmin.tsx:76-79 | no view action removes an order, moves an id, or takes back a payment |
| `Lifecycle.PartnerStepTargets` | src/pages/PartnerDashboard.tsx:293-306 | a partner action only moves orders to assigned, in progress or completed, names `partner-1`, and keeps payment |
| `Lifecycle.StepKeepsUniqueIds` | src/context/OrderContext.tsx:41 | booking with a fresh id, and every other action, keeps ids unique |
| `Lifecycle.ReviewOnlyOnCompletedOrder` | src/pages/ReviewPage.tsx:23-42 | with unique ids, a review submission changes one order only; that order was completed and unreviewed, and now carries the chosen 1..5 rating |
| `Lifecycle.ReviewButtonOpensForm` | src/pages/DashboardPage.tsx:247-249 | the review button, on the dashboard or the tracking page, leads to the form for exactly that order |
| `Lifecycle.MeanRatingsBounded` | src/pages/DashboardAdmin.tsx:88-90 | while ratings stay in 1..5, each dashboard's mean rating is 0 or lies in 1..5 |

## Findings

| source | as written | input that shows it | evidently intended | confidence | as-written member | corrected member |
|---|---|---|---|---|---|---|
| src/pages/LoginPage.tsx:31-32 | after a partner logs in, the page navigates to `/partner-dashboard`, but the router declares the partner dashboard at `/partner` (src/App.tsx:30) | logging in as `partner@kostmate.com` / `partner123` | navigate to `/partner` | high (not executed) | `LoginPage.PartnerDestinationNotDeclared` (about `LoginPage.DestinationAsWritten`) | `LoginPage.Destination`, used by `LoginPage.LoginForm.Submit` |
| src/pages/DashboardPage.tsx:28-29 | the panel headed "Pesanan Terbaru" (latest orders, line 208) shows `userOrders.slice(0, 3)`; the user's orders are in booking order, so it shows the three OLDEST | a user who has booked four orders one after another: the newest is not shown | the three newest orders | medium (not executed) | `DashboardPage.RecentOmitsNewest`, `DashboardPage.RecentAreOldest` (about `DashboardPage.RecentOrders`) | `DashboardPage.LatestOrders` |

## Left out

- Routes.Resolve: paths are matched by exact string equality. The router's tolerance of letter case and of a trailing slash (`/Admin`, `/admin/`) is not modelled, so such paths resolve to the catch-all here.
- Rendering is not modelled. This covers JSX, Tailwind class strings (`getStatusColor`), icons and AOS animations. The landing page and the not-found page are static markup.
- The admin and partner dashboards' `getStatusText` are not modelled. They are display strings only; the tracking page's and the user dashboard's label functions are modelled.
- Browser storage and JSON are not modelled. The stored user is an `Option<User>`.
- Clock values are parameters. The `Date.now()` ids and the creation instants are passed in. `createdAt` is held as milliseconds, not ISO text.
- `AuthContext.IdentityStore.Register`: ids come from the clock, so two registrations can get the same id; the model does not promise distinct ids.
- Floating point is not modelled. Shares and means are exact reals; `toFixed(1)` and `toLocaleString` formatting are left out.
- `async`/`Promise` and `try`/`catch` are left out. `login` and `register` are synchronous here. No modelled operation throws, so the `Terjadi kesalahan saat login` branch and the `console.error` branches cannot occur.
- Timers are left out. The one-second delay before the booking page navigates and the three-second highlight on the tracking page are dropped; only the target path is kept.
- The partner dashboard's "today" list is left out. It depends on the wall clock and the locale.
- React context plumbing is left out, including `useOrder`/`useAuth` throwing outside a provider.
- The registration page, `src/pages/RegisterPage.tsx`, is not part of this model.
- `OrderContext.OrderData` carries only the fields the booking page passes. `createOrder` would also copy optional partner or review fields if a caller supplied them; no caller does.
- The status `select` values are modelled as `Status`. The select offers only the five statuses, so the string cast cannot produce anything else.
- OrderTracking.SortNewestFirst: proved sorted and a permutation only; the model does not state that orders with equal timestamps keep their ledger order (JavaScript's sort is stable).
- The review page's hover highlight and the login page's password visibility toggle are presentation.
