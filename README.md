# CLT SYSTEMS shop portal — verified model of its stateful core

The portal is a laptop repair, buy-back and resale web application. Most of it
is markup over hosted services. This project models the four pieces that hold
logic of their own, and proves what they promise:

- **The shopping cart** (`CartContext.dfy`). A `CartProvider` class holds the
  cart as a `seq` field. `AddToCart`, `RemoveFromCart` and `ClearCart` replace
  it as `setCart` does. The `total` is the sum of the prices. `UseCart` models
  the guard that throws outside a provider.
- **The admin dashboard** (`AdminDashboard.dfy`). A `Dashboard` class holds the
  `quotes` and `inventory` tables, the `refreshSignal` counter and the
  `activeModal` state. Each write handler takes one flag per backend call,
  standing for that call's success. Table updates are `UpdateItems` and
  `UpdateQuotes`, which patch every row with the given id. The list views,
  the sold history, revenue, cost, net profit and per-row profit are pure
  functions. `GetYearlyData` fills twelve month buckets with two loops.
- **The checkout endpoint** (`CheckoutRoute.dfy`). It maps cart items to
  payment line items and builds the session request. It also models the
  missing-key and thrown-error responses. The provider's session creation is
  a function parameter. The outcome lists the session requests the endpoint
  sent, so "no session is created" can be stated.
- **The status-notification endpoint** (`StatusUpdateRoute.dfy`). It picks the
  subject and message from the repair status and composes the HTML body. The
  provider's send call is a function parameter.

`Seqs.dfy` defines `Filter` and `SumOf`, the JavaScript `filter` and
`reduce`-from-0 used everywhere above, with their lemmas. `Wrappers.dfy` holds
`Option`, `Result` and `Thrown` (a value caught by a `catch`).

Money is exact `real` dollars. The JavaScript source uses floating-point
numbers, so rounding differences are not modelled. `Math.round(price * 100)`
is modelled as the nearest integer with halves rounded up.

Three consequences of the dashboard's code are worth stating plainly:

- A published item keeps status `for_sale`, which is not `sold`, so the
  "Refurb Pipeline" view still lists it (`app/admin/page.tsx:293-294`,
  `PublishEffect`).
- The home-page quote form writes status `"pending"`
  (`src/components/QuoteForm.tsx:20`), while "Incoming Leads" lists only
  status `"new"` (`app/admin/page.tsx:432-434`), so such a quote never appears
  there (`FormQuoteNeverIncoming`).
- Nothing on the dashboard opens the `"specs"` modal: modals are opened only
  for publishing (`app/admin/page.tsx:313`) and buying (`app/admin/page.tsx:444`).
  So `saveSpecs` cannot be reached from the page, and `closeModal` is never
  called. The model keeps both, as the code defines them.

## Model

| member | source | states |
|---|---|---|
| `CartContext.CartProvider.constructor` | src/context/CartContext.tsx:23 | the cart starts empty, with total 0 |
| `CartContext.CartProvider.AddToCart` | src/context/CartContext.tsx:27-28 | the new cart is the old cart with the item appended; the total rises by the item's price |
| `CartContext.CartProvider.RemoveFromCart` | src/context/CartContext.tsx:35-36 | the new cart is the old one without the id; no item with the id remains; the total drops by the removed items' prices |
| `CartContext.CartProvider.ClearCart` | src/context/CartContext.tsx:39 | the cart is empty and its total is 0 |
| `CartContext.WithoutId` | src/context/CartContext.tsx:36 | an item is kept exactly when it was in the cart and has another id |
| `CartContext.WithId` | src/context/CartContext.tsx:36 | the removed items are exactly the cart's items with the id |
| `CartContext.AddNeverMerges` | src/context/CartContext.tsx:27-28 | adding an item whose id is present adds one more item with that id, not a merge |
| `CartContext.AddRaisesTotal` | src/context/CartContext.tsx:27-41 | appending an item raises the total by exactly its price |
| `CartContext.RemoveKeepsOrder` | src/context/CartContext.tsx:35-36 | removal distributes over concatenation, so kept items stay in their relative order |
| `CartContext.RemoveAbsentIsNoop` | src/context/CartContext.tsx:35-36 | removing an id no item carries leaves the cart unchanged |
| `CartContext.RemoveIdempotent` | src/context/CartContext.tsx:35-36 | removing an id twice equals removing it once |
| `CartContext.RemoveSplitsCart` | src/context/CartContext.tsx:35-36 | kept plus removed items number as many as the cart held |
| `CartContext.RemoveLowersTotal` | src/context/CartContext.tsx:35-41 | the total after removal is the old total minus the removed items' prices |
| `CartContext.UseCart` | src/context/CartContext.tsx:59-62 | a context is returned exactly when one exists; otherwise it is the error "useCart must be used within a CartProvider" |
| `CheckoutRoute.RoundHalfUp` | app/api/checkout/route.ts:37 | the result lies in (x - 1/2, x + 1/2], the nearest integer with halves rounded up |
| `CheckoutRoute.UnitAmount` | app/api/checkout/route.ts:37 | the cents are within half a cent of price times 100, halves rounded up |
| `CheckoutRoute.WholeCentsExact` | app/api/checkout/route.ts:37 | a price in whole cents is charged exactly |
| `CheckoutRoute.ToLineItem` | app/api/checkout/route.ts:30-40 | currency "usd", quantity 1, name brand + " " + model, amount in rounded cents |
| `CheckoutRoute.LineItems` | app/api/checkout/route.ts:30 | one line item per cart item, in the same order |
| `CheckoutRoute.SessionRequest` | app/api/checkout/route.ts:28-44 | card payment, mode "payment", the mapped line items, success url base + "/success", cancel url base + "/inventory" |
| `CheckoutRoute.ErrorText` | app/api/checkout/route.ts:47-49 | an Error's own message, or "Internal Server Error" for any other thrown value |
| `CheckoutRoute.Post` | app/api/checkout/route.ts:18-52 | missing or empty key: 500 "Stripe API key is not configured" and no session request; a thrown body or provider error: 500 with the error text; otherwise one request and 200 with the session url |
| `CheckoutRoute.ChargedNearTotal` | app/api/checkout/route.ts:37-39 | the cents charged for a cart are within half a cent per item of 100 times the sum of its prices |
| `StatusUpdateRoute.ChooseNotice` | app/api/status-update/route.ts:11-17 | the subject is the pickup subject exactly when the status is "ready"; every other status gets the default subject and "The status of your {device} has been updated to: {status}." |
| `StatusUpdateRoute.NoticeNamesDevice` | app/api/status-update/route.ts:11-17 | whatever the status, the message names the device |
| `StatusUpdateRoute.HtmlCarriesContent` | app/api/status-update/route.ts:23-31 | the HTML body contains "Hi {customerName},", the chosen message and the portal link |
| `StatusUpdateRoute.ComposeEmail` | app/api/status-update/route.ts:19-32 | the fixed sender, the single recipient [email], and the chosen subject and body |
| `StatusUpdateRoute.Post` | app/api/status-update/route.ts:6-37 | a thrown body gives 500 and no email; otherwise exactly one email is sent, and the provider's reply gives 200 while its throw gives 500 |
| `StatusUpdateRoute.SentEmailCarriesNotice` | app/api/status-update/route.ts:19-31 | every email sent greets the customer and carries the notice; its subject is the pickup one exactly for "ready" |
| `AdminDashboard.ApplyItemPatch` | app/admin/page.tsx:147-151 | each field is the supplied value when supplied and the stored one otherwise; the id never changes |
| `AdminDashboard.ApplyItemPatchIdempotent` | app/admin/page.tsx:147-151 | applying the same update twice equals applying it once |
| `AdminDashboard.UpdateItems` | app/admin/page.tsx:69-76 | the table keeps its length and ids; rows with the id become the patched row, rows with another id are unchanged |
| `AdminDashboard.ApplyQuotePatch` | app/admin/page.tsx:180-184 | only the supplied status and repair-status fields change |
| `AdminDashboard.UpdateQuotes` | app/admin/page.tsx:170-173 | the table keeps its length and ids; quotes with the id become the patched quote, quotes with another id are unchanged |
| `AdminDashboard.IntakeRow` | app/admin/page.tsx:159-166 | the inserted row has brand "Unknown", model = the quote's details, status intake and the given purchase price |
| `AdminDashboard.PublishEffect` | app/admin/page.tsx:68-76 | rows with the id get is_public true, the listing price and status for_sale, with other fields kept; they stay in the refurb pipeline; other rows are untouched |
| `AdminDashboard.SaveSpecsEffect` | app/admin/page.tsx:147-156 | the health-check save writes only cpu, battery and SSD health of the rows with the id |
| `AdminDashboard.RepairStatusEffect` | app/admin/page.tsx:180-184 | only the repair status of the quotes with the id changes |
| `AdminDashboard.PurchasedLeavesIncoming` | app/admin/page.tsx:168-173 | a quote marked purchased leaves "Incoming Leads" and appears under "Active Customer Repairs"; other quotes are untouched |
| `AdminDashboard.ActiveRepairs` | app/admin/page.tsx:341-342 | lists exactly the quotes with status "purchased" |
| `AdminDashboard.IncomingLeads` | app/admin/page.tsx:432-434 | lists exactly the quotes with status "new" |
| `AdminDashboard.RefurbPipeline` | app/admin/page.tsx:293-294 | lists exactly the items whose status is not sold |
| `AdminDashboard.FormQuoteNeverIncoming` | app/admin/page.tsx:432-434 | a quote written by the home-page form (status "pending") never appears under "Incoming Leads" |
| `AdminDashboard.SoldHistory` | app/admin/page.tsx:192 | lists exactly the sold items |
| `AdminDashboard.NetProfitIsSumOfRows` | app/admin/page.tsx:192-201 | net profit (revenue minus cost over sold items, a missing price counting 0) equals the sum of the history table's per-row profits |
| `AdminDashboard.RevenueOfAppend` | app/admin/page.tsx:193-196 | a new row adds its listing price (or 0) to the revenue exactly when it is sold |
| `AdminDashboard.MonthRevenueOfSold` | app/admin/page.tsx:58-63 | unsold rows add nothing to any month |
| `AdminDashboard.YearSumsToRevenue` | app/admin/page.tsx:51-66 | the twelve monthly amounts add up to the total revenue |
| `AdminDashboard.GetYearlyData` | app/admin/page.tsx:51-66 | twelve entries, Jan to Dec, each holding the revenue of sold items in that month |
| `AdminDashboard.Dashboard.constructor` | app/admin/page.tsx:45-49 | the dashboard holds the fetched tables, refresh counter 0 and no modal |
| `AdminDashboard.Dashboard.OpenModal` | app/admin/page.tsx:312-314 | the modal becomes the given one; the tables and counter are unchanged |
| `AdminDashboard.Dashboard.CloseModal` | app/admin/page.tsx:86-89 | no modal is open; the tables and counter are unchanged |
| `AdminDashboard.Dashboard.HandlePublish` | app/admin/page.tsx:68-84 | on success the listing fields of the rows with the id are set, the counter rises by 1 and the modal closes; on failure nothing changes; quotes are never touched |
| `AdminDashboard.Dashboard.SaveSpecs` | app/admin/page.tsx:147-156 | on success the supplied fields are written, the counter rises by 1 and the modal closes; on failure nothing changes |
| `AdminDashboard.Dashboard.HandleBuyLead` | app/admin/page.tsx:158-177 | on insert success exactly one intake row is appended, the quote is marked purchased if that update succeeds, the counter rises and the modal closes; on insert failure nothing changes |
| `AdminDashboard.Dashboard.Recycle` | app/admin/page.tsx:450-451 | the same as a buy at price 0 |
| `AdminDashboard.Dashboard.UpdateRepairStatus` | app/admin/page.tsx:180-189 | on success only the repair status changes and the counter rises; the modal is left alone; on failure nothing changes |
| `AdminDashboard.Dashboard.UploadImage` | app/admin/page.tsx:123-145 | without a file or after a failed upload nothing changes; otherwise the photo url is written if that update succeeds, and the counter rises either way |

## Left out

- Backend calls: auth sessions, sign-in, table selects and the storage upload are foreign network calls. Only their effect on the two tables is modelled, with a success flag per call. The admin e-mail gate and the fetch ordering by id are not modelled.
- The tables' re-fetch after `refreshSignal` changes is not modelled. The model's tables are the backend's tables, so the re-fetch would only copy them.
- The backend assigns the id of an inserted row, so `HandleBuyLead` takes it as a parameter. Columns the insert omits are taken as not public and absent, because the table schema is not part of this model.
- `ItemPatch` leaves out `id`. A `Partial<InventoryItem>` could carry one, but no caller passes it.
- The month of a row (`new Date(item.id).getMonth()`) depends on the time zone, so it is a parameter `monthOf` returning 0..11. The name-keyed dictionary of `getYearlyData` is an array indexed by month number; the month names are distinct, so the two agree.
- Floating point is not modelled: `Math.round`, `toFixed` and `|| 0` on NaN. Prices are exact reals.
- Stripe's `checkout.sessions.create` and Resend's `emails.send` are foreign calls, passed in as function parameters. The Stripe client, built at load time from the key (or "" when unset), is abstracted into the `create` parameter.
- Request bodies are taken as well-typed. A JSON field that is missing or not a string is not modelled, except that any parse failure counts as a thrown value.
- React rendering, alerts, console logs, the router and DOM reads of input values are UI plumbing. The price a handler receives is a parameter.
- Concurrency between admin sessions is not modelled; the source has no logic for it.
