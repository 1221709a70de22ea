# servix billing core and page helpers, in Dafny

servix is a fleet-maintenance product: an Express/MySQL backend and a React
frontend. This project models two groups of its code.

The first is the billing backend:

- the payment routes: invoice lookup, the Whish and APS session factories,
  and the provider webhook. The webhook covers the dedup key, the event log,
  and the reconciliation of sessions, invoices and subscriptions;
- the billing confirmation, which activates the newest pending subscription
  row of an organisation;
- the authentication middleware, the role gate and the two slug helpers.

The second is the frontend logic:

- the maintenance page (due status, visible tasks, marking a task done,
  first-load seeding);
- the dashboard (status chips, row filter, row deletion);
- the contact form (validation, error clearing, submit gate);
- the sign-up dialog (password score, strength tables, submit);
- the pricing cards (price text, plan-to-card mapping);
- the driver form (vehicle options, five-image cap, field handlers,
  validation order);
- the sidebar's active-link rule;
- the offline queue of the driver API.

## How the source is modelled

**Tables.** The database is the class `Database.Db`. Each of its five tables
is a field: `dedup` is a set, `events` a sequence, and sessions, invoices and
subscriptions are maps. Each SQL statement a handler runs becomes one update
of one field.

**Time.** Time is an abstract `Instant`, with the month as a whole number
and `AddMonth`.

**Outside calls are inputs.** The Stripe lookups, `jwt.verify`, `JSON.parse`,
`Number()`, `fetch` and the clock are all parameters.

**Page state.** Each React page is a class whose fields are its state
variables. Its handlers are methods whose contracts give the new state.

**JavaScript semantics written out** (module `Common`):

- truthiness of optional strings;
- the `\s` white-space class used by `trim`;
- case mapping, simplified to the ASCII letters (the members this affects are listed under "Left out");
- `String.prototype.includes` and `startsWith`;
- `.length` counted in UTF-16 code units;
- `Math.round` rounding halves upward.

**The code is followed where it differs from the intended design:**

- A FAILED or CANCELLED webhook marks the invoice failed even after it was
  paid (`PaymentRoutes.FailureAfterSuccessOverridesPaid`).
- A renewal ends one month after the *stored* period end, even one in the
  past (`PaymentRoutes.RenewAfterLapseEndsBeforeStart`).
- The webhook's writes are not atomic. A SUCCESS whose invoice has no
  subscription row leaves the session succeeded and the invoice paid, and no
  reply is written (`Aborted`).
- Confirming billing twice is idempotent only when the organisation has at
  most one pending row (`BillingController.ConfirmTwiceActivatesOlderRow`).
- `requireRole` reads `roleCode`, which `auth` never sets
  (`RequireRole.BehindAuthAlwaysForbidden`).

## Model

| member | source | states |
|---|---|---|
| Slugify.Hyphenate | backend/src/utils/slugify.js:2 | the result has only slug characters and no "--", is no longer than the input, is empty iff the input is, starts with '-' iff the input starts with a separator, and leaves an all-alphanumeric text unchanged |
| Slugify.HyphenateKeepsSlugChars | backend/src/utils/slugify.js:2 | the replacement keeps every letter and digit of its input, in order, and adds none |
| Slugify.HyphenateIsCollapse | backend/src/utils/slugify.js:2 | the replacement equals a character-by-character reading in which a separator writes '-' only when it starts a run: each maximal run of characters outside [a-z0-9] becomes exactly one '-' |
| Slugify.SlugCharsIsFilter | backend/src/utils/slugify.js:2 | the letters and digits the slug lemmas track are exactly the input filtered by [a-z0-9] |
| Slugify.TrimDashes | backend/src/utils/slugify.js:2 | stripping leading and trailing dashes keeps slug text without "--", never lengthens, and leaves neither end a '-' |
| Slugify.TrimDashesKeepsSlugChars | backend/src/utils/slugify.js:2 | stripping the end dashes removes no letter or digit |
| Slugify.Slugify | backend/src/utils/slugify.js:1-3 | the slug has only a-z, 0-9 and '-', no "--", never starts with '-', and is at most 80 long; its letters and digits are a leading part of those of the lower-cased input, and all of them when the input has at most 80 characters |
| Slugify.SlugifyKeepsSlugs | backend/src/utils/slugify.js:2 | a lower-case alphanumeric string of length at most 80 is its own slug |
| Slugify.TrailingDashOnlyWhenCut | backend/src/utils/slugify.js:2 | a slug that ends in '-' comes from a stripped slug longer than 80 (the cut happens after the strip) |
| Slugify.TrailingDashExample | backend/src/utils/slugify.js:2 | such a slug exists: 79 letters, a space and a letter give 79 letters and '-' |
| AuthController.DropEndDashes | backend/src/controllers/auth.controller.js:7 | removing one leading and one trailing '-' from hyphenated text leaves no '-' at either end |
| AuthController.OrgSlug | backend/src/controllers/auth.controller.js:6-8 | the organisation slug is never empty, has only slug characters, no "--" and no '-' at either end; it keeps every letter and digit of the lower-cased text in order, and is "org" exactly when there are none |
| AuthController.TrimKeepsSlugChars | backend/src/controllers/auth.controller.js:7 | `trim` removes no letter or digit |
| AuthController.DropEndDashesKeepsSlugChars | backend/src/controllers/auth.controller.js:7 | removing one dash at each end removes no letter or digit |
| AuthController.NoAlphanumericGivesFallback | backend/src/controllers/auth.controller.js:7 | a text without ASCII letters or digits gets "org" |
| AuthController.OrgSlugHasNoLengthCap | backend/src/controllers/auth.controller.js:7 | any non-empty lower-case alphanumeric text, however long, is its own organisation slug |
| AuthController.Me | backend/src/controllers/auth.controller.js:16-20 | 401 iff there is no user; otherwise the reply carries the user's id, orgId as org_id, and role |
| AuthMiddleware.CookieName | backend/src/middleware/auth.js:6 | the cookie name is the trimmed environment value, or "servix_token" when unset or empty |
| AuthMiddleware.SelectToken | backend/src/middleware/auth.js:9-13 | a non-empty cookie wins; otherwise a token exists iff the header starts with "Bearer ", and the header is "Bearer " followed by the token |
| AuthMiddleware.Auth | backend/src/middleware/auth.js:4-27 | next runs iff a non-empty token was selected and verifies; req.user then holds exactly the payload's id, orgId and role; everything else is 401 |
| AuthMiddleware.CookieTakesPrecedence | backend/src/middleware/auth.js:9-13 | with a usable cookie the Authorization header has no influence on the outcome |
| AuthMiddleware.NoTokenIsUnauthorized | backend/src/middleware/auth.js:15-17 | no cookie and no "Bearer " header gives 401 whatever the verifier does |
| AuthMiddleware.EmptyBearerIsUnauthorized | backend/src/middleware/auth.js:10-17 | the header "Bearer " with nothing after it is refused as a missing token |
| AuthMiddleware.AsObject | backend/src/middleware/auth.js:21 | the `req.user` object auth writes has at most the properties id, orgId and role, each present iff the payload has it and holding the payload's value |
| RequireRole.RequireRole | backend/src/middleware/requireRole.js:1-7 | for any `req.user` object: 401 without a user (before any role test); otherwise next iff its roleCode is present and in the allowed list, else 403 |
| RequireRole.AllowedRoleCodeProceeds | backend/src/middleware/requireRole.js:3-6 | a user object whose roleCode is in the allowed list is let through |
| RequireRole.BehindAuthAlwaysForbidden | backend/src/middleware/requireRole.js:3 | behind the auth middleware, which writes no roleCode, every allowed list yields 403 |
| Database.AddMonth | backend/src/routes/payment.routes.js:104-105 | one month on is strictly later and keeps the position in the month |
| PaymentRoutes.SafeParse | backend/src/routes/payment.routes.js:72 | null exactly when parsing throws, else the parsed value |
| PaymentRoutes.SessionIdentity | backend/src/routes/payment.routes.js:75 | the first truthy of id, transactionId, fort_id; none for a null payload or when all three are falsy; never the empty string |
| PaymentRoutes.Classify | backend/src/routes/payment.routes.js:120-123 | SUCCESS iff the text contains "SUCCESS"; CANCELLED iff it does not but contains "CANCEL"; FAILED iff it contains neither |
| PaymentRoutes.NormalizeStatus | backend/src/routes/payment.routes.js:118-124 | the same three-way rule over the upper-cased serialisation of the payload, a null payload serialising as `""` |
| PaymentRoutes.NullPayloadIsFailed | backend/src/routes/payment.routes.js:120 | an unparsable body is classified FAILED |
| PaymentRoutes.SuccessWinsOverCancel | backend/src/routes/payment.routes.js:121-122 | a payload mentioning both SUCCESS and CANCEL is SUCCESS |
| PaymentRoutes.SessionStatusOf | backend/src/routes/payment.routes.js:111 | each outcome is stored as its own session status, and distinct outcomes as distinct statuses |
| PaymentRoutes.DedupKeyInjective | backend/src/routes/payment.routes.js:81 | equal dedup keys have equal provider, session identity and outcome, even when the identity contains ':' |
| PaymentRoutes.InvoiceLookup | backend/src/routes/payment.routes.js:11-18 | 404 iff the invoice does not exist; otherwise its id, amount, currency and status |
| PaymentRoutes.SessionIdFor | backend/src/routes/payment.routes.js:29 | a session id starts with the provider name and '_' |
| PaymentRoutes.SessionIdsDistinct | backend/src/routes/payment.routes.js:29 | session ids minted for different providers or clock readings differ |
| PaymentRoutes.PaymentUrl | backend/src/routes/payment.routes.js:36 | the payment URL starts with the provider's prefix and ends with the session id |
| PaymentRoutes.CreateSession | backend/src/routes/payment.routes.js:21-56 | an absent or unknown invoice gives 404 and no insert; otherwise exactly one session is added, status created, with the invoice's amount and currency, and the reply's URL embeds its id |
| PaymentRoutes.PayInvoice | backend/src/routes/payment.routes.js:96 | the named invoice becomes paid with paid_at now; no other invoice changes |
| PaymentRoutes.FailInvoice | backend/src/routes/payment.routes.js:112 | the named invoice becomes failed whatever its status; no other invoice changes |
| PaymentRoutes.RenewalTarget | backend/src/routes/payment.routes.js:98-102 | the subscription row exists iff the invoice exists, names a subscription, and that row exists |
| PaymentRoutes.Renew | backend/src/routes/payment.routes.js:104-109 | the row becomes active, its period starts now and ends one month after the stored end (now when none), strictly later than that base; nothing else in the row changes |
| PaymentRoutes.RenewAfterLapseEndsBeforeStart | backend/src/routes/payment.routes.js:104-109 | renewing a subscription that lapsed more than a month ago leaves a period that ends before it starts |
| PaymentRoutes.HandleWebhook | backend/src/routes/payment.routes.js:74-116 | no identity: "ok", no change. Key already present: "duplicate", no change. Otherwise the key is added and one event logged. Unknown session: nothing else changes. SUCCESS: session succeeded, invoice paid, linked subscription renewed (no reply when it is missing). FAILED/CANCELLED: session takes the outcome, invoice failed, subscriptions untouched |
| PaymentRoutes.HandleWebhookKeepsLog | backend/src/routes/payment.routes.js:80-89 | the dedup set stays exactly the keys of the logged events, one event per key, and a delivery logs at most one event |
| PaymentRoutes.RedeliveryIsDuplicate | backend/src/routes/payment.routes.js:80-84 | delivering the same event twice answers the second with "duplicate" |
| PaymentRoutes.FailureAfterSuccessOverridesPaid | backend/src/routes/payment.routes.js:110-113 | a FAILED or CANCELLED event after a SUCCESS for the same session is admitted and leaves the invoice failed |
| BillingController.SubscriptionIdOf | backend/src/controllers/billing.controller.js:21-23 | a string reference is the id, an object gives its id, and only a truthy id counts |
| BillingController.Decide | backend/src/controllers/billing.controller.js:6-28 | guards in source order: 400 missing session_id, then 401 no org, then 500 on a thrown session lookup, 400 invalid session, 400 no subscription, 500 on a thrown subscription lookup; the update runs iff every check passes, with the org, subscription id and provider instants |
| BillingController.NewestUnique | backend/src/controllers/billing.controller.js:40-42 | the row ORDER BY id DESC LIMIT 1 selects among the pending rows is unique |
| BillingController.NewestPending | backend/src/controllers/billing.controller.js:40-42 | no row iff the organisation has no pending row; otherwise the pending row with the largest id |
| BillingController.FindNewestPending | backend/src/controllers/billing.controller.js:33-44 | the scan finds no row iff none is pending for the org, and otherwise the newest pending one |
| BillingController.Activate | backend/src/controllers/billing.controller.js:35-39 | the row becomes active with provider "stripe" and the subscription id; period end and trial end are overwritten only by a present provider value |
| BillingController.Confirmed | backend/src/controllers/billing.controller.js:33-44 | only the newest pending row of the org changes, it leaves the pending set, no row joins it, and every other row (other orgs included) is unchanged |
| BillingController.ConfirmBilling | backend/src/controllers/billing.controller.js:6-59 | a rejected request replies with the guard's error and changes no row; an accepted one replies ok and applies the update |
| BillingController.NoPendingRowIsNoop | backend/src/controllers/billing.controller.js:46-54 | with no pending row the update changes nothing (the reply is still ok) |
| BillingController.ConfirmIdempotentWithOnePending | backend/src/controllers/billing.controller.js:40 | with at most one pending row a repeated confirmation changes nothing more |
| BillingController.ConfirmTwiceActivatesOlderRow | backend/src/controllers/billing.controller.js:40-42 | with two or more pending rows a repeated confirmation activates another row |
| BillingController.OtherRowsUntouched | backend/src/controllers/billing.controller.js:40 | a row of another organisation or not pending is never changed |
| BillingController.DecideAsWritten | backend/src/controllers/billing.controller.js:1-15 | with the Stripe client undefined, every request past the two guards answers 500 |
| BillingController.AsWrittenNeverConfirms | backend/src/controllers/billing.controller.js:15 | as written, no request reaches the table update |
| BillingController.ValidSessionReachesUpdate | backend/src/controllers/billing.controller.js:15-28 | with a working client, a subscription-mode session naming a subscription reaches the update |
| Maintenance.StatusOf | frontend/src/pages/Admin/Maintenance.jsx:80-89 | Overdue iff days or km left is negative; Due Soon iff not overdue and days ≤ 7 or km ≤ 500; OK iff days > 7 and km > 500 |
| Maintenance.VisibleTasks | frontend/src/pages/Admin/Maintenance.jsx:91-94 | an order-preserving subsequence holding exactly those tasks whose status is not OK, each as many times as in the input |
| Maintenance.OdometerOverdueAlwaysVisible | frontend/src/pages/Admin/Maintenance.jsx:84-94 | a task past its odometer limit is Overdue and shown, whatever its date |
| Maintenance.DemoTasksShown | frontend/src/pages/Admin/Maintenance.jsx:45-70 | whatever today is, the first two demo tasks are shown and the first is overdue |
| Maintenance.LoadLS | frontend/src/pages/Admin/Maintenance.jsx:11-18 | the fallback when the entry is absent or empty or does not parse, otherwise the parsed value |
| Maintenance.LoadAfterSave | frontend/src/pages/Admin/Maintenance.jsx:11-19 | loading what was saved gives it back for any serialisation the parser inverts |
| Maintenance.MaintenancePage.Mount | frontend/src/pages/Admin/Maintenance.jsx:41-77 | a stored array is used as is; anything else seeds and saves the demo tasks; history is the stored list or [] |
| Maintenance.MaintenancePage.MarkDone | frontend/src/pages/Admin/Maintenance.jsx:97-109 | every task with that id leaves the list, the others stay in order, one history entry is prepended, and both lists are saved |
| Maintenance.EmptyStoredListNotReseeded | frontend/src/pages/Admin/Maintenance.jsx:42-43 | a stored empty array is kept: no demo seeding and no save |
| Dashboard.Toggle | frontend/src/pages/Admin/Dashboard.jsx:219-226 | exactly the given chip changes membership |
| Dashboard.ToggleTwice | frontend/src/pages/Admin/Dashboard.jsx:219-226 | toggling a chip twice restores the set |
| Dashboard.FilterRows | frontend/src/pages/Admin/Dashboard.jsx:230-245 | an order-preserving subsequence holding exactly the rows whose name matches and, with chips selected, one of whose chips matches, each as many times as in the input |
| Dashboard.FilteredRows | frontend/src/pages/Admin/Dashboard.jsx:228-246 | the same, with multiplicities, for the trimmed lower-cased query |
| Dashboard.BlankQueryShowsAll | frontend/src/pages/Admin/Dashboard.jsx:229-233 | a blank or white-space query with no chip selected shows every row |
| Dashboard.LowerTrimCommute | frontend/src/pages/Admin/Dashboard.jsx:229 | trimming and lower-casing commute |
| Dashboard.QueryCaseInsensitive | frontend/src/pages/Admin/Dashboard.jsx:229-231 | queries equal up to letter case show the same rows |
| Dashboard.DashboardPage.ToggleChip | frontend/src/pages/Admin/Dashboard.jsx:219-226 | the chip set becomes the toggled set |
| Dashboard.DashboardPage.OnDelete | frontend/src/pages/Admin/Dashboard.jsx:265-270 | unconfirmed: nothing changes; confirmed: every row with that internal number goes, the rest stay in order, and the selection is cleared only when it has that number |
| Contact.EmailHasOneAt | frontend/src/sections/Contact.jsx:19 | an accepted address has exactly one '@' |
| Contact.EmailExamples | frontend/src/sections/Contact.jsx:19 | "a@b.c" is accepted; "a@b", "@b.c" and "a b@c.d" are not |
| Contact.NameError | frontend/src/sections/Contact.jsx:17 | a name error iff the trimmed name is empty |
| Contact.EmailError | frontend/src/sections/Contact.jsx:18-19 | a blank email is "enter your email"; otherwise the "valid email" error iff the address lacks the x@y.z shape |
| Contact.MessageError | frontend/src/sections/Contact.jsx:20-21 | a message error iff the trimmed message has fewer than 10 UTF-16 units |
| Contact.Validate | frontend/src/sections/Contact.jsx:15-23 | the keys are among name, email and message (company never); each is present iff its check fails, with that check's message |
| Contact.BlankMessageRejected | frontend/src/sections/Contact.jsx:20-21 | a white-space-only message is always too short |
| Contact.ContactForm.OnChange | frontend/src/sections/Contact.jsx:9-13 | only the edited value changes, and only that field's shown error is blanked |
| Contact.ContactForm.OnSubmit | frontend/src/sections/Contact.jsx:25-40 | the errors become the validation result; any error stops the submit with values and status unchanged; otherwise the status is ok and all four fields are cleared |
| SignupModal.CriteriaCount | frontend/src/pages/signUpModal.jsx:9-17 | the number of criteria met is at most 5 |
| SignupModal.ScorePassword | frontend/src/pages/signUpModal.jsx:9-17 | the score is the number of criteria met (length ≥ 8, upper, lower, digit, other) and lies in 0..5 |
| SignupModal.EmptyScoresZero | frontend/src/pages/signUpModal.jsx:9-17 | the empty password scores 0 |
| SignupModal.AllScoresReached | frontend/src/pages/signUpModal.jsx:10-15 | every score from 0 to 5 is reached |
| SignupModal.ScoreMonotone | frontend/src/pages/signUpModal.jsx:10-15 | appending characters never lowers the score |
| SignupModal.AstralCharactersCountTwice | frontend/src/pages/signUpModal.jsx:11 | four characters outside the Basic Multilingual Plane already meet the length criterion |
| SignupModal.StrengthLabelOf | frontend/src/pages/signUpModal.jsx:18 | the label table covers every score; the label is empty iff the score is 0 |
| SignupModal.StrengthBarOf | frontend/src/pages/signUpModal.jsx:19-26 | the bar table covers every score; "w-0" iff 0, full iff 5 |
| SignupModal.SignupForm.OnSubmit | frontend/src/pages/signUpModal.jsx:71-98 | without agreement nothing happens; a failure sets the error text (data.message, "Signup failed" or "Network error"); a success navigates to the checkout URL or "/admin"; loading ends false |
| Pricing.RoundedDollars | frontend/src/sections/Pricing.jsx:10-12 | the whole dollar amount within half a dollar of the cents, halves rounding up |
| Pricing.RoundedDollarsUnique | frontend/src/sections/Pricing.jsx:12 | that amount is the only one |
| Pricing.CentsToMoney | frontend/src/sections/Pricing.jsx:8-13 | null iff the cents are null; otherwise "$" followed by the nearest whole dollar amount |
| Pricing.CentsToMoneyExamples | frontend/src/sections/Pricing.jsx:8-13 | 1900 is "$19", 4950 is "$50", 4949 is "$49", 0 is "$0" |
| Pricing.ParsedFeatures | frontend/src/sections/Pricing.jsx:40-45 | [] when features_json is absent, empty or unparsable, else the parsed list |
| Pricing.DefaultFeatures | frontend/src/sections/Pricing.jsx:46-51 | optional "Up to N vehicles", then optional "Up to N users", then the two generic bullets |
| Pricing.PlanFeatures | frontend/src/sections/Pricing.jsx:39-51 | the stored list when it has entries, the default bullets otherwise; never empty |
| Pricing.ToUiPlan | frontend/src/sections/Pricing.jsx:60-70 | code and name kept; "Custom" with an empty period iff the price is null, else the money text per "/mo"; highlight and popular iff "pro"; "Contact us" iff "enterprise", else "Subscribe"; the plan's description, non-empty iff the code is starter, pro or enterprise; the features of `Pricing.PlanFeatures` |
| Pricing.ToUiPlans | frontend/src/sections/Pricing.jsx:37-71 | one card per row, in row order |
| Pricing.FreePlanIsNotCustom | frontend/src/sections/Pricing.jsx:63-64 | a price of 0 cents shows "$0" per "/mo" |
| DriverForm.GroupVehicles | frontend/src/pages/driver/DriverForm.jsx:124-137 | two vehicles for each known group, none for any other |
| DriverForm.VehicleOptions | frontend/src/pages/driver/DriverForm.jsx:178-187 | the placeholder, then the group's vehicles in order, labelled in the page language |
| DriverForm.UnknownGroupOnlyPlaceholder | frontend/src/pages/driver/DriverForm.jsx:180 | an empty or unknown group gives only the placeholder |
| DriverForm.OptionsBelongToGroup | frontend/src/pages/driver/DriverForm.jsx:178-187 | every non-placeholder option is a vehicle of the selected group |
| DriverForm.NumberOk | frontend/src/pages/driver/DriverForm.jsx:228-229 | the empty value passes; any other passes iff it is a non-negative finite number |
| DriverForm.RemoveAt | frontend/src/pages/driver/DriverForm.jsx:222-223 | exactly position idx goes, the others keep their order; an index outside the list removes nothing |
| DriverForm.Previews | frontend/src/pages/driver/DriverForm.jsx:216 | one preview per file, in file order |
| DriverForm.DriverFormPage.constructor | frontend/src/pages/driver/DriverForm.jsx:154-163 | group and vehicle come back from storage when truthy; every other field starts empty |
| DriverForm.DriverFormPage.HandleChange | frontend/src/pages/driver/DriverForm.jsx:190-202 | the named field takes the value; a group change clears the vehicle and its stored copy; a vehicle choice is stored |
| DriverForm.DriverFormPage.HandleImages | frontend/src/pages/driver/DriverForm.jsx:212-219 | no files: no change; otherwise the old images stay as a prefix, new files follow in order, the list is cut at 5, and the previews match |
| DriverForm.DriverFormPage.RemoveImage | frontend/src/pages/driver/DriverForm.jsx:221-226 | position idx leaves both the images and the previews, which stay matched |
| DriverForm.DriverFormPage.Validate | frontend/src/pages/driver/DriverForm.jsx:231-241 | a missing group, vehicle or odometer gives the "required" toast before any number check; then bad numbers give "invalid numbers"; ok iff both pass |
| Sidebar.ActivePathIsPrefix | frontend/src/components/admin/Sidebar.jsx:50-52 | an active item's path is a prefix of the current path |
| Sidebar.NoBoundaryNotActive | frontend/src/components/admin/Sidebar.jsx:50-52 | a path extended without a '/' boundary is not active |
| Sidebar.VehiclesXNotActive | frontend/src/components/admin/Sidebar.jsx:50-52 | "/admin/vehiclesX" does not activate "/admin/vehicles" |
| Sidebar.PathsDifferAtSeven | frontend/src/components/admin/Sidebar.jsx:12-18 | the four item paths differ at their eighth character |
| Sidebar.AtMostOneActive | frontend/src/components/admin/Sidebar.jsx:49-52 | for any pathname at most one sidebar item is active |
| DriverApi.Stamped | frontend/src/pages/driver/driverApi.js:15 | the entry is the report plus a ts field holding the clock reading |
| DriverApi.PendingQueue | frontend/src/pages/driver/driverApi.js:14 | a missing queue reads as empty, a stored array as itself, anything else fails |
| DriverApi.SubmitMaintenance | frontend/src/pages/driver/driverApi.js:3-18 | online: storage untouched, a non-ok response rejects with "Network error", an ok one resolves to the body; offline: the stamped report is appended and the result is savedOffline |
| DriverApi.OfflineAppends | frontend/src/pages/driver/driverApi.js:14-17 | offline the queue grows by one, keeps its earlier entries in order and ends with the stamped report |

## Left out

- Express wiring, the MySQL pool and SQL text: the tables are in-memory fields.
- Concurrency: dedup is a sequential insert-if-absent in place of the unique constraint.
- The payment-event row id (`evt_${Date.now()}`) is not modelled.
- JavaScript `Date`: `NOW()` and the days left until a due date are inputs; `Instant` stands for dates.
- Database.AddMonth: does not model `setMonth` day overflow (31 January plus one month).
- PaymentRoutes.CreateSession: requires the new session id to be unused. Two sessions minted in the same millisecond would collide in the source; the model does not capture that.
- PaymentRoutes.HandleWebhook: a missing invoice or subscription row in the success branch is the reply `Aborted`. A database error at any other statement is not modelled.
- `JSON.parse`/`JSON.stringify` are inputs, or a stored JSON text, and are not modelled.
- `jwt.verify` is an input.
- Stripe calls are inputs.
- bcrypt, `signup`, `addDays` and `genId` in the auth controller are not modelled.
- BillingController.ConfirmBilling: database errors during the update (a 500 in the source) are not modelled; only a thrown Stripe lookup gives 500.
- PaymentRoutes.NormalizeStatus: `toUpperCase` is modelled on the ASCII letters only. JavaScript also maps 'ß' to "SS" and the long s 'ſ' to 'S', so a status "succeß" or "ſuccess" counts as SUCCESS in the source but not in the model.
- Slugify.Slugify: `toLowerCase` is modelled on the ASCII letters only. JavaScript also lowers, for example, the Kelvin sign to 'k', which then survives as a slug character; here it becomes a separator.
- AuthController.OrgSlug: the same ASCII-only `toLowerCase` as `Slugify.Slugify`.
- Dashboard.FilteredRows: the same ASCII-only `toLowerCase`, so non-ASCII capitals in a name or query compare case-sensitively here.
- DriverForm.NumberOk: `Number()` parsing is the input `isNonNegativeNumber`.
- Maintenance.StatusOf: the `Math.ceil` day difference is the input `daysLeft`.
- Pricing.PlanFeatures: a `features_json` that parses to a non-array JSON value (whose `length` is not 0) is not modelled; the parser yields a list of strings.
- `Number(cents)` with a non-numeric or fractional value is not modelled; cents are whole numbers.
- DriverForm.Previews: `URL.createObjectURL` yields a fresh URL per call; a preview is identified with its file.
- Image resizing and base64 encoding are not modelled.
- SignupModal.SignupForm.OnSubmit: the intermediate `loading` state during the request is not modelled; only the final state is.
- Dashboard: the mock rows, the driver selection and the status and next-service dialogs are not modelled.
- Contact: the 800 ms timer is not modelled; its catch branch cannot be reached.
- DriverApi.SubmitMaintenance: the request body and URL of the online branch are not modelled.
- Pure rendering, routing and the service worker are not modelled.

## Findings

| source | as written | input that shows it | evidently intended | confidence | as-written member | corrected member |
|---|---|---|---|---|---|---|
| backend/src/controllers/billing.controller.js:1-15 | the Stripe client is commented out, so `stripe.checkout.sessions.retrieve` throws a ReferenceError | any request with a session_id and a signed-in organisation | the session and subscription are looked up and the newest pending row is activated | high (not executed) | BillingController.AsWrittenNeverConfirms | BillingController.ValidSessionReachesUpdate |
