# Maintenance information system: a verified model of its core

This project models the core of a factory maintenance-information system in Dafny. The system has two parts:

- an Express/PostgreSQL REST server with JWT bearer authentication;
- a React single-page application for assets, preventive maintenance (PM), breakdowns, spare parts, utility meters, KPIs and user management.

The model covers the following.

On the server:
- The spare-part stock transaction (`POST /api/spares/transaction`). It is one atomic step over the inventory table and the transaction log. The class `StockTransaction.Inventory` runs it in place and is proved equal to that step.
- The enum validators of the create and update routes.
- The `COALESCE` partial updates of assets, breakdowns, spares and PM schedules.
- The consequence of db.js creating its `postgres` client without `transform.undefined`: a query parameter that is `undefined` is refused before it reaches the database. This happens for a field read through `?.` that is missing or `null`, for a left-out field of the transaction's INSERT, and for a register body without `full_name`. The handler answers 500.
- Login, including the migration of legacy plaintext passwords to bcrypt.
- Registration, over the `users` and `profiles` tables. The class `Accounts.AccountStore` holds these tables.
- The authentication middleware (`authMiddleware`, `optionalAuthMiddleware`, `requireRole`, `requireAdmin`, `requireManager`) and the admin-gated asset deletion.

In the front end:
- The authentication context: the permission and role checks, and the mock login and logout over localStorage.
- The route guard.
- The navigation shell.
- The dashboard cards, subtitles and alerts.
- The KPI ratings.
- On the pages for spares, breakdowns, assets, PM, user management and utilities: the filters, counters, list updates and dialog gates. Each page's state is a class. Each of its handlers is proved to compute a pure list function, and the properties are proved about those functions.

The permission grouping on the user-management page mutates an accumulator object. It is modelled as a loop (`UserManagement.GroupByCategory`).

The model takes these as parameters instead of computing them:
- bcrypt `compare`/`hash`, JWT signing and verification;
- the clock, date strings, time-stamp parsing and new ids;
- the browser's confirmation prompt;
- the mock data tables (`rolePermissions`, the mock users).
- whether a database statement throws, with its message, on the stock transaction, the update routes and the asset deletion.

Module `Text` gives the JavaScript string operations the code uses: `toLowerCase`, `toUpperCase`, `startsWith`, `includes` and `trim`. Module `Seqs` gives `filter`, the rewriting `map`, and `[...new Set()]`.

## Model

| member | source | states |
|---|---|---|
| RequestValidation.ValidateAssetCreate | server/server.js:101-109 | Accepts iff each of status and type is absent, empty, or lower-cases to an allowed value (`active/under_amc/inactive/disposed`, `machine/utility/auxiliary`); every rejection is 400 |
| RequestValidation.ValidateAssetUpdate | server/server.js:133-144 | Accepts exactly the bodies the create-time check accepts; rejections are 400 |
| RequestValidation.ValidateBreakdownUpdate | server/server.js:269-274 | Accepts iff the status is absent, empty, or lower-cases to one of the five breakdown statuses; else 400 |
| RequestValidation.ValidatePmCreate | server/server.js:524-527 | Accepts iff the status is absent, empty, or lower-cases to scheduled/completed/overdue; else 400 |
| RequestValidation.ValidatePmUpdate | server/server.js:550-555 | Accepts exactly what the create-time PM check accepts |
| RequestValidation.ValidateUtilityCreate | server/server.js:614-617 | Accepts iff the type is present and exactly one of Power/Water/Air/Gas, case-sensitively; else 400 |
| RequestValidation.ValidateTransaction | server/server.js:437-445 | Accepts iff the direction lower-cases to issue or return, and the pm/bd type lower-cases to pm or bd whenever both the pm/bd id and type are given |
| RequestValidation.FoldedCheckIgnoresCase | server/server.js:102 | A lower-casing membership check gives the same answer for a value and for its lower-case form |
| RequestValidation.FoldedValidatorsIgnoreCase | server/server.js:101-109 | The asset, breakdown and PM validators cannot tell a value from its lower-case spelling |
| RequestValidation.UtilityTypeIsCaseSensitive | server/server.js:614-617 | `Power` is accepted, `power` and a missing type are refused |
| RequestValidation.EmptyValuesSkipOptionalChecks | server/server.js:133-144 | An empty string is falsy and passes every optional validator unchecked |
| PartialUpdates.Coalesce | server/server.js:146-167 | `COALESCE(v, column)`: the column when the value is NULL, else the value |
| PartialUpdates.CoalesceLaws | server/server.js:146-167 | COALESCE is idempotent, and two successive COALESCEs equal one with the later value preferred |
| PartialUpdates.UpdateAsset | server/server.js:128-172 | 400 iff validation fails; 500 iff valid and either `asset_type?.toLowerCase()`, `asset_status?.toLowerCase()` or `req.user?.id` is undefined (details: the client's undefined-value error) or the statement throws (details: its message); 404 iff valid, no throw and the id is missing; the table is unchanged on all three; on 200 only that row changes, to `ApplyAssetPatch` of the stored row |
| PartialUpdates.EmptyAssetPatchKeepsData | server/server.js:146-167 | The all-NULL COALESCE patch changes no data column of the asset (a law of the statement: the handler answers an empty body with 500 first) |
| PartialUpdates.AssetPatchIdempotent | server/server.js:146-167 | Applying the same asset update twice equals applying it once |
| PartialUpdates.AssetEnumsStayLowerCase | server/server.js:154-159 | Type and status are stored lower-cased, so a row with lower-case enums keeps them after any update |
| PartialUpdates.AcceptedAssetStatusIsStored | server/server.js:133-159 | A non-empty status that passes validation is stored as one of the four allowed values |
| PartialUpdates.EmptyAssetStatusOverwrites | server/server.js:133-171 | An empty status skips validation, so only the type can cause a 400; with a type, a user and a column that accepts it, the empty string is stored over the old status; a statement that throws answers without a change |
| PartialUpdates.NullAssetEnumIsRefused | server/server.js:130-171 | As written, a body whose `asset_type` or `asset_status` is missing or `null` never updates: the answer is 400 or 500 with the table unchanged, and an empty body answers 500 with the client's undefined-value error |
| PartialUpdates.UpdateBreakdown | server/server.js:260-299 | 400 iff the status is invalid; 500 iff valid and either `shift_id?.toUpperCase()` or `bd_status?.toLowerCase()` is undefined or the statement throws; 404 iff valid, no throw and the id is missing; table unchanged on all three; on 200 only that row changes, to `ApplyBreakdownPatch` of the stored row |
| PartialUpdates.BreakdownPatchLaws | server/server.js:277-294 | The all-NULL COALESCE patch changes nothing (the handler answers an empty body with 500 first); an update applied twice equals applying it once; a supplied shift is stored upper-case and a supplied status lower-case |
| PartialUpdates.UpdateSpare | server/server.js:390-417 | Never 400; 500 iff `req.user?.id` is undefined or the statement throws; 404 iff no throw and the id is missing; table unchanged on both; on 200 only that row changes, to `ApplySparePatch` of the stored row |
| PartialUpdates.SparePatchLaws | server/server.js:394-412 | An empty body changes no data column; an update is idempotent; stock changes only when the body supplies it |
| PartialUpdates.UpdatePm | server/server.js:545-578 | 400 iff the status is invalid; 500 iff valid and either `status?.toLowerCase()` is undefined or the statement throws; 404 iff valid, no throw and the id is missing; table unchanged on all three; on 200 only that row changes, to `ApplyPmPatch` of the stored row |
| PartialUpdates.PmPatchLaws | server/server.js:558-573 | The all-NULL COALESCE patch changes nothing (the handler answers an empty body with 500 first); an update is idempotent; a supplied status is stored lower-case |
| StockTransaction.Inventory.PostTransaction | server/server.js:434-488 | The handler's outcome and the new inventory and log are exactly those of the atomic transaction step |
| StockTransaction.StepIsAtomic | server/server.js:448-481 | On 201 exactly one record is appended and exactly the requested part is rewritten; on any other outcome neither table changes |
| StockTransaction.ValidationPrecedesReads | server/server.js:437-445 | A rejected direction or pm/bd type answers 400 whatever the tables hold, and writes nothing |
| StockTransaction.StepSucceedsExactly | server/server.js:448-481 | Success iff the request validates, the part exists, an issue does not exceed the stock, no INSERT parameter is undefined, and no write fails; then the new stock is old ∓ quantity, the record's balance equals it, and other parts are unchanged |
| StockTransaction.FailedChecksChangeNothing | server/server.js:450-457 | An unknown part or an over-large issue answers 500 with that error's message and leaves both tables unchanged |
| StockTransaction.ErrorText | server/server.js:486 | The catch block answers the thrown message, or "Database transaction error" when that message is empty |
| StockTransaction.WriteFaultsChangeNothing | server/server.js:459-486 | A write that fails after the checks pass answers 500 with its message, or the fallback text for an empty message, and the rollback leaves both tables unchanged |
| StockTransaction.UndefinedParameterIsRefused | server/server.js:463-486 | As written, a request that passes the checks but has no `pm_bd_type` (missing or `null`), leaves out `asset_id`, `pm_bd_id` or `purpose`, or has no user, answers 500 with the client's undefined-value error and writes nothing, whatever the database would do |
| StockTransaction.UnlinkedIssueIsRefused | server/server.js:463-486 | As written, issuing 2 from a stock of 20 with `pm_bd_type` null answers 500 and changes nothing |
| StockTransaction.IssueNeverGoesNegative | server/server.js:454-460 | A successful issue leaves the part's stock, and the recorded balance, non-negative |
| StockTransaction.NonNegativeStockPreserved | server/server.js:454-478 | Every request with a non-negative quantity keeps all stock levels non-negative |
| StockTransaction.NegativeReturnIsAccepted | server/server.js:435-460 | The quantity's sign is never checked: a return of -5 from a stock of 2 succeeds and leaves -3 |
| StockTransaction.LedgerAgreementPreserved | server/server.js:463-478 | Each part's latest logged balance stays equal to its current stock across every request |
| StockTransaction.IssueTwoFromTwenty | server/test-endpoints.js:189-206 | Issuing 2 from a stock of 20 succeeds and records a balance of 18 |
| Accounts.FindByEmail | server/server.js:719-724 | The first profile whose email is exactly the given one, or none iff no profile has it |
| Accounts.AccountStore.Login | server/server.js:711-788 | The answer and the new profile table are those of the login step; the users table is untouched |
| Accounts.AccountStore.Register | server/server.js:791-897 | The answer and both new tables are those of the register step |
| Accounts.BcryptPrefixes | server/server.js:735 | Only non-empty passwords with a `$2a$`, `$2b$` or `$2y$` prefix count as hashes |
| Accounts.LoginFailuresAreUniform | server/server.js:726-762 | An unknown email and a wrong password give the same 401 "Invalid email or password" and change nothing |
| Accounts.LoginSucceedsExactly | server/server.js:713-783 | Login succeeds iff both fields are non-empty and the first profile with that email accepts the password; the returned user has that email |
| Accounts.HashedLoginChangesNothing | server/server.js:739-741 | When every stored password is a hash, no login writes the table |
| Accounts.PlaintextLoginMigrates | server/server.js:743-757 | A matching legacy plaintext password logs in and replaces exactly that row's password with the new hash; logging in again then gives the same answer and table |
| Accounts.RegisterRefusesDuplicate | server/server.js:819-824 | A registered email answers 409 and neither table changes |
| Accounts.RegisterSucceedsExactly | server/server.js:791-895 | Registration succeeds iff all three fields are present, the lower-cased role is allowed, the password has ≥ 6 characters, the email is new and `full_name` is in the body (a JSON `null` counts); a refusal is 400, 409 or 500 and changes neither table |
| Accounts.RegisterAppendsAccount | server/server.js:849-869 | A successful registration appends one row to each table, with the new hash and the lower-cased role, and keeps existing rows |
| Accounts.RegisterThenLogin | server/server.js:791-897 | Logging in right after registering with the same credentials succeeds, as the new id and with the stored lower-case role, and writes nothing |
| Accounts.PasswordLengthBoundary | server/server.js:809-814 | A 5-character password is refused as weak and a 6-character one is accepted |
| Accounts.MissingFullNameIsRefused | server/server.js:849-869 | A body that passes every check but has no `full_name` answers 500 with the client's undefined-value error and changes neither table; a `null` `full_name` registers with NULL stored |
| AuthMiddleware.BearerToken | server/src/middleware/auth.js:28-35 | A token exists iff the header starts with the case-sensitive `Bearer `; it is the trimmed rest of the header |
| AuthMiddleware.FindById | server/src/middleware/auth.js:68-74 | A profile with the given id, or none iff no profile has it |
| AuthMiddleware.Authenticate | server/src/middleware/auth.js:22-130 | Proceeds iff the token is non-empty and verifies, and the lookup finds a profile; then id and header come from the token, the role from the database, and the email from the token or else the profile; otherwise 401, or 500 when the lookup fails |
| AuthMiddleware.OptionalAuthenticate | server/src/middleware/auth.js:139-207 | Never rejects; authenticated exactly when a user is attached |
| AuthMiddleware.OptionalAgreesWithRequired | server/src/middleware/auth.js:139-207 | The optional middleware authenticates exactly when the required one passes, and with the same user |
| AuthMiddleware.TokenRoleIsIgnored | server/src/middleware/auth.js:103-114 | Tokens that differ only in role give identical decisions in both middlewares |
| AuthMiddleware.MalformedHeadersAreRefused | server/src/middleware/auth.js:26-42 | No header, a lower-case `bearer` prefix and a blank token are all refused with 401 |
| AuthMiddleware.RequireRole | server/src/middleware/auth.js:217-248 | Passes iff there is a user with a non-empty role exactly in the list; 401 without a user, otherwise 403 |
| AuthMiddleware.RequireAdmin | server/src/middleware/auth.js:254 | As written: passes iff the role is exactly `ADMIN` |
| AuthMiddleware.RequireManager | server/src/middleware/auth.js:260 | As written: passes iff the role is exactly `ADMIN` or `MANAGER` |
| AuthMiddleware.WrittenGatesRefuseStoredRoles | server/src/middleware/auth.js:237 | Every non-empty lower-case role, and so every role registration stores, is refused with 403 by both written gates |
| AuthMiddleware.RegisteredAdminIsRefused | server/server.js:799-801 | The admin that registration stores is refused by the written admin gate and admitted by the intended one |
| AuthMiddleware.RequireAdminIntended | server/src/middleware/auth.js:254 | Corrected: passes iff the role is the stored `admin` |
| AuthMiddleware.RequireManagerIntended | server/src/middleware/auth.js:260 | Corrected: passes iff the role is the stored `admin` or `manager` |
| AuthMiddleware.IntendedGatesOnStoredRoles | server/src/middleware/auth.js:217-260 | For the four stored roles, the corrected gates admit exactly admin, and exactly admin or manager; a refusal is 403 |
| AuthMiddleware.DeleteBehind | server/server.js:176-186 | After the gate: its refusal unchanged, else 500 when the DELETE throws, else 404 for a missing id, else 200 with exactly that row removed |
| AuthMiddleware.DeleteAssetAsWritten | server/server.js:176-186 | As written behind `requireAdmin`: 200 iff the role is exactly `ADMIN`, the statement does not throw and the id exists; the table is unchanged on every refusal |
| AuthMiddleware.StoredRolesCannotDelete | server/server.js:176-186 | As written, every role that registration stores gets 403 on the delete route, with the table unchanged |
| AuthMiddleware.StoredAdminDeletes | server/server.js:176-186 | With the corrected gate, a stored `admin` deletes an existing asset (200, the row removed), where the route as written answers 403 |
| AuthMiddleware.DeleteAsset | server/server.js:176-186 | Deletes and answers 200 iff the corrected admin gate passes, the statement does not throw and the id exists; 500 iff the gate passes and the statement throws; 404 iff the gate passes, no throw and the id is missing; otherwise 401 or 403; the table is unchanged on every refusal |
| AuthContext.ChecksAreMonotone | mis-pwa/src/contexts/AuthContext.tsx:65-75 | A permission check that passes still passes when the table grants every role at least as much, and a role check still passes for a longer role list |
| AuthContext.FindByEmail | mis-pwa/src/contexts/AuthContext.tsx:42 | The mock user at the first index whose email matches ignoring case (no earlier index matches), or none iff none does |
| AuthContext.AuthSession.constructor | mis-pwa/src/contexts/AuthContext.tsx:21-33 | Mounting restores the stored user and ends loading |
| AuthContext.AuthSession.Login | mis-pwa/src/contexts/AuthContext.tsx:35-57 | Succeeds iff an email matches and the password has ≥ 4 characters; then user and storage hold that user and `mock_token_<id>`; otherwise nothing changes and the message is "Invalid email or password" |
| AuthContext.AuthSession.Logout | mis-pwa/src/contexts/AuthContext.tsx:59-63 | The user and both storage entries are cleared |
| AuthContext.LookupIgnoresEmailCase | mis-pwa/src/contexts/AuthContext.tsx:42 | Looking up an email and its lower-case form finds the same user |
| ProtectedRoute.Guard | mis-pwa/src/components/layout/ProtectedRoute.tsx:19-42 | Loading shows the placeholder; without a user, redirects to login with the location; children render iff loaded, signed in, and every supplied requirement holds |
| ProtectedRoute.GuardOrder | mis-pwa/src/components/layout/ProtectedRoute.tsx:34-40 | A missing permission redirects to the dashboard whatever the roles; an empty role list always redirects; an empty permission is no requirement |
| AppLayout.FilteredNavItems | mis-pwa/src/components/layout/AppLayout.tsx:51-53 | Keeps exactly the items without a permission or with a held one; the Dashboard item is always kept |
| AppLayout.NavigationKeepsOrder | mis-pwa/src/components/layout/AppLayout.tsx:51-53 | The filtered menu is the filtered front part followed by the filtered rest, so the order is kept |
| AppLayout.NoPermissionsOnlyDashboard | mis-pwa/src/components/layout/AppLayout.tsx:33-53 | A role without permissions sees the Dashboard item only |
| AppLayout.GatedItemsHavePermissions | mis-pwa/src/components/layout/AppLayout.tsx:35-43 | Every item but the Dashboard requires a permission |
| AppLayout.RoleBadgeColor | mis-pwa/src/components/layout/AppLayout.tsx:65-76 | admin, manager and engineer get their own classes; exactly the other roles get the default |
| AppLayout.BadgesDiffer | mis-pwa/src/components/layout/AppLayout.tsx:65-76 | Two of the four roles get the same badge class iff they are the same role |
| AppLayout.Layout.constructor | mis-pwa/src/components/layout/AppLayout.tsx:49 | The sidebar starts closed |
| AppLayout.Layout.HandleNavigation | mis-pwa/src/components/layout/AppLayout.tsx:55-58 | Navigation sets the location and always closes the sidebar |
| AppLayout.Layout.HandleLogout | mis-pwa/src/components/layout/AppLayout.tsx:60-63 | After logout no one is signed in and the location is `/login` |
| AppLayout.OneActiveItem | mis-pwa/src/components/layout/AppLayout.tsx:153 | After navigating to a menu item, that item and no other is active |
| Dashboard.SubtitleShowsCountWhenPositive | mis-pwa/src/pages/Dashboard.tsx:50-70 | A subtitle begins with the count and a space exactly when the count is positive, and is the fixed text when it is zero |
| Dashboard.CardSubtitles | mis-pwa/src/pages/Dashboard.tsx:34-105 | The PM, breakdown and spares subtitles show their counts iff positive, and otherwise their fixed texts |
| Dashboard.FilteredModules | mis-pwa/src/pages/Dashboard.tsx:107-109 | Keeps exactly the cards without a permission or with a held one |
| Dashboard.ModuleVisibility | mis-pwa/src/pages/Dashboard.tsx:107-109 | A signed-out visitor sees no card; a user holding every card's permission sees them all, in order |
| Dashboard.CardsNeedPermissions | mis-pwa/src/pages/Dashboard.tsx:34-105 | Every module card requires a permission |
| Dashboard.AlertRules | mis-pwa/src/pages/Dashboard.tsx:163-190 | The alerts section shows iff it has a banner; each banner shows iff its own count is positive; at most three |
| Dashboard.OpenIssuesTrend | mis-pwa/src/pages/Dashboard.tsx:148-150 | The trend points up iff no breakdown is critical, which is exactly when it reads "None critical" |
| Kpi.RateLowerIsBetter | mis-pwa/src/pages/KPI.tsx:33 | Exactly one rating, from the two thresholds, for a metric where lower is better |
| Kpi.RateHigherIsBetter | mis-pwa/src/pages/KPI.tsx:43-63 | Exactly one rating, from the two thresholds, for a metric where higher is better |
| Kpi.MttrStatus | mis-pwa/src/pages/KPI.tsx:33 | Good below 3, warning in [3, 4), critical from 4 |
| Kpi.MtbfStatus | mis-pwa/src/pages/KPI.tsx:43 | Good above 150, warning in (100, 150], critical up to 100 |
| Kpi.UptimeStatus | mis-pwa/src/pages/KPI.tsx:53 | Good above 95, warning in (90, 95], critical up to 90 |
| Kpi.OeeStatus | mis-pwa/src/pages/KPI.tsx:63 | Good above 85, warning in (75, 85], critical up to 75 |
| Kpi.RatingsAreMonotone | mis-pwa/src/pages/KPI.tsx:33-63 | A lower MTTR, or a higher MTBF, uptime or OEE, never gets a worse rating |
| Kpi.TotalDowntime | mis-pwa/src/pages/KPI.tsx:115 | The total is planned plus unplanned downtime, and is at least each part when both are non-negative |
| SparesPage.GetStockStatus | mis-pwa/src/pages/Spares.tsx:67-71 | Critical iff stock ≤ minimum, warning iff above it and at most 1.5 times it, otherwise ok |
| SparesPage.FilteredSpares | mis-pwa/src/pages/Spares.tsx:50-56 | Keeps exactly the parts whose code or name contains the query, ignoring case, in the selected category |
| SparesPage.EmptySearchShowsAll | mis-pwa/src/pages/Spares.tsx:50-56 | An empty search with all categories shows the whole list in order |
| SparesPage.LowStockItems | mis-pwa/src/pages/Spares.tsx:58 | The low-stock list is exactly the parts rated critical |
| SparesPage.StatsBounds | mis-pwa/src/pages/Spares.tsx:48-65 | The low-stock and category counts never exceed the total; the categories are the distinct categories of the parts, and there is at least one when there are parts |
| SparesPage.SaveSpare | mis-pwa/src/pages/Spares.tsx:73-95 | Editing merges the form into the parts with the edited id only and keeps the length; adding appends one new part |
| SparesPage.MergeLaws | mis-pwa/src/pages/Spares.tsx:74-77 | An empty form changes nothing; merging is idempotent; id and restock date are never touched |
| SparesPage.NewSpareDefaults | mis-pwa/src/pages/Spares.tsx:79-91 | A bare new part gets unit `pcs`, zero numbers and empty texts |
| SparesPage.ApplyTransaction | mis-pwa/src/pages/Spares.tsx:97-110 | Only parts with that id change: stock rises by the quantity for `in` and falls for `out`, and the restock date is set only for `in` |
| SparesPage.ReceiptThenIssue | mis-pwa/src/pages/Spares.tsx:97-110 | A receipt followed by an issue of the same quantity restores every stock level |
| SparesPage.QuantityInput | mis-pwa/src/pages/Spares.tsx:573 | The quantity field holds the parsed number, or 1 when it does not parse or is zero |
| SparesPage.SubmitTransaction | mis-pwa/src/pages/Spares.tsx:527-534 | Refused iff it is an issue exceeding the stock; otherwise submits the kind and quantity unchanged |
| SparesPage.AcceptedIssueKeepsStock | mis-pwa/src/pages/Spares.tsx:527-534 | An issue the form accepts keeps non-negative stock non-negative |
| SparesPage.DeleteSpare | mis-pwa/src/pages/Spares.tsx:112-116 | Unconfirmed, nothing changes; confirmed, exactly the parts with that id are removed |
| SparesPage.DeleteLaws | mis-pwa/src/pages/Spares.tsx:112-116 | Deleting an absent id changes nothing, and deleting twice is deleting once |
| SparesPage.SparesState.constructor | mis-pwa/src/pages/Spares.tsx:40-46 | The page opens on the given list with no dialog and no part being edited |
| SparesPage.SparesState.HandleSaveSpare | mis-pwa/src/pages/Spares.tsx:73-95 | The list becomes the saved list, and the form dialog closes without an edited part |
| SparesPage.SparesState.HandleTransaction | mis-pwa/src/pages/Spares.tsx:97-110 | The list becomes the transacted list, and the transaction dialog closes |
| SparesPage.SparesState.HandleDelete | mis-pwa/src/pages/Spares.tsx:112-116 | The list becomes the list after the deletion; the dialogs are untouched |
| BreakdownsPage.FilteredBreakdowns | mis-pwa/src/pages/Breakdowns.tsx:60-66 | Keeps exactly the breakdowns whose asset name or issue contains the query, ignoring case, with a matching status |
| BreakdownsPage.StatusCountersPartition | mis-pwa/src/pages/Breakdowns.tsx:68-73 | The open, in-progress and resolved counters add up to the total; critical and closed breakdowns never overlap |
| BreakdownsPage.AssetNameOf | mis-pwa/src/pages/Breakdowns.tsx:79 | The name of the first asset with the chosen id; the empty name when no id is chosen or no asset has it |
| BreakdownsPage.NewBreakdown | mis-pwa/src/pages/Breakdowns.tsx:75-91 | A new report is open, medium priority unless chosen, filed by the signed-in operator, with no engineer fields |
| BreakdownsPage.EngineerUpdate | mis-pwa/src/pages/Breakdowns.tsx:93-107 | Without a selection nothing changes; otherwise only the selected id is patched, and the length is kept |
| BreakdownsPage.PatchLaws | mis-pwa/src/pages/Breakdowns.tsx:96-102 | Status is kept unless supplied; identity, asset and report fields never change; a patch is idempotent |
| BreakdownsPage.SubmitEngineerForm | mis-pwa/src/pages/Breakdowns.tsx:406-411 | Submits the status, and a resolved date of today iff the status is resolved, otherwise an explicit undefined |
| BreakdownsPage.SubmissionSetsResolvedDate | mis-pwa/src/pages/Breakdowns.tsx:406-411 | After submission the breakdown has a resolved date iff it was submitted as resolved, which clears an earlier one |
| BreakdownsPage.GatedUpdateSparesClosed | mis-pwa/src/pages/Breakdowns.tsx:93-235 | After the Update button (offered only to engineers and admins, on breakdowns that are not closed), the engineer update never runs for an operator or manager, and with unique ids it leaves every closed breakdown and every other breakdown unchanged |
| BreakdownsPage.BreakdownsState.constructor | mis-pwa/src/pages/Breakdowns.tsx:53-58 | The page opens on the given list with no selection and no dialog |
| BreakdownsPage.BreakdownsState.HandleCreateBreakdown | mis-pwa/src/pages/Breakdowns.tsx:75-91 | The new report is prepended and the report dialog closes |
| BreakdownsPage.BreakdownsState.OpenEngineerDialog | mis-pwa/src/pages/Breakdowns.tsx:229-236 | Offered only through the gate; remembers the breakdown and opens the engineer dialog |
| BreakdownsPage.BreakdownsState.HandleEngineerUpdate | mis-pwa/src/pages/Breakdowns.tsx:93-107 | The list becomes the engineer-updated list, and the dialog closes iff there was a selection |
| AssetsPage.FilteredAssets | mis-pwa/src/pages/Assets.tsx:50-57 | Keeps exactly the assets whose code, name or location contains the query, ignoring case, with a matching status |
| AssetsPage.StatusFilterNarrows | mis-pwa/src/pages/Assets.tsx:50-57 | The list filtered by one status is the unfiltered result narrowed to that status, in order |
| AssetsPage.StatsAddUp | mis-pwa/src/pages/Assets.tsx:59-64 | Active, maintenance and disposed counts plus the uncounted inactive assets equal the total |
| AssetsPage.SaveAsset | mis-pwa/src/pages/Assets.tsx:66-87 | Editing merges into the assets with that id only and keeps the length; adding appends one new asset |
| AssetsPage.SaveLaws | mis-pwa/src/pages/Assets.tsx:66-87 | An empty form changes nothing; merging is idempotent and keeps the id; a bare new asset is an active machine installed today |
| AssetsPage.DeleteAsset | mis-pwa/src/pages/Assets.tsx:89-93 | Unconfirmed, nothing changes; confirmed, exactly the assets with that id are removed |
| AssetsPage.DeleteKeepsOrder | mis-pwa/src/pages/Assets.tsx:89-93 | Deletion distributes over any split of the list, so the remaining assets keep their order |
| AssetsPage.AssetsState.constructor | mis-pwa/src/pages/Assets.tsx:44-48 | The page opens on the given list with no dialog and no asset being edited |
| AssetsPage.AssetsState.HandleSaveAsset | mis-pwa/src/pages/Assets.tsx:66-87 | The list becomes the saved list, and the dialog closes without an edited asset |
| AssetsPage.AssetsState.HandleDelete | mis-pwa/src/pages/Assets.tsx:89-93 | The list becomes the list after the deletion; the dialog state is untouched |
| PmPage.FilteredSchedules | mis-pwa/src/pages/PreventiveMaintenance.tsx:62-68 | Keeps exactly the schedules whose title or asset name contains the query, ignoring case, with a matching status |
| PmPage.StatsAddUp | mis-pwa/src/pages/PreventiveMaintenance.tsx:70-75 | Scheduled, in-progress and overdue counts plus the uncounted completed ones equal the total |
| PmPage.CompletedItems | mis-pwa/src/pages/PreventiveMaintenance.tsx:211 | The completed-item count never exceeds the checklist length, and equals it iff every item is done |
| PmPage.SetItem | mis-pwa/src/pages/PreventiveMaintenance.tsx:83-85 | Only items with that id get the new flag; length, ids and tasks are kept |
| PmPage.ChecklistUpdate | mis-pwa/src/pages/PreventiveMaintenance.tsx:77-90 | Only schedules with that id change, and only in the matching checklist item |
| PmPage.ChecklistUpdateIdempotent | mis-pwa/src/pages/PreventiveMaintenance.tsx:77-90 | Applying the same checklist update twice equals applying it once |
| PmPage.CompletePm | mis-pwa/src/pages/PreventiveMaintenance.tsx:92-105 | Only schedules with that id become completed on today's date |
| PmPage.FindPm | mis-pwa/src/pages/PreventiveMaintenance.tsx:214-219 | A schedule with that id, or none iff the list has none |
| PmPage.CompletedChecklistIsLocked | mis-pwa/src/pages/PreventiveMaintenance.tsx:259 | Once completed, a schedule's checkboxes are disabled |
| PmPage.FindAfterChecklistUpdate | mis-pwa/src/pages/PreventiveMaintenance.tsx:77-90 | Looking a schedule up after a checklist update finds it with the updated checklist |
| PmPage.StaleSnapshotKeepsButtonEnabled | mis-pwa/src/pages/PreventiveMaintenance.tsx:214-279 | As written, the reverse: after unticking the only item of a fully ticked schedule, the snapshot gate still enables "Mark as Complete" while the current checklist has an open item |
| PmPage.StaleSnapshotKeepsButtonDisabled | mis-pwa/src/pages/PreventiveMaintenance.tsx:214-279 | As written: after ticking the only open item, the snapshot gate still disables "Mark as Complete" |
| PmPage.TickingLastItemEnablesButton | mis-pwa/src/pages/PreventiveMaintenance.tsx:274-279 | Corrected: on the current list, ticking the last open item of a schedule that is not completed enables the button for a holder of `update_pm` |
| PmPage.PmState.constructor | mis-pwa/src/pages/PreventiveMaintenance.tsx:55-60 | The page opens on the given list with no selection and no dialog |
| PmPage.PmState.ViewDetails | mis-pwa/src/pages/PreventiveMaintenance.tsx:214-219 | Remembers the schedule and opens the dialog; the list is untouched |
| PmPage.PmState.HandleChecklistUpdate | mis-pwa/src/pages/PreventiveMaintenance.tsx:77-90 | Only the list changes; the dialog's snapshot does not |
| PmPage.PmState.HandleCompletePM | mis-pwa/src/pages/PreventiveMaintenance.tsx:92-105 | The list becomes the completed list, and the dialog closes |
| PmPage.PmState.TickItem | mis-pwa/src/pages/PreventiveMaintenance.tsx:251-262 | Allowed only on a schedule that is not completed; updates that schedule's item in the list |
| PmPage.PmState.MarkComplete | mis-pwa/src/pages/PreventiveMaintenance.tsx:274-279 | Through the corrected gate: the selected schedule is found in the new list with status completed, and the dialog closes |
| UserManagement.FilteredUsers | mis-pwa/src/pages/UserManagement.tsx:73-77 | Keeps exactly the users whose name or email contains the query, ignoring case |
| UserManagement.ChangeRole | mis-pwa/src/pages/UserManagement.tsx:79-83 | Only users with that id get the new role; the length and every other field are kept |
| UserManagement.RoleCountsAddUp | mis-pwa/src/pages/UserManagement.tsx:98-104 | The four role counters add up to the total |
| UserManagement.RoleChangeKeepsTotal | mis-pwa/src/pages/UserManagement.tsx:79-104 | A role change keeps the total, and the counters still add up |
| UserManagement.TogglePermission | mis-pwa/src/pages/UserManagement.tsx:85-96 | The role then holds the permission iff it did not before; other permissions and other roles are unchanged |
| UserManagement.ToggleTwice | mis-pwa/src/pages/UserManagement.tsx:85-96 | Toggling twice restores the role's membership of every permission, and restores the list exactly when the permission was missing |
| Seqs.DistinctKeepsFirstAppearanceOrder | mis-pwa/src/pages/Spares.tsx:48 | `[...new Set(...)]` lists values in order of first appearance: the distinct values of a prefix are a prefix of the distinct values |
| UserManagement.CategoriesAreDistinct | mis-pwa/src/pages/UserManagement.tsx:204-209 | The group keys are the distinct categories in order of first appearance |
| UserManagement.CategoryKeys | mis-pwa/src/pages/UserManagement.tsx:204-209 | A category is a key iff some permission has it, and no key repeats |
| UserManagement.GroupByCategory | mis-pwa/src/pages/UserManagement.tsx:204-209 | The grouping's entries are the keys in order of first appearance, each holding exactly its category's permissions in list order |
| UserManagement.EachPermissionInItsGroup | mis-pwa/src/pages/UserManagement.tsx:204-209 | Each permission sits in the group of its own category and in no other |
| UserManagement.UserAdmin.constructor | mis-pwa/src/pages/UserManagement.tsx:67-71 | The page opens on the given users and permission table |
| UserManagement.UserAdmin.HandleRoleChange | mis-pwa/src/pages/UserManagement.tsx:79-83 | The users become the role-changed list; permissions are untouched |
| UserManagement.UserAdmin.HandlePermissionToggle | mis-pwa/src/pages/UserManagement.tsx:85-96 | The table becomes the toggled table; users are untouched |
| UtilitiesPage.LatestIndex | mis-pwa/src/pages/Utilities.tsx:47-49 | The first log with the greatest time, as the stable descending sort puts it first |
| UtilitiesPage.ReadingFor | mis-pwa/src/pages/Utilities.tsx:46-58 | A type's card shows every field of its latest log (the first of equal greatest times, as `LatestIndex` states); with no logs it shows 0 and empty texts |
| UtilitiesPage.LatestReadings | mis-pwa/src/pages/Utilities.tsx:34-58 | One card per type, in the key order of the utility table |
| UtilitiesPage.OneReadingPerType | mis-pwa/src/pages/Utilities.tsx:34-58 | Each utility type has exactly one card |
| UtilitiesPage.NewLog | mis-pwa/src/pages/Utilities.tsx:60-72 | A new log defaults to power, reading 0 and empty texts, with the current time and the user's name |
| UtilitiesPage.RecentLogs | mis-pwa/src/pages/Utilities.tsx:152 | The recent table is the first ten logs, or all when there are fewer |
| UtilitiesPage.UtilityLogBook.constructor | mis-pwa/src/pages/Utilities.tsx:43-44 | The page opens on the given logs with the dialog closed |
| UtilitiesPage.UtilityLogBook.HandleCreateLog | mis-pwa/src/pages/Utilities.tsx:60-72 | The new log is prepended and the dialog closes |
| UtilitiesPage.NewestLogIsShown | mis-pwa/src/pages/Utilities.tsx:46-72 | A new log no older than the others of its type becomes that type's reading and heads the recent table |
| UtilitiesPage.FirstIsLatest | mis-pwa/src/pages/Utilities.tsx:47-49 | When the first log is at least as recent as all the others, it is the one shown |
| UtilitiesPage.UnitOptions | mis-pwa/src/pages/Utilities.tsx:200-205 | Every type offers at least one unit |
| UtilitiesPage.ChangeType | mis-pwa/src/pages/Utilities.tsx:218-222 | Changing the type picks a unit offered for the new type and keeps the other fields |
| UtilitiesPage.FormUnitMatchesType | mis-pwa/src/pages/Utilities.tsx:193-222 | The form's unit is its type's first option, both initially and after every type change |

## Left out

- Text.Lower: `toLowerCase` and `toUpperCase` are modelled on the ASCII letters only. Other letters are left as they are, where JavaScript would map them too.
- Accounts.RegisterStep: the 6-character minimum counts Unicode characters, where JavaScript counts UTF-16 code units. This differs only for characters outside the Basic Multilingual Plane.
- AuthContext.AuthSession.Login: the same difference applies to the 4-character minimum.
- bcrypt `hash`/`compare`, JWT `sign`/`verify` and the mock login's 500 ms delay are foreign calls or timers. They are parameters or are omitted.
- Login and register have catch-all 500 answers for database errors. These are not modelled, except register's refusal of a body without `full_name`, which the model derives (`Accounts.MissingFullNameIsRefused`).
- EmptyAssetStatusOverwrites: the type of the `asset_status` column is not part of the model, so whether the database accepts the empty string is the `fault` parameter. If the column is an enum, as the validation comment at server/server.js:100 suggests, the throwing branch is the one taken.
- PartialUpdates.UpdateAsset, UpdateBreakdown, UpdateSpare and UpdatePm: a parameter that is `undefined` makes db.js's `postgres` client throw, because it sets no `transform.undefined`. The model derives this throw for the fields converted with `?.` (where `None` means missing or `null`) and for `req.user?.id`. For a plain field, `None` is a JSON `null`. A plain field left out of the body throws the same way, but the model leaves that to the `fault` parameter.
- Registration's fallback when the profile insert throws (server/server.js:865-869) is not modelled. The profile is always inserted.
- `authMiddleware`'s generic 500 catch (server/src/middleware/auth.js:123-129) is not modelled. The profile-lookup failure is a boolean parameter.
- `UndefinedValue`, the text of the client's undefined-value error, is the `postgres` library's own; the library is not part of this model.
- StockTransaction.Step: an unexpected database failure is one `WriteFault` parameter. An undefined INSERT parameter is derived from the body (`SendsUndefined`). A left-out `part_id` or `quantity` is not modelled: the part id is always a string and the quantity a number. The lost-update race between concurrent issues is not modelled, because each transaction is one atomic step.
- JSON type coercion is not modelled. The quantity is an integer. A `null` field that reaches SQL unconverted is SQL NULL; a `null` field read through `?.` is `undefined` and throws, as above.
- `now()`, `updated_at` stamps, `::interval` casts and ORDER BY in SQL are not modelled.
- The GET routes are not modelled, and neither are the create routes beyond their validators.
- The engineer upsert `POST /api/breakdowns/:id/engineer` (server/server.js:303-341) is not modelled.
- The dashboard statistics handler and its `parseFloat`/`parseInt` parsing are not modelled. Dashboard counts are natural numbers.
- SparesPage.Stats: the stock value total (mis-pwa/src/pages/Spares.tsx:62) is floating-point arithmetic and is not modelled.
- Prices and KPI values are exact reals. Floating-point rounding, NaN and `toFixed` formatting are not modelled.
- Time-stamp parsing (`new Date(...)`), today's date, new ids and `confirm()` are parameters.
- The mock data tables are parameters.
- A localStorage entry that fails to parse is not modelled.
- Edit forms are modelled by the fields they carry. A form that also carries `id` or `lastRestocked` is not modelled.
- HTML `min`/`max` input constraints are browser validation and are not modelled.
- Rendering, styling, routing tables and the static Login, App and Analytics views are not modelled.
- `mis-pwa/src/lib/api.ts` is not part of this model. It is a mock request wrapper that always succeeds.
- GroupByCategory: its key order is the order of first appearance, which is what `Object.entries` gives for category names that are not integer-like (all of `allPermissions`'s categories); integer-like keys, which `Object.entries` lists first in ascending order, are not modelled.
- Dashboard.ShowQuickStats: the `view_kpi` gate on the quick stats is a plain predicate with no contract of its own.

## Findings

| source | as written | input that shows it | evidently intended | confidence | as-written member | corrected member |
|---|---|---|---|---|---|---|
| server/src/middleware/auth.js:254 | `requireAdmin` and `requireManager` list `ADMIN` and `MANAGER`, and `requireRole` compares case-sensitively, while registration stores lower-case roles (server/server.js:799-801, 862) | A user registered with role `Admin` is stored as `admin`, authenticates, and gets 403 on `DELETE /api/assets/:id` | The gates admit the stored lower-case `admin` (and `manager`) | not executed | AuthMiddleware.StoredRolesCannotDelete | AuthMiddleware.StoredAdminDeletes |
| mis-pwa/src/pages/PreventiveMaintenance.tsx:274-279 | The "Mark as Complete" gate reads `selectedPM`, the snapshot taken when the dialog opened (214-219), while ticking items updates only the list (77-90) | Schedule pm-1 is scheduled with one unticked item c-1, and an engineer holding `update_pm` ticks c-1 in the dialog: the button stays disabled | The gate reads the schedule's current checklist | not executed | PmPage.StaleSnapshotKeepsButtonDisabled | PmPage.TickingLastItemEnablesButton |

The corrected admin gate is `AuthMiddleware.RequireAdminIntended`, and the model's `AuthMiddleware.DeleteAsset` uses it; `AuthMiddleware.DeleteAssetAsWritten` is the route with `requireAdmin`. At the gate level, the two halves are `AuthMiddleware.RegisteredAdminIsRefused` and `AuthMiddleware.IntendedGatesOnStoredRoles`. The corrected PM gate is `PmPage.PmState.MarkCompleteEnabled`, and it is what `PmPage.PmState.MarkComplete` requires. The same snapshot also errs the other way: unticking an item of a fully ticked schedule leaves the button enabled (`PmPage.StaleSnapshotKeepsButtonEnabled`), while the corrected gate disables it.
