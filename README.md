# Clinic stock SaaS: a verified model of its decision logic

This project models the core of a Next.js application for aesthetic clinics.
The application is multi-tenant. Each clinic (a *tenant*) keeps products and
their batches (*lotes*) with expiry dates, and the platform owner approves,
bills and suspends clinics. Every piece is written in Dafny and verified:

- **Access gate.** `middleware.ts` decides, from the path and the session token's claims, whether a request proceeds or is redirected.
- **Session claims.** `lib/auth.ts` holds the sign-in guard chain and the `jwt` and `session` callbacks that produce those claims.
- **Payment webhook.** The handler activates or suspends tenants and appends to the subscription log.
- **Signup paths.** The register route, the signup route and the signup server action, with their two slug algorithms and their atomic tenant-plus-user insert.
- **Tenant-scoped routes.** The products and batches routes.
- **Stock views.** The stock label, the expiry tests, the lot list bands and labels, and the two dashboard versions with their category grouping.
- **Status screens.** The trial banner, the subscription settings panel, the owner's overview and clinic list, and the mock owner screens.
- **Mock single-page app.** Its state handlers, its login and registration form, and the two navigation sidebars.

Units and conventions:

- Time is an integer count of milliseconds, and "now" is always a parameter.
- Money is integer cents.
- The database is one `Db.Database` object with a field per table. Each transaction is one atomic method that inserts both rows or neither.
- Password hashing is an abstract `matches` relation.
- The payment provider's follow-up fetch is an input, `Webhook.Fetch`.
- JavaScript falsiness of optional strings and numbers is `Base.Truthy` and `Base.TruthyNum`.
- `Math.ceil` of a day fraction is `Clock.CeilDiv`, exact on negative differences.

Other behaviour the model records:

- `generateSlug` is textually identical in `app/api/signup/route.ts` and `actions/signup.ts`. It is defined once, as `Slug.GenerateSlug`, and both signup paths share `Signup.Create`.
- The stock views of `app/dashboard/estoque/estoque-client.tsx` and `components/InventoryTable.tsx` classify alike. They share the functions of module `Inventory`. In `components/InventoryTable.tsx`, the stock status is at lines 25-31, the expiry window at 39-45, the lot status at 171-181 and the row toggle at 15-23.
- The register route lower-cases the address it stores. Sign-in in `lib/auth.ts` looks the address up exactly as typed. So a clinic registered as "A@b" cannot sign in as "A@b" (`Register.MixedCaseSignInFails`).
- The signup route compares addresses exactly, so a case variant of a stored address passes its duplicate check (`Signup.CaseVariantAccepted`).
- The gate's `pathname === "/payment-required"` exception can never be reached (`Middleware.PaymentExceptionUnreachable`).

## Model

| member | source | states |
|---|---|---|
| Middleware.EffectiveStatus | middleware.ts:43 | the status claim when it is truthy, otherwise "PENDING" |
| Middleware.Gate | middleware.ts:5-53 | the decision is total: next, or a redirect to /login, /dashboard or /payment-required |
| Middleware.PublicPathsProceed | middleware.ts:14-26 | a public path proceeds whatever the token is |
| Middleware.PublicPrefixesProceed | middleware.ts:14-26 | a path starting with any of the five public prefixes, or equal to "/", proceeds |
| Middleware.NoTokenGoesToLogin | middleware.ts:29-32 | a non-public path without a token redirects to /login |
| Middleware.AdminByRoleOnly | middleware.ts:35-40 | under /admin, SUPER_ADMIN proceeds and anyone else goes to /dashboard; the status claim never changes the decision |
| Middleware.MissingStatusIsPending | middleware.ts:43 | an absent or empty status claim decides exactly like "PENDING" |
| Middleware.OnlyActiveProceeds | middleware.ts:45-50 | outside the public paths and /admin, a request proceeds iff the effective status is ACTIVE, and otherwise goes to /payment-required |
| Middleware.TrialIsRedirected | middleware.ts:45-49 | a TRIAL tenant is sent from /dashboard to /payment-required |
| Middleware.SuperAdminGatedOutsideAdmin | middleware.ts:35-50 | a SUPER_ADMIN without a status claim is sent from /dashboard to /payment-required, and proceeds on /admin |
| Middleware.DashboardNotPublic | middleware.ts:14-23 | /dashboard matches no public prefix and does not start with /admin |
| Middleware.AdminNotPublic | middleware.ts:14-23 | /admin matches no public prefix |
| Middleware.PaymentExceptionUnreachable | middleware.ts:46-48 | the `pathname === "/payment-required"` return is never the one taken |
| Db.UserByEmail | lib/auth.ts:26-29 | there is a result iff a stored user has exactly that address, and the result is that user |
| Db.Database.InsertTenantWithUser | app/api/register/route.ts:50-72 | both rows are inserted iff no unique constraint breaks, otherwise neither; the other tables are untouched and the constraints still hold |
| Db.Database.InsertProduct | app/api/products/route.ts:81-83 | appends the product, and its nested first batch when there is one |
| Db.Database.InsertBatch | app/api/batches/route.ts:39-46 | appends exactly one batch and changes nothing else |
| Auth.Authorize | lib/auth.ts:21-61 | missing fields give the "obrigatórios" error iff email or password is falsy; "Credenciais inválidas" iff no stored hash accepts the password; on success, the user's five fields plus the tenant's status and trial end, or null without a tenant |
| Auth.InvalidCredentialsIndistinguishable | lib/auth.ts:31-50 | an unknown address, a user without a password and a wrong password give the same error |
| Auth.SignedInWithoutTenantIsGated | lib/auth.ts:52-60 | a signed-in user without a tenant carries no status claim and is sent from /dashboard to /payment-required |
| Auth.JwtToken.Jwt | lib/auth.ts:65-74 | with a user, the five claims are copied into the token; without one, the token is unchanged |
| Auth.SessionCallback | lib/auth.ts:75-84 | when the session has a user, the five token claims are copied onto it; the session keeps its user object |
| Auth.SignInToken | lib/auth.ts:21-74 | a token exists iff sign-in succeeds, and it carries exactly the role and status `authorize` derived |
| Webhook.Handle | app/api/webhooks/mercadopago/route.ts:10-153 | never adds or removes a tenant or changes a tenant's id, name, slug or trial end; the log only grows, by at most one ACTIVE record; a failed follow-up fetch changes nothing |
| Webhook.ApprovedPaymentActivates | app/api/webhooks/mercadopago/route.ts:50-75 | an approved payment referencing a tenant sets it ACTIVE, changes no other tenant, and appends exactly one ACTIVE record with the payment id and amount |
| Webhook.OtherPaymentsChangeNothing | app/api/webhooks/mercadopago/route.ts:50-54 | a payment with another status, or without a reference, changes nothing |
| Webhook.PreapprovalActivates | app/api/webhooks/mercadopago/route.ts:104-122 | an authorized or active preapproval sets the tenant ACTIVE and appends nothing |
| Webhook.PreapprovalSuspends | app/api/webhooks/mercadopago/route.ts:126-142 | a cancelled or paused preapproval changes only the tenant's status, to SUSPENDED |
| Webhook.OtherPreapprovalsChangeNothing | app/api/webhooks/mercadopago/route.ts:104-142 | any other preapproval status changes nothing |
| Webhook.FailedFetchChangesNothing | app/api/webhooks/mercadopago/route.ts:29-98 | a follow-up fetch that is not ok answers 500 with its message and changes nothing |
| Webhook.OtherEventsIgnored | app/api/webhooks/mercadopago/route.ts:25-145 | every other event type is acknowledged and changes nothing |
| Webhook.UnknownTenantFails | app/api/webhooks/mercadopago/route.ts:56-62 | a reference to a tenant that does not exist changes nothing |
| Webhook.ReplayedPaymentLogsTwice | app/api/webhooks/mercadopago/route.ts:56-74 | the same approved payment delivered twice leaves the tenants as after one delivery but logs two identical records |
| Webhook.CustomerIdOnActivation | app/api/webhooks/mercadopago/route.ts:56-136 | activation sets the customer id to the payer id, or null when that id is absent or empty; suspension keeps the stored one |
| Webhook.Post | app/api/webhooks/mercadopago/route.ts:10-153 | performed on the database, the same reply and new tenant table and log as `Handle`; users, products and batches untouched |
| Register.Rejection | app/api/register/route.ts:11-35 | the three guards in order, each message iff the earlier guards pass and its own fails; the length is counted in UTF-16 code units; the lookup uses the lower-cased address |
| Register.Post | app/api/register/route.ts:5-89 | 500 for an unreadable body or a failed insert, 400 with the guard's message, 201 with the tenant id iff the guards pass and the insert succeeds; exactly one tenant and one user are added on success and nothing otherwise |
| Register.RegisteredRows | app/api/register/route.ts:50-72 | the tenant is PENDING, the user CLINIC_ADMIN and linked to it, the stored address has no capital, and the slug's suffix reads back as the timestamp |
| Register.SixCharactersAccepted | app/api/register/route.ts:18-23 | six characters of any kind pass the length guard, five up to U+FFFF are refused, and three above U+FFFF pass |
| Register.CaseVariantRefused | app/api/register/route.ts:26-35 | after one registration, every address differing only in letter case is refused |
| Register.MixedCaseSignInFails | app/api/register/route.ts:61-69 | a user registered as "A@b" is stored as "a@b" and cannot sign in typing "A@b" |
| Signup.Rejection | app/api/signup/route.ts:20-44 | the three guards in order (owner name not required, at least 8 UTF-16 code units, exact duplicate check), each message iff the earlier pass and its own fails |
| Signup.UniqueSlug | app/api/signup/route.ts:47-51 | the slug itself when free; otherwise the slug, "-" and the decimal timestamp, with no second check |
| Signup.UniqueSlugShape | app/api/signup/route.ts:47-51 | the chosen slug is in [a-z0-9-] without "--", and has no edge dash unless an empty slug was taken |
| Signup.SuffixedSlugCanClash | app/api/signup/route.ts:47-51 | when the suffixed slug is also taken, the slug handed to the insert is taken |
| Signup.Create | app/api/signup/route.ts:19-74 | the guards' verdict, and the two rows (PENDING tenant, user with no role) inserted iff the guards pass and no constraint breaks |
| Signup.Post | app/api/signup/route.ts:14-84 | 500 for an unreadable body or a failed insert, 400 with the guard's message, success iff both rows were added; nothing written otherwise |
| Signup.CaseVariantAccepted | app/api/signup/route.ts:35-44 | an address differing from a stored one only in case passes the duplicate check |
| Signup.EightCharactersRequired | app/api/signup/route.ts:27-32 | seven characters up to U+FFFF are refused; eight characters pass, and so do seven with one above U+FFFF, and four above U+FFFF |
| SignupAction.Action | actions/signup.ts:23-80 | the first failing guard's error with nothing written; a failed transaction returns an error, persists nothing and does not redirect; success adds the two rows and redirects to "/payment-required?welcome=true" |
| SignupAction.WelcomePageIsPublic | actions/signup.ts:79 | the redirect's path proceeds through the gate whatever the token |
| Slug.TrimDashProperties | app/api/signup/route.ts:11 | trimming one dash at each end of a string without "--" leaves no edge dash and no "--" |
| Slug.GenerateSlug | app/api/signup/route.ts:5-12 | the slug is in [a-z0-9-], has no dash at either end and no "--" |
| Slug.SlugIdempotent | app/api/signup/route.ts:5-12 | a slug's slug is itself |
| Slug.SlugFixed | app/api/signup/route.ts:5-12 | every string in [a-z0-9-] without edge dash or "--" is its own slug |
| Slug.PlainAscii | app/api/signup/route.ts:7-9 | on ASCII, lower case, decomposition and mark removal only lower the case |
| Slug.PlainAccented | app/api/signup/route.ts:7-9 | an accented Latin-1 letter keeps only its lower-case base letter |
| Slug.SlugOfAccentedName | app/api/signup/route.ts:5-12 | "Clínica São José" gives "clinica-sao-jose" |
| Slug.RegisterPrefix | app/api/register/route.ts:38-42 | the prefix is in [a-z0-9-] and no longer than the name |
| Slug.RegisterSlug | app/api/register/route.ts:38-44 | prefix, "-" and a non-empty base-36 suffix that reads back as the timestamp; every character in [a-z0-9-] |
| Slug.RegisterSlugInjective | app/api/register/route.ts:42-44 | two instants give two different slugs for the same name |
| Slug.RegisterPrefixDropsAccents | app/api/register/route.ts:38-42 | "Clínica" gives "clnica": the accented letter is deleted, not transliterated |
| Slug.RegisterPrefixKeepsDashRuns | app/api/register/route.ts:38-42 | "A - B" gives "a---b" and " X" gives "-x": dash runs are neither collapsed nor trimmed |
| Nfd.Decompose | app/api/signup/route.ts:8 | one character decomposes into itself, or, for a Latin-1 accented letter, into an ASCII letter and one combining mark |
| Nfd.Normalize | app/api/signup/route.ts:8 | decomposition never shortens a string |
| Nfd.NormalizeFixesLow | app/api/signup/route.ts:8 | characters below U+00C0 are left alone |
| Text.Lower | app/api/register/route.ts:40 | capitals move down by 0x20 and every other character is unchanged |
| Text.LowerStr | app/api/register/route.ts:27 | same length, each character lower-cased |
| Text.LowerStrIdempotent | components/Auth.tsx:45 | lower-casing twice is lower-casing once |
| Text.Utf16Length | app/api/signup/route.ts:27 | `password.length` in UTF-16 code units: between one and two per character, equal to the character count iff none is above U+FFFF, twice it iff all are |
| Text.ReplaceRunsAlphabet | app/api/signup/route.ts:10 | after replacing runs, every character is "-" or outside the class |
| Text.ReplaceRunsNoDoubleDash | app/api/signup/route.ts:10 | when "-" is in the class, no two dashes are adjacent afterwards |
| Text.ToRadix | app/api/register/route.ts:44 | non-empty, only digits of the radix, no leading zero |
| Text.RadixRoundTrip | app/api/register/route.ts:44 | reading the rendering back gives the number |
| Text.Decimal | app/api/signup/route.ts:50 | a non-empty run of decimal digits |
| Base.SortBy | app/api/batches/route.ts:79 | the result is a permutation of the input in ascending key order |
| Products.TenantProducts | app/api/products/route.ts:15-19 | a permutation of the session tenant's products, newest first |
| Products.TenantProductsScoped | app/api/products/route.ts:15-19 | a product is listed iff it is stored and belongs to the session tenant |
| Products.WithBatches | app/api/products/route.ts:17 | a listed product carries exactly the stored batches that name it, in table order |
| Products.Get | app/api/products/route.ts:8-22 | 401 iff there is no session tenant, otherwise that tenant's products newest first, each with its own batches |
| Products.NewProduct | app/api/products/route.ts:56-66 | the body's name and price, the session's tenant, and "Geral", "unidade" and 5 for falsy category, unit and minimum |
| Products.FirstBatch | app/api/products/route.ts:68-79 | a nested batch iff the quantity is truthy and positive and an expiry is given, carrying the session's tenant and the product's id |
| Products.ZeroMinimumBecomesFive | app/api/products/route.ts:64 | an explicit minimum of 0 becomes 5 |
| Products.Post | app/api/products/route.ts:24-93 | 401 iff no session tenant, 500 for an unreadable body, 400 without name or price (price 0 accepted), 201 otherwise with the product and optional batch appended; nothing written on any error |
| Batches.NewBatch | app/api/batches/route.ts:39-46 | the session's tenant, the verified product, a non-zero quantity, the expiry, and no lot code or costs |
| Batches.Post | app/api/batches/route.ts:6-53 | 401, 500, 400 and 404 in order, 404 iff the product is not the session tenant's; on 201 exactly one batch appended, on errors nothing |
| Batches.TenantBatches | app/api/batches/route.ts:64-80 | a permutation of the batches whose product is the tenant's, soonest expiry first |
| Batches.TenantBatchesScoped | app/api/batches/route.ts:64-69 | a batch is listed iff it is stored and its product belongs to the session tenant |
| Batches.FirstOwned | app/api/batches/route.ts:64-69 | the first of the session tenant's products with the batch's product id, which exists whenever the batch is listed |
| Batches.WithProduct | app/api/batches/route.ts:71-79 | the batch unchanged, with the id, name and category of its own product, one of the tenant's |
| Batches.Get | app/api/batches/route.ts:55-90 | 401 iff no session tenant, otherwise the tenant's batches soonest expiry first, each with the id, name and category of its own product |
| Batches.ForeignProductLooksMissing | app/api/batches/route.ts:25-37 | another tenant's product fails the ownership check exactly like a missing one |
| Inventory.ItemOf | app/dashboard/page.tsx:8-11 | the product's fields, and as lots exactly its own batches: each of its batches is among them, each of them is one of its batches, and their quantities add up to its batches' quantities |
| Inventory.TotalQuantityAppend | app/dashboard/estoque/estoque-client.tsx:51 | a further batch adds its quantity to the total |
| Inventory.GetStockStatus | app/dashboard/estoque/estoque-client.tsx:50-69 | out of stock iff the total is 0, low iff non-zero and at most the minimum, normal otherwise |
| Inventory.StockLabelInjective | app/dashboard/estoque/estoque-client.tsx:52-68 | the three labels are distinct |
| Inventory.EmptyBatchesOutOfStock | app/dashboard/estoque/estoque-client.tsx:51-57 | batches that all hold zero give "Sem Estoque" whatever the minimum |
| Inventory.ZeroQuantities | app/dashboard/estoque/estoque-client.tsx:51 | zero quantities sum to zero |
| Inventory.IsExpiringSoon | app/dashboard/estoque/estoque-client.tsx:72-79 | holds iff now < expiry <= now + 60 days |
| Inventory.GetLotStatus | app/dashboard/estoque/estoque-client.tsx:293-313 | VENCIDO iff expiry < now, VENCE EM BREVE iff within the 60-day window, VIGENTE otherwise |
| Inventory.ExpiryTestsExclusive | app/dashboard/estoque/estoque-client.tsx:71-79 | the two tests never both hold, and a batch expiring at now is VIGENTE |
| Inventory.LotLabel | app/dashboard/estoque/estoque-client.tsx:283-284 | the lot code when truthy, otherwise the id's first 8 characters |
| Inventory.ToggleProperties | app/dashboard/estoque/estoque-client.tsx:40-48 | toggling flips only the given id, and toggling twice restores the set |
| Inventory.ExpandedRows.constructor | app/dashboard/estoque/estoque-client.tsx:37 | no row is expanded at first |
| Inventory.ExpandedRows.ToggleRow | app/dashboard/estoque/estoque-client.tsx:40-48 | the new set is the old one with the id flipped |
| Clock.DaysAtMost | app/dashboard/lotes/page.tsx:23 | the rounded-up day count is at most k iff the difference is at most k whole days |
| Clock.DaysAtLeast | app/dashboard/lotes/page.tsx:23 | the rounded-up day count is at least k iff the difference exceeds k - 1 days |
| Clock.DaysUntil | app/dashboard/lotes/page.tsx:19-24 | the rounded-up day count's boundaries at 0, -1, 30 and 60, with a moment less than a day past giving 0 |
| Clock.DaysLeft | components/ui/trial-banner.tsx:22-24 | never negative, 0 iff the end has passed, otherwise the day count |
| Lotes.TenantLots | app/dashboard/lotes/page.tsx:9-13 | a permutation of the tenant's batches, soonest expiry first |
| Lotes.TenantLotsScoped | app/dashboard/lotes/page.tsx:9-13 | a batch is listed iff it is stored with the tenant's id |
| Lotes.BandOf | app/dashboard/lotes/page.tsx:36-41 | negative, 0..30, 31..60 and above 60 are the four bands |
| Lotes.ColourAndTextAgree | app/dashboard/lotes/page.tsx:26-41 | the colour and the text always pick the same band |
| Lotes.BandsMonotone | app/dashboard/lotes/page.tsx:26-41 | a later expiry is never more severe |
| Lotes.BandBoundaries | app/dashboard/lotes/page.tsx:19-41 | the bands in timestamps: overdue only a whole day after expiry, critical up to 30 days ahead, attention up to 60 |
| Lotes.RecentlyExpiredIsCritical | app/dashboard/lotes/page.tsx:19-41 | a batch expired less than a day ago has day count 0 and reads "Crítico" |
| Lotes.RelativeLabelInjective | app/dashboard/lotes/page.tsx:106 | different day counts get different labels |
| Lotes.LabelEnd | app/dashboard/lotes/page.tsx:106 | the label is the decimal count then "d" for today or later, and the decimal count of days passed then "d atrás" for the past |
| Dashboard.ZeroStockCountsAsLow | app/dashboard/page.tsx:19-22 | a product without stock (minimum not negative) counts as low, and the count never exceeds the products |
| Dashboard.TotalBatches | app/dashboard/page.tsx:40 | the sum of batch counts is the number of all batches |
| Dashboard.PageCountsDisjoint | app/dashboard/page.tsx:24-38 | expiring and expired together never exceed the batch total |
| Dashboard.ComponentWindow | components/Dashboard.tsx:44-51 | the component's window is the page's plus the batches expired less than a day ago, which are also counted as expired |
| Dashboard.ComponentCountsJustExpiredTwice | components/Dashboard.tsx:44-47 | the component's expiring count is the page's plus the just-expired batches |
| Dashboard.FindCategory | app/dashboard/page.tsx:45 | the first entry with that name, or none iff no entry has it |
| Dashboard.CategoryData | app/dashboard/page.tsx:43-57 | the in-place loop ends with the value of the reduce |
| Dashboard.Accumulate | app/dashboard/page.tsx:44-54 | one call of the reduce's callback is one step: the entry of the product's category grows by its value, or a new entry is pushed |
| Dashboard.CategoriesSummarise | app/dashboard/page.tsx:43-57 | after every prefix of the products: unique names, each entry at its category total, unlisted products worth nothing, positive entries on the page, entries adding up to the total value |
| Dashboard.FindListed | app/dashboard/page.tsx:45 | the lookup succeeds iff the name is among the entries |
| Dashboard.StepSummarises | app/dashboard/page.tsx:44-54 | one reduce step keeps the accumulator's invariant |
| Dashboard.PageCategories | app/dashboard/page.tsx:43-59 | with no negative value, names are unique, a category is listed iff its total is positive, at that total, and the listed values add up to the total stock value |
| Dashboard.FirstAppearances | components/Dashboard.tsx:54-63 | each name listed comes from the input |
| Dashboard.ComponentCategories | components/Dashboard.tsx:54-63 | one entry per category in first-appearance order, zero values included, each at its total, adding up to the total value |
| Dashboard.ComponentOrder | components/Dashboard.tsx:54-63 | the entry names are the category names' first appearances |
| Dashboard.TenantItems | app/dashboard/page.tsx:8-11 | one item per product of the session tenant: every such product appears as its item with its own batches, and every item is one of them |
| Dashboard.OtherTenantsIgnored | app/dashboard/page.tsx:8-11 | another tenant's product changes nothing on the page |
| Dashboard.PageStats | app/dashboard/page.tsx:6-59 | the figures of the session tenant's products, and the category total equal to the total value when no value is negative |
| Dashboard.ComponentStats | components/Dashboard.tsx:37-63 | the component's figures over its products, with its own expiring window and category rule |
| Trial.ShowBanner | components/ui/trial-banner.tsx:11-45 | shown iff signed in with status TRIAL and an end date; days left never negative; urgent iff at most 3 days remain; the ended message iff no time is left, otherwise the day count |
| Trial.EndedTrialIsUrgent | components/ui/trial-banner.tsx:27 | an ended trial is shown, urgent, with 0 days and the ended message |
| Trial.UrgencyBoundary | components/ui/trial-banner.tsx:22-27 | exactly 3 days ahead is urgent, one millisecond more is not |
| Trial.MessageTellsDays | components/ui/trial-banner.tsx:43-45 | the same message means the same day count |
| Config.TenantStatus | app/dashboard/configuracoes/config-client.tsx:17 | the status claim when truthy, otherwise "PENDING" |
| Config.TrialDaysLeft | app/dashboard/configuracoes/config-client.tsx:21-28 | 0 iff there is no end date or it has passed, otherwise the rounded-up day count |
| Config.Badge | app/dashboard/configuracoes/config-client.tsx:70-74 | "ATIVO" iff ACTIVE, "PERÍODO DE TESTE" iff TRIAL, "PENDENTE" for everything else |
| Config.Note | app/dashboard/configuracoes/config-client.tsx:85-99 | a note iff TRIAL or ACTIVE; for TRIAL "Expirou hoje" iff no day is left, otherwise the days; for ACTIVE "Assinatura em dia" |
| Config.ActionFor | app/dashboard/configuracoes/config-client.tsx:120-130 | the subscribe link iff TRIAL or PENDING |
| Config.ShowPanel | app/dashboard/configuracoes/config-client.tsx:17-130 | the panel is built from the defaulted status and the days left |
| Config.MissingStatusOffersSubscription | app/dashboard/configuracoes/config-client.tsx:17-130 | without a status, the pending badge, no note and the subscribe link |
| Config.SuspendedReadsPendingWithoutLink | app/dashboard/configuracoes/config-client.tsx:70-130 | a suspended tenant sees "PENDENTE" and no subscribe link |
| Config.AgreesWithBanner | app/dashboard/configuracoes/config-client.tsx:21-28 | for a trial with an end date, the panel and the banner count the same days and agree on when the trial is over |
| Admin.AdminOverview | app/admin/page.tsx:22-29 | the active count, revenue of 4990 cents per active tenant, and only PENDING tenants in the pending list |
| Admin.PendingListed | app/admin/page.tsx:19-27 | the pending list keeps the query's order and holds every PENDING tenant |
| Admin.ActiveAndPendingDisjoint | app/admin/page.tsx:22-27 | active count and pending list together never exceed the tenants |
| Admin.RevenuePerActiveTenant | app/admin/page.tsx:29 | one more active tenant adds one plan price, any other tenant nothing |
| SaaSAdmin.PayingCount | components/SaaSAdmin.tsx:21 | at most the active count, and equal to it iff no active tenant is the owner's account |
| SaaSAdmin.Mrr | components/SaaSAdmin.tsx:22 | 29990 cents per paying tenant, between 0 and the active count's worth |
| SaaSAdmin.StatusLists | components/SaaSAdmin.tsx:17-18 | the two lists keep the input's order and hold exactly the tenants of their status |
| SaaSAdmin.OwnerAccountEarnsNothing | components/SaaSAdmin.tsx:21-22 | adding the owner's account leaves the revenue unchanged |
| SaaSAdmin.Preview | components/SaaSAdmin.tsx:225 | the first min(4, n) pending requests |
| SaaSAdmin.MoreNote | components/SaaSAdmin.tsx:238-240 | the "E mais N" line iff more than 4 requests, with N the count less 4 |
| SaaSAdmin.PreviewAccountsForAll | components/SaaSAdmin.tsx:225-240 | the preview and the note's number add up to the pending count |
| SaaSAdmin.BadgeOf | components/SaaSAdmin.tsx:293-313 | the overdue mark iff SUSPENDED with an overdue payment; the label for each status |
| SaaSAdmin.RowActionOf | components/SaaSAdmin.tsx:321-343 | approve and reject iff PENDING, otherwise "Gerenciar" |
| SaaSAdmin.PreviewRowsActionable | components/SaaSAdmin.tsx:225-343 | every previewed request can be approved or rejected |
| Clinicas.FilteredTenants | app/admin/clinicas/clinicas-client.tsx:31-35 | every clinic kept matches the search |
| Clinicas.FilterKeepsOrder | app/admin/clinicas/clinicas-client.tsx:31-35 | the result is the matching clinics in the input's order |
| Clinicas.EmptyTermKeepsAll | app/admin/clinicas/clinicas-client.tsx:31-35 | an empty term keeps every clinic |
| Clinicas.SearchIgnoresCase | app/admin/clinicas/clinicas-client.tsx:31-35 | the term's letter case does not matter |
| Clinicas.NoUsersMatchesOnName | app/admin/clinicas/clinicas-client.tsx:34 | a clinic without users matches on its name only |
| Clinicas.StatusLabel | app/admin/clinicas/clinicas-client.tsx:237-241 | "Ativo" iff ACTIVE, "Pendente" iff PENDING, "Suspenso" otherwise |
| Clinicas.RowActionOf | app/admin/clinicas/clinicas-client.tsx:248-270 | approve and reject iff PENDING |
| Clinicas.TrialListedAsSuspended | app/admin/clinicas/clinicas-client.tsx:237-270 | a TRIAL clinic reads "Suspenso" and can only be managed |
| MockAuth.FindByEmail | components/Auth.tsx:45 | the first tenant whose address matches ignoring case, or none iff none does |
| MockAuth.Login | components/Auth.tsx:39-70 | not found, wrong password, under review and suspended, each iff its guard is the first to fail; signed in iff the first match has the password and is ACTIVE; SUPER_ADMIN iff the stored address is exactly "admin@saas.com" |
| MockAuth.FirstMatchShadowsLater | components/Auth.tsx:45-55 | a later tenant with the same address and the right password is never tried |
| MockAuth.OwnerRoleNeedsExactAddress | components/Auth.tsx:68 | a capitalised copy of the owner's address signs in as a clinic |
| MockAuth.FindIgnoresCase | components/Auth.tsx:45 | the typed address's case does not change the lookup |
| MockAuth.SignInIgnoresCase | components/Auth.tsx:39-70 | the typed address's case does not change the decision |
| MockAuth.Register | components/Auth.tsx:72-96 | all fields required, then a new address ignoring case; the new tenant is PENDING, on plan PRO, with the form's fields |
| MockAuth.FindAppended | components/Auth.tsx:45 | an appended tenant whose address no earlier one shares is the one found |
| MockAuth.RegisteredAccountAwaitsApproval | components/Auth.tsx:57-100 | a registered account, once listed, is told at sign-in that it is under review |
| MockAuth.AuthForm.constructor | components/Auth.tsx:15-25 | sign-in view, no messages, empty fields |
| MockAuth.AuthForm.LoginSubmit | components/Auth.tsx:39-70 | both messages cleared, the decision's error shown, the fields kept |
| MockAuth.AuthForm.RegisterSubmit | components/Auth.tsx:72-106 | on error only the message changes; on success the notice, the sign-in view and four empty fields |
| MockApp.FlipInvolutive | App.tsx:101-103 | two flips restore the theme and one always changes it |
| MockApp.Approved | App.tsx:131-135 | the list keeps its length |
| MockApp.Rejected | App.tsx:137-142 | no tenant with that id remains |
| MockApp.ApprovalProperties | App.tsx:131-135 | tenants with the id become ACTIVE with nothing else changed, the others stay in place, and a second approval changes nothing |
| MockApp.RejectionProperties | App.tsx:137-142 | the rest keep their order, a tenant remains iff it was there with another id, and approving first changes nothing |
| MockApp.RejectAfterApprove | App.tsx:131-142 | rejecting after approving is rejecting |
| MockApp.AppState.constructor | App.tsx:14-35 | the initial values of the state |
| MockApp.AppState.AddProduct | App.tsx:62-66 | the modal opens for a new product; nothing else changes |
| MockApp.AppState.EditProduct | App.tsx:68-72 | the modal opens to edit that product; nothing else changes |
| MockApp.AppState.ManageBatches | App.tsx:74-78 | the modal opens on that product's batches; nothing else changes |
| MockApp.AppState.CloseModal | App.tsx:81-85 | modal closed, no type, no product; nothing else changes |
| MockApp.AppState.ToggleTheme | App.tsx:101-103 | the theme flips; nothing else changes |
| MockApp.AppState.ToggleSidebar | App.tsx:268 | the collapse flag flips; nothing else changes |
| MockApp.AppState.SetView | App.tsx:264 | the view changes; nothing else does |
| MockApp.AppState.Login | App.tsx:106-116 | authenticated, user and role set, and the owner's view iff SUPER_ADMIN |
| MockApp.AppState.Register | App.tsx:118-121 | the tenant, on plan PRO, goes to the end; earlier entries untouched |
| MockApp.AppState.Logout | App.tsx:123-128 | signed out, role CLINIC_ADMIN, products emptied, tenants kept |
| MockApp.AppState.ApproveTenant | App.tsx:131-135 | the tenant list becomes its approval; nothing else changes |
| MockApp.AppState.RejectTenant | App.tsx:137-142 | a confirmed rejection filters the list, a declined one changes nothing |
| MockApp.SignIn | App.tsx:106-116 | the decision is the form's, on the list the form loaded from the tenant service; on error nothing changes; on success signed in, with the owner's view iff the address is "admin@saas.com"; the app's tenant list is untouched |
| MockApp.RegisteredApplicantNotFound | App.tsx:118-121 | an address the form registered is listed in the app's state, and active there after approval, while the form, which reads only the service's list, still answers that the user is not found |
| Sidebar.ActiveItems | components/layout/sidebar.tsx:59-62 | every highlighted item is a menu item that is active |
| Sidebar.RootOnlyExact | components/layout/sidebar.tsx:62 | the root is highlighted only on itself |
| Sidebar.RawPrefixActivates | components/layout/sidebar.tsx:62 | "/dashboard/estoque-x" highlights "Estoque" |
| Sidebar.PrefixesNest | components/layout/sidebar.tsx:62 | of two prefixes of one path, the shorter prefixes the longer |
| Sidebar.AtMostOneActive | components/layout/sidebar.tsx:59-62 | with links that do not prefix each other, at most one item is highlighted |
| Sidebar.AtMostOnePrefix | components/layout/sidebar.tsx:62 | of links that do not prefix each other, at most one prefixes the path |
| Sidebar.ClinicMenuShape | components/layout/sidebar.tsx:17-22 | the clinic links do not prefix each other and are longer than the root |
| Sidebar.AdminMenuShape | components/layout/admin-sidebar.tsx:18-22 | the owner's links do not prefix each other and are longer than the root |
| Sidebar.ClinicMenuOneActive | components/layout/sidebar.tsx:17-62 | at most one of the four clinic items is highlighted for any path |
| Sidebar.AdminMenuOneActive | components/layout/admin-sidebar.tsx:18-115 | at most one of the three owner items is highlighted for any path |
| Sidebar.ClinicSidebar.constructor | components/layout/sidebar.tsx:26 | not collapsed at first |
| Sidebar.ClinicSidebar.ToggleCollapse | components/layout/sidebar.tsx:51 | the collapse flag flips |
| Sidebar.AdminSidebar.constructor | components/layout/admin-sidebar.tsx:26-27 | neither collapsed nor open at first |
| Sidebar.AdminSidebar.ToggleCollapse | components/layout/admin-sidebar.tsx:98 | the collapse flag flips; the drawer and path stay |
| Sidebar.AdminSidebar.OpenMobile | components/layout/admin-sidebar.tsx:44 | the drawer opens |
| Sidebar.AdminSidebar.CloseMobile | components/layout/admin-sidebar.tsx:55 | the drawer closes |
| Sidebar.AdminSidebar.Navigate | components/layout/admin-sidebar.tsx:30-32 | a new path closes the drawer; the same path leaves it as it was |

## Left out

- Rendering: markup, class strings, charts, and every page that only displays data. The badge colours are modelled as four constants, not as class strings.
- The ORM and database client. The tables are in-memory fields, and generated row ids (cuid) and the password hash are parameters.
- Generic database failures (a lost connection, say) are not modelled. Only unique-constraint clashes and a missing tenant on update make an operation throw. So the batches GET error reply ("Erro ao buscar lotes", 500) and the products GET failure path are not represented.
- Products.Post: a JSON `null` is read as an absent field (Products.Acceptable sees `None`). The route's `price === undefined` test lets a `null` price through to the insert, which then fails with 500; here that body is answered 400.
- Db.Database.InsertProduct: product ids are assumed fresh. `Valid()` does not make them unique and the insert never throws, so a primary-key clash is not modelled; with a repeated product id, Batches.FirstOwned picks the first of the tenant's products bearing it.
- Db.Database.InsertBatch: batch ids are assumed fresh. `Valid()` does not make them unique and the insert never throws, so a primary-key clash is not modelled.
- bcrypt: hashing is the abstract relation `matches`.
- NextAuth itself: the token's own claims (expiry, subject) are not modelled, only the five copied claims.
- Payment-provider HTTP calls. The fetched payload is an input (`Webhook.Fetch`), and the access token and URLs are not modelled.
- The webhook's GET handler is not modelled. It returns a fixed status message.
- Floating point: prices, revenues and costs are integer cents. The page's `Number(p.price)` is taken as exact.
- JSON parsing: a body that is not JSON is an absent body, and every field is taken at its declared type (a string, an integer, or absent). A field of another JSON type is not represented: a numeric `password`, whose `length` is undefined and which then makes the hash throw (a 500), or an empty-string `expirationDate`, which is falsy in the products route. `parseInt(quantity)` in the batches route is taken as the integer quantity itself.
- The clock and the locale: `Date.now()` and `new Date()` are parameters in milliseconds. Date formatting (`Intl`, `toISOString`) is left out, and the registration date in the mock form is a parameter.
- Full Unicode: `toLowerCase` and NFD normalisation are exact on U+0000..U+00FF only. Characters above are left unchanged.
- Concurrency: concurrent webhook deliveries or registrations are not modelled; each request is one atomic step.
- Admin.AdminOverview: the query's newest-first order is taken as the order of the input sequence. The model does not sort by creation date.
- Dashboard.CategoryData: the accumulator is a sequence reassigned with an updated entry. JavaScript updates the found object in place through an alias (`existing.value +=`). No other reference to those objects exists, so the outcome is the same.
- MockApp.SignIn: the list the form searches (`api.tenants.list()`, with the fixed mock tenants as the fallback) is a parameter; the fixed list itself and the request's delay are not modelled. Registration and approval change only the app's list, so they never reach that search.
- The mock app's data fetch and service calls are not modelled: the load in App.tsx after every sign-in, the save after a form submit (`handleFormSubmit`) and the Assistant. That load replaces the app's tenant list with the service's fixed list, so a tenant added by `handleRegister` is dropped from it at the next sign-in.
- The clinic list's approve and reject buttons call the API and reload the page. Those calls are not modelled. The reject route (app/api/admin/tenants/[id]/reject/route.ts) answers 401 without a session and 403 unless the caller is SUPER_ADMIN, and otherwise sets the tenant's status to SUSPENDED and keeps the row; the mock handler `MockApp.Rejected` removes the tenant from the list instead, so the two differ. The approve route is not part of this model.
- The "Próxima Cobrança" date on the settings page is a locale-formatted date, so it is left out.
- The mock `Tenant` status and role unions are datatypes. Values outside the unions cannot occur in this model.
- prisma/schema.prisma is not part of this model. The column defaults (the user role when none is set) are represented as an absent value.
