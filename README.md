# RentTrack front end: a verified model

RentTrack is a rent-management web front end written in React and
TypeScript. Landlords list and filter properties and onboard tenants from a
scanned identity document. They review the scan's extracted fields, track
payments and export them as CSV. Tenants see their lease and their payments.

This Dafny project models the logic of those screens and the shared pieces
under them. It covers the signed-in session kept in `localStorage`, the REST
client's token and error handling, the route table with its role guard, the
sidebar's navigation, the upload widget and the in-memory store.

## Layout

Shared modules model the JavaScript behaviour the components lean on:

- `Wrappers`: `Option` and `Result`.
- `Seqs`: `Array.prototype.filter` and the order-preserving subsequence relation.
- `Strings`: ASCII `toLowerCase`, `includes`, `split`, `join`, `trim` and integer formatting.
- `Js`: truthiness and `||`, `??`, `JSON.parse` values, and `Number(s)`.
- `Json`: string escaping as `JSON.stringify` writes it.
- `WebStorage`: `localStorage` as a class over a string map.

One module per source file then models that file:

- `Payments`, `Properties`, `Tenants`, `Onboarding` and `OcrPreview` model the pages.
- `UploadCard`, `Sidebar` and `PropertyCard` model the components.
- `ProtectedRoute` and `App` (both in `routes.dfy`) model the route guard and the route table.
- `Auth` models `AuthContext.tsx`, `ApiClient` models `apiClient.ts` and `AppStore` models `appStore.ts`.

The model keeps each source file's form:

- Pure expressions become functions with named results, and lemmas relate them.
- Component and module state that handlers update becomes a class. The
  class's fields are `seq`, `map` or values, and its methods say the whole
  new state.
- Network answers, timer ticks, `Date.now()`, object URLs and the document
  being scanned are parameters of the methods that receive them.

Source paths below are relative to the repository root,
`renttrack-frontend-suite-main/`.

Properties of the model worth knowing:

- The payment and tenant searches lower-case both the query and the text
  searched.
- In the model, route matching is exact (see "## Left out"). The tenant
  status colours are exact and case-sensitive, as in the code:
  `StatusColor("active")` is the muted class.
- The properties page filters by the lower-cased search, untrimmed, once a
  `trim()` test has found it non-blank.
- A signed-in user whose role is none of LANDLORD, ADMIN and TENANT is shown
  the tenant navigation. Every link there except `/lease` admits them, and
  `/lease` sends them back to `/dashboard`. `Sidebar.ShownLinksReachable`
  proves both directions.
- An `accept` list with an empty or lone "." entry admits every file
  (`UploadCard.EmptyEntryAcceptsAll`), because every MIME type contains "".
- The properties page labels the BHK buttons "1+" … "4+", but the filter
  keeps only an exact match (`Properties.BoundsAndBhk`).

## Model

| member | source | states |
|---|---|---|
| Payments.FilteredPayments | renttrack-frontend-suite-main/src/pages/Payments.tsx:87-99 | the shown rows are an order-preserving subsequence of the payments, and a payment is shown iff it matches the search and the status filter |
| Payments.SearchIgnoresCase | renttrack-frontend-suite-main/src/pages/Payments.tsx:88-93 | lower-casing the search changes nothing |
| Payments.TenantSearchIgnoresName | renttrack-frontend-suite-main/src/pages/Payments.tsx:90-93 | for a tenant the search looks at the month only, so the tenant name never matters |
| Payments.EmptySearchShowsAll | renttrack-frontend-suite-main/src/pages/Payments.tsx:87-99 | with an empty search and the filter "all", every payment is shown in order |
| Payments.TotalsPartition | renttrack-frontend-suite-main/src/pages/Payments.tsx:134-140 | collected, due and overdue totals sum to the total of all amounts, whatever the search or filter |
| Payments.TotalBounded | renttrack-frontend-suite-main/src/pages/Payments.tsx:134-140 | with non-negative amounts each status total is at most the overall total |
| Payments.SumNonNegative | renttrack-frontend-suite-main/src/pages/Payments.tsx:138-140 | non-negative amounts give a non-negative sum |
| Payments.ReplaceById | renttrack-frontend-suite-main/src/pages/Payments.tsx:153-155 | same length; each entry with the id becomes the server record; every other entry is unchanged |
| Payments.ReplaceAbsentId | renttrack-frontend-suite-main/src/pages/Payments.tsx:153-155 | recording a payment whose id is not in the list leaves the list unchanged |
| Payments.ReplaceTwice | renttrack-frontend-suite-main/src/pages/Payments.tsx:153-155 | recording the same record twice is recording it once |
| Payments.StatusName | renttrack-frontend-suite-main/src/pages/Payments.tsx:43 | the three statuses are spelled "paid", "due" and "overdue", and no two are spelled alike |
| Payments.CsvHeader | renttrack-frontend-suite-main/src/pages/Payments.tsx:222-224 | five columns for a tenant; otherwise six, with "Tenant" first |
| Payments.CsvRow | renttrack-frontend-suite-main/src/pages/Payments.tsx:226-243 | a row has as many fields as the header: the tenant name first for a landlord, then the month, the amount with two decimals, the due date, the paid date (or "") and the status |
| Payments.CsvLines | renttrack-frontend-suite-main/src/pages/Payments.tsx:245 | one header line plus one line per shown payment |
| Payments.ExportCsv | renttrack-frontend-suite-main/src/pages/Payments.tsx:220-221 | nothing is exported iff the shown list is empty |
| Payments.RowAvoids | renttrack-frontend-suite-main/src/pages/Payments.tsx:226-243 | a character absent from the text fields, and not a digit, "-", "." or a letter of a status, is absent from every exported field |
| Payments.ExportLines | renttrack-frontend-suite-main/src/pages/Payments.tsx:245 | when no field holds a line break, splitting the CSV on line breaks gives the header and the rows back, in the list's order |
| Payments.ExportFields | renttrack-frontend-suite-main/src/pages/Payments.tsx:245 | when no field holds a comma, splitting a row line on commas gives its fields back: 5 for a tenant, 6 otherwise |
| Payments.CommaInNameShiftsColumns | renttrack-frontend-suite-main/src/pages/Payments.tsx:245 | fields are not quoted: a tenant name with one comma splits its line into 7 fields, the name's halves first |
| Payments.ActionsExclusive | renttrack-frontend-suite-main/src/pages/Payments.tsx:327-338 | "Mark Paid" (landlord) and "Pay Now" (tenant) are never offered together; neither is offered for a paid row or to an ADMIN |
| Payments.PaymentsPage.Shown | renttrack-frontend-suite-main/src/pages/Payments.tsx:87-99 | the shown rows are a subsequence of the loaded list |
| Payments.PaymentsPage.constructor | renttrack-frontend-suite-main/src/pages/Payments.tsx:53-56 | no payments, empty search, filter "all", loading |
| Payments.PaymentsPage.Load | renttrack-frontend-suite-main/src/pages/Payments.tsx:61-78 | a successful fetch replaces the list and a failed one keeps it; loading ends either way |
| Payments.PaymentsPage.RecordPayment | renttrack-frontend-suite-main/src/pages/Payments.tsx:147-170 | on success the list is the id replacement; on failure nothing changes; the length is kept |
| Properties.FilteredProperties | renttrack-frontend-suite-main/src/pages/Properties.tsx:59-90 | the filtered list is an order-preserving subsequence, and a property is kept iff it passes search, budget, BHK and tags |
| Properties.ApplyFilters | renttrack-frontend-suite-main/src/pages/Properties.tsx:60-89 | the step-by-step filtering, with its skipped steps, gives exactly the one-pass conjunction |
| Properties.BlankSearchIgnored | renttrack-frontend-suite-main/src/pages/Properties.tsx:63 | a blank or white-space-only search constrains nothing |
| Properties.SearchMatchesText | renttrack-frontend-suite-main/src/pages/Properties.tsx:63-69 | any other search keeps a property iff its lower-cased title or address (missing as "") holds the lower-cased search |
| Properties.BoundsAndBhk | renttrack-frontend-suite-main/src/pages/Properties.tsx:73-80 | both budget bounds are inclusive; a chosen BHK passes its test iff the property has exactly that BHK, so any other BHK is not shown |
| Properties.TagsRequired | renttrack-frontend-suite-main/src/pages/Properties.tsx:83-87 | a property is kept iff it has every selected tag; no selection constrains nothing |
| Properties.InitialFiltersKeep | renttrack-frontend-suite-main/src/pages/Properties.tsx:40-42 | at the initial filters every property priced within 0..500000 is shown |
| Properties.ToggledBhk | renttrack-frontend-suite-main/src/pages/Properties.tsx:176 | clicking the selected BHK clears it, clicking another selects it |
| Properties.CheckedTags | renttrack-frontend-suite-main/src/pages/Properties.tsx:191-196 | checking appends the tag; unchecking removes every occurrence and keeps every other tag |
| Properties.PropertiesPage.Fetched | renttrack-frontend-suite-main/src/pages/Properties.tsx:49-54 | after a fetch the shown list is the fetched list filtered by the current filters |
| Properties.PropertiesPage.constructor | renttrack-frontend-suite-main/src/pages/Properties.tsx:37-42 | no properties shown, filters at search "", budget 0..500000, no BHK, no tags |
| Properties.PropertiesPage.SetFilters | renttrack-frontend-suite-main/src/pages/Properties.tsx:59-90 | after any control change the shown list is the filtered list |
| Properties.PropertiesPage.ClearFilters | renttrack-frontend-suite-main/src/pages/Properties.tsx:92-97 | "Clear All" restores search "", budget 0..500000, no BHK and no tags |
| Properties.PropertiesPage.ToggleBhk | renttrack-frontend-suite-main/src/pages/Properties.tsx:176 | the BHK filter is toggled and the list refiltered |
| Properties.PropertiesPage.SetAmenity | renttrack-frontend-suite-main/src/pages/Properties.tsx:191-196 | the amenity selection is updated and the list refiltered |
| Tenants.FilteredTenants | renttrack-frontend-suite-main/src/pages/Tenants.tsx:72-77 | order-preserving subsequence; a tenant is kept iff lower-cased "first last" or the lower-cased e-mail holds the lower-cased search |
| Tenants.EmptySearchKeepsAll | renttrack-frontend-suite-main/src/pages/Tenants.tsx:72-77 | an empty search keeps every tenant, in order |
| Tenants.SearchIgnoresCase | renttrack-frontend-suite-main/src/pages/Tenants.tsx:75-76 | lower-casing the search changes nothing |
| Tenants.FirstNameFound | renttrack-frontend-suite-main/src/pages/Tenants.tsx:73-75 | a tenant whose first name holds the search is found |
| Tenants.StatusColor | renttrack-frontend-suite-main/src/pages/Tenants.tsx:82-100 | success iff ACTIVE, PAID or paid; warning iff INACTIVE, DUE or due; destructive iff OVERDUE or overdue; muted otherwise |
| Tenants.LowerTenantStatusMuted | renttrack-frontend-suite-main/src/pages/Tenants.tsx:84-87 | lower-case "active" and "inactive" fall to the muted default |
| Tenants.PaymentStatusColors | renttrack-frontend-suite-main/src/pages/Tenants.tsx:88-96 | the payments page's three statuses get success, warning and destructive |
| Tenants.AvatarUrl | renttrack-frontend-suite-main/src/pages/Tenants.tsx:135-137 | an image iff the stored path is non-empty, and then the backend address followed by that path |
| Onboarding.InitialForm | renttrack-frontend-suite-main/src/pages/Onboarding.tsx:58-76 | the seventeen fields, all "" except the property id, which is the navigation state's id or "" |
| Onboarding.FormatDobReorders | renttrack-frontend-suite-main/src/pages/Onboarding.tsx:96-100 | "dd/mm/yyyy" and "dd-mm-yyyy" become "yyyy-mm-dd" |
| Onboarding.FormatDobEmpty | renttrack-frontend-suite-main/src/pages/Onboarding.tsx:97 | a missing or empty date of birth becomes "" |
| Onboarding.SplitNameRejoins | renttrack-frontend-suite-main/src/pages/Onboarding.tsx:94-105 | the first name has no space; a name with a space is first + " " + last; a name without one is all first name |
| Onboarding.ScannedFields | renttrack-frontend-suite-main/src/pages/Onboarding.tsx:102-114 | the scan writes exactly the ten prefilled fields |
| Onboarding.Prefill | renttrack-frontend-suite-main/src/pages/Onboarding.tsx:102-114 | prefilled fields take the scan's values and every other field keeps its value |
| Onboarding.ScannedName | renttrack-frontend-suite-main/src/pages/Onboarding.tsx:94-105 | the name fields are the split of the scanned name, or "" and "" without one |
| Onboarding.ScannedContact | renttrack-frontend-suite-main/src/pages/Onboarding.tsx:106-113 | e-mail, phone, id, lease dates and photo are taken as scanned, a missing one becoming ""; the rent is the amount's decimal text, or "" when none was scanned |
| Onboarding.Find | renttrack-frontend-suite-main/src/pages/Onboarding.tsx:130 | a found property is the first one with the id; none found means no property has it |
| Seqs.FindIndex | renttrack-frontend-suite-main/src/pages/Onboarding.tsx:130 | the index of the first element matching, or none when no element matches |
| Onboarding.Deposit | renttrack-frontend-suite-main/src/pages/Onboarding.tsx:137 | the deposit is price × 1.5 rounded half up: 2d − 1 ≤ 3·price < 2d + 1 |
| Onboarding.Autofill | renttrack-frontend-suite-main/src/pages/Onboarding.tsx:127-139 | only the rent and deposit can change, and a non-empty field is never overwritten |
| Onboarding.AutofillCases | renttrack-frontend-suite-main/src/pages/Onboarding.tsx:128-138 | no property id, or no property with it, changes nothing; otherwise empty rent and deposit get the price and the deposit |
| Onboarding.AutofillIdempotent | renttrack-frontend-suite-main/src/pages/Onboarding.tsx:127-139 | running the autofill again changes nothing |
| Onboarding.UpdateField | renttrack-frontend-suite-main/src/pages/Onboarding.tsx:120-122 | the named field gets the value and no other field changes |
| Onboarding.Apply | renttrack-frontend-suite-main/src/pages/Onboarding.tsx:279-327 | Back never goes below step 1; Continue advances below step 4 except at step 3 without a document; an upload appends its document |
| Onboarding.RunStaysInRange | renttrack-frontend-suite-main/src/pages/Onboarding.tsx:311-326 | any sequence of clicks keeps the step within 1..4 |
| Onboarding.RunKeepsDocs | renttrack-frontend-suite-main/src/pages/Onboarding.tsx:281 | uploaded documents are only ever appended |
| Onboarding.LastStepNeedsUpload | renttrack-frontend-suite-main/src/pages/Onboarding.tsx:318-326 | the payment step is reached only after at least one upload |
| Onboarding.Wizard.PrefillFromOcr | renttrack-frontend-suite-main/src/pages/Onboarding.tsx:91-115 | a scan prefills the form; no scan leaves it |
| Onboarding.Wizard.constructor | renttrack-frontend-suite-main/src/pages/Onboarding.tsx:50-76 | step 1, no documents, no properties, the initial form for the navigation state |
| Onboarding.Wizard.PropertiesFetched | renttrack-frontend-suite-main/src/pages/Onboarding.tsx:81-139 | the fetched properties are kept and the autofill runs |
| Onboarding.Wizard.Edit | renttrack-frontend-suite-main/src/pages/Onboarding.tsx:120-139 | the field is updated, and only a change of the property id reruns the autofill |
| Onboarding.Wizard.Back | renttrack-frontend-suite-main/src/pages/Onboarding.tsx:311 | the step goes back as `Apply` says |
| Onboarding.Wizard.Continue | renttrack-frontend-suite-main/src/pages/Onboarding.tsx:315-327 | refused iff at step 3 without a document; otherwise the step advances |
| Onboarding.Wizard.Upload | renttrack-frontend-suite-main/src/pages/Onboarding.tsx:279-283 | a successful upload appends the document and sets the flag; a failed one changes nothing |
| OcrPreview.Scan | renttrack-frontend-suite-main/src/pages/OcrPreview.tsx:99-127 | a search finds the leftmost position where the pattern matches, and nothing matches before it; no result means no position matches |
| OcrPreview.GovtIdAt | renttrack-frontend-suite-main/src/pages/OcrPreview.tsx:116 | a match is three groups of four digits separated by single white-space characters, found at that position |
| OcrPreview.PhoneAt | renttrack-frontend-suite-main/src/pages/OcrPreview.tsx:111 | a match is ten digits, optionally after "+91" and a "-" or white space, found at that position; no match means no phone pattern occurs there |
| OcrPreview.DobAt | renttrack-frontend-suite-main/src/pages/OcrPreview.tsx:121 | a match is a dd[/-]dd[/-]dddd date after "DOB" in any letter case and a run of colons and white space; no match means no such date follows there |
| OcrPreview.SkipSeparators | renttrack-frontend-suite-main/src/pages/OcrPreview.tsx:121 | `[:\s]*` consumes the whole run of colons and white space |
| OcrPreview.Pick | renttrack-frontend-suite-main/src/pages/OcrPreview.tsx:97-129 | a non-empty server value wins; else a non-empty match; else "" |
| OcrPreview.Extract | renttrack-frontend-suite-main/src/pages/OcrPreview.tsx:131-142 | lease dates are always ""; the rent is passed through; a photo is kept iff its path is non-empty, and then it is that path |
| OcrPreview.ExtractGovtId | renttrack-frontend-suite-main/src/pages/OcrPreview.tsx:114-117 | the id is the server's, else the leftmost id pattern in the raw text, else "" and then the text holds none |
| OcrPreview.ExtractPhone | renttrack-frontend-suite-main/src/pages/OcrPreview.tsx:109-112 | the same precedence for the phone pattern |
| OcrPreview.ExtractDob | renttrack-frontend-suite-main/src/pages/OcrPreview.tsx:119-122 | the same precedence for the date-of-birth pattern |
| OcrPreview.ExtractByPattern | renttrack-frontend-suite-main/src/pages/OcrPreview.tsx:97-129 | name, e-mail and address each take the server's non-empty value, else the pattern's match, else "" |
| OcrPreview.NoPhoneInText | renttrack-frontend-suite-main/src/pages/OcrPreview.tsx:109-112 | an empty phone with no server phone means no phone pattern occurs anywhere in the text |
| OcrPreview.NoDobInText | renttrack-frontend-suite-main/src/pages/OcrPreview.tsx:119-122 | an empty date of birth with no server date means no "DOB" date occurs anywhere in the text |
| OcrPreview.PhoneNoMatchAfterPrefix | renttrack-frontend-suite-main/src/pages/OcrPreview.tsx:111 | after "+91" with neither separated form matching, no phone pattern occurs at that position |
| OcrPreview.PickScanned | renttrack-frontend-suite-main/src/pages/OcrPreview.tsx:97-129 | for any matcher whose matches satisfy its pattern, the field is the server value, else the leftmost match in the raw text, else "" and then no position matches |
| OcrPreview.ScannedDobFormats | renttrack-frontend-suite-main/src/pages/OcrPreview.tsx:121 | a date the scan finds, with either separator in either place, is turned by the onboarding form into year-month-day |
| OcrPreview.PollOutcome | renttrack-frontend-suite-main/src/pages/OcrPreview.tsx:85-153 | a null or empty parse is still processing; a failed request fails; any other parse is assembled |
| OcrPreview.UpdateField | renttrack-frontend-suite-main/src/pages/OcrPreview.tsx:165-170 | the named field takes the value and every other field keeps its value, starting from an empty form when there is none |
| OcrPreview.UpdateFieldFromEmpty | renttrack-frontend-suite-main/src/pages/OcrPreview.tsx:165-170 | an edit with no form yet sets only the named field and leaves every other field missing |
| OcrPreview.UpdateFieldOnly | renttrack-frontend-suite-main/src/pages/OcrPreview.tsx:165-170 | an edit shows the new value in its field and leaves every other field, the rent and the photo |
| OcrPreview.PhotoUrl | renttrack-frontend-suite-main/src/pages/OcrPreview.tsx:266-270 | a photo iff the path is non-empty, and then the backend address followed by that path |
| OcrPreview.OcrPoller.Start | renttrack-frontend-suite-main/src/pages/OcrPreview.tsx:73-81 | without an upload id the page sends the user to /upload and never polls |
| OcrPreview.OcrPoller.constructor | renttrack-frontend-suite-main/src/pages/OcrPreview.tsx:64-66 | no form data, loading, not polling, no redirect |
| OcrPreview.OcrPoller.Tick | renttrack-frontend-suite-main/src/pages/OcrPreview.tsx:85-153 | still processing changes nothing and keeps polling; a result or an error stops polling and ends loading; only a result sets the form |
| OcrPreview.OcrPoller.Edit | renttrack-frontend-suite-main/src/pages/OcrPreview.tsx:165-170 | the form becomes the field update |
| UploadCard.AcceptTypes | renttrack-frontend-suite-main/src/components/renttrack/UploadCard.tsx:33 | one trimmed entry per comma-separated part of `accept` |
| UploadCard.Validate | renttrack-frontend-suite-main/src/components/renttrack/UploadCard.tsx:32-47 | accepted iff the type check passes and size ≤ maxSize·1024·1024; the type error comes first, with its message, then the size error |
| UploadCard.DefaultTypes | renttrack-frontend-suite-main/src/components/renttrack/UploadCard.tsx:14-33 | the default `accept` reads as .pdf, .jpg, .jpeg, .png |
| UploadCard.ExtensionAccepted | renttrack-frontend-suite-main/src/components/renttrack/UploadCard.tsx:34-36 | a name whose last dot-part, lower-cased and after a dot, is an entry passes whatever its MIME type |
| UploadCard.DefaultAcceptsDocuments | renttrack-frontend-suite-main/src/components/renttrack/UploadCard.tsx:14-36 | names ending in pdf, jpg, jpeg or png in any letter case pass the default check |
| UploadCard.EmptyEntryAcceptsAll | renttrack-frontend-suite-main/src/components/renttrack/UploadCard.tsx:36 | an empty or "." entry admits every file |
| UploadCard.SizeLimitInclusive | renttrack-frontend-suite-main/src/components/renttrack/UploadCard.tsx:41 | a file of exactly the limit passes; one byte more is refused |
| UploadCard.ProgressStep | renttrack-frontend-suite-main/src/components/renttrack/UploadCard.tsx:79-85 | +10 below 90, pinned at 90 from there |
| UploadCard.ProgressCapped | renttrack-frontend-suite-main/src/components/renttrack/UploadCard.tsx:75-86 | after n ticks from 0 the progress is min(10n, 90) |
| UploadCard.ProgressFrom | renttrack-frontend-suite-main/src/components/renttrack/UploadCard.tsx:78-86 | from a multiple of ten at most 90, n ticks add 10 each until pinned at 90 |
| UploadCard.UploadWidget.Offer | renttrack-frontend-suite-main/src/components/renttrack/UploadCard.tsx:53-68 | the error is cleared first; a passing file replaces the current one; a refused one sets its error and keeps the old file |
| UploadCard.UploadWidget.Drop | renttrack-frontend-suite-main/src/components/renttrack/UploadCard.tsx:49-61 | dragging ends, then the dropped file is offered |
| UploadCard.UploadWidget.Select | renttrack-frontend-suite-main/src/components/renttrack/UploadCard.tsx:63-69 | the chosen file is offered |
| UploadCard.UploadWidget.BeginUpload | renttrack-frontend-suite-main/src/components/renttrack/UploadCard.tsx:71-75 | nothing without a file; otherwise uploading from 0 percent |
| UploadCard.UploadWidget.Tick | renttrack-frontend-suite-main/src/components/renttrack/UploadCard.tsx:78-86 | one progress step, never above 90 while uploading |
| UploadCard.UploadWidget.FinishUpload | renttrack-frontend-suite-main/src/components/renttrack/UploadCard.tsx:88-99 | success: 100 percent and uploaded; failure: 0 percent and the error; uploading ends either way |
| UploadCard.UploadWidget.Remove | renttrack-frontend-suite-main/src/components/renttrack/UploadCard.tsx:102-107 | file, progress, uploaded flag and error are reset |
| UploadCard.UploadWidget.DragOver | renttrack-frontend-suite-main/src/components/renttrack/UploadCard.tsx:22-25 | dragging starts and nothing else changes |
| UploadCard.UploadWidget.DragLeave | renttrack-frontend-suite-main/src/components/renttrack/UploadCard.tsx:27-30 | dragging ends and nothing else changes |
| ProtectedRoute.Guard | renttrack-frontend-suite-main/src/routes/ProtectedRoute.tsx:12-24 | nothing while loading; /login without a user whatever the roles; /dashboard for a refused role; children iff not loading, signed in and the role allowed or unrestricted |
| ProtectedRoute.GuardMonotone | renttrack-frontend-suite-main/src/routes/ProtectedRoute.tsx:20 | allowing more roles never refuses someone who was admitted |
| ProtectedRoute.EmptyRolesAdmitNoOne | renttrack-frontend-suite-main/src/routes/ProtectedRoute.tsx:20-22 | an empty role list is still a restriction and sends every user to /dashboard |
| App.Lookup | renttrack-frontend-suite-main/src/App.tsx:39-137 | a found route has exactly that path and is the first such; none found means no route has it |
| App.Resolve | renttrack-frontend-suite-main/src/App.tsx:39-137 | a listed path gives its route; any other path gives NotFound |
| App.Render | renttrack-frontend-suite-main/src/App.tsx:39-137 | a public page renders as is; a protected one goes through the guard with its roles |
| App.RoutesDistinct | renttrack-frontend-suite-main/src/App.tsx:42-132 | the listed paths are pairwise distinct |
| App.ResolveListed | renttrack-frontend-suite-main/src/App.tsx:42-132 | each listed path resolves to its own route |
| App.PublicRoutes | renttrack-frontend-suite-main/src/App.tsx:42-47 | /, /login, /register, /forgot-password, /reset-password and /contact-admin are unguarded |
| App.SharedRoutes | renttrack-frontend-suite-main/src/App.tsx:51-73 | /dashboard, /payments and /settings need a user but no role |
| App.LandlordRoutes | renttrack-frontend-suite-main/src/App.tsx:77-123 | /properties, /properties/new, /onboarding, /upload, /ocr-preview and /tenants allow LANDLORD and ADMIN only |
| App.TenantRoutes | renttrack-frontend-suite-main/src/App.tsx:127-132 | /lease allows TENANT only |
| App.UnlistedNotFound | renttrack-frontend-suite-main/src/App.tsx:136 | every other path renders NotFound |
| App.SharedReachable | renttrack-frontend-suite-main/src/App.tsx:51-73 | every signed-in role reaches the shared pages |
| App.LandlordReachable | renttrack-frontend-suite-main/src/App.tsx:77-123 | a landlord page is reachable iff the role is LANDLORD or ADMIN |
| App.LeaseReachable | renttrack-frontend-suite-main/src/App.tsx:127-132 | /lease is reachable iff the role is TENANT |
| Sidebar.NavItems | renttrack-frontend-suite-main/src/components/renttrack/Sidebar.tsx:50-53 | the landlord list iff the role is LANDLORD or ADMIN; the tenant list otherwise, also without a user |
| Sidebar.NavPathsDistinct | renttrack-frontend-suite-main/src/components/renttrack/Sidebar.tsx:24-40 | paths within each list are distinct |
| Sidebar.AtMostOneActive | renttrack-frontend-suite-main/src/components/renttrack/Sidebar.tsx:72 | at most one shown item is active for any pathname |
| Sidebar.TenantLinksReachable | renttrack-frontend-suite-main/src/components/renttrack/Sidebar.tsx:35-40 | every tenant link is a route a TENANT reaches |
| Sidebar.LandlordLinksReachable | renttrack-frontend-suite-main/src/components/renttrack/Sidebar.tsx:24-33 | every landlord link is a route LANDLORD and ADMIN reach |
| Sidebar.ShownLinksReachable | renttrack-frontend-suite-main/src/components/renttrack/Sidebar.tsx:50-53 | every link shown to a signed-in user is reachable iff the role is LANDLORD, ADMIN or TENANT |
| Sidebar.SidebarState.ToggleMenu | renttrack-frontend-suite-main/src/components/renttrack/Sidebar.tsx:116 | the menu button flips the mobile menu |
| Sidebar.SidebarState.constructor | renttrack-frontend-suite-main/src/components/renttrack/Sidebar.tsx:48 | the mobile menu starts closed |
| Sidebar.SidebarState.Close | renttrack-frontend-suite-main/src/components/renttrack/Sidebar.tsx:78 | a nav link closes the mobile menu |
| Sidebar.SidebarState.SignOut | renttrack-frontend-suite-main/src/components/renttrack/Sidebar.tsx:96-99 | sign-out logs out and closes the menu |
| Auth.DecodeEncodeUser | renttrack-frontend-suite-main/src/contexts/AuthContext.tsx:52-78 | a stored user parses back as itself, without an id |
| Auth.MemberQuoted | renttrack-frontend-suite-main/src/contexts/AuthContext.tsx:78 | a written string member reads back as its value, leaving the rest |
| Auth.RoleHelpers | renttrack-frontend-suite-main/src/contexts/AuthContext.tsx:119-121 | isLandlord and isTenant never both hold; each implies a user; isAuthenticated iff there is a user |
| Auth.UserOf | renttrack-frontend-suite-main/src/contexts/AuthContext.tsx:71-99 | the user built from a response has its e-mail, name and role and no id |
| Auth.RestoreDecision | renttrack-frontend-suite-main/src/contexts/AuthContext.tsx:47-62 | adopt only when both keys are truthy and the user parses; an unparseable user clears storage; otherwise no session |
| Auth.LoginThenRestore | renttrack-frontend-suite-main/src/contexts/AuthContext.tsx:50-78 | after a login with a non-empty token, a reload restores the same token and user |
| Auth.UseAuth | renttrack-frontend-suite-main/src/contexts/AuthContext.tsx:144-150 | outside the provider it fails with "useAuth must be used inside AuthProvider"; inside it returns the context |
| Auth.AuthProvider.Restore | renttrack-frontend-suite-main/src/contexts/AuthContext.tsx:46-65 | the state and storage follow the restore decision, and loading ends in every case |
| Auth.AuthProvider.constructor | renttrack-frontend-suite-main/src/contexts/AuthContext.tsx:41-43 | no user, no token, loading, sharing the client's storage |
| Auth.AuthProvider.AdoptSession | renttrack-frontend-suite-main/src/contexts/AuthContext.tsx:77-83 | storage, client token and state all hold the response's token, and the user holds its fields |
| Auth.AuthProvider.Login | renttrack-frontend-suite-main/src/contexts/AuthContext.tsx:68-84 | a failed call changes nothing and returns its error; a successful one adopts the session |
| Auth.AuthProvider.Register | renttrack-frontend-suite-main/src/contexts/AuthContext.tsx:87-108 | the same as login |
| Auth.AuthProvider.Logout | renttrack-frontend-suite-main/src/contexts/AuthContext.tsx:111-116 | storage emptied, client token cleared, user and token null |
| ApiClient.ApiBaseUrl | renttrack-frontend-suite-main/src/lib/apiClient.ts:3-4 | the configured address when non-empty, else the local default |
| ApiClient.RequestHeaders | renttrack-frontend-suite-main/src/lib/apiClient.ts:27-30 | caller headers kept; "Bearer " + token added iff the token is non-empty, overriding the caller's Authorization |
| ApiClient.HttpMessageStatus | renttrack-frontend-suite-main/src/lib/apiClient.ts:34 | the fallback message is "HTTP " followed by the status, which reads back as the status |
| ApiClient.ErrorMessageChoice | renttrack-frontend-suite-main/src/lib/apiClient.ts:33-40 | fetchJson prefers error, then message, then "HTTP <status>"; an unparseable body gives "HTTP <status>"; uploadDocument (lines 243-249) prefers message first |
| ApiClient.ErrorMessagesDiffer | renttrack-frontend-suite-main/src/lib/apiClient.ts:34-38 | the fetchJson choice and the uploadDocument choice (lines 243-249) differ iff the body carries distinct non-empty error and message fields |
| ApiClient.FetchJson | renttrack-frontend-suite-main/src/lib/apiClient.ts:33-43 | an error iff the response is not ok; no content iff status 204; a parse failure iff an ok non-204 body is not JSON; otherwise the parsed body |
| ApiClient.UploadResult | renttrack-frontend-suite-main/src/lib/apiClient.ts:243-253 | an error iff not ok, with the upload's message choice; a parse failure iff an ok body is not JSON, otherwise the parsed body; 204 is not special |
| ApiClient.Client.constructor | renttrack-frontend-suite-main/src/lib/apiClient.ts:9 | the token starts as the stored token |
| ApiClient.Client.SetToken | renttrack-frontend-suite-main/src/lib/apiClient.ts:11-14 | the field and the "renttrack_token" key both become the token |
| ApiClient.Client.ClearToken | renttrack-frontend-suite-main/src/lib/apiClient.ts:16-19 | the field is null and the key removed |
| ApiClient.Client.Url | renttrack-frontend-suite-main/src/lib/apiClient.ts:25 | the base address followed by the path |
| ApiClient.Client.UploadHeaders | renttrack-frontend-suite-main/src/lib/apiClient.ts:236-239 | only an Authorization header, and only with a non-empty token, whose value is "Bearer " and the token |
| AddProperty.ToggleAmenity | renttrack-frontend-suite-main/src/pages/AddProperty.tsx:38-42 | an absent tag is appended; a present one is removed everywhere, the others kept |
| AddProperty.ToggleTwice | renttrack-frontend-suite-main/src/pages/AddProperty.tsx:38-42 | toggling an absent tag twice restores the list |
| AddProperty.SubmitCheck | renttrack-frontend-suite-main/src/pages/AddProperty.tsx:52-60 | fields refused iff title or address is empty or price ≤ 0; only then is the image checked |
| AddProperty.InitialFormRefused | renttrack-frontend-suite-main/src/pages/AddProperty.tsx:26-52 | the untouched form is refused for its fields |
| AddProperty.PayloadOf | renttrack-frontend-suite-main/src/pages/AddProperty.tsx:69-77 | the created property carries the form's fields and exactly the uploaded image |
| AddProperty.FailureAlert | renttrack-frontend-suite-main/src/pages/AddProperty.tsx:81 | the error's message when non-empty, else "Failed to create property" |
| AddProperty.AddPropertyPage.ToggleTag | renttrack-frontend-suite-main/src/pages/AddProperty.tsx:38-42 | the tags become the toggle |
| AddProperty.AddPropertyPage.constructor | renttrack-frontend-suite-main/src/pages/AddProperty.tsx:26-36 | the initial form (empty title and address, 1 BHK, price 0, no tags, available, no image), no preview, not loading |
| AddProperty.AddPropertyPage.ImageChange | renttrack-frontend-suite-main/src/pages/AddProperty.tsx:44-48 | no file changes nothing; a file is kept with its preview |
| AddProperty.AddPropertyPage.Submit | renttrack-frontend-suite-main/src/pages/AddProperty.tsx:51-85 | a refused form makes no call; otherwise upload then create, in order, with the alert or navigation each outcome gives; loading ends false |
| AddProperty.AddPropertyPage.SubmitAsShipped | renttrack-frontend-suite-main/src/pages/AddProperty.tsx:62-84 | with the upload method undefined, a form passing both checks makes only the upload attempt and ends in the TypeError's alert, loading false |
| PropertyCard.ImageUrl | renttrack-frontend-suite-main/src/components/renttrack/PropertyCard.tsx:34-39 | the placeholder without images; the first image as is when it starts with "http", else behind the backend address |
| PropertyCard.FirstImageOnly | renttrack-frontend-suite-main/src/components/renttrack/PropertyCard.tsx:35-38 | only the first image is considered |
| PropertyCard.ImageUrlAbsolute | renttrack-frontend-suite-main/src/components/renttrack/PropertyCard.tsx:34-39 | every shown address starts with "http" |
| PropertyCard.ImageUrlIdempotent | renttrack-frontend-suite-main/src/components/renttrack/PropertyCard.tsx:34-39 | a shown address given back as the only image is shown unchanged |
| PropertyCard.AmenityBadges | renttrack-frontend-suite-main/src/components/renttrack/PropertyCard.tsx:85-101 | no block iff amenities are absent or empty; the first three badges and "+n" for the rest when there are more than three, else every amenity and no "+n" badge |
| PropertyCard.MoreText | renttrack-frontend-suite-main/src/components/renttrack/PropertyCard.tsx:97-101 | a "+" badge exists iff some amenities are hidden, and its number reads back as their count |
| PropertyCard.MoreTextCountsHidden | renttrack-frontend-suite-main/src/components/renttrack/PropertyCard.tsx:85-101 | more than three amenities give "+" and the number left out; one to three give no extra badge |
| PropertyCard.AvailabilityLabel | renttrack-frontend-suite-main/src/components/renttrack/PropertyCard.tsx:62 | "Available" iff available, else "Occupied" |
| PropertyCard.Bedrooms | renttrack-frontend-suite-main/src/components/renttrack/PropertyCard.tsx:81 | a missing count shows as 0 |
| AppStore.RentAmount | renttrack-frontend-suite-main/src/store/appStore.ts:16 | a missing rent is NaN, an empty one 0 |
| AppStore.RentOfInteger | renttrack-frontend-suite-main/src/store/appStore.ts:16 | a rent typed as an integer becomes that amount |
| AppStore.NewPayment | renttrack-frontend-suite-main/src/store/appStore.ts:13-21 | due, unpaid, due at the lease start, named "first last", for the property or "Assigned Property" |
| AppStore.Store.constructor | renttrack-frontend-suite-main/src/store/appStore.ts:4-6 | tenants, properties and payments start empty |
| AppStore.Store.AddTenant | renttrack-frontend-suite-main/src/store/appStore.ts:8-23 | appends the tenant and exactly one payment; properties unchanged |
| AppStore.Store.AddProperty | renttrack-frontend-suite-main/src/store/appStore.ts:25-28 | appends the property; tenants and payments unchanged |

## Left out

- Network calls, `FormData` and the Razorpay checkout and verification in
  `src/pages/Payments.tsx:173-214`. Server answers are method parameters.
  An in-flight poll that settles after the interval is cleared is not
  modelled.
- `apiClient.uploadPropertyImage`, called at `src/pages/AddProperty.tsx:66`,
  is not defined in `apiClient.ts`. As shipped, the call throws a
  `TypeError` inside the `try`, so every submit that passes the two checks
  ends in that error's alert, with no create call
  (`AddProperty.AddPropertyPage.SubmitAsShipped`). `Submit` takes the
  upload's result as its `uploaded` parameter; only its failure branch is
  reachable in the shipped code, and its success branches are what was
  evidently intended.
- Timers: the 1500 ms poll and the 200 ms progress interval. The model keeps
  one poll (`OcrPreview.OcrPoller.Tick`) and one step
  (`UploadCard.UploadWidget.Tick`) per tick, not real time.
- `OcrPreview.ExtractByPattern`: the name, e-mail and address regular
  expressions (`src/pages/OcrPreview.tsx:99,105,127`) are parameters
  (`OcrPreview.Patterns`), so only their precedence is proved. The digit
  patterns are modelled character by character.
- `Strings.Lower`: `toLowerCase` is modelled for ASCII letters only.
- `Payments.CsvRow`: `toFixed(2)` is modelled on integer amounts only.
  `toLocaleString` and the Dashboard occupancy ratio (NaN while there are
  no properties) are not modelled.
- `Js.NumberOf`: `Number(s)` is modelled for optionally signed decimal
  integers. Fractions, exponents and hexadecimal give NaN in the model.
- `Js.StrField`: a JSON field holding a non-string value, such as a number
  in `name`, is read as missing. `OcrPreview.Extract`, `Auth.DecodeUser`
  and `ApiClient.ErrorMessage` are then weaker than the source there.
- `Js.TemplateText`: a missing value is written "undefined". A `null`,
  which the template literal writes "null", is not distinguished from a
  missing value.
- `Onboarding.OcrData`: the scanned rent is an integer. A fractional or
  non-numeric `rentAmount`, which `toString()` would also write, is not
  modelled.
- `AddProperty.SubmitCheck`: the price is an integer. `Number(...)` giving NaN
  or a fraction is not modelled; in the source a NaN price passes the
  `<= 0` test.
- `Payments.Status`: the payment statuses are the lower-case ones the
  payments page compares against. An upper-case "PAID", which
  `Tenants.StatusColor` also handles, is not a `Payments.Status`.
- `Seqs.Filter`: the filter contracts state an order-preserving
  subsequence and membership. That each kept element keeps its
  multiplicity follows from the definition but is not stated.
- `Auth.DecodeUser` parses only the member order and layout that
  `JSON.stringify` writes. Other valid JSON that a person typed into
  storage is treated as unparseable.
- `App.Resolve`: React Router's case-insensitive matching and its trailing
  slashes are not modelled. Paths match exactly.
- The onboarding `handleSubmit` (`src/pages/Onboarding.tsx:144-180`) only
  forwards the form to the server; it is not modelled.
- The tenants page's fetch of a selected tenant's payment history
  (`src/pages/Tenants.tsx:57-67`) and the selection itself are not
  modelled.
- Toast texts of the payments fetch, the OCR failure and the onboarding
  upload are not modelled.
- The OCR page's confirm button, which navigates to onboarding with the
  form, is not modelled. The onboarding side of that hand-off is
  `Onboarding.Wizard.PrefillFromOcr`.
- `UploadCard.UploadWidget.Remove` requires no upload in flight, as the
  disabled button ensures. The drop zone, by contrast, is not disabled
  during an upload, and `Drop` models that.
- Presentation-only files are not modelled: layouts, headers, cards,
  buttons, toasts, the search context, the Dashboard and Settings mock
  pages, Lease, TenantPayments, PropertyDetail, Upload and the
  login-related forms.
