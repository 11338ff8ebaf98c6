# Multi-tenant booking site client: a Dafny model

This project models the client-side logic of a multi-tenant booking and lead-capture web
application. The application is a React client of a hosted Supabase backend. Each stored-data
operation is a single remote query or RPC. The logic that decides anything lives in the pages,
components and context providers. The model covers that logic:

- **Status workflows.** Bookings move pending → confirmed/cancelled and confirmed → completed.
  Leads move freely among five statuses. Both pages colour status badges through a map.
- **List filtering.** The public catalog has a case-insensitive search plus a category
  selection. The super-admin tenant list has a search over name, slug and domain.
- **Dashboard aggregates.** The tenant admin dashboard counts items, bookings, leads and
  pending bookings. The super-admin dashboard counts tenants and active tenants and sums users.
- **Sidebar highlighting.** The root entry is active on an exact path match. Every other
  entry is active on a string-prefix match.
- **Routing and guards.** The route table, `ProtectedRoute` and `SuperAdminRoute`.
- **Providers.** The tenant provider (loading / error / tenant) and the Supabase auth provider
  (session / user / loading, the mounted flag and the subscription).
- **Editors and forms.** The tenant editor's load and save sequence, the catalog's
  delete-confirmation dialog, and the booking, contact and login forms.

Remote calls are inputs of type `Common.Call<T>`, which either returns a value or throws a
`Failure`. Toasts and navigation targets are returned as values. An `async` handler that shows
a busy flag while it waits is split at its `await` into two step methods: one for the part
before the wait and one for the part after it. A page's state is a `class` whose fields are
the component's `useState` variables.

Two behaviours of the code are pinned down as they are written:

- `SuperAdminRoute` reads `roles.isSuperAdmin`, but the auth context never supplies `roles`.
  With a signed-in user that read throws, so no `/superadmin` page is ever shown
  (`App.SuperAdminPagesNeverShown`).
- `signIn` resolves with `{ error }` instead of throwing. The login page therefore welcomes
  the user and navigates to `/admin` even after a rejected password
  (`Login.SignInOutcome`, `Login.WrongPasswordBouncesBack`).

## Model

| member | source | states |
|---|---|---|
| Statuses.ParseBookingStatus | src/lib/constants.js:20-25 | a recognised stored booking status reads back to the enumeration value whose stored text it is |
| Statuses.BookingStatusRoundTrip | src/lib/constants.js:20-25 | every booking status survives writing and reading its stored text |
| Statuses.ParseLeadStatus | src/lib/constants.js:27-33 | a recognised stored lead status reads back to the value whose stored text it is |
| Statuses.LeadStatusRoundTrip | src/lib/constants.js:27-33 | every lead status survives writing and reading its stored text |
| Statuses.CatalogItemStatusName | src/lib/constants.js:35-39 | item statuses are stored as 'active', 'inactive' or 'archived' |
| Statuses.CatalogItemTypeName | src/lib/constants.js:41-46 | item types are stored as 'service', 'product', 'membership' or 'event' |
| Statuses.CatalogItemNamesInjective | src/lib/constants.js:35-46 | different item statuses and different item types have different stored texts |
| AdminBookings.OfferedTransitions | src/pages/AdminBookings.jsx:145-173 | a status is offered a target exactly when it is a known status with a workflow step to that target; no target is offered twice |
| AdminBookings.Step | src/pages/AdminBookings.jsx:146-172 | the workflow: every step changes the status, none returns to pending, and only pending and confirmed bookings can move |
| AdminBookings.OfferedFromPendingAndConfirmed | src/pages/AdminBookings.jsx:146-172 | pending gets exactly confirm then cancel; confirmed gets exactly complete |
| AdminBookings.TerminalStatuses | src/pages/AdminBookings.jsx:145-173 | cancelled, completed and unrecognised statuses get no transition |
| AdminBookings.NeverBackToPending | src/pages/AdminBookings.jsx:146-172 | no offered transition leads to pending |
| AdminBookings.RunsAreShort | src/pages/AdminBookings.jsx:146-172 | any chain of offered transitions climbs the workflow, so a booking changes status at most twice |
| AdminBookings.StatusColor | src/pages/AdminBookings.jsx:59-67 | the badge is grey exactly for statuses outside the four known ones |
| AdminBookings.StatusColorsDistinct | src/pages/AdminBookings.jsx:59-67 | the four known statuses get four different colours |
| AdminBookings.BookingsPage.constructor | src/pages/AdminBookings.jsx:15-16 | the page starts with no bookings and the spinner on |
| AdminBookings.BookingsPage.LoadBookings | src/pages/AdminBookings.jsx:22-39 | without a tenant nothing changes, `loading` included; otherwise a fetched list replaces the bookings, a failure keeps them and toasts, and `loading` ends false |
| AdminBookings.BookingsPage.HandleStatusChange | src/pages/AdminBookings.jsx:41-57 | the update names the booking and the new status; after a successful update the list is reloaded and the toasts are 'Estado actualizado' followed by the reload error if the reload fails; on failure the list and `loading` are unchanged and only the error toast shows |
| AdminLeads.OfferedTargets | src/pages/AdminLeads.jsx:145-155 | whatever the current status, the selector offers all five statuses, each once |
| AdminLeads.AnyToAny | src/pages/AdminLeads.jsx:145-155 | any lead can be moved to any status, and the options do not depend on the current status |
| AdminLeads.StatusColor | src/pages/AdminLeads.jsx:59-68 | the badge is grey exactly for statuses outside the five known ones |
| AdminLeads.StatusColorsDistinct | src/pages/AdminLeads.jsx:59-68 | the five known statuses get five different colours |
| AdminLeads.LeadsPage.constructor | src/pages/AdminLeads.jsx:15-16 | the page starts with no leads and the spinner on |
| AdminLeads.LeadsPage.LoadLeads | src/pages/AdminLeads.jsx:22-39 | without a tenant nothing changes; otherwise a fetched list replaces the leads, a failure keeps them and toasts, and `loading` ends false |
| AdminLeads.LeadsPage.HandleStatusChange | src/pages/AdminLeads.jsx:41-57 | the update names the lead and the new status; after a successful update the list is reloaded and the toasts are 'Estado actualizado' followed by the reload error if the reload fails; on failure the list and `loading` are unchanged and only the error toast shows |
| Common.Filter | src/pages/Catalog.jsx:42 | `Array.prototype.filter`: the result keeps exactly the elements that pass, and is no longer than the input |
| Common.Count | src/pages/AdminDashboard.jsx:39 | `s.filter(p).length` is the number of positions whose element passes `p` |
| Common.FilterIsSubsequence | src/pages/Catalog.jsx:42 | a filtered list is an order-preserving sub-list of its input |
| Common.IncludesIffOccurs | src/pages/Catalog.jsx:43-44 | `includes` holds exactly when the needle occurs at some position of the haystack |
| Common.Lower | src/pages/Catalog.jsx:43-44 | `toLowerCase` on ASCII: the length is kept, each capital becomes its small letter, every other character is kept, and the result holds no capital |
| Catalog.FilteredItems | src/pages/Catalog.jsx:42-50 | the result is an order-preserving sub-list of the items that keeps every copy of an item passing both the search and the category test and no copy of any other |
| Catalog.MatchesSearch | src/pages/Catalog.jsx:43-44 | the search test of one item; the empty term passes every item |
| Catalog.MatchesCategory | src/pages/Catalog.jsx:46-47 | an item passes the category test exactly for the 'all' selection or when the selected id is among its joined categories |
| Catalog.SearchMeaning | src/pages/Catalog.jsx:43-44 | the search test passes exactly when the lower-cased term occurs in the lower-cased name, or in a present lower-cased description |
| Catalog.NoCategoriesOnlyAll | src/pages/Catalog.jsx:46-47 | an item without joined categories passes only the 'all' selection |
| Catalog.CaseInsensitive | src/pages/Catalog.jsx:43-44 | terms that differ only in letter case give the same result |
| Catalog.LoweredTermSame | src/pages/Catalog.jsx:43-44 | searching with the lower-cased term selects the same items as the term as typed |
| Catalog.EmptySearchKeepsAll | src/pages/Catalog.jsx:42-50 | term '' with category 'all' returns the input unchanged |
| SuperAdminTenants.FilteredTenants | src/pages/SuperAdminTenants.jsx:44-48 | an order-preserving sub-list that keeps every copy of a tenant whose lower-cased name, slug or present domain contains the lower-cased term, and no copy of any other |
| SuperAdminTenants.MatchesSearch | src/pages/SuperAdminTenants.jsx:45-47 | the search test of one tenant; the empty term passes every tenant |
| SuperAdminTenants.EmptyTermKeepsAll | src/pages/SuperAdminTenants.jsx:44-48 | the empty term keeps every tenant, in order |
| SuperAdminTenants.NoDomainMatchesByNameOrSlug | src/pages/SuperAdminTenants.jsx:47 | a tenant without a domain matches only through its name or slug |
| SuperAdminTenants.CaseInsensitive | src/pages/SuperAdminTenants.jsx:44-48 | the letter case of the term does not change the result |
| SuperAdminTenants.StatusLabel | src/pages/SuperAdminTenants.jsx:142-147 | 'Activo' exactly for active tenants, 'Inactivo' exactly for the others |
| SuperAdminTenants.IndustryLabel | src/pages/SuperAdminTenants.jsx:139 | never blank; a missing or empty industry shows as '-', any other shows as itself |
| AdminDashboard.ComputeStats | src/pages/AdminDashboard.jsx:35-40 | the three totals are the list lengths; the pending counter is the number of positions holding a booking with status 'pending', so it is ≤ total bookings, equal to it exactly when every booking is pending, and zero exactly when none is |
| AdminDashboard.PendingCountsRows | src/pages/AdminDashboard.jsx:39 | the rows counted as pending are every occurrence of a pending booking and nothing else |
| AdminDashboard.DashboardPage.LoadStats | src/pages/AdminDashboard.jsx:24-46 | without a tenant nothing changes; a successful fetch sets the counters from the lists; a failure keeps the previous counters (zero at first); pending ≤ total is kept |
| AdminDashboard.DashboardPage.constructor | src/pages/AdminDashboard.jsx:12-18 | the spinner is on and all four counters start at zero |
| SuperAdminDashboard.TotalUsersIsSum | src/pages/SuperAdminDashboard.jsx:29 | the left fold over tenants equals the sum of every tenant's first user count, a missing count adding 0 |
| SuperAdminDashboard.TotalUsersAppend | src/pages/SuperAdminDashboard.jsx:29 | the user total of two concatenated lists is the sum of their totals |
| SuperAdminDashboard.ComputeStats | src/pages/SuperAdminDashboard.jsx:26-30 | the tenant count is the list length; the active count is the number of positions holding an active tenant, ≤ total with equality exactly when every tenant is active; the user total is the sum of every tenant's first user count; the empty list gives all zeros |
| SuperAdminDashboard.TotalUsers | src/pages/SuperAdminDashboard.jsx:29 | the `reduce` over the tenants: no tenant's user count exceeds the total, and no tenants total zero |
| SuperAdminDashboard.StatCards | src/pages/SuperAdminDashboard.jsx:38-43 | four cards under four different titles, showing the tenant count, the active count, the user total and again the active count |
| SuperAdminDashboard.ConnectedDomainsShowsActive | src/pages/SuperAdminDashboard.jsx:40-42 | the 'Dominios Conectados' card shows the active-tenant count |
| SuperAdminDashboard.CardsOfFetch | src/pages/SuperAdminDashboard.jsx:26-43 | after a fetch the first card shows the number of tenants, the second never exceeds it, and the third is the sum of every tenant's user count |
| SuperAdminDashboard.DashboardPage.constructor | src/pages/SuperAdminDashboard.jsx:10-15 | the spinner is on and the three counters start at zero |
| SuperAdminDashboard.DashboardPage.LoadDashboardData | src/pages/SuperAdminDashboard.jsx:21-36 | a fetched list sets the counters, a failure keeps them, `loading` ends false, and active ≤ total is kept |
| AdminSidebar.RootOnlyOnItsOwnPath | src/components/AdminSidebar.jsx:18-21 | the '/admin' entry is active exactly on '/admin', not on its sub-pages |
| AdminSidebar.IsActive | src/components/AdminSidebar.jsx:18-23 | `isActive`: the '/admin' entry exactly on '/admin'; every other entry exactly when the location starts with its path |
| AdminSidebar.SubpagesStayActive | src/components/AdminSidebar.jsx:22 | an active non-root entry stays active when the location is extended |
| AdminSidebar.AtMostOneActive | src/components/AdminSidebar.jsx:11-23 | for any location, no two of the four entries are active together |
| AdminSidebar.OwnPageHighlightsOwnLink | src/components/AdminSidebar.jsx:11-23 | on each entry's own path exactly that entry is active |
| SuperAdminSidebar.RootOnlyOnItsOwnPath | src/components/SuperAdminSidebar.jsx:18-21 | '/superadmin' is active exactly on an exact match |
| SuperAdminSidebar.IsActive | src/components/SuperAdminSidebar.jsx:18-23 | `isActive`: the '/superadmin' entry exactly on '/superadmin'; every other entry exactly when the location starts with its path |
| SuperAdminSidebar.SubpagesActiveExactly | src/components/SuperAdminSidebar.jsx:22 | the tenants and users entries are active exactly on locations that start with their path |
| SuperAdminSidebar.AtMostOneActive | src/components/SuperAdminSidebar.jsx:11-23 | for any location, no two of the three entries are active together |
| SuperAdminSidebar.TenantPagesHighlightTenants | src/components/SuperAdminSidebar.jsx:11-23 | every tenant detail location, '/superadmin/tenants/new' included, activates Tenants and nothing else |
| SuperAdminSidebar.PrefixIsTextual | src/components/SuperAdminSidebar.jsx:22 | the prefix test is on characters: '/superadmin/tenantsX' also activates Tenants |
| App.FindRoute | src/App.jsx:63-132 | returns the first declared route matching the location, or none exactly when no route matches |
| App.RoutesDisjoint | src/App.jsx:63-129 | no location matches two declared routes |
| App.MatchIsFound | src/App.jsx:63-132 | whichever declared route a location matches is the one the router picks |
| App.ProtectedRoute | src/App.jsx:22-38 | spinner exactly while loading; when loaded, a redirect to '/login' exactly without a user and the page exactly with one; never a failure |
| App.SuperAdminRoute | src/App.jsx:40-56 | spinner while loading; redirect to '/' without a user or for a non-super-admin; the page only for a super admin; a failure when a user is present and `roles` is absent |
| App.Element | src/App.jsx:64-129 | an open route always shows its page; a `ProtectedRoute` page shows exactly when loaded with a user; a `SuperAdminRoute` page, given no `roles`, never shows and fails once a user is loaded |
| App.Navigate | src/App.jsx:63-132 | a location that matches no route redirects to '/'; whichever route it matches, it renders that route's guarded element, whatever the ranking |
| App.GuardByFirstSegment | src/App.jsx:64-129 | the /admin routes are exactly those under `ProtectedRoute`, the /superadmin routes exactly those under `SuperAdminRoute` |
| App.MatchedGuard | src/App.jsx:64-129 | at a matched location, the first segment decides the guard |
| App.AdminPagesNeedUser | src/App.jsx:22-103 | an /admin page is shown only once loaded and with a user |
| App.SuperAdminPagesNeverShown | src/App.jsx:40-129 | no /superadmin location shows its page; with a user and a matched route it fails |
| App.SuperAdminGuardWithRoles | src/App.jsx:51-55 | with `roles` supplied, a super admin would pass and anyone else would be redirected home |
| App.PublicPagesAlwaysShown | src/App.jsx:65-69 | public routes render whatever the session |
| App.UsersLinkRedirectsHome | src/App.jsx:130-132 | '/superadmin/users' has no route and redirects to '/' |
| App.TenantDetailRoute | src/App.jsx:122-129 | every non-empty id under '/superadmin/tenants/', 'new' included, reaches the tenant detail route |
| TenantContext.TenantProvider.BeginLoad | src/contexts/TenantContext.jsx:20-23 | starting a load sets `loading`, clears `error` and keeps the tenant |
| TenantContext.TenantProvider.FinishLoad | src/contexts/TenantContext.jsx:24-34 | success stores the tenant with no error; failure clears the tenant and sets the message or 'Failed to load tenant'; `loading` ends false; tenant and error are never both set |
| TenantContext.TenantProvider.constructor | src/contexts/TenantContext.jsx:16-18 | no tenant, no error, and the spinner on |
| TenantContext.TenantProvider.Render | src/contexts/TenantContext.jsx:42-80 | spinner exactly while loading; the error screen exactly for a set error; otherwise the children get the tenant with no error |
| TenantContext.TenantProvider.ProvidesOnlyLoadedTenant | src/contexts/TenantContext.jsx:42-80 | after any load the children only ever receive a present tenant |
| TenantContext.UseTenant | src/contexts/TenantContext.jsx:7-13 | returns the provided value, and throws 'useTenant must be used within TenantProvider' outside a provider |
| SupabaseAuth.UserOf | src/contexts/SupabaseAuthContext.jsx:27 | `session?.user ?? null`: with a session it is that session's user, without one there is none |
| SupabaseAuth.AuthProvider.constructor | src/contexts/SupabaseAuthContext.jsx:18-20 | no user, no session, `loading` true |
| SupabaseAuth.AuthProvider.HandleSession | src/contexts/SupabaseAuthContext.jsx:25-29 | sets the session, the session's user and `loading` false |
| SupabaseAuth.AuthProvider.Value | src/contexts/SupabaseAuthContext.jsx:124-134 | the context exposes the user, session and loading flag, and in every reachable state the exposed user is the exposed session's user |
| SupabaseAuth.AuthProvider.Mount | src/contexts/SupabaseAuthContext.jsx:34-58 | marks the provider mounted and subscribed |
| SupabaseAuth.AuthProvider.Unmount | src/contexts/SupabaseAuthContext.jsx:60-63 | clears the mounted flag and unsubscribes, leaving the session state alone |
| SupabaseAuth.AuthProvider.OnSessionFetched | src/contexts/SupabaseAuthContext.jsx:37-50 | while mounted, a fetched session is handled and a failure signs out and stops loading; after unmount nothing changes |
| SupabaseAuth.AuthProvider.OnAuthStateChange | src/contexts/SupabaseAuthContext.jsx:54-58 | while subscribed, each event is handled; after unsubscribing nothing changes |
| SupabaseAuth.RunAction | src/contexts/SupabaseAuthContext.jsx:69-122 | an auth error does not throw: the action resolves with that error, with a toast exactly when it is set, titled per action and described by the error's message when it has one and by 'Something went wrong' otherwise; only a thrown client call rejects |
| SupabaseAuth.FailureTitle | src/contexts/SupabaseAuthContext.jsx:69-122 | the three failure titles |
| SupabaseAuth.ActionTitlesDistinct | src/contexts/SupabaseAuthContext.jsx:69-122 | the three failure toasts have different titles |
| SupabaseAuth.UseSupabaseAuth | src/contexts/SupabaseAuthContext.jsx:139-147 | returns the provider's value, and throws outside a provider |
| TenantDetail.Features.With | src/pages/SuperAdminTenantDetail.jsx:220-244 | a toggle sets one flag and leaves the other four unchanged |
| TenantDetail.ToggleBack | src/pages/SuperAdminTenantDetail.jsx:220-244 | toggling a flag and restoring its value gives back the original flags |
| TenantDetail.TenantForm.With | src/pages/SuperAdminTenantDetail.jsx:163-205 | an input sets one form field and leaves the others unchanged |
| TenantDetail.Prefill | src/pages/SuperAdminTenantDetail.jsx:65-71 | name and slug are copied; a missing domain, description or industry becomes '' |
| TenantDetail.FeaturesFrom | src/pages/SuperAdminTenantDetail.jsx:73-80 | each flag is on exactly when the stored value is true |
| TenantDetail.LoadedFeatures | src/pages/SuperAdminTenantDetail.jsx:72-81 | the first `tenant_features` row gives the flags; without one the flags stay as they were |
| TenantDetail.NullRowAllOff | src/pages/SuperAdminTenantDetail.jsx:73-80 | a row of null flags switches everything off |
| TenantDetail.SaveErrorToast | src/pages/SuperAdminTenantDetail.jsx:118-122 | the save error toast is destructive, titled 'Error', and described by the error's message when it has one and by 'Error al guardar' otherwise |
| TenantDetail.TenantEditor.constructor | src/pages/SuperAdminTenantDetail.jsx:34-50 | no tenant, loading, not saving, empty form, all features off |
| TenantDetail.TenantEditor.Mount | src/pages/SuperAdminTenantDetail.jsx:52-92 | for 'new' nothing is fetched and `loading` ends false; otherwise the fetched tenant prefills form and flags, and a failure toasts and navigates to '/superadmin/tenants' |
| TenantDetail.TenantEditor.ToggleFeature | src/pages/SuperAdminTenantDetail.jsx:220-244 | changes that one flag and nothing else |
| TenantDetail.TenantEditor.EditField | src/pages/SuperAdminTenantDetail.jsx:163-205 | changes that one field and nothing else |
| TenantDetail.TenantEditor.BeginSave | src/pages/SuperAdminTenantDetail.jsx:94-104 | ignored while saving; otherwise `saving` is set, the form and flags are captured, and a create ('new') or an update of the route id is issued |
| TenantDetail.TenantEditor.OnTenantWritten | src/pages/SuperAdminTenantDetail.jsx:99-125 | after a successful write the captured flags are written under the created id or the route id; after a failure the save ends with the error toast and no feature write |
| TenantDetail.TenantEditor.OnFeaturesWritten | src/pages/SuperAdminTenantDetail.jsx:106-125 | `saving` ends false in every case; success toasts and, for 'new' only, navigates to the created tenant |
| TenantDetail.TenantEditor.HandleSave | src/pages/SuperAdminTenantDetail.jsx:94-126 | the three steps run in order issue exactly the writes, toast and navigation of `Save` |
| TenantDetail.Save | src/pages/SuperAdminTenantDetail.jsx:94-126 | the first write is a create for 'new' and an update otherwise; the feature write happens exactly when the tenant write succeeded; only 'new' with both writes successful navigates; the saved toast exactly when both succeed; a successful create followed by a successful feature write navigates to the created tenant's page |
| TenantDetail.FeaturesFollowTenantWrite | src/pages/SuperAdminTenantDetail.jsx:97-106 | the features are written under the created tenant's id for 'new' and under the route id otherwise |
| TenantDetail.CreateThenFeatureFailureStays | src/pages/SuperAdminTenantDetail.jsx:99-122 | a create followed by a failed feature write does not navigate, so the page stays in create mode |
| AdminCatalog.CatalogAdminPage.LoadItems | src/pages/AdminCatalog.jsx:23-40 | without a tenant nothing changes; a fetched list replaces the items, a failure keeps them and toasts; the pending id is untouched |
| AdminCatalog.CatalogAdminPage.AskDelete | src/pages/AdminCatalog.jsx:166 | the trash button only records the id; nothing is deleted |
| AdminCatalog.CatalogAdminPage.CancelDelete | src/pages/AdminCatalog.jsx:195 | Cancel clears the pending id and deletes nothing |
| AdminCatalog.CatalogAdminPage.ConfirmDelete | src/pages/AdminCatalog.jsx:42-59 | deletes exactly the pending id; success clears it and reloads; failure keeps it, the dialog and the list |
| AdminCatalog.CatalogAdminPage.DialogShown | src/pages/AdminCatalog.jsx:183 | the confirmation dialog is shown only for a recorded, non-empty pending id |
| AdminCatalog.CatalogAdminPage.constructor | src/pages/AdminCatalog.jsx:15-17 | no items, the spinner on, and no pending deletion |
| AdminCatalog.StatusBadgeTone | src/pages/AdminCatalog.jsx:142-147 | the item status badge is green exactly for the stored text 'active' and grey otherwise |
| AdminCatalog.OnlyActiveIsGreen | src/pages/AdminCatalog.jsx:142-147 | of the three item statuses only the active one is shown green |
| BookingForm.FormData.With | src/components/BookingForm.jsx:21-23 | an input sets the named field and leaves the other six unchanged |
| BookingForm.SubmittableMeaning | src/components/BookingForm.jsx:80-165 | the form submits exactly when name, email, date, start and end are filled; phone and notes may be empty |
| BookingForm.EmptyFormBlocked | src/components/BookingForm.jsx:11-19 | the fresh form cannot be submitted |
| Records.RpcFailureMessage | src/components/BookingForm.jsx:50-59 | the error toast of both public forms: a rejected result shows its non-empty `error`, else the form's fallback ('Error al crear la reserva' here, 'Error al enviar el mensaje' in the contact form); a thrown error shows its message when it has one and the form's retry text otherwise; never blank when the fallbacks are not |
| BookingForm.Form.HandleChange | src/components/BookingForm.jsx:21-23 | changes the named field only |
| BookingForm.Form.BeginSubmit | src/components/BookingForm.jsx:25-33 | a request exactly when not loading and submittable; it carries every field and the item's id, and `loading` is set |
| BookingForm.Form.OnSubmitSettled | src/components/BookingForm.jsx:35-62 | success clears all seven fields and calls `onSuccess` once if given; a failure keeps the fields and shows the message; `loading` ends false |
| BookingForm.Form.constructor | src/components/BookingForm.jsx:10-19 | all seven fields empty, not loading, and `onSuccess` not yet called |
| ContactForm.FormData.With | src/components/ContactForm.jsx:18-20 | an input sets the named field only |
| ContactForm.SubmittableMeaning | src/components/ContactForm.jsx:73-125 | the form submits exactly when name, email and message are filled; phone may be empty |
| ContactForm.Form.HandleChange | src/components/ContactForm.jsx:18-20 | changes the named field only |
| ContactForm.Form.BeginSubmit | src/components/ContactForm.jsx:22-30 | a request exactly when not loading and submittable; it carries the fields with source 'contact_form', and `loading` is set |
| ContactForm.Form.OnSubmitSettled | src/components/ContactForm.jsx:32-55 | success clears all four fields; a failure keeps them and shows the message; `loading` ends false |
| ContactForm.Form.constructor | src/components/ContactForm.jsx:10-16 | all four fields empty and not loading |
| Login.RedirectTarget | src/pages/Login.jsx:22-26 | navigates to '/admin' exactly when a user is present |
| Login.Credentials.With | src/pages/Login.jsx:28-30 | an input sets the named field only |
| Login.ThrownToast | src/pages/Login.jsx:43-49 | the authentication error toast is destructive, titled 'Error de autenticación', and described by the error's message when it has one and by the retry text otherwise |
| Login.SignInOutcome | src/pages/Login.jsx:36-49 | every resolved sign-in, with or without an error, ends with the welcome toast and navigation to '/admin'; only a thrown call shows the authentication error and stays |
| Login.WrongPasswordBouncesBack | src/pages/Login.jsx:37-42 | a rejected password still navigates to '/admin', where a signed-out session is redirected back to '/login' |
| Login.LoginPage.HandleChange | src/pages/Login.jsx:28-30 | changes the named field only |
| Login.LoginPage.BeginSubmit | src/pages/Login.jsx:32-37 | signs in with the current email and password exactly when not loading and both are filled, and sets `loading` |
| Login.LoginPage.OnSignInSettled | src/pages/Login.jsx:36-52 | produces the outcome of `SignInOutcome` and clears `loading` |
| Login.LoginPage.constructor | src/pages/Login.jsx:16-20 | both fields empty and not loading |

## Left out

- JSX markup, Tailwind classes, animation, page titles and icons are presentation only. The
  badge colours are modelled as a tone per status, not as class strings.
- The home, contact, product detail, footer, navbar and product card views only render
  fetched fields and are not modelled.
- The backend wrappers (`supabase.js`, `superadmin-api.js`) are not modelled. Each call is an
  input that returns a value or throws. The wrappers' own argument mapping, such as an empty
  domain stored as null, is not part of this model.
- Parallel fetches (`Promise.all`) are one call that yields every list or fails.
- The order and timing of auth events are not modelled beyond "each event is handled while
  subscribed". The provider state is modelled with one method per event.
- Price formatting with floating point, date and locale formatting, and the clock-based
  minimum booking date are not modelled.
- Lower-casing is ASCII-only. Unicode case folding is not modelled.
- Console logging is dropped. Toasts and navigation are modelled as returned values.
- A status-colour lookup of an inherited object key such as 'constructor' is treated as an
  unknown status.
- Locations are modelled as segment lists. Splitting URL strings, trailing slashes,
  case-insensitive matching and the router's ranking are not modelled. The ranking does not
  matter here because no location matches two routes (`App.RoutesDisjoint`).
- App.SuperAdminRoute: `roles` is an explicit input. The auth context's value has no such
  member, so `App.Element` passes none.
- App.Navigate: it renders the route table as if the tenant provider had loaded a tenant.
  Every route sits inside `TenantProvider`, whose spinner or error screen
  (`TenantContext.TenantProvider.Render`) replaces all of them while it loads or after it
  fails, so `App.PublicPagesAlwaysShown` holds only once a tenant is provided.
- BookingForm.Form.BeginSubmit: the browser's email-format check and the minimum-date check
  are not modelled; only the `required` inputs block submission.
- ContactForm.Form.BeginSubmit: the browser's email-format check is not modelled.
- Login.LoginPage.BeginSubmit: the browser's email-format check is not modelled.
- BookingForm.Form.OnSubmitSettled: an RPC that resolves with `null` would throw a type
  error when `success` is read; the model's reply always carries a result.
- ContactForm.Form.OnSubmitSettled: likewise, an RPC that resolves with `null` would throw
  when `result.success` is read; the model's reply always carries a result.
- TenantDetail.TenantEditor.Mount: a tenant whose `tenant_features` value is not an array is
  treated as having no row.
- React's double-invoked effects in development mode are not modelled.
