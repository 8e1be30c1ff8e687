# Admin panel core, modelled in Dafny

This project models the logic of a React admin panel for a services
marketplace. The panel has customers, vendors, bookings, subscription plans
and admin accounts. The model covers:

- **Client session.** `localStorage` is a `map<string, string>` held by a
  `Browser.Window` object, next to `window.location.href`. Several code paths
  clear it, and each removes a different set of keys:
  - `authApi.logout` removes `token`, `admin` and `user`;
  - the axios 401 handler removes `token` and `user`;
  - the sidebar logout removes only `token`.

  The stored admin is written as JSON-shaped text by an encoder, and a decoder
  inverts it.
- **Auth state.** The `AuthProvider` (`user`, `loading`) with hydration,
  `login`, `logout` and `useAuth`; the login page's handler; and the axios
  request and response interceptors.
- **Access decisions.** The static route table, the super-admin gate of the
  admin management page, and the sidebar's role-dependent link.
- **API envelopes and query strings.** The envelope every API function returns
  (`{ success, data }` or `{ success: false, error }`). The query string built
  by successive conditional `URLSearchParams.append` calls. The one-level
  `data` unwrap of the customer list.
- **Record mappers.** The `models` module.
- **Page logic.** The list, form and handler logic of the customers, vendors,
  bookings, admin management, plans and subscriptions pages.

**JavaScript values.** These are a `Js.JsValue` datatype, and objects are maps.
Truthiness, `||`, `?.`, `String()` and `Array.prototype.join` are modelled
exactly, on integer numbers.

**Stateful code.** Code that changes state is written as classes whose methods
modify their fields:

- the storage window and `URLSearchParams`;
- the auth provider and the pages' `useState` variables.

Each handler is one sequential method. It takes as parameters the answers of
the API calls it awaits and the answer of `window.confirm`; the calls it makes
are returned as values. The login page's handler is split at its `await` into
`StartLogin` and `FinishLogin`.

**Behaviour worth noting:**

- **Hydration.** A stored admin that is not valid JSON makes `JSON.parse`
  throw inside the hydrate effect, before `setLoading(false)`. `loading` then
  stays `true`, which `AuthContext.AuthProvider.Hydrate` states.
- **Sidebar.** The sidebar parses `localStorage.getItem("admin")` without the
  emptiness check `getAdmin` makes. An empty entry therefore throws there,
  while `getAdmin` reads it as `null` (`AppSidebar.StoredAdmin`).
- **Vendor page filters.** The page passes its filters as
  `{ categoryFilter, statusFilter }`, but `vendorApi.getAll` reads `category`
  and `status`. The request therefore never carries a query
  (`VendorApi.PageFiltersIgnored`), and the page filters on the client.
- **"View More".** After a filter change the customer list is cut to ten
  entries and `total` is set to its length. The "View More" button needs
  `total > 10`, so it can appear only when that fetch failed and an earlier
  uncut list was longer. `CustomerPage.CustomersPage.SelectFilters` states
  this.
- **Feature round trip.** Editing a plan and submitting it gives back its
  feature list only when the list is non-empty and each feature is a string
  without commas and without white space at either end
  (`PlanForms.FeaturesRoundTrip`, `AdminPlans.EditThenSubmit`). A feature
  with a comma comes back split in two, surrounding white space is trimmed
  away, and an empty list is edited as the empty field, which is submitted
  as `[""]` (`PlanForms.EmptyFeaturesRoundTrip`).
- **Admin status toggle.** `handleToggleStatus` calls
  `adminApi.toggleStatus`, which `adminApi` does not define. Only the status
  it computes is modelled (`AdminManagement.NewStatus`).

## Model

| member | source | states |
|---|---|---|
| AdminCodec.DecodeEncode | src/context/AuthContext.jsx:30 | a stored admin profile decodes to exactly the profile that was encoded |
| AdminCodec.EncodeDecode | src/api/authApi.js:48-51 | every text that decodes is the encoding of its result, so decoding never merges different texts |
| AdminCodec.EncodeInjective | src/context/AuthContext.jsx:30 | different profiles are stored as different texts |
| Http.SettleCases | src/api/authApi.js:8-27 | a response gives `success` with the body unchanged; an error gives the backend `message` when it is truthy, else the transport message |
| Http.NetworkErrorText | src/api/customerApi.js:25-27 | an error without a response reports the transport message |
| Http.ErrorTextTruthy | src/api/vendorApi.js:19-21 | the error text is truthy exactly when the backend message or the transport message is |
| Http.SerializeEmpty | src/api/customerApi.js:16-17 | the query string is empty exactly when no parameter was appended |
| Http.AppendedParamsSpec | src/api/customerApi.js:10-14 | the parameters are the filter keys whose values are truthy, in key order, each with `String(value)`; a parameter is present iff its key is listed and truthy |
| Http.SearchParams.Append | src/api/customerApi.js:11 | `append` adds one parameter at the end and changes nothing else |
| Http.AppendIfTruthy | src/api/customerApi.js:11-14 | one conditional append extends the parameter list exactly as the specification of the whole sequence prescribes for one more key |
| Http.AppendedParamsSnoc | src/api/customerApi.js:11-14 | one more key appends its parameter at the end when its value is truthy, and nothing otherwise |
| Http.UrlShape | src/api/customerApi.js:16-17 | the URL is the bare path when no parameter was added, else path, `?` and the query |
| AuthApi.Cleared | src/api/authApi.js:32-36 | logout's storage has no `token`, `admin` or `user` and keeps every other key and value |
| AuthApi.LoginRequest | src/api/authApi.js:10 | `login` posts `{ email, password }` to `/api/admin/login` |
| AuthApi.RegisterRequest | src/api/authApi.js:22 | `register` posts the admin data unchanged to `/api/admin/register` |
| AuthApi.ClearedIdempotent | src/api/authApi.js:32-36 | logging out twice leaves the same storage as logging out once |
| AuthApi.Logout | src/api/authApi.js:32-36 | the three removals leave exactly the cleared storage |
| AuthApi.GetToken | src/api/authApi.js:41-43 | the stored token, or none when the key is absent; storage is only read |
| AuthApi.GetAdmin | src/api/authApi.js:48-51 | no admin iff the entry is missing or empty; a parse failure iff a non-empty entry does not decode; otherwise the decoded profile, and the stored encoding of any profile reads back as that profile |
| AuthApi.IsAuthenticatedSpec | src/api/authApi.js:56-58 | authenticated iff a non-empty token is stored; writing or removing `admin` changes nothing |
| AuthApi.StoreSession | src/context/AuthContext.jsx:29-30 | a login writes `token` and `admin` and keeps every other key |
| AuthApi.EncodeNonEmpty | src/api/authApi.js:50 | an encoded admin is never empty, so `getAdmin` always parses it |
| AuthApi.StoreSessionReadBack | src/context/AuthContext.jsx:29-30 | after storing a session `getToken` returns its token, `getAdmin` its admin, and `isAuthenticated` holds iff the token is non-empty |
| AuthApi.LoggedOut | src/api/authApi.js:32-58 | after logout nobody is authenticated and there is no admin |
| AxiosInstance.AuthorizedHeaders | src/api/axiosInstance.js:15-20 | `Authorization` is `Bearer` and the token exactly when a non-empty token is stored; otherwise the headers are unchanged |
| AxiosInstance.OnRequest | src/api/axiosInstance.js:14-22 | the request interceptor returns the config with those headers and touches no storage |
| AxiosInstance.AfterUnauthorized | src/api/axiosInstance.js:34-37 | a 401 removes `token` and `user` and keeps every other key, `admin` included |
| AxiosInstance.OnResponse | src/api/axiosInstance.js:29-46 | responses and errors pass through unchanged; a 401 clears `token` and `user` and goes to `/login`; any other error changes neither storage nor location |
| AxiosInstance.UnauthorizedKeepsAdmin | src/api/axiosInstance.js:35-36 | after a 401 nobody is authenticated but the stored admin reads the same |
| AxiosInstance.UnauthorizedThenLogout | src/api/axiosInstance.js:34-36 | a 401 followed by logout leaves what logout alone leaves |
| AxiosInstance.BearerAfterLogin | src/api/axiosInstance.js:16-19 | after a login with a non-empty token every request carries that token |
| AxiosInstance.NoBearerAfterClearing | src/api/axiosInstance.js:16-20 | after logout or a 401 requests carry no `Authorization` header |
| AuthContext.HydrationOf | src/context/AuthContext.jsx:12-20 | the admin is restored iff a non-empty token and a readable admin are stored; an unreadable admin crashes the effect |
| AuthContext.UseAuth | src/context/AuthContext.jsx:55-60 | the hook throws exactly when there is no provider value, with the provider message, and otherwise returns the value |
| AuthContext.AuthProvider.constructor | src/context/AuthContext.jsx:8-9 | nobody signed in and `loading` true |
| AuthContext.AuthProvider.IsAuthenticated | src/context/AuthContext.jsx:48 | `isAuthenticated` is true exactly when an admin is signed in |
| AuthContext.AuthProvider.Hydrate | src/context/AuthContext.jsx:12-20 | a restored admin becomes `user`; otherwise `user` stays; `loading` ends false unless the effect crashed; afterwards `isAuthenticated` holds iff an admin was restored or someone was already signed in |
| AuthContext.AuthProvider.Login | src/context/AuthContext.jsx:22-37 | a success with a body stores the session and signs in the admin; anything else leaves storage and `user` alone and passes the error on; `isAuthenticated` afterwards holds iff the login succeeded or someone was already signed in |
| AuthContext.AuthProvider.Logout | src/context/AuthContext.jsx:39-42 | the storage is cleared as by `authApi.logout` and nobody is signed in |
| AuthContext.LoginThenReload | src/context/AuthContext.jsx:13-18 | a reload after login restores the same admin when the token is non-empty |
| AuthContext.LogoutThenReload | src/context/AuthContext.jsx:13-18 | a reload after logout restores nobody |
| AuthContext.UnauthorizedThenReload | src/context/AuthContext.jsx:13-18 | a reload after a 401 restores nobody, although the admin is still stored |
| LoginPage.Login.constructor | src/pages/Login.jsx:13-15 | empty email and password, not loading |
| LoginPage.Login.SetEmail | src/pages/Login.jsx:13 | the email input sets the email only |
| LoginPage.Login.SetPassword | src/pages/Login.jsx:14 | the password input sets the password only |
| LoginPage.Login.StartLogin | src/pages/Login.jsx:19-29 | an empty email or password makes no call and changes nothing; otherwise `loading` is set and the login request is sent |
| LoginPage.Login.FinishLogin | src/pages/Login.jsx:31-53 | a success stores token and encoded admin and goes to `/dashboard`; a body-less success is a server error; a failure reports its error; only a stored session changes storage; `loading` ends false |
| AppSidebar.NavTargets | src/components/AppSidebar.jsx:16-27 | one section of five links, Dashboard, Customers, Bookings, Subscriptions, Vendors, all to protected routes |
| AppSidebar.StoredAdmin | src/components/AppSidebar.jsx:44 | a missing entry parses as `null`, an empty one throws, any other reads as `getAdmin` reads it |
| AppSidebar.AdminSectionAfterLogin | src/components/AppSidebar.jsx:143 | after a login the admin link shows iff the admin's role is exactly `super-admin` |
| AppSidebar.OrDefault | src/components/AppSidebar.jsx:74-77 | a present non-empty value, else the fallback |
| AppSidebar.HeaderName | src/components/AppSidebar.jsx:74 | the stored admin's name when it is present and non-empty, `Administrator` in every other case |
| AppSidebar.HeaderRole | src/components/AppSidebar.jsx:77 | the stored admin's role when it is present and non-empty, `admin` in every other case |
| AppSidebar.NavClassesSpec | src/components/AppSidebar.jsx:33-39 | the classes start with the base set and differ between active and inactive links |
| AppSidebar.WithoutToken | src/components/AppSidebar.jsx:48 | the sidebar logout removes only `token` |
| AppSidebar.HandleLogout | src/components/AppSidebar.jsx:47-50 | storage loses `token` only, then the page goes to `/login` |
| AppSidebar.SidebarLogoutKeepsAdmin | src/components/AppSidebar.jsx:47-49 | afterwards nobody is authenticated and no reload restores anyone, but the stored admin still reads the same |
| Router.Lookup | src/router.jsx:19-37 | a path's page when the table lists it, none iff no entry has that path |
| Router.ResolveClasses | src/router.jsx:19-37 | every path is exactly one of public (`/`, `/login`, rendering Login), protected (the seven layout paths) or fallback (NotFound) |
| Router.SubscriptionUnreachable | src/router.jsx:19-37 | no path renders the Subscription page; `/subscription` and `/plans` both render AdminPlans |
| CustomerApi.BuildGetAllUrl | src/api/customerApi.js:10-17 | the step-by-step appends and URL choice build exactly the specified URL |
| CustomerApi.GetAllUrlSpec | src/api/customerApi.js:10-17 | parameters `status`, `pack`, `limit`, `page` in that order, each iff truthy; a bare path iff none is, else `?` and the query |
| CustomerApi.Unwrap | src/api/customerApi.js:22 | the inner `data` when it is truthy, else the whole body |
| CustomerApi.GetAll | src/api/customerApi.js:8-28 | success iff the request resolved, with the unwrapped body; otherwise the error text; never a throw |
| CustomerApi.UnwrapCases | src/api/customerApi.js:21-22 | a `{ data: [...], total }` body unwraps to the list, a bare list stays |
| CustomerApi.CustomerPaths | src/api/customerApi.js:33-64 | `getById`, `block` and `unblock` address the customer's path, the latter two with distinct suffixes and no body |
| VendorApi.BuildGetAllUrl | src/api/vendorApi.js:10-15 | the appends and URL choice build exactly the specified URL |
| VendorApi.GetAllUrlSpec | src/api/vendorApi.js:10-15 | `category` then `status`, each iff truthy; the bare path iff neither is |
| VendorApi.PageFiltersIgnored | src/api/vendorApi.js:11-12 | the filters the vendor page passes are never read, so no query is sent |
| VendorApi.ToggleBlockRequest | src/api/vendorApi.js:39-42 | a PATCH to the vendor's `/block` path with body `{ block }` |
| VendorApi.DeleteRequest | src/api/vendorApi.js:51-53 | a DELETE to the vendor's path |
| VendorApi.VendorPaths | src/api/vendorApi.js:27-53 | block extends the delete path; reading goes through `get/` |
| Models.MapUserToCustomer | src/models/index.js:95-107 | `_id`, `name`, `phone` copied, `customerId` from `user_id` |
| Models.CustomerEmail | src/models/index.js:100 | email copied when truthy, `''` otherwise (missing, empty, `null`, `false`) |
| Models.CustomerSubscription | src/models/index.js:102-104 | without a subscription: pack `''`, status `Pending`, expiry `''`; with one, each of the three is copied when truthy and takes that same default when falsy |
| Models.CustomerBlocked | src/models/index.js:105 | blocked iff the backend value is truthy, `false` otherwise |
| Models.SubscriptionFields | src/models/index.js:109-122 | the ten fields are copied unchanged and nothing else is read |
| Models.MapPlanResponse | src/models/index.js:124-136 | id, name, price, duration and type copied |
| Models.PlanDefaults | src/models/index.js:130-132 | missing or falsy features become `[]`, a list is copied; active unless explicitly `false` |
| Records.NarrowTwice | src/pages/Vendor.jsx:24-30 | the two conditional filters keep exactly the records passing both set filters, in order |
| CustomerPage.FetchedSpec | src/pages/Customer.jsx:22-32 | the filtered list is the customers passing both set filters, in order; the limited list is its first ten |
| CustomerPage.Displayed | src/pages/Customer.jsx:107-110 | the whole list when showing all, else its first ten entries |
| CustomerPage.ToggledBlockSpec | src/pages/Customer.jsx:93-97 | only entries whose `_id \|\| id` matches get `isBlocked` flipped, other fields, entries and the length kept |
| CustomerPage.PackOptionsSpec | src/pages/Customer.jsx:51-57 | each truthy pack of the listed customers once, in first-occurrence order |
| CustomerPage.CustomersPage.constructor | src/pages/Customer.jsx:7-12 | the initial state: empty list, no filters, not showing all |
| CustomerPage.CustomersPage.FetchCustomers | src/pages/Customer.jsx:15-44 | the request is the bare `/api/customers/getCustomers`, with no filter or limit; a success stores the list filtered on the page (and cut) with its length as `total`, at most ten when limited; a failure keeps both; `loading` ends false |
| CustomerPage.CustomersPage.SelectFilters | src/pages/Customer.jsx:46-49 | a filter change resets "show all" and fetches the limited list through the bare path; a success stores it with its length as `total`, a failure keeps both; "View More" can then show only after a failed fetch over an earlier longer list |
| CustomerPage.CustomersPage.ViewMore | src/pages/Customer.jsx:245-250 | "View More" shows all and hides itself, requesting the bare path; a success stores the uncut filtered list with its length as `total`, a failure keeps both |
| CustomerPage.CustomersPage.HandleToggleBlock | src/pages/Customer.jsx:82-105 | `unblock` for a blocked customer, `block` otherwise; the list is updated on success and kept on failure |
| VendorPage.CategoriesSpec | src/pages/Vendor.jsx:35 | the options are the categories of the unfiltered vendors, each once |
| VendorPage.BlockToggledSpec | src/pages/Vendor.jsx:56-66 | matching `_id` entries get `isBlocked` negated and status `blocked` or `approved`; other entries, fields and length kept |
| VendorPage.BlockThenUnblock | src/pages/Vendor.jsx:56-66 | blocking an approved vendor and unblocking it restores the list |
| VendorPage.DeletedSpec | src/pages/Vendor.jsx:80 | exactly the vendors with another `_id` remain, in order |
| VendorPage.BadgeLabel | src/pages/Vendor.jsx:96 | the status with its first character upper-cased, the rest kept |
| VendorPage.BadgeColorsSpec | src/pages/Vendor.jsx:85-90 | the four statuses the filter offers, and no other, have a colour |
| VendorPage.VendorsPage.constructor | src/pages/Vendor.jsx:9-13 | no filters, no vendors, no categories |
| VendorPage.VendorsPage.FetchVendors | src/pages/Vendor.jsx:16-41 | the request has no query; a success stores the filtered list and all categories; a failure changes nothing |
| VendorPage.VendorsPage.SelectFilters | src/pages/Vendor.jsx:19-44 | after a filter change a successful refetch stores exactly the fetched vendors passing the set filters, in order, and the categories of all fetched vendors; a failure keeps both |
| VendorPage.VendorsPage.HandleBlockToggle | src/pages/Vendor.jsx:47-68 | asks for the opposite state; applies it on success only |
| VendorPage.VendorsPage.HandleDeleteVendor | src/pages/Vendor.jsx:71-82 | deletes by id; removes the vendor on success only |
| BookingPage.ServiceName | src/pages/Booking.jsx:37 | nullish or an empty list give `—`, a list is joined with `, `; anything else throws; never blank |
| BookingPage.ServiceNameOfNames | src/pages/Booking.jsx:37 | a list of names is shown joined with `, ` |
| BookingPage.FormatAll | src/pages/Booking.jsx:31-40 | one row per booking, or a throw when any row throws |
| BookingPage.FormatRowSpec | src/pages/Booking.jsx:31-40 | ids and names copied, `status` from `bookingStatus`, `bookingDate` from `createdAt` |
| BookingPage.Stats | src/pages/Booking.jsx:44-47 | total is the row count; completed is the number of rows whose status is `completed`, at most the total, and equal to it iff every row is completed |
| BookingPage.CompletedCount | src/pages/Booking.jsx:46 | every row counts as completed exactly when each is |
| BookingPage.CompletedIsCount | src/pages/Booking.jsx:46 | the filtered count equals the number of rows whose status is `completed` |
| BookingPage.FilteredSpec | src/pages/Booking.jsx:57-67 | a row shows iff it matches the search and the status; no search and `all` show every row |
| BookingPage.TextMatchesSpec | src/pages/Booking.jsx:60-61 | a string matches iff the lower-cased term occurs at some position of the lower-cased text |
| BookingPage.TermCaseIgnored | src/pages/Booking.jsx:60-61 | lower-casing the search term changes no match |
| BookingPage.FoundByOwnName | src/pages/Booking.jsx:58-61 | searching for a row's own customer name finds it |
| BookingPage.BadgeConfigOf | src/pages/Booking.jsx:70 | an unknown status takes the default badge |
| BookingPage.BookingsPage.constructor | src/pages/Booking.jsx:13-20 | no rows, loading, empty search, status `all`, zero counters |
| BookingPage.BookingsPage.FetchBookings | src/pages/Booking.jsx:26-54 | one `bookingApi.getAll` call; when every booking formats, rows and counters are stored; otherwise nothing changes; the counters agree with the rows; `loading` ends false |
| BookingPage.BookingsPage.Shown | src/pages/Booking.jsx:57-67 | exactly the stored rows that pass the search and status |
| AdminManagement.GateOf | src/pages/AdminManagement.jsx:29-44 | a crash on an unreadable admin; login without token or admin; denial for other roles; granted for a super admin with a token |
| AdminManagement.GateNavigation | src/pages/AdminManagement.jsx:35-44 | `/login` for a missing session, `/dashboard` on denial, no navigation otherwise |
| AdminManagement.GateAgreement | src/pages/AdminManagement.jsx:62-67 | the admins are fetched iff access is granted, iff the sidebar shows its link to a signed-in admin |
| AdminManagement.GateAfterSessionChanges | src/pages/AdminManagement.jsx:35-36 | a freshly signed-in super admin is granted; after any sign-out path the page sends to `/login` |
| AdminManagement.FormBody | src/pages/AdminManagement.jsx:81 | the create request sends the four form fields |
| AdminManagement.NewStatus | src/pages/AdminManagement.jsx:105 | `disabled` iff the status is `active`, else `active` |
| AdminManagement.NewStatusSpec | src/pages/AdminManagement.jsx:105-241 | the toggle asks for what its label names; toggling twice swaps `active` and `disabled` back |
| AdminManagement.OwnRowRules | src/pages/AdminManagement.jsx:239-243 | one's own row has the toggle disabled and no delete; other rows have both |
| AdminManagement.AdminManagementPage.constructor | src/pages/AdminManagement.jsx:19-27 | no admins, not loading, the empty form with role `admin` |
| AdminManagement.AdminManagementPage.FetchAdmins | src/pages/AdminManagement.jsx:47-60 | a success stores the list or `[]`, a failure keeps it; `loading` ends false |
| AdminManagement.AdminManagementPage.HandleCreate | src/pages/AdminManagement.jsx:69-102 | an incomplete form makes no call; a success resets the form and refetches; a failure keeps the form |
| AdminManagement.AdminManagementPage.HandleDelete | src/pages/AdminManagement.jsx:122-139 | no call unless confirmed; a success refetches |
| PlanForms.Features | src/pages/AdminPlans.jsx:51 | at least one feature; an empty field gives `[""]` |
| PlanForms.FeaturesRoundTrip | src/pages/AdminPlans.jsx:51-102 | a non-empty list of features without commas or outer white space survives join and split |
| PlanForms.EmptyFeaturesRoundTrip | src/pages/AdminPlans.jsx:51-102 | an empty feature list comes back as `[""]` |
| PlanForms.FeaturesWithoutComma | src/pages/Subscription.jsx:53 | a field without commas is one trimmed feature |
| AdminPlans.Payload | src/pages/AdminPlans.jsx:46-52 | name, duration, type copied, price through `Number`, features split and trimmed; a throw when features is not text |
| AdminPlans.EditedForm | src/pages/AdminPlans.jsx:97-104 | the form takes the plan's fields, features joined with `, `; a throw when features is not a list |
| AdminPlans.EditThenSubmit | src/pages/AdminPlans.jsx:46-104 | editing and submitting sends the plan's own fields and feature list |
| AdminPlans.PlansPage.constructor | src/pages/AdminPlans.jsx:7-16 | no plans, the empty form, no editing id |
| AdminPlans.PlansPage.FetchPlans | src/pages/AdminPlans.jsx:20-33 | a success stores the list or `[]`, a failure keeps it; `loading` ends false |
| AdminPlans.PlansPage.HandleChange | src/pages/AdminPlans.jsx:39-41 | only the named field changes |
| AdminPlans.PlansPage.HandleSubmit | src/pages/AdminPlans.jsx:43-76 | `update` when the editing id is truthy, else `create`; a success clears form and id and refetches; a failure keeps everything |
| AdminPlans.PlansPage.EditPlan | src/pages/AdminPlans.jsx:97-105 | the form is filled and the id remembered, or nothing changes when `join` throws |
| AdminPlans.PlansPage.HandleDelete | src/pages/AdminPlans.jsx:78-95 | no call unless confirmed; a success refetches |
| SubscriptionPage.Payload | src/pages/Subscription.jsx:48-54 | name from `customerName`, duration from `startDate`, type from `userType`, price 0, features from the `planType` field |
| SubscriptionPage.PayloadIgnoresStatus | src/pages/Subscription.jsx:48-54 | the status choice never reaches the payload |
| SubscriptionPage.FilteredSpec | src/pages/Subscription.jsx:102-104 | exactly the listed plans whose type equals the user type |
| SubscriptionPage.SubscriptionsPage.constructor | src/pages/Subscription.jsx:6-16 | no plans; the form empty with status `Active` and user type `customer` |
| SubscriptionPage.SubscriptionsPage.Shown | src/pages/Subscription.jsx:102-104 | the shown plans are those of the form's user type |
| SubscriptionPage.SubscriptionsPage.FetchSubscriptions | src/pages/Subscription.jsx:23-36 | a success stores the list or `[]`, a failure keeps it; `loading` ends false |
| SubscriptionPage.SubscriptionsPage.HandleChange | src/pages/Subscription.jsx:39-42 | only the named field changes |
| SubscriptionPage.SubscriptionsPage.HandleSubmit | src/pages/Subscription.jsx:45-79 | `create` with the payload; a success resets the form and refetches; `loading` ends false |
| SubscriptionPage.SubscriptionsPage.HandleDelete | src/pages/Subscription.jsx:82-99 | no call unless confirmed; a success refetches |

## Left out

- Rendering: JSX, Tailwind class strings other than the sidebar's two link styles, toasts and icons.
- Axios itself: `axios.create`, the base URL and its environment lookup, the timeout, the transport and the request interceptor's error branch. Requests are values, and a settled request is an `Outcome` parameter.
- The API files that only wrap fixed endpoints (`planApi`, `adminApi`, `subscriptionApi`, `bookingApi`, `dashboardApi`). Their calls are call values without URLs; their envelope is the one modelled from `customerApi`.
- `adminApi.toggleStatus`, which is called but not defined. Only the requested status is modelled.
- Async interleaving, unmount races and the React effect scheduler. Each handler runs to completion as one step, with its API answers and the confirm answer as inputs. A fetch started without `await` is taken as finished before the handler's own last step.
- Console logging and the dashboard, stat card and layout components, which hold no logic.
- `ProtectedRoute` and `NotFound`, which are not part of this model.
- Router.Lookup and Router.ResolveClasses: path matching is exact. React Router also accepts `/Login` or `/login/` for `/login`, but there the model gives the fallback page.
- AdminCodec.Decode: stands in for `JSON.parse`/`JSON.stringify` on the admin profile. Other JSON (the text `null`, other fields, other spacing) decodes to a parse failure rather than to a value.
- Percent-encoding of query values by `URLSearchParams` (the `application/x-www-form-urlencoded` serializer of section 5.2 of the WHATWG URL Standard). Values are taken as already encoded.
- `Number(form.price)`: the payload records the field `Number` is applied to (`NumberOf`). Parsing floating point is not modelled.
- Dates: `toLocaleDateString`, `new Date` and `formatDate`, which are locale and clock dependent.
- Unicode case mapping and white space: `toLowerCase`, `toUpperCase` and `trim` are ASCII only.
- Numbers are integers: NaN, `-0` and fractions do not occur.
- Bodies of unexpected shape. A fetched list is taken to be an array of plain objects, or a falsy value. A login body is taken to hold both `token` and `admin`.
- BookingPage.TextMatches: a non-string customer name counts as not matching, where `toLowerCase` would throw during rendering.
- VendorPage.BadgeLabel: defined on string statuses only; `charAt` on another value throws during rendering.
- Per-input setters of the admin management form (`setForm` with one field) are plain assignments and are not modelled.
- Inherited object properties (a status named `constructor` indexing the badge table) are outside the plain-object model.
