# Leadtech CRM web app: a verified model of its front-end logic

This project models the logic of the Leadtech CRM web application in
Dafny. The application is a React dashboard where staff look up
customers and payment transactions, refund payments, keep notes on
customers and invite new staff. The model covers:

- the role and permission table, the permission hook, the route guard of
  the dashboard shell and the permission-filtered navigation sidebar;
- the persisted session store and the API client's token;
- the two record validators (transactions and customers) and the part of
  the validation library they use, with round trips from encoded records
  back to themselves;
- the cell formatting of the transactions and customers tables (badge
  styles, labels, dashes for missing values);
- the filter bars of both tables: the search box, the select boxes bound
  to column filters, and "Clear Filters";
- the customer detail dialog's refund flow (Refund, Confirm/Cancel,
  the call in flight and its outcome) and its Notes button;
- the notes dialog (the draft, the whitespace guard, trimming);
- the invite-users form and its submit handler.

Components whose state changes in place are classes whose methods are
proved against pure transition functions (`State() == F(old(State()))`).
A handler that awaits a remote call while the page stays usable is split
into the part before the `await` and the part after it, so clicks and
typing can come in between.
The properties are proved about those functions. Remote calls (the
invitation, refund and note-creation endpoints) are not performed: their
outcome is a parameter of the method that awaits them. JavaScript
semantics the code relies on are written out in module `Js`: truthiness
of strings, `||` and `??` fallbacks, `String.prototype.trim` with the
ECMAScript whitespace set, and upper-casing the first letter.

Modules: `Js` and `Ui` (shared), `Permissions`, `UsePermissions`,
`AuthStore`, `DashboardLayout`, `AppSidebar`, `JsonSchema`,
`TransactionSchema`, `CustomerSchema`, `TransactionColumns`,
`CustomerColumns`, `TableFilters`, `TransactionDataTable`,
`CustomerDataTable`, `CustomerDetailModal`, `NotesModal`, `InviteUsers`.

## Model

| member | source | states |
|---|---|---|
| Js.OrDash | app/modules/transactions/ui/columns.tsx:117 | `value \|\| "-"` shows the value exactly when it is a non-empty string and "-" exactly when it is missing or empty; never empty |
| Js.Trim | app/modules/customers/ui/notes-modal.tsx:39 | the trimmed string is no longer than the input and starts and ends with a non-whitespace character (or is empty) |
| Js.TrimIsInnerSlice | app/modules/customers/ui/notes-modal.tsx:44 | the trimmed string is a contiguous slice of the input, and everything cut off on either side is whitespace |
| Js.TrimEmptyIff | app/modules/customers/ui/notes-modal.tsx:39 | `!s.trim()` holds exactly when the string is all whitespace (or empty) |
| Js.TrimIdempotent | app/modules/customers/ui/notes-modal.tsx:44 | trimming twice is trimming once |
| Js.Capitalize | app/modules/transactions/ui/data-table.tsx:110 | `charAt(0).toUpperCase() + slice(1)` keeps the length, upper-cases the first character only and keeps the rest |
| Permissions.HasPermission | app/lib/permissions.ts:23-29 | a permission holds exactly when the role is a non-empty known role whose table entry lists it |
| Permissions.GetPermissions | app/lib/permissions.ts:31-34 | a known role gets its table entry; a falsy or unknown role gets the empty list |
| Permissions.HasPermissionIffListed | app/lib/permissions.ts:23-34 | the two lookups agree: a role has a permission iff it is in the role's list |
| Permissions.NoRoleNoPermissions | app/lib/permissions.ts:27 | with no role (absent or empty), no permission holds and the list is empty |
| Permissions.UnknownRoleNoPermissions | app/lib/permissions.ts:28 | a role outside the table gets `false` and `[]` |
| Permissions.AdminHoldsAll | app/lib/permissions.ts:10-15 | admin holds every permission |
| Permissions.CustomerServiceHolds | app/lib/permissions.ts:16-20 | customer_service holds exactly the three view permissions, not invite_users |
| Permissions.CustomerServiceStrictlyBelowAdmin | app/lib/permissions.ts:9-21 | customer_service's permissions are a strict subset of admin's |
| UsePermissions.RoleOf | app/hooks/use-permissions.ts:6 | `user?.role`: nothing without a user, the user's role otherwise |
| UsePermissions.Can | app/hooks/use-permissions.ts:8-10 | `can(p)` holds exactly when p is in the current role's permission list, and never without a user with a role |
| UsePermissions.IsAdmin | app/hooks/use-permissions.ts:12 | the admin flag is set only for a signed-in user with a role, and exactly when that user may invite users |
| UsePermissions.IsCustomerService | app/hooks/use-permissions.ts:13 | the agent flag is set only for a signed-in user with a role, and exactly when that user may view customers but not invite users |
| UsePermissions.RolesExclusive | app/hooks/use-permissions.ts:12-13 | nobody is both admin and customer service |
| UsePermissions.NoUserNoAccess | app/hooks/use-permissions.ts:5-13 | with nobody signed in, nothing is allowed and no role flag is set |
| UsePermissions.AdminCanAll | app/hooks/use-permissions.ts:8-12 | an admin can do everything |
| UsePermissions.CustomerServiceCan | app/hooks/use-permissions.ts:8-13 | a customer-service agent can do everything except invite users |
| AuthStore.AfterSetAuth | app/modules/auth/store/auth-store.ts:26-33 | after `setAuth` the user and token are stored, the flag is set, the API client holds the token, and the store is consistent |
| AuthStore.AfterLogout | app/modules/auth/store/auth-store.ts:34-37 | after `logout` user, token and flag are cleared, the API client has no token, and the store is consistent |
| AuthStore.AfterRehydrate | app/modules/auth/store/auth-store.ts:41-45 | the restored fields replace the store's; the API client gets the restored token only when it is truthy |
| AuthStore.InitialConsistent | app/modules/auth/store/auth-store.ts:23-25 | the initial store is signed out, consistent and in step with the API client |
| AuthStore.OperationsPreserveInvariant | app/modules/auth/store/auth-store.ts:26-37 | `setAuth` and `logout` keep "signed in iff token iff user" and the API client's token in step, from any consistent state |
| AuthStore.LogoutIdempotent | app/modules/auth/store/auth-store.ts:34-37 | logging out twice is logging out once |
| AuthStore.RehydrateSavedState | app/modules/auth/store/auth-store.ts:39-46 | restoring a consistent saved state on a fresh page gives a consistent store, in step with the API client unless the saved token was "" |
| AuthStore.Store.constructor | app/modules/auth/store/auth-store.ts:23-25 | the store starts in the initial state |
| AuthStore.Store.SetAuth | app/modules/auth/store/auth-store.ts:26-33 | the new state is `AfterSetAuth` of the old one |
| AuthStore.Store.Logout | app/modules/auth/store/auth-store.ts:34-37 | the new state is `AfterLogout` of the old one |
| AuthStore.Store.Rehydrate | app/modules/auth/store/auth-store.ts:41-45 | the new state is `AfterRehydrate` of the old one |
| DashboardLayout.RoutePermission | app/shared/ui/dashboard-layout.tsx:10-12 | only `/invite` requires a permission, and it is invite_users |
| DashboardLayout.Guard | app/shared/ui/dashboard-layout.tsx:19-29 | signed-out visitors go to /login; signed-in users go home exactly on /invite without invite_users; everyone else gets the layout |
| DashboardLayout.AuthenticationFirst | app/shared/ui/dashboard-layout.tsx:19-21 | without authentication, path and user do not matter: the result is always /login |
| DashboardLayout.AuthenticatedNeverToLogin | app/shared/ui/dashboard-layout.tsx:24-27 | a signed-in user is never sent to /login |
| DashboardLayout.GuardByRole | app/shared/ui/dashboard-layout.tsx:19-29 | a signed-in admin sees every page; a signed-in agent sees every page but /invite, where they are sent home |
| DashboardLayout.LoggedOutGoesToLogin | app/shared/ui/dashboard-layout.tsx:19-21 | after a logout every path redirects to /login |
| DashboardLayout.RolelessUserSeesLayout | app/shared/ui/dashboard-layout.tsx:24-27 | a signed-in user without a role reaches every page except /invite |
| AppSidebar.VisibleMenuItems | app/shared/ui/app-sidebar.tsx:65-67 | the visible menu is a subsequence of the menu (order kept) holding exactly the items the user may see, each as often as in the menu |
| AppSidebar.IsVisible | app/shared/ui/app-sidebar.tsx:66 | an item without a permission is always shown; one with a permission is shown exactly when the user's role lists it; with nobody signed in only permission-free items show |
| AppSidebar.ActiveDeterminesUrl | app/shared/ui/app-sidebar.tsx:89 | items highlighted on the same path have the same url |
| AppSidebar.SubsequenceMembers | app/shared/ui/app-sidebar.tsx:65-67 | every item of a filtered menu is an item of the menu |
| AppSidebar.SubsequenceKeepsUrlsDistinct | app/shared/ui/app-sidebar.tsx:65-67 | filtering keeps menu URLs distinct |
| AppSidebar.MenuUrlsDistinct | app/shared/ui/app-sidebar.tsx:24-49 | the four menu entries have distinct URLs |
| AppSidebar.VisibleActiveUnique | app/shared/ui/app-sidebar.tsx:85-89 | over a menu with distinct URLs, at most one visible entry is active |
| AppSidebar.AtMostOneActive | app/shared/ui/app-sidebar.tsx:85-89 | for every user and path, at most one sidebar entry is highlighted |
| AppSidebar.AllVisibleKept | app/shared/ui/app-sidebar.tsx:65-67 | when every item is visible the filter changes nothing |
| AppSidebar.InvisibleLastDropped | app/shared/ui/app-sidebar.tsx:65-67 | an invisible item at the end is dropped and nothing else changes |
| AppSidebar.AdminSeesAll | app/shared/ui/app-sidebar.tsx:24-67 | an admin sees the whole menu, in order |
| AppSidebar.CustomerServiceSeesAllButInvite | app/shared/ui/app-sidebar.tsx:24-67 | an agent sees Dashboard, Customers and Transactions, and not Invite Users |
| AppSidebar.NoRoleSeesNothing | app/shared/ui/app-sidebar.tsx:24-67 | a user without a role sees an empty menu, since every entry needs a permission |
| AppSidebar.SidebarState.constructor | app/shared/ui/app-sidebar.tsx:53 | the sidebar state holds the given device kind and open flags |
| AppSidebar.SidebarState.HandleItemClick | app/shared/ui/app-sidebar.tsx:56-62 | a click closes the mobile sheet on a phone and the desktop sidebar otherwise, leaving the other flag alone |
| JsonSchema.StringField | app/modules/transactions/ui/schema.ts:28-31 | a required string field is accepted exactly when present and a string, and yields that string |
| JsonSchema.NumberField | app/modules/transactions/ui/schema.ts:32 | a required number field is accepted exactly when present and a number |
| JsonSchema.BoolField | app/modules/customers/ui/schema.ts:14 | a required boolean field is accepted exactly when present and a boolean |
| JsonSchema.PicklistField | app/modules/transactions/ui/schema.ts:34-36 | a picklist field is accepted exactly when present, a string and one of the options |
| JsonSchema.NullableStringField | app/modules/transactions/ui/schema.ts:37-39 | a nullable field must be present; null and strings are accepted, null gives `None` |
| JsonSchema.OptionalStringField | app/modules/transactions/ui/schema.ts:41 | an optional field may be missing (giving `None`); when present it must be a string, not null |
| JsonSchema.OptionalPicklistField | app/modules/transactions/ui/schema.ts:42 | an optional picklist field is missing or one of the options |
| JsonSchema.OptionalNullableStringField | app/modules/transactions/ui/schema.ts:50-51 | an optional nullable field is missing, null or a string, and missing is told apart from null |
| TransactionSchema.Parse | app/modules/transactions/ui/schema.ts:27-53 | a validated transaction came from an object and holds picklist values in its five enum fields |
| TransactionSchema.ParseAcceptsIff | app/modules/transactions/ui/schema.ts:27-53 | an object is accepted exactly when each of its 24 fields passes its own reader; any one failing field rejects the record |
| TransactionSchema.ParsedFields | app/modules/transactions/ui/schema.ts:27-53 | every field of an accepted transaction is the value read from the input's field of that name |
| TransactionSchema.ReadId | app/modules/transactions/ui/schema.ts:28 | the encoded `id` reads back as the record's id |
| TransactionSchema.ReadIdTransaction | app/modules/transactions/ui/schema.ts:29 | the encoded `id_transaction` reads back unchanged |
| TransactionSchema.ReadCustomerId | app/modules/transactions/ui/schema.ts:30 | the encoded `customer_id` reads back unchanged |
| TransactionSchema.ReadSubscriptionId | app/modules/transactions/ui/schema.ts:31 | the encoded `subscription_id` reads back unchanged |
| TransactionSchema.ReadAmount | app/modules/transactions/ui/schema.ts:32 | the encoded `amount` reads back unchanged |
| TransactionSchema.ReadCurrency | app/modules/transactions/ui/schema.ts:33 | the encoded `currency` reads back unchanged |
| TransactionSchema.ReadPaymentType | app/modules/transactions/ui/schema.ts:34 | a payment type from the picklist reads back unchanged |
| TransactionSchema.ReadTransactionType | app/modules/transactions/ui/schema.ts:35 | a transaction type from the picklist reads back unchanged |
| TransactionSchema.ReadStatus | app/modules/transactions/ui/schema.ts:36 | the status reads back exactly when it is in the picklist |
| TransactionSchema.ReadPaymentDate | app/modules/transactions/ui/schema.ts:37 | `payment_date`, a date or null, reads back unchanged |
| TransactionSchema.ReadCreatedAt | app/modules/transactions/ui/schema.ts:38 | `created_at`, a date or null, reads back unchanged |
| TransactionSchema.ReadUpdatedAt | app/modules/transactions/ui/schema.ts:39 | `updated_at`, a date or null, reads back unchanged |
| TransactionSchema.ReadEmail | app/modules/transactions/ui/schema.ts:41 | `email`, present or missing, reads back unchanged |
| TransactionSchema.ReadSubscriptionPlan | app/modules/transactions/ui/schema.ts:42 | a plan from the picklist, or no plan, reads back unchanged |
| TransactionSchema.ReadSubscriptionStatus | app/modules/transactions/ui/schema.ts:43 | `subscription_status`, present or missing, reads back unchanged |
| TransactionSchema.ReadCountry | app/modules/transactions/ui/schema.ts:44 | `country`, present or missing, reads back unchanged |
| TransactionSchema.ReadProvider | app/modules/transactions/ui/schema.ts:45 | a provider from the picklist, or none, reads back unchanged |
| TransactionSchema.ReadCardBrand | app/modules/transactions/ui/schema.ts:46 | `normalized_card_brand` reads back unchanged |
| TransactionSchema.ReadCardHolder | app/modules/transactions/ui/schema.ts:47 | `card_holder_name` reads back unchanged |
| TransactionSchema.ReadBin | app/modules/transactions/ui/schema.ts:48 | `bin` reads back unchanged |
| TransactionSchema.ReadLast4 | app/modules/transactions/ui/schema.ts:49 | `last_4` reads back unchanged |
| TransactionSchema.ReadNextTransactionDate | app/modules/transactions/ui/schema.ts:50 | `next_transaction_date`, missing, null or a date, reads back unchanged |
| TransactionSchema.ReadRefundDate | app/modules/transactions/ui/schema.ts:51 | `refund_date`, missing, null or a date, reads back unchanged |
| TransactionSchema.ReadIdOrder | app/modules/transactions/ui/schema.ts:52 | `id_order` reads back unchanged |
| TransactionSchema.ParseEncode | app/modules/transactions/ui/schema.ts:27-53 | every well-formed transaction, encoded as the API sends it, validates back to itself |
| TransactionSchema.UnknownStatusRejected | app/modules/transactions/ui/schema.ts:3-8 | a status outside the picklist makes validation fail |
| TransactionSchema.MissingPaymentDateRejected | app/modules/transactions/ui/schema.ts:37 | a missing `payment_date` makes validation fail: nullable is not optional |
| TransactionSchema.NullEmailRejected | app/modules/transactions/ui/schema.ts:41 | a null `email` makes validation fail: optional is not nullable |
| CustomerSchema.EmailField | app/modules/customers/ui/schema.ts:12 | the email is accepted exactly when it is a string that passes the format check |
| CustomerSchema.Parse | app/modules/customers/ui/schema.ts:10-25 | a validated customer came from an object, has a well-formed email and a login method from the picklist |
| CustomerSchema.ParseAcceptsIff | app/modules/customers/ui/schema.ts:10-25 | an object is accepted exactly when each of its 14 fields passes its own reader, the email check included |
| CustomerSchema.ParsedFields | app/modules/customers/ui/schema.ts:10-25 | every field of an accepted customer is the value read from the input's field of that name |
| CustomerSchema.ReadId | app/modules/customers/ui/schema.ts:11 | the encoded `id` reads back unchanged |
| CustomerSchema.ReadEmail | app/modules/customers/ui/schema.ts:12 | a well-formed email reads back unchanged |
| CustomerSchema.ReadName | app/modules/customers/ui/schema.ts:13 | `name` reads back unchanged |
| CustomerSchema.ReadEmailVerified | app/modules/customers/ui/schema.ts:14 | `email_verified` reads back unchanged |
| CustomerSchema.ReadLoginWith | app/modules/customers/ui/schema.ts:15 | the login method reads back exactly when it is in the picklist |
| CustomerSchema.ReadCompanyName | app/modules/customers/ui/schema.ts:16 | `company_name`, present or missing, reads back unchanged |
| CustomerSchema.ReadAddress | app/modules/customers/ui/schema.ts:17 | `address` reads back unchanged |
| CustomerSchema.ReadCity | app/modules/customers/ui/schema.ts:18 | `city` reads back unchanged |
| CustomerSchema.ReadState | app/modules/customers/ui/schema.ts:19 | `state` reads back unchanged |
| CustomerSchema.ReadPostalCode | app/modules/customers/ui/schema.ts:20 | `postal_code` reads back unchanged |
| CustomerSchema.ReadCountry | app/modules/customers/ui/schema.ts:21 | `country`, missing, null or a string, reads back unchanged |
| CustomerSchema.ReadSubscriptionId | app/modules/customers/ui/schema.ts:22 | `subscription_id` reads back unchanged |
| CustomerSchema.ReadCreatedAt | app/modules/customers/ui/schema.ts:23 | `created_at`, a date or null, reads back unchanged |
| CustomerSchema.ReadUpdatedAt | app/modules/customers/ui/schema.ts:24 | `updated_at`, a date or null, reads back unchanged |
| CustomerSchema.ParseEncode | app/modules/customers/ui/schema.ts:10-25 | every well-formed customer, encoded, validates back to itself |
| CustomerSchema.UnknownLoginRejected | app/modules/customers/ui/schema.ts:3-8 | a login method outside the picklist makes validation fail |
| CustomerSchema.MalformedEmailRejected | app/modules/customers/ui/schema.ts:12 | an email that fails the format check makes validation fail |
| CustomerSchema.MissingCreatedAtRejected | app/modules/customers/ui/schema.ts:23 | a missing `created_at` makes validation fail |
| CustomerSchema.NullCountryAccepted | app/modules/customers/ui/schema.ts:21 | a null country is accepted, kept as null and not confused with a missing one |
| TransactionColumns.StatusVariant | app/modules/transactions/ui/columns.tsx:43-57 | success is default, failed destructive, the two pending statuses secondary, and exactly the statuses outside the picklist outline |
| TransactionColumns.TypeVariant | app/modules/transactions/ui/columns.tsx:59-74 | refund and chargeback are destructive, payment default, never secondary; among the picklist only rdr is outline |
| TransactionColumns.PaymentTypeVariant | app/modules/transactions/ui/columns.tsx:76-89 | initial is default, recurring secondary, everything else (upgrade included) outline; never destructive |
| TransactionColumns.PaymentTypeVariantsDistinct | app/modules/transactions/ui/columns.tsx:76-89 | the three payment types get three different badge styles |
| TransactionColumns.ProviderVariant | app/modules/transactions/ui/columns.tsx:91-95 | stripe is default and everything else secondary |
| TransactionColumns.FormatProvider | app/modules/transactions/ui/columns.tsx:97-100 | "-" exactly for no provider, "Stripe" exactly for stripe, otherwise "Macropay" |
| TransactionColumns.ProviderCell | app/modules/transactions/ui/columns.tsx:222-233 | a dash exactly when there is no provider and a badge exactly when there is one; its style is default exactly when its caption is "Stripe" |
| TransactionColumns.ProviderLabelsDistinct | app/modules/transactions/ui/columns.tsx:97-100 | the two providers get different labels |
| TransactionColumns.FormatStatus | app/modules/transactions/ui/columns.tsx:102-110 | statuses in the picklist get their labels; any other status is shown as is |
| TransactionColumns.FormatStatusInjective | app/modules/transactions/ui/columns.tsx:102-110 | different statuses of the picklist get different labels |
| TransactionColumns.StatusCell | app/modules/transactions/ui/columns.tsx:178-186 | always a badge; it shows the raw status exactly when the status is outside the picklist, and is outline-styled exactly then; a known status shows one of the four labels; the style and caption are those of `StatusVariant` and `FormatStatus` |
| TransactionColumns.StatusCellsDistinct | app/modules/transactions/ui/columns.tsx:178-186 | across the picklist, different statuses give different cells |
| TransactionColumns.TypeCell | app/modules/transactions/ui/columns.tsx:166-176 | a badge showing the raw type; it is destructive exactly when the row's amount is shown in the destructive colour, default exactly for payments, never secondary |
| TransactionColumns.PaymentTypeCell | app/modules/transactions/ui/columns.tsx:235-245 | a badge showing the raw payment type, never destructive; among the picklist only upgrade is outline-styled; the style is that of `PaymentTypeVariant` |
| TransactionColumns.MonthUnit | app/modules/transactions/ui/columns.tsx:146 | "month" exactly for plan "1", "months" otherwise |
| TransactionColumns.PlanCell | app/modules/transactions/ui/columns.tsx:139-150 | a dash exactly when there is no plan and text exactly when there is one: the plan followed by a space and its unit |
| TransactionColumns.PlanLabels | app/modules/transactions/ui/columns.tsx:139-150 | the three plans read "1 month", "3 months" and "12 months" |
| TransactionColumns.PlanCellInjective | app/modules/transactions/ui/columns.tsx:139-150 | different non-empty plans give different cells |
| TransactionColumns.AmountDestructive | app/modules/transactions/ui/columns.tsx:188-206 | the amount is shown in the destructive colour exactly when the type badge is destructive |
| CustomerColumns.LoginWithVariant | app/modules/customers/ui/columns.tsx:32-46 | Google default, Apple secondary, every other value outline |
| CustomerColumns.LoginWithVariantsShared | app/modules/customers/ui/columns.tsx:32-46 | of the four login methods only Facebook and Email share a style |
| CustomerColumns.LoginWithCell | app/modules/customers/ui/columns.tsx:104-114 | a badge showing the method itself, never destructive; among the picklist, Facebook and Email are exactly the outline-styled ones; the style is that of `LoginWithVariant` |
| CustomerColumns.UserTypeVariant | app/modules/customers/ui/columns.tsx:48-52 | pro is default, anything else secondary |
| CustomerColumns.UserTypeCell | app/modules/customers/ui/columns.tsx:166-177 | a dash exactly when there is no user type and otherwise a badge captioned by it |
| CustomerColumns.SubscriptionStatusVariant | app/modules/customers/ui/columns.tsx:54-68 | Active and Paying default, Unsubscribed destructive, Non renewal secondary |
| CustomerColumns.SubscriptionStatusCell | app/modules/customers/ui/columns.tsx:179-190 | a dash exactly when there is no status and otherwise a badge captioned by it |
| CustomerColumns.ProviderVariant | app/modules/customers/ui/columns.tsx:70-74 | stripe is default |
| CustomerColumns.FormatProvider | app/modules/customers/ui/columns.tsx:76-79 | "-" exactly for no provider |
| CustomerColumns.ProviderCell | app/modules/customers/ui/columns.tsx:223-234 | a dash exactly when there is no provider, a badge otherwise |
| CustomerColumns.ProviderAgreesWithTransactions | app/modules/customers/ui/columns.tsx:70-79 | the customers table styles and labels providers exactly as the transactions table does |
| CustomerColumns.SubscriptionTypeCell | app/modules/customers/ui/columns.tsx:192-203 | a dash exactly when there is no subscription type |
| CustomerColumns.SubscriptionTypeAgreesWithPlan | app/modules/customers/ui/columns.tsx:192-203 | the subscription-type cell is the transactions table's plan cell |
| CustomerColumns.LanguageCell | app/modules/customers/ui/columns.tsx:211-221 | the communication language when set, else the registration language, else "-"; never empty |
| CustomerColumns.RetriesCell | app/modules/customers/ui/columns.tsx:150-155 | `retries ?? "-"`: a dash exactly when the count is missing, otherwise the count |
| CustomerColumns.ZeroRetriesShown | app/modules/customers/ui/columns.tsx:153 | a count of zero is shown as 0, not as a dash |
| TableFilters.SelectToFilter | app/modules/transactions/ui/data-table.tsx:97-101 | "all" means no filter; any other value is the filter |
| TableFilters.FilterToSelect | app/modules/transactions/ui/data-table.tsx:92-95 | no filter shows as "all"; a filter shows as itself |
| TableFilters.SelectRoundTrip | app/modules/transactions/ui/data-table.tsx:92-101 | whatever the user picks, the select shows it back |
| TableFilters.GetFilterValue | app/modules/customers/ui/data-table.tsx:75-77 | a filter is read only for a column the table has and that holds a filter |
| TableFilters.Displayed | app/modules/customers/ui/data-table.tsx:75-77 | a select shows its column's filter when the column exists and has one, and "all" in every other case |
| TableFilters.OnSelect | app/modules/customers/ui/data-table.tsx:78-82 | picking sets or clears only that column's filter, and does nothing for an id that is not a column; the search is untouched |
| TableFilters.SelectThenDisplay | app/modules/customers/ui/data-table.tsx:74-94 | a select bound to a column shows what was just picked, and the other selects keep what they showed |
| TableFilters.SelectOnMissingColumn | app/modules/customers/ui/data-table.tsx:95-104 | a select bound to a missing column stores nothing and always shows "all" |
| TableFilters.OnSearch | app/modules/transactions/ui/data-table.tsx:85-90 | typing sets the search text and leaves the column filters alone |
| TableFilters.ShowClear | app/modules/transactions/ui/data-table.tsx:163 | "Clear Filters" is shown exactly when some filter is active |
| TableFilters.Clear | app/modules/transactions/ui/data-table.tsx:163-173 | clearing leaves no filter at all, so the button disappears |
| TableFilters.ClearResetsSelects | app/modules/customers/ui/data-table.tsx:121-131 | after clearing every select shows "all" |
| TableFilters.OperationsKeepNoAllStored | app/modules/customers/ui/data-table.tsx:74-131 | no operation of the filter bar stores "all" as a filter value |
| TableFilters.DisplayedAllIff | app/modules/customers/ui/data-table.tsx:75-77 | when "all" is never stored, a select shows "all" exactly when its column has no filter |
| TableFilters.FilterBar.constructor | app/modules/transactions/ui/data-table.tsx:60-61 | the filter bar starts with no column filter and an empty search |
| TableFilters.FilterBar.Select | app/modules/transactions/ui/data-table.tsx:97-101 | the new state is `OnSelect` of the old one |
| TableFilters.FilterBar.Search | app/modules/transactions/ui/data-table.tsx:85-90 | the new state is `OnSearch` of the old one |
| TableFilters.FilterBar.ClearFilters | app/modules/transactions/ui/data-table.tsx:163-173 | the new state has no filter |
| TransactionDataTable.OptionsMatchPicklists | app/modules/transactions/ui/data-table.tsx:35-45 | after "all", each select offers exactly its picklist, in order |
| TransactionDataTable.SelectsAreBound | app/modules/transactions/ui/data-table.tsx:91-162 | the three selects are bound to columns the table has, so each shows back what is picked |
| TransactionDataTable.StatusOptionLabel | app/modules/transactions/ui/data-table.tsx:107-111 | a status with a label gets it; any other is capitalized |
| TransactionDataTable.StatusOptionsMatchBadges | app/modules/transactions/ui/data-table.tsx:47-53 | the status select labels each status as the status badge does |
| TransactionDataTable.TypeOptionLabel | app/modules/transactions/ui/data-table.tsx:131-135 | "All Types" for "all", the capitalized type otherwise |
| TransactionDataTable.PaymentTypeOptionLabel | app/modules/transactions/ui/data-table.tsx:155-159 | "All Payment Types" for "all", the capitalized type otherwise |
| TransactionDataTable.StatusOptionLabels | app/modules/transactions/ui/data-table.tsx:105-112 | the status select reads All Statuses, Success, Failed, In Process, Waiting |
| TransactionDataTable.TypeOptionLabels | app/modules/transactions/ui/data-table.tsx:129-136 | the type select reads All Types, Payment, Refund, Chargeback, Rdr |
| TransactionDataTable.PaymentTypeOptionLabels | app/modules/transactions/ui/data-table.tsx:153-160 | the payment-type select reads All Payment Types, Initial, Recurring, Upgrade |
| TransactionDataTable.NewFilterBar | app/modules/transactions/ui/data-table.tsx:60-61 | a fresh filter bar over the table's columns, with no filter |
| CustomerDataTable.LoginOptionsMatchPicklist | app/modules/customers/ui/data-table.tsx:35 | after "all", the login select offers exactly the login picklist, in order |
| CustomerDataTable.LoginOptionLabel | app/modules/customers/ui/data-table.tsx:90 | "All Methods" for "all", the method's own name otherwise |
| CustomerDataTable.VerifiedOptionLabel | app/modules/customers/ui/data-table.tsx:112-116 | "All" iff "all", "Verified" iff "true", "Not Verified" for everything else |
| CustomerDataTable.LoginOptionLabelsDistinct | app/modules/customers/ui/data-table.tsx:88-92 | the login options get distinct labels |
| CustomerDataTable.LoginSelectIsBound | app/modules/customers/ui/data-table.tsx:74-94 | the login select is bound to a column and shows back what is picked |
| CustomerDataTable.VerifiedSelectIsInert | app/modules/customers/ui/data-table.tsx:95-104 | as written, the verified select names no column: picking changes nothing and it keeps showing "all" |
| CustomerDataTable.CorrectedSelectsAreBound | app/modules/customers/ui/data-table.tsx:74-120 | with an email_verified column, both selects show back what is picked and do not disturb each other |
| CustomerDataTable.CorrectedFilterBar | app/modules/customers/ui/data-table.tsx:43-44 | a fresh filter bar over the columns plus email_verified, with no filter |
| CustomerDetailModal.StatusVariant | app/modules/customers/ui/customer-detail-modal.tsx:56-70 | outline exactly for statuses outside the picklist |
| CustomerDetailModal.TypeVariant | app/modules/customers/ui/customer-detail-modal.tsx:72-84 | outline exactly for types other than payment, refund and chargeback |
| CustomerDetailModal.FormatStatus | app/modules/customers/ui/customer-detail-modal.tsx:86-94 | statuses outside the picklist are shown as is |
| CustomerDetailModal.AgreesWithTransactionsTable | app/modules/customers/ui/customer-detail-modal.tsx:56-94 | the dialog styles and labels statuses and types exactly as the transactions table does |
| CustomerDetailModal.PaymentCell | app/modules/customers/ui/customer-detail-modal.tsx:227-229 | the same caption as the transactions table's payment-type cell, but always outline-styled, so it matches that table's style exactly for types other than initial and recurring |
| CustomerDetailModal.RowDate | app/modules/customers/ui/customer-detail-modal.tsx:201 | a row shows its payment date when set, its creation date otherwise |
| CustomerDetailModal.ActionCell | app/modules/customers/ui/customer-detail-modal.tsx:232-271 | Confirm/Cancel iff refundable and awaiting confirmation (busy iff its refund is in flight); Refund iff refundable otherwise; "Refunded" iff not refundable and refunded |
| CustomerDetailModal.ConfirmLabel | app/modules/customers/ui/customer-detail-modal.tsx:241-243 | "Processing..." exactly while busy |
| CustomerDetailModal.AtMostOneConfirmRow | app/modules/customers/ui/customer-detail-modal.tsx:233 | with distinct row ids, at most one row shows Confirm/Cancel |
| CustomerDetailModal.AskConfirm | app/modules/customers/ui/customer-detail-modal.tsx:258 | Refund makes this row await confirmation, without touching the refund in flight |
| CustomerDetailModal.CancelConfirm | app/modules/customers/ui/customer-detail-modal.tsx:248 | Cancel leaves no row awaiting confirmation |
| CustomerDetailModal.RequestFor | app/modules/customers/ui/customer-detail-modal.tsx:114-117 | the refund request names the row's id_transaction and reason "requested_by_customer" |
| CustomerDetailModal.StartRefund | app/modules/customers/ui/customer-detail-modal.tsx:112 | before the call the row's id_transaction is marked as being refunded |
| CustomerDetailModal.SettleRefund | app/modules/customers/ui/customer-detail-modal.tsx:118-123 | afterwards nothing is in flight; the confirmation is dropped on success only |
| CustomerDetailModal.RefundCycle | app/modules/customers/ui/customer-detail-modal.tsx:111-124 | for a call with no other click in between: while it is in flight the row's buttons are busy; afterwards the row shows Refund on success or an enabled Confirm/Cancel on failure |
| CustomerDetailModal.OnlyRefundingRowBusy | app/modules/customers/ui/customer-detail-modal.tsx:239 | another row with a different id_transaction is never busy |
| CustomerDetailModal.SecondRequestWhileFirstPending | app/modules/customers/ui/customer-detail-modal.tsx:111-124 | with two refundable rows a and b: while a is in flight b still offers Refund; after b is sent too, a's successful return leaves b offering Refund and then an enabled Confirm, so a second request for b can be sent before b's first one settles |
| CustomerDetailModal.NotesButtonDisabled | app/modules/customers/ui/customer-detail-modal.tsx:301 | the Notes button is disabled exactly when no customer is selected |
| CustomerDetailModal.HasNotes | app/modules/customers/ui/customer-detail-modal.tsx:109 | the green indicator dot shows exactly when the notes are loaded and there is at least one |
| CustomerDetailModal.RefundFlow.constructor | app/modules/customers/ui/customer-detail-modal.tsx:101-102 | no row awaits confirmation and nothing is in flight |
| CustomerDetailModal.RefundFlow.ClickRefund | app/modules/customers/ui/customer-detail-modal.tsx:255-262 | clicked only in a row that offers Refund; the new state is `AskConfirm` of the old one |
| CustomerDetailModal.RefundFlow.ClickCancel | app/modules/customers/ui/customer-detail-modal.tsx:245-252 | clicked only in the confirming row while it is not busy; the new state is `CancelConfirm` of the old one |
| CustomerDetailModal.RefundFlow.BeginRefund | app/modules/customers/ui/customer-detail-modal.tsx:111-117 | from an enabled Confirm button only (lines 235-239); sends `RequestFor(tx)`; the new state is `StartRefund` of the old one |
| CustomerDetailModal.RefundFlow.FinishRefund | app/modules/customers/ui/customer-detail-modal.tsx:118-123 | when a call settles, whatever was clicked meanwhile, the new state is `SettleRefund` of the current one |
| NotesModal.CreateRequest | app/modules/customers/ui/notes-modal.tsx:38-45 | nothing is sent iff there is no customer or the draft is all whitespace; otherwise the trimmed draft, non-empty and without whitespace at either end, is sent for that customer |
| NotesModal.AfterCreate | app/modules/customers/ui/notes-modal.tsx:46-49 | the draft is cleared when a note was sent and created, and kept otherwise |
| NotesModal.AfterClose | app/modules/customers/ui/notes-modal.tsx:52-55 | closing drops the draft and closes the dialog |
| NotesModal.AddDisabled | app/modules/customers/ui/notes-modal.tsx:78 | while a create is pending Add Note is disabled; otherwise it is disabled exactly for drafts that are all whitespace |
| NotesModal.AddDisabledIff | app/modules/customers/ui/notes-modal.tsx:78 | Add Note is disabled exactly for whitespace-only drafts and while pending; when enabled with a customer, clicking sends a note |
| NotesModal.AuthorLine | app/modules/customers/ui/notes-modal.tsx:111 | "By: author" is shown exactly when the note has an author |
| NotesModal.TypingDuringCreateIsCleared | app/modules/customers/ui/notes-modal.tsx:46 | text typed while a create is in flight is wiped when the create succeeds and kept when it fails |
| NotesModal.NotesDialog.constructor | app/modules/customers/ui/notes-modal.tsx:34 | the draft starts empty |
| NotesModal.NotesDialog.Type | app/modules/customers/ui/notes-modal.tsx:34 | typing replaces the draft and nothing else |
| NotesModal.NotesDialog.BeginCreateNote | app/modules/customers/ui/notes-modal.tsx:38-45 | sends `CreateRequest` of the current draft and changes nothing |
| NotesModal.NotesDialog.FinishCreateNote | app/modules/customers/ui/notes-modal.tsx:46-49 | when the call settles, the new state is `AfterCreate` of the current one, so a draft typed meanwhile is the one cleared |
| NotesModal.NotesDialog.HandleClose | app/modules/customers/ui/notes-modal.tsx:52-55 | the new state is `AfterClose` of the old one |
| InviteUsers.RequestOf | app/modules/invite/routes/invite-users.tsx:47-53 | every field is sent as typed, except that an empty last name is left out |
| InviteUsers.ErrorMessage | app/modules/invite/routes/invite-users.tsx:62 | an Error's message, or "Failed to invite user" for anything else thrown |
| InviteUsers.Submitting | app/modules/invite/routes/invite-users.tsx:42-44 | before the call both messages are cleared and loading is set; the fields are kept |
| InviteUsers.Settled | app/modules/invite/routes/invite-users.tsx:54-65 | on success the fields are reset and the success message shown; on failure the fields are kept and the error shown; loading ends either way |
| InviteUsers.SubmitSettles | app/modules/invite/routes/invite-users.tsx:40-66 | a submission ends not loading, with exactly one message: success iff the user was invited |
| InviteUsers.SubmitFields | app/modules/invite/routes/invite-users.tsx:54-62 | success resets every field, the role included; failure keeps every field for a retry |
| InviteUsers.InviteUsersPage.constructor | app/modules/invite/routes/invite-users.tsx:31-38 | the page starts empty, with the customer_service role, no message, not loading |
| InviteUsers.InviteUsersPage.Edit | app/modules/invite/routes/invite-users.tsx:109-158 | typing in an input or picking a role replaces only the form fields; messages and the loading flag are kept |
| InviteUsers.InviteUsersPage.HandleSubmit | app/modules/invite/routes/invite-users.tsx:40-66 | sends `RequestOf` the form; the state in flight is `Submitting`, the final one `Settled` of it |

## Left out

- `TableFilters.OnSelect`: an empty-string pick is stored as a filter, whereas the table library would remove an empty-string filter. No select offers "" as an option, so the difference cannot be reached from the page.
- Date and currency formatting (`formatDate`, `formatDateOnly`, `formatCurrency`): they go through `Date` and `Intl`, floating point and the locale. Dates are opaque strings here and amounts are integers.
- The table library's row filtering, sorting, pagination and page size: only the filter state is modelled. Column filters are a map from column id to value, so the order of the filter list is not modelled.
- The data-fetching hooks, loading and error states, and the refund and note-creation success or error banners (the mutations' `isLoading`, `isPending`, `isError` and `isSuccess` flags) are not modelled. The Add Note button's pending flag is a parameter.
- The remote calls are left out. The invitation, refund and note-creation endpoints appear only as the request sent and the outcome passed in. The `console.error` logging on failure is left out.
- Persistence: the session store's storage middleware writes to `localStorage`. The model covers only the fields restored and the rehydration hook (`AuthStore.Store.Rehydrate`).
- `AuthStore.User`: the store's own interface has no `role`, but the permission hook reads `user?.role`. The role is an optional field, so any stored user may carry one or not.
- `CustomerSchema.EmailField`: the validation library's email format check is a parameter (any predicate on strings), not the library's regular expression.
- `Js.Capitalize`: `toUpperCase` is modelled for ASCII letters only; full Unicode case mapping is not modelled.
- Record lookups such as `labels[status]` are modelled as own-key lookups. A status equal to an inherited object key (`"constructor"`, say) is not modelled.
- `InviteUsers.InviteUsersPage.HandleSubmit`: accepts any form. The browser's own validation (`required` at invite-users.tsx:110, 134 and 146, `minLength={8}` at 147, `type="email"` at 130) keeps an incomplete form from reaching the handler; that validation belongs to the browser and is not modelled.
- `NotesModal.NotesDialog.BeginCreateNote`: may be called while a create is in flight. The pending flag belongs to the data-fetching library's mutation, not to the dialog, so the class does not hold it; `NotesModal.AddDisabled` states the button rule of notes-modal.tsx:78 instead.
- `InviteUsers.InviteUsersPage.HandleSubmit`: the submission runs as one step around the invitation call. Every input and the submit button are disabled while it is loading (invite-users.tsx:111-173), so no user action can come in between.
- Rendering is left out: JSX layout, icons, styling classes and the CSS `capitalize` class on badges (the caption text is the raw value).
- The sidebar's collapse and tooltip internals are left out. The role select's options are left out. So are the route pages that only wire hooks to tables, and the server environment file.
- `AppSidebar.SidebarState.HandleItemClick`: the sidebar's open flags belong to the sidebar library's context; they are modelled as fields of a class.

## Findings

| source | as written | input that shows it | evidently intended | confidence | as-written member | corrected member |
|---|---|---|---|---|---|---|
| app/modules/customers/ui/data-table.tsx:95-104 | the "Verified" select reads and writes the filter of column `email_verified`, but the customers table defines no column with that id, so `getColumn` yields nothing and `?.` makes both a no-op | pick "true" in the Verified select: no filter is stored and the select still shows "All" | the select filters on the customer's verified flag through a column (or column filter) named `email_verified` | not executed | CustomerDataTable.VerifiedSelectIsInert | CustomerDataTable.CorrectedSelectsAreBound |
