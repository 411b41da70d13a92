# LegalChicks client logic in Dafny

This project models the client-side decision and state logic of the LegalChicks cooperative web application. Its screens are:

- the public landing page with its three-step membership application;
- the login page and the route guard;
- the member dashboard: the home screen, the market hub and settings;
- the admin console: statistics, member management with CSV export, and network settings with market prices and announcements.

Each React component whose state changes step by step is a Dafny `class`. Its `useState` slots are fields, and each of its handlers is a `method` with a `modifies` clause. Pure derivations are functions, such as:

- filters;
- pagination;
- defaulting;
- error mapping;
- trend rules.

Properties that relate several operations are lemmas.

The document store is modelled as Dafny maps from document id to record. A write batch is applied all at once or not at all: an `update` of a missing document fails the whole batch. A write to the backend is modelled by a `reachable` / `succeeded` flag that the caller passes in. An asynchronous handler whose "busy" state is visible in the UI is split into a `Begin…` method (up to the `await`) and a `Finish…` method (what runs after it). Timestamps, download URLs and generated ids are passed in as opaque values.

Modules:

- `Records`: the stored entities.
- `Seqs` and `Text`: the JavaScript array and string operations used.
- `Rfc4180`: a reader for comma-separated text. It is the reference decoder the export is proved against.
- One module per screen: `ManageMembers`, `AdminPage`, `NetworkSettings`, `LandingPage`, `LoginPage`, `App`, `SettingsView`, `DashboardHome`, `MarketHub`.

## Model

| member | source | states |
|---|---|---|
| Records.RoleName | types.ts:25 | each of the five roles is stored under a non-empty name |
| Records.RoleNameInjective | types.ts:25 | distinct roles have distinct stored names |
| ManageMembers.PendingApplications | pages/admin/ManageMembersView.tsx:37 | an application is listed exactly when it is in the collection with status pending |
| ManageMembers.PendingKeepsOrder | pages/admin/ManageMembersView.tsx:37 | the pending list keeps the collection's order |
| ManageMembers.FilteredMembers | pages/admin/ManageMembersView.tsx:39-45 | an empty term shows all members; otherwise exactly the members whose name or email matches |
| ManageMembers.FilteredMembersKeepsOrder | pages/admin/ManageMembersView.tsx:39-45 | the filtered table keeps the member order |
| ManageMembers.MatchesSearchIff | pages/admin/ManageMembersView.tsx:41-44 | a member matches iff the lower-cased term occurs at some position of the lower-cased name or email |
| ManageMembers.SearchIgnoresTermCase | pages/admin/ManageMembersView.tsx:41-44 | a term and its lower-cased form show the same members |
| ManageMembers.StaleSelectionChecksHeader | pages/admin/ManageMembersView.tsx:47-50 | the length-only header test reports "all selected" while a pending application is unselected (see Findings) |
| ManageMembers.EveryPendingSelected | pages/admin/ManageMembersView.tsx:47-50 | the corrected header test holds iff there are pending applications and every pending id is selected |
| ManageMembers.StaleSelectionLeavesHeaderUnchecked | pages/admin/ManageMembersView.tsx:47-50 | the corrected test is unchecked on the stale selection |
| ManageMembers.HeaderTestsAgree | pages/admin/ManageMembersView.tsx:47-66 | with a repetition-free selection of pending ids, the shipped test and the corrected test agree |
| ManageMembers.EscapeCsvField | pages/admin/ManageMembersView.tsx:109 | an escaped field is wrapped in double quotes |
| ManageMembers.DoubleQuotesRoundTrip | pages/admin/ManageMembersView.tsx:109 | reading the quote-doubled body up to the closing quote gives back the original text |
| ManageMembers.EscapeCsvFieldDecodes | pages/admin/ManageMembersView.tsx:109 | an escaped field reads back as the original text under section 2 rule 7 of RFC 4180, whatever separator follows |
| ManageMembers.RowDecodes | pages/admin/ManageMembersView.tsx:111-118 | a member row reads back as the four fields uid, name, email and role name |
| ManageMembers.HeaderDecodes | pages/admin/ManageMembersView.tsx:108 | the header line reads back as UID, Name, Email, Role |
| ManageMembers.ExportData | pages/admin/ManageMembersView.tsx:102-106 | no CSV is produced iff there are no members |
| ManageMembers.ExportRoundTrip | pages/admin/ManageMembersView.tsx:102-120 | read back as RFC 4180 text, the export is the header record followed by exactly one record per member, in order |
| ManageMembers.InitialRolesSpec | pages/admin/ManageMembersView.tsx:27-34 | the role map has an entry for every member, holding its role when uids are unique, and no other entries |
| ManageMembers.FindMember | pages/admin/ManageMembersView.tsx:93 | the result is the first member with the uid, or none iff no member has it |
| ManageMembers.MembersView.constructor | pages/admin/ManageMembersView.tsx:14-34 | empty selection, search and saving list; roles seeded from the members |
| ManageMembers.MembersView.MembersChanged | pages/admin/ManageMembersView.tsx:27-34 | a new member list re-seeds the role map and changes nothing else |
| ManageMembers.MembersView.ApplicationsChanged | pages/admin/ManageMembersView.tsx:14 | a new application prop replaces the list |
| ManageMembers.MembersView.SetSearchTerm | pages/admin/ManageMembersView.tsx:249 | the search box sets the term |
| ManageMembers.MembersView.SelectAll | pages/admin/ManageMembersView.tsx:52-58 | checking selects exactly the pending ids in order and checks the header; unchecking clears the selection and the header |
| ManageMembers.MembersView.SelectOne | pages/admin/ManageMembersView.tsx:60-66 | checking appends the id; unchecking removes every copy of it and keeps the remaining ids in order |
| ManageMembers.MembersView.BeginBulkAction | pages/admin/ManageMembersView.tsx:68-72 | an empty selection does nothing; otherwise the whole selection is sent with the status and the busy flag is raised |
| ManageMembers.MembersView.FinishBulkAction | pages/admin/ManageMembersView.tsx:73-79 | success clears the selection, failure keeps it; the busy flag drops either way |
| ManageMembers.MembersView.RoleChange | pages/admin/ManageMembersView.tsx:81-83 | the edit changes only that member's entry |
| ManageMembers.MembersView.BeginSaveRole | pages/admin/ManageMembersView.tsx:85-88 | the uid is marked as saving and its edited role, if any, is sent |
| ManageMembers.MembersView.FinishSaveRole | pages/admin/ManageMembersView.tsx:89-100 | a failure restores the member's role from the list when the member is found; the uid is unmarked and no other mark changes |
| AdminPage.PendingStat | pages/AdminPage.tsx:64-67 | the pending count never exceeds the number of applications |
| AdminPage.PendingStatPartition | pages/AdminPage.tsx:67 | pending and decided applications add up to the collection |
| AdminPage.PendingStatAppend | pages/AdminPage.tsx:67 | one more application raises the count by one iff it is pending |
| AdminPage.RecentApplicationsSpec | pages/AdminPage.tsx:123 | the overview lists the first min(5, pending) pending applications, as a prefix of the pending list |
| AdminPage.SetStatuses | pages/AdminPage.tsx:94-97 | listed documents get the status; every other document and the key set are unchanged |
| AdminPage.CommitStatusBatch | pages/AdminPage.tsx:98 | the batch applies iff the store is reachable and every updated document exists, and then applies every update |
| AdminPage.BulkUpdateApplicationStatus | pages/AdminPage.tsx:90-104 | no ids: nothing; a successful commit: every listed document gets the status; failure: the store is unchanged and the error is rethrown |
| AdminPage.UpdateApplicationStatus | pages/AdminPage.tsx:80-88 | when the write succeeds only that document's status changes, to the new one; every other document and field is unchanged; on failure the store is unchanged and the error is swallowed |
| AdminPage.SingleUpdateIsOneDocumentBatch | pages/AdminPage.tsx:80-104 | the single write has the same effect as a one-document batch |
| AdminPage.WithRole | pages/AdminPage.tsx:110-112 | members with the uid get the role; everyone else is unchanged |
| AdminPage.WithRoleKeepsIdentities | pages/AdminPage.tsx:110-112 | no uid, name or email changes, and looking up the uid afterwards finds the new role |
| AdminPage.ProfileOf | pages/AdminPage.tsx:49-54 | an empty or missing name, email or role defaults to 'No Name', 'No Email' or member |
| AdminPage.CollectProfilesSpec | pages/AdminPage.tsx:43-56 | exactly the user documents with a profile are listed, and no listed profile has an empty name or email |
| AdminPage.FetchProfiles | pages/AdminPage.tsx:42-58 | the loop lists the profiles of the specification, and the member total is their number |
| AdminPage.RenderView | pages/AdminPage.tsx:120-131 | "members" and "settings" pick their screens; every other value shows the overview with the stats and recent list |
| AdminPage.AdminConsole.constructor | pages/AdminPage.tsx:23-29 | the overview is selected and the counts and lists start empty |
| AdminPage.AdminConsole.SelectView | pages/AdminPage.tsx:181 | a sidebar button selects its view |
| AdminPage.AdminConsole.ApplicationsSnapshot | pages/AdminPage.tsx:64-67 | the list and the pending count are replaced together, so the count matches the list |
| AdminPage.AdminConsole.UsersFetched | pages/AdminPage.tsx:57-58 | the member list and the member total are set from the documents |
| AdminPage.AdminConsole.ListingsCounted | pages/AdminPage.tsx:39-40 | only the listing count changes |
| AdminPage.AdminConsole.UpdateMemberRole | pages/AdminPage.tsx:106-117 | success updates the list with the role; failure leaves it unchanged and rethrows |
| NetworkSettings.TrendOf | pages/admin/NetworkSettingsView.tsx:81 | up iff the price rose, down iff it fell, stable iff it is equal |
| NetworkSettings.PriceSaveRequest | pages/admin/NetworkSettingsView.tsx:72-84 | no write iff there is no edited value or it equals the current price; otherwise the new price, its trend and a history point |
| NetworkSettings.SavedTrendIsNeverStable | pages/admin/NetworkSettingsView.tsx:73-81 | a save that goes ahead records up or down, never stable |
| NetworkSettings.CommitPriceBatch | pages/admin/NetworkSettingsView.tsx:77-86 | both writes apply iff the store is reachable and the price document exists |
| NetworkSettings.CommitKeepsHistoryConsistent | pages/admin/NetworkSettingsView.tsx:77-86 | a commit keeps every price equal to its latest history entry, appends exactly one entry and touches no other price |
| NetworkSettings.TrendFollowsStoredPrice | pages/admin/NetworkSettingsView.tsx:81-83 | when the row shows the stored price, the trend compares the new price with the stored one |
| NetworkSettings.InitialPrices | pages/admin/NetworkSettingsView.tsx:24-30 | the loop maps every price id to its price, a later duplicate winning |
| NetworkSettings.FreshPricesSaveNothing | pages/admin/NetworkSettingsView.tsx:24-30 | right after seeding, saving a price with a unique id does nothing |
| NetworkSettings.SettingsScreen.constructor | pages/admin/NetworkSettingsView.tsx:15-30 | the edit boxes are seeded with every price; nothing is saving, the form is empty and no dialog is open |
| NetworkSettings.SettingsScreen.PricesChanged | pages/admin/NetworkSettingsView.tsx:24-30 | a new price list re-seeds the edit boxes |
| NetworkSettings.SettingsScreen.PriceChange | pages/admin/NetworkSettingsView.tsx:67-69 | only the edited entry changes |
| NetworkSettings.SettingsScreen.BeginSavePrice | pages/admin/NetworkSettingsView.tsx:71-75 | the request follows the guard, and the row is marked as saving only when a request goes ahead |
| NetworkSettings.SettingsScreen.FinishSavePrice | pages/admin/NetworkSettingsView.tsx:88-95 | a failed commit restores the current price in the edit box; the saving mark is cleared |
| NetworkSettings.SettingsScreen.SetTitle | pages/admin/NetworkSettingsView.tsx:107 | the title input sets the title |
| NetworkSettings.SettingsScreen.SetBody | pages/admin/NetworkSettingsView.tsx:108 | the body input sets the body |
| NetworkSettings.SettingsScreen.BeginAddAnnouncement | pages/admin/NetworkSettingsView.tsx:32-40 | the posted document is the form's non-empty title and body, author "LCE Admin" and the given date |
| NetworkSettings.SettingsScreen.FinishAddAnnouncement | pages/admin/NetworkSettingsView.tsx:41-47 | the form is cleared only after success; submitting ends either way |
| NetworkSettings.SettingsScreen.OpenDeleteConfirm | pages/admin/NetworkSettingsView.tsx:50-53 | the target is set and the dialog opens |
| NetworkSettings.SettingsScreen.CancelDelete | pages/admin/NetworkSettingsView.tsx:145 | cancelling closes the dialog and keeps its target |
| NetworkSettings.SettingsScreen.DeleteAnnouncement | pages/admin/NetworkSettingsView.tsx:55-65 | without a target nothing happens; otherwise the document is removed if reachable, and the dialog closes and forgets the target |
| LandingPage.NextStep | pages/LandingPage.tsx:200-210 | step 1 advances iff name, email and phone are filled; step 2 advances iff location and size are filled; step 3 stays |
| LandingPage.FarmNameIsOptional | pages/LandingPage.tsx:205-209 | the farm name never affects advancing |
| LandingPage.ButtonsFor | pages/LandingPage.tsx:259-282 | Submit only on step 3; Back on steps 2 and 3; Next on steps 1 and 2 |
| LandingPage.SubmittedApplicationIsPending | pages/LandingPage.tsx:219-223 | a submitted application read back under its id is among the pending applications |
| LandingPage.MembershipSection.constructor | pages/LandingPage.tsx:194-198 | step 1 with an empty form, no error and nothing loading |
| LandingPage.MembershipSection.SetField | pages/LandingPage.tsx:256-266 | typing into the current panel's input changes that field and keeps the step invariant |
| LandingPage.MembershipSection.Next | pages/LandingPage.tsx:200-210 | the step becomes NextStep and stays within 1..3, with earlier panels complete |
| LandingPage.MembershipSection.BackToContact | pages/LandingPage.tsx:268 | back from step 2 to step 1 |
| LandingPage.MembershipSection.BackToFarm | pages/LandingPage.tsx:277 | back from step 3 to step 2 |
| LandingPage.MembershipSection.BeginSubmit | pages/LandingPage.tsx:212-223 | the error is cleared; the document is the form, status pending and the time, with complete contact and farm fields |
| LandingPage.MembershipSection.FinishSubmit | pages/LandingPage.tsx:224-230 | success shows the confirmation; failure shows "Submission failed. Please try again."; loading ends |
| LandingPage.PackageTitle | pages/LandingPage.tsx:111-122 | every package has a non-empty dialog title |
| LandingPage.PackageTitlesDistinct | pages/LandingPage.tsx:111-122 | distinct packages have distinct titles |
| LandingPage.PackagesSection.constructor | pages/LandingPage.tsx:108-109 | the dialog starts closed and untitled |
| LandingPage.PackagesSection.OpenModal | pages/LandingPage.tsx:111-122 | the dialog opens on the package, titled after it |
| LandingPage.PackagesSection.CloseModal | pages/LandingPage.tsx:124 | the dialog closes |
| App.ProtectedRoute | App.tsx:39-52 | loader while loading; without a user, a replacing redirect to /login remembering the location; otherwise the page |
| App.Router | App.tsx:62-86 | loader while loading; then /, /login, the guarded /dashboard, and a redirect home for every other path |
| App.DashboardNeedsUser | App.tsx:47-49 | the dashboard shows iff loading is over, a user is signed in and the path is /dashboard |
| App.RedirectsDoNotChain | App.tsx:48 | following any redirect the shell issues lands on a page |
| App.AuthProvider.constructor | App.tsx:21-22 | no user, loading |
| App.AuthProvider.OnAuthStateChanged | App.tsx:25-28 | the reported user is stored and loading ends |
| LoginPage.RedirectTarget | pages/LoginPage.tsx:24 | the remembered non-empty path, else /dashboard; never empty |
| LoginPage.GuardRedirectRoundTrip | pages/LoginPage.tsx:24 | the guard's redirect state leads back to the page that was asked for |
| LoginPage.SignInReachesDashboard | pages/LoginPage.tsx:24-37 | a signed-out visit to /dashboard goes to the login page and, after sign-in, the dashboard shows |
| LoginPage.ErrorMessage | pages/LoginPage.tsx:41-50 | each known code maps to its message; other codes show the error text or "Authentication failed."; never empty |
| LoginPage.LoginForm.constructor | pages/LoginPage.tsx:15-19 | sign-in mode with empty fields, no error and nothing loading |
| LoginPage.LoginForm.SetEmail | pages/LoginPage.tsx:136 | the e-mail input sets the address |
| LoginPage.LoginForm.SetPassword | pages/LoginPage.tsx:156 | the password input sets the password |
| LoginPage.LoginForm.Submit | pages/LoginPage.tsx:26-54 | only a successful sign-in navigates, to the redirect target; an address in use switches to sign-in; loading ends |
| LoginPage.LoginForm.ToggleMode | pages/LoginPage.tsx:215 | the mode flips and the error clears |
| LoginPage.LoginForm.FillAdminCredentials | pages/LoginPage.tsx:56-59 | only the e-mail is set, to the admin address |
| SettingsView.InitialContactName | pages/dashboard/SettingsView.tsx:20 | the profile's non-empty name wins over the stored contact name |
| SettingsView.FlagOrTrue | pages/dashboard/SettingsView.tsx:22-24 | only an absent flag defaults to on; an explicit off is kept |
| SettingsView.Normalize | pages/dashboard/SettingsView.tsx:17-26 | seeding fills every field: empty texts, flags on, contact from the profile |
| SettingsView.NormalizeIdempotent | pages/dashboard/SettingsView.tsx:17-26 | seeding twice equals seeding once |
| SettingsView.NormalizeKeepsCompleteSettings | pages/dashboard/SettingsView.tsx:17-26 | complete settings that agree with the profile name are seeded unchanged |
| SettingsView.ApplyInput | pages/dashboard/SettingsView.tsx:65-71 | the named field takes the value or checked state; every other field is unchanged |
| SettingsView.ApplyInputKeepsComplete | pages/dashboard/SettingsView.tsx:65-71 | input changes keep a seeded form complete |
| SettingsView.SeededTogglesShowStoredFlags | pages/dashboard/SettingsView.tsx:22-24 | after seeding, the toggles show the stored flag, or on when it is absent |
| SettingsView.SettingsForm.constructor | pages/dashboard/SettingsView.tsx:12-26 | the form holds the seeded settings; nothing saving, shown or uploading |
| SettingsView.SettingsForm.PropsChanged | pages/dashboard/SettingsView.tsx:17-26 | new props re-seed the form |
| SettingsView.SettingsForm.InputChange | pages/dashboard/SettingsView.tsx:65-71 | the form becomes ApplyInput of the event |
| SettingsView.SettingsForm.Save | pages/dashboard/SettingsView.tsx:28-63 | no user: nothing. Otherwise the preferences are merged, then the profile is renamed iff that succeeded and the contact is non-empty and differs. Success iff every write issued succeeded |
| SettingsView.SettingsForm.HideSuccess | pages/dashboard/SettingsView.tsx:56 | the success message is hidden |
| SettingsView.SettingsForm.ImageUpload | pages/dashboard/SettingsView.tsx:73-96 | no file or user: nothing. Otherwise upload to the user's path, and only after it succeeds merge the photo URL |
| DashboardHome.TotalIsSumOfHeadcounts | pages/dashboard/DashboardHomeView.tsx:125-128 | the left fold of headcounts equals the sum of the chart's data |
| DashboardHome.TotalAppend | pages/dashboard/DashboardHomeView.tsx:125 | the total of concatenated lists is the sum of the totals |
| DashboardHome.TotalBoundsEachFlock | pages/dashboard/DashboardHomeView.tsx:125 | with non-negative headcounts the total is at least each flock's headcount |
| DashboardHome.TotalNonNegative | pages/dashboard/DashboardHomeView.tsx:125 | with non-negative headcounts the total is not negative |
| DashboardHome.LivestockDistribution | pages/dashboard/DashboardHomeView.tsx:126-128 | one label and one value per flock, aligned by position; the values sum to the total |
| DashboardHome.ShowAnnouncements | pages/dashboard/DashboardHomeView.tsx:93-98 | placeholder iff there are no announcements; otherwise the first min(3, n) |
| DashboardHome.EggChangeType | pages/dashboard/DashboardHomeView.tsx:153 | positive iff the change is above zero |
| DashboardHome.CostChangeType | pages/dashboard/DashboardHomeView.tsx:154-155 | negative iff the change is above zero |
| DashboardHome.ChangeTypesAreOpposite | pages/dashboard/DashboardHomeView.tsx:153-155 | the same change is coloured oppositely on the egg card and the cost cards |
| DashboardHome.ChangeTextSign | pages/dashboard/DashboardHomeView.tsx:153-155 | the figure starts with '+' iff the change is above zero, and dropping the sign gives the formatted number |
| MarketHub.CommunityListings | pages/dashboard/MarketHubView.tsx:122 | signed out: every listing; signed in: exactly the listings of other users, in their order, each as often as it occurs in the list |
| MarketHub.TotalPages | pages/dashboard/MarketHubView.tsx:123 | the ceiling of n/10: enough pages, none spare, and zero iff there are no listings |
| MarketHub.ClampPage | pages/dashboard/MarketHubView.tsx:126-130 | a page past the end falls back to the last page; otherwise unchanged |
| MarketHub.PageSliceSize | pages/dashboard/MarketHubView.tsx:132-135 | a page in range holds ten listings, the last page the remainder (1..10), as a contiguous run |
| MarketHub.FirstPagesArePrefix | pages/dashboard/MarketHubView.tsx:132-135 | the first k pages are the first 10k listings |
| MarketHub.PagesCoverList | pages/dashboard/MarketHubView.tsx:123-135 | the pages in order are the whole list: nothing dropped or repeated |
| MarketHub.MarketHubScreen.constructor | pages/dashboard/MarketHubView.tsx:102-113 | page 1 with an empty form, nothing submitting and no dialog |
| MarketHub.MarketHubScreen.SetProductName | pages/dashboard/MarketHubView.tsx:234 | the product input sets the name |
| MarketHub.MarketHubScreen.SetQuantity | pages/dashboard/MarketHubView.tsx:235 | the quantity input sets the quantity |
| MarketHub.MarketHubScreen.SetPrice | pages/dashboard/MarketHubView.tsx:237 | the price input sets the unparsed price |
| MarketHub.MarketHubScreen.ClampToListings | pages/dashboard/MarketHubView.tsx:126-130 | after the effect a non-empty community list has its page in range and non-empty |
| MarketHub.MarketHubScreen.Previous | pages/dashboard/MarketHubView.tsx:301 | one page back, never below 1 |
| MarketHub.MarketHubScreen.Next | pages/dashboard/MarketHubView.tsx:298-311 | with the pager shown, one page on, never past the last |
| MarketHub.MarketHubScreen.CreateListing | pages/dashboard/MarketHubView.tsx:137-159 | no write iff no user or a field is empty; the posted listing carries the form and the uid; the form clears only on success |
| MarketHub.MarketHubScreen.OpenDeleteConfirm | pages/dashboard/MarketHubView.tsx:161-164 | the target is set and the dialog opens |
| MarketHub.MarketHubScreen.CancelDelete | pages/dashboard/MarketHubView.tsx:326 | cancelling closes the dialog and keeps its target |
| MarketHub.MarketHubScreen.DeleteListing | pages/dashboard/MarketHubView.tsx:166-176 | without a target nothing happens; otherwise the listing is removed if reachable, and the dialog closes and forgets the target |

## Left out

- Firebase, Firestore and Storage calls are modelled only by their effect on maps of documents or by a success flag. Listener subscription and unsubscription, server timestamps, `getCountFromServer` and query ordering are not modelled. The order in which the snapshot delivers documents is taken as given.
- Auth provider error payloads are reduced to `code` and `message`.
- Number parsing and formatting are not modelled: `Number`, `parseFloat`, `toFixed` and `toLocaleString`. Prices are reals, so NaN, rounding and IEEE comparison are not captured. `ChangeText` takes the already-formatted figure.
- `Date` and ISO timestamps are opaque strings passed in by the caller.
- Lower-casing covers ASCII letters only, so Unicode case mapping is not modelled.
- Route matching is exact path equality. React Router's case-insensitive matching and its handling of trailing slashes are not modelled.
- DOM side effects are not modelled: the Blob download, `alert`, `console`, `mailto` links, `setTimeout` scheduling, and `preventDefault`.
- `ManageMembers.ExportData` models the CSV text only. The download link and file name are not modelled.
- The AI report (`generateInsightReport`, the gemini service) and `renderMarkdown` are not modelled.
- The market hub's edit dialog (`openEditModal`, `handleUpdateListing`, pages/dashboard/MarketHubView.tsx:178-217) is not modelled: it round-trips the price through `String` and `parseFloat`, which are not modelled.
- "Contact Seller" (pages/dashboard/MarketHubView.tsx:219-224) only opens a `mailto` link and is not modelled.
- The dashboard page's data plumbing is not modelled. DashboardPage.tsx is not part of this model.
- ResourcesView.tsx is not part of this model.
- The admin entry point is not modelled: the Admin Dashboard link is shown only when `profile?.role === 'admin'` (pages/DashboardPage.tsx:138), and DashboardPage.tsx is not part of this model. The routes of App.tsx:72-82 declare no `/admin` path, so `App.Router` sends it home like any other unknown path.
- `AdminPage.ProfileOf`: a stored role string that is not one of the five roles passes through the source's cast unchanged. The model admits only the five roles.
- `LandingPage.MembershipSection.SetField` requires that the field's input is shown on the current panel, as the rendered form guarantees.
- `MarketHub.MarketHubScreen.Next` requires the same of its button.
- `NetworkSettings.SettingsScreen.BeginAddAnnouncement` requires a non-empty title and body: both inputs are `required` (pages/admin/NetworkSettingsView.tsx:107-108), so the browser does not submit the form without them.
- `LoginPage.LoginForm.Submit` and `SettingsView.SettingsForm.Save` are modelled as one step. The busy flag, which disables the button during the await, is only seen to end false.
- `NetworkSettings.SettingsScreen` keeps a single `isSavingPrice` slot, as the source does. Overlapping saves of two prices are therefore not distinguished.
- Presentation is not modelled: CSS classes, icons, charts' colours, the sidebar and the progress bar.

## Findings

| source | as written | input that shows it | evidently intended | confidence | as-written member | corrected member |
|---|---|---|---|---|---|---|
| pages/admin/ManageMembersView.tsx:47-50 | the header checkbox is checked when the selection has as many ids as there are pending applications | select application `a`, then approve it with its own row button. `a` leaves the pending list, but the selection is not pruned. With one other pending application `b`, the header shows checked while `b` is unselected | checked exactly when every pending application is selected | not executed | ManageMembers.StaleSelectionChecksHeader | ManageMembers.EveryPendingSelected |

`ManageMembers.MembersView.HeaderChecked` renders the header with the length-only test, as pages/admin/ManageMembersView.tsx:195 does. The corrected test `ManageMembers.EveryPendingSelected` is stated beside it, and `ManageMembers.HeaderTestsAgree` shows when the two agree.
