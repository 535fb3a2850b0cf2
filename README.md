# Health Facility Data Management console — a Dafny model

This project models the client logic of the HFDMS administration console, a React single-page
application. An administrator logs in. The backend replies with a profile and a list of
per-activity permission grants, and the console keeps both in browser storage. The grants then
decide four things:

- which sidebar links and nested routes the dashboard offers;
- which lists each management page fetches;
- which Add, Edit and Delete controls each page shows;
- what each page's editor sends back.

The model covers these parts:

- **Wire values** (`wire.dfy`). JavaScript values (`undefined`, `null`, booleans, numbers, strings) with their falsiness and `||`. Backend replies, meaning a rejected request, or an HTTP status plus the body's `statusCode` and `data`. Alerts.
- **Permission lookup** (`permissions.dfy`). Every page takes the first entry with its activity name (or `{}`) and compares one flag against the exact string "True".
- **Shared page behaviour** (`entity_page.dfy`). A save refetches and closes the editor only on the "00" sentinel. A soft delete on an entity page refetches on any HTTP 200. Audit tags: 'admin' as creator on a new record, as modifier on an edited one.
- **Role editor** (`role_management.dfy`). Decoding the mapped-data reply into a per-activity map of four booleans, one checkbox change at a time, and encoding the map back into ordered, filtered mappings over the fixed table of seven activities. The page's handlers are a class.
- **Activity log** (`activity_log.dfy`, `paging.dfy`). 8 rows a page, with bounds-guarded next and previous handlers, the loading flag, truncation of three long cells, and the CSV export of the full list.
- **Patient page** (`patient_page.dfy`). 6 rows a page, with next and previous handlers that do not check bounds, plus the editor and soft delete.
- **User, Health Worker and Health Facility pages** (`user_management.dfy`, `health_worker.dfy`, `health_facility.dfy`). Mount-time fetches, the add and edit forms, save payloads and soft delete.
- **Session** (`session.dfy`, `login.dfy`). Storage, the in-memory user of the authentication context, and locations, changed only through a trace of effects. Login writes both storage keys, then sets the user, then navigates.
- **Route guard** (`protected_route.dfy`). It renders its children iff the context holds a user. After a reload the user is gone while storage still holds the session.
- **Dashboard** (`dashboard.dfy`). The menu (placeholder, filter on view grants, route map), route registration, the display name, logout, and one render from storage.

Component state becomes a class per page, and each event handler becomes a method. A backend reply and the answer to a confirmation dialog are parameters of the handler. The expressions the handlers evaluate (decode, encode, slices, payloads, lookups) are functions, and the lemmas state their properties.

The model follows the code as written, including where its behaviour may be surprising:

- **Permission lookup.** A page consults the first entry with its activity name, even when a later entry with the same name grants more. The route gate instead accepts any entry with that name; `Dashboard.RouteRegisteredButPageDenies` shows the two disagreeing.
- **Menu.** A permission whose name is not in the route map still yields a menu link, with an undefined target. It is not dropped.
- **Parse errors.** A storage value that does not parse breaks the render. Nothing catches the exception or substitutes a default.
- **Role delete.** It refetches only on the "00" sentinel. The other pages' deletes refetch on any HTTP 200.

## Model

| member | source | states |
|---|---|---|
| Wire.Or | src/pages/PatientPage.js:209 | `v \|\| d` is `d` exactly for the falsy values and `v` otherwise |
| Permissions.FirstByName | src/pages/PatientPage.js:168 | none iff no entry has the name; otherwise the entry at the earliest index with that name |
| Permissions.GrantsIffFirstEntryTrue | src/pages/UserManagementPage.js:153-157 | a grant holds iff the first entry with the name carries exactly "True" in that flag (both directions) |
| Permissions.LaterDuplicateIgnored | src/pages/HealthWorkerPage.js:150 | appending entries never changes the lookup or any grant for a name already present |
| Permissions.ControlsFor | src/pages/UserManagementPage.js:279-322 | Add, Edit and Delete each shown iff their flag is granted; Export always shown |
| EntityPage.TagsFor | src/pages/UserManagementPage.js:250-251 | exactly one audit tag is non-empty, 'admin' as creator iff the record is new |
| EntityPage.SaveReaction | src/pages/HealthFacilityPage.js:223-235 | refetch and close iff "00"; a rejected request alerts the error text, another reply alerts the server's data, success is silent |
| EntityPage.DeleteReaction | src/pages/HealthWorkerPage.js:186-198 | refetch iff HTTP 200; never closes the editor; success, failure or error text by case |
| EntityPage.DeleteAndSaveJudgeDifferently | src/pages/PatientPage.js:225-250 | a 200 reply with statusCode "01" refetches after a delete but not after a save |
| EntityPage.FetchedList | src/pages/PatientPage.js:178-185 | a resolved fetch replaces the list, a rejected one keeps the previous list |
| Paging.PageWindowIsBlock | src/pages/ActivityLogPage.js:144-146 | page p (from 1) shows rows (p-1)*size to p*size cut at the end: at most size rows, none past the last page |
| Paging.TotalPages | src/pages/ActivityLogPage.js:148 | ceil(n/size): zero iff the list is empty, enough pages for every row and no empty last page |
| Paging.PagesUpToIsPrefix | src/pages/ActivityLogPage.js:144-148 | pages 1..k together are exactly the first k*size rows |
| Paging.AllPagesReproduceList | src/pages/ActivityLogPage.js:144-148 | pages 1..totalPages concatenated reproduce the whole list in order |
| Paging.GuardedNext | src/pages/ActivityLogPage.js:150-152 | increments only below the last page, otherwise unchanged; keeps the page in range |
| Paging.GuardedPrev | src/pages/ActivityLogPage.js:154-156 | decrements only above page 1, otherwise unchanged; keeps the page in range |
| Paging.GuardedRunStaysInRange | src/pages/ActivityLogPage.js:220-228 | from a page in 1..max(1,total), every sequence of Previous/Next clicks stays in that range |
| Paging.ClampPage | src/pages/PatientPage.js:272-280 | the result is always in 1..max(1,total); an in-range page is kept, one below is raised to 1, one above lowered to the last page |
| Paging.ClampedThenGuardedStaysInRange | src/pages/PatientPage.js:272-280 | after the page is clamped to a refetched list, every sequence of guarded clicks stays in range, whatever page the user was on |
| Paging.EmptyListNextEnabledButNoOp | src/pages/ActivityLogPage.js:226 | with no rows there are 0 pages, Next is enabled on page 1, and the click leaves page 1 |
| RoleManagement.ActWithIdsAreOneToSeven | src/pages/RoleManagementPage.js:142-150 | the activity table has seven entries with ids 1 to 7 in order |
| RoleManagement.DecodeEntry | src/pages/RoleManagementPage.js:180-185 | all four keys present, each true iff the wire flag is exactly "True"; 'add' comes from canCreate |
| RoleManagement.Decode | src/pages/RoleManagementPage.js:179-187 | the decoded map's keys are exactly the fetched activity ids |
| RoleManagement.DecodeLastWins | src/pages/RoleManagementPage.js:179-187 | an activity's entry is the decoding of its last fetched entry |
| RoleManagement.SetFlag | src/pages/RoleManagementPage.js:208-215 | sets exactly the one flag; other flags of that activity and all other activities unchanged |
| RoleManagement.MapActivities | src/pages/RoleManagementPage.js:243-248 | one mapping per table activity, in table order, each built from the editor map |
| RoleManagement.KeepGranted | src/pages/RoleManagementPage.js:249-251 | keeps exactly the mappings with some flag set, preserving increasing id order |
| RoleManagement.RoleMappingsOrdered | src/pages/RoleManagementPage.js:243-251 | saved mappings are in strictly increasing id order, so at most one per activity |
| RoleManagement.RoleMappingsContent | src/pages/RoleManagementPage.js:243-251 | ids in 1..7; each flag equals the editor's (absent means false), canCreate from 'add'; an activity is saved iff one of its flags is set |
| RoleManagement.SaveAfterDecode | src/pages/RoleManagementPage.js:179-251 | saving straight after opening saves an activity iff its last fetched entry has some "True" flag, with exactly those flags |
| RoleManagement.KeepGrantedNone | src/pages/RoleManagementPage.js:249-251 | the filter drops a list with nothing granted |
| RoleManagement.NothingGrantedSavesNothing | src/pages/RoleManagementPage.js:243-251 | an editor map with no flag set on the seven activities saves no mappings |
| RoleManagement.SetFlagChangesOneMapping | src/pages/RoleManagementPage.js:208-248 | a checkbox change alters only its own activity's saved mapping |
| RoleManagement.SavePayloadFor | src/pages/RoleManagementPage.js:253-259 | isDeleted '0'; roleId null and roleName '' with no role selected, else the falsy-defaulted selection; mappings from the editor map |
| RoleManagement.RoleManagementPage.constructor | src/pages/RoleManagementPage.js:132-140 | empty roles and editor map, no selection, editor closed; the signing name and user id read from the stored profile |
| RoleManagement.RoleManagementPage.FetchRolesSettled | src/pages/RoleManagementPage.js:156-163 | a resolved fetch replaces the role list, a rejected one keeps it |
| RoleManagement.RoleManagementPage.HandleEditRole | src/pages/RoleManagementPage.js:165-205 | only a "00" reply replaces the map by the decoded reply and opens the editor; otherwise editor state unchanged and one of two alerts |
| RoleManagement.RoleManagementPage.HandlePermissionChange | src/pages/RoleManagementPage.js:208-216 | the editor map becomes SetFlag of the old map |
| RoleManagement.RoleManagementPage.HandleDeleteRole | src/pages/RoleManagementPage.js:218-239 | a confirmed delete sends the soft-delete marker signed with the user's name; refetch iff "00" |
| RoleManagement.RoleManagementPage.HandleSaveChanges | src/pages/RoleManagementPage.js:241-274 | sends SavePayloadFor of the current state; closes and refetches iff "00"; alert by case |
| RoleManagement.RoleManagementPage.HandleCloseModal | src/pages/RoleManagementPage.js:276-279 | editor closed and selection cleared; the map is left as it was |
| RoleManagement.RoleManagementPage.HandleAddNewRole | src/pages/RoleManagementPage.js:281-286 | empty map, blank role name, not editing, editor open |
| RoleManagement.RoleManagementPage.ChangeRoleName | src/pages/RoleManagementPage.js:342-343 | the name changes and the selected role id is kept (undefined when nothing was selected) |
| RoleManagement.AddThenSave | src/pages/RoleManagementPage.js:241-286 | add-new then save sends a null roleId, an empty name and no mappings |
| ActivityLog.TruncateText | src/pages/ActivityLogPage.js:159-161 | absent text unchanged; text within the limit unchanged; longer text becomes its first maxLength characters plus "..." |
| ActivityLog.TruncateIdempotent | src/pages/ActivityLogPage.js:159-161 | truncating twice equals truncating once |
| ActivityLog.TruncateFixedPoints | src/pages/ActivityLogPage.js:159-161 | a text is unchanged iff it fits or is already a maximal truncation ending in "..." |
| ActivityLog.RenderRow | src/pages/ActivityLogPage.js:197-207 | only endpoint, request data and response data are truncated; the other columns are shown as they are |
| ActivityLog.RenderRows | src/pages/ActivityLogPage.js:196-208 | one rendered row per log, in order |
| ActivityLog.DisplayedRowComesFromList | src/pages/ActivityLogPage.js:144-207 | displayed row i of page p is the log at (p-1)*8+i with only its three long cells truncated |
| ActivityLog.ActivityLogPage.constructor | src/pages/ActivityLogPage.js:103-111 | empty list, page 1, loading |
| ActivityLog.ActivityLogPage.FetchSettled | src/pages/ActivityLogPage.js:113-123 | loading false whether the fetch succeeds or fails; the list replaced on success and kept on failure |
| ActivityLog.ActivityLogPage.NextPage | src/pages/ActivityLogPage.js:150-152 | the page becomes GuardedNext of the old page; range invariant kept |
| ActivityLog.ActivityLogPage.PrevPage | src/pages/ActivityLogPage.js:154-156 | the page becomes GuardedPrev of the old page; range invariant kept |
| ActivityLog.ActivityLogPage.CurrentLogs | src/pages/ActivityLogPage.js:144-146 | at most 8 rows, the current page's block of the list |
| ActivityLog.ActivityLogPage.Csv | src/pages/ActivityLogPage.js:125-141 | the export carries the full, unpaginated, untruncated list with the nine headers |
| ActivityLog.MountWithFailedFetch | src/pages/ActivityLogPage.js:104-156 | after a failed mount fetch: page 1 of 0, Next enabled, and Next leaves page 1 |
| PatientPage.MountPlanFor | src/pages/PatientPage.js:168-176 | the patient list is fetched iff the first 'Patient' entry grants view; facilities always |
| PatientPage.EditForm | src/pages/PatientPage.js:203-213 | the record's id, name, gender and address; a falsy facility id becomes '' |
| PatientPage.EditThenSaveSendsRecord | src/pages/PatientPage.js:203-246 | an untouched edit sends the record's own fields and no audit tags |
| PatientPage.AddThenSaveSendsBlankRecord | src/pages/PatientPage.js:197-246 | an untouched add sends no id and four empty strings |
| PatientPage.UnguardedEscapesOnEmptyList | src/pages/PatientPage.js:272-280 | with no patients Next is enabled on page 1 and moves to page 2, then 3: out of range |
| PatientPage.UnguardedSafeWhenNonEmpty | src/pages/PatientPage.js:272-280 | with at least one page, the disabled conditions alone keep every click sequence in range |
| PatientPage.SetField | src/pages/PatientPage.js:360-379 | an input sets its own field to the typed text and keeps every other field, the id included |
| PatientPage.TypingKeepsId | src/pages/PatientPage.js:360-379 | no sequence of input changes alters the form's id |
| PatientPage.PatientPage.constructor | src/pages/PatientPage.js:156-168 | empty lists, page 1, no selection, editor closed; the grants are the permission list parsed from storage |
| PatientPage.PatientPage.Mount | src/pages/PatientPage.js:171-176 | the patient list is settled from its reply only with the first entry's view grant; the facility options are settled from theirs always |
| PatientPage.PatientPage.FetchPatientsSettled | src/pages/PatientPage.js:178-185 | a resolved fetch replaces the list, a rejected one keeps it |
| PatientPage.PatientPage.FetchFacilitiesSettled | src/pages/PatientPage.js:187-194 | a resolved dropdown fetch replaces the facility options, a rejected one keeps them |
| PatientPage.PatientPage.HandleAddNewPatient | src/pages/PatientPage.js:197-201 | blank form, not editing, editor open |
| PatientPage.PatientPage.HandleEditPatient | src/pages/PatientPage.js:203-213 | the form is EditForm of the record, editing, editor open |
| PatientPage.PatientPage.ChangeField | src/pages/PatientPage.js:360-379 | the open editor's form becomes SetField of the old form: one field changed, the rest kept |
| PatientPage.PatientPage.HandleSaveChanges | src/pages/PatientPage.js:239-260 | sends exactly the five form fields; the editor stays open iff the reply is not "00" |
| PatientPage.PatientPage.HandleDeletePatient | src/pages/PatientPage.js:215-237 | a confirmed delete sends {id, '1', 'admin'} and refetches iff HTTP 200; a declined one sends nothing |
| PatientPage.PatientPage.HandleCloseModal | src/pages/PatientPage.js:262-265 | editor closed, selection cleared |
| PatientPage.PatientPage.HandlePrevPage | src/pages/PatientPage.js:274-276 | the page decreases by exactly one, unchecked |
| PatientPage.PatientPage.HandleNextPage | src/pages/PatientPage.js:278-280 | the page increases by exactly one, unchecked |
| PatientPage.PatientPage.CurrentPatients | src/pages/PatientPage.js:268-270 | at most 6 rows, the current page's block of the list |
| PatientPage.NextOnEmptyPatientList | src/pages/PatientPage.js:272-280 | through the page's own handlers: no patients, Next enabled, one press leaves page 2 of 0 pages |
| PatientPage.ShrinkingListEscapes | src/pages/PatientPage.js:215-280 | through the page's handlers: 7 patients, Next to page 2, a delete whose refetch brings 6; page 2 shows no rows, Next is enabled, and one press leaves page 3 of 1 |
| PatientPage.MountWithoutViewGrant | src/pages/PatientPage.js:165-176 | with storage that withholds the view grant, the mounted page shows no patients whatever the backend would answer |
| PatientPage.EditTypeAndSave | src/pages/PatientPage.js:203-379 | editing a record, typing into any inputs and saving sends the typed form, with the record's own id |
| UserManagement.MountPlanFor | src/pages/UserManagementPage.js:153-161 | users and dropdown are fetched together, iff the first 'User Management' entry grants view |
| UserManagement.EditForm | src/pages/UserManagementPage.js:222-233 | the record's id, name, email and phone; falsy role and facility become ''; no address |
| UserManagement.EditThenSaveSendsNoAddress | src/pages/UserManagementPage.js:222-252 | an untouched edit sends the record's fields, modifier 'admin', and an undefined address |
| UserManagement.AddressShownEmptySentUndefined | src/pages/UserManagementPage.js:356-361 | after add or edit the address input shows '' while the save sends undefined |
| UserManagement.SetField | src/pages/UserManagementPage.js:344-382 | an input or dropdown sets its own field and keeps every other field, the user id included |
| UserManagement.TypingKeepsIdAndUntypedAddress | src/pages/UserManagementPage.js:344-382 | typing never alters the user id, and leaves the address as it was unless the Address input was typed into |
| UserManagement.UserManagementPage.constructor | src/pages/UserManagementPage.js:141-153 | empty lists, no selection, editor closed; the grants and the signing name parsed from storage |
| UserManagement.UserManagementPage.Mount | src/pages/UserManagementPage.js:156-161 | users, roles and facility options are settled from their replies only with the view grant, otherwise all kept |
| UserManagement.UserManagementPage.FetchUsersSettled | src/pages/UserManagementPage.js:163-170 | a resolved fetch replaces the users, a rejected one keeps them |
| UserManagement.UserManagementPage.FetchDropdownSettled | src/pages/UserManagementPage.js:172-181 | a resolved fetch sets both option lists, a rejected one keeps both |
| UserManagement.UserManagementPage.HandleAddNewUser | src/pages/UserManagementPage.js:235-239 | blank form, not editing, editor open |
| UserManagement.UserManagementPage.HandleEditUser | src/pages/UserManagementPage.js:222-233 | the form is EditForm of the record, editing, editor open |
| UserManagement.UserManagementPage.ChangeField | src/pages/UserManagementPage.js:344-382 | the open editor's form becomes SetField of the old form: one field changed, the rest kept |
| UserManagement.UserManagementPage.HandleSaveChanges | src/pages/UserManagementPage.js:241-266 | sends the form with audit tags by isEdit; the editor stays open iff the reply is not "00" |
| UserManagement.UserManagementPage.HandleDeleteUser | src/pages/UserManagementPage.js:198-220 | a confirmed delete is signed with the stored user's name and refetches iff HTTP 200 |
| UserManagement.UserManagementPage.HandleCloseModal | src/pages/UserManagementPage.js:268-271 | editor closed, selection cleared |
| UserManagement.MountWithoutViewGrant | src/pages/UserManagementPage.js:149-161 | without the view grant the mounted page has no users, no role options and no facility options |
| UserManagement.EditTypeAndSave | src/pages/UserManagementPage.js:222-382 | editing a user, typing and saving sends the typed form with the user's own id, and an undefined address unless it was typed |
| HealthWorker.MountPlanFor | src/pages/HealthWorkerPage.js:150-158 | workers are fetched iff the first 'Health Worker' entry grants view; facilities always |
| HealthWorker.EditForm | src/pages/HealthWorkerPage.js:202-214 | the record's fields; the facility taken from `healthFacilityID` with no default |
| HealthWorker.EditDropsFacilityUnderOtherSpelling | src/pages/HealthWorkerPage.js:202-211 | a record carrying only `healthFacilityId` opens with no facility and saves it as undefined |
| HealthWorker.SetField | src/pages/HealthWorkerPage.js:342-370 | an input or the dropdown sets its own field and keeps every other field, the id included |
| HealthWorker.TypingKeepsId | src/pages/HealthWorkerPage.js:342-370 | no sequence of input changes alters the form's id |
| HealthWorker.HealthWorkerPage.constructor | src/pages/HealthWorkerPage.js:140-150 | empty lists, no selection, editor closed; the grants parsed from storage |
| HealthWorker.HealthWorkerPage.Mount | src/pages/HealthWorkerPage.js:153-158 | workers are settled from their reply only with the view grant; facility options always |
| HealthWorker.HealthWorkerPage.FetchWorkersSettled | src/pages/HealthWorkerPage.js:160-167 | a resolved fetch replaces the workers, a rejected one keeps them |
| HealthWorker.HealthWorkerPage.FetchFacilitiesSettled | src/pages/HealthWorkerPage.js:169-176 | a resolved fetch replaces the facility options, a rejected one keeps them |
| HealthWorker.HealthWorkerPage.HandleAddNewWorker | src/pages/HealthWorkerPage.js:218-222 | blank form, not editing, editor open |
| HealthWorker.HealthWorkerPage.HandleEditWorker | src/pages/HealthWorkerPage.js:202-214 | the form is EditForm of the record, editing, editor open |
| HealthWorker.HealthWorkerPage.ChangeField | src/pages/HealthWorkerPage.js:342-370 | the open editor's form becomes SetField of the old form: one field changed, the rest kept |
| HealthWorker.HealthWorkerPage.HandleSaveChanges | src/pages/HealthWorkerPage.js:224-248 | sends the form with audit tags by isEdit; the editor stays open iff the reply is not "00" |
| HealthWorker.HealthWorkerPage.HandleDeleteWorker | src/pages/HealthWorkerPage.js:178-200 | a confirmed delete sends {id, '1', 'admin'} and refetches iff HTTP 200 |
| HealthWorker.HealthWorkerPage.HandleCloseModal | src/pages/HealthWorkerPage.js:250-253 | editor closed, selection cleared |
| HealthWorker.EditTypeAndSave | src/pages/HealthWorkerPage.js:202-370 | editing a worker, typing and saving sends the typed form with the worker's own id |
| HealthFacility.MountPlanFor | src/pages/HealthFacilityPage.js:135-142 | facilities are fetched iff the first 'Health Facility' entry grants view; no other fetch |
| HealthFacility.EditForm | src/pages/HealthFacilityPage.js:192-203 | all six fields of the record, unchanged |
| HealthFacility.UntouchedSaves | src/pages/HealthFacilityPage.js:192-221 | an untouched edit sends the fetched facility back with modifier 'admin'; an untouched add sends a blank one with creator 'admin' |
| HealthFacility.SetField | src/pages/HealthFacilityPage.js:317-344 | an input sets its own field and keeps every other field, the id included |
| HealthFacility.TypingKeepsId | src/pages/HealthFacilityPage.js:317-344 | no sequence of input changes alters the form's id |
| HealthFacility.HealthFacilityPage.constructor | src/pages/HealthFacilityPage.js:126-135 | empty list, no selection, editor closed; the grants parsed from storage |
| HealthFacility.HealthFacilityPage.Mount | src/pages/HealthFacilityPage.js:138-142 | facilities are settled from their reply only with the view grant, otherwise kept |
| HealthFacility.HealthFacilityPage.FetchFacilitiesSettled | src/pages/HealthFacilityPage.js:144-151 | a resolved fetch replaces the list, a rejected one keeps it |
| HealthFacility.HealthFacilityPage.HandleAddNewFacility | src/pages/HealthFacilityPage.js:205-209 | blank form, not editing, editor open |
| HealthFacility.HealthFacilityPage.HandleEditFacility | src/pages/HealthFacilityPage.js:192-203 | the form is EditForm of the record, editing, editor open |
| HealthFacility.HealthFacilityPage.ChangeField | src/pages/HealthFacilityPage.js:317-344 | the open editor's form becomes SetField of the old form: one field changed, the rest kept |
| HealthFacility.HealthFacilityPage.HandleSaveChanges | src/pages/HealthFacilityPage.js:211-236 | sends the form with audit tags by isEdit; the editor stays open iff the reply is not "00" |
| HealthFacility.HealthFacilityPage.HandleDeleteFacility | src/pages/HealthFacilityPage.js:168-190 | a confirmed delete sends {id, '1', 'admin'} and refetches iff HTTP 200 |
| HealthFacility.HealthFacilityPage.HandleCloseModal | src/pages/HealthFacilityPage.js:238-241 | editor closed, selection cleared |
| HealthFacility.EditTypeAndSave | src/pages/HealthFacilityPage.js:192-344 | editing a facility, typing and saving sends the typed form with the facility's own id |
| Session.ReadPermissions | src/pages/PatientPage.js:165 | an absent key reads as no permissions, a stored list as itself, anything else fails to parse |
| Session.ReadUserName | src/pages/UserManagementPage.js:150-151 | the stored profile's name; undefined without a profile; a parse error on the stored text "undefined" |
| Session.ReadUserId | src/pages/RoleManagementPage.js:138-140 | the stored profile's user id; undefined without a profile; fails to parse exactly when the name does |
| Session.ApplyEffect | src/pages/LoginPage.js:59-64 | a storage write changes only that key, setting the user only the user, a navigation only the location, a full load also drops the user, an alert nothing |
| Session.Browser.Perform | src/pages/DashboardPage.js:135-138 | the browser state moves by exactly ApplyEffect and the effect is appended to the trace |
| Session.AlertsLeaveStateAlone | src/pages/LoginPage.js:66-69 | alerts change neither storage, nor the user, nor the location |
| Session.Browser.constructor | src/context/AuthContext.js:9 | storage persists across loads while the context user starts out null |
| Session.Browser.Reload | src/context/AuthContext.js:9 | a reload keeps storage and location and drops the in-memory user |
| Login.StoredPermission | src/pages/LoginPage.js:59 | the stored permissions are the reply's list, or the text "undefined" when the field is absent |
| Login.LoginEffects | src/pages/LoginPage.js:52-70 | success: write 'permissions', write 'UserInfo', set the user, navigate to '/dashboard'; a 200 without "00": nothing; a rejected request: only the alert |
| Login.LoginOutcome | src/pages/LoginPage.js:58-65 | a successful login leaves both keys, the user and the dashboard location set; any other reply leaves the session state unchanged |
| Login.WritesPrecedeUserAndNavigation | src/pages/LoginPage.js:58-64 | only a successful login has two ordered effects; storage writes precede setting the user, and navigation is last |
| Login.LoginThenRead | src/pages/LoginPage.js:59-60 | after login the pages read back the reply's permission list and name, or a parse error when the list was absent |
| Login.LoginPage.constructor | src/pages/LoginPage.js:47-50 | empty email and password |
| Login.LoginPage.ChangeEmail | src/pages/LoginPage.js:76-81 | the email field holds what was typed |
| Login.LoginPage.ChangePassword | src/pages/LoginPage.js:83-88 | the password field holds what was typed |
| Login.LoginPage.HandleLogin | src/pages/LoginPage.js:52-70 | posts the typed credentials and performs exactly LoginEffects, in order |
| Guard.ProtectedRoute | src/components/ProtectedRoute.js:6-16 | the heading iff no context user, otherwise the children unchanged; no redirect alternative |
| Guard.GuardAfterLogin | src/components/ProtectedRoute.js:7-15 | a successful login lets the children through; other replies leave the guard's answer as it was |
| Guard.ReloadLosesSession | src/components/ProtectedRoute.js:7-12 | after login and reload storage still holds the profile, yet the guard refuses |
| Guard.LoginThenReload | src/components/ProtectedRoute.js:7-15 | the same on a browser object: children before the reload, the heading after, storage still set |
| Dashboard.GatedLinkIsRoute | src/pages/DashboardPage.js:106-114 | each gated activity's menu link is /dashboard/ plus the path of its registered route |
| Dashboard.RouteTableAgrees | src/pages/DashboardPage.js:106-114 | "Home" links to the index; a name has a link target iff it is "Home" or a gated activity |
| Dashboard.Viewable | src/pages/DashboardPage.js:120-121 | keeps exactly the entries whose canView is "True" |
| Dashboard.ViewableAppend | src/pages/DashboardPage.js:120-121 | the filter keeps input order: it distributes over concatenation |
| Dashboard.NoneViewable | src/pages/DashboardPage.js:120-121 | with no view grant the filter is empty |
| Dashboard.ItemFor | src/pages/DashboardPage.js:122-129 | key is the activity id, target is the route-map entry (undefined outside the map), exact-match iff "Home" |
| Dashboard.ItemsFor | src/pages/DashboardPage.js:122-130 | one link per viewable entry, in order |
| Dashboard.RenderMenuItems | src/pages/DashboardPage.js:116-130 | the placeholder iff the list is missing or empty; otherwise the links of the viewable entries |
| Dashboard.NothingViewableGivesEmptyMenu | src/pages/DashboardPage.js:116-122 | a non-empty list with nothing viewable gives an empty menu, not the placeholder |
| Dashboard.FindViewable | src/pages/DashboardPage.js:264 | none iff no entry has the name with canView "True"; otherwise such an entry |
| Dashboard.RegisteredGated | src/pages/DashboardPage.js:263-281 | exactly the routes whose activity some entry lets the user view |
| Dashboard.RoutesRegisteredIff | src/pages/DashboardPage.js:261-282 | "/" always registered; each gated route iff some entry with that name has canView "True" |
| Dashboard.MenuLinkHasRoute | src/pages/DashboardPage.js:120-130 | every menu link to a gated activity points at a route that is registered |
| Dashboard.RouteRegisteredButPageDenies | src/pages/DashboardPage.js:276-277 | with two 'Patient' entries the route and link exist while the page's first-entry lookup denies view |
| Dashboard.PatientRouteRegistered | src/pages/DashboardPage.js:276-277 | the second 'Patient' entry registers the route |
| Dashboard.PatientLinkShown | src/pages/DashboardPage.js:120-130 | the menu holds exactly the second entry's link |
| Dashboard.PatientPageDenied | src/pages/PatientPage.js:168-172 | the page's lookup takes the first entry, which withholds view |
| Dashboard.NothingRegisteredWithoutPermissions | src/pages/DashboardPage.js:263-281 | with no permissions no gated route is registered |
| Dashboard.NoPermissionsOnlyIndexRoute | src/pages/DashboardPage.js:261-282 | with no permissions only "/" is registered |
| Dashboard.DisplayName | src/pages/DashboardPage.js:233-242 | the stored name when truthy, else 'User'; never blank; fails only when storage fails to parse |
| Dashboard.Render | src/pages/DashboardPage.js:226-282 | a render fails iff a storage key fails to parse; otherwise name, menu and routes come from storage |
| Dashboard.DashboardAfterLogin | src/pages/LoginPage.js:58-64 | after login the dashboard shows the reply's name, menu and routes, or cannot render when the list was absent |
| Dashboard.HandleLogout | src/pages/DashboardPage.js:133-139 | storage cleared, then '/' loaded afresh, which drops the context user |
| Dashboard.LogoutLeavesNothing | src/pages/DashboardPage.js:133-139 | after logout: no permissions, name 'User', the placeholder menu, only "/", and the guard refuses |

## Left out

- Network calls and URLs are not modelled. Every request is a `Reply` value handed to the handler that awaits it.
- Asynchronous interleaving is not modelled: late replies, double clicks, and a fetch still pending while a handler runs. Each handler runs to completion on the reply it is given.
- Excel and CSV file generation is not modelled; only which list and headers are exported is. React rendering, styles, `window.confirm` (a boolean parameter), `alert` (a `Notice` value or `ShowAlert` effect), `console.error` and `debugger` are also left out.
- The dashboard charts are not modelled. They only map fetched fields to chart labels.
- `JSON.parse` and `JSON.stringify` are abstract. Storage holds a permission list, a profile or the text "undefined". A stored JSON `null`, or a profile under the permissions key, reads as a parse failure rather than as the object the browser would produce. The menu's `!permissions` case is kept as the `None` input of `RenderMenuItems`.
- Object keys of the role editor map are integers. JavaScript turns them into strings, which makes no difference for integer ids.
- Text length in `TruncateText` counts characters of a Dafny string, not UTF-16 code units. A non-string cell value (where `length` is undefined) is not modelled; cells are strings or absent.
- `Permission.activityName` is a string and `activityId` an integer. Other JSON shapes from the backend are not modelled.
- The profile reply keeps only the fields the console reads: the name, the user id and the permission list.
- UserManagement.UserManagementPage.HandleSaveChanges, PatientPage.PatientPage.HandleSaveChanges, HealthWorker.HealthWorkerPage.HandleSaveChanges and HealthFacility.HealthFacilityPage.HandleSaveChanges require an open editor with a form. The Save button exists only inside the open editor, and the handler would throw on a null selection.
- ActivityLog.ActivityLogPage.NextPage and ActivityLog.ActivityLogPage.PrevPage require that loading is over, because the buttons are rendered only then. ActivityLog.ActivityLogPage.FetchSettled requires a pending fetch.
- Session.Browser.Reload models the browser reload button. The console has no code for it.
- PatientPage.PatientPage.constructor, UserManagement.UserManagementPage.constructor, HealthWorker.HealthWorkerPage.constructor, HealthFacility.HealthFacilityPage.constructor and RoleManagement.RoleManagementPage.constructor require the storage keys they read to parse. Otherwise the component throws while rendering, which `Dashboard.Render` models as a parse error.
- PatientPage.PatientPage.ChangeField and the other pages' `ChangeField` require an open editor, because the inputs are rendered only inside it.
- Paging.GuardedRunStaysInRange holds the page count fixed between clicks. The Activity Log fetches its list only on mount, so its count never changes under the handlers. For a list that is refetched, `Paging.ClampedThenGuardedStaysInRange` adds the clamp the guards alone do not give.

## Findings

| source | as written | input that shows it | evidently intended | confidence | as-written member | corrected member |
|---|---|---|---|---|---|---|
| src/pages/PatientPage.js:274-280 | `handleNextPage`/`handlePrevPage` change the page by one with no bounds check; only the buttons' `disabled` conditions (`currentPage === 1`, `currentPage === totalPages`) limit them | an empty patient list: 0 pages, so Next is enabled on page 1; pressing it gives page 2, then 3, outside 1..max(1, totalPages) | guard the handlers as the Activity Log page does, so the page stays within 1..max(1, totalPages) | not executed | PatientPage.UnguardedEscapesOnEmptyList | Paging.GuardedRunStaysInRange |
| src/pages/PatientPage.js:178-185 | the refetch after a delete replaces the list but leaves `currentPage` as it was, so the page count can drop under the current page | 7 patients, Next to page 2, delete one: the refetch brings 6 (1 page), page 2 shows no rows, Next is enabled (2 is not 1) and one press gives page 3 | bring the page back into 1..max(1, totalPages) when the list arrives, then keep it there with guarded handlers | not executed | PatientPage.ShrinkingListEscapes | Paging.ClampedThenGuardedStaysInRange |
