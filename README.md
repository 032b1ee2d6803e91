# SmartQ booking core in Dafny

SmartQ is a queue and appointment front end. Vendors publish working hours
and a slot length. Customers pick a vendor of a service category, choose a
free time and book it, then pay on the appointment page. An administrator
manages the vendor list. All of this state lives in the browser's store,
mostly under its "vendors" key. This project models the pages' logic:

- **Vendor dashboard**. The working-hour merge and the effective slot length.
  The slot grid for a date and the times booked on it. Selecting a slot, and
  blocking and unblocking it in the vendor's ledger.
- **Service page**. The category filter and the text search. The six fixed
  daily times minus the booked ones. Booking, which appends a confirmed
  entry to the stored ledger.
- **Appointment page**. Loading the pending booking. The demo login.
  The simulated payment, which stamps the booking and appends the paid entry
  to the ledger. The displayed price.
- **Admin dashboard**. The new-vendor form and its validation. Per-service
  statistics. Adding, pricing and removing a draft's services. Saving and
  deleting vendors. The vendor search.
- **Customer sign-up and login forms**. Field rules and messages. Change
  and blur handling. How the server's answer becomes a notice, a redirect
  and stored role data.
- **Role exclusivity**. Signing in under one role removes the other roles'
  records.

Modules follow the source files. `Records` holds the shared entities and
`Ledger` the reads and writes of a vendor's bookings. `Seqs` has a generic
filter and map. `Text` covers trim, lower-casing, substring search and the
e-mail pattern. `TimeGrid` turns working hours into slot labels. Each page
is a `class` whose fields are its state and the store keys it uses. Each
handler is a method that states the page's whole new state.

No double booking: the code never checks the ledger before appending, so
the model does not check either. `Appointments.BookThenPayRecordsTwice`
shows that booking a slot and then paying for it leaves two confirmed
entries for the same date and time.

## Model

| member | source | states |
|---|---|---|
| VendorDashboard.MergeHours | SmartQ-Frontend/src/Forms/VendorDashboard.jsx:23-33 | Every weekday has hours. Sunday is always closed. Any other day has the vendor's own hours when stored, else 09:00-18:00. |
| VendorDashboard.EffectiveDuration | SmartQ-Frontend/src/Forms/VendorDashboard.jsx:36 | The stored slot length unless it is absent or zero, then 30. The result is positive exactly when no negative length was stored. |
| VendorDashboard.Dashboard.constructor | SmartQ-Frontend/src/Forms/VendorDashboard.jsx:17-37 | Loading a stored vendor keeps it, merges its hours and picks the effective duration, with no selection. Setting the vendor runs the slot effect for today: with a positive duration the page shows today as `Shows` describes, and on an open day the booked view agrees with the ledger. |
| VendorDashboard.Dashboard.GenerateSlotsForDate | SmartQ-Frontend/src/Forms/VendorDashboard.jsx:64-96 | A day without both times shows no slots and no booked times, and keeps the selection. An open day shows the corrected grid (see Findings): the opening time plus each multiple of the slot length before closing, as "HH:MM" labels. The grid is empty exactly when opening is not before closing. The booked view is the ledger's times on that date, and the selection clears. |
| VendorDashboard.Dashboard.ChangeDate | SmartQ-Frontend/src/Forms/VendorDashboard.jsx:118-120 | The date is selected. Re-picking the selected date changes no state, so the effect does not run and the views and selection are kept. A new date is shown afresh by the slot effect. On an open day the booked view then agrees with the ledger and the selection clears. A closed day shows nothing and keeps the selection. |
| TimeGrid.GenerateSlots | SmartQ-Frontend/src/Forms/VendorDashboard.jsx:76-90 | The hour and minute loop as written produces exactly the labels of `Walk`, its step-by-step definition with a single carry into the hour. |
| TimeGrid.WalkFromOpenIsGrid | SmartQ-Frontend/src/Forms/VendorDashboard.jsx:76-90 | For slot lengths of at most 60 minutes, the loop's labels are the evenly spaced grid from opening to closing. |
| TimeGrid.WalkAgreesWithGrid | SmartQ-Frontend/src/Forms/VendorDashboard.jsx:76-90 | For slot lengths of at most 60 minutes, the loop as written and the minute-of-day grid give the same labels. |
| TimeGrid.LongStepShowsMinuteSixty | SmartQ-Frontend/src/Forms/VendorDashboard.jsx:85-89 | With hours 09:00-12:00 and 90-minute slots, the loop yields "09:00", "10:30", "11:60". The last is not a clock time; the grid has only two slots. |
| TimeGrid.GenerateGridSlots | SmartQ-Frontend/src/Forms/VendorDashboard.jsx:76-90 | The corrected loop: label k is the time opening + k * length, for every such time before closing and no other, for any positive length. Empty exactly when opening is not before closing. |
| TimeGrid.PadDigits | SmartQ-Frontend/src/Forms/VendorDashboard.jsx:81-83 | Padding a number below 100 to two characters gives its tens digit, then its units digit. |
| TimeGrid.TimeTextRoundTrip | SmartQ-Frontend/src/Forms/VendorDashboard.jsx:81-83 | The padded "HH:MM" label of a minute of the day has clock shape and reads back as the same minute. |
| TimeGrid.ClockTextIsTimeText | SmartQ-Frontend/src/Forms/VendorDashboard.jsx:81-83 | The label of an hour and a minute below 60 is the label of its minute of the day. |
| TimeGrid.GridIndexIff | SmartQ-Frontend/src/Forms/VendorDashboard.jsx:80 | The grid has a k-th slot exactly when opening + k * length is before closing. |
| TimeGrid.GridTimeAt | SmartQ-Frontend/src/Forms/VendorDashboard.jsx:80-89 | The k-th grid time is opening + k * length, and it is before closing. |
| TimeGrid.GridSlotTime | SmartQ-Frontend/src/Forms/VendorDashboard.jsx:80-89 | Every grid label has clock shape. It reads back as opening + k * length, at or after opening and before closing. |
| TimeGrid.GridSlotSpacing | SmartQ-Frontend/src/Forms/VendorDashboard.jsx:80-89 | The first label is the opening time, and consecutive labels are exactly one slot length apart. |
| Ledger.BookedTimesIff | SmartQ-Frontend/src/Forms/VendorDashboard.jsx:92-94 | A time is in the booked view of a date exactly when some ledger entry has that date and that time. |
| Ledger.BookedTimesAppend | SmartQ-Frontend/src/Forms/VendorDashboard.jsx:132-147 | Appending an entry adds its time at the end of a date's booked view exactly when the entry is on that date. |
| Ledger.AppendBookingTo | SmartQ-Frontend/src/Forms/ServicePage.jsx:88-103 | The vendor list keeps its length and order. Vendors with another id are unchanged. Each vendor with the id gets the entry at the end of its ledger. |
| VendorDashboard.Toggle | SmartQ-Frontend/src/Forms/VendorDashboard.jsx:126 | Clicking the selected slot deselects it. Clicking any other slot selects it. |
| VendorDashboard.Dashboard.SlotClick | SmartQ-Frontend/src/Forms/VendorDashboard.jsx:122-127 | A click on a booked slot changes nothing. Any other click toggles the selection. |
| VendorDashboard.Dashboard.Block | SmartQ-Frontend/src/Forms/VendorDashboard.jsx:129-149 | With no selection nothing changes. Otherwise one "Blocked by Vendor" entry is appended after the existing ones and saved, and the selection clears. The new vendor re-runs the slot effect, which shows the day afresh. On an open day whose booked view agreed with the ledger, the new view is the old one plus the slot. |
| VendorDashboard.Unblocked | SmartQ-Frontend/src/Forms/VendorDashboard.jsx:154 | Exactly the entries not at that date and time remain, in their order. |
| VendorDashboard.UnblockedAppend | SmartQ-Frontend/src/Forms/VendorDashboard.jsx:154 | The order of what remains: nothing comes from an empty ledger, and an entry added at the end stays last exactly when it is not at that date and time. |
| VendorDashboard.Dashboard.Unblock | SmartQ-Frontend/src/Forms/VendorDashboard.jsx:151-160 | The ledger loses every entry at (selected date, slot) and is saved. The new vendor re-runs the slot effect, which shows the day afresh: an open day clears the selection and a closed day keeps it. On an open day whose booked view agreed with the ledger, the new view is the old one without the slot. |
| VendorDashboard.UnblockIdempotent | SmartQ-Frontend/src/Forms/VendorDashboard.jsx:154 | Unblocking the same slot twice is unblocking it once. |
| VendorDashboard.BlockThenUnblock | SmartQ-Frontend/src/Forms/VendorDashboard.jsx:129-160 | Blocking a free slot and then unblocking it restores the ledger. |
| VendorDashboard.BookedTimesAfterUnblock | SmartQ-Frontend/src/Forms/VendorDashboard.jsx:154-159 | The booked times of the unblocked ledger are the earlier booked times without that slot. The two updates of the handler therefore agree. |
| ServicePage.CategoryFilter | SmartQ-Frontend/src/Forms/ServicePage.jsx:35-42 | The listed vendors are exactly the stored vendors offering the page's service, in stored order. An unknown path lists none. |
| ServicePage.MappedService | SmartQ-Frontend/src/Forms/ServicePage.jsx:17-36 | An unmapped path gives no service. A mapped one gives one of the fifteen category names. |
| ServicePage.CategoryFilterAppend | SmartQ-Frontend/src/Forms/ServicePage.jsx:40-42 | The order of the listed vendors: none from an empty store, and a vendor added at the end is listed last exactly when it offers the service. |
| ServicePage.ServicePageState.constructor | SmartQ-Frontend/src/Forms/ServicePage.jsx:35-51 | On mount the page maps its path to a service and lists that category's vendors, with no search and no selections. |
| ServicePage.ServicePageState.LoadVendors | SmartQ-Frontend/src/Forms/ServicePage.jsx:16-64 | The category is the service mapped from the path. The listed vendors are the stored vendors offering it, and the shown vendors are the search filter of those for the current term, as the search effect recomputes them when the list changes. |
| ServicePage.SearchFilter | SmartQ-Frontend/src/Forms/ServicePage.jsx:53-63 | A blank term shows every vendor. Any other term shows exactly the vendors whose name, location or description includes it, ignoring case, in order. |
| ServicePage.SearchFilterAppend | SmartQ-Frontend/src/Forms/ServicePage.jsx:56-61 | The order of the shown vendors for a non-blank term: none from no vendors, and a vendor added at the end is shown last exactly when it matches. |
| ServicePage.ServicePageState.Search | SmartQ-Frontend/src/Forms/ServicePage.jsx:53-64 | The shown vendors are the search filter of the listed vendors for the new term. |
| ServicePage.FreeFixedSlots | SmartQ-Frontend/src/Forms/ServicePage.jsx:71-76 | Exactly the fixed times not booked, in the fixed order. |
| ServicePage.FreeFixedSlotsInOrder | SmartQ-Frontend/src/Forms/ServicePage.jsx:71-76 | The free times are 09:00, 09:30, 10:00, 10:30, 11:00 and 11:30 in that order, each kept exactly when it is not booked. |
| ServicePage.NoFreeSlotIff | SmartQ-Frontend/src/Forms/ServicePage.jsx:76-77 | No time is free exactly when every fixed time is booked. |
| ServicePage.ClosedIsNotFree | SmartQ-Frontend/src/Forms/ServicePage.jsx:77 | The "Closed" marker can never be the list of free times itself. |
| ServicePage.AvailableTimes | SmartQ-Frontend/src/Forms/ServicePage.jsx:66-78 | "Closed" alone on a Sunday, or when every fixed time is booked on the date. Otherwise exactly the free fixed times. |
| ServicePage.OfferedSlotsAreFree | SmartQ-Frontend/src/Forms/ServicePage.jsx:72-76 | No offered time equals the time of any ledger entry on that date. |
| ServicePage.ServicePageState.SelectTime | SmartQ-Frontend/src/Forms/ServicePage.jsx:207-211 | Clicking a time records it as that vendor's selection and keeps the others. |
| ServicePage.ServicePageState.ChangeDate | SmartQ-Frontend/src/Forms/ServicePage.jsx:121-124 | A new date clears every selection. |
| ServicePage.ServicePageState.Book | SmartQ-Frontend/src/Forms/ServicePage.jsx:80-119 | A missing or "Closed" selection changes nothing. Otherwise one confirmed entry at the selected date and time goes at the end of the stored ledger of every vendor with that id, and the slot is not re-checked. The page reloads: the category and search lists are recomputed from the new store. Selections clear, and the pending booking is stored. |
| ServicePage.BookedEntry | SmartQ-Frontend/src/Forms/ServicePage.jsx:90-96 | The entry a booking writes is at the selected date and time, confirmed and unpaid. |
| ServicePage.CustomerOf | SmartQ-Frontend/src/Forms/ServicePage.jsx:94 | Never empty: the signed-in user's e-mail when there is one, otherwise "guest". |
| Appointments.FindService | SmartQ-Frontend/src/Forms/Appointments.jsx:65 | The index of the first service with the booking's service name, or -1 when none has it. |
| Appointments.DisplayedPrice | SmartQ-Frontend/src/Forms/Appointments.jsx:123 | The price of the first service with the booking's name when one exists, otherwise 0. |
| Appointments.AppointmentsPage.constructor | SmartQ-Frontend/src/Forms/Appointments.jsx:15-32 | The pending booking and the user are loaded. A payment intent with a user present opens the payment options and is consumed. An already paid booking shows success. |
| Appointments.AppointmentsPage.Login | SmartQ-Frontend/src/Forms/Appointments.jsx:34-50 | A non-empty e-mail with a password of at least six characters signs in "Demo User" and closes the form. Anything else changes nothing. |
| Appointments.AppointmentsPage.Pay | SmartQ-Frontend/src/Forms/Appointments.jsx:52-106 | Without a user, only the payment intent is stored. With a user, the booking is stamped as paid at the service's price and saved, and the paid confirmed entry goes at the end of every same-id vendor's stored ledger. An unknown service leaves the page loading with nothing else changed. |
| Appointments.PaidEntry | SmartQ-Frontend/src/Forms/Appointments.jsx:89-98 | The entry a payment writes has the booking's date, time and service, is confirmed and carries the payment. |
| Appointments.BookThenPayRecordsTwice | SmartQ-Frontend/src/Forms/Appointments.jsx:82-104 | Booking a slot and then paying for it appends two confirmed entries at the booking's date and time, one after the other, so that time appears twice more in the date's booked view. |
| Text.EmailPatternIff | SmartQ-Frontend/src/Forms/AdminDashboard.jsx:34 | The direct e-mail test accepts exactly the strings the pattern ^[^\s@]+@[^\s@]+\.[^\s@]+$ matches. |
| Text.Trim | SmartQ-Frontend/src/Forms/ServicePage.jsx:54 | A string trims to empty exactly when it is all white space. |
| Text.ContainsIff | SmartQ-Frontend/src/Forms/ServicePage.jsx:58 | `includes` holds exactly when the text occurs at some position. |
| Text.Lower | SmartQ-Frontend/src/Forms/ServicePage.jsx:58 | `toLowerCase` keeps the length, leaves no capital A-Z, moves each capital to its small letter and keeps every other character. |
| Text.LowerIdempotent | SmartQ-Frontend/src/components/UserSignupPage.jsx:102 | Lower-casing twice is lower-casing once. |
| AdminDashboard.VendorFormErrors | SmartQ-Frontend/src/Forms/AdminDashboard.jsx:36-45 | Each field has a message exactly when its rule fails, with that rule's message. The rules: a blank name; an e-mail not matching the pattern; a password under 6 characters; no services. |
| AdminDashboard.CountOffering | SmartQ-Frontend/src/Forms/AdminDashboard.jsx:63-65 | At most the number of vendors, and zero exactly when no vendor offers the service. |
| AdminDashboard.CalculateStats | SmartQ-Frontend/src/Forms/AdminDashboard.jsx:57-68 | The total is the number of vendors. Each listed service type, and no other key, maps to the number of vendors offering it. |
| AdminDashboard.AdminDashboardState.constructor | SmartQ-Frontend/src/Forms/AdminDashboard.jsx:47-50 | The stored vendors, or the bundled list when nothing is stored. The statistics describe them. |
| AdminDashboard.AdminDashboardState.SaveVendors | SmartQ-Frontend/src/Forms/AdminDashboard.jsx:52-55 | The list is shown and stored, and the statistics follow it. |
| AdminDashboard.AdminDashboardState.OpenAddVendorModal | SmartQ-Frontend/src/Forms/AdminDashboard.jsx:70-73 | An empty draft, no current service or price, and the modal open. |
| AdminDashboard.AdminDashboardState.HandleAddService | SmartQ-Frontend/src/Forms/AdminDashboard.jsx:75-78 | The service becomes current, the price is cleared and the price dialog opens. |
| AdminDashboard.AdminDashboardState.SaveServicePrice | SmartQ-Frontend/src/Forms/AdminDashboard.jsx:80-92 | A positive number appends the current service at that price. Anything else leaves the draft alone. The dialog closes either way. |
| AdminDashboard.WithoutService | SmartQ-Frontend/src/Forms/AdminDashboard.jsx:99 | Exactly the services with another name remain, in order. |
| AdminDashboard.WithoutServiceAppend | SmartQ-Frontend/src/Forms/AdminDashboard.jsx:99 | The order of what remains: a service added at the end stays last exactly when its name differs. |
| AdminDashboard.AdminDashboardState.RemoveService | SmartQ-Frontend/src/Forms/AdminDashboard.jsx:94-102 | Every draft service with that name is dropped. |
| AdminDashboard.AdminDashboardState.SaveNewVendor | SmartQ-Frontend/src/Forms/AdminDashboard.jsx:104-114 | An invalid draft only shows its errors. A valid one is appended as a vendor with no bookings and stored; the statistics follow, the modal closes and the errors clear. |
| AdminDashboard.WithoutVendor | SmartQ-Frontend/src/Forms/AdminDashboard.jsx:119 | Exactly the vendors with another id remain, in order. |
| AdminDashboard.WithoutVendorAppend | SmartQ-Frontend/src/Forms/AdminDashboard.jsx:119 | The order of what remains: a vendor added at the end stays last exactly when its id differs. |
| AdminDashboard.AdminDashboardState.DeleteVendor | SmartQ-Frontend/src/Forms/AdminDashboard.jsx:116-121 | Without confirmation nothing changes. Otherwise every vendor with that id is removed, the list is stored, and the statistics follow. |
| AdminDashboard.AdminFiltered | SmartQ-Frontend/src/Forms/AdminDashboard.jsx:123-127 | Exactly the vendors whose name, e-mail or a service name includes the term, ignoring case, in order. |
| AdminDashboard.AdminFilteredEmptyTerm | SmartQ-Frontend/src/Forms/AdminDashboard.jsx:123-127 | An empty search lists every vendor. |
| AdminDashboard.AdminFilteredAppend | SmartQ-Frontend/src/Forms/AdminDashboard.jsx:123-127 | The order of the results: a vendor added at the end is listed last exactly when it matches the term. |
| UserSignup.With | SmartQ-Frontend/src/components/UserSignupPage.jsx:35 | The edited field takes the value and every other field keeps its own. |
| UserSignup.UsernameMessage | SmartQ-Frontend/src/components/UserSignupPage.jsx:44-48 | A message exactly when the name is blank or shorter than 3. "Required" exactly when blank. |
| UserSignup.EmailMessage | SmartQ-Frontend/src/components/UserSignupPage.jsx:49-53 | A message exactly when the e-mail is blank or fails the pattern. "Required" exactly when blank. |
| UserSignup.PasswordMessage | SmartQ-Frontend/src/components/UserSignupPage.jsx:54-58 | A message exactly when the password is shorter than 8. "Required" exactly when empty. |
| UserSignup.ConfirmMessage | SmartQ-Frontend/src/components/UserSignupPage.jsx:59-63 | A message exactly when the confirmation is empty or differs. "Please confirm" exactly when empty. |
| UserSignup.SignupErrors | SmartQ-Frontend/src/components/UserSignupPage.jsx:42-65 | A key exactly for each failing field, holding that field's message. |
| UserSignup.SignupValidIff | SmartQ-Frontend/src/components/UserSignupPage.jsx:42-66 | The form passes exactly when every rule holds: a non-blank name of at least 3, a non-blank e-mail matching the pattern, a password of at least 8, and an equal confirmation. |
| UserSignup.ErrorText | SmartQ-Frontend/src/components/UserSignupPage.jsx:97-102 | The message tested is never empty and already lower case. Without a body it is "user already exists". |
| UserSignup.Classify | SmartQ-Frontend/src/components/UserSignupPage.jsx:96-124 | A 409 whose lower-cased message mentions "email" means e-mail taken; else one mentioning "username" means name taken; else account exists. 400 means invalid input, and any other status means failure with its status text. No response means a network error, and anything else is unexpected. |
| UserSignup.RedirectAfter | SmartQ-Frontend/src/components/UserSignupPage.jsx:89-113 | The page navigates only after success, e-mail taken or account exists. |
| UserSignup.ConflictErrors | SmartQ-Frontend/src/components/UserSignupPage.jsx:106-110 | E-mail taken adds the e-mail message, name taken adds the username message, and any other notice adds nothing. |
| UserSignup.SignupPage.constructor | SmartQ-Frontend/src/components/UserSignupPage.jsx:10-17 | An empty form with no messages and no touched fields. |
| UserSignup.SignupPage.Change | SmartQ-Frontend/src/components/UserSignupPage.jsx:33-40 | The field takes the value and is touched. Its message is cleared and the others are kept. |
| UserSignup.SignupPage.Blur | SmartQ-Frontend/src/components/UserSignupPage.jsx:68-72 | The field is touched and the whole form is revalidated. |
| UserSignup.SignupPage.Validate | SmartQ-Frontend/src/components/UserSignupPage.jsx:42-66 | The messages are stored, and the result is true exactly when there are none. |
| UserSignup.SignupPage.Submit | SmartQ-Frontend/src/components/UserSignupPage.jsx:74-128 | An invalid form sends nothing. A created user is stored under "userData". A rejection gives the classified notice and redirect. A conflict shows only its own message, which is the corrected behaviour (see Findings). |
| UserSignup.StaleMessageAfterConflict | SmartQ-Frontend/src/components/UserSignupPage.jsx:106 | A form with matching passwords passes validation. An e-mail conflict still shows an earlier "Passwords do not match". |
| UserSignup.CorrectedConflictErrors | SmartQ-Frontend/src/components/UserSignupPage.jsx:106-110 | For a valid form, a conflict shows only its own message: the e-mail or the username one. |
| UserLogin.With | SmartQ-Frontend/src/components/UserLoginPage.jsx:34 | The edited field takes the value and the other keeps its own. |
| UserLogin.LoginErrors | SmartQ-Frontend/src/components/UserLoginPage.jsx:45-62 | A key exactly for each failing field, holding that field's message. |
| UserLogin.LoginMessages | SmartQ-Frontend/src/components/UserLoginPage.jsx:45-61 | The e-mail fails exactly when blank or not matching the pattern, and the password exactly when shorter than 8. "Required" exactly for a blank or empty entry. The form passes exactly when both rules hold. |
| UserLogin.StatusNotice | SmartQ-Frontend/src/components/UserLoginPage.jsx:99-108 | 401 means invalid credentials, 404 account not found, 403 not verified, and every other status a general failure. |
| UserLogin.RedirectAfter | SmartQ-Frontend/src/components/UserLoginPage.jsx:88-103 | Success goes home and "account not found" goes to sign-up. Nothing else navigates. |
| UserLogin.LoginLeavesOnlyCustomerRole | SmartQ-Frontend/src/components/UserLoginPage.jsx:83-87 | After login the store has the customer's record and neither the vendor's nor the admin's. Non-role keys are untouched. |
| UserLogin.LoginPage.constructor | SmartQ-Frontend/src/components/UserLoginPage.jsx:11-16 | An empty form with no messages and no touched fields. |
| UserLogin.LoginPage.Change | SmartQ-Frontend/src/components/UserLoginPage.jsx:32-43 | The field takes the value and is touched. Its message is cleared and the other is kept. |
| UserLogin.LoginPage.Blur | SmartQ-Frontend/src/components/UserLoginPage.jsx:64-68 | The field is touched and the whole form is revalidated. |
| UserLogin.LoginPage.Validate | SmartQ-Frontend/src/components/UserLoginPage.jsx:45-62 | The messages are stored, and the result is true exactly when there are none. |
| UserLogin.LoginPage.Login | SmartQ-Frontend/src/components/UserLoginPage.jsx:70-115 | An invalid form sends nothing. An answer with a user clears the other roles, stores "userData" and welcomes. An answer without one reports an invalid response. A refusal maps its status, and no answer is a network error. The store changes only on success. |
| UserLogin.LoginPage.ForgotPassword | SmartQ-Frontend/src/components/UserLoginPage.jsx:161-167 | Nothing is carried exactly when the e-mail is empty. Otherwise the e-mail is carried to the reset page. |
| RoleUtils.WithoutOtherRoles | SmartQ-Frontend/src/Forms/roleUtils.js:1-8 | The other role keys are gone, the current role's record and every non-role key are kept, and nothing is added. |
| RoleUtils.ClearIdempotent | SmartQ-Frontend/src/Forms/roleUtils.js:1-8 | Clearing the other roles twice is clearing them once. |
| RoleUtils.RoleStore.constructor | SmartQ-Frontend/src/Forms/roleUtils.js:1-8 | The store starts with the given entries. |
| RoleUtils.RoleStore.SetItem | SmartQ-Frontend/src/components/UserLoginPage.jsx:84-87 | The key takes the value and every other entry is unchanged. |
| RoleUtils.RoleStore.ClearOtherRoles | SmartQ-Frontend/src/Forms/roleUtils.js:1-8 | Removing the other roles one key at a time leaves exactly `WithoutOtherRoles` of the old store. |

## Left out

- Dates: the weekday of a date comes from date-fns and the local time zone. It is an input here, and the 14-day date picker is not modelled.
- Hours in stored vendor data are "HH:MM" strings. The model takes them already split into an hour and a minute. A missing or empty opening or closing time is `None`.
- `toLowerCase` is modelled on the ASCII letters A-Z only. `trim` and `\s` use JavaScript's white-space set.
- Length rules (3 for a name, 6 and 8 for passwords) count characters. JavaScript's `.length` counts UTF-16 code units, so a character outside the Basic Multilingual Plane counts twice in the source and once here.
- The browser store and JSON are fields of the page classes holding the parsed values. Malformed JSON is not modelled.
- Appointments.AppointmentsPage.Pay: the stored vendor list is read with `JSON.parse(... || [])`, which throws when the key is absent. The model starts from the empty list instead; when no vendor matches, the list stored afterwards is the same.
- Appointments.AppointmentsPage.Pay: the price lookup on an unknown service throws inside the timer callback. The model keeps the page loading and changes nothing else. The two-second timer is taken as already fired, and the random payment id is a parameter.
- AdminDashboard.AdminDashboardState.SaveNewVendor: the `Date.now()` id is a parameter. The `createdAt` timestamp is not modelled.
- AdminDashboard.AdminDashboardState.SaveServicePrice: `parseFloat` on the price text is not modelled. The method takes the parsed number, or `None` for NaN.
- AdminDashboard.AdminDashboardState.DeleteVendor: the confirmation dialog's answer is a parameter.
- The admin and vendor redirects on mount, the vendor page's back-button guard and logout, toasts, alerts and navigation timers are not modelled. Where a handler navigates, the target is returned.
- The login and sign-up requests go to a server that is not part of this model. Its answer is an input (`LoginReply`, `SignupReply`), and the stored record is an opaque string.
- Google sign-in on both forms and the "already logged in" redirect on mount are not modelled.
- UserSignup.SignupPage.Change and UserLogin.LoginPage.Change: the page sets a cleared message to `null` rather than deleting the key. Both show nothing, and validation rebuilds the messages from scratch, so the model deletes the key.
- VendorDashboard.Dashboard.GenerateSlotsForDate requires a positive slot length. With a negative stored length, and opening before closing, the source loop never ends, so that case is not modelled; `EffectiveDuration` states when the length is negative.
- VendorDashboard.Dashboard.GenerateSlotsForDate shows the corrected minute-of-day grid, not the loop as written. The two agree for slot lengths up to 60 minutes (`TimeGrid.WalkAgreesWithGrid`). For longer slots the page as written shows labels such as "11:60" (`TimeGrid.GenerateSlots`, `TimeGrid.LongStepShowsMinuteSixty`); this is not promised of the dashboard.
- UserSignup.SignupPage.Submit stores the corrected messages after a conflict: the fresh validation plus the conflict's own message. As written, the page adds the conflict's message to the messages from before this submit, so a cleared message can come back (`UserSignup.StaleMessageAfterConflict`); that is not promised of Submit.
- TimeGrid.TimeTextRoundTrip and TimeGrid.GridSlotTime are stated for times before 100:00, where the hour has two digits.
- React's batching of state updates, re-renders and the effects' timing are not modelled. Each handler runs as one step, followed by the effects that its state changes re-run: on the vendor dashboard, loading or saving the vendor and picking a different date re-run the slot effect, while re-picking the selected date runs nothing; on the service page, a new vendor list or search term re-runs the search effect. Other effect orderings are not modelled.

## Findings

| source | as written | input that shows it | evidently intended | confidence | as-written member | corrected member |
|---|---|---|---|---|---|---|
| SmartQ-Frontend/src/Forms/VendorDashboard.jsx:85-89 | The minute advances by the slot length and carries at most one hour, so any slot length over 60 leaves minute values of 60 or more. | Hours 09:00-12:00 with a stored slot length of 90 give "09:00", "10:30", "11:60". | Slots at opening + k * length before closing: "09:00", "10:30". | not executed | TimeGrid.LongStepShowsMinuteSixty | TimeGrid.GenerateGridSlots |
| SmartQ-Frontend/src/components/UserSignupPage.jsx:106-110 | A conflict's message is added to the `errors` the handler captured before validating, so messages cleared by this submit's validation come back. | An earlier "Passwords do not match", then matching passwords and a 409 "email exists": the mismatch message is shown again. | The freshly validated messages (none) plus the conflict's own message. | not executed | UserSignup.StaleMessageAfterConflict | UserSignup.CorrectedConflictErrors |
