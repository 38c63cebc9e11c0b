# Gym membership and fee reconciliation, modelled in Dafny

This project models the membership lifecycle and fee bookkeeping of a desktop gym-management
application written in Python over SQLite. The model has three layers.

- **Fee and date rules** (`utils.dfy`, from `utils.py`). These cover:
  - plan fees and durations;
  - end dates of plans and of personal-training blocks;
  - remaining days and the inclusive Active/Expired boundary;
  - the pending fee;
  - the renewal anchor `max(current_end, today) + duration`;
  - phone normalization and the phone and age validators.

  They are pure functions. Dates are integer day numbers, and "today" is a parameter.
- **The record store** (`database.dfy`, from `database.py`). `Store` is a class with one sequence
  field per table: `members`, `payments`, `personal_training` and `attendance`. Each table also has
  its AUTOINCREMENT counter.
  - Every write statement is a method whose `ensures` gives the new tables exactly. The methods
    keep `Valid()`: keys are positive, increasing and never reused, and phones are unique.
  - Every query is a function over the tables.
  - Lemmas cover the status sweep (it derives status, is idempotent, and preserves amounts), the
    counts, the collection sums and the phone lookups.
- **The decision procedures of the three screens.** These are `payment_view.dfy`,
  `attendance_view.dfy` and `members_view.dfy`, from `views/payment.py`, `views/attendance.py` and
  `views/members.py`.
  - Each handler is a method over the store. Its guard chain runs in the source's order, and the
    store writes follow in the source's order.
  - The user's answers to confirmation dialogs are boolean parameters.
  - What `int()`, `float()` and the date parser make of a text field is an `Option` parameter,
    with `None` when the conversion raises.

The central property is **fee reconciliation**. Take the sum of the members' `amount_paid` minus
the sum of all amounts in the payment ledger. That difference is unchanged by:
- recording a payment for an existing member (`PaymentView.RecordedPaymentKeepsBalance`);
- registering a member (`MembersView.AddedMemberKeepsBalance`);
- editing a member (`MembersView.EditedMemberKeepsBalance`).

## Behaviour modelled as the code has it

- **Renewing an expired membership.** The handler recomputes the pending value from the new
  payment alone. It also resets its local running total, but that total is never passed to the
  store. The store's update statement adds the amount to the old `amount_paid`. A description of
  the system that says renewal resets the amount paid therefore disagrees with the code. The model
  follows the code.
  - `PaymentView.ExpiredRenewalKeepsOldPaid` shows the consequence: when something was already
    paid, the stored pending value exceeds the fee that the stored amount paid leaves open.
- **Deleting a member does not cascade.** The schema declares `ON DELETE CASCADE`, but the
  connection never enables foreign keys. So `delete_member` removes only the member row, and the
  member's payments, trainings and attendance stay.
- **Phones are normalized twice, and normalization is not idempotent.** Normalization strips
  whitespace and then removes spaces and hyphens. The views normalize the typed phone before
  passing it to `validate_phone`, `check_phone_exists` and the lookups, and those normalize again.
  - Removing a hyphen can expose whitespace that the strip had left inside the string:
    "-\t" + digits becomes "\t" + digits (`Utils.NormalizeIsNotIdempotent`).
  - Such a phone passes validation and is stored as "\t" + digits
    (`Utils.TabbedPhoneIsAcceptedOnceNormalized`).
  - `get_member_by_phone`, `get_member_fee_details` and `check_phone_exists` never find that
    member, because all three compare the stored phone with a normalized key
    (`Database.PaddedPhoneIsNeverFound`). The `LIKE` search of the check-in screen still finds it,
    so the member can check in through the search results.
  - The uniqueness check compares the twice-normalized phone, while the UNIQUE constraint compares
    the stored phone. So the constraint can refuse a form the check let through: `save_member`
    then raises before any write. `MembersView.SaveMember` models this as
    `Rejected(StoreRejected)`, with the store unchanged. This can only happen when normalizing the
    stored phone again would change it (`MembersView.StoreRejectionNeedsUnnormalPhone`).
- **An unreachable branch.** The "personal training has expired" branch of the select-path
  check-in cannot be reached. The training query already keeps only rows that end today or later.
  `AttendanceView.DoCheckIn` keeps the branch, with a proof that it is dead.
- **A well-shaped but impossible start date.** `save_member` checks only the shape of the start
  date. The end-date computation then parses the date outside any `try`, so a date such as
  "2024-13-45" raises before anything is written. `MembersView.SaveMember` reports this as
  `Rejected(UnparsableDate)` with the store unchanged.
- **Ties and row order.** `get_active_training` orders by end date with `LIMIT 1`; among rows with
  equal end dates the model returns the first in rowid order. The three `LIMIT 1` subqueries of
  `get_member_fee_details` have no `ORDER BY`. The model has all three read the first matching row
  in rowid order.

## Model

| member | source | states |
|---|---|---|
| Utils.PlanFee | utils.py:143-147 | the price list lookup with default 1200: never below 1200, and an unknown plan costs what Monthly costs |
| Utils.MembershipFee | utils.py:132-139 | `get_membership_fee`'s own copy of the prices agrees with FEE_MAP on every plan name |
| Utils.PlanDuration | utils.py:150-154 | duration lookup with default 30: at least 30 days, unknown plans last as long as Monthly |
| Utils.EndDate | utils.py:69-83 | the if-chain end date is start + MEMBERSHIP_DURATION of the plan (30 for unknown plans) and always after the start |
| Utils.TrainingEndDate | utils.py:86-92 | a training end date is a whole number of 30-day months after the start, and not before it exactly when the months are not negative |
| Utils.RemainingDays | utils.py:95-102 | end − today when the end is today or later, 0 otherwise, so never negative |
| Utils.MembershipStatus | utils.py:164-172 | "Active" exactly when the membership is valid (end ≥ today), "Expired" exactly when it is not |
| Utils.LastDayIsStillActive | utils.py:95-110 | valid with 0 days remaining precisely on the last day; any remaining days imply Active |
| Utils.PendingFee | utils.py:157-161 | never negative, zero exactly when the payment covers the fee, fee − paid when it does not, and at most the fee for a non-negative payment |
| Utils.NewEndDate | utils.py:175-186 | the renewed end is today + duration for a lapsed membership and current end + duration otherwise, so at least both |
| Utils.RenewalReactivates | utils.py:175-186 | after a renewal the membership is Active and its remaining days grow by exactly one plan duration |
| Utils.TrimLeft | utils.py:191 | `strip`'s left half: every character it drops is whitespace, and what it keeps does not start with whitespace |
| Utils.TrimRight | utils.py:191 | `strip`'s right half: every character it drops is whitespace, and what it keeps does not end with whitespace |
| Utils.TrimLeftKeepsSuffix | utils.py:191 | what the left trim keeps is a suffix of the input |
| Utils.TrimRightKeepsPrefix | utils.py:191 | what the right trim keeps is a prefix of the input |
| Utils.Strip | utils.py:191 | `str.strip()`: never longer than its input, and neither starting nor ending with whitespace |
| Utils.Normalize | utils.py:191 | the normal form of a phone is never longer than the input and holds no space or hyphen |
| Utils.ValidatePhone | utils.py:189-192 | a phone `validate_phone` accepts has at least ten characters |
| Utils.StripIsInner | utils.py:191 | `strip` returns a contiguous piece of its input that does not start with whitespace |
| Utils.RemoveSeparators | utils.py:191 | the two `replace` calls leave no space and no hyphen, and keep every other character as often as it occurs |
| Utils.RemoveSeparatorsAppend | utils.py:191 | removing separators distributes over concatenation, so the kept characters stay in order |
| Utils.RemoveSeparatorsFixesClean | utils.py:191 | a string without spaces and hyphens is left unchanged by the `replace` calls |
| Utils.RemoveSeparatorsFixesDigits | utils.py:191 | a string of digits is left unchanged by the `replace` calls |
| Utils.StripFixesUnpadded | utils.py:191 | `strip` leaves a string alone whose ends are not whitespace |
| Utils.NormalizeFixesDigits | utils.py:189-192 | a string of digits is its own normal form |
| Utils.ValidPhoneNormalFormIsStable | utils.py:189-192 | a phone `validate_phone` accepts normalizes to a stable, still valid normal form |
| Utils.NormalizeIsNotIdempotent | utils.py:189-192 | "-\t"+digits normalizes to "\t"+digits and that normalizes to the digits |
| Utils.TabbedPhoneIsAcceptedOnceNormalized | utils.py:189-192 | `validate_phone` refuses "-\t"+ten digits but accepts its normal form, which is not all digits |
| Utils.TwiceNormalizedIsUnpadded | utils.py:189-192 | a phone normalized twice never starts with whitespace |
| Utils.IsMembershipValid | utils.py:105-110 | not counted as a contract; valid while the end date is today or later, whose consequences `Utils.MembershipStatus` and `Utils.LastDayIsStillActive` state |
| Utils.ValidateAge | utils.py:195-201 | not counted as a contract; the age text parses as an integer between 10 and 100 inclusive |
| Database.NewMember | database.py:152-161 | the inserted row has the new id and exactly the registration's columns; last payment date is empty, amount paid and pending are 0 and status is 'Active', the column defaults |
| Database.WithRegistration | database.py:167-179 | `update_member` leaves the length and every row with another id unchanged; the row with that id holds the registration and keeps its id and amount paid |
| Database.WithPayment | database.py:549-577 | `update_member_payment` leaves the length and every row with another id unchanged; the row with that id adds the amount to amount paid and takes the new pending amount |
| Database.ExpirePass | database.py:521-529 | the first UPDATE changes only the status column: rows that ended before today become 'Expired', the rest are untouched |
| Database.ActivatePass | database.py:521-529 | the second UPDATE changes only the status column: rows ending today or later become 'Active', the rest are untouched |
| Database.Reregistered | database.py:167-179 | `update_member` writes exactly the registration columns and keeps id, amount paid, pending amount, last payment date and status |
| Database.PaymentApplied | database.py:549-577 | `update_member_payment` adds the amount to amount_paid, sets pending and last payment date, and keeps id, name, phone, address, age, gender, plan, start date and fees; with an end date it sets Paid, the end date and Active; without one, 'Paid' exactly when pending is 0 and end date and status stay |
| Database.WithoutMember | database.py:182-188 | `delete_member` keeps only rows with another id, and every row with another id |
| Database.Swept | database.py:521-529 | not counted as a contract; the two UPDATEs in order, whose effect `Database.SweptRecomputesStatus` states |
| Database.TrainingEdited | database.py:273-283 | the edited training row takes the new trainer, months, fee, dates and status, and keeps its id and member |
| Database.WithTrainingEdit | database.py:273-283 | every row keeps its id and member; rows with another id are unchanged and the row with that id takes the new trainer, months, fee, start date, end date and status |
| Database.WithoutTraining | database.py:286-292 | `delete_personal_training` keeps only rows with another id, and every row with another id |
| Database.MemberById | database.py:201-208 | the found row is stored and has the id; none means no row has it |
| Database.FirstWithPhone | database.py:473-481 | the found member is stored and holds exactly that phone; none means nobody does |
| Database.MemberByPhone | database.py:473-481 | the found member is stored and holds the normalized phone; none means no member holds it |
| Database.PhoneCount | database.py:484-495 | the COUNT query is positive exactly when some member, other than the excluded id, has that phone |
| Database.PhoneTaken | database.py:484-495 | `check_phone_exists` on the normalized phone: true exactly when some member with that phone exists whose id differs from the exclusion, which is applied only when truthy |
| Database.CheckPhoneExists | database.py:484-495 | not counted as a contract; `Database.PhoneTaken` on the normalized phone, so its meaning is that function's contract |
| Database.MemberByPhoneFindsOwner | database.py:473-481 | with unique phones, the lookup returns the one member holding the normalized phone |
| Database.PhoneExistsIffFound | database.py:473-495 | without exclusion, `check_phone_exists` holds exactly when `get_member_by_phone` finds someone |
| Database.PaddedPhoneIsNeverFound | database.py:473-481 | a member whose stored phone starts with whitespace is never found with a normalized phone |
| Database.CheckInCount | database.py:408-416 | the count is zero exactly when no row has that member and date |
| Database.CheckAlreadyCheckedIn | database.py:408-416 | true exactly when some attendance row has that member and today's date |
| Database.ActiveTraining | database.py:307-319 | an Active, unexpired row of the member with maximal end date, or none when the member has no such row |
| Database.FirstActiveTraining | database.py:498-518 | the training row read by the subqueries is Active and unexpired; none exactly when there is no such row |
| Database.MemberFeeDetails | database.py:498-518 | found exactly when the phone lookup finds the member; its training columns are present exactly when `get_active_training` finds a row |
| Database.ActiveMembersCount | database.py:225-234 | at most the member count, and zero exactly when every membership ends before today |
| Database.ExpiredMembersCount | database.py:236-245 | at most the member count, and zero exactly when no membership ends before today |
| Database.AttendanceCountOn | database.py:397-405 | at most the row count, and zero exactly when no row has that date |
| Database.TodayCollections | database.py:621-631 | with non-negative amounts, today's total is non-negative and at most the total from today on, which is at most the whole ledger |
| Database.TodayWithinMonth | database.py:621-644 | with non-negative amounts, today's total is at most the total of any month window that starts on or before today |
| Database.MonthlyCollections | database.py:634-644 | with non-negative amounts, the month's total is non-negative and at most the whole ledger |
| Database.CollectedNarrows | database.py:621-644 | with non-negative amounts, a window inside another collects no more than it, and never a negative value |
| Database.ActivePlusExpiredIsTotal | database.py:225-254 | the active count plus the expired count is the total member count |
| Database.CollectedAppend | database.py:621-644 | appending a payment adds its amount to every collection window that contains its date (today's, the month's, the whole ledger) |
| Database.AttendanceCountAppend | database.py:397-405 | a new check-in raises the count of its own day by one and no other |
| Database.PaidTotalWithPayment | database.py:549-577 | with distinct ids the balance update raises the total amount paid by exactly the amount when the member exists, else not at all |
| Database.PaidTotalOfSameAmounts | database.py:549-577 | the total amount paid depends only on each row's amount_paid |
| Database.PaidTotalAppend | database.py:152-164 | an inserted row adds its amount_paid to the total |
| Database.SweptRecomputesStatus | database.py:521-529 | after the two UPDATEs every row's status is its derived status and nothing else changes |
| Database.SweptIsIdempotent | database.py:521-529 | sweeping twice is sweeping once |
| Database.SweptStatusIsDerived | database.py:521-529 | after the sweep a row is Active exactly when valid and Expired exactly when not |
| Database.SweptKeepsPaidTotal | database.py:521-529 | the sweep leaves the total amount paid unchanged |
| Database.WithoutMemberKeepsKeys | database.py:182-188 | deleting keeps keys increasing and within the counter, and phones unique |
| Database.WithoutTrainingKeepsKeys | database.py:286-292 | deleting keeps training keys increasing and within the counter |
| Database.Store.constructor | database.py:36-130 | an empty, valid store with every counter at 0 |
| Database.Store.AddMember | database.py:152-164 | refused exactly when the exact phone text is stored, with nothing changed; otherwise the new row is appended with key counter+1, larger than every existing key |
| Database.Store.UpdateMember | database.py:167-179 | refused exactly when the row exists and another member holds the new phone; otherwise the registration columns of that row are replaced |
| Database.Store.DeleteMember | database.py:182-188 | only the member rows with that id are removed; other tables are untouched |
| Database.Store.UpdateMemberPayment | database.py:549-577 | the members table becomes the balance update of the old one; validity is kept |
| Database.Store.UpdateMemberStatus | database.py:521-529 | the members table becomes the sweep of the old one |
| Database.Store.AddPayment | database.py:534-546 | exactly one payment row dated today is appended with a fresh key, which is returned |
| Database.Store.AddPersonalTraining | database.py:259-270 | one Active training row is appended with a fresh key |
| Database.Store.UpdatePersonalTraining | database.py:273-283 | the training rows with that id get the new trainer, months, fee, start date, end date and status, and the other rows are unchanged |
| Database.Store.DeletePersonalTraining | database.py:286-292 | only the training rows with that id are removed |
| Database.Store.AddAttendance | database.py:339-349 | exactly one row dated today is appended, after which the member counts as checked in today |
| PaymentView.Truncate | views/payment.py:666 | Python `int()` on a float: the integer toward zero within one of the value |
| PaymentView.Extends | views/payment.py:800 | not counted as a contract; the end date moves only when the box is ticked and the type is 'Membership' or 'Renewal', which `PaymentView.RenewedEnd` states |
| PaymentView.IsExpired | views/payment.py:425-427 | the screen's expiry test holds exactly when the end date is before today |
| PaymentView.IconFor | views/payment.py:425-450 | expired icon exactly when the membership is not valid; pending icon exactly when valid with a positive pending fee; paid icon exactly when valid with nothing pending |
| PaymentView.SuggestedAmount | views/payment.py:661-664 | a positive amount: the pending fee when the pending icon shows, otherwise the full plan fee, and never above the plan fee |
| PaymentView.SuggestedAmountClearsPending | views/payment.py:661-664 | for an active member, paying the suggestion leaves no pending fee |
| PaymentView.InitialForm | views/payment.py:635-677 | type Membership, the truncated suggestion, and extend ticked exactly when the membership has expired |
| PaymentView.OnPaymentTypeChange | views/payment.py:723-745 | nothing without a verified member; Membership/Renewal set the suggestion and tick extend; PT sets a truthy PT fee and unticks extend |
| PaymentView.RenewedEnd | views/payment.py:790-800 | an end date is passed exactly when extend is ticked and the type is Membership or Renewal; it is `calculate_new_end_date` of the old end, so at least a full period past both the old end and today |
| PaymentView.PendingAfter | views/payment.py:793-804 | never negative; zero exactly when the amount alone covers the fee on an expired renewal, and when old paid plus amount covers it otherwise |
| PaymentView.ConfirmPayment | views/payment.py:747-815 | guards in order write nothing; then payment appended with stripped notes, balance updated with the computed pending and end date, and statuses swept |
| PaymentView.RecordedRow | views/payment.py:784-815 | after the writes the member's amount paid grows by the amount, pending and payment date are set, the end date moves only on extension, and status is derived |
| PaymentView.OtherRowsUntouched | views/payment.py:784-815 | every other member only has its status recomputed |
| PaymentView.ExtensionReactivates | views/payment.py:799-815 | an extended member ends up Paid and Active with at least a full plan period left |
| PaymentView.ExpiredRenewalKeepsOldPaid | views/payment.py:793-812 | renewing an expired member who had paid before keeps the old amount paid, and stores a pending value larger than what that amount leaves open |
| PaymentView.RecordedPaymentKeepsBalance | views/payment.py:784-815 | members' total amount paid minus the ledger total is unchanged by a recorded payment for an existing member |
| AttendanceView.PendingPrompt | views/attendance.py:530-535 | not counted as a contract; the prompt appears for a 'Pending' member whose pending fee is positive, and its effect on check-in is stated by `AttendanceView.PhoneCheckInAdmits` and `AttendanceView.SelectedCheckInAdmits` |
| AttendanceView.CheckInKeepsOncePerDay | views/attendance.py:315-319 | a check-in of a member not yet checked in today keeps at most one row per member per day |
| AttendanceView.PhoneCheckIn | views/attendance.py:297-362 | an invalid phone is refused first, then an unknown one; every later outcome concerns the member found, and a check-in already made today is refused |
| AttendanceView.PhoneCheckInAdmits | views/attendance.py:297-362 | check-in by phone happens exactly when the phone is valid, the member exists, is not checked in, is not expired and any pending prompt was accepted; no trainer is recorded |
| AttendanceView.VerifyAndCheckIn | views/attendance.py:297-362 | the outcome of the guard chain; a refusal writes nothing; a check-in appends one row and keeps one row per member per day |
| AttendanceView.SelectedCheckIn | views/attendance.py:509-563 | no selection is refused first, then an expired snapshot, then a check-in already made today; a check-in is for the selected member, and without a trainer when "None" was picked |
| AttendanceView.SelectedCheckInAdmits | views/attendance.py:509-563 | a check-in from the search results happens exactly when a member is selected, unexpired, not yet checked in, any pending prompt was accepted and, for a picked trainer without active training, continuing without one was confirmed; declining the pending prompt refuses it for every trainer choice |
| AttendanceView.SelectedTrainerNeedsActiveTraining | views/attendance.py:509-563 | the chosen trainer is recorded exactly when one was chosen, the member has an active training and earlier guards pass; declining to continue without trainer happens exactly when no active training exists |
| AttendanceView.DoCheckIn | views/attendance.py:509-563 | the outcome of the guard chain; a refusal writes nothing; a check-in appends one row with the resolved trainer and keeps one row per member per day |
| AttendanceView.SearchStatusOf | views/attendance.py:384-396 | checked-in shows over expired, over stored 'Pending', over the days left |
| AttendanceView.DisabledResultsAreRefused | views/attendance.py:384-416 | Select is enabled exactly for the pending and days-left statuses; a result with Select disabled is refused by both check-in paths |
| MembersView.DateShaped | views/members.py:564 | not counted as a contract; the start-date text has ten characters with '-' at positions 4 and 7, and its place in the error order is stated by `MembersView.FormError` |
| MembersView.FormError | views/members.py:531-568 | no error exactly when every check passes; each error is reported exactly when every earlier check passed and its own failed |
| MembersView.RegistrationFrom | views/members.py:571-613 | the stored start date, plan, gender, fees and payment status are the form's; name and address are stripped; the age is the parsed age; the end date is the plan's end date for the start date, never the form field; and the phone is the normalized phone |
| MembersView.OpeningBalance | views/members.py:573-577 | a Paid member has paid the fees and owes nothing; a Pending member has paid nothing and owes the full plan fee |
| MembersView.NewMemberKeepsChosenStatus | views/members.py:617-622 | after the opening balance update the stored payment status is the chosen one, amounts are the opening balance and the rest is the registration |
| MembersView.PaymentOnNewRow | views/members.py:617-622 | updating the freshly inserted key changes only the new row |
| MembersView.AddedMemberKeepsBalance | views/members.py:602-626 | a registration raises the total amount paid by exactly what the ledger records, the fees for Paid and nothing otherwise |
| MembersView.EditedMemberKeepsBalance | views/members.py:579-629 | editing a member and sweeping leaves the total amount paid unchanged |
| MembersView.StoreRejectionNeedsUnnormalPhone | views/members.py:537-548 | a phone that passed the uniqueness check but is refused by the UNIQUE constraint is not its own normal form |
| MembersView.SaveMember | views/members.py:531-633 | the first failing check is reported with nothing written, and any rejection other than the store's is that check; an accepted form is refused by the store exactly when the UNIQUE constraint is hit, and otherwise the edit or add branch runs |
| MembersView.SaveEdit | views/members.py:579-629 | `update_member` then the sweep; payments and amounts are not touched |
| MembersView.SaveNew | views/members.py:602-629 | insert, opening balance, one Membership payment of the fees exactly for Paid members, then the sweep |
| MembersView.DeleteSelectedMember | views/members.py:636-646 | only a truthy, confirmed selection is deleted, and only its member row |
| MembersView.OnMembershipChange | views/members.py:664-679 | the fees field becomes the plan's fee and the shown end date is recomputed when the start parses |

## Left out

- Widgets, layout, colours, message boxes, the 8-result cap, and form clearing. Dialog answers are parameters.
- Image drawing, badge overlays and avatars (PIL), the webcam dialog (cv2 and timers), and photo files and paths (`update_member_photo`, `photo_path`, `created_at`).
- Login and `verify_admin`/`change_admin_password`. These depend on SHA-256 through hashlib, a foreign call.
- `init_database`: schema creation and ALTER TABLE migrations. The constructor stands in for an empty database.
- Calendar arithmetic, `strptime`/`strftime`, and the clock.
  - Dates are day numbers, and "today" and the check-in time are parameters.
  - A start date's text is represented by its parsed day number.
  - `get_member_fee_details` uses the UTC date while the rest uses the local date. That gap is not modelled; one `today` serves both.
- Floating point. Amounts are Dafny reals, so rounding, NaN and infinities from `float()` are not modelled.
- Unicode digits: `str.isdigit()` also accepts non-ASCII digits; only '0'–'9' are modelled. The `str.strip()` whitespace set is modelled in full.
- Listing, searching and ordering (`search_members` with LIKE, `get_all_*`, `ORDER BY` of the listing queries), per-member histories, `get_monthly_revenue` and `get_pending_payments`. These are read-only dashboard and listing queries that no modelled rule depends on.
- Storage failures other than the UNIQUE constraint (locked database, I/O errors), the concurrency of several connections, and exceptions raised in message formatting after the writes.
- `main.py`, `build.py`, `ui_theme.py`, `views/dashboard.py` and `views/login.py`.
- `views/training.py`: its form handling is left out; the personal-training statements it calls and `calculate_training_end_date` are modelled.
- AttendanceView.SelectedCheckIn: the member row picked from the search results is a parameter, so the model does not follow how stale that snapshot is. The phone path reads the store afresh.
