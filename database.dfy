/**
 * The record store (database.py): the four tables `members`, `payments`,
 * `personal_training` and `attendance`, each a sequence of rows in rowid order, with the
 * AUTOINCREMENT counters SQLite keeps in `sqlite_sequence`. Every write statement is a method
 * of `Store`; every query is a function over the tables.
 */
module Database {
  import opened Wrappers
  import opened Utils

  /** A row of `members` (photo_path and created_at are not modelled). */
  datatype Member = Member(
    id: nat,
    name: string,
    phone: string,
    address: string,
    age: int,
    gender: string,
    plan: string,              // membership_type
    startDate: Day,
    endDate: Day,
    fees: real,
    paymentStatus: string,     // 'Paid' or 'Pending'
    lastPaymentDate: Option<Day>,
    amountPaid: real,
    pendingAmount: real,
    status: string)            // 'Active' or 'Expired'

  /** A row of `payments`. */
  datatype Payment = Payment(id: nat, memberId: nat, phone: string, amount: real, date: Day,
                             kind: string, notes: string)

  /** A row of `personal_training`. */
  datatype Training = Training(id: nat, memberId: nat, trainer: string, months: int, fee: real,
                               startDate: Day, endDate: Day, status: string)

  /** A row of `attendance`; `time` is the check-in time of day in seconds. */
  datatype Attendance = Attendance(id: nat, memberId: nat, time: nat, date: Day,
                                   trainer: Option<string>)

  /** The columns `add_member` and `update_member` write. */
  datatype Registration = Registration(
    name: string, phone: string, address: string, age: int, gender: string, plan: string,
    startDate: Day, endDate: Day, fees: real, paymentStatus: string)

  /** The one constraint violation the schema can raise: `phone TEXT NOT NULL UNIQUE`. */
  datatype StoreError = DuplicatePhone

  /** Python truthiness of an optional row id (`if exclude_member_id:`). */
  predicate Truthy(id: Option<nat>)
  {
    id.Some? && id.value != 0
  }

  // ---------------------------------------------------------------------------------------
  // Table invariants

  /** Keys are positive, at most the AUTOINCREMENT counter, and increase in rowid order. */
  ghost predicate MemberKeys(ms: seq<Member>, last: nat)
  {
    && (forall i :: 0 <= i < |ms| ==> 1 <= ms[i].id <= last)
    && (forall i, j :: 0 <= i < j < |ms| ==> ms[i].id < ms[j].id)
  }

  ghost predicate PaymentKeys(ps: seq<Payment>, last: nat)
  {
    && (forall i :: 0 <= i < |ps| ==> 1 <= ps[i].id <= last)
    && (forall i, j :: 0 <= i < j < |ps| ==> ps[i].id < ps[j].id)
  }

  ghost predicate TrainingKeys(ts: seq<Training>, last: nat)
  {
    && (forall i :: 0 <= i < |ts| ==> 1 <= ts[i].id <= last)
    && (forall i, j :: 0 <= i < j < |ts| ==> ts[i].id < ts[j].id)
  }

  ghost predicate AttendanceKeys(rows: seq<Attendance>, last: nat)
  {
    && (forall i :: 0 <= i < |rows| ==> 1 <= rows[i].id <= last)
    && (forall i, j :: 0 <= i < j < |rows| ==> rows[i].id < rows[j].id)
  }

  /** The UNIQUE constraint on `members.phone`. */
  ghost predicate UniquePhones(ms: seq<Member>)
  {
    forall i, j :: 0 <= i < j < |ms| ==> ms[i].phone != ms[j].phone
  }

  // ---------------------------------------------------------------------------------------
  // Rows as the write statements leave them

  /** The row `add_member` inserts: the column defaults fill what it does not name. */
  function NewMember(id: nat, reg: Registration): (m: Member)
    ensures m.id == id && RegistrationOf(m) == reg
    ensures m.lastPaymentDate.None? && m.amountPaid == 0.0 && m.pendingAmount == 0.0 && m.status == "Active"
  {
    Member(id, reg.name, reg.phone, reg.address, reg.age, reg.gender, reg.plan, reg.startDate,
           reg.endDate, reg.fees, reg.paymentStatus, None, 0.0, 0.0, "Active")
  }

  /** The columns of a row that `add_member` and `update_member` write. */
  function RegistrationOf(m: Member): Registration
  {
    Registration(m.name, m.phone, m.address, m.age, m.gender, m.plan, m.startDate, m.endDate,
                 m.fees, m.paymentStatus)
  }

  /** The row after `update_member`. */
  function Reregistered(m: Member, reg: Registration): (r: Member)
    ensures RegistrationOf(r) == reg && r.id == m.id
    ensures r.amountPaid == m.amountPaid && r.pendingAmount == m.pendingAmount
    ensures r.lastPaymentDate == m.lastPaymentDate && r.status == m.status
  {
    m.(name := reg.name, phone := reg.phone, address := reg.address, age := reg.age,
       gender := reg.gender, plan := reg.plan, startDate := reg.startDate, endDate := reg.endDate,
       fees := reg.fees, paymentStatus := reg.paymentStatus)
  }

  /** The row after `update_member_payment`, with or without a new end date. */
  function PaymentApplied(m: Member, amount: real, pending: real, newEnd: Option<Day>, today: Day)
    : (r: Member)
    ensures r.id == m.id && r.phone == m.phone && r.plan == m.plan && r.name == m.name
    ensures r.startDate == m.startDate && r.fees == m.fees
    ensures r.address == m.address && r.age == m.age && r.gender == m.gender
    ensures r.amountPaid - m.amountPaid == amount
    ensures r.pendingAmount == pending && r.lastPaymentDate == Some(today)
    ensures r.paymentStatus == "Paid" <==> newEnd.Some? || pending == 0.0
    ensures r.paymentStatus == "Paid" || r.paymentStatus == "Pending"
    ensures newEnd.Some? ==> r.endDate == newEnd.value && r.status == "Active"
    ensures newEnd.None? ==> r.endDate == m.endDate && r.status == m.status
  {
    match newEnd
    case Some(end) =>
      m.(amountPaid := m.amountPaid + amount, pendingAmount := pending,
         lastPaymentDate := Some(today), paymentStatus := "Paid", endDate := end,
         status := "Active")
    case None =>
      m.(amountPaid := m.amountPaid + amount, pendingAmount := pending,
         lastPaymentDate := Some(today),
         paymentStatus := if pending == 0.0 then "Paid" else "Pending")
  }

  /** `UPDATE members SET name=?, ... WHERE id=?`. */
  function WithRegistration(ms: seq<Member>, id: nat, reg: Registration): (r: seq<Member>)
    ensures |r| == |ms|
    ensures forall i :: 0 <= i < |ms| && ms[i].id != id ==> r[i] == ms[i]
    ensures forall i :: 0 <= i < |ms| && ms[i].id == id ==>
      RegistrationOf(r[i]) == reg && r[i].id == id && r[i].amountPaid == ms[i].amountPaid
  {
    seq(|ms|, i requires 0 <= i < |ms| => if ms[i].id == id then Reregistered(ms[i], reg) else ms[i])
  }

  /** `UPDATE members SET amount_paid = amount_paid + ?, ... WHERE id = ?`. */
  function WithPayment(ms: seq<Member>, id: nat, amount: real, pending: real, newEnd: Option<Day>,
                       today: Day): (r: seq<Member>)
    ensures |r| == |ms|
    ensures forall i :: 0 <= i < |ms| && ms[i].id != id ==> r[i] == ms[i]
    ensures forall i :: 0 <= i < |ms| && ms[i].id == id ==>
      r[i].id == id && r[i].amountPaid == ms[i].amountPaid + amount && r[i].pendingAmount == pending
  {
    seq(|ms|, i requires 0 <= i < |ms| =>
      if ms[i].id == id then PaymentApplied(ms[i], amount, pending, newEnd, today) else ms[i])
  }

  /** `DELETE FROM members WHERE id=?`: no cascade, the other tables keep their rows. */
  function WithoutMember(ms: seq<Member>, id: nat): (r: seq<Member>)
    ensures |r| <= |ms|
    ensures forall i :: 0 <= i < |r| ==> r[i] in ms && r[i].id != id
    ensures forall i :: 0 <= i < |ms| && ms[i].id != id ==> ms[i] in r
  {
    if ms == [] then []
    else (if ms[0].id == id then [] else [ms[0]]) + WithoutMember(ms[1..], id)
  }

  /** `UPDATE members SET status='Expired' WHERE end_date < ?`. */
  function ExpirePass(ms: seq<Member>, today: Day): (r: seq<Member>)
    ensures |r| == |ms|
    ensures forall i :: 0 <= i < |ms| ==> r[i].(status := ms[i].status) == ms[i]
    ensures forall i :: 0 <= i < |ms| ==> (ms[i].endDate < today ==> r[i].status == "Expired")
                                           && (ms[i].endDate >= today ==> r[i] == ms[i])
  {
    seq(|ms|, i requires 0 <= i < |ms| =>
      if ms[i].endDate < today then ms[i].(status := "Expired") else ms[i])
  }

  /** `UPDATE members SET status='Active' WHERE end_date >= ?`. */
  function ActivatePass(ms: seq<Member>, today: Day): (r: seq<Member>)
    ensures |r| == |ms|
    ensures forall i :: 0 <= i < |ms| ==> r[i].(status := ms[i].status) == ms[i]
    ensures forall i :: 0 <= i < |ms| ==> (ms[i].endDate >= today ==> r[i].status == "Active")
                                           && (ms[i].endDate < today ==> r[i] == ms[i])
  {
    seq(|ms|, i requires 0 <= i < |ms| =>
      if ms[i].endDate >= today then ms[i].(status := "Active") else ms[i])
  }

  /** `update_member_status`: the two statements, in order. */
  function Swept(ms: seq<Member>, today: Day): seq<Member>
  {
    ActivatePass(ExpirePass(ms, today), today)
  }

  /** The row after `update_personal_training`. */
  function TrainingEdited(t: Training, trainer: string, months: int, fee: real, start: Day,
                          end: Day, status: string): (r: Training)
    ensures r.id == t.id && r.memberId == t.memberId
    ensures r.trainer == trainer && r.months == months && r.fee == fee
    ensures r.startDate == start && r.endDate == end && r.status == status
  {
    t.(trainer := trainer, months := months, fee := fee, startDate := start, endDate := end,
       status := status)
  }

  /** `UPDATE personal_training SET ... WHERE id=?`. */
  function WithTrainingEdit(ts: seq<Training>, id: nat, trainer: string, months: int, fee: real,
                            start: Day, end: Day, status: string): (r: seq<Training>)
    ensures |r| == |ts|
    ensures forall i :: 0 <= i < |ts| ==> r[i].id == ts[i].id && r[i].memberId == ts[i].memberId
    ensures forall i :: 0 <= i < |ts| && ts[i].id != id ==> r[i] == ts[i]
    ensures forall i :: 0 <= i < |ts| && ts[i].id == id ==>
      && r[i].trainer == trainer && r[i].months == months && r[i].fee == fee
      && r[i].startDate == start && r[i].endDate == end && r[i].status == status
  {
    seq(|ts|, i requires 0 <= i < |ts| =>
      if ts[i].id == id then TrainingEdited(ts[i], trainer, months, fee, start, end, status) else ts[i])
  }

  /** `DELETE FROM personal_training WHERE id=?`. */
  function WithoutTraining(ts: seq<Training>, id: nat): (r: seq<Training>)
    ensures |r| <= |ts|
    ensures forall i :: 0 <= i < |r| ==> r[i] in ts && r[i].id != id
    ensures forall i :: 0 <= i < |ts| && ts[i].id != id ==> ts[i] in r
  {
    if ts == [] then []
    else (if ts[0].id == id then [] else [ts[0]]) + WithoutTraining(ts[1..], id)
  }

  // ---------------------------------------------------------------------------------------
  // Queries

  /** `get_member_by_id`. */
  function MemberById(ms: seq<Member>, id: nat): (r: Option<Member>)
    ensures r.Some? ==> r.value in ms && r.value.id == id
    ensures r.None? ==> forall i :: 0 <= i < |ms| ==> ms[i].id != id
  {
    if ms == [] then None
    else if ms[0].id == id then Some(ms[0])
    else MemberById(ms[1..], id)
  }

  /** The first member, in rowid order, whose stored phone is exactly `p`. */
  function FirstWithPhone(ms: seq<Member>, p: string): (r: Option<Member>)
    ensures r.Some? ==> r.value in ms && r.value.phone == p
    ensures r.None? ==> forall i :: 0 <= i < |ms| ==> ms[i].phone != p
  {
    if ms == [] then None
    else if ms[0].phone == p then Some(ms[0])
    else FirstWithPhone(ms[1..], p)
  }

  /** `get_member_by_phone`: the lookup key is the normalized phone. */
  function MemberByPhone(ms: seq<Member>, phone: string): (r: Option<Member>)
    ensures r.Some? ==> r.value in ms && r.value.phone == Normalize(phone)
    ensures r.None? ==> forall i :: 0 <= i < |ms| ==> ms[i].phone != Normalize(phone)
  {
    FirstWithPhone(ms, Normalize(phone))
  }

  /** `SELECT COUNT(*) FROM members WHERE phone=? [AND id!=?]`. */
  function PhoneCount(ms: seq<Member>, p: string, exclude: Option<nat>): (n: nat)
    ensures n <= |ms|
    ensures n > 0 <==> exists i :: 0 <= i < |ms| && ms[i].phone == p
                                   && (exclude.Some? ==> ms[i].id != exclude.value)
  {
    if ms == [] then 0
    else
      var rest := PhoneCount(ms[1..], p, exclude);
      assert forall i :: 1 <= i < |ms| ==> ms[i] == ms[1..][i - 1];
      if ms[0].phone == p && (exclude.Some? ==> ms[0].id != exclude.value) then rest + 1 else rest
  }

  /** Whether a member other than a truthy `exclude` holds the stored phone `p`. */
  function PhoneTaken(ms: seq<Member>, p: string, exclude: Option<nat>): (r: bool)
    ensures r <==> exists i :: 0 <= i < |ms| && ms[i].phone == p
                               && (Truthy(exclude) ==> ms[i].id != exclude.value)
  {
    PhoneCount(ms, p, if Truthy(exclude) then exclude else None) > 0
  }

  /** `check_phone_exists`: the phone is normalized, and the exclusion applies only when truthy. */
  function CheckPhoneExists(ms: seq<Member>, phone: string, exclude: Option<nat>): bool
  {
    PhoneTaken(ms, Normalize(phone), exclude)
  }

  /** `SELECT COUNT(*) FROM attendance WHERE member_id=? AND date=?`. */
  function CheckInCount(rows: seq<Attendance>, memberId: nat, day: Day): (n: nat)
    ensures n <= |rows|
    ensures n == 0 <==> forall i :: 0 <= i < |rows| ==> !(rows[i].memberId == memberId && rows[i].date == day)
  {
    if rows == [] then 0
    else
      var rest := CheckInCount(rows[1..], memberId, day);
      assert forall i :: 1 <= i < |rows| ==> rows[i] == rows[1..][i - 1];
      if rows[0].memberId == memberId && rows[0].date == day then rest + 1 else rest
  }

  /** `check_already_checked_in`. */
  predicate CheckAlreadyCheckedIn(rows: seq<Attendance>, memberId: nat, today: Day): (b: bool)
    ensures b <==> exists i :: 0 <= i < |rows| && rows[i].memberId == memberId && rows[i].date == today
  {
    CheckInCount(rows, memberId, today) > 0
  }

  /** The rows `get_active_training` selects from. */
  predicate ActiveTrainingOf(t: Training, memberId: nat, today: Day)
  {
    t.memberId == memberId && t.endDate >= today && t.status == "Active"
  }

  /**
   * `get_active_training`: among the member's Active rows that have not ended,
   * one with the latest end date (ORDER BY end_date DESC LIMIT 1).
   */
  function ActiveTraining(ts: seq<Training>, memberId: nat, today: Day): (r: Option<Training>)
    ensures r.Some? ==> r.value in ts && ActiveTrainingOf(r.value, memberId, today)
    ensures r.Some? ==> forall t :: t in ts && ActiveTrainingOf(t, memberId, today) ==> t.endDate <= r.value.endDate
    ensures r.None? ==> forall t :: t in ts ==> !ActiveTrainingOf(t, memberId, today)
  {
    if ts == [] then None
    else
      var rest := ActiveTraining(ts[1..], memberId, today);
      if ActiveTrainingOf(ts[0], memberId, today) && (rest.None? || rest.value.endDate <= ts[0].endDate)
      then Some(ts[0])
      else rest
  }

  /** The first row, in rowid order, that the `LIMIT 1` subqueries of `get_member_fee_details` read. */
  function FirstActiveTraining(ts: seq<Training>, memberId: nat, today: Day): (r: Option<Training>)
    ensures r.Some? ==> r.value in ts && ActiveTrainingOf(r.value, memberId, today)
    ensures r.None? <==> forall t :: t in ts ==> !ActiveTrainingOf(t, memberId, today)
  {
    if ts == [] then None
    else if ActiveTrainingOf(ts[0], memberId, today) then Some(ts[0])
    else FirstActiveTraining(ts[1..], memberId, today)
  }

  /** A member row together with the columns `current_trainer`, `pt_fee` and `pt_end_date`. */
  datatype FeeDetails = FeeDetails(member: Member, training: Option<Training>)

  /** `get_member_fee_details`: the member looked up by normalized phone, with its training columns. */
  function MemberFeeDetails(ms: seq<Member>, ts: seq<Training>, phone: string, today: Day)
    : (r: Option<FeeDetails>)
    ensures r.None? <==> MemberByPhone(ms, phone).None?
    ensures r.Some? ==> r.value.member in ms && r.value.member.phone == Normalize(phone)
    ensures r.Some? ==> (r.value.training.Some? <==> ActiveTraining(ts, r.value.member.id, today).Some?)
    ensures r.Some? && r.value.training.Some? ==>
      r.value.training.value in ts && ActiveTrainingOf(r.value.training.value, r.value.member.id, today)
  {
    match MemberByPhone(ms, phone)
    case None => None
    case Some(m) => Some(FeeDetails(m, FirstActiveTraining(ts, m.id, today)))
  }

  /** `get_active_members_count`. */
  function ActiveMembersCount(ms: seq<Member>, today: Day): (n: nat)
    ensures n <= |ms|
    ensures n == 0 <==> forall i :: 0 <= i < |ms| ==> ms[i].endDate < today
  {
    if ms == [] then 0
    else (if ms[0].endDate >= today then 1 else 0) + ActiveMembersCount(ms[1..], today)
  }

  /** `get_expired_members_count`. */
  function ExpiredMembersCount(ms: seq<Member>, today: Day): (n: nat)
    ensures n <= |ms|
    ensures n == 0 <==> forall i :: 0 <= i < |ms| ==> ms[i].endDate >= today
  {
    if ms == [] then 0
    else (if ms[0].endDate < today then 1 else 0) + ExpiredMembersCount(ms[1..], today)
  }

  /** Every member is counted as exactly one of active and expired (`get_total_members_count`). */
  lemma {:induction false} ActivePlusExpiredIsTotal(ms: seq<Member>, today: Day)
    ensures ActiveMembersCount(ms, today) + ExpiredMembersCount(ms, today) == |ms|
  {
    if ms != [] {
      ActivePlusExpiredIsTotal(ms[1..], today);
    }
  }

  /** `get_today_attendance_count`. */
  function AttendanceCountOn(rows: seq<Attendance>, day: Day): (n: nat)
    ensures n <= |rows|
    ensures n == 0 <==> forall i :: 0 <= i < |rows| ==> rows[i].date != day
  {
    if rows == [] then 0
    else (if rows[0].date == day then 1 else 0) + AttendanceCountOn(rows[1..], day)
  }

  /** Whether a payment date falls in a window with optional inclusive bounds. */
  predicate InWindow(d: Day, from: Option<Day>, to: Option<Day>)
  {
    (from.Some? ==> from.value <= d) && (to.Some? ==> d <= to.value)
  }

  /**
   * `COALESCE(SUM(amount), 0)` over the payments dated in the window:
   * `get_today_collections` is the window [today, today], `get_monthly_collections` the window
   * from the first of the month on, and the whole ledger the unbounded window.
   */
  function Collected(ps: seq<Payment>, from: Option<Day>, to: Option<Day>): real
  {
    if ps == [] then 0.0
    else (if InWindow(ps[0].date, from, to) then ps[0].amount else 0.0) + Collected(ps[1..], from, to)
  }

  /** `get_today_collections`. */
  function TodayCollections(ps: seq<Payment>, today: Day): (total: real)
    ensures NonNegativeAmounts(ps) ==> 0.0 <= total <= MonthlyCollections(ps, today) <= LedgerTotal(ps)
  {
    CollectedNarrows(ps, Some(today), Some(today), Some(today), None);
    CollectedNarrows(ps, Some(today), None, None, None);
    Collected(ps, Some(today), Some(today))
  }

  /** `get_monthly_collections`, with the first day of the month given. */
  function MonthlyCollections(ps: seq<Payment>, firstDay: Day): (total: real)
    ensures NonNegativeAmounts(ps) ==> 0.0 <= total <= LedgerTotal(ps)
  {
    CollectedNarrows(ps, Some(firstDay), None, None, None);
    Collected(ps, Some(firstDay), None)
  }

  /** With non-negative amounts, today's collections are part of the collections of its month. */
  lemma TodayWithinMonth(ps: seq<Payment>, firstDay: Day, today: Day)
    requires firstDay <= today
    ensures NonNegativeAmounts(ps) ==> TodayCollections(ps, today) <= MonthlyCollections(ps, firstDay)
  {
    CollectedNarrows(ps, Some(today), Some(today), Some(firstDay), None);
  }

  /** Every amount in the ledger is non-negative, as `confirm_payment` and `save_member` record them. */
  predicate NonNegativeAmounts(ps: seq<Payment>)
  {
    forall i :: 0 <= i < |ps| ==> ps[i].amount >= 0.0
  }

  /** A window inside another collects no more, and nothing negative, from non-negative amounts. */
  lemma {:induction false} CollectedNarrows(ps: seq<Payment>, from: Option<Day>, to: Option<Day>,
                                            from': Option<Day>, to': Option<Day>)
    requires from'.Some? ==> from.Some? && from'.value <= from.value
    requires to'.Some? ==> to.Some? && to.value <= to'.value
    ensures NonNegativeAmounts(ps) ==> 0.0 <= Collected(ps, from, to) <= Collected(ps, from', to')
  {
    if ps != [] && NonNegativeAmounts(ps) {
      assert NonNegativeAmounts(ps[1..]) by {
        forall i | 0 <= i < |ps[1..]| ensures ps[1..][i].amount >= 0.0 {
          assert ps[1..][i] == ps[i + 1];
        }
      }
      CollectedNarrows(ps[1..], from, to, from', to');
    }
  }

  /** Every amount ever recorded in the ledger. */
  function LedgerTotal(ps: seq<Payment>): real
  {
    Collected(ps, None, None)
  }

  /** The sum of `amount_paid` over all members. */
  function PaidTotal(ms: seq<Member>): real
  {
    if ms == [] then 0.0 else ms[0].amountPaid + PaidTotal(ms[1..])
  }

  // ---------------------------------------------------------------------------------------
  // Properties of the statements and queries

  /** Appending a payment adds its amount to every window that contains its date. */
  lemma {:induction false} CollectedAppend(ps: seq<Payment>, p: Payment, from: Option<Day>, to: Option<Day>)
    ensures Collected(ps + [p], from, to)
            == Collected(ps, from, to) + (if InWindow(p.date, from, to) then p.amount else 0.0)
  {
    if ps != [] {
      assert (ps + [p])[1..] == ps[1..] + [p];
      CollectedAppend(ps[1..], p, from, to);
    }
  }

  /** Appending a check-in changes the count of that day only, by one. */
  lemma {:induction false} AttendanceCountAppend(rows: seq<Attendance>, a: Attendance, day: Day)
    ensures AttendanceCountOn(rows + [a], day) == AttendanceCountOn(rows, day) + (if a.date == day then 1 else 0)
  {
    if rows != [] {
      assert (rows + [a])[1..] == rows[1..] + [a];
      AttendanceCountAppend(rows[1..], a, day);
    }
  }

  /** `PaidTotal` only looks at each row's `amount_paid`. */
  lemma {:induction false} PaidTotalOfSameAmounts(a: seq<Member>, b: seq<Member>)
    requires |a| == |b| && forall i :: 0 <= i < |a| ==> a[i].amountPaid == b[i].amountPaid
    ensures PaidTotal(a) == PaidTotal(b)
  {
    if a != [] {
      PaidTotalOfSameAmounts(a[1..], b[1..]);
    }
  }

  lemma {:induction false} PaidTotalAppend(ms: seq<Member>, m: Member)
    ensures PaidTotal(ms + [m]) == PaidTotal(ms) + m.amountPaid
  {
    if ms != [] {
      assert (ms + [m])[1..] == ms[1..] + [m];
      PaidTotalAppend(ms[1..], m);
    }
  }

  /**
   * `update_member_payment` on a table with distinct keys: the total of `amount_paid` grows by
   * exactly the amount when the member exists, and not at all when it does not.
   */
  lemma {:induction false} PaidTotalWithPayment(ms: seq<Member>, id: nat, amount: real, pending: real,
                                                newEnd: Option<Day>, today: Day)
    requires forall i, j :: 0 <= i < j < |ms| ==> ms[i].id != ms[j].id
    ensures PaidTotal(WithPayment(ms, id, amount, pending, newEnd, today))
            == PaidTotal(ms) + (if MemberById(ms, id).Some? then amount else 0.0)
  {
    if ms != [] {
      var tail := WithPayment(ms[1..], id, amount, pending, newEnd, today);
      assert WithPayment(ms, id, amount, pending, newEnd, today)[1..] == tail;
      PaidTotalWithPayment(ms[1..], id, amount, pending, newEnd, today);
      if ms[0].id == id {
        assert MemberById(ms[1..], id).None? by {
          forall i | 0 <= i < |ms[1..]| ensures ms[1..][i].id != id {
            assert ms[1..][i] == ms[i + 1];
          }
        }
      }
    }
  }

  /** The sweep sets every member's status from its end date and touches nothing else. */
  lemma SweptRecomputesStatus(ms: seq<Member>, today: Day)
    ensures |Swept(ms, today)| == |ms|
    ensures forall i :: 0 <= i < |ms| ==>
      Swept(ms, today)[i] == ms[i].(status := MembershipStatus(ms[i].endDate, today))
  {
  }

  /** Running the sweep twice is running it once. */
  lemma SweptIsIdempotent(ms: seq<Member>, today: Day)
    ensures Swept(Swept(ms, today), today) == Swept(ms, today)
  {
    SweptRecomputesStatus(ms, today);
    SweptRecomputesStatus(Swept(ms, today), today);
  }

  /** After the sweep, the stored status is the derived one on every row. */
  lemma SweptStatusIsDerived(ms: seq<Member>, today: Day)
    ensures forall m :: m in Swept(ms, today) ==>
      (m.status == "Active" <==> IsMembershipValid(m.endDate, today))
      && (m.status == "Expired" <==> !IsMembershipValid(m.endDate, today))
  {
    SweptRecomputesStatus(ms, today);
  }

  lemma SweptKeepsPaidTotal(ms: seq<Member>, today: Day)
    ensures PaidTotal(Swept(ms, today)) == PaidTotal(ms)
  {
    SweptRecomputesStatus(ms, today);
    PaidTotalOfSameAmounts(Swept(ms, today), ms);
  }

  /** With unique phones, the phone lookup finds the one member holding the normalized phone. */
  lemma MemberByPhoneFindsOwner(ms: seq<Member>, phone: string, i: nat)
    requires UniquePhones(ms)
    requires i < |ms| && ms[i].phone == Normalize(phone)
    ensures MemberByPhone(ms, phone) == Some(ms[i])
  {
    var r := MemberByPhone(ms, phone);
    var j :| 0 <= j < |ms| && ms[j] == r.value;
    assert i == j;
  }

  /**
   * A member whose stored phone starts with whitespace is never found by a lookup with a phone
   * that was normalized first, as every caller in the views does.
   */
  lemma PaddedPhoneIsNeverFound(ms: seq<Member>, input: string, m: Member)
    requires m.phone != [] && IsSpace(m.phone[0])
    ensures MemberByPhone(ms, Normalize(input)) != Some(m)
  {
    TwiceNormalizedIsUnpadded(input);
  }

  /** Without an exclusion, `check_phone_exists` holds exactly when the phone lookup finds someone. */
  lemma PhoneExistsIffFound(ms: seq<Member>, phone: string)
    ensures CheckPhoneExists(ms, phone, None) <==> MemberByPhone(ms, phone).Some?
  {
    if CheckPhoneExists(ms, phone, None) {
      var i :| 0 <= i < |ms| && ms[i].phone == Normalize(phone);
    }
  }

  /** A row in the tail of a keyed table comes after the head. */
  lemma MemberAfterHead(ms: seq<Member>, m: Member, last: nat)
    requires ms != [] && MemberKeys(ms, last) && UniquePhones(ms)
    requires m in ms[1..]
    ensures ms[0].id < m.id <= last && ms[0].phone != m.phone
  {
    var k :| 0 <= k < |ms[1..]| && ms[1..][k] == m;
    assert ms[k + 1] == m;
  }

  lemma MemberKeysCons(h: Member, rest: seq<Member>, last: nat)
    requires MemberKeys(rest, last) && UniquePhones(rest) && 1 <= h.id <= last
    requires forall i :: 0 <= i < |rest| ==> h.id < rest[i].id && h.phone != rest[i].phone
    ensures MemberKeys([h] + rest, last) && UniquePhones([h] + rest)
  {
  }

  lemma MemberKeysTail(ms: seq<Member>, last: nat)
    requires ms != [] && MemberKeys(ms, last) && UniquePhones(ms)
    ensures MemberKeys(ms[1..], last) && UniquePhones(ms[1..])
  {
  }

  /** Every row the delete keeps from the tail comes after the head. */
  lemma HeadBeforeKept(ms: seq<Member>, id: nat, last: nat)
    requires ms != [] && MemberKeys(ms, last) && UniquePhones(ms)
    ensures var rest := WithoutMember(ms[1..], id);
      forall i :: 0 <= i < |rest| ==> ms[0].id < rest[i].id && ms[0].phone != rest[i].phone
  {
    var rest := WithoutMember(ms[1..], id);
    forall i | 0 <= i < |rest| ensures ms[0].id < rest[i].id && ms[0].phone != rest[i].phone {
      MemberAfterHead(ms, rest[i], last);
    }
  }

  lemma {:induction false} WithoutMemberKeepsKeys(ms: seq<Member>, id: nat, last: nat)
    requires MemberKeys(ms, last) && UniquePhones(ms)
    ensures MemberKeys(WithoutMember(ms, id), last) && UniquePhones(WithoutMember(ms, id))
  {
    if ms != [] {
      MemberKeysTail(ms, last);
      WithoutMemberKeepsKeys(ms[1..], id, last);
      if ms[0].id != id {
        HeadBeforeKept(ms, id, last);
        MemberKeysCons(ms[0], WithoutMember(ms[1..], id), last);
      }
    }
  }

  lemma TrainingAfterHead(ts: seq<Training>, t: Training, last: nat)
    requires ts != [] && TrainingKeys(ts, last)
    requires t in ts[1..]
    ensures ts[0].id < t.id <= last
  {
    var k :| 0 <= k < |ts[1..]| && ts[1..][k] == t;
    assert ts[k + 1] == t;
  }

  lemma TrainingKeysCons(h: Training, rest: seq<Training>, last: nat)
    requires TrainingKeys(rest, last) && 1 <= h.id <= last
    requires forall i :: 0 <= i < |rest| ==> h.id < rest[i].id
    ensures TrainingKeys([h] + rest, last)
  {
  }

  lemma TrainingKeysTail(ts: seq<Training>, last: nat)
    requires ts != [] && TrainingKeys(ts, last)
    ensures TrainingKeys(ts[1..], last)
  {
  }

  lemma TrainingHeadBeforeKept(ts: seq<Training>, id: nat, last: nat)
    requires ts != [] && TrainingKeys(ts, last)
    ensures var rest := WithoutTraining(ts[1..], id);
      forall i :: 0 <= i < |rest| ==> ts[0].id < rest[i].id
  {
    var rest := WithoutTraining(ts[1..], id);
    forall i | 0 <= i < |rest| ensures ts[0].id < rest[i].id {
      TrainingAfterHead(ts, rest[i], last);
    }
  }

  lemma {:induction false} WithoutTrainingKeepsKeys(ts: seq<Training>, id: nat, last: nat)
    requires TrainingKeys(ts, last)
    ensures TrainingKeys(WithoutTraining(ts, id), last)
  {
    if ts != [] {
      TrainingKeysTail(ts, last);
      WithoutTrainingKeepsKeys(ts[1..], id, last);
      if ts[0].id != id {
        TrainingHeadBeforeKept(ts, id, last);
        TrainingKeysCons(ts[0], WithoutTraining(ts[1..], id), last);
      }
    }
  }

  // ---------------------------------------------------------------------------------------
  // The store

  class Store {
    var members: seq<Member>
    var payments: seq<Payment>
    var trainings: seq<Training>
    var attendance: seq<Attendance>
    /** The AUTOINCREMENT counters: the largest key each table has handed out. */
    var memberSeq: nat
    var paymentSeq: nat
    var trainingSeq: nat
    var attendanceSeq: nat

    ghost predicate Valid()
      reads this
    {
      && MemberKeys(members, memberSeq) && UniquePhones(members)
      && PaymentKeys(payments, paymentSeq)
      && TrainingKeys(trainings, trainingSeq)
      && AttendanceKeys(attendance, attendanceSeq)
    }

    /** A fresh, empty database file. */
    constructor ()
      ensures Valid()
      ensures members == [] && payments == [] && trainings == [] && attendance == []
      ensures memberSeq == 0 && paymentSeq == 0 && trainingSeq == 0 && attendanceSeq == 0
    {
      members, payments, trainings, attendance := [], [], [], [];
      memberSeq, paymentSeq, trainingSeq, attendanceSeq := 0, 0, 0, 0;
    }

    /** `add_member`: refused by the UNIQUE constraint when the exact phone text is taken. */
    method AddMember(reg: Registration) returns (r: Result<nat, StoreError>)
      requires Valid()
      modifies this`members, this`memberSeq
      ensures Valid()
      ensures r.Err? <==> PhoneCount(old(members), reg.phone, None) > 0
      ensures r.Err? ==> members == old(members) && memberSeq == old(memberSeq)
      ensures r.Ok? ==> r.value == memberSeq == old(memberSeq) + 1
      ensures r.Ok? ==> members == old(members) + [NewMember(r.value, reg)]
      ensures r.Ok? ==> forall m :: m in old(members) ==> m.id < r.value
    {
      if PhoneCount(members, reg.phone, None) > 0 {
        return Err(DuplicatePhone);
      }
      memberSeq := memberSeq + 1;
      members := members + [NewMember(memberSeq, reg)];
      r := Ok(memberSeq);
    }

    /**
     * `update_member`: when the row exists and another member holds the new phone, the UNIQUE
     * constraint refuses the statement; a missing row is updated nowhere, without error.
     */
    method UpdateMember(id: nat, reg: Registration) returns (r: Result<(), StoreError>)
      requires Valid()
      modifies this`members
      ensures Valid()
      ensures r.Err? <==> MemberById(old(members), id).Some? && PhoneCount(old(members), reg.phone, Some(id)) > 0
      ensures r.Err? ==> members == old(members)
      ensures r.Ok? ==> members == WithRegistration(old(members), id, reg)
    {
      if MemberById(members, id).Some? && PhoneCount(members, reg.phone, Some(id)) > 0 {
        return Err(DuplicatePhone);
      }
      members := WithRegistration(members, id, reg);
      r := Ok(());
    }

    /** `delete_member`. */
    method DeleteMember(id: nat)
      requires Valid()
      modifies this`members
      ensures Valid()
      ensures members == WithoutMember(old(members), id)
    {
      WithoutMemberKeepsKeys(members, id, memberSeq);
      members := WithoutMember(members, id);
    }

    /** `update_member_payment`. */
    method UpdateMemberPayment(id: nat, amount: real, pending: real, newEnd: Option<Day>, today: Day)
      requires Valid()
      modifies this`members
      ensures Valid()
      ensures members == WithPayment(old(members), id, amount, pending, newEnd, today)
    {
      members := WithPayment(members, id, amount, pending, newEnd, today);
    }

    /** `update_member_status`. */
    method UpdateMemberStatus(today: Day)
      requires Valid()
      modifies this`members
      ensures Valid()
      ensures members == Swept(old(members), today)
    {
      SweptRecomputesStatus(members, today);
      members := Swept(members, today);
    }

    /** `add_payment`: the row is dated today. */
    method AddPayment(memberId: nat, phone: string, amount: real, kind: string, notes: string, today: Day)
      returns (id: nat)
      requires Valid()
      modifies this`payments, this`paymentSeq
      ensures Valid()
      ensures id == paymentSeq == old(paymentSeq) + 1
      ensures payments == old(payments) + [Payment(id, memberId, phone, amount, today, kind, notes)]
      ensures forall p :: p in old(payments) ==> p.id < id
    {
      paymentSeq := paymentSeq + 1;
      id := paymentSeq;
      payments := payments + [Payment(id, memberId, phone, amount, today, kind, notes)];
    }

    /** `add_personal_training`: the status column defaults to 'Active'. */
    method AddPersonalTraining(memberId: nat, trainer: string, months: int, fee: real, start: Day, end: Day)
      returns (id: nat)
      requires Valid()
      modifies this`trainings, this`trainingSeq
      ensures Valid()
      ensures id == trainingSeq == old(trainingSeq) + 1
      ensures trainings == old(trainings) + [Training(id, memberId, trainer, months, fee, start, end, "Active")]
      ensures forall t :: t in old(trainings) ==> t.id < id
    {
      trainingSeq := trainingSeq + 1;
      id := trainingSeq;
      trainings := trainings + [Training(id, memberId, trainer, months, fee, start, end, "Active")];
    }

    /** `update_personal_training`. */
    method UpdatePersonalTraining(id: nat, trainer: string, months: int, fee: real, start: Day, end: Day,
                                  status: string)
      requires Valid()
      modifies this`trainings
      ensures Valid()
      ensures trainings == WithTrainingEdit(old(trainings), id, trainer, months, fee, start, end, status)
    {
      trainings := WithTrainingEdit(trainings, id, trainer, months, fee, start, end, status);
    }

    /** `delete_personal_training`. */
    method DeletePersonalTraining(id: nat)
      requires Valid()
      modifies this`trainings
      ensures Valid()
      ensures trainings == WithoutTraining(old(trainings), id)
    {
      WithoutTrainingKeepsKeys(trainings, id, trainingSeq);
      trainings := WithoutTraining(trainings, id);
    }

    /** `add_attendance`: the row is dated today and stamped with the time of day. */
    method AddAttendance(memberId: nat, trainer: Option<string>, today: Day, time: nat)
      requires Valid()
      modifies this`attendance, this`attendanceSeq
      ensures Valid()
      ensures attendanceSeq == old(attendanceSeq) + 1
      ensures attendance == old(attendance) + [Attendance(attendanceSeq, memberId, time, today, trainer)]
      ensures CheckAlreadyCheckedIn(attendance, memberId, today)
    {
      attendanceSeq := attendanceSeq + 1;
      attendance := attendance + [Attendance(attendanceSeq, memberId, time, today, trainer)];
      assert attendance[|attendance| - 1].memberId == memberId;
    }
  }
}
