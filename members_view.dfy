/**
 * The member registration screen (views/members.py): the validation chain of `save_member`, the
 * opening balance of a new member, the writes that follow, and the fee reset on a plan change.
 */
module MembersView {
  import opened Wrappers
  import opened Utils
  import opened Database

  /**
   * The form fields. `age`, `fees` and `startDay` are the results of `int()`, `float()` and the
   * date parser on the age, fees and start-date texts; `shownEnd` is the read-only end-date field.
   */
  datatype MemberForm = MemberForm(
    name: string, phone: string, address: string, age: Option<int>, gender: string, plan: string,
    startText: string, startDay: Option<Day>, shownEnd: Option<Day>, fees: Option<real>,
    paymentStatus: string)

  datatype SaveError =
    | MissingName
    | InvalidPhone
    | PhoneInUse
    | InvalidAge
    | InvalidFees
    | BadDateFormat
    | UnparsableDate
    | StoreRejected

  datatype SaveOutcome =
    | Rejected(error: SaveError)
    | Updated(id: nat)
    | Added(id: nat, payment: Option<nat>)

  /** The start-date shape check: ten characters with '-' at positions 4 and 7. */
  predicate DateShaped(s: string)
  {
    |s| == 10 && s[4] == '-' && s[7] == '-'
  }

  /** Every check of the chain passes. */
  predicate FormAccepted(ms: seq<Member>, f: MemberForm, selected: Option<nat>)
  {
    && Strip(f.name) != []
    && ValidatePhone(Normalize(f.phone))
    && !CheckPhoneExists(ms, Normalize(f.phone), selected)
    && ValidateAge(f.age)
    && f.fees.Some?
    && DateShaped(f.startText)
    && f.startDay.Some?
  }

  /** The first check of the chain that fails, in the order `save_member` runs them. */
  function FormError(ms: seq<Member>, f: MemberForm, selected: Option<nat>): (e: Option<SaveError>)
    ensures e.None? <==> FormAccepted(ms, f, selected)
    ensures e == Some(MissingName) <==> Strip(f.name) == []
    ensures e == Some(InvalidPhone) <==> Strip(f.name) != [] && !ValidatePhone(Normalize(f.phone))
    ensures e == Some(PhoneInUse) <==>
      Strip(f.name) != [] && ValidatePhone(Normalize(f.phone)) && CheckPhoneExists(ms, Normalize(f.phone), selected)
    ensures e == Some(InvalidAge) <==>
      Strip(f.name) != [] && ValidatePhone(Normalize(f.phone)) && !CheckPhoneExists(ms, Normalize(f.phone), selected)
      && !ValidateAge(f.age)
    ensures e == Some(InvalidFees) <==>
      Strip(f.name) != [] && ValidatePhone(Normalize(f.phone)) && !CheckPhoneExists(ms, Normalize(f.phone), selected)
      && ValidateAge(f.age) && f.fees.None?
    ensures e == Some(BadDateFormat) <==>
      Strip(f.name) != [] && ValidatePhone(Normalize(f.phone)) && !CheckPhoneExists(ms, Normalize(f.phone), selected)
      && ValidateAge(f.age) && f.fees.Some? && !DateShaped(f.startText)
    ensures e == Some(UnparsableDate) <==>
      Strip(f.name) != [] && ValidatePhone(Normalize(f.phone)) && !CheckPhoneExists(ms, Normalize(f.phone), selected)
      && ValidateAge(f.age) && f.fees.Some? && DateShaped(f.startText) && f.startDay.None?
    ensures e != Some(StoreRejected)
  {
    var phone := Normalize(f.phone);
    if Strip(f.name) == [] then Some(MissingName)
    else if !ValidatePhone(phone) then Some(InvalidPhone)
    else if CheckPhoneExists(ms, phone, selected) then Some(PhoneInUse)
    else if !ValidateAge(f.age) then Some(InvalidAge)
    else if f.fees.None? then Some(InvalidFees)
    else if !DateShaped(f.startText) then Some(BadDateFormat)
    else if f.startDay.None? then Some(UnparsableDate)
    else None
  }

  /** The columns written for an accepted form: the end date follows from start and plan. */
  function RegistrationFrom(f: MemberForm): (reg: Registration)
    requires f.age.Some? && f.fees.Some? && f.startDay.Some?
    ensures reg.startDate == f.startDay.value && reg.plan == f.plan
    ensures reg.endDate == EndDate(f.startDay.value, f.plan) && reg.endDate > reg.startDate
    ensures reg.phone == Normalize(f.phone)
    ensures reg.name == Strip(f.name) && reg.address == Strip(f.address) && reg.age == f.age.value
    ensures reg.gender == f.gender && reg.fees == f.fees.value && reg.paymentStatus == f.paymentStatus
  {
    var start := f.startDay.value;
    Registration(Strip(f.name), Normalize(f.phone), Strip(f.address), f.age.value, f.gender, f.plan,
                 start, EndDate(start, f.plan), f.fees.value, f.paymentStatus)
  }

  /**
   * The opening balance of a new member: the fees count as paid for a 'Paid' member, and a
   * 'Pending' member owes the full plan fee.
   */
  function OpeningBalance(plan: string, fees: real, status: string): (b: (real, real))
    ensures status == "Paid" ==> b.0 == fees && b.1 == 0.0
    ensures status == "Pending" ==> b.0 == 0.0 && b.0 + b.1 == PlanFee(plan)
    ensures status != "Paid" && status != "Pending" ==> b == (0.0, 0.0)
  {
    var paid := if status == "Paid" then fees else 0.0;
    var pending := if status == "Pending" then PlanFee(plan) - paid else 0.0;
    (paid, pending)
  }

  /**
   * The new member's row after `update_member_payment`: the stored payment status is the one
   * chosen on the form (or 'Paid' for any other text), and the stored amounts are the opening balance.
   */
  lemma NewMemberKeepsChosenStatus(id: nat, reg: Registration, today: Day)
    ensures var b := OpeningBalance(reg.plan, reg.fees, reg.paymentStatus);
      var r := PaymentApplied(NewMember(id, reg), b.0, b.1, None, today);
      && r.paymentStatus == (if reg.paymentStatus == "Pending" then "Pending" else "Paid")
      && r.amountPaid == b.0 && r.pendingAmount == b.1
      && r.endDate == reg.endDate && r.status == "Active"
      && RegistrationOf(r).(paymentStatus := reg.paymentStatus) == reg
  {
    var b := OpeningBalance(reg.plan, reg.fees, reg.paymentStatus);
    if reg.paymentStatus == "Pending" {
      assert b.1 == PlanFee(reg.plan);
    }
  }

  /** Updating a freshly inserted key touches the new row only. */
  lemma {:induction false} PaymentOnNewRow(ms: seq<Member>, id: nat, reg: Registration, paid: real,
                                           pending: real, today: Day)
    requires forall i :: 0 <= i < |ms| ==> ms[i].id < id
    ensures WithPayment(ms + [NewMember(id, reg)], id, paid, pending, None, today)
            == ms + [PaymentApplied(NewMember(id, reg), paid, pending, None, today)]
  {
    var a := WithPayment(ms + [NewMember(id, reg)], id, paid, pending, None, today);
    var b := ms + [PaymentApplied(NewMember(id, reg), paid, pending, None, today)];
    assert |a| == |b|;
    forall i | 0 <= i < |a| ensures a[i] == b[i] {
      if i < |ms| {
        assert (ms + [NewMember(id, reg)])[i] == ms[i];
      }
    }
  }

  /**
   * Fee reconciliation for a registration: the total amount paid grows by exactly what the
   * ledger records, the fees of a 'Paid' member and nothing for any other.
   */
  lemma AddedMemberKeepsBalance(ms: seq<Member>, ps: seq<Payment>, id: nat, reg: Registration, p: Payment,
                                today: Day)
    requires forall i :: 0 <= i < |ms| ==> ms[i].id < id
    requires p.amount == reg.fees
    ensures var b := OpeningBalance(reg.plan, reg.fees, reg.paymentStatus);
      var ms' := Swept(WithPayment(ms + [NewMember(id, reg)], id, b.0, b.1, None, today), today);
      var ps' := if reg.paymentStatus == "Paid" then ps + [p] else ps;
      PaidTotal(ms') - LedgerTotal(ps') == PaidTotal(ms) - LedgerTotal(ps)
  {
    var b := OpeningBalance(reg.plan, reg.fees, reg.paymentStatus);
    var row := PaymentApplied(NewMember(id, reg), b.0, b.1, None, today);
    PaymentOnNewRow(ms, id, reg, b.0, b.1, today);
    SweptKeepsPaidTotal(ms + [row], today);
    PaidTotalAppend(ms, row);
    if reg.paymentStatus == "Paid" {
      CollectedAppend(ps, p, None, None);
    }
  }

  /** Editing a member leaves every amount paid as it was. */
  lemma EditedMemberKeepsBalance(ms: seq<Member>, id: nat, reg: Registration, today: Day)
    ensures PaidTotal(Swept(WithRegistration(ms, id, reg), today)) == PaidTotal(ms)
  {
    SweptKeepsPaidTotal(WithRegistration(ms, id, reg), today);
    PaidTotalOfSameAmounts(WithRegistration(ms, id, reg), ms);
  }

  /**
   * The uniqueness check looks for the normalized phone while the UNIQUE constraint compares the
   * phone as stored; a phone the check let through that the constraint refuses is one that
   * normalizing again would change.
   */
  lemma StoreRejectionNeedsUnnormalPhone(ms: seq<Member>, phone: string, selected: Option<nat>)
    requires !CheckPhoneExists(ms, phone, selected)
    requires PhoneCount(ms, phone, if Truthy(selected) then selected else None) > 0
    ensures Normalize(phone) != phone
  {
    var i :| 0 <= i < |ms| && ms[i].phone == phone
             && (Truthy(selected) ==> ms[i].id != selected.value);
  }

  /**
   * `save_member` for the form `f`; `selected` is the id of the member being edited, if any.
   * The UNIQUE constraint can refuse a form the uniqueness check let through only when the
   * normalized phone is not itself in normal form.
   */
  method SaveMember(db: Store, f: MemberForm, selected: Option<nat>, today: Day) returns (outcome: SaveOutcome)
    requires db.Valid()
    modifies db
    ensures db.Valid()
    ensures FormError(old(db.members), f, selected).Some? ==> outcome == Rejected(FormError(old(db.members), f, selected).value)
    ensures outcome.Rejected? && outcome.error != StoreRejected ==>
      FormError(old(db.members), f, selected) == Some(outcome.error)
    ensures FormAccepted(old(db.members), f, selected) ==>
      (outcome == Rejected(StoreRejected) <==>
         if Truthy(selected)
         then MemberById(old(db.members), selected.value).Some?
              && PhoneCount(old(db.members), Normalize(f.phone), selected) > 0
         else PhoneCount(old(db.members), Normalize(f.phone), None) > 0)
    ensures outcome.Rejected? ==> unchanged(db)
    ensures outcome == Rejected(StoreRejected) ==>
      FormAccepted(old(db.members), f, selected) && Normalize(Normalize(f.phone)) != Normalize(f.phone)
    ensures outcome.Updated? ==>
      && FormAccepted(old(db.members), f, selected) && Truthy(selected)
      && outcome.id == selected.value
      && db.members == Swept(WithRegistration(old(db.members), outcome.id, RegistrationFrom(f)), today)
      && db.payments == old(db.payments) && db.paymentSeq == old(db.paymentSeq)
      && db.memberSeq == old(db.memberSeq)
    ensures outcome.Added? ==>
      && FormAccepted(old(db.members), f, selected) && !Truthy(selected)
      && var reg := RegistrationFrom(f);
      && var b := OpeningBalance(reg.plan, reg.fees, reg.paymentStatus);
      && outcome.id == db.memberSeq == old(db.memberSeq) + 1
      && (forall m :: m in old(db.members) ==> m.id < outcome.id)
      && db.members == Swept(WithPayment(old(db.members) + [NewMember(outcome.id, reg)], outcome.id, b.0, b.1, None, today), today)
      && (outcome.payment.Some? <==> reg.paymentStatus == "Paid")
      && (outcome.payment.Some? ==>
            && outcome.payment.value == db.paymentSeq == old(db.paymentSeq) + 1
            && db.payments == old(db.payments) + [Payment(outcome.payment.value, outcome.id, reg.phone, reg.fees, today,
                                                          "Membership", "Initial registration")])
      && (outcome.payment.None? ==> db.payments == old(db.payments) && db.paymentSeq == old(db.paymentSeq))
    ensures !outcome.Rejected? ==>
      && db.trainings == old(db.trainings) && db.trainingSeq == old(db.trainingSeq)
      && db.attendance == old(db.attendance) && db.attendanceSeq == old(db.attendanceSeq)
  {
    if Strip(f.name) == [] {
      return Rejected(MissingName);
    }
    var phone := Normalize(f.phone);
    if !ValidatePhone(phone) {
      return Rejected(InvalidPhone);
    }
    if CheckPhoneExists(db.members, phone, selected) {
      return Rejected(PhoneInUse);
    }
    if !ValidateAge(f.age) {
      return Rejected(InvalidAge);
    }
    if f.fees.None? {
      return Rejected(InvalidFees);
    }
    if !DateShaped(f.startText) {
      return Rejected(BadDateFormat);
    }
    if f.startDay.None? {
      return Rejected(UnparsableDate);
    }
    var reg := RegistrationFrom(f);
    if Truthy(selected) {
      outcome := SaveEdit(db, selected.value, reg, today);
    } else {
      outcome := SaveNew(db, reg, today);
    }
    if outcome == Rejected(StoreRejected) {
      StoreRejectionNeedsUnnormalPhone(db.members, phone, selected);
    }
  }

  /** The edit branch of `save_member`: `update_member`, then the status sweep. */
  method SaveEdit(db: Store, id: nat, reg: Registration, today: Day) returns (outcome: SaveOutcome)
    requires db.Valid()
    modifies db
    ensures db.Valid()
    ensures outcome == Rejected(StoreRejected) || outcome == Updated(id)
    ensures outcome.Rejected? <==> MemberById(old(db.members), id).Some? && PhoneCount(old(db.members), reg.phone, Some(id)) > 0
    ensures outcome.Rejected? ==> unchanged(db)
    ensures outcome.Updated? ==>
      && db.members == Swept(WithRegistration(old(db.members), id, reg), today)
      && db.memberSeq == old(db.memberSeq)
      && db.payments == old(db.payments) && db.paymentSeq == old(db.paymentSeq)
      && db.trainings == old(db.trainings) && db.trainingSeq == old(db.trainingSeq)
      && db.attendance == old(db.attendance) && db.attendanceSeq == old(db.attendanceSeq)
  {
    var r := db.UpdateMember(id, reg);
    if r.Err? {
      return Rejected(StoreRejected);
    }
    db.UpdateMemberStatus(today);
    outcome := Updated(id);
  }

  /**
   * The add branch of `save_member`: `add_member`, the opening balance through
   * `update_member_payment`, the initial payment of a 'Paid' member, then the status sweep.
   */
  method SaveNew(db: Store, reg: Registration, today: Day) returns (outcome: SaveOutcome)
    requires db.Valid()
    modifies db
    ensures db.Valid()
    ensures outcome == Rejected(StoreRejected) || outcome.Added?
    ensures outcome.Rejected? <==> PhoneCount(old(db.members), reg.phone, None) > 0
    ensures outcome.Rejected? ==> unchanged(db)
    ensures outcome.Added? ==>
      && var b := OpeningBalance(reg.plan, reg.fees, reg.paymentStatus);
      && outcome.id == db.memberSeq == old(db.memberSeq) + 1
      && (forall m :: m in old(db.members) ==> m.id < outcome.id)
      && db.members == Swept(WithPayment(old(db.members) + [NewMember(outcome.id, reg)], outcome.id, b.0, b.1, None, today), today)
      && (outcome.payment.Some? <==> reg.paymentStatus == "Paid")
      && (outcome.payment.Some? ==>
            && outcome.payment.value == db.paymentSeq == old(db.paymentSeq) + 1
            && db.payments == old(db.payments) + [Payment(outcome.payment.value, outcome.id, reg.phone, reg.fees, today,
                                                          "Membership", "Initial registration")])
      && (outcome.payment.None? ==> db.payments == old(db.payments) && db.paymentSeq == old(db.paymentSeq))
      && db.trainings == old(db.trainings) && db.trainingSeq == old(db.trainingSeq)
      && db.attendance == old(db.attendance) && db.attendanceSeq == old(db.attendanceSeq)
  {
    var balance := OpeningBalance(reg.plan, reg.fees, reg.paymentStatus);
    var r := db.AddMember(reg);
    if r.Err? {
      return Rejected(StoreRejected);
    }
    var id := r.value;
    db.UpdateMemberPayment(id, balance.0, balance.1, None, today);
    var payment: Option<nat> := None;
    if reg.paymentStatus == "Paid" {
      var paymentId := db.AddPayment(id, reg.phone, reg.fees, "Membership", "Initial registration", today);
      payment := Some(paymentId);
    }
    db.UpdateMemberStatus(today);
    outcome := Added(id, payment);
  }

  /**
   * `delete_member` of the members screen: only a truthy selection the user confirms is deleted,
   * and only its member row goes.
   */
  method DeleteSelectedMember(db: Store, selected: Option<nat>, confirmed: bool) returns (deleted: bool)
    requires db.Valid()
    modifies db
    ensures db.Valid()
    ensures deleted <==> Truthy(selected) && confirmed
    ensures !deleted ==> unchanged(db)
    ensures deleted ==>
      && db.members == WithoutMember(old(db.members), selected.value)
      && db.memberSeq == old(db.memberSeq)
      && db.payments == old(db.payments) && db.paymentSeq == old(db.paymentSeq)
      && db.trainings == old(db.trainings) && db.trainingSeq == old(db.trainingSeq)
      && db.attendance == old(db.attendance) && db.attendanceSeq == old(db.attendanceSeq)
  {
    if !Truthy(selected) || !confirmed {
      return false;
    }
    db.DeleteMember(selected.value);
    deleted := true;
  }

  /** `on_membership_change`: the fees field takes the plan's fee and the end date is recomputed. */
  function OnMembershipChange(f: MemberForm, plan: string): (g: MemberForm)
    ensures g.plan == plan && g.fees == Some(PlanFee(plan))
    ensures f.startDay.Some? ==> g.shownEnd == Some(EndDate(f.startDay.value, plan))
    ensures f.startDay.None? ==> g.shownEnd == f.shownEnd
    ensures g.(fees := f.fees, shownEnd := f.shownEnd, plan := f.plan) == f
  {
    var end := if f.startDay.Some? then Some(EndDate(f.startDay.value, plan)) else f.shownEnd;
    f.(plan := plan, fees := Some(MembershipFee(plan)), shownEnd := end)
  }
}
