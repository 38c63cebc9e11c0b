/**
 * The fee-collection screen (views/payment.py): the status icon and suggested amount shown for a
 * verified member, the form defaults and their reaction to a change of payment type, and
 * `confirm_payment`, which appends the payment, updates the member's balance and sweeps statuses.
 */
module PaymentView {
  import opened Wrappers
  import opened Utils
  import opened Database

  /** The payment-status image in the member card header. */
  datatype StatusIcon = ExpiredIcon | PendingIcon | PaidIcon

  /** Python's `int()` on a float: truncation toward zero. */
  function Truncate(x: real): (n: int)
    ensures 0.0 <= x ==> n as real <= x < n as real + 1.0
    ensures x < 0.0 ==> n as real - 1.0 < x <= n as real
  {
    if x >= 0.0 then x.Floor else -((-x).Floor)
  }

  /** The expiry test of the screen, which reads the derived status rather than the stored one. */
  predicate IsExpired(m: Member, today: Day): (b: bool)
    ensures b <==> m.endDate < today
  {
    MembershipStatus(m.endDate, today) == "Expired"
  }

  /** The icon `display_member_details` picks: expired over pending fee over paid. */
  function IconFor(m: Member, today: Day): (icon: StatusIcon)
    ensures icon == ExpiredIcon <==> !IsMembershipValid(m.endDate, today)
    ensures icon == PendingIcon <==> IsMembershipValid(m.endDate, today) && PendingFee(m.plan, m.amountPaid) > 0.0
    ensures icon == PaidIcon <==> IsMembershipValid(m.endDate, today) && PendingFee(m.plan, m.amountPaid) == 0.0
  {
    if IsExpired(m, today) then ExpiredIcon
    else if PendingFee(m.plan, m.amountPaid) > 0.0 then PendingIcon
    else PaidIcon
  }

  /**
   * The amount the form suggests: the full plan fee for an expired member, otherwise the fee
   * still pending, or the full plan fee again when nothing is pending.
   */
  function SuggestedAmount(m: Member, today: Day): (amount: real)
    ensures amount > 0.0
    ensures IconFor(m, today) == PendingIcon ==> amount == PendingFee(m.plan, m.amountPaid)
    ensures IconFor(m, today) != PendingIcon ==> amount == PlanFee(m.plan)
    ensures m.amountPaid >= 0.0 ==> amount <= PlanFee(m.plan)
  {
    if IsExpired(m, today) then PlanFee(m.plan)
    else
      var pending := PendingFee(m.plan, m.amountPaid);
      if pending > 0.0 then pending else PlanFee(m.plan)
  }

  /** Paying the suggested amount clears the pending fee of an active member. */
  lemma SuggestedAmountClearsPending(m: Member, today: Day)
    requires IsMembershipValid(m.endDate, today)
    ensures PendingFee(m.plan, m.amountPaid + SuggestedAmount(m, today)) == 0.0
  {
    if PendingFee(m.plan, m.amountPaid) > 0.0 {
      assert m.amountPaid < PlanFee(m.plan);
    }
  }

  /** The editable part of the payment section: type, amount field (an integer's text) and extend box. */
  datatype PaymentForm = PaymentForm(kind: string, amount: int, extend: bool)

  /** The section as `show_payment_section` opens it. */
  function InitialForm(m: Member, today: Day): (f: PaymentForm)
    ensures f.kind == "Membership"
    ensures f.extend <==> !IsMembershipValid(m.endDate, today)
    ensures f.amount as real <= SuggestedAmount(m, today) < f.amount as real + 1.0
  {
    PaymentForm("Membership", Truncate(SuggestedAmount(m, today)), IsExpired(m, today))
  }

  /** `on_payment_type_change`; without a verified member the form is left alone. */
  function OnPaymentTypeChange(f: PaymentForm, verified: Option<FeeDetails>, kind: string, today: Day)
    : (g: PaymentForm)
    ensures g.kind == kind
    ensures verified.None? ==> g.amount == f.amount && g.extend == f.extend
    ensures verified.Some? && (kind == "Membership" || kind == "Renewal") ==>
      g.extend && g.amount == Truncate(SuggestedAmount(verified.value.member, today))
    ensures verified.Some? && kind == "PT" ==> !g.extend
    ensures verified.Some? && kind == "PT" ==>
      g.amount == (match verified.value.training
                   case Some(t) => if t.fee != 0.0 then Truncate(t.fee) else f.amount
                   case None => f.amount)
    ensures kind != "Membership" && kind != "Renewal" && kind != "PT" ==> g == f.(kind := kind)
  {
    var f := f.(kind := kind);
    match verified
    case None => f
    case Some(d) =>
      if kind == "Membership" || kind == "Renewal" then
        f.(amount := Truncate(SuggestedAmount(d.member, today)), extend := true)
      else if kind == "PT" then
        var amount := if d.training.Some? && d.training.value.fee != 0.0 then Truncate(d.training.value.fee) else f.amount;
        f.(amount := amount, extend := false)
      else f
  }

  // ---------------------------------------------------------------------------------------
  // confirm_payment

  /** Whether the membership is extended: the box is ticked and the type is Membership or Renewal. */
  predicate Extends(kind: string, extend: bool)
  {
    extend && (kind == "Membership" || kind == "Renewal")
  }

  /** The new end date passed to the store. */
  function RenewedEnd(m: Member, kind: string, extend: bool, today: Day): (end: Option<Day>)
    ensures end.Some? <==> Extends(kind, extend)
    ensures end.Some? ==> end.value == NewEndDate(m.endDate, m.plan, today)
    ensures end.Some? ==> end.value >= m.endDate + PlanDuration(m.plan)
    ensures end.Some? ==> end.value >= today + PlanDuration(m.plan)
  {
    if Extends(kind, extend) then Some(NewEndDate(m.endDate, m.plan, today)) else None
  }

  /**
   * The pending amount passed to the store: computed from the amount alone when an expired
   * membership is renewed, and from the old amount paid plus the amount otherwise.
   */
  function PendingAfter(m: Member, amount: real, kind: string, extend: bool, today: Day): (pending: real)
    ensures pending >= 0.0
    ensures Extends(kind, extend) && IsExpired(m, today) ==> (pending == 0.0 <==> amount >= PlanFee(m.plan))
    ensures !(Extends(kind, extend) && IsExpired(m, today)) ==>
      (pending == 0.0 <==> m.amountPaid + amount >= PlanFee(m.plan))
    ensures amount >= 0.0 && m.amountPaid >= 0.0 ==> pending <= PlanFee(m.plan)
  {
    if Extends(kind, extend) && IsExpired(m, today) then PendingFee(m.plan, amount)
    else PendingFee(m.plan, m.amountPaid + amount)
  }

  /** `float()` succeeded and the amount is positive. */
  predicate ValidAmount(amount: Option<real>)
  {
    amount.Some? && amount.value > 0.0
  }

  datatype PaymentOutcome =
    | NoMemberVerified
    | InvalidAmount
    | Declined
    | Recorded(paymentId: nat, pending: real, newEnd: Option<Day>)

  /**
   * `confirm_payment` on the member snapshot `verified`. `amountInput` is the amount field as
   * `float()` parses it and `confirmed` the answer to the confirmation dialog.
   */
  method ConfirmPayment(db: Store, verified: Option<FeeDetails>, amountInput: Option<real>, kind: string,
                        notesInput: string, extend: bool, confirmed: bool, today: Day)
    returns (outcome: PaymentOutcome)
    requires db.Valid()
    modifies db
    ensures db.Valid()
    ensures outcome.NoMemberVerified? <==> verified.None?
    ensures outcome.InvalidAmount? <==> verified.Some? && !ValidAmount(amountInput)
    ensures outcome.Declined? <==> verified.Some? && ValidAmount(amountInput) && !confirmed
    ensures !outcome.Recorded? ==> unchanged(db)
    ensures outcome.Recorded? ==>
      var m := verified.value.member;
      var amount := amountInput.value;
      && outcome.newEnd == RenewedEnd(m, kind, extend, today)
      && outcome.pending == PendingAfter(m, amount, kind, extend, today)
      && outcome.paymentId == db.paymentSeq == old(db.paymentSeq) + 1
      && db.payments == old(db.payments) + [Payment(outcome.paymentId, m.id, m.phone, amount, today, kind, Strip(notesInput))]
      && db.members == Swept(WithPayment(old(db.members), m.id, amount, outcome.pending, outcome.newEnd, today), today)
      && db.memberSeq == old(db.memberSeq)
      && db.trainings == old(db.trainings) && db.trainingSeq == old(db.trainingSeq)
      && db.attendance == old(db.attendance) && db.attendanceSeq == old(db.attendanceSeq)
  {
    if verified.None? {
      return NoMemberVerified;
    }
    var m := verified.value.member;
    if amountInput.None? || amountInput.value <= 0.0 {
      return InvalidAmount;
    }
    var amount := amountInput.value;
    var notes := Strip(notesInput);
    if !confirmed {
      return Declined;
    }
    var paymentId := db.AddPayment(m.id, m.phone, amount, kind, notes, today);
    var totalFee := PlanFee(m.plan);
    var currentPaid := m.amountPaid + amount;
    var newPending := Max0(totalFee - currentPaid);
    var newEnd: Option<Day> := None;
    if extend && (kind == "Membership" || kind == "Renewal") {
      newEnd := Some(NewEndDate(m.endDate, m.plan, today));
      if MembershipStatus(m.endDate, today) == "Expired" {
        // the reset of the running total stays local: the store is only given `amount`
        currentPaid := amount;
        newPending := Max0(totalFee - amount);
      }
    }
    assert newEnd == RenewedEnd(m, kind, extend, today);
    assert newPending == PendingAfter(m, amount, kind, extend, today);
    db.UpdateMemberPayment(m.id, amount, newPending, newEnd, today);
    db.UpdateMemberStatus(today);
    outcome := Recorded(paymentId, newPending, newEnd);
  }

  // ---------------------------------------------------------------------------------------
  // What a recorded payment does to the tables

  /**
   * The member's row after the balance update and the sweep: the amount is added to what was
   * paid, the pending value and payment date are set, the end date moves only on extension,
   * and the status is derived from the (new) end date.
   */
  lemma RecordedRow(ms: seq<Member>, k: nat, amount: real, pending: real, newEnd: Option<Day>, today: Day)
    requires k < |ms|
    ensures var r := Swept(WithPayment(ms, ms[k].id, amount, pending, newEnd, today), today);
      && |r| == |ms|
      && r[k].id == ms[k].id && r[k].plan == ms[k].plan && r[k].phone == ms[k].phone
      && r[k].amountPaid == ms[k].amountPaid + amount
      && r[k].pendingAmount == pending && r[k].lastPaymentDate == Some(today)
      && r[k].endDate == (if newEnd.Some? then newEnd.value else ms[k].endDate)
      && (newEnd.Some? ==> r[k].paymentStatus == "Paid")
      && r[k].status == MembershipStatus(r[k].endDate, today)
  {
    SweptRecomputesStatus(WithPayment(ms, ms[k].id, amount, pending, newEnd, today), today);
  }

  /** Rows of other members keep everything but their derived status. */
  lemma OtherRowsUntouched(ms: seq<Member>, id: nat, j: nat, amount: real, pending: real,
                           newEnd: Option<Day>, today: Day)
    requires j < |ms| && ms[j].id != id
    ensures Swept(WithPayment(ms, id, amount, pending, newEnd, today), today)[j]
            == ms[j].(status := MembershipStatus(ms[j].endDate, today))
  {
    SweptRecomputesStatus(WithPayment(ms, id, amount, pending, newEnd, today), today);
  }

  /** An extension reactivates the member for at least a full plan period. */
  lemma ExtensionReactivates(ms: seq<Member>, k: nat, amount: real, kind: string, extend: bool, today: Day)
    requires k < |ms| && Extends(kind, extend)
    ensures var pending := PendingAfter(ms[k], amount, kind, extend, today);
      var r := Swept(WithPayment(ms, ms[k].id, amount, pending, RenewedEnd(ms[k], kind, extend, today), today), today);
      && r[k].status == "Active"
      && r[k].paymentStatus == "Paid"
      && RemainingDays(r[k].endDate, today) >= PlanDuration(ms[k].plan)
  {
    var pending := PendingAfter(ms[k], amount, kind, extend, today);
    RecordedRow(ms, k, amount, pending, RenewedEnd(ms[k], kind, extend, today), today);
    RenewalReactivates(ms[k].endDate, ms[k].plan, today);
  }

  /**
   * Renewing an expired membership with part of the fee when something was already paid:
   * the stored pending value is the fee less the new amount only, while the stored amount paid
   * still includes the old payments, so the pending value is larger than the fee the stored
   * amount paid leaves open.
   */
  lemma ExpiredRenewalKeepsOldPaid(ms: seq<Member>, k: nat, amount: real, kind: string, today: Day)
    requires k < |ms| && Extends(kind, true) && IsExpired(ms[k], today)
    requires ms[k].amountPaid > 0.0 && 0.0 < amount < PlanFee(ms[k].plan)
    ensures var pending := PendingAfter(ms[k], amount, kind, true, today);
      var r := Swept(WithPayment(ms, ms[k].id, amount, pending, RenewedEnd(ms[k], kind, true, today), today), today);
      && r[k].amountPaid == ms[k].amountPaid + amount
      && r[k].pendingAmount == PlanFee(ms[k].plan) - amount
      && r[k].pendingAmount > PendingFee(ms[k].plan, r[k].amountPaid)
  {
    var pending := PendingAfter(ms[k], amount, kind, true, today);
    RecordedRow(ms, k, amount, pending, RenewedEnd(ms[k], kind, true, today), today);
  }

  /**
   * Fee reconciliation: when the member exists, a recorded payment raises the members' total
   * amount paid and the payment ledger by the same amount, so their difference is unchanged.
   */
  lemma RecordedPaymentKeepsBalance(ms: seq<Member>, ps: seq<Payment>, id: nat, p: Payment,
                                    pending: real, newEnd: Option<Day>, today: Day)
    requires forall i, j :: 0 <= i < j < |ms| ==> ms[i].id != ms[j].id
    requires MemberById(ms, id).Some?
    ensures PaidTotal(Swept(WithPayment(ms, id, p.amount, pending, newEnd, today), today)) - LedgerTotal(ps + [p])
            == PaidTotal(ms) - LedgerTotal(ps)
  {
    PaidTotalWithPayment(ms, id, p.amount, pending, newEnd, today);
    SweptKeepsPaidTotal(WithPayment(ms, id, p.amount, pending, newEnd, today), today);
    CollectedAppend(ps, p, None, None);
  }
}
