/**
 * The check-in screen (views/attendance.py): check-in by phone, check-in of a member picked from
 * the search results, and the status line shown for each search result.
 */
module AttendanceView {
  import opened Wrappers
  import opened Utils
  import opened Database

  datatype CheckInOutcome =
    | InvalidPhone
    | MemberNotFound
    | NoMemberSelected
    | AlreadyCheckedIn
    | MembershipExpired
    | PendingDeclined
    | TrainerDeclined
    | CheckedIn(memberId: nat, trainer: Option<string>)

  /** The pending-fee prompt is shown only for a 'Pending' member with a positive pending fee. */
  predicate PendingPrompt(m: Member)
  {
    m.paymentStatus == "Pending" && PendingFee(m.plan, m.amountPaid) > 0.0
  }

  /** At most one attendance row per member per day. */
  ghost predicate OncePerDay(rows: seq<Attendance>)
  {
    forall i, j :: 0 <= i < j < |rows| ==>
      rows[i].memberId != rows[j].memberId || rows[i].date != rows[j].date
  }

  /** A check-in of a member not yet checked in today keeps one row per member per day. */
  lemma CheckInKeepsOncePerDay(rows: seq<Attendance>, a: Attendance)
    requires OncePerDay(rows) && !CheckAlreadyCheckedIn(rows, a.memberId, a.date)
    ensures OncePerDay(rows + [a])
  {
    var r := rows + [a];
    forall i, j | 0 <= i < j < |r| ensures r[i].memberId != r[j].memberId || r[i].date != r[j].date {
      if j == |rows| {
        assert r[i] == rows[i];
      }
    }
  }

  // ---------------------------------------------------------------------------------------
  // verify_and_checkin

  /** What `verify_and_checkin` decides for the phone field `input`. */
  function PhoneCheckIn(ms: seq<Member>, rows: seq<Attendance>, input: string, continueWithPending: bool,
                        today: Day): (o: CheckInOutcome)
    ensures o == InvalidPhone <==> !ValidatePhone(Normalize(input))
    ensures o == MemberNotFound <==> ValidatePhone(Normalize(input)) && MemberByPhone(ms, Normalize(input)).None?
    ensures o == AlreadyCheckedIn || o == MembershipExpired || o == PendingDeclined || o.CheckedIn? ==>
      MemberByPhone(ms, Normalize(input)).Some?
    ensures o == AlreadyCheckedIn ==> CheckAlreadyCheckedIn(rows, MemberByPhone(ms, Normalize(input)).value.id, today)
    ensures o != NoMemberSelected && o != TrainerDeclined
  {
    var phone := Normalize(input);
    if !ValidatePhone(phone) then InvalidPhone
    else match MemberByPhone(ms, phone)
      case None => MemberNotFound
      case Some(m) =>
        if CheckAlreadyCheckedIn(rows, m.id, today) then AlreadyCheckedIn
        else if !IsMembershipValid(m.endDate, today) then MembershipExpired
        else if PendingPrompt(m) && !continueWithPending then PendingDeclined
        else CheckedIn(m.id, None)
  }

  /**
   * A phone check-in happens exactly when the phone is valid, names a stored member, that member
   * has not checked in today and is not expired, and any pending-fee prompt was accepted; it
   * never records a trainer.
   */
  lemma PhoneCheckInAdmits(ms: seq<Member>, rows: seq<Attendance>, input: string, continueWithPending: bool,
                           today: Day)
    ensures var o := PhoneCheckIn(ms, rows, input, continueWithPending, today);
      o.CheckedIn? <==>
        && ValidatePhone(Normalize(input))
        && MemberByPhone(ms, Normalize(input)).Some?
        && var m := MemberByPhone(ms, Normalize(input)).value;
        && !CheckAlreadyCheckedIn(rows, m.id, today)
        && IsMembershipValid(m.endDate, today)
        && (PendingPrompt(m) ==> continueWithPending)
    ensures var o := PhoneCheckIn(ms, rows, input, continueWithPending, today);
      o.CheckedIn? ==> o.trainer.None? && o.memberId == MemberByPhone(ms, Normalize(input)).value.id
  {
  }

  /**
   * `verify_and_checkin`: `continueWithPending` answers the pending-fee prompt and `time` is the
   * clock reading stored with the row.
   */
  method VerifyAndCheckIn(db: Store, input: string, continueWithPending: bool, today: Day, time: nat)
    returns (outcome: CheckInOutcome)
    requires db.Valid()
    modifies db
    ensures db.Valid()
    ensures outcome == PhoneCheckIn(old(db.members), old(db.attendance), input, continueWithPending, today)
    ensures !outcome.CheckedIn? ==> unchanged(db)
    ensures outcome.CheckedIn? ==>
      && db.attendance == old(db.attendance) + [Attendance(db.attendanceSeq, outcome.memberId, time, today, None)]
      && db.attendanceSeq == old(db.attendanceSeq) + 1
      && db.members == old(db.members) && db.payments == old(db.payments) && db.trainings == old(db.trainings)
      && db.memberSeq == old(db.memberSeq) && db.paymentSeq == old(db.paymentSeq)
      && db.trainingSeq == old(db.trainingSeq)
    ensures OncePerDay(old(db.attendance)) ==> OncePerDay(db.attendance)
  {
    var phone := Normalize(input);
    if !ValidatePhone(phone) {
      return InvalidPhone;
    }
    var found := MemberByPhone(db.members, phone);
    if found.None? {
      return MemberNotFound;
    }
    var m := found.value;
    if CheckAlreadyCheckedIn(db.attendance, m.id, today) {
      return AlreadyCheckedIn;
    }
    if !IsMembershipValid(m.endDate, today) {
      return MembershipExpired;
    }
    if m.paymentStatus == "Pending" {
      var pending := PendingFee(m.plan, m.amountPaid);
      if pending > 0.0 && !continueWithPending {
        return PendingDeclined;
      }
    }
    if OncePerDay(db.attendance) {
      CheckInKeepsOncePerDay(db.attendance, Attendance(db.attendanceSeq + 1, m.id, time, today, None));
    }
    db.AddAttendance(m.id, None, today, time);
    outcome := CheckedIn(m.id, None);
  }

  // ---------------------------------------------------------------------------------------
  // do_checkin

  /** What `do_checkin` decides for the selected member snapshot and trainer choice. */
  function SelectedCheckIn(ts: seq<Training>, rows: seq<Attendance>, selected: Option<Member>, trainer: string,
                           continueWithPending: bool, continueWithoutTrainer: bool, today: Day): (o: CheckInOutcome)
    ensures o == NoMemberSelected <==> selected.None?
    ensures o == MembershipExpired <==> selected.Some? && !IsMembershipValid(selected.value.endDate, today)
    ensures o == AlreadyCheckedIn <==>
      selected.Some? && IsMembershipValid(selected.value.endDate, today)
      && CheckAlreadyCheckedIn(rows, selected.value.id, today)
    ensures o.CheckedIn? ==> selected.Some? && o.memberId == selected.value.id
    ensures o.CheckedIn? && trainer == "None" ==> o.trainer.None?
    ensures o != InvalidPhone && o != MemberNotFound
  {
    match selected
    case None => NoMemberSelected
    case Some(m) =>
      if !IsMembershipValid(m.endDate, today) then MembershipExpired
      else if CheckAlreadyCheckedIn(rows, m.id, today) then AlreadyCheckedIn
      else if PendingPrompt(m) && !continueWithPending then PendingDeclined
      else if trainer == "None" then CheckedIn(m.id, None)
      else if ActiveTraining(ts, m.id, today).Some? then CheckedIn(m.id, Some(trainer))
      else if continueWithoutTrainer then CheckedIn(m.id, None)
      else TrainerDeclined
  }

  /**
   * A check-in from the search results happens exactly when a member is selected, is not expired,
   * has not checked in today, accepted any pending-fee prompt and, when a trainer was picked who
   * has no active training with the member, agreed to continue without one; declining the
   * pending-fee prompt refuses the check-in whatever trainer was picked.
   */
  lemma SelectedCheckInAdmits(ts: seq<Training>, rows: seq<Attendance>, selected: Option<Member>, trainer: string,
                              continueWithPending: bool, continueWithoutTrainer: bool, today: Day)
    ensures var o := SelectedCheckIn(ts, rows, selected, trainer, continueWithPending, continueWithoutTrainer, today);
      o.CheckedIn? <==>
        && selected.Some?
        && IsMembershipValid(selected.value.endDate, today)
        && !CheckAlreadyCheckedIn(rows, selected.value.id, today)
        && (PendingPrompt(selected.value) ==> continueWithPending)
        && (trainer != "None" && ActiveTraining(ts, selected.value.id, today).None? ==> continueWithoutTrainer)
    ensures var o := SelectedCheckIn(ts, rows, selected, trainer, continueWithPending, continueWithoutTrainer, today);
      o == PendingDeclined <==>
        && selected.Some?
        && IsMembershipValid(selected.value.endDate, today)
        && !CheckAlreadyCheckedIn(rows, selected.value.id, today)
        && PendingPrompt(selected.value) && !continueWithPending
  {
  }

  /**
   * The requested trainer is recorded exactly when one other than "None" was chosen, the member
   * has an active training and every earlier guard passed; without an active training the
   * check-in proceeds without trainer only on confirmation.
   */
  lemma SelectedTrainerNeedsActiveTraining(ts: seq<Training>, rows: seq<Attendance>, m: Member, trainer: string,
                                           continueWithPending: bool, continueWithoutTrainer: bool, today: Day)
    ensures var o := SelectedCheckIn(ts, rows, Some(m), trainer, continueWithPending, continueWithoutTrainer, today);
      (o.CheckedIn? && o.trainer.Some?) <==>
        && IsMembershipValid(m.endDate, today) && !CheckAlreadyCheckedIn(rows, m.id, today)
        && (PendingPrompt(m) ==> continueWithPending)
        && trainer != "None"
        && exists t :: t in ts && ActiveTrainingOf(t, m.id, today)
    ensures var o := SelectedCheckIn(ts, rows, Some(m), trainer, continueWithPending, continueWithoutTrainer, today);
      o.CheckedIn? && o.trainer.Some? ==> o.trainer.value == trainer
    ensures var o := SelectedCheckIn(ts, rows, Some(m), trainer, continueWithPending, continueWithoutTrainer, today);
      o == TrainerDeclined <==>
        && IsMembershipValid(m.endDate, today) && !CheckAlreadyCheckedIn(rows, m.id, today)
        && (PendingPrompt(m) ==> continueWithPending)
        && trainer != "None" && ActiveTraining(ts, m.id, today).None? && !continueWithoutTrainer
  {
    var r := ActiveTraining(ts, m.id, today);
    if r.Some? {
      assert r.value in ts && ActiveTrainingOf(r.value, m.id, today);
    }
  }

  /**
   * `do_checkin` on the member picked from the search results. The expiry guard reads the
   * snapshot; the checked-in guard and the training lookup read the store.
   */
  method DoCheckIn(db: Store, selected: Option<Member>, trainerChoice: string, continueWithPending: bool,
                   continueWithoutTrainer: bool, today: Day, time: nat)
    returns (outcome: CheckInOutcome)
    requires db.Valid()
    modifies db
    ensures db.Valid()
    ensures outcome == SelectedCheckIn(old(db.trainings), old(db.attendance), selected, trainerChoice,
                                       continueWithPending, continueWithoutTrainer, today)
    ensures !outcome.CheckedIn? ==> unchanged(db)
    ensures outcome.CheckedIn? ==>
      && db.attendance == old(db.attendance) + [Attendance(db.attendanceSeq, outcome.memberId, time, today, outcome.trainer)]
      && db.attendanceSeq == old(db.attendanceSeq) + 1
      && db.members == old(db.members) && db.payments == old(db.payments) && db.trainings == old(db.trainings)
      && db.memberSeq == old(db.memberSeq) && db.paymentSeq == old(db.paymentSeq)
      && db.trainingSeq == old(db.trainingSeq)
    ensures OncePerDay(old(db.attendance)) ==> OncePerDay(db.attendance)
  {
    if selected.None? {
      return NoMemberSelected;
    }
    var m := selected.value;
    if !IsMembershipValid(m.endDate, today) {
      return MembershipExpired;
    }
    if CheckAlreadyCheckedIn(db.attendance, m.id, today) {
      return AlreadyCheckedIn;
    }
    if m.paymentStatus == "Pending" {
      var pending := PendingFee(m.plan, m.amountPaid);
      if pending > 0.0 && !continueWithPending {
        return PendingDeclined;
      }
    }
    var trainer: Option<string> := Some(trainerChoice);
    if trainerChoice != "None" {
      var training := ActiveTraining(db.trainings, m.id, today);
      if training.None? {
        if !continueWithoutTrainer {
          return TrainerDeclined;
        }
        trainer := None;
      } else if !IsMembershipValid(training.value.endDate, today) {
        // the query keeps only rows whose end date is today or later
        assert false;
      }
    } else {
      trainer := None;
    }
    if OncePerDay(db.attendance) {
      CheckInKeepsOncePerDay(db.attendance, Attendance(db.attendanceSeq + 1, m.id, time, today, trainer));
    }
    db.AddAttendance(m.id, trainer, today, time);
    outcome := CheckedIn(m.id, trainer);
  }

  // ---------------------------------------------------------------------------------------
  // on_search

  /** The status line of a search result. */
  datatype SearchStatus = CheckedInToday | Expired | FeePending(daysLeft: nat) | DaysLeft(daysLeft: nat)

  /** `on_search`: checked in over expired over stored 'Pending' status over the days left. */
  function SearchStatusOf(m: Member, rows: seq<Attendance>, today: Day): (s: SearchStatus)
    ensures s == CheckedInToday <==> CheckAlreadyCheckedIn(rows, m.id, today)
    ensures s == Expired <==> !CheckAlreadyCheckedIn(rows, m.id, today) && !IsMembershipValid(m.endDate, today)
    ensures s.FeePending? <==> !CheckAlreadyCheckedIn(rows, m.id, today) && IsMembershipValid(m.endDate, today)
                               && m.paymentStatus == "Pending"
    ensures (s.FeePending? || s.DaysLeft?) ==> s.daysLeft == m.endDate - today
  {
    var remaining := RemainingDays(m.endDate, today);
    if CheckAlreadyCheckedIn(rows, m.id, today) then CheckedInToday
    else if !IsMembershipValid(m.endDate, today) then Expired
    else if m.paymentStatus == "Pending" then FeePending(remaining)
    else DaysLeft(remaining)
  }

  /** The Select button is enabled unless the member checked in today or has expired. */
  predicate Selectable(m: Member, rows: seq<Attendance>, today: Day)
  {
    !CheckAlreadyCheckedIn(rows, m.id, today) && IsMembershipValid(m.endDate, today)
  }

  /**
   * A search result whose button is disabled is one that both check-in paths would refuse on
   * the same tables, and a selectable one passes the guards both paths share.
   */
  lemma DisabledResultsAreRefused(ms: seq<Member>, ts: seq<Training>, rows: seq<Attendance>, m: Member,
                                  input: string, trainer: string, continueWithPending: bool,
                                  continueWithoutTrainer: bool, today: Day)
    ensures Selectable(m, rows, today) <==> SearchStatusOf(m, rows, today).FeePending? || SearchStatusOf(m, rows, today).DaysLeft?
    ensures !Selectable(m, rows, today) ==>
      !SelectedCheckIn(ts, rows, Some(m), trainer, continueWithPending, continueWithoutTrainer, today).CheckedIn?
    ensures !Selectable(m, rows, today) && MemberByPhone(ms, Normalize(input)) == Some(m) ==>
      !PhoneCheckIn(ms, rows, input, continueWithPending, today).CheckedIn?
  {
  }
}
