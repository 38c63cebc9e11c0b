/**
 * Fee and date rules of the gym (utils.py).
 *
 * Calendar dates are day numbers: the stores keep them as 'YYYY-MM-DD' text, whose
 * lexicographic order is the order of the days, and `date.today()` is the parameter `today`.
 * Amounts are reals.
 */
module Utils {
  import opened Wrappers

  type Day = int

  /** The fee charged for a plan name the tables do not know. */
  const DEFAULT_FEE: real := 1200.0
  /** The duration, in days, of a plan name the tables do not know. */
  const DEFAULT_DURATION: int := 30

  /** FEE_MAP, the official price list. */
  const FEE_MAP: map<string, real> := map["Monthly" := 1200.0, "Quarterly" := 3200.0, "Yearly" := 12000.0]

  /** MEMBERSHIP_DURATION, in days. */
  const MEMBERSHIP_DURATION: map<string, int> := map["Monthly" := 30, "Quarterly" := 90, "Yearly" := 365]

  /** `FEE_MAP.get(plan, 1200)`. */
  function PlanFee(plan: string): (fee: real)
    ensures fee >= DEFAULT_FEE
    ensures plan !in FEE_MAP ==> fee == FEE_MAP["Monthly"]
  {
    if plan in FEE_MAP then FEE_MAP[plan] else DEFAULT_FEE
  }

  /** `get_membership_fee`: a second, separately written copy of the price list. */
  function MembershipFee(plan: string): (fee: real)
    ensures fee == PlanFee(plan)
  {
    var fees := map["Monthly" := 1200.0, "Quarterly" := 3200.0, "Yearly" := 12000.0];
    if plan in fees then fees[plan] else 1200.0
  }

  /** `MEMBERSHIP_DURATION.get(plan, 30)`. */
  function PlanDuration(plan: string): (days: int)
    ensures days >= DEFAULT_DURATION
    ensures plan !in MEMBERSHIP_DURATION ==> days == MEMBERSHIP_DURATION["Monthly"]
  {
    if plan in MEMBERSHIP_DURATION then MEMBERSHIP_DURATION[plan] else DEFAULT_DURATION
  }

  /** `calculate_end_date`: its own if-chain, which agrees with MEMBERSHIP_DURATION. */
  function EndDate(start: Day, plan: string): (end: Day)
    ensures end == start + PlanDuration(plan)
    ensures end > start
  {
    if plan == "Monthly" then start + 30
    else if plan == "Quarterly" then start + 90
    else if plan == "Yearly" then start + 365
    else start + 30
  }

  /** `calculate_training_end_date`: a month of training is 30 days. */
  function TrainingEndDate(start: Day, months: int): (end: Day)
    ensures (end - start) % 30 == 0
    ensures end >= start <==> months >= 0
  {
    start + months * 30
  }

  /** `get_remaining_days`: the days left until `end`, floored at zero. */
  function RemainingDays(end: Day, today: Day): (days: nat)
    ensures end >= today ==> days == end - today
    ensures end < today ==> days == 0
  {
    if end - today > 0 then end - today else 0
  }

  /** `is_membership_valid`: the boundary is inclusive. */
  predicate IsMembershipValid(end: Day, today: Day)
  {
    end >= today
  }

  /** `get_membership_status`. */
  function MembershipStatus(end: Day, today: Day): (status: string)
    ensures status == "Active" <==> IsMembershipValid(end, today)
    ensures status == "Expired" <==> !IsMembershipValid(end, today)
  {
    if end >= today then "Active" else "Expired"
  }

  /** A membership that ends today is still valid, yet has no remaining days. */
  lemma LastDayIsStillActive(end: Day, today: Day)
    ensures (IsMembershipValid(end, today) && RemainingDays(end, today) == 0) <==> end == today
    ensures RemainingDays(end, today) > 0 ==> MembershipStatus(end, today) == "Active"
  {
  }

  /** `max(0, x)`, as Python's built-in max on a fee difference. */
  function Max0(x: real): real
  {
    if x > 0.0 then x else 0.0
  }

  /** `calculate_pending_fee`: the plan fee still owed, never negative; overpayment is absorbed. */
  function PendingFee(plan: string, amountPaid: real): (pending: real)
    ensures pending >= 0.0
    ensures pending == 0.0 <==> amountPaid >= PlanFee(plan)
    ensures amountPaid <= PlanFee(plan) ==> pending == PlanFee(plan) - amountPaid
    ensures amountPaid >= 0.0 ==> pending <= PlanFee(plan)
  {
    Max0(PlanFee(plan) - amountPaid)
  }

  /**
   * `calculate_new_end_date`: a renewal extends from the old end date while the membership
   * is still valid, and from today once it has lapsed.
   */
  function NewEndDate(currentEnd: Day, plan: string, today: Day): (end: Day)
    ensures end >= currentEnd + PlanDuration(plan) && end >= today + PlanDuration(plan)
    ensures currentEnd < today ==> end == today + PlanDuration(plan)
    ensures currentEnd >= today ==> end == currentEnd + PlanDuration(plan)
  {
    var startFrom := if currentEnd >= today then currentEnd else today;
    startFrom + PlanDuration(plan)
  }

  /** A renewal always leaves the membership Active with at least one full plan period left. */
  lemma RenewalReactivates(currentEnd: Day, plan: string, today: Day)
    ensures MembershipStatus(NewEndDate(currentEnd, plan, today), today) == "Active"
    ensures RemainingDays(NewEndDate(currentEnd, plan, today), today) >= PlanDuration(plan)
    ensures RemainingDays(NewEndDate(currentEnd, plan, today), today)
            == RemainingDays(currentEnd, today) + PlanDuration(plan)
  {
  }

  // ---------------------------------------------------------------------------------------
  // Phone and age validation

  /** Python's `str.isspace()` for one character: the characters `str.strip()` removes. */
  predicate IsSpace(c: char)
  {
    ('\t' <= c <= '\r') || ('\U{1C}' <= c <= ' ') || c == '\U{85}' || c == '\U{A0}' || c == '\U{1680}'
    || ('\U{2000}' <= c <= '\U{200A}') || c == '\U{2028}' || c == '\U{2029}' || c == '\U{202F}'
    || c == '\U{205F}' || c == '\U{3000}'
  }

  /** Leading whitespace removed. */
  function TrimLeft(s: string): (r: string)
    ensures |r| <= |s|
    ensures r != [] ==> !IsSpace(r[0])
    ensures forall i :: 0 <= i < |s| - |r| ==> IsSpace(s[i])
  {
    if s != [] && IsSpace(s[0]) then TrimLeft(s[1..]) else s
  }

  /** Trailing whitespace removed. */
  function TrimRight(s: string): (r: string)
    ensures |r| <= |s|
    ensures r != [] ==> !IsSpace(r[|r| - 1])
    ensures forall i :: |r| <= i < |s| ==> IsSpace(s[i])
  {
    if s != [] && IsSpace(s[|s| - 1]) then TrimRight(s[..|s| - 1]) else s
  }

  /** Trimming on the left keeps a suffix: only leading characters are dropped. */
  lemma {:induction false} TrimLeftKeepsSuffix(s: string)
    ensures TrimLeft(s) == s[|s| - |TrimLeft(s)|..]
  {
    if s != [] && IsSpace(s[0]) {
      TrimLeftKeepsSuffix(s[1..]);
    }
  }

  /** Trimming on the right keeps a prefix: only trailing characters are dropped. */
  lemma {:induction false} TrimRightKeepsPrefix(s: string)
    ensures TrimRight(s) == s[..|TrimRight(s)|]
  {
    if s != [] && IsSpace(s[|s| - 1]) {
      TrimRightKeepsPrefix(s[..|s| - 1]);
    }
  }

  /** `str.strip()` with no argument: the result is neither led nor trailed by whitespace. */
  function Strip(s: string): (r: string)
    ensures |r| <= |s|
    ensures r != [] ==> !IsSpace(r[0]) && !IsSpace(r[|r| - 1])
  {
    var l := TrimLeft(s);
    TrimRightKeepsPrefix(l);
    TrimRight(l)
  }

  /** `.replace(" ", "").replace("-", "")`: every space and hyphen dropped, the rest kept in order. */
  function RemoveSeparators(s: string): (r: string)
    ensures |r| <= |s|
    ensures forall i :: 0 <= i < |r| ==> r[i] != ' ' && r[i] != '-'
    ensures forall c :: c != ' ' && c != '-' ==> multiset(r)[c] == multiset(s)[c]
  {
    if s == [] then []
    else
      assert s == [s[0]] + s[1..];
      (if s[0] == ' ' || s[0] == '-' then [] else [s[0]]) + RemoveSeparators(s[1..])
  }

  /** The characters kept keep their order: removing separators distributes over concatenation. */
  lemma {:induction false} RemoveSeparatorsAppend(a: string, b: string)
    ensures RemoveSeparators(a + b) == RemoveSeparators(a) + RemoveSeparators(b)
  {
    if a != [] {
      assert (a + b)[0] == a[0] && (a + b)[1..] == a[1..] + b;
      RemoveSeparatorsAppend(a[1..], b);
    } else {
      assert a + b == b;
    }
  }

  /** `phone.strip().replace(" ", "").replace("-", "")`, the normal form of a phone number. */
  function Normalize(phone: string): (r: string)
    ensures |r| <= |phone| && NoSeparators(r)
  {
    RemoveSeparators(Strip(phone))
  }

  predicate IsDigit(c: char)
  {
    '0' <= c <= '9'
  }

  predicate AllDigits(s: string)
  {
    forall i :: 0 <= i < |s| ==> IsDigit(s[i])
  }

  /** `validate_phone`: at least ten characters once normalized, all of them digits. */
  predicate ValidatePhone(phone: string): (ok: bool)
    ensures ok ==> |phone| >= 10
  {
    var p := Normalize(phone);
    |p| >= 10 && AllDigits(p)
  }

  lemma DigitIsNotSpace(c: char)
    requires IsDigit(c)
    ensures !IsSpace(c)
  {
  }

  /** `strip` leaves a string alone whose ends are not whitespace. */
  lemma {:induction false} StripFixesUnpadded(s: string)
    requires s != [] ==> !IsSpace(s[0]) && !IsSpace(s[|s| - 1])
    ensures Strip(s) == s
  {
  }

  /** A string of digits is already in normal form. */
  lemma {:induction false} NormalizeFixesDigits(s: string)
    requires AllDigits(s)
    ensures Normalize(s) == s
  {
    if s != [] {
      DigitIsNotSpace(s[0]);
      DigitIsNotSpace(s[|s| - 1]);
    }
    StripFixesUnpadded(s);
    RemoveSeparatorsFixesDigits(s);
  }

  lemma {:induction false} RemoveSeparatorsFixesDigits(s: string)
    requires AllDigits(s)
    ensures RemoveSeparators(s) == s
  {
    if s != [] {
      assert IsDigit(s[0]);
      RemoveSeparatorsFixesDigits(s[1..]);
      assert [s[0]] + s[1..] == s;
    }
  }

  /** A phone accepted by `validate_phone` normalizes to a string that is its own normal form. */
  lemma ValidPhoneNormalFormIsStable(phone: string)
    requires ValidatePhone(phone)
    ensures Normalize(Normalize(phone)) == Normalize(phone)
    ensures ValidatePhone(Normalize(phone))
  {
    NormalizeFixesDigits(Normalize(phone));
  }

  /**
   * Normalizing twice is not normalizing once: removing a hyphen can expose whitespace that
   * `strip` had left inside the string. For digits `d`, "-\t" + d normalizes to "\t" + d,
   * which a second normalization turns into d.
   */
  lemma {:induction false} NormalizeIsNotIdempotent(d: string)
    requires d != [] && AllDigits(d)
    ensures Normalize(['-', '\t'] + d) == ['\t'] + d
    ensures Normalize(['\t'] + d) == d
  {
    var tabbed := ['\t'] + d;
    var hyphened := ['-'] + tabbed;
    assert ['-', '\t'] + d == hyphened;
    assert hyphened[1..] == tabbed && tabbed[1..] == d;
    DigitIsNotSpace(d[0]);
    DigitIsNotSpace(d[|d| - 1]);
    assert hyphened[|hyphened| - 1] == d[|d| - 1];
    StripFixesUnpadded(hyphened);
    StripFixesUnpadded(d);
    RemoveSeparatorsFixesDigits(d);
    assert RemoveSeparators(tabbed) == tabbed;
    assert TrimLeft(tabbed) == TrimLeft(d);
  }

  /**
   * So `validate_phone` refuses "-\t" + d for a ten-digit d, and accepts its normal form
   * "\t" + d, which is not a string of digits.
   */
  lemma TabbedPhoneIsAcceptedOnceNormalized(d: string)
    requires |d| >= 10 && AllDigits(d)
    ensures ValidatePhone(Normalize(['-', '\t'] + d))
    ensures !ValidatePhone(['-', '\t'] + d)
    ensures !AllDigits(Normalize(['-', '\t'] + d))
  {
    NormalizeIsNotIdempotent(d);
    assert !IsDigit((['\t'] + d)[0]);
  }

  /** No space or hyphen anywhere in `s`. */
  predicate NoSeparators(s: string)
  {
    forall i :: 0 <= i < |s| ==> s[i] != ' ' && s[i] != '-'
  }

  lemma {:induction false} RemoveSeparatorsFixesClean(s: string)
    requires NoSeparators(s)
    ensures RemoveSeparators(s) == s
  {
    if s != [] {
      assert NoSeparators(s[1..]) by {
        forall i | 0 <= i < |s| - 1 ensures s[1..][i] == s[i + 1] { }
      }
      RemoveSeparatorsFixesClean(s[1..]);
      assert [s[0]] + s[1..] == s;
    }
  }

  /** `strip` keeps a contiguous piece of its argument, and its first character is not whitespace. */
  lemma StripIsInner(s: string) returns (k: nat)
    ensures k + |Strip(s)| <= |s| && Strip(s) == s[k..k + |Strip(s)|]
    ensures Strip(s) != [] ==> !IsSpace(Strip(s)[0])
  {
    var l := TrimLeft(s);
    TrimLeftKeepsSuffix(s);
    TrimRightKeepsPrefix(l);
    k := |s| - |l|;
    assert Strip(s) == l[..|Strip(s)|];
    assert Strip(s) == s[k..k + |Strip(s)|];
    if Strip(s) != [] {
      assert Strip(s)[0] == l[0];
    }
  }

  /**
   * The key the views look phones up with is normalized twice, and that never starts with
   * whitespace: the first pass leaves no separator behind, so the second is a plain strip.
   */
  lemma TwiceNormalizedIsUnpadded(phone: string)
    ensures var r := Normalize(Normalize(phone)); r != [] ==> !IsSpace(r[0])
  {
    var once := Normalize(phone);
    var k := StripIsInner(once);
    assert NoSeparators(Strip(once)) by {
      forall i | 0 <= i < |Strip(once)| ensures Strip(once)[i] == once[k + i] { }
    }
    RemoveSeparatorsFixesClean(Strip(once));
  }

  /** `validate_age`, given what `int(age)` made of the field (None when it raised). */
  predicate ValidateAge(age: Option<int>)
  {
    age.Some? && 10 <= age.value <= 100
  }
}
