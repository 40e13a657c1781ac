/**
 * The landlord's lease agent: the early-termination penalty calculator, the
 * notice it drafts, and the scan for leases that expire within 90 days.
 */
module LeaseAI {
  import opened Wrappers
  import opened Text
  import opened Calendar

  /** An active lease with the tenant and unit it was loaded with. */
  datatype Lease = Lease(
    id: string,
    start: Date,
    end: Date,
    rent: int,
    tenantName: Option<string>,
    propertyName: Option<string>,
    unitNumber: Option<string>)

  /** Months from the lease start during which an early move-out costs two months' rent. */
  const LockInMonths := 6

  const Peso := "\U{20B1}"

  // ------------------------------------------------------------- the rules

  /** Whole months from the move-out month to the lease-end month; the day of month plays no part. */
  function RemainingMonths(end: Date, moveOut: Date): (r: nat)
    ensures r == 0 <==> MonthIndex(end) <= MonthIndex(moveOut)
    ensures r > 0 ==> MonthIndex(moveOut) + r == MonthIndex(end)
  {
    var diff := (end.year - moveOut.year) * 12 + (end.month - moveOut.month);
    if diff > 0 then diff else 0
  }

  /** The move-out falls before the lease start plus six months. */
  predicate WithinLockIn(start: Date, moveOut: Date)
    ensures WithinLockIn(start, moveOut) <==>
      MonthIndex(moveOut) < MonthIndex(start) + LockInMonths
      || (MonthIndex(moveOut) == MonthIndex(start) + LockInMonths && moveOut.day < start.day)
  {
    Before(moveOut, AddMonths(start, LockInMonths))
  }

  datatype PenaltyType = NoPenalty | MonthsRent {
    /** The label stored in the breakdown. */
    function Label(): string {
      match this
      case NoPenalty => "none"
      case MonthsRent => "months_rent"
    }
  }

  /** How the penalty was reached: the rent, the rule that fired and how many months it charges. */
  datatype Breakdown = Breakdown(monthlyRent: int, penaltyType: PenaltyType, penaltyValue: nat)

  /** The penalty policy; the first rule that matches wins. */
  function Assess(rent: int, withinLockIn: bool, remaining: nat): (b: Breakdown)
    ensures b.monthlyRent == rent
    ensures b.penaltyType == NoPenalty <==> b.penaltyValue == 0
    ensures withinLockIn ==> b.penaltyValue == 2
    ensures !withinLockIn && remaining > 3 ==> b.penaltyValue == 1
    ensures !withinLockIn && remaining <= 3 ==> b.penaltyValue == 0
  {
    if withinLockIn then Breakdown(rent, MonthsRent, 2)
    else if remaining > 3 then Breakdown(rent, MonthsRent, 1)
    else Breakdown(rent, NoPenalty, 0)
  }

  /** The fee the breakdown charges. */
  function PenaltyOf(b: Breakdown): int {
    b.monthlyRent * b.penaltyValue
  }

  // ------------------------------------------------------------- the notice

  function TenantName(lease: Lease): string {
    OrElse(lease.tenantName, "Tenant")
  }

  function Recommendation(name: string, withinLockIn: bool, remaining: nat, penalty: int): string {
    if withinLockIn then
      name + " is within lock-in period. Penalty of " + Peso + FormatAmount(penalty) + " (2 months rent) applies."
    else if remaining > 3 then
      name + " is outside lock-in with " + NatToString(remaining) + " months remaining. Standard penalty of "
      + Peso + FormatAmount(penalty) + " applies."
    else
      name + " has only " + NatToString(remaining) + " months left. Consider waiving penalty as goodwill."
  }

  function NoticeSubject(name: string): string {
    "Re: Early Move-Out Request - " + name
  }

  /** The greeting paragraph and the request sentence, up to the paragraph about the fee. */
  function NoticeOpening(lease: Lease): string {
    var unit := OrElse(lease.unitNumber, "");
    "Dear " + TenantName(lease) + ",\n\nThank you for your request to terminate early at "
    + OrElse(lease.propertyName, "property") + (if unit != "" then " Unit " + unit else "") + ".\n\n"
  }

  const FeeLead := "A termination fee of "
  const NoFeeLead := "No penalty applies"
  const NoFeeSentence := NoFeeLead + " given the remaining lease term."
  const NoticeClosing := "\n\nPlease confirm to proceed.\n\nBest regards"

  function FeeParagraph(penalty: int): string {
    if penalty > 0 then FeeLead + Peso + FormatAmount(penalty) + " applies based on your lease terms."
    else NoFeeSentence
  }

  /** The notice sent to the tenant: the opening, the fee paragraph and the closing. */
  function NoticeBody(lease: Lease, penalty: int): string {
    NoticeOpening(lease) + FeeParagraph(penalty) + NoticeClosing
  }

  // -------------------------------------------------------------- calculate

  /** The figures of a calculation, before any text is drafted. */
  datatype Assessment = Assessment(remainingMonths: nat, withinLockIn: bool, breakdown: Breakdown, penalty: int)

  /** The remaining months, the lock-in test and the penalty policy applied to one lease. */
  function Evaluate(lease: Lease, moveOut: Date): (a: Assessment)
    ensures a.penalty == PenaltyOf(a.breakdown) && a.breakdown.monthlyRent == lease.rent
    ensures a.penalty == 0 || a.penalty == lease.rent || a.penalty == 2 * lease.rent
  {
    var remaining := RemainingMonths(lease.end, moveOut);
    var within := WithinLockIn(lease.start, moveOut);
    var b := Assess(lease.rent, within, remaining);
    Assessment(remaining, within, b, PenaltyOf(b))
  }

  datatype TerminationResult = TerminationResult(
    lease: Lease,
    moveOut: Date,
    penalty: int,
    remainingMonths: nat,
    withinLockIn: bool,
    breakdown: Breakdown,
    recommendation: string,
    subject: string,
    body: string)

  /** What `calculate` stores for a lease and a move-out date: the figures, the recommendation and the notice. */
  function Terminate(lease: Lease, moveOut: Date): (r: TerminationResult)
    ensures var a := Evaluate(lease, moveOut);
      r.penalty == a.penalty && r.remainingMonths == a.remainingMonths
      && r.withinLockIn == a.withinLockIn && r.breakdown == a.breakdown
    ensures r.lease == lease && r.moveOut == moveOut
    ensures var a := Evaluate(lease, moveOut);
      r.recommendation == Recommendation(OrElse(lease.tenantName, "Tenant"), a.withinLockIn, a.remainingMonths, a.penalty)
    ensures r.subject == NoticeSubject(OrElse(lease.tenantName, "Tenant"))
    ensures r.body == NoticeBody(lease, r.penalty)
  {
    var a := Evaluate(lease, moveOut);
    var name := TenantName(lease);
    TerminationResult(lease, moveOut, a.penalty, a.remainingMonths, a.withinLockIn, a.breakdown,
      Recommendation(name, a.withinLockIn, a.remainingMonths, a.penalty),
      NoticeSubject(name),
      NoticeBody(lease, a.penalty))
  }

  /** The penalty rules in the order the calculator tries them. */
  lemma {:induction false} PenaltyRules(lease: Lease, moveOut: Date)
    ensures var a := Evaluate(lease, moveOut);
      && (a.withinLockIn <==> Before(moveOut, AddMonths(lease.start, LockInMonths)))
      && (a.withinLockIn ==> a.penalty == 2 * lease.rent && a.breakdown.penaltyType == MonthsRent)
      && (!a.withinLockIn && a.remainingMonths > 3 ==> a.penalty == lease.rent && a.breakdown.penaltyValue == 1)
      && (!a.withinLockIn && a.remainingMonths <= 3 ==> a.penalty == 0 && a.breakdown.penaltyType == NoPenalty)
  {
    var a := Evaluate(lease, moveOut);
    assert a.withinLockIn == WithinLockIn(lease.start, moveOut);
    assert a.breakdown == Assess(lease.rent, a.withinLockIn, a.remainingMonths);
  }

  /** With a non-negative rent the penalty is never negative and never more than two months' rent. */
  lemma {:induction false} PenaltyBounds(lease: Lease, moveOut: Date)
    requires lease.rent >= 0
    ensures 0 <= Evaluate(lease, moveOut).penalty <= 2 * lease.rent
  {
    var a := Evaluate(lease, moveOut);
    assert a.breakdown.penaltyValue <= 2;
  }

  /** The fee paragraph opens with the fee announcement exactly when there is a fee, and with "No penalty applies" otherwise. */
  lemma FeeParagraphLead(penalty: int, tail: string)
    ensures StartsWith(FeeParagraph(penalty) + tail, FeeLead) <==> penalty > 0
    ensures StartsWith(FeeParagraph(penalty) + tail, NoFeeLead) <==> penalty <= 0
  {
    var rest := FeeParagraph(penalty) + tail;
    assert FeeLead[0] == 'A' && NoFeeLead[0] == 'N';
    if penalty > 0 {
      assert rest[..|FeeLead|] == FeeLead;
      assert rest[0] == 'A';
    } else {
      assert rest[..|NoFeeLead|] == NoFeeLead;
      assert rest[0] == 'N';
    }
  }

  /** The paragraph after the opening of the notice announces a fee exactly when the penalty is positive, and says that none applies otherwise. */
  lemma {:induction false} NoticeStatesFee(lease: Lease, moveOut: Date)
    ensures var r := Terminate(lease, moveOut);
      var k := |NoticeOpening(lease)|;
      && k <= |r.body|
      && (StartsWith(r.body[k..], FeeLead) <==> r.penalty > 0)
      && (StartsWith(r.body[k..], NoFeeLead) <==> r.penalty <= 0)
  {
    var r := Terminate(lease, moveOut);
    var k := |NoticeOpening(lease)|;
    assert r.body == NoticeBody(lease, r.penalty);
    assert r.body[k..] == FeeParagraph(r.penalty) + NoticeClosing;
    FeeParagraphLead(r.penalty, NoticeClosing);
  }

  /** A move-out in September from a lease ending in December leaves 3 months, so outside the lock-in there is no fee. */
  lemma SeptemberMoveOutScenario()
    ensures var lease := Lease("l1", Date(2025, 1, 1), Date(2025, 12, 31), 10000, None, None, None);
      var a := Evaluate(lease, Date(2025, 9, 1));
      a.remainingMonths == 3 && !a.withinLockIn && a.penalty == 0
  {
  }

  /** The lock-in and one-month cases on the same lease. */
  lemma LeaseScenarios()
    ensures var lease := Lease("l1", Date(2025, 1, 1), Date(2025, 12, 31), 10000, None, None, None);
      && Evaluate(lease, Date(2025, 3, 1)).withinLockIn && Evaluate(lease, Date(2025, 3, 1)).penalty == 20000
      && !Evaluate(lease, Date(2025, 7, 1)).withinLockIn && Evaluate(lease, Date(2025, 6, 30)).withinLockIn
      && Evaluate(lease, Date(2025, 8, 1)).remainingMonths == 4 && Evaluate(lease, Date(2025, 8, 1)).penalty == 10000
      && Evaluate(lease, Date(2025, 11, 1)).penalty == 0
  {
  }

  // ---------------------------------------------------------------- renewals

  /** A lease that expires soon, with the days left until its end date. */
  datatype RenewalAlert = RenewalAlert(lease: Lease, daysUntilExpiry: int)

  /** Days from today to the lease end, rounded up: the end date's day number minus today's. */
  function DaysUntilExpiry(lease: Lease, today: Date): int {
    DayNumber(lease.end) - DayNumber(today)
  }

  predicate InRenewalWindow(days: int) {
    0 < days <= 90
  }

  /** The alerts pushed while scanning `leases` in order, before sorting. */
  function WindowAlerts(leases: seq<Lease>, today: Date): seq<RenewalAlert>
  {
    if leases == [] then []
    else
      var last := leases[|leases| - 1];
      var days := DaysUntilExpiry(last, today);
      WindowAlerts(leases[..|leases| - 1], today) + (if InRenewalWindow(days) then [RenewalAlert(last, days)] else [])
  }

  /** An alert is pushed exactly for each lease whose expiry is 1 to 90 days away, carrying that count. */
  lemma {:induction false} WindowAlertsMembers(leases: seq<Lease>, today: Date, a: RenewalAlert)
    ensures a in WindowAlerts(leases, today) <==>
      a.lease in leases && a.daysUntilExpiry == DaysUntilExpiry(a.lease, today) && InRenewalWindow(a.daysUntilExpiry)
  {
    if leases != [] {
      var init := leases[..|leases| - 1];
      WindowAlertsMembers(init, today, a);
      assert leases == init + [leases[|leases| - 1]];
    }
  }

  predicate SortedByDays(s: seq<RenewalAlert>) {
    forall i, j :: 0 <= i < j < |s| ==> s[i].daysUntilExpiry <= s[j].daysUntilExpiry
  }

  /** Places `a` after every leading alert that expires no later than it. */
  function InsertByDays(s: seq<RenewalAlert>, a: RenewalAlert): seq<RenewalAlert>
  {
    if s == [] then [a]
    else if a.daysUntilExpiry < s[0].daysUntilExpiry then [a] + s
    else [s[0]] + InsertByDays(s[1..], a)
  }

  /** `sort((a, b) => a.daysUntilExpiry - b.daysUntilExpiry)`: a stable sort by days until expiry. */
  function SortByDays(s: seq<RenewalAlert>): seq<RenewalAlert>
  {
    if s == [] then [] else InsertByDays(SortByDays(s[..|s| - 1]), s[|s| - 1])
  }

  lemma {:induction false} InsertByDaysPermutes(s: seq<RenewalAlert>, a: RenewalAlert)
    ensures multiset(InsertByDays(s, a)) == multiset(s) + multiset{a}
  {
    if s != [] && a.daysUntilExpiry >= s[0].daysUntilExpiry {
      InsertByDaysPermutes(s[1..], a);
      assert s == [s[0]] + s[1..];
    }
  }

  lemma {:induction false} InsertByDaysSorted(s: seq<RenewalAlert>, a: RenewalAlert)
    requires SortedByDays(s)
    ensures SortedByDays(InsertByDays(s, a))
  {
    if s != [] && a.daysUntilExpiry >= s[0].daysUntilExpiry {
      var tail := InsertByDays(s[1..], a);
      InsertByDaysSorted(s[1..], a);
      InsertByDaysPermutes(s[1..], a);
      forall j | 0 <= j < |tail| ensures s[0].daysUntilExpiry <= tail[j].daysUntilExpiry {
        assert tail[j] in multiset(s[1..]) + multiset{a};
      }
    }
  }

  /** The sorted list holds the same alerts, ordered by days until expiry. */
  lemma {:induction false} SortByDaysCorrect(s: seq<RenewalAlert>)
    ensures SortedByDays(SortByDays(s))
    ensures multiset(SortByDays(s)) == multiset(s)
  {
    if s != [] {
      var init := s[..|s| - 1];
      SortByDaysCorrect(init);
      InsertByDaysSorted(SortByDays(init), s[|s| - 1]);
      InsertByDaysPermutes(SortByDays(init), s[|s| - 1]);
      assert s == init + [s[|s| - 1]];
    }
  }

  /** `checkRenewals`: push an alert for each lease in the 90-day window, then sort by days left. */
  method CheckRenewals(leases: seq<Lease>, today: Date) returns (alerts: seq<RenewalAlert>)
    ensures alerts == SortByDays(WindowAlerts(leases, today))
    ensures SortedByDays(alerts)
    ensures multiset(alerts) == multiset(WindowAlerts(leases, today))
  {
    var pushed: seq<RenewalAlert> := [];
    var i := 0;
    while i < |leases|
      invariant 0 <= i <= |leases|
      invariant pushed == WindowAlerts(leases[..i], today)
    {
      var lease := leases[i];
      var days := DaysUntilExpiry(lease, today);
      if 0 < days && days <= 90 {
        pushed := pushed + [RenewalAlert(lease, days)];
      }
      assert leases[..i + 1][..i] == leases[..i];
      i := i + 1;
    }
    assert leases[..i] == leases;
    alerts := SortByDays(pushed);
    SortByDaysCorrect(pushed);
  }

  // ------------------------------------------------------------ page state

  /** `leases.find(l => l.id === id)`: the first lease with that id. */
  function FindLease(leases: seq<Lease>, id: string): (r: Option<Lease>)
    ensures r.None? <==> forall l :: l in leases ==> l.id != id
    ensures r.Some? ==> r.value in leases && r.value.id == id
    ensures r.Some? ==> exists k :: 0 <= k < |leases| && leases[k] == r.value && forall j :: 0 <= j < k ==> leases[j].id != id
  {
    if leases == [] then None
    else if leases[0].id == id then Some(leases[0])
    else
      var r := FindLease(leases[1..], id);
      if r.Some? then
        var k :| 0 <= k < |leases[1..]| && leases[1..][k] == r.value && forall j :: 0 <= j < k ==> leases[1..][j].id != id;
        assert leases[k + 1] == r.value;
        r
      else r
  }

  /** The termination tab of the lease agent page. An empty select or date input is `""` / `None`. */
  class LeaseAIPage {
    var leases: seq<Lease>
    var selectedLease: string
    var moveOutDate: Option<Date>
    var terminationReason: string
    var terminationResult: Option<TerminationResult>

    constructor (loaded: seq<Lease>)
      ensures leases == loaded
      ensures selectedLease == "" && moveOutDate == None && terminationReason == "" && terminationResult == None
    {
      leases := loaded;
      selectedLease := "";
      moveOutDate := None;
      terminationReason := "";
      terminationResult := None;
    }

    /** `calculate`: nothing happens without a selected lease and a move-out date; otherwise the result is stored. */
    method Calculate()
      modifies this
      ensures leases == old(leases) && selectedLease == old(selectedLease)
      ensures moveOutDate == old(moveOutDate) && terminationReason == old(terminationReason)
      ensures selectedLease == "" || moveOutDate.None? ==> terminationResult == old(terminationResult)
      ensures selectedLease != "" && moveOutDate.Some? ==>
        terminationResult == match FindLease(leases, selectedLease)
          case Some(l) => Some(Terminate(l, moveOutDate.value))
          case None => old(terminationResult)
    {
      if selectedLease == "" || moveOutDate.None? {
        return;
      }
      var found := FindLease(leases, selectedLease);
      if found.Some? {
        terminationResult := Some(Terminate(found.value, moveOutDate.value));
      }
    }

    /** `reset`: clears the selection, the date, the reason and the result together. */
    method Reset()
      modifies this
      ensures leases == old(leases)
      ensures selectedLease == "" && moveOutDate == None && terminationReason == "" && terminationResult == None
    {
      selectedLease := "";
      moveOutDate := None;
      terminationReason := "";
      terminationResult := None;
    }
  }
}
