/** The billing service (`BillingService`): recording payments for existing
    members, the membership renewal that charges before it renews, and the
    payment totals and listings. "Today" is a parameter. */
module Billing {
  import opened Common
  import opened Calendar
  import opened Catalog
  import opened Ledger
  import opened Sorting
  import opened Records
  import opened Stores
  import opened MembershipDesk

  /** `getTotalPaymentsByMember`. */
  function TotalByMember(ps: seq<Payment>, memberId: int): (total: real)
    ensures (forall p :: p in ps ==> p.amount >= 0.0) ==> 0.0 <= total <= TotalRevenue(ps)
  {
    MemberShare(ps, memberId);
    Total(PaymentsOf(ps, memberId), PaymentAmount)
  }

  /** `getTotalPaymentsByMemberAndType`. */
  function TotalByMemberAndType(ps: seq<Payment>, memberId: int, kind: PaymentType): (total: real)
    ensures (forall p :: p in ps ==> p.amount >= 0.0) ==> 0.0 <= total <= TotalByMember(ps, memberId)
  {
    TypeShare(PaymentsOf(ps, memberId), kind);
    Total(PaymentsOfType(PaymentsOf(ps, memberId), kind), PaymentAmount)
  }

  /** `getTotalRevenue`: the sum over all payments. */
  function TotalRevenue(ps: seq<Payment>): (total: real)
    ensures (forall p :: p in ps ==> p.amount >= 0.0) ==> total >= 0.0
  {
    NonNegativeTotal(ps);
    Total(ps, PaymentAmount)
  }

  /** `getRevenueByType`. */
  function RevenueByType(ps: seq<Payment>, kind: PaymentType): (total: real)
    ensures (forall p :: p in ps ==> p.amount >= 0.0) ==> 0.0 <= total <= TotalRevenue(ps)
  {
    TypeShare(ps, kind);
    Total(PaymentsOfType(ps, kind), PaymentAmount)
  }

  /** `getRevenueByDateRange`: both ends included. */
  function RevenueByDateRange(ps: seq<Payment>, lo: int, hi: int): (total: real)
    ensures hi < lo ==> total == 0.0
  {
    EmptyRange(ps, lo, hi);
    Total(InRange(ps, PaymentDate, lo, hi), PaymentAmount)
  }

  /** `getMonthlyRevenue`. */
  function MonthlyRevenue(ps: seq<Payment>, month: int, year: int): (total: real)
    ensures 1 <= month <= 12 ==>
              total == RevenueByDateRange(ps, DateOf(year, month, 1), DateOf(year, month, LengthOfMonth(year, month)))
  {
    if 1 <= month <= 12 then MonthIsRange(ps, PaymentDate, month, year); Total(InMonth(ps, PaymentDate, month, year), PaymentAmount)
    else Total(InMonth(ps, PaymentDate, month, year), PaymentAmount)
  }

  lemma {:induction false} NonNegativeTotal(ps: seq<Payment>)
    ensures (forall p :: p in ps ==> p.amount >= 0.0) ==> Total(ps, PaymentAmount) >= 0.0
  {
    if ps != [] {
      NonNegativeTotal(ps[1..]);
      assert forall p :: p in ps[1..] ==> p in ps;
    }
  }

  lemma {:induction false} TypeShare(ps: seq<Payment>, kind: PaymentType)
    ensures (forall p :: p in ps ==> p.amount >= 0.0) ==>
              0.0 <= Total(PaymentsOfType(ps, kind), PaymentAmount) <= Total(ps, PaymentAmount)
  {
    if ps != [] {
      TypeShare(ps[1..], kind);
      assert forall p :: p in ps[1..] ==> p in ps;
    }
  }

  lemma {:induction false} MemberShare(ps: seq<Payment>, memberId: int)
    ensures (forall p :: p in ps ==> p.amount >= 0.0) ==>
              0.0 <= Total(PaymentsOf(ps, memberId), PaymentAmount) <= Total(ps, PaymentAmount)
  {
    if ps != [] {
      MemberShare(ps[1..], memberId);
      assert forall p :: p in ps[1..] ==> p in ps;
    }
  }

  lemma {:induction false} EmptyRange(ps: seq<Payment>, lo: int, hi: int)
    ensures hi < lo ==> InRange(ps, PaymentDate, lo, hi) == []
  {
    if ps != [] {
      EmptyRange(ps[1..], lo, hi);
    }
  }

  /** The revenue by type, over the three types, adds up to the total revenue. */
  lemma RevenueByTypeCoversTotal(ps: seq<Payment>)
    ensures RevenueByType(ps, MembershipPayment) + RevenueByType(ps, ClassPayment) + RevenueByType(ps, OtherPayment)
         == TotalRevenue(ps)
  {
    TypeTotalsCoverAll(ps);
  }

  /** One member's totals by type add up to the member's total. */
  lemma MemberTypeTotalsAddUp(ps: seq<Payment>, memberId: int)
    ensures TotalByMemberAndType(ps, memberId, MembershipPayment) + TotalByMemberAndType(ps, memberId, ClassPayment)
            + TotalByMemberAndType(ps, memberId, OtherPayment)
         == TotalByMember(ps, memberId)
  {
    MemberTypeTotalsCoverMember(ps, memberId);
  }

  /** `getAveragePaymentAmount`: 0 with no payments, otherwise the mean, so
      the average times the count is the total revenue. */
  function AveragePayment(ps: seq<Payment>): (avg: real)
    ensures ps == [] ==> avg == 0.0
    ensures ps != [] ==> avg * (|ps| as real) == TotalRevenue(ps)
    ensures (forall p :: p in ps ==> p.amount >= 0.0) ==> avg >= 0.0
  {
    if ps == [] then 0.0 else TotalRevenue(ps) / (|ps| as real)
  }

  /** `getPaymentCount`. */
  function PaymentCount(ps: seq<Payment>): (n: nat)
    ensures n == |ps|
  {
    |ps|
  }

  function LatestFirst(p: Payment): real { -(p.date as real) }

  /** `getRecentPayments(days)`: the payments dated strictly after
      `today - days`, newest first. */
  function RecentPayments(ps: seq<Payment>, today: int, days: int): (r: seq<Payment>)
    ensures forall i, j :: 0 <= i < j < |r| ==> r[i].date >= r[j].date
    ensures multiset(r) == multiset(PaymentsAfter(ps, today - days))
    ensures forall p :: p in r <==> p in ps && p.date > today - days
  {
    var r := SortBy(PaymentsAfter(ps, today - days), LatestFirst);
    assert forall i :: 0 <= i < |r| ==> LatestFirst(r[i]) == -(r[i].date as real);
    assert forall p :: p in r <==> p in multiset(r);
    r
  }

  class BillingService {
    const payments: PaymentStore
    const membership: MembershipService

    constructor (payments: PaymentStore, membership: MembershipService)
      ensures this.payments == payments && this.membership == membership
    {
      this.payments, this.membership := payments, membership;
    }

    /** The body shared by the three `record...Payment` operations: an unknown
        member is refused and nothing is written; otherwise one payment of
        the amount, dated today, is appended. */
    method RecordPayment(memberId: int, amount: real, kind: PaymentType, today: int) returns (r: Result<Payment>)
      requires payments.Valid()
      modifies payments
      ensures payments.Valid()
      ensures r.Success? <==> FindMember(membership.members.rows, memberId).Some?
      ensures r.Failure? ==> r.error == MemberNotFound && payments.rows == old(payments.rows)
      ensures r.Success? ==> r.value == Payment(old(payments.nextId), memberId, amount, today, kind)
                             && payments.rows == old(payments.rows) + [r.value]
    {
      if FindMember(membership.members.rows, memberId).None? {
        return Failure(MemberNotFound);
      }
      var saved := payments.Save(Payment(0, memberId, amount, today, kind));
      r := Success(saved);
    }

    /** `recordMembershipPayment`. */
    method RecordMembershipPayment(memberId: int, amount: real, today: int) returns (r: Result<Payment>)
      requires payments.Valid()
      modifies payments
      ensures payments.Valid()
      ensures r.Success? <==> FindMember(membership.members.rows, memberId).Some?
      ensures r.Failure? ==> r.error == MemberNotFound && payments.rows == old(payments.rows)
      ensures r.Success? ==> r.value == Payment(old(payments.nextId), memberId, amount, today, MembershipPayment)
                             && payments.rows == old(payments.rows) + [r.value]
    {
      r := RecordPayment(memberId, amount, MembershipPayment, today);
    }

    /** `recordClassPayment`. */
    method RecordClassPayment(memberId: int, amount: real, today: int) returns (r: Result<Payment>)
      requires payments.Valid()
      modifies payments
      ensures payments.Valid()
      ensures r.Success? <==> FindMember(membership.members.rows, memberId).Some?
      ensures r.Failure? ==> r.error == MemberNotFound && payments.rows == old(payments.rows)
      ensures r.Success? ==> r.value == Payment(old(payments.nextId), memberId, amount, today, ClassPayment)
                             && payments.rows == old(payments.rows) + [r.value]
    {
      r := RecordPayment(memberId, amount, ClassPayment, today);
    }

    /** `recordOtherPayment`. */
    method RecordOtherPayment(memberId: int, amount: real, today: int) returns (r: Result<Payment>)
      requires payments.Valid()
      modifies payments
      ensures payments.Valid()
      ensures r.Success? <==> FindMember(membership.members.rows, memberId).Some?
      ensures r.Failure? ==> r.error == MemberNotFound && payments.rows == old(payments.rows)
      ensures r.Success? ==> r.value == Payment(old(payments.nextId), memberId, amount, today, OtherPayment)
                             && payments.rows == old(payments.rows) + [r.value]
    {
      r := RecordPayment(memberId, amount, OtherPayment, today);
    }

    /** `processMembershipRenewal`: for an unknown member the payment is
        refused, nothing changes and the answer is false. Otherwise the fee
        (`calculateMembershipPrice` of the new membership) is recorded as a
        membership payment first, then the membership is renewed from today,
        and the answer is true. */
    method ProcessMembershipRenewal(memberId: int, plan: Plan, today: int) returns (ok: bool)
      requires payments.Valid() && membership.members.Valid()
      modifies payments, membership.members
      ensures payments.Valid() && membership.members.Valid()
      ensures ok <==> FindMember(old(membership.members.rows), memberId).Some?
      ensures !ok ==> payments.rows == old(payments.rows) && membership.members.rows == old(membership.members.rows)
      ensures ok ==> payments.rows == old(payments.rows)
                       + [Payment(old(payments.nextId), memberId, MembershipPrice(plan), today, MembershipPayment)]
      ensures ok ==> membership.members.rows == ReplaceMember(old(membership.members.rows),
                       FindMember(old(membership.members.rows), memberId).value.(
                         membership := Some(plan), startDate := Some(today),
                         endDate := Some(AddMonths(today, plan.durationMonths))))
    {
      var fee := MembershipPrice(plan);
      var paid := RecordMembershipPayment(memberId, fee, today);
      if paid.Failure? {
        return false;
      }
      var _ := membership.RenewMembership(memberId, plan, today);
      ok := true;
    }
  }
}
