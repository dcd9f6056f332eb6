/** The records the services read and write, with the enumerations of the
    schema's CHECK constraints, and the stores' per-field finders. */
module Records {
  import opened Common
  import opened Catalog
  import opened Ledger

  datatype Role = MemberRole | ReceptionistRole | AdminRole
  datatype BookingStatus = Booked | Cancelled | Completed | NoShow
  datatype PaymentType = MembershipPayment | ClassPayment | OtherPayment
  datatype ExpenseCategory = Salary | Equipment | Maintenance | Utilities | Marketing | OtherExpense

  /** A row of the users table. */
  datatype UserRecord = UserRecord(id: int, name: string, username: string, password: string, role: Role)

  /** The fields of a Member: its user part (`id` is the user id), the member
      id, the membership (None while null) and the two optional dates. */
  datatype MemberRecord = MemberRecord(
    id: int, name: string, username: string, password: string, role: Role,
    memberId: int, membership: Option<Plan>, startDate: Option<int>, endDate: Option<int>)
  {
    function User(): (u: UserRecord)
      ensures u.id == id && u.username == username && u.role == role
    {
      UserRecord(id, name, username, password, role)
    }
  }

  /** The fields of a Booking; `status` is None while the Java field is null. */
  datatype BookingRecord = BookingRecord(
    id: int, memberId: int, className: string, bookingTime: int, classTime: int,
    status: Option<BookingStatus>)

  datatype Payment = Payment(id: int, memberId: int, amount: real, date: int, kind: PaymentType)

  datatype Expense = Expense(id: int, description: string, amount: real, date: int, category: ExpenseCategory)

  function PaymentAmount(p: Payment): real { p.amount }
  function PaymentDate(p: Payment): int { p.date }
  function ExpenseAmount(e: Expense): real { e.amount }
  function ExpenseDate(e: Expense): int { e.date }

  /** `PaymentDAO.findByMemberId`. */
  function PaymentsOf(ps: seq<Payment>, memberId: int): (r: seq<Payment>)
    ensures |r| <= |ps|
    ensures forall p :: p in r <==> p in ps && p.memberId == memberId
  {
    if ps == [] then []
    else if ps[0].memberId == memberId then [ps[0]] + PaymentsOf(ps[1..], memberId)
    else PaymentsOf(ps[1..], memberId)
  }

  /** `PaymentDAO.findByType`, and the stream filter on the type. */
  function PaymentsOfType(ps: seq<Payment>, kind: PaymentType): (r: seq<Payment>)
    ensures |r| <= |ps|
    ensures forall p :: p in r <==> p in ps && p.kind == kind
  {
    if ps == [] then []
    else if ps[0].kind == kind then [ps[0]] + PaymentsOfType(ps[1..], kind)
    else PaymentsOfType(ps[1..], kind)
  }

  /** The payments dated strictly after `cutoff`. */
  function PaymentsAfter(ps: seq<Payment>, cutoff: int): (r: seq<Payment>)
    ensures |r| <= |ps|
    ensures forall p :: p in r <==> p in ps && p.date > cutoff
  {
    if ps == [] then []
    else if ps[0].date > cutoff then [ps[0]] + PaymentsAfter(ps[1..], cutoff)
    else PaymentsAfter(ps[1..], cutoff)
  }

  /** The stream filter on an expense category. */
  function ExpensesOfCategory(es: seq<Expense>, category: ExpenseCategory): (r: seq<Expense>)
    ensures |r| <= |es|
    ensures forall e :: e in r <==> e in es && e.category == category
  {
    if es == [] then []
    else if es[0].category == category then [es[0]] + ExpensesOfCategory(es[1..], category)
    else ExpensesOfCategory(es[1..], category)
  }

  /** `BookingDAO.findByMemberId`. */
  function BookingsOf(bs: seq<BookingRecord>, memberId: int): (r: seq<BookingRecord>)
    ensures |r| <= |bs|
    ensures forall b :: b in r <==> b in bs && b.memberId == memberId
  {
    if bs == [] then []
    else if bs[0].memberId == memberId then [bs[0]] + BookingsOf(bs[1..], memberId)
    else BookingsOf(bs[1..], memberId)
  }

  /** The payments of the three types add up to all payments. */
  lemma {:induction false} TypeTotalsCoverAll(ps: seq<Payment>)
    ensures Total(PaymentsOfType(ps, MembershipPayment), PaymentAmount)
          + Total(PaymentsOfType(ps, ClassPayment), PaymentAmount)
          + Total(PaymentsOfType(ps, OtherPayment), PaymentAmount)
         == Total(ps, PaymentAmount)
  {
    if ps != [] {
      TypeTotalsCoverAll(ps[1..]);
    }
  }

  /** A member's total by type is part of the member's total: the three
      type totals of one member add up to it. */
  lemma MemberTypeTotalsCoverMember(ps: seq<Payment>, memberId: int)
    ensures Total(PaymentsOfType(PaymentsOf(ps, memberId), MembershipPayment), PaymentAmount)
          + Total(PaymentsOfType(PaymentsOf(ps, memberId), ClassPayment), PaymentAmount)
          + Total(PaymentsOfType(PaymentsOf(ps, memberId), OtherPayment), PaymentAmount)
         == Total(PaymentsOf(ps, memberId), PaymentAmount)
  {
    TypeTotalsCoverAll(PaymentsOf(ps, memberId));
  }

  /** The expenses of the six categories add up to all expenses. */
  lemma {:induction false} CategoryTotalsCoverAll(es: seq<Expense>)
    ensures Total(ExpensesOfCategory(es, Salary), ExpenseAmount)
          + Total(ExpensesOfCategory(es, Equipment), ExpenseAmount)
          + Total(ExpensesOfCategory(es, Maintenance), ExpenseAmount)
          + Total(ExpensesOfCategory(es, Utilities), ExpenseAmount)
          + Total(ExpensesOfCategory(es, Marketing), ExpenseAmount)
          + Total(ExpensesOfCategory(es, OtherExpense), ExpenseAmount)
         == Total(es, ExpenseAmount)
  {
    if es != [] {
      CategoryTotalsCoverAll(es[1..]);
      CategoryStep(es, Salary);
      CategoryStep(es, Equipment);
      CategoryStep(es, Maintenance);
      CategoryStep(es, Utilities);
      CategoryStep(es, Marketing);
      CategoryStep(es, OtherExpense);
    }
  }

  lemma CategoryStep(es: seq<Expense>, category: ExpenseCategory)
    requires es != []
    ensures Total(ExpensesOfCategory(es, category), ExpenseAmount)
         == (if es[0].category == category then es[0].amount else 0.0)
            + Total(ExpensesOfCategory(es[1..], category), ExpenseAmount)
  {
  }
}
