/** In-memory stores standing for the five DAO interfaces. Each holds its
    rows in insertion order and the next generated id (ids are never reused,
    as with AUTOINCREMENT). `save` assigns the id and appends; `update`
    rewrites the rows with the record's id; the finders are functions. */
module Stores {
  import opened Common
  import opened Catalog
  import opened Records
  import opened Members

  /** `findById` over booking rows: the first row with that id. */
  function FindBooking(rows: seq<BookingRecord>, id: int): (r: Option<BookingRecord>)
    ensures r.Some? <==> exists i :: 0 <= i < |rows| && rows[i].id == id
    ensures r.Some? ==> r.value in rows && r.value.id == id
  {
    if rows == [] then None
    else if rows[0].id == id then Some(rows[0])
    else FindBooking(rows[1..], id)
  }

  /** `UPDATE bookings SET ... WHERE id = ?`: every column of the matching rows. */
  function ReplaceBooking(rows: seq<BookingRecord>, b: BookingRecord): (r: seq<BookingRecord>)
    ensures |r| == |rows|
    ensures forall i :: 0 <= i < |rows| ==> r[i] == if rows[i].id == b.id then b else rows[i]
  {
    seq(|rows|, i requires 0 <= i < |rows| => if rows[i].id == b.id then b else rows[i])
  }

  /** `findById` over member rows, keyed by the member id. */
  function FindMember(rows: seq<MemberRecord>, memberId: int): (r: Option<MemberRecord>)
    ensures r.Some? <==> exists i :: 0 <= i < |rows| && rows[i].memberId == memberId
    ensures r.Some? ==> r.value in rows && r.value.memberId == memberId
  {
    if rows == [] then None
    else if rows[0].memberId == memberId then Some(rows[0])
    else FindMember(rows[1..], memberId)
  }

  /** What the members table keeps of a membership: its class name only, so
      reading it back yields the tier's no-argument instance. */
  function Stored(membership: Plan): (p: Plan)
    ensures p.tier == membership.tier && p.durationMonths == TierDuration(membership.tier)
  {
    DefaultPlan(membership.tier)
  }

  /** `UPDATE members SET membership_type, start_date, end_date WHERE id = ?`. */
  function ReplaceMember(rows: seq<MemberRecord>, m: MemberRecord): (r: seq<MemberRecord>)
    requires m.membership.Some?
    ensures |r| == |rows|
    ensures forall i :: 0 <= i < |rows| ==>
      r[i] == (if rows[i].memberId == m.memberId
               then rows[i].(membership := Some(Stored(m.membership.value)), startDate := m.startDate, endDate := m.endDate)
               else rows[i])
  {
    seq(|rows|, i requires 0 <= i < |rows| =>
      if rows[i].memberId == m.memberId
      then rows[i].(membership := Some(Stored(m.membership.value)), startDate := m.startDate, endDate := m.endDate)
      else rows[i])
  }

  /** `MemberDAO.findActiveMembers`: `end_date > date('now')`. */
  function ActiveMembers(rows: seq<MemberRecord>, today: int): (r: seq<MemberRecord>)
    ensures |r| <= |rows|
    ensures forall m :: m in r <==> m in rows && IsActive(m.endDate, today)
  {
    if rows == [] then []
    else if IsActive(rows[0].endDate, today) then [rows[0]] + ActiveMembers(rows[1..], today)
    else ActiveMembers(rows[1..], today)
  }

  /** Reading a booking back after `update`: the record written, if the id
      was there. */
  lemma {:induction false} FindAfterReplaceBooking(rows: seq<BookingRecord>, b: BookingRecord)
    ensures FindBooking(ReplaceBooking(rows, b), b.id) == if FindBooking(rows, b.id).Some? then Some(b) else None
  {
    if rows != [] {
      assert ReplaceBooking(rows, b)[1..] == ReplaceBooking(rows[1..], b);
      FindAfterReplaceBooking(rows[1..], b);
    }
  }

  /** Reading a member back after `update`: the stored row with the three
      written columns, if the member id was there. */
  lemma {:induction false} FindAfterReplaceMember(rows: seq<MemberRecord>, m: MemberRecord)
    requires m.membership.Some?
    ensures FindMember(ReplaceMember(rows, m), m.memberId)
         == if FindMember(rows, m.memberId).Some?
            then Some(FindMember(rows, m.memberId).value.(membership := Some(Stored(m.membership.value)),
                                                          startDate := m.startDate, endDate := m.endDate))
            else None
  {
    if rows != [] {
      assert ReplaceMember(rows, m)[1..] == ReplaceMember(rows[1..], m);
      FindAfterReplaceMember(rows[1..], m);
    }
  }

  /** In rows whose ids strictly increase, the row `FindBooking` returns is
      the only row with that id. */
  lemma {:induction false} FoundBookingIsUnique(rows: seq<BookingRecord>, id: int, i: int)
    requires forall a, c :: 0 <= a < c < |rows| ==> rows[a].id < rows[c].id
    requires 0 <= i < |rows| && rows[i].id == id
    ensures FindBooking(rows, id) == Some(rows[i])
  {
    if rows[0].id != id {
      FoundBookingIsUnique(rows[1..], id, i - 1);
    }
  }

  /** Likewise for member rows and their member ids. */
  lemma {:induction false} FoundMemberIsUnique(rows: seq<MemberRecord>, memberId: int, i: int)
    requires forall a, c :: 0 <= a < c < |rows| ==> rows[a].memberId < rows[c].memberId
    requires 0 <= i < |rows| && rows[i].memberId == memberId
    ensures FindMember(rows, memberId) == Some(rows[i])
  {
    if rows[0].memberId != memberId {
      FoundMemberIsUnique(rows[1..], memberId, i - 1);
    }
  }

  class UserStore {
    var rows: seq<UserRecord>
    var nextId: int

    ghost predicate Valid()
      reads this
    {
      && nextId >= 1
      && (forall i :: 0 <= i < |rows| ==> 1 <= rows[i].id < nextId)
      && (forall i, j :: 0 <= i < j < |rows| ==> rows[i].id < rows[j].id)
      && (forall i, j :: 0 <= i < j < |rows| ==> rows[i].username != rows[j].username)
    }

    constructor ()
      ensures Valid() && rows == []
    {
      rows, nextId := [], 1;
    }

    predicate ExistsByUsername(username: string)
      reads this
    {
      exists i :: 0 <= i < |rows| && rows[i].username == username
    }

    /** The UNIQUE constraint on `username` is the caller's to respect. */
    method Save(u: UserRecord) returns (saved: UserRecord)
      requires Valid() && !ExistsByUsername(u.username)
      modifies this
      ensures Valid()
      ensures saved == u.(id := old(nextId))
      ensures rows == old(rows) + [saved]
    {
      saved := u.(id := nextId);
      rows := rows + [saved];
      nextId := nextId + 1;
    }
  }

  class MemberStore {
    var rows: seq<MemberRecord>
    var nextId: int

    ghost predicate Valid()
      reads this
    {
      && nextId >= 1
      && (forall i :: 0 <= i < |rows| ==> 1 <= rows[i].memberId < nextId && rows[i].membership.Some?)
      && (forall i :: 0 <= i < |rows| ==> rows[i].membership == Some(Stored(rows[i].membership.value)))
      && (forall i, j :: 0 <= i < j < |rows| ==> rows[i].memberId < rows[j].memberId)
    }

    constructor ()
      ensures Valid() && rows == []
    {
      rows, nextId := [], 1;
    }

    /** The returned member keeps its full membership; the row keeps the tier. */
    method Save(m: MemberRecord) returns (saved: MemberRecord)
      requires Valid() && m.membership.Some?
      modifies this
      ensures Valid()
      ensures saved == m.(memberId := old(nextId))
      ensures rows == old(rows) + [saved.(membership := Some(Stored(m.membership.value)))]
    {
      saved := m.(memberId := nextId);
      rows := rows + [saved.(membership := Some(Stored(m.membership.value)))];
      nextId := nextId + 1;
    }

    /** Fails (returns false, changing nothing) when no row has the id. */
    method Update(m: MemberRecord) returns (ok: bool)
      requires Valid() && m.membership.Some?
      modifies this
      ensures Valid()
      ensures ok <==> FindMember(old(rows), m.memberId).Some?
      ensures rows == ReplaceMember(old(rows), m)
    {
      ok := FindMember(rows, m.memberId).Some?;
      rows := ReplaceMember(rows, m);
    }
  }

  class BookingStore {
    var rows: seq<BookingRecord>
    var nextId: int

    ghost predicate Valid()
      reads this
    {
      && nextId >= 1
      && (forall i :: 0 <= i < |rows| ==> 1 <= rows[i].id < nextId && rows[i].status.Some?)
      && (forall i, j :: 0 <= i < j < |rows| ==> rows[i].id < rows[j].id)
    }

    constructor ()
      ensures Valid() && rows == []
    {
      rows, nextId := [], 1;
    }

    /** The NOT NULL status column is the caller's to respect. */
    method Save(b: BookingRecord) returns (saved: BookingRecord)
      requires Valid() && b.status.Some?
      modifies this
      ensures Valid()
      ensures saved == b.(id := old(nextId))
      ensures rows == old(rows) + [saved]
    {
      saved := b.(id := nextId);
      rows := rows + [saved];
      nextId := nextId + 1;
    }

    method Update(b: BookingRecord) returns (ok: bool)
      requires Valid() && b.status.Some?
      modifies this
      ensures Valid()
      ensures ok <==> FindBooking(old(rows), b.id).Some?
      ensures rows == ReplaceBooking(old(rows), b)
    {
      ok := FindBooking(rows, b.id).Some?;
      rows := ReplaceBooking(rows, b);
    }
  }

  class PaymentStore {
    var rows: seq<Payment>
    var nextId: int

    ghost predicate Valid()
      reads this
    {
      && nextId >= 1
      && (forall i :: 0 <= i < |rows| ==> 1 <= rows[i].id < nextId)
      && (forall i, j :: 0 <= i < j < |rows| ==> rows[i].id < rows[j].id)
    }

    constructor ()
      ensures Valid() && rows == []
    {
      rows, nextId := [], 1;
    }

    method Save(p: Payment) returns (saved: Payment)
      requires Valid()
      modifies this
      ensures Valid()
      ensures saved == p.(id := old(nextId))
      ensures rows == old(rows) + [saved]
    {
      saved := p.(id := nextId);
      rows := rows + [saved];
      nextId := nextId + 1;
    }
  }

  class ExpenseStore {
    var rows: seq<Expense>
    var nextId: int

    ghost predicate Valid()
      reads this
    {
      && nextId >= 1
      && (forall i :: 0 <= i < |rows| ==> 1 <= rows[i].id < nextId)
      && (forall i, j :: 0 <= i < j < |rows| ==> rows[i].id < rows[j].id)
    }

    constructor ()
      ensures Valid() && rows == []
    {
      rows, nextId := [], 1;
    }

    method Save(e: Expense) returns (saved: Expense)
      requires Valid()
      modifies this
      ensures Valid()
      ensures saved == e.(id := old(nextId))
      ensures rows == old(rows) + [saved]
    {
      saved := e.(id := nextId);
      rows := rows + [saved];
      nextId := nextId + 1;
    }
  }
}
