/** The `Member` entity: a user with the MEMBER role, a membership and the
    dates it runs between, and the date-based activity test. */
module Members {
  import opened Common
  import opened Catalog
  import opened Records

  /** `isMembershipActive` with "today" passed in: the end date is present
      and strictly after today. */
  predicate IsActive(endDate: Option<int>, today: int) {
    endDate.Some? && endDate.value > today
  }

  /** The activity boundary: a membership ending today is already inactive,
      one ending tomorrow is still active, and one without an end date never is. */
  lemma ActiveBoundary(today: int)
    ensures !IsActive(Some(today), today)
    ensures IsActive(Some(today + 1), today)
    ensures !IsActive(None, today)
  {
  }

  /** Activity is monotone in time: a membership inactive today stays
      inactive on every later day. */
  lemma InactiveStaysInactive(endDate: Option<int>, today: int, later: int)
    requires today <= later && !IsActive(endDate, today)
    ensures !IsActive(endDate, later)
  {
  }

  class Member {
    var id: int
    var name: string
    var username: string
    var password: string
    var role: Role
    var memberId: int
    var membership: Option<Plan>
    var startDate: Option<int>
    var endDate: Option<int>

    function Value(): (m: MemberRecord)
      reads this
      ensures m.id == id && m.username == username && m.role == role && m.memberId == memberId
      ensures m.membership == membership && m.startDate == startDate && m.endDate == endDate
    {
      MemberRecord(id, name, username, password, role, memberId, membership, startDate, endDate)
    }

    /** `new Member()`: only the role is set; null strings are empty here. */
    constructor Empty()
      ensures Value() == MemberRecord(0, "", "", "", MemberRole, 0, None, None, None)
    {
      id, name, username, password, role := 0, "", "", "", MemberRole;
      memberId, membership, startDate, endDate := 0, None, None, None;
    }

    /** The full constructor: every field as given, the role fixed to MEMBER. */
    constructor Create(id: int, name: string, username: string, password: string,
                       memberId: int, membership: Option<Plan>, startDate: Option<int>, endDate: Option<int>)
      ensures Value() == MemberRecord(id, name, username, password, MemberRole, memberId, membership, startDate, endDate)
    {
      this.id, this.name, this.username, this.password, role := id, name, username, password, MemberRole;
      this.memberId, this.membership, this.startDate, this.endDate := memberId, membership, startDate, endDate;
    }

    /** `User.setId`, used when the user row is saved. */
    method SetId(id: int)
      modifies this
      ensures Value() == old(Value()).(id := id)
    {
      this.id := id;
    }

    method SetMemberId(memberId: int)
      modifies this
      ensures Value() == old(Value()).(memberId := memberId)
    {
      this.memberId := memberId;
    }

    method SetMembership(membership: Option<Plan>)
      modifies this
      ensures Value() == old(Value()).(membership := membership)
    {
      this.membership := membership;
    }

    method SetStartDate(startDate: Option<int>)
      modifies this
      ensures Value() == old(Value()).(startDate := startDate)
    {
      this.startDate := startDate;
    }

    method SetEndDate(endDate: Option<int>)
      modifies this
      ensures Value() == old(Value()).(endDate := endDate)
    {
      this.endDate := endDate;
    }

    function IsMembershipActive(today: int): (active: bool)
      reads this
      ensures active <==> IsActive(endDate, today)
    {
      endDate.Some? && endDate.value > today
    }
  }
}
