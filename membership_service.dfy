/** The membership service (`MembershipService`): registration with its
    defaults, membership changes, renewal and cancellation, and the queries on
    who is active or about to expire. "Today" is a parameter. */
module MembershipDesk {
  import opened Common
  import opened Calendar
  import opened Catalog
  import opened Records
  import opened Members
  import opened Stores

  /** `String.toLowerCase` on the letters A-Z; every other character is kept. */
  function LowerChar(c: char): (l: char)
    ensures 'A' <= c <= 'Z' ==> 'a' <= l <= 'z' && l as int == c as int + 32
    ensures !('A' <= c <= 'Z') ==> l == c
  {
    if 'A' <= c <= 'Z' then (c as int + 32) as char else c
  }

  function AsciiLower(s: string): (r: string)
    ensures |r| == |s|
    ensures forall i :: 0 <= i < |s| ==> r[i] == LowerChar(s[i])
  {
    if s == [] then [] else [LowerChar(s[0])] + AsciiLower(s[1..])
  }

  /** The lower-case type name `createMembership` switches on. */
  function TierKeyword(t: Tier): string {
    match t
    case Monthly => "monthly"
    case Annual => "annual"
    case Vip => "vip"
  }

  /** The display name `createMembership` gives each tier. */
  function TierTitle(t: Tier): string {
    match t
    case Monthly => "Monthly Membership"
    case Annual => "Annual Membership"
    case Vip => "VIP Membership"
  }

  /** The switch itself: a keyword names exactly one tier. */
  function ParseTier(s: string): (r: Option<Tier>)
    ensures forall t :: r == Some(t) <==> s == TierKeyword(t)
  {
    if s == "monthly" then Some(Monthly)
    else if s == "annual" then Some(Annual)
    else if s == "vip" then Some(Vip)
    else None
  }

  /** `createMembership`: the type is matched ignoring case; the membership
      gets id 0, the tier's title and duration and the given price. Any other
      type is refused with the type in the error. */
  function CreateMembership(kind: string, price: real): (r: Result<Plan>)
    ensures r.Success? <==> exists t :: AsciiLower(kind) == TierKeyword(t)
    ensures forall t :: AsciiLower(kind) == TierKeyword(t) ==>
              r.Success? && r.value.tier == t && r.value.id == 0 && r.value.name == Some(TierTitle(t))
              && r.value.price == price && r.value.durationMonths == TierDuration(t)
    ensures r.Failure? ==> r.error == InvalidMembershipType(kind)
  {
    match ParseTier(AsciiLower(kind))
    case None => Failure(InvalidMembershipType(kind))
    case Some(t) => Success(Plan(t, 0, Some(TierTitle(t)), price, TierDuration(t)))
  }

  /** Only the letters' case matters: two spellings that agree once
      lower-cased create the same membership. */
  lemma CreateIgnoresCase(a: string, b: string, price: real)
    requires AsciiLower(a) == AsciiLower(b)
    ensures CreateMembership(a, price).Success? == CreateMembership(b, price).Success?
    ensures CreateMembership(a, price).Success? ==> CreateMembership(a, price) == CreateMembership(b, price)
  {
  }

  /** Upper- and mixed-case spellings are accepted. */
  lemma CreateMonthlyUpper(price: real)
    ensures CreateMembership("MONTHLY", price).Success?
    ensures CreateMembership("MONTHLY", price).value.tier == Monthly
  {
    assert AsciiLower("MONTHLY") == TierKeyword(Monthly);
  }

  lemma CreateAnnualMixed(price: real)
    ensures CreateMembership("Annual", price).Success?
    ensures CreateMembership("Annual", price).value.tier == Annual
  {
    assert AsciiLower("Annual") == TierKeyword(Annual);
  }

  lemma CreateVipUpper(price: real)
    ensures CreateMembership("VIP", price).Success?
    ensures CreateMembership("VIP", price).value.tier == Vip
  {
    assert AsciiLower("VIP") == TierKeyword(Vip);
  }

  /** A name that is no tier is refused. */
  lemma CreateRejectsUnknown(price: real)
    ensures CreateMembership("gold", price) == Failure(InvalidMembershipType("gold"))
  {
    assert |AsciiLower("gold")| == 4;
  }

  /** `isMembershipActive(memberId)`: false for an unknown member, otherwise
      the member's own activity test. */
  function MemberActive(rows: seq<MemberRecord>, memberId: int, today: int): (active: bool)
    ensures active ==> exists m :: m in rows && m.memberId == memberId && IsActive(m.endDate, today)
    ensures (forall i, j :: 0 <= i < j < |rows| ==> rows[i].memberId != rows[j].memberId)
            ==> (active <==> exists m :: m in rows && m.memberId == memberId && IsActive(m.endDate, today))
  {
    match FindMember(rows, memberId)
    case None => false
    case Some(m) => IsActive(m.endDate, today)
  }

  /** `getTotalActiveMembers`. */
  function TotalActiveMembers(rows: seq<MemberRecord>, today: int): (n: nat)
    ensures n <= |rows|
    ensures n == |rows| <==> forall m :: m in rows ==> IsActive(m.endDate, today)
  {
    ActiveCount(rows, today);
    |ActiveMembers(rows, today)|
  }

  lemma {:induction false} ActiveCount(rows: seq<MemberRecord>, today: int)
    ensures |ActiveMembers(rows, today)| == |rows| <==> forall m :: m in rows ==> IsActive(m.endDate, today)
  {
    if rows != [] {
      ActiveCount(rows[1..], today);
      assert forall m :: m in rows <==> m == rows[0] || m in rows[1..];
    }
  }

  /** Filtering the rows with one more member appended keeps that member
      exactly when it is active. */
  lemma {:induction false} ActiveMembersAppend(rows: seq<MemberRecord>, m: MemberRecord, today: int)
    ensures ActiveMembers(rows + [m], today)
         == ActiveMembers(rows, today) + (if IsActive(m.endDate, today) then [m] else [])
  {
    if rows == [] {
      assert [m][1..] == [];
    } else {
      assert (rows + [m])[1..] == rows[1..] + [m];
      ActiveMembersAppend(rows[1..], m, today);
    }
  }

  /** One more member raises the active count by one exactly when that
      member is active; with no members the count is 0. So the count is the
      number of active members. */
  lemma ActiveCountAppend(rows: seq<MemberRecord>, m: MemberRecord, today: int)
    ensures TotalActiveMembers([], today) == 0
    ensures TotalActiveMembers(rows + [m], today)
         == TotalActiveMembers(rows, today) + (if IsActive(m.endDate, today) then 1 else 0)
  {
    ActiveMembersAppend(rows, m, today);
  }

  /** `findMembersExpiringSoon(days)`: members whose end date is strictly
      between today and today + days. */
  function ExpiringSoon(rows: seq<MemberRecord>, today: int, days: int): (r: seq<MemberRecord>)
    ensures |r| <= |rows|
    ensures forall m :: m in r <==> m in rows && m.endDate.Some? && today < m.endDate.value < today + days
  {
    if rows == [] then []
    else if rows[0].endDate.Some? && today < rows[0].endDate.value < today + days
    then [rows[0]] + ExpiringSoon(rows[1..], today, days)
    else ExpiringSoon(rows[1..], today, days)
  }

  /** Every member about to expire is still active today, and a window of
      one day or less holds nobody. */
  lemma ExpiringAreActive(rows: seq<MemberRecord>, today: int, days: int)
    ensures forall m :: m in ExpiringSoon(rows, today, days) ==> m in ActiveMembers(rows, today)
    ensures days <= 1 ==> ExpiringSoon(rows, today, days) == []
  {
  }

  /** A term of at least one month starting today is active today. */
  lemma FreshTermIsActive(today: int, months: int)
    requires months > 0
    ensures IsActive(Some(AddMonths(today, months)), today)
  {
    AddMonthsMoves(today, months);
  }

  /** The simple class name of each tier's `Membership` subclass. */
  function TierClassName(t: Tier): string {
    match t
    case Monthly => "MonthlyMembership"
    case Annual => "AnnualMembership"
    case Vip => "VIPMembership"
  }

  /** `getMembershipRevenueByType(name)`: the price `calculateMembershipPrice`
      charges for each member whose membership class name equals `name`,
      ignoring case. A name that is no class name collects nothing. */
  function MembershipRevenueByType(rows: seq<MemberRecord>, name: string): (total: real)
    ensures (forall t :: AsciiLower(TierClassName(t)) != AsciiLower(name)) ==> total == 0.0
  {
    if rows == [] then 0.0
    else
      var here := if rows[0].membership.Some? && AsciiLower(TierClassName(rows[0].membership.value.tier)) == AsciiLower(name)
                  then MembershipPrice(rows[0].membership.value) else 0.0;
      here + MembershipRevenueByType(rows[1..], name)
  }

  /** The members table keeps only the class name, so every membership read
      back has price 0 and the revenue by type of stored members is 0 for
      every name. */
  lemma {:induction false} StoredMembershipsEarnNothing(rows: seq<MemberRecord>, name: string)
    requires forall i :: 0 <= i < |rows| ==> rows[i].membership.Some? && rows[i].membership == Some(Stored(rows[i].membership.value))
    ensures MembershipRevenueByType(rows, name) == 0.0
  {
    if rows != [] {
      assert forall i :: 0 <= i < |rows[1..]| ==> rows[1..][i] == rows[i + 1];
      StoredMembershipsEarnNothing(rows[1..], name);
      assert rows[0].membership.value.price == 0.0;
    }
  }

  /** The member `registerMember` saves, given the member as passed in, the
      generated user and member ids and today: a missing membership becomes a
      default Monthly one, a missing start date becomes today, a missing end
      date becomes the start plus the membership's duration; every field
      that was present is kept. */
  function Registered(m0: MemberRecord, userId: int, memberId: int, today: int): (r: MemberRecord)
    ensures r.id == userId && r.memberId == memberId
    ensures r.name == m0.name && r.username == m0.username && r.password == m0.password && r.role == m0.role
    ensures r.membership == if m0.membership.Some? then m0.membership else Some(DefaultPlan(Monthly))
    ensures r.startDate == if m0.startDate.Some? then m0.startDate else Some(today)
    ensures r.endDate == if m0.endDate.Some? then m0.endDate
                         else Some(AddMonths(r.startDate.value, r.membership.value.durationMonths))
  {
    var plan := if m0.membership.Some? then m0.membership.value else DefaultPlan(Monthly);
    var start := if m0.startDate.Some? then m0.startDate.value else today;
    var end := if m0.endDate.Some? then m0.endDate.value else AddMonths(start, plan.durationMonths);
    m0.(id := userId, memberId := memberId, membership := Some(plan), startDate := Some(start), endDate := Some(end))
  }

  /** A member registered without dates, on a membership of at least one
      month, is active on the day of registration. */
  lemma RegisteredIsActive(m0: MemberRecord, userId: int, memberId: int, today: int)
    requires m0.startDate.None? && m0.endDate.None?
    requires Registered(m0, userId, memberId, today).membership.value.durationMonths > 0
    ensures IsActive(Registered(m0, userId, memberId, today).endDate, today)
  {
    var r := Registered(m0, userId, memberId, today);
    FreshTermIsActive(today, r.membership.value.durationMonths);
  }

  class MembershipService {
    const members: MemberStore
    const users: UserStore

    constructor (members: MemberStore, users: UserStore)
      ensures this.members == members && this.users == users
    {
      this.members, this.users := members, users;
    }

    /** `registerMember`: a taken username is refused before anything is
        written. Otherwise the user row is saved (giving the user id), the
        missing fields are filled in (`Registered`), and the member row is
        saved. */
    method RegisterMember(m: Member, today: int) returns (r: Result<MemberRecord>)
      requires users.Valid() && members.Valid()
      modifies users, members, m
      ensures users.Valid() && members.Valid()
      ensures old(users.ExistsByUsername(m.username)) ==>
                r == Failure(DuplicateUsername(old(m.username)))
                && users.rows == old(users.rows) && members.rows == old(members.rows) && m.Value() == old(m.Value())
      ensures !old(users.ExistsByUsername(m.username)) ==>
                && r == Success(Registered(old(m.Value()), old(users.nextId), old(members.nextId), today))
                && m.Value() == r.value
                && users.rows == old(users.rows) + [old(m.Value()).User().(id := old(users.nextId))]
                && members.rows == old(members.rows) + [r.value.(membership := Some(Stored(r.value.membership.value)))]
    {
      if users.ExistsByUsername(m.username) {
        return Failure(DuplicateUsername(m.username));
      }
      ghost var m0 := m.Value();
      ghost var expected := Registered(m0, users.nextId, members.nextId, today);
      var user := users.Save(m.Value().User());
      m.SetId(user.id);
      if m.membership.None? {
        m.SetMembership(Some(DefaultPlan(Monthly)));
      }
      if m.startDate.None? {
        m.SetStartDate(Some(today));
      }
      if m.endDate.None? {
        m.SetEndDate(Some(AddMonths(m.startDate.value, m.membership.value.durationMonths)));
      }
      assert m.Value() == expected.(memberId := m0.memberId);
      var saved := members.Save(m.Value());
      m.SetMemberId(saved.memberId);
      r := Success(saved);
    }

    /** `updateMembership`: an unknown member is refused; otherwise the
        membership is replaced and the end date becomes today plus its
        duration (the start date is kept). */
    method UpdateMembership(memberId: int, plan: Plan, today: int) returns (r: Result<MemberRecord>)
      requires members.Valid()
      modifies members
      ensures members.Valid()
      ensures FindMember(old(members.rows), memberId).None? <==> r == Failure(MemberIdNotFound(memberId))
      ensures r.Failure? ==> members.rows == old(members.rows)
      ensures r.Success? ==>
                r.value == FindMember(old(members.rows), memberId).value.(
                             membership := Some(plan), endDate := Some(AddMonths(today, plan.durationMonths)))
                && members.rows == ReplaceMember(old(members.rows), r.value)
      ensures r.Success? ==> (plan.durationMonths > 0 <==> MemberActive(members.rows, memberId, today))
    {
      var found := FindMember(members.rows, memberId);
      if found.None? {
        return Failure(MemberIdNotFound(memberId));
      }
      var updated := found.value.(membership := Some(plan), endDate := Some(AddMonths(today, plan.durationMonths)));
      FindAfterReplaceMember(members.rows, updated);
      AddMonthsMoves(today, plan.durationMonths);
      AddNoMonths(today);
      var _ := members.Update(updated);
      r := Success(updated);
    }

    /** `renewMembership`: false for an unknown member, changing nothing;
        otherwise the membership is replaced and the term restarts today. */
    method RenewMembership(memberId: int, plan: Plan, today: int) returns (ok: bool)
      requires members.Valid()
      modifies members
      ensures members.Valid()
      ensures ok <==> FindMember(old(members.rows), memberId).Some?
      ensures !ok ==> members.rows == old(members.rows)
      ensures ok ==> members.rows == ReplaceMember(old(members.rows),
                       FindMember(old(members.rows), memberId).value.(
                         membership := Some(plan), startDate := Some(today),
                         endDate := Some(AddMonths(today, plan.durationMonths))))
      ensures ok ==> (plan.durationMonths > 0 <==> MemberActive(members.rows, memberId, today))
    {
      var found := FindMember(members.rows, memberId);
      if found.None? {
        return false;
      }
      var renewed := found.value.(membership := Some(plan), startDate := Some(today),
                                  endDate := Some(AddMonths(today, plan.durationMonths)));
      FindAfterReplaceMember(members.rows, renewed);
      AddMonthsMoves(today, plan.durationMonths);
      AddNoMonths(today);
      var _ := members.Update(renewed);
      ok := true;
    }

    /** `cancelMembership`: false for an unknown member, changing nothing;
        otherwise the end date becomes yesterday, so the member is no longer
        active today. */
    method CancelMembership(memberId: int, today: int) returns (ok: bool)
      requires members.Valid()
      modifies members
      ensures members.Valid()
      ensures ok <==> FindMember(old(members.rows), memberId).Some?
      ensures !ok ==> members.rows == old(members.rows)
      ensures ok ==> members.rows == ReplaceMember(old(members.rows),
                       FindMember(old(members.rows), memberId).value.(endDate := Some(today - 1)))
      ensures |members.rows| == |old(members.rows)|
      ensures forall i :: 0 <= i < |members.rows| ==>
                members.rows[i] == if old(members.rows)[i].memberId == memberId
                                   then old(members.rows)[i].(endDate := Some(today - 1))
                                   else old(members.rows)[i]
      ensures !MemberActive(members.rows, memberId, today)
    {
      var found := FindMember(members.rows, memberId);
      if found.None? {
        return false;
      }
      var cancelled := found.value.(endDate := Some(today - 1));
      FindAfterReplaceMember(members.rows, cancelled);
      assert Stored(cancelled.membership.value) == found.value.membership.value;
      var _ := members.Update(cancelled);
      ok := true;
    }
  }
}
