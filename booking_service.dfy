/** The booking scheduler (`BookingService`): booking with its three checks,
    cancellation from BOOKED only, unconditional no-show and completion
    marks, and the read-only queries. The current time is a parameter. */
module Scheduling {
  import opened Common
  import opened Calendar
  import opened Records
  import opened Sorting
  import opened Bookings
  import opened Stores

  /** The ±1 hour window around `classTime`, both ends included. */
  predicate InWindow(t: int, classTime: int) {
    classTime - SecondsPerHour <= t <= classTime + SecondsPerHour
  }

  /** A booking blocks a new booking at `classTime` when it is BOOKED and its
      class time lies in the window. */
  predicate Blocks(b: BookingRecord, classTime: int) {
    b.status == Some(Booked) && InWindow(b.classTime, classTime)
  }

  function AnyBlocks(bs: seq<BookingRecord>, classTime: int): (r: bool)
    ensures r <==> exists b :: b in bs && Blocks(b, classTime)
  {
    if bs == [] then false
    else Blocks(bs[0], classTime) || AnyBlocks(bs[1..], classTime)
  }

  /** `hasConflictingBooking`: some BOOKED booking of the member has its class
      time within an hour of `classTime`, either way, bounds included. */
  function HasConflict(bs: seq<BookingRecord>, memberId: int, classTime: int): (r: bool)
    ensures r <==> exists b :: b in bs && b.memberId == memberId && b.status == Some(Booked)
                                && classTime - SecondsPerHour <= b.classTime <= classTime + SecondsPerHour
  {
    AnyBlocks(BookingsOf(bs, memberId), classTime)
  }

  /** A booking that is not BOOKED (cancelled, completed, no-show) never
      causes a conflict: adding one leaves every conflict answer unchanged. */
  lemma NonBookedNeverConflicts(bs: seq<BookingRecord>, b: BookingRecord, memberId: int, classTime: int)
    requires b.status != Some(Booked)
    ensures HasConflict(bs + [b], memberId, classTime) == HasConflict(bs, memberId, classTime)
  {
    assert forall x :: x in bs + [b] <==> x in bs || x == b;
  }

  /** Once a BOOKED booking exists, every later request of the same member for
      a time within the hour, either side, conflicts with it. */
  lemma BookedBlocksItsWindow(bs: seq<BookingRecord>, b: BookingRecord, t: int)
    requires b.status == Some(Booked)
    requires b.classTime - SecondsPerHour <= t <= b.classTime + SecondsPerHour
    ensures HasConflict(bs + [b], b.memberId, t)
  {
    assert b in bs + [b];
  }

  function ClassTimeKey(b: BookingRecord): real { b.classTime as real }
  function LatestFirstKey(b: BookingRecord): real { -(b.classTime as real) }

  function BookedAfter(bs: seq<BookingRecord>, now: int): (r: seq<BookingRecord>)
    ensures |r| <= |bs|
    ensures forall b :: b in r <==> b in bs && b.status == Some(Booked) && b.classTime > now
  {
    if bs == [] then []
    else if bs[0].status == Some(Booked) && bs[0].classTime > now then [bs[0]] + BookedAfter(bs[1..], now)
    else BookedAfter(bs[1..], now)
  }

  function Before(bs: seq<BookingRecord>, t: int): (r: seq<BookingRecord>)
    ensures |r| <= |bs|
    ensures forall b :: b in r <==> b in bs && b.classTime < t
  {
    if bs == [] then []
    else if bs[0].classTime < t then [bs[0]] + Before(bs[1..], t)
    else Before(bs[1..], t)
  }

  function BookedBefore(bs: seq<BookingRecord>, t: int): (r: seq<BookingRecord>)
    ensures |r| <= |bs|
    ensures forall b :: b in r <==> b in bs && b.status == Some(Booked) && b.classTime < t
  {
    if bs == [] then []
    else if bs[0].status == Some(Booked) && bs[0].classTime < t then [bs[0]] + BookedBefore(bs[1..], t)
    else BookedBefore(bs[1..], t)
  }

  /** `getUpcomingBookings`: the member's BOOKED bookings whose class is after
      now, earliest first. */
  function Upcoming(bs: seq<BookingRecord>, memberId: int, now: int): (r: seq<BookingRecord>)
    ensures forall i, j :: 0 <= i < j < |r| ==> r[i].classTime <= r[j].classTime
    ensures multiset(r) == multiset(BookedAfter(BookingsOf(bs, memberId), now))
    ensures forall b :: b in r <==> b in bs && b.memberId == memberId && b.status == Some(Booked) && b.classTime > now
  {
    var r := SortBy(BookedAfter(BookingsOf(bs, memberId), now), ClassTimeKey);
    assert forall i :: 0 <= i < |r| ==> ClassTimeKey(r[i]) == r[i].classTime as real;
    assert forall b :: b in r <==> b in multiset(r);
    r
  }

  /** `getPastBookings`: the member's bookings of any status whose class is
      before now, latest first. */
  function Past(bs: seq<BookingRecord>, memberId: int, now: int): (r: seq<BookingRecord>)
    ensures forall i, j :: 0 <= i < j < |r| ==> r[i].classTime >= r[j].classTime
    ensures multiset(r) == multiset(Before(BookingsOf(bs, memberId), now))
    ensures forall b :: b in r <==> b in bs && b.memberId == memberId && b.classTime < now
  {
    var r := SortBy(Before(BookingsOf(bs, memberId), now), LatestFirstKey);
    assert forall i :: 0 <= i < |r| ==> LatestFirstKey(r[i]) == -(r[i].classTime as real);
    assert forall b :: b in r <==> b in multiset(r);
    r
  }

  /** `getBookingsNeedingAttention`: BOOKED bookings whose class started more
      than two hours before now (missed check-out). */
  function NeedingAttention(bs: seq<BookingRecord>, now: int): (r: seq<BookingRecord>)
    ensures forall b :: b in r <==> b in bs && b.status == Some(Booked) && b.classTime < now - 2 * SecondsPerHour
    ensures forall b :: b in r ==> b !in Upcoming(bs, b.memberId, now)
  {
    BookedBefore(bs, now - 2 * SecondsPerHour)
  }

  function CountStatus(bs: seq<BookingRecord>, status: BookingStatus): (n: nat)
    ensures n <= |bs|
  {
    if bs == [] then 0
    else (if bs[0].status == Some(status) then 1 else 0) + CountStatus(bs[1..], status)
  }

  /** With every booking carrying a status, the four status counts share out
      all the bookings. */
  lemma {:induction false} StatusCountsCoverAll(bs: seq<BookingRecord>)
    requires forall i :: 0 <= i < |bs| ==> bs[i].status.Some?
    ensures CountStatus(bs, Booked) + CountStatus(bs, Cancelled) + CountStatus(bs, Completed) + CountStatus(bs, NoShow)
         == |bs|
  {
    if bs != [] {
      assert forall i :: 0 <= i < |bs[1..]| ==> bs[1..][i] == bs[i + 1];
      StatusCountsCoverAll(bs[1..]);
      var st := bs[0].status.value;
      assert bs[0].status == Some(st);
      assert st == Booked || st == Cancelled || st == Completed || st == NoShow;
    }
  }

  /** `getActiveBookingCount`: the BOOKED bookings, which are the bookings
      left over once the cancelled, completed and no-show ones are counted. */
  function ActiveBookingCount(bs: seq<BookingRecord>): (n: nat)
    ensures n <= |bs|
    ensures (forall i :: 0 <= i < |bs| ==> bs[i].status.Some?) ==>
              n == |bs| - CountStatus(bs, Cancelled) - CountStatus(bs, Completed) - CountStatus(bs, NoShow)
  {
    if forall i :: 0 <= i < |bs| ==> bs[i].status.Some? then
      StatusCountsCoverAll(bs);
      CountStatus(bs, Booked)
    else CountStatus(bs, Booked)
  }

  /** `getBookingCountByClass`: the bookings of one class, none exactly when
      no booking names that class. */
  function ClassBookingCount(bs: seq<BookingRecord>, className: string): (n: nat)
    ensures n <= |bs|
    ensures n == 0 <==> forall i :: 0 <= i < |bs| ==> bs[i].className != className
  {
    if bs == [] then 0
    else
      var rest := ClassBookingCount(bs[1..], className);
      assert forall i :: 1 <= i < |bs| ==> bs[i] == bs[1..][i - 1];
      (if bs[0].className == className then 1 else 0) + rest
  }

  /** Storing one more booking raises its class's count by one and leaves
      every other class's count alone; with the empty store's count of 0
      this fixes the count as the number of bookings of the class. */
  lemma {:induction false} ClassCountAppend(bs: seq<BookingRecord>, b: BookingRecord, className: string)
    ensures ClassBookingCount([], className) == 0
    ensures ClassBookingCount(bs + [b], className)
         == ClassBookingCount(bs, className) + (if b.className == className then 1 else 0)
  {
    if bs == [] {
      assert [b][1..] == [];
    } else {
      assert (bs + [b])[1..] == bs[1..] + [b];
      ClassCountAppend(bs[1..], b, className);
    }
  }

  /** `getBookingCompletionRate`: 0 for no bookings, otherwise the percentage
      of all bookings that are COMPLETED. */
  function CompletionRate(bs: seq<BookingRecord>): (rate: real)
    ensures 0.0 <= rate <= 100.0
    ensures bs == [] ==> rate == 0.0
    ensures bs != [] ==> rate * (|bs| as real) == 100.0 * (CountStatus(bs, Completed) as real)
  {
    if bs == [] then 0.0
    else
      var c := CountStatus(bs, Completed) as real;
      var n := |bs| as real;
      assert 0.0 <= c / n <= 1.0;
      c / n * 100.0
  }

  /** With no booking COMPLETED the rate is 0; with all COMPLETED it is 100. */
  lemma {:induction false} CompletionRateExtremes(bs: seq<BookingRecord>)
    requires bs != []
    ensures CountStatus(bs, Completed) == 0 ==> CompletionRate(bs) == 0.0
    ensures (forall b :: b in bs ==> b.status == Some(Completed)) ==> CompletionRate(bs) == 100.0
  {
    if forall b :: b in bs ==> b.status == Some(Completed) {
      AllCompletedCount(bs);
    }
  }

  lemma {:induction false} AllCompletedCount(bs: seq<BookingRecord>)
    requires forall b :: b in bs ==> b.status == Some(Completed)
    ensures CountStatus(bs, Completed) == |bs|
  {
    if bs != [] {
      assert bs[0] in bs;
      assert forall b :: b in bs[1..] ==> b in bs;
      AllCompletedCount(bs[1..]);
    }
  }

  class BookingService {
    const bookings: BookingStore
    const members: MemberStore

    constructor (bookings: BookingStore, members: MemberStore)
      ensures this.bookings == bookings && this.members == members
    {
      this.bookings, this.members := bookings, members;
    }

    /** `bookClass`: the member must exist, the class must not be before now,
        and no conflict may exist, checked in that order; on success one
        BOOKED booking made now is appended. A failure writes nothing. */
    method BookClass(memberId: int, className: string, classTime: int, now: int)
      returns (r: Result<BookingRecord>)
      requires bookings.Valid()
      modifies bookings
      ensures bookings.Valid()
      ensures FindMember(members.rows, memberId).None? ==> r == Failure(MemberNotFound)
      ensures FindMember(members.rows, memberId).Some? && classTime < now ==> r == Failure(ClassInPast)
      ensures (FindMember(members.rows, memberId).Some? && classTime >= now
               && HasConflict(old(bookings.rows), memberId, classTime)) ==> r == Failure(ConflictingBooking)
      ensures r.Failure? ==> bookings.rows == old(bookings.rows)
      ensures r.Success? <==> FindMember(members.rows, memberId).Some? && classTime >= now
                              && !HasConflict(old(bookings.rows), memberId, classTime)
      ensures r.Success? ==>
                r.value == BookingRecord(old(bookings.nextId), memberId, className, now, classTime, Some(Booked))
                && bookings.rows == old(bookings.rows) + [r.value]
    {
      if FindMember(members.rows, memberId).None? {
        return Failure(MemberNotFound);
      }
      if classTime < now {
        return Failure(ClassInPast);
      }
      if HasConflict(bookings.rows, memberId, classTime) {
        return Failure(ConflictingBooking);
      }
      var booking := new Booking.Empty();
      booking.SetMemberId(memberId);
      booking.SetClassName(className);
      booking.SetBookingTime(now);
      booking.SetClassTime(classTime);
      booking.SetStatus(Some(Booked));
      var saved := bookings.Save(booking.Value());
      r := Success(saved);
    }

    /** `cancelBooking`: an unknown id or a status other than BOOKED fails and
        writes nothing; otherwise that one booking becomes CANCELLED and every
        other row is unchanged. */
    method CancelBooking(id: int) returns (r: Result<BookingRecord>)
      requires bookings.Valid()
      modifies bookings
      ensures bookings.Valid()
      ensures FindBooking(old(bookings.rows), id).None? ==> r == Failure(BookingNotFound)
      ensures FindBooking(old(bookings.rows), id).Some? && FindBooking(old(bookings.rows), id).value.status != Some(Booked)
              ==> r == Failure(NotInBookedStatus)
      ensures r.Failure? ==> bookings.rows == old(bookings.rows)
      ensures r.Success? <==> FindBooking(old(bookings.rows), id).Some?
                              && FindBooking(old(bookings.rows), id).value.status == Some(Booked)
      ensures r.Success? ==> r.value == FindBooking(old(bookings.rows), id).value.(status := Some(Cancelled))
      ensures r.Success? ==> |bookings.rows| == |old(bookings.rows)|
      ensures r.Success? ==> forall i :: 0 <= i < |old(bookings.rows)| ==>
                bookings.rows[i] == (if old(bookings.rows)[i].id == id
                                     then old(bookings.rows)[i].(status := Some(Cancelled))
                                     else old(bookings.rows)[i])
    {
      var found := FindBooking(bookings.rows, id);
      if found.None? {
        return Failure(BookingNotFound);
      }
      var booking := found.value;
      if booking.status != Some(Booked) {
        return Failure(NotInBookedStatus);
      }
      var cancelled := booking.(status := Some(Cancelled));
      ghost var before := bookings.rows;
      forall i | 0 <= i < |before| && before[i].id == id
        ensures before[i] == booking
      {
        FoundBookingIsUnique(before, id, i);
      }
      var _ := bookings.Update(cancelled);
      r := Success(cancelled);
    }

    /** The shared body of `markNoShow` and `markCompleted`: any prior status
        is overwritten; only an unknown id fails. */
    method MarkStatus(id: int, status: BookingStatus) returns (r: Result<()>)
      requires bookings.Valid()
      modifies bookings
      ensures bookings.Valid()
      ensures r.Success? <==> FindBooking(old(bookings.rows), id).Some?
      ensures r.Failure? ==> r.error == BookingNotFound && bookings.rows == old(bookings.rows)
      ensures r.Success? ==> |bookings.rows| == |old(bookings.rows)|
      ensures r.Success? ==> forall i :: 0 <= i < |old(bookings.rows)| ==>
                bookings.rows[i] == (if old(bookings.rows)[i].id == id
                                     then old(bookings.rows)[i].(status := Some(status))
                                     else old(bookings.rows)[i])
    {
      var found := FindBooking(bookings.rows, id);
      if found.None? {
        return Failure(BookingNotFound);
      }
      ghost var before := bookings.rows;
      forall i | 0 <= i < |before| && before[i].id == id
        ensures before[i] == found.value
      {
        FoundBookingIsUnique(before, id, i);
      }
      var _ := bookings.Update(found.value.(status := Some(status)));
      r := Success(());
    }

    /** `markNoShow`. */
    method MarkNoShow(id: int) returns (r: Result<()>)
      requires bookings.Valid()
      modifies bookings
      ensures bookings.Valid()
      ensures r.Success? <==> FindBooking(old(bookings.rows), id).Some?
      ensures r.Failure? ==> r.error == BookingNotFound && bookings.rows == old(bookings.rows)
      ensures r.Success? ==> |bookings.rows| == |old(bookings.rows)|
      ensures r.Success? ==> forall i :: 0 <= i < |old(bookings.rows)| ==>
                bookings.rows[i] == (if old(bookings.rows)[i].id == id
                                     then old(bookings.rows)[i].(status := Some(NoShow))
                                     else old(bookings.rows)[i])
    {
      r := MarkStatus(id, NoShow);
    }

    /** `markCompleted`. */
    method MarkCompleted(id: int) returns (r: Result<()>)
      requires bookings.Valid()
      modifies bookings
      ensures bookings.Valid()
      ensures r.Success? <==> FindBooking(old(bookings.rows), id).Some?
      ensures r.Failure? ==> r.error == BookingNotFound && bookings.rows == old(bookings.rows)
      ensures r.Success? ==> |bookings.rows| == |old(bookings.rows)|
      ensures r.Success? ==> forall i :: 0 <= i < |old(bookings.rows)| ==>
                bookings.rows[i] == (if old(bookings.rows)[i].id == id
                                     then old(bookings.rows)[i].(status := Some(Completed))
                                     else old(bookings.rows)[i])
    {
      r := MarkStatus(id, Completed);
    }
  }

  /** Booking the same class twice: the first request succeeds and the
      identical second one fails on the conflict check. */
  method BookTwice(service: BookingService, memberId: int, className: string, classTime: int, now: int)
    returns (first: Result<BookingRecord>, second: Result<BookingRecord>)
    requires service.bookings.Valid()
    requires FindMember(service.members.rows, memberId).Some? && classTime >= now
    requires !HasConflict(service.bookings.rows, memberId, classTime)
    modifies service.bookings
    ensures first.Success? && second == Failure(ConflictingBooking)
  {
    first := service.BookClass(memberId, className, classTime, now);
    BookedBlocksItsWindow(old(service.bookings.rows), first.value, classTime);
    second := service.BookClass(memberId, className, classTime, now);
  }
}
