/** The `Booking` entity: a mutable record whose setters overwrite one field each. */
module Bookings {
  import opened Common
  import opened Records

  class Booking {
    var id: int
    var memberId: int
    var className: string
    var bookingTime: int
    var classTime: int
    var status: Option<BookingStatus>

    function Value(): (b: BookingRecord)
      reads this
      ensures b.id == id && b.memberId == memberId && b.className == className
      ensures b.bookingTime == bookingTime && b.classTime == classTime && b.status == status
    {
      BookingRecord(id, memberId, className, bookingTime, classTime, status)
    }

    /** `new Booking()`: the status stays unset (null). */
    constructor Empty()
      ensures Value() == BookingRecord(0, 0, "", 0, 0, None)
    {
      id, memberId, className, bookingTime, classTime, status := 0, 0, "", 0, 0, None;
    }

    /** The five-argument constructor: the fields as given, the status BOOKED. */
    constructor Create(id: int, memberId: int, className: string, bookingTime: int, classTime: int)
      ensures Value() == BookingRecord(id, memberId, className, bookingTime, classTime, Some(Booked))
    {
      this.id, this.memberId, this.className := id, memberId, className;
      this.bookingTime, this.classTime, status := bookingTime, classTime, Some(Booked);
    }

    method SetId(id: int)
      modifies this
      ensures Value() == old(Value()).(id := id)
    {
      this.id := id;
    }

    method SetMemberId(memberId: int)
      modifies this
      ensures Value() == old(Value()).(memberId := memberId)
    {
      this.memberId := memberId;
    }

    method SetClassName(className: string)
      modifies this
      ensures Value() == old(Value()).(className := className)
    {
      this.className := className;
    }

    method SetBookingTime(bookingTime: int)
      modifies this
      ensures Value() == old(Value()).(bookingTime := bookingTime)
    {
      this.bookingTime := bookingTime;
    }

    method SetClassTime(classTime: int)
      modifies this
      ensures Value() == old(Value()).(classTime := classTime)
    {
      this.classTime := classTime;
    }

    method SetStatus(status: Option<BookingStatus>)
      modifies this
      ensures Value() == old(Value()).(status := status)
    {
      this.status := status;
    }
  }
}
