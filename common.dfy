/** Shared result types and the validation errors the services raise. */
module Common {

  datatype Option<+T> = None | Some(value: T)

  /** Success carries the value an operation returns; Failure carries the
      exception the source throws instead. */
  datatype Result<+T> = Success(value: T) | Failure(error: Error)

  /** The `IllegalArgumentException` reasons (and the one `DateTimeException`)
      that the core raises, one constructor per message. */
  datatype Error =
    | MemberNotFound                    // "Member not found"
    | ClassInPast                       // "Cannot book classes in the past"
    | ConflictingBooking                // "Member already has a booking at this time"
    | BookingNotFound                   // "Booking not found"
    | NotInBookedStatus                 // "Cannot cancel a booking that is not in BOOKED status"
    | DuplicateUsername(username: string)
    | MemberIdNotFound(memberId: int)   // "Member not found with ID: ..."
    | InvalidMembershipType(kind: string)
    | InvalidMonth(month: int)          // LocalDate.of rejects a month outside 1..12
    | NegativeLimit(limit: int)         // Stream.limit rejects a negative size
}
