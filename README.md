# Gym management core in Dafny

This project models the service layer of a small gym management application. The layer has four parts:

- **Memberships**: registering members, and updating, renewing and cancelling their memberships. There are three membership tiers: Monthly, Annual and VIP.
- **Bookings**: booking fitness classes with a one-hour conflict window, cancelling bookings and marking them no-show or completed.
- **Billing**: recording payments and charging for a membership renewal.
- **Reporting**: monthly, date-range and annual financial reports, with margins, growth rates, rankings and averages.

The model is split by the source's own structure:

- `common.dfy` (`Common`): `Option`, `Result` and the error cases. Each exception the services throw becomes a `Failure` value.
- `calendar.dfy` (`Calendar`): dates and times.
  - A date is a day number, day 0 being 1970-01-01. A time is a count of seconds.
  - The proleptic Gregorian calendar is written out: `CivilOf` and `DateOf` are proved inverse, and `AddMonths` clamps the day as `LocalDate.plusMonths` does.
  - Month and year filters are proved equal to inclusive date ranges.
- `catalog.dfy` (`Catalog`): `Membership` and its three subclasses.
  - The subclass becomes a `Tier` tag.
  - The price formula of `calculateMembershipPrice` is kept exactly as written (see below).
- `member.dfy`, `booking.dfy` and `financial_report.dfy`: the entities. Each is a class whose setters are proved to change only their own field. `FinancialReport` keeps its net cash flow equal to income minus expenses.
- `records.dfy`, `ledger.dfy`, `sorting.dfy` and `stores.dfy`: the rows the stores hold, sums and date filters, the stable sort behind `sorted(...)`, and in-memory stores standing for the DAOs.
  - Each store holds its rows in insertion order and the next generated id.
  - The members store keeps only the membership class name, as the table does.
- `booking_service.dfy` (`Scheduling`), `membership_service.dfy` (`MembershipDesk`), `billing_service.dfy` (`Billing`) and `financial_service.dfy` (`Finance`): the four services.
  - Operations that write become methods on service classes, with `modifies` frames over the stores.
  - Queries become functions over the stores' rows, which is where most proved properties live.
  - The current date and time ("now", "today") are parameters.

Where the specification and the code differ, the model follows the code:

- **Booking at "now".** `bookClass` refuses a class only when it is strictly before now, so a class at exactly now can be booked.
- **Membership price.** `calculateMembershipPrice` subtracts the absolute discount from 1 as if it were a rate. For example, an Annual membership priced 1000 is charged -149000. The formula is kept as written and its consequences are proved (`Catalog.AnnualThousandPrice`, `Catalog.DiscountedTierPriceBelowList`).
- **Report constructor and getters.** `FinancialService` builds reports with a five-argument constructor and reads `getTotalRevenue`/`getNetProfit`, none of which `FinancialReport` declares.
  - The model uses the four-argument constructor.
  - Revenue is read as total income and net profit as net cash flow.
  - A monthly report is dated with its own month and year. A date-range or annual report is dated with today's month and year.
- **Stored memberships.** Members read back from the store carry the tier's no-argument membership, whose price is 0. So `getMembershipRevenueByType` is 0 for every stored member (`MembershipDesk.StoredMembershipsEarnNothing`).

## Model

| member | source | states |
|---|---|---|
| Calendar.CivilOf | src/main/java/com/gym/service/FinancialService.java:24 | every day number has a valid civil date that maps back to it |
| Calendar.CivilOfDateOf | src/main/java/com/gym/service/FinancialService.java:56-57 | `LocalDate.of(y, m, d)` of a real day is decoded back to (y, m, d): the two directions of the calendar are inverse |
| Calendar.CivilOrder | src/main/java/com/gym/service/FinancialService.java:169 | day numbers follow the civil order: a later month, or the same month and a later day, is a later date |
| Calendar.AddMonths | src/main/java/com/gym/service/MembershipService.java:42 | `plusMonths(n)` moves the month index by exactly n and never gives a larger day of month; the exact clamp is `AddMonthsClamps` |
| Calendar.AddMonthsClamps | src/main/java/com/gym/service/MembershipService.java:42 | the day of month after `plusMonths` is the original day, or the length of the target month when the original day does not exist there |
| Calendar.AddMonthsMoves | src/main/java/com/gym/service/FinancialService.java:143-146 | adding a positive number of months gives a later date; a negative number gives an earlier one |
| Calendar.AddNoMonths | src/main/java/com/gym/service/FinancialService.java:146 | adding zero months leaves the date unchanged |
| Calendar.BackThenForward | src/main/java/com/gym/service/FinancialService.java:143-146 | going back k months, then forward j <= k months, lands between the start of the window and today |
| Calendar.MonthAsRange | src/main/java/com/gym/dao/impl/PaymentDAOImpl.java:176-178 | a day is in month m of year y iff it lies between that month's first and last day |
| Calendar.YearAsRange | src/main/java/com/gym/service/FinancialService.java:55-58 | a day is in year y iff it lies between January 1st and December 31st of y |
| Ledger.MonthIsRange | src/main/java/com/gym/dao/impl/PaymentDAOImpl.java:176-197 | the month filter (`strftime` on month and year) selects exactly what the `BETWEEN` filter over that month selects |
| Ledger.YearIsRange | src/main/java/com/gym/service/FinancialService.java:55-58 | the year's records are the records of the range January 1st to December 31st |
| Ledger.RangeSplit | src/main/java/com/gym/service/FinancialService.java:148-149 | two ranges sharing their middle day sum to the whole range plus the middle day once more |
| Ledger.MonthsCoverYear | src/main/java/com/gym/service/FinancialService.java:113-123 | the twelve monthly totals of a year add up to the year's total |
| Ledger.TotalAppend | src/main/java/com/gym/service/BillingService.java:136-140 | the sum over a concatenation is the sum of the sums |
| Sorting.SortBy | src/main/java/com/gym/service/BookingService.java:122 | the sort returns a permutation of its input, ordered by the key |
| Sorting.TopBy | src/main/java/com/gym/service/FinancialService.java:99-104 | `sorted().limit(n)` returns min(n, size) elements, ordered by key, drawn from the input, with no element left out ranking before one kept |
| Sorting.DistinctSorted | src/main/java/com/gym/service/FinancialService.java:168-169 | `distinct().sorted()` yields each value exactly once, strictly ascending |
| Catalog.DiscountRate | src/main/java/com/gym/model/AnnualMembership.java:4 | the rate is below 1 and is 0 exactly for the Monthly tier |
| Catalog.TierDuration | src/main/java/com/gym/model/MonthlyMembership.java:6-13 | a Monthly membership lasts 1 month, Annual and VIP 12 |
| Catalog.Discount | src/main/java/com/gym/model/VIPMembership.java:16-18 | `calculateDiscount` is 0 for Monthly and lies between 0 and the price for a non-negative price, strictly inside for Annual and VIP |
| Catalog.DiscountScales | src/main/java/com/gym/model/AnnualMembership.java:16-18 | the discount is linear in the price |
| Catalog.DiscountOrder | src/main/java/com/gym/model/VIPMembership.java:4 | for one price, Monthly <= Annual <= VIP discounts |
| Catalog.MonthlyPriceIsPrice | src/main/java/com/gym/service/MembershipService.java:109-113 | a Monthly membership is charged exactly its price |
| Catalog.PriceFormula | src/main/java/com/gym/service/MembershipService.java:109-113 | the charged price is price - price² × rate |
| Catalog.AnnualThousandPrice | src/main/java/com/gym/service/MembershipService.java:109-113 | an Annual membership priced 1000 has discount 150 and is charged -149000 |
| Catalog.DiscountedTierPriceBelowList | src/main/java/com/gym/service/MembershipService.java:109-113 | Annual and VIP are always charged less than their price, and less than 0 once the discount exceeds 1 |
| Catalog.Membership.Default | src/main/java/com/gym/model/AnnualMembership.java:6-9 | the no-argument constructor sets only the tier's duration |
| Catalog.Membership.Create | src/main/java/com/gym/model/Membership.java:11-16 | the three-argument subclass constructor sets id, name and price and the tier's duration |
| Catalog.Membership.SetPrice | src/main/java/com/gym/model/Membership.java:38-40 | the setter changes the price and nothing else |
| Catalog.Membership.SetId | src/main/java/com/gym/model/Membership.java:22-24 | the setter changes the id and nothing else |
| Catalog.Membership.SetName | src/main/java/com/gym/model/Membership.java:30-32 | the setter changes the name and nothing else |
| Catalog.Membership.SetDurationMonths | src/main/java/com/gym/model/Membership.java:46-48 | the setter changes the duration and nothing else |
| Catalog.Membership.CalculateDiscount | src/main/java/com/gym/model/MonthlyMembership.java:16-18 | the object's discount is `Discount` of its value |
| Catalog.Membership.GetBenefits | src/main/java/com/gym/model/AnnualMembership.java:21-23 | the benefits text depends on the tier alone |
| Members.ActiveBoundary | src/main/java/com/gym/model/Member.java:57-59 | a membership ending today is inactive, one ending tomorrow is active, and one with no end date is inactive |
| Members.InactiveStaysInactive | src/main/java/com/gym/model/Member.java:57-59 | a membership inactive today stays inactive on every later day |
| Members.Member.Create | src/main/java/com/gym/model/Member.java:16-23 | the full constructor stores every field and fixes the role to MEMBER |
| Members.Member.SetEndDate | src/main/java/com/gym/model/Member.java:53-55 | the setter changes the end date and nothing else |
| Members.Member.Empty | src/main/java/com/gym/model/Member.java:11-14 | the no-argument constructor sets the role to MEMBER and leaves membership and dates unset |
| Members.Member.SetId | src/main/java/com/gym/dao/impl/UserDAOImpl.java:34 | setting the generated user id on the member changes nothing else |
| Members.Member.SetMemberId | src/main/java/com/gym/model/Member.java:29-31 | the setter changes the member id and nothing else |
| Members.Member.SetMembership | src/main/java/com/gym/model/Member.java:37-39 | the setter changes the membership and nothing else |
| Members.Member.SetStartDate | src/main/java/com/gym/model/Member.java:45-47 | the setter changes the start date and nothing else |
| Members.Member.IsMembershipActive | src/main/java/com/gym/model/Member.java:57-59 | active iff the end date is present and strictly after today |
| Bookings.Booking.Create | src/main/java/com/gym/model/Booking.java:15-22 | the five-argument constructor stores its fields and sets the status to BOOKED |
| Bookings.Booking.Empty | src/main/java/com/gym/model/Booking.java:13 | the no-argument constructor leaves the status unset |
| Bookings.Booking.SetStatus | src/main/java/com/gym/model/Booking.java:68-70 | the setter changes the status and nothing else |
| Bookings.Booking.SetId | src/main/java/com/gym/model/Booking.java:28-30 | the setter changes the id and nothing else |
| Bookings.Booking.SetMemberId | src/main/java/com/gym/model/Booking.java:36-38 | the setter changes the member id and nothing else |
| Bookings.Booking.SetClassName | src/main/java/com/gym/model/Booking.java:44-46 | the setter changes the class name and nothing else |
| Bookings.Booking.SetBookingTime | src/main/java/com/gym/model/Booking.java:52-54 | the setter changes the booking time and nothing else |
| Bookings.Booking.SetClassTime | src/main/java/com/gym/model/Booking.java:60-62 | the setter changes the class time and nothing else |
| Reports.FinancialReport.Empty | src/main/java/com/gym/model/FinancialReport.java:10 | the no-argument constructor leaves every figure 0, net cash flow included |
| Reports.FinancialReport.SetMonth | src/main/java/com/gym/model/FinancialReport.java:24-26 | setting the month changes neither the totals nor the net cash flow |
| Reports.FinancialReport.SetYear | src/main/java/com/gym/model/FinancialReport.java:32-34 | setting the year changes neither the totals nor the net cash flow |
| Reports.FinancialReport.Create | src/main/java/com/gym/model/FinancialReport.java:12-18 | the constructor stores the four figures, and the net cash flow is income minus expenses |
| Reports.FinancialReport.SetTotalIncome | src/main/java/com/gym/model/FinancialReport.java:40-43 | setting the income recomputes the net from the new income and the kept expenses |
| Reports.FinancialReport.SetTotalExpenses | src/main/java/com/gym/model/FinancialReport.java:49-52 | setting the expenses recomputes the net from the kept income and the new expenses |
| Reports.FinancialReport.GetNetCashFlow | src/main/java/com/gym/model/FinancialReport.java:54-56 | the net cash flow is always income minus expenses |
| Reports.NetAfterEdits | src/main/java/com/gym/model/FinancialReport.java:12-52 | after any run of setter calls, the net equals the last income set minus the last expenses set |
| Records.TypeTotalsCoverAll | src/main/java/com/gym/service/BillingService.java:142-146 | the three payment types' totals add up to the total of all payments |
| Records.CategoryTotalsCoverAll | src/main/java/com/gym/service/FinancialService.java:92-97 | the six expense categories' totals add up to the total of all expenses |
| Records.PaymentsOf | src/main/java/com/gym/dao/impl/PaymentDAOImpl.java:109-129 | `findByMemberId` keeps exactly the member's payments |
| Stores.FindBooking | src/main/java/com/gym/dao/impl/BookingDAOImpl.java:93-112 | `findById` finds a row iff a row has that id, and returns a row with that id |
| Stores.ReplaceBooking | src/main/java/com/gym/dao/impl/BookingDAOImpl.java:52-75 | `update` rewrites exactly the rows with the booking's id and keeps the rest |
| Stores.FindAfterReplaceBooking | src/main/java/com/gym/dao/impl/BookingDAOImpl.java:52-75 | reading a booking back after `update` yields the record written, if the id existed |
| Stores.FoundBookingIsUnique | src/main/java/com/gym/dao/impl/BookingDAOImpl.java:93-112 | with increasing ids, the row `findById` returns is the row with that id |
| Stores.FindMember | src/main/java/com/gym/dao/impl/MemberDAOImpl.java:51-75 | `findById` finds a member iff a row has that member id |
| Stores.Stored | src/main/java/com/gym/dao/impl/MemberDAOImpl.java:198-204 | a membership read back keeps its tier and gets the tier's default duration |
| Stores.ReplaceMember | src/main/java/com/gym/dao/impl/MemberDAOImpl.java:127-148 | `update` rewrites membership type, start and end date of the matching rows only |
| Stores.FindAfterReplaceMember | src/main/java/com/gym/dao/impl/MemberDAOImpl.java:127-148 | reading a member back after `update` yields the stored row with the three written columns |
| Stores.FoundMemberIsUnique | src/main/java/com/gym/dao/impl/MemberDAOImpl.java:51-75 | with increasing member ids, the row found is the row with that id |
| Stores.ActiveMembers | src/main/java/com/gym/dao/impl/MemberDAOImpl.java:166-187 | `findActiveMembers` keeps exactly the members whose end date is after today |
| Stores.MemberStore.Save | src/main/java/com/gym/dao/impl/MemberDAOImpl.java:20-49 | `save` appends the row under the next id, keeping only the membership's class |
| Stores.UserStore.Save | src/main/java/com/gym/dao/impl/UserDAOImpl.java:16-45 | `save` appends the user under the next id |
| Stores.MemberStore.Update | src/main/java/com/gym/dao/impl/MemberDAOImpl.java:127-148 | `update` succeeds iff the member id exists and rewrites exactly the matching rows' three columns |
| Stores.BookingStore.Save | src/main/java/com/gym/dao/impl/BookingDAOImpl.java:20-50 | `save` appends the booking under the next id |
| Stores.PaymentStore.Save | src/main/java/com/gym/dao/impl/PaymentDAOImpl.java:17-46 | `save` appends the payment under the next id |
| Stores.ExpenseStore.Save | src/main/java/com/gym/dao/impl/ExpenseDAOImpl.java:17-46 | `save` appends the expense under the next id |
| Stores.BookingStore.Update | src/main/java/com/gym/dao/impl/BookingDAOImpl.java:52-75 | `update` replaces the rows with that id and keeps the store valid |
| Scheduling.HasConflict | src/main/java/com/gym/service/BookingService.java:83-94 | a conflict exists iff the member has a BOOKED booking whose class is within one hour either side, both ends included |
| Scheduling.NonBookedNeverConflicts | src/main/java/com/gym/service/BookingService.java:89 | a cancelled, completed or no-show booking never causes a conflict |
| Scheduling.BookedBlocksItsWindow | src/main/java/com/gym/service/BookingService.java:83-94 | a BOOKED booking blocks every request of its member within one hour of its class |
| Scheduling.Upcoming | src/main/java/com/gym/service/BookingService.java:118-124 | the member's BOOKED bookings after now, exactly, in ascending class time |
| Scheduling.Past | src/main/java/com/gym/service/BookingService.java:126-131 | the member's bookings of any status before now, exactly, latest first |
| Scheduling.NeedingAttention | src/main/java/com/gym/service/BookingService.java:154-160 | exactly the BOOKED bookings whose class began more than two hours ago; none of them is upcoming |
| Scheduling.StatusCountsCoverAll | src/main/java/com/gym/service/BookingService.java:137-152 | the four status counts add up to the number of bookings |
| Scheduling.ActiveBookingCount | src/main/java/com/gym/service/BookingService.java:137-139 | the BOOKED count is the total minus the cancelled, completed and no-show counts |
| Scheduling.ClassBookingCount | src/main/java/com/gym/service/BookingService.java:133-135 | the count is 0 iff no booking names that class |
| Scheduling.ClassCountAppend | src/main/java/com/gym/service/BookingService.java:133-135 | the count is 0 for no bookings and grows by one exactly with each booking of that class, so it is the number of bookings of the class |
| Scheduling.CompletionRate | src/main/java/com/gym/service/BookingService.java:141-152 | 0 without bookings; otherwise rate × bookings = 100 × completed, a value in 0..100 |
| Scheduling.CompletionRateExtremes | src/main/java/com/gym/service/BookingService.java:141-152 | no completed booking gives 0; all completed gives 100 |
| Scheduling.BookingService.BookClass | src/main/java/com/gym/service/BookingService.java:21-42 | checks the member, then the past, then conflicts, in that order; on success appends one BOOKED booking with the next id; on failure writes nothing |
| Scheduling.BookingService.CancelBooking | src/main/java/com/gym/service/BookingService.java:44-57 | an unknown id or a non-BOOKED booking fails and writes nothing; otherwise only that booking becomes CANCELLED |
| Scheduling.BookingService.MarkNoShow | src/main/java/com/gym/service/BookingService.java:96-105 | an unknown id fails; otherwise only that booking becomes NO_SHOW, from any status |
| Scheduling.BookingService.MarkCompleted | src/main/java/com/gym/service/BookingService.java:107-116 | an unknown id fails; otherwise only that booking becomes COMPLETED, from any status |
| Scheduling.BookTwice | src/main/java/com/gym/service/BookingService.java:30-32 | booking the same class twice: the first request succeeds and the second is refused as a conflict |
| MembershipDesk.ParseTier | src/main/java/com/gym/service/MembershipService.java:124-128 | the switch names a tier iff the text is exactly that tier's keyword |
| MembershipDesk.CreateMembership | src/main/java/com/gym/service/MembershipService.java:123-130 | accepted iff the lower-cased type is a keyword; then the tier's membership with id 0, its title and the price; otherwise an invalid-type error |
| MembershipDesk.CreateIgnoresCase | src/main/java/com/gym/service/MembershipService.java:124 | two type names equal after lower-casing give the same result |
| MembershipDesk.CreateMonthlyUpper | src/main/java/com/gym/service/MembershipService.java:124-125 | "MONTHLY" creates a Monthly membership |
| MembershipDesk.CreateAnnualMixed | src/main/java/com/gym/service/MembershipService.java:124-126 | "Annual" creates an Annual membership |
| MembershipDesk.CreateVipUpper | src/main/java/com/gym/service/MembershipService.java:124-127 | "VIP" creates a VIP membership |
| MembershipDesk.CreateRejectsUnknown | src/main/java/com/gym/service/MembershipService.java:128 | "gold" is refused as an invalid type |
| MembershipDesk.MemberActive | src/main/java/com/gym/service/MembershipService.java:132-135 | with unique member ids: active iff the member exists and their end date is after today |
| MembershipDesk.TotalActiveMembers | src/main/java/com/gym/service/MembershipService.java:137-139 | at most all members, and all members iff every member is active |
| MembershipDesk.ActiveMembersAppend | src/main/java/com/gym/dao/impl/MemberDAOImpl.java:166-187 | appending a member to the rows appends it to the active members exactly when it is active |
| MembershipDesk.ActiveCountAppend | src/main/java/com/gym/service/MembershipService.java:137-139 | the count is 0 for no members and grows by one exactly with each active member, so it is the number of active members |
| MembershipDesk.ExpiringSoon | src/main/java/com/gym/service/MembershipService.java:115-121 | exactly the members whose end date is strictly between today and today + days |
| MembershipDesk.ExpiringAreActive | src/main/java/com/gym/service/MembershipService.java:115-121 | every member about to expire is still active, and a window of one day or less holds nobody |
| MembershipDesk.FreshTermIsActive | src/main/java/com/gym/service/MembershipService.java:37-43 | a term of at least one month starting today is active today |
| MembershipDesk.MembershipRevenueByType | src/main/java/com/gym/service/MembershipService.java:141-146 | a name that is no membership class name collects 0 |
| MembershipDesk.StoredMembershipsEarnNothing | src/main/java/com/gym/service/MembershipService.java:141-146 | over members as the store returns them, the revenue by type is 0 for every name |
| MembershipDesk.Registered | src/main/java/com/gym/service/MembershipService.java:33-43 | the member as registration completes it: ids from the two stores, the given membership, start and end kept; a missing membership becomes the default Monthly one, a missing start today, a missing end start + duration |
| MembershipDesk.RegisteredIsActive | src/main/java/com/gym/service/MembershipService.java:37-43 | a member registered without dates, whose membership lasts at least a month, is active on the day of registration |
| MembershipDesk.MembershipService.RegisterMember | src/main/java/com/gym/service/MembershipService.java:24-46 | a taken username is refused with nothing written; otherwise the user row is appended, then the member row (as `Registered` completes it, with the tier's stored plan), and the caller's object becomes that member |
| MembershipDesk.MembershipService.UpdateMembership | src/main/java/com/gym/service/MembershipService.java:60-71 | an unknown member is refused; otherwise the membership and an end date of today + duration are written; active afterwards iff the duration is positive |
| MembershipDesk.MembershipService.RenewMembership | src/main/java/com/gym/service/MembershipService.java:73-90 | false and no change for an unknown member; otherwise the term restarts today; active afterwards iff the duration is positive |
| MembershipDesk.MembershipService.CancelMembership | src/main/java/com/gym/service/MembershipService.java:92-107 | false and no change for an unknown member; otherwise only that member's end date becomes yesterday, and the member is inactive today |
| Billing.TotalByMember | src/main/java/com/gym/service/BillingService.java:87-91 | for non-negative amounts: between 0 and the total revenue |
| Billing.TotalByMemberAndType | src/main/java/com/gym/service/BillingService.java:93-98 | for non-negative amounts: between 0 and the member's total |
| Billing.MemberTypeTotalsAddUp | src/main/java/com/gym/service/BillingService.java:87-98 | one member's totals by type add up to the member's total |
| Billing.TotalRevenue | src/main/java/com/gym/service/BillingService.java:136-140 | non-negative when every amount is |
| Billing.RevenueByType | src/main/java/com/gym/service/BillingService.java:142-146 | for non-negative amounts: between 0 and the total revenue |
| Billing.RevenueByTypeCoversTotal | src/main/java/com/gym/service/BillingService.java:136-146 | the revenue by type over the three types is the total revenue |
| Billing.RevenueByDateRange | src/main/java/com/gym/service/BillingService.java:148-152 | an inverted range has no revenue |
| Billing.MonthlyRevenue | src/main/java/com/gym/service/BillingService.java:154-158 | for a valid month, the revenue of the range from its first to its last day |
| Billing.PaymentCount | src/main/java/com/gym/service/BillingService.java:179-181 | the count is the number of payments |
| Billing.AveragePayment | src/main/java/com/gym/service/BillingService.java:166-177 | 0 without payments; otherwise average × count = total revenue |
| Billing.RecentPayments | src/main/java/com/gym/service/BillingService.java:183-189 | exactly the payments dated after today - days, a permutation of them, newest first |
| Billing.BillingService.RecordMembershipPayment | src/main/java/com/gym/service/BillingService.java:22-35 | an unknown member is refused with nothing written; otherwise one membership payment of the amount, dated today, is appended |
| Billing.BillingService.RecordClassPayment | src/main/java/com/gym/service/BillingService.java:37-50 | the same for a class payment |
| Billing.BillingService.RecordOtherPayment | src/main/java/com/gym/service/BillingService.java:52-65 | the same for another payment |
| Billing.BillingService.ProcessMembershipRenewal | src/main/java/com/gym/service/BillingService.java:104-113 | true iff the member exists; then the fee is charged as one membership payment and the membership renewed from today; otherwise nothing changes |
| Finance.MonthlyExpenses | src/main/java/com/gym/dao/impl/ExpenseDAOImpl.java:154-175 | for a valid month, the expenses of the range from its first to its last day |
| Finance.ExpensesByDateRange | src/main/java/com/gym/dao/impl/ExpenseDAOImpl.java:131-152 | an inverted range has no expenses |
| Finance.AnnualRevenue | src/main/java/com/gym/service/FinancialService.java:55-58 | the year's revenue, equal to the sum of its twelve monthly revenues |
| Finance.AnnualExpenses | src/main/java/com/gym/service/FinancialService.java:55-58 | the year's expenses, equal to the sum of its twelve monthly expenses |
| Finance.Margin | src/main/java/com/gym/service/FinancialService.java:61-69 | 0 without revenue; otherwise margin × revenue = 100 × net, at most 100 for non-negative expenses, positive iff the net is |
| Finance.ProfitMargin | src/main/java/com/gym/service/FinancialService.java:61-69 | with revenue, the margin is positive iff the range is profitable |
| Finance.Growth | src/main/java/com/gym/service/FinancialService.java:71-83 | `IsGrowth`: 0 without a previous value, otherwise growth × previous = 100 × change; with positive previous revenue, positive iff the value rose |
| Finance.GrowthIsUnique | src/main/java/com/gym/service/FinancialService.java:71-83 | `IsGrowth` fixes the rate: two rates meeting it for the same pair are equal |
| Finance.YearOverYearGrowth | src/main/java/com/gym/service/FinancialService.java:71-83 | 0 for the same year; with previous revenue, positive iff revenue rose |
| Finance.ExpenseToRevenueRatio | src/main/java/com/gym/service/FinancialService.java:178-186 | `Double.MAX_VALUE` without revenue; otherwise ratio × revenue = expenses, and with positive revenue below 1 iff the range is profitable |
| Finance.RangeRevenueByType | src/main/java/com/gym/service/FinancialService.java:85-90 | the range's payments of one type, summed; the three types add up to the range's revenue (`Finance.RangeTypesCoverRevenue`) |
| Finance.RangeExpensesByCategory | src/main/java/com/gym/service/FinancialService.java:92-97 | the range's expenses of one category, summed; the six categories add up to the range's expenses (`Finance.RangeCategoriesCoverExpenses`) |
| Finance.RangeTypesCoverRevenue | src/main/java/com/gym/service/FinancialService.java:85-90 | the revenue by payment type over a range adds up to the range's revenue |
| Finance.RangeCategoriesCoverExpenses | src/main/java/com/gym/service/FinancialService.java:92-97 | the expenses by category over a range add up to the range's expenses |
| Finance.TopPayments | src/main/java/com/gym/service/FinancialService.java:99-104 | a negative limit is refused; otherwise min(limit, count) payments, largest first, none left out larger than one kept |
| Finance.TopExpenses | src/main/java/com/gym/service/FinancialService.java:106-111 | the same for expenses |
| Finance.MonthlyAverage | src/main/java/com/gym/service/FinancialService.java:113-123 | the loop over the twelve months yields average × 12 = the year's total |
| Finance.HalfTowardZero | src/main/java/com/gym/service/FinancialService.java:146 | `months / 2` rounds toward zero |
| Finance.GrowthWindow | src/main/java/com/gym/service/FinancialService.java:143-146 | for months >= 0, start <= middle <= today |
| Finance.RevenueGrowthRate | src/main/java/com/gym/service/FinancialService.java:142-156 | `IsGrowth` of the second half over the first: 0 without first-half revenue, otherwise rate × first half = 100 × (second - first) |
| Finance.GrowthHalvesCoverWindow | src/main/java/com/gym/service/FinancialService.java:148-149 | the two halves cover the window, counting the middle day twice |
| Finance.MonthNetExample | src/main/java/com/gym/service/FinancialService.java:23-38 | a payment of 500 and an expense of 300 on one day: that month nets 200, every other month nets 0 |
| Finance.ProfitableIn | src/main/java/com/gym/service/FinancialService.java:164-176 | from increasing dates, exactly those in the year whose month has a positive net, still increasing |
| Finance.ProfitableMonths | src/main/java/com/gym/service/FinancialService.java:164-176 | exactly the distinct payment dates of the year whose month has a positive net, strictly ascending |
| Finance.FinancialService.GenerateMonthlyReport | src/main/java/com/gym/service/FinancialService.java:23-38 | a month outside 1..12 is refused; otherwise a report of that month with its revenue and expenses |
| Finance.FinancialService.GenerateDateRangeReport | src/main/java/com/gym/service/FinancialService.java:40-53 | a fresh report dated today with the range's revenue and expenses |
| Finance.FinancialService.GenerateAnnualReport | src/main/java/com/gym/service/FinancialService.java:55-59 | the report of January 1st to December 31st, whose figures equal the sums of the twelve months |
| Finance.FinancialService.AverageMonthlyRevenue | src/main/java/com/gym/service/FinancialService.java:113-123 | average × 12 = the year's revenue |
| Finance.FinancialService.AverageMonthlyExpenses | src/main/java/com/gym/service/FinancialService.java:125-135 | average × 12 = the year's expenses |

## Left out

- JDBC, SQL text and the database are not modelled. Stores are in-memory sequences. Dates kept as text, null columns and parse failures of stored dates are not modelled.
- Years outside 1000..9999 are not modelled. For them, `strftime('%Y')` and `LocalDate.toString` format differently, so the text filters of the DAOs can disagree with the calendar. The model uses the calendar filters throughout.
- Separate clock reads are not modelled. `bookClass` reads the clock twice (lines 26 and 37) and the queries read it again; the model passes one `now` or `today`.
- The two notions of today are not distinguished. The database's UTC `date('now')` and the JVM's `LocalDate.now()` are taken to be the same day.
- Concurrency is not modelled. Registration and renewal write several rows without a transaction, so a crash in between is not modelled either.
- Catch-all `catch (Exception)` branches are modelled only for the failures the core raises itself (an unknown member, id or status). Database exceptions are not modelled.
- IEEE doubles are not modelled. Amounts, rates and percentages are exact reals, and rounding and overflow are not modelled. `Double.MAX_VALUE` is kept as its exact value.
- Sorting.SortBy: is proved to be an ordered permutation. Stability is not proved: the sort is stable, but the order of equal keys is not stated.
- MembershipDesk.AsciiLower: lower-cases A-Z only, as `toLowerCase` does under a non-Turkic default locale, which the model assumes. Under a Turkish or Azeri locale `createMembership` differs: "VIP" lower-cases to "vıp" and is refused, while "Vİp" lower-cases to "vip" and is accepted. Other non-ASCII case mappings are not modelled.
- MembershipDesk.MembershipRevenueByType: matches names with `AsciiLower` on both sides. `equalsIgnoreCase` also matches 'ſ' with 's' and 'ı' with 'i', which the model does not. The difference has no visible effect, because stored members earn 0 (`MembershipDesk.StoredMembershipsEarnNothing`).
- Records.PaymentsOf, Records.PaymentsOfType, Records.PaymentsAfter, Records.ExpensesOfCategory, Records.BookingsOf, Stores.ActiveMembers, MembershipDesk.ExpiringSoon, Scheduling.NeedingAttention: these filters state exactly which rows are kept. They do not state that the kept rows stay in store order, although the bodies keep that order.
- Pass-through finders are not modelled separately (`findPaymentById`, `getPaymentsBy*`, `getBookingsBy*`, `findBookingById`, `getAllBookings`, `getAllPayments`, `findMemberById`, `findAllMembers`, `findActiveMembers` of the service). Each returns a store query that is modelled by `Stores` or `Records`.
- `getOverduePayments` is not modelled: it always returns an empty list.
- `calculateMembershipFee` is not modelled separately: it delegates to `calculateMembershipPrice` (`Catalog.MembershipPrice`).
- `updatePayment` and `deletePayment` are not modelled. They are plain DAO writes outside the core's rules, and there is no `delete` in the stores.
- The five-argument `FinancialReport` constructor and `getTotalRevenue`/`getNetProfit` are not part of the model: `FinancialReport` does not declare them. They are read as the four-argument constructor, total income and net cash flow.
- `toString` methods and the user interface controllers are not modelled.
