/** The mobile admin app's calendar screen: the same month grid as the web
    calendar, drawn from the screen's own copy of the bookings, and a press
    on a day that has any booking opens the list of that day's bookings. */
module MobileCalendar {
  import opened Types
  import opened Storage
  import opened MobileStorage
  import opened Calendar

  /** The selected day: its key and the bookings on it. */
  datatype DaySelection = DaySelection(date: string, bookings: seq<Booking>)

  /** A day the grid marks booked always opens its list when pressed. */
  lemma MarkedDayOpens(list: seq<Booking>, date: string)
    requires HasBookedOn(list, date)
    ensures OnDate(list, date) != []
  {
    var b :| b in list && b.eventDate == date && b.status == Booked;
    assert b in OnDate(list, date);
  }

  /** With storage unreadable the screen still marks the four seed dates. */
  lemma SeedDatesMarkedOnDevice(user: seq<Booking>, date: string, readOk: bool)
    requires date in SeedDates
    ensures HasBookedOn(Loaded(user, readOk), date)
  {
    DateBookedWhenUnreadable(user, date, readOk);
  }

  class CalendarScreen {
    const store: MobileStore
    var bookings: seq<Booking>
    var selected: Option<DaySelection>
    var showModal: bool

    /** The initial state; the mount effect then calls `LoadBookings`. */
    constructor (store: MobileStore)
      ensures this.store == store
      ensures bookings == [] && selected == None && !showModal
    {
      this.store := store;
      bookings := [];
      selected := None;
      showModal := false;
    }

    /** `loadBookings()`: the loaded list as it comes, unsorted. */
    method LoadBookings(readOk: bool)
      modifies this`bookings
      ensures bookings == Loaded(store.user, readOk)
      ensures |bookings| >= |Seeds| && bookings[..|Seeds|] == Seeds
    {
      bookings := store.GetBookings(readOk);
      LoadedShape(store.user, readOk);
    }

    /** `getBookingStatus(dateString)`: asks the screen's own list. */
    function BookingStatus(date: string): (r: Option<Status>)
      reads this
      ensures r == Some(Booked) <==> HasBookedOn(bookings, date)
    {
      DayStatusIsDateBooked(bookings, date);
      DayStatus(OnDate(bookings, date))
    }

    /** `handleDatePress(dateString)`: any booking on the day, whatever its
        status, opens the modal with exactly that day's bookings. */
    method HandleDatePress(date: string)
      modifies this`selected, this`showModal
      ensures OnDate(bookings, date) != [] ==>
        selected == Some(DaySelection(date, OnDate(bookings, date))) && showModal
      ensures OnDate(bookings, date) == [] ==>
        selected == old(selected) && showModal == old(showModal)
      ensures selected.Some? && selected != old(selected) ==>
        forall b :: b in selected.value.bookings <==> b in bookings && b.eventDate == date
    {
      var dayBookings := OnDate(bookings, date);
      if |dayBookings| > 0 {
        selected := Some(DaySelection(date, dayBookings));
        showModal := true;
      }
    }

    /** `renderCalendarDays()` for the shown month over the screen's list. */
    method RenderCalendarDays(year: int, month: int, daysInMonth: int, firstDay: int, today: string)
      returns (days: seq<DayCell>)
      ensures days == Blanks(firstDay) + DayCells(bookings, MonthKey(year, month), daysInMonth, today)
    {
      days := BuildGrid(bookings, year, month, daysInMonth, firstDay, today);
    }
  }
}
