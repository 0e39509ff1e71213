/** The web calendar: the booked marker of a day, the month grid, and the
    click, edit and delete handlers of the client and admin views. */
module Calendar {
  import opened Types
  import opened Lists
  import opened Storage
  import opened Dates

  /** `some(b => b.status === 'booked')`. */
  predicate AnyBooked(s: seq<Booking>) {
    |s| > 0 && (s[0].status == Booked || AnyBooked(s[1..]))
  }

  lemma {:induction false} AnyBookedIff(s: seq<Booking>)
    ensures AnyBooked(s) <==> exists b | b in s :: b.status == Booked
  {
    if |s| > 0 {
      AnyBookedIff(s[1..]);
      if !AnyBooked(s) {
        forall b | b in s ensures b.status != Booked {
          if b != s[0] {
            assert b in s[1..];
          }
        }
      }
    }
  }

  /** `getBookingStatus` given the bookings on a day: `'booked'` when one of
      them is booked, otherwise nothing. */
  function DayStatus(dayBookings: seq<Booking>): (r: Option<Status>)
    ensures r.Some? ==> r.value == Booked && |dayBookings| > 0
  {
    if |dayBookings| == 0 then None
    else if AnyBooked(dayBookings) then Some(Booked)
    else None
  }

  /** A day is marked exactly when the store reports the date booked:
      pending, approved and rejected bookings never mark a day. */
  lemma DayStatusIsDateBooked(list: seq<Booking>, date: string)
    ensures DayStatus(OnDate(list, date)) == Some(Booked) <==> HasBookedOn(list, date)
  {
    AnyBookedIff(OnDate(list, date));
  }

  /** One cell of the month grid: a blank before the first weekday, or a
      numbered day with its key, its booked marker and whether it is today. */
  datatype DayCell = Blank | Day(day: int, date: string, booked: bool, today: bool)

  function Max0(n: int): nat {
    if n < 0 then 0 else n
  }

  /** Whether `list` holds a booked booking on `date`, scanning from the
      front. */
  predicate BookedOn(list: seq<Booking>, date: string) {
    |list| > 0 && ((list[0].eventDate == date && list[0].status == Booked) || BookedOn(list[1..], date))
  }

  lemma {:induction false} BookedOnIff(list: seq<Booking>, date: string)
    ensures BookedOn(list, date) <==> HasBookedOn(list, date)
  {
    if |list| > 0 {
      BookedOnIff(list[1..], date);
    }
  }

  /** The cell of day number `day`, keyed by `date`, given the bookings the
      grid consults. */
  function CellFor(list: seq<Booking>, date: string, day: int, today: string): DayCell {
    Day(day, date, BookedOn(list, date), date == today)
  }

  /** The grid's `getBookingStatus(dateStr) === 'booked'` for one day. */
  method DayMarked(list: seq<Booking>, date: string) returns (booked: bool)
    ensures booked <==> HasBookedOn(list, date)
    ensures booked == BookedOn(list, date)
  {
    var status := DayStatus(OnDate(list, date));
    DayStatusIsDateBooked(list, date);
    BookedOnIff(list, date);
    booked := status == Some(Booked);
  }

  /** One iteration of the day loop, once the day's key is known: the
      marker and the today flag. */
  method MakeCell(list: seq<Booking>, date: string, day: int, today: string) returns (cell: DayCell)
    ensures cell == CellFor(list, date, day, today)
  {
    var booked := DayMarked(list, date);
    cell := Day(day, date, booked, date == today);
  }

  /** The key of each day of the shown month: `formatDate(year, month, day)`. */
  function MonthKey(year: int, month: int): int -> string {
    d => FormatDate(year, month, d)
  }

  /** The leading blanks of a grid whose month starts on weekday `n`. */
  function Blanks(n: int): (r: seq<DayCell>)
    ensures |r| == Max0(n)
    ensures forall i :: 0 <= i < |r| ==> r[i] == Blank
  {
    if n <= 0 then [] else Blanks(n - 1) + [Blank]
  }

  /** The cells of days 1 to `n`, in order, each keyed by `key`. */
  function DayCells(list: seq<Booking>, key: int -> string, n: int, today: string): (r: seq<DayCell>)
    ensures |r| == Max0(n)
  {
    if n <= 0 then [] else DayCells(list, key, n - 1, today) + [CellFor(list, key(n), n, today)]
  }

  /** Position `k` of the day cells is the cell of day `k + 1`. */
  lemma {:induction false} DayCellsAt(list: seq<Booking>, key: int -> string, n: int, today: string, k: int)
    requires 0 <= k < Max0(n)
    ensures DayCells(list, key, n, today)[k] == CellFor(list, key(k + 1), k + 1, today)
  {
    if k < n - 1 {
      DayCellsAt(list, key, n - 1, today, k);
    }
  }

  /** `renderCalendarDays`' first loop: `n` blanks. */
  method BlankRow(n: int) returns (days: seq<DayCell>)
    ensures days == Blanks(n)
  {
    days := [];
    var i := 0;
    while i < n
      invariant 0 <= i <= Max0(n)
      invariant days == Blanks(i)
    {
      days := days + [Blank];
      i := i + 1;
    }
  }

  /** `renderCalendarDays`' second loop: after the cells in `prefix`, one
      cell per day from 1 to `n`, keyed by `key`. */
  method DayRow(prefix: seq<DayCell>, list: seq<Booking>, key: int -> string, n: int, today: string)
    returns (days: seq<DayCell>)
    ensures days == prefix + DayCells(list, key, n, today)
  {
    days := prefix;
    var day := 1;
    while day <= n
      invariant 1 <= day <= Max0(n) + 1
      invariant days == prefix + DayCells(list, key, day - 1, today)
    {
      var cell := MakeCell(list, key(day), day, today);
      days := days + [cell];
      day := day + 1;
    }
  }

  /** `renderCalendarDays`' two loops: `firstDay` blanks, then one cell per
      day from 1 to `daysInMonth`, keyed by the shown month. */
  method BuildGrid(list: seq<Booking>, year: int, month: int, daysInMonth: int, firstDay: int, today: string)
    returns (days: seq<DayCell>)
    ensures days == Blanks(firstDay) + DayCells(list, MonthKey(year, month), daysInMonth, today)
  {
    days := BlankRow(firstDay);
    days := DayRow(days, list, MonthKey(year, month), daysInMonth, today);
  }

  /** The grid has `firstDay` blanks followed by the cells of days 1 to
      `daysInMonth`, each keyed by its own date and marked booked exactly
      when the list books that date. */
  lemma GridLayout(list: seq<Booking>, year: int, month: int, daysInMonth: int, firstDay: int, today: string, j: int)
    requires 0 <= j < Max0(firstDay) + Max0(daysInMonth)
    ensures var g := Blanks(firstDay) + DayCells(list, MonthKey(year, month), daysInMonth, today);
      && |g| == Max0(firstDay) + Max0(daysInMonth)
      && (j < Max0(firstDay) ==> g[j] == Blank)
      && (j >= Max0(firstDay) ==>
            && g[j].Day? && g[j].day == j - Max0(firstDay) + 1
            && g[j].date == FormatDate(year, month, j - Max0(firstDay) + 1)
            && (g[j].booked <==> HasBookedOn(list, g[j].date))
            && (g[j].today <==> g[j].date == today))
  {
    var blanks := Blanks(firstDay);
    var cells := DayCells(list, MonthKey(year, month), daysInMonth, today);
    if j >= Max0(firstDay) {
      var k := j - Max0(firstDay);
      assert (blanks + cells)[j] == cells[k];
      MonthCellAt(list, year, month, daysInMonth, today, k);
    } else {
      assert (blanks + cells)[j] == blanks[j];
    }
  }

  /** Position `k` of a month's day cells is day `k + 1`, keyed by its date. */
  lemma MonthCellAt(list: seq<Booking>, year: int, month: int, daysInMonth: int, today: string, k: int)
    requires 0 <= k < Max0(daysInMonth)
    ensures var c := DayCells(list, MonthKey(year, month), daysInMonth, today)[k];
      && c.Day? && c.day == k + 1
      && c.date == FormatDate(year, month, k + 1)
      && (c.booked <==> HasBookedOn(list, c.date))
      && (c.today <==> c.date == today)
  {
    var date := MonthKey(year, month)(k + 1);
    DayCellsAt(list, MonthKey(year, month), daysInMonth, today, k);
    assert date == FormatDate(year, month, k + 1);
    BookedOnIff(list, date);
  }

  /** Distinct days of one month have distinct keys. */
  lemma MonthKeyInjective(year: int, month: int, d1: int, d2: int)
    requires 0 <= year && 0 <= month < 12 && 1 <= d1 <= 31 && 1 <= d2 <= 31 && d1 != d2
    ensures MonthKey(year, month)(d1) != MonthKey(year, month)(d2)
  {
    FormatDateInjective(year, month, d1, year, month, d2);
  }

  /** Distinct days of one month get distinct keys, so at most one cell of a
      grid is today and a booking marks at most one cell. */
  lemma GridKeysDistinct(list: seq<Booking>, year: int, month: int, daysInMonth: int, today: string, k1: int, k2: int)
    requires 0 <= year && 0 <= month < 12 && daysInMonth <= 31
    requires 0 <= k1 < Max0(daysInMonth) && 0 <= k2 < Max0(daysInMonth) && k1 != k2
    ensures var c := DayCells(list, MonthKey(year, month), daysInMonth, today);
      && c[k1].Day? && c[k2].Day?
      && c[k1].date != c[k2].date && !(c[k1].today && c[k2].today)
  {
    var key := MonthKey(year, month);
    DayCellsAt(list, key, daysInMonth, today, k1);
    DayCellsAt(list, key, daysInMonth, today, k2);
    MonthKeyInjective(year, month, k1 + 1, k2 + 1);
  }

  /** Whether the calendar is shown to a client or to the admin. */
  datatype ViewMode = Client | Admin

  /** Deleting a pre-existing booking from the calendar drops it from the
      calendar's own list while the store still shows it. */
  lemma DeleteOfSeedDiverges(user: seq<Booking>, id: string)
    requires IsSeedId(id)
    ensures id !in IdsOf(WithoutId(Merged(user), id))
    ensures id in IdsOf(Merged(AfterDelete(Merged(user), id)))
  {
    DeleteIsVisible(user, id);
    MergedProperties(user);
    IsSeedIdIff(id);
  }

  class CalendarView {
    const store: WebStore
    const viewMode: ViewMode
    var bookings: seq<Booking>
    var selectedDate: Option<string>
    var showAvailableModal: bool
    var editing: Option<Booking>
    var edit: EditForm

    /** The initial state; the mount effect then calls `LoadBookings`. */
    constructor (store: WebStore, viewMode: ViewMode)
      ensures this.store == store && this.viewMode == viewMode
      ensures bookings == [] && selectedDate == None && !showAvailableModal
      ensures editing == None && edit == BlankEditForm
    {
      this.store := store;
      this.viewMode := viewMode;
      bookings := [];
      selectedDate := None;
      showAvailableModal := false;
      editing := None;
      edit := BlankEditForm;
    }

    /** The mount effect: `setBookings(getBookings())`. */
    method LoadBookings()
      modifies this`bookings
      ensures bookings == store.GetBookings()
    {
      bookings := store.GetBookings();
    }

    /** `getBookingStatus(date)`: asks the store, not the component's list;
        a day is marked booked exactly when the store books it. */
    function BookingStatus(date: string): (r: Option<Status>)
      reads this, store
      ensures r.Some? ==> r.value == Booked
      ensures r == Some(Booked) <==> store.IsDateBooked(date)
    {
      DayStatusIsDateBooked(store.GetBookings(), date);
      DayStatus(store.GetBookingsForDate(date))
    }

    /** `handleDateClick(date)`. */
    method HandleDateClick(date: string)
      modifies this`selectedDate, this`showAvailableModal
      ensures viewMode == Client && !store.IsDateBooked(date) ==> selectedDate == Some(date) && showAvailableModal
      ensures viewMode == Client && store.IsDateBooked(date) ==>
        selectedDate == old(selectedDate) && showAvailableModal == old(showAvailableModal)
      ensures viewMode == Admin ==> selectedDate == Some(date) && showAvailableModal == old(showAvailableModal)
    {
      var status := BookingStatus(date);
      DayStatusIsDateBooked(store.GetBookings(), date);
      if viewMode == Client {
        if status.None? {
          selectedDate := Some(date);
          showAvailableModal := true;
        }
      } else {
        selectedDate := Some(date);
      }
    }

    /** `handleEditBooking(booking)`. */
    method HandleEditBooking(b: Booking)
      modifies this`editing, this`edit
      ensures editing == Some(b) && edit == EditFormOf(b)
    {
      editing := Some(b);
      edit := EditFormOf(b);
    }

    /** `handleSaveEdit()`: nothing without a booking being edited; otherwise
        the form goes to the store as the update, the list is reloaded and
        the form closes. */
    method HandleSaveEdit()
      modifies store`user, this`bookings, this`editing
      ensures old(editing).None? ==> store.user == old(store.user) && bookings == old(bookings) && editing == None
      ensures old(editing).Some? ==> store.user == Updated(old(store.user), old(editing).value.id, EditPatch(edit))
      ensures old(editing).Some? ==> bookings == store.GetBookings() && editing == None
    {
      if editing.None? {
        return;
      }
      store.UpdateBooking(editing.value.id, EditPatch(edit));
      bookings := store.GetBookings();
      editing := None;
    }

    /** `handleDeleteBooking(id)`: when confirmed, save the merged list
        without `id` and make exactly that list the component's list. */
    method HandleDeleteBooking(id: string, confirmed: bool)
      modifies store`user, this`bookings
      ensures confirmed ==> store.user == AfterDelete(Merged(old(store.user)), id)
      ensures confirmed ==> bookings == WithoutId(Merged(old(store.user)), id)
      ensures !confirmed ==> store.user == old(store.user) && bookings == old(bookings)
    {
      if confirmed {
        var all := store.GetBookings();
        var updated := Filter(all, (b: Booking) => b.id != id);
        store.SaveBookings(updated);
        bookings := updated;
      }
    }

    /** `renderCalendarDays()` for the shown month; the markers come from
        the store. */
    method RenderCalendarDays(year: int, month: int, daysInMonth: int, firstDay: int, today: string)
      returns (days: seq<DayCell>)
      ensures days == Blanks(firstDay) + DayCells(store.GetBookings(), MonthKey(year, month), daysInMonth, today)
    {
      days := BuildGrid(store.GetBookings(), year, month, daysInMonth, firstDay, today);
    }
  }
}
