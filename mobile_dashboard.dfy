/** The mobile admin app's dashboard screen: the same listing as the web
    dashboard (sorted newest first, filtered, counted, labelled), with
    accept, reject and delete each behind a confirmation alert and each
    followed by a reload. */
module MobileDashboard {
  import opened Types
  import opened Storage
  import opened MobileStorage
  import opened Dashboard

  /** The filter buttons the screen offers, in order. */
  const MobileFilters: seq<StatusFilter> := [All, Only(Pending), Only(Booked), Only(Rejected)]

  /** There is no filter for approved bookings (the status no action
      produces), and every other status has one. */
  lemma MobileFiltersCover(st: Status)
    ensures All in MobileFilters
    ensures Only(st) in MobileFilters <==> st != Approved
  {
    if st != Approved {
      assert st == Pending || st == Booked || st == Rejected;
      assert MobileFilters[1] == Only(Pending) && MobileFilters[2] == Only(Booked) && MobileFilters[3] == Only(Rejected);
    }
  }

  /** The buttons of a booking's detail modal: delete always, accept and
      reject only while pending. */
  function ModalActions(b: Booking): (r: set<Action>)
    ensures Delete in r && Edit !in r && Details !in r
    ensures (Approve in r <==> b.status == Pending) && (Reject in r <==> b.status == Pending)
  {
    {Delete} + (if b.status == Pending then {Approve, Reject} else {})
  }

  /** The modal offers a subset of what the web dashboard offers, so the
      workflow lemma about the web actions covers it too. */
  lemma ModalActionsAreOffered(b: Booking)
    ensures ModalActions(b) <= OfferedActions(b)
  {
  }

  class DashboardScreen {
    const store: MobileStore
    var bookings: seq<Booking>
    var selected: Option<Booking>
    var showModal: bool
    var filter: StatusFilter

    /** The initial state; the mount effect then calls `LoadBookings`. */
    constructor (store: MobileStore)
      ensures this.store == store
      ensures bookings == [] && selected == None && !showModal && filter == All
    {
      this.store := store;
      bookings := [];
      selected := None;
      showModal := false;
      filter := All;
    }

    /** `loadBookings()`: its `catch` is unreachable, because `getBookings`
        never fails. */
    method LoadBookings(readOk: bool)
      modifies this`bookings
      ensures bookings == SortNewestFirst(store.GetBookings(readOk))
    {
      bookings := SortNewestFirst(store.GetBookings(readOk));
    }

    /** Tapping a booking card opens its modal. */
    method OpenBooking(b: Booking)
      modifies this`selected, this`showModal
      ensures selected == Some(b) && showModal
    {
      selected := Some(b);
      showModal := true;
    }

    /** A filter button. */
    method SetFilter(f: StatusFilter)
      requires f in MobileFilters
      modifies this`filter
      ensures filter == f && filter != Only(Approved)
    {
      filter := f;
    }

    /** `updateBookingStatus(id, status)`: the store's update, then a
        reload. */
    method UpdateBookingStatus(id: string, status: Status, readOk: bool, writeOk: bool)
      modifies store`user, this`bookings
      ensures store.user == if readOk && writeOk then Updated(old(store.user), id, StatusPatch(status)) else old(store.user)
      ensures bookings == SortNewestFirst(store.GetBookings(readOk))
    {
      store.UpdateBooking(id, StatusPatch(status), readOk, writeOk);
      LoadBookings(readOk);
    }

    /** `handleApproveBooking`: the alert's accept button sets booked. */
    method ApproveBooking(b: Booking, confirmed: bool, readOk: bool, writeOk: bool)
      modifies store`user, this`bookings
      ensures confirmed && readOk && writeOk ==>
        store.user == Updated(old(store.user), b.id, StatusPatch(StatusAfter(b, Approve)))
      ensures confirmed ==> bookings == SortNewestFirst(store.GetBookings(readOk))
      ensures !(confirmed && readOk && writeOk) ==> store.user == old(store.user)
      ensures !confirmed ==> bookings == old(bookings)
    {
      assert StatusAfter(b, Approve) == Booked;
      if confirmed {
        UpdateBookingStatus(b.id, Booked, readOk, writeOk);
      }
    }

    /** `handleRejectBooking`: the alert's reject button sets rejected. */
    method RejectBooking(b: Booking, confirmed: bool, readOk: bool, writeOk: bool)
      modifies store`user, this`bookings
      ensures confirmed && readOk && writeOk ==>
        store.user == Updated(old(store.user), b.id, StatusPatch(StatusAfter(b, Reject)))
      ensures confirmed ==> bookings == SortNewestFirst(store.GetBookings(readOk))
      ensures !(confirmed && readOk && writeOk) ==> store.user == old(store.user)
      ensures !confirmed ==> bookings == old(bookings)
    {
      assert StatusAfter(b, Reject) == Rejected;
      if confirmed {
        UpdateBookingStatus(b.id, Rejected, readOk, writeOk);
      }
    }

    /** `handleDeleteBooking`: the alert's delete button runs the store's
        `deleteBooking`, then reloads. */
    method DeleteBooking(b: Booking, confirmed: bool, readOk: bool, writeOk: bool)
      modifies store`user, this`bookings
      ensures confirmed && writeOk ==> store.user == DeleteWrites(old(store.user), b.id, readOk)
      ensures confirmed ==> bookings == SortNewestFirst(store.GetBookings(readOk))
      ensures !(confirmed && writeOk) ==> store.user == old(store.user)
      ensures !confirmed ==> bookings == old(bookings)
    {
      if confirmed {
        store.DeleteBooking(b.id, readOk, writeOk);
        LoadBookings(readOk);
      }
    }

    /** The modal's accept button, shown while the selected booking is
        pending: the accept alert, then the modal closes. */
    method ModalApprove(confirmed: bool, readOk: bool, writeOk: bool)
      requires selected.Some? && selected.value.status == Pending
      modifies store`user, this`bookings, this`showModal
      ensures !showModal
      ensures confirmed && readOk && writeOk ==>
        store.user == Updated(old(store.user), selected.value.id, StatusPatch(Booked))
      ensures !(confirmed && readOk && writeOk) ==> store.user == old(store.user)
      ensures confirmed ==> bookings == SortNewestFirst(store.GetBookings(readOk))
      ensures !confirmed ==> bookings == old(bookings)
    {
      var b := selected.value;
      assert StatusAfter(b, Approve) == Booked;
      ApproveBooking(b, confirmed, readOk, writeOk);
      showModal := false;
    }

    /** The modal's reject button, shown while the selected booking is
        pending: the reject alert, then the modal closes. */
    method ModalReject(confirmed: bool, readOk: bool, writeOk: bool)
      requires selected.Some? && selected.value.status == Pending
      modifies store`user, this`bookings, this`showModal
      ensures !showModal
      ensures confirmed && readOk && writeOk ==>
        store.user == Updated(old(store.user), selected.value.id, StatusPatch(Rejected))
      ensures !(confirmed && readOk && writeOk) ==> store.user == old(store.user)
      ensures confirmed ==> bookings == SortNewestFirst(store.GetBookings(readOk))
      ensures !confirmed ==> bookings == old(bookings)
    {
      var b := selected.value;
      assert StatusAfter(b, Reject) == Rejected;
      RejectBooking(b, confirmed, readOk, writeOk);
      showModal := false;
    }

    /** The modal's delete button, shown for every booking: the modal
        closes, then the delete alert. */
    method ModalDelete(confirmed: bool, readOk: bool, writeOk: bool)
      requires selected.Some?
      modifies store`user, this`bookings, this`showModal
      ensures !showModal
      ensures confirmed && writeOk ==> store.user == DeleteWrites(old(store.user), selected.value.id, readOk)
      ensures !(confirmed && writeOk) ==> store.user == old(store.user)
      ensures confirmed ==> bookings == SortNewestFirst(store.GetBookings(readOk))
      ensures !confirmed ==> bookings == old(bookings)
    {
      showModal := false;
      DeleteBooking(selected.value, confirmed, readOk, writeOk);
      assert selected == old(selected);
    }
  }
}
