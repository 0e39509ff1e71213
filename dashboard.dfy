/** The web admin dashboard: the loaded booking list sorted newest first, the
    status filter and counters, the per-booking actions, and the handlers
    that change the store and then reload the list. */
module Dashboard {
  import opened Types
  import opened Lists
  import opened Storage

  // ---------------------------------------------------------------------
  // Listing: filter, counters, labels, order.

  /** The value of the status filter: `'all'` or one status. */
  datatype StatusFilter = All | Only(status: Status)

  predicate Shows(f: StatusFilter, b: Booking) {
    f.All? || b.status == f.status
  }

  /** `filteredBookings`. */
  function FilterBookings(bs: seq<Booking>, f: StatusFilter): (r: seq<Booking>)
    ensures f.All? ==> r == bs
    ensures forall b :: b in r <==> b in bs && Shows(f, b)
  {
    if f.All? then bs else Filter(bs, (b: Booking) => b.status == f.status)
  }

  /** The filter keeps the list's order: filtering a concatenation is
      concatenating the filtered parts. */
  lemma FilterBookingsKeepsOrder(a: seq<Booking>, b: seq<Booking>, f: StatusFilter)
    ensures FilterBookings(a + b, f) == FilterBookings(a, f) + FilterBookings(b, f)
  {
    if f.Only? {
      FilterAppend(a, b, (x: Booking) => x.status == f.status);
    }
  }

  /** `getStatusCount(status)`. */
  function StatusCount(bs: seq<Booking>, s: Status): (n: nat)
    ensures n <= |bs|
  {
    |FilterBookings(bs, Only(s))|
  }

  /** A counter splits at the head of the list. */
  lemma StatusCountHead(bs: seq<Booking>, st: Status)
    requires bs != []
    ensures StatusCount(bs, st) == StatusCount(bs[1..], st) + (if bs[0].status == st then 1 else 0)
  {
  }

  /** Every loaded booking is counted under exactly one status: the four
      counters add up to the total the dashboard shows. */
  lemma {:induction false} StatusCountsPartition(bs: seq<Booking>)
    ensures StatusCount(bs, Pending) + StatusCount(bs, Approved)
          + StatusCount(bs, Rejected) + StatusCount(bs, Booked) == |bs|
  {
    if bs != [] {
      StatusCountsPartition(bs[1..]);
      StatusCountHead(bs, Pending);
      StatusCountHead(bs, Approved);
      StatusCountHead(bs, Rejected);
      StatusCountHead(bs, Booked);
    }
  }

  /** `getStatusText(status)`: the Portuguese label of a stored status, any
      other string unchanged. */
  function StatusText(s: string): (r: string)
    ensures StatusOf(s).None? ==> r == s
    ensures StatusOf(s).Some? ==> r != s && |r| >= 8
  {
    if s == "pending" then "Pendente"
    else if s == "approved" then "Aprovado"
    else if s == "rejected" then "Rejeitado"
    else if s == "booked" then "Reservado"
    else s
  }

  /** Distinct statuses get distinct labels. */
  lemma StatusTextInjective(a: Status, b: Status)
    ensures StatusText(StatusName(a)) == StatusText(StatusName(b)) <==> a == b
  {
    if a != b {
      assert StatusText(StatusName(a))[2] != StatusText(StatusName(b))[2];
    }
  }

  predicate NewestFirst(bs: seq<Booking>) {
    forall i, j :: 0 <= i < j < |bs| ==> bs[i].createdAt >= bs[j].createdAt
  }

  /** A newest-first list stays so under a head no older than its first
      element. */
  lemma ConsNewestFirst(h: Booking, t: seq<Booking>)
    requires NewestFirst(t)
    requires t == [] || t[0].createdAt <= h.createdAt
    ensures NewestFirst([h] + t)
  {
    forall i, j | 0 <= i < j < |[h] + t|
      ensures ([h] + t)[i].createdAt >= ([h] + t)[j].createdAt
    {
      if i == 0 && j > 1 {
        assert t[0].createdAt >= t[j - 1].createdAt;
      }
    }
  }

  /** The step of `Insert` past an older head. */
  lemma InsertBehind(x: Booking, s: seq<Booking>, rest: seq<Booking>)
    requires NewestFirst(s) && s != [] && x.createdAt < s[0].createdAt
    requires NewestFirst(rest) && rest != []
    requires multiset(rest) == multiset(s[1..]) + multiset{x}
    requires rest[0] == x || (s[1..] != [] && rest[0] == s[1..][0])
    ensures NewestFirst([s[0]] + rest)
    ensures multiset([s[0]] + rest) == multiset(s) + multiset{x}
  {
    assert s == [s[0]] + s[1..];
    assert rest[0].createdAt <= s[0].createdAt by {
      if rest[0] != x { assert rest[0] == s[1]; }
    }
    ConsNewestFirst(s[0], rest);
  }

  function Insert(x: Booking, s: seq<Booking>): (r: seq<Booking>)
    requires NewestFirst(s)
    ensures NewestFirst(r)
    ensures multiset(r) == multiset(s) + multiset{x}
    ensures |r| == |s| + 1
    ensures r[0] == x || (s != [] && r[0] == s[0])
  {
    if s == [] || x.createdAt >= s[0].createdAt then
      ConsNewestFirst(x, s);
      [x] + s
    else
      var rest := Insert(x, s[1..]);
      InsertBehind(x, s, rest);
      [s[0]] + rest
  }

  /** The loaded list's order: `sort((a, b) => b.createdAt - a.createdAt)`,
      newest first, holding exactly the bookings it was given. */
  function SortNewestFirst(bs: seq<Booking>): (r: seq<Booking>)
    ensures NewestFirst(r)
    ensures multiset(r) == multiset(bs)
  {
    if bs == [] then []
    else
      assert multiset(bs) == multiset{bs[0]} + multiset(bs[1..]) by { assert bs == [bs[0]] + bs[1..]; }
      Insert(bs[0], SortNewestFirst(bs[1..]))
  }

  lemma {:induction false} InsertCount(x: Booking, s: seq<Booking>, st: Status)
    requires NewestFirst(s)
    ensures StatusCount(Insert(x, s), st) == StatusCount(s, st) + (if x.status == st then 1 else 0)
    decreases |s|
  {
    var r := Insert(x, s);
    StatusCountHead(r, st);
    if s == [] || x.createdAt >= s[0].createdAt {
      assert r[0] == x && r[1..] == s;
    } else {
      InsertCount(x, s[1..], st);
      assert r[0] == s[0] && r[1..] == Insert(x, s[1..]);
      StatusCountHead(s, st);
    }
  }

  /** Sorting keeps every counter. */
  lemma {:induction false} SortKeepsCounts(bs: seq<Booking>, st: Status)
    ensures StatusCount(SortNewestFirst(bs), st) == StatusCount(bs, st)
  {
    if bs != [] {
      var x := bs[0];
      var t := bs[1..];
      var rest := SortNewestFirst(t);
      var d := if x.status == st then 1 else 0;
      assert SortNewestFirst(bs) == Insert(x, rest);
      SortKeepsCounts(t, st);
      InsertCount(x, rest, st);
      StatusCountHead(bs, st);
    }
  }

  // ---------------------------------------------------------------------
  // The actions a booking offers, and the status each leaves behind.

  /** The buttons of a booking's row and details panel. */
  datatype Action = Details | Edit | Delete | Approve | Reject

  /** Every booking offers details and delete; only a booked one offers edit;
      only a pending one offers approve and reject. */
  function OfferedActions(b: Booking): (r: set<Action>)
    ensures Details in r && Delete in r
    ensures Edit in r <==> b.status == Booked
    ensures (Approve in r <==> b.status == Pending) && (Reject in r <==> b.status == Pending)
  {
    {Details, Delete}
    + (if b.status == Booked then {Edit} else {})
    + (if b.status == Pending then {Approve, Reject} else {})
  }

  /** The status each action leaves on the booking it is applied to: only
      approve and reject change it, to booked and rejected, and no action
      produces approved. */
  function StatusAfter(b: Booking, a: Action): (s: Status)
    ensures s != b.status ==> (a == Approve && s == Booked) || (a == Reject && s == Rejected)
    ensures s == Approved ==> b.status == Approved
  {
    match a
    case Approve => Booked
    case Reject => Rejected
    case _ => b.status
  }

  /** The workflow: an offered action changes a status only from pending,
      and only to booked or rejected. No offered action ever produces
      approved. */
  lemma OfferedTransitions(b: Booking, a: Action)
    requires a in OfferedActions(b)
    ensures StatusAfter(b, a) != b.status ==> b.status == Pending
    ensures StatusAfter(b, a) == b.status || StatusAfter(b, a) == Booked || StatusAfter(b, a) == Rejected
    ensures StatusAfter(b, a) == Approved ==> b.status == Approved
  {
  }

  /** The pre-existing bookings are booked, so they never offer approve or
      reject, but they do offer edit. */
  lemma SeedActions(i: nat)
    requires i < |Seeds|
    ensures Approve !in OfferedActions(Seeds[i]) && Reject !in OfferedActions(Seeds[i])
    ensures Edit in OfferedActions(Seeds[i])
  {
    SeedFacts();
  }

  /** Editing a pre-existing booking is offered, but what it saves never
      shows: the merged view keeps the seed. */
  lemma EditOfSeedIsInvisible(user: seq<Booking>, id: string, f: EditForm)
    requires IsSeedId(id)
    ensures Merged(Updated(user, id, EditPatch(f))) == Merged(user)
  {
    UpdateOfSeedIsInvisible(user, id, EditPatch(f));
  }

  /** Approving a stored pending booking makes `getBookings` show it booked,
      with every other field as it was. */
  lemma ApproveIsVisible(user: seq<Booking>, id: string)
    requires !IsSeedId(id) && id in IdsOf(user)
    ensures Find(Merged(Updated(user, id, StatusPatch(Booked))), id)
         == Some(Find(user, id).value.(status := Booked))
  {
    UpdateOfUserRecordIsVisible(user, id, StatusPatch(Booked), id);
    ApplyStatusPatch(Find(user, id).value, Booked);
  }

  // ---------------------------------------------------------------------
  // Manual bookings.

  /** The manual booking form. */
  datatype ManualForm = ManualForm(
    clientName: string,
    clientEmail: string,
    clientPhone: string,
    eventDate: string,
    eventType: string,
    venue: string,
    duration: int,
    budget: string,
    message: string)

  const BlankManualForm := ManualForm("", "", "", "", "", "", 60, "", "")

  /** The form can be submitted when name, date and type are all non-empty. */
  predicate ManualFormComplete(f: ManualForm) {
    f.clientName != "" && f.eventDate != "" && f.eventType != ""
  }

  /** The record `addManualBooking` builds: already booked, proposal sent,
      no guests and no proposal amount. */
  function ManualBooking(f: ManualForm, id: string, now: int): (b: Booking)
    ensures b.status == Booked && b.proposalSent && b.guests == 0 && b.proposalAmount.None?
    ensures b.id == id && b.createdAt == now && b.eventDate == f.eventDate
  {
    Booking(id, f.clientName, f.clientEmail, f.clientPhone, f.eventDate, f.eventType,
            f.venue, f.duration, 0, f.budget, f.message, Booked, true, None, now)
  }

  lemma DedupAppendFresh(user: seq<Booking>, x: Booking)
    requires x.id !in SeedIds && x.id !in IdsOf(user)
    ensures DedupFrom(user + [x], SeedIds) == DedupFrom(user, SeedIds) + [x]
  {
    DedupAppend(user, [x], SeedIds);
    var seen := SeedIds + IdsOf(user);
    assert DedupFrom([x], seen) == [x] by {
      assert [x][0] == x && [x][1..] == [];
      assert DedupFrom([x], seen) == [x] + DedupFrom([], seen + {x.id});
    }
  }

  /** A manual booking with a fresh id shows up in the merged view, and its
      date becomes booked. */
  lemma ManualBookingBooksDate(user: seq<Booking>, f: ManualForm, id: string, now: int)
    requires id !in SeedIds && id !in IdsOf(user)
    ensures ManualBooking(f, id, now) in Merged(user + [ManualBooking(f, id, now)])
    ensures HasBookedOn(Merged(user + [ManualBooking(f, id, now)]), f.eventDate)
  {
    var x := ManualBooking(f, id, now);
    MergedShape(user + [x]);
    DedupAppendFresh(user, x);
    var m := Merged(user + [x]);
    assert m[|m| - 1] == x;
  }

  // ---------------------------------------------------------------------
  // The dashboard component.

  class AdminDashboard {
    const store: WebStore
    var bookings: seq<Booking>
    var selected: Option<Booking>
    var showManualForm: bool
    var showEditForm: bool
    var filter: StatusFilter
    var manual: ManualForm
    var edit: EditForm

    /** The initial state; the mount effect then calls `LoadBookings`. */
    constructor (store: WebStore)
      ensures this.store == store
      ensures bookings == [] && selected == None && !showManualForm && !showEditForm && filter == All
      ensures manual == BlankManualForm && edit == BlankEditForm
    {
      this.store := store;
      bookings := [];
      selected := None;
      showManualForm := false;
      showEditForm := false;
      filter := All;
      manual := BlankManualForm;
      edit := BlankEditForm;
    }

    /** The list shown under the current filter. */
    function Filtered(): seq<Booking>
      reads this
    {
      FilterBookings(bookings, filter)
    }

    /** `loadBookings()`. */
    method LoadBookings()
      modifies this`bookings
      ensures bookings == SortNewestFirst(store.GetBookings())
    {
      bookings := SortNewestFirst(store.GetBookings());
    }

    /** `updateBookingStatus(id, status)`: `{ status }` through the store,
        then reload. */
    method UpdateBookingStatus(id: string, status: Status)
      modifies store`user, this`bookings
      ensures store.user == Updated(old(store.user), id, StatusPatch(status))
      ensures bookings == SortNewestFirst(store.GetBookings())
    {
      store.UpdateBooking(id, StatusPatch(status));
      LoadBookings();
    }

    /** `handleApproveBooking`: no confirmation; the booking goes straight to
        booked. */
    method ApproveBooking(b: Booking)
      modifies store`user, this`bookings
      ensures store.user == Updated(old(store.user), b.id, StatusPatch(StatusAfter(b, Approve)))
      ensures bookings == SortNewestFirst(store.GetBookings())
    {
      UpdateBookingStatus(b.id, Booked);
    }

    /** `handleRejectBooking`: only when the dialog is confirmed. */
    method RejectBooking(b: Booking, confirmed: bool)
      modifies store`user, this`bookings
      ensures confirmed ==> store.user == Updated(old(store.user), b.id, StatusPatch(StatusAfter(b, Reject)))
      ensures confirmed ==> bookings == SortNewestFirst(store.GetBookings())
      ensures !confirmed ==> store.user == old(store.user) && bookings == old(bookings)
    {
      if confirmed {
        UpdateBookingStatus(b.id, Rejected);
      }
    }

    /** `deleteBooking(id, clientName)`: when confirmed, save the merged list
        without `id`, reload, and close the details when they showed `id`. */
    method DeleteBooking(id: string, confirmed: bool)
      modifies store`user, this`bookings, this`selected
      ensures confirmed ==> store.user == AfterDelete(Merged(old(store.user)), id)
      ensures confirmed ==> bookings == SortNewestFirst(store.GetBookings())
      ensures confirmed ==> selected == if old(selected).Some? && old(selected).value.id == id then None else old(selected)
      ensures !confirmed ==> store.user == old(store.user) && bookings == old(bookings) && selected == old(selected)
    {
      if confirmed {
        var all := store.GetBookings();
        var updated := Filter(all, (b: Booking) => b.id != id);
        store.SaveBookings(updated);
        assert store.user == AfterDelete(Merged(old(store.user)), id);
        LoadBookings();
        if selected.Some? && selected.value.id == id {
          selected := None;
        }
      }
    }

    /** `addManualBooking()`: returns at once unless name, date and type are
        filled; otherwise appends the booked record, closes and resets the
        form, and reloads. */
    method AddManualBooking(id: string, now: int) returns (added: bool)
      modifies store`user, this`bookings, this`showManualForm, this`manual
      ensures added <==> ManualFormComplete(old(manual))
      ensures added ==> store.user == old(store.user) + [ManualBooking(old(manual), id, now)]
      ensures added ==> !showManualForm && manual == BlankManualForm
      ensures added ==> bookings == SortNewestFirst(store.GetBookings())
      ensures !added ==> store.user == old(store.user) && bookings == old(bookings)
      ensures !added ==> showManualForm == old(showManualForm) && manual == old(manual)
    {
      if !ManualFormComplete(manual) {
        return false;
      }
      var booking := ManualBooking(manual, id, now);
      store.AddBooking(booking);
      showManualForm := false;
      manual := BlankManualForm;
      LoadBookings();
      added := true;
    }

    /** `handleEditBooking(booking)`: select it and fill the edit form. */
    method HandleEditBooking(b: Booking)
      modifies this`selected, this`edit, this`showEditForm
      ensures selected == Some(b) && edit == EditFormOf(b) && showEditForm
    {
      selected := Some(b);
      edit := EditFormOf(b);
      showEditForm := true;
    }

    /** The rest of `saveEditedBooking()` once a booking is selected: the
        update goes to the store, the form and selection close, the list
        reloads. */
    method CommitEdit(id: string, patch: Patch)
      modifies store`user, this`bookings, this`showEditForm, this`selected
      ensures store.user == Updated(old(store.user), id, patch)
      ensures !showEditForm && selected == None && bookings == SortNewestFirst(store.GetBookings())
    {
      store.UpdateBooking(id, patch);
      showEditForm := false;
      selected := None;
      LoadBookings();
    }

    /** `saveEditedBooking()`: nothing without a selection; otherwise the form
        goes to the store as the update, and the form and selection close. */
    method SaveEditedBooking()
      modifies store`user, this`bookings, this`showEditForm, this`selected
      ensures old(selected).None? ==>
        store.user == old(store.user) && bookings == old(bookings) && showEditForm == old(showEditForm) && selected == None
      ensures old(selected).Some? ==> store.user == Updated(old(store.user), old(selected).value.id, EditPatch(edit))
      ensures old(selected).Some? ==>
        !showEditForm && selected == None && bookings == SortNewestFirst(store.GetBookings())
    {
      if selected.Some? {
        CommitEdit(selected.value.id, EditPatch(edit));
      }
    }
  }
}
