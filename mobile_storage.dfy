/** The mobile admin app's booking store: the same key layout, seed list and
    merge as the web store, over the device's asynchronous storage, with
    every operation catching its own failure. Whether the device storage
    answers a read (`readOk`) and accepts a write (`writeOk`) is a parameter
    of each operation; a stored value that cannot be parsed counts as a
    failed read. */
module MobileStorage {
  import opened Types
  import opened Lists
  import opened Storage

  /** What `getBookings()` resolves to: the merged list, or the seed list
      alone when reading or parsing fails. */
  function Loaded(user: seq<Booking>, readOk: bool): (r: seq<Booking>)
    ensures !readOk ==> r == Seeds
  {
    if readOk then Merged(user) else Seeds
  }

  /** Whatever storage does, the loaded list starts with the four seeds and
      repeats no id. */
  lemma LoadedShape(user: seq<Booking>, readOk: bool)
    ensures |Loaded(user, readOk)| >= |Seeds|
    ensures Loaded(user, readOk)[..|Seeds|] == Seeds
    ensures NoDupIds(Loaded(user, readOk))
  {
    MergedProperties(user);
    SeedFacts();
  }

  /** The loaded list holds the seeds and at most one record per stored one. */
  lemma LoadedSize(user: seq<Booking>, readOk: bool)
    ensures |Seeds| <= |Loaded(user, readOk)| <= |Seeds| + |user|
  {
    MergedShape(user);
  }

  /** `isDateBooked(date)`: its own `false` fallback is unreachable, since
      the read it makes never fails. */
  predicate DateBooked(user: seq<Booking>, date: string, readOk: bool) {
    HasBookedOn(Loaded(user, readOk), date)
  }

  /** A seed date is reported booked even when storage cannot be read; with
      storage unreadable, exactly the seed dates are. */
  lemma DateBookedWhenUnreadable(user: seq<Booking>, date: string, readOk: bool)
    ensures date in SeedDates ==> DateBooked(user, date, readOk)
    ensures !readOk ==> (DateBooked(user, date, readOk) <==> date in SeedDates)
  {
    if readOk {
      if date in SeedDates {
        SeedDatesAlwaysBooked(user, date);
      }
    } else {
      SeedsBookExactlySeedDates(date);
    }
  }

  /** The seeds alone have a booked record on exactly the seed dates. */
  lemma SeedsBookExactlySeedDates(date: string)
    ensures HasBookedOn(Seeds, date) <==> date in SeedDates
  {
    if date in SeedDates {
      SeedDatesAlwaysBooked([], date);
      MergedOfNothing();
    } else {
      SeedsBookOnlySeedDates(date);
    }
  }

  /** No seed is booked on a date outside the four seed dates. */
  lemma SeedsBookOnlySeedDates(date: string)
    requires date !in SeedDates
    ensures !HasBookedOn(Seeds, date)
  {
    forall b | b in Seeds ensures b.eventDate != date {
      var i :| 0 <= i < |Seeds| && Seeds[i] == b;
      assert i == 0 || i == 1 || i == 2 || i == 3;
    }
  }

  /** What a delete writes when the write succeeds: the loaded list minus
      `id`, through `saveBookings`' filter. It never holds the deleted id,
      and every record it holds was already stored. */
  function DeleteWrites(user: seq<Booking>, id: string, readOk: bool): (r: seq<Booking>)
    ensures id !in IdsOf(r)
    ensures forall b :: b in r ==> b in user
  {
    assert forall b :: b in AfterDelete(Loaded(user, readOk), id) ==> b in user by {
      if readOk {
        DeleteCompacts(user, id);
      } else {
        DeleteOfSeedRecords(Seeds, id);
      }
    }
    AfterDelete(Loaded(user, readOk), id)
  }

  /** A delete whose read fails still writes, and what it writes is the empty
      list: every user-created booking is lost. */
  lemma DeleteAfterFailedReadWipes(user: seq<Booking>, id: string)
    ensures DeleteWrites(user, id, false) == []
  {
    DeleteOfSeedRecords(Seeds, id);
  }

  class MobileStore {
    /** The parsed `band_bookings` value: user-created records only. */
    var user: seq<Booking>
    /** The parsed `band_proposals` value. */
    var proposals: seq<Proposal>

    constructor ()
      ensures user == [] && proposals == []
    {
      user := [];
      proposals := [];
    }

    /** `getBookings()`: the four seeds, and at most one more record per
        stored one. The seeds are an immutable value here, so the source's
        aliasing of its seed array with the list the dashboard sorts in place
        is not captured. */
    function GetBookings(readOk: bool): (r: seq<Booking>)
      reads this
      ensures |Seeds| <= |r| <= |Seeds| + |user|
      ensures r[..|Seeds|] == Seeds
    {
      LoadedSize(user, readOk);
      Loaded(user, readOk)
    }

    /** `saveBookings(bookings)`: a failed write is logged and swallowed. */
    method SaveBookings(bookings: seq<Booking>, writeOk: bool)
      modifies this`user
      ensures user == if writeOk then WithoutSeedIds(bookings) else old(user)
    {
      if writeOk {
        user := Filter(bookings, (b: Booking) => !IsSeedId(b.id));
      }
    }

    /** `addBooking(booking)`: read, append, write; either failure leaves the
        stored list as it was. */
    method AddBooking(booking: Booking, readOk: bool, writeOk: bool)
      modifies this`user
      ensures user == if readOk && writeOk then old(user) + [booking] else old(user)
    {
      if readOk && writeOk {
        user := user + [booking];
      }
    }

    /** `updateBooking(id, updates)`: the web store's update, or nothing when
        the read or the write fails. */
    method UpdateBooking(id: string, updates: Patch, readOk: bool, writeOk: bool)
      modifies this`user
      ensures user == if readOk && writeOk then Updated(old(user), id, updates) else old(user)
    {
      if !readOk {
        return;
      }
      var next := user;
      if IsSeedId(id) {
        var original := SeedFor(id);
        var index := FindIndex(next, id);
        if index != -1 {
          next := next[index := Apply(next[index], updates)];
        } else {
          next := next + [Apply(original, updates)];
        }
        if writeOk {
          user := next;
        }
      } else {
        var index := FindIndex(next, id);
        if index != -1 {
          next := next[index := Apply(next[index], updates)];
          if writeOk {
            user := next;
          }
        }
      }
    }

    /** `deleteBooking(id)`: load with `getBookings`, filter out `id`, save
        with `saveBookings`. */
    method DeleteBooking(id: string, readOk: bool, writeOk: bool)
      modifies this`user
      ensures user == if writeOk then DeleteWrites(old(user), id, readOk) else old(user)
    {
      var all := GetBookings(readOk);
      var updated := Filter(all, (b: Booking) => b.id != id);
      SaveBookings(updated, writeOk);
    }

    /** `addProposal(proposal)`: `getProposals` answers `[]` when its read
        fails, so a failed read followed by a successful write replaces
        every stored proposal with the new one. */
    method AddProposal(proposal: Proposal, readOk: bool, writeOk: bool)
      modifies this`proposals
      ensures proposals == if !writeOk then old(proposals)
                           else if readOk then old(proposals) + [proposal]
                           else [proposal]
    {
      var current := if readOk then proposals else [];
      if writeOk {
        proposals := current + [proposal];
      }
    }

    /** `isDateBooked(date)`: the seed dates are booked, and with storage
        unreadable they are the only ones. */
    predicate IsDateBooked(date: string, readOk: bool)
      reads this
      ensures date in SeedDates ==> IsDateBooked(date, readOk)
      ensures !readOk ==> (IsDateBooked(date, readOk) <==> date in SeedDates)
    {
      DateBookedWhenUnreadable(user, date, readOk);
      DateBooked(user, date, readOk)
    }

    /** `getBookingsForDate(date)`: its own `[]` fallback is unreachable. The
        loaded bookings on that date, with a booked one among them exactly
        when the date is booked. */
    function GetBookingsForDate(date: string, readOk: bool): (r: seq<Booking>)
      reads this
      ensures forall b :: b in r <==> b in GetBookings(readOk) && b.eventDate == date
      ensures IsDateBooked(date, readOk) <==> exists b | b in r :: b.status == Booked
    {
      OnDate(Loaded(user, readOk), date)
    }
  }
}
