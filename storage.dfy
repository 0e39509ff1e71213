/** The web site's booking store (`storageUtils` over the browser's local
    storage). The stored key `band_bookings` holds only user-created records;
    the four pre-existing bookings are a constant that every read merges in
    front of them, keeping the first record seen for each id. */
module Storage {
  import opened Types
  import opened Lists

  /** `PRE_EXISTING_BOOKINGS`: four confirmed engagements. */
  const Seeds: seq<Booking> := [
    Booking("pre-1", "Festa aniversário d'Os Lagoias", "contato@oslagoias.pt", "912 345 678",
            "2025-07-12", "Festa de Aniversário", "Portalegre", 90, 100, "2500",
            "Festa de aniversário especial", Booked, true, Some(2500), 1704067200000),
    Booking("pre-2", "Festas em Honra de Nª Srª da Alegria", "festas@alegrete.pt", "913 456 789",
            "2025-08-14", "Festival", "Alegrete", 60, 500, "3000",
            "Festas tradicionais de Alegrete", Booked, true, Some(3000), 1704153600000),
    Booking("pre-3", "Evento Casa Branca", "eventos@casabranca.pt", "914 567 890",
            "2025-08-15", "Celebração Familiar", "Casa Branca (Sousel)", 60, 80, "2000",
            "Celebração especial em Casa Branca", Booked, true, Some(2000), 1704240000000),
    Booking("pre-4", "Carolina Pinheiro", "carolina.pinheiro@email.com", "915 678 901",
            "2025-08-16", "Casamento", "Ervedal Avis", 90, 120, "3500",
            "Casamento da Carolina - evento muito especial", Booked, true, Some(3500), 1704326400000)
  ]

  /** The ids of the pre-existing bookings. */
  const SeedIds: set<string> := IdsOf(Seeds)

  /** The dates the pre-existing bookings occupy. */
  const SeedDates: set<string> := {"2025-07-12", "2025-08-14", "2025-08-15", "2025-08-16"}

  lemma SeedIdsAre()
    ensures SeedIds == {"pre-1", "pre-2", "pre-3", "pre-4"}
  {
    assert SeedIds == {Seeds[0].id, Seeds[1].id, Seeds[2].id, Seeds[3].id};
  }

  lemma SeedsDistinct()
    ensures NoDupIds(Seeds)
  {
    assert Seeds[0].id[4] == '1' && Seeds[1].id[4] == '2' && Seeds[2].id[4] == '3' && Seeds[3].id[4] == '4';
  }

  lemma SeedFacts()
    ensures |Seeds| == 4
    ensures NoDupIds(Seeds)
    ensures forall i :: 0 <= i < |Seeds| ==> Seeds[i].status == Booked
  {
    SeedsDistinct();
  }

  lemma SeedDatesAre(date: string)
    requires date in SeedDates
    ensures exists i :: 0 <= i < |Seeds| && Seeds[i].eventDate == date
  {
    if date == "2025-07-12" { assert Seeds[0].eventDate == date; }
    else if date == "2025-08-14" { assert Seeds[1].eventDate == date; }
    else if date == "2025-08-15" { assert Seeds[2].eventDate == date; }
    else { assert Seeds[3].eventDate == date; }
  }

  /** `PRE_EXISTING_BOOKINGS.some(b => b.id === id)`. */
  predicate IsSeedId(id: string) {
    exists i :: 0 <= i < |Seeds| && Seeds[i].id == id
  }

  lemma IsSeedIdIff(id: string)
    ensures IsSeedId(id) <==> id in SeedIds
  {
  }

  /** `s.findIndex(b => b.id === id)`: the index of the first record with
      that id, or -1 when there is none. */
  function FindIndex(s: seq<Booking>, id: string): (r: int)
    ensures -1 <= r < |s|
    ensures r == -1 <==> id !in IdsOf(s)
    ensures r >= 0 ==> s[r].id == id && forall j :: 0 <= j < r ==> s[j].id != id
  {
    if s == [] then -1
    else if s[0].id == id then 0
    else
      var k := FindIndex(s[1..], id);
      assert id in IdsOf(s[1..]) <==> id in IdsOf(s) by {
        assert s == [s[0]] + s[1..];
      }
      if k == -1 then -1 else k + 1
  }

  /** `s.find(b => b.id === id)`: the first record with that id. */
  function Find(s: seq<Booking>, id: string): (r: Option<Booking>)
    ensures r.Some? <==> id in IdsOf(s)
    ensures r.Some? ==> r.value in s && r.value.id == id
  {
    var i := FindIndex(s, id);
    if i == -1 then None else Some(s[i])
  }

  /** The pre-existing record with a seed id. */
  function SeedFor(id: string): (r: Booking)
    requires IsSeedId(id)
    ensures r in Seeds && r.id == id
  {
    Find(Seeds, id).value
  }

  /** The first-occurrence filter of `getBookings` exactly as written:
      keep `s[i]` (for `i` from `from` on) iff `i` is the first index of
      its id in the whole list. */
  function KeepFirstFrom(s: seq<Booking>, from: nat): seq<Booking>
    requires from <= |s|
    decreases |s| - from
  {
    if from == |s| then []
    else (if FindIndex(s, s[from].id) == from then [s[from]] else []) + KeepFirstFrom(s, from + 1)
  }

  /** `s.filter((b, index, self) => index === self.findIndex(x => x.id === b.id))`. */
  function UniqueById(s: seq<Booking>): (r: seq<Booking>)
    ensures |r| <= |s|
    ensures s != [] ==> r != [] && r[0] == s[0]
  {
    KeepFirstIsDedup(s, 0);
    assert s[..0] == [] && s[0..] == s;
    assert IdsOf(s[..0]) == {};
    KeepFirstFrom(s, 0)
  }

  /** A reference definition of first-occurrence deduplication: walk the list
      once, skipping every record whose id is in `seen` or was already kept. */
  function DedupFrom(s: seq<Booking>, seen: set<string>): (r: seq<Booking>)
    ensures NoDupIds(r)
    ensures IdsOf(r) == IdsOf(s) - seen
    ensures forall b :: b in r ==> b in s
    ensures |r| <= |s|
    decreases |s|
  {
    if s == [] then []
    else if s[0].id in seen then
      IdsOfHead(s);
      DedupFrom(s[1..], seen)
    else
      var rest := DedupFrom(s[1..], seen + {s[0].id});
      IdsOfHead(s);
      IdsOfCons(s[0], rest);
      NoDupCons(s[0], rest);
      [s[0]] + rest
  }

  /** One step of the walk: the head is kept unless its id was seen, and
      either way it is seen from then on. */
  lemma DedupFromStep(s: seq<Booking>, seen: set<string>)
    requires s != []
    ensures DedupFrom(s, seen) == (if s[0].id in seen then [] else [s[0]]) + DedupFrom(s[1..], seen + {s[0].id})
  {
    if s[0].id in seen {
      assert seen + {s[0].id} == seen;
      assert [] + DedupFrom(s[1..], seen) == DedupFrom(s[1..], seen);
    }
  }

  /** The merged list `getBookings` returns for a stored user list. */
  function Merged(user: seq<Booking>): (r: seq<Booking>)
    ensures |r| >= |Seeds| && r[..|Seeds|] == Seeds
  {
    SeedFacts();
    PrefixThenDedup(Seeds, user);
    UniqueById(Seeds + user)
  }

  // ---------------------------------------------------------------------
  // The literal filter is first-occurrence deduplication.

  lemma FirstIndexIff(s: seq<Booking>, i: nat)
    requires i < |s|
    ensures FindIndex(s, s[i].id) == i <==> s[i].id !in IdsOf(s[..i])
  {
    var r := FindIndex(s, s[i].id);
    if s[i].id in IdsOf(s[..i]) {
      var b :| b in s[..i] && b.id == s[i].id;
      var j :| 0 <= j < i && s[..i][j] == b;
      assert s[j].id == s[i].id;
    } else {
      assert r >= 0;
    }
  }

  lemma IdsOfConcat(a: seq<Booking>, b: seq<Booking>)
    ensures IdsOf(a + b) == IdsOf(a) + IdsOf(b)
  {
    assert forall x :: x in a + b <==> x in a || x in b;
  }

  /** One step of the literal filter: `s[from]` is kept iff its id does
      not occur before it. */
  lemma KeepFirstStep(s: seq<Booking>, from: nat)
    requires from < |s|
    ensures KeepFirstFrom(s, from)
         == (if s[from].id in IdsOf(s[..from]) then [] else [s[from]]) + KeepFirstFrom(s, from + 1)
  {
    FirstIndexIff(s, from);
  }

  lemma IdsOfPrefixStep(s: seq<Booking>, from: nat)
    requires from < |s|
    ensures IdsOf(s[..from + 1]) == IdsOf(s[..from]) + {s[from].id}
  {
    assert s[..from + 1] == s[..from] + [s[from]];
    IdsOfConcat(s[..from], [s[from]]);
    IdsOfCons(s[from], []);
    assert [s[from]] + [] == [s[from]];
  }

  lemma {:induction false} KeepFirstIsDedup(s: seq<Booking>, from: nat)
    requires from <= |s|
    ensures KeepFirstFrom(s, from) == DedupFrom(s[from..], IdsOf(s[..from]))
    decreases |s| - from
  {
    if from < |s| {
      var t := s[from..];
      KeepFirstIsDedup(s, from + 1);
      KeepFirstStep(s, from);
      IdsOfPrefixStep(s, from);
      DedupFromStep(t, IdsOf(s[..from]));
      assert t[0] == s[from] && t[1..] == s[from + 1..];
    }
  }

  /** `UniqueById` (the filter as written) agrees with the reference
      deduplication. */
  lemma UniqueByIdIsDedup(s: seq<Booking>)
    ensures UniqueById(s) == DedupFrom(s, {})
  {
    KeepFirstIsDedup(s, 0);
    assert s[..0] == [];
    assert IdsOf(s[..0]) == {};
    assert s[0..] == s;
  }

  lemma {:induction false} DedupAppend(a: seq<Booking>, b: seq<Booking>, seen: set<string>)
    ensures DedupFrom(a + b, seen) == DedupFrom(a, seen) + DedupFrom(b, seen + IdsOf(a))
    decreases |a|
  {
    if a == [] {
      assert a + b == b;
      assert IdsOf(a) == {};
      assert seen + IdsOf(a) == seen;
    } else {
      assert (a + b)[0] == a[0];
      assert (a + b)[1..] == a[1..] + b;
      assert IdsOf(a) == IdsOf(a[1..]) + {a[0].id} by { assert a == [a[0]] + a[1..]; }
      if a[0].id in seen {
        DedupAppend(a[1..], b, seen);
        assert seen + IdsOf(a[1..]) == seen + IdsOf(a);
      } else {
        DedupAppend(a[1..], b, seen + {a[0].id});
        assert seen + {a[0].id} + IdsOf(a[1..]) == seen + IdsOf(a);
      }
    }
  }

  /** Deduplicating a list whose ids are distinct and unseen keeps it whole. */
  lemma {:induction false} DedupDistinct(s: seq<Booking>, seen: set<string>)
    requires NoDupIds(s) && IdsOf(s) !! seen
    ensures DedupFrom(s, seen) == s
    decreases |s|
  {
    if s != [] {
      assert IdsOf(s) == IdsOf(s[1..]) + {s[0].id} by { assert s == [s[0]] + s[1..]; }
      assert s[0].id !in IdsOf(s[1..]);
      assert NoDupIds(s[1..]) by {
        forall i, j | 0 <= i < j < |s[1..]| ensures s[1..][i].id != s[1..][j].id {
          assert s[1..][i] == s[i + 1] && s[1..][j] == s[j + 1];
        }
      }
      DedupDistinct(s[1..], seen + {s[0].id});
    }
  }

  lemma PrefixThenDedup(pre: seq<Booking>, rest: seq<Booking>)
    requires NoDupIds(pre)
    ensures UniqueById(pre + rest) == pre + DedupFrom(rest, IdsOf(pre))
  {
    UniqueByIdIsDedup(pre + rest);
    DedupAppend(pre, rest, {});
    DedupDistinct(pre, {});
    assert {} + IdsOf(pre) == IdsOf(pre);
  }

  /** The merged view is the seed list followed by the first user record of
      each id that is not a seed id, in storage order. */
  lemma MergedShape(user: seq<Booking>)
    ensures Merged(user) == Seeds + DedupFrom(user, SeedIds)
  {
    SeedFacts();
    PrefixThenDedup(Seeds, user);
  }

  /** Appending to the stored list appends to the merged view whatever of
      the new records has an id not seen before. */
  lemma MergedAppend(user: seq<Booking>, extra: seq<Booking>)
    ensures Merged(user + extra) == Merged(user) + DedupFrom(extra, SeedIds + IdsOf(user))
  {
    MergedShape(user + extra);
    MergedShape(user);
    DedupAppend(user, extra, SeedIds);
  }

  /** Finding an id after deduplication finds its first occurrence, unless
      the id was already seen. */
  lemma {:induction false} FindAfterDedup(s: seq<Booking>, seen: set<string>, k: string)
    ensures Find(DedupFrom(s, seen), k) == if k in seen then None else Find(s, k)
    decreases |s|
  {
    if s != [] {
      assert IdsOf(s) == IdsOf(s[1..]) + {s[0].id} by { assert s == [s[0]] + s[1..]; }
      if s[0].id in seen {
        FindAfterDedup(s[1..], seen, k);
        FindSkipsHead(s, k);
      } else {
        var rest := DedupFrom(s[1..], seen + {s[0].id});
        FindAfterDedup(s[1..], seen + {s[0].id}, k);
        FindCons(s[0], rest, k);
        FindSkipsHead(s, k);
      }
    }
  }

  lemma FindSkipsHead(s: seq<Booking>, k: string)
    requires s != []
    ensures Find(s, k) == if s[0].id == k then Some(s[0]) else Find(s[1..], k)
  {
    assert IdsOf(s) == IdsOf(s[1..]) + {s[0].id} by { assert s == [s[0]] + s[1..]; }
  }

  lemma FindCons(x: Booking, t: seq<Booking>, k: string)
    ensures Find([x] + t, k) == if x.id == k then Some(x) else Find(t, k)
  {
    FindSkipsHead([x] + t, k);
    assert ([x] + t)[1..] == t;
  }

  lemma {:induction false} FindAppend(a: seq<Booking>, b: seq<Booking>, k: string)
    ensures Find(a + b, k) == if k in IdsOf(a) then Find(a, k) else Find(b, k)
    decreases |a|
  {
    if a == [] {
      assert a + b == b;
    } else {
      assert IdsOf(a) == IdsOf(a[1..]) + {a[0].id} by { assert a == [a[0]] + a[1..]; }
      FindAppend(a[1..], b, k);
      FindSkipsHead(a + b, k);
      FindSkipsHead(a, k);
      assert (a + b)[1..] == a[1..] + b;
    }
  }

  /** What `getBookings` shows for an id: the pre-existing record when the id
      is a seed id, otherwise the first stored record with that id. */
  lemma FindInMerged(user: seq<Booking>, k: string)
    ensures Find(Merged(user), k) == if k in SeedIds then Find(Seeds, k) else Find(user, k)
  {
    MergedShape(user);
    FindAppend(Seeds, DedupFrom(user, SeedIds), k);
    FindAfterDedup(user, SeedIds, k);
  }

  /** Seeds always win: a stored record reusing a seed id is never visible. */
  lemma SeedsAlwaysWin(user: seq<Booking>, i: nat)
    requires i < |Seeds|
    ensures Find(Merged(user), Seeds[i].id) == Some(Seeds[i])
  {
    FindInMerged(user, Seeds[i].id);
    SeedFacts();
    DedupDistinct(Seeds, {});
    FindAfterDedup(Seeds, {}, Seeds[i].id);
    FindIndexOfDistinct(Seeds, i);
  }

  lemma FindIndexOfDistinct(s: seq<Booking>, i: nat)
    requires NoDupIds(s) && i < |s|
    ensures Find(s, s[i].id) == Some(s[i])
  {
    assert s[i] in s;
  }

  lemma PrefixThenDedupProperties(pre: seq<Booking>, rest: seq<Booking>)
    requires NoDupIds(pre)
    ensures var m := pre + DedupFrom(rest, IdsOf(pre));
      && m[..|pre|] == pre
      && NoDupIds(m)
      && IdsOf(m) == IdsOf(pre) + IdsOf(rest)
      && forall b :: b in m ==> b in pre || b in rest
  {
    var d := DedupFrom(rest, IdsOf(pre));
    var m := pre + d;
    assert m[..|pre|] == pre;
    forall i, j | 0 <= i < j < |m| ensures m[i].id != m[j].id {
      if j >= |pre| && i < |pre| {
        assert m[i] in pre;
        assert m[j] == d[j - |pre|];
        assert m[j].id in IdsOf(d);
      } else if i >= |pre| {
        assert m[i] == d[i - |pre|] && m[j] == d[j - |pre|];
      }
    }
    IdsOfConcat(pre, d);
  }

  /** The merged view: seeds first and in seed order, no id twice, and the
      ids are exactly the seed ids and the stored ids. */
  lemma MergedProperties(user: seq<Booking>)
    ensures |Merged(user)| >= |Seeds|
    ensures Merged(user)[..|Seeds|] == Seeds
    ensures NoDupIds(Merged(user))
    ensures IdsOf(Merged(user)) == SeedIds + IdsOf(user)
    ensures forall b :: b in Merged(user) ==> b in Seeds || b in user
  {
    MergedShape(user);
    SeedFacts();
    PrefixThenDedupProperties(Seeds, user);
  }

  /** With nothing stored, the merged view is exactly the seed list. */
  lemma MergedOfNothing()
    ensures Merged([]) == Seeds
  {
    MergedShape([]);
  }

  /** `saveBookings`' filter: the records whose id is not a seed id. */
  function WithoutSeedIds(s: seq<Booking>): (r: seq<Booking>)
    ensures IdsOf(r) !! SeedIds
  {
    Filter(s, (b: Booking) => !IsSeedId(b.id))
  }

  /** The records whose id differs from `id` (the delete filter). */
  function WithoutId(s: seq<Booking>, id: string): (r: seq<Booking>)
    ensures id !in IdsOf(r)
  {
    Filter(s, (b: Booking) => b.id != id)
  }

  /** `getBookingsForDate`' filter. */
  function OnDate(s: seq<Booking>, date: string): (r: seq<Booking>)
    ensures forall b :: b in r <==> b in s && b.eventDate == date
  {
    Filter(s, (b: Booking) => b.eventDate == date)
  }

  /** `isDateBooked`'s test: it holds exactly when the bookings
      `getBookingsForDate` returns for the date include a booked one. */
  predicate HasBookedOn(s: seq<Booking>, date: string)
    ensures HasBookedOn(s, date) <==> exists b | b in OnDate(s, date) :: b.status == Booked
  {
    exists b | b in s :: b.eventDate == date && b.status == Booked
  }

  lemma HasBookedOnAppend(a: seq<Booking>, b: seq<Booking>, date: string)
    ensures HasBookedOn(a + b, date) <==> HasBookedOn(a, date) || HasBookedOn(b, date)
  {
    assert forall x :: x in a + b <==> x in a || x in b;
  }

  /** The four seed dates are booked whatever is stored. */
  lemma SeedDatesAlwaysBooked(user: seq<Booking>, date: string)
    requires date in SeedDates
    ensures HasBookedOn(Merged(user), date)
  {
    MergedProperties(user);
    SeedFacts();
    SeedDatesAre(date);
    var i :| 0 <= i < |Seeds| && Seeds[i].eventDate == date;
    assert Merged(user)[..|Seeds|][i] == Seeds[i];
    assert Merged(user)[i] in Merged(user);
  }

  /** What `updateBooking(id, updates)` leaves stored: the first stored record
      with that id merged with the updates; when there is none and the id is
      a seed id, a copy of the seed merged with the updates appended; when
      there is none otherwise, the list unchanged (nothing is written). */
  function Updated(user: seq<Booking>, id: string, updates: Patch): (r: seq<Booking>)
    ensures |user| <= |r| <= |user| + 1
    ensures forall k :: 0 <= k < |user| && k != FindIndex(user, id) ==> r[k] == user[k]
  {
    var i := FindIndex(user, id);
    if i != -1 then user[i := Apply(user[i], updates)]
    else if IsSeedId(id) then user + [Apply(SeedFor(id), updates)]
    else user
  }

  /** An update touches the first record with the id and nothing else; it
      grows the list only to append a seed copy. */
  lemma UpdateTouchesOnlyFirstMatch(user: seq<Booking>, id: string, updates: Patch)
    ensures var r := Updated(user, id, updates);
      && (|r| == |user| || (|r| == |user| + 1 && IsSeedId(id) && id !in IdsOf(user)))
      && forall k :: 0 <= k < |user| && k != FindIndex(user, id) ==> r[k] == user[k]
  {
  }

  /** An update for an unknown, non-seed id changes nothing. */
  lemma UpdateUnknownIsNoOp(user: seq<Booking>, id: string, updates: Patch)
    requires !IsSeedId(id) && id !in IdsOf(user)
    ensures Updated(user, id, updates) == user
  {
  }

  lemma DedupIgnoresSeenReplace(s: seq<Booking>, seen: set<string>, i: nat, x: Booking)
    requires i < |s| && s[i].id in seen && x.id in seen
    ensures DedupFrom(s[i := x], seen) == DedupFrom(s, seen)
  {
    var t := s[i := x];
    var pre := s[..i];
    var later := seen + IdsOf(pre);
    assert s == pre + s[i..];
    assert t == pre + t[i..];
    DedupAppend(pre, s[i..], seen);
    DedupAppend(pre, t[i..], seen);
    DedupFromStep(s[i..], later);
    DedupFromStep(t[i..], later);
    assert s[i..][0] == s[i] && t[i..][0] == x;
    assert s[i..][1..] == t[i..][1..];
    assert later + {s[i].id} == later + {x.id};
  }

  /** Updating a pre-existing booking is invisible to `getBookings`: the copy
      it writes shares the seed id, and seeds win the merge. */
  lemma UpdateOfSeedIsInvisible(user: seq<Booking>, id: string, updates: Patch)
    requires IsSeedId(id) && updates.id.None?
    ensures Merged(Updated(user, id, updates)) == Merged(user)
  {
    IsSeedIdIff(id);
    var i := FindIndex(user, id);
    if i != -1 {
      StoredSeedUpdateIsInvisible(user, id, updates);
    } else {
      UnstoredSeedUpdateIsInvisible(user, id, updates);
    }
  }

  /** The stored copy of a seed is replaced in place, behind the seed. */
  lemma StoredSeedUpdateIsInvisible(user: seq<Booking>, id: string, updates: Patch)
    requires id in SeedIds && updates.id.None? && FindIndex(user, id) != -1
    ensures Merged(Updated(user, id, updates)) == Merged(user)
  {
    var i := FindIndex(user, id);
    var x := Apply(user[i], updates);
    assert Updated(user, id, updates) == user[i := x];
    MergedShape(user);
    MergedShape(user[i := x]);
    DedupIgnoresSeenReplace(user, SeedIds, i, x);
  }

  /** A seed not yet stored is appended as a copy, behind the seed. */
  lemma UnstoredSeedUpdateIsInvisible(user: seq<Booking>, id: string, updates: Patch)
    requires IsSeedId(id) && id in SeedIds && updates.id.None? && FindIndex(user, id) == -1
    ensures Merged(Updated(user, id, updates)) == Merged(user)
  {
    var x := Apply(SeedFor(id), updates);
    assert Updated(user, id, updates) == user + [x];
    MergedAppend(user, [x]);
    DedupFromStep([x], SeedIds + IdsOf(user));
    assert [x][1..] == [];
  }

  /** The first index of an id, recognised from its defining property. */
  lemma FindIndexIs(s: seq<Booking>, id: string, r: nat)
    requires r < |s| && s[r].id == id
    requires forall j :: 0 <= j < r ==> s[j].id != id
    ensures FindIndex(s, id) == r
  {
    assert s[r] in s;
  }

  /** Replacing a record by one with the same id keeps the set of ids. */
  lemma IdsOfReplace(s: seq<Booking>, i: nat, x: Booking)
    requires i < |s| && x.id == s[i].id
    ensures IdsOf(s[i := x]) == IdsOf(s)
  {
    var t := s[i := x];
    forall b | b in t ensures b.id in IdsOf(s) {
      var j :| 0 <= j < |t| && t[j] == b;
      assert s[j] in s;
    }
    forall b | b in s ensures b.id in IdsOf(t) {
      var j :| 0 <= j < |s| && s[j] == b;
      assert t[j] in t;
    }
  }

  lemma FindAfterReplace(s: seq<Booking>, id: string, x: Booking, k: string)
    requires FindIndex(s, id) != -1 && x.id == id
    ensures Find(s[FindIndex(s, id) := x], k) == if k == id then Some(x) else Find(s, k)
  {
    var i := FindIndex(s, id);
    var t := s[i := x];
    IdsOfReplace(s, i, x);
    if k == id {
      FindIndexIs(t, id, i);
    } else {
      var r := FindIndex(s, k);
      if r != -1 {
        FindIndexIs(t, k, r);
      }
    }
  }

  /** Updating a stored, non-seed booking: `getBookings` then shows the
      merged record for that id and the same record as before for every
      other id. */
  lemma UpdateOfUserRecordIsVisible(user: seq<Booking>, id: string, updates: Patch, k: string)
    requires !IsSeedId(id) && id in IdsOf(user) && updates.id.None?
    ensures Find(Merged(Updated(user, id, updates)), k)
         == if k == id then Some(Apply(Find(user, id).value, updates)) else Find(Merged(user), k)
  {
    var i := FindIndex(user, id);
    var x := Apply(user[i], updates);
    FindInMerged(Updated(user, id, updates), k);
    FindInMerged(user, k);
    FindAfterReplace(user, id, x, k);
  }

  // ---------------------------------------------------------------------
  // Deleting: every admin view deletes by filtering the list it loaded and
  // passing the result to `saveBookings`.

  /** What a delete writes back: the loaded list without the records carrying
      `id`, minus every record with a seed id (`saveBookings`' filter). */
  function AfterDelete(loaded: seq<Booking>, id: string): (r: seq<Booking>)
    ensures id !in IdsOf(r) && IdsOf(r) !! SeedIds
  {
    WithoutSeedIds(WithoutId(loaded, id))
  }

  lemma {:induction false} FilterKeepsNoDupIds(s: seq<Booking>, p: Booking -> bool)
    requires NoDupIds(s)
    ensures NoDupIds(Filter(s, p))
  {
    if s != [] {
      FilterKeepsNoDupIds(s[1..], p);
      var rest := Filter(s[1..], p);
      forall k | 0 <= k < |rest| ensures rest[k].id != s[0].id {
        assert rest[k] in s[1..];
        var j :| 0 <= j < |s[1..]| && s[1..][j] == rest[k];
        assert s[j + 1] == rest[k];
      }
    }
  }

  lemma WithoutIdAppend(a: seq<Booking>, b: seq<Booking>, id: string)
    ensures WithoutId(a + b, id) == WithoutId(a, id) + WithoutId(b, id)
  {
    FilterAppend(a, b, (x: Booking) => x.id != id);
  }

  lemma WithoutSeedIdsAppend(a: seq<Booking>, b: seq<Booking>)
    ensures WithoutSeedIds(a + b) == WithoutSeedIds(a) + WithoutSeedIds(b)
  {
    FilterAppend(a, b, (x: Booking) => !IsSeedId(x.id));
  }

  /** Filtering away every seed id from records that all carry seed ids
      leaves nothing. */
  lemma {:induction false} WithoutSeedIdsOfSeeds(s: seq<Booking>)
    requires forall b :: b in s ==> IsSeedId(b.id)
    ensures WithoutSeedIds(s) == []
  {
    if s != [] {
      assert s[0] in s;
      WithoutSeedIdsOfSeeds(s[1..]);
    }
  }

  /** A delete from a list of seed records writes nothing. */
  lemma DeleteOfSeedRecords(s: seq<Booking>, id: string)
    requires forall b :: b in s ==> b in Seeds
    ensures AfterDelete(s, id) == []
  {
    forall b | b in WithoutId(s, id) ensures IsSeedId(b.id) {
      var i :| 0 <= i < |Seeds| && Seeds[i] == b;
    }
    WithoutSeedIdsOfSeeds(WithoutId(s, id));
  }

  /** Records with no seed id pass `saveBookings`' filter untouched. */
  lemma WithoutSeedIdsKeepsOthers(s: seq<Booking>)
    requires IdsOf(s) !! SeedIds
    ensures WithoutSeedIds(s) == s
  {
    forall k | 0 <= k < |s| ensures !IsSeedId(s[k].id) {
      assert s[k] in s;
      IsSeedIdIff(s[k].id);
    }
    FilterKeepsAll(s, (b: Booking) => !IsSeedId(b.id));
  }

  /** Removing an id that no record carries changes nothing. */
  lemma WithoutAbsentId(s: seq<Booking>, id: string)
    requires id !in IdsOf(s)
    ensures WithoutId(s, id) == s
  {
    forall k | 0 <= k < |s| ensures s[k].id != id {
      assert s[k] in s;
    }
    FilterKeepsAll(s, (b: Booking) => b.id != id);
  }

  /** A delete from the merged list rewrites the stored list as its first
      record per non-seed id, in storage order, minus `id`: later duplicates
      and every stored copy of a seed are dropped. */
  lemma DeleteCompacts(user: seq<Booking>, id: string)
    ensures AfterDelete(Merged(user), id) == WithoutId(DedupFrom(user, SeedIds), id)
  {
    var d := DedupFrom(user, SeedIds);
    var w := WithoutId(d, id);
    MergedShape(user);
    WithoutIdAppend(Seeds, d, id);
    WithoutSeedIdsAppend(WithoutId(Seeds, id), w);
    DeleteOfSeedRecords(Seeds, id);
    assert IdsOf(w) !! SeedIds by {
      forall b | b in w ensures b.id !in SeedIds {
        assert b.id in IdsOf(d);
      }
    }
    WithoutSeedIdsKeepsOthers(w);
  }

  /** What `getBookings` shows after a delete from the merged list: the
      merged list without `id` when `id` is not a seed id, and the merged
      list unchanged when it is one (a pre-existing booking cannot be
      deleted). */
  lemma DeleteIsVisible(user: seq<Booking>, id: string)
    ensures Merged(AfterDelete(Merged(user), id))
         == if IsSeedId(id) then Merged(user) else WithoutId(Merged(user), id)
  {
    var d := DedupFrom(user, SeedIds);
    var w := WithoutId(d, id);
    DeleteCompacts(user, id);
    MergedShape(user);
    MergedShape(w);
    FilterKeepsNoDupIds(d, (b: Booking) => b.id != id);
    assert IdsOf(w) !! SeedIds by {
      forall b | b in w ensures b.id !in SeedIds {
        assert b.id in IdsOf(d);
      }
    }
    DedupDistinct(w, SeedIds);
    IsSeedIdIff(id);
    if IsSeedId(id) {
      WithoutAbsentId(d, id);
    } else {
      WithoutIdAppend(Seeds, d, id);
      WithoutAbsentId(Seeds, id);
    }
  }

  /** The web store: the stored user list (`band_bookings`) and the stored
      proposal list (`band_proposals`). An absent key reads as empty. */
  class WebStore {
    var user: seq<Booking>
    var proposals: seq<Proposal>

    constructor ()
      ensures user == [] && proposals == []
    {
      user := [];
      proposals := [];
    }

    /** `getBookings()`: the four seeds, and at most one more record per
        stored one. */
    function GetBookings(): (r: seq<Booking>)
      reads this
      ensures |Seeds| <= |r| <= |Seeds| + |user|
      ensures r[..|Seeds|] == Seeds
    {
      MergedShape(user);
      Merged(user)
    }

    /** `saveBookings(bookings)`: stores the given list minus every record
        with a seed id, in the given order. */
    method SaveBookings(bookings: seq<Booking>)
      modifies this`user
      ensures user == WithoutSeedIds(bookings)
    {
      user := Filter(bookings, (b: Booking) => !IsSeedId(b.id));
    }

    /** `addBooking(booking)`: appends, with no check for a repeated id. */
    method AddBooking(booking: Booking)
      modifies this`user
      ensures user == old(user) + [booking]
    {
      user := user + [booking];
    }

    /** `updateBooking(id, updates)`. */
    method UpdateBooking(id: string, updates: Patch)
      modifies this`user
      ensures user == Updated(old(user), id, updates)
    {
      if IsSeedId(id) {
        var original := SeedFor(id);
        var index := FindIndex(user, id);
        if index != -1 {
          user := user[index := Apply(user[index], updates)];
        } else {
          user := user + [Apply(original, updates)];
        }
      } else {
        var index := FindIndex(user, id);
        if index != -1 {
          user := user[index := Apply(user[index], updates)];
        }
      }
    }

    /** `addProposal(proposal)`: appends to `band_proposals` only. */
    method AddProposal(proposal: Proposal)
      modifies this`proposals
      ensures proposals == old(proposals) + [proposal]
    {
      proposals := proposals + [proposal];
    }

    /** `isDateBooked(date)`: the seed dates are always booked. */
    predicate IsDateBooked(date: string)
      reads this
      ensures date in SeedDates ==> IsDateBooked(date)
    {
      assert date in SeedDates ==> HasBookedOn(Merged(user), date) by {
        if date in SeedDates {
          SeedDatesAlwaysBooked(user, date);
        }
      }
      HasBookedOn(Merged(user), date)
    }

    /** `getBookingsForDate(date)`: the merged bookings on that date, and a
        booked one among them exactly when the date is booked. */
    function GetBookingsForDate(date: string): (r: seq<Booking>)
      reads this
      ensures forall b :: b in r <==> b in GetBookings() && b.eventDate == date
      ensures IsDateBooked(date) <==> exists b | b in r :: b.status == Booked
    {
      OnDate(Merged(user), date)
    }
  }
}
