/** The booking and proposal records shared by the web site and the mobile
    admin app, and the shallow merge (`{...record, ...updates}`) that every
    update goes through. */
module Types {

  datatype Option<T> = None | Some(value: T)

  /** The four values of a booking's `status` field. */
  datatype Status = Pending | Approved | Rejected | Booked

  /** The string each status is stored and compared as. */
  function StatusName(s: Status): (r: string)
    ensures |r| >= 6
  {
    match s
    case Pending => "pending"
    case Approved => "approved"
    case Rejected => "rejected"
    case Booked => "booked"
  }

  /** The status a stored string names, if any. */
  function StatusOf(s: string): (r: Option<Status>)
    ensures r.Some? ==> StatusName(r.value) == s
  {
    if s == "pending" then Some(Pending)
    else if s == "approved" then Some(Approved)
    else if s == "rejected" then Some(Rejected)
    else if s == "booked" then Some(Booked)
    else None
  }

  /** Reading back a stored status gives the status. */
  lemma StatusRoundTrip(st: Status)
    ensures StatusOf(StatusName(st)) == Some(st)
  {
  }

  /** Distinct statuses are stored as distinct strings, so comparing the
      strings (as the views do) is comparing the statuses. */
  lemma StatusNameInjective(s: Status, t: Status)
    ensures StatusName(s) == StatusName(t) <==> s == t
  {
    if s != t {
      assert StatusName(s)[0] != StatusName(t)[0];
    }
  }

  /** One event request or engagement. `createdAt` is the creation instant in
      milliseconds since the epoch; it is only ever used for ordering. */
  datatype Booking = Booking(
    id: string,
    clientName: string,
    clientEmail: string,
    clientPhone: string,
    eventDate: string,
    eventType: string,
    venue: string,
    duration: int,
    guests: int,
    budget: string,
    message: string,
    status: Status,
    proposalSent: bool,
    proposalAmount: Option<int>,
    createdAt: int)

  /** A `Partial<Booking>`: the fields present in an update object. */
  datatype Patch = Patch(
    id: Option<string>,
    clientName: Option<string>,
    clientEmail: Option<string>,
    clientPhone: Option<string>,
    eventDate: Option<string>,
    eventType: Option<string>,
    venue: Option<string>,
    duration: Option<int>,
    guests: Option<int>,
    budget: Option<string>,
    message: Option<string>,
    status: Option<Status>,
    proposalSent: Option<bool>,
    proposalAmount: Option<int>,
    createdAt: Option<int>)

  function Pick<T>(update: Option<T>, current: T): T {
    if update.Some? then update.value else current
  }

  /** `{...b, ...p}` (equivalently `Object.assign(b, p)`): every field present
      in `p` replaces the field of `b`, every other field is kept. In
      particular an update that names no id, date or status keeps the
      record's identity, its calendar day and its place in the workflow. */
  function Apply(b: Booking, p: Patch): (r: Booking)
    ensures p.id.None? ==> r.id == b.id
    ensures p.eventDate.None? ==> r.eventDate == b.eventDate
    ensures p.status.None? ==> r.status == b.status
  {
    Booking(
      Pick(p.id, b.id),
      Pick(p.clientName, b.clientName),
      Pick(p.clientEmail, b.clientEmail),
      Pick(p.clientPhone, b.clientPhone),
      Pick(p.eventDate, b.eventDate),
      Pick(p.eventType, b.eventType),
      Pick(p.venue, b.venue),
      Pick(p.duration, b.duration),
      Pick(p.guests, b.guests),
      Pick(p.budget, b.budget),
      Pick(p.message, b.message),
      Pick(p.status, b.status),
      Pick(p.proposalSent, b.proposalSent),
      if p.proposalAmount.Some? then p.proposalAmount else b.proposalAmount,
      Pick(p.createdAt, b.createdAt))
  }

  /** The empty update object `{}`. */
  const NoChange: Patch :=
    Patch(None, None, None, None, None, None, None, None, None, None, None, None, None, None, None)

  /** `{ status }`: the update the approve and reject actions send. */
  function StatusPatch(s: Status): Patch {
    NoChange.(status := Some(s))
  }

  /** The edit form both admin views keep: exactly eight contact and event
      fields, with no `eventDate` and no `status`. */
  datatype EditForm = EditForm(
    clientName: string,
    clientEmail: string,
    clientPhone: string,
    eventType: string,
    venue: string,
    duration: int,
    budget: string,
    message: string)

  /** The form's initial state. */
  const BlankEditForm := EditForm("", "", "", "", "", 60, "", "")

  /** The edit form filled from a booking (`handleEditBooking`). */
  function EditFormOf(b: Booking): EditForm {
    EditForm(b.clientName, b.clientEmail, b.clientPhone, b.eventType, b.venue, b.duration, b.budget, b.message)
  }

  /** The edit form passed as an update object. */
  function EditPatch(f: EditForm): Patch {
    NoChange.(clientName := Some(f.clientName), clientEmail := Some(f.clientEmail),
              clientPhone := Some(f.clientPhone), eventType := Some(f.eventType),
              venue := Some(f.venue), duration := Some(f.duration),
              budget := Some(f.budget), message := Some(f.message))
  }

  /** Applying an empty update changes nothing. */
  lemma ApplyNoChange(b: Booking)
    ensures Apply(b, NoChange) == b
  {
  }

  /** A status update changes the status and nothing else. */
  lemma ApplyStatusPatch(b: Booking, s: Status)
    ensures Apply(b, StatusPatch(s)) == b.(status := s)
  {
  }

  /** Saving an edit keeps the booking's id, date, status, guests, proposal
      data and creation time, and takes every other field from the form. */
  lemma ApplyEditPatch(b: Booking, f: EditForm)
    ensures var e := Apply(b, EditPatch(f));
      && e.id == b.id && e.eventDate == b.eventDate && e.status == b.status
      && e.guests == b.guests && e.proposalSent == b.proposalSent
      && e.proposalAmount == b.proposalAmount && e.createdAt == b.createdAt
      && EditFormOf(e) == f
  {
  }

  /** Opening the edit form and saving it untouched leaves the booking as it was. */
  lemma EditRoundTrip(b: Booking)
    ensures Apply(b, EditPatch(EditFormOf(b))) == b
  {
  }

  /** The values of a proposal's `status` field. */
  datatype ProposalStatus = Sent | Accepted | Declined

  /** An offer sent to a client; stored but never built or read by any view. */
  datatype Proposal = Proposal(
    id: string,
    bookingId: string,
    amount: int,
    description: string,
    terms: string,
    validUntil: string,
    status: ProposalStatus,
    createdAt: int)

  /** The set of ids occurring in a list of bookings. */
  function IdsOf(s: seq<Booking>): set<string> {
    set b | b in s :: b.id
  }

  /** No two records share an id. */
  predicate NoDupIds(s: seq<Booking>) {
    forall i, j :: 0 <= i < j < |s| ==> s[i].id != s[j].id
  }

  lemma IdsOfCons(x: Booking, t: seq<Booking>)
    ensures IdsOf([x] + t) == {x.id} + IdsOf(t)
  {
    assert forall b :: b in [x] + t <==> b == x || b in t;
  }

  lemma IdsOfHead(s: seq<Booking>)
    requires s != []
    ensures IdsOf(s) == {s[0].id} + IdsOf(s[1..])
  {
    assert s == [s[0]] + s[1..];
    IdsOfCons(s[0], s[1..]);
  }

  /** A record whose id is new to a list without repeated ids can head it. */
  lemma NoDupCons(x: Booking, t: seq<Booking>)
    requires NoDupIds(t) && x.id !in IdsOf(t)
    ensures NoDupIds([x] + t)
  {
    forall i, j | 0 <= i < j < |[x] + t| ensures ([x] + t)[i].id != ([x] + t)[j].id {
      if i == 0 {
        assert t[j - 1] in t;
      }
    }
  }
}
