/** lib/appointments.ts, file-store branch: the appointment requests kept in
    `data/appointments.json` under `items`, newest first, at most 5000 of them. */
module Appointments {
  import opened Wrappers
  import opened I18n

  /** `AppointmentStatus`. */
  datatype Status = New | Contacted | Booked | Closed {
    /** The status as stored and as sent by the dashboard. */
    function Name(): (r: string)
      ensures r in AllowedStatusNames
    {
      match this
      case New => "new"
      case Contacted => "contacted"
      case Booked => "booked"
      case Closed => "closed"
    }
  }

  const AllowedStatusNames: seq<string> := ["new", "contacted", "booked", "closed"]

  /** The status a string names, if any. */
  function ParseStatus(s: string): (r: Option<Status>)
    ensures r.Some? <==> s in AllowedStatusNames
    ensures r.Some? ==> r.value.Name() == s
  {
    if s == "new" then Some(New)
    else if s == "contacted" then Some(Contacted)
    else if s == "booked" then Some(Booked)
    else if s == "closed" then Some(Closed)
    else None
  }

  /** Every status is recognised by its own name. */
  lemma StatusNameRoundTrip(st: Status)
    ensures ParseStatus(st.Name()) == Some(st)
  {
  }

  /** `AppointmentRequest`; an absent `email` or `locale` is `None`. */
  datatype AppointmentRequest = AppointmentRequest(
    id: string, createdAt: string, name: string, phone: string, email: Option<string>,
    condition: string, preferred: string, status: Status, locale: Option<Locale>)

  /** `addAppointment` keeps at most this many requests. */
  const MaxItems := 5000

  /** The list after `unshift(a)` and `slice(0, 5000)`. */
  function Added(xs: seq<AppointmentRequest>, a: AppointmentRequest): (r: seq<AppointmentRequest>)
    ensures |r| == if |xs| + 1 < MaxItems then |xs| + 1 else MaxItems
    ensures r[0] == a
    ensures forall k :: 1 <= k < |r| ==> r[k] == xs[k - 1]
  {
    var all := [a] + xs;
    if |all| <= MaxItems then all else all[..MaxItems]
  }

  /** `items.findIndex(x => x.id === id)`. */
  function FindIndex(xs: seq<AppointmentRequest>, id: string): (r: int)
    ensures -1 <= r < |xs|
    ensures r >= 0 ==> xs[r].id == id
    ensures r >= 0 ==> forall j :: 0 <= j < r ==> xs[j].id != id
    ensures r == -1 <==> forall j :: 0 <= j < |xs| ==> xs[j].id != id
  {
    if xs == [] then -1
    else if xs[0].id == id then 0
    else
      var k := FindIndex(xs[1..], id);
      if k < 0 then -1 else k + 1
  }

  /** The list after `updateAppointmentStatus(id, status)`: the first request with that
      id gets the new status and nothing else changes. */
  function WithStatus(xs: seq<AppointmentRequest>, id: string, status: Status): (r: seq<AppointmentRequest>)
    ensures |r| == |xs|
    ensures forall k :: 0 <= k < |xs| ==> r[k] == xs[k] || (xs[k].id == id && r[k] == xs[k].(status := status))
    ensures forall k :: 0 <= k < |xs| && r[k] != xs[k] ==> forall j :: 0 <= j < k ==> xs[j].id != id
    ensures forall k :: 0 <= k < |xs| && xs[k].id == id && (forall j :: 0 <= j < k ==> xs[j].id != id)
              ==> r[k].status == status
  {
    var idx := FindIndex(xs, id);
    if idx >= 0 then xs[idx := xs[idx].(status := status)] else xs
  }

  /** An unknown id leaves the list as it was. */
  lemma UnknownIdUnchanged(xs: seq<AppointmentRequest>, id: string, status: Status)
    requires forall k :: 0 <= k < |xs| ==> xs[k].id != id
    ensures WithStatus(xs, id, status) == xs
  {
  }

  /** The JSON file.  `items` is `None` when the stored `items` is not an array. */
  class AppointmentStore {
    var items: Option<seq<AppointmentRequest>>

    constructor (items: Option<seq<AppointmentRequest>>)
      ensures this.items == items
    {
      this.items := items;
    }

    /** `readFileStore()`, which `listAppointments()` returns as is. */
    function ListAppointments(): (r: seq<AppointmentRequest>)
      reads this
      ensures items.Some? ==> r == items.value
      ensures items.None? ==> r == []
    {
      items.GetOr([])
    }

    /** `addAppointment(a)`: the new request first, then the earlier ones, capped. */
    method AddAppointment(a: AppointmentRequest)
      modifies this
      ensures items == Some(Added(old(ListAppointments()), a))
    {
      var xs := ListAppointments();
      xs := [a] + xs;
      if |xs| > MaxItems {
        xs := xs[..MaxItems];
      }
      items := Some(xs);
    }

    /** `updateAppointmentStatus(id, status)`; the file is rewritten even when no
        request has that id. */
    method UpdateAppointmentStatus(id: string, status: Status)
      modifies this
      ensures items == Some(WithStatus(old(ListAppointments()), id, status))
    {
      var xs := ListAppointments();
      var idx := FindIndex(xs, id);
      if idx >= 0 {
        xs := xs[idx := xs[idx].(status := status)];
      }
      items := Some(xs);
    }
  }
}
