/** `src/components/admin/seo/location-formats/LocationFormats.tsx`: the admin
    table of location formats, whose button flips a row between 'ready' and
    'pending', writes the new status to the data service and, when that
    succeeds, updates the matching rows of the local list. */
module LocationFormats {
  import opened Base

  datatype Status = Ready | Pending | Disabled

  /** A row of `seo_location_formats`. `id` is optional in the source's type. */
  datatype FormatRow = FormatRow(
    id: Option<string>,
    kind: string,
    city: Option<string>,
    state: string,
    ngaFormat: Option<string>,
    perFormat: Option<string>,
    status: Status,
    templateCreated: bool,
    templateUrl: Option<string>)

  /** The status the row's button asks for: 'pending' for a ready row, 'ready'
      for a pending or a disabled one. */
  function ToggleTarget(s: Status): (r: Status)
    ensures r != s
    ensures r == Pending <==> s == Ready
    ensures r != Disabled
  {
    if s == Ready then Pending else Ready
  }

  /** The button reads "Mark Pending" for a ready row and "Mark Ready" otherwise. */
  function ButtonText(s: Status): (r: string)
    ensures r == "Mark Pending" <==> ToggleTarget(s) == Pending
  {
    if s == Ready then "Mark Pending" else "Mark Ready"
  }

  /** `prev.map(loc => loc.id === id ? { ...loc, status } : loc)`. */
  function WithStatus(rows: seq<FormatRow>, id: Option<string>, status: Status): (r: seq<FormatRow>)
    ensures |r| == |rows|
    ensures forall i :: 0 <= i < |r| ==> r[i] == (if rows[i].id == id then rows[i].(status := status) else rows[i])
  {
    seq(|rows|, i requires 0 <= i < |rows| => if rows[i].id == id then rows[i].(status := status) else rows[i])
  }

  /** Only the status of the matching rows changes; every other field of every
      row, the length and the order stay. */
  lemma WithStatusChangesOnlyStatus(rows: seq<FormatRow>, id: Option<string>, status: Status)
    ensures forall i :: 0 <= i < |rows| ==>
              && WithStatus(rows, id, status)[i].(status := rows[i].status) == rows[i]
              && (WithStatus(rows, id, status)[i].status == status || WithStatus(rows, id, status)[i] == rows[i])
              && (rows[i].id == id ==> WithStatus(rows, id, status)[i].status == status)
              && (rows[i].id != id ==> WithStatus(rows, id, status)[i] == rows[i])
  {
  }

  /** Setting a status twice is setting it once, and setting back the status
      every matching row had restores the list. */
  lemma WithStatusIdempotent(rows: seq<FormatRow>, id: Option<string>, status: Status)
    ensures WithStatus(WithStatus(rows, id, status), id, status) == WithStatus(rows, id, status)
  {
  }

  lemma WithStatusRestores(rows: seq<FormatRow>, id: Option<string>, prior: Status, status: Status)
    requires forall i :: 0 <= i < |rows| && rows[i].id == id ==> rows[i].status == prior
    ensures WithStatus(WithStatus(rows, id, status), id, prior) == rows
  {
    var r := WithStatus(WithStatus(rows, id, status), id, prior);
    assert forall i :: 0 <= i < |rows| ==> r[i] == rows[i];
  }

  /** The admin table's state that the toggle touches. */
  datatype TableState = TableState(locations: seq<FormatRow>, saving: Option<string>)

  /** The state after `handleStatusToggle(location, newStatus)`, given whether
      the update failed: the list takes the new status only on success, and
      `saving` ends null either way. */
  function Toggled(s: TableState, location: FormatRow, newStatus: Status, updateFails: bool): (r: TableState)
    ensures r.saving == None
    ensures updateFails ==> r.locations == s.locations
  {
    TableState(if updateFails then s.locations else WithStatus(s.locations, location.id, newStatus), None)
  }

  /** `saving === loc.id`: the row's button is disabled while its id is the
      one being saved; a null `saving` equals no id, not even a missing one. */
  predicate ButtonDisabled(saving: Option<string>, row: FormatRow)
  {
    saving.Some? && row.id == saving
  }

  /** `location.id || null`: the id marked as saving while the update runs. */
  function SavingId(location: FormatRow): (r: Option<string>)
    ensures r.Some? <==> Truthy(location.id)
    ensures r.Some? ==> r == location.id
  {
    if Truthy(location.id) then location.id else None
  }

  /** While the update runs, the clicked row's button is disabled exactly when
      the row has a non-empty id, and no row with another id is disabled; once
      the toggle is over no button is disabled. */
  lemma SavingDisablesClickedRow(s: TableState, location: FormatRow, newStatus: Status, updateFails: bool, row: FormatRow)
    ensures ButtonDisabled(SavingId(location), location) <==> Truthy(location.id)
    ensures row.id != location.id ==> !ButtonDisabled(SavingId(location), row)
    ensures !ButtonDisabled(Toggled(s, location, newStatus, updateFails).saving, row)
  {
  }

  class LocationTable {
    var locations: seq<FormatRow>
    var saving: Option<string>

    function State(): TableState
      reads this
    {
      TableState(locations, saving)
    }

    constructor ()
      ensures State() == TableState([], None)
    {
      locations := [];
      saving := None;
    }

    /** `handleStatusToggle`: `setSaving(location.id || null)`, the update, the
        `setLocations` of the mapped list when it succeeds, and `setSaving(null)`
        in the finally. While the update runs, the row's own button is disabled. */
    method HandleStatusToggle(location: FormatRow, newStatus: Status, updateFails: bool)
      modifies this
      ensures State() == Toggled(old(State()), location, newStatus, updateFails)
    {
      saving := SavingId(location);
      if !updateFails {
        locations := WithStatus(locations, location.id, newStatus);
      }
      saving := None;
    }
  }

  /** Clicking a row's button flips it between ready and pending and changes no
      other row; a failed update changes nothing. */
  lemma ToggleFlipsClickedRow(s: TableState, i: nat, updateFails: bool)
    requires i < |s.locations|
    ensures var row := s.locations[i];
            var r := Toggled(s, row, ToggleTarget(row.status), updateFails);
            && |r.locations| == |s.locations|
            && (updateFails ==> r.locations == s.locations)
            && (!updateFails ==> (r.locations[i].status == ToggleTarget(row.status)
                                  && r.locations[i].(status := row.status) == row))
            && (forall j :: 0 <= j < |s.locations| && s.locations[j].id != row.id ==> r.locations[j] == s.locations[j])
  {
  }

  /** Two clicks on a ready or pending row, both saved, give back the list. */
  lemma ToggleTwiceRestores(s: TableState, i: nat)
    requires i < |s.locations| && s.locations[i].status != Disabled
    requires forall j :: 0 <= j < |s.locations| && s.locations[j].id == s.locations[i].id ==>
               s.locations[j].status == s.locations[i].status
    ensures var row := s.locations[i];
            var once := Toggled(s, row, ToggleTarget(row.status), false);
            var twice := Toggled(once, once.locations[i], ToggleTarget(once.locations[i].status), false);
            twice.locations == s.locations
  {
    var row := s.locations[i];
    var once := Toggled(s, row, ToggleTarget(row.status), false);
    assert once.locations[i].id == row.id;
    assert ToggleTarget(once.locations[i].status) == row.status;
    WithStatusRestores(s.locations, row.id, row.status, ToggleTarget(row.status));
  }
}
