/** The roster list of src/components/Roster.tsx: the search and status
    filter over the fetched rosters, the form the edit button fills in, the
    record the form submits (an update of the edited roster or an insert),
    and deleting a roster after confirmation. The rosters table is a map
    from id to the columns the form writes. */
module RosterList {
  import opened Common
  import opened Types

  // ===========================================================================
  // The list filter (filteredRosters)

  /** The search test: the lower-cased term occurs in the joined profile,
      client or project name (a missing one counts as ""), or in the
      roster's own name when it has one. */
  predicate MatchesSearch(r: Roster, searchTerm: string) {
    var term := ToLower(searchTerm);
    || Contains(ToLower(OrEmpty(r.profileName)), term)
    || Contains(ToLower(OrEmpty(r.clientName)), term)
    || Contains(ToLower(OrEmpty(r.projectName)), term)
    || (r.name.Some? && Contains(ToLower(r.name.value), term))
  }

  predicate RosterMatches(r: Roster, searchTerm: string, statusFilter: string) {
    MatchesSearch(r, searchTerm) && (statusFilter == "all" || r.status.Name() == statusFilter)
  }

  function FilterRosters(rosters: seq<Roster>, searchTerm: string, statusFilter: string): (out: seq<Roster>)
    ensures |out| <= |rosters|
    ensures forall i :: 0 <= i < |out| ==> out[i] in rosters && RosterMatches(out[i], searchTerm, statusFilter)
  {
    Filter(rosters, r => RosterMatches(r, searchTerm, statusFilter))
  }

  /** Only the empty string occurs in the empty string. */
  lemma ContainsInEmpty(t: string)
    requires Contains("", t)
    ensures t == ""
  {
  }

  /** A roster is listed exactly when it is one of the rosters, the term
      occurs in one of its four names with every missing name read as "",
      and the status filter is "all" or its status. */
  lemma FilterRostersMembership(rosters: seq<Roster>, searchTerm: string, statusFilter: string, r: Roster)
    ensures var term := ToLower(searchTerm);
            r in FilterRosters(rosters, searchTerm, statusFilter) <==>
            && r in rosters
            && (|| Contains(ToLower(OrEmpty(r.profileName)), term)
                || Contains(ToLower(OrEmpty(r.clientName)), term)
                || Contains(ToLower(OrEmpty(r.projectName)), term)
                || Contains(ToLower(OrEmpty(r.name)), term))
            && (statusFilter == "all" || r.status.Name() == statusFilter)
  {
    var term := ToLower(searchTerm);
    if r.name.None? && Contains(ToLower(OrEmpty(r.name)), term) {
      ContainsInEmpty(term);
      ContainsEmpty(ToLower(OrEmpty(r.profileName)));
    }
    var out := FilterRosters(rosters, searchTerm, statusFilter);
    if r in out {
      var i :| 0 <= i < |out| && out[i] == r;
    }
    if r in rosters && RosterMatches(r, searchTerm, statusFilter) {
      var i :| 0 <= i < |rosters| && rosters[i] == r;
    }
  }

  /** An empty search with status "all" lists every roster, in order. */
  lemma EmptySearchListsAll(rosters: seq<Roster>)
    ensures FilterRosters(rosters, "", "all") == rosters
  {
    forall i | 0 <= i < |rosters|
      ensures RosterMatches(rosters[i], "", "all")
    {
      ContainsEmpty(ToLower(OrEmpty(rosters[i].profileName)));
    }
    FilterKeepsAll(rosters, r => RosterMatches(r, "", "all"));
  }

  // ===========================================================================
  // The form and the record it submits

  datatype RosterForm = RosterForm(
    name: string,
    profileId: Id,
    clientId: Id,
    projectId: Id,
    date: string,
    endDate: string,
    startTime: string,
    endTime: string,
    totalHours: real,
    notes: string,
    status: RosterStatus,
    expectedProfiles: int,
    perHourRate: real)

  /** The columns handleSubmit writes (`rosterData`). */
  datatype RosterRecord = RosterRecord(
    name: string,
    profileId: Id,
    clientId: Id,
    projectId: Id,
    date: string,
    endDate: Option<string>,
    startTime: string,
    endTime: string,
    totalHours: real,
    notes: string,
    status: RosterStatus,
    expectedProfiles: int,
    perHourRate: real)

  /** The form resetForm installs. */
  function EmptyForm(): (f: RosterForm)
    ensures f.name == "" && f.profileId == "" && f.clientId == "" && f.projectId == ""
    ensures f.date == "" && f.endDate == "" && f.startTime == "" && f.endTime == "" && f.notes == ""
    ensures f.totalHours == 0.0 && f.expectedProfiles == 1 && f.perHourRate == 0.0
    ensures f.status == RosterStatus.Pending
  {
    RosterForm("", "", "", "", "", "", "", "", 0.0, "", RosterStatus.Pending, 1, 0.0)
  }

  /** The form editRoster fills in: JavaScript's `||` replaces a missing or
      empty name, end date and notes by "", a missing or zero
      expected_profiles by 1 and a missing or zero per_hour_rate by 0. */
  function FormFor(r: Roster): (f: RosterForm)
    ensures f.name == (if r.name.Some? then r.name.value else "")
    ensures f.endDate == (if r.endDate.Some? then r.endDate.value else "")
    ensures f.notes == (if r.notes.Some? then r.notes.value else "")
    ensures r.expectedProfiles.None? || r.expectedProfiles == Some(0) ==> f.expectedProfiles == 1
    ensures r.expectedProfiles.Some? && r.expectedProfiles.value != 0 ==> f.expectedProfiles == r.expectedProfiles.value
    ensures f.perHourRate == (if r.perHourRate.Some? then r.perHourRate.value else 0.0)
    ensures f.profileId == r.profileId && f.clientId == r.clientId && f.projectId == r.projectId
    ensures f.date == r.date && f.startTime == r.startTime && f.endTime == r.endTime
    ensures f.totalHours == r.totalHours && f.status == r.status
  {
    RosterForm(
      OrEmpty(r.name), r.profileId, r.clientId, r.projectId, r.date, OrEmpty(r.endDate),
      r.startTime, r.endTime, r.totalHours, OrEmpty(r.notes), r.status,
      if r.expectedProfiles.Some? && r.expectedProfiles.value != 0 then r.expectedProfiles.value else 1,
      if r.perHourRate.Some? && r.perHourRate.value != 0.0 then r.perHourRate.value else 0.0)
  }

  /** `rosterData`: the form's fields, with an empty end date sent as null. */
  function RecordOf(f: RosterForm): (d: RosterRecord)
    ensures d.endDate.None? <==> f.endDate == ""
    ensures d.endDate.Some? ==> d.endDate.value == f.endDate
  {
    RosterRecord(f.name, f.profileId, f.clientId, f.projectId, f.date, EmptyToNull(f.endDate),
                 f.startTime, f.endTime, f.totalHours, f.notes, f.status, f.expectedProfiles, f.perHourRate)
  }

  /** Opening a roster for edit and saving it unchanged writes back its own
      columns when it has a name, notes, a non-zero expected_profiles and a
      per_hour_rate, and no empty end date; each missing field is written as
      its default instead. */
  lemma EditAndSaveUnchanged(r: Roster)
    ensures var d := RecordOf(FormFor(r));
            && d.profileId == r.profileId && d.clientId == r.clientId && d.projectId == r.projectId
            && d.date == r.date && d.startTime == r.startTime && d.endTime == r.endTime
            && d.totalHours == r.totalHours && d.status == r.status
            && d.name == OrEmpty(r.name) && d.notes == OrEmpty(r.notes)
            && d.endDate == (if r.endDate == Some("") then None else r.endDate)
            && d.expectedProfiles == (if r.expectedProfiles.Some? && r.expectedProfiles.value != 0
                                      then r.expectedProfiles.value else 1)
            && d.perHourRate == OrZero(r.perHourRate)
  {
  }

  /** Submitting a reset form writes an empty pending roster with no end date. */
  lemma EmptyFormRecord()
    ensures RecordOf(EmptyForm()).endDate.None? && RecordOf(EmptyForm()).status == RosterStatus.Pending
    ensures RecordOf(EmptyForm()).expectedProfiles == 1 && RecordOf(EmptyForm()).name == ""
  {
  }

  // ===========================================================================
  // Saving and deleting

  /** The write handleSubmit makes: an update of the edited roster's row (one
      that is gone is left alone, as an update matching no row is), or an
      insert under the id the store generates. */
  function Save(store: map<Id, RosterRecord>, editing: Option<Roster>, data: RosterRecord, newId: Id): (s: map<Id, RosterRecord>)
    ensures editing.Some? ==> s.Keys == store.Keys
    ensures editing.None? ==> s.Keys == store.Keys + {newId}
  {
    if editing.Some? then
      if editing.value.id in store then store[editing.value.id := data] else store
    else store[newId := data]
  }

  /** Saving an edit replaces that one row and adds none; saving a new
      roster adds one row; no other row changes. */
  lemma SaveEffect(store: map<Id, RosterRecord>, editing: Option<Roster>, data: RosterRecord, newId: Id)
    ensures var target := if editing.Some? then editing.value.id else newId;
            var s := Save(store, editing, data, newId);
            && (forall k :: k in store && k != target ==> k in s && s[k] == store[k])
            && (forall k :: k in s && k != target ==> k in store)
            && (editing.Some? ==> s.Keys == store.Keys && (target in store ==> s[target] == data))
            && (editing.None? ==> newId in s && s[newId] == data)
            && (editing.None? && newId !in store ==> |s| == |store| + 1)
  {
  }

  /** The delete after the confirmation: only the row with that id goes. */
  function Delete(store: map<Id, RosterRecord>, id: Id, confirmed: bool, reply: Reply): (s: map<Id, RosterRecord>)
    ensures s.Keys <= store.Keys && store.Keys - s.Keys <= {id}
  {
    if confirmed && reply.Ok? then store - {id} else store
  }

  lemma DeleteEffect(store: map<Id, RosterRecord>, id: Id, confirmed: bool, reply: Reply)
    ensures !confirmed ==> Delete(store, id, confirmed, reply) == store
    ensures reply.Err? ==> Delete(store, id, confirmed, reply) == store
    ensures confirmed && reply.Ok? ==> Delete(store, id, confirmed, reply).Keys == store.Keys - {id}
    ensures forall k :: k in Delete(store, id, confirmed, reply) ==> k in store && Delete(store, id, confirmed, reply)[k] == store[k]
  {
  }

  // ===========================================================================
  // The component's state

  class RosterManager {
    /** The rosters table. */
    var store: map<Id, RosterRecord>
    /** The fetched rosters with their joined names. */
    var rosters: seq<Roster>
    var searchTerm: string
    var statusFilter: string
    var form: RosterForm
    var editing: Option<Roster>
    var dialogOpen: bool

    /** `filteredRosters`, the list the table shows. */
    function FilteredRosters(): seq<Roster>
      reads this
    {
      FilterRosters(rosters, searchTerm, statusFilter)
    }

    constructor (store0: map<Id, RosterRecord>)
      ensures store == store0 && rosters == [] && searchTerm == "" && statusFilter == "all"
      ensures form == EmptyForm() && editing.None? && !dialogOpen
    {
      store := store0;
      rosters := [];
      searchTerm, statusFilter := "", "all";
      form := EmptyForm();
      editing := None;
      dialogOpen := false;
    }

    /** editRoster: remember the roster, fill in the form, open the dialog. */
    method EditRoster(r: Roster)
      modifies this
      ensures editing == Some(r) && form == FormFor(r) && dialogOpen
      ensures store == old(store) && rosters == old(rosters)
      ensures searchTerm == old(searchTerm) && statusFilter == old(statusFilter)
    {
      editing := Some(r);
      form := FormFor(r);
      dialogOpen := true;
    }

    /** resetForm. */
    method ResetForm()
      modifies this
      ensures form == EmptyForm()
      ensures store == old(store) && rosters == old(rosters) && editing == old(editing) && dialogOpen == old(dialogOpen)
      ensures searchTerm == old(searchTerm) && statusFilter == old(statusFilter)
    {
      form := EmptyForm();
    }

    /** handleSubmit: update the edited roster or insert a new one; on
        success close the dialog and reset the form. The edited roster is
        not forgotten here. */
    method HandleSubmit(reply: Reply, newId: Id)
      modifies this
      ensures reply.Ok? ==> store == Save(old(store), old(editing), RecordOf(old(form)), newId)
                            && form == EmptyForm() && !dialogOpen
      ensures reply.Err? ==> store == old(store) && form == old(form) && dialogOpen == old(dialogOpen)
      ensures editing == old(editing) && rosters == old(rosters)
      ensures searchTerm == old(searchTerm) && statusFilter == old(statusFilter)
    {
      var data := RecordOf(form);
      if reply.Err? {
        return;
      }
      if editing.Some? {
        if editing.value.id in store {
          store := store[editing.value.id := data];
        }
      } else {
        store := store[newId := data];
      }
      dialogOpen := false;
      ResetForm();
    }

    /** deleteRoster: nothing happens unless the confirmation is accepted. */
    method DeleteRoster(id: Id, confirmed: bool, reply: Reply)
      modifies this
      ensures store == Delete(old(store), id, confirmed, reply)
      ensures rosters == old(rosters) && form == old(form) && editing == old(editing) && dialogOpen == old(dialogOpen)
      ensures searchTerm == old(searchTerm) && statusFilter == old(statusFilter)
    {
      if !confirmed {
        return;
      }
      if reply.Ok? {
        store := store - {id};
      }
    }

    /** fetchData: the fetched rosters replace the list; on an error it is kept. */
    method FetchData(reply: Reply, rows: seq<Roster>)
      modifies this
      ensures rosters == (if reply.Ok? then rows else old(rosters))
      ensures store == old(store) && form == old(form) && editing == old(editing) && dialogOpen == old(dialogOpen)
      ensures searchTerm == old(searchTerm) && statusFilter == old(statusFilter)
    {
      if reply.Ok? {
        rosters := rows;
      }
    }
  }
}
