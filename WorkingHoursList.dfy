/** The working-hours list of src/components/WorkingHours.tsx: the filter
    that searches the employee's name and then the status, approving and
    deleting one entry, and the entry the create form inserts. The
    working_hours table is a map from id to entry. */
module WorkingHoursList {
  import opened Common
  import opened Types

  // ===========================================================================
  // The list filter (filteredWorkingHours)

  /** The search test: the entry's profile exists and its full name, lower
      cased, contains the lower-cased term. */
  predicate NameMatches(h: WorkingHour, profiles: seq<Profile>, searchTerm: string) {
    var p := FindProfile(profiles, h.profileId);
    p.Some? && Contains(ToLower(p.value.fullName), ToLower(searchTerm))
  }

  predicate StatusMatches(h: WorkingHour, statusFilter: string) {
    statusFilter == "all" || h.status.Name() == statusFilter
  }

  /** The two chained filters: by name first, then by status. */
  function FilterWorkingHours(hours: seq<WorkingHour>, profiles: seq<Profile>, searchTerm: string,
                              statusFilter: string): (out: seq<WorkingHour>)
    ensures |out| <= |hours|
    ensures forall i :: 0 <= i < |out| ==> out[i] in hours && StatusMatches(out[i], statusFilter)
  {
    Filter(Filter(hours, h => NameMatches(h, profiles, searchTerm)), h => StatusMatches(h, statusFilter))
  }

  /** An entry is listed exactly when it is one of the entries, some profile
      has its profile_id, the first such profile's name contains the term,
      and the status filter is "all" or its status. */
  lemma FilterWorkingHoursMembership(hours: seq<WorkingHour>, profiles: seq<Profile>, searchTerm: string,
                                     statusFilter: string, h: WorkingHour)
    ensures h in FilterWorkingHours(hours, profiles, searchTerm, statusFilter) <==>
            && h in hours
            && FindProfile(profiles, h.profileId).Some?
            && Contains(ToLower(FindProfile(profiles, h.profileId).value.fullName), ToLower(searchTerm))
            && (statusFilter == "all" || h.status.Name() == statusFilter)
  {
    var named := Filter(hours, h => NameMatches(h, profiles, searchTerm));
    var out := Filter(named, h => StatusMatches(h, statusFilter));
    if h in out {
      var i :| 0 <= i < |out| && out[i] == h;
      var j :| 0 <= j < |named| && named[j] == h;
    }
    if h in hours && NameMatches(h, profiles, searchTerm) && StatusMatches(h, statusFilter) {
      var i :| 0 <= i < |hours| && hours[i] == h;
      var j :| 0 <= j < |named| && named[j] == h;
    }
  }

  /** With an empty search and status "all", exactly the entries whose
      profile exists are listed, in order: an entry without a profile is
      hidden even then. */
  lemma EmptySearchKeepsEntriesWithProfiles(hours: seq<WorkingHour>, profiles: seq<Profile>)
    ensures FilterWorkingHours(hours, profiles, "", "all") ==
            Filter(hours, (h: WorkingHour) => FindProfile(profiles, h.profileId).Some?)
  {
    var named := Filter(hours, h => NameMatches(h, profiles, ""));
    FilterKeepsAll(named, h => StatusMatches(h, "all"));
    forall i | 0 <= i < |hours| && FindProfile(profiles, hours[i].profileId).Some?
      ensures NameMatches(hours[i], profiles, "")
    {
      ContainsEmpty(ToLower(FindProfile(profiles, hours[i].profileId).value.fullName));
    }
    FilterCongruent(hours, h => NameMatches(h, profiles, ""),
                    (h: WorkingHour) => FindProfile(profiles, h.profileId).Some?);
  }

  // ===========================================================================
  // The create form and the entry it inserts

  datatype HoursForm = HoursForm(
    profileId: Id,
    clientId: Id,
    projectId: Id,
    date: string,
    startTime: string,
    endTime: string,
    totalHours: real,
    actualHours: real,
    overtimeHours: real,
    hourlyRate: real,
    payableAmount: real,
    signInTime: string,
    signOutTime: string,
    notes: string,
    status: WorkingHoursStatus)

  /** The form resetForm installs. */
  function EmptyForm(): (f: HoursForm)
    ensures f.profileId == "" && f.clientId == "" && f.projectId == "" && f.date == ""
    ensures f.startTime == "" && f.endTime == "" && f.signInTime == "" && f.signOutTime == "" && f.notes == ""
    ensures f.totalHours == 0.0 && f.actualHours == 0.0 && f.overtimeHours == 0.0
    ensures f.hourlyRate == 0.0 && f.payableAmount == 0.0
    ensures f.status == WorkingHoursStatus.Pending
  {
    HoursForm("", "", "", "", "", "", 0.0, 0.0, 0.0, 0.0, 0.0, "", "", "", WorkingHoursStatus.Pending)
  }

  /** `workingHoursData` stored under the generated id: empty sign-in and
      sign-out times become null, and no roster is linked. */
  function EntryOf(f: HoursForm, id: Id): (h: WorkingHour)
    ensures h.id == id && h.rosterId.None? && h.status == f.status && h.profileId == f.profileId
  {
    WorkingHour(id, f.profileId, f.clientId, f.projectId, f.date, f.startTime, f.endTime, f.totalHours,
                f.status, None, EmptyToNull(f.signInTime), EmptyToNull(f.signOutTime),
                Some(f.actualHours), Some(f.overtimeHours), Some(f.hourlyRate), Some(f.payableAmount),
                Some(f.notes))
  }

  /** Reading an entry back into the form's fields, with null as "". */
  function FormOf(h: WorkingHour): HoursForm {
    HoursForm(h.profileId, h.clientId, h.projectId, h.date, h.startTime, h.endTime, h.totalHours,
              OrZero(h.actualHours), OrZero(h.overtimeHours), OrZero(h.hourlyRate), OrZero(h.payableAmount),
              OrEmpty(h.signInTime), OrEmpty(h.signOutTime), OrEmpty(h.notes), h.status)
  }

  /** Nothing the form holds is lost on submit: the inserted entry reads
      back as the form, and its sign times are null exactly when empty. */
  lemma EntryKeepsForm(f: HoursForm, id: Id)
    ensures FormOf(EntryOf(f, id)) == f
    ensures EntryOf(f, id).signInTime.None? <==> f.signInTime == ""
    ensures EntryOf(f, id).signOutTime.None? <==> f.signOutTime == ""
    ensures EntryOf(f, id).id == id && EntryOf(f, id).rosterId.None?
    ensures EntryOf(f, id).notes == Some(f.notes) && EntryOf(f, id).actualHours == Some(f.actualHours) &&
            EntryOf(f, id).overtimeHours == Some(f.overtimeHours) && EntryOf(f, id).hourlyRate == Some(f.hourlyRate) &&
            EntryOf(f, id).payableAmount == Some(f.payableAmount)
  {
  }

  // ===========================================================================
  // Approving and deleting one entry

  /** `update({status: 'approved'}).eq('id', id)`. */
  function Approve(store: map<Id, WorkingHour>, id: Id): (s: map<Id, WorkingHour>)
    ensures s.Keys == store.Keys
  {
    if id in store then store[id := store[id].(status := WorkingHoursStatus.Approved)] else store
  }

  /** Approving sets the status of exactly that entry and changes nothing else. */
  lemma ApproveEffect(store: map<Id, WorkingHour>, id: Id)
    ensures Approve(store, id).Keys == store.Keys
    ensures forall k :: k in store && k != id ==> Approve(store, id)[k] == store[k]
    ensures id in store ==> Approve(store, id)[id].status == WorkingHoursStatus.Approved
    ensures id in store ==> Approve(store, id)[id].(status := store[id].status) == store[id]
  {
  }

  /** Approving twice is approving once. */
  lemma ApproveIdempotent(store: map<Id, WorkingHour>, id: Id)
    ensures Approve(Approve(store, id), id) == Approve(store, id)
  {
  }

  /** `delete().eq('id', id)`, given the store's reply: on an error the
      table is as it was. */
  function Delete(store: map<Id, WorkingHour>, id: Id, reply: Reply): (s: map<Id, WorkingHour>)
    ensures s.Keys <= store.Keys && (reply.Ok? ==> id !in s)
  {
    if reply.Ok? then store - {id} else store
  }

  /** A failed delete changes nothing; a delete that lands removes exactly
      the entry with that id and keeps every other entry. */
  lemma DeleteEffect(store: map<Id, WorkingHour>, id: Id, reply: Reply)
    ensures reply.Err? ==> Delete(store, id, reply) == store
    ensures reply.Ok? ==> id !in Delete(store, id, reply) && Delete(store, id, reply).Keys == store.Keys - {id}
    ensures forall k :: k in store && k != id ==> k in Delete(store, id, reply) && Delete(store, id, reply)[k] == store[k]
  {
  }

  /** Deleting an entry undoes approving it: approval leaves no trace once
      the entry is gone. */
  lemma DeleteAfterApprove(store: map<Id, WorkingHour>, id: Id)
    ensures Delete(Approve(store, id), id, Ok) == Delete(store, id, Ok)
  {
  }

  // ===========================================================================
  // The component's state

  class HoursManager {
    /** The working_hours table. */
    var store: map<Id, WorkingHour>
    /** The fetched entries and profiles the list is computed from. */
    var hours: seq<WorkingHour>
    var profiles: seq<Profile>
    var searchTerm: string
    var statusFilter: string
    var form: HoursForm
    var dialogOpen: bool

    /** `filteredWorkingHours`, the list the table shows. */
    function FilteredWorkingHours(): seq<WorkingHour>
      reads this
    {
      FilterWorkingHours(hours, profiles, searchTerm, statusFilter)
    }

    constructor (store0: map<Id, WorkingHour>)
      ensures store == store0 && hours == [] && profiles == [] && searchTerm == "" && statusFilter == "all"
      ensures form == EmptyForm() && !dialogOpen
    {
      store := store0;
      hours, profiles := [], [];
      searchTerm, statusFilter := "", "all";
      form := EmptyForm();
      dialogOpen := false;
    }

    /** handleApprove. */
    method HandleApprove(id: Id, reply: Reply)
      modifies this
      ensures store == (if reply.Ok? then Approve(old(store), id) else old(store))
      ensures hours == old(hours) && profiles == old(profiles) && form == old(form) && dialogOpen == old(dialogOpen)
      ensures searchTerm == old(searchTerm) && statusFilter == old(statusFilter)
    {
      if reply.Ok? && id in store {
        store := store[id := store[id].(status := WorkingHoursStatus.Approved)];
      }
    }

    /** handleDelete. */
    method HandleDelete(id: Id, reply: Reply)
      modifies this
      ensures store == Delete(old(store), id, reply)
      ensures hours == old(hours) && profiles == old(profiles) && form == old(form) && dialogOpen == old(dialogOpen)
      ensures searchTerm == old(searchTerm) && statusFilter == old(statusFilter)
    {
      store := Delete(store, id, reply);
    }

    /** resetForm. */
    method ResetForm()
      modifies this
      ensures form == EmptyForm()
      ensures store == old(store) && hours == old(hours) && profiles == old(profiles) && dialogOpen == old(dialogOpen)
      ensures searchTerm == old(searchTerm) && statusFilter == old(statusFilter)
    {
      form := EmptyForm();
    }

    /** handleSubmit: insert the entry; on success close the dialog and
        reset the form. */
    method HandleSubmit(reply: Reply, newId: Id)
      modifies this
      ensures reply.Ok? ==> store == old(store)[newId := EntryOf(old(form), newId)] && form == EmptyForm() && !dialogOpen
      ensures reply.Err? ==> store == old(store) && form == old(form) && dialogOpen == old(dialogOpen)
      ensures hours == old(hours) && profiles == old(profiles)
      ensures searchTerm == old(searchTerm) && statusFilter == old(statusFilter)
    {
      var entry := EntryOf(form, newId);
      if reply.Err? {
        return;
      }
      store := store[newId := entry];
      dialogOpen := false;
      ResetForm();
    }

    /** fetchData: the fetched entries and profiles replace the lists; on an
        error both are kept. */
    method FetchData(reply: Reply, rows: seq<WorkingHour>, people: seq<Profile>)
      modifies this
      ensures hours == (if reply.Ok? then rows else old(hours))
      ensures profiles == (if reply.Ok? then people else old(profiles))
      ensures store == old(store) && form == old(form) && dialogOpen == old(dialogOpen)
      ensures searchTerm == old(searchTerm) && statusFilter == old(statusFilter)
    {
      if reply.Ok? {
        hours, profiles := rows, people;
      }
    }
  }
}
