/** The records and enumerated statuses of the dashboard's tables, after
    src/types/enums.ts, payroll.ts, profile.ts, roster.ts and workingHours.ts.
    Only the fields the modelled components read or write are kept; time
    stamps and the nested objects of joins are left out, except the joined
    names the roster list searches. Ids are the store's uuid strings. */
module Types {
  import opened Common

  type Id = string

  datatype PayrollStatus = Pending | Approved | Paid

  datatype BulkPayrollStatus = Draft | Processing | Completed | Failed

  datatype BulkPayrollItemStatus = Pending | Processed | Failed

  datatype RosterStatus = Pending | Confirmed | Cancelled
  {
    /** The string the store holds and the status filter compares with. */
    function Name(): string {
      match this
      case Pending => "pending"
      case Confirmed => "confirmed"
      case Cancelled => "cancelled"
    }
  }

  datatype WorkingHoursStatus = Pending | Approved | Rejected | Paid
  {
    function Name(): string {
      match this
      case Pending => "pending"
      case Approved => "approved"
      case Rejected => "rejected"
      case Paid => "paid"
    }
  }

  /** An employee. `hourlyRate` is optional in the store. */
  datatype Profile = Profile(id: Id, fullName: string, hourlyRate: Option<real>)

  /** A payroll record: one employee's pay for one period. */
  datatype Payroll = Payroll(
    id: Id,
    profileId: Id,
    payPeriodStart: string,
    payPeriodEnd: string,
    totalHours: real,
    hourlyRate: real,
    grossPay: real,
    deductions: real,
    netPay: real,
    status: PayrollStatus)

  /** A bulk payroll run (a batch). `profileId` is the `profile_id` the
      processor reads from the batch row, a field the BulkPayroll interface
      does not declare and that batch creation never writes. */
  datatype BulkPayroll = BulkPayroll(
    id: Id,
    name: string,
    description: string,
    payPeriodStart: string,
    payPeriodEnd: string,
    createdBy: Id,
    status: BulkPayrollStatus,
    totalRecords: nat,
    processedRecords: nat,
    totalAmount: real,
    profileId: Option<Id>)

  /** One employee's unit of work within a bulk payroll run. */
  datatype BulkPayrollItem = BulkPayrollItem(
    id: Id,
    bulkPayrollId: Id,
    profileId: Id,
    payrollId: Option<Id>,
    status: BulkPayrollItemStatus,
    errorMessage: Option<string>)

  /** A roster (shift schedule) as the roster list fetches it: the row and
      the names of its joined profile, client and project. */
  datatype Roster = Roster(
    id: Id,
    profileId: Id,
    clientId: Id,
    projectId: Id,
    date: string,
    startTime: string,
    endTime: string,
    totalHours: real,
    status: RosterStatus,
    notes: Option<string>,
    name: Option<string>,
    expectedProfiles: Option<int>,
    perHourRate: Option<real>,
    endDate: Option<string>,
    profileName: Option<string>,
    clientName: Option<string>,
    projectName: Option<string>)

  /** A working-hours entry. */
  datatype WorkingHour = WorkingHour(
    id: Id,
    profileId: Id,
    clientId: Id,
    projectId: Id,
    date: string,
    startTime: string,
    endTime: string,
    totalHours: real,
    status: WorkingHoursStatus,
    rosterId: Option<Id>,
    signInTime: Option<string>,
    signOutTime: Option<string>,
    actualHours: Option<real>,
    overtimeHours: Option<real>,
    hourlyRate: Option<real>,
    payableAmount: Option<real>,
    notes: Option<string>)

  function ProfileKey(p: Profile): Id {
    p.id
  }

  /** `profiles.find(p => p.id === id)`. */
  function FindProfile(profiles: seq<Profile>, id: Id): (r: Option<Profile>)
    ensures r.Some? ==> r.value in profiles && r.value.id == id
    ensures r.Some? ==> exists i :: 0 <= i < |profiles| && profiles[i] == r.value &&
                                    forall j :: 0 <= j < i ==> profiles[j].id != id
    ensures r.None? <==> forall i :: 0 <= i < |profiles| ==> profiles[i].id != id
  {
    Find(profiles, ProfileKey, id)
  }
}
