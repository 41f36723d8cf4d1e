/** The bulk payroll pipeline of src/components/salary/BulkSalaryProcessor.tsx.

    A bulk payroll (a batch) is created in state draft with one pending item
    per selected employee; starting it sets the batch to processing, processes
    the items one after the other, each inserting a payroll record and
    incrementing the batch's processed_records counter, and sets the batch to
    completed, or to failed when a batch-level store call throws.

    The record store is four maps from id to row. Every call to it is given
    its reply as an input (`Reply`, and the id the store generates for an
    insert), so the new state is a function of the old state and the replies:
    `Create`, `ItemStep`, `RunItems` and `StartRun` below. The class
    `Processor` holds the tables as fields and its methods are proved to
    change them exactly as these functions say; the lemmas state what the
    pipeline promises about them. */
module BulkSalaryProcessor {
  import opened Common
  import opened Types

  /** The tables the pipeline reads and writes. */
  datatype Tables = Tables(
    batches: map<Id, BulkPayroll>,
    items: map<Id, BulkPayrollItem>,
    payrolls: map<Id, Payroll>,
    profiles: map<Id, Profile>)

  /** Rate used when the profile's hourly_rate is absent or zero. */
  const DefaultHourlyRate: real := 25.0
  /** The fixed number of hours every payroll record is computed for. */
  const PlaceholderHours: real := 40.0
  /** Share of the gross pay withheld as deductions. */
  const DeductionRate: real := 0.1

  /** The error `.single()` raises when no row matches. */
  const NoRowsMessage: string := "no rows returned"
  /** The error raised when the profile list is empty, so `profiles[0].id` is undefined. */
  const NoCreatorMessage: string := "profiles[0] is undefined"

  // ===========================================================================
  // Creating a batch (createBulkPayroll)

  /** The create dialog's form. */
  datatype BulkForm = BulkForm(
    name: string,
    description: string,
    payPeriodStart: string,
    payPeriodEnd: string)

  /** The store's replies to the two inserts of createBulkPayroll, with the
      ids it generates for the batch and for each item. */
  datatype CreateReplies = CreateReplies(
    batchInsert: Reply,
    batchId: Id,
    itemsInsert: Reply,
    itemIds: seq<Id>)

  datatype CreateResult = Created(batchId: Id) | ValidationError | CreateFailed(message: string)

  /** The validation of createBulkPayroll: name and both period ends are
      filled in and at least one profile is selected. */
  predicate FormComplete(form: BulkForm, selected: seq<Id>) {
    form.name != "" && form.payPeriodStart != "" && form.payPeriodEnd != "" && |selected| > 0
  }

  /** The batch row createBulkPayroll inserts. */
  function NewBatch(form: BulkForm, id: Id, createdBy: Id, count: nat): (b: BulkPayroll)
    ensures b.id == id && b.status == Draft && b.profileId.None?
    ensures b.totalRecords == count && b.processedRecords == 0 && b.totalAmount == 0.0
  {
    BulkPayroll(id, form.name, form.description, form.payPeriodStart, form.payPeriodEnd,
                createdBy, Draft, count, 0, 0.0, None)
  }

  /** `selectedProfiles.map(...)`: the item rows, one per selected profile. */
  function NewItems(batchId: Id, selected: seq<Id>, ids: seq<Id>): (rows: seq<BulkPayrollItem>)
    requires |ids| == |selected|
    ensures |rows| == |selected|
    ensures forall k :: 0 <= k < |rows| ==> rows[k].id == ids[k]
  {
    seq(|selected|, k requires 0 <= k < |selected| =>
      BulkPayrollItem(ids[k], batchId, selected[k], None, BulkPayrollItemStatus.Pending, None))
  }

  /** A bulk insert of rows into a table keyed by the rows' ids. */
  function InsertAll(m: map<Id, BulkPayrollItem>, rows: seq<BulkPayrollItem>): map<Id, BulkPayrollItem>
    decreases |rows|
  {
    if rows == [] then m
    else
      var n := |rows| - 1;
      InsertAll(m, rows[..n])[rows[n].id := rows[n]]
  }

  /** What createBulkPayroll does to the tables, and what it reports. */
  function Create(t: Tables, form: BulkForm, selected: seq<Id>, creators: seq<Profile>,
                  r: CreateReplies): (u: (Tables, CreateResult))
    requires |r.itemIds| == |selected|
    ensures u.0.profiles == t.profiles && u.0.payrolls == t.payrolls
    ensures !u.1.Created? ==> u.0.items == t.items
    ensures u.1.Created? ==> u.1.batchId == r.batchId && r.batchId in u.0.batches
  {
    if !FormComplete(form, selected) then (t, ValidationError)
    else if creators == [] then (t, CreateFailed(NoCreatorMessage))
    else if r.batchInsert.Err? then (t, CreateFailed(r.batchInsert.message))
    else
      var batch := NewBatch(form, r.batchId, creators[0].id, |selected|);
      var t1 := t.(batches := t.batches[r.batchId := batch]);
      if r.itemsInsert.Err? then (t1, CreateFailed(r.itemsInsert.message))
      else (t1.(items := InsertAll(t1.items, NewItems(r.batchId, selected, r.itemIds))),
            Created(r.batchId))
  }

  // ===========================================================================
  // Processing one item (processPayrollItem)

  /** The store's replies to the calls of one processPayrollItem: the profile
      select, the payroll insert (and the id it generates), the item update,
      the increment_processed_records call, and the update that marks the
      item failed in the catch block. */
  datatype ItemReplies = ItemReplies(
    profileRead: Reply,
    payrollInsert: Reply,
    payrollId: Id,
    itemUpdate: Reply,
    increment: Reply,
    failureMark: Reply)

  /** `profile?.hourly_rate || 25`. */
  function HourlyRate(p: Profile): (rate: real)
    ensures rate != 0.0
    ensures rate == DefaultHourlyRate || p.hourlyRate == Some(rate)
  {
    if p.hourlyRate.Some? && p.hourlyRate.value != 0.0 then p.hourlyRate.value else DefaultHourlyRate
  }

  /** The pay identities every computed payroll record satisfies. */
  predicate PayIdentities(p: Payroll) {
    && p.grossPay == p.hourlyRate * p.totalHours
    && p.deductions == p.grossPay * DeductionRate
    && p.netPay == p.grossPay - p.deductions
  }

  /** The payroll record computed for a profile's rate over a batch's period. */
  function PayrollFor(id: Id, profileId: Id, batch: BulkPayroll, rate: real): (p: Payroll)
    ensures PayIdentities(p) && p.totalHours == PlaceholderHours && p.hourlyRate == rate
    ensures p.netPay == 36.0 * rate
    ensures p.payPeriodStart == batch.payPeriodStart && p.payPeriodEnd == batch.payPeriodEnd
    ensures p.status == PayrollStatus.Pending && p.id == id && p.profileId == profileId
  {
    var gross := rate * PlaceholderHours;
    var deductions := gross * DeductionRate;
    Payroll(id, profileId, batch.payPeriodStart, batch.payPeriodEnd, PlaceholderHours,
            rate, gross, deductions, gross - deductions, PayrollStatus.Pending)
  }

  /** The item succeeds when its profile, looked up by the batch's
      profile_id, exists and the insert, update and increment all land. */
  predicate Succeeds(profiles: map<Id, Profile>, batch: BulkPayroll, r: ItemReplies) {
    && r.profileRead.Ok?
    && batch.profileId.Some? && batch.profileId.value in profiles
    && r.payrollInsert.Ok? && r.itemUpdate.Ok? && r.increment.Ok?
  }

  /** The try block of processPayrollItem: the tables after the writes that
      landed, and the message of the error it threw, if any. */
  function TryItem(t: Tables, batch: BulkPayroll, itemId: Id, r: ItemReplies): (u: (Tables, Option<string>))
    ensures u.0.profiles == t.profiles && u.0.batches.Keys == t.batches.Keys && u.0.items.Keys == t.items.Keys
    ensures u.1.Some? ==> u.0.batches == t.batches
  {
    if r.profileRead.Err? then (t, Some(r.profileRead.message))
    else if batch.profileId.None? || batch.profileId.value !in t.profiles then (t, Some(NoRowsMessage))
    else
      var profileId := batch.profileId.value;
      var row := PayrollFor(r.payrollId, profileId, batch, HourlyRate(t.profiles[profileId]));
      if r.payrollInsert.Err? then (t, Some(r.payrollInsert.message))
      else
        var t1 := t.(payrolls := t.payrolls[r.payrollId := row]);
        if r.itemUpdate.Err? then (t1, Some(r.itemUpdate.message))
        else
          var t2 := t1.(items := MarkProcessed(t1.items, itemId, r.payrollId));
          if r.increment.Err? then (t2, Some(r.increment.message))
          else (t2.(batches := Increment(t2.batches, batch.id)), None)
  }

  /** `update({status: 'processed', payroll_id}).eq('id', itemId)`. */
  function MarkProcessed(items: map<Id, BulkPayrollItem>, id: Id, payrollId: Id): map<Id, BulkPayrollItem> {
    if id in items then items[id := items[id].(status := Processed, payrollId := Some(payrollId))]
    else items
  }

  /** `update({status: 'failed', error_message}).eq('id', itemId)`. */
  function MarkFailed(items: map<Id, BulkPayrollItem>, id: Id, message: string): map<Id, BulkPayrollItem> {
    if id in items
    then items[id := items[id].(status := BulkPayrollItemStatus.Failed, errorMessage := Some(message))]
    else items
  }

  /** The increment_processed_records remote procedure. */
  function Increment(batches: map<Id, BulkPayroll>, id: Id): map<Id, BulkPayroll> {
    if id in batches then batches[id := batches[id].(processedRecords := batches[id].processedRecords + 1)]
    else batches
  }

  /** `update({status}).eq('id', id)` on the batch table. */
  function SetStatus(batches: map<Id, BulkPayroll>, id: Id, s: BulkPayrollStatus): map<Id, BulkPayroll> {
    if id in batches then batches[id := batches[id].(status := s)] else batches
  }

  /** processPayrollItem: the try block, then, if it threw, the catch block's
      update marking the item failed with the error's message. */
  function ItemStep(t: Tables, batch: BulkPayroll, itemId: Id, r: ItemReplies): (u: Tables)
    ensures u.profiles == t.profiles && u.batches.Keys == t.batches.Keys && u.items.Keys == t.items.Keys
  {
    var (t1, error) := TryItem(t, batch, itemId, r);
    if error.Some? && r.failureMark.Ok? then t1.(items := MarkFailed(t1.items, itemId, error.value))
    else t1
  }

  /** The loop of startBulkPayroll over the listed items, in order. */
  function RunItems(t: Tables, batch: BulkPayroll, listing: seq<Id>, replies: seq<ItemReplies>): (u: Tables)
    requires |replies| == |listing|
    ensures u.profiles == t.profiles
    ensures u.batches.Keys == t.batches.Keys && u.items.Keys == t.items.Keys
    decreases |listing|
  {
    if listing == [] then t
    else
      var n := |listing| - 1;
      ItemStep(RunItems(t, batch, listing[..n], replies[..n]), batch, listing[n], replies[n])
  }

  /** How many items of a run succeed. */
  function SuccessCount(profiles: map<Id, Profile>, batch: BulkPayroll, replies: seq<ItemReplies>): (c: nat)
    ensures c <= |replies|
    decreases |replies|
  {
    if replies == [] then 0
    else
      var n := |replies| - 1;
      SuccessCount(profiles, batch, replies[..n]) + (if Succeeds(profiles, batch, replies[n]) then 1 else 0)
  }

  // ===========================================================================
  // Running a batch (startBulkPayroll)

  /** The store's replies to the batch-level calls of startBulkPayroll: the
      batch select, the items select, the update to processing, the update
      to completed, and the update to failed in the catch block. */
  datatype RunReplies = RunReplies(
    batchRead: Reply,
    itemsRead: Reply,
    processingUpdate: Reply,
    completedUpdate: Reply,
    failedUpdate: Reply)

  /** What startBulkPayroll reports: no items, completed, or failed with the thrown message. */
  datatype RunResult = NoItems | RunCompleted | RunFailed(message: string)

  /** `listing` is what the items select returns: each item of the batch once. */
  predicate IsListing(t: Tables, batchId: Id, listing: seq<Id>) {
    && (forall i, j :: 0 <= i < j < |listing| ==> listing[i] != listing[j])
    && (forall i :: 0 <= i < |listing| ==>
          listing[i] in t.items && t.items[listing[i]].bulkPayrollId == batchId)
    && (forall k :: k in t.items && t.items[k].bulkPayrollId == batchId ==> k in listing)
  }

  /** The catch block of startBulkPayroll: mark the batch failed. */
  function AbortRun(t: Tables, batchId: Id, message: string, failedUpdate: Reply): (Tables, RunResult) {
    (if failedUpdate.Ok? then t.(batches := SetStatus(t.batches, batchId, BulkPayrollStatus.Failed)) else t,
     RunFailed(message))
  }

  /** What startBulkPayroll does to the tables, and what it reports. */
  function StartRun(t: Tables, batchId: Id, listing: seq<Id>, rr: RunReplies,
                    replies: seq<ItemReplies>): (r: (Tables, RunResult))
    requires |replies| == |listing|
    ensures r.0.batches.Keys == t.batches.Keys
  {
    if rr.batchRead.Err? then AbortRun(t, batchId, rr.batchRead.message, rr.failedUpdate)
    else if batchId !in t.batches then AbortRun(t, batchId, NoRowsMessage, rr.failedUpdate)
    else if rr.itemsRead.Err? then AbortRun(t, batchId, rr.itemsRead.message, rr.failedUpdate)
    else if listing == [] then (t, NoItems)
    else if rr.processingUpdate.Err? then AbortRun(t, batchId, rr.processingUpdate.message, rr.failedUpdate)
    else
      var batch := t.batches[batchId];
      var t1 := t.(batches := SetStatus(t.batches, batchId, Processing));
      var t2 := RunItems(t1, batch, listing, replies);
      if rr.completedUpdate.Err? then AbortRun(t2, batchId, rr.completedUpdate.message, rr.failedUpdate)
      else (t2.(batches := SetStatus(t2.batches, batchId, Completed)), RunCompleted)
  }

  // ===========================================================================
  // What creating a batch promises

  /** Missing fields or an empty selection are rejected before any write. */
  lemma CreateValidates(t: Tables, form: BulkForm, selected: seq<Id>, creators: seq<Profile>, r: CreateReplies)
    requires |r.itemIds| == |selected|
    ensures Create(t, form, selected, creators, r).1 == ValidationError <==> !FormComplete(form, selected)
    ensures !FormComplete(form, selected) ==> Create(t, form, selected, creators, r).0 == t
  {
  }

  /** A created batch is a draft counting the selected profiles, with nothing
      processed, a zero total and no profile_id, created by the first profile. */
  lemma CreatedBatchShape(t: Tables, form: BulkForm, selected: seq<Id>, creators: seq<Profile>, r: CreateReplies)
    requires |r.itemIds| == |selected|
    requires Create(t, form, selected, creators, r).1.Created?
    ensures Create(t, form, selected, creators, r).1 == Created(r.batchId)
    ensures var b := Create(t, form, selected, creators, r).0.batches[r.batchId];
            && b.status == Draft && b.totalRecords == |selected|
            && b.processedRecords == 0 && b.totalAmount == 0.0 && b.profileId.None?
            && b.name == form.name && b.payPeriodStart == form.payPeriodStart
            && b.payPeriodEnd == form.payPeriodEnd && b.createdBy == creators[0].id
    ensures forall k :: k in t.batches && k != r.batchId ==>
              Create(t, form, selected, creators, r).0.batches[k] == t.batches[k]
  {
  }

  /** The bulk insert stores each row under its id. */
  lemma {:induction false} InsertAllStores(m: map<Id, BulkPayrollItem>, rows: seq<BulkPayrollItem>)
    requires forall i, j :: 0 <= i < j < |rows| ==> rows[i].id != rows[j].id
    ensures forall i :: 0 <= i < |rows| ==> rows[i].id in InsertAll(m, rows) && InsertAll(m, rows)[rows[i].id] == rows[i]
    decreases |rows|
  {
    if rows != [] {
      var n := |rows| - 1;
      InsertAllStores(m, rows[..n]);
      assert forall i :: 0 <= i < n ==> rows[..n][i] == rows[i];
    }
  }

  /** The bulk insert adds the rows' ids and no other key. */
  lemma {:induction false} InsertAllKeys(m: map<Id, BulkPayrollItem>, rows: seq<BulkPayrollItem>)
    ensures forall k :: k in InsertAll(m, rows) <==> k in m || exists i :: 0 <= i < |rows| && rows[i].id == k
    decreases |rows|
  {
    if rows != [] {
      var n := |rows| - 1;
      InsertAllKeys(m, rows[..n]);
      assert forall i :: 0 <= i < n ==> rows[..n][i] == rows[i];
    }
  }

  /** The bulk insert keeps every row whose id is not inserted. */
  lemma {:induction false} InsertAllKeeps(m: map<Id, BulkPayrollItem>, rows: seq<BulkPayrollItem>, k: Id)
    requires k in m && forall i :: 0 <= i < |rows| ==> rows[i].id != k
    ensures k in InsertAll(m, rows) && InsertAll(m, rows)[k] == m[k]
    decreases |rows|
  {
    if rows != [] {
      InsertAllKeeps(m, rows[..|rows| - 1], k);
    }
  }

  /** Inserting rows with distinct fresh ids grows the table by their number. */
  lemma {:induction false} InsertAllSize(m: map<Id, BulkPayrollItem>, rows: seq<BulkPayrollItem>)
    requires forall i, j :: 0 <= i < j < |rows| ==> rows[i].id != rows[j].id
    requires forall i :: 0 <= i < |rows| ==> rows[i].id !in m
    ensures |InsertAll(m, rows)| == |m| + |rows|
    decreases |rows|
  {
    if rows != [] {
      var n := |rows| - 1;
      InsertAllSize(m, rows[..n]);
      InsertAllKeys(m, rows[..n]);
      assert rows[n].id !in InsertAll(m, rows[..n]);
    }
  }

  /** Exactly one pending item per selected profile, in selection order, each
      referencing the new batch; items already stored are kept. */
  lemma CreatedItems(t: Tables, form: BulkForm, selected: seq<Id>, creators: seq<Profile>, r: CreateReplies)
    requires |r.itemIds| == |selected|
    requires forall i, j :: 0 <= i < j < |r.itemIds| ==> r.itemIds[i] != r.itemIds[j]
    requires forall i :: 0 <= i < |r.itemIds| ==> r.itemIds[i] !in t.items
    requires Create(t, form, selected, creators, r).1.Created?
    ensures var u := Create(t, form, selected, creators, r).0;
            && |u.items| == |t.items| + |selected|
            && (forall k :: 0 <= k < |selected| ==>
                  r.itemIds[k] in u.items &&
                  u.items[r.itemIds[k]] == BulkPayrollItem(r.itemIds[k], r.batchId, selected[k], None,
                                                            BulkPayrollItemStatus.Pending, None))
            && (forall k :: k in u.items && k !in t.items ==> exists i :: 0 <= i < |selected| && r.itemIds[i] == k)
            && (forall k :: k in t.items ==> k in u.items && u.items[k] == t.items[k])
  {
    var rows := NewItems(r.batchId, selected, r.itemIds);
    InsertAllStores(t.items, rows);
    InsertAllKeys(t.items, rows);
    InsertAllSize(t.items, rows);
    forall k | k in t.items
      ensures k in InsertAll(t.items, rows) && InsertAll(t.items, rows)[k] == t.items[k]
    {
      InsertAllKeeps(t.items, rows, k);
    }
  }

  /** When the item insert fails the batch row stays behind with no items. */
  lemma OrphanBatchWhenItemsFail(t: Tables, form: BulkForm, selected: seq<Id>, creators: seq<Profile>, r: CreateReplies)
    requires |r.itemIds| == |selected|
    requires FormComplete(form, selected) && creators != []
    requires r.batchInsert.Ok? && r.itemsInsert.Err?
    ensures Create(t, form, selected, creators, r).1 == CreateFailed(r.itemsInsert.message)
    ensures Create(t, form, selected, creators, r).0.items == t.items
    ensures r.batchId in Create(t, form, selected, creators, r).0.batches
  {
  }

  // ===========================================================================
  // What processing items promises

  /** The message of the error the try block of processPayrollItem throws. */
  function ItemError(profiles: map<Id, Profile>, batch: BulkPayroll, r: ItemReplies): Option<string> {
    if r.profileRead.Err? then Some(r.profileRead.message)
    else if batch.profileId.None? || batch.profileId.value !in profiles then Some(NoRowsMessage)
    else if r.payrollInsert.Err? then Some(r.payrollInsert.message)
    else if r.itemUpdate.Err? then Some(r.itemUpdate.message)
    else if r.increment.Err? then Some(r.increment.message)
    else None
  }

  /** The payroll record a run computes for the batch's profile. */
  predicate ComputedFor(p: Payroll, profiles: map<Id, Profile>, batch: BulkPayroll) {
    && batch.profileId.Some? && batch.profileId.value in profiles
    && p == PayrollFor(p.id, batch.profileId.value, batch, HourlyRate(profiles[batch.profileId.value]))
  }

  /** One processPayrollItem, as far as the batches go: the counter moves by
      one exactly when the item succeeds, which is exactly when the try
      block throws nothing. */
  lemma ItemStepBatches(t: Tables, batch: BulkPayroll, itemId: Id, r: ItemReplies)
    ensures ItemStep(t, batch, itemId, r).profiles == t.profiles
    ensures ItemStep(t, batch, itemId, r).batches ==
            (if Succeeds(t.profiles, batch, r) then Increment(t.batches, batch.id) else t.batches)
    ensures Succeeds(t.profiles, batch, r) <==> ItemError(t.profiles, batch, r).None?
    ensures TryItem(t, batch, itemId, r).1 == ItemError(t.profiles, batch, r)
  {
  }

  /** One processPayrollItem, as far as the items go: only the item itself
      changes; it is processed on success and failed, with the error's
      message, when the failure update lands. */
  lemma ItemStepItems(t: Tables, batch: BulkPayroll, itemId: Id, r: ItemReplies)
    ensures ItemStep(t, batch, itemId, r).items.Keys == t.items.Keys
    ensures forall k :: k in t.items && k != itemId ==> ItemStep(t, batch, itemId, r).items[k] == t.items[k]
    ensures Succeeds(t.profiles, batch, r) ==> ItemStep(t, batch, itemId, r).items == MarkProcessed(t.items, itemId, r.payrollId)
    ensures !Succeeds(t.profiles, batch, r) && r.failureMark.Ok? && itemId in t.items ==>
              ItemStep(t, batch, itemId, r).items[itemId].status == BulkPayrollItemStatus.Failed &&
              ItemStep(t, batch, itemId, r).items[itemId].errorMessage == ItemError(t.profiles, batch, r)
  {
    ItemStepBatches(t, batch, itemId, r);
  }

  /** One processPayrollItem, as far as the payrolls go: at most the computed
      row is written, under the id the insert returned. */
  lemma ItemStepPayrolls(t: Tables, batch: BulkPayroll, itemId: Id, r: ItemReplies)
    ensures var u := ItemStep(t, batch, itemId, r);
            u.payrolls == t.payrolls ||
            (r.payrollId in u.payrolls && ComputedFor(u.payrolls[r.payrollId], t.profiles, batch)
             && u.payrolls == t.payrolls[r.payrollId := u.payrolls[r.payrollId]])
  {
  }

  /** One processPayrollItem: the counter moves by one exactly when the item
      succeeds, only the item itself changes among the items, and the only
      payroll row written is the computed one. */
  lemma ItemStepEffect(t: Tables, batch: BulkPayroll, itemId: Id, r: ItemReplies)
    ensures var u := ItemStep(t, batch, itemId, r);
            && u.profiles == t.profiles
            && u.batches == (if Succeeds(t.profiles, batch, r) then Increment(t.batches, batch.id) else t.batches)
            && u.items.Keys == t.items.Keys
            && (forall k :: k in t.items && k != itemId ==> u.items[k] == t.items[k])
            && (u.payrolls == t.payrolls ||
                (r.payrollId in u.payrolls && ComputedFor(u.payrolls[r.payrollId], t.profiles, batch)
                 && u.payrolls == t.payrolls[r.payrollId := u.payrolls[r.payrollId]]))
    ensures Succeeds(t.profiles, batch, r) <==> ItemError(t.profiles, batch, r).None?
    ensures TryItem(t, batch, itemId, r).1 == ItemError(t.profiles, batch, r)
    ensures Succeeds(t.profiles, batch, r) ==> ItemStep(t, batch, itemId, r).items == MarkProcessed(t.items, itemId, r.payrollId)
    ensures !Succeeds(t.profiles, batch, r) && r.failureMark.Ok? && itemId in t.items ==>
              ItemStep(t, batch, itemId, r).items[itemId].status == BulkPayrollItemStatus.Failed &&
              ItemStep(t, batch, itemId, r).items[itemId].errorMessage == ItemError(t.profiles, batch, r)
  {
    ItemStepBatches(t, batch, itemId, r);
    ItemStepItems(t, batch, itemId, r);
    ItemStepPayrolls(t, batch, itemId, r);
  }

  /** A run over the items never changes a batch's status, name, period or
      totals: it only adds the number of succeeding items to the counter of
      the batch it runs for. */
  lemma {:induction false} RunItemsBatches(t: Tables, batch: BulkPayroll, listing: seq<Id>, replies: seq<ItemReplies>)
    requires |replies| == |listing|
    ensures RunItems(t, batch, listing, replies).profiles == t.profiles
    ensures RunItems(t, batch, listing, replies).batches.Keys == t.batches.Keys
    ensures forall k :: k in t.batches ==>
              RunItems(t, batch, listing, replies).batches[k] ==
              t.batches[k].(processedRecords := t.batches[k].processedRecords +
                                                (if k == batch.id then SuccessCount(t.profiles, batch, replies) else 0))
    decreases |listing|
  {
    if listing != [] {
      var n := |listing| - 1;
      RunItemsBatches(t, batch, listing[..n], replies[..n]);
      ItemStepEffect(RunItems(t, batch, listing[..n], replies[..n]), batch, listing[n], replies[n]);
    }
  }

  /** processPayrollItem writes no item but its own. */
  lemma ItemStepOthers(t: Tables, batch: BulkPayroll, itemId: Id, r: ItemReplies, k: Id)
    requires k in t.items && k != itemId
    ensures k in ItemStep(t, batch, itemId, r).items && ItemStep(t, batch, itemId, r).items[k] == t.items[k]
  {
  }

  /** processPayrollItem reads only the item's own row and the profiles. */
  lemma ItemStepLocal(t: Tables, t': Tables, batch: BulkPayroll, itemId: Id, r: ItemReplies)
    requires t.profiles == t'.profiles
    requires itemId in t.items && itemId in t'.items && t.items[itemId] == t'.items[itemId]
    ensures itemId in ItemStep(t, batch, itemId, r).items && itemId in ItemStep(t', batch, itemId, r).items
    ensures ItemStep(t, batch, itemId, r).items[itemId] == ItemStep(t', batch, itemId, r).items[itemId]
  {
  }

  /** A run leaves the items it does not list untouched. */
  lemma {:induction false} RunItemsUnlisted(t: Tables, batch: BulkPayroll, listing: seq<Id>, replies: seq<ItemReplies>, k: Id)
    requires |replies| == |listing|
    requires k in t.items && k !in listing
    ensures k in RunItems(t, batch, listing, replies).items
    ensures RunItems(t, batch, listing, replies).items[k] == t.items[k]
    decreases |listing|
  {
    if listing != [] {
      var n := |listing| - 1;
      assert k !in listing[..n];
      RunItemsUnlisted(t, batch, listing[..n], replies[..n], k);
      ItemStepOthers(RunItems(t, batch, listing[..n], replies[..n]), batch, listing[n], replies[n], k);
    }
  }

  /** Items of a run do not interfere: each listed item ends exactly as if it
      had been processed alone from the initial tables. */
  lemma {:induction false} RunItemsListed(t: Tables, batch: BulkPayroll, listing: seq<Id>, replies: seq<ItemReplies>, j: nat)
    requires |replies| == |listing|
    requires forall i, i' :: 0 <= i < i' < |listing| ==> listing[i] != listing[i']
    requires j < |listing| && listing[j] in t.items
    ensures listing[j] in RunItems(t, batch, listing, replies).items
    ensures RunItems(t, batch, listing, replies).items[listing[j]] ==
            ItemStep(t, batch, listing[j], replies[j]).items[listing[j]]
    decreases |listing|
  {
    var n := |listing| - 1;
    var mid := RunItems(t, batch, listing[..n], replies[..n]);
    if j < n {
      assert listing[..n][j] == listing[j] && replies[..n][j] == replies[j];
      RunItemsListed(t, batch, listing[..n], replies[..n], j);
      ItemStepOthers(mid, batch, listing[n], replies[n], listing[j]);
    } else {
      assert listing[n] !in listing[..n];
      RunItemsUnlisted(t, batch, listing[..n], replies[..n], listing[n]);
      ItemStepLocal(mid, t, batch, listing[n], replies[n]);
    }
  }

  /** A run keeps every payroll row and adds only rows computed from the
      batch's profile: hours 40, rate from the profile or 25, gross = rate x
      hours, deductions = 10% of gross, net = gross - deductions, pending. */
  lemma {:induction false} RunItemsPayrolls(t: Tables, batch: BulkPayroll, listing: seq<Id>, replies: seq<ItemReplies>)
    requires |replies| == |listing|
    ensures t.payrolls.Keys <= RunItems(t, batch, listing, replies).payrolls.Keys
    ensures forall k :: k in RunItems(t, batch, listing, replies).payrolls ==>
              (k in t.payrolls && RunItems(t, batch, listing, replies).payrolls[k] == t.payrolls[k]) ||
              ComputedFor(RunItems(t, batch, listing, replies).payrolls[k], t.profiles, batch)
    ensures (batch.profileId.None? || batch.profileId.value !in t.profiles) ==>
              RunItems(t, batch, listing, replies).payrolls == t.payrolls
    decreases |listing|
  {
    if listing != [] {
      var n := |listing| - 1;
      RunItemsPayrolls(t, batch, listing[..n], replies[..n]);
      RunItemsBatches(t, batch, listing[..n], replies[..n]);
      ItemStepEffect(RunItems(t, batch, listing[..n], replies[..n]), batch, listing[n], replies[n]);
    }
  }

  /** When every insert returns an id the payroll table does not hold yet,
      as a generated id is, a run keeps every existing payroll row. */
  lemma {:induction false} RunItemsKeepsPayrolls(t: Tables, batch: BulkPayroll, listing: seq<Id>,
                                                 replies: seq<ItemReplies>, k: Id)
    requires |replies| == |listing|
    requires forall i :: 0 <= i < |replies| ==> replies[i].payrollId !in t.payrolls
    requires k in t.payrolls
    ensures k in RunItems(t, batch, listing, replies).payrolls
    ensures RunItems(t, batch, listing, replies).payrolls[k] == t.payrolls[k]
    decreases |listing|
  {
    if listing != [] {
      var n := |listing| - 1;
      assert forall i :: 0 <= i < |replies[..n]| ==> replies[..n][i].payrollId !in t.payrolls;
      RunItemsKeepsPayrolls(t, batch, listing[..n], replies[..n], k);
      assert replies[n].payrollId != k;
      ItemStepPayrolls(RunItems(t, batch, listing[..n], replies[..n]), batch, listing[n], replies[n]);
    }
  }

  /** Every row a run computes satisfies the pay identities and is pending. */
  lemma ComputedPayIsConsistent(p: Payroll, profiles: map<Id, Profile>, batch: BulkPayroll)
    requires ComputedFor(p, profiles, batch)
    ensures PayIdentities(p) && p.totalHours == 40.0 && p.status == PayrollStatus.Pending
    ensures var hr := profiles[batch.profileId.value].hourlyRate;
            p.hourlyRate == if hr.Some? && hr.value != 0.0 then hr.value else 25.0
    ensures p.netPay == 0.9 * p.grossPay
  {
  }

  /** Without a profile behind the batch's profile_id no item can succeed. */
  lemma {:induction false} NoProfileNoSuccess(profiles: map<Id, Profile>, batch: BulkPayroll, replies: seq<ItemReplies>)
    requires batch.profileId.None? || batch.profileId.value !in profiles
    ensures SuccessCount(profiles, batch, replies) == 0
    decreases |replies|
  {
    if replies != [] {
      NoProfileNoSuccess(profiles, batch, replies[..|replies| - 1]);
    }
  }

  // ===========================================================================
  // What running a batch promises

  /** The items of a run are those the store listed and the run reached the loop. */
  predicate ReachedLoop(t: Tables, batchId: Id, listing: seq<Id>, rr: RunReplies) {
    rr.batchRead.Ok? && batchId in t.batches && rr.itemsRead.Ok? && listing != [] && rr.processingUpdate.Ok?
  }

  /** The batch state machine. No items: nothing changes (the batch is not
      failed). Completed exactly when every batch-level call lands, whatever
      the items do. Failed otherwise, persisted when the failure update lands;
      if that update is lost too the batch keeps its status or stays processing. */
  lemma StartRunOutcome(t: Tables, batchId: Id, listing: seq<Id>, rr: RunReplies, replies: seq<ItemReplies>)
    requires |replies| == |listing|
    ensures var (u, res) := StartRun(t, batchId, listing, rr, replies);
            && (res == NoItems <==> rr.batchRead.Ok? && batchId in t.batches && rr.itemsRead.Ok? && listing == [])
            && (res == NoItems ==> u == t)
            && (res == RunCompleted <==> ReachedLoop(t, batchId, listing, rr) && rr.completedUpdate.Ok?)
            && (res == RunCompleted ==> u.batches[batchId].status == Completed)
            && (res.RunFailed? && rr.failedUpdate.Ok? && batchId in t.batches ==>
                  u.batches[batchId].status == BulkPayrollStatus.Failed)
            && (res.RunFailed? && rr.failedUpdate.Err? && batchId in t.batches ==>
                  u.batches[batchId].status == (if ReachedLoop(t, batchId, listing, rr) then Processing
                                                else t.batches[batchId].status))
            && u.batches.Keys == t.batches.Keys
  {
    if ReachedLoop(t, batchId, listing, rr) {
      var t1 := t.(batches := SetStatus(t.batches, batchId, Processing));
      RunItemsBatches(t1, t.batches[batchId], listing, replies);
    }
  }

  /** A failing item never fails the batch: the outcome and the batch's final
      status do not depend on what the item calls reply. */
  lemma ItemFailuresNeverFailTheRun(t: Tables, batchId: Id, listing: seq<Id>, rr: RunReplies,
                                    replies: seq<ItemReplies>, others: seq<ItemReplies>)
    requires |replies| == |listing| && |others| == |listing|
    requires batchId in t.batches
    ensures StartRun(t, batchId, listing, rr, replies).1 == StartRun(t, batchId, listing, rr, others).1
    ensures StartRun(t, batchId, listing, rr, replies).0.batches[batchId].status ==
            StartRun(t, batchId, listing, rr, others).0.batches[batchId].status
  {
    StartRunOutcome(t, batchId, listing, rr, replies);
    StartRunOutcome(t, batchId, listing, rr, others);
    if ReachedLoop(t, batchId, listing, rr) {
      var t1 := t.(batches := SetStatus(t.batches, batchId, Processing));
      RunItemsBatches(t1, t.batches[batchId], listing, replies);
      RunItemsBatches(t1, t.batches[batchId], listing, others);
    }
  }

  /** While the items are processed the batch reads as processing. */
  lemma ProcessingWhileItemsRun(t: Tables, batchId: Id, listing: seq<Id>, replies: seq<ItemReplies>, i: nat)
    requires |replies| == |listing| && i <= |listing| && batchId in t.batches
    ensures var t1 := t.(batches := SetStatus(t.batches, batchId, Processing));
            RunItems(t1, t.batches[batchId], listing[..i], replies[..i]).batches[batchId].status == Processing
  {
    var t1 := t.(batches := SetStatus(t.batches, batchId, Processing));
    RunItemsBatches(t1, t.batches[batchId], listing[..i], replies[..i]);
  }

  /** Where startBulkPayroll leaves the batch table once it reached the loop:
      the status it sets on top of the loop's counters. */
  lemma StartRunBatchesAfterLoop(t: Tables, batchId: Id, listing: seq<Id>, rr: RunReplies, replies: seq<ItemReplies>)
    requires |replies| == |listing|
    requires ReachedLoop(t, batchId, listing, rr)
    ensures var t1 := t.(batches := SetStatus(t.batches, batchId, Processing));
            var b2 := RunItems(t1, t.batches[batchId], listing, replies).batches;
            StartRun(t, batchId, listing, rr, replies).0.batches ==
              if rr.completedUpdate.Ok? then SetStatus(b2, batchId, Completed)
              else if rr.failedUpdate.Ok? then SetStatus(b2, batchId, BulkPayrollStatus.Failed)
              else b2
  {
  }

  /** Before the loop startBulkPayroll changes at most the batch's status, to failed. */
  lemma StartRunBatchesBeforeLoop(t: Tables, batchId: Id, listing: seq<Id>, rr: RunReplies, replies: seq<ItemReplies>)
    requires |replies| == |listing|
    requires !ReachedLoop(t, batchId, listing, rr)
    ensures StartRun(t, batchId, listing, rr, replies).0.batches == t.batches ||
            StartRun(t, batchId, listing, rr, replies).0.batches == SetStatus(t.batches, batchId, BulkPayrollStatus.Failed)
  {
  }

  /** processed_records grows by the number of succeeding items, which never
      exceeds the number of listed items; total_amount, total_records and
      every other batch stay as they were. */
  lemma StartRunCounts(t: Tables, batchId: Id, listing: seq<Id>, rr: RunReplies, replies: seq<ItemReplies>)
    requires |replies| == |listing|
    requires batchId in t.batches && t.batches[batchId].id == batchId
    ensures var u := StartRun(t, batchId, listing, rr, replies).0;
            && batchId in u.batches
            && u.batches[batchId].processedRecords == t.batches[batchId].processedRecords +
                 (if ReachedLoop(t, batchId, listing, rr) then SuccessCount(t.profiles, t.batches[batchId], replies) else 0)
            && u.batches[batchId].processedRecords <= t.batches[batchId].processedRecords + |listing|
            && u.batches[batchId].totalAmount == t.batches[batchId].totalAmount
            && u.batches[batchId].totalRecords == t.batches[batchId].totalRecords
            && (forall k :: k in t.batches && k != batchId ==> k in u.batches && u.batches[k] == t.batches[k])
  {
    var b := t.batches[batchId];
    if ReachedLoop(t, batchId, listing, rr) {
      var t1 := t.(batches := SetStatus(t.batches, batchId, Processing));
      RunItemsBatches(t1, b, listing, replies);
      StartRunBatchesAfterLoop(t, batchId, listing, rr, replies);
    } else {
      StartRunBatchesBeforeLoop(t, batchId, listing, rr, replies);
    }
  }

  /** Every batch row is stored under its own id, as the table's primary key
      guarantees. */
  predicate Keyed(t: Tables) {
    forall k :: k in t.batches ==> t.batches[k].id == k
  }

  /** Creating a batch keeps every row under its own id: the new row carries
      the id the insert generated. */
  lemma CreateKeepsKeyed(t: Tables, form: BulkForm, selected: seq<Id>, creators: seq<Profile>, r: CreateReplies)
    requires |r.itemIds| == |selected|
    requires Keyed(t)
    ensures Keyed(Create(t, form, selected, creators, r).0)
  {
  }

  /** processPayrollItem never changes a batch's id. */
  lemma ItemStepKeepsKeyed(t: Tables, batch: BulkPayroll, itemId: Id, r: ItemReplies)
    requires Keyed(t)
    ensures Keyed(ItemStep(t, batch, itemId, r))
  {
    ItemStepBatches(t, batch, itemId, r);
  }

  /** startBulkPayroll never changes a batch's id, so the premise of
      StartRunCounts holds for every stored batch of a keyed store. */
  lemma StartRunKeepsKeyed(t: Tables, batchId: Id, listing: seq<Id>, rr: RunReplies, replies: seq<ItemReplies>)
    requires |replies| == |listing|
    requires Keyed(t)
    ensures Keyed(StartRun(t, batchId, listing, rr, replies).0)
  {
    if ReachedLoop(t, batchId, listing, rr) {
      var t1 := t.(batches := SetStatus(t.batches, batchId, Processing));
      RunItemsBatches(t1, t.batches[batchId], listing, replies);
      StartRunBatchesAfterLoop(t, batchId, listing, rr, replies);
    } else {
      StartRunBatchesBeforeLoop(t, batchId, listing, rr, replies);
    }
  }

  /** A batch created here has no profile_id, so when it is run no payroll
      row is written and processed_records stays 0. */
  lemma CreatedBatchNeverPays(t: Tables, form: BulkForm, selected: seq<Id>, creators: seq<Profile>,
                              cr: CreateReplies, listing: seq<Id>, rr: RunReplies, replies: seq<ItemReplies>)
    requires |cr.itemIds| == |selected| && |replies| == |listing|
    requires Create(t, form, selected, creators, cr).1.Created?
    ensures var t1 := Create(t, form, selected, creators, cr).0;
            var u := StartRun(t1, cr.batchId, listing, rr, replies).0;
            && u.payrolls == t1.payrolls
            && cr.batchId in u.batches && u.batches[cr.batchId].processedRecords == 0
  {
    var t1 := Create(t, form, selected, creators, cr).0;
    var batch := t1.batches[cr.batchId];
    CreatedBatchShape(t, form, selected, creators, cr);
    StartRunCounts(t1, cr.batchId, listing, rr, replies);
    NoProfileNoSuccess(t1.profiles, batch, replies);
    if ReachedLoop(t1, cr.batchId, listing, rr) {
      var s1 := t1.(batches := SetStatus(t1.batches, cr.batchId, Processing));
      RunItemsPayrolls(s1, batch, listing, replies);
    }
  }

  /** Every listed item of a run of a batch without a profile behind its
      profile_id fails; when the update marking it lands it ends failed with
      the error message. */
  lemma NoProfileFailsEveryItem(t: Tables, batch: BulkPayroll, listing: seq<Id>, replies: seq<ItemReplies>, j: nat)
    requires |replies| == |listing|
    requires forall i, i' :: 0 <= i < i' < |listing| ==> listing[i] != listing[i']
    requires batch.profileId.None? || batch.profileId.value !in t.profiles
    requires j < |listing| && listing[j] in t.items && replies[j].failureMark.Ok?
    ensures var u := RunItems(t, batch, listing, replies);
            && listing[j] in u.items
            && u.items[listing[j]].status == BulkPayrollItemStatus.Failed
            && u.items[listing[j]].errorMessage == Some(if replies[j].profileRead.Err? then replies[j].profileRead.message
                                                        else NoRowsMessage)
            && u.items[listing[j]].payrollId == t.items[listing[j]].payrollId
  {
    RunItemsListed(t, batch, listing, replies, j);
  }

  /** One processPayrollItem never reads the batch's status. */
  lemma ItemStepIgnoresStatus(t: Tables, batch: BulkPayroll, s: BulkPayrollStatus, itemId: Id, r: ItemReplies)
    ensures ItemStep(t, batch.(status := s), itemId, r) == ItemStep(t, batch, itemId, r)
  {
  }

  /** processPayrollItem never reads the batch's status. */
  lemma {:induction false} RunItemsIgnoresStatus(t: Tables, batch: BulkPayroll, s: BulkPayrollStatus,
                                                 listing: seq<Id>, replies: seq<ItemReplies>)
    requires |replies| == |listing|
    ensures RunItems(t, batch.(status := s), listing, replies) == RunItems(t, batch, listing, replies)
    decreases |listing|
  {
    if listing != [] {
      var n := |listing| - 1;
      RunItemsIgnoresStatus(t, batch, s, listing[..n], replies[..n]);
      ItemStepIgnoresStatus(RunItems(t, batch, listing[..n], replies[..n]), batch, s, listing[n], replies[n]);
    }
  }

  /** Nothing checks the batch's status before running it: starting a batch
      that already completed or failed processes its items again, exactly as
      starting it as a draft would. */
  lemma RestartReprocesses(t: Tables, batchId: Id, s: BulkPayrollStatus, listing: seq<Id>,
                           rr: RunReplies, replies: seq<ItemReplies>)
    requires |replies| == |listing|
    requires batchId in t.batches
    ensures var t' := t.(batches := t.batches[batchId := t.batches[batchId].(status := s)]);
            ReachedLoop(t, batchId, listing, rr) ==>
              StartRun(t', batchId, listing, rr, replies) == StartRun(t, batchId, listing, rr, replies)
  {
    var t' := t.(batches := t.batches[batchId := t.batches[batchId].(status := s)]);
    var b := t.batches[batchId];
    var t1 := t.(batches := SetStatus(t.batches, batchId, Processing));
    assert t'.(batches := SetStatus(t'.batches, batchId, Processing)) == t1;
    assert t'.batches[batchId] == b.(status := s);
    RunItemsIgnoresStatus(t1, b, s, listing, replies);
  }

  // ===========================================================================
  // The component, over an in-memory store

  class Processor {
    var batches: map<Id, BulkPayroll>
    var items: map<Id, BulkPayrollItem>
    var payrolls: map<Id, Payroll>
    var profiles: map<Id, Profile>
    /** The component's isProcessing flag; it only enables and disables buttons. */
    var isProcessing: bool
    /** The create dialog's isDialogOpen flag. */
    var dialogOpen: bool

    function Snapshot(): Tables
      reads this
    {
      Tables(batches, items, payrolls, profiles)
    }

    constructor (t: Tables)
      ensures Snapshot() == t && !isProcessing && !dialogOpen
    {
      batches, items, payrolls, profiles := t.batches, t.items, t.payrolls, t.profiles;
      isProcessing := false;
      dialogOpen := false;
    }

    /** createBulkPayroll: validate, insert the batch, then insert its items. */
    method CreateBulkPayroll(form: BulkForm, selected: seq<Id>, creators: seq<Profile>, r: CreateReplies)
      returns (result: CreateResult)
      requires |r.itemIds| == |selected|
      modifies this
      ensures (Snapshot(), result) == Create(old(Snapshot()), form, selected, creators, r)
      ensures isProcessing == old(isProcessing)
      ensures dialogOpen == (if result.Created? then false else old(dialogOpen))
    {
      if !FormComplete(form, selected) {
        return ValidationError;
      }
      if creators == [] {
        return CreateFailed(NoCreatorMessage);
      }
      var createdBy := creators[0].id;
      if r.batchInsert.Err? {
        return CreateFailed(r.batchInsert.message);
      }
      batches := batches[r.batchId := NewBatch(form, r.batchId, createdBy, |selected|)];
      var rows := NewItems(r.batchId, selected, r.itemIds);
      if r.itemsInsert.Err? {
        return CreateFailed(r.itemsInsert.message);
      }
      items := InsertAll(items, rows);
      dialogOpen := false;
      result := Created(r.batchId);
    }

    /** processPayrollItem. Every error is caught here: it marks the item
        failed (when that update lands) and never reaches the caller. */
    method ProcessPayrollItem(itemId: Id, batch: BulkPayroll, r: ItemReplies)
      modifies this
      ensures Snapshot() == ItemStep(old(Snapshot()), batch, itemId, r)
      ensures isProcessing == old(isProcessing) && dialogOpen == old(dialogOpen)
    {
      var error: Option<string> := None;
      if r.profileRead.Err? {
        error := Some(r.profileRead.message);
      } else if batch.profileId.None? || batch.profileId.value !in profiles {
        error := Some(NoRowsMessage);
      } else {
        var profileId := batch.profileId.value;
        var hourlyRate := HourlyRate(profiles[profileId]);
        var totalHours := PlaceholderHours;
        var grossPay := hourlyRate * totalHours;
        var deductions := grossPay * DeductionRate;
        var netPay := grossPay - deductions;
        if r.payrollInsert.Err? {
          error := Some(r.payrollInsert.message);
        } else {
          payrolls := payrolls[r.payrollId := Payroll(r.payrollId, profileId, batch.payPeriodStart,
            batch.payPeriodEnd, totalHours, hourlyRate, grossPay, deductions, netPay, PayrollStatus.Pending)];
          if r.itemUpdate.Err? {
            error := Some(r.itemUpdate.message);
          } else {
            if itemId in items {
              items := items[itemId := items[itemId].(status := Processed, payrollId := Some(r.payrollId))];
            }
            if r.increment.Err? {
              error := Some(r.increment.message);
            } else if batch.id in batches {
              batches := batches[batch.id := batches[batch.id].(processedRecords := batches[batch.id].processedRecords + 1)];
            }
          }
        }
      }
      if error.Some? && r.failureMark.Ok? && itemId in items {
        items := items[itemId := items[itemId].(status := BulkPayrollItemStatus.Failed, errorMessage := Some(error.value))];
      }
    }

    /** startBulkPayroll. `listing` is the store's answer to the items select,
        `replies[i]` the replies to the calls made for `listing[i]`. */
    method StartBulkPayroll(batchId: Id, listing: seq<Id>, rr: RunReplies, replies: seq<ItemReplies>)
      returns (result: RunResult)
      requires |replies| == |listing|
      requires IsListing(Snapshot(), batchId, listing)
      modifies this
      ensures (Snapshot(), result) == StartRun(old(Snapshot()), batchId, listing, rr, replies)
      ensures !isProcessing && dialogOpen == old(dialogOpen)
    {
      isProcessing := true;
      var error: Option<string> := None;
      if rr.batchRead.Err? {
        error := Some(rr.batchRead.message);
      } else if batchId !in batches {
        error := Some(NoRowsMessage);
      } else {
        var batch := batches[batchId];
        if rr.itemsRead.Err? {
          error := Some(rr.itemsRead.message);
        } else if listing == [] {
          isProcessing := false;
          return NoItems;
        } else if rr.processingUpdate.Err? {
          error := Some(rr.processingUpdate.message);
        } else {
          batches := batches[batchId := batches[batchId].(status := Processing)];
          ghost var before := Snapshot();
          for i := 0 to |listing|
            invariant Snapshot() == RunItems(before, batch, listing[..i], replies[..i])
            invariant dialogOpen == old(dialogOpen)
          {
            assert listing[..i + 1][..i] == listing[..i] && replies[..i + 1][..i] == replies[..i];
            ProcessPayrollItem(listing[i], batch, replies[i]);
          }
          assert listing[..|listing|] == listing && replies[..|replies|] == replies;
          RunItemsBatches(before, batch, listing, replies);
          if rr.completedUpdate.Err? {
            error := Some(rr.completedUpdate.message);
          } else {
            batches := batches[batchId := batches[batchId].(status := Completed)];
          }
        }
      }
      if error.Some? {
        if rr.failedUpdate.Ok? && batchId in batches {
          batches := batches[batchId := batches[batchId].(status := BulkPayrollStatus.Failed)];
        }
        result := RunFailed(error.value);
      } else {
        result := RunCompleted;
      }
      isProcessing := false;
    }

    /** pauseBulkPayroll: clears the flag and nothing else. No loop reads
        the flag, so a run in progress is not stopped by it. */
    method PauseBulkPayroll()
      modifies this
      ensures !isProcessing && Snapshot() == old(Snapshot()) && dialogOpen == old(dialogOpen)
    {
      isProcessing := false;
    }
  }
}
