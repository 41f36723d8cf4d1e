/** The salary sheet list of src/components/salary/SalarySheetManager.tsx:
    the period shortcuts that fill in the start and end dates, the list of
    shortcut options, the list filter, and the sheet the create dialog
    inserts. "Today" is an input; dates are calendar triples. */
module SalarySheetManager {
  import opened Common
  import opened Types
  import opened Calendar

  // ===========================================================================
  // Period shortcuts (handleDateShortcut)

  /** The shortcut keys of the twelve months, as the shortcut switch compares them. */
  const MonthKeys: seq<string> := ["january", "february", "march", "april", "may", "june",
                                   "july", "august", "september", "october", "november", "december"]

  /** The month labels of the option list. */
  const MonthLabels: seq<string> := ["January", "February", "March", "April", "May", "June",
                                     "July", "August", "September", "October", "November", "December"]

  datatype Range = Range(start: Date, end: Date)

  /** The date range a shortcut selects, or None when the shortcut is not
      recognised. `currentMonth` below is 0-based, as `getMonth()` returns it. */
  function ShortcutRange(shortcut: string, today: Date): (r: Option<Range>)
    requires Valid(today)
    ensures r.Some? ==> Valid(r.value.start) && Valid(r.value.end) && r.value.start.day == 1
  {
    var currentYear := today.year;
    var currentMonth := today.month - 1;
    if shortcut == "current-month" then
      Some(Range(MakeDate(currentYear, currentMonth, 1), MakeDate(currentYear, currentMonth + 1, 0)))
    else if shortcut == "last-month" then
      Some(Range(MakeDate(currentYear, currentMonth - 1, 1), MakeDate(currentYear, currentMonth, 0)))
    else if shortcut == "this-year" then
      Some(Range(MakeDate(currentYear, 0, 1), MakeDate(currentYear, 11, 31)))
    else
      var monthIndex := IndexOf(MonthKeys, ToLower(shortcut));
      if monthIndex != -1 then
        Some(Range(MakeDate(currentYear, monthIndex, 1), MakeDate(currentYear, monthIndex + 1, 0)))
      else None
  }

  /** The whole of one month. */
  function MonthRange(year: int, month: int): Range
    requires 1 <= month <= 12
  {
    Range(Date(year, month, 1), LastDay(year, month))
  }

  /** `current-month` is the 1st through the last day of today's month. */
  lemma CurrentMonthRange(today: Date)
    requires Valid(today)
    ensures ShortcutRange("current-month", today) == Some(MonthRange(today.year, today.month))
  {
    MakeDateFirst(today.year, today.month - 1);
    MakeDateDayZero(today.year, today.month - 1);
  }

  /** `last-month` is the whole previous month; in January that is December
      of the previous year. */
  lemma LastMonthRange(today: Date)
    requires Valid(today)
    ensures ShortcutRange("last-month", today) ==
            Some(if today.month == 1 then MonthRange(today.year - 1, 12) else MonthRange(today.year, today.month - 1))
  {
    MakeDateFirst(today.year, today.month - 2);
    MakeDateDayZero(today.year, today.month - 2);
  }

  /** `this-year` is January 1 through December 31 of today's year. */
  lemma ThisYearRange(today: Date)
    requires Valid(today)
    ensures ShortcutRange("this-year", today) == Some(Range(Date(today.year, 1, 1), Date(today.year, 12, 31)))
  {
    MakeDateInRange(today.year, 0, 1);
    MakeDateInRange(today.year, 11, 31);
  }

  /** The three fixed keys are not month names. */
  lemma FixedKeysAreNotMonths(shortcut: string)
    requires shortcut == "current-month" || shortcut == "last-month" || shortcut == "this-year"
    ensures ToLower(shortcut) !in MonthKeys
  {
    var lower := ToLower(shortcut);
    assert lower[0] == LowerChar(shortcut[0]);
    assert |lower| == |shortcut|;
  }

  /** The month keys are twelve distinct names. */
  lemma MonthKeysDistinct()
    ensures forall i, j :: 0 <= i < j < |MonthKeys| ==> MonthKeys[i] != MonthKeys[j]
  {
  }

  /** A month name, in any letter case, selects that month of today's year. */
  lemma MonthNameRange(shortcut: string, k: nat, today: Date)
    requires Valid(today) && k < 12 && ToLower(shortcut) == MonthKeys[k]
    ensures ShortcutRange(shortcut, today) == Some(MonthRange(today.year, k + 1))
  {
    if shortcut == "current-month" || shortcut == "last-month" || shortcut == "this-year" {
      FixedKeysAreNotMonths(shortcut);
      assert false;
    }
    MonthKeysDistinct();
    assert IndexOf(MonthKeys, ToLower(shortcut)) == k;
    MakeDateFirst(today.year, k);
    MakeDateDayZero(today.year, k);
  }

  /** Any other shortcut is not recognised, so the dates are left as they are. */
  lemma UnknownShortcut(shortcut: string, today: Date)
    requires Valid(today)
    requires shortcut != "current-month" && shortcut != "last-month" && shortcut != "this-year"
    requires ToLower(shortcut) !in MonthKeys
    ensures ShortcutRange(shortcut, today) == None
  {
  }

  /** Every range a shortcut selects starts before it ends. */
  lemma ShortcutRangeOrdered(shortcut: string, today: Date)
    requires Valid(today)
    requires ShortcutRange(shortcut, today).Some?
    ensures NotAfter(ShortcutRange(shortcut, today).value.start, ShortcutRange(shortcut, today).value.end)
  {
    if shortcut == "current-month" {
      CurrentMonthRange(today);
    } else if shortcut == "last-month" {
      LastMonthRange(today);
    } else if shortcut == "this-year" {
      ThisYearRange(today);
    } else {
      var k := IndexOf(MonthKeys, ToLower(shortcut));
      MonthNameRange(shortcut, k, today);
    }
  }

  // ===========================================================================
  // Shortcut options (generateShortcutOptions)

  datatype ShortcutOption = ShortcutOption(value: string, caption: string)

  /** The option of month `i` (0-based): its key and its label. */
  function MonthOption(i: nat): ShortcutOption
    requires i < 12
  {
    ShortcutOption(MonthKeys[i], MonthLabels[i])
  }

  /** The month options from month `currentMonth` down to January. */
  function MonthsDownFrom(currentMonth: nat): (s: seq<ShortcutOption>)
    requires currentMonth < 12
    ensures |s| == currentMonth + 1
    ensures forall j :: 0 <= j <= currentMonth ==> s[j] == MonthOption(currentMonth - j)
  {
    seq(currentMonth + 1, j requires 0 <= j <= currentMonth => MonthOption(currentMonth - j))
  }

  /** The option list for a 0-based current month. */
  function ShortcutOptions(currentMonth: nat): (o: seq<ShortcutOption>)
    requires currentMonth < 12
    ensures |o| == currentMonth + 4
  {
    [ShortcutOption("current-month", "Current Month"), ShortcutOption("last-month", "Last Month")]
    + MonthsDownFrom(currentMonth)
    + [ShortcutOption("this-year", "This Year")]
  }

  /** currentMonth + 4 options: current month, last month, the months from
      the current one down to January, and this year. */
  lemma ShortcutOptionsLayout(currentMonth: nat)
    requires currentMonth < 12
    ensures var o := ShortcutOptions(currentMonth);
            && |o| == currentMonth + 4
            && o[0].value == "current-month" && o[1].value == "last-month"
            && o[|o| - 1].value == "this-year"
            && (forall j :: 2 <= j < |o| - 1 ==> o[j] == MonthOption(currentMonth - (j - 2)))
            && o[|o| - 2] == MonthOption(0)
  {
  }

  /** A string whose characters lower-case to those of t lower-cases to t. */
  lemma ToLowerIs(s: string, t: string)
    requires |s| == |t| && forall j :: 0 <= j < |s| ==> LowerChar(s[j]) == t[j]
    ensures ToLower(s) == t
  {
    assert forall j :: 0 <= j < |s| ==> ToLower(s)[j] == t[j];
  }

  /** Lower-casing a month label gives its month key. */
  lemma MonthLabelLowersToKey(i: nat)
    requires i < 12
    ensures ToLower(MonthLabels[i]) == MonthKeys[i]
  {
    ToLowerIs(MonthLabels[i], MonthKeys[i]);
  }

  /** One turn of the option loop: the option built from month i's label
      extends the months listed so far by the next one. */
  lemma MonthsDownFromStep(currentMonth: nat, i: nat)
    requires i <= currentMonth < 12
    ensures var months := MonthsDownFrom(currentMonth);
            months[..currentMonth - i] + [ShortcutOption(ToLower(MonthLabels[i]), MonthLabels[i])] ==
            months[..currentMonth + 1 - i]
  {
    MonthLabelLowersToKey(i);
    var months := MonthsDownFrom(currentMonth);
    assert months[currentMonth - i] == MonthOption(i);
  }

  /** Every option offered is a shortcut the period handler recognises, and
      a month option selects that month of the current year. */
  lemma OptionsAreRecognised(today: Date, j: nat)
    requires Valid(today)
    requires j < |ShortcutOptions(today.month - 1)|
    ensures ShortcutRange(ShortcutOptions(today.month - 1)[j].value, today).Some?
    ensures 2 <= j < today.month + 2 ==>
              ShortcutRange(ShortcutOptions(today.month - 1)[j].value, today) ==
              Some(MonthRange(today.year, today.month - (j - 2)))
  {
    var o := ShortcutOptions(today.month - 1);
    if 2 <= j < today.month + 2 {
      var k: nat := today.month - 1 - (j - 2);
      assert o[j] == MonthOption(k);
      MonthLabelLowersToKey(k);
      ToLowerIdempotent(MonthLabels[k]);
      MonthNameRange(o[j].value, k, today);
    }
  }

  // ===========================================================================
  // Salary sheets and their filter (filteredSheets)

  /** A salary sheet row. `employeeName` may be absent in the store. */
  datatype SalarySheet = SalarySheet(
    id: Id,
    profileId: Id,
    employeeName: Option<string>,
    payPeriodStart: Date,
    payPeriodEnd: Date,
    grossSalary: real,
    deductions: real,
    netSalary: real,
    status: string)

  /** The filter controls; an empty date field is None. */
  datatype SheetFilters = SheetFilters(
    searchTerm: string,
    statusFilter: string,
    profileFilter: string,
    clientFilter: string,
    projectFilter: string,
    startDate: Option<Date>,
    endDate: Option<Date>)

  /** The filter predicate of one sheet. A sheet without an employee name
      fails the search test, whatever the search term. */
  predicate SheetMatches(f: SheetFilters, sheet: SalarySheet) {
    && sheet.employeeName.Some? && Contains(ToLower(sheet.employeeName.value), ToLower(f.searchTerm))
    && (f.statusFilter == "all" || sheet.status == f.statusFilter)
    && (f.profileFilter == "all" || sheet.profileId == f.profileFilter)
    && (f.startDate.Some? && f.endDate.Some? ==>
          NotAfter(f.startDate.value, sheet.payPeriodStart) && NotAfter(sheet.payPeriodStart, f.endDate.value))
  }

  function FilterSheets(sheets: seq<SalarySheet>, f: SheetFilters): (out: seq<SalarySheet>)
    ensures |out| <= |sheets|
    ensures forall i :: 0 <= i < |out| ==> out[i] in sheets && out[i].employeeName.Some?
  {
    Filter(sheets, s => SheetMatches(f, s))
  }

  /** A sheet is listed exactly when it is one of the sheets and passes every test. */
  lemma FilterSheetsMembership(sheets: seq<SalarySheet>, f: SheetFilters, sheet: SalarySheet)
    ensures sheet in FilterSheets(sheets, f) <==>
            && sheet in sheets
            && sheet.employeeName.Some? && Contains(ToLower(sheet.employeeName.value), ToLower(f.searchTerm))
            && (f.statusFilter == "all" || sheet.status == f.statusFilter)
            && (f.profileFilter == "all" || sheet.profileId == f.profileFilter)
            && (f.startDate.Some? && f.endDate.Some? ==>
                  NotAfter(f.startDate.value, sheet.payPeriodStart) && NotAfter(sheet.payPeriodStart, f.endDate.value))
  {
    var r := FilterSheets(sheets, f);
    if sheet in r {
      var i :| 0 <= i < |r| && r[i] == sheet;
    }
    if sheet in sheets && SheetMatches(f, sheet) {
      var i :| 0 <= i < |sheets| && sheets[i] == sheet;
    }
  }

  /** The client and project filters have no effect on the list. */
  lemma ClientAndProjectIgnored(sheets: seq<SalarySheet>, f: SheetFilters, client: string, project: string)
    ensures FilterSheets(sheets, f.(clientFilter := client, projectFilter := project)) == FilterSheets(sheets, f)
  {
    var g := f.(clientFilter := client, projectFilter := project);
    FilterCongruent(sheets, s => SheetMatches(g, s), s => SheetMatches(f, s));
  }

  /** The filters as first declared: empty search, all statuses and
      employees, no dates. They hold only until the mount effect below runs. */
  function InitialFilters(): SheetFilters {
    SheetFilters("", "all", "all", "all", "all", None, None)
  }

  /** The filters once the mount effect has run `handleDateShortcut` on the
      initial shortcut "current-month": today's month is selected. */
  function MountFilters(today: Date): (f: SheetFilters)
    requires Valid(today)
    ensures f == InitialFilters().(startDate := Some(Date(today.year, today.month, 1)),
                                   endDate := Some(LastDay(today.year, today.month)))
  {
    CurrentMonthRange(today);
    var r := ShortcutRange("current-month", today).value;
    InitialFilters().(startDate := Some(r.start), endDate := Some(r.end))
  }

  /** A date lies in month `month` of `year`. */
  predicate InMonth(d: Date, year: int, month: int)
    requires 1 <= month <= 12
  {
    d.year == year && d.month == month && 1 <= d.day <= DaysInMonth(year, month)
  }

  /** With the initial filters exactly the sheets that have an employee name
      are listed, in their order. */
  lemma InitialFiltersKeepNamed(sheets: seq<SalarySheet>)
    ensures FilterSheets(sheets, InitialFilters()) == Filter(sheets, (s: SalarySheet) => s.employeeName.Some?)
  {
    forall i | 0 <= i < |sheets| && sheets[i].employeeName.Some?
      ensures Contains(ToLower(sheets[i].employeeName.value), ToLower(""))
    {
      ContainsEmpty(ToLower(sheets[i].employeeName.value));
    }
    FilterCongruent(sheets, s => SheetMatches(InitialFilters(), s), (s: SalarySheet) => s.employeeName.Some?);
  }

  // ===========================================================================
  // Creating a sheet (handleCreateSalarySheet)

  /** The create dialog's form, after its numbers are parsed. */
  datatype SheetForm = SheetForm(
    profileId: Id,
    payPeriodStart: Date,
    payPeriodEnd: Date,
    grossSalary: real,
    deductions: real,
    netSalary: real)

  /** The row handleCreateSalarySheet inserts, under the id the store generates. */
  function NewSalarySheet(form: SheetForm, profiles: seq<Profile>, id: Id): (s: SalarySheet)
    ensures s.status == "draft" && s.profileId == form.profileId
    ensures s.employeeName.Some?
    ensures FindProfile(profiles, form.profileId).Some? ==>
              s.employeeName.value == FindProfile(profiles, form.profileId).value.fullName
    ensures (forall i :: 0 <= i < |profiles| ==> profiles[i].id != form.profileId) ==> s.employeeName == Some("")
    ensures s.payPeriodStart == form.payPeriodStart && s.payPeriodEnd == form.payPeriodEnd
    ensures s.grossSalary == form.grossSalary && s.deductions == form.deductions && s.netSalary == form.netSalary
  {
    var found := FindProfile(profiles, form.profileId);
    SalarySheet(id, form.profileId, Some(if found.Some? then found.value.fullName else ""),
                form.payPeriodStart, form.payPeriodEnd, form.grossSalary, form.deductions, form.netSalary,
                "draft")
  }

  /** A sheet created here always has an employee name, so the filters
      without dates show it, even when its profile is unknown. */
  lemma CreatedSheetShownWithoutDates(form: SheetForm, profiles: seq<Profile>, id: Id, sheets: seq<SalarySheet>)
    ensures NewSalarySheet(form, profiles, id) in FilterSheets([NewSalarySheet(form, profiles, id)] + sheets, InitialFilters())
  {
    var s := NewSalarySheet(form, profiles, id);
    ContainsEmpty(ToLower(s.employeeName.value));
    FilterSheetsMembership([s] + sheets, InitialFilters(), s);
  }

  /** Under the filters the component starts with, a created sheet is listed
      exactly when its period starts in today's month. */
  lemma CreatedSheetShownAtMount(form: SheetForm, profiles: seq<Profile>, id: Id, sheets: seq<SalarySheet>,
                                 today: Date)
    requires Valid(today)
    ensures NewSalarySheet(form, profiles, id) in FilterSheets([NewSalarySheet(form, profiles, id)] + sheets,
                                                               MountFilters(today)) <==>
            InMonth(form.payPeriodStart, today.year, today.month)
  {
    var s := NewSalarySheet(form, profiles, id);
    ContainsEmpty(ToLower(s.employeeName.value));
    FilterSheetsMembership([s] + sheets, MountFilters(today), s);
  }

  // ===========================================================================
  // The component's state

  class SheetManager {
    /** The fetched sheets, newest first. */
    var sheets: seq<SalarySheet>
    var searchTerm: string
    var statusFilter: string
    var profileFilter: string
    var clientFilter: string
    var projectFilter: string
    var startDate: Option<Date>
    var endDate: Option<Date>
    var createDialogOpen: bool

    function Filters(): SheetFilters
      reads this
    {
      SheetFilters(searchTerm, statusFilter, profileFilter, clientFilter, projectFilter, startDate, endDate)
    }

    /** `filteredSheets`, the list the table shows. */
    function FilteredSheets(): seq<SalarySheet>
      reads this
    {
      FilterSheets(sheets, Filters())
    }

    /** The initial state, then the mount effect that applies the initial
        shortcut "current-month" for `today`. The mount fetch is a separate
        FetchSalarySheets call. */
    constructor (today: Date)
      requires Valid(today)
      ensures Filters() == MountFilters(today) && sheets == [] && !createDialogOpen
    {
      sheets := [];
      searchTerm, statusFilter, profileFilter, clientFilter, projectFilter := "", "all", "all", "all", "all";
      startDate, endDate := None, None;
      createDialogOpen := false;
      CurrentMonthRange(today);
      new;
      HandleDateShortcut("current-month", today);
    }

    /** handleDateShortcut: set both dates to the shortcut's range, or leave
        them when the shortcut is not recognised. */
    method HandleDateShortcut(shortcut: string, today: Date)
      requires Valid(today)
      modifies this
      ensures var r := ShortcutRange(shortcut, today);
              if r.Some? then startDate == Some(r.value.start) && endDate == Some(r.value.end)
              else startDate == old(startDate) && endDate == old(endDate)
      ensures sheets == old(sheets) && createDialogOpen == old(createDialogOpen)
      ensures Filters() == old(Filters()).(startDate := startDate, endDate := endDate)
    {
      var range := ShortcutRange(shortcut, today);
      if range.None? {
        return;
      }
      startDate := Some(range.value.start);
      endDate := Some(range.value.end);
    }

    /** generateShortcutOptions. */
    static method GenerateShortcutOptions(today: Date) returns (options: seq<ShortcutOption>)
      requires Valid(today)
      ensures options == ShortcutOptions(today.month - 1)
    {
      var currentMonth := today.month - 1;
      ghost var head := [ShortcutOption("current-month", "Current Month"), ShortcutOption("last-month", "Last Month")];
      ghost var months := MonthsDownFrom(currentMonth);
      options := [ShortcutOption("current-month", "Current Month"), ShortcutOption("last-month", "Last Month")];
      for i := currentMonth + 1 downto 0
        invariant options == head + months[..currentMonth + 1 - i]
      {
        var option := ShortcutOption(ToLower(MonthLabels[i]), MonthLabels[i]);
        MonthsDownFromStep(currentMonth, i);
        options := options + [option];
      }
      assert months[..currentMonth + 1] == months;
      options := options + [ShortcutOption("this-year", "This Year")];
    }

    /** fetchSalarySheets: the store's rows, newest first, replace the list;
        on an error the list is kept. */
    method FetchSalarySheets(reply: Reply, rows: seq<SalarySheet>)
      modifies this
      ensures sheets == (if reply.Ok? then rows else old(sheets))
      ensures Filters() == old(Filters()) && createDialogOpen == old(createDialogOpen)
    {
      if reply.Ok? {
        sheets := rows;
      }
    }

    /** handleCreateSalarySheet: insert the sheet and, on success, close the
        dialog. The list itself changes only through the refetch that
        follows, a FetchSalarySheets call with its own reply. */
    method HandleCreateSalarySheet(form: SheetForm, profiles: seq<Profile>, reply: Reply, newId: Id)
      returns (inserted: Option<SalarySheet>)
      modifies this
      ensures inserted == (if reply.Ok? then Some(NewSalarySheet(form, profiles, newId)) else None)
      ensures createDialogOpen == (if reply.Ok? then false else old(createDialogOpen))
      ensures sheets == old(sheets) && Filters() == old(Filters())
    {
      if reply.Err? {
        return None;
      }
      inserted := Some(NewSalarySheet(form, profiles, newId));
      createDialogOpen := false;
    }
  }
}
