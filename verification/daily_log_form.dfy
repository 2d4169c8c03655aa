/** The daily entry form (app/daily/DailyLogForm.tsx): one editable entry
    per active employee of a branch, pre-filled from the day's existing logs,
    single-field edits, "mark all present", the rows written on save, the
    `saved` flags after a successful save, and the per-status counts.
    The entries object (keyed by employee id, in insertion order) is a
    sequence of entries with distinct employee ids. */
module DailyLogForm {
  import opened Common
  import opened Folds
  import Sorting

  /** An active employee of the selected branch. */
  datatype Employee = Employee(id: string, full_name: string, position: string)

  /** A `daily_logs` row already stored for the selected day. */
  datatype ExistingLog = ExistingLog(
    employee_id: string,
    attendance_status: Status,
    arrival_time: Option<string>,
    leave_type: Option<string>,
    shortage_amount: Amount,
    advance_amount: Amount,
    fine_amount: Amount,
    extra_shifts_worked: Amount,
    comments: Option<string>)

  /** One employee's editable entry. */
  datatype LogEntry = LogEntry(
    employee_id: string,
    attendance_status: Status,
    arrival_time: Option<string>,
    leave_type: Option<string>,
    shortage_amount: Amount,
    advance_amount: Amount,
    fine_amount: Amount,
    extra_shifts_worked: Amount,
    comments: string,
    saved: bool)

  /** The fields of an entry, as `updateEntry` names them. */
  datatype Field =
    | IdField | StatusField | ArrivalField | LeaveTypeField | ShortageField
    | AdvanceField | FineField | ExtraShiftsField | CommentsField | SavedField

  /** A value stored in one field. */
  datatype FieldValue =
    | TextValue(text: string)
    | StatusValue(status: Status)
    | NullableValue(nullable: Option<string>)
    | AmountValue(amount: Amount)
    | FlagValue(flag: bool)

  /** `entry[field]` */
  function Get(e: LogEntry, f: Field): FieldValue {
    match f
    case IdField => TextValue(e.employee_id)
    case StatusField => StatusValue(e.attendance_status)
    case ArrivalField => NullableValue(e.arrival_time)
    case LeaveTypeField => NullableValue(e.leave_type)
    case ShortageField => AmountValue(e.shortage_amount)
    case AdvanceField => AmountValue(e.advance_amount)
    case FineField => AmountValue(e.fine_amount)
    case ExtraShiftsField => AmountValue(e.extra_shifts_worked)
    case CommentsField => TextValue(e.comments)
    case SavedField => FlagValue(e.saved)
  }

  /** `v` has the type field `f` holds. */
  predicate Fits(f: Field, v: FieldValue) {
    match f
    case IdField => v.TextValue?
    case StatusField => v.StatusValue?
    case ArrivalField => v.NullableValue?
    case LeaveTypeField => v.NullableValue?
    case ShortageField => v.AmountValue?
    case AdvanceField => v.AmountValue?
    case FineField => v.AmountValue?
    case ExtraShiftsField => v.AmountValue?
    case CommentsField => v.TextValue?
    case SavedField => v.FlagValue?
  }

  /** `{ ...e, [f]: v }` */
  function Set(e: LogEntry, f: Field, v: FieldValue): (r: LogEntry)
    requires Fits(f, v)
    ensures Get(r, f) == v
    ensures forall g :: g != f ==> Get(r, g) == Get(e, g)
  {
    match f
    case IdField => e.(employee_id := v.text)
    case StatusField => e.(attendance_status := v.status)
    case ArrivalField => e.(arrival_time := v.nullable)
    case LeaveTypeField => e.(leave_type := v.nullable)
    case ShortageField => e.(shortage_amount := v.amount)
    case AdvanceField => e.(advance_amount := v.amount)
    case FineField => e.(fine_amount := v.amount)
    case ExtraShiftsField => e.(extra_shifts_worked := v.amount)
    case CommentsField => e.(comments := v.text)
    case SavedField => e.(saved := v.flag)
  }

  /** Two entries that agree on every field are the same entry. */
  lemma GetDetermines(a: LogEntry, b: LogEntry)
    requires forall f :: Get(a, f) == Get(b, f)
    ensures a == b
  {
    assert Get(a, IdField) == Get(b, IdField);
    assert Get(a, StatusField) == Get(b, StatusField);
    assert Get(a, ArrivalField) == Get(b, ArrivalField);
    assert Get(a, LeaveTypeField) == Get(b, LeaveTypeField);
    assert Get(a, ShortageField) == Get(b, ShortageField);
    assert Get(a, AdvanceField) == Get(b, AdvanceField);
    assert Get(a, FineField) == Get(b, FineField);
    assert Get(a, ExtraShiftsField) == Get(b, ExtraShiftsField);
    assert Get(a, CommentsField) == Get(b, CommentsField);
    assert Get(a, SavedField) == Get(b, SavedField);
  }

  function EntryId(e: LogEntry): string {
    e.employee_id
  }

  /** The position of employee `id`'s entry. */
  function FindEntry(entries: seq<LogEntry>, id: string): (r: Option<nat>)
    ensures r.Some? ==> r.value < |entries| && entries[r.value].employee_id == id
    ensures r.None? ==> forall i :: 0 <= i < |entries| ==> entries[i].employee_id != id
  {
    if |entries| == 0 then None
    else if entries[|entries| - 1].employee_id == id then Some(|entries| - 1)
    else FindEntry(entries[..|entries| - 1], id)
  }

  /** `obj[e.employee_id] = e`: an existing key keeps its place, a new key
      goes last. */
  function Put(entries: seq<LogEntry>, e: LogEntry): (r: seq<LogEntry>)
    requires Sorting.DistinctBy(entries, EntryId)
    ensures Sorting.DistinctBy(r, EntryId)
    ensures FindEntry(entries, e.employee_id).Some? ==> |r| == |entries|
    ensures FindEntry(entries, e.employee_id).None? ==> |r| == |entries| + 1
    ensures forall i :: 0 <= i < |r| ==> r[i] == e || (i < |entries| && r[i] == entries[i] && entries[i].employee_id != e.employee_id)
    ensures FindEntry(r, e.employee_id).Some? && r[FindEntry(r, e.employee_id).value] == e
    ensures forall i :: 0 <= i < |entries| ==> FindEntry(r, entries[i].employee_id).Some?
  {
    match FindEntry(entries, e.employee_id)
    case Some(i) =>
      var r := entries[i := e];
      assert r[i] == e;
      r
    case None =>
      var r := entries + [e];
      assert r[|entries|] == e;
      assert forall i :: 0 <= i < |entries| ==> r[i] == entries[i];
      r
  }

  /** The last stored log of employee `id`: later logs overwrite earlier ones
      in `logMap`. */
  function LastLog(logs: seq<ExistingLog>, id: string): (r: Option<nat>)
    ensures r.Some? ==> r.value < |logs| && logs[r.value].employee_id == id
    ensures r.Some? ==> forall j :: r.value < j < |logs| ==> logs[j].employee_id != id
    ensures r.None? ==> forall j :: 0 <= j < |logs| ==> logs[j].employee_id != id
  {
    if |logs| == 0 then None
    else if logs[|logs| - 1].employee_id == id then Some(|logs| - 1)
    else LastLog(logs[..|logs| - 1], id)
  }

  /** `logMap` in `loadData`. */
  function LogMap(logs: seq<ExistingLog>): (m: map<string, ExistingLog>)
    ensures forall id :: id in m <==> LastLog(logs, id).Some?
    ensures forall id | id in m :: m[id] == logs[LastLog(logs, id).value]
  {
    if |logs| == 0 then map[]
    else LogMap(logs[..|logs| - 1])[logs[|logs| - 1].employee_id := logs[|logs| - 1]]
  }

  /** The entry `loadData` builds for employee `id` from its stored log, if
      any. */
  function FromLog(id: string, existing: Option<ExistingLog>): (e: LogEntry)
    ensures e.employee_id == id
    ensures e.saved <==> existing.Some?
    ensures existing.None? ==>
      && e.attendance_status == Present && e.arrival_time.None? && e.leave_type.None?
      && e.shortage_amount == 0.0 && e.advance_amount == 0.0 && e.fine_amount == 0.0
      && e.extra_shifts_worked == 0.0 && e.comments == ""
    ensures existing.Some? ==>
      && e.attendance_status == existing.value.attendance_status
      && e.shortage_amount == existing.value.shortage_amount
      && e.advance_amount == existing.value.advance_amount
      && e.fine_amount == existing.value.fine_amount
      && e.extra_shifts_worked == existing.value.extra_shifts_worked
      && e.comments == OptOrElse(existing.value.comments, "")
      && e.arrival_time == NullIfEmpty(existing.value.arrival_time)
      && e.leave_type == NullIfEmpty(existing.value.leave_type)
  {
    match existing
    case None => LogEntry(id, Present, None, None, 0.0, 0.0, 0.0, 0.0, "", false)
    case Some(l) =>
      LogEntry(id, l.attendance_status, NullIfEmpty(l.arrival_time), NullIfEmpty(l.leave_type),
        l.shortage_amount, l.advance_amount, l.fine_amount, l.extra_shifts_worked,
        OptOrElse(l.comments, ""), true)
  }

  function Lookup(m: map<string, ExistingLog>, id: string): Option<ExistingLog> {
    if id in m then Some(m[id]) else None
  }

  ghost function EmployeeIds(emps: seq<Employee>): set<string> {
    set e | e in emps :: e.id
  }

  function EmployeeId(e: Employee): string {
    e.id
  }

  /** The entries `loadData` builds: one per employee id, each pre-filled
      from that employee's last stored log of the day. */
  function Prefill(emps: seq<Employee>, logs: seq<ExistingLog>): (r: seq<LogEntry>)
    ensures Sorting.DistinctBy(r, EntryId)
    ensures forall k :: 0 <= k < |emps| ==> FindEntry(r, emps[k].id).Some?
    ensures forall i :: 0 <= i < |r| ==> r[i].employee_id in EmployeeIds(emps)
    ensures forall i :: 0 <= i < |r| ==> r[i] == FromLog(r[i].employee_id, Lookup(LogMap(logs), r[i].employee_id))
    ensures Sorting.DistinctBy(emps, EmployeeId) ==> |r| == |emps| && forall i :: 0 <= i < |r| ==> r[i].employee_id == emps[i].id
  {
    if |emps| == 0 then []
    else
      var prefix := emps[..|emps| - 1];
      var e := emps[|emps| - 1];
      assert emps == prefix + [e];
      var before := Prefill(prefix, logs);
      var x := FromLog(e.id, Lookup(LogMap(logs), e.id));
      var r := Put(before, x);
      PutCoversEmployees(prefix, e, emps, before, x, r);
      PutKnownEmployees(prefix, e, emps, before, x, r);
      PutPrefilled(logs, before, x, r);
      PrefillStepOrder(prefix, e, emps, before, x, r);
      r
  }

  /** `Put` keeps every key already present. */
  lemma PutKeeps(entries: seq<LogEntry>, e: LogEntry, id: string)
    requires Sorting.DistinctBy(entries, EntryId)
    requires FindEntry(entries, id).Some?
    ensures FindEntry(Put(entries, e), id).Some?
  {
    var j := FindEntry(entries, id).value;
    assert entries[j].employee_id == id;
  }

  /** Putting employee `e`'s entry keeps every earlier employee's key and
      adds `e`'s own. */
  lemma PutCoversEmployees(prefix: seq<Employee>, e: Employee, emps: seq<Employee>, before: seq<LogEntry>, x: LogEntry, r: seq<LogEntry>)
    requires Sorting.DistinctBy(before, EntryId)
    requires emps == prefix + [e] && x.employee_id == e.id && r == Put(before, x)
    requires forall k :: 0 <= k < |prefix| ==> FindEntry(before, prefix[k].id).Some?
    ensures forall k :: 0 <= k < |emps| ==> FindEntry(r, emps[k].id).Some?
  {
    forall k | 0 <= k < |emps| ensures FindEntry(r, emps[k].id).Some? {
      if k < |prefix| {
        assert emps[k] == prefix[k];
        PutKeeps(before, x, prefix[k].id);
      }
    }
  }

  /** Putting employee `e`'s entry adds no key outside the employees seen. */
  lemma PutKnownEmployees(prefix: seq<Employee>, e: Employee, emps: seq<Employee>, before: seq<LogEntry>, x: LogEntry, r: seq<LogEntry>)
    requires Sorting.DistinctBy(before, EntryId)
    requires emps == prefix + [e] && x.employee_id == e.id && r == Put(before, x)
    requires forall i :: 0 <= i < |before| ==> before[i].employee_id in EmployeeIds(prefix)
    ensures forall i :: 0 <= i < |r| ==> r[i].employee_id in EmployeeIds(emps)
  {
    assert EmployeeIds(emps) == EmployeeIds(prefix) + {e.id};
    forall i | 0 <= i < |r| ensures r[i].employee_id in EmployeeIds(emps) {
      if r[i] != x {
        assert before[i].employee_id in EmployeeIds(prefix);
      }
    }
  }

  /** Putting a pre-filled entry keeps every entry pre-filled. */
  lemma PutPrefilled(logs: seq<ExistingLog>, before: seq<LogEntry>, x: LogEntry, r: seq<LogEntry>)
    requires Sorting.DistinctBy(before, EntryId)
    requires r == Put(before, x)
    requires x == FromLog(x.employee_id, Lookup(LogMap(logs), x.employee_id))
    requires forall i :: 0 <= i < |before| ==> before[i] == FromLog(before[i].employee_id, Lookup(LogMap(logs), before[i].employee_id))
    ensures forall i :: 0 <= i < |r| ==> r[i] == FromLog(r[i].employee_id, Lookup(LogMap(logs), r[i].employee_id))
  {
  }

  /** One employee's step of the pre-fill loop: distinct employees keep
      their order. */
  lemma PrefillStepOrder(prefix: seq<Employee>, e: Employee, emps: seq<Employee>, before: seq<LogEntry>, x: LogEntry, r: seq<LogEntry>)
    requires Sorting.DistinctBy(before, EntryId)
    requires emps == prefix + [e] && x.employee_id == e.id && r == Put(before, x)
    requires Sorting.DistinctBy(prefix, EmployeeId) ==>
      |before| == |prefix| && forall i :: 0 <= i < |before| ==> before[i].employee_id == prefix[i].id
    ensures Sorting.DistinctBy(emps, EmployeeId) ==>
      |r| == |emps| && forall i :: 0 <= i < |emps| ==> r[i].employee_id == emps[i].id
  {
    if Sorting.DistinctBy(emps, EmployeeId) {
      assert Sorting.DistinctBy(prefix, EmployeeId) by {
        assert forall i :: 0 <= i < |prefix| ==> emps[i] == prefix[i];
      }
      forall i | 0 <= i < |before| ensures before[i].employee_id != e.id {
        assert EmployeeId(emps[i]) != EmployeeId(emps[|prefix|]);
      }
      assert FindEntry(before, e.id).None?;
    }
  }

  /** Pre-fill, entry by entry: an employee without a stored log starts as
      present with zero amounts, no comment and not saved; one with a log
      starts saved, with that log's status and amounts. */
  lemma PrefillEntries(emps: seq<Employee>, logs: seq<ExistingLog>, i: nat)
    requires i < |Prefill(emps, logs)|
    ensures LastLog(logs, Prefill(emps, logs)[i].employee_id).None? ==>
      && Prefill(emps, logs)[i].attendance_status == Present
      && Prefill(emps, logs)[i].shortage_amount == 0.0
      && Prefill(emps, logs)[i].advance_amount == 0.0
      && Prefill(emps, logs)[i].fine_amount == 0.0
      && Prefill(emps, logs)[i].extra_shifts_worked == 0.0
      && Prefill(emps, logs)[i].comments == ""
      && !Prefill(emps, logs)[i].saved
    ensures LastLog(logs, Prefill(emps, logs)[i].employee_id).Some? ==>
      && Prefill(emps, logs)[i].saved
      && Prefill(emps, logs)[i].attendance_status == logs[LastLog(logs, Prefill(emps, logs)[i].employee_id).value].attendance_status
      && Prefill(emps, logs)[i].shortage_amount == logs[LastLog(logs, Prefill(emps, logs)[i].employee_id).value].shortage_amount
  {
  }

  /** `updateEntry(empId, field, value)`: the named field of that employee's
      entry takes the value and the entry becomes unsaved; every other field
      and every other entry stays as it was. The form offers it only on
      rows that have an entry. */
  function UpdateEntry(entries: seq<LogEntry>, empId: string, f: Field, v: FieldValue): (r: seq<LogEntry>)
    requires FindEntry(entries, empId).Some?
    requires f != IdField && Fits(f, v)
    ensures |r| == |entries|
    ensures forall j :: 0 <= j < |r| && j != FindEntry(entries, empId).value ==> r[j] == entries[j]
    ensures f != SavedField ==> Get(r[FindEntry(entries, empId).value], f) == v
    ensures !r[FindEntry(entries, empId).value].saved
    ensures forall g :: g != f && g != SavedField ==>
      Get(r[FindEntry(entries, empId).value], g) == Get(entries[FindEntry(entries, empId).value], g)
  {
    var i := FindEntry(entries, empId).value;
    entries[i := Set(Set(entries[i], f, v), SavedField, FlagValue(false))]
  }

  /** Editing the same field twice keeps only the second value. */
  lemma UpdateEntryLastWins(entries: seq<LogEntry>, empId: string, f: Field, v1: FieldValue, v2: FieldValue)
    requires FindEntry(entries, empId).Some?
    requires f != IdField && Fits(f, v1) && Fits(f, v2)
    ensures FindEntry(UpdateEntry(entries, empId, f, v1), empId) == FindEntry(entries, empId)
    ensures UpdateEntry(UpdateEntry(entries, empId, f, v1), empId, f, v2) == UpdateEntry(entries, empId, f, v2)
  {
    var i := FindEntry(entries, empId).value;
    var once := UpdateEntry(entries, empId, f, v1);
    assert FindEntry(once, empId) == FindEntry(entries, empId) by {
      FindEntrySameIds(entries, once, empId);
    }
    var a := UpdateEntry(once, empId, f, v2);
    var b := UpdateEntry(entries, empId, f, v2);
    forall g ensures Get(a[i], g) == Get(b[i], g) {
      if g != f && g != SavedField {
        assert Get(once[i], g) == Get(entries[i], g);
      }
    }
    GetDetermines(a[i], b[i]);
  }

  /** Lookup depends only on the ids, position by position. */
  lemma {:induction false} FindEntrySameIds(a: seq<LogEntry>, b: seq<LogEntry>, id: string)
    requires |a| == |b|
    requires forall j :: 0 <= j < |a| ==> a[j].employee_id == b[j].employee_id
    ensures FindEntry(a, id) == FindEntry(b, id)
    decreases |a|
  {
    if |a| > 0 {
      FindEntrySameIds(a[..|a| - 1], b[..|b| - 1], id);
    }
  }

  /** `markAllPresent`: every entry becomes present and unsaved, nothing else
      changes. */
  function MarkAllPresent(entries: seq<LogEntry>): (r: seq<LogEntry>)
    ensures |r| == |entries|
    ensures forall i :: 0 <= i < |r| ==> r[i].attendance_status == Present && !r[i].saved
    ensures forall i, g :: 0 <= i < |r| && g != StatusField && g != SavedField ==> Get(r[i], g) == Get(entries[i], g)
  {
    seq(|entries|, i requires 0 <= i < |entries| =>
      Set(Set(entries[i], StatusField, StatusValue(Present)), SavedField, FlagValue(false)))
  }

  /** Marking everyone present twice is the same as once. */
  lemma MarkAllPresentIdempotent(entries: seq<LogEntry>)
    ensures MarkAllPresent(MarkAllPresent(entries)) == MarkAllPresent(entries)
  {
    var once := MarkAllPresent(entries);
    var twice := MarkAllPresent(once);
    forall i | 0 <= i < |entries| ensures twice[i] == once[i] {
      forall g ensures Get(twice[i], g) == Get(once[i], g) {
        if g == StatusField || g == SavedField {
        } else {
          assert Get(twice[i], g) == Get(once[i], g);
        }
      }
      GetDetermines(twice[i], once[i]);
    }
  }

  /** A row of the `upsert` in `saveAll`. */
  datatype SaveRow = SaveRow(
    employee_id: string,
    branch_id: string,
    log_date: string,
    attendance_status: Status,
    arrival_time: Option<string>,
    leave_type: Option<string>,
    shortage_amount: Amount,
    advance_amount: Amount,
    fine_amount: Amount,
    extra_shifts_worked: Amount,
    comments: Option<string>)

  /** One row: the leave type is kept only for leave, an extra shift of 0
      counts as 1, and an empty comment is stored as null. */
  function ToRow(e: LogEntry, branchId: string, logDate: string): (row: SaveRow)
    ensures row.employee_id == e.employee_id && row.branch_id == branchId && row.log_date == logDate
    ensures row.attendance_status == e.attendance_status
    ensures row.arrival_time.Some? <==> TruthyOpt(e.arrival_time)
    ensures row.arrival_time.Some? ==> row.arrival_time == e.arrival_time
    ensures row.leave_type.Some? ==> e.attendance_status == Leave
    ensures e.attendance_status == Leave ==> row.leave_type == e.leave_type
    ensures e.attendance_status == ExtraShift && e.extra_shifts_worked == 0.0 ==> row.extra_shifts_worked == 1.0
    ensures !(e.attendance_status == ExtraShift && e.extra_shifts_worked == 0.0) ==> row.extra_shifts_worked == e.extra_shifts_worked
    ensures row.shortage_amount == e.shortage_amount && row.advance_amount == e.advance_amount && row.fine_amount == e.fine_amount
    ensures row.comments.None? <==> e.comments == ""
    ensures row.comments.Some? ==> row.comments.value == e.comments
  {
    SaveRow(e.employee_id, branchId, logDate, e.attendance_status,
      NullIfEmpty(e.arrival_time),
      if e.attendance_status == Leave then e.leave_type else None,
      e.shortage_amount, e.advance_amount, e.fine_amount,
      if e.attendance_status == ExtraShift then (if e.extra_shifts_worked != 0.0 then e.extra_shifts_worked else 1.0)
      else e.extra_shifts_worked,
      if e.comments != "" then Some(e.comments) else None)
  }

  /** The rows `saveAll` upserts: one per entry, in entry order. */
  function SaveRows(entries: seq<LogEntry>, branchId: string, logDate: string): (rows: seq<SaveRow>)
    ensures |rows| == |entries|
    ensures forall i :: 0 <= i < |rows| ==> rows[i] == ToRow(entries[i], branchId, logDate)
  {
    seq(|entries|, i requires 0 <= i < |entries| => ToRow(entries[i], branchId, logDate))
  }

  /** The `saved` flags after the upsert: all set on success, untouched on
      failure. `entries` is the state when the upsert resolves, which holds
      any edit made while it was pending, not only the rows it wrote. */
  function AfterSave(entries: seq<LogEntry>, outcome: Outcome): (r: seq<LogEntry>)
    ensures |r| == |entries|
    ensures outcome.Fail? ==> r == entries
    ensures outcome.Pass? ==> forall i :: 0 <= i < |r| ==> r[i].saved
    ensures forall i, g :: 0 <= i < |r| && g != SavedField ==> Get(r[i], g) == Get(entries[i], g)
  {
    match outcome
    case Fail(_) => entries
    case Pass => seq(|entries|, i requires 0 <= i < |entries| => Set(entries[i], SavedField, FlagValue(true)))
  }

  /** The row read back as a stored log. */
  function AsLog(row: SaveRow): ExistingLog {
    ExistingLog(row.employee_id, row.attendance_status, row.arrival_time, row.leave_type,
      row.shortage_amount, row.advance_amount, row.fine_amount, row.extra_shifts_worked, row.comments)
  }

  /** The saved rows read back as the day's stored logs. */
  function AsLogs(rows: seq<SaveRow>): (logs: seq<ExistingLog>)
    ensures |logs| == |rows|
    ensures forall i :: 0 <= i < |rows| ==> logs[i] == AsLog(rows[i])
  {
    if |rows| == 0 then [] else AsLogs(rows[..|rows| - 1]) + [AsLog(rows[|rows| - 1])]
  }

  /** An entry the save keeps as it is: no empty-string arrival time or
      leave type, no leave type outside leave, and at least some extra
      shift on an extra-shift day. */
  predicate Normalised(e: LogEntry) {
    && e.arrival_time != Some("")
    && e.leave_type != Some("")
    && (e.attendance_status != Leave ==> e.leave_type.None?)
    && (e.attendance_status == ExtraShift ==> e.extra_shifts_worked != 0.0)
  }

  /** Saving a normalised entry and loading it back gives the same entry,
      now marked saved. */
  lemma EntryRoundTrip(e: LogEntry, branchId: string, logDate: string)
    requires Normalised(e)
    ensures FromLog(e.employee_id, Some(AsLog(ToRow(e, branchId, logDate)))) == e.(saved := true)
  {
  }

  /** Saving every entry and reloading the day gives back the same entries,
      all marked saved, when the entries were normalised and the branch's
      employees are the ones in the entries. */
  lemma SaveReloadRoundTrip(entries: seq<LogEntry>, emps: seq<Employee>, branchId: string, logDate: string)
    requires Sorting.DistinctBy(entries, EntryId)
    requires forall i :: 0 <= i < |entries| ==> Normalised(entries[i])
    requires |emps| == |entries| && forall i :: 0 <= i < |emps| ==> emps[i].id == entries[i].employee_id
    ensures Prefill(emps, AsLogs(SaveRows(entries, branchId, logDate))) == AfterSave(entries, Pass)
  {
    assert Sorting.DistinctBy(emps, EmployeeId) by {
      forall a, b | 0 <= a < b < |emps| ensures EmployeeId(emps[a]) != EmployeeId(emps[b]) {
        assert EntryId(entries[a]) != EntryId(entries[b]);
      }
    }
  }

  /** The save buttons are disabled while the upsert is pending, but the
      fields are not: an edit made then is not in the rows written, yet a
      successful save marks its entry saved all the same. */
  lemma EditDuringSaveMarkedSaved(snapshot: seq<LogEntry>, empId: string, f: Field, v: FieldValue)
    requires FindEntry(snapshot, empId).Some?
    requires f != IdField && f != SavedField && Fits(f, v)
    requires Get(snapshot[FindEntry(snapshot, empId).value], f) != v
    ensures var i := FindEntry(snapshot, empId).value;
      var after := AfterSave(UpdateEntry(snapshot, empId, f, v), Pass);
      after[i].saved && Get(after[i], f) != Get(snapshot[i], f)
  {
    var i := FindEntry(snapshot, empId).value;
    var prev := UpdateEntry(snapshot, empId, f, v);
    assert Get(prev[i], f) == v;
    assert Get(AfterSave(prev, Pass)[i], f) == Get(prev[i], f);
  }

  /** `counts[st] || 0` */
  function CountOf(counts: map<Status, nat>, st: Status): nat {
    if st in counts then counts[st] else 0
  }

  function IsStatus(st: Status): LogEntry -> bool {
    (e: LogEntry) => e.attendance_status == st
  }

  /** The `counts` reducer: how many entries have each status. A status no
      entry has is absent from the map. */
  function Counts(entries: seq<LogEntry>): (m: map<Status, nat>)
    ensures forall st :: CountOf(m, st) == Count(entries, IsStatus(st))
    ensures forall st :: st in m <==> Count(entries, IsStatus(st)) > 0
  {
    if |entries| == 0 then map[]
    else
      var prefix := entries[..|entries| - 1];
      var e := entries[|entries| - 1];
      var m := Counts(prefix);
      assert entries == prefix + [e];
      forall st ensures Count(entries, IsStatus(st)) == Count(prefix, IsStatus(st)) + (if e.attendance_status == st then 1 else 0) {
        CountSnoc(prefix, e, IsStatus(st));
      }
      m[e.attendance_status := CountOf(m, e.attendance_status) + 1]
  }

  /** The entries split by status. */
  lemma {:induction false} StatusPartition(entries: seq<LogEntry>)
    ensures Count(entries, IsStatus(Present)) + Count(entries, IsStatus(Late)) + Count(entries, IsStatus(Absent))
          + Count(entries, IsStatus(Leave)) + Count(entries, IsStatus(DayOff)) + Count(entries, IsStatus(ExtraShift))
          == |entries|
  {
    if |entries| > 0 {
      var prefix := entries[..|entries| - 1];
      var e := entries[|entries| - 1];
      StatusPartition(prefix);
      assert Count(entries, IsStatus(e.attendance_status)) == Count(prefix, IsStatus(e.attendance_status)) + 1;
    }
  }

  /** The six status counts shown above the table add up to the number of
      entries. */
  lemma CountsAddUp(entries: seq<LogEntry>)
    ensures CountOf(Counts(entries), Present) + CountOf(Counts(entries), Late) + CountOf(Counts(entries), Absent)
          + CountOf(Counts(entries), Leave) + CountOf(Counts(entries), DayOff) + CountOf(Counts(entries), ExtraShift)
          == |entries|
  {
    StatusPartition(entries);
  }
}
