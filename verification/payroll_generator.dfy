/** The payroll generation page (app/payroll/PayrollGenerator.tsx): the fold
    of a period's daily logs into one summary per employee, the preview and
    result totals, the enrichment and ordering of generated payroll records,
    and the select / preview / generating / results step machine. The
    payroll figures themselves come from the backend's
    `generate_payroll_from_daily_logs` procedure, which is a parameter here
    (its outcome and the records it leaves behind). */
module PayrollGenerator {
  import opened Common
  import opened Folds
  import Sorting
  import Payslip
  import Text

  /** One daily log row as the preview query selects it. */
  datatype LogRow = LogRow(
    employee_id: string,
    branch_id: string,
    status: Status,
    shortage_amount: Amount,
    advance_amount: Amount,
    fine_amount: Amount,
    extra_shifts_worked: Amount)

  /** An employee row as fetched by id. The preview fetch does not select
      the basic salary; it is `None` there. */
  datatype Employee = Employee(full_name: string, position: string, basic_salary: Option<Amount>)

  /** One employee's logs over the period. */
  datatype DailySummary = DailySummary(
    employee_id: string,
    branch_id: string,
    full_name: string,
    branch_name: string,
    position: string,
    days_present: nat,
    days_late: nat,
    days_absent: nat,
    days_leave: nat,
    total_extra_shifts: Amount,
    total_shortages: Amount,
    total_advances: Amount,
    total_fines: Amount,
    total_days_logged: nat)

  /** The four status counters. */
  datatype Counter = DaysPresent | DaysLate | DaysAbsent | DaysLeave

  /** The four money sums. */
  datatype LogColumn = ExtraShifts | Shortages | Advances | Fines

  function CounterStatus(c: Counter): Status {
    match c
    case DaysPresent => Present
    case DaysLate => Late
    case DaysAbsent => Absent
    case DaysLeave => Leave
  }

  function CounterValue(s: DailySummary, c: Counter): nat {
    match c
    case DaysPresent => s.days_present
    case DaysLate => s.days_late
    case DaysAbsent => s.days_absent
    case DaysLeave => s.days_leave
  }

  function LogAmount(l: LogRow, c: LogColumn): Amount {
    match c
    case ExtraShifts => l.extra_shifts_worked
    case Shortages => l.shortage_amount
    case Advances => l.advance_amount
    case Fines => l.fine_amount
  }

  function SummaryTotal(s: DailySummary, c: LogColumn): Amount {
    match c
    case ExtraShifts => s.total_extra_shifts
    case Shortages => s.total_shortages
    case Advances => s.total_advances
    case Fines => s.total_fines
  }

  /** `empMap[id]?.full_name || "Unknown"` */
  function EmployeeName(empMap: map<string, Employee>, id: string): (r: string)
    ensures id !in empMap ==> r == "Unknown"
    ensures id in empMap && empMap[id].full_name != "" ==> r == empMap[id].full_name
  {
    if id in empMap then OrElse(empMap[id].full_name, "Unknown") else "Unknown"
  }

  /** `branchMap[id]?.name || "Unknown"` */
  function BranchName(branchMap: map<string, string>, id: string): (r: string)
    ensures id !in branchMap ==> r == "Unknown"
    ensures id in branchMap && branchMap[id] != "" ==> r == branchMap[id]
  {
    if id in branchMap then OrElse(branchMap[id], "Unknown") else "Unknown"
  }

  /** `empMap[id]?.position || fallback` */
  function EmployeePosition(empMap: map<string, Employee>, id: string, fallback: string): (r: string)
    ensures id !in empMap ==> r == fallback
    ensures id in empMap && empMap[id].position != "" ==> r == empMap[id].position
  {
    if id in empMap then OrElse(empMap[id].position, fallback) else fallback
  }

  /** The summary created from an employee's first log row. */
  function Open(l: LogRow, empMap: map<string, Employee>, branchMap: map<string, string>): DailySummary {
    DailySummary(l.employee_id, l.branch_id,
      EmployeeName(empMap, l.employee_id), BranchName(branchMap, l.branch_id),
      EmployeePosition(empMap, l.employee_id, ""),
      0, 0, 0, 0, 0.0, 0.0, 0.0, 0.0, 0)
  }

  /** Counts one log row into its employee's summary. */
  function Tally(s: DailySummary, l: LogRow): (t: DailySummary)
    ensures Identity(t) == Identity(s)
    ensures t.total_days_logged == s.total_days_logged + 1
    ensures forall c :: CounterValue(t, c) == CounterValue(s, c) + (if l.status == CounterStatus(c) then 1 else 0)
    ensures forall c :: SummaryTotal(t, c) == SummaryTotal(s, c) + LogAmount(l, c)
  {
    s.(total_days_logged := s.total_days_logged + 1,
       days_present := s.days_present + (if l.status == Present then 1 else 0),
       days_late := s.days_late + (if l.status == Late then 1 else 0),
       days_absent := s.days_absent + (if l.status == Absent then 1 else 0),
       days_leave := s.days_leave + (if l.status == Leave then 1 else 0),
       total_extra_shifts := s.total_extra_shifts + l.extra_shifts_worked,
       total_shortages := s.total_shortages + l.shortage_amount,
       total_advances := s.total_advances + l.advance_amount,
       total_fines := s.total_fines + l.fine_amount)
  }

  /** The fields fixed when a summary is opened. */
  function Identity(s: DailySummary): (string, string, string, string, string) {
    (s.employee_id, s.branch_id, s.full_name, s.branch_name, s.position)
  }

  function IdOf(s: DailySummary): string {
    s.employee_id
  }

  /** The position of employee `e` among the summaries built so far. */
  function FindEmployee(agg: seq<DailySummary>, e: string): (r: Option<nat>)
    ensures r.Some? ==> r.value < |agg| && agg[r.value].employee_id == e
    ensures r.None? ==> forall i :: 0 <= i < |agg| ==> agg[i].employee_id != e
  {
    if |agg| == 0 then None
    else if agg[|agg| - 1].employee_id == e then Some(|agg| - 1)
    else FindEmployee(agg[..|agg| - 1], e)
  }

  /** One `forEach` step of the preview fold. */
  function AggStep(agg: seq<DailySummary>, l: LogRow, empMap: map<string, Employee>, branchMap: map<string, string>): seq<DailySummary> {
    match FindEmployee(agg, l.employee_id)
    case Some(i) => agg[i := Tally(agg[i], l)]
    case None => agg + [Tally(Open(l, empMap, branchMap), l)]
  }

  /** A new employee's summary starts with the ids and looked-up names of
      its first log row and every counter and total at zero. */
  lemma OpenStartsEmpty(l: LogRow, empMap: map<string, Employee>, branchMap: map<string, string>, s: DailySummary)
    requires s == Open(l, empMap, branchMap)
    ensures s.employee_id == l.employee_id && s.branch_id == l.branch_id
    ensures s.full_name == EmployeeName(empMap, l.employee_id) && s.branch_name == BranchName(branchMap, l.branch_id)
    ensures s.days_present == 0 && s.days_late == 0 && s.days_absent == 0 && s.days_leave == 0 && s.total_days_logged == 0
    ensures s.total_extra_shifts == 0.0 && s.total_shortages == 0.0 && s.total_advances == 0.0 && s.total_fines == 0.0
    ensures s.position == EmployeePosition(empMap, l.employee_id, "")
    ensures l.employee_id !in empMap ==> s.position == ""
  {
  }

  /** One fold step tallies the log into its employee's summary, or opens
      a summary for a new employee at the end; every other employee's
      summary is left alone. */
  lemma AggStepShape(agg: seq<DailySummary>, l: LogRow, empMap: map<string, Employee>, branchMap: map<string, string>, r: seq<DailySummary>)
    requires r == AggStep(agg, l, empMap, branchMap)
    ensures FindEmployee(agg, l.employee_id).Some? ==>
      |r| == |agg| && r[FindEmployee(agg, l.employee_id).value] == Tally(agg[FindEmployee(agg, l.employee_id).value], l)
    ensures FindEmployee(agg, l.employee_id).None? ==> |r| == |agg| + 1 && r[|agg|] == Tally(Open(l, empMap, branchMap), l)
    ensures forall j :: 0 <= j < |agg| && agg[j].employee_id != l.employee_id ==> r[j] == agg[j]
  {
  }

  /** `Object.values(agg)` after the fold: one summary per employee, in
      order of each employee's first log row. */
  function Aggregate(logs: seq<LogRow>, empMap: map<string, Employee>, branchMap: map<string, string>): seq<DailySummary> {
    if |logs| == 0 then []
    else AggStep(Aggregate(logs[..|logs| - 1], empMap, branchMap), logs[|logs| - 1], empMap, branchMap)
  }

  /** The index of employee `e`'s first log row. */
  function FirstLog(logs: seq<LogRow>, e: string): (r: Option<nat>)
    ensures r.Some? ==> r.value < |logs| && logs[r.value].employee_id == e
    ensures r.Some? ==> forall j :: 0 <= j < r.value ==> logs[j].employee_id != e
    ensures r.None? ==> forall j :: 0 <= j < |logs| ==> logs[j].employee_id != e
  {
    if |logs| == 0 then None
    else match FirstLog(logs[..|logs| - 1], e)
      case Some(k) => Some(k)
      case None => if logs[|logs| - 1].employee_id == e then Some(|logs| - 1) else None
  }

  function OfEmployee(e: string): LogRow -> bool {
    (l: LogRow) => l.employee_id == e
  }

  function WithStatus(e: string, st: Status): LogRow -> bool {
    (l: LogRow) => l.employee_id == e && l.status == st
  }

  function AmountFor(e: string, c: LogColumn): LogRow -> real {
    (l: LogRow) => if l.employee_id == e then LogAmount(l, c) else 0.0
  }

  ghost function LoggedIds(logs: seq<LogRow>): set<string> {
    set l | l in logs :: l.employee_id
  }

  ghost function IdsOf(agg: seq<DailySummary>): set<string> {
    set s | s in agg :: s.employee_id
  }

  /** `s` is the correct summary of its employee's rows in `logs`. */
  ghost predicate Correct(logs: seq<LogRow>, s: DailySummary, empMap: map<string, Employee>, branchMap: map<string, string>) {
    && s.total_days_logged == Count(logs, OfEmployee(s.employee_id))
    && (forall c :: CounterValue(s, c) == Count(logs, WithStatus(s.employee_id, CounterStatus(c))))
    && (forall c :: SummaryTotal(s, c) == Sum(logs, AmountFor(s.employee_id, c)))
    && FirstLog(logs, s.employee_id).Some?
    && Identity(s) == Identity(Open(logs[FirstLog(logs, s.employee_id).value], empMap, branchMap))
  }

  /** `agg` holds exactly one correct summary per employee of `logs`. */
  ghost predicate Summarises(logs: seq<LogRow>, agg: seq<DailySummary>, empMap: map<string, Employee>, branchMap: map<string, string>) {
    && Sorting.DistinctBy(agg, IdOf)
    && IdsOf(agg) == LoggedIds(logs)
    && (forall s | s in agg :: Correct(logs, s, empMap, branchMap))
  }

  lemma CountsSnoc(logs: seq<LogRow>, l: LogRow, e: string)
    ensures Count(logs + [l], OfEmployee(e)) == Count(logs, OfEmployee(e)) + (if l.employee_id == e then 1 else 0)
    ensures forall st :: Count(logs + [l], WithStatus(e, st)) == Count(logs, WithStatus(e, st)) + (if l.employee_id == e && l.status == st then 1 else 0)
    ensures forall c :: Sum(logs + [l], AmountFor(e, c)) == Sum(logs, AmountFor(e, c)) + (if l.employee_id == e then LogAmount(l, c) else 0.0)
    ensures FirstLog(logs + [l], e) == if FirstLog(logs, e).Some? then FirstLog(logs, e) else if l.employee_id == e then Some(|logs|) else None
  {
    CountSnoc(logs, l, OfEmployee(e));
    forall st ensures Count(logs + [l], WithStatus(e, st)) == Count(logs, WithStatus(e, st)) + (if l.employee_id == e && l.status == st then 1 else 0) {
      CountSnoc(logs, l, WithStatus(e, st));
    }
    forall c ensures Sum(logs + [l], AmountFor(e, c)) == Sum(logs, AmountFor(e, c)) + (if l.employee_id == e then LogAmount(l, c) else 0.0) {
      SumSnoc(logs, l, AmountFor(e, c));
    }
    assert (logs + [l])[..|logs|] == logs;
  }

  /** An employee without log rows has all counters and sums at zero. */
  lemma Unlogged(logs: seq<LogRow>, e: string)
    requires e !in LoggedIds(logs)
    ensures Count(logs, OfEmployee(e)) == 0
    ensures forall st :: Count(logs, WithStatus(e, st)) == 0
    ensures forall c :: Sum(logs, AmountFor(e, c)) == 0.0
    ensures FirstLog(logs, e).None?
  {
    assert forall k :: 0 <= k < |logs| ==> logs[k] in logs;
    CountNone(logs, OfEmployee(e));
    forall st ensures Count(logs, WithStatus(e, st)) == 0 {
      CountNone(logs, WithStatus(e, st));
    }
    forall c ensures Sum(logs, AmountFor(e, c)) == 0.0 {
      SumZero(logs, AmountFor(e, c));
    }
  }

  /** A row of another employee leaves a summary correct. */
  lemma KeepCorrect(logs: seq<LogRow>, s: DailySummary, l: LogRow, empMap: map<string, Employee>, branchMap: map<string, string>)
    requires Correct(logs, s, empMap, branchMap)
    requires l.employee_id != s.employee_id
    ensures Correct(logs + [l], s, empMap, branchMap)
  {
    CountsSnoc(logs, l, s.employee_id);
    assert (logs + [l])[FirstLog(logs, s.employee_id).value] == logs[FirstLog(logs, s.employee_id).value];
  }

  /** Tallying an employee's own row keeps its summary correct. */
  lemma TallyCorrect(logs: seq<LogRow>, s: DailySummary, l: LogRow, empMap: map<string, Employee>, branchMap: map<string, string>)
    requires Correct(logs, s, empMap, branchMap)
    requires l.employee_id == s.employee_id
    ensures Correct(logs + [l], Tally(s, l), empMap, branchMap)
  {
    CountsSnoc(logs, l, s.employee_id);
    assert (logs + [l])[FirstLog(logs, s.employee_id).value] == logs[FirstLog(logs, s.employee_id).value];
  }

  /** An employee's first row opens a correct summary. */
  lemma OpenCorrect(logs: seq<LogRow>, l: LogRow, empMap: map<string, Employee>, branchMap: map<string, string>)
    requires l.employee_id !in LoggedIds(logs)
    ensures Correct(logs + [l], Tally(Open(l, empMap, branchMap), l), empMap, branchMap)
  {
    Unlogged(logs, l.employee_id);
    CountsSnoc(logs, l, l.employee_id);
    assert (logs + [l])[|logs|] == l;
  }

  /** Tallying a row of an employee already seen keeps the summaries correct. */
  lemma AggStepSeen(logs: seq<LogRow>, agg: seq<DailySummary>, l: LogRow, i: nat, empMap: map<string, Employee>, branchMap: map<string, string>)
    requires Summarises(logs, agg, empMap, branchMap)
    requires i < |agg| && agg[i].employee_id == l.employee_id
    ensures Summarises(logs + [l], agg[i := Tally(agg[i], l)], empMap, branchMap)
  {
    var out := agg[i := Tally(agg[i], l)];
    assert LoggedIds(logs + [l]) == LoggedIds(logs) + {l.employee_id};
    assert l.employee_id in IdsOf(agg);
    forall k | 0 <= k < |out| ensures Correct(logs + [l], out[k], empMap, branchMap) {
      assert agg[k] in agg;
      if k == i {
        TallyCorrect(logs, agg[i], l, empMap, branchMap);
      } else {
        KeepCorrect(logs, agg[k], l, empMap, branchMap);
      }
    }
    assert IdsOf(out) == IdsOf(agg) by {
      forall x | x in IdsOf(agg) ensures x in IdsOf(out) {
        var g :| g in agg && g.employee_id == x;
        var k :| 0 <= k < |agg| && agg[k] == g;
        assert out[k].employee_id == x;
      }
    }
  }

  /** A row of a new employee appends a correct summary. */
  lemma AggStepNew(logs: seq<LogRow>, agg: seq<DailySummary>, l: LogRow, empMap: map<string, Employee>, branchMap: map<string, string>)
    requires Summarises(logs, agg, empMap, branchMap)
    requires forall k :: 0 <= k < |agg| ==> agg[k].employee_id != l.employee_id
    ensures Summarises(logs + [l], agg + [Tally(Open(l, empMap, branchMap), l)], empMap, branchMap)
  {
    var n := Tally(Open(l, empMap, branchMap), l);
    var out := agg + [n];
    assert LoggedIds(logs + [l]) == LoggedIds(logs) + {l.employee_id};
    assert l.employee_id !in LoggedIds(logs);
    forall k | 0 <= k < |out| ensures Correct(logs + [l], out[k], empMap, branchMap) {
      if k == |agg| {
        OpenCorrect(logs, l, empMap, branchMap);
      } else {
        assert agg[k] in agg;
        KeepCorrect(logs, agg[k], l, empMap, branchMap);
      }
    }
    assert IdsOf(out) == IdsOf(agg) + {l.employee_id};
  }

  /** One step of the fold keeps the summaries correct. */
  lemma AggStepSummarises(logs: seq<LogRow>, agg: seq<DailySummary>, l: LogRow, empMap: map<string, Employee>, branchMap: map<string, string>)
    requires Summarises(logs, agg, empMap, branchMap)
    ensures Summarises(logs + [l], AggStep(agg, l, empMap, branchMap), empMap, branchMap)
  {
    match FindEmployee(agg, l.employee_id)
    case Some(i) => AggStepSeen(logs, agg, l, i, empMap, branchMap);
    case None => AggStepNew(logs, agg, l, empMap, branchMap);
  }

  /** The preview fold summarises its input. */
  lemma {:induction false} AggregateSummarises(logs: seq<LogRow>, empMap: map<string, Employee>, branchMap: map<string, string>)
    ensures Summarises(logs, Aggregate(logs, empMap, branchMap), empMap, branchMap)
  {
    if |logs| > 0 {
      var prefix := logs[..|logs| - 1];
      AggregateSummarises(prefix, empMap, branchMap);
      assert logs == prefix + [logs[|logs| - 1]];
      AggStepSummarises(prefix, Aggregate(prefix, empMap, branchMap), logs[|logs| - 1], empMap, branchMap);
    }
  }

  /** Only present, late, absent and leave rows move a status counter; a
      day-off or extra-shift row moves none. */
  lemma TallyDayOff(s: DailySummary, l: LogRow)
    requires l.status == DayOff || l.status == ExtraShift
    ensures forall c :: CounterValue(Tally(s, l), c) == CounterValue(s, c)
    ensures Tally(s, l).total_days_logged == s.total_days_logged + 1
  {
  }

  /** An employee's rows split by status: the six per-status counts add up to
      the number of that employee's rows. */
  lemma {:induction false} StatusPartition(logs: seq<LogRow>, e: string)
    ensures Count(logs, WithStatus(e, Present)) + Count(logs, WithStatus(e, Late))
          + Count(logs, WithStatus(e, Absent)) + Count(logs, WithStatus(e, Leave))
          + Count(logs, WithStatus(e, DayOff)) + Count(logs, WithStatus(e, ExtraShift))
          == Count(logs, OfEmployee(e))
  {
    if |logs| > 0 {
      var prefix := logs[..|logs| - 1];
      StatusPartition(prefix, e);
      assert logs == prefix + [logs[|logs| - 1]];
      CountsSnoc(prefix, logs[|logs| - 1], e);
    }
  }

  /** In every preview summary the four status counters add up to at most
      the days logged; the difference is the employee's day-off and
      extra-shift rows. */
  lemma CountersBounded(logs: seq<LogRow>, empMap: map<string, Employee>, branchMap: map<string, string>)
    ensures forall s | s in Aggregate(logs, empMap, branchMap) ::
      s.days_present + s.days_late + s.days_absent + s.days_leave
        + Count(logs, WithStatus(s.employee_id, DayOff)) + Count(logs, WithStatus(s.employee_id, ExtraShift))
        == s.total_days_logged
    ensures forall s | s in Aggregate(logs, empMap, branchMap) ::
      s.days_present + s.days_late + s.days_absent + s.days_leave <= s.total_days_logged
  {
    AggregateSummarises(logs, empMap, branchMap);
    forall s | s in Aggregate(logs, empMap, branchMap)
      ensures s.days_present + s.days_late + s.days_absent + s.days_leave
        + Count(logs, WithStatus(s.employee_id, DayOff)) + Count(logs, WithStatus(s.employee_id, ExtraShift))
        == s.total_days_logged
    {
      StatusPartition(logs, s.employee_id);
      assert CounterValue(s, DaysPresent) == s.days_present;
      assert CounterValue(s, DaysLate) == s.days_late;
      assert CounterValue(s, DaysAbsent) == s.days_absent;
      assert CounterValue(s, DaysLeave) == s.days_leave;
    }
  }

  /** Each log row's employee has a summary. */
  lemma SummaryOfLog(logs: seq<LogRow>, agg: seq<DailySummary>, k: nat) returns (i: nat)
    requires IdsOf(agg) == LoggedIds(logs)
    requires k < |logs|
    ensures i < |agg| && agg[i].employee_id == logs[k].employee_id
  {
    assert logs[k] in logs;
    assert logs[k].employee_id in IdsOf(agg);
    var g :| g in agg && g.employee_id == logs[k].employee_id;
    i :| 0 <= i < |agg| && agg[i] == g;
  }

  /** Each summary's employee has a log row. */
  lemma LogOfSummary(logs: seq<LogRow>, agg: seq<DailySummary>, i: nat) returns (k: nat)
    requires IdsOf(agg) == LoggedIds(logs)
    requires i < |agg|
    ensures k < |logs| && logs[k].employee_id == agg[i].employee_id
  {
    assert agg[i] in agg;
    assert agg[i].employee_id in LoggedIds(logs);
    var x :| x in logs && x.employee_id == agg[i].employee_id;
    k :| 0 <= k < |logs| && logs[k] == x;
  }

  /** The index-level reading of a keyed summary list. */
  lemma KeysOf(logs: seq<LogRow>, agg: seq<DailySummary>)
    requires Sorting.DistinctBy(agg, IdOf)
    requires IdsOf(agg) == LoggedIds(logs)
    ensures forall k :: 0 <= k < |logs| ==> exists i :: 0 <= i < |agg| && agg[i].employee_id == logs[k].employee_id
    ensures forall i :: 0 <= i < |agg| ==> exists k :: 0 <= k < |logs| && logs[k].employee_id == agg[i].employee_id
    ensures |agg| == |LoggedIds(logs)|
  {
    forall k | 0 <= k < |logs| ensures exists i :: 0 <= i < |agg| && agg[i].employee_id == logs[k].employee_id {
      var at := SummaryOfLog(logs, agg, k);
      assert agg[at].employee_id == logs[k].employee_id;
    }
    forall i | 0 <= i < |agg| ensures exists k :: 0 <= k < |logs| && logs[k].employee_id == agg[i].employee_id {
      var at := LogOfSummary(logs, agg, i);
      assert logs[at].employee_id == agg[i].employee_id;
    }
    KeyCount(logs, agg);
  }

  /** A keyed summary list has one entry per logged employee. */
  lemma KeyCount(logs: seq<LogRow>, agg: seq<DailySummary>)
    requires Sorting.DistinctBy(agg, IdOf)
    requires IdsOf(agg) == LoggedIds(logs)
    ensures |agg| == |LoggedIds(logs)|
  {
    Sorting.DistinctKeysCardinality(agg, IdOf);
    assert Sorting.KeySet(agg, IdOf) == IdsOf(agg);
  }

  /** Every employee with a log row has exactly one summary, and every
      summary belongs to an employee with a log row. */
  lemma AggregateKeys(logs: seq<LogRow>, empMap: map<string, Employee>, branchMap: map<string, string>)
    ensures Sorting.DistinctBy(Aggregate(logs, empMap, branchMap), IdOf)
    ensures forall k :: 0 <= k < |logs| ==> FindEmployee(Aggregate(logs, empMap, branchMap), logs[k].employee_id).Some?
    ensures forall i :: 0 <= i < |Aggregate(logs, empMap, branchMap)| ==>
      exists k :: 0 <= k < |logs| && logs[k].employee_id == Aggregate(logs, empMap, branchMap)[i].employee_id
    ensures |Aggregate(logs, empMap, branchMap)| == |LoggedIds(logs)|
  {
    var agg := Aggregate(logs, empMap, branchMap);
    assert Sorting.DistinctBy(agg, IdOf) && IdsOf(agg) == LoggedIds(logs) by {
      AggregateSummarises(logs, empMap, branchMap);
    }
    forall k | 0 <= k < |logs| ensures FindEmployee(agg, logs[k].employee_id).Some? {
      var at := SummaryOfLog(logs, agg, k);
      assert agg[at].employee_id == logs[k].employee_id;
    }
    KeysOf(logs, agg);
  }

  /** `(count || 0) - Object.keys(agg).length`: active employees minus the
      employees that have logs. It can be negative when inactive employees
      have logs. */
  function NoLogsCount(count: Option<int>, agg: seq<DailySummary>): (r: int)
    ensures count.None? ==> r == -|agg|
  {
    count.GetOr(0) - |agg|
  }

  /** When every employee with logs is active and the count is the number of
      active employees, the "no logs" figure is the number of active
      employees without a single log row. */
  lemma NoLogsCountIsUnlogged(logs: seq<LogRow>, active: set<string>, empMap: map<string, Employee>, branchMap: map<string, string>)
    requires LoggedIds(logs) <= active
    ensures NoLogsCount(Some(|active|), Aggregate(logs, empMap, branchMap)) == |active - LoggedIds(logs)|
  {
    var logged := LoggedIds(logs);
    assert |Aggregate(logs, empMap, branchMap)| == |logged| by {
      AggregateKeys(logs, empMap, branchMap);
    }
    assert active == (active - logged) + logged;
    assert |active| == |active - logged| + |logged|;
  }

  function BranchNameOf(s: DailySummary): string {
    s.branch_name
  }

  function FullNameOf(s: DailySummary): string {
    s.full_name
  }

  /** `a.branch_name.localeCompare(b.branch_name) || a.full_name.localeCompare(b.full_name)` */
  function SummaryOrder(collate: (string, string) -> bool): (DailySummary, DailySummary) -> bool {
    Sorting.ThenBy(collate, BranchNameOf, FullNameOf)
  }

  /** Reordering correct summaries keeps them correct. */
  lemma SummarisesPermutation(logs: seq<LogRow>, agg: seq<DailySummary>, r: seq<DailySummary>, empMap: map<string, Employee>, branchMap: map<string, string>)
    requires Summarises(logs, agg, empMap, branchMap)
    requires multiset(agg) == multiset(r)
    ensures Summarises(logs, r, empMap, branchMap)
  {
    Sorting.DistinctByPermutation(agg, r, IdOf);
    assert forall g :: g in r <==> g in agg by {
      forall g ensures g in r <==> g in agg {
        assert g in r <==> g in multiset(r);
      }
    }
    assert IdsOf(r) == IdsOf(agg);
  }

  /** The preview list: the per-employee summaries ordered by branch name,
      then by employee name. */
  function PreviewList(logs: seq<LogRow>, empMap: map<string, Employee>, branchMap: map<string, string>, collate: (string, string) -> bool): (r: seq<DailySummary>)
    requires Sorting.TotalPreorder(collate)
    ensures Summarises(logs, r, empMap, branchMap)
    ensures Sorting.SortedBy(r, SummaryOrder(collate))
    ensures multiset(r) == multiset(Aggregate(logs, empMap, branchMap))
  {
    var agg := Aggregate(logs, empMap, branchMap);
    AggregateSummarises(logs, empMap, branchMap);
    Sorting.ThenByTotalPreorder(collate, BranchNameOf, FullNameOf);
    var r := Sorting.SortBy(agg, SummaryOrder(collate));
    SummarisesPermutation(logs, agg, r, empMap, branchMap);
    r
  }

  /** The totals row above the preview table. */
  datatype PreviewTotals = PreviewTotals(logged: nat, absent: nat, shortages: Amount, advances: Amount, fines: Amount, extraShifts: Amount)

  function CounterOf(c: Counter): DailySummary -> real {
    (s: DailySummary) => CounterValue(s, c) as real
  }

  function TotalOf(c: LogColumn): DailySummary -> real {
    (s: DailySummary) => SummaryTotal(s, c)
  }

  function ColumnOf(c: LogColumn): LogRow -> real {
    (l: LogRow) => LogAmount(l, c)
  }

  function StatusIs(st: Status): LogRow -> bool {
    (l: LogRow) => l.status == st
  }

  /** The `reduce` in `previewTotals`. */
  function SumPreview(summaries: seq<DailySummary>): (t: PreviewTotals)
    ensures t.logged == |summaries|
    ensures t.absent as real == Sum(summaries, CounterOf(DaysAbsent))
    ensures t.shortages == Sum(summaries, TotalOf(Shortages))
    ensures t.advances == Sum(summaries, TotalOf(Advances))
    ensures t.fines == Sum(summaries, TotalOf(Fines))
    ensures t.extraShifts == Sum(summaries, TotalOf(ExtraShifts))
  {
    if |summaries| == 0 then PreviewTotals(0, 0, 0.0, 0.0, 0.0, 0.0)
    else
      var a := SumPreview(summaries[..|summaries| - 1]);
      var b := summaries[|summaries| - 1];
      PreviewTotals(a.logged + 1, a.absent + b.days_absent,
        a.shortages + b.total_shortages, a.advances + b.total_advances,
        a.fines + b.total_fines, a.extraShifts + b.total_extra_shifts)
  }

  /** The preview fold neither loses nor invents anything: each money column
      summed over the summaries equals the column summed over the log rows,
      and each status counter summed over the summaries counts the rows with
      that status. */
  lemma {:induction false} AggregatePreservesSums(logs: seq<LogRow>, empMap: map<string, Employee>, branchMap: map<string, string>)
    ensures forall c :: Sum(Aggregate(logs, empMap, branchMap), TotalOf(c)) == Sum(logs, ColumnOf(c))
    ensures forall c :: Sum(Aggregate(logs, empMap, branchMap), CounterOf(c)) == Count(logs, StatusIs(CounterStatus(c))) as real
  {
    forall c ensures Sum(Aggregate(logs, empMap, branchMap), TotalOf(c)) == Sum(logs, ColumnOf(c)) {
      AggregateTotal(logs, empMap, branchMap, c);
    }
    forall c ensures Sum(Aggregate(logs, empMap, branchMap), CounterOf(c)) == Count(logs, StatusIs(CounterStatus(c))) as real {
      AggregateCounter(logs, empMap, branchMap, c);
    }
  }

  /** One money column: the summaries add up to the logs' column. */
  lemma {:induction false} AggregateTotal(logs: seq<LogRow>, empMap: map<string, Employee>, branchMap: map<string, string>, c: LogColumn)
    ensures Sum(Aggregate(logs, empMap, branchMap), TotalOf(c)) == Sum(logs, ColumnOf(c))
  {
    if |logs| > 0 {
      var prefix := logs[..|logs| - 1];
      var l := logs[|logs| - 1];
      var agg := Aggregate(prefix, empMap, branchMap);
      AggregateTotal(prefix, empMap, branchMap, c);
      match FindEmployee(agg, l.employee_id)
      case Some(i) =>
        SumUpdate(agg, i, Tally(agg[i], l), TotalOf(c));
      case None =>
        SumSnoc(agg, Tally(Open(l, empMap, branchMap), l), TotalOf(c));
    }
  }

  /** One status counter: the summaries' counter adds up to the number of
      logs with that status. */
  lemma {:induction false} AggregateCounter(logs: seq<LogRow>, empMap: map<string, Employee>, branchMap: map<string, string>, c: Counter)
    ensures Sum(Aggregate(logs, empMap, branchMap), CounterOf(c)) == Count(logs, StatusIs(CounterStatus(c))) as real
  {
    if |logs| > 0 {
      var prefix := logs[..|logs| - 1];
      var l := logs[|logs| - 1];
      var agg := Aggregate(prefix, empMap, branchMap);
      AggregateCounter(prefix, empMap, branchMap, c);
      match FindEmployee(agg, l.employee_id)
      case Some(i) =>
        SumUpdate(agg, i, Tally(agg[i], l), CounterOf(c));
      case None =>
        SumSnoc(agg, Tally(Open(l, empMap, branchMap), l), CounterOf(c));
    }
  }

  /** Reordering the summaries does not change the preview totals. */
  lemma SumPreviewPermutation(a: seq<DailySummary>, b: seq<DailySummary>)
    requires multiset(a) == multiset(b)
    ensures SumPreview(a) == SumPreview(b)
  {
    SumPermutation(a, b, CounterOf(DaysAbsent));
    forall c ensures Sum(a, TotalOf(c)) == Sum(b, TotalOf(c)) {
      SumPermutation(a, b, TotalOf(c));
    }
    assert |a| == |multiset(a)| == |multiset(b)| == |b|;
    assert SumPreview(a).shortages == SumPreview(b).shortages;
    assert SumPreview(a).advances == SumPreview(b).advances;
    assert SumPreview(a).fines == SumPreview(b).fines;
    assert SumPreview(a).extraShifts == SumPreview(b).extraShifts;
  }

  /** The preview totals, end to end: one per employee with logs, the absent
      total counts the absent rows, and the money totals are the sums over
      all log rows of the period. */
  lemma PreviewTotalsOfLogs(logs: seq<LogRow>, empMap: map<string, Employee>, branchMap: map<string, string>, collate: (string, string) -> bool)
    requires Sorting.TotalPreorder(collate)
    ensures SumPreview(PreviewList(logs, empMap, branchMap, collate)).logged == |LoggedIds(logs)|
    ensures SumPreview(PreviewList(logs, empMap, branchMap, collate)).absent == Count(logs, StatusIs(Absent))
    ensures SumPreview(PreviewList(logs, empMap, branchMap, collate)).shortages == Sum(logs, ColumnOf(Shortages))
    ensures SumPreview(PreviewList(logs, empMap, branchMap, collate)).advances == Sum(logs, ColumnOf(Advances))
    ensures SumPreview(PreviewList(logs, empMap, branchMap, collate)).fines == Sum(logs, ColumnOf(Fines))
    ensures SumPreview(PreviewList(logs, empMap, branchMap, collate)).extraShifts == Sum(logs, ColumnOf(ExtraShifts))
  {
    var agg := Aggregate(logs, empMap, branchMap);
    assert SumPreview(PreviewList(logs, empMap, branchMap, collate)) == SumPreview(agg) by {
      SumPreviewPermutation(agg, PreviewList(logs, empMap, branchMap, collate));
    }
    assert |agg| == |LoggedIds(logs)| by {
      AggregateKeys(logs, empMap, branchMap);
    }
    AggregatePreservesSums(logs, empMap, branchMap);
    assert CounterStatus(DaysAbsent) == Absent;
  }

  /** A row of `payroll_records` as the backend procedure leaves it. */
  datatype RawRecord = RawRecord(
    employee_id: string,
    branch_id: string,
    gross_salary: Amount,
    net_salary_due: Amount,
    napsa_employee: Amount,
    nhima_employee: Amount,
    paye_tax: Amount,
    extra_shifts_count: Amount,
    extra_shift_total: Amount,
    bonus: Amount,
    shortage_amount: Amount,
    advances: Amount,
    fines: Amount,
    absent_days: Amount,
    absence_deduction: Amount,
    other_deductions: Amount,
    comments: Option<string>)

  /** A payroll record joined with its employee's and branch's names. */
  datatype FullPayrollRecord = FullPayrollRecord(
    employee_id: string,
    employee_name: string,
    position: string,
    branch_name: string,
    basic_salary: Amount,
    gross_salary: Amount,
    net_salary_due: Amount,
    napsa_employee: Amount,
    nhima_employee: Amount,
    paye_tax: Amount,
    extra_shifts_count: Amount,
    extra_shift_total: Amount,
    bonus: Amount,
    shortage_amount: Amount,
    advances: Amount,
    fines: Amount,
    absent_days: Amount,
    absence_deduction: Amount,
    other_deductions: Amount,
    comments: Option<string>)

  /** `+empMap[id]?.basic_salary || +r.gross_salary`: a missing employee, a
      null salary and a zero salary all fall back to the gross salary. */
  function BasicSalary(empMap: map<string, Employee>, id: string, gross: Amount): (r: Amount)
    ensures id in empMap && empMap[id].basic_salary.Some? && empMap[id].basic_salary.value != 0.0 ==> r == empMap[id].basic_salary.value
    ensures !(id in empMap && empMap[id].basic_salary.Some? && empMap[id].basic_salary.value != 0.0) ==> r == gross
  {
    if id in empMap && empMap[id].basic_salary.Some? && empMap[id].basic_salary.value != 0.0
    then empMap[id].basic_salary.value
    else gross
  }

  /** One element of the `records.map(...)` in `fetchPayrollRecords`. */
  function Enrich(r: RawRecord, empMap: map<string, Employee>, branchMap: map<string, string>): (f: FullPayrollRecord)
    ensures f.employee_id == r.employee_id && f.comments == r.comments
    ensures f.gross_salary == r.gross_salary && f.net_salary_due == r.net_salary_due
    ensures f.napsa_employee == r.napsa_employee && f.nhima_employee == r.nhima_employee && f.paye_tax == r.paye_tax
    ensures f.extra_shifts_count == r.extra_shifts_count && f.extra_shift_total == r.extra_shift_total && f.bonus == r.bonus
    ensures f.shortage_amount == r.shortage_amount && f.advances == r.advances && f.fines == r.fines
    ensures f.absent_days == r.absent_days && f.absence_deduction == r.absence_deduction && f.other_deductions == r.other_deductions
    ensures f.employee_name == EmployeeName(empMap, r.employee_id)
    ensures f.position == EmployeePosition(empMap, r.employee_id, "unknown")
    ensures f.branch_name == BranchName(branchMap, r.branch_id)
    ensures f.basic_salary == BasicSalary(empMap, r.employee_id, r.gross_salary)
  {
    FullPayrollRecord(r.employee_id, EmployeeName(empMap, r.employee_id),
      EmployeePosition(empMap, r.employee_id, "unknown"), BranchName(branchMap, r.branch_id),
      BasicSalary(empMap, r.employee_id, r.gross_salary),
      r.gross_salary, r.net_salary_due, r.napsa_employee, r.nhima_employee, r.paye_tax,
      r.extra_shifts_count, r.extra_shift_total, r.bonus, r.shortage_amount, r.advances, r.fines,
      r.absent_days, r.absence_deduction, r.other_deductions, r.comments)
  }

  /** The whole `records.map(...)`. */
  function EnrichAll(rs: seq<RawRecord>, empMap: map<string, Employee>, branchMap: map<string, string>): (f: seq<FullPayrollRecord>)
    ensures |f| == |rs|
    ensures forall k :: 0 <= k < |rs| ==> f[k] == Enrich(rs[k], empMap, branchMap)
  {
    if |rs| == 0 then []
    else EnrichAll(rs[..|rs| - 1], empMap, branchMap) + [Enrich(rs[|rs| - 1], empMap, branchMap)]
  }

  function EmployeeNameOf(r: FullPayrollRecord): string {
    r.employee_name
  }

  function RecordBranchOf(r: FullPayrollRecord): string {
    r.branch_name
  }

  /** `a.branch_name.localeCompare(b.branch_name) || a.employee_name.localeCompare(b.employee_name)` */
  function RecordOrder(collate: (string, string) -> bool): (FullPayrollRecord, FullPayrollRecord) -> bool {
    Sorting.ThenBy(collate, RecordBranchOf, EmployeeNameOf)
  }

  /** `fetchPayrollRecords`: `None` when the query returned nothing (the
      page then keeps the records it already shows), otherwise every record
      enriched, ordered by branch name and then employee name. */
  function FetchPayrollRecords(fetched: Option<seq<RawRecord>>, empMap: map<string, Employee>, branchMap: map<string, string>, collate: (string, string) -> bool): (r: Option<seq<FullPayrollRecord>>)
    requires Sorting.TotalPreorder(collate)
    ensures r.None? <==> fetched.None? || |fetched.value| == 0
    ensures r.Some? ==> multiset(r.value) == multiset(EnrichAll(fetched.value, empMap, branchMap))
    ensures r.Some? ==> Sorting.SortedBy(r.value, RecordOrder(collate))
    ensures r.Some? ==> |r.value| == |fetched.value|
  {
    if fetched.None? || |fetched.value| == 0 then None
    else
      Sorting.ThenByTotalPreorder(collate, RecordBranchOf, EmployeeNameOf);
      Some(Sorting.SortBy(EnrichAll(fetched.value, empMap, branchMap), RecordOrder(collate)))
  }

  /** Every fetched record appears, enriched, in the ordered result, and
      nothing else does. */
  lemma FetchedRecordsComplete(fetched: seq<RawRecord>, empMap: map<string, Employee>, branchMap: map<string, string>, collate: (string, string) -> bool)
    requires Sorting.TotalPreorder(collate)
    requires |fetched| > 0
    ensures forall k :: 0 <= k < |fetched| ==> Enrich(fetched[k], empMap, branchMap) in FetchPayrollRecords(Some(fetched), empMap, branchMap, collate).value
    ensures forall f | f in FetchPayrollRecords(Some(fetched), empMap, branchMap, collate).value ::
      exists k :: 0 <= k < |fetched| && f == Enrich(fetched[k], empMap, branchMap)
  {
    var all := EnrichAll(fetched, empMap, branchMap);
    var r := FetchPayrollRecords(Some(fetched), empMap, branchMap, collate).value;
    forall k | 0 <= k < |fetched| ensures Enrich(fetched[k], empMap, branchMap) in r {
      assert all[k] in multiset(all);
    }
    forall f | f in r ensures exists k :: 0 <= k < |fetched| && f == Enrich(fetched[k], empMap, branchMap) {
      assert f in multiset(r);
      assert f in all;
    }
  }

  /** The money columns of the result totals. */
  datatype ResultColumn = NetDue | GrossPay | ShortageDue | AdvancesDue | FinesDue

  function ResultAmount(r: FullPayrollRecord, c: ResultColumn): Amount {
    match c
    case NetDue => r.net_salary_due
    case GrossPay => r.gross_salary
    case ShortageDue => r.shortage_amount
    case AdvancesDue => r.advances
    case FinesDue => r.fines
  }

  function RawAmount(r: RawRecord, c: ResultColumn): Amount {
    match c
    case NetDue => r.net_salary_due
    case GrossPay => r.gross_salary
    case ShortageDue => r.shortage_amount
    case AdvancesDue => r.advances
    case FinesDue => r.fines
  }

  function ResultColumnOf(c: ResultColumn): FullPayrollRecord -> real {
    (r: FullPayrollRecord) => ResultAmount(r, c)
  }

  function RawColumnOf(c: ResultColumn): RawRecord -> real {
    (r: RawRecord) => RawAmount(r, c)
  }

  /** The totals row above the results table. */
  datatype ResultTotals = ResultTotals(count: nat, net: Amount, gross: Amount, shortages: Amount, advances: Amount, fines: Amount)

  function TotalsColumn(t: ResultTotals, c: ResultColumn): Amount {
    match c
    case NetDue => t.net
    case GrossPay => t.gross
    case ShortageDue => t.shortages
    case AdvancesDue => t.advances
    case FinesDue => t.fines
  }

  /** The `reduce` in `resultTotals`. */
  function SumResults(records: seq<FullPayrollRecord>): (t: ResultTotals)
    ensures t.count == |records|
    ensures forall c :: TotalsColumn(t, c) == Sum(records, ResultColumnOf(c))
  {
    if |records| == 0 then ResultTotals(0, 0.0, 0.0, 0.0, 0.0, 0.0)
    else
      var a := SumResults(records[..|records| - 1]);
      var b := records[|records| - 1];
      ResultTotals(a.count + 1, a.net + b.net_salary_due, a.gross + b.gross_salary,
        a.shortages + b.shortage_amount, a.advances + b.advances, a.fines + b.fines)
  }

  /** Enrichment keeps every money column's sum. */
  lemma {:induction false} EnrichAllSums(rs: seq<RawRecord>, empMap: map<string, Employee>, branchMap: map<string, string>, c: ResultColumn)
    ensures Sum(EnrichAll(rs, empMap, branchMap), ResultColumnOf(c)) == Sum(rs, RawColumnOf(c))
  {
    if |rs| > 0 {
      var prefix := rs[..|rs| - 1];
      var x := rs[|rs| - 1];
      var before := EnrichAll(prefix, empMap, branchMap);
      var e := Enrich(x, empMap, branchMap);
      EnrichAllSums(prefix, empMap, branchMap, c);
      assert Sum(rs, RawColumnOf(c)) == Sum(prefix, RawColumnOf(c)) + RawAmount(x, c);
      assert ResultAmount(e, c) == RawAmount(x, c);
      assert EnrichAll(rs, empMap, branchMap) == before + [e];
      SumSnoc(before, e, ResultColumnOf(c));
    }
  }

  /** The results totals, end to end: the count is the number of payroll
      records and each money total is that column's sum over the records as
      fetched, whatever order they were sorted into. */
  lemma ResultTotalsOfRecords(fetched: seq<RawRecord>, empMap: map<string, Employee>, branchMap: map<string, string>, collate: (string, string) -> bool)
    requires Sorting.TotalPreorder(collate)
    requires |fetched| > 0
    ensures SumResults(FetchPayrollRecords(Some(fetched), empMap, branchMap, collate).value).count == |fetched|
    ensures forall c :: TotalsColumn(SumResults(FetchPayrollRecords(Some(fetched), empMap, branchMap, collate).value), c) == Sum(fetched, RawColumnOf(c))
  {
    var all := EnrichAll(fetched, empMap, branchMap);
    var r := FetchPayrollRecords(Some(fetched), empMap, branchMap, collate).value;
    forall c ensures Sum(r, ResultColumnOf(c)) == Sum(fetched, RawColumnOf(c)) {
      SumPermutation(all, r, ResultColumnOf(c));
      EnrichAllSums(fetched, empMap, branchMap, c);
    }
  }

  /** A payroll period to choose from. */
  datatype Period = Period(id: string, period_name: string, start_date: string, end_date: string)

  /** `periods.find((p) => p.id === periodId)` */
  function FindPeriod(periods: seq<Period>, id: string): (r: Option<Period>)
    ensures r.Some? ==> r.value in periods && r.value.id == id
    ensures r.None? ==> forall k :: 0 <= k < |periods| ==> periods[k].id != id
  {
    if |periods| == 0 then None
    else if periods[0].id == id then Some(periods[0])
    else FindPeriod(periods[1..], id)
  }

  /** `selectedPeriod?.start_date || ""` */
  function MonthStart(periods: seq<Period>, id: string): (r: string)
    ensures FindPeriod(periods, id).None? ==> r == ""
    ensures FindPeriod(periods, id).Some? ==> r == FindPeriod(periods, id).value.start_date
  {
    match FindPeriod(periods, id)
    case None => ""
    case Some(p) => p.start_date
  }

  /** The page's progress through a payroll run. */
  datatype Step = Select | Preview | Generating | Results

  /** The page state the transitions touch. */
  datatype GeneratorState = GeneratorState(
    periodId: string,
    step: Step,
    summaries: seq<DailySummary>,
    records: seq<FullPayrollRecord>,
    error: Option<string>,
    noLogsCount: int,
    loading: bool)

  function Init(): GeneratorState {
    GeneratorState("", Select, [], [], None, 0, false)
  }

  /** The period select's `onChange`: back to the first step with nothing
      loaded. */
  function ChangePeriod(st: GeneratorState, id: string): (t: GeneratorState)
    ensures t.periodId == id && t.step == Select && t.records == [] && t.summaries == []
    ensures t.error == st.error && t.noLogsCount == st.noLogsCount && t.loading == st.loading
  {
    st.(periodId := id, step := Select, records := [], summaries := [])
  }

  /** The "Back" button on the results. */
  function PressBack(st: GeneratorState): (t: GeneratorState)
    ensures t.step == Select && t.records == [] && t.summaries == []
    ensures t.periodId == st.periodId && t.error == st.error
  {
    st.(step := Select, records := [], summaries := [])
  }

  /** `loadPreview`: nothing happens without a period and a start date; a
      failed log query reports its message and stays on the current step;
      otherwise the sorted summaries and the "no logs" count are shown on
      the preview step. */
  function LoadPreview(st: GeneratorState, periods: seq<Period>, logs: Result<seq<LogRow>>, empMap: map<string, Employee>, branchMap: map<string, string>, activeCount: Option<int>, collate: (string, string) -> bool): (t: GeneratorState)
    requires Sorting.TotalPreorder(collate)
    ensures st.periodId == "" || MonthStart(periods, st.periodId) == "" ==> t == st
    ensures st.periodId != "" && MonthStart(periods, st.periodId) != "" && logs.Err? ==>
      t == st.(error := Some(logs.message), loading := false)
    ensures st.periodId != "" && MonthStart(periods, st.periodId) != "" && logs.Ok? ==>
      && t.step == Preview && t.error.None? && !t.loading
      && t.summaries == PreviewList(logs.value, empMap, branchMap, collate)
      && t.noLogsCount == NoLogsCount(activeCount, Aggregate(logs.value, empMap, branchMap))
      && t.records == st.records && t.periodId == st.periodId
  {
    if st.periodId == "" || MonthStart(periods, st.periodId) == "" then st
    else match logs
      case Err(m) => st.(error := Some(m), loading := false)
      case Ok(ls) =>
        st.(error := None, loading := false, step := Preview,
            noLogsCount := NoLogsCount(activeCount, Aggregate(ls, empMap, branchMap)),
            summaries := PreviewList(ls, empMap, branchMap, collate))
  }

  /** The first half of `generatePayroll`, before the backend answers. */
  function StartGenerate(st: GeneratorState): (t: GeneratorState)
    ensures t.step == Generating && t.error.None?
    ensures t.records == st.records && t.summaries == st.summaries
  {
    st.(step := Generating, error := None)
  }

  /** The second half of `generatePayroll`: a failed procedure call goes back
      to the preview with its message; a successful one shows the fetched
      records (or keeps the old ones when none came back) on the results
      step. */
  function FinishGenerate(st: GeneratorState, rpc: Outcome, fetched: Option<seq<RawRecord>>, empMap: map<string, Employee>, branchMap: map<string, string>, collate: (string, string) -> bool): (t: GeneratorState)
    requires Sorting.TotalPreorder(collate)
    ensures rpc.Fail? ==> t == st.(error := Some(rpc.message), step := Preview)
    ensures rpc.Pass? ==> t.step == Results && t.error == st.error && t.summaries == st.summaries
    ensures rpc.Pass? && FetchPayrollRecords(fetched, empMap, branchMap, collate).None? ==> t.records == st.records
    ensures rpc.Pass? && FetchPayrollRecords(fetched, empMap, branchMap, collate).Some? ==>
      t.records == FetchPayrollRecords(fetched, empMap, branchMap, collate).value
  {
    match rpc
    case Fail(m) => st.(error := Some(m), step := Preview)
    case Pass =>
      var records := match FetchPayrollRecords(fetched, empMap, branchMap, collate)
        case None => st.records
        case Some(rs) => rs;
      st.(records := records, step := Results)
  }

  /** `generatePayroll` as a whole. */
  function Generate(st: GeneratorState, rpc: Outcome, fetched: Option<seq<RawRecord>>, empMap: map<string, Employee>, branchMap: map<string, string>, collate: (string, string) -> bool): GeneratorState
    requires Sorting.TotalPreorder(collate)
  {
    FinishGenerate(StartGenerate(st), rpc, fetched, empMap, branchMap, collate)
  }

  /** What the page keeps true: records exist only on the results step, and
      the first step shows no summaries. */
  predicate Consistent(st: GeneratorState) {
    && (st.step != Results ==> st.records == [])
    && (st.step == Select ==> st.summaries == [])
  }

  /** The initial state is consistent, and so is every state reached by the
      controls the page shows: the period select and "Back" at any time, the
      preview button on the first step and the generate button on the
      preview step. */
  lemma TransitionsKeepConsistent(st: GeneratorState, id: string, periods: seq<Period>, logs: Result<seq<LogRow>>, rpc: Outcome, fetched: Option<seq<RawRecord>>,
                                  empMap: map<string, Employee>, branchMap: map<string, string>, activeCount: Option<int>, collate: (string, string) -> bool)
    requires Sorting.TotalPreorder(collate)
    requires Consistent(st)
    ensures Consistent(Init())
    ensures Consistent(ChangePeriod(st, id))
    ensures Consistent(PressBack(st))
    ensures st.step == Select ==> Consistent(LoadPreview(st, periods, logs, empMap, branchMap, activeCount, collate))
    ensures st.step == Preview ==> Consistent(StartGenerate(st))
    ensures st.step == Preview ==> Consistent(Generate(st, rpc, fetched, empMap, branchMap, collate))
  {
  }

  /** Generating from the preview: a failure returns to the preview with the
      message and no records; a success shows exactly the fetched records,
      or none at all when the query returned nothing. */
  lemma GenerateFromPreview(st: GeneratorState, rpc: Outcome, fetched: Option<seq<RawRecord>>, empMap: map<string, Employee>, branchMap: map<string, string>, collate: (string, string) -> bool)
    requires Sorting.TotalPreorder(collate)
    requires Consistent(st) && st.step == Preview
    ensures rpc.Fail? ==> Generate(st, rpc, fetched, empMap, branchMap, collate).step == Preview
    ensures rpc.Fail? ==> Generate(st, rpc, fetched, empMap, branchMap, collate).error == Some(rpc.message)
    ensures rpc.Fail? ==> Generate(st, rpc, fetched, empMap, branchMap, collate).records == []
    ensures rpc.Pass? ==> Generate(st, rpc, fetched, empMap, branchMap, collate).step == Results
    ensures rpc.Pass? ==> |Generate(st, rpc, fetched, empMap, branchMap, collate).records| == if fetched.Some? then |fetched.value| else 0
  {
  }

  /** The payslip of a result row: the record's own fields with the selected
      period's name and dates, empty when no period is selected; result rows
      carry no leave balances. */
  function PayslipOf(r: FullPayrollRecord, period: Option<Period>): (d: Payslip.PayslipData)
    ensures d.employee_name == r.employee_name && d.employee_id == r.employee_id
    ensures d.position == r.position && d.branch_name == r.branch_name && d.comments == r.comments
    ensures d.basic_salary == r.basic_salary && d.gross_salary == r.gross_salary && d.net_salary_due == r.net_salary_due
    ensures d.napsa_employee == r.napsa_employee && d.nhima_employee == r.nhima_employee && d.paye_tax == r.paye_tax
    ensures d.extra_shifts_count == r.extra_shifts_count && d.extra_shift_total == r.extra_shift_total && d.bonus == r.bonus
    ensures d.shortage_amount == r.shortage_amount && d.advances == r.advances && d.fines == r.fines
    ensures d.absent_days == r.absent_days && d.absence_deduction == r.absence_deduction
    ensures d.other_deductions == r.other_deductions
    ensures period.None? ==> d.period_name == "" && d.period_start == "" && d.period_end == ""
    ensures period.Some? ==>
      d.period_name == period.value.period_name && d.period_start == period.value.start_date && d.period_end == period.value.end_date
    ensures d.leave.None?
  {
    var name := if period.Some? then OrElse(period.value.period_name, "") else "";
    var start := if period.Some? then OrElse(period.value.start_date, "") else "";
    var end := if period.Some? then OrElse(period.value.end_date, "") else "";
    Payslip.PayslipData(r.employee_name, r.employee_id, r.position, r.branch_name, name, start, end,
      r.basic_salary, r.extra_shifts_count, r.extra_shift_total, r.bonus, r.gross_salary,
      r.napsa_employee, r.nhima_employee, r.paye_tax, r.shortage_amount, r.advances, r.fines,
      r.absent_days, r.absence_deduction, r.other_deductions, r.net_salary_due, r.comments, None)
  }

  /** The payslips of a batch download: one per result row, in table order. */
  function BatchPayslips(records: seq<FullPayrollRecord>, period: Option<Period>): (ds: seq<Payslip.PayslipData>)
    ensures |ds| == |records|
    ensures forall k :: 0 <= k < |records| ==> ds[k] == PayslipOf(records[k], period)
  {
    seq(|records|, k requires 0 <= k < |records| => PayslipOf(records[k], period))
  }

  /** A batch is named after the selected period, and after "Payroll" when
      there are no rows, no period, or a period without a name. */
  lemma BatchNamedAfterPeriod(records: seq<FullPayrollRecord>, period: Option<Period>)
    ensures |records| == 0 || period.None? || period.value.period_name == "" ==>
      Payslip.BatchFileName(BatchPayslips(records, period)) == "All_Payslips_" + "Payroll" + ".pdf"
    ensures |records| > 0 && period.Some? && period.value.period_name != "" && Text.NoSpace(period.value.period_name) ==>
      Payslip.BatchFileName(BatchPayslips(records, period)) == "All_Payslips_" + period.value.period_name + ".pdf"
  {
    var ds := BatchPayslips(records, period);
    if |records| == 0 || period.None? || period.value.period_name == "" {
      Payslip.BatchFileNameFallback(ds);
    } else {
      assert ds[0].period_name == period.value.period_name;
    }
  }
}
