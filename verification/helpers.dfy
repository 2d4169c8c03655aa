/** The branch summariser and the small lookups shared by the dashboard
    pages (lib/helpers.ts). Payroll records are grouped by branch display
    name, nine money columns and a head count are summed per group, and the
    groups are sorted by head count, largest first. `SumTotals` then folds
    the groups into grand totals. */
module Helpers {
  import opened Common
  import opened Folds
  import Sorting
  import Text

  /** One employee's payroll record for a period, enriched with display
      names. */
  datatype PayrollRecord = PayrollRecord(
    full_name: string,
    branch_name: string,
    position: string,
    gross_salary: Amount,
    net_salary_due: Amount,
    napsa_employee: Amount,
    nhima_employee: Amount,
    paye_tax: Amount,
    extra_shifts_count: Amount,
    extra_shift_total: Amount,
    bonus: Amount,
    shortage_amount: Amount,
    advances: Amount,
    fines: Amount,
    absent_days: Amount,
    absence_deduction: Amount,
    comments: Option<string>)

  /** Column sums for one branch. */
  datatype BranchSummary = BranchSummary(
    branch: string,
    employees: nat,
    gross: Amount,
    net: Amount,
    napsa: Amount,
    nhima: Amount,
    paye: Amount,
    shortages: Amount,
    advances: Amount,
    fines: Amount,
    extraShifts: Amount)

  /** Grand totals over all branches. There is no PAYE column: the source
      drops it from the fold. */
  datatype Totals = Totals(
    employees: nat,
    gross: Amount,
    net: Amount,
    napsa: Amount,
    nhima: Amount,
    shortages: Amount,
    advances: Amount,
    fines: Amount,
    extraShifts: Amount)

  /** The nine money columns a branch summary accumulates. */
  datatype Column = Gross | Net | Napsa | Nhima | Paye | Shortages | Advances | Fines | ExtraShifts

  /** The record field feeding each summary column. */
  function RecordAmount(r: PayrollRecord, c: Column): Amount {
    match c
    case Gross => r.gross_salary
    case Net => r.net_salary_due
    case Napsa => r.napsa_employee
    case Nhima => r.nhima_employee
    case Paye => r.paye_tax
    case Shortages => r.shortage_amount
    case Advances => r.advances
    case Fines => r.fines
    case ExtraShifts => r.extra_shift_total
  }

  function SummaryAmount(s: BranchSummary, c: Column): Amount {
    match c
    case Gross => s.gross
    case Net => s.net
    case Napsa => s.napsa
    case Nhima => s.nhima
    case Paye => s.paye
    case Shortages => s.shortages
    case Advances => s.advances
    case Fines => s.fines
    case ExtraShifts => s.extraShifts
  }

  function TotalsAmount(t: Totals, c: Column): Amount
    requires c != Paye
  {
    match c
    case Gross => t.gross
    case Net => t.net
    case Napsa => t.napsa
    case Nhima => t.nhima
    case Shortages => t.shortages
    case Advances => t.advances
    case Fines => t.fines
    case ExtraShifts => t.extraShifts
  }

  function BranchOf(s: BranchSummary): string {
    s.branch
  }

  /** The summary a branch starts with the first time one of its records is
      seen. */
  function NewSummary(b: string): BranchSummary {
    BranchSummary(b, 0, 0.0, 0.0, 0.0, 0.0, 0.0, 0.0, 0.0, 0.0, 0.0)
  }

  /** Adds one record to a branch summary. */
  function AddRecord(s: BranchSummary, r: PayrollRecord): (t: BranchSummary)
    ensures t.branch == s.branch && t.employees == s.employees + 1
    ensures forall c :: SummaryAmount(t, c) == SummaryAmount(s, c) + RecordAmount(r, c)
  {
    s.(employees := s.employees + 1,
       gross := s.gross + r.gross_salary,
       net := s.net + r.net_salary_due,
       napsa := s.napsa + r.napsa_employee,
       nhima := s.nhima + r.nhima_employee,
       paye := s.paye + r.paye_tax,
       shortages := s.shortages + r.shortage_amount,
       advances := s.advances + r.advances,
       fines := s.fines + r.fines,
       extraShifts := s.extraShifts + r.extra_shift_total)
  }

  /** The position of branch `b` among the groups built so far. */
  function FindBranch(groups: seq<BranchSummary>, b: string): (r: Option<nat>)
    ensures r.Some? ==> r.value < |groups| && groups[r.value].branch == b
    ensures r.None? ==> forall i :: 0 <= i < |groups| ==> groups[i].branch != b
  {
    if |groups| == 0 then None
    else if groups[|groups| - 1].branch == b then Some(|groups| - 1)
    else FindBranch(groups[..|groups| - 1], b)
  }

  /** The position of the last record of branch `b`. */
  function FindRecord(records: seq<PayrollRecord>, b: string): (r: Option<nat>)
    ensures r.Some? ==> r.value < |records| && records[r.value].branch_name == b
    ensures r.None? ==> forall k :: 0 <= k < |records| ==> records[k].branch_name != b
  {
    if |records| == 0 then None
    else if records[|records| - 1].branch_name == b then Some(|records| - 1)
    else FindRecord(records[..|records| - 1], b)
  }

  /** One `forEach` step: add the record to its branch's group, creating
      the group on first sight. */
  function Accumulate(groups: seq<BranchSummary>, r: PayrollRecord): seq<BranchSummary> {
    match FindBranch(groups, r.branch_name)
    case Some(i) => groups[i := AddRecord(groups[i], r)]
    case None => groups + [AddRecord(NewSummary(r.branch_name), r)]
  }

  /** One `forEach` step adds the record to its branch's summary, or opens
      a summary for a new branch at the end; every other branch is left
      alone. */
  lemma AccumulateShape(groups: seq<BranchSummary>, r: PayrollRecord, t: seq<BranchSummary>)
    requires t == Accumulate(groups, r)
    ensures FindBranch(groups, r.branch_name).Some? ==>
      |t| == |groups| && t[FindBranch(groups, r.branch_name).value] == AddRecord(groups[FindBranch(groups, r.branch_name).value], r)
    ensures FindBranch(groups, r.branch_name).None? ==> |t| == |groups| + 1 && t[|groups|] == AddRecord(NewSummary(r.branch_name), r)
    ensures forall j :: 0 <= j < |groups| && groups[j].branch != r.branch_name ==> t[j] == groups[j]
  {
  }

  /** `Object.values(map)` after the `forEach`: groups in order of each
      branch's first record. */
  function GroupByBranch(records: seq<PayrollRecord>): seq<BranchSummary> {
    if |records| == 0 then []
    else Accumulate(GroupByBranch(records[..|records| - 1]), records[|records| - 1])
  }

  /** The comparator `b.employees - a.employees <= 0`. */
  function MoreEmployees(a: BranchSummary, b: BranchSummary): bool {
    a.employees >= b.employees
  }

  function OfBranch(b: string): PayrollRecord -> bool {
    (r: PayrollRecord) => r.branch_name == b
  }

  function AmountIn(b: string, c: Column): PayrollRecord -> real {
    (r: PayrollRecord) => if r.branch_name == b then RecordAmount(r, c) else 0.0
  }

  function AmountOf(c: Column): PayrollRecord -> real {
    (r: PayrollRecord) => RecordAmount(r, c)
  }

  function SummaryColumn(c: Column): BranchSummary -> real {
    (s: BranchSummary) => SummaryAmount(s, c)
  }

  function Heads(s: BranchSummary): real {
    s.employees as real
  }

  /** The number of records of branch `b`. */
  function Headcount(records: seq<PayrollRecord>, b: string): nat {
    Count(records, OfBranch(b))
  }

  /** The sum of column `c` over the records of branch `b`. */
  function BranchTotal(records: seq<PayrollRecord>, b: string, c: Column): real {
    Sum(records, AmountIn(b, c))
  }

  ghost function BranchNames(records: seq<PayrollRecord>): set<string> {
    set r | r in records :: r.branch_name
  }

  ghost function BranchesOf(groups: seq<BranchSummary>): set<string> {
    set g | g in groups :: g.branch
  }

  /** `groups` holds exactly one correct summary per branch of `records`. */
  ghost predicate Describes(records: seq<PayrollRecord>, groups: seq<BranchSummary>) {
    && Sorting.DistinctBy(groups, BranchOf)
    && BranchesOf(groups) == BranchNames(records)
    && (forall g | g in groups :: g.employees == Headcount(records, g.branch))
    && (forall g, c | g in groups :: SummaryAmount(g, c) == BranchTotal(records, g.branch, c))
  }

  lemma HeadcountSnoc(records: seq<PayrollRecord>, r: PayrollRecord, b: string)
    ensures Headcount(records + [r], b) == Headcount(records, b) + (if r.branch_name == b then 1 else 0)
  {
    CountSnoc(records, r, OfBranch(b));
  }

  lemma BranchTotalSnoc(records: seq<PayrollRecord>, r: PayrollRecord, b: string, c: Column)
    ensures BranchTotal(records + [r], b, c)
         == BranchTotal(records, b, c) + (if r.branch_name == b then RecordAmount(r, c) else 0.0)
  {
    SumSnoc(records, r, AmountIn(b, c));
  }

  /** A branch without records has head count 0 and all sums 0. */
  lemma AbsentBranch(records: seq<PayrollRecord>, b: string)
    requires b !in BranchNames(records)
    ensures Headcount(records, b) == 0
    ensures forall c :: BranchTotal(records, b, c) == 0.0
  {
    assert forall k :: 0 <= k < |records| ==> records[k] in records;
    CountNone(records, OfBranch(b));
    forall c ensures BranchTotal(records, b, c) == 0.0 {
      SumZero(records, AmountIn(b, c));
    }
  }

  /** One more record moves only its own branch's head count and sums. */
  lemma StepTotals(records: seq<PayrollRecord>, r: PayrollRecord)
    ensures forall x :: Headcount(records + [r], x) == Headcount(records, x) + (if r.branch_name == x then 1 else 0)
    ensures forall x, c :: BranchTotal(records + [r], x, c) == BranchTotal(records, x, c) + (if r.branch_name == x then RecordAmount(r, c) else 0.0)
  {
    forall x ensures Headcount(records + [r], x) == Headcount(records, x) + (if r.branch_name == x then 1 else 0) {
      HeadcountSnoc(records, r, x);
    }
    forall x, c ensures BranchTotal(records + [r], x, c) == BranchTotal(records, x, c) + (if r.branch_name == x then RecordAmount(r, c) else 0.0) {
      BranchTotalSnoc(records, r, x, c);
    }
  }

  /** The step for a record whose branch already has a group. */
  lemma AccumulateSeen(records: seq<PayrollRecord>, groups: seq<BranchSummary>, r: PayrollRecord, i: nat)
    requires Describes(records, groups)
    requires i < |groups| && groups[i].branch == r.branch_name
    ensures Describes(records + [r], groups[i := AddRecord(groups[i], r)])
  {
    var rs := records + [r];
    var b := r.branch_name;
    var out := groups[i := AddRecord(groups[i], r)];
    StepTotals(records, r);
    assert BranchNames(rs) == BranchNames(records) + {b};
    assert forall k :: 0 <= k < |groups| && k != i ==> groups[k].branch != b by {
      forall k | 0 <= k < |groups| && k != i ensures groups[k].branch != b {
        assert BranchOf(groups[k]) != BranchOf(groups[i]);
      }
    }
    assert BranchesOf(out) == BranchesOf(groups) by {
      forall x | x in BranchesOf(groups) ensures x in BranchesOf(out) {
        var g :| g in groups && g.branch == x;
        var k :| 0 <= k < |groups| && groups[k] == g;
        assert out[k].branch == x;
      }
    }
  }

  /** The step for a record opening a new group. */
  lemma AccumulateNew(records: seq<PayrollRecord>, groups: seq<BranchSummary>, r: PayrollRecord)
    requires Describes(records, groups)
    requires forall k :: 0 <= k < |groups| ==> groups[k].branch != r.branch_name
    ensures Describes(records + [r], groups + [AddRecord(NewSummary(r.branch_name), r)])
  {
    var rs := records + [r];
    var b := r.branch_name;
    var out := groups + [AddRecord(NewSummary(b), r)];
    StepTotals(records, r);
    assert BranchNames(rs) == BranchNames(records) + {b};
    assert b !in BranchNames(records);
    AbsentBranch(records, b);
    assert BranchesOf(out) == BranchesOf(groups) + {b};
  }

  /** One `forEach` step keeps the groups describing the records seen. */
  lemma AccumulateStep(records: seq<PayrollRecord>, groups: seq<BranchSummary>, r: PayrollRecord)
    requires Describes(records, groups)
    ensures Describes(records + [r], Accumulate(groups, r))
  {
    match FindBranch(groups, r.branch_name)
    case Some(i) => AccumulateSeen(records, groups, r, i);
    case None => AccumulateNew(records, groups, r);
  }

  /** The grouping fold describes its input. */
  lemma {:induction false} GroupByBranchDescribes(records: seq<PayrollRecord>)
    ensures Describes(records, GroupByBranch(records))
  {
    if |records| > 0 {
      var prefix := records[..|records| - 1];
      GroupByBranchDescribes(prefix);
      assert records == prefix + [records[|records| - 1]];
      AccumulateStep(prefix, GroupByBranch(prefix), records[|records| - 1]);
    }
  }

  /** Reordering a description of the records keeps it a description. */
  lemma DescribesPermutation(records: seq<PayrollRecord>, groups: seq<BranchSummary>, r: seq<BranchSummary>)
    requires Describes(records, groups)
    requires multiset(groups) == multiset(r)
    ensures Describes(records, r)
  {
    Sorting.DistinctByPermutation(groups, r, BranchOf);
    assert forall g :: g in r <==> g in groups by {
      forall g ensures g in r <==> g in groups {
        assert g in r <==> g in multiset(r);
      }
    }
    assert BranchesOf(r) == BranchesOf(groups);
  }

  /** Each record's branch has a summary entry. */
  lemma GroupOfRecord(records: seq<PayrollRecord>, r: seq<BranchSummary>, k: nat) returns (i: nat)
    requires BranchesOf(r) == BranchNames(records)
    requires k < |records|
    ensures i < |r| && r[i].branch == records[k].branch_name
  {
    assert records[k] in records;
    assert records[k].branch_name in BranchesOf(r);
    var g :| g in r && g.branch == records[k].branch_name;
    i :| 0 <= i < |r| && r[i] == g;
  }

  /** Each summary entry's branch has a record. */
  lemma RecordOfGroup(records: seq<PayrollRecord>, r: seq<BranchSummary>, i: nat) returns (k: nat)
    requires BranchesOf(r) == BranchNames(records)
    requires i < |r|
    ensures k < |records| && records[k].branch_name == r[i].branch
  {
    assert r[i] in r;
    assert r[i].branch in BranchNames(records);
    var x :| x in records && x.branch_name == r[i].branch;
    k :| 0 <= k < |records| && records[k] == x;
  }

  /** Every record's branch has a summary entry. */
  lemma RecordsHaveGroups(records: seq<PayrollRecord>, r: seq<BranchSummary>)
    requires BranchesOf(r) == BranchNames(records)
    ensures forall k :: 0 <= k < |records| ==> FindBranch(r, records[k].branch_name).Some?
  {
    forall k | 0 <= k < |records| ensures FindBranch(r, records[k].branch_name).Some? {
      var at := GroupOfRecord(records, r, k);
      assert r[at].branch == records[k].branch_name;
    }
  }

  /** Every summary entry's branch has a record. */
  lemma GroupsHaveRecords(records: seq<PayrollRecord>, r: seq<BranchSummary>)
    requires BranchesOf(r) == BranchNames(records)
    ensures forall i :: 0 <= i < |r| ==> FindRecord(records, r[i].branch).Some?
  {
    forall i | 0 <= i < |r| ensures FindRecord(records, r[i].branch).Some? {
      var at := RecordOfGroup(records, r, i);
      assert records[at].branch_name == r[i].branch;
    }
  }

  /** The keys of a description, index by index. */
  lemma DescribedKeys(records: seq<PayrollRecord>, r: seq<BranchSummary>)
    requires Sorting.DistinctBy(r, BranchOf)
    requires BranchesOf(r) == BranchNames(records)
    ensures forall i, j :: 0 <= i < j < |r| ==> r[i].branch != r[j].branch
    ensures forall k :: 0 <= k < |records| ==> FindBranch(r, records[k].branch_name).Some?
    ensures forall i :: 0 <= i < |r| ==> FindRecord(records, r[i].branch).Some?
  {
    forall i, j | 0 <= i < j < |r| ensures r[i].branch != r[j].branch {
      assert BranchOf(r[i]) != BranchOf(r[j]);
    }
    RecordsHaveGroups(records, r);
    GroupsHaveRecords(records, r);
  }

  /** `buildBranchSummary`: the groups, sorted largest branch first. */
  function BuildBranchSummary(records: seq<PayrollRecord>): (r: seq<BranchSummary>)
    ensures Describes(records, r)
    ensures forall i, j :: 0 <= i < j < |r| ==> r[i].employees >= r[j].employees
    ensures multiset(r) == multiset(GroupByBranch(records))
  {
    var groups := GroupByBranch(records);
    GroupByBranchDescribes(records);
    var r := Sorting.SortBy(groups, MoreEmployees);
    DescribesPermutation(records, groups, r);
    r
  }

  /** Each branch name appears exactly once in the branch summary, and no
      other name appears. */
  lemma BranchSummaryKeys(records: seq<PayrollRecord>)
    ensures var r := BuildBranchSummary(records);
      && (forall i, j :: 0 <= i < j < |r| ==> r[i].branch != r[j].branch)
      && (forall k :: 0 <= k < |records| ==> FindBranch(r, records[k].branch_name).Some?)
      && (forall i :: 0 <= i < |r| ==> FindRecord(records, r[i].branch).Some?)
  {
    var r := BuildBranchSummary(records);
    DescribedKeys(records, r);
  }

  /** Each entry of the branch summary holds its branch's head count and,
      for every money column, the sum of that column over the branch's
      records. */
  lemma BranchSummarySums(records: seq<PayrollRecord>)
    ensures var r := BuildBranchSummary(records);
      && (forall i :: 0 <= i < |r| ==> r[i].employees == Headcount(records, r[i].branch))
      && (forall i, c :: 0 <= i < |r| ==> SummaryAmount(r[i], c) == BranchTotal(records, r[i].branch, c))
  {
    var r := BuildBranchSummary(records);
    assert forall i :: 0 <= i < |r| ==> r[i] in r;
  }

  /** The `reduce` in `sumTotals`, summing every column except PAYE. */
  function SumTotals(branches: seq<BranchSummary>): (t: Totals)
    ensures t.employees as real == Sum(branches, Heads)
    ensures forall c :: c != Paye ==> TotalsAmount(t, c) == Sum(branches, SummaryColumn(c))
  {
    if |branches| == 0 then Totals(0, 0.0, 0.0, 0.0, 0.0, 0.0, 0.0, 0.0, 0.0)
    else
      var a := SumTotals(branches[..|branches| - 1]);
      var b := branches[|branches| - 1];
      Totals(a.employees + b.employees, a.gross + b.gross, a.net + b.net,
             a.napsa + b.napsa, a.nhima + b.nhima, a.shortages + b.shortages,
             a.advances + b.advances, a.fines + b.fines, a.extraShifts + b.extraShifts)
  }

  /** The grouping fold neither loses nor invents money: each column summed
      over the groups equals the column summed over the records, and the
      head counts add up to the number of records. */
  lemma {:induction false} GroupByBranchPreservesSums(records: seq<PayrollRecord>)
    ensures Sum(GroupByBranch(records), Heads) == |records| as real
    ensures forall c :: Sum(GroupByBranch(records), SummaryColumn(c)) == Sum(records, AmountOf(c))
  {
    if |records| > 0 {
      var prefix := records[..|records| - 1];
      var r := records[|records| - 1];
      var groups := GroupByBranch(prefix);
      GroupByBranchPreservesSums(prefix);
      assert records == prefix + [r];
      forall c ensures Sum(records, AmountOf(c)) == Sum(prefix, AmountOf(c)) + RecordAmount(r, c) {
        SumSnoc(prefix, r, AmountOf(c));
      }
      match FindBranch(groups, r.branch_name)
      case Some(i) =>
        var g := AddRecord(groups[i], r);
        SumUpdate(groups, i, g, Heads);
        forall c ensures Sum(groups[i := g], SummaryColumn(c)) == Sum(groups, SummaryColumn(c)) + RecordAmount(r, c) {
          SumUpdate(groups, i, g, SummaryColumn(c));
        }
      case None =>
        var g := AddRecord(NewSummary(r.branch_name), r);
        SumSnoc(groups, g, Heads);
        forall c ensures Sum(groups + [g], SummaryColumn(c)) == Sum(groups, SummaryColumn(c)) + RecordAmount(r, c) {
          SumSnoc(groups, g, SummaryColumn(c));
        }
    }
  }

  /** The grand totals shown on the dashboard equal the sums over all
      payroll records, whatever order the branches were sorted into: the
      head count is the number of records and, for example, the net total is
      the sum of every record's net salary due. */
  lemma SumTotalsOfRecords(records: seq<PayrollRecord>)
    ensures SumTotals(BuildBranchSummary(records)).employees == |records|
    ensures forall c :: c != Paye ==>
      TotalsAmount(SumTotals(BuildBranchSummary(records)), c) == Sum(records, AmountOf(c))
  {
    var groups := GroupByBranch(records);
    var sorted := BuildBranchSummary(records);
    GroupByBranchPreservesSums(records);
    SumPermutation(groups, sorted, Heads);
    forall c ensures Sum(sorted, SummaryColumn(c)) == Sum(records, AmountOf(c)) {
      SumPermutation(groups, sorted, SummaryColumn(c));
    }
  }

  /** `shortBranch`: drops the first " Shop", then the first " UB Market". */
  function ShortBranch(s: string): (r: string)
    ensures (forall j :: !Text.OccursAt(s, " Shop", j)) && (forall j :: !Text.OccursAt(s, " UB Market", j)) ==> r == s
    ensures |r| <= |s|
  {
    Text.RemoveFirst(Text.RemoveFirst(s, " Shop"), " UB Market")
  }

  /** When " Shop" first occurs at `i` and the rest holds no " UB Market",
      exactly that occurrence is cut out, whatever follows it. */
  lemma ShortBranchCutsFirstShop(s: string, i: nat)
    requires Text.OccursAt(s, " Shop", i)
    requires forall j :: 0 <= j < i ==> !Text.OccursAt(s, " Shop", j)
    requires !Text.Includes(s[..i] + s[i + 5..], " UB Market")
    ensures ShortBranch(s) == s[..i] + s[i + 5..]
  {
    Text.RemoveFirstAt(s, " Shop", i);
  }

  /** A name without " Shop" loses exactly its first " UB Market". */
  lemma ShortBranchCutsFirstMarket(s: string, k: nat)
    requires forall j :: !Text.OccursAt(s, " Shop", j)
    requires Text.OccursAt(s, " UB Market", k)
    requires forall j :: 0 <= j < k ==> !Text.OccursAt(s, " UB Market", j)
    ensures ShortBranch(s) == s[..k] + s[k + 10..]
  {
    Text.RemoveFirstAt(s, " UB Market", k);
  }

  /** A name holding both patterns loses its first " Shop" and then the
      first " UB Market" of what remains. */
  lemma ShortBranchCutsBoth(s: string, i: nat, t: string, k: nat)
    requires Text.OccursAt(s, " Shop", i)
    requires forall j :: 0 <= j < i ==> !Text.OccursAt(s, " Shop", j)
    requires t == s[..i] + s[i + 5..]
    requires Text.OccursAt(t, " UB Market", k)
    requires forall j :: 0 <= j < k ==> !Text.OccursAt(t, " UB Market", j)
    ensures ShortBranch(s) == t[..k] + t[k + 10..]
  {
    Text.RemoveFirstAt(s, " Shop", i);
    Text.RemoveFirstAt(t, " UB Market", k);
  }

  /** In "Kabwe Shop UB Market" the first " Shop" is at 5, and cutting
      it leaves "Kabwe UB Market". */
  lemma KabweShopAt(s: string)
    requires s == "Kabwe Shop UB Market"
    ensures Text.OccursAt(s, " Shop", 5)
    ensures forall j :: 0 <= j < 5 ==> !Text.OccursAt(s, " Shop", j)
    ensures s[..5] + s[10..] == "Kabwe UB Market"
  {
    assert s[5..10] == " Shop";
    forall j | 0 <= j < 5 ensures !Text.OccursAt(s, " Shop", j) {
      assert s[j..j + 5][0] == s[j] != ' ';
    }
  }

  /** In "Kabwe UB Market" the first " UB Market" is at 5, and cutting it
      leaves "Kabwe". */
  lemma KabweMarketAt(t: string)
    requires t == "Kabwe UB Market"
    ensures Text.OccursAt(t, " UB Market", 5)
    ensures forall j :: 0 <= j < 5 ==> !Text.OccursAt(t, " UB Market", j)
    ensures t[..5] + t[15..] == "Kabwe"
  {
    assert t[5..15] == " UB Market";
    forall j | 0 <= j < 5 ensures !Text.OccursAt(t, " UB Market", j) {
      assert t[j..j + 10][0] == t[j] != ' ';
    }
  }

  /** Both patterns go from one name: "Kabwe Shop UB Market" is shown as
      "Kabwe". */
  lemma ShortBranchShopThenMarket(s: string)
    requires s == "Kabwe Shop UB Market"
    ensures ShortBranch(s) == "Kabwe"
  {
    KabweShopAt(s);
    var t := s[..5] + s[10..];
    KabweMarketAt(t);
    ShortBranchCutsBoth(s, 5, t, 5);
  }

  /** Only the first " Shop" goes: a name containing it twice keeps the
      second. */
  lemma ShortBranchFirstOccurrenceOnly()
    ensures ShortBranch("Main Shop Shop") == "Main Shop"
  {
    var s := "Main Shop Shop";
    var t := "Main Shop";
    assert s[4..9] == " Shop";
    assert Text.OccursAt(s, " Shop", 4);
    forall j | 0 <= j < 4 ensures !Text.OccursAt(s, " Shop", j) {
      assert s[j..j + 5][0] == s[j] != ' ';
    }
    Text.RemoveFirstAt(s, " Shop", 4);
    assert s[..4] + s[9..] == t;
    assert forall j :: !Text.OccursAt(t, " UB Market", j);
  }

  /** The position codes the dashboard knows how to label. */
  const KnownPositions: set<string> :=
    {"manager", "assistant_manager", "cashier", "it_technician", "security", "cleaner", "biker", "call_center_agent"}

  /** The `posLabel` table. */
  function PosLabel(code: string): (r: Option<string>)
    ensures r.Some? <==> code in KnownPositions
  {
    if code == "manager" then Some("Manager")
    else if code == "assistant_manager" then Some("Asst Manager")
    else if code == "cashier" then Some("Cashier")
    else if code == "it_technician" then Some("IT Tech")
    else if code == "security" then Some("Security")
    else if code == "cleaner" then Some("Cleaner")
    else if code == "biker" then Some("Biker")
    else if code == "call_center_agent" then Some("Agent")
    else None
  }

  /** `posLabel[p] || p`, as the position badges show it: a known code gets
      its label, which always differs from the code, and any other code is
      shown as it is. */
  function RoleLabel(code: string): (r: string)
    ensures r == code <==> code !in KnownPositions
    ensures r != ""  || code == ""
  {
    PosLabel(code).GetOr(code)
  }
}
