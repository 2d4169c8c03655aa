/** The employee table (app/employees/EmployeeTable.tsx): the sort state a
    click on a column header moves through, and the rows shown for a
    branch, a search query and a sort state. */
module EmployeeTable {
  import opened Common
  import opened Folds
  import Sorting
  import Text
  import Helpers

  type Row = Helpers.PayrollRecord

  /** The sortable columns, in header order. */
  datatype SortColumn =
    | FullName | BranchName | Position
    | Gross | Napsa | Nhima | ExtraShifts | Shortage | Advances | Net

  datatype Direction = Asc | Desc

  datatype SortState = SortState(col: SortColumn, dir: Direction)

  /** The table opens sorted by name, ascending. */
  const InitialSort: SortState := SortState(FullName, Asc)

  function Toggle(d: Direction): Direction {
    if d == Asc then Desc else Asc
  }

  /** `handleSort`: clicking the current column reverses the direction;
      clicking another column selects it, ascending. */
  function HandleSort(st: SortState, col: SortColumn): (r: SortState)
    ensures r.col == col
    ensures st.col == col ==> r.dir != st.dir
    ensures st.col != col ==> r.dir == Asc
  {
    if st.col == col then SortState(col, Toggle(st.dir)) else SortState(col, Asc)
  }

  /** Two clicks on the current column restore the sort state. */
  lemma HandleSortTwiceRestores(st: SortState)
    ensures HandleSort(HandleSort(st, st.col), st.col) == st
  {
  }

  /** Two clicks on a new column leave it sorted descending, whatever the
      state before. */
  lemma HandleSortNewColumnTwice(st: SortState, col: SortColumn)
    requires st.col != col
    ensures HandleSort(HandleSort(st, col), col) == SortState(col, Desc)
  {
  }

  /** Columns holding strings, compared with the collator. */
  predicate IsText(col: SortColumn) {
    col.FullName? || col.BranchName? || col.Position?
  }

  function TextKey(r: Row, col: SortColumn): string
    requires IsText(col)
  {
    match col
    case FullName => r.full_name
    case BranchName => r.branch_name
    case Position => r.position
  }

  function NumberKey(r: Row, col: SortColumn): real
    requires !IsText(col)
  {
    match col
    case Gross => r.gross_salary
    case Napsa => r.napsa_employee
    case Nhima => r.nhima_employee
    case ExtraShifts => r.extra_shifts_count
    case Shortage => r.shortage_amount
    case Advances => r.advances
    case Net => r.net_salary_due
  }

  /** `cmp <= 0` for the ascending comparator of a column: the collator on
      text columns, numeric difference on the others. */
  function ColumnOrder(col: SortColumn, collate: (string, string) -> bool): (Row, Row) -> bool {
    if IsText(col) then (a: Row, b: Row) => collate(TextKey(a, col), TextKey(b, col))
    else (a: Row, b: Row) => NumberKey(a, col) <= NumberKey(b, col)
  }

  /** The comparator of a sort state: the column order, read backwards
      (`-cmp`) when descending. */
  function RowOrder(st: SortState, collate: (string, string) -> bool): (Row, Row) -> bool {
    if st.dir == Asc then ColumnOrder(st.col, collate) else Sorting.Flip(ColumnOrder(st.col, collate))
  }

  lemma ColumnOrderTotal(col: SortColumn, collate: (string, string) -> bool)
    requires Sorting.TotalPreorder(collate)
    ensures Sorting.TotalPreorder(ColumnOrder(col, collate))
  {
    var o := ColumnOrder(col, collate);
    if IsText(col) {
      assert forall a, b :: o(a, b) == collate(TextKey(a, col), TextKey(b, col));
    } else {
      assert forall a, b :: o(a, b) == (NumberKey(a, col) <= NumberKey(b, col));
    }
  }

  lemma RowOrderTotal(st: SortState, collate: (string, string) -> bool)
    requires Sorting.TotalPreorder(collate)
    ensures Sorting.TotalPreorder(RowOrder(st, collate))
  {
    ColumnOrderTotal(st.col, collate);
    if st.dir == Desc {
      Sorting.FlipTotalPreorder(ColumnOrder(st.col, collate));
    }
  }

  /** The branch filter: a selected branch keeps its own rows; no branch
      (or the empty name) keeps every row. */
  function InBranch(branch: Option<string>): Row -> bool {
    (r: Row) => !TruthyOpt(branch) || r.branch_name == branch.value
  }

  /** The search filter: the lower-cased query occurs in the lower-cased
      name or position; an empty query keeps every row. */
  function MatchesSearch(search: string): Row -> bool {
    (r: Row) =>
      || !Truthy(search)
      || Text.Includes(Text.LowerStr(r.full_name), Text.LowerStr(search))
      || Text.Includes(Text.LowerStr(r.position), Text.LowerStr(search))
  }

  /** The rows both filters keep, in their original order. */
  function Matching(records: seq<Row>, branch: Option<string>, search: string): seq<Row> {
    Filter(Filter(records, InBranch(branch)), MatchesSearch(search))
  }

  /** `filtered`: the matching rows ordered by the sort state. */
  function Filtered(records: seq<Row>, branch: Option<string>, search: string, st: SortState,
                    collate: (string, string) -> bool): (r: seq<Row>)
    requires Sorting.TotalPreorder(collate)
    ensures multiset(r) == multiset(Matching(records, branch, search))
    ensures Sorting.SortedBy(r, RowOrder(st, collate))
    ensures TruthyOpt(branch) ==> forall i :: 0 <= i < |r| ==> r[i].branch_name == branch.value
  {
    RowOrderTotal(st, collate);
    var m := Matching(records, branch, search);
    var r := Sorting.SortBy(m, RowOrder(st, collate));
    FilterTwicePermutation(records, InBranch(branch), MatchesSearch(search), r);
    r
  }

  /** A row is shown exactly when it is in the table and passes both
      filters. */
  lemma FilteredMembership(records: seq<Row>, branch: Option<string>, search: string, st: SortState,
                           collate: (string, string) -> bool, x: Row)
    requires Sorting.TotalPreorder(collate)
    ensures x in Filtered(records, branch, search, st, collate)
        <==> x in records && InBranch(branch)(x) && MatchesSearch(search)(x)
  {
    assert x in Filtered(records, branch, search, st, collate) <==> x in multiset(Matching(records, branch, search));
    FilterTwice(records, InBranch(branch), MatchesSearch(search), x);
  }

  /** The search keeps a row exactly when the query occurs, ignoring case,
      in its name or position. */
  lemma SearchIff(search: string, x: Row)
    requires search != ""
    ensures MatchesSearch(search)(x) <==>
      (exists i :: Text.OccursAt(Text.LowerStr(x.full_name), Text.LowerStr(search), i))
      || (exists i :: Text.OccursAt(Text.LowerStr(x.position), Text.LowerStr(search), i))
  {
    Text.IncludesIffOccurs(Text.LowerStr(x.full_name), Text.LowerStr(search));
    Text.IncludesIffOccurs(Text.LowerStr(x.position), Text.LowerStr(search));
  }

  /** With no branch and no query, the table shows every record. */
  lemma NoFiltersShowAll(records: seq<Row>, branch: Option<string>, st: SortState,
                         collate: (string, string) -> bool)
    requires Sorting.TotalPreorder(collate)
    requires !TruthyOpt(branch)
    ensures multiset(Filtered(records, branch, "", st, collate)) == multiset(records)
  {
    KeepAll(records, InBranch(branch));
    KeepAll(records, MatchesSearch(""));
  }

  /** The heading's staff count: as many rows as records passing both
      filters. */
  lemma FilteredCount(records: seq<Row>, branch: Option<string>, search: string, st: SortState,
                      collate: (string, string) -> bool)
    requires Sorting.TotalPreorder(collate)
    ensures |Filtered(records, branch, search, st, collate)|
         == Count(Filter(records, InBranch(branch)), MatchesSearch(search))
  {
    var r := Filtered(records, branch, search, st, collate);
    assert |r| == |multiset(r)| == |multiset(Matching(records, branch, search))| == |Matching(records, branch, search)|;
  }
}
