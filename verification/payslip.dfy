/** The content of a payslip (lib/payslip.ts): which lines each section
    lists, the total each section shows, whether the comment appears, the
    labels and short id in the header, the file names, and the page
    sequence of a batch download. Drawing (coordinates, colours, fonts),
    number formatting and the print date are not part of the content. */
module Payslip {
  import opened Common
  import opened Folds
  import Text

  /** Leave figures printed when present. */
  datatype LeaveBalance = LeaveBalance(
    annual_accrued: Amount, annual_used: Amount, annual_balance: Amount,
    sick_entitled: Amount, sick_used: Amount, sick_balance: Amount,
    comp_entitled: Amount, comp_used: Amount, comp_balance: Amount)

  /** Everything one payslip shows. */
  datatype PayslipData = PayslipData(
    employee_name: string,
    employee_id: string,
    position: string,
    branch_name: string,
    period_name: string,
    period_start: string,
    period_end: string,
    basic_salary: Amount,
    extra_shifts_count: Amount,
    extra_shift_total: Amount,
    bonus: Amount,
    gross_salary: Amount,
    napsa_employee: Amount,
    nhima_employee: Amount,
    paye_tax: Amount,
    shortage_amount: Amount,
    advances: Amount,
    fines: Amount,
    absent_days: Amount,
    absence_deduction: Amount,
    other_deductions: Amount,
    net_salary_due: Amount,
    comments: Option<string>,
    leave: Option<LeaveBalance>)

  /** The description column of a table line. */
  datatype Label =
    | BasicSalary                  // "Basic Salary"
    | ExtraShifts(count: Amount)   // "Extra Shifts (<count>)"
    | Bonus                        // "Bonus"
    | GrossSalary                  // "GROSS SALARY"
    | Napsa                        // "NAPSA (5%)"
    | Nhima                        // "NHIMA (1%)"
    | Paye                         // "PAYE Tax"
    | TotalStatutory               // "TOTAL STATUTORY"
    | Absence(days: Amount)        // "Absence (<days> days)"
    | CashShortage                 // "Cash Shortage"
    | SalaryAdvance                // "Salary Advance"
    | Fines                        // "Fines / Penalties"
    | TotalOther                   // "TOTAL OTHER DEDUCTIONS"

  /** One table line: a description and an amount. */
  datatype Line = Line(desc: Label, amount: Amount)

  predicate Lists(lines: seq<Line>, l: Label) {
    exists i :: 0 <= i < |lines| && lines[i].desc == l
  }

  /** A closing line does not change which other labels a section lists. */
  lemma ListsSnoc(lines: seq<Line>, last: Line, l: Label)
    requires l != last.desc
    ensures Lists(lines + [last], l) <==> Lists(lines, l)
  {
    if Lists(lines + [last], l) {
      var i :| 0 <= i < |lines + [last]| && (lines + [last])[i].desc == l;
      assert lines[i].desc == l;
    }
    if Lists(lines, l) {
      var i :| 0 <= i < |lines| && lines[i].desc == l;
      assert (lines + [last])[i].desc == l;
    }
  }

  /** Labels made only of letters, digits, `_` and `.` hold no whitespace. */
  predicate PlainChar(c: char) {
    ('a' <= c <= 'z') || ('A' <= c <= 'Z') || ('0' <= c <= '9') || c == '_' || c == '.'
  }

  lemma PlainNoSpace(s: string)
    requires forall i :: 0 <= i < |s| ==> PlainChar(s[i])
    ensures Text.NoSpace(s)
  {
  }

  /** The fixed parts of file names hold no whitespace. */
  lemma PlainLiterals()
    ensures Text.NoSpace("Payslip_") && Text.NoSpace("_") && Text.NoSpace(".pdf")
    ensures Text.NoSpace("All_Payslips_") && Text.NoSpace("Payroll")
  {
    PlainNoSpace("Payslip_");
    PlainNoSpace("_");
    PlainNoSpace(".pdf");
    PlainNoSpace("All_Payslips_");
    PlainNoSpace("Payroll");
  }

  function LineAmount(l: Line): real {
    l.amount
  }

  /** The lines of a section above its closing total line. */
  function Items(lines: seq<Line>): seq<Line>
    requires |lines| > 0
  {
    lines[..|lines| - 1]
  }

  /** The earnings table: basic salary first, the extra shifts and bonus
      lines only when positive, and the gross salary last. */
  function Earnings(d: PayslipData): (r: seq<Line>)
    ensures 2 <= |r| <= 4
    ensures r[0] == Line(BasicSalary, d.basic_salary)
    ensures r[|r| - 1] == Line(GrossSalary, d.gross_salary)
    ensures Lists(r, ExtraShifts(d.extra_shifts_count)) <==> d.extra_shift_total > 0.0
    ensures Lists(r, Bonus) <==> d.bonus > 0.0
    ensures |r| == 2 + (if d.extra_shift_total > 0.0 then 1 else 0) + (if d.bonus > 0.0 then 1 else 0)
    ensures d.extra_shift_total > 0.0 ==> r[1] == Line(ExtraShifts(d.extra_shifts_count), d.extra_shift_total)
    ensures d.bonus > 0.0 ==> r[|r| - 2] == Line(Bonus, d.bonus)
  {
    var r := [Line(BasicSalary, d.basic_salary)]
      + (if d.extra_shift_total > 0.0 then [Line(ExtraShifts(d.extra_shifts_count), d.extra_shift_total)] else [])
      + (if d.bonus > 0.0 then [Line(Bonus, d.bonus)] else [])
      + [Line(GrossSalary, d.gross_salary)];
    assert Lists(r, ExtraShifts(d.extra_shifts_count)) ==> d.extra_shift_total > 0.0;
    assert d.extra_shift_total > 0.0 ==> r[1].desc == ExtraShifts(d.extra_shifts_count);
    assert d.bonus > 0.0 ==> r[|r| - 2].desc == Bonus;
    r
  }

  function Positive(x: real): real {
    if x > 0.0 then x else 0.0
  }

  /** The earnings lines above the gross line add up to the basic salary
      plus the positive extra-shift pay and bonus; the table leaves out
      nothing positive. */
  lemma EarningsItemsSum(d: PayslipData)
    ensures Sum(Items(Earnings(d)), LineAmount) == d.basic_salary + Positive(d.extra_shift_total) + Positive(d.bonus)
  {
    var items := Items(Earnings(d));
    var basic := [Line(BasicSalary, d.basic_salary)];
    var extra := if d.extra_shift_total > 0.0 then [Line(ExtraShifts(d.extra_shifts_count), d.extra_shift_total)] else [];
    var bonus := if d.bonus > 0.0 then [Line(Bonus, d.bonus)] else [];
    assert items == basic + extra + bonus;
    SumAppend(basic + extra, bonus, LineAmount);
    SumAppend(basic, extra, LineAmount);
    assert Sum(basic, LineAmount) == d.basic_salary by {
      SumSnoc([], basic[0], LineAmount);
    }
    assert Sum(extra, LineAmount) == Positive(d.extra_shift_total) by {
      if |extra| > 0 { SumSnoc([], extra[0], LineAmount); }
    }
    assert Sum(bonus, LineAmount) == Positive(d.bonus) by {
      if |bonus| > 0 { SumSnoc([], bonus[0], LineAmount); }
    }
  }

  /** The statutory table: NAPSA and NHIMA always, PAYE only when positive,
      and a total of all three. */
  function Statutory(d: PayslipData): (r: seq<Line>)
    ensures 3 <= |r| <= 4
    ensures r[0] == Line(Napsa, d.napsa_employee) && r[1] == Line(Nhima, d.nhima_employee)
    ensures Lists(r, Paye) <==> d.paye_tax > 0.0
    ensures r[|r| - 1] == Line(TotalStatutory, d.napsa_employee + d.nhima_employee + d.paye_tax)
    ensures |r| == if d.paye_tax > 0.0 then 4 else 3
    ensures d.paye_tax > 0.0 ==> r[2] == Line(Paye, d.paye_tax)
  {
    var r := [Line(Napsa, d.napsa_employee), Line(Nhima, d.nhima_employee)]
      + (if d.paye_tax > 0.0 then [Line(Paye, d.paye_tax)] else [])
      + [Line(TotalStatutory, d.napsa_employee + d.nhima_employee + d.paye_tax)];
    assert d.paye_tax > 0.0 ==> r[2].desc == Paye;
    r
  }

  /** With no negative PAYE, the statutory total is the sum of the lines it
      closes. */
  lemma StatutoryTotalMatchesLines(d: PayslipData)
    requires d.paye_tax >= 0.0
    ensures Statutory(d)[|Statutory(d)| - 1].amount == Sum(Items(Statutory(d)), LineAmount)
  {
    var items := Items(Statutory(d));
    var nn := [Line(Napsa, d.napsa_employee), Line(Nhima, d.nhima_employee)];
    var paye := if d.paye_tax > 0.0 then [Line(Paye, d.paye_tax)] else [];
    assert items == nn + paye;
    SumAppend(nn, paye, LineAmount);
    assert Sum(nn, LineAmount) == d.napsa_employee + d.nhima_employee by {
      assert nn == [nn[0]] + [nn[1]];
      SumSnoc([], nn[0], LineAmount);
      SumSnoc([nn[0]], nn[1], LineAmount);
    }
    if |paye| > 0 { SumSnoc([], paye[0], LineAmount); }
  }

  /** `hasOther`: the four itemised deductions, not `other_deductions`. */
  predicate HasOther(d: PayslipData) {
    d.shortage_amount > 0.0 || d.advances > 0.0 || d.fines > 0.0 || d.absence_deduction > 0.0
  }

  /** The other-deductions table, when shown: absence, shortage, advance and
      fines lines in that order, each only when positive, and a total that
      also adds `other_deductions`. */
  function OtherDeductions(d: PayslipData): (r: Option<seq<Line>>)
    ensures r.Some? <==> HasOther(d)
    ensures r.Some? ==> 2 <= |r.value| <= 5
    ensures r.Some? ==> (Lists(r.value, Absence(d.absent_days)) <==> d.absence_deduction > 0.0)
    ensures r.Some? ==> (Lists(r.value, CashShortage) <==> d.shortage_amount > 0.0)
    ensures r.Some? ==> (Lists(r.value, SalaryAdvance) <==> d.advances > 0.0)
    ensures r.Some? ==> (Lists(r.value, Fines) <==> d.fines > 0.0)
    ensures r.Some? ==>
      r.value[|r.value| - 1] == Line(TotalOther, d.shortage_amount + d.advances + d.fines + d.absence_deduction + d.other_deductions)
    ensures r.Some? ==> Items(r.value) == OtherItems(d)
  {
    if !HasOther(d) then None
    else
      var items := OtherItems(d);
      var total := Line(TotalOther, d.shortage_amount + d.advances + d.fines + d.absence_deduction + d.other_deductions);
      ListsSnoc(items, total, Absence(d.absent_days));
      ListsSnoc(items, total, CashShortage);
      ListsSnoc(items, total, SalaryAdvance);
      ListsSnoc(items, total, Fines);
      Some(items + [Line(TotalOther, d.shortage_amount + d.advances + d.fines + d.absence_deduction + d.other_deductions)])
  }

  /** Where each itemised other deduction goes in its table; 4 for the
      labels the table never itemises. */
  function OtherRank(l: Label): nat {
    match l
    case Absence(_) => 0
    case CashShortage => 1
    case SalaryAdvance => 2
    case Fines => 3
    case _ => 4
  }

  /** The payslip field an itemised other deduction prints. */
  function OtherOwed(d: PayslipData, l: Label): Amount {
    match l
    case Absence(_) => d.absence_deduction
    case CashShortage => d.shortage_amount
    case SalaryAdvance => d.advances
    case Fines => d.fines
    case _ => 0.0
  }

  /** Each line is an itemised deduction printing its own field's amount,
      which is positive (and the absence line the days absent). */
  predicate OwedLines(d: PayslipData, r: seq<Line>) {
    forall i :: 0 <= i < |r| ==>
      OtherRank(r[i].desc) < 4 && r[i].amount == OtherOwed(d, r[i].desc) && r[i].amount > 0.0
      && (r[i].desc.Absence? ==> r[i].desc == Absence(d.absent_days))
  }

  /** The lines come in strictly increasing rank. */
  predicate InOtherOrder(r: seq<Line>) {
    forall i, j :: 0 <= i < j < |r| ==> OtherRank(r[i].desc) < OtherRank(r[j].desc)
  }

  /** Every line ranks below `n`. */
  predicate RanksBelow(r: seq<Line>, n: nat) {
    forall i :: 0 <= i < |r| ==> OtherRank(r[i].desc) < n
  }

  /** The line for `l`, present only when its field is positive. */
  function ShownLine(d: PayslipData, l: Label): seq<Line> {
    if OtherOwed(d, l) > 0.0 then [Line(l, OtherOwed(d, l))] else []
  }

  /** Lines owed, in order, and all ranked below `n`: a table that the
      lines ranked `n` and up may still be appended to. */
  predicate OwedBelow(d: PayslipData, r: seq<Line>, n: nat) {
    OwedLines(d, r) && InOtherOrder(r) && RanksBelow(r, n)
  }

  /** Appending the line for `l` after lines ranked below it keeps the
      lines owed and in order. */
  lemma AppendShownLine(d: PayslipData, r: seq<Line>, l: Label)
    requires OtherRank(l) < 4 && (l.Absence? ==> l == Absence(d.absent_days))
    requires OwedBelow(d, r, OtherRank(l))
    ensures OwedBelow(d, r + ShownLine(d, l), OtherRank(l) + 1)
  {
    if OtherOwed(d, l) <= 0.0 {
      assert r + ShownLine(d, l) == r;
    }
  }

  /** The four shown lines, joined, are owed and in order. */
  lemma ShownLinesInOrder(d: PayslipData)
    ensures var r := ShownLine(d, Absence(d.absent_days)) + ShownLine(d, CashShortage)
                     + ShownLine(d, SalaryAdvance) + ShownLine(d, Fines);
      OwedLines(d, r) && InOtherOrder(r)
  {
    var a := ShownLine(d, Absence(d.absent_days));
    AppendShownLine(d, [], Absence(d.absent_days));
    assert [] + a == a;
    AppendShownLine(d, a, CashShortage);
    var s := a + ShownLine(d, CashShortage);
    AppendShownLine(d, s, SalaryAdvance);
    AppendShownLine(d, s + ShownLine(d, SalaryAdvance), Fines);
  }

  /** The itemised other deductions: absence, shortage, advance and fines,
      each only when positive; `OtherItemsOwedInOrder` adds that each line
      prints its own field's amount and that they come in that order. */
  function OtherItems(d: PayslipData): (r: seq<Line>)
    ensures |r| <= 4
    ensures Lists(r, Absence(d.absent_days)) <==> d.absence_deduction > 0.0
    ensures Lists(r, CashShortage) <==> d.shortage_amount > 0.0
    ensures Lists(r, SalaryAdvance) <==> d.advances > 0.0
    ensures Lists(r, Fines) <==> d.fines > 0.0
    ensures forall i :: 0 <= i < |r| ==> r[i].desc != TotalOther && r[i].amount > 0.0
  {
    var a := ShownLine(d, Absence(d.absent_days));
    var s := ShownLine(d, CashShortage);
    var v := ShownLine(d, SalaryAdvance);
    var f := ShownLine(d, Fines);
    var r := a + s + v + f;
    assert d.absence_deduction > 0.0 ==> r[0] == a[0];
    assert d.shortage_amount > 0.0 ==> r[|a|] == s[0];
    assert d.advances > 0.0 ==> r[|a| + |s|] == v[0];
    assert d.fines > 0.0 ==> r[|a| + |s| + |v|] == f[0];
    r
  }

  /** Each other-deduction line prints its own field's amount, and the
      lines come in absence, shortage, advance, fines order. */
  lemma OtherItemsOwedInOrder(d: PayslipData)
    ensures OwedLines(d, OtherItems(d)) && InOtherOrder(OtherItems(d))
  {
    ShownLinesInOrder(d);
    assert OtherItems(d) == ShownLine(d, Absence(d.absent_days)) + ShownLine(d, CashShortage)
                            + ShownLine(d, SalaryAdvance) + ShownLine(d, Fines);
  }

  /** A line shown only when its field is positive sums to that field
      when it is non-negative. */
  lemma SumShownLine(d: PayslipData, l: Label)
    requires OtherOwed(d, l) >= 0.0
    ensures Sum(ShownLine(d, l), LineAmount) == OtherOwed(d, l)
  {
    if OtherOwed(d, l) > 0.0 {
      assert ShownLine(d, l) == [] + [Line(l, OtherOwed(d, l))];
      SumSnoc([], Line(l, OtherOwed(d, l)), LineAmount);
    }
  }

  /** With no negative field, the four shown lines sum to the four
      itemised fields. */
  lemma ShownLinesSum(d: PayslipData)
    requires d.shortage_amount >= 0.0 && d.advances >= 0.0 && d.fines >= 0.0 && d.absence_deduction >= 0.0
    ensures Sum(ShownLine(d, Absence(d.absent_days)) + ShownLine(d, CashShortage)
                + ShownLine(d, SalaryAdvance) + ShownLine(d, Fines), LineAmount)
         == d.absence_deduction + d.shortage_amount + d.advances + d.fines
  {
    var a := ShownLine(d, Absence(d.absent_days));
    var s := ShownLine(d, CashShortage);
    var v := ShownLine(d, SalaryAdvance);
    SumAppend(a + s + v, ShownLine(d, Fines), LineAmount);
    SumAppend(a + s, v, LineAmount);
    SumAppend(a, s, LineAmount);
    SumShownLine(d, Absence(d.absent_days));
    SumShownLine(d, CashShortage);
    SumShownLine(d, SalaryAdvance);
    SumShownLine(d, Fines);
  }

  /** The other-deductions total exceeds the lines it closes by exactly
      `other_deductions`, which no line lists. */
  lemma OtherTotalIncludesUnlisted(d: PayslipData)
    requires HasOther(d)
    requires d.shortage_amount >= 0.0 && d.advances >= 0.0 && d.fines >= 0.0 && d.absence_deduction >= 0.0
    ensures OtherDeductions(d).value[|OtherDeductions(d).value| - 1].amount
         == Sum(Items(OtherDeductions(d).value), LineAmount) + d.other_deductions
  {
    ShownLinesSum(d);
    assert Items(OtherDeductions(d).value) == ShownLine(d, Absence(d.absent_days)) + ShownLine(d, CashShortage)
                                              + ShownLine(d, SalaryAdvance) + ShownLine(d, Fines);
  }

  /** A payslip whose only other deduction is `other_deductions` shows no
      other-deductions table at all. */
  lemma OtherDeductionsAloneHidden(d: PayslipData)
    requires d.shortage_amount <= 0.0 && d.advances <= 0.0 && d.fines <= 0.0 && d.absence_deduction <= 0.0
    ensures OtherDeductions(d).None?
  {
  }

  /** Comments the backend writes by itself, never printed. */
  const GeneratedComment: string := "Generated from daily logs"
  const NoLogsComment: string := "No daily logs recorded"

  /** The comment printed at the foot of the payslip, if any. */
  function ShownComment(d: PayslipData): (r: Option<string>)
    ensures r.Some? <==> TruthyOpt(d.comments) && d.comments.value != GeneratedComment && d.comments.value != NoLogsComment
    ensures r.Some? ==> r == d.comments
  {
    if TruthyOpt(d.comments) && d.comments.value != GeneratedComment && d.comments.value != NoLogsComment
    then d.comments else None
  }

  /** The three leave types, in printed order. */
  datatype LeaveKind = Annual | Sick | Compassionate

  /** A leave line: entitled or accrued, used, balance. */
  datatype LeaveLine = LeaveLine(kind: LeaveKind, entitled: Amount, used: Amount, balance: Amount)

  /** The leave table, printed only when the balances are known. */
  function LeaveLines(d: PayslipData): (r: Option<seq<LeaveLine>>)
    ensures r.Some? <==> d.leave.Some?
    ensures r.Some? ==> |r.value| == 3 && r.value[0].kind == Annual && r.value[1].kind == Sick && r.value[2].kind == Compassionate
    ensures r.Some? ==> (r.value[0].balance == d.leave.value.annual_balance
      && r.value[1].balance == d.leave.value.sick_balance && r.value[2].balance == d.leave.value.comp_balance)
    ensures r.Some? ==> (r.value[0].entitled == d.leave.value.annual_accrued && r.value[0].used == d.leave.value.annual_used
      && r.value[1].entitled == d.leave.value.sick_entitled && r.value[1].used == d.leave.value.sick_used
      && r.value[2].entitled == d.leave.value.comp_entitled && r.value[2].used == d.leave.value.comp_used)
  {
    match d.leave
    case None => None
    case Some(lv) => Some([
      LeaveLine(Annual, lv.annual_accrued, lv.annual_used, lv.annual_balance),
      LeaveLine(Sick, lv.sick_entitled, lv.sick_used, lv.sick_balance),
      LeaveLine(Compassionate, lv.comp_entitled, lv.comp_used, lv.comp_balance)])
  }

  /** The position codes and their printed names. */
  const PositionNames: map<string, string> := map[
    "manager" := "Manager", "assistant_manager" := "Assistant Manager", "cashier" := "Cashier",
    "it_technician" := "IT Technician", "security" := "Security", "cleaner" := "Cleaner",
    "biker" := "Biker", "call_center_agent" := "Call Center Agent"]

  /** `formatPosition`: the printed name of a known code, any other code as
      it is. */
  function FormatPosition(pos: string): (r: string)
    ensures pos in PositionNames ==> r == PositionNames[pos]
    ensures pos !in PositionNames ==> r == pos
  {
    if pos in PositionNames then PositionNames[pos] else pos
  }

  /** A position is printed as it is exactly when it is not a known code:
      every printed name differs from its code. */
  lemma FormatPositionKeepsOnlyUnknown(pos: string)
    ensures FormatPosition(pos) == pos <==> pos !in PositionNames
  {
    if pos in PositionNames {
      assert PositionNames[pos] != pos by {
        assert pos == "manager" || pos == "assistant_manager" || pos == "cashier" || pos == "it_technician"
          || pos == "security" || pos == "cleaner" || pos == "biker" || pos == "call_center_agent";
        if pos == "manager" { assert pos[0] != PositionNames[pos][0]; }
        else if pos == "assistant_manager" { assert pos[0] != PositionNames[pos][0]; }
        else if pos == "cashier" { assert pos[0] != PositionNames[pos][0]; }
        else if pos == "it_technician" { assert pos[0] != PositionNames[pos][0]; }
        else if pos == "security" { assert pos[0] != PositionNames[pos][0]; }
        else if pos == "cleaner" { assert pos[0] != PositionNames[pos][0]; }
        else if pos == "biker" { assert pos[0] != PositionNames[pos][0]; }
        else { assert pos[0] != PositionNames[pos][0]; }
      }
    }
  }

  /** The employee id in the header: its first eight characters, upper
      case. */
  function ShortId(id: string): (r: string)
    ensures |r| == if |id| < 8 then |id| else 8
    ensures forall i :: 0 <= i < |r| ==> r[i] == Text.Upper(id[i])
  {
    Text.UpperStr(Text.Prefix(id, 8))
  }

  /** The header of the payslip. */
  datatype Header = Header(
    period_name: string, period_start: string, period_end: string,
    employee_name: string, branch_name: string, position: string, short_id: string)

  /** Everything one page shows, in printed order. */
  datatype Page = Page(
    header: Header,
    earnings: seq<Line>,
    statutory: seq<Line>,
    other: Option<seq<Line>>,
    net: Amount,
    leave: Option<seq<LeaveLine>>,
    comment: Option<string>)

  /** `buildPayslipPage` without the drawing. */
  function BuildPage(d: PayslipData): (p: Page)
    ensures p.header.period_name == d.period_name
    ensures p.header.period_start == d.period_start && p.header.period_end == d.period_end
    ensures p.header.position == FormatPosition(d.position) && p.header.short_id == ShortId(d.employee_id)
    ensures p.header.employee_name == d.employee_name && p.header.branch_name == d.branch_name
    ensures p.earnings == Earnings(d) && p.statutory == Statutory(d) && p.other == OtherDeductions(d)
    ensures p.net == d.net_salary_due
    ensures p.leave == LeaveLines(d) && p.comment == ShownComment(d)
  {
    Page(Header(d.period_name, d.period_start, d.period_end, d.employee_name, d.branch_name,
                FormatPosition(d.position), ShortId(d.employee_id)),
      Earnings(d), Statutory(d), OtherDeductions(d), d.net_salary_due, LeaveLines(d), ShownComment(d))
  }

  /** The file name of a single payslip. */
  function FileName(d: PayslipData): (r: string)
    ensures Text.NoSpace(r)
    ensures |r| >= 13 && r[..8] == "Payslip_" && r[|r| - 4..] == ".pdf"
    ensures r == "Payslip_" + (Text.ReplaceSpaceRuns(d.employee_name) + "_" + Text.ReplaceSpaceRuns(d.period_name)) + ".pdf"
  {
    var mid := Text.ReplaceSpaceRuns(d.employee_name) + "_" + Text.ReplaceSpaceRuns(d.period_name);
    PlainLiterals();
    Text.NoSpaceJoin(Text.ReplaceSpaceRuns(d.employee_name), "_", Text.ReplaceSpaceRuns(d.period_name));
    Text.NoSpaceJoin("Payslip_", mid, ".pdf");
    Text.Affixes("Payslip_", mid, ".pdf");
    "Payslip_" + mid + ".pdf"
  }

  /** Names without whitespace appear in the file name unchanged. */
  lemma FileNameKeepsPlainNames(d: PayslipData)
    requires Text.NoSpace(d.employee_name) && Text.NoSpace(d.period_name)
    ensures FileName(d) == "Payslip_" + d.employee_name + "_" + d.period_name + ".pdf"
  {
  }

  /** A name with one whitespace run has that run replaced by one
      underscore in the file name: "Mary  Banda" paid for "March" gets
      "Payslip_Mary_Banda_March.pdf". */
  lemma FileNameReplacesRun(d: PayslipData, first: string, gap: string, last: string)
    requires d.employee_name == first + gap + last
    requires Text.NoSpace(first) && Text.NoSpace(last) && Text.NoSpace(d.period_name)
    requires |gap| > 0 && Text.AllSpace(gap)
    ensures FileName(d) == "Payslip_" + (first + "_" + last + "_" + d.period_name) + ".pdf"
  {
    assert |last| == 0 || !Text.IsSpace(last[0]);
    Text.ReplaceSpaceRunsSplit(first, gap, last);
    assert Text.ReplaceSpaceRuns(d.employee_name) == first + "_" + last;
    assert Text.ReplaceSpaceRuns(d.period_name) == d.period_name;
  }

  /** The period a batch is named after: the first payslip's, or "Payroll"
      when there is none or it is empty. */
  function BatchPeriod(ds: seq<PayslipData>): (r: string)
    ensures |ds| == 0 || ds[0].period_name == "" ==> r == "Payroll"
    ensures |ds| > 0 && ds[0].period_name != "" ==> r == ds[0].period_name
  {
    if |ds| > 0 then OrElse(ds[0].period_name, "Payroll") else "Payroll"
  }

  /** The file name of a batch download. */
  function BatchFileName(ds: seq<PayslipData>): (r: string)
    ensures Text.NoSpace(r)
    ensures |r| >= 18 && r[..13] == "All_Payslips_" && r[|r| - 4..] == ".pdf"
    ensures r == "All_Payslips_" + Text.ReplaceSpaceRuns(BatchPeriod(ds)) + ".pdf"
    ensures Text.NoSpace(BatchPeriod(ds)) ==> r == "All_Payslips_" + BatchPeriod(ds) + ".pdf"
  {
    var clean := Text.ReplaceSpaceRuns(BatchPeriod(ds));
    PlainLiterals();
    Text.NoSpaceJoin("All_Payslips_", clean, ".pdf");
    Text.Affixes("All_Payslips_", clean, ".pdf");
    "All_Payslips_" + clean + ".pdf"
  }

  /** A batch without a usable period name is named after "Payroll". */
  lemma BatchFileNameFallback(ds: seq<PayslipData>)
    requires |ds| == 0 || ds[0].period_name == ""
    ensures BatchFileName(ds) == "All_Payslips_" + "Payroll" + ".pdf"
  {
    assert BatchPeriod(ds) == "Payroll";
    PlainNoSpace("Payroll");
  }

  /** What a batch download does to the document, in order. */
  datatype DocOp = AddPage | Draw(page: Page)

  /** The document operations for a sequence of pages: each page drawn in
      order, with a new page added before every page but the first (the
      `first` flag of `downloadAllPayslips`). */
  method Paginate(pages: seq<Page>) returns (ops: seq<DocOp>)
    ensures |ops| == if |pages| == 0 then 0 else 2 * |pages| - 1
    ensures forall k :: 0 <= k < |pages| ==> ops[2 * k] == Draw(pages[k])
    ensures forall k :: 0 < k < |pages| ==> ops[2 * k - 1] == AddPage
  {
    ops := [];
    var first := true;
    var i := 0;
    while i < |pages|
      invariant 0 <= i <= |pages|
      invariant first <==> i == 0
      invariant |ops| == if i == 0 then 0 else 2 * i - 1
      invariant forall k :: 0 <= k < i ==> ops[2 * k] == Draw(pages[k])
      invariant forall k :: 0 < k < i ==> ops[2 * k - 1] == AddPage
    {
      if !first {
        ops := ops + [AddPage];
      }
      first := false;
      ops := ops + [Draw(pages[i])];
      i := i + 1;
    }
  }

  /** `downloadAllPayslips`: one page per payslip, in order, each preceded
      by a new page except the first, saved under the batch file name. */
  method DownloadAll(ds: seq<PayslipData>) returns (ops: seq<DocOp>, name: string)
    ensures |ops| == if |ds| == 0 then 0 else 2 * |ds| - 1
    ensures forall k :: 0 <= k < |ds| ==> ops[2 * k] == Draw(BuildPage(ds[k]))
    ensures forall k :: 0 < k < |ds| ==> ops[2 * k - 1] == AddPage
    ensures name == BatchFileName(ds)
  {
    var pages := seq(|ds|, k requires 0 <= k < |ds| => BuildPage(ds[k]));
    ops := Paginate(pages);
    name := BatchFileName(ds);
  }
}
