/** The staff directory (app/directory/StaffDirectory.tsx): the contact
    cards shown for a branch and a search query, each card's completeness
    score and colour, the coverage counters above the cards, and the
    per-branch chip counts. */
module StaffDirectory {
  import opened Common
  import opened Folds
  import Sorting
  import Text

  /** An employee's contact details, with the branch and position attached. */
  datatype Contact = Contact(
    employee_id: string,
    full_name: string,
    phone: Option<string>,
    email: Option<string>,
    mobile_money_number: Option<string>,
    home_address: Option<string>,
    nrc_number: Option<string>,
    tpin: Option<string>,
    bank_name: Option<string>,
    bank_account_number: Option<string>,
    social_security_number: Option<string>,
    emergency_contact_name: Option<string>,
    emergency_contact_phone: Option<string>,
    date_started: Option<string>,
    branch_name: string,
    position: string)

  /** `InfoRow`: a detail line is drawn only for a value that is neither
      null nor empty. */
  function InfoRow(value: Option<string>): (r: Option<string>)
    ensures r.None? <==> value.None? || value.value == ""
    ensures r.Some? ==> r == value
  {
    NullIfEmpty(value)
  }

  /** The bank line: the bank name, followed by " — " and the account number
      when both are set; the account number alone when there is no bank
      name. */
  function BankValue(c: Contact): (r: Option<string>)
    ensures TruthyOpt(c.bank_name) && TruthyOpt(c.bank_account_number) ==>
      r == Some(c.bank_name.value + " — " + c.bank_account_number.value)
    ensures TruthyOpt(c.bank_name) && !TruthyOpt(c.bank_account_number) ==> r == c.bank_name
    ensures !TruthyOpt(c.bank_name) ==> r == c.bank_account_number
  {
    if !TruthyOpt(c.bank_name) then c.bank_account_number
    else if TruthyOpt(c.bank_account_number) then
      var suffix := " — " + c.bank_account_number.value;
      assert c.bank_name.value + suffix == c.bank_name.value + " — " + c.bank_account_number.value;
      Some(c.bank_name.value + suffix)
    else
      assert c.bank_name.value + "" == c.bank_name.value;
      Some(c.bank_name.value + "")
  }

  /** A bank line is drawn exactly when a bank name or an account number is
      on file. */
  lemma BankRowShown(c: Contact)
    ensures InfoRow(BankValue(c)).Some? <==> TruthyOpt(c.bank_name) || TruthyOpt(c.bank_account_number)
  {
  }

  /** The five details the completeness score counts. */
  datatype Detail = Phone | Email | MobileMoney | Address | EmergencyPhone

  function DetailOf(c: Contact, d: Detail): Option<string> {
    match d
    case Phone => c.phone
    case Email => c.email
    case MobileMoney => c.mobile_money_number
    case Address => c.home_address
    case EmergencyPhone => c.emergency_contact_phone
  }

  /** The scored details of a card, in the source's order. */
  function ScoredDetails(c: Contact): seq<Option<string>> {
    [c.phone, c.email, c.mobile_money_number, c.home_address, c.emergency_contact_phone]
  }

  /** `filled`: how many scored details are set. */
  function Filled(c: Contact): (n: nat)
    ensures n <= 5
  {
    Count(ScoredDetails(c), TruthyOpt)
  }

  /** The filled count is the number of set details, detail by detail. */
  lemma FilledCountsDetails(c: Contact)
    ensures Filled(c) == (if TruthyOpt(c.phone) then 1 else 0) + (if TruthyOpt(c.email) then 1 else 0)
      + (if TruthyOpt(c.mobile_money_number) then 1 else 0) + (if TruthyOpt(c.home_address) then 1 else 0)
      + (if TruthyOpt(c.emergency_contact_phone) then 1 else 0)
  {
    Count5(c.phone, c.email, c.mobile_money_number, c.home_address, c.emergency_contact_phone, TruthyOpt);
  }

  /** `Math.round` for a non-negative number: halves round up. */
  function Round(x: real): int {
    (x + 0.5).Floor
  }

  /** `pct`: the share of scored details set, in percent, rounded. */
  function Completeness(c: Contact): (pct: int)
    ensures pct == 20 * Filled(c)
    ensures 0 <= pct <= 100 && pct % 20 == 0
  {
    var filled := Filled(c);
    var x := (filled as real / 5.0) * 100.0;
    assert x == (20 * filled) as real;
    Round(x)
  }

  /** The colour of the completeness ring. */
  datatype Band = Green | Yellow | Grey

  function BandOf(pct: int): (b: Band)
    ensures b == Green <==> pct >= 80
    ensures b == Yellow <==> 40 <= pct < 80
    ensures b == Grey <==> pct < 40
  {
    if pct >= 80 then Green else if pct >= 40 then Yellow else Grey
  }

  /** A card is green with at least four details set, yellow with two or
      three, grey with at most one. */
  lemma BandByFilled(c: Contact)
    ensures BandOf(Completeness(c)) == Green <==> Filled(c) >= 4
    ensures BandOf(Completeness(c)) == Yellow <==> 2 <= Filled(c) <= 3
    ensures BandOf(Completeness(c)) == Grey <==> Filled(c) <= 1
  {
  }

  /** A card scores 100 exactly when all five details are set. */
  lemma CompleteIffAllSet(c: Contact)
    ensures Completeness(c) == 100 <==> forall d: Detail :: TruthyOpt(DetailOf(c, d))
  {
    FilledCountsDetails(c);
    if Completeness(c) == 100 {
      forall d: Detail ensures TruthyOpt(DetailOf(c, d)) {
      }
    } else {
      if !TruthyOpt(c.phone) { assert !TruthyOpt(DetailOf(c, Phone)); }
      else if !TruthyOpt(c.email) { assert !TruthyOpt(DetailOf(c, Email)); }
      else if !TruthyOpt(c.mobile_money_number) { assert !TruthyOpt(DetailOf(c, MobileMoney)); }
      else if !TruthyOpt(c.home_address) { assert !TruthyOpt(DetailOf(c, Address)); }
      else { assert !TruthyOpt(DetailOf(c, EmergencyPhone)); }
    }
  }

  /** The branch filter: a selected branch keeps its own contacts; no branch
      keeps every contact. */
  function InBranch(branch: Option<string>): Contact -> bool {
    (c: Contact) => !TruthyOpt(branch) || c.branch_name == branch.value
  }

  /** `q` occurs in `field`, a missing field counting as empty. */
  predicate FieldHas(field: Option<string>, q: string) {
    Text.Includes(OptOrElse(field, ""), q)
  }

  /** The search: the lower-cased query `q` occurs in the lower-cased name,
      email, address or emergency contact name, or as it is in the phone or
      mobile-money number; an empty query keeps every contact. */
  function MatchesSearch(search: string): Contact -> bool {
    (c: Contact) =>
      var q := Text.LowerStr(search);
      || !Truthy(search)
      || Text.Includes(Text.LowerStr(c.full_name), q)
      || FieldHas(c.phone, q)
      || Text.Includes(Text.LowerStr(OptOrElse(c.email, "")), q)
      || Text.Includes(Text.LowerStr(OptOrElse(c.home_address, "")), q)
      || FieldHas(c.mobile_money_number, q)
      || Text.Includes(Text.LowerStr(OptOrElse(c.emergency_contact_name, "")), q)
  }

  /** The contacts both filters keep, in their original order. */
  function Matching(contacts: seq<Contact>, branch: Option<string>, search: string): seq<Contact> {
    Filter(Filter(contacts, InBranch(branch)), MatchesSearch(search))
  }

  function NameOf(c: Contact): string {
    c.full_name
  }

  /** `a.full_name.localeCompare(b.full_name) <= 0`. */
  function ByName(collate: (string, string) -> bool): (Contact, Contact) -> bool {
    (a: Contact, b: Contact) => collate(a.full_name, b.full_name)
  }

  lemma ByNameTotal(collate: (string, string) -> bool)
    requires Sorting.TotalPreorder(collate)
    ensures Sorting.TotalPreorder(ByName(collate))
  {
    var o := ByName(collate);
    assert forall a, b :: o(a, b) == collate(a.full_name, b.full_name);
  }

  /** `filtered`: the matching contacts ordered by name. */
  function Filtered(contacts: seq<Contact>, branch: Option<string>, search: string,
                    collate: (string, string) -> bool): (r: seq<Contact>)
    requires Sorting.TotalPreorder(collate)
    ensures multiset(r) == multiset(Matching(contacts, branch, search))
    ensures Sorting.SortedBy(r, ByName(collate))
    ensures TruthyOpt(branch) ==> forall i :: 0 <= i < |r| ==> r[i].branch_name == branch.value
  {
    ByNameTotal(collate);
    var m := Matching(contacts, branch, search);
    var r := Sorting.SortBy(m, ByName(collate));
    FilterTwicePermutation(contacts, InBranch(branch), MatchesSearch(search), r);
    r
  }

  /** A card is shown exactly when its contact is in the directory and
      passes both filters. */
  lemma FilteredMembership(contacts: seq<Contact>, branch: Option<string>, search: string,
                           collate: (string, string) -> bool, x: Contact)
    requires Sorting.TotalPreorder(collate)
    ensures x in Filtered(contacts, branch, search, collate)
        <==> x in contacts && InBranch(branch)(x) && MatchesSearch(search)(x)
  {
    assert x in Filtered(contacts, branch, search, collate) <==> x in multiset(Matching(contacts, branch, search));
    FilterTwice(contacts, InBranch(branch), MatchesSearch(search), x);
  }

  /** The phone and mobile-money numbers are searched as they are, against
      the lower-cased query: when no other field matches, a card matches
      exactly when one of the two numbers holds the lower-cased query. */
  lemma PhoneSearchCaseSensitive(search: string, c: Contact)
    requires search != ""
    requires !Text.Includes(Text.LowerStr(c.full_name), Text.LowerStr(search))
    requires !Text.Includes(Text.LowerStr(OptOrElse(c.email, "")), Text.LowerStr(search))
    requires !Text.Includes(Text.LowerStr(OptOrElse(c.home_address, "")), Text.LowerStr(search))
    requires !Text.Includes(Text.LowerStr(OptOrElse(c.emergency_contact_name, "")), Text.LowerStr(search))
    ensures MatchesSearch(search)(c)
        <==> FieldHas(c.phone, Text.LowerStr(search)) || FieldHas(c.mobile_money_number, Text.LowerStr(search))
  {
  }

  /** The query "A" is lower-cased to "a", so it misses a card whose phone
      is "A" and whose other fields are empty. */
  lemma UpperCasePhoneMisses(c: Contact)
    requires c.phone == Some("A")
    requires c.full_name == "" && c.email.None? && c.home_address.None?
    requires c.mobile_money_number.None? && c.emergency_contact_name.None?
    ensures !MatchesSearch("A")(c)
  {
    var q := Text.LowerStr("A");
    assert q == "a";
    assert Text.LowerStr("") == "";
    Text.IncludesIffOccurs("", q);
    Text.IncludesIffOccurs("A", q);
    assert !Text.OccursAt("A", q, 0) by { assert "A"[0..1][0] == 'A' != q[0]; }
    PhoneSearchCaseSensitive("A", c);
  }

  /** The coverage counters above the cards. */
  datatype Stats = Stats(total: nat, withPhone: nat, withEmail: nat, withAddress: nat,
                         withMomo: nat, withEmergency: nat)

  function HasDetail(d: Detail): Contact -> bool {
    (c: Contact) => TruthyOpt(DetailOf(c, d))
  }

  function StatOf(s: Stats, d: Detail): nat {
    match d
    case Phone => s.withPhone
    case Email => s.withEmail
    case MobileMoney => s.withMomo
    case Address => s.withAddress
    case EmergencyPhone => s.withEmergency
  }

  /** The counters for the shown cards: how many there are, and how many
      have each detail. */
  function StatsOf(shown: seq<Contact>): (s: Stats)
    ensures s.total == |shown|
    ensures forall d: Detail :: StatOf(s, d) == Count(shown, HasDetail(d)) <= s.total
  {
    Stats(|shown|, Count(shown, HasDetail(Phone)), Count(shown, HasDetail(Email)),
      Count(shown, HasDetail(Address)), Count(shown, HasDetail(MobileMoney)),
      Count(shown, HasDetail(EmergencyPhone)))
  }

  /** The counters do not depend on the sort: they count the matching
      contacts, whatever their order. */
  lemma StatsOfFiltered(contacts: seq<Contact>, branch: Option<string>, search: string,
                        collate: (string, string) -> bool, d: Detail)
    requires Sorting.TotalPreorder(collate)
    ensures StatOf(StatsOf(Filtered(contacts, branch, search, collate)), d)
         == Count(Matching(contacts, branch, search), HasDetail(d))
    ensures StatsOf(Filtered(contacts, branch, search, collate)).total == |Matching(contacts, branch, search)|
  {
    var r := Filtered(contacts, branch, search, collate);
    var m := Matching(contacts, branch, search);
    CountPermutation(r, m, HasDetail(d));
    assert |r| == |multiset(r)| == |multiset(m)| == |m|;
  }

  function OfBranch(b: string): Contact -> bool {
    (c: Contact) => c.branch_name == b
  }

  /** The count on a branch chip: the contacts of that branch, whatever
      filter is active. */
  function ChipCount(contacts: seq<Contact>, b: string): (n: nat)
    ensures n <= |contacts|
    ensures n == |Filter(contacts, OfBranch(b))|
  {
    Count(contacts, OfBranch(b))
  }

  /** A chip counts the cards its branch shows when selected with no
      query. */
  lemma ChipCountMatchesSelection(contacts: seq<Contact>, b: string, collate: (string, string) -> bool)
    requires Sorting.TotalPreorder(collate)
    requires b != ""
    ensures ChipCount(contacts, b) == |Filtered(contacts, Some(b), "", collate)|
  {
    var byBranch := Filter(contacts, InBranch(Some(b)));
    assert forall c :: InBranch(Some(b))(c) == OfBranch(b)(c);
    FilterSame(contacts, InBranch(Some(b)), OfBranch(b));
    KeepAll(byBranch, MatchesSearch(""));
    var r := Filtered(contacts, Some(b), "", collate);
    assert |r| == |multiset(r)| == |multiset(byBranch)| == |byBranch|;
  }

  /** Filters with the same verdict on every element agree. */
  lemma {:induction false} FilterSame(s: seq<Contact>, p: Contact -> bool, q: Contact -> bool)
    requires forall c :: p(c) == q(c)
    ensures Filter(s, p) == Filter(s, q)
  {
    if |s| > 0 {
      FilterSame(s[..|s| - 1], p, q);
    }
  }
}
