/** The payments page (`src/pages/Payments.tsx`): the role-aware search and
    status tabs, the per-status totals, recording a manual payment, the CSV
    export and which action a row offers. */
module Payments {
  import opened Wrappers
  import opened Strings
  import opened Js
  import opened Seqs
  import opened Auth

  datatype Status = Paid | Due | Overdue

  /** The status as the server spells it. */
  function StatusName(s: Status): (name: string)
    ensures name == "paid" || name == "due" || name == "overdue"
  {
    match s
    case Paid => "paid"
    case Due => "due"
    case Overdue => "overdue"
  }

  /** A `PaymentDTO`; the amount is a whole number of rupees. */
  datatype Payment = Payment(
    id: string,
    tenantId: string,
    tenantName: string,
    propertyId: Option<string>,
    month: string,
    amount: int,
    dueDate: string,
    paidDate: Option<string>,
    status: Status)

  /** The search box: a tenant searches the month only, anyone else the
      tenant's name or the month, both case-insensitively. */
  predicate MatchesSearch(p: Payment, search: string, isTenant: bool) {
    var searchText := Lower(search);
    if isTenant then Contains(Lower(p.month), searchText)
    else Contains(Lower(p.tenantName), searchText) || Contains(Lower(p.month), searchText)
  }

  /** The status tabs: `"all"` or the status's own name. */
  predicate MatchesFilter(p: Payment, filter: string) {
    filter == "all" || StatusName(p.status) == filter
  }

  /** `filteredPayments`. */
  function FilteredPayments(payments: seq<Payment>, search: string, filter: string, isTenant: bool): (r: seq<Payment>)
    ensures IsSubsequence(r, payments)
    ensures forall p :: p in r <==> p in payments && MatchesSearch(p, search, isTenant) && MatchesFilter(p, filter)
  {
    var keep := (p: Payment) => MatchesSearch(p, search, isTenant) && MatchesFilter(p, filter);
    FilterIsSubsequence(payments, keep);
    FilterMembershipAll(payments, keep);
    Filter(payments, keep)
  }

  /** Lower-casing is idempotent. */
  lemma LowerLower(s: string)
    ensures Lower(Lower(s)) == Lower(s)
  {
  }

  /** The search ignores letter case: typing the search in any case, or the
      names and months in any case, selects the same payments. */
  lemma SearchIgnoresCase(p: Payment, search: string, isTenant: bool)
    ensures MatchesSearch(p, Lower(search), isTenant) == MatchesSearch(p, search, isTenant)
    ensures MatchesSearch(p.(tenantName := Lower(p.tenantName), month := Lower(p.month)), search, isTenant)
            == MatchesSearch(p, search, isTenant)
  {
    LowerLower(search);
    LowerLower(p.tenantName);
    LowerLower(p.month);
  }

  /** A tenant's search never looks at the tenant name. */
  lemma TenantSearchIgnoresName(p: Payment, search: string, name: string)
    ensures MatchesSearch(p.(tenantName := name), search, true) == MatchesSearch(p, search, true)
  {
  }

  /** An empty search on the "all" tab shows every payment, in order. */
  lemma EmptySearchShowsAll(payments: seq<Payment>, isTenant: bool)
    ensures FilteredPayments(payments, "", "all", isTenant) == payments
  {
    var keep := (p: Payment) => MatchesSearch(p, "", isTenant) && MatchesFilter(p, "all");
    forall i | 0 <= i < |payments|
      ensures keep(payments[i])
    {
      ContainsEmpty(Lower(payments[i].month));
    }
    FilterKeepsAll(payments, keep);
  }

  /** The sum of the amounts. */
  function Sum(payments: seq<Payment>): int {
    if payments == [] then 0 else payments[0].amount + Sum(payments[1..])
  }

  function HasStatus(s: Status): Payment -> bool {
    (p: Payment) => p.status == s
  }

  /** A stat card: `payments.filter(status).reduce(+ amount, 0)`, over every
      payment loaded, whatever the search and tab. */
  function Total(payments: seq<Payment>, s: Status): int {
    Sum(Filter(payments, HasStatus(s)))
  }

  /** Collected, due and overdue together account for every amount once. */
  lemma {:induction false} TotalsPartition(payments: seq<Payment>)
    ensures Total(payments, Paid) + Total(payments, Due) + Total(payments, Overdue) == Sum(payments)
  {
    if payments != [] {
      TotalsPartition(payments[1..]);
      var x := payments[0];
      var t := HasStatus(x.status);
      var rest := Filter(payments[1..], t);
      assert Filter(payments, t) == [x] + rest;
      assert ([x] + rest)[1..] == rest;
    }
  }

  /** With only non-negative amounts, every total is at most the sum. */
  lemma TotalBounded(payments: seq<Payment>, s: Status)
    requires forall i :: 0 <= i < |payments| ==> payments[i].amount >= 0
    ensures 0 <= Total(payments, s) <= Sum(payments)
  {
    SumNonNegative(payments);
    SumNonNegative(Filter(payments, HasStatus(s)));
    TotalsPartition(payments);
    SumNonNegative(Filter(payments, HasStatus(Paid)));
    SumNonNegative(Filter(payments, HasStatus(Due)));
    SumNonNegative(Filter(payments, HasStatus(Overdue)));
  }

  lemma {:induction false} SumNonNegative(payments: seq<Payment>)
    requires forall x :: x in payments ==> x.amount >= 0
    ensures Sum(payments) >= 0
  {
    if payments != [] {
      SumNonNegative(payments[1..]);
    }
  }

  /** `prev.map(p => p.id === id ? updated : p)`. */
  function ReplaceById(payments: seq<Payment>, id: string, updated: Payment): (r: seq<Payment>)
    ensures |r| == |payments|
    ensures forall i :: 0 <= i < |r| && payments[i].id == id ==> r[i] == updated
    ensures forall i :: 0 <= i < |r| && payments[i].id != id ==> r[i] == payments[i]
  {
    if payments == [] then []
    else [if payments[0].id == id then updated else payments[0]] + ReplaceById(payments[1..], id, updated)
  }

  /** Replacing by an id nobody has changes nothing. */
  lemma ReplaceAbsentId(payments: seq<Payment>, id: string, updated: Payment)
    requires forall i :: 0 <= i < |payments| ==> payments[i].id != id
    ensures ReplaceById(payments, id, updated) == payments
  {
  }

  /** Recording the same server record twice is recording it once, as long
      as the record keeps its id. */
  lemma ReplaceTwice(payments: seq<Payment>, id: string, updated: Payment)
    requires updated.id == id
    ensures ReplaceById(ReplaceById(payments, id, updated), id, updated) == ReplaceById(payments, id, updated)
  {
  }

  /** `amount.toFixed(2)` for a whole amount. */
  function ToFixed2(n: int): string {
    IntToString(n) + ".00"
  }

  function CsvHeader(isTenant: bool): (h: seq<string>)
    ensures |h| == if isTenant then 5 else 6
    ensures h[|h| - 1] == "Status" && (!isTenant ==> h[0] == "Tenant")
  {
    if isTenant then ["Month", "Amount", "Due Date", "Paid Date", "Status"]
    else ["Tenant", "Month", "Amount", "Due Date", "Paid Date", "Status"]
  }

  /** One exported row: the tenant's own export has no tenant column, and a
      missing paid date is written as an empty field. */
  function CsvRow(p: Payment, isTenant: bool): (row: seq<string>)
    ensures |row| == |CsvHeader(isTenant)|
    ensures row[|row| - 1] == StatusName(p.status)
    ensures row[|row| - 2] == Or(p.paidDate, "")
    ensures row[|row| - 3] == p.dueDate
    ensures row[|row| - 4] == ToFixed2(p.amount)
    ensures row[|row| - 5] == p.month
    ensures !isTenant ==> row[0] == p.tenantName
  {
    var cells := [p.month, ToFixed2(p.amount), p.dueDate, Or(p.paidDate, ""), StatusName(p.status)];
    if isTenant then cells else [p.tenantName] + cells
  }

  /** The exported lines, header first, each row comma-joined as is. */
  function CsvLines(filtered: seq<Payment>, isTenant: bool): (lines: seq<string>)
    ensures |lines| == 1 + |filtered|
  {
    [Join(CsvHeader(isTenant), ",")] + seq(|filtered|, i requires 0 <= i < |filtered| => Join(CsvRow(filtered[i], isTenant), ","))
  }

  /** `handleExport`: nothing when the list is empty, otherwise the CSV text. */
  function ExportCsv(filtered: seq<Payment>, isTenant: bool): (csv: Option<string>)
    ensures csv.None? <==> filtered == []
  {
    if filtered == [] then None else Some(Join(CsvLines(filtered, isTenant), "\n"))
  }

  /** No exported field of `p` contains `c`. */
  predicate FieldsAvoid(p: Payment, c: char) {
    c !in p.tenantName && c !in p.month && c !in p.dueDate && c !in Or(p.paidDate, "")
  }

  lemma RowAvoids(p: Payment, isTenant: bool, c: char)
    requires FieldsAvoid(p, c) && c != '-' && c != '.' && !IsDigit(c)
    requires c !in "paid" && c !in "due" && c !in "overdue"
    ensures forall k :: 0 <= k < |CsvRow(p, isTenant)| ==> c !in CsvRow(p, isTenant)[k]
  {
    var n: nat := if p.amount < 0 then -p.amount else p.amount;
    assert forall j :: 0 <= j < |NatToString(n)| ==> NatToString(n)[j] != c;
    assert c !in ToFixed2(p.amount);
  }

  /** No exported line holds a line break when no field does. */
  lemma LineFree(filtered: seq<Payment>, isTenant: bool, k: nat)
    requires k <= |filtered|
    requires forall i :: 0 <= i < |filtered| ==> FieldsAvoid(filtered[i], '\n')
    ensures '\n' !in CsvLines(filtered, isTenant)[k]
  {
    if k == 0 {
      JoinAvoids(CsvHeader(isTenant), ",", '\n');
    } else {
      RowAvoids(filtered[k - 1], isTenant, '\n');
      JoinAvoids(CsvRow(filtered[k - 1], isTenant), ",", '\n');
    }
  }

  /** When no field holds a line break, the CSV splits back into its lines:
      the header and then one line per payment, in the list's order. */
  lemma ExportLines(filtered: seq<Payment>, isTenant: bool)
    requires filtered != []
    requires forall i :: 0 <= i < |filtered| ==> FieldsAvoid(filtered[i], '\n')
    ensures SplitOn(ExportCsv(filtered, isTenant).value, {'\n'}) == CsvLines(filtered, isTenant)
    ensures |SplitOn(ExportCsv(filtered, isTenant).value, {'\n'})| == 1 + |filtered|
  {
    var lines := CsvLines(filtered, isTenant);
    forall k | 0 <= k < |lines|
      ensures '\n' !in lines[k]
    {
      LineFree(filtered, isTenant, k);
    }
    SplitJoin(lines, '\n', {'\n'});
  }

  /** When no field holds a comma, every line splits back into its fields:
      five for a tenant and six otherwise. */
  lemma ExportFields(filtered: seq<Payment>, isTenant: bool, i: nat)
    requires i < |filtered|
    requires FieldsAvoid(filtered[i], ',')
    ensures SplitOn(CsvLines(filtered, isTenant)[i + 1], {','}) == CsvRow(filtered[i], isTenant)
    ensures |SplitOn(CsvLines(filtered, isTenant)[i + 1], {','})| == if isTenant then 5 else 6
  {
    RowAvoids(filtered[i], isTenant, ',');
    SplitJoin(CsvRow(filtered[i], isTenant), ',', {','});
  }

  /** The fields are not quoted, so a tenant name with one comma splits its
      landlord export line into seven fields instead of six, the name's two
      halves leading. */
  lemma CommaInNameShiftsColumns(filtered: seq<Payment>, i: nat, first: string, second: string)
    requires i < |filtered|
    requires filtered[i].tenantName == first + "," + second && ',' !in first && ',' !in second
    requires FieldsAvoid(filtered[i].(tenantName := first), ',')
    ensures var parts := SplitOn(CsvLines(filtered, false)[i + 1], {','});
            |parts| == 7 && parts[0] == first && parts[1] == second
  {
    var p := filtered[i];
    var q := p.(tenantName := first);
    var cells := CsvRow(p, false)[1..];
    assert CsvRow(p, false) == [first + "," + second] + cells;
    assert CsvRow(q, false) == [first] + cells;
    RowAvoids(q, false, ',');
    var parts := [first, second] + cells;
    forall k | 0 <= k < |parts|
      ensures ',' !in parts[k]
    {
      if k >= 2 {
        assert parts[k] == CsvRow(q, false)[k - 1];
      }
    }
    JoinSplitsHead(first, second, cells, ",");
    assert CsvLines(filtered, false)[i + 1] == Join(parts, ",");
    SplitJoin(parts, ',', {','});
  }

  /** "Mark Paid" is a landlord's action on an unpaid row. */
  predicate OffersMarkPaid(user: Option<User>, p: Payment) {
    IsLandlord(user) && p.status != Paid
  }

  /** "Pay Now" is a tenant's action on an unpaid row. */
  predicate OffersPayNow(user: Option<User>, p: Payment) {
    IsTenant(user) && p.status != Paid
  }

  /** No row offers both actions, a paid row offers neither, and so does
      every row for an ADMIN. */
  lemma ActionsExclusive(user: Option<User>, p: Payment)
    ensures !(OffersMarkPaid(user, p) && OffersPayNow(user, p))
    ensures p.status == Paid ==> !OffersMarkPaid(user, p) && !OffersPayNow(user, p)
    ensures user.Some? && user.value.role == "ADMIN" ==> !OffersMarkPaid(user, p) && !OffersPayNow(user, p)
  {
    RoleHelpers(user);
  }

  /** The page's state. */
  class PaymentsPage {
    var payments: seq<Payment>
    var search: string
    var filter: string
    var loading: bool

    constructor ()
      ensures payments == [] && search == "" && filter == "all" && loading
    {
      payments, search, filter, loading := [], "", "all", true;
    }

    /** The rows currently shown. */
    function Shown(isTenant: bool): (r: seq<Payment>)
      reads this
      ensures IsSubsequence(r, payments)
    {
      FilteredPayments(payments, search, filter, isTenant)
    }

    /** The fetch effect: the list on success, unchanged on failure; loading always ends. */
    method Load(response: Result<seq<Payment>, string>)
      modifies this
      ensures !loading && search == old(search) && filter == old(filter)
      ensures payments == if response.Success? then response.value else old(payments)
    {
      if response.Success? {
        payments := response.value;
      }
      loading := false;
    }

    /** `handleRecordPayment`: the server's record replaces the rows with that
      id; on failure nothing changes. */
    method RecordPayment(id: string, response: Result<Payment, string>)
      modifies this
      ensures search == old(search) && filter == old(filter) && loading == old(loading)
      ensures payments == if response.Success? then ReplaceById(old(payments), id, response.value) else old(payments)
      ensures |payments| == |old(payments)|
    {
      if response.Success? {
        payments := ReplaceById(payments, id, response.value);
      }
    }
  }
}
