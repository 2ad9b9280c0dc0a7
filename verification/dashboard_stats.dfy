/** The dashboard figures (src/hooks/useDashboardStats.ts): the current month's prorated
    sanda total, how many donors have paid it and how many have not, the registry counts and
    the zakat totals. The current month and year are parameters. */
module DashboardStats {
  import opened Text
  import opened Lists
  import opened MonthLists
  import opened Records
  import BaithulZakat

  /** A donation's share of one month: its amount spread evenly over the months it lists. */
  function Share(d: Donation): real
    requires d.monthsPaid.Some?
  {
    var n := |d.monthsPaid.value|;
    d.amount / (if n == 0 then 1 else n) as real
  }

  /** What a donation adds to the month's total: its share if it lists the month, else nothing. */
  function MonthShare(d: Donation, month: int): real {
    if PaysMonth(d, month) then Share(d) else 0.0
  }

  /** The month's prorated total over the donations. */
  function ProratedTotal(ds: seq<Donation>, month: int): real {
    SumOf(d => MonthShare(d, month), ds)
  }

  /** The donors with a donation listing the month. */
  function PaidDonorIds(ds: seq<Donation>, month: int): (r: set<string>)
    ensures forall id :: id in r <==> exists d :: d in ds && PaysMonth(d, month) && d.donorId == id
  {
    if ds == [] then {}
    else
      var init := ds[..|ds| - 1];
      var last := ds[|ds| - 1];
      assert ds == init + [last];
      assert forall d :: d in ds <==> d in init || d == last;
      PaidDonorIds(init, month) + (if PaysMonth(last, month) then {last.donorId} else {})
  }

  /** The `forEach` over the year's donations: adds up the shares of the month and collects
      the donors who paid it. */
  method CurrentMonthStats(donations: seq<Donation>, month: int) returns (monthlyTotal: real, paidDonorIds: set<string>)
    ensures monthlyTotal == ProratedTotal(donations, month)
    ensures paidDonorIds == PaidDonorIds(donations, month)
  {
    monthlyTotal := 0.0;
    paidDonorIds := {};
    for i := 0 to |donations|
      invariant monthlyTotal == ProratedTotal(donations[..i], month)
      invariant paidDonorIds == PaidDonorIds(donations[..i], month)
    {
      var d := donations[i];
      assert donations[..i + 1][..i] == donations[..i];
      if d.monthsPaid.Some? && month in d.monthsPaid.value {
        var n := |d.monthsPaid.value|;
        monthlyTotal := monthlyTotal + d.amount / (if n == 0 then 1 else n) as real;
        paidDonorIds := paidDonorIds + {d.donorId};
      }
    }
    assert donations[..|donations|] == donations;
  }

  /** A donor with several donations for the month counts once: there are never more paid
      donors than donations listing the month. */
  lemma {:induction false} PaidDonorsAtMostDonations(ds: seq<Donation>, month: int)
    ensures |PaidDonorIds(ds, month)| <= |Filter(d => PaysMonth(d, month), ds)|
  {
    if ds != [] {
      var init := ds[..|ds| - 1];
      var last := ds[|ds| - 1];
      assert ds == init + [last];
      PaidDonorsAtMostDonations(init, month);
      FilterAppend(d => PaysMonth(d, month), init, [last]);
      assert [last][1..] == [];
    }
  }

  /** When every paying donor is one of the donors counted, the pending count is not negative. */
  lemma PendingNotNegative(ds: seq<Donation>, month: int, donorIds: set<string>)
    requires forall d :: d in ds && PaysMonth(d, month) ==> d.donorId in donorIds
    ensures |donorIds| - |PaidDonorIds(ds, month)| >= 0
  {
    var paid := PaidDonorIds(ds, month);
    assert paid <= donorIds;
    assert donorIds == paid + (donorIds - paid);
    assert |donorIds| == |paid| + |donorIds - paid|;
  }

  /** Prorating loses nothing: the shares of a donation over the twelve months of the year add
      up to its amount, when it lists distinct months of the year. */
  lemma SharesAddUpToAmount(d: Donation)
    requires d.monthsPaid.Some? && d.monthsPaid.value != []
    requires Increasing(d.monthsPaid.value)
    requires forall m :: m in d.monthsPaid.value ==> 1 <= m <= 12
    ensures SumOf(m => MonthShare(d, m), AllMonths) == d.amount
  {
    var months := d.monthsPaid.value;
    var c := Share(d);
    var listed := m => m in months;
    var share := m => MonthShare(d, m);
    assert forall i :: 0 <= i < |AllMonths| ==> share(AllMonths[i]) == if listed(AllMonths[i]) then c else 0.0;
    SumOfIndicator(share, listed, c, AllMonths);
    MonthsAmongTwelve(months);
    assert Filter(listed, AllMonths) == months;
    ShareTimesCount(d);
  }

  /** A share added once per listed month gives back the amount. */
  lemma ShareTimesCount(d: Donation)
    requires d.monthsPaid.Some? && d.monthsPaid.value != []
    ensures Times(Share(d), |d.monthsPaid.value|) == d.amount
  {
    var n := |d.monthsPaid.value| as real;
    assert Share(d) == d.amount / n;
    TimesIsProduct(Share(d), |d.monthsPaid.value|);
  }

  /** `count || 0`. */
  function CountOrZero(count: Option<int>): (r: int)
    ensures count.Some? && count.value != 0 ==> r == count.value
    ensures count.None? ==> r == 0
  {
    if count.Some? then count.value else 0
  }

  datatype Dashboard = Dashboard(
    sandaMonthlyTotal: real,
    sandaMembersPaid: nat,
    sandaMembersPending: int,
    totalFamilies: int,
    totalIndividuals: int,
    zakatCollected: real,
    zakatDistributed: real,
    zakatBalance: real)

  /** The donations query: the rows of `year`. */
  function DonationsOfYear(table: seq<Donation>, year: int): (r: seq<Donation>)
    ensures forall d :: d in r <==> d in table && d.year == year
  {
    Filter((d: Donation) => d.year == year, table)
  }

  /** `fetchStats`, given the counts the count queries returned and the tables the other
      queries read. Its zakat figures are the ledger page's. */
  method FetchStats(
    month: int, year: int,
    donorCount: Option<int>, donations: seq<Donation>,
    familyCount: Option<int>, memberCount: Option<int>,
    transactions: seq<BaithulZakat.Transaction>)
    returns (s: Dashboard)
    ensures s.sandaMonthlyTotal == ProratedTotal(DonationsOfYear(donations, year), month)
    ensures s.sandaMembersPaid == |PaidDonorIds(DonationsOfYear(donations, year), month)|
    ensures s.sandaMembersPending == CountOrZero(donorCount) - s.sandaMembersPaid
    ensures s.totalFamilies == CountOrZero(familyCount) && s.totalIndividuals == CountOrZero(memberCount)
    ensures var ledger := BaithulZakat.LedgerStats(transactions);
      s.zakatCollected == ledger.collected && s.zakatDistributed == ledger.distributed && s.zakatBalance == ledger.balance
  {
    var totalDonors := CountOrZero(donorCount);
    var monthlyTotal, paidDonorIds := CurrentMonthStats(DonationsOfYear(donations, year), month);
    var membersPaid := |paidDonorIds|;
    var collected := SumOf(BaithulZakat.AmountOf, Filter((t: BaithulZakat.Transaction) => t.kind == BaithulZakat.Collection, transactions));
    var distributed := SumOf(BaithulZakat.AmountOf, Filter((t: BaithulZakat.Transaction) => t.kind == BaithulZakat.Distribution, transactions));
    s := Dashboard(
      monthlyTotal, membersPaid, totalDonors - membersPaid,
      CountOrZero(familyCount), CountOrZero(memberCount),
      collected, distributed, collected - distributed);
  }
}
