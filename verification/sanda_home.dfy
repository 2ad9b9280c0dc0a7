/** The home page (src/pages/Home.tsx): the public sanda lookup by root and card number,
    its paid and unpaid month lists, and the pure parts of the admin donor and donation
    forms and lists. */
module SandaHome {
  import opened Text
  import opened Numbers
  import opened Lists
  import opened MonthLists
  import opened Records

  // Paid and unpaid months

  /** A row `fetchPaidMonths` asks for: a sanda payment of this donor for this year. */
  predicate IsSandaPayment(d: Donation, donorId: string, year: int) {
    d.donorId == donorId && d.year == year && d.paymentMethod == "sanda"
  }

  /** The rows the paid-months query returns, in table order. */
  function SandaPayments(table: seq<Donation>, donorId: string, year: int): (r: seq<Donation>)
    ensures forall d :: d in r <==> d in table && IsSandaPayment(d, donorId, year)
  {
    Filter(d => IsSandaPayment(d, donorId, year), table)
  }

  /** The months listed by the rows, row after row; a null list contributes nothing. */
  function AllPaidMonths(rows: seq<Donation>): (r: seq<int>)
    ensures forall m :: m in r <==> exists d :: d in rows && PaysMonth(d, m)
  {
    if rows == [] then []
    else
      var init := rows[..|rows| - 1];
      var last := rows[|rows| - 1];
      var own := if last.monthsPaid.Some? then last.monthsPaid.value else [];
      assert rows == init + [last];
      assert forall d :: d in rows <==> d in init || d == last;
      assert forall m :: m in own <==> PaysMonth(last, m);
      AllPaidMonths(init) + own
  }

  /** `paid` is what the lookup shows as the paid months of the donor in the year: ascending,
      each month once, and exactly the months some sanda payment of that year lists. */
  ghost predicate PaidMonthsOf(paid: seq<int>, table: seq<Donation>, donorId: string, year: int) {
    && Increasing(paid)
    && forall m :: m in paid <==> exists d :: d in table && IsSandaPayment(d, donorId, year) && PaysMonth(d, m)
  }

  /** The donations table determines the paid-months list completely: reading it twice,
      or from rows in another order or with repeated months, shows the same list. */
  lemma PaidMonthsDetermined(p: seq<int>, q: seq<int>, table: seq<Donation>, donorId: string, year: int)
    requires PaidMonthsOf(p, table, donorId, year) && PaidMonthsOf(q, table, donorId, year)
    ensures p == q
  {
    IncreasingUnique(p, q);
  }

  /** `fetchPaidMonths`: gathers the months of every matching row, then de-duplicates and sorts. */
  method FetchPaidMonths(table: seq<Donation>, donorId: string, year: int) returns (paid: seq<int>)
    ensures PaidMonthsOf(paid, table, donorId, year)
  {
    var data := SandaPayments(table, donorId, year);
    var allPaid: seq<int> := [];
    for i := 0 to |data|
      invariant allPaid == AllPaidMonths(data[..i])
    {
      assert data[..i + 1][..i] == data[..i];
      if data[i].monthsPaid.Some? {
        allPaid := allPaid + data[i].monthsPaid.value;
      }
    }
    assert data[..|data|] == data;
    var unique := Dedup(allPaid);
    SortDistinct(unique);
    paid := Sort(unique);
  }

  /** `unpaidMonths`: the months 1 to 12 that are not in the paid list, ascending. */
  function UnpaidMonths(paid: seq<int>): (r: seq<int>)
    ensures Increasing(r)
    ensures forall m :: m in r <==> 1 <= m <= 12 && m !in paid
  {
    assert forall k :: 0 <= k < 12 ==> AllMonths[k] == k + 1;
    assert forall m :: m in AllMonths <==> 1 <= m <= 12;
    FilterIncreasing(m => m !in paid, AllMonths);
    Filter(m => m !in paid, AllMonths)
  }

  /** When the paid months are months of the year, the "month(s) paid" and
      "month(s) unpaid" counts the page shows add up to twelve. */
  lemma PaidAndUnpaidCountTwelve(paid: seq<int>)
    requires Increasing(paid)
    requires forall m :: m in paid ==> 1 <= m <= 12
    ensures |paid| + |UnpaidMonths(paid)| == 12
  {
    MonthsAmongTwelve(paid);
    FilterComplement(m => m in paid, m => m !in paid, AllMonths);
  }

  // The donation dialog's month buttons

  /** `toggleMonthPaid`: removes a listed month, or appends an unlisted one and re-sorts. */
  function ToggleMonthPaid(months: seq<int>, month: int): (r: seq<int>)
  {
    if month in months then Remove(months, month) else Sort(months + [month])
  }

  /** A toggle flips the clicked month and leaves every other month as it was. */
  lemma ToggleMonthPaidFlipsOne(months: seq<int>, month: int)
    ensures month in ToggleMonthPaid(months, month) <==> month !in months
    ensures forall m :: m != month ==> (m in ToggleMonthPaid(months, month) <==> m in months)
  {
    if month !in months {
      var s := months + [month];
      var r := Sort(s);
      forall m ensures m in r <==> m in s {
        assert m in r <==> m in multiset(r);
        assert m in s <==> m in multiset(s);
      }
    }
  }

  /** Toggling keeps an ascending duplicate-free list ascending and duplicate-free. */
  lemma ToggleMonthPaidKeepsIncreasing(months: seq<int>, month: int)
    requires Increasing(months)
    ensures Increasing(ToggleMonthPaid(months, month))
  {
    if month !in months {
      var s := months + [month];
      assert forall i :: 0 <= i < |months| ==> s[i] == months[i] && s[i] != month;
      assert Distinct(s);
      SortDistinct(s);
    }
  }

  /** Clicking the same month twice gives back the original selection. */
  lemma ToggleMonthPaidTwice(months: seq<int>, month: int)
    requires Increasing(months)
    ensures ToggleMonthPaid(ToggleMonthPaid(months, month), month) == months
  {
    var once := ToggleMonthPaid(months, month);
    ToggleMonthPaidFlipsOne(months, month);
    ToggleMonthPaidKeepsIncreasing(months, month);
    ToggleMonthPaidFlipsOne(once, month);
    ToggleMonthPaidKeepsIncreasing(once, month);
    IncreasingUnique(ToggleMonthPaid(once, month), months);
  }

  // Donor lists

  /** The root filter: the donors whose `root_no` is the selected root; none while no root is selected. */
  function DonorsInRoot(all: seq<Donor>, root: string): (r: seq<Donor>)
    ensures forall d :: d in r <==> root != "" && d in all && d.rootNo == Some(root)
  {
    if root == "" then [] else Filter((d: Donor) => d.rootNo == Some(root), all)
  }

  /** The admin search: the term, lower-cased, occurs in the lower-cased name or card number. */
  predicate MatchesSearch(d: Donor, term: string) {
    Includes(Lower(d.name), Lower(term)) || Includes(Lower(d.cardNumber), Lower(term))
  }

  /** `filteredDonorsList`. */
  function FilteredDonorsList(donors: seq<Donor>, term: string): (r: seq<Donor>)
    ensures forall d :: d in r <==> d in donors && MatchesSearch(d, term)
  {
    Filter(d => MatchesSearch(d, term), donors)
  }

  /** An empty search box lists every donor, in order. */
  lemma EmptySearchListsEveryDonor(donors: seq<Donor>)
    ensures FilteredDonorsList(donors, "") == donors
  {
    forall i | 0 <= i < |donors| ensures MatchesSearch(donors[i], "") {
      assert Lower("") <= Lower(donors[i].name);
    }
    FilterAll(d => MatchesSearch(d, ""), donors);
  }

  /** The search ignores the case of the term. */
  lemma SearchIgnoresCase(d: Donor, term: string)
    ensures MatchesSearch(d, term) <==> MatchesSearch(d, Lower(term))
  {
    LowerIdempotent(term);
  }

  // The donor dialog

  /** The donor dialog's text fields. */
  datatype DonorForm = DonorForm(
    name: string,
    rootNo: string,
    cardNumber: string,
    phone: string,
    monthlySandaAmount: string,
    status: string)

  /** The columns `handleDonorSubmit` writes. */
  datatype DonorColumns = DonorColumns(
    name: string,
    rootNo: Option<string>,
    cardNumber: string,
    phone: Option<string>,
    monthlySandaAmount: Option<real>,
    status: string)

  /** `x ? parseFloat(x) : null` for the monthly amount: empty means no amount, text without
      digits is NaN, which is stored as null too. */
  function SandaAmountOfField(field: string): (r: Option<real>)
    ensures field == "" ==> r.None?
    ensures field != "" ==> r == ParseFloat(field)
  {
    if field == "" then None else ParseFloat(field)
  }

  /** `handleDonorSubmit`: the form is written as it stands, only the amount is parsed. */
  function DonorSubmission(f: DonorForm): DonorColumns
  {
    DonorColumns(f.name, Some(f.rootNo), f.cardNumber, Some(f.phone), SandaAmountOfField(f.monthlySandaAmount), f.status)
  }

  /** `toString` of an amount; only whole amounts are rendered exactly. */
  function ShowAmount(x: real): string
  {
    ShowInt(x.Floor)
  }

  /** `handleEditDonor`: fills the dialog from a donor row, nulls becoming "" and a missing
      status becoming "active". */
  function DonorEditForm(d: Donor): DonorForm
  {
    DonorForm(
      d.name,
      d.rootNo.GetOr(""),
      d.cardNumber,
      d.phone.GetOr(""),
      if d.monthlySandaAmount.Some? then ShowAmount(d.monthlySandaAmount.value) else "",
      if d.status == "" then "active" else d.status)
  }

  /** Saving the edit dialog unchanged keeps the donor: name, card, a whole-rupee amount and a
      non-empty status come back as they were; a null root or phone comes back as "",
      which is falsy like null, and any other root or phone comes back as it was. */
  lemma DonorEditRoundTrip(d: Donor)
    requires d.monthlySandaAmount.Some? ==> d.monthlySandaAmount.value == d.monthlySandaAmount.value.Floor as real
    ensures var c := DonorSubmission(DonorEditForm(d));
      && c.name == d.name && c.cardNumber == d.cardNumber
      && c.monthlySandaAmount == d.monthlySandaAmount
      && (d.status != "" ==> c.status == d.status)
      && Truthy(c.rootNo) == Truthy(d.rootNo) && (Truthy(d.rootNo) ==> c.rootNo == d.rootNo)
      && Truthy(c.phone) == Truthy(d.phone) && (Truthy(d.phone) ==> c.phone == d.phone)
  {
    if d.monthlySandaAmount.Some? {
      ParseFloatShowInt(d.monthlySandaAmount.value.Floor);
    }
  }

  // The donation dialog

  /** The donation dialog's fields. */
  datatype DonationForm = DonationForm(
    donorId: string,
    amount: string,
    date: string,
    paymentMethod: string,
    year: string,
    monthsPaid: seq<int>)

  /** The columns `handleDonationSubmit` writes; a NaN amount or year is stored as null. */
  datatype DonationColumns = DonationColumns(
    donorId: string,
    amount: Option<real>,
    date: string,
    paymentMethod: string,
    year: Option<int>,
    monthsPaid: seq<int>)

  /** `handleDonationSubmit`: the amount through `parseFloat`, the year through `parseInt`,
      the months as selected (an empty selection is written too). */
  function DonationSubmission(f: DonationForm): DonationColumns
  {
    DonationColumns(f.donorId, ParseFloat(f.amount), f.date, f.paymentMethod, ParseInt(f.year), f.monthsPaid)
  }

  /** `handleEditDonation`: fills the dialog from a row; an empty date becomes `today`, an
      empty method "cash" and a null month list the empty selection. */
  function DonationEditForm(d: Donation, today: string): DonationForm
  {
    DonationForm(
      d.donorId,
      ShowAmount(d.amount),
      if d.date == "" then today else d.date,
      if d.paymentMethod == "" then "cash" else d.paymentMethod,
      ShowInt(d.year),
      d.monthsPaid.GetOr([]))
  }

  /** Saving the edit dialog unchanged keeps the donation: donor, a whole-rupee amount,
      a non-empty date and method, the year and the months come back as they were. */
  lemma DonationEditRoundTrip(d: Donation, today: string)
    requires d.amount == d.amount.Floor as real
    ensures var c := DonationSubmission(DonationEditForm(d, today));
      && c.donorId == d.donorId
      && c.amount == Some(d.amount)
      && (d.date != "" ==> c.date == d.date)
      && (d.paymentMethod != "" ==> c.paymentMethod == d.paymentMethod)
      && c.year == Some(d.year)
      && (d.monthsPaid.Some? ==> c.monthsPaid == d.monthsPaid.value)
  {
    ParseFloatShowInt(d.amount.Floor);
    ParseIntShowInt(d.year);
  }

  // The public lookup

  /** The lookup part of the home page: selections, the donor found and the paid months.
      Effects run when the value they depend on changes; a database round trip completes
      within the method that starts it. */
  class SandaLookup {
    var allDonors: seq<Donor>
    var selectedRoot: string
    var filteredDonors: seq<Donor>
    var selectedCard: string
    var selectedYear: string
    var donor: Option<Donor>
    var notFound: bool
    var lookupLoading: bool
    var paidMonths: seq<int>

    constructor ()
      ensures allDonors == [] && selectedRoot == "" && filteredDonors == [] && selectedCard == ""
      ensures selectedYear == "" && donor == None && !notFound && !lookupLoading && paidMonths == []
    {
      allDonors := [];
      selectedRoot := "";
      filteredDonors := [];
      selectedCard := "";
      selectedYear := "";
      donor := None;
      notFound := false;
      lookupLoading := false;
      paidMonths := [];
    }

    /** The year effect, with `fetchPaidMonths`: with a year and a donor selected, the paid
      months are re-read; a year that does not parse makes the query fail and the list stays;
      otherwise the list is emptied. */
    method RefreshPaidMonths(table: seq<Donation>)
      modifies this`paidMonths
      ensures selectedYear == "" || donor.None? ==> paidMonths == []
      ensures selectedYear != "" && donor.Some? && ParseInt(selectedYear).None? ==> paidMonths == old(paidMonths)
      ensures selectedYear != "" && donor.Some? && ParseInt(selectedYear).Some? ==>
        PaidMonthsOf(paidMonths, table, donor.value.id, ParseInt(selectedYear).value)
    {
      if selectedYear != "" && donor.Some? {
        var year := ParseInt(selectedYear);
        if year.Some? {
          paidMonths := FetchPaidMonths(table, donor.value.id, year.value);
        }
      } else {
        paidMonths := [];
      }
    }

    /** `fetchAllDonors` delivering the donors ordered by card. The list stored is always a
      new array, so the root effect runs after every fetch: the card list is re-filtered by
      the selected root, and the card, the donor and the paid months are cleared. */
    method LoadAllDonors(donors: seq<Donor>)
      modifies this`allDonors, this`filteredDonors, this`selectedCard, this`donor, this`paidMonths
      ensures allDonors == donors
      ensures filteredDonors == DonorsInRoot(donors, selectedRoot)
      ensures selectedCard == "" && donor == None && paidMonths == []
    {
      allDonors := donors;
      filteredDonors := DonorsInRoot(donors, selectedRoot);
      selectedCard := "";
      donor := None;
      paidMonths := [];
    }

    /** Choosing a root: the card list becomes that root's donors, and the card, the donor
      and the paid months are cleared. */
    method SelectRoot(root: string)
      modifies this`selectedRoot, this`filteredDonors, this`selectedCard, this`donor, this`paidMonths
      ensures selectedRoot == root
      ensures root != old(selectedRoot) ==>
        filteredDonors == DonorsInRoot(allDonors, root) && selectedCard == "" && donor == None && paidMonths == []
      ensures root == old(selectedRoot) ==>
        filteredDonors == old(filteredDonors) && selectedCard == old(selectedCard) && donor == old(donor) && paidMonths == old(paidMonths)
    {
      if root != selectedRoot {
        selectedRoot := root;
        filteredDonors := DonorsInRoot(allDonors, root);
        selectedCard := "";
        donor := None;
        paidMonths := [];
      }
    }

    /** Choosing a card number, with `handleCardSelection` and the year effect it triggers:
      no donor with that card sets `notFound` and leaves the donor shown before; one donor
      is shown with its paid months; several are a query error, reported by a toast. */
    method SelectCard(card: string, donors: seq<Donor>, table: seq<Donation>)
      modifies this`selectedCard, this`donor, this`notFound, this`lookupLoading, this`paidMonths
      ensures selectedCard == card && !lookupLoading
      ensures card == old(selectedCard) ==>
        donor == old(donor) && notFound == old(notFound) && paidMonths == old(paidMonths)
      ensures card != old(selectedCard) && card == "" ==>
        donor == None && paidMonths == [] && notFound == old(notFound)
      ensures card != old(selectedCard) && card != "" ==>
        match CardMatch(donors, card)
        case NoRow => notFound && donor == old(donor) && paidMonths == old(paidMonths)
        case ManyRows => !notFound && donor == old(donor) && paidMonths == old(paidMonths)
        case OneRow(d) =>
          && !notFound && donor == Some(d) && d in donors && d.cardNumber == card
          && (selectedYear == "" ==> paidMonths == [])
          && (ParseInt(selectedYear).Some? ==> PaidMonthsOf(paidMonths, table, d.id, ParseInt(selectedYear).value))
    {
      lookupLoading := false;
      if card != selectedCard {
        selectedCard := card;
        if card == "" {
          donor := None;
          paidMonths := [];
        } else {
          lookupLoading := true;
          notFound := false;
          var found := CardMatch(donors, card);
          match found {
            case NoRow =>
              notFound := true;
            case ManyRows =>
            case OneRow(d) =>
              donor := Some(d);
              if selectedYear != "" {
                var year := ParseInt(selectedYear);
                if year.Some? {
                  paidMonths := FetchPaidMonths(table, d.id, year.value);
                }
              } else {
                paidMonths := [];
              }
          }
          lookupLoading := false;
        }
      }
    }

    /** Choosing a year: the year effect re-reads the paid months of the donor shown. */
    method SelectYear(year: string, table: seq<Donation>)
      modifies this`selectedYear, this`paidMonths
      ensures selectedYear == year
      ensures year == old(selectedYear) ==> paidMonths == old(paidMonths)
      ensures year != old(selectedYear) && (year == "" || donor.None?) ==> paidMonths == []
      ensures year != old(selectedYear) && year != "" && donor.Some? && ParseInt(year).Some? ==>
        PaidMonthsOf(paidMonths, table, donor.value.id, ParseInt(year).value)
    {
      if year != selectedYear {
        selectedYear := year;
        RefreshPaidMonths(table);
      }
    }
  }
}
