/** The zakat ledger (src/components/modules/BaithulZakat.tsx): collections and
    distributions, the totals shown above the list, the searchable list itself and the
    transaction dialog. */
module BaithulZakat {
  import opened Text
  import opened Numbers
  import opened Lists

  datatype Kind = Collection | Distribution

  /** A row of `zakat_transactions`. */
  datatype Transaction = Transaction(
    id: string,
    kind: Kind,
    amount: real,
    date: string,
    donorName: Option<string>,
    recipientName: Option<string>,
    purpose: Option<string>,
    paymentMethod: Option<string>,
    notes: Option<string>,
    familyId: Option<string>)

  /** A row of `families` as the ledger reads it. */
  datatype ZakatFamily = ZakatFamily(id: string, familyName: string, zakatStatus: Option<string>)

  // Totals

  function AmountOf(t: Transaction): real {
    t.amount
  }

  /** The sum of the amounts of the transactions of one kind. */
  function TotalOf(txns: seq<Transaction>, k: Kind): real {
    SumOf(AmountOf, Filter((t: Transaction) => t.kind == k, txns))
  }

  datatype Stats = Stats(collected: real, distributed: real, balance: real)

  /** The stats `loadTransactions` computes over every transaction it read: each total is a
      single pass adding only its own kind's amounts, and the balance is a single pass
      adding collections and subtracting distributions. */
  function LedgerStats(txns: seq<Transaction>): (s: Stats)
    ensures s.collected == SumOf(t => AmountIf(Collection, t), txns)
    ensures s.distributed == SumOf(t => AmountIf(Distribution, t), txns)
    ensures s.balance == SumOf(SignedAmount, txns)
  {
    var collected := TotalOf(txns, Collection);
    var distributed := TotalOf(txns, Distribution);
    TotalOfIsMaskedSum(txns, Collection);
    TotalOfIsMaskedSum(txns, Distribution);
    BalanceIsSignedSum(txns);
    Stats(collected, distributed, collected - distributed)
  }

  /** The amount a transaction adds to the total of kind `k`: its own amount or nothing. */
  function AmountIf(k: Kind, t: Transaction): real {
    if t.kind == k then t.amount else 0.0
  }

  /** What a transaction does to the balance: a collection adds, a distribution takes away. */
  function SignedAmount(t: Transaction): real {
    if t.kind == Collection then t.amount else -t.amount
  }

  /** The total of one kind, read as a single pass over all transactions. */
  lemma {:induction false} TotalOfIsMaskedSum(txns: seq<Transaction>, k: Kind)
    ensures TotalOf(txns, k) == SumOf(t => AmountIf(k, t), txns)
  {
    if txns != [] {
      var init := txns[..|txns| - 1];
      var last := txns[|txns| - 1];
      var ofKind := (t: Transaction) => t.kind == k;
      var masked := t => AmountIf(k, t);
      assert txns == init + [last];
      TotalOfIsMaskedSum(init, k);
      assert SumOf(masked, txns) == SumOf(masked, init) + masked(last);
      FilterAppend(ofKind, init, [last]);
      SumOfAppend(AmountOf, Filter(ofKind, init), Filter(ofKind, [last]));
      if last.kind == k {
        assert Filter(ofKind, [last]) == [last];
        SumOfSingleton(AmountOf, last);
      } else {
        assert Filter(ofKind, [last]) == [];
      }
    }
  }

  /** Collections minus distributions, in any order of reading, is the sum of the signed
      amounts. */
  lemma {:induction false} BalanceIsSignedSum(txns: seq<Transaction>)
    ensures TotalOf(txns, Collection) - TotalOf(txns, Distribution) == SumOf(SignedAmount, txns)
  {
    if txns != [] {
      var init := txns[..|txns| - 1];
      BalanceIsSignedSum(init);
      TotalOfIsMaskedSum(txns, Collection);
      TotalOfIsMaskedSum(txns, Distribution);
      TotalOfIsMaskedSum(init, Collection);
      TotalOfIsMaskedSum(init, Distribution);
    }
  }

  /** Recording one more transaction moves only its own kind's total, and the balance by
      its signed amount. */
  lemma StatsAfterRecording(txns: seq<Transaction>, t: Transaction)
    ensures var before := LedgerStats(txns);
      var after := LedgerStats(txns + [t]);
      && after.collected == before.collected + AmountIf(Collection, t)
      && after.distributed == before.distributed + AmountIf(Distribution, t)
      && after.balance == before.balance + SignedAmount(t)
  {
    assert (txns + [t])[..|txns|] == txns;
    TotalOfIsMaskedSum(txns + [t], Collection);
    TotalOfIsMaskedSum(txns + [t], Distribution);
    TotalOfIsMaskedSum(txns, Collection);
    TotalOfIsMaskedSum(txns, Distribution);
  }

  /** The stats do not depend on the order the transactions were read in. */
  lemma StatsIgnoreOrder(a: seq<Transaction>, b: seq<Transaction>)
    requires multiset(a) == multiset(b)
    ensures LedgerStats(a) == LedgerStats(b)
  {
    TotalOfIsMaskedSum(a, Collection);
    TotalOfIsMaskedSum(b, Collection);
    TotalOfIsMaskedSum(a, Distribution);
    TotalOfIsMaskedSum(b, Distribution);
    SumOfPermutation(t => AmountIf(Collection, t), a, b);
    SumOfPermutation(t => AmountIf(Distribution, t), a, b);
  }

  // The list

  /** The type tabs above the list. */
  datatype TypeFilter = All | Only(kind: Kind)

  /** `field?.toLowerCase().includes(term.toLowerCase())`: a null field never matches. */
  predicate FieldMatches(field: Option<string>, term: string) {
    field.Some? && Includes(Lower(field.value), Lower(term))
  }

  predicate MatchesSearch(t: Transaction, term: string) {
    FieldMatches(t.donorName, term) || FieldMatches(t.recipientName, term) || FieldMatches(t.purpose, term)
  }

  predicate MatchesType(t: Transaction, filter: TypeFilter) {
    filter.All? || t.kind == filter.kind
  }

  /** `filteredTransactions`: the transactions whose donor, recipient or purpose contains the
      term and whose type matches the tab, in the order read. */
  function FilteredTransactions(txns: seq<Transaction>, term: string, filter: TypeFilter): (r: seq<Transaction>)
    ensures forall t :: t in r <==> t in txns && MatchesSearch(t, term) && MatchesType(t, filter)
    ensures forall t :: t in r ==> t.donorName.Some? || t.recipientName.Some? || t.purpose.Some?
  {
    Filter(t => MatchesSearch(t, term) && MatchesType(t, filter), txns)
  }

  /** With an empty search every transaction with a donor, recipient or purpose is listed,
      and one with none of the three is hidden. */
  lemma EmptySearchHidesOnlyAnonymous(txns: seq<Transaction>, filter: TypeFilter)
    ensures forall t :: t in FilteredTransactions(txns, "", filter) <==>
      t in txns && MatchesType(t, filter) && (t.donorName.Some? || t.recipientName.Some? || t.purpose.Some?)
  {
    forall s: string ensures Includes(Lower(s), Lower("")) {
      assert Lower("") <= Lower(s);
    }
  }

  /** The "all" tab lists exactly the collections tab plus the distributions tab. */
  lemma AllTabIsBothTabs(txns: seq<Transaction>, term: string)
    ensures |FilteredTransactions(txns, term, All)|
      == |FilteredTransactions(txns, term, Only(Collection))| + |FilteredTransactions(txns, term, Only(Distribution))|
  {
    FilterSplit(
      t => MatchesSearch(t, term) && MatchesType(t, All),
      t => MatchesSearch(t, term) && MatchesType(t, Only(Collection)),
      t => MatchesSearch(t, term) && MatchesType(t, Only(Distribution)),
      txns);
  }

  // The dialog

  /** The `zakat_status` of the families offered for a kind: "given" for a collection,
      "taker" for a distribution. */
  function CandidateStatus(k: Kind): string {
    if k == Collection then "given" else "taker"
  }

  /** `getFilteredFamilies`. */
  function CandidateFamilies(families: seq<ZakatFamily>, k: Kind): (r: seq<ZakatFamily>)
    ensures forall f :: f in r <==> f in families && f.zakatStatus == Some(CandidateStatus(k))
  {
    Filter((f: ZakatFamily) => f.zakatStatus == Some(CandidateStatus(k)), families)
  }

  /** No family is offered for both kinds. */
  lemma CandidatesAreDisjoint(families: seq<ZakatFamily>, f: ZakatFamily)
    ensures !(f in CandidateFamilies(families, Collection) && f in CandidateFamilies(families, Distribution))
  {
  }

  /** The dialog's fields. */
  datatype ZakatForm = ZakatForm(
    kind: Kind,
    amount: string,
    date: string,
    donorName: string,
    recipientName: string,
    purpose: string,
    paymentMethod: string,
    notes: string,
    familyId: string)

  /** The dialog as `resetForm` leaves it on `today`. */
  function BlankForm(today: string): ZakatForm {
    ZakatForm(Collection, "", today, "", "", "", "cash", "", "")
  }

  /** The columns `handleSubmit` writes. */
  datatype TransactionColumns = TransactionColumns(
    kind: Kind,
    amount: Option<real>,
    date: string,
    donorName: Option<string>,
    recipientName: Option<string>,
    purpose: Option<string>,
    paymentMethod: string,
    notes: Option<string>,
    familyId: Option<string>)

  /** `submitData`: the donor name is written only for a collection and the recipient name
      only for a distribution; an empty purpose, note or family becomes null. */
  function Submission(f: ZakatForm): (c: TransactionColumns)
    ensures c.donorName.Some? <==> f.kind == Collection
    ensures c.recipientName.Some? <==> f.kind == Distribution
    ensures c.donorName.Some? ==> c.donorName.value == f.donorName
    ensures c.recipientName.Some? ==> c.recipientName.value == f.recipientName
    ensures (c.purpose.None? <==> f.purpose == "") && (c.notes.None? <==> f.notes == "")
    ensures c.familyId.None? <==> f.familyId == ""
  {
    TransactionColumns(
      f.kind,
      ParseFloat(f.amount),
      f.date,
      if f.kind == Collection then Some(f.donorName) else None,
      if f.kind == Distribution then Some(f.recipientName) else None,
      NullIfEmpty(f.purpose),
      f.paymentMethod,
      NullIfEmpty(f.notes),
      NullIfEmpty(f.familyId))
  }

  /** `handleEdit`: fills the dialog from a transaction, nulls becoming "" and a null or
      empty method "cash". Only whole amounts are rendered exactly. */
  function EditForm(t: Transaction): ZakatForm {
    ZakatForm(
      t.kind,
      ShowInt(t.amount.Floor),
      t.date,
      t.donorName.GetOr(""),
      t.recipientName.GetOr(""),
      t.purpose.GetOr(""),
      if Truthy(t.paymentMethod) then t.paymentMethod.value else "cash",
      t.notes.GetOr(""),
      t.familyId.GetOr(""))
  }

  /** Saving the edit dialog unchanged keeps the transaction: its kind, a whole amount, its
      date, the name of its own kind (null as "") and, where set and non-empty, its method,
      purpose, notes and family; a null or empty method is written as "cash", and the name of
      the other kind as null. */
  lemma EditRoundTrip(t: Transaction)
    requires t.amount == t.amount.Floor as real
    ensures var c := Submission(EditForm(t));
      && c.kind == t.kind && c.amount == Some(t.amount) && c.date == t.date
      && (t.kind == Collection ==> c.donorName == Some(t.donorName.GetOr("")) && c.recipientName == None)
      && (t.kind == Distribution ==> c.recipientName == Some(t.recipientName.GetOr("")) && c.donorName == None)
      && (Truthy(t.paymentMethod) ==> c.paymentMethod == t.paymentMethod.value) && (!Truthy(t.paymentMethod) ==> c.paymentMethod == "cash")
      && (Truthy(t.purpose) ==> c.purpose == t.purpose) && (!Truthy(t.purpose) ==> c.purpose == None)
      && (Truthy(t.notes) ==> c.notes == t.notes) && (!Truthy(t.notes) ==> c.notes == None)
      && (Truthy(t.familyId) ==> c.familyId == t.familyId) && (!Truthy(t.familyId) ==> c.familyId == None)
  {
    ParseFloatShowInt(t.amount.Floor);
  }

  /** The ledger page: the transactions read, the stats computed when they were read, the
      search box and the type tabs. */
  class ZakatPage {
    var transactions: seq<Transaction>
    var stats: Stats
    var searchTerm: string
    var filterType: TypeFilter

    constructor ()
      ensures transactions == [] && stats == Stats(0.0, 0.0, 0.0) && searchTerm == "" && filterType == All
      ensures Valid()
    {
      transactions := [];
      stats := Stats(0.0, 0.0, 0.0);
      searchTerm := "";
      filterType := All;
    }

    /** The stats shown are those of the transactions read. */
    ghost predicate Valid()
      reads this
    {
      stats == LedgerStats(transactions)
    }

    /** The list shown under the tabs. */
    function Shown(): (r: seq<Transaction>)
      reads this
      ensures forall t :: t in r ==> t in transactions
    {
      FilteredTransactions(transactions, searchTerm, filterType)
    }

    /** `loadTransactions`: stores the rows and recomputes the stats over all of them. */
    method LoadTransactions(txns: seq<Transaction>)
      modifies this`transactions, this`stats
      ensures transactions == txns && Valid()
    {
      transactions := txns;
      var collected := TotalOf(txns, Collection);
      var distributed := TotalOf(txns, Distribution);
      stats := Stats(collected, distributed, collected - distributed);
    }

    /** Typing in the search box changes the list shown but never the stats. */
    method SetSearch(term: string)
      modifies this`searchTerm
      ensures searchTerm == term && Shown() == FilteredTransactions(transactions, term, filterType)
      ensures Valid() == old(Valid())
    {
      searchTerm := term;
    }

    /** Choosing a tab changes the list shown but never the stats. */
    method SetFilter(filter: TypeFilter)
      modifies this`filterType
      ensures filterType == filter && Shown() == FilteredTransactions(transactions, searchTerm, filter)
      ensures Valid() == old(Valid())
    {
      filterType := filter;
    }
  }

  /** The transaction dialog with the families it offers. */
  class ZakatDialog {
    var form: ZakatForm
    var families: seq<ZakatFamily>

    constructor (fams: seq<ZakatFamily>, today: string)
      ensures form == BlankForm(today) && families == fams
    {
      form := BlankForm(today);
      families := fams;
    }

    /** `handleFamilySelect`: a known family becomes the transaction's family and its name the
      donor name of a collection or the recipient name of a distribution, the other name
      staying as it was; an unknown id changes nothing. */
    method SelectFamily(fid: string)
      modifies this`form
      ensures Find((f: ZakatFamily) => f.id == fid, families).None? ==> form == old(form)
      ensures Find((f: ZakatFamily) => f.id == fid, families).Some? ==>
        var f := Find((f: ZakatFamily) => f.id == fid, families).value;
        && f in families && f.id == fid
        && form.familyId == fid && form.kind == old(form).kind
        && (form.kind == Collection ==> form.donorName == f.familyName && form.recipientName == old(form).recipientName)
        && (form.kind == Distribution ==> form.recipientName == f.familyName && form.donorName == old(form).donorName)
        && form.amount == old(form).amount && form.date == old(form).date && form.purpose == old(form).purpose
        && form.paymentMethod == old(form).paymentMethod && form.notes == old(form).notes
    {
      var found := Find((f: ZakatFamily) => f.id == fid, families);
      if found.Some? {
        var f := found.value;
        form := form.(
          familyId := fid,
          donorName := if form.kind == Collection then f.familyName else form.donorName,
          recipientName := if form.kind == Distribution then f.familyName else form.recipientName);
      }
    }

    /** The type buttons: switching the type clears the family and both names. */
    method SwitchType(k: Kind)
      modifies this`form
      ensures form == old(form).(kind := k, familyId := "", donorName := "", recipientName := "")
    {
      form := form.(kind := k, familyId := "", donorName := "", recipientName := "");
    }
  }
}
