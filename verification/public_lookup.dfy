/** The public card lookup (src/pages/PublicLookup.tsx): a visitor types a card number and
    sees the donor and the donations recorded against it, with their total. The two Supabase
    queries are parameters: what each returned, rows or an error. */
module PublicLookup {
  import opened Text
  import opened Lists
  import opened Records

  /** What a query returned: the rows of the table it read, or an error with its message. */
  datatype Fetch<T> = Fetched(rows: seq<T>) | Failed(message: string)

  const BlankCardMessage := "Please enter a card number"
  const FallbackMessage := "Failed to fetch donation data"
  /** PostgREST's message when `maybeSingle` meets more than one row. */
  const ManyRowsMessage := "JSON object requested, multiple (or no) rows returned"

  /** `error.message || "Failed to fetch donation data"`. */
  function ErrorToast(message: string): (r: string)
    ensures r != ""
    ensures message != "" ==> r == message
  {
    if message != "" then message else FallbackMessage
  }

  /** What the page shows. `toast` is the description of the last toast raised, if any. */
  datatype View = View(
    cardNumber: string,
    loading: bool,
    donor: Option<Donor>,
    donations: seq<Donation>,
    notFound: bool,
    toast: Option<string>)

  /** The donations of one donor, as `.eq("donor_id", id)` selects them. */
  function DonationsOf(table: seq<Donation>, donorId: string): (r: seq<Donation>)
    ensures forall d :: d in r <==> d in table && d.donorId == donorId
  {
    Filter((d: Donation) => d.donorId == donorId, table)
  }

  /** The view after `handleLookup`, from the view before it and what the queries return. */
  function AfterLookup(before: View, donorsQuery: Fetch<Donor>, donationsQuery: Fetch<Donation>): (r: View)
    ensures r.cardNumber == before.cardNumber
  {
    var card := Trim(before.cardNumber);
    if card == "" then before.(toast := Some(BlankCardMessage))
    else
      var cleared := before.(loading := true, notFound := false, donor := None, donations := []);
      AfterQueries(cleared, card, donorsQuery, donationsQuery).(loading := false)
  }

  /** What the two queries for `card` make of the cleared view `reset`; they change neither
      the card number nor the loading flag. */
  function AfterQueries(reset: View, card: string, donorsQuery: Fetch<Donor>, donationsQuery: Fetch<Donation>): (r: View)
    ensures r.cardNumber == reset.cardNumber && r.loading == reset.loading
  {
    match donorsQuery
    case Failed(message) => reset.(toast := Some(ErrorToast(message)))
    case Fetched(donors) =>
      match CardMatch(donors, card)
      case NoRow => reset.(notFound := true)
      case ManyRows => reset.(toast := Some(ErrorToast(ManyRowsMessage)))
      case OneRow(d) =>
        match donationsQuery
        case Failed(message) => reset.(donor := Some(d), toast := Some(ErrorToast(message)))
        case Fetched(table) => reset.(donor := Some(d), donations := DonationsOf(table, d.id))
  }

  /** What a lookup shows belongs to the card typed. A blank card number is refused before
      any query and changes nothing but the toast. Otherwise the lookup finishes; a donor is
      shown only when it is the one row with the trimmed card number, the donations shown are
      that donor's, and a card no donor has is reported as not found rather than as an error. */
  lemma LookupShowsTypedCard(before: View, donorsQuery: Fetch<Donor>, donationsQuery: Fetch<Donation>)
    ensures var r := AfterLookup(before, donorsQuery, donationsQuery);
      Trim(before.cardNumber) == "" ==> r == before.(toast := Some(BlankCardMessage))
    ensures var r := AfterLookup(before, donorsQuery, donationsQuery);
      Trim(before.cardNumber) != "" ==> !r.loading
    ensures var r := AfterLookup(before, donorsQuery, donationsQuery);
      Trim(before.cardNumber) != "" && r.notFound ==> r.donor.None? && r.donations == []
    ensures var r := AfterLookup(before, donorsQuery, donationsQuery);
      Trim(before.cardNumber) != "" && r.donor.Some? ==>
        && !r.notFound
        && donorsQuery.Fetched?
        && r.donor.value in donorsQuery.rows
        && r.donor.value.cardNumber == Trim(before.cardNumber)
        && forall i, j :: 0 <= i < j < |donorsQuery.rows| ==>
             !(donorsQuery.rows[i].cardNumber == Trim(before.cardNumber) && donorsQuery.rows[j].cardNumber == Trim(before.cardNumber))
    ensures var r := AfterLookup(before, donorsQuery, donationsQuery);
      Trim(before.cardNumber) != "" ==>
        forall d :: d in r.donations ==> r.donor.Some? && d.donorId == r.donor.value.id
    ensures var r := AfterLookup(before, donorsQuery, donationsQuery);
      Trim(before.cardNumber) != "" && donorsQuery.Fetched? ==>
        (r.notFound <==> forall i :: 0 <= i < |donorsQuery.rows| ==> donorsQuery.rows[i].cardNumber != Trim(before.cardNumber))
  {
    var card := Trim(before.cardNumber);
    if card != "" && donorsQuery.Fetched? {
      CardMatchSelects(donorsQuery.rows, card);
      match CardMatch(donorsQuery.rows, card)
      case NoRow =>
      case ManyRows =>
      case OneRow(d) =>
        if donationsQuery.Fetched? {
          assert AfterLookup(before, donorsQuery, donationsQuery).donations == DonationsOf(donationsQuery.rows, d.id);
        }
    }
  }

  /** `donations.reduce((sum, d) => sum + Number(d.amount), 0)`. */
  function TotalAmount(ds: seq<Donation>): real
  {
    SumOf((d: Donation) => d.amount, ds)
  }

  /** The total does not depend on the order the donations are listed in (newest first). */
  lemma TotalIgnoresOrder(a: seq<Donation>, b: seq<Donation>)
    requires multiset(a) == multiset(b)
    ensures TotalAmount(a) == TotalAmount(b)
  {
    SumOfPermutation((d: Donation) => d.amount, a, b);
  }

  /** A donor's total, read as one pass over the whole table. */
  lemma {:induction false} TotalOfDonor(table: seq<Donation>, donorId: string)
    ensures TotalAmount(DonationsOf(table, donorId)) == SumOf((d: Donation) => if d.donorId == donorId then d.amount else 0.0, table)
  {
    if table != [] {
      var init := table[..|table| - 1];
      var last := table[|table| - 1];
      var mine := (d: Donation) => d.donorId == donorId;
      var masked := (d: Donation) => if d.donorId == donorId then d.amount else 0.0;
      assert table == init + [last];
      TotalOfDonor(init, donorId);
      assert SumOf(masked, table) == SumOf(masked, init) + masked(last);
      FilterAppend(mine, init, [last]);
      SumOfAppend((d: Donation) => d.amount, DonationsOf(init, donorId), Filter(mine, [last]));
      if mine(last) {
        assert Filter(mine, [last]) == [last];
        assert TotalAmount([last]) == last.amount by {
          assert [last][..0] == [];
        }
      } else {
        assert Filter(mine, [last]) == [];
      }
    }
  }

  /** The page's state. */
  class LookupPage {
    var cardNumber: string
    var loading: bool
    var donor: Option<Donor>
    var donations: seq<Donation>
    var notFound: bool
    var toast: Option<string>

    function Shown(): View
      reads this
    {
      View(cardNumber, loading, donor, donations, notFound, toast)
    }

    constructor ()
      ensures Shown() == View("", false, None, [], false, None)
    {
      cardNumber := "";
      loading := false;
      donor := None;
      donations := [];
      notFound := false;
      toast := None;
    }

    /** The input's `onChange`. */
    method SetCardNumber(value: string)
      modifies this`cardNumber
      ensures Shown() == old(Shown()).(cardNumber := value)
    {
      cardNumber := value;
    }

    /** `handleLookup`: refuse a blank card number; otherwise clear the previous result, look
        the donor up by the trimmed number, then its donations; report an error by a toast. */
    method Lookup(donorsQuery: Fetch<Donor>, donationsQuery: Fetch<Donation>)
      modifies this`loading, this`donor, this`donations, this`notFound, this`toast
      ensures Shown() == AfterLookup(old(Shown()), donorsQuery, donationsQuery)
    {
      var card := Trim(cardNumber);
      if card == "" {
        toast := Some(BlankCardMessage);
        assert Shown() == old(Shown()).(toast := Some(BlankCardMessage));
        return;
      }
      loading := true;
      notFound := false;
      donor := None;
      donations := [];
      ghost var cleared := Shown();
      assert cleared == old(Shown()).(loading := true, notFound := false, donor := None, donations := []);
      Query(card, donorsQuery, donationsQuery);
      ghost var queried := AfterQueries(cleared, card, donorsQuery, donationsQuery);
      assert AfterLookup(old(Shown()), donorsQuery, donationsQuery) == queried.(loading := false);
      assert Shown() == queried;
      loading := false;
    }

    /** The `try` block of `handleLookup`, once the previous result is cleared; the caller's
        `finally` then clears the loading flag. */
    method Query(card: string, donorsQuery: Fetch<Donor>, donationsQuery: Fetch<Donation>)
      modifies this`donor, this`notFound, this`donations, this`toast
      ensures Shown() == AfterQueries(old(Shown()), card, donorsQuery, donationsQuery)
    {
      match donorsQuery {
        case Failed(message) =>
          toast := Some(ErrorToast(message));
        case Fetched(donors) =>
          var found := CardMatch(donors, card);
          match found {
            case NoRow =>
              notFound := true;
            case ManyRows =>
              toast := Some(ErrorToast(ManyRowsMessage));
            case OneRow(d) =>
              donor := Some(d);
              match donationsQuery {
                case Failed(message) =>
                  toast := Some(ErrorToast(message));
                case Fetched(table) =>
                  donations := DonationsOf(table, d.id);
              }
          }
      }
    }
  }
}
