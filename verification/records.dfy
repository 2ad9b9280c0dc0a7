/** Rows of the `donors` and `donations` tables, as the pages and the reminder job read them,
    and the month names the receipts and reminders print. */
module Records {
  import opened Text
  import opened Lists

  /** A row of `donors`. Columns the modelled code never reads are omitted. */
  datatype Donor = Donor(
    id: string,
    name: string,
    cardNumber: string,
    rootNo: Option<string>,
    phone: Option<string>,
    whatsappNo: Option<string>,
    status: string,
    monthlySandaAmount: Option<real>)

  /** A row of `donations`: one payment, covering the months listed in `monthsPaid` of `year`. */
  datatype Donation = Donation(
    id: string,
    donorId: string,
    amount: real,
    date: string,
    paymentMethod: string,
    year: int,
    monthsPaid: Option<seq<int>>)

  /** The donation lists month `m` among the months it pays for. */
  predicate PaysMonth(d: Donation, m: int) {
    d.monthsPaid.Some? && m in d.monthsPaid.value
  }

  const MonthNames: seq<string> := [
    "January", "February", "March", "April", "May", "June",
    "July", "August", "September", "October", "November", "December"]

  /** `monthNames[m - 1]` as a template literal writes it: "undefined" outside 1..12. */
  function MonthName(m: int): string
  {
    if 1 <= m <= 12 then MonthNames[m - 1] else "undefined"
  }

  /** The donors query by card number, `.eq("card_number", card).maybeSingle()`. */
  function CardMatch(donors: seq<Donor>, card: string): RowMatch<Donor>
  {
    MaybeSingle((d: Donor) => d.cardNumber == card, donors)
  }

  /** The card query gives no row when no donor has the card, the donor when exactly one
      has it, and an error when several have it. */
  lemma CardMatchSelects(donors: seq<Donor>, card: string)
    ensures var r := CardMatch(donors, card);
      r.NoRow? <==> forall i :: 0 <= i < |donors| ==> donors[i].cardNumber != card
    ensures var r := CardMatch(donors, card);
      r.OneRow? ==>
        && r.row in donors && r.row.cardNumber == card
        && forall i, j :: 0 <= i < j < |donors| ==> !(donors[i].cardNumber == card && donors[j].cardNumber == card)
    ensures var r := CardMatch(donors, card);
      r.ManyRows? <==> exists i, j :: 0 <= i < j < |donors| && donors[i].cardNumber == card && donors[j].cardNumber == card
  {
    var r := CardMatch(donors, card);
    if r.OneRow? {
      var k :| OnlyAt((d: Donor) => d.cardNumber == card, donors, k) && donors[k] == r.row;
    }
  }
}
