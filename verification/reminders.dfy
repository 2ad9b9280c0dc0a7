/** The monthly reminder job (supabase/functions/send-sanda-reminders/index.ts): for the
    requested month, every eligible donor who has not paid it is sent a WhatsApp reminder,
    and each attempt is logged and counted. The clock, the environment and the messaging
    service are parameters: `nowMonth`/`nowYear`, `credentialsConfigured` and `send`. */
module Reminders {
  import opened Text
  import opened Lists
  import opened Records

  /** The JSON body of a request; absent members are `None`. */
  datatype ReminderRequest = ReminderRequest(donorId: Option<string>, month: Option<int>, year: Option<int>)

  /** `body.x || fallback` for a number: absent and 0 are falsy. */
  function OrNow(x: Option<int>, now: int): (r: int)
    ensures x.Some? && x.value != 0 ==> r == x.value
    ensures x.None? || x.value == 0 ==> r == now
  {
    if x.Some? && x.value != 0 then x.value else now
  }

  /** A donor the job writes to: active, with a WhatsApp number, and the requested donor
      when the request names one. */
  predicate Eligible(d: Donor, req: ReminderRequest) {
    && d.status == "active"
    && d.whatsappNo.Some?
    && (Truthy(req.donorId) ==> d.id == req.donorId.value)
  }

  /** The donors query, in table order. */
  function EligibleDonors(donors: seq<Donor>, req: ReminderRequest): (r: seq<Donor>)
    ensures forall d :: d in r <==> d in donors && Eligible(d, req)
  {
    Filter(d => Eligible(d, req), donors)
  }

  /** The payments query: the donor's donations of the year, of any method. */
  function PaymentsOf(donations: seq<Donation>, donorId: string, year: int): (r: seq<Donation>)
    ensures forall p :: p in r <==> p in donations && p.donorId == donorId && p.year == year
  {
    Filter((p: Donation) => p.donorId == donorId && p.year == year, donations)
  }

  /** Some payment lists the month. */
  predicate AnyPays(payments: seq<Donation>, month: int) {
    exists i :: 0 <= i < |payments| && PaysMonth(payments[i], month)
  }

  /** The donor has paid the month: one of their donations of the year lists it. */
  predicate HasPaid(donations: seq<Donation>, donorId: string, month: int, year: int) {
    AnyPays(PaymentsOf(donations, donorId, year), month)
  }

  /** The `hasPaid` loop: scans the payments and stops at the first that lists the month. */
  method CheckPaid(payments: seq<Donation>, month: int) returns (hasPaid: bool)
    ensures hasPaid <==> AnyPays(payments, month)
  {
    hasPaid := false;
    var i := 0;
    while i < |payments|
      invariant 0 <= i <= |payments|
      invariant forall k :: 0 <= k < i ==> !PaysMonth(payments[k], month)
    {
      if payments[i].monthsPaid.Some? && month in payments[i].monthsPaid.value {
        hasPaid := true;
        break;
      }
      i := i + 1;
    }
  }

  /** What the messaging service did with one reminder: accepted it; answered with an error
      (the JSON body and its `message`, if any); or failed to answer at all. */
  datatype SendOutcome = Delivered | Rejected(body: string, message: Option<string>) | Threw(reason: string)

  /** The reminder text, by what it is built from: the donor's name, the month's name and
      the monthly amount; `NoMessage` is the empty text of a failed attempt. */
  datatype Message = Reminder(donorName: string, monthName: string, amount: Option<real>) | NoMessage

  /** A row of `reminder_logs`. */
  datatype ReminderLog = ReminderLog(
    donorId: string,
    month: int,
    year: int,
    status: string,
    message: Message,
    errorMessage: Option<string>)

  /** `results`. */
  datatype Tally = Tally(sent: nat, failed: nat, skipped: nat, errors: seq<string>)

  /** The results and the log rows written so far. */
  datatype Progress = Progress(tally: Tally, logs: seq<ReminderLog>)

  /** The log row of an attempt. */
  function LogOf(d: Donor, outcome: SendOutcome, month: int, year: int): (l: ReminderLog)
    ensures l.donorId == d.id && l.month == month && l.year == year
    ensures l.status == "success" <==> outcome.Delivered?
    ensures l.errorMessage.None? <==> outcome.Delivered?
    ensures l.message == NoMessage <==> outcome.Threw?
  {
    var text := Reminder(d.name, MonthName(month), d.monthlySandaAmount);
    match outcome
    case Delivered => ReminderLog(d.id, month, year, "success", text, None)
    case Rejected(body, _) => ReminderLog(d.id, month, year, "failed", text, Some(body))
    case Threw(reason) => ReminderLog(d.id, month, year, "failed", NoMessage, Some(reason))
  }

  /** The entry an unsuccessful attempt adds to `errors`. */
  function ErrorOf(d: Donor, outcome: SendOutcome): string {
    match outcome
    case Rejected(_, message) => d.name + ": " + (if Truthy(message) then message.value else "Unknown error")
    case Threw(reason) => d.name + ": " + reason
    case Delivered => ""
  }

  /** One turn of the loop for donor `d`. */
  function Step(p: Progress, d: Donor, paid: bool, outcome: SendOutcome, month: int, year: int): Progress {
    var t := p.tally;
    if paid then Progress(t.(skipped := t.skipped + 1), p.logs)
    else
      var logs := p.logs + [LogOf(d, outcome, month, year)];
      if outcome.Delivered? then Progress(t.(sent := t.sent + 1), logs)
      else Progress(t.(failed := t.failed + 1, errors := t.errors + [ErrorOf(d, outcome)]), logs)
  }

  /** The loop over the donors `ds`. Every donor is counted exactly once, every attempt
      (that is, every donor not skipped) is logged, and every failure leaves one error. */
  function Run(ds: seq<Donor>, donations: seq<Donation>, month: int, year: int, send: Donor -> SendOutcome): (p: Progress)
    ensures p.tally.sent + p.tally.failed + p.tally.skipped == |ds|
    ensures |p.logs| == p.tally.sent + p.tally.failed
    ensures |p.tally.errors| == p.tally.failed
  {
    if ds == [] then Progress(Tally(0, 0, 0, []), [])
    else
      var d := ds[|ds| - 1];
      Step(Run(ds[..|ds| - 1], donations, month, year, send), d, HasPaid(donations, d.id, month, year), send(d), month, year)
  }

  /** The donors a reminder is attempted for: those who have not paid the month. */
  function Attempted(ds: seq<Donor>, donations: seq<Donation>, month: int, year: int): (r: seq<Donor>)
    ensures forall d :: d in r <==> d in ds && !HasPaid(donations, d.id, month, year)
  {
    Filter((d: Donor) => !HasPaid(donations, d.id, month, year), ds)
  }

  /** The log rows of a sequence of attempts. */
  function LogsOf(ds: seq<Donor>, month: int, year: int, send: Donor -> SendOutcome): (r: seq<ReminderLog>)
    ensures |r| == |ds|
    ensures forall i :: 0 <= i < |ds| ==> r[i] == LogOf(ds[i], send(ds[i]), month, year)
  {
    if ds == [] then [] else [LogOf(ds[0], send(ds[0]), month, year)] + LogsOf(ds[1..], month, year, send)
  }

  lemma LogsOfAppend(a: seq<Donor>, b: seq<Donor>, month: int, year: int, send: Donor -> SendOutcome)
    ensures LogsOf(a + b, month, year, send) == LogsOf(a, month, year, send) + LogsOf(b, month, year, send)
  {
    var whole := LogsOf(a + b, month, year, send);
    var parts := LogsOf(a, month, year, send) + LogsOf(b, month, year, send);
    assert |whole| == |parts|;
    forall i | 0 <= i < |whole|
      ensures whole[i] == parts[i]
    {
      if i < |a| {
        assert (a + b)[i] == a[i];
      } else {
        assert (a + b)[i] == b[i - |a|];
      }
    }
  }

  /** One more donor: the attempted donors grow by that donor exactly when they have not paid. */
  lemma AttemptedSnoc(init: seq<Donor>, d: Donor, donations: seq<Donation>, month: int, year: int)
    ensures Attempted(init + [d], donations, month, year)
      == Attempted(init, donations, month, year) + (if HasPaid(donations, d.id, month, year) then [] else [d])
  {
    FilterAppend((d: Donor) => !HasPaid(donations, d.id, month, year), init, [d]);
    assert [d][1..] == [];
  }

  /** The log rows are exactly one per unpaid donor, in loop order, each telling how that
      donor's attempt went; a donor who has paid is skipped without a row. */
  lemma {:induction false} RunLogsOnlyAttempts(ds: seq<Donor>, donations: seq<Donation>, month: int, year: int, send: Donor -> SendOutcome)
    ensures Run(ds, donations, month, year, send).logs == LogsOf(Attempted(ds, donations, month, year), month, year, send)
  {
    if ds != [] {
      var init := ds[..|ds| - 1];
      var d := ds[|ds| - 1];
      assert ds == init + [d];
      var before := Run(init, donations, month, year, send);
      var paid := HasPaid(donations, d.id, month, year);
      assert Run(ds, donations, month, year, send) == Step(before, d, paid, send(d), month, year);
      RunLogsOnlyAttempts(init, donations, month, year, send);
      AttemptedSnoc(init, d, donations, month, year);
      var tail := if paid then [] else [d];
      LogsOfAppend(Attempted(init, donations, month, year), tail, month, year, send);
      assert LogsOf(tail, month, year, send) == if paid then [] else [LogOf(d, send(d), month, year)];
    }
  }

  /** The skipped count is the number of eligible donors who have paid. */
  lemma {:induction false} SkippedArePaid(ds: seq<Donor>, donations: seq<Donation>, month: int, year: int, send: Donor -> SendOutcome)
    ensures Run(ds, donations, month, year, send).tally.skipped == |ds| - |Attempted(ds, donations, month, year)|
  {
    if ds != [] {
      var init := ds[..|ds| - 1];
      var d := ds[|ds| - 1];
      assert ds == init + [d];
      SkippedArePaid(init, donations, month, year, send);
      AttemptedSnoc(init, d, donations, month, year);
    }
  }

  /** The sent count is the number of attempts the service accepted. */
  lemma {:induction false} SentAreDelivered(ds: seq<Donor>, donations: seq<Donation>, month: int, year: int, send: Donor -> SendOutcome)
    ensures Run(ds, donations, month, year, send).tally.sent
      == |Filter((d: Donor) => !HasPaid(donations, d.id, month, year) && send(d).Delivered?, ds)|
  {
    if ds != [] {
      var init := ds[..|ds| - 1];
      var d := ds[|ds| - 1];
      assert ds == init + [d];
      SentAreDelivered(init, donations, month, year, send);
      FilterAppend((d: Donor) => !HasPaid(donations, d.id, month, year) && send(d).Delivered?, init, [d]);
      assert [d][1..] == [];
    }
  }

  /** The function's answer. */
  datatype Response =
    | Fatal(error: string)                // status 500
    | NoActiveDonors                      // "No active donors found", sent 0, failed 0
    | Finished(results: Tally)            // status 200

  /** The `for` loop over the eligible donors: skips a donor who has paid the month,
      otherwise sends the reminder, logs the attempt and counts it as sent or failed. */
  method RemindEach(eligible: seq<Donor>, donations: seq<Donation>, month: int, year: int, send: Donor -> SendOutcome)
    returns (results: Tally, logs: seq<ReminderLog>)
    ensures Progress(results, logs) == Run(eligible, donations, month, year, send)
  {
    results := Tally(0, 0, 0, []);
    logs := [];
    for i := 0 to |eligible|
      invariant Progress(results, logs) == Run(eligible[..i], donations, month, year, send)
    {
      var d := eligible[i];
      assert eligible[..i + 1][..i] == eligible[..i];
      var payments := PaymentsOf(donations, d.id, year);
      var hasPaid := CheckPaid(payments, month);
      assert Run(eligible[..i + 1], donations, month, year, send)
        == Step(Run(eligible[..i], donations, month, year, send), d, hasPaid, send(d), month, year);
      if hasPaid {
        results := results.(skipped := results.skipped + 1);
        continue;
      }
      var outcome := send(d);
      logs := logs + [LogOf(d, outcome, month, year)];
      if outcome.Delivered? {
        results := results.(sent := results.sent + 1);
      } else {
        results := results.(failed := results.failed + 1, errors := results.errors + [ErrorOf(d, outcome)]);
      }
    }
    assert eligible[..|eligible|] == eligible;
  }

  /** The request handler. Without credentials it fails before reading anything; a failed
      donors query is rethrown and answered as a fatal error carrying the message the catch
      renders (`donorsError`); with no eligible donor it answers at once; otherwise it runs
      the loop over the eligible donors. */
  method SendReminders(
    req: ReminderRequest, nowMonth: int, nowYear: int, credentialsConfigured: bool,
    donorsError: Option<string>, donors: seq<Donor>, donations: seq<Donation>, send: Donor -> SendOutcome)
    returns (response: Response, logs: seq<ReminderLog>)
    ensures !credentialsConfigured ==> response == Fatal("Twilio credentials not configured") && logs == []
    ensures credentialsConfigured && donorsError.Some? ==> response == Fatal(donorsError.value) && logs == []
    ensures credentialsConfigured && donorsError.None? && EligibleDonors(donors, req) == [] ==>
      response == NoActiveDonors && logs == []
    ensures credentialsConfigured && donorsError.None? && EligibleDonors(donors, req) != [] ==>
      var month := OrNow(req.month, nowMonth);
      var year := OrNow(req.year, nowYear);
      var p := Run(EligibleDonors(donors, req), donations, month, year, send);
      response == Finished(p.tally) && logs == p.logs
  {
    logs := [];
    if !credentialsConfigured {
      response := Fatal("Twilio credentials not configured");
      return;
    }
    if donorsError.Some? {
      response := Fatal(donorsError.value);
      return;
    }
    var month := OrNow(req.month, nowMonth);
    var year := OrNow(req.year, nowYear);
    var eligible := EligibleDonors(donors, req);
    if eligible == [] {
      response := NoActiveDonors;
      return;
    }
    var results;
    results, logs := RemindEach(eligible, donations, month, year, send);
    response := Finished(results);
  }
}
