/** The WhatsApp receipt (src/utils/receiptGenerator.ts): the message text and the link that
    opens WhatsApp with it. Locale formatting of the amount and the date and URL encoding are
    parameters. */
module Receipt {
  import opened Text
  import opened Lists
  import opened Numbers
  import opened Records

  /** The fields a receipt prints. */
  datatype ReceiptData = ReceiptData(
    donorName: string,
    cardNumber: string,
    rootNo: Option<string>,
    phone: Option<string>,
    amount: real,
    date: string,
    paymentMethod: string,
    year: int,
    monthsPaid: seq<int>,
    paymentFrequency: Option<string>)

  /** What `join` writes for `monthNames[m - 1]`: the month's name, or "" for the `undefined`
      a month outside 1..12 looks up. */
  function JoinedMonthName(m: int): (r: string)
    ensures 1 <= m <= 12 ==> r == MonthName(m)
    ensures !(1 <= m <= 12) ==> r == ""
  {
    if 1 <= m <= 12 then MonthName(m) else ""
  }

  /** The month names of `months`, in the given order, as `join` writes them. */
  function MonthNamesOf(months: seq<int>): (r: seq<string>)
    ensures |r| == |months|
    ensures forall i :: 0 <= i < |months| ==> r[i] == JoinedMonthName(months[i])
  {
    if months == [] then [] else MonthNamesOf(months[..|months| - 1]) + [JoinedMonthName(months[|months| - 1])]
  }

  /** `monthsPaid.map(m => monthNames[m - 1]).join(", ")`. */
  function MonthsText(months: seq<int>): string
  {
    Join(MonthNamesOf(months), ", ")
  }

  /** The month whose name is `name`, if any. */
  function MonthNumber(name: string): (r: Option<int>)
    ensures r.Some? ==> 1 <= r.value <= 12 && MonthName(r.value) == name
    ensures r.None? ==> forall m :: 1 <= m <= 12 ==> MonthName(m) != name
  {
    MonthNumberFrom(name, 1)
  }

  function MonthNumberFrom(name: string, m: int): (r: Option<int>)
    requires 1 <= m <= 13
    ensures r.Some? ==> m <= r.value <= 12 && MonthName(r.value) == name
    ensures r.None? ==> forall k :: m <= k <= 12 ==> MonthName(k) != name
    decreases 13 - m
  {
    if m == 13 then None
    else if MonthName(m) == name then Some(m)
    else MonthNumberFrom(name, m + 1)
  }

  /** The twelve month names are different words, so a name tells its month. */
  lemma MonthNamesDistinct(a: int, b: int)
    requires 1 <= a <= 12 && 1 <= b <= 12 && a != b
    ensures MonthName(a) != MonthName(b)
  {
    var na, nb := MonthName(a), MonthName(b);
    if |na| == |nb| {
      assert na[0] != nb[0] || na[1] != nb[1] || na[2] != nb[2];
    }
  }

  lemma MonthNumberOfName(m: int)
    requires 1 <= m <= 12
    ensures MonthNumber(MonthName(m)) == Some(m)
  {
    var r := MonthNumber(MonthName(m));
    if r.Some? && r.value != m {
      MonthNamesDistinct(r.value, m);
    }
  }

  /** The month numbers named by `names`, when every one is a month name. */
  function MonthNumbers(names: seq<string>): (r: Option<seq<int>>)
    ensures r.Some? ==> |r.value| == |names|
    ensures r.Some? ==> forall i :: 0 <= i < |names| ==> 1 <= r.value[i] <= 12 && MonthName(r.value[i]) == names[i]
  {
    if names == [] then Some([])
    else
      var init := MonthNumbers(names[..|names| - 1]);
      var last := MonthNumber(names[|names| - 1]);
      if init.Some? && last.Some? then
        var r := init.value + [last.value];
        assert forall i :: 0 <= i < |names| - 1 ==> r[i] == init.value[i] && names[i] == names[..|names| - 1][i];
        Some(r)
      else None
  }

  /** The months line reads back as the months it was printed from, when they are months of
      the year: split at ", " and look each name up. */
  lemma {:induction false} MonthsTextRoundTrip(months: seq<int>)
    requires months != []
    requires forall i :: 0 <= i < |months| ==> 1 <= months[i] <= 12
    ensures MonthNumbers(Split(MonthsText(months), ", ")) == Some(months)
  {
    var names := MonthNamesOf(months);
    forall i | 0 <= i < |names|
      ensures ',' !in names[i]
    {
      assert names[i] in MonthNames;
    }
    SplitJoin(names, ", ");
    MonthNumbersOfNames(months);
  }

  lemma {:induction false} MonthNumbersOfNames(months: seq<int>)
    requires forall i :: 0 <= i < |months| ==> 1 <= months[i] <= 12
    ensures MonthNumbers(MonthNamesOf(months)) == Some(months)
  {
    if months != [] {
      var init := months[..|months| - 1];
      var last := months[|months| - 1];
      assert forall i :: 0 <= i < |init| ==> init[i] == months[i];
      assert months == init + [last];
      MonthNumbersOfNames(init);
      MonthNumbersOfNamesStep(init, last);
    }
  }

  /** One more month read back from its name. */
  lemma MonthNumbersOfNamesStep(init: seq<int>, last: int)
    requires 1 <= last <= 12
    requires MonthNumbers(MonthNamesOf(init)) == Some(init)
    ensures MonthNumbers(MonthNamesOf(init + [last])) == Some(init + [last])
  {
    var months := init + [last];
    assert months[..|months| - 1] == init;
    assert MonthNamesOf(months) == MonthNamesOf(init) + [JoinedMonthName(last)];
    MonthNumberOfName(last);
    MonthNumbersSnoc(MonthNamesOf(init), MonthName(last));
  }

  lemma MonthNumbersSnoc(names: seq<string>, name: string)
    ensures MonthNumbers(names + [name]) ==
      if MonthNumbers(names).Some? && MonthNumber(name).Some? then Some(MonthNumbers(names).value + [MonthNumber(name).value]) else None
  {
    assert (names + [name])[..|names|] == names;
  }

  /** `method.charAt(0).toUpperCase() + method.slice(1).replace("_", " ")`. */
  function MethodLabel(paymentMethod: string): (r: string)
    ensures |r| == |paymentMethod|
  {
    if paymentMethod == [] then []
    else [UpperChar(paymentMethod[0])] + ReplaceFirst(paymentMethod[1..], '_', ' ')
  }

  /** The label capitalises the first letter and turns the first underscore after it, and
      only that one, into a space; every other character is kept. */
  lemma MethodLabelReplacesFirstUnderscore(paymentMethod: string)
    ensures var r := MethodLabel(paymentMethod);
      && (r != [] ==> r[0] == UpperChar(paymentMethod[0]))
      && forall i :: 1 <= i < |r| ==>
           r[i] == if paymentMethod[i] == '_' && '_' !in paymentMethod[1..i] then ' ' else paymentMethod[i]
  {
    var r := MethodLabel(paymentMethod);
    if paymentMethod != [] {
      var rest := paymentMethod[1..];
      forall i | 1 <= i < |r|
        ensures r[i] == if paymentMethod[i] == '_' && '_' !in paymentMethod[1..i] then ' ' else paymentMethod[i]
      {
        assert r[i] == ReplaceFirst(rest, '_', ' ')[i - 1];
        assert rest[..i - 1] == paymentMethod[1..i];
        assert rest[i - 1] == paymentMethod[i];
      }
    }
  }

  /** A method without an underscore after its first letter is only capitalised (`cash` is
      shown as "Cash"). */
  lemma MethodLabelWithoutUnderscore(first: char, rest: string)
    requires '_' !in rest
    ensures MethodLabel([first] + rest) == [UpperChar(first)] + rest
  {
    var s := [first] + rest;
    assert s[0] == first && s[1..] == rest;
    ReplaceFirstAbsent(rest, '_', ' ');
  }

  /** Words joined by underscores: the first letter is capitalised and the first underscore
      becomes a space, while any later underscore stays (`bank_transfer` is shown as
      "Bank transfer", `a_b_c` as "A b_c"). */
  lemma MethodLabelOfWords(first: char, word: string, rest: string)
    requires '_' !in word
    ensures MethodLabel([first] + word + ['_'] + rest) == [UpperChar(first)] + word + [' '] + rest
  {
    var s := [first] + word + ['_'] + rest;
    assert s[0] == first;
    assert s[1..] == word + ['_'] + rest;
    ReplaceFirstAt(word, rest, '_', ' ');
  }

  /** `paymentFrequency === "yearly" ? "Yearly Payment" : "Monthly Payment"`. */
  function PaymentTypeLabel(paymentFrequency: Option<string>): (r: string)
    ensures r == "Yearly Payment" <==> paymentFrequency == Some("yearly")
    ensures r == "Yearly Payment" || r == "Monthly Payment"
  {
    if paymentFrequency == Some("yearly") then "Yearly Payment" else "Monthly Payment"
  }

  const RootLabel := "*Root No:* "

  /** The lines of `generateWhatsAppReceiptText`, joined by line breaks to make the message.
      `formatAmount` and `formatDate` stand for `toLocaleString` and `toLocaleDateString`. */
  function ReceiptLines(data: ReceiptData, formatAmount: real -> string, formatDate: string -> string): (r: seq<string>)
  {
    HeadLines(data)
    + (if Truthy(data.rootNo) then [RootLabel + data.rootNo.value] else [])
    + TailLines(data, formatAmount, formatDate)
  }

  /** A line whose second character differs from the Root No label's cannot start with it. */
  predicate NotRootLine(line: string) {
    |line| < 2 || line[1] != RootLabel[1]
  }

  /** A line made of a caption and a value is not a Root No line when its caption is not. */
  lemma LabelledNotRootLine(caption: string, value: string)
    requires |caption| >= 2 && caption[1] != RootLabel[1]
    ensures NotRootLine(caption + value)
  {
    assert (caption + value)[1] == caption[1];
  }

  /** The title and the donor's name and card number. */
  function HeadLines(data: ReceiptData): (r: seq<string>)
    ensures |r| == 5
    ensures forall i :: 0 <= i < |r| ==> NotRootLine(r[i])
  {
    var donor := "*Donor:* " + data.donorName;
    var card := "*Card No:* " + data.cardNumber;
    LabelledNotRootLine("*Donor:* ", data.donorName);
    LabelledNotRootLine("*Card No:* ", data.cardNumber);
    ["*MASJID AL-AHSAN*", "_Sanda Payment Receipt_", "", donor, card]
  }

  /** The payment itself and the closing lines. */
  function TailLines(data: ReceiptData, formatAmount: real -> string, formatDate: string -> string): (r: seq<string>)
    ensures |r| == 8
    ensures forall i :: 0 <= i < |r| ==> NotRootLine(r[i])
  {
    PaymentLines(ShowInt(data.year), MonthsText(data.monthsPaid), formatAmount(data.amount),
      MethodLabel(data.paymentMethod), formatDate(data.date))
  }

  /** The payment lines from their values, already written out. */
  function PaymentLines(year: string, months: string, amount: string, methodLabel: string, date: string): (r: seq<string>)
    ensures |r| == 8
    ensures forall i :: 0 <= i < |r| ==> NotRootLine(r[i])
  {
    LabelledNotRootLine("*Year:* ", year);
    LabelledNotRootLine("*Months Paid:* ", months);
    LabelledNotRootLine("*Amount:* Rs. ", amount);
    LabelledNotRootLine("*Method:* ", methodLabel);
    LabelledNotRootLine("*Date:* ", date);
    ["*Year:* " + year, "*Months Paid:* " + months, "*Amount:* Rs. " + amount,
     "*Method:* " + methodLabel, "*Date:* " + date,
     "", "_Thank you for your contribution._", "_May Allah bless you._"]
  }

  function ReceiptText(data: ReceiptData, formatAmount: real -> string, formatDate: string -> string): string
  {
    Join(ReceiptLines(data, formatAmount, formatDate), "\n")
  }

  predicate StartsWith(s: string, prefix: string) {
    |prefix| <= |s| && s[..|prefix|] == prefix
  }

  /** The receipt has a Root No line exactly when the donor's root number is given (and not
      empty), and it then carries that number; every other line is there either way. */
  lemma RootLineIffRootNo(data: ReceiptData, formatAmount: real -> string, formatDate: string -> string)
    ensures var lines := ReceiptLines(data, formatAmount, formatDate);
      (exists i :: 0 <= i < |lines| && StartsWith(lines[i], RootLabel)) <==> Truthy(data.rootNo)
    ensures var lines := ReceiptLines(data, formatAmount, formatDate);
      Truthy(data.rootNo) ==> lines[5] == RootLabel + data.rootNo.value
    ensures var lines := ReceiptLines(data, formatAmount, formatDate);
      |lines| == if Truthy(data.rootNo) then 14 else 13
  {
    var head := HeadLines(data);
    var tail := TailLines(data, formatAmount, formatDate);
    var root := if Truthy(data.rootNo) then [RootLabel + data.rootNo.value] else [];
    var lines := ReceiptLines(data, formatAmount, formatDate);
    assert lines == head + root + tail;
    forall i | 0 <= i < |lines| && !(Truthy(data.rootNo) && i == 5)
      ensures !StartsWith(lines[i], RootLabel)
    {
      if i < 5 {
        assert lines[i] == head[i];
      } else {
        assert lines[i] == tail[i - 5 - |root|];
      }
      assert NotRootLine(lines[i]);
    }
    if Truthy(data.rootNo) {
      assert lines[5] == RootLabel + data.rootNo.value;
      assert (RootLabel + data.rootNo.value)[..|RootLabel|] == RootLabel;
    }
  }

  /** Characters the phone cleaning removes: `\s`, `-`, `(` and `)`. */
  predicate Stripped(c: char) {
    IsSpace(c) || c == '-' || c == '(' || c == ')'
  }

  /** `phoneNumber?.replace(/[\s\-\(\)]/g, "") || ""`. */
  function CleanPhone(phone: Option<string>): (r: string)
    ensures phone.None? ==> r == ""
    ensures phone.Some? ==> forall c :: c in r <==> c in phone.value && !Stripped(c)
  {
    if phone.None? then "" else Filter(c => !Stripped(c), phone.value)
  }

  /** Cleaning works character by character, in order. */
  lemma CleanPhoneAppend(a: string, b: string)
    ensures CleanPhone(Some(a + b)) == CleanPhone(Some(a)) + CleanPhone(Some(b))
  {
    FilterAppend(c => !Stripped(c), a, b);
  }

  /** Cleaning a cleaned number changes nothing. */
  lemma CleanPhoneIdempotent(phone: Option<string>)
    ensures CleanPhone(Some(CleanPhone(phone))) == CleanPhone(phone)
  {
    var r := CleanPhone(phone);
    FilterAll(c => !Stripped(c), r);
  }

  const WhatsAppBase := "https://wa.me/"

  /** The link `shareReceiptViaWhatsApp` opens; `encode` stands for `encodeURIComponent`. */
  function WhatsAppUrl(phone: Option<string>, text: string, encode: string -> string): (r: string)
    ensures CleanPhone(phone) == "" ==> r == WhatsAppBase + "?text=" + encode(text)
    ensures CleanPhone(phone) != "" ==> StartsWith(r, WhatsAppBase + CleanPhone(phone) + "?text=")
  {
    var cleanPhone := CleanPhone(phone);
    if cleanPhone != "" then WhatsAppBase + cleanPhone + "?text=" + encode(text)
    else WhatsAppBase + "?text=" + encode(text)
  }

  /** The branch on the phone only leaves the recipient out when there is none: both links
      are the base, the cleaned phone, and the encoded text. */
  lemma WhatsAppUrlShape(phone: Option<string>, text: string, encode: string -> string)
    ensures WhatsAppUrl(phone, text, encode) == WhatsAppBase + CleanPhone(phone) + "?text=" + encode(text)
  {
    if CleanPhone(phone) == "" {
      assert WhatsAppBase + CleanPhone(phone) == WhatsAppBase;
    }
  }
}
