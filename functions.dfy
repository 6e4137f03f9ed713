/** The result shaping of two of the functions the assistant can call,
    `send_conversation_summary` and `get_client_products_by_client_id`, with what
    the database and the e-mail service answer taken as inputs. */
module Functions {
  import opened Wrappers
  import opened Json
  import opened Tools

  /** A result reports a failure when it has an "error" member. */
  predicate IsError(result: Json) {
    result.Obj? && Lookup(result.members, "error").Some?
  }

  // ---------------------------------------------------------------------------
  // send_conversation_summary

  /** The row `SELECT email, name FROM clients WHERE client_id = ...` finds; a NULL
      column is None. */
  datatype ClientRow = ClientRow(email: Option<string>, name: Option<string>)

  /** What `send_support_summary_email` answers: the case id it made up, or the
      text of the exception the e-mail client raised. */
  datatype Sending = Sent(caseId: string) | SendFailed(error: string)

  /** `str()` of a text column inside an f-string. */
  function ColumnText(c: Option<string>): string {
    if c.Some? then c.value else "None"
  }

  /** The address the summary is mailed to, if any: `not client or not
      client.get('email')` rules out a missing client and a NULL or empty e-mail. */
  function Recipient(client: Option<ClientRow>): Option<string> {
    if client.Some? && client.value.email.Some? && client.value.email.value != "" then client.value.email
    else None
  }

  /** The result of `send_conversation_summary`. `idText` is `str(client_id)`;
      `sending` is what the e-mail service answers when it is asked. */
  function SummaryResult(idText: string, client: Option<ClientRow>, sending: Sending): (r: Json)
    ensures r.Obj? && 1 <= |r.members| <= 3
    ensures |r.members| == 1 <==> Recipient(client).None? || sending.SendFailed?
  {
    match Recipient(client)
    case None => ErrorResult("Client with ID " + idText + " not found or no email registered")
    case Some(email) =>
      match sending
      case Sent(caseId) =>
        Obj([ Member("message", Str("Summary sent successfully to " + ColumnText(client.value.name) + " (" + email + ")")),
              Member("operation_id", Str("pending")),
              Member("case_id", Str(caseId)) ])
      case SendFailed(e) => ErrorResult("Error sending email: " + e)
  }

  /** A summary goes out only to a client that was found with a non-empty e-mail
      address; otherwise the answer of the e-mail service plays no part. */
  lemma NoRecipientNoEmail(idText: string, client: Option<ClientRow>, a: Sending, b: Sending)
    requires client.None? || client.value.email.None? || client.value.email.value == ""
    ensures SummaryResult(idText, client, a) == SummaryResult(idText, client, b)
    ensures SummaryResult(idText, client, a)
         == ErrorResult("Client with ID " + idText + " not found or no email registered")
  {
  }

  /** The summary reports an error exactly when there is no address or the e-mail
      service fails, and then carries the service's error text. */
  lemma SummaryErrorIff(idText: string, client: Option<ClientRow>, sending: Sending)
    ensures IsError(SummaryResult(idText, client, sending)) <==> Recipient(client).None? || sending.SendFailed?
    ensures Recipient(client).Some? && sending.SendFailed? ==>
      SummaryResult(idText, client, sending) == ErrorResult("Error sending email: " + sending.error)
  {
  }

  /** Looking a key up among three members of which `a` alone has it (wherever
      `a` stands). */
  lemma LookupOfThree(a: Member, b: Member, c: Member, key: string)
    requires a.key == key && b.key != key && c.key != key
    ensures Lookup([a, b, c], key) == Lookup([b, a, c], key) == Lookup([b, c, a], key) == Some(a.value)
  {
    assert [a, b, c][..2] == [a, b] && [a, b][..1] == [a] && [a][..0] == [];
    assert Lookup([a, b], key) == Lookup([a], key) == Some(a.value);
    assert Lookup([a, b, c], key) == Lookup([a, b], key);
    assert [b, a, c][..2] == [b, a];
    assert Lookup([b, a, c], key) == Lookup([b, a], key);
  }

  /** A summary that was sent names the client and the address it went to, and
      carries the case id of the e-mail. */
  lemma SummarySent(idText: string, row: ClientRow, caseId: string)
    requires row.email.Some? && row.email.value != ""
    ensures var r := SummaryResult(idText, Some(row), Sent(caseId));
      && r.Obj? && |r.members| == 3
      && Lookup(r.members, "message") == Some(Str("Summary sent successfully to " + ColumnText(row.name) + " (" + row.email.value + ")"))
      && Lookup(r.members, "operation_id") == Some(Str("pending"))
      && Lookup(r.members, "case_id") == Some(Str(caseId))
  {
    var ms := SummaryResult(idText, Some(row), Sent(caseId)).members;
    assert "case_id"[0] != "message"[0] && "operation_id"[0] != "message"[0] && "case_id"[0] != "operation_id"[0];
    LookupOfThree(ms[0], ms[1], ms[2], "message");
    LookupOfThree(ms[1], ms[0], ms[2], "operation_id");
    LookupOfThree(ms[2], ms[0], ms[1], "case_id");
  }

  // ---------------------------------------------------------------------------
  // get_client_products_by_client_id

  /** MYSQL_HOST, MYSQL_USER, MYSQL_PASSWORD and MYSQL_DB as `os.getenv` reads them. */
  datatype Settings = Settings(host: Option<string>, user: Option<string>, password: Option<string>, db: Option<string>)

  /** A setting that is present and not empty. */
  predicate Given(v: Option<string>) {
    v.Some? && v.value != ""
  }

  /** `all([mysql_host, mysql_user, mysql_password, mysql_db])`. */
  predicate Configured(s: Settings) {
    Given(s.host) && Given(s.user) && Given(s.password) && Given(s.db)
  }

  /** A `datetime` value: 1 <= year <= 9999, 1 <= month <= 12 and so on. */
  datatype DateTime = DateTime(year: nat, month: nat, day: nat, hour: nat, minute: nat, second: nat)

  predicate InRange(d: DateTime) {
    1 <= d.year <= 9999 && 1 <= d.month <= 12 && 1 <= d.day <= 31
    && d.hour <= 23 && d.minute <= 59 && d.second <= 59
  }

  /** A row of the products query: client_name, product_name, type. */
  datatype ProductRow = ProductRow(clientName: Json, productName: Json, kind: Json)

  /** A row of the open-cases query: id, description, status, created_date (None
      for a NULL date). */
  datatype CaseRow = CaseRow(id: Json, description: Json, status: Json, createdDate: Option<DateTime>)

  /** What the two queries give: both result sets, in the order the database
      returns them, or the text of the exception one of them raised. */
  datatype Query = DbError(error: string) | Rows(products: seq<ProductRow>, cases: seq<CaseRow>)

  /** `n` in decimal, with zeros on the left up to `width` characters. */
  function Padded(n: nat, width: nat): string {
    var t := NatText(n);
    if |t| >= width then t else seq(width - |t|, _ => '0') + t
  }

  /** `created_date.strftime('%Y-%m-%d %H:%M:%S')`. */
  function DateText(d: DateTime): string {
    var date := Padded(d.year, 4) + "-" + Padded(d.month, 2) + "-" + Padded(d.day, 2);
    var time := Padded(d.hour, 2) + ":" + Padded(d.minute, 2) + ":" + Padded(d.second, 2);
    date + " " + time
  }

  /** The message of the AttributeError `None.strftime(...)` raises. */
  const NoStrftime: string := "'NoneType' object has no attribute 'strftime'"

  /** `dict(case)` with its created_date written as text; the key order of the
      query is kept. */
  function CaseJson(c: CaseRow): Json
    requires c.createdDate.Some?
  {
    Obj([ Member("id", c.id), Member("description", c.description), Member("status", c.status),
          Member("created_date", Str(DateText(c.createdDate.value))) ])
  }

  /** The `serializable_cases` the loop builds, or the exception a NULL date
      raises in it. */
  function SerializedCases(cases: seq<CaseRow>): (r: Outcome<seq<Json>>)
    ensures r.Raise? <==> exists k :: 0 <= k < |cases| && cases[k].createdDate.None?
    ensures r.Raise? ==> r.error == NoStrftime
    ensures r.Ok? ==> |r.value| == |cases| && forall k :: 0 <= k < |cases| ==> r.value[k] == CaseJson(cases[k])
    decreases |cases|
  {
    if cases == [] then Ok([])
    else if cases[0].createdDate.None? then Raise(NoStrftime)
    else
      match SerializedCases(cases[1..])
      case Raise(e) =>
        assert forall k :: 0 < k < |cases| ==> cases[1..][k - 1] == cases[k];
        Raise(e)
      case Ok(rest) => Ok([CaseJson(cases[0])] + rest)
  }

  lemma AllDated(cases: seq<CaseRow>, out: seq<Json>)
    requires |out| == |cases|
    requires forall k :: 0 <= k < |cases| ==> cases[k].createdDate.Some? && out[k] == CaseJson(cases[k])
    ensures SerializedCases(cases) == Ok(out)
  {
    var spec := SerializedCases(cases);
    assert spec.Ok?;
    assert spec.value == out;
  }

  /** The loop over `open_cases`: copy each case with its date as text, in order. */
  /** One case without a date makes the whole serialisation raise. */
  lemma Undated(cases: seq<CaseRow>, i: nat)
    requires i < |cases| && cases[i].createdDate.None?
    ensures SerializedCases(cases) == Raise(NoStrftime)
  {
    var spec := SerializedCases(cases);
    assert spec.Raise?;
  }

  method SerializeCases(cases: seq<CaseRow>) returns (r: Outcome<seq<Json>>)
    ensures r == SerializedCases(cases)
  {
    var out: seq<Json> := [];
    var i := 0;
    while i < |cases|
      invariant 0 <= i <= |cases| && |out| == i
      invariant forall k :: 0 <= k < i ==> cases[k].createdDate.Some? && out[k] == CaseJson(cases[k])
    {
      if cases[i].createdDate.None? {
        Undated(cases, i);
        return Raise(NoStrftime);
      }
      out := out + [CaseJson(cases[i])];
      i := i + 1;
    }
    AllDated(cases, out);
    r := Ok(out);
  }

  /** One entry of the "products" list. */
  function ProductJson(p: ProductRow): Json {
    Obj([Member("name", p.productName), Member("type", p.kind)])
  }

  /** The result of `get_client_products_by_client_id`. */
  function ProductsResult(settings: Settings, query: Query): (r: Json)
    ensures r.Obj?
    ensures |r.members| == 1
        <==> || !Configured(settings)
             || query.DbError?
             || (query.products != [] && exists k :: 0 <= k < |query.cases| && query.cases[k].createdDate.None?)
  {
    if !Configured(settings) then ErrorResult("Missing MySQL environment variables for connection")
    else
      match query
      case DbError(e) => ErrorResult(e)
      case Rows(products, cases) =>
        if products == [] then Obj([Member("products", Arr([])), Member("open_cases", Arr([]))])
        else
          match SerializedCases(cases)
          case Raise(e) => ErrorResult(e)
          case Ok(open) =>
            Obj([ Member("client_name", products[0].clientName),
                  Member("products", Arr(seq(|products|, k requires 0 <= k < |products| => ProductJson(products[k])))),
                  Member("open_cases", Arr(open)) ])
  }

  /** The products result reports an error exactly when a setting is missing, a
      query fails, or the client has products and one of its open cases has no
      creation date. */
  lemma ProductsErrorIff(settings: Settings, query: Query)
    ensures IsError(ProductsResult(settings, query))
        <==> || !Configured(settings)
             || query.DbError?
             || (query.products != [] && exists k :: 0 <= k < |query.cases| && query.cases[k].createdDate.None?)
  {
  }

  /** A client with products gets its name from the first row, one entry per
      product row in order, and every open case with its date as text. */
  lemma ProductsListed(settings: Settings, products: seq<ProductRow>, cases: seq<CaseRow>)
    requires Configured(settings) && products != []
    requires forall k :: 0 <= k < |cases| ==> cases[k].createdDate.Some?
    ensures var r := ProductsResult(settings, Rows(products, cases));
      && r.Obj? && !IsError(r)
      && Lookup(r.members, "client_name") == Some(products[0].clientName)
      && Lookup(r.members, "products").Some?
      && var listed := Lookup(r.members, "products").value;
      && listed.Arr? && |listed.items| == |products|
      && (forall k :: 0 <= k < |products| ==> listed.items[k] == ProductJson(products[k]))
      && Lookup(r.members, "open_cases") == Some(Arr(SerializedCases(cases).value))
      && |SerializedCases(cases).value| == |cases|
  {
    var open := SerializedCases(cases);
    assert open.Ok?;
    var listed := Arr(seq(|products|, k requires 0 <= k < |products| => ProductJson(products[k])));
    assert ProductsResult(settings, Rows(products, cases))
        == Obj([Member("client_name", products[0].clientName), Member("products", listed), Member("open_cases", Arr(open.value))]);
    ListedLookups(products[0].clientName, listed, Arr(open.value));
  }

  /** The members of a listing answer, looked up by name. */
  lemma ListedLookups(name: Json, listed: Json, open: Json)
    ensures var ms := [Member("client_name", name), Member("products", listed), Member("open_cases", open)];
      && Lookup(ms, "client_name") == Some(name) && Lookup(ms, "products") == Some(listed)
      && Lookup(ms, "open_cases") == Some(open) && Lookup(ms, "error") == None
  {
    var ms := [Member("client_name", name), Member("products", listed), Member("open_cases", open)];
    assert "open_cases"[0] != "client_name"[0] && "products"[0] != "client_name"[0] && "open_cases"[0] != "products"[0];
    assert "open_cases"[0] != "error"[0] && "products"[0] != "error"[0] && "client_name"[0] != "error"[0];
    LookupOfThree(ms[0], ms[1], ms[2], "client_name");
    LookupOfThree(ms[1], ms[0], ms[2], "products");
    LookupOfThree(ms[2], ms[0], ms[1], "open_cases");
    assert Lookup(ms, "error") == None;
  }

  /** A client id with no products answers with two empty lists, whatever open
      cases the second query found. */
  lemma NoProductsNoCases(settings: Settings, cases: seq<CaseRow>)
    requires Configured(settings)
    ensures ProductsResult(settings, Rows([], cases)) == Obj([Member("products", Arr([])), Member("open_cases", Arr([]))])
  {
  }

  // ---------------------------------------------------------------------------
  // The date text reads back as the date

  /** The number a string of decimal digits stands for. */
  function DigitsValue(s: string): int
    decreases |s|
  {
    if s == [] then 0 else DigitsValue(s[..|s| - 1]) * 10 + (s[|s| - 1] as int - '0' as int)
  }

  predicate AllDigits(s: string) {
    forall k :: 0 <= k < |s| ==> '0' <= s[k] <= '9'
  }

  function Pow10(w: nat): nat {
    if w == 0 then 1 else 10 * Pow10(w - 1)
  }

  lemma {:induction false} NatTextValue(n: nat)
    ensures DigitsValue(NatText(n)) == n && AllDigits(NatText(n)) && |NatText(n)| > 0
    decreases n
  {
    if n >= 10 {
      NatTextValue(n / 10);
      var t := NatText(n);
      assert t[..|t| - 1] == NatText(n / 10);
    }
  }

  lemma {:induction false} NatTextWidth(n: nat, w: nat)
    requires w >= 1 && n < Pow10(w)
    ensures |NatText(n)| <= w
    decreases n
  {
    if n >= 10 {
      assert Pow10(0) == 1 && Pow10(1) == 10;
      NatTextWidth(n / 10, w - 1);
    }
  }

  /** Zeros on the left do not change the value. */
  lemma {:induction false} LeadingZeros(z: nat, t: string)
    ensures DigitsValue(seq(z, _ => '0') + t) == DigitsValue(t)
    decreases |t|
  {
    var zs: string := seq(z, _ => '0');
    if t == [] {
      assert zs + t == zs;
      ZerosValue(z);
    } else {
      assert (zs + t)[..|zs + t| - 1] == zs + t[..|t| - 1];
      LeadingZeros(z, t[..|t| - 1]);
    }
  }

  lemma {:induction false} ZerosValue(z: nat)
    ensures DigitsValue(seq(z, _ => '0')) == 0
    decreases z
  {
    if z > 0 {
      var zs: string := seq(z, _ => '0');
      assert zs[..z - 1] == seq(z - 1, _ => '0');
      ZerosValue(z - 1);
    }
  }

  /** A number that fits in `width` digits is written with exactly `width` digits,
      which read back as the number. */
  lemma PaddedReadsBack(n: nat, width: nat)
    requires width >= 1 && n < Pow10(width)
    ensures |Padded(n, width)| == width && AllDigits(Padded(n, width))
    ensures DigitsValue(Padded(n, width)) == n
  {
    var t := NatText(n);
    NatTextValue(n);
    NatTextWidth(n, width);
    if |t| < width {
      ZerosDigits(width - |t|, t);
      LeadingZeros(width - |t|, t);
    }
  }

  /** Leading zeros keep a text all digits. */
  lemma ZerosDigits(z: nat, t: string)
    requires AllDigits(t)
    ensures AllDigits(seq(z, _ => '0') + t)
  {
    var s := seq(z, _ => '0') + t;
    forall k | 0 <= k < |s| ensures '0' <= s[k] <= '9' {
      if k >= z { assert s[k] == t[k - z]; }
    }
  }

  /** Where the fields of `a<sep>b<sep>c` sit, `b` and `c` two characters wide. */
  lemma ThreeFields(a: string, sep: string, b: string, c: string)
    requires |sep| == 1 && |b| == 2 && |c| == 2
    ensures var s := a + sep + b + sep + c;
      && |s| == |a| + 6 && s[|a|] == sep[0] && s[|a| + 3] == sep[0]
      && s[..|a|] == a && s[|a| + 1..|a| + 3] == b && s[|a| + 4..] == c
  {
    var s := a + sep + b + sep + c;
    assert s[..|a|] == a;
    assert s[|a| + 1..|a| + 3] == b;
    assert s[|a| + 4..] == c;
  }

  /** Where the date part and the time part of `<date> <time>` sit. */
  lemma TwoParts(date: string, time: string)
    ensures var s := date + " " + time;
      && |s| == |date| + 1 + |time| && s[|date|] == ' '
      && s[..|date|] == date && s[|date| + 1..] == time
  {
    var s := date + " " + time;
    assert s[..|date|] == date;
    assert s[|date| + 1..] == time;
  }

  /** The created_date text is `YYYY-MM-DD hh:mm:ss`: 19 characters, the
      separators in their places, and each field reads back as the date's. */
  lemma DateTextReadsBack(d: DateTime)
    requires InRange(d)
    ensures var s := DateText(d);
      && |s| == 19
      && s[4] == '-' && s[7] == '-' && s[10] == ' ' && s[13] == ':' && s[16] == ':'
      && DigitsValue(s[0..4]) == d.year && DigitsValue(s[5..7]) == d.month && DigitsValue(s[8..10]) == d.day
      && DigitsValue(s[11..13]) == d.hour && DigitsValue(s[14..16]) == d.minute && DigitsValue(s[17..19]) == d.second
  {
    assert Pow10(2) == 100 && Pow10(4) == 10000;
    var y, mo, da := Padded(d.year, 4), Padded(d.month, 2), Padded(d.day, 2);
    var h, mi, se := Padded(d.hour, 2), Padded(d.minute, 2), Padded(d.second, 2);
    PaddedReadsBack(d.year, 4);
    PaddedReadsBack(d.month, 2);
    PaddedReadsBack(d.day, 2);
    PaddedReadsBack(d.hour, 2);
    PaddedReadsBack(d.minute, 2);
    PaddedReadsBack(d.second, 2);
    var date, time := y + "-" + mo + "-" + da, h + ":" + mi + ":" + se;
    ThreeFields(y, "-", mo, da);
    ThreeFields(h, ":", mi, se);
    TwoParts(date, time);
    var s := DateText(d);
    assert s == date + " " + time;
    assert s[0..4] == date[..4];
    assert s[5..7] == date[5..7];
    assert s[8..10] == date[8..];
    assert s[11..13] == time[..2];
    assert s[14..16] == time[3..5];
    assert s[17..19] == time[6..];
  }
}
