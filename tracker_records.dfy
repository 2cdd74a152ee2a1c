/**
 * The tracker endpoints' normalisation of Airtable records (app.py get_tracker_clients and
 * get_tracker_data; hub_app.py has the same code): currency text to numbers, the rollover
 * clamp, the zero-spend skip and the unwrapping of lookup fields that arrive as lists.
 * The records are those of all pages, in order; paging itself is I/O.
 */
module TrackerRecords {
  import opened Wrappers
  import opened Text
  import opened Sorting
  import opened Records
  import opened Loops

  /** Currency text without its '$' and ',' characters. */
  function PlainAmount(s: string): (r: string)
    ensures '$' !in r && ',' !in r
  {
    RemoveChar(RemoveChar(s, '$'), ',')
  }

  /**
   * parse_currency: a number as it is (a boolean too, since Python's `bool` is an `int`),
   * a text through `int()` after dropping '$' and ',' (an empty one is 0), anything else 0.
   * `Failure` is the ValueError `int()` raises.
   */
  function ParseCurrency(v: Value): (r: Result<Value>)
    ensures v.Num? || v.Bool? ==> r == Success(v)
    ensures !v.Num? && !v.Bool? && !v.Str? ==> r == Success(Num(0.0))
    ensures v.Str? && PlainAmount(v.s) == "" ==> r == Success(Num(0.0))
    ensures v.Str? && PlainAmount(v.s) != "" ==>
      (r.Success? <==> ParseInt(PlainAmount(v.s)).Some?)
      && (r.Success? ==> r.value == Num(ParseInt(PlainAmount(v.s)).value as real))
  {
    match v
    case Num(_) => Success(v)
    case Bool(_) => Success(v)
    case Str(s) =>
      var t := PlainAmount(s);
      if t == "" then Success(Num(0.0))
      else (match ParseInt(t) case Some(n) => Success(Num(n as real)) case None => Failure("ValueError"))
    case _ => Success(Num(0.0))
  }

  /**
   * The rollover sent: `max(0, rollover)` of a number (Python's `max` returns its first
   * argument on a tie, so `False` becomes 0 and `True` stays), 0 for anything else.
   */
  function Rollover(v: Value): (r: Value)
    ensures Positive(r) <==> Positive(v)
    ensures r.Num? ==> r.n >= 0.0
    ensures r.Num? || r == Bool(true)
  {
    match v
    case Num(n) => Num(if n > 0.0 then n else 0.0)
    case Bool(b) => if b then Bool(true) else Num(0.0)
    case _ => Num(0.0)
  }

  /** `v > 0` in Python for a number or a boolean: a positive number, or `True`. */
  predicate Positive(v: Value)
  {
    (v.Num? && v.n > 0.0) || v == Bool(true)
  }

  datatype ClientRow = ClientRow(
    code: Value,
    name: Value,
    committed: Value,
    rollover: Value,
    rolloverUseIn: string,
    yearEnd: Value,
    currentQuarter: Value)

  /** One Clients record: no row when the monthly commitment is not positive. */
  function ClientRowOf(fields: Fields): (r: Result<Option<ClientRow>>)
    ensures r.Failure? <==> ParseCurrency(Get(fields, "Monthly Committed", Num(0.0))).Failure?
    ensures r.Success? ==>
      (r.value.Some? <==> Positive(ParseCurrency(Get(fields, "Monthly Committed", Num(0.0))).value))
    ensures r.Success? && r.value.Some? ==>
      var row := r.value.value;
      && row.committed == ParseCurrency(Get(fields, "Monthly Committed", Num(0.0))).value
      && row.rollover == Rollover(Get(fields, "Rollover", Num(0.0)))
      && row.code == Get(fields, "Client code", Str(""))
      && row.name == Get(fields, "Clients", Str(""))
  {
    match ParseCurrency(Get(fields, "Monthly Committed", Num(0.0)))
    case Failure(e) => Failure(e)
    case Success(monthly) =>
      if Positive(monthly) then
        var rollover := Rollover(Get(fields, "Rollover", Num(0.0)));
        Success(Some(ClientRow(
          Get(fields, "Client code", Str("")),
          Get(fields, "Clients", Str("")),
          monthly,
          rollover,
          if Positive(rollover) then "JAN-MAR" else "",
          Get(fields, "Year end", Str("")),
          Get(fields, "Current Quarter", Str("")))))
      else Success(None)
  }

  /** `key=lambda x: x['name']` on text names. */
  function NameKey(row: ClientRow): SortKey
  {
    if row.name.Str? then TextKey(row.name.s) else TextKey("")
  }

  /**
   * `clients.sort(key=...)`: a stable sort by name. Python cannot order a text against a
   * non-text, so two or more rows with any non-text name fail with TypeError.
   */
  function SortedClients(rows: seq<ClientRow>): (r: Result<seq<ClientRow>>)
    ensures r.Failure? <==> |rows| > 1 && exists i :: 0 <= i < |rows| && !rows[i].name.Str?
    ensures r.Success? ==> multiset(r.value) == multiset(rows) && SortedBy(r.value, NameKey, false)
  {
    SortByCorrect(rows, NameKey, false);
    if |rows| <= 1 || forall i :: 0 <= i < |rows| ==> rows[i].name.Str? then Success(SortBy(rows, NameKey, false))
    else Failure("TypeError")
  }

  /** get_tracker_clients' answer. */
  function TrackerClients(records: seq<Fields>): Result<seq<ClientRow>>
  {
    match Collect(records, ClientRowOf)
    case Failure(e) => Failure(e)
    case Success(rows) => SortedClients(rows)
  }

  /** get_tracker_clients: the loop over the records, then the sort. */
  method GetTrackerClients(records: seq<Fields>) returns (r: Result<seq<ClientRow>>)
    ensures r == TrackerClients(records)
  {
    var clients: seq<ClientRow> := [];
    for i := 0 to |records|
      invariant Collect(records[..i], ClientRowOf) == Success(clients)
    {
      CollectStep(records, i, ClientRowOf);
      match ClientRowOf(records[i])
      case Failure(e) =>
        CollectFailureSticks(records, i + 1, ClientRowOf);
        return Failure(e);
      case Success(None) =>
      case Success(Some(c)) =>
        clients := clients + [c];
    }
    assert records[..|records|] == records;
    r := SortedClients(clients);
  }

  /**
   * Every client sent commits a positive monthly amount, carries a non-negative rollover,
   * is marked 'JAN-MAR' exactly when that rollover is positive, and the list is a
   * permutation of the rows, ordered by name.
   */
  lemma {:induction false} TrackerClientsProperties(records: seq<Fields>)
    requires TrackerClients(records).Success?
    ensures var rows := Collect(records, ClientRowOf).value;
      var sent := TrackerClients(records).value;
      multiset(sent) == multiset(rows) && SortedBy(sent, NameKey, false)
    ensures forall row :: row in TrackerClients(records).value ==>
              Positive(row.committed) && (row.rollover.Num? ==> row.rollover.n >= 0.0)
              && (row.rolloverUseIn == "JAN-MAR" <==> Positive(row.rollover))
              && (row.rolloverUseIn == "" <==> !Positive(row.rollover))
  {
    var rows := Collect(records, ClientRowOf).value;
    SortByCorrect(rows, NameKey, false);
    SortByMembers(rows, NameKey, false);
    CollectExactly(records, ClientRowOf);
  }

  // ----- get_tracker_data -----

  /** A lookup field: a list gives its first element ('' when empty), anything else is kept. */
  function Unwrap(v: Value): (r: Value)
    ensures v.List? && v.items != [] ==> r == v.items[0]
    ensures v.List? && v.items == [] ==> r == Str("")
    ensures !v.List? ==> r == v
  {
    match v
    case List(items) => if items == [] then Str("") else items[0]
    case _ => v
  }

  /** The spend: a text through `float()` after dropping '$' and ',' (an empty one is 0). */
  function SpendOf(v: Value): (r: Result<Value>)
    ensures !v.Str? ==> r == Success(v)
    ensures v.Str? && PlainAmount(v.s) == "" ==> r == Success(Num(0.0))
    ensures v.Str? && PlainAmount(v.s) != "" ==>
      (r.Success? <==> ParseFloat(PlainAmount(v.s)).Some?)
      && (r.Success? ==> r == Success(Num(ParseFloat(PlainAmount(v.s)).value)))
  {
    match v
    case Str(s) =>
      var t := PlainAmount(s);
      if t == "" then Success(Num(0.0))
      else (match ParseFloat(t) case Some(x) => Success(Num(x)) case None => Failure("ValueError"))
    case _ => Success(v)
  }

  /** `spend == 0` in Python: the number zero, or `False`. */
  predicate IsZero(v: Value)
  {
    v == Num(0.0) || v == Bool(false)
  }

  datatype SpendRow = SpendRow(
    id: Value,
    client: string,
    jobNumber: Value,
    projectName: Value,
    owner: Value,
    description: Value,
    spend: Value,
    month: Value,
    spendType: Value,
    ballpark: bool)

  /** One Tracker record: no row when its spend is zero. */
  function SpendRowOf(client: string, rec: AirtableRecord): (r: Result<Option<SpendRow>>)
    ensures r.Failure? <==> SpendOf(Get(rec.fields, "Spend", Num(0.0))).Failure?
    ensures r.Success? ==> (r.value.None? <==> IsZero(SpendOf(Get(rec.fields, "Spend", Num(0.0))).value))
    ensures r.Success? && r.value.Some? ==>
      r.value.value.client == client && r.value.value.id == rec.id && !IsZero(r.value.value.spend)
  {
    match SpendOf(Get(rec.fields, "Spend", Num(0.0)))
    case Failure(e) => Failure(e)
    case Success(spend) =>
      if IsZero(spend) then Success(None)
      else
        Success(Some(SpendRow(
          rec.id,
          client,
          Unwrap(Get(rec.fields, "Job Number", Str(""))),
          Unwrap(Get(rec.fields, "Project Name", Str(""))),
          Unwrap(Get(rec.fields, "Owner", Str(""))),
          Get(rec.fields, "Tracker notes", Str("")),
          spend,
          Get(rec.fields, "Month", Str("")),
          Get(rec.fields, "Spend type", Str("Project budget")),
          Truthy(Get(rec.fields, "Ballpark", Bool(false))))))
  }

  function SpendRowFor(client: string): AirtableRecord -> Result<Option<SpendRow>>
  {
    (rec: AirtableRecord) => SpendRowOf(client, rec)
  }

  /** get_tracker_data's answer: 'Client code required' without a client. */
  function TrackerData(clientParam: Option<string>, records: seq<AirtableRecord>): (r: Result<seq<SpendRow>>)
    ensures (clientParam.None? || clientParam.value == "") ==> r == Failure("Client code required")
  {
    if clientParam.None? || clientParam.value == "" then Failure("Client code required")
    else Collect(records, SpendRowFor(clientParam.value))
  }

  /** get_tracker_data: the client check, then the loop over the records. */
  method GetTrackerData(clientParam: Option<string>, records: seq<AirtableRecord>) returns (r: Result<seq<SpendRow>>)
    ensures r == TrackerData(clientParam, records)
  {
    if clientParam.None? || clientParam.value == "" {
      return Failure("Client code required");
    }
    var client := clientParam.value;
    var rows: seq<SpendRow> := [];
    for i := 0 to |records|
      invariant Collect(records[..i], SpendRowFor(client)) == Success(rows)
    {
      CollectStep(records, i, SpendRowFor(client));
      match SpendRowOf(client, records[i])
      case Failure(e) =>
        CollectFailureSticks(records, i + 1, SpendRowFor(client));
        return Failure(e);
      case Success(None) =>
      case Success(Some(row)) =>
        rows := rows + [row];
    }
    assert records[..|records|] == records;
    r := Success(rows);
  }

  /**
   * The rows are the non-zero-spend records in their order: every record's spend parsed,
   * one row per record whose spend is not zero, none with a zero spend, all for the
   * requested client.
   */
  lemma {:induction false} SpendRowsExactly(client: string, records: seq<AirtableRecord>)
    requires TrackerData(Some(client), records).Success?
    ensures var rows := TrackerData(Some(client), records).value;
      forall k :: 0 <= k < |rows| ==> !IsZero(rows[k].spend) && rows[k].client == client
    ensures forall i :: 0 <= i < |records| ==> SpendOf(Get(records[i].fields, "Spend", Num(0.0))).Success?
    ensures |TrackerData(Some(client), records).value|
            == |records| - Dropped(records, SpendRowFor(client))
    ensures forall row :: row in TrackerData(Some(client), records).value
              <==> exists i :: 0 <= i < |records| && SpendRowOf(client, records[i]) == Success(Some(row))
  {
    var f := SpendRowFor(client);
    CollectExactly(records, f);
    var rows := TrackerData(Some(client), records).value;
    forall k | 0 <= k < |rows| ensures !IsZero(rows[k].spend) && rows[k].client == client {
      assert rows[k] in rows;
      var i :| 0 <= i < |records| && f(records[i]) == Success(Some(rows[k]));
    }
    forall i | 0 <= i < |records| ensures SpendOf(Get(records[i].fields, "Spend", Num(0.0))).Success? {
      assert f(records[i]).Success?;
    }
  }

  /** A record is dropped exactly when its spend is zero. */
  lemma {:induction false} DroppedMeansZeroSpend(client: string, rec: AirtableRecord)
    requires SpendOf(Get(rec.fields, "Spend", Num(0.0))).Success?
    ensures SpendRowFor(client)(rec) == Success(None) <==> IsZero(SpendOf(Get(rec.fields, "Spend", Num(0.0))).value)
  {
  }

  /** A lookup field that arrives as a list is sent as its first element; the spend type defaults to 'Project budget'. */
  lemma {:induction false} LookupListsUnwrapped(client: string, rec: AirtableRecord, jobNumbers: seq<Value>, names: seq<Value>, owners: seq<Value>)
    requires SpendRowOf(client, rec).Success? && SpendRowOf(client, rec).value.Some?
    requires "Job Number" in rec.fields && rec.fields["Job Number"] == List(jobNumbers) && jobNumbers != []
    requires "Project Name" in rec.fields && rec.fields["Project Name"] == List(names)
    requires "Owner" in rec.fields && rec.fields["Owner"] == List(owners)
    ensures var row := SpendRowOf(client, rec).value.value;
      && row.jobNumber == jobNumbers[0]
      && row.projectName == (if names == [] then Str("") else names[0])
      && row.owner == (if owners == [] then Str("") else owners[0])
      && ("Spend type" !in rec.fields ==> row.spendType == Str("Project budget"))
  {
  }
}
