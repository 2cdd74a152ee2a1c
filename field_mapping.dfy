/**
 * The server's request handling that is not I/O (app.py, and hub_app.py where it is the same):
 * the browser-to-Airtable field renaming of update_job and update_tracker, and the status
 * sets get_all_jobs asks Airtable for.
 */
module FieldMapping {
  import opened Wrappers
  import opened Text
  import opened Records

  /** A JSON object of a request body: its (key, value) items in order. */
  type Items = seq<(string, Value)>

  /** A Python dict never holds a key twice. */
  predicate DistinctKeys(items: Items)
  {
    forall i, j :: 0 <= i < j < |items| ==> items[i].0 != items[j].0
  }

  /** `data.get(key)`. */
  function Lookup(items: Items, key: string): (r: Option<Value>)
    ensures r.None? <==> forall i :: 0 <= i < |items| ==> items[i].0 != key
    ensures r.Some? ==> exists i :: 0 <= i < |items| && items[i] == (key, r.value)
  {
    if items == [] then None
    else if items[0].0 == key then Some(items[0].1)
    else
      var r := Lookup(items[1..], key);
      assert forall i :: 1 <= i < |items| ==> items[i] == items[1..][i - 1];
      r
  }

  /** The two Airtable tables a request can patch. */
  datatype Table = Projects | TrackerTable

  /** `field_mapping` of update_job (Projects) and of update_tracker. */
  function AirtableName(table: Table, key: string): (r: Option<string>)
    ensures table == Projects ==>
      (r.Some? <==> key in {"stage", "status", "updateDue", "liveDate", "withClient", "description", "projectOwner", "projectName"})
    ensures table == TrackerTable ==>
      (r.Some? <==> key in {"description", "spend", "month", "spendType", "ballpark"})
    ensures r != Some("Update")
  {
    match table
    case Projects =>
      if key == "stage" then Some("Stage")
      else if key == "status" then Some("Status")
      else if key == "updateDue" then Some("Update Due")
      else if key == "liveDate" then Some("Live")
      else if key == "withClient" then Some("With Client?")
      else if key == "description" then Some("Description")
      else if key == "projectOwner" then Some("Project Owner")
      else if key == "projectName" then Some("Project Name")
      else None
    case TrackerTable =>
      if key == "description" then Some("Tracker notes")
      else if key == "spend" then Some("Spend")
      else if key == "month" then Some("Month")
      else if key == "spendType" then Some("Spend type")
      else if key == "ballpark" then Some("Ballpark")
      else None
  }

  /** No two request keys share an Airtable name, and no request key is renamed to "Update". */
  lemma {:induction false} AirtableNameInjective(table: Table, a: string, b: string)
    requires AirtableName(table, a).Some? && AirtableName(table, a) == AirtableName(table, b)
    ensures a == b
    ensures AirtableName(table, a) != Some("Update")
  {
  }

  /** The value written for a request item: `withClient` becomes a boolean, everything else is kept as sent. */
  function Converted(table: Table, key: string, value: Value): (r: Value)
    ensures table == Projects && key == "withClient" ==> r == Bool(Truthy(value))
    ensures !(table == Projects && key == "withClient") ==> r == value
  {
    if table == Projects && key == "withClient" then Bool(Truthy(value)) else value
  }

  /** The `airtable_fields` dict the mapping loop builds from the items seen so far. */
  function MappedFields(table: Table, items: Items): (r: Fields)
  {
    if items == [] then map[]
    else
      var last := items[|items| - 1];
      var m := MappedFields(table, items[..|items| - 1]);
      match AirtableName(table, last.0)
      case None => m
      case Some(name) => m[name := Converted(table, last.0, last.1)]
  }

  /** The mapping loop of update_job / update_tracker. */
  method MapFields(table: Table, items: Items) returns (fields: Fields)
    ensures fields == MappedFields(table, items)
  {
    fields := map[];
    for i := 0 to |items|
      invariant fields == MappedFields(table, items[..i])
    {
      assert items[..i + 1][..i] == items[..i];
      var key := items[i].0;
      match AirtableName(table, key)
      case None =>
      case Some(name) =>
        fields := fields[name := Converted(table, key, items[i].1)];
    }
    assert items[..|items|] == items;
  }

  /**
   * Exactly the mapped keys present in the request appear, under their Airtable names, each
   * with its (converted) request value.
   */
  lemma {:induction false} MappedFieldsExactly(table: Table, items: Items)
    requires DistinctKeys(items)
    ensures forall name :: name in MappedFields(table, items)
              <==> exists i :: 0 <= i < |items| && AirtableName(table, items[i].0) == Some(name)
    ensures forall i :: 0 <= i < |items| && AirtableName(table, items[i].0).Some? ==>
              AirtableName(table, items[i].0).value in MappedFields(table, items)
              && MappedFields(table, items)[AirtableName(table, items[i].0).value]
                 == Converted(table, items[i].0, items[i].1)
  {
    if items != [] {
      var n := |items| - 1;
      var init := items[..n];
      assert DistinctKeys(init) by {
        forall i, j | 0 <= i < j < |init| ensures init[i].0 != init[j].0 {
          assert init[i] == items[i] && init[j] == items[j];
        }
      }
      MappedFieldsExactly(table, init);
      assert forall i :: 0 <= i < n ==> init[i] == items[i];
      var last := items[n];
      match AirtableName(table, last.0)
      case None =>
      case Some(name) =>
        forall i | 0 <= i < n && AirtableName(table, items[i].0).Some?
          ensures AirtableName(table, items[i].0).value != name
        {
          if AirtableName(table, items[i].0).value == name {
            AirtableNameInjective(table, items[i].0, last.0);
          }
        }
    }
  }

  /** No request key can produce the "Update" field. */
  lemma {:induction false} MappedFieldsLackUpdate(table: Table, items: Items)
    ensures "Update" !in MappedFields(table, items)
  {
    if items != [] {
      MappedFieldsLackUpdate(table, items[..|items| - 1]);
      var last := items[|items| - 1];
      if AirtableName(table, last.0).Some? {
        AirtableNameInjective(table, last.0, last.0);
      }
    }
  }

  // ----- update_job -----

  /** `data.get('message', '').strip()`; a message that is not text has no `strip`. */
  function MessageOf(items: Items): (r: Result<string>)
    ensures r.Success? ==> Stripped(r.value)
    ensures Lookup(items, "message").None? ==> r == Success("")
  {
    match Lookup(items, "message")
    case None => Success("")
    case Some(Str(s)) => Success(Strip(s))
    case Some(_) => Failure("AttributeError")
  }

  /**
   * The Projects patch of update_job: the mapped request fields, plus 'Update' set to the
   * message when it is not blank (app.py only; `hub` selects hub_app.py, which leaves it out).
   */
  function JobPatch(items: Items, hub: bool): (r: Result<Fields>)
    ensures r.Success? <==> MessageOf(items).Success?
    ensures r.Success? ==> ("Update" in r.value <==> !hub && MessageOf(items).value != "")
    ensures r.Success? && "Update" in r.value ==> r.value["Update"] == Str(MessageOf(items).value)
    ensures r.Success? ==> forall k :: k != "Update" ==>
              (k in r.value <==> k in MappedFields(Projects, items))
              && (k in r.value ==> r.value[k] == MappedFields(Projects, items)[k])
  {
    MappedFieldsLackUpdate(Projects, items);
    match MessageOf(items)
    case Failure(e) => Failure(e)
    case Success(message) =>
      var fields := MappedFields(Projects, items);
      Success(if !hub && message != "" then fields["Update" := Str(message)] else fields)
  }

  /** update_job's field assembly: the mapping loop, then the 'Update' line. */
  method UpdateJobFields(items: Items, hub: bool) returns (r: Result<Fields>)
    ensures r == JobPatch(items, hub)
  {
    var message := MessageOf(items);
    if message.Failure? {
      return Failure(message.error);
    }
    var fields := MapFields(Projects, items);
    if !hub && message.value != "" {
      fields := fields["Update" := Str(message.value)];
    }
    r := Success(fields);
  }

  /** `withClient` reaches Airtable as a boolean: the truthiness of what was sent. */
  lemma {:induction false} WithClientIsBoolean(items: Items, hub: bool, sent: Value)
    requires DistinctKeys(items) && ("withClient", sent) in items
    requires JobPatch(items, hub).Success?
    ensures "With Client?" in JobPatch(items, hub).value
    ensures JobPatch(items, hub).value["With Client?"] == Bool(Truthy(sent))
  {
    var i :| 0 <= i < |items| && items[i] == ("withClient", sent);
    MappedFieldsExactly(Projects, items);
  }

  /** A request naming no mapped key patches nothing but, in app.py, the 'Update' line. */
  lemma {:induction false} UnmappedRequestPatchesOnlyUpdate(items: Items, hub: bool)
    requires DistinctKeys(items)
    requires forall i :: 0 <= i < |items| ==> AirtableName(Projects, items[i].0).None?
    requires JobPatch(items, hub).Success?
    ensures JobPatch(items, hub).value.Keys <= {"Update"}
  {
    MappedFieldsExactly(Projects, items);
  }

  /** The Updates record update_job posts: none for a blank message; 'Update Due' only when given. */
  function UpdateRecord(message: string, updateDue: Option<Value>, recordId: Value): (r: Option<Fields>)
    ensures r.Some? <==> message != ""
    ensures r.Some? ==> "Update" in r.value && "Project Link" in r.value
    ensures r.Some? ==> r.value["Update"] == Str(message) && r.value["Project Link"] == List([recordId])
    ensures r.Some? ==> ("Update Due" in r.value <==> updateDue.Some? && Truthy(updateDue.value))
  {
    if message == "" then None
    else
      var fields := map["Update" := Str(message), "Project Link" := List([recordId])];
      Some(if updateDue.Some? && Truthy(updateDue.value) then fields["Update Due" := updateDue.value] else fields)
  }

  // ----- update_tracker -----

  /** update_tracker's checks and patch: the record id and the Airtable fields. */
  function TrackerPatch(data: Option<Items>): (r: Result<(Value, Fields)>)
    ensures (data.None? || data.value == []) ==> r == Failure("No data provided")
    ensures data.Some? && data.value != [] ==>
      (r == Failure("Record ID required")
       <==> Lookup(data.value, "id").None? || !Truthy(Lookup(data.value, "id").value))
    ensures r.Success? ==> Lookup(data.value, "id") == Some(r.value.0) && Truthy(r.value.0)
    ensures r.Success? ==> r.value.1 == MappedFields(TrackerTable, data.value) && r.value.1 != map[]
  {
    if data.None? || data.value == [] then Failure("No data provided")
    else
      match Lookup(data.value, "id")
      case None => Failure("Record ID required")
      case Some(id) =>
        if !Truthy(id) then Failure("Record ID required")
        else
          var fields := MappedFields(TrackerTable, data.value);
          if fields == map[] then Failure("No valid fields to update") else Success((id, fields))
  }

  /** update_tracker up to the Airtable call. */
  method UpdateTracker(data: Option<Items>) returns (r: Result<(Value, Fields)>)
    ensures r == TrackerPatch(data)
  {
    if data.None? || data.value == [] {
      return Failure("No data provided");
    }
    var id := Lookup(data.value, "id");
    if id.None? || !Truthy(id.value) {
      return Failure("Record ID required");
    }
    var fields := MapFields(TrackerTable, data.value);
    if fields == map[] {
      return Failure("No valid fields to update");
    }
    r := Success((id.value, fields));
  }

  /** With an id given, the request is refused exactly when it names none of the five tracker keys. */
  lemma {:induction false} TrackerNeedsAMappedKey(items: Items)
    requires DistinctKeys(items) && items != []
    requires Lookup(items, "id").Some? && Truthy(Lookup(items, "id").value)
    ensures TrackerPatch(Some(items)) == Failure("No valid fields to update")
            <==> forall i :: 0 <= i < |items| ==> AirtableName(TrackerTable, items[i].0).None?
  {
    MappedFieldsExactly(TrackerTable, items);
    var m := MappedFields(TrackerTable, items);
    if exists i :: 0 <= i < |items| && AirtableName(TrackerTable, items[i].0).Some? {
      var i :| 0 <= i < |items| && AirtableName(TrackerTable, items[i].0).Some?;
      assert AirtableName(TrackerTable, items[i].0).value in m;
    } else {
      assert forall k :: k !in m;
      assert m == map[];
    }
  }

  // ----- get_all_jobs -----

  const ActiveStatuses: seq<string> := ["Incoming", "In Progress", "On Hold"]
  const AllStatuses: seq<string> := ["Incoming", "In Progress", "On Hold", "Completed", "Archived"]

  /** The statuses get_all_jobs asks for, given the `status` query parameter ('active' when absent). */
  function StatusesFor(param: Option<string>): (r: seq<string>)
    ensures "Completed" in r <==> param == Some("completed") || param == Some("all")
    ensures "Archived" in r <==> param == Some("all")
    ensures param != Some("completed") ==> forall s :: s in ActiveStatuses ==> s in r
    ensures forall s :: s in r ==> s in AllStatuses
  {
    var filter := param.GetOr("active");
    if filter == "active" then ActiveStatuses
    else if filter == "completed" then ["Completed"]
    else if filter == "all" then AllStatuses
    else ActiveStatuses
  }

  /**
   * What the filter formula selects: a status in the set and, when a client is given, a job
   * number the client code starts (`FIND(client, {Job Number}) = 1`).
   */
  function Selects(statusParam: Option<string>, client: Option<string>, status: string, jobNumber: string): (r: bool)
    ensures r ==> status in AllStatuses
    ensures client.None? || client.value == "" ==> (r <==> status in StatusesFor(statusParam))
    ensures client.Some? && client.value != "" ==>
      (r <==> status in StatusesFor(statusParam)
              && |client.value| <= |jobNumber| && jobNumber[..|client.value|] == client.value)
  {
    status in StatusesFor(statusParam)
    && (client.None? || client.value == "" || client.value <= jobNumber)
  }

  /** An unrecognised status parameter reads as 'active'. */
  lemma {:induction false} UnknownStatusIsActive(param: string)
    requires param != "completed" && param != "all"
    ensures StatusesFor(Some(param)) == StatusesFor(None) == ActiveStatuses
  {
  }

  /** 'completed' selects only completed jobs; 'all' selects every status any other choice does. */
  lemma {:induction false} StatusSetsNest(param: Option<string>, client: Option<string>, status: string, jobNumber: string)
    ensures Selects(Some("completed"), client, status, jobNumber) ==> status == "Completed"
    ensures Selects(param, client, status, jobNumber) ==> Selects(Some("all"), client, status, jobNumber)
    ensures Selects(None, client, status, jobNumber) ==> !Selects(Some("completed"), client, status, jobNumber)
  {
  }
}
