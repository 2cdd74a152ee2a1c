/**
 * Job-number reservation of the hub server (hub_app.py preview_job_number and create_new_job):
 * a client's 'Next Job #' field holds the next number; a job is numbered
 * `"{client_code} {n:03d}"` and the field is written back as `n + 1`, zero-padded.
 * The Airtable reads and writes around it are I/O: the client record found (if any) is a
 * parameter and the writes are the values returned.
 */
module NewJob {
  import opened Wrappers
  import opened Text
  import opened Records
  import opened FieldMapping

  /** An HTTP answer: a body, or a status code with the error text. */
  datatype Reply<T> = Ok(body: T) | Error(status: nat, message: string)

  /** Python `int(v)` of a field value; `None` is a ValueError and `Some(Failure)` any other exception. */
  function IntOf(v: Value): (r: Option<Result<int>>)
    ensures v.Str? ==> (r.None? <==> ParseInt(v.s).None?)
    ensures v.Str? && ParseInt(v.s).Some? ==> r == Some(Success(ParseInt(v.s).value))
  {
    match v
    case Str(s) => (match ParseInt(s) case Some(n) => Some(Success(n)) case None => None)
    case Num(x) => Some(Success(if x >= 0.0 then x.Floor else -((-x).Floor)))
    case Bool(b) => Some(Success(if b then 1 else 0))
    case _ => Some(Failure("TypeError"))
  }

  /** The job number `n` gives a client: `f"{client_code} {n:03d}"`. */
  function JobNumberFor(code: string, n: int): (r: string)
    ensures |r| >= |code| + 4 && r[..|code| + 1] == code + " "
  {
    code + " " + Format03(n)
  }

  /**
   * The number a client record's 'Next Job #' holds: 400 when it is missing or empty, 400
   * when `int()` rejects it, 500 for any other exception. The 500 reply carries the
   * exception's type name ("TypeError") where the server sends its `str(e)` text.
   */
  function NextNumber(code: string, fields: Fields, show: Value -> string): (r: Reply<int>)
    ensures !Truthy(Get(fields, "Next Job #", Str(""))) ==>
              r == Error(400, "No job number sequence configured for " + code)
    ensures r.Error? ==> r.status == 400 || r.status == 500
    ensures var v := Get(fields, "Next Job #", Str(""));
      v.Str? && v.s != "" ==>
        (r.Ok? <==> ParseInt(v.s).Some?) && (r.Ok? ==> r.body == ParseInt(v.s).value)
        && (r.Error? ==> r == Error(400, "Invalid job number format: " + v.s))
  {
    var v := Get(fields, "Next Job #", Str(""));
    if !Truthy(v) then Error(400, "No job number sequence configured for " + code)
    else
      match IntOf(v)
      case None => Error(400, "Invalid job number format: " + (if v.Str? then v.s else show(v)))
      case Some(Failure(e)) => Error(500, e)
      case Some(Success(n)) => Ok(n)
  }

  datatype Preview = Preview(clientCode: string, clientName: Value, previewJobNumber: string)

  /** preview_job_number: 404 for an unknown client; the record is only read, never written. */
  function PreviewJobNumber(code: string, client: Option<AirtableRecord>, show: Value -> string): (r: Reply<Preview>)
    ensures client.None? ==> r == Error(404, "Client " + code + " not found")
    ensures client.Some? ==> (r.Ok? <==> NextNumber(code, client.value.fields, show).Ok?)
    ensures r.Ok? ==> r.body.previewJobNumber == JobNumberFor(code, NextNumber(code, client.value.fields, show).body)
    ensures r.Ok? ==> r.body.clientName == Get(client.value.fields, "Clients", Str(code))
  {
    match client
    case None => Error(404, "Client " + code + " not found")
    case Some(rec) =>
      match NextNumber(code, rec.fields, show)
      case Error(s, m) => Error(s, m)
      case Ok(n) => Ok(Preview(code, Get(rec.fields, "Clients", Str(code)), JobNumberFor(code, n)))
  }

  /** What create_new_job writes: the client's new 'Next Job #', and the new project's fields. */
  datatype Creation = Creation(jobNumber: string, newNextNumber: string, fields: Fields, status: string)

  /** `data.get(key, default)` of the request body. */
  function Param(data: Items, key: string, default: Value): (r: Value)
    ensures Lookup(data, key).None? ==> r == default
    ensures Lookup(data, key).Some? ==> r == Lookup(data, key).value
  {
    match Lookup(data, key) case Some(v) => v case None => default
  }

  /** 'soon' is Incoming; anything else, 'now' included, is In Progress. */
  function AirtableStatus(status: Value): (r: string)
    ensures r == "Incoming" <==> status == Str("soon")
    ensures r == "Incoming" || r == "In Progress"
  {
    if status == Str("soon") then "Incoming" else "In Progress"
  }

  /** `str()` of a request value inside an f-string. */
  function Shown(v: Value, show: Value -> string): string
  {
    if v.Str? then v.s else show(v)
  }

  /** `if cond: fields[key] = value`, as a map of its own. */
  function Optional(key: string, value: Value, cond: bool): (r: Fields)
    ensures r.Keys == if cond then {key} else {}
    ensures cond ==> r[key] == value
  {
    if cond then map[key := value] else map[]
  }

  const BaseKeys: set<string> := {"Job Number", "Project Name", "Status", "Stage", "With Client?", "Client"}
  const OptionalKeys: set<string> := {"Description", "Project Owner", "Update Due", "Live"}

  /** The six fields every new project is written with. */
  function BaseFields(jobNumber: string, jobName: Value, status: string, clientId: Value): (r: Fields)
    ensures r.Keys == BaseKeys
  {
    map[
      "Job Number" := Str(jobNumber),
      "Project Name" := jobName,
      "Status" := Str(status),
      "Stage" := Str("Triage"),
      "With Client?" := Bool(false),
      "Client" := List([clientId])]
  }

  /**
   * The new project's fields: the six always written, then Description, Project Owner and
   * Update Due when given, and Live when given and not 'Tbc'.
   */
  function NewProjectFields(jobNumber: string, jobName: Value, status: string, clientId: Value,
                            description: Value, owner: Value, updateDue: Value, live: Value): (r: Fields)
    ensures BaseKeys <= r.Keys
  {
    BaseFields(jobNumber, jobName, status, clientId) + OptionalFields(description, owner, updateDue, live)
  }

  /** The optional fields written: each one given, Live only when not 'Tbc'. */
  function OptionalFields(description: Value, owner: Value, updateDue: Value, live: Value): (r: Fields)
    ensures r.Keys <= OptionalKeys
  {
    Optional("Description", description, Truthy(description))
    + Optional("Project Owner", owner, Truthy(owner))
    + Optional("Update Due", updateDue, Truthy(updateDue))
    + Optional("Live", live, Truthy(live) && live != Str("Tbc"))
  }

  /** hub_app.py's assembly of the fields, one conditional assignment after another. */
  method ProjectFields(jobNumber: string, jobName: Value, status: string, clientId: Value,
                       description: Value, owner: Value, updateDue: Value, live: Value)
    returns (f: Fields)
    ensures f == NewProjectFields(jobNumber, jobName, status, clientId, description, owner, updateDue, live)
  {
    f := BaseFields(jobNumber, jobName, status, clientId);
    f := SetWhen(f, "Description", description, Truthy(description));
    f := SetWhen(f, "Project Owner", owner, Truthy(owner));
    f := SetWhen(f, "Update Due", updateDue, Truthy(updateDue));
    f := SetWhen(f, "Live", live, Truthy(live) && live != Str("Tbc"));
    OptionalFieldsMerged(BaseFields(jobNumber, jobName, status, clientId), description, owner, updateDue, live);
  }

  /** Adding the optional fields one by one is adding them all at once. */
  lemma {:induction false} OptionalFieldsMerged(base: Fields, description: Value, owner: Value, updateDue: Value, live: Value)
    ensures base + OptionalFields(description, owner, updateDue, live)
            == base + Optional("Description", description, Truthy(description))
               + Optional("Project Owner", owner, Truthy(owner))
               + Optional("Update Due", updateDue, Truthy(updateDue))
               + Optional("Live", live, Truthy(live) && live != Str("Tbc"))
  {
    var o1 := Optional("Description", description, Truthy(description));
    var o2 := Optional("Project Owner", owner, Truthy(owner));
    var o3 := Optional("Update Due", updateDue, Truthy(updateDue));
    var o4 := Optional("Live", live, Truthy(live) && live != Str("Tbc"));
    assert OptionalFields(description, owner, updateDue, live) == o1 + o2 + o3 + o4;
    MergeAssoc(base, o1, o2);
    MergeAssoc(base, o1 + o2, o3);
    MergeAssoc(base, o1 + o2 + o3, o4);
  }

  /** Merging maps is associative. */
  lemma {:induction false} MergeAssoc(a: Fields, b: Fields, c: Fields)
    ensures a + (b + c) == a + b + c
  {
    assert (a + (b + c)).Keys == (a + b + c).Keys;
  }

  /** One conditional assignment `if cond: fields[key] = value`. */
  method SetWhen(f: Fields, key: string, value: Value, cond: bool) returns (g: Fields)
    ensures g == f + Optional(key, value, cond)
  {
    g := f;
    if cond {
      g := g[key := value];
    }
  }

  /** No optional field name of a new project clashes with another field name. */
  lemma {:induction false} KeysDistinct()
    ensures BaseKeys !! OptionalKeys
    ensures "Description" != "Project Owner" && "Description" != "Update Due" && "Description" != "Live"
    ensures "Project Owner" != "Update Due" && "Project Owner" != "Live" && "Update Due" != "Live"
  {
    assert "Update Due"[0] != "Job Number"[0];
  }

  lemma {:induction false} BaseFieldValues(jobNumber: string, jobName: Value, status: string, clientId: Value)
    ensures var f := BaseFields(jobNumber, jobName, status, clientId);
      && f["Job Number"] == Str(jobNumber) && f["Project Name"] == jobName && f["Status"] == Str(status)
      && f["Stage"] == Str("Triage") && f["With Client?"] == Bool(false) && f["Client"] == List([clientId])
  {
  }

  /** The six base fields keep the values they were given: no optional field overwrites one. */
  lemma {:induction false} NewProjectBase(jobNumber: string, jobName: Value, status: string, clientId: Value,
                                          description: Value, owner: Value, updateDue: Value, live: Value)
    ensures var f := NewProjectFields(jobNumber, jobName, status, clientId, description, owner, updateDue, live);
      && f["Job Number"] == Str(jobNumber) && f["Project Name"] == jobName && f["Status"] == Str(status)
      && f["Stage"] == Str("Triage") && f["With Client?"] == Bool(false) && f["Client"] == List([clientId])
  {
    KeysDistinct();
    BaseFieldValues(jobNumber, jobName, status, clientId);
    var o := OptionalFields(description, owner, updateDue, live);
    assert forall k :: k in BaseKeys ==> k !in o;
  }

  /** Each optional field is written exactly when its condition holds, with the value given. */
  lemma {:induction false} OptionalFieldsContent(description: Value, owner: Value, updateDue: Value, live: Value)
    ensures var f := OptionalFields(description, owner, updateDue, live);
      && ("Description" in f <==> Truthy(description)) && ("Description" in f ==> f["Description"] == description)
      && ("Project Owner" in f <==> Truthy(owner)) && ("Project Owner" in f ==> f["Project Owner"] == owner)
      && ("Update Due" in f <==> Truthy(updateDue)) && ("Update Due" in f ==> f["Update Due"] == updateDue)
      && ("Live" in f <==> Truthy(live) && live != Str("Tbc")) && ("Live" in f ==> f["Live"] == live)
  {
    KeysDistinct();
  }

  /** Each optional field is present exactly when its condition holds, with the value given. */
  lemma {:induction false} NewProjectOptional(jobNumber: string, jobName: Value, status: string, clientId: Value,
                                              description: Value, owner: Value, updateDue: Value, live: Value)
    ensures var f := NewProjectFields(jobNumber, jobName, status, clientId, description, owner, updateDue, live);
      && ("Description" in f <==> Truthy(description)) && ("Description" in f ==> f["Description"] == description)
      && ("Project Owner" in f <==> Truthy(owner)) && ("Project Owner" in f ==> f["Project Owner"] == owner)
      && ("Update Due" in f <==> Truthy(updateDue)) && ("Update Due" in f ==> f["Update Due"] == updateDue)
      && ("Live" in f <==> Truthy(live) && live != Str("Tbc")) && ("Live" in f ==> f["Live"] == live)
  {
    KeysDistinct();
    OptionalFieldsContent(description, owner, updateDue, live);
    var b := BaseFields(jobNumber, jobName, status, clientId);
    assert forall k :: k in OptionalKeys ==> k !in b;
  }

  /** Nothing but the ten known fields is ever written. */
  lemma {:induction false} NewProjectKeys(jobNumber: string, jobName: Value, status: string, clientId: Value,
                                          description: Value, owner: Value, updateDue: Value, live: Value)
    ensures NewProjectFields(jobNumber, jobName, status, clientId, description, owner, updateDue, live).Keys
            <= BaseKeys + OptionalKeys
  {
  }

  /**
   * create_new_job: the required fields are checked before the client is looked up; the
   * job number is reserved from the client's counter and the project's fields are assembled
   * from the request's values (defaults '' for the optional ones, 'Tbc' for `live`, 'soon'
   * for `status`).
   */
  method CreateNewJob(data: Items, client: Option<AirtableRecord>, show: Value -> string) returns (r: Reply<Creation>)
    ensures !Truthy(Param(data, "clientCode", Null)) || !Truthy(Param(data, "jobName", Null))
            <==> r == Error(400, "Missing required fields")
    ensures Truthy(Param(data, "clientCode", Null)) && Truthy(Param(data, "jobName", Null)) && client.None? ==>
              r == Error(404, "Client " + Shown(Param(data, "clientCode", Null), show) + " not found")
    ensures client.Some? && Truthy(Param(data, "clientCode", Null)) && Truthy(Param(data, "jobName", Null)) ==>
      (r.Ok? <==> NextNumber(Shown(Param(data, "clientCode", Null), show), client.value.fields, show).Ok?)
    ensures r.Ok? ==> client.Some?
    ensures r.Ok? ==>
      var code := Shown(Param(data, "clientCode", Null), show);
      var next := NextNumber(code, client.value.fields, show);
      && next.Ok?
      && r.body.jobNumber == JobNumberFor(code, next.body)
      && r.body.newNextNumber == Format03(next.body + 1)
      && r.body.status == AirtableStatus(Param(data, "status", Str("soon")))
    ensures r.Ok? ==>
      r.body.fields == NewProjectFields(r.body.jobNumber, Param(data, "jobName", Null), r.body.status, client.value.id,
                                        Param(data, "description", Str("")), Param(data, "owner", Str("")),
                                        Param(data, "updateDue", Str("")), Param(data, "live", Str("Tbc")))
  {
    var clientCode := Param(data, "clientCode", Null);
    var jobName := Param(data, "jobName", Null);
    var description := Param(data, "description", Str(""));
    var owner := Param(data, "owner", Str(""));
    var updateDue := Param(data, "updateDue", Str(""));
    var live := Param(data, "live", Str("Tbc"));
    var status := Param(data, "status", Str("soon"));
    if !Truthy(clientCode) || !Truthy(jobName) {
      return Error(400, "Missing required fields");
    }
    var code := Shown(clientCode, show);
    if client.None? {
      return Error(404, "Client " + code + " not found");
    }
    var rec := client.value;
    var next := NextNumber(code, rec.fields, show);
    if next.Error? {
      return Error(next.status, next.message);
    }
    var n := next.body;
    var jobNumber := JobNumberFor(code, n);
    var airtableStatus := AirtableStatus(status);
    var fields := ProjectFields(jobNumber, jobName, airtableStatus, rec.id, description, owner, updateDue, live);
    r := Ok(Creation(jobNumber, Format03(n + 1), fields, airtableStatus));
  }

  /** The counter written back after reserving `n` hands out `n + 1` next. */
  lemma {:induction false} ConsecutiveReservations(code: string, n: int, fields: Fields, show: Value -> string)
    ensures NextNumber(code, fields["Next Job #" := Str(Format03(n + 1))], show) == Ok(n + 1)
    ensures JobNumberFor(code, NextNumber(code, fields["Next Job #" := Str(Format03(n + 1))], show).body)
            == JobNumberFor(code, n + 1)
  {
    ParseIntFormat03(n + 1);
    assert Get(fields["Next Job #" := Str(Format03(n + 1))], "Next Job #", Str("")) == Str(Format03(n + 1));
  }

  /** Distinct numbers give distinct job numbers, so consecutive reservations never collide. */
  lemma {:induction false} JobNumbersDistinct(code: string, m: int, n: int)
    requires m != n
    ensures JobNumberFor(code, m) != JobNumberFor(code, n)
  {
    var a := JobNumberFor(code, m);
    var b := JobNumberFor(code, n);
    if a == b {
      assert a[|code| + 1..] == Format03(m);
      assert b[|code| + 1..] == Format03(n);
      ParseIntFormat03(m);
      ParseIntFormat03(n);
    }
  }

  /** The preview shows the number a creation for the same client record would reserve. */
  lemma {:induction false} PreviewMatchesReservation(code: string, rec: AirtableRecord, show: Value -> string)
    requires NextNumber(code, rec.fields, show).Ok?
    ensures PreviewJobNumber(code, Some(rec), show).Ok?
    ensures PreviewJobNumber(code, Some(rec), show).body.previewJobNumber
            == JobNumberFor(code, NextNumber(code, rec.fields, show).body)
  {
  }

  lemma {:induction false} Format03Examples()
    ensures Format03(17) == "017" && Format03(18) == "018"
  {
    assert NatToDigits(17) == "17";
    assert NatToDigits(18) == "18";
  }

  /** Client SKY with counter 17 gets job number "SKY 017". */
  lemma {:induction false} JobNumberExample()
    ensures JobNumberFor("SKY", 17) == "SKY 017"
  {
    Format03Examples();
  }

  /** A counter holding "017" reserves 17 and is written back as "018". */
  lemma {:induction false} ReservationExample(fields: Fields, show: Value -> string)
    requires "Next Job #" in fields && fields["Next Job #"] == Str("017")
    ensures NextNumber("SKY", fields, show) == Ok(17)
    ensures Format03(17 + 1) == "018"
  {
    Format03Examples();
    ParseIntFormat03(17);
    assert ParseInt("017") == Some(17);
    assert Get(fields, "Next Job #", Str("")) == Str("017");
  }
}
