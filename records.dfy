/**
 * Airtable records as the server reads them, and transform_project, which turns
 * one into the "universal schema" job the browser receives (app.py; hub_app.py
 * has the same function without the `theStory` and `filesUrl` keys).
 */
module Records {
  import opened Wrappers
  import opened Text
  import opened ServerDates

  /** A JSON/Python value of an Airtable field (objects are not modelled). */
  datatype Value = Null | Bool(b: bool) | Num(n: real) | Str(s: string) | List(items: seq<Value>)

  /** Python truthiness. */
  predicate Truthy(v: Value)
  {
    match v
    case Null => false
    case Bool(b) => b
    case Num(n) => n != 0.0
    case Str(s) => s != ""
    case List(items) => items != []
  }

  type Fields = map<string, Value>

  /** An Airtable record: its `id` and its fields. */
  datatype AirtableRecord = AirtableRecord(id: Value, fields: Fields)

  /** `fields.get(key, default)`. */
  function Get(fields: Fields, key: string, default: Value): Value
  {
    if key in fields then fields[key] else default
  }

  /** Python's `a or b`. */
  function Or(a: Value, b: Value): (r: Value)
    ensures Truthy(a) ==> r == a
    ensures !Truthy(a) ==> r == b
  {
    if Truthy(a) then a else b
  }

  /** No whitespace at either end (what `strip` leaves). */
  predicate Stripped(s: string)
  {
    s == [] || (!IsPySpace(s[0]) && !IsPySpace(s[|s| - 1]))
  }

  /** The lines of a text history, each stripped, blank ones dropped. */
  function NonBlank(lines: seq<string>): (r: seq<string>)
    ensures |r| <= |lines|
    ensures forall i :: 0 <= i < |r| ==> r[i] != "" && Stripped(r[i])
  {
    if lines == [] then []
    else
      var t := Strip(lines[0]);
      var rest := NonBlank(lines[1..]);
      if t == "" then rest
      else
        assert Stripped(t);
        assert forall i :: 0 < i <= |rest| ==> ([t] + rest)[i] == rest[i - 1];
        [t] + rest
  }

  function Strs(lines: seq<string>): (r: seq<Value>)
    ensures |r| == |lines| && forall i :: 0 <= i < |r| ==> r[i] == Str(lines[i])
  {
    if lines == [] then [] else [Str(lines[0])] + Strs(lines[1..])
  }

  /** The job record of the universal schema; `None` for the two keys only app.py sends, in hub_app.py. */
  datatype Project = Project(
    jobNumber: Value,
    jobName: Value,
    clientCode: Option<string>,
    stage: Value,
    status: Value,
    withClient: bool,
    updateDue: Option<string>,
    liveDate: Value,
    daysSinceUpdate: Value,
    description: Value,
    theStory: Option<Value>,
    update: Value,
    updateHistory: seq<Value>,
    projectOwner: Value,
    channelUrl: Value,
    filesUrl: Option<Value>)

  /** The text after the last '|', stripped. */
  function LastPiece(s: string): string
  {
    var parts := Split(s, '|');
    Strip(parts[|parts| - 1])
  }

  /** The latest update: the stripped text after the last '|', when the summary has one. */
  function LatestUpdate(summary: Value): (r: Result<Value>)
    ensures summary.Str? && '|' !in summary.s ==> r == Success(summary)
    ensures summary.Str? && '|' in summary.s ==> r == Success(Str(LastPiece(summary.s)))
  {
    match summary
    case Str(s) =>
      if '|' in s then Success(Str(LastPiece(s)))
      else Success(summary)
    case List(items) =>
      // `'|' in` a list tests membership; a list has no `split`.
      if Str("|") in items then Failure("AttributeError") else Success(summary)
    case _ => Failure("TypeError")
  }

  /** The update history: a text split into its non-blank lines, a list as it is, anything else empty. */
  function UpdateHistory(raw: Value): (r: seq<Value>)
    ensures raw.List? ==> r == raw.items
    ensures !raw.List? && !raw.Str? ==> r == []
  {
    match raw
    case Str(s) => Strs(NonBlank(Split(s, '\n')))
    case List(items) => items
    case _ => []
  }

  /**
   * parse_airtable_date on any field value: a falsy value is None, a text is parsed, and a
   * number or boolean (whose `str` has neither the ISO shape nor a '/') is None. A list is
   * parsed through its Python `str`, which `listText` stands for.
   */
  function ParseDateValue(v: Value, listText: seq<Value> -> string): (r: Option<string>)
    ensures !Truthy(v) ==> r.None?
    ensures v.Str? ==> r == ParseAirtableDate(v.s)
  {
    match v
    case Str(s) => ParseAirtableDate(s)
    case List(items) => if items == [] then None else ParseAirtableDate(listText(items))
    case _ => None
  }

  /** extract_client_code on any field value; only a text has `split`. */
  function ClientCodeOf(v: Value): (r: Result<Option<string>>)
    ensures !Truthy(v) ==> r == Success(None)
    ensures v.Str? ==> r == Success(ExtractClientCode(v.s))
  {
    if !Truthy(v) then Success(None)
    else if v.Str? then Success(ExtractClientCode(v.s))
    else Failure("AttributeError")
  }

  /** transform_project; `hub` selects hub_app.py's copy. */
  function TransformProject(fields: Fields, hub: bool, listText: seq<Value> -> string): (r: Result<Project>)
    ensures var summary := Or(Get(fields, "Update Summary", Str("")), Get(fields, "Update", Str("")));
      var code := ClientCodeOf(Get(fields, "Job Number", Str("")));
      && (r.Success? <==> LatestUpdate(summary).Success? && code.Success?)
      && (r.Success? ==>
            r.value.update == LatestUpdate(summary).value && r.value.clientCode == code.value
            && r.value.updateHistory
               == UpdateHistory(Or(Get(fields, "Update History", List([])), Get(fields, "Update history", List([]))))
            && r.value.updateDue == ParseDateValue(Get(fields, "Update Due", Str("")), listText))
    ensures r.Success? ==>
      && r.value.stage == Get(fields, "Stage", Str("Triage"))
      && r.value.status == Get(fields, "Status", Str("Incoming"))
      && r.value.withClient == Truthy(Get(fields, "With Client?", Bool(false)))
      && r.value.daysSinceUpdate == Get(fields, "Days Since Update", Str("-"))
      && (hub <==> r.value.theStory.None? && r.value.filesUrl.None?)
  {
    var jobNumber := Get(fields, "Job Number", Str(""));
    var summary := Or(Get(fields, "Update Summary", Str("")), Get(fields, "Update", Str("")));
    match LatestUpdate(summary)
    case Failure(e) => Failure(e)
    case Success(latest) =>
      match ClientCodeOf(jobNumber)
      case Failure(e) => Failure(e)
      case Success(code) =>
        var history := UpdateHistory(Or(Get(fields, "Update History", List([])), Get(fields, "Update history", List([]))));
        Success(Project(
          jobNumber,
          Get(fields, "Project Name", Str("")),
          code,
          Get(fields, "Stage", Str("Triage")),
          Get(fields, "Status", Str("Incoming")),
          Truthy(Get(fields, "With Client?", Bool(false))),
          ParseDateValue(Get(fields, "Update Due", Str("")), listText),
          Get(fields, "Live", Str("")),
          Get(fields, "Days Since Update", Str("-")),
          Get(fields, "Description", Str("")),
          if hub then None else Some(Get(fields, "The Story", Str(""))),
          latest,
          history,
          Get(fields, "Project Owner", Str("")),
          Get(fields, "Channel Url", Str("")),
          if hub then None else Some(Get(fields, "Files Url", Str("")))))
  }

  /** A record with no fields at all becomes a blank triage job. */
  lemma {:induction false} EmptyRecordDefaults(hub: bool, listText: seq<Value> -> string)
    ensures var r := TransformProject(map[], hub, listText);
      r.Success? && r.value.stage == Str("Triage") && r.value.status == Str("Incoming")
      && r.value.update == Str("") && r.value.updateHistory == [] && r.value.clientCode.None?
      && r.value.updateDue.None? && !r.value.withClient && r.value.daysSinceUpdate == Str("-")
  {
  }

  /** The two copies agree on every key they share. */
  lemma {:induction false} HubCopyAgrees(fields: Fields, listText: seq<Value> -> string)
    ensures var a := TransformProject(fields, false, listText);
      var h := TransformProject(fields, true, listText);
      a.Success? <==> h.Success?
    ensures var a := TransformProject(fields, false, listText);
      var h := TransformProject(fields, true, listText);
      a.Success? ==> h.value == a.value.(theStory := None, filesUrl := None)
  {
  }

  /** The pieces of a split never contain the separator. */
  lemma {:induction false} SplitPiecesLackSeparator(s: string, c: char)
    ensures forall i :: 0 <= i < |Split(s, c)| ==> c !in Split(s, c)[i]
  {
    if s != [] {
      SplitPiecesLackSeparator(s[1..], c);
      var t := Split(s[1..], c);
      if s[0] != c {
        assert Split(s, c) == [[s[0]] + t[0]] + t[1..];
      }
    }
  }

  /** A pipe-separated summary yields its last entry, stripped: text with no '|' in it. */
  lemma {:induction false} LatestUpdateIsLastEntry(entries: seq<string>)
    requires |entries| >= 2 && forall i :: 0 <= i < |entries| ==> '|' !in entries[i]
    ensures LatestUpdate(Str(Join(entries, '|'))) == Success(Str(Strip(entries[|entries| - 1])))
    ensures '|' !in Strip(entries[|entries| - 1])
  {
    SplitJoin(entries, '|');
    SeparatorInJoin(entries, '|');
    LatestOfPieces(Join(entries, '|'), entries);
    StripSubset(entries[|entries| - 1]);
  }

  lemma {:induction false} LatestOfPieces(s: string, pieces: seq<string>)
    requires |pieces| >= 2 && Split(s, '|') == pieces && '|' in s
    ensures LatestUpdate(Str(s)) == Success(Str(Strip(pieces[|pieces| - 1])))
  {
  }

  lemma {:induction false} SeparatorInJoin(parts: seq<string>, c: char)
    requires |parts| >= 2
    ensures c in Join(parts, c)
  {
    var s := Join(parts, c);
    assert s == parts[0] + [c] + Join(parts[1..], c);
    assert s[|parts[0]|] == c;
  }

  lemma {:induction false} StripSubset(t: string)
    ensures forall c :: c in Strip(t) ==> c in t
  {
    var l := StripLeft(t);
    var st := Strip(t);
    assert st == l[..|st|];
    assert l == t[|t| - |l|..];
    forall c | c in st ensures c in t {
      var i :| 0 <= i < |st| && st[i] == c;
      assert t[|t| - |l| + i] == c;
    }
  }

  /** A history text of stripped, non-blank lines comes back line for line. */
  lemma {:induction false} HistoryLinesRoundTrip(lines: seq<string>)
    requires |lines| >= 1
    requires forall i :: 0 <= i < |lines| ==> lines[i] != "" && '\n' !in lines[i] && Stripped(lines[i])
    ensures UpdateHistory(Str(Join(lines, '\n'))) == Strs(lines)
  {
    SplitJoin(lines, '\n');
    NonBlankKeeps(lines);
  }

  lemma {:induction false} NonBlankKeeps(lines: seq<string>)
    requires forall i :: 0 <= i < |lines| ==> lines[i] != "" && Stripped(lines[i])
    ensures NonBlank(lines) == lines
  {
    if lines != [] {
      StripNoSpace(lines[0]);
      NonBlankKeeps(lines[1..]);
      assert [lines[0]] + lines[1..] == lines;
    }
  }

  /** A job number's client code is the text before its first space. */
  lemma {:induction false} ClientCodeFromJobNumber(code: string, number: string)
    requires code != "" && ' ' !in code
    ensures ClientCodeOf(Str(code + " " + number)) == Success(Some(code))
  {
    ClientCodeOfJobNumber(code, number);
  }
}
