// The extraction service: find-or-create of an extraction, the upload step
// run by the queued listener, and the completion and failure transitions
// driven by the provider's webhook. The `document_extractions` table is a
// sequence of rows in creation order, held by the service object.
module DocumentExtractionService {
  import opened Php
  import opened Records
  import opened ProviderContract

  const FileNotFoundPrefix := "File not found in storage: "
  const UnexpectedProviderResponse := "Unexpected provider response."

  /** The row `extractOrRetrieve` creates: pending, empty identifier and data. */
  function NewExtraction(id: nat, documentType: string, filename: string, metadata: map<string, string>): Record {
    Record(id, documentType, filename, "", map[], metadata, Pending, None, None)
  }

  /** What every row reachable through the service satisfies: a pending row
      has not been completed or failed yet, and a failed row carries a message. */
  predicate Consistent(r: Record) {
    && (r.status == Pending ==> r.identifier == "" && r.extractedData == map[] && r.errorMessage == None)
    && (r.status == Failed ==> r.errorMessage.Some?)
  }

  /** The update of `failExtraction`: status and error message, nothing else. */
  function MarkFailed(r: Record, message: string): (r': Record)
    ensures r'.status == Failed && r'.errorMessage == Some(message)
    ensures r'.(status := r.status, errorMessage := r.errorMessage) == r
    ensures Consistent(r')
  {
    r.(status := Failed, errorMessage := Some(message))
  }

  /** The column value a JSON value is saved as: null stays NULL, anything
      else is stored as its string cast. */
  function StoredValue(v: Json): (t: Option<string>)
    ensures v.JStr? ==> t == Some(v.s)
    ensures t.None? <==> v == JNull
  {
    if v == JNull then None else Some(ToStr(v))
  }

  /** `$result['data']['task_ids']` when it is a list, and [] otherwise. */
  function TaskIds(data: Option<Json>): (ids: seq<Json>)
    ensures data.Some? && Lookup(data.value, "task_ids").Some? && Lookup(data.value, "task_ids").value.JList? ==>
              ids == Lookup(data.value, "task_ids").value.items
    ensures data.None? ==> ids == []
  {
    match data
    case None => []
    case Some(d) =>
      match Lookup(d, "task_ids")
      case Some(JList(xs)) => xs
      case _ => []
  }

  /** The provider accepted the upload: status 'pending' and a non-empty task id list. */
  predicate Accepted(result: ProviderResult) {
    result.status == StatusValue(Pending) && TaskIds(result.data) != []
  }

  /** The row after `processExtraction` has seen the provider's outcome. */
  function AfterUpload(r: Record, outcome: ProviderOutcome): (r': Record)
    ensures outcome.Threw? ==> r' == MarkFailed(r, outcome.message)
    ensures outcome.Returned? && Accepted(outcome.result) ==>
              r' == r.(externalTaskId := StoredValue(TaskIds(outcome.result.data)[0]))
    ensures outcome.Returned? && !Accepted(outcome.result) ==>
              r' == MarkFailed(r, outcome.result.message.GetOr(UnexpectedProviderResponse))
  {
    match outcome
    case Threw(message) => MarkFailed(r, message)
    case Returned(result) =>
      if Accepted(result) then r.(externalTaskId := StoredValue(TaskIds(result.data)[0]))
      else MarkFailed(r, result.message.GetOr(UnexpectedProviderResponse))
  }

  /** `processExtraction` on one row: the file's contents from storage (None
      when it is missing) and, when the file was found, what this upload's
      call to the provider gave back decide the new row. Either only the task
      id changes, or the row is marked failed; the row stays consistent. */
  function Processed(r: Record, contents: Option<seq<bv8>>, outcome: ProviderOutcome): (r': Record)
    ensures contents.None? ==> r' == MarkFailed(r, FileNotFoundPrefix + r.filename)
    ensures contents.Some? ==> r' == AfterUpload(r, outcome)
    ensures r' == r.(externalTaskId := r'.externalTaskId) || (r'.status == Failed && r' == MarkFailed(r, r'.errorMessage.value))
    ensures r'.status == r.status || r'.status == Failed
    ensures Consistent(r) ==> Consistent(r')
  {
    if contents.None? then MarkFailed(r, FileNotFoundPrefix + r.filename)
    else AfterUpload(r, outcome)
  }

  /** The value of `$fields[$name]['value']` when `isset` holds of it. */
  function FieldValue(fields: Json, name: string): Option<Json> {
    match Lookup(fields, name)
    case Some(inner) => IssetValue(inner, "value")
    case None => None
  }

  /** `extractFieldValue`: the string cast of the field's value, '' when it is not set. */
  function ExtractFieldValue(fields: Json, name: string): (v: string)
    ensures FieldValue(fields, name).None? ==> v == ""
    ensures FieldValue(fields, name).Some? ==> v == ToStr(FieldValue(fields, name).value)
    ensures fields.JObject? && name in fields.fields && fields.fields[name].JObject? &&
            "value" in fields.fields[name].fields && fields.fields[name].fields["value"].JStr? ==>
              v == fields.fields[name].fields["value"].s
    ensures !IsArray(fields) ==> v == ""
  {
    match FieldValue(fields, name)
    case Some(x) => ToStr(x)
    case None => ""
  }

  /** `resolveIdentifier`: the field named by the metadata's identifier_field,
      '' when that entry is missing or falsy. */
  function ResolveIdentifier(metadata: map<string, string>, generalFields: Json): (identifier: string)
    ensures !Filled(Get(metadata, "identifier_field")) ==> identifier == ""
    ensures Filled(Get(metadata, "identifier_field")) ==>
              identifier == ExtractFieldValue(generalFields, metadata["identifier_field"])
  {
    var field := Get(metadata, "identifier_field");
    if !Filled(field) then "" else ExtractFieldValue(generalFields, field.value)
  }

  /** A licence number named as the identifier field is read from its `value` entry. */
  lemma LicenseNumberIdentifier(otherFields: map<string, Json>)
    ensures ResolveIdentifier(map["identifier_field" := "license_number"],
                              JObject(otherFields["license_number" := JObject(map["value" := JStr("12-345-67")])])) == "12-345-67"
  {
  }

  /** The extracted_data column of a completion: the full payload when it is
      non-empty, else an object holding the general and line fields. */
  function ExtractedData(generalFields: Json, lineFields: Json, fullPayload: map<string, Json>): (d: map<string, Json>)
    ensures fullPayload != map[] ==> d == fullPayload
    ensures fullPayload == map[] ==> d.Keys == {"general_fields", "line_fields"}
    ensures fullPayload == map[] ==> d["general_fields"] == generalFields && d["line_fields"] == lineFields
  {
    if fullPayload != map[] then fullPayload
    else map["general_fields" := generalFields, "line_fields" := lineFields]
  }

  /** The update of `completeExtraction`: status, identifier and extracted data. */
  function MarkCompleted(r: Record, generalFields: Json, lineFields: Json, fullPayload: map<string, Json>): (r': Record)
    ensures r'.status == Completed
    ensures r'.identifier == ResolveIdentifier(r.metadata, generalFields)
    ensures r'.extractedData == ExtractedData(generalFields, lineFields, fullPayload)
    ensures r'.(status := r.status, identifier := r.identifier, extractedData := r.extractedData) == r
    ensures Consistent(r')
  {
    r.(status := Completed,
       identifier := ResolveIdentifier(r.metadata, generalFields),
       extractedData := ExtractedData(generalFields, lineFields, fullPayload))
  }

  /** The table after `completeExtraction($taskId, ...)`: the first row with
      that task id is completed, every other row is untouched, and an unknown
      task id changes nothing. */
  function CompleteInTable(s: seq<Record>, taskId: string, generalFields: Json, lineFields: Json,
                           fullPayload: map<string, Json>): (s': seq<Record>)
    ensures |s'| == |s|
    ensures FindByTaskId(s, taskId).None? ==> s' == s
    ensures FindByTaskId(s, taskId).Some? ==>
              var k := FindByTaskId(s, taskId).value;
              s'[k] == MarkCompleted(s[k], generalFields, lineFields, fullPayload) &&
              forall j :: 0 <= j < |s| && j != k ==> s'[j] == s[j]
  {
    match FindByTaskId(s, taskId)
    case None => s
    case Some(k) => s[k := MarkCompleted(s[k], generalFields, lineFields, fullPayload)]
  }

  /** The table after `failExtraction($taskId, $message)` given a task id. */
  function FailInTable(s: seq<Record>, taskId: string, message: string): (s': seq<Record>)
    ensures |s'| == |s|
    ensures FindByTaskId(s, taskId).None? ==> s' == s
    ensures FindByTaskId(s, taskId).Some? ==>
              var k := FindByTaskId(s, taskId).value;
              s'[k] == MarkFailed(s[k], message) &&
              forall j :: 0 <= j < |s| && j != k ==> s'[j] == s[j]
  {
    match FindByTaskId(s, taskId)
    case None => s
    case Some(k) => s[k := MarkFailed(s[k], message)]
  }

  /** The row at the position a lookup found, if any. */
  function At(s: seq<Record>, k: Option<nat>): Option<Record>
    requires k.Some? ==> k.value < |s|
  {
    match k
    case Some(i) => Some(s[i])
    case None => None
  }

  class Service {
    /** The `document_extractions` table, in creation order. */
    var records: seq<Record>
    /** The ids carried by the DocumentExtractionRequested events dispatched so far. */
    ghost var dispatched: seq<nat>
    /** The (document type, metadata) of every call made to the provider so far,
        one per upload. */
    ghost var uploads: seq<(string, map<string, string>)>

    /** Ids are auto-incremented from 1 and rows are never deleted, so a row's
        id is its position plus one; every row was announced by exactly one
        event, in creation order; every row is consistent. */
    ghost predicate Valid()
      reads this
    {
      && (forall i :: 0 <= i < |records| ==> records[i].id == i + 1 && Consistent(records[i]))
      && |dispatched| == |records|
      && (forall i :: 0 <= i < |dispatched| ==> dispatched[i] == i + 1)
    }

    constructor ()
      ensures Valid()
      ensures records == [] && dispatched == [] && uploads == []
    {
      records := [];
      dispatched := [];
      uploads := [];
    }

    /** `extractOrRetrieve`: without force, the latest row for the same type
        and file is returned and nothing changes; otherwise one pending row is
        appended and one event announces it. */
    method ExtractOrRetrieve(documentType: string, filename: string, metadata: map<string, string>, force: bool)
      returns (extraction: Record)
      requires Valid()
      modifies this
      ensures Valid() && uploads == old(uploads)
      ensures !force && Existing(old(records), documentType, filename).Some? ==>
                && extraction == Existing(old(records), documentType, filename).value
                && records == old(records)
                && dispatched == old(dispatched)
      ensures force || Existing(old(records), documentType, filename).None? ==>
                && extraction == NewExtraction(|old(records)| + 1, documentType, filename, metadata)
                && records == old(records) + [extraction]
                && dispatched == old(dispatched) + [extraction.id]
    {
      if !force {
        var existing := Existing(records, documentType, filename);
        if existing.Some? {
          extraction := existing.value;
          return;
        }
      }
      extraction := NewExtraction(|records| + 1, documentType, filename, metadata);
      records := records + [extraction];
      dispatched := dispatched + [extraction.id];
    }

    /** `failExtraction` given the row itself. */
    method FailExtraction(id: nat, message: string) returns (extraction: Record)
      requires Valid() && 1 <= id <= |records|
      modifies this`records
      ensures Valid()
      ensures records == old(records)[id - 1 := MarkFailed(old(records)[id - 1], message)]
      ensures extraction == records[id - 1]
    {
      extraction := MarkFailed(records[id - 1], message);
      records := records[id - 1 := extraction];
    }

    /** `failExtraction` given a task id: the first row with that task id is
        failed; an unknown task id gives null and changes nothing. */
    method FailByTaskId(taskId: string, message: string) returns (extraction: Option<Record>)
      requires Valid()
      modifies this`records
      ensures Valid()
      ensures records == FailInTable(old(records), taskId, message)
      ensures extraction == At(records, FindByTaskId(old(records), taskId))
    {
      var found := FindByTaskId(records, taskId);
      if found.None? {
        return None;
      }
      var failed := FailExtraction(found.value + 1, message);
      extraction := Some(failed);
    }

    /** `completeExtraction`: the first row with the task id is completed; an
        unknown task id gives null and changes nothing. */
    method CompleteExtraction(taskId: string, generalFields: Json, lineFields: Json, fullPayload: map<string, Json>)
      returns (extraction: Option<Record>)
      requires Valid() && IsArray(generalFields) && IsArray(lineFields)
      modifies this`records
      ensures Valid()
      ensures records == CompleteInTable(old(records), taskId, generalFields, lineFields, fullPayload)
      ensures extraction == At(records, FindByTaskId(old(records), taskId))
    {
      var found := FindByTaskId(records, taskId);
      if found.None? {
        return None;
      }
      var k := found.value;
      var completed := MarkCompleted(records[k], generalFields, lineFields, fullPayload);
      records := records[k := completed];
      extraction := Some(completed);
    }

    /** `processExtraction`: fetch the file, hand it to the provider, and keep
        the task id or fail the row. `outcome` is what the provider gives back
        for this upload of this file; each call uploads anew and gets its own
        answer. It never throws: a provider exception fails the row. The
        provider is called only when the file was found. */
    method ProcessExtraction(id: nat, contents: Option<seq<bv8>>, outcome: ProviderOutcome)
      requires Valid() && 1 <= id <= |records|
      modifies this`records, this`uploads
      ensures Valid()
      ensures records == old(records)[id - 1 := Processed(old(records)[id - 1], contents, outcome)]
      ensures contents.None? ==> uploads == old(uploads)
      ensures contents.Some? ==> uploads == old(uploads) + [(old(records)[id - 1].documentType, old(records)[id - 1].metadata)]
    {
      var extraction := records[id - 1];
      if contents.None? {
        var _ := FailExtraction(id, FileNotFoundPrefix + extraction.filename);
        return;
      }
      uploads := uploads + [(extraction.documentType, extraction.metadata)];
      match outcome {
        case Threw(message) =>
          var _ := FailExtraction(id, message);
        case Returned(result) =>
          var taskIds := TaskIds(result.data);
          if result.status == StatusValue(Pending) && taskIds != [] {
            records := records[id - 1 := extraction.(externalTaskId := StoredValue(taskIds[0]))];
          } else {
            var _ := FailExtraction(id, result.message.GetOr(UnexpectedProviderResponse));
          }
      }
    }
  }
}
