// The package end to end: the service driving the Koncile AI integration
// as its provider, then the Koncile AI webhook reporting back.
module Pipeline {
  import opened Php
  import opened Records
  import opened ProviderContract
  import opened KoncileIntegration
  import opened DocumentExtractionService
  import opened KoncileWebhook

  /** What the Koncile AI integration, bound as the service's provider, gives
      back for one upload of the row's file: the temporary file the service
      wrote, what the filesystem says about it and what the HTTP client gives
      back. `extract` catches every failure itself, so it never throws. */
  function KoncileUpload(config: Config, tempPath: string, r: Record, file: FileState, http: HttpOutcome): ProviderOutcome {
    Returned(UploadOutcome(config, tempPath, r.documentType, r.metadata, file, http).result)
  }

  /** A row whose metadata has no usable template_id fails with the
      integration's message, whatever the file and the network do. */
  lemma MissingTemplateFailsRow(r: Record, contents: seq<bv8>, config: Config, tempPath: string, file: FileState, http: HttpOutcome)
    requires !Filled(Get(r.metadata, "template_id"))
    ensures Processed(r, Some(contents), KoncileUpload(config, tempPath, r, file, http)) ==
            MarkFailed(r, "No template_id provided in metadata for document type: " + r.documentType)
  {
    var u := UploadOutcome(config, tempPath, r.documentType, r.metadata, file, http);
    assert !Accepted(u.result);
  }

  /** An upload the provider answers with 2xx and a task id list keeps the
      first task id on the row, which stays pending. */
  lemma AcceptedUploadKeepsTaskId(r: Record, contents: seq<bv8>, config: Config, tempPath: string,
                                  code: int, body: string, json: Json, taskId: string)
    requires Filled(Get(r.metadata, "template_id")) && Successful(code)
    requires Lookup(json, "task_ids").Some? && Lookup(json, "task_ids").value.JList?
    requires var ids := Lookup(json, "task_ids").value.items; ids != [] && ids[0] == JStr(taskId)
    ensures Processed(r, Some(contents), KoncileUpload(config, tempPath, r, Opened, HttpResponse(code, body, json))) ==
            r.(externalTaskId := Some(taskId))
  {
    var u := UploadOutcome(config, tempPath, r.documentType, r.metadata, Opened, HttpResponse(code, body, json));
    assert u.request.Some?;
    assert u.result == ProviderResult(StatusValue(Pending), Some(json), Some(UploadedMessage));
    assert TaskIds(u.result.data) == Lookup(json, "task_ids").value.items;
    assert Accepted(u.result);
  }

  /** Two files of one document type and one metadata, uploaded separately,
      each keep the task id their own upload was answered with: a later
      callback for either task id finds its own row. */
  lemma SeparateUploadsKeepTheirTaskIds(r1: Record, r2: Record, contents1: seq<bv8>, contents2: seq<bv8>, config: Config,
                                        tempPath1: string, tempPath2: string, code: int, body: string, taskId1: string, taskId2: string)
    requires r1.documentType == r2.documentType && r1.metadata == r2.metadata
    requires Filled(Get(r1.metadata, "template_id")) && Successful(code) && taskId1 != taskId2
    ensures var json1 := JObject(map["task_ids" := JList([JStr(taskId1)])]);
            var json2 := JObject(map["task_ids" := JList([JStr(taskId2)])]);
            && Processed(r1, Some(contents1), KoncileUpload(config, tempPath1, r1, Opened, HttpResponse(code, body, json1))).externalTaskId == Some(taskId1)
            && Processed(r2, Some(contents2), KoncileUpload(config, tempPath2, r2, Opened, HttpResponse(code, body, json2))).externalTaskId == Some(taskId2)
  {
    AcceptedUploadKeepsTaskId(r1, contents1, config, tempPath1, code, body, JObject(map["task_ids" := JList([JStr(taskId1)])]), taskId1);
    AcceptedUploadKeepsTaskId(r2, contents2, config, tempPath2, code, body, JObject(map["task_ids" := JList([JStr(taskId2)])]), taskId2);
  }

  /** An upload answered with 2xx but without a task id list fails the row,
      and the message it carries is the integration's success message. */
  lemma UploadWithoutTaskIdsFailsRow(r: Record, contents: seq<bv8>, config: Config, tempPath: string,
                                     code: int, body: string, json: Json)
    requires Filled(Get(r.metadata, "template_id")) && Successful(code)
    requires Lookup(json, "task_ids").None?
    ensures Processed(r, Some(contents), KoncileUpload(config, tempPath, r, Opened, HttpResponse(code, body, json))) ==
            MarkFailed(r, UploadedMessage)
  {
    var u := UploadOutcome(config, tempPath, r.documentType, r.metadata, Opened, HttpResponse(code, body, json));
    assert u.request.Some?;
    assert u.result == ProviderResult(StatusValue(Pending), Some(json), Some(UploadedMessage));
    assert TaskIds(u.result.data) == [];
    assert !Accepted(u.result);
  }

  /** An upload the provider refuses fails the row with the message of
      `handleErrorResponse`. */
  lemma RefusedUploadFailsRow(r: Record, contents: seq<bv8>, config: Config, tempPath: string,
                              code: int, body: string, json: Json)
    requires Filled(Get(r.metadata, "template_id")) && !Successful(code)
    ensures Processed(r, Some(contents), KoncileUpload(config, tempPath, r, Opened, HttpResponse(code, body, json))) ==
            MarkFailed(r, HandleErrorResponse(code, body).message.value)
  {
    var u := UploadOutcome(config, tempPath, r.documentType, r.metadata, Opened, HttpResponse(code, body, json));
    assert u.request.Some?;
    assert u.result == HandleErrorResponse(code, body);
    assert !Accepted(u.result);
  }

  /** A verified DONE callback for the task id of a row appended after rows
      that do not carry it completes that row and leaves the others alone. */
  lemma DoneCallbackCompletesNewRow(s: seq<Record>, row: Record, taskId: string, payload: map<string, Json>)
    requires forall j :: 0 <= j < |s| ==> s[j].externalTaskId != Some(taskId)
    requires row.externalTaskId == Some(taskId) && StringTruthy(taskId)
    requires payload.Keys >= {"task_id", "status"}
    requires payload["task_id"] == JStr(taskId) && payload["status"] == JStr("DONE")
    requires IsArray(PayloadArray(payload, "General_fields")) && IsArray(PayloadArray(payload, "Line_fields"))
    ensures AfterCall(s + [row], Handle(true, payload)) ==
            s + [MarkCompleted(row, PayloadArray(payload, "General_fields"), PayloadArray(payload, "Line_fields"), payload)]
  {
    TaskIdOfNewRowIsFound(s, row, taskId);
    assert PayloadString(payload, "task_id") == taskId;
  }

  /** The whole life of an extraction: a new row is appended for a document,
      its upload is accepted under a task id no other row carries, and a
      verified DONE callback for that task id completes it, resolving the
      identifier from the callback's General_fields. */
  lemma ExtractionLifecycle(s: seq<Record>, documentType: string, filename: string, metadata: map<string, string>,
                            contents: seq<bv8>, config: Config, tempPath: string, code: int, body: string,
                            taskId: string, payload: map<string, Json>)
    requires forall j :: 0 <= j < |s| ==> s[j].externalTaskId != Some(taskId)
    requires Filled(Get(metadata, "template_id")) && Successful(code) && StringTruthy(taskId)
    requires payload.Keys >= {"task_id", "status"}
    requires payload["task_id"] == JStr(taskId) && payload["status"] == JStr("DONE")
    requires IsArray(PayloadArray(payload, "General_fields")) && IsArray(PayloadArray(payload, "Line_fields"))
    ensures var row := NewExtraction(|s| + 1, documentType, filename, metadata);
            var upload := KoncileUpload(config, tempPath, row, Opened, HttpResponse(code, body, JObject(map["task_ids" := JList([JStr(taskId)])])));
            var completed := AfterCall(s + [Processed(row, Some(contents), upload)], Handle(true, payload));
            && completed[..|s|] == s
            && |completed| == |s| + 1
            && completed[|s|].status == Completed
            && completed[|s|].externalTaskId == Some(taskId)
            && completed[|s|].extractedData == payload
            && completed[|s|].identifier == ResolveIdentifier(metadata, PayloadArray(payload, "General_fields"))
  {
    var row := NewExtraction(|s| + 1, documentType, filename, metadata);
    var json := JObject(map["task_ids" := JList([JStr(taskId)])]);
    AcceptedUploadKeepsTaskId(row, contents, config, tempPath, code, body, json, taskId);
    var uploadedRow := row.(externalTaskId := Some(taskId));
    DoneCallbackCompletesNewRow(s, uploadedRow, taskId, payload);
    var done := MarkCompleted(uploadedRow, PayloadArray(payload, "General_fields"), PayloadArray(payload, "Line_fields"), payload);
    assert (s + [done])[..|s|] == s;
  }

  /** A task id no earlier row carries is found on the row appended with it. */
  lemma TaskIdOfNewRowIsFound(s: seq<Record>, row: Record, taskId: string)
    requires forall j :: 0 <= j < |s| ==> s[j].externalTaskId != Some(taskId)
    requires row.externalTaskId == Some(taskId)
    ensures FindByTaskId(s + [row], taskId) == Some(|s|)
  {
    var table := s + [row];
    assert table[|s|].externalTaskId == Some(taskId);
    assert forall j :: 0 <= j < |s| ==> table[j].externalTaskId != Some(taskId);
  }
}
