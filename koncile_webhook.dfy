// The Koncile AI webhook: signature verification over the shared secret,
// the headers, the clock and the raw body, and the dispatch of a verified
// callback onto the extraction service.
module KoncileWebhook {
  import opened Php
  import opened Records
  import Svc = DocumentExtractionService

  /** How far, in seconds, the signed timestamp may be from the current time. */
  const ReplayWindow := 300

  const DefaultFailureMessage := "Extraction failed on provider side."

  /** A JSON response: status code and the body's single string entry. */
  datatype Response = Response(code: int, body: map<string, string>)

  /** The service operation the controller invokes, if any. */
  datatype ServiceCall =
    | NoCall
    | CompleteCall(taskId: string, generalFields: Json, lineFields: Json, payload: map<string, Json>)
    | FailCall(taskId: string, message: string)

  /** What `handle` does: answer with a response after at most one service
      call, or stop with a TypeError because a payload entry does not fit the
      service's parameter type (the file declares strict types). */
  datatype HandleResult = Handled(response: Response, call: ServiceCall) | TypeErrorRaised

  /** The inbound request: the two signature headers ('' when absent), the
      raw body and the decoded payload. */
  datatype WebhookRequest = WebhookRequest(signature: string, timestamp: string, rawBody: string, payload: map<string, Json>)

  /** What the controller reads from its environment: the configured secret,
      whether the application runs in production, and `time()`. */
  datatype Environment = Environment(secret: Option<string>, isProduction: bool, now: int)

  function Abs(x: int): nat {
    if x < 0 then -x else x
  }

  /** The message the provider signs: the timestamp header, a dot, the raw body. */
  function SignedMessage(timestamp: string, rawBody: string): string {
    timestamp + "." + rawBody
  }

  /** `verifySignature`. `hmac(key, message)` is the hex HMAC-SHA256 of
      RFC 2104; the constant-time comparison is plain equality here. */
  function VerifySignature(secret: Option<string>, isProduction: bool, signature: string, timestamp: string,
                           now: int, rawBody: string, hmac: (string, string) -> string): (ok: bool)
    ensures !Filled(secret) ==> (ok <==> !isProduction)
    ensures Filled(secret) && (!StringTruthy(signature) || !StringTruthy(timestamp)) ==> !ok
    ensures Filled(secret) && Abs(now - IntCast(timestamp)) > ReplayWindow ==> !ok
    ensures Filled(secret) && StringTruthy(signature) && StringTruthy(timestamp) && Abs(now - IntCast(timestamp)) <= ReplayWindow ==>
              (ok <==> signature == hmac(secret.value, SignedMessage(timestamp, rawBody)))
  {
    if !Filled(secret) then !isProduction
    else if !StringTruthy(signature) || !StringTruthy(timestamp) then false
    else if Abs(now - IntCast(timestamp)) > ReplayWindow then false
    else signature == hmac(secret.value, SignedMessage(timestamp, rawBody))
  }

  function Verified(env: Environment, request: WebhookRequest, hmac: (string, string) -> string): bool {
    VerifySignature(env.secret, env.isProduction, request.signature, request.timestamp, env.now, request.rawBody, hmac)
  }

  /** A timestamp more than 300 seconds before or after now is refused,
      whatever the signature. */
  lemma StaleTimestampRejected(secret: string, isProduction: bool, signature: string, sentAt: int, now: int,
                               rawBody: string, hmac: (string, string) -> string)
    requires StringTruthy(secret)
    requires Abs(now - sentAt) > ReplayWindow
    ensures !VerifySignature(Some(secret), isProduction, signature, IntToString(sentAt), now, rawBody, hmac)
  {
    IntCastOfIntToString(sentAt);
  }

  /** A request signed with the secret over its timestamp and body, sent at
      most 300 seconds from now (before or after), is accepted. The digest is
      assumed non-empty and not '0', as a 64-digit hex string is. */
  lemma FreshSignedRequestAccepted(secret: string, isProduction: bool, sentAt: int, now: int,
                                   rawBody: string, hmac: (string, string) -> string)
    requires StringTruthy(secret)
    requires sentAt != 0 && Abs(now - sentAt) <= ReplayWindow
    requires StringTruthy(hmac(secret, SignedMessage(IntToString(sentAt), rawBody)))
    ensures VerifySignature(Some(secret), isProduction, hmac(secret, SignedMessage(IntToString(sentAt), rawBody)),
                            IntToString(sentAt), now, rawBody, hmac)
  {
    IntCastOfIntToString(sentAt);
    IntToStringTruthy(sentAt);
  }

  /** The edge of the window: 300 seconds old passes, 301 seconds old fails. */
  lemma ReplayWindowEdge(secret: string, now: int, rawBody: string, hmac: (string, string) -> string)
    requires StringTruthy(secret) && now != 300
    requires StringTruthy(hmac(secret, SignedMessage(IntToString(now - 300), rawBody)))
    ensures VerifySignature(Some(secret), true, hmac(secret, SignedMessage(IntToString(now - 300), rawBody)),
                            IntToString(now - 300), now, rawBody, hmac)
    ensures !VerifySignature(Some(secret), true, hmac(secret, SignedMessage(IntToString(now - 301), rawBody)),
                             IntToString(now - 301), now, rawBody, hmac)
  {
    FreshSignedRequestAccepted(secret, true, now - 300, now, rawBody, hmac);
    StaleTimestampRejected(secret, true, hmac(secret, SignedMessage(IntToString(now - 301), rawBody)), now - 301, now, rawBody, hmac);
  }

  /** `(string) ($payload[$key] ?? '')`: '' when the key is missing or null,
      a string as given, an int in decimal. */
  function PayloadString(payload: map<string, Json>, key: string): (s: string)
    ensures key !in payload || payload[key] == JNull ==> s == ""
    ensures key in payload && payload[key].JStr? ==> s == payload[key].s
    ensures key in payload && payload[key].JInt? ==> IntCast(s) == payload[key].i
  {
    if key in payload then ToStr(payload[key]) else ""
  }

  /** `$payload[$key] ?? []`: an array exactly when the entry is missing,
      null or itself an array. */
  function PayloadArray(payload: map<string, Json>, key: string): (v: Json)
    ensures key !in payload || payload[key] == JNull ==> v == JList([])
    ensures key in payload && payload[key] != JNull ==> v == payload[key]
    ensures IsArray(v) <==> key !in payload || payload[key] == JNull || IsArray(payload[key])
  {
    if key in payload && payload[key] != JNull then payload[key] else JList([])
  }

  /** `$payload['error_message'] ?? 'Extraction failed on provider side.'`:
      a string exactly when the entry is missing, null or a string. */
  function PayloadErrorMessage(payload: map<string, Json>): (m: Json)
    ensures "error_message" !in payload || payload["error_message"] == JNull ==> m == JStr(DefaultFailureMessage)
    ensures "error_message" in payload && payload["error_message"].JStr? ==> m == payload["error_message"]
    ensures m.JStr? <==> "error_message" !in payload || payload["error_message"] == JNull || payload["error_message"].JStr?
  {
    if "error_message" in payload && payload["error_message"] != JNull then payload["error_message"]
    else JStr(DefaultFailureMessage)
  }

  const ForbiddenResponse := Response(403, map["error" := "Invalid signature"])
  const MissingTaskIdResponse := Response(400, map["error" := "Missing task_id"])
  const ProcessedResponse := Response(200, map["message" := "Webhook processed"])

  /** `handle` after verification: refuse an unverified request, refuse a
      falsy task id, otherwise dispatch on the status (case-sensitive) and
      acknowledge, whether or not a row matches the task id. */
  function Handle(verified: bool, payload: map<string, Json>): (r: HandleResult)
    ensures !verified ==> r == Handled(ForbiddenResponse, NoCall)
    ensures verified && !StringTruthy(PayloadString(payload, "task_id")) ==> r == Handled(MissingTaskIdResponse, NoCall)
    ensures r.Handled? && r.response != ForbiddenResponse && r.response != MissingTaskIdResponse ==>
              verified && StringTruthy(PayloadString(payload, "task_id")) && r.response == ProcessedResponse
    ensures verified && StringTruthy(PayloadString(payload, "task_id")) ==>
              var taskId := PayloadString(payload, "task_id");
              var status := PayloadString(payload, "status");
              && (status == "DONE" && IsArray(PayloadArray(payload, "General_fields")) && IsArray(PayloadArray(payload, "Line_fields")) ==>
                    r == Handled(ProcessedResponse, CompleteCall(taskId, PayloadArray(payload, "General_fields"), PayloadArray(payload, "Line_fields"), payload)))
              && (status == "FAILED" && PayloadErrorMessage(payload).JStr? ==>
                    r == Handled(ProcessedResponse, FailCall(taskId, PayloadErrorMessage(payload).s)))
              && (status == "DONE" && !(IsArray(PayloadArray(payload, "General_fields")) && IsArray(PayloadArray(payload, "Line_fields"))) ==>
                    r == TypeErrorRaised)
              && (status == "FAILED" && !PayloadErrorMessage(payload).JStr? ==> r == TypeErrorRaised)
              && (status != "DONE" && status != "FAILED" ==> r == Handled(ProcessedResponse, NoCall))
    ensures r.TypeErrorRaised? ==> PayloadString(payload, "status") in {"DONE", "FAILED"}
  {
    if !verified then Handled(ForbiddenResponse, NoCall)
    else
      var taskId := PayloadString(payload, "task_id");
      var status := PayloadString(payload, "status");
      if !StringTruthy(taskId) then Handled(MissingTaskIdResponse, NoCall)
      else if status == "DONE" then
        var generalFields := PayloadArray(payload, "General_fields");
        var lineFields := PayloadArray(payload, "Line_fields");
        if IsArray(generalFields) && IsArray(lineFields) then Handled(ProcessedResponse, CompleteCall(taskId, generalFields, lineFields, payload))
        else TypeErrorRaised
      else if status == "FAILED" then
        var message := PayloadErrorMessage(payload);
        if message.JStr? then Handled(ProcessedResponse, FailCall(taskId, message.s))
        else TypeErrorRaised
      else Handled(ProcessedResponse, NoCall)
  }

  /** The table after the controller's service call. */
  function AfterCall(s: seq<Record>, r: HandleResult): seq<Record> {
    match r
    case Handled(_, CompleteCall(taskId, generalFields, lineFields, payload)) =>
      Svc.CompleteInTable(s, taskId, generalFields, lineFields, payload)
    case Handled(_, FailCall(taskId, message)) => Svc.FailInTable(s, taskId, message)
    case _ => s
  }

  /** `handle`: verify, decide, then make the service call. */
  method HandleRequest(service: Svc.Service, env: Environment, request: WebhookRequest, hmac: (string, string) -> string)
    returns (r: HandleResult)
    requires service.Valid()
    modifies service`records
    ensures service.Valid()
    ensures r == Handle(Verified(env, request, hmac), request.payload)
    ensures service.records == AfterCall(old(service.records), r)
  {
    r := Handle(Verified(env, request, hmac), request.payload);
    match r {
      case Handled(_, CompleteCall(taskId, generalFields, lineFields, payload)) =>
        var _ := service.CompleteExtraction(taskId, generalFields, lineFields, payload);
      case Handled(_, FailCall(taskId, message)) =>
        var _ := service.FailByTaskId(taskId, message);
      case _ =>
    }
  }

  /** A verified DONE callback for a task id some row carries completes the
      first such row, stores the whole payload as its extracted data and
      resolves its identifier from the payload's General_fields. */
  lemma DoneCallbackCompletes(s: seq<Record>, payload: map<string, Json>, k: nat)
    requires PayloadString(payload, "status") == "DONE"
    requires Handle(true, payload).Handled? && Handle(true, payload).call.CompleteCall?
    requires FindByTaskId(s, PayloadString(payload, "task_id")) == Some(k)
    ensures k < |AfterCall(s, Handle(true, payload))|
    ensures var after := AfterCall(s, Handle(true, payload))[k];
            && after.status == Completed
            && after.extractedData == payload
            && after.identifier == Svc.ResolveIdentifier(s[k].metadata, PayloadArray(payload, "General_fields"))
  {
    assert "task_id" in payload;
  }
}
