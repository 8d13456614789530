# laravel-text-extractor, modelled in Dafny

laravel-text-extractor is a Laravel package that extracts structured data
from uploaded documents through an external OCR/AI provider. This project
models the package's core and proves properties of the model:

- the `document_extractions` row and its query scopes (`Records`);
- `DocumentExtractionService`: find-or-create of an extraction with
  de-duplication by document type and filename, the upload step the queued
  listener runs, and the completion and failure transitions (`class Service`
  over a table held as a sequence of rows);
- `KoncileAiIntegration`, the Koncile AI provider: the configuration check,
  the guard chain of `extract`, the upload URL and its query string, and the
  classification of error responses;
- `KoncileAiWebhookController`: HMAC signature verification with a replay
  window, and the dispatch of a verified callback onto the service;
- the pieces composed: the service driving the Koncile AI integration, then
  the webhook completing the row (`Pipeline`).

`Php` holds the PHP semantics the code relies on. That covers values decoded
from JSON, truthiness (`!$x`, `empty()`), the `(string)` and `(int)` casts,
array access and `isset`, `implode`, `rtrim` and `urlencode`. For the
proofs it also holds `urldecode` and `explode`. `http_build_query` is in
`KoncileIntegration`, next to the upload URL it builds.

Where a reader might expect otherwise, the model follows the code:

- No transition is guarded by the current status. A completed or failed row
  is completed or failed again by a later callback, and `processExtraction`
  runs on a row in any status.
- A 2xx upload answer is reported by the integration as status `pending`
  with the message "File uploaded successfully.". If the answer carries no
  `task_ids` list, the service then fails the row with that success message
  as its error (`Pipeline.UploadWithoutTaskIdsFailsRow`).
- The identifier is taken only from the field that `metadata['identifier_field']`
  names. There is no fallback to a per-type configured field.
- A timestamp exactly 300 seconds from now passes the replay check. Only a
  difference greater than 300 is refused (`KoncileWebhook.ReplayWindowEdge`).

Time, randomness and I/O become parameters:

- the current time (`now`);
- the configured secret and whether the app runs in production;
- HMAC-SHA256, a function parameter `hmac(key, message)`;
- what storage returns for the file;
- the temporary file's state (`FileState`);
- the HTTP client's outcome (`HttpOutcome`);
- what the bound provider gives back for each upload. Every
  `processExtraction` uploads the file anew and gets its own answer, so the
  answer is an argument of each call.

Ids are auto-incremented and rows are never deleted, so a row's id is its
position plus one. `Service.Valid()` keeps that, together with the list of
dispatched `DocumentExtractionRequested` events and the consistency of each
row.

## Model

| member | source | states |
|---|---|---|
| `Records.StatusRoundTrip` | src/Enums/DocumentExtractionStatusEnum.php:7-11 | the three status values are 'pending', 'completed' and 'failed'; each reads back as its case, and no other string reads as that case |
| `Records.Where` | src/Models/DocumentExtraction.php:49-88 | a query `where` keeps exactly the rows satisfying the condition, in table order, as a sub-multiset of the table |
| `Records.PendingOnly` | src/Models/DocumentExtraction.php:49-52 | `pending()` keeps exactly the rows whose status is Pending |
| `Records.CompletedOnly` | src/Models/DocumentExtraction.php:58-61 | `completed()` keeps exactly the rows whose status is Completed |
| `Records.FailedOnly` | src/Models/DocumentExtraction.php:67-70 | `failed()` keeps exactly the rows whose status is Failed |
| `Records.ForType` | src/Models/DocumentExtraction.php:76-79 | `forType($t)` keeps exactly the rows of type t |
| `Records.ForFile` | src/Models/DocumentExtraction.php:85-88 | `forFile($f)` keeps exactly the rows for filename f |
| `Records.ForTypeThenForFile` | src/Services/DocumentExtractionService.php:31-33 | chaining `forType` then `forFile` equals one filter on type and filename together, in table order |
| `Records.Latest` | src/Services/DocumentExtractionService.php:34-35 | `latest()->first()` on rows in creation order gives nothing for no rows, else the most recently created row |
| `Records.LatestIndex` | src/Services/DocumentExtractionService.php:31-35 | the position of the most recently created row with that type and filename: it matches, no later row matches, and None means no row matches |
| `Records.ExistingIsLatestMatch` | src/Services/DocumentExtractionService.php:30-39 | the de-duplication query returns nothing iff no row has that type and filename; otherwise it returns the most recently created such row |
| `Records.FindByTaskId` | src/Services/DocumentExtractionService.php:177-182 | the first row in table order that carries the task id; None iff no row carries it |
| `DocumentExtractionService.MarkFailed` | src/Services/DocumentExtractionService.php:161-164 | failing sets status Failed and the error message, changes no other column, and leaves the row consistent |
| `DocumentExtractionService.StoredValue` | src/Services/DocumentExtractionService.php:82-84 | the task id column keeps a string as given, and is NULL exactly when the provider's first task id is null |
| `DocumentExtractionService.TaskIds` | src/Services/DocumentExtractionService.php:81 | the task id list is `data['task_ids']` when that is a list, and empty when there is no data |
| `DocumentExtractionService.AfterUpload` | src/Services/DocumentExtractionService.php:79-99 | a thrown exception fails the row with its message; an answer with status 'pending' and non-empty task_ids keeps the first task id; any other answer fails the row with its message, or with 'Unexpected provider response.' when it has none |
| `DocumentExtractionService.Processed` | src/Services/DocumentExtractionService.php:59-105 | a file missing from storage fails the row with 'File not found in storage: ' and the filename, whatever the provider would answer; otherwise this upload's outcome decides; either only the task id changes or the row is marked failed; a consistent row stays consistent |
| `DocumentExtractionService.ExtractFieldValue` | src/Services/DocumentExtractionService.php:205-212 | '' unless `$fields[$name]['value']` is set and not null, else its string cast; a string value is returned as is |
| `DocumentExtractionService.ResolveIdentifier` | src/Services/DocumentExtractionService.php:189-198 | '' when the metadata's identifier_field is missing or falsy, else the named field's value |
| `DocumentExtractionService.LicenseNumberIdentifier` | src/Services/DocumentExtractionService.php:189-212 | with identifier_field 'license_number', the identifier is the licence number's `value` entry, '12-345-67' |
| `DocumentExtractionService.ExtractedData` | src/Services/DocumentExtractionService.php:124-127 | a non-empty payload is stored whole; an empty one stores exactly general_fields and line_fields |
| `DocumentExtractionService.MarkCompleted` | src/Services/DocumentExtractionService.php:129-133 | completing sets status Completed, the resolved identifier and the extracted data, and nothing else; the row is consistent |
| `DocumentExtractionService.CompleteInTable` | src/Services/DocumentExtractionService.php:114-141 | the first row with the task id is completed and every other row is unchanged; an unknown task id changes nothing; the table keeps its length |
| `DocumentExtractionService.FailInTable` | src/Services/DocumentExtractionService.php:146-172 | the first row with the task id is failed and every other row is unchanged; an unknown task id changes nothing |
| `DocumentExtractionService.Service.constructor` | src/Services/DocumentExtractionService.php:16-18 | the service starts over an empty table, with no events dispatched and no uploads made |
| `DocumentExtractionService.Service.ExtractOrRetrieve` | src/Services/DocumentExtractionService.php:28-54 | without force, an existing row for the type and file is returned and nothing changes; otherwise one pending row with the next id, an empty identifier and empty data is appended and exactly one event carrying its id is dispatched |
| `DocumentExtractionService.Service.FailExtraction` | src/Services/DocumentExtractionService.php:146-172 | failing a given row replaces just that row with its failed version and returns it |
| `DocumentExtractionService.Service.FailByTaskId` | src/Services/DocumentExtractionService.php:146-172 | failing by task id updates the table as `FailInTable` and returns the updated row, or null when no row carries the task id |
| `DocumentExtractionService.Service.CompleteExtraction` | src/Services/DocumentExtractionService.php:114-141 | completing by task id updates the table as `CompleteInTable` and returns the updated row, or null when no row carries the task id |
| `DocumentExtractionService.Service.ProcessExtraction` | src/Services/DocumentExtractionService.php:59-105 | only the processed row changes, to `Processed` with the outcome of this call's upload; the provider is called once with the row's type and metadata when the file was found, and never otherwise |
| `KoncileIntegration.Construct` | src/Providers/KoncileAi/KoncileAiIntegration.php:20-36 | construction succeeds iff url and key are both non-empty; otherwise InvalidArgumentException names the missing keys, in the order url, key |
| `KoncileIntegration.FailedResponse` | src/Providers/KoncileAi/KoncileAiIntegration.php:118-124 | a failure result: status 'failed', the given message, and no data |
| `KoncileIntegration.HandleErrorResponse` | src/Providers/KoncileAi/KoncileAiIntegration.php:129-144 | status 'failed' with no data; 401 and 403 give the authentication message, 400 and 422 the validation message with the body, 500 and above the server message, anything else the HTTP code and the body |
| `KoncileIntegration.QueryParams` | src/Providers/KoncileAi/KoncileAiIntegration.php:73-77 | template_id first, then folder_id exactly when the metadata's folder_id is truthy |
| `KoncileIntegration.QueryPieces` | src/Providers/KoncileAi/KoncileAiIntegration.php:79 | one urlencoded `key=value` piece per parameter, in order |
| `KoncileIntegration.BuildQuery` | src/Providers/KoncileAi/KoncileAiIntegration.php:79 | `http_build_query`: reading the query string back gives the parameters it was built from, in order, for ASCII keys and values |
| `KoncileIntegration.UploadQueryCarriesTemplate` | src/Providers/KoncileAi/KoncileAiIntegration.php:73-79 | the upload URL's query reads back as template_id, plus folder_id exactly when it is truthy, for ASCII ids |
| `KoncileIntegration.UploadUrl` | src/Providers/KoncileAi/KoncileAiIntegration.php:79 | the URL is the configured URL with its trailing slashes removed, then '/v1/upload_file/?', then the query |
| `KoncileIntegration.UploadUrlIgnoresTrailingSlash` | src/Providers/KoncileAi/KoncileAiIntegration.php:79 | a configured URL with a trailing slash gives the same upload URL as without it |
| `KoncileIntegration.UploadOutcome` | src/Providers/KoncileAi/KoncileAiIntegration.php:42-113 | the guard chain in order, each failing with its message and sending nothing; otherwise one request with a Bearer token and the file in field 'files'; 2xx gives 'pending' with the decoded body, other codes go through `handleErrorResponse`, and an exception gives 'Network error: ' and its message; the result always has a message |
| `KoncileIntegration.Extract` | src/Providers/KoncileAi/KoncileAiIntegration.php:42-113 | the method building the query parameters in place returns and sends exactly what `UploadOutcome` describes |
| `KoncileWebhook.VerifySignature` | src/Providers/KoncileAi/KoncileAiWebhookController.php:58-94 | without a secret, accepted iff not in production; with one, a falsy signature or timestamp, or a timestamp more than 300 s from now, is refused; otherwise accepted iff the signature equals the HMAC of 'timestamp.body' |
| `KoncileWebhook.StaleTimestampRejected` | src/Providers/KoncileAi/KoncileAiWebhookController.php:82-88 | a timestamp more than 300 seconds before or after now is refused whatever the signature |
| `KoncileWebhook.FreshSignedRequestAccepted` | src/Providers/KoncileAi/KoncileAiWebhookController.php:75-93 | a request signed over its timestamp and raw body, within 300 seconds of now, is accepted |
| `KoncileWebhook.ReplayWindowEdge` | src/Providers/KoncileAi/KoncileAiWebhookController.php:82 | a 300-second-old timestamp passes and a 301-second-old one is refused |
| `KoncileWebhook.PayloadString` | src/Providers/KoncileAi/KoncileAiWebhookController.php:26-27 | `(string) ($payload[$key] ?? '')` is '' for a missing or null entry, a string as given, an int in decimal |
| `KoncileWebhook.PayloadArray` | src/Providers/KoncileAi/KoncileAiWebhookController.php:41-42 | `$payload[$key] ?? []` is [] for a missing or null entry, else the entry; an array exactly when the entry is missing, null or an array |
| `KoncileWebhook.PayloadErrorMessage` | src/Providers/KoncileAi/KoncileAiWebhookController.php:47 | the error message is the default for a missing or null entry, else the entry; a string exactly when the entry is missing, null or a string |
| `KoncileWebhook.Handle` | src/Providers/KoncileAi/KoncileAiWebhookController.php:15-56 | unverified gives 403 and no call; a falsy task id gives 400 and no call; DONE completes with General_fields and Line_fields (default []) and the whole payload, and raises a TypeError when either is not an array; FAILED fails with error_message or the default message, and raises a TypeError when that is not a string; other statuses make no call; every handled request is answered 200 'Webhook processed'; a TypeError arises only for DONE or FAILED |
| `KoncileWebhook.HandleRequest` | src/Providers/KoncileAi/KoncileAiWebhookController.php:15-56 | the controller answers as `Handle` and leaves the table as the service call it chose leaves it |
| `KoncileWebhook.DoneCallbackCompletes` | src/Providers/KoncileAi/KoncileAiWebhookController.php:38-44 | a verified DONE callback completes the first row with the task id, storing the whole payload and resolving the identifier from General_fields |
| `Pipeline.MissingTemplateFailsRow` | src/Providers/KoncileAi/KoncileAiIntegration.php:44-52 | with the Koncile AI provider, a row without a template_id fails with the integration's message, whatever the file and the network do |
| `Pipeline.AcceptedUploadKeepsTaskId` | src/Services/DocumentExtractionService.php:79-84 | a 2xx upload answer with a task id list keeps its first task id on the row and changes nothing else |
| `Pipeline.SeparateUploadsKeepTheirTaskIds` | src/Services/DocumentExtractionService.php:77-84 | two files of one type and metadata, uploaded separately, each keep the task id their own upload was answered with |
| `Pipeline.UploadWithoutTaskIdsFailsRow` | src/Services/DocumentExtractionService.php:79-92 | a 2xx upload answer without task ids fails the row with 'File uploaded successfully.' |
| `Pipeline.RefusedUploadFailsRow` | src/Providers/KoncileAi/KoncileAiIntegration.php:100 | a refused upload fails the row with the message of `handleErrorResponse` |
| `Pipeline.DoneCallbackCompletesNewRow` | src/Providers/KoncileAi/KoncileAiWebhookController.php:38-44 | a DONE callback for the task id of a newly appended row completes that row and leaves the earlier rows alone |
| `Pipeline.ExtractionLifecycle` | src/Services/DocumentExtractionService.php:28-141 | create, upload with an accepted task id, then a DONE callback: the new row ends Completed with its task id, the payload and the resolved identifier, and the earlier rows are unchanged |
| `Php.ToStr` | src/Providers/KoncileAi/KoncileAiWebhookController.php:26-27 | `(string)` keeps a string, turns null into '', and renders an int so that `(int)` reads it back |
| `Php.IntCast` | src/Providers/KoncileAi/KoncileAiWebhookController.php:82 | `(int)` of a digit string is its value, of '-' and digits its negation, and of a string that starts with anything but whitespace, a sign or a digit is 0 |
| `Php.IntCastOfIntToString` | src/Providers/KoncileAi/KoncileAiWebhookController.php:82 | `(int)` of an int's decimal rendering is that int |
| `Php.Lookup` | src/Services/DocumentExtractionService.php:207 | array access on a non-array is nothing; on an object it finds exactly its keys |
| `Php.IssetValue` | src/Services/DocumentExtractionService.php:207 | `isset` holds iff the key is there with a non-null value |
| `Php.Join` | src/Providers/KoncileAi/KoncileAiIntegration.php:33 | `implode` of no parts is ''; otherwise its length is the parts' total length plus one separator between each pair, it starts with the first part followed by the separator, and it ends with the last part |
| `Php.RTrim` | src/Providers/KoncileAi/KoncileAiIntegration.php:79 | `rtrim` keeps a prefix that does not end in the character and removes only that character |
| `Php.UrlEncode` | src/Providers/KoncileAi/KoncileAiIntegration.php:79 | `urlencode` output holds only letters, digits, '-', '_', '.', '+' and '%', and is no shorter than its input |
| `Php.UrlDecodeEncode` | src/Providers/KoncileAi/KoncileAiIntegration.php:79 | decoding undoes `urlencode` on ASCII text |
| `Php.SplitJoin` | src/Providers/KoncileAi/KoncileAiIntegration.php:79 | splitting on a separator undoes joining with it when no piece holds the separator |

## Left out

- Logging, the `Storage` disk, the temporary file's name and its deletion, and the attachment filename (`basename`) are not modelled. Storage's answer and the temporary file's state are inputs.
- The queued listener and its retries, event delivery, and database transactions are left out. So is the race between two concurrent `extractOrRetrieve` calls, which can create two rows for one document.
- `latest()` orders by `created_at`. The model takes the most recently created row; rows created within the same second have no defined order in the database.
- Floating-point JSON values (such as `confidence_score`) are not in the `Json` datatype.
- `(string)` on an array gives 'Array'. Laravel turns PHP's accompanying warning into an exception; that escalation is not modelled.
- Php.IntCast: the `(int)` cast does not model exponent or fraction forms ('1e3', '12.5') or 64-bit overflow. The webhook timestamp is an integer of ordinary size.
- DocumentExtractionService.TaskIds: a truthy `task_ids` entry that is not a list is treated as no task ids. PHP would index it (a string's first character, an object's key 0).
- Metadata is a map from strings to strings. The TypeErrors that non-string metadata values would raise under strict types are not modelled.
- Request query-string parameters that Laravel merges into `$request->all()` are not modelled. The payload is the decoded body.
- HMAC-SHA256 (RFC 2104) is a function parameter, not computed. `hash_equals` is modelled as plain equality; its constant timing is not modelled.
- Php.UrlDecodeEncode: the round trip is proved for ASCII text only. Characters are code points here, so undoing the UTF-8 percent-encoding of other characters would need a UTF-8 decoder.
- KoncileIntegration.BuildQuery: the read-back is proved for ASCII keys and values only, for the same reason.
- KoncileIntegration.UploadQueryCarriesTemplate: proved for ASCII template and folder ids only, for the same reason; the source puts any id into the URL.
- KoncileIntegration.UploadOutcome: the `OpenFails` branch returns "Failed to open file: …" as the code is written. Under Laravel's error handler, a failing `fopen` raises its warning as an ErrorException, which `processExtraction` catches, failing the row with the warning's text instead. That escalation is not modelled, and neither is a failing `file_put_contents` of the temporary file.
- DocumentExtractionService.StoredValue: a first task id that is a list or an object is stored as 'Array'. In Laravel, saving an array into the column would raise an exception, which `processExtraction` catches. That path is not modelled.
- HTTP redirects, timeouts and TLS are not modelled. The HTTP client's outcome is an input.
- `PendingExtraction`, the facade, the service provider's bindings, the install command and the enum's translated labels are not part of this model.
