# workflow-archiver, modelled in Dafny

workflow-archiver is a GitHub App webhook handler. When `Handle` is given a
completed `workflow_run` payload, it does the following, in order (but see
"## Findings" for which deliveries reach it):

1. opens an installation client;
2. fetches the workflow run and reads its conclusion;
3. asks for the log archive URL (following redirects) and downloads it;
4. reads the response body and gzips it;
5. gets an Azure credential and a blob client for
   `https://{account}.blob.core.windows.net/`;
6. creates the container `{owner}-{repo}`, tolerating `ContainerAlreadyExists`;
7. uploads the compressed log as the blob `{YYYYMMDDhhmmss}-{uuid}.log.gz`.

The first failure stops the pipeline. The handler returns that error,
wrapped in the `errors.Wrap` message of each place it passed through.

The model covers `Handle`, `logToAzureBlobStorage` and `compress`. It treats
one delivery as a pure function of what the outside world answers:

- `Env` and `StorageEnv` hold every answer:
  - the decoded payload;
  - the result of each SDK, HTTP and gzip call;
  - the clock reading and the UUID string.
- The result is an `Execution`. It pairs the calls made, each recorded
  with the arguments the handler passes (`seq<Effect>`), with an `Outcome`:
  - `Done` is a nil return;
  - `Failed(error)` is a returned error;
  - `Panicked` is a nil-pointer dereference of a missing payload field.
- Errors are chains of `Wrapped(message, cause)` that end in a storage
  `Service(code)` or an `Other` error. `HasCode` follows `errors.As` through
  the chain, as `bloberror.HasCode` does.

Each stage function builds its trace from the next stage's trace. Its
contract is a `StageRun`, a recursive `Chain` over the calls, together with
a `Plan`: the arguments each call is meant to get, such as the log URL
returned, the service URL of the account and the `{owner}-{repo}`
container. The lemma `ChainIsWellRun` shows what a chain means:

- the calls run stage after stage;
- every call but the last succeeded;
- the run fails exactly when its last call failed, and then with that
  call's error under its messages;
- every call follows the plan.

Modules and files:

- `Base` (`base.dfy`): bytes, options, the error chain, results.
- `Effects` (`effects.dfy`): the call alphabet, stage ranks, plans, the
  messages, and the short-circuit predicates and lemmas.
- `Naming` (`naming.dfy`): the service URL, the container name, the
  timestamp and the blob name, with an inverse for the service URL, the
  blob name and (for owners without a hyphen) the container name.
- `Compression` (`compression.dfy`): `compress`.
- `Storage` (`storage.dfy`): `logToAzureBlobStorage`.
- `Handler` (`handler.dfy`): `Handle`, the property lemmas, and event
  registration.

### Behaviour of the code worth knowing

- The container name is `orgName-repoName` exactly as the event spells the
  login and the repository name (line 156). Nothing lower-cases or
  otherwise normalises it, and `Naming.ContainerName` does the same.
- The blob name's timestamp is `time.Now()` formatted in the process's
  local time zone (line 166), not in UTC. The clock reading is a parameter
  in that zone.
- The log download's HTTP status is never looked at (lines 110-113). An
  error page is archived like a log, and `Handler.HttpStatusIgnored` proves
  that the status makes no difference.
- Neither the log download (line 110) nor the body read (line 132) has a
  timeout, and the storage calls run under `context.Background()` (line
  129). Only the GitHub client is limited, to 3 seconds (line 206).
- The storage account name is the unexported field `storageAccountName`
  of the `Azure` configuration struct (line 40). YAML decoding never sets
  an unexported field, and strict decoding rejects its key. As written, the
  service URL is therefore `https://.blob.core.windows.net/`. The model
  takes `account` as a parameter so that it covers any account name.

## Model

| member | source | states |
|---|---|---|
| Handler.Handle | workflow-archiver.go:67-124 | A payload that does not decode returns that error under "failed to parse workflow run event" and makes no call. Calls are made exactly when the event decoded and its action is "completed". Any other action returns nil when the run ID is present and panics when it is missing. A delivery panics exactly when a field the code dereferences is missing: the action, the run ID of a non-completed run, the owner, repository name or run ID after the installation client, or the fetched run's conclusion. A panicking delivery makes at most two calls, and a missing conclusion panics right after the run fetch. The calls run stage after stage from the installation client, and each call but the last succeeded. The delivery fails exactly when its last call failed, with that call's error under its messages. A nil return after calls comes only after the upload. Every call gets the arguments `HandlePlan` names. |
| Handler.CallsGetTheirArguments | workflow-archiver.go:87-170 | Every call gets the arguments the code builds for it: the event's installation ID, owner, repository name and run ID (redirects followed for the log URL); the log URL that was returned; the body that was read; the service URL of the configured account; the `{owner}-{repo}` container; and for the upload, that container, the timestamp-UUID blob name and the compressed body. |
| Handler.HandleCompleted | workflow-archiver.go:86-93 | The installation client is the first call, and its error is returned without a message. Once it succeeds, a missing owner, repository name or run ID panics with no further call. Otherwise the run continues with the workflow run fetch. The stage panics exactly in those cases or when the fetched run has no conclusion, and that panic comes only after the fetch: its trace is the installation client and the `GetWorkflowRun` call. |
| Handler.FetchRun | workflow-archiver.go:92-101 | The run fetch for the event's owner, repository and run ID fails under "failed to get workflow run". It panics exactly when the fetched run has no conclusion, and then makes no further call. Any present conclusion continues to the log URL request. |
| Handler.FetchLogs | workflow-archiver.go:103-107 | The log URL is requested for the same owner, repository and run with redirects followed. Its failure is wrapped in "failed to get workflow run log URL". Otherwise the returned URL is downloaded. |
| Handler.Download | workflow-archiver.go:109-113 | The log URL is fetched with one GET. A transport failure is wrapped in "failed to get workflow run logs". Otherwise the archive stage follows, whatever the status. |
| Handler.Archive | workflow-archiver.go:115-121 | The archive stage's client gets the service URL of the configured account, its container is `{owner}-{repo}` of the event, and its blob gets the timestamp-UUID name. Any error of the stage gets the extra message "failed to log to Azure Blob Storage". |
| Handler.NotCompletedIsNoOp | workflow-archiver.go:80-84 | An action other than "completed" makes no call. The result does not depend on anything the services would return. |
| Handler.HandleStopsAtFailure | workflow-archiver.go:86-121 | When the call of stage k fails, no call of a later stage is made and the delivery does not return nil. |
| Handler.CompressionFailureLeavesStorageUntouched | workflow-archiver.go:137-147 | A failed gzip write or close means no credential, client, container or upload call is made. |
| Handler.StorageAfterCompression | workflow-archiver.go:131-144 | Every storage call is preceded by the body read, the gzip write and the gzip close, in that order, and each of them succeeded. |
| Handler.OtherContainerErrorAborts | workflow-archiver.go:158-163 | A container error other than ContainerAlreadyExists means no upload. When creation was attempted, the delivery returns that error under "failed to create container" and "failed to log to Azure Blob Storage". |
| Handler.AlreadyExistsIsSuccess | workflow-archiver.go:158-160 | A ContainerAlreadyExists answer gives exactly the delivery a successful creation would give. |
| Handler.DoneMeansArchived | workflow-archiver.go:118-123 | A delivery that returns nil after making calls ran all eleven stages, and every call succeeded. |
| Handler.EverySuccessArchives | workflow-archiver.go:86-123 | When every call succeeds and the event has every field the code reads, the delivery makes all eleven calls, ends with the upload of the compressed body to `{owner}-{repo}` under the timestamp-UUID name, and returns nil. |
| Handler.UploadSendsCompressedBody | workflow-archiver.go:166-170 | Any upload is the last call, at stage 10. It sends the gzip encoding of the body read to the `{owner}-{repo}` container under the blob name built from the clock reading and the UUID. |
| Handler.ErrorKeepsCause | workflow-archiver.go:94-120 | A returned error keeps the failing call's error. Unwrapping as many messages as the program added gives that error back. |
| Handler.ConclusionIsOnlyLogged | workflow-archiver.go:98-101 | Any present conclusion, "success" or not, gives the same delivery. |
| Handler.HttpStatusIgnored | workflow-archiver.go:110-113 | The HTTP status of the log response does not change the delivery. |
| Handler.HandleObserved | workflow-archiver.go:67-124 | Two environments that agree on what the handler observes give the same delivery. What it observes excludes the conclusion's value, the response status, and a tolerated container answer. |
| Handler.WorkflowRunNeverDispatched | workflow-archiver.go:63-65 | With the registration as written, a workflow_run delivery never reaches the handler. |
| Handler.PullRequestDeliveryArchivesNothing | workflow-archiver.go:63-84 | With the registration as written, the pull_request deliveries that do reach the handler lack a workflow run and are never "completed". They panic without making a call. |
| Handler.WorkflowRunDispatched | workflow-archiver.go:63-65 | Registered for "workflow_run", a completed run whose calls all succeed is delivered, returns nil and ends with the archived upload. |
| Storage.LogToAzureBlobStorage | workflow-archiver.go:127-176 | The body is read first, and a read failure is wrapped in "failed to convert http.Response to []byte". The calls then run stage after stage and stop at the first failure, with that call's message. Every call gets the arguments `ArchivePlan` names: the gzip writer gets the body read, the client gets `blobUrl`, the container created is `{org}-{repo}`, and the upload sends the compressed body there under the timestamp-UUID blob name. The stage never panics. |
| Storage.CompressAndStore | workflow-archiver.go:137-141 | A gzip failure ends the stage under "failed to compress []byte". Otherwise the credential stage follows, with the compressed bytes as the upload data. |
| Storage.StoreCompressed | workflow-archiver.go:138-141 | After a successful compression, the body is written and the writer closed, and then the compressed bytes it is given are stored. |
| Storage.CloseThenStore | workflow-archiver.go:138-147 | After a successful gzip close, the credential stage follows, with the same service URL, container, blob and data. |
| Storage.StoreBlob | workflow-archiver.go:143-147 | A credential failure ends the stage under "failed to get Azure credential". Otherwise the client is created. |
| Storage.CreateClient | workflow-archiver.go:149-153 | The client is created for the service URL given. Its failure is wrapped in "failed to get Azure Blob client". |
| Storage.EnsureContainer | workflow-archiver.go:155-163 | The container given is created. Success or ContainerAlreadyExists goes on to the upload into the same container. Any other error ends the stage under "failed to create container". |
| Storage.Upload | workflow-archiver.go:168-175 | The upload is the last call. It returns nil when it succeeds, and otherwise its error under "failed to upload buffer". |
| Storage.ContainerErrorOfCode | workflow-archiver.go:158-163 | A ContainerAlreadyExists service error is tolerated however many messages wrap it. Every other service code is a failure, passed on unchanged. |
| Storage.ContainerErrorOfOther | workflow-archiver.go:158-163 | An error that is not a storage-service error, however wrapped, is a container failure, passed on unchanged. |
| Storage.LogToAzureBlobStorageObserved | workflow-archiver.go:127-176 | The stage cannot tell ContainerAlreadyExists from a successful creation, and it ignores the response's status. |
| Compression.Compress | workflow-archiver.go:179-190 | The whole body is written, and the writer is closed only when the write succeeded. The result is the encoded stream exactly when both calls succeed. Otherwise it is the first failing call's error, unwrapped and with no bytes. |
| Naming.PadDecimalFacts | workflow-archiver.go:166 | A zero-padded field is all digits and has the width, or the number's own digit count if that is more. It denotes the number. |
| Naming.TimestampShape | workflow-archiver.go:166 | The layout "20060102150405" gives 14 digits, with year, month, day, hour, minute and second at fixed offsets. |
| Naming.BlobNameShape | workflow-archiver.go:166 | With a 36-character UUID, the blob name is 58 characters: 14 digits, "-", the UUID, ".log.gz". |
| Naming.BlobNameRoundTrip | workflow-archiver.go:166 | Parsing a blob name gives back the clock reading and the UUID it was made from. |
| Naming.TimestampOfParsed | workflow-archiver.go:166 | Every 14-digit string is the timestamp of the clock reading parsed from it. |
| Naming.ParsedBlobNameIsBlobName | workflow-archiver.go:166 | Every string that parses is the blob name of what it parses to. Blob names are exactly the strings of that shape. |
| Naming.SplitContainerNameRoundTrip | workflow-archiver.go:156 | For an owner login without a hyphen, the container name determines the owner and the repository. |
| Naming.ContainerNameCollision | workflow-archiver.go:156 | Owner logins may contain hyphens, and then two owner/repository pairs share one container. |
| Naming.ServiceUrlRoundTrip | workflow-archiver.go:115 | The blob service URL determines the storage account it was built from. |
| Naming.ParsedServiceUrl | workflow-archiver.go:115 | Every string of the service URL's shape is the service URL of the account read from it. |
| Effects.NothingAfterFailure | workflow-archiver.go:86-175 | A failure at stage k leaves at most k+1 calls, none of a later stage, and no nil return. |
| Effects.ChainIsWellRun | workflow-archiver.go:86-175 | A chain of calls runs stage after stage and stops at the first failure. Its error is the failing call's error under its messages. Every call follows the plan, and the run returns nil only after the upload. |
| Base.CauseOfWrapAll | workflow-archiver.go:95 | `errors.Wrap` loses nothing: undoing as many wraps as were made gives the original error back. |
| Base.ServiceCodeOfWrapAll | workflow-archiver.go:159 | The service code that `bloberror.HasCode` looks for is found through any number of messages. |

## Left out

- `readConfig` and `main` (lines 48-61 and 192-231): configuration loading, logger and metrics set-up, client creation and the HTTP server are start-up I/O.
- The GitHub, HTTP, Azure identity and Azure blob SDK calls are not modelled inside: each is an oracle answer in `Env` or `StorageEnv`.
- The gzip algorithm is an opaque `encode` function of the writer. `bytes.Buffer` writes cannot fail and are not modelled.
- `time.Now()` and `uuid.New()` are parameters, a clock reading and a string. Blob names are not proved unique, because uniqueness rests on randomness.
- Naming.BlobNameShape: assumes a 36-character UUID string, the length `uuid.New().String()` always has. The UUID's hexadecimal format is not modelled.
- Naming.TimestampShape: only for clock readings that fit the layout (years 0 to 9999). Go writes more digits for later years and a sign for negative ones, which `Clock`'s natural-number fields cannot express.
- Naming.BlobNameRoundTrip: only for clock readings that fit the layout, for the same reason.
- Calendar validity of the clock reading (months 1-12 and so on) is not required. Formatting and parsing work on any fields that fit.
- Logging through zerolog and `fmt.Printf` (lines 82, 100, 157, 160, 169) has no effect on the result and is not in the trace. Their arguments are still evaluated: the `*event.WorkflowRun.ID` of line 82 is the dereference the model turns into the panic of a non-completed run without a run ID.
- The `ctx` derivation and `context.Background()` carry no data the model uses.
- Every SDK, HTTP and gzip call is assumed to return an answer, so `Handle` is total and every delivery ends in `Done`, `Failed` or `Panicked`. A call that never returns is not modelled. Only the GitHub client has a timeout (3 seconds, line 206). The `http.Get` of line 110 uses Go's default client, which has none, and `io.ReadAll` at line 132 has no time limit. The storage calls run under the `context.Background()` of line 129, so cancelling the delivery does not stop them. A stalled log host or storage endpoint can therefore block a delivery forever.
- `eventType` and `deliveryID` are unused by `Handle`.
- The response body of the log download is never closed. Resource release is not modelled.
- The `int64` run ID is an unbounded `int`. It is only passed through, so no width matters.
- `GetInstallationIDFromEvent` is the `installationId` field of the decoded event.
- JSON decoding is the `parsed` oracle result. Field presence is an `Option`, and a `runId` of `None` covers both a missing `workflow_run` object and a missing `id`.
- A nil `logURL` with a nil error, and a nil `*http.Response` with a nil error, are not modelled. The libraries do not return those pairs.
- Concurrency between deliveries, and the dispatcher's own handling of a panic, are not modelled.
- `github.com/pkg/errors` gives every `Wrap` a message layer and a stack-trace layer. The model merges the two into one `Wrapped`, and the captured stack is not modelled.
- The log body is its own answer (`StorageEnv.readBody`) and is not tied to the `*http.Response` it is read from. Only the response's status is modelled.
- `uuid.New()` panics when the system's random source fails. The model takes the UUID as a given string, so the archive stage never panics.
- The dispatcher that routes a delivery by event type (`Handler.Deliver`) belongs to the githubapp library. It is a plain definition here, used only to state the finding.

## Findings

| source | as written | input that shows it | evidently intended | confidence | as-written member | corrected member |
|---|---|---|---|---|---|---|
| workflow-archiver.go:63-65 | `Handles` registers the handler for "pull_request" events, although `Handle` decodes every payload as a workflow run event and acts only on a "completed" workflow run | a "workflow_run" delivery with action "completed" is never routed to the handler; a "pull_request" delivery is decoded as a workflow run event with no `workflow_run` object and panics at line 82 | register for "workflow_run" | not executed | Handler.WorkflowRunNeverDispatched | Handler.WorkflowRunDispatched |
