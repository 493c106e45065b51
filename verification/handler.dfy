/** `WorkflowHandler.Handle`: one webhook delivery, from the parsed event to
    the archived log, and the event types the handler registers for. */
module Handler {
  import opened Base
  import opened Effects
  import opened Naming
  import opened Compression
  import opened Storage

  /** The fields of a `github.WorkflowRunEvent` the handler reads. A field
      the payload leaves out is `None`; `runId` is `None` when either the
      `workflow_run` object or its `id` is missing. The installation ID is
      whatever `GetInstallationIDFromEvent` returns (0 when absent). */
  datatype Event = Event(
    action: Option<string>,
    owner: Option<string>,
    repo: Option<string>,
    runId: Option<int>,
    installationId: int)

  /** The fetched workflow run; only its conclusion is read. */
  datatype WorkflowRun = WorkflowRun(conclusion: Option<string>)

  /** What the log URL request and the log download return. */
  datatype LogSource = LogSource(logUrl: Result<string>, response: Result<Response>)

  /** Everything outside the handler that one delivery observes: the result
      of decoding the payload and what each external call returns. */
  datatype Env = Env(
    parsed: Result<Event>,
    installationClient: Option<Error>,
    workflowRun: Result<WorkflowRun>,
    logs: LogSource,
    storage: StorageEnv)

  const ParseFailed := "failed to parse workflow run event"
  const Completed := "completed"

  /** What each call from the log URL request on returns. */
  function DownloadAnswers(logs: LogSource, st: StorageEnv): Answers
  {
    StorageAnswers(st).(logUrl := ErrorOf(logs.logUrl), httpGet := ErrorOf(logs.response))
  }

  /** What each call of one delivery returns. */
  function HandleAnswers(env: Env): Answers
  {
    DownloadAnswers(env.logs, env.storage).(installationClient := env.installationClient,
                                             workflowRun := ErrorOf(env.workflowRun))
  }

  lemma DownloadAgreesOnArchive(logs: LogSource, st: StorageEnv)
    ensures forall j :: ReadRank <= j <= UploadRank ==> StageAnswer(StorageAnswers(st), j) == StageAnswer(DownloadAnswers(logs, st), j)
  {
  }

  lemma HandleAgreesOnDownload(env: Env)
    ensures forall j :: LogUrlRank <= j <= UploadRank ==>
              StageAnswer(DownloadAnswers(env.logs, env.storage), j) == StageAnswer(HandleAnswers(env), j)
  {
  }

  /** The log URL the request returns, or nothing when it fails. */
  function LogUrlOf(logs: LogSource): string
  {
    match logs.logUrl
    case Ok(url) => url
    case Err(_) => ""
  }

  /** The arguments of the calls from the workflow run fetch on: the
      repository and run, the log URL returned, and the archive stage's
      arguments with the service URL of `account`. */
  function DeliveryPlan(account: string, logs: LogSource, st: StorageEnv, owner: string, repo: string, id: int): Plan
  {
    ArchivePlan(st, BlobServiceUrl(account), owner, repo).(owner := owner, repo := repo, runId := id,
                                                          logUrl := LogUrlOf(logs))
  }

  /** The call to `logToAzureBlobStorage` and the wrapping of its error. */
  function Archive(account: string, logs: LogSource, st: StorageEnv, owner: string, repo: string, id: int,
                   log: Response): (x: Execution)
    ensures StageRun(x, DownloadAnswers(logs, st), [ArchiveFailed], ReadBody, ArchivePlan(st, BlobServiceUrl(account), owner, repo))
    ensures !x.outcome.Panicked?
  {
    var p := ArchivePlan(st, BlobServiceUrl(account), owner, repo);
    var inner := LogToAzureBlobStorage(st, log, BlobServiceUrl(account), repo, owner, id);
    DownloadAgreesOnArchive(logs, st);
    Reframe(inner.effects, StorageAnswers(st), DownloadAnswers(logs, st), [], inner.outcome, p, p);
    WrappedChain(inner.effects, ArchiveFailed, DownloadAnswers(logs, st), [], inner.outcome, p);
    assert [ArchiveFailed] + [] == [ArchiveFailed];
    Execution(inner.effects, if inner.outcome.Failed? then Failed(Wrapped(ArchiveFailed, inner.outcome.error))
                             else inner.outcome)
  }

  /** `http.Get` of the log URL; the response's status is not consulted. */
  function Download(account: string, logs: LogSource, st: StorageEnv, owner: string, repo: string, id: int,
                    url: string): (x: Execution)
    ensures StageRun(x, DownloadAnswers(logs, st), [ArchiveFailed], HttpGet(url),
                     DeliveryPlan(account, logs, st, owner, repo, id).(logUrl := url))
    ensures !x.outcome.Panicked?
  {
    var p := DeliveryPlan(account, logs, st, owner, repo, id).(logUrl := url);
    match logs.response
    case Err(e) =>
      StageFails(HttpGet(url), DownloadFailed, e, DownloadAnswers(logs, st), [ArchiveFailed], p);
      Execution([HttpGet(url)], Failed(Wrapped(DownloadFailed, e)))
    case Ok(log) =>
      var rest := Archive(account, logs, st, owner, repo, id, log);
      StageSucceeds(HttpGet(url), rest, DownloadAnswers(logs, st), [ArchiveFailed], ReadBody,
                    ArchivePlan(st, BlobServiceUrl(account), owner, repo), p);
      Execution([HttpGet(url)] + rest.effects, rest.outcome)
  }

  /** `GetWorkflowRunLogs`, following redirects, then the download. */
  function FetchLogs(account: string, logs: LogSource, st: StorageEnv, owner: string, repo: string,
                     id: int): (x: Execution)
    ensures StageRun(x, DownloadAnswers(logs, st), [ArchiveFailed], GetWorkflowRunLogs(owner, repo, id, true),
                     DeliveryPlan(account, logs, st, owner, repo, id))
    ensures !x.outcome.Panicked?
  {
    var call := GetWorkflowRunLogs(owner, repo, id, true);
    var p := DeliveryPlan(account, logs, st, owner, repo, id);
    match logs.logUrl
    case Err(e) =>
      StageFails(call, LogUrlFailed, e, DownloadAnswers(logs, st), [ArchiveFailed], p);
      Execution([call], Failed(Wrapped(LogUrlFailed, e)))
    case Ok(url) =>
      var rest := Download(account, logs, st, owner, repo, id, url);
      StageSucceeds(call, rest, DownloadAnswers(logs, st), [ArchiveFailed], HttpGet(url), p, p);
      Execution([call] + rest.effects, rest.outcome)
  }

  /** `GetWorkflowRunByID`, the read of its conclusion (a missing one
      panics, one other than "success" is only logged), then the logs. */
  function FetchRun(account: string, env: Env, owner: string, repo: string, id: int): (x: Execution)
    ensures StageRun(x, HandleAnswers(env), [ArchiveFailed], GetWorkflowRun(owner, repo, id),
                     DeliveryPlan(account, env.logs, env.storage, owner, repo, id))
    ensures x.outcome.Panicked? <==> env.workflowRun.Ok? && env.workflowRun.value.conclusion.None?
    ensures x.outcome.Panicked? ==> x.effects == [GetWorkflowRun(owner, repo, id)]
  {
    var call := GetWorkflowRun(owner, repo, id);
    var p := DeliveryPlan(account, env.logs, env.storage, owner, repo, id);
    match env.workflowRun
    case Err(e) =>
      StageFails(call, FetchRunFailed, e, HandleAnswers(env), [ArchiveFailed], p);
      Execution([call], Failed(Wrapped(FetchRunFailed, e)))
    case Ok(run) =>
      if run.conclusion.None? then Execution([call], Panicked)
      else
        var rest := FetchLogs(account, env.logs, env.storage, owner, repo, id);
        var next := GetWorkflowRunLogs(owner, repo, id, true);
        HandleAgreesOnDownload(env);
        Reframe(rest.effects, DownloadAnswers(env.logs, env.storage), HandleAnswers(env), [ArchiveFailed],
                rest.outcome, p, p);
        StageSucceeds(call, rest, HandleAnswers(env), [ArchiveFailed], next, p, p);
        Execution([call] + rest.effects, rest.outcome)
  }

  /** The repository and run identifiers the calls after the installation
      client dereference are present. */
  predicate Addressable(ev: Event)
  {
    ev.owner.Some? && ev.repo.Some? && ev.runId.Some?
  }

  /** The arguments every call of a delivery of `ev` is meant to get. */
  function HandlePlan(account: string, env: Env, ev: Event): Plan
  {
    DeliveryPlan(account, env.logs, env.storage, ValueOr(ev.owner, ""), ValueOr(ev.repo, ""), ValueOr(ev.runId, 0))
      .(installationId := ev.installationId)
  }

  /** A completed run: the installation client, then the rest. The
      client's error is returned without a message; a missing owner,
      repository name or run ID panics at the next dereference, and a
      missing conclusion only after the run was fetched. */
  function HandleCompleted(account: string, env: Env, ev: Event): (x: Execution)
    ensures StageRun(x, HandleAnswers(env), [ArchiveFailed], NewInstallationClient(ev.installationId),
                     HandlePlan(account, env, ev))
    ensures x.outcome.Panicked? <==>
              env.installationClient.None? &&
              (!Addressable(ev) || (env.workflowRun.Ok? && env.workflowRun.value.conclusion.None?))
    ensures env.installationClient.None? && !Addressable(ev) ==>
              x == Execution([NewInstallationClient(ev.installationId)], Panicked)
    ensures x.outcome.Panicked? && Addressable(ev) ==>
              x.effects == [NewInstallationClient(ev.installationId),
                            GetWorkflowRun(ev.owner.value, ev.repo.value, ev.runId.value)]
  {
    var call := NewInstallationClient(ev.installationId);
    var p := HandlePlan(account, env, ev);
    if env.installationClient.Some? then Execution([call], Failed(env.installationClient.value))
    else if !Addressable(ev) then Execution([call], Panicked)
    else
      var rest := FetchRun(account, env, ev.owner.value, ev.repo.value, ev.runId.value);
      StageSucceeds(call, rest, HandleAnswers(env), [ArchiveFailed], GetWorkflowRun(ev.owner.value, ev.repo.value, ev.runId.value),
                    DeliveryPlan(account, env.logs, env.storage, ev.owner.value, ev.repo.value, ev.runId.value), p);
      Execution([call] + rest.effects, rest.outcome)
  }

  /** One delivery, with `account` the storage account name. A payload that
      does not decode returns an error before any call; an action other than
      "completed" makes no call; a missing field the code dereferences
      panics, and nothing else does. Every call belongs to the stage after
      the previous one's and gets the arguments `HandlePlan` names; the
      first failure ends the run with that call's error in its messages. */
  function Handle(account: string, env: Env): (x: Execution)
    ensures Consecutive(x.effects) && (|x.effects| > 0 ==> Rank(x.effects[0]) == 0)
    ensures ShortCircuit(x, HandleAnswers(env), [ArchiveFailed])
    ensures |x.effects| > 0 <==> env.parsed.Ok? && env.parsed.value.action == Some(Completed)
    ensures env.parsed.Err? ==> x.outcome == Failed(Wrapped(ParseFailed, env.parsed.error))
    ensures env.parsed.Ok? && env.parsed.value.action.Some? && env.parsed.value.action.value != Completed ==>
              (x.outcome.Done? <==> env.parsed.value.runId.Some?) && (x.outcome.Panicked? <==> env.parsed.value.runId.None?)
    ensures x.outcome.Panicked? <==>
              env.parsed.Ok? &&
              (|| env.parsed.value.action.None?
               || (env.parsed.value.action.value != Completed && env.parsed.value.runId.None?)
               || (&& env.parsed.value.action.value == Completed && env.installationClient.None?
                   && (|| !Addressable(env.parsed.value)
                       || (env.workflowRun.Ok? && env.workflowRun.value.conclusion.None?))))
    ensures env.parsed.Ok? && env.parsed.value.action == Some(Completed) && !Addressable(env.parsed.value) ==>
              |x.effects| == 1
    ensures x.outcome.Panicked? ==> |x.effects| <= 2
    ensures x.outcome.Panicked? && Completes(env) && Addressable(env.parsed.value) ==>
              var ev := env.parsed.value;
              x.effects == [NewInstallationClient(ev.installationId),
                            GetWorkflowRun(ev.owner.value, ev.repo.value, ev.runId.value)]
    ensures x.outcome.Done? && |x.effects| > 0 ==> x.effects[|x.effects| - 1].UploadBuffer?
    ensures env.parsed.Ok? ==> FollowsPlan(x.effects, HandlePlan(account, env, env.parsed.value))
  {
    match env.parsed
    case Err(e) => Execution([], Failed(Wrapped(ParseFailed, e)))
    case Ok(ev) =>
      if ev.action.None? then Execution([], Panicked)
      else if ev.action.value != Completed then
        Execution([], if ev.runId.Some? then Done else Panicked)
      else
        var x := HandleCompleted(account, env, ev);
        ChainIsWellRun(x.effects, HandleAnswers(env), [ArchiveFailed], x.outcome, HandlePlan(account, env, ev));
        x
  }

  /** The event got past the action check: it decoded and is "completed". */
  predicate Completes(env: Env)
  {
    env.parsed.Ok? && env.parsed.value.action == Some(Completed)
  }

  /** An action other than "completed" is a no-op: no call is made and
      nothing any service would return changes the result. */
  lemma NotCompletedIsNoOp(account: string, env: Env, other: Env)
    requires env.parsed.Ok? && env.parsed.value.action.Some? && env.parsed.value.action.value != Completed
    requires other.parsed == env.parsed
    ensures Handle(account, env).effects == []
    ensures Handle(account, env) == Handle(account, other)
  {
  }

  /** Once past the action check, when the call of stage `k` fails no later
      stage runs and the delivery does not succeed. */
  lemma HandleStopsAtFailure(account: string, env: Env, k: nat)
    requires Completes(env)
    requires k <= UploadRank && StageAnswer(HandleAnswers(env), k).Some?
    ensures var x := Handle(account, env);
            && (forall i :: 0 <= i < |x.effects| ==> Rank(x.effects[i]) <= k)
            && !x.outcome.Done?
  {
    var x := Handle(account, env);
    NothingAfterFailure(x, HandleAnswers(env), [ArchiveFailed], k);
  }

  /** A failed gzip write or close leaves storage untouched: no credential,
      client, container or upload call is made. */
  lemma CompressionFailureLeavesStorageUntouched(account: string, env: Env)
    requires env.storage.gzip.writeErr.Some? || env.storage.gzip.closeErr.Some?
    ensures var x := Handle(account, env);
            forall i :: 0 <= i < |x.effects| ==> !IsStorageCall(x.effects[i])
  {
    if Completes(env) {
      var k := if env.storage.gzip.writeErr.Some? then WriteRank else CloseRank;
      HandleStopsAtFailure(account, env, k);
    }
  }

  /** Storage is touched only after the body was read and compressed: any
      storage call is preceded by a successful body read, gzip write and
      gzip close, in that order. */
  lemma StorageAfterCompression(account: string, env: Env, j: nat)
    ensures var x := Handle(account, env);
            j < |x.effects| && IsStorageCall(x.effects[j]) ==>
              && ReadRank + 2 < j
              && x.effects[ReadRank] == ReadBody
              && x.effects[ReadRank + 1].GzipWrite?
              && x.effects[ReadRank + 2] == GzipClose
              && env.storage.readBody.Ok? && env.storage.gzip.writeErr.None? && env.storage.gzip.closeErr.None?
  {
    var x := Handle(account, env);
    if j < |x.effects| && IsStorageCall(x.effects[j]) {
      StorageRunPassedCompression(x, HandleAnswers(env), j);
    }
  }

  lemma StorageRunPassedCompression(x: Execution, a: Answers, j: nat)
    requires WellRun(x, a, [ArchiveFailed]) && Rank(x.effects[0]) == 0
    requires j < |x.effects| && IsStorageCall(x.effects[j])
    ensures ReadRank + 2 < j
    ensures x.effects[ReadRank] == ReadBody
    ensures x.effects[ReadRank + 1].GzipWrite?
    ensures x.effects[ReadRank + 2] == GzipClose
    ensures a.readBody.None? && a.gzipWrite.None? && a.gzipClose.None?
  {
    assert Rank(x.effects[j]) == j;
    assert Rank(x.effects[4]) == 4 && Answer(a, x.effects[4]).None?;
    assert Rank(x.effects[5]) == 5 && Answer(a, x.effects[5]).None?;
    assert Rank(x.effects[6]) == 6 && Answer(a, x.effects[6]).None?;
  }

  /** A container error other than ContainerAlreadyExists aborts the
      delivery: no upload, and when the creation was attempted the delivery
      returns that error under the container and archive messages. */
  lemma OtherContainerErrorAborts(account: string, env: Env)
    requires env.storage.createContainer.Some? && !HasCode(env.storage.createContainer, ContainerAlreadyExists)
    ensures var x := Handle(account, env);
            && (forall i :: 0 <= i < |x.effects| ==> !x.effects[i].UploadBuffer?)
            && (|x.effects| == ContainerRank + 1 ==>
                  x.outcome == Failed(Wrapped(ArchiveFailed, Wrapped(ContainerFailed, env.storage.createContainer.value))))
  {
    var x := Handle(account, env);
    if Completes(env) {
      ContainerFailureEndsRun(x, HandleAnswers(env), env.storage.createContainer.value);
    }
  }

  lemma ContainerFailureEndsRun(x: Execution, a: Answers, err: Error)
    requires WellRun(x, a, [ArchiveFailed]) && Rank(x.effects[0]) == 0
    requires x.outcome.Done? ==> x.effects[|x.effects| - 1].UploadBuffer?
    requires a.createContainer == Some(err)
    ensures forall i :: 0 <= i < |x.effects| ==> !x.effects[i].UploadBuffer?
    ensures |x.effects| == ContainerRank + 1 ==>
              x.outcome == Failed(Wrapped(ArchiveFailed, Wrapped(ContainerFailed, err)))
  {
    NothingAfterFailure(x, a, [ArchiveFailed], ContainerRank);
    var last := x.effects[|x.effects| - 1];
    if |x.effects| == ContainerRank + 1 {
      assert Rank(last) == ContainerRank;
      assert Context(last, [ArchiveFailed]) == [ArchiveFailed, ContainerFailed];
      assert [ArchiveFailed, ContainerFailed][1..] == [ContainerFailed];
      WrapAllSingle(ContainerFailed, err);
    }
  }

  /** A delivery that returns nil after making calls ran every stage, once,
      and every call succeeded. */
  lemma DoneMeansArchived(account: string, env: Env)
    ensures var x := Handle(account, env);
            x.outcome.Done? && Completes(env) ==>
              && |x.effects| == UploadRank + 1
              && forall k :: 0 <= k <= UploadRank ==> StageAnswer(HandleAnswers(env), k).None?
  {
    var x := Handle(account, env);
    if x.outcome.Done? && Completes(env) {
      DoneRunPassedEveryStage(x, HandleAnswers(env));
    }
  }

  lemma DoneRunPassedEveryStage(x: Execution, a: Answers)
    requires WellRun(x, a, [ArchiveFailed]) && Rank(x.effects[0]) == 0
    requires x.outcome.Done? && x.effects[|x.effects| - 1].UploadBuffer?
    ensures |x.effects| == UploadRank + 1
    ensures forall k :: 0 <= k <= UploadRank ==> StageAnswer(a, k).None?
  {
    assert Rank(x.effects[|x.effects| - 1]) == |x.effects| - 1;
    forall k | 0 <= k <= UploadRank
      ensures StageAnswer(a, k).None?
    {
      AnswerOfStage(a, x.effects[k]);
    }
  }

  /** When every call succeeds and the event carries every field the code
      reads, the delivery runs all stages, ends with the archived upload and
      returns nil. */
  lemma EverySuccessArchives(account: string, env: Env)
    requires Completes(env) && Addressable(env.parsed.value)
    requires env.workflowRun.Ok? && env.workflowRun.value.conclusion.Some? && env.storage.readBody.Ok?
    requires forall k :: 0 <= k <= UploadRank ==> StageAnswer(HandleAnswers(env), k).None?
    ensures var x := Handle(account, env);
            && x.outcome == Done
            && |x.effects| == UploadRank + 1
            && x.effects[UploadRank] == UploadBuffer(ContainerName(env.parsed.value.owner.value, env.parsed.value.repo.value),
                                                     BlobName(env.storage.now, env.storage.uuid),
                                                     env.storage.gzip.encode(env.storage.readBody.value))
  {
    var x := Handle(account, env);
    SuccessfulRunEndsInUpload(x, HandleAnswers(env));
    UploadFollowsHandlePlan(account, env, x, UploadRank);
  }

  lemma SuccessfulRunEndsInUpload(x: Execution, a: Answers)
    requires WellRun(x, a, [ArchiveFailed]) && Rank(x.effects[0]) == 0
    requires x.outcome.Done? ==> x.effects[|x.effects| - 1].UploadBuffer?
    requires !x.outcome.Panicked?
    requires forall k :: 0 <= k <= UploadRank ==> StageAnswer(a, k).None?
    ensures x.outcome == Done && |x.effects| == UploadRank + 1 && x.effects[UploadRank].UploadBuffer?
  {
    var last := x.effects[|x.effects| - 1];
    assert Rank(last) == |x.effects| - 1;
    AnswerOfStage(a, last);
  }

  /** What the upload sends: the compressed log body, into the
      `{owner}-{repo}` container, under the blob name built from the clock
      and the UUID; and it is the last call of a run that reached it. */
  lemma UploadSendsCompressedBody(account: string, env: Env, j: nat)
    ensures var x := Handle(account, env);
            j < |x.effects| && x.effects[j].UploadBuffer? ==>
              && j == UploadRank && j == |x.effects| - 1
              && env.parsed.Ok? && Addressable(env.parsed.value) && env.storage.readBody.Ok?
              && x.effects[j] == UploadBuffer(ContainerName(env.parsed.value.owner.value, env.parsed.value.repo.value),
                                              BlobName(env.storage.now, env.storage.uuid),
                                              env.storage.gzip.encode(env.storage.readBody.value))
  {
    var x := Handle(account, env);
    if j < |x.effects| && x.effects[j].UploadBuffer? {
      UploadFollowsHandlePlan(account, env, x, j);
    }
  }

  /** An upload in a run with what `Handle` guarantees is the archived
      one, and the event and body it needs were there. */
  lemma UploadFollowsHandlePlan(account: string, env: Env, x: Execution, j: nat)
    requires WellRun(x, HandleAnswers(env), [ArchiveFailed]) && Rank(x.effects[0]) == 0
    requires env.parsed.Ok? && FollowsPlan(x.effects, HandlePlan(account, env, env.parsed.value))
    requires !Addressable(env.parsed.value) ==> |x.effects| == 1
    requires j < |x.effects| && x.effects[j].UploadBuffer?
    ensures j == UploadRank && j == |x.effects| - 1
    ensures Addressable(env.parsed.value) && env.storage.readBody.Ok?
    ensures x.effects[j] == UploadBuffer(ContainerName(env.parsed.value.owner.value, env.parsed.value.repo.value),
                                         BlobName(env.storage.now, env.storage.uuid),
                                         env.storage.gzip.encode(env.storage.readBody.value))
  {
    UploadRunPassedEveryStage(x, HandleAnswers(env), j);
    assert StageAnswer(HandleAnswers(env), ReadRank).None?;
    assert Follows(HandlePlan(account, env, env.parsed.value), x.effects[j]);
  }

  /** Every call gets the arguments the code builds for it: the event's
      installation, owner, repository and run ID, the log URL returned,
      the body read, the service URL of the configured account and the
      `{owner}-{repo}` container. */
  lemma CallsGetTheirArguments(account: string, env: Env, j: nat)
    ensures var x := Handle(account, env);
            j < |x.effects| ==> CallHasItsArguments(account, env, x.effects[j])
  {
    var x := Handle(account, env);
    if j < |x.effects| {
      CallFollowsHandlePlan(account, env, x, j);
    }
  }

  /** What call `e` of a delivery of the decoded event gets. */
  predicate CallHasItsArguments(account: string, env: Env, e: Effect)
  {
    && env.parsed.Ok?
    && var ev := env.parsed.value;
    match e
    case NewInstallationClient(id) => id == ev.installationId
    case GetWorkflowRun(owner, repo, id) =>
      Addressable(ev) && owner == ev.owner.value && repo == ev.repo.value && id == ev.runId.value
    case GetWorkflowRunLogs(owner, repo, id, follow) =>
      Addressable(ev) && owner == ev.owner.value && repo == ev.repo.value && id == ev.runId.value && follow
    case HttpGet(url) => env.logs.logUrl == Ok(url)
    case ReadBody => true
    case GzipWrite(body) => env.storage.readBody == Ok(body)
    case GzipClose => true
    case NewCredential => true
    case NewBlobClient(url) => url == BlobServiceUrl(account)
    case CreateContainer(container) => Addressable(ev) && container == ContainerName(ev.owner.value, ev.repo.value)
    case UploadBuffer(container, blob, data) =>
      && Addressable(ev) && env.storage.readBody.Ok?
      && container == ContainerName(ev.owner.value, ev.repo.value)
      && blob == BlobName(env.storage.now, env.storage.uuid)
      && data == env.storage.gzip.encode(env.storage.readBody.value)
  }

  lemma CallFollowsHandlePlan(account: string, env: Env, x: Execution, j: nat)
    requires WellRun(x, HandleAnswers(env), [ArchiveFailed]) && Rank(x.effects[0]) == 0
    requires env.parsed.Ok? && FollowsPlan(x.effects, HandlePlan(account, env, env.parsed.value))
    requires !Addressable(env.parsed.value) ==> |x.effects| == 1
    requires j < |x.effects|
    ensures CallHasItsArguments(account, env, x.effects[j])
  {
    var e := x.effects[j];
    assert Rank(e) == j;
    assert Follows(HandlePlan(account, env, env.parsed.value), e);
    if j > LogUrlRank {
      assert Rank(x.effects[LogUrlRank]) == LogUrlRank;
      assert Answer(HandleAnswers(env), x.effects[LogUrlRank]).None?;
    }
    if j > ReadRank {
      assert Rank(x.effects[ReadRank]) == ReadRank;
      assert Answer(HandleAnswers(env), x.effects[ReadRank]).None?;
    }
  }

  /** A run from stage 0 that reaches the upload passed every earlier stage. */
  lemma UploadRunPassedEveryStage(x: Execution, a: Answers, j: nat)
    requires WellRun(x, a, [ArchiveFailed]) && Rank(x.effects[0]) == 0
    requires j < |x.effects| && x.effects[j].UploadBuffer?
    ensures j == UploadRank && j == |x.effects| - 1
    ensures forall k :: 0 <= k < UploadRank ==> StageAnswer(a, k).None?
  {
    assert Rank(x.effects[j]) == j;
    forall k | 0 <= k < UploadRank
      ensures StageAnswer(a, k).None?
    {
      assert Rank(x.effects[k]) == k;
    }
  }

  /** A returned error keeps the failing call's error as its cause: peeling
      the messages the program added gives it back. */
  lemma ErrorKeepsCause(account: string, env: Env)
    requires Handle(account, env).outcome.Failed? && Completes(env)
    ensures var x := Handle(account, env);
            var last := x.effects[|x.effects| - 1];
            var depth := |Context(last, [ArchiveFailed])|;
            && Answer(HandleAnswers(env), last).Some?
            && Cause(x.outcome.error, depth) == Answer(HandleAnswers(env), last).value
  {
    var x := Handle(account, env);
    var last := x.effects[|x.effects| - 1];
    CauseOfWrapAll(Context(last, [ArchiveFailed]), Answer(HandleAnswers(env), last).value);
  }

  /** What the handler acts on. It forgets the value of a present
      conclusion (a non-"success" one is only logged), the status of the
      log response (never consulted), and whether a tolerated container
      answer was a success or ContainerAlreadyExists. */
  function Observation(env: Env): Env
  {
    env.(workflowRun := match env.workflowRun
                        case Ok(WorkflowRun(Some(_))) => Ok(WorkflowRun(Some("success")))
                        case _ => env.workflowRun,
         logs := env.logs.(response := match env.logs.response
                                      case Ok(_) => Ok(Response(200))
                                      case Err(_) => env.logs.response),
         storage := Observed(env.storage))
  }

  lemma ArchiveObserved(account: string, env1: Env, env2: Env, owner: string, repo: string, id: int,
                        log1: Response, log2: Response)
    requires Observation(env1) == Observation(env2)
    ensures Archive(account, env1.logs, env1.storage, owner, repo, id, log1)
         == Archive(account, env2.logs, env2.storage, owner, repo, id, log2)
  {
    LogToAzureBlobStorageObserved(env1.storage, env2.storage, log1, log2, BlobServiceUrl(account), repo, owner, id);
  }

  lemma DownloadObserved(account: string, env1: Env, env2: Env, owner: string, repo: string, id: int, url: string)
    requires Observation(env1) == Observation(env2)
    ensures Download(account, env1.logs, env1.storage, owner, repo, id, url)
         == Download(account, env2.logs, env2.storage, owner, repo, id, url)
  {
    if env1.logs.response.Ok? {
      ArchiveObserved(account, env1, env2, owner, repo, id, env1.logs.response.value, env2.logs.response.value);
    }
  }

  lemma FetchLogsObserved(account: string, env1: Env, env2: Env, owner: string, repo: string, id: int)
    requires Observation(env1) == Observation(env2)
    ensures FetchLogs(account, env1.logs, env1.storage, owner, repo, id)
         == FetchLogs(account, env2.logs, env2.storage, owner, repo, id)
  {
    if env1.logs.logUrl.Ok? {
      DownloadObserved(account, env1, env2, owner, repo, id, env1.logs.logUrl.value);
    }
  }

  lemma FetchRunObserved(account: string, env1: Env, env2: Env, owner: string, repo: string, id: int)
    requires Observation(env1) == Observation(env2)
    ensures FetchRun(account, env1, owner, repo, id) == FetchRun(account, env2, owner, repo, id)
  {
    FetchLogsObserved(account, env1, env2, owner, repo, id);
  }

  lemma HandleCompletedObserved(account: string, env1: Env, env2: Env, ev: Event)
    requires Observation(env1) == Observation(env2)
    ensures HandleCompleted(account, env1, ev) == HandleCompleted(account, env2, ev)
  {
    if Addressable(ev) {
      FetchRunObserved(account, env1, env2, ev.owner.value, ev.repo.value, ev.runId.value);
    }
  }

  /** A delivery depends on what the services return only through what the
      handler observes. */
  lemma HandleObserved(account: string, env1: Env, env2: Env)
    requires Observation(env1) == Observation(env2)
    ensures Handle(account, env1) == Handle(account, env2)
  {
    if env1.parsed.Ok? {
      HandleCompletedObserved(account, env1, env2, env1.parsed.value);
    }
  }

  /** ContainerAlreadyExists counts as success: the delivery behaves
      exactly as if the container had just been created. */
  lemma AlreadyExistsIsSuccess(account: string, env: Env)
    requires HasCode(env.storage.createContainer, ContainerAlreadyExists)
    ensures Handle(account, env) == Handle(account, env.(storage := env.storage.(createContainer := None)))
  {
    HandleObserved(account, env, env.(storage := env.storage.(createContainer := None)));
  }

  /** A conclusion other than "success" is only logged: whatever the
      fetched run's conclusion, the delivery behaves the same. */
  lemma ConclusionIsOnlyLogged(account: string, env: Env, conclusion: string)
    requires env.workflowRun.Ok? && env.workflowRun.value.conclusion.Some?
    ensures Handle(account, env) == Handle(account, env.(workflowRun := Ok(WorkflowRun(Some(conclusion)))))
  {
    HandleObserved(account, env, env.(workflowRun := Ok(WorkflowRun(Some(conclusion)))));
  }

  /** The HTTP status of the log download is never checked: an error page
      is archived like a log. */
  lemma HttpStatusIgnored(account: string, env: Env, status: int)
    requires env.logs.response.Ok?
    ensures Handle(account, env) == Handle(account, env.(logs := env.logs.(response := Ok(Response(status)))))
  {
    HandleObserved(account, env, env.(logs := env.logs.(response := Ok(Response(status)))));
  }

  /** The event types `Handles` registers the handler for, as written. */
  function HandlesAsWritten(): seq<string>
  {
    ["pull_request"]
  }

  /** The event types the handler is evidently meant for: it decodes every
      payload as a workflow run event. */
  function HandledEventTypes(): seq<string>
  {
    ["workflow_run"]
  }

  /** The dispatcher: a delivery whose event type the handler registered is
      passed to `Handle`; any other is not routed to it. */
  function Deliver(registered: seq<string>, eventType: string, account: string, env: Env): Option<Execution>
  {
    if eventType in registered then Some(Handle(account, env)) else None
  }

  /** As written, no workflow run delivery ever reaches the handler, so no
      log is ever archived. */
  lemma WorkflowRunNeverDispatched(account: string, env: Env)
    ensures Deliver(HandlesAsWritten(), "workflow_run", account, env) == None
  {
    assert HandlesAsWritten()[0] != "workflow_run";
  }

  /** As written, what does reach the handler is a pull request delivery. Its
      payload has no `workflow_run` object and none of its actions is
      "completed", so decoded it either panics or returns without a call. */
  lemma PullRequestDeliveryArchivesNothing(account: string, env: Env)
    requires env.parsed.Ok? && env.parsed.value.runId.None? && env.parsed.value.action != Some(Completed)
    ensures var r := Deliver(HandlesAsWritten(), "pull_request", account, env);
            r.Some? && r.value == Execution([], Panicked)
  {
  }

  /** Registered for workflow run deliveries, every one reaches `Handle`,
      and a completed run whose calls all succeed is archived. */
  lemma WorkflowRunDispatched(account: string, env: Env)
    requires Completes(env) && Addressable(env.parsed.value)
    requires env.workflowRun.Ok? && env.workflowRun.value.conclusion.Some? && env.storage.readBody.Ok?
    requires forall k :: 0 <= k <= UploadRank ==> StageAnswer(HandleAnswers(env), k).None?
    ensures var r := Deliver(HandledEventTypes(), "workflow_run", account, env);
            && r.Some? && r.value.outcome == Done
            && r.value.effects[|r.value.effects| - 1]
               == UploadBuffer(ContainerName(env.parsed.value.owner.value, env.parsed.value.repo.value),
                               BlobName(env.storage.now, env.storage.uuid),
                               env.storage.gzip.encode(env.storage.readBody.value))
  {
    EverySuccessArchives(account, env);
  }
}
