/** The observable behaviour of one webhook delivery: the calls into
    external code it makes, in order, and how it ends. */
module Effects {
  import opened Base

  /** One call into code outside this program, with the arguments passed. */
  datatype Effect =
    | NewInstallationClient(installationId: int)
    | GetWorkflowRun(owner: string, repo: string, runId: int)
    | GetWorkflowRunLogs(owner: string, repo: string, runId: int, followRedirects: bool)
    | HttpGet(url: string)
    | ReadBody
    | GzipWrite(data: seq<Byte>)
    | GzipClose
    | NewCredential
    | NewBlobClient(serviceUrl: string)
    | CreateContainer(container: string)
    | UploadBuffer(container: string, blob: string, data: seq<Byte>)

  /** How a delivery ends: `nil`, a returned error, or a nil-pointer panic. */
  datatype Outcome = Done | Failed(error: Error) | Panicked

  datatype Execution = Execution(effects: seq<Effect>, outcome: Outcome)

  /** The ranks of the stages the properties single out; the upload is
      the last stage. */
  const LogUrlRank := 2
  const ReadRank := 4
  const WriteRank := 5
  const CloseRank := 6
  const CredentialRank := 7
  const ContainerRank := 9
  const UploadRank := 10

  /** Position of each kind of call in the pipeline. */
  function Rank(e: Effect): (k: nat)
    ensures k <= UploadRank
  {
    match e
    case NewInstallationClient(_) => 0
    case GetWorkflowRun(_, _, _) => 1
    case GetWorkflowRunLogs(_, _, _, _) => LogUrlRank
    case HttpGet(_) => 3
    case ReadBody => ReadRank
    case GzipWrite(_) => WriteRank
    case GzipClose => CloseRank
    case NewCredential => CredentialRank
    case NewBlobClient(_) => 8
    case CreateContainer(_) => ContainerRank
    case UploadBuffer(_, _, _) => UploadRank
  }

  /** Calls that touch the storage account (credential, client, container, blob). */
  predicate IsStorageCall(e: Effect)
  {
    Rank(e) >= CredentialRank
  }

  /** Calls made inside `logToAzureBlobStorage`. */
  predicate IsArchiveCall(e: Effect)
  {
    Rank(e) >= ReadRank
  }

  /** What each external call returns in one delivery: `None` for success.
      For container creation, only a failure the program does not tolerate. */
  datatype Answers = Answers(
    installationClient: Option<Error>,
    workflowRun: Option<Error>,
    logUrl: Option<Error>,
    httpGet: Option<Error>,
    readBody: Option<Error>,
    gzipWrite: Option<Error>,
    gzipClose: Option<Error>,
    credential: Option<Error>,
    blobClient: Option<Error>,
    createContainer: Option<Error>,
    upload: Option<Error>)

  /** The arguments each call of one delivery is meant to get: the
      installation, the repository and run it names, the log URL, the
      storage service URL, the log body, and the container, blob name and
      bytes of the upload. */
  datatype Plan = Plan(
    installationId: int,
    owner: string,
    repo: string,
    runId: int,
    logUrl: string,
    serviceUrl: string,
    body: seq<Byte>,
    container: string,
    blob: string,
    data: seq<Byte>)

  /** Call `e` gets the arguments `p` plans for its stage. */
  predicate Follows(p: Plan, e: Effect)
  {
    match e
    case NewInstallationClient(id) => id == p.installationId
    case GetWorkflowRun(owner, repo, id) => owner == p.owner && repo == p.repo && id == p.runId
    case GetWorkflowRunLogs(owner, repo, id, follow) => owner == p.owner && repo == p.repo && id == p.runId && follow
    case HttpGet(url) => url == p.logUrl
    case ReadBody => true
    case GzipWrite(data) => data == p.body
    case GzipClose => true
    case NewCredential => true
    case NewBlobClient(url) => url == p.serviceUrl
    case CreateContainer(container) => container == p.container
    case UploadBuffer(container, blob, data) => container == p.container && blob == p.blob && data == p.data
  }

  /** Every call of `effects` follows `p`. */
  predicate FollowsPlan(effects: seq<Effect>, p: Plan)
  {
    forall i :: 0 <= i < |effects| ==> Follows(p, effects[i])
  }

  /** Two plans agree on the arguments of every stage from `k` on. */
  predicate AgreeFrom(p1: Plan, p2: Plan, k: nat)
  {
    && (k == 0 ==> p1.installationId == p2.installationId)
    && (k <= LogUrlRank ==> p1.owner == p2.owner && p1.repo == p2.repo && p1.runId == p2.runId)
    && (k <= 3 ==> p1.logUrl == p2.logUrl)
    && (k <= WriteRank ==> p1.body == p2.body)
    && (k <= 8 ==> p1.serviceUrl == p2.serviceUrl)
    && p1.container == p2.container && p1.blob == p2.blob && p1.data == p2.data
  }

  /** The answer of the call of stage `k`. */
  function StageAnswer(a: Answers, k: nat): Option<Error>
  {
    if k == 0 then a.installationClient
    else if k == 1 then a.workflowRun
    else if k == 2 then a.logUrl
    else if k == 3 then a.httpGet
    else if k == 4 then a.readBody
    else if k == 5 then a.gzipWrite
    else if k == 6 then a.gzipClose
    else if k == 7 then a.credential
    else if k == 8 then a.blobClient
    else if k == 9 then a.createContainer
    else a.upload
  }

  /** The answer of call `e`. */
  function Answer(a: Answers, e: Effect): Option<Error>
  {
    match e
    case NewInstallationClient(_) => a.installationClient
    case GetWorkflowRun(_, _, _) => a.workflowRun
    case GetWorkflowRunLogs(_, _, _, _) => a.logUrl
    case HttpGet(_) => a.httpGet
    case ReadBody => a.readBody
    case GzipWrite(_) => a.gzipWrite
    case GzipClose => a.gzipClose
    case NewCredential => a.credential
    case NewBlobClient(_) => a.blobClient
    case CreateContainer(_) => a.createContainer
    case UploadBuffer(_, _, _) => a.upload
  }

  /** A call's answer is the answer of its stage. */
  lemma AnswerOfStage(a: Answers, e: Effect)
    ensures Answer(a, e) == StageAnswer(a, Rank(e))
  {
  }

  const FetchRunFailed := "failed to get workflow run"
  const LogUrlFailed := "failed to get workflow run log URL"
  const DownloadFailed := "failed to get workflow run logs"
  const ArchiveFailed := "failed to log to Azure Blob Storage"
  const ReadFailed := "failed to convert http.Response to []byte"
  const CompressFailed := "failed to compress []byte"
  const CredentialFailed := "failed to get Azure credential"
  const BlobClientFailed := "failed to get Azure Blob client"
  const ContainerFailed := "failed to create container"
  const UploadFailed := "failed to upload buffer"

  /** The message the program wraps around a failure of each call at the
      place it happens; an installation-client failure is returned as is. */
  function LocalContext(e: Effect): seq<string>
  {
    match e
    case NewInstallationClient(_) => []
    case GetWorkflowRun(_, _, _) => [FetchRunFailed]
    case GetWorkflowRunLogs(_, _, _, _) => [LogUrlFailed]
    case HttpGet(_) => [DownloadFailed]
    case ReadBody => [ReadFailed]
    case GzipWrite(_) => [CompressFailed]
    case GzipClose => [CompressFailed]
    case NewCredential => [CredentialFailed]
    case NewBlobClient(_) => [BlobClientFailed]
    case CreateContainer(_) => [ContainerFailed]
    case UploadBuffer(_, _, _) => [UploadFailed]
  }

  /** All messages around a failure of `e`, outermost first, where `outer`
      is what the caller of `logToAzureBlobStorage` adds to its errors. */
  function Context(e: Effect, outer: seq<string>): (c: seq<string>)
    ensures outer == [] ==> c == LocalContext(e)
  {
    assert [] + LocalContext(e) == LocalContext(e);
    if IsArchiveCall(e) then outer + LocalContext(e) else LocalContext(e)
  }

  /** The first failure aborts everything after it: every call but the
      last succeeded; the run returns an error exactly when its last call
      failed, and then that call's error wrapped in its context messages. */
  predicate ShortCircuit(x: Execution, answers: Answers, outer: seq<string>)
  {
    && (forall i :: 0 <= i < |x.effects| - 1 ==> Answer(answers, x.effects[i]).None?)
    && (|x.effects| > 0 ==>
          var last := x.effects[|x.effects| - 1];
          && (x.outcome.Failed? <==> Answer(answers, last).Some?)
          && (x.outcome.Failed? ==> x.outcome.error == WrapAll(Context(last, outer), Answer(answers, last).value)))
  }

  /** Each call belongs to the stage right after the previous call's:
      no stage is skipped. */
  predicate Consecutive(effects: seq<Effect>)
  {
    forall i :: 0 <= i < |effects| ==> Rank(effects[i]) == Rank(effects[0]) + i
  }

  /** A run that made at least one call, stage after stage, stopping at the
      first failure. */
  predicate WellRun(x: Execution, answers: Answers, outer: seq<string>)
  {
    |x.effects| > 0 && Consecutive(x.effects) && ShortCircuit(x, answers, outer)
  }

  /** Nothing runs after a failure: when the call of stage `k` fails, a run
      starting at stage 0 makes no call of a later stage and does not end
      in success. */
  lemma NothingAfterFailure(x: Execution, answers: Answers, outer: seq<string>, k: nat)
    requires WellRun(x, answers, outer) && Rank(x.effects[0]) == 0
    requires k <= UploadRank && StageAnswer(answers, k).Some?
    requires x.outcome.Done? ==> x.effects[|x.effects| - 1].UploadBuffer?
    ensures |x.effects| <= k + 1
    ensures forall i :: 0 <= i < |x.effects| ==> Rank(x.effects[i]) <= k
    ensures !x.outcome.Done?
  {
    assert k < |x.effects| ==> Rank(x.effects[k]) == k;
    assert k < |x.effects| - 1 ==> Answer(answers, x.effects[k]).None?;
  }

  /** How the last call of a run ends it: with its error in its context
      messages exactly when it failed, and with nil only when it was the
      upload. */
  predicate Ends(e: Effect, answers: Answers, outer: seq<string>, outcome: Outcome)
  {
    && (outcome.Failed? <==> Answer(answers, e).Some?)
    && (outcome.Failed? ==> outcome.error == WrapAll(Context(e, outer), Answer(answers, e).value))
    && (outcome.Done? ==> e.UploadBuffer?)
  }

  /** The calls of a run, first to last: each follows the plan `p`; each
      call but the last succeeded and is followed by a call of the next
      stage; the last one ends the run. */
  predicate Chain(effects: seq<Effect>, answers: Answers, outer: seq<string>, outcome: Outcome, p: Plan)
    decreases |effects|
  {
    && |effects| > 0
    && Follows(p, effects[0])
    && if |effects| == 1 then Ends(effects[0], answers, outer, outcome)
       else
         && Answer(answers, effects[0]).None?
         && Rank(effects[1]) == Rank(effects[0]) + 1
         && Chain(effects[1..], answers, outer, outcome, p)
  }

  /** A run of the stages from `first`'s on, following `p`. */
  predicate StageRun(x: Execution, answers: Answers, outer: seq<string>, first: Effect, p: Plan)
  {
    |x.effects| > 0 && x.effects[0] == first && Chain(x.effects, answers, outer, x.outcome, p)
  }

  /** What a chain of calls means: a well-formed run whose every call
      follows the plan and which returns nil only after the upload. */
  lemma {:induction false} ChainIsWellRun(effects: seq<Effect>, answers: Answers, outer: seq<string>,
                                          outcome: Outcome, p: Plan)
    requires Chain(effects, answers, outer, outcome, p)
    ensures WellRun(Execution(effects, outcome), answers, outer)
    ensures FollowsPlan(effects, p)
    ensures outcome.Done? ==> effects[|effects| - 1].UploadBuffer?
    decreases |effects|
  {
    if |effects| > 1 {
      var rest := effects[1..];
      ChainIsWellRun(rest, answers, outer, outcome, p);
      assert effects[|effects| - 1] == rest[|rest| - 1];
      forall i | 0 <= i < |effects|
        ensures Rank(effects[i]) == Rank(effects[0]) + i
      {
        if i > 0 {
          assert effects[i] == rest[i - 1];
        }
      }
      forall i | 0 <= i < |effects| - 1
        ensures Answer(answers, effects[i]).None?
      {
        if i > 0 {
          assert effects[i] == rest[i - 1];
        }
      }
      forall i | 0 <= i < |effects|
        ensures Follows(p, effects[i])
      {
        if i > 0 {
          assert effects[i] == rest[i - 1];
        }
      }
    }
  }

  /** A successful call of the stage just before a run of the later stages,
      put in front of it, gives a run of the stages from its own on, under
      a plan that agrees with the later run's from the next stage on. */
  lemma StageSucceeds(call: Effect, rest: Execution, answers: Answers, outer: seq<string>, next: Effect,
                      restPlan: Plan, p: Plan)
    requires StageRun(rest, answers, outer, next, restPlan) && AgreeFrom(restPlan, p, Rank(next))
    requires Answer(answers, call).None? && Rank(call) + 1 == Rank(next) && Follows(p, call)
    ensures StageRun(Execution([call] + rest.effects, rest.outcome), answers, outer, call, p)
  {
    Reframe(rest.effects, answers, answers, outer, rest.outcome, restPlan, p);
    assert ([call] + rest.effects)[1..] == rest.effects;
  }

  /** A failing call ends the run at once with its error wrapped in its
      one context message. */
  lemma StageFails(call: Effect, message: string, e: Error, answers: Answers, outer: seq<string>, p: Plan)
    requires Answer(answers, call) == Some(e) && Context(call, outer) == [message] && Follows(p, call)
    ensures StageRun(Execution([call], Failed(Wrapped(message, e))), answers, outer, call, p)
  {
    WrapAllSingle(message, e);
  }

  /** A chain from stage `k` on is a chain under any answers and any plan
      that agree with its own from stage `k` on. */
  lemma {:induction false} Reframe(effects: seq<Effect>, a1: Answers, a2: Answers, outer: seq<string>,
                                   outcome: Outcome, p1: Plan, p2: Plan)
    requires Chain(effects, a1, outer, outcome, p1)
    requires forall j :: Rank(effects[0]) <= j <= UploadRank ==> StageAnswer(a1, j) == StageAnswer(a2, j)
    requires AgreeFrom(p1, p2, Rank(effects[0]))
    ensures Chain(effects, a2, outer, outcome, p2)
    decreases |effects|
  {
    AnswerOfStage(a1, effects[0]);
    AnswerOfStage(a2, effects[0]);
    if |effects| > 1 {
      Reframe(effects[1..], a1, a2, outer, outcome, p1, p2);
    }
  }

  /** A chain of archive calls stays a chain when the run's error is
      wrapped in one more message. */
  lemma {:induction false} WrappedChain(effects: seq<Effect>, message: string, answers: Answers, outer: seq<string>,
                                        outcome: Outcome, p: Plan)
    requires Chain(effects, answers, outer, outcome, p) && IsArchiveCall(effects[0])
    ensures Chain(effects, answers, [message] + outer,
                  if outcome.Failed? then Failed(Wrapped(message, outcome.error)) else outcome, p)
    decreases |effects|
  {
    if |effects| == 1 {
      var e := effects[0];
      assert ([message] + outer + LocalContext(e))[1..] == outer + LocalContext(e);
    } else {
      WrappedChain(effects[1..], message, answers, outer, outcome, p);
    }
  }
}
