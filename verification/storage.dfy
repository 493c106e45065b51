/** `logToAzureBlobStorage`: read the log body, compress it, and upload it
    to the `{org}-{repo}` container under a fresh blob name. */
module Storage {
  import opened Base
  import opened Effects
  import opened Naming
  import opened Compression

  /** The reply to the log download. Only its status is visible here; its
      body is read by the archive stage. */
  datatype Response = Response(status: int)

  /** What the external calls of the archive stage return in one run, plus
      the clock reading and the UUID drawn when the blob is named. */
  datatype StorageEnv = StorageEnv(
    readBody: Result<seq<Byte>>,
    gzip: GzipWriter,
    credential: Option<Error>,
    blobClient: Option<Error>,
    createContainer: Option<Error>,
    upload: Option<Error>,
    now: Clock,
    uuid: string)

  const ContainerAlreadyExists := "ContainerAlreadyExists"

  /** Container creation counts as done when it succeeds or when the
      service answers that the container already exists. */
  predicate ContainerReady(err: Option<Error>)
  {
    err.None? || HasCode(err, ContainerAlreadyExists)
  }

  /** What container creation returns, as far as the stage cares: an
      already-existing container is not a failure. */
  function ContainerError(err: Option<Error>): Option<Error>
  {
    if ContainerReady(err) then None else err
  }

  /** A ContainerAlreadyExists answer is tolerated however many messages
      wrap it; every other service code, and every error that is not a
      service error, is a failure, passed on as it came. */
  lemma ContainerErrorOfCode(messages: seq<string>, code: string)
    ensures var err := WrapAll(messages, Service(code));
            ContainerError(Some(err)) == if code == ContainerAlreadyExists then None else Some(err)
  {
    ServiceCodeOfWrapAll(messages, Service(code));
  }

  lemma ContainerErrorOfOther(messages: seq<string>, description: string)
    ensures var err := WrapAll(messages, Other(description));
            ContainerError(Some(err)) == Some(err)
  {
    ServiceCodeOfWrapAll(messages, Other(description));
  }

  /** What each call of the archive stage returns. */
  function StorageAnswers(st: StorageEnv): Answers
  {
    Answers(None, None, None, None, ErrorOf(st.readBody), st.gzip.writeErr, st.gzip.closeErr,
            st.credential, st.blobClient, ContainerError(st.createContainer), st.upload)
  }

  /** The log body, or nothing when it cannot be read. */
  function BodyOf(st: StorageEnv): seq<Byte>
  {
    match st.readBody
    case Ok(body) => body
    case Err(_) => []
  }

  /** The arguments of the calls from the body read on; the earlier
      stages are left at their zero values. */
  function StorePlan(serviceUrl: string, body: seq<Byte>, container: string, blob: string, data: seq<Byte>): Plan
  {
    Plan(0, "", "", 0, "", serviceUrl, body, container, blob, data)
  }

  /** What the stage is meant to pass: the client gets `blobUrl`, the gzip
      writer the body read, the container is `{org}-{repo}`, and the upload
      sends the compressed body there under the blob name built from the
      clock reading and the UUID. */
  function ArchivePlan(st: StorageEnv, blobUrl: string, org: string, repo: string): Plan
  {
    StorePlan(blobUrl, BodyOf(st), ContainerName(org, repo), BlobName(st.now, st.uuid), st.gzip.encode(BodyOf(st)))
  }

  /** `UploadBuffer`: the last call. */
  function Upload(st: StorageEnv, data: seq<Byte>, container: string, blob: string): (x: Execution)
    ensures StageRun(x, StorageAnswers(st), [], UploadBuffer(container, blob, data), StorePlan("", [], container, blob, data))
    ensures !x.outcome.Panicked?
  {
    var call := UploadBuffer(container, blob, data);
    if st.upload.Some? then
      StageFails(call, UploadFailed, st.upload.value, StorageAnswers(st), [], StorePlan("", [], container, blob, data));
      Execution([call], Failed(Wrapped(UploadFailed, st.upload.value)))
    else Execution([call], Done)
  }

  /** `CreateContainer`, tolerating `ContainerAlreadyExists`, then the upload. */
  function EnsureContainer(st: StorageEnv, data: seq<Byte>, container: string, blob: string): (x: Execution)
    ensures StageRun(x, StorageAnswers(st), [], CreateContainer(container), StorePlan("", [], container, blob, data))
    ensures !x.outcome.Panicked?
  {
    var call := CreateContainer(container);
    var p := StorePlan("", [], container, blob, data);
    if HasCode(st.createContainer, ContainerAlreadyExists) || st.createContainer.None? then
      var rest := Upload(st, data, container, blob);
      StageSucceeds(call, rest, StorageAnswers(st), [], UploadBuffer(container, blob, data), p, p);
      Execution([call] + rest.effects, rest.outcome)
    else
      StageFails(call, ContainerFailed, st.createContainer.value, StorageAnswers(st), [], p);
      Execution([call], Failed(Wrapped(ContainerFailed, st.createContainer.value)))
  }

  /** `azblob.NewClient`, then the container and the upload. */
  function CreateClient(st: StorageEnv, data: seq<Byte>, blobUrl: string, container: string, blob: string): (x: Execution)
    ensures StageRun(x, StorageAnswers(st), [], NewBlobClient(blobUrl), StorePlan(blobUrl, [], container, blob, data))
    ensures !x.outcome.Panicked?
  {
    var call := NewBlobClient(blobUrl);
    var p := StorePlan(blobUrl, [], container, blob, data);
    if st.blobClient.Some? then
      StageFails(call, BlobClientFailed, st.blobClient.value, StorageAnswers(st), [], p);
      Execution([call], Failed(Wrapped(BlobClientFailed, st.blobClient.value)))
    else
      var rest := EnsureContainer(st, data, container, blob);
      StageSucceeds(call, rest, StorageAnswers(st), [], CreateContainer(container),
                    StorePlan("", [], container, blob, data), p);
      Execution([call] + rest.effects, rest.outcome)
  }

  /** From the credential on: get a credential, make the client, ensure
      the container, upload `data` as the named blob; stopping at the first
      failure. */
  function StoreBlob(st: StorageEnv, data: seq<Byte>, blobUrl: string, container: string, blob: string): (x: Execution)
    ensures StageRun(x, StorageAnswers(st), [], NewCredential, StorePlan(blobUrl, [], container, blob, data))
    ensures !x.outcome.Panicked?
  {
    var p := StorePlan(blobUrl, [], container, blob, data);
    if st.credential.Some? then
      StageFails(NewCredential, CredentialFailed, st.credential.value, StorageAnswers(st), [], p);
      Execution([NewCredential], Failed(Wrapped(CredentialFailed, st.credential.value)))
    else
      var rest := CreateClient(st, data, blobUrl, container, blob);
      StageSucceeds(NewCredential, rest, StorageAnswers(st), [], NewBlobClient(blobUrl), p, p);
      Execution([NewCredential] + rest.effects, rest.outcome)
  }

  /** A failed compression ends the stage with its error under the
      compression message. */
  lemma CompressFailureRun(st: StorageEnv, body: seq<Byte>, p: Plan)
    requires st.readBody == Ok(body) && Compress(body, st.gzip).result.Err? && p.body == body
    ensures var c := Compress(body, st.gzip);
            StageRun(Execution(c.effects, Failed(Wrapped(CompressFailed, c.result.error))), StorageAnswers(st), [],
                     GzipWrite(body), p)
  {
    var c := Compress(body, st.gzip);
    WrapAllSingle(CompressFailed, c.result.error);
    if st.gzip.writeErr.None? {
      assert c.effects == [GzipWrite(body), GzipClose];
    }
  }

  /** After the body is read: compress it, then store the compressed bytes. */
  function CompressAndStore(st: StorageEnv, body: seq<Byte>, blobUrl: string,
                            container: string, blob: string): (x: Execution)
    requires st.readBody == Ok(body)
    ensures StageRun(x, StorageAnswers(st), [], GzipWrite(body),
                     StorePlan(blobUrl, body, container, blob, st.gzip.encode(body)))
    ensures !x.outcome.Panicked?
  {
    var c := Compress(body, st.gzip);
    match c.result
    case Err(e) =>
      CompressFailureRun(st, body, StorePlan(blobUrl, body, container, blob, st.gzip.encode(body)));
      Execution(c.effects, Failed(Wrapped(CompressFailed, e)))
    case Ok(data) => StoreCompressed(st, body, data, blobUrl, container, blob)
  }

  /** A successful compression's two calls, then the store of its output. */
  function StoreCompressed(st: StorageEnv, body: seq<Byte>, data: seq<Byte>, blobUrl: string,
                           container: string, blob: string): (x: Execution)
    requires st.gzip.writeErr.None? && st.gzip.closeErr.None?
    ensures StageRun(x, StorageAnswers(st), [], GzipWrite(body), StorePlan(blobUrl, body, container, blob, data))
    ensures !x.outcome.Panicked?
  {
    var rest := CloseThenStore(st, data, blobUrl, container, blob);
    StageSucceeds(GzipWrite(body), rest, StorageAnswers(st), [], GzipClose,
                  StorePlan(blobUrl, [], container, blob, data), StorePlan(blobUrl, body, container, blob, data));
    Execution([GzipWrite(body)] + rest.effects, rest.outcome)
  }

  /** The successful gzip close, then the store. */
  function CloseThenStore(st: StorageEnv, data: seq<Byte>, blobUrl: string,
                          container: string, blob: string): (x: Execution)
    requires st.gzip.closeErr.None?
    ensures StageRun(x, StorageAnswers(st), [], GzipClose, StorePlan(blobUrl, [], container, blob, data))
    ensures !x.outcome.Panicked?
  {
    var p := StorePlan(blobUrl, [], container, blob, data);
    var rest := StoreBlob(st, data, blobUrl, container, blob);
    StageSucceeds(GzipClose, rest, StorageAnswers(st), [], NewCredential, p, p);
    Execution([GzipClose] + rest.effects, rest.outcome)
  }

  /** The stage's calls in order, stopping at the first failure, each with
      the arguments `ArchivePlan` names. Note the parameter order
      (repository, then organisation) of the source. The response's status
      is not consulted. */
  function LogToAzureBlobStorage(st: StorageEnv, log: Response, blobUrl: string,
                                 repoName: string, orgName: string, runId: int): (x: Execution)
    ensures StageRun(x, StorageAnswers(st), [], ReadBody, ArchivePlan(st, blobUrl, orgName, repoName))
    ensures !x.outcome.Panicked?
  {
    var p := ArchivePlan(st, blobUrl, orgName, repoName);
    match st.readBody
    case Err(e) =>
      StageFails(ReadBody, ReadFailed, e, StorageAnswers(st), [], p);
      Execution([ReadBody], Failed(Wrapped(ReadFailed, e)))
    case Ok(body) =>
      var rest := CompressAndStore(st, body, blobUrl, ContainerName(orgName, repoName), BlobName(st.now, st.uuid));
      StageSucceeds(ReadBody, rest, StorageAnswers(st), [], GzipWrite(body),
                    StorePlan(blobUrl, body, ContainerName(orgName, repoName), BlobName(st.now, st.uuid), st.gzip.encode(body)), p);
      Execution([ReadBody] + rest.effects, rest.outcome)
  }
  /** What the stage acts on: container creation counts only through
      whether it is tolerated. */
  function Observed(st: StorageEnv): StorageEnv
  {
    st.(createContainer := ContainerError(st.createContainer))
  }

  lemma EnsureContainerObserved(st1: StorageEnv, st2: StorageEnv, data: seq<Byte>, container: string, blob: string)
    requires Observed(st1) == Observed(st2)
    ensures EnsureContainer(st1, data, container, blob) == EnsureContainer(st2, data, container, blob)
  {
  }

  lemma CreateClientObserved(st1: StorageEnv, st2: StorageEnv, data: seq<Byte>, blobUrl: string,
                             container: string, blob: string)
    requires Observed(st1) == Observed(st2)
    ensures CreateClient(st1, data, blobUrl, container, blob) == CreateClient(st2, data, blobUrl, container, blob)
  {
    EnsureContainerObserved(st1, st2, data, container, blob);
  }

  lemma StoreBlobObserved(st1: StorageEnv, st2: StorageEnv, data: seq<Byte>, blobUrl: string,
                          container: string, blob: string)
    requires Observed(st1) == Observed(st2)
    ensures StoreBlob(st1, data, blobUrl, container, blob) == StoreBlob(st2, data, blobUrl, container, blob)
  {
    CreateClientObserved(st1, st2, data, blobUrl, container, blob);
  }

  lemma CompressAndStoreObserved(st1: StorageEnv, st2: StorageEnv, body: seq<Byte>, blobUrl: string,
                                 container: string, blob: string)
    requires Observed(st1) == Observed(st2) && st1.readBody == Ok(body)
    ensures CompressAndStore(st1, body, blobUrl, container, blob) == CompressAndStore(st2, body, blobUrl, container, blob)
  {
    var c := Compress(body, st1.gzip);
    if c.result.Ok? {
      StoreBlobObserved(st1, st2, c.result.value, blobUrl, container, blob);
    }
  }

  /** The stage does not tell a ContainerAlreadyExists answer from a
      successful creation, nor one untolerated container error from the
      same error elsewhere: it depends on the storage answers only through
      what it observes. */
  lemma LogToAzureBlobStorageObserved(st1: StorageEnv, st2: StorageEnv, log1: Response, log2: Response,
                                      blobUrl: string, repoName: string, orgName: string, runId: int)
    requires Observed(st1) == Observed(st2)
    ensures LogToAzureBlobStorage(st1, log1, blobUrl, repoName, orgName, runId)
         == LogToAzureBlobStorage(st2, log2, blobUrl, repoName, orgName, runId)
  {
    if st1.readBody.Ok? {
      CompressAndStoreObserved(st1, st2, st1.readBody.value, blobUrl, ContainerName(orgName, repoName),
                               BlobName(st1.now, st1.uuid));
    }
  }
}
