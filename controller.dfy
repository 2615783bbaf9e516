/** The training controller (`CharacterTrainingController` and its "model"
    twin `ModelTrainingController`): turns an upload into canonical and
    transport forms and an HTTP status, answers a train request and fetches
    trained artifacts. Express request and response objects are replaced by
    the request's fields and the reply the controller sends. */
module Controller {
  import opened Types
  import opened Codec
  import opened CorpusDao
  import opened CorpusStorage
  import opened ExecutionDao
  import opened ModelStorage
  import opened Samples
  import opened TrainingModel
  import opened Errors

  const DataTypeMessage := "DataType other than BINARYSTRINGWITHNEWLINE are NOT IMPLEMENTED!!!"

  /** The body of an upload (`UploadTrainingDataRequestBody`). */
  datatype UploadRequest = UploadRequest(owner: Label, dataType: DataType, compression: Compression, data: seq<string>)

  /** CREATED answers 201, NOCHANGE answers 208, anything else 200. */
  function UploadStatusCode(status: TrainingStatus): (code: int)
    ensures code == Created201 <==> status == Created
    ensures code == AlreadyReported208 <==> status == NoChange
    ensures code == Ok200 <==> status != Created && status != NoChange
  {
    if status == Created then Created201
    else if status == NoChange then AlreadyReported208
    else Ok200
  }

  /** A train request answers 208 when the execution has already finished,
      201 otherwise. */
  function TrainResponseCode(e: Execution): (code: int)
    ensures code == AlreadyReported208 <==> e.status == Finished
    ensures code == Created201 <==> e.status != Finished
  {
    if e.status == Finished then AlreadyReported208 else Created201
  }

  /** `forms` are the canonical forms of the uploaded `data`: decoded under
      GZIP, the data itself otherwise. */
  ghost predicate CanonicalForms(compression: Compression, data: seq<string>, forms: seq<string>)
  {
    if compression == Gzip then
      |forms| == |data| && forall i :: 0 <= i < |data| ==> Unpack(data[i]) == Some(forms[i])
    else forms == data
  }

  /** The transport forms of the uploaded `data`: encoded under PLAIN, the
      data itself otherwise. */
  function TransportForms(compression: Compression, data: seq<string>): (forms: seq<string>)
    ensures |forms| == |data|
  {
    if compression == Plain then seq(|data|, i requires 0 <= i < |data| => Pack(data[i])) else data
  }

  /** The canonical forms of an upload, `None` when a GZIP item does not
      decode. */
  function DecodedForms(compression: Compression, data: seq<string>): (forms: Option<seq<string>>)
    ensures forms.Some? <==> compression != Gzip || forall i :: 0 <= i < |data| ==> Unpack(data[i]).Some?
    ensures forms.Some? ==> CanonicalForms(compression, data, forms.value)
  {
    if compression != Gzip then Some(data)
    else if forall i :: 0 <= i < |data| ==> Unpack(data[i]).Some? then
      Some(seq(|data|, i requires 0 <= i < |data| && Unpack(data[i]).Some? => Unpack(data[i]).value))
    else None
  }

  /** Under either named compression every transport form decodes to the
      canonical form at the same position. An unrecognised compression value
      takes the data as both forms, which breaks this. */
  lemma FormsAgree(compression: Compression, data: seq<string>, canonical: seq<string>)
    requires compression != Unrecognised
    requires CanonicalForms(compression, data, canonical)
    ensures |TransportForms(compression, data)| == |canonical|
    ensures forall i :: 0 <= i < |canonical| ==> Unpack(TransportForms(compression, data)[i]) == Some(canonical[i])
  {
    if compression == Plain {
      forall i | 0 <= i < |canonical|
        ensures Unpack(TransportForms(compression, data)[i]) == Some(canonical[i])
      {
        UnpackPack(data[i]);
      }
    }
  }

  /** `getDecompressedData`: under GZIP each item decoded, in order, and the
      first item that does not decode aborts; otherwise the data itself. */
  method GetDecompressedData(compression: Compression, data: seq<string>) returns (r: Result<seq<string>>)
    ensures r.Err? <==> compression == Gzip && exists i :: 0 <= i < |data| && Unpack(data[i]).None?
    ensures r.Err? ==> r.error == Failure(HeaderMessage)
    ensures r.Ok? ==> CanonicalForms(compression, data, r.value)
    ensures r.Ok? <==> DecodedForms(compression, data).Some?
    ensures r.Ok? ==> r.value == DecodedForms(compression, data).value
  {
    if compression != Gzip {
      return Ok(data);
    }
    var forms: seq<string> := [];
    var i := 0;
    while i < |data|
      invariant 0 <= i <= |data|
      invariant |forms| == i
      invariant forall j :: 0 <= j < i ==> Unpack(data[j]) == Some(forms[j])
    {
      var decoded := Unpack(data[i]);
      if decoded.None? {
        return Err(Failure(HeaderMessage));
      }
      forms := forms + [decoded.value];
      i := i + 1;
    }
    return Ok(forms);
  }

  /** `getCompressedData`: under PLAIN each item encoded, in order; otherwise
      the data itself. */
  method GetCompressedData(compression: Compression, data: seq<string>) returns (forms: seq<string>)
    ensures forms == TransportForms(compression, data)
  {
    if compression != Plain {
      return data;
    }
    forms := [];
    var i := 0;
    while i < |data|
      invariant 0 <= i <= |data|
      invariant forms == TransportForms(compression, data)[..i]
    {
      forms := forms + [Pack(data[i])];
      i := i + 1;
    }
  }

  /** The result of a fetch once its error is wrapped. */
  function WrapFetch<T>(r: Result<T>): (w: Result<T>)
    ensures r.Ok? <==> w.Ok?
    ensures r.Ok? ==> w == r
    ensures r.Err? ==> w.error == WrapFetchError(r.error)
  {
    if r.Ok? then r else Err(WrapFetchError(r.error))
  }

  class TrainingController {
    const model: TrainingModel

    constructor (model: TrainingModel)
      ensures this.model == model
    {
      this.model := model;
    }

    ghost predicate Valid()
      reads this, model, model.modelStorage, model.modelStorage.dao
    {
      model.Valid()
    }

    /** `uploadTrainingData`: only BINARYSTRINGWITHNEWLINE data is accepted;
        the canonical and transport forms go to the model, whose answer
        becomes 201 or 208. */
    method UploadTrainingData(req: UploadRequest, now: int, freshId: Id) returns (r: Result<int>)
      requires Valid()
      requires freshId !in model.modelStorage.dao.executions
      modifies model.modelStorage.dao, model.dataStorage.dao
      ensures Valid()
      ensures req.dataType != BinaryStringWithNewline ==> r == Err(Failure(DataTypeMessage))
      ensures req.dataType == BinaryStringWithNewline && DecodedForms(req.compression, req.data).None? ==> r == Err(Failure(HeaderMessage))
      ensures req.dataType == BinaryStringWithNewline && DecodedForms(req.compression, req.data).Some? ==>
        if Rejects(DecodedForms(req.compression, req.data).value, model.height, model.width) then r == Err(Failure(SizeMessage)) else r.Ok?
      ensures r.Err? ==>
        && model.dataStorage.dao.records == old(model.dataStorage.dao.records)
        && model.modelStorage.dao.executions == old(model.modelStorage.dao.executions)
      ensures r.Ok? ==> r.value in {Created201, AlreadyReported208}
      ensures r.Ok? ==> (r.value == Created201 <==>
        exists t :: t in TransportForms(req.compression, req.data) && KeyOf(model.namespace, t) !in old(StoredCorpus(model.dataStorage.dao.records, req.owner)))
      ensures r == Ok(Created201) ==>
        && model.dataStorage.dao.records == old(model.dataStorage.dao.records)[req.owner := Merge(old(StoredCorpus(model.dataStorage.dao.records, req.owner)), BatchOf(model.namespace, TransportForms(req.compression, req.data)))]
        && exists session :: CreateSessionStep(old(model.modelStorage.dao.executions), model.modelStorage.dao.executions, now, freshId, session)
      ensures r == Ok(AlreadyReported208) ==>
        && model.dataStorage.dao.records == old(model.dataStorage.dao.records)
        && model.modelStorage.dao.executions == old(model.modelStorage.dao.executions)
      ensures model.modelStorage.dao.artifacts == old(model.modelStorage.dao.artifacts)
      ensures old(AtMostOneCreated(model.modelStorage.dao.executions)) ==> AtMostOneCreated(model.modelStorage.dao.executions)
    {
      if req.dataType != BinaryStringWithNewline {
        return Err(Failure(DataTypeMessage));
      }
      var canonical := GetDecompressedData(req.compression, req.data);
      if canonical.Err? {
        return Err(canonical.error);
      }
      var transport := GetCompressedData(req.compression, req.data);
      var status := model.StoreTrainingData(req.owner, canonical.value, transport, now, freshId);
      if status.Err? {
        return Err(status.error);
      }
      r := Ok(UploadStatusCode(status.value));
    }

    /** `trainModel`: advances the latest execution, replies 208 when it had
        already finished and 201 otherwise, then trains for that execution in
        both cases; a training failure is rethrown as DoNotRespond. With no
        execution at all, nothing is sent here and the NotFound is thrown for
        `processError` to answer with 404. */
    method TrainModel(now: int) returns (sent: Option<Reply>, thrown: Option<Error>, ghost listed: seq<SavedTrainingData>)
      requires Valid()
      modifies model.modelStorage.dao
      ensures Valid()
      ensures old(model.modelStorage.dao.executions) == map[] ==>
        sent.None? && thrown == Some(NotFound(NoExecutionsMessage)) && model.modelStorage.dao.executions == map[]
        && model.modelStorage.dao.artifacts == old(model.modelStorage.dao.artifacts)
      ensures old(model.modelStorage.dao.executions) != map[] ==>
        && sent.Some? && sent.value.body.ExecutionBody?
        && sent.value.code == TrainResponseCode(sent.value.body.execution)
        && ListsAll(listed, model.dataStorage.dao.records)
        && (thrown.Some? ==> thrown.value == DoNotRespond(HeaderMessage))
        && exists started :: (StartTrainingStep(old(model.modelStorage.dao.executions), started, Ok(sent.value.body.execution))
             && TrainStep(started, old(model.modelStorage.dao.artifacts), model.modelStorage.dao.executions, model.modelStorage.dao.artifacts,
                          listed, sent.value.body.execution.executionId, now, if thrown.Some? then Fail(Failure(HeaderMessage)) else Pass))
    {
      var started := model.StartModelTraining();
      if started.Err? {
        return None, Some(started.error), [];
      }
      var execution := started.value;
      sent := Some(Reply(TrainResponseCode(execution), ExecutionBody(execution)));
      var outcome;
      outcome, listed := model.TrainModel(execution.executionId, now);
      if outcome.Fail? {
        thrown := Some(DoNotRespond(outcome.error.message));
      } else {
        thrown := None;
      }
    }

    method GetModelTrainingExecution(id: Id) returns (r: Result<Execution>)
      ensures r == LookupExecution(model.modelStorage.dao.executions, id)
    {
      r := model.GetModelTrainingExecution(id);
    }

    /** `getLatestTrainedModel`: the artifact, or the lookup's error with
        everything but NotFound wrapped as DoNotRespond. */
    method GetLatestTrainedModel() returns (r: Result<Artifact>)
      requires Valid()
      ensures exists inner :: LatestTrainedModel(model.modelStorage.dao.executions, model.modelStorage.dao.artifacts, inner) && r == WrapFetch(inner)
    {
      var inner := model.GetLatestTrainedModel();
      r := WrapFetch(inner);
    }

    /** `getTrainedModelByExecutionId`: as above, for one execution. */
    method GetTrainedModelByExecutionId(id: Id) returns (r: Result<Artifact>)
      ensures r == WrapFetch(LookupTrainedModel(model.modelStorage.dao.executions, model.modelStorage.dao.artifacts, id))
    {
      var inner := model.GetTrainedModelByExecutionId(id);
      r := WrapFetch(inner);
    }
  }
}
