/** Values shared by every layer of the trainer: statuses, execution records,
    errors and the request and response shapes. */
module Types {

  type Label = string
  type Id = string

  datatype Option<T> = None | Some(value: T)

  /** The three kinds of error the service distinguishes. `Failure` stands for
      a plain `Error` (validation errors, "not implemented", codec failures). */
  datatype Error =
    | NotFound(message: string)
    | DoNotRespond(message: string)
    | Failure(message: string)

  /** The outcome of an operation that returns a value or throws. */
  datatype Result<T> = Ok(value: T) | Err(error: Error)

  /** The outcome of an operation that returns nothing or throws. */
  datatype Outcome = Pass | Fail(error: Error)

  /** The `TRAININGSTATUS` enum: the lifecycle of an execution plus the
      `NOCHANGE` answer of an upload. */
  datatype TrainingStatus = Created | InProgress | Finished | Voided | NoChange

  function StatusName(s: TrainingStatus): string
  {
    match s
    case Created => "CREATED"
    case InProgress => "INPROGRESS"
    case Finished => "FINISHED"
    case Voided => "VOIDED"
    case NoChange => "NOCHANGE"
  }

  datatype DataType = BinaryStringWithNewline | Png | PngImagePath

  /** `GZIP` and `PLAIN` are the two values the request body may name; any
      other string in that field reaches the controller as `Unrecognised`. */
  datatype Compression = Gzip | Plain | Unrecognised

  /** Where a finished execution's artifact is stored: the record
      `<executionId>_model.json`. */
  datatype ArtifactRef = ModelFile(ofExecution: Id)

  /** One persisted training execution (`ModelTrainingExecution`). */
  datatype Execution = Execution(executionId: Id, updated: int, status: TrainingStatus, modelPath: Option<ArtifactRef>)

  /** One training example: the 0/1 feature vector and the label that is the
      only key of its output object (`{ [label]: 1 }`). */
  datatype Datum = Datum(input: seq<int>, output: Label)

  /** The serialised network. Training itself is foreign numeric code; the
      model keeps only the training set the network was trained on. */
  datatype Artifact = NeuralNetwork(trainedOn: seq<Datum>)

  function Train(data: seq<Datum>): Artifact
  {
    NeuralNetwork(data)
  }

  /** The body of an HTTP reply. */
  datatype Body = ExecutionBody(execution: Execution) | ArtifactBody(artifact: Artifact) | Text(text: string) | NoBody

  datatype Reply = Reply(code: int, body: Body)

  const Ok200 := 200
  const Created201 := 201
  const AlreadyReported208 := 208
  const NotFound404 := 404
  const InternalServerError500 := 500
}
