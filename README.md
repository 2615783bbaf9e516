# Chisel model trainer, modelled in Dafny

The trainer is a small HTTP service. Clients upload handwriting samples for a
label (a character, or a model name in the twin "model" hierarchy). Each
sample is a string of `'0'`/`'1'` rows separated by newlines and can be sent
plain or gzip+base64 encoded. The service deduplicates samples per label,
keeps a table of training executions, trains a neural network on everything
stored and serves the trained artifact. This project models three parts of
that service:

- **the training-data store**. The shape guard and the batch keying of
  `storeTrainingData` build a map from name-based UUIDs to transport forms.
  The merge-if-grown rule of `saveData` turns that into CREATED or NOCHANGE.
  The label-keyed corpus table sits below them. Above them, `trainModel`
  assembles the training set from the whole table.
- **the execution lifecycle store**. This is the file-backed table of
  executions and artifacts. It covers ranking by `updated`, create-or-reuse
  of the pending execution, status changes, finalisation to FINISHED and the
  NotFound-guarded lookups. It also covers `startModelTraining`, which moves
  the latest execution to INPROGRESS unless it is already FINISHED.
- **the request rules of the controller**. These are the status codes of an
  upload and of a train request and the choice of canonical and transport
  forms by compression. They also include the wrapping of fetch errors and
  the error-to-response classification of `processError`.

The "character" and "model" hierarchies are line-for-line twins. They differ
only in the UUID namespace (`serviceUUID` vs `modelUUID`) and in the name of
the label field. The model states each operation once, with the namespace
as a field of `TrainingModel.TrainingModel`. The table below cites the
character files. The same lines hold in `src/model/modelTrainingModel.ts`,
`src/controller/modelTrainingController.ts`, `src/model/modelTrainingDataStorage.ts`
and `src/dao/modelTrainingLocalDataStorageDao.ts`. In `src/model/modelStorage.ts`
every line is one lower than in `src/model/characterModelStorage.ts`.

State lives in classes, as it does in the source:

- `CorpusDao.CorpusTable` holds `records: map<Label, Corpus>`.
- `ExecutionDao.ExecutionTable` holds `executions` and `artifacts` maps.

The services above these tables hold references to them. Loops in the source
are `while` loops with invariants. Each such method is proved against a
specification function or a step predicate, for example `BatchOf`,
`TrainingBag`, `CreateSessionStep`, `SaveModelStep`, `StartTrainingStep` and
`TrainStep`.

The foreign pieces are stand-ins:

- A version-5 UUID (section 4.3 of RFC 4122) is the pair it is computed from,
  `Codec.Uuid.NameBased(namespace, name)`. This makes it collision-free.
- gzip (RFC 1952) with base64 (section 4 of RFC 4648) is `Codec.Pack` and
  `Codec.Unpack`. They carry a decode-after-encode round trip, and decoding
  fails on anything that lacks the gzip header.
- Training a network is `Types.Train`. It records the training set the
  network was built from.
- `Date.now()` and `uuidv4()` are the parameters `now` and `freshId`.
  `freshId` must not already be in the table.

## Model

| member | source | states |
|---|---|---|
| Codec.KeyOfInjective | src/model/characterTrainingModel.ts:32 | Two (namespace, name) pairs give the same batch key exactly when both parts are equal. This is the collision freedom the dedup relies on; the twin keys under `modelUUID` at the same line. |
| Codec.Unpack | src/controller/characterTrainingController.ts:98 | The stand-in decoder succeeds exactly on strings that start with the encoded-stream header, and then yields the rest of the string. It fails on every other string. Where it differs from base64 decoding followed by `ungzip` is listed under "## Left out". |
| Codec.UnpackPack | test/unit/prototyping/prototyping.spec.ts:177-182 | Decoding the encoding of a sample gives the sample back. |
| Codec.PackInjective | src/controller/characterTrainingController.ts:108-120 | Distinct samples have distinct transport forms. |
| CorpusDao.CorpusTable.GetCurrentTrainingData | src/dao/characterTrainingLocalDataStorageDao.ts:17-29 | A label that was never saved reads as the empty map. Otherwise the label's stored corpus is returned. |
| CorpusDao.CorpusTable.SaveData | src/dao/characterTrainingLocalDataStorageDao.ts:31-42 | The label's whole record is replaced by the given map, and reading the label afterwards returns that map. Every other label reads as before. |
| CorpusDao.CorpusTable.GetAllTrainingData | src/dao/characterTrainingLocalDataStorageDao.ts:44-58 | The result has one record per stored label, no label twice, each carrying that label's stored corpus. An empty table gives the empty list. |
| CorpusDao.ListsPartExtend | src/dao/characterTrainingLocalDataStorageDao.ts:51-54 | Appending the record of a label not yet listed keeps the partial listing exact. |
| CorpusDao.ListsPartComplete | src/dao/characterTrainingLocalDataStorageDao.ts:44-58 | A partial listing that covers every stored label is a complete listing. |
| CorpusDao.CorpusTable.DeleteSelectedTrainingData | src/dao/characterTrainingLocalDataStorageDao.ts:60-67 | Only the given label's record is removed. Nothing changes when the label is absent. |
| CorpusDao.CorpusTable.DeleteAllTrainingData | src/dao/characterTrainingLocalDataStorageDao.ts:69-72 | The table becomes empty, and every label then reads as the empty map. |
| CorpusStorage.Merge | src/model/characterTrainingDataStorage.ts:16 | `new Map([...current, ...batch])`: the keys are the union of both key sets. Batch values win on shared keys, and the other stored values are kept. |
| CorpusStorage.GrewIffNewKey | src/model/characterTrainingDataStorage.ts:16-18 | The merged map is strictly larger than the stored corpus exactly when the batch holds a key the corpus lacks. |
| CorpusStorage.MergeKeepsKeys | src/model/characterTrainingDataStorage.ts:16 | A merge never drops a stored key, so the corpus grows monotonically. |
| CorpusStorage.MergeIdempotent | src/model/characterTrainingDataStorage.ts:16-23 | Merging the same batch again changes nothing and does not count as growth, so a second save of the batch reports false. |
| CorpusStorage.TrainingDataStorage.SaveData | src/model/characterTrainingDataStorage.ts:14-24 | Returns true exactly when the batch has a key absent from the label's stored corpus. On true, the label's record becomes the merge. On false, nothing is written. Stored keys are always kept. |
| CorpusStorage.TrainingDataStorage.GetAllTrainingData | src/model/characterTrainingDataStorage.ts:26-28 | Returns a complete listing of the DAO's table. |
| Errors.ProcessError | src/error.ts:5-17 | NotFound gives a 404 reply with the error's message. DoNotRespond gives no reply at all. Any other error gives a 500 reply with its message. There is no reply exactly for DoNotRespond. |
| Errors.WrapFetchError | src/controller/characterTrainingController.ts:67-73 | NotFound passes through unchanged. Every other error becomes DoNotRespond with the same message. |
| Errors.FetchErrorReply | src/controller/characterTrainingController.ts:62-92 | A failed artifact fetch reaches the client as 404 when it is a NotFound, and as no reply at all otherwise. |
| ExecutionDao.ListingPartExtend | src/dao/characterModelLocalDataStorageDao.ts:134-137 | Appending the record of an id not yet listed keeps the partial listing exact. |
| ExecutionDao.SortKeepsListing | src/dao/characterModelLocalDataStorageDao.ts:139-141 | Sorting a listing of the table leaves it a listing of the table. |
| ExecutionDao.LookupExecution | src/dao/characterModelLocalDataStorageDao.ts:88-95 | NotFound exactly when the id is absent; otherwise the stored record. |
| ExecutionDao.ReadArtifact | src/dao/characterModelLocalDataStorageDao.ts:111 | With `modelPath` set to a stored artifact, the read yields that artifact. An unset path fails with a plain error, not NotFound, as `createReadStream(undefined)` throws. A path that names no stored artifact also fails here; see "## Left out" for what the source does then. |
| ExecutionDao.LookupTrainedModel | src/dao/characterModelLocalDataStorageDao.ts:114-122 | NotFound for an absent id. NotFound, with a message naming the status, for an execution that is not FINISHED. Success only with the artifact of a FINISHED execution. When every FINISHED execution's artifact is present, it succeeds exactly for a FINISHED id. |
| ExecutionDao.CreateSessionKeeps | src/dao/characterModelLocalDataStorageDao.ts:36-50 | A session step keeps every record under its own id. It adds exactly one record when none was CREATED and none otherwise. It keeps "at most one CREATED" and "every FINISHED execution has its artifact". |
| ExecutionDao.RefreshKeeps | src/dao/characterModelLocalDataStorageDao.ts:41-43 | Reusing the pending execution keeps its id and status and the execution count, and both invariants. |
| ExecutionDao.AddKeeps | src/dao/characterModelLocalDataStorageDao.ts:44-47 | A fresh CREATED execution added when none was pending is the only CREATED one, and the count grows by one. |
| ExecutionDao.ExecutionTable.GetExecutions | src/dao/characterModelLocalDataStorageDao.ts:128-145 | Lists every stored execution exactly once, ordered by `updated`, most recent first. |
| ExecutionDao.ExecutionTable.GetLatestModel | src/dao/characterModelLocalDataStorageDao.ts:18-22 | Fails with NotFound "executions are not found" exactly when the table is empty. Otherwise returns an execution no other was updated after. |
| ExecutionDao.ExecutionTable.GetLatestModelByStatus | src/dao/characterModelLocalDataStorageDao.ts:24-29 | Returns nothing exactly when no execution has the status. Otherwise returns the most recently updated execution with it. |
| ExecutionDao.ExecutionTable.LatestFromFind | src/dao/characterModelLocalDataStorageDao.ts:26 | In the ranked listing, the first execution with a status is the latest one with it. No match means no execution has it. |
| ExecutionDao.ExecutionTable.CreateTrainingSession | src/dao/characterModelLocalDataStorageDao.ts:31-53 | If a CREATED execution exists, the latest one is reused with only `updated` set to now. Otherwise exactly one fresh CREATED execution is added. The execution count grows by one only in the second case. Artifacts are untouched, and "at most one CREATED" and the artifact invariant are preserved. |
| ExecutionDao.ExecutionTable.ChangeTrainingModelStatus | src/dao/characterModelLocalDataStorageDao.ts:55-66 | An unknown id gives NotFound and no change. Otherwise only that execution's status changes, and the updated record is returned. |
| ExecutionDao.ExecutionTable.DeleteAllTrainingExecutions | src/dao/characterModelLocalDataStorageDao.ts:68-70 | Executions and artifacts are both emptied. |
| ExecutionDao.ExecutionTable.SaveModel | src/dao/characterModelLocalDataStorageDao.ts:72-86 | An unknown id gives NotFound with nothing written. Otherwise the artifact is stored under the id, and the execution becomes FINISHED with `modelPath` naming the artifact and `updated` set to now. Both invariants are kept. |
| ExecutionDao.ExecutionTable.GetModelTrainingExecution | src/dao/characterModelLocalDataStorageDao.ts:88-95 | Agrees with `LookupExecution`. |
| ExecutionDao.ExecutionTable.GetLatestTrainedModel | src/dao/characterModelLocalDataStorageDao.ts:97-112 | Returns the artifact of a most recently updated FINISHED execution. Fails with NotFound "no model found" when there is none or it has no `modelPath`. When artifacts are present, it succeeds exactly when some execution is FINISHED. |
| ExecutionDao.ExecutionTable.GetTrainedModelByExecutionId | src/dao/characterModelLocalDataStorageDao.ts:114-122 | Agrees with `LookupTrainedModel`. |
| ModelStorage.ModelStorage.GetCharacterModel | src/model/characterModelStorage.ts:17-19 | Always fails with "getCharacterModel Not Implemented". |
| ModelStorage.ModelStorage.CreateTrainingSession | src/model/characterModelStorage.ts:21-23 | The DAO's session step, with "at most one CREATED" preserved. |
| ModelStorage.ModelStorage.StartModelTraining | src/model/characterModelStorage.ts:25-33 | An empty table gives NotFound and no change. A FINISHED latest execution is returned with nothing written. Otherwise the latest execution becomes INPROGRESS and is returned. Every other execution is untouched, and both invariants are preserved. |
| ModelStorage.ModelStorage.SaveModel | src/model/characterModelStorage.ts:35-37 | The DAO's finalisation step. |
| ModelStorage.ModelStorage.GetModelTrainingExecution | src/model/characterModelStorage.ts:39-41 | Agrees with `LookupExecution`. |
| ModelStorage.ModelStorage.GetLatestTrainedModel | src/model/characterModelStorage.ts:43-45 | The artifact of a latest FINISHED execution, or NotFound. |
| ModelStorage.ModelStorage.GetTrainedModelByExecutionId | src/model/characterModelStorage.ts:47-49 | Agrees with `LookupTrainedModel`. |
| Ranking.InsertByUpdated | src/dao/characterModelLocalDataStorageDao.ts:140 | Insertion adds exactly the inserted execution: the result's multiset is the input's plus that one. |
| Ranking.InsertKeepsSorted | src/dao/characterModelLocalDataStorageDao.ts:140 | Inserting into a list ranked by `updated` descending keeps it ranked. |
| Ranking.SortByUpdated | src/dao/characterModelLocalDataStorageDao.ts:140 | The result is ranked by `updated` descending and is a permutation of the input. |
| Ranking.FirstIsLatest | src/dao/characterModelLocalDataStorageDao.ts:26 | In a ranked list, the first execution with a status was updated no earlier than any other with that status. |
| Ranking.FindFirstWithStatus | src/dao/characterModelLocalDataStorageDao.ts:26 | `find`: returns nothing exactly when no element has the status; otherwise the first element that has it. |
| Samples.Rows | src/model/characterTrainingModel.ts:25 | `split('\n')` always yields at least one row. |
| Samples.RowsCount | src/model/characterTrainingModel.ts:25 | A sample has one more row than it has newlines. |
| Samples.RowsNewlineFree | src/model/characterTrainingModel.ts:25 | No row contains a newline. |
| Samples.JoinRowsRows | src/model/characterTrainingModel.ts:25 | Joining the rows with newlines gives the sample back. |
| Samples.RowsJoinRows | src/model/characterTrainingModel.ts:25 | Splitting rows that were joined with newlines, none containing one, gives the rows back. |
| Samples.FindMismatch | src/model/characterTrainingModel.ts:25 | Finds nothing exactly when every sample has the configured row count and first-row width. Otherwise returns the first sample that does not. |
| Samples.RejectsIffMisshapen | src/model/characterTrainingModel.ts:25-27 | The corrected guard rejects exactly when some sample is misshapen. |
| Samples.GuardsAgreeWithoutEmptySample | src/model/characterTrainingModel.ts:25-27 | Without empty samples, the guard as written and the corrected guard agree. |
| Samples.EmptySampleSlipsThrough | src/model/characterTrainingModel.ts:25-27 | For any grid other than 1 x 0, including the configured 50 x 40, an empty sample ahead of a misshapen one makes the guard as written accept the batch, while the corrected guard rejects it. |
| Samples.GridFits | src/model/characterTrainingModel.ts:25 | A grid of `height` rows of `width` non-newline characters has the configured shape. |
| Samples.BatchOf | src/model/characterTrainingModel.ts:29-36 | Every transport form is stored under its own key. Every entry is a transport form under its own key and namespace. |
| Samples.BatchOfAppend | src/model/characterTrainingModel.ts:31-35 | One more form adds its entry, or finds the same entry already present. |
| Samples.BatchSize | src/model/characterTrainingModel.ts:29-36 | The batch has one entry per distinct transport form, so duplicates collapse. |
| Samples.BitsBinary | src/model/characterTrainingModel.ts:97-104 | The vector holds only 0s and 1s. |
| Samples.BitsCount | src/model/characterTrainingModel.ts:97-104 | It holds as many 1s as the string has `'1'` characters, and as many 0s as it has `'0'` characters. |
| Samples.BitsLength | src/model/characterTrainingModel.ts:97-104 | Its length is the number of `'0'` and `'1'` characters. Every other character is skipped. |
| Samples.BitsAppend | src/model/characterTrainingModel.ts:97-104 | Extraction keeps the order: the vector of a concatenation is the concatenation of the vectors. |
| Samples.Features | src/model/characterTrainingModel.ts:92-107 | A stored form yields a vector exactly when it decodes. The vector is then the one extracted from the decoded string. |
| Samples.FeaturesOfPacked | src/model/characterTrainingModel.ts:93 | The stored form of a sample yields the vector extracted from the sample itself. |
| TrainingModel.EntriesBag | src/model/characterTrainingModel.ts:65-72 | The entries under a key set contribute one datum each. |
| TrainingModel.CorpusBag | src/model/characterTrainingModel.ts:65-72 | A record contributes as many datums as its corpus has entries. |
| TrainingModel.EntriesBagRemove | src/model/characterTrainingModel.ts:65 | The datums of a record do not depend on the order its entries are visited. |
| TrainingModel.TrainingBagSize | src/model/characterTrainingModel.ts:64-73 | The training set has as many datums as the sum of the corpus sizes. |
| TrainingModel.ProcessSavedData | src/model/characterTrainingModel.ts:92-107 | Fails exactly when the stored form does not decode, with one decode-failure message ("incorrect header check"). Otherwise returns the form's feature vector. |
| TrainingModel.AssembleRecord | src/model/characterTrainingModel.ts:65-72 | For one record, it fails exactly when some entry does not decode. Otherwise it yields exactly the record's datums: one per entry, each labelled with the record's label. |
| TrainingModel.AssembleTrainingSet | src/model/characterTrainingModel.ts:62-73 | Fails exactly when some stored entry does not decode. Otherwise the training set is the record-by-record concatenation of per-record chunks. Each chunk is exactly its record's datums, so the whole set is the multiset of all stored entries. |
| TrainingModel.TrainingModel.BuildBatch | src/model/characterTrainingModel.ts:29-36 | The loop builds exactly `BatchOf` the transport forms. |
| TrainingModel.TrainingModel.StoreTrainingData | src/model/characterTrainingModel.ts:22-51 | Uses the corrected size guard of "## Findings": a batch with any misshapen canonical sample fails before either store is touched (the source as written lets `["", bad]` through). Otherwise the result is CREATED or NOCHANGE. CREATED comes exactly when some transport form's key is new for the label; then the corpus becomes the merge and one session step happens. With NOCHANGE, neither store changes. |
| TrainingModel.TrainingModel.StartModelTraining | src/model/characterTrainingModel.ts:53-55 | The storage's start step. |
| TrainingModel.TrainingModel.TrainModel | src/model/characterTrainingModel.ts:57-78 | Reads a complete listing of the corpus table. If some entry does not decode, it fails with the decode-failure message and changes nothing. Otherwise it saves, under the given execution, a network trained on a set holding exactly one datum per stored entry. |
| TrainingModel.TrainingModel.TrainOn | src/model/characterTrainingModel.ts:60-77 | The same step for a given listing: assembly, training and one `saveModel` call for the execution id. |
| TrainingModel.TrainingModel.GetModelTrainingExecution | src/model/characterTrainingModel.ts:80-82 | Agrees with `LookupExecution`. |
| TrainingModel.TrainingModel.GetLatestTrainedModel | src/model/characterTrainingModel.ts:84-86 | The artifact of a latest FINISHED execution, or NotFound. |
| TrainingModel.TrainingModel.GetTrainedModelByExecutionId | src/model/characterTrainingModel.ts:88-90 | Agrees with `LookupTrainedModel`. |
| Controller.UploadStatusCode | src/controller/characterTrainingController.ts:33-40 | 201 exactly for CREATED, 208 exactly for NOCHANGE, 200 exactly for every other status. |
| Controller.TrainResponseCode | src/controller/characterTrainingController.ts:45-49 | 208 exactly when the execution is FINISHED, 201 exactly when it is not. |
| Controller.TransportForms | src/controller/characterTrainingController.ts:108-120 | One transport form per input string. |
| Controller.DecodedForms | src/controller/characterTrainingController.ts:94-106 | Under GZIP the canonical forms exist exactly when every input decodes, and each is the decoding of its input. Otherwise they are the input itself. |
| Controller.FormsAgree | src/controller/characterTrainingController.ts:94-120 | Under GZIP or PLAIN, the transport and canonical arrays have the same length, and each transport form decodes to its canonical form. |
| Controller.GetDecompressedData | src/controller/characterTrainingController.ts:94-106 | Fails, with the decode-failure message, exactly under GZIP with an input that does not decode. Otherwise it returns the canonical forms. |
| Controller.GetCompressedData | src/controller/characterTrainingController.ts:108-120 | The loop builds exactly the transport forms: encoded under PLAIN, the input itself otherwise. |
| Controller.WrapFetch | src/controller/characterTrainingController.ts:62-92 | A successful fetch passes through. A failed one carries its error wrapped. |
| Controller.TrainingController.UploadTrainingData | src/controller/characterTrainingController.ts:19-41 | A data type other than BINARYSTRINGWITHNEWLINE fails before anything is stored. So do undecodable input and, under the corrected size guard of "## Findings", a misshapen sample. Otherwise the reply is 201 or 208, and 201 comes exactly when some transport key is new for the label. On 201 the corpus becomes the merge and one session step happens. On 208, or on failure, nothing changes. |
| Controller.TrainingController.TrainModel | src/controller/characterTrainingController.ts:43-56 | An empty execution table throws NotFound "executions are not found" before anything is sent or written: both tables stay as they were, and `processError` answers it with 404 (`Errors.ProcessError`). Otherwise the started execution is sent, with 208 if FINISHED and 201 if not. Training then runs for that execution id in both cases, and its failure is rethrown as DoNotRespond. |
| Controller.TrainingController.GetModelTrainingExecution | src/controller/characterTrainingController.ts:58-60 | Agrees with `LookupExecution`. |
| Controller.TrainingController.GetLatestTrainedModel | src/controller/characterTrainingController.ts:62-75 | The latest trained artifact, with any non-NotFound error wrapped. |
| Controller.TrainingController.GetTrainedModelByExecutionId | src/controller/characterTrainingController.ts:77-92 | `LookupTrainedModel` with any non-NotFound error wrapped. |
| Scenarios.FreshService | src/config.ts:18-32 | A new service runs under the service namespace with 50 x 40 samples, and both tables are empty. |
| Scenarios.UploadOne | test/integration/modelTrainingController.spec.ts:64-74 | Uploading one well-shaped sample succeeds with 201 or 208. It is 201 exactly when the sample's key was new for the label, and the key is stored afterwards. |
| Scenarios.SameSampleTwice | test/unit/trainer.spec.ts:75-92 | Uploading the same sample twice for one label gives 201 and then 208. |
| Scenarios.TwoDistinctSamples | test/unit/trainer.spec.ts:56-73 | Uploading two distinct samples for one label gives 201 both times. |

## Left out

- `deleteSelectedTrainingExecution` is only an abstract method that throws (src/dao/characterModelStorageDao.ts:26-28). No local DAO implements it, so it is not modelled.
- The "model" twin reads its namespace from `config.modelUUID`. `src/config.ts` defines no such getter. The model takes the namespace as a constructor parameter and does not capture what an undefined namespace would do.
- `src/dao/modelLocalDataStorageDao.ts` and `src/dao/modelStorageDao.ts` are not part of this model. `ModelStorage` is modelled against the same execution table as the character variant.
- Artifacts are kept in a map of their own. In the source, `<id>_model.json` sits in the same folder that `getExecutions` parses wholesale as execution records. The model describes the table as intended, not the listing as actually read.
- File-system I/O, directory creation and JSON (de)serialisation are left out. Both tables are in-memory maps. A missing folder reads as an empty table.
- The order of `readdir` is not specified. A `Map` iterates in insertion order, so a stored corpus lists its existing entries first and then the new batch keys in upload order. The model does not fix either order: it picks an arbitrary one (`:|`), so every proved property holds for any order, including those.
- The sort is stable in the source. The model's insertion sort is too, but stability is not stated as a property.
- Network training (brain.js, floating point) is left out. `Train` records only the training set.
- gzip/base64 and UUID generation are foreign calls. Only their round trip, their failure on bad input and key injectivity are modelled.
- `Date.now()` and `uuidv4()` are the parameters `now` and `freshId`.
- Streams and `pipe` are left out. The fetch operations return the artifact value.
- The background training runs after the train reply has been sent, and requests can race. The model treats each request as one sequential step.
- A compression value other than GZIP or PLAIN passes the input through unchanged on both sides, as in the source. `Controller.FormsAgree` states its agreement only for GZIP and PLAIN.
- Data types other than BINARYSTRINGWITHNEWLINE are rejected, as in the source. Their conversion is not implemented there either.
- Express routing, TLS, configuration lookup and the DAO factories are left out.
- `Controller.TrainingController.TrainModel`: the error raised by a failing `trainModel` after the reply is modelled as the returned `thrown` value, not as an exception.
- TrainingModel.TrainingModel.StoreTrainingData: uses the corrected size guard (`Samples.Rejects`) of the "## Findings" row, not the guard as written. The source stores a batch such as `["", "0"]`, whose first misshapen sample is empty, and answers CREATED or NOCHANGE. The model rejects it with the size error. The as-written guard is `Samples.RejectsAsWritten`, and the two agree on every batch without an empty sample (`Samples.GuardsAgreeWithoutEmptySample`).
- Controller.TrainingController.UploadTrainingData: inherits the corrected size guard from `StoreTrainingData`. For a batch like `["", "0"]` it fails, where the source replies 201 or 208.
- Samples.FindMismatch: widths are counted in characters (`|Rows(sample)[0]|`). The source's `.length` counts UTF-16 code units, so a first row with characters outside the Basic Multilingual Plane measures differently: 20 copies of an emoji have `.length` 40 and pass the 50 x 40 check there, while the model measures 20 and rejects them. `Samples.ShapeOk`, `Samples.Rejects`, `Samples.RejectsAsWritten` and the upload operations inherit this. Well-formed samples hold only `'0'` and `'1'`, where the two counts agree.
- Codec.Unpack: the stand-in decodes every string that carries the gzip header. Real `ungzip` also throws on a corrupt or truncated stream behind a valid header, such as `"H4sIxyz"`. The model does not capture those failures. In the other direction, Node's base64 decoder skips whitespace and other non-alphabet characters, so a stream behind leading whitespace (`" H4sI…"`) decodes in the source, but the stand-in rejects it with the header message.
- TrainingModel.ProcessSavedData, TrainingModel.TrainingModel.TrainModel and Controller.GetDecompressedData report every decode failure with the single message "incorrect header check". zlib gives that message only for a wrong header. For an empty or truncated stream it says "unexpected end of file", and that text reaches the client in the 500 body. The model does not distinguish the messages.
- ExecutionDao.ReadArtifact: `createReadStream` throws at once only for an unset path. For a set path that names a missing file, it returns a stream that fails later, outside the request's error handling. The model reports that case as a plain error at the call. It cannot arise while every FINISHED execution's artifact is present (`ArtifactsPresent`), which the table's operations preserve.

## Findings

| source | as written | input that shows it | evidently intended | confidence | as-written member | corrected member |
|---|---|---|---|---|---|---|
| src/model/characterTrainingModel.ts:25-27 (and src/model/modelTrainingModel.ts:25-27) | The size guard tests the result of `find`, which is the offending sample itself. An empty sample is falsy, so when the first misshapen sample is `""` the guard does not throw. Every sample after it goes unchecked. | canonical samples `["", s]` with `s` misshapen, for example `["", "0"]` | Reject the batch whenever some sample does not have the configured shape. | not executed | Samples.EmptySampleSlipsThrough | Samples.RejectsIffMisshapen |
