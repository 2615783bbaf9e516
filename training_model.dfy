/** The training model (`CharacterTrainingModel` and its "model" twin
    `ModelTrainingModel`): stores an uploaded batch of samples and, on
    request, assembles the whole stored corpus into a training set, trains a
    network on it and saves the result under the execution. The two twins
    differ only in the UUID namespace of the batch keys, a field here. */
module TrainingModel {
  import opened Types
  import opened Codec
  import opened CorpusDao
  import opened CorpusStorage
  import opened ExecutionDao
  import opened ModelStorage
  import opened Samples

  /** The configured sample shape (`trainingDataHeight`, `trainingDataWidth`). */
  const TrainingDataHeight := 50
  const TrainingDataWidth := 40
  /** The character service's namespace (`serviceUUID`). */
  const ServiceNamespace := "c8a20000-3f40-400a-bd8c-72a10109ffff"

  const SizeMessage := "Data size incompatible, resizing will be implemented later."
  /** What `ungzip` throws for input that is not a gzip stream. */
  const HeaderMessage := "incorrect header check"

  /** The datum a stored transport form contributes: its feature vector and
      the record's label as the only output key. */
  function DatumOf(transport: string, owner: Label): Datum
  {
    Datum(if Features(transport).Some? then Features(transport).value else [], owner)
  }

  ghost predicate CorpusDecodable(c: Corpus)
  {
    forall k :: k in c ==> Features(c[k]).Some?
  }

  /** Every entry of every listed record decodes. */
  ghost predicate AllDecodable(saved: seq<SavedTrainingData>)
  {
    saved == [] || (AllDecodable(saved[..|saved| - 1]) && CorpusDecodable(saved[|saved| - 1].data))
  }

  lemma AllDecodableExtend(saved: seq<SavedTrainingData>, i: nat)
    requires i < |saved|
    ensures AllDecodable(saved[..i + 1]) <==> AllDecodable(saved[..i]) && CorpusDecodable(saved[i].data)
  {
    assert saved[..i + 1][..i] == saved[..i];
  }

  lemma {:induction false} AllDecodableAt(saved: seq<SavedTrainingData>, i: nat)
    requires i < |saved|
    ensures AllDecodable(saved) ==> CorpusDecodable(saved[i].data)
    decreases |saved|
  {
    if i < |saved| - 1 {
      AllDecodableAt(saved[..|saved| - 1], i);
    }
  }

  /** The data the entries under `keys` contribute, one datum per entry. */
  ghost function EntriesBag(c: Corpus, keys: set<Uuid>, owner: Label): (bag: multiset<Datum>)
    requires keys <= c.Keys
    ensures |bag| == |keys|
    decreases keys
  {
    if keys == {} then multiset{}
    else
      var k :| k in keys;
      multiset{DatumOf(c[k], owner)} + EntriesBag(c, keys - {k}, owner)
  }

  /** The data a corpus contributes, one datum per stored entry. */
  ghost function CorpusBag(c: Corpus, owner: Label): (bag: multiset<Datum>)
    ensures |bag| == |c|
  {
    EntriesBag(c, c.Keys, owner)
  }

  /** The bag does not depend on the entry visited first. */
  lemma {:induction false} EntriesBagRemove(c: Corpus, keys: set<Uuid>, owner: Label, k: Uuid)
    requires keys <= c.Keys && k in keys
    ensures EntriesBag(c, keys, owner) == multiset{DatumOf(c[k], owner)} + EntriesBag(c, keys - {k}, owner)
    decreases keys
  {
    var j :| j in keys && EntriesBag(c, keys, owner) == multiset{DatumOf(c[j], owner)} + EntriesBag(c, keys - {j}, owner);
    if j != k {
      var rest := keys - {j} - {k};
      EntriesBagRemove(c, keys - {j}, owner, k);
      EntriesBagRemove(c, keys - {k}, owner, j);
      RemoveBoth(keys, j, k);
      var dj, dk := multiset{DatumOf(c[j], owner)}, multiset{DatumOf(c[k], owner)};
      calc {
        EntriesBag(c, keys, owner);
        dj + EntriesBag(c, keys - {j}, owner);
        dj + (dk + EntriesBag(c, rest, owner));
        dk + (dj + EntriesBag(c, rest, owner));
        dk + EntriesBag(c, keys - {k}, owner);
      }
    }
  }

  lemma RemoveBoth(keys: set<Uuid>, j: Uuid, k: Uuid)
    ensures keys - {k} - {j} == keys - {j} - {k}
  {
  }

  /** The training set of a listing, record after record. */
  ghost function TrainingBag(saved: seq<SavedTrainingData>): multiset<Datum>
  {
    if saved == [] then multiset{}
    else TrainingBag(saved[..|saved| - 1]) + CorpusBag(saved[|saved| - 1].data, saved[|saved| - 1].owner)
  }

  /** The number of stored entries across a listing. */
  function TotalEntries(saved: seq<SavedTrainingData>): nat
  {
    if saved == [] then 0 else TotalEntries(saved[..|saved| - 1]) + |saved[|saved| - 1].data|
  }

  lemma {:induction false} TrainingBagSize(saved: seq<SavedTrainingData>)
    ensures |TrainingBag(saved)| == TotalEntries(saved)
    decreases |saved|
  {
    if saved != [] {
      TrainingBagSize(saved[..|saved| - 1]);
    }
  }

  function Flatten(chunks: seq<seq<Datum>>): seq<Datum>
  {
    if chunks == [] then [] else Flatten(chunks[..|chunks| - 1]) + chunks[|chunks| - 1]
  }

  /** `processSavedData`: decodes a transport form and keeps its `'0'` and
      `'1'` characters as 0s and 1s, in order. */
  method ProcessSavedData(transport: string) returns (r: Result<seq<int>>)
    ensures r.Ok? <==> Features(transport).Some?
    ensures r.Ok? ==> r.value == Features(transport).value
    ensures r.Err? ==> r.error == Failure(HeaderMessage)
  {
    var decoded := Unpack(transport);
    if decoded.None? {
      return Err(Failure(HeaderMessage));
    }
    var s := decoded.value;
    var v: seq<int> := [];
    var i := 0;
    while i < |s|
      invariant 0 <= i <= |s|
      invariant v == Bits(s[..i])
    {
      assert s[..i + 1][..i] == s[..i];
      if s[i] == '1' {
        v := v + [1];
      } else if s[i] == '0' {
        v := v + [0];
      }
      i := i + 1;
    }
    assert s[..i] == s;
    r := Ok(v);
  }

  /** The inner loop of `trainModel`: one datum per entry of one record, in the
      record's entry order, which the model leaves unspecified. */
  method AssembleRecord(record: SavedTrainingData) returns (r: Result<seq<Datum>>)
    ensures r.Err? <==> !CorpusDecodable(record.data)
    ensures r.Err? ==> r.error == Failure(HeaderMessage)
    ensures r.Ok? ==> multiset(r.value) == CorpusBag(record.data, record.owner)
  {
    var out: seq<Datum> := [];
    var remaining := record.data.Keys;
    while remaining != {}
      invariant remaining <= record.data.Keys
      invariant forall k :: k in record.data && k !in remaining ==> Features(record.data[k]).Some?
      invariant multiset(out) + EntriesBag(record.data, remaining, record.owner) == CorpusBag(record.data, record.owner)
      decreases remaining
    {
      var k :| k in remaining;
      var input := ProcessSavedData(record.data[k]);
      if input.Err? {
        return Err(input.error);
      }
      EntriesBagRemove(record.data, remaining, record.owner, k);
      out := out + [Datum(input.value, record.owner)];
      remaining := remaining - {k};
    }
    return Ok(out);
  }

  /** Chunk by chunk, the training entries assembled from each saved record are
      exactly that record's corpus entries. */
  ghost predicate ChunksOf(chunks: seq<seq<Datum>>, saved: seq<SavedTrainingData>)
  {
    |chunks| == |saved| &&
    (saved == [] ||
     (ChunksOf(chunks[..|chunks| - 1], saved[..|saved| - 1]) &&
      multiset(chunks[|chunks| - 1]) == CorpusBag(saved[|saved| - 1].data, saved[|saved| - 1].owner)))
  }

  /** Appending the chunk of the next record keeps the chunks matched. */
  lemma ChunksOfExtend(chunks: seq<seq<Datum>>, saved: seq<SavedTrainingData>, i: nat, part: seq<Datum>)
    requires i < |saved| && ChunksOf(chunks, saved[..i])
    requires multiset(part) == CorpusBag(saved[i].data, saved[i].owner)
    ensures ChunksOf(chunks + [part], saved[..i + 1])
  {
    assert (chunks + [part])[..|chunks|] == chunks;
    assert saved[..i + 1][..i] == saved[..i];
  }

  /** Every chunk matches its record. */
  lemma {:induction false} ChunksOfAt(chunks: seq<seq<Datum>>, saved: seq<SavedTrainingData>, j: nat)
    requires ChunksOf(chunks, saved) && j < |saved|
    ensures multiset(chunks[j]) == CorpusBag(saved[j].data, saved[j].owner)
    decreases |saved|
  {
    if j < |saved| - 1 {
      ChunksOfAt(chunks[..|chunks| - 1], saved[..|saved| - 1], j);
    }
  }

  /** The nested loops of `trainModel`: the training set, record by record.
      The first entry that does not decode aborts the assembly. */
  method AssembleTrainingSet(saved: seq<SavedTrainingData>) returns (r: Result<seq<Datum>>, ghost chunks: seq<seq<Datum>>)
    ensures r.Err? <==> !AllDecodable(saved)
    ensures r.Err? ==> r.error == Failure(HeaderMessage)
    ensures r.Ok? ==> ChunksOf(chunks, saved) && r.value == Flatten(chunks)
    ensures r.Ok? ==> multiset(r.value) == TrainingBag(saved)
  {
    var out: seq<Datum> := [];
    chunks := [];
    var i := 0;
    while i < |saved|
      invariant 0 <= i <= |saved|
      invariant AllDecodable(saved[..i])
      invariant ChunksOf(chunks, saved[..i]) && out == Flatten(chunks)
      invariant multiset(out) == TrainingBag(saved[..i])
    {
      var part := AssembleRecord(saved[i]);
      if part.Err? {
        AllDecodableAt(saved, i);
        return Err(part.error), chunks;
      }
      AllDecodableExtend(saved, i);
      FlattenAppend(chunks, part.value);
      TrainingBagExtend(saved, i);
      ChunksOfExtend(chunks, saved, i, part.value);
      chunks := chunks + [part.value];
      out := out + part.value;
      i := i + 1;
    }
    assert saved[..i] == saved;
    return Ok(out), chunks;
  }

  /** A flattened set of chunks grows by the chunk appended. */
  lemma FlattenAppend(chunks: seq<seq<Datum>>, part: seq<Datum>)
    ensures Flatten(chunks + [part]) == Flatten(chunks) + part
  {
    assert (chunks + [part])[..|chunks|] == chunks;
  }

  /** The training bag of a longer prefix adds that record's bag. */
  lemma TrainingBagExtend(saved: seq<SavedTrainingData>, i: nat)
    requires i < |saved|
    ensures TrainingBag(saved[..i + 1]) == TrainingBag(saved[..i]) + CorpusBag(saved[i].data, saved[i].owner)
  {
    assert saved[..i + 1][..i] == saved[..i];
  }

  /** What `trainModel` does with a listing: fail before saving anything when
      an entry does not decode, otherwise save, under the execution, a network
      trained on one datum per stored entry. */
  ghost predicate TrainStep(m: Executions, arts: Artifacts, m': Executions, arts': Artifacts,
                            saved: seq<SavedTrainingData>, executionId: Id, now: int, r: Outcome)
  {
    if !AllDecodable(saved) then
      r == Fail(Failure(HeaderMessage)) && m' == m && arts' == arts
    else
      exists data: seq<Datum> ::
        && multiset(data) == TrainingBag(saved)
        && |data| == TotalEntries(saved)
        && SaveModelStep(m, arts, m', arts', executionId, Train(data), now, r)
  }

  class TrainingModel {
    const namespace: string
    const height: int
    const width: int
    const modelStorage: ModelStorage
    const dataStorage: TrainingDataStorage

    /** The configuration supplies the namespace and the sample shape. */
    constructor (namespace: string, height: int, width: int, modelStorage: ModelStorage, dataStorage: TrainingDataStorage)
      ensures this.namespace == namespace && this.height == height && this.width == width
      ensures this.modelStorage == modelStorage && this.dataStorage == dataStorage
    {
      this.namespace := namespace;
      this.height := height;
      this.width := width;
      this.modelStorage := modelStorage;
      this.dataStorage := dataStorage;
    }

    ghost predicate Valid()
      reads this, modelStorage, modelStorage.dao
    {
      modelStorage.dao.Valid()
    }

    /** The batch loop of `storeTrainingData`: each transport form under its
        key, the first occurrence of a key kept. */
    method BuildBatch(transport: seq<string>) returns (batch: Corpus)
      ensures batch == BatchOf(namespace, transport)
    {
      batch := map[];
      var i := 0;
      while i < |transport|
        invariant 0 <= i <= |transport|
        invariant batch == BatchOf(namespace, transport[..i])
      {
        var key := KeyOf(namespace, transport[i]);
        assert transport[..i + 1] == transport[..i] + [transport[i]];
        BatchOfAppend(namespace, transport[..i], transport[i]);
        if key !in batch {
          batch := batch[key := transport[i]];
        } else {
          assert batch == batch[key := transport[i]];
        }
        i := i + 1;
      }
      assert transport[..i] == transport;
    }

    /** `storeTrainingData`: rejects a batch holding a misshapen sample before
        touching any store; otherwise merges the keyed batch into the label's
        corpus and answers CREATED, opening a training session, exactly when
        that added a key, and NOCHANGE, touching nothing, otherwise. */
    method StoreTrainingData(owner: Label, canonical: seq<string>, transport: seq<string>, now: int, freshId: Id)
      returns (r: Result<TrainingStatus>)
      requires Valid()
      requires freshId !in modelStorage.dao.executions
      modifies modelStorage.dao, dataStorage.dao
      ensures Valid()
      ensures Rejects(canonical, height, width) ==> r == Err(Failure(SizeMessage))
      ensures r.Err? ==> dataStorage.dao.records == old(dataStorage.dao.records) && modelStorage.dao.executions == old(modelStorage.dao.executions)
      ensures !Rejects(canonical, height, width) ==> r.Ok?
      ensures r.Ok? ==> (r.value == Created <==> exists t :: t in transport && KeyOf(namespace, t) !in old(StoredCorpus(dataStorage.dao.records, owner)))
      ensures r.Ok? ==> r.value in {Created, NoChange}
      ensures r == Ok(Created) ==>
        && dataStorage.dao.records == old(dataStorage.dao.records)[owner := Merge(old(StoredCorpus(dataStorage.dao.records, owner)), BatchOf(namespace, transport))]
        && exists session :: CreateSessionStep(old(modelStorage.dao.executions), modelStorage.dao.executions, now, freshId, session)
      ensures r == Ok(NoChange) ==> dataStorage.dao.records == old(dataStorage.dao.records) && modelStorage.dao.executions == old(modelStorage.dao.executions)
      ensures modelStorage.dao.artifacts == old(modelStorage.dao.artifacts)
      ensures old(AtMostOneCreated(modelStorage.dao.executions)) ==> AtMostOneCreated(modelStorage.dao.executions)
    {
      var mismatch := FindMismatch(canonical, height, width);
      if mismatch.Some? {
        return Err(Failure(SizeMessage));
      }
      var batch := BuildBatch(transport);
      var saved := dataStorage.SaveData(owner, batch);
      if saved {
        var session := modelStorage.CreateTrainingSession(now, freshId);
        return Ok(Created);
      }
      return Ok(NoChange);
    }

    /** `startModelTraining`, passed through. */
    method StartModelTraining() returns (r: Result<Execution>)
      requires Valid()
      modifies modelStorage.dao
      ensures Valid()
      ensures StartTrainingStep(old(modelStorage.dao.executions), modelStorage.dao.executions, r)
      ensures modelStorage.dao.artifacts == old(modelStorage.dao.artifacts)
      ensures old(AtMostOneCreated(modelStorage.dao.executions)) ==> AtMostOneCreated(modelStorage.dao.executions)
    {
      r := modelStorage.StartModelTraining();
    }

    /** `trainModel`: lists the stored records, assembles one datum per stored
        entry, trains on them and saves the artifact under `executionId`, once.
        An entry that does not decode aborts before anything is saved. */
    method TrainModel(executionId: Id, now: int) returns (r: Outcome, ghost listed: seq<SavedTrainingData>)
      requires Valid()
      modifies modelStorage.dao
      ensures Valid()
      ensures ListsAll(listed, dataStorage.dao.records)
      ensures TrainStep(old(modelStorage.dao.executions), old(modelStorage.dao.artifacts), modelStorage.dao.executions, modelStorage.dao.artifacts, listed, executionId, now, r)
    {
      var saved := dataStorage.GetAllTrainingData();
      listed := saved;
      r := TrainOn(saved, executionId, now);
    }

    /** The part of `trainModel` after the listing. */
    method TrainOn(saved: seq<SavedTrainingData>, executionId: Id, now: int) returns (r: Outcome)
      requires Valid()
      modifies modelStorage.dao
      ensures Valid()
      ensures TrainStep(old(modelStorage.dao.executions), old(modelStorage.dao.artifacts), modelStorage.dao.executions, modelStorage.dao.artifacts, saved, executionId, now, r)
    {
      var data, chunks := AssembleTrainingSet(saved);
      if data.Err? {
        return Fail(data.error);
      }
      TrainingBagSize(saved);
      assert |data.value| == |multiset(data.value)|;
      ghost var executions, artifacts := modelStorage.dao.executions, modelStorage.dao.artifacts;
      var artifact := Train(data.value);
      r := modelStorage.SaveModel(executionId, artifact, now);
      assert SaveModelStep(executions, artifacts, modelStorage.dao.executions, modelStorage.dao.artifacts, executionId, Train(data.value), now, r);
    }

    method GetModelTrainingExecution(id: Id) returns (r: Result<Execution>)
      ensures r == LookupExecution(modelStorage.dao.executions, id)
    {
      r := modelStorage.GetModelTrainingExecution(id);
    }

    method GetLatestTrainedModel() returns (r: Result<Artifact>)
      requires Valid()
      ensures LatestTrainedModel(modelStorage.dao.executions, modelStorage.dao.artifacts, r)
    {
      r := modelStorage.GetLatestTrainedModel();
    }

    method GetTrainedModelByExecutionId(id: Id) returns (r: Result<Artifact>)
      ensures r == LookupTrainedModel(modelStorage.dao.executions, modelStorage.dao.artifacts, id)
    {
      r := modelStorage.GetTrainedModelByExecutionId(id);
    }
  }
}
