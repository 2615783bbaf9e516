/** Upload scenarios of the service's tests, replayed on a fresh service
    configured like the character trainer: a 50 x 40 sample sent as plain
    text. */
module Scenarios {
  import opened Types
  import opened Codec
  import opened CorpusDao
  import opened CorpusStorage
  import opened ExecutionDao
  import opened ModelStorage
  import opened Samples
  import opened TrainingModel
  import opened Controller

  /** A service with empty stores. */
  method FreshService() returns (controller: TrainingController)
    ensures fresh(controller) && fresh(controller.model)
    ensures fresh(controller.model.modelStorage.dao) && fresh(controller.model.dataStorage.dao)
    ensures controller.Valid()
    ensures controller.model.namespace == ServiceNamespace
    ensures controller.model.height == TrainingDataHeight && controller.model.width == TrainingDataWidth
    ensures controller.model.modelStorage.dao.executions == map[]
    ensures controller.model.dataStorage.dao.records == map[]
  {
    var corpus := new CorpusTable();
    var table := new ExecutionTable();
    var dataStorage := new TrainingDataStorage(corpus);
    var modelStorage := new ModelStorage(table);
    var model := new TrainingModel(ServiceNamespace, TrainingDataHeight, TrainingDataWidth, modelStorage, dataStorage);
    controller := new TrainingController(model);
  }

  lemma GridStartsWith(height: nat, width: nat, c: char)
    requires height >= 1 && width >= 1
    ensures |Grid(height, width, c)| >= 1 && Grid(height, width, c)[0] == c
  {
    var rows := seq(height, _ => seq(width, _ => c));
    assert rows[0][0] == c;
  }

  /** One well-shaped sample uploaded as plain text: 201 exactly when its key
      is new to the label, with the corpus and a session updated, else 208. */
  method UploadOne(controller: TrainingController, owner: Label, sample: string, now: int, freshId: Id) returns (r: Result<int>)
    requires controller.Valid()
    requires freshId !in controller.model.modelStorage.dao.executions
    requires ShapeOk(sample, controller.model.height, controller.model.width)
    modifies controller.model.modelStorage.dao, controller.model.dataStorage.dao
    ensures controller.Valid()
    ensures r.Ok? && r.value in {Created201, AlreadyReported208}
    ensures r.value == Created201 <==> KeyOf(controller.model.namespace, Pack(sample)) !in old(StoredCorpus(controller.model.dataStorage.dao.records, owner))
    ensures KeyOf(controller.model.namespace, Pack(sample)) in StoredCorpus(controller.model.dataStorage.dao.records, owner)
    ensures StoredCorpus(controller.model.dataStorage.dao.records, owner).Keys == old(StoredCorpus(controller.model.dataStorage.dao.records, owner)).Keys + {KeyOf(controller.model.namespace, Pack(sample))}
    ensures r.value == Created201 && !old(HasStatus(controller.model.modelStorage.dao.executions, Created)) ==>
      controller.model.modelStorage.dao.executions.Keys == old(controller.model.modelStorage.dao.executions.Keys) + {freshId}
    ensures r.value != Created201 ==> controller.model.modelStorage.dao.executions == old(controller.model.modelStorage.dao.executions)
  {
    var request := UploadRequest(owner, BinaryStringWithNewline, Plain, [sample]);
    assert DecodedForms(Plain, [sample]) == Some([sample]);
    assert !Rejects([sample], controller.model.height, controller.model.width);
    var transport := TransportForms(Plain, [sample]);
    assert transport == [Pack(sample)];
    var key := KeyOf(controller.model.namespace, Pack(sample));
    assert BatchOf(controller.model.namespace, transport) == map[key := Pack(sample)];
    r := controller.UploadTrainingData(request, now, freshId);
    if r.value == Created201 {
      ghost var session :| CreateSessionStep(old(controller.model.modelStorage.dao.executions), controller.model.modelStorage.dao.executions, now, freshId, session);
    }
  }

  /** The same sample uploaded twice: 201, then 208. */
  method SameSampleTwice() returns (first: Result<int>, second: Result<int>)
    ensures first == Ok(Created201)
    ensures second == Ok(AlreadyReported208)
  {
    var controller := FreshService();
    var sample := Grid(50, 40, '0');
    GridFits(50, 40, '0');
    first := UploadOne(controller, "walk", sample, 1, "first-execution");
    second := UploadOne(controller, "walk", sample, 2, "second-execution");
  }

  /** Two different samples of the same label: 201 both times. */
  method TwoDistinctSamples() returns (first: Result<int>, second: Result<int>)
    ensures first == Ok(Created201)
    ensures second == Ok(Created201)
  {
    var controller := FreshService();
    var original := Grid(50, 40, '0');
    var skeleton := Grid(50, 40, '1');
    GridFits(50, 40, '0');
    GridFits(50, 40, '1');
    GridStartsWith(50, 40, '0');
    GridStartsWith(50, 40, '1');
    PackInjective(original, skeleton);
    first := UploadOne(controller, "walk", original, 1, "first-execution");
    second := UploadOne(controller, "walk", skeleton, 2, "second-execution");
  }
}
