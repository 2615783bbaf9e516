/** The model storage above the execution table (`CharacterModelStorage` and
    its "model" twin `ModelStorage`): the rule that advances the latest
    execution when training starts, plus pass-through access to the table. */
module ModelStorage {
  import opened Types
  import opened ExecutionDao

  const NotImplementedMessage := "getCharacterModel Not Implemented"

  /** `startModelTraining`: NotFound for an empty table; a latest execution
      that is already FINISHED is returned and nothing is written; otherwise
      that latest execution, whatever its status, becomes INPROGRESS. */
  ghost predicate StartTrainingStep(m: Executions, m': Executions, r: Result<Execution>)
  {
    if m == map[] then r == Err(NotFound(NoExecutionsMessage)) && m' == m
    else
      exists id :: (id in m && LatestIn(m, m[id]) &&
        if m[id].status == Finished then r == Ok(m[id]) && m' == m
        else r == Ok(m[id].(status := InProgress)) && m' == m[id := r.value])
  }

  class ModelStorage {
    const dao: ExecutionTable

    constructor (dao: ExecutionTable)
      ensures this.dao == dao
    {
      this.dao := dao;
    }

    /** `getCharacterModel`: always throws, as not implemented. */
    method GetCharacterModel() returns (r: Result<Artifact>)
      ensures r.Err? && r.error.Failure?
      ensures r.error.message == NotImplementedMessage
    {
      r := Err(Failure(NotImplementedMessage));
    }

    method CreateTrainingSession(now: int, freshId: Id) returns (r: Execution)
      requires dao.Valid()
      requires freshId !in dao.executions
      modifies dao
      ensures dao.Valid()
      ensures CreateSessionStep(old(dao.executions), dao.executions, now, freshId, r)
      ensures dao.artifacts == old(dao.artifacts)
      ensures old(AtMostOneCreated(dao.executions)) ==> AtMostOneCreated(dao.executions)
    {
      r := dao.CreateTrainingSession(now, freshId);
    }

    method StartModelTraining() returns (r: Result<Execution>)
      requires dao.Valid()
      modifies dao
      ensures dao.Valid()
      ensures StartTrainingStep(old(dao.executions), dao.executions, r)
      ensures dao.artifacts == old(dao.artifacts)
      ensures r.Ok? ==> r.value.status in {Finished, InProgress}
      ensures r.Ok? && r.value.status == Finished ==> dao.executions == old(dao.executions)
      ensures forall id :: id in old(dao.executions) && (r.Err? || id != r.value.executionId) ==> id in dao.executions && dao.executions[id] == old(dao.executions)[id]
      ensures old(AtMostOneCreated(dao.executions)) ==> AtMostOneCreated(dao.executions)
      ensures old(ArtifactsPresent(dao.executions, dao.artifacts)) ==> ArtifactsPresent(dao.executions, dao.artifacts)
    {
      var latest := dao.GetLatestModel();
      if latest.Err? {
        return Err(latest.error);
      }
      ghost var id := latest.value.executionId;
      if latest.value.status == Finished {
        return latest;
      }
      r := dao.ChangeTrainingModelStatus(latest.value.executionId, InProgress);
      assert id in old(dao.executions) && LatestIn(old(dao.executions), old(dao.executions)[id]);
    }

    method SaveModel(id: Id, artifact: Artifact, now: int) returns (r: Outcome)
      requires dao.Valid()
      modifies dao
      ensures dao.Valid()
      ensures SaveModelStep(old(dao.executions), old(dao.artifacts), dao.executions, dao.artifacts, id, artifact, now, r)
      ensures old(AtMostOneCreated(dao.executions)) ==> AtMostOneCreated(dao.executions)
      ensures old(ArtifactsPresent(dao.executions, dao.artifacts)) ==> ArtifactsPresent(dao.executions, dao.artifacts)
    {
      r := dao.SaveModel(id, artifact, now);
    }

    method GetModelTrainingExecution(id: Id) returns (r: Result<Execution>)
      ensures r == LookupExecution(dao.executions, id)
    {
      r := dao.GetModelTrainingExecution(id);
    }

    method GetLatestTrainedModel() returns (r: Result<Artifact>)
      requires dao.Valid()
      ensures LatestTrainedModel(dao.executions, dao.artifacts, r)
      ensures ArtifactsPresent(dao.executions, dao.artifacts) ==> (r.Ok? <==> HasStatus(dao.executions, Finished))
    {
      r := dao.GetLatestTrainedModel();
    }

    method GetTrainedModelByExecutionId(id: Id) returns (r: Result<Artifact>)
      ensures r == LookupTrainedModel(dao.executions, dao.artifacts, id)
    {
      r := dao.GetTrainedModelByExecutionId(id);
    }
  }
}
