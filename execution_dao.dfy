/** The file-backed execution table under `<storageUrl>/model/`: one record
    `<executionId>.json` per training execution and, beside it, one artifact
    record `<executionId>_model.json` per finished training.

    In the source both kinds of record share one folder, and `getExecutions`
    parses every file of that folder as an execution, artifacts included. The
    model keeps artifacts in a map of their own, so it describes the table as
    the code intends it rather than the listing it actually reads. */
module ExecutionDao {
  import opened Types
  import opened Ranking

  type Executions = map<Id, Execution>
  type Artifacts = map<Id, Artifact>

  const NoExecutionsMessage := "Not Found: executions are not found"
  const ChangeStatusMessage := "Not Found"
  const SaveModelMessage := "Not Found: SaveModel: execution is not found"
  const GetExecutionMessage := "Not Found: getModelTrainingExecution: execution is not found"
  const NoModelMessage := "Not Found: getLatestTrainedModel: no model found"
  const MissingFileMessage := "ENOENT: no such file or directory"
  const MissingPathMessage := "The \"path\" argument must be of type string. Received undefined"

  function NotFinishedMessage(id: Id, status: TrainingStatus): string
  {
    "Not Found: getTrainedModelByExecutionId: " + id + " model has not finished training yet. Current status: " + StatusName(status)
  }

  /** Each record sits under its own execution id. */
  ghost predicate KeysMatch(m: Executions)
  {
    forall id :: id in m ==> m[id].executionId == id
  }

  ghost predicate HasStatus(m: Executions, st: TrainingStatus)
  {
    exists id :: id in m && m[id].status == st
  }

  /** At most one execution is pending. */
  ghost predicate AtMostOneCreated(m: Executions)
  {
    forall a, b :: a in m && b in m && m[a].status == Created && m[b].status == Created ==> a == b
  }

  /** Every finished execution points at a stored artifact. */
  ghost predicate ArtifactsPresent(m: Executions, arts: Artifacts)
  {
    forall id :: id in m && m[id].status == Finished ==> m[id].modelPath.Some? && m[id].modelPath.value.ofExecution in arts
  }

  /** `e` is stored and no stored execution was updated later. */
  ghost predicate LatestIn(m: Executions, e: Execution)
  {
    && e.executionId in m && m[e.executionId] == e
    && forall id :: id in m ==> m[id].updated <= e.updated
  }

  /** `e` is stored with status `st` and no execution with that status was
      updated later. */
  ghost predicate LatestWithStatus(m: Executions, st: TrainingStatus, e: Execution)
  {
    && e.executionId in m && m[e.executionId] == e && e.status == st
    && forall id :: id in m && m[id].status == st ==> m[id].updated <= e.updated
  }

  /** `list` holds every stored execution exactly once. */
  ghost predicate Listing(list: seq<Execution>, m: Executions)
  {
    && |list| == |m|
    && (forall i :: 0 <= i < |list| ==> list[i].executionId in m && m[list[i].executionId] == list[i])
    && (forall id :: id in m ==> m[id] in list)
  }

  /** `list` holds the executions stored under the ids in `done`, each once. */
  ghost predicate ListingPart(list: seq<Execution>, m: Executions, done: set<Id>)
  {
    && |list| == |done|
    && (forall i :: 0 <= i < |list| ==> list[i].executionId in done && list[i].executionId in m && m[list[i].executionId] == list[i])
    && (forall id :: id in done ==> id in m && m[id] in list)
  }

  lemma ListingPartExtend(list: seq<Execution>, m: Executions, done: set<Id>, id: Id)
    requires KeysMatch(m)
    requires ListingPart(list, m, done)
    requires id in m && id !in done
    ensures ListingPart(list + [m[id]], m, done + {id})
  {
    var l' := list + [m[id]];
    assert forall i :: 0 <= i < |list| ==> l'[i] == list[i];
    assert l'[|list|] == m[id];
  }

  /** Ordering a listing keeps it a listing. */
  lemma SortKeepsListing(list: seq<Execution>, m: Executions)
    requires Listing(list, m)
    ensures Listing(SortByUpdated(list), m)
  {
    var sorted := SortByUpdated(list);
    forall i | 0 <= i < |sorted|
      ensures sorted[i] in list
    {
      assert sorted[i] in multiset(sorted);
    }
    forall e | e in list
      ensures e in sorted
    {
      assert e in multiset(list);
    }
  }

  /** `getModelTrainingExecution`. */
  function LookupExecution(m: Executions, id: Id): (r: Result<Execution>)
    ensures r.Err? <==> id !in m
    ensures r.Err? ==> r.error.NotFound?
    ensures r.Ok? ==> r.value == m[id]
  {
    if id !in m then Err(NotFound(GetExecutionMessage)) else Ok(m[id])
  }

  /** `fsSync.createReadStream(modelPath)`: an absent path throws at once, a
      path to a missing record fails when read. */
  function ReadArtifact(arts: Artifacts, path: Option<ArtifactRef>): (r: Result<Artifact>)
    ensures r.Ok? <==> path.Some? && path.value.ofExecution in arts
    ensures r.Ok? ==> r.value == arts[path.value.ofExecution]
    ensures r.Err? ==> r.error.Failure?
  {
    match path
    case None => Err(Failure(MissingPathMessage))
    case Some(ref) => if ref.ofExecution in arts then Ok(arts[ref.ofExecution]) else Err(Failure(MissingFileMessage))
  }

  /** `getTrainedModelByExecutionId`: NotFound unless the execution exists and
      is FINISHED; otherwise the artifact its `modelPath` names. */
  function LookupTrainedModel(m: Executions, arts: Artifacts, id: Id): (r: Result<Artifact>)
    ensures id !in m ==> r == Err(NotFound(GetExecutionMessage))
    ensures id in m && m[id].status != Finished ==> r == Err(NotFound(NotFinishedMessage(id, m[id].status)))
    ensures r.Ok? ==> id in m && m[id].status == Finished && m[id].modelPath.Some? && m[id].modelPath.value.ofExecution in arts && r.value == arts[m[id].modelPath.value.ofExecution]
    ensures ArtifactsPresent(m, arts) ==> (r.Ok? <==> id in m && m[id].status == Finished)
  {
    match LookupExecution(m, id)
    case Err(e) => Err(e)
    case Ok(e) =>
      if e.status != Finished then Err(NotFound(NotFinishedMessage(id, e.status)))
      else ReadArtifact(arts, e.modelPath)
  }

  /** `getLatestTrainedModel`: the artifact of a most recently updated FINISHED
      execution, NotFound when there is none or it has no `modelPath`. */
  ghost predicate LatestTrainedModel(m: Executions, arts: Artifacts, r: Result<Artifact>)
  {
    if !HasStatus(m, Finished) then r == Err(NotFound(NoModelMessage))
    else
      exists id :: (id in m && LatestWithStatus(m, Finished, m[id]) &&
        r == (if m[id].modelPath.None? then Err(NotFound(NoModelMessage)) else ReadArtifact(arts, m[id].modelPath)))
  }

  /** `createTrainingSession`: the pending execution is reused with only its
      timestamp refreshed; without one, a fresh pending execution is added. */
  ghost predicate CreateSessionStep(m: Executions, m': Executions, now: int, freshId: Id, r: Execution)
  {
    if HasStatus(m, Created) then
      && r.executionId in m
      && LatestWithStatus(m, Created, m[r.executionId])
      && r == m[r.executionId].(updated := now)
      && m' == m[r.executionId := r]
    else
      && r == Execution(freshId, now, Created, None)
      && m' == m[freshId := r]
  }

  /** A session step keeps records under their ids, adds a record only when
      none was pending, and keeps the pending record unique and every finished
      record's artifact in place. */
  lemma CreateSessionKeeps(m: Executions, m': Executions, arts: Artifacts, now: int, freshId: Id, r: Execution)
    requires KeysMatch(m) && freshId !in m
    requires CreateSessionStep(m, m', now, freshId, r)
    ensures KeysMatch(m') && r.status == Created
    ensures |m'| == |m| + (if HasStatus(m, Created) then 0 else 1)
    ensures AtMostOneCreated(m) ==> AtMostOneCreated(m')
    ensures ArtifactsPresent(m, arts) ==> ArtifactsPresent(m', arts)
  {
    if HasStatus(m, Created) {
      RefreshKeeps(m, m', arts, r);
    } else {
      AddKeeps(m, m', arts, r);
    }
  }

  /** Refreshing the pending record touches no status. */
  lemma RefreshKeeps(m: Executions, m': Executions, arts: Artifacts, r: Execution)
    requires KeysMatch(m) && r.executionId in m && m[r.executionId].status == Created
    requires r == m[r.executionId].(updated := r.updated) && m' == m[r.executionId := r]
    ensures KeysMatch(m') && r.status == Created && |m'| == |m|
    ensures AtMostOneCreated(m) ==> AtMostOneCreated(m')
    ensures ArtifactsPresent(m, arts) ==> ArtifactsPresent(m', arts)
  {
    assert m'.Keys == m.Keys;
    assert forall id :: id in m' ==> m'[id].status == m[id].status && m'[id].modelPath == m[id].modelPath;
  }

  /** Adding a pending record under a fresh id when none was pending. */
  lemma AddKeeps(m: Executions, m': Executions, arts: Artifacts, r: Execution)
    requires KeysMatch(m) && r.executionId !in m && !HasStatus(m, Created)
    requires r.status == Created && m' == m[r.executionId := r]
    ensures KeysMatch(m') && |m'| == |m| + 1
    ensures AtMostOneCreated(m')
    ensures ArtifactsPresent(m, arts) ==> ArtifactsPresent(m', arts)
  {
    assert m'.Keys == m.Keys + {r.executionId};
    forall a | a in m' && a != r.executionId
      ensures m'[a].status != Created
    {
      assert m'[a] == m[a];
    }
    if ArtifactsPresent(m, arts) {
      forall id | id in m' && m'[id].status == Finished
        ensures m'[id].modelPath.Some? && m'[id].modelPath.value.ofExecution in arts
      {
        assert id != r.executionId && m'[id] == m[id];
      }
    }
  }

  /** `saveModel`: the artifact is stored and the execution finalised. */
  ghost predicate SaveModelStep(m: Executions, arts: Artifacts, m': Executions, arts': Artifacts, id: Id, artifact: Artifact, now: int, r: Outcome)
  {
    if id !in m then r == Fail(NotFound(SaveModelMessage)) && m' == m && arts' == arts
    else
      && r == Pass
      && arts' == arts[id := artifact]
      && m' == m[id := m[id].(modelPath := Some(ModelFile(id)), status := Finished, updated := now)]
  }

  class ExecutionTable {
    var executions: Executions
    var artifacts: Artifacts

    ghost predicate Valid()
      reads this
    {
      KeysMatch(executions)
    }

    /** An empty model folder. */
    constructor ()
      ensures Valid() && executions == map[] && artifacts == map[]
    {
      executions := map[];
      artifacts := map[];
    }

    /** `getExecutions`: every execution, most recently updated first. Ties
        keep the folder's listing order, which the model leaves unspecified. */
    method GetExecutions() returns (list: seq<Execution>)
      requires Valid()
      ensures Listing(list, executions)
      ensures SortedByUpdated(list)
    {
      list := [];
      var done: set<Id> := {};
      while done != executions.Keys
        invariant done <= executions.Keys
        invariant ListingPart(list, executions, done)
        decreases executions.Keys - done
      {
        assert executions.Keys - done != {};
        var id :| id in executions.Keys - done;
        ListingPartExtend(list, executions, done, id);
        list := list + [executions[id]];
        done := done + {id};
      }
      assert Listing(list, executions);
      if |list| > 1 {
        SortKeepsListing(list, executions);
        list := SortByUpdated(list);
      }
    }

    /** `getLatestModel`: the head of the ranking, NotFound when it is empty. */
    method GetLatestModel() returns (r: Result<Execution>)
      requires Valid()
      ensures r.Err? <==> executions == map[]
      ensures r.Err? ==> r.error == NotFound(NoExecutionsMessage)
      ensures r.Ok? ==> LatestIn(executions, r.value)
    {
      var list := GetExecutions();
      if |list| > 0 {
        return Ok(list[0]);
      }
      return Err(NotFound(NoExecutionsMessage));
    }

    /** `getLatestModelByStatus`: a most recently updated execution with the
        given status, if any. */
    method GetLatestModelByStatus(st: TrainingStatus) returns (r: Option<Execution>)
      requires Valid()
      ensures r.None? <==> !HasStatus(executions, st)
      ensures r.Some? ==> LatestWithStatus(executions, st, r.value)
    {
      var list := GetExecutions();
      r := FindFirstWithStatus(list, st);
      LatestFromFind(list, st, r);
    }

    lemma LatestFromFind(list: seq<Execution>, st: TrainingStatus, found: Option<Execution>)
      requires Listing(list, executions) && SortedByUpdated(list)
      requires found.None? <==> forall j :: 0 <= j < |list| ==> list[j].status != st
      requires found.Some? ==> exists i :: 0 <= i < |list| && list[i] == found.value && list[i].status == st && forall j :: 0 <= j < i ==> list[j].status != st
      ensures found.None? <==> !HasStatus(executions, st)
      ensures found.Some? ==> LatestWithStatus(executions, st, found.value)
    {
      if found.None? {
        forall id | id in executions
          ensures executions[id].status != st
        {
          assert executions[id] in list;
        }
      } else {
        var i :| 0 <= i < |list| && list[i] == found.value && list[i].status == st && forall j :: 0 <= j < i ==> list[j].status != st;
        FirstIsLatest(list, st, i);
        forall id | id in executions && executions[id].status == st
          ensures executions[id].updated <= found.value.updated
        {
          assert executions[id] in list;
        }
      }
    }

    /** `createTrainingSession`. */
    method CreateTrainingSession(now: int, freshId: Id) returns (r: Execution)
      requires Valid()
      requires freshId !in executions
      modifies this
      ensures Valid()
      ensures CreateSessionStep(old(executions), executions, now, freshId, r)
      ensures artifacts == old(artifacts)
      ensures r.status == Created
      ensures |executions| == |old(executions)| + (if old(HasStatus(executions, Created)) then 0 else 1)
      ensures old(AtMostOneCreated(executions)) ==> AtMostOneCreated(executions)
      ensures old(ArtifactsPresent(executions, artifacts)) ==> ArtifactsPresent(executions, artifacts)
    {
      var existing := GetExecutions();
      var first := FindFirstWithStatus(existing, Created);
      LatestFromFind(existing, Created, first);
      if first.Some? {
        r := first.value.(updated := now);
      } else {
        r := Execution(freshId, now, Created, None);
      }
      executions := executions[r.executionId := r];
      CreateSessionKeeps(old(executions), executions, artifacts, now, freshId, r);
    }

    /** `changeTrainingModelStatus`: NotFound for an unknown id; otherwise only
        that execution's status changes. */
    method ChangeTrainingModelStatus(id: Id, status: TrainingStatus) returns (r: Result<Execution>)
      requires Valid()
      modifies this
      ensures Valid()
      ensures id !in old(executions) ==> r == Err(NotFound(ChangeStatusMessage)) && executions == old(executions)
      ensures id in old(executions) ==> r == Ok(old(executions)[id].(status := status)) && executions == old(executions)[id := r.value]
      ensures artifacts == old(artifacts)
      ensures status != Created && old(AtMostOneCreated(executions)) ==> AtMostOneCreated(executions)
      ensures status != Finished && old(ArtifactsPresent(executions, artifacts)) ==> ArtifactsPresent(executions, artifacts)
    {
      if id !in executions {
        return Err(NotFound(ChangeStatusMessage));
      }
      var execution := executions[id].(status := status);
      executions := executions[id := execution];
      r := Ok(execution);
    }

    /** `deleteAllTrainingExecutions`: empties the folder, artifacts included. */
    method DeleteAllTrainingExecutions()
      modifies this
      ensures Valid()
      ensures executions == map[] && artifacts == map[]
    {
      executions := map[];
      artifacts := map[];
    }

    /** `saveModel`: NotFound for an unknown id; otherwise stores the artifact
        and marks the execution FINISHED at `now`, pointing at the artifact. */
    method SaveModel(id: Id, artifact: Artifact, now: int) returns (r: Outcome)
      requires Valid()
      modifies this
      ensures Valid()
      ensures SaveModelStep(old(executions), old(artifacts), executions, artifacts, id, artifact, now, r)
      ensures old(AtMostOneCreated(executions)) ==> AtMostOneCreated(executions)
      ensures old(ArtifactsPresent(executions, artifacts)) ==> ArtifactsPresent(executions, artifacts)
    {
      if id !in executions {
        return Fail(NotFound(SaveModelMessage));
      }
      artifacts := artifacts[id := artifact];
      var target := executions[id];
      executions := executions[id := target.(modelPath := Some(ModelFile(id)), status := Finished, updated := now)];
      r := Pass;
    }

    /** `getModelTrainingExecution`. */
    method GetModelTrainingExecution(id: Id) returns (r: Result<Execution>)
      ensures r == LookupExecution(executions, id)
    {
      if id !in executions {
        return Err(NotFound(GetExecutionMessage));
      }
      r := Ok(executions[id]);
    }

    /** `getLatestTrainedModel`: walks the ranking to the first FINISHED
        execution and reads the artifact its `modelPath` names. */
    method GetLatestTrainedModel() returns (r: Result<Artifact>)
      requires Valid()
      ensures LatestTrainedModel(executions, artifacts, r)
      ensures ArtifactsPresent(executions, artifacts) ==> (r.Ok? <==> HasStatus(executions, Finished))
    {
      var list := GetExecutions();
      var modelPath: Option<ArtifactRef> := None;
      var i := 0;
      var at := -1;
      while i < |list|
        invariant 0 <= i <= |list|
        invariant forall j :: 0 <= j < i ==> list[j].status != Finished
        invariant modelPath == None && at == -1
      {
        if list[i].status == Finished {
          modelPath := list[i].modelPath;
          at := i;
          break;
        }
        i := i + 1;
      }
      if at < 0 {
        forall id | id in executions
          ensures executions[id].status != Finished
        {
          assert executions[id] in list;
        }
        return Err(NotFound(NoModelMessage));
      }
      FirstIsLatest(list, Finished, at);
      ghost var e := list[at];
      forall id | id in executions && executions[id].status == Finished
        ensures executions[id].updated <= e.updated
      {
        assert executions[id] in list;
      }
      assert LatestWithStatus(executions, Finished, executions[e.executionId]);
      if modelPath.None? {
        return Err(NotFound(NoModelMessage));
      }
      r := ReadArtifact(artifacts, modelPath);
    }

    /** `getTrainedModelByExecutionId`. */
    method GetTrainedModelByExecutionId(id: Id) returns (r: Result<Artifact>)
      ensures r == LookupTrainedModel(executions, artifacts, id)
    {
      var execution := GetModelTrainingExecution(id);
      if execution.Err? {
        return Err(execution.error);
      }
      if execution.value.status != Finished {
        return Err(NotFound(NotFinishedMessage(id, execution.value.status)));
      }
      r := ReadArtifact(artifacts, execution.value.modelPath);
    }
  }
}
