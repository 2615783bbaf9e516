/** The training-data store above the table: `saveData` merges a batch into the
    label's corpus and persists the result only when the corpus grew. */
module CorpusStorage {
  import opened Types
  import opened Codec
  import opened CorpusDao

  /** `new Map([...current, ...batch])`: every key of either map, the batch's
      value winning on a shared key. */
  function Merge(current: Corpus, batch: Corpus): (merged: Corpus)
    ensures merged.Keys == current.Keys + batch.Keys
    ensures forall k :: k in batch ==> merged[k] == batch[k]
    ensures forall k :: k in current && k !in batch ==> merged[k] == current[k]
  {
    current + batch
  }

  /** The test `saveData` applies: the merged map is larger than the corpus. */
  predicate Grew(current: Corpus, batch: Corpus)
  {
    |Merge(current, batch)| > |current|
  }

  lemma {:induction false} GrewIffNewKey(current: Corpus, batch: Corpus)
    ensures Grew(current, batch) <==> exists k :: k in batch && k !in current
  {
    var merged := Merge(current, batch);
    if k :| k in batch && k !in current {
      assert current.Keys < merged.Keys by {
        assert k in merged.Keys && k !in current.Keys;
      }
      SubsetCardinality(current.Keys, merged.Keys);
      assert |merged.Keys| > |current.Keys|;
    } else {
      assert merged.Keys == current.Keys;
    }
  }

  lemma {:induction false} SubsetCardinality<K>(small: set<K>, big: set<K>)
    requires small < big
    ensures |small| < |big|
  {
    var extra := big - small;
    assert big == small + extra && small !! extra;
    assert extra != {};
  }

  /** Stored keys are never removed by a merge. */
  lemma MergeKeepsKeys(current: Corpus, batch: Corpus)
    ensures current.Keys <= Merge(current, batch).Keys
    ensures |current| <= |Merge(current, batch)|
  {
    assert current.Keys <= Merge(current, batch).Keys;
    if current.Keys != Merge(current, batch).Keys {
      SubsetCardinality(current.Keys, Merge(current, batch).Keys);
    }
  }

  /** Saving a batch a second time changes nothing. */
  lemma {:induction false} MergeIdempotent(current: Corpus, batch: Corpus)
    ensures Merge(Merge(current, batch), batch) == Merge(current, batch)
    ensures !Grew(Merge(current, batch), batch)
  {
    GrewIffNewKey(Merge(current, batch), batch);
  }

  class TrainingDataStorage {
    const dao: CorpusTable

    constructor (dao: CorpusTable)
      ensures this.dao == dao
    {
      this.dao := dao;
    }

    /** `saveData`: reads the label's corpus, merges the batch into it and, only
        when that added a key, rewrites the record with the merged map. */
    method SaveData(owner: Label, batch: Corpus) returns (saved: bool)
      modifies dao
      ensures saved <==> Grew(old(StoredCorpus(dao.records, owner)), batch)
      ensures saved <==> exists k :: k in batch && k !in old(StoredCorpus(dao.records, owner))
      ensures saved ==> dao.records == old(dao.records)[owner := Merge(old(StoredCorpus(dao.records, owner)), batch)]
      ensures !saved ==> dao.records == old(dao.records)
      ensures old(StoredCorpus(dao.records, owner)).Keys <= StoredCorpus(dao.records, owner).Keys
    {
      var current := dao.GetCurrentTrainingData(owner);
      var merged := Merge(current, batch);
      GrewIffNewKey(current, batch);
      if |merged| > |current| {
        dao.SaveData(owner, merged);
        return true;
      }
      return false;
    }

    /** `getAllTrainingData`: the table's records, passed through. */
    method GetAllTrainingData() returns (saved: seq<SavedTrainingData>)
      ensures ListsAll(saved, dao.records)
    {
      saved := dao.GetAllTrainingData();
    }
  }
}
