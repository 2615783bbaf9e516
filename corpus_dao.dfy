/** The file-backed training-data table: one record per label under
    `<storageUrl>/data/`, each holding that label's whole corpus.

    The record's file name is `uuidv5(label, namespace)`, an injective function
    of the label, so the table is modelled as a map keyed by the label itself.
    The "character" and "model" variants differ only in that namespace and in
    the name of the label field inside the record (`owner` here, since `label`
    is a Dafny keyword). */
module CorpusDao {
  import opened Types
  import opened Codec

  /** A label's corpus: content key to transport form. */
  type Corpus = map<Uuid, string>

  /** One record as `getAllTrainingData` returns it (`SavedTrainingData`). */
  datatype SavedTrainingData = SavedTrainingData(owner: Label, data: Corpus)

  /** The corpus stored for `owner`; a label never saved reads as empty. */
  function StoredCorpus(records: map<Label, Corpus>, owner: Label): (c: Corpus)
    ensures owner !in records ==> c == map[]
    ensures owner in records ==> c == records[owner]
  {
    if owner in records then records[owner] else map[]
  }

  ghost function Owners(saved: seq<SavedTrainingData>): set<Label>
  {
    set i | 0 <= i < |saved| :: saved[i].owner
  }

  /** `saved` lists the table: one entry per stored label, none twice, each
      carrying that label's corpus. */
  ghost predicate ListsAll(saved: seq<SavedTrainingData>, records: map<Label, Corpus>)
  {
    && |saved| == |records|
    && (forall i :: 0 <= i < |saved| ==> saved[i].owner in records && saved[i].data == records[saved[i].owner])
    && (forall i, j :: 0 <= i < j < |saved| ==> saved[i].owner != saved[j].owner)
    && (forall l :: l in records ==> exists i :: 0 <= i < |saved| && saved[i].owner == l)
  }

  /** `saved` lists exactly the labels in `done` of `records`, each once. */
  ghost predicate ListsPart(saved: seq<SavedTrainingData>, records: map<Label, Corpus>, done: set<Label>)
  {
    && |saved| == |done|
    && Owners(saved) == done
    && (forall i :: 0 <= i < |saved| ==> saved[i].owner in records && saved[i].data == records[saved[i].owner])
    && (forall i, j :: 0 <= i < j < |saved| ==> saved[i].owner != saved[j].owner)
  }

  lemma ListsPartExtend(saved: seq<SavedTrainingData>, records: map<Label, Corpus>, done: set<Label>, l: Label)
    requires ListsPart(saved, records, done)
    requires l in records && l !in done
    ensures ListsPart(saved + [SavedTrainingData(l, records[l])], records, done + {l})
  {
    var s' := saved + [SavedTrainingData(l, records[l])];
    assert forall i :: 0 <= i < |saved| ==> s'[i] == saved[i];
    assert Owners(s') == Owners(saved) + {l} by {
      assert s'[|saved|].owner == l;
    }
    forall i, j | 0 <= i < j < |s'|
      ensures s'[i].owner != s'[j].owner
    {
      if j == |saved| {
        assert saved[i].owner in Owners(saved);
      }
    }
  }

  lemma ListsPartComplete(saved: seq<SavedTrainingData>, records: map<Label, Corpus>)
    requires ListsPart(saved, records, records.Keys)
    ensures ListsAll(saved, records)
  {
    forall l | l in records
      ensures exists i :: 0 <= i < |saved| && saved[i].owner == l
    {
      assert l in Owners(saved);
    }
  }

  class CorpusTable {
    var records: map<Label, Corpus>

    /** An empty data folder. */
    constructor ()
      ensures records == map[]
    {
      records := map[];
    }

    /** `getCurrentTrainingData`: the stored corpus, or the empty map when no
        record exists for the label. */
    method GetCurrentTrainingData(owner: Label) returns (c: Corpus)
      ensures owner !in records ==> c == map[]
      ensures owner in records ==> c == records[owner]
    {
      if owner !in records {
        return map[];
      }
      c := records[owner];
    }

    /** `saveData`: rewrites the label's whole record with `data`; every other
        label's record is untouched. */
    method SaveData(owner: Label, data: Corpus)
      modifies this
      ensures records == old(records)[owner := data]
      ensures StoredCorpus(records, owner) == data
      ensures forall l :: l != owner ==> StoredCorpus(records, l) == old(StoredCorpus(records, l))
    {
      records := records[owner := data];
    }

    /** `getAllTrainingData`: reads every record of the folder, in the
        folder's listing order, which the model leaves unspecified. */
    method GetAllTrainingData() returns (saved: seq<SavedTrainingData>)
      ensures ListsAll(saved, records)
    {
      saved := [];
      var done: set<Label> := {};
      while done != records.Keys
        invariant done <= records.Keys
        invariant ListsPart(saved, records, done)
        decreases records.Keys - done
      {
        assert records.Keys - done != {};
        var l :| l in records.Keys - done;
        ListsPartExtend(saved, records, done, l);
        saved := saved + [SavedTrainingData(l, records[l])];
        done := done + {l};
      }
      ListsPartComplete(saved, records);
    }

    /** `deleteSelectedCharacterTrainingData` / `deleteSelectedModelTrainingData`:
        removes the label's record if there is one. */
    method DeleteSelectedTrainingData(owner: Label)
      modifies this
      ensures records == old(records) - {owner}
      ensures owner !in old(records) ==> records == old(records)
    {
      if owner in records {
        records := records - {owner};
      }
    }

    /** `deleteAllTrainingData`: empties the folder. */
    method DeleteAllTrainingData()
      modifies this
      ensures records == map[]
      ensures forall l :: StoredCorpus(records, l) == map[]
    {
      records := map[];
    }
  }
}
