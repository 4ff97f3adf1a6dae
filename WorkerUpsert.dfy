/** The bulk worker upload of the API server (src/index.tsx, POST /api/workers/bulk):
    every uploaded worker is standardised and then either updates the stored worker
    with the same employee id and standard entity or is inserted as a new one. The
    worker table is modelled as a map from that key to the stored fields. */
module WorkerUpsert {
  import opened Common
  import opened Normalize

  /** One element of the uploaded JSON array. */
  datatype WorkerInput = WorkerInput(
    employeeId: string, name: string, entity: string, team: string,
    position: string, startDate: string)

  /** The stored columns besides the key (employee_id, entity). */
  datatype WorkerRecord = WorkerRecord(name: string, team: string, position: string, startDate: string)

  type WorkerKey = (string, string)

  /** The lookup key: the raw employee id and the standardised entity. */
  function KeyOf(w: WorkerInput): WorkerKey
  {
    (w.employeeId, StandardizeEntity(w.entity))
  }

  /** The columns written by both the UPDATE and the INSERT. */
  function RecordOf(w: WorkerInput): (r: WorkerRecord)
    ensures r.name == w.name && r.startDate == w.startDate
    ensures r.team == NormalizeField(w.team) && r.position == NormalizeField(w.position)
  {
    WorkerRecord(w.name, NormalizeField(w.team), NormalizeField(w.position), w.startDate)
  }

  /** The table after one worker: the row under its key now holds its columns,
      whether it was updated or inserted. */
  function Upsert(rows: map<WorkerKey, WorkerRecord>, w: WorkerInput): (r: map<WorkerKey, WorkerRecord>)
    ensures KeyOf(w) in r && r[KeyOf(w)] == RecordOf(w)
    ensures r.Keys == rows.Keys + {KeyOf(w)}
    ensures forall k :: k in rows && k != KeyOf(w) ==> r[k] == rows[k]
  {
    rows[KeyOf(w) := RecordOf(w)]
  }

  /** The table after the whole upload, one worker after the other. */
  function ApplyAll(rows: map<WorkerKey, WorkerRecord>, ws: seq<WorkerInput>): map<WorkerKey, WorkerRecord>
  {
    if ws == [] then rows else Upsert(ApplyAll(rows, ws[..|ws| - 1]), ws[|ws| - 1])
  }

  /** Workers of the upload whose key was not in the table when they were reached. */
  function Inserts(rows: map<WorkerKey, WorkerRecord>, ws: seq<WorkerInput>): nat
  {
    if ws == [] then 0
    else
      var before := ApplyAll(rows, ws[..|ws| - 1]);
      Inserts(rows, ws[..|ws| - 1]) + (if KeyOf(ws[|ws| - 1]) in before then 0 else 1)
  }

  /** The keys of an upload. */
  function UploadKeys(ws: seq<WorkerInput>): (keys: set<WorkerKey>)
    ensures forall i :: 0 <= i < |ws| ==> KeyOf(ws[i]) in keys
  {
    if ws == [] then {}
    else
      var keys := UploadKeys(ws[..|ws| - 1]) + {KeyOf(ws[|ws| - 1])};
      assert forall i :: 0 <= i < |ws| - 1 ==> ws[..|ws| - 1][i] == ws[i];
      keys
  }

  /** Every key of an upload belongs to one of its workers. */
  lemma {:induction false} UploadKeysFromWorkers(ws: seq<WorkerInput>, k: WorkerKey)
    requires k in UploadKeys(ws)
    ensures exists i :: 0 <= i < |ws| && KeyOf(ws[i]) == k
  {
    var init := ws[..|ws| - 1];
    if k != KeyOf(ws[|ws| - 1]) {
      UploadKeysFromWorkers(init, k);
      var i :| 0 <= i < |init| && KeyOf(init[i]) == k;
      assert ws[i] == init[i];
    }
  }

  /** One more worker of the upload: the step of the fold and of the loop. */
  lemma UploadStep(rows: map<WorkerKey, WorkerRecord>, ws: seq<WorkerInput>, i: nat)
    requires i < |ws|
    ensures ApplyAll(rows, ws[..i + 1]) == Upsert(ApplyAll(rows, ws[..i]), ws[i])
  {
    assert ws[..i + 1][..i] == ws[..i];
  }

  lemma InsertStep(rows: map<WorkerKey, WorkerRecord>, ws: seq<WorkerInput>, i: nat)
    requires i < |ws|
    ensures Inserts(rows, ws[..i + 1])
      == Inserts(rows, ws[..i]) + (if KeyOf(ws[i]) in ApplyAll(rows, ws[..i]) then 0 else 1)
  {
    assert ws[..i + 1][..i] == ws[..i];
  }

  /** Exactly the old keys and the uploaded keys are in the table afterwards. */
  lemma {:induction false} ApplyAllKeys(rows: map<WorkerKey, WorkerRecord>, ws: seq<WorkerInput>)
    ensures ApplyAll(rows, ws).Keys == rows.Keys + UploadKeys(ws)
  {
    if ws != [] {
      ApplyAllKeys(rows, ws[..|ws| - 1]);
    }
  }

  /** The insertions are exactly the keys the table gains. */
  lemma {:induction false} InsertsAreNewKeys(rows: map<WorkerKey, WorkerRecord>, ws: seq<WorkerInput>)
    ensures |ApplyAll(rows, ws).Keys| == |rows.Keys| + Inserts(rows, ws)
    ensures Inserts(rows, ws) <= |ws|
  {
    if ws != [] {
      var init := ws[..|ws| - 1];
      InsertsAreNewKeys(rows, init);
      var before := ApplyAll(rows, init);
      var k := KeyOf(ws[|ws| - 1]);
      if k in before {
        assert before.Keys + {k} == before.Keys;
      } else {
        assert |before.Keys + {k}| == |before.Keys| + 1;
      }
    }
  }

  /** The number of inserted workers is the number of uploaded keys that were not
      stored before. */
  lemma InsertsCountNewKeys(rows: map<WorkerKey, WorkerRecord>, ws: seq<WorkerInput>)
    ensures Inserts(rows, ws) == |UploadKeys(ws) - rows.Keys|
  {
    InsertsAreNewKeys(rows, ws);
    ApplyAllKeys(rows, ws);
    var n := UploadKeys(ws) - rows.Keys;
    assert rows.Keys + UploadKeys(ws) == rows.Keys + n;
    assert rows.Keys !! n;
    assert |rows.Keys + n| == |rows.Keys| + |n|;
  }

  /** Uploading the same file a second time inserts nobody. */
  lemma ReuploadInsertsNothing(rows: map<WorkerKey, WorkerRecord>, ws: seq<WorkerInput>)
    ensures Inserts(ApplyAll(rows, ws), ws) == 0
  {
    ApplyAllKeys(rows, ws);
    InsertsCountNewKeys(ApplyAll(rows, ws), ws);
    assert UploadKeys(ws) - ApplyAll(rows, ws).Keys == {};
  }

  /** The last worker of the upload with a given key decides that row. */
  lemma {:induction false} LastWriteWins(rows: map<WorkerKey, WorkerRecord>, ws: seq<WorkerInput>, i: int)
    requires 0 <= i < |ws|
    requires forall j :: i < j < |ws| ==> KeyOf(ws[j]) != KeyOf(ws[i])
    ensures KeyOf(ws[i]) in ApplyAll(rows, ws)
    ensures ApplyAll(rows, ws)[KeyOf(ws[i])] == RecordOf(ws[i])
  {
    if i < |ws| - 1 {
      var init := ws[..|ws| - 1];
      assert init[i] == ws[i];
      forall j | i < j < |init| ensures KeyOf(init[j]) != KeyOf(init[i]) {
        assert init[j] == ws[j];
      }
      LastWriteWins(rows, init, i);
    }
  }

  /** A stored worker whose key is not in the upload is left as it was. */
  lemma {:induction false} UntouchedRowsKept(rows: map<WorkerKey, WorkerRecord>, ws: seq<WorkerInput>, k: WorkerKey)
    requires k in rows && k !in UploadKeys(ws)
    ensures k in ApplyAll(rows, ws) && ApplyAll(rows, ws)[k] == rows[k]
  {
    if ws != [] {
      UntouchedRowsKept(rows, ws[..|ws| - 1], k);
    }
  }

  /** The worker table of the database, as far as the bulk upload touches it. */
  class WorkerTable {
    var rows: map<WorkerKey, WorkerRecord>

    constructor(initial: map<WorkerKey, WorkerRecord>)
      ensures rows == initial
    {
      rows := initial;
    }

    /** The upload loop: returns the response's count, inserted and updated. */
    method BulkUpsert(workers: seq<WorkerInput>) returns (count: nat, inserted: nat, updated: nat)
      modifies this
      ensures rows == ApplyAll(old(rows), workers)
      ensures count == |workers| && inserted + updated == count
      ensures inserted == Inserts(old(rows), workers)
    {
      ghost var start := rows;
      inserted := 0;
      updated := 0;
      for i := 0 to |workers|
        invariant rows == ApplyAll(start, workers[..i])
        invariant inserted == Inserts(start, workers[..i])
        invariant inserted + updated == i
      {
        var worker := workers[i];
        UploadStep(start, workers, i);
        InsertStep(start, workers, i);
        var key := KeyOf(worker);
        if key in rows {
          updated := updated + 1;
        } else {
          inserted := inserted + 1;
        }
        rows := rows[key := RecordOf(worker)];
      }
      assert workers[..|workers|] == workers;
      count := |workers|;
    }
  }
}
