/**
 * The EGA submission service as the EGA scripts see it: the experiment, sample,
 * run and dataset records of a submission, the files in the submitter's inbox and
 * the access policies, all answered as lists by its queries, and the create calls
 * that append one record carrying fresh identifiers and answer with the list of
 * records they created.
 */
module EgaArchive {
  import opened Outcome
  import opened Python

  /** What the archive holds.  `issued` counts the identifiers handed out so far. */
  datatype State = State(
    experiments: seq<Value>,
    samples: seq<Value>,
    runs: seq<Value>,
    datasets: seq<Value>,
    files: seq<Value>,
    policies: seq<Value>,
    finalised: bool,
    issued: nat)

  const ExperimentPrefix := "EGAX"
  const RunPrefix := "EGAR"
  const DatasetPrefix := "EGAD"

  /** The identifiers of the record created as the n-th: provisional id n + 1 and an
      accession id made of the kind's prefix and the same number. */
  function Ids(prefix: string, n: nat): Dict {
    [("provisional_id", Int(n + 1)), ("accession_id", Str(prefix + NatToString(n + 1)))]
  }

  /** A created record: its identifiers, then the fields it was created with. */
  function NewRecord(prefix: string, n: nat, fields: Dict): Value {
    Obj(Ids(prefix, n) + fields)
  }

  /** A created record answers its identifiers, and every other key as its fields do. */
  lemma NewRecordGet(prefix: string, n: nat, fields: Dict, key: string)
    ensures Get(NewRecord(prefix, n, fields).fields, key) ==
              if key == "provisional_id" then Some(Int(n + 1))
              else if key == "accession_id" then Some(Str(prefix + NatToString(n + 1)))
              else Get(fields, key)
  {
    var d := Ids(prefix, n) + fields;
    assert d[0] == ("provisional_id", Int(n + 1));
    assert d[1..][0] == ("accession_id", Str(prefix + NatToString(n + 1)));
    assert d[1..][1..] == fields;
  }

  /** The record a run refers to by `key` = id: the first stored record carrying
      it, or, when none does, a record holding only that identifier. */
  function Referenced(records: seq<Value>, key: string, id: Value): (r: Value)
    ensures At(r, key) == id
    ensures r in records || r == Obj([(key, id)])
  {
    if records == [] then Obj([(key, id)])
    else if At(records[0], key) == id then records[0]
    else Referenced(records[1..], key, id)
  }

  /** The referenced record is the first one carrying the identifier. */
  lemma {:induction false} ReferencedFirst(records: seq<Value>, key: string, id: Value, i: nat)
    requires i < |records| && At(records[i], key) == id
    requires forall j :: 0 <= j < i ==> At(records[j], key) != id
    ensures Referenced(records, key, id) == records[i]
  {
    if i > 0 {
      assert records[1..][i - 1] == records[i];
      assert forall j :: 0 <= j < i - 1 ==> records[1..][j] == records[j + 1];
      ReferencedFirst(records[1..], key, id, i - 1);
    }
  }

  /** How a run payload names a record: by provisional id when it carries the
      provisional key, otherwise by the value under the accession key. */
  function Reference(payload: Dict, provisionalKey: string, accessionKey: string): (string, Value) {
    var p := Get(payload, provisionalKey);
    if p.Some? then ("provisional_id", p.value) else ("accession_id", GetOr(payload, accessionKey, Null))
  }

  /** The run record created from a payload: it embeds the experiment and the
      sample the payload names, as the run queries return them. */
  function RunRecord(s: State, payload: Dict): Value {
    var e := Reference(payload, "experiment_provisional_id", "experiment_accession_id");
    var m := Reference(payload, "sample_provisional_id", "sample_accession_id");
    NewRecord(RunPrefix, s.issued,
              [("experiment", Referenced(s.experiments, e.0, e.1)), ("sample", Referenced(s.samples, m.0, m.1))] + payload)
  }

  /** The archive after creating one experiment. */
  function AddExperiment(s: State, payload: Dict): State {
    s.(experiments := s.experiments + [NewRecord(ExperimentPrefix, s.issued, payload)], issued := s.issued + 1)
  }

  /** The archive after creating one run. */
  function AddRun(s: State, payload: Dict): State {
    s.(runs := s.runs + [RunRecord(s, payload)], issued := s.issued + 1)
  }

  /** The archive after creating one dataset. */
  function AddDataset(s: State, payload: Dict): State {
    s.(datasets := s.datasets + [NewRecord(DatasetPrefix, s.issued, payload)], issued := s.issued + 1)
  }

  /** The archive after the submission is finalised. */
  function Finalised(s: State): State {
    s.(finalised := true)
  }

  /** The answer to creating an experiment: the list of the one record created. */
  function ExperimentAnswer(s: State, payload: Dict): Value {
    List([NewRecord(ExperimentPrefix, s.issued, payload)])
  }

  /** The answer to creating a run. */
  function RunAnswer(s: State, payload: Dict): Value {
    List([RunRecord(s, payload)])
  }

  /** The answer to creating a dataset. */
  function DatasetAnswer(s: State, payload: Dict): Value {
    List([NewRecord(DatasetPrefix, s.issued, payload)])
  }

  // ---------------------------------------------------------------------------
  // Identifiers stay unique

  /** Every record carries a provisional id the archive has issued, and no two
      records of a kind carry the same one. */
  predicate IssuedIds(records: seq<Value>, issued: nat) {
    && (forall i :: 0 <= i < |records| ==>
          At(records[i], "provisional_id").Int? && 1 <= At(records[i], "provisional_id").i <= issued)
    && (forall i, j :: 0 <= i < j < |records| ==> At(records[i], "provisional_id") != At(records[j], "provisional_id"))
  }

  /** The archive's records of every kind carry unique issued identifiers. */
  predicate Valid(s: State) {
    && IssuedIds(s.experiments, s.issued)
    && IssuedIds(s.samples, s.issued)
    && IssuedIds(s.runs, s.issued)
    && IssuedIds(s.datasets, s.issued)
  }

  /** Issuing one more identifier keeps old records valid. */
  lemma IssuedIdsGrow(records: seq<Value>, issued: nat)
    requires IssuedIds(records, issued)
    ensures IssuedIds(records, issued + 1)
  {
  }

  /** A record created as the n-th, appended to records issued before it, keeps the
      identifiers unique, and its own identifier is not carried by any older record. */
  lemma {:induction false} AppendNew(records: seq<Value>, prefix: string, n: nat, fields: Dict)
    requires IssuedIds(records, n)
    ensures IssuedIds(records + [NewRecord(prefix, n, fields)], n + 1)
    ensures forall i :: 0 <= i < |records| ==> At(records[i], "provisional_id") != Int(n + 1)
  {
    NewRecordGet(prefix, n, fields, "provisional_id");
    var r := records + [NewRecord(prefix, n, fields)];
    assert At(r[|records|], "provisional_id") == Int(n + 1);
    assert forall i :: 0 <= i < |records| ==> r[i] == records[i];
  }

  /** Creating an experiment keeps the archive valid; the new experiment's
      identifier is carried by no older experiment. */
  lemma AddExperimentValid(s: State, payload: Dict)
    requires Valid(s)
    ensures Valid(AddExperiment(s, payload))
    ensures forall i :: 0 <= i < |s.experiments| ==> At(s.experiments[i], "provisional_id") != Int(s.issued + 1)
  {
    IssuedIdsGrow(s.samples, s.issued);
    IssuedIdsGrow(s.runs, s.issued);
    IssuedIdsGrow(s.datasets, s.issued);
    AppendNew(s.experiments, ExperimentPrefix, s.issued, payload);
  }

  /** Creating a run keeps the archive valid; the new run's identifier is carried
      by no older run. */
  lemma AddRunValid(s: State, payload: Dict)
    requires Valid(s)
    ensures Valid(AddRun(s, payload))
    ensures forall i :: 0 <= i < |s.runs| ==> At(s.runs[i], "provisional_id") != Int(s.issued + 1)
  {
    IssuedIdsGrow(s.experiments, s.issued);
    IssuedIdsGrow(s.samples, s.issued);
    IssuedIdsGrow(s.datasets, s.issued);
    var e := Reference(payload, "experiment_provisional_id", "experiment_accession_id");
    var m := Reference(payload, "sample_provisional_id", "sample_accession_id");
    AppendNew(s.runs, RunPrefix, s.issued,
              [("experiment", Referenced(s.experiments, e.0, e.1)), ("sample", Referenced(s.samples, m.0, m.1))] + payload);
  }

  /** Creating a dataset keeps the archive valid; the new dataset's identifier is
      carried by no older dataset. */
  lemma AddDatasetValid(s: State, payload: Dict)
    requires Valid(s)
    ensures Valid(AddDataset(s, payload))
    ensures forall i :: 0 <= i < |s.datasets| ==> At(s.datasets[i], "provisional_id") != Int(s.issued + 1)
  {
    IssuedIdsGrow(s.experiments, s.issued);
    IssuedIdsGrow(s.samples, s.issued);
    IssuedIdsGrow(s.runs, s.issued);
    AppendNew(s.datasets, DatasetPrefix, s.issued, payload);
  }

  /** The remote archive: queries read its lists, creates append to them. */
  class Archive {
    var experiments: seq<Value>
    var samples: seq<Value>
    var runs: seq<Value>
    var datasets: seq<Value>
    var files: seq<Value>
    var policies: seq<Value>
    var finalised: bool
    var issued: nat

    function Contents(): State
      reads this
    {
      State(experiments, samples, runs, datasets, files, policies, finalised, issued)
    }

    constructor (s: State)
      ensures Contents() == s
    {
      experiments, samples, runs, datasets := s.experiments, s.samples, s.runs, s.datasets;
      files, policies, finalised, issued := s.files, s.policies, s.finalised, s.issued;
    }

    /** POST .../experiments: appends the experiment and answers with it. */
    method CreateExperiment(payload: Dict) returns (answer: Value)
      modifies this
      ensures Contents() == AddExperiment(old(Contents()), payload)
      ensures answer == ExperimentAnswer(old(Contents()), payload)
    {
      var record := NewRecord(ExperimentPrefix, issued, payload);
      experiments := experiments + [record];
      issued := issued + 1;
      answer := List([record]);
    }

    /** POST .../runs: appends the run and answers with it. */
    method CreateRun(payload: Dict) returns (answer: Value)
      modifies this
      ensures Contents() == AddRun(old(Contents()), payload)
      ensures answer == RunAnswer(old(Contents()), payload)
    {
      var record := RunRecord(Contents(), payload);
      runs := runs + [record];
      issued := issued + 1;
      answer := List([record]);
    }

    /** POST .../datasets: appends the dataset and answers with it. */
    method CreateDataset(payload: Dict) returns (answer: Value)
      modifies this
      ensures Contents() == AddDataset(old(Contents()), payload)
      ensures answer == DatasetAnswer(old(Contents()), payload)
    {
      var record := NewRecord(DatasetPrefix, issued, payload);
      datasets := datasets + [record];
      issued := issued + 1;
      answer := List([record]);
    }

    /** POST .../finalise. */
    method Finalise()
      modifies this
      ensures Contents() == Finalised(old(Contents()))
    {
      finalised := true;
    }
  }
}
