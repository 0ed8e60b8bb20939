/**
 * Registering the EXPERIMENT and the RUN of one sample with EGA, so that running
 * the registration again does not register anything twice: the experiment is
 * created unless the existence check finds it, the sample is resolved by alias
 * among the registered samples, and the run is created unless a run of that
 * experiment and sample exists, linking every inbox file whose name stem is the
 * sample alias.
 */
module RegisterExperimentAndRunMetadata {
  import opened Outcome
  import opened Python
  import opened EgaArchive

  /** The arguments the registration is constructed with. */
  datatype Config = Config(
    submission: string,
    study: string,
    instrumentModelId: int,
    libraryLayout: string,
    libraryStrategy: string,
    librarySource: string,
    librarySelection: string,
    runFileType: string,
    sampleAlias: string,
    libraryName: string,
    insertSize: real,
    standardDeviation: Value,
    sampleMaterialType: string,
    libraryConstructionProtocol: string,
    sampleId: string,
    technology: Option<string>)

  /** `technology if technology else "ILLUMINA"`: text that is given and not empty
      is kept. */
  function Technology(technology: Option<string>): (r: string)
    ensures r != ""
    ensures technology.Some? && technology.value != "" ==> r == technology.value
    ensures technology.None? || technology.value == "" ==> r == "ILLUMINA"
  {
    if technology.Some? && technology.value != "" then technology.value else "ILLUMINA"
  }

  // ---------------------------------------------------------------------------
  // The experiment

  /** "paired-end" for a PAIRED layout, nothing otherwise. */
  function PairedEndText(layout: string): string {
    if layout == "PAIRED" then "paired-end" else ""
  }

  function DesignHead(c: Config): string {
    Technology(c.technology) + " " + c.libraryStrategy + " sequencing of "
  }

  function DesignMiddle(c: Config): string {
    c.sampleMaterialType + " " + PairedEndText(c.libraryLayout) + " library via " + c.librarySelection
  }

  function DesignTail(c: Config): string {
    " containing sample " + c.sampleAlias
  }

  /** The design description that names the experiment. */
  function DesignDescription(c: Config): string {
    DesignHead(c) + DesignMiddle(c) + DesignTail(c)
  }

  /** The description starts with the technology and the strategy and ends with
      the sample alias; an unpaired layout leaves two spaces before "library". */
  lemma DesignDescriptionShape(c: Config)
    ensures StartsWith(DesignDescription(c), Technology(c.technology) + " " + c.libraryStrategy + " sequencing of ")
    ensures EndsWith(DesignDescription(c), " containing sample " + c.sampleAlias)
    ensures c.libraryLayout == "PAIRED" ==>
              DesignMiddle(c) == c.sampleMaterialType + " paired-end library via " + c.librarySelection
    ensures c.libraryLayout != "PAIRED" ==>
              DesignMiddle(c) == c.sampleMaterialType + "  library via " + c.librarySelection
  {
    Affixes(DesignHead(c), DesignMiddle(c), DesignTail(c));
    assert c.sampleMaterialType + " " + "" == c.sampleMaterialType + " ";
  }

  /** Two registrations whose descriptions agree up to the sample alias describe
      the same sample only if the aliases agree: the description tells samples apart. */
  lemma DesignDescriptionNamesSample(c: Config, d: Config)
    requires DesignHead(c) + DesignMiddle(c) == DesignHead(d) + DesignMiddle(d)
    requires DesignDescription(c) == DesignDescription(d)
    ensures c.sampleAlias == d.sampleAlias
  {
    var p := DesignHead(c) + DesignMiddle(c);
    assert DesignDescription(c) == p + " containing sample " + c.sampleAlias;
    assert DesignDescription(d) == p + " containing sample " + d.sampleAlias;
    var n := |p| + |" containing sample "|;
    assert DesignDescription(c)[n..] == c.sampleAlias;
    assert DesignDescription(d)[n..] == d.sampleAlias;
  }

  /** `int(insert_size) if 0 < insert_size < 1000 else 0`: the insert size
      truncated to a whole number when it lies strictly between 0 and 1000. */
  function NominalLength(insertSize: real): (r: int)
    ensures 0 <= r < 1000
    ensures 0.0 < insertSize < 1000.0 ==> r as real <= insertSize < r as real + 1.0
    ensures !(0.0 < insertSize < 1000.0) ==> r == 0
  {
    if 0.0 < insertSize < 1000.0 then insertSize.Floor else 0
  }

  const ExperimentKeys: seq<string> := [
    "design_description", "library_name", "library_construction_protocol", "paired_nominal_length",
    "paired_nominal_sdev", "instrument_model_id", "library_layout", "library_strategy", "library_source",
    "library_selection", "study_accession_id"]

  /** The experiment posted when none is found. */
  function ExperimentPayload(c: Config): Dict
  {
    Display(ExperimentKeys, [
      Str(DesignDescription(c)), Str(c.libraryName), Str(c.libraryConstructionProtocol),
      Int(NominalLength(c.insertSize)), c.standardDeviation, Int(c.instrumentModelId),
      Str(c.libraryLayout), Str(c.libraryStrategy), Str(c.librarySource), Str(c.librarySelection),
      Str(c.study)])
  }

  lemma ExperimentKeysDistinct()
    ensures Distinct(ExperimentKeys)
  {
  }

  /** The posted experiment carries the description, the study and the nominal
      length, so the existence check can find the experiment once it is created. */
  lemma ExperimentPayloadCarries(c: Config)
    ensures Get(ExperimentPayload(c), "design_description") == Some(Str(DesignDescription(c)))
    ensures Get(ExperimentPayload(c), "study_accession_id") == Some(Str(c.study))
    ensures Get(ExperimentPayload(c), "paired_nominal_length") == Some(Int(NominalLength(c.insertSize)))
    ensures Keys(ExperimentPayload(c)) == ExperimentKeys
  {
    ExperimentKeysDistinct();
    var values := [
      Str(DesignDescription(c)), Str(c.libraryName), Str(c.libraryConstructionProtocol),
      Int(NominalLength(c.insertSize)), c.standardDeviation, Int(c.instrumentModelId),
      Str(c.libraryLayout), Str(c.libraryStrategy), Str(c.librarySource), Str(c.librarySelection),
      Str(c.study)];
    DisplayGet(ExperimentKeys, values, 0);
    DisplayGet(ExperimentKeys, values, 3);
    DisplayGet(ExperimentKeys, values, 10);
  }

  /** Whether an experiment record belongs to the study and has the description. */
  predicate Describes(experiment: Value, study: string, description: string) {
    && experiment.Obj?
    && Get(experiment.fields, "study_accession_id") == Some(Str(study))
    && Get(experiment.fields, "design_description") == Some(Str(description))
  }

  /** `_experiment_exists`: the loop returns on its first pass, so only the first
      listed experiment is looked at; its id (read under idKey) comes back when it
      has the study and then the description, None otherwise and for no experiment. */
  function ExperimentExists(experiments: seq<Value>, study: string, description: string, idKey: string)
    : Result<Option<Value>>
  {
    if experiments == [] then Ok(None)
    else
      var first := experiments[0];
      var st :- Subscript(first, "study_accession_id");
      if st != Str(study) then Ok(None)
      else
        var dd :- Subscript(first, "design_description");
        if dd != Str(description) then Ok(None)
        else
          var id :- Subscript(first, idKey);
          Ok(Some(id))
  }

  /** An id is found iff the first experiment has the study, the description and
      the id key, and it is that experiment's id; later experiments are never read. */
  lemma ExperimentExistsMeans(experiments: seq<Value>, study: string, description: string, idKey: string,
                              later: seq<Value>)
    ensures experiments == [] ==> ExperimentExists(experiments, study, description, idKey) == Ok(None)
    ensures var r := ExperimentExists(experiments, study, description, idKey);
            r.Ok? && r.value.Some? <==>
              experiments != [] && Describes(experiments[0], study, description)
              && HasKey(experiments[0].fields, idKey)
    ensures var r := ExperimentExists(experiments, study, description, idKey);
            r.Ok? && r.value.Some? ==> r.value.value == At(experiments[0], idKey)
    ensures experiments != [] ==>
              ExperimentExists(experiments + later, study, description, idKey)
              == ExperimentExists(experiments, study, description, idKey)
  {
    if experiments != [] {
      assert (experiments + later)[0] == experiments[0];
      var f := experiments[0];
      if f.Obj? {
        HasKeyMeans(f.fields, "study_accession_id");
        HasKeyMeans(f.fields, "design_description");
      }
    }
  }

  /** `_experiment_exists` with its `return None` after the loop instead of inside
      it, as the loop evidently intends: the id of the first experiment that has
      the study and then the description, None when none has both. */
  function ExperimentFound(experiments: seq<Value>, study: string, description: string, idKey: string)
    : Result<Option<Value>>
    decreases |experiments|
  {
    if experiments == [] then Ok(None)
    else
      var first := experiments[0];
      var st :- Subscript(first, "study_accession_id");
      if st != Str(study) then ExperimentFound(experiments[1..], study, description, idKey)
      else
        var dd :- Subscript(first, "design_description");
        if dd != Str(description) then ExperimentFound(experiments[1..], study, description, idKey)
        else
          var id :- Subscript(first, idKey);
          Ok(Some(id))
  }

  /** With the whole list searched, an experiment of the study with the description
      is found wherever it sits: put after experiments none of which has both, its
      id is the answer. */
  lemma {:induction false} ExperimentFoundAppended(experiments: seq<Value>, r: Value, study: string,
                                                   description: string, idKey: string)
    requires ExperimentFound(experiments, study, description, idKey) == Ok(None)
    requires Describes(r, study, description) && HasKey(r.fields, idKey)
    ensures ExperimentFound(experiments + [r], study, description, idKey) == Ok(Some(At(r, idKey)))
    decreases |experiments|
  {
    if experiments == [] {
      assert experiments + [r] == [r];
    } else {
      assert (experiments + [r])[0] == experiments[0];
      assert (experiments + [r])[1..] == experiments[1..] + [r];
      ExperimentFoundAppended(experiments[1..], r, study, description, idKey);
    }
  }

  /** The check as written misses an experiment listed second behind one of another
      study, which the whole search finds. */
  lemma ExperimentPastFirstMissed(other: Value, r: Value, study: string, description: string, idKey: string)
    requires other.Obj? && HasKey(other.fields, "study_accession_id")
    requires Get(other.fields, "study_accession_id") != Some(Str(study))
    requires Describes(r, study, description) && HasKey(r.fields, idKey)
    ensures ExperimentExists([other, r], study, description, idKey) == Ok(None)
    ensures ExperimentFound([other, r], study, description, idKey) == Ok(Some(At(r, idKey)))
  {
    assert [other, r][1..] == [r];
    assert ExperimentFound([r][1..], study, description, idKey) == Ok(None);
  }

  /** `[e["provisional_id"] for e in items if e["design_description"] == description]`. */
  function DescribedIds(items: seq<Value>, description: string): Result<seq<Value>> {
    if items == [] then Ok([])
    else
      var dd :- Subscript(items[0], "design_description");
      if dd == Str(description) then
        var id :- Subscript(items[0], "provisional_id");
        var rest :- DescribedIds(items[1..], description);
        Ok([id] + rest)
      else DescribedIds(items[1..], description)
  }

  /** The provisional id of the first created experiment with the description. */
  function CreatedExperimentId(answer: Value, description: string): Result<Value> {
    var items :- Iterate(answer);
    var ids :- DescribedIds(items, description);
    if ids == [] then Err(IndexError) else Ok(ids[0])
  }

  /** Creating an experiment with the description yields the new record's id. */
  lemma CreatedExperimentIdOfAnswer(s: State, payload: Dict, description: string)
    requires Get(payload, "design_description") == Some(Str(description))
    ensures CreatedExperimentId(ExperimentAnswer(s, payload), description) == Ok(Int(s.issued + 1))
  {
    var r := NewRecord(ExperimentPrefix, s.issued, payload);
    NewRecordGet(ExperimentPrefix, s.issued, payload, "design_description");
    NewRecordGet(ExperimentPrefix, s.issued, payload, "provisional_id");
    assert Subscript(r, "design_description") == Ok(Str(description));
    assert Subscript(r, "provisional_id") == Ok(Int(s.issued + 1));
    assert [r][1..] == [];
    assert DescribedIds([r], description) == Ok([Int(s.issued + 1)] + []);
  }

  /** `_conditionally_create_experiment`: the id the existence check finds, when it
      is truthy; otherwise the id of the experiment it creates. */
  function ExperimentStep(c: Config, s: State): (Result<Value>, State) {
    var description := DesignDescription(c);
    var found := ExperimentExists(s.experiments, c.study, description, "provisional_id");
    if found.Err? then (Err(found.error), s)
    else if found.value.Some? && Truthy(found.value.value) then (Ok(found.value.value), s)
    else
      var payload := ExperimentPayload(c);
      (CreatedExperimentId(ExperimentAnswer(s, payload), description), AddExperiment(s, payload))
  }

  /** An experiment is created iff the existence check finds no truthy id; the id returned
      is then the new experiment's, otherwise the found one, and nothing is created. */
  lemma ExperimentStepMeans(c: Config, s: State)
    ensures var found := ExperimentExists(s.experiments, c.study, DesignDescription(c), "provisional_id");
            found.Ok? && found.value.Some? && Truthy(found.value.value) ==>
              ExperimentStep(c, s) == (Ok(found.value.value), s)
    ensures var found := ExperimentExists(s.experiments, c.study, DesignDescription(c), "provisional_id");
            found.Ok? && !(found.value.Some? && Truthy(found.value.value)) ==>
              ExperimentStep(c, s) == (Ok(Int(s.issued + 1)), AddExperiment(s, ExperimentPayload(c)))
    ensures var found := ExperimentExists(s.experiments, c.study, DesignDescription(c), "provisional_id");
            found.Err? ==> ExperimentStep(c, s) == (Err(found.error), s)
  {
    ExperimentPayloadCarries(c);
    CreatedExperimentIdOfAnswer(s, ExperimentPayload(c), DesignDescription(c));
  }

  /** A successful step always hands on a truthy id, so the run guard never stops
      the registration for want of an experiment id. */
  lemma ExperimentIdTruthy(c: Config, s: State)
    requires ExperimentStep(c, s).0.Ok?
    ensures Truthy(ExperimentStep(c, s).0.value)
  {
    ExperimentStepMeans(c, s);
  }

  /** The experiment just created is found by the next registration when it is the
      first experiment of the submission. */
  lemma {:induction false} CreatedExperimentFoundFirst(c: Config, s: State)
    requires s.experiments == []
    ensures var t := AddExperiment(s, ExperimentPayload(c));
            ExperimentStep(c, t) == (Ok(Int(s.issued + 1)), t)
  {
    var t := AddExperiment(s, ExperimentPayload(c));
    var r := NewRecord(ExperimentPrefix, s.issued, ExperimentPayload(c));
    assert t.experiments == [r];
    ExperimentPayloadCarries(c);
    NewRecordGet(ExperimentPrefix, s.issued, ExperimentPayload(c), "design_description");
    NewRecordGet(ExperimentPrefix, s.issued, ExperimentPayload(c), "study_accession_id");
    NewRecordGet(ExperimentPrefix, s.issued, ExperimentPayload(c), "provisional_id");
    assert ExperimentExists(t.experiments, c.study, DesignDescription(c), "provisional_id") == Ok(Some(Int(s.issued + 1)));
  }

  /** Because only the first experiment is looked at, a submission whose first
      experiment is another one gets a new copy of this experiment every time. */
  lemma {:induction false} FirstExperimentOnly(c: Config, s: State)
    requires s.experiments != []
    requires ExperimentExists(s.experiments, c.study, DesignDescription(c), "provisional_id") == Ok(None)
    ensures var t := ExperimentStep(c, s).1;
            var u := ExperimentStep(c, t).1;
            |t.experiments| == |s.experiments| + 1 && |u.experiments| == |s.experiments| + 2
  {
    ExperimentStepMeans(c, s);
    var t := ExperimentStep(c, s).1;
    ExperimentExistsMeans(s.experiments, c.study, DesignDescription(c), "provisional_id",
                          [NewRecord(ExperimentPrefix, s.issued, ExperimentPayload(c))]);
    ExperimentStepMeans(c, t);
  }

  /** In a valid archive, once the experiment step has run, repeating it changes
      nothing and returns the same result, provided the existence check looked at this
      experiment or at none. */
  lemma {:induction false} ExperimentStepStable(c: Config, s: State, u: State)
    requires Valid(s)
    requires s.experiments == [] ||
             ExperimentExists(s.experiments, c.study, DesignDescription(c), "provisional_id") != Ok(None)
    requires u.experiments == ExperimentStep(c, s).1.experiments
    ensures ExperimentStep(c, u) == (ExperimentStep(c, s).0, u)
  {
    var description := DesignDescription(c);
    var found := ExperimentExists(s.experiments, c.study, description, "provisional_id");
    ExperimentStepMeans(c, s);
    ExperimentStepMeans(c, u);
    if s.experiments == [] {
      CreatedExperimentFoundFirst(c, s);
      CreatedExperimentFoundFirst(c, s.(issued := u.issued));
    } else {
      ExperimentExistsMeans(s.experiments, c.study, description, "provisional_id", []);
      if found.Ok? {
        assert At(s.experiments[0], "provisional_id").Int?;
      }
    }
  }

  // ---------------------------------------------------------------------------
  // The sample

  const NoSampleMessage := "Expected to find 1 sample registered. Instead found none."

  /** Whether a sample record carries the alias. */
  predicate AliasOf(sample: Value, alias: string) {
    sample.Obj? && Get(sample.fields, "alias") == Some(Str(alias))
  }

  /** `_get_metadata_for_registered_sample`: the alias and provisional id of the
      first registered sample with the alias; none raises. */
  function RegisteredSample(samples: seq<Value>, alias: string): Result<Dict> {
    if samples == [] then Err(Raised(NoSampleMessage))
    else
      var a :- Subscript(samples[0], "alias");
      if a == Str(alias) then
        var id :- Subscript(samples[0], "provisional_id");
        Ok([("sample_alias", a), ("sample_provisional_id", id)])
      else RegisteredSample(samples[1..], alias)
  }

  /** A resolved sample is the first with the alias, and its metadata holds the
      alias and that sample's provisional id. */
  lemma {:induction false} RegisteredSampleOk(samples: seq<Value>, alias: string)
    requires RegisteredSample(samples, alias).Ok?
    ensures exists i :: 0 <= i < |samples| && AliasOf(samples[i], alias)
              && HasKey(samples[i].fields, "provisional_id")
              && (forall j :: 0 <= j < i ==> !AliasOf(samples[j], alias))
              && RegisteredSample(samples, alias).value ==
                   [("sample_alias", Str(alias)), ("sample_provisional_id", At(samples[i], "provisional_id"))]
  {
    var first := samples[0];
    var rest := samples[1..];
    if Get(first.fields, "alias") == Some(Str(alias)) {
      assert Lookup(first.fields, "provisional_id").value == At(first, "provisional_id");
      assert AliasOf(samples[0], alias);
    } else {
      RegisteredSampleOk(rest, alias);
      var i :| 0 <= i < |rest| && AliasOf(rest[i], alias) && HasKey(rest[i].fields, "provisional_id")
               && (forall j :: 0 <= j < i ==> !AliasOf(rest[j], alias))
               && RegisteredSample(rest, alias).value ==
                    [("sample_alias", Str(alias)), ("sample_provisional_id", At(rest[i], "provisional_id"))];
      assert samples[i + 1] == rest[i];
      assert forall j :: 1 <= j < i + 1 ==> samples[j] == rest[j - 1];
    }
  }

  /** With every sample a record holding an alias, the sample is resolved iff one
      has the alias, and otherwise the registration stops with the message. */
  lemma {:induction false} RegisteredSampleMissing(samples: seq<Value>, alias: string)
    requires forall j :: 0 <= j < |samples| ==>
               samples[j].Obj? && HasKey(samples[j].fields, "alias") && !AliasOf(samples[j], alias)
    ensures RegisteredSample(samples, alias) == Err(Raised(NoSampleMessage))
  {
    if samples != [] {
      var rest := samples[1..];
      assert forall j :: 0 <= j < |rest| ==> rest[j] == samples[j + 1];
      HasKeyMeans(samples[0].fields, "alias");
      RegisteredSampleMissing(rest, alias);
    }
  }

  // ---------------------------------------------------------------------------
  // The run

  /** What the run check reads of a run record: its experiment's provisional id,
      its sample's provisional id and alias, and its own provisional id. */
  function RunFields(run: Value): Result<(Value, Value, Value, Value)> {
    var experiment :- Subscript(run, "experiment");
    var experimentId :- Subscript(experiment, "provisional_id");
    var sample :- Subscript(run, "sample");
    var sampleId :- Subscript(sample, "provisional_id");
    var alias :- Subscript(sample, "alias");
    var runId :- Subscript(run, "provisional_id");
    Ok((experimentId, sampleId, alias, runId))
  }

  /** Whether a run record is the run of the experiment and the sample. */
  predicate RunOf(run: Value, experimentId: Value, sampleId: Value, alias: Value) {
    var f := RunFields(run);
    f.Ok? && f.value.0 == experimentId && f.value.1 == sampleId && f.value.2 == alias
  }

  /** The loop of `_run_exists`: the id of the first run of the experiment and the
      sample. */
  function FirstMatchingRun(runs: seq<Value>, experimentId: Value, sampleId: Value, alias: Value)
    : Result<Option<Value>>
  {
    if runs == [] then Ok(None)
    else
      var f :- RunFields(runs[0]);
      if f.0 == experimentId && f.1 == sampleId && f.2 == alias then Ok(Some(f.3))
      else FirstMatchingRun(runs[1..], experimentId, sampleId, alias)
  }

  /** `_run_exists`: the sample's alias and provisional id are read first. */
  function RunExists(runs: seq<Value>, experimentId: Value, sampleMetadata: Dict): Result<Option<Value>> {
    var alias :- Lookup(sampleMetadata, "sample_alias");
    var sampleId :- Lookup(sampleMetadata, "sample_provisional_id");
    FirstMatchingRun(runs, experimentId, sampleId, alias)
  }

  /** A found run is the first whose experiment id, sample id and sample alias all
      match, and its provisional id is returned. */
  lemma {:induction false} FirstMatchingRunFound(runs: seq<Value>, experimentId: Value, sampleId: Value, alias: Value)
    requires FirstMatchingRun(runs, experimentId, sampleId, alias).Ok?
    requires FirstMatchingRun(runs, experimentId, sampleId, alias).value.Some?
    ensures exists i :: 0 <= i < |runs| && RunOf(runs[i], experimentId, sampleId, alias)
              && FirstMatchingRun(runs, experimentId, sampleId, alias).value.value == At(runs[i], "provisional_id")
              && forall j :: 0 <= j < i ==> !RunOf(runs[j], experimentId, sampleId, alias)
  {
    FirstMatchingRunStep(runs, experimentId, sampleId, alias);
    if !RunOf(runs[0], experimentId, sampleId, alias) {
      var rest := runs[1..];
      FirstMatchingRunFound(rest, experimentId, sampleId, alias);
      var i :| 0 <= i < |rest| && RunOf(rest[i], experimentId, sampleId, alias)
               && FirstMatchingRun(rest, experimentId, sampleId, alias).value.value == At(rest[i], "provisional_id")
               && forall j :: 0 <= j < i ==> !RunOf(rest[j], experimentId, sampleId, alias);
      assert runs[i + 1] == rest[i];
      NoRunBeforeShift(runs, experimentId, sampleId, alias, i);
    }
  }

  /** The search reads the first run: it answers that run's id when the run
      matches, and otherwise answers what the search of the remaining runs
      does. */
  lemma FirstMatchingRunStep(runs: seq<Value>, experimentId: Value, sampleId: Value, alias: Value)
    requires FirstMatchingRun(runs, experimentId, sampleId, alias).Ok?
    requires FirstMatchingRun(runs, experimentId, sampleId, alias).value.Some?
    ensures runs != [] && RunFields(runs[0]).Ok?
    ensures RunOf(runs[0], experimentId, sampleId, alias) ==>
              FirstMatchingRun(runs, experimentId, sampleId, alias) == Ok(Some(At(runs[0], "provisional_id")))
    ensures !RunOf(runs[0], experimentId, sampleId, alias) ==>
              FirstMatchingRun(runs, experimentId, sampleId, alias) == FirstMatchingRun(runs[1..], experimentId, sampleId, alias)
  {
    if RunOf(runs[0], experimentId, sampleId, alias) {
      assert Lookup(runs[0].fields, "provisional_id").value == At(runs[0], "provisional_id");
    }
  }

  /** No run of the experiment and the sample among the first i runs after the
      first, nor the first: none among the first i + 1. */
  lemma NoRunBeforeShift(runs: seq<Value>, experimentId: Value, sampleId: Value, alias: Value, i: nat)
    requires i < |runs| && !RunOf(runs[0], experimentId, sampleId, alias)
    requires forall j :: 0 <= j < i ==> !RunOf(runs[1..][j], experimentId, sampleId, alias)
    ensures forall j :: 0 <= j < i + 1 ==> !RunOf(runs[j], experimentId, sampleId, alias)
  {
    forall j | 0 < j < i + 1
      ensures !RunOf(runs[j], experimentId, sampleId, alias)
    {
      assert runs[j] == runs[1..][j - 1];
    }
  }

  /** None comes back only when every run was read and none matches. */
  lemma {:induction false} FirstMatchingRunNoneOnlyIf(runs: seq<Value>, experimentId: Value, sampleId: Value, alias: Value, i: nat)
    requires FirstMatchingRun(runs, experimentId, sampleId, alias) == Ok(None) && i < |runs|
    ensures RunFields(runs[i]).Ok? && !RunOf(runs[i], experimentId, sampleId, alias)
  {
    var rest := runs[1..];
    assert RunFields(runs[0]).Ok? && !RunOf(runs[0], experimentId, sampleId, alias);
    if i > 0 {
      assert FirstMatchingRun(runs, experimentId, sampleId, alias) == FirstMatchingRun(rest, experimentId, sampleId, alias);
      assert rest[i - 1] == runs[i];
      FirstMatchingRunNoneOnlyIf(rest, experimentId, sampleId, alias, i - 1);
    }
  }

  /** When every run is read and none matches, None comes back. */
  lemma {:induction false} FirstMatchingRunNoneIf(runs: seq<Value>, experimentId: Value, sampleId: Value, alias: Value)
    requires forall i :: 0 <= i < |runs| ==> RunFields(runs[i]).Ok? && !RunOf(runs[i], experimentId, sampleId, alias)
    ensures FirstMatchingRun(runs, experimentId, sampleId, alias) == Ok(None)
  {
    if runs != [] {
      var rest := runs[1..];
      assert forall i :: 0 <= i < |rest| ==> rest[i] == runs[i + 1];
      FirstMatchingRunNoneIf(rest, experimentId, sampleId, alias);
      assert RunFields(runs[0]).Ok? && !RunOf(runs[0], experimentId, sampleId, alias);
      assert FirstMatchingRun(runs, experimentId, sampleId, alias) == FirstMatchingRun(rest, experimentId, sampleId, alias);
    }
  }

  /** None comes back iff every run was read and none matches. */
  lemma FirstMatchingRunNone(runs: seq<Value>, experimentId: Value, sampleId: Value, alias: Value)
    ensures FirstMatchingRun(runs, experimentId, sampleId, alias) == Ok(None) <==>
              forall i :: 0 <= i < |runs| ==> RunFields(runs[i]).Ok? && !RunOf(runs[i], experimentId, sampleId, alias)
  {
    if FirstMatchingRun(runs, experimentId, sampleId, alias) == Ok(None) {
      forall i | 0 <= i < |runs|
        ensures RunFields(runs[i]).Ok? && !RunOf(runs[i], experimentId, sampleId, alias)
      {
        FirstMatchingRunNoneOnlyIf(runs, experimentId, sampleId, alias, i);
      }
    }
    if forall i :: 0 <= i < |runs| ==> RunFields(runs[i]).Ok? && !RunOf(runs[i], experimentId, sampleId, alias) {
      FirstMatchingRunNoneIf(runs, experimentId, sampleId, alias);
    }
  }

  /** The runs after ones that do not match are looked at as if alone. */
  lemma {:induction false} FirstMatchingRunAppend(runs: seq<Value>, more: seq<Value>,
                                                  experimentId: Value, sampleId: Value, alias: Value)
    requires FirstMatchingRun(runs, experimentId, sampleId, alias) == Ok(None)
    ensures FirstMatchingRun(runs + more, experimentId, sampleId, alias)
            == FirstMatchingRun(more, experimentId, sampleId, alias)
  {
    if runs == [] {
      assert runs + more == more;
    } else {
      assert (runs + more)[0] == runs[0];
      assert (runs + more)[1..] == runs[1..] + more;
      assert RunFields(runs[0]).Ok? && !RunOf(runs[0], experimentId, sampleId, alias);
      assert FirstMatchingRun(runs, experimentId, sampleId, alias) == FirstMatchingRun(runs[1..], experimentId, sampleId, alias);
      assert FirstMatchingRun(runs + more, experimentId, sampleId, alias)
             == FirstMatchingRun(runs[1..] + more, experimentId, sampleId, alias);
      FirstMatchingRunAppend(runs[1..], more, experimentId, sampleId, alias);
    }
  }

  // ---------------------------------------------------------------------------
  // Linking the files

  /** What one inbox file adds: its provisional id when the stem of its file name
      is the alias.  A path that is not text raises TypeError, as Path() does. */
  function FileIdOf(file: Value, alias: string): Result<seq<Value>> {
    var path :- Subscript(file, "relative_path");
    if !path.Str? then Err(TypeError("expected str, bytes or os.PathLike object"))
    else if FileStem(path.s) == alias then
      var id :- Subscript(file, "provisional_id");
      Ok([id])
    else Ok([])
  }

  /** The ids the linking loop collects, file after file. */
  function FileIdsForSample(files: seq<Value>, alias: string): Result<seq<Value>>
    decreases |files|
  {
    if files == [] then Ok([])
    else
      var init :- FileIdsForSample(files[..|files| - 1], alias);
      var last :- FileIdOf(files[|files| - 1], alias);
      Ok(init + last)
  }

  /** An inbox file as the linking reads it: a record with a text path and an id. */
  predicate InboxFile(file: Value) {
    file.Obj? && HasKey(file.fields, "provisional_id")
    && Get(file.fields, "relative_path").Some? && Get(file.fields, "relative_path").value.Str?
  }


  /** One more file: what it adds is appended, or its error is the loop's. */
  lemma FileIdsPrefixStep(files: seq<Value>, i: nat, alias: string)
    requires i < |files| && FileIdsForSample(files[..i], alias).Ok?
    ensures FileIdsForSample(files[..i + 1], alias) ==
              match FileIdOf(files[i], alias)
              case Err(e) => Err(e)
              case Ok(added) => Ok(FileIdsForSample(files[..i], alias).value + added)
  {
    assert files[..i + 1][..i] == files[..i] && files[..i + 1][i] == files[i];
  }

  /** A file that raises stops the loop: the error is the whole loop's. */
  lemma {:induction false} FileIdsErrorPersists(files: seq<Value>, k: nat, alias: string)
    requires k <= |files| && FileIdsForSample(files[..k], alias).Err?
    ensures FileIdsForSample(files, alias) == FileIdsForSample(files[..k], alias)
    decreases |files| - k
  {
    if k < |files| {
      assert files[..k + 1][..k] == files[..k];
      FileIdsErrorPersists(files, k + 1, alias);
    } else {
      assert files[..k] == files;
    }
  }

  /** The ids of two runs of files are those of each, in order: the files keep their
      inbox order. */
  lemma {:induction false} FileIdsConcat(a: seq<Value>, b: seq<Value>, alias: string)
    requires FileIdsForSample(a, alias).Ok? && FileIdsForSample(b, alias).Ok?
    ensures FileIdsForSample(a + b, alias) == Ok(FileIdsForSample(a, alias).value + FileIdsForSample(b, alias).value)
    decreases |b|
  {
    if b == [] {
      assert a + b == a;
      assert FileIdsForSample(a, alias).value + [] == FileIdsForSample(a, alias).value;
    } else {
      var n := |b| - 1;
      assert (a + b)[..|a + b| - 1] == a + b[..n];
      assert (a + b)[|a + b| - 1] == b[n];
      assert b[..|b| - 1] == b[..n];
      var last := FileIdOf(b[n], alias);
      assert last.Ok?;
      FileIdsConcat(a, b[..n], alias);
      var x, y, z := FileIdsForSample(a, alias).value, FileIdsForSample(b[..n], alias).value, last.value;
      assert FileIdsForSample(b, alias).value == y + z;
      assert FileIdsForSample(a + b, alias).value == (x + y) + z;
      assert (x + y) + z == x + (y + z);
    }
  }

  /** What a well-formed inbox file adds. */
  lemma FileIdOfInbox(file: Value, alias: string)
    requires InboxFile(file)
    ensures FileIdOf(file, alias) == Ok(if StemOf(file) == alias then [At(file, "provisional_id")] else [])
  {
    assert Lookup(file.fields, "provisional_id").value == At(file, "provisional_id");
    assert Lookup(file.fields, "relative_path").value == Get(file.fields, "relative_path").value;
  }

  /** What a well-formed inbox file adds to the collected ids. */
  function LinkedId(file: Value, alias: string): seq<Value>
    requires InboxFile(file)
  {
    if StemOf(file) == alias then [At(file, "provisional_id")] else []
  }

  /** For well-formed inbox files the loop succeeds, each file adding what it adds alone. */
  lemma {:induction false} FileIdsForSampleOk(files: seq<Value>, alias: string)
    requires forall i :: 0 <= i < |files| ==> InboxFile(files[i])
    ensures FileIdsForSample(files, alias).Ok?
    ensures files != [] ==>
              FileIdsForSample(files, alias).value ==
                FileIdsForSample(files[..|files| - 1], alias).value + LinkedId(files[|files| - 1], alias)
    decreases |files|
  {
    if files != [] {
      var n := |files| - 1;
      FileIdsForSampleOk(files[..n], alias);
      FileIdOfInbox(files[n], alias);
    }
  }

  /** Every collected id is the id of a file whose stem is the alias. */
  lemma {:induction false} FileIdsForSampleFrom(files: seq<Value>, alias: string, v: Value)
    requires forall i :: 0 <= i < |files| ==> InboxFile(files[i])
    requires FileIdsForSample(files, alias).Ok? && v in FileIdsForSample(files, alias).value
    ensures exists i :: 0 <= i < |files| && StemOf(files[i]) == alias && At(files[i], "provisional_id") == v
    decreases |files|
  {
    FileIdsForSampleOk(files, alias);
    var n := |files| - 1;
    var init := files[..n];
    if v in FileIdsForSample(init, alias).value {
      assert forall j :: 0 <= j < n ==> init[j] == files[j];
      FileIdsForSampleFrom(init, alias, v);
      var i :| 0 <= i < n && StemOf(init[i]) == alias && At(init[i], "provisional_id") == v;
      assert init[i] == files[i];
    } else {
      assert StemOf(files[n]) == alias && At(files[n], "provisional_id") == v;
    }
  }

  /** The ids collected from the files but the last are among those collected from all. */
  lemma FileIdsForSampleInit(files: seq<Value>, alias: string, v: Value)
    requires forall j :: 0 <= j < |files| ==> InboxFile(files[j])
    requires files != [] && FileIdsForSample(files[..|files| - 1], alias).Ok?
    requires v in FileIdsForSample(files[..|files| - 1], alias).value
    ensures FileIdsForSample(files, alias).Ok? && v in FileIdsForSample(files, alias).value
  {
    FileIdsForSampleOk(files, alias);
  }

  /** The id of every file whose stem is the alias is collected. */
  lemma {:induction false} FileIdsForSampleKeeps(files: seq<Value>, alias: string, i: nat)
    requires forall j :: 0 <= j < |files| ==> InboxFile(files[j])
    requires i < |files| && StemOf(files[i]) == alias
    ensures FileIdsForSample(files, alias).Ok?
    ensures At(files[i], "provisional_id") in FileIdsForSample(files, alias).value
    decreases |files|
  {
    var n := |files| - 1;
    if i < n {
      var init := files[..n];
      assert forall j :: 0 <= j < n ==> init[j] == files[j];
      FileIdsForSampleKeeps(init, alias, i);
      FileIdsForSampleInit(files, alias, At(files[i], "provisional_id"));
    } else {
      FileIdsForSampleLast(files, alias);
    }
  }

  /** The id of the last file is collected when its stem is the alias. */
  lemma FileIdsForSampleLast(files: seq<Value>, alias: string)
    requires forall j :: 0 <= j < |files| ==> InboxFile(files[j])
    requires files != [] && StemOf(files[|files| - 1]) == alias
    ensures FileIdsForSample(files, alias).Ok?
    ensures At(files[|files| - 1], "provisional_id") in FileIdsForSample(files, alias).value
  {
    FileIdsForSampleOk(files, alias);
    var n := |files| - 1;
    assert LinkedId(files[n], alias) == [At(files[n], "provisional_id")];
  }

  /** No id is collected iff no file's stem is the alias. */
  lemma FileIdsForSampleEmpty(files: seq<Value>, alias: string)
    requires forall i :: 0 <= i < |files| ==> InboxFile(files[i])
    ensures FileIdsForSample(files, alias).Ok?
    ensures FileIdsForSample(files, alias).value == [] <==>
              forall i :: 0 <= i < |files| ==> StemOf(files[i]) != alias
  {
    FileIdsForSampleOk(files, alias);
    var ids := FileIdsForSample(files, alias).value;
    if ids == [] {
      forall i | 0 <= i < |files|
        ensures StemOf(files[i]) != alias
      {
        if StemOf(files[i]) == alias {
          FileIdsForSampleKeeps(files, alias, i);
        }
      }
    } else {
      FileIdsForSampleFrom(files, alias, ids[0]);
    }
  }

  const NoFileMessagePrefix := "Expected to find at least 1 file associated with sample "

  /** `_link_files_to_samples`: the sample metadata gains the list of the ids
      collected; no id raises. */
  function LinkedSample(files: seq<Value>, sampleMetadata: Dict, alias: string): Result<Dict> {
    var ids :- FileIdsForSample(files, alias);
    if ids == [] then Err(Raised(NoFileMessagePrefix + alias + ". Instead found none."))
    else Ok(Put(sampleMetadata, "files", List(ids)))
  }

  /** Linking succeeds iff some well-formed file has the alias as its stem; the
      metadata then holds every matching id under "files" and keeps the rest. */
  lemma LinkedSampleMeans(files: seq<Value>, sampleMetadata: Dict, alias: string)
    requires forall i :: 0 <= i < |files| ==> InboxFile(files[i])
    ensures LinkedSample(files, sampleMetadata, alias).Ok? <==>
              exists i :: 0 <= i < |files| && StemOf(files[i]) == alias
    ensures LinkedSample(files, sampleMetadata, alias).Err? ==>
              LinkedSample(files, sampleMetadata, alias)
              == Err(Raised(NoFileMessagePrefix + alias + ". Instead found none."))
    ensures LinkedSample(files, sampleMetadata, alias).Ok? ==>
              var linked := LinkedSample(files, sampleMetadata, alias).value;
              && Get(linked, "files") == Some(List(FileIdsForSample(files, alias).value))
              && forall k :: k != "files" ==> Get(linked, k) == Get(sampleMetadata, k)
  {
    FileIdsForSampleEmpty(files, alias);
  }

  const NoInboxFileMessage := "Expected to find at least 1 file in the inbox. Instead found none."

  /** `get_file_metadata_for_all_files_in_inbox`: an empty inbox raises. */
  function InboxFiles(files: seq<Value>): (r: Result<seq<Value>>)
    ensures r.Ok? <==> files != []
    ensures r.Ok? ==> r.value == files
    ensures r.Err? ==> r.error == Raised(NoInboxFileMessage)
  {
    if files == [] then Err(Raised(NoInboxFileMessage)) else Ok(files)
  }

  /** The body of the run POST. */
  function RunBody(c: Config, experimentId: Value, files: Value, sampleId: Value): Dict {
    [("run_file_type", Str(c.runFileType)), ("files", files),
     ("experiment_provisional_id", experimentId), ("sample_provisional_id", sampleId)]
  }

  /** The body of the run POST, read from the linked sample metadata. */
  function RunPayload(c: Config, experimentId: Value, linked: Dict): Result<Dict> {
    var files :- Lookup(linked, "files");
    var sampleId :- Lookup(linked, "sample_provisional_id");
    Ok(RunBody(c, experimentId, files, sampleId))
  }

  /** The run to create: the inbox is read, the files are linked, the POST body is built. */
  function NewRunPayload(c: Config, s: State, experimentId: Value, sampleMetadata: Dict): Result<Dict> {
    var files :- InboxFiles(s.files);
    var linked :- LinkedSample(files, sampleMetadata, c.sampleAlias);
    RunPayload(c, experimentId, linked)
  }

  /** `[a["provisional_id"] for a in response.json()][0]`. */
  function CreatedRunId(answer: Value): Result<Value> {
    var items :- Iterate(answer);
    FirstField(items, "provisional_id")
  }

  /** Creating a run yields the new record's provisional id. */
  lemma CreatedRunIdOfAnswer(s: State, payload: Dict)
    ensures CreatedRunId(RunAnswer(s, payload)) == Ok(Int(s.issued + 1))
  {
    var r := RunRecord(s, payload);
    var e := Reference(payload, "experiment_provisional_id", "experiment_accession_id");
    var m := Reference(payload, "sample_provisional_id", "sample_accession_id");
    NewRecordGet(RunPrefix, s.issued,
                 [("experiment", Referenced(s.experiments, e.0, e.1)), ("sample", Referenced(s.samples, m.0, m.1))] + payload,
                 "provisional_id");
    EachFieldMeans([r], "provisional_id");
  }

  /** `_conditionally_register_run`: the id of the existing run when it is truthy;
      otherwise the id of the run created from the linked files.  The inbox query
      raises rather than answer nothing, so the branch that returns None is never
      taken. */
  function RunStep(c: Config, s: State, experimentId: Value, sampleMetadata: Dict): (Result<Value>, State) {
    var found := RunExists(s.runs, experimentId, sampleMetadata);
    if found.Err? then (Err(found.error), s)
    else if found.value.Some? && Truthy(found.value.value) then (Ok(found.value.value), s)
    else
      var payload := NewRunPayload(c, s, experimentId, sampleMetadata);
      if payload.Err? then (Err(payload.error), s)
      else (CreatedRunId(RunAnswer(s, payload.value)), AddRun(s, payload.value))
  }

  /** The sample metadata after `_conditionally_register_run`: it gains the file ids
      under "files" when no truthy run exists, the inbox is not empty and linking
      succeeds (line 266 updates the dict in place, before the POST body is built);
      otherwise it is unchanged. */
  function RunStepSample(c: Config, s: State, experimentId: Value, sampleMetadata: Dict): Dict {
    var found := RunExists(s.runs, experimentId, sampleMetadata);
    if found.Err? || (found.value.Some? && Truthy(found.value.value)) || s.files == [] then sampleMetadata
    else
      var linked := LinkedSample(s.files, sampleMetadata, c.sampleAlias);
      if linked.Ok? then linked.value else sampleMetadata
  }

  /** When no truthy run exists and some well-formed inbox file is the sample's, the
      metadata holds the ids of all the sample's files under "files" and keeps its
      other keys; when a truthy run exists, the query raises or the inbox is empty,
      or no well-formed inbox file is the sample's, it is unchanged. */
  lemma RunStepSampleMeans(c: Config, s: State, experimentId: Value, sampleMetadata: Dict)
    ensures var found := RunExists(s.runs, experimentId, sampleMetadata);
            var linked := RunStepSample(c, s, experimentId, sampleMetadata);
            found.Ok? && !(found.value.Some? && Truthy(found.value.value)) &&
            (forall i :: 0 <= i < |s.files| ==> InboxFile(s.files[i])) &&
            (exists i :: 0 <= i < |s.files| && StemOf(s.files[i]) == c.sampleAlias) ==>
              && FileIdsForSample(s.files, c.sampleAlias).Ok?
              && Get(linked, "files") == Some(List(FileIdsForSample(s.files, c.sampleAlias).value))
              && forall k :: k != "files" ==> Get(linked, k) == Get(sampleMetadata, k)
    ensures var found := RunExists(s.runs, experimentId, sampleMetadata);
            found.Err? || (found.value.Some? && Truthy(found.value.value)) || s.files == [] ||
            ((forall i :: 0 <= i < |s.files| ==> InboxFile(s.files[i])) &&
             (forall i :: 0 <= i < |s.files| ==> StemOf(s.files[i]) != c.sampleAlias)) ==>
              RunStepSample(c, s, experimentId, sampleMetadata) == sampleMetadata
  {
    if forall i :: 0 <= i < |s.files| ==> InboxFile(s.files[i]) {
      LinkedSampleMeans(s.files, sampleMetadata, c.sampleAlias);
    }
  }

  /** What the run step does: an existing truthy run is returned and nothing is
      created; otherwise an empty inbox or a sample without files raises and
      nothing is created. */
  lemma RunStepMeans(c: Config, s: State, experimentId: Value, sampleMetadata: Dict)
    ensures var found := RunExists(s.runs, experimentId, sampleMetadata);
            found.Err? ==> RunStep(c, s, experimentId, sampleMetadata) == (Err(found.error), s)
    ensures var found := RunExists(s.runs, experimentId, sampleMetadata);
            found.Ok? && found.value.Some? && Truthy(found.value.value) ==>
              RunStep(c, s, experimentId, sampleMetadata) == (Ok(found.value.value), s)
    ensures var found := RunExists(s.runs, experimentId, sampleMetadata);
            found.Ok? && !(found.value.Some? && Truthy(found.value.value)) && s.files == [] ==>
              RunStep(c, s, experimentId, sampleMetadata) == (Err(Raised(NoInboxFileMessage)), s)
    ensures var found := RunExists(s.runs, experimentId, sampleMetadata);
            found.Ok? && !(found.value.Some? && Truthy(found.value.value)) &&
            (forall i :: 0 <= i < |s.files| ==> InboxFile(s.files[i])) &&
            (forall i :: 0 <= i < |s.files| ==> StemOf(s.files[i]) != c.sampleAlias) && s.files != [] ==>
              RunStep(c, s, experimentId, sampleMetadata)
              == (Err(Raised(NoFileMessagePrefix + c.sampleAlias + ". Instead found none.")), s)
  {
    var found := RunExists(s.runs, experimentId, sampleMetadata);
    if found.Ok? && !(found.value.Some? && Truthy(found.value.value)) &&
       (forall i :: 0 <= i < |s.files| ==> InboxFile(s.files[i])) {
      LinkedSampleMeans(s.files, sampleMetadata, c.sampleAlias);
    }
  }

  /** When no truthy run exists and some inbox file is the sample's, exactly one run
      is created, carrying the ids of all the sample's files in inbox order, the
      experiment id and the sample's provisional id; its id is returned. */
  lemma RunStepCreates(c: Config, s: State, experimentId: Value, sampleMetadata: Dict)
    requires var found := RunExists(s.runs, experimentId, sampleMetadata);
             found.Ok? && !(found.value.Some? && Truthy(found.value.value))
    requires forall i :: 0 <= i < |s.files| ==> InboxFile(s.files[i])
    requires exists i :: 0 <= i < |s.files| && StemOf(s.files[i]) == c.sampleAlias
    requires HasKey(sampleMetadata, "sample_provisional_id")
    ensures FileIdsForSample(s.files, c.sampleAlias).Ok?
    ensures var body := RunBody(c, experimentId, List(FileIdsForSample(s.files, c.sampleAlias).value),
                                Get(sampleMetadata, "sample_provisional_id").value);
            RunStep(c, s, experimentId, sampleMetadata) == (Ok(Int(s.issued + 1)), AddRun(s, body))
  {
    LinkedSampleMeans(s.files, sampleMetadata, c.sampleAlias);
    HasKeyMeans(sampleMetadata, "sample_provisional_id");
    var body := RunBody(c, experimentId, List(FileIdsForSample(s.files, c.sampleAlias).value),
                        Get(sampleMetadata, "sample_provisional_id").value);
    assert NewRunPayload(c, s, experimentId, sampleMetadata) == Ok(body);
    CreatedRunIdOfAnswer(s, body);
  }

  // ---------------------------------------------------------------------------
  // A created run is found again

  /** The run body names the experiment and the sample by provisional id. */
  lemma RunBodyReferences(c: Config, experimentId: Value, files: Value, sampleId: Value)
    ensures Reference(RunBody(c, experimentId, files, sampleId), "experiment_provisional_id", "experiment_accession_id")
            == ("provisional_id", experimentId)
    ensures Reference(RunBody(c, experimentId, files, sampleId), "sample_provisional_id", "sample_accession_id")
            == ("provisional_id", sampleId)
  {
    var b := RunBody(c, experimentId, files, sampleId);
    var e, m := "experiment_provisional_id", "sample_provisional_id";
    assert b[1..][1..][0] == (e, experimentId);
    assert b[1..][1..][1..][0] == (m, sampleId);
    assert Get(b, e) == Get(b[1..], e) == Get(b[1..][1..], e) == Some(experimentId);
    assert Get(b, m) == Get(b[1..], m) == Get(b[1..][1..], m) == Get(b[1..][1..][1..], m) == Some(sampleId);
  }

  /** In samples with unique provisional ids, the sample a run refers to by the
      resolved sample's id is the resolved sample: it answers that id and the alias. */
  lemma {:induction false} ResolvedSampleReferenced(samples: seq<Value>, alias: string, sampleId: Value, issued: nat)
    requires IssuedIds(samples, issued)
    requires RegisteredSample(samples, alias) == Ok([("sample_alias", Str(alias)), ("sample_provisional_id", sampleId)])
    ensures var r := Referenced(samples, "provisional_id", sampleId);
            Subscript(r, "provisional_id") == Ok(sampleId) && Subscript(r, "alias") == Ok(Str(alias))
  {
    RegisteredSampleOk(samples, alias);
    var i :| 0 <= i < |samples| && AliasOf(samples[i], alias)
             && HasKey(samples[i].fields, "provisional_id")
             && (forall j :: 0 <= j < i ==> !AliasOf(samples[j], alias))
             && RegisteredSample(samples, alias).value ==
                  [("sample_alias", Str(alias)), ("sample_provisional_id", At(samples[i], "provisional_id"))];
    assert At(samples[i], "provisional_id") == sampleId;
    ReferencedFirst(samples, "provisional_id", sampleId, i);
    PresentAt(samples[i], "provisional_id");
    assert Lookup(samples[i].fields, "alias") == Ok(Str(alias));
  }

  /** The sample metadata `_get_metadata_for_registered_sample` hands on. */
  function SampleMetadata(alias: string, sampleId: Value): Dict {
    [("sample_alias", Str(alias)), ("sample_provisional_id", sampleId)]
  }

  /** A run created for a truthy experiment id and a resolved sample reads back, in
      the run check, as the run of that experiment and sample with the new id. */
  lemma NewRunFields(c: Config, s: State, experimentId: Value, files: Value, sampleId: Value)
    requires Valid(s) && Truthy(experimentId)
    requires RegisteredSample(s.samples, c.sampleAlias) == Ok(SampleMetadata(c.sampleAlias, sampleId))
    ensures RunFields(RunRecord(s, RunBody(c, experimentId, files, sampleId)))
            == Ok((experimentId, sampleId, Str(c.sampleAlias), Int(s.issued + 1)))
  {
    var body := RunBody(c, experimentId, files, sampleId);
    RunBodyReferences(c, experimentId, files, sampleId);
    var e := Referenced(s.experiments, "provisional_id", experimentId);
    var m := Referenced(s.samples, "provisional_id", sampleId);
    PresentAt(e, "provisional_id");
    ResolvedSampleReferenced(s.samples, c.sampleAlias, sampleId, s.issued);
    var fields := [("experiment", e), ("sample", m)] + body;
    assert fields[0] == ("experiment", e);
    assert fields[1..][0] == ("sample", m);
    NewRecordGet(RunPrefix, s.issued, fields, "experiment");
    NewRecordGet(RunPrefix, s.issued, fields, "sample");
    NewRecordGet(RunPrefix, s.issued, fields, "provisional_id");
  }

  /** After a run is created where none matched, the run check finds it. */
  lemma CreatedRunFound(c: Config, s: State, experimentId: Value, files: Value, sampleId: Value)
    requires Valid(s) && Truthy(experimentId)
    requires RegisteredSample(s.samples, c.sampleAlias) == Ok(SampleMetadata(c.sampleAlias, sampleId))
    requires RunExists(s.runs, experimentId, SampleMetadata(c.sampleAlias, sampleId)) == Ok(None)
    ensures RunExists(AddRun(s, RunBody(c, experimentId, files, sampleId)).runs, experimentId,
                      SampleMetadata(c.sampleAlias, sampleId))
            == Ok(Some(Int(s.issued + 1)))
  {
    var m := SampleMetadata(c.sampleAlias, sampleId);
    var alias := Str(c.sampleAlias);
    assert Lookup(m, "sample_alias") == Ok(alias);
    assert m[1..][0] == ("sample_provisional_id", sampleId);
    assert Get(m, "sample_provisional_id") == Get(m[1..], "sample_provisional_id") == Some(sampleId);
    var r := RunRecord(s, RunBody(c, experimentId, files, sampleId));
    NewRunFields(c, s, experimentId, files, sampleId);
    FirstMatchingRunAppend(s.runs, [r], experimentId, sampleId, alias);
  }

  /** In a valid archive a found run id is an issued one, hence truthy. */
  lemma FoundRunTruthy(s: State, experimentId: Value, sampleMetadata: Dict)
    requires Valid(s)
    requires RunExists(s.runs, experimentId, sampleMetadata).Ok?
    requires RunExists(s.runs, experimentId, sampleMetadata).value.Some?
    ensures Truthy(RunExists(s.runs, experimentId, sampleMetadata).value.value)
  {
    var alias := Lookup(sampleMetadata, "sample_alias").value;
    var sampleId := Lookup(sampleMetadata, "sample_provisional_id").value;
    FirstMatchingRunFound(s.runs, experimentId, sampleId, alias);
  }

  /** A run body built from the resolved sample's metadata links the ids the loop
      collected and names the resolved sample. */
  lemma NewRunPayloadOk(c: Config, s: State, experimentId: Value, sampleId: Value)
    requires NewRunPayload(c, s, experimentId, SampleMetadata(c.sampleAlias, sampleId)).Ok?
    ensures FileIdsForSample(s.files, c.sampleAlias).Ok?
    ensures NewRunPayload(c, s, experimentId, SampleMetadata(c.sampleAlias, sampleId))
            == Ok(RunBody(c, experimentId, List(FileIdsForSample(s.files, c.sampleAlias).value), sampleId))
  {
    var m := SampleMetadata(c.sampleAlias, sampleId);
    assert m[1..][0] == ("sample_provisional_id", sampleId);
    assert Get(m, "sample_provisional_id") == Get(m[1..], "sample_provisional_id") == Some(sampleId);
    var linked := Put(m, "files", List(FileIdsForSample(s.files, c.sampleAlias).value));
    assert Get(linked, "sample_provisional_id") == Some(sampleId);
  }

  /** In a valid archive, once the run step has run for a resolved sample and a
      truthy experiment id, repeating it changes nothing and returns the same id:
      a created run is found by the next check. */
  lemma RunStepStable(c: Config, s: State, experimentId: Value, sampleId: Value)
    requires Valid(s) && Truthy(experimentId)
    requires RegisteredSample(s.samples, c.sampleAlias) == Ok(SampleMetadata(c.sampleAlias, sampleId))
    ensures var m := SampleMetadata(c.sampleAlias, sampleId);
            var t := RunStep(c, s, experimentId, m).1;
            RunStep(c, t, experimentId, m) == RunStep(c, s, experimentId, m)
  {
    var m := SampleMetadata(c.sampleAlias, sampleId);
    var found := RunExists(s.runs, experimentId, m);
    if found.Ok? && found.value.Some? {
      FoundRunTruthy(s, experimentId, m);
    }
    if found.Ok? && found.value.None? && NewRunPayload(c, s, experimentId, m).Ok? {
      NewRunPayloadOk(c, s, experimentId, sampleId);
      var files := List(FileIdsForSample(s.files, c.sampleAlias).value);
      var body := RunBody(c, experimentId, files, sampleId);
      CreatedRunIdOfAnswer(s, body);
      CreatedRunFound(c, s, experimentId, files, sampleId);
      assert RunStep(c, s, experimentId, m) == (Ok(Int(s.issued + 1)), AddRun(s, body));
    }
  }

  // ---------------------------------------------------------------------------
  // The registration

  /** The row `_write_tsv` writes under its header. */
  function TsvRow(sampleId: string, runId: Value): Dict {
    [("entity:sample_id", Str(sampleId)), ("ega_run_provisional_id", runId)]
  }

  /** What `register_metadata` does after the experiment step: the sample, then
      the run step when the experiment id and the sample metadata are both truthy,
      and the row to write when the run id is truthy (None when nothing is written). */
  function RunRegistration(c: Config, s: State, experimentId: Value): (Result<Option<Dict>>, State) {
    var m := RegisteredSample(s.samples, c.sampleAlias);
    if m.Err? then (Err(m.error), s)
    else if !(Truthy(experimentId) && m.value != []) then (Ok(None), s)
    else
      var (r, t) := RunStep(c, s, experimentId, m.value);
      if r.Err? then (Err(r.error), t)
      else if Truthy(r.value) then (Ok(Some(TsvRow(c.sampleId, r.value))), t)
      else (Ok(None), t)
  }

  /** `register_metadata`. */
  function Registration(c: Config, s: State): (Result<Option<Dict>>, State) {
    var (e, s1) := ExperimentStep(c, s);
    if e.Err? then (Err(e.error), s1) else RunRegistration(c, s1, e.value)
  }

  /** A resolved sample is always truthy metadata: its alias and a provisional id. */
  lemma RegisteredSampleShape(samples: seq<Value>, alias: string)
    requires RegisteredSample(samples, alias).Ok?
    ensures exists sampleId :: RegisteredSample(samples, alias) == Ok(SampleMetadata(alias, sampleId))
  {
    RegisteredSampleOk(samples, alias);
    var i :| 0 <= i < |samples| && AliasOf(samples[i], alias)
             && HasKey(samples[i].fields, "provisional_id")
             && (forall j :: 0 <= j < i ==> !AliasOf(samples[j], alias))
             && RegisteredSample(samples, alias).value ==
                  [("sample_alias", Str(alias)), ("sample_provisional_id", At(samples[i], "provisional_id"))];
    assert RegisteredSample(samples, alias) == Ok(SampleMetadata(alias, At(samples[i], "provisional_id")));
  }

  /** The guard before the run step never stops a registration: a successful
      experiment step yields a truthy id and a resolved sample non-empty metadata.
      A registration that fails to resolve the sample creates no run. */
  lemma RegistrationGuard(c: Config, s: State)
    ensures var (e, s1) := ExperimentStep(c, s);
            e.Ok? && RegisteredSample(s1.samples, c.sampleAlias).Ok? ==>
              Truthy(e.value) && RegisteredSample(s1.samples, c.sampleAlias).value != []
    ensures var (e, s1) := ExperimentStep(c, s);
            e.Ok? && RegisteredSample(s.samples, c.sampleAlias).Err? ==>
              Registration(c, s) == (Err(RegisteredSample(s.samples, c.sampleAlias).error), s1)
              && Registration(c, s).1.runs == s.runs
  {
    ExperimentStepMeans(c, s);
    var (e, s1) := ExperimentStep(c, s);
    if e.Ok? && RegisteredSample(s1.samples, c.sampleAlias).Ok? {
      ExperimentIdTruthy(c, s);
      RegisteredSampleShape(s1.samples, c.sampleAlias);
    }
  }

  /** The experiment step keeps a valid archive valid and its samples as they are. */
  lemma ExperimentStepValid(c: Config, s: State)
    requires Valid(s)
    ensures Valid(ExperimentStep(c, s).1)
    ensures ExperimentStep(c, s).1.samples == s.samples
  {
    ExperimentStepMeans(c, s);
    AddExperimentValid(s, ExperimentPayload(c));
  }

  /** The run step touches only the runs and the identifiers issued. */
  lemma RunStepKeeps(c: Config, s: State, experimentId: Value, sampleMetadata: Dict)
    ensures var t := RunStep(c, s, experimentId, sampleMetadata).1;
            t.experiments == s.experiments && t.samples == s.samples && t.files == s.files
            && t.datasets == s.datasets && t.policies == s.policies && t.finalised == s.finalised
  {
  }

  /** After the experiment step, running the rest again changes nothing and gives
      the same answer; it never touches the experiments or the samples. */
  lemma RunRegistrationStable(c: Config, s: State, experimentId: Value)
    requires Valid(s) && Truthy(experimentId)
    ensures var t := RunRegistration(c, s, experimentId).1;
            t.experiments == s.experiments && t.samples == s.samples
    ensures RunRegistration(c, RunRegistration(c, s, experimentId).1, experimentId) == RunRegistration(c, s, experimentId)
  {
    var m := RegisteredSample(s.samples, c.sampleAlias);
    if m.Ok? {
      RegisteredSampleShape(s.samples, c.sampleAlias);
      var sampleId :| m == Ok(SampleMetadata(c.sampleAlias, sampleId));
      var step := RunStep(c, s, experimentId, m.value);
      RunStepKeeps(c, s, experimentId, m.value);
      RunStepStable(c, s, experimentId, sampleId);
      assert RegisteredSample(step.1.samples, c.sampleAlias) == m;
    }
  }

  /** Registering again after a registration changes nothing and gives the same
      answer, in a valid archive whose existence check looks at this experiment or
      at none: the script can be rerun after a transient failure. */
  lemma RegistrationIdempotent(c: Config, s: State)
    requires Valid(s)
    requires s.experiments == [] ||
             ExperimentExists(s.experiments, c.study, DesignDescription(c), "provisional_id") != Ok(None)
    ensures Registration(c, Registration(c, s).1) == Registration(c, s)
  {
    var (e, s1) := ExperimentStep(c, s);
    ExperimentStepValid(c, s);
    if e.Ok? {
      ExperimentIdTruthy(c, s);
      RunRegistrationStable(c, s1, e.value);
      var t := RunRegistration(c, s1, e.value).1;
      ExperimentStepStable(c, s, t);
    } else {
      ExperimentStepStable(c, s, s1);
    }
  }

  // ---------------------------------------------------------------------------
  // The script

  /** RegisterEgaExperimentsAndRuns: one sample's registration against the archive. */
  class RegisterEgaExperimentsAndRuns {
    const config: Config
    const archive: Archive

    constructor (config: Config, archive: Archive)
      ensures this.config == config && this.archive == archive
    {
      this.config := config;
      this.archive := archive;
    }

    /** `_conditionally_create_experiment`. */
    method ConditionallyCreateExperiment() returns (r: Result<Value>)
      modifies archive
      ensures (r, archive.Contents()) == ExperimentStep(config, old(archive.Contents()))
    {
      var description := DesignDescription(config);
      var found := ExperimentExists(archive.experiments, config.study, description, "provisional_id");
      if found.Err? {
        return Err(found.error);
      }
      if found.value.Some? && Truthy(found.value.value) {
        return Ok(found.value.value);
      }
      var answer := archive.CreateExperiment(ExperimentPayload(config));
      r := CreatedExperimentId(answer, description);
    }

    /** `_get_metadata_for_registered_sample`: the loop over the registered samples. */
    method GetMetadataForRegisteredSample() returns (r: Result<Dict>)
      ensures r == RegisteredSample(archive.samples, config.sampleAlias)
    {
      var samples := archive.samples;
      var alias := config.sampleAlias;
      var i := 0;
      while i < |samples|
        invariant 0 <= i <= |samples|
        invariant RegisteredSample(samples[i..], alias) == RegisteredSample(samples, alias)
      {
        assert samples[i..][0] == samples[i] && samples[i..][1..] == samples[i + 1..];
        var a := Subscript(samples[i], "alias");
        if a.Err? {
          return Err(a.error);
        }
        if a.value == Str(alias) {
          var id := Subscript(samples[i], "provisional_id");
          if id.Err? {
            return Err(id.error);
          }
          return Ok([("sample_alias", a.value), ("sample_provisional_id", id.value)]);
        }
        i := i + 1;
      }
      return Err(Raised(NoSampleMessage));
    }

    /** `_run_exists`: the loop over the registered runs. */
    method RunExistsQuery(experimentId: Value, sampleMetadata: Dict) returns (r: Result<Option<Value>>)
      ensures r == RunExists(archive.runs, experimentId, sampleMetadata)
    {
      var runs := archive.runs;
      var alias := Lookup(sampleMetadata, "sample_alias");
      if alias.Err? {
        return Err(alias.error);
      }
      var sampleId := Lookup(sampleMetadata, "sample_provisional_id");
      if sampleId.Err? {
        return Err(sampleId.error);
      }
      var i := 0;
      while i < |runs|
        invariant 0 <= i <= |runs|
        invariant FirstMatchingRun(runs[i..], experimentId, sampleId.value, alias.value)
                  == FirstMatchingRun(runs, experimentId, sampleId.value, alias.value)
      {
        assert runs[i..][0] == runs[i] && runs[i..][1..] == runs[i + 1..];
        var f := RunFields(runs[i]);
        if f.Err? {
          return Err(f.error);
        }
        var (runExperimentId, runSampleId, runSampleAlias, runId) := f.value;
        if runExperimentId == experimentId && runSampleId == sampleId.value && runSampleAlias == alias.value {
          return Ok(Some(runId));
        }
        i := i + 1;
      }
      return Ok(None);
    }

    /** `_link_files_to_samples`: collects, file after file, the ids of the files whose
        name stem is the alias, and stores them in the sample metadata. */
    method LinkFilesToSamples(fileMetadata: seq<Value>, sampleMetadata: PyDict) returns (r: Result<Dict>)
      modifies sampleMetadata
      ensures r == LinkedSample(fileMetadata, old(sampleMetadata.entries), config.sampleAlias)
      ensures sampleMetadata.entries == if r.Ok? then r.value else old(sampleMetadata.entries)
    {
      var alias := config.sampleAlias;
      var files: seq<Value> := [];
      var i := 0;
      while i < |fileMetadata|
        invariant 0 <= i <= |fileMetadata|
        invariant FileIdsForSample(fileMetadata[..i], alias) == Ok(files)
        invariant unchanged(sampleMetadata)
      {
        var added := FileIdOf(fileMetadata[i], alias);
        FileIdsPrefixStep(fileMetadata, i, alias);
        if added.Err? {
          FileIdsErrorPersists(fileMetadata, i + 1, alias);
          return Err(added.error);
        }
        files := files + added.value;
        i := i + 1;
      }
      assert fileMetadata[..i] == fileMetadata;
      if files == [] {
        return Err(Raised(NoFileMessagePrefix + alias + ". Instead found none."));
      }
      sampleMetadata.Update("files", List(files));
      r := Ok(sampleMetadata.entries);
    }

    /** `_conditionally_register_run`. */
    method ConditionallyRegisterRun(experimentId: Value, sampleMetadata: PyDict) returns (r: Result<Value>)
      modifies archive, sampleMetadata
      ensures (r, archive.Contents()) == RunStep(config, old(archive.Contents()), experimentId, old(sampleMetadata.entries))
      ensures sampleMetadata.entries
              == RunStepSample(config, old(archive.Contents()), experimentId, old(sampleMetadata.entries))
    {
      var found := RunExistsQuery(experimentId, sampleMetadata.entries);
      if found.Err? {
        return Err(found.error);
      }
      if found.value.Some? && Truthy(found.value.value) {
        return Ok(found.value.value);
      }
      var fileMetadata := InboxFiles(archive.files);
      if fileMetadata.Err? {
        return Err(fileMetadata.error);
      }
      var linked := LinkFilesToSamples(fileMetadata.value, sampleMetadata);
      if linked.Err? {
        return Err(linked.error);
      }
      var payload := RunPayload(config, experimentId, linked.value);
      if payload.Err? {
        return Err(payload.error);
      }
      var answer := archive.CreateRun(payload.value);
      r := CreatedRunId(answer);
    }

    /** `register_metadata`: the row it writes, if any. */
    method RegisterMetadata() returns (row: Result<Option<Dict>>)
      modifies archive
      ensures (row, archive.Contents()) == Registration(config, old(archive.Contents()))
    {
      var experimentId := ConditionallyCreateExperiment();
      if experimentId.Err? {
        return Err(experimentId.error);
      }
      var sample := GetMetadataForRegisteredSample();
      if sample.Err? {
        return Err(sample.error);
      }
      if !(Truthy(experimentId.value) && sample.value != []) {
        return Ok(None);
      }
      var sampleMetadata := new PyDict(sample.value);
      var runId := ConditionallyRegisterRun(experimentId.value, sampleMetadata);
      if runId.Err? {
        return Err(runId.error);
      }
      if Truthy(runId.value) {
        return Ok(Some(TsvRow(config.sampleId, runId.value)));
      }
      return Ok(None);
    }
  }
}
