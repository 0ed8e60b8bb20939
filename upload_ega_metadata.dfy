/**
 * Uploading the metadata of a whole submission to EGA at once: the experiment,
 * the registered samples named by a list of aliases, one run per linked file for
 * the samples that have no run of the experiment yet, the dataset of those runs
 * under the access policy chosen by title, and the finalisation of the submission.
 */
module UploadEgaMetadata {
  import opened Outcome
  import opened Python
  import opened Comprehension
  import opened EgaArchive
  import Register = RegisterExperimentAndRunMetadata
  import Dataset = RegisterDatasetAndFinalizeSubmission

  /** The arguments the upload is constructed with. */
  datatype Config = Config(
    submission: string,
    study: string,
    instrumentModelId: int,
    libraryLayout: string,
    libraryStrategy: string,
    librarySource: string,
    librarySelection: string,
    runFileType: string,
    policyTitle: string,
    sampleAliases: seq<string>,
    datasetTitle: Option<string>,
    datasetDescription: Option<string>,
    technology: Option<string>)

  /** `text if text else default`: text that is given and not empty is kept. */
  function Given(text: Option<string>, default: string): (r: string)
    ensures text.Some? && text.value != "" ==> r == text.value
    ensures text.None? || text.value == "" ==> r == default
  {
    if text.Some? && text.value != "" then text.value else default
  }

  function DatasetTitle(c: Config): string {
    Given(c.datasetTitle, "New dataset for Submission " + c.submission)
  }

  function DatasetDescription(c: Config): string {
    Given(c.datasetDescription, "Please fill out a new description here for submission " + c.submission)
  }

  /** Without a title or a description, the dataset gets one naming the submission;
      the technology defaults to ILLUMINA. */
  lemma Defaults(c: Config)
    ensures c.datasetTitle.None? ==>
              DatasetTitle(c) == "New dataset for Submission " + c.submission
              && EndsWith(DatasetTitle(c), c.submission)
    ensures c.datasetDescription.None? ==>
              DatasetDescription(c) == "Please fill out a new description here for submission " + c.submission
              && EndsWith(DatasetDescription(c), c.submission)
    ensures c.datasetTitle.Some? && c.datasetTitle.value != "" ==> DatasetTitle(c) == c.datasetTitle.value
    ensures c.datasetDescription.Some? && c.datasetDescription.value != "" ==>
              DatasetDescription(c) == c.datasetDescription.value
    ensures c.technology.None? ==> Register.Technology(c.technology) == "ILLUMINA"
  {
    Affixes("New dataset for Submission ", c.submission, "");
    Affixes("Please fill out a new description here for submission ", c.submission, "");
    assert "New dataset for Submission " + c.submission + "" == "New dataset for Submission " + c.submission;
    assert "Please fill out a new description here for submission " + c.submission + ""
           == "Please fill out a new description here for submission " + c.submission;
  }

  // ---------------------------------------------------------------------------
  // The experiment

  function DesignDescription(c: Config): string {
    Register.Technology(c.technology) + " sequencing of Homo sapiens via " + c.librarySelection
  }

  const ExperimentKeys: seq<string> := [
    "design_description", "instrument_model_id", "library_layout", "library_strategy", "library_source",
    "library_selection", "study_accession_id"]

  /** The experiment posted when none is found. */
  function ExperimentPayload(c: Config): Dict {
    Display(ExperimentKeys, [
      Str(DesignDescription(c)), Int(c.instrumentModelId), Str(c.libraryLayout), Str(c.libraryStrategy),
      Str(c.librarySource), Str(c.librarySelection), Str(c.study)])
  }

  /** The posted experiment carries the description and the study the existence
      check compares, and nothing else than the seven keys. */
  lemma ExperimentPayloadCarries(c: Config)
    ensures Get(ExperimentPayload(c), "design_description") == Some(Str(DesignDescription(c)))
    ensures Get(ExperimentPayload(c), "study_accession_id") == Some(Str(c.study))
    ensures Keys(ExperimentPayload(c)) == ExperimentKeys
  {
    assert Distinct(ExperimentKeys);
    var values := [
      Str(DesignDescription(c)), Int(c.instrumentModelId), Str(c.libraryLayout), Str(c.libraryStrategy),
      Str(c.librarySource), Str(c.librarySelection), Str(c.study)];
    DisplayGet(ExperimentKeys, values, 0);
    DisplayGet(ExperimentKeys, values, 6);
  }

  /** `_conditionally_create_experiment` as written: the id found by the existence
      check (the first experiment's accession id) when truthy; otherwise the
      experiment is created and `response.json()["provisional_id"]` reads the
      answer, a list of records, with a string key. */
  function ExperimentStepAsWritten(c: Config, s: State): (Result<Value>, State) {
    var found := Register.ExperimentExists(s.experiments, c.study, DesignDescription(c), "accession_id");
    if found.Err? then (Err(found.error), s)
    else if found.value.Some? && Truthy(found.value.value) then (Ok(found.value.value), s)
    else
      var payload := ExperimentPayload(c);
      (Subscript(ExperimentAnswer(s, payload), "provisional_id"), AddExperiment(s, payload))
  }

  /** As written, every upload that does not find the experiment creates it and
      then raises TypeError, so nothing after the experiment is ever registered. */
  lemma ExperimentStepAsWrittenRaises(c: Config, s: State)
    requires var found := Register.ExperimentExists(s.experiments, c.study, DesignDescription(c), "accession_id");
             found.Ok? && !(found.value.Some? && Truthy(found.value.value))
    ensures ExperimentStepAsWritten(c, s).0.Err? && ExperimentStepAsWritten(c, s).0.error.TypeError?
    ensures ExperimentStepAsWritten(c, s).1 == AddExperiment(s, ExperimentPayload(c))
  {
  }

  /** The created experiment's id read from the answer as the other create calls
      read theirs: the first record's, here its accession id, which is what the
      existence check returns and what the runs are posted with. */
  function CreatedExperimentId(answer: Value): Result<Value> {
    var items :- Iterate(answer);
    FirstField(items, "accession_id")
  }

  /** `_conditionally_create_experiment`, reading the created record from the answer. */
  function ExperimentStep(c: Config, s: State): (Result<Value>, State) {
    var found := Register.ExperimentExists(s.experiments, c.study, DesignDescription(c), "accession_id");
    if found.Err? then (Err(found.error), s)
    else if found.value.Some? && Truthy(found.value.value) then (Ok(found.value.value), s)
    else
      var payload := ExperimentPayload(c);
      (CreatedExperimentId(ExperimentAnswer(s, payload)), AddExperiment(s, payload))
  }

  /** An experiment is created iff no truthy id is found, and the id returned is
      then the new experiment's accession id; the two readings agree whenever one
      is found. */
  lemma ExperimentStepMeans(c: Config, s: State)
    ensures var found := Register.ExperimentExists(s.experiments, c.study, DesignDescription(c), "accession_id");
            found.Ok? && found.value.Some? && Truthy(found.value.value) ==>
              ExperimentStep(c, s) == (Ok(found.value.value), s) && ExperimentStepAsWritten(c, s) == ExperimentStep(c, s)
    ensures var found := Register.ExperimentExists(s.experiments, c.study, DesignDescription(c), "accession_id");
            found.Ok? && !(found.value.Some? && Truthy(found.value.value)) ==>
              ExperimentStep(c, s)
              == (Ok(Str(ExperimentPrefix + NatToString(s.issued + 1))), AddExperiment(s, ExperimentPayload(c)))
    ensures var found := Register.ExperimentExists(s.experiments, c.study, DesignDescription(c), "accession_id");
            found.Err? ==> ExperimentStep(c, s) == (Err(found.error), s)
  {
    var r := NewRecord(ExperimentPrefix, s.issued, ExperimentPayload(c));
    NewRecordGet(ExperimentPrefix, s.issued, ExperimentPayload(c), "accession_id");
    EachFieldMeans([r], "accession_id");
  }

  /** The experiment just created is found by the next upload when it is the first
      experiment of the submission, so the step is then not repeated. */
  lemma CreatedExperimentFoundFirst(c: Config, s: State, u: State)
    requires s.experiments == [] && u.experiments == AddExperiment(s, ExperimentPayload(c)).experiments
    ensures ExperimentStep(c, u) == (Ok(Str(ExperimentPrefix + NatToString(s.issued + 1))), u)
  {
    var payload := ExperimentPayload(c);
    ExperimentPayloadCarries(c);
    NewRecordGet(ExperimentPrefix, s.issued, payload, "design_description");
    NewRecordGet(ExperimentPrefix, s.issued, payload, "study_accession_id");
    NewRecordGet(ExperimentPrefix, s.issued, payload, "accession_id");
    assert u.experiments[0] == NewRecord(ExperimentPrefix, s.issued, payload);
  }

  /** The experiment check has settled the experiment: it fails, or it finds a
      truthy id, so it does not create a new copy. */
  predicate ExperimentSettled(c: Config, s: State) {
    var found := Register.ExperimentExists(s.experiments, c.study, DesignDescription(c), "accession_id");
    found.Err? || (found.value.Some? && Truthy(found.value.value))
  }

  /** Once the step has run on a submission without experiments or with this one
      first, running it again on the archive it left returns the same id and
      creates nothing; the id is truthy. */
  lemma ExperimentStepAgain(c: Config, s: State, u: State)
    requires s.experiments == [] || ExperimentSettled(c, s)
    requires ExperimentStep(c, s).0.Ok?
    requires u.experiments == ExperimentStep(c, s).1.experiments
    ensures ExperimentStep(c, u) == (ExperimentStep(c, s).0, u)
    ensures Truthy(ExperimentStep(c, s).0.value)
  {
    ExperimentStepMeans(c, s);
    if s.experiments == [] {
      CreatedExperimentFoundFirst(c, s, u);
    }
  }

  // ---------------------------------------------------------------------------
  // The samples

  /** The entry made for a registered sample: its alias and accession id. */
  function SampleRecord(alias: string, accession: Value): Value {
    Obj([("sample_alias", Str(alias)), ("sample_accession_id", accession)])
  }

  /** An entry reads back its alias and accession id, and has no key "alias". */
  lemma SampleRecordGet(alias: string, accession: Value)
    ensures At(SampleRecord(alias, accession), "sample_alias") == Str(alias)
    ensures At(SampleRecord(alias, accession), "sample_accession_id") == accession
    ensures HasKey(SampleRecord(alias, accession).fields, "sample_alias")
    ensures HasKey(SampleRecord(alias, accession).fields, "sample_accession_id")
    ensures !HasKey(SampleRecord(alias, accession).fields, "alias")
  {
    var f := SampleRecord(alias, accession).fields;
    assert Get(f, "sample_accession_id") == Get(f[1..], "sample_accession_id");
    assert Get(f, "alias") == Get(f[1..], "alias") == Get(f[2..], "alias");
  }

  /** One registered sample read by the inner loop of
      `_get_sample_metadata_corresponding_to_samples`: its entry when its alias is
      the one looked for. */
  function SampleEntry(sample: Value, alias: string): Result<seq<Value>> {
    var a :- Subscript(sample, "alias");
    if a == Str(alias) then
      var accession :- Subscript(sample, "accession_id");
      Ok([SampleRecord(alias, accession)])
    else Ok([])
  }

  function SampleEntryFor(alias: string): Value -> Result<seq<Value>> {
    sample => SampleEntry(sample, alias)
  }

  /** The inner loop: the entries of the samples with the alias, in listed order. */
  function SamplesWithAlias(samples: seq<Value>, alias: string): Result<seq<Value>> {
    Collect(samples, SampleEntryFor(alias))
  }

  function SamplesWithAliasFor(samples: seq<Value>): string -> Result<seq<Value>> {
    alias => SamplesWithAlias(samples, alias)
  }

  /** `_get_sample_metadata_corresponding_to_samples`: the outer loop over the aliases. */
  function RegisteredSamples(aliases: seq<string>, samples: seq<Value>): Result<seq<Value>> {
    Collect(aliases, SamplesWithAliasFor(samples))
  }

  /** A registered sample as the samples query answers it: a record with an alias
      and a textual accession id. */
  predicate SampleListed(sample: Value) {
    sample.Obj? && HasKey(sample.fields, "alias") && At(sample, "accession_id").Str?
  }

  lemma SampleEntryListed(sample: Value, alias: string)
    requires SampleListed(sample)
    ensures SampleEntryFor(alias)(sample)
            == Ok(if At(sample, "alias") == Str(alias) then [SampleRecord(alias, At(sample, "accession_id"))] else [])
  {
    HasKeyMeans(sample.fields, "alias");
    PresentAt(sample, "accession_id");
  }

  /** Every entry made is the entry of a sample with one of the aliases. */
  lemma RegisteredSamplesFrom(aliases: seq<string>, samples: seq<Value>, v: Value)
    requires RegisteredSamples(aliases, samples).Ok? && v in RegisteredSamples(aliases, samples).value
    ensures exists i, j :: 0 <= i < |aliases| && 0 <= j < |samples| && At(samples[j], "alias") == Str(aliases[i])
                           && v == SampleRecord(aliases[i], At(samples[j], "accession_id"))
  {
    var g := SamplesWithAliasFor(samples);
    CollectFrom(aliases, g, v);
    var i :| 0 <= i < |aliases| && g(aliases[i]).Ok? && v in g(aliases[i]).value;
    var f := SampleEntryFor(aliases[i]);
    CollectFrom(samples, f, v);
    var j :| 0 <= j < |samples| && f(samples[j]).Ok? && v in f(samples[j]).value;
    SubscriptOk(samples[j], "alias");
    SubscriptOk(samples[j], "accession_id");
  }

  /** With listed samples the lookup succeeds. */
  lemma RegisteredSamplesOk(aliases: seq<string>, samples: seq<Value>)
    requires forall k :: 0 <= k < |samples| ==> SampleListed(samples[k])
    ensures RegisteredSamples(aliases, samples).Ok?
    ensures forall a :: SamplesWithAliasFor(samples)(a).Ok?
  {
    var g := SamplesWithAliasFor(samples);
    forall a
      ensures g(a).Ok?
    {
      forall k | 0 <= k < |samples| ensures SampleEntryFor(a)(samples[k]).Ok? {
        SampleEntryListed(samples[k], a);
      }
      CollectOk(samples, SampleEntryFor(a));
    }
    CollectOk(aliases, g);
  }

  /** With listed samples, every sample with one of the aliases has its entry made. */
  lemma RegisteredSamplesKeeps(aliases: seq<string>, samples: seq<Value>, i: nat, j: nat)
    requires forall k :: 0 <= k < |samples| ==> SampleListed(samples[k])
    requires i < |aliases| && j < |samples| && At(samples[j], "alias") == Str(aliases[i])
    ensures RegisteredSamples(aliases, samples).Ok?
    ensures SampleRecord(aliases[i], At(samples[j], "accession_id")) in RegisteredSamples(aliases, samples).value
  {
    RegisteredSamplesOk(aliases, samples);
    var v := SampleRecord(aliases[i], At(samples[j], "accession_id"));
    forall k | 0 <= k < |samples| ensures SampleEntryFor(aliases[i])(samples[k]).Ok? {
      SampleEntryListed(samples[k], aliases[i]);
    }
    SampleEntryListed(samples[j], aliases[i]);
    CollectKeeps(samples, SampleEntryFor(aliases[i]), j, v);
    CollectKeeps(aliases, SamplesWithAliasFor(samples), i, v);
  }

  /** An entry is made iff it is the entry of a listed sample whose alias is one of
      the aliases. */
  lemma RegisteredSamplesMeans(aliases: seq<string>, samples: seq<Value>, v: Value)
    requires forall k :: 0 <= k < |samples| ==> SampleListed(samples[k])
    ensures RegisteredSamples(aliases, samples).Ok?
    ensures v in RegisteredSamples(aliases, samples).value <==>
              exists i, j :: 0 <= i < |aliases| && 0 <= j < |samples| && At(samples[j], "alias") == Str(aliases[i])
                             && v == SampleRecord(aliases[i], At(samples[j], "accession_id"))
  {
    RegisteredSamplesOk(aliases, samples);
    if v in RegisteredSamples(aliases, samples).value {
      RegisteredSamplesFrom(aliases, samples, v);
    }
    if exists i, j :: 0 <= i < |aliases| && 0 <= j < |samples| && At(samples[j], "alias") == Str(aliases[i])
                      && v == SampleRecord(aliases[i], At(samples[j], "accession_id")) {
      var i, j :| 0 <= i < |aliases| && 0 <= j < |samples| && At(samples[j], "alias") == Str(aliases[i])
                  && v == SampleRecord(aliases[i], At(samples[j], "accession_id"));
      RegisteredSamplesKeeps(aliases, samples, i, j);
    }
  }

  /** The entries follow the alias list: those of one list of aliases, then those
      of the next; for one alias, they follow the listed order of the samples. */
  lemma RegisteredSamplesConcat(a: seq<string>, b: seq<string>, samples: seq<Value>)
    requires RegisteredSamples(a, samples).Ok? && RegisteredSamples(b, samples).Ok?
    ensures RegisteredSamples(a + b, samples)
            == Ok(RegisteredSamples(a, samples).value + RegisteredSamples(b, samples).value)
  {
    CollectConcat(a, b, SamplesWithAliasFor(samples));
  }

  lemma SamplesWithAliasConcat(a: seq<Value>, b: seq<Value>, alias: string)
    requires SamplesWithAlias(a, alias).Ok? && SamplesWithAlias(b, alias).Ok?
    ensures RegisteredSamples([alias], a + b)
            == Ok(SamplesWithAlias(a, alias).value + SamplesWithAlias(b, alias).value)
  {
    CollectSingle(alias, SamplesWithAliasFor(a + b));
    CollectConcat(a, b, SampleEntryFor(alias));
  }

  /** Every entry made is an entry of the two keys the linking reads. */
  lemma RegisteredSamplesShape(aliases: seq<string>, samples: seq<Value>, v: Value)
    requires RegisteredSamples(aliases, samples).Ok? && v in RegisteredSamples(aliases, samples).value
    ensures v.Obj? && HasKey(v.fields, "sample_alias") && HasKey(v.fields, "sample_accession_id")
    ensures !HasKey(v.fields, "alias")
  {
    RegisteredSamplesFrom(aliases, samples, v);
    var i, j :| 0 <= i < |aliases| && 0 <= j < |samples| && v == SampleRecord(aliases[i], At(samples[j], "accession_id"));
    SampleRecordGet(aliases[i], At(samples[j], "accession_id"));
  }

  // ---------------------------------------------------------------------------
  // The samples that still need a run

  /** The accession id of the experiment and of the sample a run record embeds. */
  function RunExperiment(run: Value): Value {
    At(At(run, "experiment"), "accession_id")
  }

  function RunSample(run: Value): Value {
    At(At(run, "sample"), "accession_id")
  }

  /** One run read by `runs_in_experiment`: kept when it is in the experiment. */
  function RunInExperiment(run: Value, experimentId: Value): Result<seq<Value>> {
    var experiment :- Subscript(run, "experiment");
    var id :- Subscript(experiment, "accession_id");
    Ok(if id == experimentId then [run] else [])
  }

  function RunInExperimentFor(experimentId: Value): Value -> Result<seq<Value>> {
    run => RunInExperiment(run, experimentId)
  }

  /** The runs of the experiment, in listed order. */
  function RunsInExperiment(runs: seq<Value>, experimentId: Value): Result<seq<Value>> {
    Collect(runs, RunInExperimentFor(experimentId))
  }

  /** One run read by `already_registered_run`: kept when it is of the sample. */
  function RunOfSample(run: Value, accession: Value): Result<seq<Value>> {
    var sample :- Subscript(run, "sample");
    var id :- Subscript(sample, "accession_id");
    Ok(if id == accession then [run] else [])
  }

  function RunOfSampleFor(accession: Value): Value -> Result<seq<Value>> {
    run => RunOfSample(run, accession)
  }

  /** One registered sample read by the loop of
      `_get_sample_metadata_without_registered_runs`: kept when no run of the
      experiment is of it. */
  function SampleWithoutRun(sample: Value, runsInExperiment: seq<Value>): Result<seq<Value>> {
    var accession :- Subscript(sample, "sample_accession_id");
    var registered :- Collect(runsInExperiment, RunOfSampleFor(accession));
    Ok(if registered == [] then [sample] else [])
  }

  function SampleWithoutRunFor(runsInExperiment: seq<Value>): Value -> Result<seq<Value>> {
    sample => SampleWithoutRun(sample, runsInExperiment)
  }

  /** `_get_sample_metadata_without_registered_runs` on the runs of the submission. */
  function SamplesWithoutRuns(samples: seq<Value>, runs: seq<Value>, experimentId: Value): Result<seq<Value>> {
    var inExperiment :- RunsInExperiment(runs, experimentId);
    Collect(samples, SampleWithoutRunFor(inExperiment))
  }

  /** A run as the runs query answers it: it embeds an experiment and a sample,
      each with an accession id. */
  predicate RunListed(run: Value) {
    RunExperiment(run) != Null && RunSample(run) != Null
  }

  /** Whether some run of the experiment is of the sample. */
  predicate HasRun(runs: seq<Value>, experimentId: Value, accession: Value) {
    exists i :: 0 <= i < |runs| && RunExperiment(runs[i]) == experimentId && RunSample(runs[i]) == accession
  }

  lemma RunListedReads(run: Value, experimentId: Value, accession: Value)
    requires RunListed(run)
    ensures RunInExperimentFor(experimentId)(run) == Ok(if RunExperiment(run) == experimentId then [run] else [])
    ensures RunOfSampleFor(accession)(run) == Ok(if RunSample(run) == accession then [run] else [])
  {
    PresentAt(At(run, "experiment"), "accession_id");
    PresentAt(run, "experiment");
    PresentAt(At(run, "sample"), "accession_id");
    PresentAt(run, "sample");
  }

  /** The runs kept are exactly the listed runs of the experiment. */
  lemma RunsInExperimentMeans(runs: seq<Value>, experimentId: Value)
    requires forall i :: 0 <= i < |runs| ==> RunListed(runs[i])
    ensures RunsInExperiment(runs, experimentId).Ok?
    ensures forall v :: v in RunsInExperiment(runs, experimentId).value <==> v in runs && RunExperiment(v) == experimentId
  {
    var f := RunInExperimentFor(experimentId);
    forall i | 0 <= i < |runs| ensures f(runs[i]) == Ok(if RunExperiment(runs[i]) == experimentId then [runs[i]] else []) {
      RunListedReads(runs[i], experimentId, Null);
    }
    CollectOk(runs, f);
    forall v ensures v in RunsInExperiment(runs, experimentId).value <==> v in runs && RunExperiment(v) == experimentId {
      if v in RunsInExperiment(runs, experimentId).value {
        CollectFrom(runs, f, v);
      }
      if v in runs && RunExperiment(v) == experimentId {
        var i :| 0 <= i < |runs| && runs[i] == v;
        CollectKeeps(runs, f, i, v);
      }
    }
  }

  /** A registered sample is kept iff none of the runs is of it. */
  lemma SampleWithoutRunMeans(sample: Value, runsInExperiment: seq<Value>)
    requires sample.Obj? && HasKey(sample.fields, "sample_accession_id")
    requires forall i :: 0 <= i < |runsInExperiment| ==> RunListed(runsInExperiment[i])
    ensures SampleWithoutRunFor(runsInExperiment)(sample)
            == Ok(if exists i :: 0 <= i < |runsInExperiment| && RunSample(runsInExperiment[i]) == At(sample, "sample_accession_id")
                  then [] else [sample])
  {
    var accession := At(sample, "sample_accession_id");
    HasKeyMeans(sample.fields, "sample_accession_id");
    var f := RunOfSampleFor(accession);
    forall i | 0 <= i < |runsInExperiment|
      ensures f(runsInExperiment[i]) == Ok(if RunSample(runsInExperiment[i]) == accession then [runsInExperiment[i]] else [])
    {
      RunListedReads(runsInExperiment[i], Null, accession);
    }
    CollectEmpty(runsInExperiment, f);
  }

  /** Against the runs of the experiment, a registered sample is kept iff no run
      of the experiment is of it. */
  lemma SampleWithoutRunIn(sample: Value, runs: seq<Value>, experimentId: Value)
    requires sample.Obj? && HasKey(sample.fields, "sample_accession_id")
    requires forall i :: 0 <= i < |runs| ==> RunListed(runs[i])
    requires RunsInExperiment(runs, experimentId).Ok?
    requires forall v :: v in RunsInExperiment(runs, experimentId).value <==> v in runs && RunExperiment(v) == experimentId
    ensures SampleWithoutRunFor(RunsInExperiment(runs, experimentId).value)(sample)
            == Ok(if HasRun(runs, experimentId, At(sample, "sample_accession_id")) then [] else [sample])
  {
    var inExperiment := RunsInExperiment(runs, experimentId).value;
    var accession := At(sample, "sample_accession_id");
    forall i | 0 <= i < |inExperiment| ensures RunListed(inExperiment[i]) {
      assert inExperiment[i] in runs;
    }
    SampleWithoutRunMeans(sample, inExperiment);
    if exists i :: 0 <= i < |inExperiment| && RunSample(inExperiment[i]) == accession {
      var i :| 0 <= i < |inExperiment| && RunSample(inExperiment[i]) == accession;
      assert inExperiment[i] in runs;
      var j :| 0 <= j < |runs| && runs[j] == inExperiment[i];
    }
    if HasRun(runs, experimentId, accession) {
      var j :| 0 <= j < |runs| && RunExperiment(runs[j]) == experimentId && RunSample(runs[j]) == accession;
      assert runs[j] in inExperiment;
    }
  }

  /** A registered sample is kept iff no run of the experiment is of it. */
  lemma SamplesWithoutRunsMeans(samples: seq<Value>, runs: seq<Value>, experimentId: Value)
    requires forall k :: 0 <= k < |samples| ==> samples[k].Obj? && HasKey(samples[k].fields, "sample_accession_id")
    requires forall i :: 0 <= i < |runs| ==> RunListed(runs[i])
    ensures SamplesWithoutRuns(samples, runs, experimentId).Ok?
    ensures forall v :: v in SamplesWithoutRuns(samples, runs, experimentId).value <==>
                          v in samples && !HasRun(runs, experimentId, At(v, "sample_accession_id"))
  {
    RunsInExperimentMeans(runs, experimentId);
    var f := SampleWithoutRunFor(RunsInExperiment(runs, experimentId).value);
    forall k | 0 <= k < |samples|
      ensures f(samples[k]) == Ok(if HasRun(runs, experimentId, At(samples[k], "sample_accession_id")) then [] else [samples[k]])
    {
      SampleWithoutRunIn(samples[k], runs, experimentId);
    }
    CollectOk(samples, f);
    forall v ensures v in SamplesWithoutRuns(samples, runs, experimentId).value <==>
                     v in samples && !HasRun(runs, experimentId, At(v, "sample_accession_id")) {
      if v in SamplesWithoutRuns(samples, runs, experimentId).value {
        CollectFrom(samples, f, v);
      }
      if v in samples && !HasRun(runs, experimentId, At(v, "sample_accession_id")) {
        var k :| 0 <= k < |samples| && samples[k] == v;
        CollectKeeps(samples, f, k, v);
      }
    }
  }

  // ---------------------------------------------------------------------------
  // The files of the submission

  /** One file read by `_get_file_metadata_for_files_in_submission`: kept when it
      belongs to the submission. */
  function FileOfSubmission(file: Value, submission: string): Result<seq<Value>> {
    var sub :- Subscript(file, "submission_accession_id");
    Ok(if sub == Str(submission) then [file] else [])
  }

  function FileOfSubmissionFor(submission: string): Value -> Result<seq<Value>> {
    file => FileOfSubmission(file, submission)
  }

  function FilesOfSubmission(files: seq<Value>, submission: string): Result<seq<Value>> {
    Collect(files, FileOfSubmissionFor(submission))
  }

  /** A file as the files query answers it: the submission it belongs to, a text
      path and a provisional id. */
  predicate FileListed(file: Value) {
    file.Obj? && HasKey(file.fields, "submission_accession_id") && HasKey(file.fields, "provisional_id")
    && At(file, "relative_path").Str?
  }

  /** The files kept are exactly the listed files of the submission. */
  lemma FilesOfSubmissionMeans(files: seq<Value>, submission: string)
    requires forall i :: 0 <= i < |files| ==> FileListed(files[i])
    ensures FilesOfSubmission(files, submission).Ok?
    ensures forall v :: v in FilesOfSubmission(files, submission).value <==>
                          v in files && At(v, "submission_accession_id") == Str(submission)
  {
    var f := FileOfSubmissionFor(submission);
    forall i | 0 <= i < |files|
      ensures f(files[i]) == Ok(if At(files[i], "submission_accession_id") == Str(submission) then [files[i]] else [])
    {
      HasKeyMeans(files[i].fields, "submission_accession_id");
    }
    CollectOk(files, f);
    forall v ensures v in FilesOfSubmission(files, submission).value <==>
                     v in files && At(v, "submission_accession_id") == Str(submission) {
      if v in FilesOfSubmission(files, submission).value {
        CollectFrom(files, f, v);
      }
      if v in files && At(v, "submission_accession_id") == Str(submission) {
        var i :| 0 <= i < |files| && files[i] == v;
        CollectKeeps(files, f, i, v);
      }
    }
  }

  // ---------------------------------------------------------------------------
  // Linking the files to the samples

  /** The entry made for a file linked to a sample. */
  function LinkRecord(alias: Value, accession: Value, fileId: Value): Value {
    Obj([("sample_alias", alias), ("sample_accession_id", accession), ("file_provisional_id", fileId)])
  }

  /** An entry reads back what it was made of. */
  lemma LinkRecordGet(alias: Value, accession: Value, fileId: Value)
    ensures var r := LinkRecord(alias, accession, fileId);
            && Subscript(r, "sample_alias") == Ok(alias)
            && Subscript(r, "sample_accession_id") == Ok(accession)
            && Subscript(r, "file_provisional_id") == Ok(fileId)
  {
    var f := LinkRecord(alias, accession, fileId).fields;
    assert Get(f, "sample_accession_id") == Get(f[1..], "sample_accession_id");
    assert Get(f, "file_provisional_id") == Get(f[1..], "file_provisional_id") == Get(f[2..], "file_provisional_id");
  }

  /** One sample read by the inner loop of `_link_files_to_samples` for a file
      whose name has the stem: when the stem is the sample's alias, the entry made
      of the sample's value under aliasKey, its accession id and the file's id, read
      in that order. */
  function LinkEntry(file: Value, stem: string, sample: Value, aliasKey: string): Result<seq<Value>> {
    var alias :- Subscript(sample, "sample_alias");
    if Str(stem) == alias then
      var named :- Subscript(sample, aliasKey);
      var accession :- Subscript(sample, "sample_accession_id");
      var fileId :- Subscript(file, "provisional_id");
      Ok([LinkRecord(named, accession, fileId)])
    else Ok([])
  }

  function LinkEntryFor(file: Value, stem: string, aliasKey: string): Value -> Result<seq<Value>> {
    sample => LinkEntry(file, stem, sample, aliasKey)
  }

  /** One file read by the outer loop: the stem of its name is taken, as Path() does
      (TypeError for a path that is not text), then the samples are read. */
  function FileLinks(file: Value, samples: seq<Value>, aliasKey: string): Result<seq<Value>> {
    var path :- Subscript(file, "relative_path");
    if !path.Str? then Err(TypeError("expected str, bytes or os.PathLike object"))
    else Collect(samples, LinkEntryFor(file, FileStem(path.s), aliasKey))
  }

  function FileLinksFor(samples: seq<Value>, aliasKey: string): Value -> Result<seq<Value>> {
    file => FileLinks(file, samples, aliasKey)
  }

  /** `_link_files_to_samples` with the sample's alias read under aliasKey: the code
      reads "alias", which the sample entries do not carry; "sample_alias" is meant. */
  function Linked(files: seq<Value>, samples: seq<Value>, aliasKey: string): Result<seq<Value>> {
    Collect(files, FileLinksFor(samples, aliasKey))
  }

  const AliasKeyAsWritten := "alias"
  const AliasKey := "sample_alias"

  /** A sample entry as the linking reads it. */
  predicate EntryListed(sample: Value) {
    sample.Obj? && HasKey(sample.fields, "sample_alias") && HasKey(sample.fields, "sample_accession_id")
  }


  /** The entry a file and a sample make, under the intended key. */
  function LinkOf(file: Value, sample: Value): Value {
    LinkRecord(At(sample, "sample_alias"), At(sample, "sample_accession_id"), At(file, "provisional_id"))
  }

  lemma LinkEntryListed(file: Value, sample: Value)
    requires FileListed(file) && EntryListed(sample)
    ensures LinkEntryFor(file, StemOf(file), AliasKey)(sample)
            == Ok(if At(sample, "sample_alias") == Str(StemOf(file)) then [LinkOf(file, sample)] else [])
  {
    HasKeyMeans(sample.fields, "sample_alias");
    HasKeyMeans(sample.fields, "sample_accession_id");
    HasKeyMeans(file.fields, "provisional_id");
  }

  /** A listed file's links are the entries of the samples whose alias is its stem. */
  lemma FileLinksListed(file: Value, samples: seq<Value>)
    requires FileListed(file) && forall j :: 0 <= j < |samples| ==> EntryListed(samples[j])
    ensures FileLinks(file, samples, AliasKey) == Collect(samples, LinkEntryFor(file, StemOf(file), AliasKey))
    ensures FileLinks(file, samples, AliasKey).Ok?
    ensures forall j :: 0 <= j < |samples| ==>
              LinkEntryFor(file, StemOf(file), AliasKey)(samples[j])
              == Ok(if At(samples[j], "sample_alias") == Str(StemOf(file)) then [LinkOf(file, samples[j])] else [])
  {
    PresentAt(file, "relative_path");
    forall j | 0 <= j < |samples|
      ensures LinkEntryFor(file, StemOf(file), AliasKey)(samples[j])
              == Ok(if At(samples[j], "sample_alias") == Str(StemOf(file)) then [LinkOf(file, samples[j])] else [])
    {
      LinkEntryListed(file, samples[j]);
    }
    CollectOk(samples, LinkEntryFor(file, StemOf(file), AliasKey));
  }

  /** Linking listed files to listed entries succeeds, and an entry is made iff it
      is made of a file and a sample whose alias is the stem of the file's name. */
  lemma LinkedMeans(files: seq<Value>, samples: seq<Value>)
    requires forall i :: 0 <= i < |files| ==> FileListed(files[i])
    requires forall j :: 0 <= j < |samples| ==> EntryListed(samples[j])
    ensures Linked(files, samples, AliasKey).Ok?
    ensures forall v :: v in Linked(files, samples, AliasKey).value <==>
              exists i, j :: 0 <= i < |files| && 0 <= j < |samples| && At(samples[j], "sample_alias") == Str(StemOf(files[i]))
                             && v == LinkOf(files[i], samples[j])
  {
    var g := FileLinksFor(samples, AliasKey);
    forall i | 0 <= i < |files| ensures g(files[i]).Ok? {
      FileLinksListed(files[i], samples);
    }
    CollectOk(files, g);
    forall v ensures v in Linked(files, samples, AliasKey).value <==>
              exists i, j :: 0 <= i < |files| && 0 <= j < |samples| && At(samples[j], "sample_alias") == Str(StemOf(files[i]))
                             && v == LinkOf(files[i], samples[j]) {
      if v in Linked(files, samples, AliasKey).value {
        LinkedFrom(files, samples, v);
      }
      if exists i, j :: 0 <= i < |files| && 0 <= j < |samples| && At(samples[j], "sample_alias") == Str(StemOf(files[i]))
                        && v == LinkOf(files[i], samples[j]) {
        var i, j :| 0 <= i < |files| && 0 <= j < |samples| && At(samples[j], "sample_alias") == Str(StemOf(files[i]))
                    && v == LinkOf(files[i], samples[j]);
        LinkedKeeps(files, samples, i, j);
      }
    }
  }

  /** A file and a sample whose alias is the stem of the file's name are linked. */
  lemma LinkedKeeps(files: seq<Value>, samples: seq<Value>, i: nat, j: nat)
    requires forall i :: 0 <= i < |files| ==> FileListed(files[i])
    requires forall j :: 0 <= j < |samples| ==> EntryListed(samples[j])
    requires i < |files| && j < |samples| && At(samples[j], "sample_alias") == Str(StemOf(files[i]))
    ensures Linked(files, samples, AliasKey).Ok? && LinkOf(files[i], samples[j]) in Linked(files, samples, AliasKey).value
  {
    var g := FileLinksFor(samples, AliasKey);
    forall k | 0 <= k < |files| ensures g(files[k]).Ok? {
      FileLinksListed(files[k], samples);
    }
    FileLinksListed(files[i], samples);
    CollectKeeps(samples, LinkEntryFor(files[i], StemOf(files[i]), AliasKey), j, LinkOf(files[i], samples[j]));
    CollectKeeps(files, g, i, LinkOf(files[i], samples[j]));
  }

  lemma LinkedFrom(files: seq<Value>, samples: seq<Value>, v: Value)
    requires forall i :: 0 <= i < |files| ==> FileListed(files[i])
    requires forall j :: 0 <= j < |samples| ==> EntryListed(samples[j])
    requires Linked(files, samples, AliasKey).Ok? && v in Linked(files, samples, AliasKey).value
    ensures exists i, j :: 0 <= i < |files| && 0 <= j < |samples| && At(samples[j], "sample_alias") == Str(StemOf(files[i]))
                           && v == LinkOf(files[i], samples[j])
  {
    var g := FileLinksFor(samples, AliasKey);
    CollectFrom(files, g, v);
    var i :| 0 <= i < |files| && g(files[i]).Ok? && v in g(files[i]).value;
    FileLinksListed(files[i], samples);
    CollectFrom(samples, LinkEntryFor(files[i], StemOf(files[i]), AliasKey), v);
  }

  /** As written, a sample matched by a file is read under "alias", which the
      entries do not carry: linking raises KeyError exactly when the intended
      linking would find a link, and otherwise finds none. */
  lemma {:induction false} LinkedAsWritten(files: seq<Value>, samples: seq<Value>)
    requires Linked(files, samples, AliasKey).Ok?
    requires forall j :: 0 <= j < |samples| ==> samples[j].Obj? && !HasKey(samples[j].fields, AliasKeyAsWritten)
    ensures Linked(files, samples, AliasKeyAsWritten)
            == if Linked(files, samples, AliasKey).value == [] then Ok([]) else Err(KeyError(AliasKeyAsWritten))
  {
    var f, g := FileLinksFor(samples, AliasKey), FileLinksFor(samples, AliasKeyAsWritten);
    CollectOkEach(files, f);
    forall i | 0 <= i < |files|
      ensures g(files[i]) == if f(files[i]).value == [] then Ok([]) else Err(KeyError(AliasKeyAsWritten))
    {
      FileLinksAsWritten(files[i], samples);
    }
    CollectRaises(files, f, g, KeyError(AliasKeyAsWritten));
  }

  /** One file read as written: KeyError exactly when the intended reading
      links it to some sample, and no link otherwise. */
  lemma FileLinksAsWritten(file: Value, samples: seq<Value>)
    requires FileLinks(file, samples, AliasKey).Ok?
    requires forall j :: 0 <= j < |samples| ==> samples[j].Obj? && !HasKey(samples[j].fields, AliasKeyAsWritten)
    ensures FileLinks(file, samples, AliasKeyAsWritten)
            == if FileLinks(file, samples, AliasKey).value == [] then Ok([]) else Err(KeyError(AliasKeyAsWritten))
  {
    var path := Subscript(file, "relative_path").value;
    var stem := FileStem(path.s);
    var fi, gi := LinkEntryFor(file, stem, AliasKey), LinkEntryFor(file, stem, AliasKeyAsWritten);
    CollectOkEach(samples, fi);
    forall j | 0 <= j < |samples|
      ensures gi(samples[j]) == if fi(samples[j]).value == [] then Ok([]) else Err(KeyError(AliasKeyAsWritten))
    {
    }
    CollectRaises(samples, fi, gi, KeyError(AliasKeyAsWritten));
  }

  // ---------------------------------------------------------------------------
  // Creating the runs

  /** The body `_create_runs` posts for one linked file. */
  function RunBody(c: Config, experimentId: Value, fileId: Value, accession: Value): Dict {
    [("run_file_type", Str(c.runFileType)), ("files", List([fileId])),
     ("experiment_accession_id", experimentId), ("sample_accession_id", accession)]
  }

  /** `[a["accession_id"] for a in response.json()]`. */
  function AnsweredIds(answer: Value): Result<seq<Value>> {
    var items :- Iterate(answer);
    EachField(items, "accession_id")
  }

  /** One pass of the loop of `_create_runs`: the run is posted, the first id of
      the answer is kept, then the entry's alias is read for the log. */
  function CreatedRun(c: Config, s: State, experimentId: Value, entry: Value): (Result<seq<Value>>, State) {
    var fileId := Subscript(entry, "file_provisional_id");
    if fileId.Err? then (Err(fileId.error), s)
    else
      var accession := Subscript(entry, "sample_accession_id");
      if accession.Err? then (Err(accession.error), s)
      else
        var body := RunBody(c, experimentId, fileId.value, accession.value);
        var t := AddRun(s, body);
        var ids := AnsweredIds(RunAnswer(s, body));
        if ids.Err? then (Err(ids.error), t)
        else
          var logged := Subscript(entry, "sample_alias");
          if logged.Err? then (Err(logged.error), t)
          else (Ok(if ids.value != [] then [ids.value[0]] else []), t)
  }

  /** `_create_runs`: the runs created for the entries read so far. */
  function CreatedRuns(c: Config, s: State, experimentId: Value, entries: seq<Value>): (Result<seq<Value>>, State)
    decreases |entries|
  {
    if entries == [] then (Ok([]), s)
    else
      var prior := CreatedRuns(c, s, experimentId, entries[..|entries| - 1]);
      if prior.0.Err? then prior
      else
        var next := CreatedRun(c, prior.1, experimentId, entries[|entries| - 1]);
        if next.0.Err? then (Err(next.0.error), next.1) else (Ok(prior.0.value + next.0.value), next.1)
  }

  /** A run created for an entry: its accession id, and the experiment, the sample
      and the file the entry names. */
  predicate RunFor(run: Value, experimentId: Value, entry: Value, n: nat) {
    && At(run, "accession_id") == Str(RunPrefix + NatToString(n + 1))
    && RunExperiment(run) == experimentId
    && RunSample(run) == At(entry, "sample_accession_id")
    && At(run, "files") == List([At(entry, "file_provisional_id")])
  }

  /** The run record created from a body embeds the experiment and the sample the
      body names by accession id, and carries the file. */
  lemma RunRecordOfBody(c: Config, s: State, experimentId: Value, fileId: Value, accession: Value, entry: Value)
    requires experimentId != Null && accession != Null
    requires At(entry, "sample_accession_id") == accession && At(entry, "file_provisional_id") == fileId
    ensures RunFor(RunRecord(s, RunBody(c, experimentId, fileId, accession)), experimentId, entry, s.issued)
    ensures RunListed(RunRecord(s, RunBody(c, experimentId, fileId, accession)))
  {
    var body := RunBody(c, experimentId, fileId, accession);
    assert Get(body, "experiment_provisional_id") == Get(body[1..], "experiment_provisional_id")
           == Get(body[2..], "experiment_provisional_id") == Get(body[3..], "experiment_provisional_id")
           == Get(body[4..], "experiment_provisional_id") == None;
    assert Get(body, "sample_provisional_id") == Get(body[1..], "sample_provisional_id")
           == Get(body[2..], "sample_provisional_id") == Get(body[3..], "sample_provisional_id")
           == Get(body[4..], "sample_provisional_id") == None;
    assert Get(body, "experiment_accession_id") == Get(body[1..], "experiment_accession_id")
           == Get(body[2..], "experiment_accession_id") == Some(experimentId);
    assert Get(body, "sample_accession_id") == Get(body[1..], "sample_accession_id")
           == Get(body[2..], "sample_accession_id") == Get(body[3..], "sample_accession_id") == Some(accession);
    var x := Referenced(s.experiments, "accession_id", experimentId);
    var y := Referenced(s.samples, "accession_id", accession);
    var fields := [("experiment", x), ("sample", y)] + body;
    assert Get(fields, "experiment") == Some(x);
    assert Get(fields, "sample") == Get(fields[1..], "sample") == Some(y);
    assert Get(fields, "files") == Get(fields[1..], "files") == Get(fields[2..], "files") == Get(body, "files");
    assert Get(body, "files") == Get(body[1..], "files") == Some(List([fileId]));
    NewRecordGet(RunPrefix, s.issued, fields, "experiment");
    NewRecordGet(RunPrefix, s.issued, fields, "sample");
    NewRecordGet(RunPrefix, s.issued, fields, "files");
    NewRecordGet(RunPrefix, s.issued, fields, "accession_id");
  }

  /** A linking entry as `_create_runs` reads it. */
  predicate LinkListed(entry: Value) {
    && entry.Obj? && HasKey(entry.fields, "sample_alias") && HasKey(entry.fields, "file_provisional_id")
    && At(entry, "sample_accession_id") != Null
  }

  /** The body posted for an entry. */
  function EntryRunBody(c: Config, experimentId: Value, entry: Value): Dict {
    RunBody(c, experimentId, At(entry, "file_provisional_id"), At(entry, "sample_accession_id"))
  }

  /** One pass posts one run for the entry and keeps its accession id. */
  lemma CreatedRunMeans(c: Config, s: State, experimentId: Value, entry: Value)
    requires LinkListed(entry) && experimentId != Null
    ensures CreatedRun(c, s, experimentId, entry)
            == (Ok([Str(RunPrefix + NatToString(s.issued + 1))]), AddRun(s, EntryRunBody(c, experimentId, entry)))
    ensures RunFor(RunRecord(s, EntryRunBody(c, experimentId, entry)), experimentId, entry, s.issued)
    ensures RunListed(RunRecord(s, EntryRunBody(c, experimentId, entry)))
  {
    HasKeyMeans(entry.fields, "sample_alias");
    HasKeyMeans(entry.fields, "file_provisional_id");
    PresentAt(entry, "sample_accession_id");
    var fileId, accession := At(entry, "file_provisional_id"), At(entry, "sample_accession_id");
    var body := RunBody(c, experimentId, fileId, accession);
    RunRecordOfBody(c, s, experimentId, fileId, accession, entry);
    var r := RunRecord(s, body);
    EachFieldMeans([r], "accession_id");
    PresentAt(r, "accession_id");
  }

  /** The runs from offset on are the runs for the entries, the k-th numbered n + k. */
  predicate RunsFor(runs: seq<Value>, offset: nat, experimentId: Value, entries: seq<Value>, n: nat) {
    && |runs| == offset + |entries|
    && forall k :: 0 <= k < |entries| ==>
         RunFor(runs[offset + k], experimentId, entries[k], n + k) && RunListed(runs[offset + k])
  }

  /** The ids are the accession ids numbered n + 1 on. */
  predicate IdsFrom(ids: seq<Value>, n: nat) {
    forall k :: 0 <= k < |ids| ==> ids[k] == Str(RunPrefix + NatToString(n + k + 1))
  }

  /** What `_create_runs` leaves behind for the entries: t is s with one run
      appended per entry, in order, each the run for its entry with the next
      accession id, which ids lists. */
  predicate RunsAppended(s: State, t: State, experimentId: Value, entries: seq<Value>, ids: seq<Value>) {
    && |ids| == |entries|
    && t == s.(runs := t.runs, issued := s.issued + |entries|)
    && RunsFor(t.runs, |s.runs|, experimentId, entries, s.issued)
    && (forall i :: 0 <= i < |s.runs| ==> t.runs[i] == s.runs[i])
    && IdsFrom(ids, s.issued)
  }

  lemma RunsForStep(runs: seq<Value>, offset: nat, experimentId: Value, entries: seq<Value>, n: nat, run: Value, entry: Value)
    requires RunsFor(runs, offset, experimentId, entries, n)
    requires RunFor(run, experimentId, entry, n + |entries|) && RunListed(run)
    ensures RunsFor(runs + [run], offset, experimentId, entries + [entry], n)
  {
    var more, longer := entries + [entry], runs + [run];
    forall k | 0 <= k < |more|
      ensures RunFor(longer[offset + k], experimentId, more[k], n + k) && RunListed(longer[offset + k])
    {
      if k < |entries| {
        assert more[k] == entries[k] && longer[offset + k] == runs[offset + k];
      } else {
        assert more[k] == entry && longer[offset + k] == run;
      }
    }
  }

  lemma IdsFromStep(ids: seq<Value>, n: nat)
    requires IdsFrom(ids, n)
    ensures IdsFrom(ids + [Str(RunPrefix + NatToString(n + |ids| + 1))], n)
  {
  }

  lemma RunsAppendedStep(s: State, t: State, experimentId: Value, entries: seq<Value>, ids: seq<Value>,
                         entry: Value, body: Dict, u: State, more: seq<Value>, moreIds: seq<Value>)
    requires RunsAppended(s, t, experimentId, entries, ids)
    requires RunFor(RunRecord(t, body), experimentId, entry, t.issued) && RunListed(RunRecord(t, body))
    requires u == AddRun(t, body) && more == entries + [entry]
    requires moreIds == ids + [Str(RunPrefix + NatToString(t.issued + 1))]
    ensures RunsAppended(s, u, experimentId, more, moreIds)
  {
    RunsForStep(t.runs, |s.runs|, experimentId, entries, s.issued, RunRecord(t, body), entry);
    IdsFromStep(ids, s.issued);
    assert forall i :: 0 <= i < |s.runs| ==> u.runs[i] == t.runs[i];
  }

  /** The last pass of `_create_runs` after passes that succeeded. */
  lemma CreatedRunsLast(c: Config, s: State, experimentId: Value, entries: seq<Value>)
    requires entries != []
    requires CreatedRuns(c, s, experimentId, entries[..|entries| - 1]).0.Ok?
    requires CreatedRun(c, CreatedRuns(c, s, experimentId, entries[..|entries| - 1]).1, experimentId,
                        entries[|entries| - 1]).0.Ok?
    ensures var prior := CreatedRuns(c, s, experimentId, entries[..|entries| - 1]);
            var next := CreatedRun(c, prior.1, experimentId, entries[|entries| - 1]);
            CreatedRuns(c, s, experimentId, entries) == (Ok(prior.0.value + next.0.value), next.1)
  {
  }

  lemma SplitLast(xs: seq<Value>)
    requires xs != []
    ensures xs[..|xs| - 1] + [xs[|xs| - 1]] == xs
  {
  }

  /** `_create_runs` on listed entries posts one run per entry, in order, with
      consecutive accession ids, and changes nothing but the runs. */
  lemma {:induction false} CreatedRunsMeans(c: Config, s: State, experimentId: Value, entries: seq<Value>)
    requires forall k :: 0 <= k < |entries| ==> LinkListed(entries[k])
    requires experimentId != Null
    ensures CreatedRuns(c, s, experimentId, entries).0.Ok?
    ensures RunsAppended(s, CreatedRuns(c, s, experimentId, entries).1, experimentId, entries,
                         CreatedRuns(c, s, experimentId, entries).0.value)
    decreases |entries|
  {
    if entries == [] {
      assert s.(runs := s.runs, issued := s.issued) == s;
    } else {
      var n := |entries| - 1;
      var init := entries[..n];
      assert forall k :: 0 <= k < n ==> init[k] == entries[k];
      CreatedRunsMeans(c, s, experimentId, init);
      var prior := CreatedRuns(c, s, experimentId, init);
      var t := prior.1;
      CreatedRunMeans(c, t, experimentId, entries[n]);
      var result := CreatedRuns(c, s, experimentId, entries);
      CreatedRunsLast(c, s, experimentId, entries);
      SplitLast(entries);
      RunsAppendedStep(s, t, experimentId, init, prior.0.value, entries[n], EntryRunBody(c, experimentId, entries[n]),
                       result.1, entries, result.0.value);
    }
  }

  // ---------------------------------------------------------------------------
  // The dataset and the finalisation

  /** The body `_create_dataset` posts. */
  function DatasetBody(c: Config, policyId: Value, runIds: seq<Value>): Dict {
    Dataset.DatasetPayload(DatasetTitle(c), DatasetDescription(c), c.libraryStrategy, policyId, runIds).fields
  }

  /** `[r["accession_id"] for r in response.json()][0]`. */
  function AnsweredDatasetId(answer: Value): Result<Value> {
    var items :- Iterate(answer);
    Dataset.CreatedDatasetId(items)
  }

  /** The end of `register_metadata` once the runs are created: the policy is
      looked up; with a policy id and runs the dataset is created, and with its id
      the submission is finalised. */
  function DatasetStep(c: Config, s: State, runIds: seq<Value>): (Result<()>, State) {
    var policy := Dataset.PolicyAccessionId(s.policies, c.policyTitle);
    if policy.Err? then (Err(policy.error), s)
    else if !(Truthy(policy.value) && runIds != []) then (Ok(()), s)
    else
      var body := DatasetBody(c, policy.value, runIds);
      var t := AddDataset(s, body);
      var id := AnsweredDatasetId(DatasetAnswer(s, body));
      if id.Err? then (Err(id.error), t)
      else if Truthy(id.value) then (Ok(()), Finalised(t))
      else (Ok(()), t)
  }

  /** A dataset is created iff the policy is found with a truthy id and runs were
      created; it is then the dataset of those runs under that policy, and the
      submission is finalised.  Nothing but the datasets and the finalisation changes. */
  lemma DatasetStepMeans(c: Config, s: State, runIds: seq<Value>)
    ensures var policy := Dataset.PolicyAccessionId(s.policies, c.policyTitle);
            policy.Err? ==> DatasetStep(c, s, runIds) == (Err(policy.error), s)
    ensures var policy := Dataset.PolicyAccessionId(s.policies, c.policyTitle);
            policy.Ok? && !(Truthy(policy.value) && runIds != []) ==> DatasetStep(c, s, runIds) == (Ok(()), s)
    ensures var policy := Dataset.PolicyAccessionId(s.policies, c.policyTitle);
            policy.Ok? && Truthy(policy.value) && runIds != [] ==>
              && DatasetStep(c, s, runIds) == (Ok(()), Finalised(AddDataset(s, DatasetBody(c, policy.value, runIds))))
              && At(Obj(DatasetBody(c, policy.value, runIds)), "run_provisional_ids") == List(runIds)
              && At(Obj(DatasetBody(c, policy.value, runIds)), "policy_accession_id") == policy.value
  {
    var policy := Dataset.PolicyAccessionId(s.policies, c.policyTitle);
    if policy.Ok? && Truthy(policy.value) && runIds != [] {
      var body := DatasetBody(c, policy.value, runIds);
      Dataset.DatasetPayloadCarries(DatasetTitle(c), DatasetDescription(c), c.libraryStrategy, policy.value, runIds);
      var r := NewRecord(DatasetPrefix, s.issued, body);
      NewRecordGet(DatasetPrefix, s.issued, body, "accession_id");
      Dataset.CreatedDatasetIdMeans([r]);
      PresentAt(r, "accession_id");
    }
  }

  /** The dataset step changes nothing but the datasets, the issued count and the
      finalisation. */
  lemma DatasetStepKeeps(c: Config, s: State, runIds: seq<Value>)
    ensures var t := DatasetStep(c, s, runIds).1;
            t == s.(datasets := t.datasets, issued := t.issued, finalised := t.finalised)
  {
    var policy := Dataset.PolicyAccessionId(s.policies, c.policyTitle);
    if policy.Ok? && Truthy(policy.value) && runIds != [] {
      var t := AddDataset(s, DatasetBody(c, policy.value, runIds));
      assert DatasetStep(c, s, runIds).1 == t || DatasetStep(c, s, runIds).1 == Finalised(t);
    }
  }

  // ---------------------------------------------------------------------------
  // The whole upload

  /** `register_metadata` once the experiment and the registered samples are known:
      the samples without a run, the files of the submission, the links between
      them, one run per link, then the dataset. */
  function RunsStep(c: Config, s: State, experimentId: Value, registered: seq<Value>, aliasKey: string)
    : (Result<()>, State)
  {
    var without := SamplesWithoutRuns(registered, s.runs, experimentId);
    if without.Err? then (Err(without.error), s)
    else
      var files := FilesOfSubmission(s.files, c.submission);
      if files.Err? then (Err(files.error), s)
      else if without.value == [] || files.value == [] then (Ok(()), s)
      else
        var linked := Linked(files.value, without.value, aliasKey);
        if linked.Err? then (Err(linked.error), s)
        else if linked.value == [] then (Ok(()), s)
        else
          var created := CreatedRuns(c, s, experimentId, linked.value);
          if created.0.Err? then (Err(created.0.error), created.1)
          else DatasetStep(c, created.1, created.0.value)
  }

  /** `register_metadata` after the experiment step. */
  function Flow(c: Config, step: (Result<Value>, State), aliasKey: string): (Result<()>, State) {
    var s := step.1;
    if step.0.Err? then (Err(step.0.error), s)
    else
      var registered := RegisteredSamples(c.sampleAliases, s.samples);
      if registered.Err? then (Err(registered.error), s)
      else if !(Truthy(step.0.value) && registered.value != []) then (Ok(()), s)
      else RunsStep(c, s, step.0.value, registered.value, aliasKey)
  }

  /** `register_metadata` as written. */
  function UploadAsWritten(c: Config, s: State): (Result<()>, State) {
    Flow(c, ExperimentStepAsWritten(c, s), AliasKeyAsWritten)
  }

  /** `register_metadata` with the created experiment read from the list answered
      and the samples' alias read under "sample_alias". */
  function Upload(c: Config, s: State): (Result<()>, State) {
    Flow(c, ExperimentStep(c, s), AliasKey)
  }

  /** The samples without a run are some of the registered samples. */
  lemma SamplesWithoutRunsFrom(samples: seq<Value>, runs: seq<Value>, experimentId: Value, v: Value)
    requires SamplesWithoutRuns(samples, runs, experimentId).Ok? && v in SamplesWithoutRuns(samples, runs, experimentId).value
    ensures v in samples
  {
    var f := SampleWithoutRunFor(RunsInExperiment(runs, experimentId).value);
    CollectFrom(samples, f, v);
  }

  /** As written, entries without an "alias" key are never linked: the linking
      raises or finds nothing. */
  lemma LinkedAsWrittenNothing(files: seq<Value>, samples: seq<Value>)
    requires forall j :: 0 <= j < |samples| ==> !(samples[j].Obj? && HasKey(samples[j].fields, AliasKeyAsWritten))
    ensures Linked(files, samples, AliasKeyAsWritten).Err? || Linked(files, samples, AliasKeyAsWritten).value == []
  {
    var g := FileLinksFor(samples, AliasKeyAsWritten);
    forall i | 0 <= i < |files| ensures g(files[i]).Err? || g(files[i]).value == [] {
      var path := Subscript(files[i], "relative_path");
      if path.Ok? && path.value.Str? {
        var gi := LinkEntryFor(files[i], FileStem(path.value.s), AliasKeyAsWritten);
        forall j | 0 <= j < |samples| ensures gi(samples[j]).Err? || gi(samples[j]).value == [] {
        }
        CollectNothing(samples, gi);
      }
    }
    CollectNothing(files, g);
  }

  /** As written, the upload never registers a run or a dataset and never
      finalises: it stops with the state its experiment step left. */
  lemma UploadAsWrittenRegistersNothing(c: Config, s: State)
    ensures UploadAsWritten(c, s).1 == ExperimentStepAsWritten(c, s).1
    ensures UploadAsWritten(c, s).1.runs == s.runs && UploadAsWritten(c, s).1.datasets == s.datasets
    ensures UploadAsWritten(c, s).1.finalised == s.finalised
  {
    var step := ExperimentStepAsWritten(c, s);
    var t := step.1;
    var registered := RegisteredSamples(c.sampleAliases, t.samples);
    if step.0.Ok? && registered.Ok? && Truthy(step.0.value) && registered.value != [] {
      var without := SamplesWithoutRuns(registered.value, t.runs, step.0.value);
      var files := FilesOfSubmission(t.files, c.submission);
      if without.Ok? && files.Ok? {
        forall j | 0 <= j < |without.value|
          ensures !(without.value[j].Obj? && HasKey(without.value[j].fields, AliasKeyAsWritten))
        {
          SamplesWithoutRunsFrom(registered.value, t.runs, step.0.value, without.value[j]);
          RegisteredSamplesShape(c.sampleAliases, t.samples, without.value[j]);
        }
        LinkedAsWrittenNothing(files.value, without.value);
      }
    }
  }

  // ---------------------------------------------------------------------------
  // Uploading again registers nothing more

  /** The archive as the queries answer it: listed samples, runs and files. */
  predicate Listed(s: State) {
    && (forall j :: 0 <= j < |s.samples| ==> SampleListed(s.samples[j]))
    && (forall i :: 0 <= i < |s.runs| ==> RunListed(s.runs[i]))
    && (forall i :: 0 <= i < |s.files| ==> FileListed(s.files[i]))
  }

  /** The sample entries the run filter and the linking read. */
  predicate EntriesListed(entries: seq<Value>) {
    forall k :: 0 <= k < |entries| ==> EntryListed(entries[k]) && At(entries[k], "sample_accession_id") != Null
  }

  /** A file of the submission whose name's stem is the entry's alias. */
  predicate FileFor(c: Config, files: seq<Value>, entry: Value) {
    exists f :: f in files && At(f, "submission_accession_id") == Str(c.submission) && At(entry, "sample_alias") == Str(StemOf(f))
  }

  /** Every entry that has a file of the submission has a run of the experiment. */
  predicate Covered(c: Config, s: State, experimentId: Value, entries: seq<Value>) {
    forall k :: 0 <= k < |entries| && FileFor(c, s.files, entries[k]) ==>
                  HasRun(s.runs, experimentId, At(entries[k], "sample_accession_id"))
  }

  /** The entries made from listed samples are listed. */
  lemma RegisteredEntriesListed(aliases: seq<string>, samples: seq<Value>)
    requires forall k :: 0 <= k < |samples| ==> SampleListed(samples[k])
    ensures RegisteredSamples(aliases, samples).Ok?
    ensures EntriesListed(RegisteredSamples(aliases, samples).value)
  {
    RegisteredSamplesOk(aliases, samples);
    var entries := RegisteredSamples(aliases, samples).value;
    forall k | 0 <= k < |entries| ensures EntryListed(entries[k]) && At(entries[k], "sample_accession_id") != Null {
      RegisteredSamplesFrom(aliases, samples, entries[k]);
      var i, j :| 0 <= i < |aliases| && 0 <= j < |samples| && entries[k] == SampleRecord(aliases[i], At(samples[j], "accession_id"));
      SampleRecordGet(aliases[i], At(samples[j], "accession_id"));
    }
  }

  /** A link made of a listed entry is one `_create_runs` reads. */
  lemma LinkOfListed(file: Value, sample: Value)
    requires At(sample, "sample_accession_id") != Null
    ensures LinkListed(LinkOf(file, sample))
    ensures At(LinkOf(file, sample), "sample_accession_id") == At(sample, "sample_accession_id")
  {
    var r := LinkOf(file, sample);
    LinkRecordGet(At(sample, "sample_alias"), At(sample, "sample_accession_id"), At(file, "provisional_id"));
    SubscriptOk(r, "sample_alias");
    SubscriptOk(r, "file_provisional_id");
    SubscriptOk(r, "sample_accession_id");
  }

  /** A run of the experiment for the sample stays when more runs are appended. */
  lemma HasRunGrows(runs: seq<Value>, more: seq<Value>, experimentId: Value, accession: Value)
    requires HasRun(runs, experimentId, accession)
    requires |more| >= |runs| && forall i :: 0 <= i < |runs| ==> more[i] == runs[i]
    ensures HasRun(more, experimentId, accession)
  {
    var i :| 0 <= i < |runs| && RunExperiment(runs[i]) == experimentId && RunSample(runs[i]) == accession;
    assert more[i] == runs[i];
  }

  /** The runs created for the links cover every linked entry. */
  lemma CreatedRunsCover(s: State, t: State, experimentId: Value, links: seq<Value>, ids: seq<Value>, k: nat)
    requires RunsAppended(s, t, experimentId, links, ids) && k < |links|
    ensures HasRun(t.runs, experimentId, At(links[k], "sample_accession_id"))
  {
    assert RunFor(t.runs[|s.runs| + k], experimentId, links[k], s.issued + k);
  }

  /** What the run step leaves: only runs, datasets, the issued count and the
      finalisation change, the old runs stay, and the archive stays listed. */
  predicate Extends(s: State, t: State) {
    && t == s.(runs := t.runs, datasets := t.datasets, issued := t.issued, finalised := t.finalised)
    && |t.runs| >= |s.runs| && (forall i :: 0 <= i < |s.runs| ==> t.runs[i] == s.runs[i])
    && (forall i :: 0 <= i < |t.runs| ==> RunListed(t.runs[i]))
  }

  /** Appending the runs for the links extends the archive and covers every link. */
  lemma AppendedExtends(s: State, u: State, experimentId: Value, links: seq<Value>, ids: seq<Value>)
    requires Listed(s) && RunsAppended(s, u, experimentId, links, ids)
    ensures Extends(s, u)
    ensures forall k :: 0 <= k < |links| ==> HasRun(u.runs, experimentId, At(links[k], "sample_accession_id"))
  {
    forall k | 0 <= k < |links| ensures HasRun(u.runs, experimentId, At(links[k], "sample_accession_id")) {
      CreatedRunsCover(s, u, experimentId, links, ids, k);
    }
    forall i | 0 <= i < |u.runs| ensures RunListed(u.runs[i]) {
      if i >= |s.runs| {
        var k := i - |s.runs|;
        assert RunFor(u.runs[|s.runs| + k], experimentId, links[k], s.issued + k) && RunListed(u.runs[|s.runs| + k]);
      } else {
        assert u.runs[i] == s.runs[i];
      }
    }
  }

  /** The dataset step keeps an extension an extension, with the same runs. */
  lemma DatasetStepExtends(c: Config, s: State, u: State, runIds: seq<Value>)
    requires Extends(s, u)
    ensures Extends(s, DatasetStep(c, u, runIds).1) && DatasetStep(c, u, runIds).1.runs == u.runs
  {
    DatasetStepKeeps(c, u, runIds);
  }

  /** The run step with links: they get runs, which cover every entry linked. */
  lemma RunsStepCreates(c: Config, s: State, experimentId: Value, links: seq<Value>)
    requires Listed(s) && experimentId != Null
    requires forall k :: 0 <= k < |links| ==> LinkListed(links[k])
    ensures var created := CreatedRuns(c, s, experimentId, links);
            created.0.Ok? && Extends(s, DatasetStep(c, created.1, created.0.value).1)
            && forall k :: 0 <= k < |links| ==>
                 HasRun(DatasetStep(c, created.1, created.0.value).1.runs, experimentId, At(links[k], "sample_accession_id"))
  {
    CreatedRunsMeans(c, s, experimentId, links);
    var created := CreatedRuns(c, s, experimentId, links);
    AppendedExtends(s, created.1, experimentId, links, created.0.value);
    DatasetStepExtends(c, s, created.1, created.0.value);
  }

  /** The run step stops before creating anything. */
  lemma RunsStepStops(c: Config, s: State, experimentId: Value, registered: seq<Value>)
    requires SamplesWithoutRuns(registered, s.runs, experimentId).Ok? && FilesOfSubmission(s.files, c.submission).Ok?
    requires var without := SamplesWithoutRuns(registered, s.runs, experimentId).value;
             var files := FilesOfSubmission(s.files, c.submission).value;
             without == [] || files == [] || Linked(files, without, AliasKey) == Ok([])
    ensures RunsStep(c, s, experimentId, registered, AliasKey).1 == s
  {
  }

  /** The run step creating the runs for the links. */
  lemma RunsStepLinks(c: Config, s: State, experimentId: Value, registered: seq<Value>)
    requires SamplesWithoutRuns(registered, s.runs, experimentId).Ok? && FilesOfSubmission(s.files, c.submission).Ok?
    requires var without := SamplesWithoutRuns(registered, s.runs, experimentId).value;
             var files := FilesOfSubmission(s.files, c.submission).value;
             without != [] && files != [] && Linked(files, without, AliasKey).Ok? && Linked(files, without, AliasKey).value != []
    requires var without := SamplesWithoutRuns(registered, s.runs, experimentId).value;
             var files := FilesOfSubmission(s.files, c.submission).value;
             CreatedRuns(c, s, experimentId, Linked(files, without, AliasKey).value).0.Ok?
    ensures var without := SamplesWithoutRuns(registered, s.runs, experimentId).value;
            var files := FilesOfSubmission(s.files, c.submission).value;
            var created := CreatedRuns(c, s, experimentId, Linked(files, without, AliasKey).value);
            RunsStep(c, s, experimentId, registered, AliasKey).1 == DatasetStep(c, created.1, created.0.value).1
  {
  }

  /** The samples without runs and the files of the submission, as the linking reads them. */
  lemma RunsStepInputs(c: Config, s: State, experimentId: Value, registered: seq<Value>)
    requires Listed(s) && EntriesListed(registered)
    ensures SamplesWithoutRuns(registered, s.runs, experimentId).Ok? && FilesOfSubmission(s.files, c.submission).Ok?
    ensures EntriesListed(SamplesWithoutRuns(registered, s.runs, experimentId).value)
    ensures forall i :: 0 <= i < |FilesOfSubmission(s.files, c.submission).value| ==>
              FileListed(FilesOfSubmission(s.files, c.submission).value[i])
    ensures forall v :: v in SamplesWithoutRuns(registered, s.runs, experimentId).value <==>
              v in registered && !HasRun(s.runs, experimentId, At(v, "sample_accession_id"))
    ensures forall v :: v in FilesOfSubmission(s.files, c.submission).value <==>
              v in s.files && At(v, "submission_accession_id") == Str(c.submission)
  {
    SamplesWithoutRunsMeans(registered, s.runs, experimentId);
    FilesOfSubmissionMeans(s.files, c.submission);
    var without := SamplesWithoutRuns(registered, s.runs, experimentId).value;
    var files := FilesOfSubmission(s.files, c.submission).value;
    forall j | 0 <= j < |without| ensures EntryListed(without[j]) && At(without[j], "sample_accession_id") != Null {
      assert without[j] in without;
      var k :| 0 <= k < |registered| && registered[k] == without[j];
    }
    forall i | 0 <= i < |files| ensures FileListed(files[i]) {
      assert files[i] in files;
      var k :| 0 <= k < |s.files| && s.files[k] == files[i];
    }
  }

  /** The links made are the ones `_create_runs` reads. */
  lemma LinksListed(files: seq<Value>, without: seq<Value>)
    requires forall i :: 0 <= i < |files| ==> FileListed(files[i])
    requires EntriesListed(without)
    ensures Linked(files, without, AliasKey).Ok?
    ensures forall k :: 0 <= k < |Linked(files, without, AliasKey).value| ==> LinkListed(Linked(files, without, AliasKey).value[k])
  {
    LinkedMeans(files, without);
    var links := Linked(files, without, AliasKey).value;
    forall k | 0 <= k < |links| ensures LinkListed(links[k]) {
      LinkedFrom(files, without, links[k]);
      var i, j :| 0 <= i < |files| && 0 <= j < |without| && links[k] == LinkOf(files[i], without[j]);
      LinkOfListed(files[i], without[j]);
    }
  }

  /** The run step covers the listed entries it is given, and only adds runs,
      datasets and the finalisation. */
  lemma RunsStepCovers(c: Config, s: State, experimentId: Value, registered: seq<Value>)
    requires Listed(s) && experimentId != Null && EntriesListed(registered)
    ensures Extends(s, RunsStep(c, s, experimentId, registered, AliasKey).1)
    ensures Covered(c, RunsStep(c, s, experimentId, registered, AliasKey).1, experimentId, registered)
  {
    RunsStepInputs(c, s, experimentId, registered);
    var without := SamplesWithoutRuns(registered, s.runs, experimentId).value;
    var files := FilesOfSubmission(s.files, c.submission).value;
    if without == [] || files == [] {
      RunsStepStops(c, s, experimentId, registered);
      RunsStepCoversNone(c, s, experimentId, registered, without, files);
    } else {
      LinksListed(files, without);
      var links := Linked(files, without, AliasKey).value;
      if links == [] {
        RunsStepStops(c, s, experimentId, registered);
        RunsStepCoversNone(c, s, experimentId, registered, without, files);
      } else {
        RunsStepCreates(c, s, experimentId, links);
        RunsStepLinks(c, s, experimentId, registered);
        var t := RunsStep(c, s, experimentId, registered, AliasKey).1;
        RunsStepCoversLinks(c, s, t, experimentId, registered, without, files, links);
      }
    }
  }

  /** How a registered entry with a file is covered when nothing is created: it
      already has a run. */
  lemma RunsStepCoversNone(c: Config, s: State, experimentId: Value, registered: seq<Value>,
                           without: seq<Value>, files: seq<Value>)
    requires Listed(s) && EntriesListed(without)
    requires forall i :: 0 <= i < |files| ==> FileListed(files[i])
    requires forall v :: v in without <==> v in registered && !HasRun(s.runs, experimentId, At(v, "sample_accession_id"))
    requires forall v :: v in files <==> v in s.files && At(v, "submission_accession_id") == Str(c.submission)
    requires without == [] || files == [] || Linked(files, without, AliasKey) == Ok([])
    ensures Covered(c, s, experimentId, registered)
  {
    forall k | 0 <= k < |registered| && FileFor(c, s.files, registered[k])
      ensures HasRun(s.runs, experimentId, At(registered[k], "sample_accession_id"))
    {
      var v := registered[k];
      var f :| f in s.files && At(f, "submission_accession_id") == Str(c.submission) && At(v, "sample_alias") == Str(StemOf(f));
      if !HasRun(s.runs, experimentId, At(v, "sample_accession_id")) {
        assert v in without && f in files;
        var i :| 0 <= i < |files| && files[i] == f;
        var j :| 0 <= j < |without| && without[j] == v;
        LinkedKeeps(files, without, i, j);
        assert false;
      }
    }
  }

  /** How a registered entry with a file is covered when links were made: it had
      a run, or it was linked and got one. */
  lemma RunsStepCoversLinks(c: Config, s: State, t: State, experimentId: Value, registered: seq<Value>,
                            without: seq<Value>, files: seq<Value>, links: seq<Value>)
    requires Listed(s) && EntriesListed(without)
    requires forall i :: 0 <= i < |files| ==> FileListed(files[i])
    requires forall v :: v in without <==> v in registered && !HasRun(s.runs, experimentId, At(v, "sample_accession_id"))
    requires forall v :: v in files <==> v in s.files && At(v, "submission_accession_id") == Str(c.submission)
    requires Linked(files, without, AliasKey) == Ok(links)
    requires Extends(s, t)
    requires forall k :: 0 <= k < |links| ==> HasRun(t.runs, experimentId, At(links[k], "sample_accession_id"))
    ensures Covered(c, t, experimentId, registered)
  {
    forall k | 0 <= k < |registered| && FileFor(c, t.files, registered[k])
      ensures HasRun(t.runs, experimentId, At(registered[k], "sample_accession_id"))
    {
      var v := registered[k];
      var f :| f in s.files && At(f, "submission_accession_id") == Str(c.submission) && At(v, "sample_alias") == Str(StemOf(f));
      if HasRun(s.runs, experimentId, At(v, "sample_accession_id")) {
        HasRunGrows(s.runs, t.runs, experimentId, At(v, "sample_accession_id"));
      } else {
        assert v in without && f in files;
        var i :| 0 <= i < |files| && files[i] == f;
        var j :| 0 <= j < |without| && without[j] == v;
        LinkedKeeps(files, without, i, j);
        var m :| 0 <= m < |links| && links[m] == LinkOf(files[i], without[j]);
        LinkOfListed(files[i], without[j]);
      }
    }
  }

  /** The experiment step changes only the experiments and the issued count. */
  lemma ExperimentStepKeeps(c: Config, s: State)
    ensures var t := ExperimentStep(c, s).1;
            t == s.(experiments := t.experiments, issued := t.issued)
  {
  }

  /** A listed archive extends itself. */
  lemma ExtendsSelf(s: State)
    requires Listed(s)
    ensures Extends(s, s)
  {
  }

  /** An upload that finds or creates its experiment only adds runs, datasets and
      the finalisation after the experiment step, and then every registered sample
      that has a file of the submission has a run of that experiment. */
  lemma UploadCovers(c: Config, s: State)
    requires Listed(s)
    ensures Extends(ExperimentStep(c, s).1, Upload(c, s).1)
    ensures RegisteredSamples(c.sampleAliases, s.samples).Ok?
    ensures var step := ExperimentStep(c, s);
            step.0.Ok? && Truthy(step.0.value) ==>
              Covered(c, Upload(c, s).1, step.0.value, RegisteredSamples(c.sampleAliases, s.samples).value)
  {
    var step := ExperimentStep(c, s);
    ExperimentStepKeeps(c, s);
    var u := step.1;
    assert Listed(u);
    RegisteredEntriesListed(c.sampleAliases, s.samples);
    var registered := RegisteredSamples(c.sampleAliases, u.samples).value;
    if step.0.Ok? && Truthy(step.0.value) && registered != [] {
      RunsStepCovers(c, u, step.0.value, registered);
    } else {
      ExtendsSelf(u);
    }
  }

  /** No file and sample whose alias is the stem of the file's name: nothing is linked. */
  lemma LinkedNone(files: seq<Value>, samples: seq<Value>)
    requires forall i :: 0 <= i < |files| ==> FileListed(files[i])
    requires forall j :: 0 <= j < |samples| ==> EntryListed(samples[j])
    requires forall i, j :: 0 <= i < |files| && 0 <= j < |samples| ==> At(samples[j], "sample_alias") != Str(StemOf(files[i]))
    ensures Linked(files, samples, AliasKey) == Ok([])
  {
    var g := FileLinksFor(samples, AliasKey);
    forall i | 0 <= i < |files| ensures g(files[i]) == Ok([]) {
      FileLinksListed(files[i], samples);
      CollectEmpty(samples, LinkEntryFor(files[i], StemOf(files[i]), AliasKey));
    }
    CollectEmpty(files, g);
  }

  /** A sample left without a run of the experiment, when every registered sample
      with a file has one, has no file of the submission named after it. */
  lemma UncoveredHasNoFile(c: Config, t: State, experimentId: Value, registered: seq<Value>,
                           without: seq<Value>, files: seq<Value>, i: nat, j: nat)
    requires Covered(c, t, experimentId, registered)
    requires forall v :: v in without <==> v in registered && !HasRun(t.runs, experimentId, At(v, "sample_accession_id"))
    requires forall v :: v in files <==> v in t.files && At(v, "submission_accession_id") == Str(c.submission)
    requires i < |files| && j < |without|
    ensures At(without[j], "sample_alias") != Str(StemOf(files[i]))
  {
    assert without[j] in without && files[i] in files;
    var k :| 0 <= k < |registered| && registered[k] == without[j];
    assert !FileFor(c, t.files, registered[k]);
  }

  /** With every registered sample that has a file already holding a run of the
      experiment, the run step links nothing and leaves the archive as it is. */
  lemma RunsStepSettled(c: Config, t: State, experimentId: Value, registered: seq<Value>)
    requires Listed(t) && EntriesListed(registered)
    requires Covered(c, t, experimentId, registered)
    ensures RunsStep(c, t, experimentId, registered, AliasKey) == (Ok(()), t)
  {
    RunsStepInputs(c, t, experimentId, registered);
    var without := SamplesWithoutRuns(registered, t.runs, experimentId).value;
    var files := FilesOfSubmission(t.files, c.submission).value;
    forall i, j | 0 <= i < |files| && 0 <= j < |without|
      ensures At(without[j], "sample_alias") != Str(StemOf(files[i]))
    {
      UncoveredHasNoFile(c, t, experimentId, registered, without, files, i, j);
    }
    LinkedNone(files, without);
  }

  /** Running the upload a second time on the archive the first left changes
      nothing, when the submission had no experiment or the experiment check had
      settled: the experiment is found, every linked sample already has its run,
      and no dataset is created. */
  lemma UploadIdempotent(c: Config, s: State)
    requires Listed(s)
    requires s.experiments == [] || ExperimentSettled(c, s)
    ensures Upload(c, Upload(c, s).1).1 == Upload(c, s).1
  {
    var step := ExperimentStep(c, s);
    var t := Upload(c, s).1;
    ExperimentStepMeans(c, s);
    if step.0.Ok? {
      UploadCovers(c, s);
      ExperimentStepKeeps(c, s);
      ExperimentStepAgain(c, s, t);
      var registered := RegisteredSamples(c.sampleAliases, s.samples).value;
      RegisteredEntriesListed(c.sampleAliases, s.samples);
      assert t.samples == s.samples;
      if registered != [] {
        RunsStepSettled(c, t, step.0.value, registered);
      }
    }
  }

  // ---------------------------------------------------------------------------
  // The script

  /** One more entry read by the loop of `_create_runs`. */
  lemma CreatedRunsStep(c: Config, s: State, experimentId: Value, entries: seq<Value>, i: nat)
    requires i < |entries|
    ensures var prior := CreatedRuns(c, s, experimentId, entries[..i]);
            CreatedRuns(c, s, experimentId, entries[..i + 1]) ==
              if prior.0.Err? then prior
              else
                var next := CreatedRun(c, prior.1, experimentId, entries[i]);
                if next.0.Err? then (Err(next.0.error), next.1) else (Ok(prior.0.value + next.0.value), next.1)
  {
    assert entries[..i + 1][..i] == entries[..i] && entries[..i + 1][i] == entries[i];
  }

  /** One more entry read by the loop of `_create_runs`, from the ids and the
      archive the loop has so far. */
  lemma CreatedRunsNext(c: Config, s: State, experimentId: Value, entries: seq<Value>, i: nat,
                        ids: seq<Value>, u: State, added: Result<seq<Value>>, v: State)
    requires i < |entries|
    requires CreatedRuns(c, s, experimentId, entries[..i]) == (Ok(ids), u)
    requires (added, v) == CreatedRun(c, u, experimentId, entries[i])
    ensures added.Err? ==> CreatedRuns(c, s, experimentId, entries) == (Err(added.error), v)
    ensures added.Ok? ==> CreatedRuns(c, s, experimentId, entries[..i + 1]) == (Ok(ids + added.value), v)
  {
    CreatedRunsStep(c, s, experimentId, entries, i);
    if added.Err? {
      CreatedRunsErrorPersists(c, s, experimentId, entries, i + 1);
    }
  }

  /** A run that fails stops `_create_runs`: the entries after it are not read. */
  lemma {:induction false} CreatedRunsErrorPersists(c: Config, s: State, experimentId: Value, entries: seq<Value>, k: nat)
    requires k <= |entries| && CreatedRuns(c, s, experimentId, entries[..k]).0.Err?
    ensures CreatedRuns(c, s, experimentId, entries) == CreatedRuns(c, s, experimentId, entries[..k])
    decreases |entries| - k
  {
    if k < |entries| {
      CreatedRunsStep(c, s, experimentId, entries, k);
      CreatedRunsErrorPersists(c, s, experimentId, entries, k + 1);
    } else {
      assert entries[..k] == entries;
    }
  }

  /** RegisterEgaMetadata: the registration of a submission's experiment, runs and
      dataset against the archive. */
  class RegisterEgaMetadata {
    const config: Config
    const archive: Archive

    constructor (config: Config, archive: Archive)
      ensures this.config == config && this.archive == archive
    {
      this.config := config;
      this.archive := archive;
    }

    /** `_conditionally_create_experiment`, reading the created record from the answer. */
    method ConditionallyCreateExperiment() returns (r: Result<Value>)
      modifies archive
      ensures (r, archive.Contents()) == ExperimentStep(config, old(archive.Contents()))
    {
      var found := Register.ExperimentExists(archive.experiments, config.study, DesignDescription(config), "accession_id");
      if found.Err? {
        return Err(found.error);
      }
      if found.value.Some? && Truthy(found.value.value) {
        return Ok(found.value.value);
      }
      var answer := archive.CreateExperiment(ExperimentPayload(config));
      r := CreatedExperimentId(answer);
    }

    /** `_get_file_metadata_for_files_in_submission`: the files of the inbox that
        belong to the submission. */
    method GetFileMetadataForFilesInSubmission() returns (r: Result<seq<Value>>)
      ensures r == FilesOfSubmission(archive.files, config.submission)
    {
      var files := archive.files;
      var f := FileOfSubmissionFor(config.submission);
      var kept: seq<Value> := [];
      var i := 0;
      while i < |files|
        invariant 0 <= i <= |files|
        invariant Collect(files[..i], f) == Ok(kept)
      {
        CollectStep(files, i, f);
        assert f(files[i]) == FileOfSubmission(files[i], config.submission);
        var sub := Subscript(files[i], "submission_accession_id");
        if sub.Err? {
          CollectErrorPersists(files, i + 1, f);
          return Err(sub.error);
        }
        if sub.value == Str(config.submission) {
          kept := kept + [files[i]];
        } else {
          assert kept + [] == kept;
        }
        i := i + 1;
      }
      assert files[..i] == files;
      r := Ok(kept);
    }

    /** The inner loop of `_get_sample_metadata_corresponding_to_samples`: an entry
        for every registered sample carrying the alias, in listed order. */
    static method SampleMetadataWithAlias(samples: seq<Value>, alias: string) returns (r: Result<seq<Value>>)
      ensures r == SamplesWithAlias(samples, alias)
    {
      var f := SampleEntryFor(alias);
      var found: seq<Value> := [];
      var j := 0;
      while j < |samples|
        invariant 0 <= j <= |samples|
        invariant Collect(samples[..j], f) == Ok(found)
      {
        CollectStep(samples, j, f);
        var a := Subscript(samples[j], "alias");
        if a.Err? {
          CollectErrorPersists(samples, j + 1, f);
          return Err(a.error);
        }
        if a.value == Str(alias) {
          var accession := Subscript(samples[j], "accession_id");
          if accession.Err? {
            CollectErrorPersists(samples, j + 1, f);
            return Err(accession.error);
          }
          found := found + [SampleRecord(alias, accession.value)];
        } else {
          assert found + [] == found;
        }
        j := j + 1;
      }
      assert samples[..j] == samples;
      r := Ok(found);
    }

    /** `_get_sample_metadata_corresponding_to_samples`: for each alias in turn, an
        entry for every registered sample carrying it. */
    method GetSampleMetadataCorrespondingToSamples() returns (r: Result<seq<Value>>)
      ensures r == RegisteredSamples(config.sampleAliases, archive.samples)
    {
      var aliases := config.sampleAliases;
      var g := SamplesWithAliasFor(archive.samples);
      var registered: seq<Value> := [];
      var i := 0;
      while i < |aliases|
        invariant 0 <= i <= |aliases|
        invariant Collect(aliases[..i], g) == Ok(registered)
      {
        CollectStep(aliases, i, g);
        var found := SampleMetadataWithAlias(archive.samples, aliases[i]);
        if found.Err? {
          CollectErrorPersists(aliases, i + 1, g);
          return Err(found.error);
        }
        registered := registered + found.value;
        i := i + 1;
      }
      assert aliases[..i] == aliases;
      r := Ok(registered);
    }

    /** `already_registered_run`: the runs of the experiment that are of the sample. */
    static method RunsOfSample(runsInExperiment: seq<Value>, accession: Value) returns (r: Result<seq<Value>>)
      ensures r == Collect(runsInExperiment, RunOfSampleFor(accession))
    {
      var f := RunOfSampleFor(accession);
      var kept: seq<Value> := [];
      var i := 0;
      while i < |runsInExperiment|
        invariant 0 <= i <= |runsInExperiment|
        invariant Collect(runsInExperiment[..i], f) == Ok(kept)
      {
        CollectStep(runsInExperiment, i, f);
        var added := RunOfSample(runsInExperiment[i], accession);
        if added.Err? {
          CollectErrorPersists(runsInExperiment, i + 1, f);
          return Err(added.error);
        }
        kept := kept + added.value;
        i := i + 1;
      }
      assert runsInExperiment[..i] == runsInExperiment;
      r := Ok(kept);
    }

    /** `runs_in_experiment`: the runs whose experiment has the id. */
    static method RunsOfExperiment(runs: seq<Value>, experimentId: Value) returns (r: Result<seq<Value>>)
      ensures r == RunsInExperiment(runs, experimentId)
    {
      var f := RunInExperimentFor(experimentId);
      var kept: seq<Value> := [];
      var i := 0;
      while i < |runs|
        invariant 0 <= i <= |runs|
        invariant Collect(runs[..i], f) == Ok(kept)
      {
        CollectStep(runs, i, f);
        var added := RunInExperiment(runs[i], experimentId);
        if added.Err? {
          CollectErrorPersists(runs, i + 1, f);
          return Err(added.error);
        }
        kept := kept + added.value;
        i := i + 1;
      }
      assert runs[..i] == runs;
      r := Ok(kept);
    }

    /** `_get_sample_metadata_without_registered_runs`: the runs of the experiment,
        then the registered samples none of them is of. */
    method GetSampleMetadataWithoutRegisteredRuns(sampleMetadata: seq<Value>, experimentId: Value)
      returns (r: Result<seq<Value>>)
      ensures r == SamplesWithoutRuns(sampleMetadata, archive.runs, experimentId)
    {
      var inExperiment := RunsOfExperiment(archive.runs, experimentId);
      if inExperiment.Err? {
        return Err(inExperiment.error);
      }
      var f := SampleWithoutRunFor(inExperiment.value);
      var without: seq<Value> := [];
      var j := 0;
      while j < |sampleMetadata|
        invariant 0 <= j <= |sampleMetadata|
        invariant Collect(sampleMetadata[..j], f) == Ok(without)
      {
        CollectStep(sampleMetadata, j, f);
        var accession := Subscript(sampleMetadata[j], "sample_accession_id");
        if accession.Err? {
          CollectErrorPersists(sampleMetadata, j + 1, f);
          return Err(accession.error);
        }
        var already := RunsOfSample(inExperiment.value, accession.value);
        if already.Err? {
          CollectErrorPersists(sampleMetadata, j + 1, f);
          return Err(already.error);
        }
        if already.value == [] {
          without := without + [sampleMetadata[j]];
        } else {
          assert without + [] == without;
        }
        j := j + 1;
      }
      assert sampleMetadata[..j] == sampleMetadata;
      r := Ok(without);
    }

    /** `_link_files_to_samples`, reading the entry's alias for the link under aliasKey:
        one link per file and sample whose alias is the stem of the file's name. */
    static method LinkFilesToSamples(fileMetadata: seq<Value>, sampleMetadata: seq<Value>, aliasKey: string)
      returns (r: Result<seq<Value>>)
      ensures r == Linked(fileMetadata, sampleMetadata, aliasKey)
    {
      var g := FileLinksFor(sampleMetadata, aliasKey);
      var links: seq<Value> := [];
      var i := 0;
      while i < |fileMetadata|
        invariant 0 <= i <= |fileMetadata|
        invariant Collect(fileMetadata[..i], g) == Ok(links)
      {
        CollectStep(fileMetadata, i, g);
        var path := Subscript(fileMetadata[i], "relative_path");
        if path.Err? {
          CollectErrorPersists(fileMetadata, i + 1, g);
          return Err(path.error);
        }
        if !path.value.Str? {
          CollectErrorPersists(fileMetadata, i + 1, g);
          return Err(TypeError("expected str, bytes or os.PathLike object"));
        }
        var stem := FileStem(path.value.s);
        var f := LinkEntryFor(fileMetadata[i], stem, aliasKey);
        var found: seq<Value> := [];
        var j := 0;
        while j < |sampleMetadata|
          invariant 0 <= j <= |sampleMetadata|
          invariant Collect(sampleMetadata[..j], f) == Ok(found)
        {
          CollectStep(sampleMetadata, j, f);
          var added := LinkEntry(fileMetadata[i], stem, sampleMetadata[j], aliasKey);
          if added.Err? {
            CollectErrorPersists(sampleMetadata, j + 1, f);
            CollectErrorPersists(fileMetadata, i + 1, g);
            return Err(added.error);
          }
          found := found + added.value;
          j := j + 1;
        }
        assert sampleMetadata[..j] == sampleMetadata;
        links := links + found;
        i := i + 1;
      }
      assert fileMetadata[..i] == fileMetadata;
      r := Ok(links);
    }

    /** One pass of the loop of `_create_runs`: the run of the entry is posted. */
    method CreateRun(experimentId: Value, entry: Value) returns (r: Result<seq<Value>>)
      modifies archive
      ensures (r, archive.Contents()) == CreatedRun(config, old(archive.Contents()), experimentId, entry)
    {
      var fileId := Subscript(entry, "file_provisional_id");
      if fileId.Err? {
        return Err(fileId.error);
      }
      var accession := Subscript(entry, "sample_accession_id");
      if accession.Err? {
        return Err(accession.error);
      }
      var answer := archive.CreateRun(RunBody(config, experimentId, fileId.value, accession.value));
      var answered := AnsweredIds(answer);
      if answered.Err? {
        return Err(answered.error);
      }
      var logged := Subscript(entry, "sample_alias");
      if logged.Err? {
        return Err(logged.error);
      }
      r := Ok(if answered.value != [] then [answered.value[0]] else []);
    }

    /** `_create_runs`: one run posted per entry, keeping the first id answered. */
    method CreateRuns(experimentId: Value, entries: seq<Value>) returns (r: Result<seq<Value>>)
      modifies archive
      ensures (r, archive.Contents()) == CreatedRuns(config, old(archive.Contents()), experimentId, entries)
    {
      ghost var s := archive.Contents();
      var ids: seq<Value> := [];
      var i := 0;
      while i < |entries|
        invariant 0 <= i <= |entries|
        invariant CreatedRuns(config, s, experimentId, entries[..i]) == (Ok(ids), archive.Contents())
      {
        ghost var u := archive.Contents();
        var added := CreateRun(experimentId, entries[i]);
        CreatedRunsNext(config, s, experimentId, entries, i, ids, u, added, archive.Contents());
        if added.Err? {
          return Err(added.error);
        }
        ids := ids + added.value;
        i := i + 1;
      }
      assert entries[..i] == entries;
      r := Ok(ids);
    }

    /** `_create_dataset`: posts the dataset of the runs and reads its id. */
    method CreateDataset(policyId: Value, runIds: seq<Value>) returns (r: Result<Value>)
      modifies archive
      ensures archive.Contents() == AddDataset(old(archive.Contents()), DatasetBody(config, policyId, runIds))
      ensures r == AnsweredDatasetId(DatasetAnswer(old(archive.Contents()), DatasetBody(config, policyId, runIds)))
    {
      var answer := archive.CreateDataset(DatasetBody(config, policyId, runIds));
      r := AnsweredDatasetId(answer);
    }

    /** The policy, the dataset and the finalisation, once the runs are created. */
    method RegisterDataset(runIds: seq<Value>) returns (r: Result<()>)
      modifies archive
      ensures (r, archive.Contents()) == DatasetStep(config, old(archive.Contents()), runIds)
    {
      var policy := Dataset.PolicyAccessionId(archive.policies, config.policyTitle);
      if policy.Err? {
        return Err(policy.error);
      }
      if !(Truthy(policy.value) && runIds != []) {
        return Ok(());
      }
      var id := CreateDataset(policy.value, runIds);
      if id.Err? {
        return Err(id.error);
      }
      if Truthy(id.value) {
        archive.Finalise();
      }
      r := Ok(());
    }

    /** The runs of the registered samples that have none, then the dataset. */
    method RegisterRuns(experimentId: Value, registered: seq<Value>) returns (r: Result<()>)
      modifies archive
      ensures (r, archive.Contents()) == RunsStep(config, old(archive.Contents()), experimentId, registered, AliasKey)
    {
      var without := GetSampleMetadataWithoutRegisteredRuns(registered, experimentId);
      if without.Err? {
        return Err(without.error);
      }
      var files := GetFileMetadataForFilesInSubmission();
      if files.Err? {
        return Err(files.error);
      }
      if without.value == [] || files.value == [] {
        return Ok(());
      }
      var linked := LinkFilesToSamples(files.value, without.value, AliasKey);
      if linked.Err? {
        return Err(linked.error);
      }
      if linked.value == [] {
        return Ok(());
      }
      var runIds := CreateRuns(experimentId, linked.value);
      if runIds.Err? {
        return Err(runIds.error);
      }
      r := RegisterDataset(runIds.value);
    }

    /** `register_metadata`. */
    method RegisterMetadata() returns (r: Result<()>)
      modifies archive
      ensures (r, archive.Contents()) == Upload(config, old(archive.Contents()))
    {
      var experimentId := ConditionallyCreateExperiment();
      if experimentId.Err? {
        return Err(experimentId.error);
      }
      var registered := GetSampleMetadataCorrespondingToSamples();
      if registered.Err? {
        return Err(registered.error);
      }
      if !(Truthy(experimentId.value) && registered.value != []) {
        return Ok(());
      }
      r := RegisterRuns(experimentId.value, registered.value);
    }
  }
}
