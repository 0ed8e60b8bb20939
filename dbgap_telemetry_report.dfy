/**
 * The sample lookups of the dbGaP telemetry report (the XML sample-status report
 * of a study, as `xmltodict` parses it): the sample with a submitted sample id,
 * its SRA status for a data type, and its repository and subject id.  The
 * report is an input; fetching it is not modelled.
 */
module DbgapTelemetryReport {
  import opened Outcome
  import opened Python

  /** The loop of `_get_sample`: the first sample whose "@submitted_sample_id" is
      the alias; `sample.get` on something that is not a dict raises. */
  function FindSample(samples: seq<Value>, alias: string): Result<Value> {
    if samples == [] then Err(SampleNotFoundError(alias))
    else
      var id :- GetMethod(samples[0], "@submitted_sample_id");
      if id == Str(alias) then Ok(samples[0]) else FindSample(samples[1..], alias)
  }

  /** The sample `FindSample` meets at index i is the alias's. */
  predicate SampleMatches(sample: Value, alias: string) {
    sample.Obj? && GetOr(sample.fields, "@submitted_sample_id", Null) == Str(alias)
  }

  /** The search succeeds with the sample at index i iff every sample before it
      is a dict with another id and the one at i has the alias; when every sample
      is a dict and none has the alias, SampleNotFoundError names the alias. */
  lemma {:induction false} FindSampleMeans(samples: seq<Value>, alias: string, i: nat)
    ensures i < |samples| && SampleMatches(samples[i], alias)
            && (forall j :: 0 <= j < i ==> samples[j].Obj? && !SampleMatches(samples[j], alias))
            ==> FindSample(samples, alias) == Ok(samples[i])
    ensures FindSample(samples, alias).Ok? ==> SampleMatches(FindSample(samples, alias).value, alias)
    ensures (forall j :: 0 <= j < |samples| ==> samples[j].Obj? && !SampleMatches(samples[j], alias))
            ==> FindSample(samples, alias) == Err(SampleNotFoundError(alias))
    decreases |samples|
  {
    if samples != [] {
      FindSampleMeans(samples[1..], alias, if i == 0 then 0 else i - 1);
      if i > 0 && i < |samples| {
        assert samples[1..][i - 1] == samples[i];
        assert forall j :: 0 <= j < i - 1 ==> samples[1..][j] == samples[j + 1];
      }
      assert forall j :: 0 <= j < |samples| - 1 ==> samples[1..][j] == samples[j + 1];
    }
  }

  /** The samples of the report: `telemetry_data["DbGap"]["Study"]["SampleList"]["Sample"]`. */
  function SampleList(report: Value): Result<Value> {
    var dbgap :- Subscript(report, "DbGap");
    var study :- Subscript(dbgap, "Study");
    var sampleList :- Subscript(study, "SampleList");
    Subscript(sampleList, "Sample")
  }

  /** `_get_sample`: a KeyError on the way to the sample list is raised again
      unchanged. */
  function GetSample(report: Value, alias: string): Result<Value> {
    var samples :- SampleList(report);
    var items :- Iterate(samples);
    FindSample(items, alias)
  }

  /** A report without the path to the sample list raises the KeyError of the
      first key missing; a found sample always carries the alias. */
  lemma GetSampleMeans(report: Value, alias: string)
    ensures report.Obj? && !HasKey(report.fields, "DbGap") ==> GetSample(report, alias) == Err(KeyError("DbGap"))
    ensures (report.Obj? && HasKey(report.fields, "DbGap") && At(report, "DbGap").Obj?
             && !HasKey(At(report, "DbGap").fields, "Study")) ==> GetSample(report, alias) == Err(KeyError("Study"))
    ensures GetSample(report, alias).Ok? ==> SampleMatches(GetSample(report, alias).value, alias)
  {
    if GetSample(report, alias).Ok? {
      FindSampleMeans(Iterate(SampleList(report).value).value, alias, 0);
    }
  }

  /** A list of samples is searched in order: the first sample with the alias is
      found when every sample before it is a dict. */
  lemma GetSampleFindsFirst(report: Value, alias: string, i: nat)
    requires SampleList(report).Ok? && SampleList(report).value.List?
    requires var samples := SampleList(report).value.items;
             i < |samples| && SampleMatches(samples[i], alias)
             && forall j :: 0 <= j < i ==> samples[j].Obj? && !SampleMatches(samples[j], alias)
    ensures GetSample(report, alias) == Ok(SampleList(report).value.items[i])
  {
    FindSampleMeans(SampleList(report).value.items, alias, i);
  }

  /** When the study has a single sample, `xmltodict` gives a dict rather than a
      list; the loop then visits the dict's keys, which are text, and `get` on
      the first of them raises AttributeError. */
  lemma SingleSampleRaises(report: Value, alias: string)
    requires SampleList(report).Ok? && SampleList(report).value.Obj? && SampleList(report).value.fields != []
    ensures GetSample(report, alias) == Err(AttributeError("get"))
  {
  }

  /** The loop over a list of stats: the "@status" of the first stat whose
      "@experiment_type" is the data type, None when there is none. */
  function FindStatus(stats: seq<Value>, dataType: string): Result<Value> {
    if stats == [] then Ok(Null)
    else
      var kind :- GetMethod(stats[0], "@experiment_type");
      if kind == Str(dataType) then Subscript(stats[0], "@status") else FindStatus(stats[1..], dataType)
  }

  predicate StatMatches(stat: Value, dataType: string) {
    stat.Obj? && GetOr(stat.fields, "@experiment_type", Null) == Str(dataType)
  }

  /** The first stat of the data type decides: its "@status" when it has one;
      when no stat, all dicts, has the data type the status is None. */
  lemma {:induction false} FindStatusMeans(stats: seq<Value>, dataType: string, i: nat)
    ensures i < |stats| && StatMatches(stats[i], dataType)
            && (forall j :: 0 <= j < i ==> stats[j].Obj? && !StatMatches(stats[j], dataType))
            ==> FindStatus(stats, dataType) == Lookup(stats[i].fields, "@status")
    ensures (forall j :: 0 <= j < |stats| ==> stats[j].Obj? && !StatMatches(stats[j], dataType))
            ==> FindStatus(stats, dataType) == Ok(Null)
    decreases |stats|
  {
    if stats != [] {
      FindStatusMeans(stats[1..], dataType, if i == 0 then 0 else i - 1);
      if i > 0 && i < |stats| {
        assert stats[1..][i - 1] == stats[i];
        assert forall j :: 0 <= j < i - 1 ==> stats[1..][j] == stats[j + 1];
      }
      assert forall j :: 0 <= j < |stats| - 1 ==> stats[1..][j] == stats[j + 1];
    }
  }

  /** `get_sample_status`: a list of stats is searched for the data type, a
      single stat gives its status whatever the data type, and anything else
      gives None. */
  function GetSampleStatus(report: Value, alias: string, dataType: string): Result<Value> {
    var sample :- GetSample(report, alias);
    var sraData :- Subscript(sample, "SRAData");
    var stats :- Subscript(sraData, "Stats");
    if stats.List? then FindStatus(stats.items, dataType)
    else if stats.Obj? then Subscript(stats, "@status")
    else Ok(Null)
  }

  /** The stats of a found sample. */
  function SampleStats(report: Value, alias: string): Value
    requires GetSample(report, alias).Ok?
  {
    At(At(GetSample(report, alias).value, "SRAData"), "Stats")
  }

  /** A single stat's status is the answer for every data type; the status is
      None when the stats are neither a list nor a dict. */
  lemma SampleStatusOfOneStat(report: Value, alias: string, dataType: string, other: string)
    requires GetSample(report, alias).Ok? && At(GetSample(report, alias).value, "SRAData").Obj?
    requires HasKey(GetSample(report, alias).value.fields, "SRAData")
    requires HasKey(At(GetSample(report, alias).value, "SRAData").fields, "Stats")
    ensures SampleStats(report, alias).Obj? ==>
              GetSampleStatus(report, alias, dataType) == GetSampleStatus(report, alias, other)
              == Lookup(SampleStats(report, alias).fields, "@status")
    ensures !SampleStats(report, alias).List? && !SampleStats(report, alias).Obj? ==>
              GetSampleStatus(report, alias, dataType) == Ok(Null)
  {
    var sample := GetSample(report, alias).value;
    assert Lookup(sample.fields, "SRAData").value == At(sample, "SRAData");
    assert Lookup(At(sample, "SRAData").fields, "Stats").value == SampleStats(report, alias);
  }

  /** A list of stats gives the status of its first stat of the data type. */
  lemma SampleStatusOfStatList(report: Value, alias: string, dataType: string, i: nat)
    requires GetSample(report, alias).Ok? && At(GetSample(report, alias).value, "SRAData").Obj?
    requires HasKey(GetSample(report, alias).value.fields, "SRAData")
    requires HasKey(At(GetSample(report, alias).value, "SRAData").fields, "Stats")
    requires SampleStats(report, alias).List?
    requires var stats := SampleStats(report, alias).items;
             i < |stats| && StatMatches(stats[i], dataType)
             && forall j :: 0 <= j < i ==> stats[j].Obj? && !StatMatches(stats[j], dataType)
    ensures GetSampleStatus(report, alias, dataType) == Lookup(SampleStats(report, alias).items[i].fields, "@status")
  {
    var sample := GetSample(report, alias).value;
    assert Lookup(sample.fields, "SRAData").value == At(sample, "SRAData");
    assert Lookup(At(sample, "SRAData").fields, "Stats").value == SampleStats(report, alias);
    FindStatusMeans(SampleStats(report, alias).items, dataType, i);
  }

  /** The KeyError `get_sample_info` raises for a missing attribute: the message
      names the key as Python prints it and the alias. */
  function InfoKeyError(key: string, alias: string): Exc {
    KeyError("Key error occurred when accessing '" + key + "' in sample with alias '" + alias + "'")
  }

  /** `get_sample_info`. */
  function GetSampleInfo(report: Value, alias: string): Result<Value> {
    var sample :- GetSample(report, alias);
    var repository := Subscript(sample, "@repository");
    var subject := Subscript(sample, "@submitted_subject_id");
    if repository.Err? then Err(InfoKeyError("@repository", alias))
    else if subject.Err? then Err(InfoKeyError("@submitted_subject_id", alias))
    else Ok(Obj([("repository", repository.value), ("submitted_subject_id", subject.value)]))
  }

  /** The answer holds exactly the repository and the subject id of the sample
      found; a missing one of them raises the KeyError naming it and the alias,
      the repository first. */
  lemma GetSampleInfoMeans(report: Value, alias: string)
    requires GetSample(report, alias).Ok?
    ensures var sample := GetSample(report, alias).value;
            && sample.Obj?
            && (!HasKey(sample.fields, "@repository") ==>
                  GetSampleInfo(report, alias) == Err(InfoKeyError("@repository", alias)))
            && (HasKey(sample.fields, "@repository") && !HasKey(sample.fields, "@submitted_subject_id") ==>
                  GetSampleInfo(report, alias) == Err(InfoKeyError("@submitted_subject_id", alias)))
            && (GetSampleInfo(report, alias).Ok? <==>
                  HasKey(sample.fields, "@repository") && HasKey(sample.fields, "@submitted_subject_id"))
            && (GetSampleInfo(report, alias).Ok? ==>
                  var info := GetSampleInfo(report, alias).value;
                  info.Obj? && Keys(info.fields) == ["repository", "submitted_subject_id"]
                  && info.fields[0].1 == At(sample, "@repository")
                  && info.fields[1].1 == At(sample, "@submitted_subject_id"))
  {
    GetSampleMeans(report, alias);
    var sample := GetSample(report, alias).value;
    if GetSampleInfo(report, alias).Ok? {
      assert Lookup(sample.fields, "@repository").value == At(sample, "@repository");
      assert Lookup(sample.fields, "@submitted_subject_id").value == At(sample, "@submitted_subject_id");
    }
  }
}
