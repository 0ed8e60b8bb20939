/**
 * The SRA (dbGaP) documents for one sample's aligned reads
 * (src/scripts/dbgap/dbgap_classes.py): the sample and its read group as read
 * from the workspace tables, the library descriptor and read length they imply,
 * the Experiment and Run submitter ids, and the Experiment, Run and Submission
 * dict trees that are turned into XML.
 */
module DbgapClasses {
  import opened Outcome
  import opened Python
  import DbgapTelemetryReport

  // ---------------------------------------------------------------------------
  // Sample

  /** Sample.DATA_TYPE_MAPPING: the data types it names, each with its
      (constant, name) pair. */
  function DataTypeMapping(dataType: string): Option<(string, string)> {
    if dataType == "WGS" then Some(("Whole Genome", "Whole Genome Sequencing"))
    else if dataType == "RNA" then Some(("RNA Seq", "RNA Sequencing"))
    else if dataType == "WXS" || dataType == "Exome" then Some(("Whole Exome", "Whole Exome Sequencing"))
    else if dataType == "Custom_Selection" then
      Some(("Custom_Selection", "Genomic Sequencing for Select Targets of Interest"))
    else if dataType == "N/A" then Some(("Unknown", "Unknown"))
    else None
  }

  /** The pair `formatted_data_type` falls back to. */
  const UnknownDataType := ("Unknown", "Unknown")

  /** `formatted_data_type`: the table's pair, or the unknown pair for a data type
      the table lacks; a list or a dict cannot be looked up (TypeError). */
  function FormattedDataType(dataType: Value): Result<(string, string)> {
    if dataType.List? || dataType.Obj? then Err(TypeError("unhashable type"))
    else if dataType.Str? && DataTypeMapping(dataType.s).Some? then Ok(DataTypeMapping(dataType.s).value)
    else Ok(UnknownDataType)
  }

  /** Every data type the table names gets its pair, WXS and Exome the same one,
      and every other hashable value the unknown pair. */
  lemma FormattedDataTypeMeans(dataType: Value)
    ensures dataType == Str("WGS") ==> FormattedDataType(dataType) == Ok(("Whole Genome", "Whole Genome Sequencing"))
    ensures dataType == Str("RNA") ==> FormattedDataType(dataType) == Ok(("RNA Seq", "RNA Sequencing"))
    ensures dataType in [Str("WXS"), Str("Exome")] ==>
              FormattedDataType(dataType) == Ok(("Whole Exome", "Whole Exome Sequencing"))
    ensures dataType == Str("Custom_Selection") ==>
              FormattedDataType(dataType) == Ok(("Custom_Selection", "Genomic Sequencing for Select Targets of Interest"))
    ensures dataType == Str("N/A") ==> FormattedDataType(dataType) == Ok(UnknownDataType)
    ensures FormattedDataType(dataType).Err? <==> dataType.List? || dataType.Obj?
    ensures !dataType.List? && !dataType.Obj?
            && dataType !in [Str("WGS"), Str("RNA"), Str("WXS"), Str("Exome"), Str("Custom_Selection")] ==>
              FormattedDataType(dataType) == Ok(UnknownDataType)
  {
  }

  /** A sample as its constructor leaves it: the attributes it copies, the phs id
      as text, the file type and data file derived from the aggregation path and
      the sample's name, and the telemetry report's information for the alias. */
  datatype Sample = Sample(
    project: Value, location: Value, version: Value, md5: Value, phs: string, dataType: Value,
    alias: Value, aggregationPath: Value, fileType: string, dataFile: string, dbgapInfo: Value)

  /** `sample_json[key]` inside the constructor's try block: a missing key is
      reported as ValueError naming it. */
  function SampleField(sampleJson: Value, key: string): (r: Result<Value>)
    ensures sampleJson.Obj? && !HasKey(sampleJson.fields, key) ==> r == Err(MissingField(key))
    ensures sampleJson.Obj? && HasKey(sampleJson.fields, key) ==> r == Ok(At(sampleJson, key))
  {
    var v := Subscript(sampleJson, key);
    if v.Err? && v.error.KeyError? then Err(MissingField(key)) else v
  }

  /** `_get_file_extension`: `os.path.splitext(path)[1][1:]`, which only text
      can be given. */
  function FileExtension(aggregationPath: Value): (r: Result<string>)
    ensures aggregationPath.Str? <==> r.Ok?
    ensures r.Ok? ==> r.value == Extension(aggregationPath.s)
  {
    if aggregationPath.Str? then Ok(Extension(aggregationPath.s)) else Err(TypeError("expected str, bytes or os.PathLike object"))
  }

  /** The attributes `_set_sample_attributes` reads, in the order it reads them. */
  datatype SampleAttributes = SampleAttributes(
    project: Value, location: Value, version: Value, phsId: Value, dataType: Value, alias: Value,
    aggregationPath: Value)

  /** The ValueError a missing sample attribute raises. */
  function MissingField(key: string): Exc {
    ValueError("Missing required field: '" + key + "'")
  }

  /** The names the constructor's try block reads, in order. */
  const SampleKeys := ["aggregation_project", "location", "version", "phs_id", "data_type", "alias", "aggregation_path"]

  /** The try block of `_set_sample_attributes`. */
  function SampleAttributesOf(sampleJson: Value): Result<SampleAttributes> {
    var project :- SampleField(sampleJson, "aggregation_project");
    var location :- SampleField(sampleJson, "location");
    var version :- SampleField(sampleJson, "version");
    var phs :- SampleField(sampleJson, "phs_id");
    var dataType :- SampleField(sampleJson, "data_type");
    var alias :- SampleField(sampleJson, "alias");
    var aggregationPath :- SampleField(sampleJson, "aggregation_path");
    Ok(SampleAttributes(project, location, version, phs, dataType, alias, aggregationPath))
  }

  /** The attributes are read iff the sample's attributes are a dict holding all
      seven; the first one missing, in the order read, is the one the ValueError
      names; and each attribute is the dict's value for its name. */
  lemma SampleAttributesMeans(sampleJson: Value)
    requires sampleJson.Obj?
    ensures SampleAttributesOf(sampleJson).Ok? <==> forall k :: k in SampleKeys ==> HasKey(sampleJson.fields, k)
    ensures forall i :: 0 <= i < |SampleKeys| && !HasKey(sampleJson.fields, SampleKeys[i])
                        && (forall j :: 0 <= j < i ==> HasKey(sampleJson.fields, SampleKeys[j])) ==>
                          SampleAttributesOf(sampleJson) == Err(MissingField(SampleKeys[i]))
    ensures SampleAttributesOf(sampleJson).Ok? ==>
              SampleAttributesOf(sampleJson).value
                == SampleAttributes(At(sampleJson, "aggregation_project"), At(sampleJson, "location"),
                                    At(sampleJson, "version"), At(sampleJson, "phs_id"), At(sampleJson, "data_type"),
                                    At(sampleJson, "alias"), At(sampleJson, "aggregation_path"))
  {
    assert SampleKeys[0] == "aggregation_project" && SampleKeys[1] == "location" && SampleKeys[2] == "version";
    assert SampleKeys[3] == "phs_id" && SampleKeys[4] == "data_type" && SampleKeys[5] == "alias";
    assert SampleKeys[6] == "aggregation_path";
  }

  /** `Sample(json_object, md5)`, with the telemetry report of the study given as
      its parsed value (the wrapper fetches it over the network). */
  function NewSample(jsonObject: Value, md5: Value, report: Value): Result<Sample> {
    var first :- Item(jsonObject, 0);
    var sampleJson :- Subscript(first, "attributes");
    var sampleId :- Subscript(first, "name");
    SampleOf(sampleJson, sampleId, md5, report)
  }

  /** `_set_sample_attributes`. */
  function SampleOf(sampleJson: Value, sampleId: Value, md5: Value, report: Value): Result<Sample> {
    var a :- SampleAttributesOf(sampleJson);
    var fileType :- FileExtension(a.aggregationPath);
    var info :- DbgapTelemetryReport.GetSampleInfo(report, Show(a.alias));
    Ok(Sample(a.project, a.location, a.version, md5, Show(a.phsId), a.dataType, a.alias, a.aggregationPath, fileType,
              Show(sampleId) + "." + fileType, info))
  }

  /** A sample keeps its attributes and the md5 it is given, names its data file
      after the sample with the aggregation path's extension, and carries the
      telemetry report's information for its alias. */
  lemma SampleOfMeans(sampleJson: Value, sampleId: Value, md5: Value, report: Value)
    requires SampleOf(sampleJson, sampleId, md5, report).Ok?
    ensures var a := SampleAttributesOf(sampleJson).value;
            var s := SampleOf(sampleJson, sampleId, md5, report).value;
            && SampleAttributesOf(sampleJson).Ok?
            && s.project == a.project && s.version == a.version && s.alias == a.alias && s.dataType == a.dataType
            && s.phs == Show(a.phsId) && s.md5 == md5
            && s.aggregationPath.Str? && s.fileType == Extension(s.aggregationPath.s)
            && s.dataFile == Show(sampleId) + "." + s.fileType
            && AfterLast(s.dataFile, '.') == s.fileType
            && Ok(s.dbgapInfo) == DbgapTelemetryReport.GetSampleInfo(report, Show(s.alias))
  {
    var s := SampleOf(sampleJson, sampleId, md5, report).value;
    AfterLastSuffix(Show(sampleId), s.fileType, '.');
  }

  /** The text after the last c of `a + [c] + b` is b when b holds no c. */
  lemma {:induction false} AfterLastSuffix(a: string, b: string, c: char)
    requires c !in b
    ensures AfterLast(a + [c] + b, c) == b
  {
    var s := a + [c] + b;
    var r := AfterLast(s, c);
    assert s[|a|] == c;
    if |r| > |b| {
      assert false;
    }
    assert s[|s| - |b|..] == b;
    if |r| < |b| {
      var rest := s[|s| - |r|..];
      assert r == rest;
      assert s[|s| - |r| - 1] == b[|b| - |r| - 1];
      AfterLastWhole(s, c, |r|);
      assert false;
    }
  }

  /** The text after the last c is preceded by a c (or is the whole text). */
  lemma {:induction false} AfterLastWhole(s: string, c: char, n: nat)
    requires n == |AfterLast(s, c)| && n < |s|
    ensures s[|s| - n - 1] == c
    decreases |s|
  {
    var head := Before(s, c);
    if |head| == |s| {
      assert false;
    } else {
      var tail := s[|head| + 1..];
      assert AfterLast(s, c) == AfterLast(tail, c);
      if n < |tail| {
        AfterLastWhole(tail, c, n);
        assert tail[|tail| - n - 1] == s[|s| - n - 1];
      } else {
        assert s[|head|] == c;
      }
    }
  }

  /** `subject_string`: "from subject '<id>'" for a truthy subject id, else "". */
  function SubjectString(sample: Sample): (r: Result<string>)
  {
    var subjectId :- Subscript(sample.dbgapInfo, "submitted_subject_id");
    Ok(if Truthy(subjectId) then "from subject '" + Show(subjectId) + "'" else "")
  }

  /** `biospecimen_repo`. */
  function BiospecimenRepo(sample: Sample): Result<Value> {
    Subscript(sample.dbgapInfo, "repository")
  }

  /** A sample carrying the report's information for its alias (as every
      sample built does, by `SampleOfMeans`) has a subject string and a
      repository, those the report gives for the alias. */
  lemma SampleInfoComplete(s: Sample, report: Value)
    requires Ok(s.dbgapInfo) == DbgapTelemetryReport.GetSampleInfo(report, Show(s.alias))
    ensures var sample := DbgapTelemetryReport.GetSample(report, Show(s.alias)).value;
            && DbgapTelemetryReport.GetSample(report, Show(s.alias)).Ok?
            && BiospecimenRepo(s) == Ok(At(sample, "@repository"))
            && SubjectString(s).Ok?
            && (SubjectString(s).value != "" <==> Truthy(At(sample, "@submitted_subject_id")))
  {
    SampleInfoValue(report, Show(s.alias));
    var sample := DbgapTelemetryReport.GetSample(report, Show(s.alias)).value;
    var fields := s.dbgapInfo.fields;
    assert fields[0].0 == "repository" && fields[1].0 == "submitted_subject_id" && fields[1..][1..] == [];
    assert Get(fields, "repository") == Some(At(sample, "@repository"));
    assert Get(fields[1..], "submitted_subject_id") == Some(At(sample, "@submitted_subject_id"));
  }

  /** The information the report gives for an alias: the sample's repository and
      subject id under their plain names. */
  lemma SampleInfoValue(report: Value, alias: string)
    requires DbgapTelemetryReport.GetSampleInfo(report, alias).Ok?
    ensures var sample := DbgapTelemetryReport.GetSample(report, alias).value;
            && DbgapTelemetryReport.GetSample(report, alias).Ok?
            && DbgapTelemetryReport.GetSampleInfo(report, alias).value
                 == Obj([("repository", At(sample, "@repository")),
                         ("submitted_subject_id", At(sample, "@submitted_subject_id"))])
  {
  }

  // ---------------------------------------------------------------------------
  // ReadGroup: the constant fields of the first record

  /** The fields a read group copies from its first record. */
  datatype Constants = Constants(
    libraryName: Value, libraryType: Value, workRequestId: Value, analysisType: Value, pairedRun: Value,
    readStructure: Value, sampleLsid: Value, referenceSequence: Value, model: Value,
    researchProjectId: Value, baitSet: Value, sampleBarcode: Value, productOrderId: Value,
    sampleMaterialType: Value)

  /** The KeyError a missing required field of the first record is re-raised as. */
  function MissingKey(key: string): Exc {
    KeyError("Missing required key in read group '" + key + "'")
  }

  /** `first_read_group[key]` inside `_set_constant_values`'s try block. */
  function ReadGroupField(first: Value, key: string): (r: Result<Value>)
    ensures first.Obj? && !HasKey(first.fields, key) ==> r == Err(MissingKey(key))
    ensures first.Obj? && HasKey(first.fields, key) ==> r == Ok(At(first, key))
  {
    var v := Subscript(first, key);
    if v.Err? && v.error.KeyError? then Err(MissingKey(key)) else v
  }

  /** The fields the try block rows, in order. */
  const RequiredKeys := ["library_name", "library_type", "analysis_type", "paired_run", "read_structure",
                         "sample_lsid", "reference_sequence", "model"]

  /** The required fields read one after another: the first one missing
      decides the KeyError. */
  function RequiredFields(first: Value, keys: seq<string>): (r: Result<seq<Value>>)
    ensures r.Ok? ==> |r.value| == |keys|
  {
    if keys == [] then Ok([])
    else
      var v :- ReadGroupField(first, keys[0]);
      var rest :- RequiredFields(first, keys[1..]);
      Ok([v] + rest)
  }

  /** The fields are read iff every key is present; then each is the record's
      value for its key, and otherwise the first missing key is the one the
      KeyError names. */
  lemma {:induction false} RequiredFieldsMeans(first: Value, keys: seq<string>)
    requires first.Obj?
    ensures RequiredFields(first, keys).Ok? <==> forall k :: k in keys ==> HasKey(first.fields, k)
    ensures RequiredFields(first, keys).Ok? ==>
              forall i :: 0 <= i < |keys| ==> RequiredFields(first, keys).value[i] == At(first, keys[i])
    ensures forall i :: 0 <= i < |keys| && !HasKey(first.fields, keys[i])
                        && (forall j :: 0 <= j < i ==> HasKey(first.fields, keys[j])) ==>
                          RequiredFields(first, keys) == Err(MissingKey(keys[i]))
  {
    if keys != [] {
      RequiredFieldsMeans(first, keys[1..]);
      assert forall k :: k in keys <==> k == keys[0] || k in keys[1..];
      forall i | 0 < i < |keys| && !HasKey(first.fields, keys[i]) && (forall j :: 0 <= j < i ==> HasKey(first.fields, keys[j]))
        ensures RequiredFields(first, keys) == Err(MissingKey(keys[i]))
      {
        assert keys[1..][i - 1] == keys[i];
        assert forall j :: 0 <= j < i - 1 ==> keys[1..][j] == keys[j + 1];
      }
      if RequiredFields(first, keys).Ok? {
        forall i | 0 < i < |keys| ensures RequiredFields(first, keys).value[i] == At(first, keys[i]) {
          assert keys[1..][i - 1] == keys[i];
        }
      }
    }
  }

  /** `_set_constant_values`: the required fields, `work_request_id` and
      `sample_barcode` defaulting to None, the other four to "". */
  function ConstantsOf(first: Value): Result<Constants> {
    var required :- RequiredFields(first, RequiredKeys);
    Ok(Constants(required[0], required[1], At(first, "work_request_id"), required[2], required[3], required[4],
                 required[5], required[6], required[7], AtOr(first, "research_project_id", Str("")),
                 AtOr(first, "bait_set", Str("")), At(first, "sample_barcode"),
                 AtOr(first, "product_order_id", Str("")), AtOr(first, "sample_material_type", Str(""))))
  }

  /** The constants are read iff the record is a dict with every required field,
      and the first required field missing, in the order read, is the one the
      KeyError names. */
  lemma ConstantsMeans(first: Value)
    requires first.Obj?
    ensures ConstantsOf(first).Ok? <==> forall k :: k in RequiredKeys ==> HasKey(first.fields, k)
    ensures forall i :: 0 <= i < |RequiredKeys| && !HasKey(first.fields, RequiredKeys[i])
                        && (forall j :: 0 <= j < i ==> HasKey(first.fields, RequiredKeys[j])) ==>
                          ConstantsOf(first) == Err(MissingKey(RequiredKeys[i]))
  {
    RequiredFieldsMeans(first, RequiredKeys);
  }

  /** On success every field is the record's own, `work_request_id` None when
      missing, and the four optional ones "" when missing. */
  lemma ConstantsValues(first: Value)
    requires first.Obj?
    ensures ConstantsOf(first).Ok? ==>
              var c := ConstantsOf(first).value;
              && c.libraryName == At(first, "library_name") && c.libraryType == At(first, "library_type")
              && c.analysisType == At(first, "analysis_type") && c.pairedRun == At(first, "paired_run")
              && c.readStructure == At(first, "read_structure") && c.sampleLsid == At(first, "sample_lsid")
              && c.referenceSequence == At(first, "reference_sequence") && c.model == At(first, "model")
              && c.workRequestId == At(first, "work_request_id")
              && (!HasKey(first.fields, "research_project_id") ==> c.researchProjectId == Str(""))
              && (!HasKey(first.fields, "bait_set") ==> c.baitSet == Str(""))
              && (!HasKey(first.fields, "product_order_id") ==> c.productOrderId == Str(""))
              && (!HasKey(first.fields, "sample_material_type") ==> c.sampleMaterialType == Str(""))
  {
    RequiredFieldsMeans(first, RequiredKeys);
    assert RequiredKeys[0] == "library_name" && RequiredKeys[1] == "library_type" && RequiredKeys[2] == "analysis_type";
    assert RequiredKeys[3] == "paired_run" && RequiredKeys[4] == "read_structure" && RequiredKeys[5] == "sample_lsid";
    assert RequiredKeys[6] == "reference_sequence" && RequiredKeys[7] == "model";
  }

  // ---------------------------------------------------------------------------
  // ReadGroup: the sets aggregated over all records

  /** `{template(x) for x in records}`: the first record the template fails on
      decides the exception. */
  function Image(records: seq<Value>, template: Value -> Result<Value>): Result<set<Value>> {
    if records == [] then Ok({})
    else
      var x :- template(records[0]);
      var rest :- Image(records[1..], template);
      Ok({x} + rest)
  }

  /** The set is formed iff the template succeeds on every record, and it holds
      exactly the template's results. */
  lemma {:induction false} ImageMeans(records: seq<Value>, template: Value -> Result<Value>)
    ensures Image(records, template).Ok? <==> forall i :: 0 <= i < |records| ==> template(records[i]).Ok?
    ensures Image(records, template).Ok? ==>
              forall x :: x in Image(records, template).value <==>
                            exists i :: 0 <= i < |records| && template(records[i]) == Ok(x)
  {
    if records != [] {
      var rest := records[1..];
      ImageMeans(rest, template);
      assert forall i :: 0 <= i < |rest| ==> rest[i] == records[i + 1];
      if Image(records, template).Ok? {
        forall x | x in Image(records, template).value
          ensures exists i :: 0 <= i < |records| && template(records[i]) == Ok(x)
        {
          if x != template(records[0]).value {
            var i :| 0 <= i < |rest| && template(rest[i]) == Ok(x);
            assert template(records[i + 1]) == Ok(x);
          }
        }
        forall x | exists i :: 0 <= i < |records| && template(records[i]) == Ok(x)
          ensures x in Image(records, template).value
        {
          var i :| 0 <= i < |records| && template(records[i]) == Ok(x);
          if i > 0 {
            assert template(rest[i - 1]) == Ok(x);
          }
        }
      }
    }
  }

  /** Record order and repeated records do not change the set: two record lists
      holding the same records give the same set, or both fail. */
  lemma ImageOfSameRecords(records: seq<Value>, others: seq<Value>, template: Value -> Result<Value>)
    requires forall x :: x in records <==> x in others
    ensures Image(records, template).Ok? <==> Image(others, template).Ok?
    ensures Image(records, template).Ok? ==> Image(records, template).value == Image(others, template).value
  {
    ImageMeans(records, template);
    ImageMeans(others, template);
    if Image(records, template).Ok? {
      forall j | 0 <= j < |others| ensures template(others[j]).Ok? {
        assert others[j] in records;
      }
      var a := Image(records, template).value;
      var b := Image(others, template).value;
      forall x ensures x in a <==> x in b {
        if x in a {
          var i :| 0 <= i < |records| && template(records[i]) == Ok(x);
          assert records[i] in others;
          var j :| 0 <= j < |others| && others[j] == records[i];
        }
        if x in b {
          var j :| 0 <= j < |others| && template(others[j]) == Ok(x);
          assert others[j] in records;
          var i :| 0 <= i < |records| && records[i] == others[j];
        }
      }
    } else {
      var i :| 0 <= i < |records| && template(records[i]).Err?;
      assert records[i] in others;
      var j :| 0 <= j < |others| && others[j] == records[i];
    }
  }

  /** `construct_read_group_id`: the first five characters of the run barcode, a
      dot and the lane. */
  function ReadGroupIdOf(row: Value): Result<Value> {
    var barcode :- Subscript(row, "run_barcode");
    var prefix :- SliceTo(barcode, 5);
    var lane :- Subscript(row, "lane");
    Ok(Str(Show(prefix) + "." + Show(lane)))
  }

  /** `construct_molecular_idx`: the barcode name and, in brackets, its sequence. */
  function MolecularIdxOf(row: Value): Result<Value> {
    var name :- Subscript(row, "molecular_barcode_name");
    var sequence :- Subscript(row, "molecular_barcode_sequence");
    Ok(Str(Show(name) + " [" + Show(sequence) + "]"))
  }

  /** `construct_rg_platform`: run barcode, lane and barcode sequence, dot-joined. */
  function PlatformUnitOf(row: Value): Result<Value> {
    var barcode :- Subscript(row, "run_barcode");
    var lane :- Subscript(row, "lane");
    var sequence :- Subscript(row, "molecular_barcode_sequence");
    Ok(Str(Show(barcode) + "." + Show(lane) + "." + Show(sequence)))
  }

  /** `construct_rg_platform_lib`: the platform unit, a dot and the library name. */
  function PlatformUnitLibOf(row: Value): Result<Value> {
    var unit :- PlatformUnitOf(row);
    var library :- Subscript(row, "library_name");
    Ok(Str(Show(unit) + "." + Show(library)))
  }

  /** `x[key]` as a set element: a list or a dict is unhashable. */
  function FieldOf(key: string): Value -> Result<Value> {
    row =>
      var v :- Subscript(row, key);
      if v.List? || v.Obj? then Err(TypeError("unhashable type")) else Ok(v)
  }

  /** The templates on a record with text fields: the read-group id is the
      barcode's first five characters, a dot and the lane; the platform unit is
      barcode, lane and sequence, dotted; the platform-unit-lib extends the
      platform unit by a dot and the library name. */
  lemma TemplatesOfTextRecord(row: Value, barcode: string, lane: string, sequence: string, library: string)
    requires row.Obj?
    requires Get(row.fields, "run_barcode") == Some(Str(barcode)) && Get(row.fields, "lane") == Some(Str(lane))
    requires Get(row.fields, "molecular_barcode_sequence") == Some(Str(sequence))
    requires Get(row.fields, "library_name") == Some(Str(library))
    ensures ReadGroupIdOf(row) == Ok(Str(Slice(barcode, 0, 5) + "." + lane))
    ensures PlatformUnitOf(row) == Ok(Str(barcode + "." + lane + "." + sequence))
    ensures PlatformUnitLibOf(row) == Ok(Str(barcode + "." + lane + "." + sequence + "." + library))
  {
  }

  /** On one record: the platform-unit-lib extends the platform unit by a dot
      and the library name. */
  lemma PlatformUnitLibExtendsUnit(row: Value)
    requires PlatformUnitLibOf(row).Ok?
    ensures PlatformUnitOf(row).Ok? && PlatformUnitOf(row).value.Str?
    ensures PlatformUnitLibOf(row).value == Str(PlatformUnitOf(row).value.s + "." + Show(At(row, "library_name")))
  {
  }

  /** An element of an image comes from some record. */
  lemma ImageElement(records: seq<Value>, template: Value -> Result<Value>, x: Value) returns (i: nat)
    requires Image(records, template).Ok? && x in Image(records, template).value
    ensures i < |records| && template(records[i]) == Ok(x)
  {
    ImageMeans(records, template);
    i :| 0 <= i < |records| && template(records[i]) == Ok(x);
  }

  /** The template's result on any record is in the image. */
  lemma ImageHolds(records: seq<Value>, template: Value -> Result<Value>, i: nat)
    requires Image(records, template).Ok? && i < |records|
    ensures template(records[i]).Ok? && template(records[i]).value in Image(records, template).value
  {
    ImageMeans(records, template);
  }

  /** Every platform-unit-lib is some record's platform unit, itself in the
      platform-unit set, followed by a dot and that record's library name. */
  lemma PlatformUnitLibsExtendUnits(records: seq<Value>)
    requires Image(records, PlatformUnitLibOf).Ok?
    ensures Image(records, PlatformUnitOf).Ok?
    ensures forall x :: x in Image(records, PlatformUnitLibOf).value ==>
              exists u, i :: u in Image(records, PlatformUnitOf).value && u.Str? && 0 <= i < |records|
                             && x == Str(u.s + "." + Show(At(records[i], "library_name")))
  {
    forall i | 0 <= i < |records| ensures PlatformUnitOf(records[i]).Ok? {
      ImageHolds(records, PlatformUnitLibOf, i);
      PlatformUnitLibExtendsUnit(records[i]);
    }
    ImageMeans(records, PlatformUnitOf);
    forall x | x in Image(records, PlatformUnitLibOf).value
      ensures exists u, i :: u in Image(records, PlatformUnitOf).value && u.Str? && 0 <= i < |records|
                             && x == Str(u.s + "." + Show(At(records[i], "library_name")))
    {
      var i := ImageElement(records, PlatformUnitLibOf, x);
      PlatformUnitLibExtendsUnit(records[i]);
      ImageHolds(records, PlatformUnitOf, i);
    }
  }

  /** The sets `_set_aggregate_values` builds. */
  datatype Aggregates = Aggregates(
    readGroupIds: set<Value>, molecularIdxSchemes: set<Value>, platformUnits: set<Value>,
    platformUnitLibs: set<Value>, runBarcodes: set<Value>, runNames: set<Value>, instrumentNames: set<Value>,
    flowcellBarcodes: set<Value>)

  /** The first four sets, built from the records by the templates above. */
  function TemplateImages(records: seq<Value>): Result<(set<Value>, set<Value>, set<Value>, set<Value>)> {
    var readGroupIds :- Image(records, ReadGroupIdOf);
    var molecularIdxSchemes :- Image(records, MolecularIdxOf);
    var platformUnits :- Image(records, PlatformUnitOf);
    var platformUnitLibs :- Image(records, PlatformUnitLibOf);
    Ok((readGroupIds, molecularIdxSchemes, platformUnits, platformUnitLibs))
  }

  /** The last four sets, copied from one field of each record. */
  function FieldImages(records: seq<Value>): Result<(set<Value>, set<Value>, set<Value>, set<Value>)> {
    var runBarcodes :- Image(records, FieldOf("run_barcode"));
    var runNames :- Image(records, FieldOf("run_name"));
    var instrumentNames :- Image(records, FieldOf("machine_name"));
    var flowcellBarcodes :- Image(records, FieldOf("flowcell_barcode"));
    Ok((runBarcodes, runNames, instrumentNames, flowcellBarcodes))
  }

  /** `_set_aggregate_values`: each set over all records, in the order written. */
  function AggregatesOf(records: seq<Value>): Result<Aggregates> {
    var t :- TemplateImages(records);
    var f :- FieldImages(records);
    Ok(Aggregates(t.0, t.1, t.2, t.3, f.0, f.1, f.2, f.3))
  }

  /** The aggregates are the images of the records under their templates, and
      two record lists holding the same records aggregate alike. */
  lemma AggregatesOfSameRecords(records: seq<Value>, others: seq<Value>)
    requires forall x :: x in records <==> x in others
    ensures AggregatesOf(records).Ok? <==> AggregatesOf(others).Ok?
    ensures AggregatesOf(records).Ok? ==> AggregatesOf(records).value == AggregatesOf(others).value
  {
    ImageOfSameRecords(records, others, ReadGroupIdOf);
    ImageOfSameRecords(records, others, MolecularIdxOf);
    ImageOfSameRecords(records, others, PlatformUnitOf);
    ImageOfSameRecords(records, others, PlatformUnitLibOf);
    ImageOfSameRecords(records, others, FieldOf("run_barcode"));
    ImageOfSameRecords(records, others, FieldOf("run_name"));
    ImageOfSameRecords(records, others, FieldOf("machine_name"));
    ImageOfSameRecords(records, others, FieldOf("flowcell_barcode"));
  }

  // ---------------------------------------------------------------------------
  // ReadGroup: the submission metadata

  /** The two dicts `sub_data_to_dict` sorts the metadata entries into. */
  datatype Kits = Kits(libraryConstruction: Dict, targetCapture: Dict)

  /** One metadata entry as the loop body reads it: whether its key names a
      library, the key, and the value ("" for a falsy one). */
  datatype Entry = Entry(library: bool, key: string, value: Value)

  /** The loop body on one entry, in Python's order: `read["key"]`, the
      substring test, `read["value"]`, then storing under the key, which a list
      or a dict cannot be. */
  function EntryOf(read: Value): (r: Result<Entry>)
    ensures r.Ok? ==> read.Obj? && Get(read.fields, "key") == Some(Str(r.value.key))
    ensures r.Ok? ==> r.value.library == Contains(r.value.key, "library")
  {
    var key :- Subscript(read, "key");
    var library :- In("library", key);
    var value :- Subscript(read, "value");
    if !key.Str? then Err(TypeError("unhashable type"))
    else Ok(Entry(library, key.s, if Truthy(value) then value else Str("")))
  }

  /** The two dicts after the loop has visited the given entries. */
  function Buckets(rows: seq<Value>): Result<Kits> {
    if rows == [] then Ok(Kits([], []))
    else
      var kits :- Buckets(rows[..|rows| - 1]);
      var e :- EntryOf(rows[|rows| - 1]);
      if e.library then Ok(Kits(Put(kits.libraryConstruction, e.key, e.value), kits.targetCapture))
      else Ok(Kits(kits.libraryConstruction, Put(kits.targetCapture, e.key, e.value)))
  }

  /** The (key, value) pairs of the entries, in order; the first entry that
      cannot be read decides the exception. */
  function Pairs(rows: seq<Value>): Result<seq<(string, Value)>> {
    if rows == [] then Ok([])
    else
      var front :- Pairs(rows[..|rows| - 1]);
      var e :- EntryOf(rows[|rows| - 1]);
      Ok(front + [(e.key, e.value)])
  }

  /** The loop succeeds iff every entry can be read, with the same exception as
      reading them; a key naming a library ends up in the library dict and any
      other in the target dict, each with the value of the last entry carrying it. */
  lemma {:induction false} BucketsMeans(rows: seq<Value>, key: string)
    ensures Buckets(rows).Ok? <==> Pairs(rows).Ok?
    ensures Buckets(rows).Err? ==> Buckets(rows) == Pairs(rows).PropagateFailure()
    ensures Buckets(rows).Ok? ==>
              Get(Buckets(rows).value.libraryConstruction, key)
                == (if Contains(key, "library") then LastValue(Pairs(rows).value, key) else None)
    ensures Buckets(rows).Ok? ==>
              Get(Buckets(rows).value.targetCapture, key)
                == (if Contains(key, "library") then None else LastValue(Pairs(rows).value, key))
  {
    if rows != [] {
      var front := rows[..|rows| - 1];
      BucketsMeans(front, key);
      if Buckets(front).Ok? && EntryOf(rows[|rows| - 1]).Ok? {
        var pairs := Pairs(front).value + [(EntryOf(rows[|rows| - 1]).value.key, EntryOf(rows[|rows| - 1]).value.value)];
        assert Pairs(rows).value == pairs;
        assert pairs[..|pairs| - 1] == Pairs(front).value;
      }
    }
  }

  /** An entry that cannot be read ends the loop with its exception. */
  lemma {:induction false} BucketsStopsAt(rows: seq<Value>, i: nat)
    requires i < |rows| && Buckets(rows[..i]).Ok? && EntryOf(rows[i]).Err?
    ensures Buckets(rows) == Err(EntryOf(rows[i]).error)
    decreases |rows|
  {
    if i < |rows| - 1 {
      var front := rows[..|rows| - 1];
      assert front[..i] == rows[..i] && front[i] == rows[i];
      BucketsStopsAt(front, i);
    } else {
      assert rows[..i] == rows[..|rows| - 1];
    }
  }

  /** `sub_data_to_dict`: None for falsy metadata; otherwise the entries are
      sorted into the two dicts.  A truthy value without a length raises
      TypeError. */
  function SubData(metadata: Value): Result<Option<Kits>> {
    if !Truthy(metadata) then Ok(None)
    else if !(metadata.Str? || metadata.List? || metadata.Obj?) then Err(TypeError("object has no len()"))
    else
      var kits :- Buckets(Iterate(metadata).value);
      Ok(Some(kits))
  }

  /** `sub_data_to_dict` as its loop runs, one entry at a time. */
  method SubDataToDict(metadata: Value) returns (r: Result<Option<Kits>>)
    ensures r == SubData(metadata)
  {
    if !Truthy(metadata) {
      return Ok(None);
    }
    if !(metadata.Str? || metadata.List? || metadata.Obj?) {
      return Err(TypeError("object has no len()"));
    }
    var rows := Iterate(metadata).value;
    var libraryConstruction: Dict := [];
    var targetCapture: Dict := [];
    var i := 0;
    while i < |rows|
      invariant 0 <= i <= |rows|
      invariant Buckets(rows[..i]) == Ok(Kits(libraryConstruction, targetCapture))
    {
      var e := EntryOf(rows[i]);
      if e.Err? {
        BucketsStopsAt(rows, i);
        return Err(e.error);
      }
      if e.value.library {
        libraryConstruction := Put(libraryConstruction, e.value.key, e.value.value);
      } else {
        targetCapture := Put(targetCapture, e.value.key, e.value.value);
      }
      assert rows[..i + 1][..i] == rows[..i];
      i := i + 1;
    }
    assert rows[..i] == rows;
    return Ok(Some(Kits(libraryConstruction, targetCapture)));
  }

  /** `_set_submission_metadata`: a text value of `submission_metadata` is made
      into JSON (single quotes to double, None to null), parsed, and sorted; a
      missing value or one holding "items" gives no metadata.  `parse` stands
      for json.loads. */
  function SubmissionMetadataOf(first: Value, parse: string -> Result<Value>): Result<Option<Kits>> {
    var present :- In("submission_metadata", first);
    if !present then Ok(None)
    else
      var metadata :- Subscript(first, "submission_metadata");
      var hasItems :- In("items", metadata);
      if hasItems then Ok(None)
      else if !metadata.Str? then Err(AttributeError("replace"))
      else
        var parsed :- parse(Replace(Replace(metadata.s, "'", "\""), "None", "null"));
        SubData(parsed)
  }

  /** No metadata without the column or with an `items` placeholder (a dict
      with that key, or text mentioning it); otherwise the text, with its quotes
      made double and None made null, is what is parsed. */
  lemma SubmissionMetadataMeans(first: Value, parse: string -> Result<Value>)
    requires first.Obj?
    ensures !HasKey(first.fields, "submission_metadata") ==> SubmissionMetadataOf(first, parse) == Ok(None)
    ensures At(first, "submission_metadata").Obj? && HasKey(At(first, "submission_metadata").fields, "items") ==>
              SubmissionMetadataOf(first, parse) == Ok(None)
    ensures HasKey(first.fields, "submission_metadata") && At(first, "submission_metadata").Str? ==>
              var text := At(first, "submission_metadata").s;
              SubmissionMetadataOf(first, parse)
                == if Contains(text, "items") then Ok(None)
                   else match parse(Replace(Replace(text, "'", "\""), "None", "null"))
                        case Ok(parsed) => SubData(parsed)
                        case Err(e) => Err(e)
  {
  }

  /** The text handed to json.loads has no single quotes left. */
  lemma QuotesMadeDouble(text: string)
    ensures '\'' !in Replace(text, "'", "\"")
  {
    ReplaceChar(text, '\'', '"');
  }

  // ---------------------------------------------------------------------------
  // ReadGroup

  /** A read group as its constructor leaves it. */
  datatype ReadGroup = ReadGroup(constants: Constants, aggregates: Aggregates, submissionMetadata: Option<Kits>)

  /** `ReadGroup(json_objects)`: the constants of the first record, the
      aggregates over all of them, then the first record's metadata. */
  function ReadGroupOf(jsonObjects: Value, parse: string -> Result<Value>): Result<ReadGroup> {
    var first :- Item(jsonObjects, 0);
    var constants :- ConstantsOf(first);
    var records :- Iterate(jsonObjects);
    var aggregates :- AggregatesOf(records);
    var metadata :- SubmissionMetadataOf(first, parse);
    Ok(ReadGroup(constants, aggregates, metadata))
  }

  /** An empty list of records raises IndexError; otherwise the read group
      takes its constants and metadata from the first record and its aggregates
      from all of them. */
  lemma ReadGroupOfMeans(jsonObjects: Value, parse: string -> Result<Value>)
    requires jsonObjects.List?
    ensures jsonObjects.items == [] ==> ReadGroupOf(jsonObjects, parse) == Err(IndexError)
    ensures ReadGroupOf(jsonObjects, parse).Ok? <==>
              && jsonObjects.items != []
              && ConstantsOf(jsonObjects.items[0]).Ok?
              && AggregatesOf(jsonObjects.items).Ok?
              && SubmissionMetadataOf(jsonObjects.items[0], parse).Ok?
    ensures ReadGroupOf(jsonObjects, parse).Ok? ==>
              ReadGroupOf(jsonObjects, parse).value
                == ReadGroup(ConstantsOf(jsonObjects.items[0]).value, AggregatesOf(jsonObjects.items).value,
                             SubmissionMetadataOf(jsonObjects.items[0], parse).value)
  {
  }

  /** `pairing_code`. */
  function PairingCode(c: Constants): string {
    if Truthy(c.pairedRun) then "P" else "S"
  }

  /** `is_paired_end`. */
  function PairedEnd(c: Constants): string {
    if Truthy(c.pairedRun) then "paired-end" else "single-end"
  }

  /** The pairing code and the layout agree: P exactly for a paired-end run. */
  lemma PairingAgrees(c: Constants)
    ensures PairingCode(c) == "P" <==> PairedEnd(c) == "paired-end"
    ensures PairingCode(c) in ["P", "S"] && PairedEnd(c) in ["paired-end", "single-end"]
  {
  }

  /** `get_pdo_or_wr`: the product order when truthy, else the work request,
      as text; only both being None raises ValueError. */
  function PdoOrWr(c: Constants): Result<string> {
    if c.productOrderId == Null && c.workRequestId == Null then
      Err(ValueError("Neither 'product_order_id' nor 'work_request_id' instance variables are set."))
    else Ok(Show(if Truthy(c.productOrderId) then c.productOrderId else c.workRequestId))
  }

  /** The ValueError is raised iff both ids are None; a truthy product order
      wins; otherwise the work request is shown, "None" included. */
  lemma PdoOrWrMeans(c: Constants)
    ensures PdoOrWr(c).Err? <==> c.productOrderId == Null && c.workRequestId == Null
    ensures Truthy(c.productOrderId) ==> PdoOrWr(c) == Ok(Show(c.productOrderId))
    ensures !Truthy(c.productOrderId) && PdoOrWr(c).Ok? ==> PdoOrWr(c) == Ok(Show(c.workRequestId))
  {
  }

  /** A first record without `product_order_id` never raises, because the
      constants default it to ""; without a work request either, the id is
      the text "None". */
  lemma PdoOrWrOfMissingOrder(first: Value, c: Constants)
    requires first.Obj? && ConstantsOf(first) == Ok(c) && !HasKey(first.fields, "product_order_id")
    ensures PdoOrWr(c).Ok?
    ensures !HasKey(first.fields, "work_request_id") ==> PdoOrWr(c) == Ok("None")
  {
    assert c.productOrderId == Str("");
  }

  // ---------------------------------------------------------------------------
  // ReadGroup: library descriptor and read length

  /** One entry of `get_library_descriptor`'s table. */
  datatype Descriptor = Descriptor(
    strategyNcbi: string, strategyHumanized: string, sourceNcbi: string, sourceHumanized: string,
    selection: string)

  const WholeGenomeShotgun := Descriptor("WGS", "whole genome shotgun", "GENOMIC", "genomic DNA", "RANDOM")
  const CDnaShotgun := Descriptor("RNA-Seq", "RNA", "TRANSCRIPTOMIC", "transcriptome", "cDNA")
  const HybridSelection := Descriptor("WXS", "random exon", "GENOMIC", "genomic DNA", "Hybrid Selection")

  /** The table, by library type. */
  function DescriptorTable(libraryType: string): Option<Descriptor> {
    if libraryType == "WholeGenomeShotgun" then Some(WholeGenomeShotgun)
    else if libraryType == "cDNAShotgun" then Some(CDnaShotgun)
    else if libraryType == "HybridSelection" then Some(HybridSelection)
    else None
  }

  /** The cDNA rule for library types the table lacks. */
  predicate CDnaRule(libraryType: Value, analysisType: Value) {
    (libraryType in [Str("cDNAShotgunReadTwoSense"), Str("cDNAShotgunStrandAgnostic")] || analysisType == Str("cDNA"))
    && analysisType != Str("AssemblyWithoutReference")
  }

  /** `get_library_descriptor`: the table's entry for the library type, else the
      cDNA entry when the cDNA rule applies, else ValueError; a list or a dict
      cannot be looked up (TypeError). */
  function LibraryDescriptor(libraryType: Value, analysisType: Value): Result<Descriptor> {
    if libraryType.List? || libraryType.Obj? then Err(TypeError("unhashable type"))
    else if libraryType.Str? && DescriptorTable(libraryType.s).Some? then Ok(DescriptorTable(libraryType.s).value)
    else if CDnaRule(libraryType, analysisType) then Ok(CDnaShotgun)
    else Err(ValueError("No library descriptor found for the given parameters - library type: " + Show(libraryType)))
  }

  /** The library types the table names get their entry whatever the analysis
      type. */
  lemma LibraryDescriptorOfTable(libraryType: Value, analysisType: Value)
    ensures libraryType == Str("WholeGenomeShotgun") ==> LibraryDescriptor(libraryType, analysisType) == Ok(WholeGenomeShotgun)
    ensures libraryType == Str("cDNAShotgun") ==> LibraryDescriptor(libraryType, analysisType) == Ok(CDnaShotgun)
    ensures libraryType == Str("HybridSelection") ==> LibraryDescriptor(libraryType, analysisType) == Ok(HybridSelection)
  {
    assert DescriptorTable("WholeGenomeShotgun") == Some(WholeGenomeShotgun);
    assert DescriptorTable("cDNAShotgun") == Some(CDnaShotgun);
    assert DescriptorTable("HybridSelection") == Some(HybridSelection);
  }

  /** Any other library type has a descriptor iff it can be looked up and the
      cDNA rule applies, and then it is the cDNA entry; the failure for a
      hashable library type is the ValueError. */
  lemma LibraryDescriptorOutsideTable(libraryType: Value, analysisType: Value)
    requires !(libraryType.Str? && DescriptorTable(libraryType.s).Some?)
    ensures LibraryDescriptor(libraryType, analysisType).Ok? <==>
              !libraryType.List? && !libraryType.Obj? && CDnaRule(libraryType, analysisType)
    ensures LibraryDescriptor(libraryType, analysisType).Ok? ==> LibraryDescriptor(libraryType, analysisType).value == CDnaShotgun
    ensures analysisType == Str("AssemblyWithoutReference") ==> LibraryDescriptor(libraryType, analysisType).Err?
    ensures LibraryDescriptor(libraryType, analysisType).Err? && !libraryType.List? && !libraryType.Obj? ==>
              LibraryDescriptor(libraryType, analysisType).error.ValueError?
  {
  }

  /** Where `[SBM](\d+)T` matches at p, the digits it captures. */
  function MatchAt(s: string, p: nat): (r: Option<string>)
    ensures r.Some? ==> r.value != [] && AllDigits(r.value)
  {
    if p < |s| && s[p] in "SBM" then
      var digits := LeadingDigits(s[p + 1..]);
      if digits != [] && p + 1 + |digits| < |s| && s[p + 1 + |digits|] == 'T' then Some(digits) else None
    else None
  }

  /** The pattern matches at p, capturing d, iff s has a segment type letter at
      p, then exactly the digits d, then T. */
  lemma MatchAtMeans(s: string, p: nat, d: string)
    ensures MatchAt(s, p) == Some(d) <==>
              && p + 1 + |d| < |s| && s[p] in "SBM" && d != [] && AllDigits(d)
              && s[p + 1..p + 1 + |d|] == d && s[p + 1 + |d|] == 'T'
  {
    if p + 1 + |d| < |s| && s[p] in "SBM" && d != [] && AllDigits(d) && s[p + 1..p + 1 + |d|] == d && s[p + 1 + |d|] == 'T' {
      var t := s[p + 1..];
      var digits := LeadingDigits(t);
      assert t[..|d|] == d && t[|d|] == 'T';
      assert digits == t[..|digits|];
    }
  }

  /** `re.search`: the leftmost position from p where the pattern matches. */
  function FirstMatch(s: string, p: nat): (r: Option<string>)
    ensures r.Some? ==> r.value != [] && AllDigits(r.value)
    decreases |s| - p
  {
    if p >= |s| then None
    else if MatchAt(s, p).Some? then MatchAt(s, p)
    else FirstMatch(s, p + 1)
  }

  /** The leftmost position from p below n where m finds something. */
  function FirstFound(m: nat -> Option<string>, p: nat, n: nat): Option<string>
    decreases n - p
  {
    if p >= n then None else if m(p).Some? then m(p) else FirstFound(m, p + 1, n)
  }

  /** The leftmost find is what m finds at the first position where it finds
      anything, and nothing iff m finds nothing. */
  lemma {:induction false} FirstFoundMeans(m: nat -> Option<string>, p: nat, n: nat)
    ensures FirstFound(m, p, n).None? <==> forall q :: p <= q < n ==> m(q).None?
    ensures FirstFound(m, p, n).Some? ==>
              exists q :: p <= q < n && m(q) == FirstFound(m, p, n) && forall q' :: p <= q' < q ==> m(q').None?
    decreases n - p
  {
    if p < n && m(p).None? {
      FirstFoundMeans(m, p + 1, n);
      if FirstFound(m, p, n).Some? {
        var q :| p + 1 <= q < n && m(q) == FirstFound(m, p + 1, n) && forall q' :: p + 1 <= q' < q ==> m(q').None?;
        assert forall q' :: p <= q' < q ==> m(q').None?;
      }
    }
  }

  /** The search is the leftmost find of the pattern's matches. */
  lemma {:induction false} FirstMatchFound(s: string, p: nat)
    ensures FirstMatch(s, p) == FirstFound((q: nat) => MatchAt(s, q), p, |s|)
    decreases |s| - p
  {
    if p < |s| && MatchAt(s, p).None? {
      FirstMatchFound(s, p + 1);
    }
  }

  /** The search finds the match of the leftmost position, and nothing iff no
      position matches. */
  lemma FirstMatchMeans(s: string, p: nat)
    ensures FirstMatch(s, p).None? <==> forall q :: p <= q < |s| ==> MatchAt(s, q).None?
    ensures FirstMatch(s, p).Some? ==>
              exists q :: p <= q < |s| && MatchAt(s, q) == FirstMatch(s, p)
                          && forall q' :: p <= q' < q ==> MatchAt(s, q').None?
  {
    var m := (q: nat) => MatchAt(s, q);
    FirstMatchFound(s, p);
    FirstFoundMeans(m, p, |s|);
    if FirstMatch(s, p).Some? {
      var q :| p <= q < |s| && m(q) == FirstFound(m, p, |s|) && forall q' :: p <= q' < q ==> m(q').None?;
      forall q' | p <= q' < q ensures MatchAt(s, q').None? {
        assert m(q').None?;
      }
      assert MatchAt(s, q) == FirstMatch(s, p);
    } else {
      forall q | p <= q < |s| ensures MatchAt(s, q).None? {
        assert m(q).None?;
      }
    }
  }

  /** `get_read_length`: the number after the first segment letter that is
      followed by digits and T, or 0 when there is none; a read structure that
      is not text raises TypeError. */
  function ReadLength(readStructure: Value): Result<nat> {
    if !readStructure.Str? then Err(TypeError("expected string or bytes-like object"))
    else match FirstMatch(readStructure.s, 0)
         case Some(digits) => Ok(DigitsValue(digits))
         case None => Ok(0)
  }

  /** A read structure without any S, B or M segment reads 0. */
  lemma ReadLengthNoSegmentLetter(s: string)
    requires forall i :: 0 <= i < |s| ==> s[i] !in "SBM"
    ensures ReadLength(Str(s)) == Ok(0)
  {
    FirstMatchMeans(s, 0);
  }

  /** A structure that opens with a segment letter, digits d and T reads d. */
  lemma ReadLengthOfLeadingSegment(c: char, d: string, rest: string)
    requires c in "SBM" && d != [] && AllDigits(d)
    ensures ReadLength(Str([c] + d + "T" + rest)) == Ok(DigitsValue(d))
  {
    var s := [c] + d + "T" + rest;
    assert s[1..1 + |d|] == d && s[1 + |d|] == 'T' && s[0] == c;
    MatchAtMeans(s, 0, d);
  }

  /** "151T151T" has no segment letter and reads 0. */
  lemma ReadLengthOfTemplateOnlyStructure()
    ensures ReadLength(Str("151T151T")) == Ok(0)
  {
    ReadLengthNoSegmentLetter("151T151T");
  }

  /** Where the pattern matches in a structure opening "76T8B8B76T": nowhere
      before the second barcode segment ("B8B" is followed by B, not T), and
      there, capturing 76. */
  lemma BarcodedStructureMatches(s: string)
    requires |s| > 9 && s[0] == '7' && s[1] == '6' && s[2] == 'T' && s[3] == '8' && s[4] == 'B'
    requires s[5] == '8' && s[6] == 'B' && s[7] == '7' && s[8] == '6' && s[9] == 'T'
    ensures forall q :: 0 <= q < 6 ==> MatchAt(s, q).None?
    ensures MatchAt(s, 6) == Some("76")
  {
    MatchAtSingleDigitNotTemplate(s, 4);
    assert s[7..9] == "76";
    MatchAtMeans(s, 6, "76");
  }

  /** "76T8B8B76T": the first match is the barcode segment "B76T", so the
      template length after it is read. */
  lemma ReadLengthOfBarcodedStructure()
    ensures ReadLength(Str("76T8B8B76T")) == Ok(76)
  {
    var s := "76T8B8B76T";
    BarcodedStructureMatches(s);
    FirstMatchMeans(s, 0);
    assert DigitsValue("76") == 76 by {
      assert "76"[..1] == "7";
    }
  }

  /** A segment letter followed by a single digit and then neither a digit nor
      T is no match. */
  lemma MatchAtSingleDigitNotTemplate(s: string, p: nat)
    requires p + 2 < |s| && IsDigit(s[p + 1]) && !IsDigit(s[p + 2]) && s[p + 2] != 'T'
    ensures MatchAt(s, p).None?
  {
    var t := s[p + 1..];
    var digits := LeadingDigits(t);
    assert t[0] == s[p + 1] && t[1] == s[p + 2];
    assert |digits| == 1;
  }

  /** Where the pattern matches in a structure opening "3M2S71T": not at its
      first three positions ("M2S" is followed by S, not T), and at the
      fourth, capturing 71. */
  lemma UmiStructureMatches(s: string)
    requires |s| > 6 && s[0] == '3' && s[1] == 'M' && s[2] == '2' && s[3] == 'S'
    requires s[4] == '7' && s[5] == '1' && s[6] == 'T'
    ensures MatchAt(s, 0).None? && MatchAt(s, 1).None? && MatchAt(s, 2).None?
    ensures MatchAt(s, 3) == Some("71")
  {
    MatchAtSingleDigitNotTemplate(s, 1);
    assert s[4..6] == "71";
    MatchAtMeans(s, 3, "71");
  }

  /** "3M2S71T8B8B3M2S71T": "M2S" is no match, the first match is "S71T", so 71
      is read. */
  lemma ReadLengthOfUmiStructure()
    ensures ReadLength(Str("3M2S71T8B8B3M2S71T")) == Ok(71)
  {
    var s := "3M2S71T8B8B3M2S71T";
    UmiStructureMatches(s);
    FirstMatchMeans(s, 0);
    assert DigitsValue("71") == 71 by {
      assert "71"[..1] == "7";
    }
  }

  /** `get_spot_length`: twice the read length for a paired run, as text. */
  function SpotLength(c: Constants): Result<string> {
    var n :- ReadLength(c.readStructure);
    Ok(NatToString(if Truthy(c.pairedRun) then n * 2 else n))
  }

  // ---------------------------------------------------------------------------
  // Experiment

  const BroadAbbreviation := "BI"
  const Xsi := "http://www.w3.org/2001/XMLSchema-instance"
  const ExperimentXsd := "http://www.ncbi.nlm.nih.gov/viewvc/v1/trunk/sra/doc/SRA_1-5/SRA.experiment.xsd?view=co"
  const RunXsd := "http://www.ncbi.nlm.nih.gov/viewvc/v1/trunk/sra/doc/SRA_1-5/SRA.run.xsd?view=co"

  /** The dot-separated parts of the Experiment submitter id, in order: phs,
      order id, library, pairing code, alias, project, the data type constant
      with its spaces made underscores, and version. */
  function ExperimentIdParts(s: Sample, rg: ReadGroup): Result<seq<string>> {
    var pairing := PairingCode(rg.constants);
    var order :- PdoOrWr(rg.constants);
    var dataType :- FormattedDataType(s.dataType);
    Ok([s.phs, order, Show(rg.constants.libraryName), pairing, Show(s.alias), Show(s.project),
        Replace(dataType.0, " ", "_"), Show(s.version)])
  }

  /** `Experiment.get_submitter_id`. */
  function ExperimentSubmitterId(s: Sample, rg: ReadGroup): Result<string> {
    var parts :- ExperimentIdParts(s, rg);
    Ok(Join(".", parts))
  }

  /** The id fails exactly when the order id or the data type does, the order
      id first; the data type part has no spaces; and when no part holds a dot,
      splitting the id at dots gives the parts back. */
  lemma ExperimentSubmitterIdMeans(s: Sample, rg: ReadGroup)
    ensures PdoOrWr(rg.constants).Err? ==> ExperimentSubmitterId(s, rg) == Err(PdoOrWr(rg.constants).error)
    ensures PdoOrWr(rg.constants).Ok? && FormattedDataType(s.dataType).Err? ==>
              ExperimentSubmitterId(s, rg) == Err(FormattedDataType(s.dataType).error)
    ensures ExperimentSubmitterId(s, rg).Ok? <==> PdoOrWr(rg.constants).Ok? && FormattedDataType(s.dataType).Ok?
    ensures ExperimentIdParts(s, rg).Ok? ==> |ExperimentIdParts(s, rg).value| == 8
    ensures ExperimentIdParts(s, rg).Ok? ==> ' ' !in ExperimentIdParts(s, rg).value[6]
    ensures ExperimentIdParts(s, rg).Ok? && (forall i :: 0 <= i < 8 ==> '.' !in ExperimentIdParts(s, rg).value[i]) ==>
              Split(ExperimentSubmitterId(s, rg).value, '.') == ExperimentIdParts(s, rg).value
  {
    if ExperimentIdParts(s, rg).Ok? {
      var parts := ExperimentIdParts(s, rg).value;
      ReplaceChar(FormattedDataType(s.dataType).value.0, ' ', '_');
      if forall i :: 0 <= i < 8 ==> '.' !in parts[i] {
        SplitJoin(parts, '.');
      }
    }
  }

  /** `Experiment.get_file_name`. */
  function ExperimentFileName(s: Sample, rg: ReadGroup): Result<string> {
    var id :- ExperimentSubmitterId(s, rg);
    Ok(id + ".add.experiment.xml")
  }

  /** The middle of the title: strategy, source, layout, library and sample. */
  function TitleMiddle(d: Descriptor, layout: string, library: string, alias: string): string {
    d.strategyHumanized + " sequencing of '" + d.sourceHumanized + "' " + layout + " library '" + library
    + "' containing sample '" + alias
  }

  /** `get_title`: repository, strategy, source, layout, library, sample and
      subject, read in that order. */
  function Title(s: Sample, rg: ReadGroup): (r: Result<string>)
    ensures r.Ok? ==> BiospecimenRepo(s).Ok? && StartsWith(r.value, Show(BiospecimenRepo(s).value) + " Illumina ")
    ensures r.Ok? ==> SubjectString(s).Ok? && EndsWith(r.value, "' " + SubjectString(s).value)
  {
    var repo :- BiospecimenRepo(s);
    var d :- LibraryDescriptor(rg.constants.libraryType, rg.constants.analysisType);
    var subject :- SubjectString(s);
    var head := Show(repo) + " Illumina ";
    var middle := TitleMiddle(d, PairedEnd(rg.constants), Show(rg.constants.libraryName), Show(s.alias));
    var tail := "' " + subject;
    Affixes(head, middle, tail);
    Ok(head + middle + tail)
  }

  /** The title is built iff the repository, the library descriptor and the
      subject phrase are. */
  lemma TitleMeans(s: Sample, rg: ReadGroup)
    ensures Title(s, rg).Ok? <==>
              BiospecimenRepo(s).Ok? && LibraryDescriptor(rg.constants.libraryType, rg.constants.analysisType).Ok?
              && SubjectString(s).Ok?
  {
  }

  /** `get_read_spec`: a read labelled forward is the Forward read, any other
      the Reverse one. */
  function ReadSpec(readLabel: string, index: string, baseCoord: string): Value {
    Obj([("READ_INDEX", Str(index)), ("READ_LABEL", Str(readLabel)), ("READ_CLASS", Str("Application Read")),
         ("READ_TYPE", Str(if readLabel == "forward" then "Forward" else "Reverse")), ("BASE_COORD", Str(baseCoord))])
  }

  /** The attributes every experiment carries, in order. */
  function BaseExperimentAttributes(s: Sample, c: Constants, order: string): Dict {
    [("aggregation_project", s.project), ("analysis_type", c.analysisType), ("library", c.libraryName),
     ("library_type", c.libraryType), ("lsid", c.sampleLsid), ("material_type", c.sampleMaterialType),
     ("project", s.project), ("research_project", c.researchProjectId), ("target_set", c.baitSet),
     ("work_request_or_pdo", Str(order))]
  }

  /** `generate_experiment_attributes`: the ten fixed attributes, then
      `gssr_id` for a sample barcode that is truthy and prints as something. */
  function ExperimentAttributes(s: Sample, rg: ReadGroup): Result<Dict> {
    var order :- PdoOrWr(rg.constants);
    var barcode := rg.constants.sampleBarcode;
    var base := BaseExperimentAttributes(s, rg.constants, order);
    if Truthy(barcode) && Show(barcode) != "" then Ok(base + [("gssr_id", Str(Show(barcode)))]) else Ok(base)
  }

  /** The attributes are built iff the order id is; `gssr_id` is added iff the
      barcode is truthy (the second test never excludes anything), always last,
      and the order id is the tenth attribute. */
  lemma ExperimentAttributesMeans(s: Sample, rg: ReadGroup)
    ensures ExperimentAttributes(s, rg).Ok? <==> PdoOrWr(rg.constants).Ok?
    ensures ExperimentAttributes(s, rg).Ok? ==>
              var d := ExperimentAttributes(s, rg).value;
              && (|d| == 11 <==> Truthy(rg.constants.sampleBarcode))
              && (|d| == 10 || |d| == 11)
              && d[9] == ("work_request_or_pdo", Str(PdoOrWr(rg.constants).value))
              && (|d| == 11 ==> d[10] == ("gssr_id", Str(Show(rg.constants.sampleBarcode))))
  {
    ShowEmpty(rg.constants.sampleBarcode);
  }

  /** `sub_metadata[dict_value]` for the two names the experiment asks for; any
      other name is not a key (KeyError). */
  function KitDict(kits: Kits, name: string): Result<Dict> {
    if name == "library_construction" then Ok(kits.libraryConstruction)
    else if name == "target_capture" then Ok(kits.targetCapture)
    else Err(KeyError(name))
  }

  /** `key=value` for each entry, in order. */
  function KitPairs(d: Dict): (r: seq<string>)
    ensures |r| == |d|
  {
    seq(|d|, i requires 0 <= i < |d| => d[i].0 + "=" + Show(d[i].1))
  }

  /** `kit_construction`: nothing without metadata, else the capitalized name,
      " Kit: ", the space-separated pairs and a full stop. */
  function KitConstruction(metadata: Option<Kits>, name: string): Result<string> {
    if metadata.None? then Ok("")
    else
      var d :- KitDict(metadata.value, name);
      Ok(" " + Capitalize(name) + " Kit: " + Join(" ", KitPairs(d)) + ".")
  }

  /** Without metadata the kit text is empty; with it, the text for either kit
      name exists, ends with a full stop and mentions each of its entries. */
  lemma KitConstructionMeans(metadata: Option<Kits>, name: string)
    requires name in ["library_construction", "target_capture"]
    ensures metadata.None? ==> KitConstruction(metadata, name) == Ok("")
    ensures KitConstruction(metadata, name).Ok?
    ensures metadata.Some? ==>
              var d := KitDict(metadata.value, name).value;
              && EndsWith(KitConstruction(metadata, name).value, ".")
              && forall i :: 0 <= i < |d| ==>
                   Contains(KitConstruction(metadata, name).value, d[i].0 + "=" + Show(d[i].1))
  {
    if metadata.Some? {
      var d := KitDict(metadata.value, name).value;
      var head := " " + Capitalize(name) + " Kit: ";
      var joined := Join(" ", KitPairs(d));
      var t := KitConstruction(metadata, name).value;
      assert t == head + (joined + ".");
      forall i | 0 <= i < |d| ensures Contains(t, d[i].0 + "=" + Show(d[i].1)) {
        JoinContains(" ", KitPairs(d), i);
        ContainsBefore(joined, ".", KitPairs(d)[i]);
        ContainsAfter(head, joined + ".", KitPairs(d)[i]);
      }
    }
  }

  /** `get_design_description`: the selection, then the two kit texts. */
  function DesignDescription(s: Sample, rg: ReadGroup): Result<string> {
    var d :- LibraryDescriptor(rg.constants.libraryType, rg.constants.analysisType);
    var library :- KitConstruction(rg.submissionMetadata, "library_construction");
    var target :- KitConstruction(rg.submissionMetadata, "target_capture");
    Ok("Illumina sequencing of Homo sapiens via " + d.selection + library + target)
  }

  /** A read group without metadata is described by its selection alone. */
  lemma DesignDescriptionWithoutMetadata(s: Sample, rg: ReadGroup)
    requires rg.submissionMetadata.None?
    ensures DesignDescription(s, rg).Ok? <==> LibraryDescriptor(rg.constants.libraryType, rg.constants.analysisType).Ok?
    ensures DesignDescription(s, rg).Ok? ==>
              DesignDescription(s, rg).value
                == "Illumina sequencing of Homo sapiens via "
                   + LibraryDescriptor(rg.constants.libraryType, rg.constants.analysisType).value.selection
  {
  }

  /** The platform's instrument model: the HiSeq X 10 is reported as the
      HiSeq X, every other model as it is. */
  function InstrumentModel(model: Value): (r: Value)
    ensures r != Str("Illumina HiSeq X 10")
    ensures model != Str("Illumina HiSeq X 10") ==> r == model
  {
    if model == Str("Illumina HiSeq X 10") then Str("Illumina HiSeq X") else model
  }

  /** `[{"TAG": key, "VALUE": value} for key, value in d.items()]`. */
  function AttributeList(d: Dict): (r: seq<Value>)
    ensures |r| == |d|
    ensures forall i :: 0 <= i < |d| ==> r[i] == Obj([("TAG", Str(d[i].0)), ("VALUE", d[i].1)])
  {
    seq(|d|, i requires 0 <= i < |d| => Obj([("TAG", Str(d[i].0)), ("VALUE", d[i].1)]))
  }

  /** What `create_experiment_dict` computes, in the order it computes it. */
  datatype ExperimentTexts = ExperimentTexts(
    submitterId: string, title: string, designDescription: string, descriptor: Descriptor, spotLength: string,
    readLength: nat, attributes: Dict)

  function ExperimentTextsOf(s: Sample, rg: ReadGroup): (r: Result<ExperimentTexts>)
    ensures r.Ok? ==> ExperimentSubmitterId(s, rg) == Ok(r.value.submitterId)
  {
    var id :- ExperimentSubmitterId(s, rg);
    var title :- Title(s, rg);
    var design :- DesignDescription(s, rg);
    // the title has already read the descriptor, and the spot length the read length
    var d := LibraryDescriptor(rg.constants.libraryType, rg.constants.analysisType).value;
    var spot :- SpotLength(rg.constants);
    var readLength := ReadLength(rg.constants.readStructure).value;
    var attributes :- ExperimentAttributes(s, rg);
    Ok(ExperimentTexts(id, title, design, d, spot, readLength, attributes))
  }

  /** The DESIGN element. */
  function ExperimentDesign(s: Sample, rg: ReadGroup, t: ExperimentTexts): Value {
    Obj([("DESIGN_DESCRIPTION", Str(t.designDescription)),
         ("SAMPLE_DESCRIPTOR", Obj([("@refname", s.alias), ("@refcenter", Str(s.phs)), ("#text", Null)])),
         ("LIBRARY_DESCRIPTOR", Obj([("LIBRARY_NAME", rg.constants.libraryName),
                                    ("LIBRARY_STRATEGY", Str(t.descriptor.strategyNcbi)),
                                    ("LIBRARY_SOURCE", Str(t.descriptor.sourceNcbi)),
                                    ("LIBRARY_SELECTION", Str(t.descriptor.selection)),
                                    ("LIBRARY_LAYOUT", Obj([("PAIRED", Null)]))])),
         ("SPOT_DESCRIPTOR", Obj([("SPOT_DECODE_SPEC", Obj([
            ("SPOT_LENGTH", Str(t.spotLength)),
            ("READ_SPEC", List([ReadSpec("forward", "0", "1"), ReadSpec("reverse", "1", NatToString(t.readLength + 1))]))]))]))])
  }

  /** The EXPERIMENT element. */
  function ExperimentElement(s: Sample, rg: ReadGroup, t: ExperimentTexts): Value {
    Obj([("IDENTIFIERS", Obj([("SUBMITTER_ID", Obj([("@namespace", Str(BroadAbbreviation)), ("#text", Str(t.submitterId))]))])),
         ("TITLE", Str(t.title)),
         ("STUDY_REF", Obj([("@accession", Str(s.phs)), ("#text", Null)])),
         ("DESIGN", ExperimentDesign(s, rg, t)),
         ("PLATFORM", Obj([("ILLUMINA", Obj([("INSTRUMENT_MODEL", InstrumentModel(rg.constants.model))]))])),
         ("EXPERIMENT_ATTRIBUTES", Obj([("EXPERIMENT_ATTRIBUTE", List(AttributeList(t.attributes)))]))])
  }

  /** The EXPERIMENT_SET document. */
  function ExperimentSet(s: Sample, rg: ReadGroup, t: ExperimentTexts): Value {
    Obj([("EXPERIMENT_SET", Obj([("@xsi:noNamespaceSchemaLocation", Str(ExperimentXsd)), ("@xmlns:xsi", Str(Xsi)),
                                 ("EXPERIMENT", ExperimentElement(s, rg, t))]))])
  }

  /** `create_experiment_dict`. */
  function ExperimentDict(s: Sample, rg: ReadGroup): (r: Result<Value>)
    ensures r.Ok? <==> ExperimentTextsOf(s, rg).Ok?
    ensures r.Ok? ==>
              var e := At(At(r.value, "EXPERIMENT_SET"), "EXPERIMENT");
              At(At(At(e, "IDENTIFIERS"), "SUBMITTER_ID"), "#text") == Str(ExperimentSubmitterId(s, rg).value)
  {
    var t :- ExperimentTextsOf(s, rg);
    ExperimentIdInSet(s, rg, t);
    Ok(ExperimentSet(s, rg, t))
  }

  /** The experiment's submitter id, title and study in its EXPERIMENT element. */
  lemma ExperimentElementIds(s: Sample, rg: ReadGroup, t: ExperimentTexts)
    ensures var e := ExperimentElement(s, rg, t);
            At(At(At(e, "IDENTIFIERS"), "SUBMITTER_ID"), "#text") == Str(t.submitterId)
    ensures At(ExperimentElement(s, rg, t), "TITLE") == Str(t.title)
    ensures At(At(ExperimentElement(s, rg, t), "STUDY_REF"), "@accession") == Str(s.phs)
  {
    var f := ExperimentElement(s, rg, t).fields;
    GetFirst(f, 1);
    GetFirst(f, 2);
    GetFirst(f[0].1.fields[0].1.fields, 1);
  }

  /** The design, the instrument model and the attribute list in the
      EXPERIMENT element. */
  lemma ExperimentElementParts(s: Sample, rg: ReadGroup, t: ExperimentTexts)
    ensures var e := ExperimentElement(s, rg, t);
            At(At(At(e, "PLATFORM"), "ILLUMINA"), "INSTRUMENT_MODEL") == InstrumentModel(rg.constants.model)
    ensures var e := ExperimentElement(s, rg, t);
            At(At(e, "EXPERIMENT_ATTRIBUTES"), "EXPERIMENT_ATTRIBUTE") == List(AttributeList(t.attributes))
    ensures At(ExperimentElement(s, rg, t), "DESIGN") == ExperimentDesign(s, rg, t)
  {
    var f := ExperimentElement(s, rg, t).fields;
    GetFirst(f, 3);
    GetFirst(f, 4);
    GetFirst(f, 5);
  }

  /** The library descriptor, the spot and the read specs in the DESIGN
      element; the layout is always PAIRED, whatever the run's pairing. */
  lemma ExperimentDesignParts(s: Sample, rg: ReadGroup, t: ExperimentTexts)
    ensures At(ExperimentDesign(s, rg, t), "DESIGN_DESCRIPTION") == Str(t.designDescription)
    ensures var library := At(ExperimentDesign(s, rg, t), "LIBRARY_DESCRIPTOR");
            && At(library, "LIBRARY_STRATEGY") == Str(t.descriptor.strategyNcbi)
            && At(library, "LIBRARY_SOURCE") == Str(t.descriptor.sourceNcbi)
            && At(library, "LIBRARY_SELECTION") == Str(t.descriptor.selection)
            && At(library, "LIBRARY_LAYOUT") == Obj([("PAIRED", Null)])
    ensures var spot := At(At(ExperimentDesign(s, rg, t), "SPOT_DESCRIPTOR"), "SPOT_DECODE_SPEC");
            && At(spot, "SPOT_LENGTH") == Str(t.spotLength)
            && At(spot, "READ_SPEC")
                 == List([ReadSpec("forward", "0", "1"), ReadSpec("reverse", "1", NatToString(t.readLength + 1))])
  {
    var f := ExperimentDesign(s, rg, t).fields;
    GetFirst(f, 2);
    GetFirst(f, 3);
    var library := f[2].1.fields;
    GetFirst(library, 1);
    GetFirst(library, 2);
    GetFirst(library, 3);
    GetFirst(library, 4);
    GetFirst(f[3].1.fields[0].1.fields, 1);
  }

  /** The forward read is read 0 from base 1; the other read is reverse. */
  lemma ReadSpecMeans(readLabel: string, index: string, baseCoord: string)
    ensures At(ReadSpec(readLabel, index, baseCoord), "READ_TYPE") == Str(if readLabel == "forward" then "Forward" else "Reverse")
    ensures At(ReadSpec(readLabel, index, baseCoord), "READ_INDEX") == Str(index)
    ensures At(ReadSpec(readLabel, index, baseCoord), "BASE_COORD") == Str(baseCoord)
  {
    var f := ReadSpec(readLabel, index, baseCoord).fields;
    GetFirst(f, 3);
    GetFirst(f, 4);
  }

  /** The spot length is the read length for a single run and twice it for a
      paired one; it fails exactly when the read length does. */
  lemma SpotLengthMeans(c: Constants)
    ensures SpotLength(c).Ok? <==> ReadLength(c.readStructure).Ok?
    ensures SpotLength(c).Ok? ==>
              SpotLength(c).value == NatToString(if Truthy(c.pairedRun) then 2 * ReadLength(c.readStructure).value
                                                 else ReadLength(c.readStructure).value)
  {
  }

  /** The experiment's texts are computed iff its id, title, design
      description and read length are. */
  lemma ExperimentTextsSucceed(s: Sample, rg: ReadGroup)
    ensures ExperimentTextsOf(s, rg).Ok? <==>
              && ExperimentSubmitterId(s, rg).Ok? && Title(s, rg).Ok? && DesignDescription(s, rg).Ok?
              && ReadLength(rg.constants.readStructure).Ok?
  {
    if ExperimentSubmitterId(s, rg).Ok? {
      assert ExperimentAttributes(s, rg).Ok?;
      if Title(s, rg).Ok? {
        assert LibraryDescriptor(rg.constants.libraryType, rg.constants.analysisType).Ok?;
        assert SpotLength(rg.constants).Ok? <==> ReadLength(rg.constants.readStructure).Ok?;
      }
    }
  }

  /** The EXPERIMENT element sits under EXPERIMENT_SET, beside the schema
      location. */
  lemma ExperimentSetHolds(s: Sample, rg: ReadGroup, t: ExperimentTexts)
    ensures At(At(ExperimentSet(s, rg, t), "EXPERIMENT_SET"), "EXPERIMENT") == ExperimentElement(s, rg, t)
    ensures At(At(ExperimentSet(s, rg, t), "EXPERIMENT_SET"), "@xsi:noNamespaceSchemaLocation") == Str(ExperimentXsd)
  {
    GetFirst(ExperimentSet(s, rg, t).fields[0].1.fields, 2);
  }

  // ---------------------------------------------------------------------------
  // Run

  /** An iteration order of a set: each element once. */
  ghost predicate Enumerates(xs: set<Value>, items: seq<Value>) {
    (forall x :: x in xs <==> x in items) && forall i, j :: 0 <= i < j < |items| ==> items[i] != items[j]
  }

  /** `Run.get_submitter_id`: the flowcell barcodes dot-joined in the set's
      iteration order `order`, then alias, project, version and file type. */
  function RunSubmitterId(s: Sample, rg: ReadGroup, order: set<Value> -> seq<Value>): Result<string> {
    var flowcells :- JoinTexts(".", order(rg.aggregates.flowcellBarcodes));
    Ok(flowcells + "." + Show(s.alias) + "." + Show(s.project) + "." + Show(s.version) + "." + s.fileType)
  }

  /** The run id fails iff some flowcell barcode is not text, and it ends with
      the file type after the last dot. */
  lemma RunSubmitterIdMeans(s: Sample, rg: ReadGroup, order: set<Value> -> seq<Value>)
    requires '.' !in s.fileType
    ensures RunSubmitterId(s, rg, order).Ok? <==>
              forall i :: 0 <= i < |order(rg.aggregates.flowcellBarcodes)| ==> order(rg.aggregates.flowcellBarcodes)[i].Str?
    ensures RunSubmitterId(s, rg, order).Ok? ==> AfterLast(RunSubmitterId(s, rg, order).value, '.') == s.fileType
  {
    if RunSubmitterId(s, rg, order).Ok? {
      var flowcells := JoinTexts(".", order(rg.aggregates.flowcellBarcodes)).value;
      var front := flowcells + "." + Show(s.alias) + "." + Show(s.project) + "." + Show(s.version);
      assert RunSubmitterId(s, rg, order).value == front + ['.'] + s.fileType;
      AfterLastSuffix(front, s.fileType, '.');
    }
  }

  /** Proof helper: the first two items of a list whose items all equal x. */
  lemma FirstTwo(items: seq<Value>, x: Value)
    ensures 1 < |items| && (forall i :: 0 <= i < |items| ==> items[i] == x) ==> items[0] == items[1]
  {
  }

  /** Proof helper: the only iteration order of a one-element set.  It is kept
      apart from its users, whose own facts would make the two-item case a
      contradiction the verifier reports. */
  lemma EnumeratesSingleton(x: Value, items: seq<Value>)
    requires Enumerates({x}, items)
    ensures items == [x]
  {
    assert x in items;
    forall i | 0 <= i < |items| ensures items[i] == x {
      assert items[i] in items;
    }
    FirstTwo(items, x);
    assert |items| <= 1;
  }

  /** A read group on a single flowcell opens its run id with that barcode,
      whatever the iteration order. */
  lemma RunSubmitterIdOfOneFlowcell(s: Sample, rg: ReadGroup, order: set<Value> -> seq<Value>, f: string)
    requires rg.aggregates.flowcellBarcodes == {Str(f)} && Enumerates({Str(f)}, order({Str(f)}))
    ensures RunSubmitterId(s, rg, order)
              == Ok(f + "." + Show(s.alias) + "." + Show(s.project) + "." + Show(s.version) + "." + s.fileType)
  {
    var items := order({Str(f)});
    EnumeratesSingleton(Str(f), items);
    assert seq(|items|, i requires 0 <= i < |items| => items[i].s) == [f];
  }

  /** `Run.get_file_name`. */
  function RunFileName(s: Sample, rg: ReadGroup, order: set<Value> -> seq<Value>): Result<string> {
    var id :- RunSubmitterId(s, rg, order);
    Ok(id + ".xml")
  }

  /** What `generate_run_attributes` computes besides the sample's own
      fields, in the order it computes it. */
  datatype RunTexts = RunTexts(
    assembly: Value, flowcells: string, instruments: string, molecularIdxSchemes: string, readGroupIds: string,
    platformUnits: string, platformUnitLibs: string, runBarcodes: string, runNames: string, order: string)

  /** The assembly is characters 16 to 39 of the reference sequence, and the
      joins and the order id are the ones the read group's sets and constants
      give. */
  function RunTextsOf(rg: ReadGroup, order: set<Value> -> seq<Value>): (r: Result<RunTexts>)
    ensures r.Ok? && rg.constants.referenceSequence.Str? ==>
              r.value.assembly == Str(Slice(rg.constants.referenceSequence.s, 16, 39))
    ensures r.Ok? ==> JoinTexts(", ", order(rg.aggregates.flowcellBarcodes)) == Ok(r.value.flowcells)
    ensures r.Ok? ==> JoinTexts(", ", order(rg.aggregates.readGroupIds)) == Ok(r.value.readGroupIds)
    ensures r.Ok? ==> PdoOrWr(rg.constants) == Ok(r.value.order)
  {
    var a := rg.aggregates;
    var assembly :- SliceBetween(rg.constants.referenceSequence, 16, 39);
    var flowcells :- JoinTexts(", ", order(a.flowcellBarcodes));
    var instruments :- JoinTexts(", ", order(a.instrumentNames));
    var molecular :- JoinTexts(", ", order(a.molecularIdxSchemes));
    var readGroupIds :- JoinTexts(", ", order(a.readGroupIds));
    var units :- JoinTexts(", ", order(a.platformUnits));
    var unitLibs :- JoinTexts(", ", order(a.platformUnitLibs));
    var runBarcodes :- JoinTexts(", ", order(a.runBarcodes));
    var runNames :- JoinTexts(", ", order(a.runNames));
    var pdo :- PdoOrWr(rg.constants);
    Ok(RunTexts(assembly, flowcells, instruments, molecular, readGroupIds, units, unitLibs, runBarcodes, runNames, pdo))
  }

  /** The keys of the run attributes, in order. */
  const RunAttributeKeys := ["aggregation_project", "analysis_type", "assembly", "bait_set", "data_type",
                             "flowcell_barcode", "instrument_name", "library", "library_type", "lsid",
                             "molecular_idx_scheme", "read_group_id", "research_project", "rg_platform_unit",
                             "rg_platform_unit_lib", "run_barcode", "run_name", "work_request_or_pdo"]

  /** The run attributes' values, in the order of their keys. */
  function RunAttributeValues(s: Sample, c: Constants, t: RunTexts): (r: seq<Value>)
    ensures |r| == |RunAttributeKeys|
  {
    [s.project, c.analysisType, t.assembly, c.baitSet, s.dataType, Str(t.flowcells), Str(t.instruments), c.libraryName,
     c.libraryType, c.sampleLsid, Str(t.molecularIdxSchemes), Str(t.readGroupIds), c.researchProjectId,
     Str(t.platformUnits), Str(t.platformUnitLibs), Str(t.runBarcodes), Str(t.runNames), Str(t.order)]
  }

  /** `generate_run_attributes`. */
  function RunAttributes(s: Sample, rg: ReadGroup, order: set<Value> -> seq<Value>): Result<Dict> {
    var t :- RunTextsOf(rg, order);
    Ok(Display(RunAttributeKeys, RunAttributeValues(s, rg.constants, t)))
  }

  /** The run's texts are computed iff the reference sequence can be sliced,
      every aggregated set joins as text and the order id is known. */
  lemma RunTextsSucceed(rg: ReadGroup, order: set<Value> -> seq<Value>)
    ensures var a := rg.aggregates;
            RunTextsOf(rg, order).Ok? <==>
              && (rg.constants.referenceSequence.Str? || rg.constants.referenceSequence.List?)
              && JoinTexts(", ", order(a.flowcellBarcodes)).Ok? && JoinTexts(", ", order(a.instrumentNames)).Ok?
              && JoinTexts(", ", order(a.molecularIdxSchemes)).Ok? && JoinTexts(", ", order(a.readGroupIds)).Ok?
              && JoinTexts(", ", order(a.platformUnits)).Ok? && JoinTexts(", ", order(a.platformUnitLibs)).Ok?
              && JoinTexts(", ", order(a.runBarcodes)).Ok? && JoinTexts(", ", order(a.runNames)).Ok?
              && PdoOrWr(rg.constants).Ok?
  {
  }

  /** The run attributes listed in the order they are written, each key with
      the value it is given. */
  lemma RunAttributesLayout(s: Sample, c: Constants, t: RunTexts)
    ensures var d := Display(RunAttributeKeys, RunAttributeValues(s, c, t));
            && |d| == 18 && d[0] == ("aggregation_project", s.project)
            && d[1] == ("analysis_type", c.analysisType) && d[2] == ("assembly", t.assembly)
            && d[4] == ("data_type", s.dataType) && d[5] == ("flowcell_barcode", Str(t.flowcells))
            && d[11] == ("read_group_id", Str(t.readGroupIds))
            && d[17] == ("work_request_or_pdo", Str(t.order))
  {
    var k := RunAttributeKeys;
    assert k[0] == "aggregation_project" && k[1] == "analysis_type" && k[2] == "assembly";
    assert k[4] == "data_type" && k[5] == "flowcell_barcode";
    assert k[11] == "read_group_id" && k[17] == "work_request_or_pdo";
  }

  /** The run attributes are built exactly when the run's texts are, and then
      they are those texts laid out under their keys. */
  lemma RunAttributesMeans(s: Sample, rg: ReadGroup, order: set<Value> -> seq<Value>)
    ensures RunAttributes(s, rg, order).Ok? <==> RunTextsOf(rg, order).Ok?
    ensures RunAttributes(s, rg, order).Ok? ==>
              var d := RunAttributes(s, rg, order).value;
              var t := RunTextsOf(rg, order).value;
              && |d| == 18 && d[2] == ("assembly", t.assembly)
              && d[5] == ("flowcell_barcode", Str(t.flowcells))
              && d[11] == ("read_group_id", Str(t.readGroupIds))
              && d[17] == ("work_request_or_pdo", Str(t.order))
  {
    if RunTextsOf(rg, order).Ok? {
      RunAttributesLayout(s, rg.constants, RunTextsOf(rg, order).value);
    }
  }

  /** A set whose elements are all text joins in any iteration order. */
  lemma JoinsAsText(xs: set<Value>, items: seq<Value>)
    requires Enumerates(xs, items) && forall x :: x in xs ==> x.Str?
    ensures JoinTexts(", ", items).Ok?
  {
    forall i | 0 <= i < |items| ensures items[i].Str? {
      assert items[i] in items;
    }
  }

  /** The aggregates' first four sets are the ones built by the templates. */
  lemma AggregatesOfTemplates(records: seq<Value>, a: Aggregates)
    requires AggregatesOf(records) == Ok(a)
    ensures TemplateImages(records) == Ok((a.readGroupIds, a.molecularIdxSchemes, a.platformUnits, a.platformUnitLibs))
  {
  }

  /** The template sets are the records' images under their templates. */
  lemma TemplateImagesParts(records: seq<Value>, t: (set<Value>, set<Value>, set<Value>, set<Value>))
    requires TemplateImages(records) == Ok(t)
    ensures Image(records, ReadGroupIdOf) == Ok(t.0) && Image(records, MolecularIdxOf) == Ok(t.1)
    ensures Image(records, PlatformUnitOf) == Ok(t.2) && Image(records, PlatformUnitLibOf) == Ok(t.3)
  {
  }

  /** The four templates give only text. */
  lemma TemplatesGiveText()
    ensures forall x :: ReadGroupIdOf(x).Ok? ==> ReadGroupIdOf(x).value.Str?
    ensures forall x :: MolecularIdxOf(x).Ok? ==> MolecularIdxOf(x).value.Str?
    ensures forall x :: PlatformUnitOf(x).Ok? ==> PlatformUnitOf(x).value.Str?
    ensures forall x :: PlatformUnitLibOf(x).Ok? ==> PlatformUnitLibOf(x).value.Str?
  {
  }

  /** A set built by a template that gives only text joins, in any order. */
  lemma ImageJoins(records: seq<Value>, template: Value -> Result<Value>, xs: set<Value>, items: seq<Value>)
    requires forall x :: template(x).Ok? ==> template(x).value.Str?
    requires Image(records, template) == Ok(xs) && Enumerates(xs, items)
    ensures JoinTexts(", ", items).Ok?
  {
    ImageIsText(records, template);
    JoinsAsText(xs, items);
  }

  /** The sets built from templates hold only text, so they always join: a
      run's attributes can fail only on the reference sequence, the four sets
      copied from the records, or the order id. */
  lemma TemplateSetsJoin(records: seq<Value>, rg: ReadGroup, order: set<Value> -> seq<Value>)
    requires AggregatesOf(records) == Ok(rg.aggregates)
    requires forall xs :: Enumerates(xs, order(xs))
    ensures JoinTexts(", ", order(rg.aggregates.readGroupIds)).Ok?
    ensures JoinTexts(", ", order(rg.aggregates.molecularIdxSchemes)).Ok?
    ensures JoinTexts(", ", order(rg.aggregates.platformUnits)).Ok?
    ensures JoinTexts(", ", order(rg.aggregates.platformUnitLibs)).Ok?
  {
    var a := rg.aggregates;
    AggregatesOfTemplates(records, a);
    TemplateImagesParts(records, (a.readGroupIds, a.molecularIdxSchemes, a.platformUnits, a.platformUnitLibs));
    TemplatesGiveText();
    ImageJoins(records, ReadGroupIdOf, a.readGroupIds, order(a.readGroupIds));
    ImageJoins(records, MolecularIdxOf, a.molecularIdxSchemes, order(a.molecularIdxSchemes));
    ImageJoins(records, PlatformUnitOf, a.platformUnits, order(a.platformUnits));
    ImageJoins(records, PlatformUnitLibOf, a.platformUnitLibs, order(a.platformUnitLibs));
  }

  /** A template that only ever gives text gives a set of text. */
  lemma ImageIsText(records: seq<Value>, template: Value -> Result<Value>)
    requires forall x :: template(x).Ok? ==> template(x).value.Str?
    ensures Image(records, template).Ok? ==> forall x :: x in Image(records, template).value ==> x.Str?
  {
    if Image(records, template).Ok? {
      forall x | x in Image(records, template).value ensures x.Str? {
        var i := ImageElement(records, template, x);
      }
    }
  }

  /** What `create_run_dict` computes, in the order it computes it: the run's
      own id, the experiment's id and the run attributes. */
  datatype RunIds = RunIds(submitterId: string, experimentId: string, attributes: Dict)

  function RunIdsOf(s: Sample, rg: ReadGroup, order: set<Value> -> seq<Value>): Result<RunIds> {
    var id :- RunSubmitterId(s, rg, order);
    var experimentId :- ExperimentSubmitterId(s, rg);
    var attributes :- RunAttributes(s, rg, order);
    Ok(RunIds(id, experimentId, attributes))
  }

  /** A SUBMITTER_ID element in Broad's namespace. */
  function SubmitterIdElement(id: string): Value {
    Obj([("SUBMITTER_ID", Obj([("@namespace", Str(BroadAbbreviation)), ("#text", Str(id))]))])
  }

  /** A SUBMITTER_ID element's text is the id. */
  lemma SubmitterIdText(id: string)
    ensures At(At(SubmitterIdElement(id), "SUBMITTER_ID"), "#text") == Str(id)
  {
    GetFirst(SubmitterIdElement(id).fields[0].1.fields, 1);
  }

  /** The FILE element naming the sample's data file and its checksum. */
  function RunFile(s: Sample): Value {
    Obj([("@filename", Str(s.dataFile)), ("@filetype", Str(s.fileType)), ("@checksum_method", Str("MD5")),
         ("@checksum", s.md5)])
  }

  /** The RUN element. */
  function RunElement(s: Sample, ids: RunIds): Value {
    Obj([("IDENTIFIERS", SubmitterIdElement(ids.submitterId)),
         ("EXPERIMENT_REF", Obj([("IDENTIFIERS", SubmitterIdElement(ids.experimentId))])),
         ("DATA_BLOCK", Obj([("FILES", Obj([("FILE", RunFile(s))]))])),
         ("RUN_ATTRIBUTES", Obj([("RUN_ATTRIBUTE", List(AttributeList(ids.attributes)))]))])
  }

  /** The RUN_SET document. */
  function RunSet(s: Sample, ids: RunIds): Value {
    Obj([("RUN_SET", Obj([("@xsi:noNamespaceSchemaLocation", Str(RunXsd)), ("@xmlns:xsi", Str(Xsi)),
                          ("RUN", RunElement(s, ids))]))])
  }

  /** `create_run_dict`. */
  function RunDict(s: Sample, rg: ReadGroup, order: set<Value> -> seq<Value>): (r: Result<Value>)
    ensures r.Ok? <==> RunIdsOf(s, rg, order).Ok?
    ensures r.Ok? ==>
              var run := At(At(r.value, "RUN_SET"), "RUN");
              && At(At(At(run, "IDENTIFIERS"), "SUBMITTER_ID"), "#text") == Str(RunSubmitterId(s, rg, order).value)
              && At(At(At(At(run, "EXPERIMENT_REF"), "IDENTIFIERS"), "SUBMITTER_ID"), "#text")
                   == Str(ExperimentSubmitterId(s, rg).value)
  {
    var ids :- RunIdsOf(s, rg, order);
    RunIdsParts(s, rg, order, ids);
    RunIdsInSet(s, ids);
    Ok(RunSet(s, ids))
  }

  /** The run document is built iff the run's id, the experiment's id and the
      run's texts can all be computed, and the first of them to fail gives its
      error. */
  lemma RunDictSucceeds(s: Sample, rg: ReadGroup, order: set<Value> -> seq<Value>)
    ensures RunDict(s, rg, order).Ok? <==>
              RunSubmitterId(s, rg, order).Ok? && ExperimentSubmitterId(s, rg).Ok? && RunTextsOf(rg, order).Ok?
    ensures RunSubmitterId(s, rg, order).Err? ==> RunDict(s, rg, order).error == RunSubmitterId(s, rg, order).error
    ensures RunSubmitterId(s, rg, order).Ok? && ExperimentSubmitterId(s, rg).Err? ==>
              RunDict(s, rg, order).error == ExperimentSubmitterId(s, rg).error
  {
    RunAttributesMeans(s, rg, order);
  }

  /** The run's own id and the experiment's id in the RUN element. */
  lemma RunElementIds(s: Sample, ids: RunIds)
    ensures At(At(At(RunElement(s, ids), "IDENTIFIERS"), "SUBMITTER_ID"), "#text") == Str(ids.submitterId)
    ensures At(At(At(At(RunElement(s, ids), "EXPERIMENT_REF"), "IDENTIFIERS"), "SUBMITTER_ID"), "#text")
              == Str(ids.experimentId)
  {
    SubmitterIdText(ids.submitterId);
    SubmitterIdText(ids.experimentId);
    GetFirst(RunElement(s, ids).fields, 1);
  }

  /** The data file, its type and its MD5 checksum, and the attribute list, in
      the RUN element. */
  lemma RunElementParts(s: Sample, ids: RunIds)
    ensures var file := At(At(At(RunElement(s, ids), "DATA_BLOCK"), "FILES"), "FILE");
            && At(file, "@filename") == Str(s.dataFile) && At(file, "@filetype") == Str(s.fileType)
            && At(file, "@checksum_method") == Str("MD5") && At(file, "@checksum") == s.md5
    ensures At(At(RunElement(s, ids), "RUN_ATTRIBUTES"), "RUN_ATTRIBUTE") == List(AttributeList(ids.attributes))
  {
    var f := RunElement(s, ids).fields;
    GetFirst(f, 2);
    GetFirst(f, 3);
    var g := RunFile(s).fields;
    GetFirst(g, 1);
    GetFirst(g, 2);
    GetFirst(g, 3);
  }

  /** The RUN element sits under RUN_SET, beside the run schema's location. */
  lemma RunSetHolds(s: Sample, ids: RunIds)
    ensures At(At(RunSet(s, ids), "RUN_SET"), "RUN") == RunElement(s, ids)
    ensures At(At(RunSet(s, ids), "RUN_SET"), "@xsi:noNamespaceSchemaLocation") == Str(RunXsd)
  {
    GetFirst(RunSet(s, ids).fields[0].1.fields, 2);
  }

  /** The experiment's texts start with its submitter id. */
  lemma ExperimentTextsId(s: Sample, rg: ReadGroup, t: ExperimentTexts)
    requires ExperimentTextsOf(s, rg) == Ok(t)
    ensures ExperimentSubmitterId(s, rg) == Ok(t.submitterId)
  {
  }

  /** The run's ids are its own submitter id, the experiment's and the run
      attributes. */
  lemma RunIdsParts(s: Sample, rg: ReadGroup, order: set<Value> -> seq<Value>, ids: RunIds)
    requires RunIdsOf(s, rg, order) == Ok(ids)
    ensures RunSubmitterId(s, rg, order) == Ok(ids.submitterId)
    ensures ExperimentSubmitterId(s, rg) == Ok(ids.experimentId)
    ensures RunAttributes(s, rg, order) == Ok(ids.attributes)
  {
  }

  /** The run document refers to the experiment document: whenever both are
      built, the run's EXPERIMENT_REF carries the experiment's SUBMITTER_ID. */
  lemma RunRefersToExperiment(s: Sample, rg: ReadGroup, order: set<Value> -> seq<Value>, experiment: Value, run: Value)
    requires ExperimentDict(s, rg) == Ok(experiment) && RunDict(s, rg, order) == Ok(run)
    ensures var e := At(At(experiment, "EXPERIMENT_SET"), "EXPERIMENT");
            var r := At(At(run, "RUN_SET"), "RUN");
            At(At(At(At(r, "EXPERIMENT_REF"), "IDENTIFIERS"), "SUBMITTER_ID"), "#text")
              == At(At(At(e, "IDENTIFIERS"), "SUBMITTER_ID"), "#text")
  {
  }

  /** The experiment's submitter id in its document. */
  lemma ExperimentIdInSet(s: Sample, rg: ReadGroup, t: ExperimentTexts)
    ensures var e := At(At(ExperimentSet(s, rg, t), "EXPERIMENT_SET"), "EXPERIMENT");
            At(At(At(e, "IDENTIFIERS"), "SUBMITTER_ID"), "#text") == Str(t.submitterId)
  {
    ExperimentSetHolds(s, rg, t);
    ExperimentElementIds(s, rg, t);
  }

  /** The run's ids in its document. */
  lemma RunIdsInSet(s: Sample, ids: RunIds)
    ensures var r := At(At(RunSet(s, ids), "RUN_SET"), "RUN");
            && At(At(At(r, "IDENTIFIERS"), "SUBMITTER_ID"), "#text") == Str(ids.submitterId)
            && At(At(At(At(r, "EXPERIMENT_REF"), "IDENTIFIERS"), "SUBMITTER_ID"), "#text") == Str(ids.experimentId)
  {
    RunSetHolds(s, ids);
    RunElementIds(s, ids);
  }

  /** The run document's id and attributes: the RUN element carries the run's
      submitter id and lists the run attributes as TAG/VALUE pairs, in order. */
  lemma RunDictMeans(s: Sample, rg: ReadGroup, order: set<Value> -> seq<Value>, run: Value)
    requires RunDict(s, rg, order) == Ok(run)
    ensures var r := At(At(run, "RUN_SET"), "RUN");
            && At(At(At(r, "IDENTIFIERS"), "SUBMITTER_ID"), "#text") == Str(RunSubmitterId(s, rg, order).value)
            && At(At(r, "RUN_ATTRIBUTES"), "RUN_ATTRIBUTE") == List(AttributeList(RunAttributes(s, rg, order).value))
  {
    var ids := RunIdsOf(s, rg, order).value;
    assert run == RunSet(s, ids);
    RunIdsParts(s, rg, order, ids);
    RunSetHolds(s, ids);
    RunElementIds(s, ids);
    RunElementParts(s, ids);
  }

  // ---------------------------------------------------------------------------
  // Submission

  const SubmissionXsd := "https://www.ncbi.nlm.nih.gov/viewvc/v1/trunk/sra/doc/SRA_1-5/SRA.submission.xsd?view=co"
  const OpsMail := "mailto:dsde-ops@broadinstitute.org"

  /** `Submission.get_alias`: Broad's abbreviation, the study and the year of
      the run date, which is passed in. */
  function SubmissionAlias(phs: string, year: nat): string {
    Join(".", [BroadAbbreviation, phs, NatToString(year)])
  }

  /** A submission alias is taken apart again at its dots when the study has
      none. */
  lemma SubmissionAliasParts(phs: string, year: nat)
    requires '.' !in phs
    ensures Split(SubmissionAlias(phs, year), '.') == [BroadAbbreviation, phs, NatToString(year)]
  {
    assert '.' !in NatToString(year);
    SplitJoin([BroadAbbreviation, phs, NatToString(year)], '.');
  }

  /** The ACTIONS entry: protect, release, and add the experiment and the run
      files, in that order. */
  function ActionsValue(experimentFile: string, runFile: string): Value {
    Obj([("ACTION", List([Obj([("PROTECT", Null)]), Obj([("RELEASE", Null)]),
                          Obj([("ADD", Obj([("@source", Str(experimentFile)), ("@schema", Str("experiment"))]))]),
                          Obj([("ADD", Obj([("@source", Str(runFile)), ("@schema", Str("run"))]))])]))])
  }

  /** What `create_actions` stores: the experiment's file name is computed
      first, then the run's. */
  function Actions(s: Sample, rg: ReadGroup, order: set<Value> -> seq<Value>): Result<Value> {
    var experimentFile :- ExperimentFileName(s, rg);
    var runFile :- RunFileName(s, rg, order);
    Ok(ActionsValue(experimentFile, runFile))
  }

  /** The actions fail iff the experiment's or the run's id does, the
      experiment's error first; otherwise the third action adds the
      experiment's file and the fourth the run's. */
  lemma ActionsMeans(s: Sample, rg: ReadGroup, order: set<Value> -> seq<Value>)
    ensures Actions(s, rg, order).Ok? <==> ExperimentSubmitterId(s, rg).Ok? && RunSubmitterId(s, rg, order).Ok?
    ensures ExperimentSubmitterId(s, rg).Err? ==> Actions(s, rg, order) == Err(ExperimentSubmitterId(s, rg).error)
    ensures Actions(s, rg, order).Ok? ==>
              var list := At(Actions(s, rg, order).value, "ACTION").items;
              && |list| == 4 && list[0] == Obj([("PROTECT", Null)]) && list[1] == Obj([("RELEASE", Null)])
              && At(At(list[2], "ADD"), "@source") == Str(ExperimentSubmitterId(s, rg).value + ".add.experiment.xml")
              && At(At(list[3], "ADD"), "@source") == Str(RunSubmitterId(s, rg, order).value + ".xml")
  {
  }

  /** The SUBMISSION_ATTRIBUTES entry: the submission site is NCBI's
      protected one. */
  const SubmissionAttributesValue: Value :=
    Obj([("SUBMISSION_ATTRIBUTE", Obj([("TAG", Str("Submission Site")), ("VALUE", Str("NCBI_PROTECTED"))]))])

  /** `Submission.create_actions`: stores the actions in the submission dict,
      or raises before touching it when a file name cannot be computed. */
  method CreateActions(s: Sample, rg: ReadGroup, order: set<Value> -> seq<Value>, submission: PyDict)
    returns (r: Result<()>)
    modifies submission
    ensures Actions(s, rg, order).Err? ==> r == Err(Actions(s, rg, order).error) && submission.entries == old(submission.entries)
    ensures Actions(s, rg, order).Ok? ==>
              r == Ok(()) && submission.entries == Put(old(submission.entries), "ACTIONS", Actions(s, rg, order).value)
  {
    var actions := Actions(s, rg, order);
    if actions.Err? {
      return Err(actions.error);
    }
    submission.Update("ACTIONS", actions.value);
    return Ok(());
  }

  /** `Submission.create_submission_attributes`. */
  method CreateSubmissionAttributes(submission: PyDict)
    modifies submission
    ensures submission.entries == Put(old(submission.entries), "SUBMISSION_ATTRIBUTES", SubmissionAttributesValue)
  {
    submission.Update("SUBMISSION_ATTRIBUTES", SubmissionAttributesValue);
  }

  /** The SUBMISSION element as `Submission.create_file` first writes it; the
      date and the comment are passed in. */
  function SubmissionHead(date: string, comment: string, phs: string, year: nat): Dict {
    [("@submission_date", Str(date)), ("@submission_comment", Str(comment)), ("@lab_name", Str("Genome Sequencing")),
     ("@alias", Str(SubmissionAlias(phs, year))), ("@center_name", Str(BroadAbbreviation)),
     ("CONTACTS", Obj([("CONTACT", Obj([("@name", Str("sra_sumissions")), ("@inform_on_status", Str(OpsMail)),
                                        ("@inform_on_error", Str(OpsMail))]))]))]
  }

  /** The SUBMISSION_SET document around a SUBMISSION element. */
  function SubmissionSet(submission: Dict): Value {
    Obj([("SUBMISSION_SET", Obj([("@xsi:noNamespaceSchemaLocation", Str(SubmissionXsd)), ("@xmlns:xsi", Str(Xsi)),
                                 ("SUBMISSION", Obj(submission))]))])
  }

  /** The submission document: the head, then the actions, then the
      submission attributes. */
  function SubmissionDocument(s: Sample, rg: ReadGroup, order: set<Value> -> seq<Value>, date: string, comment: string,
                              phs: string, year: nat): Result<Value> {
    var actions :- Actions(s, rg, order);
    Ok(SubmissionSet(Put(Put(SubmissionHead(date, comment, phs, year), "ACTIONS", actions),
                         "SUBMISSION_ATTRIBUTES", SubmissionAttributesValue)))
  }

  /** `Submission.create_file` up to validation and writing: builds the
      document, takes the SUBMISSION dict out of it and updates that dict in
      place, so that the document holds the updates. */
  method CreateSubmissionDocument(s: Sample, rg: ReadGroup, order: set<Value> -> seq<Value>, date: string,
                                  comment: string, phs: string, year: nat)
    returns (r: Result<Value>)
    ensures r == SubmissionDocument(s, rg, order, date, comment, phs, year)
  {
    var submission := new PyDict(SubmissionHead(date, comment, phs, year));
    var created := CreateActions(s, rg, order, submission);
    if created.Err? {
      return Err(created.error);
    }
    CreateSubmissionAttributes(submission);
    return Ok(SubmissionSet(submission.entries));
  }

  /** The head's keys, the actions and the attributes each appear once, in
      that order, and both actions and attributes are what the submission
      stores. */
  lemma SubmissionDocumentMeans(s: Sample, rg: ReadGroup, order: set<Value> -> seq<Value>, date: string,
                                comment: string, phs: string, year: nat)
    ensures SubmissionDocument(s, rg, order, date, comment, phs, year).Ok? <==> Actions(s, rg, order).Ok?
    ensures SubmissionDocument(s, rg, order, date, comment, phs, year).Ok? ==>
              var sub := SubmissionDocument(s, rg, order, date, comment, phs, year).value.fields[0].1.fields[2].1.fields;
              && |sub| == 8 && sub[..6] == SubmissionHead(date, comment, phs, year)
              && sub[6] == ("ACTIONS", Actions(s, rg, order).value)
              && sub[7] == ("SUBMISSION_ATTRIBUTES", SubmissionAttributesValue)
  {
    var head := SubmissionHead(date, comment, phs, year);
    SubmissionHeadKeys(date, comment, phs, year);
    if Actions(s, rg, order).Ok? {
      PutTwoNew(head, "ACTIONS", Actions(s, rg, order).value, "SUBMISSION_ATTRIBUTES", SubmissionAttributesValue);
    }
  }

  /** The head has neither actions nor submission attributes yet. */
  lemma SubmissionHeadKeys(date: string, comment: string, phs: string, year: nat)
    ensures !HasKey(SubmissionHead(date, comment, phs, year), "ACTIONS")
    ensures !HasKey(SubmissionHead(date, comment, phs, year), "SUBMISSION_ATTRIBUTES")
  {
    var head := SubmissionHead(date, comment, phs, year);
    // no key of the head is as long as either new key
    assert forall i :: 0 <= i < |head| ==> |head[i].0| != 7 && |head[i].0| != 21;
    HasKeyMeans(head, "ACTIONS");
    HasKeyMeans(head, "SUBMISSION_ATTRIBUTES");
  }
}
