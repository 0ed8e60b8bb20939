/**
 * The older SRA (dbGaP) classes (src/scripts/dbgap_classes.py): the sample and
 * its telemetry-report checks, the read group with its library descriptor and
 * split-based read length, and the Experiment and Run submitter ids, titles
 * and descriptions built from them.  Where this file and the newer one
 * (module DbgapClasses) agree, the newer module's definitions are reused;
 * lemmas at the end state where the two differ.
 */
module DbgapClassesLegacy {
  import opened Outcome
  import opened Python
  import opened ElementTree
  import DgbapTelemetryReport
  import DbgapClasses

  // ---------------------------------------------------------------------------
  // Reading required fields

  /** `d[k]` for each key in turn: the first key missing decides the KeyError. */
  function Fields(d: Value, keys: seq<string>): (r: Result<seq<Value>>)
    ensures r.Ok? ==> |r.value| == |keys|
  {
    if keys == [] then Ok([])
    else
      var v :- Subscript(d, keys[0]);
      var rest :- Fields(d, keys[1..]);
      Ok([v] + rest)
  }

  /** The fields are read iff every key is present; then each is the dict's
      value for its key, and otherwise the first missing key is the one the
      KeyError names. */
  lemma {:induction false} FieldsMeans(d: Value, keys: seq<string>)
    requires d.Obj?
    ensures Fields(d, keys).Ok? <==> forall k :: k in keys ==> HasKey(d.fields, k)
    ensures Fields(d, keys).Ok? ==> forall i :: 0 <= i < |keys| ==> Fields(d, keys).value[i] == At(d, keys[i])
    ensures forall i :: 0 <= i < |keys| && !HasKey(d.fields, keys[i])
                        && (forall j :: 0 <= j < i ==> HasKey(d.fields, keys[j])) ==>
                          Fields(d, keys) == Err(KeyError(keys[i]))
  {
    if keys != [] {
      FieldsMeans(d, keys[1..]);
      assert forall k :: k in keys <==> k == keys[0] || k in keys[1..];
      forall i | 0 < i < |keys| && !HasKey(d.fields, keys[i]) && (forall j :: 0 <= j < i ==> HasKey(d.fields, keys[j]))
        ensures Fields(d, keys) == Err(KeyError(keys[i]))
      {
        assert keys[1..][i - 1] == keys[i];
        assert forall j :: 0 <= j < i - 1 ==> keys[1..][j] == keys[j + 1];
      }
      if Fields(d, keys).Ok? {
        forall i | 0 < i < |keys| ensures Fields(d, keys).value[i] == At(d, keys[i]) {
          assert keys[1..][i - 1] == keys[i];
        }
      }
    }
  }

  // ---------------------------------------------------------------------------
  // Sample: the telemetry report checks

  /** `[x.attrib for x in elements if x.attrib['submitted_sample_id'] == alias]`
      for an alias of any JSON type: an element without the attribute raises
      KeyError. */
  function SamplesNamed(elements: seq<Element>, alias: Value): Result<seq<Dict>> {
    if elements == [] then Ok([])
    else
      var id :- Lookup(elements[0].attrib, "submitted_sample_id");
      var rest :- SamplesNamed(elements[1..], alias);
      Ok(if id == alias then [elements[0].attrib] + rest else rest)
  }

  /** For a text alias this is the telemetry service's own sample filter. */
  lemma {:induction false} SamplesNamedOfText(elements: seq<Element>, alias: string)
    ensures SamplesNamed(elements, Str(alias)) == DgbapTelemetryReport.MatchedSamples(elements, alias)
  {
    if elements != [] {
      SamplesNamedOfText(elements[1..], alias);
    }
  }

  /** What `set_telemetry_report_info` stores, apart from the center name. */
  datatype TelemetryInfo = TelemetryInfo(study: Dict, bioProject: Value, sampleInfo: Dict, centerProjectName: Value)

  /** `set_telemetry_report_info` on the parsed report, in the order written:
      the matching samples, the first child's attributes (IndexError without
      children), the first admin bio project (IndexError without one), the three
      raises, then the study name. */
  function Telemetry(root: Element, alias: Value): Result<TelemetryInfo> {
    var samples :- SamplesNamed(Iter(root, "Sample"), alias);
    var first :- FirstChild(root);
    var projects :- DgbapTelemetryReport.AdminBioProjects(Iter(root, "BioProject"));
    if projects == [] then Err(IndexError)
    else if first.attrib == [] then Err(Raised("Study not registered with Dbgap"))
    else if samples == [] then Err(Raised("Sample not registered with Dbgap"))
    else if |samples| > 1 then Err(Raised("Could not find specific sample in report"))
    else
      var name :- Lookup(first.attrib, "study_name");
      Ok(TelemetryInfo(first.attrib, projects[0], samples[0], name))
  }

  /** Once both lists are formed, the outcomes in the order the code checks
      them: no child, no admin bio project, an empty study, no sample, more than
      one sample, a study without a name; otherwise the study, the first admin
      bio project, the one sample and the study name. */
  lemma TelemetryOrder(root: Element, alias: Value)
    requires SamplesNamed(Iter(root, "Sample"), alias).Ok?
    requires DgbapTelemetryReport.AdminBioProjects(Iter(root, "BioProject")).Ok?
    ensures var samples := SamplesNamed(Iter(root, "Sample"), alias).value;
            var projects := DgbapTelemetryReport.AdminBioProjects(Iter(root, "BioProject")).value;
            && (root.children == [] ==> Telemetry(root, alias) == Err(IndexError))
            && (root.children != [] && projects == [] ==> Telemetry(root, alias) == Err(IndexError))
            && (root.children != [] && projects != [] && root.children[0].attrib == [] ==>
                  Telemetry(root, alias) == Err(Raised("Study not registered with Dbgap")))
            && (root.children != [] && projects != [] && root.children[0].attrib != [] && samples == [] ==>
                  Telemetry(root, alias) == Err(Raised("Sample not registered with Dbgap")))
            && (root.children != [] && projects != [] && root.children[0].attrib != [] && |samples| > 1 ==>
                  Telemetry(root, alias) == Err(Raised("Could not find specific sample in report")))
            && (Telemetry(root, alias).Ok? <==>
                  root.children != [] && projects != [] && root.children[0].attrib != [] && |samples| == 1
                  && HasKey(root.children[0].attrib, "study_name"))
            && (Telemetry(root, alias).Ok? ==>
                  Telemetry(root, alias).value
                    == TelemetryInfo(root.children[0].attrib, projects[0], samples[0],
                                     GetOr(root.children[0].attrib, "study_name", Null)))
  {
  }

  /** For a text alias, with a study and an admin bio project present: no Sample
      element naming the alias raises "Sample not registered", two raise "Could
      not find specific sample", and success means exactly one names it, whose
      attributes become the sample's information. */
  lemma TelemetryNeedsOneSample(root: Element, alias: string)
    requires DgbapTelemetryReport.MatchedSamples(Iter(root, "Sample"), alias).Ok?
    requires DgbapTelemetryReport.AdminBioProjects(Iter(root, "BioProject")).Ok?
    requires root.children != [] && root.children[0].attrib != []
    requires DgbapTelemetryReport.AdminBioProjects(Iter(root, "BioProject")).value != []
    ensures var elements := Iter(root, "Sample");
            && ((forall i :: 0 <= i < |elements| ==> !DgbapTelemetryReport.NamesAlias(elements[i], alias)) ==>
                  Telemetry(root, Str(alias)) == Err(Raised("Sample not registered with Dbgap")))
            && ((exists i, j :: 0 <= i < j < |elements| && DgbapTelemetryReport.NamesAlias(elements[i], alias)
                                && DgbapTelemetryReport.NamesAlias(elements[j], alias)) ==>
                  Telemetry(root, Str(alias)) == Err(Raised("Could not find specific sample in report")))
            && (Telemetry(root, Str(alias)).Ok? ==>
                  && (exists i :: 0 <= i < |elements| && DgbapTelemetryReport.NamesAlias(elements[i], alias))
                  && Get(Telemetry(root, Str(alias)).value.sampleInfo, "submitted_sample_id") == Some(Str(alias)))
  {
    var elements := Iter(root, "Sample");
    SamplesNamedOfText(elements, alias);
    DgbapTelemetryReport.MatchedSamplesCount(elements, alias);
    DgbapTelemetryReport.MatchedSamplesKept(elements, alias);
    var samples := DgbapTelemetryReport.MatchedSamples(elements, alias).value;
    if Telemetry(root, Str(alias)).Ok? {
      assert samples != [];
      assert samples[0] in samples;
    }
  }

  // ---------------------------------------------------------------------------
  // Sample

  /** A sample as its constructor leaves it (the center name, read from a
      downloaded file, is not part of it). */
  datatype Sample = Sample(
    project: Value, location: Value, index: Value, version: Value, md5: Value, dataFile: Value, phs: string,
    dataType: Value, alias: Value, study: Dict, bioProject: Value, sampleInfo: Dict, centerProjectName: Value)

  /** The attributes the constructor reads, in order. */
  const SampleKeys := ["aggregation_project", "location", "aggregation_index_path", "version", "md5",
                       "aggregation_path", "phs_id", "data_type", "alias"]

  /** `Sample(json_object)`: the first record's attributes, then the telemetry checks
      against the telemetry report of the sample's phs id; `report` stands for
      the report each phs id fetches. */
  function SampleOf(jsonObject: Value, report: string -> Element): Result<Sample> {
    var first :- Item(jsonObject, 0);
    var attrs :- Subscript(first, "attributes");
    var f :- Fields(attrs, SampleKeys);
    var phs := Show(f[6]);
    var t :- Telemetry(report(phs), f[8]);
    Ok(Sample(f[0], f[1], f[2], f[3], f[4], f[5], phs, f[7], f[8], t.study, t.bioProject, t.sampleInfo,
              t.centerProjectName))
  }

  /** A first record whose attributes hold all nine fields: the sample is built
      iff the report of its phs id passes the telemetry checks for its alias, and then it
      carries those fields and the report's information. */
  lemma SampleOfMeans(jsonObject: Value, report: string -> Element)
    requires jsonObject.List? && jsonObject.items != [] && jsonObject.items[0].Obj?
    requires var attrs := At(jsonObject.items[0], "attributes");
             attrs.Obj? && forall k :: k in SampleKeys ==> HasKey(attrs.fields, k)
    ensures var attrs := At(jsonObject.items[0], "attributes");
            var t := Telemetry(report(Show(At(attrs, "phs_id"))), At(attrs, "alias"));
            && (SampleOf(jsonObject, report).Ok? <==> t.Ok?)
            && (SampleOf(jsonObject, report).Err? ==> SampleOf(jsonObject, report) == t.PropagateFailure())
            && (SampleOf(jsonObject, report).Ok? ==>
                  var s := SampleOf(jsonObject, report).value;
                  && s.phs == Show(At(attrs, "phs_id")) && s.alias == At(attrs, "alias")
                  && s.dataFile == At(attrs, "aggregation_path") && s.project == At(attrs, "aggregation_project")
                  && s.sampleInfo == t.value.sampleInfo && s.bioProject == t.value.bioProject)
  {
    var attrs := At(jsonObject.items[0], "attributes");
    assert Subscript(jsonObject.items[0], "attributes") == Ok(attrs);
    FieldsMeans(attrs, SampleKeys);
    var k := SampleKeys;
    assert k[0] == "aggregation_project" && k[5] == "aggregation_path" && k[6] == "phs_id" && k[8] == "alias";
  }

  /** `Sample.DATA_TYPE_MAPPING` of this file: the newer table without WXS. */
  function DataTypeMapping(dataType: string): Option<(string, string)> {
    if dataType == "WXS" then None else DbgapClasses.DataTypeMapping(dataType)
  }

  /** `formatted_data_type`: a plain dict lookup, so a data type outside the
      table raises KeyError, and a list or a dict cannot be looked up (TypeError). */
  function FormattedDataType(dataType: Value): (r: Result<(string, string)>)
    ensures r.Err? && !dataType.List? && !dataType.Obj? ==> r.error == KeyError(Show(dataType))
  {
    if dataType.List? || dataType.Obj? then Err(TypeError("unhashable type"))
    else if dataType.Str? && DataTypeMapping(dataType.s).Some? then Ok(DataTypeMapping(dataType.s).value)
    else Err(KeyError(Show(dataType)))
  }

  /** The five data types of the table are the only ones with a pair, each the
      newer module's pair for it. */
  lemma FormattedDataTypeMeans(dataType: Value)
    ensures FormattedDataType(dataType).Ok? <==>
              dataType in [Str("WGS"), Str("RNA"), Str("Exome"), Str("Custom_Selection"), Str("N/A")]
    ensures FormattedDataType(dataType).Ok? ==> FormattedDataType(dataType) == DbgapClasses.FormattedDataType(dataType)
  {
  }

  /** `subject_string`: "from subject '<id>'" for a truthy subject id, else "". */
  function SubjectString(s: Sample): (r: Result<string>)
    ensures r.Ok? <==> HasKey(s.sampleInfo, "submitted_subject_id")
    ensures r.Ok? ==> (r.value == "" <==> !Truthy(GetOr(s.sampleInfo, "submitted_subject_id", Null)))
  {
    var subjectId :- Lookup(s.sampleInfo, "submitted_subject_id");
    Ok(if Truthy(subjectId) then "from subject '" + Show(subjectId) + "'" else "")
  }

  /** `get_biospecimen_repo`. */
  function BiospecimenRepo(s: Sample): Result<Value> {
    Lookup(s.sampleInfo, "repository")
  }

  // ---------------------------------------------------------------------------
  // ReadGroup: the constant fields of the first record

  /** The fields a read group copies from its first record; the two sizes are
      kept as text. */
  datatype Constants = Constants(
    productOrderId: Value, sampleType: Value, sampleMaterialType: Value, libraryName: Value, libraryType: Value,
    version: Value, workRequestId: Value, sampleId: Value, researchProjectId: Value, analysisType: Value,
    pairedRun: Value, readStructure: Value, rootSampleId: Value, productPartNumber: Value, sampleBarcode: Value,
    sampleLsid: Value, primaryDisease: Value, referenceSequence: Value, baitSet: Value, model: Value,
    nominalLength: string, nominalSdev: string)

  /** The fields the constructor subscripts, in order; `sample_barcode` and
      `primary_disease` are read with `.get` and cannot raise. */
  const ReadGroupKeys := ["product_order_id", "sample_type", "sample_material_type", "library_name", "library_type",
                          "version", "work_request_id", "sample_id", "research_project_id", "analysis_type",
                          "paired_run", "read_structure", "root_sample_id", "product_part_number", "sample_lsid",
                          "reference_sequence", "bait_set", "model", "mean_insert_size", "standard_deviation",
                          "submission_metadata"]

  /** The constant fields and the raw `submission_metadata` value. */
  function ConstantsOf(attrs: Value): Result<(Constants, Value)> {
    var f :- Fields(attrs, ReadGroupKeys);
    Ok((Constants(f[0], f[1], f[2], f[3], f[4], f[5], f[6], f[7], f[8], f[9], f[10], f[11], f[12], f[13],
                  At(attrs, "sample_barcode"), f[14], At(attrs, "primary_disease"), f[15], f[16], f[17],
                  Show(f[18]), Show(f[19])), f[20]))
  }

  /** The constants are read iff every subscripted field is present, the first
      one missing deciding the KeyError; the metadata is the record's own. */
  lemma ConstantsMeans(attrs: Value)
    requires attrs.Obj?
    ensures ConstantsOf(attrs).Ok? <==> forall k :: k in ReadGroupKeys ==> HasKey(attrs.fields, k)
    ensures forall i :: 0 <= i < |ReadGroupKeys| && !HasKey(attrs.fields, ReadGroupKeys[i])
                        && (forall j :: 0 <= j < i ==> HasKey(attrs.fields, ReadGroupKeys[j])) ==>
                          ConstantsOf(attrs) == Err(KeyError(ReadGroupKeys[i]))
    ensures ConstantsOf(attrs).Ok? ==> ConstantsOf(attrs).value.1 == At(attrs, "submission_metadata")
  {
    FieldsMeans(attrs, ReadGroupKeys);
    var k := ReadGroupKeys;
    assert k[20] == "submission_metadata";
  }

  /** On success the fields that name the order and the library are the
      record's own. */
  lemma ConstantsNameLibrary(attrs: Value)
    requires attrs.Obj?
    ensures ConstantsOf(attrs).Ok? ==>
              var c := ConstantsOf(attrs).value.0;
              && c.productOrderId == At(attrs, "product_order_id") && c.libraryName == At(attrs, "library_name")
              && c.libraryType == At(attrs, "library_type") && c.workRequestId == At(attrs, "work_request_id")
              && c.analysisType == At(attrs, "analysis_type")
  {
    if ConstantsOf(attrs).Ok? {
      var k := ReadGroupKeys;
      var f := Fields(attrs, k).value;
      FieldsMeans(attrs, k);
      assert f[0] == At(attrs, k[0]) && f[3] == At(attrs, k[3]) && f[4] == At(attrs, k[4]);
      assert f[6] == At(attrs, k[6]) && f[9] == At(attrs, k[9]);
      assert k[0] == "product_order_id" && k[3] == "library_name" && k[4] == "library_type";
      assert k[6] == "work_request_id" && k[9] == "analysis_type";
    }
  }

  /** On success the pairing, read structure, root sample and barcode are the
      record's own, and the insert size is kept as its text. */
  lemma ConstantsDescribeReads(attrs: Value)
    requires attrs.Obj?
    ensures ConstantsOf(attrs).Ok? ==>
              var c := ConstantsOf(attrs).value.0;
              && c.pairedRun == At(attrs, "paired_run") && c.readStructure == At(attrs, "read_structure")
              && c.rootSampleId == At(attrs, "root_sample_id") && c.sampleBarcode == At(attrs, "sample_barcode")
              && c.nominalLength == Show(At(attrs, "mean_insert_size"))
  {
    if ConstantsOf(attrs).Ok? {
      var k := ReadGroupKeys;
      var f := Fields(attrs, k).value;
      FieldsMeans(attrs, k);
      assert f[10] == At(attrs, k[10]) && f[11] == At(attrs, k[11]) && f[12] == At(attrs, k[12]);
      assert f[18] == At(attrs, k[18]);
      assert k[10] == "paired_run" && k[11] == "read_structure" && k[12] == "root_sample_id";
      assert k[18] == "mean_insert_size";
    }
  }

  // ---------------------------------------------------------------------------
  // ReadGroup: the submission metadata

  /** `sub_data_to_dict` as written: its parameter is `submissionMetadata` but
      its loop reads `submission_metadata`, a name no scope defines, so any
      metadata with entries raises NameError; falsy metadata gives None, and a
      truthy value without a length raises TypeError first. */
  function SubDataAsWritten(metadata: Value): (r: Result<Option<DbgapClasses.Kits>>)
    ensures r.Ok? <==> !Truthy(metadata)
    ensures r.Ok? ==> r.value.None?
    ensures r != Err(NameError("submission_metadata")) ==> r == DbgapClasses.SubData(metadata)
  {
    if !Truthy(metadata) then Ok(None)
    else if !(metadata.Str? || metadata.List? || metadata.Obj?) then Err(TypeError("object has no len()"))
    else Err(NameError("submission_metadata"))
  }

  /** A list of well-formed metadata entries: the code as written raises, while
      the loop over its own parameter (the newer module's `SubData`, the same
      loop) sorts them into the two kits. */
  lemma SubDataAsWrittenRejects(entries: seq<Value>)
    requires entries != [] && DbgapClasses.Pairs(entries).Ok?
    ensures SubDataAsWritten(List(entries)) == Err(NameError("submission_metadata"))
    ensures DbgapClasses.SubData(List(entries)).Ok? && DbgapClasses.SubData(List(entries)).value.Some?
  {
    DbgapClasses.BucketsMeans(entries, "");
  }

  // ---------------------------------------------------------------------------
  // ReadGroup: the sets aggregated over all records

  /** A template applied to a record's "attributes". */
  function Attributed(template: Value -> Result<Value>, x: Value): Result<Value> {
    var attrs :- Subscript(x, "attributes");
    template(attrs)
  }

  /** The records' "attributes", when every record has them. */
  function AttributesOf(records: seq<Value>): (r: seq<Value>)
    requires forall i :: 0 <= i < |records| ==> Subscript(records[i], "attributes").Ok?
    ensures |r| == |records|
    ensures forall i :: 0 <= i < |records| ==> Subscript(records[i], "attributes") == Ok(r[i])
  {
    seq(|records|, i requires 0 <= i < |records| => Subscript(records[i], "attributes").value)
  }

  /** Applying a template through "attributes" is applying it to the records'
      attributes. */
  lemma {:induction false} ImageAttributed(records: seq<Value>, template: Value -> Result<Value>)
    requires forall i :: 0 <= i < |records| ==> Subscript(records[i], "attributes").Ok?
    ensures DbgapClasses.Image(records, x => Attributed(template, x))
              == DbgapClasses.Image(AttributesOf(records), template)
  {
    if records != [] {
      var rest := records[1..];
      assert forall i :: 0 <= i < |rest| ==> rest[i] == records[i + 1];
      ImageAttributed(rest, template);
      assert AttributesOf(records)[1..] == AttributesOf(rest);
    }
  }

  /** The first four sets, each template applied to the records' attributes. */
  function TemplateImages(records: seq<Value>): Result<(set<Value>, set<Value>, set<Value>, set<Value>)> {
    var readGroupIds :- DbgapClasses.Image(records, x => Attributed(DbgapClasses.ReadGroupIdOf, x));
    var molecularIdxSchemes :- DbgapClasses.Image(records, x => Attributed(DbgapClasses.MolecularIdxOf, x));
    var platformUnits :- DbgapClasses.Image(records, x => Attributed(DbgapClasses.PlatformUnitOf, x));
    var platformUnitLibs :- DbgapClasses.Image(records, x => Attributed(DbgapClasses.PlatformUnitLibOf, x));
    Ok((readGroupIds, molecularIdxSchemes, platformUnits, platformUnitLibs))
  }

  /** The last four sets, one field of each record's attributes. */
  function FieldImages(records: seq<Value>): Result<(set<Value>, set<Value>, set<Value>, set<Value>)> {
    var runBarcodes :- DbgapClasses.Image(records, x => Attributed(DbgapClasses.FieldOf("run_barcode"), x));
    var runNames :- DbgapClasses.Image(records, x => Attributed(DbgapClasses.FieldOf("run_name"), x));
    var instrumentNames :- DbgapClasses.Image(records, x => Attributed(DbgapClasses.FieldOf("machine_name"), x));
    var flowcellBarcodes :- DbgapClasses.Image(records, x => Attributed(DbgapClasses.FieldOf("flowcell_barcode"), x));
    Ok((runBarcodes, runNames, instrumentNames, flowcellBarcodes))
  }

  /** `set_aggregate_values`: each set over all records, in the order written. */
  function AggregatesOf(records: seq<Value>): Result<DbgapClasses.Aggregates> {
    var t :- TemplateImages(records);
    var f :- FieldImages(records);
    Ok(DbgapClasses.Aggregates(t.0, t.1, t.2, t.3, f.0, f.1, f.2, f.3))
  }

  /** When every record has attributes, the sets are those the newer module
      builds from the attributes themselves: the same templates, every record
      contributing. */
  lemma AggregatesAsNewer(records: seq<Value>)
    requires forall i :: 0 <= i < |records| ==> Subscript(records[i], "attributes").Ok?
    ensures AggregatesOf(records) == DbgapClasses.AggregatesOf(AttributesOf(records))
  {
    ImageAttributed(records, DbgapClasses.ReadGroupIdOf);
    ImageAttributed(records, DbgapClasses.MolecularIdxOf);
    ImageAttributed(records, DbgapClasses.PlatformUnitOf);
    ImageAttributed(records, DbgapClasses.PlatformUnitLibOf);
    ImageAttributed(records, DbgapClasses.FieldOf("run_barcode"));
    ImageAttributed(records, DbgapClasses.FieldOf("run_name"));
    ImageAttributed(records, DbgapClasses.FieldOf("machine_name"));
    ImageAttributed(records, DbgapClasses.FieldOf("flowcell_barcode"));
  }

  // ---------------------------------------------------------------------------
  // ReadGroup

  /** A read group as its constructor leaves it. */
  datatype ReadGroup = ReadGroup(
    constants: Constants, submissionMetadata: Option<DbgapClasses.Kits>, aggregates: DbgapClasses.Aggregates)

  /** `ReadGroup(json_object)`: the first record's constants, its metadata's
      "items" sorted by `sub_data_to_dict` (the loop over its own parameter),
      then the aggregates over all records. */
  function ReadGroupOf(jsonObject: Value): Result<ReadGroup> {
    var first :- Item(jsonObject, 0);
    var attrs :- Subscript(first, "attributes");
    var c :- ConstantsOf(attrs);
    var items :- Subscript(c.1, "items");
    var metadata :- DbgapClasses.SubData(items);
    var records :- Iterate(jsonObject);
    var aggregates :- AggregatesOf(records);
    Ok(ReadGroup(c.0, metadata, aggregates))
  }

  /** An empty record list raises IndexError; otherwise the read group takes
      its constants and metadata from the first record's attributes and its
      sets from every record's. */
  lemma ReadGroupOfMeans(jsonObject: Value)
    requires jsonObject.List?
    ensures jsonObject.items == [] ==> ReadGroupOf(jsonObject) == Err(IndexError)
    ensures ReadGroupOf(jsonObject).Ok? ==>
              var attrs := At(jsonObject.items[0], "attributes");
              var rg := ReadGroupOf(jsonObject).value;
              && ConstantsOf(attrs).Ok? && rg.constants == ConstantsOf(attrs).value.0
              && rg.submissionMetadata == DbgapClasses.SubData(At(ConstantsOf(attrs).value.1, "items")).value
              && rg.aggregates == AggregatesOf(jsonObject.items).value
  {
    if jsonObject.items != [] {
      assert Item(jsonObject, 0) == Ok(jsonObject.items[0]);
      assert Iterate(jsonObject) == Ok(jsonObject.items);
    }
  }

  /** `pairing_code`. */
  function PairingCode(c: Constants): string {
    if Truthy(c.pairedRun) then "P" else "S"
  }

  /** `is_paired_end`. */
  function PairedEnd(c: Constants): string {
    if Truthy(c.pairedRun) then "paired-end" else "single-end"
  }

  /** The pairing code and the layout agree: P exactly for a paired-end run. */
  lemma PairingAgrees(c: Constants)
    ensures PairingCode(c) == "P" <==> PairedEnd(c) == "paired-end"
    ensures PairingCode(c) == "P" <==> Truthy(c.pairedRun)
    ensures PairingCode(c) in ["P", "S"] && PairedEnd(c) in ["paired-end", "single-end"]
  {
  }

  /** `get_pdo_or_wr` as written: a truthy product order is returned as it is;
      otherwise the test reads the bare name `work_request_id`, which no scope
      defines, and raises NameError. */
  function PdoOrWrAsWritten(c: Constants): (r: Result<Value>)
    ensures r.Ok? <==> Truthy(c.productOrderId)
    ensures r.Ok? ==> r.value == c.productOrderId
  {
    if Truthy(c.productOrderId) then Ok(c.productOrderId) else Err(NameError("work_request_id"))
  }

  /** `get_pdo_or_wr` as intended: the product order when truthy, else the work
      request when truthy, else "". */
  function PdoOrWr(c: Constants): Value {
    if Truthy(c.productOrderId) then c.productOrderId
    else if Truthy(c.workRequestId) then c.workRequestId
    else Str("")
  }

  /** The intended id never raises, prefers a truthy product order, falls back
      to a truthy work request and is otherwise empty; wherever the code as
      written returns, it returns the same id. */
  lemma PdoOrWrMeans(c: Constants)
    ensures Truthy(c.productOrderId) ==> PdoOrWr(c) == c.productOrderId
    ensures !Truthy(c.productOrderId) && Truthy(c.workRequestId) ==> PdoOrWr(c) == c.workRequestId
    ensures !Truthy(c.productOrderId) && !Truthy(c.workRequestId) ==> PdoOrWr(c) == Str("")
    ensures PdoOrWrAsWritten(c).Ok? ==> PdoOrWrAsWritten(c).value == PdoOrWr(c)
  {
  }

  /** A read group with an empty product order and a work request: the code as
      written raises, the intended id is the work request. */
  lemma PdoOrWrAsWrittenRaises(c: Constants, workRequest: string)
    requires c.productOrderId == Str("") && c.workRequestId == Str(workRequest) && workRequest != ""
    ensures PdoOrWrAsWritten(c) == Err(NameError("work_request_id"))
    ensures PdoOrWr(c) == Str(workRequest)
  {
  }

  // ---------------------------------------------------------------------------
  // ReadGroup: library descriptor and read length

  /** This file's entries: lower-case "random" selection for whole genome, and
      "RNA_SEQ" for the cDNA strategy; hybrid selection as in the newer table. */
  const WholeGenomeShotgun := DbgapClasses.Descriptor("WGS", "whole genome shotgun", "GENOMIC", "genomic DNA", "random")
  const CDnaShotgun := DbgapClasses.Descriptor("RNA_SEQ", "RNA", "TRANSCRIPTOMIC", "transcriptome", "cDNA")

  /** Which branch of `get_library_descriptor` is taken: whole genome first,
      then the cDNA rule, then hybrid selection, else none. */
  function LibraryDescriptor(libraryType: Value, analysisType: Value): Option<DbgapClasses.Descriptor> {
    if libraryType == Str("WholeGenomeShotgun") then Some(WholeGenomeShotgun)
    else if DbgapClasses.CDnaRule(libraryType, analysisType) then Some(CDnaShotgun)
    else if libraryType == Str("HybridSelection") then Some(DbgapClasses.HybridSelection)
    else None
  }

  /** The `{"ncbi_string": ..., "humanized_string": ...}` pair of one part. */
  function Part(ncbi: string, humanized: string): Value {
    Obj([("ncbi_string", Str(ncbi)), ("humanized_string", Str(humanized))])
  }

  /** The dict `get_library_descriptor` returns for a branch: empty strategy and
      source and no selection when no branch applies. */
  function DescriptorDict(d: Option<DbgapClasses.Descriptor>): Dict {
    if d.None? then [("strategy", Obj([])), ("source", Obj([]))]
    else
      [("strategy", Part(d.value.strategyNcbi, d.value.strategyHumanized)),
       ("source", Part(d.value.sourceNcbi, d.value.sourceHumanized)), ("selection", Str(d.value.selection))]
  }

  /** `get_library_descriptor` as it runs: the empty dict is filled in by the
      branch that applies. */
  method GetLibraryDescriptor(libraryType: Value, analysisType: Value) returns (d: Dict)
    ensures d == DescriptorDict(LibraryDescriptor(libraryType, analysisType))
  {
    d := [("strategy", Obj([])), ("source", Obj([]))];
    var entry: DbgapClasses.Descriptor;
    if libraryType == Str("WholeGenomeShotgun") {
      entry := WholeGenomeShotgun;
    } else if DbgapClasses.CDnaRule(libraryType, analysisType) {
      entry := CDnaShotgun;
    } else if libraryType == Str("HybridSelection") {
      entry := DbgapClasses.HybridSelection;
    } else {
      return;
    }
    var strategy := Part(entry.strategyNcbi, entry.strategyHumanized);
    var source := Part(entry.sourceNcbi, entry.sourceHumanized);
    assert "strategy" != "source" && "strategy" != "selection" && "source" != "selection";
    d := Put(d, "strategy", strategy);
    assert d == [("strategy", strategy), ("source", Obj([]))];
    assert d[0].0 != "source" && d[1..] == [("source", Obj([]))];
    assert Put(d[1..], "source", source) == [("source", source)];
    d := Put(d, "source", source);
    assert d == [("strategy", strategy), ("source", source)];
    assert !HasKey(d, "selection") by {
      assert d[1..][1..] == [];
    }
    d := Put(d, "selection", Str(entry.selection));
  }

  /** The branches in order: whole genome whatever the analysis type; then the
      cDNA rule; hybrid selection only when neither applies; no descriptor
      otherwise. */
  lemma LibraryDescriptorMeans(libraryType: Value, analysisType: Value)
    ensures libraryType == Str("WholeGenomeShotgun") ==> LibraryDescriptor(libraryType, analysisType) == Some(WholeGenomeShotgun)
    ensures libraryType != Str("WholeGenomeShotgun") && DbgapClasses.CDnaRule(libraryType, analysisType) ==>
              LibraryDescriptor(libraryType, analysisType) == Some(CDnaShotgun)
    ensures LibraryDescriptor(libraryType, analysisType) == Some(DbgapClasses.HybridSelection) <==>
              libraryType == Str("HybridSelection") && !DbgapClasses.CDnaRule(libraryType, analysisType)
    ensures LibraryDescriptor(libraryType, analysisType).None? <==>
              libraryType !in [Str("WholeGenomeShotgun"), Str("HybridSelection")]
              && !DbgapClasses.CDnaRule(libraryType, analysisType)
  {
  }

  /** `descriptor[part][key]`. */
  function DescriptorText(d: Dict, part: string, key: string): Result<Value> {
    var p :- Lookup(d, part);
    Subscript(p, key)
  }

  /** With a branch taken every part can be read; without one the humanized and
      NCBI strings raise KeyError, and so does the selection. */
  lemma DescriptorDictMeans(d: Option<DbgapClasses.Descriptor>)
    ensures d.Some? ==>
              && DescriptorText(DescriptorDict(d), "strategy", "humanized_string") == Ok(Str(d.value.strategyHumanized))
              && DescriptorText(DescriptorDict(d), "source", "humanized_string") == Ok(Str(d.value.sourceHumanized))
              && DescriptorText(DescriptorDict(d), "strategy", "ncbi_string") == Ok(Str(d.value.strategyNcbi))
              && Lookup(DescriptorDict(d), "selection") == Ok(Str(d.value.selection))
    ensures d.None? ==>
              && DescriptorText(DescriptorDict(d), "strategy", "humanized_string") == Err(KeyError("humanized_string"))
              && DescriptorText(DescriptorDict(d), "source", "humanized_string") == Err(KeyError("humanized_string"))
              && Lookup(DescriptorDict(d), "selection") == Err(KeyError("selection"))
  {
    var dd := DescriptorDict(d);
    assert dd[0].0 != "selection" && dd[1].0 != "selection";
    assert Get(dd, "selection") == Get(dd[1..], "selection") == Get(dd[1..][1..], "selection");
    if d.Some? {
      assert dd[1..][1..][0].0 == "selection";
      PartGet(d.value.strategyNcbi, d.value.strategyHumanized);
      PartGet(d.value.sourceNcbi, d.value.sourceHumanized);
      assert dd[0].0 == "strategy" && dd[1].0 != "strategy" && dd[1].0 == "source";
      assert Get(dd, "source") == Get(dd[1..], "source");
    } else {
      assert dd[1..][1..] == [];
      assert dd[0].0 == "strategy" && dd[1].0 == "source" && dd[0].0 != "source";
      assert Get(dd, "source") == Get(dd[1..], "source");
    }
  }

  /** Both strings of a part can be read. */
  lemma PartGet(ncbi: string, humanized: string)
    ensures Subscript(Part(ncbi, humanized), "ncbi_string") == Ok(Str(ncbi))
    ensures Subscript(Part(ncbi, humanized), "humanized_string") == Ok(Str(humanized))
  {
    var f := Part(ncbi, humanized).fields;
    assert f[0].0 == "ncbi_string" && f[0].0 != "humanized_string";
    assert Get(f, "humanized_string") == Get(f[1..], "humanized_string");
    assert f[1..][0].0 == "humanized_string";
  }

  /** `get_read_length`: int() of the text before the first T; a falsy
      structure raises, naming the root sample, and one that is not text has no
      `split` (AttributeError). */
  function ReadLength(c: Constants): (r: Result<int>)
    ensures !Truthy(c.readStructure) ==>
              r == Err(Raised("read structure not populated for read " + Show(c.rootSampleId)))
    ensures r.Ok? ==> c.readStructure.Str? && ParseInt(Before(c.readStructure.s, 'T')) == r
  {
    if !Truthy(c.readStructure) then Err(Raised("read structure not populated for read " + Show(c.rootSampleId)))
    else if !c.readStructure.Str? then Err(AttributeError("split"))
    else ParseInt(Before(c.readStructure.s, 'T'))
  }

  /** A structure that opens with digits d and then T reads d. */
  lemma ReadLengthOfLeadingDigits(c: Constants, d: string, rest: string)
    requires d != [] && AllDigits(d) && c.readStructure == Str(d + "T" + rest)
    ensures ReadLength(c) == Ok(DigitsValue(d))
  {
    assert 'T' !in d by {
      forall i | 0 <= i < |d| ensures d[i] != 'T' {
        assert IsDigit(d[i]);
      }
    }
    BeforeSeparator(d, rest, 'T');
    ParseIntOfDigits(d);
  }

  /** `get_spot_length`: twice the read length for a paired run, as text. */
  function SpotLength(c: Constants): Result<string> {
    var n :- ReadLength(c);
    Ok(IntToString(if Truthy(c.pairedRun) then n * 2 else n))
  }

  /** The reverse read's base coordinate: the read length plus one, as text. */
  function ReverseBaseCoord(c: Constants): Result<string> {
    var n :- ReadLength(c);
    Ok(IntToString(n + 1))
  }

  /** Both fail exactly when the read length does; parsed back, the spot length
      is twice the read length for a paired run and the read length otherwise,
      and the coordinate is one past it. */
  lemma SpotLengthMeans(c: Constants)
    ensures SpotLength(c).Ok? <==> ReadLength(c).Ok?
    ensures ReverseBaseCoord(c).Ok? <==> ReadLength(c).Ok?
    ensures ReadLength(c).Ok? ==>
              && ParseInt(SpotLength(c).value)
                   == Ok(if Truthy(c.pairedRun) then 2 * ReadLength(c).value else ReadLength(c).value)
              && ParseInt(ReverseBaseCoord(c).value) == Ok(ReadLength(c).value + 1)
  {
    if ReadLength(c).Ok? {
      SpotTextsParse(ReadLength(c).value, Truthy(c.pairedRun));
    }
  }

  /** The spot length and the coordinate texts of a read length parse back. */
  lemma SpotTextsParse(n: int, paired: bool)
    ensures ParseInt(IntToString(if paired then n * 2 else n)) == Ok(if paired then 2 * n else n)
    ensures ParseInt(IntToString(n + 1)) == Ok(n + 1)
  {
    ParseIntOfIntToString(if paired then n * 2 else n);
    ParseIntOfIntToString(n + 1);
  }

  // ---------------------------------------------------------------------------
  // Experiment

  /** The dot-separated parts of the Experiment submitter id, in order: phs,
      order id, library, pairing code, alias, project, the data type constant
      with its spaces made underscores, and version. */
  function ExperimentIdParts(s: Sample, rg: ReadGroup): Result<seq<string>> {
    var pairing := PairingCode(rg.constants);
    var order := PdoOrWr(rg.constants);
    var dataType :- FormattedDataType(s.dataType);
    Ok([s.phs, Show(order), Show(rg.constants.libraryName), pairing, Show(s.alias), Show(s.project),
        Replace(dataType.0, " ", "_"), Show(s.version)])
  }

  /** `Experiment.get_submitter_id`. */
  function ExperimentSubmitterId(s: Sample, rg: ReadGroup): Result<string> {
    var parts :- ExperimentIdParts(s, rg);
    Ok(Join(".", parts))
  }

  /** The id fails exactly when the data type has no entry, with its KeyError;
      the data type part has no spaces; and when no part holds a dot, splitting
      the id at dots gives the parts back. */
  lemma ExperimentSubmitterIdMeans(s: Sample, rg: ReadGroup)
    ensures ExperimentSubmitterId(s, rg).Ok? <==> FormattedDataType(s.dataType).Ok?
    ensures FormattedDataType(s.dataType).Err? ==> ExperimentSubmitterId(s, rg) == Err(FormattedDataType(s.dataType).error)
    ensures ExperimentIdParts(s, rg).Ok? ==> |ExperimentIdParts(s, rg).value| == 8
    ensures ExperimentIdParts(s, rg).Ok? ==> ' ' !in ExperimentIdParts(s, rg).value[6]
    ensures ExperimentIdParts(s, rg).Ok? && (forall i :: 0 <= i < 8 ==> '.' !in ExperimentIdParts(s, rg).value[i]) ==>
              Split(ExperimentSubmitterId(s, rg).value, '.') == ExperimentIdParts(s, rg).value
  {
    if ExperimentIdParts(s, rg).Ok? {
      var parts := ExperimentIdParts(s, rg).value;
      ReplaceChar(FormattedDataType(s.dataType).value.0, ' ', '_');
      if forall i :: 0 <= i < 8 ==> '.' !in parts[i] {
        SplitJoin(parts, '.');
      }
    }
  }

  /** The middle of the title: strategy, source, layout, library and sample. */
  function TitleMiddle(strategy: Value, source: Value, layout: string, library: Value, alias: Value): string {
    Show(strategy) + " sequencing of '" + Show(source) + "' " + layout + " library '" + Show(library)
    + "' containing sample '" + Show(alias)
  }

  /** `get_title`: repository, strategy, source, layout, then library, sample
      and subject inside the f-string. */
  function Title(s: Sample, rg: ReadGroup): (r: Result<string>)
    ensures r.Ok? ==> BiospecimenRepo(s).Ok? && StartsWith(r.value, Show(BiospecimenRepo(s).value) + " Illumina ")
    ensures r.Ok? ==> SubjectString(s).Ok? && EndsWith(r.value, "' " + SubjectString(s).value)
  {
    var repo :- BiospecimenRepo(s);
    var d := DescriptorDict(LibraryDescriptor(rg.constants.libraryType, rg.constants.analysisType));
    var strategy :- DescriptorText(d, "strategy", "humanized_string");
    var source :- DescriptorText(d, "source", "humanized_string");
    var subject :- SubjectString(s);
    var head := Show(repo) + " Illumina ";
    var middle := TitleMiddle(strategy, source, PairedEnd(rg.constants), rg.constants.libraryName, s.alias);
    var tail := "' " + subject;
    Affixes(head, middle, tail);
    Ok(head + middle + tail)
  }

  /** With a repository, the title fails for a read group no descriptor branch
      applies to, with KeyError on the humanized string; with a branch and a
      subject entry it is built. */
  lemma TitleMeans(s: Sample, rg: ReadGroup)
    requires BiospecimenRepo(s).Ok?
    ensures LibraryDescriptor(rg.constants.libraryType, rg.constants.analysisType).None? ==>
              Title(s, rg) == Err(KeyError("humanized_string"))
    ensures LibraryDescriptor(rg.constants.libraryType, rg.constants.analysisType).Some? ==>
              (Title(s, rg).Ok? <==> HasKey(s.sampleInfo, "submitted_subject_id"))
  {
    DescriptorDictMeans(LibraryDescriptor(rg.constants.libraryType, rg.constants.analysisType));
  }

  /** The attributes every experiment carries, in order. */
  function BaseExperimentAttributes(s: Sample, c: Constants): Dict {
    [("aggregation_project", s.project), ("analysis_type", c.analysisType), ("library", c.libraryName),
     ("library_type", c.libraryType), ("lsid", c.sampleLsid), ("material_type", c.sampleMaterialType),
     ("project", s.project), ("research_project", c.researchProjectId), ("target_set", c.baitSet),
     ("work_request_or_pdo", PdoOrWr(c))]
  }

  /** `generate_experiment_attributes`: the ten fixed attributes, the order id
      as it is, then `gssr_id` for a sample barcode that is truthy and prints
      as something. */
  function ExperimentAttributes(s: Sample, rg: ReadGroup): Dict {
    var barcode := rg.constants.sampleBarcode;
    var base := BaseExperimentAttributes(s, rg.constants);
    if Truthy(barcode) && Show(barcode) != "" then base + [("gssr_id", Str(Show(barcode)))] else base
  }

  /** `gssr_id` is added iff the barcode is truthy (the second test never
      excludes anything), always last, and the order id is the tenth attribute. */
  lemma ExperimentAttributesMeans(s: Sample, rg: ReadGroup)
    ensures var d := ExperimentAttributes(s, rg);
            && (|d| == 11 <==> Truthy(rg.constants.sampleBarcode))
            && (|d| == 10 || |d| == 11)
            && d[9] == ("work_request_or_pdo", PdoOrWr(rg.constants))
            && (|d| == 11 ==> d[10] == ("gssr_id", Str(Show(rg.constants.sampleBarcode))))
  {
    ShowEmpty(rg.constants.sampleBarcode);
  }

  /** The text opening a kit: the library preparation kit for the library
      construction dict, the target capture kit for anything else. */
  function KitPrefix(name: string): string {
    if name == "library_construction" then " Library Preparation Kit: " else " Target Capture Kit: "
  }

  /** One kit entry as the loop writes it. */
  function EntryText(e: (string, Value)): string {
    e.0 + "=" + Show(e.1)
  }

  /** The kit entries written one after another, with nothing between them. */
  function EntriesText(d: Dict): string {
    if d == [] then "" else EntriesText(d[..|d| - 1]) + EntryText(d[|d| - 1])
  }

  /** `kit_construction`'s result: nothing without metadata; otherwise the
      prefix, the entries of the named dict (KeyError for another name) and a
      full stop. */
  function KitText(metadata: Option<DbgapClasses.Kits>, name: string): Result<string> {
    if metadata.None? then Ok("")
    else
      var d :- DbgapClasses.KitDict(metadata.value, name);
      Ok(KitPrefix(name) + EntriesText(d) + ".")
  }

  /** `kit_construction` as it runs, appending to the text one entry at a time. */
  method KitConstruction(metadata: Option<DbgapClasses.Kits>, name: string) returns (r: Result<string>)
    ensures r == KitText(metadata, name)
  {
    var kit := "";
    if metadata.None? {
      return Ok(kit);
    }
    kit := kit + KitPrefix(name);
    assert kit == KitPrefix(name);
    var d := DbgapClasses.KitDict(metadata.value, name);
    if d.Err? {
      return Err(d.error);
    }
    kit := AppendEntries(kit, d.value);
    kit := kit + ".";
    return Ok(kit);
  }

  /** The loop of `kit_construction`: `kit_str += f"{key}={value}"` for each
      entry in turn. */
  method AppendEntries(kit: string, entries: Dict) returns (r: string)
    ensures r == kit + EntriesText(entries)
  {
    r := kit;
    var i := 0;
    while i < |entries|
      invariant 0 <= i <= |entries|
      invariant r == kit + EntriesText(entries[..i])
    {
      EntriesTextStep(entries, i);
      r := r + EntryText(entries[i]);
      i := i + 1;
    }
    assert entries[..i] == entries;
  }

  /** One more entry appends its text. */
  lemma EntriesTextStep(d: Dict, i: nat)
    requires i < |d|
    ensures EntriesText(d[..i + 1]) == EntriesText(d[..i]) + EntryText(d[i])
  {
    assert d[..i + 1][..i] == d[..i];
  }

  /** Each entry's text is part of the entries' text. */
  lemma {:induction false} EntriesTextContains(d: Dict, i: nat)
    requires i < |d|
    ensures Contains(EntriesText(d), EntryText(d[i]))
  {
    var front := d[..|d| - 1];
    if i == |d| - 1 {
      var t := EntryText(d[i]);
      ContainsAfter(EntriesText(front), t, t);
      assert Contains(t, t) by {
        assert t[..|t|] == t;
      }
    } else {
      assert front[i] == d[i];
      EntriesTextContains(front, i);
      ContainsBefore(EntriesText(front), EntryText(d[|d| - 1]), EntryText(d[i]));
    }
  }

  /** Without metadata the kit text is empty; with it, the text for either kit
      name opens with that kit's prefix, ends with a full stop and holds each
      entry as key=value. */
  lemma KitTextMeans(metadata: Option<DbgapClasses.Kits>, name: string)
    requires name in ["library_construction", "target_capture"]
    ensures metadata.None? ==> KitText(metadata, name) == Ok("")
    ensures KitText(metadata, name).Ok?
    ensures metadata.Some? ==>
              var d := DbgapClasses.KitDict(metadata.value, name).value;
              && StartsWith(KitText(metadata, name).value, KitPrefix(name))
              && EndsWith(KitText(metadata, name).value, ".")
              && forall i :: 0 <= i < |d| ==> Contains(KitText(metadata, name).value, EntryText(d[i]))
  {
    if metadata.Some? {
      var d := DbgapClasses.KitDict(metadata.value, name).value;
      var head := KitPrefix(name);
      var body := EntriesText(d);
      Affixes(head, body, ".");
      forall i | 0 <= i < |d| ensures Contains(head + body + ".", EntryText(d[i])) {
        EntriesTextContains(d, i);
        ContainsBefore(body, ".", EntryText(d[i]));
        ContainsAfter(head, body + ".", EntryText(d[i]));
        assert head + (body + ".") == head + body + ".";
      }
    }
  }

  /** `get_design_description`: the selection (KeyError when no descriptor
      branch applies), then the two kit texts. */
  function DesignDescription(rg: ReadGroup): Result<string> {
    var d := DescriptorDict(LibraryDescriptor(rg.constants.libraryType, rg.constants.analysisType));
    var selection :- Lookup(d, "selection");
    var library :- KitText(rg.submissionMetadata, "library_construction");
    var target :- KitText(rg.submissionMetadata, "target_capture");
    Ok("Illumina sequencing of Homo sapiens via " + Show(selection) + library + target)
  }

  /** The description fails iff no descriptor branch applies, with KeyError on
      the selection; without metadata it is the selection alone. */
  lemma DesignDescriptionMeans(rg: ReadGroup)
    ensures var d := LibraryDescriptor(rg.constants.libraryType, rg.constants.analysisType);
            && (DesignDescription(rg).Err? <==> d.None?)
            && (d.None? ==> DesignDescription(rg) == Err(KeyError("selection")))
            && (d.Some? && rg.submissionMetadata.None? ==>
                  DesignDescription(rg) == Ok("Illumina sequencing of Homo sapiens via " + d.value.selection))
  {
    var d := LibraryDescriptor(rg.constants.libraryType, rg.constants.analysisType);
    DescriptorDictMeans(d);
    KitTextMeans(rg.submissionMetadata, "library_construction");
    KitTextMeans(rg.submissionMetadata, "target_capture");
    assert KitText(rg.submissionMetadata, "library_construction").Ok?;
    assert KitText(rg.submissionMetadata, "target_capture").Ok?;
    if d.Some? {
      assert Show(Str(d.value.selection)) == d.value.selection;
      assert DesignDescription(rg).Ok?;
      if rg.submissionMetadata.None? {
        var text := "Illumina sequencing of Homo sapiens via " + d.value.selection;
        assert text + "" + "" == text;
      }
    }
  }

  // ---------------------------------------------------------------------------
  // Run

  /** `Run.file_type`: `data_file.split(".")[-1]`, which only text has. */
  function FileType(s: Sample): (r: Result<string>)
    ensures r.Ok? <==> s.dataFile.Str?
    ensures r.Ok? ==> '.' !in r.value && EndsWith(s.dataFile.s, r.value)
    ensures r.Ok? ==> r.value == Split(s.dataFile.s, '.')[|Split(s.dataFile.s, '.')| - 1]
  {
    if s.dataFile.Str? then Ok(AfterLast(s.dataFile.s, '.')) else Err(AttributeError("split"))
  }

  /** The file type of a name ending in a dot and a dot-free extension is that
      extension. */
  lemma FileTypeOfName(s: Sample, name: string, extension: string)
    requires s.dataFile == Str(name + "." + extension) && '.' !in extension
    ensures FileType(s) == Ok(extension)
  {
    DbgapClasses.AfterLastSuffix(name, extension, '.');
  }

  /** `Run.get_submitter_id`: the flowcell barcodes dot-joined in the set's
      iteration order `order`, then alias, project, version and file type. */
  function RunSubmitterId(s: Sample, rg: ReadGroup, order: set<Value> -> seq<Value>): Result<string> {
    var flowcells :- JoinTexts(".", order(rg.aggregates.flowcellBarcodes));
    var fileType :- FileType(s);
    Ok(flowcells + "." + Show(s.alias) + "." + Show(s.project) + "." + Show(s.version) + "." + fileType)
  }

  /** The run id fails iff a flowcell barcode is not text or the data file is
      not text; it ends with the file type after the last dot; and a read group
      on one flowcell opens its id with that barcode. */
  lemma RunSubmitterIdMeans(s: Sample, rg: ReadGroup, order: set<Value> -> seq<Value>)
    ensures RunSubmitterId(s, rg, order).Ok? <==>
              (forall i :: 0 <= i < |order(rg.aggregates.flowcellBarcodes)| ==> order(rg.aggregates.flowcellBarcodes)[i].Str?)
              && s.dataFile.Str?
    ensures RunSubmitterId(s, rg, order).Ok? ==>
              AfterLast(RunSubmitterId(s, rg, order).value, '.') == FileType(s).value
  {
    if RunSubmitterId(s, rg, order).Ok? {
      var flowcells := JoinTexts(".", order(rg.aggregates.flowcellBarcodes)).value;
      var front := flowcells + "." + Show(s.alias) + "." + Show(s.project) + "." + Show(s.version);
      assert RunSubmitterId(s, rg, order).value == front + ['.'] + FileType(s).value;
      DbgapClasses.AfterLastSuffix(front, FileType(s).value, '.');
    }
  }

  /** A read group on a single flowcell opens its run id with that barcode,
      whatever the iteration order. */
  lemma RunSubmitterIdOfOneFlowcell(s: Sample, rg: ReadGroup, order: set<Value> -> seq<Value>, f: string)
    requires rg.aggregates.flowcellBarcodes == {Str(f)} && DbgapClasses.Enumerates({Str(f)}, order({Str(f)}))
    requires s.dataFile.Str?
    ensures RunSubmitterId(s, rg, order)
              == Ok(f + "." + Show(s.alias) + "." + Show(s.project) + "." + Show(s.version) + "."
                    + AfterLast(s.dataFile.s, '.'))
  {
    var items := order({Str(f)});
    DbgapClasses.EnumeratesSingleton(Str(f), items);
    assert seq(|items|, i requires 0 <= i < |items| => items[i].s) == [f];
  }

  // ---------------------------------------------------------------------------
  // Where this file and the newer one differ

  /** A read structure of digits, T, then no segment letters (such as
      "151T151T"): this file reads the leading number, the newer one finds no
      `[SBM]<digits>T` segment and reads 0. */
  lemma ReadLengthsDifferWithoutSegments(c: Constants, d: string, rest: string)
    requires d != [] && AllDigits(d) && c.readStructure == Str(d + "T" + rest)
    requires forall i :: 0 <= i < |rest| ==> rest[i] !in "SBM"
    ensures ReadLength(c) == Ok(DigitsValue(d))
    ensures DbgapClasses.ReadLength(c.readStructure) == Ok(0)
  {
    ReadLengthOfLeadingDigits(c, d, rest);
    NoSegmentLetterAfterDigits(d, rest);
    DbgapClasses.ReadLengthNoSegmentLetter(d + "T" + rest);
  }

  /** Digits, T, and text without segment letters hold no segment letter. */
  lemma NoSegmentLetterAfterDigits(d: string, rest: string)
    requires AllDigits(d) && forall i :: 0 <= i < |rest| ==> rest[i] !in "SBM"
    ensures forall i :: 0 <= i < |d + "T" + rest| ==> (d + "T" + rest)[i] !in "SBM"
  {
    var s := d + "T" + rest;
    forall i | 0 <= i < |s| ensures s[i] !in "SBM" {
      if i < |d| {
        assert s[i] == d[i] && IsDigit(d[i]);
      } else if i > |d| {
        assert s[i] == rest[i - |d| - 1];
      }
    }
  }

  /** A read structure opening with a segment letter (such as "S71T8B"): the
      newer file reads the digits after it, this one cannot parse the text
      before the first T and raises ValueError. */
  lemma ReadLengthsDifferOnLeadingSegment(c: Constants, letter: char, d: string, rest: string)
    requires letter in "SBM" && d != [] && AllDigits(d) && c.readStructure == Str([letter] + d + "T" + rest)
    ensures ReadLength(c).Err? && ReadLength(c).error.ValueError?
    ensures DbgapClasses.ReadLength(c.readStructure) == Ok(DigitsValue(d))
  {
    DbgapClasses.ReadLengthOfLeadingSegment(letter, d, rest);
    var head := [letter] + d;
    assert 'T' !in head by {
      forall i | 0 <= i < |head| ensures head[i] != 'T' {
        if i > 0 {
          assert head[i] == d[i - 1] && IsDigit(d[i - 1]);
        }
      }
    }
    assert [letter] + d + "T" + rest == head + ['T'] + rest;
    BeforeSeparator(head, rest, 'T');
    NumeralNotSpace(head[|head| - 1]);
    assert !IsSpace(head[0]);
    StripUnpadded(head);
    assert !IsDigit(head[0]);
  }

  /** A hybrid selection library analysed as cDNA: this file's cDNA rule comes
      before the hybrid selection branch, the newer table answers hybrid
      selection first. */
  lemma DescriptorsDifferOnHybridCDna()
    ensures LibraryDescriptor(Str("HybridSelection"), Str("cDNA")) == Some(CDnaShotgun)
    ensures DbgapClasses.LibraryDescriptor(Str("HybridSelection"), Str("cDNA")) == Ok(DbgapClasses.HybridSelection)
  {
    DbgapClasses.LibraryDescriptorOfTable(Str("HybridSelection"), Str("cDNA"));
  }

  /** The same branches name their entries differently: whole genome selection
      "random" against "RANDOM", and the cDNA strategy "RNA_SEQ" against
      "RNA-Seq". */
  lemma DescriptorEntriesDiffer()
    ensures WholeGenomeShotgun.selection == "random" && DbgapClasses.WholeGenomeShotgun.selection == "RANDOM"
    ensures CDnaShotgun.strategyNcbi == "RNA_SEQ" && DbgapClasses.CDnaShotgun.strategyNcbi == "RNA-Seq"
    ensures WholeGenomeShotgun != DbgapClasses.WholeGenomeShotgun && CDnaShotgun != DbgapClasses.CDnaShotgun
  {
  }

  /** WXS has no entry in this file's table (KeyError) and is exome in the
      newer one; a data type outside both tables is KeyError here and "Unknown"
      there. */
  lemma DataTypesDiffer(dataType: string)
    ensures FormattedDataType(Str("WXS")) == Err(KeyError("WXS"))
    ensures DbgapClasses.FormattedDataType(Str("WXS")) == Ok(("Whole Exome", "Whole Exome Sequencing"))
    ensures DbgapClasses.DataTypeMapping(dataType).None? ==>
              FormattedDataType(Str(dataType)) == Err(KeyError(dataType))
              && DbgapClasses.FormattedDataType(Str(dataType)) == Ok(DbgapClasses.UnknownDataType)
  {
  }
}
