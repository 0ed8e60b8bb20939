/**
 * The metadata of an aligned-reads file submitted to GDC
 * (src/scripts/gdc/submit_metadata.py): a submission names its file after the
 * sample, the data type and the aggregation project, and lists the submitter
 * ids of the read groups it was aligned from.
 */
module GdcSubmitMetadata {
  import opened Outcome
  import opened Python
  import opened Each
  import CreateSampleTsv
  import GdcExtractReadsData

  /** A submission's settings as its constructor stores them, and the submitter
      id formed from them. */
  datatype MetadataSubmission = MetadataSubmission(
    program: Value, project: Value, token: Value, sampleAlias: Value, aggregationPath: Value,
    aggProject: Value, dataType: Value, fileSize: Value, md5: Value, readGroupFile: Value,
    submitterId: string)

  /** `MetadataSubmission(...)`: every argument kept, and the submitter id
      `f"{sample_alias}.{data_type}.{agg_project}"`. */
  function NewSubmission(program: Value, project: Value, token: Value, sampleAlias: Value, aggregationPath: Value,
                         aggProject: Value, dataType: Value, fileSize: Value, md5: Value, readGroupFile: Value)
    : MetadataSubmission
  {
    MetadataSubmission(program, project, token, sampleAlias, aggregationPath, aggProject, dataType, fileSize, md5,
                       readGroupFile, Join(".", [Show(sampleAlias), Show(dataType), Show(aggProject)]))
  }

  /** The submitter id falls apart at its dots into alias, data type and
      aggregation project when none of them holds a dot. */
  lemma SubmitterIdParts(program: Value, project: Value, token: Value, sampleAlias: Value, aggregationPath: Value,
                         aggProject: Value, dataType: Value, fileSize: Value, md5: Value, readGroupFile: Value)
    requires '.' !in Show(sampleAlias) && '.' !in Show(dataType) && '.' !in Show(aggProject)
    ensures var m := NewSubmission(program, project, token, sampleAlias, aggregationPath, aggProject, dataType,
                                    fileSize, md5, readGroupFile);
            Split(m.submitterId, '.') == [Show(sampleAlias), Show(dataType), Show(aggProject)]
  {
    SplitJoin([Show(sampleAlias), Show(dataType), Show(aggProject)], '.');
  }

  // ---------------------------------------------------------------------------
  // The experimental strategy

  /** DATA_TYPE_TO_EXPERIMENT_STRATEGY. */
  const ExperimentStrategies: Dict :=
    [("WGS", Str("WGS")), ("Exome", Str("WXS")), ("WXS", Str("WXS")), ("RNA", Str("RNA-Seq")),
     ("Custom_Selection", Str("Targeted Sequencing"))]

  /** `DATA_TYPE_TO_EXPERIMENT_STRATEGY.get(data_type, "")`: a list or a dict is
      unhashable, and any other value the table lacks gives "". */
  function ExperimentalStrategy(dataType: Value): Result<Value> {
    match dataType
    case Str(s) => Ok(GetOr(ExperimentStrategies, s, Str("")))
    case List(_) => Err(TypeError("unhashable type: 'list'"))
    case Obj(_) => Err(TypeError("unhashable type: 'dict'"))
    case _ => Ok(Str(""))
  }

  /** The table's entries, one key after another. */
  lemma StrategiesGet(k: string)
    ensures Get(ExperimentStrategies, k) ==
              if k == "WGS" then Some(Str("WGS")) else if k == "Exome" then Some(Str("WXS"))
              else if k == "WXS" then Some(Str("WXS")) else if k == "RNA" then Some(Str("RNA-Seq"))
              else if k == "Custom_Selection" then Some(Str("Targeted Sequencing")) else None
  {
    var d0 := ExperimentStrategies;
    var d1 := d0[1..];
    var d2 := d1[1..];
    var d3 := d2[1..];
    var d4 := d3[1..];
    assert d0[0].0 == "WGS" && d1[0].0 == "Exome" && d2[0].0 == "WXS" && d3[0].0 == "RNA";
    assert d4[0].0 == "Custom_Selection" && d4[1..] == [];
    assert Get(d0, k) == if k == "WGS" then Some(Str("WGS")) else Get(d1, k);
    assert Get(d1, k) == if k == "Exome" then Some(Str("WXS")) else Get(d2, k);
    assert Get(d2, k) == if k == "WXS" then Some(Str("WXS")) else Get(d3, k);
    assert Get(d3, k) == if k == "RNA" then Some(Str("RNA-Seq")) else Get(d4, k);
    assert Get(d4, k) == if k == "Custom_Selection" then Some(Str("Targeted Sequencing")) else None;
  }

  /** WGS stays WGS, Exome and WXS give WXS, RNA gives RNA-Seq, Custom_Selection
      gives Targeted Sequencing, an unhashable data type raises TypeError, and
      everything else gives "". */
  lemma ExperimentalStrategyMeans(dataType: Value)
    ensures dataType == Str("WGS") ==> ExperimentalStrategy(dataType) == Ok(Str("WGS"))
    ensures dataType in [Str("Exome"), Str("WXS")] ==> ExperimentalStrategy(dataType) == Ok(Str("WXS"))
    ensures dataType == Str("RNA") ==> ExperimentalStrategy(dataType) == Ok(Str("RNA-Seq"))
    ensures dataType == Str("Custom_Selection") ==> ExperimentalStrategy(dataType) == Ok(Str("Targeted Sequencing"))
    ensures dataType.List? || dataType.Obj? ==> ExperimentalStrategy(dataType).Err? && ExperimentalStrategy(dataType).error.TypeError?
    ensures !dataType.List? && !dataType.Obj?
            && dataType !in [Str("WGS"), Str("Exome"), Str("WXS"), Str("RNA"), Str("Custom_Selection")] ==>
              ExperimentalStrategy(dataType) == Ok(Str(""))
  {
    if dataType.Str? {
      StrategiesGet(dataType.s);
    }
  }

  // ---------------------------------------------------------------------------
  // The read groups

  /** The read-group entry for one read group: its submitter id
      `f"{flow_cell_barcode}.{lane_number}.{constant}"`. */
  function ReadGroupEntry(constant: string): Value -> Result<Value> {
    readGroup =>
      var id :- CreateSampleTsv.ReadGroupId(readGroup, constant);
      Ok(Obj([("submitter_id", Str(id))]))
  }

  /** What `get_read_groups` returns for the read groups the file holds (given
      here as a parsed JSON value). */
  function ReadGroupIds(m: MetadataSubmission, readGroups: Value): Result<seq<Value>> {
    var constant := Join(".", [Show(m.aggProject), Show(m.sampleAlias)]);
    var items :- Iterate(readGroups);
    Mapped(items, ReadGroupEntry(constant))
  }

  /** `get_read_groups`: a loop appending one entry per read group. */
  method GetReadGroups(m: MetadataSubmission, readGroups: Value) returns (r: Result<seq<Value>>)
    ensures r == ReadGroupIds(m, readGroups)
  {
    var constant := Join(".", [Show(m.aggProject), Show(m.sampleAlias)]);
    var items := Iterate(readGroups);
    if items.Err? {
      return Err(items.error);
    }
    r := AppendEach(items.value, ReadGroupEntry(constant));
  }

  /** The submitter id of a read group: barcode, lane, aggregation project and
      sample alias joined by dots. */
  function GroupId(m: MetadataSubmission, readGroup: Value): string {
    Join(".", [Show(At(readGroup, "flow_cell_barcode")), Show(At(readGroup, "lane_number")),
               Show(m.aggProject), Show(m.sampleAlias)])
  }

  /** One entry per read group, in order, holding only that read group's
      submitter id; the list is built iff every read group is a dict with a
      barcode and a lane number. */
  lemma ReadGroupIdsInOrder(m: MetadataSubmission, readGroups: Value)
    requires readGroups.List?
    ensures var groups := readGroups.items;
            ReadGroupIds(m, readGroups).Ok? <==>
              forall j :: 0 <= j < |groups| ==>
                groups[j].Obj? && HasKey(groups[j].fields, "flow_cell_barcode") && HasKey(groups[j].fields, "lane_number")
    ensures var groups := readGroups.items;
            ReadGroupIds(m, readGroups).Ok? ==>
              |ReadGroupIds(m, readGroups).value| == |groups|
              && forall j :: 0 <= j < |groups| ==>
                   ReadGroupIds(m, readGroups).value[j] == Obj([("submitter_id", Str(GroupId(m, groups[j])))])
  {
    var constant := Join(".", [Show(m.aggProject), Show(m.sampleAlias)]);
    var groups := readGroups.items;
    MappedSucceeds(groups, ReadGroupEntry(constant));
    forall j | 0 <= j < |groups| {
      ReadGroupEntryMeans(m, groups[j]);
    }
  }

  /** The entry of one read group holds its submitter id, and it is built iff the
      read group is a dict with a barcode and a lane number. */
  lemma ReadGroupEntryMeans(m: MetadataSubmission, readGroup: Value)
    ensures var e := ReadGroupEntry(Join(".", [Show(m.aggProject), Show(m.sampleAlias)]))(readGroup);
            && (e.Ok? <==> readGroup.Obj? && HasKey(readGroup.fields, "flow_cell_barcode")
                           && HasKey(readGroup.fields, "lane_number"))
            && (e.Ok? ==> e.value == Obj([("submitter_id", Str(GroupId(m, readGroup)))]))
  {
    var barcode := At(readGroup, "flow_cell_barcode");
    var lane := At(readGroup, "lane_number");
    GdcExtractReadsData.SubmitterIdJoin(barcode, lane, m.aggProject, m.sampleAlias);
  }

  // ---------------------------------------------------------------------------
  // create_metadata

  /** The keys of the metadata, in the order of the dict display. */
  const MetadataKeys: seq<string> :=
    ["file_name", "submitter_id", "data_category", "type", "file_size", "data_type", "experimental_strategy",
     "data_format", "project_id", "md5sum", "proc_internal", "read_groups"]

  lemma MetadataKeysDistinct()
    ensures Distinct(MetadataKeys)
  {
  }

  /** The values of the metadata, in the order of its keys. */
  function MetadataValues(m: MetadataSubmission, size: int, strategy: Value, groups: seq<Value>): (r: seq<Value>)
    ensures |r| == |MetadataKeys|
  {
    [Str(m.submitterId + ".bam"), Str(m.submitterId), Str("Sequencing Reads"), Str("submitted_aligned_reads"),
     Int(size), Str("Aligned Reads"), strategy, Str("BAM"), Str(Show(m.program) + "-" + Show(m.project)),
     m.md5, Str("dna-seq skip"), List(groups)]
  }

  /** `create_metadata`, with the read groups the file holds given as a parsed
      JSON value: the display's values are evaluated left to right, so int() of
      the file size is tried first, then the strategy table, then the read groups. */
  function CreateMetadata(m: MetadataSubmission, readGroups: Value): Result<Value> {
    var size :- PyInt(m.fileSize);
    var strategy :- ExperimentalStrategy(m.dataType);
    var groups :- ReadGroupIds(m, readGroups);
    Ok(Obj(Display(MetadataKeys, MetadataValues(m, size, strategy, groups))))
  }

  /** The metadata is built iff the file size converts, the data type is hashable
      and the read groups can be listed; a file size int() refuses decides the
      exception. */
  lemma CreateMetadataSucceeds(m: MetadataSubmission, readGroups: Value)
    ensures CreateMetadata(m, readGroups).Ok? <==>
              PyInt(m.fileSize).Ok? && !m.dataType.List? && !m.dataType.Obj? && ReadGroupIds(m, readGroups).Ok?
    ensures PyInt(m.fileSize).Err? ==> CreateMetadata(m, readGroups) == Err(PyInt(m.fileSize).error)
  {
    ExperimentalStrategyMeans(m.dataType);
  }

  /** The file is the submitter id with ".bam", the size is int() of the given
      size, the strategy comes from the table, the project id is
      "{program}-{project}", the md5 is passed on, and the read groups are those
      `get_read_groups` lists. */
  lemma CreateMetadataFields(m: MetadataSubmission, readGroups: Value)
    requires CreateMetadata(m, readGroups).Ok?
    ensures var r := CreateMetadata(m, readGroups).value;
            r.Obj?
            && Get(r.fields, "file_name") == Some(Str(m.submitterId + ".bam"))
            && Get(r.fields, "submitter_id") == Some(Str(m.submitterId))
            && Get(r.fields, "file_size") == Some(Int(PyInt(m.fileSize).value))
            && Get(r.fields, "experimental_strategy") == Some(ExperimentalStrategy(m.dataType).value)
            && Get(r.fields, "project_id") == Some(Str(Show(m.program) + "-" + Show(m.project)))
            && Get(r.fields, "md5sum") == Some(m.md5)
            && Get(r.fields, "read_groups") == Some(List(ReadGroupIds(m, readGroups).value))
  {
    var values := MetadataValues(m, PyInt(m.fileSize).value, ExperimentalStrategy(m.dataType).value,
                                 ReadGroupIds(m, readGroups).value);
    assert CreateMetadata(m, readGroups).value == Obj(Display(MetadataKeys, values));
    MetadataGet(m, PyInt(m.fileSize).value, ExperimentalStrategy(m.dataType).value, ReadGroupIds(m, readGroups).value);
  }

  /** The display's values by key. */
  lemma MetadataGet(m: MetadataSubmission, size: int, strategy: Value, groups: seq<Value>)
    ensures var d := Display(MetadataKeys, MetadataValues(m, size, strategy, groups));
            && Get(d, "file_name") == Some(Str(m.submitterId + ".bam"))
            && Get(d, "submitter_id") == Some(Str(m.submitterId))
            && Get(d, "file_size") == Some(Int(size))
            && Get(d, "experimental_strategy") == Some(strategy)
            && Get(d, "project_id") == Some(Str(Show(m.program) + "-" + Show(m.project)))
            && Get(d, "md5sum") == Some(m.md5)
            && Get(d, "read_groups") == Some(List(groups))
  {
    var values := MetadataValues(m, size, strategy, groups);
    MetadataKeysDistinct();
    DisplayGet(MetadataKeys, values, 0);
    DisplayGet(MetadataKeys, values, 1);
    DisplayGet(MetadataKeys, values, 4);
    DisplayGet(MetadataKeys, values, 6);
    DisplayGet(MetadataKeys, values, 8);
    DisplayGet(MetadataKeys, values, 9);
    DisplayGet(MetadataKeys, values, 11);
  }
}
