/**
 * The linked entities a sample is registered with in the genomic data commons:
 * a case, a sample that refers to the case, an aliquot that refers to the
 * sample, and one read group per read group of the sample metadata, each
 * referring to the aliquot.  Submitter ids are built from the program, the
 * project and the sample alias, so the references agree by construction.
 */
module LinkGdcEntities {
  import opened Outcome
  import opened Python
  import opened Each
  import opened CreateSampleTsv

  /** `f"{program}-{project}-0001"`, the case's submitter id. */
  function CaseId(program: Value, project: Value): string {
    Show(program) + "-" + Show(project) + "-0001"
  }

  /** `f"{sample_alias}-sample"`, the sample's submitter id. */
  function SampleId(alias: Value): string {
    Show(alias) + "-sample"
  }

  /** `createCase`. */
  function Case(program: Value, project: Value): Value {
    Obj([("type", Str("case")), ("projects", Obj([("code", project)])), ("submitter_id", Str(CaseId(program, project)))])
  }

  /** `createSample`: KeyError when the sample metadata has no alias. */
  function Sample(sampleMetadata: Dict, program: Value, project: Value): Result<Value> {
    var alias :- Lookup(sampleMetadata, "sample_alias");
    Ok(Obj([("type", Str("sample")), ("cases", Obj([("submitter_id", Str(CaseId(program, project)))])),
            ("submitter_id", Str(SampleId(alias))), ("sample_type", Str("Primary Tumor")), ("tissue_type", Str("Tumor"))]))
  }

  /** `createAliquot`: KeyError when the sample metadata has no alias. */
  function Aliquot(sampleMetadata: Dict): Result<Value> {
    var alias :- Lookup(sampleMetadata, "sample_alias");
    Ok(Obj([("type", Str("aliquot")), ("samples", Obj([("submitter_id", Str(SampleId(alias)))])), ("submitter_id", alias)]))
  }

  /** The keys of a read group the new read-group entity reads, in the order the
      dict display evaluates them ("lane_number" twice: once for the submitter id,
      once for its own entry). */
  const ReadGroupKeys: seq<string> :=
    ["flow_cell_barcode", "lane_number", "experiment_name", "sequencing_center", "platform",
     "library_selection", "library_strategy", "library_name", "lane_number", "is_paired_end",
     "read_length", "read_group_name", "target_capture_kit"]

  /** `[v[k] for k in keys]`, evaluated left to right: the first key that cannot
      be read decides the exception. */
  function Fetch(v: Value, keys: seq<string>): (r: Result<seq<Value>>)
    ensures r.Ok? ==> |r.value| == |keys|
  {
    if keys == [] then Ok([])
    else
      var front :- Fetch(v, keys[..|keys| - 1]);
      var last :- Subscript(v, keys[|keys| - 1]);
      Ok(front + [last])
  }

  /** All the keys can be read iff the value is an object holding all of them, and
      then each read gives that key's value; otherwise the first missing key is
      the KeyError (a value that is not an object raises TypeError). */
  lemma {:induction false} FetchMeans(v: Value, keys: seq<string>)
    ensures Fetch(v, keys).Ok? <==> keys == [] || (v.Obj? && forall i :: 0 <= i < |keys| ==> HasKey(v.fields, keys[i]))
    ensures Fetch(v, keys).Ok? ==> forall i :: 0 <= i < |keys| ==> Fetch(v, keys).value[i] == At(v, keys[i])
    ensures keys != [] && !v.Obj? ==> Fetch(v, keys).Err? && Fetch(v, keys).error.TypeError?
    ensures forall j :: 0 <= j < |keys| && v.Obj? && !HasKey(v.fields, keys[j])
                        && (forall i :: 0 <= i < j ==> HasKey(v.fields, keys[i])) ==>
                          Fetch(v, keys) == Err(KeyError(keys[j]))
  {
    if keys != [] {
      var front := keys[..|keys| - 1];
      FetchMeans(v, front);
      assert forall i :: 0 <= i < |front| ==> front[i] == keys[i];
      if v.Obj? && Fetch(v, front).Ok? && HasKey(v.fields, keys[|keys| - 1]) {
        assert Lookup(v.fields, keys[|keys| - 1]).value == At(v, keys[|keys| - 1]);
      }
    }
  }

  /** The entries of the read-group entity's dict display, in the order written:
      "platform" occurs twice, first with the read group's platform and last with
      "Illumina". */
  function ReadGroupEntries(alias: Value, id: string, vs: seq<Value>): seq<(string, Value)>
    requires |vs| == |ReadGroupKeys|
  {
    [("type", Str("read_group")), ("aliquots", Obj([("submitter_id", alias)])), ("submitter_id", Str(id)),
     ("experiment_name", vs[2]), ("sequencing_center", vs[3]), ("platform", vs[4]),
     ("library_selection", vs[5]), ("library_strategy", vs[6]), ("library_name", vs[7]),
     ("lane_number", vs[8]), ("is_paired_end", vs[9]), ("read_length", vs[10]),
     ("read_group_name", vs[11]), ("target_capture_kit", vs[12]),
     ("to_trim_adapter_sequence", Bool(true)), ("platform", Str("Illumina"))]
  }

  /** The body of the loop of `createReadGroups` for one read group: the alias is
      read, then the read group's keys from left to right. */
  function ReadGroupEntity(readGroup: Value, sampleMetadata: Dict, constant: string): Result<Value> {
    var alias :- Lookup(sampleMetadata, "sample_alias");
    var vs :- Fetch(readGroup, ReadGroupKeys);
    Ok(EntityOf(alias, Join(".", [Show(vs[0]), Show(vs[1]), constant]), vs))
  }

  /** The dict the display of `ReadGroupEntries` builds: the read group's platform
      is replaced by "Illumina", which keeps the first "platform" position. */
  function EntityOf(alias: Value, id: string, vs: seq<Value>): Value
    requires |vs| == |ReadGroupKeys|
  {
    Obj([("type", Str("read_group")), ("aliquots", Obj([("submitter_id", alias)])), ("submitter_id", Str(id)),
         ("experiment_name", vs[2]), ("sequencing_center", vs[3]), ("platform", Str("Illumina")),
         ("library_selection", vs[5]), ("library_strategy", vs[6]), ("library_name", vs[7]),
         ("lane_number", vs[8]), ("is_paired_end", vs[9]), ("read_length", vs[10]),
         ("read_group_name", vs[11]), ("target_capture_kit", vs[12]),
         ("to_trim_adapter_sequence", Bool(true))])
  }

  /** The keys of a read-group entity, in order. */
  const EntityKeys: seq<string> :=
    ["type", "aliquots", "submitter_id", "experiment_name", "sequencing_center", "platform",
     "library_selection", "library_strategy", "library_name", "lane_number", "is_paired_end", "read_length",
     "read_group_name", "target_capture_kit", "to_trim_adapter_sequence"]

  lemma EntityKeysDiffer()
    ensures forall i, j :: 0 <= i < j < |EntityKeys| ==> EntityKeys[i] != EntityKeys[j]
  {
  }

  /** The entity has the keys `EntityKeys`, in order. */
  lemma EntityKeysOf(alias: Value, id: string, vs: seq<Value>)
    requires |vs| == |ReadGroupKeys|
    ensures |EntityOf(alias, id, vs).fields| == |EntityKeys|
    ensures forall i :: 0 <= i < |EntityKeys| ==> EntityOf(alias, id, vs).fields[i].0 == EntityKeys[i]
  {
  }

  /** No key of the entity occurs twice. */
  lemma EntityKeysDistinct(alias: Value, id: string, vs: seq<Value>)
    requires |vs| == |ReadGroupKeys|
    ensures DistinctKeys(EntityOf(alias, id, vs).fields)
  {
    EntityKeysDiffer();
    EntityKeysOf(alias, id, vs);
  }

  /** The display's entries before the second "platform" are the entity's, with
      the read group's own platform in the "platform" place. */
  lemma EntriesFront(alias: Value, id: string, vs: seq<Value>)
    requires |vs| == |ReadGroupKeys|
    ensures var e := ReadGroupEntries(alias, id, vs);
            |e| == 16 && e[15] == ("platform", Str("Illumina"))
            && e[..15] == EntityOf(alias, id, vs).fields[5 := ("platform", vs[4])]
  {
    var e := ReadGroupEntries(alias, id, vs);
    assert forall i :: 0 <= i < 15 ==> e[i] == if i == 5 then ("platform", vs[4]) else EntityOf(alias, id, vs).fields[i];
  }

  /** The dict display evaluates to the entity: fifteen keys in the order written,
      the later "platform" value in the place of the first. */
  lemma EntityOfIsDisplay(alias: Value, id: string, vs: seq<Value>)
    requires |vs| == |ReadGroupKeys|
    ensures DictOf(ReadGroupEntries(alias, id, vs)) == EntityOf(alias, id, vs).fields
  {
    var entries := ReadGroupEntries(alias, id, vs);
    var fields := EntityOf(alias, id, vs).fields;
    var front := entries[..15];
    EntityKeysOf(alias, id, vs);
    EntityKeysDistinct(alias, id, vs);
    EntriesFront(alias, id, vs);
    FrontDistinct(fields, front, vs[4]);
    assert DictOf(entries) == Put(DictOf(front), "platform", Str("Illumina"));
    DictOfDistinct(front);
    PutExisting(front, 5, Str("Illumina"));
  }

  lemma FrontDistinct(fields: Dict, front: Dict, platform: Value)
    requires |fields| == |EntityKeys| && DistinctKeys(fields) && fields[5] == ("platform", Str("Illumina"))
    requires front == fields[5 := ("platform", platform)]
    ensures DistinctKeys(front) && front[5].0 == "platform"
    ensures front[5 := ("platform", Str("Illumina"))] == fields
  {
    DistinctUpdate(fields, 5, platform);
  }

  /** Each key of the entity looks up the value stored with it. */
  lemma EntityLookup(alias: Value, id: string, vs: seq<Value>, i: nat)
    requires |vs| == |ReadGroupKeys| && i < |EntityKeys|
    ensures Get(EntityOf(alias, id, vs).fields, EntityKeys[i]) == Some(EntityOf(alias, id, vs).fields[i].1)
  {
    EntityKeysOf(alias, id, vs);
    EntityKeysDistinct(alias, id, vs);
    GetAt(EntityOf(alias, id, vs).fields, i);
  }

  /** The entity refers to the aliquot by the alias, carries the submitter id, and
      its platform is "Illumina". */
  lemma EntityOfFields(alias: Value, id: string, vs: seq<Value>)
    requires |vs| == |ReadGroupKeys|
    ensures var e := EntityOf(alias, id, vs).fields;
            && Get(e, "type") == Some(Str("read_group"))
            && Get(e, "aliquots") == Some(Obj([("submitter_id", alias)]))
            && Get(e, "submitter_id") == Some(Str(id))
            && Get(e, "platform") == Some(Str("Illumina"))
            && Get(e, "to_trim_adapter_sequence") == Some(Bool(true))
  {
    EntityLookup(alias, id, vs, 0);
    EntityLookup(alias, id, vs, 1);
    EntityLookup(alias, id, vs, 2);
    EntityLookup(alias, id, vs, 5);
    EntityLookup(alias, id, vs, 14);
  }

  /** The entity keeps every value read from "experiment_name" on, but the
      platform, under its key. */
  lemma EntityOfCopies(alias: Value, id: string, vs: seq<Value>)
    requires |vs| == |ReadGroupKeys|
    ensures var e := EntityOf(alias, id, vs).fields;
            && Get(e, "experiment_name") == Some(vs[2])
            && Get(e, "sequencing_center") == Some(vs[3])
            && Get(e, "library_selection") == Some(vs[5])
            && Get(e, "library_strategy") == Some(vs[6])
            && Get(e, "library_name") == Some(vs[7])
            && Get(e, "lane_number") == Some(vs[8])
            && Get(e, "is_paired_end") == Some(vs[9])
            && Get(e, "read_length") == Some(vs[10])
            && Get(e, "read_group_name") == Some(vs[11])
            && Get(e, "target_capture_kit") == Some(vs[12])
  {
    EntityLookup(alias, id, vs, 3);
    EntityLookup(alias, id, vs, 4);
    EntityLookup(alias, id, vs, 6);
    EntityLookup(alias, id, vs, 7);
    EntityLookup(alias, id, vs, 8);
    EntityLookup(alias, id, vs, 9);
    EntityLookup(alias, id, vs, 10);
    EntityLookup(alias, id, vs, 11);
    EntityLookup(alias, id, vs, 12);
    EntityLookup(alias, id, vs, 13);
  }

  /** The keys a read-group entity copies unchanged from its read group. */
  const CopiedKeys: seq<string> :=
    ["experiment_name", "sequencing_center", "library_selection", "library_strategy", "library_name",
     "lane_number", "is_paired_end", "read_length", "read_group_name", "target_capture_kit"]

  /** A read-group entity is built iff the sample metadata has an alias and the read
      group is an object holding every key read; a missing alias is raised first. */
  lemma ReadGroupEntityBuilt(readGroup: Value, sampleMetadata: Dict, constant: string)
    ensures ReadGroupEntity(readGroup, sampleMetadata, constant).Ok? <==>
              HasKey(sampleMetadata, "sample_alias") && readGroup.Obj?
              && forall i :: 0 <= i < |ReadGroupKeys| ==> HasKey(readGroup.fields, ReadGroupKeys[i])
    ensures !HasKey(sampleMetadata, "sample_alias") ==>
              ReadGroupEntity(readGroup, sampleMetadata, constant) == Err(KeyError("sample_alias"))
  {
    FetchMeans(readGroup, ReadGroupKeys);
  }

  /** A read-group entity refers to the aliquot by the sample alias, its submitter
      id is the read-group id, the later "platform" entry wins, and every other key
      copied carries the read group's value. */
  lemma ReadGroupEntityFields(readGroup: Value, sampleMetadata: Dict, constant: string)
    requires ReadGroupEntity(readGroup, sampleMetadata, constant).Ok?
    ensures var e := ReadGroupEntity(readGroup, sampleMetadata, constant).value;
            e.Obj? && readGroup.Obj? && ReadGroupId(readGroup, constant).Ok?
            && Get(e.fields, "type") == Some(Str("read_group"))
            && Get(e.fields, "aliquots") == Some(Obj([("submitter_id", GetOr(sampleMetadata, "sample_alias", Null))]))
            && Get(e.fields, "submitter_id") == Some(Str(ReadGroupId(readGroup, constant).value))
            && Get(e.fields, "platform") == Some(Str("Illumina"))
            && Get(e.fields, "to_trim_adapter_sequence") == Some(Bool(true))
            && forall k :: k in CopiedKeys ==> Get(e.fields, k) == Get(readGroup.fields, k)
  {
    FetchMeans(readGroup, ReadGroupKeys);
    var alias := Lookup(sampleMetadata, "sample_alias").value;
    var vs := Fetch(readGroup, ReadGroupKeys).value;
    var id := Join(".", [Show(vs[0]), Show(vs[1]), constant]);
    EntityOfFields(alias, id, vs);
    EntityOfCopies(alias, id, vs);
    assert ReadGroupId(readGroup, constant) == Ok(id);
    forall k | k in CopiedKeys ensures Get(EntityOf(alias, id, vs).fields, k) == Get(readGroup.fields, k) {
      assert k in ReadGroupKeys;
    }
  }

  /** A read-group entity names the sample alias as its aliquot's submitter id. */
  lemma ReadGroupEntityAliquot(readGroup: Value, sampleMetadata: Dict, constant: string)
    requires ReadGroupEntity(readGroup, sampleMetadata, constant).Ok?
    ensures At(At(ReadGroupEntity(readGroup, sampleMetadata, constant).value, "aliquots"), "submitter_id")
              == GetOr(sampleMetadata, "sample_alias", Null)
  {
    var alias := Lookup(sampleMetadata, "sample_alias").value;
    var vs := Fetch(readGroup, ReadGroupKeys).value;
    var id := Join(".", [Show(vs[0]), Show(vs[1]), constant]);
    EntityLookup(alias, id, vs, 1);
    assert At(Obj([("submitter_id", alias)]), "submitter_id") == alias;
  }

  /** The loop body of `createReadGroups` as a function of the read group. */
  function Entity(sampleMetadata: Dict, constant: string): Value -> Result<Value> {
    readGroup => ReadGroupEntity(readGroup, sampleMetadata, constant)
  }

  /** What `createReadGroups` returns: the shared part of the submitter id is
      formed first, then the read groups are read and each becomes an entity. */
  function ReadGroupEntities(sampleMetadata: Dict): Result<seq<Value>> {
    var constant :- SubmitterIdConstant(sampleMetadata);
    var groups :- Lookup(sampleMetadata, "read_groups");
    var items :- Iterate(groups);
    Mapped(items, Entity(sampleMetadata, constant))
  }

  /** `createReadGroups`. */
  method CreateReadGroups(sampleMetadata: Dict) returns (r: Result<seq<Value>>)
    ensures r == ReadGroupEntities(sampleMetadata)
  {
    var constant := SubmitterIdConstant(sampleMetadata);
    if constant.Err? {
      return Err(constant.error);
    }
    var groups := Lookup(sampleMetadata, "read_groups");
    if groups.Err? {
      return Err(groups.error);
    }
    var items := Iterate(groups.value);
    if items.Err? {
      return Err(items.error);
    }
    r := AppendEach(items.value, Entity(sampleMetadata, constant.value));
  }

  /** The read groups of the sample metadata as `createReadGroups` iterates them. */
  function ListedGroups(sampleMetadata: Dict): seq<Value> {
    var groups := GetOr(sampleMetadata, "read_groups", Null);
    if Iterate(groups).Ok? then Iterate(groups).value else []
  }

  /** One entity per read group, in the order of the read groups, and each read
      group's entity is built as the loop body builds it. */
  lemma ReadGroupEntitiesInOrder(sampleMetadata: Dict)
    ensures ReadGroupEntities(sampleMetadata).Ok? ==>
              var groups := ListedGroups(sampleMetadata);
              var constant := SubmitterIdConstant(sampleMetadata).value;
              && |ReadGroupEntities(sampleMetadata).value| == |groups|
              && forall j :: 0 <= j < |groups| ==>
                   ReadGroupEntity(groups[j], sampleMetadata, constant).Ok?
                   && ReadGroupEntities(sampleMetadata).value[j] == ReadGroupEntity(groups[j], sampleMetadata, constant).value
  {
    var constant := SubmitterIdConstant(sampleMetadata);
    if constant.Ok? && HasKey(sampleMetadata, "read_groups") {
      var groups := Lookup(sampleMetadata, "read_groups").value;
      assert groups == GetOr(sampleMetadata, "read_groups", Null);
      if Iterate(groups).Ok? {
        MappedSucceeds(Iterate(groups).value, Entity(sampleMetadata, constant.value));
      }
    }
  }

  /** What `createLinkData` returns: the case, the sample and the aliquot, then the
      read-group entities. */
  function LinkData(sampleMetadata: Dict, program: Value, project: Value): Result<seq<Value>> {
    var sample :- Sample(sampleMetadata, program, project);
    var aliquot :- Aliquot(sampleMetadata);
    var readGroups :- ReadGroupEntities(sampleMetadata);
    Ok([Case(program, project), sample, aliquot] + readGroups)
  }

  /** `createLinkData`. */
  method CreateLinkData(sampleMetadata: Dict, program: Value, project: Value) returns (r: Result<seq<Value>>)
    ensures r == LinkData(sampleMetadata, program, project)
  {
    var caseEntity := Case(program, project);
    var sample := Sample(sampleMetadata, program, project);
    if sample.Err? {
      return Err(sample.error);
    }
    var aliquot := Aliquot(sampleMetadata);
    if aliquot.Err? {
      return Err(aliquot.error);
    }
    var readGroups := CreateReadGroups(sampleMetadata);
    if readGroups.Err? {
      return Err(readGroups.error);
    }
    return Ok([caseEntity, sample.value, aliquot.value] + readGroups.value);
  }

  /** The link data exists iff the sample metadata has an alias and the read-group
      entities can be built; it is the case, the sample and the aliquot followed by
      the read-group entities in order. */
  lemma LinkDataShape(sampleMetadata: Dict, program: Value, project: Value)
    ensures LinkData(sampleMetadata, program, project).Ok? <==>
              HasKey(sampleMetadata, "sample_alias") && ReadGroupEntities(sampleMetadata).Ok?
    ensures !HasKey(sampleMetadata, "sample_alias") ==> LinkData(sampleMetadata, program, project) == Err(KeyError("sample_alias"))
    ensures LinkData(sampleMetadata, program, project).Ok? ==>
              var data := LinkData(sampleMetadata, program, project).value;
              |data| == 3 + |ReadGroupEntities(sampleMetadata).value|
              && data[0] == Case(program, project)
              && data[3..] == ReadGroupEntities(sampleMetadata).value
  {
  }

  /** The case's submitter id is built from the program and the project. */
  lemma CaseReference(program: Value, project: Value)
    ensures At(Case(program, project), "submitter_id") == Str(CaseId(program, project))
  {
    var f := Case(program, project).fields;
    assert f[0].0 == "type" && f[1].0 == "projects" && f[2].0 == "submitter_id";
    assert Get(f, "submitter_id") == Get(f[1..], "submitter_id") == Get(f[1..][1..], "submitter_id");
  }
  /** The sample names the case's submitter id and its own is built from the alias. */
  lemma SampleReferences(sampleMetadata: Dict, program: Value, project: Value)
    requires Sample(sampleMetadata, program, project).Ok?
    ensures At(At(Sample(sampleMetadata, program, project).value, "cases"), "submitter_id") == Str(CaseId(program, project))
    ensures At(Sample(sampleMetadata, program, project).value, "submitter_id") == Str(SampleId(GetOr(sampleMetadata, "sample_alias", Null)))
  {
    var f := Sample(sampleMetadata, program, project).value.fields;
    assert f[0].0 == "type" && f[1].0 == "cases" && f[2].0 == "submitter_id";
    assert Get(f, "cases") == Get(f[1..], "cases");
    assert Get(f, "submitter_id") == Get(f[1..], "submitter_id") == Get(f[1..][1..], "submitter_id");
    var c := f[1].1.fields;
    assert c[0].0 == "submitter_id";
  }
  /** The aliquot names the sample's submitter id and carries the alias as its own. */
  lemma AliquotReferences(sampleMetadata: Dict)
    requires Aliquot(sampleMetadata).Ok?
    ensures At(At(Aliquot(sampleMetadata).value, "samples"), "submitter_id") == Str(SampleId(GetOr(sampleMetadata, "sample_alias", Null)))
    ensures At(Aliquot(sampleMetadata).value, "submitter_id") == GetOr(sampleMetadata, "sample_alias", Null)
  {
    var f := Aliquot(sampleMetadata).value.fields;
    assert f[0].0 == "type" && f[1].0 == "samples" && f[2].0 == "submitter_id";
    assert Get(f, "samples") == Get(f[1..], "samples");
    assert Get(f, "submitter_id") == Get(f[1..], "submitter_id") == Get(f[1..][1..], "submitter_id");
    var c := f[1].1.fields;
    assert c[0].0 == "submitter_id";
  }

  /** The case, the sample and the aliquot refer to each other: the sample names
      the case's submitter id, and the aliquot names the sample's and carries the
      sample alias as its own. */
  lemma LinkedHeadAgrees(sampleMetadata: Dict, program: Value, project: Value)
    requires LinkData(sampleMetadata, program, project).Ok?
    ensures var data := LinkData(sampleMetadata, program, project).value;
            && At(data[0], "submitter_id") == Str(CaseId(program, project))
            && At(At(data[1], "cases"), "submitter_id") == At(data[0], "submitter_id")
            && At(data[1], "submitter_id") == Str(SampleId(GetOr(sampleMetadata, "sample_alias", Null)))
            && At(At(data[2], "samples"), "submitter_id") == At(data[1], "submitter_id")
            && At(data[2], "submitter_id") == GetOr(sampleMetadata, "sample_alias", Null)
  {
    CaseReference(program, project);
    SampleReferences(sampleMetadata, program, project);
    AliquotReferences(sampleMetadata);
  }

  /** Every read-group entity names the sample alias as its aliquot's submitter id. */
  lemma ReadGroupEntitiesNameAlias(sampleMetadata: Dict)
    requires ReadGroupEntities(sampleMetadata).Ok?
    ensures var entities := ReadGroupEntities(sampleMetadata).value;
            forall j :: 0 <= j < |entities| ==>
              At(At(entities[j], "aliquots"), "submitter_id") == GetOr(sampleMetadata, "sample_alias", Null)
  {
    var entities := ReadGroupEntities(sampleMetadata).value;
    ReadGroupEntitiesInOrder(sampleMetadata);
    var groups := ListedGroups(sampleMetadata);
    var constant := SubmitterIdConstant(sampleMetadata).value;
    forall j | 0 <= j < |entities|
      ensures At(At(entities[j], "aliquots"), "submitter_id") == GetOr(sampleMetadata, "sample_alias", Null)
    {
      ReadGroupEntityAliquot(groups[j], sampleMetadata, constant);
    }
  }

  /** Every read-group entity of the link data names the aliquot's submitter id,
      which is the sample alias. */
  lemma LinkedReadGroupsAgree(sampleMetadata: Dict, program: Value, project: Value)
    requires LinkData(sampleMetadata, program, project).Ok?
    ensures var data := LinkData(sampleMetadata, program, project).value;
            forall i :: 3 <= i < |data| ==>
              At(At(data[i], "aliquots"), "submitter_id") == GetOr(sampleMetadata, "sample_alias", Null)
  {
    var data := LinkData(sampleMetadata, program, project).value;
    LinkDataShape(sampleMetadata, program, project);
    ReadGroupEntitiesNameAlias(sampleMetadata);
    var entities := ReadGroupEntities(sampleMetadata).value;
    assert forall i :: 3 <= i < |data| ==> data[i] == entities[i - 3];
  }

  /** Lines 10-17 of `link_entity`: the first sample of the metadata document and
      the document's program and project, handed to `createLinkData`. */
  function LinkEntityData(metadata: Dict): Result<seq<Value>> {
    var first :- FirstSample(metadata);
    var project :- Lookup(metadata, "project");
    var program :- Lookup(metadata, "program");
    if !first.Obj? then Err(TypeError("object is not subscriptable by a string"))
    else LinkData(first.fields, program, project)
  }

  /** The document's program and project name the case, and the first sample's
      alias names the aliquot. */
  lemma LinkEntityNamesCase(metadata: Dict)
    requires LinkEntityData(metadata).Ok?
    ensures FirstSample(metadata).Ok? && FirstSample(metadata).value.Obj?
    ensures var data := LinkEntityData(metadata).value;
            At(data[0], "submitter_id")
              == Str(CaseId(GetOr(metadata, "program", Null), GetOr(metadata, "project", Null)))
            && At(data[2], "submitter_id") == GetOr(FirstSample(metadata).value.fields, "sample_alias", Null)
  {
    var first := FirstSample(metadata).value;
    LinkedHeadAgrees(first.fields, Lookup(metadata, "program").value, Lookup(metadata, "project").value);
  }
}
