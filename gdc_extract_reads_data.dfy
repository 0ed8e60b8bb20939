/**
 * Formatting extracted read groups as GDC read_group entities and submitting
 * them (src/scripts/gdc/extract_reads_data.py).  Each read group gets a
 * submitter id, a library strategy in GDC's terms and a short read-group name,
 * and keeps every library-preparation key it carries.
 */
module GdcExtractReadsData {
  import opened Outcome
  import opened Python
  import opened Each
  import CreateSampleTsv
  import LinkGdcEntities
  import ExtractReadsMetadataFromJson

  // ---------------------------------------------------------------------------
  // Library strategy and selection

  /** The data types already in GDC's terms: the values of the conversion table. */
  const GdcDataTypes: seq<Value> := Values(ExtractReadsMetadataFromJson.DataTypeConversion)

  /** The library strategy of a read: a data type already in GDC's terms is kept,
      one the table maps is converted, and any other leaves "" (its KeyError is
      logged and swallowed).  A list or a dict as the data type is unhashable, and
      that TypeError is not caught. */
  function LibraryStrategy(dataType: Value): Result<Value> {
    if dataType in GdcDataTypes then Ok(dataType)
    else
      var mapped := DictIndex(ExtractReadsMetadataFromJson.DataTypeConversion, dataType);
      if mapped.Ok? then mapped
      else if mapped.error.KeyError? then Ok(Str(""))
      else Err(mapped.error)
  }

  /** WXS, WGS and RNA are kept, Exome becomes WXS, an unhashable data type raises
      TypeError, and every other data type gives "". */
  lemma LibraryStrategyMeans(dataType: Value)
    ensures dataType in [Str("WXS"), Str("WGS"), Str("RNA")] ==> LibraryStrategy(dataType) == Ok(dataType)
    ensures dataType == Str("Exome") ==> LibraryStrategy(dataType) == Ok(Str("WXS"))
    ensures dataType.List? || dataType.Obj? ==> LibraryStrategy(dataType).Err? && LibraryStrategy(dataType).error.TypeError?
    ensures !dataType.List? && !dataType.Obj? && dataType !in [Str("WXS"), Str("WGS"), Str("RNA"), Str("Exome")] ==>
              LibraryStrategy(dataType) == Ok(Str(""))
  {
    assert GdcDataTypes == [Str("WXS"), Str("WGS"), Str("RNA")];
    if dataType.Str? {
      ExtractReadsMetadataFromJson.ConversionGet(dataType.s);
    }
  }

  /** GDC spells the hybrid-selection library selection with a space. */
  function SelectionName(selection: Value): Value {
    if selection == Str("HybridSelection") then Str("Hybrid Selection") else selection
  }

  // ---------------------------------------------------------------------------
  // Library-preparation keys

  const LibraryPreparation := "library_preparation"

  /** A value the dict comprehension keeps: neither None nor "". */
  predicate Kept(v: Value) {
    v != Null && v != Str("")
  }

  predicate IsPreparationEntry(e: (string, Value)) {
    Contains(e.0, LibraryPreparation) && Kept(e.1)
  }

  /** The entries the dict comprehension over `read.items()` keeps, in order. */
  function PreparationEntries(fields: Dict): (r: Dict)
    ensures forall i :: 0 <= i < |r| ==> IsPreparationEntry(r[i])
  {
    if fields == [] then []
    else
      var n := |fields| - 1;
      PreparationEntries(fields[..n]) + (if IsPreparationEntry(fields[n]) then [fields[n]] else [])
  }

  /** A key the read passes on: it contains "library_preparation" and holds a
      value that is neither None nor "". */
  predicate Copied(fields: Dict, key: string) {
    Contains(key, LibraryPreparation) && HasKey(fields, key) && Kept(GetOr(fields, key, Null))
  }

  /** The comprehension keeps exactly the copied keys, each with its value. */
  lemma {:induction false} PreparationLast(fields: Dict, key: string)
    requires DistinctKeys(fields)
    ensures LastValue(PreparationEntries(fields), key) == if Copied(fields, key) then Get(fields, key) else None
  {
    if fields != [] {
      var n := |fields| - 1;
      var front := fields[..n];
      var kept := PreparationEntries(front);
      assert DistinctKeys(front);
      PreparationLast(front, key);
      DictOfDistinct(fields);
      DictOfDistinct(front);
      DictOfGet(fields, key);
      DictOfGet(front, key);
      if IsPreparationEntry(fields[n]) {
        assert PreparationEntries(fields) == kept + [fields[n]];
        assert (kept + [fields[n]])[..|kept|] == kept;
      } else {
        assert PreparationEntries(fields) == kept;
      }
      if fields[n].0 == key {
        HasKeyMeans(front, key);
        assert !HasKey(front, key);
      }
    }
  }

  /** No key of a read-group entity contains "library_preparation", so the copies
      never replace one of them. */
  lemma EntityKeysNotPreparation()
    ensures forall k :: k in LinkGdcEntities.EntityKeys ==> !Contains(k, LibraryPreparation)
  {
    forall k | k in LinkGdcEntities.EntityKeys ensures !Contains(k, LibraryPreparation) {
      if k == "to_trim_adapter_sequence" {
        ContainsNeedsFirst(k, LibraryPreparation);
      } else {
        ContainsNeedsLength(k, LibraryPreparation);
      }
    }
  }

  // ---------------------------------------------------------------------------
  // format_read_group

  /** The keys read first: those of the submitter id's constant part and the data type. */
  const HeadKeys: seq<string> := ["aggregation_project", "sample_identifier", "data_type"]

  /** The keys the dict display reads, left to right, up to the read-group name's
      barcode. */
  const FieldKeys: seq<string> :=
    ["sample_identifier", "flow_cell_barcode", "lane_number", "experiment_name", "sequencing_center",
     "platform", "library_selection", "library_name", "lane_number", "is_paired_end", "read_length",
     "flow_cell_barcode"]

  /** The values of the read-group entity, in the order of its keys. */
  function BaseValues(head: seq<Value>, strategy: Value, vs: seq<Value>, prefix: Value, kit: Value): (r: seq<Value>)
    requires |head| == |HeadKeys| && |vs| == |FieldKeys|
    ensures |r| == |LinkGdcEntities.EntityKeys|
  {
    [Str("read_group"), Obj([("submitter_id", vs[0])]),
     Str(Join(".", [Show(vs[1]), Show(vs[2]), Join(".", [Show(head[0]), Show(head[1])])])),
     vs[3], vs[4], vs[5], SelectionName(vs[6]), strategy, vs[7], vs[8], vs[9], vs[10],
     Str(Show(prefix) + "." + Show(vs[2])), kit, Bool(true)]
  }

  /** The first reads of `format_read_group`: the constant part of the submitter
      id, then the data type and the library strategy made from it. */
  function HeadOf(read: Value): (r: Result<(seq<Value>, Value)>)
    ensures r.Ok? ==> |r.value.0| == |HeadKeys|
  {
    var head :- LinkGdcEntities.Fetch(read, HeadKeys);
    var strategy :- LibraryStrategy(head[2]);
    Ok((head, strategy))
  }

  /** The reads of the dict display, left to right: its keys, the barcode's first
      five characters and the capture kit. */
  function BodyOf(read: Value): (r: Result<(seq<Value>, Value, Value)>)
    ensures r.Ok? ==> |r.value.0| == |FieldKeys| && read.Obj?
  {
    var vs :- LinkGdcEntities.Fetch(read, FieldKeys);
    var prefix :- SliceTo(vs[11], 5);
    var kit :- Subscript(read, "target_capture_kit");
    Ok((vs, prefix, kit))
  }

  /** `format_read_group(read)`: the library-preparation entries merged over the
      dict display. */
  function FormatReadGroup(read: Value): Result<Value> {
    var h :- HeadOf(read);
    var b :- BodyOf(read);
    var base := Display(LinkGdcEntities.EntityKeys, BaseValues(h.0, h.1, b.0, b.1, b.2));
    Ok(Obj(Merge(base, DictOf(PreparationEntries(read.fields)))))
  }

  /** The head is read iff the read is a dict with its three keys and a hashable
      data type; it then holds those values and the strategy of the data type. */
  lemma HeadOfMeans(read: Value)
    ensures HeadOf(read).Ok? <==>
              read.Obj? && (forall k :: k in HeadKeys ==> HasKey(read.fields, k))
              && !At(read, "data_type").List? && !At(read, "data_type").Obj?
    ensures !read.Obj? ==> HeadOf(read).Err? && HeadOf(read).error.TypeError?
    ensures read.Obj? && !HasKey(read.fields, "aggregation_project") ==> HeadOf(read) == Err(KeyError("aggregation_project"))
    ensures HeadOf(read).Ok? ==>
              HeadOf(read).value.0 == [At(read, "aggregation_project"), At(read, "sample_identifier"), At(read, "data_type")]
              && LibraryStrategy(At(read, "data_type")) == Ok(HeadOf(read).value.1)
  {
    LinkGdcEntities.FetchMeans(read, HeadKeys);
    LibraryStrategyMeans(At(read, "data_type"));
    assert HeadKeys[0] == "aggregation_project";
    if LinkGdcEntities.Fetch(read, HeadKeys).Ok? {
      var head := LinkGdcEntities.Fetch(read, HeadKeys).value;
      assert head == [At(read, "aggregation_project"), At(read, "sample_identifier"), At(read, "data_type")];
    }
  }

  /** The body is read iff the read is a dict with every key the display reads and
      a barcode that can be sliced; it then holds those values. */
  lemma BodyOfMeans(read: Value)
    ensures BodyOf(read).Ok? <==>
              read.Obj? && (forall k :: k in FieldKeys ==> HasKey(read.fields, k))
              && HasKey(read.fields, "target_capture_kit")
              && (At(read, "flow_cell_barcode").Str? || At(read, "flow_cell_barcode").List?)
    ensures BodyOf(read).Ok? ==>
              BodyOf(read).value.0 == ReadValues(read)
              && SliceTo(At(read, "flow_cell_barcode"), 5) == Ok(BodyOf(read).value.1)
              && BodyOf(read).value.2 == At(read, "target_capture_kit")
  {
    LinkGdcEntities.FetchMeans(read, FieldKeys);
    if LinkGdcEntities.Fetch(read, FieldKeys).Ok? {
      var vs := LinkGdcEntities.Fetch(read, FieldKeys).value;
      assert vs == ReadValues(read);
    }
  }

  /** The values the display reads, by name. */
  function ReadValues(read: Value): (r: seq<Value>)
    ensures |r| == |FieldKeys|
  {
    [At(read, "sample_identifier"), At(read, "flow_cell_barcode"), At(read, "lane_number"),
     At(read, "experiment_name"), At(read, "sequencing_center"), At(read, "platform"),
     At(read, "library_selection"), At(read, "library_name"), At(read, "lane_number"),
     At(read, "is_paired_end"), At(read, "read_length"), At(read, "flow_cell_barcode")]
  }

  /** The keys a read must hold. */
  const ReadKeys: seq<string> := HeadKeys + FieldKeys + ["target_capture_kit"]

  /** A read is formatted iff it is a dict holding every key read, its data type is
      hashable and its flow-cell barcode can be sliced; a read that is not a dict
      raises TypeError and a missing aggregation project is the first KeyError. */
  lemma FormatReadGroupSucceeds(read: Value)
    ensures FormatReadGroup(read).Ok? <==>
              read.Obj? && (forall k :: k in ReadKeys ==> HasKey(read.fields, k))
              && !At(read, "data_type").List? && !At(read, "data_type").Obj?
              && (At(read, "flow_cell_barcode").Str? || At(read, "flow_cell_barcode").List?)
    ensures !read.Obj? ==> FormatReadGroup(read).Err? && FormatReadGroup(read).error.TypeError?
    ensures read.Obj? && !HasKey(read.fields, "aggregation_project") ==>
              FormatReadGroup(read) == Err(KeyError("aggregation_project"))
  {
    HeadOfMeans(read);
    BodyOfMeans(read);
  }

  /** The read-group entity's own values, read from the formatted read: the
      submitter id joins barcode, lane, aggregation project and sample identifier;
      the aliquot is the sample identifier; the strategy and the selection are
      rewritten; the read-group name is the barcode's first five characters and the
      lane. */
  lemma FormattedEntries(read: Value)
    requires FormatReadGroup(read).Ok?
    ensures var r := FormatReadGroup(read).value;
            r.Obj? && LibraryStrategy(At(read, "data_type")).Ok? && SliceTo(At(read, "flow_cell_barcode"), 5).Ok?
            && Get(r.fields, "type") == Some(Str("read_group"))
            && Get(r.fields, "aliquots") == Some(Obj([("submitter_id", At(read, "sample_identifier"))]))
            && Get(r.fields, "submitter_id") ==
                 Some(Str(Join(".", [Show(At(read, "flow_cell_barcode")), Show(At(read, "lane_number")),
                                     Show(At(read, "aggregation_project")), Show(At(read, "sample_identifier"))])))
            && Get(r.fields, "library_strategy") == Some(LibraryStrategy(At(read, "data_type")).value)
            && Get(r.fields, "library_selection") == Some(SelectionName(At(read, "library_selection")))
            && Get(r.fields, "read_group_name") ==
                 Some(Str(Show(SliceTo(At(read, "flow_cell_barcode"), 5).value) + "." + Show(At(read, "lane_number"))))
            && Get(r.fields, "to_trim_adapter_sequence") == Some(Bool(true))
  {
    var h := HeadOf(read).value;
    var b := BodyOf(read).value;
    FormattedParts(read);
    var r := FormatReadGroup(read).value;
    HeadOfMeans(read);
    BodyOfMeans(read);
    BaseEntries(read, h.0, h.1, b.0, b.1, b.2);
    EntriesRewritten(r.fields, h.0, h.1, b.0, b.1, b.2);
  }

  /** The other entries of the entity are the read's own values. */
  lemma FormattedKeepsRead(read: Value)
    requires FormatReadGroup(read).Ok?
    ensures var r := FormatReadGroup(read).value;
            r.Obj?
            && Get(r.fields, "experiment_name") == Some(At(read, "experiment_name"))
            && Get(r.fields, "sequencing_center") == Some(At(read, "sequencing_center"))
            && Get(r.fields, "platform") == Some(At(read, "platform"))
            && Get(r.fields, "library_name") == Some(At(read, "library_name"))
            && Get(r.fields, "lane_number") == Some(At(read, "lane_number"))
            && Get(r.fields, "is_paired_end") == Some(At(read, "is_paired_end"))
            && Get(r.fields, "read_length") == Some(At(read, "read_length"))
            && Get(r.fields, "target_capture_kit") == Some(At(read, "target_capture_kit"))
  {
    var h := HeadOf(read).value;
    var b := BodyOf(read).value;
    FormattedParts(read);
    var r := FormatReadGroup(read).value;
    BodyOfMeans(read);
    BaseEntries(read, h.0, h.1, b.0, b.1, b.2);
    EntriesCopied(r.fields, h.0, h.1, b.0, b.1, b.2);
  }

  /** A formatted read is the display of the head's and the body's values with
      the library-preparation entries merged over it. */
  lemma FormattedParts(read: Value)
    requires FormatReadGroup(read).Ok?
    ensures HeadOf(read).Ok? && BodyOf(read).Ok? && read.Obj?
    ensures var h := HeadOf(read).value;
            var b := BodyOf(read).value;
            FormatReadGroup(read).value ==
              Obj(Merge(Display(LinkGdcEntities.EntityKeys, BaseValues(h.0, h.1, b.0, b.1, b.2)),
                        DictOf(PreparationEntries(read.fields))))
  {
  }

  /** The rewritten entries of the entity by name, given each key's value in the display. */
  lemma EntriesRewritten(r: Dict, head: seq<Value>, strategy: Value, vs: seq<Value>, prefix: Value, kit: Value)
    requires |head| == |HeadKeys| && |vs| == |FieldKeys|
    requires var values := BaseValues(head, strategy, vs, prefix, kit);
             forall i :: 0 <= i < |LinkGdcEntities.EntityKeys| ==> Get(r, LinkGdcEntities.EntityKeys[i]) == Some(values[i])
    ensures Get(r, "type") == Some(Str("read_group"))
    ensures Get(r, "aliquots") == Some(Obj([("submitter_id", vs[0])]))
    ensures Get(r, "submitter_id") == Some(Str(Join(".", [Show(vs[1]), Show(vs[2]), Show(head[0]), Show(head[1])])))
    ensures Get(r, "library_strategy") == Some(strategy)
    ensures Get(r, "library_selection") == Some(SelectionName(vs[6]))
    ensures Get(r, "read_group_name") == Some(Str(Show(prefix) + "." + Show(vs[2])))
    ensures Get(r, "to_trim_adapter_sequence") == Some(Bool(true))
  {
    var keys := LinkGdcEntities.EntityKeys;
    assert keys[0] == "type" && keys[1] == "aliquots" && keys[2] == "submitter_id";
    assert keys[6] == "library_selection" && keys[7] == "library_strategy";
    assert keys[12] == "read_group_name" && keys[14] == "to_trim_adapter_sequence";
    SubmitterIdJoin(vs[1], vs[2], head[0], head[1]);
  }

  /** The copied entries of the entity by name, given each key's value in the display. */
  lemma EntriesCopied(r: Dict, head: seq<Value>, strategy: Value, vs: seq<Value>, prefix: Value, kit: Value)
    requires |head| == |HeadKeys| && |vs| == |FieldKeys|
    requires var values := BaseValues(head, strategy, vs, prefix, kit);
             forall i :: 0 <= i < |LinkGdcEntities.EntityKeys| ==> Get(r, LinkGdcEntities.EntityKeys[i]) == Some(values[i])
    ensures Get(r, "experiment_name") == Some(vs[3]) && Get(r, "sequencing_center") == Some(vs[4])
    ensures Get(r, "platform") == Some(vs[5]) && Get(r, "library_name") == Some(vs[7])
    ensures Get(r, "lane_number") == Some(vs[8]) && Get(r, "is_paired_end") == Some(vs[9])
    ensures Get(r, "read_length") == Some(vs[10]) && Get(r, "target_capture_kit") == Some(kit)
  {
    var keys := LinkGdcEntities.EntityKeys;
    assert keys[3] == "experiment_name" && keys[4] == "sequencing_center" && keys[5] == "platform";
    assert keys[8] == "library_name" && keys[9] == "lane_number" && keys[10] == "is_paired_end";
    assert keys[11] == "read_length" && keys[13] == "target_capture_kit";
  }

  /** The submitter id's two joins are one join of the four parts. */
  lemma SubmitterIdJoin(barcode: Value, lane: Value, project: Value, sample: Value)
    ensures Join(".", [Show(barcode), Show(lane), Join(".", [Show(project), Show(sample)])]) ==
            Join(".", [Show(barcode), Show(lane), Show(project), Show(sample)])
  {
    CreateSampleTsv.JoinTail(".", [Show(barcode), Show(lane)], [Show(project), Show(sample)]);
    assert [Show(barcode), Show(lane)] + [Show(project), Show(sample)] ==
           [Show(barcode), Show(lane), Show(project), Show(sample)];
    assert [Show(barcode), Show(lane)] + [Join(".", [Show(project), Show(sample)])] ==
           [Show(barcode), Show(lane), Join(".", [Show(project), Show(sample)])];
  }

  /** Each key of the entity keeps the value the display gives it, whatever the
      library-preparation entries are. */
  lemma BaseEntries(read: Value, head: seq<Value>, strategy: Value, vs: seq<Value>, prefix: Value, kit: Value)
    requires read.Obj? && |head| == |HeadKeys| && |vs| == |FieldKeys|
    ensures var values := BaseValues(head, strategy, vs, prefix, kit);
            var r := Merge(Display(LinkGdcEntities.EntityKeys, values), DictOf(PreparationEntries(read.fields)));
            forall i :: 0 <= i < |LinkGdcEntities.EntityKeys| ==> Get(r, LinkGdcEntities.EntityKeys[i]) == Some(values[i])
  {
    var keys := LinkGdcEntities.EntityKeys;
    var values := BaseValues(head, strategy, vs, prefix, kit);
    var base := Display(keys, values);
    var copies := DictOf(PreparationEntries(read.fields));
    LinkGdcEntities.EntityKeysDiffer();
    EntityKeysNotPreparation();
    DictOfDistinctKeys(PreparationEntries(read.fields));
    forall i | 0 <= i < |keys| ensures Get(Merge(base, copies), keys[i]) == Some(values[i]) {
      MergeGet(base, copies, keys[i]);
      if HasKey(copies, keys[i]) {
        DictOfKeyFrom(PreparationEntries(read.fields), keys[i]);
        assert false;
      }
      DisplayGet(keys, values, i);
    }
  }

  /** The formatted read has the entity's keys, then the copied keys and no
      other; each copied key keeps the read's value. */
  lemma FormattedCopies(read: Value)
    requires FormatReadGroup(read).Ok? && read.Obj? && DistinctKeys(read.fields)
    ensures var r := FormatReadGroup(read).value;
            r.Obj?
            && (forall k :: Copied(read.fields, k) ==> Get(r.fields, k) == Get(read.fields, k))
            && (forall k :: HasKey(r.fields, k) <==> k in LinkGdcEntities.EntityKeys || Copied(read.fields, k))
  {
    FormattedParts(read);
    var h := HeadOf(read).value;
    var b := BodyOf(read).value;
    var keys := LinkGdcEntities.EntityKeys;
    var base := Display(keys, BaseValues(h.0, h.1, b.0, b.1, b.2));
    var entries := PreparationEntries(read.fields);
    var copies := DictOf(entries);
    DictOfDistinctKeys(entries);
    EntityKeysNotPreparation();
    forall k ensures Get(Merge(base, copies), k) == if Copied(read.fields, k) then Get(read.fields, k) else Get(base, k) {
      MergeGet(base, copies, k);
      DictOfGet(entries, k);
      PreparationLast(read.fields, k);
    }
    forall k ensures HasKey(base, k) <==> k in keys {
      HasKeyMeans(base, k);
    }
    forall k | Copied(read.fields, k) ensures Get(read.fields, k).Some? {
    }
  }

  // ---------------------------------------------------------------------------
  // submit_reads

  /** The formatting of one extracted read: its "attributes" are formatted. */
  function FormatAttributes(read: Value): Result<Value> {
    var attributes :- Subscript(read, "attributes");
    FormatReadGroup(attributes)
  }

  /** `[format_read_group(read["attributes"]) for read in read_metadata]`. */
  function FormattedReads(readMetadata: Value): Result<seq<Value>> {
    var items :- Iterate(readMetadata);
    Mapped(items, FormatAttributes)
  }

  /** One formatted read per extracted read, in order, each its attributes formatted. */
  lemma FormattedReadsInOrder(readMetadata: Value)
    requires readMetadata.List?
    ensures FormattedReads(readMetadata).Ok? <==>
              forall j :: 0 <= j < |readMetadata.items| ==> FormatAttributes(readMetadata.items[j]).Ok?
    ensures FormattedReads(readMetadata).Ok? ==>
              |FormattedReads(readMetadata).value| == |readMetadata.items|
              && forall j :: 0 <= j < |readMetadata.items| ==>
                   FormattedReads(readMetadata).value[j] == FormatReadGroup(At(readMetadata.items[j], "attributes")).value
  {
    MappedSucceeds(readMetadata.items, FormatAttributes);
  }

  /** The exception raised when the submission's transaction was closed. */
  const CloseFailure := Raised("Failed to submit reads, operation: close")

  /** The TypeError of calling `submit_metadata(self, input_data, metadata)`
      (src/services/gdc_api.py:33) with one argument. */
  const MissingMetadata := TypeError("submit_metadata() missing 1 required positional argument: 'metadata'")

  /** `submit_reads` as written: the reads are formatted, then `submit_metadata` is
      called with the formatted list only, which raises TypeError. */
  function SubmitReadsAsWritten(readMetadata: Value): Result<seq<Value>> {
    var formatted :- FormattedReads(readMetadata);
    Err(MissingMetadata)
  }

  /** As written, the submission never succeeds: a formatting error is raised
      first, and otherwise the call raises TypeError. */
  lemma SubmitReadsAsWrittenMeans(readMetadata: Value)
    ensures SubmitReadsAsWritten(readMetadata).Err?
    ensures FormattedReads(readMetadata).Err? ==>
              SubmitReadsAsWritten(readMetadata) == Err(FormattedReads(readMetadata).error)
    ensures FormattedReads(readMetadata).Ok? ==> SubmitReadsAsWritten(readMetadata) == Err(MissingMetadata)
  {
  }

  /** `submit_reads` as evidently intended: the reads are formatted and handed to a
      submission that answers the operation the transaction ended with ("commit" or
      "close", as src/services/gdc_api.py:51-55 chooses it; a parameter here);
      "close" raises.  The result is the list handed over. */
  function SubmitReads(readMetadata: Value, operation: seq<Value> -> Value): Result<seq<Value>> {
    var formatted :- FormattedReads(readMetadata);
    if operation(formatted) == Str("close") then Err(CloseFailure) else Ok(formatted)
  }

  /** The submission succeeds iff every read is formatted and the operation is not
      "close"; a read that cannot be formatted raises before anything is handed
      over. */
  lemma SubmitReadsMeans(readMetadata: Value, operation: seq<Value> -> Value)
    ensures SubmitReads(readMetadata, operation).Ok? <==>
              FormattedReads(readMetadata).Ok? && operation(FormattedReads(readMetadata).value) != Str("close")
    ensures FormattedReads(readMetadata).Err? ==> SubmitReads(readMetadata, operation) == Err(FormattedReads(readMetadata).error)
    ensures FormattedReads(readMetadata).Ok? && operation(FormattedReads(readMetadata).value) == Str("close") ==>
              SubmitReads(readMetadata, operation) == Err(CloseFailure)
    ensures SubmitReads(readMetadata, operation).Ok? ==> SubmitReads(readMetadata, operation) == FormattedReads(readMetadata)
  {
  }

  /** `submit_metadata` has no return statement, so even called with both arguments
      it answers None, and the "close" test never holds: any formatted submission
      then succeeds. */
  lemma SubmitReadsOfNoneReply(readMetadata: Value)
    ensures SubmitReads(readMetadata, _ => Null) == FormattedReads(readMetadata)
  {
  }

  /** An empty list of reads formats without error; as written the submission
      raises TypeError, while the intended one submits nothing and succeeds when
      the transaction commits. */
  lemma SubmitReadsAsWrittenRejects()
    ensures FormattedReads(List([])) == Ok([])
    ensures SubmitReadsAsWritten(List([])) == Err(MissingMetadata)
    ensures SubmitReads(List([]), _ => Str("commit")) == Ok([])
  {
    SubmitReadsAsWrittenMeans(List([]));
  }
}
